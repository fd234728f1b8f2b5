/**
 * The fixed-window rate limiter: one Redis counter for each client address and minute, set to expire 60
 * seconds after its first increment. What it admits in a minute, and in any window of time.
 */
module RateLimit {
  import opened Wrappers

  /** `redisUp` is false when the increment raises or there is no client; `excluded` when the path is exempt. */
  datatype Request = Request(time: real, ip: Option<string>, authenticated: bool, excluded: bool, redisUp: bool)

  datatype Limits = Limits(authenticated: nat, unauthenticated: nat)

  datatype Key = Key(ip: string, minute: int)
  datatype Counter = Counter(count: nat, expiresAt: Option<real>)
  type Store = map<Key, Counter>

  /** `int(time.time()) // 60`, for times since the epoch. */
  function Minute(time: real): int {
    time.Floor / 60
  }

  function LimitOf(r: Request, limits: Limits): nat {
    if r.authenticated then limits.authenticated else limits.unauthenticated
  }

  predicate Live(store: Store, key: Key, now: real) {
    key in store && (store[key].expiresAt.Some? ==> now < store[key].expiresAt.value)
  }

  /** INCR: an expired key counts from nothing again, without an expiry. */
  function Incr(store: Store, key: Key, now: real): Store {
    if Live(store, key, now) then store[key := store[key].(count := store[key].count + 1)]
    else store[key := Counter(1, None)]
  }

  function Expire(store: Store, key: Key, at: real): Store
    requires key in store
  {
    store[key := store[key].(expiresAt := Some(at))]
  }

  predicate Counted(r: Request) {
    !r.excluded && r.ip.Some? && r.redisUp
  }

  function KeyOf(r: Request): Key
    requires Counted(r)
  {
    Key(r.ip.value, Minute(r.time))
  }

  /** The store after a request, and whether the request is let through. */
  function Dispatched(store: Store, r: Request, limits: Limits): (Store, bool) {
    if !Counted(r) then (store, true)
    else
      var key := KeyOf(r);
      var incremented := Incr(store, key, r.time);
      var count := incremented[key].count;
      (if count == 1 then Expire(incremented, key, r.time + 60.0) else incremented, count <= LimitOf(r, limits))
  }

  /** The store after a sequence of requests. */
  function After(requests: seq<Request>, limits: Limits): Store {
    if requests == [] then map[]
    else Dispatched(After(requests[..|requests| - 1], limits), requests[|requests| - 1], limits).0
  }

  predicate Admitted(before: seq<Request>, r: Request, limits: Limits) {
    Dispatched(After(before, limits), r, limits).1
  }

  class RateLimitMiddleware {
    const limits: Limits
    var redis: Store
    ghost var served: seq<Request>

    /** The counters are those that the requests served so far left. */
    ghost predicate Valid()
      reads this
    {
      redis == After(served, limits)
    }

    constructor (limits: Limits)
      ensures Valid() && this.limits == limits && served == []
    {
      this.limits, redis, served := limits, map[], [];
    }

    method Dispatch(r: Request) returns (admitted: bool)
      requires Valid()
      modifies this
      ensures Valid() && served == old(served) + [r]
      ensures admitted == Admitted(old(served), r, limits)
    {
      served := served + [r];
      assert served[..|served| - 1] == old(served);
      if r.excluded || r.ip.None? {
        return true;
      }
      var limit := if r.authenticated then limits.authenticated else limits.unauthenticated;
      var key := Key(r.ip.value, Minute(r.time));
      if !r.redisUp {
        return true;
      }
      redis := Incr(redis, key, r.time);
      var count := redis[key].count;
      if count == 1 {
        redis := Expire(redis, key, r.time + 60.0);
      }
      admitted := count <= limit;
    }
  }

  // ----- Counters are exact

  predicate InMinutes(r: Request, ip: string, lo: int, hi: int) {
    Counted(r) && r.ip == Some(ip) && lo <= Minute(r.time) <= hi
  }

  /** How many counted requests of a client fall in a minute. */
  function Requested(requests: seq<Request>, ip: string, minute: int): nat {
    if requests == [] then 0
    else
      Requested(requests[..|requests| - 1], ip, minute)
      + if InMinutes(requests[|requests| - 1], ip, minute, minute) then 1 else 0
  }

  /** A time is before the end of its minute, and no earlier than its start. */
  lemma MinuteBounds(time: real)
    ensures (60 * Minute(time)) as real <= time < (60 * Minute(time) + 60) as real
  {
    assert 60 * Minute(time) <= time.Floor <= 60 * Minute(time) + 59;
  }

  /**
   * A counter holds exactly the requests of its minute, and expires no earlier than its minute ends: expiry
   * never resets a counter still in use. This needs no order of the requests in time.
   */
  lemma {:induction false} CountersAreExact(requests: seq<Request>, limits: Limits, ip: string, minute: int)
    ensures var key, store := Key(ip, minute), After(requests, limits);
            && (Requested(requests, ip, minute) == 0 <==> key !in store)
            && (key in store ==>
                  && store[key].count == Requested(requests, ip, minute)
                  && store[key].expiresAt.Some? && store[key].expiresAt.value >= (60 * minute + 60) as real
                  && forall now: real | Minute(now) == minute :: Live(store, key, now))
  {
    if requests != [] {
      var before, r := requests[..|requests| - 1], requests[|requests| - 1];
      CountersAreExact(before, limits, ip, minute);
      if Counted(r) {
        MinuteBounds(r.time);
      }
    }
    var store := After(requests, limits);
    if Key(ip, minute) in store {
      forall now: real | Minute(now) == minute ensures Live(store, Key(ip, minute), now) {
        MinuteBounds(now);
      }
    }
  }

  lemma AdmittedExactly(before: seq<Request>, r: Request, limits: Limits)
    requires Counted(r)
    ensures Admitted(before, r, limits) <==> Requested(before, r.ip.value, Minute(r.time)) < LimitOf(r, limits)
  {
    CountersAreExact(before, limits, r.ip.value, Minute(r.time));
  }

  // ----- What is admitted

  /** How many counted requests of a client are admitted in a range of minutes. */
  function Passed(requests: seq<Request>, limits: Limits, ip: string, lo: int, hi: int): nat {
    if requests == [] then 0
    else
      var before, r := requests[..|requests| - 1], requests[|requests| - 1];
      Passed(before, limits, ip, lo, hi) + if InMinutes(r, ip, lo, hi) && Admitted(before, r, limits) then 1 else 0
  }

  function Min(a: nat, b: nat): nat {
    if a < b then a else b
  }

  function Max(a: nat, b: nat): nat {
    if a < b then b else a
  }

  predicate SameClass(requests: seq<Request>, ip: string, minute: int, authenticated: bool) {
    forall i | 0 <= i < |requests| && InMinutes(requests[i], ip, minute, minute) ::
      requests[i].authenticated == authenticated
  }

  /** A client with one limit has exactly the first requests of each minute admitted, up to the limit. */
  lemma {:induction false} MinuteAdmitsTheLimit(
    requests: seq<Request>, limits: Limits, ip: string, minute: int, authenticated: bool)
    requires SameClass(requests, ip, minute, authenticated)
    ensures Passed(requests, limits, ip, minute, minute) ==
              Min(Requested(requests, ip, minute),
                  if authenticated then limits.authenticated else limits.unauthenticated)
  {
    if requests != [] {
      var before, r := requests[..|requests| - 1], requests[|requests| - 1];
      assert forall i | 0 <= i < |before| :: before[i] == requests[i];
      MinuteAdmitsTheLimit(before, limits, ip, minute, authenticated);
      if InMinutes(r, ip, minute, minute) {
        AdmittedExactly(before, r, limits);
      }
    }
  }

  /** A client that mixes both classes passes at most the larger limit, and no fewer than the smaller allows. */
  lemma {:induction false} MinuteAdmitsAtMost(requests: seq<Request>, limits: Limits, ip: string, minute: int)
    ensures Passed(requests, limits, ip, minute, minute) <=
              Min(Requested(requests, ip, minute), Max(limits.authenticated, limits.unauthenticated))
    ensures Passed(requests, limits, ip, minute, minute) >=
              Min(Requested(requests, ip, minute), Min(limits.authenticated, limits.unauthenticated))
  {
    if requests != [] {
      var before, r := requests[..|requests| - 1], requests[|requests| - 1];
      MinuteAdmitsAtMost(before, limits, ip, minute);
      if InMinutes(r, ip, minute, minute) {
        AdmittedExactly(before, r, limits);
      }
    }
  }

  lemma {:induction false} PassedSplits(requests: seq<Request>, limits: Limits, ip: string, lo: int, mid: int, hi: int)
    requires lo <= mid + 1 && mid <= hi
    ensures Passed(requests, limits, ip, lo, hi) ==
              Passed(requests, limits, ip, lo, mid) + Passed(requests, limits, ip, mid + 1, hi)
  {
    if requests != [] {
      PassedSplits(requests[..|requests| - 1], limits, ip, lo, mid, hi);
    }
  }

  /** The limit of `n` minutes together. */
  function Total(n: nat, limit: nat): nat {
    if n == 0 then 0 else Total(n - 1, limit) + limit
  }

  lemma {:induction false} TotalIsProduct(n: nat, limit: nat)
    ensures Total(n, limit) == n * limit
  {
    if n > 0 {
      TotalIsProduct(n - 1, limit);
      assert n * limit == (n - 1) * limit + limit;
    }
  }

  lemma {:induction false} MinutesPassTheTotal(requests: seq<Request>, limits: Limits, ip: string, lo: int, hi: int)
    requires lo <= hi
    ensures Passed(requests, limits, ip, lo, hi) <=
              Total(hi - lo + 1, Max(limits.authenticated, limits.unauthenticated))
    decreases hi - lo
  {
    MinuteAdmitsAtMost(requests, limits, ip, hi);
    if lo < hi {
      MinutesPassTheTotal(requests, limits, ip, lo, hi - 1);
      PassedSplits(requests, limits, ip, lo, hi - 1, hi);
    }
  }

  lemma MinutesAdmitAtMost(requests: seq<Request>, limits: Limits, ip: string, lo: int, hi: int)
    requires lo <= hi
    ensures Passed(requests, limits, ip, lo, hi) <= (hi - lo + 1) * Max(limits.authenticated, limits.unauthenticated)
  {
    MinutesPassTheTotal(requests, limits, ip, lo, hi);
    TotalIsProduct(hi - lo + 1, Max(limits.authenticated, limits.unauthenticated));
  }

  predicate InWindow(r: Request, ip: string, start: int, width: nat) {
    Counted(r) && r.ip == Some(ip) && start as real <= r.time < (start + width) as real
  }

  /** How many counted requests of a client are admitted in a window of whole seconds. */
  function PassedInWindow(requests: seq<Request>, limits: Limits, ip: string, start: int, width: nat): nat {
    if requests == [] then 0
    else
      var before, r := requests[..|requests| - 1], requests[|requests| - 1];
      PassedInWindow(before, limits, ip, start, width)
      + if InWindow(r, ip, start, width) && Admitted(before, r, limits) then 1 else 0
  }

  lemma {:induction false} WindowIsInMinutes(
    requests: seq<Request>, limits: Limits, ip: string, start: int, width: nat)
    requires width >= 1
    ensures PassedInWindow(requests, limits, ip, start, width)
         <= Passed(requests, limits, ip, start / 60, (start + width - 1) / 60)
  {
    if requests != [] {
      WindowIsInMinutes(requests[..|requests| - 1], limits, ip, start, width);
      var r := requests[|requests| - 1];
      if InWindow(r, ip, start, width) {
        assert start <= r.time.Floor <= start + width - 1;
      }
    }
  }

  /** The minutes that a window of whole seconds meets. */
  function MinutesMet(start: int, width: nat): nat
    requires width >= 1
  {
    (start + width - 1) / 60 - start / 60 + 1
  }

  function Larger(limits: Limits): nat {
    Max(limits.authenticated, limits.unauthenticated)
  }

  lemma WindowAdmitsAtMost(requests: seq<Request>, limits: Limits, ip: string, start: int, width: nat)
    requires width >= 1
    ensures PassedInWindow(requests, limits, ip, start, width) <= MinutesMet(start, width) * Larger(limits)
  {
    WindowIsInMinutes(requests, limits, ip, start, width);
    MinutesAdmitAtMost(requests, limits, ip, start / 60, (start + width - 1) / 60);
  }

  lemma Scale(a: int, b: int, limit: nat)
    requires a <= b
    ensures a * limit <= b * limit
  {
    assert b * limit - a * limit == (b - a) * limit;
  }

  /** In any window of `width` seconds, a client is admitted at most its limit for each minute it can meet. */
  lemma WindowBound(requests: seq<Request>, limits: Limits, ip: string, start: int, width: nat)
    requires width >= 1
    ensures PassedInWindow(requests, limits, ip, start, width) <= ((width + 58) / 60 + 1) * Larger(limits)
    ensures width <= 60 ==> PassedInWindow(requests, limits, ip, start, width) <= 2 * Larger(limits)
  {
    WindowAdmitsAtMost(requests, limits, ip, start, width);
    assert MinutesMet(start, width) <= (width + 58) / 60 + 1;
    Scale(MinutesMet(start, width), (width + 58) / 60 + 1, Larger(limits));
    if width <= 60 {
      Scale(MinutesMet(start, width), 2, Larger(limits));
    }
  }

  // ----- The bounds are reached

  /** A request of the class with the larger limit. */
  function OfBurst(time: real, ip: string, limits: Limits): Request {
    Request(time, Some(ip), limits.authenticated >= limits.unauthenticated, false, true)
  }

  function Burst(n: nat, time: real, ip: string, limits: Limits): seq<Request> {
    seq(n, _ => OfBurst(time, ip, limits))
  }

  predicate Ordered(requests: seq<Request>) {
    forall i, k | 0 <= i < k < |requests| :: requests[i].time <= requests[k].time
  }

  lemma OneMorePasses(before: seq<Request>, time: real, ip: string, limits: Limits, start: int, width: nat)
    requires Requested(before, ip, Minute(time)) < Larger(limits)
    requires start as real <= time < (start + width) as real
    ensures var requests := before + [OfBurst(time, ip, limits)];
            && PassedInWindow(requests, limits, ip, start, width) ==
                 PassedInWindow(before, limits, ip, start, width) + 1
            && Requested(requests, ip, Minute(time)) == Requested(before, ip, Minute(time)) + 1
  {
    var requests := before + [OfBurst(time, ip, limits)];
    assert requests[..|requests| - 1] == before;
    AdmittedExactly(before, OfBurst(time, ip, limits), limits);
  }

  /** A burst in a minute that has seen no request yet is admitted in full, up to the limit. */
  lemma {:induction false} BurstPasses(
    before: seq<Request>, n: nat, time: real, ip: string, limits: Limits, start: int, width: nat)
    requires n <= Larger(limits) && Requested(before, ip, Minute(time)) == 0
    requires start as real <= time < (start + width) as real
    ensures var requests := before + Burst(n, time, ip, limits);
            && PassedInWindow(requests, limits, ip, start, width) ==
                 PassedInWindow(before, limits, ip, start, width) + n
            && Requested(requests, ip, Minute(time)) == n
  {
    var requests := before + Burst(n, time, ip, limits);
    if n == 0 {
      assert requests == before;
    } else {
      BurstPasses(before, n - 1, time, ip, limits, start, width);
      assert requests == before + Burst(n - 1, time, ip, limits) + [OfBurst(time, ip, limits)];
      OneMorePasses(before + Burst(n - 1, time, ip, limits), time, ip, limits, start, width);
    }
  }

  lemma BurstGrows(n: nat, time: real, ip: string, limits: Limits)
    ensures Burst(n + 1, time, ip, limits) == Burst(n, time, ip, limits) + [OfBurst(time, ip, limits)]
  {
  }

  lemma OneMoreElsewhere(before: seq<Request>, request: Request, ip: string, minute: int)
    requires Minute(request.time) != minute
    ensures Requested(before + [request], ip, minute) == Requested(before, ip, minute)
  {
    assert (before + [request])[..|before|] == before;
  }

  lemma {:induction false} BurstLeavesOtherMinutes(
    before: seq<Request>, n: nat, time: real, ip: string, limits: Limits, minute: int)
    requires minute != Minute(time)
    ensures Requested(before + Burst(n, time, ip, limits), ip, minute) == Requested(before, ip, minute)
  {
    if n == 0 {
      assert before + Burst(n, time, ip, limits) == before;
    } else {
      var earlier := before + Burst(n - 1, time, ip, limits);
      BurstLeavesOtherMinutes(before, n - 1, time, ip, limits, minute);
      BurstGrows(n - 1, time, ip, limits);
      assert before + Burst(n, time, ip, limits) == earlier + [OfBurst(time, ip, limits)];
      OneMoreElsewhere(earlier, OfBurst(time, ip, limits), ip, minute);
    }
  }

  /** The first moment of a minute that is not before the window. */
  function FirstMoment(start: int, minute: int): real {
    if 60 * minute < start then start as real else (60 * minute) as real
  }

  /** A full burst at the first moment of each of `n` minutes. */
  function Bursts(limits: Limits, ip: string, start: int, n: nat): seq<Request> {
    if n == 0 then []
    else
      Bursts(limits, ip, start, n - 1)
      + Burst(Larger(limits), FirstMoment(start, start / 60 + n - 1), ip, limits)
  }

  lemma FirstMomentIsInMinute(start: int, width: nat, n: nat)
    requires width >= 1 && 1 <= n <= MinutesMet(start, width)
    ensures var time := FirstMoment(start, start / 60 + n - 1);
            Minute(time) == start / 60 + n - 1 && start as real <= time < (start + width) as real
  {
  }

  lemma {:induction false} BurstsAreEarly(limits: Limits, ip: string, start: int, width: nat, n: nat, minute: int)
    requires width >= 1 && n <= MinutesMet(start, width) && minute >= start / 60 + n
    ensures Requested(Bursts(limits, ip, start, n), ip, minute) == 0
  {
    if n > 0 {
      var before, time := Bursts(limits, ip, start, n - 1), FirstMoment(start, start / 60 + n - 1);
      BurstsAreEarly(limits, ip, start, width, n - 1, minute);
      FirstMomentIsInMinute(start, width, n);
      BurstLeavesOtherMinutes(before, Larger(limits), time, ip, limits, minute);
    }
  }

  lemma {:induction false} BurstsPass(limits: Limits, ip: string, start: int, width: nat, n: nat)
    requires width >= 1 && n <= MinutesMet(start, width)
    ensures PassedInWindow(Bursts(limits, ip, start, n), limits, ip, start, width) == Total(n, Larger(limits))
  {
    if n > 0 {
      var before, time := Bursts(limits, ip, start, n - 1), FirstMoment(start, start / 60 + n - 1);
      BurstsPass(limits, ip, start, width, n - 1);
      FirstMomentIsInMinute(start, width, n);
      BurstsAreEarly(limits, ip, start, width, n - 1, start / 60 + n - 1);
      BurstPasses(before, Larger(limits), time, ip, limits, start, width);
    }
  }

  lemma {:induction false} BurstsAreOrdered(limits: Limits, ip: string, start: int, n: nat)
    ensures Ordered(Bursts(limits, ip, start, n))
    ensures forall i | 0 <= i < |Bursts(limits, ip, start, n)| ::
              Bursts(limits, ip, start, n)[i].time <= FirstMoment(start, start / 60 + n - 1)
  {
    if n > 0 {
      BurstsAreOrdered(limits, ip, start, n - 1);
      assert FirstMoment(start, start / 60 + n - 2) <= FirstMoment(start, start / 60 + n - 1);
    }
  }

  /** Every window has a sequence of requests, in order of time, that fills it: its bound is exact. */
  lemma WindowIsFilled(limits: Limits, ip: string, start: int, width: nat) returns (requests: seq<Request>)
    requires width >= 1
    ensures Ordered(requests)
    ensures PassedInWindow(requests, limits, ip, start, width) == MinutesMet(start, width) * Larger(limits)
  {
    requests := Bursts(limits, ip, start, MinutesMet(start, width));
    BurstsAreOrdered(limits, ip, start, MinutesMet(start, width));
    BurstsPass(limits, ip, start, width, MinutesMet(start, width));
    TotalIsProduct(MinutesMet(start, width), Larger(limits));
  }

  /**
   * The limit holds for a window exactly when the window lies within one minute: the limiter's windows are
   * fixed, not sliding.
   */
  lemma LimitHoldsExactlyWithinAMinute(limits: Limits, ip: string, start: int, width: nat)
    requires width >= 1 && Larger(limits) >= 1
    ensures (forall requests :: PassedInWindow(requests, limits, ip, start, width) <= Larger(limits))
            <==> start / 60 == (start + width - 1) / 60
  {
    if start / 60 == (start + width - 1) / 60 {
      forall requests ensures PassedInWindow(requests, limits, ip, start, width) <= Larger(limits) {
        WindowAdmitsAtMost(requests, limits, ip, start, width);
      }
    } else {
      var requests := WindowIsFilled(limits, ip, start, width);
      Scale(2, MinutesMet(start, width), Larger(limits));
      assert PassedInWindow(requests, limits, ip, start, width) > Larger(limits);
    }
  }

  /** The bound for a width is reached by a window that starts with the last second of a minute. */
  lemma WindowBoundIsReached(limits: Limits, ip: string, minute: int, width: nat) returns (requests: seq<Request>)
    requires width >= 1
    ensures Ordered(requests)
    ensures PassedInWindow(requests, limits, ip, 60 * minute + 59, width) == ((width + 58) / 60 + 1) * Larger(limits)
  {
    requests := WindowIsFilled(limits, ip, 60 * minute + 59, width);
    assert MinutesMet(60 * minute + 59, width) == (width + 58) / 60 + 1;
  }
}
