/**
 * Sessions: login, refresh-token rotation, logout and user deactivation as a protocol over the user and
 * refresh-token tables. Every request writes in a session of its own, which nobody else sees before it commits;
 * a login, a refresh and a revocation of all tokens take several steps, which other requests may separate.
 */
module TokenRotation {
  import opened Wrappers

  type UserId = nat
  type Jti = nat
  type RequestId = nat
  type Time = int

  datatype Token = Token(user: UserId, revoked: bool, expiresAt: Time)

  /** The claims of a refresh token presented by a client, its signature already verified. */
  datatype Claims = Claims(jti: Jti, sub: UserId, exp: Time)

  /** How far a refresh has come: its user is checked, its token was read unrevoked, or its rotation is written. */
  datatype Stage = Checked | Read | Flushed(newJti: Jti, newExpiry: Time)

  /**
   * A request under way: a login whose user is checked, a refresh, or a revocation that has selected the tokens
   * of a user and perhaps deactivates the user.
   */
  datatype Request =
    | LoggingIn(user: UserId)
    | Refreshing(jti: Jti, user: UserId, stage: Stage)
    | Revoking(user: UserId, selected: set<Jti>, deactivates: bool)

  /** Where a token comes from: the first token of its login, its place after it, and the token it replaced. */
  datatype Origin = Origin(root: Jti, index: nat, parent: Option<Jti>)

  /**
   * `active`, `tokens` and `now` are the tables as committed and the clock; `requests` are the requests under
   * way. The other fields are history: the origin of each token, the tokens of each login in order of issue, and
   * the (old, new) pairs that successful refreshes returned.
   */
  datatype State = State(
    now: Time,
    active: map<UserId, bool>,
    tokens: map<Jti, Token>,
    requests: map<RequestId, Request>,
    origin: map<Jti, Origin>,
    lineage: map<Jti, seq<Jti>>,
    refreshed: seq<(Jti, Jti)>)

  datatype Answer =
    | Done
    | Issued(jti: Jti)
    | InvalidCredentials
    | TokenExpired
    | InvalidToken
    | TokenRevoked
    | TokenAlreadyRotated
    | StoreFailed
    | UserNotFound
    | Stopped

  const Init := State(0, map[], map[], map[], map[], map[], [])

  predicate IsActive(s: State, user: UserId) {
    user in s.active && s.active[user]
  }

  predicate Expired(t: Token, now: Time) {
    t.expiresAt <= now
  }

  function Closed(s: State, req: RequestId): State {
    s.(requests := s.requests - {req})
  }

  function Under(s: State, req: RequestId, r: Request): State {
    s.(requests := s.requests[req := r])
  }

  // ----- Operations (auth_service.py, user_service.py)

  /** The user of a login, the password verified, is found active. */
  function CheckLogin(s: State, req: RequestId, user: UserId): (State, Answer) {
    if !IsActive(s, user) then (s, InvalidCredentials) else (Under(s, req, LoggingIn(user)), Done)
  }

  /** Inserts the token of a login and commits; `stored` is whether the insert succeeds. */
  function FinishLogin(s: State, req: RequestId, jti: Jti, expiresAt: Time, stored: bool): (State, Answer)
    requires req in s.requests && s.requests[req].LoggingIn?
  {
    if !stored then (Closed(s, req), StoreFailed)
    else
      (Closed(s, req).(
         tokens := s.tokens[jti := Token(s.requests[req].user, false, expiresAt)],
         origin := s.origin[jti := Origin(jti, 0, None)],
         lineage := s.lineage[jti := [jti]]),
       Issued(jti))
  }

  /** Decodes the token and checks that its user is still active; a deactivated user reads as not found. */
  function CheckUser(s: State, req: RequestId, c: Claims): (State, Answer) {
    if c.exp <= s.now then (s, TokenExpired)
    else if !IsActive(s, c.sub) then (s, UserNotFound)
    else (Under(s, req, Refreshing(c.jti, c.sub, Checked)), Done)
  }

  /** Reads the token: an unknown or revoked one ends the refresh. */
  function ReadToken(s: State, req: RequestId): (State, Answer)
    requires req in s.requests && s.requests[req].Refreshing?
  {
    var r := s.requests[req];
    if r.jti !in s.tokens then (Closed(s, req), InvalidToken)
    else if s.tokens[r.jti].revoked then (Closed(s, req), TokenRevoked)
    else (Under(s, req, r.(stage := Read)), Done)
  }

  /**
   * The savepoint from the compare-and-set on: revokes the old token if nobody did and inserts the new one, in
   * the session. When the insert fails the savepoint is rolled back and the request raises.
   */
  function Flush(s: State, req: RequestId, jti: Jti, expiresAt: Time, stored: bool): (State, Answer)
    requires req in s.requests && s.requests[req].Refreshing?
  {
    var r := s.requests[req];
    if r.jti !in s.tokens || s.tokens[r.jti].revoked then (Closed(s, req), TokenAlreadyRotated)
    else if !stored then (Closed(s, req), StoreFailed)
    else (Under(s, req, r.(stage := Flushed(jti, expiresAt))), Done)
  }

  /** The commit of a rotation: the old token is revoked and the new one visible, and the pair is returned. */
  function Rotate(s: State, req: RequestId): (State, Answer)
    requires req in s.requests && s.requests[req].Refreshing? && s.requests[req].stage.Flushed?
    requires s.requests[req].jti in s.tokens
  {
    var r := s.requests[req];
    var jti := r.stage.newJti;
    var root := if r.jti in s.origin then s.origin[r.jti].root else r.jti;
    var issued := if root in s.lineage then s.lineage[root] else [];
    (Closed(s, req).(
       tokens := s.tokens[r.jti := s.tokens[r.jti].(revoked := true)][jti := Token(r.user, false, r.stage.newExpiry)],
       origin := s.origin[jti := Origin(root, |issued|, Some(r.jti))],
       lineage := s.lineage[root := issued + [jti]],
       refreshed := s.refreshed + [(r.jti, jti)]),
     Issued(jti))
  }

  /** Logout of one device; an expired token is accepted and left alone. */
  function Logout(s: State, c: Claims): (State, Answer) {
    if c.exp <= s.now || c.jti !in s.tokens then (s, Done)
    else (s.(tokens := s.tokens[c.jti := s.tokens[c.jti].(revoked := true)]), Done)
  }

  /** What `revoke_all_for_user` selects: the user's visible tokens that are neither revoked nor expired. */
  function LiveTokens(s: State, user: UserId): set<Jti> {
    set j | j in s.tokens && s.tokens[j].user == user && !s.tokens[j].revoked && !Expired(s.tokens[j], s.now)
  }

  /**
   * A logout of all devices, or the deactivation of an active user, up to the selection of the tokens; other
   * users read as not found.
   */
  function Select(s: State, req: RequestId, user: UserId, deactivates: bool): (State, Answer) {
    if deactivates && !IsActive(s, user) then (s, UserNotFound)
    else (Under(s, req, Revoking(user, LiveTokens(s, user), deactivates)), Done)
  }

  function RevokeSet(tokens: map<Jti, Token>, selected: set<Jti>): map<Jti, Token> {
    map j | j in tokens :: if j in selected then tokens[j].(revoked := true) else tokens[j]
  }

  /** The update of the selected tokens, and the commit. */
  function RevokeSelected(s: State, req: RequestId): (State, Answer)
    requires req in s.requests && s.requests[req].Revoking?
  {
    var r := s.requests[req];
    (Closed(s, req).(
       tokens := RevokeSet(s.tokens, r.selected),
       active := if r.deactivates then s.active[r.user := false] else s.active),
     Done)
  }

  // ----- Runs

  datatype Step =
    | RegisterStep(newUser: UserId)
    | CheckLoginStep(req: RequestId, user: UserId)
    | FinishLoginStep(req: RequestId, jti: Jti, expiresAt: Time, stored: bool)
    | CheckUserStep(req: RequestId, claims: Claims)
    | ReadTokenStep(req: RequestId)
    | FlushStep(req: RequestId, jti: Jti, expiresAt: Time, stored: bool)
    | RotateStep(req: RequestId)
    | LogoutStep(presented: Claims)
    | SelectStep(req: RequestId, user: UserId, deactivates: bool)
    | RevokeStep(req: RequestId)
    | StopStep(req: RequestId)
    | TickStep(to: Time)

  /** A rotation of this token that is written and not yet committed holds the lock on its row. */
  predicate Locks(r: Request, jti: Jti) {
    r.Refreshing? && r.stage.Flushed? && r.jti == jti
  }

  predicate Locked(s: State, jti: Jti) {
    exists q | q in s.requests :: Locks(s.requests[q], jti)
  }

  /** The request has drawn this identifier for the token that it issues. */
  predicate Draws(r: Request, jti: Jti) {
    r.Refreshing? && r.stage.Flushed? && r.stage.newJti == jti
  }

  /** A token identifier that was never drawn and that no refresh under way presents. */
  predicate FreshJti(s: State, jti: Jti) {
    && jti !in s.origin && jti !in s.tokens
    && forall q | q in s.requests ::
         !Draws(s.requests[q], jti) && (s.requests[q].Refreshing? ==> s.requests[q].jti != jti)
  }

  /** A signed token names the user and expiry it was issued with; clients have no token before its commit. */
  predicate Genuine(s: State, c: Claims) {
    && (c.jti in s.tokens ==> s.tokens[c.jti].user == c.sub && s.tokens[c.jti].expiresAt == c.exp)
    && forall q | q in s.requests :: !Draws(s.requests[q], c.jti)
  }

  /** Updates of a token wait while a rotation of it is written and not committed. */
  predicate Enabled(s: State, step: Step) {
    match step
    case RegisterStep(user) => user !in s.active
    case CheckLoginStep(req, _) => req !in s.requests
    case FinishLoginStep(req, jti, expiresAt, _) =>
      req in s.requests && s.requests[req].LoggingIn? && FreshJti(s, jti) && expiresAt > s.now
    case CheckUserStep(req, c) => req !in s.requests && Genuine(s, c)
    case ReadTokenStep(req) => req in s.requests && s.requests[req].Refreshing? && s.requests[req].stage.Checked?
    case FlushStep(req, jti, expiresAt, _) =>
      && req in s.requests && s.requests[req].Refreshing? && s.requests[req].stage.Read?
      && !Locked(s, s.requests[req].jti) && FreshJti(s, jti) && expiresAt > s.now
    case RotateStep(req) =>
      && req in s.requests && s.requests[req].Refreshing? && s.requests[req].stage.Flushed?
      && s.requests[req].jti in s.tokens
    case LogoutStep(c) => Genuine(s, c) && (c.exp > s.now ==> !Locked(s, c.jti))
    case SelectStep(req, _, _) => req !in s.requests
    case RevokeStep(req) =>
      && req in s.requests && s.requests[req].Revoking?
      && forall j | j in s.requests[req].selected :: !Locked(s, j)
    case StopStep(req) => req in s.requests
    case TickStep(now) => s.now <= now
  }

  function Apply(s: State, step: Step): (State, Answer)
    requires Enabled(s, step)
  {
    match step
    case RegisterStep(user) => (s.(active := s.active[user := true]), Done)
    case CheckLoginStep(req, user) => CheckLogin(s, req, user)
    case FinishLoginStep(req, jti, expiresAt, stored) => FinishLogin(s, req, jti, expiresAt, stored)
    case CheckUserStep(req, c) => CheckUser(s, req, c)
    case ReadTokenStep(req) => ReadToken(s, req)
    case FlushStep(req, jti, expiresAt, stored) => Flush(s, req, jti, expiresAt, stored)
    case RotateStep(req) => Rotate(s, req)
    case LogoutStep(c) => Logout(s, c)
    case SelectStep(req, user, deactivates) => Select(s, req, user, deactivates)
    case RevokeStep(req) => RevokeSelected(s, req)
    case StopStep(req) => (Closed(s, req), Stopped)
    case TickStep(now) => (s.(now := now), Done)
  }

  ghost predicate Path(trace: seq<State>, steps: seq<Step>) {
    && |trace| == |steps| + 1
    && forall i | 0 <= i < |steps| :: Enabled(trace[i], steps[i]) && trace[i + 1] == Apply(trace[i], steps[i]).0
  }

  ghost predicate Run(trace: seq<State>, steps: seq<Step>) {
    Path(trace, steps) && trace[0] == Init
  }

  // ----- Lineages

  /** The tokens of one login form a chain: each replaced the one before it, and only the last may be unrevoked. */
  ghost predicate Chain(s: State, root: Jti)
    requires root in s.lineage
  {
    var l := s.lineage[root];
    && |l| > 0 && l[0] == root
    && (forall i | 0 <= i < |l| ::
          l[i] in s.tokens && l[i] in s.origin && s.origin[l[i]].root == root && s.origin[l[i]].index == i)
    && s.origin[root].parent == None
    && (forall i, k | 0 <= i < |l| && k == i + 1 < |l| :: s.origin[l[k]].parent == Some(l[i]))
    && (forall i | 0 <= i < |l| - 1 :: s.tokens[l[i]].revoked)
  }

  /** A token stands in the lineage of its root, at its index. */
  predicate Placed(s: State, jti: Jti)
    requires jti in s.origin
  {
    var o := s.origin[jti];
    o.root in s.lineage && o.index < |s.lineage[o.root]| && s.lineage[o.root][o.index] == jti
  }

  ghost predicate Lineages(s: State) {
    && s.tokens.Keys == s.origin.Keys
    && (forall root | root in s.lineage :: Chain(s, root))
    && (forall j | j in s.origin :: Placed(s, j))
  }

  /** How many of the returned pairs refreshed a token of this login. */
  function Wins(refreshed: seq<(Jti, Jti)>, origin: map<Jti, Origin>, root: Jti): nat {
    if refreshed == [] then 0
    else
      var last := refreshed[|refreshed| - 1];
      Wins(refreshed[..|refreshed| - 1], origin, root)
      + if last.0 in origin && origin[last.0].root == root then 1 else 0
  }

  ghost predicate Counted(s: State) {
    && (forall k | 0 <= k < |s.refreshed| :: s.refreshed[k].0 in s.origin)
    && (forall root | root in s.lineage :: |s.lineage[root]| == 1 + Wins(s.refreshed, s.origin, root))
  }

  ghost predicate WonOnce(s: State) {
    && (forall k | 0 <= k < |s.refreshed| :: s.refreshed[k].0 in s.tokens && s.tokens[s.refreshed[k].0].revoked)
    && (forall i, k | 0 <= i < k < |s.refreshed| :: s.refreshed[i].0 != s.refreshed[k].0)
  }

  /**
   * A refresh is by the user of its token; a written rotation holds an unrevoked token, alone, and has drawn an
   * identifier that nobody else has.
   */
  predicate RefreshOk(s: State, q: RequestId)
    requires q in s.requests
  {
    var r := s.requests[q];
    r.Refreshing? ==>
      && (r.jti in s.tokens ==> s.tokens[r.jti].user == r.user)
      && (r.stage.Flushed? ==>
            && r.jti in s.tokens && !s.tokens[r.jti].revoked
            && r.stage.newJti !in s.origin && r.stage.newJti !in s.tokens)
  }

  predicate FlushesApart(r1: Request, r2: Request) {
    r1.Refreshing? && r1.stage.Flushed? && r2.Refreshing? ==>
      && r2.jti != r1.stage.newJti
      && (r2.stage.Flushed? ==> r1.jti != r2.jti && r1.stage.newJti != r2.stage.newJti)
  }

  ghost predicate RefreshesOk(s: State) {
    && (forall q | q in s.requests :: RefreshOk(s, q))
    && (forall q1, q2 | q1 in s.requests && q2 in s.requests && q1 != q2 ::
          FlushesApart(s.requests[q1], s.requests[q2]))
  }

  /** The part of the invariant about the tokens alone. */
  ghost predicate TokensOk(s: State) {
    Lineages(s) && Counted(s) && WonOnce(s)
  }

  ghost predicate Inv(s: State) {
    TokensOk(s) && RefreshesOk(s)
  }

  /** `s'` differs from `s` in its tokens by revocations only. */
  ghost predicate OnlyRevokes(s: State, s': State) {
    && s'.tokens.Keys == s.tokens.Keys
    && (forall j | j in s.tokens :: s.tokens[j].revoked ==> s'.tokens[j].revoked)
    && s'.origin == s.origin && s'.lineage == s.lineage && s'.refreshed == s.refreshed
  }

  lemma RevokingKeepsTokens(s: State, s': State)
    requires TokensOk(s) && OnlyRevokes(s, s')
    ensures TokensOk(s')
  {
    forall root | root in s'.lineage ensures Chain(s', root) {
      assert Chain(s, root);
    }
    assert forall j | j in s.origin :: Placed(s, j) ==> Placed(s', j);
  }

  predicate IssuesToken(s: State, step: Step)
    requires Enabled(s, step)
  {
    Apply(s, step).1.Issued?
  }

  lemma QuietStepsKeepTokens(s: State, step: Step)
    requires Enabled(s, step) && !IssuesToken(s, step) && !step.LogoutStep? && !step.RevokeStep?
    ensures var s' := Apply(s, step).0;
            s'.tokens == s.tokens && s'.origin == s.origin && s'.lineage == s.lineage && s'.refreshed == s.refreshed
  {
  }

  lemma OtherStepsOnlyRevoke(s: State, step: Step)
    requires Enabled(s, step) && !IssuesToken(s, step)
    ensures OnlyRevokes(s, Apply(s, step).0)
  {
    if step.LogoutStep? {
      assert Apply(s, step) == Logout(s, step.presented);
    } else if step.RevokeStep? {
      assert Apply(s, step) == RevokeSelected(s, step.req);
    } else {
      QuietStepsKeepTokens(s, step);
    }
  }

  lemma {:induction false} WinsFrame(
    refreshed: seq<(Jti, Jti)>, origin: map<Jti, Origin>, jti: Jti, o: Origin, root: Jti)
    requires forall k | 0 <= k < |refreshed| :: refreshed[k].0 in origin
    requires jti !in origin
    ensures Wins(refreshed, origin[jti := o], root) == Wins(refreshed, origin, root)
  {
    if refreshed != [] {
      WinsFrame(refreshed[..|refreshed| - 1], origin, jti, o, root);
    }
  }

  lemma {:induction false} WinsOfUnknownRoot(refreshed: seq<(Jti, Jti)>, origin: map<Jti, Origin>, root: Jti)
    requires forall j | j in origin :: origin[j].root != root
    ensures Wins(refreshed, origin, root) == 0
  {
    if refreshed != [] {
      WinsOfUnknownRoot(refreshed[..|refreshed| - 1], origin, root);
    }
  }

  lemma FreshTokenRootsNothing(s: State, jti: Jti)
    requires Lineages(s) && jti !in s.origin
    ensures jti !in s.lineage && forall j | j in s.origin :: s.origin[j].root != jti
  {
    if jti in s.lineage && Chain(s, jti) {
      assert false;
    }
    forall j | j in s.origin ensures s.origin[j].root != jti {
      assert Placed(s, j);
    }
  }

  lemma OtherChainsStay(s: State, root: Jti, s': State)
    requires root in s.lineage && Chain(s, root)
    requires root in s'.lineage && s'.lineage[root] == s.lineage[root]
    requires forall j | j in s.tokens :: j in s'.tokens && (s.tokens[j].revoked ==> s'.tokens[j].revoked)
    requires forall j | j in s.origin :: j in s'.origin && s'.origin[j] == s.origin[j]
    ensures Chain(s', root)
  {
  }

  /** The tables after a login whose first token is `root`. */
  ghost predicate Starts(s: State, root: Jti, s': State) {
    && s'.tokens.Keys == s.tokens.Keys + {root} && root !in s.origin
    && (forall j | j in s.tokens :: s.tokens[j].revoked ==> s'.tokens[j].revoked)
    && s'.origin == s.origin[root := Origin(root, 0, None)]
    && s'.lineage == s.lineage[root := [root]]
    && s'.refreshed == s.refreshed
  }

  lemma StartKeepsLineages(s: State, root: Jti, s': State)
    requires Lineages(s) && Starts(s, root, s')
    ensures Lineages(s')
  {
    FreshTokenRootsNothing(s, root);
    forall r | r in s'.lineage ensures Chain(s', r) {
      if r != root {
        OtherChainsStay(s, r, s');
      }
    }
    forall j | j in s'.origin ensures Placed(s', j) {
      if j != root {
        assert Placed(s, j);
      }
    }
  }

  lemma StartKeepsCounts(s: State, root: Jti, s': State)
    requires Lineages(s) && Counted(s) && Starts(s, root, s')
    ensures Counted(s')
  {
    FreshTokenRootsNothing(s, root);
    WinsOfUnknownRoot(s.refreshed, s.origin, root);
    forall r | r in s'.lineage ensures |s'.lineage[r]| == 1 + Wins(s'.refreshed, s'.origin, r) {
      WinsFrame(s.refreshed, s.origin, root, s'.origin[root], r);
    }
  }

  lemma StartKeepsWins(s: State, root: Jti, s': State)
    requires WonOnce(s) && Starts(s, root, s')
    ensures WonOnce(s')
  {
  }

  lemma LoginStarts(s: State, req: RequestId, jti: Jti, expiresAt: Time)
    requires req in s.requests && s.requests[req].LoggingIn? && FreshJti(s, jti)
    ensures Starts(s, jti, FinishLogin(s, req, jti, expiresAt, true).0)
  {
  }

  lemma LoginKeepsTokens(s: State, req: RequestId, jti: Jti, expiresAt: Time)
    requires TokensOk(s) && req in s.requests && s.requests[req].LoggingIn? && FreshJti(s, jti)
    ensures TokensOk(FinishLogin(s, req, jti, expiresAt, true).0)
  {
    var s' := FinishLogin(s, req, jti, expiresAt, true).0;
    LoginStarts(s, req, jti, expiresAt);
    StartKeepsLineages(s, jti, s');
    StartKeepsCounts(s, jti, s');
    StartKeepsWins(s, jti, s');
  }

  /** An unrevoked token is the last of its lineage. */
  lemma LiveTokenIsLast(s: State, jti: Jti)
    requires Lineages(s) && jti in s.tokens && !s.tokens[jti].revoked
    ensures s.origin[jti].root in s.lineage
    ensures var l := s.lineage[s.origin[jti].root]; |l| > 0 && l[|l| - 1] == jti
  {
    assert Placed(s, jti);
    assert Chain(s, s.origin[jti].root);
  }

  /** The tables after `next` replaced the live token `last`. */
  ghost predicate Extends(s: State, last: Jti, next: Jti, s': State) {
    && last in s.tokens && last in s.origin && s.origin[last].root in s.lineage && next !in s.origin
    && var root := s.origin[last].root;
    && s'.tokens.Keys == s.tokens.Keys + {next}
    && (forall j | j in s.tokens :: s.tokens[j].revoked ==> s'.tokens[j].revoked)
    && s'.tokens[last].revoked
    && s'.origin == s.origin[next := Origin(root, |s.lineage[root]|, Some(last))]
    && s'.lineage == s.lineage[root := s.lineage[root] + [next]]
  }

  /** A token of the lineage that the live token `last` ends. */
  lemma ChainGrowsMember(s: State, last: Jti, next: Jti, s': State, i: nat)
    requires Lineages(s) && Extends(s, last, next, s') && !s.tokens[last].revoked
    requires i < |s'.lineage[s.origin[last].root]|
    ensures var root := s.origin[last].root;
            var l := s'.lineage[root];
            && l[i] in s'.tokens && l[i] in s'.origin && s'.origin[l[i]].root == root && s'.origin[l[i]].index == i
            && (i < |l| - 1 ==> s'.tokens[l[i]].revoked)
  {
    var root := s.origin[last].root;
    var l := s.lineage[root];
    LiveTokenIsLast(s, last);
    assert Chain(s, root);
    if i < |l| {
      assert s'.lineage[root][i] == l[i];
      assert i < |l| - 1 ==> s.tokens[l[i]].revoked;
    }
  }

  lemma ChainGrowsLink(s: State, last: Jti, next: Jti, s': State, i: nat)
    requires Lineages(s) && Extends(s, last, next, s') && !s.tokens[last].revoked
    requires i + 1 < |s'.lineage[s.origin[last].root]|
    ensures var l := s'.lineage[s.origin[last].root];
            l[i + 1] in s'.origin && s'.origin[l[i + 1]].parent == Some(l[i])
  {
    var root := s.origin[last].root;
    var l, l' := s.lineage[root], s'.lineage[root];
    LiveTokenIsLast(s, last);
    assert Chain(s, root);
    assert l'[i] == l[i];
    if i + 1 < |l| {
      assert l'[i + 1] == l[i + 1];
    }
  }

  lemma ChainGrows(s: State, last: Jti, next: Jti, s': State)
    requires Lineages(s) && Extends(s, last, next, s') && !s.tokens[last].revoked
    ensures Chain(s', s.origin[last].root)
  {
    var root := s.origin[last].root;
    var l := s'.lineage[root];
    assert Chain(s, root);
    assert l[0] == s.lineage[root][0] == root;
    forall i | 0 <= i < |l|
      ensures l[i] in s'.tokens && l[i] in s'.origin && s'.origin[l[i]].root == root && s'.origin[l[i]].index == i
      ensures i < |l| - 1 ==> s'.tokens[l[i]].revoked
    {
      ChainGrowsMember(s, last, next, s', i);
    }
    forall i, k | 0 <= i < |l| && k == i + 1 < |l| ensures s'.origin[l[k]].parent == Some(l[i]) {
      ChainGrowsLink(s, last, next, s', i);
    }
  }

  lemma ExtendingKeepsLineages(s: State, last: Jti, next: Jti, s': State)
    requires Lineages(s) && Extends(s, last, next, s') && !s.tokens[last].revoked
    ensures Lineages(s')
  {
    ChainGrows(s, last, next, s');
    forall root | root in s'.lineage ensures Chain(s', root) {
      if root != s.origin[last].root {
        OtherChainsStay(s, root, s');
      }
    }
    forall j | j in s'.origin ensures Placed(s', j) {
      if j != next {
        assert Placed(s, j);
      }
    }
  }

  /** A written rotation is about to extend a lineage. */
  lemma RotationExtends(s: State, req: RequestId)
    requires Lineages(s) && RefreshesOk(s) && Enabled(s, RotateStep(req))
    ensures Extends(s, s.requests[req].jti, s.requests[req].stage.newJti, Rotate(s, req).0)
    ensures !s.tokens[s.requests[req].jti].revoked
  {
    assert RefreshOk(s, req);
    LiveTokenIsLast(s, s.requests[req].jti);
  }

  lemma RotationKeepsCounts(s: State, last: Jti, next: Jti, s': State)
    requires Counted(s) && Extends(s, last, next, s')
    requires s'.refreshed == s.refreshed + [(last, next)]
    ensures Counted(s')
  {
    assert s'.refreshed[..|s'.refreshed| - 1] == s.refreshed;
    forall r | r in s'.lineage ensures |s'.lineage[r]| == 1 + Wins(s'.refreshed, s'.origin, r) {
      WinsFrame(s.refreshed, s.origin, next, s'.origin[next], r);
    }
  }

  lemma RotationKeepsWins(s: State, last: Jti, next: Jti, s': State)
    requires WonOnce(s) && Extends(s, last, next, s') && !s.tokens[last].revoked
    requires s'.refreshed == s.refreshed + [(last, next)]
    ensures WonOnce(s')
  {
  }

  lemma RotationKeepsTokens(s: State, req: RequestId)
    requires Inv(s) && Enabled(s, RotateStep(req))
    ensures TokensOk(Rotate(s, req).0)
  {
    var last, next, s' := s.requests[req].jti, s.requests[req].stage.newJti, Rotate(s, req).0;
    RotationExtends(s, req);
    ExtendingKeepsLineages(s, last, next, s');
    RotationKeepsCounts(s, last, next, s');
    RotationKeepsWins(s, last, next, s');
  }

  lemma NextKeepsTokens(s: State, step: Step)
    requires Inv(s) && Enabled(s, step)
    ensures TokensOk(Apply(s, step).0)
  {
    if !IssuesToken(s, step) {
      OtherStepsOnlyRevoke(s, step);
      RevokingKeepsTokens(s, Apply(s, step).0);
    } else if step.FinishLoginStep? {
      LoginKeepsTokens(s, step.req, step.jti, step.expiresAt);
    } else {
      RotationKeepsTokens(s, step.req);
    }
  }

  // ----- Written rotations

  predicate ByRequest(step: Step) {
    !step.RegisterStep? && !step.LogoutStep? && !step.TickStep?
  }

  /** A step is the step of one request at most. */
  lemma OtherRequestsStay(s: State, step: Step, q: RequestId)
    requires Enabled(s, step) && (ByRequest(step) ==> q != step.req)
    ensures q in Apply(s, step).0.requests <==> q in s.requests
    ensures q in s.requests ==> Apply(s, step).0.requests[q] == s.requests[q]
  {
    match step
    case RotateStep(req) => assert Rotate(s, req).0.requests == s.requests - {req};
    case RevokeStep(req) => assert RevokeSelected(s, req).0.requests == s.requests - {req};
    case _ =>
  }

  /** What a request comes to be by its own step. */
  lemma ActingRequest(s: State, step: Step)
    requires Enabled(s, step) && ByRequest(step) && step.req in Apply(s, step).0.requests
    ensures var r := Apply(s, step).0.requests[step.req];
            || (r.LoggingIn? && step.CheckLoginStep? && IsActive(s, r.user))
            || (r.Revoking? && step.SelectStep?)
            || (step.CheckUserStep? && r == Refreshing(step.claims.jti, step.claims.sub, Checked)
                && IsActive(s, r.user))
            || (step.ReadTokenStep? && r == s.requests[step.req].(stage := Read))
            || (step.FlushStep? && r == s.requests[step.req].(stage := Flushed(step.jti, step.expiresAt))
                && r.jti in s.tokens && !s.tokens[r.jti].revoked)
    ensures Apply(s, step).0 == s.(requests := s.requests[step.req := Apply(s, step).0.requests[step.req]])
  {
  }

  lemma OtherRefreshKeepsItsUser(s: State, step: Step, q: RequestId)
    requires RefreshesOk(s) && Enabled(s, step) && q in s.requests && (ByRequest(step) ==> q != step.req)
    requires s.requests[q].Refreshing? && s.requests[q].jti in Apply(s, step).0.tokens
    ensures Apply(s, step).0.tokens[s.requests[q].jti].user == s.requests[q].user
  {
    assert RefreshOk(s, q);
    if step.RotateStep? {
      assert FlushesApart(s.requests[step.req], s.requests[q]);
    }
  }

  lemma FlushedTokenStays(s: State, step: Step, jti: Jti, newJti: Jti)
    requires Enabled(s, step) && jti in s.tokens && !s.tokens[jti].revoked && Locked(s, jti)
    requires newJti !in s.tokens && newJti !in s.origin
    requires step.RotateStep? ==> s.requests[step.req].jti != jti && s.requests[step.req].stage.newJti != newJti
                                  && s.requests[step.req].stage.newJti != jti
    requires step.FinishLoginStep? ==> step.jti != newJti
    ensures var s' := Apply(s, step).0;
            jti in s'.tokens && !s'.tokens[jti].revoked && newJti !in s'.tokens && newJti !in s'.origin
  {
  }

  /** The tables have not changed where a written rotation relies on them. */
  lemma OtherFlushStays(s: State, step: Step, q: RequestId)
    requires RefreshesOk(s) && Enabled(s, step) && q in s.requests && (ByRequest(step) ==> q != step.req)
    ensures q in Apply(s, step).0.requests && RefreshOk(Apply(s, step).0, q)
  {
    var r, s' := s.requests[q], Apply(s, step).0;
    OtherRequestsStay(s, step, q);
    assert RefreshOk(s, q);
    if r.Refreshing? && r.jti in s'.tokens {
      OtherRefreshKeepsItsUser(s, step, q);
    }
    if r.Refreshing? && r.stage.Flushed? {
      assert Locks(r, r.jti) && Draws(r, r.stage.newJti);
      if ByRequest(step) && step.req in s.requests {
        assert FlushesApart(r, s.requests[step.req]) && FlushesApart(s.requests[step.req], r);
      }
      FlushedTokenStays(s, step, r.jti, r.stage.newJti);
    }
  }

  lemma ActingFlushIsApart(s: State, step: Step, q: RequestId)
    requires RefreshesOk(s) && Enabled(s, step) && ByRequest(step) && q != step.req
    requires q in s.requests && step.req in Apply(s, step).0.requests
    ensures var r := Apply(s, step).0.requests[step.req];
            FlushesApart(r, s.requests[q]) && FlushesApart(s.requests[q], r)
  {
    ActingRequest(s, step);
    var r := s.requests[q];
    assert r.Refreshing? && r.stage.Flushed? ==> Locks(r, r.jti) && Draws(r, r.stage.newJti);
    if step.req in s.requests {
      assert FlushesApart(r, s.requests[step.req]) && FlushesApart(s.requests[step.req], r);
    }
  }

  lemma NextKeepsFlushesApart(s: State, step: Step, q1: RequestId, q2: RequestId)
    requires RefreshesOk(s) && Enabled(s, step) && q1 != q2
    requires q1 in Apply(s, step).0.requests && q2 in Apply(s, step).0.requests
    ensures FlushesApart(Apply(s, step).0.requests[q1], Apply(s, step).0.requests[q2])
  {
    if ByRequest(step) && q1 == step.req {
      OtherRequestsStay(s, step, q2);
      ActingFlushIsApart(s, step, q2);
    } else if ByRequest(step) && q2 == step.req {
      OtherRequestsStay(s, step, q1);
      ActingFlushIsApart(s, step, q1);
    } else {
      OtherRequestsStay(s, step, q1);
      OtherRequestsStay(s, step, q2);
    }
  }

  lemma NextKeepsFlushes(s: State, step: Step)
    requires RefreshesOk(s) && Enabled(s, step)
    ensures RefreshesOk(Apply(s, step).0)
  {
    var s' := Apply(s, step).0;
    forall q | q in s'.requests ensures RefreshOk(s', q) {
      if ByRequest(step) && q == step.req {
        ActingRequest(s, step);
      } else {
        OtherRequestsStay(s, step, q);
        OtherFlushStays(s, step, q);
      }
    }
    forall q1, q2 | q1 in s'.requests && q2 in s'.requests && q1 != q2
      ensures FlushesApart(s'.requests[q1], s'.requests[q2])
    {
      NextKeepsFlushesApart(s, step, q1, q2);
    }
  }

  lemma NextKeepsInv(s: State, step: Step)
    requires Inv(s) && Enabled(s, step)
    ensures Inv(Apply(s, step).0)
  {
    NextKeepsTokens(s, step);
    NextKeepsFlushes(s, step);
  }

  lemma {:induction false} RunsKeepInv(trace: seq<State>, steps: seq<Step>, i: nat)
    requires Run(trace, steps) && i < |trace|
    ensures Inv(trace[i])
  {
    if i > 0 {
      RunsKeepInv(trace, steps, i - 1);
      NextKeepsInv(trace[i - 1], steps[i - 1]);
    }
  }

  /**
   * Over every schedule, each token wins at most one refresh, and each login's tokens form a chain with at
   * most one unrevoked token and exactly one token more than its successful refreshes.
   */
  lemma RotationIsAChain(trace: seq<State>, steps: seq<Step>, i: nat, root: Jti)
    requires Run(trace, steps) && i < |trace| && root in trace[i].lineage
    ensures var s := trace[i];
            && Chain(s, root)
            && (forall j | j in s.tokens :: j in s.origin && (s.origin[j].root == root <==> j in s.lineage[root]))
            && (forall j, k | j in s.lineage[root] && k in s.lineage[root] ::
                  s.tokens[j].revoked || s.tokens[k].revoked || j == k)
            && |s.lineage[root]| == 1 + Wins(s.refreshed, s.origin, root)
            && (forall m, n | 0 <= m < n < |s.refreshed| :: s.refreshed[m].0 != s.refreshed[n].0)
  {
    var s := trace[i];
    RunsKeepInv(trace, steps, i);
    assert Chain(s, root);
    forall j | j in s.tokens ensures s.origin[j].root == root <==> j in s.lineage[root] {
      assert Placed(s, j);
    }
    forall j | j in s.lineage[root]
      ensures j in s.tokens && (s.tokens[j].revoked || j == s.lineage[root][|s.lineage[root]| - 1])
    {
    }
  }

  // ----- Revocation is permanent

  predicate StaysRevoked(s: State, s': State, jti: Jti) {
    jti in s.tokens ==>
      && jti in s'.tokens
      && s'.tokens[jti].user == s.tokens[jti].user && s'.tokens[jti].expiresAt == s.tokens[jti].expiresAt
      && (s.tokens[jti].revoked ==> s'.tokens[jti].revoked)
  }

  lemma NextKeepsRevocation(s: State, step: Step, jti: Jti)
    requires RefreshesOk(s) && Enabled(s, step)
    ensures StaysRevoked(s, Apply(s, step).0, jti)
  {
    assert step.RotateStep? ==> RefreshOk(s, step.req);
  }

  lemma {:induction false} KeptRevocationsStay(trace: seq<State>, i: nat, j: nat, jti: Jti)
    requires i <= j < |trace|
    requires forall k | i <= k < j :: StaysRevoked(trace[k], trace[k + 1], jti)
    ensures StaysRevoked(trace[i], trace[j], jti)
    decreases j - i
  {
    if i < j {
      KeptRevocationsStay(trace, i, j - 1, jti);
      assert StaysRevoked(trace[j - 1], trace[j - 1 + 1], jti);
    }
  }

  lemma RevocationIsPermanent(trace: seq<State>, steps: seq<Step>, i: nat, j: nat, jti: Jti)
    requires Run(trace, steps) && i <= j < |trace|
    ensures StaysRevoked(trace[i], trace[j], jti)
  {
    forall k | i <= k < j ensures StaysRevoked(trace[k], trace[k + 1], jti) {
      RunsKeepInv(trace, steps, k);
      NextKeepsRevocation(trace[k], steps[k], jti);
    }
    KeptRevocationsStay(trace, i, j, jti);
  }

  /** A token revoked by whatever means wins no refresh ever after, not even one that read it before. */
  lemma RevokedTokensAreNeverRefreshed(trace: seq<State>, steps: seq<Step>, i: nat, j: nat, jti: Jti)
    requires Run(trace, steps) && i <= j < |steps|
    requires jti in trace[i].tokens && trace[i].tokens[jti].revoked
    ensures Enabled(trace[j], steps[j])
    ensures steps[j].FlushStep? && trace[j].requests[steps[j].req].jti == jti ==>
              Apply(trace[j], steps[j]).1 == TokenAlreadyRotated && trace[j + 1].tokens == trace[j].tokens
    ensures steps[j].RotateStep? ==> trace[j].requests[steps[j].req].jti != jti
  {
    RevocationIsPermanent(trace, steps, i, j, jti);
    RunsKeepInv(trace, steps, j);
    assert steps[j].RotateStep? ==> RefreshOk(trace[j], steps[j].req);
  }

  /** Logout revokes the presented token, unless it has expired, and no other. */
  lemma LogoutEndsSessions(s: State, c: Claims)
    ensures Logout(s, c).0.tokens.Keys == s.tokens.Keys
    ensures forall j | j in s.tokens ::
              Logout(s, c).0.tokens[j] ==
                s.tokens[j].(revoked := s.tokens[j].revoked || (j == c.jti && c.exp > s.now))
  {
  }

  /** A rotation goes on exactly when it revoked the token and inserted the next; else no token ever changes. */
  lemma FailedRotationChangesNoToken(s: State, req: RequestId, jti: Jti, expiresAt: Time, stored: bool)
    requires Enabled(s, FlushStep(req, jti, expiresAt, stored))
    ensures var (s', answer) := Flush(s, req, jti, expiresAt, stored);
            && s'.tokens == s.tokens && s'.lineage == s.lineage && s'.refreshed == s.refreshed
            && (answer == Done <==> stored && s.requests[req].jti in s.tokens && !s.tokens[s.requests[req].jti].revoked)
            && (answer == Done <==> req in s'.requests)
  {
  }

  // ----- A login keeps its session until it is ended

  function Newest(s: State, root: Jti): Jti
    requires root in s.lineage && s.lineage[root] != []
  {
    s.lineage[root][|s.lineage[root]| - 1]
  }

  predicate Usable(s: State, jti: Jti) {
    jti in s.tokens && !s.tokens[jti].revoked
  }

  /** The newest token of a login is unrevoked. */
  predicate Live(s: State, root: Jti) {
    root in s.lineage && s.lineage[root] != [] && Usable(s, Newest(s, root))
  }

  /** A logout with the token, or a logout of all devices or a deactivation that has selected it. */
  predicate Ends(s: State, step: Step, jti: Jti) {
    || (step.LogoutStep? && step.presented.jti == jti)
    || (step.RevokeStep? && step.req in s.requests && s.requests[step.req].Revoking?
        && jti in s.requests[step.req].selected)
  }

  /** Only a refresh of the token itself, or a step that ends it, revokes a token. */
  lemma OtherStepsSpareToken(s: State, step: Step, jti: Jti)
    requires RefreshesOk(s) && Enabled(s, step) && Usable(s, jti) && !Ends(s, step, jti)
    requires step.RotateStep? ==> s.requests[step.req].jti != jti
    ensures Usable(Apply(s, step).0, jti)
  {
    if step.RotateStep? {
      assert RefreshOk(s, step.req);
    } else if step.RevokeStep? {
      assert Apply(s, step).0.tokens == RevokeSet(s.tokens, s.requests[step.req].selected);
    }
  }

  lemma OtherLineagesStay(s: State, step: Step, root: Jti)
    requires Enabled(s, step) && root in s.lineage
    requires step.FinishLoginStep? ==> step.jti != root
    requires step.RotateStep? && s.requests[step.req].jti in s.origin ==>
               s.origin[s.requests[step.req].jti].root != root
    requires step.RotateStep? ==> s.tokens.Keys == s.origin.Keys
    ensures root in Apply(s, step).0.lineage && Apply(s, step).0.lineage[root] == s.lineage[root]
  {
  }

  /** Refreshing the newest token of a login makes the new token its newest. */
  lemma RotationKeepsLive(s: State, req: RequestId, root: Jti)
    requires Inv(s) && Enabled(s, RotateStep(req)) && Live(s, root)
    requires s.requests[req].jti in s.origin && s.origin[s.requests[req].jti].root == root
    ensures Live(Rotate(s, req).0, root)
  {
    var next, s' := s.requests[req].stage.newJti, Rotate(s, req).0;
    assert Usable(s', next);
    assert s'.lineage[root] == s.lineage[root] + [next];
    assert Newest(s', root) == next;
  }

  lemma NewestIsOfItsLogin(s: State, root: Jti)
    requires Lineages(s) && Live(s, root)
    ensures Newest(s, root) in s.origin && s.origin[Newest(s, root)].root == root
  {
    assert Chain(s, root);
  }

  lemma NextKeepsLive(s: State, step: Step, root: Jti)
    requires Inv(s) && Enabled(s, step) && Live(s, root) && !Ends(s, step, Newest(s, root))
    ensures Live(Apply(s, step).0, root)
  {
    NewestIsOfItsLogin(s, root);
    if step.FinishLoginStep? {
      FreshTokenRootsNothing(s, step.jti);
    }
    if step.RotateStep? && s.requests[step.req].jti in s.origin && s.origin[s.requests[step.req].jti].root == root {
      RotationKeepsLive(s, step.req, root);
    } else {
      OtherStepsSpareToken(s, step, Newest(s, root));
      OtherLineagesStay(s, step, root);
      assert Newest(Apply(s, step).0, root) == Newest(s, root);
    }
  }

  lemma {:induction false} UnendedLoginsStayLive(trace: seq<State>, steps: seq<Step>, i: nat, j: nat, root: Jti)
    requires Run(trace, steps) && i <= j < |trace| && Live(trace[i], root)
    requires forall k | i <= k < j && Live(trace[k], root) :: !Ends(trace[k], steps[k], Newest(trace[k], root))
    ensures Live(trace[j], root)
    decreases j - i
  {
    if i < j {
      UnendedLoginsStayLive(trace, steps, i, j - 1, root);
      RunsKeepInv(trace, steps, j - 1);
      NextKeepsLive(trace[j - 1], steps[j - 1], root);
    }
  }

  /**
   * Until a logout or a deactivation ends it, a login has exactly one unrevoked token after any number of
   * refreshes, lost races and failed inserts: its newest.
   */
  lemma SessionsSurviveRotation(trace: seq<State>, steps: seq<Step>, i: nat, j: nat, root: Jti)
    requires Run(trace, steps) && i <= j < |trace| && Live(trace[i], root)
    requires forall k | i <= k < j && Live(trace[k], root) :: !Ends(trace[k], steps[k], Newest(trace[k], root))
    ensures Live(trace[j], root)
    ensures forall t | t in trace[j].lineage[root] :: Usable(trace[j], t) <==> t == Newest(trace[j], root)
  {
    UnendedLoginsStayLive(trace, steps, i, j, root);
    RunsKeepInv(trace, steps, j);
    assert Chain(trace[j], root);
  }

  /** A token that an operation issues is its user's, unrevoked, and the newest of its login. */
  lemma IssuedTokensAreLive(s: State, step: Step)
    requires Inv(s) && Enabled(s, step) && IssuesToken(s, step)
    ensures var (s', answer) := Apply(s, step);
            && Usable(s', answer.jti) && answer.jti !in s.tokens
            && s'.tokens[answer.jti].user == s.requests[step.req].user
            && s'.tokens[answer.jti].expiresAt ==
                 (if step.FinishLoginStep? then step.expiresAt else s.requests[step.req].stage.newExpiry)
            && answer.jti in s'.origin
            && var root := s'.origin[answer.jti].root;
            && Live(s', root) && Newest(s', root) == answer.jti
  {
    if step.RotateStep? {
      RotationExtends(s, step.req);
    }
  }

  // ----- Deactivated users have no sessions

  /** No deactivated user has a token that is neither revoked nor expired. */
  ghost predicate NoSessions(s: State) {
    forall j | j in s.tokens && s.tokens[j].user in s.active && !s.active[s.tokens[j].user] ::
      s.tokens[j].revoked || Expired(s.tokens[j], s.now)
  }

  /** A written rotation whose token expired before its commit. */
  predicate TooLate(s: State, r: Request) {
    r.Refreshing? && r.stage.Flushed? && r.stage.newExpiry <= s.now
  }

  predicate Revokes(s: State, req: RequestId) {
    req in s.requests && s.requests[req].Revoking?
  }

  /** A live token of the user that was committed after the revocation selected its tokens. */
  predicate LeftOut(s: State, req: RequestId, j: Jti) {
    && Revokes(s, req) && j in s.tokens && s.tokens[j].user == s.requests[req].user
    && !s.tokens[j].revoked && !Expired(s.tokens[j], s.now) && j !in s.requests[req].selected
  }

  /** A login of the user between its check and its insert. */
  predicate LateLogin(s: State, req: RequestId, q: RequestId) {
    Revokes(s, req) && q in s.requests && s.requests[q] == LoggingIn(s.requests[req].user)
  }

  /** A refresh of the user on a token that is neither revoked nor selected. */
  predicate LateRefresh(s: State, req: RequestId, q: RequestId) {
    && Revokes(s, req) && q in s.requests && s.requests[q].Refreshing? && !TooLate(s, s.requests[q])
    && var jti := s.requests[q].jti;
    && jti in s.tokens && s.tokens[jti].user == s.requests[req].user
    && !s.tokens[jti].revoked && jti !in s.requests[req].selected
  }

  ghost predicate Overtaken(s: State, req: RequestId) {
    (exists j :: LeftOut(s, req, j)) || (exists q :: LateLogin(s, req, q)) || (exists q :: LateRefresh(s, req, q))
  }

  predicate Deactivates(s: State, step: Step) {
    step.RevokeStep? && Revokes(s, step.req) && s.requests[step.req].deactivates
  }

  /** No deactivation in the run was overtaken when it committed. */
  ghost predicate NeverOvertaken(trace: seq<State>, steps: seq<Step>)
    requires |trace| == |steps| + 1
  {
    forall i | 0 <= i < |steps| && Deactivates(trace[i], steps[i]) :: !Overtaken(trace[i], steps[i].req)
  }

  /** The condition on one token and on one request under way. */
  predicate SessionOk(s: State, jti: Jti)
    requires jti in s.tokens
  {
    var t := s.tokens[jti];
    t.user in s.active && (s.active[t.user] || t.revoked || Expired(t, s.now))
  }

  predicate RequestOk(s: State, r: Request) {
    match r
    case LoggingIn(user) => IsActive(s, user)
    case Refreshing(jti, user, _) =>
      user in s.active
      && (jti in s.tokens ==>
            s.tokens[jti].user == user && (s.active[user] || s.tokens[jti].revoked || TooLate(s, r)))
    case Revoking(_, _, _) => true
  }

  ghost predicate SessionsOk(s: State) {
    && (forall j | j in s.tokens :: SessionOk(s, j))
    && (forall q | q in s.requests :: RequestOk(s, s.requests[q]))
  }

  lemma DeactivationKeepsSession(s: State, req: RequestId, jti: Jti)
    requires Revokes(s, req) && jti in s.tokens && SessionOk(s, jti) && !LeftOut(s, req, jti)
    ensures SessionOk(RevokeSelected(s, req).0, jti)
  {
  }

  lemma RevocationKeepsSession(s: State, req: RequestId, jti: Jti)
    requires Revokes(s, req) && !s.requests[req].deactivates && jti in s.tokens && SessionOk(s, jti)
    ensures SessionOk(RevokeSelected(s, req).0, jti)
  {
  }

  lemma IssuedSessionIsOk(s: State, step: Step)
    requires SessionsOk(s) && RefreshesOk(s) && Enabled(s, step) && IssuesToken(s, step)
    ensures Apply(s, step).1.jti in Apply(s, step).0.tokens
    ensures SessionOk(Apply(s, step).0, Apply(s, step).1.jti)
  {
    assert RequestOk(s, s.requests[step.req]) && RefreshOk(s, step.req);
  }

  lemma OtherSessionsStayOk(s: State, step: Step, jti: Jti)
    requires Enabled(s, step) && !step.RevokeStep? && jti in s.tokens && SessionOk(s, jti)
    requires IssuesToken(s, step) ==> Apply(s, step).1.jti != jti
    ensures jti in Apply(s, step).0.tokens && SessionOk(Apply(s, step).0, jti)
  {
  }

  lemma NewTokensAreIssued(s: State, step: Step, jti: Jti)
    requires Enabled(s, step) && jti in Apply(s, step).0.tokens && jti !in s.tokens
    ensures IssuesToken(s, step) && Apply(s, step).1.jti == jti
  {
    if !IssuesToken(s, step) {
      OtherStepsOnlyRevoke(s, step);
    }
  }

  lemma NextKeepsSession(s: State, step: Step, jti: Jti)
    requires SessionsOk(s) && RefreshesOk(s) && Enabled(s, step) && jti in Apply(s, step).0.tokens
    requires Deactivates(s, step) ==> !Overtaken(s, step.req)
    ensures SessionOk(Apply(s, step).0, jti)
  {
    if jti !in s.tokens {
      NewTokensAreIssued(s, step, jti);
    }
    if IssuesToken(s, step) && Apply(s, step).1.jti == jti {
      IssuedSessionIsOk(s, step);
    } else {
      assert SessionOk(s, jti);
      if !step.RevokeStep? {
        OtherSessionsStayOk(s, step, jti);
      } else if s.requests[step.req].deactivates {
        DeactivationKeepsSession(s, step.req, jti);
      } else {
        RevocationKeepsSession(s, step.req, jti);
      }
    }
  }

  lemma DeactivationKeepsRequest(s: State, req: RequestId, q: RequestId)
    requires Revokes(s, req) && q in s.requests && RequestOk(s, s.requests[q]) && !Overtaken(s, req)
    ensures RequestOk(RevokeSelected(s, req).0, s.requests[q])
  {
    assert !LateLogin(s, req, q) && !LateRefresh(s, req, q);
  }

  lemma RevocationKeepsRequest(s: State, req: RequestId, r: Request)
    requires Revokes(s, req) && !s.requests[req].deactivates && RequestOk(s, r)
    ensures RequestOk(RevokeSelected(s, req).0, r)
  {
  }

  lemma IssuingKeepsRequest(s: State, step: Step, q: RequestId)
    requires RefreshesOk(s) && Enabled(s, step) && IssuesToken(s, step)
    requires q in s.requests && q != step.req && RequestOk(s, s.requests[q])
    ensures RequestOk(Apply(s, step).0, s.requests[q])
  {
    assert FlushesApart(s.requests[step.req], s.requests[q]);
  }

  lemma OtherStepsKeepRequest(s: State, step: Step, r: Request)
    requires Enabled(s, step) && !IssuesToken(s, step) && !step.RevokeStep? && RequestOk(s, r)
    ensures RequestOk(Apply(s, step).0, r)
  {
    OtherStepsOnlyRevoke(s, step);
  }

  lemma ActingRequestIsOk(s: State, step: Step)
    requires SessionsOk(s) && Enabled(s, step) && ByRequest(step) && step.req in Apply(s, step).0.requests
    ensures RequestOk(Apply(s, step).0, Apply(s, step).0.requests[step.req])
  {
    ActingRequest(s, step);
    assert step.req in s.requests ==> RequestOk(s, s.requests[step.req]);
  }

  lemma NextKeepsRequest(s: State, step: Step, q: RequestId)
    requires SessionsOk(s) && RefreshesOk(s) && Enabled(s, step) && q in Apply(s, step).0.requests
    requires Deactivates(s, step) ==> !Overtaken(s, step.req)
    ensures RequestOk(Apply(s, step).0, Apply(s, step).0.requests[q])
  {
    if ByRequest(step) && q == step.req {
      ActingRequestIsOk(s, step);
    } else {
      OtherRequestsStay(s, step, q);
      assert RequestOk(s, s.requests[q]);
      if IssuesToken(s, step) {
        IssuingKeepsRequest(s, step, q);
      } else if !step.RevokeStep? {
        OtherStepsKeepRequest(s, step, s.requests[q]);
      } else if s.requests[step.req].deactivates {
        DeactivationKeepsRequest(s, step.req, q);
      } else {
        RevocationKeepsRequest(s, step.req, s.requests[q]);
      }
    }
  }

  lemma NextKeepsSessions(s: State, step: Step)
    requires SessionsOk(s) && RefreshesOk(s) && Enabled(s, step)
    requires Deactivates(s, step) ==> !Overtaken(s, step.req)
    ensures SessionsOk(Apply(s, step).0)
  {
    forall j | j in Apply(s, step).0.tokens ensures SessionOk(Apply(s, step).0, j) {
      NextKeepsSession(s, step, j);
    }
    forall q | q in Apply(s, step).0.requests ensures RequestOk(Apply(s, step).0, Apply(s, step).0.requests[q]) {
      NextKeepsRequest(s, step, q);
    }
  }

  lemma {:induction false} RunsKeepSessions(trace: seq<State>, steps: seq<Step>, i: nat)
    requires Run(trace, steps) && i < |trace| && NeverOvertaken(trace, steps)
    ensures SessionsOk(trace[i])
  {
    if i > 0 {
      RunsKeepSessions(trace, steps, i - 1);
      RunsKeepInv(trace, steps, i - 1);
      NextKeepsSessions(trace[i - 1], steps[i - 1]);
    }
  }

  /** A user whose deactivation was not overtaken keeps no usable session, whatever else is under way. */
  lemma DeactivatedUsersHaveNoSessions(trace: seq<State>, steps: seq<Step>, i: nat)
    requires Run(trace, steps) && i < |trace| && NeverOvertaken(trace, steps)
    ensures NoSessions(trace[i])
  {
    RunsKeepSessions(trace, steps, i);
    assert forall j | j in trace[i].tokens :: SessionOk(trace[i], j);
  }

  // ----- What can overtake a deactivation

  lemma PathStarts(s: State, step: Step, trace: seq<State>, steps: seq<Step>)
    requires Enabled(s, step) && Path(trace, steps) && trace[0] == Apply(s, step).0
    ensures Path([s] + trace, [step] + steps)
  {
    var t, p := [s] + trace, [step] + steps;
    forall i | 0 <= i < |p| ensures Enabled(t[i], p[i]) && t[i + 1] == Apply(t[i], p[i]).0 {
      if i > 0 {
        assert t[i] == trace[i - 1] && p[i] == steps[i - 1] && t[i + 1] == trace[i];
      }
    }
  }

  /** The user is inactive. */
  predicate IsOut(s: State, user: UserId) {
    user in s.active && !s.active[user]
  }

  lemma LiveTokenIsASession(s: State, user: UserId, jti: Jti)
    requires IsOut(s, user) && jti in s.tokens && s.tokens[jti].user == user
    requires !s.tokens[jti].revoked && !Expired(s.tokens[jti], s.now)
    ensures !NoSessions(s)
  {
  }

  /** A refresh of the user under way on an unrevoked token. */
  predicate GoesOn(s: State, user: UserId, q: RequestId) {
    && q in s.requests && s.requests[q].Refreshing? && s.requests[q].user == user && !TooLate(s, s.requests[q])
    && s.requests[q].jti in s.tokens && !s.tokens[s.requests[q].jti].revoked
  }

  /** A rotation that is written commits. */
  lemma WrittenRotationOpensSession(s: State, user: UserId, q: RequestId)
    requires IsOut(s, user) && GoesOn(s, user, q) && s.requests[q].stage.Flushed?
    ensures Enabled(s, RotateStep(q)) && !NoSessions(Apply(s, RotateStep(q)).0)
  {
    LiveTokenIsASession(Rotate(s, q).0, user, s.requests[q].stage.newJti);
  }

  lemma WritingGoesOn(s: State, user: UserId, q: RequestId, jti: Jti, expiresAt: Time)
    requires GoesOn(s, user, q) && s.requests[q].stage.Read? && !Locked(s, s.requests[q].jti)
    requires FreshJti(s, jti) && expiresAt > s.now
    ensures var step := FlushStep(q, jti, expiresAt, true);
            && Enabled(s, step) && Apply(s, step).0.active == s.active
            && GoesOn(Apply(s, step).0, user, q) && Apply(s, step).0.requests[q].stage.Flushed?
  {
  }

  lemma ReadingGoesOn(s: State, user: UserId, q: RequestId, jti: Jti)
    requires GoesOn(s, user, q) && s.requests[q].stage.Checked? && !Locked(s, s.requests[q].jti) && FreshJti(s, jti)
    ensures var step := ReadTokenStep(q);
            var s' := Apply(s, step).0;
            && Enabled(s, step) && s'.active == s.active && s'.now == s.now
            && GoesOn(s', user, q) && s'.requests[q].stage.Read?
            && !Locked(s', s.requests[q].jti) && FreshJti(s', jti)
  {
    var s' := Apply(s, ReadTokenStep(q)).0;
    assert s' == Under(s, q, s.requests[q].(stage := Read));
    forall o | o in s'.requests ensures !Locks(s'.requests[o], s.requests[q].jti) {
      assert o != q ==> s'.requests[o] == s.requests[o] && !Locks(s.requests[o], s.requests[q].jti);
    }
  }

  /** A refresh whose token is not locked is read, if it has yet to be, written and committed. */
  lemma UnlockedRefreshOpensSession(s: State, user: UserId, q: RequestId, jti: Jti, expiresAt: Time)
    returns (trace: seq<State>, steps: seq<Step>)
    requires IsOut(s, user) && GoesOn(s, user, q) && !s.requests[q].stage.Flushed?
    requires !Locked(s, s.requests[q].jti) && FreshJti(s, jti) && expiresAt > s.now
    ensures Path(trace, steps) && trace[0] == s && !NoSessions(trace[|steps|])
  {
    var read := s;
    if s.requests[q].stage.Checked? {
      ReadingGoesOn(s, user, q, jti);
      read := Apply(s, ReadTokenStep(q)).0;
    }
    WritingGoesOn(read, user, q, jti, expiresAt);
    var flush := FlushStep(q, jti, expiresAt, true);
    var written := Apply(read, flush).0;
    WrittenRotationOpensSession(written, user, q);
    trace, steps := [read, written, Apply(written, RotateStep(q)).0], [flush, RotateStep(q)];
    if s.requests[q].stage.Checked? {
      PathStarts(s, ReadTokenStep(q), trace, steps);
      trace, steps := [s] + trace, [ReadTokenStep(q)] + steps;
    }
  }

  lemma StoppingUnlocks(s: State, user: UserId, q: RequestId, o: RequestId, jti: Jti)
    requires RefreshesOk(s) && IsOut(s, user) && GoesOn(s, user, q) && FreshJti(s, jti)
    requires o in s.requests && o != q && Locks(s.requests[o], s.requests[q].jti)
    ensures var s' := Closed(s, o);
            IsOut(s', user) && GoesOn(s', user, q) && FreshJti(s', jti) && !Locked(s', s.requests[q].jti)
  {
    var s', t := Closed(s, o), s.requests[q].jti;
    forall p | p in s'.requests ensures !Locks(s'.requests[p], t) {
      assert p != o && FlushesApart(s.requests[o], s.requests[p]);
    }
  }

  /** A refresh under way on an unrevoked token of a deactivated user still opens a session. */
  lemma RefreshGoesOn(s: State, user: UserId, q: RequestId, jti: Jti, expiresAt: Time)
    returns (trace: seq<State>, steps: seq<Step>)
    requires RefreshesOk(s) && IsOut(s, user) && GoesOn(s, user, q) && FreshJti(s, jti) && expiresAt > s.now
    ensures Path(trace, steps) && trace[0] == s && !NoSessions(trace[|steps|])
  {
    if s.requests[q].stage.Flushed? {
      WrittenRotationOpensSession(s, user, q);
      trace, steps := [s, Apply(s, RotateStep(q)).0], [RotateStep(q)];
    } else if Locked(s, s.requests[q].jti) {
      var o :| o in s.requests && Locks(s.requests[o], s.requests[q].jti);
      StoppingUnlocks(s, user, q, o, jti);
      trace, steps := UnlockedRefreshOpensSession(Closed(s, o), user, q, jti, expiresAt);
      PathStarts(s, StopStep(o), trace, steps);
      trace, steps := [s] + trace, [StopStep(o)] + steps;
    } else {
      trace, steps := UnlockedRefreshOpensSession(s, user, q, jti, expiresAt);
    }
  }

  lemma LoginGoesOn(s: State, user: UserId, q: RequestId, jti: Jti, expiresAt: Time)
    requires IsOut(s, user) && q in s.requests && s.requests[q] == LoggingIn(user)
    requires FreshJti(s, jti) && expiresAt > s.now
    ensures var step := FinishLoginStep(q, jti, expiresAt, true);
            Enabled(s, step) && !NoSessions(Apply(s, step).0)
  {
    LiveTokenIsASession(FinishLogin(s, q, jti, expiresAt, true).0, user, jti);
  }

  /** What a committed deactivation leaves of what overtook it. */
  lemma DeactivationSpares(s: State, req: RequestId, jti: Jti)
    requires RefreshesOk(s) && Enabled(s, RevokeStep(req)) && s.requests[req].deactivates && FreshJti(s, jti)
    ensures var s', user := RevokeSelected(s, req).0, s.requests[req].user;
            && RefreshesOk(s') && FreshJti(s', jti) && IsOut(s', user) && s'.now == s.now
            && (forall q :: LateLogin(s, req, q) ==> q in s'.requests && s'.requests[q] == LoggingIn(user))
            && (forall q :: LateRefresh(s, req, q) ==> GoesOn(s', user, q))
            && (forall j :: LeftOut(s, req, j) ==> j in s'.tokens && s'.tokens[j] == s.tokens[j])
  {
    NextKeepsFlushes(s, RevokeStep(req));
    var s' := RevokeSelected(s, req).0;
    forall q ensures LateRefresh(s, req, q) ==> GoesOn(s', s.requests[req].user, q) {
      assert LateRefresh(s, req, q) ==> RefreshOk(s, q) && q != req;
    }
  }

  lemma SparedSessionOpens(s: State, req: RequestId, jti: Jti, expiresAt: Time)
    returns (after: seq<State>, next: seq<Step>)
    requires RefreshesOk(s) && Enabled(s, RevokeStep(req)) && s.requests[req].deactivates && Overtaken(s, req)
    requires FreshJti(s, jti) && expiresAt > s.now
    ensures Path(after, next) && after[0] == RevokeSelected(s, req).0 && !NoSessions(after[|next|])
  {
    var s', user := RevokeSelected(s, req).0, s.requests[req].user;
    DeactivationSpares(s, req, jti);
    if q :| LateRefresh(s, req, q) {
      after, next := RefreshGoesOn(s', user, q, jti, expiresAt);
    } else if q :| LateLogin(s, req, q) {
      LoginGoesOn(s', user, q, jti, expiresAt);
      var step := FinishLoginStep(q, jti, expiresAt, true);
      after, next := [s', Apply(s', step).0], [step];
    } else {
      var j :| LeftOut(s, req, j);
      LiveTokenIsASession(s', user, j);
      after, next := [s'], [];
    }
  }

  /**
   * Conversely, in every run, whenever something has overtaken a deactivation that commits, its user has a
   * usable session or can still get one.
   */
  lemma OvertakenDeactivationLeavesSession(trace: seq<State>, steps: seq<Step>, i: nat, jti: Jti, expiresAt: Time)
    returns (after: seq<State>, next: seq<Step>)
    requires Run(trace, steps) && i < |steps| && Deactivates(trace[i], steps[i]) && Overtaken(trace[i], steps[i].req)
    requires FreshJti(trace[i], jti) && expiresAt > trace[i].now
    ensures Path(after, next) && after[0] == trace[i + 1] && !NoSessions(after[|next|])
  {
    RunsKeepInv(trace, steps, i);
    assert Enabled(trace[i], steps[i]);
    after, next := SparedSessionOpens(trace[i], steps[i].req, jti, expiresAt);
  }

  /** One more step of a path. */
  lemma PathGrows(trace: seq<State>, steps: seq<Step>, step: Step)
    requires Path(trace, steps) && Enabled(trace[|steps|], step)
    ensures Path(trace + [Apply(trace[|steps|], step).0], steps + [step])
  {
  }

  /** The state of user 1 with one login, whose token is 2. */
  function OneLogin(): State {
    Init.(active := map[1 := true], tokens := map[2 := Token(1, false, 10)],
          origin := map[2 := Origin(2, 0, None)], lineage := map[2 := [2]])
  }

  lemma OneLoginIsReachable() returns (trace: seq<State>, steps: seq<Step>)
    ensures Run(trace, steps) && trace[|steps|] == OneLogin()
  {
    var s1 := Apply(Init, RegisterStep(1)).0;
    var s2 := Apply(s1, CheckLoginStep(3, 1)).0;
    var s3 := Apply(s2, FinishLoginStep(3, 2, 10, true)).0;
    trace := [Init, s1, s2, s3];
    steps := [RegisterStep(1), CheckLoginStep(3, 1), FinishLoginStep(3, 2, 10, true)];
    assert s3.requests == map[];
  }

  /** A login is checked, and then its user's deactivation selects the tokens. */
  lemma LateLoginIsReachable() returns (trace: seq<State>, steps: seq<Step>)
    ensures Run(trace, steps)
    ensures var s := trace[|steps|]; Enabled(s, RevokeStep(4)) && s.requests[4].deactivates && LateLogin(s, 4, 3)
  {
    var s1 := Apply(Init, RegisterStep(1)).0;
    var s2 := Apply(s1, CheckLoginStep(3, 1)).0;
    trace := [Init, s1, s2, Apply(s2, SelectStep(4, 1, true)).0];
    steps := [RegisterStep(1), CheckLoginStep(3, 1), SelectStep(4, 1, true)];
  }

  /** The state in which a refresh of that token is checked, and the token has expired since. */
  function CheckedAndExpired(): State {
    OneLogin().(now := 10, requests := map[3 := Refreshing(2, 1, Checked)])
  }

  lemma CheckedIsReachable() returns (trace: seq<State>, steps: seq<Step>)
    ensures Run(trace, steps) && trace[|steps|] == OneLogin().(requests := map[3 := Refreshing(2, 1, Checked)])
  {
    trace, steps := OneLoginIsReachable();
    var check := CheckUserStep(3, Claims(2, 1, 10));
    PathGrows(trace, steps, check);
    trace, steps := trace + [Apply(OneLogin(), check).0], steps + [check];
    assert trace[|steps|].requests == map[3 := Refreshing(2, 1, Checked)];
  }

  /** A refresh is checked, its token expires, and a deactivation selects the tokens without it. */
  lemma LateRefreshIsReachable() returns (trace: seq<State>, steps: seq<Step>)
    ensures Run(trace, steps)
    ensures var s := trace[|steps|]; Enabled(s, RevokeStep(4)) && s.requests[4].deactivates && LateRefresh(s, 4, 3)
  {
    trace, steps := CheckedIsReachable();
    PathGrows(trace, steps, TickStep(10));
    trace, steps := trace + [CheckedAndExpired()], steps + [TickStep(10)];
    var select := SelectStep(4, 1, true);
    PathGrows(trace, steps, select);
    var s := Apply(CheckedAndExpired(), select).0;
    trace, steps := trace + [s], steps + [select];
    assert LiveTokens(CheckedAndExpired(), 1) == {};
    assert s.requests[4] == Revoking(1, {}, true) && s.requests[3] == Refreshing(2, 1, Checked);
  }

  /** The state in which a refresh of that token has written its rotation to token 5. */
  function Written(): State {
    OneLogin().(requests := map[3 := Refreshing(2, 1, Flushed(5, 20))])
  }

  lemma WrittenIsReachable() returns (trace: seq<State>, steps: seq<Step>)
    ensures Run(trace, steps) && trace[|steps|] == Written()
  {
    trace, steps := CheckedIsReachable();
    PathGrows(trace, steps, ReadTokenStep(3));
    var s := Apply(trace[|steps|], ReadTokenStep(3)).0;
    trace, steps := trace + [s], steps + [ReadTokenStep(3)];
    assert s.requests == map[3 := Refreshing(2, 1, Read)];
    PathGrows(trace, steps, FlushStep(3, 5, 20, true));
    trace, steps := trace + [Apply(s, FlushStep(3, 5, 20, true)).0], steps + [FlushStep(3, 5, 20, true)];
    assert trace[|steps|].requests == Written().requests;
  }

  /** A revocation selects the old token while that rotation is written. */
  function WrittenAndSelected(deactivates: bool): State {
    Written().(requests := map[3 := Refreshing(2, 1, Flushed(5, 20)), 4 := Revoking(1, {2}, deactivates)])
  }

  lemma WrittenAndSelectedIsReachable(deactivates: bool) returns (trace: seq<State>, steps: seq<Step>)
    ensures Run(trace, steps) && trace[|steps|] == WrittenAndSelected(deactivates)
  {
    trace, steps := WrittenIsReachable();
    var select := SelectStep(4, 1, deactivates);
    PathGrows(trace, steps, select);
    trace, steps := trace + [Apply(Written(), select).0], steps + [select];
    assert LiveTokens(Written(), 1) == {2};
    assert trace[|steps|].requests == WrittenAndSelected(deactivates).requests;
  }

  lemma RotationIsLeftOut(deactivates: bool)
    ensures var s := WrittenAndSelected(deactivates);
            && Enabled(s, RotateStep(3))
            && var s' := Apply(s, RotateStep(3)).0;
            Enabled(s', RevokeStep(4)) && s'.requests[4].deactivates == deactivates && LeftOut(s', 4, 5)
  {
    var s := WrittenAndSelected(deactivates);
    var s' := Rotate(s, 3).0;
    assert s'.tokens[5] == Token(1, false, 20) && s'.requests == map[4 := Revoking(1, {2}, deactivates)];
  }

  /**
   * A rotation is written, a logout of all devices or a deactivation selects the old token and waits for it, and
   * the rotation commits: the new token is left out.
   */
  lemma LeftOutTokenIsReachable(deactivates: bool) returns (trace: seq<State>, steps: seq<Step>)
    ensures Run(trace, steps)
    ensures var s := trace[|steps|];
            Enabled(s, RevokeStep(4)) && s.requests[4].deactivates == deactivates && LeftOut(s, 4, 5)
  {
    trace, steps := WrittenAndSelectedIsReachable(deactivates);
    RotationIsLeftOut(deactivates);
    PathGrows(trace, steps, RotateStep(3));
    trace, steps := trace + [Apply(trace[|steps|], RotateStep(3)).0], steps + [RotateStep(3)];
  }

  /** An unrevoked token of the user that revoking all tokens passes over. */
  predicate PassedOver(s: State, user: UserId, j: Jti) {
    j in s.tokens && s.tokens[j].user == user && !s.tokens[j].revoked && Expired(s.tokens[j], s.now)
  }

  predicate UnrevokedOf(s: State, user: UserId, j: Jti) {
    j in s.tokens && s.tokens[j].user == user && !s.tokens[j].revoked
  }

  /**
   * A revocation of all tokens that nothing overtakes: it revokes the user's tokens that are not expired, and
   * leaves an unrevoked token of the user exactly when one had expired unrevoked.
   */
  lemma RevocationRevokesUnexpiredTokens(s: State, req: RequestId, user: UserId, deactivates: bool)
    requires req !in s.requests && (deactivates ==> IsActive(s, user))
    ensures req in Select(s, req, user, deactivates).0.requests
    ensures var s' := RevokeSelected(Select(s, req, user, deactivates).0, req).0;
            && s'.requests == s.requests && s'.tokens.Keys == s.tokens.Keys
            && s'.active == (if deactivates then s.active[user := false] else s.active)
            && (forall j | j in s.tokens ::
                  s'.tokens[j].revoked <==>
                    s.tokens[j].revoked || (s.tokens[j].user == user && !Expired(s.tokens[j], s.now)))
            && ((exists j :: UnrevokedOf(s', user, j)) <==> (exists j :: PassedOver(s, user, j)))
  {
    var s' := RevokeSelected(Select(s, req, user, deactivates).0, req).0;
    assert s'.requests == s.requests;
    forall j ensures UnrevokedOf(s', user, j) == PassedOver(s, user, j) {
    }
  }
}
