/**
 * The job protocol with its loads and stores apart: a worker loads a row, works, and stores blindly what it
 * decided; a cancellation loads a row and stores blindly too. Whatever happens in between, a run whose stores
 * all find their row still active is a run of `JobProtocol`; and what a store over an ended row does.
 */
module JobInterleaving {
  import opened Wrappers
  import opened Analyses
  import opened JobProtocol
  import opened JobTheorems

  /** `loaded` holds the row that the worker of each claimed job loaded, `cancelling` those of cancellations. */
  datatype Fine = Fine(base: State, loaded: map<Id, Row>, cancelling: map<Id, Row>)

  const FineInit := Fine(Init, map[], map[])

  datatype FineStep =
    | Whole(step: Step)
    | LoadStep(jobId: Id)
    | StoreStep(jobId: Id, attempt: Attempt, now: Time)
    | StopStep(jobId: Id, point: CrashPoint, attempt: Attempt, now: Time)
    | LoadCancelStep(req: Id, id: Id)
    | StoreCancelStep(req: Id, at: Time)

  /** The steps that load and store nothing, or do both at once. */
  predicate IsWhole(f: Fine, step: Step) {
    match step
    case CancelStep(_, _) => false
    case SettleStep(_, _, _) => false
    case CrashStep(jobId, point, _, _) => jobId !in f.loaded && point.BeforeSettle?
    case _ => true
  }

  /** What a worker does with a row it loaded, in the state in which it stores. */
  function LoadedWork(c: Config, s: State, row: Row, attempt: Attempt, now: Time): Result<Work, Error>
    requires row.id in s.rows
  {
    match ToEntity(row)
    case Err(e) => Err(e)
    case Ok(a) => WorkOf(a, attempt, Conflicts(s.rows, s.rows[row.id]), c.maxRetries, now)
  }

  predicate Working(f: Fine, jobId: Id) {
    jobId in f.base.claims && jobId in f.loaded && f.loaded[jobId].id in f.base.rows
  }

  predicate Cancels(f: Fine, req: Id) {
    req in f.cancelling && f.cancelling[req].id in f.base.rows && ToEntity(f.cancelling[req]).Ok?
  }

  function Loading(f: Fine, jobId: Id): Fine
    requires jobId in f.base.claims
  {
    if Target(f.base, jobId).None? then f.(base := Ack(f.base, jobId))
    else f.(loaded := f.loaded[jobId := f.base.rows[f.base.claims[jobId].payload.value]])
  }

  /** The blind store of a worker, committed at once; when the work raises, its session is not committed. */
  function Storing(c: Config, f: Fine, jobId: Id, attempt: Attempt, now: Time): Fine
    requires Working(f, jobId)
  {
    var row := f.loaded[jobId];
    f.(loaded := f.loaded - {jobId},
       base := match LoadedWork(c, f.base, row, attempt, now)
               case Err(_) => f.base
               case Ok(w) => Finished(f.base, jobId, row.id, w))
  }

  /** A worker that stops: nothing that it wrote is committed. */
  function Stopping(c: Config, f: Fine, jobId: Id, point: CrashPoint, attempt: Attempt, now: Time): Fine
    requires Working(f, jobId)
  {
    var work := LoadedWork(c, f.base, f.loaded[jobId], attempt, now);
    f.(loaded := f.loaded - {jobId},
       base := if point.BeforeSettle? || work.Err? then Nack(f.base, jobId)
               else Released(f.base, jobId, work.value.outcome))
  }

  /** A cancellation goes on only if it loads an active row. */
  function LoadingCancel(f: Fine, req: Id, id: Id): Fine {
    match Load(f.base.rows, id)
    case Err(_) => f
    case Ok(a) => if Terminal(a.status) then f else f.(cancelling := f.cancelling[req := f.base.rows[id]])
  }

  /** The row that the blind store of a cancellation leaves. */
  function CancelledOver(found: Row, loaded: Row, at: Time): Row
    requires ToEntity(loaded).Ok?
  {
    match Cancel(ToEntity(loaded).value, at)
    case Err(_) => found
    case Ok(cancelled) => Write(found, CancelUpdates(cancelled))
  }

  function StoringCancel(f: Fine, req: Id, at: Time): Fine
    requires Cancels(f, req)
  {
    var row := f.cancelling[req];
    var found := f.base.rows[row.id];
    f.(cancelling := f.cancelling - {req},
       base := f.base.(rows := f.base.rows[row.id := CancelledOver(found, row, at)]))
  }

  ghost predicate NextFine(c: Config, f: Fine, step: FineStep, f': Fine) {
    match step
    case Whole(w) => IsWhole(f, w) && Next(c, f.base, w, f'.base) && f' == f.(base := f'.base)
    case LoadStep(jobId) => jobId in f.base.claims && jobId !in f.loaded && f' == Loading(f, jobId)
    case StoreStep(jobId, attempt, now) => Working(f, jobId) && f' == Storing(c, f, jobId, attempt, now)
    case StopStep(jobId, point, attempt, now) =>
      Working(f, jobId) && f' == Stopping(c, f, jobId, point, attempt, now)
    case LoadCancelStep(req, id) => req !in f.cancelling && f' == LoadingCancel(f, req, id)
    case StoreCancelStep(req, at) => Cancels(f, req) && f' == StoringCancel(f, req, at)
  }

  ghost predicate FineRun(c: Config, trace: seq<Fine>, steps: seq<FineStep>) {
    && ConfigOk(c)
    && |trace| == |steps| + 1
    && trace[0] == FineInit
    && forall i | 0 <= i < |steps| :: NextFine(c, trace[i], steps[i], trace[i + 1])
  }

  /** The store, if the step is one, finds its row still active. */
  predicate FindsActive(f: Fine, step: FineStep) {
    && (step.StoreStep? && Working(f, step.jobId) ==> !Terminal(f.base.rows[f.loaded[step.jobId].id].status))
    && (step.StoreCancelStep? && Cancels(f, step.req) ==> !Terminal(f.base.rows[f.cancelling[step.req].id].status))
  }

  // ----- Stores that find their row active are atomic

  const SomeAttempt := Raises(Error("Exception", "any"))

  /** The step of the atomic protocol that a step amounts to: a job that is requeued was as good as not settled. */
  function Atom(c: Config, f: Fine, step: FineStep): Step {
    match step
    case Whole(w) => w
    case LoadStep(jobId) =>
      if jobId in f.base.claims && Target(f.base, jobId).None? then SettleStep(jobId, SomeAttempt, 0) else IdleStep
    case StoreStep(jobId, attempt, now) => SettleStep(jobId, attempt, now)
    case StopStep(jobId, point, attempt, now) =>
      var acked := && Working(f, jobId) && point.BeforeCommit?
                   && var work := LoadedWork(c, f.base, f.loaded[jobId], attempt, now);
                   work.Ok? && work.value.outcome.Acked?;
      CrashStep(jobId, if acked then BeforeCommit else BeforeSettle, attempt, now)
    case LoadCancelStep(_, _) => IdleStep
    case StoreCancelStep(req, at) =>
      if req in f.cancelling then CancelStep(f.cancelling[req].id, at) else IdleStep
  }

  /** The row at hand is the loaded one, or was cancelled since. */
  predicate SameOrCancelled(row: Row, loaded: Row) {
    || row == loaded
    || (row.completedAt.Some?
        && row == loaded.(status := Cancelled, completedAt := row.completedAt, updatedAt := row.completedAt))
  }

  /** What a worker under way may count on. */
  predicate WorkerOk(f: Fine, jobId: Id)
    requires jobId in f.loaded
  {
    var row := f.loaded[jobId];
    && jobId in f.base.claims && f.base.claims[jobId].payload == Some(row.id)
    && RowOk(row.id, row) && !Terminal(row.status)
    && row.id in f.base.rows && SameOrCancelled(f.base.rows[row.id], row)
  }

  predicate CancellerOk(f: Fine, req: Id)
    requires req in f.cancelling
  {
    var row := f.cancelling[req];
    RowOk(row.id, row) && !Terminal(row.status) && row.id in f.base.rows
  }

  ghost predicate FineInv(f: Fine) {
    && (forall jobId | jobId in f.loaded :: WorkerOk(f, jobId))
    && (forall req | req in f.cancelling :: CancellerOk(f, req))
  }

  lemma StoreIsSettle(c: Config, f: Fine, jobId: Id, attempt: Attempt, now: Time)
    requires Working(f, jobId) && WorkerOk(f, jobId) && !Terminal(f.base.rows[f.loaded[jobId].id].status)
    ensures Storing(c, f, jobId, attempt, now).base == Settle(c, f.base, jobId, attempt, now)
  {
    LoadsExactly(f.loaded[jobId]);
  }

  lemma StopIsCrash(c: Config, f: Fine, jobId: Id, point: CrashPoint, attempt: Attempt, now: Time)
    requires Working(f, jobId) && WorkerOk(f, jobId)
    ensures Next(c, f.base, Atom(c, f, StopStep(jobId, point, attempt, now)),
                 Stopping(c, f, jobId, point, attempt, now).base)
  {
    LoadsExactly(f.loaded[jobId]);
  }

  lemma StoreCancelIsCancel(f: Fine, req: Id, at: Time)
    requires Cancels(f, req) && CancellerOk(f, req) && RowsOk(f.base)
    ensures var row := f.cancelling[req];
            var found := f.base.rows[row.id];
            && CancelledOver(found, row, at) ==
                 found.(status := Cancelled, completedAt := Some(at), updatedAt := Some(at))
            && (!Terminal(found.status) ==> StoringCancel(f, req, at).base == Cancelling(f.base, row.id, at))
  {
    LoadsExactly(f.cancelling[req]);
    CancelsExactlyActiveRows(f.base.rows, f.cancelling[req].id, at);
    assert RowOk(f.cancelling[req].id, f.base.rows[f.cancelling[req].id]);
  }

  lemma LoadIsIdle(c: Config, f: Fine, jobId: Id)
    requires jobId in f.base.claims
    ensures Next(c, f.base, Atom(c, f, LoadStep(jobId)), Loading(f, jobId).base)
  {
  }

  /** A step whose store, if it is one, finds its row active is a step of the atomic protocol. */
  lemma StepIsAtomic(c: Config, f: Fine, step: FineStep, f': Fine)
    requires FineInv(f) && RowsOk(f.base) && NextFine(c, f, step, f') && FindsActive(f, step)
    ensures Next(c, f.base, Atom(c, f, step), f'.base)
  {
    match step
    case Whole(_) =>
    case LoadStep(jobId) => LoadIsIdle(c, f, jobId);
    case StoreStep(jobId, attempt, now) => StoreIsSettle(c, f, jobId, attempt, now);
    case StopStep(jobId, point, attempt, now) => StopIsCrash(c, f, jobId, point, attempt, now);
    case LoadCancelStep(_, _) =>
    case StoreCancelStep(req, at) => StoreCancelIsCancel(f, req, at);
  }

  // ----- Workers under way are undisturbed but for cancellations

  /** What a step leaves to the worker of a job and to the cancellations. */
  predicate Spares(f: Fine, f': Fine, jobId: Id) {
    jobId in f.loaded && f.loaded[jobId].id in f.base.rows && jobId in f.base.claims ==>
      var id := f.loaded[jobId].id;
      && jobId in f'.base.claims && f'.base.claims[jobId] == f.base.claims[jobId]
      && id in f'.base.rows
      && (f'.base.rows[id] == f.base.rows[id]
          || (!Terminal(f.base.rows[id].status)
              && f'.base.rows[id].completedAt.Some?
              && var at := f'.base.rows[id].completedAt;
              f'.base.rows[id] == f.base.rows[id].(status := Cancelled, completedAt := at, updatedAt := at)))
  }

  lemma SparedWorkerStays(f: Fine, f': Fine, jobId: Id)
    requires jobId in f.loaded && WorkerOk(f, jobId) && Spares(f, f', jobId)
    requires jobId in f'.loaded && f'.loaded[jobId] == f.loaded[jobId]
    ensures WorkerOk(f', jobId)
  {
  }

  lemma WorkersHaveTheirOwnRows(f: Fine, j1: Id, j2: Id)
    requires Sane(f.base) && Conserved(f.base) && FineInv(f)
    requires j1 in f.loaded && j2 in f.base.claims && j1 != j2
    ensures ClaimedRow(f.base, j2) != f.loaded[j1].id
  {
    assert WorkerOk(f, j1);
    assert PublishedOnce(f.base, f.base.claims[j1]) && PublishedOnce(f.base, f.base.claims[j2]);
  }

  lemma WholeStepsSpare(c: Config, f: Fine, step: Step, f': Fine, jobId: Id)
    requires IsWhole(f, step) && Next(c, f.base, step, f'.base) && jobId in f.loaded
    requires PostedOk(f.base)
    requires step.ClaimStep? ==> step.job.id !in f.base.claims
    ensures Spares(f, f', jobId)
  {
  }

  lemma ReleasesSpare(s: State, released: Id, jobId: Id)
    requires jobId in s.claims && jobId != released
    ensures jobId in Ack(s, released).claims && Ack(s, released).claims[jobId] == s.claims[jobId]
    ensures jobId in Nack(s, released).claims && Nack(s, released).claims[jobId] == s.claims[jobId]
    ensures Ack(s, released).rows == s.rows && Nack(s, released).rows == s.rows
  {
  }

  lemma FinishingSpares(s: State, released: Id, id: Id, w: Work, jobId: Id)
    requires id in s.rows && jobId in s.claims && jobId != released
    ensures var s' := Finished(s, released, id, w);
            jobId in s'.claims && s'.claims[jobId] == s.claims[jobId]
  {
    ReleasesSpare(Stored(s, id, w), released, jobId);
  }

  lemma StoresSpareOthers(c: Config, f: Fine, stored: Id, point: CrashPoint, attempt: Attempt, now: Time, jobId: Id)
    requires Working(f, stored) && Working(f, jobId) && jobId != stored && f.loaded[jobId].id != f.loaded[stored].id
    ensures Spares(f, Storing(c, f, stored, attempt, now), jobId)
    ensures Spares(f, Stopping(c, f, stored, point, attempt, now), jobId)
  {
    var row := f.loaded[stored];
    ReleasesSpare(f.base, stored, jobId);
    match LoadedWork(c, f.base, row, attempt, now)
    case Err(_) =>
    case Ok(w) =>
      OtherRowsStay(f.base, stored, row.id, w, f.loaded[jobId].id);
      FinishingSpares(f.base, stored, row.id, w, jobId);
  }

  lemma CancellationsSpare(f: Fine, req: Id, at: Time, jobId: Id)
    requires Cancels(f, req) && CancellerOk(f, req) && RowsOk(f.base)
    requires !Terminal(f.base.rows[f.cancelling[req].id].status)
    ensures Spares(f, StoringCancel(f, req, at), jobId)
  {
    StoreCancelIsCancel(f, req, at);
  }

  lemma StoreSparesWorkers(c: Config, f: Fine, stored: Id, point: CrashPoint, attempt: Attempt, now: Time, jobId: Id)
    requires FineInv(f) && Sane(f.base) && Conserved(f.base)
    requires Working(f, stored) && jobId in f.loaded && jobId != stored
    ensures Spares(f, Storing(c, f, stored, attempt, now), jobId)
    ensures Spares(f, Stopping(c, f, stored, point, attempt, now), jobId)
  {
    assert WorkerOk(f, jobId) && WorkerOk(f, stored);
    WorkersHaveTheirOwnRows(f, jobId, stored);
    StoresSpareOthers(c, f, stored, point, attempt, now, jobId);
  }

  lemma CancelSparesWorkers(f: Fine, req: Id, at: Time, jobId: Id)
    requires FineInv(f) && RowsOk(f.base) && Cancels(f, req)
    requires !Terminal(f.base.rows[f.cancelling[req].id].status)
    ensures Spares(f, StoringCancel(f, req, at), jobId)
  {
    assert CancellerOk(f, req);
    CancellationsSpare(f, req, at, jobId);
  }

  lemma WholeStepsSpareWorkers(c: Config, f: Fine, step: Step, f': Fine, jobId: Id)
    requires IsWhole(f, step) && Next(c, f.base, step, f'.base) && jobId in f.loaded && Inv(f.base)
    ensures Spares(f, f', jobId)
  {
    if step.ClaimStep? {
      QueuedJobIsKnown(f.base, step.job);
    }
    WholeStepsSpare(c, f, step, f', jobId);
  }

  lemma LoadsSpareWorkers(f: Fine, loaded: Id, jobId: Id)
    requires loaded in f.base.claims && loaded !in f.loaded && jobId in f.loaded
    ensures Spares(f, Loading(f, loaded), jobId)
  {
    if jobId in f.base.claims {
      ReleasesSpare(f.base, loaded, jobId);
    }
  }

  lemma NextKeepsLoaded(c: Config, f: Fine, step: FineStep, f': Fine, jobId: Id)
    requires NextFine(c, f, step, f') && jobId in f.loaded && jobId in f'.loaded
    ensures f'.loaded[jobId] == f.loaded[jobId]
    ensures (step.StoreStep? || step.StopStep?) ==> step.jobId != jobId
  {
  }

  lemma NextSpares(c: Config, f: Fine, step: FineStep, f': Fine, jobId: Id)
    requires FineInv(f) && Inv(f.base) && Sane(f.base) && NextFine(c, f, step, f') && FindsActive(f, step)
    requires jobId in f.loaded && jobId in f'.loaded
    ensures Spares(f, f', jobId)
  {
    NextKeepsLoaded(c, f, step, f', jobId);
    match step
    case Whole(w) => WholeStepsSpareWorkers(c, f, w, f', jobId);
    case LoadStep(loaded) => LoadsSpareWorkers(f, loaded, jobId);
    case StoreStep(stored, attempt, now) => StoreSparesWorkers(c, f, stored, BeforeSettle, attempt, now, jobId);
    case StopStep(stopped, point, attempt, now) => StoreSparesWorkers(c, f, stopped, point, attempt, now, jobId);
    case LoadCancelStep(_, _) =>
    case StoreCancelStep(req, at) => CancelSparesWorkers(f, req, at, jobId);
  }

  lemma LoadedWorkerIsOk(f: Fine, jobId: Id)
    requires Sane(f.base) && jobId in f.base.claims && jobId !in f.loaded && jobId in Loading(f, jobId).loaded
    ensures WorkerOk(Loading(f, jobId), jobId)
  {
    TargetIsActiveRow(f.base, jobId);
  }

  lemma LoadedCancellerIsOk(f: Fine, req: Id, id: Id)
    requires RowsOk(f.base) && req !in f.cancelling && req in LoadingCancel(f, req, id).cancelling
    ensures CancellerOk(LoadingCancel(f, req, id), req)
  {
    assert RowOk(id, f.base.rows[id]);
  }

  /** Rows are never deleted. */
  predicate RowsStay(s: State, s': State) {
    forall id | id in s.rows :: id in s'.rows
  }

  lemma WholeStepsKeepRows(c: Config, f: Fine, step: Step, f': Fine)
    requires IsWhole(f, step) && Next(c, f.base, step, f'.base)
    ensures RowsStay(f.base, f'.base)
  {
  }

  lemma StoresKeepRows(c: Config, f: Fine, jobId: Id, point: CrashPoint, attempt: Attempt, now: Time)
    requires Working(f, jobId)
    ensures RowsStay(f.base, Storing(c, f, jobId, attempt, now).base)
    ensures RowsStay(f.base, Stopping(c, f, jobId, point, attempt, now).base)
  {
    var row := f.loaded[jobId];
    match LoadedWork(c, f.base, row, attempt, now)
    case Err(_) =>
    case Ok(w) =>
      FinishingKeepsKeys(f.base, jobId, row.id, w);
  }

  lemma NextKeepsRows(c: Config, f: Fine, step: FineStep, f': Fine)
    requires NextFine(c, f, step, f')
    ensures RowsStay(f.base, f'.base)
  {
    match step
    case Whole(w) => WholeStepsKeepRows(c, f, w, f');
    case StoreStep(jobId, attempt, now) => StoresKeepRows(c, f, jobId, BeforeSettle, attempt, now);
    case StopStep(jobId, point, attempt, now) => StoresKeepRows(c, f, jobId, point, attempt, now);
    case _ =>
  }

  lemma NextKeepsWorker(c: Config, f: Fine, step: FineStep, f': Fine, jobId: Id)
    requires FineInv(f) && Inv(f.base) && Sane(f.base) && NextFine(c, f, step, f') && FindsActive(f, step)
    requires jobId in f'.loaded
    ensures WorkerOk(f', jobId)
  {
    if jobId in f.loaded {
      assert WorkerOk(f, jobId);
      NextKeepsLoaded(c, f, step, f', jobId);
      NextSpares(c, f, step, f', jobId);
      SparedWorkerStays(f, f', jobId);
    } else {
      assert step == LoadStep(jobId);
      LoadedWorkerIsOk(f, jobId);
    }
  }

  lemma NextKeepsCanceller(c: Config, f: Fine, step: FineStep, f': Fine, req: Id)
    requires RowsOk(f.base) && NextFine(c, f, step, f') && req in f'.cancelling
    requires req in f.cancelling ==> CancellerOk(f, req)
    ensures CancellerOk(f', req)
  {
    NextKeepsRows(c, f, step, f');
    if req !in f.cancelling {
      LoadedCancellerIsOk(f, req, step.id);
    }
  }

  lemma NextKeepsFineInv(c: Config, f: Fine, step: FineStep, f': Fine)
    requires FineInv(f) && Inv(f.base) && NextFine(c, f, step, f') && FindsActive(f, step)
    ensures FineInv(f')
  {
    InvIsSane(f.base);
    forall jobId | jobId in f'.loaded ensures WorkerOk(f', jobId) {
      NextKeepsWorker(c, f, step, f', jobId);
    }
    forall req | req in f'.cancelling ensures CancellerOk(f', req) {
      NextKeepsCanceller(c, f, step, f', req);
    }
  }

  ghost predicate AllFindActive(trace: seq<Fine>, steps: seq<FineStep>)
    requires |trace| == |steps| + 1
  {
    forall i | 0 <= i < |steps| :: FindsActive(trace[i], steps[i])
  }

  lemma {:induction false} FineRunsKeepInv(c: Config, trace: seq<Fine>, steps: seq<FineStep>, i: nat)
    requires FineRun(c, trace, steps) && i < |trace|
    requires forall k | 0 <= k < i :: FindsActive(trace[k], steps[k])
    ensures FineInv(trace[i]) && Inv(trace[i].base)
  {
    if i == 0 {
      InitInv();
    } else {
      FineRunsKeepInv(c, trace, steps, i - 1);
      var f, step, f' := trace[i - 1], steps[i - 1], trace[i];
      assert FindsActive(f, step);
      StepIsAtomic(c, f, step, f');
      NextKeepsInv(c, f.base, Atom(c, f, step), f'.base);
      NextKeepsFineInv(c, f, step, f');
    }
  }

  function Bases(trace: seq<Fine>): seq<State> {
    seq(|trace|, i requires 0 <= i < |trace| => trace[i].base)
  }

  function Atoms(c: Config, trace: seq<Fine>, steps: seq<FineStep>): seq<Step>
    requires |trace| == |steps| + 1
  {
    seq(|steps|, i requires 0 <= i < |steps| => Atom(c, trace[i], steps[i]))
  }

  /**
   * A run whose stores all find their rows active is, step by step, a run of the atomic protocol; so all its
   * theorems hold of it, however loads and stores interleave.
   */
  lemma InterleavedRunsAreAtomic(c: Config, trace: seq<Fine>, steps: seq<FineStep>)
    requires FineRun(c, trace, steps) && AllFindActive(trace, steps)
    ensures Run(c, Bases(trace), Atoms(c, trace, steps))
  {
    var bases, atoms := Bases(trace), Atoms(c, trace, steps);
    forall i | 0 <= i < |atoms| ensures Next(c, bases[i], atoms[i], bases[i + 1]) {
      FineRunsKeepInv(c, trace, steps, i);
      StepIsAtomic(c, trace[i], steps[i], trace[i + 1]);
    }
  }

  lemma {:induction false} FineRowsStay(c: Config, trace: seq<Fine>, steps: seq<FineStep>, i: nat, j: nat)
    requires FineRun(c, trace, steps) && i <= j < |trace|
    ensures RowsStay(trace[i].base, trace[j].base)
    decreases j - i
  {
    if i < j {
      FineRowsStay(c, trace, steps, i, j - 1);
      NextKeepsRows(c, trace[j - 1], steps[j - 1], trace[j]);
    }
  }

  /** In particular ended rows stay as they are, and every row loads. */
  lemma EndedRowsStayEnded(c: Config, trace: seq<Fine>, steps: seq<FineStep>, i: nat, j: nat, id: Id)
    requires FineRun(c, trace, steps) && AllFindActive(trace, steps) && i <= j < |trace| && id in trace[i].base.rows
    ensures id in trace[j].base.rows && ToEntity(trace[j].base.rows[id]).Ok?
    ensures Terminal(trace[i].base.rows[id].status) ==> trace[j].base.rows[id] == trace[i].base.rows[id]
  {
    InterleavedRunsAreAtomic(c, trace, steps);
    FineRowsStay(c, trace, steps, i, j);
    ReachableRowsLoad(c, Bases(trace), Atoms(c, trace, steps), j, id);
    if Terminal(trace[i].base.rows[id].status) {
      TerminalRowsAreAbsorbing(c, Bases(trace), Atoms(c, trace, steps), i, j, id);
    }
  }

  // ----- Stores that find their row ended

  /** What a worker's two writes leave of a row. */
  function Worked(row: Row, w: Work): Row {
    Write(WriteFirst(row, w), w.last)
  }

  function CancelledAt(row: Row, at: Time): Row {
    row.(status := Cancelled, completedAt := Some(at), updatedAt := Some(at))
  }

  /** Writes over a cancelled row leave what they leave of the row itself, but perhaps its completion time. */
  lemma WritesHideCancellation(row: Row, w: Work, at: Time)
    requires w.first.Some? ==> w.first.value.completedAt.None?
    ensures Worked(CancelledAt(row, at), w) == Write(CancelledAt(WriteFirst(row, w), at), w.last)
    ensures Worked(CancelledAt(row, at), w) ==
              if w.last.completedAt.Some? then Worked(row, w) else Worked(row, w).(completedAt := Some(at))
  {
  }

  lemma EndIsNoCancellation(row: Row, attempt: Attempt, conflict: bool, maxRetries: int, now: Time)
    requires ToEntity(row).Ok? && WorkOf(ToEntity(row).value, attempt, conflict, maxRetries, now).Ok?
    ensures !WorkOf(ToEntity(row).value, attempt, conflict, maxRetries, now).value.last.status.Cancelled?
  {
  }

  lemma EndingsSetTheTime(row: Row, attempt: Attempt, conflict: bool, maxRetries: int, now: Time)
    requires ToEntity(row).Ok? && WorkOf(ToEntity(row).value, attempt, conflict, maxRetries, now).Ok?
    ensures var w := WorkOf(ToEntity(row).value, attempt, conflict, maxRetries, now).value;
            && (w.first.Some? ==> w.first.value.completedAt.None?)
            && (w.last.completedAt.Some? <==> w.outcome.Acked?)
  {
  }

  /**
   * `update` assigns whatever the row holds. So a cancellation between a worker's load and its first write,
   * or between its two writes, is always lost, and the row it leaves loads exactly when the worker ended the
   * analysis: a retry leaves a running row with a completion time, which the entity refuses.
   */
  lemma InterleavedCancelIsLost(
    row: Row, attempt: Attempt, conflict: bool, maxRetries: int, now: Time, at: Time)
    requires RowOk(row.id, row) && !Terminal(row.status)
    requires ToEntity(row).Ok? && WorkOf(ToEntity(row).value, attempt, conflict, maxRetries, now).Ok?
    ensures CancelRow(map[row.id := row], row.id, at) == Ok(CancelledAt(row, at))
    ensures var w := WorkOf(ToEntity(row).value, attempt, conflict, maxRetries, now).value;
            var left := Worked(CancelledAt(row, at), w);
            && left.status == Worked(row, w).status != Cancelled
            && (w.outcome.Acked? ==> left == Worked(row, w))
            && (ToEntity(left).Ok? <==> w.outcome.Acked?)
            && Write(CancelledAt(WriteFirst(row, w), at), w.last) == left
  {
    CancelsExactlyActiveRows(map[row.id := row], row.id, at);
    var w := WorkOf(ToEntity(row).value, attempt, conflict, maxRetries, now).value;
    EndingsSetTheTime(row, attempt, conflict, maxRetries, now);
    WritesHideCancellation(row, w, at);
    SettlesExactlyOneWay(row, attempt, conflict, maxRetries, now);
    WritesKeepRows(row, attempt, conflict, maxRetries, now);
    LoadsExactly(Worked(CancelledAt(row, at), w));
    EndIsNoCancellation(row, attempt, conflict, maxRetries, now);
  }

  /**
   * A worker requeues a failed job before it commits the failure. Another worker that claims the job in between
   * loads the row as it was, and its own store counts no failure of the first: two failures count as one.
   */
  lemma EarlyClaimHidesFailure(
    row: Row, first: Attempt, second: Attempt, conflict: bool, maxRetries: int, now: Time, later: Time)
    requires RowOk(row.id, row) && !Terminal(row.status) && ToEntity(row).Ok?
    requires var w := WorkOf(ToEntity(row).value, first, conflict, maxRetries, now); w.Ok? && w.value.outcome.Nacked?
    requires WorkOf(ToEntity(row).value, second, conflict, maxRetries, later).Ok?
    ensures var w1 := WorkOf(ToEntity(row).value, first, conflict, maxRetries, now).value;
            var w2 := WorkOf(ToEntity(row).value, second, conflict, maxRetries, later).value;
            && Worked(row, w1).retryCount == row.retryCount + 1
            && Worked(Worked(row, w1), w2).retryCount == row.retryCount + 1
            && Worked(Worked(row, w1), w2).status == Worked(row, w2).status
  {
    SettlesExactlyOneWay(row, first, conflict, maxRetries, now);
    SettlesExactlyOneWay(row, second, conflict, maxRetries, later);
  }

  lemma StoreOverEnded(c: Config, f: Fine, jobId: Id, attempt: Attempt, now: Time)
    requires jobId in f.loaded && WorkerOk(f, jobId) && Terminal(f.base.rows[f.loaded[jobId].id].status)
    ensures var row := f.loaded[jobId];
            && f.base.rows[row.id].status.Cancelled?
            && var work := LoadedWork(c, f.base, row, attempt, now);
            var s' := Storing(c, f, jobId, attempt, now).base;
            && (work.Err? ==> s' == f.base)
            && (work.Ok? ==>
                  && row.id in s'.rows && !s'.rows[row.id].status.Cancelled?
                  && (ToEntity(s'.rows[row.id]).Ok? <==> work.value.outcome.Acked?))
  {
    var row := f.loaded[jobId];
    var found := f.base.rows[row.id];
    LoadsExactly(row);
    assert found == CancelledAt(row, found.completedAt.value);
    var conflict := Conflicts(f.base.rows, found);
    var work := LoadedWork(c, f.base, row, attempt, now);
    if work.Ok? {
      InterleavedCancelIsLost(row, attempt, conflict, c.maxRetries, now, found.completedAt.value);
      assert Storing(c, f, jobId, attempt, now).base.rows[row.id] == Worked(found, work.value);
    }
  }

  /** A worker's store that finds its row ended finds it cancelled, and always undoes the cancellation. */
  lemma StoreUndoesCancellation(c: Config, trace: seq<Fine>, steps: seq<FineStep>, i: nat)
    requires FineRun(c, trace, steps) && i < |steps| && steps[i].StoreStep?
    requires forall k | 0 <= k < i :: FindsActive(trace[k], steps[k])
    requires !FindsActive(trace[i], steps[i])
    ensures var row := trace[i].loaded[steps[i].jobId];
            && trace[i].base.rows[row.id].status.Cancelled?
            && var work := LoadedWork(c, trace[i].base, row, steps[i].attempt, steps[i].now);
            && (work.Err? ==> trace[i + 1].base == trace[i].base)
            && (work.Ok? ==>
                  && row.id in trace[i + 1].base.rows
                  && !trace[i + 1].base.rows[row.id].status.Cancelled?
                  && (ToEntity(trace[i + 1].base.rows[row.id]).Ok? <==> work.value.outcome.Acked?))
  {
    var f, jobId := trace[i], steps[i].jobId;
    FineRunsKeepInv(c, trace, steps, i);
    assert NextFine(c, f, steps[i], trace[i + 1]);
    StoreOverEnded(c, f, jobId, steps[i].attempt, steps[i].now);
  }

  ghost predicate NoneCompleted(rows: map<Id, Row>, t: Triple) {
    forall id :: !CompletedFor(rows, t, id)
  }

  lemma OnlyCompletedRowIsGone(rows: map<Id, Row>, id: Id, at: Time)
    requires UniqueCompleted(rows) && id in rows && rows[id].status.Completed?
    ensures NoneCompleted(rows[id := CancelledAt(rows[id], at)], TripleOf(rows[id]))
  {
    var t := TripleOf(rows[id]);
    var rows' := rows[id := CancelledAt(rows[id], at)];
    assert CompletedFor(rows, t, id);
    forall other ensures !CompletedFor(rows', t, other) {
      assert CompletedFor(rows, t, other) ==> other == id;
    }
  }

  /**
   * A cancellation's store that finds its row ended always cancels it, and the row still loads: a completed
   * analysis is lost, and no later request finds it.
   */
  lemma CancellationOverwritesEnd(c: Config, trace: seq<Fine>, steps: seq<FineStep>, i: nat)
    requires FineRun(c, trace, steps) && i < |steps| && steps[i].StoreCancelStep?
    requires forall k | 0 <= k < i :: FindsActive(trace[k], steps[k])
    requires !FindsActive(trace[i], steps[i])
    ensures var id := trace[i].cancelling[steps[i].req].id;
            var found := trace[i].base.rows[id];
            && trace[i + 1].base == trace[i].base.(rows := trace[i].base.rows[id := CancelledAt(found, steps[i].at)])
            && ToEntity(CancelledAt(found, steps[i].at)).Ok?
            && (found.status.Completed? ==> NoneCompleted(trace[i + 1].base.rows, TripleOf(found)))
  {
    var f, req, at := trace[i], steps[i].req, steps[i].at;
    FineRunsKeepInv(c, trace, steps, i);
    assert NextFine(c, f, steps[i], trace[i + 1]);
    assert CancellerOk(f, req);
    StoreCancelIsCancel(f, req, at);
    var id := f.cancelling[req].id;
    assert RowOk(id, f.base.rows[id]);
    LoadsExactly(CancelledAt(f.base.rows[id], at));
    if f.base.rows[id].status.Completed? {
      OnlyCompletedRowIsGone(f.base.rows, id, at);
    }
  }

  lemma FineRunGrows(c: Config, trace: seq<Fine>, steps: seq<FineStep>, step: FineStep, f: Fine)
    requires FineRun(c, trace, steps) && AllFindActive(trace, steps)
    requires NextFine(c, trace[|steps|], step, f) && FindsActive(trace[|steps|], step)
    ensures FineRun(c, trace + [f], steps + [step]) && AllFindActive(trace + [f], steps + [step])
  {
  }

  /** A run up to a worker that has loaded its pending row. */
  lemma WorkerIsReachable(c: Config, r: Request, version: string) returns (trace: seq<Fine>, steps: seq<FineStep>)
    requires ConfigOk(c) && r.key in c.registry && c.registry[r.key] == version
    requires r.assetId in c.assets && r.publishes
    ensures FineRun(c, trace, steps) && AllFindActive(trace, steps)
    ensures var f, row := trace[|steps|], NewRow(r, version);
            f.loaded == map[r.jobId := row] && f.cancelling == map[] && f.base.rows == map[r.id := row]
            && f.base.claims == map[r.jobId := NewJob(r)]
  {
    var posted := FirstRequest(c, r, version);
    var visible := Committed(posted, r.id);
    var claimed := Claim(visible, NewJob(r));
    NewRowLoadsAsRequested(r, version);
    LoadsExactly(NewRow(r, version));
    trace := [FineInit, FineInit.(base := posted)];
    steps := [Whole(RequestStep(r, Created(r.id)))];
    FineRunGrows(c, trace, steps, Whole(CommitStep(r.id)), FineInit.(base := visible));
    trace, steps := trace + [FineInit.(base := visible)], steps + [Whole(CommitStep(r.id))];
    FineRunGrows(c, trace, steps, Whole(ClaimStep(NewJob(r))), FineInit.(base := claimed));
    trace, steps := trace + [FineInit.(base := claimed)], steps + [Whole(ClaimStep(NewJob(r)))];
    FineRunGrows(c, trace, steps, LoadStep(r.jobId), Loading(FineInit.(base := claimed), r.jobId));
    trace := trace + [Loading(FineInit.(base := claimed), r.jobId)];
    steps := steps + [LoadStep(r.jobId)];
  }

  lemma LoadsToCancel(f: Fine, req: Id, id: Id)
    requires id in f.base.rows && RowOk(id, f.base.rows[id]) && !Terminal(f.base.rows[id].status)
    ensures LoadingCancel(f, req, id) == f.(cancelling := f.cancelling[req := f.base.rows[id]])
  {
    LoadsExactly(f.base.rows[id]);
  }

  /** A worker and a cancellation that both meet their row ended: another cancellation stored after their loads. */
  lemma StaleStoresAreReachable(attempt: Attempt) returns (c: Config, trace: seq<Fine>, steps: seq<FineStep>)
    ensures FineRun(c, trace, steps) && AllFindActive(trace, steps)
    ensures var f := trace[|steps|];
            && Working(f, 2) && !FindsActive(f, StoreStep(2, attempt, 9))
            && Cancels(f, 11) && !FindsActive(f, StoreCancelStep(11, 9))
  {
    c := Config(map["metadata" := "1"], {7}, 3);
    var r := Request(7, "metadata", 5, 1, 2, 0, true, true);
    trace, steps := WorkerIsReachable(c, r, "1");
    NewRowLoadsAsRequested(r, "1");
    var f := trace[|steps|];
    LoadsToCancel(f, 10, 1);
    FineRunGrows(c, trace, steps, LoadCancelStep(10, 1), LoadingCancel(f, 10, 1));
    trace, steps := trace + [LoadingCancel(f, 10, 1)], steps + [LoadCancelStep(10, 1)];
    var f1 := trace[|steps|];
    LoadsToCancel(f1, 11, 1);
    FineRunGrows(c, trace, steps, LoadCancelStep(11, 1), LoadingCancel(f1, 11, 1));
    trace, steps := trace + [LoadingCancel(f1, 11, 1)], steps + [LoadCancelStep(11, 1)];
    var f2 := trace[|steps|];
    StoreCancelIsCancel(f2, 10, 5);
    FineRunGrows(c, trace, steps, StoreCancelStep(10, 5), StoringCancel(f2, 10, 5));
    trace, steps := trace + [StoringCancel(f2, 10, 5)], steps + [StoreCancelStep(10, 5)];
  }
}
