/**
 * The analysis job protocol: service requests, the commits of their sessions, cancellations, the broker
 * queue, workers that claim, run and settle jobs, and workers that stop before they have settled a job or
 * before they have committed what they wrote. State machine over the `analyses` table and the bags of jobs.
 */
module JobProtocol {
  import opened Wrappers
  import opened Strings
  import opened Analyses

  /** A queue message; its payload is the analysis id, None when the message lacks one. */
  datatype Job = Job(id: Id, payload: Option<Id>)

  datatype Config = Config(registry: map<string, string>, assets: set<Id>, maxRetries: int)

  /** The analyzer registry refuses empty keys and versions. */
  predicate ConfigOk(c: Config) {
    forall k | k in c.registry :: k != "" && c.registry[k] != ""
  }

  /**
   * `rows` is the table as committed, `posted` the rows of requests whose sessions are still open, `queued`
   * the broker's messages and `claims` the messages held unacknowledged. The other fields are history:
   * messages acknowledged and published, the rows left in a session by a failed publish whose compensating
   * delete failed too, the job published for each row, and the number of committed failures of each row.
   */
  datatype State = State(
    rows: map<Id, Row>,
    posted: map<Id, Row>,
    queued: multiset<Job>,
    claims: map<Id, Job>,
    acked: multiset<Job>,
    published: multiset<Job>,
    stranded: set<Id>,
    jobOf: map<Id, Job>,
    failures: map<Id, nat>)

  const Init := State(map[], map[], multiset{}, map[], multiset{}, multiset{}, {}, map[], map[])

  // ----- Requests and cancellations (analysis_service.py)

  datatype Triple = Triple(assetId: Id, key: string, version: string)

  function TripleOf(row: Row): Triple {
    Triple(row.assetId, row.analyzerKey, row.analyzerVersion)
  }

  predicate CompletedFor(rows: map<Id, Row>, t: Triple, id: Id) {
    id in rows && rows[id].status.Completed? && TripleOf(rows[id]) == t
  }

  /** The partial unique index `ix_analyses_asset_analyzer_completed`. */
  ghost predicate UniqueCompleted(rows: map<Id, Row>) {
    forall t, id1, id2 | CompletedFor(rows, t, id1) && CompletedFor(rows, t, id2) :: id1 == id2
  }

  /** A request with the identifiers it draws and what the broker and the database do with it. */
  datatype Request = Request(
    assetId: Id, key: string, requestedBy: Id,
    id: Id, jobId: Id, now: Time, publishes: bool, deletes: bool)

  datatype Response = AnalyzerNotFound | AssetNotFound | Existing(id: Id) | Created(id: Id) | PublicationFailed

  function NewAnalysis(r: Request, version: string): Analysis {
    Analysis(r.id, r.assetId, r.requestedBy, r.key, version, Pending, None, 0, None, None, None, None,
             None, None, r.now, None)
  }

  function NewRow(r: Request, version: string): Row {
    ToRow(NewAnalysis(r, version), r.now)
  }

  function NewJob(r: Request): Job {
    Job(r.jobId, Some(r.id))
  }

  /** The identifiers drawn are new. */
  predicate Fresh(s: State, r: Request) {
    && r.id !in s.rows && r.id !in s.posted && r.id !in s.jobOf && r.id !in s.stranded
    && forall id | id in s.jobOf :: s.jobOf[id].id != r.jobId
  }

  /** Creating the row in the request's session and publishing its job; a failed publish deletes the row again. */
  predicate Posts(s: State, r: Request, version: string, s': State, answer: Response) {
    var row := NewRow(r, version);
    if r.publishes then
      && answer == Created(r.id)
      && s' == s.(posted := s.posted[r.id := row],
                  queued := s.queued + multiset{NewJob(r)},
                  published := s.published + multiset{NewJob(r)},
                  jobOf := s.jobOf[r.id := NewJob(r)],
                  failures := s.failures[r.id := 0])
    else
      && answer == PublicationFailed
      && s' == if r.deletes then s
               else s.(posted := s.posted[r.id := row], stranded := s.stranded + {r.id})
  }

  /** What `request_analysis` may answer and leave behind. */
  ghost predicate Requested(c: Config, s: State, r: Request, s': State, answer: Response) {
    if r.key !in c.registry then s' == s && answer == AnalyzerNotFound
    else if r.assetId !in c.assets then s' == s && answer == AssetNotFound
    else
      var t := Triple(r.assetId, r.key, c.registry[r.key]);
      if exists id :: CompletedFor(s.rows, t, id)
      then s' == s && answer.Existing? && CompletedFor(s.rows, t, answer.id)
      else Posts(s, r, c.registry[r.key], s', answer)
  }

  /** The request's session commits: its row becomes visible. */
  function Committed(s: State, id: Id): State
    requires id in s.posted
  {
    s.(rows := s.rows[id := s.posted[id]], posted := s.posted - {id})
  }

  /** The request's session rolls back. */
  function RolledBack(s: State, id: Id): State {
    s.(posted := s.posted - {id})
  }

  function Load(rows: map<Id, Row>, id: Id): Result<Analysis, Error> {
    if id in rows then ToEntity(rows[id]) else Err(Error("NotFound", "Analysis not found"))
  }

  /** `cancel_analysis`: the row it writes, or why it refuses. */
  function CancelRow(rows: map<Id, Row>, id: Id, now: Time): Result<Row, Error> {
    match Load(rows, id)
    case Err(e) => Err(if id in rows then e else Error("AnalysisNotFoundError", e.text))
    case Ok(a) =>
      match Cancel(a, now)
      case Err(_) => Err(Error("InvalidAnalysisStateError", "cannot cancel analysis"))
      case Ok(cancelled) => Ok(Write(rows[id], CancelUpdates(cancelled)))
  }

  function Cancelling(s: State, id: Id, now: Time): State {
    match CancelRow(s.rows, id, now)
    case Err(_) => s
    case Ok(row) => s.(rows := s.rows[id := row])
  }

  // ----- The queue (redis_queue.py)

  /** The messages that are held unacknowledged. */
  function Held(claims: map<Id, Job>): multiset<Job> {
    multiset(claims.Values)
  }

  function Outstanding(s: State): multiset<Job> {
    s.queued + Held(s.claims)
  }

  function Claim(s: State, job: Job): State
    requires job in s.queued
  {
    s.(queued := s.queued - multiset{job}, claims := s.claims[job.id := job])
  }

  function Ack(s: State, jobId: Id): State {
    if jobId !in s.claims then s
    else s.(claims := s.claims - {jobId}, acked := s.acked + multiset{s.claims[jobId]})
  }

  function Nack(s: State, jobId: Id): State {
    if jobId !in s.claims then s
    else s.(claims := s.claims - {jobId}, queued := s.queued + multiset{s.claims[jobId]})
  }

  // ----- The worker (worker.py)

  /** What the analyzer run does: it raises (storage errors and timeouts included) or returns a result. */
  datatype Attempt = Raises(error: Error) | Returns(result: AnalysisResult)

  const AlreadyExists := Error("AlreadyExists", "Entity with this value already exists")
  const NoGetAttribute := Error("AttributeError", "object has no attribute 'get'")

  /** Whether completing `row` would violate the unique index. */
  predicate Conflicts(rows: map<Id, Row>, row: Row) {
    exists other | other in rows :: other != row.id && CompletedFor(rows, TripleOf(row), other)
  }

  /** The guarded part of `process_once` from the analyzer's return on: the last update, or an exception. */
  function Conclude(running: Analysis, attempt: Attempt, conflict: bool, now: Time): Result<Updates, Error> {
    match attempt
    case Raises(e) => Err(e)
    case Returns(result) =>
      if Lower(result.verdict) == "failed" then
        if !result.evidence.Object? then Err(NoGetAttribute)
        else
          match Fail(running, ResultErrorMessage(result), "ANALYZER_FAILED", now)
          case Err(e) => Err(e)
          case Ok(failed) => Ok(FailedResultUpdates(failed, result))
      else
        match Complete(running, result, now)
        case Err(e) => Err(e)
        case Ok(completed) => if conflict then Err(AlreadyExists) else Ok(CompletedUpdates(completed, result))
  }

  /** `_handle_failure` for a loaded analysis: it may itself raise. */
  datatype Handling = Retry(updates: Updates) | GiveUp(updates: Updates) | Propagate(error: Error)

  function HandleFailure(loaded: Analysis, e: Error, maxRetries: int, now: Time): Handling {
    var next := loaded.retryCount + 1;
    if next <= maxRetries then Retry(RetryUpdates(next, e, now))
    else
      match Fail(loaded, e.text, e.kind, now)
      case Err(raised) => Propagate(raised)
      case Ok(failed) => GiveUp(GiveUpUpdates(failed, next))
  }

  /** How a worked job ends. */
  datatype Outcome = Acked | Nacked

  /**
   * The updates that `process_once` writes for a loaded, active analysis, in order, and how the job ends. An
   * error in place of them is an exception out of `process_once`, whose session is then not committed.
   */
  datatype Work = Work(first: Option<Updates>, last: Updates, outcome: Outcome, failed: bool)

  function Running(loaded: Analysis, now: Time): Result<Analysis, Error> {
    if loaded.status.Pending? then Start(loaded, now) else Ok(loaded)
  }

  function FirstUpdates(loaded: Analysis, now: Time): Option<Updates> {
    if loaded.status.Pending? && Start(loaded, now).Ok? then Some(StartUpdates(Start(loaded, now).value)) else None
  }

  function EndOf(loaded: Analysis, attempt: Attempt, conflict: bool, now: Time): Result<Updates, Error> {
    var running := Running(loaded, now);
    if running.Err? then Err(running.error) else Conclude(running.value, attempt, conflict, now)
  }

  function WorkOf(loaded: Analysis, attempt: Attempt, conflict: bool, maxRetries: int, now: Time): Result<Work, Error> {
    var first := FirstUpdates(loaded, now);
    match EndOf(loaded, attempt, conflict, now)
    case Ok(u) => Ok(Work(first, u, Acked, false))
    case Err(e) =>
      match HandleFailure(loaded, e, maxRetries, now)
      case Retry(u) => Ok(Work(first, u, Nacked, true))
      case GiveUp(u) => Ok(Work(first, u, Acked, true))
      case Propagate(raised) => Err(raised)
  }

  function WriteMaybe(row: Row, u: Option<Updates>): Row {
    if u.Some? then Write(row, u.value) else row
  }

  function WriteFirst(row: Row, w: Work): Row {
    WriteMaybe(row, w.first)
  }

  /** Where a worker process may stop: before it settles the job with the broker, or before the commit after that. */
  datatype CrashPoint = BeforeSettle | BeforeCommit

  /** The analysis a claimed job is to work on: None when there is nothing to do but acknowledge. */
  function Target(s: State, jobId: Id): Option<Analysis>
    requires jobId in s.claims
  {
    var payload := s.claims[jobId].payload;
    if payload.None? then None
    else
      match Load(s.rows, payload.value)
      case Err(_) => None
      case Ok(a) => if Terminal(a.status) then None else Some(a)
  }

  function TargetWork(c: Config, s: State, jobId: Id, attempt: Attempt, now: Time): Result<Work, Error>
    requires jobId in s.claims && Target(s, jobId).Some?
  {
    var a := Target(s, jobId).value;
    WorkOf(a, attempt, Conflicts(s.rows, s.rows[s.claims[jobId].payload.value]), c.maxRetries, now)
  }

  /** The state once both updates are committed. */
  function Stored(s: State, id: Id, w: Work): State
    requires id in s.rows
  {
    var count := if id in s.failures then s.failures[id] else 0;
    s.(rows := s.rows[id := Write(WriteFirst(s.rows[id], w), w.last)],
       failures := if w.failed then s.failures[id := count + 1] else s.failures)
  }

  /** How the broker is answered. */
  function Released(s: State, jobId: Id, outcome: Outcome): State {
    if outcome.Acked? then Ack(s, jobId) else Nack(s, jobId)
  }

  function Finished(s: State, jobId: Id, id: Id, w: Work): State
    requires id in s.rows
  {
    Released(Stored(s, id, w), jobId, w.outcome)
  }

  /**
   * `process_once` from the load on, and the commit of its session, which follows the acknowledgement; when it
   * raises, the session is not committed.
   */
  function Settle(c: Config, s: State, jobId: Id, attempt: Attempt, now: Time): State
    requires jobId in s.claims
  {
    if Target(s, jobId).None? then Ack(s, jobId)
    else
      match TargetWork(c, s, jobId, attempt, now)
      case Err(_) => s
      case Ok(w) => Finished(s, jobId, s.claims[jobId].payload.value, w)
  }

  /** How a job is settled with the broker: None when `process_once` raises before it is. */
  function OutcomeOf(c: Config, s: State, jobId: Id, attempt: Attempt, now: Time): Option<Outcome>
    requires jobId in s.claims
  {
    if Target(s, jobId).None? then Some(Acked)
    else
      match TargetWork(c, s, jobId, attempt, now)
      case Err(_) => None
      case Ok(w) => Some(w.outcome)
  }

  /**
   * A worker that stops: its session is lost. Before it has settled the job the broker delivers the message
   * again; after that, and before the commit, the job stays settled.
   */
  function Crash(c: Config, s: State, jobId: Id, point: CrashPoint, attempt: Attempt, now: Time): State
    requires jobId in s.claims
  {
    var outcome := OutcomeOf(c, s, jobId, attempt, now);
    if point.BeforeSettle? || outcome.None? then Nack(s, jobId) else Released(s, jobId, outcome.value)
  }

  // ----- Runs

  datatype Step =
    | RequestStep(request: Request, answer: Response)
    | CommitStep(committed: Id)
    | RollbackStep(abandoned: Id)
    | CancelStep(id: Id, at: Time)
    | ClaimStep(job: Job)
    | SettleStep(jobId: Id, attempt: Attempt, now: Time)
    | CrashStep(crashed: Id, point: CrashPoint, tried: Attempt, when: Time)
    | IdleStep

  ghost predicate Next(c: Config, s: State, step: Step, s': State) {
    match step
    case RequestStep(r, answer) => Fresh(s, r) && Requested(c, s, r, s', answer)
    case CommitStep(id) => id in s.posted && s' == Committed(s, id)
    case RollbackStep(id) => id in s.posted && s' == RolledBack(s, id)
    case CancelStep(id, now) => s' == Cancelling(s, id, now)
    case ClaimStep(job) => job in s.queued && s' == Claim(s, job)
    case SettleStep(jobId, attempt, now) => jobId in s.claims && s' == Settle(c, s, jobId, attempt, now)
    case CrashStep(jobId, point, attempt, now) => jobId in s.claims && s' == Crash(c, s, jobId, point, attempt, now)
    case IdleStep => s' == s
  }

  ghost predicate Run(c: Config, trace: seq<State>, steps: seq<Step>) {
    && ConfigOk(c)
    && |trace| == |steps| + 1
    && trace[0] == Init
    && forall i | 0 <= i < |steps| :: Next(c, trace[i], steps[i], trace[i + 1])
  }
}
