/**
 * The analysis entity, its lifecycle, the `analyses` table row and the mapping between the two,
 * and the dictionaries of column updates that the worker writes.
 */
module Analyses {
  import opened Wrappers
  import opened Strings

  type Id = nat
  type Time = int

  datatype Status = Pending | Running | Completed | Failed | Cancelled

  predicate Terminal(s: Status) {
    s.Completed? || s.Failed? || s.Cancelled?
  }

  datatype Json =
    | Null
    | Text(text: string)
    | Number(number: real)
    | Array(items: seq<Json>)
    | Object(fields: map<string, Json>)

  /** An exception: its class name and its `str`. */
  datatype Error = Error(kind: string, text: string)

  function StateError(text: string): Error {
    Error("AnalysisStateError", text)
  }

  datatype ResultFields = ResultFields(verdict: string, evidence: Json, confidence: real, recommendation: string)

  predicate ResultValid(r: ResultFields) {
    r.verdict != "" && r.evidence != Null && 0.0 <= r.confidence <= 1.0 && r.recommendation != ""
  }

  /** A constructed result: its constructor rejects every other combination of fields. */
  type AnalysisResult = r: ResultFields | ResultValid(r)
    witness ResultFields("unknown", Object(map[]), 0.0, "none")

  datatype Analysis = Analysis(
    id: Id,
    assetId: Id,
    requestedBy: Id,
    analyzerKey: string,
    analyzerVersion: string,
    status: Status,
    result: Option<AnalysisResult>,
    retryCount: int,
    errorMessage: Option<string>,
    errorCode: Option<string>,
    confidence: Option<real>,
    severity: Option<string>,
    startedAt: Option<Time>,
    completedAt: Option<Time>,
    createdAt: Time,
    updatedAt: Option<Time>)

  predicate NonEmpty(o: Option<string>) {
    o.Some? && o.value != ""
  }

  predicate Valid(a: Analysis) {
    && a.analyzerKey != "" && a.analyzerVersion != ""
    && a.retryCount >= 0
    && (a.status.Completed? ==> a.result.Some?)
    && (a.status.Failed? ==> NonEmpty(a.errorMessage))
    && (Terminal(a.status) <==> a.completedAt.Some?)
  }

  /** Construction, which runs `validate`; every transition goes through it. */
  function Construct(a: Analysis): Result<Analysis, Error> {
    if Valid(a) then Ok(a) else Err(StateError("invalid analysis"))
  }

  function Start(a: Analysis, now: Time): Result<Analysis, Error> {
    if !a.status.Pending? then Err(StateError("cannot start analysis"))
    else Construct(a.(status := Running, startedAt := Some(now), updatedAt := Some(now)))
  }

  function Complete(a: Analysis, result: AnalysisResult, now: Time): Result<Analysis, Error> {
    if !a.status.Running? then Err(StateError("cannot complete analysis"))
    else Construct(a.(status := Completed, result := Some(result), completedAt := Some(now), updatedAt := Some(now)))
  }

  function Fail(a: Analysis, message: string, code: string, now: Time): Result<Analysis, Error> {
    if !a.status.Running? then Err(StateError("cannot fail analysis"))
    else if message == "" then Err(StateError("error_message is required"))
    else Construct(a.(status := Failed, errorMessage := Some(message), errorCode := Some(code),
                      completedAt := Some(now), updatedAt := Some(now)))
  }

  function Cancel(a: Analysis, now: Time): Result<Analysis, Error> {
    if !(a.status.Pending? || a.status.Running?) then Err(StateError("cannot cancel analysis"))
    else Construct(a.(status := Cancelled, completedAt := Some(now), updatedAt := Some(now)))
  }

  /** The `reasoning_payload` and `enrichment_data` columns. */
  datatype Payload = Payload(verdict: Option<string>, evidence: Option<Json>, recommendation: Option<string>)

  const NoPayload := Payload(None, None, None)

  datatype Row = Row(
    id: Id,
    assetId: Id,
    requestedBy: Id,
    analyzerKey: string,
    analyzerVersion: string,
    status: Status,
    retryCount: int,
    errorMessage: Option<string>,
    errorCode: Option<string>,
    confidence: Option<real>,
    severity: Option<string>,
    reasoning: Option<Payload>,
    enrichment: Option<Payload>,
    startedAt: Option<Time>,
    completedAt: Option<Time>,
    createdAt: Time,
    updatedAt: Option<Time>)

  /** `_to_orm`; the creation time is the server's. */
  function ToRow(a: Analysis, now: Time): Row {
    Row(a.id, a.assetId, a.requestedBy, a.analyzerKey, a.analyzerVersion, a.status, a.retryCount,
        a.errorMessage, a.errorCode, a.confidence, a.severity, None, None, a.startedAt, a.completedAt, now, None)
  }

  function PayloadOr(p: Option<Payload>): Payload {
    if p.Some? then p.value else NoPayload
  }

  /** Python's `first or second or third or last` over optional strings. */
  function FirstNonEmpty(first: Option<string>, second: Option<string>, third: Option<string>, last: string): string {
    if NonEmpty(first) then first.value
    else if NonEmpty(second) then second.value
    else if NonEmpty(third) then third.value
    else last
  }

  function PayloadJson(p: Payload): Json {
    var m: map<string, Json> := map[];
    var m := if p.verdict.Some? then m["verdict" := Text(p.verdict.value)] else m;
    var m := if p.evidence.Some? then m["evidence" := p.evidence.value] else m;
    Object(if p.recommendation.Some? then m["recommendation" := Text(p.recommendation.value)] else m)
  }

  function LoadedFields(row: Row): ResultFields {
    var reasoning := PayloadOr(row.reasoning);
    var enrichment := PayloadOr(row.enrichment);
    ResultFields(
      FirstNonEmpty(reasoning.verdict, enrichment.verdict, row.severity, "unknown"),
      if reasoning.evidence.Some? then reasoning.evidence.value else PayloadJson(enrichment),
      if row.confidence.Some? then row.confidence.value else 0.0,
      FirstNonEmpty(reasoning.recommendation, enrichment.recommendation, None, "Review the analysis evidence"))
  }

  /** `_to_domain`. */
  function ToEntity(row: Row): Result<Analysis, Error> {
    if row.status.Completed? && !ResultValid(LoadedFields(row)) then Err(StateError("invalid result"))
    else
      var result: Option<AnalysisResult> := if row.status.Completed? then Some(LoadedFields(row)) else None;
      var completedAt :=
        if Terminal(row.status) && row.completedAt.None?
        then Some(if row.updatedAt.Some? then row.updatedAt.value else row.createdAt)
        else row.completedAt;
      var errorMessage :=
        if row.status.Failed? && !NonEmpty(row.errorMessage) then Some("Analysis failed") else row.errorMessage;
      Construct(Analysis(row.id, row.assetId, row.requestedBy, row.analyzerKey, row.analyzerVersion, row.status,
                         result, row.retryCount, errorMessage, row.errorCode, row.confidence, row.severity,
                         row.startedAt, completedAt, row.createdAt, row.updatedAt))
  }

  /** A dictionary of column updates; a field that is None here is a key the dictionary lacks. */
  datatype Updates = Updates(
    status: Status,
    updatedAt: Option<Time>,
    startedAt: Option<Option<Time>> := None,
    completedAt: Option<Option<Time>> := None,
    retryCount: Option<int> := None,
    errorMessage: Option<Option<string>> := None,
    errorCode: Option<Option<string>> := None,
    confidence: Option<real> := None,
    severity: Option<Option<string>> := None,
    reasoning: Option<Payload> := None)

  function Or<T>(update: Option<T>, current: T): T {
    if update.Some? then update.value else current
  }

  /** `update`: assigns the keys of the dictionary whatever the row now holds. */
  function Write(row: Row, u: Updates): Row {
    row.(status := u.status, updatedAt := u.updatedAt,
         startedAt := Or(u.startedAt, row.startedAt),
         completedAt := Or(u.completedAt, row.completedAt),
         retryCount := Or(u.retryCount, row.retryCount),
         errorMessage := Or(u.errorMessage, row.errorMessage),
         errorCode := Or(u.errorCode, row.errorCode),
         confidence := if u.confidence.Some? then u.confidence else row.confidence,
         severity := Or(u.severity, row.severity),
         reasoning := if u.reasoning.Some? then u.reasoning else row.reasoning)
  }

  function StartUpdates(running: Analysis): Updates {
    Updates(running.status, running.updatedAt, startedAt := Some(running.startedAt))
  }

  function CancelUpdates(cancelled: Analysis): Updates {
    Updates(cancelled.status, cancelled.updatedAt, completedAt := Some(cancelled.completedAt))
  }

  function RetryUpdates(nextRetry: int, e: Error, now: Time): Updates {
    Updates(Running, Some(now), retryCount := Some(nextRetry),
            errorMessage := Some(Some(e.text)), errorCode := Some(Some(e.kind)))
  }

  function GiveUpUpdates(failed: Analysis, nextRetry: int): Updates {
    Updates(failed.status, failed.updatedAt, completedAt := Some(failed.completedAt),
            retryCount := Some(nextRetry),
            errorMessage := Some(failed.errorMessage), errorCode := Some(failed.errorCode))
  }

  function ResultErrorMessage(result: AnalysisResult): string
    requires result.evidence.Object?
  {
    var fields := result.evidence.fields;
    if "error" in fields && fields["error"].Text? && fields["error"].text != "" then fields["error"].text
    else result.recommendation
  }

  function FailedResultUpdates(failed: Analysis, result: AnalysisResult): Updates
    requires result.evidence.Object?
  {
    Updates(failed.status, failed.updatedAt, completedAt := Some(failed.completedAt),
            confidence := Some(result.confidence), severity := Some(None),
            reasoning := Some(Payload(Some(result.verdict), Some(result.evidence), Some(result.recommendation))),
            errorMessage := Some(Some(ResultErrorMessage(result))), errorCode := Some(Some("ANALYZER_FAILED")))
  }

  predicate IsSeverity(verdict: string) {
    verdict in {"LOW", "MEDIUM", "HIGH", "CRITICAL"}
  }

  function CompletedUpdates(completed: Analysis, result: AnalysisResult): Updates {
    var verdict := Upper(result.verdict);
    Updates(completed.status, completed.updatedAt, completedAt := Some(completed.completedAt),
            confidence := Some(result.confidence),
            severity := Some(if IsSeverity(verdict) then Some(verdict) else None),
            reasoning := Some(Payload(Some(verdict), Some(result.evidence), Some(result.recommendation))))
  }

  // ----- What loading a row guarantees

  /** Exactly the rows that load: every other defect is repaired by the mapping's defaults. */
  predicate Loads(row: Row) {
    && row.analyzerKey != "" && row.analyzerVersion != ""
    && row.retryCount >= 0
    && (!Terminal(row.status) ==> row.completedAt.None?)
    && (row.status.Completed? ==>
          && (row.confidence.Some? ==> 0.0 <= row.confidence.value <= 1.0)
          && (row.reasoning.Some? ==> row.reasoning.value.evidence != Some(Null)))
  }

  lemma LoadsExactly(row: Row)
    ensures ToEntity(row).Ok? <==> Loads(row)
    ensures Loads(row) ==>
              var a := ToEntity(row).value;
              && Valid(a) && a.id == row.id && a.status == row.status && a.retryCount == row.retryCount
              && a.assetId == row.assetId
              && a.analyzerKey == row.analyzerKey && a.analyzerVersion == row.analyzerVersion
  {
  }

  /** A new analysis loads back from its row as it was, created when the server says. */
  lemma NewAnalysisLoadsBack(a: Analysis, now: Time)
    requires Valid(a) && a.status.Pending? && a.result.None? && a.updatedAt.None?
    ensures ToEntity(ToRow(a, now)) == Ok(a.(createdAt := now))
  {
    LoadsExactly(ToRow(a, now));
  }

  /** A completed row loads back as the analyzer's result with its verdict in upper case. */
  lemma CompletedRowKeepsResult(row: Row, running: Analysis, result: AnalysisResult, now: Time)
    requires ToEntity(row) == Ok(running) && running.status.Running?
    ensures Complete(running, result, now).Ok?
    ensures var stored := Write(row, CompletedUpdates(Complete(running, result, now).value, result));
            && ToEntity(stored).Ok?
            && ToEntity(stored).value.status == Completed
            && ToEntity(stored).value.completedAt == Some(now)
            && ToEntity(stored).value.result ==
                 Some(result.(verdict := Upper(result.verdict)))
            && stored.severity ==
                 if IsSeverity(Upper(result.verdict)) then Some(Upper(result.verdict)) else None
  {
    LoadsExactly(row);
  }

  /** The lifecycle graph: which transitions succeed from which states, and what each one records. */
  lemma Lifecycle(a: Analysis, result: AnalysisResult, message: string, code: string, now: Time)
    requires Valid(a)
    ensures Start(a, now).Ok? <==> a.status == Pending
    ensures Complete(a, result, now).Ok? <==> a.status == Running
    ensures Fail(a, message, code, now).Ok? <==> a.status == Running && message != ""
    ensures Cancel(a, now).Ok? <==> !Terminal(a.status)
    ensures Start(a, now).Ok? ==>
              var b := Start(a, now).value;
              b.status == Running && b.startedAt == Some(now) && b.completedAt == None
    ensures Complete(a, result, now).Ok? ==>
              var b := Complete(a, result, now).value;
              b.status == Completed && b.result == Some(result) && b.completedAt == Some(now)
    ensures Fail(a, message, code, now).Ok? ==>
              var b := Fail(a, message, code, now).value;
              && b.status == Failed && b.errorMessage == Some(message) && b.errorCode == Some(code)
              && b.completedAt == Some(now)
    ensures Cancel(a, now).Ok? ==>
              var b := Cancel(a, now).value;
              b.status == Cancelled && b.completedAt == Some(now) && b.result == a.result
    ensures forall b | Ok(b) in {Start(a, now), Complete(a, result, now), Fail(a, message, code, now),
                                 Cancel(a, now)} ::
              && Valid(b) && b.id == a.id && b.retryCount == a.retryCount && b.createdAt == a.createdAt
              && b.updatedAt == Some(now)
  {
  }
}
