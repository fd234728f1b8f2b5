/** What every run of the analysis job protocol keeps. */
module JobTheorems {
  import opened Wrappers
  import opened Strings
  import opened Analyses
  import opened JobProtocol

  predicate RowOk(id: Id, row: Row) {
    row.id == id && Loads(row) && (row.retryCount > 0 ==> !row.status.Pending?)
  }

  predicate RowsOk(s: State) {
    forall id | id in s.rows :: RowOk(id, s.rows[id])
  }

  predicate PostedOk(s: State) {
    forall id | id in s.posted :: id !in s.rows && RowOk(id, s.posted[id]) && s.posted[id].status.Pending?
  }

  ghost predicate JobsKnown(s: State) {
    && (forall id | id in s.rows || id in s.posted :: id in s.jobOf || id in s.stranded)
    && (forall id | id in s.stranded :: id !in s.jobOf)
    && (forall id | id in s.jobOf :: s.jobOf[id].payload == Some(id))
    && (forall id1, id2 | id1 in s.jobOf && id2 in s.jobOf && s.jobOf[id1].id == s.jobOf[id2].id :: id1 == id2)
  }

  predicate PublishedOnce(s: State, job: Job) {
    job.payload.Some? && job.payload.value in s.jobOf && s.jobOf[job.payload.value] == job
  }

  ghost predicate Conserved(s: State) {
    && (forall job: Job :: s.published[job] == if PublishedOnce(s, job) then 1 else 0)
    && s.published == s.queued + Held(s.claims) + s.acked
    && (forall k | k in s.claims :: s.claims[k].id == k)
  }

  ghost predicate Inv(s: State) {
    RowsOk(s) && PostedOk(s) && UniqueCompleted(s.rows) && JobsKnown(s) && Conserved(s)
  }

  /** What the proofs about rows alone need of the invariant. */
  predicate Sane(s: State) {
    RowsOk(s) && PostedOk(s) && forall k | k in s.claims :: PublishedOnce(s, s.claims[k])
  }

  // ----- One settlement

  predicate AttemptFails(row: Row, attempt: Attempt, conflict: bool) {
    match attempt
    case Raises(_) => true
    case Returns(result) => if Lower(result.verdict) == "failed" then !result.evidence.Object? else conflict
  }

  predicate RaisesEmpty(attempt: Attempt) {
    attempt.Raises? && attempt.error.text == ""
  }

  /**
   * `process_once` on an active row does exactly one of three things: it ends the row and acknowledges,
   * it leaves the row running with one more retry and requeues, or it raises. It raises exactly when the
   * retries are used up and the row was still pending or the error has no text.
   */
  lemma SettlesExactlyOneWay(row: Row, attempt: Attempt, conflict: bool, maxRetries: int, now: Time)
    requires RowOk(row.id, row) && !Terminal(row.status)
    ensures ToEntity(row).Ok?
    ensures var w := WorkOf(ToEntity(row).value, attempt, conflict, maxRetries, now);
            && (w.Err? <==> && AttemptFails(row, attempt, conflict)
                            && row.retryCount >= maxRetries
                            && (row.status.Pending? || RaisesEmpty(attempt)))
            && (w.Ok? ==>
                  var after := Write(WriteFirst(row, w.value), w.value.last);
                  && (w.value.failed <==> AttemptFails(row, attempt, conflict))
                  && after.retryCount == row.retryCount + (if w.value.failed then 1 else 0)
                  && (w.value.outcome.Nacked? <==> w.value.failed && row.retryCount < maxRetries)
                  && (w.value.outcome.Nacked? ==> after.status.Running?)
                  && (w.value.outcome.Acked? ==> Terminal(after.status) && after.completedAt == Some(now))
                  && after.updatedAt == Some(now)
                  && (after.status.Completed? <==>
                        attempt.Returns? && !w.value.failed && Lower(attempt.result.verdict) != "failed")
                  && (after.status.Completed? ==> !conflict))
  {
    LoadsExactly(row);
  }

  /** Both writes keep the row loadable and its identity. */
  lemma WritesKeepRows(row: Row, attempt: Attempt, conflict: bool, maxRetries: int, now: Time)
    requires RowOk(row.id, row) && !Terminal(row.status)
    requires ToEntity(row).Ok?
    requires WorkOf(ToEntity(row).value, attempt, conflict, maxRetries, now).Ok?
    ensures var w := WorkOf(ToEntity(row).value, attempt, conflict, maxRetries, now).value;
            var first := WriteFirst(row, w);
            var after := Write(first, w.last);
            && RowOk(row.id, first) && TripleOf(first) == TripleOf(row)
            && first.status.Running? && first.retryCount == row.retryCount
            && RowOk(row.id, after) && TripleOf(after) == TripleOf(row)
            && after.createdAt == row.createdAt && after.requestedBy == row.requestedBy
  {
    LoadsExactly(row);
  }

  /** A row whose attempt raises records the text and class of the error. */
  lemma ErrorsAreRecorded(row: Row, e: Error, conflict: bool, maxRetries: int, now: Time)
    requires RowOk(row.id, row) && !Terminal(row.status)
    requires ToEntity(row).Ok?
    requires WorkOf(ToEntity(row).value, Raises(e), conflict, maxRetries, now).Ok?
    ensures var w := WorkOf(ToEntity(row).value, Raises(e), conflict, maxRetries, now).value;
            var after := Write(WriteFirst(row, w), w.last);
            && after.errorMessage == Some(e.text) && after.errorCode == Some(e.kind)
            && after.startedAt == if row.status.Pending? then Some(now) else row.startedAt
  {
    LoadsExactly(row);
  }

  /**
   * A row whose analyzer answers records a failed result with its payload, a message and a code; completed, it
   * keeps the message of an earlier retry.
   */
  lemma AnswersAreRecorded(row: Row, result: AnalysisResult, conflict: bool, maxRetries: int, now: Time)
    requires RowOk(row.id, row) && !Terminal(row.status)
    requires ToEntity(row).Ok?
    requires WorkOf(ToEntity(row).value, Returns(result), conflict, maxRetries, now).Ok?
    ensures var w := WorkOf(ToEntity(row).value, Returns(result), conflict, maxRetries, now).value;
            var after := Write(WriteFirst(row, w), w.last);
            && (Lower(result.verdict) == "failed" && result.evidence.Object? ==>
                  && after.status.Failed? && w.outcome.Acked?
                  && NonEmpty(after.errorMessage) && after.errorCode == Some("ANALYZER_FAILED")
                  && after.confidence == Some(result.confidence)
                  && after.reasoning == Some(Payload(Some(result.verdict), Some(result.evidence),
                                                     Some(result.recommendation))))
            && (after.status.Completed? ==>
                  after.errorMessage == row.errorMessage && after.errorCode == row.errorCode)
            && after.startedAt == if row.status.Pending? then Some(now) else row.startedAt
  {
    LoadsExactly(row);
  }

  /** A cancellation succeeds exactly on loadable active rows, and changes their status and times only. */
  lemma CancelsExactlyActiveRows(rows: map<Id, Row>, id: Id, now: Time)
    ensures CancelRow(rows, id, now).Ok? <==> id in rows && Loads(rows[id]) && !Terminal(rows[id].status)
    ensures CancelRow(rows, id, now).Ok? ==>
              CancelRow(rows, id, now).value ==
                rows[id].(status := Cancelled, completedAt := Some(now), updatedAt := Some(now))
  {
    if id in rows {
      LoadsExactly(rows[id]);
    }
  }

  // ----- Claimed jobs

  /** The row of a claimed job, which need not be visible. */
  function ClaimedRow(s: State, jobId: Id): Id
    requires jobId in s.claims && PublishedOnce(s, s.claims[jobId])
  {
    s.claims[jobId].payload.value
  }

  lemma HeldAfterClaim(claims: map<Id, Job>, job: Job)
    requires job.id !in claims
    requires forall k | k in claims :: claims[k].id == k
    ensures Held(claims[job.id := job]) == Held(claims) + multiset{job}
  {
    assert claims[job.id := job].Values == claims.Values + {job} by {
      assert forall k | k in claims :: claims[job.id := job][k] == claims[k];
      assert claims[job.id := job][job.id] == job;
      forall j | j in claims.Values ensures j in claims[job.id := job].Values {
        var k :| k in claims && claims[k] == j;
        assert k in claims[job.id := job];
      }
    }
    assert job !in claims.Values;
  }

  lemma HeldAfterRelease(claims: map<Id, Job>, jobId: Id)
    requires jobId in claims
    requires forall k | k in claims :: claims[k].id == k
    ensures Held(claims) == Held(claims - {jobId}) + multiset{claims[jobId]}
  {
    var rest := claims - {jobId};
    assert rest[jobId := claims[jobId]] == claims;
    HeldAfterClaim(rest, claims[jobId]);
  }

  /** A claimed job is outstanding once, and it is its row's own job. */
  lemma ClaimedJobIsKnown(s: State, jobId: Id)
    requires Conserved(s) && jobId in s.claims
    ensures PublishedOnce(s, s.claims[jobId])
    ensures s.queued[s.claims[jobId]] == 0 && s.acked[s.claims[jobId]] == 0
  {
    var job := s.claims[jobId];
    assert job in s.claims.Values;
    assert Held(s.claims)[job] == 1;
    assert s.published[job] >= 1;
  }

  lemma InvIsSane(s: State)
    requires Inv(s)
    ensures Sane(s)
  {
    forall k | k in s.claims ensures PublishedOnce(s, s.claims[k]) {
      ClaimedJobIsKnown(s, k);
    }
  }

  lemma QueuedJobIsKnown(s: State, job: Job)
    requires JobsKnown(s) && Conserved(s) && job in s.queued
    ensures PublishedOnce(s, job)
    ensures job.id !in s.claims
  {
    assert s.published[job] >= 1;
    if job.id in s.claims {
      ClaimedJobIsKnown(s, job.id);
    }
  }

  // ----- Requests and commits keep the invariant

  lemma InitInv()
    ensures Inv(Init)
  {
  }

  /** A request's row loads as the pending analysis that was asked for. */
  lemma NewRowLoadsAsRequested(r: Request, version: string)
    requires r.key != "" && version != ""
    ensures var row := NewRow(r, version);
            && RowOk(r.id, row) && TripleOf(row) == Triple(r.assetId, r.key, version)
            && ToEntity(row).Ok?
            && var a := ToEntity(row).value;
            && a.id == r.id && a.assetId == r.assetId && a.requestedBy == r.requestedBy
            && a.analyzerKey == r.key && a.analyzerVersion == version
            && a.status == Pending && a.result == None && a.retryCount == 0 && a.createdAt == r.now
  {
    NewAnalysisLoadsBack(NewAnalysis(r, version), r.now);
  }

  lemma NewJobIsUnknown(s: State, r: Request)
    requires Fresh(s, r)
    ensures !PublishedOnce(s, NewJob(r))
  {
  }

  lemma PublishKeepsCount(s: State, r: Request, s': State, job: Job)
    requires Fresh(s, r) && s'.jobOf == s.jobOf[r.id := NewJob(r)]
    requires s'.published == s.published + multiset{NewJob(r)}
    requires s.published[job] == if PublishedOnce(s, job) then 1 else 0
    ensures s'.published[job] == if PublishedOnce(s', job) then 1 else 0
  {
    if job == NewJob(r) {
      NewJobIsUnknown(s, r);
    } else {
      assert s'.published[job] == s.published[job];
    }
  }

  lemma PublishKeepsConserved(s: State, r: Request, s': State)
    requires Conserved(s) && Fresh(s, r)
    requires s'.queued == s.queued + multiset{NewJob(r)} && s'.published == s.published + multiset{NewJob(r)}
    requires s'.claims == s.claims && s'.acked == s.acked && s'.jobOf == s.jobOf[r.id := NewJob(r)]
    ensures Conserved(s')
    ensures NewJob(r) !in s.acked
  {
    forall job: Job ensures s'.published[job] == if PublishedOnce(s', job) then 1 else 0 {
      PublishKeepsCount(s, r, s', job);
    }
    NewJobIsUnknown(s, r);
    assert s.published[NewJob(r)] == 0;
  }

  lemma NewJobKeepsKnown(s: State, r: Request, s': State)
    requires JobsKnown(s) && Fresh(s, r)
    requires s'.rows == s.rows && s'.posted.Keys == s.posted.Keys + {r.id} && s'.stranded == s.stranded
    requires s'.jobOf == s.jobOf[r.id := NewJob(r)]
    ensures JobsKnown(s')
  {
  }

  lemma SameJobsStayConserved(s: State, s': State)
    requires Conserved(s)
    requires s'.queued == s.queued && s'.published == s.published && s'.claims == s.claims
    requires s'.acked == s.acked && s'.jobOf == s.jobOf
    ensures Conserved(s')
  {
    assert forall job: Job :: PublishedOnce(s', job) == PublishedOnce(s, job);
  }

  lemma PostingKeepsRows(s: State, r: Request, row: Row, s': State)
    requires RowsOk(s) && PostedOk(s) && r.id !in s.rows && RowOk(r.id, row) && row.status.Pending?
    requires s'.rows == s.rows && s'.posted == s.posted[r.id := row]
    ensures RowsOk(s') && PostedOk(s')
  {
  }

  lemma StrandingKeepsKnown(s: State, r: Request, s': State)
    requires JobsKnown(s) && Fresh(s, r)
    requires s'.rows == s.rows && s'.posted.Keys == s.posted.Keys + {r.id} && s'.jobOf == s.jobOf
    requires s'.stranded == s.stranded + {r.id}
    ensures JobsKnown(s')
  {
  }

  lemma PublishedRowKeepsInv(s: State, r: Request, row: Row, s': State)
    requires Inv(s) && Fresh(s, r) && RowOk(r.id, row) && row.status.Pending?
    requires s' == s.(posted := s.posted[r.id := row], queued := s.queued + multiset{NewJob(r)},
                      published := s.published + multiset{NewJob(r)},
                      jobOf := s.jobOf[r.id := NewJob(r)], failures := s.failures[r.id := 0])
    ensures Inv(s')
  {
    PostingKeepsRows(s, r, row, s');
    PublishKeepsConserved(s, r, s');
    NewJobKeepsKnown(s, r, s');
  }

  lemma StrandedRowKeepsInv(s: State, r: Request, row: Row, s': State)
    requires Inv(s) && Fresh(s, r) && RowOk(r.id, row) && row.status.Pending?
    requires s' == s.(posted := s.posted[r.id := row], stranded := s.stranded + {r.id})
    ensures Inv(s')
  {
    PostingKeepsRows(s, r, row, s');
    SameJobsStayConserved(s, s');
    StrandingKeepsKnown(s, r, s');
  }

  lemma RequestKeepsInv(c: Config, s: State, r: Request, s': State, answer: Response)
    requires ConfigOk(c) && Inv(s) && Fresh(s, r) && Requested(c, s, r, s', answer)
    ensures Inv(s')
  {
    if s' != s {
      var row := NewRow(r, c.registry[r.key]);
      NewRowLoadsAsRequested(r, c.registry[r.key]);
      if r.publishes {
        PublishedRowKeepsInv(s, r, row, s');
      } else {
        StrandedRowKeepsInv(s, r, row, s');
      }
    }
  }

  lemma NewRowKeepsUnique(rows: map<Id, Row>, id: Id, row: Row)
    requires UniqueCompleted(rows) && id !in rows && row.status.Pending?
    ensures UniqueCompleted(rows[id := row])
  {
    var rows' := rows[id := row];
    forall t, id1, id2 | CompletedFor(rows', t, id1) && CompletedFor(rows', t, id2) ensures id1 == id2 {
      assert CompletedFor(rows, t, id1) && CompletedFor(rows, t, id2);
    }
  }

  /** A commit makes a pending row visible; a rollback forgets it. Neither touches a message. */
  lemma SessionEndKeepsInv(s: State, id: Id)
    requires Inv(s) && id in s.posted
    ensures Inv(Committed(s, id)) && Inv(RolledBack(s, id))
  {
    NewRowKeepsUnique(s.rows, id, s.posted[id]);
    SameJobsStayConserved(s, Committed(s, id));
    SameJobsStayConserved(s, RolledBack(s, id));
  }

  // ----- Writes and acknowledgements keep the invariant

  lemma RowChangeKeepsUnique(rows: map<Id, Row>, id: Id, row: Row)
    requires UniqueCompleted(rows) && id in rows && rows[id].id == id
    requires TripleOf(row) == TripleOf(rows[id])
    requires row.status.Completed? ==> !Conflicts(rows, rows[id])
    ensures UniqueCompleted(rows[id := row])
  {
    var rows' := rows[id := row];
    forall t, id1, id2 | CompletedFor(rows', t, id1) && CompletedFor(rows', t, id2) ensures id1 == id2 {
      if id1 != id {
        assert CompletedFor(rows, t, id1);
      }
      if id2 != id {
        assert CompletedFor(rows, t, id2);
      }
    }
  }

  /** Replacing one row of a triple by another row of that triple. */
  lemma RowChangeKeepsInv(s: State, id: Id, row: Row, failures: map<Id, nat>)
    requires Inv(s) && id in s.rows && RowOk(id, row)
    requires TripleOf(row) == TripleOf(s.rows[id])
    requires row.status.Completed? ==> !Conflicts(s.rows, s.rows[id])
    ensures Inv(s.(rows := s.rows[id := row], failures := failures))
  {
    var s' := s.(rows := s.rows[id := row], failures := failures);
    assert s'.rows.Keys == s.rows.Keys;
    RowChangeKeepsUnique(s.rows, id, row);
    SameJobsStayConserved(s, s');
  }

  lemma AckKeepsInv(s: State, jobId: Id)
    requires Inv(s) && jobId in s.claims
    ensures Inv(Ack(s, jobId))
  {
    HeldAfterRelease(s.claims, jobId);
    assert forall job: Job :: PublishedOnce(Ack(s, jobId), job) == PublishedOnce(s, job);
  }

  lemma NackKeepsInv(s: State, jobId: Id)
    requires Inv(s) && jobId in s.claims
    ensures Inv(Nack(s, jobId))
  {
    HeldAfterRelease(s.claims, jobId);
    assert forall job: Job :: PublishedOnce(Nack(s, jobId), job) == PublishedOnce(s, job);
  }

  lemma ReleaseKeepsInv(s: State, jobId: Id)
    requires Inv(s) && jobId in s.claims
    ensures Inv(Ack(s, jobId)) && Inv(Nack(s, jobId))
  {
    AckKeepsInv(s, jobId);
    NackKeepsInv(s, jobId);
  }

  lemma ClaimKeepsInv(s: State, job: Job)
    requires Inv(s) && job in s.queued
    ensures Inv(Claim(s, job))
  {
    QueuedJobIsKnown(s, job);
    HeldAfterClaim(s.claims, job);
    var s' := Claim(s, job);
    assert forall j: Job :: PublishedOnce(s', j) == PublishedOnce(s, j);
  }

  lemma CancelKeepsInv(s: State, id: Id, now: Time)
    requires Inv(s)
    ensures Inv(Cancelling(s, id, now))
  {
    CancelsExactlyActiveRows(s.rows, id, now);
    match CancelRow(s.rows, id, now)
    case Err(_) =>
    case Ok(row) =>
      assert RowOk(id, s.rows[id]);
      assert RowOk(id, row);
      RowChangeKeepsInv(s, id, row, s.failures);
      assert Cancelling(s, id, now) == s.(rows := s.rows[id := row], failures := s.failures);
  }

  /** A claimed job has something to do exactly when its row is visible and active. */
  lemma TargetIsActiveRow(s: State, jobId: Id)
    requires Sane(s) && jobId in s.claims
    ensures var id := ClaimedRow(s, jobId);
            && (Target(s, jobId).Some? <==> id in s.rows && !Terminal(s.rows[id].status))
            && (Target(s, jobId).Some? ==> ToEntity(s.rows[id]) == Ok(Target(s, jobId).value))
  {
    var id := ClaimedRow(s, jobId);
    if id in s.rows {
      LoadsExactly(s.rows[id]);
    }
  }

  /** What the two writes of one attempt do to its row. */
  ghost predicate Fits(rows: map<Id, Row>, id: Id, w: Work, maxRetries: int)
    requires id in rows
  {
    var row := rows[id];
    var first := WriteFirst(row, w);
    var after := Write(first, w.last);
    && !Terminal(row.status)
    && RowOk(id, first) && TripleOf(first) == TripleOf(row) && !Terminal(first.status)
    && first.retryCount == row.retryCount
    && RowOk(id, after) && TripleOf(after) == TripleOf(row)
    && (after.status.Completed? ==> !Conflicts(rows, row))
    && (w.outcome.Acked? ==> Terminal(after.status))
    && after.retryCount == row.retryCount + (if w.failed then 1 else 0)
    && (w.failed && row.retryCount >= maxRetries ==> after.status.Failed?)
  }

  lemma TargetWorkFits(c: Config, s: State, jobId: Id, attempt: Attempt, now: Time)
    requires Sane(s) && jobId in s.claims && Target(s, jobId).Some?
    requires TargetWork(c, s, jobId, attempt, now).Ok?
    ensures ClaimedRow(s, jobId) in s.rows
    ensures Fits(s.rows, ClaimedRow(s, jobId), TargetWork(c, s, jobId, attempt, now).value, c.maxRetries)
  {
    TargetIsActiveRow(s, jobId);
    var row := s.rows[ClaimedRow(s, jobId)];
    SettlesExactlyOneWay(row, attempt, Conflicts(s.rows, row), c.maxRetries, now);
    WritesKeepRows(row, attempt, Conflicts(s.rows, row), c.maxRetries, now);
  }

  lemma StoredKeepsInv(s: State, id: Id, w: Work, maxRetries: int)
    requires Inv(s) && id in s.rows && Fits(s.rows, id, w, maxRetries)
    ensures Inv(Stored(s, id, w))
  {
    var stored := Stored(s, id, w);
    RowChangeKeepsInv(s, id, stored.rows[id], stored.failures);
  }

  lemma FinishedKeepsInv(s: State, jobId: Id, id: Id, w: Work, maxRetries: int)
    requires Inv(s) && jobId in s.claims && id in s.rows && Fits(s.rows, id, w, maxRetries)
    ensures Inv(Finished(s, jobId, id, w))
  {
    StoredKeepsInv(s, id, w, maxRetries);
    ReleaseKeepsInv(Stored(s, id, w), jobId);
  }

  /** A worker that stops changes no row: its job is queued again or stays acknowledged. */
  lemma CrashReleases(c: Config, s: State, jobId: Id, attempt: Attempt, now: Time, point: CrashPoint)
    requires jobId in s.claims
    ensures Crash(c, s, jobId, point, attempt, now) ==
              if point.BeforeCommit? && OutcomeOf(c, s, jobId, attempt, now) == Some(Acked) then Ack(s, jobId)
              else Nack(s, jobId)
  {
  }

  lemma CrashKeepsInv(c: Config, s: State, jobId: Id, attempt: Attempt, now: Time, point: CrashPoint)
    requires Inv(s) && jobId in s.claims
    ensures Inv(Crash(c, s, jobId, point, attempt, now))
  {
    ReleaseKeepsInv(s, jobId);
    CrashReleases(c, s, jobId, attempt, now, point);
  }

  lemma SettleKeepsInv(c: Config, s: State, jobId: Id, attempt: Attempt, now: Time)
    requires Inv(s) && Sane(s) && jobId in s.claims
    ensures Inv(Settle(c, s, jobId, attempt, now))
  {
    if Target(s, jobId).None? {
      ReleaseKeepsInv(s, jobId);
    } else if TargetWork(c, s, jobId, attempt, now).Ok? {
      TargetWorkFits(c, s, jobId, attempt, now);
      FinishedKeepsInv(s, jobId, ClaimedRow(s, jobId), TargetWork(c, s, jobId, attempt, now).value, c.maxRetries);
    }
  }

  lemma WorkKeepsInv(c: Config, s: State, jobId: Id, attempt: Attempt, now: Time, point: CrashPoint)
    requires Inv(s) && Sane(s) && jobId in s.claims
    ensures Inv(Settle(c, s, jobId, attempt, now))
    ensures Inv(Crash(c, s, jobId, point, attempt, now))
  {
    SettleKeepsInv(c, s, jobId, attempt, now);
    CrashKeepsInv(c, s, jobId, attempt, now, point);
  }

  lemma NextKeepsInv(c: Config, s: State, step: Step, s': State)
    requires ConfigOk(c) && Inv(s) && Next(c, s, step, s')
    ensures Inv(s')
  {
    match step
    case RequestStep(r, answer) => RequestKeepsInv(c, s, r, s', answer);
    case CommitStep(id) => SessionEndKeepsInv(s, id);
    case RollbackStep(id) => SessionEndKeepsInv(s, id);
    case CancelStep(id, now) => CancelKeepsInv(s, id, now);
    case ClaimStep(job) => ClaimKeepsInv(s, job);
    case SettleStep(jobId, attempt, now) =>
      InvIsSane(s);
      WorkKeepsInv(c, s, jobId, attempt, now, BeforeSettle);
    case CrashStep(jobId, point, attempt, now) =>
      InvIsSane(s);
      WorkKeepsInv(c, s, jobId, attempt, now, point);
    case IdleStep =>
  }

  lemma {:induction false} RunsKeepInv(c: Config, trace: seq<State>, steps: seq<Step>, i: nat)
    requires Run(c, trace, steps) && i < |trace|
    ensures Inv(trace[i])
  {
    if i == 0 {
      InitInv();
    } else {
      RunsKeepInv(c, trace, steps, i - 1);
      NextKeepsInv(c, trace[i - 1], steps[i - 1], trace[i]);
    }
  }

  lemma RunsAreSane(c: Config, trace: seq<State>, steps: seq<Step>, i: nat)
    requires Run(c, trace, steps) && i < |trace|
    ensures Sane(trace[i])
  {
    RunsKeepInv(c, trace, steps, i);
    InvIsSane(trace[i]);
  }

  // ----- Terminal rows are absorbing

  lemma OtherRowsStay(s: State, jobId: Id, id: Id, w: Work, other: Id)
    requires id in s.rows && other in s.rows && other != id
    ensures other in Finished(s, jobId, id, w).rows && Finished(s, jobId, id, w).rows[other] == s.rows[other]
  {
  }

  /** Work on a job changes no row but its own, and changes that only while it is active. */
  lemma WorkKeepsTerminalRow(c: Config, s: State, jobId: Id, attempt: Attempt, now: Time, point: CrashPoint, id: Id)
    requires Sane(s) && jobId in s.claims && id in s.rows && Terminal(s.rows[id].status)
    ensures id in Settle(c, s, jobId, attempt, now).rows
    ensures Settle(c, s, jobId, attempt, now).rows[id] == s.rows[id]
    ensures id in Crash(c, s, jobId, point, attempt, now).rows
    ensures Crash(c, s, jobId, point, attempt, now).rows[id] == s.rows[id]
  {
    CrashReleases(c, s, jobId, attempt, now, point);
    if Target(s, jobId).Some? && TargetWork(c, s, jobId, attempt, now).Ok? {
      TargetIsActiveRow(s, jobId);
      OtherRowsStay(s, jobId, ClaimedRow(s, jobId), TargetWork(c, s, jobId, attempt, now).value, id);
    }
  }

  lemma CancelKeepsTerminalRow(s: State, cancelled: Id, now: Time, id: Id)
    requires RowsOk(s) && id in s.rows && Terminal(s.rows[id].status)
    ensures id in Cancelling(s, cancelled, now).rows && Cancelling(s, cancelled, now).rows[id] == s.rows[id]
  {
    LoadsExactly(s.rows[id]);
  }

  predicate RowKept(s: State, s': State, id: Id) {
    id in s.rows && Terminal(s.rows[id].status) ==> id in s'.rows && s'.rows[id] == s.rows[id]
  }

  lemma NextKeepsTerminalRow(c: Config, s: State, step: Step, s': State, id: Id)
    requires Sane(s) && Next(c, s, step, s')
    ensures RowKept(s, s', id)
  {
    if id in s.rows && Terminal(s.rows[id].status) {
      match step
      case CancelStep(other, now) => CancelKeepsTerminalRow(s, other, now, id);
      case SettleStep(jobId, attempt, now) => WorkKeepsTerminalRow(c, s, jobId, attempt, now, BeforeSettle, id);
      case CrashStep(jobId, point, attempt, now) => WorkKeepsTerminalRow(c, s, jobId, attempt, now, point, id);
      case _ =>
    }
  }

  lemma RunKeepsTerminalRow(c: Config, trace: seq<State>, steps: seq<Step>, i: nat, id: Id)
    requires Run(c, trace, steps) && i < |steps|
    ensures RowKept(trace[i], trace[i + 1], id)
  {
    RunsAreSane(c, trace, steps, i);
    NextKeepsTerminalRow(c, trace[i], steps[i], trace[i + 1], id);
  }

  lemma {:induction false} KeptRowsStay(trace: seq<State>, i: nat, j: nat, id: Id)
    requires i <= j < |trace|
    requires forall k | i <= k < j :: RowKept(trace[k], trace[k + 1], id)
    requires id in trace[i].rows && Terminal(trace[i].rows[id].status)
    ensures id in trace[j].rows && trace[j].rows[id] == trace[i].rows[id]
    decreases j - i
  {
    if i < j {
      KeptRowsStay(trace, i, j - 1, id);
      assert RowKept(trace[j - 1], trace[j - 1 + 1], id);
    }
  }

  lemma TerminalRowsAreAbsorbing(c: Config, trace: seq<State>, steps: seq<Step>, i: nat, j: nat, id: Id)
    requires Run(c, trace, steps) && i <= j < |trace|
    requires id in trace[i].rows && Terminal(trace[i].rows[id].status)
    ensures id in trace[j].rows && trace[j].rows[id] == trace[i].rows[id]
  {
    forall k | i <= k < j ensures RowKept(trace[k], trace[k + 1], id) {
      RunKeepsTerminalRow(c, trace, steps, k, id);
    }
    KeptRowsStay(trace, i, j, id);
  }

  /** Every row that a run can produce loads as a valid entity. */
  lemma ReachableRowsLoad(c: Config, trace: seq<State>, steps: seq<Step>, i: nat, id: Id)
    requires Run(c, trace, steps) && i < |trace| && id in trace[i].rows
    ensures ToEntity(trace[i].rows[id]).Ok? && Valid(ToEntity(trace[i].rows[id]).value)
    ensures trace[i].rows[id].retryCount > 0 ==> !trace[i].rows[id].status.Pending?
  {
    RunsKeepInv(c, trace, steps, i);
    LoadsExactly(trace[i].rows[id]);
  }

  // ----- Exactly one job for every active row

  /** The job of a row is settled while the row is not visible: the worker acknowledges it unworked. */
  predicate Overtakes(s: State, step: Step, id: Id) {
    && step.SettleStep? && step.jobId in s.claims
    && s.claims[step.jobId].payload == Some(id) && id !in s.rows
  }

  /** The worker of a row that is not ended acknowledges its job and stops before its commit. */
  predicate Abandons(c: Config, s: State, step: Step, id: Id) {
    && step.CrashStep? && step.point.BeforeCommit? && step.crashed in s.claims
    && s.claims[step.crashed].payload == Some(id)
    && OutcomeOf(c, s, step.crashed, step.tried, step.when) == Some(Acked)
    && (id in s.rows ==> !Terminal(s.rows[id].status))
  }

  predicate Loses(c: Config, s: State, step: Step, id: Id) {
    Overtakes(s, step, id) || Abandons(c, s, step, id)
  }

  /** In the run up to state i, the row's job was acknowledged and nothing of it committed. */
  ghost predicate Jobless(c: Config, trace: seq<State>, steps: seq<Step>, i: nat, id: Id)
    requires |trace| == |steps| + 1 && i <= |steps|
  {
    exists k | 0 <= k < i :: Loses(c, trace[k], steps[k], id)
  }

  /** What a settlement acknowledges. */
  lemma SettleAcks(c: Config, s: State, jobId: Id, attempt: Attempt, now: Time)
    requires Sane(s) && jobId in s.claims
    ensures var s' := Settle(c, s, jobId, attempt, now);
            && s'.jobOf == s.jobOf
            && (forall job | job in s.acked :: job in s'.acked)
            && (forall job | job in s'.acked && job !in s.acked ::
                  && job == s.claims[jobId]
                  && var id := ClaimedRow(s, jobId);
                  (id !in s.rows || (id in s'.rows && Terminal(s'.rows[id].status))))
            && (ClaimedRow(s, jobId) !in s.rows ==> s.claims[jobId] in s'.acked)
  {
    TargetIsActiveRow(s, jobId);
    if Target(s, jobId).Some? && TargetWork(c, s, jobId, attempt, now).Ok? {
      TargetWorkFits(c, s, jobId, attempt, now);
    }
  }

  /** What a worker that stops has acknowledged. */
  lemma CrashAcks(c: Config, s: State, jobId: Id, attempt: Attempt, now: Time, point: CrashPoint)
    requires Sane(s) && jobId in s.claims
    ensures var s' := Crash(c, s, jobId, point, attempt, now);
            && s'.jobOf == s.jobOf && s'.rows == s.rows
            && (forall job | job in s.acked :: job in s'.acked)
            && (forall job | job in s'.acked && job !in s.acked ::
                  job == s.claims[jobId] && point.BeforeCommit?
                  && OutcomeOf(c, s, jobId, attempt, now) == Some(Acked))
            && (point.BeforeCommit? && OutcomeOf(c, s, jobId, attempt, now) == Some(Acked) ==>
                  s.claims[jobId] in s'.acked)
  {
    CrashReleases(c, s, jobId, attempt, now, point);
  }

  lemma SettleAcksRow(c: Config, s: State, jobId: Id, attempt: Attempt, now: Time, id: Id)
    requires Sane(s) && jobId in s.claims
    requires id in s.jobOf && s.jobOf[id].payload == Some(id)
    requires s.jobOf[id] in Settle(c, s, jobId, attempt, now).acked && s.jobOf[id] !in s.acked
    ensures var s' := Settle(c, s, jobId, attempt, now);
            (s.claims[jobId].payload == Some(id) && id !in s.rows) || (id in s'.rows && Terminal(s'.rows[id].status))
  {
    SettleAcks(c, s, jobId, attempt, now);
  }

  lemma NewJobIsNotAcked(s: State, r: Request)
    requires Conserved(s) && Fresh(s, r)
    ensures NewJob(r) !in s.acked
  {
    NewJobIsUnknown(s, r);
    assert s.published[NewJob(r)] == 0;
  }

  /** A step drops no acknowledgement and changes no row's job; a new job is not acknowledged. */
  ghost predicate KeepsAcked(s: State, s': State) {
    && (forall job | job in s.acked :: job in s'.acked)
    && (forall id | id in s.jobOf :: id in s'.jobOf && s'.jobOf[id] == s.jobOf[id])
    && (forall id | id in s'.jobOf && id !in s.jobOf :: s'.jobOf[id] !in s'.acked)
  }

  lemma RequestKeepsAcked(c: Config, s: State, r: Request, s': State, answer: Response)
    requires Fresh(s, r) && Requested(c, s, r, s', answer) && NewJob(r) !in s.acked
    ensures KeepsAcked(s, s') && s'.acked == s.acked
  {
  }

  lemma OtherStepsAckNothing(c: Config, s: State, step: Step, s': State)
    requires Next(c, s, step, s') && !step.SettleStep? && !step.CrashStep? && !step.RequestStep?
    ensures s'.acked == s.acked && s'.jobOf == s.jobOf
  {
  }

  lemma NextKeepsAcked(c: Config, s: State, step: Step, s': State)
    requires Sane(s) && Next(c, s, step, s')
    requires step.RequestStep? ==> Fresh(s, step.request) && NewJob(step.request) !in s.acked
    ensures KeepsAcked(s, s')
    ensures !step.SettleStep? && !step.CrashStep? ==> s'.acked == s.acked
  {
    match step
    case RequestStep(r, answer) => RequestKeepsAcked(c, s, r, s', answer);
    case SettleStep(jobId, attempt, now) => SettleAcks(c, s, jobId, attempt, now);
    case CrashStep(jobId, point, attempt, now) => CrashAcks(c, s, jobId, attempt, now, point);
    case _ => OtherStepsAckNothing(c, s, step, s');
  }

  lemma RunKeepsAcked(c: Config, trace: seq<State>, steps: seq<Step>, i: nat)
    requires Run(c, trace, steps) && i < |steps|
    ensures KeepsAcked(trace[i], trace[i + 1])
    ensures !steps[i].SettleStep? && !steps[i].CrashStep? ==> trace[i + 1].acked == trace[i].acked
  {
    RunsKeepInv(c, trace, steps, i);
    RunsAreSane(c, trace, steps, i);
    assert Next(c, trace[i], steps[i], trace[i + 1]);
    if steps[i].RequestStep? {
      NewJobIsNotAcked(trace[i], steps[i].request);
    }
    NextKeepsAcked(c, trace[i], steps[i], trace[i + 1]);
  }

  lemma JobsNameTheirRows(c: Config, trace: seq<State>, steps: seq<Step>, i: nat, id: Id)
    requires Run(c, trace, steps) && i < |trace| && id in trace[i].jobOf
    ensures trace[i].jobOf[id].payload == Some(id)
  {
    RunsKeepInv(c, trace, steps, i);
  }

  lemma CrashAcksRow(c: Config, s: State, step: Step, id: Id)
    requires Sane(s) && step.CrashStep? && step.crashed in s.claims
    requires id in s.jobOf && s.jobOf[id].payload == Some(id)
    requires s.jobOf[id] in Crash(c, s, step.crashed, step.point, step.tried, step.when).acked
    requires s.jobOf[id] !in s.acked
    ensures Abandons(c, s, step, id) || (id in s.rows && Terminal(s.rows[id].status))
    ensures Crash(c, s, step.crashed, step.point, step.tried, step.when).rows == s.rows
  {
    CrashAcks(c, s, step.crashed, step.tried, step.when, step.point);
  }

  /** A job that is acknowledged was so before, or its row is ended, or the step leaves its row without a job. */
  lemma RunAcks(c: Config, trace: seq<State>, steps: seq<Step>, i: nat, id: Id)
    requires Run(c, trace, steps) && i < |steps|
    requires id in trace[i].jobOf && trace[i].jobOf[id] in trace[i + 1].acked
    ensures || trace[i].jobOf[id] in trace[i].acked
            || Loses(c, trace[i], steps[i], id)
            || (id in trace[i + 1].rows && Terminal(trace[i + 1].rows[id].status))
  {
    RunKeepsAcked(c, trace, steps, i);
    if trace[i].jobOf[id] !in trace[i].acked {
      RunsAreSane(c, trace, steps, i);
      JobsNameTheirRows(c, trace, steps, i, id);
      assert Next(c, trace[i], steps[i], trace[i + 1]);
      if steps[i].SettleStep? {
        SettleAcksRow(c, trace[i], steps[i].jobId, steps[i].attempt, steps[i].now, id);
      } else {
        CrashAcksRow(c, trace[i], steps[i], id);
      }
    }
  }

  lemma LosingAcks(c: Config, trace: seq<State>, steps: seq<Step>, k: nat, id: Id)
    requires Run(c, trace, steps) && k < |steps|
    requires Loses(c, trace[k], steps[k], id)
    ensures id in trace[k].jobOf && trace[k].jobOf[id] in trace[k + 1].acked
  {
    RunsAreSane(c, trace, steps, k);
    assert Next(c, trace[k], steps[k], trace[k + 1]);
    if steps[k].SettleStep? {
      SettleAcks(c, trace[k], steps[k].jobId, steps[k].attempt, steps[k].now);
    } else {
      CrashAcks(c, trace[k], steps[k].crashed, steps[k].tried, steps[k].when, steps[k].point);
    }
  }

  lemma {:induction false} AckedRowsAreEndedOrJobless(
    c: Config, trace: seq<State>, steps: seq<Step>, i: nat, id: Id)
    requires Run(c, trace, steps) && i < |trace|
    requires id in trace[i].jobOf && trace[i].jobOf[id] in trace[i].acked
    ensures (id in trace[i].rows && Terminal(trace[i].rows[id].status)) || Jobless(c, trace, steps, i, id)
  {
    if i > 0 {
      RunKeepsAcked(c, trace, steps, i - 1);
      RunAcks(c, trace, steps, i - 1, id);
      if trace[i - 1].jobOf[id] in trace[i - 1].acked {
        AckedRowsAreEndedOrJobless(c, trace, steps, i - 1, id);
        RunKeepsTerminalRow(c, trace, steps, i - 1, id);
      }
    }
  }

  lemma {:induction false} AckedStays(trace: seq<State>, i: nat, j: nat, id: Id)
    requires i <= j < |trace|
    requires forall k | i <= k < j :: KeepsAcked(trace[k], trace[k + 1])
    requires id in trace[i].jobOf && trace[i].jobOf[id] in trace[i].acked
    ensures id in trace[j].jobOf && trace[j].jobOf[id] in trace[j].acked
    decreases j - i
  {
    if i < j {
      AckedStays(trace, i, j - 1, id);
      assert KeepsAcked(trace[j - 1], trace[j - 1 + 1]);
    }
  }

  lemma LostJobsStayAcked(c: Config, trace: seq<State>, steps: seq<Step>, i: nat, j: nat, id: Id)
    requires Run(c, trace, steps) && i <= j < |trace| && Jobless(c, trace, steps, i, id)
    ensures id in trace[j].jobOf && trace[j].jobOf[id] in trace[j].acked
  {
    var k :| 0 <= k < i && Loses(c, trace[k], steps[k], id);
    LosingAcks(c, trace, steps, k, id);
    forall n | k <= n < j ensures KeepsAcked(trace[n], trace[n + 1]) {
      RunKeepsAcked(c, trace, steps, n);
    }
    AckedStays(trace, k + 1, j, id);
  }

  /** A published job is outstanding exactly once until it is acknowledged, and then never. */
  lemma OutstandingUntilAcked(s: State, id: Id)
    requires Inv(s) && id in s.jobOf
    ensures Outstanding(s)[s.jobOf[id]] == if s.jobOf[id] in s.acked then 0 else 1
    ensures forall job | job in Outstanding(s) && job.payload == Some(id) :: job == s.jobOf[id]
  {
    assert PublishedOnce(s, s.jobOf[id]);
    assert s.published[s.jobOf[id]] == 1;
    forall job | job in Outstanding(s) ensures PublishedOnce(s, job) {
      assert s.published[job] >= Outstanding(s)[job] >= 1;
    }
  }

  /**
   * A visible pending or running row has exactly one outstanding job if and only if no settlement of its job
   * preceded the commit of its row and no worker that acknowledged the job stopped before its own commit;
   * otherwise it has none. This leaves out the rows of failed publishes.
   */
  lemma ActiveRowsHaveOneJob(c: Config, trace: seq<State>, steps: seq<Step>, i: nat, id: Id)
    requires Run(c, trace, steps) && i < |trace|
    requires id in trace[i].rows && !Terminal(trace[i].rows[id].status) && id !in trace[i].stranded
    ensures id in trace[i].jobOf
    ensures Outstanding(trace[i])[trace[i].jobOf[id]] == if Jobless(c, trace, steps, i, id) then 0 else 1
    ensures forall job | job in Outstanding(trace[i]) && job.payload == Some(id) :: job == trace[i].jobOf[id]
  {
    RunsKeepInv(c, trace, steps, i);
    OutstandingUntilAcked(trace[i], id);
    if trace[i].jobOf[id] in trace[i].acked {
      AckedRowsAreEndedOrJobless(c, trace, steps, i, id);
    }
    if Jobless(c, trace, steps, i, id) {
      LostJobsStayAcked(c, trace, steps, i, i, id);
    }
  }

  predicate SameKeys(s: State, s': State) {
    s'.rows.Keys == s.rows.Keys && s'.posted == s.posted && s'.jobOf == s.jobOf && s'.stranded == s.stranded
  }

  lemma ReleaseKeepsKeys(s: State, jobId: Id)
    ensures SameKeys(s, Ack(s, jobId)) && SameKeys(s, Nack(s, jobId))
  {
  }

  lemma FinishingKeepsKeys(s: State, jobId: Id, id: Id, w: Work)
    requires id in s.rows
    ensures SameKeys(s, Finished(s, jobId, id, w))
  {
    assert SameKeys(s, Stored(s, id, w));
    ReleaseKeepsKeys(Stored(s, id, w), jobId);
  }

  lemma WorkKeepsKeys(c: Config, s: State, jobId: Id, attempt: Attempt, now: Time, point: CrashPoint)
    requires Sane(s) && jobId in s.claims
    ensures SameKeys(s, Settle(c, s, jobId, attempt, now))
    ensures SameKeys(s, Crash(c, s, jobId, point, attempt, now))
  {
    TargetIsActiveRow(s, jobId);
    CrashReleases(c, s, jobId, attempt, now, point);
    if Target(s, jobId).Some? && TargetWork(c, s, jobId, attempt, now).Ok? {
      FinishingKeepsKeys(s, jobId, ClaimedRow(s, jobId), TargetWork(c, s, jobId, attempt, now).value);
    }
  }

  /** The request's row is visible, or its session is open. */
  predicate RowKnown(s: State, id: Id) {
    id in s.rows || id in s.posted
  }

  lemma NextKeepsRowOfJob(c: Config, s: State, step: Step, s': State, id: Id)
    requires Sane(s) && Next(c, s, step, s') && id in s'.jobOf && step != RollbackStep(id)
    requires id in s.jobOf ==> RowKnown(s, id)
    ensures RowKnown(s', id)
  {
    match step
    case SettleStep(jobId, attempt, now) => WorkKeepsKeys(c, s, jobId, attempt, now, BeforeSettle);
    case CrashStep(jobId, point, attempt, now) => WorkKeepsKeys(c, s, jobId, attempt, now, point);
    case CancelStep(cancelled, now) => CancelsExactlyActiveRows(s.rows, cancelled, now);
    case _ =>
  }

  /** The row of a published job is visible, or its session is still open or was rolled back. */
  lemma {:induction false} JobsHaveRows(c: Config, trace: seq<State>, steps: seq<Step>, i: nat, id: Id)
    requires Run(c, trace, steps) && i < |trace| && id in trace[i].jobOf
    ensures RowKnown(trace[i], id) || RollbackStep(id) in steps[..i]
  {
    if i > 0 {
      assert steps[..i] == steps[..i - 1] + [steps[i - 1]];
      RunsAreSane(c, trace, steps, i - 1);
      if id in trace[i - 1].jobOf {
        JobsHaveRows(c, trace, steps, i - 1, id);
      }
      if RollbackStep(id) !in steps[..i] {
        NextKeepsRowOfJob(c, trace[i - 1], steps[i - 1], trace[i], id);
      }
    }
  }

  /** Every published job is queued, claimed or acknowledged, and every outstanding job is one request's own. */
  lemma JobsAreConserved(c: Config, trace: seq<State>, steps: seq<Step>, i: nat)
    requires Run(c, trace, steps) && i < |trace|
    ensures trace[i].published == Outstanding(trace[i]) + trace[i].acked
    ensures forall job | job in Outstanding(trace[i]) ::
              PublishedOnce(trace[i], job) && Outstanding(trace[i])[job] == 1
  {
    RunsKeepInv(c, trace, steps, i);
    forall job | job in Outstanding(trace[i])
      ensures PublishedOnce(trace[i], job) && Outstanding(trace[i])[job] == 1
    {
      assert trace[i].published[job] >= Outstanding(trace[i])[job] >= 1;
    }
  }

  lemma WorkSparesOtherRows(
    c: Config, s: State, jobId: Id, attempt: Attempt, now: Time, point: CrashPoint, id: Id)
    requires Sane(s) && jobId in s.claims && id in s.rows && ClaimedRow(s, jobId) != id
    ensures id in Settle(c, s, jobId, attempt, now).rows
    ensures Settle(c, s, jobId, attempt, now).rows[id] == s.rows[id]
    ensures id in Crash(c, s, jobId, point, attempt, now).rows
    ensures Crash(c, s, jobId, point, attempt, now).rows[id] == s.rows[id]
  {
    CrashReleases(c, s, jobId, attempt, now, point);
    TargetIsActiveRow(s, jobId);
    if Target(s, jobId).Some? && TargetWork(c, s, jobId, attempt, now).Ok? {
      OtherRowsStay(s, jobId, ClaimedRow(s, jobId), TargetWork(c, s, jobId, attempt, now).value, id);
    }
  }

  /** A row whose job is not claimed is no worker's: only a cancellation changes it. */
  lemma NextLeavesUnclaimedRow(c: Config, s: State, step: Step, s': State, id: Id)
    requires Sane(s) && Next(c, s, step, s') && id in s.rows
    requires forall k | k in s.claims :: ClaimedRow(s, k) != id
    ensures id in s'.rows && (s'.rows[id] == s.rows[id] || s'.rows[id].status.Cancelled?)
  {
    match step
    case SettleStep(jobId, attempt, now) => WorkSparesOtherRows(c, s, jobId, attempt, now, BeforeSettle, id);
    case CrashStep(jobId, point, attempt, now) => WorkSparesOtherRows(c, s, jobId, attempt, now, point, id);
    case CancelStep(cancelled, now) => CancelsExactlyActiveRows(s.rows, cancelled, now);
    case _ =>
  }

  /** The row stays as it is, or is cancelled. */
  predicate OnlyCancelled(s: State, s': State, id: Id) {
    id in s.rows ==> id in s'.rows && (s'.rows[id] == s.rows[id] || s'.rows[id].status.Cancelled?)
  }

  lemma RunLeavesJoblessRow(c: Config, trace: seq<State>, steps: seq<Step>, i: nat, id: Id)
    requires Run(c, trace, steps) && i < |steps|
    requires id in trace[i].jobOf && trace[i].jobOf[id] in trace[i].acked
    ensures OnlyCancelled(trace[i], trace[i + 1], id)
  {
    RunsKeepInv(c, trace, steps, i);
    RunsAreSane(c, trace, steps, i);
    forall k | k in trace[i].claims ensures ClaimedRow(trace[i], k) != id {
      ClaimedJobIsKnown(trace[i], k);
    }
    if id in trace[i].rows {
      NextLeavesUnclaimedRow(c, trace[i], steps[i], trace[i + 1], id);
    }
  }

  lemma {:induction false} OnlyCancelledStays(trace: seq<State>, i: nat, j: nat, id: Id)
    requires i <= j < |trace| && id in trace[i].rows
    requires forall k | i <= k < j :: OnlyCancelled(trace[k], trace[k + 1], id) && RowKept(trace[k], trace[k + 1], id)
    ensures OnlyCancelled(trace[i], trace[j], id)
    decreases j - i
  {
    if i < j {
      OnlyCancelledStays(trace, i, j - 1, id);
      assert OnlyCancelled(trace[j - 1], trace[j - 1 + 1], id);
    }
  }

  /** A row whose job is lost has none ever after: it changes only if somebody cancels it. */
  lemma JoblessRowsWaitForever(c: Config, trace: seq<State>, steps: seq<Step>, i: nat, j: nat, id: Id)
    requires Run(c, trace, steps) && i <= j < |trace|
    requires id in trace[i].rows && Jobless(c, trace, steps, i, id)
    ensures id in trace[j].jobOf && Outstanding(trace[j])[trace[j].jobOf[id]] == 0
    ensures id in trace[j].rows
    ensures trace[j].rows[id] == trace[i].rows[id] || trace[j].rows[id].status.Cancelled?
  {
    forall k | i <= k < j ensures OnlyCancelled(trace[k], trace[k + 1], id) && RowKept(trace[k], trace[k + 1], id) {
      LostJobsStayAcked(c, trace, steps, i, k, id);
      RunLeavesJoblessRow(c, trace, steps, k, id);
      RunKeepsTerminalRow(c, trace, steps, k, id);
    }
    OnlyCancelledStays(trace, i, j, id);
    LostJobsStayAcked(c, trace, steps, i, j, id);
    RunsKeepInv(c, trace, steps, j);
    OutstandingUntilAcked(trace[j], id);
  }

  lemma FirstRequest(c: Config, r: Request, version: string) returns (s: State)
    requires r.key in c.registry && c.registry[r.key] == version && r.assetId in c.assets && r.publishes
    ensures Next(c, Init, RequestStep(r, Created(r.id)), s)
    ensures s.rows == map[] && s.claims == map[] && s.acked == multiset{} && s.stranded == {}
    ensures s.posted == map[r.id := NewRow(r, version)] && s.queued == multiset{NewJob(r)}
  {
    var job := NewJob(r);
    s := Init.(posted := Init.posted[r.id := NewRow(r, version)], queued := Init.queued + multiset{job},
               published := Init.published + multiset{job}, jobOf := Init.jobOf[r.id := job],
               failures := Init.failures[r.id := 0]);
    assert forall id :: !CompletedFor(Init.rows, Triple(r.assetId, r.key, version), id);
  }

  /** The job of a row that is not visible is acknowledged, whatever the analyzer would do. */
  lemma UnseenJobsAreAcked(c: Config, s: State, jobId: Id, attempt: Attempt, now: Time)
    requires jobId in s.claims && s.claims[jobId].payload.Some? && s.claims[jobId].payload.value !in s.rows
    ensures Settle(c, s, jobId, attempt, now) == Ack(s, jobId)
  {
  }

  lemma UnseenJobRuns(c: Config, s: State, r: Request, attempt: Attempt) returns (s': State)
    requires s.rows == map[] && s.claims == map[] && s.queued == multiset{NewJob(r)} && r.id in s.posted
    ensures Next(c, s, ClaimStep(NewJob(r)), Claim(s, NewJob(r)))
    ensures Next(c, Claim(s, NewJob(r)), SettleStep(r.jobId, attempt, r.now), s')
    ensures s'.rows == map[] && s'.posted == s.posted && s'.stranded == s.stranded
    ensures s'.queued == multiset{} && s'.claims == map[]
  {
    UnseenJobsAreAcked(c, Claim(s, NewJob(r)), r.jobId, attempt, r.now);
    s' := Ack(Claim(s, NewJob(r)), r.jobId);
  }

  /** Such a row exists in a run: its job is claimed and settled before its request commits. */
  lemma OvertakenRequestIsReachable(attempt: Attempt) returns (c: Config, trace: seq<State>, steps: seq<Step>)
    ensures Run(c, trace, steps)
    ensures var s := trace[|steps|];
            && 1 in s.rows && s.rows[1].status.Pending? && 1 !in s.stranded && s.posted == map[]
            && s.queued == multiset{} && s.claims == map[]
  {
    c := Config(map["metadata" := "1"], {7}, 3);
    var r := Request(7, "metadata", 5, 1, 2, 0, true, true);
    var posted := FirstRequest(c, r, "1");
    var acked := UnseenJobRuns(c, posted, r, attempt);
    trace := [Init, posted, Claim(posted, NewJob(r)), acked, Committed(acked, 1)];
    steps := [RequestStep(r, Created(1)), ClaimStep(NewJob(r)), SettleStep(2, attempt, 0), CommitStep(1)];
  }

  /** A run up to a worker that holds the job of its visible pending row. */
  lemma ClaimIsReachable(c: Config, r: Request, version: string) returns (trace: seq<State>, steps: seq<Step>)
    requires ConfigOk(c) && r.key in c.registry && c.registry[r.key] == version
    requires r.assetId in c.assets && r.publishes
    ensures Run(c, trace, steps)
    ensures var s := trace[|steps|];
            && s.rows == map[r.id := NewRow(r, version)] && s.posted == map[] && s.stranded == {}
            && s.queued == multiset{} && s.claims == map[r.jobId := NewJob(r)]
  {
    var posted := FirstRequest(c, r, version);
    var visible := Committed(posted, r.id);
    trace := [Init, posted, visible, Claim(visible, NewJob(r))];
    steps := [RequestStep(r, Created(r.id)), CommitStep(r.id), ClaimStep(NewJob(r))];
  }

  lemma RunGrows(c: Config, trace: seq<State>, steps: seq<Step>, step: Step, s: State)
    requires Run(c, trace, steps) && Next(c, trace[|steps|], step, s)
    ensures Run(c, trace + [s], steps + [step])
  {
  }

  /** The work on a new row that is alone in its table. */
  lemma FirstAttempt(c: Config, s: State, r: Request, version: string, attempt: Attempt, now: Time)
    requires r.key != "" && version != "" && s.rows == map[r.id := NewRow(r, version)]
    requires s.claims == map[r.jobId := NewJob(r)]
    ensures var row := NewRow(r, version);
            && RowOk(r.id, row) && row.status.Pending? && row.retryCount == 0
            && ToEntity(row).Ok? && Target(s, r.jobId) == Some(ToEntity(row).value)
            && TargetWork(c, s, r.jobId, attempt, now)
                 == WorkOf(ToEntity(row).value, attempt, false, c.maxRetries, now)
  {
    NewRowLoadsAsRequested(r, version);
    LoadsExactly(NewRow(r, version));
  }

  /** So is the other: a worker completes the analysis, acknowledges, and stops before its commit. */
  lemma AbandonedRowIsReachable(result: AnalysisResult) returns (c: Config, trace: seq<State>, steps: seq<Step>)
    requires Lower(result.verdict) != "failed"
    ensures Run(c, trace, steps) && |steps| > 0 && steps[|steps| - 1].CrashStep?
    ensures var s := trace[|steps|];
            && 1 in s.rows && s.rows[1].status.Pending? && 1 !in s.stranded && s.posted == map[]
            && s.queued == multiset{} && s.claims == map[]
  {
    c := Config(map["metadata" := "1"], {7}, 3);
    var r := Request(7, "metadata", 5, 1, 2, 0, true, true);
    trace, steps := ClaimIsReachable(c, r, "1");
    var s := trace[|steps|];
    FirstAttempt(c, s, r, "1", Returns(result), 0);
    SettlesExactlyOneWay(NewRow(r, "1"), Returns(result), false, 3, 0);
    assert OutcomeOf(c, s, 2, Returns(result), 0) == Some(Acked);
    var step := CrashStep(2, BeforeCommit, Returns(result), 0);
    RunGrows(c, trace, steps, step, Ack(s, 2));
    trace, steps := trace + [Ack(s, 2)], steps + [step];
  }

  // ----- Failed publishes

  predicate Compensates(step: Step) {
    step.RequestStep? ==> step.request.publishes || step.request.deletes
  }

  /** A row is stranded only by a request whose publish and whose delete fail. */
  lemma NextStrands(c: Config, s: State, step: Step, s': State)
    requires Sane(s) && Next(c, s, step, s')
    ensures !step.RequestStep? || Compensates(step) ==> s'.stranded == s.stranded
    ensures step.RequestStep? ==> s'.rows == s.rows && s'.stranded <= s.stranded + {step.request.id}
    ensures !step.RequestStep? && !step.CommitStep? ==> s'.rows.Keys == s.rows.Keys
  {
    match step
    case SettleStep(jobId, attempt, now) => WorkKeepsKeys(c, s, jobId, attempt, now, BeforeSettle);
    case CrashStep(jobId, point, attempt, now) => WorkKeepsKeys(c, s, jobId, attempt, now, point);
    case CancelStep(id, now) => CancelsExactlyActiveRows(s.rows, id, now);
    case _ =>
  }

  /** When every failed publish is compensated by a delete that succeeds, no row is ever stranded. */
  lemma {:induction false} NothingStranded(c: Config, trace: seq<State>, steps: seq<Step>, i: nat)
    requires Run(c, trace, steps) && i < |trace|
    requires forall k | 0 <= k < |steps| :: Compensates(steps[k])
    ensures trace[i].stranded == {}
  {
    if i > 0 {
      NothingStranded(c, trace, steps, i - 1);
      RunsAreSane(c, trace, steps, i - 1);
      NextStrands(c, trace[i - 1], steps[i - 1], trace[i]);
    }
  }

  predicate NoneStranded(s: State) {
    forall id | id in s.stranded :: id !in s.rows
  }

  lemma NextShowsNoStrandedRow(c: Config, s: State, step: Step, s': State)
    requires Sane(s) && Next(c, s, step, s') && NoneStranded(s)
    requires step.CommitStep? ==> step.committed !in s.stranded
    ensures NoneStranded(s')
  {
    NextStrands(c, s, step, s');
  }

  lemma RunShowsNoStrandedRow(c: Config, trace: seq<State>, steps: seq<Step>, i: nat)
    requires Run(c, trace, steps) && i < |steps| && NoneStranded(trace[i])
    requires steps[i].CommitStep? ==> steps[i].committed !in trace[i].stranded
    ensures NoneStranded(trace[i + 1])
  {
    RunsAreSane(c, trace, steps, i);
    NextShowsNoStrandedRow(c, trace[i], steps[i], trace[i + 1]);
  }

  /**
   * When the session of every failed request is rolled back, no stranded row is ever visible, whether the
   * compensating deletes succeed or not.
   */
  lemma {:induction false} RollbackHidesStrandedRows(c: Config, trace: seq<State>, steps: seq<Step>, i: nat)
    requires Run(c, trace, steps) && i < |trace|
    requires forall k | 0 <= k < |steps| && steps[k].CommitStep? :: steps[k].committed !in trace[k].stranded
    ensures NoneStranded(trace[i])
  {
    if i > 0 {
      RollbackHidesStrandedRows(c, trace, steps, i - 1);
      RunShowsNoStrandedRow(c, trace, steps, i - 1);
    }
  }

  // ----- At most one completed analysis, however many requests are in flight

  lemma AtMostOneCompleted(c: Config, trace: seq<State>, steps: seq<Step>, i: nat, t: Triple, id1: Id, id2: Id)
    requires Run(c, trace, steps) && i < |trace|
    requires CompletedFor(trace[i].rows, t, id1) && CompletedFor(trace[i].rows, t, id2)
    ensures id1 == id2
  {
    RunsKeepInv(c, trace, steps, i);
  }

  /**
   * Once no job is outstanding, every row is ended but those that lost their job or are stranded; and of a completed
   * triple, every other such row is failed or cancelled.
   */
  lemma QuiescentRowsAreSettled(c: Config, trace: seq<State>, steps: seq<Step>, i: nat, id: Id)
    requires Run(c, trace, steps) && i < |trace|
    requires trace[i].queued == multiset{} && trace[i].claims == map[]
    requires id in trace[i].rows && id !in trace[i].stranded && !Jobless(c, trace, steps, i, id)
    ensures Terminal(trace[i].rows[id].status)
    ensures forall done | CompletedFor(trace[i].rows, TripleOf(trace[i].rows[id]), done) && done != id ::
              trace[i].rows[id].status.Failed? || trace[i].rows[id].status.Cancelled?
  {
    RunsKeepInv(c, trace, steps, i);
    assert trace[i].claims.Values == {};
    if !Terminal(trace[i].rows[id].status) {
      ActiveRowsHaveOneJob(c, trace, steps, i, id);
    }
    if trace[i].rows[id].status.Completed? {
      assert CompletedFor(trace[i].rows, TripleOf(trace[i].rows[id]), id);
    }
  }

  /** Once a row of a triple is completed, every later request for the triple returns it and changes nothing. */
  lemma CompletedAnswersLaterRequests(c: Config, trace: seq<State>, steps: seq<Step>, i: nat, j: nat, id: Id)
    requires Run(c, trace, steps) && i <= j < |steps|
    requires id in trace[i].rows && trace[i].rows[id].status.Completed?
    requires steps[j].RequestStep?
    requires var r := steps[j].request;
             && r.key == trace[i].rows[id].analyzerKey && r.assetId == trace[i].rows[id].assetId
             && r.assetId in c.assets
             && r.key in c.registry && c.registry[r.key] == trace[i].rows[id].analyzerVersion
    ensures steps[j].answer == Existing(id) && trace[j + 1] == trace[j]
  {
    TerminalRowsAreAbsorbing(c, trace, steps, i, j, id);
    RunsKeepInv(c, trace, steps, j);
    var r := steps[j].request;
    var t := TripleOf(trace[i].rows[id]);
    assert CompletedFor(trace[j].rows, t, id);
    assert Next(c, trace[j], steps[j], trace[j + 1]);
    assert t == Triple(r.assetId, r.key, c.registry[r.key]);
  }

  // ----- Bounded retries

  predicate GivesErrorText(step: Step) {
    && (step.SettleStep? ==> !RaisesEmpty(step.attempt))
    && (step.CrashStep? ==> !RaisesEmpty(step.tried))
  }

  /** What `AnalysisWorker` needs of its settings and of the exceptions that analyzers raise. */
  predicate RetriesConfigured(c: Config, steps: seq<Step>) {
    c.maxRetries >= 1 && forall k | 0 <= k < |steps| :: GivesErrorText(steps[k])
  }

  /** A row's counter is the number of its failures, and the last one ends it. */
  predicate CountOk(c: Config, s: State, id: Id)
    requires id in s.rows
  {
    var row := s.rows[id];
    && (id in s.jobOf ==> id in s.failures && s.failures[id] == row.retryCount)
    && row.retryCount <= c.maxRetries + 1
    && (row.retryCount == c.maxRetries + 1 ==> row.status.Failed?)
  }

  /** A row that is not visible has not failed. */
  predicate UncountedOk(s: State, id: Id)
    requires id in s.posted
  {
    s.posted[id].retryCount == 0 && (id in s.jobOf ==> id in s.failures && s.failures[id] == 0)
  }

  ghost predicate CountInv(c: Config, s: State) {
    (forall id | id in s.rows :: CountOk(c, s, id)) && (forall id | id in s.posted :: UncountedOk(s, id))
  }

  lemma StoredKeepsCount(c: Config, s: State, id: Id, w: Work)
    requires CountInv(c, s) && PostedOk(s) && c.maxRetries >= 1
    requires id in s.jobOf && id in s.rows && Fits(s.rows, id, w, c.maxRetries)
    ensures CountInv(c, Stored(s, id, w))
  {
    assert CountOk(c, s, id);
    var stored := Stored(s, id, w);
    assert CountOk(c, stored, id);
    forall other | other in s.rows && other != id ensures CountOk(c, stored, other) {
      assert CountOk(c, s, other);
    }
    forall other | other in s.posted ensures UncountedOk(stored, other) {
      assert UncountedOk(s, other) && other != id;
    }
  }

  lemma SameRowsKeepCount(c: Config, s: State, s': State)
    requires CountInv(c, s) && s'.rows == s.rows && s'.failures == s.failures && s'.jobOf == s.jobOf
    requires s'.posted.Keys <= s.posted.Keys && forall id | id in s'.posted :: s'.posted[id] == s.posted[id]
    ensures CountInv(c, s')
  {
    assert forall id | id in s'.rows :: CountOk(c, s, id) ==> CountOk(c, s', id);
    assert forall id | id in s'.posted :: UncountedOk(s, id) ==> UncountedOk(s', id);
  }

  lemma PostingKeepsCount(c: Config, s: State, r: Request, version: string, s': State, answer: Response)
    requires CountInv(c, s) && Fresh(s, r) && Posts(s, r, version, s', answer)
    ensures CountInv(c, s')
  {
    if s' != s {
      assert forall id | id in s.rows :: CountOk(c, s, id) ==> CountOk(c, s', id);
      assert forall id | id in s.posted :: UncountedOk(s, id) ==> UncountedOk(s', id);
      assert UncountedOk(s', r.id);
    }
  }

  lemma CommitKeepsCount(c: Config, s: State, id: Id)
    requires CountInv(c, s) && c.maxRetries >= 1 && id in s.posted
    ensures CountInv(c, Committed(s, id))
  {
    var s' := Committed(s, id);
    assert UncountedOk(s, id);
    assert forall other | other in s.rows && other != id :: CountOk(c, s, other) ==> CountOk(c, s', other);
    assert forall other | other in s'.posted :: UncountedOk(s, other) ==> UncountedOk(s', other);
  }

  lemma CancelKeepsCount(c: Config, s: State, id: Id, now: Time)
    requires RowsOk(s) && CountInv(c, s)
    ensures CountInv(c, Cancelling(s, id, now))
  {
    CancelsExactlyActiveRows(s.rows, id, now);
    var s' := Cancelling(s, id, now);
    forall other | other in s'.rows ensures CountOk(c, s', other) {
      assert CountOk(c, s, other);
    }
    assert forall other | other in s'.posted :: UncountedOk(s, other) ==> UncountedOk(s', other);
  }

  lemma FinishedKeepsCount(c: Config, s: State, jobId: Id, id: Id, w: Work)
    requires CountInv(c, s) && PostedOk(s) && c.maxRetries >= 1
    requires id in s.jobOf && id in s.rows && Fits(s.rows, id, w, c.maxRetries)
    ensures CountInv(c, Finished(s, jobId, id, w))
  {
    StoredKeepsCount(c, s, id, w);
    SameRowsKeepCount(c, Stored(s, id, w), Finished(s, jobId, id, w));
  }

  lemma WorkKeepsCount(c: Config, s: State, jobId: Id, attempt: Attempt, now: Time, point: CrashPoint)
    requires Sane(s) && CountInv(c, s) && c.maxRetries >= 1 && jobId in s.claims
    ensures CountInv(c, Settle(c, s, jobId, attempt, now))
    ensures CountInv(c, Crash(c, s, jobId, point, attempt, now))
  {
    CrashReleases(c, s, jobId, attempt, now, point);
    SameRowsKeepCount(c, s, Crash(c, s, jobId, point, attempt, now));
    if Target(s, jobId).None? || TargetWork(c, s, jobId, attempt, now).Err? {
      SameRowsKeepCount(c, s, Settle(c, s, jobId, attempt, now));
    } else {
      TargetWorkFits(c, s, jobId, attempt, now);
      FinishedKeepsCount(c, s, jobId, ClaimedRow(s, jobId), TargetWork(c, s, jobId, attempt, now).value);
    }
  }

  lemma NextKeepsCount(c: Config, s: State, step: Step, s': State)
    requires Sane(s) && CountInv(c, s) && c.maxRetries >= 1 && Next(c, s, step, s')
    ensures CountInv(c, s')
  {
    match step
    case RequestStep(r, answer) =>
      if s' != s {
        PostingKeepsCount(c, s, r, c.registry[r.key], s', answer);
      }
    case CommitStep(id) => CommitKeepsCount(c, s, id);
    case RollbackStep(id) => SameRowsKeepCount(c, s, s');
    case CancelStep(id, now) => CancelKeepsCount(c, s, id, now);
    case ClaimStep(job) => SameRowsKeepCount(c, s, s');
    case SettleStep(jobId, attempt, now) => WorkKeepsCount(c, s, jobId, attempt, now, BeforeSettle);
    case CrashStep(jobId, point, attempt, now) => WorkKeepsCount(c, s, jobId, attempt, now, point);
    case IdleStep =>
  }

  lemma {:induction false} RunsKeepCount(c: Config, trace: seq<State>, steps: seq<Step>, i: nat)
    requires Run(c, trace, steps) && i < |trace| && c.maxRetries >= 1
    ensures CountInv(c, trace[i])
  {
    if i > 0 {
      RunsKeepCount(c, trace, steps, i - 1);
      RunsAreSane(c, trace, steps, i - 1);
      NextKeepsCount(c, trace[i - 1], steps[i - 1], trace[i]);
    }
  }

  /**
   * With at least one retry and errors that have text, a job's committed failures are counted by its row and
   * never exceed the retries plus one, and the last failure ends the row.
   */
  lemma FailuresAreBounded(c: Config, trace: seq<State>, steps: seq<Step>, i: nat, id: Id)
    requires Run(c, trace, steps) && i < |trace| && RetriesConfigured(c, steps)
    requires id in trace[i].rows && id in trace[i].jobOf
    ensures id in trace[i].failures
    ensures trace[i].failures[id] == trace[i].rows[id].retryCount <= c.maxRetries + 1
    ensures trace[i].failures[id] == c.maxRetries + 1 ==> trace[i].rows[id].status.Failed?
  {
    RunsKeepCount(c, trace, steps, i);
    assert CountOk(c, trace[i], id);
  }

  /** And then no settlement makes `process_once` raise. */
  lemma SettlementsNeverRaise(c: Config, trace: seq<State>, steps: seq<Step>, i: nat)
    requires Run(c, trace, steps) && i < |steps| && RetriesConfigured(c, steps)
    requires steps[i].SettleStep? && steps[i].jobId in trace[i].claims && Target(trace[i], steps[i].jobId).Some?
    ensures TargetWork(c, trace[i], steps[i].jobId, steps[i].attempt, steps[i].now).Ok?
  {
    var s, jobId := trace[i], steps[i].jobId;
    RunsAreSane(c, trace, steps, i);
    TargetIsActiveRow(s, jobId);
    var id := ClaimedRow(s, jobId);
    FailuresAreBounded(c, trace, steps, i, id);
    assert GivesErrorText(steps[i]);
    SettlesExactlyOneWay(s.rows[id], steps[i].attempt, Conflicts(s.rows, s.rows[id]), c.maxRetries, steps[i].now);
  }

  lemma FirstTimeoutRequeues(c: Config, s: State, r: Request, version: string, timeout: Attempt) returns (s': State)
    requires r.key != "" && version != "" && c.maxRetries == 1 && RaisesEmpty(timeout)
    requires s.rows == map[r.id := NewRow(r, version)] && s.queued == multiset{}
    requires s.claims == map[r.jobId := NewJob(r)]
    ensures s' == Settle(c, s, r.jobId, timeout, 0)
    ensures s'.queued == multiset{NewJob(r)} && s'.claims == map[] && s'.rows.Keys == {r.id}
    ensures var row := s'.rows[r.id]; RowOk(r.id, row) && row.status.Running? && row.retryCount == 1
  {
    FirstAttempt(c, s, r, version, timeout, 0);
    SettlesExactlyOneWay(NewRow(r, version), timeout, false, 1, 0);
    WritesKeepRows(NewRow(r, version), timeout, false, 1, 0);
    s' := Settle(c, s, r.jobId, timeout, 0);
  }

  lemma SecondTimeoutRaises(c: Config, s: State, r: Request, timeout: Attempt, now: Time)
    requires c.maxRetries == 1 && RaisesEmpty(timeout) && s.claims == map[r.jobId := NewJob(r)]
    requires r.id in s.rows && RowOk(r.id, s.rows[r.id])
    requires s.rows[r.id].status.Running? && s.rows[r.id].retryCount == 1
    ensures Target(s, r.jobId).Some? && TargetWork(c, s, r.jobId, timeout, now).Err?
  {
    var row := s.rows[r.id];
    LoadsExactly(row);
    SettlesExactlyOneWay(row, timeout, Conflicts(s.rows, row), 1, now);
  }

  /**
   * Errors without text, such as timeouts, break it: with one retry, a job whose attempts both time out is
   * claimed again with its row running and its retries used up, and its second attempt makes `process_once` raise.
   */
  lemma TimeoutsCanRaise(kind: string, now: Time) returns (c: Config, trace: seq<State>, steps: seq<Step>)
    ensures Run(c, trace, steps) && c.maxRetries == 1
    ensures var s := trace[|steps|];
            && 1 in s.rows && s.rows[1].status.Running? && s.rows[1].retryCount == c.maxRetries
            && 2 in s.claims && Target(s, 2).Some?
            && TargetWork(c, s, 2, Raises(Error(kind, "")), now).Err?
  {
    c := Config(map["metadata" := "1"], {7}, 1);
    var r, timeout := Request(7, "metadata", 5, 1, 2, 0, true, true), Raises(Error(kind, ""));
    trace, steps := ClaimIsReachable(c, r, "1");
    var nacked := FirstTimeoutRequeues(c, trace[|steps|], r, "1", timeout);
    RunGrows(c, trace, steps, SettleStep(2, timeout, 0), nacked);
    trace, steps := trace + [nacked], steps + [SettleStep(2, timeout, 0)];
    var claimed := Claim(nacked, NewJob(r));
    RunGrows(c, trace, steps, ClaimStep(NewJob(r)), claimed);
    trace, steps := trace + [claimed], steps + [ClaimStep(NewJob(r))];
    SecondTimeoutRaises(c, claimed, r, timeout, now);
  }

  /** Without retries the bound fails: a pending job whose first attempt fails is neither settled nor counted. */
  lemma NoRetriesAbort(row: Row, e: Error, now: Time)
    requires RowOk(row.id, row) && row.status.Pending?
    ensures ToEntity(row).Ok?
    ensures forall maxRetries: int ::
              WorkOf(ToEntity(row).value, Raises(e), false, maxRetries, now).Err? <==> maxRetries <= row.retryCount
  {
    forall maxRetries: int
      ensures WorkOf(ToEntity(row).value, Raises(e), false, maxRetries, now).Err? <==> maxRetries <= row.retryCount
    {
      SettlesExactlyOneWay(row, Raises(e), false, maxRetries, now);
    }
  }

}
