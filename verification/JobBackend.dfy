/**
 * The objects behind the job protocol: the analysis repository, the queue adapter, the analysis service
 * and the worker. Each method is proved to take a step of `JobProtocol`.
 */
module JobBackend {
  import opened Wrappers
  import opened Strings
  import opened Analyses
  import opened JobProtocol

  /** The committed rows, and those that the open sessions of requests have added. */
  class AnalysisRepository {
    var rows: map<Id, Row>
    var posted: map<Id, Row>

    method GetById(id: Id) returns (r: Result<Analysis, Error>)
      ensures r == Load(rows, id)
    {
      if id !in rows {
        return Err(Error("NotFound", "Analysis not found"));
      }
      r := ToEntity(rows[id]);
    }

    method GetCompletedAnalysis(t: Triple) returns (r: Option<Id>)
      ensures r.Some? ==> CompletedFor(rows, t, r.value)
      ensures r.None? ==> forall id :: !CompletedFor(rows, t, id)
    {
      if exists id | id in rows :: CompletedFor(rows, t, id) {
        var id :| id in rows && CompletedFor(rows, t, id);
        r := Some(id);
      } else {
        r := None;
      }
    }

    method Create(a: Analysis, now: Time)
      modifies this`posted
      ensures posted == old(posted)[a.id := ToRow(a, now)]
    {
      posted := posted[a.id := ToRow(a, now)];
    }

    method Delete(id: Id)
      modifies this`posted
      ensures posted == old(posted) - {id}
    {
      posted := posted - {id};
    }

    /** The end of a request's session without an exception. */
    method Commit(id: Id)
      requires id in posted
      modifies this
      ensures rows == old(rows)[id := old(posted)[id]] && posted == old(posted) - {id}
    {
      rows, posted := rows[id := posted[id]], posted - {id};
    }

    /** The end of a request's session with an exception. */
    method Rollback(id: Id)
      modifies this`posted
      ensures posted == old(posted) - {id}
    {
      posted := posted - {id};
    }

    /** Assigns columns blindly; the unique index rejects a second completed row of a triple. */
    method Update(id: Id, u: Updates) returns (r: Result<(), Error>)
      modifies this`rows
      ensures id !in old(rows) ==> r.Err? && rows == old(rows)
      ensures id in old(rows) && u.status.Completed? && Conflicts(old(rows), old(rows)[id]) ==>
                r == Err(AlreadyExists) && rows == old(rows)
      ensures id in old(rows) && !(u.status.Completed? && Conflicts(old(rows), old(rows)[id])) ==>
                r.Ok? && rows == old(rows)[id := Write(old(rows)[id], u)]
    {
      if id !in rows {
        return Err(Error("NotFound", "Analysis not found"));
      }
      if u.status.Completed? && Conflicts(rows, rows[id]) {
        return Err(AlreadyExists);
      }
      rows := rows[id := Write(rows[id], u)];
      r := Ok(());
    }

    /** Discards what a worker's session wrote since `committed`. */
    method Discard(committed: map<Id, Row>)
      modifies this`rows
      ensures rows == committed
    {
      rows := committed;
    }
  }

  class JobQueue {
    var queued: multiset<Job>
    var claims: map<Id, Job>
    ghost var acked: multiset<Job>
    ghost var published: multiset<Job>

    method Publish(jobId: Id, analysisId: Id, reachable: bool) returns (r: Result<Job, Error>)
      modifies this
      ensures claims == old(claims) && acked == old(acked)
      ensures r.Ok? <==> reachable
      ensures r.Ok? ==> && r.value == Job(jobId, Some(analysisId))
                        && queued == old(queued) + multiset{r.value}
                        && published == old(published) + multiset{r.value}
      ensures r.Err? ==> queued == old(queued) && published == old(published)
    {
      if !reachable {
        return Err(Error("OperationalError", "broker unreachable"));
      }
      var job := Job(jobId, Some(analysisId));
      queued := queued + multiset{job};
      published := published + multiset{job};
      r := Ok(job);
    }

    method Claim() returns (r: Option<Job>)
      modifies this
      ensures acked == old(acked) && published == old(published)
      ensures r.None? ==> old(queued) == multiset{} && queued == old(queued) && claims == old(claims)
      ensures r.Some? ==> && r.value in old(queued)
                          && queued == old(queued) - multiset{r.value}
                          && claims == old(claims)[r.value.id := r.value]
    {
      if queued == multiset{} {
        return None;
      }
      var job :| job in queued;
      queued := queued - multiset{job};
      claims := claims[job.id := job];
      r := Some(job);
    }

    method PopClaim(jobId: Id) returns (r: Option<Job>)
      modifies this
      ensures queued == old(queued) && acked == old(acked) && published == old(published)
      ensures claims == if jobId in old(claims) then old(claims) - {jobId} else old(claims)
      ensures r == if jobId in old(claims) then Some(old(claims)[jobId]) else None
    {
      r := None;
      if jobId in claims {
        r := Some(claims[jobId]);
        claims := claims - {jobId};
      }
    }

    method Ack(jobId: Id)
      modifies this
      ensures queued == old(queued) && published == old(published)
      ensures claims == if jobId in old(claims) then old(claims) - {jobId} else old(claims)
      ensures acked == if jobId in old(claims) then old(acked) + multiset{old(claims)[jobId]} else old(acked)
    {
      var claim := PopClaim(jobId);
      if claim.Some? {
        acked := acked + multiset{claim.value};
      }
    }

    method Nack(jobId: Id)
      modifies this
      ensures acked == old(acked) && published == old(published)
      ensures claims == if jobId in old(claims) then old(claims) - {jobId} else old(claims)
      ensures queued == if jobId in old(claims) then old(queued) + multiset{old(claims)[jobId]} else old(queued)
    {
      var claim := PopClaim(jobId);
      if claim.Some? {
        queued := queued + multiset{claim.value};
      }
    }
  }

  /** History that no object stores. */
  class Ledger {
    ghost var stranded: set<Id>
    ghost var jobOf: map<Id, Job>
    ghost var failures: map<Id, nat>

    ghost method CountFailure(id: Id)
      modifies this`failures
      ensures failures == old(failures)[id := if id in old(failures) then old(failures)[id] + 1 else 1]
    {
      failures := failures[id := if id in failures then failures[id] + 1 else 1];
    }
  }

  ghost function Snapshot(repo: AnalysisRepository, queue: JobQueue, ledger: Ledger): State
    reads repo, queue, ledger
  {
    State(repo.rows, repo.posted, queue.queued, queue.claims, queue.acked, queue.published,
          ledger.stranded, ledger.jobOf, ledger.failures)
  }

  class AnalysisService {
    const repo: AnalysisRepository
    const queue: JobQueue
    const config: Config
    const ledger: Ledger

    constructor (repo: AnalysisRepository, queue: JobQueue, config: Config, ledger: Ledger)
      ensures this.repo == repo && this.queue == queue && this.config == config && this.ledger == ledger
    {
      this.repo, this.queue, this.config, this.ledger := repo, queue, config, ledger;
    }

    ghost function Now(): State
      reads repo, queue, ledger
    {
      Snapshot(repo, queue, ledger)
    }

    /** The rest of a request: creates the pending row and publishes its job, or cleans the row up. */
    method CreateAndPublish(r: Request, version: string) returns (answer: Response)
      requires Fresh(Now(), r)
      modifies repo, queue, ledger
      ensures Posts(old(Now()), r, version, Now(), answer)
    {
      ghost var before := Now();
      var analysis := NewAnalysis(r, version);
      repo.Create(analysis, r.now);
      var job := queue.Publish(r.jobId, analysis.id, r.publishes);
      if job.Err? {
        if r.deletes {
          repo.Delete(analysis.id);
          assert repo.posted == before.posted;
        } else {
          ledger.stranded := ledger.stranded + {r.id};
        }
        answer := PublicationFailed;
      } else {
        ledger.jobOf := ledger.jobOf[r.id := job.value];
        ledger.failures := ledger.failures[r.id := 0];
        answer := Created(r.id);
      }
    }

    method RequestAnalysis(r: Request) returns (answer: Response)
      requires Fresh(Now(), r)
      modifies repo, queue, ledger
      ensures Requested(config, old(Now()), r, Now(), answer)
    {
      if r.key !in config.registry {
        return AnalyzerNotFound;
      }
      var version := config.registry[r.key];
      if r.assetId !in config.assets {
        return AssetNotFound;
      }
      var existing := repo.GetCompletedAnalysis(Triple(r.assetId, r.key, version));
      if existing.Some? {
        return Existing(existing.value);
      }
      answer := CreateAndPublish(r, version);
    }

    /**
     * A request in its session, which commits when the service answers and rolls back when it raises. Other
     * sessions may act between the service's answer and the commit.
     */
    method RequestInSession(r: Request) returns (answer: Response, ghost trace: seq<State>, ghost steps: seq<Step>)
      requires Fresh(Now(), r)
      modifies repo, queue, ledger
      ensures |trace| == |steps| + 1 && trace[0] == old(Now()) && trace[|steps|] == Now()
      ensures forall i | 0 <= i < |steps| :: Next(config, trace[i], steps[i], trace[i + 1])
      ensures steps != [] && steps[0] == RequestStep(r, answer)
      ensures forall i | 0 <= i < |steps| && steps[i].CommitStep? :: steps[i].committed !in trace[i].stranded
      ensures r.id !in repo.posted
    {
      ghost var before := Now();
      answer := RequestAnalysis(r);
      ghost var answered := Now();
      trace, steps := [before, answered], [RequestStep(r, answer)];
      if r.id in repo.posted {
        if answer.PublicationFailed? {
          repo.Rollback(r.id);
          trace, steps := [before, answered, Now()], [RequestStep(r, answer), RollbackStep(r.id)];
        } else {
          repo.Commit(r.id);
          trace, steps := [before, answered, Now()], [RequestStep(r, answer), CommitStep(r.id)];
        }
      }
    }

    method CancelAnalysis(id: Id, now: Time) returns (r: Result<Row, Error>)
      modifies repo`rows
      ensures r == CancelRow(old(repo.rows), id, now)
      ensures Now() == Cancelling(old(Now()), id, now)
    {
      var analysis := repo.GetById(id);
      if analysis.Err? {
        return Err(if id in repo.rows then analysis.error else Error("AnalysisNotFoundError", analysis.error.text));
      }
      var cancelled := Analyses.Cancel(analysis.value, now);
      if cancelled.Err? {
        return Err(Error("InvalidAnalysisStateError", "cannot cancel analysis"));
      }
      var updated := repo.Update(id, CancelUpdates(cancelled.value));
      r := Ok(repo.rows[id]);
    }
  }

  function Counted(s: State, id: Id, u: Updates): State
    requires id in s.rows
  {
    s.(rows := s.rows[id := Write(s.rows[id], u)],
       failures := s.failures[id := if id in s.failures then s.failures[id] + 1 else 1])
  }

  /** Counting and storing a failure on top of the first write is storing the failed work. */
  lemma FailureIsStored(before: State, begun: State, id: Id, first: Option<Updates>, h: Handling)
    requires id in before.rows
    requires begun == before.(rows := before.rows[id := WriteMaybe(before.rows[id], first)])
    ensures h.Retry? ==>
              Counted(begun, id, h.updates) == Stored(before, id, JobProtocol.Work(first, h.updates, Nacked, true))
    ensures h.GiveUp? ==>
              Counted(begun, id, h.updates) == Stored(before, id, JobProtocol.Work(first, h.updates, Acked, true))
  {
    if !h.Propagate? {
      var row := Write(WriteMaybe(before.rows[id], first), h.updates);
      assert begun.rows[id := row] == before.rows[id := row];
    }
  }

  /** Storing `start` neither makes nor removes a conflict. */
  lemma StartKeepsConflicts(rows: map<Id, Row>, id: Id, started: Row)
    requires id in rows && rows[id].id == id && started.id == id
    requires TripleOf(started) == TripleOf(rows[id])
    ensures Conflicts(rows[id := started], started) <==> Conflicts(rows, rows[id])
  {
    var t := TripleOf(started);
    var rows' := rows[id := started];
    assert forall other | other != id :: CompletedFor(rows', t, other) == CompletedFor(rows, t, other);
    assert rows'.Keys == rows.Keys;
  }

  class AnalysisWorker {
    const repo: AnalysisRepository
    const queue: JobQueue
    const config: Config
    const ledger: Ledger

    constructor (repo: AnalysisRepository, queue: JobQueue, config: Config, ledger: Ledger)
      ensures this.repo == repo && this.queue == queue && this.config == config && this.ledger == ledger
    {
      this.repo, this.queue, this.config, this.ledger := repo, queue, config, ledger;
    }

    ghost function Now(): State
      reads repo, queue, ledger
    {
      Snapshot(repo, queue, ledger)
    }

    /** The guarded part from the analyzer's return on, with its last update. */
    method Finish(running: Analysis, attempt: Attempt, now: Time) returns (r: Result<(), Error>)
      requires running.id in repo.rows
      modifies repo`rows
      ensures var end := Conclude(running, attempt, Conflicts(old(repo.rows), old(repo.rows)[running.id]), now);
              && (r.Ok? <==> end.Ok?)
              && (r.Err? ==> r.error == end.error && repo.rows == old(repo.rows))
              && (r.Ok? ==> repo.rows ==
                              old(repo.rows)[running.id := Write(old(repo.rows)[running.id], end.value)])
    {
      match attempt
      case Raises(e) => r := Err(e);
      case Returns(result) =>
        if Lower(result.verdict) == "failed" {
          if !result.evidence.Object? {
            return Err(NoGetAttribute);
          }
          var failed := Fail(running, ResultErrorMessage(result), "ANALYZER_FAILED", now);
          if failed.Err? {
            return Err(failed.error);
          }
          r := repo.Update(running.id, FailedResultUpdates(failed.value, result));
        } else {
          var completed := Complete(running, result, now);
          if completed.Err? {
            return Err(completed.error);
          }
          r := repo.Update(running.id, CompletedUpdates(completed.value, result));
        }
    }

    /** Stores a failure that is retried or given up, and answers the broker. */
    method StoreFailure(jobId: Id, id: Id, u: Updates, requeue: bool)
      requires id in repo.rows && !u.status.Completed?
      modifies repo, queue, ledger
      ensures ledger.stranded == old(ledger.stranded) && ledger.jobOf == old(ledger.jobOf)
      ensures Now() == if requeue then Nack(Counted(old(Now()), id, u), jobId)
                       else Ack(Counted(old(Now()), id, u), jobId)
    {
      var _ := repo.Update(id, u);
      if requeue {
        queue.Nack(jobId);
      } else {
        queue.Ack(jobId);
      }
      ledger.CountFailure(id);
    }

    /** `_handle_failure` for a loaded analysis; an error is the exception that `fail` raises. */
    method HandleFailure(jobId: Id, analysis: Analysis, e: Error, now: Time) returns (r: Result<(), Error>)
      requires analysis.id in repo.rows
      modifies repo, queue, ledger
      ensures ledger.stranded == old(ledger.stranded) && ledger.jobOf == old(ledger.jobOf)
      ensures match JobProtocol.HandleFailure(analysis, e, config.maxRetries, now)
              case Propagate(raised) => r == Err(raised) && Now() == old(Now())
              case Retry(u) => r.Ok? && Now() == Nack(Counted(old(Now()), analysis.id, u), jobId)
              case GiveUp(u) => r.Ok? && Now() == Ack(Counted(old(Now()), analysis.id, u), jobId)
    {
      var next := analysis.retryCount + 1;
      if next <= config.maxRetries {
        StoreFailure(jobId, analysis.id, RetryUpdates(next, e, now), true);
        return Ok(());
      }
      var failed := Fail(analysis, e.text, e.kind, now);
      if failed.Err? {
        return Err(failed.error);
      }
      StoreFailure(jobId, analysis.id, GiveUpUpdates(failed.value, next), false);
      r := Ok(());
    }

    /** The guarded part of `process_once` after the load. */
    method Work(analysis: Analysis, attempt: Attempt, now: Time) returns (r: Result<(), Error>)
      requires analysis.id in repo.rows && repo.rows[analysis.id].id == analysis.id
      modifies repo`rows
      ensures var row := old(repo.rows)[analysis.id];
              var first := WriteMaybe(row, FirstUpdates(analysis, now));
              var end := EndOf(analysis, attempt, Conflicts(old(repo.rows), row), now);
              && (r.Ok? <==> end.Ok?)
              && (r.Err? ==> r.error == end.error && repo.rows == old(repo.rows)[analysis.id := first])
              && (r.Ok? ==> repo.rows == old(repo.rows)[analysis.id := Write(first, end.value)])
    {
      ghost var before := repo.rows;
      var running := analysis;
      if analysis.status.Pending? {
        var started := Start(analysis, now);
        if started.Err? {
          return Err(started.error);
        }
        running := started.value;
        var _ := repo.Update(analysis.id, StartUpdates(running));
        StartKeepsConflicts(before, analysis.id, repo.rows[analysis.id]);
      }
      r := Finish(running, attempt, now);
    }

    method ProcessLoaded(job: Job, analysis: Analysis, attempt: Attempt, now: Time) returns (r: Result<(), Error>)
      requires job.payload == Some(analysis.id)
      requires analysis.id in repo.rows && repo.rows[analysis.id].id == analysis.id
      modifies repo, queue, ledger
      ensures var w := WorkOf(analysis, attempt, Conflicts(old(repo.rows), old(repo.rows)[analysis.id]),
                              config.maxRetries, now);
              && (r.Ok? <==> w.Ok?)
              && (r.Ok? ==> Now() == Finished(old(Now()), job.id, analysis.id, w.value))
              && (r.Err? ==> Now() == old(Now()).(rows := repo.rows))
    {
      ghost var before := Now();
      r := Work(analysis, attempt, now);
      ghost var first := FirstUpdates(analysis, now);
      if r.Ok? {
        queue.Ack(job.id);
      } else {
        ghost var begun := Now();
        ghost var handling := JobProtocol.HandleFailure(analysis, r.error, config.maxRetries, now);
        FailureIsStored(before, begun, analysis.id, first, handling);
        r := HandleFailure(job.id, analysis, r.error, now);
      }
    }

    /** Works one claimed job to its end; when it raises, nothing it wrote is committed. */
    method ProcessJob(job: Job, attempt: Attempt, now: Time) returns (r: Result<(), Error>)
      requires job.id in queue.claims && queue.claims[job.id] == job
      requires forall id | id in repo.rows :: repo.rows[id].id == id
      modifies repo, queue, ledger
      ensures Now() == Settle(config, old(Now()), job.id, attempt, now)
      ensures r.Err? <==> && Target(old(Now()), job.id).Some?
                          && TargetWork(config, old(Now()), job.id, attempt, now).Err?
    {
      var committed := repo.rows;
      if job.payload.None? {
        queue.Ack(job.id);
        return Ok(());
      }
      var loaded := repo.GetById(job.payload.value);
      if loaded.Err? || Terminal(loaded.value.status) {
        queue.Ack(job.id);
        return Ok(());
      }
      r := ProcessLoaded(job, loaded.value, attempt, now);
      if r.Err? {
        repo.Discard(committed);
      }
    }

    /** `process_once`: claims a job, if there is one, and settles it. */
    method ProcessOnce(attempt: Attempt, now: Time)
      returns (received: bool, r: Result<(), Error>, ghost steps: seq<Step>)
      requires forall id | id in repo.rows :: repo.rows[id].id == id
      modifies repo, queue, ledger
      ensures !received ==> old(queue.queued) == multiset{} && Now() == old(Now()) && steps == [] && r.Ok?
      ensures received ==> && |steps| == 2 && steps[0].ClaimStep? && steps[0].job in old(queue.queued)
                           && steps[1] == SettleStep(steps[0].job.id, attempt, now)
                           && Now() == Settle(config, Claim(old(Now()), steps[0].job), steps[0].job.id, attempt, now)
    {
      var job := queue.Claim();
      if job.None? {
        return false, Ok(()), [];
      }
      steps := [ClaimStep(job.value), SettleStep(job.value.id, attempt, now)];
      received := true;
      r := ProcessJob(job.value, attempt, now);
    }
  }
}
