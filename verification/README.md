# Sentinel backend: a verified model of its protocols

Sentinel is a backend that takes files in, stores each content once, and runs analyzers over them. This
project models the parts of it whose correctness depends on several steps working together, in Dafny, and
proves what those parts are for. `dafny verify dfyconfig.toml` checks all of it.

Where the program changes state step by step, the model does too: repositories, queue, object store, services
and workers are classes whose methods update fields. Each such method is proved to take exactly a step (or a
path of steps) of a state machine written as pure functions, and the theorems are about all runs of that
machine: every interleaving of requests, workers, crashes and cleanups. What a request writes stays in its
database session until the session commits, and is gone when it rolls back; the three protocols all model that.
Entities, row mappings, parsers and signature matching are pure in the program and are functions here.

| files | what they model |
|---|---|
| `Analysis.dfy` | the analysis entity, its lifecycle, the `analyses` row and the mapping between the two |
| `JobProtocol.dfy`, `JobTheorems.dfy` | requests, the commits of their sessions, cancellations, the broker queue, workers that claim, run, retry and settle jobs, workers that stop before they settle or before they commit; the theorems |
| `JobInterleaving.dfy` | the same with the loads and the blind stores of workers and cancellations apart |
| `JobBackend.dfy` | the repository, queue, service and worker objects |
| `TokenRotation.dfy`, `AuthBackend.dfy` | login, refresh-token rotation, logout and deactivation, each in interruptible steps up to its commit; the objects |
| `FileValidation.dfy`, `Multipart.dfy`, `Streaming.dfy` | content validation, the part layout, and the pipeline sniffer, replay, hashing tee, multipart upload |
| `ContentStore.dfy`, `ContentTheorems.dfy`, `UploadBackend.dfy` | content-addressed uploads with the commit or rollback of their sessions, and the abandoned-upload cleanup, step by step; the theorems; the objects |
| `RateLimit.dfy` | the fixed-window limiter over Redis counters that expire |
| `Jpeg.dfy`, `Redaction.dfy`, `QueryParams.dfy` | the JPEG marker walk, log redaction, the two query-parameter parsers and printers |
| `Wrappers.dfy`, `Strings.dfy` | optional values, results, and the Python string operations in use |

## What was found

Some statements one would expect of the program, or that its own documentation makes, do not hold of its code
as they stand. The model follows the code; each such statement is shown to fail by a run or an input, and
replaced by the exact condition under which it holds.

- *Every active analysis has a job.* A request publishes its job before its session commits: a worker that
  settles the job in between finds no row and acknowledges. A worker acknowledges before its own session commits:
  one that stops in between leaves the row as it was. Either row then waits for ever. A visible active row has its
  one job if and only if neither happened to it (`ActiveRowsHaveOneJob`, `JoblessRowsWaitForever`,
  `OvertakenRequestIsReachable`, `AbandonedRowIsReachable`).
- *Ended analyses stay as they are, and a cancellation is final.* Workers and cancellations load a row and later
  store blindly. A run in which every store finds its row still active is a run of atomic steps
  (`InterleavedRunsAreAtomic`), and in it ended rows never change. A worker's store that finds its row ended
  undoes a cancellation and leaves a row that loads exactly when the worker ended it; a cancellation's store
  that finds its row ended overwrites the result (`StoreUndoesCancellation`, `CancellationOverwritesEnd`,
  `StaleStoresAreReachable`).
- *A job is settled by every attempt.* Not when the retries are used up and the analysis was still pending or
  the error has no text, as a timeout has none: the failure handler then raises (`SettlesExactlyOneWay`,
  `TimeoutsCanRaise`). With at least one retry and errors that have text no settlement raises
  (`SettlementsNeverRaise`), as far as the repository's contracts say: where a completion that the unique index
  rejects leaves the database session unusable, the handler's own update raises too, and the job is delivered
  again and conflicts again.
- *Each failure counts.* A failed job is requeued before its failure is committed; a worker that claims it in
  between counts the two failures as one (`EarlyClaimHidesFailure`).
- *Any number of uploads of one content leave one asset and one object.* An upload that looks for the content while
  another session has missed it too, or has created the asset and not committed it, can be rejected: its row is
  then gone with its session, and its object stays for ever, with a healthy store and database
  (`RacingUploadsLeaveAnOrphan`, `OrphansAreForEver`). The statement holds when no find overlaps another session
  in that way and nothing fails (`EachContentIsStoredOnce`), and every such overlap has a continuation that leaves
  an orphan (`OverlapLeavesAnOrphan`). An object is orphaned exactly by a rejected asset, a failed delete or insert,
  or the rollback of a session that holds one (`OrphansComeFrom`).
- *Failed uploads are marked failed, and the cleanup removes what abandoned ones left.* The row of an upload is
  pending, processing or failed only inside its session, which commits a completed row or nothing
  (`CommittedUploadsAreCompleted`). So a failure that the service writes is rolled back with the exception that it
  raises again, the cleanup lists only rows that were there from the beginning (`CleanupListsOldRows`), it never
  deletes an object (`CleanupRemovesNoObject`), and no row leads to the object of an upload that stopped.
- *A deactivated user has no unrevoked token.* Revoking all tokens skips expired ones, so a revocation that nothing
  overtakes leaves one exactly when one had expired unrevoked (`RevocationRevokesUnexpiredTokens`). A usable
  session can survive exactly when, at the commit of the deactivation, the user has a live token that was committed
  after the selection of the tokens, or a login between its check and its insert, or a refresh under way on an
  unrevoked token that was not selected, and not written with an expiry that has passed
  (`DeactivatedUsersHaveNoSessions`, `OvertakenDeactivationLeavesSession`). All three are reachable (`LeftOutTokenIsReachable`, which is so for a
  logout of all devices too, `LateLoginIsReachable`, `LateRefreshIsReachable`).
- *Every UTF-8 text passes as text/plain.* One whose 16-byte window cuts a character is refused, and no other
  valid text is (`WindowOfValidText`, `SomeValidTextIsRefused`).
- *The limiter admits `limit` requests in 60 seconds.* It does so for a window exactly when the window lies
  within one minute (`LimitHoldsExactlyWithinAMinute`). Every window can be filled with the limit for each minute
  that it meets, and not beyond, so 60 seconds can admit twice the limit (`WindowIsFilled`, `WindowBound`).
- *Printing and parsing a sort parameter is idempotent.* Exactly when the string has a colon or is trimmed
  (`SortNormalForm`).

## Model

| member | source | states |
|---|---|---|
| Analyses.Lifecycle | backend/app/domain/entities/analysis.py:89-153 | which transition succeeds from which state and with which message, and the status, times, result and error each one sets; terminal analyses reject all four; results are valid entities with the same identity and retry count |
| Analyses.LoadsExactly | backend/app/infrastructure/database/repositories/analysis.py:273-356 | a row loads as an entity if and only if a condition on its columns holds; every other defect is repaired by the mapping's defaults; identity, status and retry count survive |
| Analyses.NewAnalysisLoadsBack | backend/app/infrastructure/database/repositories/analysis.py:228-356 | writing a pending analysis and loading it gives the same entity, created at the server's time |
| Analyses.CompletedRowKeepsResult | backend/app/workers/analysis_worker/worker.py:202-224 | completing a running row and loading it gives the analyzer's evidence, confidence and recommendation with the verdict in upper case; the severity column holds the verdict or nothing |
| JobTheorems.SettlesExactlyOneWay | backend/app/workers/analysis_worker/worker.py:70-161 | an attempt either ends the row and acknowledges, or leaves it running with one more retry and requeues, or raises, and exactly when each happens |
| JobTheorems.WritesKeepRows | backend/app/workers/analysis_worker/worker.py:70-102 | both writes of an attempt keep the row loadable, its asset, analyzer and version, its requester and its creation time |
| JobTheorems.ErrorsAreRecorded | backend/app/workers/analysis_worker/worker.py:130-156 | an attempt that raises leaves the text and class of its error on the row, retried or given up |
| JobTheorems.AnswersAreRecorded | backend/app/workers/analysis_worker/worker.py:88-102 | a failed result leaves its payload, a message and the code ANALYZER_FAILED; a completed row keeps the message of an earlier retry |
| JobTheorems.CancelsExactlyActiveRows | backend/app/application/services/analysis_service.py:332-356 | a cancellation succeeds exactly on loadable pending or running rows and changes status and times only |
| JobTheorems.NewRowLoadsAsRequested | backend/app/application/services/analysis_service.py:222-234 | the row a request creates loads as a pending analysis of the requested asset, analyzer and version, by the requester, with no result and no retries |
| JobTheorems.RequestKeepsInv | backend/app/application/services/analysis_service.py:169-259 | a request, whatever the broker and the compensating delete do, keeps the protocol invariant; its row is not visible yet |
| JobTheorems.SessionEndKeepsInv | backend/app/infrastructure/database/session.py:148-153 | the commit that makes a request's row visible, and the rollback that forgets it, keep the protocol invariant |
| JobTheorems.WorkKeepsInv | backend/app/workers/analysis_worker/worker.py:56-161 | settling a claimed job with its commit, or stopping before it is settled or before it is committed, keeps the protocol invariant |
| JobTheorems.NextKeepsInv | backend/app/workers/analysis_worker/worker.py:56-161 | every step of the protocol keeps its invariant: loadable rows, unique completions, known jobs, conserved messages |
| JobTheorems.RunsKeepInv | backend/app/workers/analysis_worker/worker.py:56-161 | the invariant holds in every state of every run |
| JobTheorems.ActiveRowsHaveOneJob | backend/app/application/services/analysis_service.py:222-259 | in every reachable state a visible pending or running row has exactly one outstanding job if and only if no settlement of its job preceded the commit of its row and no worker stopped between acknowledging it and committing, and none otherwise |
| JobTheorems.JobsAreConserved | backend/app/infrastructure/queue/redis_queue.py:37-110 | published jobs are those queued, claimed or acknowledged, as multisets, and every outstanding job is outstanding once |
| JobTheorems.JobsHaveRows | backend/app/application/services/analysis_service.py:233-242 | the row of every published job is visible, or its session is still open or was rolled back |
| JobTheorems.JoblessRowsWaitForever | backend/app/workers/analysis_worker/worker.py:56-128 | a row whose job was settled before its commit, or by a worker that never committed, has no job again and changes only if it is cancelled |
| JobTheorems.OvertakenRequestIsReachable | backend/app/workers/analysis_worker/worker.py:125-128 | a run that ends with such a row pending and no message anywhere |
| JobTheorems.AbandonedRowIsReachable | backend/app/workers/analysis_worker/__main__.py:125-146 | and one in which a worker completes the analysis, acknowledges and stops before its commit |
| JobTheorems.NothingStranded | backend/app/application/services/analysis_service.py:236-259 | if compensating deletes succeed, no failed publish ever leaves a row without a job |
| JobTheorems.RollbackHidesStrandedRows | backend/app/infrastructure/database/session.py:148-153 | if the sessions of failed requests are rolled back, none does even when the deletes fail |
| JobTheorems.TerminalRowsAreAbsorbing | backend/app/domain/entities/analysis.py:79-108 | over runs of atomic steps, a terminal row is the same row, column for column, in every later state |
| JobTheorems.ReachableRowsLoad | backend/app/infrastructure/database/repositories/analysis.py:288-356 | every row that a run produces loads as a valid entity, and a retried row is not pending |
| JobTheorems.AtMostOneCompleted | backend/app/models/analysis.py:434-441 | whatever is in flight together, at most one row of an asset, analyzer and version is completed |
| JobTheorems.QuiescentRowsAreSettled | backend/app/workers/analysis_worker/worker.py:98-109 | once no job is outstanding, every row that did not lose its job is ended, and every one but the completed row of its triple is failed or cancelled |
| JobTheorems.CompletedAnswersLaterRequests | backend/app/application/services/analysis_service.py:185-220 | once a row is completed, every later request for its triple returns that row and changes nothing |
| JobTheorems.FailuresAreBounded | backend/app/workers/analysis_worker/worker.py:118-161 | with at least one retry and errors that have text, at most `max_retries + 1` failures of a job are committed, its row counts them, and the last one ends the row |
| JobTheorems.SettlementsNeverRaise | backend/app/workers/analysis_worker/worker.py:130-161 | and then no settlement raises, where a rejected completion leaves the database session usable |
| JobTheorems.TimeoutsCanRaise | backend/app/workers/analysis_worker/worker.py:130-161 | a run with one retry in which the second timeout of a job, whose error has no text, makes the handler raise |
| JobInterleaving.StepIsAtomic | backend/app/workers/analysis_worker/worker.py:65-102 | a load or a blind store that finds its row still active is a step of the atomic protocol |
| JobInterleaving.InterleavedRunsAreAtomic | backend/app/workers/analysis_worker/worker.py:65-102 | a run of loads and stores in any order, whose stores all find their row active, is step by step a run of the atomic protocol |
| JobInterleaving.EndedRowsStayEnded | backend/app/workers/analysis_worker/worker.py:65-102 | so in it ended rows stay the same and every row loads |
| JobInterleaving.InterleavedCancelIsLost | backend/app/application/services/analysis_service.py:345-356 | a cancellation between the worker's load and its first write, or between its two writes, is always overwritten, and the row then loads exactly when the worker ended the analysis |
| JobInterleaving.StoreUndoesCancellation | backend/app/workers/analysis_worker/worker.py:88-102 | in any run, the first worker's store that finds its row ended finds it cancelled and undoes the cancellation, or raises and changes nothing |
| JobInterleaving.CancellationOverwritesEnd | backend/app/application/services/analysis_service.py:332-356 | in any run, the first cancellation's store that finds its row ended cancels it; if it was completed, no request finds a completed row of its triple any more |
| JobInterleaving.EarlyClaimHidesFailure | backend/app/workers/analysis_worker/__main__.py:125-146 | a worker that loads a requeued row before the failure is committed counts both failures as one |
| JobInterleaving.StaleStoresAreReachable | backend/app/application/services/analysis_service.py:332-356 | a run that ends with a worker and a cancellation that both hold a stale row |
| JobBackend.AnalysisRepository.GetById | backend/app/infrastructure/database/repositories/analysis.py:273-356 | the entity the row maps to, or not-found |
| JobBackend.AnalysisRepository.GetCompletedAnalysis | backend/app/application/services/analysis_service.py:186-190 | a completed row of the triple if there is one, else none |
| JobBackend.AnalysisRepository.Update | backend/app/models/analysis.py:434-441 | assigns the columns whatever the row holds, unless that makes a second completed row of its triple, which changes nothing |
| JobBackend.JobQueue.Publish | backend/app/infrastructure/queue/redis_queue.py:37-47 | a new message with a drawn id, or an error and no message |
| JobBackend.JobQueue.Claim | backend/app/infrastructure/queue/redis_queue.py:58-86 | moves one message from the queue to the claims, or finds none |
| JobBackend.JobQueue.PopClaim | backend/app/infrastructure/queue/redis_queue.py:108-110 | removes and returns the claim, if held |
| JobBackend.JobQueue.Ack | backend/app/infrastructure/queue/redis_queue.py:88-96 | a held claim becomes acknowledged; an unknown one changes nothing |
| JobBackend.JobQueue.Nack | backend/app/infrastructure/queue/redis_queue.py:98-106 | a held claim goes back to the queue; an unknown one changes nothing |
| JobBackend.AnalysisService.RequestAnalysis | backend/app/application/services/analysis_service.py:169-259 | registry and asset checks, the idempotent answer, or the creation, in this order and with these answers |
| JobBackend.AnalysisService.CreateAndPublish | backend/app/application/services/analysis_service.py:222-259 | the pending row with its published job, or a failed publish whose row is deleted again if it can be |
| JobBackend.AnalysisService.RequestInSession | backend/app/infrastructure/database/session.py:135-155 | a request with the end of its session is two steps of the protocol or one, and commits no row whose publish failed |
| JobBackend.AnalysisService.CancelAnalysis | backend/app/application/services/analysis_service.py:332-356 | an active row is cancelled; a missing, ended or unloadable one gives its error and no change |
| JobBackend.AnalysisWorker.Finish | backend/app/workers/analysis_worker/worker.py:88-102 | from the analyzer's return to the last update, or the exception raised and no update |
| JobBackend.AnalysisWorker.HandleFailure | backend/app/workers/analysis_worker/worker.py:118-161 | retry and nack, give up and ack, or the exception that `fail` raises with nothing changed |
| JobBackend.AnalysisWorker.Work | backend/app/workers/analysis_worker/worker.py:70-102 | the start update and the last one, or the start update and an exception |
| JobBackend.AnalysisWorker.ProcessLoaded | backend/app/workers/analysis_worker/worker.py:70-109 | whatever the row holds by now, the protected part with its failure handler stores what was decided from the loaded analysis |
| JobBackend.AnalysisWorker.ProcessJob | backend/app/workers/analysis_worker/worker.py:62-109 | a claimed job without an active visible row is acknowledged, any other is worked; it raises exactly when the work does, and then commits nothing |
| JobBackend.AnalysisWorker.ProcessOnce | backend/app/workers/analysis_worker/worker.py:56-109 | claims a job if there is one and settles it: two steps of the protocol, or none on an empty queue |
| JobBackend.FailureIsStored | backend/app/workers/analysis_worker/worker.py:118-161 | the handler's write on top of the start write is the failed work of the protocol |
| JobBackend.StartKeepsConflicts | backend/app/models/analysis.py:434-441 | storing `start` neither makes nor removes a violation of the unique index |
| TokenRotation.LoginKeepsTokens | backend/app/application/services/auth_service.py:312-363 | a login starts a new lineage and keeps every other |
| TokenRotation.RotationKeepsTokens | backend/app/application/services/auth_service.py:481-536 | the commit of a rotation extends one lineage by one token and keeps every other |
| TokenRotation.NextKeepsInv | backend/app/application/services/auth_service.py:396-570 | every step of every operation keeps the invariant of lineages and of written rotations: each holds an unrevoked token alone |
| TokenRotation.RunsKeepInv | backend/app/application/services/auth_service.py:396-570 | it holds in every state of every run |
| TokenRotation.RotationIsAChain | backend/app/application/services/auth_service.py:481-549 | over any schedule of concurrent refreshes, each token wins at most one refresh; each login's tokens form a chain with at most one unrevoked token and one token more than its successful refreshes |
| TokenRotation.RevocationIsPermanent | backend/app/domain/repositories/refresh_token.py:380-405 | no committed step undoes a revocation, deletes a token or changes its user or expiry |
| TokenRotation.RevokedTokensAreNeverRefreshed | backend/app/application/services/auth_service.py:495-505 | a revoked token wins no later compare-and-set, not even for a refresh that read it before, and no rotation of it commits |
| TokenRotation.IssuedTokensAreLive | backend/app/application/services/auth_service.py:336-363 | a token that login or refresh issues is new, belongs to its user, has the expiry chosen for it, is unrevoked and the newest of its login |
| TokenRotation.SessionsSurviveRotation | backend/app/application/services/auth_service.py:460-536 | until a logout or a deactivation ends it, a login has exactly one unrevoked token, its newest, after any number of refreshes, lost races and failed inserts |
| TokenRotation.NextKeepsSessions | backend/app/application/services/user_service.py:187-199 | every step but a deactivation that was overtaken keeps deactivated users without usable sessions |
| TokenRotation.DeactivatedUsersHaveNoSessions | backend/app/application/services/user_service.py:187-199 | in every run none of whose deactivations was overtaken by a late commit, login or refresh, no deactivated user has a token that is neither revoked nor expired |
| TokenRotation.OvertakenDeactivationLeavesSession | backend/app/application/services/user_service.py:187-199 | conversely, in every run, wherever one of these has overtaken a deactivation, the user has a usable token after it or gets one in a continuation of the run |
| TokenRotation.LateRefreshIsReachable | backend/app/application/services/auth_service.py:446-458 | a run in which a token expires between the user check of its refresh and the selection |
| TokenRotation.LateLoginIsReachable | backend/app/application/services/auth_service.py:274-353 | a run in which a login is checked before the selection and not yet inserted |
| TokenRotation.LeftOutTokenIsReachable | backend/app/infrastructure/database/repositories/refresh_token.py:289-312 | a run in which a rotation written before the selection commits after it, for a deactivation and for a logout of all devices |
| TokenRotation.RevocationRevokesUnexpiredTokens | backend/app/infrastructure/database/repositories/refresh_token.py:289-312 | which tokens a logout of all devices or a deactivation revokes when nothing overtakes it, and that it leaves one unrevoked exactly when one had expired unrevoked |
| AuthBackend.RefreshTokenRepository.AtomicRevokeByJti | backend/app/infrastructure/database/repositories/refresh_token.py:240-285 | true for exactly the session that finds the token unrevoked, which it then revokes |
| AuthBackend.RefreshTokenRepository.RevokeAllForUser | backend/app/infrastructure/database/repositories/refresh_token.py:289-312 | selects, revokes in its session and counts exactly the user's visible tokens that are neither revoked nor expired |
| AuthBackend.AuthService.Login | backend/app/application/services/auth_service.py:259-372 | uninterrupted, an active user gets one new live token; an inactive one, or an insert that raises, gets none |
| AuthBackend.AuthService.CheckUser | backend/app/application/services/auth_service.py:446-458 | an expired token and a deactivated or unknown user end the refresh, the latter as not found |
| AuthBackend.AuthService.ReadToken | backend/app/application/services/auth_service.py:485-493 | an unknown and a revoked token end the refresh with different errors; nothing is written |
| AuthBackend.AuthService.Flush | backend/app/application/services/auth_service.py:495-536 | one revocation and one insert in the session, or neither: a lost race and a failed insert leave it empty |
| AuthBackend.AuthService.Rotate | backend/app/infrastructure/database/session.py:135-155 | the commit of a rotation revokes the old token and shows the new one, and nothing else |
| AuthBackend.AuthService.Refresh | backend/app/application/services/auth_service.py:446-536 | uninterrupted, it returns a pair exactly for an unexpired, stored, unrevoked token of an active user when the insert succeeds, and otherwise changes no token |
| AuthBackend.AuthService.Logout | backend/app/application/services/auth_service.py:637-655 | revokes the presented token if it is stored and unexpired, and accepts an expired one |
| AuthBackend.AuthService.LogoutAll | backend/app/application/services/auth_service.py:624-627 | the commit revokes the selected tokens and no others |
| AuthBackend.UserService.DeactivateUser | backend/app/application/services/user_service.py:187-199 | an active user is made inactive and the live tokens are selected and revoked, in the session; any other is not found and nothing is written |
| AuthBackend.UserService.CommitDeactivation | backend/app/infrastructure/database/session.py:135-155 | the commit deactivates the user and revokes the selected tokens, and no others |
| FileValidation.NormalizingTwice | backend/app/utils/file_validation.py:171-178 | normalising a normalised content type changes nothing, so the two places that normalise agree |
| FileValidation.RequiredIsTheMaximum | backend/app/utils/file_validation.py:259-261 | the required length is the least that covers every pattern of a type |
| FileValidation.WindowDecidesBinaryTypes | backend/app/utils/file_validation.py:224-266 | for binary types, the 16-byte window gives the verdict that the whole content would: truncated, mismatch or accepted |
| FileValidation.CutUtf8 | backend/app/utils/file_validation.py:280-295 | a prefix of strict UTF-8 decodes exactly when it is not cut inside a character |
| FileValidation.WindowOfValidText | backend/app/utils/file_validation.py:247-252 | a valid text is accepted exactly when it fits the window or the window cuts no character |
| FileValidation.SomeValidTextIsRefused | backend/app/utils/file_validation.py:247-252 | a valid text that is refused |
| Multipart.SplitConserves | backend/app/infrastructure/storage/s3_adapter.py:131-155 | the parts of a content concatenate to it |
| Multipart.SplitLayout | backend/app/infrastructure/storage/s3_adapter.py:131-155 | max(1, ceil(N / PART)) parts, all full but the last, which holds the rest and is empty only for N = 0 |
| Multipart.DefaultLimitNeedsThirteenParts | backend/app/core/settings.py:610 | at the default size limit there are at most 13 parts |
| Multipart.FlushedPartsAreSplit | backend/app/infrastructure/storage/s3_adapter.py:135-155 | full parts and a partial rest, uploaded unless it is nothing after full parts, are the split of their concatenation |
| Streaming.Replay.constructor | backend/app/utils/file_validation.py:359-366 | the replay holds the sniffed bytes and the tail of the chunk they were cut from |
| Streaming.Replay.Next | backend/app/utils/file_validation.py:361-367 | yields the held pieces and then the rest of the stream, each once and in order |
| Streaming.Sniff | backend/app/utils/file_validation.py:341-351 | the window is the content's first 16 bytes and exhausted means a shorter content, however it was chunked; no byte is lost |
| Streaming.ValidateUploadStream | backend/app/utils/file_validation.py:303-369 | accepts or refuses, with which error, by the concatenated bytes, type and allow-list alone; on success the replay yields those bytes |
| Streaming.HashingTee.Next | backend/app/application/services/upload_service.py:104-110 | passes chunks unchanged, feeds each byte to the digest once, and raises exactly when the count passes the limit |
| Streaming.ObjectStore.FlushFullParts | backend/app/infrastructure/storage/s3_adapter.py:136-144 | extends the buffer and uploads full parts under consecutive numbers until less than a part is left, conserving the bytes |
| Streaming.ObjectStore.CompleteParts | backend/app/infrastructure/storage/s3_adapter.py:146-162 | the assembled object is the uploaded parts and the rest, cut as the split of their concatenation |
| Streaming.ObjectStore.PumpParts | backend/app/infrastructure/storage/s3_adapter.py:131-144 | pulls the tee to its end or its error; the buffer is below PART after each chunk and below PART plus a chunk always |
| Streaming.ObjectStore.UploadStream | backend/app/infrastructure/storage/s3_adapter.py:91-179 | on success the object is the content and the parts its split; on failure no object changes; a store that does not fail refuses exactly contents over the limit and keeps no part |
| Streaming.AssembledInOrder | backend/app/infrastructure/storage/s3_adapter.py:157-162 | assembling the listed part numbers concatenates the parts in order |
| ContentTheorems.NextKeepsInv | backend/app/application/services/upload_service.py:182-345 | every step of every upload, commit, rollback or cleanup keeps the content-store invariant |
| ContentTheorems.RunsKeepInv | backend/app/application/services/upload_service.py:182-345 | the content-store invariant holds in every state of every run, from any consistent tables |
| ContentTheorems.StoreIsConsistent | backend/app/application/services/upload_service.py:242-345 | in every run each asset's object is present, hashes to its identity and has its size; no two assets share a hash; each completed upload links to an asset with its checksum |
| ContentTheorems.AssetsArePermanent | backend/app/application/services/upload_service.py:331-345 | in every run an asset keeps its record and its object's bytes for ever |
| ContentTheorems.CleanupRemovesNoObject | backend/app/workers/scheduled/upload_cleanup.py:40-51 | in every run the cleanup fails rows that are pending or failed, changes no other, and never deletes an existing object |
| ContentTheorems.UploadRowsAreValid | backend/app/domain/entities/upload.py:132-152 | in every run every visible upload row is valid |
| ContentTheorems.CommittedUploadsAreCompleted | backend/app/infrastructure/database/session.py:135-155 | in every run an upload that becomes visible is completed, and a completed upload never changes |
| ContentTheorems.CleanupListsOldRows | backend/app/workers/scheduled/upload_cleanup.py:34-37 | in every run the cleanup lists only rows that were pending from the beginning, and none of a call under way |
| ContentTheorems.DeletingAKeyIsSafeExactly | backend/app/workers/scheduled/upload_cleanup.py:49-50 | deleting an upload's key keeps every asset whole exactly when no asset lives there, as is so for a pending upload |
| ContentTheorems.ObjectsAreAssetsOrOrphans | backend/app/application/services/upload_service.py:230-345 | in every run, whenever no call is under way, each object is an asset's or an orphan, and not both |
| ContentTheorems.OrphansAreForEver | backend/app/workers/scheduled/upload_cleanup.py:34-51 | in every run an orphan stays in the store: no asset takes it up and no cleanup removes it |
| ContentTheorems.OrphansComeFrom | backend/app/application/services/upload_service.py:313-345 | in every run a step orphans an object if and only if a delete or an insert fails, a session that holds an object rolls back, or the unique index rejects its asset |
| ContentTheorems.NextKeepsMisses | backend/app/application/services/upload_service.py:313-319 | without overlapping finds, the content that a call missed stays unstored by every other session |
| ContentTheorems.NoOrphans | backend/app/application/services/upload_service.py:313-345 | in runs without infrastructure faults and without a find that overlaps another session's new content, no object is orphaned |
| ContentTheorems.ObjectsAreTheAssets | backend/app/application/services/upload_service.py:220-345 | and, whenever no call is under way, the objects added are exactly the assets' own |
| ContentTheorems.EachContentIsStoredOnce | backend/app/application/services/upload_service.py:331-345 | and any number of uploads of one content by any users share one asset and one object |
| ContentTheorems.OverlapLeavesAnOrphan | backend/app/application/services/upload_service.py:313-329 | in every run, a find that overlaps a session which has missed the hash too, or holds its asset uncommitted, has a continuation without faults that leaves its object as an orphan, and no row and no call |
| ContentTheorems.RacingUploadsLeaveAnOrphan | backend/app/application/services/upload_service.py:313-329 | a complete run of each kind, of two users who upload one content at once: one upload, one asset, two equal objects, no fault |
| ContentTheorems.KnownKeysReplay | backend/app/application/services/upload_service.py:182-187 | in every run, once a user's idempotency key has a visible upload, every later call with it returns that upload in whatever status and changes nothing, and no other upload gets the key, in a session or visible |
| ContentStore.RowsFollowTheEntity | backend/app/domain/entities/upload.py:210-314 | which upload transition succeeds from which status, and that the stored row is the transitioned entity but for the idempotency key, which the entity drops |
| UploadBackend.UploadService.Lookup | backend/app/application/services/upload_service.py:182-193 | a known key gives its upload; otherwise the call goes on exactly when the allow-list has the type |
| UploadBackend.UploadService.InsertAndStart | backend/app/application/services/upload_service.py:195-213 | a processing row with the drawn id and key in the session, or a rejection exactly when the user has an upload with the idempotency key |
| UploadBackend.UploadService.FailUpload | backend/app/application/services/upload_service.py:347-358 | the row in the session is failed now and the call raises |
| UploadBackend.UploadService.Receive | backend/app/application/services/upload_service.py:220-243 | checksum, size and stored object are those of the received bytes; a refusal is a function of the bytes and stores nothing |
| UploadBackend.UploadService.FindByHash | backend/app/application/services/upload_service.py:313-317 | an asset with the hash, or none if there is none |
| UploadBackend.UploadService.DropDuplicate | backend/app/application/services/upload_service.py:331-345 | the redundant object goes and the known asset is used; a delete that fails is ignored and leaves an orphan |
| UploadBackend.UploadService.CreateAsset | backend/app/application/services/upload_service.py:319-329 | one asset with the hash, size and key of the upload in the session, or a rejection that leaves its object an orphan |
| UploadBackend.UploadService.ResolveAsset | backend/app/application/services/upload_service.py:297-345 | known content gives its asset and leaves no new object, new content gives one new asset; a path of the protocol |
| UploadBackend.UploadService.Complete | backend/app/application/services/upload_service.py:255-273 | the row in the session is completed with checksum, size, asset and time |
| UploadBackend.UploadService.StoreContent | backend/app/application/services/upload_service.py:215-243 | the content is stored and no row changes, or the row in the session is failed and no object changes |
| UploadBackend.UploadService.LinkContent | backend/app/application/services/upload_service.py:245-273 | a path of the protocol that resolves the asset and completes the row |
| UploadBackend.UploadService.ProcessStarted | backend/app/application/services/upload_service.py:215-295 | from the validation on: a path that leaves the session completed or raised, and nothing visible |
| UploadBackend.UploadService.Register | backend/app/application/services/upload_service.py:195-213 | lookup, insert and start of a new upload, as a path of the protocol |
| UploadBackend.UploadService.ProcessUpload | backend/app/application/services/upload_service.py:143-295 | is a path of the protocol; a known key changes nothing; over a store that does not fail, what its session leaves once it ends is a function of the received bytes |
| UploadBackend.UploadRequest.Commit | backend/app/infrastructure/database/session.py:148-150 | the upload and the asset of the session become visible, and nothing else changes |
| UploadBackend.UploadRequest.Post | backend/app/api/v1/routes/uploads.py:134-181 | uninterrupted: an exception leaves nothing visible; over a store that does not fail, a refused content leaves nothing at all, a known one a completed row, a new one also one asset with its object, and a failed insert the object alone |
| UploadBackend.UploadCleanup.FailRow | backend/app/workers/scheduled/upload_cleanup.py:40-48 | from any state: that row is failed and no other changes, unless it has an asset, when the database refuses and no row changes |
| UploadBackend.UploadCleanup.DeleteKey | backend/app/workers/scheduled/upload_cleanup.py:49-50 | from any state: the object at the row's key goes, or the store raises and nothing changes |
| UploadBackend.UploadCleanup.CleanRows | backend/app/workers/scheduled/upload_cleanup.py:38-60 | the loop: every listed row in turn; it stops at a row that the database refuses to fail, and at a delete that raises, after the row it was for was failed |
| UploadBackend.CleaningFailsRows | backend/app/workers/scheduled/upload_cleanup.py:40-48 | uninterrupted, it fails exactly the listed rows |
| UploadBackend.CleaningDeletesKeys | backend/app/workers/scheduled/upload_cleanup.py:49-50 | and deletes exactly their keys |
| UploadBackend.CleaningIsAPath | backend/app/workers/scheduled/upload_cleanup.py:40-51 | and is a path of the protocol |
| RateLimit.RateLimitMiddleware.Dispatch | backend/app/api/v1/middleware/rate_limit.py:122-192 | the counters are those the served requests left, and the answer is that of the specification |
| RateLimit.CountersAreExact | backend/app/api/v1/middleware/rate_limit.py:155-163 | each counter holds exactly the requests of its minute and cannot expire within it, in whatever order requests come |
| RateLimit.AdmittedExactly | backend/app/api/v1/middleware/rate_limit.py:165-171 | a request is admitted exactly when fewer than its limit of the minute's requests came before |
| RateLimit.MinuteAdmitsTheLimit | backend/app/api/v1/middleware/rate_limit.py:139-167 | a client with one limit L has exactly min(requests, L) admitted in each minute |
| RateLimit.MinuteAdmitsAtMost | backend/app/api/v1/middleware/rate_limit.py:134-167 | a client that mixes both classes has between min(requests, smaller) and min(requests, larger) admitted |
| RateLimit.MinutesAdmitAtMost | backend/app/api/v1/middleware/rate_limit.py:226-242 | a range of minutes admits at most the larger limit for each |
| RateLimit.WindowAdmitsAtMost | backend/app/api/v1/middleware/rate_limit.py:226-242 | any window admits at most the larger limit for each minute that it meets |
| RateLimit.WindowIsFilled | backend/app/api/v1/middleware/rate_limit.py:226-242 | and every window has a sequence of requests in order of time that is admitted to exactly that number |
| RateLimit.LimitHoldsExactlyWithinAMinute | backend/app/api/v1/middleware/rate_limit.py:226-242 | no sequence of requests passes more than the limit in a window if and only if the window lies within one minute |
| RateLimit.WindowBound | backend/app/api/v1/middleware/rate_limit.py:226-242 | any window of W whole seconds admits at most L * ((W + 58) / 60 + 1), so at most 2L in 60 seconds |
| RateLimit.WindowBoundIsReached | backend/app/api/v1/middleware/rate_limit.py:226-242 | for every W that number is reached by a window that starts in the last second of a minute |
| Jpeg.JpegDimensions | backend/app/analyzers/metadata_analyzer/analyzer.py:121-148 | the loop ends, stays in bounds, computes the walk, and its check that two length bytes remain never fires |
| Jpeg.WalkFindsAFrame | backend/app/analyzers/metadata_analyzer/analyzer.py:125-147 | returned dimensions lie in 1 to 65535 and stand in a frame header of the content |
| Jpeg.WalkSkips | backend/app/analyzers/metadata_analyzer/analyzer.py:129-147 | the walk goes from the start of any well-formed non-frame segment to its end |
| Jpeg.WalkReadsFrame | backend/app/analyzers/metadata_analyzer/analyzer.py:138-146 | at a frame header the walk returns its width and height |
| Jpeg.WellFormedFilesAreRead | backend/app/analyzers/metadata_analyzer/analyzer.py:121-148 | start-of-image, any list of well-formed non-frame segments and a frame header of nonzero size give that header's width and height |
| Redaction.FilterFields | backend/app/infrastructure/logging/filters.py:86-107 | the loop over a dictionary computes its redaction |
| Redaction.FilterSequence | backend/app/infrastructure/logging/filters.py:109-128 | the loop over a list or tuple computes its redaction, a list |
| Redaction.PatternsSeeTheFirstLine | backend/app/infrastructure/logging/filters.py:21-49 | matching a pattern from the start of a key, in any case, is containing its word before the first line break |
| Redaction.RedactionIsComplete | backend/app/infrastructure/logging/filters.py:86-128 | at every depth a sensitive key holds the placeholder; keys, order, lengths and all other values are kept |
| Redaction.CleanValuesAreKept | backend/app/infrastructure/logging/filters.py:86-128 | redaction is the identity up to tuples read as lists exactly on values with nothing left to redact |
| Redaction.RedactingTwiceIsRedactingOnce | backend/app/infrastructure/logging/filters.py:86-128 | redaction is idempotent |
| QueryParams.SortRoundTrip | backend/app/schemas/query_params.py:44-79 | a valid sort parameter prints and parses back exactly when its field is trimmed and has no colon |
| QueryParams.SortNormalForm | backend/app/schemas/query_params.py:44-79 | printing what was parsed is a normal form exactly when the string had a colon or was trimmed |
| QueryParams.PrintedSortIsUnique | backend/app/schemas/query_params.py:73-79 | two valid sort parameters that print alike are equal |
| QueryParams.ParsedFiltersArePlain | backend/app/schemas/query_params.py:113-147 | a parsed filter has a trimmed colon-free field and a trimmed value |
| QueryParams.FilterRoundTrip | backend/app/schemas/query_params.py:113-155 | a valid filter prints and parses back exactly when its field is trimmed and colon-free and its value trimmed; the value may have colons |
| QueryParams.FilterNormalForm | backend/app/schemas/query_params.py:113-155 | every filter string that parses prints to one that parses to the same parameter |

## Left out

- JobTheorems.TerminalRowsAreAbsorbing: its runs settle and cancel in one step each; `JobInterleaving` takes loads and stores apart and says exactly when the two agree.
- JobTheorems.ReachableRowsLoad: the same; the rows that a stale store leaves are those of `JobInterleaving.StoreUndoesCancellation`.
- JobTheorems.SettlementsNeverRaise: takes a violated unique index as an error that the caller may handle, as the repositories document; the database library, which is not part of this model, may leave the session unusable after the failed flush, and then the handler of a rejected completion raises.
- JobTheorems.FailuresAreBounded: its runs answer the broker and commit in one step, or stop in between; what a worker that claims a requeued job before that commit does to the count is `JobInterleaving.EarlyClaimHidesFailure`.
- JobInterleaving.InterleavedCancelIsLost: a database that locks the row from the first write of a worker to its commit makes a cancellation between the two writes wait; its store then comes after the worker's, as in `JobInterleaving.CancellationOverwritesEnd`.
- The ORM's writing of changed columns only: an update assigns every column it names, as the repository interface documents.
- Publishing that raises after the broker took the message, and acknowledgements that raise.
- A broker that delivers a message again while its first worker is still at work.
- The registry and the asset table, which are constant over a run of the job protocol.
- Identifiers drawn at random are preconditions: they are new.
- Columns and fields that no modelled decision reads: threat score, task id, analyzer slugs, content types of stored rows, `updated_at` of uploads and token rows.
- The guard against assigning to a terminal entity: entities are values here, which nothing assigns to.
- `AnalysisResult` from stored JSON: payload verdicts and recommendations are strings, numbers are reals, so NaN is not modelled.
- Passwords, token signing and hashing: a login is by a user whose password was verified, claims are those the token was issued with, and SHA-256 is a function parameter `hash` about which nothing is assumed.
- Users who are inactive without being soft-deleted: deactivation, the one modelled operation that ends a user, does both.
- Locks in the session protocol but those of written rotations: a revocation's updates and its commit are one step, after the selection of the tokens, and so are a logout's; the insert and the commit of a login are one step.
- `delete_expired` and the other token repository methods.
- The transaction of the cleanup, which its caller owns: each of its updates is visible at once.
- The methods of `UploadBackend` are proved for a request that nobody interrupts and whose inserts do not wait; the steps of `ContentStore` are taken in any order.
- Persisting a failed upload that itself fails: the same as a rollback of the call at that point.
- Request bodies that raise in mid-stream, which is a rollback of the call at that point.
- The hex form of checksums and the required non-empty strings in `Upload.validate`, but for storage keys.
- Soft deletion of uploads and assets.
- `detect_content_type`, PNG dimensions, PDF page counts, reports, audit logging, HTTP wiring, settings and metrics: no deep property.
- Letter case outside ASCII in `lower`, `upper` and case-insensitive patterns; dictionary keys that are not strings.
- An EXPIRE that fails after its INCR, negative limits, and a Redis clock that differs from the application's.
- The exempt-path test and the extraction of the client address from headers: a request carries their results.
