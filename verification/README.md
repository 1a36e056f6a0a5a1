# Verified model of the document-processing backend

This project models how a governed-document backend moves an uploaded file from confirmation to a
released, reviewable version, and proves what that path guarantees. The path crosses a relational
database, a de-duplicating job queue, a worker and a browser client, all of which may stop, repeat or
lose steps at any point.

`dafny verify dfyconfig.toml` checks the whole project.

## What is modelled

* **Processing protocol.** `Delivery.dfy` is the outbox with its five-minute leases, the queue that ignores
  an `add` of a known job id, and the jobs with their attempts, returns and evictions. `Ledger.dfy` holds
  versions, documents, runs, artifacts, reviews and audit entries with the transactions that change them.
  `Protocol.dfy` joins both into one machine whose events are single statements, queue calls, transactions
  and clock ticks of any number of publishers, listeners and reconcilers. A handler may act on a job it
  read long ago: a queue event needs only that the queue once accepted the job, a completion only that the
  job once returned the value. `Leases.dfy`, `LedgerProofs.dfy`, `ProtocolProofs.dfy`, `Guarantees.dfy`,
  `Recovery.dfy` and `Exhaustion.dfy` prove the properties; `Service.dfy` is the class with the tables and one imperative method
  per statement, transaction and service call, each proved to perform exactly its events of the machine.
  `Effects.dfy` and `Attempts.dfy` say what these transactions do column by column and how often a job is tried.
* **Worker.** `Worker.dfy` has checksum, signature, antivirus verdict, promotion and result of the pipeline;
  `Instream.dfy` the framing of the antivirus connection.
* **Completions at statement grain.** `Completions.dfy` splits the completion transaction and the listener's
  `persist` into their reads, locks, saves and commits.
* **Audit chain.** `AuditChain.dfy`: concurrent transactions appending to the hash chain of each organization.
* **Sessions.** `Sessions.dfy`: refresh-token rotation by compare-and-swap, logout and family revocation.
* **Fields and reviews.** `Fields.dfy`: normalization, upsert and corrections of extracted fields.
  `Reviews.dfy`: tasks, comments and decisions. `FieldOverlaps.dfy` and `ReviewOverlaps.dfy` take overlapping
  corrections, resolutions and decisions apart into their reads, saves and commits.
* **Versions.** `Versioning.dfy`: numbering and duplicate check. `VersionQuery.dfy`: grouping of fields by version.
* **Web client.** `SingleFlight.dfy`: the shared token refresh.

`Common.dfy` and `Entities.dfy` hold the vocabulary.

## Assumptions

UUIDs and random tokens are new whenever they are drawn. SHA-256, argon2 and the serialization of audit
payloads are injective; digests and hashes are symbolic values or an arbitrary injective function. Queue
`add` does nothing when the job id is taken. Row locks, advisory locks and unique constraints behave as
PostgreSQL documents them under READ COMMITTED, and `UPDATE ... RETURNING` yields the affected rows. TypeORM's
`save` reads the row again and updates the columns in which the entity differs from that. There is one clock.

## What the code does differently from what one might expect

* A job that failed for good dead-letters its run only if the run waited for a retry and the attempts are used
  up (`Guarantees.FailureReportIff`). An ACTIVE run stays ACTIVE when its attempts are used up, because ACTIVE has
  no transition to DEAD_LETTERED (`Exhaustion.StuckIsReachable`). A run that waits for a retry keeps waiting when
  its job stalls too often, because that failure is reported as one more retry (`Exhaustion.StalledIsReachable`).
  Reconciling moves neither (`Recovery.ExhaustedRunStays`).
* `reprocess` can never commit: its run repeats operation and processor version of the run it copies
  (`LedgerProofs.ReprocessAlwaysAborts`).
* `persistCompletion` and the listener's `persist` read the run without a lock. Two overlapping deliveries of one
  result write two audit entries, two with opposite outcomes leave a current version whose run is FAILED, and a
  late `persist` can reopen a completed run (`Completions.OverlapAuditsTwice`, `OppositeOutcomesMislead`,
  `LateSaveReopens`). `Completions.AuditExactIff` and `Completions.CurrentIsHighestCompletedIff` say exactly when.
* Corrections, resolutions and decisions read their row without a lock. Two overlapping corrections can lose the
  first one, two overlapping resolutions both close one task and leave two comments, and an overlapping rejection
  replaces an approval (`FieldOverlaps.OverlapLosesCorrection`, `ReviewOverlaps.ResolvedTwice`,
  `ReviewOverlaps.ApprovalReplaced`). `FieldOverlaps.HistoryIsFaithfulIff`, `ReviewOverlaps.OneCommentIff` and
  `ReviewOverlaps.FinalIsLastIff` say exactly when.
* A `persist` that read a field before it was corrected overwrites the correction, although an automatic run is
  documented never to do so; the machine's value can then go by the reviewer's name
  (`FieldOverlaps.LatePersistKeepsHistoryIff`, `FieldOverlaps.LatePersistTakesTheName`).
* Tasks can be opened after a final decision (`Reviews.OpenTaskAfterApproval`). A task creation that overlaps a
  decision erases it, or makes the decided review look open again, depending on when the decision commits
  (`Reviews.StaleStartCoherentIff`).
* The duplicate check compares digest texts, so the same digest in another letter case passes it unconfirmed
  (`Versioning.CaseVariantPassesUnconfirmed`).
* A resolution that consists of spaces passes the DTO and is then refused by the table's constraint
  (`Reviews.ReviewsService.ResolveTask`).
* An audit chain ends at 2^53 events, where `Number(...) + 1` stops changing (`AuditChain.InsertSucceedsIff`).
* A raw entry that claims the source `human` locks its field like a correction does (`Fields.HistoryIsFaithful`).

## Model

| member | source | states |
|---|---|---|
| `Leases.PublishedMeansEnqueued` | api/src/modules/processing/outbox-publisher.service.ts:23-41 | In every reachable state a row with `published_at` set had its job accepted by the queue after its latest reset, whatever publishers crash, lose leases or report late |
| `Leases.OneJobPerKey` | api/src/modules/processing/outbox-publisher.service.ts:12-14 | The queue never holds two jobs for one idempotency key |
| `Leases.LeaseExclusive` | api/src/database/migrations/0025-processing-claims.ts:8-28 | A row is claimed a second time only if the first lease ran out, its holder finished or failed the row, or the row was reset |
| `Leases.UndisturbedClaimsAreDisjoint` | api/src/database/migrations/0025-processing-claims.ts:11-19 | Claims with no expiry, completion, failure or reset in between return disjoint sets |
| `Leases.StaleHolderWritesNothing` | api/src/database/migrations/0025-processing-claims.ts:21-28 | After losing its lease a publisher never changes the row again, however late it reports |
| `Leases.TwoHolders` | api/src/database/migrations/0025-processing-claims.ts:11-28 | If two publishers hold one row in their lists, the earlier lease expired or the row was reset before the later claim, and no report of the earlier one changes the row |
| `Leases.CrashedLeaseReturns` | api/src/database/migrations/0025-processing-claims.ts:11-20 | When the publisher that leased a row stops, the row stays unpublished and leased until it is claimed or reset, and a claim may return it iff more than 300 000 ms have passed since the lease began |
| `Attempts.FiveAttempts` | api/src/modules/processing/outbox-publisher.service.ts:31 | In every reachable state a job was tried at most five times, and a failed attempt hands it out again unless it was the fifth |
| `Guarantees.EffectsMatchState` | api/src/modules/processing/processing-results.service.ts:96-149 | In every reachable state a run has exactly one completed (rejected) audit entry iff it is COMPLETED (FAILED), a stored result iff it is either, and its version a review iff it is COMPLETED |
| `Guarantees.EntersOnce` | api/src/modules/processing/processing-results.service.ts:18-29 | Along every run of events each processing run enters COMPLETED or FAILED at most once and never leaves |
| `Guarantees.EndedForever` | api/src/modules/processing/processing-results.service.ts:17-29 | State and stored result of an ended run never change again |
| `Guarantees.RepeatedDeliveryIsSilent` | api/src/modules/processing/processing-results.service.ts:91-94 | A repeated delivery, of a completion or a rejection, is answered without error and without change iff it reports the version's hash, which a completion always does |
| `Guarantees.DeadLetteredIff` | api/src/modules/processing/queue-events.listener.ts:33-40 | A DEAD_LETTERED report dead-letters exactly a RETRY_SCHEDULED run; in every other state, ACTIVE among them, it changes nothing |
| `Guarantees.FailureReportIff` | api/src/modules/processing/queue-events.listener.ts:65-71 | In every reachable state, what the failure handler reports of a queued job dead-letters its run iff the run is RETRY_SCHEDULED and the attempts are used up, leaves it RETRY_SCHEDULED iff it is ACTIVE or RETRY_SCHEDULED with attempts left, and otherwise changes nothing |
| `Guarantees.NoLostIntent` | api/src/modules/document-versions/document-versions.service.ts:71-79 | Every run has its outbox row under the same key, still unpublished or with its job accepted since the latest reset |
| `Guarantees.ConfirmConserves` | api/src/modules/document-versions/document-versions.service.ts:63-79 | A version left UPLOADING iff it has exactly one run, one outbox row with the run's key and one quarantine artifact; in UPLOADING it has none |
| `Guarantees.ConfirmsOnce` | api/src/modules/document-versions/document-versions.service.ts:63-83 | Of any number of overlapping confirmations of a version exactly one commits if the version left UPLOADING, none otherwise |
| `Guarantees.ConfirmationsSettle` | api/src/modules/document-versions/document-versions.service.ts:63-83 | A confirmation in progress is always able to end, by commit or abort |
| `Guarantees.ScanBeforeRelease` | worker/app/consumers/document_processing.py:72-95 | Every clean artifact belongs to a version with a COMPLETED run, has the version's hash, and stems from a worker execution whose signature check and virus scan passed on content with that hash |
| `Guarantees.ReadUrlIff` | api/src/modules/document-versions/document-version-query.service.ts:47-55 | A read URL is offered exactly for the one clean object of a version whose run is COMPLETED |
| `Guarantees.CurrentIsHighest` | api/src/modules/processing/processing-results.service.ts:131-142 | The current version is the highest-numbered one whose run is COMPLETED, and null iff there is none |
| `Guarantees.CurrentNeverGoesBack` | api/src/modules/processing/processing-results.service.ts:134-142 | The number of the current version never decreases, whatever order results arrive in |
| `Guarantees.DeliveryProjection` | api/src/modules/processing/outbox-publisher.service.ts:23-41 | Every run of the joined machine is a run of the delivery machine, so the lease guarantees hold in it |
| `LedgerProofs.ReprocessAlwaysAborts` | api/src/modules/processing/processing.controller.ts:55-84 | `reprocess` always ends in an error, for a finished run in a unique violation |
| `LedgerProofs.CompletionFrame` | api/src/modules/processing/processing-results.service.ts:78-166 | Whatever is delivered, at most one run, one version and its document change, with at most one new review and audit entry and artifacts only for that version; every other row stays as it was |
| `Effects.MisfitIsRefused` | api/src/modules/processing/processing-results.service.ts:81-87 | A result that names no run of its organization, another version, or another hash is refused with the error of the first violated check |
| `Effects.FittingResult` | api/src/modules/processing/processing-results.service.ts:89-113 | One that fits is accepted iff its run is ACTIVE, or QUEUED for a rejection, and no clean object it names belongs to another version; in the state it asks for it is silent or a conflict, otherwise the transition is illegal |
| `Effects.CompletionWrites` | api/src/modules/processing/processing-results.service.ts:95-150 | An accepted completion sets every column of run, version, artifacts, audit and review as stated; the document moves to the version and to READY_FOR_REVIEW iff the version is newer than the current one, and stays as it is otherwise |
| `Effects.RejectionWrites` | api/src/modules/processing/processing-results.service.ts:95-164 | An accepted rejection fails the run, rejects the version, adds no artifact and no review; the document keeps its current version and takes over its state, or REJECTED without one |
| `Effects.ConfirmWrites` | api/src/modules/document-versions/document-versions.service.ts:63-83 | In every reachable state a confirmation commits iff its version is still UPLOADING; then version, document, artifact, run, outbox row with its payload and audit entry are as stated in every column, otherwise nothing changed |
| `Effects.StatusFollowsVersions` | api/src/modules/processing/processing-results.service.ts:131-162 | In every reachable state a document is UPLOADING iff none of its versions was confirmed, READY_FOR_REVIEW only with a current version and REJECTED only without one |
| `Recovery.RecoveryInTwoRounds` | api/src/modules/processing/processing-reconciler.service.ts:19-43 | If the job is finished with a matching result and the run is open, two undisturbed rounds that include the run end it with that result, linked or not, its extraction being readable and storable |
| `Recovery.RecoveryIffMatching` | api/src/modules/processing/queue-events.listener.ts:46-64 | Two such rounds end the run iff the returned value is valid, has the identity of its envelope and the version's hash, and its extraction can be read and stored; otherwise the run is still open |
| `Recovery.MissingJobReturns` | api/src/modules/processing/processing-reconciler.service.ts:25-36 | When the job of a listed run is missing, one undisturbed round of any length whose batches include the row ends with the job queued under the same id and the run linked to it, iff the payload passes the job schema |
| `Recovery.ExhaustedRunStays` | api/src/modules/processing/processing-reconciler.service.ts:24-36 | No number of undisturbed rounds moves a run whose job failed for good, linked or not and whatever its state |
| `Exhaustion.StuckIsReachable` | api/src/modules/processing/processing-results.service.ts:18-22 | A run of the protocol (confirm, publish, five failed attempts) leaves an ACTIVE run whose job has no attempts left; the handler's report of the failure changes nothing and no number of undisturbed rounds moves it |
| `Exhaustion.StalledIsReachable` | api/src/modules/processing/queue-events.listener.ts:69-70 | Another (one failed attempt, then too many stalls) leaves a RETRY_SCHEDULED run whose job failed with attempts left; the handler's report changes nothing and no number of undisturbed rounds moves it |
| `Exhaustion.LostJobIsReachable` | api/src/modules/processing/processing-reconciler.service.ts:29 | A run of the protocol leaves a linked ACTIVE run whose job the queue no longer holds, the case that `Recovery.MissingJobReturns` repairs |
| `Service.Backend.ClaimOutboxEvents` | api/src/database/migrations/0025-processing-claims.ts:8-20 | Leases, under the token and from now on, rows that are unpublished and have no lease or one that began more than 300 000 ms ago, at most the clamped limit, and leaves none of them out while there is room; every other row stays as it was |
| `Service.Backend.CompleteOutboxEvent` | api/src/database/migrations/0025-processing-claims.ts:21-28 | For the current token alone: published without failure, or the failure cut to 80 characters, and no lease in both cases; for any other token nothing |
| `Service.Backend.PublishPending` | api/src/modules/processing/outbox-publisher.service.ts:23-41 | Undisturbed, is exactly the claim followed by add, link and completion (or the schema failure) of each claimed row in turn; every claimed row ends published or with `INVALID_JOB_SCHEMA`, and no other row is touched |
| `Service.Backend.AddToQueue` | api/src/modules/processing/outbox-publisher.service.ts:31 | Adds the job under the hash of its key, waiting and untried, unless that id is taken; then nothing changes |
| `Service.Backend.ResetForReconcile` | api/src/modules/processing/processing-reconciler.service.ts:30-33 | Notes the repair on the run and takes publication and lease, nothing else, off the row |
| `Service.Backend.Persist` | api/src/modules/processing/queue-events.listener.ts:33-40 | Writes state, progress and job id iff the progress is a percentage, the run is the organization's, and the change is one of QUEUED or RETRY_SCHEDULED to ACTIVE, ACTIVE to RETRY_SCHEDULED, RETRY_SCHEDULED to DEAD_LETTERED; drops everything else |
| `Service.Backend.HandleFailure` | api/src/modules/processing/queue-events.listener.ts:65-71 | Reports a retry while fewer than five attempts were made and a dead letter afterwards |
| `Service.Backend.HandleCompleted` | api/src/modules/processing/queue-events.listener.ts:46-57 | Persists a valid result with tenant, version and correlation of its envelope, together with its extraction if it has one; throws, without effect, on any other and when the extraction cannot be read or stored; ignores a job that is gone |
| `Service.Backend.ReconcileCompleted` | api/src/modules/processing/queue-events.listener.ts:58-64 | Makes the run ACTIVE and then persists the returned value with its extraction; a job that is gone changes nothing |
| `Service.Backend.RegisterArtifacts` | api/src/modules/processing/processing-results.service.ts:103-113 | Registers the clean references of the organization in order; a key of another version aborts |
| `Service.Backend.PersistCompletion` | api/src/modules/processing/processing-results.service.ts:78-166 | All writes of the transaction, field rows included, or none, with the error of the first violated check |
| `Service.Backend.CommitConfirm` | api/src/modules/document-versions/document-versions.service.ts:63-83 | Version, document, artifact, run, outbox row and audit entry together iff the version is still UPLOADING, nothing otherwise |
| `Service.Backend.ListReconcilableRuns` | api/src/database/migrations/006-processing-completion-recovery.ts:9-16 | Lists runs that are QUEUED, ACTIVE or RETRY_SCHEDULED, at most the clamped limit, each once with its link, and leaves none out while there is room |
| `Service.Backend.ReconcileOne` | api/src/modules/processing/processing-reconciler.service.ts:24-36 | One iteration: without a link, or with a link to a job that is gone, the row is reset and published; a finished job is persisted; any other job is left alone |
| `Service.Backend.Reconcile` | api/src/modules/processing/processing-reconciler.service.ts:19-43 | Undisturbed, is exactly one round over the listed runs |
| `Service.Backend.constructor` | api/src/database/migrations/001-base-tenancy.ts:48-61 | Empty tables satisfy the invariant |
| `Ledger.RegisterClean` | api/src/modules/processing/processing-results.service.ts:103-113 | Keeps every artifact, adds rows only for clean references of the organization with the version's own metadata, and covers all of them |
| `Worker.SignatureDecides` | worker/app/processors/virus_scan.py:49-75 | Content is accepted iff it has at most 25 MiB, begins like a file of the declared type and is no encrypted PDF; otherwise the first failing check gives the code |
| `Worker.ScanFailsClosed` | worker/app/processors/virus_scan.py:81-108 | The scan passes iff the stripped answer is `OK` alone or as its last word; one that ends in `FOUND` is malware, every other outcome an unavailable scan |
| `Worker.StripRemoves` | worker/app/processors/virus_scan.py:98 | Stripping leaves exactly the text between the white space at the two ends |
| `Worker.PySpaces` | worker/app/processors/virus_scan.py:98 | White space is what Python's `str.strip` takes for it |
| `Worker.CompletesOnlyCleared` | worker/app/consumers/document_processing.py:72-146 | The pipeline completes iff checksum, signature and scan passed and the extraction did not raise; every column of the result is as stated, and otherwise the first failing stage gives the code |
| `Worker.ClearedMeans` | worker/app/consumers/document_processing.py:76-84 | Content is cleared iff its hash is the job's, it begins like its type within the size limit, is no encrypted PDF, and the scanner answered OK |
| `Worker.Handle` | worker/app/consumers/document_processing.py:72-146 | The handler returns what the pipeline specifies, promotes an object iff the content was cleared, even if the extraction then raises, and appends the usable suggestions after the local fields |
| `Instream.RoundTrip` | worker/app/processors/virus_scan.py:128-133 | Decoding the sent frames gives back exactly the content and leaves exactly what follows |
| `Instream.TruncationIsDetected` | worker/app/processors/virus_scan.py:128-133 | A stream cut short anywhere never decodes |
| `Instream.WireFormat` | worker/app/processors/virus_scan.py:129-133 | The stream is frames of at most 4096 bytes behind their length in four bytes, most significant first, and four zeros |
| `Instream.Framing` | worker/app/processors/virus_scan.py:129-133 | Every frame carries 1..4096 bytes, all but the last 4096; the wire length is 10 + n + 4 (ceil(n/4096) + 1) |
| `Instream.Scan` | worker/app/processors/virus_scan.py:124-140 | Sends `zINSTREAM` and a zero byte, then what decodes to the content; the line it returns is the decoded reply without the zeros around it and without white space at its ends, however the reply was cut into packets |
| `Completions.CurrentIsHighestAccepted` | api/src/modules/processing/processing-results.service.ts:127-142 | With reads, locks and commits of overlapping completions as separate steps, the current version in every committed state is the highest-numbered one that a result was accepted for |
| `Completions.CurrentIsHighestCompletedIff` | api/src/modules/processing/processing-results.service.ts:78-166 | Over every run of overlapping completions and queue events, the current version is the highest-numbered COMPLETED one iff no rejection and no late `persist` wrote the run of the current version since a completion last wrote it |
| `Completions.CurrentAfterStepIff` | api/src/modules/processing/processing-results.service.ts:81-142 | After a step of any run that holds iff the step is not the commit of a rejection or the save of a `persist` that writes the run of the current version, and it held before or the step is a completion that writes it |
| `Completions.CurrentIsHighestCompleted` | api/src/modules/processing/processing-results.service.ts:131-142 | If the deliveries of a run agree on its outcome and no `persist` saves over an ended run, the current version is the highest-numbered COMPLETED one, null iff none |
| `Completions.CurrentNumberGrows` | api/src/modules/processing/processing-results.service.ts:134-142 | At this grain too the number of the current version never decreases |
| `Completions.CommitWrites` | api/src/modules/processing/processing-results.service.ts:98-164 | A commit writes the run unless its second read found it in the state already, one audit entry, and the current version iff it completes a version newer than the one that was read |
| `Completions.AuditedOnceWithoutOverlap` | api/src/modules/processing/processing-results.service.ts:81-125 | Deliveries and `persist` calls that do not overlap on a run write exactly one audit entry for it, when it ends |
| `Completions.AuditCountsOverwrites` | api/src/modules/processing/processing-results.service.ts:81-125 | Over every run, the audit trail has one entry for an ended run and none for an open one, plus one for each commit and each late `persist` that met the run ended |
| `Completions.AuditExactIff` | api/src/modules/processing/queue-events.listener.ts:33-40 | The audit trail is exact for a run iff no commit and no `persist` met it ended |
| `Completions.OverlapAuditsTwice` | api/src/modules/processing/processing-results.service.ts:81-125 | Two overlapping deliveries of one result write two audit entries |
| `Completions.OppositeOutcomesMislead` | api/src/modules/processing/processing-results.service.ts:81-101 | Two overlapping deliveries with opposite outcomes leave a current version whose run is FAILED |
| `Completions.LateSaveReopens` | api/src/modules/processing/queue-events.listener.ts:35-38 | With deliveries that agree and never overlap, a `persist` that read the run earlier saves ACTIVE over a committed completion; the current version is then not COMPLETED, and the next delivery writes a second audit entry |
| `AuditChain.EveryChainIsValid` | api/src/modules/audit/audit.service.ts:16-31 | Over any interleaving of committing and aborting transactions each organization's events are numbered 1..n and linked by their hashes, even if organizations share a lock key |
| `AuditChain.ChainsOnlyGrow` | api/src/modules/audit/audit.service.ts:16-31 | Over every run a chain is extended by exactly what its transactions inserted and committed, in the order of the commits, and never changed otherwise |
| `AuditChain.InsertAdds` | api/src/modules/audit/audit.service.ts:16-31 | In every reachable state an insert that fits adds the given input, numbered and linked after all that its transaction sees |
| `AuditChain.HeadDeterminesChain` | api/src/modules/audit/audit.service.ts:20-25 | Two valid chains with equal head hashes are equal in length and in every hashed event |
| `AuditChain.AppendExtends` | api/src/modules/audit/audit.service.ts:18-30 | Appending to a valid chain succeeds iff it has fewer than 2^53 events, and keeps it valid |
| `AuditChain.InsertSucceedsIff` | api/src/modules/audit/audit.service.ts:17-30 | Under the lock an insert is refused iff the organization has 2^53 events |
| `AuditChain.AuditService.Append` | api/src/modules/audit/audit.service.ts:16-31 | Adds one event with the next number to the chain of its organization and touches no other |
| `Sessions.EachTokenRotatesOnce` | api/src/modules/auth/auth.service.ts:83-104 | Over all interleavings of read, verify and swap no token is consumed by two successful rotations |
| `Sessions.OneWinner` | api/src/modules/auth/auth.service.ts:93-103 | After a successful rotation no later one presents the same token, and the token it granted was never presented before |
| `Sessions.RotationsFormAChain` | api/src/modules/auth/auth.service.ts:92-103 | The rotations of a session form one chain, and only the last granted token is accepted |
| `Sessions.DeadSessionsNeverRotate` | api/src/modules/auth/auth.service.ts:94-102 | Once a session is revoked or expired no rotation of it succeeds, in-flight ones included |
| `Sessions.ReplayRevokesFamily` | api/src/modules/auth/auth.service.ts:87-91 | Presenting a consumed token against a visible session never yields a token, and is refused only after the whole family was revoked, for good |
| `Sessions.UndisturbedRefresh` | api/src/modules/auth/auth.service.ts:83-104 | From every state, a refresh that nothing interrupts is granted for thirty days exactly for the current token of an existing, unrevoked, unexpired session of an active member, revokes exactly the family for another token or an expired session, and does nothing if the session is missing, revoked or its member inactive |
| `Sessions.InvisibleSessionIsRefused` | api/src/modules/auth/auth.service.ts:87-91 | A request that reads a missing or revoked session or one of an inactive member is refused at once, takes no further step and changes no session, whatever interleaves |
| `Sessions.DeactivationLocksOut` | api/src/database/migrations/001-base-tenancy.ts:78-83 | From the deactivation of a membership until it is restored, no request that starts with one of its sessions gets a token or changes a session |
| `Sessions.LogoutRevokes` | api/src/modules/auth/auth.service.ts:106-114 | A logout that read a visible session revokes it and no other row, whenever its update comes |
| `Sessions.ThirtyDays` | api/src/modules/auth/auth.service.ts:72-97 | Login and rotation set the expiry thirty days ahead, and nothing else moves it |
| `Sessions.AuthService.Authenticate` | api/src/modules/auth/auth.service.ts:58-81 | A login opens one session of thirty days for the requested or only membership, exactly if the address is known, the password right and the membership determined |
| `Sessions.CookieRoundTrip` | api/src/modules/auth/auth.service.ts:84-85 | The cookie the controller sets is read back as its session and token |
| `Sessions.CookieIff` | api/src/modules/auth/auth.service.ts:84-85 | A cookie is read as a session and a token iff these are its first two parts between dots and neither is empty |
| `Sessions.AuthService.RotateRefreshToken` | api/src/modules/auth/auth.service.ts:83-104 | Undisturbed, rotates exactly for the current token of an existing, unrevoked, unexpired session of an active member, revokes exactly the family of such a session otherwise, and changes nothing for a session that is missing, revoked or of an inactive member |
| `Sessions.AuthService.Revoke` | api/src/modules/auth/auth.service.ts:106-114 | Revokes an existing, unrevoked session of an active member by its identifier and nothing else |
| `Fields.RecordsKeepLastOfEachKey` | api/src/modules/processing/extracted-fields.service.ts:33-65 | Each key once: the required keys first, each other non-blank key after them; value, source (local if none), page, excerpt and confidence are those of the last raw entry, or absent for a placeholder, and the record is UNREVIEWED iff its value is not blank and its confidence is absent or at least 0.8 |
| `Fields.RecordsKeepOrder` | api/src/modules/processing/extracted-fields.service.ts:45-51 | The other keys follow in the order in which they first appeared |
| `Common.JsSpaces` | api/src/modules/processing/extracted-fields.service.ts:34 | White space is what JavaScript's `trim` takes for it |
| `Fields.SuggestionsAreReviewed` | worker/app/consumers/document_processing.py:119-124 | A key that the language model suggested carries value and evidence, cut to 500 characters, of the last usable suggestion with confidence 0.5, and needs review |
| `Fields.SuggestionsInOrder` | worker/app/consumers/document_processing.py:119-124 | Every suggestion with a textual field and value becomes one entry with its columns as stated, in order, and no other does |
| `Fields.BuildFieldRecords` | api/src/modules/processing/extracted-fields.service.ts:44-65 | The loops compute records with distinct keys, `identifier`, `issuer`, `relevant_date` and `value` first, each with the columns of the last raw entry of its key or empty |
| `Fields.PersistIsIdempotent` | api/src/modules/processing/extracted-fields.service.ts:75-111 | Persisting the same records again changes nothing, whatever was in the table |
| `Fields.UpsertAllEffect` | api/src/modules/processing/extracted-fields.service.ts:78-108 | Keys stay unique, each existing row is rewritten by its own record unless human, and new rows come only from keys that were not there |
| `Fields.PersistWrites` | api/src/modules/processing/extracted-fields.service.ts:75-111 | Column by column: a row of no human origin carries the record of its key and keeps its original value, history and reviewer; every other old row stays; a new row carries its record, with its value as the original one; every record arrives unless a human wrote its row |
| `Fields.PersistCommitsIff` | api/src/modules/processing/extracted-fields.service.ts:77-108 | A `persist` commits iff none of its records has a confidence outside 0 to 1, or, for a new row, a key of more than 64 characters or one that another organization holds |
| `Fields.DoKeeps` | api/src/modules/processing/extracted-fields.service.ts:79-91 | No operation removes a row or changes its original value or past; `persist` leaves a row of human origin alone |
| `Fields.HistoryIsFaithful` | api/src/modules/reviews/reviews.service.ts:51-72 | For every sequence of `persist` and `correctField`, previous values followed by the current one are the last automatic value before the lock and then all corrections in order, and the original value is the first automatic one |
| `FieldOverlaps.HistoryIsFaithfulIff` | api/src/modules/reviews/reviews.service.ts:51-64 | Over every interleaving of the statements of corrections, the history is the faithful log of what was committed iff no correction committed over a row that had changed since its read |
| `FieldOverlaps.UndisturbedCorrection` | api/src/modules/reviews/reviews.service.ts:54-64 | Undisturbed, the statements of a correction do what the call does as one step, in every column |
| `FieldOverlaps.SaveAlone` | api/src/modules/processing/extracted-fields.service.ts:91 | A save that nothing overlaps stores the entity in every column |
| `FieldOverlaps.OverlapLosesCorrection` | api/src/modules/reviews/reviews.service.ts:54-64 | Of two corrections that read the same row the first is committed and nowhere in the row |
| `FieldOverlaps.LatePersistKeepsHistoryIff` | api/src/modules/processing/extracted-fields.service.ts:79-91 | A `persist` that read an uncorrected field and saves it late, whatever committed in between, leaves the history as it was iff nothing was corrected at its second read and its record repeats the value and origin found then or at the update |
| `FieldOverlaps.LatePersistTakesTheName` | api/src/modules/processing/extracted-fields.service.ts:79-91 | A late `persist` can put its own value in the place of a correction, with the human origin and the reviewer kept |
| `Fields.ExtractedFields.Persist` | api/src/modules/processing/extracted-fields.service.ts:75-111 | All records in every column, or, when one is refused, none; afterwards every required key has a row |
| `Fields.ExtractedFields.CorrectField` | api/src/modules/reviews/reviews.service.ts:51-72 | For a justification that is not blank and an existing field of the organization, sets value, origin, excerpt, state and reviewer, appends the old value, origin and reviewer and leaves every other column and row; otherwise changes nothing and says which of the two is missing |
| `Reviews.ReviewsAreCoherent` | api/src/modules/reviews/reviews.service.ts:141-147 | Over every run, state and decision correspond, and REJECTED and RETURNED_FOR_COMPLEMENT carry a non-blank justification |
| `Reviews.InsertWrites` | api/src/modules/processing/processing-results.service.ts:143-150 | A version gets one review, PENDING and with nothing noted on it |
| `Reviews.DecidedWithoutPendencies` | api/src/modules/reviews/reviews.service.ts:133-147 | Decision fields change only in a deciding step without open tasks and final decision, and such a step is granted exactly then |
| `Reviews.FinalForever` | api/src/modules/reviews/reviews.service.ts:138 | An APPROVED or REJECTED review never changes again |
| `Reviews.OneCommentPerResolution` | api/src/modules/reviews/reviews.service.ts:98-126 | A task has exactly one resolution comment, with its text, iff it left OPEN; no comment ever goes, and that one stays the only one |
| `Reviews.ClosedForever` | api/src/modules/reviews/reviews.service.ts:102 | A task that left OPEN never changes again |
| `Reviews.TasksLeavePending` | api/src/modules/reviews/reviews.service.ts:82-87 | No review with a task is PENDING |
| `Reviews.FinalStaysClearIff` | api/src/modules/reviews/reviews.service.ts:75-87 | Over every continuation, a finally decided review without open tasks stays so all along iff no task is created for it |
| `Reviews.OpenTaskAfterApproval` | api/src/modules/reviews/reviews.service.ts:75-87 | A task can be opened on an approved review |
| `Reviews.StaleStartCoherentIff` | api/src/modules/reviews/reviews.service.ts:77-87 | A task creation that read a PENDING review and saves it late: state and decision correspond unless the row was still PENDING when read again and decided before the update; the decision survives iff none was committed before it was read again |
| `ReviewOverlaps.CommentsCountOverlaps` | api/src/modules/reviews/reviews.service.ts:98-109 | Over every interleaving of statements, the resolution comments of a task number one if it left OPEN, plus one for each resolution that committed after another one |
| `ReviewOverlaps.OneCommentIff` | api/src/modules/reviews/reviews.service.ts:98-109 | A task has exactly one resolution comment, with its text, once it left OPEN, iff no resolution of it committed after another one |
| `ReviewOverlaps.ResolvedTwice` | api/src/modules/reviews/reviews.service.ts:100-109 | From every state with an open task two overlapping resolutions can both close it and leave two comments |
| `ReviewOverlaps.FinalIsLastIff` | api/src/modules/reviews/reviews.service.ts:133-147 | Over every interleaving of statements, a review shows its last committed decision and no decision follows a final one, iff no decision committed over a final one |
| `ReviewOverlaps.RepeatedResolution` | api/src/modules/reviews/reviews.service.ts:103-109 | A resolution whose second read found what it saves leaves the task as it finds it and adds only its comment |
| `ReviewOverlaps.RepeatedDecision` | api/src/modules/reviews/reviews.service.ts:142-147 | A decision whose second read found what it saves leaves the review as it finds it |
| `ReviewOverlaps.DecidedOnceClear` | api/src/modules/reviews/reviews.service.ts:136-147 | A decision is committed only if the review had no open task at some moment between its read and the commit |
| `ReviewOverlaps.UndisturbedResolution` | api/src/modules/reviews/reviews.service.ts:98-116 | Undisturbed, the statements of a resolution do what the call does as one step |
| `ReviewOverlaps.UndisturbedDecision` | api/src/modules/reviews/reviews.service.ts:133-157 | Undisturbed, the statements of a decision do what the call does as one step |
| `ReviewOverlaps.ApprovalReplaced` | api/src/modules/reviews/reviews.service.ts:136-147 | From every state in which a review can be decided, two overlapping decisions can approve it and then replace the approval by a rejection |
| `Reviews.ReviewsService.CreateTask` | api/src/modules/reviews/reviews.service.ts:75-95 | Opens the task with its title for an active member, the actor if none is named, on a visible review and moves a PENDING review to IN_REVIEW; otherwise says what is missing and changes nothing |
| `Reviews.ReviewsService.ResolveTask` | api/src/modules/reviews/reviews.service.ts:98-116 | Closes an open task as resolved or cancelled with its text and time and adds one comment of the actor; names the first violated check and changes nothing otherwise |
| `Reviews.ReviewsService.AddComment` | api/src/modules/reviews/reviews.service.ts:118-126 | Appends a comment without task to a visible review |
| `Reviews.ReviewsService.Decide` | api/src/modules/reviews/reviews.service.ts:133-157 | Records the requested decision, with the state it stands for, the given justification, the time and the responsible or else the actor, and changes no other review; or reports the first failed check and changes nothing |
| `Versioning.NumbersAreDense` | api/src/modules/document-versions/document-versions.service.ts:34-47 | Over any interleaving with aborts a document's versions are numbered exactly 1..n |
| `Versioning.RepeatsAreConfirmed` | api/src/modules/document-versions/document-versions.service.ts:39-40 | A version with the digest text of an earlier one was created with `confirmDuplicate` |
| `Versioning.LockedInsertsSucceed` | api/src/modules/document-versions/document-versions.service.ts:35-47 | If every locked document existed, no insert fails on the unique number, only beyond the column's range |
| `Versioning.CreationCommits` | api/src/modules/document-versions/document-versions.service.ts:34-53 | An undisturbed creation adds the next version; it changes nothing iff the document is missing, its content is there unconfirmed, or the numbers are used up |
| `Versioning.CaseVariantPassesUnconfirmed` | api/src/modules/document-versions/document-versions.service.ts:20-40 | The same digest in other letter case passes the duplicate check unconfirmed |
| `Versioning.DocumentVersionsService.Create` | api/src/modules/document-versions/document-versions.service.ts:29-54 | Succeeds exactly for a PDF, PNG or JPEG of 1 byte to 25 MiB with 64 hexadecimal digits, to an existing document whose content is new or confirmed, with the next number; otherwise names the first violated check |
| `Versioning.DocumentVersionsService.CreateDocument` | api/src/modules/documents/documents.service.ts:33-55 | Such an upload by an active member opens a document with version 1; otherwise names the first violated check |
| `VersionQuery.List` | api/src/modules/document-versions/document-version-query.service.ts:20-37 | Each version shows identifier, key, value and source of exactly its own fields in the order of the query, and is current iff the document says so |
| `VersionQuery.GroupingConserves` | api/src/modules/document-versions/document-version-query.service.ts:23-28 | The lists of all versions together hold every field exactly as often as the query delivered it |
| `VersionQuery.OrderKept` | api/src/modules/document-versions/document-version-query.service.ts:24-28 | Two fields of one version keep their order |
| `SingleFlight.RefreshesNeverOverlap` | web/src/services/api-client.ts:10-21 | When a refresh exists, every earlier one has settled |
| `SingleFlight.RequestsAreBounded` | web/src/services/api-client.ts:23-33 | Each request is sent at most twice and waits for at most one refresh; below `/auth/` once and for none |
| `SingleFlight.FetchesAreBounded` | web/src/services/api-client.ts:10-33 | n requests cause at most n fetches plus two for each outside `/auth/`, so at most 3n |
| `SingleFlight.RefreshStartsIff` | web/src/services/api-client.ts:10-19 | A refresh starts iff a first reply is 401 outside `/auth/` and none is under way; otherwise that reply joins the one that is |
| `SingleFlight.ResumedTogether` | web/src/services/api-client.ts:31-33 | Of the requests that waited for one refresh either all are sent again or none |
| `SingleFlight.ReplyDecides` | web/src/services/api-client.ts:15-18 | The requests that waited for a refresh are sent again iff its reply carried a token that is not empty |
| `SingleFlight.ResentWithLatestToken` | web/src/services/api-client.ts:18-32 | Unless someone else sets the token, a request that is sent again carries the token of the latest stored refresh |
| `SingleFlight.ApiClient.RenewAccessToken` | web/src/services/api-client.ts:10-21 | Returns the refresh under way, or starts one and remembers it |
| `SingleFlight.ApiClient.OnReply` | web/src/services/api-client.ts:30-33 | A first reply of 401 outside `/auth/` makes the request wait for the refresh under way or a new one; any other reply ends it with its status |
| `SingleFlight.ApiClient.OnRefreshed` | web/src/services/api-client.ts:32 | Sends the request again iff the refresh yielded a token |

## Left out

* Guards, DTO decorators, modules, logging and metrics: framework wiring.
* Object storage, PDF parsing, OCR, image handling and the language model: extraction is an arbitrary list of fields or an exception, an upload or promotion is a key.
* Notifications, traceparent, `requestedAt`, `objectVersionId`, file-name sanitizing, the upload URL and its verification: not on the path of any property here.
* `recordedAt`, `createdAt` and `updatedAt`, hence the order of the 100-row batches: a claim returns any claimable rows up to the limit, and the list of open runs any order. Fairness of the batches is not claimed.
* Progress without the hypothesis of undisturbed rounds: recovery is stated for rounds that nothing interrupts and whose batches include the row.
* Deadlock freedom: `persistCompletion` and `create` take the audit lock and the document row in opposite orders. A victim is an abort.
* Recovery.RecoveryInTwoRounds: an iteration reads the extraction of a result once, as an input; the objects in the storage are not part of the machine.
* Payload schema: a payload is marked well-formed or not. The job schema itself is not modelled.
* Effects.StatusFollowsVersions: does not say when PROCESSING ends, since a late completion of an older version leaves a document there.
* The `repaired` counter of `reconcile` and the count `publishPending` returns.
* Rejected and malformed job results are arbitrary values; only `completed` results stem from the worker's pipeline.
* Guarantees.EffectsMatchState: takes each transaction as one step; `Completions` takes them apart and says exactly when the count is right.
* Completions.CurrentIsHighestAccepted: of the columns that `save` writes back only the run's state is modelled.
* Fields.HistoryIsFaithful: covers sequences of calls; `FieldOverlaps` takes corrections apart. There a `persist` between them is one step, and a late one is the subject of `FieldOverlaps.LatePersistKeepsHistoryIff`.
* Reviews.ReviewsAreCoherent: takes each service call as one step; `ReviewOverlaps` takes resolutions and decisions apart. There a task creation is one step, and a late one is the subject of `Reviews.StaleStartCoherentIff`.
* ReviewOverlaps.FinalIsLastIff: of the columns of a decided review it speaks of state and decision.
* Sessions.ReplayRevokesFamily: supposes that the request does not crash between its read and its revocation for the revocation itself; that no token is granted holds in any case.
* Fields.SuggestionsAreReviewed: leaves out keys that consist of white space, which never become records.
* Versioning.DocumentVersionsService.Create: content types are an enumeration; object keys and the document's `receivedAt` are not modelled.
* SingleFlight.RequestsAreBounded: headers passed by the caller are not modelled; a caller may override the authorization header.
* Instream.Scan: the decoding of bytes to text is a parameter; socket timeouts are not modelled.
* Identifiers: runs and outbox rows are identified by their idempotency key, object keys by their segments, field, review, task and comment rows by their position in a table that never deletes.
