/** The database side of processing: versions, documents, runs, artifacts, reviews and audit entries, and
    the transactions that change them. A transaction is one atomic step here, except `confirm`, whose
    read and commit are two. */
module Ledger {
  import opened Common
  import opened Entities

  type Tx = nat

  const OPERATION := "document.virus_scan"
  const SCAN_VERSION := "scan-v1"

  datatype RunState = QUEUED | ACTIVE | COMPLETED | RETRY_SCHEDULED | FAILED | DEAD_LETTERED | CANCELLED

  datatype Status =
    | UPLOADING | SCAN_QUEUED | SCAN_PASSED | EXTRACTION_QUEUED | EXTRACTING
    | PROCESSING | READY_FOR_REVIEW | APPROVED | REJECTED | RETURNED_FOR_COMPLEMENT

  datatype StoredResult = StoredResult(idempotencyKey: Key, result: Completion)

  datatype RunError = PROCESSING_REJECTED | JOB_RECONCILED

  datatype Run = Run(
    organization: Uuid, version: Uuid, operation: string, processorVersion: string, bullJobId: Option<JobId>,
    state: RunState, progress: int, result: Option<StoredResult>, sanitizedError: Option<RunError>)

  datatype Version = Version(
    organization: Uuid, document: Uuid, number: nat, checksum: Checksum, size: nat, contentType: string,
    objectKey: ObjectKey, state: Status)

  datatype Document = Document(organization: Uuid, currentVersion: Option<Uuid>, status: Status)

  datatype Artifact = Artifact(organization: Uuid, version: Uuid, zone: Zone, checksum: Checksum, size: nat, contentType: string)

  datatype Subject = OfRun(key: Key) | OfVersion(version: Uuid)

  /** "processing.completed", "processing.rejected" and "document.upload_confirmed". */
  datatype AuditAction = PROCESSING_COMPLETED | PROCESSING_REFUSED | UPLOAD_CONFIRMED

  datatype AuditEntry = AuditEntry(organization: Uuid, action: AuditAction, subject: Subject)

  /** A confirmation that found its version UPLOADING and has not committed yet. */
  datatype Confirmation = Confirmation(version: Uuid, correlation: Uuid, wellFormed: bool, aiOptIn: bool)

  datatype State = State(
    versions: map<Uuid, Version>, documents: map<Uuid, Document>, runs: map<Key, Run>,
    artifacts: map<ObjectKey, Artifact>, reviews: set<Uuid>, audit: seq<AuditEntry>, confirmations: map<Tx, Confirmation>)

  const Init := State(map[], map[], map[], map[], {}, [], map[])

  datatype Error =
    | NotFound | VersionMismatch | ChecksumMismatch | ResultDiffers | IllegalTransition | UniqueViolation | AlreadyConfirmed
    | NotTerminal | FieldRefused

  // ---------------------------------------------------------------- transitions of a run

  function Successors(s: RunState): set<RunState> {
    match s
    case QUEUED => {ACTIVE, CANCELLED, FAILED}
    case ACTIVE => {COMPLETED, RETRY_SCHEDULED, FAILED, CANCELLED}
    case RETRY_SCHEDULED => {ACTIVE, DEAD_LETTERED, CANCELLED}
    case _ => {}
  }

  function ApplyTransition(current: RunState, next: RunState): Result<RunState, Error> {
    if next in Successors(current) then Ok(next) else Err(IllegalTransition)
  }

  function Deduplicate(previous: StoredResult, key: Key, checksum: Checksum): Result<StoredResult, Error> {
    if previous.idempotencyKey != key then Err(ResultDiffers)
    else if previous.result.checksum != checksum then Err(ResultDiffers)
    else Ok(previous)
  }

  // ---------------------------------------------------------------- persistCompletion

  function NextState(result: Completion): RunState {
    if result.outcome == Completed then COMPLETED else FAILED
  }

  function Action(next: RunState): AuditAction {
    if next == COMPLETED then PROCESSING_COMPLETED else PROCESSING_REFUSED
  }

  predicate IsCleanRef(k: ObjectKey, organization: Uuid) {
    k.zone == Clean && k.organization == organization
  }

  /** The clean artifact rows after `refs` were registered in order. */
  function RegisterClean(artifacts: map<ObjectKey, Artifact>, refs: seq<ObjectKey>, id: Uuid, v: Version, checksum: Checksum)
    : (r: Result<map<ObjectKey, Artifact>, Error>)
    ensures r.Err? ==> r.error == UniqueViolation
    ensures r.Ok? ==>
      && (forall k :: k in artifacts ==> k in r.value && r.value[k] == artifacts[k])
      && (forall k :: k in r.value && k !in artifacts ==>
            k in refs && IsCleanRef(k, v.organization) && r.value[k] == Artifact(v.organization, id, Clean, checksum, v.size, v.contentType))
      && (forall k :: k in refs && IsCleanRef(k, v.organization) ==>
            k in r.value && r.value[k].organization == v.organization && r.value[k].version == id)
    decreases |refs|
  {
    if refs == [] then Ok(artifacts)
    else
      var k := refs[|refs| - 1];
      match RegisterClean(artifacts, refs[..|refs| - 1], id, v, checksum)
      case Err(e) => Err(e)
      case Ok(m) =>
        if !IsCleanRef(k, v.organization) then Ok(m)
        else if k !in m then Ok(m[k := Artifact(v.organization, id, Clean, checksum, v.size, v.contentType)])
        else if m[k].organization == v.organization && m[k].version == id then Ok(m)
        else Err(UniqueViolation)
  }

  /** The document after a completion of version `id`: it advances to a higher number only. */
  function Advanced(versions: map<Uuid, Version>, documents: map<Uuid, Document>, id: Uuid): map<Uuid, Document>
    requires id in versions
  {
    var v := versions[id];
    if v.document !in documents then documents
    else
      var d := documents[v.document];
      if d.currentVersion.None? || d.currentVersion.value !in versions || versions[d.currentVersion.value].number < v.number
      then documents[v.document := d.(currentVersion := Some(id), status := READY_FOR_REVIEW)]
      else documents
  }

  /** The document after a rejection: its status follows the current version, if there is one. */
  function Demoted(versions: map<Uuid, Version>, documents: map<Uuid, Document>, id: Uuid): map<Uuid, Document>
    requires id in versions
  {
    var v := versions[id];
    if v.document !in documents then documents
    else
      var d := documents[v.document];
      documents[v.document := d.(
        status := if d.currentVersion.Some? && d.currentVersion.value in versions
                  then versions[d.currentVersion.value].state else REJECTED)]
  }

  /** The state after the result was accepted, with `artifacts` the registered clean rows. */
  function Accept(s: State, key: Key, result: Completion, artifacts: map<ObjectKey, Artifact>): State
    requires key in s.runs && result.version in s.versions
  {
    var next := NextState(result);
    var id := result.version;
    var run := s.runs[key].(
      state := next, progress := 100, result := Some(StoredResult(key, result)),
      sanitizedError := if next == FAILED then Some(PROCESSING_REJECTED) else None);
    var s1 := s.(
      runs := s.runs[key := run], artifacts := artifacts,
      audit := s.audit + [AuditEntry(result.tenant, Action(next), OfRun(key))],
      versions := s.versions[id := s.versions[id].(state := if next == COMPLETED then READY_FOR_REVIEW else REJECTED)]);
    if next == COMPLETED
    then s1.(documents := Advanced(s1.versions, s1.documents, id), reviews := s1.reviews + {id})
    else s1.(documents := Demoted(s1.versions, s1.documents, id))
  }

  function PersistCompletion(s: State, key: Key, result: Completion): Result<State, Error> {
    if key !in s.runs || s.runs[key].organization != result.tenant then Err(NotFound)
    else if s.runs[key].version != result.version then Err(VersionMismatch)
    else if result.version !in s.versions || s.versions[result.version].organization != result.tenant then Err(NotFound)
    else if s.versions[result.version].checksum != result.checksum then Err(ChecksumMismatch)
    else
      var run := s.runs[key];
      var next := NextState(result);
      if run.state == next then
        match Deduplicate(if run.result.Some? then run.result.value else StoredResult(key, result), key, result.checksum)
        case Err(e) => Err(e)
        case Ok(_) => Ok(s)
      else if next !in Successors(run.state) then Err(IllegalTransition)
      else if next == FAILED then Ok(Accept(s, key, result, s.artifacts))
      else
        match RegisterClean(s.artifacts, result.artifactRefs, result.version, s.versions[result.version], result.checksum)
        case Err(e) => Err(e)
        case Ok(artifacts) => Ok(Accept(s, key, result, artifacts))
  }

  /** The delivery is accepted and moves its run. */
  predicate Accepts(s: State, key: Key, result: Completion) {
    PersistCompletion(s, key, result).Ok? && s.runs[key].state != NextState(result)
  }

  // ---------------------------------------------------------------- the other transactions

  /** `QueueEventsListener.persist`: an illegal or unknown change is dropped, not reported. */
  function PersistState(s: State, organization: Uuid, key: Key, job: JobId, next: RunState, progress: int): State {
    if progress < 0 || progress > 100 || key !in s.runs || s.runs[key].organization != organization
       || next !in Successors(s.runs[key].state) then s
    else s.(runs := s.runs[key := s.runs[key].(bullJobId := Some(job), state := next, progress := progress)])
  }

  function LinkRun(s: State, key: Key, job: JobId): State {
    if key in s.runs then s.(runs := s.runs[key := s.runs[key].(bullJobId := Some(job))]) else s
  }

  function MarkReconciled(s: State, key: Key): State {
    if key in s.runs then s.(runs := s.runs[key := s.runs[key].(sanitizedError := Some(JOB_RECONCILED))]) else s
  }

  function ScanKeyOf(v: Version, id: Uuid): Key { ScanKey(v.organization, id, v.checksum) }

  /** Some run violates the uniqueness of (organization, version, operation, processor version). */
  predicate RunTaken(s: State, organization: Uuid, version: Uuid, operation: string, processorVersion: string) {
    exists k :: k in s.runs && s.runs[k].organization == organization && s.runs[k].version == version
                && s.runs[k].operation == operation && s.runs[k].processorVersion == processorVersion
  }

  /** The second transaction of `confirm` reads the version, without a lock. */
  function ReadForConfirm(s: State, tx: Tx, c: Confirmation): Result<State, Error> {
    if c.version !in s.versions then Err(NotFound)
    else if s.versions[c.version].state != UPLOADING then Err(AlreadyConfirmed)
    else Ok(s.(confirmations := s.confirmations[tx := c]))
  }

  function PayloadFor(v: Version, c: Confirmation): Payload {
    Payload(c.wellFormed, ScanKeyOf(v, c.version), v.organization, v.document, c.version, c.correlation, v.objectKey,
            v.checksum, v.contentType, SCAN_VERSION, c.aiOptIn)
  }

  /** The writes of `confirm`, checked against the unique constraints when they commit. */
  function CommitConfirm(s: State, tx: Tx): Result<State, Error>
    requires tx in s.confirmations
  {
    var c := s.confirmations[tx];
    if c.version !in s.versions then Err(NotFound)
    else
      var v := s.versions[c.version];
      var key := ScanKeyOf(v, c.version);
      if v.objectKey in s.artifacts || key in s.runs || RunTaken(s, v.organization, c.version, OPERATION, SCAN_VERSION)
      then Err(UniqueViolation)
      else Ok(s.(
          confirmations := s.confirmations - {tx},
          versions := s.versions[c.version := v.(state := SCAN_QUEUED)],
          documents := if v.document in s.documents
                       then s.documents[v.document := s.documents[v.document].(status := PROCESSING)] else s.documents,
          artifacts := s.artifacts[v.objectKey := Artifact(v.organization, c.version, Quarantine, v.checksum, v.size, v.contentType)],
          runs := s.runs[key := Run(v.organization, c.version, OPERATION, SCAN_VERSION, None, QUEUED, 0, None, None)],
          audit := s.audit + [AuditEntry(v.organization, UPLOAD_CONFIRMED, OfVersion(c.version))]))
  }

  function AbortConfirm(s: State, tx: Tx): State {
    s.(confirmations := s.confirmations - {tx})
  }

  /** `reprocess` inserts a run that repeats operation and processor version of a finished one. */
  function Reprocess(s: State, key: Key, correlation: Uuid): Result<State, Error> {
    if key !in s.runs then Err(NotFound)
    else
      var run := s.runs[key];
      var again := ReprocessKey(key, correlation);
      if run.state !in {COMPLETED, FAILED, DEAD_LETTERED, CANCELLED} then Err(NotTerminal)
      else if again in s.runs || RunTaken(s, run.organization, run.version, run.operation, run.processorVersion) then Err(UniqueViolation)
      else Ok(s.(runs := s.runs[again := Run(run.organization, run.version, run.operation, run.processorVersion, None, QUEUED, 0, None, None)]))
  }

  // ---------------------------------------------------------------- events

  datatype Event =
    | NewDocument(document: Uuid, organization: Uuid)
    | NewVersion(version: Uuid, row: Version)
    | BeginConfirm(tx: Tx, confirmation: Confirmation)
    | Confirm(tx: Tx)
    | Abandon(tx: Tx)
    | Link(key: Key, job: JobId)
    | Mark(key: Key)
    | Persist(organization: Uuid, key: Key, job: JobId, next: RunState, progress: int)
    | Complete(key: Key, result: Completion)
    | Again(key: Key, correlation: Uuid)

  /** A failed transaction leaves no trace. */
  function Commit(s: State, r: Result<State, Error>): State {
    if r.Ok? then r.value else s
  }

  ghost predicate Enabled(s: State, e: Event) {
    match e
    case NewDocument(d, _) => d !in s.documents
    case NewVersion(id, v) =>
      && id !in s.versions && v.state == UPLOADING && v.objectKey.zone == Quarantine && v.objectKey.version == id
      && v.objectKey.organization == v.organization
      && v.document in s.documents && s.documents[v.document].organization == v.organization
      && (forall w :: w in s.versions && s.versions[w].document == v.document ==> s.versions[w].number != v.number)
    case BeginConfirm(tx, _) => tx !in s.confirmations
    case Confirm(tx) => tx in s.confirmations
    case Abandon(tx) => tx in s.confirmations
    // `persist` is called with ACTIVE, RETRY_SCHEDULED or DEAD_LETTERED.
    case Persist(_, _, _, next, _) => next in {ACTIVE, RETRY_SCHEDULED, DEAD_LETTERED}
    case _ => true
  }

  function Apply(s: State, e: Event): State
    requires Enabled(s, e)
  {
    match e
    case NewDocument(d, organization) => s.(documents := s.documents[d := Document(organization, None, UPLOADING)])
    case NewVersion(id, v) => s.(versions := s.versions[id := v])
    case BeginConfirm(tx, c) => Commit(s, ReadForConfirm(s, tx, c))
    case Confirm(tx) => Commit(AbortConfirm(s, tx), CommitConfirm(s, tx))
    case Abandon(tx) => AbortConfirm(s, tx)
    case Link(k, job) => LinkRun(s, k, job)
    case Mark(k) => MarkReconciled(s, k)
    case Persist(organization, k, job, next, progress) => PersistState(s, organization, k, job, next, progress)
    case Complete(k, result) => Commit(s, PersistCompletion(s, k, result))
    case Again(k, correlation) => Commit(s, Reprocess(s, k, correlation))
  }
}
