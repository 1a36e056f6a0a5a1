/** Invariants of the processing ledger, kept by every event. */
module LedgerProofs {
  import opened Common
  import opened Entities
  import opened Ledger

  function StatusFor(s: RunState): Status {
    match s
    case COMPLETED => READY_FOR_REVIEW
    case FAILED => REJECTED
    case _ => SCAN_QUEUED
  }

  type Versions = map<Uuid, Version>
  type Runs = map<Key, Run>

  /** A run is filed under the key made of its version. */
  ghost predicate RunFiled(versions: Versions, k: Key, run: Run) {
    && k.ScanKey? && k.version in versions && k == ScanKeyOf(versions[k.version], k.version)
    && run.version == k.version && run.organization == k.organization
    && run.operation == OPERATION && run.processorVersion == SCAN_VERSION
  }

  /** The state of a version follows its run. */
  ghost predicate FollowsRun(runs: Runs, id: Uuid, v: Version) {
    var k := ScanKeyOf(v, id);
    v.state == if k in runs then StatusFor(runs[k].state) else UPLOADING
  }

  ghost predicate KeysInv(versions: Versions, runs: Runs) {
    && (forall k {:trigger RunFiled(versions, k, runs[k])} :: k in runs ==> RunFiled(versions, k, runs[k]))
    && (forall id {:trigger FollowsRun(runs, id, versions[id])} :: id in versions ==> FollowsRun(runs, id, versions[id]))
  }

  /** The upload key of a version belongs to it, and has an artifact row once the upload is confirmed. */
  ghost predicate UploadOk(artifacts: map<ObjectKey, Artifact>, id: Uuid, v: Version) {
    && v.objectKey.zone == Quarantine && v.objectKey.version == id && v.objectKey.organization == v.organization
    && (v.state != UPLOADING ==> v.objectKey in artifacts)
  }

  /** A quarantine row is the upload of a confirmed version, a clean row belongs to a completed one. */
  ghost predicate ArtifactOk(versions: Versions, k: ObjectKey, a: Artifact) {
    && a.zone == k.zone && a.organization == k.organization && a.version in versions
    && a.organization == versions[a.version].organization && a.checksum == versions[a.version].checksum
    && match k.zone
       case Quarantine => k == versions[a.version].objectKey && versions[a.version].state != UPLOADING
       case Clean => versions[a.version].state == READY_FOR_REVIEW
       case Derived => false
  }

  ghost predicate ArtifactsInv(versions: Versions, artifacts: map<ObjectKey, Artifact>) {
    && (forall id {:trigger UploadOk(artifacts, id, versions[id])} :: id in versions ==> UploadOk(artifacts, id, versions[id]))
    && (forall k {:trigger ArtifactOk(versions, k, artifacts[k])} :: k in artifacts ==> ArtifactOk(versions, k, artifacts[k]))
  }

  /** How many audit entries record `action` about `subject`. */
  ghost function Count(audit: seq<AuditEntry>, action: AuditAction, subject: Subject): nat {
    if audit == [] then 0
    else
      var last := audit[|audit| - 1];
      Count(audit[..|audit| - 1], action, subject) + if last.action == action && last.subject == subject then 1 else 0
  }

  lemma CountAppend(audit: seq<AuditEntry>, x: AuditEntry, action: AuditAction, subject: Subject)
    ensures Count(audit + [x], action, subject) ==
            Count(audit, action, subject) + if x.action == action && x.subject == subject then 1 else 0
  {
    assert (audit + [x])[..|audit|] == audit;
  }

  ghost predicate Entered(runs: Runs, k: Key, terminal: RunState) {
    k in runs && runs[k].state == terminal
  }

  ghost predicate Audited(audit: seq<AuditEntry>, runs: Runs, k: Key) {
    && Count(audit, PROCESSING_COMPLETED, OfRun(k)) == (if Entered(runs, k, COMPLETED) then 1 else 0)
    && Count(audit, PROCESSING_REFUSED, OfRun(k)) == (if Entered(runs, k, FAILED) then 1 else 0)
  }

  /** One audit entry per accepted result, none otherwise. */
  ghost predicate AuditInv(audit: seq<AuditEntry>, runs: Runs) {
    forall k {:trigger Audited(audit, runs, k)} :: Audited(audit, runs, k)
  }

  ghost predicate ResultOk(k: Key, run: Run) {
    && (run.result.Some? <==> run.state in {COMPLETED, FAILED})
    && (run.result.Some? ==>
          var stored := run.result.value;
          && stored.idempotencyKey == k && stored.result.version == run.version && stored.result.tenant == run.organization
          && k.ScanKey? && stored.result.checksum == k.checksum && run.state == NextState(stored.result))
  }

  ghost predicate ResultsInv(runs: Runs) {
    forall k {:trigger ResultOk(k, runs[k])} :: k in runs ==> ResultOk(k, runs[k])
  }

  ghost predicate ReviewsInv(versions: Versions, reviews: set<Uuid>) {
    forall id :: id in reviews <==> id in versions && versions[id].state == READY_FOR_REVIEW
  }

  ghost predicate Ready(versions: Versions, d: Uuid, id: Uuid) {
    id in versions && versions[id].document == d && versions[id].state == READY_FOR_REVIEW
  }

  /** The current version of a document is its highest-numbered version that is ready for review. */
  ghost predicate IsCurrent(versions: Versions, d: Uuid, current: Option<Uuid>) {
    && (current.Some? ==> Ready(versions, d, current.value))
    && (forall id :: Ready(versions, d, id) ==> current.Some? && versions[id].number <= versions[current.value].number)
  }

  ghost predicate HasDocument(documents: map<Uuid, Document>, v: Version) {
    v.document in documents && documents[v.document].organization == v.organization
  }

  ghost predicate SameNumber(versions: Versions, a: Uuid, b: Uuid) {
    a in versions && b in versions && versions[a].document == versions[b].document && versions[a].number == versions[b].number
  }

  ghost predicate CurrentInv(versions: Versions, documents: map<Uuid, Document>) {
    && (forall id {:trigger HasDocument(documents, versions[id])} :: id in versions ==> HasDocument(documents, versions[id]))
    && (forall a, b {:trigger SameNumber(versions, a, b)} :: SameNumber(versions, a, b) ==> a == b)
    && (forall d {:trigger documents[d].currentVersion} :: d in documents ==> IsCurrent(versions, d, documents[d].currentVersion))
  }

  ghost predicate ConfirmationsInv(versions: Versions, confirmations: map<Tx, Confirmation>) {
    forall tx {:trigger confirmations[tx]} :: tx in confirmations ==> confirmations[tx].version in versions
  }

  ghost predicate Inv(s: State) {
    && KeysInv(s.versions, s.runs)
    && ArtifactsInv(s.versions, s.artifacts)
    && AuditInv(s.audit, s.runs)
    && ResultsInv(s.runs)
    && ReviewsInv(s.versions, s.reviews)
    && CurrentInv(s.versions, s.documents)
    && ConfirmationsInv(s.versions, s.confirmations)
  }

  // ---------------------------------------------------------------- accepting a result

  /** The guards under which a result is accepted. */
  ghost predicate Acceptable(s: State, key: Key, result: Completion) {
    && key in s.runs && s.runs[key].organization == result.tenant && s.runs[key].version == result.version
    && result.version in s.versions && s.versions[result.version].organization == result.tenant
    && s.versions[result.version].checksum == result.checksum
    && NextState(result) in Successors(s.runs[key].state)
  }

  /** `artifacts` extends the rows of `s` with clean rows of the result's version only. */
  ghost predicate ExtendsClean(s: State, result: Completion, artifacts: map<ObjectKey, Artifact>)
    requires result.version in s.versions
  {
    var v := s.versions[result.version];
    && (forall k :: k in s.artifacts ==> k in artifacts && artifacts[k] == s.artifacts[k])
    && (forall k :: k in artifacts && k !in s.artifacts ==>
          NextState(result) == COMPLETED && IsCleanRef(k, v.organization) &&
          artifacts[k] == Artifact(v.organization, result.version, Clean, result.checksum, v.size, v.contentType))
  }

  /** A completion either changes nothing or accepts an acceptable result. */
  lemma CompletionCases(s: State, key: Key, result: Completion)
    returns (artifacts: map<ObjectKey, Artifact>)
    ensures var t := Commit(s, PersistCompletion(s, key, result));
      || t == s
      || (Acceptable(s, key, result) && ExtendsClean(s, result, artifacts) && t == Accept(s, key, result, artifacts))
  {
    artifacts := s.artifacts;
    if Acceptable(s, key, result) && NextState(result) == COMPLETED {
      var r := RegisterClean(s.artifacts, result.artifactRefs, result.version, s.versions[result.version], result.checksum);
      if r.Ok? { artifacts := r.value; }
    }
  }

  lemma AcceptKeepsFiling(s: State, key: Key, result: Completion, artifacts: map<ObjectKey, Artifact>)
    requires KeysInv(s.versions, s.runs) && Acceptable(s, key, result)
    ensures var t := Accept(s, key, result, artifacts); forall k :: k in t.runs ==> RunFiled(t.versions, k, t.runs[k])
  {
    var t := Accept(s, key, result, artifacts);
    forall k | k in t.runs ensures RunFiled(t.versions, k, t.runs[k]) {
      assert RunFiled(s.versions, k, s.runs[k]);
    }
  }

  lemma AcceptKeepsKeys(s: State, key: Key, result: Completion, artifacts: map<ObjectKey, Artifact>)
    requires KeysInv(s.versions, s.runs) && Acceptable(s, key, result)
    ensures var t := Accept(s, key, result, artifacts); KeysInv(t.versions, t.runs)
  {
    var t := Accept(s, key, result, artifacts);
    AcceptKeepsFiling(s, key, result, artifacts);
    assert RunFiled(s.versions, key, s.runs[key]);
    forall id | id in t.versions ensures FollowsRun(t.runs, id, t.versions[id]) {
      assert FollowsRun(s.runs, id, s.versions[id]);
    }
  }

  lemma AcceptKeepsArtifacts(s: State, key: Key, result: Completion, artifacts: map<ObjectKey, Artifact>)
    requires KeysInv(s.versions, s.runs) && ArtifactsInv(s.versions, s.artifacts)
    requires Acceptable(s, key, result) && ExtendsClean(s, result, artifacts)
    ensures var t := Accept(s, key, result, artifacts); ArtifactsInv(t.versions, t.artifacts)
  {
    var t := Accept(s, key, result, artifacts);
    UnfinishedBefore(s, key, result);
    forall id | id in t.versions ensures UploadOk(t.artifacts, id, t.versions[id]) {
      assert UploadOk(s.artifacts, id, s.versions[id]);
    }
    forall k | k in t.artifacts ensures ArtifactOk(t.versions, k, t.artifacts[k]) {
      if k in s.artifacts { assert ArtifactOk(s.versions, k, s.artifacts[k]); }
    }
  }

  /** A version about to receive its first result is still waiting for the scan. */
  lemma UnfinishedBefore(s: State, key: Key, result: Completion)
    requires KeysInv(s.versions, s.runs) && Acceptable(s, key, result)
    ensures s.versions[result.version].state == SCAN_QUEUED
  {
    assert RunFiled(s.versions, key, s.runs[key]);
    assert FollowsRun(s.runs, result.version, s.versions[result.version]);
  }

  lemma AcceptKeepsAudit(s: State, key: Key, result: Completion, artifacts: map<ObjectKey, Artifact>)
    requires AuditInv(s.audit, s.runs) && Acceptable(s, key, result)
    ensures var t := Accept(s, key, result, artifacts); AuditInv(t.audit, t.runs)
  {
    var t := Accept(s, key, result, artifacts);
    var x := AuditEntry(result.tenant, Action(NextState(result)), OfRun(key));
    forall k ensures Audited(t.audit, t.runs, k) {
      assert Audited(s.audit, s.runs, k);
      CountAppend(s.audit, x, PROCESSING_COMPLETED, OfRun(k));
      CountAppend(s.audit, x, PROCESSING_REFUSED, OfRun(k));
    }
  }

  lemma AcceptKeepsResults(s: State, key: Key, result: Completion, artifacts: map<ObjectKey, Artifact>)
    requires KeysInv(s.versions, s.runs) && ResultsInv(s.runs) && ReviewsInv(s.versions, s.reviews)
    requires Acceptable(s, key, result)
    ensures var t := Accept(s, key, result, artifacts); ResultsInv(t.runs) && ReviewsInv(t.versions, t.reviews)
  {
    var t := Accept(s, key, result, artifacts);
    UnfinishedBefore(s, key, result);
    assert RunFiled(s.versions, key, s.runs[key]);
    forall k | k in t.runs ensures ResultOk(k, t.runs[k]) {
      if k != key { assert ResultOk(k, s.runs[k]); }
    }
  }

  /** A version becomes ready; the current version moves only if the new one is higher. */
  lemma AdvanceKeepsCurrent(versions: Versions, documents: map<Uuid, Document>, id: Uuid)
    requires CurrentInv(versions, documents) && id in versions && versions[id].state != READY_FOR_REVIEW
    ensures var ready := versions[id := versions[id].(state := READY_FOR_REVIEW)]; CurrentInv(ready, Advanced(ready, documents, id))
  {
    var ready := versions[id := versions[id].(state := READY_FOR_REVIEW)];
    var after := Advanced(ready, documents, id);
    assert HasDocument(documents, versions[id]);
    forall a, b | SameNumber(ready, a, b) ensures a == b {
      assert SameNumber(versions, a, b);
    }
    forall i | i in ready ensures HasDocument(after, ready[i]) {
      assert HasDocument(documents, versions[i]);
    }
    forall d | d in after ensures IsCurrent(ready, d, after[d].currentVersion) {
      var before := documents[d].currentVersion;
      assert IsCurrent(versions, d, before);
      assert forall i :: Ready(ready, d, i) <==> Ready(versions, d, i) || (i == id && d == versions[id].document);
    }
  }

  /** Documents stay right as long as no version becomes or stops being ready and no link changes. */
  lemma SameReady(s: State, t: State)
    requires CurrentInv(s.versions, s.documents)
    requires t.versions.Keys == s.versions.Keys && t.documents.Keys == s.documents.Keys
    requires forall id :: id in s.versions ==>
      && t.versions[id].document == s.versions[id].document && t.versions[id].number == s.versions[id].number
      && t.versions[id].organization == s.versions[id].organization
      && (t.versions[id].state == READY_FOR_REVIEW <==> s.versions[id].state == READY_FOR_REVIEW)
    requires forall d :: d in s.documents ==>
      t.documents[d].currentVersion == s.documents[d].currentVersion && t.documents[d].organization == s.documents[d].organization
    ensures CurrentInv(t.versions, t.documents)
  {
    forall a, b | SameNumber(t.versions, a, b) ensures a == b {
      assert SameNumber(s.versions, a, b);
    }
    forall id | id in t.versions ensures HasDocument(t.documents, t.versions[id]) {
      assert HasDocument(s.documents, s.versions[id]);
    }
    forall d | d in t.documents ensures IsCurrent(t.versions, d, t.documents[d].currentVersion) {
      assert IsCurrent(s.versions, d, s.documents[d].currentVersion);
      assert forall id :: Ready(t.versions, d, id) ==> Ready(s.versions, d, id);
    }
  }

  lemma AcceptKeepsCurrent(s: State, key: Key, result: Completion, artifacts: map<ObjectKey, Artifact>)
    requires KeysInv(s.versions, s.runs) && CurrentInv(s.versions, s.documents) && Acceptable(s, key, result)
    ensures var t := Accept(s, key, result, artifacts); CurrentInv(t.versions, t.documents)
  {
    UnfinishedBefore(s, key, result);
    if NextState(result) == COMPLETED {
      AdvanceKeepsCurrent(s.versions, s.documents, result.version);
    } else {
      SameReady(s, Accept(s, key, result, artifacts));
    }
  }

  lemma AcceptKeeps(s: State, key: Key, result: Completion, artifacts: map<ObjectKey, Artifact>)
    requires Inv(s) && Acceptable(s, key, result) && ExtendsClean(s, result, artifacts)
    ensures Inv(Accept(s, key, result, artifacts))
  {
    AcceptKeepsKeys(s, key, result, artifacts);
    AcceptKeepsArtifacts(s, key, result, artifacts);
    AcceptKeepsAudit(s, key, result, artifacts);
    AcceptKeepsResults(s, key, result, artifacts);
    AcceptKeepsCurrent(s, key, result, artifacts);
  }

  // ---------------------------------------------------------------- confirming

  lemma ConfirmKeepsKeys(s: State, tx: Tx)
    requires KeysInv(s.versions, s.runs) && tx in s.confirmations && CommitConfirm(s, tx).Ok?
    ensures var t := CommitConfirm(s, tx).value; KeysInv(t.versions, t.runs)
    ensures s.versions[s.confirmations[tx].version].state == UPLOADING
  {
    var t := CommitConfirm(s, tx).value;
    var c := s.confirmations[tx];
    forall k | k in t.runs ensures RunFiled(t.versions, k, t.runs[k]) {
      if k in s.runs { assert RunFiled(s.versions, k, s.runs[k]); }
    }
    forall id | id in t.versions ensures FollowsRun(t.runs, id, t.versions[id]) {
      assert FollowsRun(s.runs, id, s.versions[id]);
    }
    assert FollowsRun(s.runs, c.version, s.versions[c.version]);
  }

  lemma ConfirmKeepsArtifacts(s: State, tx: Tx)
    requires KeysInv(s.versions, s.runs) && ArtifactsInv(s.versions, s.artifacts)
    requires tx in s.confirmations && CommitConfirm(s, tx).Ok?
    ensures var t := CommitConfirm(s, tx).value; ArtifactsInv(t.versions, t.artifacts)
  {
    ConfirmKeepsKeys(s, tx);
    var t := CommitConfirm(s, tx).value;
    var c := s.confirmations[tx];
    assert UploadOk(s.artifacts, c.version, s.versions[c.version]);
    forall id | id in t.versions ensures UploadOk(t.artifacts, id, t.versions[id]) {
      assert UploadOk(s.artifacts, id, s.versions[id]);
    }
    forall k | k in t.artifacts ensures ArtifactOk(t.versions, k, t.artifacts[k]) {
      if k in s.artifacts { assert ArtifactOk(s.versions, k, s.artifacts[k]); }
    }
  }

  lemma ConfirmKeepsAudit(s: State, tx: Tx)
    requires AuditInv(s.audit, s.runs) && tx in s.confirmations && CommitConfirm(s, tx).Ok?
    ensures var t := CommitConfirm(s, tx).value; AuditInv(t.audit, t.runs)
  {
    var t := CommitConfirm(s, tx).value;
    var x := t.audit[|s.audit|];
    forall k ensures Audited(t.audit, t.runs, k) {
      assert Audited(s.audit, s.runs, k);
      CountAppend(s.audit, x, PROCESSING_COMPLETED, OfRun(k));
      CountAppend(s.audit, x, PROCESSING_REFUSED, OfRun(k));
    }
  }

  lemma ConfirmKeepsResults(s: State, tx: Tx)
    requires ResultsInv(s.runs) && ReviewsInv(s.versions, s.reviews)
    requires KeysInv(s.versions, s.runs) && tx in s.confirmations && CommitConfirm(s, tx).Ok?
    ensures var t := CommitConfirm(s, tx).value; ResultsInv(t.runs) && ReviewsInv(t.versions, t.reviews)
  {
    ConfirmKeepsKeys(s, tx);
    var t := CommitConfirm(s, tx).value;
    forall k | k in t.runs ensures ResultOk(k, t.runs[k]) {
      if k in s.runs { assert ResultOk(k, s.runs[k]); }
    }
  }

  lemma ConfirmKeepsCurrent(s: State, tx: Tx)
    requires KeysInv(s.versions, s.runs) && CurrentInv(s.versions, s.documents)
    requires tx in s.confirmations && CommitConfirm(s, tx).Ok?
    ensures var t := CommitConfirm(s, tx).value; CurrentInv(t.versions, t.documents)
  {
    ConfirmKeepsKeys(s, tx);
    SameReady(s, CommitConfirm(s, tx).value);
  }

  lemma ConfirmKeeps(s: State, tx: Tx)
    requires Inv(s) && tx in s.confirmations && CommitConfirm(s, tx).Ok?
    ensures Inv(CommitConfirm(s, tx).value)
  {
    ConfirmKeepsKeys(s, tx);
    ConfirmKeepsArtifacts(s, tx);
    ConfirmKeepsAudit(s, tx);
    ConfirmKeepsResults(s, tx);
    ConfirmKeepsCurrent(s, tx);
  }

  // ---------------------------------------------------------------- the remaining events

  /** A run changed only in progress, link or error, its state staying outside COMPLETED and FAILED. */
  lemma RunTouchKeeps(s: State, key: Key, run: Run)
    requires Inv(s) && key in s.runs
    requires run == s.runs[key].(bullJobId := run.bullJobId, state := run.state, progress := run.progress, sanitizedError := run.sanitizedError)
    requires run.state == s.runs[key].state
             || (run.state !in {COMPLETED, FAILED} && s.runs[key].state !in {COMPLETED, FAILED})
    ensures Inv(s.(runs := s.runs[key := run]))
  {
    var runs := s.runs[key := run];
    forall k | k in runs ensures RunFiled(s.versions, k, runs[k]) && ResultOk(k, runs[k]) {
      assert RunFiled(s.versions, k, s.runs[k]);
      assert ResultOk(k, s.runs[k]);
    }
    forall id | id in s.versions ensures FollowsRun(runs, id, s.versions[id]) {
      assert FollowsRun(s.runs, id, s.versions[id]);
    }
    forall k ensures Audited(s.audit, runs, k) {
      assert Audited(s.audit, s.runs, k);
    }
  }

  lemma NewVersionKeepsKeys(s: State, id: Uuid, v: Version)
    requires KeysInv(s.versions, s.runs) && id !in s.versions && v.state == UPLOADING
    ensures KeysInv(s.versions[id := v], s.runs)
  {
    var versions := s.versions[id := v];
    forall k | k in s.runs ensures RunFiled(versions, k, s.runs[k]) {
      assert RunFiled(s.versions, k, s.runs[k]);
    }
    forall i | i in versions ensures FollowsRun(s.runs, i, versions[i]) {
      if i == id {
        assert ScanKeyOf(v, id) in s.runs ==> RunFiled(s.versions, ScanKeyOf(v, id), s.runs[ScanKeyOf(v, id)]);
      } else {
        assert FollowsRun(s.runs, i, s.versions[i]);
      }
    }
  }

  lemma NewVersionKeepsArtifacts(s: State, id: Uuid, v: Version)
    requires ArtifactsInv(s.versions, s.artifacts) && Enabled(s, NewVersion(id, v))
    ensures ArtifactsInv(s.versions[id := v], s.artifacts)
  {
    var versions := s.versions[id := v];
    forall i | i in versions ensures UploadOk(s.artifacts, i, versions[i]) {
      if i != id { assert UploadOk(s.artifacts, i, s.versions[i]); }
    }
    forall k | k in s.artifacts ensures ArtifactOk(versions, k, s.artifacts[k]) {
      assert ArtifactOk(s.versions, k, s.artifacts[k]);
    }
  }

  lemma NewVersionKeepsCurrent(s: State, id: Uuid, v: Version)
    requires CurrentInv(s.versions, s.documents) && Enabled(s, NewVersion(id, v))
    ensures CurrentInv(s.versions[id := v], s.documents)
  {
    var versions := s.versions[id := v];
    forall a, b | SameNumber(versions, a, b) ensures a == b {
      assert a != id && b != id ==> SameNumber(s.versions, a, b);
    }
    forall i | i in versions ensures HasDocument(s.documents, versions[i]) {
      if i != id { assert HasDocument(s.documents, s.versions[i]); }
    }
    forall d | d in s.documents ensures IsCurrent(versions, d, s.documents[d].currentVersion) {
      assert IsCurrent(s.versions, d, s.documents[d].currentVersion);
      assert forall i :: Ready(versions, d, i) ==> Ready(s.versions, d, i);
    }
  }

  lemma NewVersionKeeps(s: State, id: Uuid, v: Version)
    requires Inv(s) && Enabled(s, NewVersion(id, v))
    ensures Inv(s.(versions := s.versions[id := v]))
  {
    NewVersionKeepsKeys(s, id, v);
    NewVersionKeepsArtifacts(s, id, v);
    NewVersionKeepsCurrent(s, id, v);
  }

  lemma NewDocumentKeeps(s: State, d: Uuid, organization: Uuid)
    requires Inv(s) && d !in s.documents
    ensures Inv(s.(documents := s.documents[d := Document(organization, None, UPLOADING)]))
  {
    var documents := s.documents[d := Document(organization, None, UPLOADING)];
    forall id | id in s.versions ensures HasDocument(documents, s.versions[id]) {
      assert HasDocument(s.documents, s.versions[id]);
    }
    forall e | e in documents ensures IsCurrent(s.versions, e, documents[e].currentVersion) {
      if e == d {
        forall id | id in s.versions ensures !Ready(s.versions, d, id) {
          assert HasDocument(s.documents, s.versions[id]);
        }
      } else {
        assert IsCurrent(s.versions, e, s.documents[e].currentVersion);
      }
    }
  }

  /** `reprocess` never commits: it collides with the run it repeats. */
  lemma ReprocessAlwaysAborts(s: State, key: Key, correlation: Uuid)
    ensures Reprocess(s, key, correlation).Err?
    ensures key in s.runs && s.runs[key].state in {COMPLETED, FAILED, DEAD_LETTERED, CANCELLED} ==>
      Reprocess(s, key, correlation) == Err(UniqueViolation)
  {
    if key in s.runs {
      var run := s.runs[key];
      assert RunTaken(s, run.organization, run.version, run.operation, run.processorVersion);
    }
  }

  lemma InvStep(s: State, e: Event)
    requires Inv(s) && Enabled(s, e)
    ensures Inv(Apply(s, e))
  {
    match e
    case NewDocument(d, organization) => NewDocumentKeeps(s, d, organization);
    case NewVersion(id, v) => NewVersionKeeps(s, id, v);
    case BeginConfirm(tx, c) =>
    case Confirm(tx) => if CommitConfirm(s, tx).Ok? { ConfirmKeeps(s, tx); }
    case Abandon(tx) =>
    case Link(k, job) => if k in s.runs { RunTouchKeeps(s, k, s.runs[k].(bullJobId := Some(job))); }
    case Mark(k) => if k in s.runs { RunTouchKeeps(s, k, s.runs[k].(sanitizedError := Some(JOB_RECONCILED))); }
    case Persist(_, k, job, next, progress) =>
      if Apply(s, e) != s { RunTouchKeeps(s, k, s.runs[k].(bullJobId := Some(job), state := next, progress := progress)); }
    case Complete(key, result) =>
      var artifacts := CompletionCases(s, key, result);
      if Apply(s, e) != s { AcceptKeeps(s, key, result, artifacts); }
    case Again(key, correlation) => ReprocessAlwaysAborts(s, key, correlation);
  }

  // ---------------------------------------------------------------- how a single run can change

  /** The change that event `e` makes to run `k`, `a` before and `b` after. */
  ghost predicate RunChange(e: Event, k: Key, a: Run, b: Run) {
    || b == a
    || (e == Link(k, if e.Link? then e.job else BullJobId(k)) && b == a.(bullJobId := Some(e.job)))
    || (e == Mark(k) && b == a.(sanitizedError := Some(JOB_RECONCILED)))
    || (e.Persist? && e.key == k && e.next in Successors(a.state)
        && b == a.(bullJobId := Some(e.job), state := e.next, progress := e.progress))
    || (e.Complete? && e.key == k && NextState(e.result) in Successors(a.state)
        && b == a.(state := NextState(e.result), progress := 100, result := Some(StoredResult(k, e.result)), sanitizedError := b.sanitizedError))
  }

  lemma RunsChange(s: State, e: Event, k: Key)
    requires Enabled(s, e) && k in Apply(s, e).runs
    ensures k in s.runs ==> RunChange(e, k, s.runs[k], Apply(s, e).runs[k])
    ensures k !in s.runs ==>
      e.Confirm? && Apply(s, e).runs[k].state == QUEUED && Apply(s, e).runs[k].bullJobId == None && Apply(s, e).runs[k].result == None
  {
    match e
    case Complete(key, result) =>
      var artifacts := CompletionCases(s, key, result);
    case Again(key, correlation) => ReprocessAlwaysAborts(s, key, correlation);
    case _ =>
  }

  /** No run ever disappears, and only `confirm` adds one. */
  lemma RunsStay(s: State, e: Event)
    requires Enabled(s, e)
    ensures s.runs.Keys <= Apply(s, e).runs.Keys
    ensures !e.Confirm? ==> Apply(s, e).runs.Keys == s.runs.Keys
  {
    if e.Again? { ReprocessAlwaysAborts(s, e.key, e.correlation); }
    if e.Complete? { var artifacts := CompletionCases(s, e.key, e.result); }
  }

  /** Artifact rows change only when a result is accepted or an upload confirmed. */
  lemma ArtifactsStay(s: State, e: Event)
    requires Enabled(s, e) && !e.Confirm? && !e.Complete?
    ensures Apply(s, e).artifacts == s.artifacts
  {
    if e.Again? { ReprocessAlwaysAborts(s, e.key, e.correlation); }
  }

  /** The columns of a version that no transaction writes after the insert. */
  ghost predicate SameVersion(a: Version, b: Version) {
    a.(state := b.state) == b
  }

  lemma CompletionVersions(s: State, key: Key, result: Completion)
    ensures var t := Commit(s, PersistCompletion(s, key, result));
      t.versions == s.versions ||
      (result.version in s.versions && t.versions == s.versions[result.version := t.versions[result.version]]
       && SameVersion(s.versions[result.version], t.versions[result.version]))
  {
    var artifacts := CompletionCases(s, key, result);
    var t := Commit(s, PersistCompletion(s, key, result));
    if t != s {
      assert t.versions == Accept(s, key, result, artifacts).versions;
    }
  }

  lemma ConfirmVersions(s: State, tx: Tx)
    requires tx in s.confirmations && CommitConfirm(s, tx).Ok?
    ensures var t := CommitConfirm(s, tx).value; var id := s.confirmations[tx].version;
      id in s.versions && t.versions == s.versions[id := s.versions[id].(state := SCAN_QUEUED)]
  {
  }

  lemma VersionStays(s: State, e: Event, id: Uuid)
    requires Enabled(s, e) && id in s.versions
    ensures id in Apply(s, e).versions && SameVersion(s.versions[id], Apply(s, e).versions[id])
  {
    match e
    case Complete(key, result) => CompletionVersions(s, key, result);
    case Confirm(tx) => if CommitConfirm(s, tx).Ok? { ConfirmVersions(s, tx); }
    case Again(key, correlation) => ReprocessAlwaysAborts(s, key, correlation);
    case _ =>
  }

  lemma VersionsStay(s: State, e: Event)
    requires Enabled(s, e)
    ensures forall id :: id in s.versions ==> id in Apply(s, e).versions && SameVersion(s.versions[id], Apply(s, e).versions[id])
  {
    forall id | id in s.versions ensures id in Apply(s, e).versions && SameVersion(s.versions[id], Apply(s, e).versions[id]) {
      VersionStays(s, e, id);
    }
  }

  /** No document ever disappears. */
  lemma DocumentsStay(s: State, e: Event)
    requires Enabled(s, e)
    ensures s.documents.Keys <= Apply(s, e).documents.Keys
  {
    match e
    case Complete(key, result) =>
      var artifacts := CompletionCases(s, key, result);
    case Again(key, correlation) => ReprocessAlwaysAborts(s, key, correlation);
    case _ =>
  }

  /** A delivered result touches at most its run, its version and that version's document, one review and one
      audit entry; it adds artifacts only for its version and leaves every other row as it was. */
  lemma CompletionFrame(s: State, key: Key, result: Completion)
    ensures var t := Commit(s, PersistCompletion(s, key, result));
      && t.runs.Keys == s.runs.Keys
      && (forall k :: k in s.runs && k != key ==> t.runs[k] == s.runs[k])
      && (forall k :: k in s.artifacts ==> k in t.artifacts && t.artifacts[k] == s.artifacts[k])
      && (forall k :: k in t.artifacts && k !in s.artifacts ==>
            result.outcome == Completed && k in result.artifactRefs && t.artifacts[k].version == result.version
            && key in s.runs && s.runs[key].version == result.version)
      && t.versions.Keys == s.versions.Keys && t.documents.Keys == s.documents.Keys
      && (forall id :: id in s.versions && id != result.version ==> t.versions[id] == s.versions[id])
      && (forall d :: d in s.documents && (result.version in s.versions ==> d != s.versions[result.version].document) ==>
            t.documents[d] == s.documents[d])
      && s.reviews <= t.reviews <= s.reviews + {result.version}
      && s.audit <= t.audit && |t.audit| <= |s.audit| + 1
      && t.confirmations == s.confirmations
  {
    var t := Commit(s, PersistCompletion(s, key, result));
    if t != s && result.outcome == Completed {
      var r := RegisterClean(s.artifacts, result.artifactRefs, result.version, s.versions[result.version], result.checksum);
      assert t.artifacts == r.value;
    }
  }

  /** Entering COMPLETED registers every clean reference of the result. */
  lemma CompletionRegisters(s: State, key: Key, result: Completion, k: ObjectKey)
    requires key in s.runs && s.runs[key].state != COMPLETED
    requires Commit(s, PersistCompletion(s, key, result)).runs[key].state == COMPLETED
    requires k in result.artifactRefs && IsCleanRef(k, s.runs[key].organization)
    ensures k in Commit(s, PersistCompletion(s, key, result)).artifacts
  {
    var t := Commit(s, PersistCompletion(s, key, result));
    var r := RegisterClean(s.artifacts, result.artifactRefs, result.version, s.versions[result.version], result.checksum);
    assert t.artifacts == r.value;
  }
}
