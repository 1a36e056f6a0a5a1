/** What the transactions on the ledger do, column by column: which answer they give, what is in the tables
    afterwards, and what that means for the status of a document over whole runs. */
module Effects {
  import opened Common
  import opened Entities
  import Delivery
  import opened Ledger
  import LedgerProofs
  import P = Protocol
  import ProtocolProofs

  // ---------------------------------------------------------------- persistCompletion

  /** The result names a run of its organization and that run's version, and reports the version's hash. */
  predicate Fits(s: State, key: Key, result: Completion) {
    && key in s.runs && s.runs[key].organization == result.tenant && s.runs[key].version == result.version
    && result.version in s.versions && s.versions[result.version].organization == result.tenant
    && s.versions[result.version].checksum == result.checksum
  }

  /** A clean object of the organization is registered for another version. */
  ghost predicate Foreign(s: State, organization: Uuid, version: Uuid, k: ObjectKey) {
    k.zone == Clean && k.organization == organization && k in s.artifacts
    && !(s.artifacts[k].organization == organization && s.artifacts[k].version == version)
  }

  /** The first violated check decides the error of a result that does not fit. */
  lemma MisfitIsRefused(s: State, key: Key, result: Completion)
    requires !Fits(s, key, result)
    ensures PersistCompletion(s, key, result) == Err(
      if key !in s.runs || s.runs[key].organization != result.tenant then NotFound
      else if s.runs[key].version != result.version then VersionMismatch
      else if result.version !in s.versions || s.versions[result.version].organization != result.tenant then NotFound
      else ChecksumMismatch)
  {
  }

  /** The states in which a result that fits is accepted: ACTIVE, and QUEUED too for a rejection. In the state it
      asks for it is a repetition, in any other the transition is illegal. */
  lemma {:induction false} FittingResult(s: State, key: Key, result: Completion)
    requires Fits(s, key, result)
    ensures
      var run, answer := s.runs[key], PersistCompletion(s, key, result);
      var asked := if result.outcome == Completed then COMPLETED else FAILED;
      if run.state == asked then
        answer == if run.result.None? || (run.result.value.idempotencyKey == key && run.result.value.result.checksum == result.checksum)
                  then Ok(s) else Err(ResultDiffers)
      else if run.state == ACTIVE || (run.state == QUEUED && result.outcome == Rejected) then
        if result.outcome == Rejected || NoneForeign(s, result.tenant, result.version, result.artifactRefs)
        then answer.Ok? else answer == Err(UniqueViolation)
      else answer == Err(IllegalTransition)
  {
    if result.outcome == Completed {
      ForeignFails(s, result.artifactRefs, result.version, s.versions[result.version], result.checksum);
    }
  }

  ghost predicate NoneForeign(s: State, organization: Uuid, version: Uuid, refs: seq<ObjectKey>) {
    forall k :: k in refs ==> !Foreign(s, organization, version, k)
  }

  lemma NoneForeignNext(s: State, organization: Uuid, version: Uuid, refs: seq<ObjectKey>, k: ObjectKey)
    ensures NoneForeign(s, organization, version, refs + [k]) <==>
      NoneForeign(s, organization, version, refs) && !Foreign(s, organization, version, k)
  {
    assert k in refs + [k];
    assert forall r :: r in refs ==> r in refs + [k];
  }

  /** Registering fails exactly at a reference that another version owns. */
  lemma {:induction false} ForeignFails(s: State, refs: seq<ObjectKey>, id: Uuid, v: Version, checksum: Checksum)
    ensures RegisterClean(s.artifacts, refs, id, v, checksum).Ok? <==> NoneForeign(s, v.organization, id, refs)
    decreases |refs|
  {
    if refs != [] {
      var n := |refs| - 1;
      ForeignFails(s, refs[..n], id, v, checksum);
      NoneForeignNext(s, v.organization, id, refs[..n], refs[n]);
      assert refs[..n] + [refs[n]] == refs;
    }
  }

  /** Every row the delivery may touch, with all its columns, is as stated. */
  ghost predicate RunEnds(s: State, t: State, key: Key, result: Completion, state: RunState, error: Option<RunError>)
    requires key in s.runs
  {
    t.runs == s.runs[key := Run(
      s.runs[key].organization, s.runs[key].version, s.runs[key].operation, s.runs[key].processorVersion, s.runs[key].bullJobId,
      state, 100, Some(StoredResult(key, result)), error)]
  }

  ghost predicate VersionBecomes(s: State, t: State, id: Uuid, state: Status)
    requires id in s.versions
  {
    && t.versions.Keys == s.versions.Keys && t.versions[id].state == state
    && t.versions[id].(state := s.versions[id].state) == s.versions[id]
    && forall w :: w in s.versions && w != id ==> t.versions[w] == s.versions[w]
  }

  /** A clean row was added for each clean reference of the organization that had none, and nothing else. */
  ghost predicate CleanRowsAdded(s: State, t: State, result: Completion)
    requires result.version in s.versions
  {
    var v := s.versions[result.version];
    && (forall k :: k in t.artifacts <==> k in s.artifacts || (k in result.artifactRefs && k.zone == Clean && k.organization == v.organization))
    && (forall k :: k in s.artifacts ==> k in t.artifacts && t.artifacts[k] == s.artifacts[k])
    && (forall k :: k in t.artifacts && k !in s.artifacts ==>
          t.artifacts[k] == Artifact(v.organization, result.version, Clean, result.checksum, v.size, v.contentType))
  }

  /** An accepted completion: its run is COMPLETED, its version READY_FOR_REVIEW and reviewed. The document moves to
      the version and to READY_FOR_REVIEW if the version is newer than the current one, and stays as it is if not. */
  lemma {:induction false} CompletionWrites(s: State, key: Key, result: Completion)
    requires Fits(s, key, result) && result.outcome == Completed
    requires s.runs[key].state != COMPLETED && PersistCompletion(s, key, result).Ok?
    ensures
      var t, id, v := PersistCompletion(s, key, result).value, result.version, s.versions[result.version];
      && RunEnds(s, t, key, result, COMPLETED, None)
      && VersionBecomes(s, t, id, READY_FOR_REVIEW) && CleanRowsAdded(s, t, result)
      && t.reviews == s.reviews + {id} && t.confirmations == s.confirmations
      && t.audit == s.audit + [AuditEntry(result.tenant, PROCESSING_COMPLETED, OfRun(key))]
      && (v.document !in s.documents ==> t.documents == s.documents)
      && (v.document in s.documents ==>
            var d := s.documents[v.document];
            var newer := d.currentVersion.None? || d.currentVersion.value !in s.versions
                         || s.versions[d.currentVersion.value].number < v.number;
            t.documents == if newer then s.documents[v.document := Document(d.organization, Some(id), READY_FOR_REVIEW)] else s.documents)
  {
  }

  /** An accepted rejection: its run is FAILED, its version REJECTED, without clean rows and without a review. The
      document keeps its current version and takes over its state, or REJECTED if there is none. */
  lemma {:induction false} RejectionWrites(s: State, key: Key, result: Completion)
    requires Fits(s, key, result) && result.outcome == Rejected
    requires s.runs[key].state != FAILED && PersistCompletion(s, key, result).Ok?
    ensures
      var t, id, v := PersistCompletion(s, key, result).value, result.version, s.versions[result.version];
      && RunEnds(s, t, key, result, FAILED, Some(PROCESSING_REJECTED))
      && VersionBecomes(s, t, id, REJECTED)
      && t.artifacts == s.artifacts && t.reviews == s.reviews && t.confirmations == s.confirmations
      && t.audit == s.audit + [AuditEntry(result.tenant, PROCESSING_REFUSED, OfRun(key))]
      && (v.document !in s.documents ==> t.documents == s.documents)
      && (v.document in s.documents ==>
            var d := s.documents[v.document];
            var status := if d.currentVersion.None? || d.currentVersion.value !in s.versions || d.currentVersion.value == id
                          then REJECTED else s.versions[d.currentVersion.value].state;
            t.documents == s.documents[v.document := Document(d.organization, d.currentVersion, status)])
  {
  }

  // ---------------------------------------------------------------- confirm

  /** The rows of a committed confirmation, each with all its columns. */
  ghost predicate ConfirmedRows(s: State, t: State, c: Confirmation)
    requires c.version in s.versions
  {
    var v := s.versions[c.version];
    && VersionBecomes(s, t, c.version, SCAN_QUEUED)
    && t.documents == (if v.document in s.documents
                       then s.documents[v.document := Document(s.documents[v.document].organization, s.documents[v.document].currentVersion, PROCESSING)]
                       else s.documents)
    && t.artifacts == s.artifacts[v.objectKey := Artifact(v.organization, c.version, Quarantine, v.checksum, v.size, v.contentType)]
    && t.runs == s.runs[ScanKey(v.organization, c.version, v.checksum) :=
         Run(v.organization, c.version, "document.virus_scan", "scan-v1", None, QUEUED, 0, None, None)]
    && t.audit == s.audit + [AuditEntry(v.organization, UPLOAD_CONFIRMED, OfVersion(c.version))]
    && t.reviews == s.reviews
  }

  /** The outbox row of a committed confirmation. */
  ghost predicate ConfirmedPayload(v: Version, c: Confirmation, row: Delivery.Row) {
    row == Delivery.Row(
      Payload(c.wellFormed, ScanKey(v.organization, c.version, v.checksum), v.organization, v.document, c.version, c.correlation,
              v.objectKey, v.checksum, v.contentType, "scan-v1", c.aiOptIn), None, None, None, None)
  }

  /** In every reachable state, a confirmation commits exactly if its version is still UPLOADING; then all its rows
      are there, the outbox row with what the worker needs among them, and otherwise nothing is. */
  lemma ConfirmWrites(s: P.State, tx: Tx)
    requires P.Reachable(s) && tx in s.l.confirmations
    ensures P.Enabled(s, P.Confirm(tx)) && s.l.confirmations[tx].version in s.l.versions
    ensures
      var t, c := P.Apply(s, P.Confirm(tx)), s.l.confirmations[tx];
      var v := s.l.versions[c.version];
      && t.l.confirmations == s.l.confirmations - {tx}
      && (v.state != UPLOADING ==> t.d == s.d && t.l == s.l.(confirmations := s.l.confirmations - {tx}))
      && (v.state == UPLOADING ==>
            var key := ScanKey(v.organization, c.version, v.checksum);
            && ConfirmedRows(s.l, t.l, c)
            && t.d.rows.Keys == s.d.rows.Keys + {key} && key !in s.d.rows && ConfirmedPayload(v, c, t.d.rows[key])
            && forall k :: k in s.d.rows ==> t.d.rows[k] == s.d.rows[k])
  {
    ProtocolProofs.ReachableInv(s);
    ConfirmSettles(s.l, tx);
    ConfirmInserts(s, tx);
  }

  lemma ConfirmInserts(s: P.State, tx: Tx)
    requires ProtocolProofs.Inv(s) && tx in s.l.confirmations
    ensures P.Enabled(s, P.Confirm(tx)) && s.l.confirmations[tx].version in s.l.versions
    ensures
      var t, c := P.Apply(s, P.Confirm(tx)), s.l.confirmations[tx];
      var v := s.l.versions[c.version];
      && t.l == Commit(AbortConfirm(s.l, tx), CommitConfirm(s.l, tx))
      && (CommitConfirm(s.l, tx).Err? ==> t.d == s.d)
      && (CommitConfirm(s.l, tx).Ok? ==>
            var key := ScanKey(v.organization, c.version, v.checksum);
            && t.d.rows.Keys == s.d.rows.Keys + {key} && key !in s.d.rows && ConfirmedPayload(v, c, t.d.rows[key])
            && forall k :: k in s.d.rows ==> t.d.rows[k] == s.d.rows[k])
  {
  }

  lemma ConfirmSettles(s: State, tx: Tx)
    requires LedgerProofs.Inv(s) && tx in s.confirmations
    ensures s.confirmations[tx].version in s.versions
    ensures var c := s.confirmations[tx];
      if s.versions[c.version].state == UPLOADING
      then CommitConfirm(s, tx).Ok? && ConfirmedRows(s, CommitConfirm(s, tx).value, c)
      else CommitConfirm(s, tx) == Err(UniqueViolation)
  {
    var c := s.confirmations[tx];
    var v := s.versions[c.version];
    assert LedgerProofs.FollowsRun(s.runs, c.version, v) && LedgerProofs.UploadOk(s.artifacts, c.version, v);
    if v.state == UPLOADING {
      forall k | k in s.runs ensures s.runs[k].version != c.version { assert LedgerProofs.RunFiled(s.versions, k, s.runs[k]); }
      forall k | k in s.artifacts && k.zone == Quarantine ensures k.version in s.versions && s.versions[k.version].state != UPLOADING {
        UploadOwner(s, k);
      }
    }
  }

  /** A quarantine row belongs to the confirmed version that its key names. */
  lemma UploadOwner(s: State, k: ObjectKey)
    requires LedgerProofs.Inv(s) && k in s.artifacts && k.zone == Quarantine
    ensures k.version in s.versions && s.versions[k.version].state != UPLOADING
  {
    var a := s.artifacts[k];
    assert LedgerProofs.ArtifactOk(s.versions, k, a);
    assert LedgerProofs.UploadOk(s.artifacts, a.version, s.versions[a.version]);
  }

  // ---------------------------------------------------------------- the status of a document

  ghost predicate Started(versions: map<Uuid, Version>, d: Uuid) {
    exists id :: id in versions && versions[id].document == d && versions[id].state != UPLOADING
  }

  /** UPLOADING until a version is confirmed; READY_FOR_REVIEW only with a current version, REJECTED only without. */
  ghost predicate StatusOk(s: State, d: Uuid)
    requires d in s.documents
  {
    var doc := s.documents[d];
    && doc.status in {UPLOADING, PROCESSING, READY_FOR_REVIEW, REJECTED}
    && (doc.status == UPLOADING <==> !Started(s.versions, d))
    && (doc.status == READY_FOR_REVIEW ==> doc.currentVersion.Some?)
    && (doc.status == REJECTED ==> doc.currentVersion.None?)
  }

  ghost predicate StatusInv(s: State) {
    forall d :: d in s.documents ==> StatusOk(s, d)
  }

  /** Documents and their versions as far as the status law sees them. */
  lemma StatusSame(s: State, t: State)
    requires StatusInv(s) && t.documents == s.documents && t.versions == s.versions
    ensures StatusInv(t)
  {
    forall d | d in t.documents ensures StatusOk(t, d) { assert StatusOk(s, d); }
  }

  /** Version `id` leaves UPLOADING or had left it; nothing else about which documents were started changes. */
  lemma StartedByOne(s: State, t: State, id: Uuid, state: Status, d: Uuid)
    requires id in s.versions && VersionBecomes(s, t, id, state) && state != UPLOADING
    ensures Started(t.versions, d) <==> Started(s.versions, d) || d == s.versions[id].document
  {
    if Started(s.versions, d) {
      var w :| w in s.versions && s.versions[w].document == d && s.versions[w].state != UPLOADING;
      assert w in t.versions && t.versions[w].document == d;
    }
    if d == s.versions[id].document { assert t.versions[id].document == d; }
    if Started(t.versions, d) {
      var w :| w in t.versions && t.versions[w].document == d && t.versions[w].state != UPLOADING;
      assert w != id ==> s.versions[w] == t.versions[w];
    }
  }

  lemma StatusAfterNew(s: State, e: Event)
    requires LedgerProofs.Inv(s) && StatusInv(s) && Enabled(s, e) && (e.NewDocument? || e.NewVersion?)
    ensures StatusInv(Apply(s, e))
  {
    var t := Apply(s, e);
    forall d | d in t.documents ensures StatusOk(t, d) {
      forall id | id in s.versions ensures s.versions[id].document in s.documents { assert LedgerProofs.HasDocument(s.documents, s.versions[id]); }
      if Started(t.versions, d) {
        var w :| w in t.versions && t.versions[w].document == d && t.versions[w].state != UPLOADING;
        assert w in s.versions && s.versions[w] == t.versions[w];
      }
      if Started(s.versions, d) {
        var w :| w in s.versions && s.versions[w].document == d && s.versions[w].state != UPLOADING;
        assert w in t.versions && t.versions[w] == s.versions[w];
      }
      assert d in s.documents ==> StatusOk(s, d);
    }
  }

  lemma StatusAfterConfirm(s: State, tx: Tx)
    requires LedgerProofs.Inv(s) && StatusInv(s) && tx in s.confirmations
    ensures StatusInv(Apply(s, Confirm(tx)))
  {
    ConfirmSettles(s, tx);
    var c, t := s.confirmations[tx], Apply(s, Confirm(tx));
    if CommitConfirm(s, tx).Ok? {
      forall d | d in t.documents ensures StatusOk(t, d) {
        StartedByOne(s, t, c.version, SCAN_QUEUED, d);
        assert StatusOk(s, d);
      }
    } else {
      StatusSame(s, t);
    }
  }

  /** A version with a run has left UPLOADING. */
  lemma FitsStarted(s: State, key: Key, result: Completion)
    requires LedgerProofs.Inv(s) && Fits(s, key, result)
    ensures Started(s.versions, s.versions[result.version].document)
  {
    assert LedgerProofs.RunFiled(s.versions, key, s.runs[key]);
    assert LedgerProofs.FollowsRun(s.runs, result.version, s.versions[result.version]);
    assert s.versions[result.version].state != UPLOADING;
  }

  lemma StatusAfterCompletion(s: State, key: Key, result: Completion)
    requires LedgerProofs.Inv(s) && StatusInv(s) && Fits(s, key, result) && PersistCompletion(s, key, result).Ok?
    requires result.outcome == Completed && s.runs[key].state != COMPLETED
    ensures StatusInv(PersistCompletion(s, key, result).value)
  {
    var t := PersistCompletion(s, key, result).value;
    CompletionWrites(s, key, result);
    FitsStarted(s, key, result);
    forall d | d in t.documents ensures StatusOk(t, d) {
      StartedByOne(s, t, result.version, READY_FOR_REVIEW, d);
      assert StatusOk(s, d);
    }
  }

  lemma StatusAfterRejection(s: State, key: Key, result: Completion)
    requires LedgerProofs.Inv(s) && StatusInv(s) && Fits(s, key, result) && PersistCompletion(s, key, result).Ok?
    requires result.outcome == Rejected && s.runs[key].state != FAILED
    ensures StatusInv(PersistCompletion(s, key, result).value)
  {
    var t := PersistCompletion(s, key, result).value;
    RejectionWrites(s, key, result);
    FitsStarted(s, key, result);
    UnfinishedIsNotReady(s, key, result);
    forall d | d in t.documents ensures StatusOk(t, d) {
      StartedByOne(s, t, result.version, REJECTED, d);
      assert StatusOk(s, d) && LedgerProofs.IsCurrent(s.versions, d, s.documents[d].currentVersion);
      if s.documents[d].currentVersion.Some? { assert LedgerProofs.Ready(s.versions, d, s.documents[d].currentVersion.value); }
    }
  }

  /** The version of a run that can still be rejected is not the current one. */
  lemma UnfinishedIsNotReady(s: State, key: Key, result: Completion)
    requires LedgerProofs.Inv(s) && Fits(s, key, result) && PersistCompletion(s, key, result).Ok?
    requires result.outcome == Rejected && s.runs[key].state != FAILED
    ensures s.versions[result.version].state != READY_FOR_REVIEW
  {
    FittingResult(s, key, result);
    assert LedgerProofs.RunFiled(s.versions, key, s.runs[key]);
    assert LedgerProofs.FollowsRun(s.runs, result.version, s.versions[result.version]);
  }

  lemma StatusAfterResult(s: State, key: Key, result: Completion)
    requires LedgerProofs.Inv(s) && StatusInv(s)
    ensures StatusInv(Apply(s, Complete(key, result)))
  {
    if !Fits(s, key, result) {
      MisfitIsRefused(s, key, result);
    } else {
      FittingResult(s, key, result);
      if PersistCompletion(s, key, result).Ok? && PersistCompletion(s, key, result).value != s {
        if result.outcome == Completed { StatusAfterCompletion(s, key, result); } else { StatusAfterRejection(s, key, result); }
      }
    }
  }

  lemma StatusStep(s: State, e: Event)
    requires LedgerProofs.Inv(s) && StatusInv(s) && Enabled(s, e)
    ensures StatusInv(Apply(s, e))
  {
    match e
    case NewDocument(_, _) => StatusAfterNew(s, e);
    case NewVersion(_, _) => StatusAfterNew(s, e);
    case Confirm(tx) => StatusAfterConfirm(s, tx);
    case Complete(key, result) => StatusAfterResult(s, key, result);
    case Again(key, correlation) => LedgerProofs.ReprocessAlwaysAborts(s, key, correlation);
    case _ => StatusSame(s, Apply(s, e));
  }

  lemma {:induction false} StatusRun(s: P.State, es: seq<P.Event>, t: P.State)
    requires ProtocolProofs.Inv(s) && StatusInv(s.l) && P.Run(s, es, t)
    ensures StatusInv(t.l)
    decreases |es|
  {
    if es != [] {
      ProtocolProofs.InvStep(s, es[0]);
      if P.LedgerPart(s, es[0]).Some? { StatusStep(s.l, P.LedgerPart(s, es[0]).value); }
      StatusRun(P.Apply(s, es[0]), es[1..], t);
    }
  }

  /** The status of a document in every reachable state: UPLOADING exactly as long as none of its versions was
      confirmed, then PROCESSING, READY_FOR_REVIEW only with a current version and REJECTED only without one. */
  lemma StatusFollowsVersions(s: P.State, d: Uuid)
    requires P.Reachable(s) && d in s.l.documents
    ensures var doc := s.l.documents[d];
      && (doc.status == UPLOADING <==>
          forall id :: id in s.l.versions && s.l.versions[id].document == d ==> s.l.versions[id].state == UPLOADING)
      && (doc.status != UPLOADING ==>
          || doc.status == PROCESSING
          || (doc.status == READY_FOR_REVIEW && doc.currentVersion.Some?)
          || (doc.status == REJECTED && doc.currentVersion.None?))
  {
    var es :| P.Run(P.Init, es, s);
    StatusRun(P.Init, es, s);
    assert StatusOk(s.l, d);
  }
}
