/** Invariants across delivery and ledger. */
module ProtocolProofs {
  import opened Common
  import opened Entities
  import opened Worker
  import Delivery
  import Ledger
  import LedgerProofs
  import opened Protocol

  /** An outbox payload describes the version it was made for. */
  ghost predicate PayloadOk(versions: LedgerProofs.Versions, k: Key, p: Payload) {
    && k.ScanKey? && k.version in versions
    && p.key == k && p.version == k.version && p.tenant == k.organization && p.checksum == k.checksum
    && var v := versions[k.version];
       k == Ledger.ScanKeyOf(v, k.version) && p.source == v.objectKey && p.contentType == v.contentType && p.document == v.document
       && p.processorVersion == Ledger.SCAN_VERSION
  }

  ghost predicate RowsInv(s: State) {
    && s.d.rows.Keys == s.l.runs.Keys
    && forall k {:trigger PayloadOk(s.l.versions, k, s.d.rows[k].payload)} :: k in s.d.rows ==>
         PayloadOk(s.l.versions, k, s.d.rows[k].payload)
  }

  /** A linked run is linked to the hash of its own key; runs that were active are linked. */
  ghost predicate Linked(k: Key, run: Ledger.Run) {
    && (run.bullJobId == None || run.bullJobId == Some(BullJobId(k)))
    && (run.state in {Ledger.ACTIVE, Ledger.RETRY_SCHEDULED} ==> run.bullJobId.Some?)
  }

  ghost predicate LinksInv(s: State) {
    forall k {:trigger Linked(k, s.l.runs[k])} :: k in s.l.runs ==> Linked(k, s.l.runs[k])
  }

  /** The stored result of a run is a value its job returned. */
  ghost predicate Returned(returned: set<Delivery.Return>, k: Key, run: Ledger.Run) {
    run.result.Some? ==> exists x :: Delivery.Return(BullJobId(k), Compact(run.result.value.result), x) in returned
  }

  ghost predicate ReturnedInv(s: State) {
    forall k {:trigger Returned(s.d.returned, k, s.l.runs[k])} :: k in s.l.runs ==> Returned(s.d.returned, k, s.l.runs[k])
  }

  /** The clean row of a version, if any, is the one that its payload's pipeline names. */
  ghost predicate CleanOk(d: Delivery.State, versions: LedgerProofs.Versions, k: ObjectKey, a: Ledger.Artifact) {
    k.zone == Clean ==>
      a.version in versions && var key := Ledger.ScanKeyOf(versions[a.version], a.version);
      key in d.rows && k == CleanKey(d.rows[key].payload)
  }

  /** A completed run has its clean row. */
  ghost predicate HasClean(d: Delivery.State, artifacts: map<ObjectKey, Ledger.Artifact>, k: Key, run: Ledger.Run) {
    run.state == Ledger.COMPLETED && k in d.rows ==> CleanKey(d.rows[k].payload) in artifacts
  }

  ghost predicate CleanInv(s: State) {
    && (forall k {:trigger CleanOk(s.d, s.l.versions, k, s.l.artifacts[k])} :: k in s.l.artifacts ==>
          CleanOk(s.d, s.l.versions, k, s.l.artifacts[k]))
    && (forall k {:trigger HasClean(s.d, s.l.artifacts, k, s.l.runs[k])} :: k in s.l.runs ==>
          HasClean(s.d, s.l.artifacts, k, s.l.runs[k]))
  }

  ghost predicate Inv(s: State) {
    Delivery.Inv(s.d) && LedgerProofs.Inv(s.l) && RowsInv(s) && LinksInv(s) && ReturnedInv(s) && CleanInv(s)
  }

  lemma PartsStep(s: State, e: Event)
    requires Inv(s) && Enabled(s, e)
    ensures Delivery.Inv(Apply(s, e).d) && LedgerProofs.Inv(Apply(s, e).l)
  {
    if DeliveryPart(s, e).Some? { Delivery.InvStep(s.d, DeliveryPart(s, e).value); }
    if LedgerPart(s, e).Some? { LedgerProofs.InvStep(s.l, LedgerPart(s, e).value); }
  }

  /** Payloads and the identity of versions never change; rows come with runs. */
  lemma DeliveryFrame(d: Delivery.State, e: Delivery.Event)
    requires Delivery.Enabled(d, e)
    ensures var u := Delivery.Apply(d, e);
      && u.rows.Keys == d.rows.Keys + (if e.Insert? then {e.key} else {})
      && (forall k :: k in d.rows ==> u.rows[k].payload == d.rows[k].payload)
      && (e.Insert? ==> u.rows[e.key].payload == e.payload)
      && d.returned <= u.returned && d.accepted <= u.accepted
  {
  }

  lemma PayloadsStep(s: State, e: Event)
    requires Inv(s) && Enabled(s, e)
    ensures forall k :: k in s.d.rows ==> k in Apply(s, e).d.rows && PayloadOk(Apply(s, e).l.versions, k, Apply(s, e).d.rows[k].payload)
  {
    var t := Apply(s, e);
    if DeliveryPart(s, e).Some? { DeliveryFrame(s.d, DeliveryPart(s, e).value); }
    if LedgerPart(s, e).Some? { LedgerProofs.VersionsStay(s.l, LedgerPart(s, e).value); }
    forall k | k in s.d.rows ensures k in t.d.rows && PayloadOk(t.l.versions, k, t.d.rows[k].payload) {
      assert PayloadOk(s.l.versions, k, s.d.rows[k].payload);
    }
  }

  lemma NewRowStep(s: State, tx: Ledger.Tx)
    requires RowsInv(s) && Enabled(s, Confirm(tx))
    ensures var t := Apply(s, Confirm(tx));
      t.d.rows.Keys == t.l.runs.Keys && forall k :: k in t.d.rows && k !in s.d.rows ==> PayloadOk(t.l.versions, k, t.d.rows[k].payload)
  {
  }

  lemma OldRowsStep(s: State, e: Event)
    requires RowsInv(s) && Enabled(s, e) && !e.Confirm?
    ensures var t := Apply(s, e); t.d.rows.Keys == s.d.rows.Keys && t.l.runs.Keys == s.l.runs.Keys
  {
    if DeliveryPart(s, e).Some? { DeliveryFrame(s.d, DeliveryPart(s, e).value); }
    if LedgerPart(s, e).Some? { LedgerProofs.RunsStay(s.l, LedgerPart(s, e).value); }
  }

  lemma RowsStep(s: State, e: Event)
    requires Inv(s) && Enabled(s, e)
    ensures RowsInv(Apply(s, e))
  {
    PayloadsStep(s, e);
    if e.Confirm? { NewRowStep(s, e.tx); } else { OldRowsStep(s, e); }
  }

  lemma LinksStep(s: State, e: Event)
    requires Inv(s) && Enabled(s, e)
    ensures LinksInv(Apply(s, e))
  {
    var t := Apply(s, e);
    forall k | k in t.l.runs ensures Linked(k, t.l.runs[k]) {
      if LedgerPart(s, e).Some? { LedgerProofs.RunsChange(s.l, LedgerPart(s, e).value, k); }
      if k in s.l.runs {
        assert Linked(k, s.l.runs[k]);
        assert PayloadOk(s.l.versions, k, s.d.rows[k].payload);
      }
    }
  }

  /** What a run can gain in one step: nothing, or the result that was just read. */
  lemma ResultFrame(s: State, e: Event, k: Key)
    requires Enabled(s, e) && k in Apply(s, e).l.runs
    ensures var run := Apply(s, e).l.runs[k];
      || (k in s.l.runs && run.result == s.l.runs[k].result)
      || (k !in s.l.runs && run.result == None)
      || (e.CompletionRead? && e.completion.value.Compact? && e.completion.id.key == k
          && run.result == Some(Ledger.StoredResult(k, e.completion.value.result)))
  {
    if LedgerPart(s, e).Some? { LedgerProofs.RunsChange(s.l, LedgerPart(s, e).value, k); }
  }

  lemma ReturnedStep(s: State, e: Event)
    requires Inv(s) && Enabled(s, e)
    ensures ReturnedInv(Apply(s, e))
  {
    var t := Apply(s, e);
    if DeliveryPart(s, e).Some? { DeliveryFrame(s.d, DeliveryPart(s, e).value); }
    forall k | k in t.l.runs ensures Returned(t.d.returned, k, t.l.runs[k]) {
      ResultFrame(s, e, k);
      if k in s.l.runs && t.l.runs[k].result == s.l.runs[k].result {
        assert Returned(s.d.returned, k, s.l.runs[k]);
      } else if e.CompletionRead? {
        ReadReturn(s, e.completion);
      }
    }
  }

  lemma ReadReturn(s: State, r: Delivery.Return)
    requires Delivery.HistoryInv(s.d) && r in s.d.returned && r.value.Compact?
    ensures Delivery.Return(BullJobId(r.id.key), Compact(r.value.result), r.execution) in s.d.returned
  {
    assert Delivery.ReturnFiled(s.d.rows, r);
  }

  // ---------------------------------------------------------------- clean rows

  /** A completion that a job returned names exactly the clean key of its payload. */
  lemma ReturnedRefs(s: State, r: Delivery.Return)
    requires Delivery.HistoryInv(s.d) && r in s.d.returned && r.value.Compact? && r.value.result.outcome == Completed
    ensures r.id.key in s.d.rows && r.value.result.artifactRefs == [CleanKey(s.d.rows[r.id.key].payload)]
    ensures r.execution.Some?
    ensures Cleared(r.execution.value, s.d.rows[r.id.key].payload.checksum, s.d.rows[r.id.key].payload.contentType)
  {
    assert Delivery.ReturnFiled(s.d.rows, r);
    CompletesOnlyCleared(s.d.rows[r.id.key].payload, r.execution.value);
  }

  /** Events that leave the artifact table and the set of completed runs alone. */
  lemma CleanFrame(s: State, e: Event)
    requires Enabled(s, e) && !e.CompletionRead? && !e.Confirm?
    ensures Apply(s, e).l.artifacts == s.l.artifacts && Apply(s, e).l.runs.Keys == s.l.runs.Keys
    ensures forall k :: k in s.l.runs && Apply(s, e).l.runs[k].state == Ledger.COMPLETED ==> s.l.runs[k].state == Ledger.COMPLETED
  {
    if LedgerPart(s, e).Some? {
      var x := LedgerPart(s, e).value;
      LedgerProofs.ArtifactsStay(s.l, x);
      LedgerProofs.RunsStay(s.l, x);
      forall k | k in s.l.runs && Apply(s, e).l.runs[k].state == Ledger.COMPLETED ensures s.l.runs[k].state == Ledger.COMPLETED {
        LedgerProofs.RunsChange(s.l, x, k);
      }
    }
  }

  lemma CleanFrameStep(s: State, e: Event)
    requires Inv(s) && Enabled(s, e) && !e.CompletionRead? && !e.Confirm?
    ensures CleanInv(Apply(s, e))
  {
    var t := Apply(s, e);
    CleanFrame(s, e);
    if DeliveryPart(s, e).Some? { DeliveryFrame(s.d, DeliveryPart(s, e).value); }
    if LedgerPart(s, e).Some? { LedgerProofs.VersionsStay(s.l, LedgerPart(s, e).value); }
    forall k | k in t.l.artifacts ensures CleanOk(t.d, t.l.versions, k, t.l.artifacts[k]) {
      assert CleanOk(s.d, s.l.versions, k, s.l.artifacts[k]);
    }
    forall k | k in t.l.runs ensures HasClean(t.d, t.l.artifacts, k, t.l.runs[k]) {
      assert HasClean(s.d, s.l.artifacts, k, s.l.runs[k]);
    }
  }

  lemma ConfirmFrame(s: State, tx: Ledger.Tx)
    requires Inv(s) && Enabled(s, Confirm(tx))
    ensures var t := Apply(s, Confirm(tx));
      && (forall k :: k in s.l.artifacts ==> k in t.l.artifacts && t.l.artifacts[k] == s.l.artifacts[k])
      && (forall k :: k in t.l.artifacts && k !in s.l.artifacts ==> k.zone == Quarantine)
      && (forall k :: k in s.l.runs ==> k in t.l.runs && t.l.runs[k] == s.l.runs[k])
      && (forall k :: k in t.l.runs && k !in s.l.runs ==> t.l.runs[k].state == Ledger.QUEUED)
  {
    if Ledger.CommitConfirm(s.l, tx).Ok? {
      var c := s.l.confirmations[tx];
      assert LedgerProofs.UploadOk(s.l.artifacts, c.version, s.l.versions[c.version]);
    }
  }

  lemma CleanConfirmStep(s: State, tx: Ledger.Tx)
    requires Inv(s) && Enabled(s, Confirm(tx))
    ensures CleanInv(Apply(s, Confirm(tx)))
  {
    var e := Confirm(tx);
    var t := Apply(s, e);
    if DeliveryPart(s, e).Some? { DeliveryFrame(s.d, DeliveryPart(s, e).value); }
    LedgerProofs.VersionsStay(s.l, LedgerPart(s, e).value);
    ConfirmFrame(s, tx);
    forall k | k in t.l.artifacts ensures CleanOk(t.d, t.l.versions, k, t.l.artifacts[k]) {
      if k in s.l.artifacts { assert CleanOk(s.d, s.l.versions, k, s.l.artifacts[k]); }
    }
    forall k | k in t.l.runs ensures HasClean(t.d, t.l.artifacts, k, t.l.runs[k]) {
      if k in s.l.runs { assert HasClean(s.d, s.l.artifacts, k, s.l.runs[k]); }
    }
  }

  lemma CleanCompletionStep(s: State, r: Delivery.Return)
    requires Inv(s) && Enabled(s, CompletionRead(r))
    ensures CleanInv(Apply(s, CompletionRead(r)))
  {
    var t := Apply(s, CompletionRead(r));
    var key := r.id.key;
    var result := r.value.result;
    LedgerProofs.CompletionFrame(s.l, key, result);
    LedgerProofs.VersionsStay(s.l, LedgerPart(s, CompletionRead(r)).value);
    assert PayloadOk(s.l.versions, key, s.d.rows[key].payload);
    assert LedgerProofs.RunFiled(s.l.versions, key, s.l.runs[key]);
    if result.outcome == Completed { ReturnedRefs(s, r); }
    forall k | k in t.l.artifacts ensures CleanOk(t.d, t.l.versions, k, t.l.artifacts[k]) {
      if k in s.l.artifacts { assert CleanOk(s.d, s.l.versions, k, s.l.artifacts[k]); }
    }
    CompletedHasClean(s, r);
    forall k | k in t.l.runs ensures HasClean(t.d, t.l.artifacts, k, t.l.runs[k]) {
      if k != key { assert HasClean(s.d, s.l.artifacts, k, s.l.runs[k]); }
    }
  }

  lemma CompletedHasClean(s: State, r: Delivery.Return)
    requires Inv(s) && Enabled(s, CompletionRead(r)) && r.id.key in s.l.runs
    ensures var t := Apply(s, CompletionRead(r)); var key := r.id.key;
            key in t.l.runs && HasClean(t.d, t.l.artifacts, key, t.l.runs[key])
  {
    var t := Apply(s, CompletionRead(r));
    var key := r.id.key;
    LedgerProofs.CompletionFrame(s.l, key, r.value.result);
    assert HasClean(s.d, s.l.artifacts, key, s.l.runs[key]);
    LedgerProofs.RunsChange(s.l, LedgerPart(s, CompletionRead(r)).value, key);
    if t.l.runs[key].state == Ledger.COMPLETED && s.l.runs[key].state != Ledger.COMPLETED {
      ReturnedRefs(s, r);
      assert PayloadOk(s.l.versions, key, s.d.rows[key].payload);
      assert LedgerProofs.RunFiled(s.l.versions, key, s.l.runs[key]);
      LedgerProofs.CompletionRegisters(s.l, key, r.value.result, CleanKey(s.d.rows[key].payload));
    }
  }

  lemma CleanStep(s: State, e: Event)
    requires Inv(s) && Enabled(s, e)
    ensures CleanInv(Apply(s, e))
  {
    match e
    case Confirm(tx) => CleanConfirmStep(s, tx);
    case CompletionRead(r) => CleanCompletionStep(s, r);
    case _ => CleanFrameStep(s, e);
  }

  lemma InvStep(s: State, e: Event)
    requires Inv(s) && Enabled(s, e)
    ensures Inv(Apply(s, e))
  {
    PartsStep(s, e);
    RowsStep(s, e);
    LinksStep(s, e);
    ReturnedStep(s, e);
    CleanStep(s, e);
  }

  lemma {:induction false} RunKeepsInv(s: State, es: seq<Event>, t: State)
    requires Inv(s) && Run(s, es, t)
    ensures Inv(t)
    decreases |es|
  {
    if es != [] {
      InvStep(s, es[0]);
      RunKeepsInv(Apply(s, es[0]), es[1..], t);
    }
  }

  lemma ReachableInv(s: State)
    requires Reachable(s)
    ensures Inv(s)
  {
    var es :| Run(Init, es, s);
    RunKeepsInv(Init, es, s);
  }

  // ---------------------------------------------------------------- facts about reachable states

  lemma ReachStep(s: State, e: Event)
    requires Reachable(s) && Enabled(s, e)
    ensures Reachable(Apply(s, e))
  {
    var es :| Run(Init, es, s);
    assert [e][1..] == [];
    RunAppend(Init, es, s, [e], Apply(s, e));
  }

  lemma ReachRun(s: State, es: seq<Event>, t: State)
    requires Reachable(s) && Run(s, es, t)
    ensures Reachable(t)
  {
    var before :| Run(Init, before, s);
    RunAppend(Init, before, s, es, t);
  }

  lemma FiledJob(s: State, id: JobId)
    requires Reachable(s) && id in s.d.queue
    ensures Delivery.JobFiled(s.d.rows, id, s.d.queue[id].data) && Delivery.JobKnown(s.d.accepted, s.d.returned, id, s.d.queue[id])
  {
    ReachableInv(s);
  }

  lemma FiledRun(s: State, k: Key)
    requires Reachable(s) && (k in s.l.runs || k in s.d.rows)
    ensures k in s.l.runs && k in s.d.rows && PayloadOk(s.l.versions, k, s.d.rows[k].payload)
    ensures LedgerProofs.RunFiled(s.l.versions, k, s.l.runs[k]) && Linked(k, s.l.runs[k])
  {
    ReachableInv(s);
  }

  /** A completion that a job returned names the clean key of its payload. */
  lemma CompletionRefs(s: State, r: Delivery.Return)
    requires Reachable(s) && r in s.d.returned && r.value.Compact? && r.value.result.outcome == Completed
    ensures r.id.key in s.d.rows && r.value.result.artifactRefs == [CleanKey(s.d.rows[r.id.key].payload)]
  {
    ReachableInv(s);
    ReturnedRefs(s, r);
  }
}
