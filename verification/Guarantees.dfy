/** What the processing protocol guarantees over every run: any interleaving of publishers, crashes,
    evictions, resets, repeated, late and lost queue events, and confirmations. */
module Guarantees {
  import opened Common
  import opened Entities
  import opened Worker
  import Delivery
  import Leases
  import Ledger
  import LedgerProofs
  import opened Protocol
  import opened ProtocolProofs

  const FINAL: set<Ledger.RunState> := {Ledger.COMPLETED, Ledger.FAILED}

  predicate Finished(s: State, k: Key) {
    k in s.l.runs && s.l.runs[k].state in FINAL
  }

  // ---------------------------------------------------------------- effects exactly once

  /** One audit entry, one stored result and one review stand for each accepted result, and nothing for
      a run that has none. */
  lemma EffectsMatchState(s: State, k: Key)
    requires Reachable(s)
    ensures LedgerProofs.Count(s.l.audit, Ledger.PROCESSING_COMPLETED, Ledger.OfRun(k)) ==
            if k in s.l.runs && s.l.runs[k].state == Ledger.COMPLETED then 1 else 0
    ensures LedgerProofs.Count(s.l.audit, Ledger.PROCESSING_REFUSED, Ledger.OfRun(k)) ==
            if k in s.l.runs && s.l.runs[k].state == Ledger.FAILED then 1 else 0
    ensures k in s.l.runs ==> (s.l.runs[k].result.Some? <==> Finished(s, k))
    ensures k in s.l.runs ==> (k.ScanKey? && (k.version in s.l.reviews <==> s.l.runs[k].state == Ledger.COMPLETED))
  {
    ReachableInv(s);
    assert LedgerProofs.Audited(s.l.audit, s.l.runs, k);
    if k in s.l.runs {
      assert LedgerProofs.ResultOk(k, s.l.runs[k]);
      assert LedgerProofs.RunFiled(s.l.versions, k, s.l.runs[k]);
      assert LedgerProofs.FollowsRun(s.l.runs, k.version, s.l.versions[k.version]);
    }
  }

  /** One event on one run. */
  lemma FinishedStep(s: State, e: Event, k: Key)
    requires Enabled(s, e) && k in s.l.runs
    ensures k in Apply(s, e).l.runs
    ensures s.l.runs[k].state in FINAL + {Ledger.DEAD_LETTERED, Ledger.CANCELLED} ==>
      Apply(s, e).l.runs[k].state == s.l.runs[k].state && Apply(s, e).l.runs[k].result == s.l.runs[k].result
  {
    if LedgerPart(s, e).Some? {
      LedgerProofs.RunsStay(s.l, LedgerPart(s, e).value);
      LedgerProofs.RunsChange(s.l, LedgerPart(s, e).value, k);
    }
  }

  /** A run that ended keeps its state and its stored result through every further event. */
  lemma {:induction false} EndedForever(s: State, es: seq<Event>, t: State, k: Key)
    requires Run(s, es, t) && k in s.l.runs && s.l.runs[k].state in FINAL + {Ledger.DEAD_LETTERED, Ledger.CANCELLED}
    ensures k in t.l.runs && t.l.runs[k].state == s.l.runs[k].state && t.l.runs[k].result == s.l.runs[k].result
    decreases |es|
  {
    if es != [] {
      FinishedStep(s, es[0], k);
      EndedForever(Apply(s, es[0]), es[1..], t, k);
    }
  }

  /** How often run k enters COMPLETED or FAILED along the events. */
  ghost function Entries(s: State, es: seq<Event>, k: Key): nat
    decreases |es|
  {
    if es == [] || !Enabled(s, es[0]) then 0
    else
      var t := Apply(s, es[0]);
      (if Finished(t, k) && !Finished(s, k) then 1 else 0) + Entries(t, es[1..], k)
  }

  /** Each run enters COMPLETED or FAILED at most once, whatever is delivered, repeated or reordered. */
  lemma {:induction false} EntersOnce(s: State, es: seq<Event>, t: State, k: Key)
    requires Run(s, es, t)
    ensures Entries(s, es, k) == if Finished(t, k) && !Finished(s, k) then 1 else 0
    ensures Finished(s, k) ==> Finished(t, k)
    decreases |es|
  {
    if es != [] {
      if k in s.l.runs { FinishedStep(s, es[0], k); }
      EntersOnce(Apply(s, es[0]), es[1..], t, k);
    }
  }

  /** A result read again, completed or rejected, when the run already is in the state it asks for: the
      delivery is answered without error and without change exactly if it reports the hash of the version,
      which a completion always does. */
  lemma RepeatedDeliveryIsSilent(s: State, r: Delivery.Return)
    requires Reachable(s) && Enabled(s, CompletionRead(r)) && r.id.key in s.l.runs
    requires s.l.runs[r.id.key].state == Ledger.NextState(r.value.result)
    ensures r.id.key.ScanKey?
    ensures Ledger.PersistCompletion(s.l, r.id.key, r.value.result) == Ok(s.l) <==> r.value.result.checksum == r.id.key.checksum
    ensures r.value.result.outcome == Completed ==> r.value.result.checksum == r.id.key.checksum
  {
    ReachableInv(s);
    var k := r.id.key;
    assert Delivery.ReturnFiled(s.d.rows, r);
    assert PayloadOk(s.l.versions, k, s.d.rows[k].payload);
    assert LedgerProofs.RunFiled(s.l.versions, k, s.l.runs[k]);
    assert LedgerProofs.ResultOk(k, s.l.runs[k]);
    if r.value.result.outcome == Completed {
      ReturnedRefs(s, r);
      CompletesOnlyCleared(s.d.rows[k].payload, r.execution.value);
    }
  }

  /** A report from the queue takes effect exactly if its transition is legal. */
  lemma ReportEffect(s: State, k: Key, next: Ledger.RunState)
    requires k in s.l.runs && Enabled(s, QueueEvent(k, next, 0)) && s.l.runs[k].organization == s.d.rows[k].payload.tenant
    ensures k in Apply(s, QueueEvent(k, next, 0)).l.runs
    ensures Apply(s, QueueEvent(k, next, 0)).l.runs[k].state ==
      if next in Ledger.Successors(s.l.runs[k].state) then next else s.l.runs[k].state
    ensures next !in Ledger.Successors(s.l.runs[k].state) ==> Apply(s, QueueEvent(k, next, 0)) == s
  {
  }

  /** A DEAD_LETTERED report takes effect exactly on a RETRY_SCHEDULED run: in every reachable state the run is
      dead-lettered afterwards iff it was RETRY_SCHEDULED or dead-lettered before, and in every other state,
      ACTIVE among them, the report changes nothing. */
  lemma {:induction false} DeadLetteredIff(s: State, k: Key)
    requires Reachable(s) && Enabled(s, QueueEvent(k, Ledger.DEAD_LETTERED, 0)) && k in s.l.runs
    ensures k in Apply(s, QueueEvent(k, Ledger.DEAD_LETTERED, 0)).l.runs
    ensures Apply(s, QueueEvent(k, Ledger.DEAD_LETTERED, 0)).l.runs[k].state == Ledger.DEAD_LETTERED
      <==> s.l.runs[k].state in {Ledger.RETRY_SCHEDULED, Ledger.DEAD_LETTERED}
    ensures s.l.runs[k].state != Ledger.RETRY_SCHEDULED ==> Apply(s, QueueEvent(k, Ledger.DEAD_LETTERED, 0)) == s
  {
    OneOrganization(s, k);
    ReportEffect(s, k, Ledger.DEAD_LETTERED);
  }

  /** What the failure handler reports about the job of run `k`: a retry while attempts are left. */
  function FailureReport(s: State, k: Key): Event
    requires BullJobId(k) in s.d.queue
  {
    QueueEvent(k, if s.d.queue[BullJobId(k)].attemptsMade < Delivery.MAX_ATTEMPTS then Ledger.RETRY_SCHEDULED else Ledger.DEAD_LETTERED, 0)
  }

  /** The whole effect of the failure handler: it dead-letters a run exactly if the run waited for a retry and
      the attempts are used up, makes an ACTIVE run wait for a retry exactly while attempts are left, and
      otherwise leaves everything as it was. A job that the queue failed for stalling is reported like a retry. */
  lemma {:induction false} FailureReportIff(s: State, k: Key)
    requires Reachable(s) && k in s.l.runs && BullJobId(k) in s.d.queue
    ensures Enabled(s, FailureReport(s, k)) && k in Apply(s, FailureReport(s, k)).l.runs
    ensures
      var before, after := s.l.runs[k].state, Apply(s, FailureReport(s, k)).l.runs[k].state;
      var usedUp := s.d.queue[BullJobId(k)].attemptsMade >= 5;
      && (after == Ledger.DEAD_LETTERED <==> before == Ledger.DEAD_LETTERED || (before == Ledger.RETRY_SCHEDULED && usedUp))
      && (after == Ledger.RETRY_SCHEDULED <==> before in {Ledger.ACTIVE, Ledger.RETRY_SCHEDULED} && !usedUp)
      && (after != before ==> after in {Ledger.DEAD_LETTERED, Ledger.RETRY_SCHEDULED})
      && (after == before ==> Apply(s, FailureReport(s, k)) == s)
  {
    FiledJob(s, BullJobId(k));
    OneOrganization(s, k);
    ReportEffect(s, k, FailureReport(s, k).next);
  }

  lemma OneOrganization(s: State, k: Key)
    requires Reachable(s) && k in s.l.runs && k in s.d.rows
    ensures s.l.runs[k].organization == s.d.rows[k].payload.tenant
  {
    ReachableInv(s);
    assert PayloadOk(s.l.versions, k, s.d.rows[k].payload);
    assert LedgerProofs.RunFiled(s.l.versions, k, s.l.runs[k]);
  }

  // ---------------------------------------------------------------- confirm conserves

  ghost function RunsOf(s: State, id: Uuid): set<Key> { set k | k in s.l.runs && s.l.runs[k].version == id }
  ghost function RowsOf(s: State, id: Uuid): set<Key> { set k | k in s.d.rows && s.d.rows[k].payload.version == id }
  ghost function UploadsOf(s: State, id: Uuid): set<ObjectKey> {
    set k | k in s.l.artifacts && s.l.artifacts[k].zone == Quarantine && s.l.artifacts[k].version == id
  }

  /** A version that left UPLOADING has exactly one run, one outbox row under the same key and one
      quarantine artifact; a version in UPLOADING has none of them. */
  lemma ConfirmConserves(s: State, id: Uuid)
    requires Reachable(s) && id in s.l.versions
    ensures var v := s.l.versions[id]; var key := Ledger.ScanKeyOf(v, id);
      if v.state != Ledger.UPLOADING
      then RunsOf(s, id) == {key} && RowsOf(s, id) == {key} && UploadsOf(s, id) == {v.objectKey}
      else RunsOf(s, id) == {} && RowsOf(s, id) == {} && UploadsOf(s, id) == {}
  {
    ReachableInv(s);
    var v := s.l.versions[id];
    var key := Ledger.ScanKeyOf(v, id);
    forall k | k in s.l.runs ensures s.l.runs[k].version == id <==> k == key {
      assert LedgerProofs.RunFiled(s.l.versions, k, s.l.runs[k]);
    }
    forall k | k in s.d.rows ensures s.d.rows[k].payload.version == id <==> k == key {
      assert PayloadOk(s.l.versions, k, s.d.rows[k].payload);
    }
    UploadRows(s, id);
    assert LedgerProofs.FollowsRun(s.l.runs, id, v);
  }

  lemma UploadRows(s: State, id: Uuid)
    requires Reachable(s) && id in s.l.versions
    ensures UploadsOf(s, id) == if s.l.versions[id].state != Ledger.UPLOADING then {s.l.versions[id].objectKey} else {}
  {
    ReachableInv(s);
    var v := s.l.versions[id];
    assert LedgerProofs.UploadOk(s.l.artifacts, id, v);
    forall k | k in s.l.artifacts ensures k in UploadsOf(s, id) ==> k == v.objectKey && v.state != Ledger.UPLOADING {
      assert LedgerProofs.ArtifactOk(s.l.versions, k, s.l.artifacts[k]);
    }
    if v.state != Ledger.UPLOADING {
      var a := s.l.artifacts[v.objectKey];
      assert LedgerProofs.ArtifactOk(s.l.versions, v.objectKey, a);
      assert LedgerProofs.UploadOk(s.l.artifacts, a.version, s.l.versions[a.version]);
    }
  }

  predicate CommitsConfirm(s: State, e: Event, id: Uuid) {
    e.Confirm? && e.tx in s.l.confirmations && s.l.confirmations[e.tx].version == id && Ledger.CommitConfirm(s.l, e.tx).Ok?
  }

  /** How many confirmations of version `id` commit along the events. */
  ghost function Commits(s: State, es: seq<Event>, id: Uuid): nat
    decreases |es|
  {
    if es == [] || !Enabled(s, es[0]) then 0
    else (if CommitsConfirm(s, es[0], id) then 1 else 0) + Commits(Apply(s, es[0]), es[1..], id)
  }

  predicate Confirmed(s: State, id: Uuid) {
    id in s.l.versions && s.l.versions[id].state != Ledger.UPLOADING
  }

  lemma ConfirmedStep(s: State, e: Event, id: Uuid)
    requires Reachable(s) && Enabled(s, e)
    ensures Confirmed(Apply(s, e), id) <==> Confirmed(s, id) || CommitsConfirm(s, e, id)
    ensures CommitsConfirm(s, e, id) ==> !Confirmed(s, id)
  {
    var t := Apply(s, e);
    if e.Confirm? && Ledger.CommitConfirm(s.l, e.tx).Ok? {
      ReachableInv(s);
      LedgerProofs.ConfirmKeepsKeys(s.l, e.tx);
      LedgerProofs.ConfirmVersions(s.l, e.tx);
    } else if LedgerPart(s, e).Some? {
      UnconfirmedStays(s, e, id);
    }
  }

  /** Only a committed confirmation takes a version out of UPLOADING, and nothing takes it back. */
  lemma UnconfirmedStays(s: State, e: Event, id: Uuid)
    requires Reachable(s) && Enabled(s, e) && LedgerPart(s, e).Some?
    requires !(e.Confirm? && Ledger.CommitConfirm(s.l, e.tx).Ok?)
    ensures Confirmed(Apply(s, e), id) <==> Confirmed(s, id)
  {
    var x := LedgerPart(s, e).value;
    if id in s.l.versions {
      ReachableInv(s);
      InvStep(s, e);
      OldVersionStays(s.l, x, id);
    } else if id in Apply(s, e).l.versions {
      NewVersionsUpload(s.l, x, id);
    }
  }

  lemma OldVersionStays(l: Ledger.State, x: Ledger.Event, id: Uuid)
    requires Ledger.Enabled(l, x) && LedgerProofs.Inv(l) && LedgerProofs.Inv(Ledger.Apply(l, x)) && id in l.versions
    requires !(x.Confirm? && Ledger.CommitConfirm(l, x.tx).Ok?)
    ensures id in Ledger.Apply(l, x).versions
    ensures l.versions[id].state == Ledger.UPLOADING <==> Ledger.Apply(l, x).versions[id].state == Ledger.UPLOADING
  {
    var m := Ledger.Apply(l, x);
    LedgerProofs.RunsStay(l, x);
    LedgerProofs.VersionsStay(l, x);
    assert LedgerProofs.FollowsRun(l.runs, id, l.versions[id]);
    assert LedgerProofs.FollowsRun(m.runs, id, m.versions[id]);
  }

  lemma NewVersionsUpload(l: Ledger.State, x: Ledger.Event, id: Uuid)
    requires Ledger.Enabled(l, x) && id !in l.versions && id in Ledger.Apply(l, x).versions
    ensures Ledger.Apply(l, x).versions[id].state == Ledger.UPLOADING
  {
    match x
    case Complete(key, result) => LedgerProofs.CompletionVersions(l, key, result);
    case Confirm(tx) => if Ledger.CommitConfirm(l, tx).Ok? { LedgerProofs.ConfirmVersions(l, tx); }
    case Again(key, correlation) => LedgerProofs.ReprocessAlwaysAborts(l, key, correlation);
    case _ =>
  }

  lemma {:induction false} ConfirmsOnceFrom(s: State, es: seq<Event>, t: State, id: Uuid)
    requires Reachable(s) && Run(s, es, t)
    ensures Commits(s, es, id) == if Confirmed(t, id) && !Confirmed(s, id) then 1 else 0
    ensures Confirmed(s, id) ==> Confirmed(t, id)
    decreases |es|
  {
    if es != [] {
      ReachStep(s, es[0]);
      ConfirmedStep(s, es[0], id);
      ConfirmsOnceFrom(Apply(s, es[0]), es[1..], t, id);
    }
  }

  /** Of any number of concurrent confirmations of a version at most one commits. */
  lemma ConfirmsOnce(es: seq<Event>, t: State, id: Uuid)
    requires Run(Init, es, t)
    ensures Commits(Init, es, id) == if Confirmed(t, id) then 1 else 0
  {
    assert Run(Init, [], Init);
    ConfirmsOnceFrom(Init, es, t, id);
  }

  /** A confirmation in progress can always be settled: it commits or its transaction aborts. */
  lemma ConfirmationsSettle(s: State, tx: Ledger.Tx)
    requires Reachable(s) && tx in s.l.confirmations
    ensures Enabled(s, Confirm(tx)) && tx !in Apply(s, Confirm(tx)).l.confirmations
  {
    ReachableInv(s);
  }

  // ---------------------------------------------------------------- scan before release

  /** Every clean artifact belongs to a version whose run is COMPLETED, carries the version's hash, and
      stems from an execution in which signature check and antivirus scan passed on content with it. */
  lemma ScanBeforeRelease(s: State, k: ObjectKey)
    requires Reachable(s) && k in s.l.artifacts && s.l.artifacts[k].zone == Clean
    ensures var a := s.l.artifacts[k]; a.version in s.l.versions && var v := s.l.versions[a.version]; var key := Ledger.ScanKeyOf(v, a.version);
      && key in s.l.runs && s.l.runs[key].state == Ledger.COMPLETED
      && a.checksum == v.checksum
      && exists r :: r in s.d.returned && r.id == BullJobId(key) && r.execution.Some? && Cleared(r.execution.value, v.checksum, v.contentType)
  {
    ReachableInv(s);
    var a := s.l.artifacts[k];
    assert LedgerProofs.ArtifactOk(s.l.versions, k, a);
    var v := s.l.versions[a.version];
    var key := Ledger.ScanKeyOf(v, a.version);
    assert LedgerProofs.FollowsRun(s.l.runs, a.version, v);
    CompletedRunWasCleared(s, key);
  }

  lemma CompletedRunWasCleared(s: State, key: Key)
    requires Reachable(s) && key in s.l.runs && s.l.runs[key].state == Ledger.COMPLETED
    ensures key.ScanKey? && key.version in s.l.versions && var v := s.l.versions[key.version];
      exists r :: r in s.d.returned && r.id == BullJobId(key) && r.execution.Some? && Cleared(r.execution.value, v.checksum, v.contentType)
  {
    ReachableInv(s);
    var run := s.l.runs[key];
    assert LedgerProofs.RunFiled(s.l.versions, key, run);
    assert LedgerProofs.ResultOk(key, run);
    assert Returned(s.d.returned, key, run);
    assert PayloadOk(s.l.versions, key, s.d.rows[key].payload);
    var x :| Delivery.Return(BullJobId(key), Compact(run.result.value.result), x) in s.d.returned;
    ReturnedRefs(s, Delivery.Return(BullJobId(key), Compact(run.result.value.result), x));
  }

  /** The clean rows among which `findOne` picks one. */
  ghost function CleanRows(s: State, organization: Uuid, id: Uuid): set<ObjectKey> {
    set k | k in s.l.artifacts && s.l.artifacts[k].organization == organization && s.l.artifacts[k].version == id
            && s.l.artifacts[k].zone == Clean
  }

  const SCAN_PASSED_STATES: set<Ledger.Status> := {
    Ledger.SCAN_PASSED, Ledger.EXTRACTION_QUEUED, Ledger.EXTRACTING, Ledger.READY_FOR_REVIEW,
    Ledger.APPROVED, Ledger.REJECTED, Ledger.RETURNED_FOR_COMPLEMENT}

  /** `findOne` may answer with a read URL for object `k`. */
  ghost predicate OffersRead(s: State, organization: Uuid, id: Uuid, k: ObjectKey) {
    && id in s.l.versions && s.l.versions[id].organization == organization
    && s.l.versions[id].document in s.l.documents
    && s.l.versions[id].state in SCAN_PASSED_STATES
    && k in CleanRows(s, organization, id)
  }

  /** A read URL is offered exactly for the one clean object of a version whose run is COMPLETED; no
      quarantined, rejected or unfinished version ever gets one. */
  lemma ReadUrlIff(s: State, organization: Uuid, id: Uuid, k: ObjectKey)
    requires Reachable(s) && id in s.l.versions
    ensures var v := s.l.versions[id]; var key := Ledger.ScanKeyOf(v, id);
      OffersRead(s, organization, id, k) <==>
        v.organization == organization && key in s.l.runs && s.l.runs[key].state == Ledger.COMPLETED
        && key in s.d.rows && k == CleanKey(s.d.rows[key].payload)
  {
    ReachableInv(s);
    var v := s.l.versions[id];
    var key := Ledger.ScanKeyOf(v, id);
    assert LedgerProofs.FollowsRun(s.l.runs, id, v);
    assert LedgerProofs.HasDocument(s.l.documents, v);
    if k in s.l.artifacts {
      assert LedgerProofs.ArtifactOk(s.l.versions, k, s.l.artifacts[k]);
      assert CleanOk(s.d, s.l.versions, k, s.l.artifacts[k]);
    }
    if key in s.l.runs && s.l.runs[key].state == Ledger.COMPLETED {
      assert HasClean(s.d, s.l.artifacts, key, s.l.runs[key]);
      assert PayloadOk(s.l.versions, key, s.d.rows[key].payload);
      CleanKeyOwner(s, key);
    }
  }

  /** The clean key of a payload is registered for the payload's own version. */
  lemma CleanKeyOwner(s: State, key: Key)
    requires Reachable(s) && key in s.d.rows && CleanKey(s.d.rows[key].payload) in s.l.artifacts
    ensures key.ScanKey? && s.l.artifacts[CleanKey(s.d.rows[key].payload)].version == key.version
    ensures s.l.artifacts[CleanKey(s.d.rows[key].payload)].zone == Clean
    ensures s.l.artifacts[CleanKey(s.d.rows[key].payload)].organization == key.organization
  {
    ReachableInv(s);
    var k := CleanKey(s.d.rows[key].payload);
    var a := s.l.artifacts[k];
    assert PayloadOk(s.l.versions, key, s.d.rows[key].payload);
    assert CleanOk(s.d, s.l.versions, k, a);
    assert LedgerProofs.ArtifactOk(s.l.versions, k, a);
    var other := Ledger.ScanKeyOf(s.l.versions[a.version], a.version);
    assert PayloadOk(s.l.versions, other, s.d.rows[other].payload);
  }

  // ---------------------------------------------------------------- the current version

  ghost predicate CompletedVersion(s: State, d: Uuid, id: Uuid) {
    && id in s.l.versions && s.l.versions[id].document == d
    && var key := Ledger.ScanKeyOf(s.l.versions[id], id);
       key in s.l.runs && s.l.runs[key].state == Ledger.COMPLETED
  }

  /** The current version of a document is its highest-numbered version whose run is COMPLETED, and there
      is none exactly when no run is. */
  lemma CurrentIsHighest(s: State, d: Uuid)
    requires Reachable(s) && d in s.l.documents
    ensures s.l.documents[d].currentVersion.None? <==> !exists id :: CompletedVersion(s, d, id)
    ensures s.l.documents[d].currentVersion.Some? ==>
      var c := s.l.documents[d].currentVersion.value;
      CompletedVersion(s, d, c) && forall id :: CompletedVersion(s, d, id) && id != c ==> s.l.versions[id].number < s.l.versions[c].number
  {
    ReachableInv(s);
    forall id ensures CompletedVersion(s, d, id) <==> LedgerProofs.Ready(s.l.versions, d, id) {
      if id in s.l.versions { assert LedgerProofs.FollowsRun(s.l.runs, id, s.l.versions[id]); }
    }
    var current := s.l.documents[d].currentVersion;
    assert LedgerProofs.IsCurrent(s.l.versions, d, current);
    forall id | CompletedVersion(s, d, id) && current.Some? && id != current.value
      ensures s.l.versions[id].number < s.l.versions[current.value].number
    {
      assert !LedgerProofs.SameNumber(s.l.versions, id, current.value);
    }
  }

  /** Whatever order results arrive in, the number of the current version never goes down. */
  lemma CurrentNeverGoesBack(s: State, es: seq<Event>, t: State, d: Uuid)
    requires Reachable(s) && Run(s, es, t) && d in s.l.documents && s.l.documents[d].currentVersion.Some?
    ensures d in t.l.documents && t.l.documents[d].currentVersion.Some?
    ensures var a, b := s.l.documents[d].currentVersion.value, t.l.documents[d].currentVersion.value;
      a in s.l.versions && b in t.l.versions && s.l.versions[a].number <= t.l.versions[b].number
  {
    var prefix :| Run(Init, prefix, s);
    RunAppend(Init, prefix, s, es, t);
    CurrentIsHighest(s, d);
    var a := s.l.documents[d].currentVersion.value;
    CompletedStays(s, es, t, d, a);
    CurrentIsHighest(t, d);
  }

  lemma {:induction false} CompletedStays(s: State, es: seq<Event>, t: State, d: Uuid, id: Uuid)
    requires Run(s, es, t) && d in s.l.documents && CompletedVersion(s, d, id)
    ensures d in t.l.documents && CompletedVersion(t, d, id) && t.l.versions[id].number == s.l.versions[id].number
    decreases |es|
  {
    if es != [] {
      var e := es[0];
      FinishedStep(s, e, Ledger.ScanKeyOf(s.l.versions[id], id));
      if LedgerPart(s, e).Some? {
        LedgerProofs.VersionsStay(s.l, LedgerPart(s, e).value);
        LedgerProofs.DocumentsStay(s.l, LedgerPart(s, e).value);
      }
      CompletedStays(Apply(s, e), es[1..], t, d, id);
    }
  }

  // ---------------------------------------------------------------- no lost intent

  /** Every run has its outbox row under the same key, and that row is either still to be published, or
      the queue accepted its job after the row's latest reset. */
  lemma NoLostIntent(s: State, k: Key)
    requires Reachable(s) && k in s.l.runs
    ensures k in s.d.rows && s.d.rows[k].payload.key == k && k in s.d.epoch
    ensures s.d.rows[k].publishedAt.None? || (k, s.d.epoch[k]) in s.d.accepted
  {
    ReachableInv(s);
    assert PayloadOk(s.l.versions, k, s.d.rows[k].payload);
    assert Delivery.RowAccepted(s.d.epoch, s.d.accepted, k, s.d.rows[k]);
  }

  /** Every run of the protocol is a run of the delivery machine, so what holds of leases holds here. */
  lemma {:induction false} DeliveryProjection(s: State, es: seq<Event>, t: State) returns (ds: seq<Delivery.Event>)
    requires Run(s, es, t)
    ensures Leases.Run(s.d, ds, t.d)
    decreases |es|
  {
    if es == [] {
      ds := [];
    } else {
      var rest := DeliveryProjection(Apply(s, es[0]), es[1..], t);
      var dp := DeliveryPart(s, es[0]);
      ds := (if dp.Some? then [dp.value] else []) + rest;
      assert dp.Some? ==> ds[1..] == rest;
      assert dp.None? ==> ds == rest;
    }
  }
}
