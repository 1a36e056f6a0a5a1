/** Two runs of the protocol whose job fails for good without its run being dead-lettered: the attempts are used
    up while the run is ACTIVE, or the job stalls too often while the run waits for a retry. From then on neither
    the report of the failure nor the reconciler moves the run. A third run of the protocol loses its job, which the
    reconciler does repair. */
module Exhaustion {
  import opened Common
  import opened Entities
  import Delivery
  import Ledger
  import opened Protocol
  import opened ProtocolProofs
  import Guarantees
  import opened Recovery

  const HASH: Checksum := Sha256Hex([])

  function Uploaded(): Ledger.Version {
    Ledger.Version(1, 1, 1, HASH, 1, [], ObjectKey(Quarantine, 1, 2, Literal([])), Ledger.UPLOADING)
  }

  function TheKey(): Key { ScanKey(1, 2, HASH) }

  function ThePayload(): Payload { Ledger.PayloadFor(Uploaded(), Ledger.Confirmation(2, 0, true, false)) }

  /** A version is uploaded and its confirmation has read it. */
  lemma Confirming() returns (s: State)
    ensures Reachable(s) && s.d == Delivery.Init
    ensures s.l.versions == map[2 := Uploaded()] && s.l.runs == map[] && s.l.artifacts == map[]
    ensures s.l.confirmations == map[0 := Ledger.Confirmation(2, 0, true, false)]
  {
    assert Run(Init, [], Init);
    var a, b, c := Record(Ledger.NewDocument(1, 1)), Record(Ledger.NewVersion(2, Uploaded())),
                   Record(Ledger.BeginConfirm(0, Ledger.Confirmation(2, 0, true, false)));
    ReachStep(Init, a);
    var s1 := Apply(Init, a);
    ReachStep(s1, b);
    var s2 := Apply(s1, b);
    ReachStep(s2, c);
    s := Apply(s2, c);
  }

  /** The confirmation commits. */
  lemma Confirmed() returns (s: State)
    ensures Reachable(s) && TheKey() in s.l.runs && s.l.runs[TheKey()].state == Ledger.QUEUED
    ensures s.d == Delivery.Init.(rows := map[TheKey() := Delivery.Row(ThePayload(), None, None, None, None)], epoch := map[TheKey() := 0])
  {
    var before := Confirming();
    assert Ledger.CommitConfirm(before.l, 0).Ok?;
    assert InsertFor(before.l, 0) == Some(Delivery.Insert(TheKey(), ThePayload()));
    ReachStep(before, Confirm(0));
    s := Apply(before, Confirm(0));
    assert s.d.rows == map[TheKey() := Delivery.Row(ThePayload(), None, None, None, None)];
  }

  /** The run is waiting to be published. */
  ghost predicate Queued(s: State) {
    Reachable(s) && TheKey() in s.l.runs && s.l.runs[TheKey()].state == Ledger.QUEUED
    && TheKey() in s.d.rows && s.d.rows[TheKey()].payload == ThePayload()
  }

  /** A publisher claims the row. */
  lemma RowClaimed() returns (s: State)
    ensures Queued(s) && s.d.queue == map[] && TheKey() in s.d.epoch && s.d.epoch[TheKey()] == 0
    ensures 0 in s.d.publishers && s.d.publishers[0] == Delivery.Publisher([TheKey()], Delivery.Claimed)
  {
    var before := Confirmed();
    var claim := Deliver(Delivery.Claim(0, [TheKey()]));
    ReachStep(before, claim);
    s := Apply(before, claim);
  }

  /** It queues the job. */
  lemma JobQueued() returns (s: State)
    ensures Queued(s) && (TheKey(), 0) in s.d.accepted
    ensures 0 in s.d.publishers && s.d.publishers[0] == Delivery.Publisher([TheKey()], Delivery.Queued)
    ensures s.d.queue == map[BullJobId(TheKey()) := Delivery.Job(ThePayload(), Delivery.Waiting, 0)]
  {
    var before := RowClaimed();
    assert Delivery.Holds(before.d, 0, Delivery.Claimed);
    var add := Deliver(Delivery.Add(0));
    ReachStep(before, add);
    s := Apply(before, add);
  }

  /** It links the run. */
  lemma RunLinked() returns (s: State)
    ensures Queued(s) && (TheKey(), 0) in s.d.accepted && IsLinked(s, TheKey())
    ensures s.d.queue == map[BullJobId(TheKey()) := Delivery.Job(ThePayload(), Delivery.Waiting, 0)]
  {
    var before := JobQueued();
    assert Delivery.Holds(before.d, 0, Delivery.Queued);
    ReachStep(before, LinkRun(0));
    s := Apply(before, LinkRun(0));
  }

  /** A worker starts the job. */
  lemma JobStarted() returns (s: State)
    ensures Queued(s) && (TheKey(), 0) in s.d.accepted && IsLinked(s, TheKey())
    ensures s.d.queue == map[BullJobId(TheKey()) := Delivery.Job(ThePayload(), Delivery.Running, 0)]
  {
    var before := RunLinked();
    var start := Deliver(Delivery.StartJob(BullJobId(TheKey())));
    ReachStep(before, start);
    s := Apply(before, start);
  }

  /** The listener makes the run ACTIVE. */
  lemma JobRunning() returns (s: State)
    ensures Reachable(s) && TheKey() in s.l.runs && s.l.runs[TheKey()].state == Ledger.ACTIVE && IsLinked(s, TheKey())
    ensures BullJobId(TheKey()) in s.d.queue
    ensures s.d.queue[BullJobId(TheKey())] == Delivery.Job(ThePayload(), Delivery.Running, 0)
  {
    var before := JobStarted();
    Guarantees.OneOrganization(before, TheKey());
    var active := QueueEvent(TheKey(), Ledger.ACTIVE, 0);
    ReachStep(before, active);
    s := Apply(before, active);
  }

  ghost predicate HasJob(s: State, k: Key, status: Delivery.JobStatus) {
    Reachable(s) && k in s.l.runs && BullJobId(k) in s.d.queue && s.d.queue[BullJobId(k)].status == status
  }

  function Made(s: State, k: Key): nat
    requires BullJobId(k) in s.d.queue
  {
    s.d.queue[BullJobId(k)].attemptsMade
  }

  lemma AttemptStarts(s: State, k: Key) returns (u: State)
    requires HasJob(s, k, Delivery.Waiting)
    ensures HasJob(u, k, Delivery.Running) && u.l == s.l && Made(u, k) == Made(s, k)
  {
    var start := Deliver(Delivery.StartJob(BullJobId(k)));
    ReachStep(s, start);
    u := Apply(s, start);
  }

  lemma AttemptFails(s: State, k: Key) returns (u: State)
    requires HasJob(s, k, Delivery.Running)
    ensures HasJob(u, k, if Made(s, k) + 1 < Delivery.MAX_ATTEMPTS then Delivery.Waiting else Delivery.Exhausted)
    ensures u.l == s.l && Made(u, k) == Made(s, k) + 1
  {
    var fail := Deliver(Delivery.FailAttempt(BullJobId(k)));
    ReachStep(s, fail);
    u := Apply(s, fail);
  }

  lemma AttemptStalls(s: State, k: Key) returns (u: State)
    requires HasJob(s, k, Delivery.Running)
    ensures HasJob(u, k, Delivery.Exhausted) && u.l == s.l && Made(u, k) == Made(s, k)
  {
    var stall := Deliver(Delivery.Stall(BullJobId(k), true));
    ReachStep(s, stall);
    u := Apply(s, stall);
  }

  /** Each attempt fails, is handed out again while attempts are left, and fails again. */
  lemma {:induction false} AttemptsFail(s: State, k: Key) returns (u: State)
    requires HasJob(s, k, Delivery.Running) && Made(s, k) < Delivery.MAX_ATTEMPTS
    ensures HasJob(u, k, Delivery.Exhausted) && u.l == s.l && Made(u, k) == Delivery.MAX_ATTEMPTS
    decreases Delivery.MAX_ATTEMPTS - Made(s, k)
  {
    u := AttemptFails(s, k);
    if Made(u, k) < Delivery.MAX_ATTEMPTS {
      u := AttemptStarts(u, k);
      u := AttemptsFail(u, k);
    }
  }

  /** The first attempt fails, and the listener makes the run wait for a retry. */
  lemma RetryScheduled() returns (s: State)
    ensures HasJob(s, TheKey(), Delivery.Waiting) && Made(s, TheKey()) == 1
    ensures s.l.runs[TheKey()].state == Ledger.RETRY_SCHEDULED
  {
    var running := JobRunning();
    var failed := AttemptFails(running, TheKey());
    var report := Guarantees.FailureReport(failed, TheKey());
    Guarantees.FailureReportIff(failed, TheKey());
    ReachStep(failed, report);
    s := Apply(failed, report);
  }

  /** Neither the handler's own report nor any number of reconcile rounds moves run `k`. */
  ghost predicate NothingMoves(s: State, k: Key, state: Ledger.RunState)
    requires BullJobId(k) in s.d.queue
  {
    && Enabled(s, Guarantees.FailureReport(s, k)) && Apply(s, Guarantees.FailureReport(s, k)) == s
    && forall lists, passes, t :: |lists| == |passes| && Rounds(s, lists, passes, t) ==> Stuck(t, k, state)
  }

  lemma StaysStuck(s: State, k: Key, state: Ledger.RunState)
    requires Reachable(s) && Stuck(s, k, state)
    requires state == (if s.d.queue[BullJobId(k)].attemptsMade < Delivery.MAX_ATTEMPTS then Ledger.RETRY_SCHEDULED else Ledger.ACTIVE)
    ensures NothingMoves(s, k, state)
  {
    Guarantees.FailureReportIff(s, k);
    forall lists, passes, t | |lists| == |passes| && Rounds(s, lists, passes, t) ensures Stuck(t, k, state) {
      ExhaustedRunStays(s, k, lists, passes, t, state);
    }
  }

  /** A run of the protocol leaves an ACTIVE run with a job whose attempts are used up, and nothing moves it. */
  lemma StuckIsReachable() returns (s: State, k: Key)
    ensures Reachable(s) && Stuck(s, k, Ledger.ACTIVE) && s.d.queue[BullJobId(k)].attemptsMade == 5
    ensures NothingMoves(s, k, Ledger.ACTIVE)
  {
    var running := JobRunning();
    k := TheKey();
    s := AttemptsFail(running, k);
    StaysStuck(s, k, Ledger.ACTIVE);
  }

  /** Another leaves a run waiting for a retry of a job that stalled too often after its first attempt, and
      nothing moves it either: the handler reports the failure as one more retry. */
  lemma StalledIsReachable() returns (s: State, k: Key)
    ensures Reachable(s) && Stuck(s, k, Ledger.RETRY_SCHEDULED) && s.d.queue[BullJobId(k)].attemptsMade == 1
    ensures NothingMoves(s, k, Ledger.RETRY_SCHEDULED)
  {
    var waiting := RetryScheduled();
    k := TheKey();
    var running := AttemptStarts(waiting, k);
    s := AttemptStalls(running, k);
    StaysStuck(s, k, Ledger.RETRY_SCHEDULED);
  }

  /** A third one loses its job: the queue evicts it while the run is ACTIVE and linked to it. */
  lemma LostJobIsReachable() returns (s: State, k: Key)
    ensures Reachable(s) && k in s.l.runs && s.l.runs[k].state == Ledger.ACTIVE && IsLinked(s, k)
    ensures BullJobId(k) !in s.d.queue && k in s.d.rows && s.d.rows[k].payload.wellFormed
  {
    var running := JobRunning();
    k := TheKey();
    FiledJob(running, BullJobId(k));
    var evict := Deliver(Delivery.Evict(BullJobId(k)));
    ReachStep(running, evict);
    s := Apply(running, evict);
  }
}
