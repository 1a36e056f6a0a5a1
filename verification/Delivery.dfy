/** At-least-once delivery: outbox rows leased by publishers, a queue that de-duplicates by job id, and
    the worker side of that queue. Every event is one atomic database statement, queue call or clock
    tick; publishers interleave at that grain and may stop at any point. */
module Delivery {
  import opened Common
  import opened Entities
  import opened Worker

  type Token = nat

  /** The five minutes of a lease, in milliseconds. */
  const LEASE: nat := 300_000
  const BATCH: nat := 100
  const MAX_ATTEMPTS: nat := 5

  datatype Row = Row(
    payload: Payload, publishedAt: Option<nat>, claimedAt: Option<nat>, claimToken: Option<Token>, failure: Option<string>)

  /** `Exhausted` is the failed state: no attempt is left, or the job stalled too often. */
  datatype JobStatus = Waiting | Running | Done(value: ReturnValue) | Exhausted

  datatype Job = Job(data: Payload, status: JobStatus, attemptsMade: nat)

  /** How far a publisher is with the first row of its work list. */
  datatype Phase = Claimed | Queued | Linked

  datatype Publisher = Publisher(worklist: seq<Key>, phase: Phase)

  /** A return of a job, with the pipeline execution behind it when it reports a completion. */
  datatype Return = Return(id: JobId, value: ReturnValue, execution: Option<Execution>)

  /** `epoch[k]` counts the resets of row k; `accepted` holds (k, e) when the queue accepted the job of
      row k while its epoch was e; `returned` is every value any job ever returned. These three are
      history: no event reads them. */
  datatype State = State(
    now: nat, rows: map<Key, Row>, queue: map<JobId, Job>, publishers: map<Token, Publisher>, usedTokens: set<Token>,
    epoch: map<Key, nat>, accepted: set<(Key, nat)>, returned: set<Return>)

  const Init := State(0, map[], map[], map[], {}, map[], {}, {})

  datatype Event =
    | Insert(key: Key, payload: Payload)
    | Claim(token: Token, batch: seq<Key>)
    | Add(token: Token)
    | Link(token: Token)
    | Finish(token: Token)
    | Fail(token: Token, code: string)
    | Stop(token: Token)
    | Reset(key: Key)
    | Tick(delta: nat)
    | StartJob(id: JobId)
    | ReturnJob(id: JobId, value: ReturnValue, execution: Option<Execution>)
    | FailAttempt(id: JobId)
    | Stall(id: JobId, tooOften: bool)
    | Evict(id: JobId)

  predicate Claimable(r: Row, now: nat) {
    r.publishedAt.None? && (r.claimedAt.None? || r.claimedAt.value + LEASE < now)
  }

  /** A set of rows that one claim statement may return. */
  ghost predicate ClaimBatch(s: State, batch: seq<Key>) {
    |batch| <= BATCH && Distinct(batch) && forall k :: k in batch ==> k in s.rows && Claimable(s.rows[k], s.now)
  }

  /** The publisher works on row `key`. */
  predicate Holds(s: State, token: Token, phase: Phase) {
    token in s.publishers && s.publishers[token].phase == phase && s.publishers[token].worklist != []
    && s.publishers[token].worklist[0] in s.rows
  }

  function Head(s: State, token: Token): Key
    requires token in s.publishers && s.publishers[token].worklist != []
  {
    s.publishers[token].worklist[0]
  }

  /** A job reports a completion only by returning from the worker's pipeline; what else a return may
      carry (a rejection, a malformed value) is left open. */
  predicate Produces(job: Payload, value: ReturnValue, execution: Option<Execution>) {
    value.Compact? && value.result.outcome == Completed ==>
      execution.Some? && Pipeline(job, execution.value) == Ok(value.result)
  }

  ghost predicate Enabled(s: State, e: Event) {
    match e
    case Insert(k, payload) => k !in s.rows && payload.key == k
    case Claim(t, batch) => t !in s.usedTokens && ClaimBatch(s, batch)
    case Add(t) => Holds(s, t, Claimed) && s.rows[Head(s, t)].payload.wellFormed
    case Link(t) => Holds(s, t, Queued)
    case Finish(t) => Holds(s, t, Linked)
    case Fail(t, _) => exists phase :: Holds(s, t, phase)
    case Stop(t) => t in s.publishers
    case Reset(k) => k in s.rows
    case Tick(_) => true
    case StartJob(id) => id in s.queue && s.queue[id].status == Waiting
    case ReturnJob(id, value, x) =>
      id in s.queue && s.queue[id].status == Running && Produces(s.queue[id].data, value, x)
    case FailAttempt(id) => id in s.queue && s.queue[id].status == Running
    // The worker stopped: the queue hands the job out again, or fails it after too many stalls.
    case Stall(id, _) => id in s.queue && s.queue[id].status == Running
    case Evict(id) => id in s.queue
  }

  function ClaimRows(rows: map<Key, Row>, batch: seq<Key>, now: nat, token: Token): map<Key, Row> {
    map k | k in rows :: if k in batch then rows[k].(claimedAt := Some(now), claimToken := Some(token)) else rows[k]
  }

  /** `complete_outbox_event`: only the current lease holder writes. `code` is the failure, if any. */
  function CompleteRow(r: Row, now: nat, token: Token, code: Option<string>): Row {
    if r.claimToken != Some(token) then r
    else r.(
        publishedAt := if code.None? then Some(now) else r.publishedAt,
        failure := if code.None? then None else Some(if |code.value| <= 80 then code.value else code.value[..80]),
        claimedAt := None, claimToken := None)
  }

  function ResetRow(r: Row): Row { r.(publishedAt := None, claimedAt := None, claimToken := None) }

  /** `queue.add`: nothing happens when the job id is taken. */
  function AddJob(queue: map<JobId, Job>, payload: Payload): map<JobId, Job> {
    var id := BullJobId(payload.key);
    if id in queue then queue else queue[id := Job(payload, Waiting, 0)]
  }

  /** The publisher is done with the first row of its list. */
  function Advance(s: State, token: Token): map<Token, Publisher>
    requires token in s.publishers && s.publishers[token].worklist != []
  {
    s.publishers[token := Publisher(s.publishers[token].worklist[1..], Claimed)]
  }

  function Complete(s: State, token: Token, code: Option<string>): State
    requires token in s.publishers && s.publishers[token].worklist != [] && Head(s, token) in s.rows
  {
    var k := Head(s, token);
    s.(rows := s.rows[k := CompleteRow(s.rows[k], s.now, token, code)], publishers := Advance(s, token))
  }

  function Apply(s: State, e: Event): State
    requires Enabled(s, e)
  {
    match e
    case Insert(k, payload) =>
      s.(rows := s.rows[k := Row(payload, None, None, None, None)], epoch := s.epoch[k := 0])
    case Claim(t, batch) =>
      s.(rows := ClaimRows(s.rows, batch, s.now, t), publishers := s.publishers[t := Publisher(batch, Claimed)],
         usedTokens := s.usedTokens + {t})
    case Add(t) =>
      var k := Head(s, t);
      s.(queue := AddJob(s.queue, s.rows[k].payload), publishers := s.publishers[t := s.publishers[t].(phase := Queued)],
         accepted := s.accepted + if k in s.epoch then {(k, s.epoch[k])} else {})
    case Link(t) => s.(publishers := s.publishers[t := s.publishers[t].(phase := Linked)])
    case Finish(t) => Complete(s, t, None)
    case Fail(t, code) => Complete(s, t, Some(code))
    case Stop(t) => s.(publishers := s.publishers - {t})
    case Reset(k) =>
      s.(rows := s.rows[k := ResetRow(s.rows[k])], epoch := if k in s.epoch then s.epoch[k := s.epoch[k] + 1] else s.epoch)
    case Tick(d) => s.(now := s.now + d)
    case StartJob(id) => s.(queue := s.queue[id := s.queue[id].(status := Running)])
    case ReturnJob(id, value, x) =>
      s.(queue := s.queue[id := s.queue[id].(status := Done(value), attemptsMade := s.queue[id].attemptsMade + 1)],
         returned := s.returned + {Return(id, value, x)})
    case FailAttempt(id) =>
      var made := s.queue[id].attemptsMade + 1;
      s.(queue := s.queue[id := s.queue[id].(status := if made < MAX_ATTEMPTS then Waiting else Exhausted, attemptsMade := made)])
    case Stall(id, tooOften) =>
      s.(queue := s.queue[id := s.queue[id].(status := if tooOften then Exhausted else Waiting)])
    case Evict(id) => s.(queue := s.queue - {id})
  }

  // ---------------------------------------------------------------- invariant

  /** A row knows its own key, its lease token was drawn before, and a published row has no lease. */
  ghost predicate RowOk(usedTokens: set<Token>, k: Key, row: Row) {
    && row.payload.key == k
    && (row.claimToken.Some? ==> row.claimToken.value in usedTokens)
    && (row.publishedAt.Some? ==> row.claimToken.None?)
  }

  ghost predicate TokensInv(s: State) {
    && (forall t {:trigger s.publishers[t]} :: t in s.publishers ==> t in s.usedTokens)
    && (forall k {:trigger RowOk(s.usedTokens, k, s.rows[k])} :: k in s.rows ==> RowOk(s.usedTokens, k, s.rows[k]))
  }

  /** A work list has no duplicates and names existing rows. */
  ghost predicate ListOk(rows: map<Key, Row>, p: Publisher) {
    Distinct(p.worklist) && forall k :: k in p.worklist ==> k in rows
  }

  ghost predicate WorkInv(s: State) {
    && s.epoch.Keys == s.rows.Keys
    && (forall t {:trigger ListOk(s.rows, s.publishers[t])} :: t in s.publishers ==> ListOk(s.rows, s.publishers[t]))
  }

  type Rows = map<Key, Row>
  type Epochs = map<Key, nat>

  /** A row marked published was accepted in its current epoch. */
  ghost predicate RowAccepted(epoch: Epochs, accepted: set<(Key, nat)>, k: Key, row: Row) {
    k in epoch && (row.publishedAt.Some? ==> (k, epoch[k]) in accepted)
  }

  /** So was the row a publisher is about to mark, as long as the publisher still holds its lease. */
  ghost predicate LeaseAccepted(rows: Rows, epoch: Epochs, accepted: set<(Key, nat)>, t: Token, p: Publisher) {
    p.phase != Claimed && p.worklist != [] ==>
      var k := p.worklist[0];
      k in rows && k in epoch && (rows[k].claimToken == Some(t) ==> (k, epoch[k]) in accepted)
  }

  ghost predicate AcceptedInv(s: State) {
    && (forall k {:trigger RowAccepted(s.epoch, s.accepted, k, s.rows[k])} :: k in s.rows ==>
          RowAccepted(s.epoch, s.accepted, k, s.rows[k]))
    && (forall t {:trigger LeaseAccepted(s.rows, s.epoch, s.accepted, t, s.publishers[t])} :: t in s.publishers ==>
          LeaseAccepted(s.rows, s.epoch, s.accepted, t, s.publishers[t]))
  }

  /** The queue holds each job under the hash of its own key, with the payload of the outbox row. */
  ghost predicate JobFiled(rows: Rows, id: JobId, data: Payload) {
    id == BullJobId(data.key) && data.key in rows && data == rows[data.key].payload && data.wellFormed
  }

  ghost predicate QueueInv(s: State) {
    forall id {:trigger JobFiled(s.rows, id, s.queue[id].data)} :: id in s.queue ==> JobFiled(s.rows, id, s.queue[id].data)
  }

  ghost predicate ReturnFiled(rows: Rows, r: Return) {
    r.id.Hashed? && r.id.key in rows && Produces(rows[r.id.key].payload, r.value, r.execution)
  }

  /** What was accepted or returned has a row, and returns came from that row's payload. */
  ghost predicate HistoryInv(s: State) {
    && (forall p :: p in s.accepted ==> p.0 in s.rows && s.rows[p.0].payload.wellFormed)
    && (forall r {:trigger ReturnFiled(s.rows, r)} :: r in s.returned ==> ReturnFiled(s.rows, r))
  }

  /** A job in the queue was accepted at some time, and a value it shows was recorded. */
  ghost predicate JobKnown(accepted: set<(Key, nat)>, returned: set<Return>, id: JobId, job: Job) {
    && (exists n :: (job.data.key, n) in accepted)
    && (job.status.Done? ==> exists x :: Return(id, job.status.value, x) in returned)
  }

  ghost predicate KnownInv(s: State) {
    forall id {:trigger JobKnown(s.accepted, s.returned, id, s.queue[id])} :: id in s.queue ==>
      JobKnown(s.accepted, s.returned, id, s.queue[id])
  }

  ghost predicate Inv(s: State) {
    TokensInv(s) && WorkInv(s) && AcceptedInv(s) && QueueInv(s) && HistoryInv(s) && KnownInv(s)
  }

  lemma TokensStep(s: State, e: Event)
    requires TokensInv(s) && Enabled(s, e)
    ensures TokensInv(Apply(s, e))
  {
    var u := Apply(s, e);
    forall k | k in u.rows ensures RowOk(u.usedTokens, k, u.rows[k]) {
      if k in s.rows { assert RowOk(s.usedTokens, k, s.rows[k]); }
    }
    forall t | t in u.publishers ensures t in u.usedTokens {
      if t in s.publishers { var p := s.publishers[t]; }
    }
  }

  lemma WorkStep(s: State, e: Event)
    requires WorkInv(s) && Enabled(s, e)
    ensures WorkInv(Apply(s, e))
  {
    var u := Apply(s, e);
    forall t | t in u.publishers ensures ListOk(u.rows, u.publishers[t]) {
      if t in s.publishers {
        assert ListOk(s.rows, s.publishers[t]);
        if (e.Finish? || e.Fail?) && e.token == t { DistinctTail(s.publishers[t].worklist); }
      }
    }
  }

  lemma RowsAcceptedStep(s: State, e: Event)
    requires TokensInv(s) && WorkInv(s) && AcceptedInv(s) && Enabled(s, e)
    ensures var u := Apply(s, e); forall k :: k in u.rows ==> RowAccepted(u.epoch, u.accepted, k, u.rows[k])
  {
    var u := Apply(s, e);
    forall k | k in u.rows ensures RowAccepted(u.epoch, u.accepted, k, u.rows[k]) {
      if k in s.rows { assert RowAccepted(s.epoch, s.accepted, k, s.rows[k]); }
      if e.Finish? { assert LeaseAccepted(s.rows, s.epoch, s.accepted, e.token, s.publishers[e.token]); }
    }
  }

  lemma LeasesAcceptedStep(s: State, e: Event)
    requires TokensInv(s) && WorkInv(s) && AcceptedInv(s) && Enabled(s, e)
    ensures var u := Apply(s, e);
            forall t :: t in u.publishers ==> LeaseAccepted(u.rows, u.epoch, u.accepted, t, u.publishers[t])
  {
    var u := Apply(s, e);
    forall t | t in u.publishers ensures LeaseAccepted(u.rows, u.epoch, u.accepted, t, u.publishers[t]) {
      if t in s.publishers { assert LeaseAccepted(s.rows, s.epoch, s.accepted, t, s.publishers[t]); }
    }
  }

  lemma AcceptedStep(s: State, e: Event)
    requires TokensInv(s) && WorkInv(s) && AcceptedInv(s) && Enabled(s, e)
    ensures AcceptedInv(Apply(s, e))
  {
    RowsAcceptedStep(s, e);
    LeasesAcceptedStep(s, e);
  }

  lemma QueueStep(s: State, e: Event)
    requires TokensInv(s) && QueueInv(s) && Enabled(s, e)
    ensures QueueInv(Apply(s, e))
  {
    var u := Apply(s, e);
    forall id | id in u.queue ensures JobFiled(u.rows, id, u.queue[id].data) {
      if id in s.queue {
        assert JobFiled(s.rows, id, s.queue[id].data);
      } else {
        assert RowOk(s.usedTokens, Head(s, e.token), s.rows[Head(s, e.token)]);
      }
    }
  }

  lemma ReturnsStep(s: State, e: Event)
    requires TokensInv(s) && QueueInv(s) && HistoryInv(s) && Enabled(s, e)
    ensures var u := Apply(s, e); forall r :: r in u.returned ==> ReturnFiled(u.rows, r)
  {
    var u := Apply(s, e);
    forall r | r in u.returned ensures ReturnFiled(u.rows, r) {
      if r in s.returned {
        assert ReturnFiled(s.rows, r);
      } else {
        assert JobFiled(s.rows, e.id, s.queue[e.id].data);
      }
    }
  }

  lemma HistoryStep(s: State, e: Event)
    requires TokensInv(s) && QueueInv(s) && HistoryInv(s) && Enabled(s, e)
    ensures HistoryInv(Apply(s, e))
  {
    ReturnsStep(s, e);
  }

  lemma KnownStep(s: State, e: Event)
    requires TokensInv(s) && WorkInv(s) && KnownInv(s) && Enabled(s, e)
    ensures KnownInv(Apply(s, e))
  {
    var u := Apply(s, e);
    forall id | id in u.queue ensures JobKnown(u.accepted, u.returned, id, u.queue[id]) {
      if id in s.queue {
        assert JobKnown(s.accepted, s.returned, id, s.queue[id]);
        var n :| (s.queue[id].data.key, n) in s.accepted;
        assert (u.queue[id].data.key, n) in u.accepted;
        if u.queue[id].status.Done? && s.queue[id].status.Done? {
          var x :| Return(id, s.queue[id].status.value, x) in s.returned;
          assert Return(id, u.queue[id].status.value, x) in u.returned;
        } else if u.queue[id].status.Done? {
          assert Return(id, u.queue[id].status.value, e.execution) in u.returned;
        }
      } else {
        var k := Head(s, e.token);
        assert RowOk(s.usedTokens, k, s.rows[k]);
        assert (u.queue[id].data.key, s.epoch[k]) in u.accepted;
      }
    }
  }

  lemma InvStep(s: State, e: Event)
    requires Inv(s) && Enabled(s, e)
    ensures Inv(Apply(s, e))
  {
    TokensStep(s, e);
    WorkStep(s, e);
    AcceptedStep(s, e);
    QueueStep(s, e);
    HistoryStep(s, e);
    KnownStep(s, e);
  }
}
