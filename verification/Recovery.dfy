/** The reconciler: what one undisturbed round over a list of open runs does, and what two rounds achieve. */
module Recovery {
  import opened Common
  import opened Entities
  import Delivery
  import Ledger
  import opened Protocol
  import opened ProtocolProofs
  import Guarantees
  import LedgerProofs
  import Worker

  const OPEN: set<Ledger.RunState> := {Ledger.QUEUED, Ledger.ACTIVE, Ledger.RETRY_SCHEDULED}

  /** One row of `list_reconcilable_runs`, as it was when the round began. */
  datatype Entry = Entry(key: Key, link: Option<JobId>)

  /** What the listing query may answer in state `l`. */
  ghost predicate Listing(l: Ledger.State, entries: seq<Entry>) {
    && |entries| <= 100
    && (forall i, j :: 0 <= i < j < |entries| ==> entries[i].key != entries[j].key)
    && (forall i :: 0 <= i < |entries| ==>
          entries[i].key in l.runs && l.runs[entries[i].key].state in OPEN && entries[i].link == l.runs[entries[i].key].bullJobId)
  }

  /** What an iteration may do on the way: the token of the undisturbed call of `publishPending` it may make and
      the rows its claim returns, and whether the extraction of the result it may persist can be read and stored. */
  datatype Pass = Pass(token: Delivery.Token, batch: seq<Key>, stored: bool)

  function RowEvents(wellFormed: bool, token: Delivery.Token): seq<Event> {
    if wellFormed then [Deliver(Delivery.Add(token)), LinkRun(token), Deliver(Delivery.Finish(token))]
    else [Deliver(Delivery.Fail(token, "INVALID_JOB_SCHEMA"))]
  }

  function WorkEvents(rows: map<Key, Delivery.Row>, token: Delivery.Token, keys: seq<Key>): seq<Event> {
    if keys == [] then [Deliver(Delivery.Stop(token))]
    else RowEvents(keys[0] in rows && rows[keys[0]].payload.wellFormed, token) + WorkEvents(rows, token, keys[1..])
  }

  /** The work depends on the payloads of the rows only. */
  lemma {:induction false} WorkEventsSame(a: map<Key, Delivery.Row>, b: map<Key, Delivery.Row>, token: Delivery.Token, keys: seq<Key>)
    requires a.Keys == b.Keys && forall k :: k in a ==> a[k].payload == b[k].payload
    ensures WorkEvents(a, token, keys) == WorkEvents(b, token, keys)
    decreases |keys|
  {
    if keys != [] { WorkEventsSame(a, b, token, keys[1..]); }
  }

  /** `done` is the work on the first `i` keys. */
  ghost predicate WorkDone(rows: map<Key, Delivery.Row>, token: Delivery.Token, keys: seq<Key>, i: nat, done: seq<Event>)
    requires i <= |keys|
  {
    done + WorkEvents(rows, token, keys[i..]) == WorkEvents(rows, token, keys)
  }

  lemma WorkDoneNext(rows: map<Key, Delivery.Row>, token: Delivery.Token, keys: seq<Key>, i: nat, done: seq<Event>)
    requires i < |keys| && WorkDone(rows, token, keys, i, done) && keys[i] in rows
    ensures WorkDone(rows, token, keys, i + 1, done + RowEvents(rows[keys[i]].payload.wellFormed, token))
  {
    var row, rest := RowEvents(rows[keys[i]].payload.wellFormed, token), WorkEvents(rows, token, keys[i + 1..]);
    assert keys[i..][1..] == keys[i + 1..];
    assert (done + row) + rest == done + (row + rest);
  }

  lemma WorkDoneAll(rows: map<Key, Delivery.Row>, token: Delivery.Token, keys: seq<Key>, done: seq<Event>)
    requires WorkDone(rows, token, keys, |keys|, done)
    ensures done + [Deliver(Delivery.Stop(token))] == WorkEvents(rows, token, keys)
  {
    assert keys[|keys|..] == [];
  }

  function PassEvents(rows: map<Key, Delivery.Row>, pass: Pass): seq<Event> {
    [Deliver(Delivery.Claim(pass.token, pass.batch))] + WorkEvents(rows, pass.token, pass.batch)
  }

  /** `reconcileCompleted`: the run is made ACTIVE, then the returned value is persisted if it is valid
      and matches its envelope. If it is not, or the extraction cannot be read or stored, the handler throws
      and nothing more is written. */
  ghost predicate Recovers(s: State, id: JobId, stored: bool, t: State)
    requires id in s.d.queue && s.d.queue[id].status.Done?
  {
    var job := s.d.queue[id];
    var k, v := job.data.key, job.status.value;
    if !job.data.wellFormed then t == s
    else if v.Compact? && SameIdentity(job.data, v.result) && stored
    then exists x :: Run(s, [QueueEvent(k, Ledger.ACTIVE, 100), CompletionRead(Delivery.Return(id, v, x))], t)
    else Run(s, [QueueEvent(k, Ledger.ACTIVE, 100)], t)
  }

  function LookupId(entry: Entry): JobId {
    if entry.link.Some? then entry.link.value else Verbatim(entry.key)
  }

  /** One iteration of the loop in `reconcile`. */
  ghost predicate Handles(s: State, entry: Entry, pass: Pass, t: State) {
    var id := LookupId(entry);
    if id in s.d.queue then
      if s.d.queue[id].status.Done? then Recovers(s, id, pass.stored, t) else t == s
    else Run(s, [ResetRow(entry.key)] + PassEvents(s.d.rows, pass), t)
  }

  ghost predicate Round(s: State, entries: seq<Entry>, passes: seq<Pass>, t: State)
    requires |passes| == |entries|
    decreases |entries|
  {
    if entries == [] then s == t
    else exists m :: Handles(s, entries[0], passes[0], m) && Round(m, entries[1..], passes[1..], t)
  }

  /** A round may be extended by one more iteration. */
  lemma {:induction false} RoundExtend(s: State, entries: seq<Entry>, passes: seq<Pass>, m: State, entry: Entry, pass: Pass, t: State)
    requires |passes| == |entries| && Round(s, entries, passes, m) && Handles(m, entry, pass, t)
    ensures Round(s, entries + [entry], passes + [pass], t)
    decreases |entries|
  {
    var es, ps := entries + [entry], passes + [pass];
    if entries == [] {
      assert es[1..] == [] && ps[1..] == [];
      assert Round(t, es[1..], ps[1..], t);
    } else {
      var n :| Handles(s, entries[0], passes[0], n) && Round(n, entries[1..], passes[1..], m);
      RoundExtend(n, entries[1..], passes[1..], m, entry, pass, t);
      assert es[1..] == entries[1..] + [entry] && ps[1..] == passes[1..] + [pass];
    }
  }

  // ---------------------------------------------------------------- runs

  lemma {:induction false} RunSplit(s: State, es: seq<Event>, fs: seq<Event>, u: State) returns (t: State)
    requires Run(s, es + fs, u)
    ensures Run(s, es, t) && Run(t, fs, u)
    decreases |es|
  {
    if es == [] {
      assert es + fs == fs;
      t := s;
    } else {
      assert (es + fs)[1..] == es[1..] + fs;
      t := RunSplit(Apply(s, es[0]), es[1..], fs, u);
    }
  }

  lemma RunTwo(s: State, a: Event, b: Event, t: State)
    ensures Run(s, [a, b], t) <==> Enabled(s, a) && Enabled(Apply(s, a), b) && t == Apply(Apply(s, a), b)
  {
    if Enabled(s, a) {
      assert [a, b][1..] == [b];
      assert Run(Apply(s, a), [b], t) <==> Enabled(Apply(s, a), b) && Run(Apply(Apply(s, a), b), [b][1..], t);
    }
  }

  lemma RunOne(s: State, a: Event, t: State)
    ensures Run(s, [a], t) <==> Enabled(s, a) && t == Apply(s, a)
  {
    if Enabled(s, a) { assert [a][1..] == []; }
  }

  lemma RunThreeFrom(s: State, a: Event, b: Event, c: Event, t: State)
    requires Enabled(s, a) && Enabled(Apply(s, a), b) && Enabled(Apply(Apply(s, a), b), c)
    requires t == Apply(Apply(Apply(s, a), b), c)
    ensures Run(s, [a, b, c], t)
  {
    RunTwo(Apply(s, a), b, c, t);
    assert [a, b, c][1..] == [b, c];
  }

  // ---------------------------------------------------------------- background

  /** An event of the reconciler that does not persist anything about run `k`. */
  predicate Background(e: Event, k: Key) {
    match e
    case Deliver(x) => x.Claim? || x.Add? || x.Finish? || x.Fail? || x.Stop?
    case LinkRun(_) => true
    case ResetRow(_) => true
    case QueueEvent(other, _, _) => other != k
    case CompletionRead(r) => r.id.key != k
    case _ => false
  }

  /** Run `k` is open and its finished job, made of `data`, is still in the queue and shows `v`. */
  ghost predicate Finished(s: State, k: Key, v: ReturnValue, data: Payload) {
    && k in s.l.runs && s.l.runs[k].state in OPEN
    && BullJobId(k) in s.d.queue && s.d.queue[BullJobId(k)].status == Delivery.Done(v) && s.d.queue[BullJobId(k)].data == data
  }

  ghost predicate Waiting(s: State, k: Key, v: ReturnValue, data: Payload) {
    Reachable(s) && Finished(s, k, v, data)
  }

  ghost predicate IsLinked(s: State, k: Key) {
    k in s.l.runs && s.l.runs[k].bullJobId == Some(BullJobId(k))
  }

  /** An event that is not about run `k` leaves its state alone and its link in place. */
  lemma BackgroundKeepsRun(s: State, e: Event, k: Key)
    requires Reachable(s) && Enabled(s, e) && Background(e, k) && k in s.l.runs
    ensures k in Apply(s, e).l.runs && Apply(s, e).l.runs[k].state == s.l.runs[k].state
    ensures IsLinked(s, k) ==> IsLinked(Apply(s, e), k)
  {
    if LedgerPart(s, e).Some? {
      LedgerProofs.RunsStay(s.l, LedgerPart(s, e).value);
      LedgerProofs.RunsChange(s.l, LedgerPart(s, e).value, k);
    }
    if IsLinked(s, k) { LinkStays(s, e, k); }
  }

  /** Nor does it touch a job that is in the queue. */
  lemma BackgroundKeepsJob(s: State, e: Event, k: Key, id: JobId)
    requires Enabled(s, e) && Background(e, k) && id in s.d.queue
    ensures id in Apply(s, e).d.queue && Apply(s, e).d.queue[id] == s.d.queue[id]
  {
  }

  lemma BackgroundStep(s: State, e: Event, k: Key, v: ReturnValue, data: Payload)
    requires Waiting(s, k, v, data) && Enabled(s, e) && Background(e, k)
    ensures Waiting(Apply(s, e), k, v, data) && (IsLinked(s, k) ==> IsLinked(Apply(s, e), k))
  {
    ReachStep(s, e);
    BackgroundKeepsRun(s, e, k);
    BackgroundKeepsJob(s, e, k, BullJobId(k));
  }

  lemma {:induction false} BackgroundRun(s: State, es: seq<Event>, t: State, k: Key, v: ReturnValue, data: Payload)
    requires Waiting(s, k, v, data) && Run(s, es, t) && forall e :: e in es ==> Background(e, k)
    ensures Waiting(t, k, v, data) && (IsLinked(s, k) ==> IsLinked(t, k))
    decreases |es|
  {
    if es != [] {
      BackgroundStep(s, es[0], k, v, data);
      BackgroundRun(Apply(s, es[0]), es[1..], t, k, v, data);
    }
  }

  lemma {:induction false} WorkIsBackground(rows: map<Key, Delivery.Row>, token: Delivery.Token, keys: seq<Key>, k: Key)
    ensures forall e :: e in WorkEvents(rows, token, keys) ==> Background(e, k)
    decreases |keys|
  {
    if keys != [] { WorkIsBackground(rows, token, keys[1..], k); }
  }

  lemma RefreshIsBackground(s: State, key: Key, pass: Pass, k: Key)
    ensures forall e :: e in [ResetRow(key)] + PassEvents(s.d.rows, pass) ==> Background(e, k)
  {
    WorkIsBackground(s.d.rows, pass.token, pass.batch, k);
  }

  /** The entry names its own job or none. */
  predicate EntryOk(entry: Entry) {
    entry.link == None || entry.link == Some(BullJobId(entry.key))
  }

  lemma ListingOk(s: State, entries: seq<Entry>)
    requires Reachable(s) && Listing(s.l, entries)
    ensures forall i :: 0 <= i < |entries| ==> EntryOk(entries[i])
  {
    forall i | 0 <= i < |entries| ensures EntryOk(entries[i]) {
      FiledRun(s, entries[i].key);
    }
  }

  /** An iteration for another run leaves `k` waiting. */
  lemma OtherIteration(s: State, entry: Entry, pass: Pass, t: State, k: Key, v: ReturnValue, data: Payload)
    requires Waiting(s, k, v, data) && EntryOk(entry) && entry.key != k && Handles(s, entry, pass, t)
    ensures Waiting(t, k, v, data) && (IsLinked(s, k) ==> IsLinked(t, k))
  {
    var id := LookupId(entry);
    if id !in s.d.queue {
      RefreshIsBackground(s, entry.key, pass, k);
      BackgroundRun(s, [ResetRow(entry.key)] + PassEvents(s.d.rows, pass), t, k, v, data);
    } else if s.d.queue[id].status.Done? {
      var job := s.d.queue[id];
      FiledJob(s, id);
      var value := job.status.value;
      if value.Compact? && SameIdentity(job.data, value.result) && pass.stored {
        var x :| Run(s, [QueueEvent(entry.key, Ledger.ACTIVE, 100), CompletionRead(Delivery.Return(id, value, x))], t);
        BackgroundRun(s, [QueueEvent(entry.key, Ledger.ACTIVE, 100), CompletionRead(Delivery.Return(id, value, x))], t, k, v, data);
      } else {
        BackgroundRun(s, [QueueEvent(entry.key, Ledger.ACTIVE, 100)], t, k, v, data);
      }
    }
  }

  // ---------------------------------------------------------------- the iteration for `k`

  lemma RunThree(s: State, a: Event, b: Event, c: Event, t: State)
    requires Run(s, [a, b, c], t)
    ensures Enabled(s, a) && Enabled(Apply(s, a), b) && Enabled(Apply(Apply(s, a), b), c)
    ensures t == Apply(Apply(Apply(s, a), b), c)
  {
    assert [a, b, c][1..] == [b, c];
    RunTwo(Apply(s, a), b, c, t);
  }

  lemma AddQueues(s: State, token: Delivery.Token)
    requires Reachable(s) && Enabled(s, Deliver(Delivery.Add(token)))
    ensures var u := Apply(s, Deliver(Delivery.Add(token))); var key := s.d.publishers[token].worklist[0];
      && Reachable(u) && token in u.d.publishers && u.d.publishers[token] == Delivery.Publisher(s.d.publishers[token].worklist, Delivery.Queued)
      && BullJobId(key) in u.d.queue && u.l == s.l
  {
    ReachStep(s, Deliver(Delivery.Add(token)));
    var key := s.d.publishers[token].worklist[0];
    FiledRun(s, key);
  }

  lemma LinkLinks(s: State, token: Delivery.Token)
    requires Reachable(s) && Enabled(s, LinkRun(token))
    ensures var u := Apply(s, LinkRun(token)); var key := s.d.publishers[token].worklist[0];
      && Reachable(u) && token in u.d.publishers && u.d.publishers[token] == Delivery.Publisher(s.d.publishers[token].worklist, Delivery.Linked)
      && IsLinked(u, key) && u.d.queue == s.d.queue
  {
    ReachStep(s, LinkRun(token));
    var key := s.d.publishers[token].worklist[0];
    FiledRun(s, key);
  }

  lemma FinishAdvances(s: State, token: Delivery.Token)
    requires Reachable(s) && Enabled(s, Deliver(Delivery.Finish(token)))
    ensures var u := Apply(s, Deliver(Delivery.Finish(token)));
      && Reachable(u) && token in u.d.publishers && u.d.publishers[token] == Delivery.Publisher(s.d.publishers[token].worklist[1..], Delivery.Claimed)
      && u.d.queue == s.d.queue && u.l == s.l
  {
    ReachStep(s, Deliver(Delivery.Finish(token)));
  }

  /** The publisher's three events for the first row of its list queue its job and link that row's run. */
  lemma WorkOneRow(s: State, token: Delivery.Token, u: State)
    requires Reachable(s) && Run(s, RowEvents(true, token), u)
    ensures token in s.d.publishers && s.d.publishers[token].worklist != []
    ensures var key := s.d.publishers[token].worklist[0];
      && Reachable(u) && IsLinked(u, key) && BullJobId(key) in u.d.queue
      && token in u.d.publishers && u.d.publishers[token] == Delivery.Publisher(s.d.publishers[token].worklist[1..], Delivery.Claimed)
  {
    var a, b, c := Deliver(Delivery.Add(token)), LinkRun(token), Deliver(Delivery.Finish(token));
    RunThree(s, a, b, c, u);
    assert Delivery.Holds(s.d, token, Delivery.Claimed);
    AddQueues(s, token);
    var s1 := Apply(s, a);
    LinkLinks(s1, token);
    var s2 := Apply(s1, b);
    FinishAdvances(s2, token);
  }

  lemma SkipOneRow(s: State, token: Delivery.Token, u: State)
    requires Reachable(s) && Run(s, RowEvents(false, token), u)
    ensures token in s.d.publishers && s.d.publishers[token].worklist != []
    ensures Reachable(u) && token in u.d.publishers
      && u.d.publishers[token] == Delivery.Publisher(s.d.publishers[token].worklist[1..], Delivery.Claimed)
    ensures u.d.queue == s.d.queue && u.l == s.l
  {
    RunOne(s, Deliver(Delivery.Fail(token, "INVALID_JOB_SCHEMA")), u);
    ReachStep(s, Deliver(Delivery.Fail(token, "INVALID_JOB_SCHEMA")));
  }

  predicate Evicts(e: Event) { e.Deliver? && e.delivery.Evict? }

  /** The job of run `k` is queued under its own id and the run is linked to it. */
  ghost predicate Placed(s: State, k: Key) { BullJobId(k) in s.d.queue && IsLinked(s, k) }

  /** No event unlinks a run. */
  lemma LinkStays(s: State, e: Event, k: Key)
    requires Reachable(s) && Enabled(s, e) && IsLinked(s, k)
    ensures IsLinked(Apply(s, e), k)
  {
    if LedgerPart(s, e).Some? {
      LedgerProofs.RunsStay(s.l, LedgerPart(s, e).value);
      LedgerProofs.RunsChange(s.l, LedgerPart(s, e).value, k);
      ReachStep(s, e);
      FiledRun(Apply(s, e), k);
    }
  }

  lemma JobStays(s: State, e: Event, id: JobId)
    requires Enabled(s, e) && id in s.d.queue && !Evicts(e)
    ensures id in Apply(s, e).d.queue
  {
  }

  lemma PlacedStep(s: State, e: Event, k: Key)
    requires Reachable(s) && Placed(s, k) && Enabled(s, e) && !Evicts(e)
    ensures Reachable(Apply(s, e)) && Placed(Apply(s, e), k)
  {
    ReachStep(s, e);
    LinkStays(s, e, k);
    JobStays(s, e, BullJobId(k));
  }

  lemma {:induction false} PlacedStays(s: State, es: seq<Event>, t: State, k: Key)
    requires Reachable(s) && Placed(s, k) && Run(s, es, t) && forall e :: e in es ==> !Evicts(e)
    ensures Reachable(t) && Placed(t, k)
    decreases |es|
  {
    if es != [] {
      PlacedStep(s, es[0], k);
      PlacedStays(Apply(s, es[0]), es[1..], t, k);
    }
  }

  /** A pass queues the job of every well-formed row it claimed, and links its run. */
  lemma {:induction false} WorkLinks(s: State, rows: map<Key, Delivery.Row>, token: Delivery.Token, keys: seq<Key>, t: State, k: Key)
    requires Reachable(s) && Run(s, WorkEvents(rows, token, keys), t) && k in keys && k in rows && rows[k].payload.wellFormed
    requires token in s.d.publishers && s.d.publishers[token].worklist == keys
    ensures Reachable(t) && IsLinked(t, k) && BullJobId(k) in t.d.queue
    decreases |keys|
  {
    var first := keys[0] in rows && rows[keys[0]].payload.wellFormed;
    var rest := WorkEvents(rows, token, keys[1..]);
    var m := RunSplit(s, RowEvents(first, token), rest, t);
    if first { WorkOneRow(s, token, m); } else { SkipOneRow(s, token, m); }
    if keys[0] == k {
      WorkIsBackground(rows, token, keys[1..], k);
      PlacedStays(m, rest, t, k);
    } else {
      assert k in keys[1..];
      WorkLinks(m, rows, token, keys[1..], t, k);
    }
  }

  /** Resetting a row and publishing a batch that contains it puts its job into the queue, under the same
      id, and links the run. */
  lemma RefreshLinks(s: State, key: Key, pass: Pass, t: State)
    requires Reachable(s) && key in s.d.rows && s.d.rows[key].payload.wellFormed && key in pass.batch
    requires Run(s, [ResetRow(key)] + PassEvents(s.d.rows, pass), t)
    ensures Reachable(t) && IsLinked(t, key) && BullJobId(key) in t.d.queue
  {
    var work := WorkEvents(s.d.rows, pass.token, pass.batch);
    var claim := Deliver(Delivery.Claim(pass.token, pass.batch));
    assert [ResetRow(key)] + PassEvents(s.d.rows, pass) == [ResetRow(key), claim] + work;
    var m := RunSplit(s, [ResetRow(key), claim], work, t);
    RunTwo(s, ResetRow(key), claim, m);
    ReachStep(s, ResetRow(key));
    ReachStep(Apply(s, ResetRow(key)), claim);
    WorkLinks(m, s.d.rows, pass.token, pass.batch, t, key);
  }

  /** The returned value is a result for this very job. */
  predicate Matches(data: Payload, v: ReturnValue) {
    && v.Compact? && v.result.tenant == data.tenant && v.result.version == data.version
    && v.result.correlation == data.correlation && v.result.checksum == data.checksum
  }

  /** Persisting a matching result of an ACTIVE run succeeds. */
  lemma MatchingResultIsAccepted(s: State, k: Key, r: Delivery.Return)
    requires Reachable(s) && k in s.l.runs && s.l.runs[k].state == Ledger.ACTIVE && r in s.d.returned && r.id == BullJobId(k)
    requires k in s.d.rows && Matches(s.d.rows[k].payload, r.value)
    ensures Ledger.PersistCompletion(s.l, k, r.value.result).Ok?
    ensures var u := Ledger.PersistCompletion(s.l, k, r.value.result).value;
      k in u.runs && u.runs[k].state == Ledger.NextState(r.value.result)
      && u.runs[k].result == Some(Ledger.StoredResult(k, r.value.result))
  {
    FiledRun(s, k);
    if r.value.result.outcome == Completed {
      CompletionRefs(s, r);
      OneRef(s, k, r.value.result);
    }
  }

  /** Registering the single clean key of the payload meets no row of another version. */
  lemma OneRef(s: State, k: Key, result: Completion)
    requires Reachable(s) && k in s.d.rows && k.ScanKey? && k.version in s.l.versions && result.version == k.version
    requires result.artifactRefs == [Worker.CleanKey(s.d.rows[k].payload)]
    ensures Ledger.RegisterClean(s.l.artifacts, result.artifactRefs, result.version, s.l.versions[k.version], result.checksum).Ok?
  {
    var refs := result.artifactRefs;
    assert refs[..|refs| - 1] == [];
    FiledRun(s, k);
    if refs[0] in s.l.artifacts { Guarantees.CleanKeyOwner(s, k); }
  }

  lemma ActiveFirst(s: State, k: Key, v: ReturnValue, data: Payload)
    requires Waiting(s, k, v, data)
    ensures Enabled(s, QueueEvent(k, Ledger.ACTIVE, 100))
    ensures Waiting(Apply(s, QueueEvent(k, Ledger.ACTIVE, 100)), k, v, data)
    ensures Apply(s, QueueEvent(k, Ledger.ACTIVE, 100)).l.runs[k].state == Ledger.ACTIVE
    ensures Apply(s, QueueEvent(k, Ledger.ACTIVE, 100)).d == s.d
  {
    var id := BullJobId(k);
    var e := QueueEvent(k, Ledger.ACTIVE, 100);
    FiledJob(s, id);
    assert Enabled(s, e);
    ReachStep(s, e);
    FiledRun(s, k);
  }

  /** The iteration of a linked run whose job shows a matching result is these two events. */
  lemma OwnEvents(s: State, entry: Entry, pass: Pass, t: State, v: ReturnValue, data: Payload) returns (x: Option<Worker.Execution>)
    requires Waiting(s, entry.key, v, data) && entry.link == Some(BullJobId(entry.key)) && Handles(s, entry, pass, t)
    requires Matches(data, v) && pass.stored
    ensures Run(s, [QueueEvent(entry.key, Ledger.ACTIVE, 100), CompletionRead(Delivery.Return(BullJobId(entry.key), v, x))], t)
    ensures entry.key in s.d.rows && s.d.rows[entry.key].payload == data
  {
    var k := entry.key;
    var id := BullJobId(k);
    FiledJob(s, id);
    x :| Run(s, [QueueEvent(k, Ledger.ACTIVE, 100), CompletionRead(Delivery.Return(id, v, x))], t);
  }

  /** The second of them ends the run with that result. */
  lemma FinishActive(s: State, k: Key, r: Delivery.Return, t: State)
    requires Reachable(s) && k in s.l.runs && s.l.runs[k].state == Ledger.ACTIVE && r.id == BullJobId(k)
    requires k in s.d.rows && Matches(s.d.rows[k].payload, r.value)
    requires Enabled(s, CompletionRead(r)) && t == Apply(s, CompletionRead(r))
    ensures Recovered(t, k, r.value)
  {
    assert LedgerPart(s, CompletionRead(r)) == Some(Ledger.Complete(k, r.value.result));
    MatchingResultIsAccepted(s, k, r);
  }

  /** A linked run whose job shows a matching result is finished by its own iteration. */
  lemma OwnIterationFinishes(s: State, entry: Entry, pass: Pass, t: State, v: ReturnValue, data: Payload)
    requires Waiting(s, entry.key, v, data) && entry.link == Some(BullJobId(entry.key)) && Handles(s, entry, pass, t)
    requires Matches(data, v) && pass.stored
    ensures Recovered(t, entry.key, v)
  {
    var k := entry.key;
    var x := OwnEvents(s, entry, pass, t, v, data);
    var r := Delivery.Return(BullJobId(k), v, x);
    RunTwo(s, QueueEvent(k, Ledger.ACTIVE, 100), CompletionRead(r), t);
    ActiveFirst(s, k, v, data);
    var s1 := Apply(s, QueueEvent(k, Ledger.ACTIVE, 100));
    FinishActive(s1, k, r, t);
  }

  /** An unlinked run is linked by its own iteration, provided the pass claims its row. */
  lemma OwnIterationLinks(s: State, entry: Entry, pass: Pass, t: State, v: ReturnValue, data: Payload)
    requires Waiting(s, entry.key, v, data) && entry.link == None && Handles(s, entry, pass, t) && entry.key in pass.batch
    ensures Waiting(t, entry.key, v, data) && IsLinked(t, entry.key)
  {
    var k := entry.key;
    if Verbatim(k) in s.d.queue { FiledJob(s, Verbatim(k)); }
    FiledJob(s, BullJobId(k));
    RefreshIsBackground(s, k, pass, k);
    BackgroundRun(s, [ResetRow(k)] + PassEvents(s.d.rows, pass), t, k, v, data);
    RefreshLinks(s, k, pass, t);
  }

  // ---------------------------------------------------------------- rounds

  ghost predicate Recovered(s: State, k: Key, v: ReturnValue) {
    v.Compact? && k in s.l.runs && s.l.runs[k].state == Ledger.NextState(v.result)
    && s.l.runs[k].result == Some(Ledger.StoredResult(k, v.result))
  }

  /** Events of the protocol never take a recovered run back. */
  lemma RecoveredIteration(s: State, entry: Entry, pass: Pass, t: State, k: Key, v: ReturnValue)
    requires Recovered(s, k, v) && Handles(s, entry, pass, t)
    ensures Recovered(t, k, v)
  {
    var id := LookupId(entry);
    if id !in s.d.queue {
      Guarantees.EndedForever(s, [ResetRow(entry.key)] + PassEvents(s.d.rows, pass), t, k);
    } else if s.d.queue[id].status.Done? && s.d.queue[id].data.wellFormed {
      var job := s.d.queue[id];
      var value := job.status.value;
      if value.Compact? && SameIdentity(job.data, value.result) && pass.stored {
        var x :| Run(s, [QueueEvent(job.data.key, Ledger.ACTIVE, 100), CompletionRead(Delivery.Return(id, value, x))], t);
        Guarantees.EndedForever(s, [QueueEvent(job.data.key, Ledger.ACTIVE, 100), CompletionRead(Delivery.Return(id, value, x))], t, k);
      } else {
        Guarantees.EndedForever(s, [QueueEvent(job.data.key, Ledger.ACTIVE, 100)], t, k);
      }
    }
  }

  lemma {:induction false} RecoveredRound(s: State, entries: seq<Entry>, passes: seq<Pass>, t: State, k: Key, v: ReturnValue)
    requires Recovered(s, k, v) && |passes| == |entries| && Round(s, entries, passes, t)
    ensures Recovered(t, k, v)
    decreases |entries|
  {
    if entries != [] {
      var m :| Handles(s, entries[0], passes[0], m) && Round(m, entries[1..], passes[1..], t);
      RecoveredIteration(s, entries[0], passes[0], m, k, v);
      RecoveredRound(m, entries[1..], passes[1..], t, k, v);
    }
  }

  /** A round whose list does not contain `k` any more keeps it waiting. */
  lemma {:induction false} OtherRound(s: State, entries: seq<Entry>, passes: seq<Pass>, t: State, k: Key, v: ReturnValue, data: Payload)
    requires Waiting(s, k, v, data) && |passes| == |entries| && Round(s, entries, passes, t)
    requires forall i :: 0 <= i < |entries| ==> EntryOk(entries[i]) && entries[i].key != k
    ensures Waiting(t, k, v, data) && (IsLinked(s, k) ==> IsLinked(t, k))
    decreases |entries|
  {
    if entries != [] {
      var m :| Handles(s, entries[0], passes[0], m) && Round(m, entries[1..], passes[1..], t);
      OtherIteration(s, entries[0], passes[0], m, k, v, data);
      OtherRound(m, entries[1..], passes[1..], t, k, v, data);
    }
  }

  /** Row `k` is in every batch that the round publishes on behalf of `k`. */
  ghost predicate Includes(entries: seq<Entry>, passes: seq<Pass>, k: Key)
    requires |passes| == |entries|
  {
    forall i :: 0 <= i < |entries| && entries[i].key == k ==> k in passes[i].batch
  }

  /** Whether the extraction of run `k` can be read and stored when the round comes to it. */
  ghost predicate Stores(entries: seq<Entry>, passes: seq<Pass>, k: Key, stored: bool)
    requires |passes| == |entries|
  {
    forall i :: 0 <= i < |entries| && entries[i].key == k ==> passes[i].stored == stored
  }

  /** One round over a list with entry `j` for run `k`: a linked entry recovers the run, an unlinked one
      links it. */
  lemma {:induction false} OneRound(s: State, entries: seq<Entry>, passes: seq<Pass>, t: State, j: nat, v: ReturnValue, data: Payload)
    requires j < |entries| == |passes| && Round(s, entries, passes, t)
    requires Waiting(s, entries[j].key, v, data) && Matches(data, v) && Includes(entries, passes, entries[j].key)
    requires Stores(entries, passes, entries[j].key, true)
    requires forall i :: 0 <= i < |entries| ==> EntryOk(entries[i])
    requires forall i :: 0 <= i < |entries| && i != j ==> entries[i].key != entries[j].key
    ensures if entries[j].link.Some? then Recovered(t, entries[j].key, v)
            else Waiting(t, entries[j].key, v, data) && IsLinked(t, entries[j].key)
    decreases |entries|
  {
    var k := entries[j].key;
    var m :| Handles(s, entries[0], passes[0], m) && Round(m, entries[1..], passes[1..], t);
    if j > 0 {
      OtherIteration(s, entries[0], passes[0], m, k, v, data);
      assert entries[1..][j - 1] == entries[j];
      OneRound(m, entries[1..], passes[1..], t, j - 1, v, data);
    } else if entries[0].link.Some? {
      OwnIterationFinishes(s, entries[0], passes[0], m, v, data);
      RecoveredRound(m, entries[1..], passes[1..], t, k, v);
    } else {
      OwnIterationLinks(s, entries[0], passes[0], m, v, data);
      OtherRound(m, entries[1..], passes[1..], t, k, v, data);
    }
  }

  /** The hypotheses about two undisturbed rounds, from `s` over `m` to `t`, that include run `k`; `stored` says
      whether its extraction can be read and stored. */
  ghost predicate TwoRounds(s: State, k: Key, entries1: seq<Entry>, passes1: seq<Pass>, m: State,
                            entries2: seq<Entry>, passes2: seq<Pass>, t: State, stored: bool)
  {
    && |passes1| == |entries1| && Listing(s.l, entries1) && Round(s, entries1, passes1, m) && Includes(entries1, passes1, k)
    && Stores(entries1, passes1, k, stored)
    && (exists i :: 0 <= i < |entries1| && entries1[i].key == k)
    && |passes2| == |entries2| && Listing(m.l, entries2) && Round(m, entries2, passes2, t) && Includes(entries2, passes2, k)
    && Stores(entries2, passes2, k, stored)
    && (k in m.l.runs && m.l.runs[k].state in OPEN ==> exists i :: 0 <= i < |entries2| && entries2[i].key == k)
  }

  /** Recovery within two rounds: the job is finished with a matching result and the run is still open,
      linked or not. After two undisturbed rounds that list the run while it is open, and whose batches
      include its row, the run has ended with that result, its extraction being readable and storable. */
  lemma RecoveryInTwoRounds(s: State, k: Key, v: ReturnValue, data: Payload, entries1: seq<Entry>, passes1: seq<Pass>, m: State,
                            entries2: seq<Entry>, passes2: seq<Pass>, t: State)
    requires Reachable(s) && Finished(s, k, v, data)
    requires Matches(data, v) && TwoRounds(s, k, entries1, passes1, m, entries2, passes2, t, true)
    ensures Recovered(t, k, v)
  {
    ListingOk(s, entries1);
    var i :| 0 <= i < |entries1| && entries1[i].key == k;
    OneRound(s, entries1, passes1, m, i, v, data);
    if entries1[i].link.Some? {
      RecoveredRound(m, entries2, passes2, t, k, v);
    } else {
      ListingOk(m, entries2);
      var j :| 0 <= j < |entries2| && entries2[j].key == k;
      OneRound(m, entries2, passes2, t, j, v, data);
    }
  }

  // ---------------------------------------------------------------- exactly when it recovers

  /** The iteration for a run whose job shows something else, or whose extraction is refused, leaves it open. */
  lemma UnmatchedIteration(s: State, entry: Entry, pass: Pass, t: State, v: ReturnValue, data: Payload)
    requires Waiting(s, entry.key, v, data) && !(Matches(data, v) && pass.stored) && EntryOk(entry) && Handles(s, entry, pass, t)
    ensures Waiting(t, entry.key, v, data)
  {
    var k := entry.key;
    var id := BullJobId(k);
    FiledJob(s, id);
    if LookupId(entry) !in s.d.queue {
      RefreshIsBackground(s, k, pass, k);
      BackgroundRun(s, [ResetRow(k)] + PassEvents(s.d.rows, pass), t, k, v, data);
    } else {
      FiledJob(s, LookupId(entry));
      ActiveFirst(s, k, v, data);
      if v.Compact? && SameIdentity(data, v.result) && pass.stored {
        UnmatchedResultIsRefused(s, k, v, data, t);
      } else {
        RunOne(s, QueueEvent(k, Ledger.ACTIVE, 100), t);
      }
    }
  }

  lemma UnmatchedResultIsRefused(s: State, k: Key, v: ReturnValue, data: Payload, t: State)
    requires Waiting(s, k, v, data) && v.Compact? && SameIdentity(data, v.result) && v.result.checksum != data.checksum
    requires exists x :: Run(s, [QueueEvent(k, Ledger.ACTIVE, 100), CompletionRead(Delivery.Return(BullJobId(k), v, x))], t)
    ensures Waiting(t, k, v, data)
  {
    var x :| Run(s, [QueueEvent(k, Ledger.ACTIVE, 100), CompletionRead(Delivery.Return(BullJobId(k), v, x))], t);
    var r := Delivery.Return(BullJobId(k), v, x);
    RunTwo(s, QueueEvent(k, Ledger.ACTIVE, 100), CompletionRead(r), t);
    ActiveFirst(s, k, v, data);
    var s1 := Apply(s, QueueEvent(k, Ledger.ACTIVE, 100));
    FiledJob(s1, BullJobId(k));
    FiledRun(s1, k);
    assert Ledger.PersistCompletion(s1.l, k, v.result).Err?;
  }

  lemma {:induction false} UnmatchedRound(s: State, entries: seq<Entry>, passes: seq<Pass>, t: State, k: Key, v: ReturnValue, data: Payload)
    requires Waiting(s, k, v, data) && |passes| == |entries| && Round(s, entries, passes, t)
    requires !Matches(data, v) || Stores(entries, passes, k, false)
    requires forall i :: 0 <= i < |entries| ==> EntryOk(entries[i])
    ensures Waiting(t, k, v, data)
    decreases |entries|
  {
    if entries != [] {
      var m :| Handles(s, entries[0], passes[0], m) && Round(m, entries[1..], passes[1..], t);
      if entries[0].key == k { UnmatchedIteration(s, entries[0], passes[0], m, v, data); }
      else { OtherIteration(s, entries[0], passes[0], m, k, v, data); }
      UnmatchedRound(m, entries[1..], passes[1..], t, k, v, data);
    }
  }

  lemma UnmatchedStaysOpen(s: State, k: Key, v: ReturnValue, data: Payload, entries1: seq<Entry>, passes1: seq<Pass>, m: State,
                           entries2: seq<Entry>, passes2: seq<Pass>, t: State, stored: bool)
    requires Waiting(s, k, v, data) && !(Matches(data, v) && stored)
    requires TwoRounds(s, k, entries1, passes1, m, entries2, passes2, t, stored)
    ensures k in t.l.runs && t.l.runs[k].state in OPEN
  {
    ListingOk(s, entries1);
    UnmatchedRound(s, entries1, passes1, m, k, v, data);
    ListingOk(m, entries2);
    UnmatchedRound(m, entries2, passes2, t, k, v, data);
  }

  /** The two rounds end the run exactly when the job returned a valid result that matches its envelope and
      the version's hash and its extraction can be read and stored, and then with that result; otherwise the
      run is still open afterwards. */
  lemma RecoveryIffMatching(s: State, k: Key, v: ReturnValue, data: Payload, entries1: seq<Entry>, passes1: seq<Pass>, m: State,
                            entries2: seq<Entry>, passes2: seq<Pass>, t: State, stored: bool)
    requires Reachable(s) && Finished(s, k, v, data) && TwoRounds(s, k, entries1, passes1, m, entries2, passes2, t, stored)
    ensures Matches(data, v) && stored ==> Recovered(t, k, v)
    ensures !(Matches(data, v) && stored) ==>
      k in t.l.runs && t.l.runs[k].state in {Ledger.QUEUED, Ledger.ACTIVE, Ledger.RETRY_SCHEDULED}
  {
    if Matches(data, v) && stored {
      RecoveryInTwoRounds(s, k, v, data, entries1, passes1, m, entries2, passes2, t);
    } else {
      UnmatchedStaysOpen(s, k, v, data, entries1, passes1, m, entries2, passes2, t, stored);
    }
  }

  // ---------------------------------------------------------------- missing jobs

  lemma {:induction false} PayloadFixed(s: State, es: seq<Event>, t: State, k: Key)
    requires Run(s, es, t) && k in s.d.rows
    ensures k in t.d.rows && t.d.rows[k].payload == s.d.rows[k].payload
    decreases |es|
  {
    if es != [] {
      if DeliveryPart(s, es[0]).Some? { DeliveryFrame(s.d, DeliveryPart(s, es[0]).value); }
      PayloadFixed(Apply(s, es[0]), es[1..], t, k);
    }
  }

  /** Everything an undisturbed iteration does is a run of the machine, in which no job is evicted. */
  lemma HandlesRun(s: State, entry: Entry, pass: Pass, t: State) returns (es: seq<Event>)
    requires Handles(s, entry, pass, t)
    ensures Run(s, es, t) && forall e :: e in es ==> !Evicts(e)
  {
    var id := LookupId(entry);
    es := [];
    if id !in s.d.queue {
      es := [ResetRow(entry.key)] + PassEvents(s.d.rows, pass);
      RefreshIsBackground(s, entry.key, pass, entry.key);
    } else if s.d.queue[id].status.Done? && s.d.queue[id].data.wellFormed {
      var k, v := s.d.queue[id].data.key, s.d.queue[id].status.value;
      if v.Compact? && SameIdentity(s.d.queue[id].data, v.result) && pass.stored {
        var x :| Run(s, [QueueEvent(k, Ledger.ACTIVE, 100), CompletionRead(Delivery.Return(id, v, x))], t);
        es := [QueueEvent(k, Ledger.ACTIVE, 100), CompletionRead(Delivery.Return(id, v, x))];
      } else {
        es := [QueueEvent(k, Ledger.ACTIVE, 100)];
      }
    }
  }

  lemma {:induction false} RoundRun(s: State, entries: seq<Entry>, passes: seq<Pass>, t: State) returns (es: seq<Event>)
    requires |passes| == |entries| && Round(s, entries, passes, t)
    ensures Run(s, es, t) && forall e :: e in es ==> !Evicts(e)
    decreases |entries|
  {
    if entries == [] {
      es := [];
    } else {
      var m :| Handles(s, entries[0], passes[0], m) && Round(m, entries[1..], passes[1..], t);
      es := HandlesRun(s, entries[0], passes[0], m);
      var rest := RoundRun(m, entries[1..], passes[1..], t);
      RunAppend(s, es, m, rest, t);
      es := es + rest;
    }
  }

  /** While the job is missing, the publisher's work on one row either places it or leaves it missing. */
  lemma RowPlacesOrLeaves(s: State, wellFormed: bool, token: Delivery.Token, m: State, k: Key)
    requires Reachable(s) && Run(s, RowEvents(wellFormed, token), m) && BullJobId(k) !in s.d.queue
    ensures Reachable(m) && (Placed(m, k) || BullJobId(k) !in m.d.queue)
    ensures token in s.d.publishers && s.d.publishers[token].worklist != [] && token in m.d.publishers
    ensures m.d.publishers[token] == Delivery.Publisher(s.d.publishers[token].worklist[1..], Delivery.Claimed)
  {
    if wellFormed {
      WorkOneRow(s, token, m);
      var head := s.d.publishers[token].worklist[0];
      if head != k { OtherRowAdds(s, token, m, k); }
    } else {
      SkipOneRow(s, token, m);
    }
  }

  /** Work on another row adds no job of `k`. */
  lemma OtherRowAdds(s: State, token: Delivery.Token, m: State, k: Key)
    requires Reachable(s) && Run(s, RowEvents(true, token), m) && BullJobId(k) !in s.d.queue
    requires token in s.d.publishers && s.d.publishers[token].worklist != [] && s.d.publishers[token].worklist[0] != k
    ensures BullJobId(k) !in m.d.queue
  {
    var a, b, c := Deliver(Delivery.Add(token)), LinkRun(token), Deliver(Delivery.Finish(token));
    RunThree(s, a, b, c, m);
    var head := s.d.publishers[token].worklist[0];
    FiledRun(s, head);
    assert BullJobId(k) !in Apply(s, a).d.queue;
  }

  lemma {:induction false} WorkPlacesOrLeaves(s: State, rows: map<Key, Delivery.Row>, token: Delivery.Token, keys: seq<Key>, t: State, k: Key)
    requires Reachable(s) && Run(s, WorkEvents(rows, token, keys), t) && BullJobId(k) !in s.d.queue
    ensures Placed(t, k) || BullJobId(k) !in t.d.queue
    decreases |keys|
  {
    if keys == [] {
      RunOne(s, Deliver(Delivery.Stop(token)), t);
    } else {
      var first := keys[0] in rows && rows[keys[0]].payload.wellFormed;
      var rest := WorkEvents(rows, token, keys[1..]);
      var m := RunSplit(s, RowEvents(first, token), rest, t);
      RowPlacesOrLeaves(s, first, token, m, k);
      if Placed(m, k) {
        WorkIsBackground(rows, token, keys[1..], k);
        PlacedStays(m, rest, t, k);
      } else {
        WorkPlacesOrLeaves(m, rows, token, keys[1..], t, k);
      }
    }
  }

  lemma ResetAndClaim(s: State, key: Key, claim: Event, m: State)
    requires Reachable(s) && claim.Deliver? && claim.delivery.Claim? && Run(s, [ResetRow(key), claim], m)
    ensures Reachable(m) && m.d.queue == s.d.queue
  {
    RunTwo(s, ResetRow(key), claim, m);
    ReachStep(s, ResetRow(key));
    ReachStep(Apply(s, ResetRow(key)), claim);
  }

  lemma RefreshPlacesOrLeaves(s: State, key: Key, pass: Pass, t: State, k: Key)
    requires Reachable(s) && Run(s, [ResetRow(key)] + PassEvents(s.d.rows, pass), t) && BullJobId(k) !in s.d.queue
    ensures Placed(t, k) || BullJobId(k) !in t.d.queue
  {
    var work := WorkEvents(s.d.rows, pass.token, pass.batch);
    var claim := Deliver(Delivery.Claim(pass.token, pass.batch));
    assert [ResetRow(key)] + PassEvents(s.d.rows, pass) == [ResetRow(key), claim] + work;
    var m := RunSplit(s, [ResetRow(key), claim], work, t);
    ResetAndClaim(s, key, claim, m);
    WorkPlacesOrLeaves(m, s.d.rows, pass.token, pass.batch, t, k);
  }

  /** Missing, or placed: never queued without a link. */
  ghost predicate NoLooseJob(s: State, k: Key) { BullJobId(k) in s.d.queue ==> Placed(s, k) }

  lemma IterationKeepsPlaced(s: State, entry: Entry, pass: Pass, t: State, k: Key)
    requires Reachable(s) && Handles(s, entry, pass, t) && Placed(s, k)
    ensures Reachable(t) && Placed(t, k)
  {
    var es := HandlesRun(s, entry, pass, t);
    PlacedStays(s, es, t, k);
  }

  /** An iteration for whatever run leaves no loose job of `k`. */
  lemma IterationLeavesNoLooseJob(s: State, entry: Entry, pass: Pass, t: State, k: Key)
    requires Reachable(s) && Handles(s, entry, pass, t) && NoLooseJob(s, k)
    ensures Reachable(t) && NoLooseJob(t, k)
  {
    var es := HandlesRun(s, entry, pass, t);
    ReachRun(s, es, t);
    if BullJobId(k) in s.d.queue {
      PlacedStays(s, es, t, k);
    } else if LookupId(entry) !in s.d.queue {
      RefreshPlacesOrLeaves(s, entry.key, pass, t, k);
    } else {
      RecoveringKeepsQueue(s, entry, pass, t);
    }
  }

  lemma RecoveringKeepsQueue(s: State, entry: Entry, pass: Pass, t: State)
    requires Handles(s, entry, pass, t) && LookupId(entry) in s.d.queue
    ensures t.d == s.d
  {
    var id := LookupId(entry);
    if s.d.queue[id].status.Done? && s.d.queue[id].data.wellFormed {
      var k, v := s.d.queue[id].data.key, s.d.queue[id].status.value;
      if v.Compact? && SameIdentity(s.d.queue[id].data, v.result) && pass.stored {
        var x :| Run(s, [QueueEvent(k, Ledger.ACTIVE, 100), CompletionRead(Delivery.Return(id, v, x))], t);
        RunTwo(s, QueueEvent(k, Ledger.ACTIVE, 100), CompletionRead(Delivery.Return(id, v, x)), t);
      } else {
        RunOne(s, QueueEvent(k, Ledger.ACTIVE, 100), t);
      }
    }
  }

  /** The run's own iteration places a well-formed job whose row the pass claims. */
  lemma OwnIterationPlaces(s: State, entry: Entry, pass: Pass, t: State)
    requires Reachable(s) && EntryOk(entry) && Handles(s, entry, pass, t) && NoLooseJob(s, entry.key) && entry.key in pass.batch
    requires entry.key in s.d.rows && s.d.rows[entry.key].payload.wellFormed
    ensures Reachable(t) && Placed(t, entry.key)
  {
    var k := entry.key;
    if BullJobId(k) in s.d.queue {
      IterationKeepsPlaced(s, entry, pass, t, k);
    } else {
      if LookupId(entry) in s.d.queue { FiledJob(s, LookupId(entry)); }
      RefreshLinks(s, k, pass, t);
    }
  }

  lemma {:induction false} RoundKeepsPlaced(s: State, entries: seq<Entry>, passes: seq<Pass>, t: State, k: Key)
    requires Reachable(s) && Placed(s, k) && |passes| == |entries| && Round(s, entries, passes, t)
    ensures Placed(t, k)
    decreases |entries|
  {
    if entries != [] {
      var m :| Handles(s, entries[0], passes[0], m) && Round(m, entries[1..], passes[1..], t);
      IterationKeepsPlaced(s, entries[0], passes[0], m, k);
      RoundKeepsPlaced(m, entries[1..], passes[1..], t, k);
    }
  }

  lemma EarlierIteration(s: State, entry: Entry, pass: Pass, m: State, k: Key)
    requires Reachable(s) && Handles(s, entry, pass, m) && NoLooseJob(s, k) && k in s.d.rows
    ensures Reachable(m) && NoLooseJob(m, k) && k in m.d.rows && m.d.rows[k].payload == s.d.rows[k].payload
  {
    IterationLeavesNoLooseJob(s, entry, pass, m, k);
    var es := HandlesRun(s, entry, pass, m);
    PayloadFixed(s, es, m, k);
  }

  lemma {:induction false} RoundPlaces(s: State, entries: seq<Entry>, passes: seq<Pass>, t: State, j: nat)
    requires Reachable(s) && j < |entries| == |passes| && Round(s, entries, passes, t) && Includes(entries, passes, entries[j].key)
    requires forall i :: 0 <= i < |entries| ==> EntryOk(entries[i])
    requires NoLooseJob(s, entries[j].key) && entries[j].key in s.d.rows && s.d.rows[entries[j].key].payload.wellFormed
    ensures Placed(t, entries[j].key)
    decreases |entries|
  {
    var k := entries[j].key;
    var m :| Handles(s, entries[0], passes[0], m) && Round(m, entries[1..], passes[1..], t);
    if j == 0 {
      OwnIterationPlaces(s, entries[0], passes[0], m);
      RoundKeepsPlaced(m, entries[1..], passes[1..], t, k);
    } else {
      EarlierIteration(s, entries[0], passes[0], m, k);
      assert entries[1..][j - 1] == entries[j];
      RoundPlaces(m, entries[1..], passes[1..], t, j - 1);
    }
  }

  /** No lost intent, second half: when the job of an open run is missing, one undisturbed round that lists
      the run, whose batches include its row, ends with the job in the queue under the same id and the run
      linked to it, exactly if the payload passes the job schema; it never ends with the one and not the other. */
  lemma MissingJobReturns(s: State, entries: seq<Entry>, passes: seq<Pass>, t: State, j: nat)
    requires Reachable(s) && j < |entries| == |passes| && Listing(s.l, entries) && Round(s, entries, passes, t)
    requires Includes(entries, passes, entries[j].key) && BullJobId(entries[j].key) !in s.d.queue
    ensures entries[j].key in s.d.rows
    ensures BullJobId(entries[j].key) in t.d.queue <==> s.d.rows[entries[j].key].payload.wellFormed
    ensures BullJobId(entries[j].key) in t.d.queue ==> IsLinked(t, entries[j].key)
  {
    ListingOk(s, entries);
    FiledRun(s, entries[j].key);
    if s.d.rows[entries[j].key].payload.wellFormed {
      RoundPlaces(s, entries, passes, t, j);
    } else {
      IllFormedNeverQueued(s, entries, passes, t, entries[j].key);
    }
  }

  lemma IllFormedNeverQueued(s: State, entries: seq<Entry>, passes: seq<Pass>, t: State, k: Key)
    requires Reachable(s) && |entries| == |passes| && Round(s, entries, passes, t) && k in s.d.rows && !s.d.rows[k].payload.wellFormed
    ensures BullJobId(k) !in t.d.queue
  {
    var es := RoundRun(s, entries, passes, t);
    ReachRun(s, es, t);
    PayloadFixed(s, es, t, k);
    if BullJobId(k) in t.d.queue { FiledJob(t, BullJobId(k)); }
  }

  // ---------------------------------------------------------------- exhausted jobs

  /** Run `k` is in `state` and the queue failed its job for good: the attempts are used up, or it stalled
      too often. */
  ghost predicate Stuck(s: State, k: Key, state: Ledger.RunState) {
    && k in s.l.runs && s.l.runs[k].state == state
    && BullJobId(k) in s.d.queue && s.d.queue[BullJobId(k)].status == Delivery.Exhausted
  }

  lemma StuckStep(s: State, e: Event, k: Key, state: Ledger.RunState)
    requires Reachable(s) && Stuck(s, k, state) && Enabled(s, e) && Background(e, k)
    ensures Reachable(Apply(s, e)) && Stuck(Apply(s, e), k, state)
  {
    ReachStep(s, e);
    BackgroundKeepsRun(s, e, k);
    BackgroundKeepsJob(s, e, k, BullJobId(k));
  }

  lemma {:induction false} StuckRun(s: State, es: seq<Event>, t: State, k: Key, state: Ledger.RunState)
    requires Reachable(s) && Stuck(s, k, state) && Run(s, es, t) && forall e :: e in es ==> Background(e, k)
    ensures Reachable(t) && Stuck(t, k, state)
    decreases |es|
  {
    if es != [] {
      StuckStep(s, es[0], k, state);
      StuckRun(Apply(s, es[0]), es[1..], t, k, state);
    }
  }

  lemma StuckIteration(s: State, entry: Entry, pass: Pass, t: State, k: Key, state: Ledger.RunState)
    requires Reachable(s) && Stuck(s, k, state) && EntryOk(entry) && Handles(s, entry, pass, t)
    ensures Reachable(t) && Stuck(t, k, state)
  {
    var id := LookupId(entry);
    if id !in s.d.queue {
      RefreshIsBackground(s, entry.key, pass, k);
      StuckRun(s, [ResetRow(entry.key)] + PassEvents(s.d.rows, pass), t, k, state);
    } else if s.d.queue[id].status.Done? {
      var job := s.d.queue[id];
      FiledJob(s, id);
      var value := job.status.value;
      if value.Compact? && SameIdentity(job.data, value.result) && pass.stored {
        var x :| Run(s, [QueueEvent(entry.key, Ledger.ACTIVE, 100), CompletionRead(Delivery.Return(id, value, x))], t);
        StuckRun(s, [QueueEvent(entry.key, Ledger.ACTIVE, 100), CompletionRead(Delivery.Return(id, value, x))], t, k, state);
      } else {
        StuckRun(s, [QueueEvent(entry.key, Ledger.ACTIVE, 100)], t, k, state);
      }
    }
  }

  lemma {:induction false} StuckRound(s: State, entries: seq<Entry>, passes: seq<Pass>, t: State, k: Key, state: Ledger.RunState)
    requires Reachable(s) && Stuck(s, k, state) && |passes| == |entries| && Round(s, entries, passes, t)
    requires forall i :: 0 <= i < |entries| ==> EntryOk(entries[i])
    ensures Reachable(t) && Stuck(t, k, state)
    decreases |entries|
  {
    if entries != [] {
      var m :| Handles(s, entries[0], passes[0], m) && Round(m, entries[1..], passes[1..], t);
      StuckIteration(s, entries[0], passes[0], m, k, state);
      StuckRound(m, entries[1..], passes[1..], t, k, state);
    }
  }

  /** Any number of undisturbed reconcile rounds, each over a list of its own time. */
  ghost predicate Rounds(s: State, lists: seq<seq<Entry>>, passes: seq<seq<Pass>>, t: State)
    requires |lists| == |passes|
    decreases |lists|
  {
    if lists == [] then s == t
    else
      && |lists[0]| == |passes[0]| && Listing(s.l, lists[0])
      && exists m :: Round(s, lists[0], passes[0], m) && Rounds(m, lists[1..], passes[1..], t)
  }

  /** Reconciling never moves a run whose job failed for good, linked or not and in whatever state: after any
      number of undisturbed rounds over whatever lists the run is where it was and its job still failed. */
  lemma {:induction false} ExhaustedRunStays(s: State, k: Key, lists: seq<seq<Entry>>, passes: seq<seq<Pass>>, t: State, state: Ledger.RunState)
    requires Reachable(s) && Stuck(s, k, state) && |lists| == |passes| && Rounds(s, lists, passes, t)
    ensures Reachable(t) && Stuck(t, k, state)
    decreases |lists|
  {
    if lists != [] {
      var m :| Round(s, lists[0], passes[0], m) && Rounds(m, lists[1..], passes[1..], t);
      ListingOk(s, lists[0]);
      StuckRound(s, lists[0], passes[0], m, k, state);
      ExhaustedRunStays(m, k, lists[1..], passes[1..], t, state);
    }
  }
}
