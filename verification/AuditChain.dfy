/** The hash-chained audit log of each organization, appended to by concurrent transactions. The digest of
    an event is a function of its serialized content; injectivity stands for an injective serializer and
    a hash without collisions. */
module AuditChain {
  import opened Common

  type Uuid = nat
  type Digest = string
  type Tx = nat

  /** Everything `append` is given; all of it is hashed. */
  datatype Input = Input(
    organization: Uuid, actor: Option<Uuid>, actorType: string, action: string, resourceType: string, resource: Uuid,
    version: Option<nat>, result: string, reason: Option<string>, correlation: Uuid, metadata: string)

  datatype Payload = Payload(input: Input, sequence: nat, previousHash: Option<Digest>)

  datatype Event = Event(input: Input, sequence: nat, previousHash: Option<Digest>, currentHash: Digest)

  type Hash = Payload -> Digest

  ghost predicate Injective(hash: Hash) {
    forall p, q :: hash(p) == hash(q) ==> p == q
  }

  /** 2^53, the last integer up to which `Number(...) + 1` is exact. */
  const EXACT: nat := 0x20_0000_0000_0000

  /** `Number(previous.sequence) + 1` on doubles: 2^53 + 1 rounds back to 2^53. */
  function NextSequence(previous: nat): nat {
    if previous < EXACT then previous + 1 else previous
  }

  /** `findOne(... order: { sequence: "DESC" })`. */
  function Latest(events: seq<Event>): (r: Option<Event>)
    ensures events == [] <==> r.None?
    ensures r.Some? ==> r.value in events && forall e :: e in events ==> e.sequence <= r.value.sequence
  {
    if events == [] then None
    else
      var rest := Latest(events[..|events| - 1]);
      var last := events[|events| - 1];
      if rest.Some? && rest.value.sequence > last.sequence then rest else Some(last)
  }

  function NewEvent(hash: Hash, previous: Option<Event>, input: Input): Event {
    var sequence := if previous.Some? then NextSequence(previous.value.sequence) else 1;
    var previousHash := if previous.Some? then Some(previous.value.currentHash) else None;
    Event(input, sequence, previousHash, hash(Payload(input, sequence, previousHash)))
  }

  /** The unique constraint on (organization, sequence). */
  predicate Fits(events: seq<Event>, e: Event) {
    forall i :: 0 <= i < |events| ==> events[i].sequence != e.sequence
  }

  // ---------------------------------------------------------------- chains

  ghost predicate LinkOk(hash: Hash, chain: seq<Event>, i: nat)
    requires i < |chain|
  {
    && chain[i].sequence == i + 1
    && chain[i].previousHash == (if i == 0 then None else Some(chain[i - 1].currentHash))
    && chain[i].currentHash == hash(Payload(chain[i].input, chain[i].sequence, chain[i].previousHash))
  }

  /** Numbered 1..n without gaps, each event naming the hash of its predecessor. */
  ghost predicate ValidChain(hash: Hash, chain: seq<Event>) {
    forall i :: 0 <= i < |chain| ==> LinkOk(hash, chain, i)
  }

  lemma LatestIsLast(hash: Hash, chain: seq<Event>)
    requires ValidChain(hash, chain) && chain != []
    ensures Latest(chain) == Some(chain[|chain| - 1])
  {
    var last := |chain| - 1;
    assert LinkOk(hash, chain, last);
    var r := Latest(chain).value;
    var i :| 0 <= i < |chain| && chain[i] == r;
    assert LinkOk(hash, chain, i);
  }

  /** Appending to a valid chain succeeds exactly below 2^53 events, and then extends the chain validly. */
  lemma AppendExtends(hash: Hash, chain: seq<Event>, input: Input)
    requires ValidChain(hash, chain) && |chain| <= EXACT
    ensures var e := NewEvent(hash, Latest(chain), input);
      (Fits(chain, e) <==> |chain| < EXACT) && (|chain| < EXACT ==> ValidChain(hash, chain + [e]))
  {
    var e := NewEvent(hash, Latest(chain), input);
    if chain != [] {
      LatestIsLast(hash, chain);
      assert LinkOk(hash, chain, |chain| - 1);
    }
    forall i | 0 <= i < |chain| ensures chain[i].sequence == i + 1 { assert LinkOk(hash, chain, i); }
    var longer := chain + [e];
    forall i | 0 <= i < |longer| && |chain| < EXACT ensures LinkOk(hash, longer, i) {
      if i < |chain| { assert LinkOk(hash, chain, i); }
    }
  }

  /** The event that fits is the next one: it has the next number and names the hash of the last event. */
  lemma NextEvent(hash: Hash, chain: seq<Event>, input: Input)
    requires ValidChain(hash, chain) && |chain| <= EXACT && Fits(chain, NewEvent(hash, Latest(chain), input))
    ensures var previous := if chain == [] then None else Some(chain[|chain| - 1].currentHash);
      NewEvent(hash, Latest(chain), input) == Event(input, |chain| + 1, previous, hash(Payload(input, |chain| + 1, previous)))
  {
    AppendExtends(hash, chain, input);
    if chain != [] {
      LatestIsLast(hash, chain);
      assert LinkOk(hash, chain, |chain| - 1);
    }
  }

  lemma PrefixValid(hash: Hash, chain: seq<Event>, n: nat)
    requires ValidChain(hash, chain) && n <= |chain|
    ensures ValidChain(hash, chain[..n])
  {
    forall i | 0 <= i < n ensures LinkOk(hash, chain[..n], i) { assert LinkOk(hash, chain, i); }
  }

  /** Tamper evidence: two valid chains whose heads carry the same hash agree in length and in every
      event, for every injective hash. */
  lemma {:induction false} HeadDeterminesChain(hash: Hash, a: seq<Event>, b: seq<Event>)
    requires Injective(hash) && ValidChain(hash, a) && ValidChain(hash, b)
    requires a != [] && b != [] && a[|a| - 1].currentHash == b[|b| - 1].currentHash
    ensures a == b
    decreases |a|
  {
    var n, m := |a| - 1, |b| - 1;
    assert LinkOk(hash, a, n) && LinkOk(hash, b, m);
    assert Payload(a[n].input, a[n].sequence, a[n].previousHash) == Payload(b[m].input, b[m].sequence, b[m].previousHash);
    if n > 0 {
      PrefixValid(hash, a, n);
      PrefixValid(hash, b, m);
      HeadDeterminesChain(hash, a[..n], b[..m]);
    }
    assert a == a[..n] + [a[n]] && b == b[..m] + [b[m]];
  }

  // ---------------------------------------------------------------- concurrent transactions

  /** Where a transaction is within `append`: outside, holding the lock, or holding the row it read. */
  datatype Phase = Idle | Locked | HasRead(previous: Option<Event>)

  /** A transaction works for one organization; `buffer` is what it inserted and has not committed. */
  datatype Transaction = Transaction(organization: Uuid, buffer: seq<Event>, phase: Phase)

  /** `lockKey` maps an organization to its advisory lock; two organizations may share one. */
  datatype Config = Config(hash: Hash, lockKey: Uuid -> int)

  datatype State = State(committed: map<Uuid, seq<Event>>, open: map<Tx, Transaction>, locks: map<int, Tx>)

  const Init := State(map[], map[], map[])

  function Chain(s: State, organization: Uuid): seq<Event> {
    if organization in s.committed then s.committed[organization] else []
  }

  datatype Step =
    | Begin(tx: Tx, organization: Uuid)
    | Lock(tx: Tx)
    | Read(tx: Tx)
    | Insert(tx: Tx, input: Input)
    | Commit(tx: Tx)
    | Abort(tx: Tx)

  predicate Enabled(c: Config, s: State, step: Step) {
    match step
    case Begin(tx, _) => tx !in s.open
    case Lock(tx) =>
      tx in s.open && s.open[tx].phase == Idle &&
      var k := c.lockKey(s.open[tx].organization); k !in s.locks || s.locks[k] == tx
    case Read(tx) => tx in s.open && s.open[tx].phase == Locked
    case Insert(tx, input) => tx in s.open && s.open[tx].phase.HasRead? && input.organization == s.open[tx].organization
    case Commit(tx) => tx in s.open && s.open[tx].phase == Idle
    case Abort(tx) => tx in s.open
  }

  /** The end of a transaction releases its locks. */
  function Release(s: State, tx: Tx): State {
    s.(open := s.open - {tx}, locks := map k | k in s.locks && s.locks[k] != tx :: s.locks[k])
  }

  /** What the transaction sees of its organization: committed rows and its own. */
  function Visible(s: State, tx: Tx): seq<Event>
    requires tx in s.open
  {
    Chain(s, s.open[tx].organization) + s.open[tx].buffer
  }

  function Apply(c: Config, s: State, step: Step): State
    requires Enabled(c, s, step)
  {
    match step
    case Begin(tx, organization) => s.(open := s.open[tx := Transaction(organization, [], Idle)])
    case Lock(tx) =>
      s.(open := s.open[tx := s.open[tx].(phase := Locked)], locks := s.locks[c.lockKey(s.open[tx].organization) := tx])
    case Read(tx) => s.(open := s.open[tx := s.open[tx].(phase := HasRead(Latest(Visible(s, tx))))])
    case Insert(tx, input) =>
      var t := s.open[tx];
      var e := NewEvent(c.hash, t.phase.previous, input);
      // A violated constraint aborts the transaction.
      if Fits(Visible(s, tx), e) then s.(open := s.open[tx := t.(buffer := t.buffer + [e], phase := Idle)]) else Release(s, tx)
    case Commit(tx) =>
      var organization := s.open[tx].organization;
      Release(s.(committed := s.committed[organization := Visible(s, tx)]), tx)
    case Abort(tx) => Release(s, tx)
  }

  /** A transaction that inserted or is inside `append` holds the lock of its organization, what it sees
      is a valid chain, and the row it read is still the last one. */
  ghost predicate TxOk(c: Config, s: State, tx: Tx)
    requires tx in s.open
  {
    var t := s.open[tx];
    var k := c.lockKey(t.organization);
    && (t.buffer != [] || t.phase != Idle ==> k in s.locks && s.locks[k] == tx)
    && ValidChain(c.hash, Visible(s, tx)) && |Visible(s, tx)| <= EXACT
    && (t.phase.HasRead? ==> t.phase.previous == Latest(Visible(s, tx)))
  }

  ghost predicate Inv(c: Config, s: State) {
    && (forall o {:trigger Chain(s, o)} :: ValidChain(c.hash, Chain(s, o)) && |Chain(s, o)| <= EXACT)
    && (forall tx {:trigger TxOk(c, s, tx)} :: tx in s.open ==> TxOk(c, s, tx))
  }

  lemma InsertKeeps(c: Config, s: State, tx: Tx, input: Input)
    requires Inv(c, s) && Enabled(c, s, Insert(tx, input))
    ensures Inv(c, Apply(c, s, Insert(tx, input)))
  {
    var u := Apply(c, s, Insert(tx, input));
    assert TxOk(c, s, tx);
    AppendExtends(c.hash, Visible(s, tx), input);
    var e := NewEvent(c.hash, s.open[tx].phase.previous, input);
    forall o ensures Chain(u, o) == Chain(s, o) {}
    forall t | t in u.open ensures TxOk(c, u, t) {
      assert TxOk(c, s, t);
      if t == tx {
        assert Visible(u, tx) == Visible(s, tx) + [e];
      } else {
        assert Visible(u, t) == Visible(s, t);
      }
    }
  }

  lemma CommitKeeps(c: Config, s: State, tx: Tx)
    requires Inv(c, s) && Enabled(c, s, Commit(tx))
    ensures Inv(c, Apply(c, s, Commit(tx)))
  {
    var u := Apply(c, s, Commit(tx));
    assert TxOk(c, s, tx);
    var o := s.open[tx].organization;
    forall p ensures ValidChain(c.hash, Chain(u, p)) && |Chain(u, p)| <= EXACT {
      if p != o { assert Chain(u, p) == Chain(s, p); }
    }
    forall t | t in u.open ensures TxOk(c, u, t) {
      assert TxOk(c, s, t);
      if s.open[t].organization == o {
        if s.open[tx].buffer == [] {
          assert Chain(u, o) == Chain(s, o);
        } else {
          assert Visible(u, t) == Chain(u, o) + [] == Visible(s, tx);
        }
      } else {
        assert Visible(u, t) == Visible(s, t);
      }
    }
  }

  lemma OtherKeeps(c: Config, s: State, step: Step)
    requires Inv(c, s) && Enabled(c, s, step) && !step.Insert? && !step.Commit?
    ensures Inv(c, Apply(c, s, step))
  {
    var u := Apply(c, s, step);
    forall o ensures Chain(u, o) == Chain(s, o) {}
    forall t | t in u.open ensures TxOk(c, u, t) {
      if t in s.open {
        assert TxOk(c, s, t);
        assert Visible(u, t) == Visible(s, t);
      } else {
        assert Visible(u, t) == Chain(s, step.organization);
      }
    }
  }

  ghost predicate Run(c: Config, s: State, steps: seq<Step>, u: State)
    decreases |steps|
  {
    if steps == [] then s == u else Enabled(c, s, steps[0]) && Run(c, Apply(c, s, steps[0]), steps[1..], u)
  }

  lemma {:induction false} RunKeeps(c: Config, s: State, steps: seq<Step>, u: State)
    requires Inv(c, s) && Run(c, s, steps, u)
    ensures Inv(c, u)
    decreases |steps|
  {
    if steps != [] {
      match steps[0]
      case Insert(tx, input) => InsertKeeps(c, s, tx, input); RunKeeps(c, Apply(c, s, steps[0]), steps[1..], u);
      case Commit(tx) => CommitKeeps(c, s, tx); RunKeeps(c, Apply(c, s, steps[0]), steps[1..], u);
      case _ => OtherKeeps(c, s, steps[0]); RunKeeps(c, Apply(c, s, steps[0]), steps[1..], u);
    }
  }

  /** Over any interleaving of committing and aborting transactions, whatever organizations share a lock,
      the committed events of each organization are numbered 1..n and linked by their hashes. */
  lemma EveryChainIsValid(c: Config, steps: seq<Step>, u: State, organization: Uuid)
    requires Run(c, Init, steps, u)
    ensures ValidChain(c.hash, Chain(u, organization)) && |Chain(u, organization)| <= 9_007_199_254_740_992
  {
    forall o ensures Chain(Init, o) == [] {}
    RunKeeps(c, Init, steps, u);
  }

  /** An insert is refused by the unique constraint exactly when the organization has 2^53 events. */
  lemma InsertSucceedsIff(c: Config, steps: seq<Step>, u: State, tx: Tx, input: Input)
    requires Run(c, Init, steps, u) && Enabled(c, u, Insert(tx, input))
    ensures tx in Apply(c, u, Insert(tx, input)).open <==>
      |Chain(u, u.open[tx].organization)| + |u.open[tx].buffer| < 9_007_199_254_740_992
  {
    forall o ensures Chain(Init, o) == [] {}
    RunKeeps(c, Init, steps, u);
    assert TxOk(c, u, tx);
    AppendExtends(c.hash, Visible(u, tx), input);
  }

  /** What one step adds to the committed chains: a commit adds what its transaction inserted, and nothing else does. */
  lemma StepAdds(c: Config, s: State, step: Step, organization: Uuid)
    requires Enabled(c, s, step)
    ensures Chain(Apply(c, s, step), organization) ==
      if step.Commit? && s.open[step.tx].organization == organization
      then Chain(s, organization) + s.open[step.tx].buffer else Chain(s, organization)
  {
  }

  /** What was committed along the steps for an organization, in the order of the commits. */
  ghost function Committed(c: Config, s: State, steps: seq<Step>, organization: Uuid): seq<Event>
    decreases |steps|
  {
    if steps == [] || !Enabled(c, s, steps[0]) then []
    else
      (if steps[0].Commit? && s.open[steps[0].tx].organization == organization then s.open[steps[0].tx].buffer else [])
      + Committed(c, Apply(c, s, steps[0]), steps[1..], organization)
  }

  /** The log is append-only: over every run, the chain of an organization is extended by exactly what its
      transactions inserted and committed, in the order of the commits, and never changed otherwise. */
  lemma {:induction false} ChainsOnlyGrow(c: Config, s: State, steps: seq<Step>, u: State, organization: Uuid)
    requires Run(c, s, steps, u)
    ensures Chain(u, organization) == Chain(s, organization) + Committed(c, s, steps, organization)
    decreases |steps|
  {
    if steps != [] {
      StepAdds(c, s, steps[0], organization);
      ChainsOnlyGrow(c, Apply(c, s, steps[0]), steps[1..], u, organization);
    }
  }

  lemma InsertExtends(c: Config, s: State, tx: Tx, input: Input)
    requires tx in s.open && TxOk(c, s, tx) && Enabled(c, s, Insert(tx, input)) && tx in Apply(c, s, Insert(tx, input)).open
    ensures Fits(Visible(s, tx), NewEvent(c.hash, Latest(Visible(s, tx)), input))
    ensures Apply(c, s, Insert(tx, input)).open[tx].buffer == s.open[tx].buffer + [NewEvent(c.hash, Latest(Visible(s, tx)), input)]
  {
  }

  lemma ReachedTxOk(c: Config, steps: seq<Step>, s: State, tx: Tx)
    requires Run(c, Init, steps, s) && tx in s.open
    ensures TxOk(c, s, tx)
  {
    forall o ensures Chain(Init, o) == [] {}
    RunKeeps(c, Init, steps, s);
  }

  /** In every reachable state an insert that fits adds one event with the given input to the transaction's own
      rows, numbered and linked after everything the transaction sees. */
  lemma InsertAdds(c: Config, steps: seq<Step>, s: State, tx: Tx, input: Input)
    requires Run(c, Init, steps, s) && Enabled(c, s, Insert(tx, input)) && tx in Apply(c, s, Insert(tx, input)).open
    ensures
      var seen := Chain(s, s.open[tx].organization) + s.open[tx].buffer;
      var previous := if seen == [] then None else Some(seen[|seen| - 1].currentHash);
      Apply(c, s, Insert(tx, input)).open[tx].buffer ==
        s.open[tx].buffer + [Event(input, |seen| + 1, previous, c.hash(Payload(input, |seen| + 1, previous)))]
  {
    ReachedTxOk(c, steps, s, tx);
    InsertExtends(c, s, tx, input);
    NextEvent(c.hash, Visible(s, tx), input);
  }

  // ---------------------------------------------------------------- the service

  /** `append` inside one transaction, over the table it sees. */
  class AuditService {
    var events: map<Uuid, seq<Event>>
    const hash: Hash

    ghost predicate Valid()
      reads this
    {
      forall o :: o in events ==> ValidChain(hash, events[o]) && |events[o]| <= EXACT
    }

    constructor (hash: Hash)
      ensures this.hash == hash && events == map[] && Valid()
    {
      this.hash := hash;
      events := map[];
    }

    method Append(input: Input) returns (r: Option<Event>)
      requires Valid()
      modifies this
      ensures Valid()
      ensures forall o :: o != input.organization ==> (o in events <==> o in old(events)) && (o in events ==> events[o] == old(events)[o])
      ensures var before := if input.organization in old(events) then old(events)[input.organization] else [];
        if |before| < 9_007_199_254_740_992 then
          var previous := if before == [] then None else Some(before[|before| - 1].currentHash);
          && r == Some(Event(input, |before| + 1, previous, hash(Payload(input, |before| + 1, previous))))
          && input.organization in events && events[input.organization] == before + [r.value]
        else r == None && events == old(events)
    {
      var chain := if input.organization in events then events[input.organization] else [];
      AppendExtends(hash, chain, input);
      var e := NewEvent(hash, Latest(chain), input);
      if Fits(chain, e) {
        NextEvent(hash, chain, input);
        events := events[input.organization := chain + [e]];
        r := Some(e);
      } else {
        r := None;
      }
    }
  }
}
