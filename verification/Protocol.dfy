/** Delivery and ledger together: which event of one side goes with which event of the other. A handler
    may act on a queue job that it read long ago, so a queue event or a completion needs no more than
    that the queue once accepted the job, or that the job once returned the value. */
module Protocol {
  import opened Common
  import opened Entities
  import Delivery
  import Ledger
  import opened Worker

  datatype State = State(d: Delivery.State, l: Ledger.State)

  const Init := State(Delivery.Init, Ledger.Init)

  datatype Event =
    | Deliver(delivery: Delivery.Event)
    | Record(ledger: Ledger.Event)
    | Confirm(tx: Ledger.Tx)
    | LinkRun(token: Delivery.Token)
    | ResetRow(key: Key)
    | QueueEvent(key: Key, next: Ledger.RunState, progress: int)
    | CompletionRead(completion: Delivery.Return)

  /** The outbox insert and the run insert share one transaction. */
  function InsertFor(l: Ledger.State, tx: Ledger.Tx): Option<Delivery.Event> {
    if tx in l.confirmations && Ledger.CommitConfirm(l, tx).Ok? then
      var c := l.confirmations[tx];
      var v := l.versions[c.version];
      Some(Delivery.Insert(Ledger.ScanKeyOf(v, c.version), Ledger.PayloadFor(v, c)))
    else None
  }

  function DeliveryPart(s: State, e: Event): Option<Delivery.Event> {
    match e
    case Deliver(x) => Some(x)
    case Record(_) => None
    case Confirm(tx) => InsertFor(s.l, tx)
    case LinkRun(t) => Some(Delivery.Link(t))
    case ResetRow(k) => Some(Delivery.Reset(k))
    case QueueEvent(_, _, _) => None
    case CompletionRead(_) => None
  }

  function LedgerPart(s: State, e: Event): Option<Ledger.Event> {
    match e
    case Deliver(_) => None
    case Record(x) => Some(x)
    case Confirm(tx) => Some(Ledger.Confirm(tx))
    case LinkRun(t) =>
      if t in s.d.publishers && s.d.publishers[t].worklist != [] && s.d.publishers[t].worklist[0] in s.d.rows
      then var k := s.d.publishers[t].worklist[0]; Some(Ledger.Link(k, BullJobId(s.d.rows[k].payload.key)))
      else None
    case ResetRow(k) => Some(Ledger.Mark(k))
    case QueueEvent(k, next, progress) =>
      if k in s.d.rows then Some(Ledger.Persist(s.d.rows[k].payload.tenant, k, BullJobId(k), next, progress)) else None
    case CompletionRead(r) =>
      if r.value.Compact? then Some(Ledger.Complete(r.id.key, r.value.result)) else None
  }

  ghost predicate Enabled(s: State, e: Event) {
    && (DeliveryPart(s, e).Some? ==> Delivery.Enabled(s.d, DeliveryPart(s, e).value))
    && (LedgerPart(s, e).Some? ==> Ledger.Enabled(s.l, LedgerPart(s, e).value))
    && match e
       case Deliver(x) => !x.Insert? && !x.Link? && !x.Reset?
       case Record(x) => x.NewDocument? || x.NewVersion? || x.BeginConfirm? || x.Abandon? || x.Again?
       case QueueEvent(k, _, _) => k in s.d.rows && exists n :: (k, n) in s.d.accepted
       case CompletionRead(r) =>
         r in s.d.returned && r.id.key in s.d.rows && r.value.Compact? && SameIdentity(s.d.rows[r.id.key].payload, r.value.result)
       case _ => true
  }

  function Apply(s: State, e: Event): State
    requires Enabled(s, e)
  {
    var dp, lp := DeliveryPart(s, e), LedgerPart(s, e);
    State(if dp.Some? then Delivery.Apply(s.d, dp.value) else s.d, if lp.Some? then Ledger.Apply(s.l, lp.value) else s.l)
  }

  ghost predicate Run(s: State, es: seq<Event>, t: State)
    decreases |es|
  {
    if es == [] then s == t else Enabled(s, es[0]) && Run(Apply(s, es[0]), es[1..], t)
  }

  ghost predicate Reachable(s: State) {
    exists es :: Run(Init, es, s)
  }

  lemma {:induction false} RunAppend(s: State, es: seq<Event>, t: State, fs: seq<Event>, u: State)
    requires Run(s, es, t) && Run(t, fs, u)
    ensures Run(s, es + fs, u)
    decreases |es|
  {
    if es == [] {
      assert es + fs == fs;
    } else {
      RunAppend(Apply(s, es[0]), es[1..], t, fs, u);
      assert (es + fs)[1..] == es[1..] + fs;
    }
  }
}
