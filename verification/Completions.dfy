/** Overlapping completions and queue events, statement by statement. A completion reads the run without a
    lock; `save` reads the row again and locks it only if the state differs; then come the lock of the audit
    chain, the lock of the document row, the read of the current version, and the commit that makes all
    writes visible. The listener's `persist` reads and saves the run in the same way. */
module Completions {
  import opened Common
  import Ledger

  type Id = nat
  type RunState = Ledger.RunState

  datatype Row = Row(organization: Id, document: Id, number: nat)

  datatype Phase = Begun | HasRun | Reread | Saved | Audited | HasLock | HasDocument(current: Option<Id>)

  /** One delivery of a result; `next` is COMPLETED or FAILED, `seen` the state its `save` read again. */
  datatype Delivery = Delivery(version: Id, next: RunState, seen: Option<RunState>, phase: Phase)

  /** One `persist` of the listener that found its transition legal and has not saved it yet. */
  datatype Change = Change(version: Id, next: RunState, seen: Option<RunState>)

  /** Committed rows, and the open transactions. A version has one run. `accepted` holds the versions of
      which a completion with outcome `completed` was committed; `audit` the versions of committed entries. */
  datatype State = State(
    versions: map<Id, Row>, runs: map<Id, RunState>, current: map<Id, Id>, accepted: set<Id>, audit: seq<Id>,
    open: map<Id, Delivery>, changes: map<Id, Change>)

  const Init := State(map[], map[], map[], {}, [], map[], map[])

  datatype Step =
    | AddVersion(version: Id, row: Row)
    | ReadChange(h: Id, version: Id, next: RunState)
    | RereadChange(h: Id)
    | SaveChange(h: Id)
    | DropChange(h: Id)
    | Begin(tx: Id, version: Id, next: RunState)
    | ReadRun(tx: Id)
    | RereadRun(tx: Id)
    | SaveRun(tx: Id)
    | LockAudit(tx: Id)
    | LockDocument(tx: Id)
    | ReadDocument(tx: Id)
    | Commit(tx: Id)
    | Abort(tx: Id)

  predicate Ended(state: RunState) { state == Ledger.COMPLETED || state == Ledger.FAILED }

  /** `save` updates the state only if it differs from what it read again. */
  predicate Writes(d: Delivery) { d.seen.Some? && d.seen.value != d.next }

  predicate ChangeWrites(c: Change) { c.seen.Some? && c.seen.value != c.next }

  predicate PastSave(d: Delivery) { !d.phase.Begun? && !d.phase.HasRun? && !d.phase.Reread? }

  predicate HoldsRun(d: Delivery) { PastSave(d) && Writes(d) }

  predicate HoldsAudit(d: Delivery) { PastSave(d) && !d.phase.Saved? }

  predicate HoldsDocument(d: Delivery) { d.phase.HasLock? || d.phase.HasDocument? }

  ghost predicate NoneHoldsRun(s: State, version: Id) {
    forall t :: t in s.open ==> !(HoldsRun(s.open[t]) && s.open[t].version == version)
  }

  ghost predicate NoneHoldsAudit(s: State, organization: Id) {
    forall t :: t in s.open && HoldsAudit(s.open[t]) && s.open[t].version in s.versions ==>
      s.versions[s.open[t].version].organization != organization
  }

  ghost predicate NoneHoldsDocument(s: State, document: Id) {
    forall t :: t in s.open && HoldsDocument(s.open[t]) && s.open[t].version in s.versions ==>
      s.versions[s.open[t].version].document != document
  }

  ghost predicate At(s: State, tx: Id, phase: Phase) {
    tx in s.open && s.open[tx].phase == phase && s.open[tx].version in s.versions && s.open[tx].version in s.runs
  }

  ghost predicate AtCommit(s: State, tx: Id) {
    tx in s.open && s.open[tx].phase.HasDocument? && s.open[tx].version in s.versions && s.open[tx].version in s.runs
  }

  /** Version numbers differ within a document, and a document has one organization. */
  ghost predicate FitsIn(s: State, row: Row) {
    forall v :: v in s.versions && s.versions[v].document == row.document ==>
      s.versions[v].number != row.number && s.versions[v].organization == row.organization
  }

  ghost predicate Enabled(s: State, step: Step) {
    match step
    case AddVersion(v, row) => v !in s.versions && v !in s.runs && FitsIn(s, row)
    case ReadChange(h, v, next) =>
      && h !in s.changes && v in s.runs && next in {Ledger.ACTIVE, Ledger.RETRY_SCHEDULED, Ledger.DEAD_LETTERED}
      && next in Ledger.Successors(s.runs[v])
    case RereadChange(h) => h in s.changes && s.changes[h].version in s.runs
    case SaveChange(h) => h in s.changes && s.changes[h].seen.Some? && (ChangeWrites(s.changes[h]) ==> NoneHoldsRun(s, s.changes[h].version))
    case DropChange(h) => h in s.changes
    case Begin(tx, v, next) => tx !in s.open && v in s.versions && v in s.runs && Ended(next)
    case ReadRun(tx) => At(s, tx, Begun)
    case RereadRun(tx) => At(s, tx, HasRun)
    case SaveRun(tx) => At(s, tx, Reread) && (Writes(s.open[tx]) ==> NoneHoldsRun(s, s.open[tx].version))
    case LockAudit(tx) => At(s, tx, Saved) && NoneHoldsAudit(s, s.versions[s.open[tx].version].organization)
    case LockDocument(tx) => At(s, tx, Audited) && NoneHoldsDocument(s, s.versions[s.open[tx].version].document)
    case ReadDocument(tx) => At(s, tx, HasLock)
    case Commit(tx) => AtCommit(s, tx)
    case Abort(tx) => tx in s.open
  }

  function Move(s: State, tx: Id, phase: Phase): State
    requires tx in s.open
  {
    s.(open := s.open[tx := s.open[tx].(phase := phase)])
  }

  function Close(s: State, tx: Id): State { s.(open := s.open - {tx}) }

  function CurrentOf(s: State, document: Id): Option<Id> {
    if document in s.current then Some(s.current[document]) else None
  }

  /** The comparison of the numbers that were read. */
  predicate Advances(s: State, version: Id, current: Option<Id>)
    requires version in s.versions
  {
    current.None? || current.value !in s.versions || s.versions[version].number > s.versions[current.value].number
  }

  function Finish(s: State, tx: Id): State
    requires tx in s.open && s.open[tx].phase.HasDocument? && s.open[tx].version in s.versions
  {
    var d := s.open[tx];
    var v := d.version;
    s.(runs := if Writes(d) then s.runs[v := d.next] else s.runs, audit := s.audit + [v],
       accepted := if d.next == Ledger.COMPLETED then s.accepted + {v} else s.accepted,
       current := if d.next == Ledger.COMPLETED && Advances(s, v, d.phase.current)
                  then s.current[s.versions[v].document := v] else s.current)
  }

  ghost function Apply(s: State, step: Step): State
    requires Enabled(s, step)
  {
    match step
    case AddVersion(v, row) => s.(versions := s.versions[v := row], runs := s.runs[v := Ledger.QUEUED])
    case ReadChange(h, v, next) => s.(changes := s.changes[h := Change.Change(v, next, None)])
    case RereadChange(h) => s.(changes := s.changes[h := s.changes[h].(seen := Some(s.runs[s.changes[h].version]))])
    case SaveChange(h) =>
      var c := s.changes[h];
      s.(runs := if ChangeWrites(c) then s.runs[c.version := c.next] else s.runs, changes := s.changes - {h})
    case DropChange(h) => s.(changes := s.changes - {h})
    case Begin(tx, v, next) => s.(open := s.open[tx := Delivery(v, next, None, Begun)])
    case ReadRun(tx) =>
      var d := s.open[tx];
      // A repeated delivery returns at once; an illegal transition aborts.
      if s.runs[d.version] == d.next || d.next !in Ledger.Successors(s.runs[d.version])
      then Close(s, tx) else Move(s, tx, HasRun)
    case RereadRun(tx) =>
      s.(open := s.open[tx := s.open[tx].(phase := Reread, seen := Some(s.runs[s.open[tx].version]))])
    case SaveRun(tx) => Move(s, tx, Saved)
    case LockAudit(tx) => Move(s, tx, Audited)
    case LockDocument(tx) => Move(s, tx, HasLock)
    case ReadDocument(tx) => Move(s, tx, HasDocument(CurrentOf(s, s.versions[s.open[tx].version].document)))
    case Commit(tx) => Close(Finish(s, tx), tx)
    case Abort(tx) => Close(s, tx)
  }

  ghost predicate Run(s: State, steps: seq<Step>, u: State)
    decreases |steps|
  {
    if steps == [] then s == u else Enabled(s, steps[0]) && Run(Apply(s, steps[0]), steps[1..], u)
  }

  // ---------------------------------------------------------------- invariant

  /** `v` is the highest-numbered member of `among` in its document. */
  ghost predicate Highest(s: State, among: set<Id>, document: Id, v: Id) {
    && v in among && v in s.versions && s.versions[v].document == document
    && forall w :: w in among && w in s.versions && s.versions[w].document == document ==> s.versions[w].number <= s.versions[v].number
  }

  /** The current version is the highest of `among`, and there is none only if `among` has none of the document. */
  ghost predicate CurrentIs(s: State, among: set<Id>, document: Id) {
    if document in s.current then Highest(s, among, document, s.current[document])
    else forall w :: w in among && w in s.versions ==> s.versions[w].document != document
  }

  ghost predicate DocumentsDiffer(s: State, a: Id, b: Id)
    requires a in s.open && b in s.open
  {
    HoldsDocument(s.open[a]) && HoldsDocument(s.open[b]) && s.open[a].version in s.versions && s.open[b].version in s.versions ==>
      s.versions[s.open[a].version].document != s.versions[s.open[b].version].document
  }

  ghost predicate DeliveryOk(s: State, tx: Id)
    requires tx in s.open
  {
    var d := s.open[tx];
    && d.version in s.versions && d.version in s.runs && Ended(d.next)
    && (d.seen.None? <==> d.phase.Begun? || d.phase.HasRun?)
    && (d.seen == Some(Ledger.COMPLETED) ==> d.version in s.accepted)
    && (d.phase.HasDocument? ==> d.phase.current == CurrentOf(s, s.versions[d.version].document))
  }

  ghost predicate ChangeOk(s: State, h: Id)
    requires h in s.changes
  {
    s.changes[h].version in s.runs && !Ended(s.changes[h].next)
  }

  ghost predicate RunOk(s: State, v: Id)
    requires v in s.runs
  {
    v in s.versions && (s.runs[v] == Ledger.COMPLETED ==> v in s.accepted)
  }

  ghost predicate DocumentsOk(s: State) {
    && s.accepted <= s.versions.Keys
    && (forall d :: CurrentIs(s, s.accepted, d))
    && (forall v :: v in s.runs ==> RunOk(s, v))
  }

  ghost predicate HandlersOk(s: State) {
    && (forall tx :: tx in s.open ==> DeliveryOk(s, tx))
    && (forall h :: h in s.changes ==> ChangeOk(s, h))
    && (forall a, b :: a in s.open && b in s.open && a != b ==> DocumentsDiffer(s, a, b))
  }

  ghost predicate Inv(s: State) { DocumentsOk(s) && HandlersOk(s) }

  lemma CommitDocuments(s: State, tx: Id)
    requires Inv(s) && Enabled(s, Commit(tx))
    ensures DocumentsOk(Apply(s, Commit(tx)))
  {
    var u := Apply(s, Commit(tx));
    assert DeliveryOk(s, tx);
    forall d ensures CurrentIs(u, u.accepted, d) { assert CurrentIs(s, s.accepted, d); }
    forall w | w in u.runs ensures RunOk(u, w) { assert w in s.runs ==> RunOk(s, w); }
  }

  lemma CommitHandlers(s: State, tx: Id)
    requires Inv(s) && Enabled(s, Commit(tx))
    ensures HandlersOk(Apply(s, Commit(tx)))
  {
    var u := Apply(s, Commit(tx));
    assert DeliveryOk(s, tx);
    forall t | t in u.open ensures DeliveryOk(u, t) { assert DeliveryOk(s, t) && DocumentsDiffer(s, t, tx); }
    forall h | h in u.changes ensures ChangeOk(u, h) { assert ChangeOk(s, h); }
    forall a, b | a in u.open && b in u.open && a != b ensures DocumentsDiffer(u, a, b) { assert DocumentsDiffer(s, a, b); }
  }

  lemma OtherDocuments(s: State, step: Step)
    requires Inv(s) && Enabled(s, step) && !step.Commit?
    ensures DocumentsOk(Apply(s, step))
  {
    var u := Apply(s, step);
    forall d ensures CurrentIs(u, u.accepted, d) { assert CurrentIs(s, s.accepted, d); }
    forall v | v in u.runs ensures RunOk(u, v) {
      assert v in s.runs ==> RunOk(s, v);
      if step.SaveChange? { assert ChangeOk(s, step.h); }
    }
  }

  /** The step is one of the delivery's own. */
  predicate Moves(step: Step, t: Id) {
    match step
    case AddVersion(_, _) => false
    case ReadChange(_, _, _) => false
    case RereadChange(_) => false
    case SaveChange(_) => false
    case DropChange(_) => false
    case Begin(tx, _, _) => tx == t
    case ReadRun(tx) => tx == t
    case RereadRun(tx) => tx == t
    case SaveRun(tx) => tx == t
    case LockAudit(tx) => tx == t
    case LockDocument(tx) => tx == t
    case ReadDocument(tx) => tx == t
    case Commit(tx) => tx == t
    case Abort(tx) => tx == t
  }

  /** What no step but a commit changes, and what no step of others changes. */
  lemma Frame(s: State, step: Step)
    requires Enabled(s, step)
    ensures var u := Apply(s, step);
      && s.versions.Keys <= u.versions.Keys && s.runs.Keys <= u.runs.Keys
      && (forall v :: v in s.versions ==> u.versions[v] == s.versions[v])
      && (!step.Commit? ==> u.accepted == s.accepted && u.current == s.current && u.audit == s.audit)
      && (!step.Commit? && !step.SaveChange? ==> forall v :: v in s.runs ==> u.runs[v] == s.runs[v])
      && (forall t :: t in s.open && !Moves(step, t) ==> t in u.open && u.open[t] == s.open[t])
      && (forall t :: t in u.open && !Moves(step, t) ==> t in s.open)
  {
  }

  lemma OwnStepKept(s: State, step: Step, t: Id)
    requires Inv(s) && Enabled(s, step) && !step.Commit? && t in Apply(s, step).open && Moves(step, t)
    ensures DeliveryOk(Apply(s, step), t)
  {
    if t in s.open {
      assert DeliveryOk(s, t);
      assert RunOk(s, s.open[t].version);
    }
  }

  lemma DeliveryKept(s: State, step: Step, t: Id)
    requires Inv(s) && Enabled(s, step) && !step.Commit? && t in Apply(s, step).open
    ensures DeliveryOk(Apply(s, step), t)
  {
    if Moves(step, t) {
      OwnStepKept(s, step, t);
    } else {
      Frame(s, step);
      assert DeliveryOk(s, t);
    }
  }

  lemma DifferenceKept(s: State, step: Step, a: Id, b: Id)
    requires Inv(s) && Enabled(s, step) && !step.Commit? && a in Apply(s, step).open && b in Apply(s, step).open && a != b
    ensures DocumentsDiffer(Apply(s, step), a, b)
  {
    Frame(s, step);
    if a in s.open && b in s.open { assert DocumentsDiffer(s, a, b) && DeliveryOk(s, a) && DeliveryOk(s, b); }
  }

  lemma OtherHandlers(s: State, step: Step)
    requires Inv(s) && Enabled(s, step) && !step.Commit?
    ensures HandlersOk(Apply(s, step))
  {
    var u := Apply(s, step);
    forall t | t in u.open ensures DeliveryOk(u, t) { DeliveryKept(s, step, t); }
    forall h | h in u.changes ensures ChangeOk(u, h) { assert h in s.changes ==> ChangeOk(s, h); }
    forall a, b | a in u.open && b in u.open && a != b ensures DocumentsDiffer(u, a, b) { DifferenceKept(s, step, a, b); }
  }

  lemma StepKeeps(s: State, step: Step)
    requires Inv(s) && Enabled(s, step)
    ensures Inv(Apply(s, step))
  {
    if step.Commit? {
      CommitDocuments(s, step.tx);
      CommitHandlers(s, step.tx);
    } else {
      OtherDocuments(s, step);
      OtherHandlers(s, step);
    }
  }

  lemma {:induction false} RunKeeps(s: State, steps: seq<Step>, u: State)
    requires Inv(s) && Run(s, steps, u)
    ensures Inv(u)
    decreases |steps|
  {
    if steps != [] {
      StepKeeps(s, steps[0]);
      RunKeeps(Apply(s, steps[0]), steps[1..], u);
    }
  }

  // ---------------------------------------------------------------- the current version

  ghost function CompletedRuns(s: State): set<Id> {
    set v | v in s.runs && s.runs[v] == Ledger.COMPLETED
  }

  /** In every committed state of every interleaving the current version is the highest-numbered one that a
      result was accepted for, whatever the outcomes and the order of the deliveries. */
  lemma CurrentIsHighestAccepted(steps: seq<Step>, u: State, document: Id)
    requires Run(Init, steps, u)
    ensures CurrentIs(u, u.accepted, document)
  {
    RunKeeps(Init, steps, u);
  }

  ghost predicate Right(s: State, document: Id) { CurrentIs(s, CompletedRuns(s), document) }

  lemma CurrentRunDecides(s: State, document: Id)
    requires Inv(s)
    ensures Right(s, document) <==>
      (document in s.current ==> s.current[document] in s.runs && s.runs[s.current[document]] == Ledger.COMPLETED)
  {
    assert CurrentIs(s, s.accepted, document);
    forall v | v in CompletedRuns(s) ensures v in s.accepted { assert RunOk(s, v); }
  }

  /** A rejection that writes the run of the version it read as the current one, or a late `persist` that
      writes the run of the current version. */
  ghost predicate Misleads(s: State, step: Step, document: Id)
    requires Enabled(s, step)
  {
    match step
    case Commit(tx) =>
      var d := s.open[tx];
      d.next == Ledger.FAILED && Writes(d) && s.versions[d.version].document == document && d.phase.current == Some(d.version)
    case SaveChange(h) => ChangeWrites(s.changes[h]) && CurrentOf(s, document) == Some(s.changes[h].version)
    case _ => false
  }

  /** A completion that writes the run of a version that is, or by it becomes, the current one. */
  ghost predicate Restores(s: State, step: Step, document: Id)
    requires Enabled(s, step)
  {
    step.Commit? &&
    var d := s.open[step.tx];
    && d.next == Ledger.COMPLETED && Writes(d) && s.versions[d.version].document == document
    && (Advances(s, d.version, d.phase.current) || d.phase.current == Some(d.version))
  }

  lemma RightAfterCommit(s: State, tx: Id, document: Id)
    requires Inv(s) && Enabled(s, Commit(tx))
    ensures Right(Apply(s, Commit(tx)), document) <==>
      !Misleads(s, Commit(tx), document) && (Restores(s, Commit(tx), document) || Right(s, document))
  {
    var u := Apply(s, Commit(tx));
    StepKeeps(s, Commit(tx));
    CurrentRunDecides(s, document);
    CurrentRunDecides(u, document);
    assert DeliveryOk(s, tx);
    assert CurrentIs(s, s.accepted, document) && CurrentIs(s, s.accepted, s.versions[s.open[tx].version].document);
  }

  lemma RightAfterOther(s: State, step: Step, document: Id)
    requires Inv(s) && Enabled(s, step) && !step.Commit?
    ensures Right(Apply(s, step), document) <==> !Misleads(s, step, document) && Right(s, document)
  {
    StepKeeps(s, step);
    CurrentRunDecides(s, document);
    CurrentRunDecides(Apply(s, step), document);
    assert CurrentIs(s, s.accepted, document);
    if step.SaveChange? { assert ChangeOk(s, step.h); }
  }

  /** After a step of any run the current version is the highest-numbered one whose run is COMPLETED exactly if
      the step is none of the two that mislead, and it was so before or the step restores it. */
  lemma CurrentAfterStepIff(steps: seq<Step>, s: State, step: Step, document: Id)
    requires Run(Init, steps, s) && Enabled(s, step)
    ensures CurrentIs(Apply(s, step), CompletedRuns(Apply(s, step)), document) <==>
      !Misleads(s, step, document) && (Restores(s, step, document) || CurrentIs(s, CompletedRuns(s), document))
  {
    RunKeeps(Init, steps, s);
    if step.Commit? { RightAfterCommit(s, step.tx, document); } else { RightAfterOther(s, step, document); }
  }

  /** What the steps' own guards say about the property after them, given what held before. */
  ghost predicate Verdict(s: State, steps: seq<Step>, document: Id, before: bool)
    decreases |steps|
  {
    if steps == [] then before
    else
      && Enabled(s, steps[0])
      && Verdict(Apply(s, steps[0]), steps[1..], document,
                 !Misleads(s, steps[0], document) && (Restores(s, steps[0], document) || before))
  }

  lemma {:induction false} VerdictFrom(s: State, steps: seq<Step>, u: State, document: Id)
    requires Inv(s) && Run(s, steps, u)
    ensures Right(u, document) <==> Verdict(s, steps, document, Right(s, document))
    decreases |steps|
  {
    if steps != [] {
      var step := steps[0];
      StepKeeps(s, step);
      if step.Commit? { RightAfterCommit(s, step.tx, document); } else { RightAfterOther(s, step, document); }
      VerdictFrom(Apply(s, step), steps[1..], u, document);
    }
  }

  /** Over every run, the current version is the highest-numbered one whose run is COMPLETED exactly if no
      rejection and no late save hit the run of the current version since it last was restored. */
  lemma CurrentIsHighestCompletedIff(steps: seq<Step>, u: State, document: Id)
    requires Run(Init, steps, u)
    ensures CurrentIs(u, CompletedRuns(u), document) <==> Verdict(Init, steps, document, true)
  {
    VerdictFrom(Init, steps, u, document);
    assert Right(Init, document);
  }

  /** The deliveries of a run report one outcome. */
  ghost predicate SingleOutcome(outcomes: map<Id, RunState>, steps: seq<Step>) {
    forall i :: 0 <= i < |steps| && steps[i].Begin? ==>
      steps[i].version in outcomes && steps[i].next == outcomes[steps[i].version]
  }

  /** No `persist` writes a run that has ended since it was read. */
  ghost predicate NoLateSave(s: State, steps: seq<Step>)
    decreases |steps|
  {
    steps == [] || (
      && Enabled(s, steps[0])
      && (steps[0].SaveChange? && ChangeWrites(s.changes[steps[0].h]) && s.changes[steps[0].h].version in s.runs ==>
            !Ended(s.runs[s.changes[steps[0].h].version]))
      && NoLateSave(Apply(s, steps[0]), steps[1..]))
  }

  ghost predicate Follows(outcomes: map<Id, RunState>, s: State) {
    && (forall t :: t in s.open ==> s.open[t].version in outcomes && s.open[t].next == outcomes[s.open[t].version])
    && (forall v :: v in s.accepted ==> v in outcomes && outcomes[v] == Ledger.COMPLETED && v in s.runs && s.runs[v] == Ledger.COMPLETED)
  }

  lemma FollowsCommit(outcomes: map<Id, RunState>, s: State, tx: Id)
    requires Inv(s) && Enabled(s, Commit(tx)) && Follows(outcomes, s)
    ensures Follows(outcomes, Apply(s, Commit(tx)))
  {
    assert DeliveryOk(s, tx);
  }

  lemma FollowsStep(outcomes: map<Id, RunState>, s: State, step: Step)
    requires Inv(s) && Enabled(s, step) && Follows(outcomes, s) && NoLateSave(s, [step])
    requires step.Begin? ==> step.version in outcomes && step.next == outcomes[step.version]
    ensures Follows(outcomes, Apply(s, step))
  {
    if step.Commit? {
      FollowsCommit(outcomes, s, step.tx);
    } else {
      Frame(s, step);
      var u := Apply(s, step);
      forall t | t in u.open ensures u.open[t].version in outcomes && u.open[t].next == outcomes[u.open[t].version] {
        assert t in s.open ==> u.open[t].version == s.open[t].version && u.open[t].next == s.open[t].next;
      }
    }
  }

  lemma {:induction false} AcceptedStayCompleted(outcomes: map<Id, RunState>, s: State, steps: seq<Step>, u: State)
    requires Inv(s) && Run(s, steps, u) && SingleOutcome(outcomes, steps) && NoLateSave(s, steps) && Follows(outcomes, s)
    ensures Follows(outcomes, u)
    decreases |steps|
  {
    if steps != [] {
      var m := Apply(s, steps[0]);
      StepKeeps(s, steps[0]);
      assert NoLateSave(s, [steps[0]]);
      FollowsStep(outcomes, s, steps[0]);
      forall i | 0 <= i < |steps[1..]| && steps[1..][i].Begin?
        ensures steps[1..][i].version in outcomes && steps[1..][i].next == outcomes[steps[1..][i].version]
      {
        assert steps[1..][i] == steps[i + 1];
      }
      AcceptedStayCompleted(outcomes, m, steps[1..], u);
    }
  }

  /** When the deliveries of a run agree on its outcome and no `persist` saves over an ended run, the current
      version of every document is the highest-numbered one whose run is COMPLETED, and null iff there is none. */
  lemma CurrentIsHighestCompleted(outcomes: map<Id, RunState>, steps: seq<Step>, u: State, document: Id)
    requires Run(Init, steps, u) && SingleOutcome(outcomes, steps) && NoLateSave(Init, steps)
    ensures CurrentIs(u, CompletedRuns(u), document)
  {
    AcceptedStayCompleted(outcomes, Init, steps, u);
    RunKeeps(Init, steps, u);
    CurrentRunDecides(u, document);
    assert CurrentIs(u, u.accepted, document);
  }

  lemma {:induction false} NumberGrowsFrom(s: State, steps: seq<Step>, u: State, document: Id)
    requires Inv(s) && Run(s, steps, u) && document in s.current
    ensures document in u.current && s.current[document] in u.versions && u.current[document] in u.versions
    ensures u.versions[u.current[document]].number >= u.versions[s.current[document]].number
    decreases |steps|
  {
    assert CurrentIs(s, s.accepted, document);
    if steps != [] {
      var m := Apply(s, steps[0]);
      RunKeeps(s, [steps[0]], m);
      assert CurrentIs(m, m.accepted, document);
      RowsStay(m, steps[1..], u, s.current[document]);
      RowsStay(m, steps[1..], u, m.current[document]);
      NumberGrowsFrom(m, steps[1..], u, document);
    }
  }

  /** The number of the current version never decreases, in whatever order results arrive. */
  lemma CurrentNumberGrows(before: seq<Step>, s: State, after: seq<Step>, u: State, document: Id)
    requires Run(Init, before, s) && Run(s, after, u) && document in s.current
    ensures document in u.current && s.current[document] in u.versions && u.current[document] in u.versions
    ensures u.versions[u.current[document]].number >= u.versions[s.current[document]].number
  {
    RunKeeps(Init, before, s);
    NumberGrowsFrom(s, after, u, document);
  }

  lemma {:induction false} RowsStay(s: State, steps: seq<Step>, u: State, v: Id)
    requires Run(s, steps, u) && v in s.versions
    ensures v in u.versions && u.versions[v] == s.versions[v]
    decreases |steps|
  {
    if steps != [] { RowsStay(Apply(s, steps[0]), steps[1..], u, v); }
  }

  /** What a commit writes: the run, unless the second read found it in the state already; an audit entry; and the
      current version, if the result completes a version that is newer than the one that was read. */
  lemma CommitWrites(s: State, tx: Id)
    requires Enabled(s, Commit(tx))
    ensures
      var d, u := s.open[tx], Apply(s, Commit(tx));
      var document := s.versions[d.version].document;
      var newer := d.phase.current.None? || d.phase.current.value !in s.versions
                   || s.versions[d.phase.current.value].number < s.versions[d.version].number;
      && u.runs == (if d.seen.Some? && d.seen.value != d.next then s.runs[d.version := d.next] else s.runs)
      && u.audit == s.audit + [d.version] && u.versions == s.versions && u.changes == s.changes && u.open == s.open - {tx}
      && u.current == if d.next == Ledger.COMPLETED && newer then s.current[document := d.version] else s.current
  {
  }

  // ---------------------------------------------------------------- the audit entries of a run

  ghost function Entries(s: State, v: Id): nat { multiset(s.audit)[v] }

  ghost function EndedOnce(s: State, v: Id): nat { if v in s.runs && Ended(s.runs[v]) then 1 else 0 }

  /** The step commits a delivery of `v` that found the run ended, at its second read or at its commit, or
      saves a change of `v` over an ended run. */
  ghost predicate Overwrites(s: State, step: Step, v: Id)
    requires Enabled(s, step)
  {
    match step
    case Commit(tx) => s.open[tx].version == v && (!Writes(s.open[tx]) || Ended(s.runs[v]))
    case SaveChange(h) => s.changes[h].version == v && ChangeWrites(s.changes[h]) && v in s.runs && Ended(s.runs[v])
    case _ => false
  }

  ghost function Overwritten(s: State, steps: seq<Step>, v: Id): nat
    decreases |steps|
  {
    if steps == [] || !Enabled(s, steps[0]) then 0
    else (if Overwrites(s, steps[0], v) then 1 else 0) + Overwritten(Apply(s, steps[0]), steps[1..], v)
  }

  lemma EntriesCommit(s: State, tx: Id, v: Id)
    requires Inv(s) && Enabled(s, Commit(tx))
    ensures Entries(Apply(s, Commit(tx)), v) + EndedOnce(s, v) ==
      Entries(s, v) + EndedOnce(Apply(s, Commit(tx)), v) + if Overwrites(s, Commit(tx), v) then 1 else 0
  {
    assert DeliveryOk(s, tx);
    assert multiset(Apply(s, Commit(tx)).audit) == multiset(s.audit) + multiset{s.open[tx].version};
  }

  lemma EntriesStep(s: State, step: Step, v: Id)
    requires Inv(s) && Enabled(s, step)
    ensures Entries(Apply(s, step), v) + EndedOnce(s, v) ==
      Entries(s, v) + EndedOnce(Apply(s, step), v) + if Overwrites(s, step, v) then 1 else 0
  {
    if step.Commit? {
      EntriesCommit(s, step.tx, v);
    } else {
      assert Apply(s, step).audit == s.audit;
      if step.SaveChange? { assert ChangeOk(s, step.h); }
    }
  }

  lemma {:induction false} EntriesFrom(s: State, steps: seq<Step>, u: State, v: Id)
    requires Inv(s) && Run(s, steps, u)
    ensures Entries(u, v) + EndedOnce(s, v) == Entries(s, v) + EndedOnce(u, v) + Overwritten(s, steps, v)
    decreases |steps|
  {
    if steps != [] {
      EntriesStep(s, steps[0], v);
      StepKeeps(s, steps[0]);
      EntriesFrom(Apply(s, steps[0]), steps[1..], u, v);
    }
  }

  /** Over every run, the audit trail holds one entry for an ended run and none for an open one, plus one for
      each commit and each late save that met the run ended. */
  lemma AuditCountsOverwrites(steps: seq<Step>, u: State, v: Id)
    requires Run(Init, steps, u)
    ensures multiset(u.audit)[v] == (if v in u.runs && Ended(u.runs[v]) then 1 else 0) + Overwritten(Init, steps, v)
  {
    EntriesFrom(Init, steps, u, v);
  }

  /** The audit trail is exact for a run exactly if nothing overwrote it after it had ended. */
  lemma AuditExactIff(steps: seq<Step>, u: State, v: Id)
    requires Run(Init, steps, u)
    ensures multiset(u.audit)[v] == (if v in u.runs && Ended(u.runs[v]) then 1 else 0) <==> Overwritten(Init, steps, v) == 0
  {
    AuditCountsOverwrites(steps, u, v);
  }

  /** No delivery of `v` past its start, and no `persist` of `v` under way. */
  ghost predicate Quiet(s: State, v: Id) {
    && (forall t :: t in s.open && s.open[t].version == v ==> s.open[t].phase.Begun?)
    && (forall h :: h in s.changes ==> s.changes[h].version != v)
  }

  /** A run is read by a delivery or a `persist` only while no other one is between its read and its end. */
  ghost predicate NoOverlap(s: State, steps: seq<Step>)
    decreases |steps|
  {
    steps == [] || (
      && Enabled(s, steps[0])
      && (steps[0].ReadRun? ==> Quiet(s, s.open[steps[0].tx].version))
      && (steps[0].ReadChange? ==> Quiet(s, steps[0].version))
      && NoOverlap(Apply(s, steps[0]), steps[1..]))
  }

  /** What a delivery has read still holds, and it is alone with its run. */
  ghost predicate DeliveryAlone(s: State, tx: Id)
    requires tx in s.open
  {
    var d := s.open[tx];
    !d.phase.Begun? ==>
      && d.version in s.runs && d.next in Ledger.Successors(s.runs[d.version])
      && (d.seen.Some? ==> d.seen.value == s.runs[d.version])
      && (forall t :: t in s.open && t != tx && s.open[t].version == d.version ==> s.open[t].phase.Begun?)
      && (forall h :: h in s.changes ==> s.changes[h].version != d.version)
  }

  ghost predicate ChangeAlone(s: State, h: Id)
    requires h in s.changes
  {
    var c := s.changes[h];
    && c.version in s.runs && c.next in Ledger.Successors(s.runs[c.version])
    && (forall t :: t in s.open && s.open[t].version == c.version ==> s.open[t].phase.Begun?)
    && (forall k :: k in s.changes && k != h ==> s.changes[k].version != c.version)
  }

  ghost predicate Sequential(s: State) {
    && (forall tx :: tx in s.open ==> DeliveryAlone(s, tx))
    && (forall h :: h in s.changes ==> ChangeAlone(s, h))
  }

  /** What writes a run is alone with it, so the runs of all other handlers stay as they were. */
  lemma RunsOfOthersStay(s: State, step: Step, v: Id)
    requires Inv(s) && Sequential(s) && Enabled(s, step) && v in s.runs
    requires step.Commit? ==> s.open[step.tx].version != v
    requires step.SaveChange? ==> s.changes[step.h].version != v
    ensures v in Apply(s, step).runs && Apply(s, step).runs[v] == s.runs[v]
  {
  }

  /** A step by which nobody reads or writes a run. */
  predicate Idle(step: Step) { !step.ReadRun? && !step.ReadChange? && !step.Commit? && !step.SaveChange? }

  /** Such a step starts no delivery and adds no change. */
  lemma IdleFrame(s: State, step: Step)
    requires Enabled(s, step) && Idle(step)
    ensures var u := Apply(s, step);
      && (forall t :: t in u.open && !u.open[t].phase.Begun? ==>
            t in s.open && !s.open[t].phase.Begun? && u.open[t].version == s.open[t].version && u.open[t].next == s.open[t].next)
      && (forall h :: h in u.changes ==>
            h in s.changes && u.changes[h].version == s.changes[h].version && u.changes[h].next == s.changes[h].next)
  {
  }

  lemma IdleKeepsDelivery(s: State, step: Step, tx: Id)
    requires Inv(s) && Sequential(s) && Enabled(s, step) && Idle(step) && tx in Apply(s, step).open
    ensures DeliveryAlone(Apply(s, step), tx)
  {
    Frame(s, step);
    IdleFrame(s, step);
    if !Apply(s, step).open[tx].phase.Begun? { assert DeliveryAlone(s, tx); }
  }

  lemma IdleKeepsAlone(s: State, step: Step)
    requires Inv(s) && Sequential(s) && Enabled(s, step) && Idle(step)
    ensures Sequential(Apply(s, step))
  {
    var u := Apply(s, step);
    forall tx | tx in u.open ensures DeliveryAlone(u, tx) { IdleKeepsDelivery(s, step, tx); }
    Frame(s, step);
    IdleFrame(s, step);
    forall h | h in u.changes ensures ChangeAlone(u, h) { assert ChangeAlone(s, h); }
  }

  lemma ReadKeepsAlone(s: State, step: Step)
    requires Inv(s) && Sequential(s) && NoOverlap(s, [step]) && (step.ReadRun? || step.ReadChange?)
    ensures Sequential(Apply(s, step))
  {
    var u := Apply(s, step);
    forall tx | tx in u.open ensures DeliveryAlone(u, tx) { assert DeliveryAlone(s, tx) && DeliveryOk(s, tx); }
    forall h | h in u.changes ensures ChangeAlone(u, h) { assert h in s.changes ==> ChangeAlone(s, h); }
  }

  lemma WriteKeepsAlone(s: State, step: Step)
    requires Inv(s) && Sequential(s) && Enabled(s, step) && (step.Commit? || step.SaveChange?)
    ensures Sequential(Apply(s, step))
  {
    var u := Apply(s, step);
    if step.Commit? { assert DeliveryAlone(s, step.tx) && DeliveryOk(s, step.tx); } else { assert ChangeAlone(s, step.h); }
    forall tx | tx in u.open ensures DeliveryAlone(u, tx) {
      assert DeliveryAlone(s, tx);
      if !u.open[tx].phase.Begun? { RunsOfOthersStay(s, step, u.open[tx].version); }
    }
    forall h | h in u.changes ensures ChangeAlone(u, h) {
      assert ChangeAlone(s, h);
      RunsOfOthersStay(s, step, u.changes[h].version);
    }
  }

  lemma NothingOverwritten(s: State, step: Step, v: Id)
    requires Inv(s) && Sequential(s) && Enabled(s, step)
    ensures !Overwrites(s, step, v)
  {
    if step.Commit? { assert DeliveryAlone(s, step.tx) && DeliveryOk(s, step.tx); }
    if step.SaveChange? { assert ChangeAlone(s, step.h); }
  }

  lemma {:induction false} SequentialRun(s: State, steps: seq<Step>, u: State, v: Id)
    requires Inv(s) && Sequential(s) && Run(s, steps, u) && NoOverlap(s, steps)
    ensures Overwritten(s, steps, v) == 0
    decreases |steps|
  {
    if steps != [] {
      var step := steps[0];
      var m := Apply(s, step);
      assert NoOverlap(s, [step]);
      StepKeeps(s, step);
      if Idle(step) {
        IdleKeepsAlone(s, step);
      } else if step.ReadRun? || step.ReadChange? {
        ReadKeepsAlone(s, step);
      } else {
        WriteKeepsAlone(s, step);
      }
      NothingOverwritten(s, step, v);
      SequentialRun(m, steps[1..], u, v);
    }
  }

  /** Deliveries and `persist` calls that do not overlap on one run write exactly one audit entry for it, when
      it ends. */
  lemma AuditedOnceWithoutOverlap(steps: seq<Step>, u: State, v: Id)
    requires Run(Init, steps, u) && NoOverlap(Init, steps)
    ensures multiset(u.audit)[v] == if v in u.runs && Ended(u.runs[v]) then 1 else 0
  {
    SequentialRun(Init, steps, u, v);
    AuditCountsOverwrites(steps, u, v);
  }

  // ---------------------------------------------------------------- runs that go wrong

  lemma Prepend(s: State, step: Step, steps: seq<Step>, u: State)
    requires Enabled(s, step) && Run(Apply(s, step), steps, u)
    ensures Run(s, [step] + steps, u)
  {
    assert ([step] + steps)[1..] == steps;
  }

  lemma {:induction false} Then(s: State, first: seq<Step>, m: State, second: seq<Step>, u: State)
    requires Run(s, first, m) && Run(m, second, u)
    ensures Run(s, first + second, u)
    decreases |first|
  {
    if first == [] {
      assert first + second == second;
    } else {
      Then(Apply(s, first[0]), first[1..], m, second, u);
      assert (first + second)[1..] == first[1..] + second;
    }
  }

  /** Every delivery that begins is one of version 0 with one of the given outcomes. */
  ghost predicate Begins(steps: seq<Step>, first: RunState, second: RunState) {
    forall i :: 0 <= i < |steps| && steps[i].Begin? ==> steps[i].version == 0 && (steps[i].next == first || steps[i].next == second)
  }

  /** `Then` for runs whose deliveries are of version 0. */
  lemma ThenBegins(s: State, one: seq<Step>, m: State, two: seq<Step>, u: State, first: RunState, second: RunState)
    requires Run(s, one, m) && Run(m, two, u) && Begins(one, first, second) && Begins(two, first, second)
    ensures Run(s, one + two, u) && Begins(one + two, first, second)
  {
    Then(s, one, m, two, u);
    var all := one + two;
    forall i | 0 <= i < |all| && all[i].Begin? ensures all[i].version == 0 && (all[i].next == first || all[i].next == second) {
      if i < |one| { assert all[i] == one[i]; } else { assert all[i] == two[i - |one|]; }
    }
  }

  /** The delivery has read everything again and is about to commit. */
  function Ready(s: State, tx: Id): State
    requires tx in s.open && s.open[tx].version in s.versions && s.open[tx].version in s.runs
  {
    var d := s.open[tx];
    s.(open := s.open[tx := Delivery(d.version, d.next, Some(s.runs[d.version]),
                                     HasDocument(CurrentOf(s, s.versions[d.version].document)))])
  }

  lemma SavesAndLocks(s: State, tx: Id) returns (steps: seq<Step>, u: State)
    requires At(s, tx, HasRun) && forall t :: t in s.open ==> !PastSave(s.open[t])
    ensures Run(s, steps, u) && forall i :: 0 <= i < |steps| ==> !steps[i].Begin?
    ensures u == s.(open := s.open[tx := Delivery(s.open[tx].version, s.open[tx].next, Some(s.runs[s.open[tx].version]), Audited)])
  {
    var a := Apply(s, RereadRun(tx));
    var b := Apply(a, SaveRun(tx));
    u := Apply(b, LockAudit(tx));
    assert u.open == s.open[tx := u.open[tx]];
    steps := [];
    Prepend(b, LockAudit(tx), steps, u); steps := [LockAudit(tx)] + steps;
    Prepend(a, SaveRun(tx), steps, u); steps := [SaveRun(tx)] + steps;
    Prepend(s, RereadRun(tx), steps, u); steps := [RereadRun(tx)] + steps;
  }

  lemma ReadsAndCommits(s: State, tx: Id) returns (steps: seq<Step>, u: State)
    requires At(s, tx, Audited) && forall t :: t in s.open && t != tx ==> !PastSave(s.open[t])
    ensures Run(s, steps, u) && forall i :: 0 <= i < |steps| ==> !steps[i].Begin?
    ensures u == Close(Finish(Move(s, tx, HasDocument(CurrentOf(s, s.versions[s.open[tx].version].document))), tx), tx)
  {
    var a := Apply(s, LockDocument(tx));
    var b := Apply(a, ReadDocument(tx));
    u := Apply(b, Commit(tx));
    assert b.open == Move(s, tx, b.open[tx].phase).open;
    steps := [];
    Prepend(b, Commit(tx), steps, u); steps := [Commit(tx)] + steps;
    Prepend(a, ReadDocument(tx), steps, u); steps := [ReadDocument(tx)] + steps;
    Prepend(s, LockDocument(tx), steps, u); steps := [LockDocument(tx)] + steps;
  }

  /** A delivery that has read the run goes through to its commit when nobody holds a lock. */
  lemma GoesThrough(s: State, tx: Id) returns (steps: seq<Step>, u: State)
    requires At(s, tx, HasRun) && forall t :: t in s.open ==> !PastSave(s.open[t])
    ensures Run(s, steps, u) && forall i :: 0 <= i < |steps| ==> !steps[i].Begin?
    ensures u == Close(Finish(Ready(s, tx), tx), tx)
  {
    var m: State;
    steps, m := SavesAndLocks(s, tx);
    var rest: seq<Step>;
    rest, u := ReadsAndCommits(m, tx);
    Then(s, steps, m, rest, u);
    assert Move(m, tx, Ready(s, tx).open[tx].phase).open == Ready(s, tx).open;
    steps := steps + rest;
  }

  /** A new delivery reads an active run. */
  lemma Reader(s: State, tx: Id, version: Id, next: RunState) returns (steps: seq<Step>, u: State)
    requires tx !in s.open && version in s.versions && version in s.runs && s.runs[version] == Ledger.ACTIVE && Ended(next)
    ensures Run(s, steps, u) && u == s.(open := s.open[tx := Delivery(version, next, None, HasRun)])
    ensures forall i :: 0 <= i < |steps| && steps[i].Begin? ==> steps[i].version == version && steps[i].next == next
  {
    var a := Apply(s, Begin(tx, version, next));
    u := Apply(a, ReadRun(tx));
    assert u.open == s.open[tx := Delivery(version, next, None, HasRun)];
    steps := [];
    Prepend(a, ReadRun(tx), steps, u); steps := [ReadRun(tx)] + steps;
    Prepend(s, Begin(tx, version, next), steps, u); steps := [Begin(tx, version, next)] + steps;
  }

  /** A `persist` saves what it read to be legal, whatever happened to the run since. */
  lemma Saver(s: State, h: Id) returns (steps: seq<Step>, u: State)
    requires h in s.changes && s.changes[h].version in s.runs && s.open == map[]
    requires s.runs[s.changes[h].version] != s.changes[h].next
    ensures Run(s, steps, u) && forall i :: 0 <= i < |steps| ==> !steps[i].Begin?
    ensures u == s.(runs := s.runs[s.changes[h].version := s.changes[h].next], changes := s.changes - {h})
  {
    var a := Apply(s, RereadChange(h));
    u := Apply(a, SaveChange(h));
    assert u.changes == s.changes - {h};
    steps := [];
    Prepend(a, SaveChange(h), steps, u); steps := [SaveChange(h)] + steps;
    Prepend(s, RereadChange(h), steps, u); steps := [RereadChange(h)] + steps;
  }

  /** Version 0 with an active run, and a second `persist(ACTIVE)` that had read the run while it was QUEUED. */
  ghost function Waiting(): State {
    State(map[0 := Row(0, 0, 1)], map[0 := Ledger.ACTIVE], map[], {}, [], map[], map[1 := Change.Change(0, Ledger.ACTIVE, None)])
  }

  lemma ActiveRun() returns (steps: seq<Step>, u: State)
    ensures Run(Init, steps, u) && u == Waiting()
    ensures forall i :: 0 <= i < |steps| ==> !steps[i].Begin?
  {
    var add, read1, read2 := AddVersion(0, Row(0, 0, 1)), ReadChange(1, 0, Ledger.ACTIVE), ReadChange(2, 0, Ledger.ACTIVE);
    var a := Apply(Init, add);
    var b := Apply(a, read1);
    var c := Apply(b, read2);
    assert c.changes == map[1 := Change.Change(0, Ledger.ACTIVE, None), 2 := Change.Change(0, Ledger.ACTIVE, None)];
    var rest: seq<Step>;
    rest, u := Saver(c, 2);
    assert u.changes == map[1 := Change.Change(0, Ledger.ACTIVE, None)];
    steps := rest;
    Prepend(b, read2, steps, u); steps := [read2] + steps;
    Prepend(a, read1, steps, u); steps := [read1] + steps;
    Prepend(Init, add, steps, u); steps := [add] + steps;
  }

  /** Version 0 has been completed or not, and a completion of it commits. */
  lemma OneCommits(s: State) returns (steps: seq<Step>, u: State)
    requires s.versions == map[0 := Row(0, 0, 1)] && s.runs == map[0 := Ledger.ACTIVE] && s.open == map[]
    requires s.current == map[] || s.current == map[0 := 0]
    ensures Run(s, steps, u) && Begins(steps, Ledger.COMPLETED, Ledger.COMPLETED)
    ensures u == s.(runs := map[0 := Ledger.COMPLETED], audit := s.audit + [0], current := map[0 := 0], accepted := s.accepted + {0})
  {
    var m: State;
    steps, m := Reader(s, 3, 0, Ledger.COMPLETED);
    var rest: seq<Step>;
    rest, u := GoesThrough(m, 3);
    Then(s, steps, m, rest, u);
    steps := steps + rest;
    OneFinishes(s, m);
  }

  lemma OneFinishes(s: State, m: State)
    requires s.versions == map[0 := Row(0, 0, 1)] && s.runs == map[0 := Ledger.ACTIVE] && s.open == map[]
    requires s.current == map[] || s.current == map[0 := 0]
    requires m == s.(open := s.open[3 := Delivery(0, Ledger.COMPLETED, None, HasRun)])
    ensures Close(Finish(Ready(m, 3), 3), 3) ==
      s.(runs := map[0 := Ledger.COMPLETED], audit := s.audit + [0], current := map[0 := 0], accepted := s.accepted + {0})
  {
    var u := Close(Finish(Ready(m, 3), 3), 3);
    assert u.open == map[];
    assert u.runs == map[0 := Ledger.COMPLETED];
    assert u.current == map[0 := 0];
  }

  /** Version 0 is completed while a `persist` that read its run before is under way. */
  lemma CompletedMeanwhile() returns (steps: seq<Step>, c: State)
    ensures Run(Init, steps, c) && Begins(steps, Ledger.COMPLETED, Ledger.COMPLETED)
    ensures c == Waiting().(runs := map[0 := Ledger.COMPLETED], audit := [] + [0], current := map[0 := 0], accepted := {} + {0})
  {
    var s: State;
    steps, s := ActiveRun();
    var next: seq<Step>;
    next, c := OneCommits(s);
    ThenBegins(Init, steps, s, next, c, Ledger.COMPLETED, Ledger.COMPLETED);
    steps := steps + next;
  }

  /** All deliveries agree and none overlaps another; a `persist` that had read the run before saves ACTIVE over
      the committed completion. The current version's run is then ACTIVE, and the next delivery of the same
      result is accepted once more and writes a second audit entry. */
  lemma LateSaveReopens() returns (steps: seq<Step>, m: State, more: seq<Step>, u: State)
    ensures Run(Init, steps, m) && Run(m, more, u)
    ensures SingleOutcome(map[0 := Ledger.COMPLETED], steps) && SingleOutcome(map[0 := Ledger.COMPLETED], more)
    ensures m.audit == [0] && m.open == map[] && m.changes == map[] && 0 in m.runs && m.runs[0] == Ledger.ACTIVE
    ensures !CurrentIs(m, CompletedRuns(m), 0)
    ensures u.audit == [0, 0] && 0 in u.runs && u.runs[0] == Ledger.COMPLETED
  {
    var c: State;
    steps, c := CompletedMeanwhile();
    var next: seq<Step>;
    next, m := Saver(c, 1);
    ThenBegins(Init, steps, c, next, m, Ledger.COMPLETED, Ledger.COMPLETED);
    steps := steps + next;
    SavedLate(m);
    more, u := OneCommits(m);
  }

  /** What the late save leaves behind. */
  lemma SavedLate(m: State)
    requires m == Waiting().(runs := map[0 := Ledger.COMPLETED][0 := Ledger.ACTIVE], audit := [] + [0], current := map[0 := 0],
                             accepted := {} + {0}, changes := Waiting().changes - {1})
    ensures m.runs == map[0 := Ledger.ACTIVE] && m.changes == map[] && m.audit == [0] && !CurrentIs(m, CompletedRuns(m), 0)
  {
  }

  /** A completion of version 0 and an overlapping second delivery: both read the active run, both commit. */
  lemma BothCommit(second: RunState) returns (steps: seq<Step>, u: State)
    requires Ended(second)
    ensures Run(Init, steps, u) && Begins(steps, Ledger.COMPLETED, second)
    ensures u.open == map[] && u.versions == map[0 := Row(0, 0, 1)] && u.runs == map[0 := second] && u.audit == [0, 0]
    ensures u.current == map[0 := 0]
  {
    var m: State;
    steps, m := BothRead(second);
    var next: seq<Step>;
    var n: State;
    next, n := FirstCommits(m, second);
    ThenBegins(Init, steps, m, next, n, Ledger.COMPLETED, second);
    steps := steps + next;
    next, u := SecondCommits(n, second);
    ThenBegins(Init, steps, n, next, u, Ledger.COMPLETED, second);
    steps := steps + next;
  }

  lemma BothRead(second: RunState) returns (steps: seq<Step>, u: State)
    requires Ended(second)
    ensures Run(Init, steps, u) && Begins(steps, Ledger.COMPLETED, second)
    ensures u == Waiting().(open := map[2 := Delivery(0, second, None, HasRun), 3 := Delivery(0, Ledger.COMPLETED, None, HasRun)])
  {
    var s, a: State;
    steps, s := ActiveRun();
    var next: seq<Step>;
    next, a := Reader(s, 2, 0, second);
    ThenBegins(Init, steps, s, next, a, Ledger.COMPLETED, second);
    steps := steps + next;
    next, u := Reader(a, 3, 0, Ledger.COMPLETED);
    ThenBegins(Init, steps, a, next, u, Ledger.COMPLETED, second);
    steps := steps + next;
  }

  lemma FirstCommits(s: State, second: RunState) returns (steps: seq<Step>, u: State)
    requires Ended(second)
    requires s == Waiting().(open := map[2 := Delivery(0, second, None, HasRun), 3 := Delivery(0, Ledger.COMPLETED, None, HasRun)])
    ensures Run(s, steps, u) && forall i :: 0 <= i < |steps| ==> !steps[i].Begin?
    ensures u == Waiting().(runs := map[0 := Ledger.COMPLETED], audit := [0], current := map[0 := 0], accepted := {0},
                            open := map[2 := Delivery(0, second, None, HasRun)])
  {
    steps, u := GoesThrough(s, 3);
    FirstFinishes(s, second);
  }

  lemma FirstFinishes(s: State, second: RunState)
    requires Ended(second)
    requires s == Waiting().(open := map[2 := Delivery(0, second, None, HasRun), 3 := Delivery(0, Ledger.COMPLETED, None, HasRun)])
    ensures Close(Finish(Ready(s, 3), 3), 3) ==
      Waiting().(runs := map[0 := Ledger.COMPLETED], audit := [0], current := map[0 := 0], accepted := {0},
                 open := map[2 := Delivery(0, second, None, HasRun)])
  {
    var u := Close(Finish(Ready(s, 3), 3), 3);
    assert u.open == map[2 := Delivery(0, second, None, HasRun)];
    assert u.runs == map[0 := Ledger.COMPLETED];
    assert u.current == map[0 := 0];
  }

  lemma SecondCommits(s: State, second: RunState) returns (steps: seq<Step>, u: State)
    requires Ended(second)
    requires s == Waiting().(runs := map[0 := Ledger.COMPLETED], audit := [0], current := map[0 := 0], accepted := {0},
                             open := map[2 := Delivery(0, second, None, HasRun)])
    ensures Run(s, steps, u) && forall i :: 0 <= i < |steps| ==> !steps[i].Begin?
    ensures u == s.(runs := map[0 := second], audit := [0, 0], open := map[])
  {
    steps, u := GoesThrough(s, 2);
    assert Ready(s, 2).open - {2} == map[];
  }

  /** Because the run is read without a lock, two overlapping deliveries of one result write two audit
      entries. */
  lemma OverlapAuditsTwice() returns (steps: seq<Step>, u: State)
    ensures Run(Init, steps, u) && u.audit == [0, 0] && SingleOutcome(map[0 := Ledger.COMPLETED], steps)
  {
    steps, u := BothCommit(Ledger.COMPLETED);
  }

  /** Two overlapping deliveries with opposite outcomes leave a current version whose run is FAILED. */
  lemma OppositeOutcomesMislead() returns (steps: seq<Step>, u: State)
    ensures Run(Init, steps, u) && 0 in u.current && u.current[0] == 0 && 0 in u.runs && u.runs[0] == Ledger.FAILED
    ensures !CurrentIs(u, CompletedRuns(u), 0)
  {
    steps, u := BothCommit(Ledger.FAILED);
  }
}
