/** Overlapping writes of one extracted field, statement by statement. A correction reads the row without a
    lock; its `save` reads the row again and then updates the columns in which the entity differs from that.
    The update waits for the row, so it meets the row as last committed and holds it until its own commit. */
module FieldOverlaps {
  import opened Common
  import opened Entities
  import opened Fields

  type Id = nat

  /** `manager.save(entity)`: the row was read again as `again`; the update finds `row`. */
  function Save(entity: Field, again: Field, row: Field): Field {
    row.(value := if entity.value != again.value then entity.value else row.value,
         previousValues := if entity.previousValues != again.previousValues then entity.previousValues else row.previousValues,
         source := if entity.source != again.source then entity.source else row.source,
         page := if entity.page != again.page then entity.page else row.page,
         excerpt := if entity.excerpt != again.excerpt then entity.excerpt else row.excerpt,
         confidence := if entity.confidence != again.confidence then entity.confidence else row.confidence,
         reviewState := if entity.reviewState != again.reviewState then entity.reviewState else row.reviewState,
         reviewer := if entity.reviewer != again.reviewer then entity.reviewer else row.reviewer)
  }

  /** A correction under way: the row it read, and what its `save` read again. */
  datatype Tx = Tx(actor: Uuid, text: string, excerpt: Option<string>, read: Field, again: Option<Field>)

  function Entity(t: Tx): Field { CorrectedField(t.read, t.actor, t.text, t.excerpt) }

  /** The committed row, the corrections under way, and what was committed, in order. */
  datatype State = State(row: Field, open: map<Id, Tx>, log: seq<Write>)

  function Init(organization: Uuid, version: Uuid, r: Record): State {
    State(Created(organization, version, r), map[], [Automatic(r.value, r.source)])
  }

  datatype Step =
    | Refresh(record: Record)
    | Read(tx: Id, actor: Uuid, text: string, excerpt: Option<string>)
    | Reread(tx: Id)
    | Commit(tx: Id)
    | Abort(tx: Id)

  predicate Enabled(s: State, step: Step) {
    match step
    case Refresh(r) => r.key == s.row.key && (s.row.source == Human || InRange(r.confidence))
    case Read(tx, _, _, _) => tx !in s.open
    case Reread(tx) => tx in s.open && s.open[tx].again.None?
    case Commit(tx) => tx in s.open && s.open[tx].again.Some?
    case Abort(tx) => tx in s.open
  }

  function Apply(s: State, step: Step): State
    requires Enabled(s, step)
  {
    match step
    case Refresh(r) =>
      s.(row := Written(s.row, s.row.organization, s.row.version, r), log := s.log + [Automatic(r.value, r.source)])
    case Read(tx, actor, text, excerpt) => s.(open := s.open[tx := Tx.Tx(actor, text, excerpt, s.row, None)])
    case Reread(tx) => s.(open := s.open[tx := s.open[tx].(again := Some(s.row))])
    case Commit(tx) =>
      var t := s.open[tx];
      State(Save(Entity(t), t.again.value, s.row), s.open - {tx}, s.log + [Correction(t.text, t.actor)])
    case Abort(tx) => s.(open := s.open - {tx})
  }

  ghost predicate Run(s: State, steps: seq<Step>, u: State)
    decreases |steps|
  {
    if steps == [] then s == u else Enabled(s, steps[0]) && Run(Apply(s, steps[0]), steps[1..], u)
  }

  // ---------------------------------------------------------------- invariant

  function Made(log: seq<Write>): nat { |Corrections(log)| }

  /** What a correction under way has seen: as long as none committed since its read, the history it read. */
  ghost predicate TxOk(row: Field, made: nat, t: Tx) {
    && |t.read.previousValues| <= made
    && (t.again.Some? ==>
          && |t.again.value.previousValues| <= made
          && (t.again.value.source == Human ==> row.source == Human)
          && (made == 0 ==> t.again.value.reviewer == None))
    && (0 < made == |t.read.previousValues| ==>
          History(t.read) == History(row) && (t.again.Some? ==> History(t.again.value) == History(row)))
  }

  ghost predicate RowOk(row: Field, log: seq<Write>) {
    && log != [] && log[0].Automatic? && row.originalValue == log[0].value
    && (row.source == Human <==> FirstHuman(log) < |log|)
    && |row.previousValues| <= Made(log)
    && (if Made(log) == 0 then Agrees(row, log) else row.source == Human)
  }

  ghost predicate Inv(s: State) {
    RowOk(s.row, s.log) && forall tx :: tx in s.open ==> TxOk(s.row, Made(s.log), s.open[tx])
  }

  lemma RefreshKeeps(s: State, r: Record)
    requires Inv(s) && Enabled(s, Refresh(r))
    ensures Inv(Apply(s, Refresh(r))) && Made(Apply(s, Refresh(r)).log) == Made(s.log)
    ensures Agrees(Apply(s, Refresh(r)).row, Apply(s, Refresh(r)).log) <==> Agrees(s.row, s.log)
  {
    var w := Automatic(r.value, r.source);
    CorrectionsStep(s.log, w);
    FirstHumanStep(s.log, w);
    BaseStep(s.log, w);
    if s.row.source != Human { AgreesRefreshed(s.row, s.log, r); }
    forall tx | tx in s.open ensures TxOk(Apply(s, Refresh(r)).row, Made(s.log), s.open[tx]) {
      assert TxOk(s.row, Made(s.log), s.open[tx]);
    }
  }

  lemma CommitKeeps(s: State, tx: Id)
    requires Inv(s) && Enabled(s, Commit(tx))
    ensures Inv(Apply(s, Commit(tx)))
  {
    var t := s.open[tx];
    var w := Correction(t.text, t.actor);
    CorrectionsStep(s.log, w);
    FirstHumanStep(s.log, w);
    assert TxOk(s.row, Made(s.log), t);
    forall x | x in s.open && x != tx ensures TxOk(Apply(s, Commit(tx)).row, Made(s.log) + 1, s.open[x]) {
      assert TxOk(s.row, Made(s.log), s.open[x]);
    }
  }

  lemma StepKeeps(s: State, step: Step)
    requires Inv(s) && Enabled(s, step)
    ensures Inv(Apply(s, step))
  {
    match step
    case Refresh(r) => RefreshKeeps(s, r);
    case Commit(tx) => CommitKeeps(s, tx);
    case _ =>
      var u := Apply(s, step);
      if Made(s.log) == 0 { assert History(s.row)[0] == AsPast(s.log[Base(s.log)]); }
      forall x | x in u.open ensures TxOk(u.row, Made(u.log), u.open[x]) {
        assert x in s.open ==> TxOk(s.row, Made(s.log), s.open[x]);
      }
  }

  // ---------------------------------------------------------------- the history of corrections

  /** The row has the history that the correction read, and a text that the second read had found already
      is still there. */
  predicate Meets(t: Tx, row: Field) {
    History(t.read) == History(row) && (t.again.Some? && t.again.value.value == Some(t.text) ==> row.value == Some(t.text))
  }

  lemma AgreesNext(log: seq<Write>, w: Write)
    requires log != [] && log[0].Automatic? && w.Correction?
    ensures FaithfulHistory(log + [w]) == FaithfulHistory(log) + [AsPast(w)]
  {
    CorrectionsStep(log, w);
    BaseStep(log, w);
  }

  lemma FreshSave(row: Field, made: nat, t: Tx)
    requires TxOk(row, made, t) && t.again.Some? && Meets(t, row)
    requires |row.previousValues| == made && (made > 0 ==> row.source == Human)
    ensures History(Save(Entity(t), t.again.value, row)) == History(t.read) + [AsPast(Correction(t.text, t.actor))]
  {
    assert History(t.read)[|t.read.previousValues|].reviewer == t.read.reviewer;
    assert History(row)[made].reviewer == row.reviewer;
    if made > 0 { assert History(t.again.value)[made] == Past(t.again.value.value, t.again.value.source, t.again.value.reviewer); }
  }

  /** A correction that meets the row it read adds itself to the history. */
  lemma FreshCommit(s: State, tx: Id)
    requires Inv(s) && Enabled(s, Commit(tx)) && Agrees(s.row, s.log) && Meets(s.open[tx], s.row)
    ensures Agrees(Apply(s, Commit(tx)).row, Apply(s, Commit(tx)).log)
  {
    var t := s.open[tx];
    AgreesNext(s.log, Correction(t.text, t.actor));
    CommitKeeps(s, tx);
    assert TxOk(s.row, Made(s.log), t);
    assert |History(s.row)| == 1 + Made(s.log);
    FreshSave(s.row, Made(s.log), t);
  }

  /** A history that is right after a correction was right before, and the correction met it. */
  lemma RightOnlyIfFresh(s: State, tx: Id)
    requires Inv(s) && Enabled(s, Commit(tx)) && Agrees(Apply(s, Commit(tx)).row, Apply(s, Commit(tx)).log)
    ensures Agrees(s.row, s.log) && Meets(s.open[tx], s.row)
  {
    var t := s.open[tx];
    var u := Apply(s, Commit(tx));
    var w := Correction(t.text, t.actor);
    AgreesNext(s.log, w);
    assert TxOk(s.row, Made(s.log), t);
    assert |u.row.previousValues| == 1 + Made(s.log);
    assert u.row.previousValues == Entity(t).previousValues == History(t.read);
    assert History(u.row)[..|u.row.previousValues|] == u.row.previousValues;
    assert FaithfulHistory(s.log + [w])[..1 + Made(s.log)] == FaithfulHistory(s.log);
    assert History(u.row)[1 + Made(s.log)] == AsPast(w);
  }

  /** No correction commits over a row other than the one it read. */
  ghost predicate NoneStale(s: State, steps: seq<Step>)
    decreases |steps|
  {
    steps == [] || (
      && Enabled(s, steps[0])
      && (steps[0].Commit? ==> Meets(s.open[steps[0].tx], s.row))
      && NoneStale(Apply(s, steps[0]), steps[1..]))
  }

  lemma AgreesAfterStep(s: State, step: Step)
    requires Inv(s) && Enabled(s, step)
    ensures Agrees(Apply(s, step).row, Apply(s, step).log) <==>
      Agrees(s.row, s.log) && (step.Commit? ==> Meets(s.open[step.tx], s.row))
  {
    match step
    case Refresh(r) => RefreshKeeps(s, r);
    case Commit(tx) =>
      if Agrees(Apply(s, step).row, Apply(s, step).log) {
        RightOnlyIfFresh(s, tx);
      } else if Agrees(s.row, s.log) && Meets(s.open[tx], s.row) {
        FreshCommit(s, tx);
      }
    case _ =>
  }

  lemma {:induction false} AgreesFrom(s: State, steps: seq<Step>, u: State)
    requires Inv(s) && Run(s, steps, u)
    ensures Agrees(u.row, u.log) <==> Agrees(s.row, s.log) && NoneStale(s, steps)
    decreases |steps|
  {
    if steps != [] {
      StepKeeps(s, steps[0]);
      AgreesAfterStep(s, steps[0]);
      AgreesFrom(Apply(s, steps[0]), steps[1..], u);
    }
  }

  /** Over every interleaving of corrections of a field, the correction history is the faithful log of what was
      committed exactly if no correction committed over a row that had changed since its read. */
  lemma HistoryIsFaithfulIff(organization: Uuid, version: Uuid, r: Record, steps: seq<Step>, u: State)
    requires Run(Init(organization, version, r), steps, u)
    ensures Agrees(u.row, u.log) <==> NoneStale(Init(organization, version, r), steps)
  {
    AgreesCreated(organization, version, r);
    AgreesFrom(Init(organization, version, r), steps, u);
  }

  lemma {:induction false} Extend(s: State, steps: seq<Step>, u: State, step: Step) returns (longer: seq<Step>, v: State)
    requires Run(s, steps, u) && Enabled(u, step)
    ensures longer == steps + [step] && v == Apply(u, step) && Run(s, longer, v)
    decreases |steps|
  {
    longer, v := steps + [step], Apply(u, step);
    if steps == [] {
      assert longer[1..] == [];
    } else {
      var rest, w := Extend(Apply(s, steps[0]), steps[1..], u, step);
      assert longer[1..] == rest;
    }
  }

  /** Undisturbed, the statements of a correction do what the call does as one step, in every column. */
  lemma UndisturbedCorrection(s: State, tx: Id, actor: Uuid, text: string, excerpt: Option<string>) returns (steps: seq<Step>, u: State)
    requires tx !in s.open
    ensures Run(s, steps, u) && u.open == s.open && u.log == s.log + [Correction(text, actor)]
    ensures var f := s.row;
      u.row == Field(
        f.organization, f.version, f.key, Some(text), f.originalValue, f.previousValues + [Past(f.value, f.source, f.reviewer)],
        Human, f.page, if excerpt.Some? then excerpt else f.excerpt, f.confidence, Corrected, Some(actor))
  {
    steps, u := [], s;
    steps, u := Extend(s, steps, u, Read(tx, actor, text, excerpt));
    steps, u := Extend(s, steps, u, Reread(tx));
    steps, u := Extend(s, steps, u, Step.Commit(tx));
    assert u.open == s.open;
  }

  const UNREAD := Record("value", None, Local, None, None, None, NeedsReview)

  /** Two corrections have read the same row twice. */
  lemma BothRead() returns (steps: seq<Step>, u: State)
    ensures Run(Init(1, 2, UNREAD), steps, u)
    ensures var f := Created(1, 2, UNREAD);
      u == State(f, map[0 := Tx.Tx(7, "A", None, f, Some(f)), 1 := Tx.Tx(8, "B", None, f, Some(f))], [Automatic(None, Local)])
  {
    steps, u := [], Init(1, 2, UNREAD);
    steps, u := Extend(Init(1, 2, UNREAD), steps, u, Read(0, 7, "A", None));
    steps, u := Extend(Init(1, 2, UNREAD), steps, u, Read(1, 8, "B", None));
    steps, u := Extend(Init(1, 2, UNREAD), steps, u, Reread(0));
    steps, u := Extend(Init(1, 2, UNREAD), steps, u, Reread(1));
  }

  /** The first one commits. */
  lemma FirstCommitted() returns (steps: seq<Step>, u: State)
    ensures Run(Init(1, 2, UNREAD), steps, u)
    ensures var f := Created(1, 2, UNREAD);
      && u.row == CorrectedField(f, 7, "A", None) && 1 in u.open && u.open[1] == Tx.Tx(8, "B", None, f, Some(f))
      && Corrections(u.log) == [Past(Some("A"), Human, Some(7))]
  {
    steps, u := BothRead();
    CorrectionsStep([], Automatic(None, Local));
    assert [] + [Automatic(None, Local)] == u.log;
    CorrectionsStep(u.log, Correction("A", 7));
    steps, u := Extend(Init(1, 2, UNREAD), steps, u, Step.Commit(0));
  }

  /** The second one commits: the first is in the log and nowhere in the row. */
  lemma OverlapLosesCorrection() returns (steps: seq<Step>, u: State)
    ensures Run(Init(1, 2, UNREAD), steps, u)
    ensures Corrections(u.log) == [Past(Some("A"), Human, Some(7)), Past(Some("B"), Human, Some(8))]
    ensures History(u.row) == [Past(None, Local, None), Past(Some("B"), Human, Some(8))]
  {
    steps, u := FirstCommitted();
    CorrectionsStep(u.log, Correction("B", 8));
    steps, u := Extend(Init(1, 2, UNREAD), steps, u, Step.Commit(1));
  }

  // ---------------------------------------------------------------- a late persist

  lemma {:induction false} RowsStay(ops: seq<Op>, n: nat, i: nat)
    requires forall op :: op in ops ==> Legal(op)
    requires n <= |ops| && i < |DoAll(ops[..n])|
    ensures i < |DoAll(ops)| && DoAll(ops[..n])[i].previousValues <= DoAll(ops)[i].previousValues
  {
    if n == |ops| {
      assert ops[..n] == ops;
    } else {
      var init := ops[..|ops| - 1];
      assert init[..n] == ops[..n];
      RowsStay(init, n, i);
      DoAllUnique(init);
      DoKeeps(DoAll(init), ops[|ops| - 1]);
    }
  }

  /** Nobody has reviewed a field without a history of corrections. */
  lemma UncorrectedIsUnreviewed(ops: seq<Op>, i: nat)
    requires forall op :: op in ops ==> Legal(op)
    requires i < |DoAll(ops)|
    ensures var f := DoAll(ops)[i]; (f.previousValues == [] ==> f.reviewer == None) && (f.source != Human ==> f.previousValues == [])
  {
    HistoryIsFaithful(ops, i);
    var f := DoAll(ops)[i];
    var log := Log(ops, i, f.organization, f.version, f.key);
    if f.source != Human { NoCorrections(log); }
    if f.previousValues == [] { assert History(f)[0] == AsPast(log[Base(log)]); }
  }

  /** A save that nothing overlaps stores the entity. */
  lemma SaveAlone(entity: Field, row: Field)
    requires SameRow(row, entity) && entity.originalValue == row.originalValue
    ensures Save(entity, row, row) == entity
  {
  }

  /** A `persist` that read a field before its correction and saves it late, whatever commits in between. The
      history stays as it was exactly if no correction was committed when the row was read again, and the record
      repeats the value and the origin that were found then or are there now. */
  lemma LatePersistKeepsHistoryIff(ops: seq<Op>, read: nat, reread: nat, i: nat, r: Record)
    requires forall op :: op in ops ==> Legal(op)
    requires read <= reread <= |ops| && i < |DoAll(ops[..read])| && i < |DoAll(ops[..reread])| && i < |DoAll(ops)|
    requires DoAll(ops[..read])[i].source != Human
    ensures
      var again, row := DoAll(ops[..reread])[i], DoAll(ops)[i];
      var saved := Save(Refreshed(DoAll(ops[..read])[i], r), again, row);
      History(saved) == History(row) <==>
        again.previousValues == [] && r.value in {again.value, row.value} && r.source in {again.source, row.source}
  {
    var again, row := DoAll(ops[..reread])[i], DoAll(ops)[i];
    var saved := Save(Refreshed(DoAll(ops[..read])[i], r), again, row);
    UncorrectedIsUnreviewed(ops[..read], i);
    UncorrectedIsUnreviewed(ops[..reread], i);
    RowsStay(ops, reread, i);
    if again.previousValues == [] {
      assert saved.previousValues == row.previousValues && saved.reviewer == row.reviewer;
      assert History(saved)[|row.previousValues|] == Past(saved.value, saved.source, saved.reviewer);
      assert History(row)[|row.previousValues|] == Past(row.value, row.source, row.reviewer);
    } else {
      assert saved.previousValues == [] && row.previousValues != [];
      assert |History(saved)| != |History(row)|;
    }
  }

  /** A late `persist` that found the field uncorrected both times it read it: its value replaces the human's
      and goes by the human's name. */
  lemma LatePersistTakesTheName() returns (ops: seq<Op>, r: Record)
    ensures (forall op :: op in ops ==> Legal(op)) && |ops| == 2 && |DoAll(ops[..1])| == |DoAll(ops)| == 1
    ensures
      var found, row := DoAll(ops[..1])[0], DoAll(ops)[0];
      var saved := Save(Refreshed(found, r), found, row);
      && found.source == Local && row.value == Some("A") && row.reviewer == Some(7)
      && saved == row.(value := Some("B")) && saved.source == Human && saved.reviewer == Some(7)
  {
    var first, second := Op.Persist(1, 2, [UNREAD]), Correct(0, 1, 7, "A", Some("why"), None);
    r := UNREAD.(value := Some("B"));
    ops := [first, second];
    assert [UNREAD][..0] == [];
    assert |UNREAD.key| == 5 && Storable(UNREAD);
    var none: seq<Field> := [];
    assert !Taken(none, 2, UNREAD.key) && Find(none, 1, 2, UNREAD.key) == None;
    assert none + [Created(1, 2, UNREAD)] == [Created(1, 2, UNREAD)];
    assert Upsert(none, 1, 2, UNREAD) == Some([Created(1, 2, UNREAD)]);
    assert [first][..0] == [];
    assert UpsertAll(none, 1, 2, [UNREAD][..0]) == Some(none);
    assert Do(none, first) == [Created(1, 2, UNREAD)];
    assert ops[..1] == [first];
    assert DoAll(ops[..1]) == [Created(1, 2, UNREAD)];
    assert !IsJsSpace("why"[0]);
    assert Justified(Some("why"));
  }
}
