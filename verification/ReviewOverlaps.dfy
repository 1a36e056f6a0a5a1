/** Overlapping resolutions and decisions, statement by statement. Both read their row without a lock; `save`
    reads the row again and then updates the columns in which the entity differs from that. The update waits
    for the row, so it meets the row as last committed and holds it until its own commit. */
module ReviewOverlaps {
  import opened Common
  import opened Reviews

  type Id = nat

  function SaveTask(entity: Task, again: Task, row: Task): Task {
    row.(state := if entity.state != again.state then entity.state else row.state,
         resolution := if entity.resolution != again.resolution then entity.resolution else row.resolution,
         resolvedAt := if entity.resolvedAt != again.resolvedAt then entity.resolvedAt else row.resolvedAt)
  }

  /** A resolution under way: what it will save, and what its `save` read again. */
  datatype Resolving = Resolving(actor: Uuid, task: nat, entity: Task, again: Option<Task>)

  /** A decision under way: the row it read, what it will save once it has counted the tasks, and what its
      `save` read again. */
  datatype Deciding = Deciding(
    actor: Uuid, review: nat, choice: Decision, justification: Option<string>, read: Review,
    entity: Option<Review>, again: Option<Review>)

  /** The committed tables, the calls under way, and the audit trail of decisions. */
  datatype Joint = Joint(
    db: State, resolving: map<Id, Resolving>, deciding: map<Id, Deciding>, decisions: seq<(nat, Decision)>)

  const Start := Joint(Init, map[], map[], [])

  datatype Step =
    | Other(op: Op)
    | ReadTask(tx: Id, organization: Uuid, actor: Uuid, task: nat, cancel: bool, resolution: string)
    | RereadTask(tx: Id)
    | CommitTask(tx: Id)
    | AbortTask(tx: Id)
    | ReadReview(tx: Id, organization: Uuid, actor: Uuid, review: nat, choice: Decision, justification: Option<string>)
    | CountTasks(tx: Id)
    | RereadReview(tx: Id)
    | CommitDecision(tx: Id)
    | AbortDecision(tx: Id)

  /** What is refused never gets further: a read that ends the call is no step. */
  predicate Enabled(s: Joint, step: Step) {
    match step
    case Other(op) => !op.ResolveTask? && !op.Decide?
    case ReadTask(tx, organization, _, task, _, resolution) =>
      && tx !in s.resolving && task < |s.db.tasks| && s.db.tasks[task].organization == organization
      && s.db.tasks[task].state == Open
    case RereadTask(tx) => tx in s.resolving && s.resolving[tx].again.None? && s.resolving[tx].task < |s.db.tasks|
    case CommitTask(tx) =>
      && tx in s.resolving && s.resolving[tx].again.Some? && s.resolving[tx].task < |s.db.tasks|
      && s.resolving[tx].entity.resolution.Some? && HasText(s.resolving[tx].entity.resolution.value)
    case AbortTask(tx) => tx in s.resolving
    case ReadReview(tx, organization, _, review, choice, justification) =>
      && tx !in s.deciding && ValidateReviewDecision(Some(choice), justification).Ok?
      && Visible(s.db, organization, review) && !Final(s.db.reviews[review])
    case CountTasks(tx) =>
      && tx in s.deciding && s.deciding[tx].entity.None?
      && OpenTasks(s.db.tasks, s.deciding[tx].read.organization, s.deciding[tx].review) == 0
    case RereadReview(tx) =>
      tx in s.deciding && s.deciding[tx].entity.Some? && s.deciding[tx].again.None? && s.deciding[tx].review < |s.db.reviews|
    case CommitDecision(tx) =>
      tx in s.deciding && s.deciding[tx].entity.Some? && s.deciding[tx].again.Some? && s.deciding[tx].review < |s.db.reviews|
    case AbortDecision(tx) => tx in s.deciding
  }

  function Apply(s: Joint, step: Step): Joint
    requires Enabled(s, step)
  {
    match step
    case Other(op) => s.(db := Do(s.db, op))
    case ReadTask(tx, _, actor, task, cancel, resolution) =>
      s.(resolving := s.resolving[tx := Resolving.Resolving(actor, task, Closed(s.db.tasks[task], cancel, resolution, s.db.now), None)])
    case RereadTask(tx) =>
      s.(resolving := s.resolving[tx := s.resolving[tx].(again := Some(s.db.tasks[s.resolving[tx].task]))])
    case CommitTask(tx) =>
      var t := s.resolving[tx];
      var row := s.db.tasks[t.task];
      s.(resolving := s.resolving - {tx},
         db := s.db.(tasks := s.db.tasks[t.task := SaveTask(t.entity, t.again.value, row)],
                     comments := s.db.comments
                       + [Comment(t.entity.organization, t.entity.review, Some(t.task), t.actor, t.entity.resolution.value)]))
    case AbortTask(tx) => s.(resolving := s.resolving - {tx})
    case ReadReview(tx, _, actor, review, choice, justification) =>
      s.(deciding := s.deciding[tx := Deciding.Deciding(actor, review, choice, justification, s.db.reviews[review], None, None)])
    case CountTasks(tx) =>
      var d := s.deciding[tx];
      s.(deciding := s.deciding[tx := d.(entity := Some(Decided(d.read, d.actor, d.choice, d.justification, s.db.now)))])
    case RereadReview(tx) =>
      s.(deciding := s.deciding[tx := s.deciding[tx].(again := Some(s.db.reviews[s.deciding[tx].review]))])
    case CommitDecision(tx) =>
      var d := s.deciding[tx];
      var row := s.db.reviews[d.review];
      s.(deciding := s.deciding - {tx},
         db := s.db.(reviews := s.db.reviews[d.review := Save(d.entity.value, d.again.value, row)]),
         decisions := s.decisions + [(d.review, d.choice)])
    case AbortDecision(tx) => s.(deciding := s.deciding - {tx})
  }

  ghost predicate Run(s: Joint, steps: seq<Step>, u: Joint)
    decreases |steps|
  {
    if steps == [] then s == u else Enabled(s, steps[0]) && Run(Apply(s, steps[0]), steps[1..], u)
  }

  // ---------------------------------------------------------------- resolutions

  /** As long as its task is open, a resolution under way has seen it as it is. */
  ghost predicate ResolvingOk(tasks: seq<Task>, r: Resolving) {
    && r.task < |tasks| && r.entity.state != Open && r.entity.resolution.Some? && r.entity.resolvedAt.Some?
    && r.entity.review == tasks[r.task].review && r.entity.organization == tasks[r.task].organization
    && (tasks[r.task].state == Open ==>
          && r.entity == Closed(tasks[r.task], r.entity.state == Cancelled, r.entity.resolution.value, r.entity.resolvedAt.value)
          && (r.again.Some? ==> r.again.value == tasks[r.task]))
  }

  /** No comment names a task that does not exist. */
  ghost predicate Names(s: State, c: Comment) { c.task.Some? ==> c.task.value < |s.tasks| }

  ghost predicate TasksOk(s: Joint) {
    && (forall tx :: tx in s.resolving ==> ResolvingOk(s.db.tasks, s.resolving[tx]))
    && (forall i :: 0 <= i < |s.db.comments| ==> Names(s.db, s.db.comments[i]))
  }

  lemma TasksKept(s: Joint, step: Step)
    requires TasksOk(s) && Enabled(s, step)
    ensures TasksOk(Apply(s, step))
  {
    var u := Apply(s, step);
    forall tx | tx in u.resolving ensures ResolvingOk(u.db.tasks, u.resolving[tx]) {
      assert tx in s.resolving ==> ResolvingOk(s.db.tasks, s.resolving[tx]);
      if step.CommitTask? { assert ResolvingOk(s.db.tasks, s.resolving[step.tx]); }
    }
    forall i | 0 <= i < |u.db.comments| ensures Names(u.db, u.db.comments[i]) {
      assert i < |s.db.comments| ==> Names(s.db, s.db.comments[i]);
    }
  }

  predicate IsClosed(s: State, task: nat) { task < |s.tasks| && s.tasks[task].state != Open }

  /** The step commits a resolution of a task that was closed meanwhile. */
  ghost predicate MeetsClosed(s: Joint, step: Step, task: nat)
    requires Enabled(s, step)
  {
    step.CommitTask? && s.resolving[step.tx].task == task && IsClosed(s.db, task)
  }

  ghost function MetClosed(s: Joint, steps: seq<Step>, task: nat): nat
    decreases |steps|
  {
    if steps == [] || !Enabled(s, steps[0]) then 0
    else (if MeetsClosed(s, steps[0], task) then 1 else 0) + MetClosed(Apply(s, steps[0]), steps[1..], task)
  }

  lemma ResolutionsCounted(s: Joint, step: Step, task: nat)
    requires TasksOk(s) && Enabled(s, step)
    ensures Resolutions(Apply(s, step).db.comments, task) + (if IsClosed(s.db, task) then 1 else 0) ==
      Resolutions(s.db.comments, task) + (if IsClosed(Apply(s, step).db, task) then 1 else 0)
      + if MeetsClosed(s, step, task) then 1 else 0
  {
    var u := Apply(s, step);
    if |u.db.comments| > |s.db.comments| {
      ResolutionsStep(s.db.comments, u.db.comments[|s.db.comments|], task);
    }
    if step.CommitTask? { assert ResolvingOk(s.db.tasks, s.resolving[step.tx]); }
  }

  lemma {:induction false} ResolutionsFrom(s: Joint, steps: seq<Step>, u: Joint, task: nat)
    requires TasksOk(s) && Run(s, steps, u)
    ensures TasksOk(u)
    ensures Resolutions(u.db.comments, task) + (if IsClosed(s.db, task) then 1 else 0) ==
      Resolutions(s.db.comments, task) + (if IsClosed(u.db, task) then 1 else 0) + MetClosed(s, steps, task)
    decreases |steps|
  {
    if steps != [] {
      TasksKept(s, steps[0]);
      ResolutionsCounted(s, steps[0], task);
      ResolutionsFrom(Apply(s, steps[0]), steps[1..], u, task);
    }
  }

  /** Over every interleaving, a task has one resolution comment if it left OPEN and none otherwise, plus one
      for each resolution that was committed after another one. */
  lemma CommentsCountOverlaps(steps: seq<Step>, u: Joint, task: nat)
    requires Run(Start, steps, u)
    ensures Resolutions(u.db.comments, task) == (if IsClosed(u.db, task) then 1 else 0) + MetClosed(Start, steps, task)
  {
    ResolutionsFrom(Start, steps, u, task);
  }

  ghost predicate Logged(s: State, task: nat) { task < |s.tasks| ==> TaskLogged(s.comments, s.tasks[task], task) }

  lemma LoggedAfterCommit(s: Joint, tx: Id)
    requires TasksOk(s) && Enabled(s, CommitTask(tx)) && !IsClosed(s.db, s.resolving[tx].task)
    requires Logged(s.db, s.resolving[tx].task)
    ensures Logged(Apply(s, CommitTask(tx)).db, s.resolving[tx].task)
  {
    var r := s.resolving[tx];
    var t := s.db.tasks[r.task];
    assert ResolvingOk(s.db.tasks, r);
    LoggedWhenClosed(s.db.comments, t, r.task, r.actor, r.entity.state == Cancelled, r.entity.resolution.value, r.entity.resolvedAt.value);
  }

  lemma LoggedAfterStep(s: Joint, step: Step, task: nat)
    requires TasksOk(s) && Enabled(s, step) && !MeetsClosed(s, step, task) && Logged(s.db, task)
    ensures Logged(Apply(s, step).db, task)
  {
    var u := Apply(s, step);
    if step.CommitTask? && s.resolving[step.tx].task == task {
      LoggedAfterCommit(s, step.tx);
    } else if task < |s.db.tasks| {
      if |u.db.comments| > |s.db.comments| { LoggedWithOther(s.db.comments, s.db.tasks[task], task, u.db.comments[|s.db.comments|]); }
    } else {
      forall i | 0 <= i < |s.db.comments| ensures s.db.comments[i].task != Some(task) { assert Names(s.db, s.db.comments[i]); }
      NoResolutions(s.db.comments, task);
    }
  }

  lemma {:induction false} LoggedFrom(s: Joint, steps: seq<Step>, u: Joint, task: nat)
    requires TasksOk(s) && Run(s, steps, u) && MetClosed(s, steps, task) == 0 && Logged(s.db, task)
    ensures Logged(u.db, task)
    decreases |steps|
  {
    if steps != [] {
      TasksKept(s, steps[0]);
      LoggedAfterStep(s, steps[0], task);
      LoggedFrom(Apply(s, steps[0]), steps[1..], u, task);
    }
  }

  /** Over every interleaving, a task has exactly one resolution comment, with its text, once it left OPEN and
      none before, exactly if no resolution of it was committed after another one. */
  lemma OneCommentIff(steps: seq<Step>, u: Joint, task: nat)
    requires Run(Start, steps, u) && task < |u.db.tasks|
    ensures TaskLogged(u.db.comments, u.db.tasks[task], task) <==> MetClosed(Start, steps, task) == 0
  {
    CommentsCountOverlaps(steps, u, task);
    if MetClosed(Start, steps, task) == 0 { LoggedFrom(Start, steps, u, task); }
  }

  /** A resolution that found on its second read what it was to save leaves the task as it finds it at its commit, and
      adds nothing but its comment. */
  lemma RepeatedResolution(s: Joint, tx: Id)
    requires Enabled(s, CommitTask(tx)) && s.resolving[tx].again == Some(s.resolving[tx].entity)
    ensures Apply(s, CommitTask(tx)).db.tasks == s.db.tasks && Apply(s, CommitTask(tx)).db.reviews == s.db.reviews
    ensures Apply(s, CommitTask(tx)).db.comments == s.db.comments
      + [Comment(s.resolving[tx].entity.organization, s.resolving[tx].entity.review, Some(s.resolving[tx].task),
                 s.resolving[tx].actor, s.resolving[tx].entity.resolution.value)]
  {
  }

  // ---------------------------------------------------------------- decisions

  predicate IsFinal(d: Decision) { d != ReturnForComplement }

  /** The committed decisions of a review, in order. */
  function DecisionsOf(decisions: seq<(nat, Decision)>, review: nat): seq<Decision> {
    if decisions == [] then []
    else
      var last := decisions[|decisions| - 1];
      DecisionsOf(decisions[..|decisions| - 1], review) + if last.0 == review then [last.1] else []
  }

  lemma DecisionsStep(decisions: seq<(nat, Decision)>, d: (nat, Decision), review: nat)
    ensures DecisionsOf(decisions + [d], review) ==
      if d.0 == review then DecisionsOf(decisions, review) + [d.1] else DecisionsOf(decisions, review)
  {
    assert (decisions + [d])[..|decisions|] == decisions;
  }

  ghost predicate NoneFinal(ds: seq<Decision>) { forall i :: 0 <= i < |ds| ==> !IsFinal(ds[i]) }

  /** Only the last decision may be final. */
  ghost predicate EndsFinal(ds: seq<Decision>) { forall i :: 0 <= i < |ds| - 1 ==> !IsFinal(ds[i]) }

  lemma NoneFinalNext(ds: seq<Decision>, d: Decision)
    ensures NoneFinal(ds + [d]) <==> NoneFinal(ds) && !IsFinal(d)
    ensures EndsFinal(ds + [d]) <==> NoneFinal(ds)
  {
    var all := ds + [d];
    assert all[|ds|] == d;
    assert forall i :: 0 <= i < |ds| ==> all[i] == ds[i];
  }

  /** The review shows the last decision, or none. */
  ghost predicate Shows(r: Review, ds: seq<Decision>) {
    if ds == [] then r.state in {Pending, InReview} && r.decision == None
    else r.state == StateOf(ds[|ds| - 1]) && r.decision == Some(ds[|ds| - 1])
  }

  /** As long as no decision is final, a review returned for complement stays so. */
  ghost predicate DecidingOk(s: Joint, d: Deciding) {
    && d.review < |s.db.reviews|
    && (d.entity.Some? ==> d.entity.value.state == StateOf(d.choice) && d.entity.value.decision == Some(d.choice))
    && (d.again.Some? && NoneFinal(DecisionsOf(s.decisions, d.review)) ==>
          && !Final(d.again.value)
          && (d.again.value.state == ChangesRequested <==> d.again.value.decision == Some(ReturnForComplement))
          && (d.again.value.decision.Some? ==> d.again.value.decision == s.db.reviews[d.review].decision == Some(ReturnForComplement)))
  }

  ghost predicate ReviewShown(s: Joint, review: nat) {
    var ds := DecisionsOf(s.decisions, review);
    if review < |s.db.reviews| then NoneFinal(ds) ==> Shows(s.db.reviews[review], ds) else ds == []
  }

  ghost predicate DecisionsOk(s: Joint) {
    && (forall i :: ReviewShown(s, i))
    && (forall tx :: tx in s.deciding ==> DecidingOk(s, s.deciding[tx]))
  }

  /** What a review amounts to when nothing overlaps: it shows its last decision, and none follows a final one. */
  ghost predicate Settled(s: Joint, review: nat)
    requires review < |s.db.reviews|
  {
    EndsFinal(DecisionsOf(s.decisions, review)) && Shows(s.db.reviews[review], DecisionsOf(s.decisions, review))
  }

  lemma CommitShows(s: Joint, tx: Id)
    requires DecisionsOk(s) && Enabled(s, CommitDecision(tx))
    requires NoneFinal(DecisionsOf(s.decisions, s.deciding[tx].review))
    ensures var u, d := Apply(s, CommitDecision(tx)), s.deciding[tx];
      && DecisionsOf(u.decisions, d.review) == DecisionsOf(s.decisions, d.review) + [d.choice]
      && Shows(u.db.reviews[d.review], DecisionsOf(u.decisions, d.review))
  {
    var d := s.deciding[tx];
    assert DecidingOk(s, d) && ReviewShown(s, d.review);
    DecisionsStep(s.decisions, (d.review, d.choice), d.review);
  }

  lemma DecidingAfterCommit(s: Joint, tx: Id, d: Deciding)
    requires DecisionsOk(s) && Enabled(s, CommitDecision(tx)) && DecidingOk(s, d)
    ensures DecidingOk(Apply(s, CommitDecision(tx)), d)
  {
    var own := s.deciding[tx];
    DecisionsStep(s.decisions, (own.review, own.choice), d.review);
    if own.review == d.review && NoneFinal(DecisionsOf(Apply(s, CommitDecision(tx)).decisions, d.review)) {
      NoneFinalNext(DecisionsOf(s.decisions, d.review), own.choice);
      CommitShows(s, tx);
    }
  }

  lemma DecidingKept(s: Joint, step: Step, tx: Id)
    requires DecisionsOk(s) && Enabled(s, step) && tx in Apply(s, step).deciding
    ensures DecidingOk(Apply(s, step), Apply(s, step).deciding[tx])
  {
    assert ReviewShown(s, Apply(s, step).deciding[tx].review);
    assert tx in s.deciding ==> DecidingOk(s, s.deciding[tx]);
    if step.CommitDecision? { DecidingAfterCommit(s, step.tx, s.deciding[tx]); }
  }

  /** A review that shows its last decision is undecided or returned exactly as long as none was final. */
  lemma ShownNotFinal(r: Review, ds: seq<Decision>)
    requires Shows(r, ds)
    ensures EndsFinal(ds) && !Final(r) <==> NoneFinal(ds)
  {
    if ds != [] {
      var n := |ds| - 1;
      assert ds == ds[..n] + [ds[n]];
      NoneFinalNext(ds[..n], ds[n]);
    }
  }

  lemma ShownAfterCommit(s: Joint, tx: Id, review: nat)
    requires DecisionsOk(s) && Enabled(s, CommitDecision(tx))
    ensures ReviewShown(Apply(s, CommitDecision(tx)), review)
  {
    var d := s.deciding[tx];
    assert ReviewShown(s, review);
    DecisionsStep(s.decisions, (d.review, d.choice), review);
    if d.review == review {
      NoneFinalNext(DecisionsOf(s.decisions, review), d.choice);
      if NoneFinal(DecisionsOf(s.decisions, review)) { CommitShows(s, tx); }
    }
  }

  lemma ShownAfterOp(s: Joint, op: Op, review: nat)
    requires DecisionsOk(s) && Enabled(s, Other(op))
    ensures ReviewShown(Apply(s, Other(op)), review)
  {
    assert ReviewShown(s, review);
  }

  lemma ShownKept(s: Joint, step: Step, review: nat)
    requires DecisionsOk(s) && Enabled(s, step)
    ensures ReviewShown(Apply(s, step), review)
  {
    match step
    case Other(op) => ShownAfterOp(s, op, review);
    case CommitDecision(tx) => ShownAfterCommit(s, tx, review);
    case _ => assert ReviewShown(s, review);
  }

  lemma DecisionsKept(s: Joint, step: Step)
    requires DecisionsOk(s) && Enabled(s, step)
    ensures DecisionsOk(Apply(s, step))
  {
    var u := Apply(s, step);
    forall i ensures ReviewShown(u, i) { ShownKept(s, step, i); }
    forall tx | tx in u.deciding ensures DecidingOk(u, u.deciding[tx]) { DecidingKept(s, step, tx); }
  }

  /** The step commits a decision of a review that was finally decided meanwhile. */
  ghost predicate MeetsFinal(s: Joint, step: Step, review: nat)
    requires Enabled(s, step)
  {
    step.CommitDecision? && s.deciding[step.tx].review == review && Final(s.db.reviews[review])
  }

  ghost predicate NoneMeetsFinal(s: Joint, steps: seq<Step>, review: nat)
    decreases |steps|
  {
    steps == [] || (
      Enabled(s, steps[0]) && !MeetsFinal(s, steps[0], review) && NoneMeetsFinal(Apply(s, steps[0]), steps[1..], review))
  }

  lemma SettledAfterCommit(s: Joint, tx: Id)
    requires DecisionsOk(s) && Enabled(s, CommitDecision(tx))
    ensures Settled(Apply(s, CommitDecision(tx)), s.deciding[tx].review) <==>
      Settled(s, s.deciding[tx].review) && !Final(s.db.reviews[s.deciding[tx].review])
  {
    var d := s.deciding[tx];
    var ds, row := DecisionsOf(s.decisions, d.review), s.db.reviews[d.review];
    assert ReviewShown(s, d.review);
    DecisionsStep(s.decisions, (d.review, d.choice), d.review);
    NoneFinalNext(ds, d.choice);
    if Shows(row, ds) { ShownNotFinal(row, ds); }
    if NoneFinal(ds) { CommitShows(s, tx); }
  }

  lemma SettledAfterOther(s: Joint, step: Step, review: nat)
    requires DecisionsOk(s) && Enabled(s, step) && review < |s.db.reviews|
    requires !(step.CommitDecision? && s.deciding[step.tx].review == review)
    ensures Settled(Apply(s, step), review) <==> Settled(s, review)
  {
    if step.CommitDecision? { DecisionsStep(s.decisions, (s.deciding[step.tx].review, s.deciding[step.tx].choice), review); }
  }

  ghost predicate SettledOrNew(s: Joint, review: nat) { review < |s.db.reviews| ==> Settled(s, review) }

  lemma SettledAfterStep(s: Joint, step: Step, review: nat)
    requires DecisionsOk(s) && Enabled(s, step)
    ensures SettledOrNew(Apply(s, step), review) <==> SettledOrNew(s, review) && !MeetsFinal(s, step, review)
  {
    assert ReviewShown(s, review);
    if step.CommitDecision? && s.deciding[step.tx].review == review {
      SettledAfterCommit(s, step.tx);
    } else if review < |s.db.reviews| {
      SettledAfterOther(s, step, review);
    }
  }

  lemma {:induction false} SettledFrom(s: Joint, steps: seq<Step>, u: Joint, review: nat)
    requires DecisionsOk(s) && Run(s, steps, u)
    ensures SettledOrNew(u, review) <==> SettledOrNew(s, review) && NoneMeetsFinal(s, steps, review)
    decreases |steps|
  {
    if steps != [] {
      DecisionsKept(s, steps[0]);
      SettledAfterStep(s, steps[0], review);
      SettledFrom(Apply(s, steps[0]), steps[1..], u, review);
    }
  }

  /** Over every interleaving, a review shows its last decision and none follows a final one, exactly if no
      decision was committed over a final one. */
  lemma FinalIsLastIff(steps: seq<Step>, u: Joint, review: nat)
    requires Run(Start, steps, u) && review < |u.db.reviews|
    ensures var ds := DecisionsOf(u.decisions, review);
      EndsFinal(ds) && Shows(u.db.reviews[review], ds) <==> NoneMeetsFinal(Start, steps, review)
  {
    SettledFrom(Start, steps, u, review);
  }

  /** Likewise a decision: the review stays as it finds it. */
  lemma RepeatedDecision(s: Joint, tx: Id)
    requires Enabled(s, CommitDecision(tx)) && s.deciding[tx].again == s.deciding[tx].entity
    ensures Apply(s, CommitDecision(tx)).db == s.db
  {
  }

  // ---------------------------------------------------------------- pendencies

  ghost predicate NoPendency(s: State, organization: Uuid, review: nat) {
    forall i :: 0 <= i < |s.tasks| ==>
      !(s.tasks[i].organization == organization && s.tasks[i].review == review && s.tasks[i].state == Open)
  }

  /** At some moment of the run the review has no open task. */
  ghost predicate SometimeClear(s: Joint, steps: seq<Step>, organization: Uuid, review: nat)
    decreases |steps|
  {
    NoPendency(s.db, organization, review)
    || (steps != [] && Enabled(s, steps[0]) && SometimeClear(Apply(s, steps[0]), steps[1..], organization, review))
  }

  ghost predicate HasCounted(s: Joint, tx: Id) { tx in s.deciding && s.deciding[tx].entity.Some? }

  lemma CountMeetsNone(s: Joint, tx: Id)
    requires Enabled(s, CountTasks(tx))
    ensures NoPendency(s.db, s.deciding[tx].read.organization, s.deciding[tx].review)
  {
    var organization, review := s.deciding[tx].read.organization, s.deciding[tx].review;
    forall i | 0 <= i < |s.db.tasks|
      ensures !(s.db.tasks[i].organization == organization && s.db.tasks[i].review == review && s.db.tasks[i].state == Open)
    {
      assert !IsOpen(s.db.tasks[i], organization, review);
    }
  }

  lemma {:induction false} CountedFrom(s: Joint, steps: seq<Step>, u: Joint, tx: Id)
    requires Run(s, steps, u) && HasCounted(u, tx)
    ensures
      || (HasCounted(s, tx) && s.deciding[tx].read == u.deciding[tx].read && s.deciding[tx].review == u.deciding[tx].review)
      || SometimeClear(s, steps, u.deciding[tx].read.organization, u.deciding[tx].review)
    decreases |steps|
  {
    if steps != [] {
      CountedFrom(Apply(s, steps[0]), steps[1..], u, tx);
      if steps[0] == CountTasks(tx) { CountMeetsNone(s, tx); }
    }
  }

  /** A decision is committed only if, at some moment between the read of its review and the commit, the review had no
      open task. */
  lemma DecidedOnceClear(s: Joint, read: Step, steps: seq<Step>, u: Joint)
    requires read.ReadReview? && Enabled(s, read) && Run(Apply(s, read), steps, u) && Enabled(u, CommitDecision(read.tx))
    ensures SometimeClear(Apply(s, read), steps, u.deciding[read.tx].read.organization, u.deciding[read.tx].review)
  {
    CountedFrom(Apply(s, read), steps, u, read.tx);
  }

  // ---------------------------------------------------------------- overlaps that happen

  lemma {:induction false} Extend(s: Joint, steps: seq<Step>, u: Joint, step: Step) returns (longer: seq<Step>, v: Joint)
    requires Run(s, steps, u) && Enabled(u, step)
    ensures longer == steps + [step] && v == Apply(u, step) && Run(s, longer, v)
    decreases |steps|
  {
    longer, v := steps + [step], Apply(u, step);
    if steps == [] {
      assert longer[1..] == [];
    } else {
      var rest, w := Extend(Apply(s, steps[0]), steps[1..], u, step);
      assert longer[1..] == rest;
    }
  }

  /** Undisturbed, the statements of a resolution do what the call does as one step. */
  lemma UndisturbedResolution(s: Joint, tx: Id, organization: Uuid, actor: Uuid, task: nat, cancel: bool, resolution: string)
    returns (steps: seq<Step>, u: Joint)
    requires tx !in s.resolving && Refusal(s.db, Op.ResolveTask(organization, actor, task, cancel, resolution)).None?
    ensures Run(s, steps, u) && u.db == Do(s.db, Op.ResolveTask(organization, actor, task, cancel, resolution))
    ensures u.resolving == s.resolving && u.deciding == s.deciding && u.decisions == s.decisions
  {
    steps, u := [], s;
    steps, u := Extend(s, steps, u, ReadTask(tx, organization, actor, task, cancel, resolution));
    steps, u := Extend(s, steps, u, RereadTask(tx));
    steps, u := Extend(s, steps, u, CommitTask(tx));
    assert u.resolving == s.resolving;
  }

  /** Undisturbed, the statements of a decision do what the call does as one step. */
  lemma UndisturbedDecision(s: Joint, tx: Id, organization: Uuid, actor: Uuid, review: nat, choice: Decision, justification: Option<string>)
    returns (steps: seq<Step>, u: Joint)
    requires tx !in s.deciding && Refusal(s.db, Op.Decide(organization, actor, review, Some(choice), justification)).None?
    ensures Run(s, steps, u) && u.db == Do(s.db, Op.Decide(organization, actor, review, Some(choice), justification))
    ensures u.deciding == s.deciding && u.resolving == s.resolving && u.decisions == s.decisions + [(review, choice)]
  {
    steps, u := [], s;
    steps, u := Extend(s, steps, u, ReadReview(tx, organization, actor, review, choice, justification));
    steps, u := Extend(s, steps, u, CountTasks(tx));
    steps, u := Extend(s, steps, u, RereadReview(tx));
    steps, u := Extend(s, steps, u, CommitDecision(tx));
    assert u.deciding == s.deciding;
  }

  /** Two calls have read an open task twice. */
  lemma BothResolving(s: Joint, task: nat, a: Id, b: Id) returns (steps: seq<Step>, u: Joint)
    requires task < |s.db.tasks| && s.db.tasks[task].state == Open && a != b && a !in s.resolving && b !in s.resolving
    ensures Run(s, steps, u) && u.db == s.db
    ensures var t := s.db.tasks[task];
      && a in u.resolving && u.resolving[a] == Resolving.Resolving(1, task, Closed(t, false, "A", s.db.now), Some(t))
      && b in u.resolving && u.resolving[b] == Resolving.Resolving(2, task, Closed(t, true, "B", s.db.now), Some(t))
  {
    var organization := s.db.tasks[task].organization;
    steps, u := [], s;
    steps, u := Extend(s, steps, u, ReadTask(a, organization, 1, task, false, "A"));
    steps, u := Extend(s, steps, u, ReadTask(b, organization, 2, task, true, "B"));
    steps, u := Extend(s, steps, u, RereadTask(a));
    steps, u := Extend(s, steps, u, RereadTask(b));
  }

  /** From every state with an open task, two overlapping calls can both close it: resolved by the one, then
      cancelled by the other, with a comment of each. */
  lemma ResolvedTwice(s: Joint, task: nat, a: Id, b: Id) returns (steps: seq<Step>, u: Joint)
    requires task < |s.db.tasks| && s.db.tasks[task].state == Open && a != b && a !in s.resolving && b !in s.resolving
    ensures Run(s, steps, u) && task < |u.db.tasks| && u.db.tasks[task].state == Cancelled
    ensures Resolutions(u.db.comments, task) == Resolutions(s.db.comments, task) + 2
  {
    steps, u := BothResolving(s, task, a, b);
    assert HasText("A") by { assert "A"[0] != ' '; }
    steps, u := Extend(s, steps, u, CommitTask(a));
    ResolutionsStep(s.db.comments, u.db.comments[|s.db.comments|], task);
    assert HasText("B") by { assert "B"[0] != ' '; }
    var comments := u.db.comments;
    steps, u := Extend(s, steps, u, CommitTask(b));
    ResolutionsStep(comments, u.db.comments[|comments|], task);
  }

  /** Two calls have read an undecided review without open tasks and counted its tasks. */
  lemma BothDeciding(s: Joint, review: nat, a: Id, b: Id) returns (steps: seq<Step>, u: Joint)
    requires review < |s.db.reviews| && !Final(s.db.reviews[review]) && a != b && a !in s.deciding && b !in s.deciding
    requires Clear(s.db, s.db.reviews[review].organization, review)
    ensures Run(s, steps, u) && u.db == s.db
    ensures var r := s.db.reviews[review];
      && a in u.deciding && u.deciding[a] == Deciding.Deciding(1, review, Approve, None, r, Some(Decided(r, 1, Approve, None, s.db.now)), None)
      && b in u.deciding
      && u.deciding[b] == Deciding.Deciding(2, review, Reject, Some("B"), r, Some(Decided(r, 2, Reject, Some("B"), s.db.now)), None)
  {
    var organization := s.db.reviews[review].organization;
    assert !IsJsSpace("B"[0]);
    steps, u := [], s;
    steps, u := Extend(s, steps, u, ReadReview(a, organization, 1, review, Approve, None));
    steps, u := Extend(s, steps, u, ReadReview(b, organization, 2, review, Reject, Some("B")));
    steps, u := Extend(s, steps, u, CountTasks(a));
    steps, u := Extend(s, steps, u, CountTasks(b));
  }

  /** From every state in which a review can be decided, two overlapping calls can approve it and then replace
      the approval by a rejection. */
  lemma ApprovalReplaced(s: Joint, review: nat, a: Id, b: Id) returns (steps: seq<Step>, m: Joint, last: Step)
    requires review < |s.db.reviews| && !Final(s.db.reviews[review]) && a != b && a !in s.deciding && b !in s.deciding
    requires Clear(s.db, s.db.reviews[review].organization, review)
    ensures Run(s, steps, m) && review < |m.db.reviews| && m.db.reviews[review].state == Approved
    ensures Enabled(m, last) && Apply(m, last).db.reviews[review].state == Rejected
  {
    steps, m := BothDeciding(s, review, a, b);
    steps, m := Extend(s, steps, m, RereadReview(a));
    steps, m := Extend(s, steps, m, RereadReview(b));
    steps, m := Extend(s, steps, m, CommitDecision(a));
    last := CommitDecision(b);
  }
}
