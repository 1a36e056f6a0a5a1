/** Reviews of document versions: tasks, comments and decisions. Every service call is one transaction. */
module Reviews {
  import opened Common

  type Uuid = nat
  type Time = nat

  datatype Decision = Approve | Reject | ReturnForComplement
  datatype ReviewState = Pending | InReview | ChangesRequested | Approved | Rejected
  datatype TaskState = Open | Resolved | Cancelled

  datatype Review = Review(
    organization: Uuid, version: Uuid, state: ReviewState, responsible: Option<Uuid>,
    decision: Option<Decision>, justification: Option<string>, decidedAt: Option<Time>)

  datatype Task = Task(
    organization: Uuid, review: nat, title: string, responsible: Uuid, state: TaskState,
    resolution: Option<string>, resolvedAt: Option<Time>)

  datatype Comment = Comment(organization: Uuid, review: nat, task: Option<nat>, author: Uuid, message: string)

  /** The tables; a row's identifier is its position, since rows are never deleted. */
  datatype State = State(
    reviews: seq<Review>, tasks: seq<Task>, comments: seq<Comment>, members: set<(Uuid, Uuid)>, now: Time)

  const Init := State([], [], [], {}, 0)

  datatype Error =
    | ReviewNotFound | MemberNotFound | TaskNotFound | NotOpen | UnknownDecision | JustificationRequired
    | FinalDecision | OpenPendencies | ConstraintViolated

  // ---------------------------------------------------------------- checks

  predicate NeedsJustification(d: Decision) { d != Approve }

  /** `validateReviewDecision`; an unknown decision is `None`. */
  function ValidateReviewDecision(decision: Option<Decision>, justification: Option<string>): Result<Decision, Error> {
    if decision.None? then Err(UnknownDecision)
    else if NeedsJustification(decision.value) && (justification.None? || Blank(justification.value)) then Err(JustificationRequired)
    else Ok(decision.value)
  }

  /** SQL's `length(trim(s)) > 0`: `trim` strips spaces and nothing else. */
  predicate HasText(s: string) { exists i :: 0 <= i < |s| && s[i] != ' ' }

  /** What the service calls a justification always satisfies the database's own constraint. */
  lemma {:induction false} NotBlankHasText(s: string)
    requires !Blank(s)
    ensures HasText(s)
  {
    var i :| 0 <= i < |s| && !IsJsSpace(s[i]);
    assert s[i] != ' ';
  }

  function OpenTasks(tasks: seq<Task>, organization: Uuid, review: nat): (n: nat)
    ensures n == 0 <==> forall i :: 0 <= i < |tasks| ==> !IsOpen(tasks[i], organization, review)
  {
    if tasks == [] then 0
    else
      OpenTasks(tasks[..|tasks| - 1], organization, review)
      + if IsOpen(tasks[|tasks| - 1], organization, review) then 1 else 0
  }

  predicate IsOpen(t: Task, organization: Uuid, review: nat) {
    t.organization == organization && t.review == review && t.state == Open
  }

  // ---------------------------------------------------------------- operations

  datatype Op =
    | Insert(organization: Uuid, version: Uuid)
    | CreateTask(organization: Uuid, actor: Uuid, review: nat, title: string, responsible: Option<Uuid>)
    | ResolveTask(organization: Uuid, actor: Uuid, task: nat, cancel: bool, resolution: string)
    | AddComment(organization: Uuid, actor: Uuid, review: nat, message: string)
    | Decide(organization: Uuid, actor: Uuid, review: nat, decision: Option<Decision>, justification: Option<string>)
    | SetMember(organization: Uuid, user: Uuid, active: bool)
    | Tick(elapsed: Time)

  function StateOf(d: Decision): ReviewState {
    match d
    case Approve => Approved
    case Reject => Rejected
    case ReturnForComplement => ChangesRequested
  }

  predicate Final(r: Review) { r.state == Approved || r.state == Rejected }

  predicate Visible(s: State, organization: Uuid, review: nat) {
    review < |s.reviews| && s.reviews[review].organization == organization
  }

  /** The error of an operation, if any. */
  function Refusal(s: State, op: Op): Option<Error> {
    match op
    case Insert(organization, version) =>
      if exists i :: 0 <= i < |s.reviews| && s.reviews[i].version == version then Some(ConstraintViolated) else None
    case CreateTask(organization, actor, review, _, responsible) =>
      if !Visible(s, organization, review) then Some(ReviewNotFound)
      else if (organization, Default(responsible, actor)) !in s.members then Some(MemberNotFound)
      else None
    case ResolveTask(organization, _, task, _, resolution) =>
      if task >= |s.tasks| || s.tasks[task].organization != organization then Some(TaskNotFound)
      else if s.tasks[task].state != Open then Some(NotOpen)
      else if !HasText(resolution) then Some(ConstraintViolated)
      else None
    case AddComment(organization, _, review, _) =>
      if Visible(s, organization, review) then None else Some(ReviewNotFound)
    case Decide(organization, _, review, decision, justification) =>
      if ValidateReviewDecision(decision, justification).Err? then Some(ValidateReviewDecision(decision, justification).error)
      else if !Visible(s, organization, review) then Some(ReviewNotFound)
      else if Final(s.reviews[review]) then Some(FinalDecision)
      else if OpenTasks(s.tasks, organization, review) > 0 then Some(OpenPendencies)
      else None
    case SetMember(_, _, _) => None
    case Tick(_) => None
  }

  function Default<T>(o: Option<T>, d: T): T { if o.Some? then o.value else d }

  function Closed(t: Task, cancel: bool, resolution: string, now: Time): Task {
    t.(state := if cancel then Cancelled else Resolved, resolution := Some(resolution), resolvedAt := Some(now))
  }

  function Decided(r: Review, actor: Uuid, d: Decision, justification: Option<string>, now: Time): Review {
    r.(state := StateOf(d), decision := Some(d), justification := justification, decidedAt := Some(now),
       responsible := Some(Default(r.responsible, actor)))
  }

  /** A refused operation changes nothing. */
  function Do(s: State, op: Op): State {
    if Refusal(s, op).Some? then s
    else match op
      case Insert(organization, version) =>
        s.(reviews := s.reviews + [Review(organization, version, Pending, None, None, None, None)])
      case CreateTask(organization, actor, review, title, responsible) =>
        var r := s.reviews[review];
        s.(tasks := s.tasks + [Task(organization, review, title, Default(responsible, actor), Open, None, None)],
           reviews := if r.state == Pending then s.reviews[review := r.(state := InReview)] else s.reviews)
      case ResolveTask(organization, actor, task, cancel, resolution) =>
        var t := s.tasks[task];
        s.(tasks := s.tasks[task := Closed(t, cancel, resolution, s.now)],
           comments := s.comments + [Comment(organization, t.review, Some(task), actor, resolution)])
      case AddComment(organization, actor, review, message) =>
        s.(comments := s.comments + [Comment(organization, review, None, actor, message)])
      case Decide(organization, actor, review, decision, justification) =>
        s.(reviews := s.reviews[review := Decided(s.reviews[review], actor, decision.value, justification, s.now)])
      case SetMember(organization, user, active) =>
        s.(members := if active then s.members + {(organization, user)} else s.members - {(organization, user)})
      case Tick(elapsed) => s.(now := s.now + elapsed)
  }

  function DoAll(s: State, ops: seq<Op>): State {
    if ops == [] then s else Do(DoAll(s, ops[..|ops| - 1]), ops[|ops| - 1])
  }

  // ---------------------------------------------------------------- invariant

  /** State and decision correspond, and a negative decision says why. */
  ghost predicate ReviewOk(r: Review) {
    && (r.state == Approved <==> r.decision == Some(Approve))
    && (r.state == Rejected <==> r.decision == Some(Reject))
    && (r.state == ChangesRequested <==> r.decision == Some(ReturnForComplement))
    && (r.decision.Some? <==> r.decidedAt.Some?)
    && (r.decision.Some? ==> r.responsible.Some?)
    && (r.decision.Some? && r.decision.value != Approve ==> r.justification.Some? && !Blank(r.justification.value) && HasText(r.justification.value))
  }

  /** How many comments carry the identifier of a task. */
  function Resolutions(comments: seq<Comment>, task: nat): nat {
    if comments == [] then 0
    else Resolutions(comments[..|comments| - 1], task) + if comments[|comments| - 1].task == Some(task) then 1 else 0
  }

  ghost predicate IsResolution(c: Comment, t: Task, task: nat) {
    c.task == Some(task) ==> t.resolution == Some(c.message) && c.review == t.review && c.organization == t.organization
  }

  /** A task belongs to a visible review that is no longer pending. */
  ghost predicate TaskPlaced(s: State, t: Task) {
    Visible(s, t.organization, t.review) && s.reviews[t.review].state != Pending
  }

  /** A task has exactly one resolution comment if it left OPEN, with its text, and none otherwise. */
  ghost predicate TaskLogged(comments: seq<Comment>, t: Task, task: nat) {
    && Resolutions(comments, task) == (if t.state == Open then 0 else 1)
    && (t.state == Open <==> t.resolvedAt.None?) && (t.state == Open <==> t.resolution.None?)
    && (t.resolution.Some? ==> HasText(t.resolution.value))
    && (forall i :: 0 <= i < |comments| ==> IsResolution(comments[i], t, task))
  }

  ghost predicate TaskOk(s: State, task: nat)
    requires task < |s.tasks|
  {
    TaskPlaced(s, s.tasks[task]) && TaskLogged(s.comments, s.tasks[task], task)
  }

  ghost predicate CommentOk(s: State, c: Comment) {
    Visible(s, c.organization, c.review) && (c.task.Some? ==> c.task.value < |s.tasks|)
  }

  ghost predicate Inv(s: State) {
    && (forall i :: 0 <= i < |s.reviews| ==> ReviewOk(s.reviews[i]))
    && (forall i :: 0 <= i < |s.tasks| ==> TaskOk(s, i))
    && (forall i :: 0 <= i < |s.comments| ==> CommentOk(s, s.comments[i]))
  }

  lemma ResolutionsStep(comments: seq<Comment>, c: Comment, task: nat)
    ensures Resolutions(comments + [c], task) == Resolutions(comments, task) + if c.task == Some(task) then 1 else 0
  {
    assert (comments + [c])[..|comments|] == comments;
  }

  lemma {:induction false} NoResolutions(comments: seq<Comment>, task: nat)
    requires forall i :: 0 <= i < |comments| ==> comments[i].task != Some(task)
    ensures Resolutions(comments, task) == 0
  {
    if comments != [] { NoResolutions(comments[..|comments| - 1], task); }
  }

  /** A comment that does not resolve a task keeps the log of that task. */
  lemma LoggedWithOther(comments: seq<Comment>, t: Task, task: nat, c: Comment)
    requires TaskLogged(comments, t, task) && c.task != Some(task)
    ensures TaskLogged(comments + [c], t, task)
  {
    ResolutionsStep(comments, c, task);
    var more := comments + [c];
    forall i | 0 <= i < |more| ensures IsResolution(more[i], t, task) {
      if i < |comments| { assert IsResolution(comments[i], t, task); }
    }
  }

  lemma LoggedWhenClosed(comments: seq<Comment>, t: Task, task: nat, actor: Uuid, cancel: bool, resolution: string, now: Time)
    requires TaskLogged(comments, t, task) && t.state == Open && HasText(resolution)
    ensures TaskLogged(comments + [Comment(t.organization, t.review, Some(task), actor, resolution)], Closed(t, cancel, resolution, now), task)
  {
    var c := Comment(t.organization, t.review, Some(task), actor, resolution);
    ResolutionsStep(comments, c, task);
    var more := comments + [c];
    forall i | 0 <= i < |more| ensures IsResolution(more[i], Closed(t, cancel, resolution, now), task) {
      if i < |comments| { assert IsResolution(comments[i], t, task); }
    }
  }

  lemma TaskKept(s: State, op: Op, task: nat)
    requires Inv(s) && Refusal(s, op).None? && task < |s.tasks|
    ensures TaskOk(Do(s, op), task)
  {
    var u := Do(s, op);
    assert TaskOk(s, task);
    assert TaskPlaced(u, u.tasks[task]);
    if op.ResolveTask? && op.task == task {
      LoggedWhenClosed(s.comments, s.tasks[task], task, op.actor, op.cancel, op.resolution, s.now);
    } else if |u.comments| > |s.comments| {
      LoggedWithOther(s.comments, s.tasks[task], task, u.comments[|s.comments|]);
    }
  }

  lemma NewTaskOk(s: State, op: Op)
    requires Inv(s) && Refusal(s, op).None? && op.CreateTask?
    ensures TaskOk(Do(s, op), |s.tasks|)
  {
    forall j | 0 <= j < |s.comments| ensures s.comments[j].task != Some(|s.tasks|) { assert CommentOk(s, s.comments[j]); }
    NoResolutions(s.comments, |s.tasks|);
  }

  lemma StepKeeps(s: State, op: Op)
    requires Inv(s)
    ensures Inv(Do(s, op))
  {
    if Refusal(s, op).None? {
      var u := Do(s, op);
      forall i | 0 <= i < |u.tasks| ensures TaskOk(u, i) {
        if i < |s.tasks| { TaskKept(s, op, i); } else { NewTaskOk(s, op); }
      }
      forall i | 0 <= i < |u.reviews| ensures ReviewOk(u.reviews[i]) {
        assert i < |s.reviews| ==> ReviewOk(s.reviews[i]);
        if op.Decide? && i == op.review && op.decision.value != Approve { NotBlankHasText(op.justification.value); }
      }
      forall i | 0 <= i < |u.comments| ensures CommentOk(u, u.comments[i]) {
        assert i < |s.comments| ==> CommentOk(s, s.comments[i]);
        assert op.ResolveTask? ==> TaskOk(s, op.task);
      }
    }
  }

  lemma {:induction false} RunKeeps(s: State, ops: seq<Op>)
    requires Inv(s)
    ensures Inv(DoAll(s, ops))
  {
    if ops != [] {
      RunKeeps(s, ops[..|ops| - 1]);
      StepKeeps(DoAll(s, ops[..|ops| - 1]), ops[|ops| - 1]);
    }
  }

  // ---------------------------------------------------------------- guarantees

  /** A completed version gets one review, PENDING and with nothing noted on it. */
  lemma InsertWrites(s: State, organization: Uuid, version: Uuid)
    ensures
      var u := Do(s, Insert(organization, version));
      if exists i :: 0 <= i < |s.reviews| && s.reviews[i].version == version then u == s
      else u == s.(reviews := s.reviews + [Review(organization, version, Pending, None, None, None, None)])
  {
  }

  /** Over every run, state and decision of every review correspond and negative decisions are justified. */
  lemma {:induction false} ReviewsAreCoherent(ops: seq<Op>, review: nat)
    requires review < |DoAll(Init, ops).reviews|
    ensures ReviewOk(DoAll(Init, ops).reviews[review])
  {
    RunKeeps(Init, ops);
  }

  /** A task that left OPEN never changes again. */
  lemma {:induction false} ClosedForever(s: State, ops: seq<Op>, task: nat)
    requires task < |s.tasks| && s.tasks[task].state != Open
    ensures task < |DoAll(s, ops).tasks| && DoAll(s, ops).tasks[task] == s.tasks[task]
  {
    if ops != [] { ClosedForever(s, ops[..|ops| - 1], task); }
  }

  /** Comments are only ever appended. */
  lemma {:induction false} CommentsGrow(s: State, ops: seq<Op>)
    ensures s.comments <= DoAll(s, ops).comments
  {
    if ops != [] { CommentsGrow(s, ops[..|ops| - 1]); }
  }

  /** Over every run, a task has exactly one resolution comment when it left OPEN, with its text, and none
      before; and whatever follows, no comment goes and that one stays the only one. */
  lemma OneCommentPerResolution(ops: seq<Op>, after: seq<Op>, task: nat)
    requires task < |DoAll(Init, ops).tasks|
    ensures var s := DoAll(Init, ops);
      && Resolutions(s.comments, task) == (if s.tasks[task].state == Open then 0 else 1)
      && (s.tasks[task].state != Open <==> s.tasks[task].resolvedAt.Some?)
      && forall i :: 0 <= i < |s.comments| && s.comments[i].task == Some(task) ==>
           s.tasks[task].resolution == Some(s.comments[i].message) && s.comments[i].review == s.tasks[task].review
    ensures var s, u := DoAll(Init, ops), DoAll(DoAll(Init, ops), after);
      s.comments <= u.comments && (s.tasks[task].state != Open ==> Resolutions(u.comments, task) == 1)
  {
    RunKeeps(Init, ops);
    var s := DoAll(Init, ops);
    assert TaskOk(s, task);
    assert forall i :: 0 <= i < |s.comments| ==> IsResolution(s.comments[i], s.tasks[task], task);
    CommentsGrow(s, after);
    if s.tasks[task].state != Open {
      RunKeeps(s, after);
      ClosedForever(s, after, task);
      assert TaskOk(DoAll(s, after), task);
    }
  }

  /** No review that has a task still counts as pending. */
  lemma {:induction false} TasksLeavePending(ops: seq<Op>, task: nat)
    requires task < |DoAll(Init, ops).tasks|
    ensures var s := DoAll(Init, ops); s.tasks[task].review < |s.reviews| && s.reviews[s.tasks[task].review].state != Pending
  {
    RunKeeps(Init, ops);
    assert TaskOk(DoAll(Init, ops), task);
  }

  /** The decision fields of a review change only in a step that decides it, while it has no open task and
      no final decision; and that step is granted exactly then. */
  lemma DecidedWithoutPendencies(ops: seq<Op>, op: Op, review: nat)
    requires review < |DoAll(Init, ops).reviews|
    ensures var s := DoAll(Init, ops); var u := Do(s, op);
      && review < |u.reviews|
      && (u.reviews[review].decision != s.reviews[review].decision || u.reviews[review].decidedAt != s.reviews[review].decidedAt
          || u.reviews[review].justification != s.reviews[review].justification ==>
            && op.Decide? && op.review == review && !Final(s.reviews[review])
            && forall i :: 0 <= i < |s.tasks| ==> s.tasks[i].review == review ==> s.tasks[i].state != Open)
      && (op.Decide? && op.review == review && op.organization == s.reviews[review].organization
          && ValidateReviewDecision(op.decision, op.justification).Ok? ==>
            (Refusal(s, op).None? <==>
              !Final(s.reviews[review]) && forall i :: 0 <= i < |s.tasks| ==> s.tasks[i].review == review ==> s.tasks[i].state != Open))
  {
    RunKeeps(Init, ops);
    var s := DoAll(Init, ops);
    forall i | 0 <= i < |s.tasks| && s.tasks[i].review == review
      ensures s.tasks[i].organization == s.reviews[review].organization
    {
      assert TaskOk(s, i);
    }
    if op.Decide? && op.review == review && Refusal(s, op).None? {
      forall i | 0 <= i < |s.tasks| && s.tasks[i].review == review ensures s.tasks[i].state != Open {
        assert !IsOpen(s.tasks[i], op.organization, review);
      }
    }
  }

  /** A review with a final decision never changes again, whatever is done to its tasks. */
  lemma {:induction false} FinalForever(s: State, ops: seq<Op>, review: nat)
    requires review < |s.reviews| && Final(s.reviews[review])
    ensures review < |DoAll(s, ops).reviews| && DoAll(s, ops).reviews[review] == s.reviews[review]
  {
    if ops != [] { FinalForever(s, ops[..|ops| - 1], review); }
  }

  predicate Opens(s: State, op: Op, review: nat) {
    op.CreateTask? && op.review == review && Refusal(s, op).None?
  }

  /** Without a creation for it, a review without open tasks stays so. */
  lemma StaysClear(s: State, op: Op, organization: Uuid, review: nat)
    requires forall i :: 0 <= i < |s.tasks| ==> !IsOpen(s.tasks[i], organization, review)
    requires !Opens(s, op, review)
    ensures forall i :: 0 <= i < |Do(s, op).tasks| ==> !IsOpen(Do(s, op).tasks[i], organization, review)
  {
    var u := Do(s, op);
    forall i | 0 <= i < |u.tasks| ensures !IsOpen(u.tasks[i], organization, review) {
      if i < |s.tasks| { assert !IsOpen(s.tasks[i], organization, review); }
    }
  }

  predicate Clear(s: State, organization: Uuid, review: nat) { OpenTasks(s.tasks, organization, review) == 0 }

  /** None of the operations creates a task for the review. */
  ghost predicate NeverOpens(s: State, ops: seq<Op>, review: nat) {
    forall n :: 0 <= n < |ops| ==> !Opens(DoAll(s, ops[..n]), ops[n], review)
  }

  ghost predicate AlwaysClear(s: State, ops: seq<Op>, organization: Uuid, review: nat) {
    forall n :: 0 <= n <= |ops| ==> Clear(DoAll(s, ops[..n]), organization, review)
  }

  lemma OpensIsOpen(s: State, op: Op, organization: Uuid, review: nat)
    requires Visible(s, organization, review) && Opens(s, op, review)
    ensures !Clear(Do(s, op), organization, review)
  {
    assert IsOpen(Do(s, op).tasks[|s.tasks|], organization, review);
  }

  lemma {:induction false} VisibleStays(s: State, ops: seq<Op>, organization: Uuid, review: nat)
    requires Visible(s, organization, review)
    ensures Visible(DoAll(s, ops), organization, review)
  {
    if ops != [] { VisibleStays(s, ops[..|ops| - 1], organization, review); }
  }

  lemma NeverOpensPrefix(s: State, ops: seq<Op>, review: nat, n: nat)
    requires NeverOpens(s, ops, review) && n <= |ops|
    ensures NeverOpens(s, ops[..n], review)
  {
    forall i | 0 <= i < n ensures !Opens(DoAll(s, ops[..n][..i]), ops[..n][i], review) {
      assert ops[..n][..i] == ops[..i];
      assert !Opens(DoAll(s, ops[..i]), ops[i], review);
    }
  }

  lemma {:induction false} ClearUnlessOpened(s: State, ops: seq<Op>, organization: Uuid, review: nat)
    requires Visible(s, organization, review) && Clear(s, organization, review) && NeverOpens(s, ops, review)
    ensures Clear(DoAll(s, ops), organization, review)
  {
    if ops != [] {
      var m := |ops| - 1;
      var init := ops[..m];
      NeverOpensPrefix(s, ops, review, m);
      ClearUnlessOpened(s, init, organization, review);
      assert !Opens(DoAll(s, ops[..m]), ops[m], review);
      StaysClear(DoAll(s, init), ops[m], organization, review);
    }
  }

  lemma AlwaysClearUnlessOpened(s: State, ops: seq<Op>, organization: Uuid, review: nat)
    requires Visible(s, organization, review) && Clear(s, organization, review) && NeverOpens(s, ops, review)
    ensures AlwaysClear(s, ops, organization, review)
  {
    forall n | 0 <= n <= |ops| ensures Clear(DoAll(s, ops[..n]), organization, review) {
      NeverOpensPrefix(s, ops, review, n);
      ClearUnlessOpened(s, ops[..n], organization, review);
    }
  }

  lemma NotClearOnceOpened(s: State, ops: seq<Op>, organization: Uuid, review: nat, n: nat)
    requires Visible(s, organization, review) && n < |ops| && Opens(DoAll(s, ops[..n]), ops[n], review)
    ensures !AlwaysClear(s, ops, organization, review)
  {
    VisibleStays(s, ops[..n], organization, review);
    OpensIsOpen(DoAll(s, ops[..n]), ops[n], organization, review);
    assert ops[..n + 1] == ops[..n] + [ops[n]];
    DoAllNext(s, ops[..n], ops[n]);
    assert !Clear(DoAll(s, ops[..n + 1]), organization, review);
  }

  /** Over every continuation, a finally decided review without open tasks stays without them all along
      exactly if no task is created for it; what happens to other reviews and closed tasks does not matter. */
  lemma FinalStaysClearIff(before: seq<Op>, after: seq<Op>, review: nat)
    requires review < |DoAll(Init, before).reviews| && Final(DoAll(Init, before).reviews[review])
    requires Clear(DoAll(Init, before), DoAll(Init, before).reviews[review].organization, review)
    ensures AlwaysClear(DoAll(Init, before), after, DoAll(Init, before).reviews[review].organization, review)
      <==> NeverOpens(DoAll(Init, before), after, review)
  {
    var s := DoAll(Init, before);
    var organization := s.reviews[review].organization;
    if NeverOpens(s, after, review) {
      AlwaysClearUnlessOpened(s, after, organization, review);
    } else {
      var n :| 0 <= n < |after| && Opens(DoAll(s, after[..n]), after[n], review);
      NotClearOnceOpened(s, after, organization, review, n);
    }
  }

  lemma DoAllNext(s: State, ops: seq<Op>, op: Op)
    ensures DoAll(s, ops + [op]) == Do(DoAll(s, ops), op)
  {
    assert (ops + [op])[..|ops|] == ops;
  }

  /** Tasks can be opened after the final decision: approve, then create a task. */
  lemma OpenTaskAfterApproval() returns (ops: seq<Op>)
    ensures var s := DoAll(Init, ops); |s.reviews| == 1 && s.reviews[0].state == Approved && OpenTasks(s.tasks, 1, 0) == 1
  {
    var a := Do(Init, SetMember(1, 7, true));
    var b := Do(a, Insert(1, 5));
    var c := Do(b, Decide(1, 7, 0, Some(Approve), None));
    DoAllNext(Init, [], SetMember(1, 7, true));
    ops := [] + [SetMember(1, 7, true)];
    DoAllNext(Init, ops, Insert(1, 5));
    ops := ops + [Insert(1, 5)];
    DoAllNext(Init, ops, Decide(1, 7, 0, Some(Approve), None));
    ops := ops + [Decide(1, 7, 0, Some(Approve), None)];
    DoAllNext(Init, ops, CreateTask(1, 7, 0, [], None));
    ops := ops + [CreateTask(1, 7, 0, [], None)];
    assert Do(c, CreateTask(1, 7, 0, [], None)).tasks[..0] == [];
  }

  // ---------------------------------------------------------------- overlapping calls

  /** `manager.save(entity)` reads the row again, as `reread`, and then updates the columns in which the entity
      differs from it; the row found by the update is `row`. */
  function Save(entity: Review, reread: Review, row: Review): Review {
    row.(state := if entity.state != reread.state then entity.state else row.state,
         responsible := if entity.responsible != reread.responsible then entity.responsible else row.responsible,
         decision := if entity.decision != reread.decision then entity.decision else row.decision,
         justification := if entity.justification != reread.justification then entity.justification else row.justification,
         decidedAt := if entity.decidedAt != reread.decidedAt then entity.decidedAt else row.decidedAt)
  }

  /** Nothing is noted on a review before its decision. */
  ghost predicate Blanks(r: Review) {
    r.decision.None? ==> r.justification.None? && r.decidedAt.None? && r.responsible.None?
  }

  lemma {:induction false} UndecidedIsBlank(ops: seq<Op>, review: nat)
    requires review < |DoAll(Init, ops).reviews|
    ensures Blanks(DoAll(Init, ops).reviews[review])
  {
    var s := DoAll(Init, ops[..|ops| - 1]);
    if review < |s.reviews| { UndecidedIsBlank(ops[..|ops| - 1], review); }
  }

  /** The row of a review at three moments of a run: when `createTask` reads it, when its `save` reads it again,
      and when the update takes place. */
  ghost predicate Moments(ops: seq<Op>, read: nat, reread: nat, review: nat) {
    read <= reread <= |ops| && review < |DoAll(Init, ops[..read]).reviews|
    && review < |DoAll(Init, ops[..reread]).reviews| && review < |DoAll(Init, ops).reviews|
  }

  lemma DecisionStays(s: State, ops: seq<Op>, review: nat)
    requires review < |s.reviews|
    ensures review < |DoAll(s, ops).reviews|
    ensures s.reviews[review].decision.Some? ==> DoAll(s, ops).reviews[review].decision.Some?
    ensures s.reviews[review].state != Pending ==> DoAll(s, ops).reviews[review].state != Pending
    ensures DoAll(s, ops).reviews[review].organization == s.reviews[review].organization
    ensures DoAll(s, ops).reviews[review].version == s.reviews[review].version
  {
    if ops != [] { DecisionStays(s, ops[..|ops| - 1], review); }
  }

  /** A task creation that read a PENDING review saves it while other calls commit in between. Afterwards
      state and decision correspond unless the row was still PENDING when it was read again and was decided
      before the update; the decision columns survive exactly if no decision was committed before the row
      was read again; and a final decision survives untouched exactly if another task creation had moved the
      row on, undecided, by then. */
  lemma StaleStartCoherentIff(ops: seq<Op>, read: nat, reread: nat, review: nat)
    requires Moments(ops, read, reread, review) && DoAll(Init, ops[..read]).reviews[review].state == Pending
    ensures
      var again, row := DoAll(Init, ops[..reread]).reviews[review], DoAll(Init, ops).reviews[review];
      var saved := Save(DoAll(Init, ops[..read]).reviews[review].(state := InReview), again, row);
      && (ReviewOk(saved) <==> !(again.state == Pending && row.decision.Some?))
      && (saved.decision == row.decision && saved.justification == row.justification && saved.decidedAt == row.decidedAt
          <==> again.decision.None?)
      && (Final(row) ==> (saved == row <==> again.state == InReview))
  {
    var entity := DoAll(Init, ops[..read]).reviews[review].(state := InReview);
    var again, row := DoAll(Init, ops[..reread]).reviews[review], DoAll(Init, ops).reviews[review];
    RunKeeps(Init, ops[..read]);
    RunKeeps(Init, ops[..reread]);
    RunKeeps(Init, ops);
    assert ReviewOk(DoAll(Init, ops[..read]).reviews[review]) && ReviewOk(again) && ReviewOk(row);
    UndecidedIsBlank(ops[..read], review);
    UndecidedIsBlank(ops[..reread], review);
    Resumes(Init, ops[..reread], read);
    assert ops[..reread][..read] == ops[..read];
    DecisionStays(DoAll(Init, ops[..read]), ops[..reread][read..], review);
    Resumes(Init, ops, reread);
    DecisionStays(DoAll(Init, ops[..reread]), ops[reread..], review);
    if Final(again) { FinalForever(DoAll(Init, ops[..reread]), ops[reread..], review); }
  }

  lemma {:induction false} Resumes(s: State, ops: seq<Op>, n: nat)
    requires n <= |ops|
    ensures DoAll(s, ops) == DoAll(DoAll(s, ops[..n]), ops[n..])
  {
    if n == |ops| {
      assert ops[..n] == ops;
    } else {
      var init := ops[..|ops| - 1];
      Resumes(s, init, n);
      assert init[..n] == ops[..n] && ops[n..][..|ops| - 1 - n] == init[n..];
    }
  }

  // ---------------------------------------------------------------- the service

  class ReviewsService {
    var reviews: seq<Review>
    var tasks: seq<Task>
    var comments: seq<Comment>
    var members: set<(Uuid, Uuid)>
    var now: Time

    ghost function View(): State
      reads this
    {
      State(reviews, tasks, comments, members, now)
    }

    constructor ()
      ensures View() == Init
    {
      reviews, tasks, comments, members, now := [], [], [], {}, 0;
    }

    method CreateTask(organization: Uuid, actor: Uuid, review: nat, title: string, responsible: Option<Uuid>)
      returns (r: Result<nat, Error>)
      modifies this`reviews, this`tasks
      ensures View() == Do(old(View()), Op.CreateTask(organization, actor, review, title, responsible))
      ensures var refusal := Refusal(old(View()), Op.CreateTask(organization, actor, review, title, responsible));
        r == if refusal.Some? then Err(refusal.value) else Ok(|old(tasks)|)
      ensures
        var visible := review < |old(reviews)| && old(reviews)[review].organization == organization;
        var who := if responsible.Some? then responsible.value else actor;
        r == if !visible then Err(ReviewNotFound) else if (organization, who) !in members then Err(MemberNotFound) else Ok(|old(tasks)|)
      ensures r.Err? ==> tasks == old(tasks) && reviews == old(reviews)
      ensures r.Ok? ==>
        var who := if responsible.Some? then responsible.value else actor;
        && tasks == old(tasks) + [Task(organization, review, title, who, Open, None, None)]
        && reviews == if old(reviews)[review].state == Pending
                      then old(reviews)[review := old(reviews)[review].(state := InReview)] else old(reviews)
    {
      if review >= |reviews| || reviews[review].organization != organization { return Err(ReviewNotFound); }
      var responsibleId := if responsible.Some? then responsible.value else actor;
      if (organization, responsibleId) !in members { return Err(MemberNotFound); }
      tasks := tasks + [Task(organization, review, title, responsibleId, Open, None, None)];
      if reviews[review].state == Pending {
        reviews := reviews[review := reviews[review].(state := InReview)];
      }
      r := Ok(|tasks| - 1);
    }

    method ResolveTask(organization: Uuid, actor: Uuid, task: nat, cancel: bool, resolution: string)
      returns (r: Result<Task, Error>)
      modifies this`tasks, this`comments
      ensures View() == Do(old(View()), Op.ResolveTask(organization, actor, task, cancel, resolution))
      ensures var refusal := Refusal(old(View()), Op.ResolveTask(organization, actor, task, cancel, resolution));
        if refusal.Some? then r == Err(refusal.value) else task < |tasks| && r == Ok(tasks[task])
      ensures
        var visible := task < |old(tasks)| && old(tasks)[task].organization == organization;
        var hasText := exists i :: 0 <= i < |resolution| && resolution[i] != ' ';
        if !visible then r == Err(TaskNotFound)
        else if old(tasks)[task].state != Open then r == Err(NotOpen)
        else if !hasText then r == Err(ConstraintViolated)
        else
          var t := old(tasks)[task];
          && r == Ok(Task(t.organization, t.review, t.title, t.responsible, if cancel then Cancelled else Resolved, Some(resolution), Some(now)))
          && tasks == old(tasks)[task := r.value]
          && comments == old(comments) + [Comment(organization, t.review, Some(task), actor, resolution)]
      ensures r.Err? ==> tasks == old(tasks) && comments == old(comments)
    {
      if task >= |tasks| || tasks[task].organization != organization { return Err(TaskNotFound); }
      var t := tasks[task];
      if t.state != Open { return Err(NotOpen); }
      t := t.(state := if cancel then Cancelled else Resolved);
      t := t.(resolution := Some(resolution));
      t := t.(resolvedAt := Some(now));
      // The table's own constraint; a violation rolls the transaction back.
      if !HasText(resolution) { return Err(ConstraintViolated); }
      tasks := tasks[task := t];
      comments := comments + [Comment(organization, t.review, Some(task), actor, resolution)];
      r := Ok(t);
    }

    method AddComment(organization: Uuid, actor: Uuid, review: nat, message: string) returns (r: Result<nat, Error>)
      modifies this`comments
      ensures View() == Do(old(View()), Op.AddComment(organization, actor, review, message))
      ensures
        var visible := review < |reviews| && reviews[review].organization == organization;
        r == if visible then Ok(|old(comments)|) else Err(ReviewNotFound)
      ensures comments == if r.Ok? then old(comments) + [Comment(organization, review, None, actor, message)] else old(comments)
    {
      if review >= |reviews| || reviews[review].organization != organization { return Err(ReviewNotFound); }
      comments := comments + [Comment(organization, review, None, actor, message)];
      r := Ok(|comments| - 1);
    }

    method Decide(organization: Uuid, actor: Uuid, review: nat, decision: Option<Decision>, justification: Option<string>)
      returns (r: Result<Review, Error>)
      modifies this`reviews
      ensures View() == Do(old(View()), Op.Decide(organization, actor, review, decision, justification))
      ensures var refusal := Refusal(old(View()), Op.Decide(organization, actor, review, decision, justification));
        if refusal.Some? then r == Err(refusal.value) else review < |reviews| && r == Ok(reviews[review])
      ensures r.Err? ==> reviews == old(reviews)
      ensures
        var justified := justification.Some? && exists i :: 0 <= i < |justification.value| && !IsJsSpace(justification.value[i]);
        var visible := review < |old(reviews)| && old(reviews)[review].organization == organization;
        var pending := exists i :: 0 <= i < |tasks| && tasks[i].organization == organization && tasks[i].review == review && tasks[i].state == Open;
        if decision == None then r == Err(UnknownDecision)
        else if decision != Some(Approve) && !justified then r == Err(JustificationRequired)
        else if !visible then r == Err(ReviewNotFound)
        else if old(reviews)[review].state in {Approved, Rejected} then r == Err(FinalDecision)
        else if pending then r == Err(OpenPendencies)
        else
          var before := old(reviews)[review];
          && r == Ok(Review(
               before.organization, before.version,
               match decision.value case Approve => Approved case Reject => Rejected case ReturnForComplement => ChangesRequested,
               Some(if before.responsible.Some? then before.responsible.value else actor),
               decision, justification, Some(now)))
          && reviews == old(reviews)[review := r.value]
    {
      var checked := ValidateReviewDecision(decision, justification);
      if checked.Err? { return Err(checked.error); }
      if review >= |reviews| || reviews[review].organization != organization { return Err(ReviewNotFound); }
      var row := reviews[review];
      if row.state == Approved || row.state == Rejected { return Err(FinalDecision); }
      var openTasks := OpenTasks(tasks, organization, review);
      if openTasks > 0 { return Err(OpenPendencies); }
      row := row.(state := StateOf(checked.value));
      row := row.(decision := Some(checked.value), justification := justification, decidedAt := Some(now));
      row := row.(responsible := Some(if row.responsible.Some? then row.responsible.value else actor));
      reviews := reviews[review := row];
      r := Ok(row);
    }
  }
}
