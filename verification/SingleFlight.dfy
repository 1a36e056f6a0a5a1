/** The web client's requests and its shared token refresh, as the event loop runs them: every step is the
    code between two points where a request waits. Promise callbacks of one chain run one after the other,
    with callbacks of other chains in between. */
module SingleFlight {
  import opened Common

  type RequestId = nat
  type FlightId = nat

  /** What a request waits for. `OwnReply` is the reply to its first send, `Retried` to its second. */
  datatype Phase = OwnReply | Flight(id: FlightId) | Retried | Done(status: Option<nat>)

  /** `sends` and `joins` count the fetches of the request itself and the refreshes it waited for;
      `carried` is the token in the header of its latest send. */
  datatype Request = Request(auth: bool, phase: Phase, sends: nat, joins: nat, carried: Option<string>)

  /** A refresh between its fetch and the end of its promise chain. */
  datatype Refresh = Fetching | Parsed(token: Option<string>) | Stored(token: Option<string>) | Settled(token: Option<string>)

  /** `fetches` counts every call of `fetch`, for requests and for refreshes. */
  datatype State = State(
    accessToken: Option<string>, refreshPromise: Option<FlightId>, requests: seq<Request>, refreshes: seq<Refresh>, fetches: nat)

  const Init := State(None, None, [], [], 0)

  /** What JavaScript's `if (token)` tests. */
  predicate Truthy(token: Option<string>) { token.Some? && token.value != "" }

  /** The authorization header of a send. */
  function Header(s: State, auth: bool): Option<string> {
    if Truthy(s.accessToken) && !auth then s.accessToken else None
  }

  datatype Step =
    | Start(auth: bool)
    | Reply(r: RequestId, status: Option<nat>)
    | Replied(f: FlightId, token: Option<string>)
    | Store(f: FlightId)
    | Settle(f: FlightId)
    | Resume(r: RequestId)
    | SetAccessToken(token: Option<string>)

  predicate Waits(s: State, r: RequestId) {
    r < |s.requests| && (s.requests[r].phase == OwnReply || s.requests[r].phase == Retried)
  }

  predicate Enabled(s: State, step: Step) {
    match step
    case Start(_) => true
    case Reply(r, _) => Waits(s, r)
    case Replied(f, _) => f < |s.refreshes| && s.refreshes[f].Fetching?
    case Store(f) => f < |s.refreshes| && s.refreshes[f].Parsed?
    case Settle(f) => f < |s.refreshes| && s.refreshes[f].Stored?
    case Resume(r) =>
      && r < |s.requests| && s.requests[r].phase.Flight?
      && s.requests[r].phase.id < |s.refreshes| && s.refreshes[s.requests[r].phase.id].Settled?
    case SetAccessToken(_) => true
  }

  /** Whether a reply makes its request wait for a refresh. */
  predicate Renews(s: State, r: RequestId, status: Option<nat>)
    requires r < |s.requests|
  {
    s.requests[r].phase == OwnReply && status == Some(401) && !s.requests[r].auth
  }

  function Apply(s: State, step: Step): State
    requires Enabled(s, step)
  {
    match step
    case Start(auth) =>
      s.(requests := s.requests + [Request(auth, OwnReply, 1, 0, Header(s, auth))], fetches := s.fetches + 1)
    case Reply(r, status) =>
      var q := s.requests[r];
      if !Renews(s, r, status) then s.(requests := s.requests[r := q.(phase := Done(status))])
      else if s.refreshPromise.Some? then
        s.(requests := s.requests[r := q.(phase := Flight(s.refreshPromise.value), joins := q.joins + 1)])
      else
        s.(requests := s.requests[r := q.(phase := Flight(|s.refreshes|), joins := q.joins + 1)],
           refreshPromise := Some(|s.refreshes|), refreshes := s.refreshes + [Fetching], fetches := s.fetches + 1)
    case Replied(f, token) => s.(refreshes := s.refreshes[f := Parsed(token)])
    case Store(f) => s.(refreshes := s.refreshes[f := Stored(s.refreshes[f].token)], accessToken := s.refreshes[f].token)
    case Settle(f) => s.(refreshes := s.refreshes[f := Settled(s.refreshes[f].token)], refreshPromise := None)
    case Resume(r) =>
      var q := s.requests[r];
      if Truthy(s.refreshes[q.phase.id].token)
      then s.(requests := s.requests[r := q.(phase := Retried, sends := q.sends + 1, carried := Header(s, q.auth))], fetches := s.fetches + 1)
      else s.(requests := s.requests[r := q.(phase := Done(Some(401)))])
    case SetAccessToken(token) => s.(accessToken := token)
  }

  ghost predicate Run(s: State, steps: seq<Step>, u: State)
    decreases |steps|
  {
    if steps == [] then s == u else Enabled(s, steps[0]) && Run(Apply(s, steps[0]), steps[1..], u)
  }

  // ---------------------------------------------------------------- invariant

  /** How often a request has been sent and has waited for a refresh follows from where it stands. */
  ghost predicate RequestOk(s: State, q: Request) {
    && 1 <= q.sends <= 1 + q.joins && q.joins <= 1
    && (q.auth ==> q.joins == 0 && q.carried.None?)
    && (q.phase == OwnReply ==> q.sends == 1 && q.joins == 0)
    && (q.phase.Flight? ==> q.sends == 1 && q.joins == 1 && q.phase.id < |s.refreshes|)
    && (q.phase == Retried ==> q.sends == 2)
  }

  /** The promise variable holds the one refresh that has not settled, which is the latest. */
  ghost predicate OneFlight(s: State) {
    && (s.refreshPromise.Some? ==> s.refreshPromise.value + 1 == |s.refreshes|)
    && forall f :: 0 <= f < |s.refreshes| ==> (!s.refreshes[f].Settled? <==> s.refreshPromise == Some(f))
  }

  function Sends(requests: seq<Request>): nat {
    if requests == [] then 0 else Sends(requests[..|requests| - 1]) + requests[|requests| - 1].sends
  }

  function Joins(requests: seq<Request>): nat {
    if requests == [] then 0 else Joins(requests[..|requests| - 1]) + requests[|requests| - 1].joins
  }

  ghost predicate Inv(s: State) {
    && OneFlight(s)
    && (forall r :: 0 <= r < |s.requests| ==> RequestOk(s, s.requests[r]))
    && s.fetches == Sends(s.requests) + |s.refreshes|
    && |s.refreshes| <= Joins(s.requests)
  }

  lemma {:induction false} TotalsUpdate(requests: seq<Request>, r: nat, q: Request)
    requires r < |requests|
    ensures Sends(requests[r := q]) == Sends(requests) - requests[r].sends + q.sends
    ensures Joins(requests[r := q]) == Joins(requests) - requests[r].joins + q.joins
  {
    var n := |requests| - 1;
    if r == n {
      assert requests[r := q][..n] == requests[..n];
    } else {
      TotalsUpdate(requests[..n], r, q);
      assert requests[r := q][..n] == requests[..n][r := q];
    }
  }

  lemma TotalsAppend(requests: seq<Request>, q: Request)
    ensures Sends(requests + [q]) == Sends(requests) + q.sends && Joins(requests + [q]) == Joins(requests) + q.joins
  {
    assert (requests + [q])[..|requests|] == requests;
  }

  lemma RequestsKept(s: State, step: Step)
    requires Inv(s) && Enabled(s, step)
    ensures forall r :: 0 <= r < |Apply(s, step).requests| ==> RequestOk(Apply(s, step), Apply(s, step).requests[r])
  {
    var u := Apply(s, step);
    forall r | 0 <= r < |u.requests| ensures RequestOk(u, u.requests[r]) {
      assert r < |s.requests| ==> RequestOk(s, s.requests[r]);
    }
  }

  lemma FlightKept(s: State, step: Step)
    requires Inv(s) && Enabled(s, step)
    ensures OneFlight(Apply(s, step))
  {
  }

  lemma StepKeeps(s: State, step: Step)
    requires Inv(s) && Enabled(s, step)
    ensures Inv(Apply(s, step))
  {
    var u := Apply(s, step);
    RequestsKept(s, step);
    FlightKept(s, step);
    match step
    case Start(auth) => TotalsAppend(s.requests, u.requests[|s.requests|]);
    case Reply(r, _) => TotalsUpdate(s.requests, r, u.requests[r]);
    case Resume(r) => TotalsUpdate(s.requests, r, u.requests[r]);
    case _ =>
  }

  lemma {:induction false} RunKeeps(s: State, steps: seq<Step>, u: State)
    requires Inv(s) && Run(s, steps, u)
    ensures Inv(u)
    decreases |steps|
  {
    if steps != [] {
      StepKeeps(s, steps[0]);
      RunKeeps(Apply(s, steps[0]), steps[1..], u);
    }
  }

  // ---------------------------------------------------------------- guarantees

  /** Two refreshes never overlap. */
  lemma RefreshesNeverOverlap(steps: seq<Step>, u: State, f: FlightId, g: FlightId)
    requires Run(Init, steps, u) && f < g < |u.refreshes|
    ensures u.refreshes[f].Settled?
  {
    RunKeeps(Init, steps, u);
  }

  /** Each request is sent once or twice, twice only after it waited for a refresh, and waits for at most one;
      requests below `/auth/` are sent once, wait for none and carry no token. */
  lemma RequestsAreBounded(steps: seq<Step>, u: State, r: RequestId)
    requires Run(Init, steps, u) && r < |u.requests|
    ensures 1 <= u.requests[r].sends <= 1 + u.requests[r].joins <= 2
    ensures u.requests[r].auth ==> u.requests[r].sends == 1 && u.requests[r].joins == 0 && u.requests[r].carried.None?
  {
    RunKeeps(Init, steps, u);
    assert RequestOk(u, u.requests[r]);
  }

  function Ordinary(requests: seq<Request>): (n: nat)
    ensures n <= |requests|
  {
    if requests == [] then 0
    else Ordinary(requests[..|requests| - 1]) + if requests[|requests| - 1].auth then 0 else 1
  }

  lemma {:induction false} TotalsBound(s: State, requests: seq<Request>)
    requires forall r :: 0 <= r < |requests| ==> RequestOk(s, requests[r])
    ensures Joins(requests) <= Ordinary(requests)
    ensures Sends(requests) <= |requests| + Ordinary(requests)
  {
    if requests != [] {
      assert RequestOk(s, requests[|requests| - 1]);
      TotalsBound(s, requests[..|requests| - 1]);
    }
  }

  /** The load on the server: n requests cause at most n fetches and two more for each that is not below
      `/auth/`, so at most 3n, whatever interleaves. */
  lemma FetchesAreBounded(steps: seq<Step>, u: State)
    requires Run(Init, steps, u)
    ensures u.fetches <= |u.requests| + 2 * Ordinary(u.requests) <= 3 * |u.requests|
    ensures |u.refreshes| <= Ordinary(u.requests)
  {
    RunKeeps(Init, steps, u);
    TotalsBound(u, u.requests);
  }

  /** A refresh starts exactly when a first reply is 401 outside `/auth/` and no refresh is under way;
      otherwise such a reply joins the one that is. */
  lemma RefreshStartsIff(steps: seq<Step>, s: State, step: Step)
    requires Run(Init, steps, s) && Enabled(s, step)
    ensures |Apply(s, step).refreshes| > |s.refreshes| <==>
      && step.Reply? && s.requests[step.r].phase == OwnReply && step.status == Some(401) && !s.requests[step.r].auth
      && forall f :: 0 <= f < |s.refreshes| ==> s.refreshes[f].Settled?
    ensures step.Reply? && s.requests[step.r].phase == OwnReply && step.status == Some(401) && !s.requests[step.r].auth ==>
      var phase := Apply(s, step).requests[step.r].phase;
      phase.Flight? && phase.id < |Apply(s, step).refreshes| && !Apply(s, step).refreshes[phase.id].Settled?
      && forall f :: 0 <= f < |s.refreshes| && !s.refreshes[f].Settled? ==> phase.id == f
  {
    RunKeeps(Init, steps, s);
  }

  /** The token of a refresh is decided once. */
  ghost predicate SameToken(a: Refresh, b: Refresh) {
    !a.Fetching? ==> !b.Fetching? && b.token == a.token && (a.Settled? ==> b.Settled?)
  }

  /** What a refresh yields never changes, so all requests that wait for it see the same answer, however
      late they resume: they are sent again exactly when the answer is a token. */
  lemma {:induction false} WaitersAgree(s: State, steps: seq<Step>, u: State, f: FlightId)
    requires Run(s, steps, u) && f < |s.refreshes|
    ensures f < |u.refreshes| && SameToken(s.refreshes[f], u.refreshes[f])
    decreases |steps|
  {
    if steps != [] { WaitersAgree(Apply(s, steps[0]), steps[1..], u, f); }
  }

  lemma ResumedTogether(s: State, steps: seq<Step>, u: State, q: RequestId, r: RequestId)
    requires Enabled(s, Resume(q)) && Run(Apply(s, Resume(q)), steps, u) && Enabled(u, Resume(r))
    requires s.requests[q].phase.id == u.requests[r].phase.id
    ensures Apply(s, Resume(q)).requests[q].phase == Retried <==> Apply(u, Resume(r)).requests[r].phase == Retried
  {
    WaitersAgree(Apply(s, Resume(q)), steps, u, s.requests[q].phase.id);
  }

  /** The reply to a refresh decides for all that wait for it: they are sent again exactly if it carried a token that
      is not empty. */
  lemma ReplyDecides(s: State, f: FlightId, token: Option<string>, steps: seq<Step>, u: State, r: RequestId)
    requires Enabled(s, Replied(f, token)) && Run(Apply(s, Replied(f, token)), steps, u)
    requires Enabled(u, Resume(r)) && u.requests[r].phase.id == f
    ensures Apply(u, Resume(r)).requests[r].phase == Retried <==> token.Some? && token.value != ""
  {
    WaitersAgree(Apply(s, Replied(f, token)), steps, u, f);
  }

  // ---------------------------------------------------------------- which token is sent

  /** What the latest refresh yielded whose result was stored, if any. */
  function Latest(refreshes: seq<Refresh>): Option<string> {
    if refreshes == [] then None
    else
      var last := refreshes[|refreshes| - 1];
      if last.Stored? || last.Settled? then last.token else Latest(refreshes[..|refreshes| - 1])
  }

  /** As long as nobody else sets it, the access token is what the latest stored refresh yielded. */
  ghost predicate TokenIsLatest(s: State) { s.accessToken == Latest(s.refreshes) }

  lemma TokenStep(s: State, step: Step)
    requires Inv(s) && TokenIsLatest(s) && Enabled(s, step) && !step.SetAccessToken?
    ensures TokenIsLatest(Apply(s, step))
  {
    var u := Apply(s, step);
    var n := |s.refreshes|;
    if |u.refreshes| > n {
      assert u.refreshes[..n] == s.refreshes;
    } else if step.Replied? || step.Store? || step.Settle? {
      assert step.f == n - 1;
      assert u.refreshes[..n - 1] == s.refreshes[..n - 1];
    }
  }

  lemma {:induction false} TokenRun(s: State, steps: seq<Step>, u: State)
    requires Inv(s) && TokenIsLatest(s) && Run(s, steps, u)
    requires forall i :: 0 <= i < |steps| ==> !steps[i].SetAccessToken?
    ensures Inv(u) && TokenIsLatest(u)
    decreases |steps|
  {
    if steps != [] {
      StepKeeps(s, steps[0]);
      TokenStep(s, steps[0]);
      TokenRun(Apply(s, steps[0]), steps[1..], u);
    }
  }

  /** A request that is sent again carries the token of the latest stored refresh, which need not be the
      one it waited for; it goes out without a token iff that later refresh yielded none. */
  lemma ResentWithLatestToken(steps: seq<Step>, s: State, r: RequestId)
    requires Run(Init, steps, s) && Enabled(s, Resume(r)) && forall i :: 0 <= i < |steps| ==> !steps[i].SetAccessToken?
    ensures var q := Apply(s, Resume(r)).requests[r];
      q.phase == Retried ==>
        q.carried == if Latest(s.refreshes).Some? && Latest(s.refreshes).value != "" then Latest(s.refreshes) else None
  {
    TokenRun(Init, steps, s);
    assert RequestOk(s, s.requests[r]);
  }

  // ---------------------------------------------------------------- the module's variables

  /** Each method is the code between two points where the program waits. */
  class ApiClient {
    var accessToken: Option<string>
    var refreshPromise: Option<FlightId>
    var requests: seq<Request>
    var refreshes: seq<Refresh>
    var fetches: nat

    ghost function View(): State
      reads this
    {
      State(accessToken, refreshPromise, requests, refreshes, fetches)
    }

    constructor ()
      ensures View() == Init
    {
      accessToken, refreshPromise, requests, refreshes, fetches := None, None, [], [], 0;
    }

    method StoreAccessToken(token: Option<string>)
      modifies this`accessToken
      ensures View() == Apply(old(View()), SetAccessToken(token)) && accessToken == token
    {
      accessToken := token;
    }

    /** `apiRequest` up to its first `await`. */
    method BeginRequest(auth: bool) returns (r: RequestId)
      modifies this`requests, this`fetches
      ensures View() == Apply(old(View()), Start(auth)) && r == |old(requests)|
      ensures fetches == old(fetches) + 1
      ensures requests == old(requests) +
        [Request(auth, OwnReply, 1, 0, if !auth && accessToken.Some? && accessToken.value != "" then accessToken else None)]
    {
      var carried := if Truthy(accessToken) && !auth then accessToken else None;
      r := |requests|;
      requests := requests + [Request(auth, OwnReply, 1, 0, carried)];
      fetches := fetches + 1;
    }

    method RenewAccessToken() returns (f: FlightId)
      modifies this`refreshPromise, this`refreshes, this`fetches
      ensures refreshPromise == Some(f) && requests == old(requests) && accessToken == old(accessToken)
      ensures old(refreshPromise).Some? ==> f == old(refreshPromise).value && refreshes == old(refreshes) && fetches == old(fetches)
      ensures old(refreshPromise).None? ==> f == |old(refreshes)| && refreshes == old(refreshes) + [Fetching] && fetches == old(fetches) + 1
    {
      if refreshPromise.None? {
        refreshPromise := Some(|refreshes|);
        refreshes := refreshes + [Fetching];
        fetches := fetches + 1;
      }
      f := refreshPromise.value;
    }

    method OnReply(r: RequestId, status: Option<nat>)
      requires Enabled(View(), Reply(r, status))
      modifies this
      ensures View() == Apply(old(View()), Reply(r, status)) && accessToken == old(accessToken)
      ensures
        var q := old(requests)[r];
        var shared := old(refreshPromise).Some?;
        if q.phase == OwnReply && status == Some(401) && !q.auth then
          var f := if shared then old(refreshPromise).value else |old(refreshes)|;
          && refreshPromise == Some(f)
          && requests == old(requests)[r := Request(q.auth, Flight(f), q.sends, q.joins + 1, q.carried)]
          && refreshes == (if shared then old(refreshes) else old(refreshes) + [Fetching])
          && fetches == old(fetches) + if shared then 0 else 1
        else
          && requests == old(requests)[r := Request(q.auth, Done(status), q.sends, q.joins, q.carried)]
          && refreshPromise == old(refreshPromise) && refreshes == old(refreshes) && fetches == old(fetches)
    {
      var q := requests[r];
      if q.phase == OwnReply && status == Some(401) && !q.auth {
        var f := RenewAccessToken();
        requests := requests[r := q.(phase := Flight(f), joins := q.joins + 1)];
      } else {
        requests := requests[r := q.(phase := Done(status))];
      }
    }

    /** The last two callbacks of the refresh chain. */
    method OnToken(f: FlightId)
      requires Enabled(View(), Store(f))
      modifies this`accessToken, this`refreshes
      ensures View() == Apply(old(View()), Store(f))
      ensures accessToken == old(refreshes)[f].token && refreshes == old(refreshes)[f := Stored(accessToken)]
    {
      accessToken := refreshes[f].token;
      refreshes := refreshes[f := Stored(refreshes[f].token)];
    }

    method OnFinally(f: FlightId)
      requires Enabled(View(), Settle(f))
      modifies this`refreshPromise, this`refreshes
      ensures View() == Apply(old(View()), Settle(f))
      ensures refreshPromise == None && refreshes == old(refreshes)[f := Settled(old(refreshes)[f].token)]
    {
      refreshPromise := None;
      refreshes := refreshes[f := Settled(refreshes[f].token)];
    }

    method OnRefreshed(r: RequestId)
      requires Enabled(View(), Resume(r))
      modifies this`requests, this`fetches
      ensures View() == Apply(old(View()), Resume(r))
      ensures
        var q := old(requests)[r];
        var token := refreshes[q.phase.id].token;
        if token.Some? && token.value != "" then
          var carried := if !q.auth && accessToken.Some? && accessToken.value != "" then accessToken else None;
          requests == old(requests)[r := Request(q.auth, Retried, q.sends + 1, q.joins, carried)] && fetches == old(fetches) + 1
        else
          requests == old(requests)[r := Request(q.auth, Done(Some(401)), q.sends, q.joins, q.carried)] && fetches == old(fetches)
    {
      var q := requests[r];
      if Truthy(refreshes[q.phase.id].token) {
        var carried := if Truthy(accessToken) && !q.auth then accessToken else None;
        requests := requests[r := q.(phase := Retried, sends := q.sends + 1, carried := carried)];
        fetches := fetches + 1;
      } else {
        requests := requests[r := q.(phase := Done(Some(401)))];
      }
    }
  }
}
