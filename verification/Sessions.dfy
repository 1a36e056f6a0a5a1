/** Login sessions and refresh-token rotation by compare-and-swap. Hashes are symbolic: `verify` accepts
    exactly the token that was hashed. Random tokens and families are new each time. */
module Sessions {
  import opened Common

  type Uuid = nat
  type SessionId = string
  type Token = string
  type Family = nat
  type Time = nat
  type Handler = nat

  /** An argon2 hash of a token under a salt. */
  datatype Hash = Argon(token: Token, salt: nat)

  predicate Verify(hash: Hash, token: Token) { hash.token == token }

  datatype Session = Session(
    organization: Uuid, user: Uuid, hash: Hash, family: Family, expiresAt: Time, revokedAt: Option<Time>)

  type Table = map<SessionId, Session>

  /** Thirty days in milliseconds. */
  const LIFETIME: nat := 30 * 24 * 60 * 60 * 1000

  // ---------------------------------------------------------------- statements

  /** `resolve_session`: a session that is not revoked, of an active member. */
  function Resolve(sessions: Table, active: set<(Uuid, Uuid)>, id: SessionId): Option<Session> {
    if id in sessions && sessions[id].revokedAt.None? && (sessions[id].user, sessions[id].organization) in active
    then Some(sessions[id]) else None
  }

  /** The `WHERE` clause of the rotating update, given the row that was read. */
  predicate Swappable(sessions: Table, now: Time, id: SessionId, row: Session) {
    && id in sessions
    && sessions[id].organization == row.organization
    && sessions[id].hash == row.hash
    && sessions[id].revokedAt.None?
    && sessions[id].expiresAt > now
  }

  function Swap(sessions: Table, now: Time, id: SessionId, hash: Hash): Table
    requires id in sessions
  {
    sessions[id := sessions[id].(hash := hash, expiresAt := now + LIFETIME)]
  }

  /** `UPDATE sessions SET revoked_at WHERE token_family`, confined to the organization by row security. */
  function RevokeRows(sessions: Table, now: Time, organization: Uuid, family: Family): Table {
    map id | id in sessions ::
      if sessions[id].organization == organization && sessions[id].family == family
      then sessions[id].(revokedAt := Some(now)) else sessions[id]
  }

  function RevokeRow(sessions: Table, now: Time, organization: Uuid, id: SessionId): Table {
    if id in sessions && sessions[id].organization == organization
    then sessions[id := sessions[id].(revokedAt := Some(now))] else sessions
  }

  // ---------------------------------------------------------------- concurrent handlers

  datatype Ending = Granted(token: Token) | Refused | LoggedOut | Crashed

  /** Where a request handler stands between its database statements. */
  datatype Phase =
    | Loaded(id: SessionId, presented: Token, row: Session)
    | Verified(id: SessionId, presented: Token, row: Session, token: Token, salt: nat)
    | Condemned(organization: Uuid, family: Family)
    | Leaving(id: SessionId, organization: Uuid)
    | Done(ending: Ending)

  /** One successful rotation. */
  datatype Grant = Grant(session: SessionId, presented: Token, granted: Token)

  datatype State = State(
    sessions: Table, active: set<(Uuid, Uuid)>, now: Time, handlers: map<Handler, Phase>,
    issued: set<Token>, families: set<Family>, grants: seq<Grant>)

  datatype Step =
    | Login(id: SessionId, organization: Uuid, user: Uuid, token: Token, salt: nat, family: Family)
    | Read(h: Handler, id: SessionId, presented: Token)
    | Check(h: Handler, token: Token, salt: nat)
    | Rotate(h: Handler)
    | RevokeFamily(h: Handler)
    | ReadLogout(h: Handler, id: SessionId)
    | Logout(h: Handler)
    | Crash(h: Handler)
    | SetMembership(user: Uuid, organization: Uuid, isActive: bool)
    | Tick(elapsed: Time)

  ghost predicate Initial(s: State) {
    s.sessions == map[] && s.handlers == map[] && s.issued == {} && s.families == {} && s.grants == []
  }

  predicate Enabled(s: State, step: Step) {
    match step
    case Login(id, _, _, token, _, family) => id !in s.sessions && token !in s.issued && family !in s.families
    case Read(h, _, _) => h !in s.handlers
    case Check(h, token, _) => h in s.handlers && s.handlers[h].Loaded? && token !in s.issued
    case Rotate(h) => h in s.handlers && s.handlers[h].Verified?
    case RevokeFamily(h) => h in s.handlers && s.handlers[h].Condemned?
    case ReadLogout(h, _) => h !in s.handlers
    case Logout(h) => h in s.handlers && s.handlers[h].Leaving?
    case Crash(h) => h in s.handlers && !s.handlers[h].Done?
    case SetMembership(_, _, _) => true
    case Tick(_) => true
  }

  function Set(s: State, h: Handler, phase: Phase): State { s.(handlers := s.handlers[h := phase]) }

  function Apply(s: State, step: Step): State
    requires Enabled(s, step)
  {
    match step
    case Login(id, organization, user, token, salt, family) =>
      var row := Session(organization, user, Argon(token, salt), family, s.now + LIFETIME, None);
      s.(sessions := s.sessions[id := row], issued := s.issued + {token}, families := s.families + {family})
    case Read(h, id, presented) =>
      var found := Resolve(s.sessions, s.active, id);
      Set(s, h, if found.None? then Done(Refused) else Loaded(id, presented, found.value))
    case Check(h, token, salt) =>
      var p := s.handlers[h];
      if p.row.expiresAt <= s.now || !Verify(p.row.hash, p.presented)
      then Set(s, h, Condemned(p.row.organization, p.row.family))
      else Set(s, h, Verified(p.id, p.presented, p.row, token, salt)).(issued := s.issued + {token})
    case Rotate(h) =>
      var p := s.handlers[h];
      if Swappable(s.sessions, s.now, p.id, p.row)
      then Set(s, h, Done(Granted(p.token))).(
        sessions := Swap(s.sessions, s.now, p.id, Argon(p.token, p.salt)),
        grants := s.grants + [Grant(p.id, p.presented, p.token)])
      else Set(s, h, Done(Refused))
    case RevokeFamily(h) =>
      var p := s.handlers[h];
      Set(s, h, Done(Refused)).(sessions := RevokeRows(s.sessions, s.now, p.organization, p.family))
    case ReadLogout(h, id) =>
      var found := Resolve(s.sessions, s.active, id);
      Set(s, h, if found.None? then Done(LoggedOut) else Leaving(id, found.value.organization))
    case Logout(h) =>
      var p := s.handlers[h];
      Set(s, h, Done(LoggedOut)).(sessions := RevokeRow(s.sessions, s.now, p.organization, p.id))
    case Crash(h) => Set(s, h, Done(Crashed))
    case SetMembership(user, organization, isActive) =>
      s.(active := if isActive then s.active + {(user, organization)} else s.active - {(user, organization)})
    case Tick(elapsed) => s.(now := s.now + elapsed)
  }

  ghost predicate Run(s: State, steps: seq<Step>, u: State)
    decreases |steps|
  {
    if steps == [] then s == u else Enabled(s, steps[0]) && Run(Apply(s, steps[0]), steps[1..], u)
  }

  // ---------------------------------------------------------------- invariant

  ghost predicate SessionOk(s: State, id: SessionId)
    requires id in s.sessions
  {
    s.sessions[id].hash.token in s.issued && s.sessions[id].family in s.families
  }

  /** Neither tokens nor families are shared by sessions. */
  ghost predicate Apart(s: State, i: SessionId, j: SessionId)
    requires i in s.sessions && j in s.sessions
  {
    s.sessions[i].hash.token != s.sessions[j].hash.token && s.sessions[i].family != s.sessions[j].family
  }

  /** A consumed token is not the current token of any session. */
  ghost predicate Spent(s: State, token: Token) {
    token in s.issued && forall id :: id in s.sessions ==> s.sessions[id].hash.token != token
  }

  ghost predicate LastOf(grants: seq<Grant>, i: nat)
    requires i < |grants|
  {
    forall k :: i < k < |grants| ==> grants[k].session != grants[i].session
  }

  ghost predicate GrantOk(s: State, i: nat)
    requires i < |s.grants|
  {
    var g := s.grants[i];
    && g.session in s.sessions && Spent(s, g.presented)
    && (LastOf(s.grants, i) ==> s.sessions[g.session].hash.token == g.granted)
  }

  /** Two grants of a session with none in between: the later one consumes what the earlier one granted. */
  ghost predicate Linked(grants: seq<Grant>, i: nat, j: nat)
    requires i < j < |grants|
  {
    grants[i].session == grants[j].session && LastOf(grants[..j], i) ==> grants[j].presented == grants[i].granted
  }

  ghost predicate HandlerOk(s: State, h: Handler)
    requires h in s.handlers
  {
    var p := s.handlers[h];
    p.Verified? ==>
      && p.row.hash.token == p.presented
      && Spent(s, p.token)
      && (forall i :: 0 <= i < |s.grants| ==> s.grants[i].presented != p.token)
  }

  ghost predicate Different(s: State, h: Handler, k: Handler)
    requires h in s.handlers && k in s.handlers
  {
    s.handlers[h].Verified? && s.handlers[k].Verified? ==> s.handlers[h].token != s.handlers[k].token
  }

  ghost predicate SessionsOk(s: State) {
    && (forall id :: id in s.sessions ==> SessionOk(s, id))
    && (forall i, j :: i in s.sessions && j in s.sessions && i != j ==> Apart(s, i, j))
  }

  ghost predicate HandlersOk(s: State) {
    && (forall h :: h in s.handlers ==> HandlerOk(s, h))
    && (forall h, k :: h in s.handlers && k in s.handlers && h != k ==> Different(s, h, k))
  }

  ghost predicate Presented(grants: seq<Grant>) {
    forall i, j :: 0 <= i < j < |grants| ==> grants[i].presented != grants[j].presented
  }

  ghost predicate Chained(grants: seq<Grant>) {
    forall i, j :: 0 <= i < j < |grants| ==> Linked(grants, i, j)
  }

  ghost predicate Inv(s: State) {
    && SessionsOk(s) && HandlersOk(s)
    && (forall i :: 0 <= i < |s.grants| ==> GrantOk(s, i))
    && Presented(s.grants) && Chained(s.grants)
  }

  /** Steps that leave every current token alone. */
  lemma QuietKeeps(s: State, step: Step)
    requires Inv(s) && Enabled(s, step)
    requires !step.Login? && !(step.Rotate? && Swappable(s.sessions, s.now, s.handlers[step.h].id, s.handlers[step.h].row))
    ensures Inv(Apply(s, step))
  {
    var u := Apply(s, step);
    assert u.sessions.Keys == s.sessions.Keys && u.grants == s.grants && s.issued <= u.issued;
    forall id | id in s.sessions ensures u.sessions[id].hash == s.sessions[id].hash && u.sessions[id].family == s.sessions[id].family {}
    forall id | id in u.sessions ensures SessionOk(u, id) { assert SessionOk(s, id); }
    forall i, j | i in u.sessions && j in u.sessions && i != j ensures Apart(u, i, j) { assert Apart(s, i, j); }
    forall i | 0 <= i < |u.grants| ensures GrantOk(u, i) { assert GrantOk(s, i); }
    forall h | h in u.handlers ensures HandlerOk(u, h) {
      if h in s.handlers { assert HandlerOk(s, h); }
      if step.Check? && h == step.h && u.handlers[h].Verified? {
        forall id | id in s.sessions ensures s.sessions[id].hash.token != step.token { assert SessionOk(s, id); }
        forall i | 0 <= i < |s.grants| ensures s.grants[i].presented != step.token { assert GrantOk(s, i); }
      }
    }
    forall h, k | h in u.handlers && k in u.handlers && h != k ensures Different(u, h, k) {
      if h in s.handlers && k in s.handlers {
        assert Different(s, h, k) && HandlerOk(s, h) && HandlerOk(s, k);
      }
    }
  }

  lemma LoginKeeps(s: State, step: Step)
    requires Inv(s) && Enabled(s, step) && step.Login?
    ensures Inv(Apply(s, step))
  {
    var u := Apply(s, step);
    forall id | id in u.sessions ensures SessionOk(u, id) {
      if id != step.id { assert SessionOk(s, id); }
    }
    forall i, j | i in u.sessions && j in u.sessions && i != j ensures Apart(u, i, j) {
      if i != step.id { assert SessionOk(s, i); }
      if j != step.id { assert SessionOk(s, j); }
      if i != step.id && j != step.id { assert Apart(s, i, j); }
    }
    forall i | 0 <= i < |u.grants| ensures GrantOk(u, i) { assert GrantOk(s, i); }
    forall h | h in u.handlers ensures HandlerOk(u, h) { assert HandlerOk(s, h); }
    forall h, k | h in u.handlers && k in u.handlers && h != k ensures Different(u, h, k) { assert Different(s, h, k); }
  }

  /** Appending a grant that consumes the current token of its session. */
  lemma GrantExtends(s: State, h: Handler)
    requires Inv(s) && Enabled(s, Rotate(h)) && Swappable(s.sessions, s.now, s.handlers[h].id, s.handlers[h].row)
    ensures Presented(Apply(s, Rotate(h)).grants) && Chained(Apply(s, Rotate(h)).grants)
  {
    var p := s.handlers[h];
    assert HandlerOk(s, h);
    var n := |s.grants|;
    var g := Apply(s, Rotate(h)).grants;
    assert p.presented == s.sessions[p.id].hash.token;
    forall i, j | 0 <= i < j < |g| ensures g[i].presented != g[j].presented {
      assert GrantOk(s, i);
    }
    forall i, j | 0 <= i < j < |g| ensures Linked(g, i, j) {
      if j < n {
        assert Linked(s.grants, i, j);
        assert g[..j] == s.grants[..j];
      } else {
        assert g[..j] == s.grants;
        assert GrantOk(s, i);
      }
    }
  }

  lemma GrantKeeps(s: State, h: Handler)
    requires Inv(s) && Enabled(s, Rotate(h)) && Swappable(s.sessions, s.now, s.handlers[h].id, s.handlers[h].row)
    ensures Inv(Apply(s, Rotate(h)))
  {
    var u := Apply(s, Rotate(h));
    var p := s.handlers[h];
    var n := |s.grants|;
    assert HandlerOk(s, h);
    GrantExtends(s, h);
    forall id | id in u.sessions ensures SessionOk(u, id) { assert SessionOk(s, id); }
    forall i, j | i in u.sessions && j in u.sessions && i != j ensures Apart(u, i, j) { assert Apart(s, i, j); }
    forall i | 0 <= i < |u.grants| ensures GrantOk(u, i) {
      if i < n {
        assert GrantOk(s, i) && u.grants[i] == s.grants[i];
        if LastOf(u.grants, i) {
          assert u.grants[n].session != u.grants[i].session;
          forall k | i < k < n ensures s.grants[k].session != s.grants[i].session { assert u.grants[k] == s.grants[k]; }
          assert LastOf(s.grants, i);
        }
      } else {
        assert SessionOk(s, p.id);
        forall id | id in u.sessions ensures u.sessions[id].hash.token != p.presented {
          if id != p.id { assert Apart(s, id, p.id); }
        }
      }
    }
    forall k | k in u.handlers ensures HandlerOk(u, k) {
      if k != h { assert HandlerOk(s, k) && Different(s, h, k); }
    }
    forall k, l | k in u.handlers && l in u.handlers && k != l ensures Different(u, k, l) { assert Different(s, k, l); }
  }

  lemma StepKeeps(s: State, step: Step)
    requires Inv(s) && Enabled(s, step)
    ensures Inv(Apply(s, step))
  {
    if step.Login? {
      LoginKeeps(s, step);
    } else if step.Rotate? && Swappable(s.sessions, s.now, s.handlers[step.h].id, s.handlers[step.h].row) {
      GrantKeeps(s, step.h);
    } else {
      QuietKeeps(s, step);
    }
  }

  lemma {:induction false} RunKeeps(s: State, steps: seq<Step>, u: State)
    requires Inv(s) && Run(s, steps, u)
    ensures Inv(u)
    decreases |steps|
  {
    if steps != [] {
      StepKeeps(s, steps[0]);
      RunKeeps(Apply(s, steps[0]), steps[1..], u);
    }
  }

  // ---------------------------------------------------------------- guarantees

  /** Single use: over all interleavings no token is consumed by two successful rotations, whoever
      presents it and however many handlers verified it. */
  lemma EachTokenRotatesOnce(s: State, steps: seq<Step>, u: State, i: nat, j: nat)
    requires Initial(s) && Run(s, steps, u)
    requires i < j < |u.grants|
    ensures u.grants[i].presented != u.grants[j].presented
  {
    RunKeeps(s, steps, u);
  }

  /** The rotations of a session form one chain: each consumes what the one before granted, and what the
      last one granted is the only token that the session accepts. */
  lemma RotationsFormAChain(s: State, steps: seq<Step>, u: State, i: nat)
    requires Initial(s) && Run(s, steps, u) && i < |u.grants|
    ensures u.grants[i].session in u.sessions
    ensures LastOf(u.grants, i) ==>
      forall token :: Verify(u.sessions[u.grants[i].session].hash, token) <==> token == u.grants[i].granted
    ensures forall j :: i < j < |u.grants| && u.grants[j].session == u.grants[i].session && LastOf(u.grants[..j], i) ==>
      u.grants[j].presented == u.grants[i].granted
  {
    RunKeeps(s, steps, u);
    assert GrantOk(u, i);
    forall j | i < j < |u.grants| && u.grants[j].session == u.grants[i].session && LastOf(u.grants[..j], i)
      ensures u.grants[j].presented == u.grants[i].granted
    {
      assert Linked(u.grants, i, j);
    }
  }

  /** Revoked or past its expiry. */
  ghost predicate Dead(s: State, id: SessionId) {
    id in s.sessions && (s.sessions[id].revokedAt.Some? || s.sessions[id].expiresAt <= s.now)
  }

  /** Once a session is revoked or expired no rotation of it ever succeeds, also not one that had read
      and verified the session before. */
  lemma {:induction false} DeadSessionsNeverRotate(s: State, steps: seq<Step>, u: State, id: SessionId)
    requires Run(s, steps, u) && Dead(s, id)
    ensures Dead(u, id)
    ensures |s.grants| <= |u.grants| && u.grants[..|s.grants|] == s.grants
    ensures forall i :: |s.grants| <= i < |u.grants| ==> u.grants[i].session != id
    decreases |steps|
  {
    if steps != [] {
      var m := Apply(s, steps[0]);
      assert Dead(m, id);
      DeadSessionsNeverRotate(m, steps[1..], u, id);
      assert m.grants == s.grants || (|m.grants| == |s.grants| + 1 && m.grants[..|s.grants|] == s.grants && m.grants[|s.grants|].session != id);
      assert u.grants[..|s.grants|] == u.grants[..|m.grants|][..|s.grants|];
      forall i | |s.grants| <= i < |u.grants| ensures u.grants[i].session != id {
        if i < |m.grants| { assert u.grants[i] == u.grants[..|m.grants|][i]; }
      }
    }
  }

  /** Every session of the family within the organization is revoked, and the family cannot be drawn again. */
  ghost predicate FamilyRevoked(s: State, organization: Uuid, family: Family) {
    && family in s.families
    && forall id :: id in s.sessions && s.sessions[id].organization == organization && s.sessions[id].family == family ==>
         s.sessions[id].revokedAt.Some?
  }

  lemma {:induction false} FamilyStaysRevoked(s: State, steps: seq<Step>, u: State, organization: Uuid, family: Family)
    requires Run(s, steps, u) && FamilyRevoked(s, organization, family)
    ensures FamilyRevoked(u, organization, family)
    decreases |steps|
  {
    if steps != [] {
      assert FamilyRevoked(Apply(s, steps[0]), organization, family);
      FamilyStaysRevoked(Apply(s, steps[0]), steps[1..], u, organization, family);
    }
  }

  /** The ways in which a request that cannot succeed may stand. */
  ghost predicate Doomed(s: State, h: Handler, row: Session) {
    && h in s.handlers && row.family in s.families
    && match s.handlers[h]
       case Loaded(_, presented, r) => r == row && !Verify(row.hash, presented)
       case Condemned(organization, family) => organization == row.organization && family == row.family
       case Done(ending) => ending == Crashed || (ending == Refused && FamilyRevoked(s, row.organization, row.family))
       case _ => false
  }

  lemma {:induction false} DoomedStaysDoomed(s: State, steps: seq<Step>, u: State, h: Handler, row: Session)
    requires Run(s, steps, u) && Doomed(s, h, row)
    ensures Doomed(u, h, row)
    decreases |steps|
  {
    if steps != [] {
      var m := Apply(s, steps[0]);
      if FamilyRevoked(s, row.organization, row.family) {
        FamilyStaysRevoked(s, [steps[0]], m, row.organization, row.family);
      }
      if steps[0] == RevokeFamily(h) { assert FamilyRevoked(m, row.organization, row.family); }
      assert Doomed(m, h, row);
      DoomedStaysDoomed(m, steps[1..], u, h, row);
    }
  }

  /** Replay detection: whoever presents a token that was consumed before the session is read gets no
      token, and is refused only after every session of the family has been revoked; from then on the
      family stays revoked. */
  lemma ReplayRevokesFamily(s: State, before: seq<Step>, m: State, i: nat, h: Handler, id: SessionId, after: seq<Step>, u: State)
    requires Initial(s) && Run(s, before, m) && i < |m.grants|
    requires Enabled(m, Read(h, id, m.grants[i].presented))
    requires Run(Apply(m, Read(h, id, m.grants[i].presented)), after, u)
    requires id in m.sessions && m.sessions[id].revokedAt.None? && (m.sessions[id].user, m.sessions[id].organization) in m.active
    ensures h in u.handlers && !u.handlers[h].Verified? && !(u.handlers[h].Done? && u.handlers[h].ending.Granted?)
    ensures u.handlers[h] == Done(Refused) ==>
      var row := m.sessions[id];
      FamilyRevoked(u, row.organization, row.family) && id in u.sessions && u.sessions[id].revokedAt.Some?
  {
    RunKeeps(s, before, m);
    assert GrantOk(m, i) && SessionOk(m, id);
    var row := m.sessions[id];
    var t := Apply(m, Read(h, id, m.grants[i].presented));
    assert Doomed(t, h, row);
    DoomedStaysDoomed(t, after, u, h, row);
    IdentityStays(t, after, u, id);
  }

  /** Sessions are never deleted, and never move to another organization, user or family. */
  lemma {:induction false} IdentityStays(s: State, steps: seq<Step>, u: State, id: SessionId)
    requires Run(s, steps, u) && id in s.sessions
    ensures id in u.sessions
    ensures u.sessions[id].organization == s.sessions[id].organization && u.sessions[id].family == s.sessions[id].family
    ensures u.sessions[id].user == s.sessions[id].user
    decreases |steps|
  {
    if steps != [] {
      IdentityStays(Apply(s, steps[0]), steps[1..], u, id);
    }
  }

  /** Of all requests that present one token at most one is granted, and the token it gets is new. */
  lemma OneWinner(s: State, before: seq<Step>, m: State, step: Step, after: seq<Step>, u: State)
    requires Initial(s) && Run(s, before, m) && Enabled(m, step) && step.Rotate?
    requires Swappable(m.sessions, m.now, m.handlers[step.h].id, m.handlers[step.h].row)
    requires Run(Apply(m, step), after, u)
    ensures forall i :: |m.grants| < i < |u.grants| ==> u.grants[i].presented != m.handlers[step.h].presented
    ensures forall i :: 0 <= i < |m.grants| ==> m.grants[i].presented != m.handlers[step.h].token
  {
    RunKeeps(s, before, m);
    assert HandlerOk(m, step.h);
    StepKeeps(m, step);
    var t := Apply(m, step);
    RunKeeps(t, after, u);
    GrantsGrow(t, after, u);
    assert u.grants[..|t.grants|][|m.grants|] == u.grants[|m.grants|];
  }

  lemma {:induction false} GrantsGrow(s: State, steps: seq<Step>, u: State)
    requires Run(s, steps, u)
    ensures |s.grants| <= |u.grants| && u.grants[..|s.grants|] == s.grants
    decreases |steps|
  {
    if steps != [] {
      var m := Apply(s, steps[0]);
      GrantsGrow(m, steps[1..], u);
      assert m.grants[..|s.grants|] == s.grants;
      assert u.grants[..|s.grants|] == u.grants[..|m.grants|][..|s.grants|];
    }
  }

  lemma Prepend(s: State, step: Step, steps: seq<Step>, u: State)
    requires Enabled(s, step) && Run(Apply(s, step), steps, u)
    ensures Run(s, [step] + steps, u)
  {
    assert ([step] + steps)[1..] == steps;
  }

  /** The sessions of one family within one organization were revoked at `at`, and no other row was touched. */
  ghost predicate FamilyRows(before: Table, after: Table, at: Time, organization: Uuid, family: Family) {
    && after.Keys == before.Keys
    && forall k :: k in before ==>
         var row := before[k];
         var revoked := row.organization == organization && row.family == family;
         after[k] == Session(row.organization, row.user, row.hash, row.family, row.expiresAt, if revoked then Some(at) else row.revokedAt)
  }

  /** The step is one of the handler's own. */
  predicate Acts(step: Step, h: Handler) {
    match step
    case Login(_, _, _, _, _, _) => false
    case Read(g, _, _) => g == h
    case Check(g, _, _) => g == h
    case Rotate(g) => g == h
    case RevokeFamily(g) => g == h
    case ReadLogout(g, _) => g == h
    case Logout(g) => g == h
    case Crash(g) => g == h
    case SetMembership(_, _, _) => false
    case Tick(_) => false
  }

  lemma {:induction false} DoneIsFinal(s: State, steps: seq<Step>, u: State, h: Handler)
    requires Run(s, steps, u) && h in s.handlers && s.handlers[h].Done?
    ensures h in u.handlers && u.handlers[h] == s.handlers[h]
    ensures forall step :: step in steps ==> !Acts(step, h)
    decreases |steps|
  {
    if steps != [] {
      assert !Acts(steps[0], h);
      DoneIsFinal(Apply(s, steps[0]), steps[1..], u, h);
    }
  }

  /** A request that reads a session that is missing, revoked or of an inactive member is refused then and there:
      it takes no further step, so it gets no token and changes no session, whatever interleaves and even if the
      membership is restored. */
  lemma InvisibleSessionIsRefused(s: State, h: Handler, id: SessionId, presented: Token, after: seq<Step>, u: State)
    requires Enabled(s, Read(h, id, presented)) && Run(Apply(s, Read(h, id, presented)), after, u)
    requires id !in s.sessions || s.sessions[id].revokedAt.Some? || (s.sessions[id].user, s.sessions[id].organization) !in s.active
    ensures h in u.handlers && u.handlers[h] == Done(Refused)
    ensures Apply(s, Read(h, id, presented)).sessions == s.sessions && Apply(s, Read(h, id, presented)).grants == s.grants
    ensures forall step :: step in after ==> !Acts(step, h)
  {
    DoneIsFinal(Apply(s, Read(h, id, presented)), after, u, h);
  }

  /** Nobody restores the membership. */
  ghost predicate NeverRestored(steps: seq<Step>, user: Uuid, organization: Uuid) {
    forall step :: step in steps ==> step != SetMembership(user, organization, true)
  }

  lemma {:induction false} StaysInactive(s: State, steps: seq<Step>, u: State, user: Uuid, organization: Uuid)
    requires Run(s, steps, u) && (user, organization) !in s.active && NeverRestored(steps, user, organization)
    ensures (user, organization) !in u.active
    decreases |steps|
  {
    if steps != [] {
      assert steps[0] in steps && forall step :: step in steps[1..] ==> step in steps;
      StaysInactive(Apply(s, steps[0]), steps[1..], u, user, organization);
    }
  }

  /** Deactivating a membership locks its sessions out at once: until it is restored, every request that starts with
      one of them is refused, takes no further step and leaves the sessions as they are. */
  lemma DeactivationLocksOut(s: State, before: seq<Step>, m: State, h: Handler, id: SessionId, presented: Token, after: seq<Step>, u: State)
    requires id in s.sessions
    requires var row := s.sessions[id];
      Run(Apply(s, SetMembership(row.user, row.organization, false)), before, m) && NeverRestored(before, row.user, row.organization)
    requires Enabled(m, Read(h, id, presented)) && Run(Apply(m, Read(h, id, presented)), after, u)
    ensures h in u.handlers && u.handlers[h] == Done(Refused) && forall step :: step in after ==> !Acts(step, h)
    ensures Apply(m, Read(h, id, presented)).sessions == m.sessions
  {
    var row := s.sessions[id];
    var t := Apply(s, SetMembership(row.user, row.organization, false));
    StaysInactive(t, before, m, row.user, row.organization);
    IdentityStays(t, before, m, id);
    InvisibleSessionIsRefused(m, h, id, presented, after, u);
  }

  lemma {:induction false} LeavingStays(s: State, steps: seq<Step>, u: State, h: Handler)
    requires Run(s, steps, u) && h in s.handlers && s.handlers[h].Leaving? && Enabled(u, Logout(h))
    ensures u.handlers[h] == s.handlers[h]
    decreases |steps|
  {
    if steps != [] {
      var m := Apply(s, steps[0]);
      if m.handlers[h].Done? { DoneIsFinal(m, steps[1..], u, h); }
      LeavingStays(m, steps[1..], u, h);
    }
  }

  /** A logout that read a visible session revokes it, and no other row, whenever it gets to its update and whatever
      happened to the session in between. */
  lemma LogoutRevokes(s: State, h: Handler, id: SessionId, steps: seq<Step>, u: State)
    requires Enabled(s, ReadLogout(h, id)) && Run(Apply(s, ReadLogout(h, id)), steps, u) && Enabled(u, Logout(h))
    requires id in s.sessions && s.sessions[id].revokedAt.None? && (s.sessions[id].user, s.sessions[id].organization) in s.active
    ensures id in u.sessions
    ensures Apply(u, Logout(h)).sessions == u.sessions[id := u.sessions[id].(revokedAt := Some(u.now))]
  {
    var t := Apply(s, ReadLogout(h, id));
    IdentityStays(t, steps, u, id);
    LeavingStays(t, steps, u, h);
  }

  /** A session expires thirty days after its login or its latest rotation: these set the expiry, and nothing else
      moves it. */
  lemma ThirtyDays(s: State, step: Step, id: SessionId)
    requires Enabled(s, step) && id in Apply(s, step).sessions
    ensures
      var u := Apply(s, step);
      var renewed := (step.Login? && step.id == id) || (u.grants != s.grants && u.grants[|u.grants| - 1].session == id);
      if renewed then u.sessions[id].expiresAt == s.now + 2_592_000_000
      else id in s.sessions && u.sessions[id].expiresAt == s.sessions[id].expiresAt
  {
  }

  /** What a refresh request leads to when nothing comes in between, from every state. */
  lemma UndisturbedRefresh(s: State, h: Handler, id: SessionId, presented: Token, token: Token, salt: nat)
    returns (steps: seq<Step>, u: State)
    requires h !in s.handlers && token !in s.issued
    ensures Run(s, steps, u) && h in u.handlers
    ensures
      var visible := id in s.sessions && s.sessions[id].revokedAt.None? && (s.sessions[id].user, s.sessions[id].organization) in s.active;
      if !visible then u.handlers[h] == Done(Refused) && u.sessions == s.sessions
      else
        var row := s.sessions[id];
        if row.expiresAt > s.now && row.hash.token == presented then
          && u.handlers[h] == Done(Granted(token))
          && u.sessions == s.sessions[id :=
               Session(row.organization, row.user, Argon(token, salt), row.family, s.now + 2_592_000_000, None)]
        else u.handlers[h] == Done(Refused) && FamilyRows(s.sessions, u.sessions, s.now, row.organization, row.family)
  {
    var read := Read(h, id, presented);
    var a := Apply(s, read);
    if Resolve(s.sessions, s.active, id).None? {
      steps, u := [], a;
    } else {
      var b := Apply(a, Check(h, token, salt));
      var last := if b.handlers[h].Verified? then Rotate(h) else RevokeFamily(h);
      u := Apply(b, last);
      steps := [];
      Prepend(b, last, steps, u);
      steps := [last] + steps;
      Prepend(a, Check(h, token, salt), steps, u);
      steps := [Check(h, token, salt)] + steps;
    }
    Prepend(s, read, steps, u);
    steps := [read] + steps;
  }

  // ---------------------------------------------------------------- the cookie

  function UpToDot(s: string): (r: string)
    ensures |r| <= |s| && s[..|r|] == r && '.' !in r
    ensures |r| < |s| ==> s[|r|] == '.'
  {
    if s == "" || s[0] == '.' then "" else [s[0]] + UpToDot(s[1..])
  }

  /** `cookieValue.split(".", 2)`, refused unless both parts are present and non-empty. */
  function ParseCookie(cookie: string): Option<(SessionId, Token)> {
    var id := UpToDot(cookie);
    if id == "" || |id| == |cookie| then None
    else
      var token := UpToDot(cookie[|id| + 1..]);
      if token == "" then None else Some((id, token))
  }

  lemma {:induction false} UpToDotOf(a: string, b: string)
    requires '.' !in a && (b == "" || b[0] == '.')
    ensures UpToDot(a + b) == a
  {
    if a == "" {
      assert a + b == b;
    } else {
      assert (a + b)[1..] == a[1..] + b;
      UpToDotOf(a[1..], b);
    }
  }

  /** A cookie that the controller sets is read back as the session and token it was made of. */
  lemma CookieRoundTrip(id: SessionId, token: Token)
    requires id != "" && token != "" && '.' !in id && '.' !in token
    ensures ParseCookie(id + "." + token) == Some((id, token))
  {
    assert id + "." + token == id + ("." + token);
    UpToDotOf(id, "." + token);
    assert (id + "." + token)[|id| + 1..] == token + "";
    UpToDotOf(token, "");
  }

  /** The two parts lead the cookie, and behind them comes nothing or another dot. */
  ghost predicate Leads(cookie: string, id: SessionId, token: Token) {
    var n := |id| + 1 + |token|;
    && id != "" && token != "" && '.' !in id && '.' !in token
    && n <= |cookie| && cookie[..n] == id + "." + token && (n < |cookie| ==> cookie[n] == '.')
  }

  lemma LeadingPartsAreRead(cookie: string, id: SessionId, token: Token)
    requires Leads(cookie, id, token)
    ensures ParseCookie(cookie) == Some((id, token))
  {
    var n := |id| + 1 + |token|;
    var rest := cookie[n..];
    assert cookie == id + ("." + token + rest);
    UpToDotOf(id, "." + token + rest);
    assert cookie[|id| + 1..] == token + rest;
    UpToDotOf(token, rest);
  }

  lemma ReadPartsLead(cookie: string, id: SessionId, token: Token)
    requires ParseCookie(cookie) == Some((id, token))
    ensures Leads(cookie, id, token)
  {
    var behind := cookie[|id| + 1..];
    assert behind[..|token|] == token;
    assert cookie[..|id| + 1 + |token|] == cookie[..|id|] + [cookie[|id|]] + behind[..|token|];
  }

  /** Which cookies are accepted, and as what: two non-empty parts without dots in front, and behind them nothing or
      another dot. */
  lemma CookieIff(cookie: string, id: SessionId, token: Token)
    ensures ParseCookie(cookie) == Some((id, token)) <==> Leads(cookie, id, token)
  {
    if Leads(cookie, id, token) { LeadingPartsAreRead(cookie, id, token); }
    if ParseCookie(cookie) == Some((id, token)) { ReadPartsLead(cookie, id, token); }
  }

  // ---------------------------------------------------------------- the service

  /** A row of `resolve_login`: a membership of the user with that address, and the user's password hash. */
  datatype LoginRow = LoginRow(user: Uuid, passwordHash: Option<Hash>, organization: Uuid)

  /** The membership a login is for: the first of the requested organization, or the only one. */
  ghost predicate Selects(rows: seq<LoginRow>, requested: Option<Uuid>, i: nat) {
    && i < |rows|
    && if requested.Some?
       then rows[i].organization == requested.value && forall j :: 0 <= j < i ==> rows[j].organization != requested.value
       else |rows| == 1
  }

  class AuthService {
    var sessions: Table
    var active: set<(Uuid, Uuid)>
    var now: Time

    constructor ()
      ensures sessions == map[] && active == {} && now == 0
    {
      sessions, active, now := map[], {}, 0;
    }

    /** A login opens one session of thirty days for the selected membership, exactly if the address is
        known, the password is right and the membership is determined. */
    method Authenticate(rows: seq<LoginRow>, password: Token, requested: Option<Uuid>,
                        id: SessionId, token: Token, salt: nat, family: Family) returns (r: Option<SessionId>)
      requires id !in sessions
      modifies this`sessions
      ensures r.Some? <==>
        && rows != [] && rows[0].passwordHash.Some? && rows[0].passwordHash.value.token == password
        && exists i: nat :: Selects(rows, requested, i)
      ensures r.None? ==> sessions == old(sessions)
      ensures r.Some? ==> r.value == id && id in sessions && sessions == old(sessions)[id := sessions[id]]
      ensures r.Some? ==> exists i: nat ::
        && Selects(rows, requested, i)
        && sessions[id] == Session(rows[i].organization, rows[i].user, Argon(token, salt), family, now + 2_592_000_000, None)
    {
      if |rows| == 0 || rows[0].passwordHash.None? { return None; }
      if !Verify(rows[0].passwordHash.value, password) { return None; }
      var i := 0;
      if requested.Some? {
        while i < |rows| && rows[i].organization != requested.value
          invariant 0 <= i <= |rows|
          invariant forall j :: 0 <= j < i ==> rows[j].organization != requested.value
        {
          i := i + 1;
        }
        if i == |rows| { return None; }
      } else if |rows| != 1 {
        return None;
      }
      assert Selects(rows, requested, i);
      sessions := sessions[id := Session(rows[i].organization, rows[i].user, Argon(token, salt), family, now + LIFETIME, None)];
      r := Some(id);
    }

    /** Undisturbed, rotation succeeds exactly for the current token of a visible, unexpired session; a
        visible session presented with anything else loses its whole family. */
    method RotateRefreshToken(cookie: string, token: Token, salt: nat) returns (r: Option<(SessionId, Token)>)
      modifies this`sessions
      ensures ParseCookie(cookie).None? ==> r == None && sessions == old(sessions)
      ensures ParseCookie(cookie).Some? ==>
        var (id, presented) := ParseCookie(cookie).value;
        var visible := id in old(sessions) && old(sessions)[id].revokedAt.None?
          && (old(sessions)[id].user, old(sessions)[id].organization) in active;
        if !visible then r == None && sessions == old(sessions)
        else
          var row := old(sessions)[id];
          if row.expiresAt > now && row.hash.token == presented then
            && r == Some((id, token))
            && sessions == old(sessions)[id :=
                 Session(row.organization, row.user, Argon(token, salt), row.family, now + 2_592_000_000, None)]
          else r == None && FamilyRows(old(sessions), sessions, now, row.organization, row.family)
    {
      var parsed := ParseCookie(cookie);
      if parsed.None? { return None; }
      var (id, presented) := parsed.value;
      var found := Resolve(sessions, active, id);
      if found.None? { return None; }
      var row := found.value;
      if row.expiresAt <= now || !Verify(row.hash, presented) {
        sessions := RevokeRows(sessions, now, row.organization, row.family);
        return None;
      }
      if !Swappable(sessions, now, id, row) { return None; }
      sessions := Swap(sessions, now, id, Argon(token, salt));
      r := Some((id, token));
    }

    /** Logging out needs the session identifier only; it revokes a visible session and nothing else. */
    method Revoke(cookie: Option<string>)
      modifies this`sessions
      ensures var id := if cookie.Some? then UpToDot(cookie.value) else "";
        var visible := id in old(sessions) && old(sessions)[id].revokedAt.None?
          && (old(sessions)[id].user, old(sessions)[id].organization) in active;
        if id != "" && visible
        then sessions == old(sessions)[id := old(sessions)[id].(revokedAt := Some(now))]
        else sessions == old(sessions)
    {
      var id := if cookie.Some? then UpToDot(cookie.value) else "";
      if id == "" { return; }
      var found := Resolve(sessions, active, id);
      if found.Some? { sessions := RevokeRow(sessions, now, found.value.organization, id); }
    }
  }
}
