/** Creating document versions: numbering and the duplicate check under concurrent transactions. The lock of
    the document row is taken only if the row exists; statements see what is committed when they run. */
module Versioning {
  import opened Common

  type Uuid = nat
  type Tx = nat

  datatype Version = Version(number: nat, sha256: string, confirmDuplicate: bool)

  /** The largest value of an `integer` column. */
  const MAX_INTEGER: nat := 0x7fff_ffff

  // ---------------------------------------------------------------- statements

  /** `(latest?.number ?? 0)` over `findOne(... order: { number: "DESC" })`. */
  function LatestNumber(versions: seq<Version>): (n: nat)
    ensures forall i :: 0 <= i < |versions| ==> versions[i].number <= n
    ensures n > 0 ==> exists i :: 0 <= i < |versions| && versions[i].number == n
  {
    if versions == [] then 0
    else
      var rest := LatestNumber(versions[..|versions| - 1]);
      var last := versions[|versions| - 1].number;
      if last < rest then rest else last
  }

  predicate HasContent(versions: seq<Version>, sha256: string) {
    exists i :: 0 <= i < |versions| && versions[i].sha256 == sha256
  }

  predicate HasNumber(versions: seq<Version>, number: nat) {
    exists i :: 0 <= i < |versions| && versions[i].number == number
  }

  // ---------------------------------------------------------------- concurrent transactions

  /** How far a transaction got; `holds` says whether it holds the lock of its document. */
  datatype Phase =
    | Begun
    | Looking(holds: bool)
    | Found(holds: bool)
    | HasLatest(holds: bool, latest: nat)
    | Checked(holds: bool, latest: nat)
    | Inserted(holds: bool, row: Version)

  datatype Creation = Creation(document: Uuid, sha256: string, confirmDuplicate: bool, phase: Phase)

  datatype State = State(documents: map<Uuid, seq<Version>>, open: map<Tx, Creation>)

  const Init := State(map[], map[])

  datatype Step =
    | NewDocument(document: Uuid, sha256: string)
    | Begin(tx: Tx, document: Uuid, sha256: string, confirmDuplicate: bool)
    | Lock(tx: Tx)
    | FindDocument(tx: Tx)
    | FindLatest(tx: Tx)
    | FindDuplicate(tx: Tx)
    | Insert(tx: Tx)
    | Commit(tx: Tx)
    | Abort(tx: Tx)

  predicate Holds(c: Creation) { !c.phase.Begun? && c.phase.holds }

  predicate LockedBy(s: State, tx: Tx, document: Uuid) {
    tx in s.open && s.open[tx].document == document && Holds(s.open[tx])
  }

  predicate Pending(s: State, tx: Tx, document: Uuid, number: nat) {
    tx in s.open && s.open[tx].document == document && s.open[tx].phase.Inserted? && s.open[tx].phase.row.number == number
  }

  /** A lock request waits for the holder, an insert for an uncommitted row with the same number. */
  predicate Enabled(s: State, step: Step) {
    match step
    case NewDocument(document, _) => document !in s.documents
    case Begin(tx, _, _, _) => tx !in s.open
    case Lock(tx) =>
      && tx in s.open && s.open[tx].phase.Begun?
      && (s.open[tx].document in s.documents ==> forall t :: t in s.open ==> !LockedBy(s, t, s.open[tx].document))
    case FindDocument(tx) => tx in s.open && s.open[tx].phase.Looking?
    case FindLatest(tx) => tx in s.open && s.open[tx].phase.Found?
    case FindDuplicate(tx) => tx in s.open && s.open[tx].phase.HasLatest?
    case Insert(tx) =>
      && tx in s.open && s.open[tx].phase.Checked?
      && forall t :: t in s.open ==> !Pending(s, t, s.open[tx].document, s.open[tx].phase.latest + 1)
    case Commit(tx) => tx in s.open && s.open[tx].phase.Inserted?
    case Abort(tx) => tx in s.open
  }

  function Rows(s: State, document: Uuid): seq<Version> {
    if document in s.documents then s.documents[document] else []
  }

  function Move(s: State, tx: Tx, phase: Phase): State
    requires tx in s.open
  {
    s.(open := s.open[tx := s.open[tx].(phase := phase)])
  }

  function Close(s: State, tx: Tx): State { s.(open := s.open - {tx}) }

  function Apply(s: State, step: Step): State
    requires Enabled(s, step)
  {
    match step
    case NewDocument(document, sha256) => s.(documents := s.documents[document := [Version(1, sha256, false)]])
    case Begin(tx, document, sha256, confirmDuplicate) =>
      s.(open := s.open[tx := Creation(document, sha256, confirmDuplicate, Begun)])
    case Lock(tx) => Move(s, tx, Looking(s.open[tx].document in s.documents))
    case FindDocument(tx) =>
      if s.open[tx].document in s.documents then Move(s, tx, Found(s.open[tx].phase.holds)) else Close(s, tx)
    case FindLatest(tx) =>
      Move(s, tx, HasLatest(s.open[tx].phase.holds, LatestNumber(Rows(s, s.open[tx].document))))
    case FindDuplicate(tx) =>
      var c := s.open[tx];
      if HasContent(Rows(s, c.document), c.sha256) && !c.confirmDuplicate then Close(s, tx)
      else Move(s, tx, Checked(c.phase.holds, c.phase.latest))
    case Insert(tx) =>
      var c := s.open[tx];
      if HasNumber(Rows(s, c.document), c.phase.latest + 1) || c.phase.latest + 1 > MAX_INTEGER then Close(s, tx)
      else Move(s, tx, Inserted(c.phase.holds, Version(c.phase.latest + 1, c.sha256, c.confirmDuplicate)))
    case Commit(tx) =>
      var c := s.open[tx];
      Close(s.(documents := s.documents[c.document := Rows(s, c.document) + [c.phase.row]]), tx)
    case Abort(tx) => Close(s, tx)
  }

  ghost predicate Run(s: State, steps: seq<Step>, u: State)
    decreases |steps|
  {
    if steps == [] then s == u else Enabled(s, steps[0]) && Run(Apply(s, steps[0]), steps[1..], u)
  }

  // ---------------------------------------------------------------- invariant

  ghost predicate Numbered(versions: seq<Version>) {
    forall i :: 0 <= i < |versions| ==> versions[i].number == i + 1
  }

  ghost predicate RepeatsConfirmed(versions: seq<Version>) {
    forall i, j :: 0 <= i < j < |versions| && versions[i].sha256 == versions[j].sha256 ==> versions[j].confirmDuplicate
  }

  ghost predicate RowsOk(versions: seq<Version>) { Numbered(versions) && RepeatsConfirmed(versions) && |versions| <= MAX_INTEGER }

  /** A number that was read was current once; while it still is, the duplicate check still holds. */
  ghost predicate TxOk(s: State, tx: Tx)
    requires tx in s.open
  {
    var c := s.open[tx];
    var rows := Rows(s, c.document);
    && (c.phase.Begun? || c.phase.Looking? || c.document in s.documents)
    && (c.phase.HasLatest? || c.phase.Checked? ==> c.phase.latest <= |rows|)
    && (c.phase.Checked? && c.phase.latest == |rows| && !c.confirmDuplicate ==> !HasContent(rows, c.sha256))
    && (c.phase.Inserted? ==>
          && c.phase.row == Version(|rows| + 1, c.sha256, c.confirmDuplicate)
          && |rows| < MAX_INTEGER && (!c.confirmDuplicate ==> !HasContent(rows, c.sha256)))
  }

  /** At most one lock holder and at most one uncommitted row for a document. */
  ghost predicate Apart(s: State, a: Tx, b: Tx)
    requires a in s.open && b in s.open
  {
    s.open[a].document == s.open[b].document ==>
      && !(s.open[a].phase.Inserted? && s.open[b].phase.Inserted?)
      && !(Holds(s.open[a]) && Holds(s.open[b]))
  }

  ghost predicate Inv(s: State) {
    && (forall d :: d in s.documents ==> RowsOk(s.documents[d]))
    && (forall tx :: tx in s.open ==> TxOk(s, tx))
    && (forall a, b :: a in s.open && b in s.open && a != b ==> Apart(s, a, b))
  }

  lemma LatestOfNumbered(versions: seq<Version>)
    requires Numbered(versions)
    ensures LatestNumber(versions) == |versions|
    ensures forall n: nat :: HasNumber(versions, n) <==> 1 <= n <= |versions|
  {
    if versions != [] { assert versions[|versions| - 1].number == |versions|; }
    forall n: nat | 1 <= n <= |versions| ensures HasNumber(versions, n) { assert versions[n - 1].number == n; }
  }

  lemma CommitKeeps(s: State, tx: Tx)
    requires Inv(s) && Enabled(s, Commit(tx))
    ensures Inv(Apply(s, Commit(tx)))
  {
    var u := Apply(s, Commit(tx));
    var c := s.open[tx];
    assert TxOk(s, tx);
    assert RowsOk(Rows(s, c.document));
    assert RowsOk(u.documents[c.document]) by {
      var rows := Rows(s, c.document);
      forall i | 0 <= i < |rows| && rows[i].sha256 == c.sha256 ensures c.confirmDuplicate {
        assert c.confirmDuplicate || !HasContent(rows, c.sha256);
      }
    }
    forall t | t in u.open ensures TxOk(u, t) { assert TxOk(s, t) && Apart(s, t, tx); }
    forall a, b | a in u.open && b in u.open && a != b ensures Apart(u, a, b) { assert Apart(s, a, b); }
  }

  lemma TxKept(s: State, step: Step, t: Tx)
    requires Inv(s) && Enabled(s, step) && !step.Commit? && t in Apply(s, step).open
    ensures TxOk(Apply(s, step), t)
  {
    if t in s.open {
      assert TxOk(s, t);
      if step.FindLatest? || step.Insert? { LatestOfNumbered(Rows(s, s.open[t].document)); }
      if step.NewDocument? || t != step.tx { assert Apply(s, step).open[t] == s.open[t]; }
    }
  }

  lemma ApartKept(s: State, step: Step, a: Tx, b: Tx)
    requires Inv(s) && Enabled(s, step) && !step.Commit? && a in Apply(s, step).open && b in Apply(s, step).open && a != b
    requires !(step.Insert? || step.Lock?) || b != step.tx
    ensures Apart(Apply(s, step), a, b)
  {
    if a in s.open && b in s.open {
      assert Apart(s, a, b) && TxOk(s, a) && TxOk(s, b);
      if step.Insert? && a == step.tx {
        LatestOfNumbered(Rows(s, s.open[a].document));
        assert !Pending(s, b, s.open[a].document, s.open[a].phase.latest + 1);
      }
      if step.Lock? && a == step.tx { assert s.open[a].document in s.documents ==> !LockedBy(s, b, s.open[a].document); }
    }
  }

  lemma OtherKeeps(s: State, step: Step)
    requires Inv(s) && Enabled(s, step) && !step.Commit?
    ensures Inv(Apply(s, step))
  {
    var u := Apply(s, step);
    forall t | t in u.open ensures TxOk(u, t) { TxKept(s, step, t); }
    forall a, b | a in u.open && b in u.open && a != b ensures Apart(u, a, b) {
      if (step.Insert? || step.Lock?) && b == step.tx { ApartKept(s, step, b, a); } else { ApartKept(s, step, a, b); }
    }
    forall d | d in u.documents ensures RowsOk(u.documents[d]) {
      if d in s.documents { assert RowsOk(s.documents[d]); }
    }
  }

  lemma {:induction false} RunKeeps(s: State, steps: seq<Step>, u: State)
    requires Inv(s) && Run(s, steps, u)
    ensures Inv(u)
    decreases |steps|
  {
    if steps != [] {
      if steps[0].Commit? { CommitKeeps(s, steps[0].tx); } else { OtherKeeps(s, steps[0]); }
      RunKeeps(Apply(s, steps[0]), steps[1..], u);
    }
  }

  // ---------------------------------------------------------------- guarantees

  /** Over any interleaving of committing and aborting transactions, the versions of every document are
      numbered exactly 1..n in the order of their commits. */
  lemma NumbersAreDense(steps: seq<Step>, u: State, document: Uuid)
    requires Run(Init, steps, u) && document in u.documents
    ensures forall i :: 0 <= i < |u.documents[document]| ==> u.documents[document][i].number == i + 1
  {
    RunKeeps(Init, steps, u);
    assert RowsOk(u.documents[document]);
  }

  /** A version with the digest text of an earlier one was created with `confirmDuplicate`. */
  lemma RepeatsAreConfirmed(steps: seq<Step>, u: State, document: Uuid, i: nat, j: nat)
    requires Run(Init, steps, u) && document in u.documents && i < j < |u.documents[document]|
    requires u.documents[document][i].sha256 == u.documents[document][j].sha256
    ensures u.documents[document][j].confirmDuplicate
  {
    RunKeeps(Init, steps, u);
    assert RowsOk(u.documents[document]);
  }

  /** No step of the run asked for the lock of a document that does not exist yet. */
  ghost predicate LocksExisting(s: State, steps: seq<Step>)
    decreases |steps|
  {
    steps == [] || (Enabled(s, steps[0]) && (steps[0].Lock? ==> s.open[steps[0].tx].document in s.documents)
                    && LocksExisting(Apply(s, steps[0]), steps[1..]))
  }

  /** Whoever is past the lock holds it, and what it read as the latest number still is. */
  ghost predicate HolderOk(s: State, tx: Tx)
    requires tx in s.open
  {
    var p := s.open[tx].phase;
    && (p.Begun? || (p.holds && s.open[tx].document in s.documents))
    && (p.HasLatest? || p.Checked? ==> p.latest == |Rows(s, s.open[tx].document)|)
  }

  lemma {:induction false} HoldersStay(s: State, steps: seq<Step>, u: State)
    requires Inv(s) && Run(s, steps, u) && LocksExisting(s, steps)
    requires forall tx :: tx in s.open ==> HolderOk(s, tx)
    ensures forall tx :: tx in u.open ==> HolderOk(u, tx)
    decreases |steps|
  {
    if steps != [] {
      var step := steps[0];
      var m := Apply(s, step);
      RunKeeps(s, [step], m);
      forall tx | tx in m.open ensures HolderOk(m, tx) {
        if tx in s.open {
          assert HolderOk(s, tx);
          if step.FindLatest? && step.tx == tx { LatestOfNumbered(Rows(s, s.open[tx].document)); }
          if step.Commit? { assert Apart(s, tx, step.tx) && HolderOk(s, step.tx); }
        }
      }
      HoldersStay(m, steps[1..], u);
    }
  }

  /** What the row lock buys: when every document existed before it was locked, no insert is ever refused
      by the uniqueness of the number, only by the range of the column. */
  lemma LockedInsertsSucceed(steps: seq<Step>, s: State, tx: Tx)
    requires Run(Init, steps, s) && LocksExisting(Init, steps) && Enabled(s, Insert(tx))
    ensures tx in Apply(s, Insert(tx)).open <==> |Rows(s, s.open[tx].document)| < 2_147_483_647
  {
    RunKeeps(Init, steps, s);
    HoldersStay(Init, steps, s);
    assert HolderOk(s, tx);
    LatestOfNumbered(Rows(s, s.open[tx].document));
  }

  // ---------------------------------------------------------------- the check of the upload

  datatype Error = InvalidUpload | MemberNotFound | NotFound | DuplicateContent | OutOfRange

  predicate IsHex(c: char) { '0' <= c <= '9' || 'a' <= c <= 'f' || 'A' <= c <= 'F' }

  /** `/^[a-f0-9]{64}$/i`. */
  predicate IsDigestText(s: string) { |s| == 64 && forall i :: 0 <= i < 64 ==> IsHex(s[i]) }

  const MAX_UPLOAD_BYTES: int := 25 * 1024 * 1024

  datatype ContentType = Pdf | Png | Jpeg | OtherType

  predicate ValidUpload(contentType: ContentType, size: int, sha256: string) {
    contentType != OtherType && 1 <= size <= MAX_UPLOAD_BYTES && IsDigestText(sha256)
  }

  function LowerChar(c: char): char {
    if 'A' <= c <= 'F' then (c as int + 32) as char else c
  }

  /** Two texts of the same digest. */
  ghost predicate SameDigest(a: string, b: string) {
    |a| == |b| && forall i :: 0 <= i < |a| ==> LowerChar(a[i]) == LowerChar(b[i])
  }

  lemma Prepend(s: State, step: Step, steps: seq<Step>, u: State)
    requires Enabled(s, step) && Run(Apply(s, step), steps, u)
    ensures Run(s, [step] + steps, u)
  {
    assert ([step] + steps)[1..] == steps;
  }

  function Only(documents: map<Uuid, seq<Version>>, c: Creation): State { State(documents, map[0 := c]) }

  /** From the start of an undisturbed creation for an existing document to the number it read. */
  lemma CreationReads(s: State, document: Uuid, sha256: string, confirmDuplicate: bool) returns (steps: seq<Step>, u: State)
    requires s.open == map[] && document in s.documents && RowsOk(s.documents[document])
    ensures Run(s, steps, u)
    ensures u == Only(s.documents, Creation(document, sha256, confirmDuplicate, HasLatest(true, |s.documents[document]|)))
  {
    var begin := Begin(0, document, sha256, confirmDuplicate);
    var a := Apply(s, begin);
    var b := Apply(a, Lock(0));
    var c := Apply(b, FindDocument(0));
    LatestOfNumbered(s.documents[document]);
    u := Apply(c, FindLatest(0));
    assert u.open == map[0 := u.open[0]];
    steps := [];
    Prepend(c, FindLatest(0), steps, u); steps := [FindLatest(0)] + steps;
    Prepend(b, FindDocument(0), steps, u); steps := [FindDocument(0)] + steps;
    Prepend(a, Lock(0), steps, u); steps := [Lock(0)] + steps;
    Prepend(s, begin, steps, u); steps := [begin] + steps;
  }

  /** From the passed duplicate check to the end. */
  lemma CreationWrites(s: State, document: Uuid, sha256: string, confirmDuplicate: bool) returns (steps: seq<Step>, u: State)
    requires document in s.documents && RowsOk(s.documents[document])
    requires s == Only(s.documents, Creation(document, sha256, confirmDuplicate, Checked(true, |s.documents[document]|)))
    ensures Run(s, steps, u) && u.open == map[]
    ensures var rows := s.documents[document];
      u.documents == if |rows| < MAX_INTEGER
                     then s.documents[document := rows + [Version(|rows| + 1, sha256, confirmDuplicate)]] else s.documents
  {
    LatestOfNumbered(s.documents[document]);
    var a := Apply(s, Insert(0));
    steps := [];
    if |s.documents[document]| < MAX_INTEGER {
      u := Apply(a, Commit(0));
      Prepend(a, Commit(0), steps, u); steps := [Commit(0)] + steps;
    } else {
      u := a;
    }
    Prepend(s, Insert(0), steps, u); steps := [Insert(0)] + steps;
  }

  lemma {:induction false} Then(s: State, first: seq<Step>, m: State, second: seq<Step>, u: State)
    requires Run(s, first, m) && Run(m, second, u)
    ensures Run(s, first + second, u)
    decreases |first|
  {
    if first == [] {
      assert first + second == second;
    } else {
      Then(Apply(s, first[0]), first[1..], m, second, u);
      assert (first + second)[1..] == first[1..] + second;
    }
  }

  /** An undisturbed creation adds the next version, unless the document is missing, its content is there and
      not confirmed, or the numbers are used up; then it changes nothing. */
  lemma CreationCommits(s: State, document: Uuid, sha256: string, confirmDuplicate: bool) returns (steps: seq<Step>, u: State)
    requires s.open == map[] && (document in s.documents ==> RowsOk(s.documents[document]))
    ensures Run(s, steps, u) && u.open == map[]
    ensures var rows := Rows(s, document);
      var repeats := exists i :: 0 <= i < |rows| && rows[i].sha256 == sha256;
      u.documents == if document in s.documents && (confirmDuplicate || !repeats) && |rows| < 2_147_483_647
                     then s.documents[document := rows + [Version(|rows| + 1, sha256, confirmDuplicate)]] else s.documents
  {
    if document !in s.documents {
      steps, u := CreationMissesDocument(s, document, sha256, confirmDuplicate);
    } else {
      var m: State;
      steps, m := CreationReads(s, document, sha256, confirmDuplicate);
      var c := Apply(m, FindDuplicate(0));
      var rest: seq<Step>;
      if 0 in c.open {
        rest, u := CreationWrites(c, document, sha256, confirmDuplicate);
      } else {
        rest, u := [], c;
      }
      Prepend(m, FindDuplicate(0), rest, u);
      Then(s, steps, m, [FindDuplicate(0)] + rest, u);
      steps := steps + ([FindDuplicate(0)] + rest);
    }
  }

  lemma CreationMissesDocument(s: State, document: Uuid, sha256: string, confirmDuplicate: bool)
    returns (steps: seq<Step>, u: State)
    requires s.open == map[] && document !in s.documents
    ensures Run(s, steps, u) && u == s
  {
    var begin := Begin(0, document, sha256, confirmDuplicate);
    var a := Apply(s, begin);
    var b := Apply(a, Lock(0));
    u := Apply(b, FindDocument(0));
    assert u.open == map[];
    steps := [];
    Prepend(b, FindDocument(0), steps, u); steps := [FindDocument(0)] + steps;
    Prepend(a, Lock(0), steps, u); steps := [Lock(0)] + steps;
    Prepend(s, begin, steps, u); steps := [begin] + steps;
  }

  /** The duplicate check compares texts, so the same digest in other letter case passes it unconfirmed. */
  lemma CaseVariantPassesUnconfirmed() returns (steps: seq<Step>, u: State)
    ensures Run(Init, steps, u) && 0 in u.documents && |u.documents[0]| == 2
    ensures IsDigestText(u.documents[0][0].sha256) && IsDigestText(u.documents[0][1].sha256)
    ensures SameDigest(u.documents[0][0].sha256, u.documents[0][1].sha256)
    ensures !u.documents[0][1].confirmDuplicate
  {
    var lower := seq(64, i => 'a');
    var upper := seq(64, i => 'A');
    assert lower[0] != upper[0];
    var a := Apply(Init, NewDocument(0, lower));
    assert a.documents[0] == [Version(1, lower, false)];
    steps, u := CreationCommits(a, 0, upper, false);
    Prepend(Init, NewDocument(0, lower), steps, u);
    steps := [NewDocument(0, lower)] + steps;
    assert u.documents[0] == [Version(1, lower, false), Version(2, upper, false)];
  }

  // ---------------------------------------------------------------- the service

  class DocumentVersionsService {
    var documents: map<Uuid, seq<Version>>
    var members: set<Uuid>

    ghost predicate Valid()
      reads this
    {
      forall d :: d in documents ==> RowsOk(documents[d])
    }

    constructor ()
      ensures documents == map[] && members == {} && Valid()
    {
      documents, members := map[], {};
    }

    /** A new document of an active member starts with version 1. */
    method CreateDocument(document: Uuid, responsible: Uuid, contentType: ContentType, size: int, sha256: string)
      returns (r: Result<nat, Error>)
      requires Valid() && document !in documents
      modifies this`documents
      ensures Valid()
      ensures
        var valid := contentType in {Pdf, Png, Jpeg} && 1 <= size <= 26_214_400 && |sha256| == 64
          && forall i :: 0 <= i < 64 ==> '0' <= sha256[i] <= '9' || 'a' <= sha256[i] <= 'f' || 'A' <= sha256[i] <= 'F';
        r == if !valid then Err(InvalidUpload) else if responsible !in members then Err(MemberNotFound) else Ok(1)
      ensures documents == if r.Ok? then old(documents)[document := [Version(1, sha256, false)]] else old(documents)
    {
      if !ValidUpload(contentType, size, sha256) { return Err(InvalidUpload); }
      if responsible !in members { return Err(MemberNotFound); }
      documents := documents[document := [Version(1, sha256, false)]];
      r := Ok(1);
    }

    /** Undisturbed, a creation gets the next number; a digest text that is there needs the confirmation. */
    method Create(document: Uuid, contentType: ContentType, size: int, sha256: string, confirmDuplicate: bool)
      returns (r: Result<nat, Error>)
      requires Valid()
      modifies this`documents
      ensures Valid()
      ensures r.Err? ==> documents == old(documents)
      ensures r.Ok? ==> document in old(documents) && r.value == |old(documents)[document]| + 1
      ensures r.Ok? ==>
        documents == old(documents)[document := old(documents)[document] + [Version(r.value, sha256, confirmDuplicate)]]
      ensures
        var valid := contentType in {Pdf, Png, Jpeg} && 1 <= size <= 26_214_400 && |sha256| == 64
          && forall i :: 0 <= i < 64 ==> '0' <= sha256[i] <= '9' || 'a' <= sha256[i] <= 'f' || 'A' <= sha256[i] <= 'F';
        if !valid then r == Err(InvalidUpload)
        else if document !in old(documents) then r == Err(NotFound)
        else
          var rows := old(documents)[document];
          if !confirmDuplicate && exists i :: 0 <= i < |rows| && rows[i].sha256 == sha256 then r == Err(DuplicateContent)
          else if |rows| == 2_147_483_647 then r == Err(OutOfRange)
          else r.Ok?
    {
      if !ValidUpload(contentType, size, sha256) { return Err(InvalidUpload); }
      if document !in documents { return Err(NotFound); }
      var rows := documents[document];
      LatestOfNumbered(rows);
      var latest := LatestNumber(rows);
      var duplicate := HasContent(rows, sha256);
      if duplicate && !confirmDuplicate { return Err(DuplicateContent); }
      if HasNumber(rows, latest + 1) || latest + 1 > MAX_INTEGER { return Err(OutOfRange); }
      documents := documents[document := rows + [Version(latest + 1, sha256, confirmDuplicate)]];
      r := Ok(latest + 1);
    }
  }
}
