/** Extracted fields: how the raw entries of one extraction become records, how records are upserted into
    the table, and how human corrections keep the history of a field. */
module Fields {
  import opened Common
  import opened Entities
  import Worker

  datatype ReviewState = Unreviewed | NeedsReview | Corrected

  datatype Record = Record(
    key: string, value: Option<string>, source: Source, page: Option<int>, excerpt: Option<string>,
    confidence: Option<real>, reviewState: ReviewState)

  /** A field with no value or with low confidence must be looked at by a human. */
  function Classify(value: Option<string>, confidence: Option<real>): ReviewState {
    if value.None? || Blank(value.value) then NeedsReview
    else if confidence.Some? && confidence.value < 0.8 then NeedsReview
    else Unreviewed
  }

  // ---------------------------------------------------------------- normalization

  /** The last entry of a key; entries with a blank key do not count. */
  function Last(raw: seq<RawField>, key: string): (r: Option<RawField>)
    ensures r.Some? ==> r.value in raw && r.value.key == key && !Blank(key)
  {
    if raw == [] then None
    else
      var last := raw[|raw| - 1];
      if last.key == key && !Blank(key) then Some(last) else Last(raw[..|raw| - 1], key)
  }

  /** Non-blank keys in order of first appearance: the iteration order of the map. */
  function Seen(raw: seq<RawField>): (keys: seq<string>)
    ensures Distinct(keys)
    ensures forall k :: k in keys <==> Last(raw, k).Some?
  {
    if raw == [] then []
    else
      var rest := Seen(raw[..|raw| - 1]);
      var key := raw[|raw| - 1].key;
      if Blank(key) || key in rest then rest else rest + [key]
  }

  /** `new Set([...base, ...more])`: adding a key again does not move it. */
  function Union(base: seq<string>, more: seq<string>): (keys: seq<string>)
    requires Distinct(base)
    ensures Distinct(keys) && |base| <= |keys| && keys[..|base|] == base
    ensures forall k :: k in keys <==> k in base || k in more
  {
    if more == [] then base
    else
      var last := more[|more| - 1];
      var keys := Union(base, more[..|more| - 1]);
      assert more == more[..|more| - 1] + [last];
      if last in keys then keys else keys + [last]
  }

  function Normalize(key: string, raw: Option<RawField>): Record {
    var value := if raw.Some? then raw.value.value else None;
    var confidence := if raw.Some? then raw.value.confidence else None;
    Record(key, value,
           if raw.Some? && raw.value.source.Some? then raw.value.source.value else Local,
           if raw.Some? then raw.value.page else None,
           if raw.Some? then raw.value.excerpt else None,
           confidence, Classify(value, confidence))
  }

  /** The required keys first, then the remaining ones as they appeared. */
  function Records(required: seq<string>, raw: seq<RawField>): (records: seq<Record>)
    requires Distinct(required)
    ensures KeysApart(records)
  {
    var keys := Union(required, Seen(raw));
    seq(|keys|, i requires 0 <= i < |keys| => Normalize(keys[i], Last(raw, keys[i])))
  }

  ghost predicate KeysApart(records: seq<Record>) {
    forall i, j :: 0 <= i < j < |records| ==> records[i].key != records[j].key
  }

  /** The insertion-ordered map filled by the first loop: its keys and its entries. */
  method CollectByKey(rawFields: seq<RawField>) returns (order: seq<string>, byKey: map<string, RawField>)
    ensures order == Seen(rawFields)
    ensures forall k :: k in byKey <==> k in order
    ensures forall k :: k in byKey ==> Last(rawFields, k) == Some(byKey[k])
  {
    order, byKey := [], map[];
    for i := 0 to |rawFields|
      invariant order == Seen(rawFields[..i])
      invariant forall k :: k in byKey <==> k in order
      invariant forall k :: k in byKey ==> Last(rawFields[..i], k) == Some(byKey[k])
    {
      var field := rawFields[i];
      assert rawFields[..i + 1][..i] == rawFields[..i];
      if !Blank(field.key) {
        if field.key !in byKey { order := order + [field.key]; }
        byKey := byKey[field.key := field];
      }
    }
    assert rawFields[..|rawFields|] == rawFields;
  }

  method UnionOfKeys(base: seq<string>, more: seq<string>) returns (keys: seq<string>)
    requires Distinct(base)
    ensures keys == Union(base, more)
  {
    keys := base;
    for i := 0 to |more|
      invariant keys == Union(base, more[..i])
    {
      assert more[..i + 1][..i] == more[..i];
      if more[i] !in keys { keys := keys + [more[i]]; }
    }
    assert more[..|more|] == more;
  }

  /** The final `map` over the keys. */
  method NormalizeKeys(keys: seq<string>, byKey: map<string, RawField>) returns (records: seq<Record>)
    ensures |records| == |keys|
    ensures forall j :: 0 <= j < |keys| ==> records[j] == Normalize(keys[j], if keys[j] in byKey then Some(byKey[keys[j]]) else None)
  {
    records := [];
    for i := 0 to |keys|
      invariant |records| == i
      invariant forall j :: 0 <= j < i ==> records[j] == Normalize(keys[j], if keys[j] in byKey then Some(byKey[keys[j]]) else None)
    {
      records := records + [Normalize(keys[i], if keys[i] in byKey then Some(byKey[keys[i]]) else None)];
    }
  }

  method BuildRecords(required: seq<string>, rawFields: seq<RawField>) returns (records: seq<Record>)
    requires Distinct(required)
    ensures records == Records(required, rawFields)
  {
    var order, byKey := CollectByKey(rawFields);
    var keys := UnionOfKeys(required, order);
    records := NormalizeKeys(keys, byKey);
    forall j | 0 <= j < |keys| ensures records[j] == Records(required, rawFields)[j] {
      assert keys[j] !in byKey ==> Last(rawFields, keys[j]).None?;
    }
  }

  /** Position `i` holds the last entry of its key. */
  ghost predicate LastAt(raw: seq<RawField>, i: nat)
    requires i < |raw|
  {
    !Blank(raw[i].key) && forall j :: i < j < |raw| ==> raw[j].key != raw[i].key
  }

  lemma {:induction false} LastIsAtItsPosition(raw: seq<RawField>, i: nat)
    requires i < |raw| && LastAt(raw, i)
    ensures Last(raw, raw[i].key) == Some(raw[i])
  {
    var init := raw[..|raw| - 1];
    if i < |init| {
      forall j | i < j < |init| ensures init[j].key != init[i].key { assert raw[j].key != raw[i].key; }
      LastIsAtItsPosition(init, i);
    }
  }

  lemma {:induction false} LastHasAPosition(raw: seq<RawField>, key: string) returns (i: nat)
    requires Last(raw, key).Some?
    ensures i < |raw| && raw[i].key == key && LastAt(raw, i)
  {
    i := |raw| - 1;
    if raw[i].key != key {
      var init := raw[..i];
      var n := i;
      i := LastHasAPosition(init, key);
      forall j | i < j < |raw| ensures raw[j].key != raw[i].key {
        if j < n { assert init[j].key != init[i].key; }
      }
    }
  }

  /** The record has the properties of the entry, column by column; without a source it counts as local. */
  ghost predicate FromEntry(r: Record, f: RawField) {
    && r.key == f.key && r.value == f.value && r.page == f.page && r.excerpt == f.excerpt && r.confidence == f.confidence
    && r.source == (if f.source.Some? then f.source.value else Local)
  }

  /** The empty record of a required key. */
  ghost predicate IsPlaceholder(r: Record) {
    r.value == None && r.source == Local && r.page == None && r.excerpt == None && r.confidence == None
  }

  /** A record stems from the last entry of its key, or is the placeholder of a required key without entry. */
  ghost predicate StemsFrom(required: seq<string>, raw: seq<RawField>, r: Record) {
    || (exists i :: 0 <= i < |raw| && LastAt(raw, i) && FromEntry(r, raw[i]))
    || (r.key in required && IsPlaceholder(r) && forall i :: 0 <= i < |raw| && raw[i].key == r.key ==> Blank(r.key))
  }

  ghost predicate HasRecord(records: seq<Record>, f: RawField) {
    exists n :: 0 <= n < |records| && FromEntry(records[n], f)
  }

  lemma RecordsStem(required: seq<string>, raw: seq<RawField>, r: Record)
    requires Distinct(required) && r in Records(required, raw)
    ensures StemsFrom(required, raw, r)
  {
    var keys := Union(required, Seen(raw));
    var n :| 0 <= n < |keys| && r == Normalize(keys[n], Last(raw, keys[n]));
    if Last(raw, r.key).Some? {
      var i := LastHasAPosition(raw, r.key);
      LastIsAtItsPosition(raw, i);
      assert FromEntry(r, raw[i]);
    } else {
      forall i | 0 <= i < |raw| && raw[i].key == r.key ensures Blank(r.key) { AbsentKey(raw, r.key, i); }
    }
  }

  lemma {:induction false} AbsentKey(raw: seq<RawField>, key: string, i: nat)
    requires i < |raw| && Last(raw, key).None? && raw[i].key == key
    ensures Blank(key)
  {
    if i < |raw| - 1 { AbsentKey(raw[..|raw| - 1], key, i); }
  }

  /** The review state says whether a human must look at the record. */
  ghost predicate Classified(r: Record) {
    && (r.reviewState == Unreviewed <==>
        r.value.Some? && !Blank(r.value.value) && (r.confidence.None? || r.confidence.value >= 0.8))
    && r.reviewState != Corrected
  }

  /** Every key once: the required keys lead, in their order; each other non-blank key follows; each record
      carries the last entry of its key, and escapes review exactly when its value is not blank and its
      confidence is absent or at least 0.8. */
  lemma RecordsKeepLastOfEachKey(required: seq<string>, raw: seq<RawField>)
    requires Distinct(required)
    ensures var records := Records(required, raw);
      && KeysApart(records) && |required| <= |records|
      && (forall i :: 0 <= i < |required| ==> records[i].key == required[i])
      && (forall i :: 0 <= i < |raw| && LastAt(raw, i) ==> HasRecord(records, raw[i]))
      && (forall r :: r in records ==> StemsFrom(required, raw, r) && Classified(r))
  {
    var keys := Union(required, Seen(raw));
    var records := Records(required, raw);
    forall i | 0 <= i < |required| ensures records[i].key == required[i] {
      assert keys[..|required|][i] == required[i];
    }
    forall i | 0 <= i < |raw| && LastAt(raw, i) ensures HasRecord(records, raw[i]) {
      LastIsAtItsPosition(raw, i);
      var n :| 0 <= n < |keys| && keys[n] == raw[i].key;
      assert FromEntry(records[n], raw[i]);
    }
    forall r | r in records ensures StemsFrom(required, raw, r) && Classified(r) { RecordsStem(required, raw, r); }
  }

  /** Position `i` holds the first entry of its key. */
  ghost predicate FirstAt(raw: seq<RawField>, i: nat, key: string) {
    i < |raw| && raw[i].key == key && !Blank(key) && forall j :: 0 <= j < i ==> raw[j].key != key
  }

  lemma {:induction false} SeenSince(raw: seq<RawField>, key: string) returns (p: nat)
    requires key in Seen(raw)
    ensures FirstAt(raw, p, key)
  {
    var n := |raw| - 1;
    var init := raw[..n];
    if key in Seen(init) {
      p := SeenSince(init, key);
    } else {
      p := n;
      forall j | 0 <= j < n ensures raw[j].key != key {
        if init[j].key == key { AbsentKey(init, key, j); }
      }
    }
  }

  /** The keys are seen in the order of their first entries. */
  lemma {:induction false} SeenInOrder(raw: seq<RawField>, i: nat, j: nat) returns (p: nat, q: nat)
    requires i < j < |Seen(raw)|
    ensures p < q && FirstAt(raw, p, Seen(raw)[i]) && FirstAt(raw, q, Seen(raw)[j])
  {
    var n := |raw| - 1;
    var init := raw[..n];
    if j < |Seen(init)| {
      p, q := SeenInOrder(init, i, j);
    } else {
      p := SeenSince(init, Seen(init)[i]);
      q := SeenSince(raw, Seen(raw)[j]);
      assert q < n ==> FirstAt(init, q, init[q].key);
      if q < n { SeenAgain(init, q); }
    }
  }

  /** A key that is not blank is seen. */
  lemma {:induction false} SeenAgain(raw: seq<RawField>, i: nat)
    requires i < |raw| && !Blank(raw[i].key)
    ensures raw[i].key in Seen(raw)
  {
    if i < |raw| - 1 { SeenAgain(raw[..|raw| - 1], i); }
  }

  lemma {:induction false} UnionInOrder(base: seq<string>, more: seq<string>, i: nat, j: nat) returns (p: nat, q: nat)
    requires Distinct(base) && |base| <= i < j < |Union(base, more)|
    ensures p < q < |more| && more[p] == Union(base, more)[i] && more[q] == Union(base, more)[j]
  {
    var n := |more| - 1;
    var keys := Union(base, more[..n]);
    if j < |keys| {
      p, q := UnionInOrder(base, more[..n], i, j);
    } else {
      p := UnionPosition(base, more[..n], i);
      q := n;
    }
  }

  lemma {:induction false} UnionPosition(base: seq<string>, more: seq<string>, i: nat) returns (p: nat)
    requires Distinct(base) && |base| <= i < |Union(base, more)|
    ensures p < |more| && more[p] == Union(base, more)[i]
  {
    var n := |more| - 1;
    if i < |Union(base, more[..n])| { p := UnionPosition(base, more[..n], i); } else { p := n; }
  }

  /** The records behind the required ones keep the order in which their keys first appeared. */
  lemma RecordsKeepOrder(required: seq<string>, raw: seq<RawField>, i: nat, j: nat) returns (p: nat, q: nat)
    requires Distinct(required) && |required| <= i < j < |Records(required, raw)|
    ensures p < q && FirstAt(raw, p, Records(required, raw)[i].key) && FirstAt(raw, q, Records(required, raw)[j].key)
  {
    var a, b := UnionInOrder(required, Seen(raw), i, j);
    p, q := SeenInOrder(raw, a, b);
  }

  predicate Usable(s: Worker.Suggestion, key: string) { s.field == Some(key) && s.value.Some? }

  /** Position `j` holds the last usable suggestion for the key. */
  ghost predicate LastUsable(suggestions: seq<Worker.Suggestion>, j: nat, key: string) {
    && j < |suggestions| && Usable(suggestions[j], key)
    && forall l :: j < l < |suggestions| ==> !Usable(suggestions[l], key)
  }

  /** What the worker makes of a suggestion. */
  ghost predicate FromSuggestion(f: RawField, s: Worker.Suggestion) {
    && s.field == Some(f.key) && f.value == s.value && f.source == Some(Ai) && f.page == None && f.confidence == Some(0.5)
    && f.excerpt == Some(if |s.evidence| <= 500 then s.evidence else s.evidence[..500])
  }

  /** How many of the suggestions name a field and a value as text. */
  function UsableCount(suggestions: seq<Worker.Suggestion>): nat {
    if suggestions == [] then 0
    else
      var last := suggestions[|suggestions| - 1];
      UsableCount(suggestions[..|suggestions| - 1]) + if last.field.Some? && last.value.Some? then 1 else 0
  }

  /** Every usable suggestion becomes one entry, in the order of the suggestions, and nothing else does. */
  lemma {:induction false} SuggestionsInOrder(suggestions: seq<Worker.Suggestion>, j: nat)
    requires j < |suggestions|
    ensures |Worker.AiFields(suggestions)| == UsableCount(suggestions)
    ensures suggestions[j].field.Some? && suggestions[j].value.Some? ==>
      UsableCount(suggestions[..j]) < |Worker.AiFields(suggestions)|
      && FromSuggestion(Worker.AiFields(suggestions)[UsableCount(suggestions[..j])], suggestions[j])
  {
    var n := |suggestions| - 1;
    var init := suggestions[..n];
    if n > 0 { SuggestionsInOrder(init, if j < n then j else 0); }
    assert suggestions[n].evidence[..|suggestions[n].evidence|] == suggestions[n].evidence;
    if j < n { assert init[..j] == suggestions[..j]; }
  }

  /** The last suggested entry of a key is made of the last usable suggestion for it. */
  lemma {:induction false} LastSuggested(suggestions: seq<Worker.Suggestion>, key: string) returns (i: nat, j: nat)
    requires exists l :: 0 <= l < |suggestions| && Usable(suggestions[l], key)
    ensures var ai := Worker.AiFields(suggestions);
      && i < |ai| && ai[i].key == key && (forall l :: i < l < |ai| ==> ai[l].key != key)
      && LastUsable(suggestions, j, key) && FromSuggestion(ai[i], suggestions[j])
  {
    var n := |suggestions| - 1;
    var init := suggestions[..n];
    if Usable(suggestions[n], key) {
      i, j := |Worker.AiFields(init)|, n;
      assert suggestions[n].evidence[..|suggestions[n].evidence|] == suggestions[n].evidence;
    } else {
      var l :| 0 <= l < |suggestions| && Usable(suggestions[l], key);
      assert Usable(init[l], key);
      i, j := LastSuggested(init, key);
      forall m | j < m < |suggestions| ensures !Usable(suggestions[m], key) {
        if m < n { assert !Usable(init[m], key); }
      }
    }
  }

  /** The record of a key is made of its last entry. */
  lemma LastEntryCounts(required: seq<string>, raw: seq<RawField>, r: Record, n: nat)
    requires Distinct(required) && r in Records(required, raw)
    requires n < |raw| && raw[n].key == r.key && !Blank(r.key) && forall l :: n < l < |raw| ==> raw[l].key != r.key
    ensures FromEntry(r, raw[n]) && Classified(r)
  {
    RecordsStem(required, raw, r);
    var m :| 0 <= m < |raw| && LastAt(raw, m) && FromEntry(r, raw[m]);
    assert m == n;
  }

  /** Suggestions of the language model come after the worker's own entries, so they win over them: the record
      carries value and evidence of the last usable one, and its confidence of 0.5 sends it to review. */
  lemma SuggestionsAreReviewed(required: seq<string>, local: seq<RawField>, suggestions: seq<Worker.Suggestion>, r: Record)
    requires Distinct(required) && r in Records(required, local + Worker.AiFields(suggestions))
    requires !Blank(r.key) && exists l :: 0 <= l < |suggestions| && Usable(suggestions[l], r.key)
    ensures r.source == Ai && r.confidence == Some(0.5) && r.reviewState == NeedsReview && r.page == None
    ensures exists j: nat ::
      && LastUsable(suggestions, j, r.key) && r.value == suggestions[j].value
      && r.excerpt == Some(if |suggestions[j].evidence| <= 500 then suggestions[j].evidence else suggestions[j].evidence[..500])
  {
    var ai := Worker.AiFields(suggestions);
    var raw := local + ai;
    var i, j := LastSuggested(suggestions, r.key);
    assert raw[|local| + i] == ai[i];
    forall l | |local| + i < l < |raw| ensures raw[l].key != r.key { assert raw[l] == ai[l - |local|]; }
    LastEntryCounts(required, raw, r, |local| + i);
  }

  // ---------------------------------------------------------------- the required keys

  const REQUIRED: seq<string> := ["identifier", "issuer", "relevant_date", "value"]

  lemma RequiredKeys()
    ensures Distinct(REQUIRED)
  {
    assert |REQUIRED[0]| == 10 && |REQUIRED[1]| == 6 && |REQUIRED[2]| == 13 && |REQUIRED[3]| == 5;
  }

  function Build(raw: seq<RawField>): seq<Record> {
    RequiredKeys();
    Records(REQUIRED, raw)
  }

  method BuildFieldRecords(rawFields: seq<RawField>) returns (records: seq<Record>)
    ensures records == Build(rawFields) && KeysApart(records)
    ensures forall k :: k in REQUIRED ==> exists r :: r in records && r.key == k
    ensures |records| >= 4 && records[0].key == "identifier" && records[1].key == "issuer"
    ensures records[2].key == "relevant_date" && records[3].key == "value"
    ensures forall i :: 0 <= i < |rawFields| && LastAt(rawFields, i) ==> HasRecord(records, rawFields[i])
    ensures forall r :: r in records ==> StemsFrom(REQUIRED, rawFields, r) && Classified(r)
  {
    RequiredKeys();
    records := BuildRecords(REQUIRED, rawFields);
    RecordsKeepLastOfEachKey(REQUIRED, rawFields);
    forall k | k in REQUIRED ensures exists r :: r in records && r.key == k {
      var i :| 0 <= i < |REQUIRED| && REQUIRED[i] == k;
      assert records[i].key == k;
    }
  }

  // ---------------------------------------------------------------- the table

  /** What a correction displaces. */
  datatype Past = Past(value: Option<string>, source: Source, reviewer: Option<Uuid>)

  datatype Field = Field(
    organization: Uuid, version: Uuid, key: string, value: Option<string>, originalValue: Option<string>,
    previousValues: seq<Past>, source: Source, page: Option<int>, excerpt: Option<string>,
    confidence: Option<real>, reviewState: ReviewState, reviewer: Option<Uuid>)

  /** The column constraints: `varchar(64)` keys and a confidence between 0 and 1. */
  predicate InRange(confidence: Option<real>) {
    confidence.None? || 0.0 <= confidence.value <= 1.0
  }

  predicate Storable(r: Record) { |r.key| <= 64 && InRange(r.confidence) }

  predicate IsRow(f: Field, organization: Uuid, version: Uuid, key: string) {
    f.organization == organization && f.version == version && f.key == key
  }

  function Find(rows: seq<Field>, organization: Uuid, version: Uuid, key: string): (r: Option<nat>)
    ensures r.Some? ==> r.value < |rows| && IsRow(rows[r.value], organization, version, key)
    ensures r.None? ==> forall i :: 0 <= i < |rows| ==> !IsRow(rows[i], organization, version, key)
  {
    if rows == [] then None
    else if IsRow(rows[|rows| - 1], organization, version, key) then Some(|rows| - 1)
    else Find(rows[..|rows| - 1], organization, version, key)
  }

  /** The unique constraint on (version, key). */
  ghost predicate UniqueKeys(rows: seq<Field>) {
    forall i, j :: 0 <= i < j < |rows| ==> rows[i].version != rows[j].version || rows[i].key != rows[j].key
  }

  predicate Taken(rows: seq<Field>, version: Uuid, key: string) {
    exists i :: 0 <= i < |rows| && rows[i].version == version && rows[i].key == key
  }

  function Refreshed(f: Field, r: Record): Field {
    f.(value := r.value, source := r.source, page := r.page, excerpt := r.excerpt, confidence := r.confidence,
       reviewState := r.reviewState)
  }

  function Created(organization: Uuid, version: Uuid, r: Record): Field {
    Field(organization, version, r.key, r.value, r.value, [], r.source, r.page, r.excerpt, r.confidence, r.reviewState, None)
  }

  /** The upsert of one record; `None` when a constraint is violated. */
  function Upsert(rows: seq<Field>, organization: Uuid, version: Uuid, r: Record): Option<seq<Field>> {
    var found := Find(rows, organization, version, r.key);
    if found.Some? && rows[found.value].source == Human then Some(rows)
    else if found.Some? then
      if InRange(r.confidence) then Some(rows[found.value := Refreshed(rows[found.value], r)]) else None
    else if Storable(r) && !Taken(rows, version, r.key) then Some(rows + [Created(organization, version, r)])
    else None
  }

  /** One `persist`: all records or, when one is refused, nothing. */
  function UpsertAll(rows: seq<Field>, organization: Uuid, version: Uuid, records: seq<Record>): Option<seq<Field>> {
    if records == [] then Some(rows)
    else
      var before := UpsertAll(rows, organization, version, records[..|records| - 1]);
      if before.None? then None else Upsert(before.value, organization, version, records[|records| - 1])
  }

  /** What an upsert of one record does to an existing row. */
  function Written(f: Field, organization: Uuid, version: Uuid, r: Record): Field {
    if IsRow(f, organization, version, r.key) && f.source != Human then Refreshed(f, r) else f
  }

  lemma UpsertEffect(rows: seq<Field>, organization: Uuid, version: Uuid, r: Record)
    requires UniqueKeys(rows) && Upsert(rows, organization, version, r).Some?
    ensures var after := Upsert(rows, organization, version, r).value;
      && UniqueKeys(after)
      && |rows| <= |after| <= |rows| + 1
      && (forall i :: 0 <= i < |rows| ==> after[i] == Written(rows[i], organization, version, r))
      && (|after| > |rows| ==> after[|rows|] == Created(organization, version, r)
                               && Find(rows, organization, version, r.key).None?)
      && (HasSettled(after, organization, version, r))
  {
    var found := Find(rows, organization, version, r.key);
    var after := Upsert(rows, organization, version, r).value;
    if found.Some? {
      forall i | 0 <= i < |rows| ensures after[i] == Written(rows[i], organization, version, r) {
        if i < found.value || i > found.value { assert !IsRow(rows[i], organization, version, r.key); }
      }
      assert Settled(after[found.value], organization, version, r);
    } else {
      assert Settled(after[|rows|], organization, version, r);
    }
  }

  /** The row of a record is settled when repeating the upsert would not change it. */
  ghost predicate Settled(f: Field, organization: Uuid, version: Uuid, r: Record) {
    IsRow(f, organization, version, r.key) && (f.source == Human || (Refreshed(f, r) == f && InRange(r.confidence)))
  }

  ghost predicate HasSettled(rows: seq<Field>, organization: Uuid, version: Uuid, r: Record) {
    exists i :: 0 <= i < |rows| && Settled(rows[i], organization, version, r)
  }

  lemma SettledUpsert(rows: seq<Field>, organization: Uuid, version: Uuid, r: Record, i: nat)
    requires UniqueKeys(rows) && i < |rows| && Settled(rows[i], organization, version, r)
    ensures Upsert(rows, organization, version, r) == Some(rows)
  {
    var found := Find(rows, organization, version, r.key);
    assert found == Some(i);
    assert rows[i := rows[i]] == rows;
  }

  /** The record of a key among records with distinct keys. */
  function RecordFor(records: seq<Record>, key: string): (r: Option<Record>)
    ensures r.Some? ==> r.value in records && r.value.key == key
    ensures r.None? ==> forall x :: x in records ==> x.key != key
  {
    if records == [] then None
    else if records[|records| - 1].key == key then Some(records[|records| - 1])
    else RecordFor(records[..|records| - 1], key)
  }

  function Rewritten(f: Field, organization: Uuid, version: Uuid, records: seq<Record>): Field {
    var r := RecordFor(records, f.key);
    if r.Some? then Written(f, organization, version, r.value) else f
  }

  /** At most one of the records rewrites a row. */
  lemma RewrittenNext(f: Field, organization: Uuid, version: Uuid, records: seq<Record>)
    requires records != [] && KeysApart(records)
    ensures var n := |records| - 1;
      Rewritten(f, organization, version, records) ==
        Written(Rewritten(f, organization, version, records[..n]), organization, version, records[n])
  {
    var n := |records| - 1;
    if f.key == records[n].key { assert RecordFor(records[..n], f.key).None?; }
  }

  /** A row that the first records introduced survives the last one. */
  lemma IntroducedStays(rows: seq<Field>, f: Field, organization: Uuid, version: Uuid, records: seq<Record>)
    requires records != [] && KeysApart(records)
    requires Introduced(rows, f, organization, version, records[..|records| - 1])
    ensures Introduced(rows, Written(f, organization, version, records[|records| - 1]), organization, version, records)
  {
    assert f.key != records[|records| - 1].key;
  }

  lemma {:induction false} UpsertAllEffect(rows: seq<Field>, organization: Uuid, version: Uuid, records: seq<Record>)
    requires UniqueKeys(rows) && KeysApart(records) && UpsertAll(rows, organization, version, records).Some?
    ensures var after := UpsertAll(rows, organization, version, records).value;
      && UniqueKeys(after)
      && |rows| <= |after|
      && (forall i :: 0 <= i < |rows| ==> after[i] == Rewritten(rows[i], organization, version, records))
      && (forall i :: |rows| <= i < |after| ==> Introduced(rows, after[i], organization, version, records))
  {
    if records != [] {
      var n := |records| - 1;
      var init, last := records[..n], records[n];
      UpsertAllEffect(rows, organization, version, init);
      var mid := UpsertAll(rows, organization, version, init).value;
      var after := UpsertAll(rows, organization, version, records).value;
      UpsertEffect(mid, organization, version, last);
      assert RecordFor(init, last.key).None?;
      forall i | 0 <= i < |rows| ensures after[i] == Rewritten(rows[i], organization, version, records) {
        assert after[i] == Written(mid[i], organization, version, last);
        RewrittenNext(rows[i], organization, version, records);
      }
      forall i | |rows| <= i < |after| ensures Introduced(rows, after[i], organization, version, records) {
        if i < |mid| {
          assert after[i] == Written(mid[i], organization, version, last);
          IntroducedStays(rows, mid[i], organization, version, records);
        } else {
          FindGrows(rows, mid, organization, version, last.key);
        }
      }
    }
  }

  ghost predicate SameRow(f: Field, g: Field) { IsRow(g, f.organization, f.version, f.key) }

  lemma FindGrows(rows: seq<Field>, after: seq<Field>, organization: Uuid, version: Uuid, key: string)
    requires |rows| <= |after| && forall i :: 0 <= i < |rows| ==> SameRow(rows[i], after[i])
    ensures Find(after, organization, version, key).None? ==> Find(rows, organization, version, key).None?
  {
    forall i | 0 <= i < |rows| && IsRow(rows[i], organization, version, key)
      ensures IsRow(after[i], organization, version, key)
    {
      assert SameRow(rows[i], after[i]);
    }
  }

  /** A row that a `persist` added: its key was not there before. */
  ghost predicate Introduced(rows: seq<Field>, f: Field, organization: Uuid, version: Uuid, records: seq<Record>) {
    var r := RecordFor(records, f.key);
    r.Some? && f == Created(organization, version, r.value) && Find(rows, organization, version, f.key).None?
  }

  lemma SettledByUpsert(rows: seq<Field>, organization: Uuid, version: Uuid, r: Record)
    requires UniqueKeys(rows) && Upsert(rows, organization, version, r).Some?
    ensures HasSettled(Upsert(rows, organization, version, r).value, organization, version, r)
  {
    UpsertEffect(rows, organization, version, r);
  }

  /** The upsert of another key leaves a settled row settled. */
  lemma StaysSettled(rows: seq<Field>, organization: Uuid, version: Uuid, other: Record, r: Record)
    requires UniqueKeys(rows) && Upsert(rows, organization, version, other).Some?
    requires HasSettled(rows, organization, version, r) && r.key != other.key
    ensures HasSettled(Upsert(rows, organization, version, other).value, organization, version, r)
  {
    var i :| 0 <= i < |rows| && Settled(rows[i], organization, version, r);
    UpsertEffect(rows, organization, version, other);
    var after := Upsert(rows, organization, version, other).value;
    assert after[i] == Written(rows[i], organization, version, other) == rows[i];
  }

  lemma {:induction false} UpsertAllSettles(rows: seq<Field>, organization: Uuid, version: Uuid, records: seq<Record>, j: nat)
    requires UniqueKeys(rows) && KeysApart(records) && UpsertAll(rows, organization, version, records).Some? && j < |records|
    ensures HasSettled(UpsertAll(rows, organization, version, records).value, organization, version, records[j])
  {
    var n := |records| - 1;
    UpsertAllEffect(rows, organization, version, records[..n]);
    var mid := UpsertAll(rows, organization, version, records[..n]).value;
    if j < n {
      UpsertAllSettles(rows, organization, version, records[..n], j);
      StaysSettled(mid, organization, version, records[n], records[j]);
    } else {
      SettledByUpsert(mid, organization, version, records[n]);
    }
  }

  lemma {:induction false} SettledUpsertAll(rows: seq<Field>, organization: Uuid, version: Uuid, records: seq<Record>)
    requires UniqueKeys(rows)
    requires forall i :: 0 <= i < |records| ==> HasSettled(rows, organization, version, records[i])
    ensures UpsertAll(rows, organization, version, records) == Some(rows)
  {
    if records != [] {
      var n := |records| - 1;
      SettledUpsertAll(rows, organization, version, records[..n]);
      assert HasSettled(rows, organization, version, records[n]);
      var i :| 0 <= i < |rows| && Settled(rows[i], organization, version, records[n]);
      SettledUpsert(rows, organization, version, records[n], i);
    }
  }

  /** Persisting the same records again changes nothing, whatever was in the table before. */
  lemma PersistIsIdempotent(rows: seq<Field>, organization: Uuid, version: Uuid, records: seq<Record>)
    requires UniqueKeys(rows) && KeysApart(records) && UpsertAll(rows, organization, version, records).Some?
    ensures var after := UpsertAll(rows, organization, version, records).value;
      UpsertAll(after, organization, version, records) == Some(after)
  {
    UpsertAllEffect(rows, organization, version, records);
    var after := UpsertAll(rows, organization, version, records).value;
    forall i | 0 <= i < |records| ensures HasSettled(after, organization, version, records[i]) {
      UpsertAllSettles(rows, organization, version, records, i);
    }
    SettledUpsertAll(after, organization, version, records);
  }

  // ---------------------------------------------------------------- what a persist leaves

  /** The row carries the record, column by column. */
  ghost predicate Carries(f: Field, r: Record) {
    && f.key == r.key && f.value == r.value && f.source == r.source && f.page == r.page && f.excerpt == r.excerpt
    && f.confidence == r.confidence && f.reviewState == r.reviewState
  }

  /** The columns that no automatic write touches. */
  ghost predicate KeepsPast(f: Field, g: Field) {
    && g.organization == f.organization && g.version == f.version && g.key == f.key
    && g.originalValue == f.originalValue && g.previousValues == f.previousValues && g.reviewer == f.reviewer
  }

  /** What becomes of row `f`: rewritten by the record of its key unless a human wrote it, and kept without one. */
  ghost predicate RowAfter(f: Field, g: Field, organization: Uuid, version: Uuid, records: seq<Record>) {
    KeepsPast(f, g)
    && if f.organization == organization && f.version == version && f.source != Human && exists r :: r in records && r.key == f.key
       then exists r :: r in records && Carries(g, r) else g == f
  }

  /** A new row: it carries a record whose key was not there, with its value as the original one. */
  ghost predicate NewRow(rows: seq<Field>, g: Field, organization: Uuid, version: Uuid, records: seq<Record>) {
    && g.organization == organization && g.version == version && g.originalValue == g.value
    && g.previousValues == [] && g.reviewer == None
    && (exists r :: r in records && Carries(g, r))
    && forall i :: 0 <= i < |rows| ==> !(rows[i].organization == organization && rows[i].version == version && rows[i].key == g.key)
  }

  /** Every record ends up in a row, unless a human wrote the row of its key. */
  ghost predicate Arrived(rows: seq<Field>, organization: Uuid, version: Uuid, r: Record) {
    exists i :: 0 <= i < |rows| && rows[i].organization == organization && rows[i].version == version
                && rows[i].key == r.key && (rows[i].source == Human || Carries(rows[i], r))
  }

  /** The whole effect of a `persist` that commits. */
  ghost predicate PersistedRows(rows: seq<Field>, after: seq<Field>, organization: Uuid, version: Uuid, records: seq<Record>) {
    && |rows| <= |after|
    && (forall i :: 0 <= i < |rows| ==> RowAfter(rows[i], after[i], organization, version, records))
    && (forall i :: |rows| <= i < |after| ==> NewRow(rows, after[i], organization, version, records))
    && (forall i :: 0 <= i < |records| ==> Arrived(after, organization, version, records[i]))
  }

  lemma PersistWrites(rows: seq<Field>, organization: Uuid, version: Uuid, records: seq<Record>)
    requires UniqueKeys(rows) && KeysApart(records) && UpsertAll(rows, organization, version, records).Some?
    ensures PersistedRows(rows, UpsertAll(rows, organization, version, records).value, organization, version, records)
  {
    var after := UpsertAll(rows, organization, version, records).value;
    UpsertAllEffect(rows, organization, version, records);
    forall i | 0 <= i < |rows| ensures RowAfter(rows[i], after[i], organization, version, records) {
      assert after[i] == Rewritten(rows[i], organization, version, records);
      RewrittenRow(rows[i], organization, version, records);
    }
    forall i | |rows| <= i < |after| ensures NewRow(rows, after[i], organization, version, records) {
      assert Introduced(rows, after[i], organization, version, records);
      assert Carries(after[i], RecordFor(records, after[i].key).value);
      forall l | 0 <= l < |rows| ensures !IsRow(rows[l], organization, version, after[i].key) {}
    }
    forall i | 0 <= i < |records| ensures Arrived(after, organization, version, records[i]) {
      UpsertAllSettles(rows, organization, version, records, i);
      var n :| 0 <= n < |after| && Settled(after[n], organization, version, records[i]);
      assert after[n].source != Human ==> Carries(after[n], records[i]);
    }
  }

  lemma RewrittenRow(f: Field, organization: Uuid, version: Uuid, records: seq<Record>)
    ensures RowAfter(f, Rewritten(f, organization, version, records), organization, version, records)
  {
    var g := Rewritten(f, organization, version, records);
    var r := RecordFor(records, f.key);
    if IsRow(f, organization, version, f.key) && f.source != Human && r.Some? { assert Carries(g, r.value); }
  }

  /** The database refuses a record: a confidence out of range, a key that is too long, or a new row whose version
      and key another organization holds. */
  ghost predicate Refuses(rows: seq<Field>, organization: Uuid, version: Uuid, r: Record) {
    var present := exists i :: 0 <= i < |rows| && IsRow(rows[i], organization, version, r.key);
    var human := exists i :: 0 <= i < |rows| && IsRow(rows[i], organization, version, r.key) && rows[i].source == Human;
    var outOfRange := r.confidence.Some? && !(0.0 <= r.confidence.value <= 1.0);
    if present then !human && outOfRange
    else outOfRange || |r.key| > 64 || exists i :: 0 <= i < |rows| && rows[i].version == version && rows[i].key == r.key
  }

  lemma UpsertRefused(rows: seq<Field>, organization: Uuid, version: Uuid, r: Record)
    requires UniqueKeys(rows)
    ensures Upsert(rows, organization, version, r).None? <==> Refuses(rows, organization, version, r)
  {
    var found := Find(rows, organization, version, r.key);
    if found.Some? {
      forall i | 0 <= i < |rows| && IsRow(rows[i], organization, version, r.key) ensures i == found.value {}
    }
  }

  /** Whether a record is refused does not depend on records of other keys. */
  lemma RefusalKept(rows: seq<Field>, organization: Uuid, version: Uuid, other: Record, r: Record)
    requires UniqueKeys(rows) && Upsert(rows, organization, version, other).Some? && other.key != r.key
    ensures Refuses(Upsert(rows, organization, version, other).value, organization, version, r) <==> Refuses(rows, organization, version, r)
  {
    UpsertEffect(rows, organization, version, other);
    var after := Upsert(rows, organization, version, other).value;
    forall i | 0 <= i < |rows| ensures after[i].version == rows[i].version && after[i].key == rows[i].key
                                       && after[i].organization == rows[i].organization
                                       && (after[i].key == r.key ==> after[i] == rows[i]) {
      assert after[i] == Written(rows[i], organization, version, other);
    }
    if |after| > |rows| { assert after[|rows|].key == other.key; }
  }

  lemma {:induction false} RefusalKeptByAll(rows: seq<Field>, organization: Uuid, version: Uuid, records: seq<Record>, r: Record)
    requires UniqueKeys(rows) && KeysApart(records) && UpsertAll(rows, organization, version, records).Some?
    requires forall i :: 0 <= i < |records| ==> records[i].key != r.key
    ensures Refuses(UpsertAll(rows, organization, version, records).value, organization, version, r) <==> Refuses(rows, organization, version, r)
  {
    if records != [] {
      var n := |records| - 1;
      UpsertAllEffect(rows, organization, version, records[..n]);
      RefusalKeptByAll(rows, organization, version, records[..n], r);
      RefusalKept(UpsertAll(rows, organization, version, records[..n]).value, organization, version, records[n], r);
    }
  }

  ghost predicate NoneRefused(rows: seq<Field>, organization: Uuid, version: Uuid, records: seq<Record>) {
    forall i :: 0 <= i < |records| ==> !Refuses(rows, organization, version, records[i])
  }

  lemma NoneRefusedNext(rows: seq<Field>, organization: Uuid, version: Uuid, records: seq<Record>)
    requires records != []
    ensures var n := |records| - 1;
      NoneRefused(rows, organization, version, records) <==>
        NoneRefused(rows, organization, version, records[..n]) && !Refuses(rows, organization, version, records[n])
  {
    var n := |records| - 1;
    assert forall i :: 0 <= i < n ==> records[..n][i] == records[i];
  }

  /** A `persist` commits exactly if the database refuses none of its records. */
  lemma {:induction false} PersistCommitsIff(rows: seq<Field>, organization: Uuid, version: Uuid, records: seq<Record>)
    requires UniqueKeys(rows) && KeysApart(records)
    ensures UpsertAll(rows, organization, version, records).Some? <==> NoneRefused(rows, organization, version, records)
  {
    if records != [] {
      var n := |records| - 1;
      NoneRefusedNext(rows, organization, version, records);
      PersistCommitsIff(rows, organization, version, records[..n]);
      if UpsertAll(rows, organization, version, records[..n]).Some? {
        UpsertAllEffect(rows, organization, version, records[..n]);
        UpsertRefused(UpsertAll(rows, organization, version, records[..n]).value, organization, version, records[n]);
        RefusalKeptByAll(rows, organization, version, records[..n], records[n]);
      }
    }
  }

  /** What one `persist` does to the table. */
  lemma PersistLaw(rows: seq<Field>, organization: Uuid, version: Uuid, records: seq<Record>)
    requires UniqueKeys(rows) && KeysApart(records)
    ensures var after := UpsertAll(rows, organization, version, records);
      && (after.Some? <==> NoneRefused(rows, organization, version, records))
      && (after.Some? ==> PersistedRows(rows, after.value, organization, version, records))
  {
    PersistCommitsIff(rows, organization, version, records);
    if UpsertAll(rows, organization, version, records).Some? { PersistWrites(rows, organization, version, records); }
  }

  // ---------------------------------------------------------------- corrections

  datatype CorrectionError = JustificationRequired | FieldNotFound

  function CorrectedField(f: Field, actor: Uuid, value: string, excerpt: Option<string>): Field {
    f.(previousValues := f.previousValues + [Past(f.value, f.source, f.reviewer)], value := Some(value), source := Human,
       excerpt := if excerpt.Some? then excerpt else f.excerpt, reviewState := Corrected, reviewer := Some(actor))
  }

  datatype Op =
    | Persist(organization: Uuid, version: Uuid, records: seq<Record>)
    | Correct(id: nat, organization: Uuid, actor: Uuid, value: string, justification: Option<string>, excerpt: Option<string>)

  predicate Justified(justification: Option<string>) { justification.Some? && !Blank(justification.value) }

  /** Whether an operation commits in a table. */
  predicate Commits(rows: seq<Field>, op: Op) {
    match op
    case Persist(organization, version, records) => UpsertAll(rows, organization, version, records).Some?
    case Correct(id, organization, _, _, justification, _) =>
      Justified(justification) && id < |rows| && rows[id].organization == organization
  }

  function Do(rows: seq<Field>, op: Op): seq<Field> {
    if !Commits(rows, op) then rows
    else match op
      case Persist(organization, version, records) => UpsertAll(rows, organization, version, records).value
      case Correct(id, _, actor, value, _, excerpt) => rows[id := CorrectedField(rows[id], actor, value, excerpt)]
  }

  function DoAll(ops: seq<Op>): seq<Field> {
    if ops == [] then [] else Do(DoAll(ops[..|ops| - 1]), ops[|ops| - 1])
  }

  // ---------------------------------------------------------------- history

  /** The persisted records of one operation have distinct keys, as `buildFieldRecords` makes them. */
  ghost predicate Legal(op: Op) { op.Persist? ==> KeysApart(op.records) }

  /** An operation never removes a row, never changes which field a row stands for or its original value,
      only ever extends its history, and leaves a row of human origin alone unless it corrects it. */
  lemma DoKeeps(rows: seq<Field>, op: Op)
    requires UniqueKeys(rows) && Legal(op)
    ensures UniqueKeys(Do(rows, op)) && |rows| <= |Do(rows, op)|
    ensures forall i :: 0 <= i < |rows| ==> SameRow(rows[i], Do(rows, op)[i])
    ensures forall i :: 0 <= i < |rows| ==> Do(rows, op)[i].originalValue == rows[i].originalValue
    ensures forall i :: 0 <= i < |rows| ==> rows[i].previousValues <= Do(rows, op)[i].previousValues
    ensures forall i :: 0 <= i < |rows| && rows[i].source == Human && op.Persist? ==> Do(rows, op)[i] == rows[i]
  {
    if op.Persist? && Commits(rows, op) {
      UpsertAllEffect(rows, op.organization, op.version, op.records);
    }
  }

  lemma {:induction false} DoAllUnique(ops: seq<Op>)
    requires forall op :: op in ops ==> Legal(op)
    ensures UniqueKeys(DoAll(ops))
  {
    if ops != [] {
      DoAllUnique(ops[..|ops| - 1]);
      DoKeeps(DoAll(ops[..|ops| - 1]), ops[|ops| - 1]);
    }
  }

  /** What reached a field, as an observer outside the table would note it down. */
  datatype Write = Automatic(value: Option<string>, source: Source) | Correction(text: string, actor: Uuid)

  function AsPast(w: Write): Past {
    match w
    case Automatic(value, source) => Past(value, source, None)
    case Correction(text, actor) => Past(Some(text), Human, Some(actor))
  }

  function WriteOf(rows: seq<Field>, op: Op, i: nat, organization: Uuid, version: Uuid, key: string): seq<Write> {
    if !Commits(rows, op) then []
    else match op
      case Persist(o, v, records) =>
        var r := RecordFor(records, key);
        if o == organization && v == version && r.Some? then [Automatic(r.value.value, r.value.source)] else []
      case Correct(id, _, actor, value, _, _) => if id == i then [Correction(value, actor)] else []
  }

  /** Everything the committed operations sent to row `i`, which stands for the given field. */
  function Log(ops: seq<Op>, i: nat, organization: Uuid, version: Uuid, key: string): seq<Write> {
    if ops == [] then []
    else
      Log(ops[..|ops| - 1], i, organization, version, key)
      + WriteOf(DoAll(ops[..|ops| - 1]), ops[|ops| - 1], i, organization, version, key)
  }

  predicate FromHuman(w: Write) { w.Correction? || w.source == Human }

  /** The position of the first write of human origin, or the length. */
  function FirstHuman(log: seq<Write>): (n: nat)
    ensures n <= |log| && (n < |log| ==> FromHuman(log[n]))
    ensures forall i :: 0 <= i < n ==> !FromHuman(log[i])
  {
    if log == [] then 0
    else
      var n := FirstHuman(log[..|log| - 1]);
      if n < |log| - 1 then n else if FromHuman(log[|log| - 1]) then |log| - 1 else |log|
  }

  /** The automatic value that stood when the first human looked: later ones are ignored. */
  function Base(log: seq<Write>): (n: nat)
    requires log != [] && log[0].Automatic?
    ensures n < |log| && log[n].Automatic?
  {
    var first := FirstHuman(log);
    if first == |log| then first - 1 else if log[first].Automatic? then first else first - 1
  }

  function Corrections(log: seq<Write>): seq<Past> {
    if log == [] then []
    else
      var last := log[|log| - 1];
      Corrections(log[..|log| - 1]) + if last.Correction? then [AsPast(last)] else []
  }

  function FaithfulHistory(log: seq<Write>): seq<Past>
    requires log != [] && log[0].Automatic?
  {
    [AsPast(log[Base(log)])] + Corrections(log)
  }

  lemma {:induction false} NoCorrections(log: seq<Write>)
    requires FirstHuman(log) == |log|
    ensures Corrections(log) == []
  {
    if log != [] {
      assert !FromHuman(log[|log| - 1]);
      NoCorrections(log[..|log| - 1]);
    }
  }

  lemma FirstHumanStep(log: seq<Write>, w: Write)
    ensures FirstHuman(log + [w]) ==
      if FirstHuman(log) < |log| then FirstHuman(log) else if FromHuman(w) then |log| else |log| + 1
  {
    assert (log + [w])[..|log|] == log;
  }

  lemma CorrectionsStep(log: seq<Write>, w: Write)
    ensures Corrections(log + [w]) == Corrections(log) + if w.Correction? then [AsPast(w)] else []
  {
    assert (log + [w])[..|log|] == log;
  }

  lemma BaseStep(log: seq<Write>, w: Write)
    requires log != [] && log[0].Automatic?
    ensures Base(log + [w]) == if FirstHuman(log) == |log| && w.Automatic? then |log| else Base(log)
  {
    FirstHumanStep(log, w);
  }

  function History(f: Field): seq<Past> { f.previousValues + [Past(f.value, f.source, f.reviewer)] }

  /** The row agrees with the log of what reached it. */
  ghost predicate Agrees(f: Field, log: seq<Write>) {
    && log != [] && log[0].Automatic?
    && f.originalValue == log[0].value
    && History(f) == FaithfulHistory(log)
    && (f.source == Human <==> FirstHuman(log) < |log|)
  }

  lemma {:induction false} NothingLoggedBefore(ops: seq<Op>, i: nat, organization: Uuid, version: Uuid, key: string)
    requires forall op :: op in ops ==> Legal(op)
    requires i >= |DoAll(ops)| && Find(DoAll(ops), organization, version, key).None?
    ensures Log(ops, i, organization, version, key) == []
  {
    if ops != [] {
      var init, op := ops[..|ops| - 1], ops[|ops| - 1];
      var rows := DoAll(init);
      DoAllUnique(init);
      DoKeeps(rows, op);
      FindGrows(rows, Do(rows, op), organization, version, key);
      NothingLoggedBefore(init, i, organization, version, key);
      if op.Persist? && Commits(rows, op) && op.organization == organization && op.version == version {
        var r := RecordFor(op.records, key);
        if r.Some? {
          var j :| 0 <= j < |op.records| && op.records[j] == r.value;
          UpsertAllSettles(rows, organization, version, op.records, j);
        }
      }
    }
  }

  lemma AgreesRefreshed(f: Field, log: seq<Write>, r: Record)
    requires Agrees(f, log) && f.source != Human
    ensures Agrees(Refreshed(f, r), log + [Automatic(r.value, r.source)])
  {
    var w := Automatic(r.value, r.source);
    FirstHumanStep(log, w);
    BaseStep(log, w);
    CorrectionsStep(log, w);
    NoCorrections(log);
    assert |History(f)| == 1;
    assert f.reviewer == History(f)[0].reviewer == None;
  }

  lemma AgreesLocked(f: Field, log: seq<Write>, w: Write)
    requires Agrees(f, log) && f.source == Human && w.Automatic?
    ensures Agrees(f, log + [w])
  {
    FirstHumanStep(log, w);
    BaseStep(log, w);
    CorrectionsStep(log, w);
  }

  lemma AgreesCorrected(f: Field, log: seq<Write>, actor: Uuid, value: string, excerpt: Option<string>)
    requires Agrees(f, log)
    ensures Agrees(CorrectedField(f, actor, value, excerpt), log + [Correction(value, actor)])
  {
    var w := Correction(value, actor);
    FirstHumanStep(log, w);
    BaseStep(log, w);
    CorrectionsStep(log, w);
    assert History(CorrectedField(f, actor, value, excerpt)) == History(f) + [AsPast(w)];
  }

  lemma AgreesStep(rows: seq<Field>, op: Op, i: nat, log: seq<Write>)
    requires UniqueKeys(rows) && Legal(op) && i < |rows| && Agrees(rows[i], log)
    ensures i < |Do(rows, op)|
    ensures Agrees(Do(rows, op)[i], log + WriteOf(rows, op, i, rows[i].organization, rows[i].version, rows[i].key))
  {
    var f := rows[i];
    assert log + [] == log;
    if Commits(rows, op) {
      match op
      case Correct(id, _, actor, value, _, excerpt) =>
        if id == i { AgreesCorrected(f, log, actor, value, excerpt); }
      case Persist(o, v, records) =>
        UpsertAllEffect(rows, o, v, records);
        var r := RecordFor(records, f.key);
        assert Do(rows, op)[i] == Rewritten(f, o, v, records);
        if o == f.organization && v == f.version && r.Some? {
          if f.source == Human {
            AgreesLocked(f, log, Automatic(r.value.value, r.value.source));
          } else {
            AgreesRefreshed(f, log, r.value);
          }
        }
    }
  }

  lemma AgreesCreated(organization: Uuid, version: Uuid, r: Record)
    ensures Agrees(Created(organization, version, r), [Automatic(r.value, r.source)])
  {
    var w := Automatic(r.value, r.source);
    FirstHumanStep([], w);
    CorrectionsStep([], w);
    assert [] + [w] == [w];
  }

  /** The correction history is a faithful log. For every sequence of `persist` and `correctField` calls,
      every row keeps the first automatic value as its original value, and its previous values followed by
      its current one are the last automatic value written before a human source locked the field and
      then all corrections in order. */
  lemma {:induction false} HistoryIsFaithful(ops: seq<Op>, i: nat)
    requires forall op :: op in ops ==> Legal(op)
    requires i < |DoAll(ops)|
    ensures var f := DoAll(ops)[i]; Agrees(f, Log(ops, i, f.organization, f.version, f.key))
  {
    var init, op := ops[..|ops| - 1], ops[|ops| - 1];
    var rows := DoAll(init);
    DoAllUnique(init);
    DoKeeps(rows, op);
    if i < |rows| {
      HistoryIsFaithful(init, i);
      assert SameRow(rows[i], DoAll(ops)[i]);
      AgreesStep(rows, op, i, Log(init, i, rows[i].organization, rows[i].version, rows[i].key));
    } else {
      var f := DoAll(ops)[i];
      UpsertAllEffect(rows, op.organization, op.version, op.records);
      assert Introduced(rows, f, op.organization, op.version, op.records);
      NothingLoggedBefore(init, i, f.organization, f.version, f.key);
      AgreesCreated(op.organization, op.version, RecordFor(op.records, f.key).value);
    }
  }

  // ---------------------------------------------------------------- the service

  ghost predicate IsPlaced(rows: seq<Field>, id: nat, organization: Uuid, version: Uuid, key: string) {
    id < |rows| && IsRow(rows[id], organization, version, key)
  }

  /** `ids` name the rows of the first records. */
  ghost predicate Placed(rows: seq<Field>, ids: seq<nat>, organization: Uuid, version: Uuid, records: seq<Record>) {
    |ids| <= |records| && forall i :: 0 <= i < |ids| ==> IsPlaced(rows, ids[i], organization, version, records[i].key)
  }

  lemma PlacedNext(rows: seq<Field>, after: seq<Field>, ids: seq<nat>, id: nat, organization: Uuid, version: Uuid, records: seq<Record>)
    requires Placed(rows, ids, organization, version, records) && |ids| < |records|
    requires |rows| <= |after| && forall i :: 0 <= i < |rows| ==> SameRow(rows[i], after[i])
    requires IsPlaced(after, id, organization, version, records[|ids|].key)
    ensures Placed(after, ids + [id], organization, version, records)
  {
    var all := ids + [id];
    forall i | 0 <= i < |all| ensures IsPlaced(after, all[i], organization, version, records[i].key) {
      if i < |ids| {
        assert IsPlaced(rows, ids[i], organization, version, records[i].key);
        assert SameRow(rows[ids[i]], after[ids[i]]);
      }
    }
  }

  lemma RecordArrived(rows: seq<Field>, organization: Uuid, version: Uuid, records: seq<Record>, r: Record)
    requires (forall i :: 0 <= i < |records| ==> Arrived(rows, organization, version, records[i])) && r in records
    ensures exists i :: 0 <= i < |rows| && IsRow(rows[i], organization, version, r.key)
  {
    var n :| 0 <= n < |records| && records[n] == r;
    assert Arrived(rows, organization, version, records[n]);
    var i :| 0 <= i < |rows| && rows[i].organization == organization && rows[i].version == version && rows[i].key == r.key;
    assert IsRow(rows[i], organization, version, r.key);
  }

  class ExtractedFields {
    var rows: seq<Field>

    ghost predicate Valid()
      reads this
    {
      UniqueKeys(rows)
    }

    constructor ()
      ensures rows == [] && Valid()
    {
      rows := [];
    }

    /** The body of the loop of `persist`; `None` when the database refuses the row. */
    method PersistRecord(organization: Uuid, version: Uuid, record: Record) returns (r: Option<nat>)
      requires Valid()
      modifies this
      ensures Valid()
      ensures r.Some? <==> Upsert(old(rows), organization, version, record).Some?
      ensures r.Some? ==> Some(rows) == Upsert(old(rows), organization, version, record)
      ensures r.Some? ==> r.value < |rows| && IsRow(rows[r.value], organization, version, record.key)
      ensures r.None? ==> rows == old(rows)
      ensures |old(rows)| <= |rows|
      ensures forall i :: 0 <= i < |old(rows)| ==> SameRow(old(rows)[i], rows[i])
    {
      var existing := Find(rows, organization, version, record.key);
      if existing.Some? && rows[existing.value].source == Human { return existing; }
      if existing.Some? {
        if !InRange(record.confidence) { return None; }
        rows := rows[existing.value := Refreshed(rows[existing.value], record)];
        r := existing;
      } else {
        if !Storable(record) || Taken(rows, version, record.key) { return None; }
        rows := rows + [Created(organization, version, record)];
        r := Some(|rows| - 1);
      }
    }

    /** The loop of `persist`; the transaction around it undoes the rows already written when one is refused. */
    method PersistRecords(organization: Uuid, version: Uuid, records: seq<Record>) returns (r: Option<seq<nat>>)
      requires Valid()
      modifies this
      ensures Valid()
      ensures rows == Do(old(rows), Op.Persist(organization, version, records))
      ensures r.Some? <==> Commits(old(rows), Op.Persist(organization, version, records))
      ensures r.Some? ==> |r.value| == |records| && Placed(rows, r.value, organization, version, records)
    {
      var before := rows;
      var persisted: seq<nat> := [];
      for n := 0 to |records|
        invariant Valid() && Some(rows) == UpsertAll(before, organization, version, records[..n])
        invariant |persisted| == n && Placed(rows, persisted, organization, version, records)
      {
        assert records[..n + 1][..n] == records[..n];
        ghost var previous := rows;
        var one := PersistRecord(organization, version, records[n]);
        if one.None? {
          Refused(before, organization, version, records, n + 1);
          rows := before;
          return None;
        }
        PlacedNext(previous, rows, persisted, one.value, organization, version, records);
        persisted := persisted + [one.value];
      }
      assert records[..|records|] == records;
      r := Some(persisted);
    }

    /** The transaction around the loop: all records or, when the database refuses one, none. */
    method PersistAll(organization: Uuid, version: Uuid, records: seq<Record>) returns (r: Option<seq<nat>>)
      requires Valid() && KeysApart(records)
      modifies this
      ensures Valid()
      ensures rows == Do(old(rows), Op.Persist(organization, version, records))
      ensures r.Some? <==> Commits(old(rows), Op.Persist(organization, version, records))
      ensures r.Some? <==> NoneRefused(old(rows), organization, version, records)
      ensures if r.Some? then PersistedRows(old(rows), rows, organization, version, records) else rows == old(rows)
    {
      PersistLaw(rows, organization, version, records);
      r := PersistRecords(organization, version, records);
    }

    method Persist(organization: Uuid, version: Uuid, rawFields: seq<RawField>) returns (r: Option<seq<nat>>)
      requires Valid()
      modifies this
      ensures Valid()
      ensures rows == Do(old(rows), Op.Persist(organization, version, Build(rawFields)))
      ensures r.Some? <==> Commits(old(rows), Op.Persist(organization, version, Build(rawFields)))
      ensures r.Some? <==> NoneRefused(old(rows), organization, version, Build(rawFields))
      ensures if r.Some? then PersistedRows(old(rows), rows, organization, version, Build(rawFields)) else rows == old(rows)
      ensures r.Some? ==> forall k :: k in REQUIRED ==>
        exists i :: 0 <= i < |rows| && IsRow(rows[i], organization, version, k)
    {
      var records := BuildFieldRecords(rawFields);
      r := PersistAll(organization, version, records);
      if r.Some? {
        forall k | k in REQUIRED ensures exists i :: 0 <= i < |rows| && IsRow(rows[i], organization, version, k) {
          var record :| record in records && record.key == k;
          RecordArrived(rows, organization, version, records, record);
        }
      }
    }

    method CorrectField(id: nat, organization: Uuid, actor: Uuid, value: string, justification: Option<string>, excerpt: Option<string>)
      returns (r: Result<Field, CorrectionError>)
      requires Valid()
      modifies this
      ensures Valid()
      ensures rows == Do(old(rows), Correct(id, organization, actor, value, justification, excerpt))
      ensures r.Ok? <==> Commits(old(rows), Correct(id, organization, actor, value, justification, excerpt))
      ensures r.Ok? ==> id < |rows| && r.value == rows[id]
      ensures r.Err? ==> (r.error == JustificationRequired <==> !Justified(justification))
      ensures r.Ok? <==>
        && justification.Some? && (exists i :: 0 <= i < |justification.value| && !IsJsSpace(justification.value[i]))
        && id < |old(rows)| && old(rows)[id].organization == organization
      ensures r.Err? ==> rows == old(rows)
      ensures r.Ok? ==>
        var f := old(rows)[id];
        rows == old(rows)[id := Field(
          f.organization, f.version, f.key, Some(value), f.originalValue, f.previousValues + [Past(f.value, f.source, f.reviewer)],
          Human, f.page, if excerpt.Some? then excerpt else f.excerpt, f.confidence, Corrected, Some(actor))]
    {
      if !Justified(justification) { return Err(JustificationRequired); }
      if id >= |rows| || rows[id].organization != organization { return Err(FieldNotFound); }
      var field := rows[id];
      var history := field.previousValues + [Past(field.value, field.source, field.reviewer)];
      field := field.(previousValues := history);
      field := field.(value := Some(value), source := Human);
      field := field.(excerpt := if excerpt.Some? then excerpt else field.excerpt);
      field := field.(reviewState := Corrected, reviewer := Some(actor));
      rows := rows[id := field];
      r := Ok(field);
    }
  }

  lemma {:induction false} Refused(rows: seq<Field>, organization: Uuid, version: Uuid, records: seq<Record>, n: nat)
    requires n <= |records| && UpsertAll(rows, organization, version, records[..n]).None?
    ensures UpsertAll(rows, organization, version, records).None?
    decreases |records| - n
  {
    if n < |records| {
      assert records[..n + 1][..n] == records[..n];
      Refused(rows, organization, version, records, n + 1);
    } else {
      assert records[..n] == records;
    }
  }
}
