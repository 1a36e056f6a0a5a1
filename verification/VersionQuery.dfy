/** The list of a document's versions with their extracted fields, which one query delivers for all versions
    and a loop distributes. */
module VersionQuery {
  import opened Common
  import opened Entities

  datatype Field = Field(id: Uuid, version: Uuid, key: string, value: Option<string>, source: Source)

  datatype Version = Version(id: Uuid, number: nat)

  datatype Shown = Shown(id: Uuid, key: string, value: Option<string>, source: Source)

  datatype Entry = Entry(id: Uuid, number: nat, isCurrent: bool, fields: seq<Shown>)

  function Project(f: Field): Shown { Shown(f.id, f.key, f.value, f.source) }

  /** The fields of one version, in the order of the query. */
  function Of(fields: seq<Field>, version: Uuid): seq<Field> {
    if fields == [] then []
    else
      var last := fields[|fields| - 1];
      Of(fields[..|fields| - 1], version) + if last.version == version then [last] else []
  }

  lemma OfStep(fields: seq<Field>, f: Field, version: Uuid)
    ensures Of(fields + [f], version) == Of(fields, version) + if f.version == version then [f] else []
  {
    assert (fields + [f])[..|fields|] == fields;
  }

  function Shows(fields: seq<Field>): (r: seq<Shown>)
    ensures |r| == |fields| && forall i :: 0 <= i < |fields| ==> r[i] == Project(fields[i])
  {
    seq(|fields|, i requires 0 <= i < |fields| => Project(fields[i]))
  }

  function Lookup(groups: map<Uuid, seq<Field>>, version: Uuid): seq<Field> {
    if version in groups then groups[version] else []
  }

  /** The loop over the query's result; a version without fields has no entry. */
  method Group(extractedFields: seq<Field>) returns (fields: map<Uuid, seq<Field>>)
    ensures forall v :: Lookup(fields, v) == Of(extractedFields, v)
    ensures forall v :: v in fields ==> fields[v] != []
  {
    fields := map[];
    for i := 0 to |extractedFields|
      invariant forall v :: Lookup(fields, v) == Of(extractedFields[..i], v)
      invariant forall v :: v in fields ==> fields[v] != []
    {
      var field := extractedFields[i];
      assert extractedFields[..i + 1] == extractedFields[..i] + [field];
      ghost var before := fields;
      var versionFields := Lookup(fields, field.version);
      fields := fields[field.version := versionFields + [field]];
      forall v ensures Lookup(fields, v) == Of(extractedFields[..i + 1], v) {
        assert Lookup(before, v) == Of(extractedFields[..i], v);
        OfStep(extractedFields[..i], field, v);
      }
    }
    assert extractedFields[..|extractedFields|] == extractedFields;
  }

  /** The shown fields are the given ones, each with its identifier, key, value and source. */
  ghost predicate AreShown(shown: seq<Shown>, fields: seq<Field>) {
    && |shown| == |fields|
    && forall i :: 0 <= i < |fields| ==>
         shown[i].id == fields[i].id && shown[i].key == fields[i].key && shown[i].value == fields[i].value && shown[i].source == fields[i].source
  }

  method List(versions: seq<Version>, extractedFields: seq<Field>, currentVersionId: Option<Uuid>) returns (entries: seq<Entry>)
    ensures |entries| == |versions|
    ensures forall i :: 0 <= i < |versions| ==>
      && entries[i].id == versions[i].id && entries[i].number == versions[i].number
      && (entries[i].isCurrent <==> currentVersionId.Some? && currentVersionId.value == versions[i].id)
      && AreShown(entries[i].fields, Of(extractedFields, versions[i].id))
    ensures forall i :: 0 <= i < |versions| ==>
      entries[i] == Entry(versions[i].id, versions[i].number, currentVersionId == Some(versions[i].id),
                          Shows(Of(extractedFields, versions[i].id)))
  {
    var fields := Group(extractedFields);
    entries := [];
    for i := 0 to |versions|
      invariant |entries| == i
      invariant forall j :: 0 <= j < i ==>
        entries[j] == Entry(versions[j].id, versions[j].number, currentVersionId == Some(versions[j].id),
                            Shows(Of(extractedFields, versions[j].id)))
    {
      var version := versions[i];
      var own := Lookup(fields, version.id);
      entries := entries + [Entry(version.id, version.number, currentVersionId == Some(version.id), Shows(own))];
    }
  }

  // ---------------------------------------------------------------- conservation

  function Concat(fields: seq<Field>, versions: seq<Uuid>): seq<Field> {
    if versions == [] then [] else Of(fields, versions[0]) + Concat(fields, versions[1..])
  }

  function Without(fields: seq<Field>, version: Uuid): seq<Field> {
    if fields == [] then []
    else
      var last := fields[|fields| - 1];
      Without(fields[..|fields| - 1], version) + if last.version == version then [] else [last]
  }

  lemma CountAppend(fields: seq<Field>, f: Field)
    ensures multiset(fields + [f]) == multiset(fields) + multiset{f}
  {
  }

  lemma {:induction false} Split(fields: seq<Field>, version: Uuid)
    ensures multiset(fields) == multiset(Of(fields, version)) + multiset(Without(fields, version))
  {
    if fields != [] {
      var init, last := fields[..|fields| - 1], fields[|fields| - 1];
      Split(init, version);
      assert fields == init + [last];
      CountAppend(init, last);
      if last.version == version {
        CountAppend(Of(init, version), last);
        assert Without(fields, version) == Without(init, version);
      } else {
        CountAppend(Without(init, version), last);
        assert Of(fields, version) == Of(init, version);
      }
    }
  }

  lemma {:induction false} WithoutHas(fields: seq<Field>, version: Uuid, f: Field)
    requires f in Without(fields, version)
    ensures f in fields && f.version != version
  {
    var n := |fields| - 1;
    if f in Without(fields[..n], version) { WithoutHas(fields[..n], version, f); }
  }

  lemma {:induction false} OfWithout(fields: seq<Field>, version: Uuid, other: Uuid)
    requires version != other
    ensures Of(Without(fields, version), other) == Of(fields, other)
  {
    if fields != [] {
      var n := |fields| - 1;
      OfWithout(fields[..n], version, other);
      if fields[n].version == version {
        assert Without(fields, version) == Without(fields[..n], version);
      } else {
        OfStep(Without(fields[..n], version), fields[n], other);
        assert Without(fields, version) == Without(fields[..n], version) + [fields[n]];
      }
    }
  }

  lemma {:induction false} ConcatWithout(fields: seq<Field>, version: Uuid, versions: seq<Uuid>)
    requires version !in versions
    ensures Concat(Without(fields, version), versions) == Concat(fields, versions)
  {
    if versions != [] {
      OfWithout(fields, version, versions[0]);
      ConcatWithout(fields, version, versions[1..]);
    }
  }

  lemma HasElement(fields: seq<Field>)
    requires fields != []
    ensures exists f :: f in fields
  {
    assert fields[0] in fields;
  }

  /** Grouping conserves: the lists of the versions together hold every field of the query exactly as often
      as the query delivered it, and each list keeps the order of the query. */
  lemma {:induction false} GroupingConserves(fields: seq<Field>, versions: seq<Uuid>)
    requires Distinct(versions) && forall f :: f in fields ==> f.version in versions
    ensures multiset(Concat(fields, versions)) == multiset(fields)
    decreases |versions|
  {
    if versions == [] {
      if fields != [] { HasElement(fields); }
    } else {
      var v := versions[0];
      DistinctTail(versions);
      Split(fields, v);
      ConcatWithout(fields, v, versions[1..]);
      forall f | f in Without(fields, v) ensures f.version in versions[1..] { WithoutHas(fields, v, f); }
      GroupingConserves(Without(fields, v), versions[1..]);
    }
  }

  /** Two fields of one version keep their order. */
  lemma {:induction false} OrderKept(fields: seq<Field>, i: nat, j: nat) returns (k: nat, l: nat)
    requires i < j < |fields| && fields[i].version == fields[j].version
    ensures k < l < |Of(fields, fields[i].version)|
    ensures Of(fields, fields[i].version)[k] == fields[i] && Of(fields, fields[i].version)[l] == fields[j]
  {
    var n := |fields| - 1;
    var init := fields[..n];
    if j < n {
      k, l := OrderKept(init, i, j);
    } else {
      k := PlaceOf(init, i);
      l := |Of(init, fields[i].version)|;
    }
  }

  lemma {:induction false} PlaceOf(fields: seq<Field>, i: nat) returns (k: nat)
    requires i < |fields|
    ensures k < |Of(fields, fields[i].version)| && Of(fields, fields[i].version)[k] == fields[i]
  {
    var n := |fields| - 1;
    if i < n {
      k := PlaceOf(fields[..n], i);
    } else {
      k := |Of(fields[..n], fields[i].version)|;
    }
  }
}
