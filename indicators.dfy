/** The indicator tables derived from the project settings: the direction and the parent
    of every third-level indicator, the indicators grouped by direction and by parent,
    the "vector" indicators, and the year columns of a unit database. */
module Indicators {
  import opened JsonModel
  import opened Text
  import opened Tables

  // ---------------------------------------------------------------------------
  // One String field of every indicator record
  // ---------------------------------------------------------------------------

  /** Whether the record under `k` is a dictionary holding a String under `field`. */
  predicate HasStringField(section: Obj, k: string, field: string) {
    k in section && section[k].JObj? && field in section[k].fields && section[k].fields[field].JStr?
  }

  /** Under every indicator whose record holds a String `field`, that String. */
  function FieldMap(section: Obj, field: string): (r: Obj)
    ensures AllStrings(r)
    ensures forall k :: k in r <==> HasStringField(section, k, field)
    ensures forall k :: k in r ==> HasStringField(section, k, field) && r[k] == section[k].fields[field]
  {
    map k | k in section && HasStringField(section, k, field) :: section[k].fields[field]
  }

  /** What `dataPrepare` of the direction and parent tables computes from the settings:
      the field map of the "三级指标设置" section, or nothing when that is no dictionary. */
  function Derived(settings: Obj, field: string): (r: Obj)
    ensures AllStrings(r)
    ensures ObjAt(settings, "三级指标设置").None? ==> r == map[]
    ensures ObjAt(settings, "三级指标设置").Some? ==>
      forall k :: k in r <==> HasStringField(ObjAt(settings, "三级指标设置").value, k, field)
  {
    var section := ObjAt(settings, "三级指标设置");
    if section.Some? then FieldMap(section.value, field) else map[]
  }

  /** The loop of `指标导向库.dataPrepare` ("指标导向") and of `三级指标对应二级指标.dataPrepare`
      ("上级指标"): one pass over the section, keeping the records that hold the field. */
  method BuildDerived(settings: Obj, field: string) returns (result: Obj)
    ensures result == Derived(settings, field)
  {
    result := map[];
    var section := ObjAt(settings, "三级指标设置");
    if section.None? {
      return;
    }
    var s := section.value;
    var rem := s.Keys;
    while rem != {}
      invariant rem <= s.Keys
      invariant forall k :: k in result <==> k !in rem && HasStringField(s, k, field)
      invariant forall k :: k in result ==> result[k] == s[k].fields[field]
      decreases |rem|
    {
      var key :| key in rem;
      var obj := s[key];
      if obj.JObj? && field in obj.fields && obj.fields[field].JStr? {
        result := result[key := obj.fields[field]];
      }
      rem := rem - {key};
    }
    assert result == FieldMap(s, field);
  }

  /** The direction table: every indicator with a String "指标导向" under that String. */
  function Directions(settings: Obj): Obj {
    Derived(settings, "指标导向")
  }

  /** The parent table: every indicator with a String "上级指标" under that String. */
  function Parents(settings: Obj): Obj {
    Derived(settings, "上级指标")
  }

  /** Grouping the direction table puts an indicator into the group of direction `d`
      exactly when its own record gives "指标导向" as `d`, and into no other group. */
  lemma DirectionGroupsExact(settings: Obj, groups: map<string, seq<string>>, k: string, d: string)
    requires IsGrouping(Directions(settings), groups)
    requires ObjAt(settings, "三级指标设置").Some?
    ensures (d in groups && k in groups[d]) <==>
      var s := ObjAt(settings, "三级指标设置").value;
      HasStringField(s, k, "指标导向") && s[k].fields["指标导向"] == JStr(d)
    ensures forall d2 :: d2 in groups && k in groups[d2] && d in groups && k in groups[d] ==> d2 == d
  {
    GroupingIsInverse(Directions(settings), groups, k, d);
  }

  /** Grouping the parent table (`二级指标对应三级指标.dataPrepare`) lists under every
      second-level indicator exactly its children, and every child under one parent. */
  lemma ChildrenExact(settings: Obj, children: map<string, seq<string>>, l2: string, l3: string)
    requires IsGrouping(Parents(settings), children)
    requires ObjAt(settings, "三级指标设置").Some?
    ensures (l2 in children && l3 in children[l2]) <==>
      var s := ObjAt(settings, "三级指标设置").value;
      HasStringField(s, l3, "上级指标") && s[l3].fields["上级指标"] == JStr(l2)
    ensures forall p :: p in children && l3 in children[p] && l2 in children && l3 in children[l2] ==> p == l2
  {
    GroupingIsInverse(Parents(settings), children, l3, l2);
  }

  // ---------------------------------------------------------------------------
  // `[String: [String]]` stored as `[String: Any]`
  // ---------------------------------------------------------------------------

  /** A list of names as a JSON array. */
  function NameArray(names: seq<string>): (r: seq<Json>)
    ensures |r| == |names|
    ensures forall i :: 0 <= i < |names| ==> r[i] == JStr(names[i])
  {
    if names == [] then [] else [JStr(names[0])] + NameArray(names[1..])
  }

  /** `v as? [String]`: the names of an array whose items are all Strings. */
  function AsNames(items: seq<Json>): (r: Option<seq<string>>)
    ensures r.Some? <==> forall i :: 0 <= i < |items| ==> items[i].JStr?
  {
    if items == [] then Some([])
    else if !items[0].JStr? then None
    else
      var rest := AsNames(items[1..]);
      if rest.None? then
        assert !forall i :: 0 <= i < |items[1..]| ==> items[1..][i].JStr?;
        None
      else
        assert forall i :: 1 <= i < |items| ==> items[i] == items[1..][i - 1];
        Some([items[0].s] + rest.value)
  }

  /** Reading a stored list of names gives the list back. */
  lemma {:induction false} NameArrayRoundTrip(names: seq<string>)
    ensures AsNames(NameArray(names)) == Some(names)
    decreases |names|
  {
    if names != [] {
      var items := NameArray(names);
      NameArrayRoundTrip(names[1..]);
      assert items[1..] == NameArray(names[1..]);
      AsNamesCons(items, names[0], names[1..]);
      assert names == [names[0]] + names[1..];
    }
  }

  /** One step of `AsNames`: a String in front of a list that reads as `rest`. */
  lemma AsNamesCons(items: seq<Json>, first: string, rest: seq<string>)
    requires items != [] && items[0] == JStr(first) && AsNames(items[1..]) == Some(rest)
    ensures AsNames(items) == Some([first] + rest)
  {
  }

  /** The grouping as the `[String: Any]` value the singleton keeps. */
  function GroupsAsJson(groups: map<string, seq<string>>): (r: Obj)
    ensures r.Keys == groups.Keys
    ensures forall v :: v in r ==> r[v].JArr? && AsNames(r[v].items) == Some(groups[v])
  {
    forall v | v in groups ensures AsNames(NameArray(groups[v])) == Some(groups[v]) {
      NameArrayRoundTrip(groups[v]);
    }
    map v | v in groups :: JArr(NameArray(groups[v]))
  }

  // ---------------------------------------------------------------------------
  // `矢量指标`: the indicators with a directional ("vector") target
  // ---------------------------------------------------------------------------

  /** The directions that have a target to move towards. */
  const VectorDirections: set<string> := {"逐步提高", "逐步降低", "高优", "低优"}

  /** Some group of `groups` holds `l3` under a vector direction. */
  predicate HasVector(groups: map<string, seq<string>>, l3: string) {
    exists d :: d in groups && l3 in groups[d] && d in VectorDirections
  }

  /** No indicator sits in two groups, so "the first group holding it" is the only one. */
  predicate Unambiguous(groups: map<string, seq<string>>) {
    forall l3, d1, d2 :: d1 in groups && d2 in groups && l3 in groups[d1] && l3 in groups[d2] ==> d1 == d2
  }

  /** Every listed indicator belongs to its parent and has a vector direction. */
  predicate SoundVector(data: map<string, string>, groups: map<string, seq<string>>, result: map<string, seq<string>>) {
    forall l2, l3 :: l2 in result && l3 in result[l2] ==> l3 in data && data[l3] == l2 && HasVector(groups, l3)
  }

  /** Every indicator with a vector direction is listed under its parent. */
  predicate CompleteVector(data: map<string, string>, groups: map<string, seq<string>>, result: map<string, seq<string>>) {
    forall l3 :: l3 in data && HasVector(groups, l3) ==> data[l3] in result && l3 in result[data[l3]]
  }

  /** The loop of `矢量指标`: for every (child, parent) pair, the direction is the key of the
      first direction group holding the child (dictionary order is unspecified, so any
      holding group may come first); a vector direction lists the child under its parent.
      With unambiguous groups the answer is exactly the vector indicators by parent. */
  method VectorIndicators(data: map<string, string>, groups: map<string, seq<string>>)
    returns (result: map<string, seq<string>>)
    ensures forall l2 :: l2 in result ==> Distinct(result[l2]) && result[l2] != []
    ensures SoundVector(data, groups, result)
    ensures Unambiguous(groups) ==> CompleteVector(data, groups, result)
    ensures groups == map[] ==> result == map[]
  {
    result := map[];
    var rem := data.Keys;
    while rem != {}
      invariant rem <= data.Keys
      invariant VectorSoFar(data, groups, result, rem)
      decreases |rem|
    {
      var l3 :| l3 in rem;
      var l2 := data[l3];
      if exists d :: d in groups && l3 in groups[d] {
        var d :| d in groups && l3 in groups[d];
        if d in VectorDirections {
          var listed := if l2 in result then result[l2] else [];
          VectorListed(data, groups, result, rem, l3, d);
          result := result[l2 := listed + [l3]];
        } else {
          VectorSkipped(data, groups, result, rem, l3, d);
        }
      } else {
        VectorUngrouped(data, groups, result, rem, l3);
      }
      rem := rem - {l3};
    }
  }

  /** The loop invariant of `矢量指标`: the children outside `rem` have been visited. */
  ghost predicate VectorSoFar(data: map<string, string>, groups: map<string, seq<string>>,
                              result: map<string, seq<string>>, rem: set<string>) {
    (forall l2 :: l2 in result ==> Distinct(result[l2]) && result[l2] != [])
    && (forall l2, l3 :: l2 in result && l3 in result[l2] ==> l3 !in rem)
    && SoundVector(data, groups, result)
    && (groups == map[] ==> result == map[])
    && (Unambiguous(groups) ==>
          forall l3 :: l3 in data && l3 !in rem && HasVector(groups, l3) ==> data[l3] in result && l3 in result[data[l3]])
  }

  /** A child found in a vector group is appended to its parent's list. */
  lemma VectorListed(data: map<string, string>, groups: map<string, seq<string>>,
                     result: map<string, seq<string>>, rem: set<string>, l3: string, d: string)
    requires rem <= data.Keys && l3 in rem && VectorSoFar(data, groups, result, rem)
    requires d in groups && l3 in groups[d] && d in VectorDirections
    ensures VectorSoFar(data, groups,
      result[data[l3] := (if data[l3] in result then result[data[l3]] else []) + [l3]], rem - {l3})
  {
    var l2 := data[l3];
    var listed := if l2 in result then result[l2] else [];
    var next := result[l2 := listed + [l3]];
    assert l3 !in listed;
    assert forall x :: x in listed + [l3] <==> x in listed || x == l3;
  }

  /** A child whose first group has no vector direction is not listed. */
  lemma VectorSkipped(data: map<string, string>, groups: map<string, seq<string>>,
                      result: map<string, seq<string>>, rem: set<string>, l3: string, d: string)
    requires rem <= data.Keys && l3 in rem && VectorSoFar(data, groups, result, rem)
    requires d in groups && l3 in groups[d] && d !in VectorDirections
    ensures VectorSoFar(data, groups, result, rem - {l3})
  {
  }

  /** A child in no group is not listed. */
  lemma VectorUngrouped(data: map<string, string>, groups: map<string, seq<string>>,
                        result: map<string, seq<string>>, rem: set<string>, l3: string)
    requires rem <= data.Keys && l3 in rem && VectorSoFar(data, groups, result, rem)
    requires !exists d :: d in groups && l3 in groups[d]
    ensures VectorSoFar(data, groups, result, rem - {l3})
  {
  }

  /** With the groups taken from a grouping of the direction table, the vector indicators
      are exactly the children whose own direction is a vector direction. */
  lemma {:induction false} VectorByDirection(data: map<string, string>, dirs: Obj,
                                             groups: map<string, seq<string>>, result: map<string, seq<string>>)
    requires IsGrouping(dirs, groups)
    requires SoundVector(data, groups, result)
    requires Unambiguous(groups) ==> CompleteVector(data, groups, result)
    ensures forall l2, l3 :: (l2 in result && l3 in result[l2]) <==>
      l3 in data && data[l3] == l2 && l3 in dirs && dirs[l3].JStr? && dirs[l3].s in VectorDirections
  {
    assert Unambiguous(groups) by {
      forall l3, d1, d2 | d1 in groups && d2 in groups && l3 in groups[d1] && l3 in groups[d2]
        ensures d1 == d2
      {
        GroupsDisjoint(dirs, groups, l3, d1, d2);
      }
    }
    forall l2, l3 ensures (l2 in result && l3 in result[l2]) <==>
      l3 in data && data[l3] == l2 && l3 in dirs && dirs[l3].JStr? && dirs[l3].s in VectorDirections
    {
      if l2 in result && l3 in result[l2] {
        assert HasVector(groups, l3);
        var d :| d in groups && l3 in groups[d] && d in VectorDirections;
        GroupingIsInverse(dirs, groups, l3, d);
      }
      if l3 in data && data[l3] == l2 && l3 in dirs && dirs[l3].JStr? && dirs[l3].s in VectorDirections {
        GroupingIsInverse(dirs, groups, l3, dirs[l3].s);
        assert HasVector(groups, l3);
      }
    }
  }

  // ---------------------------------------------------------------------------
  // Year columns
  // ---------------------------------------------------------------------------

  /** `ys` is the "Y"-prefixed keys of `record`, latest first. */
  ghost predicate IsYearsOf(ys: seq<string>, record: Obj) {
    Descending(ys) && forall x :: x in ys <==> x in record && StartsWith(x, "Y")
  }

  /** `keys.filter { $0.hasPrefix("Y") }.sorted().reversed()` (equivalently `sorted(by: >)`). */
  method YearKeys(record: Obj) returns (ys: seq<string>)
    ensures IsYearsOf(ys, record)
  {
    var keys := KeysOf(record);
    var picked: seq<string> := [];
    var i := 0;
    while i < |keys|
      invariant 0 <= i <= |keys|
      invariant Distinct(picked)
      invariant forall x :: x in picked <==> x in keys[..i] && StartsWith(x, "Y")
    {
      if StartsWith(keys[i], "Y") {
        assert keys[i] !in keys[..i];
        picked := picked + [keys[i]];
      }
      assert keys[..i + 1] == keys[..i] + [keys[i]];
      i := i + 1;
    }
    assert keys[..i] == keys;
    SortDescSorted(picked);
    ys := SortDesc(picked);
  }

  /** The year list does not depend on the order in which the keys were enumerated. */
  lemma YearsAreDetermined(record: Obj, a: seq<string>, b: seq<string>)
    requires IsYearsOf(a, record) && IsYearsOf(b, record)
    ensures a == b
  {
    DescendingUnique(a, b);
  }

  /** `院内资料库.years()` of the settings layer: nothing unless every unit's value is a
      dictionary; otherwise the years of whichever unit comes first. */
  method UnitYears(json: Option<Obj>) returns (ys: seq<string>)
    ensures json.None? || !AllObjects(json.value) || json.value == map[] ==> ys == []
    ensures json.Some? && AllObjects(json.value) && json.value != map[] ==>
      exists u :: u in json.value && IsYearsOf(ys, json.value[u].fields)
  {
    if json.None? || !AllObjects(json.value) || json.value == map[] {
      return [];
    }
    var u :| u in json.value;
    ys := YearKeys(json.value[u].fields);
  }

  /** `years()` of the layered protocol: the years of whichever entry comes first, when
      that entry is a dictionary, and nothing otherwise. */
  method FirstEntryYears(json: Option<Obj>) returns (ys: seq<string>)
    ensures json.None? || json.value == map[] ==> ys == []
    ensures ys != [] ==> exists u :: u in json.value && json.value[u].JObj? && IsYearsOf(ys, json.value[u].fields)
    ensures json.Some? && (forall u :: u in json.value ==> json.value[u].JObj?) && json.value != map[] ==>
      exists u :: u in json.value && IsYearsOf(ys, json.value[u].fields)
  {
    if json.None? || json.value == map[] {
      return [];
    }
    var u :| u in json.value;
    if !json.value[u].JObj? {
      return [];
    }
    ys := YearKeys(json.value[u].fields);
  }

  /** `years()` of the case layer: the final year and the two before it, as "Y2021",
      "Y2020", "Y2019"; distinct years give distinct labels. */
  function CaseYears(finalYear: int): (r: seq<string>)
    ensures |r| == 3 && Distinct(r)
    ensures forall i :: 0 <= i < 3 ==> |r[i]| >= 2 && r[i][0] == 'Y' && IsIntText(r[i][1..])
  {
    var a := IntToString(finalYear);
    var b := IntToString(finalYear - 1);
    var c := IntToString(finalYear - 2);
    assert a != b by { if a == b { IntToStringInjective(finalYear, finalYear - 1); } }
    assert b != c by { if b == c { IntToStringInjective(finalYear - 1, finalYear - 2); } }
    assert a != c by { if a == c { IntToStringInjective(finalYear, finalYear - 2); } }
    TaggedLabels(a, b, c);
    ["Y" + a, "Y" + b, "Y" + c]
  }

  /** Three distinct non-empty strings behind a "Y" stay distinct and read back. */
  lemma TaggedLabels(a: string, b: string, c: string)
    requires IsIntText(a) && IsIntText(b) && IsIntText(c) && a != b && b != c && a != c
    ensures Distinct(["Y" + a, "Y" + b, "Y" + c])
    ensures forall i :: 0 <= i < 3 ==>
      |["Y" + a, "Y" + b, "Y" + c][i]| >= 2 && ["Y" + a, "Y" + b, "Y" + c][i][0] == 'Y'
      && IsIntText(["Y" + a, "Y" + b, "Y" + c][i][1..])
  {
    TaggedTail(a);
    TaggedTail(b);
    TaggedTail(c);
  }

  /** The `i`-th label reads back as the year `i` years before the final one. */
  lemma CaseYearsReadBack(finalYear: int, i: int)
    requires 0 <= i < 3
    ensures ParseInt(CaseYears(finalYear)[i][1..]) == finalYear - i
  {
    CaseYearsLabels(finalYear);
    TaggedReadBack(CaseYears(finalYear)[i], finalYear - i);
  }

  /** A year behind a "Y" reads back as that year. */
  lemma TaggedReadBack(tagged: string, year: int)
    requires tagged == "Y" + IntToString(year)
    ensures IsIntText(tagged[1..]) && ParseInt(tagged[1..]) == year
  {
    TaggedTail(IntToString(year));
    IntToStringRoundTrip(year);
  }

  /** The labels one by one. */
  lemma CaseYearsLabels(finalYear: int)
    ensures forall i :: 0 <= i < 3 ==> CaseYears(finalYear)[i] == "Y" + IntToString(finalYear - i)
  {
    var r := CaseYears(finalYear);
    assert r[0] == "Y" + IntToString(finalYear);
    assert r[1] == "Y" + IntToString(finalYear - 1);
    assert r[2] == "Y" + IntToString(finalYear - 2);
  }

  lemma TaggedTail(s: string)
    ensures ("Y" + s)[1..] == s
  {
    assert ("Y" + s)[1..] == s;
  }
}
