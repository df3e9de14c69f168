/** The dictionary walks every database copy shares: the unit array (`dbAsArray`), the
    grouping of keys by their String value (`dbRevertedValue`, `reversedJSON` and the
    direction groups) and the keyed sub-dictionary lookup (`requestJSON(key)`). */
module Tables {
  import opened JsonModel

  /** `requestJSON(key)`: the whole dictionary, or the sub-dictionary under `key`
      (nil when the file is missing or that entry is not a dictionary). */
  function RequestJson(json: Option<Obj>, key: Option<string>): (r: Option<Obj>)
    ensures key.None? ==> r == json
    ensures key.Some? ==> (r.Some? <==> json.Some? && key.value in json.value && json.value[key.value].JObj?)
    ensures key.Some? && r.Some? ==> r.value == json.value[key.value].fields
  {
    match key
    case None => json
    case Some(k) => if json.Some? then ObjAt(json.value, k) else None
  }

  // ---------------------------------------------------------------------------
  // Grouping keys by their String value
  // ---------------------------------------------------------------------------

  /** The String values occurring in `json`. */
  function StringValues(json: Obj): set<string> {
    set k | k in json && json[k].JStr? :: json[k].s
  }

  /** The keys whose value is the String `v`. */
  function KeysWithValue(json: Obj, v: string): set<string> {
    set k | k in json && json[k] == JStr(v)
  }

  /** `redict` lists, under each String value of `json`, every key holding that value,
      once each; non-String values contribute nothing. */
  ghost predicate IsGrouping(json: Obj, redict: map<string, seq<string>>) {
    redict.Keys == StringValues(json)
    && forall v :: v in redict ==>
         Distinct(redict[v]) && forall k :: k in redict[v] <==> k in json && json[k] == JStr(v)
  }

  /** `for (key, value) in json { if let v = value as? String { redict[v, default: []].append(key) } }` */
  method GroupByStringValue(json: Obj) returns (redict: map<string, seq<string>>)
    ensures IsGrouping(json, redict)
  {
    redict := map[];
    var rem := json.Keys;
    while rem != {}
      invariant rem <= json.Keys
      invariant GroupedSoFar(json, redict, rem)
      decreases |rem|
    {
      var k :| k in rem;
      if json[k].JStr? {
        var v := json[k].s;
        var group := if v in redict then redict[v] else [];
        GroupStep(json, redict, rem, k);
        redict := redict[v := group + [k]];
      }
      rem := rem - {k};
    }
    GroupedAll(json, redict);
  }

  /** The loop invariant of the grouping: the keys outside `rem` are grouped. */
  ghost predicate GroupedSoFar(json: Obj, redict: map<string, seq<string>>, rem: set<string>) {
    redict.Keys == (set k | k in json && k !in rem && json[k].JStr? :: json[k].s)
    && forall v :: v in redict ==>
         Distinct(redict[v]) && forall k :: k in redict[v] <==> k in json && k !in rem && json[k] == JStr(v)
  }

  /** A key holding a String joins the end of that String's group. */
  lemma GroupStep(json: Obj, redict: map<string, seq<string>>, rem: set<string>, k: string)
    requires rem <= json.Keys && k in rem && json[k].JStr? && GroupedSoFar(json, redict, rem)
    ensures GroupedSoFar(json,
      redict[json[k].s := (if json[k].s in redict then redict[json[k].s] else []) + [k]], rem - {k})
  {
    var v := json[k].s;
    var group := if v in redict then redict[v] else [];
    assert k !in group;
    assert forall x :: x in group + [k] <==> x in group || x == k;
  }

  lemma GroupedAll(json: Obj, redict: map<string, seq<string>>)
    requires GroupedSoFar(json, redict, {})
    ensures IsGrouping(json, redict)
  {
  }

  /** A grouping is an exact inverse: a key sits in the group of `v` iff its value is `v`. */
  lemma GroupingIsInverse(json: Obj, redict: map<string, seq<string>>, k: string, v: string)
    requires IsGrouping(json, redict)
    ensures (v in redict && k in redict[v]) <==> k in json && json[k] == JStr(v)
  {
    if k in json && json[k] == JStr(v) {
      assert v in StringValues(json);
    }
  }

  /** Every key appears in at most one group. */
  lemma GroupsDisjoint(json: Obj, redict: map<string, seq<string>>, k: string, v1: string, v2: string)
    requires IsGrouping(json, redict)
    requires v1 in redict && v2 in redict && k in redict[v1] && k in redict[v2]
    ensures v1 == v2
  {
  }

  /** Two groupings of the same dictionary hold the same keys in every group; only the
      order inside a group (the dictionary's iteration order) can differ. */
  lemma GroupingsAgree(json: Obj, r1: map<string, seq<string>>, r2: map<string, seq<string>>)
    requires IsGrouping(json, r1) && IsGrouping(json, r2)
    ensures r1.Keys == r2.Keys
    ensures forall v :: v in r1 ==> |r1[v]| == |r2[v]| && forall k :: k in r1[v] <==> k in r2[v]
  {
    forall v | v in r1
      ensures |r1[v]| == |r2[v]|
    {
      DistinctSameElementsSameLength(r1[v], r2[v]);
    }
  }

  lemma {:induction false} DistinctSameElementsSameLength(a: seq<string>, b: seq<string>)
    requires Distinct(a) && Distinct(b)
    requires forall x :: x in a <==> x in b
    ensures |a| == |b|
    decreases |a|
  {
    if a != [] {
      var x := a[0];
      FirstIsMember(a);
      var j :| 0 <= j < |b| && b[j] == x;
      RemoveAt(a, 0);
      assert a[..0] + a[1..] == a[1..];
      RemoveAt(b, j);
      var rest := b[..j] + b[j + 1..];
      forall y ensures y in a[1..] <==> y in rest {
        assert y in a[1..] <==> y in a && y != x;
        assert y in rest <==> y in b && y != x;
      }
      DistinctSameElementsSameLength(a[1..], rest);
    } else {
      FirstIsMember(b);
    }
  }

  /** Removing the element at `j` from a list without repeats leaves the others, once each. */
  lemma RemoveAt(b: seq<string>, j: nat)
    requires Distinct(b) && j < |b|
    ensures Distinct(b[..j] + b[j + 1..])
    ensures forall y :: y in b[..j] + b[j + 1..] <==> y in b && y != b[j]
  {
    var rest := b[..j] + b[j + 1..];
    assert |rest| == |b| - 1;
    assert forall p :: 0 <= p < |rest| ==> rest[p] == b[if p < j then p else p + 1];
    forall y | y in b && y != b[j] ensures y in rest {
      var t :| 0 <= t < |b| && b[t] == y;
      assert rest[if t < j then t else t - 1] == y;
    }
  }

  lemma FirstIsMember(b: seq<string>)
    ensures b != [] ==> b[0] in b
  {
  }

  /** A dictionary without String values groups to nothing. */
  lemma NoStringsNoGroups(json: Obj, redict: map<string, seq<string>>)
    requires IsGrouping(json, redict)
    requires forall k :: k in json ==> !json[k].JStr?
    ensures redict == map[]
  {
    assert StringValues(json) == {};
  }

  // ---------------------------------------------------------------------------
  // The unit array
  // ---------------------------------------------------------------------------

  /** `m[k]` as an optional. */
  function Get(m: Obj, k: string): Option<Json> {
    if k in m then Some(m[k]) else None
  }

  /** Swift `obj[k] = v` with an optional `v`: stores it, or removes the key for nil. */
  function Assign(obj: Obj, k: string, v: Option<Json>): (r: Obj)
    ensures Get(r, k) == v
    ensures forall j :: j != k ==> Get(r, j) == Get(obj, j)
  {
    match v
    case Some(x) => obj[k := x]
    case None => obj - {k}
  }

  /** `base.merge(over) { (_, new) in new }`: every entry of `over` wins. */
  function Merge(base: Obj, over: Obj): (r: Obj)
    ensures r.Keys == base.Keys + over.Keys
    ensures forall k :: k in over ==> r[k] == over[k]
    ensures forall k :: k in base && k !in over ==> r[k] == base[k]
  {
    map k | k in base.Keys + over.Keys :: if k in over then over[k] else base[k]
  }

  /** One element of `dbAsArray` as the protocol and class copies build it. */
  function UnitRow(k: string, v: Json, dataName: Option<string>, key: Option<string>): Obj {
    var obj := map["unitName" := JStr(k)];
    match dataName
    case Some(dn) =>
      if !v.JObj? then obj
      else (match key
            case Some(ky) =>
              (match ObjAt(v.fields, dn)
               case Some(inner) => Assign(obj, dn, Get(inner, ky))
               case None => obj)
            case None => Assign(obj, dn, Get(v.fields, dn)))
    case None =>
      if v.JObj? then Merge(obj, v.fields) else obj
  }

  /** One element of `dbAsArray` as the protocol-chain copy builds it: a `dn` entry that
      is not a dictionary still assigns nil (`(valueDict[dn] as? [String: Any])?[ky]`). */
  function UnitRowV4(k: string, v: Json, dataName: Option<string>, key: Option<string>): Obj {
    var obj := map["unitName" := JStr(k)];
    if !v.JObj? then obj
    else match dataName
      case Some(dn) =>
        (match key
         case Some(ky) =>
           Assign(obj, dn, match ObjAt(v.fields, dn) case Some(inner) => Get(inner, ky) case None => None)
         case None => Assign(obj, dn, Get(v.fields, dn)))
      case None => Merge(obj, v.fields)
  }

  /** Which element rule a copy uses. */
  datatype RowRule = ProtocolRow | ChainRow

  function Row(rule: RowRule, k: string, v: Json, dataName: Option<string>, key: Option<string>): Obj {
    match rule
    case ProtocolRow => UnitRow(k, v, dataName, key)
    case ChainRow => UnitRowV4(k, v, dataName, key)
  }

  /** The keys `dbAsArray` keeps: those the `except` pattern does not match. */
  function KeptKeys(json: Obj, excluded: string -> bool): set<string> {
    set k | k in json && !excluded(k)
  }

  /** `dbAsArray`: one element per kept key, in the dictionary's iteration order `order`. */
  method DbAsArray(json: Obj, dataName: Option<string>, key: Option<string>, excluded: string -> bool, rule: RowRule)
    returns (arr: seq<Obj>, ghost order: seq<string>)
    ensures Enumerates(order, KeptKeys(json, excluded))
    ensures |arr| == |order| == |KeptKeys(json, excluded)|
    ensures forall i :: 0 <= i < |arr| ==> order[i] in json && arr[i] == Row(rule, order[i], json[order[i]], dataName, key)
  {
    arr := [];
    order := [];
    var rem := json.Keys;
    while rem != {}
      invariant rem <= json.Keys
      invariant Distinct(order)
      invariant forall x :: x in order <==> x in json && x !in rem && !excluded(x)
      invariant |arr| == |order|
      invariant forall i :: 0 <= i < |arr| ==> order[i] in json && arr[i] == Row(rule, order[i], json[order[i]], dataName, key)
      decreases |rem|
    {
      var k :| k in rem;
      if !excluded(k) {
        arr := arr + [Row(rule, k, json[k], dataName, key)];
        order := order + [k];
      }
      rem := rem - {k};
    }
    assert forall x :: x in order <==> x in KeptKeys(json, excluded);
    DistinctSameElementsSameLength(order, SetToSeq(KeptKeys(json, excluded)));
  }

  /** Some listing of a finite set, used to measure it. */
  ghost function SetToSeq(s: set<string>): (r: seq<string>)
    ensures Distinct(r) && |r| == |s| && forall x :: x in r <==> x in s
    decreases |s|
  {
    if s == {} then []
    else
      var x :| x in s;
      var t := SetToSeq(s - {x});
      assert forall p :: 0 <= p < |t| ==> t[p] != x;
      [x] + t
  }

  /** Every element is tagged with its own key, unless the key's dictionary overrides the
      tag: a merged value with its own "unitName", or a data name that is "unitName". */
  lemma UnitRowTagged(rule: RowRule, k: string, v: Json, dataName: Option<string>, key: Option<string>)
    requires dataName != Some("unitName")
    requires dataName.None? && v.JObj? ==> "unitName" !in v.fields
    ensures "unitName" in Row(rule, k, v, dataName, key)
    ensures Row(rule, k, v, dataName, key)["unitName"] == JStr(k)
  {
    var r := Row(rule, k, v, dataName, key);
    assert Get(r, "unitName") == Some(JStr(k));
  }

  /** With a data name, an element holds at most the tag and that one field. */
  lemma UnitRowWithDataName(rule: RowRule, k: string, v: Json, dn: string, key: Option<string>)
    ensures Row(rule, k, v, Some(dn), key).Keys <= {"unitName", dn}
  {
    var r := Row(rule, k, v, Some(dn), key);
    forall j | j in r ensures j in {"unitName", dn} {
      if j != dn {
        assert Get(r, j) == Get(map["unitName" := JStr(k)], j);
      }
    }
  }

  /** Without a data name, a dictionary value is copied whole next to the tag. */
  lemma UnitRowMerged(rule: RowRule, k: string, v: Json, key: Option<string>)
    requires v.JObj?
    ensures forall j :: j in v.fields ==> j in Row(rule, k, v, None, key) && Row(rule, k, v, None, key)[j] == v.fields[j]
  {
  }

  /** The merge really does let a record's own "unitName" replace the key. */
  lemma MergeOverridesTag()
    ensures Row(ProtocolRow, "内科", JObj(map["unitName" := JStr("外科")]), None, None)["unitName"] == JStr("外科")
  {
    var v := map["unitName" := JStr("外科")];
    assert Merge(map["unitName" := JStr("内科")], v)["unitName"] == JStr("外科");
  }

  /** The two element rules differ only when the data name is "unitName" itself: the
      protocol-chain copy then drops the tag where the protocol copy keeps it. */
  lemma RowRulesAgree(k: string, v: Json, dataName: Option<string>, key: Option<string>)
    requires dataName != Some("unitName")
    ensures Row(ProtocolRow, k, v, dataName, key) == Row(ChainRow, k, v, dataName, key)
  {
    if dataName.Some? && key.Some? && v.JObj? && ObjAt(v.fields, dataName.value).None? {
      var obj := map["unitName" := JStr(k)];
      assert Assign(obj, dataName.value, None) == obj;
    }
  }
}
