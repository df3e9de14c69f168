/** The one value type every store, cache and slide of the report generator holds:
    the shape `JSONSerialization` hands back as `Any`, plus the abstract file system
    the generator reads it from. */
module JsonModel {

  datatype Option<T> = None | Some(value: T) {
    function GetOr(default: T): T {
      match this
      case Some(v) => v
      case None => default
    }
  }

  datatype Json =
    | JNull
    | JBool(b: bool)
    | JInt(i: int)
    | JDouble(d: real)
    | JStr(s: string)
    | JArr(items: seq<Json>)
    | JObj(fields: map<string, Json>)

  /** A Swift `[String: Any]` dictionary. */
  type Obj = map<string, Json>

  /** `v as? [String: Any]` */
  function AsObj(v: Json): Option<Obj> {
    if v.JObj? then Some(v.fields) else None
  }

  /** `m[k] as? String` */
  function StrAt(m: Obj, k: string): Option<string> {
    if k in m && m[k].JStr? then Some(m[k].s) else None
  }

  /** `m[k] as? [String: Any]` */
  function ObjAt(m: Obj, k: string): Option<Obj> {
    if k in m && m[k].JObj? then Some(m[k].fields) else None
  }

  /** `m[k] as? Bool` */
  function BoolAt(m: Obj, k: string): Option<bool> {
    if k in m && m[k].JBool? then Some(m[k].b) else None
  }

  /** `m[k] as? Int` */
  function IntAt(m: Obj, k: string): Option<int> {
    if k in m && m[k].JInt? then Some(m[k].i) else None
  }

  /** `m as? [String: String]` succeeds exactly when every value is a string. */
  predicate AllStrings(m: Obj) {
    forall k :: k in m ==> m[k].JStr?
  }

  /** `v as? [String: String]`: the dictionary's strings, when it is a dictionary of strings. */
  function AsStringTable(v: Json): (r: Option<map<string, string>>)
    ensures r.Some? <==> v.JObj? && AllStrings(v.fields)
    ensures r.Some? ==> r.value.Keys == v.fields.Keys
    ensures r.Some? ==> forall k :: k in r.value ==> v.fields[k] == JStr(r.value[k])
  {
    if v.JObj? && AllStrings(v.fields) then Some(map k | k in v.fields :: v.fields[k].s) else None
  }

  /** `m as? [String: [String: Any]]` succeeds exactly when every value is a dictionary. */
  predicate AllObjects(m: Obj) {
    forall k :: k in m ==> m[k].JObj?
  }

  /** `(m[k] as? [String: [String: Any]]) ?? [:]`: the nested section, or empty on a shape mismatch. */
  function SectionAt(m: Obj, k: string): (r: Obj)
    ensures r != map[] ==> k in m && m[k].JObj? && AllObjects(m[k].fields) && r == m[k].fields
    ensures k in m && m[k].JObj? && AllObjects(m[k].fields) ==> r == m[k].fields
  {
    if k in m && m[k].JObj? && AllObjects(m[k].fields) then m[k].fields else map[]
  }

  /** `v as? Double`, falling back to `v as? Int`: the numeric payload of a number. */
  function AsNumber(v: Json): Option<real> {
    match v
    case JDouble(d) => Some(d)
    case JInt(i) => Some(i as real)
    case _ => None
  }

  /** The file system as the generator sees it: a path is present when the file exists;
      its entry is `None` when the file is not valid JSON. */
  datatype FileSystem = FileSystem(files: map<string, Option<Json>>) {

    /** `FileManager.default.fileExists(atPath:)` */
    predicate Exists(path: string) {
      path in files
    }

    /** `readFromJSON`: the parsed top-level dictionary, or nil when the file is missing,
        unparseable or not a dictionary. */
    function ReadJson(path: string): (r: Option<Obj>)
      ensures r.Some? ==> Exists(path)
      ensures r.Some? <==> path in files && files[path].Some? && files[path].value.JObj?
    {
      if path in files && files[path].Some? && files[path].value.JObj? then
        Some(files[path].value.fields)
      else
        None
    }
  }

  /** No element occurs twice. */
  predicate Distinct<T(==)>(s: seq<T>) {
    forall i, j :: 0 <= i < j < |s| ==> s[i] != s[j]
  }

  /** `s` lists every element of `keys` exactly once, in some order. */
  predicate Enumerates(s: seq<string>, keys: set<string>) {
    Distinct(s) && (forall x :: x in s ==> x in keys) && (forall x :: x in keys ==> x in s)
  }

  /** `Array(dict.keys)`: the keys of a dictionary in its (unspecified) iteration order. */
  method KeysOf(m: Obj) returns (ks: seq<string>)
    ensures Enumerates(ks, m.Keys)
    ensures |ks| == |m|
  {
    ks := [];
    var rem := m.Keys;
    while rem != {}
      invariant rem <= m.Keys
      invariant Distinct(ks)
      invariant forall x :: x in ks <==> x in m.Keys && x !in rem
      invariant |ks| + |rem| == |m|
      decreases |rem|
    {
      var k :| k in rem;
      ks := ks + [k];
      rem := rem - {k};
    }
  }
}
