/** The class-method database hierarchy `JSONSimple` → `JSONDatabase` → `StormDBSingleton`
    → `AnyGlobalSingleton` → `Alias`, with the concrete singletons `别名库`, `名字ID库`,
    `简称库` and `自制别名库`. Its state is a handful of static variables that every
    subclass shares: the database `_sdb`, the fetched store `_json`, the base class's
    private `_cso`, and each concrete singleton's own `_cso`. */
module Database {
  import opened JsonModel
  import opened Text
  import opened Paths
  import opened Tables
  import opened Caches
  import opened Aliases

  // ---------------------------------------------------------------------------
  // Pure parts: options, files, the fresh database
  // ---------------------------------------------------------------------------

  /** `options()` of `StormDBSingleton` and `AnyGlobalSingleton` for the class `className`
      (the `renaming` closure is not modelled). */
  function StormOptions(className: string): Obj {
    map["dirname" := JStr(""), "basename" := JStr(className), "mainKeyName" := JStr("数据名"),
        "header" := JObj(map["rows" := JInt(1)]),
        "columnToKey" := JObj(map["*" := JStr("{{columnHeader}}")]),
        "sheetStubs" := JBool(true), "needToRewrite" := JBool(true),
        "unwrap" := JBool(true), "saveAs" := JBool(true)]
  }

  /** `Alias.options()`: the inherited options, still asking for a rewrite, and no rebuild. */
  function AliasOptions(className: string): Obj {
    StormOptions(className)["needToRewrite" := JBool(true)]["rebuild" := JBool(false)]
  }

  /** The default options place the store at "/className.json", ask for a rewrite, and
      ask for a "_bu" backup when saving the Excel file. */
  lemma StormOptionsFacts(className: string)
    ensures OptsJsonFilename(StormOptions(className)) == "/" + className + ".json"
    ensures OptFlag(StormOptions(className), "needToRewrite")
    ensures OptFlag(StormOptions(className), "saveAs") && OptFlag(StormOptions(className), "unwrap")
    ensures OptFlag(AliasOptions(className), "needToRewrite")
    ensures BoolAt(AliasOptions(className), "rebuild") == Some(false)
  {
    StormPathOptions(className);
    assert "" + "/" == "/";
  }

  /** The path options of the StormDB dictionary: an empty dirname, the class name, no
      folder, and the rewrite request. */
  lemma StormPathOptions(className: string)
    ensures OptString(StormOptions(className), "dirname") == Some("")
    ensures OptString(StormOptions(className), "basename") == Some(className)
    ensures OptString(StormOptions(className), "folder") == None
    ensures OptFlag(StormOptions(className), "needToRewrite")
  {
    assert "folder" !in StormOptions(className);
  }

  /** `normalKeyName(_:)`: the "mainKey" option, or "". */
  function NormalKeyName(opts: Obj): (r: string)
    ensures StrAt(opts, "mainKey").Some? ==> r == StrAt(opts, "mainKey").value
    ensures StrAt(opts, "mainKey").None? ==> r == ""
  {
    StrAt(opts, "mainKey").GetOr("")
  }

  /** `StormDBSingleton.getJSON(opts)`: the file when ready, else an empty dictionary. */
  function StormGetJson(fs: FileSystem, opts: Obj): Option<Obj> {
    ReadIfReady(fs, OptsJsonFilename(opts), OptFlag(opts, "needToRewrite"))
  }

  /** What `StormDBSingleton.fetchSingleJSON` stores: the options always ask for a rewrite,
      so it is always the empty dictionary. */
  function StormProduced(fs: FileSystem, className: string): (r: Option<Obj>)
    ensures r == Some(map[])
  {
    StormOptionsFacts(className);
    StormGetJson(fs, StormOptions(className))
  }

  /** What `Alias.fetchSingleJSON` stores: the options with the rewrite switched off, so the
      file "/className.json" when it exists, else the empty dictionary. */
  function AliasProduced(fs: FileSystem, className: string): (r: Option<Obj>)
    ensures fs.Exists("/" + className + ".json") ==> r == fs.ReadJson("/" + className + ".json")
    ensures !fs.Exists("/" + className + ".json") ==> r == Some(map[])
  {
    var o := AliasOptions(className)["needToRewrite" := JBool(false)];
    StormOptionsFacts(className);
    assert OptString(o, "dirname") == OptString(StormOptions(className), "dirname");
    assert OptString(o, "basename") == OptString(StormOptions(className), "basename");
    assert "folder" !in o;
    assert !OptFlag(o, "needToRewrite");
    StormGetJson(fs, o)
  }

  /** The store one class's `fetchSingleJSON` produces. */
  function FetchProduced(fs: FileSystem, className: string, isAlias: bool): Option<Obj> {
    if isAlias then AliasProduced(fs, className) else StormProduced(fs, className)
  }

  /** `JSONDatabase.jsonObject()`: the file "className.json", relative to the working directory. */
  function JsonObject(fs: FileSystem, className: string): Option<Obj> {
    fs.ReadJson(DbFilename(className))
  }

  /** The alias table is read from "/className.json" while the database reads
      "className.json": two different files. */
  lemma AliasStoreIsAnotherFile(className: string)
    ensures "/" + className + ".json" != DbFilename(className)
  {
    assert |"/" + className + ".json"| == |DbFilename(className)| + 1;
  }

  /** `setDB`'s new database: an empty dictionary for `thisClass`, or nothing at all when
      asked to preserve. */
  function FreshDb(thisClass: string, preserved: bool): (r: Obj)
    ensures |r| <= 1
    ensures !preserved ==> r == map[thisClass := JObj(map[])]
    ensures preserved ==> r == map[]
  {
    if preserved then map[] else map[thisClass := JObj(map[])]
  }

  /** The database a singleton's `dataPrepare` leaves behind: `Alias` subclasses preserve
      (leave no entry) exactly when their database file can be read. */
  function PreparedDb(fs: FileSystem, className: string, isAlias: bool): Obj {
    FreshDb(className, isAlias && JsonObject(fs, className).Some?)
  }

  /** After `dataPrepare`, the class has an entry in `_sdb` (into which `addPairs` can
      write) unless it is an `Alias` whose file can be read. */
  lemma PreparedDbEntry(fs: FileSystem, className: string, isAlias: bool)
    ensures ObjAt(PreparedDb(fs, className, isAlias), className).Some? <==> !isAlias || JsonObject(fs, className).None?
  {
  }

  /** `addPairs` on the database: the kept pairs written into the class's entry, when that
      entry is a dictionary. */
  function AddedPairs(sdb: Obj, className: string, dict: map<string, string>): (r: Obj)
    ensures r.Keys == sdb.Keys
    ensures forall c :: c in sdb && c != className ==> r[c] == sdb[c]
  {
    match ObjAt(sdb, className)
    case Some(entry) => sdb[className := JObj(Paired(entry, dict))]
    case None => sdb
  }

  // ---------------------------------------------------------------------------
  // The static state
  // ---------------------------------------------------------------------------

  class Statics {
    /** `JSONDatabase._sdb` */
    var sdb: Obj
    /** `StormDBSingleton._json`, one slot for every subclass */
    var stormJson: Option<Obj>
    /** `AnyGlobalSingleton._cso`: private to the base class, so one slot for every subclass
        that does not declare its own */
    var anyCso: Option<Obj>
    /** The own `_cso` of each concrete singleton; a missing key is nil. */
    var ownCso: map<string, Obj>
    /** The classes whose `dataPrepare` ran, in order. */
    ghost var prepared: seq<string>

    constructor ()
      ensures sdb == map[] && stormJson == None && anyCso == None && ownCso == map[] && prepared == []
    {
      sdb := map[];
      stormJson := None;
      anyCso := None;
      ownCso := map[];
      prepared := [];
    }

    /** `db(_:)`: the entry of `thisClass` when it is a dictionary (else empty), or the whole
        database without `thisClass`. */
    function Db(opts: Obj): (r: Obj)
      reads this
      ensures StrAt(opts, "thisClass").None? ==> r == sdb
      ensures StrAt(opts, "thisClass").Some? ==> r == ObjAt(sdb, StrAt(opts, "thisClass").value).GetOr(map[])
    {
      match StrAt(opts, "thisClass")
      case None => sdb
      case Some(c) => ObjAt(sdb, c).GetOr(map[])
    }

    /** `JSONDatabase.setDB(_:)`: replaces the whole database (a missing "thisClass" is a
        fatal error in the source). */
    method SetDB(opts: Obj) returns (r: Obj)
      requires StrAt(opts, "thisClass").Some?
      modifies this
      ensures sdb == FreshDb(StrAt(opts, "thisClass").value, BoolAt(opts, "preserved").GetOr(false))
      ensures r == sdb
      ensures stormJson == old(stormJson) && anyCso == old(anyCso) && ownCso == old(ownCso) && prepared == old(prepared)
    {
      var thisClass := StrAt(opts, "thisClass").value;
      var preserved := BoolAt(opts, "preserved").GetOr(false);
      var db: Obj := map[];
      if !preserved {
        db := db[thisClass := JObj(map[])];
      }
      sdb := db;
      r := sdb;
    }

    /** `Alias.setDB(_:)`: preserves exactly when the class's own database file can be read. */
    method AliasSetDB(opts: Obj, className: string, fs: FileSystem) returns (r: Obj)
      requires StrAt(opts, "thisClass").Some?
      modifies this
      ensures sdb == FreshDb(StrAt(opts, "thisClass").value, JsonObject(fs, className).Some?)
      ensures r == sdb
      ensures stormJson == old(stormJson) && anyCso == old(anyCso) && ownCso == old(ownCso) && prepared == old(prepared)
    {
      var newOpts := opts["preserved" := JBool(JsonObject(fs, className).Some?)];
      assert StrAt(newOpts, "thisClass") == StrAt(opts, "thisClass");
      r := SetDB(newOpts);
    }

    /** `dataPrepare()`: `setDB` with the class's own name (dispatched to `Alias.setDB` for
        alias classes), then `requestJSON()`. */
    method DataPrepare(className: string, isAlias: bool, fs: FileSystem) returns (r: Option<Obj>)
      modifies this
      ensures sdb == PreparedDb(fs, className, isAlias)
      ensures r == JsonObject(fs, className)
      ensures prepared == old(prepared) + [className]
      ensures stormJson == old(stormJson) && anyCso == old(anyCso) && ownCso == old(ownCso)
    {
      var opts := map["thisClass" := JStr(className)];
      assert StrAt(opts, "thisClass") == Some(className);
      if isAlias {
        var _ := AliasSetDB(opts, className, fs);
      } else {
        assert BoolAt(opts, "preserved") == None;
        var _ := SetDB(opts);
      }
      prepared := prepared + [className];
      r := JsonObject(fs, className);
    }

    /** `AnyGlobalSingleton.cso`: one slot shared by the subclasses; a nil result is not
        kept, so while the file is unreadable every access prepares (and resets `_sdb`) again. */
    method AnyCso(className: string, isAlias: bool, fs: FileSystem) returns (r: Option<Obj>)
      modifies this
      ensures old(anyCso).Some? ==> anyCso == old(anyCso) && sdb == old(sdb) && prepared == old(prepared)
      ensures old(anyCso).None? ==>
        anyCso == JsonObject(fs, className) && sdb == PreparedDb(fs, className, isAlias) && prepared == old(prepared) + [className]
      ensures r == anyCso
      ensures stormJson == old(stormJson) && ownCso == old(ownCso)
    {
      if anyCso == None {
        anyCso := DataPrepare(className, isAlias, fs);
      }
      r := anyCso;
    }

    /** The `cso` of a concrete singleton (`别名库`, `名字ID库`, `简称库`, `自制别名库`):
        its own slot, filled by the first non-nil `dataPrepare`. */
    method OwnCso(className: string, isAlias: bool, fs: FileSystem) returns (r: Option<Obj>)
      modifies this
      ensures className in old(ownCso) ==>
        r == Some(old(ownCso)[className]) && ownCso == old(ownCso) && sdb == old(sdb) && prepared == old(prepared)
      ensures className !in old(ownCso) ==>
        r == JsonObject(fs, className) && sdb == PreparedDb(fs, className, isAlias) && prepared == old(prepared) + [className]
        && ownCso == (if r.Some? then old(ownCso)[className := r.value] else old(ownCso))
      ensures stormJson == old(stormJson) && anyCso == old(anyCso)
    {
      if className in ownCso {
        r := Some(ownCso[className]);
      } else {
        r := DataPrepare(className, isAlias, fs);
        if r.Some? {
          ownCso := ownCso[className := r.value];
        }
      }
    }

    /** `fetchSingleJSON(_:)`: `StormDBSingleton`'s or `Alias`'s version; both fill the one
        shared `_json`, recomputing on "rebuild" or when it is nil. */
    method Fetch(opts: Obj, className: string, isAlias: bool, fs: FileSystem) returns (r: Option<Obj>)
      modifies this
      ensures stormJson == Fetched(old(stormJson), BoolAt(opts, "rebuild").GetOr(false), FetchProduced(fs, className, isAlias))
      ensures r == stormJson
      ensures sdb == old(sdb) && anyCso == old(anyCso) && ownCso == old(ownCso) && prepared == old(prepared)
    {
      var rebuild := BoolAt(opts, "rebuild").GetOr(false);
      if rebuild || stormJson == None {
        stormJson := FetchProduced(fs, className, isAlias);
      }
      r := stormJson;
    }

    /** `reversedJSON()`: the fetched store's keys grouped under their String values. */
    method ReversedJson(className: string, isAlias: bool, fs: FileSystem) returns (redict: map<string, seq<string>>)
      modifies this
      ensures stormJson == Fetched(old(stormJson), false, FetchProduced(fs, className, isAlias))
      ensures stormJson.None? ==> redict == map[]
      ensures stormJson.Some? ==> IsGrouping(stormJson.value, redict)
      ensures sdb == old(sdb) && anyCso == old(anyCso) && ownCso == old(ownCso) && prepared == old(prepared)
    {
      var json := Fetch(map[], className, isAlias, fs);
      if json.None? {
        return map[];
      }
      redict := GroupByStringValue(json.value);
    }

    /** `Alias.addPairs(_:)`: without a "dict" of strings nothing happens; otherwise the
        store is fetched and the kept pairs are written into the class's entry of `_sdb`,
        provided that entry is a dictionary. */
    method AliasAddPairs(opts: Obj, className: string, fs: FileSystem)
      modifies this
      ensures "dict" !in opts || AsStringTable(opts["dict"]).None? ==>
        sdb == old(sdb) && stormJson == old(stormJson)
      ensures "dict" in opts && AsStringTable(opts["dict"]).Some? ==>
        sdb == AddedPairs(old(sdb), className, AsStringTable(opts["dict"]).value)
        && stormJson == Fetched(old(stormJson), false, AliasProduced(fs, className))
      ensures anyCso == old(anyCso) && ownCso == old(ownCso) && prepared == old(prepared)
    {
      if "dict" !in opts || AsStringTable(opts["dict"]).None? {
        return;
      }
      var dict := AsStringTable(opts["dict"]).value;
      var _ := Fetch(map[], className, true, fs);
      sdb := WritePairs(sdb, className, dict);
    }

    /** `Alias.ajustedName(_:)`: nil without a "name"; otherwise the raw-first rule over the
        table in the fetched store, learning a noisy unknown name into `_sdb`. */
    method AjustedName(opts: Obj, className: string, fs: FileSystem) returns (r: Option<string>)
      modifies this
      ensures StrAt(opts, "name").None? ==> r == None && sdb == old(sdb) && stormJson == old(stormJson)
      ensures StrAt(opts, "name").Some? ==>
        stormJson == Fetched(old(stormJson), false, AliasProduced(fs, className))
        && r == Some(RawFirst(AliasTable(stormJson, className), StrAt(opts, "name").value))
        && sdb == (if Learns(AliasTable(stormJson, className), StrAt(opts, "name").value)
                   then AddedPairs(old(sdb), className, map[StrAt(opts, "name").value := Clean(StrAt(opts, "name").value)])
                   else old(sdb))
      ensures anyCso == old(anyCso) && ownCso == old(ownCso) && prepared == old(prepared)
    {
      var name := StrAt(opts, "name");
      if name.None? {
        return None;
      }
      var keep := BoolAt(opts, "keep").GetOr(false);
      var json := Fetch(map[], className, true, fs);
      var table := AliasTable(json, className);
      r := Some(RawFirst(table, name.value));
      if Learns(table, name.value) {
        var dict := map[name.value := Clean(name.value)];
        var fields := map[name.value := JStr(Clean(name.value))];
        var pairOpts := map["dict" := JObj(fields), "keep" := JBool(keep)];
        assert AllStrings(fields);
        assert (map k | k in fields :: fields[k].s) == dict;
        assert AsStringTable(pairOpts["dict"]) == Some(dict);
        AliasAddPairs(pairOpts, className, fs);
      }
    }
  }

  /** The loop of `Alias.addPairs` over the database value: each kept pair is written into
      the class's entry whenever that entry is a dictionary. */
  method WritePairs(sdb0: Obj, className: string, dict: map<string, string>) returns (sdb: Obj)
    ensures sdb == AddedPairs(sdb0, className, dict)
  {
    sdb := sdb0;
    ghost var base := ObjAt(sdb0, className).GetOr(map[]);
    ghost var db := base;
    var rem := dict.Keys;
    while rem != {}
      invariant rem <= dict.Keys
      invariant ObjAt(sdb0, className).None? ==> sdb == sdb0
      invariant ObjAt(sdb0, className).Some? ==> sdb == sdb0[className := JObj(db)]
      invariant PairsWritten(db, base, dict, rem)
      decreases |rem|
    {
      var key :| key in rem;
      WritePairStep(db, base, dict, rem, key);
      if key != dict[key] {
        var entry := ObjAt(sdb, className);
        if entry.Some? {
          sdb := sdb[className := JObj(entry.value[key := JStr(dict[key])])];
        }
        db := db[key := JStr(dict[key])];
      }
      rem := rem - {key};
    }
    AllPairsWritten(db, base, dict);
  }

  /** Learning happens only into a class entry that `dataPrepare` created, which an alias
      class has only when its own database file cannot be read. */
  lemma LearningNeedsMissingFile(fs: FileSystem, className: string, dict: map<string, string>)
    requires JsonObject(fs, className).Some?
    ensures AddedPairs(PreparedDb(fs, className, true), className, dict) == PreparedDb(fs, className, true)
  {
  }

  // ---------------------------------------------------------------------------
  // Queries that read the class's database file
  // ---------------------------------------------------------------------------

  /** `JSONDatabase.requestJSON(_:)` */
  function RequestJsonOf(fs: FileSystem, className: string, key: Option<string>): Option<Obj> {
    RequestJson(JsonObject(fs, className), key)
  }

  /** `dbDictKeys(_:)`: without "thisClass", or when the (sub-)dictionary cannot be read, no keys. */
  method DbDictKeys(opts: Obj, className: string, fs: FileSystem) returns (ks: seq<string>)
    ensures StrAt(opts, "thisClass").None? ==> ks == []
    ensures RequestJsonOf(fs, className, StrAt(opts, "key")).None? ==> ks == []
    ensures StrAt(opts, "thisClass").Some? && RequestJsonOf(fs, className, StrAt(opts, "key")).Some? ==>
      Enumerates(ks, RequestJsonOf(fs, className, StrAt(opts, "key")).value.Keys)
  {
    var json := RequestJsonOf(fs, className, StrAt(opts, "key"));
    if StrAt(opts, "thisClass").None? || json.None? {
      return [];
    }
    ks := KeysOf(json.value);
  }

  /** `dbRevertedValue(_:)`: the database's keys grouped by their String values. */
  method DbRevertedValue(className: string, fs: FileSystem) returns (redict: map<string, seq<string>>)
    ensures JsonObject(fs, className).None? ==> redict == map[]
    ensures JsonObject(fs, className).Some? ==> IsGrouping(JsonObject(fs, className).value, redict)
  {
    var json := JsonObject(fs, className);
    if json.None? {
      return map[];
    }
    redict := GroupByStringValue(json.value);
  }

  /** `dbAsArray(_:)`: one element per key the "except" pattern does not match, tagged with
      its key; `matches` stands for the regular-expression search. */
  method DbAsArray(opts: Obj, className: string, fs: FileSystem, matches: (string, string) -> bool)
    returns (arr: seq<Obj>, ghost order: seq<string>)
    ensures JsonObject(fs, className).None? ==> arr == []
    ensures JsonObject(fs, className).Some? ==>
      var json := JsonObject(fs, className).value;
      var excluded := (k: string) => StrAt(opts, "except").Some? && matches(StrAt(opts, "except").value, k);
      Enumerates(order, KeptKeys(json, excluded)) && |arr| == |order|
      && (forall i :: 0 <= i < |arr| ==>
            order[i] in json && arr[i] == UnitRow(order[i], json[order[i]], StrAt(opts, "dataName"), StrAt(opts, "key")))
  {
    var json := JsonObject(fs, className);
    if json.None? {
      return [], [];
    }
    var except := StrAt(opts, "except");
    var excluded := (k: string) => except.Some? && matches(except.value, k);
    arr, order := Tables.DbAsArray(json.value, StrAt(opts, "dataName"), StrAt(opts, "key"), excluded, ProtocolRow);
  }
}
