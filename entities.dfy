/** The struct-based and refined entity layers: `CachedEntity` and `AliasEntity` over
    their static tables, the typed `SingletonCache`, the refined business entities, the
    handlers, and the protocol-oriented `业务实体` family. */
module Entities {
  import opened JsonModel
  import opened Text
  import opened Paths
  import opened Caches
  import opened Aliases

  // ---------------------------------------------------------------------------
  // CachedEntity and AliasEntity
  // ---------------------------------------------------------------------------

  /** The cache key of a `CachedEntity`: "dirname/basename", with "" for a nil dirname. */
  function CachedEntityKey(dirname: Option<string>, basename: string): (r: string)
    ensures EndsWith(r, "/" + basename)
    ensures dirname.Some? ==> StartsWith(r, dirname.value + "/")
  {
    dirname.GetOr("") + "/" + basename
  }

  /** The cache key of an `AliasEntity`: "alias:basename"; the dirname plays no part. */
  function AliasEntityKey(basename: string): (r: string)
    ensures StartsWith(r, "alias:") && EndsWith(r, basename)
  {
    "alias:" + basename
  }

  /** `dataPrepare` of both entity structs: the file at the `FileTools` JSON path, or an
      empty dictionary when it is missing or unreadable. */
  function EntityDataPrepare(fs: FileSystem, dirname: Option<string>, basename: string): (r: Obj)
    ensures fs.ReadJson(JsonFilename(dirname, basename, "data")).Some? ==> r == fs.ReadJson(JsonFilename(dirname, basename, "data")).value
    ensures fs.ReadJson(JsonFilename(dirname, basename, "data")).None? ==> r == map[]
    ensures !fs.Exists(JsonFilename(dirname, basename, "data")) ==> r == map[]
  {
    fs.ReadJson(JsonFilename(dirname, basename, "data")).GetOr(map[])
  }

  /** A nil dirname and an empty one share a cache key although they name different files
      ("data/JSON/b.json" and "/b.json"): whichever is loaded first answers for both. */
  lemma NilAndEmptyDirnameShareKey(basename: string)
    ensures CachedEntityKey(None, basename) == CachedEntityKey(Some(""), basename)
    ensures JsonFilename(None, basename, "data") != JsonFilename(Some(""), basename, "data")
  {
    var p := JsonFilename(None, basename, "data");
    assert p[0] == 'd';
    assert JsonFilename(Some(""), basename, "data")[0] == '/';
  }

  class CachedEntity {
    const dirname: Option<string>
    const basename: string

    constructor (dirname: Option<string>, basename: string)
      ensures this.dirname == dirname && this.basename == basename
    {
      this.dirname := dirname;
      this.basename := basename;
    }

    /** `cso`: the table entry under this entity's key, loaded by `dataPrepare` on a miss. */
    method Cso(table: KeyedTable, fs: FileSystem) returns (r: Obj)
      modifies table
      ensures table.entries == Looked(old(table.entries), CachedEntityKey(dirname, basename), EntityDataPrepare(fs, dirname, basename))
      ensures table.log == old(table.log) + (if CachedEntityKey(dirname, basename) in old(table.entries) then [] else [CachedEntityKey(dirname, basename)])
      ensures r == table.entries[CachedEntityKey(dirname, basename)]
    {
      r := table.Cso(CachedEntityKey(dirname, basename), EntityDataPrepare(fs, dirname, basename));
    }

    /** `reset()`: removes only this entity's entry. */
    method Reset(table: KeyedTable)
      modifies table
      ensures table.entries == old(table.entries) - {CachedEntityKey(dirname, basename)}
      ensures table.log == old(table.log)
    {
      table.Reset(CachedEntityKey(dirname, basename));
    }
  }

  /** A second lookup under a key that is present changes nothing and loads nothing. */
  lemma LookedTwice(entries: map<string, Obj>, key: string, p1: Obj, p2: Obj)
    ensures Looked(Looked(entries, key, p1), key, p2) == Looked(entries, key, p1)
  {
  }

  /** A lookup leaves every other key's entry as it was. */
  lemma LookedLeavesOthers(entries: map<string, Obj>, key: string, other: string, produced: Obj)
    requires other != key
    ensures other in Looked(entries, key, produced) <==> other in entries
    ensures other in entries ==> Looked(entries, key, produced)[other] == entries[other]
  {
  }

  class AliasEntity {
    const dirname: Option<string>
    const basename: string

    constructor (dirname: Option<string>, basename: string)
      ensures this.dirname == dirname && this.basename == basename
    {
      this.dirname := dirname;
      this.basename := basename;
    }

    /** `cso`: the entry under "alias:basename" in the alias table, which is a table of
        its own, distinct from the `CachedEntity` one. */
    method Cso(table: KeyedTable, fs: FileSystem) returns (r: Obj)
      modifies table
      ensures table.entries == Looked(old(table.entries), AliasEntityKey(basename), EntityDataPrepare(fs, dirname, basename))
      ensures r == table.entries[AliasEntityKey(basename)]
    {
      r := table.Cso(AliasEntityKey(basename), EntityDataPrepare(fs, dirname, basename));
    }

    /** `adjustedName(_:)`: the cleaned-first rule over the table stored under the
        basename inside the loaded alias file. */
    method AdjustedName(table: KeyedTable, fs: FileSystem, name: string) returns (r: string)
      modifies table
      ensures table.entries == Looked(old(table.entries), AliasEntityKey(basename), EntityDataPrepare(fs, dirname, basename))
      ensures r == CleanFirst(AliasTable(Some(table.entries[AliasEntityKey(basename)]), basename), name)
    {
      var cso := Cso(table, fs);
      r := CleanFirst(AliasTable(Some(cso), basename), name);
    }
  }

  // ---------------------------------------------------------------------------
  // SingletonCache: a store of values of any type, read back by type
  // ---------------------------------------------------------------------------

  /** A stored `Any`: the type it was stored as, and its payload. A cast `as? T` succeeds
      exactly when the stored type is `T`. */
  datatype Stored = Stored(kind: string, payload: Json)

  /** `storage[key] as? T` */
  function CachedAs(storage: map<string, Stored>, key: string, kind: string): (r: Option<Json>)
    ensures r.Some? <==> key in storage && storage[key].kind == kind
    ensures r.Some? ==> r.value == storage[key].payload
  {
    if key in storage && storage[key].kind == kind then Some(storage[key].payload) else None
  }

  class SingletonCache {
    var storage: map<string, Stored>
    /** How many times a loader has run. */
    ghost var loaderCalls: nat

    constructor ()
      ensures storage == map[] && loaderCalls == 0
    {
      storage := map[];
      loaderCalls := 0;
    }

    /** `get(for:loader:)`: a stored value of the requested type is returned without
        calling the loader; otherwise (nothing stored, or a value of another type) the
        loader runs once and its value overwrites the entry. */
    method Get(key: string, kind: string, loaded: Json) returns (r: Json)
      modifies this
      ensures CachedAs(old(storage), key, kind).Some? ==>
        r == CachedAs(old(storage), key, kind).value && storage == old(storage) && loaderCalls == old(loaderCalls)
      ensures CachedAs(old(storage), key, kind).None? ==>
        r == loaded && storage == old(storage)[key := Stored(kind, loaded)] && loaderCalls == old(loaderCalls) + 1
      ensures CachedAs(storage, key, kind) == Some(r)
    {
      var cached := CachedAs(storage, key, kind);
      if cached.Some? {
        r := cached.value;
      } else {
        r := loaded;
        storage := storage[key := Stored(kind, loaded)];
        loaderCalls := loaderCalls + 1;
      }
    }

    /** `set(_:for:)`: overwrites only the given key. */
    method Set(key: string, value: Stored)
      modifies this
      ensures storage == old(storage)[key := value] && loaderCalls == old(loaderCalls)
    {
      storage := storage[key := value];
    }

    /** `clear(_:)`: one key, or every key when none is given. */
    method Clear(key: Option<string>)
      modifies this
      ensures key.Some? ==> storage == old(storage) - {key.value}
      ensures key.None? ==> storage == map[]
      ensures loaderCalls == old(loaderCalls)
    {
      if key.Some? {
        storage := storage - {key.value};
      } else {
        storage := map[];
      }
    }
  }

  /** After `set` of a value of type `T`, a `get` of type `T` hits it; after `clear`, it misses. */
  lemma SetThenGetHits(storage: map<string, Stored>, key: string, kind: string, v: Json)
    ensures CachedAs(storage[key := Stored(kind, v)], key, kind) == Some(v)
    ensures CachedAs(storage - {key}, key, kind) == None
    ensures CachedAs(map[], key, kind) == None
  {
  }

  /** Setting one key leaves every other key's typed read unchanged. */
  lemma SetLeavesOthers(storage: map<string, Stored>, key: string, other: string, kind: string, value: Stored)
    requires other != key
    ensures CachedAs(storage[key := value], other, kind) == CachedAs(storage, other, kind)
  {
  }

  /** A value of another type is a miss: the loader's value replaces it. */
  lemma OtherTypeMisses(storage: map<string, Stored>, key: string, kind: string)
    requires key in storage && storage[key].kind != kind
    ensures CachedAs(storage, key, kind) == None
  {
  }

  // ---------------------------------------------------------------------------
  // The refined and protocol-oriented entity classes
  // ---------------------------------------------------------------------------

  /** `实体基类.prepare`, `业务实体.dataPrepare` and `JSONSimpleHandler.getJSON`: the
      readiness-guarded read of the entity's default JSON path. */
  function Prepare(fs: FileSystem, dirname: Option<string>, basename: string, needToRewrite: bool): (r: Option<Obj>)
    ensures !fs.Exists(JsonFilename(dirname, basename, "data")) ==> r == Some(map[])
    ensures needToRewrite ==> r == Some(map[])
    ensures fs.Exists(JsonFilename(dirname, basename, "data")) && !needToRewrite ==> r == fs.ReadJson(JsonFilename(dirname, basename, "data"))
  {
    ReadIfReady(fs, JsonFilename(dirname, basename, "data"), needToRewrite)
  }

  /** The `shared` instances are built with `needToRewrite` true and no dirname, so their
      instance-level read is always the empty dictionary, while the static `dataPrepare`,
      which reads the file without the readiness check, sees the file itself. */
  function SharedDataPrepare(fs: FileSystem, basename: string): (r: Option<Obj>)
    ensures r.Some? ==> fs.Exists(JsonFilename(None, basename, "data"))
  {
    fs.ReadJson(JsonFilename(None, basename, "data"))
  }

  lemma SharedInstanceReadsEmpty(fs: FileSystem, basename: string)
    ensures Prepare(fs, None, basename, true) == Some(map[])
    ensures SharedDataPrepare(fs, basename).Some? && SharedDataPrepare(fs, basename).value != map[] ==>
      SharedDataPrepare(fs, basename) != Prepare(fs, None, basename, true)
  {
  }

  /** `findID(for:)`: the "id" of the name's entry, when that entry casts to `[String: String]`. */
  function FindId(json: Option<Obj>, name: string): (r: Option<string>)
    ensures r.Some? <==> json.Some? && name in json.value && AsStringTable(json.value[name]).Some?
                         && "id" in AsStringTable(json.value[name]).value
    ensures r.Some? ==> json.value[name].fields["id"] == JStr(r.value)
  {
    if json.Some? && name in json.value && AsStringTable(json.value[name]).Some?
       && "id" in AsStringTable(json.value[name]).value
    then Some(AsStringTable(json.value[name]).value["id"])
    else None
  }

  /** An entry holding a non-string value does not cast to `[String: String]`, so its id is not found. */
  lemma FindIdNeedsStringEntry()
    ensures var json := Some(map["内科" := JObj(map["id" := JStr("1"), "rank" := JInt(2)])]);
      FindId(json, "内科") == None
    ensures FindId(Some(map["内科" := JObj(map["id" := JStr("1")])]), "内科") == Some("1")
  {
    var e := map["id" := JStr("1"), "rank" := JInt(2)];
    assert "rank" in e && !e["rank"].JStr?;
    assert !AllStrings(e);
  }

  /** `getShortName(for:)`: the name's entry when it is a string. */
  function ShortName(json: Option<Obj>, name: string): (r: Option<string>)
    ensures r.Some? <==> json.Some? && StrAt(json.value, name).Some?
    ensures r.Some? ==> json.value[name] == JStr(r.value)
  {
    if json.Some? then StrAt(json.value, name) else None
  }

  /** A refined singleton library: the static `cache` slot behind `fetch`, loaded from the
      file of the `shared` instance. */
  class RefinedLibrary {
    const className: string
    const basename: string
    const slot: MemoSlot

    constructor (className: string, basename: string)
      ensures this.className == className && this.basename == basename
      ensures fresh(slot) && slot.cache == None
    {
      this.className := className;
      this.basename := basename;
      slot := new MemoSlot();
    }

    /** `名字ID库V3().findID(for:)` */
    method FindID(fs: FileSystem, name: string) returns (r: Option<string>)
      modifies slot
      ensures slot.cache == Fetched(old(slot.cache), false, SharedDataPrepare(fs, basename))
      ensures r == FindId(slot.cache, name)
    {
      var json := slot.Fetch(false, SharedDataPrepare(fs, basename));
      r := FindId(json, name);
    }

    /** `简称库V3().getShortName(for:)` */
    method GetShortName(fs: FileSystem, name: string) returns (r: Option<string>)
      modifies slot
      ensures slot.cache == Fetched(old(slot.cache), false, SharedDataPrepare(fs, basename))
      ensures r == ShortName(slot.cache, name)
    {
      var json := slot.Fetch(false, SharedDataPrepare(fs, basename));
      r := ShortName(json, name);
    }

    /** `lookup(_:)` of both alias libraries: `adjustedName(name, keep: false)`. */
    method Lookup(fs: FileSystem, name: string) returns (r: Option<string>)
      modifies slot
      ensures slot.cache == Fetched(old(slot.cache), false, SharedDataPrepare(fs, basename))
      ensures r == Some(RawFirst(AliasTable(slot.cache, className), name))
    {
      var s, _ := Aliases.AdjustedName(slot, SharedDataPrepare(fs, basename), className, name, false);
      r := Some(s);
    }
  }

  // ---------------------------------------------------------------------------
  // Handlers
  // ---------------------------------------------------------------------------

  /** `DatabaseHandler`: an in-memory store of one dictionary per class name. */
  class DatabaseHandler {
    var storage: map<string, Json>

    constructor ()
      ensures storage == map[]
    {
      storage := map[];
    }

    /** `getJSON(for:)`: the class's entry when it is a dictionary. */
    function GetJson(classname: string): (r: Option<Obj>)
      reads this
      ensures r.Some? <==> classname in storage && storage[classname].JObj?
      ensures r.Some? ==> storage[classname] == JObj(r.value)
    {
      AsObjAt(storage, classname)
    }

    /** `initialize(classname:preserved:)`: an empty entry unless asked to preserve. */
    method Initialize(classname: string, preserved: bool)
      modifies this
      ensures !preserved ==> storage == old(storage)[classname := JObj(map[])]
      ensures preserved ==> storage == old(storage)
      ensures !preserved ==> GetJson(classname) == Some(map[])
    {
      if !preserved {
        storage := storage[classname := JObj(map[])];
      }
    }

    /** `setJSON(_:for:)`: the next `getJSON` of this class answers `data`; other entries are untouched. */
    method SetJson(data: Obj, classname: string)
      modifies this
      ensures storage == old(storage)[classname := JObj(data)]
      ensures GetJson(classname) == Some(data)
      ensures forall c :: c != classname ==> GetJson(c) == old(GetJson(c))
    {
      storage := storage[classname := JObj(data)];
    }

    /** `clear()` */
    method Clear()
      modifies this
      ensures storage == map[]
      ensures forall c :: GetJson(c) == None
    {
      storage := map[];
    }
  }

  /** `storage[k] as? [String: Any]` for a store keyed by class name. */
  function AsObjAt(storage: map<string, Json>, k: string): (r: Option<Obj>)
    ensures r.Some? <==> k in storage && storage[k].JObj?
    ensures r.Some? ==> storage[k] == JObj(r.value)
  {
    if k in storage && storage[k].JObj? then Some(storage[k].fields) else None
  }

  /** `SingletonHandler`: a cache in front of one handler's file. */
  class SingletonHandler {
    const jsonfilename: string
    const slot: MemoSlot

    constructor (jsonfilename: string)
      ensures this.jsonfilename == jsonfilename && fresh(slot) && slot.cache == None
    {
      this.jsonfilename := jsonfilename;
      slot := new MemoSlot();
    }

    /** `fetch(rebuild:)`: reads the handler's file only on a rebuild or an empty cache. */
    method Fetch(fs: FileSystem, rebuild: bool) returns (r: Option<Obj>)
      modifies slot
      ensures slot.cache == Fetched(old(slot.cache), rebuild, fs.ReadJson(jsonfilename))
      ensures slot.loads == old(slot.loads) + (if Refreshes(old(slot.cache), rebuild) then 1 else 0)
      ensures r == slot.cache
    {
      r := slot.Fetch(rebuild, fs.ReadJson(jsonfilename));
    }

    /** `clearCache()`: the next fetch reads again. */
    method ClearCache()
      modifies slot
      ensures slot.cache == None && Refreshes(slot.cache, false)
    {
      slot.Clear();
    }
  }
}
