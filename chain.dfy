/** The seven-level class chain `JSONSimple完整版` → `JSONDatabase完整版` →
    `StormDBSingleton完整版` → `AnyCaseSingleton完整版` → `CaseSingleton完整版` →
    `NormalCaseSingleton完整版` → `项目设置完整版`. Static stored properties are not
    overridden in Swift, so `cache` and `_stormCache` are each one slot shared by every
    class below their declaring one; only `项目设置完整版` re-points `cso` at its own
    `_projectCache`. */
module Chain {
  import opened JsonModel
  import opened Paths
  import opened Tables
  import opened Caches
  import Database

  /** The classes of the chain that have a `dataPrepare`. */
  datatype ChainClass = DatabaseBase | StormDB | AnyCase | CaseSingleton | NormalCase | ProjectSettings

  /** `String(describing: self)` */
  function ClassName(c: ChainClass): string {
    match c
    case DatabaseBase => "JSONDatabase完整版"
    case StormDB => "StormDBSingleton完整版"
    case AnyCase => "AnyCaseSingleton完整版"
    case CaseSingleton => "CaseSingleton完整版"
    case NormalCase => "NormalCaseSingleton完整版"
    case ProjectSettings => "项目设置完整版"
  }

  // ---------------------------------------------------------------------------
  // JSONSimple完整版: paths and the guarded read
  // ---------------------------------------------------------------------------

  /** `jsonfileNeedsNoFix(_:)` with the class-name default for the basename. */
  function ChainNeedsNoFix(fs: FileSystem, opts: Obj, className: string): (r: Readiness)
    ensures r.jsonfilename == ClassJsonFilename(opts, className)
    ensures r.isReady <==> fs.Exists(ClassJsonFilename(opts, className)) && !OptFlag(opts, "needToRewrite")
  {
    NeedsNoFix(fs, ClassJsonFilename(opts, className), OptFlag(opts, "needToRewrite"))
  }

  /** `getJSON(_:)`: the parsed file when it is ready (nil when it does not parse), and an
      empty dictionary whenever it is not. */
  function ChainGetJson(fs: FileSystem, opts: Obj, className: string): (r: Option<Obj>)
    ensures ChainNeedsNoFix(fs, opts, className).isReady ==> r == fs.ReadJson(ClassJsonFilename(opts, className))
    ensures !ChainNeedsNoFix(fs, opts, className).isReady ==> r == Some(map[])
  {
    var ready := ChainNeedsNoFix(fs, opts, className);
    if ready.isReady then fs.ReadJson(ready.jsonfilename) else Some(map[])
  }

  // ---------------------------------------------------------------------------
  // The options of each level
  // ---------------------------------------------------------------------------

  /** `options()` as each class resolves it (the `renaming` closure is not modelled):
      the StormDB dictionary, `saveAs` off from `NormalCaseSingleton完整版` on, and
      `unwrap` off for `项目设置完整版`. */
  function ChainOptions(c: ChainClass): Obj {
    var base := Database.StormOptions(ClassName(c));
    match c
    case NormalCase => base["saveAs" := JBool(false)]
    case ProjectSettings => base["saveAs" := JBool(false)]["unwrap" := JBool(false)]
    case _ => base
  }

  /** Every level keeps the rewrite request of the StormDB options, and reads the store
      "/<class name>.json". */
  lemma ChainOptionsAskRewrite(c: ChainClass)
    ensures OptFlag(ChainOptions(c), "needToRewrite")
    ensures ClassJsonFilename(ChainOptions(c), ClassName(c)) == "/" + ClassName(c) + ".json"
  {
    var base := Database.StormOptions(ClassName(c));
    Database.StormPathOptions(ClassName(c));
    OtherOptionsKept(base, "saveAs", JBool(false));
    OtherOptionsKept(base["saveAs" := JBool(false)], "unwrap", JBool(false));
    var o := ChainOptions(c);
    assert OptString(o, "dirname") == Some("") && OptString(o, "basename") == Some(ClassName(c));
    assert OptString(o, "folder") == None && OptFlag(o, "needToRewrite");
    assert "" + "/" == "/";
  }

  /** What `fetchSingleJSON` computes for class `c`: `getJSON` on its options, with
      `needToRewrite` forced on for a rebuild. Either way the store is never ready, so the
      result is the empty dictionary, whatever is on disk. */
  function FetchProduced(fs: FileSystem, c: ChainClass, rebuild: bool): (r: Option<Obj>)
    ensures r == Some(map[])
  {
    ChainOptionsAskRewrite(c);
    var opts := if rebuild then ChainOptions(c)["needToRewrite" := JBool(true)] else ChainOptions(c);
    assert OptString(opts, "dirname") == OptString(ChainOptions(c), "dirname");
    assert OptString(opts, "basename") == OptString(ChainOptions(c), "basename");
    assert OptString(opts, "folder") == OptString(ChainOptions(c), "folder");
    assert OptFlag(opts, "needToRewrite");
    ChainGetJson(fs, opts, ClassName(c))
  }

  /** Each of the three static slots holds nothing yet or the empty dictionary. */
  predicate EmptyOrUnset(slot: Option<Obj>) {
    slot == None || slot == Some(map[])
  }

  class ChainStatics {
    /** `JSONDatabase完整版.cache`, behind every `cso` but `项目设置完整版`'s */
    var cache: Option<Obj>
    /** `StormDBSingleton完整版._stormCache` */
    var stormCache: Option<Obj>
    /** `项目设置完整版._projectCache` */
    var projectCache: Option<Obj>
    /** The classes whose store was computed by `fetchSingleJSON`, in order. */
    ghost var fetched: seq<ChainClass>

    /** Everything the chain can ever cache is the empty dictionary. */
    predicate Valid()
      reads this
    {
      EmptyOrUnset(cache) && EmptyOrUnset(stormCache) && EmptyOrUnset(projectCache)
    }

    constructor ()
      ensures Valid()
      ensures cache == None && stormCache == None && projectCache == None && fetched == []
    {
      cache := None;
      stormCache := None;
      projectCache := None;
      fetched := [];
    }

    /** `fetchSingleJSON(["rebuild": rebuild])` called on class `c`: recomputes on a rebuild
        or an empty `_stormCache`, then answers with it. */
    method FetchSingleJson(fs: FileSystem, c: ChainClass, rebuild: bool) returns (r: Option<Obj>)
      requires Valid()
      modifies this
      ensures Valid()
      ensures stormCache == Fetched(old(stormCache), rebuild, FetchProduced(fs, c, rebuild))
      ensures fetched == old(fetched) + (if Refreshes(old(stormCache), rebuild) then [c] else [])
      ensures r == stormCache && r == Some(map[])
      ensures cache == old(cache) && projectCache == old(projectCache)
    {
      if rebuild || stormCache == None {
        stormCache := FetchProduced(fs, c, rebuild);
        fetched := fetched + [c];
      }
      r := stormCache;
    }

    /** `dataPrepare()` as class `c` overrides it: nil at the base, `fetchSingleJSON()`
        everywhere below. */
    method DataPrepare(fs: FileSystem, c: ChainClass) returns (r: Option<Obj>)
      requires Valid()
      modifies this
      ensures Valid()
      ensures c == DatabaseBase ==> r == None && stormCache == old(stormCache) && fetched == old(fetched)
      ensures c != DatabaseBase ==> r == Some(map[]) && stormCache == Some(map[])
      ensures cache == old(cache) && projectCache == old(projectCache)
    {
      if c == DatabaseBase {
        r := None;
      } else {
        r := FetchSingleJson(fs, c, false);
      }
    }

    /** `cso` read on class `c`: `项目设置完整版` fills `_projectCache`; every other class
        fills the one shared `cache`, so the first class to ask decides it for all of them.
        A nil from `dataPrepare` is not kept. */
    method Cso(fs: FileSystem, c: ChainClass) returns (r: Option<Obj>)
      requires Valid()
      modifies this
      ensures Valid()
      ensures c == ProjectSettings ==> r == Some(map[]) && projectCache == r && cache == old(cache)
      ensures c != ProjectSettings && old(cache).Some? ==> r == old(cache) && cache == old(cache)
      ensures c != ProjectSettings && old(cache).None? ==> r == (if c == DatabaseBase then None else Some(map[])) && cache == r
      ensures c != ProjectSettings ==> projectCache == old(projectCache)
      ensures EmptyOrUnset(r)
    {
      if c == ProjectSettings {
        if projectCache == None {
          projectCache := DataPrepare(fs, c);
        }
        r := projectCache;
      } else {
        if cache == None {
          cache := DataPrepare(fs, c);
        }
        r := cache;
      }
    }

    /** `requestJSON(key)` on class `c`: the cached store, or its sub-dictionary under `key`. */
    method RequestJsonOf(fs: FileSystem, c: ChainClass, key: Option<string>) returns (r: Option<Obj>)
      requires Valid()
      modifies this
      ensures Valid()
      ensures key.Some? ==> r == None
      ensures key.None? ==> EmptyOrUnset(r)
      ensures key.None? && c != DatabaseBase ==> r == Some(map[])
    {
      var json := Cso(fs, c);
      r := RequestJson(json, key);
    }

    /** `dbAsArray(_:)`: one element per key of the store, tagged with `unitName`; the store
        is always empty, so no element at all. */
    method DbAsArrayOf(fs: FileSystem, c: ChainClass) returns (arr: seq<Obj>)
      requires Valid()
      modifies this
      ensures Valid()
      ensures arr == []
    {
      var json := RequestJsonOf(fs, c, None);
      arr := [];
      if json.Some? {
        ghost var order;
        arr, order := DbAsArray(json.value, None, None, _ => false, ProtocolRow);
        assert KeptKeys(json.value, _ => false) == {};
      }
    }

    /** `dbDictKeys(_:)`: the store's keys, or none without a store. */
    method DbDictKeysOf(fs: FileSystem, c: ChainClass) returns (ks: seq<string>)
      requires Valid()
      modifies this
      ensures Valid()
      ensures ks == []
    {
      var json := RequestJsonOf(fs, c, None);
      ks := [];
      if json.Some? {
        ks := KeysOf(json.value);
      }
    }

    /** `一级指标设置` (and its two siblings): the named section of `项目设置完整版.cso`. */
    method SettingsSection(fs: FileSystem, key: string) returns (r: Obj)
      requires Valid()
      modifies this
      ensures Valid()
      ensures r == map[]
    {
      var json := Cso(fs, ProjectSettings);
      r := SectionAt(json.GetOr(map[]), key);
    }
  }

  /** The store that `fetchSingleJSON` yields for `c` is the guarded read of its own file:
      were the rewrite request dropped, an existing readable file would be returned. */
  lemma FetchWouldReadWithoutRewrite(fs: FileSystem, c: ChainClass)
    ensures ChainGetJson(fs, ChainOptions(c)["needToRewrite" := JBool(false)], ClassName(c))
            == (if fs.Exists("/" + ClassName(c) + ".json") then fs.ReadJson("/" + ClassName(c) + ".json") else Some(map[]))
  {
    ChainOptionsAskRewrite(c);
    var opts := ChainOptions(c)["needToRewrite" := JBool(false)];
    assert OptString(opts, "dirname") == OptString(ChainOptions(c), "dirname");
    assert OptString(opts, "basename") == OptString(ChainOptions(c), "basename");
    assert OptString(opts, "folder") == OptString(ChainOptions(c), "folder");
    assert !OptFlag(opts, "needToRewrite");
  }

  /** The shared `cache`: whichever class reads `cso` first fills the slot every other
      class of the chain then answers from, so the base class's nil turns into the empty
      dictionary once any subclass has been read. */
  method SharedCacheOrder(fs: FileSystem) returns (first: Option<Obj>, second: Option<Obj>)
    ensures first == Some(map[]) && second == Some(map[])
  {
    var statics := new ChainStatics();
    first := statics.Cso(fs, StormDB);
    second := statics.Cso(fs, DatabaseBase);
  }
}
