/** The global singletons of the settings layer: the project settings, the direction
    library, the child-to-parent table and the two unit databases, each a `shared`
    instance whose static `cache` is filled by `readFromJSON()` on first `fetch()`. */
module Settings {
  import opened JsonModel
  import opened Tables
  import opened Indicators
  import opened Caches
  import Entities

  /** `(fetch()?[key] as? [String: [String: Any]]) ?? [:]`: the named section of the
      settings when it is a dictionary of dictionaries, and the empty one otherwise. */
  function SettingsSection(json: Option<Obj>, key: string): (r: Obj)
    ensures AllObjects(r)
    ensures r != map[] ==> json.Some? && key in json.value && json.value[key] == JObj(r)
    ensures json.Some? && key in json.value && json.value[key].JObj? && AllObjects(json.value[key].fields) ==>
      r == json.value[key].fields
  {
    if json.Some? then SectionAt(json.value, key) else map[]
  }

  /** `导向指标集()`: nothing unless the whole table casts to `[String: String]`; then the
      indicators grouped by direction. */
  method DirectionSets(json: Option<Obj>) returns (groups: map<string, seq<string>>)
    ensures json.None? || !AllStrings(json.value) ==> groups == map[]
    ensures json.Some? && AllStrings(json.value) ==> IsGrouping(json.value, groups)
  {
    groups := map[];
    if json.Some? && AllStrings(json.value) {
      groups := GroupByStringValue(json.value);
    }
  }

  /** `localUnits()` and `focusUnits()`: the unit names, when every unit's value is a
      dictionary, and nothing otherwise. */
  method UnitKeys(json: Option<Obj>) returns (ks: seq<string>)
    ensures json.Some? && AllObjects(json.value) ==> Enumerates(ks, json.value.Keys)
    ensures json.None? || !AllObjects(json.value) ==> ks == []
  {
    ks := [];
    if json.Some? && AllObjects(json.value) {
      ks := KeysOf(json.value);
    }
  }

  /** The child's direction, read from the direction table as a whole `[String: String]`. */
  predicate VectorDirected(dirs: Option<Obj>, l3: string) {
    dirs.Some? && AllStrings(dirs.value) && l3 in dirs.value && dirs.value[l3].s in VectorDirections
  }

  /** The static caches of the five singletons. */
  class Libraries {
    const settings: MemoSlot
    const directions: MemoSlot
    const parents: MemoSlot
    const internal: MemoSlot
    const benchmark: MemoSlot

    /** Every class has its own static slot. */
    predicate Valid()
      reads this
    {
      settings != directions && settings != parents && settings != internal && settings != benchmark
      && directions != parents && directions != internal && directions != benchmark
      && parents != internal && parents != benchmark && internal != benchmark
    }

    constructor ()
      ensures Valid()
      ensures settings.cache.None? && directions.cache.None? && parents.cache.None?
      ensures internal.cache.None? && benchmark.cache.None?
    {
      settings := new MemoSlot();
      directions := new MemoSlot();
      parents := new MemoSlot();
      internal := new MemoSlot();
      benchmark := new MemoSlot();
    }

    /** `一级指标设置`, `二级指标设置`, `三级指标设置` and `科室设置` of the project settings. */
    method Section(fs: FileSystem, key: string) returns (r: Obj)
      modifies settings
      ensures settings.cache == Fetched(old(settings.cache), false, Entities.SharedDataPrepare(fs, "项目设置"))
      ensures r == SettingsSection(settings.cache, key)
    {
      var json := settings.Fetch(false, Entities.SharedDataPrepare(fs, "项目设置"));
      r := SettingsSection(json, key);
    }

    /** `指标导向库.shared.导向指标集()` */
    method DirectionGroups(fs: FileSystem) returns (groups: map<string, seq<string>>)
      modifies directions
      ensures directions.cache == Fetched(old(directions.cache), false, Entities.SharedDataPrepare(fs, "指标导向库"))
      ensures directions.cache.None? || !AllStrings(directions.cache.value) ==> groups == map[]
      ensures directions.cache.Some? && AllStrings(directions.cache.value) ==> IsGrouping(directions.cache.value, groups)
    {
      var json := directions.Fetch(false, Entities.SharedDataPrepare(fs, "指标导向库"));
      groups := DirectionSets(json);
    }

    /** `三级指标对应二级指标.shared.矢量指标()`: nothing unless the child-to-parent table
        casts to `[String: String]` (the direction library is only consulted then);
        otherwise every child whose direction is a vector direction, under its parent. */
    method VectorIndicatorsByParent(fs: FileSystem) returns (result: map<string, seq<string>>)
      requires Valid()
      modifies parents, directions
      ensures parents.cache == Fetched(old(parents.cache), false, Entities.SharedDataPrepare(fs, "三级指标对应二级指标"))
      ensures parents.cache.None? || !AllStrings(parents.cache.value) ==>
        result == map[] && directions.cache == old(directions.cache)
      ensures parents.cache.Some? && AllStrings(parents.cache.value) ==>
        directions.cache == Fetched(old(directions.cache), false, Entities.SharedDataPrepare(fs, "指标导向库"))
      ensures forall l2 :: l2 in result ==> Distinct(result[l2])
      ensures forall l2, l3 :: (l2 in result && l3 in result[l2]) <==>
        parents.cache.Some? && AllStrings(parents.cache.value) && l3 in parents.cache.value
        && parents.cache.value[l3] == JStr(l2) && VectorDirected(directions.cache, l3)
    {
      var json := parents.Fetch(false, Entities.SharedDataPrepare(fs, "三级指标对应二级指标"));
      result := map[];
      if json.None? || !AllStrings(json.value) {
        return;
      }
      var data := AsStringTable(JObj(json.value)).value;
      var groups := DirectionGroups(fs);
      result := VectorIndicators(data, groups);
      if directions.cache.Some? && AllStrings(directions.cache.value) {
        VectorByDirection(data, directions.cache.value, groups, result);
      }
    }

    /** `院内资料库.shared.years()` */
    method Years(fs: FileSystem) returns (ys: seq<string>)
      modifies internal
      ensures internal.cache == Fetched(old(internal.cache), false, Entities.SharedDataPrepare(fs, "院内资料库"))
      ensures var json := internal.cache;
        (json.None? || !AllObjects(json.value) || json.value == map[] ==> ys == [])
        && (json.Some? && AllObjects(json.value) && json.value != map[] ==>
              exists u :: u in json.value && IsYearsOf(ys, json.value[u].fields))
    {
      var json := internal.Fetch(false, Entities.SharedDataPrepare(fs, "院内资料库"));
      ys := UnitYears(json);
    }

    /** `院内资料库.shared.localUnits()` */
    method LocalUnits(fs: FileSystem) returns (ks: seq<string>)
      modifies internal
      ensures internal.cache == Fetched(old(internal.cache), false, Entities.SharedDataPrepare(fs, "院内资料库"))
      ensures internal.cache.Some? && AllObjects(internal.cache.value) ==> Enumerates(ks, internal.cache.value.Keys)
      ensures internal.cache.None? || !AllObjects(internal.cache.value) ==> ks == []
    {
      var json := internal.Fetch(false, Entities.SharedDataPrepare(fs, "院内资料库"));
      ks := UnitKeys(json);
    }

    /** `对标资料库.shared.focusUnits()` */
    method FocusUnits(fs: FileSystem) returns (ks: seq<string>)
      modifies benchmark
      ensures benchmark.cache == Fetched(old(benchmark.cache), false, Entities.SharedDataPrepare(fs, "对标资料库"))
      ensures benchmark.cache.Some? && AllObjects(benchmark.cache.value) ==> Enumerates(ks, benchmark.cache.value.Keys)
      ensures benchmark.cache.None? || !AllObjects(benchmark.cache.value) ==> ks == []
    {
      var json := benchmark.Fetch(false, Entities.SharedDataPrepare(fs, "对标资料库"));
      ks := UnitKeys(json);
    }
  }
}
