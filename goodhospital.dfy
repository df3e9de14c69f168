/** The data sources of the 2021 case: six singletons, each a `_cso` dictionary with an
    `_isLoaded` flag. The settings and the two unit databases are read through
    `CachedEntity`, whose own table outlives `clearAllCache()`; the direction, parent and
    child tables are derived from the settings. */
module GoodHospital {
  import opened JsonModel
  import opened Tables
  import opened Caches
  import opened Indicators
  import Entities

  /** The `CachedEntity` keys of the three sources read from disk (no dirname). */
  const SettingsKey: string := Entities.CachedEntityKey(None, "项目设置")
  const InternalKey: string := Entities.CachedEntityKey(None, "院内资料库")
  const BenchmarkKey: string := Entities.CachedEntityKey(None, "对标资料库")

  /** `stored` is the `[String: [String]]` grouping of `json` by String value. */
  ghost predicate StoresGrouping(json: Obj, stored: Obj) {
    exists g :: IsGrouping(json, g) && stored == GroupsAsJson(g)
  }

  class CaseData {
    /** `CachedEntity._cache`, shared by every entity. */
    const table: KeyedTable
    const settings: FlaggedSlot
    const internal: FlaggedSlot
    const benchmark: FlaggedSlot
    const directions: FlaggedSlot
    const parents: FlaggedSlot
    const children: FlaggedSlot

    /** Every singleton has its own pair of statics. */
    predicate Valid()
      reads this
    {
      settings != internal && settings != benchmark && settings != directions && settings != parents && settings != children
      && internal != benchmark && internal != directions && internal != parents && internal != children
      && benchmark != directions && benchmark != parents && benchmark != children
      && directions != parents && directions != children
      && parents != children
    }

    /** Every loaded singleton agrees with the entity table: the three read from disk hold
        their table entry, and the three derived ones hold what the settings entry yields. */
    ghost predicate Coherent()
      reads this, table, settings, internal, benchmark, directions, parents, children
    {
      (settings.isLoaded ==> SettingsKey in table.entries && settings.cso == table.entries[SettingsKey])
      && (internal.isLoaded ==> InternalKey in table.entries && internal.cso == table.entries[InternalKey])
      && (benchmark.isLoaded ==> BenchmarkKey in table.entries && benchmark.cso == table.entries[BenchmarkKey])
      && (directions.isLoaded ==> SettingsKey in table.entries && directions.cso == Directions(table.entries[SettingsKey]))
      && (parents.isLoaded ==> SettingsKey in table.entries && parents.cso == Parents(table.entries[SettingsKey]))
      && (children.isLoaded ==> SettingsKey in table.entries && StoresGrouping(Parents(table.entries[SettingsKey]), children.cso))
    }

    constructor ()
      ensures Valid() && Coherent()
      ensures table.entries == map[]
      ensures !settings.isLoaded && !internal.isLoaded && !benchmark.isLoaded
      ensures !directions.isLoaded && !parents.isLoaded && !children.isLoaded
    {
      table := new KeyedTable();
      settings := new FlaggedSlot();
      internal := new FlaggedSlot();
      benchmark := new FlaggedSlot();
      directions := new FlaggedSlot();
      parents := new FlaggedSlot();
      children := new FlaggedSlot();
    }

    /** `项目设置.cso`: the settings entry of the entity table, read from disk only when
        that table has no entry yet. */
    method SettingsCso(fs: FileSystem) returns (r: Obj)
      requires Valid() && Coherent()
      modifies settings, table
      ensures Coherent() && settings.isLoaded
      ensures table.entries == Looked(old(table.entries), SettingsKey, Entities.EntityDataPrepare(fs, None, "项目设置"))
      ensures r == settings.cso == table.entries[SettingsKey]
    {
      if !settings.isLoaded {
        var entity := new Entities.CachedEntity(None, "项目设置");
        var obj := entity.Cso(table, fs);
        r := settings.Get(obj);
      } else {
        r := settings.Get(map[]);
      }
    }

    /** `院内资料库.cso` */
    method InternalCso(fs: FileSystem) returns (r: Obj)
      requires Valid() && Coherent()
      modifies internal, table
      ensures Coherent() && internal.isLoaded
      ensures table.entries == Looked(old(table.entries), InternalKey, Entities.EntityDataPrepare(fs, None, "院内资料库"))
      ensures r == internal.cso == table.entries[InternalKey]
    {
      if !internal.isLoaded {
        var entity := new Entities.CachedEntity(None, "院内资料库");
        var obj := entity.Cso(table, fs);
        r := internal.Get(obj);
      } else {
        r := internal.Get(map[]);
      }
    }

    /** `对标资料库.cso` */
    method BenchmarkCso(fs: FileSystem) returns (r: Obj)
      requires Valid() && Coherent()
      modifies benchmark, table
      ensures Coherent() && benchmark.isLoaded
      ensures table.entries == Looked(old(table.entries), BenchmarkKey, Entities.EntityDataPrepare(fs, None, "对标资料库"))
      ensures r == benchmark.cso == table.entries[BenchmarkKey]
    {
      if !benchmark.isLoaded {
        var entity := new Entities.CachedEntity(None, "对标资料库");
        var obj := entity.Cso(table, fs);
        r := benchmark.Get(obj);
      } else {
        r := benchmark.Get(map[]);
      }
    }

    /** `指标导向库.cso`: on first access, the direction of every third-level indicator of
        the settings. */
    method DirectionsCso(fs: FileSystem) returns (r: Obj)
      requires Valid() && Coherent()
      modifies directions, settings, table
      ensures Coherent() && directions.isLoaded
      ensures SettingsKey in table.entries && r == directions.cso == Directions(table.entries[SettingsKey])
      ensures old(directions.isLoaded) ==> table.entries == old(table.entries)
      ensures !old(directions.isLoaded) ==>
        table.entries == Looked(old(table.entries), SettingsKey, Entities.EntityDataPrepare(fs, None, "项目设置"))
      ensures old(settings.isLoaded) ==> settings.isLoaded
    {
      if !directions.isLoaded {
        var s := SettingsCso(fs);
        var d := BuildDerived(s, "指标导向");
        r := directions.Get(d);
      } else {
        r := directions.Get(map[]);
      }
    }

    /** `三级指标对应二级指标.cso`: on first access, the parent of every third-level indicator. */
    method ParentsCso(fs: FileSystem) returns (r: Obj)
      requires Valid() && Coherent()
      modifies parents, settings, table
      ensures Coherent() && parents.isLoaded
      ensures SettingsKey in table.entries && r == parents.cso == Parents(table.entries[SettingsKey])
      ensures old(parents.isLoaded) ==> table.entries == old(table.entries)
      ensures !old(parents.isLoaded) ==>
        table.entries == Looked(old(table.entries), SettingsKey, Entities.EntityDataPrepare(fs, None, "项目设置"))
      ensures old(settings.isLoaded) ==> settings.isLoaded
    {
      if !parents.isLoaded {
        var s := SettingsCso(fs);
        var p := BuildDerived(s, "上级指标");
        r := parents.Get(p);
      } else {
        r := parents.Get(map[]);
      }
    }

    /** `二级指标对应三级指标.cso`: on first access, the parent table turned around, every
        second-level indicator listing its children. */
    method ChildrenCso(fs: FileSystem) returns (r: Obj)
      requires Valid() && Coherent()
      modifies children, parents, settings, table
      ensures Coherent() && children.isLoaded
      ensures SettingsKey in table.entries && r == children.cso
      ensures StoresGrouping(Parents(table.entries[SettingsKey]), r)
      ensures old(settings.isLoaded) ==> settings.isLoaded
      ensures old(parents.isLoaded) ==> parents.isLoaded
    {
      if !children.isLoaded {
        var p := ParentsCso(fs);
        var g := GroupByStringValue(p);
        r := children.Get(GroupsAsJson(g));
        assert IsGrouping(p, g);
      } else {
        r := children.Get(map[]);
      }
    }

    /** `指标导向库.导向指标集()`: the loaded direction table grouped by direction; an
        indicator lies in the group of `d` exactly when the settings give it direction `d`. */
    method DirectionSets(fs: FileSystem) returns (groups: map<string, seq<string>>)
      requires Valid() && Coherent()
      modifies directions, settings, table
      ensures Coherent() && SettingsKey in table.entries
      ensures IsGrouping(Directions(table.entries[SettingsKey]), groups)
    {
      var d := DirectionsCso(fs);
      groups := GroupByStringValue(d);
    }

    /** `院内资料库.localUnits()` */
    method LocalUnits(fs: FileSystem) returns (ks: seq<string>)
      requires Valid() && Coherent()
      modifies internal, table
      ensures Coherent() && InternalKey in table.entries
      ensures Enumerates(ks, table.entries[InternalKey].Keys)
    {
      var c := InternalCso(fs);
      ks := KeysOf(c);
    }

    /** `对标资料库.dbDictKeys()` */
    method DbDictKeys(fs: FileSystem) returns (ks: seq<string>)
      requires Valid() && Coherent()
      modifies benchmark, table
      ensures Coherent() && BenchmarkKey in table.entries
      ensures Enumerates(ks, table.entries[BenchmarkKey].Keys)
    {
      var c := BenchmarkCso(fs);
      ks := KeysOf(c);
    }

    /** `CaseContext.loadAllData()` */
    method LoadAllData(fs: FileSystem)
      requires Valid() && Coherent()
      modifies table, settings, internal, benchmark, directions, parents, children
      ensures Coherent()
      ensures settings.isLoaded && internal.isLoaded && benchmark.isLoaded
      ensures directions.isLoaded && parents.isLoaded && children.isLoaded
    {
      var _ := SettingsCso(fs);
      var _ := InternalCso(fs);
      var _ := BenchmarkCso(fs);
      var _ := DirectionsCso(fs);
      var _ := ParentsCso(fs);
      var _ := ChildrenCso(fs);
    }

    /** `CaseContext.clearAllCache()`: every singleton emptied and its flag down, but the
        entity table is kept. */
    method ClearAllCache()
      requires Valid() && Coherent()
      modifies settings, internal, benchmark, directions, parents, children
      ensures Coherent()
      ensures !settings.isLoaded && !internal.isLoaded && !benchmark.isLoaded
      ensures !directions.isLoaded && !parents.isLoaded && !children.isLoaded
      ensures settings.cso == map[] && internal.cso == map[] && benchmark.cso == map[]
      ensures directions.cso == map[] && parents.cso == map[] && children.cso == map[]
      ensures table.entries == old(table.entries)
    {
      settings.ClearCache();
      internal.ClearCache();
      benchmark.ClearCache();
      directions.ClearCache();
      parents.ClearCache();
      children.ClearCache();
    }
  }

  /** Clearing every cache does not make the settings be read again: a reload after
      `clearAllCache()` answers the earlier value, whatever the disk now holds. */
  method ReloadAfterClear(data: CaseData, before: FileSystem, after: FileSystem) returns (first: Obj, second: Obj)
    requires data.Valid() && data.Coherent()
    modifies data.table, data.settings, data.internal, data.benchmark, data.directions, data.parents, data.children
    ensures first == second
    ensures data.Coherent()
  {
    first := data.SettingsCso(before);
    data.ClearAllCache();
    second := data.SettingsCso(after);
  }
}
