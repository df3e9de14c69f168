/** Lazily prepared static data: a `static var _cso` read through a `static var cso` getter
    that calls `dataPrepare()` while `_cso` is nil, cleared by `reset()`; a dependent
    entity whose `dataPrepare()` reads another entity's `cso`; and the `static let` and
    uncached instance alternatives. The statics of one type are the fields of one
    `StaticEntity` object. */
module Exploration {
  import opened JsonModel

  /** What `项目设置StaticLet` and `项目设置StaticVar.dataPrepare()` produce. */
  const SettingsData: Obj := map["一级指标设置" := JObj(map["安全" := JObj(map["权重" := JDouble(0.3)])])]

  /** What `指标导向库StaticVar.dataPrepare()` produces. */
  const DirectionsData: Obj := map["指标导向" := JStr("高优")]

  /** The protocol-default `dataPrepare()` of `DataEntity` (and of `数据实体`). */
  const ProtocolDefault: Obj := map[]

  /** The statics of one type. */
  class StaticEntity {
    const basename: string
    /** `_cso` */
    var cso: Option<Obj>
    /** How many times `dataPrepare()` has run for this type. */
    ghost var loads: nat

    constructor (basename: string)
      ensures this.basename == basename && cso == None && loads == 0
    {
      this.basename := basename;
      cso := None;
      loads := 0;
    }

    /** `cso` with `prepared` as the result `dataPrepare()` would give: prepared and stored
        only while `_cso` is nil, so the stored value is answered afterwards. */
    method Cso(prepared: Obj) returns (r: Obj)
      modifies this
      ensures old(cso).Some? ==> r == old(cso).value && loads == old(loads)
      ensures old(cso).None? ==> r == prepared && loads == old(loads) + 1
      ensures cso == Some(r)
    {
      if cso == None {
        cso := Some(prepared);
        loads := loads + 1;
      }
      r := cso.value;
    }

    /** `reset()`: `_cso` is nil again. */
    method Reset()
      modifies this
      ensures cso == None && loads == old(loads)
    {
      cso := None;
    }
  }

  /** `一级指标设置`: `(cso["一级指标设置"] as? [String: [String: Any]]) ?? [:]` */
  function FirstLevelSettings(cso: Obj): (r: Obj)
    ensures "一级指标设置" !in cso ==> r == map[]
    ensures r != map[] ==> cso["一级指标设置"] == JObj(r) && AllObjects(r)
  {
    SectionAt(cso, "一级指标设置")
  }

  /** `项目设置StaticLet.cso` is the prepared settings, whose first-level section holds
      the one entry "安全". */
  lemma StaticLetSettings()
    ensures FirstLevelSettings(SettingsData) == map["安全" := JObj(map["权重" := JDouble(0.3)])]
  {
    assert AllObjects(map["安全" := JObj(map["权重" := JDouble(0.3)])]);
  }

  /** `项目设置StaticVar.一级指标设置`: the section of `cso`, loading it first if needed. */
  method StaticVarFirstLevel(settings: StaticEntity) returns (r: Obj)
    modifies settings
    ensures settings.cso.Some?
    ensures old(settings.cso).None? ==> r == FirstLevelSettings(SettingsData)
    ensures old(settings.cso).Some? ==> r == FirstLevelSettings(old(settings.cso).value)
  {
    var cso := settings.Cso(SettingsData);
    r := FirstLevelSettings(cso);
  }

  /** `cso` of an entity whose `dataPrepare()` first reads the `cso` of `settings`: on its
      first access the settings are loaded too (if they were not), afterwards neither is
      touched. */
  method DependentCso(settings: StaticEntity, directions: StaticEntity, settingsPrepared: Obj, directionsPrepared: Obj)
    returns (r: Obj)
    requires settings != directions
    modifies settings, directions
    ensures directions.cso == Some(r)
    ensures old(directions.cso).None? ==> r == directionsPrepared && settings.cso.Some?
    ensures old(directions.cso).None? && old(settings.cso).None? ==> settings.cso == Some(settingsPrepared)
    ensures old(directions.cso).None? && old(settings.cso).Some? ==> settings.cso == old(settings.cso)
    ensures old(directions.cso).Some? ==> r == old(directions.cso).value && settings.cso == old(settings.cso)
    ensures settings.loads == old(settings.loads) + (if old(directions.cso).None? && old(settings.cso).None? then 1 else 0)
  {
    if directions.cso == None {
      var dependency := settings.Cso(settingsPrepared);
      r := directions.Cso(directionsPrepared);
    } else {
      r := directions.cso.value;
    }
  }

  /** `指标导向库StaticVar.cso`: reading it leaves `项目设置StaticVar._cso` set. */
  method DirectionsStaticVarCso(settings: StaticEntity, directions: StaticEntity) returns (r: Obj)
    requires settings != directions
    modifies settings, directions
    ensures settings.cso.Some? || old(directions.cso).Some?
    ensures old(directions.cso).None? ==> r == DirectionsData && settings.cso.Some?
    ensures old(directions.cso).None? && old(settings.cso).None? ==> settings.cso == Some(SettingsData) && settings.loads == 1 + old(settings.loads)
    ensures old(directions.cso).Some? ==> r == old(directions.cso).value
    ensures directions.cso == Some(r)
  {
    r := DependentCso(settings, directions, SettingsData, DirectionsData);
  }

  /** Two reads, a reset and a third read: `dataPrepare()` runs on the first and the third
      only, and every read answers the prepared settings. */
  method ResetRecomputes() returns (first: Obj, second: Obj, third: Obj, ghost loads: nat)
    ensures first == SettingsData && second == SettingsData && third == SettingsData
    ensures loads == 2
  {
    var settings := new StaticEntity("项目设置");
    first := settings.Cso(SettingsData);
    second := settings.Cso(SettingsData);
    assert settings.loads == 1;
    settings.Reset();
    third := settings.Cso(SettingsData);
    loads := settings.loads;
  }

  /** The dependency: on fresh statics, reading the directions loads the settings once,
      and a later settings read does not prepare them again. */
  method DependencyTriggersLoad() returns (directionsCso: Obj, settingsCso: Obj, ghost settingsLoads: nat)
    ensures directionsCso == DirectionsData && settingsCso == SettingsData
    ensures settingsLoads == 1
  {
    var settings := new StaticEntity("项目设置");
    var directions := new StaticEntity("指标导向库");
    directionsCso := DirectionsStaticVarCso(settings, directions);
    settingsCso := settings.Cso(SettingsData);
    settingsLoads := settings.loads;
  }

  /** `项目设置Instance.cso`: `dataPrepare()` on every access, the protocol default. */
  function InstanceCso(): Obj {
    ProtocolDefault
  }

  /** `项目设置Instance.一级指标设置` is empty, where the static variants hold "安全". */
  lemma InstanceFirstLevelEmpty()
    ensures FirstLevelSettings(InstanceCso()) == map[]
    ensures FirstLevelSettings(SettingsData) != map[]
  {
    StaticLetSettings();
    assert "安全" in FirstLevelSettings(SettingsData);
  }
}
