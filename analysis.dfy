/** The three shapes of lazily prepared statics compared side by side: independent structs
    (`项目设置V1` / `指标导向库V1`), structs whose `dataPrepare()` is the `数据实体`
    protocol default (`项目设置V2` / `指标导向库V2`), and a struct conforming to a
    protocol hierarchy with `reset()` (`项目设置V3`). Every `dataPrepare()` here yields
    [:]. */
module Analysis {
  import opened JsonModel
  import opened Exploration

  /** `指标导向库V1.cso`: its `dataPrepare()` reads `项目设置V1.cso` first, so its first
      access leaves both slots set; a slot nothing else has written holds [:]. */
  method DirectionsV1Cso(settings: StaticEntity, directions: StaticEntity) returns (r: Obj)
    requires settings != directions
    modifies settings, directions
    ensures r == old(directions.cso).GetOr(map[]) && directions.cso == Some(r)
    ensures old(directions.cso).None? ==> settings.cso == Some(old(settings.cso).GetOr(map[]))
    ensures old(directions.cso).Some? ==> settings.cso == old(settings.cso)
    ensures settings.loads == old(settings.loads) + (if old(directions.cso).None? && old(settings.cso).None? then 1 else 0)
  {
    r := DependentCso(settings, directions, map[], map[]);
  }

  /** `项目设置V1.cso`: computed once, then the stored value. */
  method SettingsV1Cso(settings: StaticEntity) returns (r: Obj)
    modifies settings
    ensures r == old(settings.cso).GetOr(map[]) && settings.cso == Some(r)
    ensures settings.loads == old(settings.loads) + (if old(settings.cso).None? then 1 else 0)
  {
    r := settings.Cso(map[]);
  }

  /** On fresh V1 statics: reading the directions prepares the settings, and a later read
      of the settings answers from the stored value. */
  method V1Scenario() returns (directionsCso: Obj, settingsCso: Obj, ghost settingsLoads: nat)
    ensures directionsCso == map[] && settingsCso == map[]
    ensures settingsLoads == 1
  {
    var settings := new StaticEntity("项目设置");
    var directions := new StaticEntity("指标导向库");
    directionsCso := DirectionsV1Cso(settings, directions);
    assert settings.loads == 1;
    settingsCso := SettingsV1Cso(settings);
    settingsLoads := settings.loads;
  }

  /** `项目设置V2.cso` and `指标导向库V2.cso`: neither type declares `dataPrepare()`, so
      the protocol default [:] is what a first read stores. */
  method V2Cso(entity: StaticEntity) returns (r: Obj)
    modifies entity
    ensures r == old(entity.cso).GetOr(ProtocolDefault) && entity.cso == Some(r)
  {
    r := entity.Cso(ProtocolDefault);
  }

  /** `resetAllEntities()`: one line per entity type, naming it; no `_cso` is touched. */
  method ResetAllEntities(entities: seq<StaticEntity>) returns (lines: seq<string>)
    ensures |lines| == |entities|
    ensures forall i :: 0 <= i < |entities| ==> lines[i] == "重置: " + entities[i].basename
  {
    lines := [];
    var n := 0;
    while n < |entities|
      invariant 0 <= n <= |entities| && |lines| == n
      invariant forall i :: 0 <= i < n ==> lines[i] == "重置: " + entities[i].basename
    {
      lines := lines + ["重置: " + entities[n].basename];
      n := n + 1;
    }
  }

  /** The V2 types, reset in turn: their `_cso` values are what they were before. */
  method ResetV2Entities() returns (lines: seq<string>, settingsCso: Option<Obj>, directionsCso: Option<Obj>)
    ensures lines == ["重置: 项目设置", "重置: 指标导向库"]
    ensures settingsCso == Some(map[]) && directionsCso == Some(map[])
  {
    var settings := new StaticEntity("项目设置");
    var directions := new StaticEntity("指标导向库");
    var s := V2Cso(settings);
    var d := V2Cso(directions);
    lines := ResetAllEntities([settings, directions]);
    assert "重置: " + "项目设置" == "重置: 项目设置" && "重置: " + "指标导向库" == "重置: 指标导向库";
    settingsCso := settings.cso;
    directionsCso := directions.cso;
  }

  /** `项目设置V3`: `reset()` clears `_cso`, so the next `cso` prepares it again. */
  method V3Scenario() returns (before: Option<Obj>, after: Option<Obj>, again: Obj, ghost loads: nat)
    ensures before == Some(map[]) && after == None && again == map[]
    ensures loads == 2
  {
    var settings := new StaticEntity("项目设置");
    var first := settings.Cso(map[]);
    before := settings.cso;
    settings.Reset();
    after := settings.cso;
    again := settings.Cso(map[]);
    loads := settings.loads;
  }
}
