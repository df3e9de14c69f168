/** The capability-protocol translation of the case singletons: value types composed from
    `CacheCapable` (a `cachedData` slot), `YearCapable`, `UnitCapable`, `AliasCapable`
    and `IndicatorCapable` default implementations. Their `requestJSON()` always answers
    nil, so `cso` is whatever was put in `cachedData`. */
module FullTranslation {
  import opened JsonModel
  import opened Text
  import opened Tables
  import Indicators

  // ---------------------------------------------------------------------------
  // AliasCapable.readableName
  // ---------------------------------------------------------------------------

  /** `unitName.split(separator: "_").reversed().joined()` */
  function ReadableName(unitName: string): string {
    Concat(Reverse(Split(unitName, '_')))
  }

  lemma {:induction false} ConcatFree(ss: seq<string>, c: char)
    requires forall i :: 0 <= i < |ss| ==> c !in ss[i]
    ensures c !in Concat(ss)
    decreases |ss|
  {
    if ss != [] {
      ConcatFree(ss[1..], c);
    }
  }

  /** The readable name never holds the separator. */
  lemma ReadableNameHasNoSeparator(unitName: string)
    ensures '_' !in ReadableName(unitName)
  {
    var pieces := Reverse(Split(unitName, '_'));
    ConcatFree(pieces, '_');
  }

  /** A name without "_" reads as itself. */
  lemma ReadableNameOfPlain(unitName: string)
    requires '_' !in unitName
    ensures ReadableName(unitName) == unitName
  {
    SplitNoSeparator(unitName, '_');
    if unitName != [] {
      assert Reverse([unitName]) == [unitName];
      assert Concat([unitName]) == unitName + Concat([]);
    }
  }

  /** The parts on either side of a "_" swap places: "内科_医院" reads "医院内科". */
  lemma ReadableNameSwaps(a: string, b: string)
    ensures ReadableName(a + "_" + b) == ReadableName(b) + ReadableName(a)
  {
    SplitAtSeparator(a, '_', b);
    ReverseAppend(Split(a, '_'), Split(b, '_'));
    ConcatAppend(Reverse(Split(b, '_')), Reverse(Split(a, '_')));
  }

  /** Reading a readable name again changes nothing. */
  lemma ReadableNameIdempotent(unitName: string)
    ensures ReadableName(ReadableName(unitName)) == ReadableName(unitName)
  {
    ReadableNameHasNoSeparator(unitName);
    ReadableNameOfPlain(ReadableName(unitName));
  }

  lemma ReadableNameExample()
    ensures ReadableName("内科_医院") == "医院内科"
  {
    var dept, unit := "内科", "医院";
    ExampleNameParts();
    ReadableNameSwaps(dept, unit);
    ReadableNameOfPlain(dept);
    ReadableNameOfPlain(unit);
  }

  lemma ExampleNameParts()
    ensures "内科_医院" == "内科" + "_" + "医院"
    ensures "医院内科" == "医院" + "内科"
    ensures '_' !in "内科" && '_' !in "医院"
  {
  }

  // ---------------------------------------------------------------------------
  // The constant defaults of the capabilities
  // ---------------------------------------------------------------------------

  /** `YearCapable.years()` */
  const DefaultYears: seq<string> := ["Y2021", "Y2020", "Y2019"]

  /** The default years are the case-layer years of 2021. */
  lemma DefaultYearsAreThoseOf2021()
    ensures DefaultYears == Indicators.CaseYears(2021)
  {
    YearLabel(2, 0, 2, 1);
    YearLabel(2, 0, 2, 0);
    YearLabel(2, 0, 1, 9);
    assert [DigitChar(2), DigitChar(0), DigitChar(2), DigitChar(1)] == "2021";
    assert [DigitChar(2), DigitChar(0), DigitChar(2), DigitChar(0)] == "2020";
    assert [DigitChar(2), DigitChar(0), DigitChar(1), DigitChar(9)] == "2019";
    assert "Y" + "2021" == "Y2021" && "Y" + "2020" == "Y2020" && "Y" + "2019" == "Y2019";
  }

  /** A four-digit year renders as its four digits. */
  lemma YearLabel(a: nat, b: nat, c: nat, d: nat)
    requires 1 <= a < 10 && b < 10 && c < 10 && d < 10
    ensures IntToString(1000 * a + 100 * b + 10 * c + d) == [DigitChar(a), DigitChar(b), DigitChar(c), DigitChar(d)]
  {
    var n := 1000 * a + 100 * b + 10 * c + d;
    assert n / 10 == 100 * a + 10 * b + c && n % 10 == d;
    assert (100 * a + 10 * b + c) / 10 == 10 * a + b && (100 * a + 10 * b + c) % 10 == c;
    assert (10 * a + b) / 10 == a && (10 * a + b) % 10 == b;
    assert NatToString(10 * a + b) == [DigitChar(a), DigitChar(b)];
    assert NatToString(100 * a + 10 * b + c) == [DigitChar(a), DigitChar(b), DigitChar(c)];
  }

  /** `UnitCapable.localUnits()` and `focusUnits()` */
  const DefaultLocalUnits: seq<string> := ["医院", "总体估值"]
  const DefaultFocusUnits: seq<string> := ["医院", "总体估值", "均1", "均2"]

  /** The focus units extend the local units. */
  lemma FocusUnitsExtendLocalUnits()
    ensures DefaultFocusUnits[..|DefaultLocalUnits|] == DefaultLocalUnits
    ensures Distinct(DefaultFocusUnits)
  {
    assert |DefaultFocusUnits[0]| == 2 && |DefaultFocusUnits[1]| == 4;
    assert |DefaultFocusUnits[2]| == 2 && |DefaultFocusUnits[3]| == 2;
    assert DefaultFocusUnits[0][0] != DefaultFocusUnits[2][0] && DefaultFocusUnits[0][0] != DefaultFocusUnits[3][0];
    assert DefaultFocusUnits[2][1] != DefaultFocusUnits[3][1];
  }

  /** `IndicatorCapable.二级指标表(full:)`: the full second-level names, or their short forms. */
  function SecondLevelTable(full: bool): (r: seq<string>)
    ensures |r| == 3 && Distinct(r)
  {
    if full then ["质量安全", "功能定位", "合理用药"] else ["安全", "功能", "用药"]
  }

  /** Each short form ends or starts the full name in the same place. */
  lemma ShortFormsAbbreviate(i: int)
    requires 0 <= i < 3
    ensures EndsWith(SecondLevelTable(true)[i], SecondLevelTable(false)[i])
            || StartsWith(SecondLevelTable(true)[i], SecondLevelTable(false)[i])
  {
    var f := SecondLevelTable(true)[i];
    var a := SecondLevelTable(false)[i];
    if i == 1 {
      assert f[..|a|] == a;
    } else {
      assert f[|f| - |a|..] == a;
    }
  }

  // ---------------------------------------------------------------------------
  // 项目设置V4Full and its siblings
  // ---------------------------------------------------------------------------

  /** `(cso?["项目信息"] as? [String: Any])` */
  function ProjectInfo(cso: Option<Obj>): Option<Obj> {
    if cso.Some? then ObjAt(cso.value, "项目信息") else None
  }

  class CachedStruct {
    /** `basename`, fixed per type ("项目设置", "指标导向库", "MistakeChasingLog", ...) */
    const basename: string
    var cachedData: Option<Obj>

    constructor (basename: string)
      ensures this.basename == basename && cachedData == None
    {
      this.basename := basename;
      cachedData := None;
    }

    /** `cso`: `cachedData ?? requestJSON()`, and `requestJSON()` is nil. */
    function Cso(): (r: Option<Obj>)
      reads this
      ensures r.Some? <==> cachedData.Some?
      ensures r.Some? ==> r == cachedData
    {
      if cachedData.Some? then cachedData else None
    }

    /** `clearCache()` (and `errorChasingDBClear()`): `cso` is nil again. */
    method ClearCache()
      modifies this
      ensures cachedData == None && Cso() == None
    {
      cachedData := None;
    }

    /** The settings accessors (`一级指标设置`, ..., `科室设置`): the nested section of `cso`,
        empty when `cso` is nil or the entry has the wrong shape. */
    function Section(key: string): (r: Obj)
      reads this
      ensures Cso().None? ==> r == map[]
      ensures Cso().Some? ==> r == SectionAt(Cso().value, key)
    {
      SectionAt(Cso().GetOr(map[]), key)
    }

    /** `isHospital`: the "isHospital" flag of 项目信息, true by default. */
    function IsHospital(): (r: bool)
      reads this
      ensures ProjectInfo(Cso()).None? ==> r
      ensures ProjectInfo(Cso()).Some? ==> r == BoolAt(ProjectInfo(Cso()).value, "isHospital").GetOr(true)
    {
      match ProjectInfo(Cso())
      case None => true
      case Some(info) => BoolAt(info, "isHospital").GetOr(true)
    }

    /** `customerName`: the "customerName" of 项目信息, "" by default. */
    function CustomerName(): (r: string)
      reads this
      ensures ProjectInfo(Cso()).None? ==> r == ""
      ensures ProjectInfo(Cso()).Some? ==> r == StrAt(ProjectInfo(Cso()).value, "customerName").GetOr("")
    {
      match ProjectInfo(Cso())
      case None => ""
      case Some(info) => StrAt(info, "customerName").GetOr("")
    }

    /** `finalYear`: the "finalYear" of 项目信息, 2021 by default. */
    function FinalYear(): (r: int)
      reads this
      ensures ProjectInfo(Cso()).None? ==> r == 2021
      ensures ProjectInfo(Cso()).Some? ==> r == IntAt(ProjectInfo(Cso()).value, "finalYear").GetOr(2021)
    {
      match ProjectInfo(Cso())
      case None => 2021
      case Some(info) => IntAt(info, "finalYear").GetOr(2021)
    }

    /** `指标导向库V4Full.导向指标集()`: nothing without `cso`; otherwise the indicators
        grouped under their String direction, the other entries skipped. */
    method DirectionSets() returns (groups: map<string, seq<string>>)
      ensures Cso().None? ==> groups == map[]
      ensures Cso().Some? ==> IsGrouping(Cso().value, groups)
    {
      var data := Cso();
      if data.None? {
        return map[];
      }
      groups := GroupByStringValue(data.value);
    }
  }

  /** A fresh or cleared instance answers every 项目信息 question with its default. */
  lemma ClearedDefaults(s: CachedStruct)
    requires s.cachedData == None
    ensures s.IsHospital() && s.CustomerName() == "" && s.FinalYear() == 2021
    ensures s.Section("一级指标设置") == map[]
  {
  }

  /** Without the "项目信息" entry the defaults hold even with data cached. */
  lemma MissingInfoDefaults(s: CachedStruct)
    requires s.cachedData.Some? && "项目信息" !in s.cachedData.value
    ensures s.IsHospital() && s.CustomerName() == "" && s.FinalYear() == 2021
  {
  }
}
