/** More capability-composed entities: the three-level indicator hierarchy, the project
    data sheets, and the V4Full slide sections, each of which appends one descriptor. */
module MoreEntities {
  import opened JsonModel
  import opened Text
  import Indicators

  // ---------------------------------------------------------------------------
  // 一二三级指标体系V4: hierarchy queries over `cso`
  // ---------------------------------------------------------------------------

  /** `一级指标()`: the top-level keys of `cso`, none when `cso` is nil. */
  method FirstLevel(cso: Option<Obj>) returns (names: seq<string>)
    ensures cso.None? ==> names == []
    ensures cso.Some? ==> Enumerates(names, cso.value.Keys)
  {
    if cso.None? {
      return [];
    }
    names := KeysOf(cso.value);
  }

  /** `二级指标(一级:)`: the keys of `cso[一级]`, none unless it is a dictionary. */
  method SecondLevel(cso: Option<Obj>, level1: string) returns (names: seq<string>)
    ensures cso.Some? && ObjAt(cso.value, level1).Some? ==> Enumerates(names, ObjAt(cso.value, level1).value.Keys)
    ensures !(cso.Some? && ObjAt(cso.value, level1).Some?) ==> names == []
  {
    if cso.None? || ObjAt(cso.value, level1).None? {
      return [];
    }
    names := KeysOf(ObjAt(cso.value, level1).value);
  }

  /** `三级指标(一级:二级:)`: the `[String]` stored at `cso[一级][二级]`, none on any shape
      mismatch (a missing level, a non-array, an item that is not a String). */
  function ThirdLevel(cso: Option<Obj>, level1: string, level2: string): (r: seq<string>)
  {
    if cso.None? || ObjAt(cso.value, level1).None? then []
    else
      var l1 := ObjAt(cso.value, level1).value;
      if level2 in l1 && l1[level2].JArr? && Indicators.AsNames(l1[level2].items).Some?
      then Indicators.AsNames(l1[level2].items).value
      else []
  }

  /** A hierarchy holding the list `names` under `一级` / `二级` answers with that list. */
  lemma ThirdLevelReadsBack(cso: Obj, level1: string, level2: string, l1: Obj, names: seq<string>)
    requires level1 in cso && cso[level1] == JObj(l1)
    requires level2 in l1 && l1[level2] == JArr(Indicators.NameArray(names))
    ensures ThirdLevel(Some(cso), level1, level2) == names
  {
    Indicators.NameArrayRoundTrip(names);
  }

  /** A second level that is not a list of Strings yields no third-level names. */
  lemma ThirdLevelShapeMismatch(cso: Obj, level1: string, level2: string, l1: Obj)
    requires level1 in cso && cso[level1] == JObj(l1)
    requires level2 in l1 && !l1[level2].JArr?
    ensures ThirdLevel(Some(cso), level1, level2) == []
  {
  }

  // ---------------------------------------------------------------------------
  // 项目内外资料表V4.generateExcelData
  // ---------------------------------------------------------------------------

  /** One column of a sheet: its label and the key it reads. */
  function Column(name: string): Json {
    JObj(map["label" := JStr(name), "value" := JStr(name)])
  }

  /** `generateExcelData()`: the single sheet "医院" with the columns 数据名 and 计量单位,
      and no content yet. */
  function ExcelSheets(): (r: seq<Obj>)
    ensures |r| == 1
    ensures "sheet" in r[0] && r[0]["sheet"] == JStr("医院")
    ensures "columns" in r[0] && r[0]["columns"].JArr? && |r[0]["columns"].items| == 2
    ensures "content" in r[0] && r[0]["content"] == JArr([])
  {
    [map["sheet" := JStr("医院"),
         "columns" := JArr([Column("数据名"), Column("计量单位")]),
         "content" := JArr([])]]
  }

  // ---------------------------------------------------------------------------
  // The V4Full sections
  // ---------------------------------------------------------------------------

  /** The section types: `章节扉页V4Full`, `分节文本页面V4Full`, `排序报告V4Full`,
      `原值排序报告V4Full` / `内部原值排序报告V4Full` (by `showValue`), `雷达图报告V4Full`
      and `多科雷达图报告V4Full`. */
  datatype SectionKind = CoverPage | SectionedText | Ranking | RawRanking(showValue: bool) | Radar | MultiRadar

  /** `原值排序报告V4Full` shows its values; `内部原值排序报告V4Full` does not. */
  const RawValueRanking: SectionKind := RawRanking(true)
  const InternalRawValueRanking: SectionKind := RawRanking(false)

  predicate IsChart(kind: SectionKind) {
    kind != CoverPage && kind != SectionedText
  }

  /** The chart type of a chart section. */
  function ChartType(kind: SectionKind): string
    requires IsChart(kind)
  {
    if kind.Radar? || kind.MultiRadar? then "radar" else "bar"
  }

  /** The one descriptor `slides(pres:sectionTitle:)` appends. */
  function SectionSlide(kind: SectionKind, title: string): (r: Obj)
    ensures "type" in r && "title" in r && r["title"] == JStr(title)
    ensures r["type"] == JStr(if kind == CoverPage then "section" else if kind == SectionedText then "text" else "chart")
    ensures IsChart(kind) <==> "chartType" in r
    ensures IsChart(kind) ==> r["chartType"] == JStr(ChartType(kind))
    ensures "showValue" in r <==> kind.RawRanking?
    ensures kind.RawRanking? ==> r["showValue"] == JBool(kind.showValue)
  {
    match kind
    case CoverPage => map["type" := JStr("section"), "title" := JStr(title)]
    case SectionedText => map["type" := JStr("text"), "title" := JStr(title), "content" := JStr("文本内容")]
    case Ranking => map["type" := JStr("chart"), "title" := JStr(title), "chartType" := JStr("bar")]
    case RawRanking(show) =>
      map["type" := JStr("chart"), "title" := JStr(title), "chartType" := JStr("bar"), "showValue" := JBool(show)]
    case Radar => map["type" := JStr("chart"), "title" := JStr(title), "chartType" := JStr("radar")]
    case MultiRadar =>
      map["type" := JStr("chart"), "title" := JStr(title), "chartType" := JStr("radar"), "multiDept" := JBool(true)]
  }

  /** `generateChartData()` of a chart section. */
  function ChartData(kind: SectionKind): (r: Obj)
    requires IsChart(kind)
    ensures "type" in r
  {
    match kind
    case RawRanking(show) => map["type" := JStr("bar"), "showValue" := JBool(show)]
    case MultiRadar => map["type" := JStr("radar"), "multiDept" := JBool(true)]
    case Ranking => map["type" := JStr("bar")]
    case Radar => map["type" := JStr("radar")]
  }

  /** A chart section's chart data and its slide agree on the chart type and on
      `showValue`, and the two raw-value rankings differ only in `showValue`. */
  lemma ChartDataMatchesSlide(kind: SectionKind, title: string)
    requires IsChart(kind)
    ensures ChartData(kind)["type"] == SectionSlide(kind, title)["chartType"]
    ensures ("showValue" in ChartData(kind)) <==> ("showValue" in SectionSlide(kind, title))
    ensures "showValue" in ChartData(kind) ==> ChartData(kind)["showValue"] == SectionSlide(kind, title)["showValue"]
    ensures SectionSlide(RawValueRanking, title)["showValue"] == JBool(true)
    ensures SectionSlide(InternalRawValueRanking, title)["showValue"] == JBool(false)
    ensures SectionSlide(RawValueRanking, title) - {"showValue"} == SectionSlide(InternalRawValueRanking, title) - {"showValue"}
  {
  }

  /** `slides(pres:sectionTitle:)` of one V4Full section: one descriptor appended. */
  method Slides(pres: seq<Obj>, kind: SectionKind, sectionTitle: string) returns (out: seq<Obj>)
    ensures out == pres + [SectionSlide(kind, sectionTitle)]
  {
    out := pres + [SectionSlide(kind, sectionTitle)];
  }

  /** The sections run in turn on the same `pres`: one descriptor per section, in order,
      after the slides already there (five sections make five slides). */
  method AllSlides(pres: seq<Obj>, sections: seq<(SectionKind, string)>) returns (out: seq<Obj>)
    ensures |out| == |pres| + |sections|
    ensures out[..|pres|] == pres
    ensures forall i :: 0 <= i < |sections| ==> out[|pres| + i] == SectionSlide(sections[i].0, sections[i].1)
  {
    out := pres;
    var n := 0;
    while n < |sections|
      invariant 0 <= n <= |sections|
      invariant |out| == |pres| + n
      invariant out[..|pres|] == pres
      invariant forall i :: 0 <= i < n ==> out[|pres| + i] == SectionSlide(sections[i].0, sections[i].1)
    {
      out := Slides(out, sections[n].0, sections[n].1);
      n := n + 1;
    }
  }

  // ---------------------------------------------------------------------------
  // 多科雷达图报告V4Full: names compared without noise
  // ---------------------------------------------------------------------------

  /** `compareIndicators(_:_:)`: both names with the noise characters removed. */
  function CompareIndicators(ind1: string, ind2: string): (r: Obj)
    ensures "indicator1" in r && r["indicator1"] == JStr(Clean(ind1))
    ensures "indicator2" in r && r["indicator2"] == JStr(Clean(ind2))
  {
    map["indicator1" := JStr(Clean(ind1)), "indicator2" := JStr(Clean(ind2))]
  }

  /** Comparing cleaned names gives the same result as comparing the raw ones. */
  lemma CompareIndicatorsIgnoresNoise(ind1: string, ind2: string)
    ensures CompareIndicators(Clean(ind1), Clean(ind2)) == CompareIndicators(ind1, ind2)
  {
    CleanIdempotent(ind1);
    CleanIdempotent(ind2);
  }
}
