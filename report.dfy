/** The report generator of the hospital case: typed slide descriptions (`SlideData`,
    `ChartData`, `TableData`) turned into the dictionaries the presentation writer reads,
    a title slide in front. */
module Report {
  import opened JsonModel
  import opened Text
  import opened Indicators
  import Pages

  datatype ChartType = Bar | Line | Pie | Radar | Scatter

  /** `ChartType.rawValue` */
  function RawValue(t: ChartType): string {
    match t
    case Bar => "bar"
    case Line => "line"
    case Pie => "pie"
    case Radar => "radar"
    case Scatter => "scatter"
  }

  /** `ChartType(rawValue:)` */
  function ChartTypeOf(raw: string): (r: Option<ChartType>)
    ensures r.Some? ==> RawValue(r.value) == raw
  {
    if raw == "bar" then Some(Bar)
    else if raw == "line" then Some(Line)
    else if raw == "pie" then Some(Pie)
    else if raw == "radar" then Some(Radar)
    else if raw == "scatter" then Some(Scatter)
    else None
  }

  /** Every chart type is read back from its raw value, so no two share one. */
  lemma RawValueRoundTrip(t: ChartType)
    ensures ChartTypeOf(RawValue(t)) == Some(t)
  {
    match t
    case Bar =>
    case Line => assert "line" != "bar";
    case Pie => assert "pie" != "bar" && "pie" != "line";
    case Radar => assert "radar" != "bar" && "radar" != "line" && "radar" != "pie";
    case Scatter => assert "scatter" != "bar" && "scatter" != "line" && "scatter" != "pie" && "scatter" != "radar";
  }

  datatype ChartSeries = ChartSeries(name: string, labels: seq<string>, values: seq<real>)
  datatype ChartData = ChartData(kind: ChartType, title: string, series: seq<ChartSeries>, options: Option<Obj>)
  datatype TableData = TableData(headers: seq<string>, rows: seq<seq<string>>, options: Option<Obj>)
  datatype SlideData = SlideData(title: string, content: Option<string>, chart: Option<ChartData>, table: Option<TableData>)
  datatype ReportSection = ReportSection(title: string, slides: seq<SlideData>)

  // ------------------------------------------------------------------- encoding

  function RealArray(values: seq<real>): (r: seq<Json>)
    ensures |r| == |values|
    ensures forall i :: 0 <= i < |values| ==> r[i] == JDouble(values[i])
  {
    if values == [] then [] else [JDouble(values[0])] + RealArray(values[1..])
  }

  function SeriesJson(s: ChartSeries): Json {
    JObj(map["name" := JStr(s.name), "labels" := JArr(NameArray(s.labels)), "values" := JArr(RealArray(s.values))])
  }

  function SeriesList(series: seq<ChartSeries>): seq<Json> {
    if series == [] then [] else [SeriesJson(series[0])] + SeriesList(series[1..])
  }

  /** The chart entry: its raw type, its title and its series; the options are dropped. */
  function ChartJson(c: ChartData): Json {
    JObj(map["type" := JStr(RawValue(c.kind)), "title" := JStr(c.title), "series" := JArr(SeriesList(c.series))])
  }

  function RowList(rows: seq<seq<string>>): seq<Json> {
    if rows == [] then [] else [JArr(NameArray(rows[0]))] + RowList(rows[1..])
  }

  /** The table entry: headers and rows; the options are dropped. */
  function TableJson(t: TableData): Json {
    JObj(map["headers" := JArr(NameArray(t.headers)), "rows" := JArr(RowList(t.rows))])
  }

  /** One slide dictionary: always a "title", and "content", "chart" and "table" exactly
      when the slide has them. */
  function SlideJson(s: SlideData): (r: Obj)
    ensures "title" in r && r["title"] == JStr(s.title)
    ensures "content" in r <==> s.content.Some?
    ensures "chart" in r <==> s.chart.Some?
    ensures "table" in r <==> s.table.Some?
    ensures r.Keys <= {"title", "content", "chart", "table"}
  {
    var data := map["title" := JStr(s.title)];
    var data := if s.content.Some? then data["content" := JStr(s.content.value)] else data;
    var data := if s.chart.Some? then data["chart" := ChartJson(s.chart.value)] else data;
    if s.table.Some? then data["table" := TableJson(s.table.value)] else data
  }

  /** `ReportSection.toSlideData()`: one dictionary per slide, in order. */
  function ToSlideData(section: ReportSection): (r: seq<Obj>)
    ensures |r| == |section.slides|
    ensures forall i :: 0 <= i < |r| ==> "title" in r[i] && r[i]["title"] == JStr(section.slides[i].title)
  {
    seq(|section.slides|, i requires 0 <= i < |section.slides| => SlideJson(section.slides[i]))
  }

  // ------------------------------------------------------------------- decoding

  function AsReals(items: seq<Json>): Option<seq<real>> {
    if items == [] then Some([])
    else if !items[0].JDouble? then None
    else
      var rest := AsReals(items[1..]);
      if rest.None? then None else Some([items[0].d] + rest.value)
  }

  lemma {:induction false} RealArrayRoundTrip(values: seq<real>)
    ensures AsReals(RealArray(values)) == Some(values)
    decreases |values|
  {
    if values != [] {
      var items := RealArray(values);
      RealArrayRoundTrip(values[1..]);
      assert items[0] == JDouble(values[0]);
      assert items[1..] == RealArray(values[1..]);
      assert values == [values[0]] + values[1..];
    }
  }

  function StringsOf(v: Json): Option<seq<string>> {
    if v.JArr? then AsNames(v.items) else None
  }

  function DecodeSeries(v: Json): Option<ChartSeries> {
    if !v.JObj? then None
    else
      var m := v.fields;
      if !("name" in m && m["name"].JStr? && "labels" in m && "values" in m && m["values"].JArr?) then None
      else
        var labels := StringsOf(m["labels"]);
        var values := AsReals(m["values"].items);
        if labels.None? || values.None? then None
        else Some(ChartSeries(m["name"].s, labels.value, values.value))
  }

  function DecodeSeriesList(items: seq<Json>): Option<seq<ChartSeries>> {
    if items == [] then Some([])
    else
      var head := DecodeSeries(items[0]);
      var rest := DecodeSeriesList(items[1..]);
      if head.None? || rest.None? then None else Some([head.value] + rest.value)
  }

  lemma {:induction false} SeriesListRoundTrip(series: seq<ChartSeries>)
    ensures DecodeSeriesList(SeriesList(series)) == Some(series)
    decreases |series|
  {
    if series != [] {
      var items := SeriesList(series);
      SeriesListRoundTrip(series[1..]);
      SeriesRoundTrip(series[0]);
      assert items == [SeriesJson(series[0])] + SeriesList(series[1..]);
      assert items[1..] == SeriesList(series[1..]);
      assert series == [series[0]] + series[1..];
    }
  }

  /** One series reads back whole. */
  lemma SeriesRoundTrip(s: ChartSeries)
    ensures DecodeSeries(SeriesJson(s)) == Some(s)
  {
    NameArrayRoundTrip(s.labels);
    RealArrayRoundTrip(s.values);
  }

  function DecodeRows(items: seq<Json>): Option<seq<seq<string>>> {
    if items == [] then Some([])
    else
      var head := StringsOf(items[0]);
      var rest := DecodeRows(items[1..]);
      if head.None? || rest.None? then None else Some([head.value] + rest.value)
  }

  lemma {:induction false} RowListRoundTrip(rows: seq<seq<string>>)
    ensures DecodeRows(RowList(rows)) == Some(rows)
    decreases |rows|
  {
    if rows != [] {
      var items := RowList(rows);
      RowListRoundTrip(rows[1..]);
      NameArrayRoundTrip(rows[0]);
      assert items == [JArr(NameArray(rows[0]))] + RowList(rows[1..]);
      assert items[1..] == RowList(rows[1..]);
      assert rows == [rows[0]] + rows[1..];
    }
  }

  function DecodeChart(v: Json): Option<ChartData> {
    if !v.JObj? then None
    else
      var m := v.fields;
      if !("type" in m && m["type"].JStr? && "title" in m && m["title"].JStr? && "series" in m && m["series"].JArr?) then None
      else
        var kind := ChartTypeOf(m["type"].s);
        var series := DecodeSeriesList(m["series"].items);
        if kind.None? || series.None? then None
        else Some(ChartData(kind.value, m["title"].s, series.value, None))
  }

  function DecodeTable(v: Json): Option<TableData> {
    if !v.JObj? then None
    else
      var m := v.fields;
      if !("headers" in m && "rows" in m && m["rows"].JArr?) then None
      else
        var headers := StringsOf(m["headers"]);
        var rows := DecodeRows(m["rows"].items);
        if headers.None? || rows.None? then None
        else Some(TableData(headers.value, rows.value, None))
  }

  /** Reads a slide dictionary back; a present entry that does not decode fails. */
  function DecodeSlide(d: Obj): Option<SlideData> {
    if !("title" in d && d["title"].JStr?) then None
    else if "content" in d && !d["content"].JStr? then None
    else
      var chart := if "chart" in d then DecodeChart(d["chart"]) else None;
      var table := if "table" in d then DecodeTable(d["table"]) else None;
      if ("chart" in d && chart.None?) || ("table" in d && table.None?) then None
      else Some(SlideData(d["title"].s, if "content" in d then Some(d["content"].s) else None, chart, table))
  }

  /** The slide as the writer sees it: chart and table options removed. */
  function WithoutOptions(s: SlideData): SlideData {
    s.(chart := if s.chart.Some? then Some(s.chart.value.(options := None)) else None,
       table := if s.table.Some? then Some(s.table.value.(options := None)) else None)
  }

  /** Reading a slide dictionary gives back the slide, its series and rows in order and
      whole, and only the chart and table options lost. */
  lemma SlideRoundTrip(s: SlideData)
    ensures DecodeSlide(SlideJson(s)) == Some(WithoutOptions(s))
  {
    var d := SlideJson(s);
    if s.chart.Some? {
      ChartRoundTrip(s.chart.value);
      assert d["chart"] == ChartJson(s.chart.value);
    }
    if s.table.Some? {
      TableRoundTrip(s.table.value);
      assert d["table"] == TableJson(s.table.value);
    }
  }

  /** A chart reads back whole, without its options. */
  lemma ChartRoundTrip(c: ChartData)
    ensures DecodeChart(ChartJson(c)) == Some(c.(options := None))
  {
    SeriesListRoundTrip(c.series);
    RawValueRoundTrip(c.kind);
  }

  /** A table reads back whole, without its options. */
  lemma TableRoundTrip(t: TableData)
    ensures DecodeTable(TableJson(t)) == Some(t.(options := None))
  {
    RowListRoundTrip(t.rows);
    NameArrayRoundTrip(t.headers);
  }

  /** Two slides give the same dictionary only when they differ at most in their options. */
  lemma SlideJsonInjective(s: SlideData, t: SlideData)
    requires SlideJson(s) == SlideJson(t)
    ensures WithoutOptions(s) == WithoutOptions(t)
  {
    SlideRoundTrip(s);
    SlideRoundTrip(t);
  }

  // ---------------------------------------------------------------------- years

  /** `year_1`, `year_2` and `year_3`: "Y" and the final year, then the two years before. */
  function ReportYears(finalYear: int): seq<string> {
    ["Y" + IntToString(finalYear), "Y" + IntToString(finalYear - 1), "Y" + IntToString(finalYear - 2)]
  }

  /** The report's year labels are the case layer's years: distinct, and the `i`-th reads
      back as the final year minus `i`. */
  lemma ReportYearsReadBack(finalYear: int, i: int)
    requires 0 <= i < 3
    ensures ReportYears(finalYear) == CaseYears(finalYear) && Distinct(ReportYears(finalYear))
    ensures ParseInt(ReportYears(finalYear)[i][1..]) == finalYear - i
  {
    CaseYearsReadBack(finalYear, i);
  }

  // --------------------------------------------------------------------- report

  /** The title slide: "<customer>运营分析报告" and "<final year>年度数据分析". */
  function TitleSlide(customer: string, finalYear: int): Obj {
    map["title" := JStr(customer + "运营分析报告"), "content" := JStr(IntToString(finalYear) + "年度数据分析")]
  }

  /** The slides of all sections, in order. */
  function SectionSlides(sections: seq<ReportSection>): seq<Obj> {
    if sections == [] then []
    else SectionSlides(sections[..|sections| - 1]) + ToSlideData(sections[|sections| - 1])
  }

  /** The number of slides the sections hold. */
  function SlideCount(sections: seq<ReportSection>): nat {
    if sections == [] then 0 else |sections[0].slides| + SlideCount(sections[1..])
  }

  lemma {:induction false} SlideCountAppend(a: seq<ReportSection>, b: seq<ReportSection>)
    ensures SlideCount(a + b) == SlideCount(a) + SlideCount(b)
    decreases |a|
  {
    if a != [] {
      assert (a + b)[1..] == a[1..] + b;
      SlideCountAppend(a[1..], b);
    } else {
      assert a + b == b;
    }
  }

  /** One more section: its slides follow those of the sections before it. */
  lemma SectionStep(sections: seq<ReportSection>, i: nat)
    requires i < |sections|
    ensures SectionSlides(sections[..i + 1]) == SectionSlides(sections[..i]) + ToSlideData(sections[i])
  {
    assert sections[..i + 1] == sections[..i] + [sections[i]];
    assert sections[..i + 1][..i] == sections[..i];
  }

  /** The sections' slides are as many as `SlideCount` says. */
  lemma {:induction false} SectionSlidesCount(sections: seq<ReportSection>)
    ensures |SectionSlides(sections)| == SlideCount(sections)
    decreases |sections|
  {
    if sections != [] {
      var n := |sections| - 1;
      SectionSlidesCount(sections[..n]);
      assert sections == sections[..n] + [sections[n]];
      SlideCountAppend(sections[..n], [sections[n]]);
      assert SlideCount([sections[n]]) == |sections[n].slides|;
    }
  }

  /** `generateReport`: the title slide, then every section's slides in order; the count is
      one plus the sections' slides. Writing the file is not part of the model. */
  method GenerateReport(customer: string, finalYear: int, sections: seq<ReportSection>) returns (slides: seq<Obj>)
    ensures |slides| == 1 + SlideCount(sections)
    ensures slides == [TitleSlide(customer, finalYear)] + SectionSlides(sections)
  {
    var body: seq<Obj> := [];
    var i := 0;
    while i < |sections|
      invariant 0 <= i <= |sections|
      invariant body == SectionSlides(sections[..i])
    {
      SectionStep(sections, i);
      body := body + ToSlideData(sections[i]);
      i := i + 1;
    }
    assert sections[..i] == sections;
    SectionSlidesCount(sections);
    slides := [TitleSlide(customer, finalYear)] + body;
  }

  // ------------------------------------------------------------- hospital report

  const QualityLabels: seq<string> := ["质量安全", "功能定位", "合理用药", "服务流程", "医保价值"]

  /** `医疗质量雷达图数据()`: the final year and the one before on five quality axes. */
  function QualityRadar(finalYear: int): (r: ChartData)
    ensures r.kind == Radar && |r.series| == 2
    ensures forall i :: 0 <= i < 2 ==> r.series[i].labels == QualityLabels && |r.series[i].values| == 5
  {
    ChartData(Radar, "医疗质量指标雷达图", [
      ChartSeries(IntToString(finalYear) + "年", QualityLabels, [85.0, 78.0, 92.0, 88.0, 75.0]),
      ChartSeries(IntToString(finalYear - 1) + "年", QualityLabels, [80.0, 75.0, 88.0, 82.0, 70.0])], None)
  }

  /** `(最终年份 - 4...最终年份).map { String($0) }` */
  function BarYears(finalYear: int): (r: seq<string>)
    ensures |r| == 5
  {
    seq(5, i requires 0 <= i < 5 => IntToString(finalYear - 4 + i))
  }

  /** The bar-chart labels are the five consecutive years ending at the final year. */
  lemma BarYearsAreConsecutive(finalYear: int)
    ensures forall i, y :: 0 <= i < 5 && BarYears(finalYear)[i] == IntToString(y) ==> y == finalYear - 4 + i
    ensures Distinct(BarYears(finalYear))
  {
    forall i, y | 0 <= i < 5 && BarYears(finalYear)[i] == IntToString(y) ensures y == finalYear - 4 + i {
      IntToStringInjective(y, finalYear - 4 + i);
    }
  }

  /** `运营效率柱状图数据()`: three series over the five years, options `barDir: col`. */
  function EfficiencyBars(finalYear: int): (r: ChartData)
    ensures r.kind == Bar && |r.series| == 3
    ensures forall i :: 0 <= i < 3 ==> r.series[i].labels == BarYears(finalYear) && |r.series[i].values| == 5
  {
    var years := BarYears(finalYear);
    ChartData(Bar, "运营效率年度对比", [
      ChartSeries("收支结构", years, [72.0, 75.0, 78.0, 82.0, 85.0]),
      ChartSeries("费用控制", years, [68.0, 70.0, 73.0, 78.0, 82.0]),
      ChartSeries("资源效率", years, [65.0, 68.0, 72.0, 76.0, 80.0])],
      Some(map["barDir" := JStr("col")]))
  }

  /** `科室排名表数据()`: six headers and five rows of six cells. */
  function UnitRanking(): (r: TableData)
    ensures |r.headers| == 6 && |r.rows| == 5
    ensures forall i :: 0 <= i < 5 ==> |r.rows[i]| == |r.headers|
  {
    TableData(["科室名称", "排名1", "排名2", "排名3", "排名4", "排名5"], [
      ["内科一病区", "92.5", "88.3", "85.6", "82.1", "78.9"],
      ["外科一病区", "90.2", "86.7", "84.2", "80.5", "76.3"],
      ["妇产科", "88.9", "85.4", "82.8", "79.6", "75.2"],
      ["儿科", "87.6", "84.1", "81.5", "78.3", "74.1"],
      ["急诊科", "86.3", "82.8", "80.2", "77.0", "73.0"]], None)
  }

  /** `创建完整报告()`: the hospital-level section with the two charts and the unit-level
      section with the ranking table. */
  function FullReport(finalYear: int): (r: seq<ReportSection>)
    ensures |r| == 2 && |r[0].slides| == 2 && |r[1].slides| == 1
  {
    [ReportSection("医院层面指标", [
       SlideData("医疗质量指标雷达图", None, Some(QualityRadar(finalYear)), None),
       SlideData("运营效率年度对比", None, Some(EfficiencyBars(finalYear)), None)]),
     ReportSection("科室层面指标", [
       SlideData("科室指标排名表", None, None, Some(UnitRanking()))])]
  }

  /** The full hospital report has four slides: the title and three section slides. */
  method FullReportSlides(customer: string, finalYear: int) returns (slides: seq<Obj>)
    ensures |slides| == 4
    ensures slides[0] == TitleSlide(customer, finalYear)
    ensures forall i :: 1 <= i < 4 ==> ("chart" in slides[i] <==> i < 3) && ("table" in slides[i] <==> i == 3)
  {
    var sections := FullReport(finalYear);
    slides := GenerateReport(customer, finalYear, sections);
    FullReportShape(finalYear);
    TitledChartsThenTable(slides, TitleSlide(customer, finalYear), sections);
  }

  /** The title slide in front of two chart slides and a table slide. */
  lemma TitledChartsThenTable(slides: seq<Obj>, title: Obj, sections: seq<ReportSection>)
    requires |sections| == 2 && |sections[0].slides| == 2 && |sections[1].slides| == 1
    requires sections[0].slides[0].chart.Some? && sections[0].slides[0].table.None?
    requires sections[0].slides[1].chart.Some? && sections[0].slides[1].table.None?
    requires sections[1].slides[0].chart.None? && sections[1].slides[0].table.Some?
    requires slides == [title] + SectionSlides(sections)
    ensures |slides| == 4 && slides[0] == title
    ensures forall i :: 1 <= i < 4 ==> ("chart" in slides[i] <==> i < 3) && ("table" in slides[i] <==> i == 3)
  {
    ChartsThenTable(sections);
    var body := SectionSlides(sections);
    assert forall i :: 1 <= i < 4 ==> slides[i] == body[i - 1];
  }

  /** The full report: two chart slides in the first section, one table slide in the
      second. */
  lemma FullReportShape(finalYear: int)
    ensures var r := FullReport(finalYear);
      r[0].slides[0].chart.Some? && r[0].slides[0].table.None?
      && r[0].slides[1].chart.Some? && r[0].slides[1].table.None?
      && r[1].slides[0].chart.None? && r[1].slides[0].table.Some?
  {
  }

  /** Two chart slides and then a table slide give three dictionaries, the first two
      holding a chart and the last a table. */
  lemma ChartsThenTable(sections: seq<ReportSection>)
    requires |sections| == 2 && |sections[0].slides| == 2 && |sections[1].slides| == 1
    requires sections[0].slides[0].chart.Some? && sections[0].slides[0].table.None?
    requires sections[0].slides[1].chart.Some? && sections[0].slides[1].table.None?
    requires sections[1].slides[0].chart.None? && sections[1].slides[0].table.Some?
    ensures SlideCount(sections) == 3 && |SectionSlides(sections)| == 3
    ensures forall i :: 0 <= i < 3 ==>
      ("chart" in SectionSlides(sections)[i] <==> i < 2) && ("table" in SectionSlides(sections)[i] <==> i == 2)
  {
    TwoSections(sections);
    var a, b := ToSlideData(sections[0]), ToSlideData(sections[1]);
    assert a[0] == SlideJson(sections[0].slides[0]) && a[1] == SlideJson(sections[0].slides[1]);
    assert b[0] == SlideJson(sections[1].slides[0]);
  }

  /** Two sections: the slides of the first, then those of the second. */
  lemma TwoSections(sections: seq<ReportSection>)
    requires |sections| == 2
    ensures SlideCount(sections) == |sections[0].slides| + |sections[1].slides|
    ensures SectionSlides(sections) == ToSlideData(sections[0]) + ToSlideData(sections[1])
  {
    var rest := sections[1..];
    assert rest == [sections[1]] && rest[1..] == [];
    assert SlideCount(rest) == |sections[1].slides|;
    var first := sections[..1];
    assert first[..0] == [] && first[0] == sections[0];
    assert SectionSlides(first) == [] + ToSlideData(sections[0]) == ToSlideData(sections[0]);
    assert sections[..|sections| - 1] == first;
  }
}
