/** The slide builders of the hospital report: a text section cut into pages of 15
    lines, and a ranking table cut into pages of 10 rows, each appended to the
    presentation `pres`. */
module Slides {
  import opened JsonModel
  import opened Text
  import opened Pages

  // ---------------------------------------------------------------- text pages

  /** `"\(value)"` for the values a section holds: strings as they are, integers in
      decimal, booleans as `true`/`false`. */
  function Describe(v: Json): string {
    match v
    case JStr(s) => s
    case JInt(i) => IntToString(i)
    case JBool(b) => if b then "true" else "false"
    case _ => ""
  }

  /** The options of a heading line of font size `size`: bold, then a line break. */
  function HeaderOptions(size: int): Obj {
    map["fontSize" := JInt(size), "bold" := JBool(true), "breakLine" := JBool(true)]
  }

  const BodyOptions: Obj := map["fontSize" := JInt(12), "breakLine" := JBool(true)]
  const TextOptions: Obj :=
    map["x" := JInt(1), "y" := JInt(1), "w" := JStr("80%"), "h" := JInt(4), "align" := JStr("left")]

  /** The bold heading line of an entry. */
  function HeaderLine(key: string, size: int): Obj {
    map["text" := JStr(key), "options" := JObj(HeaderOptions(size))]
  }

  /** The body line of an entry: its value and a line break. */
  function BodyLine(value: Json): Obj {
    map["text" := JStr(Describe(value) + "\n"), "options" := JObj(BodyOptions)]
  }

  /** The lines of the entries of `data` visited in the order `order`, headings of font
      size `size`. */
  function EntryLines(order: seq<string>, data: Obj, size: int): seq<Obj>
    requires forall k :: k in order ==> k in data
  {
    if order == [] then []
    else
      var last := order[|order| - 1];
      EntryLines(order[..|order| - 1], data, size) + [HeaderLine(last, size), BodyLine(data[last])]
  }

  lemma {:induction false} EntryLinesCount(order: seq<string>, data: Obj, size: int)
    requires forall k :: k in order ==> k in data
    ensures |EntryLines(order, data, size)| == 2 * |order|
  {
    if order != [] {
      EntryLinesCount(order[..|order| - 1], data, size);
    }
  }

  /** Exactly two lines per entry: the bold heading and then the body (size 12). */
  lemma {:induction false} EntryLinesShape(order: seq<string>, data: Obj, size: int)
    requires forall k :: k in order ==> k in data
    ensures |EntryLines(order, data, size)| == 2 * |order|
    ensures forall i :: 0 <= i < |order| ==>
      EntryLines(order, data, size)[2 * i] == HeaderLine(order[i], size)
      && EntryLines(order, data, size)[2 * i + 1] == BodyLine(data[order[i]])
  {
    EntryLinesCount(order, data, size);
    if order != [] {
      var init := order[..|order| - 1];
      var last := order[|order| - 1];
      EntryLinesShape(init, data, size);
      var prev := EntryLines(init, data, size);
      var lines := prev + [HeaderLine(last, size), BodyLine(data[last])];
      PairAppended(prev, HeaderLine(last, size), BodyLine(data[last]), |init|);
      forall i | 0 <= i < |order|
        ensures lines[2 * i] == HeaderLine(order[i], size)
        ensures lines[2 * i + 1] == BodyLine(data[order[i]])
      {
        if i < |init| {
          assert order[i] == init[i];
          assert lines[2 * i] == prev[2 * i] && lines[2 * i + 1] == prev[2 * i + 1];
        } else {
          assert i == |init| && order[i] == last;
        }
      }
    }
  }

  /** Two items appended after `2 * n` keep the front and land at `2 * n` and `2 * n + 1`. */
  lemma PairAppended<T>(prev: seq<T>, a: T, b: T, n: nat)
    requires |prev| == 2 * n
    ensures (prev + [a, b])[2 * n] == a && (prev + [a, b])[2 * n + 1] == b
    ensures forall i :: 0 <= i < n ==> (prev + [a, b])[2 * i] == prev[2 * i] && (prev + [a, b])[2 * i + 1] == prev[2 * i + 1]
  {
  }

  /** The lines of a section: for every entry, in dictionary order, its heading and body. */
  method SectionLines(data: Obj, size: int) returns (lines: seq<Obj>, order: seq<string>)
    ensures Enumerates(order, data.Keys)
    ensures lines == EntryLines(order, data, size)
    ensures |lines| == 2 * |data|
  {
    order := KeysOf(data);
    lines := [];
    var i := 0;
    while i < |order|
      invariant 0 <= i <= |order|
      invariant lines == EntryLines(order[..i], data, size)
    {
      var key := order[i];
      lines := lines + [HeaderLine(key, size), BodyLine(data[key])];
      assert order[..i + 1][..i] == order[..i];
      i := i + 1;
    }
    assert order[..i] == order;
    EntryLinesShape(order, data, size);
    DistinctEnumeration(order, data.Keys);
  }

  /** One text slide: the section title, the lines of the page and the text box. */
  function TextSlide(sectionTitle: string, page: seq<Obj>): Obj {
    map[
      "sectionTitle" := JStr(sectionTitle),
      "textLines" := JArr(seq(|page|, i requires 0 <= i < |page| => JObj(page[i]))),
      "textOptions" := JObj(TextOptions)]
  }

  function TextSlides(sectionTitle: string, pages: seq<seq<Obj>>): seq<Obj> {
    seq(|pages|, i requires 0 <= i < |pages| => TextSlide(sectionTitle, pages[i]))
  }

  /** `文本页面.slides`: the lines of the section, 15 to a slide, appended to `pres`. The
      earlier slides are kept, ceil(2n/15) slides are added for n entries, and an empty
      section adds none. */
  method TextPageSlides(pres: seq<Obj>, sectionTitle: string, data: Obj) returns (out: seq<Obj>, order: seq<string>)
    ensures Enumerates(order, data.Keys)
    ensures out == pres + TextSlides(sectionTitle, Chunks(EntryLines(order, data, 16), 15))
    ensures |out| == |pres| + (2 * |data| + 14) / 15
    ensures out[..|pres|] == pres
    ensures data == map[] ==> out == pres
  {
    var lines;
    lines, order := SectionLines(data, 16);
    var mk := page => TextSlide(sectionTitle, page);
    out := Paginate(pres, lines, 15, mk);
    assert MapPages(mk, Chunks(lines, 15)) == TextSlides(sectionTitle, Chunks(lines, 15));
    ChunksCount(lines, 15);
    assert out[..|pres|] == pres;
  }

  /** A distinct enumeration of a set has the set's size. */
  lemma {:induction false} DistinctEnumeration(s: seq<string>, keys: set<string>)
    requires Enumerates(s, keys)
    ensures |s| == |keys|
    decreases |s|
  {
    if s != [] {
      var last := s[|s| - 1];
      var init := s[..|s| - 1];
      forall j | 0 <= j < |init| ensures init[j] != last {
        assert init[j] == s[j];
      }
      forall x | x in init ensures x in keys - {last} {
        var j :| 0 <= j < |init| && init[j] == x;
        assert s[j] == x;
        assert x != last by {
          assert s[j] != s[|s| - 1];
        }
      }
      forall x | x in keys - {last} ensures x in init {
        assert x in s;
        var j :| 0 <= j < |s| && s[j] == x;
        assert j < |init|;
        assert init[j] == x;
      }
      DistinctEnumeration(init, keys - {last});
    }
  }

  /** Laid end to end, the pages of a text section are its lines in order. */
  lemma TextPagesAreTheLines(order: seq<string>, data: Obj, size: int)
    requires forall k :: k in order ==> k in data
    ensures Flatten(Chunks(EntryLines(order, data, size), 15)) == EntryLines(order, data, size)
    ensures forall i :: 0 <= i < |Chunks(EntryLines(order, data, size), 15)| ==>
      1 <= |Chunks(EntryLines(order, data, size), 15)[i]| <= 15
    ensures forall i :: 0 <= i < |Chunks(EntryLines(order, data, size), 15)| - 1 ==>
      |Chunks(EntryLines(order, data, size), 15)[i]| == 15
  {
    ChunksFlatten(EntryLines(order, data, size), 15);
    ChunksSizes(EntryLines(order, data, size), 15);
  }

  // -------------------------------------------------------------- ranking table

  /** The `unitName` Strings of the units, in order; units without one are skipped. */
  function UnitNames(units: seq<Json>): (r: seq<string>)
    ensures |r| <= |units|
  {
    if units == [] then []
    else
      var last := units[|units| - 1];
      UnitNames(units[..|units| - 1])
        + (if last.JObj? && "unitName" in last.fields && last.fields["unitName"].JStr?
           then [last.fields["unitName"].s] else [])
  }

  predicate Named(unit: Json) {
    unit.JObj? && "unitName" in unit.fields && unit.fields["unitName"].JStr?
  }

  /** A name is listed exactly when some unit carries it, and when every unit is named
      all of them are listed. */
  lemma {:induction false} UnitNamesExact(units: seq<Json>, x: string)
    ensures x in UnitNames(units) <==> exists i :: 0 <= i < |units| && Named(units[i]) && units[i].fields["unitName"].s == x
    ensures (forall i :: 0 <= i < |units| ==> Named(units[i])) ==> |UnitNames(units)| == |units|
  {
    if units != [] {
      var init := units[..|units| - 1];
      UnitNamesExact(init, x);
      if x in UnitNames(init) {
        var i :| 0 <= i < |init| && Named(init[i]) && init[i].fields["unitName"].s == x;
        assert units[i] == init[i];
      }
      if exists i :: 0 <= i < |units| && Named(units[i]) && units[i].fields["unitName"].s == x {
        var i :| 0 <= i < |units| && Named(units[i]) && units[i].fields["unitName"].s == x;
        if i < |init| {
          assert init[i] == units[i];
        }
      }
      if forall i :: 0 <= i < |units| ==> Named(units[i]) {
        assert forall i :: 0 <= i < |init| ==> Named(init[i]) by {
          forall i | 0 <= i < |init| ensures Named(init[i]) {
            assert init[i] == units[i];
          }
        }
        assert Named(units[|units| - 1]);
      }
    }
  }

  /** The inner loop: every unit's `unitName` String appended to the row. */
  method NamesOf(units: seq<Json>) returns (names: seq<string>)
    ensures names == UnitNames(units)
  {
    names := [];
    var i := 0;
    while i < |units|
      invariant 0 <= i <= |units|
      invariant names == UnitNames(units[..i])
    {
      var unit := units[i];
      if unit.JObj? && "unitName" in unit.fields && unit.fields["unitName"].JStr? {
        names := names + [unit.fields["unitName"].s];
      }
      assert units[..i + 1][..i] == units[..i];
      i := i + 1;
    }
    assert units[..i] == units;
  }

  /** `dataArray as? [[String: Any]]`: an array whose every element is a dictionary. */
  predicate IsUnitArray(v: Json) {
    v.JArr? && forall i :: 0 <= i < |v.items| ==> v.items[i].JObj?
  }

  /** The row of an indicator: its name, then its units' names. */
  function RankingRow(indicator: string, v: Json): seq<string>
    requires v.JArr?
  {
    [indicator] + UnitNames(v.items)
  }

  /** The rows of the entries visited in the order `order`: one for each unit array with at
      least one named unit. */
  function RankingRows(order: seq<string>, data: Obj): seq<seq<string>>
    requires forall k :: k in order ==> k in data
  {
    if order == [] then []
    else
      var last := order[|order| - 1];
      RankingRows(order[..|order| - 1], data)
        + (if IsUnitArray(data[last]) && |RankingRow(last, data[last])| > 1
           then [RankingRow(last, data[last])] else [])
  }

  /** A row is kept exactly for an indicator whose units form an array of dictionaries with
      at least one `unitName`; it starts with the indicator and lists the names in order,
      and no indicator has two rows. */
  lemma RankingRowsExact(order: seq<string>, data: Obj)
    requires Distinct(order)
    requires forall k :: k in order ==> k in data
    ensures forall r :: r in RankingRows(order, data) ==>
      |r| > 1 && r[0] in order && IsUnitArray(data[r[0]]) && r == RankingRow(r[0], data[r[0]])
    ensures forall k :: k in order && IsUnitArray(data[k]) && UnitNames(data[k].items) != [] ==>
      RankingRow(k, data[k]) in RankingRows(order, data)
    ensures forall i, j :: 0 <= i < j < |RankingRows(order, data)| ==>
      RankingRows(order, data)[i][0] != RankingRows(order, data)[j][0]
  {
    RowsBelong(order, data);
    RowsComplete(order, data);
    RowsDistinct(order, data);
  }

  lemma {:induction false} RowsBelong(order: seq<string>, data: Obj)
    requires forall k :: k in order ==> k in data
    ensures forall r :: r in RankingRows(order, data) ==>
      |r| > 1 && r[0] in order && IsUnitArray(data[r[0]]) && r == RankingRow(r[0], data[r[0]])
  {
    if order != [] {
      var init := order[..|order| - 1];
      RowsBelong(init, data);
      forall x | x in init ensures x in order {
        var j :| 0 <= j < |init| && init[j] == x;
        assert order[j] == x;
      }
    }
  }

  lemma {:induction false} RowsComplete(order: seq<string>, data: Obj)
    requires forall k :: k in order ==> k in data
    ensures forall k :: k in order && IsUnitArray(data[k]) && UnitNames(data[k].items) != [] ==>
      RankingRow(k, data[k]) in RankingRows(order, data)
  {
    if order != [] {
      var init := order[..|order| - 1];
      var last := order[|order| - 1];
      RowsComplete(init, data);
      var rows := RankingRows(order, data);
      forall k | k in order && IsUnitArray(data[k]) && UnitNames(data[k].items) != []
        ensures RankingRow(k, data[k]) in rows
      {
        if k != last {
          var j :| 0 <= j < |order| && order[j] == k;
          assert init[j] == k;
        } else {
          assert rows[|rows| - 1] == RankingRow(k, data[k]);
        }
      }
    }
  }

  lemma {:induction false} RowsDistinct(order: seq<string>, data: Obj)
    requires Distinct(order)
    requires forall k :: k in order ==> k in data
    ensures DistinctHeads(RankingRows(order, data))
  {
    if order != [] {
      var init := order[..|order| - 1];
      var last := order[|order| - 1];
      assert Distinct(init);
      RowsDistinct(init, data);
      RowsBelong(init, data);
      assert last !in init by {
        forall j | 0 <= j < |init| ensures init[j] != last {
          assert init[j] == order[j];
        }
      }
      var before := RankingRows(init, data);
      var extra := if IsUnitArray(data[last]) && |RankingRow(last, data[last])| > 1
        then [RankingRow(last, data[last])] else [];
      assert RankingRows(order, data) == before + extra;
      AppendDistinctHead(before, extra, last);
    } else {
      assert RankingRows(order, data) == [];
    }
  }

  /** Every row is non-empty and no two rows start with the same entry. */
  ghost predicate DistinctHeads(rows: seq<seq<string>>) {
    forall i, j :: 0 <= i < j < |rows| ==> |rows[i]| > 0 && |rows[j]| > 0 && rows[i][0] != rows[j][0]
  }

  /** At most one row headed by a new entry keeps the heads distinct. */
  lemma AppendDistinctHead(before: seq<seq<string>>, extra: seq<seq<string>>, head: string)
    requires DistinctHeads(before)
    requires forall r :: r in before ==> |r| > 0 && r[0] != head
    requires |extra| <= 1 && forall r :: r in extra ==> |r| > 0 && r[0] == head
    ensures DistinctHeads(before + extra)
  {
    var rows := before + extra;
    forall i, j | 0 <= i < j < |rows| ensures |rows[i]| > 0 && |rows[j]| > 0 && rows[i][0] != rows[j][0] {
      if j < |before| {
        assert rows[i] == before[i] && rows[j] == before[j];
      } else {
        assert rows[i] == before[i] && before[i] in before;
        assert rows[j] == extra[0] && extra[0] in extra;
      }
    }
  }

  /** Visits the entries of a section and collects the rows of the table. */
  method RankingData(data: Obj) returns (rows: seq<seq<string>>, order: seq<string>)
    ensures Enumerates(order, data.Keys)
    ensures rows == RankingRows(order, data)
  {
    order := KeysOf(data);
    rows := [];
    var i := 0;
    while i < |order|
      invariant 0 <= i <= |order|
      invariant rows == RankingRows(order[..i], data)
    {
      var indicator := order[i];
      var dataArray := data[indicator];
      assert order[..i + 1][..i] == order[..i];
      if dataArray.JArr? && forall j :: 0 <= j < |dataArray.items| ==> dataArray.items[j].JObj? {
        var names := NamesOf(dataArray.items);
        var row := [indicator] + names;
        if |row| > 1 {
          rows := rows + [row];
        }
      }
      i := i + 1;
    }
    assert order[..i] == order;
  }

  function StringArray(ss: seq<string>): Json {
    JArr(seq(|ss|, i requires 0 <= i < |ss| => JStr(ss[i])))
  }

  /** One table slide: the section title twice, the headers and the rows of the page
      (without the header row). */
  function TableSlide(sectionTitle: string, titles: seq<string>, page: seq<seq<string>>): Obj {
    map[
      "sectionTitle" := JStr(sectionTitle),
      "title" := JStr(sectionTitle),
      "table" := JObj(map[
        "headers" := StringArray(titles),
        "rows" := JArr(seq(|page|, i requires 0 <= i < |page| => StringArray(page[i])))])]
  }

  function TableSlides(sectionTitle: string, titles: seq<string>, pages: seq<seq<seq<string>>>): seq<Obj> {
    seq(|pages|, i requires 0 <= i < |pages| => TableSlide(sectionTitle, titles, pages[i]))
  }

  /** `科室逐项指标排名表.titles()` */
  const RankingTitles: seq<string> := ["数据名", "前一", "前二", "前三", "前四", "前五", "末五", "末四", "末三", "末二", "末一"]

  /** `科室逐项指标排名表.slides`: the rows of the section, 10 to a slide, appended to
      `pres`. */
  method RankingSlides(pres: seq<Obj>, sectionTitle: string, titles: seq<string>, data: Obj)
    returns (out: seq<Obj>, order: seq<string>)
    ensures Enumerates(order, data.Keys)
    ensures out == pres + TableSlides(sectionTitle, titles, Chunks(RankingRows(order, data), 10))
    ensures |out| == |pres| + (|RankingRows(order, data)| + 9) / 10
    ensures out[..|pres|] == pres
  {
    var rows;
    rows, order := RankingData(data);
    var mk := page => TableSlide(sectionTitle, titles, page);
    out := Paginate(pres, rows, 10, mk);
    assert MapPages(mk, Chunks(rows, 10)) == TableSlides(sectionTitle, titles, Chunks(rows, 10));
    ChunksCount(rows, 10);
    assert out[..|pres|] == pres;
  }

  // ------------------------------------------------------------ sample sections

  /** `三级指标数据统计分析.sectionData()` */
  const StatisticsData: Obj := map[
    "出院患者手术占比" := JStr("有3个科室出院患者手术占比指标须改进。建议加强手术科室建设。"),
    "药占比" := JStr("有2个科室药占比指标须改进。建议优化用药结构。"),
    "平均住院日" := JStr("有4个科室平均住院日指标须改进。建议优化诊疗流程。")]

  lemma StatisticsSize()
    ensures |StatisticsData| == 3
  {
    var a, b, c := "出院患者手术占比", "药占比", "平均住院日";
    assert a != b && a != c && b != c by {
      assert |a| == 8 && |b| == 3 && |c| == 5;
    }
    assert StatisticsData.Keys == {a, b, c};
  }

  /** The three statistics entries give six lines, one slide. */
  method StatisticsSlides(pres: seq<Obj>, sectionTitle: string) returns (out: seq<Obj>)
    ensures |out| == |pres| + 1 && out[..|pres|] == pres
    ensures exists order ::
              Enumerates(order, StatisticsData.Keys)
              && |EntryLines(order, StatisticsData, 16)| == 6
              && out[|pres|] == TextSlide(sectionTitle, EntryLines(order, StatisticsData, 16))
  {
    var order;
    out, order := TextPageSlides(pres, sectionTitle, StatisticsData);
    var lines := EntryLines(order, StatisticsData, 16);
    StatisticsOnePage(order);
    assert out[|pres|] == TextSlides(sectionTitle, [lines])[0];
  }

  /** The statistics lines fit on one page. */
  lemma StatisticsOnePage(order: seq<string>)
    requires Enumerates(order, StatisticsData.Keys)
    ensures |EntryLines(order, StatisticsData, 16)| == 6
    ensures Chunks(EntryLines(order, StatisticsData, 16), 15) == [EntryLines(order, StatisticsData, 16)]
  {
    StatisticsSize();
    EntryLinesShape(order, StatisticsData, 16);
    DistinctEnumeration(order, StatisticsData.Keys);
  }

  function Unit(name: string, value: real): Json {
    JObj(map["unitName" := JStr(name), "value" := JDouble(value)])
  }

  const SurgeryUnits: seq<Json> := [
    Unit("外科一病区", 95.2), Unit("外科二病区", 92.1), Unit("骨科", 88.5), Unit("妇产科", 85.3),
    Unit("眼科", 82.1), Unit("皮肤科", 12.5), Unit("中医科", 10.2), Unit("康复科", 8.5),
    Unit("内科三病区", 5.2), Unit("内科一病区", 3.1)]

  const DrugUnits: seq<Json> := [
    Unit("外科一病区", 25.3), Unit("骨科", 28.5), Unit("眼科", 30.2), Unit("妇产科", 32.1),
    Unit("儿科", 35.5), Unit("内科二病区", 58.2), Unit("中医科", 60.5), Unit("内科一病区", 62.3),
    Unit("康复科", 65.1), Unit("老年科", 68.9)]

  const SurgeryKey: string := "出院患者手术占比"
  const DrugKey: string := "药占比"

  /** `三级指标数据前后各五名列表.sectionData()` */
  const TopFiveData: Obj := map[SurgeryKey := JArr(SurgeryUnits), DrugKey := JArr(DrugUnits)]

  /** `三级指标数据前后各五名列表.titles()` */
  const TopFiveTitles: seq<string> :=
    ["数据名", "第1名", "第2名", "第3名", "第4名", "第5名", "倒数第5", "倒数第4", "倒数第3", "倒数第2", "倒数第1"]

  /** Every sample unit is a named dictionary. */
  lemma AllNamed(units: seq<Json>)
    requires units == SurgeryUnits || units == DrugUnits
    ensures IsUnitArray(JArr(units)) && |UnitNames(units)| == 10
  {
    if units == SurgeryUnits {
      SurgeryUnitsNamed();
    } else {
      DrugUnitsNamed();
    }
    UnitNamesExact(units, "");
  }

  lemma SurgeryUnitsNamed()
    ensures |SurgeryUnits| == 10 && forall i :: 0 <= i < |SurgeryUnits| ==> Named(SurgeryUnits[i])
  {
    forall i | 0 <= i < |SurgeryUnits| ensures Named(SurgeryUnits[i]) {
    }
  }

  lemma DrugUnitsNamed()
    ensures |DrugUnits| == 10 && forall i :: 0 <= i < |DrugUnits| ==> Named(DrugUnits[i])
  {
    forall i | 0 <= i < |DrugUnits| ensures Named(DrugUnits[i]) {
    }
  }

  /** The two indicators of ten units each give one slide: two rows of 11 cells under the
      11 headers. */
  method TopFiveSlides(pres: seq<Obj>, sectionTitle: string) returns (out: seq<Obj>)
    ensures |out| == |pres| + 1 && out[..|pres|] == pres
    ensures |TopFiveTitles| == 11
    ensures exists rows ::
              |rows| == 2 && (forall i :: 0 <= i < 2 ==> |rows[i]| == 11)
              && out[|pres|] == TableSlide(sectionTitle, TopFiveTitles, rows)
  {
    var order;
    out, order := RankingSlides(pres, sectionTitle, TopFiveTitles, TopFiveData);
    var rows := RankingRows(order, TopFiveData);
    TopFiveRows(order);
    assert Chunks(rows, 10) == [rows];
    assert out[|pres|] == TableSlide(sectionTitle, TopFiveTitles, rows);
  }

  /** Both sample indicators get a full row. */
  lemma TopFiveRow(k: string)
    requires k in TopFiveData
    ensures IsUnitArray(TopFiveData[k]) && |RankingRow(k, TopFiveData[k])| == 11
  {
    if k == SurgeryKey {
      AllNamed(SurgeryUnits);
    } else {
      AllNamed(DrugUnits);
    }
  }

  /** The rows of a two-entry visit. */
  lemma RankingRowsOfTwo(order: seq<string>, data: Obj)
    requires |order| == 2 && order[0] in data && order[1] in data
    requires IsUnitArray(data[order[0]]) && |RankingRow(order[0], data[order[0]])| > 1
    requires IsUnitArray(data[order[1]]) && |RankingRow(order[1], data[order[1]])| > 1
    ensures RankingRows(order, data) == [RankingRow(order[0], data[order[0]]), RankingRow(order[1], data[order[1]])]
  {
    var first := [order[0]];
    assert order[..1] == first;
    assert first[..0] == [];
    assert RankingRows([], data) == [];
    assert RankingRows(first, data) == [RankingRow(order[0], data[order[0]])];
  }

  lemma TopFiveRows(order: seq<string>)
    requires Enumerates(order, TopFiveData.Keys)
    ensures |RankingRows(order, TopFiveData)| == 2
    ensures forall i :: 0 <= i < 2 ==> |RankingRows(order, TopFiveData)[i]| == 11
  {
    TopFiveKeys();
    DistinctEnumeration(order, TopFiveData.Keys);
    assert order[0] in TopFiveData && order[1] in TopFiveData;
    TopFiveRow(order[0]);
    TopFiveRow(order[1]);
    TwoFullRows(order, TopFiveData);
  }

  /** Two entries with 11-cell rows give two rows of 11 cells. */
  lemma TwoFullRows(order: seq<string>, data: Obj)
    requires |order| == 2 && order[0] in data && order[1] in data
    requires IsUnitArray(data[order[0]]) && |RankingRow(order[0], data[order[0]])| == 11
    requires IsUnitArray(data[order[1]]) && |RankingRow(order[1], data[order[1]])| == 11
    ensures |RankingRows(order, data)| == 2
    ensures forall i :: 0 <= i < 2 ==> |RankingRows(order, data)[i]| == 11
  {
    RankingRowsOfTwo(order, data);
  }

  /** The two sample indicators are distinct keys. */
  lemma TopFiveKeys()
    ensures |TopFiveData| == 2
  {
    assert SurgeryKey != DrugKey by {
      assert |SurgeryKey| == 8 && |DrugKey| == 3;
    }
    assert TopFiveData.Keys == {SurgeryKey, DrugKey};
  }
}
