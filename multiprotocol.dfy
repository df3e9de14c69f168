/** Capabilities composed by protocol conformance: a cached, readable and writable
    project-settings store, and the ranking and radar sections built from the sortable,
    chart and table capabilities. */
module MultiProtocol {
  import opened JsonModel
  import opened Text
  import opened Paths
  import opened Tables
  import opened Caches
  import Slides
  import Report
  import MoreEntities
  import FullTranslation

  // ---------------------------------------------------------------------------
  // 项目设置V4Plus: read, write and cache one settings file
  // ---------------------------------------------------------------------------

  /** `writeToJSON(_:)`: the file now holds `data`. */
  function Written(fs: FileSystem, path: string, data: Obj): (r: FileSystem)
    ensures r.ReadJson(path) == Some(data)
    ensures forall p :: p != path ==> r.ReadJson(p) == fs.ReadJson(p)
  {
    FileSystem(fs.files[path := Some(JObj(data))])
  }

  class SettingsPlus {
    const dirname: Option<string>
    /** `basename` is "项目设置" for every instance. */
    const basename: string
    var cachedData: Option<Obj>

    constructor (dirname: Option<string>)
      ensures this.dirname == dirname && basename == "项目设置" && cachedData == None
    {
      this.dirname := dirname;
      basename := "项目设置";
      cachedData := None;
    }

    /** The settings file (the precedence of `??` corrected, see `Paths.SettingsPath`). */
    function File(): string {
      SettingsPath(dirname)
    }

    /** `readFromJSON()`: the dictionary in the settings file, nil when it is missing or does
        not parse as one. */
    function ReadFromJson(fs: FileSystem): (r: Option<Obj>)
      ensures r.Some? <==> File() in fs.files && fs.files[File()].Some? && fs.files[File()].value.JObj?
      ensures r.Some? ==> JObj(r.value) == fs.files[File()].value
    {
      fs.ReadJson(File())
    }

    /** `writeToJSON(_:)`: the settings file replaced by `data`. */
    function WriteToJson(fs: FileSystem, data: Obj): (r: FileSystem)
      ensures ReadFromJson(r) == Some(data)
      ensures forall p :: p != File() ==> r.ReadJson(p) == fs.ReadJson(p)
    {
      Written(fs, File(), data)
    }

    /** `getData()`: reads the file only while nothing is cached, and keeps what it read. */
    method GetData(fs: FileSystem) returns (r: Option<Obj>)
      modifies this
      ensures cachedData == Fetched(old(cachedData), false, ReadFromJson(fs))
      ensures r == cachedData
      ensures old(cachedData).Some? ==> r == old(cachedData)
    {
      if cachedData == None {
        cachedData := ReadFromJson(fs);
      }
      r := cachedData;
    }

    /** `clearCache()` (the `Cacheable` default): nothing cached. */
    method ClearCache()
      modifies this
      ensures cachedData == None
    {
      cachedData := None;
    }

    /** `adjustedName(_:)`: the noise characters removed, so a name without noise is
        kept as it is. */
    function AdjustedName(name: string): (r: string)
      ensures !HasNoise(r) && |r| <= |name|
      ensures r == name <==> !HasNoise(name)
    {
      CleanFixpoint(name);
      Clean(name)
    }
  }

  /** Writing the settings, clearing the cache and reading again yields what was written;
      without the clear, the old cached value would still be answered. */
  method WriteClearRead(s: SettingsPlus, fs: FileSystem, data: Obj) returns (fs': FileSystem, r: Option<Obj>)
    modifies s
    ensures r == Some(data) && s.cachedData == Some(data)
    ensures fs'.ReadJson(s.File()) == Some(data)
  {
    fs' := s.WriteToJson(fs, data);
    s.ClearCache();
    r := s.GetData(fs');
  }

  /** With data cached, a write to the file is not seen by `getData`. */
  method WriteWithoutClear(s: SettingsPlus, fs: FileSystem, data: Obj) returns (r: Option<Obj>)
    requires s.cachedData.Some?
    modifies s
    ensures r == old(s.cachedData) && s.cachedData == old(s.cachedData)
  {
    var fs' := s.WriteToJson(fs, data);
    r := s.GetData(fs');
  }

  // ---------------------------------------------------------------------------
  // 排序报告V4.sortedData: tagged rows, then `sorted` with a partial comparator
  // ---------------------------------------------------------------------------

  /** `o[key] as? Double`: the numeric value of the field (a JSON number is an `NSNumber`,
      which bridges to `Double` whether it was written as an integer or not). */
  function KeyOf(o: Obj, key: string): (r: Option<real>)
    ensures r.Some? ==> key in o
  {
    if key in o then AsNumber(o[key]) else None
  }

  /** The comparator of `sorted`: false unless both rows hold a number at `key`; then
      ascending or descending by that number. */
  predicate Before(a: Obj, b: Obj, key: string, ascending: bool) {
    KeyOf(a, key).Some? && KeyOf(b, key).Some?
    && (if ascending then KeyOf(a, key).value < KeyOf(b, key).value
        else KeyOf(a, key).value > KeyOf(b, key).value)
  }

  /** No row is placed after one that the comparator puts after it. */
  predicate InOrder(s: seq<Obj>, key: string, ascending: bool) {
    forall i, j :: 0 <= i < j < |s| ==> !Before(s[j], s[i], key, ascending)
  }

  predicate AllKeyed(s: seq<Obj>, key: string) {
    forall i :: 0 <= i < |s| ==> KeyOf(s[i], key).Some?
  }

  /** `x` inserted before the first row that does not precede it. */
  function Insert(x: Obj, s: seq<Obj>, key: string, ascending: bool): (r: seq<Obj>)
    ensures |r| == |s| + 1
    ensures multiset(r) == multiset(s) + multiset{x}
  {
    if s == [] || !Before(s[0], x, key, ascending) then [x] + s
    else
      assert s == [s[0]] + s[1..];
      [s[0]] + Insert(x, s[1..], key, ascending)
  }

  /** `arr.sorted(by:)` with the comparator `Before`. */
  function SortByKey(s: seq<Obj>, key: string, ascending: bool): (r: seq<Obj>)
    ensures |r| == |s|
    ensures multiset(r) == multiset(s)
  {
    if s == [] then []
    else
      assert s == [s[0]] + s[1..];
      Insert(s[0], SortByKey(s[1..], key, ascending), key, ascending)
  }

  lemma {:induction false} InsertInOrder(x: Obj, s: seq<Obj>, key: string, ascending: bool)
    requires KeyOf(x, key).Some? && AllKeyed(s, key) && InOrder(s, key, ascending)
    ensures InOrder(Insert(x, s, key, ascending), key, ascending)
  {
    if s == [] {
    } else if !Before(s[0], x, key, ascending) {
      forall j | 0 <= j < |s| ensures !Before(s[j], x, key, ascending) {
        if j > 0 {
          assert !Before(s[j], s[0], key, ascending);
        }
      }
      ConsInOrder(x, s, key, ascending);
    } else {
      var t := Insert(x, s[1..], key, ascending);
      TailInOrder(s, key, ascending);
      InsertInOrder(x, s[1..], key, ascending);
      forall j | 0 <= j < |t| ensures !Before(t[j], s[0], key, ascending) {
        assert t[j] in multiset(t);
        if t[j] != x {
          assert t[j] in multiset(s[1..]);
          var k :| 0 <= k < |s[1..]| && s[1..][k] == t[j];
          assert s[k + 1] == t[j];
        }
      }
      ConsInOrder(s[0], t, key, ascending);
    }
  }

  /** The rows after the first of keyed rows in order are keyed and in order. */
  lemma TailInOrder(s: seq<Obj>, key: string, ascending: bool)
    requires s != [] && AllKeyed(s, key) && InOrder(s, key, ascending)
    ensures AllKeyed(s[1..], key) && InOrder(s[1..], key, ascending)
  {
    forall i | 0 <= i < |s[1..]| ensures KeyOf(s[1..][i], key).Some? {
      assert s[1..][i] == s[i + 1];
    }
    forall i, j | 0 <= i < j < |s[1..]| ensures !Before(s[1..][j], s[1..][i], key, ascending) {
      assert s[1..][i] == s[i + 1] && s[1..][j] == s[j + 1];
    }
  }

  /** A row that none of the rows in order precedes can go in front of them. */
  lemma ConsInOrder(h: Obj, t: seq<Obj>, key: string, ascending: bool)
    requires InOrder(t, key, ascending)
    requires forall j :: 0 <= j < |t| ==> !Before(t[j], h, key, ascending)
    ensures InOrder([h] + t, key, ascending)
  {
    var r := [h] + t;
    forall i, j | 0 <= i < j < |r| ensures !Before(r[j], r[i], key, ascending) {
      if i == 0 {
        assert r[j] == t[j - 1];
      } else {
        assert r[i] == t[i - 1] && r[j] == t[j - 1];
      }
    }
  }

  /** When every row holds a number at `key`, the sorted rows are in order. */
  lemma {:induction false} SortInOrder(s: seq<Obj>, key: string, ascending: bool)
    requires AllKeyed(s, key)
    ensures InOrder(SortByKey(s, key, ascending), key, ascending)
  {
    if s != [] {
      var rest := SortByKey(s[1..], key, ascending);
      assert AllKeyed(s[1..], key) by {
        forall i | 0 <= i < |s[1..]| ensures KeyOf(s[1..][i], key).Some? {
          assert s[1..][i] == s[i + 1];
        }
      }
      SortInOrder(s[1..], key, ascending);
      assert AllKeyed(rest, key) by {
        forall i | 0 <= i < |rest| ensures KeyOf(rest[i], key).Some? {
          assert rest[i] in multiset(rest);
          var k :| 0 <= k < |s[1..]| && s[1..][k] == rest[i];
          assert s[k + 1] == rest[i];
        }
      }
      InsertInOrder(s[0], rest, key, ascending);
    }
  }

  /** Keyed rows in order are ranked by their numbers: descending by default, ascending
      on request. */
  lemma InOrderRanks(s: seq<Obj>, key: string, ascending: bool, i: int, j: int)
    requires AllKeyed(s, key) && InOrder(s, key, ascending)
    requires 0 <= i < j < |s|
    ensures ascending ==> KeyOf(s[i], key).value <= KeyOf(s[j], key).value
    ensures !ascending ==> KeyOf(s[i], key).value >= KeyOf(s[j], key).value
  {
    assert !Before(s[j], s[i], key, ascending);
  }

  /** `sortedData(by:ascending:)` on the store `json` (`readFromJSON()`): nothing without a
      store; otherwise one row per key, `["unitName": k]` merged with the key's dictionary,
      the rows then sorted by `key`. */
  method SortedData(json: Option<Obj>, key: string, ascending: bool)
    returns (arr: seq<Obj>, ghost order: seq<string>, ghost rows: seq<Obj>)
    ensures json.None? ==> arr == [] && rows == []
    ensures json.Some? ==> Enumerates(order, json.value.Keys) && |rows| == |order| == |json.value|
    ensures json.Some? ==> forall i :: 0 <= i < |rows| ==>
      order[i] in json.value && rows[i] == UnitRow(order[i], json.value[order[i]], None, None)
    ensures |arr| == |rows| && multiset(arr) == multiset(rows)
    ensures AllKeyed(rows, key) ==> InOrder(arr, key, ascending)
  {
    if json.None? {
      return [], [], [];
    }
    var unsorted;
    unsorted, order := DbAsArray(json.value, None, None, _ => false, ProtocolRow);
    assert KeptKeys(json.value, _ => false) == json.value.Keys;
    rows := unsorted;
    arr := SortByKey(unsorted, key, ascending);
    if AllKeyed(rows, key) {
      SortInOrder(rows, key, ascending);
    }
  }

  /** Each sorted row is the tagged row of one unit: the unit name is kept unless the
      unit's own dictionary carries a "unitName" field. */
  lemma SortedRowsTagged(k: string, fields: Obj)
    requires "unitName" !in fields
    ensures UnitRow(k, JObj(fields), None, None)["unitName"] == JStr(k)
    ensures forall f :: f in fields ==> UnitRow(k, JObj(fields), None, None)[f] == fields[f]
  {
    UnitRowTagged(ProtocolRow, k, JObj(fields), None, None);
    UnitRowMerged(ProtocolRow, k, JObj(fields), None);
  }

  /** `排序报告V4.generateChartData()`: a bar chart of the rows sorted descending by
      "value"; `readFromJSON()` is nil, so there are none. */
  method RankingChartData() returns (r: Obj)
    ensures "type" in r && r["type"] == JStr("bar")
    ensures "data" in r && r["data"] == JArr([])
  {
    var arr;
    ghost var order, rows;
    arr, order, rows := SortedData(None, "value", false);
    r := map["type" := JStr("bar"), "data" := JArr(seq(|arr|, i requires 0 <= i < |arr| => JObj(arr[i])))];
  }

  // ---------------------------------------------------------------------------
  // 原值排序报告V4 / 内部原值排序报告V4
  // ---------------------------------------------------------------------------

  /** `"\($0["value"] ?? 0)"`: the rendering of the value, "0" when there is none. */
  function ValueCell(row: Obj): string {
    if "value" in row then Slides.Describe(row["value"]) else Slides.Describe(JInt(0))
  }

  /** `generateTableData()` over the rows `data`: the unit name ("" when it is not a
      String) and the rendered value of each row. */
  function TableRows(data: seq<Obj>): (r: seq<seq<string>>)
    ensures |r| == |data|
    ensures forall i :: 0 <= i < |r| ==>
      |r[i]| == 2 && r[i][0] == StrAt(data[i], "unitName").GetOr("") && r[i][1] == ValueCell(data[i])
  {
    seq(|data|, i requires 0 <= i < |data| => [StrAt(data[i], "unitName").GetOr(""), ValueCell(data[i])])
  }

  /** A row without a value shows "0". */
  lemma MissingValueShowsZero(row: Obj)
    requires "value" !in row
    ensures ValueCell(row) == "0"
  {
    assert NatToString(0) == [DigitChar(0)];
  }

  /** The tagged row of a unit starts its table line with the unit's name. */
  lemma TableRowNamesUnit(k: string, fields: Obj)
    requires "unitName" !in fields
    ensures TableRows([UnitRow(k, JObj(fields), None, None)])[0][0] == k
  {
    SortedRowsTagged(k, fields);
  }

  /** `generateChartData()` of the two raw-value rankings: a bar chart with `showValue`
      true (`原值排序报告V4`) or false (`内部原值排序报告V4`). */
  function RawRankingChartData(showValue: bool): (r: Obj)
    ensures r == MoreEntities.ChartData(MoreEntities.RawRanking(showValue))
  {
    map["type" := JStr("bar"), "showValue" := JBool(showValue)]
  }

  /** `原值排序报告V4.generateTableData()`: its `sortedData` is [], so no row. */
  method RawRankingTable() returns (r: seq<seq<string>>)
    ensures r == []
  {
    var data: seq<Obj> := [];
    r := TableRows(data);
  }

  // ---------------------------------------------------------------------------
  // 雷达图报告V4Plus and 多科雷达图报告V4
  // ---------------------------------------------------------------------------

  /** `雷达图报告V4Plus.generateChartData()` */
  function RadarChartData(basename: string): (r: Obj)
    ensures "type" in r && r["type"] == JStr("radar") && "title" in r && r["title"] == JStr(basename)
    ensures "categories" in r && r["categories"].JArr? && |r["categories"].items| == 5
    ensures "values" in r && r["values"].JArr? && |r["values"].items| == 5
  {
    map["type" := JStr("radar"), "title" := JStr(basename),
        "categories" := JArr([JStr("质量安全"), JStr("功能定位"), JStr("合理用药"), JStr("服务流程"), JStr("医保价值")]),
        "values" := JArr([JInt(85), JInt(78), JInt(92), JInt(88), JInt(75)])]
  }

  /** The radar section shows the quality axes and the final-year scores of the hospital
      report's quality radar. */
  lemma RadarMatchesReport(basename: string, finalYear: int)
    ensures forall i :: 0 <= i < 5 ==>
      RadarChartData(basename)["categories"].items[i] == JStr(Report.QualityLabels[i])
      && AsNumber(RadarChartData(basename)["values"].items[i]) == Some(Report.QualityRadar(finalYear).series[0].values[i])
  {
  }

  /** `多科雷达图报告V4.adjustedName(_:)`: only "_" is removed. */
  function MultiAdjustedName(name: string): (r: string)
    ensures '_' !in r && |r| <= |name|
  {
    RemoveChar(name, '_')
  }

  lemma {:induction false} RemoveCharAppend(a: string, b: string, c: char)
    ensures RemoveChar(a + b, c) == RemoveChar(a, c) + RemoveChar(b, c)
    decreases |a|
  {
    if a == [] {
      assert a + b == b;
    } else {
      assert (a + b)[0] == a[0] && (a + b)[1..] == a[1..] + b;
      RemoveCharAppend(a[1..], b, c);
      if a[0] != c {
        calc {
          RemoveChar(a + b, c);
          [a[0]] + RemoveChar(a[1..] + b, c);
          [a[0]] + (RemoveChar(a[1..], c) + RemoveChar(b, c));
          ([a[0]] + RemoveChar(a[1..], c)) + RemoveChar(b, c);
        }
      }
    }
  }

  lemma {:induction false} RemoveCharAbsent(s: string, c: char)
    requires c !in s
    ensures RemoveChar(s, c) == s
    decreases |s|
  {
    if s != [] {
      RemoveCharAbsent(s[1..], c);
    }
  }

  /** Joining around "_" keeps the parts in place, where the readable name swaps them:
      "内科_医院" adjusts to "内科医院" but reads "医院内科". */
  lemma MultiAdjustedKeepsOrder(a: string, b: string)
    requires '_' !in a && '_' !in b
    ensures MultiAdjustedName(a + "_" + b) == a + b
    ensures FullTranslation.ReadableName(a + "_" + b) == b + a
  {
    RemoveCharAppend(a + "_", b, '_');
    RemoveCharAppend(a, "_", '_');
    RemoveCharAbsent(a, '_');
    RemoveCharAbsent(b, '_');
    FullTranslation.ReadableNameSwaps(a, b);
    FullTranslation.ReadableNameOfPlain(a);
    FullTranslation.ReadableNameOfPlain(b);
  }

  /** `多科雷达图报告V4.compareIndicators(_:_:)`: both names adjusted, and the chart data. */
  function MultiCompareIndicators(ind1: string, ind2: string): (r: Obj)
    ensures "indicator1" in r && r["indicator1"] == JStr(MultiAdjustedName(ind1))
    ensures "indicator2" in r && r["indicator2"] == JStr(MultiAdjustedName(ind2))
    ensures "chartData" in r && r["chartData"] == JObj(MoreEntities.ChartData(MoreEntities.MultiRadar))
  {
    map["indicator1" := JStr(MultiAdjustedName(ind1)), "indicator2" := JStr(MultiAdjustedName(ind2)),
        "chartData" := JObj(map["type" := JStr("radar"), "multiDept" := JBool(true)])]
  }

  /** Comparing adjusted names gives the same result as comparing the raw ones. */
  lemma MultiCompareIgnoresSeparators(ind1: string, ind2: string)
    ensures MultiCompareIndicators(MultiAdjustedName(ind1), MultiAdjustedName(ind2)) == MultiCompareIndicators(ind1, ind2)
  {
    RemoveCharAbsent(MultiAdjustedName(ind1), '_');
    RemoveCharAbsent(MultiAdjustedName(ind2), '_');
  }
}
