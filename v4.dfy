/** The protocol-and-struct rewrite: every entity is a struct holding only its `dirname`
    and `basename`, and every default comes from a protocol extension. Nothing is cached:
    each access reads the file again. */
module V4 {
  import opened JsonModel
  import opened Text
  import opened Tables
  import opened Paths
  import opened Pages
  import opened Slides
  import Charts

  /** `readFromJSON()`: the entity's file under `data/JSON/` (or its own directory), when
      it holds a dictionary. */
  function ReadFromJson(fs: FileSystem, dirname: Option<string>, basename: string): Option<Obj> {
    fs.ReadJson(V4JsonFilename(dirname, basename))
  }

  /** `fetchSingleJSON(rebuild:)`: the file as it is now, whatever `rebuild` says. */
  function FetchSingleJson(fs: FileSystem, dirname: Option<string>, basename: string, rebuild: bool): (r: Option<Obj>)
    ensures r == fs.ReadJson(JsonFilename(dirname, basename, "data"))
  {
    ReadFromJson(fs, dirname, basename)
  }

  /** `reversedJSON()`: the keys of the file grouped by their String value, read afresh on
      every call; nothing when the file is missing. */
  method ReversedJson(fs: FileSystem, dirname: Option<string>, basename: string) returns (redict: map<string, seq<string>>)
    ensures fs.ReadJson(JsonFilename(dirname, basename, "data")).None? ==> redict == map[]
    ensures fs.ReadJson(JsonFilename(dirname, basename, "data")).Some? ==>
      IsGrouping(fs.ReadJson(JsonFilename(dirname, basename, "data")).value, redict)
  {
    var dictionary := FetchSingleJson(fs, dirname, basename, false);
    if dictionary.None? {
      return map[];
    }
    redict := GroupByStringValue(dictionary.value);
  }

  /** `院内资料库V4.localUnits()`, that is `dbDictKeys()`: the keys of the file, or none. */
  method LocalUnits(fs: FileSystem, dirname: Option<string>) returns (ks: seq<string>)
    ensures fs.ReadJson(JsonFilename(dirname, "院内资料库", "data")).None? ==> ks == []
    ensures fs.ReadJson(JsonFilename(dirname, "院内资料库", "data")).Some? ==>
      Enumerates(ks, fs.ReadJson(JsonFilename(dirname, "院内资料库", "data")).value.Keys)
  {
    var json := ReadFromJson(fs, dirname, "院内资料库");
    if json.None? {
      return [];
    }
    ks := KeysOf(json.value);
  }

  /** `项目设置V4` section accessors (`一级指标设置`, ..., `科室设置`): the nested section of
      `cso`, which is the settings file read on every access; empty when the file or the
      entry is missing or has the wrong shape. */
  function SettingsSectionV4(fs: FileSystem, dirname: Option<string>, key: string): (r: Obj)
    ensures fs.ReadJson(JsonFilename(dirname, "项目设置", "data")).None? ==> r == map[]
    ensures r != map[] ==> var cso := fs.ReadJson(JsonFilename(dirname, "项目设置", "data"));
      cso.Some? && key in cso.value && cso.value[key] == JObj(r) && AllObjects(r)
  {
    SectionAt(ReadFromJson(fs, dirname, "项目设置").GetOr(map[]), key)
  }

  /** Nothing is cached: once the settings file holds a section, the next access answers
      it, whatever the file held before. */
  lemma SettingsSectionFollowsFile(fs: FileSystem, dirname: Option<string>, key: string, rest: Obj, section: Obj)
    requires AllObjects(section)
    ensures var path := JsonFilename(dirname, "项目设置", "data");
      SettingsSectionV4(FileSystem(fs.files[path := Some(JObj(rest[key := JObj(section)]))]), dirname, key) == section
  {
    var path := JsonFilename(dirname, "项目设置", "data");
    var fs' := FileSystem(fs.files[path := Some(JObj(rest[key := JObj(section)]))]);
    assert fs'.ReadJson(path) == Some(rest[key := JObj(section)]);
  }

  // ------------------------------------------------------------------ text pages

  /** `page["content"] as? [String: Any]`, the empty dictionary when it is not one. */
  function ContentOf(page: Obj): Obj {
    if "content" in page && page["content"].JObj? then page["content"].fields else map[]
  }

  /** `textLines(page)`: two lines per entry of the page's content, the heading in size 14;
      no lines when the content is missing or not a dictionary. */
  method TextLines(page: Obj) returns (lines: seq<Obj>, order: seq<string>)
    ensures Enumerates(order, ContentOf(page).Keys)
    ensures lines == EntryLines(order, ContentOf(page), 14)
    ensures |lines| == 2 * |ContentOf(page)|
    ensures !("content" in page && page["content"].JObj?) ==> lines == []
  {
    lines, order := SectionLines(ContentOf(page), 14);
  }

  /** The default `pageTitle(page)`: the page's String "title", else "Page Title". */
  function PageTitle(page: Json): (r: string)
    ensures page.JObj? && "title" in page.fields && page.fields["title"].JStr? ==> r == page.fields["title"].s
    ensures !(page.JObj? && "title" in page.fields && page.fields["title"].JStr?) ==> r == "Page Title"
  {
    match page
    case JObj(p) => if "title" in p && p["title"].JStr? then p["title"].s else "Page Title"
    case _ => "Page Title"
  }

  /** `章节扉页V4.pageTitle(page)`: the first `_`-separated piece of the page's String
      "name" (the whole name when it has no piece), else "章节扉页". */
  function CoverPageTitle(page: Json): (r: string)
    ensures !(page.JObj? && "name" in page.fields && page.fields["name"].JStr?) ==> r == "章节扉页"
    ensures page.JObj? && "name" in page.fields && page.fields["name"].JStr? ==>
      var name := page.fields["name"].s;
      (Split(name, '_') == [] ==> r == name) && (Split(name, '_') != [] ==> r == Split(name, '_')[0] && '_' !in r)
  {
    if page.JObj? && "name" in page.fields && page.fields["name"].JStr? then
      var name := page.fields["name"].s;
      var pieces := Split(name, '_');
      if pieces == [] then name else pieces[0]
    else "章节扉页"
  }

  /** A name `a_b` is titled by its part before the first underscore. */
  lemma CoverTitleIsFirstPiece(a: string, b: string)
    requires a != [] && '_' !in a
    ensures CoverPageTitle(JObj(map["name" := JStr(a + "_" + b)])) == a
  {
    SplitAtSeparator(a, '_', b);
    SplitNoSeparator(a, '_');
  }

  const CoverOptions: Obj := map["fontSize" := JInt(32), "align" := JStr("right")]

  /** `章节扉页V4.slides`: one slide appended. It passes the section title, a String, to
      `pageTitle`, which only reads dictionaries, so the text is always "\n\n章节扉页". */
  function CoverSlides(pres: seq<Obj>, sectionTitle: string): (out: seq<Obj>)
    ensures |out| == |pres| + 1 && out[..|pres|] == pres
    ensures "text" in out[|pres|] && out[|pres|]["text"] == JStr("\n\n章节扉页")
    ensures "sectionTitle" in out[|pres|] && out[|pres|]["sectionTitle"] == JStr(sectionTitle)
  {
    var text := "\n\n" + CoverPageTitle(JStr(sectionTitle));
    assert text == "\n\n章节扉页";
    pres + [map[
      "sectionTitle" := JStr(sectionTitle),
      "text" := JStr(text),
      "textOptions" := JObj(CoverOptions)]]
  }

  /** A slide of a sectioned text page: the section title, the page title and its lines. */
  function PageSlide(sectionTitle: string, title: string, lines: seq<Obj>): Obj {
    map[
      "sectionTitle" := JStr(sectionTitle),
      "title" := JStr(title),
      "textLines" := JArr(seq(|lines|, i requires 0 <= i < |lines| => JObj(lines[i])))]
  }

  /** The slides `pages` give, 15 lines a slide. */
  function PageSlideCount(pages: seq<Obj>): nat {
    if pages == [] then 0
    else PageSlideCount(pages[..|pages| - 1]) + (2 * |ContentOf(pages[|pages| - 1])| + 14) / 15
  }

  lemma PageSlideCountStep(pages: seq<Obj>, p: nat)
    requires p < |pages|
    ensures PageSlideCount(pages[..p + 1]) == PageSlideCount(pages[..p]) + (2 * |ContentOf(pages[p])| + 14) / 15
  {
    assert pages[..p + 1][..p] == pages[..p];
  }

  /** Every slide cut from a page carries its text lines and the section title. */
  lemma PageSlidesCarryTitle(sectionTitle: string, title: string, chunks: seq<seq<Obj>>, mk: seq<Obj> -> Obj)
    requires forall c :: mk(c) == PageSlide(sectionTitle, title, c)
    ensures forall i :: 0 <= i < |chunks| ==>
      ("textLines" in MapPages(mk, chunks)[i] && "sectionTitle" in MapPages(mk, chunks)[i]
       && MapPages(mk, chunks)[i]["sectionTitle"] == JStr(sectionTitle))
  {
  }

  /** Appending keeps the front and puts `b` after it. */
  lemma AppendKeeps<T>(a: seq<T>, b: seq<T>)
    ensures (a + b)[..|a|] == a
    ensures forall i :: |a| <= i < |a + b| ==> (a + b)[i] == b[i - |a|]
  {
  }

  /** The page loop of `分节文本页面V4.slides`: every page's lines, 15 to a slide, each
      slide carrying the section title and the page's title. */
  method PagedTextSlides(pres: seq<Obj>, sectionTitle: string, pages: seq<Obj>) returns (out: seq<Obj>)
    ensures |out| == |pres| + PageSlideCount(pages) && out[..|pres|] == pres
    ensures forall i :: |pres| <= i < |out| ==> "textLines" in out[i] && "sectionTitle" in out[i] && out[i]["sectionTitle"] == JStr(sectionTitle)
  {
    out := pres;
    var p := 0;
    while p < |pages|
      invariant 0 <= p <= |pages|
      invariant |out| == |pres| + PageSlideCount(pages[..p]) && out[..|pres|] == pres
      invariant forall i :: |pres| <= i < |out| ==> "textLines" in out[i] && "sectionTitle" in out[i] && out[i]["sectionTitle"] == JStr(sectionTitle)
    {
      var page := pages[p];
      var lines, _ := TextLines(page);
      var title := PageTitle(JObj(page));
      var mk := chunk => PageSlide(sectionTitle, title, chunk);
      var before := out;
      out := Paginate(out, lines, 15, mk);
      ChunksCount(lines, 15);
      PageSlideCountStep(pages, p);
      var added := MapPages(mk, Chunks(lines, 15));
      PageSlidesCarryTitle(sectionTitle, title, Chunks(lines, 15), mk);
      AppendKeeps(before, added);
      p := p + 1;
    }
    assert pages[..p] == pages;
  }

  /** `分节文本页面V4.slides`: nothing without section data, and with it the page loop runs
      over the empty page list, so `pres` never changes. */
  method SectionedTextSlides(pres: seq<Obj>, sectionTitle: string, sectionData: Option<Obj>) returns (out: seq<Obj>)
    ensures out == pres
  {
    if sectionData.None? {
      return pres;
    }
    var pages: seq<Obj> := [];
    out := PagedTextSlides(pres, sectionTitle, pages);
  }

  // --------------------------------------------------------------- ranking table

  /** The row of an indicator: its name and the names among its first five units. */
  function RankingRowV4(indicator: string, v: Json): (r: seq<string>)
    requires v.JArr?
    ensures 1 <= |r| <= 6 && r[0] == indicator
  {
    [indicator] + UnitNames(Charts.Take(v.items, 5))
  }

  /** One row per unit array, in the order visited, even when no unit is named. */
  function RankingRowsV4(order: seq<string>, data: Obj): seq<seq<string>>
    requires forall k :: k in order ==> k in data
  {
    if order == [] then []
    else
      var last := order[|order| - 1];
      RankingRowsV4(order[..|order| - 1], data)
        + (if IsUnitArray(data[last]) then [RankingRowV4(last, data[last])] else [])
  }

  /** Each row belongs to an indicator holding a unit array and has at most 6 cells, and
      every such indicator has its row, once. */
  lemma RankingRowsV4Exact(order: seq<string>, data: Obj)
    requires Distinct(order)
    requires forall k :: k in order ==> k in data
    ensures forall r :: r in RankingRowsV4(order, data) ==>
      1 <= |r| <= 6 && r[0] in order && IsUnitArray(data[r[0]]) && r == RankingRowV4(r[0], data[r[0]])
    ensures forall k :: k in order && IsUnitArray(data[k]) ==> RankingRowV4(k, data[k]) in RankingRowsV4(order, data)
    ensures forall i, j :: 0 <= i < j < |RankingRowsV4(order, data)| ==>
      RankingRowsV4(order, data)[i][0] != RankingRowsV4(order, data)[j][0]
  {
    RowsV4Belong(order, data);
    RowsV4Complete(order, data);
    RowsV4Distinct(order, data);
  }

  lemma {:induction false} RowsV4Belong(order: seq<string>, data: Obj)
    requires forall k :: k in order ==> k in data
    ensures forall r :: r in RankingRowsV4(order, data) ==>
      1 <= |r| <= 6 && r[0] in order && IsUnitArray(data[r[0]]) && r == RankingRowV4(r[0], data[r[0]])
  {
    if order != [] {
      var init := order[..|order| - 1];
      RowsV4Belong(init, data);
      forall x | x in init ensures x in order {
        var j :| 0 <= j < |init| && init[j] == x;
        assert order[j] == x;
      }
    }
  }

  lemma {:induction false} RowsV4Complete(order: seq<string>, data: Obj)
    requires forall k :: k in order ==> k in data
    ensures forall k :: k in order && IsUnitArray(data[k]) ==> RankingRowV4(k, data[k]) in RankingRowsV4(order, data)
  {
    if order != [] {
      var init := order[..|order| - 1];
      var last := order[|order| - 1];
      RowsV4Complete(init, data);
      var rows := RankingRowsV4(order, data);
      forall k | k in order && IsUnitArray(data[k])
        ensures RankingRowV4(k, data[k]) in rows
      {
        if k != last {
          var j :| 0 <= j < |order| && order[j] == k;
          assert init[j] == k;
        } else {
          assert rows[|rows| - 1] == RankingRowV4(k, data[k]);
        }
      }
    }
  }

  lemma {:induction false} RowsV4Distinct(order: seq<string>, data: Obj)
    requires Distinct(order)
    requires forall k :: k in order ==> k in data
    ensures DistinctHeads(RankingRowsV4(order, data))
  {
    if order != [] {
      var init := order[..|order| - 1];
      var last := order[|order| - 1];
      assert Distinct(init);
      RowsV4Distinct(init, data);
      RowsV4Belong(init, data);
      assert last !in init by {
        forall j | 0 <= j < |init| ensures init[j] != last {
          assert init[j] == order[j];
        }
      }
      var before := RankingRowsV4(init, data);
      var extra := if IsUnitArray(data[last]) then [RankingRowV4(last, data[last])] else [];
      assert RankingRowsV4(order, data) == before + extra;
      AppendDistinctHead(before, extra, last);
    } else {
      assert RankingRowsV4(order, data) == [];
    }
  }

  /** `科室逐项指标排名表V4.slides`: nothing without section data; otherwise exactly one
      slide, whose table has one row per unit array. */
  method RankingSlidesV4(pres: seq<Obj>, sectionTitle: string, sectionData: Option<Obj>)
    returns (out: seq<Obj>, order: seq<string>)
    ensures sectionData.None? ==> out == pres
    ensures sectionData.Some? ==>
      Enumerates(order, sectionData.value.Keys)
      && out == pres + [TableSlide(sectionTitle, RankingTitles, RankingRowsV4(order, sectionData.value))]
  {
    order := [];
    if sectionData.None? {
      return pres, order;
    }
    var data := sectionData.value;
    order := KeysOf(data);
    var rows: seq<seq<string>> := [];
    var i := 0;
    while i < |order|
      invariant 0 <= i <= |order|
      invariant rows == RankingRowsV4(order[..i], data)
    {
      var indicator := order[i];
      var units := data[indicator];
      assert order[..i + 1][..i] == order[..i];
      if units.JArr? && forall j :: 0 <= j < |units.items| ==> units.items[j].JObj? {
        var names := NamesOf(Charts.Take(units.items, 5));
        rows := rows + [[indicator] + names];
      }
      i := i + 1;
    }
    assert order[..i] == order;
    out := pres + [TableSlide(sectionTitle, RankingTitles, rows)];
  }

  // ------------------------------------------------------------------ radar chart

  /** `雷达图报告V4.chartData()` */
  const RadarChart: Obj := map["type" := JStr("radar"), "title" := JStr("雷达图"), "data" := JArr([])]

  /** `雷达图报告V4.slides`: one slide with the radar chart. */
  function RadarSlides(pres: seq<Obj>, sectionTitle: string): (out: seq<Obj>)
    ensures |out| == |pres| + 1 && out[..|pres|] == pres
    ensures "chart" in out[|pres|] && out[|pres|]["chart"] == JObj(RadarChart)
  {
    pres + [map["sectionTitle" := JStr(sectionTitle), "title" := JStr(sectionTitle), "chart" := JObj(RadarChart)]]
  }
}
