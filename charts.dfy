/** `MakePPTReport.singleObjectCharts`: one chart per unit of a section, its labels the
    unit's field names (shortened to six characters) and its values the numeric fields, at
    most twelve of each. */
module Charts {
  import opened JsonModel

  /** `k.count < 7 ? k : k.prefix(5) + k.suffix(1)` */
  function ShortLabel(k: string): (r: string)
    ensures |r| <= 6
    ensures |k| < 7 ==> r == k
    ensures |k| >= 7 ==> |r| == 6 && r[..5] == k[..5] && r[5] == k[|k| - 1]
  {
    if |k| < 7 then k else k[..5] + [k[|k| - 1]]
  }

  /** At most the first `n` elements. */
  function Take<T>(s: seq<T>, n: nat): (r: seq<T>)
    ensures |r| == if |s| <= n then |s| else n
    ensures r == s[..|r|]
  {
    if |s| <= n then s else s[..n]
  }

  /** The labels of the fields visited in the order `order`. */
  function LabelsOf(order: seq<string>): (r: seq<string>)
    ensures |r| == |order|
    ensures forall i :: 0 <= i < |order| ==> r[i] == ShortLabel(order[i])
  {
    if order == [] then [] else LabelsOf(order[..|order| - 1]) + [ShortLabel(order[|order| - 1])]
  }

  /** The values of the numeric fields (`Double`, or `Int` converted) among those visited. */
  function NumbersOf(order: seq<string>, obj: Obj): (r: seq<real>)
    requires forall k :: k in order ==> k in obj
    ensures |r| <= |order|
  {
    if order == [] then []
    else
      var last := order[|order| - 1];
      NumbersOf(order[..|order| - 1], obj) + (if AsNumber(obj[last]).Some? then [AsNumber(obj[last]).value] else [])
  }

  /** A value is listed for every numeric field, so when all fields are numbers there are as
      many values as labels. */
  lemma {:induction false} NumbersOfAllNumeric(order: seq<string>, obj: Obj)
    requires forall k :: k in order ==> k in obj && AsNumber(obj[k]).Some?
    ensures |NumbersOf(order, obj)| == |order|
    ensures forall i :: 0 <= i < |order| ==> NumbersOf(order, obj)[i] == AsNumber(obj[order[i]]).value
  {
    if order != [] {
      NumbersOfAllNumeric(order[..|order| - 1], obj);
      forall i | 0 <= i < |order| - 1 ensures order[..|order| - 1][i] == order[i] {
      }
    }
  }

  datatype Chart = Chart(chartType: string, title: Json, name: string, labels: seq<string>, values: seq<real>)

  /** `c` is the chart of the unit `key` with fields `obj`: its labels and values come from
      the fields other than `unitNameLabel`, visited in some order. */
  ghost predicate IsChartOf(c: Chart, chartType: string, unitNameLabel: string, key: string, obj: Obj) {
    c.chartType == chartType
    && c.title == (if unitNameLabel in obj then obj[unitNameLabel] else JStr(key))
    && c.name == key
    && exists inner ::
         Enumerates(inner, obj.Keys - {unitNameLabel})
         && (forall k :: k in inner ==> k in obj)
         && c.labels == Take(LabelsOf(inner), 12)
         && c.values == Take(NumbersOf(inner, obj), 12)
  }

  /** Visiting one more field `k` appends its label, and its value when it is a number. */
  lemma FieldStep(inner: seq<string>, k: string, obj: Obj)
    requires forall j :: j in inner ==> j in obj
    requires k in obj && k !in inner && Distinct(inner)
    ensures LabelsOf(inner + [k]) == LabelsOf(inner) + [ShortLabel(k)]
    ensures NumbersOf(inner + [k], obj) == NumbersOf(inner, obj) + (if AsNumber(obj[k]).Some? then [AsNumber(obj[k]).value] else [])
    ensures Distinct(inner + [k])
  {
    var next := inner + [k];
    assert next[..|inner|] == inner && next[|inner|] == k;
    forall j | 0 <= j < |inner| ensures inner[j] != k {
      assert inner[j] in inner;
    }
  }

  /** The loop over one unit's fields: a label for every field but the unit name, a value
      for every numeric one, in the order `inner` the fields were visited. */
  method UnitFields(unitNameLabel: string, obj: Obj) returns (labels: seq<string>, values: seq<real>, inner: seq<string>)
    ensures Enumerates(inner, obj.Keys - {unitNameLabel}) && (forall k :: k in inner ==> k in obj)
    ensures labels == LabelsOf(inner) && values == NumbersOf(inner, obj)
  {
    labels := [];
    values := [];
    inner := [];
    var rem := obj.Keys;
    while rem != {}
      invariant rem <= obj.Keys
      invariant Visited(inner, rem, unitNameLabel, obj)
      invariant labels == LabelsOf(inner) && values == NumbersOf(inner, obj)
      decreases |rem|
    {
      var k :| k in rem;
      if k != unitNameLabel {
        var v := obj[k];
        var number := if v.JDouble? then [v.d] else if v.JInt? then [v.i as real] else [];
        VisitField(inner, rem, k, unitNameLabel, obj);
        labels := labels + [ShortLabel(k)];
        values := values + number;
        inner := inner + [k];
      } else {
        SkipField(inner, rem, k, obj);
      }
      rem := rem - {k};
    }
    VisitedAll(inner, unitNameLabel, obj);
  }

  /** The fields of one unit, then the cut to twelve: at most 12 labels of at most 6
      characters, never more values than labels. */
  method UnitChart(chartType: string, unitNameLabel: string, key: string, obj: Obj) returns (c: Chart)
    ensures IsChartOf(c, chartType, unitNameLabel, key, obj)
    ensures |c.labels| <= 12 && |c.values| <= 12 && |c.values| <= |c.labels|
    ensures forall i :: 0 <= i < |c.labels| ==> |c.labels[i]| <= 6
  {
    var labels, values, inner := UnitFields(unitNameLabel, obj);
    labels := Take(labels, 12);
    values := Take(values, 12);
    c := Chart(chartType, if unitNameLabel in obj then obj[unitNameLabel] else JStr(key), key, labels, values);
    ChartOfOrder(c, unitNameLabel, obj, inner);
  }

  /** The fields visited so far, in the order `inner`: those of `obj` that are neither left
      in `rem` nor the unit-name field, each once. */
  ghost predicate Visited(inner: seq<string>, rem: set<string>, unitNameLabel: string, obj: Obj) {
    Distinct(inner) && forall k :: k in inner <==> k in obj && k !in rem && k != unitNameLabel
  }

  /** Visiting the field `k` extends the order and appends its label and, when it is a
      number, its value. */
  lemma VisitField(inner: seq<string>, rem: set<string>, k: string, unitNameLabel: string, obj: Obj)
    requires rem <= obj.Keys && k in rem && k != unitNameLabel
    requires Visited(inner, rem, unitNameLabel, obj)
    ensures Visited(inner + [k], rem - {k}, unitNameLabel, obj)
    ensures LabelsOf(inner + [k]) == LabelsOf(inner) + [ShortLabel(k)]
    ensures NumbersOf(inner + [k], obj) == NumbersOf(inner, obj)
      + (if obj[k].JDouble? then [obj[k].d] else if obj[k].JInt? then [obj[k].i as real] else [])
  {
    FieldStep(inner, k, obj);
  }

  /** Passing over the unit-name field leaves the order as it is. */
  lemma SkipField(inner: seq<string>, rem: set<string>, k: string, obj: Obj)
    requires Visited(inner, rem, k, obj)
    ensures Visited(inner, rem - {k}, k, obj)
  {
  }

  /** With nothing left, the order enumerates every field but the unit name. */
  lemma VisitedAll(inner: seq<string>, unitNameLabel: string, obj: Obj)
    requires Visited(inner, {}, unitNameLabel, obj)
    ensures Enumerates(inner, obj.Keys - {unitNameLabel})
  {
  }

  /** A chart cut from the fields in the order `inner` is a chart of the unit, within the
      bounds. */
  lemma ChartOfOrder(c: Chart, unitNameLabel: string, obj: Obj, inner: seq<string>)
    requires Enumerates(inner, obj.Keys - {unitNameLabel})
    requires c.title == (if unitNameLabel in obj then obj[unitNameLabel] else JStr(c.name))
    requires c.labels == Take(LabelsOf(inner), 12) && c.values == Take(NumbersOf(inner, obj), 12)
    ensures IsChartOf(c, c.chartType, unitNameLabel, c.name, obj)
    ensures |c.labels| <= 12 && |c.values| <= 12 && |c.values| <= |c.labels|
    ensures forall i :: 0 <= i < |c.labels| ==> |c.labels[i]| <= 6
  {
    assert forall k :: k in inner ==> k in obj;
  }

  /** The settings a section must carry: its chart type and the unit-name field. */
  datatype ChartSettings = ChartSettings(chartType: string, unitNameLabel: string, data: Obj)

  /** The guards of `singleObjectCharts`: a dictionary with a "settings" dictionary holding
      a String "chartType", and a "data" dictionary. */
  predicate GuardsHold(json: Json) {
    json.JObj?
    && "settings" in json.fields && json.fields["settings"].JObj?
    && "chartType" in json.fields["settings"].fields && json.fields["settings"].fields["chartType"].JStr?
    && "data" in json.fields && json.fields["data"].JObj?
  }

  /** `settings["unitNameLabel"] as? String ?? "科室名"`: the configured name field when it
      is a String, "科室名" otherwise. */
  function UnitNameLabel(settings: Obj): (r: string)
    ensures ("unitNameLabel" in settings && settings["unitNameLabel"].JStr?) ==> r == settings["unitNameLabel"].s
    ensures !("unitNameLabel" in settings && settings["unitNameLabel"].JStr?) ==> r == "科室名"
  {
    if "unitNameLabel" in settings && settings["unitNameLabel"].JStr? then settings["unitNameLabel"].s else "科室名"
  }

  /** What the guards of `singleObjectCharts` bind, when they all pass. */
  function SettingsOf(json: Json): (r: Option<ChartSettings>)
    ensures r.Some? <==> GuardsHold(json)
    ensures r.Some? ==> r.value.data == json.fields["data"].fields
    ensures r.Some? ==> r.value.chartType == json.fields["settings"].fields["chartType"].s
    ensures r.Some? ==> r.value.unitNameLabel == UnitNameLabel(json.fields["settings"].fields)
  {
    if !json.JObj? then None
    else
      var m := json.fields;
      if !("settings" in m && m["settings"].JObj?) then None
      else
        var settings := m["settings"].fields;
        if !("chartType" in settings && settings["chartType"].JStr? && "data" in m && m["data"].JObj?) then None
        else
          Some(ChartSettings(settings["chartType"].s, UnitNameLabel(settings), m["data"].fields))
  }

  /** The units of the data that are dictionaries. */
  function UnitKeys(data: Obj): set<string> {
    set k | k in data && data[k].JObj?
  }

  /** `singleObjectCharts(opts)` with `opts["json"]` as `json`: nothing when a guard fails;
      otherwise one chart per dictionary unit (other units are skipped), in the data's
      iteration order. The charts are what it prints. */
  method SingleObjectCharts(json: Json) returns (charts: seq<Chart>, order: seq<string>)
    ensures SettingsOf(json).None? ==> charts == []
    ensures SettingsOf(json).Some? ==>
      var s := SettingsOf(json).value;
      Enumerates(order, UnitKeys(s.data))
      && |charts| == |order|
      && forall i :: 0 <= i < |charts| ==>
           order[i] in s.data && s.data[order[i]].JObj?
           && IsChartOf(charts[i], s.chartType, s.unitNameLabel, order[i], s.data[order[i]].fields)
    ensures forall i :: 0 <= i < |charts| ==>
      |charts[i].labels| <= 12 && |charts[i].values| <= |charts[i].labels|
  {
    charts := [];
    order := [];
    var settings := SettingsOf(json);
    if settings.None? {
      return;
    }
    var s := settings.value;
    var rem := s.data.Keys;
    while rem != {}
      invariant rem <= s.data.Keys
      invariant Distinct(order) && |charts| == |order|
      invariant forall k :: k in order <==> k in UnitKeys(s.data) && k !in rem
      invariant forall i :: 0 <= i < |charts| ==>
        order[i] in s.data && s.data[order[i]].JObj?
        && IsChartOf(charts[i], s.chartType, s.unitNameLabel, order[i], s.data[order[i]].fields)
      invariant forall i :: 0 <= i < |charts| ==> |charts[i].labels| <= 12 && |charts[i].values| <= |charts[i].labels|
      decreases |rem|
    {
      var key :| key in rem;
      var obj := s.data[key];
      if obj.JObj? {
        var c := UnitChart(s.chartType, s.unitNameLabel, key, obj.fields);
        charts := charts + [c];
        order := order + [key];
      }
      rem := rem - {key};
    }
  }
}
