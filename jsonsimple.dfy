/** `JSONSimple`: reading a data file as JSON when it is ready, falling back to the Excel
    source otherwise, and saving the converted data back as JSON. The disk is the one
    piece of state; the Excel reader itself is a placeholder that yields no rows. */
module Simple {
  import opened JsonModel
  import opened Paths

  /** The Excel source `jsonizedExcelData` reads: `opts["sourceFile"]` when given (nil when
      it is not a string), else the Excel path the options describe. */
  function SourceFile(opts: Obj): (r: Option<string>)
    ensures "sourceFile" !in opts ==> r == Some(OptsExcelFilename(opts))
    ensures "sourceFile" in opts ==> r == StrAt(opts, "sourceFile")
  {
    if "sourceFile" in opts then StrAt(opts, "sourceFile") else Some(OptsExcelFilename(opts))
  }

  /** The reader options: each of "sourceFile", "header" and "columnToKey" receives its
      default only when absent, and nothing given by the caller is changed. */
  function ExcelOptions(opts: Obj): (r: Obj)
    ensures r.Keys == opts.Keys + {"sourceFile", "header", "columnToKey"}
    ensures forall k :: k in opts ==> r[k] == opts[k]
    ensures "sourceFile" !in opts ==> r["sourceFile"] == JStr(OptsExcelFilename(opts))
    ensures "header" !in opts ==> r["header"] == JObj(map["rows" := if "headerRows" in opts then opts["headerRows"] else JInt(1)])
    ensures "columnToKey" !in opts ==> r["columnToKey"] == JObj(map["*" := JStr("{{columnHeader}}")])
  {
    var o1 := if "sourceFile" in opts then opts else opts["sourceFile" := JStr(OptsExcelFilename(opts))];
    var o2 := if "header" in opts then o1
              else o1["header" := JObj(map["rows" := if "headerRows" in opts then opts["headerRows"] else JInt(1)])];
    if "columnToKey" in opts then o2 else o2["columnToKey" := JObj(map["*" := JStr("{{columnHeader}}")])]
  }

  /** The two dictionaries hold the same entry, or none, under `k`. */
  predicate SameEntry(a: Obj, b: Obj, k: string) {
    (k in a <==> k in b) && (k in a ==> a[k] == b[k])
  }

  /** Options agreeing on the path keys give the same JSON path and the same readiness. */
  lemma PathKeysDecideReadiness(fs: FileSystem, opts: Obj, more: Obj)
    requires SameEntry(opts, more, "dirname") && SameEntry(opts, more, "basename")
    requires SameEntry(opts, more, "folder") && SameEntry(opts, more, "needToRewrite")
    ensures OptsJsonFilename(more) == OptsJsonFilename(opts)
    ensures OptsNeedsNoFix(fs, more) == OptsNeedsNoFix(fs, opts)
  {
    assert OptString(more, "dirname") == OptString(opts, "dirname");
    assert OptString(more, "basename") == OptString(opts, "basename");
    assert OptString(more, "folder") == OptString(opts, "folder");
    assert OptFlag(more, "needToRewrite") == OptFlag(opts, "needToRewrite");
  }

  /** The disk after `write2JSON(opts)`: `opts["obj"]` saved at the JSON path, unless there
      is no dictionary to save or the file is already ready. */
  function Written(fs: FileSystem, opts: Obj): (r: FileSystem)
    ensures ObjAt(opts, "obj").None? || OptsNeedsNoFix(fs, opts).isReady ==> r == fs
    ensures ObjAt(opts, "obj").Some? && !OptsNeedsNoFix(fs, opts).isReady ==>
      r.ReadJson(OptsJsonFilename(opts)) == ObjAt(opts, "obj")
    ensures forall p :: p != OptsJsonFilename(opts) ==> (p in r.files <==> p in fs.files)
    ensures forall p :: p != OptsJsonFilename(opts) && p in fs.files ==> r.files[p] == fs.files[p]
  {
    var obj := ObjAt(opts, "obj");
    if obj.Some? && !OptsNeedsNoFix(fs, opts).isReady then
      FileSystem(fs.files[OptsJsonFilename(opts) := Some(JObj(obj.value))])
    else fs
  }

  /** The disk after the Excel fallback: the (empty) converted data saved as JSON when
      the source exists. */
  function AfterExcelFallback(fs: FileSystem, opts: Obj): FileSystem {
    var src := SourceFile(opts);
    if src.Some? && fs.Exists(src.value) then Written(fs, ExcelOptions(opts)["obj" := JObj(map[])]) else fs
  }

  /** The disk after `getJSON(opts)`. */
  function AfterGetJson(fs: FileSystem, opts: Obj): FileSystem {
    if OptsNeedsNoFix(fs, opts).isReady then fs else AfterExcelFallback(fs, opts)
  }

  class Disk {
    var fs: FileSystem

    constructor (fs: FileSystem)
      ensures this.fs == fs
    {
      this.fs := fs;
    }

    /** `write2JSON(_:)` */
    method Write2Json(opts: Obj)
      modifies this
      ensures fs == Written(old(fs), opts)
    {
      var obj := ObjAt(opts, "obj");
      if obj.Some? {
        var readiness := OptsNeedsNoFix(fs, opts);
        if !readiness.isReady {
          fs := FileSystem(fs.files[readiness.jsonfilename := Some(JObj(obj.value))]);
        }
      }
    }

    /** `jsonizedExcelData(_:)`: always an empty dictionary, since the reader yields no rows;
        when the source exists that empty result is also saved as the JSON file. */
    method JsonizedExcelData(opts: Obj) returns (r: Obj)
      modifies this
      ensures r == map[]
      ensures fs == AfterExcelFallback(old(fs), opts)
    {
      var src := SourceFile(opts);
      if src.None? || !fs.Exists(src.value) {
        return map[];
      }
      var options := ExcelOptions(opts);
      var obj: Obj := map[];
      options := options["obj" := JObj(obj)];
      Write2Json(options);
      r := obj;
    }

    /** `getJSON(_:)`: the parsed file when ready, otherwise the Excel fallback. */
    method GetJson(opts: Obj) returns (r: Option<Obj>)
      modifies this
      ensures OptsNeedsNoFix(old(fs), opts).isReady ==> r == old(fs).ReadJson(OptsJsonFilename(opts))
      ensures !OptsNeedsNoFix(old(fs), opts).isReady ==> r == Some(map[])
      ensures fs == AfterGetJson(old(fs), opts)
    {
      var readiness := OptsNeedsNoFix(fs, opts);
      if readiness.isReady {
        r := fs.ReadJson(readiness.jsonfilename);
      } else {
        var obj := JsonizedExcelData(opts);
        r := Some(obj);
      }
    }
  }

  /** When the JSON file is not ready but its Excel source exists, `getJSON` saves an empty
      JSON file; unless a rewrite is forced, the next call then finds it ready and reads
      that empty dictionary. */
  lemma FallbackLeavesPlaceholder(fs: FileSystem, opts: Obj)
    requires !OptsNeedsNoFix(fs, opts).isReady
    requires SourceFile(opts).Some? && fs.Exists(SourceFile(opts).value)
    ensures AfterGetJson(fs, opts).ReadJson(OptsJsonFilename(opts)) == Some(map[])
    ensures !OptFlag(opts, "needToRewrite") ==> OptsNeedsNoFix(AfterGetJson(fs, opts), opts).isReady
  {
    var options := ExcelOptions(opts)["obj" := JObj(map[])];
    ExcelOptionsKeepPathKeys(opts, options);
    PathKeysDecideReadiness(fs, opts, options);
    assert ObjAt(options, "obj") == Some(map[]);
    var after := Written(fs, options);
    assert AfterGetJson(fs, opts) == after;
    assert after.ReadJson(OptsJsonFilename(opts)) == Some(map[]);
  }

  /** The reader options, with the converted data added, keep the path keys as given. */
  lemma ExcelOptionsKeepPathKeys(opts: Obj, options: Obj)
    requires options == ExcelOptions(opts)["obj" := JObj(map[])]
    ensures SameEntry(opts, options, "dirname") && SameEntry(opts, options, "basename")
    ensures SameEntry(opts, options, "folder") && SameEntry(opts, options, "needToRewrite")
  {
  }

  /** Without the Excel source nothing is written and the answer is the empty dictionary. */
  lemma MissingSourceChangesNothing(fs: FileSystem, opts: Obj)
    requires SourceFile(opts).None? || !fs.Exists(SourceFile(opts).value)
    ensures AfterGetJson(fs, opts) == fs
  {
  }

  /** A ready file is never overwritten by `write2JSON`. */
  lemma ReadyFileIsKept(fs: FileSystem, opts: Obj)
    requires OptsNeedsNoFix(fs, opts).isReady
    ensures Written(fs, opts) == fs
    ensures AfterGetJson(fs, opts) == fs
  {
  }
}
