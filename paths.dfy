/** Where the generator keeps its files: the JSON, Excel and PPT path rules of every
    copy of the file layer, and the readiness test that decides whether a JSON file is
    read back or rebuilt. */
module Paths {
  import opened JsonModel
  import opened Text

  /** The directory a file goes to: the explicit `dirname` whenever one is given (even an
      empty one), otherwise the `<folder>/<kind>` sub-directory. */
  function Directory(dirname: Option<string>, folder: string, kind: string): (r: string)
    ensures dirname.Some? ==> r == dirname.value
    ensures dirname.None? ==> StartsWith(r, folder + "/") && EndsWith(r, "/" + kind)
  {
    match dirname
    case Some(d) => d
    case None => folder + "/" + kind
  }

  /** `path` is the file `file` inside the directory `dir`. */
  predicate InDirectory(path: string, dir: string, file: string) {
    StartsWith(path, dir + "/") && EndsWith(path, file) && |path| == |dir| + 1 + |file|
  }

  /** The file part of a path is determined by the path and its directory. */
  lemma InDirectoryDeterminesPath(p: string, q: string, dir: string, file: string)
    requires InDirectory(p, dir, file) && InDirectory(q, dir, file)
    ensures p == q
  {
    assert p == p[..|dir| + 1] + p[|dir| + 1..];
    assert q == q[..|dir| + 1] + q[|dir| + 1..];
  }

  lemma JoinInDirectory(dir: string, file: string)
    ensures InDirectory(dir + "/" + file, dir, file)
  {
    var p := dir + "/" + file;
    assert p[..|dir + "/"|] == dir + "/";
    assert p[|p| - |file|..] == file;
  }

  /** `<folder>/<kind>/` spelled with the literal `sub` for "/<kind>/". */
  lemma SubdirJoin(folder: string, kind: string, sub: string)
    requires sub == "/" + kind + "/"
    ensures folder + "/" + kind + "/" == folder + sub
  {
    assert (folder + "/" + kind + "/") == folder + ("/" + kind + "/");
  }

  /** The literal spellings of the kind sub-directories. */
  lemma KindLiterals()
    ensures "/JSON/" == "/" + "JSON" + "/" && "/Excel/" == "/" + "Excel" + "/" && "/PPT/" == "/" + "PPT" + "/"
  {
  }

  // ---------------------------------------------------------------------------
  // The protocol copy (FileHandling.swift)
  // ---------------------------------------------------------------------------

  /** `getJSONFilename(folder:)`: `<basename>.json` in the entity's directory. */
  function JsonFilename(dirname: Option<string>, basename: string, folder: string): (r: string)
    ensures InDirectory(r, Directory(dirname, folder, "JSON"), basename + ".json")
  {
    JoinInDirectory(Directory(dirname, folder, "JSON"), basename + ".json");
    Directory(dirname, folder, "JSON") + "/" + basename + ".json"
  }

  /** The Excel stem: the basename, with "_bu" appended for a save-as copy. */
  function ExcelStem(basename: string, saveAs: bool): (r: string)
    ensures StartsWith(r, basename)
    ensures saveAs <==> |r| == |basename| + 3
  {
    if saveAs then basename + "_bu" else basename
  }

  /** `getExcelFilename(folder:saveAs:)` */
  function ExcelFilename(dirname: Option<string>, basename: string, folder: string, saveAs: bool): (r: string)
    ensures InDirectory(r, Directory(dirname, folder, "Excel"), ExcelStem(basename, saveAs) + ".xlsx")
  {
    JoinInDirectory(Directory(dirname, folder, "Excel"), ExcelStem(basename, saveAs) + ".xlsx");
    Directory(dirname, folder, "Excel") + "/" + ExcelStem(basename, saveAs) + ".xlsx"
  }

  /** `getPPTFilename(folder:generator:)`: `<basename>.<generator>.pptx`. */
  function PptFilename(dirname: Option<string>, basename: string, folder: string, generator: string): (r: string)
    ensures InDirectory(r, Directory(dirname, folder, "PPT"), basename + "." + generator + ".pptx")
  {
    JoinInDirectory(Directory(dirname, folder, "PPT"), basename + "." + generator + ".pptx");
    Directory(dirname, folder, "PPT") + "/" + basename + "." + generator + ".pptx"
  }

  /** A save-as Excel path is the plain path of the basename with "_bu" appended, and it
      never coincides with the plain path. */
  lemma ExcelSaveAsIsBackup(dirname: Option<string>, basename: string, folder: string)
    ensures ExcelFilename(dirname, basename, folder, true) == ExcelFilename(dirname, basename + "_bu", folder, false)
    ensures ExcelFilename(dirname, basename, folder, true) != ExcelFilename(dirname, basename, folder, false)
  {
    assert |ExcelFilename(dirname, basename, folder, true)| == |ExcelFilename(dirname, basename, folder, false)| + 3;
  }

  /** The JSON and the plain Excel file of an entity share their directory only when a
      dirname is given; without one they live in the parallel `JSON` and `Excel` folders. */
  lemma JsonAndExcelSideBySide(dirname: Option<string>, basename: string, folder: string)
    ensures dirname.Some? ==>
      JsonFilename(dirname, basename, folder)[..|JsonFilename(dirname, basename, folder)| - 5]
      == ExcelFilename(dirname, basename, folder, false)[..|ExcelFilename(dirname, basename, folder, false)| - 5]
  {
    if dirname.Some? {
      var j := JsonFilename(dirname, basename, folder);
      var x := ExcelFilename(dirname, basename, folder, false);
      assert j[..|j| - 5] == dirname.value + "/" + basename;
      assert x[..|x| - 5] == dirname.value + "/" + basename;
    }
  }

  /** `jsonfileNeedsNoFix`: the JSON path and whether it can be read as it is. */
  datatype Readiness = Readiness(jsonfilename: string, isReady: bool)

  /** A file is ready exactly when it exists and no rewrite was asked for. */
  function NeedsNoFix(fs: FileSystem, jsonfilename: string, needToRewrite: bool): (r: Readiness)
    ensures r.jsonfilename == jsonfilename
    ensures r.isReady <==> fs.Exists(jsonfilename) && !needToRewrite
  {
    Readiness(jsonfilename, fs.Exists(jsonfilename) && !needToRewrite)
  }

  /** A rewrite request makes every file unready, whatever is on disk. */
  lemma RewriteNeverReady(fs: FileSystem, jsonfilename: string)
    ensures !NeedsNoFix(fs, jsonfilename, true).isReady
  {
  }

  /** The readiness-guarded read shared by the handlers and entity base classes:
      the parsed file when it is ready, an empty dictionary (never nil) when it is not. */
  function ReadIfReady(fs: FileSystem, jsonfilename: string, needToRewrite: bool): (r: Option<Obj>)
    ensures !NeedsNoFix(fs, jsonfilename, needToRewrite).isReady ==> r == Some(map[])
    ensures NeedsNoFix(fs, jsonfilename, needToRewrite).isReady ==> r == fs.ReadJson(jsonfilename)
    ensures r.None? ==> fs.Exists(jsonfilename) && !needToRewrite
  {
    if NeedsNoFix(fs, jsonfilename, needToRewrite).isReady then fs.ReadJson(jsonfilename) else Some(map[])
  }

  /** With a rewrite request the guarded read is always the empty dictionary. */
  lemma RewriteReadsEmpty(fs: FileSystem, jsonfilename: string)
    ensures ReadIfReady(fs, jsonfilename, true) == Some(map[])
  {
    RewriteNeverReady(fs, jsonfilename);
  }

  // ---------------------------------------------------------------------------
  // The option-dictionary copy (JSONSimple.swift, reused by JSONDatabase)
  // ---------------------------------------------------------------------------

  /** `opts[k] as? String` */
  function OptString(opts: Obj, k: string): Option<string> {
    StrAt(opts, k)
  }

  /** `opts[k] as? Bool ?? false` */
  function OptFlag(opts: Obj, k: string): bool {
    BoolAt(opts, k).GetOr(false)
  }

  /** `JSONSimple.getJSONFilename`: folder defaults to "data", basename to "". */
  function OptsJsonFilename(opts: Obj): string {
    JsonFilename(OptString(opts, "dirname"), OptString(opts, "basename").GetOr(""),
                 OptString(opts, "folder").GetOr("data"))
  }

  /** `JSONSimple.getExcelFilename`: the stem gets "_bu" for `saveAs`; with a dirname,
      `basenameOnly` drops the extension; without one, `outfolder` overrides `folder`. */
  function OptsExcelFilename(opts: Obj): string {
    var dirname := OptString(opts, "dirname");
    var folder := OptString(opts, "folder").GetOr("data");
    var fd := OptString(opts, "outfolder").GetOr(folder);
    var name := ExcelStem(OptString(opts, "basename").GetOr(""), OptFlag(opts, "saveAs"));
    if dirname.Some? && OptFlag(opts, "basenameOnly") then dirname.value + "/" + name
    else ExcelFilename(dirname, name, fd, false)
  }

  /** `JSONSimple.getPPTFilename`: folder defaults to "outputs", generator tag to "". */
  function OptsPptFilename(opts: Obj): string {
    PptFilename(OptString(opts, "dirname"), OptString(opts, "basename").GetOr(""),
                OptString(opts, "folder").GetOr("outputs"), OptString(opts, "gen").GetOr(""))
  }

  /** `JSONSimple.jsonfileNeedsNoFix` */
  function OptsNeedsNoFix(fs: FileSystem, opts: Obj): (r: Readiness)
    ensures r.jsonfilename == OptsJsonFilename(opts)
    ensures r.isReady <==> fs.Exists(OptsJsonFilename(opts)) && !OptFlag(opts, "needToRewrite")
  {
    NeedsNoFix(fs, OptsJsonFilename(opts), OptFlag(opts, "needToRewrite"))
  }

  /** `basenameOnly` drops the extension only when a dirname is given, and `outfolder`
      replaces the folder only when there is none. */
  lemma OptsExcelFlagsScope(opts: Obj, outfolder: string)
    requires OptString(opts, "dirname").Some?
    ensures OptsExcelFilename(opts["outfolder" := JStr(outfolder)]) == OptsExcelFilename(opts)
    ensures OptsExcelFilename(opts["basenameOnly" := JBool(true)]) + ".xlsx"
            == OptsExcelFilename(opts["basenameOnly" := JBool(false)])
  {
    var o1 := opts["outfolder" := JStr(outfolder)];
    assert OptString(o1, "dirname") == OptString(opts, "dirname");
    assert OptString(o1, "basename") == OptString(opts, "basename");
    assert OptFlag(o1, "saveAs") == OptFlag(opts, "saveAs");
    assert OptFlag(o1, "basenameOnly") == OptFlag(opts, "basenameOnly");
    var d := OptString(opts, "dirname").value;
    var t := opts["basenameOnly" := JBool(true)];
    var f := opts["basenameOnly" := JBool(false)];
    assert OptString(t, "dirname") == Some(d) && OptString(f, "dirname") == Some(d);
    assert OptString(t, "basename") == OptString(opts, "basename") == OptString(f, "basename");
    assert OptFlag(t, "saveAs") == OptFlag(opts, "saveAs") == OptFlag(f, "saveAs");
    var name := ExcelStem(OptString(opts, "basename").GetOr(""), OptFlag(opts, "saveAs"));
    assert OptsExcelFilename(t) == d + "/" + name;
    assert OptsExcelFilename(f) == ExcelFilename(Some(d), name, OptString(f, "outfolder").GetOr(OptString(f, "folder").GetOr("data")), false);
  }

  /** Without a dirname, `basenameOnly` changes nothing. */
  lemma OptsExcelBasenameOnlyNeedsDirname(opts: Obj)
    requires OptString(opts, "dirname").None?
    ensures OptsExcelFilename(opts["basenameOnly" := JBool(true)]) == OptsExcelFilename(opts["basenameOnly" := JBool(false)])
  {
    var t := opts["basenameOnly" := JBool(true)];
    var f := opts["basenameOnly" := JBool(false)];
    OtherOptionsKept(opts, "basenameOnly", JBool(true));
    OtherOptionsKept(opts, "basenameOnly", JBool(false));
    OptsExcelWithoutDirname(t);
    OptsExcelWithoutDirname(f);
  }

  /** Without a dirname the Excel path is the `<folder>/Excel` rule, whatever
      `basenameOnly` says. */
  lemma OptsExcelWithoutDirname(opts: Obj)
    requires OptString(opts, "dirname").None?
    ensures OptsExcelFilename(opts)
      == ExcelFilename(None, ExcelStem(OptString(opts, "basename").GetOr(""), OptFlag(opts, "saveAs")),
                       OptString(opts, "outfolder").GetOr(OptString(opts, "folder").GetOr("data")), false)
  {
  }

  /** Setting one option leaves the others as they were. */
  lemma OtherOptionsKept(opts: Obj, k: string, v: Json)
    ensures forall j :: j != k ==> OptString(opts[k := v], j) == OptString(opts, j)
    ensures forall j :: j != k ==> OptFlag(opts[k := v], j) == OptFlag(opts, j)
  {
  }

  /** An empty dirname still counts as given: the file lands at the root. */
  lemma EmptyDirnameIsRoot(opts: Obj)
    requires OptString(opts, "dirname") == Some("")
    ensures OptsJsonFilename(opts) == "/" + OptString(opts, "basename").GetOr("") + ".json"
  {
  }

  /** `PPTXGenUtils.getPPTFilename`: the JSONSimple rule with the tag forced to "pg". */
  function PptxGenFilename(opts: Obj): (r: string)
    ensures r == PptFilename(OptString(opts, "dirname"), OptString(opts, "basename").GetOr(""),
                             OptString(opts, "folder").GetOr("outputs"), "pg")
  {
    var o := opts["gen" := JStr("pg")];
    assert OptString(o, "dirname") == OptString(opts, "dirname");
    assert OptString(o, "basename") == OptString(opts, "basename");
    assert OptString(o, "folder") == OptString(opts, "folder");
    OptsPptFilename(o)
  }

  /** The option dictionaries of the file layer's tests. */
  const TestOpts: Obj := map["dirname" := JStr("/test/path"), "basename" := JStr("testfile")]
  const TestSaveAsOpts: Obj := TestOpts["saveAs" := JBool(true)]

  /** The concrete paths the file layer's tests expect. */
  lemma OptsJsonExample()
    ensures OptsJsonFilename(TestOpts) == "/test/path/testfile.json"
  {
    assert OptString(TestOpts, "dirname") == Some("/test/path");
    assert OptString(TestOpts, "basename") == Some("testfile");
  }

  /** The string options `TestOpts` holds, and the folder it leaves out. */
  lemma TestOptsStrings()
    ensures OptString(TestOpts, "dirname") == Some("/test/path")
    ensures OptString(TestOpts, "basename") == Some("testfile")
    ensures OptString(TestOpts, "folder") == None
  {
  }

  lemma PptxGenExample()
    ensures PptxGenFilename(TestOpts) == "/test/path/testfile.pg.pptx"
  {
    TestOptsStrings();
    var p := PptFilename(Some("/test/path"), "testfile", "outputs", "pg");
    assert PptxGenFilename(TestOpts) == p;
    assert p == "/test/path" + "/" + "testfile" + "." + "pg" + ".pptx";
    PptxGenLiteral();
  }

  lemma PptxGenLiteral()
    ensures "/test/path" + "/" + "testfile" + "." + "pg" + ".pptx" == "/test/path/testfile.pg.pptx"
  {
  }

  lemma OptsExcelSaveAsExample()
    ensures OptsExcelFilename(TestSaveAsOpts) == "/test/path/testfile_bu.xlsx"
  {
    TestSaveAsOptions();
    assert ExcelStem("testfile", true) == "testfile" + "_bu";
    var p := ExcelFilename(Some("/test/path"), "testfile" + "_bu", "data", false);
    assert OptsExcelFilename(TestSaveAsOpts) == p;
    assert p == "/test/path" + "/" + ("testfile" + "_bu") + ".xlsx";
    ExcelSaveAsLiteral();
  }

  /** The options `TestSaveAsOpts` holds, and those it leaves out. */
  lemma TestSaveAsOptions()
    ensures OptString(TestSaveAsOpts, "dirname") == Some("/test/path")
    ensures OptString(TestSaveAsOpts, "basename") == Some("testfile")
    ensures OptString(TestSaveAsOpts, "folder") == None && OptString(TestSaveAsOpts, "outfolder") == None
    ensures OptFlag(TestSaveAsOpts, "saveAs") && !OptFlag(TestSaveAsOpts, "basenameOnly")
  {
    assert "basenameOnly" !in TestSaveAsOpts;
  }

  lemma ExcelSaveAsLiteral()
    ensures "/test/path" + "/" + ("testfile" + "_bu") + ".xlsx" == "/test/path/testfile_bu.xlsx"
  {
  }

  // ---------------------------------------------------------------------------
  // The enum copy (CoreEntities.swift `FileTools`)
  // ---------------------------------------------------------------------------

  /** `FileTools.getJSONFilename`: the same rule as the JSONSimple copy. */
  function ToolsJsonFilename(opts: Obj): (r: string)
    ensures r == OptsJsonFilename(opts)
  {
    var dirname := OptString(opts, "dirname");
    var folder := OptString(opts, "folder").GetOr("data");
    var basename := OptString(opts, "basename").GetOr("");
    KindLiterals();
    SubdirJoin(folder, "JSON", "/JSON/");
    if dirname.Some? then dirname.value + "/" + basename + ".json"
    else folder + "/JSON/" + basename + ".json"
  }

  /** `FileTools.getExcelFilename`: no save-as copy and no output folder. */
  function ToolsExcelFilename(opts: Obj): (r: string)
    ensures r == ExcelFilename(OptString(opts, "dirname"), OptString(opts, "basename").GetOr(""),
                               OptString(opts, "folder").GetOr("data"), false)
  {
    var dirname := OptString(opts, "dirname");
    var folder := OptString(opts, "folder").GetOr("data");
    var basename := OptString(opts, "basename").GetOr("");
    KindLiterals();
    SubdirJoin(folder, "Excel", "/Excel/");
    if dirname.Some? then dirname.value + "/" + basename + ".xlsx"
    else folder + "/Excel/" + basename + ".xlsx"
  }

  /** `FileTools` ignores `saveAs`: it never produces the "_bu" copy the JSONSimple rule does. */
  lemma ToolsExcelIgnoresSaveAs(opts: Obj)
    ensures ToolsExcelFilename(opts["saveAs" := JBool(true)]) == ToolsExcelFilename(opts)
    ensures OptString(opts, "dirname").None? && OptString(opts, "outfolder").None? ==>
      OptsExcelFilename(opts["saveAs" := JBool(true)]) != ToolsExcelFilename(opts)
  {
    var o := opts["saveAs" := JBool(true)];
    assert OptString(o, "dirname") == OptString(opts, "dirname");
    assert OptString(o, "basename") == OptString(opts, "basename");
    assert OptString(o, "folder") == OptString(opts, "folder");
    if OptString(opts, "dirname").None? && OptString(opts, "outfolder").None? {
      assert OptString(o, "outfolder").None?;
      var b := OptString(opts, "basename").GetOr("");
      var f := OptString(opts, "folder").GetOr("data");
      assert OptsExcelFilename(o) == ExcelFilename(None, b + "_bu", f, false);
      assert |OptsExcelFilename(o)| == |ToolsExcelFilename(opts)| + 3;
    }
  }

  const ToolsDirOpts: Obj := map["dirname" := JStr("/path/to/dir"), "basename" := JStr("项目设置")]
  const ToolsPlainOpts: Obj := map["basename" := JStr("指标导向库")]

  lemma ToolsPathExamples()
    ensures ToolsJsonFilename(ToolsDirOpts) == "/path/to/dir/项目设置.json"
    ensures ToolsJsonFilename(ToolsPlainOpts) == "data/JSON/指标导向库.json"
  {
    ToolsOptions();
    ToolsLiterals();
  }

  /** The options of the two `FileTools` examples. */
  lemma ToolsOptions()
    ensures OptString(ToolsDirOpts, "dirname") == Some("/path/to/dir")
    ensures OptString(ToolsDirOpts, "basename") == Some("项目设置")
    ensures OptString(ToolsPlainOpts, "dirname") == None && OptString(ToolsPlainOpts, "folder") == None
    ensures OptString(ToolsPlainOpts, "basename") == Some("指标导向库")
  {
    assert "dirname" !in ToolsPlainOpts && "folder" !in ToolsPlainOpts;
  }

  lemma ToolsLiterals()
    ensures "/path/to/dir" + "/" + "项目设置" + ".json" == "/path/to/dir/项目设置.json"
    ensures "data" + "/JSON/" + "指标导向库" + ".json" == "data/JSON/指标导向库.json"
  {
  }

  // ---------------------------------------------------------------------------
  // The protocol-chain copy (V4ProtocolStruct.swift) and the class-chain copy
  // (InheritanceProblem.swift)
  // ---------------------------------------------------------------------------

  /** V4 default JSON path: the folder is fixed to "data". */
  function V4JsonFilename(dirname: Option<string>, basename: string): (r: string)
    ensures r == JsonFilename(dirname, basename, "data")
  {
    DefaultDirs();
    if dirname.Some? then dirname.value + "/" + basename + ".json" else "data/JSON/" + basename + ".json"
  }

  /** V4 default Excel path. */
  function V4ExcelFilename(dirname: Option<string>, basename: string, saveAs: bool): (r: string)
    ensures r == ExcelFilename(dirname, basename, "data", saveAs)
  {
    var name := if saveAs then basename + "_bu" else basename;
    DefaultDirs();
    if dirname.Some? then dirname.value + "/" + name + ".xlsx" else "data/Excel/" + name + ".xlsx"
  }

  /** V4 default PPT path: the folder is fixed to "outputs". */
  function V4PptFilename(dirname: Option<string>, basename: string, generator: string): (r: string)
    ensures r == PptFilename(dirname, basename, "outputs", generator)
  {
    DefaultDirs();
    if dirname.Some? then dirname.value + "/" + basename + "." + generator + ".pptx"
    else "outputs/PPT/" + basename + "." + generator + ".pptx"
  }

  /** The default sub-directories, spelled out. */
  lemma DefaultDirs()
    ensures "data/JSON/" == "data" + "/" + "JSON" + "/" && "data/Excel/" == "data" + "/" + "Excel" + "/"
    ensures "outputs/PPT/" == "outputs" + "/" + "PPT" + "/"
  {
    KindLiterals();
    SubdirJoin("data", "JSON", "/JSON/");
    SubdirJoin("data", "Excel", "/Excel/");
    SubdirJoin("outputs", "PPT", "/PPT/");
    assert "data/JSON/" == "data" + "/JSON/" && "data/Excel/" == "data" + "/Excel/";
    assert "outputs/PPT/" == "outputs" + "/PPT/";
  }

  lemma V4DefaultPathExamples()
    ensures V4JsonFilename(None, "test") == "data/JSON/test.json"
    ensures V4ExcelFilename(None, "test", false) == "data/Excel/test.xlsx"
    ensures V4PptFilename(None, "test", "pg") == "outputs/PPT/test.pg.pptx"
  {
    V4DefaultLiterals();
  }

  lemma V4DefaultLiterals()
    ensures "data/JSON/" + "test" + ".json" == "data/JSON/test.json"
    ensures "data/Excel/" + "test" + ".xlsx" == "data/Excel/test.xlsx"
    ensures "outputs/PPT/" + "test" + "." + "pg" + ".pptx" == "outputs/PPT/test.pg.pptx"
  {
  }

  /** `JSONSimple完整版.getJSONFilename`: the basename defaults to the class name. */
  function ClassJsonFilename(opts: Obj, className: string): (r: string)
    ensures r == JsonFilename(OptString(opts, "dirname"), OptString(opts, "basename").GetOr(className),
                              OptString(opts, "folder").GetOr("data"))
  {
    var dirname := OptString(opts, "dirname");
    var folder := OptString(opts, "folder").GetOr("data");
    var basename := OptString(opts, "basename").GetOr(className);
    KindLiterals();
    SubdirJoin(folder, "JSON", "/JSON/");
    if dirname.Some? then dirname.value + "/" + basename + ".json" else folder + "/JSON/" + basename + ".json"
  }

  /** With an explicit basename the class-chain rule and the JSONSimple rule agree. */
  lemma ClassJsonAgreesWhenNamed(opts: Obj, className: string)
    requires OptString(opts, "basename").Some?
    ensures ClassJsonFilename(opts, className) == OptsJsonFilename(opts)
  {
  }

  /** `dbfilenm`: the database file named after the class, in the working directory. */
  function DbFilename(className: string): (r: string)
    ensures EndsWith(r, ".json") && r[..|r| - 5] == className
  {
    className + ".json"
  }

  // ---------------------------------------------------------------------------
  // The composed-protocol copy (MultiProtocolAdvantage.swift)
  // ---------------------------------------------------------------------------

  /** `dirname ?? "" + "/\(basename).json"` as written: `??` binds looser than `+`, so a
      given dirname is used as the whole path. */
  function SettingsPathAsWritten(dirname: Option<string>): (r: string)
    ensures dirname.Some? ==> r == dirname.value
    ensures dirname.None? ==> r == "/项目设置.json"
  {
    match dirname
    case Some(d) => d
    case None => "" + "/项目设置.json"
  }

  /** The evidently intended `(dirname ?? "") + "/项目设置.json"`. */
  function SettingsPath(dirname: Option<string>): (r: string)
    ensures InDirectory(r, dirname.GetOr(""), "项目设置.json")
    ensures dirname.Some? ==> r == JsonFilename(dirname, "项目设置", "data")
  {
    JoinInDirectory(dirname.GetOr(""), "项目设置.json");
    dirname.GetOr("") + "/项目设置.json"
  }

  /** The two readings agree without a dirname and differ for every given one. */
  lemma SettingsPathPrecedence(d: string)
    ensures SettingsPathAsWritten(None) == SettingsPath(None)
    ensures SettingsPathAsWritten(Some(d)) != SettingsPath(Some(d))
  {
    assert |SettingsPath(Some(d))| > |d|;
  }
}
