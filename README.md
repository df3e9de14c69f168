# SwiftOffice core, modelled in Dafny

SwiftOffice is a Swift port of a CoffeeScript generator of hospital operation reports. Its
core reads project data from JSON files: project settings (项目设置), the indicator
direction library (指标导向库), the in-hospital database (院内资料库) and alias tables. It
caches those stores in several lazily loaded forms, derives indicator maps from the
settings, normalises department and indicator names through alias tables, and turns
sections of data into slide descriptions for a presentation writer.

This project models that core and proves properties of the model:

- **Paths** (`paths.dfy`): the JSON, Excel and PPT file names of every copy of the path
  rule, and the readiness test `jsonfileNeedsNoFix`.
- **Caches**: `caches.dfy`, `entities.dfy`, `database.dfy`, `goodhospital.dfy`,
  `chain.dfy`, `exploration.dfy`, `analysis.dfy`, `fulltranslation.dfy` and
  `multiprotocol.dfy`. They cover each "prepare on first access, keep, invalidate"
  variant: keyed tables, `_cso`/`_isLoaded` pairs, `fetch(rebuild:)`, the shared statics
  of the class chain and the global `_sdb`. Each is a class whose fields are the statics
  of one type; a ghost counter records how often the data was prepared.
- **Tables and indicators** (`tables.dfy`, `indicators.dfy`, `settings.dfy`): `dbAsArray`,
  the grouping of keys by their String value and its exact inverse, the direction and
  parent maps, vector indicators and year keys.
- **Aliases** (`aliases.dfy`, `text.dfy`): noise stripping with the fixed character set
  `* ↑ ↓ ( ) （ 、 ） / ▲` plus whitespace, and the two lookup orders (raw name first,
  cleaned name first).
- **Slides**: `pages.dfy`, `slides.dfy`, `v4.dfy`, `moreentities.dfy`, `report.dfy` and
  `charts.dfy`. They cover text pages of 15 lines, ranking tables of 10 rows, the V4 and
  V4Full sections, the report generator and the chart builder.

The file system is a map from path to an optional parsed JSON value: a missing key is a
missing file, and `None` is a file that does not parse. Swift's dictionary iteration order
is unspecified. Loops over a dictionary therefore pick an arbitrary remaining key, and
their contracts hold for every visiting order.

Where the code and its documentation disagree, the model follows the code:

- The documentation calls alias normalisation idempotent. The code returns a table's
  mapped value without normalising it again, so a table with `a -> b` and `b -> c` moves
  "a" twice: `Aliases.RawFirstNotIdempotentInGeneral` shows this. Idempotence is proved
  only over a canonical table, in `Aliases.RawFirstIdempotent`.
- The tests of the seven-level class chain expect nil from its stores. The code yields
  [:], because every level asks for a rewrite (`Chain.FetchProduced`).

## Model

| member | source | states |
|---|---|---|
| JsonModel.FileSystem.ReadJson | SwiftOffice/Sources/SwiftOffice/Protocols/FileHandling.swift:46-54 | a read succeeds exactly when the file exists and holds a parsed top-level dictionary; otherwise nil |
| JsonModel.SectionAt | SwiftOffice/Sources/SwiftOffice/App/Settings.swift:18-32 | `(m[k] as? [String: [String: Any]]) ?? [:]`: the nested section exactly when it is a dictionary of dictionaries, otherwise empty |
| JsonModel.KeysOf | SwiftOffice/Sources/SwiftOffice/App/Settings.swift:120-123 | `Array(dict.keys)`: every key exactly once, in some order |
| Paths.Directory | SwiftOffice/Sources/SwiftOffice/Protocols/FileHandling.swift:21-44 | an explicit dirname (even empty) is the directory; otherwise `<folder>/<kind>` |
| Paths.InDirectoryDeterminesPath | SwiftOffice/Sources/SwiftOffice/Protocols/FileHandling.swift:21-26 | a path is determined by its directory and file name |
| Paths.JsonFilename | SwiftOffice/Sources/SwiftOffice/Protocols/FileHandling.swift:21-26 | the JSON path is `<basename>.json` inside the dirname, or inside `<folder>/JSON` |
| Paths.ExcelStem | SwiftOffice/Sources/SwiftOffice/Protocols/FileHandling.swift:29-32 | the stem starts with the basename and is 3 characters longer exactly when `saveAs` |
| Paths.ExcelFilename | SwiftOffice/Sources/SwiftOffice/Protocols/FileHandling.swift:28-37 | the Excel path is the stem plus ".xlsx" inside the dirname, or inside `<folder>/Excel` |
| Paths.PptFilename | SwiftOffice/Sources/SwiftOffice/Protocols/FileHandling.swift:39-44 | the PPT path is `<basename>.<generator>.pptx` inside the dirname, or inside `<folder>/PPT` |
| Paths.ExcelSaveAsIsBackup | SwiftOffice/Sources/SwiftOffice/Protocols/FileHandling.swift:28-37 | the save-as path is the plain path of `<basename>_bu`, and differs from the plain path |
| Paths.JsonAndExcelSideBySide | SwiftOffice/Sources/SwiftOffice/Protocols/FileHandling.swift:21-37 | with a dirname the JSON and the Excel file differ only in their extension |
| Paths.NeedsNoFix | SwiftOffice/Sources/SwiftOffice/Protocols/FileHandling.swift:64-68 | `isReady` holds exactly when the file exists and no rewrite is requested; the path is returned unchanged |
| Paths.RewriteNeverReady | SwiftOffice/Sources/SwiftOffice/JSONSimple.swift:164-175 | a rewrite request makes every file unready |
| Paths.ReadIfReady | SwiftOffice/Sources/SwiftOffice/Implementations/Handlers.swift:16-22 | the parsed file when ready, [:] (never nil) when not ready; nil only for a ready file that does not parse |
| Paths.RewriteReadsEmpty | SwiftOffice/Sources/SwiftOffice/StormDBSingleton.swift:40-67 | with `needToRewrite` the guarded read is always [:] |
| Paths.OptsNeedsNoFix | SwiftOffice/Sources/SwiftOffice/JSONSimple.swift:164-175 | ready exactly when the option-derived JSON path exists and `needToRewrite` is not set |
| Paths.OptsExcelFlagsScope | SwiftOffice/Sources/SwiftOffice/JSONSimple.swift:73-93 | with a dirname, `outfolder` changes nothing and `basenameOnly` drops exactly the ".xlsx" |
| Paths.OptsExcelBasenameOnlyNeedsDirname | SwiftOffice/Sources/SwiftOffice/JSONSimple.swift:86-92 | without a dirname `basenameOnly` changes nothing |
| Paths.EmptyDirnameIsRoot | SwiftOffice/Sources/SwiftOffice/JSONSimple.swift:66-67 | an empty dirname still counts as given: "/<basename>.json" |
| Paths.PptxGenFilename | SwiftOffice/Sources/SwiftOffice/PPTXGenUtils.swift:11-15 | the JSONSimple PPT rule with the generator tag forced to "pg" |
| Paths.OptsJsonExample | SwiftOffice/Sources/SwiftOffice/JSONSimple.swift:61-71 | "/test/path" and "testfile" give "/test/path/testfile.json" |
| Paths.PptxGenExample | SwiftOffice/Sources/SwiftOffice/PPTXGenUtils.swift:11-15 | "/test/path" and "testfile" give "/test/path/testfile.pg.pptx" |
| Paths.OptsExcelSaveAsExample | SwiftOffice/Sources/SwiftOffice/JSONSimple.swift:73-93 | `saveAs` gives "/test/path/testfile_bu.xlsx" |
| Paths.ToolsJsonFilename | SwiftOffice/Sources/SwiftOffice/CoreEntities.swift:10-20 | `FileTools` builds the same JSON path as the JSONSimple rule |
| Paths.ToolsExcelFilename | SwiftOffice/Sources/SwiftOffice/CoreEntities.swift:22-32 | `FileTools` builds the plain Excel path, never a save-as copy |
| Paths.ToolsExcelIgnoresSaveAs | SwiftOffice/Sources/SwiftOffice/CoreEntities.swift:22-32 | `saveAs` does not change the `FileTools` path, where it changes the JSONSimple one |
| Paths.ToolsPathExamples | SwiftOffice/Sources/SwiftOffice/CoreEntities.swift:10-20 | "/path/to/dir/项目设置.json" with a dirname, "data/JSON/指标导向库.json" without |
| Paths.V4JsonFilename | SwiftOffice/Sources/SwiftOffice/V4ProtocolStruct.swift:95-100 | the protocol default JSON path is the general rule with folder "data" |
| Paths.V4ExcelFilename | SwiftOffice/Sources/SwiftOffice/V4ProtocolStruct.swift:102-109 | the protocol default Excel path is the general rule with folder "data" |
| Paths.V4PptFilename | SwiftOffice/Sources/SwiftOffice/V4ProtocolStruct.swift:111-116 | the protocol default PPT path is the general rule with folder "outputs" |
| Paths.V4DefaultPathExamples | SwiftOffice/Sources/SwiftOffice/V4ProtocolStruct.swift:95-116 | "data/JSON/test.json", "data/Excel/test.xlsx" and "outputs/PPT/test.pg.pptx" |
| Paths.ClassJsonFilename | SwiftOffice/Sources/SwiftOffice/InheritanceProblem.swift:11-20 | the general rule with the basename defaulting to the class name and the folder to "data" |
| Paths.ClassJsonAgreesWhenNamed | SwiftOffice/Sources/SwiftOffice/InheritanceProblem.swift:11-20 | with an explicit basename the class-chain and JSONSimple rules agree |
| Paths.DbFilename | SwiftOffice/Sources/SwiftOffice/JSONDatabase.swift:12-14 | the database file is the class name followed by ".json" |
| Paths.SettingsPathAsWritten | SwiftOffice/Sources/SwiftOffice/MultiProtocolAdvantage.swift:77 | as written: the dirname itself when given, "/项目设置.json" otherwise |
| Paths.SettingsPath | SwiftOffice/Sources/SwiftOffice/MultiProtocolAdvantage.swift:77 | corrected: "项目设置.json" inside the dirname (or "" without one) |
| Paths.SettingsPathPrecedence | SwiftOffice/Sources/SwiftOffice/MultiProtocolAdvantage.swift:77 | the two readings agree without a dirname and differ for every given dirname |
| Text.Clean | SwiftOffice/Sources/SwiftOffice/FullTranslation.swift:119-121 | `simpleName`: the result is no longer than the name, holds no noise character and only characters of the name |
| Text.CleanConcat | SwiftOffice/Sources/SwiftOffice/MultiProtocolAdvantage.swift:96-98 | stripping noise acts character by character: it distributes over concatenation |
| Text.CleanFixpoint | SwiftOffice/Sources/SwiftOffice/CoreEntities.swift:163-164 | a name is unchanged by stripping exactly when the noise pattern does not match it |
| Text.CleanIdempotent | SwiftOffice/Sources/SwiftOffice/MoreEntities.swift:481-483 | stripping noise twice equals stripping it once |
| Text.RemoveChar | SwiftOffice/Sources/SwiftOffice/MultiProtocolAdvantage.swift:259-261 | the character is gone and every other character of the name is kept |
| Text.IntToStringRoundTrip | SwiftOffice/Cases/HospitalReport/ReportGenerator.swift:19-21 | the decimal rendering of an `Int` is a well-formed numeral that reads back to the number |
| Text.IntToStringInjective | SwiftOffice/Cases/HospitalReport/ReportGenerator.swift:19-21 | distinct years render to distinct strings |
| Text.SplitAtSeparator | SwiftOffice/Sources/SwiftOffice/FullTranslation.swift:116 | splitting at a "_" splits the two sides independently (empty pieces omitted) |
| Text.SplitNoSeparator | SwiftOffice/Sources/SwiftOffice/FullTranslation.swift:116 | a name without "_" is one piece, or none when empty |
| Text.SortDescSorted | SwiftOffice/Sources/SwiftOffice/App/Settings.swift:115 | `sorted().reversed()` of distinct keys is strictly descending and has the same keys |
| Text.DescendingUnique | SwiftOffice/Sources/SwiftOffice/App/Settings.swift:115 | two descending lists of the same keys are equal, so the result does not depend on the dictionary's order |
| Tables.RequestJson | SwiftOffice/Sources/SwiftOffice/Protocols/FileHandling.swift:91-97 | without a key the whole dictionary; with a key the sub-dictionary exactly when the file parsed and that entry is a dictionary, nil otherwise |
| Tables.GroupByStringValue | SwiftOffice/Sources/SwiftOffice/Protocols/FileHandling.swift:136-146 | the result has one group per String value, and each group lists, once each, exactly the keys that hold that value; non-String values contribute nothing |
| Tables.GroupingIsInverse | SwiftOffice/Sources/SwiftOffice/V4ProtocolStruct.swift:199-208 | a key is in the group of `v` exactly when its value is the String `v` |
| Tables.GroupsDisjoint | SwiftOffice/Sources/SwiftOffice/V4ProtocolStruct.swift:181-190 | no key appears under two values |
| Tables.GroupingsAgree | SwiftOffice/Sources/SwiftOffice/Protocols/FileHandling.swift:140-144 | any two iteration orders give the same groups with the same members; only the order inside a group can differ |
| Tables.NoStringsNoGroups | SwiftOffice/Sources/SwiftOffice/Protocols/FileHandling.swift:141 | a dictionary without String values gives no groups |
| Tables.Assign | SwiftOffice/Sources/SwiftOffice/Protocols/FileHandling.swift:114-117 | `obj[k] = v` stores `v` under `k`, or removes `k` for nil, and leaves every other key alone |
| Tables.Merge | SwiftOffice/Sources/SwiftOffice/Protocols/FileHandling.swift:122 | `merge { (_, new) in new }`: the union of the keys, and the merged-in value wins every clash |
| Tables.DbAsArray | SwiftOffice/Sources/SwiftOffice/Protocols/FileHandling.swift:99-129 | one row per key the `except` pattern does not exclude, each key exactly once, each row built from its own key and value |
| Tables.UnitRowTagged | SwiftOffice/Sources/SwiftOffice/Protocols/FileHandling.swift:108 | every row carries `"unitName": key` unless the data name is "unitName" or a merged record brings its own "unitName" |
| Tables.UnitRowWithDataName | SwiftOffice/Sources/SwiftOffice/Protocols/FileHandling.swift:110-119 | with a data name a row holds at most the tag and that one field |
| Tables.UnitRowMerged | SwiftOffice/Sources/SwiftOffice/Protocols/FileHandling.swift:120-124 | without a data name every field of a dictionary value is copied into the row |
| Tables.MergeOverridesTag | SwiftOffice/Sources/SwiftOffice/Protocols/FileHandling.swift:122 | a record's own "unitName" replaces the key in the tag |
| Tables.RowRulesAgree | SwiftOffice/Sources/SwiftOffice/V4ProtocolStruct.swift:150-174 | the protocol-chain copy builds the same rows as the protocol default, unless the data name is "unitName" itself |
| Caches.FilledSlotIsStable | SwiftOffice/Sources/SwiftOffice/Protocols/FileHandling.swift:159-164 | once the slot holds a value, a plain `fetch()` answers it without running `dataPrepare()` |
| Caches.SecondFetchReusesFirst | SwiftOffice/Sources/SwiftOffice/Protocols/FileHandling.swift:159-164 | a second plain fetch reruns the producer only when the first one produced nil; a non-nil first result is kept |
| Caches.RebuildReplaces | SwiftOffice/Sources/SwiftOffice/Protocols/FileHandling.swift:160-161 | `fetch(rebuild: true)` always installs the producer's result |
| Caches.MemoSlot.Fetch | SwiftOffice/Sources/SwiftOffice/Protocols/FileHandling.swift:159-164 | the slot becomes the producer's result on a rebuild or an empty slot and stays otherwise; the producer runs exactly in those cases; the answer is the slot |
| Caches.MemoSlot.Clear | SwiftOffice/Sources/SwiftOffice/Implementations/Handlers.swift:46-48 | the slot is nil, so the next fetch runs the producer |
| Caches.FlaggedSlot.Get | SwiftOffice/Cases/goodhospital2021/Self.swift:22-28 | the producer runs only while `_isLoaded` is false; afterwards the flag is up and the stored value is answered |
| Caches.FlaggedSlot.ClearCache | SwiftOffice/Cases/goodhospital2021/Self.swift:46-49 | the value is [:] and the flag is down |
| Caches.Looked | SwiftOffice/Sources/SwiftOffice/CoreEntities.swift:104-110 | a lookup adds only its own key, keeps every existing entry, and stores the produced value when the key was absent |
| Caches.KeyedTable.Cso | SwiftOffice/Sources/SwiftOffice/CoreEntities.swift:104-110 | the table after the lookup, with the key logged exactly when it was produced; the answer is the entry for the key |
| Caches.KeyedTable.Reset | SwiftOffice/Sources/SwiftOffice/CoreEntities.swift:123-126 | only the one entry is dropped |
| Caches.KeyedTable.ClearAll | SwiftOffice/Sources/SwiftOffice/CoreEntities.swift:119-121 | every entry is dropped |
| Aliases.RawFirstCases | SwiftOffice/Sources/SwiftOffice/Protocols/FileHandling.swift:187-210 | no table: the name; an exact hit: its alias; a noisy name that is no key and whose cleaned form is no key: the cleaned form; a clean name that is no key: itself; every answer is the name, its cleaned form or an alias |
| Aliases.RawFirstNoiseFree | SwiftOffice/Sources/SwiftOffice/Alias.swift:29-56 | when no alias holds noise, no answer holds noise |
| Aliases.RawFirstIdempotent | SwiftOffice/Sources/SwiftOffice/Alias.swift:38-55 | over a table whose aliases are noise-free and not themselves keys, adjusting twice gives what adjusting once gives |
| Aliases.RawFirstNotIdempotentInGeneral | SwiftOffice/Sources/SwiftOffice/Alias.swift:38-40 | with `a -> b` and `b -> c` a second pass moves "a" on to "c": the lookup is not idempotent in general |
| Aliases.CleanName | SwiftOffice/Sources/SwiftOffice/CoreEntities.swift:161-165 | `cleanName` is the name with every noise character removed |
| Aliases.CleanFirstWithoutTable | SwiftOffice/Sources/SwiftOffice/CoreEntities.swift:168-170 | without a table the entity answers the cleaned name, which holds no noise and is kept by a second pass |
| Aliases.CleanFirstExamples | SwiftOffice/Sources/SwiftOffice/CoreEntities.swift:159-174 | "内科*" gives "内科", "外科↑" gives "外科", and "内科" is kept |
| Aliases.LookupOrdersAgreeOnCleanKeys | SwiftOffice/Sources/SwiftOffice/CoreEntities.swift:173 | the cleaned-first rule of `AliasEntity` and the raw-first rule of the alias protocol agree whenever no alias key holds noise |
| Aliases.LookupOrdersDiffer | SwiftOffice/Sources/SwiftOffice/CoreEntities.swift:173 | with keys "a*" -> X and "a" -> Y the two rules answer X and Y |
| Aliases.Paired | SwiftOffice/Sources/SwiftOffice/Protocols/FileHandling.swift:178-180 | the keys are those of the store plus every pair whose key differs from its value |
| Aliases.AddPairs | SwiftOffice/Sources/SwiftOffice/Protocols/FileHandling.swift:175-185 | something is written exactly when `keep` is set and the cached store casts to `[String: String]`; what is written is the store with every kept pair over it |
| Aliases.AdjustedName | SwiftOffice/Sources/SwiftOffice/Protocols/FileHandling.swift:187-210 | the store is fetched through the singleton slot, the answer is the raw-first rule on the table under the class name, and nothing is ever saved, because a store holding that table never casts to `[String: String]` |
| Entities.CachedEntityKey | SwiftOffice/Sources/SwiftOffice/CoreEntities.swift:105 | the key ends in "/basename" and starts with "dirname/" when a dirname is given |
| Entities.AliasEntityKey | SwiftOffice/Sources/SwiftOffice/CoreEntities.swift:145 | the key is "alias:" followed by the basename, whatever the dirname |
| Entities.EntityDataPrepare | SwiftOffice/Sources/SwiftOffice/CoreEntities.swift:112-117 | the parsed file at the default JSON path, or [:] when it is missing or unreadable |
| Entities.NilAndEmptyDirnameShareKey | SwiftOffice/Sources/SwiftOffice/CoreEntities.swift:104-110 | a nil dirname and an empty one share a cache key although they name different files |
| Entities.CachedEntity.Cso | SwiftOffice/Sources/SwiftOffice/CoreEntities.swift:104-110 | the shared table after a lookup under "dirname/basename", loading `dataPrepare()` only on a miss; the answer is the table's entry |
| Entities.CachedEntity.Reset | SwiftOffice/Sources/SwiftOffice/CoreEntities.swift:123-126 | only this entity's entry is removed |
| Entities.LookedTwice | SwiftOffice/Sources/SwiftOffice/CoreEntities.swift:106-108 | a second lookup of a key changes nothing, whatever its producer would say |
| Entities.LookedLeavesOthers | SwiftOffice/Sources/SwiftOffice/CoreEntities.swift:106-108 | a lookup leaves every other key's entry as it was |
| Entities.AliasEntity.Cso | SwiftOffice/Sources/SwiftOffice/CoreEntities.swift:144-150 | the alias table after a lookup under "alias:basename"; the answer is that entry |
| Entities.AliasEntity.AdjustedName | SwiftOffice/Sources/SwiftOffice/CoreEntities.swift:159-174 | the cleaned-first rule over the `[String: String]` table stored under the basename in `cso` |
| Entities.CachedAs | SwiftOffice/Sources/SwiftOffice/Implementations/RefinedEntities.swift:35 | `storage[key] as? T` succeeds exactly when the key is stored with type `T`, and yields the stored payload |
| Entities.SingletonCache.Get | SwiftOffice/Sources/SwiftOffice/Implementations/RefinedEntities.swift:34-41 | a stored value of the requested type is answered without running the loader; otherwise the loader runs once and its value is stored and answered |
| Entities.SingletonCache.Set | SwiftOffice/Sources/SwiftOffice/Implementations/RefinedEntities.swift:43-45 | only the given key is overwritten |
| Entities.SingletonCache.Clear | SwiftOffice/Sources/SwiftOffice/Implementations/RefinedEntities.swift:47-53 | one key is removed, or every key when none is given |
| Entities.SetThenGetHits | SwiftOffice/Sources/SwiftOffice/Implementations/RefinedEntities.swift:34-53 | after `set` a `get` of the same type hits; after `clear` it misses |
| Entities.SetLeavesOthers | SwiftOffice/Sources/SwiftOffice/Implementations/RefinedEntities.swift:43-45 | setting one key leaves every other key's typed read unchanged |
| Entities.OtherTypeMisses | SwiftOffice/Sources/SwiftOffice/Implementations/RefinedEntities.swift:35-39 | a value stored with another type is a miss |
| Entities.Prepare | SwiftOffice/Sources/SwiftOffice/Implementations/RefinedEntities.swift:16-22 | [:] when the file is missing or a rewrite is requested; otherwise the read of the file |
| Entities.SharedDataPrepare | SwiftOffice/Sources/SwiftOffice/Implementations/Entities.swift:38-40 | the static `dataPrepare()` reads the shared instance's file without the readiness check; a result means the file exists |
| Entities.SharedInstanceReadsEmpty | SwiftOffice/Sources/SwiftOffice/Implementations/Entities.swift:30-32 | the shared instance is built with `needToRewrite` true, so its guarded read is always [:], which differs from any non-empty static read |
| Entities.FindId | SwiftOffice/Sources/SwiftOffice/Implementations/RefinedEntities.swift:89-95 | the "id" of the name's entry exactly when the store is there and that entry casts to `[String: String]` and holds "id" |
| Entities.FindIdNeedsStringEntry | SwiftOffice/Sources/SwiftOffice/Implementations/RefinedEntities.swift:91 | an entry with a non-String field fails the cast, so its id is not found |
| Entities.ShortName | SwiftOffice/Sources/SwiftOffice/Implementations/RefinedEntities.swift:111-114 | the name's entry exactly when it is a String |
| Entities.RefinedLibrary.FindID | SwiftOffice/Sources/SwiftOffice/Implementations/RefinedEntities.swift:85-95 | the static slot after a plain fetch of the shared file, and `findID` on it |
| Entities.RefinedLibrary.GetShortName | SwiftOffice/Sources/SwiftOffice/Implementations/RefinedEntities.swift:107-114 | the static slot after a plain fetch of the shared file, and the short name on it |
| Entities.RefinedLibrary.Lookup | SwiftOffice/Sources/SwiftOffice/Implementations/RefinedEntities.swift:71-73 | the static slot after a plain fetch, and the raw-first alias rule on the table under the class name |
| Entities.DatabaseHandler.GetJson | SwiftOffice/Sources/SwiftOffice/Implementations/Handlers.swift:38-40 | the class's entry exactly when it is a dictionary |
| Entities.DatabaseHandler.Initialize | SwiftOffice/Sources/SwiftOffice/Implementations/Handlers.swift:32-36 | an empty entry for the class unless `preserved`, in which case nothing changes |
| Entities.DatabaseHandler.SetJson | SwiftOffice/Sources/SwiftOffice/Implementations/Handlers.swift:42-44 | the class reads back `data`; every other class reads what it read before |
| Entities.DatabaseHandler.Clear | SwiftOffice/Sources/SwiftOffice/Implementations/Handlers.swift:46-48 | the store is empty and every class reads nil |
| Entities.AsObjAt | SwiftOffice/Sources/SwiftOffice/Implementations/Handlers.swift:39 | `storage[k] as? [String: Any]` succeeds exactly on a dictionary entry |
| Entities.SingletonHandler.Fetch | SwiftOffice/Sources/SwiftOffice/Implementations/Handlers.swift:61-66 | the handler's file is read only on a rebuild or an empty cache, and the cache is answered |
| Entities.SingletonHandler.ClearCache | SwiftOffice/Sources/SwiftOffice/Implementations/Handlers.swift:68-70 | the cache is nil, so the next fetch reads again |
| Simple.SourceFile | SwiftOffice/Sources/SwiftOffice/JSONSimple.swift:15-23 | the Excel source is `opts["sourceFile"]` when given (nil unless it is a String), otherwise the option-derived Excel path |
| Simple.ExcelOptions | SwiftOffice/Sources/SwiftOffice/JSONSimple.swift:15-30 | every given option is kept; "sourceFile", "header" (from "headerRows", default 1) and "columnToKey" receive their defaults only when absent |
| Simple.PathKeysDecideReadiness | SwiftOffice/Sources/SwiftOffice/JSONSimple.swift:164-175 | options that agree on "dirname", "basename", "folder" and "needToRewrite" give the same JSON path and the same readiness |
| Simple.Written | SwiftOffice/Sources/SwiftOffice/JSONSimple.swift:128-140 | nothing changes without a dictionary "obj" or when the file is ready; otherwise "obj" is saved at the JSON path and every other file is kept |
| Simple.Disk.Write2Json | SwiftOffice/Sources/SwiftOffice/JSONSimple.swift:128-140 | the disk becomes the `Written` disk |
| Simple.Disk.JsonizedExcelData | SwiftOffice/Sources/SwiftOffice/JSONSimple.swift:14-41 | the answer is always [:], because the Excel reader yields no rows, and the disk is that of the fallback: the empty dictionary saved when the source exists |
| Simple.Disk.GetJson | SwiftOffice/Sources/SwiftOffice/JSONSimple.swift:5-12 | the parsed file when it is ready; otherwise [:] from the Excel fallback, with the disk changed as the fallback changes it |
| Simple.FallbackLeavesPlaceholder | SwiftOffice/Sources/SwiftOffice/JSONSimple.swift:5-41 | when the file is not ready and the Excel source exists, `getJSON` leaves an empty JSON file behind, which the next call finds ready unless a rewrite is requested |
| Simple.MissingSourceChangesNothing | SwiftOffice/Sources/SwiftOffice/JSONSimple.swift:20-23 | without an existing Excel source the disk is unchanged |
| Simple.ReadyFileIsKept | SwiftOffice/Sources/SwiftOffice/JSONSimple.swift:131-133 | a ready file is never overwritten, by `write2JSON` or by `getJSON` |
| Database.StormOptionsFacts | SwiftOffice/Sources/SwiftOffice/StormDBSingleton.swift:40-53 | the default options put the store at "/<class name>.json" and set "needToRewrite", "saveAs" and "unwrap"; `Alias.options()` still asks for a rewrite and sets "rebuild" to false |
| Database.NormalKeyName | SwiftOffice/Sources/SwiftOffice/StormDBSingleton.swift:55-57 | the "mainKey" option when it is a String, otherwise "" |
| Database.StormProduced | SwiftOffice/Sources/SwiftOffice/StormDBSingleton.swift:12-26 | whether or not a rebuild is asked, the options request a rewrite, so `StormDBSingleton.fetchSingleJSON` always stores [:] |
| Database.AliasProduced | SwiftOffice/Sources/SwiftOffice/Alias.swift:69-83 | with the rewrite switched off, `Alias.fetchSingleJSON` stores the read of "/<class name>.json" when that file exists, [:] otherwise |
| Database.AliasStoreIsAnotherFile | SwiftOffice/Sources/SwiftOffice/JSONDatabase.swift:12-14 | the alias store "/<class name>.json" and the database file "<class name>.json" are different files |
| Database.FreshDb | SwiftOffice/Sources/SwiftOffice/JSONDatabase.swift:20-26 | the new database is `[thisClass: [:]]`, or empty when `preserved` |
| Database.PreparedDbEntry | SwiftOffice/Sources/SwiftOffice/Alias.swift:5-9 | after `dataPrepare()` the class has an entry in `_sdb` exactly when it is no `Alias` or its database file cannot be read |
| Database.AddedPairs | SwiftOffice/Sources/SwiftOffice/Alias.swift:17-22 | the database keeps its keys and every other class's entry; only the class's own entry can change |
| Database.Statics.Db | SwiftOffice/Sources/SwiftOffice/JSONDatabase.swift:30-35 | without "thisClass" the whole database; with it, that class's entry when it is a dictionary, else [:] |
| Database.Statics.SetDB | SwiftOffice/Sources/SwiftOffice/JSONDatabase.swift:16-28 | the database becomes `FreshDb` of the class and the "preserved" flag (default false) and is answered; no other static changes; a missing "thisClass" is a precondition, as the source stops there |
| Database.Statics.AliasSetDB | SwiftOffice/Sources/SwiftOffice/Alias.swift:5-9 | `preserved` is whether the class's database file can be read |
| Database.Statics.DataPrepare | SwiftOffice/Sources/SwiftOffice/AnyGlobalSingleton.swift:24-27 | the database is reset for the class (through `Alias.setDB` for aliases), the class is logged as prepared, and the answer is its database file |
| Database.Statics.AnyCso | SwiftOffice/Sources/SwiftOffice/AnyGlobalSingleton.swift:29-36 | the one base-class slot: a filled slot is answered untouched; an empty one runs `dataPrepare()` and keeps its result, nil included, so a nil result prepares again next time |
| Database.Statics.OwnCso | SwiftOffice/Sources/SwiftOffice/Singletons.swift:5-17 | each concrete singleton's own slot: a stored value is answered without preparing; otherwise `dataPrepare()` runs and a non-nil result is stored |
| Database.Statics.Fetch | SwiftOffice/Sources/SwiftOffice/StormDBSingleton.swift:12-26 | the shared `_json` is recomputed on "rebuild" or when nil, from the class's own `fetchSingleJSON` rule, and answered; nothing else changes |
| Database.Statics.ReversedJson | SwiftOffice/Sources/SwiftOffice/StormDBSingleton.swift:28-38 | after a plain fetch, nothing when the store is nil, otherwise its keys grouped under their String values |
| Database.Statics.AliasAddPairs | SwiftOffice/Sources/SwiftOffice/Alias.swift:11-27 | without a "dict" of Strings nothing changes; otherwise the store is fetched and the kept pairs are written into the class's entry of `_sdb` |
| Database.Statics.AjustedName | SwiftOffice/Sources/SwiftOffice/Alias.swift:29-56 | nil without a "name"; otherwise the raw-first rule over the table in the fetched store, and `_sdb` learns `name -> cleaned name` exactly when the rule falls through to learning |
| Database.WritePairs | SwiftOffice/Sources/SwiftOffice/Alias.swift:17-22 | the loop over the pairs leaves the database `AddedPairs` describes |
| Database.LearningNeedsMissingFile | SwiftOffice/Sources/SwiftOffice/Alias.swift:5-22 | when the alias class's database file can be read, `dataPrepare()` leaves no entry, so learning changes nothing |
| Database.DbDictKeys | SwiftOffice/Sources/SwiftOffice/JSONDatabase.swift:86-92 | no keys without "thisClass" or when the (sub-)dictionary cannot be read; otherwise every key once |
| Database.DbRevertedValue | SwiftOffice/Sources/SwiftOffice/JSONDatabase.swift:94-104 | nothing when the file cannot be read, otherwise its keys grouped under their String values |
| Database.DbAsArray | SwiftOffice/Sources/SwiftOffice/JSONDatabase.swift:49-84 | nothing when the file cannot be read; otherwise one row per key the "except" pattern does not match, each built from its key and value |
| Indicators.FieldMap | SwiftOffice/Cases/goodhospital2021/Self.swift:151-156 | exactly the indicators whose record is a dictionary holding a String under the field, each mapped to that String |
| Indicators.Derived | SwiftOffice/Cases/goodhospital2021/Self.swift:148-159 | nothing when "三级指标设置" is not a dictionary; otherwise the field map of that section |
| Indicators.BuildDerived | SwiftOffice/Cases/goodhospital2021/Self.swift:192-203 | the loop over the section builds exactly the derived table |
| Indicators.DirectionGroupsExact | SwiftOffice/Cases/goodhospital2021/Self.swift:166-174 | an indicator is in the group of direction `d` exactly when its record gives "指标导向" as `d`, and it is in no other group |
| Indicators.ChildrenExact | SwiftOffice/Cases/goodhospital2021/Self.swift:226-234 | a third-level indicator is listed under a second-level one exactly when its record names it as "上级指标", and under no other |
| Indicators.NameArray | SwiftOffice/Cases/goodhospital2021/Self.swift:227-233 | a list of names stored as a JSON array, one String per name in order |
| Indicators.AsNames | SwiftOffice/Sources/SwiftOffice/MoreEntities.swift:69-79 | `as? [String]` succeeds exactly when every item is a String |
| Indicators.NameArrayRoundTrip | SwiftOffice/Sources/SwiftOffice/MoreEntities.swift:69-79 | reading a stored list of names back gives that list |
| Indicators.GroupsAsJson | SwiftOffice/Cases/goodhospital2021/Self.swift:226-234 | the grouping kept as `[String: Any]` has the same keys, and every value reads back as its group |
| Indicators.VectorIndicators | SwiftOffice/Sources/SwiftOffice/App/Settings.swift:78-94 | every listed indicator sits under its own parent and has a vector direction, each group without repeats; with unambiguous direction groups every vector indicator is listed; no groups, no result |
| Indicators.VectorByDirection | SwiftOffice/Sources/SwiftOffice/App/Settings.swift:81-91 | with groups from a grouping of the direction table, the result lists exactly the children whose own direction is one of "逐步提高", "逐步降低", "高优", "低优" |
| Indicators.YearKeys | SwiftOffice/Sources/SwiftOffice/V4ProtocolStruct.swift:402-404 | exactly the keys starting with "Y", latest first |
| Indicators.YearsAreDetermined | SwiftOffice/Sources/SwiftOffice/App/Settings.swift:115 | the year list does not depend on the order the keys were enumerated |
| Indicators.UnitYears | SwiftOffice/Sources/SwiftOffice/App/Settings.swift:112-118 | nothing unless the store is a non-empty dictionary of dictionaries; otherwise the years of some unit |
| Indicators.FirstEntryYears | SwiftOffice/Sources/SwiftOffice/V4ProtocolStruct.swift:397-405 | nothing without a file or entries; a non-empty answer is the years of some dictionary entry; when every entry is a dictionary, the years of some entry |
| Indicators.CaseYears | SwiftOffice/Cases/goodhospital2021/Self.swift:89-96 | three distinct labels, each "Y" followed by digits |
| Indicators.CaseYearsReadBack | SwiftOffice/Cases/goodhospital2021/Self.swift:91-95 | the `i`-th label reads back as the final year minus `i` |
| Settings.SettingsSection | SwiftOffice/Sources/SwiftOffice/App/Settings.swift:18-32 | always a dictionary of dictionaries; non-empty only when it is the stored section, and the stored section whenever that has the right shape |
| Settings.DirectionSets | SwiftOffice/Sources/SwiftOffice/App/Settings.swift:50-60 | nothing unless the whole table casts to `[String: String]`; then each indicator exactly once in the group of its direction |
| Settings.UnitKeys | SwiftOffice/Sources/SwiftOffice/App/Settings.swift:120-123 | every unit name once when the store casts to `[String: [String: Any]]`, none otherwise |
| Settings.Libraries.Section | SwiftOffice/Sources/SwiftOffice/App/Settings.swift:18-32 | the project settings slot after a plain fetch, and the named section of it |
| Settings.Libraries.DirectionGroups | SwiftOffice/Sources/SwiftOffice/App/Settings.swift:50-60 | the direction slot after a plain fetch, and its grouping by direction when it casts to `[String: String]` |
| Settings.Libraries.VectorIndicatorsByParent | SwiftOffice/Sources/SwiftOffice/App/Settings.swift:78-94 | nothing, and the direction library untouched, unless the child-to-parent table casts to `[String: String]`; otherwise a child is listed under a parent exactly when the table names that parent and the child's direction is a vector direction |
| Settings.Libraries.Years | SwiftOffice/Sources/SwiftOffice/App/Settings.swift:112-118 | the unit database slot after a plain fetch, and the years of some unit, or nothing |
| Settings.Libraries.LocalUnits | SwiftOffice/Sources/SwiftOffice/App/Settings.swift:120-123 | every unit of the local database once, or nothing when it does not cast |
| Settings.Libraries.FocusUnits | SwiftOffice/Sources/SwiftOffice/App/Settings.swift:141-144 | every unit of the benchmark database once, or nothing when it does not cast |
| GoodHospital.CaseData.SettingsCso | SwiftOffice/Cases/goodhospital2021/Self.swift:22-39 | the settings become loaded; they are the shared entity table's entry for "项目设置", which is read from disk only if the table lacks it |
| GoodHospital.CaseData.InternalCso | SwiftOffice/Cases/goodhospital2021/Self.swift:71-82 | the internal database is loaded and is the table's entry for "院内资料库" |
| GoodHospital.CaseData.BenchmarkCso | SwiftOffice/Cases/goodhospital2021/Self.swift:110-121 | the benchmark database is loaded and is the table's entry for "对标资料库" |
| GoodHospital.CaseData.DirectionsCso | SwiftOffice/Cases/goodhospital2021/Self.swift:140-159 | the directions are loaded and equal the direction of every third-level indicator of the settings in the table; the table changes only on a first load |
| GoodHospital.CaseData.ParentsCso | SwiftOffice/Cases/goodhospital2021/Self.swift:184-203 | the parents are loaded and equal the parent of every third-level indicator of the settings in the table |
| GoodHospital.CaseData.ChildrenCso | SwiftOffice/Cases/goodhospital2021/Self.swift:218-234 | the children are loaded and hold the parent table grouped by parent: each second-level indicator lists exactly its children |
| GoodHospital.CaseData.DirectionSets | SwiftOffice/Cases/goodhospital2021/Self.swift:166-174 | the grouping of the loaded direction table: an indicator lies in the group of `d` exactly when the settings give it direction `d` |
| GoodHospital.CaseData.LocalUnits | SwiftOffice/Cases/goodhospital2021/Self.swift:98-100 | every key of the loaded internal database, once |
| GoodHospital.CaseData.DbDictKeys | SwiftOffice/Cases/goodhospital2021/Self.swift:128-130 | every key of the loaded benchmark database, once |
| GoodHospital.CaseData.LoadAllData | SwiftOffice/Cases/goodhospital2021/Self.swift:260-267 | all six singletons are loaded and agree with the entity table |
| GoodHospital.CaseData.ClearAllCache | SwiftOffice/Cases/goodhospital2021/Self.swift:269-276 | every singleton's dictionary is emptied and its flag is down, as each `clearCache()` does, while the shared entity table is kept |
| GoodHospital.ReloadAfterClear | SwiftOffice/Cases/goodhospital2021/Self.swift:269-276 | a reload after `clearAllCache()` answers the earlier settings, whatever the disk now holds, because the entity table still has them |
| Pages.ChunksFlatten | SwiftOffice/Cases/HospitalReport/PPTSections.swift:63-78 | the pages laid end to end give back the lines, in order: nothing is lost or repeated |
| Pages.ChunksCount | SwiftOffice/Cases/HospitalReport/PPTSections.swift:68-78 | there are ceil(size / limit) pages |
| Pages.ChunksSizes | SwiftOffice/Cases/HospitalReport/PPTSections.swift:68-78 | every page holds between 1 and `limit` items, and every page but the last holds exactly `limit` |
| Pages.ChunkAt | SwiftOffice/Cases/HospitalReport/PPTSections.swift:70 | page `k` is the slice `[k * limit, min((k + 1) * limit, size))` |
| Pages.AllPagesTaken | SwiftOffice/Cases/HospitalReport/PPTSections.swift:68 | the loop stops exactly when `k * limit` reaches the size, which is after the last page |
| Pages.MapPages | SwiftOffice/Cases/HospitalReport/PPTSections.swift:167-171 | one slide per page, each made from its own page |
| Pages.Paginate | SwiftOffice/Cases/HospitalReport/PPTSections.swift:63-78 | the `pstart`/`pend` loop appends to `pres` exactly one slide per page of the lines, in order |
| Slides.EntryLinesShape | SwiftOffice/Cases/HospitalReport/PPTSections.swift:52-61 | exactly two lines per entry: the bold heading with the key, then the body with the value and a line break |
| Slides.SectionLines | SwiftOffice/Cases/HospitalReport/PPTSections.swift:48-61 | every entry is visited once, in some dictionary order, and the lines are that order's headings and bodies, two per entry |
| Slides.TextPageSlides | SwiftOffice/Cases/HospitalReport/PPTSections.swift:48-79 | the lines cut into pages of 15, one slide per page, appended after the existing slides; ceil(2n / 15) slides for n entries; none for an empty section |
| Slides.DistinctEnumeration | SwiftOffice/Cases/HospitalReport/PPTSections.swift:52 | visiting every key once takes as many steps as there are keys |
| Slides.TextPagesAreTheLines | SwiftOffice/Cases/HospitalReport/PPTSections.swift:68-78 | the text pages laid end to end are the section's lines in order; each holds 1 to 15 lines, every page but the last exactly 15 |
| Slides.UnitNames | SwiftOffice/Cases/HospitalReport/PPTSections.swift:133-137 | at most one name per unit |
| Slides.UnitNamesExact | SwiftOffice/Cases/HospitalReport/PPTSections.swift:133-137 | a name is listed exactly when some unit carries it as its "unitName" String; when every unit is named there is one name per unit |
| Slides.NamesOf | SwiftOffice/Cases/HospitalReport/PPTSections.swift:133-137 | the inner loop collects exactly the units' names, in order |
| Slides.RankingRowsExact | SwiftOffice/Cases/HospitalReport/PPTSections.swift:130-142 | a row is kept exactly for an indicator whose value is an array of dictionaries with at least one named unit; every row starts with its indicator; no indicator has two rows |
| Slides.RankingData | SwiftOffice/Cases/HospitalReport/PPTSections.swift:129-142 | every entry is visited once, and the rows are those of that visit order |
| Slides.RankingSlides | SwiftOffice/Cases/HospitalReport/PPTSections.swift:144-172 | the rows cut into pages of 10, one table slide per page under the titles, appended after the existing slides |
| Slides.StatisticsSize | SwiftOffice/Cases/HospitalReport/PPTSections.swift:189-201 | the statistics section has three entries |
| Slides.StatisticsSlides | SwiftOffice/Cases/HospitalReport/PPTSections.swift:189-201 | the three entries give six lines, which fit on one slide |
| Slides.AllNamed | SwiftOffice/Cases/HospitalReport/PPTSections.swift:222-246 | every sample unit is a dictionary with a "unitName", ten per indicator |
| Slides.TopFiveSlides | SwiftOffice/Cases/HospitalReport/PPTSections.swift:218-252 | the two sample indicators give one slide holding two rows of 11 cells under the 11 titles |
| Slides.TopFiveRow | SwiftOffice/Cases/HospitalReport/PPTSections.swift:218-252 | each sample indicator gets a full row: its name and ten unit names |
| Slides.TopFiveRows | SwiftOffice/Cases/HospitalReport/PPTSections.swift:218-252 | in either visit order there are two rows of 11 cells |
| V4.FetchSingleJson | SwiftOffice/Sources/SwiftOffice/V4ProtocolStruct.swift:194-197 | the file as it is now under the default "data" path, whatever `rebuild` says: nothing is cached |
| V4.ReversedJson | SwiftOffice/Sources/SwiftOffice/V4ProtocolStruct.swift:199-208 | nothing when the file is missing; otherwise each String value maps to exactly the keys holding it |
| V4.LocalUnits | SwiftOffice/Sources/SwiftOffice/V4ProtocolStruct.swift:176-179 | the keys of the 院内资料库 file, each exactly once, or none when the file is missing |
| V4.SettingsSectionV4 | SwiftOffice/Sources/SwiftOffice/V4ProtocolStruct.swift:350-370 | empty without a settings file; a non-empty answer is the dictionary of dictionaries stored under the key in the file |
| V4.SettingsSectionFollowsFile | SwiftOffice/Sources/SwiftOffice/V4ProtocolStruct.swift:350-370 | after the settings file is replaced, the next access answers the new section |
| V4.TextLines | SwiftOffice/Sources/SwiftOffice/V4ProtocolStruct.swift:262-277 | two lines per entry of the page's content, in some order visiting each entry once, headings in size 14; none when the content is missing or not a dictionary |
| V4.PageTitle | SwiftOffice/Sources/SwiftOffice/V4ProtocolStruct.swift:279-284 | the page's String "title", else "Page Title" |
| V4.CoverPageTitle | SwiftOffice/Sources/SwiftOffice/V4ProtocolStruct.swift:426-431 | the part of the String "name" before the first "_" (free of "_"), else "章节扉页" |
| V4.CoverTitleIsFirstPiece | SwiftOffice/Sources/SwiftOffice/V4ProtocolStruct.swift:426-431 | a name `a_b` is titled `a` |
| V4.CoverSlides | SwiftOffice/Sources/SwiftOffice/V4ProtocolStruct.swift:433-439 | exactly one slide appended; its text is always "\n\n章节扉页" because the section title, a String, reaches `pageTitle` in place of a dictionary |
| V4.PagedTextSlides | SwiftOffice/Sources/SwiftOffice/V4ProtocolStruct.swift:458-474 | the pages' lines at 15 per slide, appended after the existing slides, each new slide carrying the section title and its lines |
| V4.SectionedTextSlides | SwiftOffice/Sources/SwiftOffice/V4ProtocolStruct.swift:452-475 | the slides are unchanged: without section data it returns at once, and with it the page list is empty |
| V4.RankingRowV4 | SwiftOffice/Sources/SwiftOffice/V4ProtocolStruct.swift:499-507 | one to six cells, the indicator first |
| V4.RankingRowsV4Exact | SwiftOffice/Sources/SwiftOffice/V4ProtocolStruct.swift:498-509 | every row belongs to an indicator whose value is an array of unit dictionaries, every such indicator has its row even when no unit is named, and no indicator has two rows |
| V4.RankingSlidesV4 | SwiftOffice/Sources/SwiftOffice/V4ProtocolStruct.swift:494-520 | nothing appended without section data; otherwise exactly one table slide whose rows are those of the indicators in some order visiting each once |
| V4.RadarSlides | SwiftOffice/Sources/SwiftOffice/V4ProtocolStruct.swift:541-547 | exactly one slide appended, carrying the radar chart data: type radar, title 雷达图, no data |
| Report.ReportYearsReadBack | SwiftOffice/Cases/HospitalReport/ReportGenerator.swift:19-21 | the three year labels are the case layer's years: distinct, and the i-th reads back as the final year minus i |
| Report.ChartTypeOf | SwiftOffice/Cases/HospitalReport/ReportGenerator.swift:74-80 | a chart type read from a raw string has exactly that raw value |
| Report.RawValueRoundTrip | SwiftOffice/Cases/HospitalReport/ReportGenerator.swift:74-80 | every chart type is read back from its raw value, so no two types share one |
| Report.RealArray | SwiftOffice/Cases/HospitalReport/ReportGenerator.swift:146-153 | one number per value, in order |
| Report.SlideJson | SwiftOffice/Cases/HospitalReport/ReportGenerator.swift:139-163 | a slide dictionary always has its title, and has "content", "chart" and "table" exactly when the slide has them, and no other entry |
| Report.ToSlideData | SwiftOffice/Cases/HospitalReport/ReportGenerator.swift:138-164 | one dictionary per slide, in order, each titled by its slide |
| Report.RealArrayRoundTrip | SwiftOffice/Cases/HospitalReport/ReportGenerator.swift:146-153 | the encoded values read back as the same values |
| Report.SeriesListRoundTrip | SwiftOffice/Cases/HospitalReport/ReportGenerator.swift:146-153 | every series reads back whole and in order: name, labels and values |
| Report.RowListRoundTrip | SwiftOffice/Cases/HospitalReport/ReportGenerator.swift:157-162 | the table rows read back whole and in order |
| Report.SlideRoundTrip | SwiftOffice/Cases/HospitalReport/ReportGenerator.swift:138-164 | a slide dictionary reads back as its slide, losing only the chart and table options |
| Report.SlideJsonInjective | SwiftOffice/Cases/HospitalReport/ReportGenerator.swift:138-164 | two slides give the same dictionary only when they differ at most in their options |
| Report.SlideCountAppend | SwiftOffice/Cases/HospitalReport/ReportGenerator.swift:121-123 | the slide count of two runs of sections is the sum of their counts |
| Report.GenerateReport | SwiftOffice/Cases/HospitalReport/ReportGenerator.swift:109-127 | the title slide "<customer>运营分析报告" first, then every section's slides in order; one more slide than the sections hold |
| Report.QualityRadar | SwiftOffice/Cases/HospitalReport/ReportGenerator.swift:181-200 | a radar chart with two series, final year and the year before, on the same five quality axes |
| Report.BarYears | SwiftOffice/Cases/HospitalReport/ReportGenerator.swift:203 | five year labels |
| Report.BarYearsAreConsecutive | SwiftOffice/Cases/HospitalReport/ReportGenerator.swift:203 | the labels are the five consecutive years ending at the final year, all distinct |
| Report.EfficiencyBars | SwiftOffice/Cases/HospitalReport/ReportGenerator.swift:202-216 | a bar chart of three series, each labelled by the five years and holding five values |
| Report.UnitRanking | SwiftOffice/Cases/HospitalReport/ReportGenerator.swift:218-231 | six headers and five rows, each as wide as the headers |
| Report.FullReport | SwiftOffice/Cases/HospitalReport/ReportGenerator.swift:233-249 | two sections: the hospital level with two slides, the unit level with one |
| Report.FullReportSlides | SwiftOffice/Cases/HospitalReport/ReportGenerator.swift:233-249 | the full report has four slides: the title, two chart slides, then the table slide |
| Charts.ShortLabel | SwiftOffice/Sources/SwiftOffice/PPTXGenUtils.swift:78 | a key under seven characters is kept; a longer one becomes its first five characters and its last one |
| Charts.Take | SwiftOffice/Sources/SwiftOffice/PPTXGenUtils.swift:88-89 | exactly min(n, size) elements, the leading ones of the input: the `prefix(12)` cut of the chart fields, and the `prefix(5)` cut of a ranking row's units in V4ProtocolStruct.swift:502 |
| Charts.LabelsOf | SwiftOffice/Sources/SwiftOffice/PPTXGenUtils.swift:77-79 | one label per field visited, each the shortened key |
| Charts.NumbersOf | SwiftOffice/Sources/SwiftOffice/PPTXGenUtils.swift:80-84 | never more values than fields visited |
| Charts.NumbersOfAllNumeric | SwiftOffice/Sources/SwiftOffice/PPTXGenUtils.swift:77-85 | when every field is a number there is one value per field, in the same order as the labels |
| Charts.UnitFields | SwiftOffice/Sources/SwiftOffice/PPTXGenUtils.swift:76-84 | returns the order in which the fields were walked, which lists every field of the unit except the unit-name field exactly once, with one shortened label per visited field and one value per numeric field, both in that order |
| Charts.UnitChart | SwiftOffice/Sources/SwiftOffice/PPTXGenUtils.swift:72-98 | the chart of one unit: its labels and values are those of the fields other than the unit-name field, visited in some order, cut to twelve; labels of at most six characters; never more values than labels |
| Charts.UnitNameLabel | SwiftOffice/Sources/SwiftOffice/PPTXGenUtils.swift:69 | the configured "unitNameLabel" when it is a String, else "科室名" |
| Charts.SettingsOf | SwiftOffice/Sources/SwiftOffice/PPTXGenUtils.swift:62-69 | the guards pass exactly when the section is a dictionary with a "settings" dictionary holding a String "chartType" and a "data" dictionary, and then bind those |
| Charts.SingleObjectCharts | SwiftOffice/Sources/SwiftOffice/PPTXGenUtils.swift:61-100 | nothing when a guard fails; otherwise exactly one chart per unit whose value is a dictionary, each unit once, each chart built from its own unit |
| Chain.ChainNeedsNoFix | SwiftOffice/Sources/SwiftOffice/InheritanceProblem.swift:22-27 | the store path of the class, ready exactly when the file exists and no rewrite is asked |
| Chain.ChainGetJson | SwiftOffice/Sources/SwiftOffice/InheritanceProblem.swift:39-45 | the parsed file when it is ready, the empty dictionary whenever it is not |
| Chain.ChainOptionsAskRewrite | SwiftOffice/Sources/SwiftOffice/InheritanceProblem.swift:134-146 | every level of the chain asks for a rewrite and reads "/<class name>.json" |
| Chain.FetchProduced | SwiftOffice/Sources/SwiftOffice/InheritanceProblem.swift:118-132 | whatever is on disk and whatever `rebuild` says, the computed store is the empty dictionary, since a rewrite is always asked |
| Chain.FetchWouldReadWithoutRewrite | SwiftOffice/Sources/SwiftOffice/InheritanceProblem.swift:39-45 | with the rewrite request dropped, an existing file would be read back |
| Chain.ChainStatics.FetchSingleJson | SwiftOffice/Sources/SwiftOffice/InheritanceProblem.swift:118-132 | recomputes only on a rebuild or an empty `_stormCache`, answers with it, touches no other slot |
| Chain.ChainStatics.DataPrepare | SwiftOffice/Sources/SwiftOffice/InheritanceProblem.swift:60-63 | nil at the base class, `fetchSingleJSON()` at every level below it |
| Chain.ChainStatics.Cso | SwiftOffice/Sources/SwiftOffice/InheritanceProblem.swift:66-71 | every class but 项目设置完整版 fills and reads the one shared `cache`, so the first class to ask decides it for all; 项目设置完整版 uses `_projectCache` |
| Chain.ChainStatics.RequestJsonOf | SwiftOffice/Sources/SwiftOffice/InheritanceProblem.swift:82-87 | with a key, nil (the store is empty); without one, the store, which is the empty dictionary below the base class |
| Chain.ChainStatics.DbAsArrayOf | SwiftOffice/Sources/SwiftOffice/InheritanceProblem.swift:89-101 | no row at all, since the store is empty |
| Chain.ChainStatics.DbDictKeysOf | SwiftOffice/Sources/SwiftOffice/InheritanceProblem.swift:103-106 | no key at all, since the store is empty |
| Chain.ChainStatics.SettingsSection | SwiftOffice/Sources/SwiftOffice/InheritanceProblem.swift:263-273 | the settings sections of 项目设置完整版 are always empty |
| Chain.SharedCacheOrder | SwiftOffice/Sources/SwiftOffice/InheritanceProblem.swift:57-71 | once a subclass has filled the shared cache, the base class answers the empty dictionary instead of nil |
| FullTranslation.ConcatFree | SwiftOffice/Sources/SwiftOffice/FullTranslation.swift:116 | joining pieces none of which holds a character gives a string without it |
| FullTranslation.ReadableNameHasNoSeparator | SwiftOffice/Sources/SwiftOffice/FullTranslation.swift:115-117 | a readable name never holds "_" |
| FullTranslation.ReadableNameOfPlain | SwiftOffice/Sources/SwiftOffice/FullTranslation.swift:115-117 | a name without "_" reads as itself |
| FullTranslation.ReadableNameSwaps | SwiftOffice/Sources/SwiftOffice/FullTranslation.swift:115-117 | the parts on either side of a "_" trade places: `a_b` reads as the reading of `b` followed by that of `a` |
| FullTranslation.ReadableNameIdempotent | SwiftOffice/Sources/SwiftOffice/FullTranslation.swift:115-117 | reading a readable name again changes nothing |
| FullTranslation.ReadableNameExample | SwiftOffice/Sources/SwiftOffice/FullTranslation.swift:115-117 | "内科_医院" reads "医院内科" |
| FullTranslation.DefaultYearsAreThoseOf2021 | SwiftOffice/Sources/SwiftOffice/FullTranslation.swift:99-101 | the default years are those the case layer derives from the final year 2021: Y2021, Y2020, Y2019 |
| FullTranslation.FocusUnitsExtendLocalUnits | SwiftOffice/Sources/SwiftOffice/FullTranslation.swift:104-112 | the default focus units start with the default local units and hold no unit twice |
| FullTranslation.SecondLevelTable | SwiftOffice/Sources/SwiftOffice/FullTranslation.swift:125-127 | three distinct names, full or short |
| FullTranslation.ShortFormsAbbreviate | SwiftOffice/Sources/SwiftOffice/FullTranslation.swift:125-127 | each short name begins or ends the full name in the same place |
| FullTranslation.CachedStruct.Cso | SwiftOffice/Sources/SwiftOffice/FullTranslation.swift:241-243 | present exactly when data was put in the cache, and then that data, since `requestJSON()` is nil |
| FullTranslation.CachedStruct.ClearCache | SwiftOffice/Sources/SwiftOffice/FullTranslation.swift:92-96 | the cache is empty and `cso` is nil again |
| FullTranslation.CachedStruct.Section | SwiftOffice/Sources/SwiftOffice/FullTranslation.swift:246-260 | empty without `cso`; otherwise the dictionary of dictionaries stored under the key, or empty on a shape mismatch |
| FullTranslation.CachedStruct.IsHospital | SwiftOffice/Sources/SwiftOffice/FullTranslation.swift:263-265 | the Bool "isHospital" of 项目信息, true when it or 项目信息 is missing |
| FullTranslation.CachedStruct.CustomerName | SwiftOffice/Sources/SwiftOffice/FullTranslation.swift:267-269 | the String "customerName" of 项目信息, "" when it or 项目信息 is missing |
| FullTranslation.CachedStruct.FinalYear | SwiftOffice/Sources/SwiftOffice/FullTranslation.swift:271-273 | the Int "finalYear" of 项目信息, 2021 when it or 项目信息 is missing |
| FullTranslation.CachedStruct.DirectionSets | SwiftOffice/Sources/SwiftOffice/FullTranslation.swift:294-306 | nothing without `cso`; otherwise each String direction maps to exactly the indicators holding it, other entries skipped |
| FullTranslation.ClearedDefaults | SwiftOffice/Sources/SwiftOffice/FullTranslation.swift:241-273 | an empty or cleared cache answers every project question with its default and every section with nothing |
| FullTranslation.MissingInfoDefaults | SwiftOffice/Sources/SwiftOffice/FullTranslation.swift:263-273 | without a 项目信息 entry the defaults hold even with data cached |
| MoreEntities.FirstLevel | SwiftOffice/Sources/SwiftOffice/MoreEntities.swift:63-66 | none without `cso`; otherwise every top-level key exactly once |
| MoreEntities.SecondLevel | SwiftOffice/Sources/SwiftOffice/MoreEntities.swift:69-72 | every key of the dictionary under the first-level name exactly once; none when it is missing or not a dictionary |
| MoreEntities.ThirdLevelReadsBack | SwiftOffice/Sources/SwiftOffice/MoreEntities.swift:75-79 | a hierarchy holding a list of names under the two levels answers with that list, whole and in order |
| MoreEntities.ThirdLevelShapeMismatch | SwiftOffice/Sources/SwiftOffice/MoreEntities.swift:75-79 | a second level that is not a list yields no names |
| MoreEntities.ExcelSheets | SwiftOffice/Sources/SwiftOffice/MoreEntities.swift:169-183 | one sheet, "医院", with two columns and no content |
| MoreEntities.SectionSlide | SwiftOffice/Sources/SwiftOffice/MoreEntities.swift:292-478 | the one descriptor of a section: titled by the section; type "section", "text" or "chart"; a chart type exactly for the chart sections, "radar" for the radar ones and "bar" otherwise; "showValue" exactly for the raw-value rankings |
| MoreEntities.ChartData | SwiftOffice/Sources/SwiftOffice/MoreEntities.swift:343-345 | every chart section's chart data has a type |
| MoreEntities.ChartDataMatchesSlide | SwiftOffice/Sources/SwiftOffice/MoreEntities.swift:343-478 | a chart section's chart data and its slide agree on the chart type and on `showValue`; the two raw-value rankings differ only in `showValue`, true for one and false for the other |
| MoreEntities.Slides | SwiftOffice/Sources/SwiftOffice/MoreEntities.swift:292-478 | exactly one descriptor appended, the section's own |
| MoreEntities.AllSlides | SwiftOffice/Sources/SwiftOffice/MoreEntities.swift:292-478 | sections run in turn on the same slides: one descriptor per section, in order, after the slides already there |
| MoreEntities.CompareIndicators | SwiftOffice/Sources/SwiftOffice/MoreEntities.swift:486-491 | both names with the noise characters removed |
| MoreEntities.CompareIndicatorsIgnoresNoise | SwiftOffice/Sources/SwiftOffice/MoreEntities.swift:481-491 | comparing cleaned names gives the same result as comparing the raw ones |
| MultiProtocol.Written | SwiftOffice/Sources/SwiftOffice/MultiProtocolAdvantage.swift:87-93 | after the write the file reads back as the data, and every other file reads as before |
| MultiProtocol.SettingsPlus.ReadFromJson | SwiftOffice/Sources/SwiftOffice/MultiProtocolAdvantage.swift:76-84 | present exactly when the settings file exists and holds a dictionary, and then that dictionary |
| MultiProtocol.SettingsPlus.WriteToJson | SwiftOffice/Sources/SwiftOffice/MultiProtocolAdvantage.swift:87-93 | the settings file then reads back as the data written; no other file changes |
| MultiProtocol.SettingsPlus.GetData | SwiftOffice/Sources/SwiftOffice/MultiProtocolAdvantage.swift:101-106 | reads the file only while nothing is cached, keeps what it read, and answers the cache |
| MultiProtocol.SettingsPlus.ClearCache | SwiftOffice/Sources/SwiftOffice/MultiProtocolAdvantage.swift:49-53 | nothing is cached |
| MultiProtocol.SettingsPlus.AdjustedName | SwiftOffice/Sources/SwiftOffice/MultiProtocolAdvantage.swift:96-98 | no noise character is left, the name never grows, and a name is kept exactly when it has no noise |
| MultiProtocol.WriteClearRead | SwiftOffice/Sources/SwiftOffice/MultiProtocolAdvantage.swift:87-106 | writing, clearing the cache and reading again answers what was written |
| MultiProtocol.WriteWithoutClear | SwiftOffice/Sources/SwiftOffice/MultiProtocolAdvantage.swift:87-106 | with data cached, a write to the file is not seen by `getData` |
| MultiProtocol.KeyOf | SwiftOffice/Sources/SwiftOffice/MultiProtocolAdvantage.swift:137 | a row has a number at the key only when it has the key |
| MultiProtocol.Insert | SwiftOffice/Sources/SwiftOffice/MultiProtocolAdvantage.swift:136-139 | one row more, the same rows plus the inserted one |
| MultiProtocol.SortByKey | SwiftOffice/Sources/SwiftOffice/MultiProtocolAdvantage.swift:136-139 | a permutation of the rows |
| MultiProtocol.InsertInOrder | SwiftOffice/Sources/SwiftOffice/MultiProtocolAdvantage.swift:136-139 | inserting a keyed row into rows in order keeps them in order |
| MultiProtocol.SortInOrder | SwiftOffice/Sources/SwiftOffice/MultiProtocolAdvantage.swift:136-139 | when every row holds a number at the key, the sorted rows are in order |
| MultiProtocol.InOrderRanks | SwiftOffice/Sources/SwiftOffice/MultiProtocolAdvantage.swift:138 | rows in order are ranked by their numbers: descending by default, ascending on request |
| MultiProtocol.SortedData | SwiftOffice/Sources/SwiftOffice/MultiProtocolAdvantage.swift:126-140 | nothing without a store; otherwise one tagged row per key, each key once, sorted into a permutation of those rows, in order by the key's number whenever every row has one |
| MultiProtocol.SortedRowsTagged | SwiftOffice/Sources/SwiftOffice/MultiProtocolAdvantage.swift:129-135 | a row carries its unit's name and every field of the unit's dictionary |
| MultiProtocol.RankingChartData | SwiftOffice/Sources/SwiftOffice/MultiProtocolAdvantage.swift:122-144 | a bar chart whose data is empty, because the store read is nil |
| MultiProtocol.TableRows | SwiftOffice/Sources/SwiftOffice/MultiProtocolAdvantage.swift:175-178 | one line of two cells per row: the unit name, "" when it is not a String, and the rendered value |
| MultiProtocol.MissingValueShowsZero | SwiftOffice/Sources/SwiftOffice/MultiProtocolAdvantage.swift:177 | a row without a value shows "0" |
| MultiProtocol.TableRowNamesUnit | SwiftOffice/Sources/SwiftOffice/MultiProtocolAdvantage.swift:129-135 | the line of a tagged row starts with the unit's name |
| MultiProtocol.RawRankingChartData | SwiftOffice/Sources/SwiftOffice/MultiProtocolAdvantage.swift:171-173 | the same chart data as the matching capability-composed raw-value ranking section |
| MultiProtocol.RawRankingTable | SwiftOffice/Sources/SwiftOffice/MultiProtocolAdvantage.swift:166-178 | no line, since `sortedData` is empty |
| MultiProtocol.RadarChartData | SwiftOffice/Sources/SwiftOffice/MultiProtocolAdvantage.swift:229-236 | a radar chart titled by the basename with five categories and five values |
| MultiProtocol.RadarMatchesReport | SwiftOffice/Sources/SwiftOffice/MultiProtocolAdvantage.swift:229-236 | the categories are the hospital report's quality axes and the values its final-year scores |
| MultiProtocol.MultiAdjustedName | SwiftOffice/Sources/SwiftOffice/MultiProtocolAdvantage.swift:259-261 | no "_" is left and the name never grows |
| MultiProtocol.RemoveCharAppend | SwiftOffice/Sources/SwiftOffice/MultiProtocolAdvantage.swift:259-261 | removing a character distributes over concatenation |
| MultiProtocol.RemoveCharAbsent | SwiftOffice/Sources/SwiftOffice/MultiProtocolAdvantage.swift:259-261 | a name without the character is unchanged |
| MultiProtocol.MultiAdjustedKeepsOrder | SwiftOffice/Sources/SwiftOffice/MultiProtocolAdvantage.swift:259-261 | joining around "_" keeps the parts in place, where the readable name swaps them |
| MultiProtocol.MultiCompareIndicators | SwiftOffice/Sources/SwiftOffice/MultiProtocolAdvantage.swift:269-275 | both names adjusted, and the multi-unit radar chart data |
| MultiProtocol.MultiCompareIgnoresSeparators | SwiftOffice/Sources/SwiftOffice/MultiProtocolAdvantage.swift:269-275 | comparing adjusted names gives the same result as comparing the raw ones |
| Exploration.StaticEntity.Cso | SwiftOffice/Sources/SwiftOffice/ExperimentalExploration.swift:59-64 | prepares and stores only while `_cso` is nil, counting one preparation; afterwards answers the stored value without preparing |
| Exploration.StaticEntity.Reset | SwiftOffice/Sources/SwiftOffice/ExperimentalExploration.swift:75-77 | `_cso` is nil again |
| Exploration.FirstLevelSettings | SwiftOffice/Sources/SwiftOffice/ExperimentalExploration.swift:47-49 | empty when the entry is missing; a non-empty answer is the dictionary of dictionaries stored under 一级指标设置 |
| Exploration.StaticLetSettings | SwiftOffice/Sources/SwiftOffice/ExperimentalExploration.swift:41-49 | the static-let settings hold the one first-level entry 安全 |
| Exploration.StaticVarFirstLevel | SwiftOffice/Sources/SwiftOffice/ExperimentalExploration.swift:71-73 | the section of the prepared settings on a first access, of the stored ones afterwards; `_cso` is set either way |
| Exploration.DependentCso | SwiftOffice/Sources/SwiftOffice/ExperimentalExploration.swift:87-100 | on its first access the dependent entity loads the settings too, when they were not loaded, and only then; afterwards neither is touched |
| Exploration.DirectionsStaticVarCso | SwiftOffice/Sources/SwiftOffice/ExperimentalExploration.swift:84-100 | reading the directions leaves the settings loaded, preparing them at most once |
| Exploration.ResetRecomputes | SwiftOffice/Sources/SwiftOffice/ExperimentalExploration.swift:56-77 | two reads, a reset and a third read prepare the settings twice, and every read answers the prepared settings |
| Exploration.DependencyTriggersLoad | SwiftOffice/Sources/SwiftOffice/ExperimentalExploration.swift:84-100 | on fresh statics, reading the directions loads the settings once and a later settings read does not prepare them again |
| Exploration.InstanceFirstLevelEmpty | SwiftOffice/Sources/SwiftOffice/ExperimentalExploration.swift:116-132 | the instance version answers an empty first-level section, where the static versions hold 安全 |
| Analysis.DirectionsV1Cso | SwiftOffice/Sources/SwiftOffice/ProtocolAnalysis.swift:19-29 | its first access also loads 项目设置V1, once, when it was not loaded; the stored value is answered afterwards; a fresh slot holds [:] |
| Analysis.SettingsV1Cso | SwiftOffice/Sources/SwiftOffice/ProtocolAnalysis.swift:10-17 | prepared once, then the stored value |
| Analysis.V1Scenario | SwiftOffice/Sources/SwiftOffice/ProtocolAnalysis.swift:10-29 | on fresh statics, reading the directions prepares the settings and a later settings read does not prepare them again |
| Analysis.V2Cso | SwiftOffice/Sources/SwiftOffice/ProtocolAnalysis.swift:42-62 | the protocol default [:] is what a first read stores, since neither type declares `dataPrepare()` |
| Analysis.ResetAllEntities | SwiftOffice/Sources/SwiftOffice/ProtocolAnalysis.swift:65-75 | one line "重置: <basename>" per entity type, in order |
| Analysis.ResetV2Entities | SwiftOffice/Sources/SwiftOffice/ProtocolAnalysis.swift:65-75 | the two V2 types are named in turn and their `_cso` values stay as they were |
| Analysis.V3Scenario | SwiftOffice/Sources/SwiftOffice/ProtocolAnalysis.swift:97-109 | `reset()` clears `_cso`, so the next read prepares it again |

## Left out

- JSON parsing and pretty printing, `FileManager` and `JSONSerialization`: abstracted as the path-to-optional-JSON map. A failed write, such as one into a missing directory, is not modelled: a write always succeeds.
- Excel reading and writing: `jsonizedExcelData` reads through the Node bridge, modelled as a placeholder result. `write2Excel`, `saveExcel` and `别名库.ex` have empty bodies.
- The Node bridge, `createPPT`, `MakePPTReport.newReport` and the `generate` closures: process spawning and presentation writing.
- Everything printed (`print`, `log`, `error`). `resetAllEntities` is the exception: its lines are returned as a value.
- Layout constants of slide dictionaries and option dictionaries (positions, fonts, colours, `header`, `columnToKey`, `sheetStubs`), including `NormalCaseProtocol.options()` at V4ProtocolStruct.swift:229-243.
- The `renaming` closures held in option dictionaries, and the class-chain `normalKeyName` (InheritanceProblem.swift:162-164) that they wrap.
- The `except` regular expression of `dbAsArray`: modelled as an arbitrary predicate on keys.
- Concurrency (`actor DatabaseHandler`, `nonisolated(unsafe)`, `@unchecked Sendable`): everything is sequential. Static properties are fields of one object per type.
- Floating point: numbers are mathematical reals. The `NSNumber` bridging of `as? Double` is approximated by `JsonModel.AsNumber`, which accepts integers and doubles alike.
- Slides.Describe: renders Strings, Ints and Bools exactly. Doubles and nested values render as "", because Swift's textual description of them is not modelled.
- Charts.ShortLabel: counts Unicode code points, where Swift's `count`, `prefix` and `suffix` count grapheme clusters. The two differ only for names holding combining characters or other multi-code-point graphemes.
- MultiProtocol.SortedData: the order of rows without a number at the key is left unstated. Swift's `sorted` is given a comparator that is not a strict weak order for such rows, so their order is unspecified. The model sorts by insertion, proves that the result is a permutation, and proves order when every row is keyed.
- The protocol default `sortedData` of `Sortable` (MultiProtocolAdvantage.swift:55-60) answers []. Every conforming type overrides it, so it is never called.
- `sectionData()` of the V4Full sections and of the protocol default: it returns nil.
- The constant defaults `years()`, `localUnits()` and `focusUnits()` of `CaseProtocol` (V4ProtocolStruct.swift:211-227) and of `CaseSingleton完整版` (InheritanceProblem.swift:187-197) answer []. Also left out are `normalKeyName` of `CaseProtocol`, which answers its argument; `shortIndicatorName`, the identity; and `三级指标对应二级指标V4Full.vectors()`, which answers [:].
- `JSONDatabase完整版.db` and `dbfilenm` (InheritanceProblem.swift:74-80): `db` answers `cso`, and the file name rule is the one of `Paths.DbFilename`.
- `FileIOProtocol.writeToJSON` of the V4 protocols (V4ProtocolStruct.swift:128-135): a file write. Its effect on reads is the one `MultiProtocol.Written` states.
- Self.swift:51-61 (`isHospital`, `finalYear`, `customerName`): they cast the store through a nested "数据资料" entry of the wrong type. The final year is a parameter of the case-layer members instead.
- Self.swift:281-298: the report generator of the case, which relies on `ContentTexts`. ContentTexts is not part of this model.
- The lazy initialiser of `项目设置StaticLet.cso` prints a line and runs once. The model treats its value as a constant.
- The "save to file" step of the alias `keep` flag: the source leaves it as an empty comment.
- `SwiftOfficeAPI.swift`, `OfficeGenUtils.swift` and `NodeJSConfig.swift`: glue and deprecated generators outside this model.

## Findings

| source | as written | input that shows it | evidently intended | confidence | as-written member | corrected member |
|---|---|---|---|---|---|---|
| SwiftOffice/Sources/SwiftOffice/MultiProtocolAdvantage.swift:77 | `dirname ?? "" + "/\(basename).json"` parses as `dirname ?? ("" + "/项目设置.json")`, because `??` binds more loosely than `+`. Any given dirname is used as the file path itself. The same expression is at line 88. | dirname "/d" gives the path "/d", not "/d/项目设置.json" (Paths.SettingsPathPrecedence: the two differ for every given dirname) | `(dirname ?? "") + "/\(basename).json"`: the settings file inside the directory, which `MultiProtocol.SettingsPlus` reads and writes | high, not executed | Paths.SettingsPathAsWritten | Paths.SettingsPath |
