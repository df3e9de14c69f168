/** Alias normalisation: a department or indicator name is mapped to its canonical
    spelling through an alias table, after stripping the noise characters
    `* ↑ ↓ ( ) （ 、 ） /`, `▲` and whitespace. Two lookup orders exist: the protocol
    rule tries the raw name first, the alias entity tries the cleaned name first. */
module Aliases {
  import opened JsonModel
  import opened Text
  import Caches

  /** `json[className] as? [String: String]`: the alias table stored under the class name. */
  function AliasTable(json: Option<Obj>, className: string): Option<map<string, string>> {
    if json.Some? && className in json.value then AsStringTable(json.value[className]) else None
  }

  // ---------------------------------------------------------------------------
  // Raw name first (the alias protocol and the `Alias` class)
  // ---------------------------------------------------------------------------

  /** The name `adjustedName` answers: no table, the name itself; an exact hit, its alias;
      a noisy name, the alias of its cleaned form or else that cleaned form; otherwise
      the name itself. */
  function RawFirst(table: Option<map<string, string>>, name: string): string {
    if table.None? then name
    else if name in table.value then table.value[name]
    else if HasNoise(name) then
      (if Clean(name) in table.value then table.value[Clean(name)] else Clean(name))
    else name
  }

  /** Whether `adjustedName` falls through to `addPairs` to learn `name -> Clean(name)`. */
  predicate Learns(table: Option<map<string, string>>, name: string) {
    table.Some? && name !in table.value && HasNoise(name) && Clean(name) !in table.value
  }

  /** What the raw-first rule answers, case by case. */
  lemma RawFirstCases(table: Option<map<string, string>>, name: string)
    ensures table.None? ==> RawFirst(table, name) == name
    ensures table.Some? && name in table.value ==> RawFirst(table, name) == table.value[name]
    ensures Learns(table, name) ==> RawFirst(table, name) == Clean(name)
    ensures !HasNoise(name) && (table.None? || name !in table.value) ==> RawFirst(table, name) == name
    ensures RawFirst(table, name) == name || RawFirst(table, name) == Clean(name)
      || (table.Some? && RawFirst(table, name) in table.value.Values)
  {
    if table.Some? && name in table.value {
      assert table.value[name] in table.value.Values;
    } else if table.Some? && HasNoise(name) && Clean(name) in table.value {
      assert table.value[Clean(name)] in table.value.Values;
    }
  }

  /** When every alias is itself free of noise, so is every answer. */
  lemma RawFirstNoiseFree(table: map<string, string>, name: string)
    requires forall k :: k in table ==> !HasNoise(table[k])
    ensures !HasNoise(RawFirst(Some(table), name))
  {
  }

  /** An alias table is canonical when every alias is noise-free and is not itself an alias key. */
  predicate Canonical(table: map<string, string>) {
    forall k :: k in table ==> !HasNoise(table[k]) && table[k] !in table
  }

  /** Over a canonical table, adjusting a name twice gives what adjusting it once gives. */
  lemma RawFirstIdempotent(table: map<string, string>, name: string)
    requires Canonical(table)
    ensures RawFirst(Some(table), RawFirst(Some(table), name)) == RawFirst(Some(table), name)
  {
    var r := RawFirst(Some(table), name);
    if name !in table && HasNoise(name) && Clean(name) !in table {
      CleanIdempotent(name);
      CleanFixpoint(Clean(name));
    }
    assert !HasNoise(r);
    assert r !in table;
  }

  /** Without the canonical hypothesis a second pass can move the name again:
      with `a -> b` and `b -> c`, "a" becomes "b" and then "c". */
  lemma RawFirstNotIdempotentInGeneral()
    ensures var t := map["a" := "b", "b" := "c"];
      RawFirst(Some(t), "a") == "b" && RawFirst(Some(t), RawFirst(Some(t), "a")) == "c"
  {
  }

  // ---------------------------------------------------------------------------
  // Cleaned name first (`AliasEntity`)
  // ---------------------------------------------------------------------------

  /** `cleanName`: the name, stripped of noise when it holds any. */
  function CleanName(name: string): (r: string)
    ensures r == Clean(name)
  {
    if HasNoise(name) then Clean(name) else (CleanFixpoint(name); name)
  }

  /** `AliasEntity.adjustedName`: the cleaned name when there is no table, otherwise the
      alias of the cleaned name, else the alias of the raw name, else the cleaned name. */
  function CleanFirst(table: Option<map<string, string>>, name: string): string {
    var c := CleanName(name);
    if table.None? then c
    else if c in table.value then table.value[c]
    else if name in table.value then table.value[name]
    else c
  }

  /** Without a table the entity strips noise, and doing so twice changes nothing more. */
  lemma CleanFirstWithoutTable(name: string)
    ensures CleanFirst(None, name) == Clean(name)
    ensures !HasNoise(CleanFirst(None, name))
    ensures CleanFirst(None, CleanFirst(None, name)) == CleanFirst(None, name)
  {
    CleanIdempotent(name);
  }

  /** "内科*" becomes "内科" and "外科↑" becomes "外科", and a clean name is kept. */
  lemma CleanFirstExamples()
    ensures CleanFirst(None, "内科*") == "内科"
    ensures CleanFirst(None, "外科↑") == "外科"
    ensures CleanFirst(None, "内科") == "内科"
  {
    ExampleNoise();
    assert "内科*" == "内科" + ['*'] && "外科↑" == "外科" + ['↑'];
    CleanTrailingNoise("内科", '*');
    CleanTrailingNoise("外科", '↑');
    CleanFixpoint("内科");
  }

  /** Which characters of the examples are noise. */
  lemma ExampleNoise()
    ensures IsNoise('*') && IsNoise('↑')
    ensures !HasNoise("内科") && !HasNoise("外科")
  {
    assert !IsNoise('内') && !IsNoise('科') && !IsNoise('外');
  }

  /** One noise character after a clean name is dropped. */
  lemma CleanTrailingNoise(s: string, c: char)
    requires !HasNoise(s) && IsNoise(c)
    ensures Clean(s + [c]) == s
  {
    CleanConcat(s, [c]);
    CleanFixpoint(s);
    assert Clean([c]) == Clean([c][1..]);
  }

  /** The two lookup orders agree whenever no alias key holds noise. */
  lemma LookupOrdersAgreeOnCleanKeys(table: Option<map<string, string>>, name: string)
    requires table.Some? ==> forall k :: k in table.value ==> !HasNoise(k)
    requires table.Some?
    ensures RawFirst(table, name) == CleanFirst(table, name)
  {
    CleanFixpoint(name);
  }

  /** They differ once a noisy key and its cleaned form map to different aliases. */
  lemma LookupOrdersDiffer()
    ensures var t := Some(map["a*" := "X", "a" := "Y"]);
      RawFirst(t, "a*") == "X" && CleanFirst(t, "a*") == "Y"
  {
    assert IsNoise('*') && !IsNoise('a');
    assert Clean("*") == [];
    assert Clean("a*") == "a";
  }

  // ---------------------------------------------------------------------------
  // Learning pairs (the alias protocol)
  // ---------------------------------------------------------------------------

  /** The pairs of `dict` that `addPairs` keeps: those whose key differs from its value. */
  predicate Kept(dict: map<string, string>, k: string) {
    k in dict && dict[k] != k
  }

  /** `db` with every kept pair of `dict` written over it. */
  function Paired(db: Obj, dict: map<string, string>): (r: Obj)
    ensures forall k :: k in r <==> k in db || Kept(dict, k)
  {
    map k | k in db.Keys + (set k | k in dict && dict[k] != k) ::
      if Kept(dict, k) then JStr(dict[k]) else db[k]
  }

  /** `db` is `base` with the kept pairs of `dict` whose keys are no longer in `rem`
      written over it. */
  ghost predicate PairsWritten(db: Obj, base: Obj, dict: map<string, string>, rem: set<string>) {
    (forall k :: k in db <==> k in base || (Kept(dict, k) && k !in rem))
    && forall k :: k in db ==> db[k] == (if Kept(dict, k) && k !in rem then JStr(dict[k]) else base[k])
  }

  /** Taking `key` out of `rem` writes its pair when it is kept. */
  lemma WritePairStep(db: Obj, base: Obj, dict: map<string, string>, rem: set<string>, key: string)
    requires key in rem && rem <= dict.Keys && PairsWritten(db, base, dict, rem)
    ensures key != dict[key] ==> PairsWritten(db[key := JStr(dict[key])], base, dict, rem - {key})
    ensures key == dict[key] ==> PairsWritten(db, base, dict, rem - {key})
  {
  }

  /** With nothing left in `rem`, every kept pair is written. */
  lemma AllPairsWritten(db: Obj, base: Obj, dict: map<string, string>)
    requires PairsWritten(db, base, dict, {})
    ensures db == Paired(base, dict)
  {
  }

  /** `addPairs(dict:keep:)`: when the cached store casts to `[String: String]`, writes the
      kept pairs over a local copy and, only with `keep`, saves that copy to the file; the
      answer is what is saved. The cache itself is never touched. */
  method AddPairs(cache: Option<Obj>, dict: map<string, string>, keep: bool) returns (written: Option<Obj>)
    ensures written.Some? <==> keep && cache.Some? && AllStrings(cache.value)
    ensures written.Some? ==> written.value == Paired(cache.value, dict)
  {
    written := None;
    if cache.Some? && AllStrings(cache.value) {
      var db := cache.value;
      var rem := dict.Keys;
      while rem != {}
        invariant rem <= dict.Keys
        invariant PairsWritten(db, cache.value, dict, rem)
        decreases |rem|
      {
        var key :| key in rem;
        WritePairStep(db, cache.value, dict, rem, key);
        if key != dict[key] {
          db := db[key := JStr(dict[key])];
        }
        rem := rem - {key};
      }
      AllPairsWritten(db, cache.value, dict);
      if keep {
        written := Some(db);
      }
    }
  }

  /** `adjustedName(_:keep:)`: fetches the alias store through the singleton cache, applies
      the raw-first rule to the table under the class name, and learns a new pair through
      `addPairs`. The store holding that table is a dictionary of dictionaries, never of
      strings, so the learning step never saves anything, whatever `keep` says. */
  method AdjustedName(slot: Caches.MemoSlot, produced: Option<Obj>, className: string, name: string, keep: bool)
    returns (r: string, written: Option<Obj>)
    modifies slot
    ensures slot.cache == Caches.Fetched(old(slot.cache), false, produced)
    ensures r == RawFirst(AliasTable(slot.cache, className), name)
    ensures written == None
  {
    var json := slot.Fetch(false, produced);
    var table := AliasTable(json, className);
    r := RawFirst(table, name);
    written := None;
    if Learns(table, name) {
      assert json.value[className].JObj?;
      assert !AllStrings(json.value);
      written := AddPairs(json, map[name := Clean(name)], keep);
    }
  }
}
