/** The three shapes of "compute on first access, keep, invalidate" the generator uses
    for its data sources. Each producer (`dataPrepare`, `readFromJSON`, a loader closure)
    is deterministic in the files on disk, so a caller passes the value the producer
    would yield; the ghost counters record how often it actually ran. */
module Caches {
  import opened JsonModel

  // ---------------------------------------------------------------------------
  // An optional slot: `static var cache: [String: Any]?` with `fetch(rebuild:)`
  // ---------------------------------------------------------------------------

  /** Whether a fetch runs the producer: on a rebuild request, or when nothing is cached. */
  predicate Refreshes(cache: Option<Obj>, rebuild: bool) {
    rebuild || cache.None?
  }

  /** The slot after a fetch whose producer would yield `produced`. */
  function Fetched(cache: Option<Obj>, rebuild: bool, produced: Option<Obj>): Option<Obj> {
    if Refreshes(cache, rebuild) then produced else cache
  }

  /** A filled slot answers every plain fetch itself, whatever the producer would say. */
  lemma FilledSlotIsStable(cache: Option<Obj>, produced: Option<Obj>)
    requires cache.Some?
    ensures !Refreshes(cache, false)
    ensures Fetched(cache, false, produced) == cache
  {
  }

  /** Two plain fetches in a row: the second one runs the producer again only when the
      first one produced nil, so the first non-nil result is the one kept. */
  lemma SecondFetchReusesFirst(cache: Option<Obj>, p1: Option<Obj>, p2: Option<Obj>)
    ensures var c1 := Fetched(cache, false, p1);
      Refreshes(c1, false) <==> c1.None?
    ensures Fetched(cache, false, p1).Some? ==> Fetched(Fetched(cache, false, p1), false, p2) == Fetched(cache, false, p1)
    ensures cache.None? && p1.None? ==> Fetched(Fetched(cache, false, p1), false, p2) == p2
  {
  }

  /** A rebuild always installs the producer's result, whatever was cached. */
  lemma RebuildReplaces(cache: Option<Obj>, produced: Option<Obj>)
    ensures Fetched(cache, true, produced) == produced
  {
  }

  class MemoSlot {
    var cache: Option<Obj>
    /** How many times the producer has run. */
    ghost var loads: nat

    constructor ()
      ensures cache == None && loads == 0
    {
      cache := None;
      loads := 0;
    }

    /** `fetch(rebuild:)`: runs the producer only on a rebuild or an empty slot, keeps its
        result (nil included) and answers with the slot. */
    method Fetch(rebuild: bool, produced: Option<Obj>) returns (r: Option<Obj>)
      modifies this
      ensures cache == Fetched(old(cache), rebuild, produced)
      ensures loads == old(loads) + (if Refreshes(old(cache), rebuild) then 1 else 0)
      ensures r == cache
    {
      if rebuild || cache == None {
        cache := produced;
        loads := loads + 1;
      }
      r := cache;
    }

    /** `clearCache()` / `reset()`: forget the value, so the next fetch runs the producer. */
    method Clear()
      modifies this
      ensures cache == None && loads == old(loads)
    {
      cache := None;
    }
  }

  // ---------------------------------------------------------------------------
  // A flagged slot: `_cso` plus `_isLoaded`
  // ---------------------------------------------------------------------------

  class FlaggedSlot {
    var cso: Obj
    var isLoaded: bool
    ghost var loads: nat

    constructor ()
      ensures cso == map[] && !isLoaded && loads == 0
    {
      cso := map[];
      isLoaded := false;
      loads := 0;
    }

    /** `cso`: runs the producer only while the flag is down, then raises it. */
    method Get(produced: Obj) returns (r: Obj)
      modifies this
      ensures isLoaded
      ensures cso == (if old(isLoaded) then old(cso) else produced)
      ensures loads == old(loads) + (if old(isLoaded) then 0 else 1)
      ensures r == cso
    {
      if !isLoaded {
        cso := produced;
        isLoaded := true;
        loads := loads + 1;
      }
      r := cso;
    }

    /** `clearCache()`: empty value and flag down. */
    method ClearCache()
      modifies this
      ensures cso == map[] && !isLoaded && loads == old(loads)
    {
      cso := map[];
      isLoaded := false;
    }
  }

  // ---------------------------------------------------------------------------
  // A keyed table: `static var _cache: [String: [String: Any]]`
  // ---------------------------------------------------------------------------

  /** The table after a lookup of `key` whose producer would yield `produced`. */
  function Looked(entries: map<string, Obj>, key: string, produced: Obj): (r: map<string, Obj>)
    ensures key in r && r.Keys == entries.Keys + {key}
    ensures forall k :: k in entries ==> r[k] == entries[k]
    ensures key !in entries ==> r[key] == produced
  {
    if key in entries then entries else entries[key := produced]
  }

  class KeyedTable {
    var entries: map<string, Obj>
    /** The keys whose producer has run, in order. */
    ghost var log: seq<string>

    constructor ()
      ensures entries == map[] && log == []
    {
      entries := map[];
      log := [];
    }

    /** `cso`: the entry for `key`, produced and stored first when absent. */
    method Cso(key: string, produced: Obj) returns (r: Obj)
      modifies this
      ensures entries == Looked(old(entries), key, produced)
      ensures log == old(log) + (if key in old(entries) then [] else [key])
      ensures r == entries[key]
    {
      if key !in entries {
        entries := entries[key := produced];
        log := log + [key];
      }
      r := entries[key];
    }

    /** `reset()`: drop this one entry. */
    method Reset(key: string)
      modifies this
      ensures entries == old(entries) - {key} && log == old(log)
    {
      entries := entries - {key};
    }

    /** `clearCache()`: drop every entry. */
    method ClearAll()
      modifies this
      ensures entries == map[] && log == old(log)
    {
      entries := map[];
    }
  }
}
