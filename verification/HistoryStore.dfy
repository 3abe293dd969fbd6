/** The history store as the package-level object it is; every method runs under its mutex. */
module HistoryStore {
  import opened Prelude
  import opened Rpc
  import opened History

  lemma {:induction false} FilteredStayDistinct(es: seq<Entry>, p: Entry -> bool)
    requires DistinctGids(es)
    ensures DistinctGids(Filter(es, p))
  {
    if es != [] {
      var rest := Filter(es[1..], p);
      FilteredStayDistinct(es[1..], p);
      forall j | 0 <= j < |rest|
        ensures rest[j].gid != es[0].gid
      {
        assert rest[j] in rest;
        FilterMember(es[1..], p, rest[j]);
        var k :| 0 <= k < |es[1..]| && es[1..][k] == rest[j];
        assert es[k + 1] == rest[j];
      }
    }
  }

  lemma {:induction false} FilteredSame(es: seq<Entry>, p: Entry -> bool)
    requires |Filter(es, p)| == |es|
    ensures Filter(es, p) == es
  {
    if es != [] {
      FilteredShorter(es[1..], p);
      FilteredSame(es[1..], p);
    }
  }

  lemma {:induction false} FilteredShorter(es: seq<Entry>, p: Entry -> bool)
    ensures |Filter(es, p)| <= |es|
  {
    if es != [] { FilteredShorter(es[1..], p); }
  }

  // ---- the indexes under one change -----------------------------------------------------------

  function Read(index: map<string, int>, source: string): int { if source in index then index[source] else 0 }

  function Dropped(index: map<string, int>, source: string): map<string, int> {
    if source == "" then index
    else if Read(index, source) - 1 <= 0 then index - {source}
    else index[source := Read(index, source) - 1]
  }

  function Counted(index: map<string, int>, source: string): map<string, int> {
    if source == "" then index else index[source := Read(index, source) + 1]
  }

  lemma SourcesUpdated(es: seq<Entry>, i: nat, e: Entry, index: map<string, int>)
    requires i < |es| && ExactSources(es, index)
    ensures ExactSources(es[i := e], if es[i].source == e.source then index
                                     else Counted(Dropped(index, es[i].source), e.source))
  {
    forall s: string
      ensures Occurrences(es[i := e], s)
              == Occurrences(es, s) - (if es[i].source == s then 1 else 0) + (if e.source == s then 1 else 0)
    {
      OccurrencesUpdate(es, i, e, s);
    }
  }

  lemma SourcesAppended(es: seq<Entry>, e: Entry, index: map<string, int>)
    requires ExactSources(es, index)
    ensures ExactSources(es + [e], Counted(index, e.source))
  {
    assert (es + [e])[..|es|] == es;
  }

  lemma SourcesCut(es: seq<Entry>, i: nat, index: map<string, int>)
    requires i < |es| && ExactSources(es, index)
    ensures ExactSources(es[..i] + es[i + 1..], Dropped(index, es[i].source))
  {
    forall s: string
      ensures Occurrences(es[..i] + es[i + 1..], s) == Occurrences(es, s) - (if es[i].source == s then 1 else 0)
    {
      OccurrencesRemove(es, i, s);
    }
  }

  lemma PositionsUpdated(es: seq<Entry>, i: nat, e: Entry, index: map<string, nat>)
    requires i < |es| && e.gid == es[i].gid && ExactPositions(es, index)
    ensures ExactPositions(es[i := e], index)
  {
  }

  lemma PositionsAppended(es: seq<Entry>, e: Entry, index: map<string, nat>)
    requires ExactPositions(es, index) && e.gid !in index
    ensures ExactPositions(es + [e], index[e.gid := |es|])
  {
  }

  /** The gids of the named entries, in the order of the list. */
  function GidsAmong(es: seq<Entry>, named: set<string>): seq<string> {
    if es == [] then []
    else GidsAmong(es[..|es| - 1], named) + (if es[|es| - 1].gid in named then [es[|es| - 1].gid] else [])
  }

  lemma CompactNext(es: seq<Entry>, i: nat, named: set<string>)
    requires i < |es|
    ensures WithoutAll(es[..i + 1], named) == WithoutAll(es[..i], named) + (if es[i].gid in named then [] else [es[i]])
    ensures GidsAmong(es[..i + 1], named)
            == GidsAmong(es[..i], named) + (if es[i].gid in named then [es[i].gid] else [])
  {
    assert es[..i + 1] == es[..i] + [es[i]];
    assert es[..i + 1][..i] == es[..i];
    FilterAppend(es[..i], [es[i]], NoneOf(named));
  }

  /** What a compaction does not keep it lists. */
  lemma {:induction false} CompactionLengths(es: seq<Entry>, named: set<string>)
    ensures |WithoutAll(es, named)| + |GidsAmong(es, named)| == |es|
  {
    if es != [] {
      var n := |es| - 1;
      CompactionLengths(es[..n], named);
      CompactNext(es, n, named);
      assert es[..n + 1] == es;
    }
  }

  class Journal {
    var entries: seq<Entry>
    var gidIndex: map<string, nat>
    var sourceIndex: map<string, int>
    var saveEnabled: bool
    var triggers: nat
    var lastSaved: nat
    var hooks: seq<Hook>

    ghost predicate Valid()
      reads this
    {
      ExactPositions(entries, gidIndex) && ExactSources(entries, sourceIndex)
    }

    constructor (saveEnabled: bool)
      ensures Valid() && entries == [] && hooks == [] && triggers == 0
    {
      entries, gidIndex, sourceIndex := [], map[], map[];
      this.saveEnabled, triggers, lastSaved, hooks := saveEnabled, 0, 0, [];
    }

    method TriggerSaveLocked()
      modifies `triggers, `lastSaved
      ensures triggers == old(triggers) + 1
      ensures lastSaved == if saveEnabled then old(lastSaved) else triggers
    {
      triggers := triggers + 1;
      if !saveEnabled { lastSaved := triggers; }
    }

    method DropSource(source: string)
      modifies `sourceIndex
      ensures sourceIndex == Dropped(old(sourceIndex), source)
    {
      if source != "" {
        sourceIndex := sourceIndex[source := Read(sourceIndex, source) - 1];
        if sourceIndex[source] <= 0 { sourceIndex := sourceIndex - {source}; }
      }
    }

    method CountSource(source: string)
      modifies `sourceIndex
      ensures sourceIndex == Counted(old(sourceIndex), source)
    {
      if source != "" { sourceIndex := sourceIndex[source := Read(sourceIndex, source) + 1]; }
    }

    method Replace(i: nat, e: Entry)
      requires Valid() && i < |entries| && e.gid == entries[i].gid
      modifies `entries, `sourceIndex
      ensures Valid() && entries == old(entries)[i := e]
    {
      PositionsUpdated(entries, i, e, gidIndex);
      SourcesUpdated(entries, i, e, sourceIndex);
      var oldSource := entries[i].source;
      if oldSource != e.source {
        DropSource(oldSource);
        CountSource(e.source);
      }
      entries := entries[i := e];
    }

    method Append(e: Entry)
      requires Valid() && e.gid !in gidIndex
      modifies `entries, `gidIndex, `sourceIndex
      ensures Valid() && entries == old(entries) + [e]
    {
      PositionsAppended(entries, e, gidIndex);
      SourcesAppended(entries, e, sourceIndex);
      entries := entries + [e];
      gidIndex := gidIndex[e.gid := |entries| - 1];
      CountSource(e.source);
    }

    /** Adds or updates by gid, in place, keeping both indexes exact. */
    method Add(entry: Entry, now: int)
      requires Valid()
      modifies this
      ensures Valid() && entries == Added(old(entries), entry, now)
      ensures triggers == old(triggers) + 1 && hooks == old(hooks)
    {
      PositionIs(entries, gidIndex, entry.gid);
      if entry.gid in gidIndex {
        Replace(gidIndex[entry.gid], Updated(entries[gidIndex[entry.gid]], entry));
      } else {
        Append(entry.(completedAt := now));
      }
      TriggerSaveLocked();
    }

    /** Renumbers what follows a cut. */
    method Renumber(i: nat)
      requires i <= |entries| && forall k :: 0 <= k < |entries| ==> entries[k].gid in gidIndex
      requires DistinctGids(entries)
      modifies `gidIndex
      ensures gidIndex.Keys == old(gidIndex).Keys
      ensures forall k :: 0 <= k < |entries| ==> gidIndex[entries[k].gid] == if k < i then old(gidIndex)[entries[k].gid] else k
    {
      for j := i to |entries|
        invariant gidIndex.Keys == old(gidIndex).Keys
        invariant forall k :: 0 <= k < |entries| ==>
                    gidIndex[entries[k].gid] == if i <= k < j then k else old(gidIndex)[entries[k].gid]
      {
        gidIndex := gidIndex[entries[j].gid := j];
      }
    }

    /** Cuts the entry at `i` out of the list and both indexes. */
    method Cut(i: nat)
      requires Valid() && i < |entries|
      modifies `entries, `gidIndex, `sourceIndex
      ensures Valid() && entries == old(entries)[..i] + old(entries)[i + 1..]
    {
      ghost var was, index := entries, gidIndex;
      SourcesCut(entries, i, sourceIndex);
      CutIsRenumberable(entries, i, gidIndex);
      DropSource(entries[i].source);
      gidIndex := gidIndex - {entries[i].gid};
      entries := entries[..i] + entries[i + 1..];
      ghost var cut, trimmed := entries, gidIndex;
      assert forall k :: 0 <= k < i ==> trimmed[cut[k].gid] == index[cut[k].gid] == k;
      Renumber(i);
      assert forall k :: 0 <= k < |cut| ==> entries[k] == cut[k] && gidIndex[cut[k].gid] == k;
      PositionsAfterCut(was, i, index, gidIndex);
    }

    /** Removes one entry; unknown gids change nothing. */
    method RemoveLocked(gid: string, notifyGroup: bool)
      requires Valid()
      modifies this
      ensures Valid() && entries == Without(old(entries), gid) == Removal(old(entries), old(gidIndex), gid)
      ensures var known := Position(old(entries), gid) < |old(entries)|;
              && triggers == old(triggers) + (if known then 1 else 0)
              && hooks == old(hooks) + (if known && notifyGroup then [RemovedOne(gid)] else [])
    {
      PositionIs(entries, gidIndex, gid);
      if gid !in gidIndex {
        WithoutAbsent(entries, gid);
        return;
      }
      if notifyGroup { hooks := hooks + [RemovedOne(gid)]; }
      var i := gidIndex[gid];
      assert entries[i].gid == gid;
      WithoutIsCut(entries, i);
      ghost var without := Without(entries, gid);
      Cut(i);
      assert entries == without;
      TriggerSaveLocked();
    }

    /** The index rebuild of RemoveMany and Load. */
    method RebuildIndexes()
      modifies `gidIndex, `sourceIndex
      ensures gidIndex == LoadedPositions(entries) && sourceIndex == LoadedSources(entries)
    {
      gidIndex, sourceIndex := map[], map[];
      for i := 0 to |entries|
        invariant gidIndex == LoadedPositions(entries[..i]) && sourceIndex == LoadedSources(entries[..i])
      {
        assert entries[..i + 1][..i] == entries[..i];
        gidIndex := gidIndex[entries[i].gid := i];
        CountSource(entries[i].source);
      }
      assert entries[..|entries|] == entries;
    }

    /** One pass that keeps the entries not named; the removed gids are listed in order. */
    method Compact(removeSet: set<string>) returns (kept: seq<Entry>, removed: seq<string>)
      ensures kept == WithoutAll(entries, removeSet) && removed == GidsAmong(entries, removeSet)
    {
      kept, removed := [], [];
      for i := 0 to |entries|
        invariant kept == WithoutAll(entries[..i], removeSet) && removed == GidsAmong(entries[..i], removeSet)
      {
        CompactNext(entries, i, removeSet);
        if entries[i].gid in removeSet {
          removed := removed + [entries[i].gid];
        } else {
          kept := kept + [entries[i]];
        }
      }
      assert entries[..|entries|] == entries;
    }

    /** Puts a shorter list in place and indexes it anew. */
    method Reindex(kept: seq<Entry>)
      requires DistinctGids(kept)
      modifies `entries, `gidIndex, `sourceIndex
      ensures Valid() && entries == kept
    {
      entries := kept;
      RebuildIndexes();
      LoadIsExactIffDistinct(entries);
      LoadedSourcesExact(entries);
    }

    /** Removes every named gid in one pass; the empty gid is never removed this way. */
    method RemoveMany(gids: seq<string>)
      requires Valid()
      modifies this
      ensures Valid() && entries == WithoutAll(old(entries), Named(gids)) == RemoveEach(old(entries), gids)
      ensures triggers == old(triggers) + (if entries == old(entries) then 0 else 1)
      ensures hooks == old(hooks) + (if entries == old(entries) then []
                                     else [RemovedMany(GidsAmong(old(entries), Named(gids)))])
    {
      var removeSet := Named(gids);
      RemoveManyIsRemoveEach(entries, gids);
      CompactionLengths(entries, removeSet);
      PositionIs(entries, gidIndex, "");
      FilteredStayDistinct(entries, NoneOf(removeSet));
      var kept, removed := Compact(removeSet);
      if removed == [] {
        FilteredSame(entries, NoneOf(removeSet));
        return;
      }
      hooks := hooks + [RemovedMany(removed)];
      Reindex(kept);
      TriggerSaveLocked();
    }

    method Clear()
      modifies this
      ensures Valid() && entries == [] && hooks == old(hooks) + [ClearedAll] && triggers == old(triggers) + 1
    {
      entries, gidIndex, sourceIndex := [], map[], map[];
      hooks := hooks + [ClearedAll];
      TriggerSaveLocked();
    }

    /** A loaded file: the source index is always right, the position index exactly when gids are distinct. */
    method Load(file: Option<seq<Entry>>)
      modifies this
      ensures entries == if file.Some? then file.value else []
      ensures ExactSources(entries, sourceIndex)
      ensures Valid() <==> DistinctGids(entries)
      ensures triggers == old(triggers)
    {
      entries := if file.Some? then file.value else [];
      RebuildIndexes();
      LoadedSourcesExact(entries);
      LoadIsExactIffDistinct(entries);
    }

    // ---- lookups ---------------------------------------------------------------------------------

    method Get(gid: string) returns (found: Option<Entry>)
      requires Valid()
      ensures found == (var i := Position(entries, gid); if i < |entries| then Some(entries[i]) else None)
    {
      PositionIs(entries, gidIndex, gid);
      return if gid in gidIndex then Some(entries[gidIndex[gid]]) else None;
    }

    method ContainsSource(source: string) returns (found: bool)
      requires Valid()
      ensures found <==> source != "" && exists i :: 0 <= i < |entries| && entries[i].source == source
    {
      OccurrencesPositive(entries, source);
      return Read(sourceIndex, source) > 0;
    }

    method ContainsSources(sources: seq<string>) returns (present: set<string>)
      requires Valid()
      ensures forall s :: s in present <==> s in sources && s != "" && exists i :: 0 <= i < |entries| && entries[i].source == s
    {
      present := {};
      for k := 0 to |sources|
        invariant forall s :: s in present <==>
                    s in sources[..k] && s != "" && exists i :: 0 <= i < |entries| && entries[i].source == s
      {
        assert sources[..k + 1] == sources[..k] + [sources[k]];
        OccurrencesPositive(entries, sources[k]);
        if sources[k] != "" && Read(sourceIndex, sources[k]) > 0 { present := present + {sources[k]}; }
      }
      assert sources[..|sources|] == sources;
    }

    method GetMissingByGID(existing: set<string>) returns (missing: seq<Entry>)
      ensures missing == WithoutAll(entries, existing)
    {
      var kept, _ := Compact(existing);
      return kept;
    }
  }

  lemma CutIsRenumberable(es: seq<Entry>, i: nat, index: map<string, nat>)
    requires i < |es| && ExactPositions(es, index)
    ensures var cut := es[..i] + es[i + 1..];
            && DistinctGids(cut)
            && (forall k :: 0 <= k < |cut| ==> cut[k].gid in index && cut[k].gid != es[i].gid)
            && (forall k :: 0 <= k < i ==> index[cut[k].gid] == k)
  {
    var cut := es[..i] + es[i + 1..];
    forall k | 0 <= k < |cut|
      ensures cut[k].gid in index && index[cut[k].gid] == if k < i then k else k + 1
    {
      assert cut[k] == es[if k < i then k else k + 1];
    }
    assert index[es[i].gid] == i;
  }

  /** With exact positions the index is linear search. */
  lemma PositionIs(es: seq<Entry>, index: map<string, nat>, gid: string)
    requires ExactPositions(es, index)
    ensures gid in index <==> Position(es, gid) < |es|
    ensures gid in index ==> index[gid] == Position(es, gid)
    ensures DistinctGids(es)
  {
    var i := Position(es, gid);
    if i < |es| { assert es[i].gid in index; }
    forall j, k | 0 <= j < k < |es| ensures es[j].gid != es[k].gid {
      assert index[es[j].gid] == j && index[es[k].gid] == k;
    }
  }

  lemma PositionsAfterCut(was: seq<Entry>, i: nat, index: map<string, nat>, next: map<string, nat>)
    requires i < |was| && ExactPositions(was, index) && next.Keys == index.Keys - {was[i].gid}
    requires var cut := was[..i] + was[i + 1..];
             forall k :: 0 <= k < |cut| ==> cut[k].gid in next && next[cut[k].gid] == k
    ensures ExactPositions(was[..i] + was[i + 1..], next)
  {
    var cut := was[..i] + was[i + 1..];
    forall gid | gid in next ensures next[gid] < |cut| && cut[next[gid]].gid == gid {
      var p := index[gid];
      assert was[p].gid == gid && p != i;
      assert cut[if p < i then p else p - 1] == was[p];
    }
  }
}
