/** The history list with its two indexes: position by gid, and how often each source occurs. */
module History {
  import opened Prelude
  import opened Rpc

  datatype Entry = Entry(gid: string, title: string, dir: string, path: string, totalLength: string,
                         completedLength: string, completedAt: int, source: string, status: string,
                         group: Option<DownloadGroup>, durationMs: int, avgSpeed: int, peakSpeed: int)

  datatype Hook = RemovedOne(gid: string) | RemovedMany(gids: seq<string>) | ClearedAll

  // ---- what the indexes should say -------------------------------------------------------------

  predicate DistinctGids(es: seq<Entry>) { forall i, j :: 0 <= i < j < |es| ==> es[i].gid != es[j].gid }

  /** `index` maps exactly the gids present, each to its position. */
  predicate ExactPositions(es: seq<Entry>, index: map<string, nat>) {
    && (forall gid :: gid in index ==> index[gid] < |es| && es[index[gid]].gid == gid)
    && (forall i :: 0 <= i < |es| ==> es[i].gid in index && index[es[i].gid] == i)
  }

  function Occurrences(es: seq<Entry>, source: string): nat {
    if es == [] then 0
    else Occurrences(es[..|es| - 1], source) + (if es[|es| - 1].source == source then 1 else 0)
  }

  /** `index` maps exactly the non-empty sources present, each to how often it occurs. */
  ghost predicate ExactSources(es: seq<Entry>, index: map<string, int>) {
    forall s: string ::
      && (s in index <==> s != "" && Occurrences(es, s) > 0)
      && (s in index ==> index[s] == Occurrences(es, s))
  }

  /** Exact indexes are determined by the entries. */
  lemma IndexesAreUnique(es: seq<Entry>, p: map<string, nat>, q: map<string, nat>, a: map<string, int>, b: map<string, int>)
    requires ExactPositions(es, p) && ExactPositions(es, q) && ExactSources(es, a) && ExactSources(es, b)
    ensures p == q && a == b
  {
    forall gid | gid in p ensures gid in q && q[gid] == p[gid] { assert es[p[gid]].gid == gid; }
    forall gid | gid in q ensures gid in p { assert es[q[gid]].gid == gid; }
  }

  lemma {:induction false} OccurrencesAppend(a: seq<Entry>, b: seq<Entry>, s: string)
    ensures Occurrences(a + b, s) == Occurrences(a, s) + Occurrences(b, s)
  {
    if b == [] {
      assert a + b == a;
    } else {
      assert (a + b)[..|a + b| - 1] == a + b[..|b| - 1];
      OccurrencesAppend(a, b[..|b| - 1], s);
    }
  }

  lemma OccurrencesOfOne(e: Entry, s: string)
    ensures Occurrences([e], s) == if e.source == s then 1 else 0
  {
    assert [e][..0] == [];
    assert Occurrences([e][..0], s) == 0;
  }

  /** Replacing one entry moves one occurrence. */
  lemma OccurrencesUpdate(es: seq<Entry>, i: nat, e: Entry, s: string)
    requires i < |es|
    ensures Occurrences(es[i := e], s)
            == Occurrences(es, s) - (if es[i].source == s then 1 else 0) + (if e.source == s then 1 else 0)
  {
    assert es == es[..i] + [es[i]] + es[i + 1..];
    assert es[i := e] == es[..i] + [e] + es[i + 1..];
    OccurrencesAppend(es[..i] + [es[i]], es[i + 1..], s);
    OccurrencesAppend(es[..i], [es[i]], s);
    OccurrencesAppend(es[..i] + [e], es[i + 1..], s);
    OccurrencesAppend(es[..i], [e], s);
    OccurrencesOfOne(es[i], s);
    OccurrencesOfOne(e, s);
  }

  lemma OccurrencesRemove(es: seq<Entry>, i: nat, s: string)
    requires i < |es|
    ensures Occurrences(es[..i] + es[i + 1..], s) == Occurrences(es, s) - (if es[i].source == s then 1 else 0)
  {
    assert es == es[..i] + [es[i]] + es[i + 1..];
    OccurrencesAppend(es[..i] + [es[i]], es[i + 1..], s);
    OccurrencesAppend(es[..i], [es[i]], s);
    OccurrencesAppend(es[..i], es[i + 1..], s);
    OccurrencesOfOne(es[i], s);
  }

  lemma {:induction false} OccurrencesPositive(es: seq<Entry>, s: string)
    ensures Occurrences(es, s) > 0 <==> exists i :: 0 <= i < |es| && es[i].source == s
  {
    if es != [] {
      var n := |es| - 1;
      OccurrencesPositive(es[..n], s);
      assert forall i :: 0 <= i < n ==> es[..n][i] == es[i];
    }
  }

  // ---- the operations on the list ---------------------------------------------------------------

  function Position(es: seq<Entry>, gid: string): (i: nat)
    ensures i <= |es| && (i < |es| ==> es[i].gid == gid)
    ensures forall k :: 0 <= k < i ==> es[k].gid != gid
  {
    if es == [] || es[0].gid == gid then 0
    else
      var j := Position(es[1..], gid);
      assert forall k :: 1 <= k < |es| ==> es[k] == es[1..][k - 1];
      1 + j
  }

  function KeepIfZero(dst: int, previous: int): int { if dst == 0 then previous else dst }

  /** A re-added entry keeps the group and the timings it does not bring itself. */
  function Updated(previous: Entry, entry: Entry): Entry {
    entry.(group := if entry.group.None? then previous.group else entry.group,
           completedAt := KeepIfZero(entry.completedAt, previous.completedAt),
           durationMs := KeepIfZero(entry.durationMs, previous.durationMs),
           avgSpeed := KeepIfZero(entry.avgSpeed, previous.avgSpeed),
           peakSpeed := KeepIfZero(entry.peakSpeed, previous.peakSpeed))
  }

  function Added(es: seq<Entry>, entry: Entry, now: int): seq<Entry> {
    var i := Position(es, entry.gid);
    if i < |es| then es[i := Updated(es[i], entry)] else es + [entry.(completedAt := now)]
  }

  /**
   * Adding changes one entry: it is found under its gid afterwards, every other entry
   * keeps content and order, and a group or a timing once known is never lost.
   */
  lemma AddChangesOneEntry(es: seq<Entry>, entry: Entry, now: int)
    requires DistinctGids(es)
    ensures var next := Added(es, entry, now);
            var i := Position(es, entry.gid);
            && DistinctGids(next) && Position(next, entry.gid) == i < |next|
            && Without(next, entry.gid) == Without(es, entry.gid)
            && next[i].source == entry.source && next[i].status == entry.status
            && (i == |es| ==> next[i].completedAt == now)
            && (i < |es| ==>
                  && (entry.group.Some? ==> next[i].group == entry.group)
                  && (es[i].group.Some? ==> next[i].group.Some?)
                  && (es[i].completedAt != 0 ==> next[i].completedAt != 0)
                  && (es[i].durationMs != 0 ==> next[i].durationMs != 0)
                  && (es[i].avgSpeed != 0 ==> next[i].avgSpeed != 0)
                  && (es[i].peakSpeed != 0 ==> next[i].peakSpeed != 0))
  {
    var next := Added(es, entry, now);
    var i := Position(es, entry.gid);
    var gid := entry.gid;
    assert forall k :: 0 <= k < |es| && k != i ==> next[k] == es[k];
    assert next[i].gid == gid;
    PositionOf(next, i);
    if i < |es| {
      WithoutIsCut(es, i);
      WithoutIsCut(next, i);
    } else {
      WithoutAbsent(es, gid);
      WithoutIsCut(next, i);
      assert next[..i] + next[i + 1..] == es;
    }
  }

  lemma PositionOf(es: seq<Entry>, i: nat)
    requires i < |es| && DistinctGids(es)
    ensures Position(es, es[i].gid) == i
  {
    var p := Position(es, es[i].gid);
    assert es[p].gid == es[i].gid;
  }

  function NotGid(gid: string): Entry -> bool { (e: Entry) => e.gid != gid }

  function NoneOf(gids: set<string>): Entry -> bool { (e: Entry) => e.gid !in gids }

  function Without(es: seq<Entry>, gid: string): seq<Entry> { Filter(es, NotGid(gid)) }

  function WithoutAll(es: seq<Entry>, gids: set<string>): seq<Entry> { Filter(es, NoneOf(gids)) }

  function Named(gids: seq<string>): set<string> { set gid | gid in gids && gid != "" }

  /** Remove on each non-empty gid, one after the other. */
  function RemoveEach(es: seq<Entry>, gids: seq<string>): seq<Entry> {
    if gids == [] then es
    else
      var before := RemoveEach(es, gids[..|gids| - 1]);
      if gids[|gids| - 1] == "" then before else Without(before, gids[|gids| - 1])
  }

  lemma {:induction false} FilterAgain(es: seq<Entry>, gids: set<string>, gid: string)
    ensures Without(WithoutAll(es, gids), gid) == WithoutAll(es, gids + {gid})
  {
    if es != [] {
      var rest := WithoutAll(es[1..], gids);
      FilterAgain(es[1..], gids, gid);
      if es[0].gid !in gids {
        assert WithoutAll(es, gids) == [es[0]] + rest;
        assert ([es[0]] + rest)[1..] == rest;
        assert Without([es[0]] + rest, gid) == (if es[0].gid != gid then [es[0]] else []) + Without(rest, gid);
      } else {
        assert WithoutAll(es, gids) == rest;
      }
    }
  }

  lemma {:induction false} WithoutNone(es: seq<Entry>)
    ensures WithoutAll(es, {}) == es
  {
    if es != [] { WithoutNone(es[1..]); }
  }

  /**
   * One compaction pass is the same as removing each gid in turn; since the pass only
   * depends on which gids are named, the order and repetitions do not matter either.
   */
  lemma {:induction false} RemoveManyIsRemoveEach(es: seq<Entry>, gids: seq<string>)
    ensures RemoveEach(es, gids) == WithoutAll(es, Named(gids))
  {
    if gids == [] {
      assert Named(gids) == {};
      WithoutNone(es);
    } else {
      var n := |gids| - 1;
      RemoveManyIsRemoveEach(es, gids[..n]);
      assert gids == gids[..n] + [gids[n]];
      if gids[n] == "" {
        assert Named(gids) == Named(gids[..n]);
      } else {
        assert Named(gids) == Named(gids[..n]) + {gids[n]};
        FilterAgain(es, Named(gids[..n]), gids[n]);
      }
    }
  }

  lemma {:induction false} WithoutAbsent(es: seq<Entry>, gid: string)
    requires forall i :: 0 <= i < |es| ==> es[i].gid != gid
    ensures Without(es, gid) == es
  {
    if es != [] {
      assert forall k :: 1 <= k < |es| ==> es[k] == es[1..][k - 1];
      WithoutAbsent(es[1..], gid);
    }
  }

  /** Without other entries of its gid, removing an entry is cutting its position out. */
  lemma LoneIsCut(es: seq<Entry>, i: nat)
    requires i < |es| && forall k :: 0 <= k < |es| && k != i ==> es[k].gid != es[i].gid
    ensures Without(es, es[i].gid) == es[..i] + es[i + 1..]
  {
    var gid := es[i].gid;
    var tail := es[i + 1..];
    assert es == es[..i] + ([es[i]] + tail);
    FilterAppend(es[..i], [es[i]] + tail, NotGid(gid));
    assert ([es[i]] + tail)[1..] == tail;
    assert Without([es[i]] + tail, gid) == Without(tail, gid);
    WithoutAbsent(es[..i], gid);
    WithoutAbsent(tail, gid);
  }

  /** In a list of distinct gids, removing one is cutting its position out. */
  lemma WithoutIsCut(es: seq<Entry>, i: nat)
    requires i < |es| && DistinctGids(es)
    ensures Without(es, es[i].gid) == es[..i] + es[i + 1..]
  {
    LoneIsCut(es, i);
  }

  // ---- loading: exactly when the file is good ------------------------------------------------------

  /** The position index Load builds: the last entry of a gid wins. */
  function LoadedPositions(es: seq<Entry>): map<string, nat> {
    if es == [] then map[] else LoadedPositions(es[..|es| - 1])[es[|es| - 1].gid := |es| - 1]
  }

  function LoadedSources(es: seq<Entry>): map<string, int> {
    if es == [] then map[]
    else
      var m := LoadedSources(es[..|es| - 1]);
      var s := es[|es| - 1].source;
      if s == "" then m else m[s := (if s in m then m[s] else 0) + 1]
  }

  lemma {:induction false} LoadedPositionsAreLast(es: seq<Entry>)
    ensures forall gid :: gid in LoadedPositions(es) ==>
              var i := LoadedPositions(es)[gid];
              i < |es| && es[i].gid == gid && forall k :: i < k < |es| ==> es[k].gid != gid
    ensures forall i :: 0 <= i < |es| ==> es[i].gid in LoadedPositions(es)
  {
    if es != [] { LoadedPositionsAreLast(es[..|es| - 1]); }
  }

  lemma {:induction false} LoadedSourcesExact(es: seq<Entry>)
    ensures ExactSources(es, LoadedSources(es))
  {
    if es != [] { LoadedSourcesExact(es[..|es| - 1]); }
  }

  /** The loaded position index is exact if and only if the file's gids are distinct. */
  lemma LoadIsExactIffDistinct(es: seq<Entry>)
    ensures ExactPositions(es, LoadedPositions(es)) <==> DistinctGids(es)
  {
    LoadedPositionsAreLast(es);
    if ExactPositions(es, LoadedPositions(es)) {
      forall i, j | 0 <= i < j < |es| ensures es[i].gid != es[j].gid {
        assert LoadedPositions(es)[es[i].gid] == i && LoadedPositions(es)[es[j].gid] == j;
      }
    }
    if DistinctGids(es) {
      forall i | 0 <= i < |es| ensures LoadedPositions(es)[es[i].gid] == i {
        var p := LoadedPositions(es)[es[i].gid];
        assert es[p].gid == es[i].gid;
      }
    }
  }

  /** What a removal makes of the list: it cuts the position out that the index names. */
  function Removal(es: seq<Entry>, index: map<string, nat>, gid: string): seq<Entry> {
    if gid !in index || index[gid] >= |es| then es else es[..index[gid]] + es[index[gid] + 1..]
  }

  predicate OccursOnce(es: seq<Entry>, gid: string) {
    forall i, j :: 0 <= i < j < |es| ==> es[i].gid != gid || es[j].gid != gid
  }

  /** After loading, a removal takes every entry of its gid if and only if there was at most one. */
  lemma LoadedRemovalIsExactIff(es: seq<Entry>, gid: string)
    ensures Removal(es, LoadedPositions(es), gid) == Without(es, gid) <==> OccursOnce(es, gid)
  {
    LoadedPositionsAreLast(es);
    if gid !in LoadedPositions(es) {
      WithoutAbsent(es, gid);
    } else if OccursOnce(es, gid) {
      LoneIsCut(es, LoadedPositions(es)[gid]);
    } else {
      TwinSurvivesRemoval(es, gid);
    }
  }

  /** With twins in the file only the last one is found, and another one survives the removal. */
  lemma TwinSurvivesRemoval(es: seq<Entry>, gid: string)
    requires !OccursOnce(es, gid)
    ensures exists k :: 0 <= k < |Removal(es, LoadedPositions(es), gid)|
                        && Removal(es, LoadedPositions(es), gid)[k].gid == gid
    ensures Removal(es, LoadedPositions(es), gid) != Without(es, gid)
  {
    LoadedPositionsAreLast(es);
    var i, j :| 0 <= i < j < |es| && es[i].gid == gid && es[j].gid == gid;
    assert es[i].gid in LoadedPositions(es);
    var last := LoadedPositions(es)[gid];
    assert i < last;
    var left := Removal(es, LoadedPositions(es), gid);
    assert left[i] == es[i] && left[i] in left;
    FilterMember(es, NotGid(gid), es[i]);
  }
}
