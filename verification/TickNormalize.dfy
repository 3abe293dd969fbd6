/** Canonical tick lists: active over waiting over stopped, one stopped row per download. */
module TickNormalize {
  import opened Prelude
  import opened Rpc
  import opened TaskLists
  import opened TaskTick

  function Gids(rows: seq<Task>): set<string> { set t | t in rows :: t.gid }

  function NotIn(gids: set<string>): Task -> bool { (t: Task) => t.gid != "" && t.gid !in gids }

  /** The first row of every download, in order. */
  function FirstOfEach(rows: seq<Task>): seq<Task> {
    if rows == [] then []
    else
      var before := rows[..|rows| - 1];
      FirstOfEach(before) + (if rows[|rows| - 1].gid in Gids(before) then [] else [rows[|rows| - 1]])
  }

  function Normalized(incoming: Lists): Lists {
    var active := Filter(incoming.active, NotIn({}));
    var waiting := Filter(incoming.waiting, NotIn(Gids(active)));
    Lists(active, waiting, FirstOfEach(Filter(incoming.stopped, NotIn(Gids(active) + Gids(waiting)))))
  }

  lemma GidsAppend(a: seq<Task>, b: seq<Task>)
    ensures Gids(a + b) == Gids(a) + Gids(b)
  {
    forall t | t in a + b ensures t.gid in Gids(a) + Gids(b) { }
    forall g | g in Gids(a) + Gids(b)
      ensures g in Gids(a + b)
    {
      if g in Gids(a) {
        var t :| t in a && t.gid == g;
        assert t in a + b;
      } else {
        var t :| t in b && t.gid == g;
        assert t in a + b;
      }
    }
  }

  lemma OneGid(t: Task)
    ensures Gids([t]) == {t.gid}
  {
    assert t in [t];
  }

  lemma {:induction false} FirstOfEachKeepsGids(rows: seq<Task>)
    ensures Gids(FirstOfEach(rows)) == Gids(rows)
  {
    if rows != [] {
      var n := |rows| - 1;
      FirstOfEachKeepsGids(rows[..n]);
      assert rows == rows[..n] + [rows[n]];
      GidsAppend(rows[..n], [rows[n]]);
      OneGid(rows[n]);
      GidsAppend(FirstOfEach(rows[..n]), [rows[n]]);
    }
  }

  lemma {:induction false} FirstOfEachDistinct(rows: seq<Task>)
    ensures Distinct(FirstOfEach(rows))
  {
    if rows != [] {
      var n := |rows| - 1;
      var before := FirstOfEach(rows[..n]);
      FirstOfEachDistinct(rows[..n]);
      FirstOfEachKeepsGids(rows[..n]);
      assert forall t :: t in before ==> t.gid in Gids(before);
    }
  }

  lemma {:induction false} FirstOfDistinct(rows: seq<Task>)
    requires Distinct(rows)
    ensures FirstOfEach(rows) == rows
  {
    if rows != [] {
      var n := |rows| - 1;
      FirstOfDistinct(rows[..n]);
      assert rows[n].gid !in Gids(rows[..n]);
    }
  }

  lemma KeptGids(rows: seq<Task>, excluded: set<string>)
    ensures Gids(Filter(rows, NotIn(excluded))) == Gids(rows) - excluded - {""}
  {
    var kept := Filter(rows, NotIn(excluded));
    forall g
      ensures g in Gids(kept) <==> g in Gids(rows) - excluded - {""}
    {
      if g in Gids(kept) {
        var t :| t in kept && t.gid == g;
        FilterMember(rows, NotIn(excluded), t);
      }
      if g in Gids(rows) - excluded - {""} {
        var t :| t in rows && t.gid == g;
        FilterMember(rows, NotIn(excluded), t);
      }
    }
  }

  /**
   * The canonical lists name exactly the non-empty gids of the tick, no gid in two lists,
   * no stopped gid twice, and each gid in the first list that had it.
   */
  lemma NormalizedPartition(incoming: Lists)
    ensures var n := Normalized(incoming);
            && Gids(n.active) == Gids(incoming.active) - {""}
            && Gids(n.waiting) == Gids(incoming.waiting) - Gids(incoming.active) - {""}
            && Gids(n.stopped) == Gids(incoming.stopped) - Gids(incoming.active) - Gids(incoming.waiting) - {""}
            && Distinct(n.stopped)
  {
    var active := Filter(incoming.active, NotIn({}));
    var waiting := Filter(incoming.waiting, NotIn(Gids(active)));
    var stopped := Filter(incoming.stopped, NotIn(Gids(active) + Gids(waiting)));
    assert Normalized(incoming) == Lists(active, waiting, FirstOfEach(stopped));
    KeptGids(incoming.active, {});
    KeptGids(incoming.waiting, Gids(active));
    KeptGids(incoming.stopped, Gids(active) + Gids(waiting));
    FirstOfEachKeepsGids(stopped);
    FirstOfEachDistinct(stopped);
  }

  /** Normalising canonical lists again changes nothing. */
  lemma NormalizeIsIdempotent(incoming: Lists)
    ensures Normalized(Normalized(incoming)) == Normalized(incoming)
  {
    var n := Normalized(incoming);
    NormalizedPartition(incoming);
    FilterAll(n.active, {});
    FilterAll(n.waiting, Gids(n.active));
    FilterAll(n.stopped, Gids(n.active) + Gids(n.waiting));
    FirstOfDistinct(n.stopped);
  }

  lemma {:induction false} FilterAll(rows: seq<Task>, excluded: set<string>)
    requires Gids(rows) !! excluded + {""}
    ensures Filter(rows, NotIn(excluded)) == rows
  {
    if rows != [] {
      assert rows == [rows[0]] + rows[1..];
      GidsAppend([rows[0]], rows[1..]);
      OneGid(rows[0]);
      FilterAll(rows[1..], excluded);
    }
  }

  lemma RetainedGids(rows: seq<Task>, same: seq<Task>, all: seq<Task>)
    ensures Gids(Retain(rows, same, all)) == Gids(rows)
  {
    var r := Retain(rows, same, all);
    forall t | t in r ensures t.gid in Gids(rows) {
      var i :| 0 <= i < |r| && r[i] == t;
      assert rows[i] in rows;
    }
    forall t | t in rows ensures t.gid in Gids(r) {
      var i :| 0 <= i < |rows| && rows[i] == t;
      assert r[i] in r && r[i].gid == t.gid;
    }
  }

  function AriaOnly(gids: set<string>): set<string> { set g | g in gids && !IsSurge(g) }

  lemma AriaGids(rows: seq<Task>)
    ensures Gids(Filter(rows, IsAria)) == AriaOnly(Gids(rows))
  {
    forall g
      ensures g in Gids(Filter(rows, IsAria)) <==> g in Gids(rows) && !IsSurge(g)
    {
      if g in Gids(Filter(rows, IsAria)) {
        var t :| t in Filter(rows, IsAria) && t.gid == g;
        FilterMember(rows, IsAria, t);
      }
      if g in Gids(rows) && !IsSurge(g) {
        var t :| t in rows && t.gid == g;
        FilterMember(rows, IsAria, t);
      }
    }
  }

  /** A tick gives each list the aria2 gids of the engine's, whatever the cache held. */
  lemma UpdatedGids(l: Lists, tick: Lists)
    ensures var next := Update(l, tick);
            && Gids(next.active) == AriaOnly(Gids(tick.active))
            && Gids(next.waiting) == AriaOnly(Gids(tick.waiting))
            && Gids(next.stopped) == AriaOnly(Gids(tick.stopped))
  {
    AriaGids(tick.active);
    AriaGids(tick.waiting);
    AriaGids(tick.stopped);
    RetainedGids(Filter(tick.active, IsAria), l.active, All(l));
    RetainedGids(Filter(tick.waiting, IsAria), l.waiting, All(l));
    RetainedGids(Filter(tick.stopped, IsAria), l.stopped, All(l));
  }

  lemma PartsShareNothing(a: set<string>, b: set<string>, c: set<string>)
    ensures var x, y, z := AriaOnly(a - {""}), AriaOnly(b - a - {""}), AriaOnly(c - a - b - {""});
            x !! y !! z && x + y + z == AriaOnly(a + b + c - {""})
  {
  }

  /** A canonical tick leaves the cache's aria2 lists sharing no download, whatever they were before. */
  lemma TickListsShareNothing(l: Lists, incoming: Lists)
    ensures var next := Update(l, Normalized(incoming));
            && Gids(next.active) !! Gids(next.waiting) !! Gids(next.stopped)
            && Gids(next.active) + Gids(next.waiting) + Gids(next.stopped)
               == AriaOnly(Gids(incoming.active) + Gids(incoming.waiting) + Gids(incoming.stopped) - {""})
  {
    NormalizedPartition(incoming);
    UpdatedGids(l, Normalized(incoming));
    PartsShareNothing(Gids(incoming.active), Gids(incoming.waiting), Gids(incoming.stopped));
  }

  // ---- the loops -----------------------------------------------------------------------------------------

  lemma FilterNext(rows: seq<Task>, i: nat, excluded: set<string>)
    requires i < |rows|
    ensures Filter(rows[..i + 1], NotIn(excluded))
            == Filter(rows[..i], NotIn(excluded))
               + if rows[i].gid != "" && rows[i].gid !in excluded then [rows[i]] else []
  {
    assert rows[..i + 1] == rows[..i] + [rows[i]];
    FilterAppend(rows[..i], [rows[i]], NotIn(excluded));
  }

  lemma GidsNext(kept: seq<Task>, t: Task)
    ensures Gids(kept + [t]) == Gids(kept) + {t.gid}
  {
    GidsAppend(kept, [t]);
    OneGid(t);
  }

  lemma FirstNext(kept: seq<Task>, t: Task)
    ensures FirstOfEach(kept + [t]) == FirstOfEach(kept) + if t.gid in Gids(kept) then [] else [t]
  {
    assert (kept + [t])[..|kept|] == kept;
  }

  /** One of the first two loops: keeps what is named and not excluded, and collects the gids kept. */
  method KeepNamed(rows: seq<Task>, excluded: set<string>) returns (kept: seq<Task>, gids: set<string>)
    ensures kept == Filter(rows, NotIn(excluded)) && gids == Gids(kept)
  {
    kept, gids := [], {};
    for i := 0 to |rows|
      invariant kept == Filter(rows[..i], NotIn(excluded)) && gids == Gids(kept)
    {
      FilterNext(rows, i, excluded);
      if rows[i].gid == "" || rows[i].gid in excluded { continue; }
      GidsNext(kept, rows[i]);
      kept := kept + [rows[i]];
      gids := gids + {rows[i].gid};
    }
    assert rows[..|rows|] == rows;
  }

  /** The third loop: also one row per download, the first. */
  method KeepFirstNamed(rows: seq<Task>, live: set<string>) returns (stopped: seq<Task>)
    ensures stopped == FirstOfEach(Filter(rows, NotIn(live)))
  {
    var seen: set<string> := {};
    stopped := [];
    ghost var kept: seq<Task> := [];
    for i := 0 to |rows|
      invariant kept == Filter(rows[..i], NotIn(live))
      invariant seen == Gids(kept) && stopped == FirstOfEach(kept)
    {
      FilterNext(rows, i, live);
      var t := rows[i];
      if t.gid == "" || t.gid in live { continue; }
      GidsNext(kept, t);
      FirstNext(kept, t);
      kept := kept + [t];
      if t.gid in seen { continue; }
      seen := seen + {t.gid};
      stopped := stopped + [t];
    }
    assert rows[..|rows|] == rows;
  }

  method NormalizeAria2TickLists(incoming: Lists) returns (norm: Lists)
    ensures norm == Normalized(incoming)
  {
    var active, activeGids := KeepNamed(incoming.active, {});
    var waiting, waitingGids := KeepNamed(incoming.waiting, activeGids);
    var stopped := KeepFirstNamed(incoming.stopped, activeGids + waitingGids);
    norm := Lists(active, waiting, stopped);
  }

  /** With no tombstones the list is returned as it came, unnamed rows included. */
  method DropDeletedStopped(deleted: set<string>, stopped: seq<Task>) returns (left: seq<Task>)
    ensures left == if deleted == {} then stopped else Filter(stopped, NotIn(deleted))
  {
    if deleted == {} { return stopped; }
    var kept, _ := KeepNamed(stopped, deleted);
    return kept;
  }
}
