/** The task cache as an object: one set of lists per engine, changed in place. */
module TaskCache {
  import opened Prelude
  import opened Rpc
  import opened TaskMetadata
  import opened TaskLists
  import opened TaskTick

  /** storeFoldedTask's loop: what is kept so far and whether the row has been placed. */
  function Storing(rows: seq<Task>, task: Task): (seq<Task>, bool) {
    if rows == [] then ([], false)
    else
      var (kept, stored) := Storing(rows[..|rows| - 1], task);
      var t := rows[|rows| - 1];
      if t.gid != task.gid then (kept + [t], stored)
      else if !stored then (kept + [task], true)
      else (kept, stored)
  }

  lemma FirstIndexAppend(rows: seq<Task>, t: Task, gid: string)
    ensures FirstIndex(rows + [t], gid) == if Has(rows, gid) then FirstIndex(rows, gid)
                                           else if t.gid == gid then |rows| else |rows| + 1
  {
    var i := FirstIndex(rows + [t], gid);
    var j := FirstIndex(rows, gid);
    assert forall k :: 0 <= k < |rows| ==> (rows + [t])[k] == rows[k];
    assert (rows + [t])[|rows|] == t;
    if j < |rows| { assert (rows + [t])[j].gid == gid; }
  }

  lemma {:induction false} StoringIsStore(rows: seq<Task>, task: Task)
    ensures Storing(rows, task) == if Has(rows, task.gid) then (Store(rows, task), true) else (rows, false)
  {
    if rows != [] {
      var n := |rows| - 1;
      var before, t := rows[..n], rows[n];
      StoringIsStore(before, task);
      assert rows == before + [t];
      HasAppend(before, [t], task.gid);
      assert Has([t], task.gid) <==> t.gid == task.gid by { assert [t][0] == t; }
      FirstIndexAppend(before, t, task.gid);
      if Has(before, task.gid) {
        StoreAppend(before, t, task);
        assert t.gid == task.gid ==> Store(before, task) + [] == Store(before, task);
      } else if t.gid == task.gid {
        assert rows[..n] == before && rows[n + 1..] == [];
        assert Store(rows, task) == before + ([task] + Others([], task.gid));
        assert [task] + [] == [task];
      }
    }
  }

  lemma SliceAppend(before: seq<Task>, t: Task, i: nat)
    requires i < |before|
    ensures (before + [t])[..i] == before[..i] && (before + [t])[i + 1..] == before[i + 1..] + [t]
  {
  }

  lemma Reassociate(a: seq<Task>, b: seq<Task>, c: seq<Task>, d: seq<Task>)
    ensures a + (b + (c + d)) == (a + (b + c)) + d
  {
  }

  lemma StoreAppend(before: seq<Task>, t: Task, task: Task)
    requires Has(before, task.gid)
    ensures Store(before + [t], task) == Store(before, task) + (if t.gid == task.gid then [] else [t])
  {
    var rows := before + [t];
    var i := FirstIndex(before, task.gid);
    FirstIndexAppend(before, t, task.gid);
    var tail := if t.gid == task.gid then [] else [t];
    SliceAppend(before, t, i);
    FilterAppend(before[i + 1..], [t], Other(task.gid));
    assert Others([t], task.gid) == tail;
    Reassociate(before[..i], [task], Others(before[i + 1..], task.gid), tail);
  }

  /** The three slices of one engine; every method runs under that engine's mutex. */
  class EngineLists {
    var active: seq<Task>
    var waiting: seq<Task>
    var stopped: seq<Task>

    constructor ()
      ensures Now() == Lists([], [], [])
    {
      active, waiting, stopped := [], [], [];
    }

    function Now(): Lists
      reads this
    {
      Lists(active, waiting, stopped)
    }

    method Assign(name: ListName, rows: seq<Task>)
      modifies this
      ensures Now() == Set(old(Now()), name, rows)
    {
      match name
      case Active => active := rows;
      case Waiting => waiting := rows;
      case Stopped => stopped := rows;
    }

    /** Keeps the rows of other downloads and says whether any row went. */
    method DetachTask(name: ListName, gid: string) returns (found: bool)
      modifies this
      ensures Now() == Set(old(Now()), name, Others(Get(old(Now()), name), gid))
      ensures found <==> Has(Get(old(Now()), name), gid)
    {
      var rows := Get(Now(), name);
      var kept: seq<Task> := [];
      found := false;
      for i := 0 to |rows|
        invariant kept == Others(rows[..i], gid) && (found <==> Has(rows[..i], gid)) && Now() == old(Now())
      {
        assert rows[..i + 1] == rows[..i] + [rows[i]];
        FilterAppend(rows[..i], [rows[i]], Other(gid));
        HasAppend(rows[..i], [rows[i]], gid);
        assert Has([rows[i]], gid) <==> rows[i].gid == gid by { assert rows[i].gid == gid ==> [rows[i]][0].gid == gid; }
        if rows[i].gid == gid {
          found := true;
        } else {
          kept := kept + [rows[i]];
        }
      }
      assert rows[..|rows|] == rows;
      Assign(name, kept);
    }

    method SweepFromOtherLists(gid: string, dest: ListName)
      modifies this
      ensures Get(Now(), dest) == Get(old(Now()), dest)
      ensures forall n: ListName :: n != dest ==> Get(Now(), n) == Others(Get(old(Now()), n), gid)
    {
      if dest != Active { var _ := DetachTask(Active, gid); }
      if dest != Waiting { var _ := DetachTask(Waiting, gid); }
      if dest != Stopped { var _ := DetachTask(Stopped, gid); }
    }

    method FoldTaskRows(gid: string, dest: ListName) returns (row: Option<Task>)
      ensures row == FoldFrom(Now(), gid, dest)
    {
      var rows := Get(Now(), dest) + active + waiting + stopped;
      row := None;
      for i := 0 to |rows|
        invariant row == FoldRows(gid, rows[..i])
      {
        assert rows[..i + 1][..i] == rows[..i];
        row := FoldIn(row, gid, rows[i]);
      }
      assert rows[..|rows|] == rows;
    }

    method StoreFoldedTask(dest: ListName, task: Task)
      modifies this
      ensures Now() == Set(old(Now()), dest, Store(Get(old(Now()), dest), task))
    {
      var rows := Get(Now(), dest);
      var kept: seq<Task>, stored := [], false;
      for i := 0 to |rows|
        invariant Now() == old(Now()) && (kept, stored) == Storing(rows[..i], task)
      {
        assert rows[..i + 1][..i] == rows[..i];
        if rows[i].gid != task.gid {
          kept := kept + [rows[i]];
        } else if !stored {
          kept, stored := kept + [task], true;
        }
      }
      assert rows[..|rows|] == rows;
      StoringIsStore(rows, task);
      if !stored { kept := kept + [task]; }
      Assign(dest, kept);
    }

    /** One row of the download, in `dest`: in place of the first one there, or at the end. */
    method PlaceRow(dest: ListName, task: Task)
      modifies this
      ensures Now() == Settle(old(Now()), dest, task)
    {
      ghost var settled := Settle(Now(), dest, task);
      StoreFoldedTask(dest, task);
      SweepFromOtherLists(task.gid, dest);
      forall n: ListName ensures Get(Now(), n) == Get(settled, n) { SettledList(old(Now()), dest, task, n); }
      SameLists(Now(), settled);
    }

    method AppendRow(dest: ListName, task: Task)
      requires !Has(Get(Now(), dest), task.gid)
      modifies this
      ensures Now() == Settle(old(Now()), dest, task)
    {
      assert Store(Get(Now(), dest), task) == Get(Now(), dest) + [task];
      Assign(dest, Get(Now(), dest) + [task]);
      SweepFromOtherLists(task.gid, dest);
      ghost var settled := Settle(old(Now()), dest, task);
      forall n: ListName ensures Get(Now(), n) == Get(settled, n) { SettledList(old(Now()), dest, task, n); }
      SameLists(Now(), settled);
    }

    method MoveTaskBetweenLists(gid: string, status: string, dest: ListName, refuseStopped: bool)
      returns (source: Option<ListName>)
      modifies this
      ensures (Now(), source) == Move(old(Now()), gid, status, dest, refuseStopped)
    {
      var folded := FoldTaskRows(gid, dest);
      FoldFromFinds(Now(), gid, dest);
      if folded.None? || (refuseStopped && !Has(active, gid) && !Has(waiting, gid)) { return None; }
      source := Source(Now(), gid, dest, refuseStopped);
      if source.None? { return; }
      var row := Arriving(folded.value, status, source.value, dest);
      if source == Some(dest) {
        PlaceRow(dest, row);
      } else {
        AppendRow(dest, row);
      }
    }

    method AddTaskLocked(task: Task, dest: ListName)
      modifies this
      ensures Now() == Add(old(Now()), task, dest)
    {
      var inTarget := Has(Get(Now(), dest), task.gid);
      var folded := FoldTaskRows(task.gid, dest);
      FoldFromFinds(Now(), task.gid, dest);
      var row := if folded.None? then task else MergeFields(folded.value, task);
      if !inTarget { row := row.(errorCode := task.errorCode, errorMessage := task.errorMessage); }
      PlaceRow(dest, row);
    }
  }

  lemma SettledList(l: Lists, dest: ListName, task: Task, n: ListName)
    ensures Get(Settle(l, dest, task), n) == if n == dest then Store(Get(l, n), task) else Others(Get(l, n), task.gid)
  {
  }

  lemma SameLists(a: Lists, b: Lists)
    requires forall n: ListName :: Get(a, n) == Get(b, n)
    ensures a == b
  {
    assert Get(a, Active) == Get(b, Active) && Get(a, Waiting) == Get(b, Waiting) && Get(a, Stopped) == Get(b, Stopped);
  }

  class Cache {
    const sg: EngineLists
    const ar: EngineLists

    constructor ()
      ensures sg.Now() == Lists([], [], []) && ar.Now() == Lists([], [], []) && sg != ar
      ensures fresh(sg) && fresh(ar)
    {
      sg := new EngineLists();
      ar := new EngineLists();
    }

    /** The lists that own a gid. */
    function Engine(gid: string): EngineLists { if IsSurge(gid) then sg else ar }

    method AddSgTask(task: Task, dest: ListName)
      modifies sg
      ensures sg.Now() == Add(old(sg.Now()), task, dest)
    {
      sg.AddTaskLocked(task, dest);
    }

    /** MoveTaskToWaiting and MoveTaskToActive: the source list, if the download was found. */
    method MoveTask(gid: string, status: string, dest: ListName, refuseStopped: bool) returns (source: Option<ListName>)
      modifies Engine(gid)
      ensures (Engine(gid).Now(), source) == Move(old(Engine(gid).Now()), gid, status, dest, refuseStopped)
    {
      source := Engine(gid).MoveTaskBetweenLists(gid, status, dest, refuseStopped);
    }

    method MoveTaskToStoppedTerminal(gid: string, status: string, code: string, message: string, total: string)
      modifies Engine(gid)
      ensures Engine(gid).Now() == MoveToStopped(old(Engine(gid).Now()), gid, status, code, message, total)
    {
      var e := Engine(gid);
      if !Has(e.active, gid) && !Has(e.waiting, gid) { return; }
      var _ := e.MoveTaskBetweenLists(gid, status, Stopped, false);
      e.stopped := Stamp(e.stopped, gid, status, code, message, total);
    }

    /** Stages a history row only when no live row exists, then moves it to waiting. */
    method RestoreAriaHistoryTaskToWaiting(task: Task, status: string) returns (source: Option<ListName>)
      modifies ar
      ensures task.gid == "" || IsSurge(task.gid) ==> source == None && ar.Now() == old(ar.Now())
      ensures task.gid != "" && !IsSurge(task.gid) ==>
                var was := old(ar.Now());
                var staged := if Has(was.active, task.gid) || Has(was.waiting, task.gid) || Has(was.stopped, task.gid)
                              then was else was.(stopped := was.stopped + [task]);
                (ar.Now(), source) == Move(staged, task.gid, status, Waiting, false)
    {
      var gid := task.gid;
      if gid == "" || IsSurge(gid) { return None; }
      if !Has(ar.active, gid) && !Has(ar.waiting, gid) && !Has(ar.stopped, gid) {
        ar.stopped := ar.stopped + [task];
      }
      source := ar.MoveTaskBetweenLists(gid, status, Waiting, false);
    }

    /** Collects what the rows know, by gid. */
    method CollectKnown(rows: seq<Task>) returns (known: map<string, Retained>)
      ensures forall gid: string :: (gid in known <==> KnownRow(rows, gid).Some?)
                && (gid in known ==> known[gid] == Known(rows, gid))
    {
      known := map[];
      for i := 0 to |rows|
        invariant forall gid: string :: (gid in known <==> KnownRow(rows[..i], gid).Some?)
                    && (gid in known ==> known[gid] == Known(rows[..i], gid))
      {
        assert rows[..i + 1][..i] == rows[..i];
        var task := rows[i];
        if task.gid in known {
          known := known[task.gid := Fill(known[task.gid], RetainedOf(task))];
        } else {
          known := known[task.gid := RetainedOf(task)];
        }
      }
      assert rows[..|rows|] == rows;
    }

    method RetainMetadata(rows: seq<Task>, same: seq<Task>, retained: map<string, Retained>, ghost all: seq<Task>)
      returns (kept: seq<Task>)
      requires forall gid: string :: (gid in retained <==> KnownRow(all, gid).Some?)
                 && (gid in retained ==> retained[gid] == Known(all, gid))
      ensures kept == Retain(rows, same, all)
    {
      var sameList := CollectKnown(same);
      kept := [];
      for i := 0 to |rows|
        invariant |kept| == i
        invariant forall j :: 0 <= j < i ==> kept[j] == RetainRow(rows[j], PreviousFor(same, all, rows[j].gid))
      {
        var row := rows[i];
        var previous := if row.gid in sameList then sameList[row.gid] else NOTHING;
        previous := Fill(previous, if row.gid in retained then retained[row.gid] else NOTHING);
        var next := RetainOne(row, previous);
        kept := kept + [next];
      }
    }

    method RetainOne(row: Task, previous: Retained) returns (r: Task)
      ensures r == RetainRow(row, previous)
    {
      var validCount := 0;
      for k := 0 to |row.files|
        invariant validCount == NamedCount(row.files[..k])
      {
        assert row.files[..k + 1][..k] == row.files[..k];
        if NamedFile(row.files[k]) { validCount := validCount + 1; }
      }
      assert row.files[..|row.files|] == row.files;
      var files := row.files;
      if validCount < |previous.files| { files := MergeTaskFiles(previous.files, row.files); }
      r := row.(files := files);
      r := WithRetained(r, Fill(RetainedOf(r), previous));
    }

    method ResumedRows(rows: seq<Task>, prevStopped: set<string>) returns (resumed: seq<Task>)
      ensures resumed == Filter(rows, (t: Task) => t.gid in prevStopped)
    {
      resumed := [];
      ghost var p := (t: Task) => t.gid in prevStopped;
      for i := 0 to |rows|
        invariant resumed == Filter(rows[..i], p)
      {
        assert rows[..i + 1] == rows[..i] + [rows[i]];
        FilterAppend(rows[..i], [rows[i]], p);
        if rows[i].gid in prevStopped { resumed := resumed + [rows[i]]; }
      }
      assert rows[..|rows|] == rows;
    }

    /** A tick replaces the aria2 lists; the Surge lists are not its business. */
    method UpdateFromAria2(incoming: Lists) returns (resumed: seq<Task>)
      modifies ar
      ensures ar.Now() == Update(old(ar.Now()), incoming)
      ensures forall t :: t in resumed <==>
                t in ar.active + ar.waiting && t.gid != "" && Has(old(ar.stopped), t.gid)
    {
      ghost var was := ar.Now();
      var prevStopped := set t | t in ar.stopped && t.gid != "" :: t.gid;
      var all := ar.active + ar.waiting + ar.stopped;
      var known := CollectKnown(all);
      ar.active := RetainMetadata(Filter(incoming.active, IsAria), ar.active, known, all);
      ar.waiting := RetainMetadata(Filter(incoming.waiting, IsAria), ar.waiting, known, all);
      ar.stopped := RetainMetadata(Filter(incoming.stopped, IsAria), ar.stopped, known, all);
      resumed := ResumedRows(ar.active + ar.waiting, prevStopped);
      ghost var p := (t: Task) => t.gid in prevStopped;
      forall t
        ensures t in resumed <==> t in ar.active + ar.waiting && t.gid != "" && Has(was.stopped, t.gid)
      {
        FilterMember(ar.active + ar.waiting, p, t);
        if t.gid != "" && Has(was.stopped, t.gid) {
          var i :| 0 <= i < |was.stopped| && was.stopped[i].gid == t.gid;
          assert was.stopped[i] in was.stopped;
        }
      }
    }
  }
}
