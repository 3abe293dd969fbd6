/** One aria2 tick: the engine's rows replace the lists, metadata is carried over. */
module TaskTick {
  import opened Prelude
  import opened Rpc
  import opened TaskMetadata
  import opened TaskLists

  predicate IsSurge(gid: string) { |gid| >= 3 && gid[..3] == "sg_" }

  predicate IsAria(t: Task) { !IsSurge(t.gid) }

  // ---- the tick as a function ---------------------------------------------------------------------

  const NOTHING := Retained("", "", [], None)

  /** What the rows of one download know together; the first row is taken as it is. */
  function KnownRow(rows: seq<Task>, gid: string): Option<Retained> {
    if rows == [] then None
    else
      var before := KnownRow(rows[..|rows| - 1], gid);
      var t := rows[|rows| - 1];
      if t.gid != gid then before
      else if before.None? then Some(RetainedOf(t))
      else Some(Fill(before.value, RetainedOf(t)))
  }

  function Known(rows: seq<Task>, gid: string): Retained {
    var row := KnownRow(rows, gid);
    if row.None? then NOTHING else row.value
  }

  /** Rows of the same list speak first, then all three lists. */
  function PreviousFor(same: seq<Task>, all: seq<Task>, gid: string): Retained {
    Fill(Known(same, gid), Known(all, gid))
  }

  function NamedCount(fs: seq<File>): nat {
    if fs == [] then 0 else NamedCount(fs[..|fs| - 1]) + (if NamedFile(fs[|fs| - 1]) then 1 else 0)
  }

  function RetainRow(row: Task, previous: Retained): Task {
    var files := if NamedCount(row.files) < |previous.files| then MergeFiles(previous.files, row.files) else row.files;
    var merged := row.(files := files);
    WithRetained(merged, Fill(RetainedOf(merged), previous))
  }

  function Retain(rows: seq<Task>, same: seq<Task>, all: seq<Task>): (r: seq<Task>)
    ensures |r| == |rows|
    ensures forall i :: 0 <= i < |rows| ==> r[i] == RetainRow(rows[i], PreviousFor(same, all, rows[i].gid))
  {
    seq(|rows|, i requires 0 <= i < |rows| => RetainRow(rows[i], PreviousFor(same, all, rows[i].gid)))
  }

  function Update(l: Lists, incoming: Lists): Lists {
    Lists(Retain(Filter(incoming.active, IsAria), l.active, All(l)),
          Retain(Filter(incoming.waiting, IsAria), l.waiting, All(l)),
          Retain(Filter(incoming.stopped, IsAria), l.stopped, All(l)))
  }

  // ---- measurements come from the engine only -------------------------------------------------------

  predicate SameMeasurements(row: Task, engine: Task) {
    && row.gid == engine.gid && row.status == engine.status
    && row.totalLength == engine.totalLength && row.completedLength == engine.completedLength
    && row.downloadSpeed == engine.downloadSpeed
    && row.errorCode == engine.errorCode && row.errorMessage == engine.errorMessage
  }

  // ---- no path is lost ----------------------------------------------------------------------------------

  function PathsOf(rows: seq<Task>, gid: string): set<string> {
    set i, p | 0 <= i < |rows| && rows[i].gid == gid && p in Paths(rows[i].files) :: p
  }

  function SourcesOf(rows: seq<Task>, gid: string, path: string): set<string> {
    set i, uri | 0 <= i < |rows| && rows[i].gid == gid && uri in Sources(rows[i].files, path) :: uri
  }

  lemma PathsOfSplit(a: seq<Task>, b: seq<Task>, gid: string, path: string)
    ensures PathsOf(a + b, gid) == PathsOf(a, gid) + PathsOf(b, gid)
    ensures SourcesOf(a + b, gid, path) == SourcesOf(a, gid, path) + SourcesOf(b, gid, path)
  {
    forall p | p in PathsOf(a, gid) + PathsOf(b, gid)
      ensures p in PathsOf(a + b, gid)
    {
      if p in PathsOf(a, gid) {
        var i :| 0 <= i < |a| && a[i].gid == gid && p in Paths(a[i].files);
        assert (a + b)[i] == a[i];
      } else {
        var i :| 0 <= i < |b| && b[i].gid == gid && p in Paths(b[i].files);
        assert (a + b)[|a| + i] == b[i];
      }
    }
    forall p | p in SourcesOf(a, gid, path) + SourcesOf(b, gid, path)
      ensures p in SourcesOf(a + b, gid, path)
    {
      if p in SourcesOf(a, gid, path) {
        var i :| 0 <= i < |a| && a[i].gid == gid && p in Sources(a[i].files, path);
        assert (a + b)[i] == a[i];
      } else {
        var i :| 0 <= i < |b| && b[i].gid == gid && p in Sources(b[i].files, path);
        assert (a + b)[|a| + i] == b[i];
      }
    }
  }

  lemma OneRow(t: Task, gid: string, path: string)
    ensures PathsOf([t], gid) == if t.gid == gid then Paths(t.files) else {}
    ensures SourcesOf([t], gid, path) == if t.gid == gid then Sources(t.files, path) else {}
  {
    var rows := [t];
    if t.gid == gid {
      forall p | p in Paths(t.files) ensures p in PathsOf(rows, gid) { assert rows[0].gid == gid; }
      forall p | p in Sources(t.files, path) ensures p in SourcesOf(rows, gid, path) { assert rows[0].gid == gid; }
    }
  }

  lemma {:induction false} KnownPaths(rows: seq<Task>, gid: string, path: string)
    requires NonBlank(path)
    ensures Paths(Known(rows, gid).files) == PathsOf(rows, gid)
    ensures Sources(Known(rows, gid).files, path) == SourcesOf(rows, gid, path)
  {
    if rows != [] {
      var n := |rows| - 1;
      KnownPaths(rows[..n], gid, path);
      assert rows == rows[..n] + [rows[n]];
      PathsOfSplit(rows[..n], [rows[n]], gid, path);
      OneRow(rows[n], gid, path);
      if rows[n].gid == gid {
        if KnownRow(rows[..n], gid).Some? {
          MergeUnions(KnownRow(rows[..n], gid).value.files, rows[n].files, path);
        }
      }
    }
  }

  lemma Superset(same: seq<Task>, all: seq<Task>, gid: string, path: string, start: nat)
    requires start + |same| <= |all| && all[start..start + |same|] == same
    ensures PathsOf(same, gid) <= PathsOf(all, gid)
    ensures SourcesOf(same, gid, path) <= SourcesOf(all, gid, path)
  {
    assert all == all[..start] + same + all[start + |same|..];
    PathsOfSplit(all[..start] + same, all[start + |same|..], gid, path);
    PathsOfSplit(all[..start], same, gid, path);
  }

  /** The row of a tick: the engine's measurements, and exactly the usable paths and addresses anyone knew. */
  lemma RetainedRowIsExact(row: Task, same: seq<Task>, all: seq<Task>, start: nat, path: string)
    requires start + |same| <= |all| && all[start..start + |same|] == same
    ensures var r := RetainRow(row, PreviousFor(same, all, row.gid));
            && SameMeasurements(r, row) && AllNamed(r.files)
            && Paths(r.files) == Paths(row.files) + PathsOf(all, row.gid)
            && (NonBlank(path) ==> Sources(r.files, path) == Sources(row.files, path) + SourcesOf(all, row.gid, path))
  {
    assert !IsSpace("x"[0]);
    RetainedFiles(row, same, all, start, "x");
    if NonBlank(path) { RetainedFiles(row, same, all, start, path); }
  }

  lemma RetainedFiles(row: Task, same: seq<Task>, all: seq<Task>, start: nat, path: string)
    requires start + |same| <= |all| && all[start..start + |same|] == same && NonBlank(path)
    ensures var r := RetainRow(row, PreviousFor(same, all, row.gid));
            && AllNamed(r.files)
            && Paths(r.files) == Paths(row.files) + PathsOf(all, row.gid)
            && Sources(r.files, path) == Sources(row.files, path) + SourcesOf(all, row.gid, path)
  {
    var gid := row.gid;
    KnownPaths(same, gid, path);
    KnownPaths(all, gid, path);
    Superset(same, all, gid, path, start);
    var previous := PreviousFor(same, all, gid);
    MergeUnions(Known(same, gid).files, Known(all, gid).files, path);
    MergeUnions(previous.files, row.files, path);
    var files := if NamedCount(row.files) < |previous.files| then MergeFiles(previous.files, row.files) else row.files;
    MergeUnions(files, previous.files, path);
    MergedFilesAreNamed(files, previous.files);
  }

  /**
   * After a tick every list holds the engine's rows, in the engine's order, with its
   * measurements; their paths are what the engine named together with everything the
   * three lists knew of that download.
   */
  lemma TickIsExact(l: Lists, incoming: Lists, name: ListName, i: nat, path: string)
    requires i < |Filter(Get(incoming, name), IsAria)|
    ensures var engine := Filter(Get(incoming, name), IsAria);
            var rows := Get(Update(l, incoming), name);
            && |rows| == |engine| && SameMeasurements(rows[i], engine[i]) && AllNamed(rows[i].files)
            && Paths(rows[i].files) == Paths(engine[i].files) + PathsOf(All(l), engine[i].gid)
            && (NonBlank(path) ==>
                  Sources(rows[i].files, path) == Sources(engine[i].files, path) + SourcesOf(All(l), engine[i].gid, path))
  {
    var engine := Filter(Get(incoming, name), IsAria);
    var start := match name case Active => 0 case Waiting => |l.active| case Stopped => |l.active| + |l.waiting|;
    assert All(l)[start..start + |Get(l, name)|] == Get(l, name);
    RetainedRowIsExact(engine[i], Get(l, name), All(l), start, path);
  }

  // ---- names are not lost either ----------------------------------------------------------------------------

  predicate Knows(r: Retained, other: Retained) {
    && (NonBlank(other.title) ==> NonBlank(r.title))
    && (NonBlank(other.dir) ==> NonBlank(r.dir))
    && (UsableGroup(other.group) ==> UsableGroup(r.group))
  }

  lemma {:induction false} KnownKnows(rows: seq<Task>, gid: string, k: nat)
    requires k < |rows| && rows[k].gid == gid
    ensures KnownRow(rows, gid).Some? && Knows(Known(rows, gid), RetainedOf(rows[k]))
  {
    var n := |rows| - 1;
    if k < n {
      assert rows[..n][k] == rows[k];
      KnownKnows(rows[..n], gid, k);
    }
  }

  /** A title, directory or group any previous row had is not lost, and the engine's own comes first. */
  lemma TickKeepsNames(row: Task, same: seq<Task>, all: seq<Task>, k: nat)
    requires k < |all| && all[k].gid == row.gid
    ensures var r := RetainRow(row, PreviousFor(same, all, row.gid));
            && Knows(RetainedOf(r), RetainedOf(all[k])) && Knows(RetainedOf(r), RetainedOf(row))
            && (NonBlank(row.title) ==> r.title == row.title)
            && (NonBlank(row.dir) ==> r.dir == row.dir)
            && (UsableGroup(row.group) ==> UsableGroup(r.group) && r.group.value.id == row.group.value.id)
  {
    KnownKnows(all, row.gid, k);
  }

  // ---- folding and moving lose nothing either ---------------------------------------------------------------

  lemma {:induction false} FoldRetains(gid: string, rows: seq<Task>)
    ensures FoldRows(gid, rows).Some? <==> KnownRow(rows, gid).Some?
    ensures FoldRows(gid, rows).Some? ==> RetainedOf(FoldRows(gid, rows).value) == KnownRow(rows, gid).value
  {
    if rows != [] { FoldRetains(gid, rows[..|rows| - 1]); }
  }

  /** Status, speed and errors are the first row's. */
  predicate SameVerdict(row: Task, first: Task) {
    && row.gid == first.gid && row.status == first.status && row.downloadSpeed == first.downloadSpeed
    && row.errorCode == first.errorCode && row.errorMessage == first.errorMessage
  }

  lemma {:induction false} FoldFollowsFirst(gid: string, rows: seq<Task>)
    requires Has(rows, gid)
    ensures FoldRows(gid, rows).Some? && SameVerdict(FoldRows(gid, rows).value, rows[FirstIndex(rows, gid)])
  {
    var n := |rows| - 1;
    assert rows == rows[..n] + [rows[n]];
    HasAppend(rows[..n], [rows[n]], gid);
    FoldFinds(gid, rows[..n]);
    var first := FirstIndex(rows, gid);
    if Has(rows[..n], gid) {
      FoldFollowsFirst(gid, rows[..n]);
      var i := FirstIndex(rows[..n], gid);
      assert rows[i] == rows[..n][i] && rows[..n][i].gid == gid;
      assert forall k :: 0 <= k < i ==> rows[k] == rows[..n][k];
      assert first == i;
    } else {
      assert forall k :: 0 <= k < n ==> rows[k] == rows[..n][k];
      assert first == n;
    }
  }

  /** A length any row measured is not lost. */
  lemma {:induction false} FoldKeepsLengths(gid: string, rows: seq<Task>, k: nat)
    requires k < |rows| && rows[k].gid == gid
    ensures FoldRows(gid, rows).Some?
    ensures ScanInt(rows[k].totalLength) > 0 ==> ScanInt(FoldRows(gid, rows).value.totalLength) > 0
    ensures ScanInt(rows[k].completedLength) > 0 ==> ScanInt(FoldRows(gid, rows).value.completedLength) > 0
  {
    var n := |rows| - 1;
    if k < n {
      assert rows[..n][k] == rows[k];
      FoldKeepsLengths(gid, rows[..n], k);
    }
  }

  /** Folding the three lists, the destination first, knows exactly what the lists know. */
  lemma FoldFromIsExact(l: Lists, gid: string, dest: ListName, path: string)
    requires FoldFrom(l, gid, dest).Some? && NonBlank(path)
    ensures Paths(FoldFrom(l, gid, dest).value.files) == PathsOf(All(l), gid)
    ensures Sources(FoldFrom(l, gid, dest).value.files, path) == SourcesOf(All(l), gid, path)
  {
    var rows := Get(l, dest) + l.active + l.waiting + l.stopped;
    FoldRetains(gid, rows);
    KnownPaths(rows, gid, path);
    assert rows == Get(l, dest) + All(l);
    KnownTwice(l, gid, dest, path);
  }

  lemma KnownTwice(l: Lists, gid: string, dest: ListName, path: string)
    ensures PathsOf(Get(l, dest) + All(l), gid) == PathsOf(All(l), gid)
    ensures SourcesOf(Get(l, dest) + All(l), gid, path) == SourcesOf(All(l), gid, path)
  {
    PathsOfSplit(Get(l, dest), All(l), gid, path);
    var start := match dest case Active => 0 case Waiting => |l.active| case Stopped => |l.active| + |l.waiting|;
    assert All(l)[start..start + |Get(l, dest)|] == Get(l, dest);
    Superset(Get(l, dest), All(l), gid, path, start);
  }

  /** A moved row carries exactly the paths and addresses the three lists had for its download. */
  lemma MoveLosesNoMetadata(l: Lists, gid: string, status: string, dest: ListName, refuseStopped: bool, path: string)
    requires Move(l, gid, status, dest, refuseStopped).1.Some? && NonBlank(path)
    ensures var next := Move(l, gid, status, dest, refuseStopped).0;
            var i := FirstIndex(Get(l, dest), gid);
            && i < |Get(next, dest)|
            && Paths(Get(next, dest)[i].files) == PathsOf(All(l), gid)
            && Sources(Get(next, dest)[i].files, path) == SourcesOf(All(l), gid, path)
  {
    var source := Source(l, gid, dest, refuseStopped);
    FoldFromFinds(l, gid, dest);
    SettlePartitions(l, dest, Arriving(FoldFrom(l, gid, dest).value, status, source.value, dest));
    FoldFromIsExact(l, gid, dest, path);
  }

  /** Of two lengths: a positive one sent wins, a zero only where nothing positive was known. */
  predicate LengthKept(length: string, known: string, sent: string) {
    && (ParseInt(sent).Some? && ParseInt(sent).value > 0 ==> length == sent)
    && (ParseInt(sent).Some? && ParseInt(sent).value == 0 ==> length == if ScanInt(known) <= 0 then sent else known)
    && (ParseInt(sent).None? || ParseInt(sent).value < 0 ==> length == known)
  }

  /** What a sparse update leaves of a known row. */
  predicate Updates(row: Task, known: Task, sent: Task) {
    && row.gid == known.gid && Paths(row.files) == Paths(known.files) + Paths(sent.files)
    && row.status == (if sent.status != "" then sent.status else known.status)
    && LengthKept(row.totalLength, known.totalLength, sent.totalLength)
    && LengthKept(row.completedLength, known.completedLength, sent.completedLength)
    && (if UsableGroup(sent.group) then UsableGroup(row.group) && row.group.value.id == sent.group.value.id
        else row.group == known.group)
    && row.errorCode == known.errorCode && row.errorMessage == known.errorMessage
  }

  lemma MergeFieldsUpdates(known: Task, sent: Task)
    ensures Updates(MergeFields(known, sent), known, sent)
  {
    MergeUnions(known.files, sent.files, "");
  }

  /**
   * The row AddSgTask leaves: what was known of the download, updated by what was sent;
   * the errors are the sender's exactly when the row is new to the list.
   */
  lemma AddedRow(l: Lists, task: Task, dest: ListName)
    ensures var next := Add(l, task, dest);
            var i := FirstIndex(Get(l, dest), task.gid);
            var known := FoldFrom(l, task.gid, dest);
            && i < |Get(next, dest)|
            && var row := Get(next, dest)[i];
            && (known.None? ==> row == task)
            && (Has(Get(l, dest), task.gid) ==> known.Some? && Updates(row, known.value, task))
            && (known.Some? && !Has(Get(l, dest), task.gid) ==>
                  && row.errorCode == task.errorCode && row.errorMessage == task.errorMessage
                  && Updates(row.(errorCode := known.value.errorCode, errorMessage := known.value.errorMessage), known.value, task))
  {
    FoldFromFinds(l, task.gid, dest);
    var known := FoldFrom(l, task.gid, dest);
    var merged := if known.None? then task else MergeFields(known.value, task);
    if known.Some? { MergeFieldsUpdates(known.value, task); }
    SettlePartitions(l, dest, if Has(Get(l, dest), task.gid) then merged
                              else merged.(errorCode := task.errorCode, errorMessage := task.errorMessage));
    AddSettles(l, task, dest);
  }

  lemma AddSettles(l: Lists, task: Task, dest: ListName)
    ensures var known := FoldFrom(l, task.gid, dest);
            var merged := if known.None? then task else MergeFields(known.value, task);
            Add(l, task, dest) == Settle(l, dest, if Has(Get(l, dest), task.gid) then merged
                                                  else merged.(errorCode := task.errorCode, errorMessage := task.errorMessage))
  {
  }
}
