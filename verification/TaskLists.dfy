/** The three task lists of one engine and the operations that move rows between them. */
module TaskLists {
  import opened Prelude
  import opened Decimal
  import opened Rpc
  import opened TaskMetadata

  // ---- numbers in rows -----------------------------------------------------------------------

  const INT64_MAX := 9223372036854775807

  predicate AllDigits(s: string) { forall i :: 0 <= i < |s| ==> IsDigit(s[i]) }

  /** A signed digit string within 64 bits, as strconv.ParseInt reads it in base ten. */
  function ParseInt(s: string): Option<int> {
    var signed := s != "" && (s[0] == '+' || s[0] == '-');
    var digits := if signed then s[1..] else s;
    if digits == "" || !AllDigits(digits) then None
    else
      var magnitude: int := Value(digits);
      var n := if signed && s[0] == '-' then -magnitude else magnitude;
      if -INT64_MAX - 1 <= n <= INT64_MAX then Some(n) else None
  }

  function Spaces(s: string): (n: nat)
    ensures n <= |s|
  {
    if s == "" || !IsSpace(s[0]) then 0 else 1 + Spaces(s[1..])
  }

  /**
   * What Sscanf("%d") stores: leading space except a newline is skipped, then a sign and
   * the longest run of digits; anything unreadable leaves zero.
   */
  function ScanInt(s: string): int {
    var skip := Spaces(s);
    var rest := s[skip..];
    var sign := if rest != "" && (rest[0] == '+' || rest[0] == '-') then 1 else 0;
    var read := ParseInt(rest[..sign + Span(rest[sign..])]);
    if '\n' in s[..skip] || read.None? then 0 else read.value
  }

  // ---- folding the rows of one download ----------------------------------------------------------

  /** The first row's facts, with a sibling's where they are missing. */
  function FoldOne(row: Task, sibling: Task): Task {
    FillRow(row, sibling).(
      totalLength := if ScanInt(row.totalLength) <= 0 && ScanInt(sibling.totalLength) > 0
                     then sibling.totalLength else row.totalLength,
      completedLength := if ScanInt(row.completedLength) <= 0 && ScanInt(sibling.completedLength) > 0
                         then sibling.completedLength else row.completedLength)
  }

  /** One turn of the fold: the download's first row is copied, later ones fill in. */
  function FoldIn(row: Option<Task>, gid: string, t: Task): Option<Task> {
    if t.gid != gid then row else if row.None? then Some(t) else Some(FoldOne(row.value, t))
  }

  function FoldRows(gid: string, rows: seq<Task>): Option<Task> {
    if rows == [] then None else FoldIn(FoldRows(gid, rows[..|rows| - 1]), gid, rows[|rows| - 1])
  }

  // ---- lists ----------------------------------------------------------------------------------------

  datatype ListName = Active | Waiting | Stopped

  datatype Lists = Lists(active: seq<Task>, waiting: seq<Task>, stopped: seq<Task>)

  function Get(l: Lists, name: ListName): seq<Task> {
    match name case Active => l.active case Waiting => l.waiting case Stopped => l.stopped
  }

  function Set(l: Lists, name: ListName, rows: seq<Task>): Lists {
    match name case Active => l.(active := rows) case Waiting => l.(waiting := rows) case Stopped => l.(stopped := rows)
  }

  function All(l: Lists): seq<Task> { l.active + l.waiting + l.stopped }

  predicate Has(rows: seq<Task>, gid: string) { exists i :: 0 <= i < |rows| && rows[i].gid == gid }

  function FirstIndex(rows: seq<Task>, gid: string): (i: nat)
    ensures i <= |rows| && (i < |rows| ==> rows[i].gid == gid)
    ensures forall k :: 0 <= k < i ==> rows[k].gid != gid
    ensures i < |rows| <==> Has(rows, gid)
  {
    if rows == [] || rows[0].gid == gid then 0
    else
      var j := FirstIndex(rows[1..], gid);
      assert forall k :: 1 <= k < |rows| ==> rows[k] == rows[1..][k - 1];
      1 + j
  }

  function Other(gid: string): Task -> bool { (t: Task) => t.gid != gid }

  /** Every other download's rows, in order. */
  function Others(rows: seq<Task>, gid: string): seq<Task> { Filter(rows, Other(gid)) }

  /** storeFoldedTask: one row, where the first one was or at the end. */
  function Store(rows: seq<Task>, task: Task): seq<Task> {
    var i := FirstIndex(rows, task.gid);
    if i < |rows| then rows[..i] + ([task] + Others(rows[i + 1..], task.gid)) else rows + [task]
  }

  /** `task` in `dest`, its download nowhere else. */
  function Settle(l: Lists, dest: ListName, task: Task): Lists {
    Lists(if dest == Active then Store(l.active, task) else Others(l.active, task.gid),
          if dest == Waiting then Store(l.waiting, task) else Others(l.waiting, task.gid),
          if dest == Stopped then Store(l.stopped, task) else Others(l.stopped, task.gid))
  }

  /** The list a move takes its row from. */
  function Source(l: Lists, gid: string, dest: ListName, refuseStopped: bool): Option<ListName> {
    if Has(Get(l, dest), gid) then Some(dest)
    else if Has(l.active, gid) then Some(Active)
    else if Has(l.waiting, gid) then Some(Waiting)
    else if Has(l.stopped, gid) && !refuseStopped then Some(Stopped)
    else None
  }

  function FoldFrom(l: Lists, gid: string, dest: ListName): Option<Task> {
    FoldRows(gid, Get(l, dest) + l.active + l.waiting + l.stopped)
  }

  /** The row as it arrives: new status, no speed, and no errors if it comes out of the stopped list. */
  function Arriving(row: Task, status: string, source: ListName, dest: ListName): Task {
    var moved := row.(status := status, downloadSpeed := "0");
    if source == Stopped && dest != Stopped then moved.(errorCode := "", errorMessage := "") else moved
  }

  /** moveTaskBetweenLists. */
  function Move(l: Lists, gid: string, status: string, dest: ListName, refuseStopped: bool): (Lists, Option<ListName>) {
    var row := FoldFrom(l, gid, dest);
    var source := Source(l, gid, dest, refuseStopped);
    if row.None? || source.None? || (refuseStopped && !Has(l.active, gid) && !Has(l.waiting, gid)) then (l, None)
    else (Settle(l, dest, Arriving(row.value, status, source.value, dest)), source)
  }

  /** mergeTaskFields: sparse metadata and reliable checkpoints. */
  function MergeLength(dst: string, value: string): string {
    var n := ParseInt(value);
    if n.Some? && (n.value > 0 || (n.value == 0 && ScanInt(dst) <= 0)) then value else dst
  }

  function MergeFields(dst: Task, src: Task): Task {
    dst.(status := if src.status != "" then src.status else dst.status,
         totalLength := MergeLength(dst.totalLength, src.totalLength),
         completedLength := MergeLength(dst.completedLength, src.completedLength),
         downloadSpeed := if src.downloadSpeed != "" then src.downloadSpeed else dst.downloadSpeed,
         title := if NonBlank(src.title) then src.title else dst.title,
         dir := if NonBlank(src.dir) then src.dir else dst.dir,
         files := MergeFiles(dst.files, src.files),
         group := if !UsableGroup(src.group) then dst.group
                  else if dst.group.Some? then Some(FillGroup(src.group.value, dst.group.value))
                  else src.group)
  }

  /** addSgTaskLocked, for a known list name. */
  function Add(l: Lists, task: Task, dest: ListName): Lists {
    var row := FoldFrom(l, task.gid, dest);
    var merged := if row.None? then task else MergeFields(row.value, task);
    Settle(l, dest, if Has(Get(l, dest), task.gid) then merged
                    else merged.(errorCode := task.errorCode, errorMessage := task.errorMessage))
  }

  // ---- what storing and settling do ------------------------------------------------------------------

  /** Exactly one row of `gid`, at `i`. */
  predicate OnlyAt(rows: seq<Task>, gid: string, i: nat) {
    i < |rows| && rows[i].gid == gid && forall j :: 0 <= j < |rows| && j != i ==> rows[j].gid != gid
  }

  lemma {:induction false} OthersHaveNone(rows: seq<Task>, gid: string)
    ensures !Has(Others(rows, gid), gid)
    ensures !Has(rows, gid) ==> Others(rows, gid) == rows
  {
    if rows != [] {
      OthersHaveNone(rows[1..], gid);
      assert forall k :: 1 <= k < |rows| ==> rows[k] == rows[1..][k - 1];
    }
  }

  lemma {:induction false} OthersTwice(rows: seq<Task>, gid: string)
    ensures Others(Others(rows, gid), gid) == Others(rows, gid)
  {
    OthersHaveNone(rows, gid);
    OthersHaveNone(Others(rows, gid), gid);
  }

  lemma OthersOfTask(task: Task, rows: seq<Task>)
    ensures Others([task] + rows, task.gid) == Others(rows, task.gid)
  {
    assert ([task] + rows)[1..] == rows;
  }

  lemma ReplacedKeepsOthers(front: seq<Task>, was: Task, task: Task, tail: seq<Task>)
    requires was.gid == task.gid
    ensures Others(front + ([was] + tail), task.gid) == Others(front, task.gid) + Others(tail, task.gid)
    ensures Others(front + ([task] + Others(tail, task.gid)), task.gid) == Others(front, task.gid) + Others(tail, task.gid)
  {
    var kept := Others(tail, task.gid);
    FilterAppend(front, [was] + tail, Other(task.gid));
    OthersOfTask(was, tail);
    FilterAppend(front, [task] + kept, Other(task.gid));
    OthersOfTask(task, kept);
    OthersTwice(tail, task.gid);
  }

  lemma StoreKeepsOthers(rows: seq<Task>, task: Task)
    ensures Others(Store(rows, task), task.gid) == Others(rows, task.gid)
  {
    var i := FirstIndex(rows, task.gid);
    if i < |rows| {
      ReplacedKeepsOthers(rows[..i], rows[i], task, rows[i + 1..]);
      assert rows == rows[..i] + ([rows[i]] + rows[i + 1..]);
    } else {
      FilterAppend(rows, [task], Other(task.gid));
      assert [task] == [task] + [];
      OthersOfTask(task, []);
      assert Others([task], task.gid) == [];
    }
  }

  lemma StorePlacesOne(rows: seq<Task>, task: Task)
    ensures var i := FirstIndex(rows, task.gid);
            OnlyAt(Store(rows, task), task.gid, i) && Store(rows, task)[i] == task
  {
    var i := FirstIndex(rows, task.gid);
    if i < |rows| {
      var tail := Others(rows[i + 1..], task.gid);
      OthersHaveNone(rows[i + 1..], task.gid);
      forall j | 0 <= j < |tail| ensures tail[j].gid != task.gid {
        assert !Has(tail, task.gid);
      }
    }
  }

  /** What a successful operation on `gid` must leave: one row, in `dest`, and everything else untouched. */
  predicate Partitioned(l: Lists, next: Lists, gid: string, dest: ListName) {
    && OnlyAt(Get(next, dest), gid, FirstIndex(Get(l, dest), gid))
    && (forall n: ListName :: n != dest ==> !Has(Get(next, n), gid))
    && (forall n: ListName :: Others(Get(next, n), gid) == Others(Get(l, n), gid))
  }

  lemma SettlePartitions(l: Lists, dest: ListName, task: Task)
    ensures Partitioned(l, Settle(l, dest, task), task.gid, dest)
    ensures Get(Settle(l, dest, task), dest)[FirstIndex(Get(l, dest), task.gid)] == task
  {
    StorePlacesOne(Get(l, dest), task);
    StoreKeepsOthers(Get(l, dest), task);
    forall n: ListName
      ensures n != dest ==> !Has(Get(Settle(l, dest, task), n), task.gid)
      ensures Others(Get(Settle(l, dest, task), n), task.gid) == Others(Get(l, n), task.gid)
    {
      OthersHaveNone(Get(l, n), task.gid);
      OthersTwice(Get(l, n), task.gid);
    }
  }

  lemma {:induction false} FoldFinds(gid: string, rows: seq<Task>)
    ensures FoldRows(gid, rows).Some? <==> Has(rows, gid)
    ensures FoldRows(gid, rows).Some? ==> FoldRows(gid, rows).value.gid == gid
  {
    if rows != [] {
      var n := |rows| - 1;
      FoldFinds(gid, rows[..n]);
      assert rows == rows[..n] + [rows[n]];
    }
  }

  lemma FoldFromFinds(l: Lists, gid: string, dest: ListName)
    ensures FoldFrom(l, gid, dest).Some? <==> Has(l.active, gid) || Has(l.waiting, gid) || Has(l.stopped, gid)
    ensures FoldFrom(l, gid, dest).Some? ==> FoldFrom(l, gid, dest).value.gid == gid
  {
    var rows := Get(l, dest) + l.active + l.waiting + l.stopped;
    FoldFinds(gid, rows);
    HasAppend(Get(l, dest) + l.active + l.waiting, l.stopped, gid);
    HasAppend(Get(l, dest) + l.active, l.waiting, gid);
    HasAppend(Get(l, dest), l.active, gid);
  }

  lemma HasAppend(a: seq<Task>, b: seq<Task>, gid: string)
    ensures Has(a + b, gid) <==> Has(a, gid) || Has(b, gid)
  {
    if Has(a, gid) {
      var i :| 0 <= i < |a| && a[i].gid == gid;
      assert (a + b)[i].gid == gid;
    }
    if Has(b, gid) {
      var i :| 0 <= i < |b| && b[i].gid == gid;
      assert (a + b)[|a| + i].gid == gid;
    }
  }

  // ---- the main results -----------------------------------------------------------------------------

  /**
   * A move reports no source exactly when the download is unknown, or known only as
   * stopped and stopped rows are refused; then nothing changes. Otherwise it names a list
   * that has the download, the destination itself if that has it.
   */
  lemma MoveSource(l: Lists, gid: string, status: string, dest: ListName, refuseStopped: bool)
    ensures var (next, source) := Move(l, gid, status, dest, refuseStopped);
            && (source.None? ==> next == l)
            && (source.None? <==> !Has(l.active, gid) && !Has(l.waiting, gid) && (refuseStopped || !Has(l.stopped, gid)))
            && (source.Some? ==> Has(Get(l, source.value), gid) && (source == Some(dest) <==> Has(Get(l, dest), gid)))
  {
    FoldFromFinds(l, gid, dest);
  }

  /**
   * From any state, corrupt twins included: a move that reports a source leaves the
   * download exactly once, in the destination, with every other row's content and order
   * kept.
   */
  lemma MovePartitions(l: Lists, gid: string, status: string, dest: ListName, refuseStopped: bool)
    ensures var (next, source) := Move(l, gid, status, dest, refuseStopped);
            if source.Some? then Partitioned(l, next, gid, dest) else next == l
  {
    FoldFromFinds(l, gid, dest);
    var row, source := FoldFrom(l, gid, dest), Source(l, gid, dest, refuseStopped);
    if row.Some? && source.Some? {
      SettlePartitions(l, dest, Arriving(row.value, status, source.value, dest));
    }
  }

  /**
   * The moved row: the new status, no speed, and error fields cleared exactly when the
   * row came out of the stopped list.
   */
  lemma MovedRow(l: Lists, gid: string, status: string, dest: ListName, refuseStopped: bool)
    requires Move(l, gid, status, dest, refuseStopped).1.Some?
    ensures var (next, source) := Move(l, gid, status, dest, refuseStopped);
            var i := FirstIndex(Get(l, dest), gid);
            && i < |Get(next, dest)|
            && var row := Get(next, dest)[i];
            && row.gid == gid && row.status == status && row.downloadSpeed == "0"
            && (source == Some(Stopped) && dest != Stopped ==> row.errorCode == "" && row.errorMessage == "")
            && (source != Some(Stopped) || dest == Stopped ==>
                  && row.errorCode == FoldFrom(l, gid, dest).value.errorCode
                  && row.errorMessage == FoldFrom(l, gid, dest).value.errorMessage)
  {
    FoldFromFinds(l, gid, dest);
    var source := Source(l, gid, dest, refuseStopped);
    SettlePartitions(l, dest, Arriving(FoldFrom(l, gid, dest).value, status, source.value, dest));
  }

  lemma AddPartitions(l: Lists, task: Task, dest: ListName)
    ensures Partitioned(l, Add(l, task, dest), task.gid, dest)
  {
    FoldFromFinds(l, task.gid, dest);
    var row := FoldFrom(l, task.gid, dest);
    var merged := if row.None? then task else MergeFields(row.value, task);
    SettlePartitions(l, dest, merged);
    SettlePartitions(l, dest, merged.(errorCode := task.errorCode, errorMessage := task.errorMessage));
  }

  // ---- every reachable state ----------------------------------------------------------------------------

  /** stampStoppedTerminal: terminal facts on the first stopped row of `gid`. */
  function Stamp(rows: seq<Task>, gid: string, status: string, code: string, message: string, total: string): seq<Task> {
    var i := FirstIndex(rows, gid);
    if i == |rows| then rows
    else
      var t := rows[i].(errorCode := if code != "" then code else rows[i].errorCode,
                        errorMessage := if message != "" then message else rows[i].errorMessage);
      rows[i := if status == "complete" && ScanInt(total) > 0
                then t.(totalLength := total, completedLength := total, downloadSpeed := "0") else t]
  }

  /** MoveTaskToStoppedTerminal; without a canonical total it is moveTaskToStopped. */
  function MoveToStopped(l: Lists, gid: string, status: string, code: string, message: string, total: string): Lists {
    if !Has(l.active, gid) && !Has(l.waiting, gid) then l
    else
      var moved := Move(l, gid, status, Stopped, false).0;
      moved.(stopped := Stamp(moved.stopped, gid, status, code, message, total))
  }

  function Patch(rows: seq<Task>, gid: string, completed: string, speed: string, total: string): seq<Task> {
    var i := FirstIndex(rows, gid);
    if i == |rows| then rows
    else rows[i := rows[i].(completedLength := completed, downloadSpeed := speed, totalLength := total)]
  }

  function Remove(l: Lists, gid: string): Lists {
    Lists(Others(l.active, gid), Others(l.waiting, gid), Others(l.stopped, gid))
  }

  datatype Op =
    | AddTask(task: Task, dest: ListName)
    | MoveTask(gid: string, status: string, dest: ListName, refuseStopped: bool)
    | StopTask(gid: string, status: string, code: string, message: string, total: string)
    | PatchTask(gid: string, completed: string, speed: string, total: string)
    | RemoveTask(gid: string)
    | EditInPlace(next: Lists)

  predicate SameGids(a: seq<Task>, b: seq<Task>) { |a| == |b| && forall i :: 0 <= i < |a| ==> a[i].gid == b[i].gid }

  /** Enrichment and group renames rewrite fields of rows, never which rows there are. */
  predicate Possible(l: Lists, op: Op) {
    op.EditInPlace? ==> SameGids(All(l), All(op.next)) && |l.active| == |op.next.active| && |l.waiting| == |op.next.waiting|
  }

  function Perform(l: Lists, op: Op): Lists {
    match op
    case AddTask(task, dest) => Add(l, task, dest)
    case MoveTask(gid, status, dest, refuseStopped) => Move(l, gid, status, dest, refuseStopped).0
    case StopTask(gid, status, code, message, total) => MoveToStopped(l, gid, status, code, message, total)
    case PatchTask(gid, completed, speed, total) => l.(active := Patch(l.active, gid, completed, speed, total))
    case RemoveTask(gid) => Remove(l, gid)
    case EditInPlace(next) => next
  }

  /** No download has two rows, within a list or across lists. */
  predicate Distinct(rows: seq<Task>) { forall i, j :: 0 <= i < j < |rows| ==> rows[i].gid != rows[j].gid }

  lemma SameGidsDistinct(a: seq<Task>, b: seq<Task>)
    requires SameGids(a, b) && Distinct(a)
    ensures Distinct(b)
  {
  }

  predicate AtMostOne(rows: seq<Task>, gid: string) {
    forall i, j :: 0 <= i < j < |rows| ==> !(rows[i].gid == gid && rows[j].gid == gid)
  }

  lemma {:induction false} OthersStayDistinct(rows: seq<Task>, gid: string)
    requires Distinct(rows)
    ensures Distinct(Others(rows, gid))
  {
    if rows != [] {
      var rest := Others(rows[1..], gid);
      assert Distinct(rows[1..]);
      OthersStayDistinct(rows[1..], gid);
      forall j | 0 <= j < |rest|
        ensures rest[j].gid != rows[0].gid
      {
        assert rest[j] in rest;
        FilterMember(rows[1..], Other(gid), rest[j]);
        var k :| 0 <= k < |rows[1..]| && rows[1..][k] == rest[j];
        assert rows[k + 1] == rest[j];
      }
    }
  }

  /** A row kept in front of the others of the tail shares its gid with none of them. */
  lemma HeadIsApart(rows: seq<Task>, gid: string, j: nat)
    requires Distinct(Others(rows, gid)) && 1 <= j < |rows| && rows[0].gid != gid && rows[j].gid != gid
    ensures rows[j].gid != rows[0].gid
  {
    var rest := Others(rows[1..], gid);
    assert rows[1..][j - 1] == rows[j];
    FilterMember(rows[1..], Other(gid), rows[j]);
    var k :| 0 <= k < |rest| && rest[k] == rows[j];
    assert Others(rows, gid) == [rows[0]] + rest;
    assert Others(rows, gid)[0] == rows[0] && Others(rows, gid)[k + 1] == rows[j];
  }

  lemma TailOfOthers(rows: seq<Task>, gid: string)
    requires rows != [] && Distinct(Others(rows, gid)) && AtMostOne(rows, gid)
    ensures Distinct(Others(rows[1..], gid)) && AtMostOne(rows[1..], gid)
  {
    var rest := Others(rows[1..], gid);
    assert Others(rows, gid)[|Others(rows, gid)| - |rest|..] == rest;
    assert forall j :: 0 <= j < |rows| - 1 ==> rows[1..][j] == rows[j + 1];
  }

  lemma {:induction false} DistinctFromOthers(rows: seq<Task>, gid: string)
    requires Distinct(Others(rows, gid)) && AtMostOne(rows, gid)
    ensures Distinct(rows)
  {
    if rows != [] {
      TailOfOthers(rows, gid);
      DistinctFromOthers(rows[1..], gid);
      forall j | 1 <= j < |rows|
        ensures rows[j].gid != rows[0].gid
      {
        if rows[0].gid != gid && rows[j].gid != gid { HeadIsApart(rows, gid, j); }
      }
      assert forall i, j :: 1 <= i < j < |rows| ==> rows[i] == rows[1..][i - 1] && rows[j] == rows[1..][j - 1];
    }
  }

  lemma OthersOfAll(l: Lists, gid: string)
    ensures Others(All(l), gid) == Others(l.active, gid) + Others(l.waiting, gid) + Others(l.stopped, gid)
  {
    FilterAppend(l.active + l.waiting, l.stopped, Other(gid));
    FilterAppend(l.active, l.waiting, Other(gid));
  }

  lemma AtMostOneAppend(a: seq<Task>, b: seq<Task>, gid: string)
    requires AtMostOne(a, gid) && AtMostOne(b, gid) && (!Has(a, gid) || !Has(b, gid))
    ensures AtMostOne(a + b, gid)
  {
    forall i, j | 0 <= i < j < |a + b|
      ensures !((a + b)[i].gid == gid && (a + b)[j].gid == gid)
    {
      if i < |a| <= j { assert (a + b)[i] == a[i] && (a + b)[j] == b[j - |a|]; }
    }
  }

  lemma PartitionedHasOne(l: Lists, next: Lists, gid: string, dest: ListName)
    requires Partitioned(l, next, gid, dest)
    ensures AtMostOne(All(next), gid)
  {
    forall n: ListName ensures AtMostOne(Get(next, n), gid) {
      if n != dest { assert !Has(Get(next, n), gid); }
    }
    assert AtMostOne(Get(next, Active), gid) && AtMostOne(Get(next, Waiting), gid) && AtMostOne(Get(next, Stopped), gid);
    assert dest == Active || !Has(Get(next, Active), gid);
    assert dest == Waiting || !Has(Get(next, Waiting), gid);
    assert dest == Stopped || !Has(Get(next, Stopped), gid);
    HasAppend(next.active, next.waiting, gid);
    AtMostOneAppend(next.active, next.waiting, gid);
    AtMostOneAppend(next.active + next.waiting, next.stopped, gid);
  }

  lemma PartitionedDistinct(l: Lists, next: Lists, gid: string, dest: ListName)
    requires Partitioned(l, next, gid, dest) && Distinct(All(l))
    ensures Distinct(All(next))
  {
    OthersOfAll(l, gid);
    OthersOfAll(next, gid);
    assert Others(Get(next, Active), gid) == Others(Get(l, Active), gid);
    assert Others(Get(next, Waiting), gid) == Others(Get(l, Waiting), gid);
    assert Others(Get(next, Stopped), gid) == Others(Get(l, Stopped), gid);
    OthersStayDistinct(All(l), gid);
    PartitionedHasOne(l, next, gid, dest);
    DistinctFromOthers(All(next), gid);
  }

  lemma RemoveDistinct(l: Lists, gid: string)
    requires Distinct(All(l))
    ensures Distinct(All(Remove(l, gid)))
  {
    OthersOfAll(l, gid);
    OthersStayDistinct(All(l), gid);
  }

  lemma MoveKeepsDistinct(l: Lists, gid: string, status: string, dest: ListName, refuseStopped: bool)
    requires Distinct(All(l))
    ensures Distinct(All(Move(l, gid, status, dest, refuseStopped).0))
  {
    MovePartitions(l, gid, status, dest, refuseStopped);
    var moved := Move(l, gid, status, dest, refuseStopped);
    if moved.1.Some? { PartitionedDistinct(l, moved.0, gid, dest); }
  }

  lemma StopKeepsDistinct(l: Lists, gid: string, status: string, code: string, message: string, total: string)
    requires Distinct(All(l))
    ensures Distinct(All(MoveToStopped(l, gid, status, code, message, total)))
  {
    MoveKeepsDistinct(l, gid, status, Stopped, false);
    var moved := Move(l, gid, status, Stopped, false).0;
    StampKeepsGids(moved.stopped, gid, status, code, message, total);
    SameGidsDistinct(All(moved), All(moved.(stopped := Stamp(moved.stopped, gid, status, code, message, total))));
  }

  lemma StampKeepsGids(rows: seq<Task>, gid: string, status: string, code: string, message: string, total: string)
    ensures SameGids(rows, Stamp(rows, gid, status, code, message, total))
  {
  }

  lemma PerformKeepsDistinct(l: Lists, op: Op)
    requires Distinct(All(l)) && Possible(l, op)
    ensures Distinct(All(Perform(l, op)))
  {
    match op
    case AddTask(task, dest) =>
      AddPartitions(l, task, dest);
      PartitionedDistinct(l, Perform(l, op), task.gid, dest);
    case MoveTask(gid, status, dest, refuseStopped) => MoveKeepsDistinct(l, gid, status, dest, refuseStopped);
    case StopTask(gid, status, code, message, total) => StopKeepsDistinct(l, gid, status, code, message, total);
    case PatchTask(gid, completed, speed, total) =>
      SameGidsDistinct(All(l), All(Perform(l, op)));
    case RemoveTask(gid) => RemoveDistinct(l, gid);
    case EditInPlace(next) => SameGidsDistinct(All(l), All(next));
  }

  /** The lists after `ops`, starting empty; an edit that is not in place is none. */
  function After(ops: seq<Op>): Lists {
    if ops == [] then Lists([], [], [])
    else
      var before := After(ops[..|ops| - 1]);
      var op := ops[|ops| - 1];
      if Possible(before, op) then Perform(before, op) else before
  }

  /** However the Surge lists are driven, no download ever shows in two places. */
  lemma {:induction false} ReachableListsAreDistinct(ops: seq<Op>)
    ensures Distinct(All(After(ops)))
  {
    if ops != [] {
      var n := |ops| - 1;
      ReachableListsAreDistinct(ops[..n]);
      if Possible(After(ops[..n]), ops[n]) { PerformKeepsDistinct(After(ops[..n]), ops[n]); }
    }
  }
}
