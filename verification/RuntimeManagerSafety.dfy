/**
 * Crash-atomic commits and linearisable publication of the runtime source
 * manager, over every interleaving of its steps.
 */
module RuntimeManagerSafety {
  import opened Prelude
  import opened Utf8
  import opened Locator
  import opened RuntimeStore
  import opened RuntimeManager

  // ---- the invariant -------------------------------------------------------

  predicate Holds(phase: Phase) {
    match phase
    case Planned | Staging(_) | Finalized | Indexed | Committed | UndoStaging | UndoGeneration => true
    case _ => false
  }

  predicate Identifies(row: Row, c: Candidate) {
    && c.packId == row.packId && c.packVersion == row.packVersion && c.signer == row.signer
    && c.zipped == NeedsAsset(row.kind)
  }

  /** The generation a row names is on disk, written in full from the candidate recorded for it. */
  predicate Backed(packs: map<Key, Dir>, made: map<string, Candidate>, row: Row) {
    && row.gen in made
    && KeyOf(row) in packs
    && packs[KeyOf(row)] == FilesOf(made[row.gen])
    && Identifies(row, made[row.gen])
  }

  predicate Named(rows: seq<Row>, key: Key) {
    exists r :: r in rows && KeyOf(r) == key
  }

  predicate RowsMinted(minted: set<string>, rows: seq<Row>) {
    forall r :: r in rows ==> r.gen in minted && r.sourceId in minted
  }

  predicate RowsBacked(packs: map<Key, Dir>, made: map<string, Candidate>, rows: seq<Row>) {
    forall r :: r in rows ==> r.gen in made ==> Backed(packs, made, r)
  }

  predicate DiskOk(minted: set<string>, made: map<string, Candidate>, rows: seq<Row>, packs: map<Key, Dir>) {
    && RereadRows(rows) == rows
    && RowsMinted(minted, rows)
    && (forall g :: g in made ==> g in minted)
    && RowsBacked(packs, made, rows)
  }

  predicate RecordOk(embedded: set<string>, r: Record) {
    r.status.Ready? ==> r.row.packId !in embedded && r.pack.Some? && r.pack.value.packId == r.row.packId
  }

  predicate SourcesOk(embedded: set<string>, rs: seq<Record>) {
    && ValidRows(RowsOf(rs))
    && forall i :: 0 <= i < |rs| ==> RecordOk(embedded, rs[i])
  }

  predicate WrittenForm(d: Disk) {
    d.index.Some? ==> d.index.value.IndexFile? && d.index.value.schemaVersion == 1
  }

  /** One atomic change of the list, as the operation asks for it. */
  predicate Commits(p: Process, before: seq<Record>, after: seq<Record>) {
    match p.op
    case Load(kind, locator) =>
      && |after| == |before| + 1 && after[..|before|] == before
      && p.loaded.Some?
      && var r := after[|before|];
      && r.status == Ready && r.pack == p.loaded
      && r.row.kind == kind && r.row.locator == locator && Identifies(r.row, p.loaded.value)
    case Reload(id) =>
      && p.captured.Some? && p.loaded.Some?
      && exists i :: 0 <= i < |before| && before[i] == p.captured.value && before[i].row.sourceId == id
                     && ReplacedAt(before, after, i, p.loaded.value)
    case Remove(id) =>
      exists i :: 0 <= i < |before| && before[i].row.sourceId == id && RemovedAt(before, after, i)
  }

  /** Position `i` keeps its id, kind, locator, pack id and signer; every other position is untouched. */
  predicate ReplacedAt(before: seq<Record>, after: seq<Record>, i: nat, c: Candidate)
    requires i < |before|
  {
    && |after| == |before|
    && after == before[i := after[i]]
    && after[i].status == Ready && after[i].pack == Some(c)
    && after[i].row == before[i].row.(packVersion := c.packVersion, gen := after[i].row.gen)
    && Identifies(after[i].row, c)
  }

  predicate RemovedAt(before: seq<Record>, after: seq<Record>, i: nat)
    requires i < |before|
  {
    after == before[..i] + before[i + 1..]
  }

  predicate CreatedOk(minted: set<string>, rows: seq<Row>, key: Key) {
    key.gen in minted && forall r :: r in rows ==> r.gen != key.gen
  }

  predicate FromPlan(sources: seq<Record>, p: Process, plan: Plan) {
    forall r :: r in plan.after ==>
      r in sources || (plan.created == Some(KeyOf(r.row)) && p.loaded.Some? && Identifies(r.row, p.loaded.value))
  }

  /** What the lock holder knows about the list it is going to publish. */
  predicate PlanOk(embedded: set<string>, minted: set<string>, sources: seq<Record>, p: Process) {
    && p.plan.Some?
    && var plan := p.plan.value;
    && SourcesOk(embedded, plan.after)
    && RowsMinted(minted, RowsOf(plan.after))
    && Commits(p, sources, plan.after)
    && FromPlan(sources, p, plan)
    && (plan.created.None? <==> p.op.Remove?)
    && (plan.created.Some? ==> p.loaded.Some? && CreatedOk(minted, RowsOf(sources), plan.created.value))
    && (p.op.Load? <==> plan.stale.None?)
    && (plan.stale.Some? ==> plan.stale.value.gen in minted && !Named(RowsOf(plan.after), plan.stale.value))
  }

  /** How far the new generation of the lock holder has come. */
  predicate StagedOk(d: Disk, made: map<string, Candidate>, p: Process) {
    HasFreshPlan(p) ==>
      var key := p.plan.value.created.value;
      var files := FilesOf(p.loaded.value);
      match p.phase
      case Planned => key.gen !in made
      case Staging(n) =>
        && key.gen !in made && n <= |files|
        && key.gen in d.staging && d.staging[key.gen] == files[..n]
      case Finalized | Indexed =>
        && key.gen in made && made[key.gen] == p.loaded.value
        && key in d.packs && d.packs[key] == files
      case _ => true
  }

  predicate CommittedOk(minted: set<string>, sources: seq<Record>, p: Process) {
    && p.plan.Some?
    && sources == p.plan.value.after
    && (p.op.Load? <==> p.plan.value.stale.None?)
    && (p.plan.value.stale.Some? ==>
          p.plan.value.stale.value.gen in minted && !Named(RowsOf(sources), p.plan.value.stale.value))
  }

  /** What the lock holder knows besides how far its new generation has come. */
  predicate HolderOk(embedded: set<string>, minted: set<string>, pub: Published, p: Process) {
    && pub.writable
    && Holds(p.phase)
    && if p.phase == Committed then CommittedOk(minted, pub.sources, p)
       else PlanOk(embedded, minted, pub.sources, p)
  }

  /** A generation waiting to be deleted is not named by the index and never will be again. */
  predicate StaleOk(minted: set<string>, rows: seq<Row>, sources: seq<Row>, reserved: Option<Key>, key: Key) {
    && key.gen in minted
    && !Named(rows, key)
    && !Named(sources, key)
    && reserved != Some(key)
  }

  /** A captured record is still the published one wherever pack and generation agree. */
  predicate CapturedOk(minted: set<string>, sources: seq<Record>, reserved: Option<Key>, p: Process) {
    p.op.Reload? && (p.phase == Loading || p.phase == AwaitingLock) ==>
      && p.captured.Some?
      && reserved != Some(KeyOf(p.captured.value.row))
      && p.captured.value.row.sourceId == p.op.sourceId
      && p.captured.value.row.gen in minted
      && forall i :: 0 <= i < |sources| && KeyOf(sources[i].row) == KeyOf(p.captured.value.row)
                     ==> sources[i] == p.captured.value
  }

  predicate LoadedOk(p: Process) {
    && (p.op.Load? && (p.phase == Loading || p.phase == AwaitingLock) ==> IsDurable(p.op.kind, p.op.locator))
    && (p.op.Load? && p.phase == AwaitingLock ==> p.loaded.Some? && CandidateOk(p.loaded.value, p.op.kind))
    && (p.op.Reload? && p.phase == AwaitingLock && p.captured.Some? ==>
          p.loaded.Some? && CandidateOk(p.loaded.value, p.captured.value.row.kind))
    && (p.op.Remove? ==> !p.phase.Loading?)
  }

  function CommitsIn(phase: Phase): nat {
    if phase == Committed || phase == Cleaning || phase == Finished(true) then 1 else 0
  }

  /** What holds of every process, whoever has the lock. */
  predicate ProcOk(minted: set<string>, rows: seq<Row>, sources: seq<Record>, reserved: Option<Key>, p: Process) {
    && p.commits == CommitsIn(p.phase)
    && CapturedOk(minted, sources, reserved, p)
    && LoadedOk(p)
    && (p.phase == Cleaning ==>
          p.plan.Some? && p.plan.value.stale.Some?
          && StaleOk(minted, rows, RowsOf(sources), reserved, p.plan.value.stale.value))
  }

  /** The generation the lock holder is creating, until it is published. */
  function Reserved(m: Memory): Option<Key> {
    if m.holder.Some? && m.holder.value in m.procs && m.procs[m.holder.value].plan.Some?
       && m.procs[m.holder.value].phase != Committed
    then m.procs[m.holder.value].plan.value.created else None
  }

  /** The list the on-disk index should hold: the published one or, for one step, the next one. */
  function DueSources(m: Memory): seq<Record> {
    if m.holder.Some? && m.holder.value in m.procs
       && m.procs[m.holder.value].phase == Indexed && m.procs[m.holder.value].plan.Some?
    then m.procs[m.holder.value].plan.value.after
    else m.pub.sources
  }

  predicate LockOk(m: Memory) {
    && (m.holder.Some? ==> m.holder.value in m.procs)
    && forall pid :: pid in m.procs ==> (Holds(m.procs[pid].phase) <==> m.holder == Some(pid))
  }

  predicate ProcsOk(minted: set<string>, rows: seq<Row>, sources: seq<Record>, reserved: Option<Key>,
                    procs: map<nat, Process>) {
    forall pid :: pid in procs ==> ProcOk(minted, rows, sources, reserved, procs[pid])
  }

  predicate PublishedOk(s: State, m: Memory) {
    && (m.pub.writable ==>
          && SourcesOk(s.embedded, m.pub.sources)
          && RowsMinted(s.minted, RowsOf(m.pub.sources))
          && IndexRows(s.disk) == RereadRows(RowsOf(DueSources(m)))
          && WrittenForm(s.disk))
    && (!m.pub.writable ==> m.pub.sources == [])
  }

  predicate MemoryOk(s: State, m: Memory) {
    && LockOk(m)
    && PublishedOk(s, m)
    && ProcsOk(s.minted, IndexRows(s.disk), m.pub.sources, Reserved(m), m.procs)
    && (m.holder.Some? ==>
          && HolderOk(s.embedded, s.minted, m.pub, m.procs[m.holder.value])
          && StagedOk(s.disk, s.made, m.procs[m.holder.value]))
  }

  predicate Inv(s: State) {
    && DiskOk(s.minted, s.made, IndexRows(s.disk), s.disk.packs)
    && (s.live.Some? ==> MemoryOk(s, s.live.value))
  }

  // ---- every step keeps the invariant --------------------------------------

  lemma RowsOfContains(rs: seq<Record>, row: Row)
    ensures row in RowsOf(rs) <==> exists r :: r in rs && r.row == row
  {
    if row in RowsOf(rs) {
      var i :| 0 <= i < |rs| && RowsOf(rs)[i] == row;
      assert rs[i] in rs;
    }
    if r :| r in rs && r.row == row {
      var i :| 0 <= i < |rs| && rs[i] == r;
      assert RowsOf(rs)[i] == row;
    }
  }

  /** A process without the lock takes a step in memory only. */
  lemma StepOutside(s: State, pid: nat, p': Process)
    requires Inv(s) && s.live.Some?
    requires var m := s.live.value;
             && (pid in m.procs ==> !Holds(m.procs[pid].phase)) && !Holds(p'.phase)
             && ProcOk(s.minted, IndexRows(s.disk), m.pub.sources, Reserved(m), p')
    ensures Inv(s.(live := Some(WithProc(s.live.value, pid, p'))))
  {
    var m := s.live.value;
    var m' := WithProc(m, pid, p');
    assert m.holder != Some(pid);
    assert Reserved(m') == Reserved(m) && DueSources(m') == DueSources(m);
  }

  /** What the lock holder knows does not depend on how far it has come. */
  lemma PhaseKeepsHolder(embedded: set<string>, minted: set<string>, pub: Published, p: Process, phase: Phase)
    requires HolderOk(embedded, minted, pub, p) && p.phase != Committed
    requires Holds(phase) && phase != Committed
    ensures HolderOk(embedded, minted, pub, p.(phase := phase))
  {
  }

  lemma PhaseKeepsProcess(s: State, pid: nat, phase: Phase)
    requires Inv(s) && s.live.Some? && s.live.value.holder == Some(pid)
    requires ProcOf(s, pid).phase != Committed && Holds(phase) && phase != Committed
    ensures var m := s.live.value;
            ProcOk(s.minted, IndexRows(s.disk), m.pub.sources, Reserved(m), m.procs[pid].(phase := phase))
  {
    var m := s.live.value;
    assert ProcOk(s.minted, IndexRows(s.disk), m.pub.sources, Reserved(m), m.procs[pid]);
  }

  /** The lock holder moves on; index and published list stay as they are. */
  lemma StepInside(s: State, pid: nat, d': Disk, made': map<string, Candidate>, phase: Phase)
    requires Inv(s) && s.live.Some? && s.live.value.holder == Some(pid)
    requires var before := ProcOf(s, pid).phase;
             before != Indexed && before != Committed && Holds(phase) && phase != Indexed && phase != Committed
    requires d'.index == s.disk.index
    requires DiskOk(s.minted, made', IndexRows(s.disk), d'.packs)
    requires StagedOk(d', made', ProcOf(s, pid).(phase := phase))
    ensures Inv(Go(s, pid, phase).(disk := d', made := made'))
  {
    var m := s.live.value;
    var p' := ProcOf(s, pid).(phase := phase);
    var m' := WithProc(m, pid, p');
    PhaseKeepsHolder(s.embedded, s.minted, m.pub, ProcOf(s, pid), phase);
    PhaseKeepsProcess(s, pid, phase);
    assert Reserved(m') == Reserved(m) && DueSources(m') == DueSources(m);
  }

  /** The lock holder leaves; index and published list stay as they are. */
  lemma StepLeave(s: State, pid: nat, d': Disk, p': Process)
    requires Inv(s) && s.live.Some? && s.live.value.holder == Some(pid)
    requires var m := s.live.value;
             && !Holds(p'.phase) && m.procs[pid].phase != Indexed
             && ProcOk(s.minted, IndexRows(s.disk), m.pub.sources, None, p')
    requires d'.index == s.disk.index
    requires DiskOk(s.minted, s.made, IndexRows(s.disk), d'.packs)
    ensures Inv(s.(disk := d', live := Some(WithProc(s.live.value, pid, p').(holder := None))))
  {
    var m := s.live.value;
    var m' := WithProc(m, pid, p').(holder := None);
    assert Reserved(m').None? && DueSources(m') == DueSources(m);
  }

  /** The lock holder gives up before committing. */
  lemma StepGiveUp(s: State, pid: nat, d': Disk)
    requires Inv(s) && s.live.Some? && s.live.value.holder == Some(pid)
    requires ProcOf(s, pid).phase != Indexed && ProcOf(s, pid).phase != Committed
    requires d'.index == s.disk.index
    requires DiskOk(s.minted, s.made, IndexRows(s.disk), d'.packs)
    ensures Inv(Leave(s, pid, Finished(false)).(disk := d'))
  {
    var m := s.live.value;
    assert ProcOk(s.minted, IndexRows(s.disk), m.pub.sources, Reserved(m), m.procs[pid]);
    StepLeave(s, pid, d', ProcOf(s, pid).(phase := Finished(false)));
  }

  /** Removing a generation the index does not name leaves every named one as it was. */
  lemma RemovalKeepsDisk(s: State, key: Key, left: Option<Dir>)
    requires DiskOk(s.minted, s.made, IndexRows(s.disk), s.disk.packs) && !Named(IndexRows(s.disk), key)
    ensures DiskOk(s.minted, s.made, IndexRows(s.disk), RemoveGeneration(s.disk, key, left).packs)
  {
  }

  // ---- encoding the rows of a plan ------------------------------------------

  lemma RereadContains(rows: seq<Row>, row: Row)
    ensures row in RereadRows(rows) <==> exists r :: r in rows && Reread(r) == row
  {
    if row in RereadRows(rows) {
      var i :| 0 <= i < |rows| && RereadRows(rows)[i] == row;
      assert rows[i] in rows;
    }
    if r :| r in rows && Reread(r) == row {
      var i :| 0 <= i < |rows| && rows[i] == r;
      assert RereadRows(rows)[i] == row;
    }
  }

  lemma RereadKeepsNames(rows: seq<Row>, key: Key)
    ensures Named(RereadRows(rows), key) <==> Named(rows, key)
  {
    if Named(RereadRows(rows), key) {
      var row :| row in RereadRows(rows) && KeyOf(row) == key;
      RereadContains(rows, row);
    }
    if r :| r in rows && KeyOf(r) == key {
      RereadContains(rows, Reread(r));
      assert KeyOf(Reread(r)) == key;
    }
  }

  /** Encoding the rows changes nothing but locators, so they are as good as before. */
  lemma RereadKeepsDisk(minted: set<string>, made: map<string, Candidate>, rows: seq<Row>, packs: map<Key, Dir>)
    requires RowsMinted(minted, rows) && RowsBacked(packs, made, rows)
    requires forall g :: g in made ==> g in minted
    ensures DiskOk(minted, made, RereadRows(rows), packs)
  {
    RereadIsIdempotent(rows);
    forall row | row in RereadRows(rows)
      ensures row.gen in minted && row.sourceId in minted && (row.gen in made ==> Backed(packs, made, row))
    {
      RereadContains(rows, row);
      var r :| r in rows && Reread(r) == row;
      assert row.gen in made ==> Backed(packs, made, r);
    }
  }

  // ---- planning --------------------------------------------------------------

  /** The record of a freshly loaded candidate may be appended to the list. */
  lemma AdditionKeepsRows(rows: seq<Row>, row: Row)
    requires AllFieldsOk(rows) && DistinctSources(rows) && DistinctPacks(rows) && |rows| < MAX_SOURCES
    requires RowFieldsOk(row)
    requires forall r :: r in rows ==> r.sourceId != row.sourceId && r.packId != row.packId
    ensures ValidRows(rows + [row])
  {
    AcceptedFields(rows, row);
    AcceptedSource(rows, row);
    AcceptedPack(rows, row);
  }

  lemma LoadedRowOk(s: State, pid: nat, sourceId: string, gen: string)
    requires Inv(s) && Enabled(s, PlanLoad(pid, sourceId, gen))
    ensures var p := ProcOf(s, pid);
            && RowFieldsOk(NewRecord(p.op, p.loaded.value, sourceId, gen).row)
            && Identifies(NewRecord(p.op, p.loaded.value, sourceId, gen).row, p.loaded.value)
  {
    var m := s.live.value;
    assert ProcOk(s.minted, IndexRows(s.disk), m.pub.sources, Reserved(m), ProcOf(s, pid));
  }

  /** Nothing published shares an identifier with the record being added. */
  lemma LoadPlanIsNew(s: State, m: Memory, c: Candidate, sourceId: string, gen: string, r: Row)
    requires MayLoad(s, m, c) && RowsMinted(s.minted, RowsOf(m.pub.sources))
    requires Mintable(s, sourceId) && Mintable(s, gen)
    requires r in RowsOf(m.pub.sources)
    ensures r.sourceId != sourceId && r.gen != gen && r.packId != c.packId
  {
    var sources := m.pub.sources;
    var i :| 0 <= i < |sources| && RowsOf(sources)[i] == r;
    assert r == sources[i].row;
  }

  lemma AdditionKeepsMinted(minted: set<string>, rows: seq<Row>, row: Row)
    requires RowsMinted(minted, rows)
    ensures RowsMinted(minted + {row.sourceId, row.gen}, rows + [row])
  {
  }

  lemma LoadPlanRows(s: State, pid: nat, sourceId: string, gen: string)
    requires Inv(s) && Enabled(s, PlanLoad(pid, sourceId, gen))
    ensures var p := ProcOf(s, pid);
            var sources := s.live.value.pub.sources;
            var record := NewRecord(p.op, p.loaded.value, sourceId, gen);
            && RowsOf(sources + [record]) == RowsOf(sources) + [record.row]
            && ValidRows(RowsOf(sources) + [record.row])
            && RowsMinted(s.minted + {sourceId, gen}, RowsOf(sources) + [record.row])
            && CreatedOk(s.minted + {sourceId, gen}, RowsOf(sources), KeyOf(record.row))
  {
    var sources := s.live.value.pub.sources;
    var rows := RowsOf(sources);
    var record := NewRecord(ProcOf(s, pid).op, ProcOf(s, pid).loaded.value, sourceId, gen);
    LoadedRowOk(s, pid, sourceId, gen);
    forall r | r in rows
      ensures r.sourceId != sourceId && r.packId != record.row.packId && r.gen != gen
    {
      LoadPlanIsNew(s, s.live.value, ProcOf(s, pid).loaded.value, sourceId, gen, r);
    }
    AdditionKeepsRows(rows, record.row);
    AdditionKeepsMinted(s.minted, rows, record.row);
    assert RowsOf(sources + [record]) == rows + [record.row];
  }

  lemma LoadPlanOk(s: State, pid: nat, sourceId: string, gen: string)
    requires Inv(s) && Enabled(s, PlanLoad(pid, sourceId, gen))
    ensures PlanOk(s.embedded, s.minted + {sourceId, gen}, s.live.value.pub.sources,
                   ProcOf(s, pid).(phase := Planned, plan := Some(LoadPlan(s, pid, sourceId, gen))))
  {
    var sources := s.live.value.pub.sources;
    var plan := LoadPlan(s, pid, sourceId, gen);
    LoadPlanRows(s, pid, sourceId, gen);
    LoadedRowOk(s, pid, sourceId, gen);
    assert plan.after[..|sources|] == sources;
    forall i | 0 <= i < |plan.after|
      ensures RecordOk(s.embedded, plan.after[i])
    {
      if i < |sources| { assert plan.after[i] == sources[i]; }
    }
  }

  lemma ReloadPlanOk(s: State, pid: nat, gen: string)
    requires Inv(s) && Enabled(s, PlanReload(pid, gen))
    ensures PlanOk(s.embedded, s.minted + {gen}, s.live.value.pub.sources,
                   ProcOf(s, pid).(phase := Planned, plan := Some(ReloadPlan(s, pid, gen))))
  {
    var m := s.live.value;
    var p := ProcOf(s, pid);
    var plan := ReloadPlan(s, pid, gen);
    assert ProcOk(s.minted, IndexRows(s.disk), m.pub.sources, Reserved(m), p);
    var i := Find(m.pub.sources, p.op.sourceId);
    assert KeyOf(m.pub.sources[i].row) == KeyOf(p.captured.value.row);
    assert m.pub.sources[i] == p.captured.value;
    assert RowsOf(m.pub.sources)[i] in RowsOf(m.pub.sources);
    assert RowFieldsOk(m.pub.sources[i].row) && RowFieldsOk(plan.after[i].row);
    ReplacementKeepsSources(s.embedded, s.minted, m.pub.sources, i, plan.after[i], gen);
    assert ReplacedAt(m.pub.sources, plan.after, i, p.loaded.value);
  }

  lemma RemovalKeepsSources(embedded: set<string>, minted: set<string>, sources: seq<Record>, i: nat)
    requires SourcesOk(embedded, sources) && RowsMinted(minted, RowsOf(sources)) && i < |sources|
    ensures var after := sources[..i] + sources[i + 1..];
            && SourcesOk(embedded, after) && RowsMinted(minted, RowsOf(after))
            && sources[i].row.gen in minted && !Named(RowsOf(after), KeyOf(sources[i].row))
            && forall r :: r in after ==> r in sources
  {
    var rows := RowsOf(sources);
    var after := sources[..i] + sources[i + 1..];
    assert RowsOf(after) == rows[..i] + rows[i + 1..];
    RemovalKeepsRows(rows, i);
    assert rows[i] in rows;
    forall j | 0 <= j < |after|
      ensures RecordOk(embedded, after[j])
    {
      assert after[j] == sources[if j < i then j else j + 1];
    }
  }

  lemma RemovePlanOk(s: State, pid: nat)
    requires Inv(s) && Enabled(s, PlanRemove(pid))
    ensures PlanOk(s.embedded, s.minted, s.live.value.pub.sources,
                   ProcOf(s, pid).(phase := Planned, plan := Some(RemovePlan(s, pid))))
  {
    var sources := s.live.value.pub.sources;
    var p := ProcOf(s, pid);
    var i := Find(sources, p.op.sourceId);
    RemovalKeepsSources(s.embedded, s.minted, sources, i);
    assert RemovedAt(sources, RemovePlan(s, pid).after, i);
  }

  lemma ReplacementKeepsSources(embedded: set<string>, minted: set<string>, sources: seq<Record>, i: nat,
                                r: Record, gen: string)
    requires SourcesOk(embedded, sources) && RowsMinted(minted, RowsOf(sources)) && i < |sources|
    requires RecordOk(embedded, r) && RowFieldsOk(r.row) && r.row.gen == gen && gen !in minted
    requires r.row.sourceId == sources[i].row.sourceId && r.row.packId == sources[i].row.packId
    ensures var after := sources[i := r];
            && SourcesOk(embedded, after) && RowsMinted(minted + {gen}, RowsOf(after))
            && !Named(RowsOf(after), KeyOf(sources[i].row))
  {
    var rows := RowsOf(sources);
    assert RowsOf(sources[i := r]) == rows[i := r.row];
    ReplacementKeepsRows(rows, i, r.row);
    assert rows[i] in rows;
    forall row | row in rows[i := r.row]
      ensures row.gen in minted + {gen} && row.sourceId in minted && KeyOf(row) != KeyOf(rows[i])
    {
      var j :| 0 <= j < |rows| && rows[i := r.row][j] == row;
      if j != i { assert rows[j] in rows && rows[j].packId != rows[i].packId; }
    }
  }

  lemma ReplacementKeepsRows(rows: seq<Row>, i: nat, row: Row)
    requires ValidRows(rows) && i < |rows| && RowFieldsOk(row)
    requires row.sourceId == rows[i].sourceId && row.packId == rows[i].packId
    ensures ValidRows(rows[i := row])
  {
  }

  lemma RemovalKeepsRows(rows: seq<Row>, i: nat)
    requires ValidRows(rows) && i < |rows|
    ensures var left := rows[..i] + rows[i + 1..];
            ValidRows(left) && !Named(left, KeyOf(rows[i])) && forall r :: r in left ==> r in rows
  {
    var left := rows[..i] + rows[i + 1..];
    assert forall j :: 0 <= j < |left| ==> left[j] == rows[if j < i then j else j + 1];
    forall r | r in left
      ensures r in rows && KeyOf(r) != KeyOf(rows[i])
    {
      var j :| 0 <= j < |left| && left[j] == r;
      assert r == rows[if j < i then j else j + 1];
    }
  }

  /** A reservation with a generation never used before concerns no process. */
  lemma LockKeepsProcesses(minted: set<string>, ids: set<string>, rows: seq<Row>, sources: seq<Record>,
                           procs: map<nat, Process>, pid: nat, p': Process)
    requires ProcsOk(minted, rows, sources, None, procs) && pid in procs
    requires p'.phase == Planned && p'.commits == 0 && p'.plan.Some?
    requires p'.plan.value.created.Some? ==> p'.plan.value.created.value.gen !in minted
    ensures ProcsOk(minted + ids, rows, sources, p'.plan.value.created, procs[pid := p'])
  {
    var procs' := procs[pid := p'];
    forall q | q in procs'
      ensures ProcOk(minted + ids, rows, sources, p'.plan.value.created, procs'[q])
    {
      assert ProcOk(minted, rows, sources, None, procs[q]);
    }
  }

  /** A process takes the free lock with a plan whose identifiers are new. */
  lemma StepLock(s: State, pid: nat, plan: Plan, ids: set<string>)
    requires Inv(s) && InPhase(s, pid, AwaitingLock) && Free(s)
    requires var m := s.live.value;
             var p' := ProcOf(s, pid).(phase := Planned, plan := Some(plan));
             && m.pub.writable
             && PlanOk(s.embedded, s.minted + ids, m.pub.sources, p')
             && (plan.created.Some? ==> plan.created.value.gen !in s.minted)
    ensures Inv(TakeLock(s, pid, plan, ids))
  {
    var m := s.live.value;
    var p' := ProcOf(s, pid).(phase := Planned, plan := Some(plan));
    var m' := TakeLock(s, pid, plan, ids).live.value;
    assert ProcOk(s.minted, IndexRows(s.disk), m.pub.sources, None, ProcOf(s, pid));
    LockKeepsProcesses(s.minted, ids, IndexRows(s.disk), m.pub.sources, m.procs, pid, p');
    assert Reserved(m') == plan.created && DueSources(m') == DueSources(m);
    assert StagedOk(s.disk, s.made, p');
    assert HolderOk(s.embedded, s.minted + ids, m'.pub, p');
  }

  lemma IndexKeepsProcess(minted: set<string>, rows: seq<Row>, sources: seq<Record>, p: Process, o: Process)
    requires p.plan.Some? && FromPlan(sources, p, p.plan.value)
    requires ProcOk(minted, rows, sources, p.plan.value.created, o)
    ensures ProcOk(minted, RereadRows(RowsOf(p.plan.value.after)), sources, p.plan.value.created, o)
  {
    if o.phase == Cleaning {
      PlanAvoids(sources, p, o.plan.value.stale.value);
      RereadKeepsNames(RowsOf(p.plan.value.after), o.plan.value.stale.value);
    }
  }

  lemma IndexKeepsProcesses(minted: set<string>, rows: seq<Row>, sources: seq<Record>, procs: map<nat, Process>,
                            pid: nat)
    requires pid in procs && procs[pid].plan.Some? && FromPlan(sources, procs[pid], procs[pid].plan.value)
    requires Holds(procs[pid].phase) && procs[pid].phase != Committed
    requires ProcsOk(minted, rows, sources, procs[pid].plan.value.created, procs)
    ensures var p := procs[pid];
            ProcsOk(minted, RereadRows(RowsOf(p.plan.value.after)), sources, p.plan.value.created,
                    procs[pid := p.(phase := Indexed)])
  {
    var p := procs[pid];
    var procs' := procs[pid := p.(phase := Indexed)];
    forall q | q in procs'
      ensures ProcOk(minted, RereadRows(RowsOf(p.plan.value.after)), sources, p.plan.value.created, procs'[q])
    {
      assert ProcOk(minted, rows, sources, p.plan.value.created, procs[q]);
      IndexKeepsProcess(minted, rows, sources, p, procs[q]);
    }
  }

  lemma IndexKeepsHolder(s: State, pid: nat)
    requires Inv(s) && Enabled(s, ReplaceIndex(pid))
    ensures var p := ProcOf(s, pid);
            var rows := RowsOf(p.plan.value.after);
            && s.live.value.holder == Some(pid)
            && DiskOk(s.minted, s.made, RereadRows(rows), s.disk.packs)
            && HolderOk(s.embedded, s.minted, s.live.value.pub, p.(phase := Indexed))
            && StagedOk(s.disk, s.made, p.(phase := Indexed))
  {
    var m := s.live.value;
    var p := ProcOf(s, pid);
    assert m.holder == Some(pid);
    PhaseKeepsHolder(s.embedded, s.minted, m.pub, p, Indexed);
    IndexRowsBacked(s, pid);
    RereadKeepsDisk(s.minted, s.made, RowsOf(p.plan.value.after), s.disk.packs);
  }

  lemma IndexKeepsLock(m: Memory, pid: nat)
    requires LockOk(m) && m.holder == Some(pid) && m.procs[pid].plan.Some? && m.procs[pid].phase != Committed
    ensures var m' := WithProc(m, pid, m.procs[pid].(phase := Indexed));
            && LockOk(m') && Reserved(m') == Reserved(m) == m.procs[pid].plan.value.created
            && DueSources(m') == m.procs[pid].plan.value.after
  {
  }

  lemma IndexEffect(s: State, pid: nat)
    requires Enabled(s, ReplaceIndex(pid))
    ensures var s' := Next(s, ReplaceIndex(pid));
            && s'.disk.packs == s.disk.packs && s'.disk.staging == s.disk.staging && WrittenForm(s'.disk)
            && IndexRows(s'.disk) == RereadRows(RowsOf(ProcOf(s, pid).plan.value.after))
            && s' == s.(disk := s'.disk, live := Some(WithProc(s.live.value, pid, ProcOf(s, pid).(phase := Indexed))))
  {
  }

  lemma IndexedKeepsInvariant(s: State, pid: nat, d': Disk)
    requires Inv(s) && Enabled(s, ReplaceIndex(pid))
    requires d'.packs == s.disk.packs && d'.staging == s.disk.staging && WrittenForm(d')
    requires IndexRows(d') == RereadRows(RowsOf(ProcOf(s, pid).plan.value.after))
    ensures Inv(s.(disk := d', live := Some(WithProc(s.live.value, pid, ProcOf(s, pid).(phase := Indexed)))))
  {
    var m := s.live.value;
    IndexKeepsHolder(s, pid);
    IndexKeepsLock(m, pid);
    IndexKeepsProcesses(s.minted, IndexRows(s.disk), m.pub.sources, m.procs, pid);
  }

  /** The index takes the planned rows: still no row names a generation awaiting deletion. */
  lemma StepIndex(s: State, pid: nat)
    requires Inv(s) && Enabled(s, ReplaceIndex(pid))
    ensures Inv(Next(s, ReplaceIndex(pid)))
  {
    IndexEffect(s, pid);
    IndexedKeepsInvariant(s, pid, Next(s, ReplaceIndex(pid)).disk);
  }

  /** Only published rows and the created one can appear in the planned list. */
  lemma PlanAvoids(sources: seq<Record>, p: Process, key: Key)
    requires p.plan.Some? && FromPlan(sources, p, p.plan.value)
    requires !Named(RowsOf(sources), key) && p.plan.value.created != Some(key)
    ensures !Named(RowsOf(p.plan.value.after), key)
  {
    if Named(RowsOf(p.plan.value.after), key) {
      var row :| row in RowsOf(p.plan.value.after) && KeyOf(row) == key;
      RowsOfContains(p.plan.value.after, row);
      var r :| r in p.plan.value.after && r.row == row;
      assert r in sources;
      RowsOfContains(sources, row);
    }
  }

  /** Every planned row the manager made names a generation written in full. */
  lemma IndexRowsBacked(s: State, pid: nat)
    requires Inv(s) && Enabled(s, ReplaceIndex(pid))
    ensures RowsBacked(s.disk.packs, s.made, RowsOf(ProcOf(s, pid).plan.value.after))
  {
    var m := s.live.value;
    var p := ProcOf(s, pid);
    var plan := p.plan.value;
    assert m.holder == Some(pid) && IndexRows(s.disk) == RereadRows(RowsOf(m.pub.sources));
    forall row | row in RowsOf(plan.after) && row.gen in s.made
      ensures Backed(s.disk.packs, s.made, row)
    {
      RowsOfContains(plan.after, row);
      var r :| r in plan.after && r.row == row;
      if r in m.pub.sources {
        RowsOfContains(m.pub.sources, row);
        RereadContains(RowsOf(m.pub.sources), Reread(row));
        assert Backed(s.disk.packs, s.made, Reread(row));
      }
    }
  }

  /** A captured record agrees with the planned list as it did with the published one. */
  lemma PublishKeepsCaptured(minted: set<string>, sources: seq<Record>, p: Process, o: Process)
    requires p.plan.Some? && FromPlan(sources, p, p.plan.value)
    requires CapturedOk(minted, sources, p.plan.value.created, o)
    ensures CapturedOk(minted, p.plan.value.after, None, o)
  {
    var after := p.plan.value.after;
    if o.op.Reload? && (o.phase == Loading || o.phase == AwaitingLock) {
      forall i | 0 <= i < |after| && KeyOf(after[i].row) == KeyOf(o.captured.value.row)
        ensures after[i] == o.captured.value
      {
        assert after[i] in after;
        assert after[i] in sources;
      }
    }
  }

  /** A generation that the index will not name is not named by the list it was encoded from. */
  lemma PublishKeepsStale(minted: set<string>, rows: seq<Row>, sources: seq<Row>, reserved: Option<Key>, key: Key)
    requires StaleOk(minted, RereadRows(rows), sources, reserved, key)
    ensures StaleOk(minted, RereadRows(rows), rows, None, key)
  {
    RereadKeepsNames(rows, key);
  }

  lemma PublishKeepsProcess(minted: set<string>, sources: seq<Record>, p: Process, o: Process)
    requires p.plan.Some? && FromPlan(sources, p, p.plan.value)
    requires ProcOk(minted, RereadRows(RowsOf(p.plan.value.after)), sources, p.plan.value.created, o)
    ensures ProcOk(minted, RereadRows(RowsOf(p.plan.value.after)), p.plan.value.after, None, o)
  {
    PublishKeepsCaptured(minted, sources, p, o);
    if o.phase == Cleaning {
      PublishKeepsStale(minted, RowsOf(p.plan.value.after), RowsOf(sources), p.plan.value.created,
                        o.plan.value.stale.value);
    }
  }

  /** What holds of the state between the replacement of the index and its publication. */
  lemma BeforePublication(s: State, pid: nat)
    requires Inv(s) && Enabled(s, Publish(pid))
    ensures var m := s.live.value;
            var p := ProcOf(s, pid);
            && m.holder == Some(pid) && Reserved(m) == p.plan.value.created
            && PlanOk(s.embedded, s.minted, m.pub.sources, p)
            && IndexRows(s.disk) == RereadRows(RowsOf(p.plan.value.after))
  {
  }

  lemma PublishKeepsProcesses(minted: set<string>, sources: seq<Record>, procs: map<nat, Process>, pid: nat,
                              p': Process)
    requires pid in procs && procs[pid].plan.Some? && FromPlan(sources, procs[pid], procs[pid].plan.value)
    requires ProcsOk(minted, RereadRows(RowsOf(procs[pid].plan.value.after)), sources,
                     procs[pid].plan.value.created, procs)
    requires p'.phase == Committed && p'.commits == 1
    ensures var after := procs[pid].plan.value.after;
            ProcsOk(minted, RereadRows(RowsOf(after)), after, None, procs[pid := p'])
  {
    var p := procs[pid];
    var after := p.plan.value.after;
    forall q | q in procs && q != pid
      ensures ProcOk(minted, RereadRows(RowsOf(after)), after, None, procs[q])
    {
      PublishKeepsProcess(minted, sources, p, procs[q]);
    }
  }

  lemma PublishedKeepsInvariant(s: State, pid: nat, m': Memory)
    requires Inv(s) && Enabled(s, Publish(pid))
    requires m'.holder == s.live.value.holder
    requires m'.procs
             == s.live.value.procs[pid := ProcOf(s, pid).(phase := Committed, commits := ProcOf(s, pid).commits + 1)]
    requires m'.pub.writable && m'.pub.sources == ProcOf(s, pid).plan.value.after
    ensures Inv(s.(live := Some(m')))
  {
    var m := s.live.value;
    BeforePublication(s, pid);
    assert ProcOk(s.minted, IndexRows(s.disk), m.pub.sources, Reserved(m), m.procs[pid]);
    PublishKeepsProcesses(s.minted, m.pub.sources, m.procs, pid, m'.procs[pid]);
    assert DueSources(m') == m'.pub.sources && Reserved(m') == None;
    assert CommittedOk(s.minted, m'.pub.sources, m'.procs[pid]);
  }

  lemma PublishEffect(s: State, pid: nat)
    requires Enabled(s, Publish(pid))
    ensures var s' := Next(s, Publish(pid));
            && s'.live.Some? && s' == s.(live := s'.live)
            && s'.live.value.holder == s.live.value.holder
            && s'.live.value.procs
               == s.live.value.procs[pid := ProcOf(s, pid).(phase := Committed, commits := ProcOf(s, pid).commits + 1)]
            && s'.live.value.pub.writable && s'.live.value.pub.sources == ProcOf(s, pid).plan.value.after
  {
  }

  lemma StepPublish(s: State, pid: nat)
    requires Inv(s) && Enabled(s, Publish(pid))
    ensures Inv(Next(s, Publish(pid)))
  {
    PublishEffect(s, pid);
    PublishedKeepsInvariant(s, pid, Next(s, Publish(pid)).live.value);
  }

  lemma RemovalKeepsStaged(d: Disk, made: map<string, Candidate>, p: Process, key: Key, left: Option<Dir>)
    requires StagedOk(d, made, p)
    requires p.plan.Some? ==> p.plan.value.created != Some(key)
    ensures StagedOk(RemoveGeneration(d, key, left), made, p)
  {
  }

  /** A generation no index row, no published record and no lock holder knows may go. */
  lemma RemovalKeepsInvariant(s: State, key: Key, left: Option<Dir>)
    requires Inv(s) && s.live.Some?
    requires var m := s.live.value;
             StaleOk(s.minted, IndexRows(s.disk), RowsOf(m.pub.sources), Reserved(m), key)
    ensures Inv(s.(disk := RemoveGeneration(s.disk, key, left)))
  {
    var m := s.live.value;
    RemovalKeepsDisk(s, key, left);
    if m.holder.Some? {
      var h := m.procs[m.holder.value];
      if h.phase != Committed { RemovalKeepsStaged(s.disk, s.made, h, key, left); }
    }
    assert PublishedOk(s.(disk := RemoveGeneration(s.disk, key, left)), m);
  }

  /** A process without the lock deletes a superseded generation. */
  lemma StepClean(s: State, pid: nat, left: Option<Dir>)
    requires Inv(s) && Enabled(s, Clean(pid, left))
    ensures Inv(Next(s, Clean(pid, left)))
  {
    var m := s.live.value;
    var p := ProcOf(s, pid);
    assert ProcOk(s.minted, IndexRows(s.disk), m.pub.sources, Reserved(m), p);
    RemovalKeepsInvariant(s, p.plan.value.stale.value, left);
    StepOutside(s.(disk := RemoveGeneration(s.disk, p.plan.value.stale.value, left)), pid,
                p.(phase := Finished(true)));
  }

  lemma CapturedOnAdmission(s: State, i: nat)
    requires Inv(s) && s.live.Some? && s.live.value.pub.writable && i < |s.live.value.pub.sources|
    ensures var m := s.live.value;
            var c := m.pub.sources[i];
            && c.row.gen in s.minted
            && Reserved(m) != Some(KeyOf(c.row))
            && forall j :: 0 <= j < |m.pub.sources| && KeyOf(m.pub.sources[j].row) == KeyOf(c.row)
                           ==> m.pub.sources[j] == c
  {
    var m := s.live.value;
    var rows := RowsOf(m.pub.sources);
    assert rows[i] in rows;
    forall j | 0 <= j < |m.pub.sources| && KeyOf(m.pub.sources[j].row) == KeyOf(m.pub.sources[i].row)
      ensures j == i
    {
      assert rows[i].packId == rows[j].packId;
    }
  }

  lemma KeepArrive(s: State, pid: nat, op: Operation)
    requires Inv(s) && Enabled(s, Arrive(pid, op))
    ensures Inv(Next(s, Arrive(pid, op)))
  {
    StepOutside(s, pid, Process(op, Starting, None, None, None, 0));
  }

  lemma KeepAdmit(s: State, pid: nat)
    requires Inv(s) && Enabled(s, Admit(pid))
    ensures Inv(Next(s, Admit(pid)))
  {
    var m := s.live.value;
    var p := ProcOf(s, pid);
    match p.op
    case Load(_, _) => StepOutside(s, pid, p.(phase := Loading));
    case Remove(_) => StepOutside(s, pid, p.(phase := AwaitingLock));
    case Reload(id) =>
      var i := Find(m.pub.sources, id);
      RowsOfContains(m.pub.sources, m.pub.sources[i].row);
      CapturedOnAdmission(s, i);
      StepOutside(s, pid, p.(phase := Loading, captured := Some(m.pub.sources[i])));
  }

  lemma KeepLoaderReturns(s: State, pid: nat, cand: Candidate)
    requires Inv(s) && Enabled(s, LoaderReturns(pid, cand))
    ensures Inv(Next(s, LoaderReturns(pid, cand)))
  {
    StepOutside(s, pid, ProcOf(s, pid).(phase := AwaitingLock, loaded := Some(cand)));
  }

  lemma KeepRefuse(s: State, pid: nat)
    requires Inv(s) && Enabled(s, Refuse(pid))
    ensures Inv(Next(s, Refuse(pid)))
  {
    StepOutside(s, pid, ProcOf(s, pid).(phase := Finished(false)));
  }

  lemma KeepPlanLoad(s: State, pid: nat, sourceId: string, gen: string)
    requires Inv(s) && Enabled(s, PlanLoad(pid, sourceId, gen))
    ensures Inv(Next(s, PlanLoad(pid, sourceId, gen)))
  {
    LoadPlanOk(s, pid, sourceId, gen);
    StepLock(s, pid, LoadPlan(s, pid, sourceId, gen), {sourceId, gen});
  }

  lemma KeepPlanReload(s: State, pid: nat, gen: string)
    requires Inv(s) && Enabled(s, PlanReload(pid, gen))
    ensures Inv(Next(s, PlanReload(pid, gen)))
  {
    ReloadPlanOk(s, pid, gen);
    StepLock(s, pid, ReloadPlan(s, pid, gen), {gen});
  }

  lemma KeepPlanRemove(s: State, pid: nat)
    requires Inv(s) && Enabled(s, PlanRemove(pid))
    ensures Inv(Next(s, PlanRemove(pid)))
  {
    RemovePlanOk(s, pid);
    StepLock(s, pid, RemovePlan(s, pid), {});
  }

  lemma KeepAbandon(s: State, pid: nat)
    requires Inv(s) && Enabled(s, Abandon(pid))
    ensures Inv(Next(s, Abandon(pid)))
  {
    StepGiveUp(s, pid, s.disk);
  }

  lemma KeepMakeStaging(s: State, pid: nat)
    requires Inv(s) && Enabled(s, MakeStaging(pid))
    ensures Inv(Next(s, MakeStaging(pid)))
  {
    var p := ProcOf(s, pid);
    var gen := p.plan.value.created.value.gen;
    assert FilesOf(p.loaded.value)[..0] == [];
    StepInside(s, pid, s.disk.(staging := s.disk.staging[gen := []]), s.made, Staging(0));
  }

  /** One file more: the staged prefix grows by one. */
  lemma WriteFileStages(d: Disk, made: map<string, Candidate>, p: Process)
    requires HasFreshPlan(p) && p.phase.Staging? && StagedOk(d, made, p)
    requires p.phase.written < |FilesOf(p.loaded.value)|
    ensures var file := FilesOf(p.loaded.value)[p.phase.written];
            StagedOk(AddStagingFile(d, p.plan.value.created.value.gen, file), made,
                     p.(phase := Staging(p.phase.written + 1)))
  {
    var files := FilesOf(p.loaded.value);
    var n := p.phase.written;
    assert files[..n] + [files[n]] == files[..n + 1];
  }

  lemma WriteFileEffect(s: State, pid: nat)
    requires Enabled(s, WriteFile(pid))
    ensures var p := ProcOf(s, pid);
            var file := FilesOf(p.loaded.value)[p.phase.written];
            Next(s, WriteFile(pid))
            == Go(s, pid, Staging(p.phase.written + 1))
               .(disk := AddStagingFile(s.disk, p.plan.value.created.value.gen, file), made := s.made)
  {
  }

  lemma KeepWriteFile(s: State, pid: nat)
    requires Inv(s) && Enabled(s, WriteFile(pid))
    ensures Inv(Next(s, WriteFile(pid)))
  {
    var p := ProcOf(s, pid);
    WriteFileEffect(s, pid);
    WriteFileStages(s.disk, s.made, p);
    var file := FilesOf(p.loaded.value)[p.phase.written];
    StepInside(s, pid, AddStagingFile(s.disk, p.plan.value.created.value.gen, file), s.made,
               Staging(p.phase.written + 1));
  }

  lemma KeepStagingFails(s: State, pid: nat)
    requires Inv(s) && Enabled(s, StagingFails(pid))
    ensures Inv(Next(s, StagingFails(pid)))
  {
    StepInside(s, pid, s.disk, s.made, UndoStaging);
  }

  /** No row of the index names the generation being created. */
  lemma CreatedIsUnnamed(s: State, pid: nat)
    requires Inv(s) && s.live.Some? && s.live.value.holder == Some(pid) && HasFreshPlan(ProcOf(s, pid))
    requires ProcOf(s, pid).phase != Indexed && ProcOf(s, pid).phase != Committed
    ensures var gen := ProcOf(s, pid).plan.value.created.value.gen;
            && gen in s.minted
            && forall r :: r in IndexRows(s.disk) ==> r.gen != gen
  {
    var m := s.live.value;
    var gen := ProcOf(s, pid).plan.value.created.value.gen;
    assert HolderOk(s.embedded, s.minted, m.pub, ProcOf(s, pid));
    var rows := RowsOf(m.pub.sources);
    assert IndexRows(s.disk) == RereadRows(rows);
    forall r | r in IndexRows(s.disk)
      ensures r.gen != gen
    {
      RereadContains(rows, r);
    }
  }

  /** A new directory disturbs no generation the index names. */
  lemma CreationKeepsDisk(minted: set<string>, made: map<string, Candidate>, rows: seq<Row>, packs: map<Key, Dir>,
                          key: Key, c: Candidate, dir: Dir)
    requires DiskOk(minted, made, rows, packs) && key.gen in minted
    requires forall r :: r in rows ==> r.gen != key.gen
    ensures DiskOk(minted, made[key.gen := c], rows, packs[key := dir])
  {
    var made' := made[key.gen := c];
    var packs' := packs[key := dir];
    forall r | r in rows && r.gen in made'
      ensures Backed(packs', made', r)
    {
      assert Backed(packs, made, r);
    }
  }

  /** The rename puts the complete directory in place. */
  lemma RenameStages(d: Disk, made: map<string, Candidate>, p: Process)
    requires HasFreshPlan(p) && p.phase.Staging? && StagedOk(d, made, p)
    requires p.phase.written == |FilesOf(p.loaded.value)|
    ensures var key := p.plan.value.created.value;
            StagedOk(RenameGeneration(d, key), made[key.gen := p.loaded.value], p.(phase := Finalized))
  {
    var files := FilesOf(p.loaded.value);
    assert files[..|files|] == files;
  }

  lemma KeepRename(s: State, pid: nat)
    requires Inv(s) && Enabled(s, Rename(pid))
    ensures Inv(Next(s, Rename(pid)))
  {
    var p := ProcOf(s, pid);
    var key := p.plan.value.created.value;
    assert s.live.value.holder == Some(pid);
    CreatedIsUnnamed(s, pid);
    CreationKeepsDisk(s.minted, s.made, IndexRows(s.disk), s.disk.packs, key, p.loaded.value,
                      s.disk.staging[key.gen]);
    RenameStages(s.disk, s.made, p);
    StepInside(s, pid, RenameGeneration(s.disk, key), s.made[key.gen := p.loaded.value], Finalized);
  }

  lemma KeepIndexWriteFails(s: State, pid: nat)
    requires Inv(s) && Enabled(s, IndexWriteFails(pid))
    ensures Inv(Next(s, IndexWriteFails(pid)))
  {
    StepInside(s, pid, s.disk, s.made, UndoGeneration);
  }

  lemma KeepReplaceIndex(s: State, pid: nat)
    requires Inv(s) && Enabled(s, ReplaceIndex(pid))
    ensures Inv(Next(s, ReplaceIndex(pid)))
  {
    StepIndex(s, pid);
  }

  lemma KeepPublish(s: State, pid: nat)
    requires Inv(s) && Enabled(s, Publish(pid))
    ensures Inv(Next(s, Publish(pid)))
  {
    StepPublish(s, pid);
  }

  lemma KeepUnlock(s: State, pid: nat)
    requires Inv(s) && Enabled(s, Unlock(pid))
    ensures Inv(Next(s, Unlock(pid)))
  {
    var m := s.live.value;
    var p := ProcOf(s, pid);
    assert m.holder == Some(pid);
    assert HolderOk(s.embedded, s.minted, m.pub, p);
    assert ProcOk(s.minted, IndexRows(s.disk), m.pub.sources, Reserved(m), p);
    if !p.op.Load? { RereadKeepsNames(RowsOf(m.pub.sources), p.plan.value.stale.value); }
    StepLeave(s, pid, s.disk, p.(phase := if p.op.Load? then Finished(true) else Cleaning));
  }

  lemma KeepDropStaging(s: State, pid: nat, left: Option<Dir>)
    requires Inv(s) && Enabled(s, DropStaging(pid, left))
    ensures Inv(Next(s, DropStaging(pid, left)))
  {
    StepGiveUp(s, pid, RemoveStaging(s.disk, ProcOf(s, pid).plan.value.created.value.gen, left));
  }

  lemma KeepDropGeneration(s: State, pid: nat, left: Option<Dir>)
    requires Inv(s) && Enabled(s, DropGeneration(pid, left))
    ensures Inv(Next(s, DropGeneration(pid, left)))
  {
    var key := ProcOf(s, pid).plan.value.created.value;
    assert s.live.value.holder == Some(pid);
    CreatedIsUnnamed(s, pid);
    assert !Named(IndexRows(s.disk), key);
    RemovalKeepsDisk(s, key, left);
    StepGiveUp(s, pid, RemoveGeneration(s.disk, key, left));
  }

  lemma KeepClean(s: State, pid: nat, left: Option<Dir>)
    requires Inv(s) && Enabled(s, Clean(pid, left))
    ensures Inv(Next(s, Clean(pid, left)))
  {
    StepClean(s, pid, left);
  }

  lemma KeepCrash(s: State)
    requires Inv(s) && Enabled(s, Crash)
    ensures Inv(Next(s, Crash))
  {
  }

  lemma KeepRestart(s: State, deps: set<string>)
    requires Inv(s) && Enabled(s, Restart(deps))
    ensures Inv(Next(s, Restart(deps)))
  {
    var m := Next(s, Restart(deps)).live.value;
    if m.pub.writable {
      assert RowsOf(m.pub.sources) == IndexRows(s.disk);
      assert RereadRows(RowsOf(DueSources(m))) == IndexRows(s.disk);
    }
  }

  lemma OutsideStepKeepsInvariant(s: State, e: Event)
    requires Inv(s) && Enabled(s, e)
    requires e.Arrive? || e.Admit? || e.LoaderReturns? || e.Refuse?
    ensures Inv(Next(s, e))
  {
    match e
    case Arrive(pid, op) => KeepArrive(s, pid, op);
    case Admit(pid) => KeepAdmit(s, pid);
    case LoaderReturns(pid, cand) => KeepLoaderReturns(s, pid, cand);
    case Refuse(pid) => KeepRefuse(s, pid);
  }

  lemma PlanningStepKeepsInvariant(s: State, e: Event)
    requires Inv(s) && Enabled(s, e)
    requires e.PlanLoad? || e.PlanReload? || e.PlanRemove? || e.Abandon?
    ensures Inv(Next(s, e))
  {
    match e
    case PlanLoad(pid, sourceId, gen) => KeepPlanLoad(s, pid, sourceId, gen);
    case PlanReload(pid, gen) => KeepPlanReload(s, pid, gen);
    case PlanRemove(pid) => KeepPlanRemove(s, pid);
    case Abandon(pid) => KeepAbandon(s, pid);
  }

  lemma StagingStepKeepsInvariant(s: State, e: Event)
    requires Inv(s) && Enabled(s, e)
    requires e.MakeStaging? || e.WriteFile? || e.StagingFails? || e.Rename? || e.IndexWriteFails?
    ensures Inv(Next(s, e))
  {
    match e
    case MakeStaging(pid) => KeepMakeStaging(s, pid);
    case WriteFile(pid) => KeepWriteFile(s, pid);
    case StagingFails(pid) => KeepStagingFails(s, pid);
    case Rename(pid) => KeepRename(s, pid);
    case IndexWriteFails(pid) => KeepIndexWriteFails(s, pid);
  }

  lemma CommitStepKeepsInvariant(s: State, e: Event)
    requires Inv(s) && Enabled(s, e)
    requires e.ReplaceIndex? || e.Publish? || e.Unlock?
    ensures Inv(Next(s, e))
  {
    match e
    case ReplaceIndex(pid) => KeepReplaceIndex(s, pid);
    case Publish(pid) => KeepPublish(s, pid);
    case Unlock(pid) => KeepUnlock(s, pid);
  }

  lemma CleanupStepKeepsInvariant(s: State, e: Event)
    requires Inv(s) && Enabled(s, e)
    requires e.DropStaging? || e.DropGeneration? || e.Clean? || e.Crash? || e.Restart?
    ensures Inv(Next(s, e))
  {
    match e
    case DropStaging(pid, left) => KeepDropStaging(s, pid, left);
    case DropGeneration(pid, left) => KeepDropGeneration(s, pid, left);
    case Clean(pid, left) => KeepClean(s, pid, left);
    case Crash => KeepCrash(s);
    case Restart(deps) => KeepRestart(s, deps);
  }

  lemma StepKeepsInvariant(s: State, e: Event)
    requires Inv(s) && Enabled(s, e)
    ensures Inv(Next(s, e))
  {
    if e.Arrive? || e.Admit? || e.LoaderReturns? || e.Refuse? {
      OutsideStepKeepsInvariant(s, e);
    } else if e.PlanLoad? || e.PlanReload? || e.PlanRemove? || e.Abandon? {
      PlanningStepKeepsInvariant(s, e);
    } else if e.MakeStaging? || e.WriteFile? || e.StagingFails? || e.Rename? || e.IndexWriteFails? {
      StagingStepKeepsInvariant(s, e);
    } else if e.ReplaceIndex? || e.Publish? || e.Unlock? {
      CommitStepKeepsInvariant(s, e);
    } else {
      CleanupStepKeepsInvariant(s, e);
    }
  }

  // ---- runs ----------------------------------------------------------------

  /** A machine that is switched off, with any index a JSON decoder can return and any directories on its disk. */
  predicate Init(s: State) {
    && s.live.None?
    && s.made == map[]
    && RowsMinted(s.minted, IndexRows(s.disk))
    && RereadRows(IndexRows(s.disk)) == IndexRows(s.disk)
  }

  predicate Runs(s: State, es: seq<Event>)
    decreases |es|
  {
    es == [] || (Enabled(s, es[0]) && Runs(Next(s, es[0]), es[1..]))
  }

  function After(s: State, es: seq<Event>): State
    requires Runs(s, es)
    decreases |es|
  {
    if es == [] then s else After(Next(s, es[0]), es[1..])
  }

  lemma {:induction false} RunKeepsInvariant(s: State, es: seq<Event>)
    requires Inv(s) && Runs(s, es)
    ensures Inv(After(s, es))
    decreases |es|
  {
    if es != [] {
      StepKeepsInvariant(s, es[0]);
      RunKeepsInvariant(Next(s, es[0]), es[1..]);
    }
  }

  // ---- crash-atomic commits ------------------------------------------------

  /** No step of any run touches a generation that the on-disk index names. */
  lemma NoStepDeletesNamedGeneration(s: State, es: seq<Event>, e: Event, row: Row)
    requires Init(s) && Runs(s, es) && Enabled(After(s, es), e)
    requires row in IndexRows(After(s, es).disk) && KeyOf(row) in After(s, es).disk.packs
    ensures var now := After(s, es).disk.packs;
            var next := Next(After(s, es), e).disk.packs;
            KeyOf(row) in next && next[KeyOf(row)] == now[KeyOf(row)]
  {
    RunKeepsInvariant(s, es);
    NamedGenerationSurvives(After(s, es), e, row);
  }

  lemma NamedGenerationSurvives(s: State, e: Event, row: Row)
    requires Inv(s) && Enabled(s, e)
    requires row in IndexRows(s.disk) && KeyOf(row) in s.disk.packs
    ensures KeyOf(row) in Next(s, e).disk.packs && Next(s, e).disk.packs[KeyOf(row)] == s.disk.packs[KeyOf(row)]
  {
    if e.Rename? {
      RenameSparesNamed(s, e.pid, row);
    } else if e.DropGeneration? {
      DropSparesNamed(s, e.pid, e.left, row);
    } else if e.Clean? {
      CleanSparesNamed(s, e.pid, e.left, row);
    } else {
      OtherStepsKeepPacks(s, e);
    }
  }

  lemma RenameSparesNamed(s: State, pid: nat, row: Row)
    requires Inv(s) && Enabled(s, Rename(pid)) && row in IndexRows(s.disk) && KeyOf(row) in s.disk.packs
    ensures var next := Next(s, Rename(pid)).disk.packs;
            KeyOf(row) in next && next[KeyOf(row)] == s.disk.packs[KeyOf(row)]
  {
    assert s.live.value.holder == Some(pid);
    CreatedIsUnnamed(s, pid);
  }

  lemma DropSparesNamed(s: State, pid: nat, left: Option<Dir>, row: Row)
    requires Inv(s) && Enabled(s, DropGeneration(pid, left)) && row in IndexRows(s.disk) && KeyOf(row) in s.disk.packs
    ensures var next := Next(s, DropGeneration(pid, left)).disk.packs;
            KeyOf(row) in next && next[KeyOf(row)] == s.disk.packs[KeyOf(row)]
  {
    assert s.live.value.holder == Some(pid);
    CreatedIsUnnamed(s, pid);
  }

  lemma CleanSparesNamed(s: State, pid: nat, left: Option<Dir>, row: Row)
    requires Inv(s) && Enabled(s, Clean(pid, left)) && row in IndexRows(s.disk) && KeyOf(row) in s.disk.packs
    ensures var next := Next(s, Clean(pid, left)).disk.packs;
            KeyOf(row) in next && next[KeyOf(row)] == s.disk.packs[KeyOf(row)]
  {
    var m := s.live.value;
    assert ProcOk(s.minted, IndexRows(s.disk), m.pub.sources, Reserved(m), ProcOf(s, pid));
    assert !Named(IndexRows(s.disk), ProcOf(s, pid).plan.value.stale.value);
  }

  lemma OtherStepsKeepPacks(s: State, e: Event)
    requires Enabled(s, e) && !e.Rename? && !e.DropGeneration? && !e.Clean?
    ensures Next(s, e).disk.packs == s.disk.packs
  {
  }

  predicate Provenance(initial: seq<Row>, s: State) {
    forall r :: r in IndexRows(s.disk) ==> r in initial || r.gen in s.made
  }

  lemma {:induction false} RunKeepsProvenance(initial: seq<Row>, s: State, es: seq<Event>)
    requires Inv(s) && Runs(s, es) && Provenance(initial, s)
    ensures Provenance(initial, After(s, es))
    decreases |es|
  {
    if es != [] {
      StepKeepsInvariant(s, es[0]);
      StepKeepsProvenance(initial, s, es[0]);
      RunKeepsProvenance(initial, Next(s, es[0]), es[1..]);
    }
  }

  lemma StepKeepsProvenance(initial: seq<Row>, s: State, e: Event)
    requires Inv(s) && Enabled(s, e) && Provenance(initial, s)
    ensures Provenance(initial, Next(s, e))
  {
    if e.ReplaceIndex? {
      forall row | row in RereadRows(RowsOf(ProcOf(s, e.pid).plan.value.after))
        ensures row in initial || row.gen in s.made
      {
        PlannedRowProvenance(initial, s, e.pid, row);
      }
    } else {
      OtherStepsKeepIndex(s, e);
    }
  }

  lemma OtherStepsKeepIndex(s: State, e: Event)
    requires Enabled(s, e) && !e.ReplaceIndex?
    ensures Next(s, e).disk.index == s.disk.index && forall g :: g in s.made ==> g in Next(s, e).made
  {
  }

  lemma PlannedRowProvenance(initial: seq<Row>, s: State, pid: nat, row: Row)
    requires Inv(s) && Enabled(s, ReplaceIndex(pid)) && Provenance(initial, s)
    requires row in RereadRows(RowsOf(ProcOf(s, pid).plan.value.after))
    ensures row in initial || row.gen in s.made
  {
    var m := s.live.value;
    var after := ProcOf(s, pid).plan.value.after;
    assert m.holder == Some(pid) && HolderOk(s.embedded, s.minted, m.pub, ProcOf(s, pid));
    assert IndexRows(s.disk) == RereadRows(RowsOf(m.pub.sources));
    RereadContains(RowsOf(after), row);
    var raw :| raw in RowsOf(after) && Reread(raw) == row;
    RowsOfContains(after, raw);
    var r :| r in after && r.row == raw;
    if r in m.pub.sources {
      RowsOfContains(m.pub.sources, raw);
      RereadContains(RowsOf(m.pub.sources), row);
    }
  }

  /**
   * At every moment of every run, each index row is one the disk started with,
   * or names a generation that is on disk in full and matches the row.
   */
  lemma EveryWrittenRowIsBacked(s: State, es: seq<Event>, row: Row)
    requires Init(s) && Runs(s, es) && row in IndexRows(After(s, es).disk)
    ensures row in IndexRows(s.disk) || Backed(After(s, es).disk.packs, After(s, es).made, row)
  {
    RunKeepsInvariant(s, es);
    RunKeepsProvenance(IndexRows(s.disk), s, es);
  }

  /** The lock holder has replaced the index by `rows` and not yet published them. */
  predicate JustCommitting(m: Memory, rows: seq<Row>) {
    && m.holder.Some? && m.holder.value in m.procs
    && m.procs[m.holder.value].phase == Indexed && m.procs[m.holder.value].plan.Some?
    && RowsOf(m.procs[m.holder.value].plan.value.after) == rows
  }

  predicate FitsLimit(d: Disk) {
    d.index.Some? ==> d.index.value.IndexFile? && d.index.value.size <= MAX_INDEX_BYTES
  }

  predicate LocatorsAreUtf8(rows: seq<Row>) {
    forall i :: 0 <= i < |rows| ==> IsUtf8(rows[i].locator)
  }

  /**
   * A crash at any moment followed by a restart: the manager comes back with the
   * list published at the crash or the one the lock holder had just committed,
   * nothing between, exactly when the index fits the size limit and every locator
   * on it is well-formed UTF-8. Otherwise it comes back read-only and empty, or
   * with that list, its locators repaired.
   */
  lemma RestartReadsOldOrNew(s: State, es: seq<Event>, deps: set<string>)
    requires Init(s) && Runs(s, es)
    requires After(s, es).live.Some? && After(s, es).live.value.pub.writable
    ensures var t := After(s, es);
            var m := t.live.value;
            var back := Recover(t.disk, t.embedded, deps);
            var due := RowsOf(DueSources(m));
            && (due == RowsOf(m.pub.sources) || JustCommitting(m, due))
            && (back.writable && RowsOf(back.sources) == due <==> FitsLimit(t.disk) && LocatorsAreUtf8(due))
            && (if back.writable then RowsOf(back.sources) == RereadRows(due) else back.sources == [])
  {
    RunKeepsInvariant(s, es);
    var t := After(s, es);
    var m := t.live.value;
    var due := RowsOf(DueSources(m));
    assert IndexRows(t.disk) == RereadRows(due);
    DueRowsAreValid(t);
    RereadKeepsExactlyUtf8(due);
    RestartReadsIndex(t.disk, t.embedded, deps, due);
  }

  lemma DueRowsAreValid(t: State)
    requires Inv(t) && t.live.Some? && t.live.value.pub.writable
    ensures ValidRows(RowsOf(DueSources(t.live.value)))
  {
    var m := t.live.value;
    if m.holder.Some? { assert HolderOk(t.embedded, t.minted, m.pub, m.procs[m.holder.value]); }
  }

  lemma RestartReadsIndex(d: Disk, embedded: set<string>, deps: set<string>, due: seq<Row>)
    requires WrittenForm(d) && IndexRows(d) == RereadRows(due) && ValidRows(due)
    ensures var back := Recover(d, embedded, deps);
            && (back.writable ==> FitsLimit(d))
            && (FitsLimit(d) && RereadRows(due) == due ==> back.writable)
            && (if back.writable then RowsOf(back.sources) == RereadRows(due) else back.sources == [])
  {
    if d.index.Some? { assert d.index.value.rows == RereadRows(due); }
  }

  /** A restart serves every source the manager committed whose policy still allows it. */
  lemma RestartServesCommittedSources(s: State, es: seq<Event>, deps: set<string>, row: Row)
    requires Init(s) && Runs(s, es)
    requires var t := After(s, es);
             && row in IndexRows(t.disk) && row !in IndexRows(s.disk)
             && row.packId !in t.embedded && row.packId in deps
    ensures var t := After(s, es);
            && row.gen in t.made
            && RecoverRecord(t.disk, t.embedded, deps, row) == Record(row, Ready, Some(t.made[row.gen]))
  {
    EveryWrittenRowIsBacked(s, es, row);
    var t := After(s, es);
    FullGenerationReadsBack(t.made[row.gen], row.kind);
  }

  // ---- linearisable publication --------------------------------------------

  /**
   * With the write lock free, the on-disk index is the projection of the published
   * sources, up to the repair of locators that are not well-formed UTF-8.
   */
  lemma QuiescentIndexIsPublishedList(s: State, es: seq<Event>)
    requires Init(s) && Runs(s, es)
    requires Free(After(s, es)) && After(s, es).live.value.pub.writable
    ensures var t := After(s, es);
            var rows := RowsOf(t.live.value.pub.sources);
            && IndexRows(t.disk) == RereadRows(rows)
            && (IndexRows(t.disk) == rows <==> LocatorsAreUtf8(rows))
  {
    RunKeepsInvariant(s, es);
    RereadKeepsExactlyUtf8(RowsOf(After(s, es).live.value.pub.sources));
  }

  /** The published list changes by one operation's commit at a time, one revision each. */
  lemma PublicationIsOneAtomicChange(s: State, es: seq<Event>, e: Event)
    requires Init(s) && Runs(s, es)
    requires var t := After(s, es);
             t.live.Some? && Enabled(t, e) && Next(t, e).live.Some?
             && Next(t, e).live.value.pub != t.live.value.pub
    ensures var m := After(s, es).live.value;
            var m' := Next(After(s, es), e).live.value;
            && e.Publish?
            && m'.pub.revision == m.pub.revision + 1
            && Commits(m.procs[e.pid], m.pub.sources, m'.pub.sources)
            && m.procs[e.pid].commits == 0 && m'.procs[e.pid].commits == 1
  {
    RunKeepsInvariant(s, es);
    var t := After(s, es);
    var m := t.live.value;
    if e.Publish? {
      assert m.holder == Some(e.pid) && HolderOk(t.embedded, t.minted, m.pub, m.procs[e.pid]);
      assert ProcOk(t.minted, IndexRows(t.disk), m.pub.sources, Reserved(m), m.procs[e.pid]);
    }
  }

  /** The process whose step an event is. */
  function Actor(e: Event): Option<nat> {
    if e.Crash? || e.Restart? then None else Some(e.pid)
  }

  lemma OnlyReplaceChangesIndex(s: State, e: Event)
    requires Enabled(s, e) && Next(s, e).disk.index != s.disk.index
    ensures e.ReplaceIndex?
  {
  }

  lemma OnlyPublishLeavesIndexed(s: State, f: Event, pid: nat)
    requires InPhase(s, pid, Indexed) && Enabled(s, f) && Actor(f) == Some(pid)
    ensures f == Publish(pid)
  {
  }

  /** Once the index is replaced the operation can only publish: it cannot fail any more. */
  lemma IndexChangeIsFollowedByPublication(s: State, e: Event, f: Event)
    requires Inv(s) && Enabled(s, e) && Next(s, e).disk.index != s.disk.index
    requires Enabled(Next(s, e), f) && Actor(f) == Actor(e)
    ensures e.ReplaceIndex? && f == Publish(e.pid)
  {
    OnlyReplaceChangesIndex(s, e);
    assert InPhase(Next(s, e), e.pid, Indexed);
    OnlyPublishLeavesIndexed(Next(s, e), f, e.pid);
  }

  /** An operation that succeeded committed exactly once; one that failed never did. */
  lemma SuccessMeansOneCommit(s: State, es: seq<Event>, pid: nat, ok: bool)
    requires Init(s) && Runs(s, es)
    requires InPhase(After(s, es), pid, Finished(ok))
    ensures ProcOf(After(s, es), pid).commits == if ok then 1 else 0
  {
    RunKeepsInvariant(s, es);
    var t := After(s, es);
    var m := t.live.value;
    assert ProcOk(t.minted, IndexRows(t.disk), m.pub.sources, Reserved(m), m.procs[pid]);
  }

  /** No pack id is served twice, neither by two sources nor by a source and an embedded pack. */
  lemma ServedPacksAreDistinct(s: State, es: seq<Event>)
    requires Init(s) && Runs(s, es)
    requires After(s, es).live.Some?
    ensures var t := After(s, es);
            var sources := t.live.value.pub.sources;
            forall i :: 0 <= i < |sources| && sources[i].status.Ready? ==>
              && sources[i].pack.Some? && sources[i].pack.value.packId == sources[i].row.packId
              && sources[i].row.packId !in t.embedded
              && forall j :: 0 <= j < i ==> sources[j].row.packId != sources[i].row.packId
  {
    RunKeepsInvariant(s, es);
    var t := After(s, es);
    var sources := t.live.value.pub.sources;
    forall i, j | 0 <= j < i < |sources|
      ensures sources[j].row.packId != sources[i].row.packId
    {
      assert RowsOf(sources)[j].packId != RowsOf(sources)[i].packId;
    }
  }
}
