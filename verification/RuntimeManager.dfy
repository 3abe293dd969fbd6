/**
 * The runtime source manager as a state machine. Loads, reloads and removals
 * run concurrently; each is a process moving through the phases of the source,
 * one file-system or memory effect per step, and a crash may fall between any
 * two steps. What happens between taking the write lock and staging touches
 * only memory that the lock protects, so it is one step.
 */
module RuntimeManager {
  import opened Prelude
  import opened Locator
  import opened RuntimeStore

  datatype ErrorCode =
    | PackIdConflict | SourceUnreadable | PackIdentityChanged | SignerChanged | DependencyUnavailable

  datatype Status = Ready | Unavailable(code: ErrorCode)

  datatype Record = Record(row: Row, status: Status, pack: Option<Candidate>)

  datatype Published = Published(sources: seq<Record>, revision: nat, writable: bool)

  datatype Operation =
    | Load(kind: Kind, locator: string)
    | Reload(sourceId: string)
    | Remove(sourceId: string)

  /** What the lock holder is about to commit, and the generations it creates and supersedes. */
  datatype Plan = Plan(after: seq<Record>, created: Option<Key>, stale: Option<Key>)

  datatype Phase =
    | Starting | Loading | AwaitingLock
    | Planned | Staging(written: nat) | Finalized | Indexed | Committed
    | UndoStaging | UndoGeneration
    | Cleaning | Finished(ok: bool)

  datatype Process = Process(op: Operation, phase: Phase, captured: Option<Record>,
                             loaded: Option<Candidate>, plan: Option<Plan>, commits: nat)

  datatype Memory = Memory(pub: Published, holder: Option<nat>, procs: map<nat, Process>)

  /** `minted` holds every identifier in use or ever used; `made` the finalised generations. */
  datatype State = State(disk: Disk, embedded: set<string>, minted: set<string>,
                         made: map<string, Candidate>, live: Option<Memory>)

  function RowsOf(rs: seq<Record>): (rows: seq<Row>)
    ensures |rows| == |rs|
  {
    seq(|rs|, i requires 0 <= i < |rs| => rs[i].row)
  }

  /** The first record with the given id, or the length of the list. */
  function Find(rs: seq<Record>, id: string): (i: nat)
    ensures i <= |rs|
    ensures i < |rs| ==> rs[i].row.sourceId == id
    ensures forall j :: 0 <= j < i ==> rs[j].row.sourceId != id
  {
    if rs == [] then 0 else if rs[0].row.sourceId == id then 0 else 1 + Find(rs[1..], id)
  }

  // ---- recovery ------------------------------------------------------------

  function RecoverRecord(d: Disk, embedded: set<string>, deps: set<string>, row: Row): (r: Record)
    ensures r.row == row
    ensures r.status.Ready? ==> row.packId !in embedded && r.pack.Some? && r.pack.value.packId == row.packId
  {
    if row.packId in embedded then Record(row, Unavailable(PackIdConflict), None)
    else if KeyOf(row) !in d.packs then Record(row, Unavailable(SourceUnreadable), None)
    else match ReadCandidate(d.packs[KeyOf(row)], row.kind)
      case None => Record(row, Unavailable(SourceUnreadable), None)
      case Some(c) =>
        if c.packId != row.packId || c.packVersion != row.packVersion
        then Record(row, Unavailable(PackIdentityChanged), None)
        else if c.signer != row.signer then Record(row, Unavailable(SignerChanged), None)
        else if row.packId !in deps then Record(row, Unavailable(DependencyUnavailable), None)
        else Record(row, Ready, Some(c))
  }

  /** The state a manager starts from: an unreadable index leaves it empty and read-only. */
  function Recover(d: Disk, embedded: set<string>, deps: set<string>): Published {
    match ReadIndexResult(d.index)
    case Err(_) => Published([], 1, false)
    case Ok(None) => Published([], 1, true)
    case Ok(Some(rows)) =>
      Published(seq(|rows|, i requires 0 <= i < |rows| => RecoverRecord(d, embedded, deps, rows[i])), 1, true)
  }

  // ---- planning under the write lock --------------------------------------

  predicate CandidateOk(c: Candidate, kind: Kind) {
    && IsPackId(c.packId) && IsPackVersion(c.packVersion) && IsLowerHexOfLength(c.signer, 64)
    && c.zipped == NeedsAsset(kind)
  }

  predicate Mintable(s: State, id: string) {
    IsLowerHexOfLength(id, 32) && id !in s.minted
  }

  function NewRecord(op: Operation, c: Candidate, sourceId: string, gen: string): Record
    requires op.Load?
  {
    Record(Row(sourceId, op.kind, op.locator, c.packId, c.packVersion, c.signer, gen), Ready, Some(c))
  }

  function UpdatedRecord(captured: Record, c: Candidate, gen: string): Record {
    Record(captured.row.(packVersion := c.packVersion, gen := gen), Ready, Some(c))
  }

  predicate MayLoad(s: State, m: Memory, c: Candidate) {
    && m.pub.writable
    && |m.pub.sources| < MAX_SOURCES
    && c.packId !in s.embedded
    && forall i :: 0 <= i < |m.pub.sources| ==> m.pub.sources[i].row.packId != c.packId
  }

  /** The re-check of a reload: the captured record must still be the published one. */
  predicate MayReload(s: State, m: Memory, op: Operation, captured: Record, c: Candidate)
    requires op.Reload?
  {
    var i := Find(m.pub.sources, op.sourceId);
    && m.pub.writable
    && i < |m.pub.sources|
    && m.pub.sources[i].row.gen == captured.row.gen
    && m.pub.sources[i].row.packId == captured.row.packId
    && m.pub.sources[i].row.signer == captured.row.signer
    && m.pub.sources[i].row.locator == captured.row.locator
    && captured.row.packId !in s.embedded
    && c.packId == captured.row.packId
    && c.signer == captured.row.signer
  }

  // ---- steps ---------------------------------------------------------------

  /**
   * The effects of the operations. `StagingFails` stands for a failing write or
   * rename, `IndexWriteFails` for a failing index replacement and for a failing
   * check of the renamed directory: both remove the new generation again.
   */
  datatype Event =
    | Arrive(pid: nat, op: Operation)
    | Admit(pid: nat)
    | LoaderReturns(pid: nat, cand: Candidate)
    | Refuse(pid: nat)
    | PlanLoad(pid: nat, sourceId: string, gen: string)
    | PlanReload(pid: nat, gen: string)
    | PlanRemove(pid: nat)
    | Abandon(pid: nat)
    | MakeStaging(pid: nat)
    | WriteFile(pid: nat)
    | StagingFails(pid: nat)
    | Rename(pid: nat)
    | IndexWriteFails(pid: nat)
    | ReplaceIndex(pid: nat)
    | Publish(pid: nat)
    | Unlock(pid: nat)
    | DropStaging(pid: nat, left: Option<Dir>)
    | DropGeneration(pid: nat, left: Option<Dir>)
    | Clean(pid: nat, left: Option<Dir>)
    | Crash
    | Restart(deps: set<string>)

  predicate InPhase(s: State, pid: nat, phase: Phase) {
    s.live.Some? && pid in s.live.value.procs && s.live.value.procs[pid].phase == phase
  }

  function ProcOf(s: State, pid: nat): Process
    requires s.live.Some? && pid in s.live.value.procs
  {
    s.live.value.procs[pid]
  }

  predicate Free(s: State) { s.live.Some? && s.live.value.holder.None? }

  predicate HasFreshPlan(p: Process) {
    p.plan.Some? && p.plan.value.created.Some? && p.loaded.Some?
  }

  predicate InStaging(s: State, pid: nat) {
    s.live.Some? && pid in s.live.value.procs && ProcOf(s, pid).phase.Staging? && HasFreshPlan(ProcOf(s, pid))
  }

  predicate Enabled(s: State, e: Event) {
    match e
    case Arrive(pid, op) => s.live.Some? && pid !in s.live.value.procs
    case Admit(pid) =>
      && InPhase(s, pid, Starting)
      && var m := s.live.value;
      (match ProcOf(s, pid).op
       case Load(kind, locator) => m.pub.writable && |m.pub.sources| < MAX_SOURCES && IsDurable(kind, locator)
       case Reload(id) => m.pub.writable && Find(m.pub.sources, id) < |m.pub.sources|
       case Remove(_) => true)
    case LoaderReturns(pid, cand) =>
      && InPhase(s, pid, Loading)
      && var p := ProcOf(s, pid);
      && (p.op.Load? ==> CandidateOk(cand, p.op.kind))
      && (p.captured.Some? ==> CandidateOk(cand, p.captured.value.row.kind))
    case Refuse(pid) => InPhase(s, pid, Starting) || InPhase(s, pid, Loading) || InPhase(s, pid, AwaitingLock)
    case PlanLoad(pid, sourceId, gen) =>
      && Free(s) && InPhase(s, pid, AwaitingLock)
      && ProcOf(s, pid).op.Load? && ProcOf(s, pid).loaded.Some?
      && MayLoad(s, s.live.value, ProcOf(s, pid).loaded.value)
      && Mintable(s, sourceId) && Mintable(s, gen) && sourceId != gen
    case PlanReload(pid, gen) =>
      && Free(s) && InPhase(s, pid, AwaitingLock)
      && var p := ProcOf(s, pid);
      && p.op.Reload? && p.loaded.Some? && p.captured.Some?
      && MayReload(s, s.live.value, p.op, p.captured.value, p.loaded.value)
      && Mintable(s, gen)
    case PlanRemove(pid) =>
      && Free(s) && InPhase(s, pid, AwaitingLock) && ProcOf(s, pid).op.Remove?
      && s.live.value.pub.writable
      && Find(s.live.value.pub.sources, ProcOf(s, pid).op.sourceId) < |s.live.value.pub.sources|
    case Abandon(pid) => InPhase(s, pid, Planned)
    case MakeStaging(pid) =>
      && InPhase(s, pid, Planned) && HasFreshPlan(ProcOf(s, pid))
      && ProcOf(s, pid).plan.value.created.value.gen !in s.disk.staging
    case WriteFile(pid) =>
      && InStaging(s, pid)
      && var p := ProcOf(s, pid);
      p.phase.written < |FilesOf(p.loaded.value)| && p.plan.value.created.value.gen in s.disk.staging
    case StagingFails(pid) => InStaging(s, pid)
    case Rename(pid) =>
      && InStaging(s, pid)
      && var p := ProcOf(s, pid);
      && p.phase.written == |FilesOf(p.loaded.value)|
      && p.plan.value.created.value.gen in s.disk.staging
      && p.plan.value.created.value !in s.disk.packs
    case IndexWriteFails(pid) => InPhase(s, pid, Finalized) && HasFreshPlan(ProcOf(s, pid))
    case ReplaceIndex(pid) =>
      && s.live.Some? && pid in s.live.value.procs && ProcOf(s, pid).plan.Some?
      && if ProcOf(s, pid).op.Remove? then ProcOf(s, pid).phase.Planned? else ProcOf(s, pid).phase.Finalized?
    case Publish(pid) => InPhase(s, pid, Indexed) && ProcOf(s, pid).plan.Some?
    case Unlock(pid) => InPhase(s, pid, Committed)
    case DropStaging(pid, _) => InPhase(s, pid, UndoStaging) && HasFreshPlan(ProcOf(s, pid))
    case DropGeneration(pid, _) => InPhase(s, pid, UndoGeneration) && HasFreshPlan(ProcOf(s, pid))
    case Clean(pid, _) =>
      InPhase(s, pid, Cleaning) && ProcOf(s, pid).plan.Some? && ProcOf(s, pid).plan.value.stale.Some?
    case Crash => s.live.Some?
    case Restart(_) => s.live.None?
  }

  function WithProc(m: Memory, pid: nat, p: Process): Memory {
    m.(procs := m.procs[pid := p])
  }

  function Go(s: State, pid: nat, phase: Phase): State
    requires s.live.Some? && pid in s.live.value.procs
  {
    s.(live := Some(WithProc(s.live.value, pid, ProcOf(s, pid).(phase := phase))))
  }

  /** The process moves to `phase` and lets go of the write lock. */
  function Leave(s: State, pid: nat, phase: Phase): State
    requires s.live.Some? && pid in s.live.value.procs
  {
    var t := Go(s, pid, phase);
    t.(live := Some(t.live.value.(holder := None)))
  }

  function TakeLock(s: State, pid: nat, plan: Plan, ids: set<string>): State
    requires s.live.Some? && pid in s.live.value.procs
  {
    var p := ProcOf(s, pid).(phase := Planned, plan := Some(plan));
    s.(live := Some(WithProc(s.live.value, pid, p).(holder := Some(pid))), minted := s.minted + ids)
  }

  function LoadPlan(s: State, pid: nat, sourceId: string, gen: string): Plan
    requires Enabled(s, PlanLoad(pid, sourceId, gen))
  {
    var p := ProcOf(s, pid);
    Plan(s.live.value.pub.sources + [NewRecord(p.op, p.loaded.value, sourceId, gen)],
         Some(Key(p.loaded.value.packId, gen)), None)
  }

  function ReloadPlan(s: State, pid: nat, gen: string): Plan
    requires Enabled(s, PlanReload(pid, gen))
  {
    var p := ProcOf(s, pid);
    var i := Find(s.live.value.pub.sources, p.op.sourceId);
    Plan(s.live.value.pub.sources[i := UpdatedRecord(p.captured.value, p.loaded.value, gen)],
         Some(Key(p.captured.value.row.packId, gen)), Some(KeyOf(p.captured.value.row)))
  }

  function RemovePlan(s: State, pid: nat): Plan
    requires Enabled(s, PlanRemove(pid))
  {
    var sources := s.live.value.pub.sources;
    var i := Find(sources, ProcOf(s, pid).op.sourceId);
    Plan(sources[..i] + sources[i + 1..], None, Some(KeyOf(sources[i].row)))
  }

  function Next(s: State, e: Event): State
    requires Enabled(s, e)
  {
    match e
    case Arrive(pid, op) =>
      s.(live := Some(WithProc(s.live.value, pid, Process(op, Starting, None, None, None, 0))))
    case Admit(pid) =>
      var m := s.live.value;
      var p := ProcOf(s, pid);
      (match p.op
       case Load(_, _) => Go(s, pid, Loading)
       case Reload(id) =>
         s.(live := Some(WithProc(m, pid, p.(phase := Loading,
                                             captured := Some(m.pub.sources[Find(m.pub.sources, id)])))))
       case Remove(_) => Go(s, pid, AwaitingLock))
    case LoaderReturns(pid, cand) =>
      s.(live := Some(WithProc(s.live.value, pid, ProcOf(s, pid).(phase := AwaitingLock, loaded := Some(cand)))))
    case Refuse(pid) => Go(s, pid, Finished(false))
    case PlanLoad(pid, sourceId, gen) => TakeLock(s, pid, LoadPlan(s, pid, sourceId, gen), {sourceId, gen})
    case PlanReload(pid, gen) => TakeLock(s, pid, ReloadPlan(s, pid, gen), {gen})
    case PlanRemove(pid) => TakeLock(s, pid, RemovePlan(s, pid), {})
    case Abandon(pid) => Leave(s, pid, Finished(false))
    case MakeStaging(pid) =>
      var gen := ProcOf(s, pid).plan.value.created.value.gen;
      Go(s, pid, Staging(0)).(disk := s.disk.(staging := s.disk.staging[gen := []]))
    case WriteFile(pid) =>
      var p := ProcOf(s, pid);
      var file := FilesOf(p.loaded.value)[p.phase.written];
      Go(s, pid, Staging(p.phase.written + 1)).(disk := AddStagingFile(s.disk, p.plan.value.created.value.gen, file))
    case StagingFails(pid) => Go(s, pid, UndoStaging)
    case Rename(pid) =>
      var p := ProcOf(s, pid);
      Go(s, pid, Finalized).(disk := RenameGeneration(s.disk, p.plan.value.created.value),
                             made := s.made[p.plan.value.created.value.gen := p.loaded.value])
    case IndexWriteFails(pid) => Go(s, pid, UndoGeneration)
    case ReplaceIndex(pid) =>
      Go(s, pid, Indexed).(disk := s.disk.(index := Some(WrittenIndex(RowsOf(ProcOf(s, pid).plan.value.after)))))
    case Publish(pid) =>
      var m := s.live.value;
      var p := ProcOf(s, pid);
      s.(live := Some(WithProc(m, pid, p.(phase := Committed, commits := p.commits + 1))
                      .(pub := Published(p.plan.value.after, m.pub.revision + 1, true))))
    case Unlock(pid) => Leave(s, pid, if ProcOf(s, pid).op.Load? then Finished(true) else Cleaning)
    case DropStaging(pid, left) =>
      Leave(s, pid, Finished(false)).(disk := RemoveStaging(s.disk, ProcOf(s, pid).plan.value.created.value.gen, left))
    case DropGeneration(pid, left) =>
      Leave(s, pid, Finished(false)).(disk := RemoveGeneration(s.disk, ProcOf(s, pid).plan.value.created.value, left))
    case Clean(pid, left) =>
      Go(s, pid, Finished(true)).(disk := RemoveGeneration(s.disk, ProcOf(s, pid).plan.value.stale.value, left))
    case Crash => s.(live := None)
    case Restart(deps) => s.(live := Some(Memory(Recover(s.disk, s.embedded, deps), None, map[])))
  }
}
