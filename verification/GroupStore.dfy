/**
 * The task-group store and its background saver as one machine. `mu` makes every
 * mutation one step; `writeMu` is the `saving` field; the worker's program counter
 * follows saveLoop and a save is lock, snapshot, write, record.
 */
module GroupStore {
  import opened Prelude
  import opened Rpc

  type Groups = map<string, DownloadGroup>

  const DEFAULT_PATH := "~/.goaria/download_groups.json"

  function EffectivePath(path: string): string { if path == "" then DEFAULT_PATH else path }

  /** No file means no groups. */
  function FileAt(disk: map<string, Groups>, path: string): Groups {
    if EffectivePath(path) in disk then disk[EffectivePath(path)] else map[]
  }

  function WriteFile(disk: map<string, Groups>, path: string, groups: Groups): map<string, Groups> {
    if groups == map[] then disk - {EffectivePath(path)} else disk[EffectivePath(path) := groups]
  }

  datatype Who = Worker | Flusher(id: nat)

  datatype Pc =
    | NotStarted | Waiting | Coalescing | Draining | CheckingStop
    | Comparing | Compared(loaded: nat) | Wanting | Saving | Finished

  /** Who holds writeMu inside performSave, and how far it got. */
  datatype Save =
    | NoSave
    | Locked(who: Who)
    | Snapped(who: Who, trigger: nat, snapshot: Groups)
    | Written(who: Who, trigger: nat)

  /**
   * `mapAt[t]` is the map as of trigger `t`, `failed` the newest trigger a failed save
   * covered, `agreed` whether some save has succeeded since the last discard.
   */
  datatype State = State(
    path: string, groups: Groups, enabled: bool, stopped: bool, started: bool,
    triggers: nat, saved: nat, signal: bool, doneCloses: nat,
    pc: Pc, saving: Save, disk: map<string, Groups>,
    mapAt: seq<Groups>, failed: nat, agreed: bool)

  datatype Event =
    | Mutate(groups: Groups)
    | WorkerTake | WorkerStop | WorkerAbsorb | WorkerQuiet | WorkerDrain | WorkerCheckStop | WorkerLoad | WorkerCompare
    | SaveLock(who: Who) | SaveSnapshot | SaveWrite(ok: bool) | SaveRecord
    | SetPath(path: string) | SetEnabled(enabled: bool) | Load(readable: bool)
    | StopSaver

  predicate Enabled(s: State, e: Event) {
    match e
    case Mutate(_) => true
    case WorkerTake => s.pc == Waiting && s.signal
    case WorkerStop => s.pc == Waiting && s.stopped
    case WorkerAbsorb => s.pc == Coalescing && s.signal
    case WorkerQuiet => s.pc == Coalescing
    case WorkerDrain => s.pc == Draining
    case WorkerCheckStop => s.pc == CheckingStop
    case WorkerLoad => s.pc == Comparing
    case WorkerCompare => s.pc.Compared?
    case SaveLock(who) => s.saving.NoSave? && (who == Worker ==> s.pc == Wanting)
    case SaveSnapshot => s.saving.Locked?
    case SaveWrite(_) => s.saving.Snapped?
    case SaveRecord => s.saving.Written?
    case SetPath(_) => s.saving.NoSave?
    case SetEnabled(_) => s.saving.NoSave?
    case Load(_) => s.saving.NoSave?
    case StopSaver => true
  }

  /** triggerSaveLocked, after the mutation made under the same hold of `mu`. */
  function Trigger(s: State): State {
    var n := s.triggers + 1;
    var t := s.(triggers := n, mapAt := s.mapAt + [s.groups]);
    if !s.enabled then t.(saved := n, agreed := false)
    else if s.stopped then t
    else t.(signal := true, started := true, pc := if s.started then s.pc else Waiting)
  }

  /** discardPendingSaveLocked, with the map as it now stands. */
  function Discard(s: State): State
    requires |s.mapAt| == s.triggers + 1
  {
    s.(saved := s.triggers, signal := false, agreed := false, mapAt := s.mapAt[s.triggers := s.groups])
  }

  function Finish(s: State): State { s.(pc := Finished, doneCloses := s.doneCloses + 1) }

  /** Leaves performSave; the worker goes back to its loop. */
  function Unlock(s: State): State
    requires !s.saving.NoSave?
  {
    s.(saving := NoSave, pc := if s.saving.who == Worker then Waiting else s.pc)
  }

  /** What LoadTaskGroups keeps of a file's rows. */
  function Loadable(rows: Groups): Groups { map gid | gid in rows && gid != "" && rows[gid].id != "" :: rows[gid] }

  function Next(s: State, e: Event): State
    requires Enabled(s, e) && |s.mapAt| == s.triggers + 1
  {
    match e
    case Mutate(groups) => Trigger(s.(groups := groups))
    case WorkerTake => s.(signal := false, pc := Coalescing)
    case WorkerStop => Finish(s)
    case WorkerAbsorb => s.(signal := false)
    case WorkerQuiet => s.(pc := Draining)
    case WorkerDrain => s.(signal := false, pc := CheckingStop)
    case WorkerCheckStop => if s.stopped then Finish(s) else s.(pc := Comparing)
    case WorkerLoad => s.(pc := Compared(s.triggers))
    case WorkerCompare => s.(pc := if s.pc.loaded <= s.saved then Waiting else Wanting)
    case SaveLock(who) => s.(saving := Locked(who), pc := if who == Worker then Saving else s.pc)
    case SaveSnapshot =>
      if !s.enabled || s.triggers <= s.saved then Unlock(s)
      else s.(saving := Snapped(s.saving.who, s.triggers, s.groups))
    case SaveWrite(ok) =>
      if ok then s.(disk := WriteFile(s.disk, s.path, s.saving.snapshot), saving := Written(s.saving.who, s.saving.trigger))
      else Unlock(s.(failed := if s.failed < s.saving.trigger then s.saving.trigger else s.failed))
    case SaveRecord => Unlock(s.(saved := s.saving.trigger, agreed := true))
    case SetPath(path) => Discard(s.(path := path, groups := map[]))
    case SetEnabled(enabled) => if enabled then s.(enabled := true) else Discard(s.(enabled := false))
    case Load(readable) => Discard(s.(groups := if readable then Loadable(FileAt(s.disk, s.path)) else map[]))
    case StopSaver =>
      if s.stopped then s
      else s.(stopped := true, doneCloses := if s.started then s.doneCloses else s.doneCloses + 1)
  }

  /** A store just built, over whatever files there are. */
  predicate Init(s: State) {
    && s.groups == map[] && s.enabled && !s.stopped && !s.started && s.triggers == 0 && s.saved == 0
    && !s.signal && s.doneCloses == 0 && s.pc == NotStarted && s.saving == NoSave
    && s.mapAt == [map[]] && s.failed == 0 && !s.agreed
  }

  // ---- the invariant -----------------------------------------------------------------------

  predicate CountersOk(s: State) {
    && |s.mapAt| == s.triggers + 1 && s.mapAt[s.triggers] == s.groups
    && s.saved <= s.triggers && s.failed <= s.triggers
    && (!s.enabled ==> s.saved == s.triggers)
  }

  /** A save in progress holds the map of its own trigger, newer than what is recorded. */
  predicate SavingOk(s: State)
    requires CountersOk(s)
  {
    match s.saving
    case NoSave => true
    case Locked(_) => true
    case Snapped(_, t, snapshot) => s.enabled && s.saved < t <= s.triggers && snapshot == s.mapAt[t]
    case Written(_, t) => s.enabled && s.saved < t <= s.triggers && FileAt(s.disk, s.path) == s.mapAt[t]
  }

  predicate AgreementOk(s: State)
    requires CountersOk(s)
  {
    s.agreed && !s.saving.Written? ==> FileAt(s.disk, s.path) == s.mapAt[s.saved]
  }

  predicate WorkerOk(s: State) {
    && (s.pc == NotStarted <==> !s.started)
    && (s.signal ==> s.started)
    && (s.pc == Saving <==> !s.saving.NoSave? && s.saving.who == Worker)
    && (s.pc == Finished ==> s.stopped)
    && s.doneCloses == if s.stopped && (s.pc.NotStarted? || s.pc.Finished?) then 1 else 0
  }

  /** The newest trigger already recorded, failed, or carried by the save in progress. */
  function Covered(s: State): nat {
    var m := if s.saved < s.failed then s.failed else s.saved;
    if (s.saving.Snapped? || s.saving.Written?) && m < s.saving.trigger then s.saving.trigger else m
  }

  /** The worker is awake and has not taken its snapshot. */
  predicate YetToSnapshot(s: State) {
    || s.pc.Coalescing? || s.pc.Draining? || s.pc.CheckingStop? || s.pc.Comparing? || s.pc.Wanting?
    || (s.pc.Compared? && s.pc.loaded > s.saved)
    || (s.pc == Saving && s.saving.Locked?)
  }

  predicate PendingOk(s: State) {
    s.enabled && !s.stopped ==>
      && (s.triggers > Covered(s) ==> s.signal || YetToSnapshot(s))
      && (s.pc.Compared? && s.triggers > Covered(s) && s.triggers > s.pc.loaded ==> s.signal)
  }

  predicate Inv(s: State) {
    CountersOk(s) && SavingOk(s) && AgreementOk(s) && WorkerOk(s) && PendingOk(s)
  }

  lemma InitHolds(s: State)
    requires Init(s)
    ensures Inv(s)
  {
  }

  lemma MutateKeeps(s: State, groups: Groups)
    requires Inv(s)
    ensures Inv(Next(s, Mutate(groups)))
  {
    var n := Next(s, Mutate(groups));
    assert forall t :: 0 <= t <= s.triggers ==> n.mapAt[t] == s.mapAt[t];
  }

  predicate WorkerEvent(e: Event) {
    || e.WorkerTake? || e.WorkerStop? || e.WorkerAbsorb? || e.WorkerQuiet?
    || e.WorkerDrain? || e.WorkerCheckStop? || e.WorkerLoad? || e.WorkerCompare?
  }

  lemma WorkerKeeps(s: State, e: Event)
    requires Inv(s) && Enabled(s, e) && WorkerEvent(e)
    ensures Inv(Next(s, e))
  {
    var n := Next(s, e);
    assert n.saving == s.saving && n.mapAt == s.mapAt && n.disk == s.disk;
  }

  lemma LockKeeps(s: State, who: Who)
    requires Inv(s) && Enabled(s, SaveLock(who))
    ensures Inv(Next(s, SaveLock(who)))
  {
  }

  /** A save that finds nothing newer than what is recorded lets go again. */
  lemma NothingToSaveKeeps(s: State)
    requires Inv(s) && s.saving.Locked? && (!s.enabled || s.triggers <= s.saved)
    ensures Inv(Unlock(s))
  {
  }

  lemma SnapshotKeeps(s: State)
    requires Inv(s) && Enabled(s, SaveSnapshot)
    ensures Inv(Next(s, SaveSnapshot))
  {
    if !s.enabled || s.triggers <= s.saved { NothingToSaveKeeps(s); }
  }

  lemma WriteKeeps(s: State, ok: bool)
    requires Inv(s) && Enabled(s, SaveWrite(ok))
    ensures Inv(Next(s, SaveWrite(ok)))
  {
  }

  lemma RecordKeeps(s: State)
    requires Inv(s) && Enabled(s, SaveRecord)
    ensures Inv(Next(s, SaveRecord))
  {
  }

  lemma DiscardKeeps(s: State, path: string, groups: Groups, enabled: bool)
    requires Inv(s) && s.saving.NoSave?
    ensures Inv(Discard(s.(path := path, groups := groups, enabled := enabled)))
  {
    var n := Discard(s.(path := path, groups := groups, enabled := enabled));
    assert n.mapAt[n.triggers] == groups && n.saved == n.triggers;
  }

  lemma SwitchKeeps(s: State, e: Event)
    requires Inv(s) && Enabled(s, e) && (e == SetEnabled(true) || e == StopSaver)
    ensures Inv(Next(s, e))
  {
  }

  lemma StepKeepsInvariant(s: State, e: Event)
    requires Inv(s) && Enabled(s, e)
    ensures Inv(Next(s, e))
  {
    match e
    case Mutate(groups) => MutateKeeps(s, groups);
    case SaveLock(who) => LockKeeps(s, who);
    case SaveSnapshot => SnapshotKeeps(s);
    case SaveWrite(ok) => WriteKeeps(s, ok);
    case SaveRecord => RecordKeeps(s);
    case SetPath(path) => DiscardKeeps(s, path, map[], s.enabled);
    case SetEnabled(enabled) =>
      if enabled { SwitchKeeps(s, e); } else { DiscardKeeps(s, s.path, s.groups, false); }
    case Load(readable) => DiscardKeeps(s, s.path, Next(s, e).groups, s.enabled);
    case StopSaver => SwitchKeeps(s, e);
    case _ => WorkerKeeps(s, e);
  }

  /** History up to the previous trigger is fixed; recorded progress is not taken back. */
  predicate MovesForward(s: State, t: State) {
    && s.saved <= t.saved && s.triggers <= t.triggers && |s.mapAt| <= |t.mapAt|
    && forall k :: 0 <= k < |s.mapAt| - 1 ==> t.mapAt[k] == s.mapAt[k]
  }

  lemma SaveMovesForward(s: State, e: Event)
    requires Inv(s) && Enabled(s, e) && (e.SaveLock? || e.SaveSnapshot? || e.SaveWrite? || e.SaveRecord?)
    ensures MovesForward(s, Next(s, e))
  {
  }

  lemma DiscardMovesForward(s: State, path: string, groups: Groups, enabled: bool)
    requires CountersOk(s)
    ensures MovesForward(s, Discard(s.(path := path, groups := groups, enabled := enabled)))
  {
    var t := Discard(s.(path := path, groups := groups, enabled := enabled));
    assert t.mapAt == s.mapAt[s.triggers := groups] && t.triggers == t.saved == s.triggers;
  }

  lemma TriggerMovesForward(s: State, groups: Groups)
    requires CountersOk(s)
    ensures MovesForward(s, Trigger(s.(groups := groups)))
  {
  }

  lemma SwitchMovesForward(s: State, e: Event)
    requires CountersOk(s) && Enabled(s, e) && (e == SetEnabled(true) || e.StopSaver?)
    ensures MovesForward(s, Next(s, e))
  {
  }

  lemma StepMovesForward(s: State, e: Event)
    requires Inv(s) && Enabled(s, e)
    ensures MovesForward(s, Next(s, e))
  {
    match e
    case Mutate(groups) => TriggerMovesForward(s, groups);
    case SaveLock(_) => SaveMovesForward(s, e);
    case SaveSnapshot => SaveMovesForward(s, e);
    case SaveWrite(_) => SaveMovesForward(s, e);
    case SaveRecord => SaveMovesForward(s, e);
    case SetPath(path) => DiscardMovesForward(s, path, map[], s.enabled);
    case SetEnabled(enabled) =>
      if enabled { SwitchMovesForward(s, e); } else { DiscardMovesForward(s, s.path, s.groups, false); }
    case Load(_) => DiscardMovesForward(s, s.path, Next(s, e).groups, s.enabled);
    case StopSaver => SwitchMovesForward(s, e);
    case _ => WorkerFrame(s, e);
  }

  lemma WorkerFrame(s: State, e: Event)
    requires Enabled(s, e) && WorkerEvent(e) && |s.mapAt| == s.triggers + 1
    ensures var t := Next(s, e); t.saved == s.saved && t.triggers == s.triggers && t.mapAt == s.mapAt
  {
  }

  lemma StepAfterJoin(s: State, e: Event)
    requires WorkerOk(s) && |s.mapAt| == s.triggers + 1 && Enabled(s, e) && s.doneCloses == 1
    ensures Next(s, e).doneCloses == 1 && Next(s, e).pc == s.pc
    ensures !WorkerEvent(e) && e != SaveLock(Worker)
  {
    assert s.stopped && (s.pc.NotStarted? || s.pc.Finished?);
    if e.SaveSnapshot? || e.SaveWrite? || e.SaveRecord? { assert s.saving.who != Worker; }
  }

  /** Events that throw pending triggers away: a new path, a load, switching persistence off. */
  predicate Discards(e: Event) { e.SetPath? || e.Load? || e == SetEnabled(false) }

  lemma StepKeepsAgreement(s: State, e: Event)
    requires Enabled(s, e) && |s.mapAt| == s.triggers + 1 && s.agreed && s.enabled && !Discards(e)
    ensures Next(s, e).agreed && Next(s, e).enabled
  {
  }
}
