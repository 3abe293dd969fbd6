/**
 * The store as the object it is: each method's critical section is one event of the
 * machine. `others` is what other goroutines do where a method holds no lock, or holds
 * only writeMu.
 */
module GroupStoreObject {
  import opened Prelude
  import opened Rpc
  import opened GroupStore
  import opened GroupStoreRuns

  /** Events of other goroutines: never the caller's own role, never a save step under the caller's writeMu. */
  predicate Theirs(e: Event, who: Who, holding: bool) {
    && !(who == Worker && (WorkerEvent(e) || e == SaveLock(Worker)))
    && !(holding && (e.SaveLock? || e.SaveSnapshot? || e.SaveWrite? || e.SaveRecord?))
  }

  function ByOthers(s: State, others: seq<Event>, who: Who, holding: bool): (t: State)
    requires Inv(s)
    ensures Inv(t)
    decreases |others|
  {
    if others == [] then s
    else if Enabled(s, others[0]) && Theirs(others[0], who, holding)
    then StepKeepsInvariant(s, others[0]); ByOthers(Next(s, others[0]), others[1..], who, holding)
    else ByOthers(s, others[1..], who, holding)
  }

  lemma {:induction false} OthersMoveForward(s: State, others: seq<Event>, who: Who, holding: bool)
    requires Inv(s)
    ensures MovesForward(s, ByOthers(s, others, who, holding))
    decreases |others|
  {
    if others != [] {
      if Enabled(s, others[0]) && Theirs(others[0], who, holding) {
        StepKeepsInvariant(s, others[0]);
        StepMovesForward(s, others[0]);
        OthersMoveForward(Next(s, others[0]), others[1..], who, holding);
      } else {
        OthersMoveForward(s, others[1..], who, holding);
      }
    }
  }

  /** Each change of the map since is a trigger of its own. */
  predicate OnlyTriggers(s: State, t: State) {
    s.triggers <= t.triggers && (t.triggers == s.triggers ==> t.groups == s.groups)
  }

  /** Under the caller's writeMu its save stays as it is and persistence is not switched. */
  lemma HolderIsAlone(s: State, e: Event, who: Who)
    requires Inv(s) && !s.saving.NoSave? && s.saving.who == who
    requires Enabled(s, e) && Theirs(e, who, true)
    ensures var t := Next(s, e);
            t.saving == s.saving && t.path == s.path && t.enabled == s.enabled && t.disk == s.disk && t.failed == s.failed
            && (s.enabled ==> t.saved == s.saved && t.agreed == s.agreed) && OnlyTriggers(s, t)
  {
  }

  lemma {:induction false} HolderStaysAlone(s: State, others: seq<Event>, who: Who)
    requires Inv(s) && !s.saving.NoSave? && s.saving.who == who
    ensures var t := ByOthers(s, others, who, true);
            t.saving == s.saving && t.path == s.path && t.enabled == s.enabled && t.disk == s.disk && t.failed == s.failed
            && (s.enabled ==> t.saved == s.saved && t.agreed == s.agreed) && OnlyTriggers(s, t)
    decreases |others|
  {
    if others != [] {
      if Enabled(s, others[0]) && Theirs(others[0], who, true) {
        HolderIsAlone(s, others[0], who);
        StepKeepsInvariant(s, others[0]);
        HolderStaysAlone(Next(s, others[0]), others[1..], who);
      } else {
        HolderStaysAlone(s, others[1..], who);
      }
    }
  }

  // ---- what the mutations do to the map ----------------------------------------------------

  function RenamedRow(row: DownloadGroup, key: string, name: string, status: string): DownloadGroup {
    if row.id == key then row.(name := name, nameStatus := status) else row
  }

  function Renamed(groups: Groups, key: string, name: string, status: string): Groups {
    map gid | gid in groups :: RenamedRow(groups[gid], key, name, status)
  }

  predicate Stale(row: DownloadGroup, key: string, name: string, status: string) {
    row.id == key && !(row.name == name && row.nameStatus == status)
  }

  function ToRename(groups: Groups, key: string, name: string, status: string): set<string> {
    set gid | gid in groups && Stale(groups[gid], key, name, status)
  }

  lemma NothingToRename(groups: Groups, key: string, name: string, status: string)
    requires ToRename(groups, key, name, status) == {}
    ensures Renamed(groups, key, name, status) == groups
  {
    forall gid | gid in groups
      ensures !Stale(groups[gid], key, name, status)
    {
      assert gid !in ToRename(groups, key, name, status);
    }
  }

  function RenamedExcept(groups: Groups, left: set<string>, key: string, name: string, status: string): Groups {
    map gid | gid in groups :: if gid in left then groups[gid] else RenamedRow(groups[gid], key, name, status)
  }

  lemma RenameOne(groups: Groups, left: set<string>, gid: string, key: string, name: string, status: string)
    requires gid in left && left <= groups.Keys
    ensures var half := RenamedExcept(groups, left, key, name, status);
            && half[gid] == groups[gid]
            && (Stale(groups[gid], key, name, status) <==> gid in ToRename(groups, key, name, status))
            && RenamedExcept(groups, left - {gid}, key, name, status)
               == if Stale(groups[gid], key, name, status)
                  then half[gid := groups[gid].(name := name, nameStatus := status)] else half
  {
  }

  lemma CountOne(todo: set<string>, left: set<string>, gid: string)
    requires gid in todo && gid in left
    ensures |todo - (left - {gid})| == |todo - left| + 1
  {
    assert todo - (left - {gid}) == (todo - left) + {gid};
  }

  lemma CountNone(todo: set<string>, left: set<string>, gid: string)
    requires gid !in todo && gid in left
    ensures |todo - (left - {gid})| == |todo - left|
  {
    assert todo - (left - {gid}) == todo - left;
  }

  function Listed(gids: seq<string>): set<string> { set gid | gid in gids }

  class Store {
    var path: string
    var groups: Groups
    var enabled: bool
    var stopped: bool
    var started: bool
    var triggers: nat
    var saved: nat
    var signal: bool
    var doneCloses: nat
    var pc: Pc
    var saving: Save
    var disk: map<string, Groups>
    // Bookkeeping of the machine.
    var mapAt: seq<Groups>
    var failed: nat
    var agreed: bool

    function Now(): State
      reads this
    {
      State(path, groups, enabled, stopped, started, triggers, saved, signal, doneCloses,
            pc, saving, disk, mapAt, failed, agreed)
    }

    constructor (path: string, disk: map<string, Groups>)
      ensures Init(Now()) && this.path == path && this.disk == disk
    {
      this.path, this.disk := path, disk;
      groups, enabled, stopped, started, triggers, saved := map[], true, false, false, 0, 0;
      signal, doneCloses, pc, saving := false, 0, NotStarted, NoSave;
      mapAt, failed, agreed := [map[]], 0, false;
    }

    /** Counts the mutation just made to `groups` and wakes the saver. */
    method TriggerSaveLocked()
      modifies this
      ensures Now() == Trigger(old(Now()))
    {
      triggers := triggers + 1;
      mapAt := mapAt + [groups];
      if !enabled {
        saved := triggers;
        agreed := false;
        return;
      }
      if stopped { return; }
      if !started {
        started := true;
        pc := Waiting;
      }
      signal := true;
    }

    method DiscardPendingSaveLocked()
      requires |mapAt| == triggers + 1
      modifies this
      ensures Now() == Discard(old(Now()))
    {
      saved := triggers;
      mapAt := mapAt[triggers := groups];
      agreed := false;
      signal := false;
    }

    method RegisterTaskGroup(gid: string, group: DownloadGroup)
      modifies this
      ensures Now() == if gid == "" || group.id == "" then old(Now())
                       else Trigger(old(Now()).(groups := old(groups)[gid := group]))
    {
      if gid == "" || group.id == "" { return; }
      groups := groups[gid := group];
      TriggerSaveLocked();
    }

    /** The loop of UpdateStoredTaskGroupName: the count is of rows that really changed. */
    method RenameRows(key: string, name: string, status: string) returns (changed: nat)
      modifies `groups
      ensures groups == Renamed(old(groups), key, name, status)
      ensures changed == |ToRename(old(groups), key, name, status)|
      ensures changed == 0 ==> groups == old(groups)
    {
      changed := 0;
      ghost var was := groups;
      ghost var todo := ToRename(groups, key, name, status);
      var left := groups.Keys;
      while left != {}
        invariant left <= was.Keys && groups == RenamedExcept(was, left, key, name, status)
        invariant changed == |todo - left|
        decreases left
      {
        var gid :| gid in left;
        ghost var before := left;
        left := left - {gid};
        RenameOne(was, before, gid, key, name, status);
        if Stale(groups[gid], key, name, status) {
          groups := groups[gid := groups[gid].(name := name, nameStatus := status)];
          CountOne(todo, before, gid);
          changed := changed + 1;
        } else {
          CountNone(todo, before, gid);
        }
      }
      assert todo - left == todo;
      assert groups == Renamed(was, key, name, status);
      if changed == 0 { NothingToRename(was, key, name, status); }
    }

    method UpdateStoredTaskGroupName(key: string, name: string, status: string) returns (changed: nat)
      modifies this
      ensures var refused := key == "" || name == "" || !IsGroupNameStatus(status);
              && (changed == if refused then 0 else |ToRename(old(groups), key, name, status)|)
              && Now() == if changed == 0 then old(Now())
                          else Trigger(old(Now()).(groups := Renamed(old(groups), key, name, status)))
    {
      changed := 0;
      if key == "" || name == "" || !IsGroupNameStatus(status) { return; }
      changed := RenameRows(key, name, status);
      if changed > 0 { TriggerSaveLocked(); }
    }

    method RemoveRows(gids: seq<string>) returns (changed: bool)
      modifies `groups
      ensures groups == old(groups) - Listed(gids)
      ensures changed <==> groups != old(groups)
    {
      changed := false;
      ghost var was := groups;
      for i := 0 to |gids|
        invariant groups == was - Listed(gids[..i])
        invariant changed <==> groups != was
      {
        assert gids[..i + 1] == gids[..i] + [gids[i]];
        if gids[i] in groups {
          groups := groups - {gids[i]};
          assert gids[i] in was && gids[i] !in groups;
          changed := true;
        }
      }
      assert gids[..|gids|] == gids;
    }

    method RemoveTaskGroups(gids: seq<string>)
      modifies this
      ensures Now() == if old(groups) - Listed(gids) == old(groups) then old(Now())
                       else Trigger(old(Now()).(groups := old(groups) - Listed(gids)))
    {
      var changed := RemoveRows(gids);
      if changed { TriggerSaveLocked(); }
    }

    method SelectPath(newPath: string)
      requires |mapAt| == triggers + 1
      modifies this
      ensures Now() == Discard(old(Now()).(path := newPath, groups := map[]))
    {
      path := newPath;
      groups := map[];
      DiscardPendingSaveLocked();
    }

    method Switch(on: bool)
      requires |mapAt| == triggers + 1
      modifies this
      ensures Now() == if on then old(Now()).(enabled := true) else Discard(old(Now()).(enabled := false))
    {
      enabled := on;
      if !on { DiscardPendingSaveLocked(); }
    }

    /** The loop of loadFromDisk over the decoded rows. */
    method KeepRows(rows: Groups)
      requires groups == map[]
      modifies `groups
      ensures groups == Loadable(rows)
    {
      var left := rows.Keys;
      while left != {}
        invariant left <= rows.Keys
        invariant groups == map gid | gid in Loadable(rows) && gid !in left :: rows[gid]
        decreases left
      {
        var gid :| gid in left;
        left := left - {gid};
        if gid != "" && rows[gid].id != "" { groups := groups[gid := rows[gid]]; }
      }
    }

    method LoadFromDisk(readable: bool)
      requires |mapAt| == triggers + 1
      modifies this
      ensures Now() == Discard(old(Now()).(groups := if readable then Loadable(FileAt(old(disk), old(path))) else map[]))
    {
      groups := map[];
      DiscardPendingSaveLocked();
      if readable { KeepRows(FileAt(disk, path)); }
      mapAt := mapAt[triggers := groups];
    }

    method Stop()
      modifies this
      ensures Now() == if old(stopped) then old(Now())
                       else old(Now()).(stopped := true,
                                        doneCloses := if old(started) then old(doneCloses) else old(doneCloses) + 1)
    {
      if !stopped {
        stopped := true;
        if !started { doneCloses := doneCloses + 1; }
      }
    }

    // performSave, one method for each stretch between two points where others can act.

    method LockWriteMu(who: Who)
      requires Enabled(Now(), SaveLock(who))
      modifies this
      ensures Now() == old(Now()).(saving := Locked(who), pc := if who == Worker then Saving else old(pc))
    {
      saving := Locked(who);
      if who == Worker { pc := Saving; }
    }

    method UnlockWriteMu()
      requires !saving.NoSave?
      modifies this
      ensures Now() == Unlock(old(Now()))
    {
      if saving.who == Worker { pc := Waiting; }
      saving := NoSave;
    }

    /** Under the read lock: nothing to do, or a snapshot with its trigger. */
    method SnapshotSection() returns (pending: bool)
      requires saving.Locked?
      modifies this
      ensures pending <==> enabled && saved < triggers
      ensures Now() == if pending then old(Now()).(saving := Snapped(old(saving).who, triggers, groups))
                       else Unlock(old(Now()))
    {
      if !enabled {
        UnlockWriteMu();
        return false;
      }
      var triggerSnap := triggers;
      if triggerSnap <= saved {
        UnlockWriteMu();
        return false;
      }
      saving := Snapped(saving.who, triggerSnap, groups);
      return true;
    }

    /** The remove or the temp-and-rename write, which may fail and then changes no file. */
    method WriteSection(succeeds: bool)
      requires saving.Snapped?
      modifies this
      ensures Now() == if succeeds
                       then old(Now()).(disk := WriteFile(old(disk), path, old(saving).snapshot),
                                        saving := Written(old(saving).who, old(saving).trigger))
                       else Unlock(old(Now()).(failed := if old(failed) < old(saving).trigger
                                                         then old(saving).trigger else old(failed)))
    {
      if !succeeds {
        if failed < saving.trigger { failed := saving.trigger; }
        UnlockWriteMu();
        return;
      }
      var target := EffectivePath(path);
      if |saving.snapshot| == 0 {
        assert saving.snapshot == map[];
        disk := disk - {target};
      } else {
        disk := disk[target := saving.snapshot];
      }
      saving := Written(saving.who, saving.trigger);
    }

    method RecordSection()
      requires saving.Written?
      modifies this
      ensures Now() == Unlock(old(Now()).(saved := old(saving).trigger, agreed := true))
    {
      saved := saving.trigger;
      agreed := true;
      UnlockWriteMu();
    }
  }

  // ---- one whole save with others in between -------------------------------------------------

  /** performSave from the moment writeMu is free, with what others do at each gap. */
  function PerformSave(s: State, who: Who, locked: seq<Event>, snapped: seq<Event>, written: seq<Event>, succeeds: bool)
    : (State, bool)
    requires Inv(s) && Enabled(s, SaveLock(who))
  {
    StepKeepsInvariant(s, SaveLock(who));
    var a := ByOthers(Next(s, SaveLock(who)), locked, who, true);
    HolderStaysAlone(Next(s, SaveLock(who)), locked, who);
    StepKeepsInvariant(a, SaveSnapshot);
    if !a.enabled || a.triggers <= a.saved then (Next(a, SaveSnapshot), true)
    else
      HolderStaysAlone(Next(a, SaveSnapshot), snapped, who);
      var b := ByOthers(Next(a, SaveSnapshot), snapped, who, true);
      StepKeepsInvariant(b, SaveWrite(succeeds));
      if !succeeds then (Next(b, SaveWrite(false)), false)
      else
        HolderStaysAlone(Next(b, SaveWrite(true)), written, who);
        var c := ByOthers(Next(b, SaveWrite(true)), written, who, true);
        (Next(c, SaveRecord), true)
  }

  lemma SnapshotOutcome(a: State, who: Who)
    requires Inv(a) && a.saving == Locked(who)
    ensures var t := Next(a, SaveSnapshot);
            if a.enabled && a.saved < a.triggers then t.saving == Snapped(who, a.triggers, a.groups) && t.disk == a.disk
            else t.saving.NoSave? && a.triggers <= t.saved
  {
  }

  lemma WriteOutcome(b: State, succeeds: bool)
    requires Inv(b) && b.saving.Snapped?
    ensures var t := Next(b, SaveWrite(succeeds));
            if succeeds then t.saving == Written(b.saving.who, b.saving.trigger)
            else t.saving.NoSave? && b.saving.trigger <= t.failed && t.disk == b.disk
  {
  }

  lemma RecordOutcome(c: State)
    requires Inv(c) && c.saving.Written?
    ensures Next(c, SaveRecord).saving.NoSave? && Next(c, SaveRecord).saved == c.saving.trigger
  {
  }

  /** Having the lock, wait for the snapshot: nobody else touches the save or the disk. */
  lemma LockOutcome(s: State, who: Who, locked: seq<Event>)
    requires Inv(s) && Enabled(s, SaveLock(who)) && Inv(Next(s, SaveLock(who)))
    ensures var a := ByOthers(Next(s, SaveLock(who)), locked, who, true);
            a.saving == Locked(who) && s.triggers <= a.triggers && a.disk == s.disk
  {
    HolderStaysAlone(Next(s, SaveLock(who)), locked, who);
    OthersMoveForward(Next(s, SaveLock(who)), locked, who, true);
  }

  /**
   * A save that returns no error has everything triggered before it recorded; one that
   * fails was carrying all of it, and changed no file.
   */
  lemma SaveCoversTheCaller(s: State, who: Who, locked: seq<Event>, snapped: seq<Event>, written: seq<Event>, succeeds: bool)
    requires Inv(s) && Enabled(s, SaveLock(who))
    ensures var (t, ok) := PerformSave(s, who, locked, snapped, written, succeeds);
            && t.saving.NoSave? && (ok ==> s.triggers <= t.saved)
            && (!ok ==> !succeeds && s.triggers <= t.failed && t.disk == s.disk)
  {
    StepKeepsInvariant(s, SaveLock(who));
    LockOutcome(s, who, locked);
    var a := ByOthers(Next(s, SaveLock(who)), locked, who, true);
    StepKeepsInvariant(a, SaveSnapshot);
    SnapshotOutcome(a, who);
    if a.enabled && a.saved < a.triggers {
      var a1 := Next(a, SaveSnapshot);
      var b := ByOthers(a1, snapped, who, true);
      HolderStaysAlone(a1, snapped, who);
      StepKeepsInvariant(b, SaveWrite(succeeds));
      WriteOutcome(b, succeeds);
      if succeeds {
        var b1 := Next(b, SaveWrite(true));
        HolderStaysAlone(b1, written, who);
        RecordOutcome(ByOthers(b1, written, who, true));
      }
    }
  }

  // ---- what a save leaves in the file ----------------------------------------------------------

  /** The file holds the map of the recorded trigger, and the present map if nothing was triggered since. */
  predicate FileHoldsRecorded(t: State)
    requires CountersOk(t)
  {
    FileAt(t.disk, t.path) == t.mapAt[t.saved] && (t.saved == t.triggers ==> FileAt(t.disk, t.path) == t.groups)
  }

  lemma AgreedAtRest(t: State)
    requires Inv(t) && t.agreed && t.saving.NoSave?
    ensures FileHoldsRecorded(t)
  {
  }

  /** The save found nothing new: the file is left as it is, and nothing is in its way. */
  lemma NothingToSave(a: State)
    requires Inv(a) && a.saving.Locked? && a.enabled && a.triggers <= a.saved
    ensures var t := Next(a, SaveSnapshot);
            && Inv(t) && t == a.(saving := NoSave, pc := t.pc)
            && t.saved == t.triggers
  {
    StepKeepsInvariant(a, SaveSnapshot);
  }

  /** From the snapshot to the record: the file is the map of the recorded trigger, whatever is triggered meanwhile. */
  lemma SavedSnapshot(a: State, who: Who, snapped: seq<Event>, written: seq<Event>)
    requires Inv(a) && a.saving == Locked(who) && a.enabled && a.saved < a.triggers && Inv(Next(a, SaveSnapshot))
    ensures var b := ByOthers(Next(a, SaveSnapshot), snapped, who, true);
            && b.saving == Snapped(who, a.triggers, a.groups) && Inv(Next(b, SaveWrite(true)))
            && var c := ByOthers(Next(b, SaveWrite(true)), written, who, true);
            && c.saving.Written?
            && var t := Next(c, SaveRecord);
            && Inv(t) && t.agreed && t.saved == a.triggers && t.path == a.path && t.enabled && t.saving.NoSave?
            && OnlyTriggers(a, t)
  {
    HolderStaysAlone(Next(a, SaveSnapshot), snapped, who);
    var b := ByOthers(Next(a, SaveSnapshot), snapped, who, true);
    StepKeepsInvariant(b, SaveWrite(true));
    HolderStaysAlone(Next(b, SaveWrite(true)), written, who);
    var c := ByOthers(Next(b, SaveWrite(true)), written, who, true);
    StepKeepsInvariant(c, SaveRecord);
  }

  /**
   * Whatever others do in its gaps, a save without error leaves the file of the selected
   * path equal to the map of a recorded trigger no older than the caller's, provided
   * something was recorded since the last discard, by this save or before it. If nobody
   * changed the map meanwhile, the file is the map.
   */
  lemma SaveWritesTheMap(s: State, who: Who, locked: seq<Event>, snapped: seq<Event>, written: seq<Event>, succeeds: bool)
    requires Inv(s) && Enabled(s, SaveLock(who)) && s.enabled
    ensures var (t, ok) := PerformSave(s, who, locked, snapped, written, succeeds);
            && (succeeds ==> ok)
            && (ok ==> && Inv(t) && t.enabled && t.path == s.path && OnlyTriggers(s, t) && s.triggers <= t.saved
                       && (s.agreed || s.saved < t.saved ==> FileHoldsRecorded(t)))
  {
    StepKeepsInvariant(s, SaveLock(who));
    HolderStaysAlone(Next(s, SaveLock(who)), locked, who);
    var a := ByOthers(Next(s, SaveLock(who)), locked, who, true);
    StepKeepsInvariant(a, SaveSnapshot);
    if a.triggers <= a.saved {
      NothingToSave(a);
      var t := Next(a, SaveSnapshot);
      if t.agreed { AgreedAtRest(t); }
    } else if succeeds {
      SavedSnapshot(a, who, snapped, written);
      AgreedAtRest(PerformSave(s, who, locked, snapped, written, true).0);
    }
  }

  /** No step that changes the map, selects another file or switches persistence off. */
  predicate Quiet(events: seq<Event>) {
    forall i :: 0 <= i < |events| ==> !events[i].Mutate? && !Discards(events[i])
  }

  predicate SameFile(s: State, t: State) { t.disk == s.disk && t.path == s.path && t.groups == s.groups }

  /** With everything recorded a quiet step writes nothing, whoever saves. */
  lemma QuietStep(s: State, e: Event)
    requires Inv(s) && s.enabled && s.saved == s.triggers && Enabled(s, e) && !e.Mutate? && !Discards(e)
    ensures var t := Next(s, e); t.enabled && t.saved == t.triggers && SameFile(s, t)
  {
  }

  lemma {:induction false} QuietRun(s: State, events: seq<Event>)
    requires Inv(s) && s.enabled && s.saved == s.triggers && Runs(s, events) && Quiet(events)
    ensures SameFile(s, After(s, events))
    decreases |events|
  {
    if events != [] {
      StepKeepsInvariant(s, events[0]);
      QuietStep(s, events[0]);
      QuietRun(Next(s, events[0]), events[1..]);
    }
  }

  /**
   * A flush that is not overtaken by a change of the map leaves the file equal to the map,
   * and so it stays, whoever saves again, until the map or the selected file changes.
   */
  lemma FlushWritesTheMap(s: State, id: nat, locked: seq<Event>, snapped: seq<Event>, written: seq<Event>,
                          later: seq<Event>)
    requires Inv(s) && Enabled(s, SaveLock(Flusher(id))) && s.enabled && (s.agreed || s.saved < s.triggers)
    ensures var t := PerformSave(s, Flusher(id), locked, snapped, written, true).0;
            t.triggers == s.triggers ==>
              && Inv(t) && t.saved == t.triggers && t.groups == s.groups
              && (Runs(t, later) && Quiet(later) ==>
                    var v := After(t, later);
                    v.path == s.path && v.groups == s.groups && FileAt(v.disk, v.path) == s.groups)
  {
    SaveWritesTheMap(s, Flusher(id), locked, snapped, written, true);
    var t := PerformSave(s, Flusher(id), locked, snapped, written, true).0;
    if t.triggers == s.triggers && Runs(t, later) && Quiet(later) {
      QuietRun(t, later);
    }
  }
}
