/** Every run of the group store and its saver. */
module GroupStoreRuns {
  import opened Prelude
  import opened Rpc
  import opened GroupStore

  predicate Runs(s: State, es: seq<Event>)
    requires Inv(s)
    decreases |es|
  {
    es == [] || (Enabled(s, es[0]) && (StepKeepsInvariant(s, es[0]); Runs(Next(s, es[0]), es[1..])))
  }

  function After(s: State, es: seq<Event>): (t: State)
    requires Inv(s) && Runs(s, es)
    ensures Inv(t)
    decreases |es|
  {
    if es == [] then s else (StepKeepsInvariant(s, es[0]); After(Next(s, es[0]), es[1..]))
  }

  // ---- agreement of file and map -------------------------------------------------------------

  lemma {:induction false} AgreementStays(s: State, events: seq<Event>)
    requires Inv(s) && Runs(s, events) && s.agreed && s.enabled
    requires forall i :: 0 <= i < |events| ==> !Discards(events[i])
    ensures After(s, events).agreed && After(s, events).enabled
    decreases |events|
  {
    if events != [] {
      StepKeepsInvariant(s, events[0]);
      StepKeepsAgreement(s, events[0]);
      AgreementStays(Next(s, events[0]), events[1..]);
    }
  }

  /**
   * Once a save has succeeded, and until the next discard, the file is the map as of
   * the last recorded trigger, except between a write and its recording, when it is
   * the map of the newer trigger being recorded.
   */
  lemma FileIsMapAtLastSaved(s: State, events: seq<Event>)
    requires Inv(s) && Runs(s, [SaveRecord] + events)
    requires forall i :: 0 <= i < |events| ==> !Discards(events[i])
    ensures var t := After(s, [SaveRecord] + events);
            && (if t.saving.Written? then t.saved < t.saving.trigger && FileAt(t.disk, t.path) == t.mapAt[t.saving.trigger]
                else FileAt(t.disk, t.path) == t.mapAt[t.saved])
            && (!t.saving.Written? && t.saved == t.triggers ==> FileAt(t.disk, t.path) == t.groups)
  {
    var all := [SaveRecord] + events;
    assert all[0] == SaveRecord && all[1..] == events;
    StepKeepsInvariant(s, SaveRecord);
    AgreementStays(Next(s, SaveRecord), events);
  }

  /** What was recorded as saved is never taken back, and earlier maps are never rewritten. */
  lemma {:induction false} SavedNeverDecreases(s: State, events: seq<Event>)
    requires Inv(s) && Runs(s, events)
    ensures var t := After(s, events);
            MovesForward(s, t)
    decreases |events|
  {
    if events != [] {
      var n := Next(s, events[0]);
      StepKeepsInvariant(s, events[0]);
      SavedNeverDecreases(n, events[1..]);
      StepMovesForward(s, events[0]);
    }
  }

  /** Writes reach the disk in trigger order: each carries a map newer than everything recorded. */
  lemma WritesMoveForward(s: State)
    requires Inv(s) && Enabled(s, SaveWrite(true))
    ensures s.saved < s.saving.trigger && s.saving.snapshot == s.mapAt[s.saving.trigger]
    ensures FileAt(Next(s, SaveWrite(true)).disk, s.path) == s.mapAt[s.saving.trigger]
    ensures forall path :: EffectivePath(path) != EffectivePath(s.path) ==>
              FileAt(Next(s, SaveWrite(true)).disk, path) == FileAt(s.disk, path)
  {
  }

  // ---- no trigger is forgotten -----------------------------------------------------------------

  /**
   * In every reachable state a trigger that is neither recorded, nor covered by a failed
   * attempt, nor carried by the save in progress has a buffered signal or a worker that
   * has yet to take its snapshot, unless the store is stopped or switched off.
   */
  lemma UnsavedTriggerIsPending(s: State, events: seq<Event>)
    requires Init(s) && Runs(s, events)
    ensures var t := After(s, events);
            t.enabled && !t.stopped && t.triggers > Covered(t) ==>
              && (t.signal || YetToSnapshot(t))
              && (t.pc.NotStarted? || t.pc.Waiting? ==> t.signal && t.pc == Waiting)
  {
    assert Inv(After(s, events));
  }

  // ---- stopping -----------------------------------------------------------------------------------

  /** The join: done is closed at most once, and once closed no worker runs or ever will. */
  lemma DoneClosedOnce(s: State, events: seq<Event>)
    requires Init(s) && Runs(s, events)
    ensures var t := After(s, events);
            && t.doneCloses <= 1
            && (t.doneCloses == 1 <==> t.stopped && (t.pc.NotStarted? || t.pc.Finished?))
            && (t.doneCloses == 1 ==> t.saving.NoSave? || t.saving.who != Worker)
  {
    assert Inv(After(s, events));
  }

  lemma {:induction false} JoinedForGood(s: State, events: seq<Event>)
    requires Inv(s) && Runs(s, events) && s.doneCloses == 1
    ensures After(s, events).doneCloses == 1 && After(s, events).pc == s.pc
    ensures forall i :: 0 <= i < |events| ==> !WorkerEvent(events[i]) && events[i] != SaveLock(Worker)
    decreases |events|
  {
    if events != [] {
      StepKeepsInvariant(s, events[0]);
      StepAfterJoin(s, events[0]);
      JoinedForGood(Next(s, events[0]), events[1..]);
    }
  }
}
