/** The detector object: per-worker debounce state, driven tick by tick. */
module CdnDetectorTicks {
  import opened Prelude
  import opened CdnDetector

  datatype WorkerState = WorkerState(heldSince: Option<int>, lastKill: Option<int>, absentTicks: nat, killCount: nat)

  const UNSEEN := WorkerState(None, None, 0, 0)

  function StateOf(workers: map<Worker, WorkerState>, who: Worker): WorkerState {
    if who in workers then workers[who] else UNSEEN
  }

  /** What the debounce state of a worker says about the log. */
  predicate Tracks(ws: WorkerState, log: seq<Event>, who: Worker) {
    && ws.lastKill == LastRemembered(log, who)
    && (ws.heldSince.Some? && LastAction(log, who).Some? ==> LastAction(log, who).value <= ws.heldSince.value)
    && ws.killCount == ActionsSince(log, who)
  }

  ghost predicate AllTracked(workers: map<Worker, WorkerState>, log: seq<Event>) {
    forall who :: Tracks(StateOf(workers, who), log, who)
  }

  lemma EventSparesOthers(log: seq<Event>, e: Event, who: Worker)
    requires e.who != who
    ensures LastRemembered(log + [e], who) == LastRemembered(log, who)
    ensures LastAction(log + [e], who) == LastAction(log, who)
    ensures ActionsSince(log + [e], who) == ActionsSince(log, who)
    ensures KillsSince(log + [e], who) == KillsSince(log, who)
  {
    assert (log + [e])[..|log|] == log;
  }

  /** An event about `e.who` keeps everything tracked if that worker's own new state tracks it. */
  lemma TrackedAfter(workers: map<Worker, WorkerState>, next: map<Worker, WorkerState>, log: seq<Event>, e: Event)
    requires AllTracked(workers, log)
    requires forall who :: who != e.who ==> StateOf(next, who) == StateOf(workers, who)
    requires Tracks(StateOf(next, e.who), log + [e], e.who)
    ensures AllTracked(next, log + [e])
  {
    forall who ensures Tracks(StateOf(next, who), log + [e], who) {
      if who != e.who {
        EventSparesOthers(log, e, who);
        assert Tracks(StateOf(workers, who), log, who);
      }
    }
  }

  lemma TrackedTouched(workers: map<Worker, WorkerState>, next: map<Worker, WorkerState>, log: seq<Event>, touched: Worker)
    requires AllTracked(workers, log)
    requires forall who :: who != touched ==> StateOf(next, who) == StateOf(workers, who)
    requires Tracks(StateOf(next, touched), log, touched)
    ensures AllTracked(next, log)
  {
    forall who ensures Tracks(StateOf(next, who), log, who) {
      assert Tracks(StateOf(workers, who), log, who);
    }
  }

  lemma KillsAfter(log: seq<Event>, e: Event)
    requires FewKills(log) && (e.Act? && e.kill ==> KillsSince(log, e.who) < MAX_KILLS)
    ensures FewKills(log + [e])
  {
    assert (log + [e])[..|log|] == log && log[..|log|] == log;
    forall who ensures KillsSince(log + [e], who) <= MAX_KILLS {
      assert KillsSince(log[..|log|], who) <= MAX_KILLS;
      if who != e.who { EventSparesOthers(log, e, who); }
    }
    FewKillsExtend(log, e);
  }

  /** One download in a tick: its workers, their windows, and which actions the engine would accept. */
  datatype Sample = Sample(gid: string, stats: seq<Snapshot>, windows: map<int, seq<real>>, accepts: set<int>)

  function WindowOf(s: Sample, id: int): seq<real> { if id in s.windows then s.windows[id] else [] }

  predicate IsSurge(gid: string) { |gid| >= 3 && gid[..3] == "sg_" }

  function InsertById(s: Snapshot, rest: seq<Snapshot>): seq<Snapshot> {
    if rest == [] || s.id <= rest[0].id then [s] + rest else [rest[0]] + InsertById(s, rest[1..])
  }

  function ById(stats: seq<Snapshot>): seq<Snapshot> {
    if stats == [] then [] else InsertById(stats[0], ById(stats[1..]))
  }

  /** The action in `e` is on a worker of this download that the decision tree condemned. */
  ghost predicate Justified(e: Event, sample: Sample, now: int) {
    e.Act? ==>
      && e.at == now && e.who.gid == sample.gid
      && exists k :: 0 <= k < |ById(sample.stats)| && ById(sample.stats)[k].id == e.who.id
           && Judge(ById(sample.stats)[k], ById(sample.stats), WindowOf(sample, e.who.id), now) == Bad
  }

  /** From `start` on, at most one action, the last event, and a justified one. */
  ghost predicate OneAction(log: seq<Event>, start: nat, sample: Sample, now: int) {
    && (forall i :: start <= i < |log| - 1 ==> !log[i].Act?)
    && (forall i :: start <= i < |log| ==> log[i].who.gid == sample.gid && Justified(log[i], sample, now))
  }

  /** One tick later: who was seen starts over, who was not ages, and is dropped after the grace ticks. */
  function Aged(workers: map<Worker, WorkerState>, gid: string, present: set<int>): map<Worker, WorkerState> {
    map who | who in workers
              && (who.gid == gid && who.id !in present ==> workers[who].absentTicks + 1 <= EVICT_TICKS) ::
      if who.gid != gid then workers[who]
      else workers[who].(absentTicks := if who.id in present then 0 else workers[who].absentTicks + 1)
  }

  class Detector {
    var workers: map<Worker, WorkerState>
    ghost var log: seq<Event>
    ghost var clock: int

    ghost predicate Valid()
      reads this
    {
      Spaced(log) && Timely(log, clock) && FewKills(log) && AllTracked(workers, log)
    }

    constructor ()
      ensures Valid() && log == []
    {
      workers, log := map[], [];
    }

    method ResetHeld(who: Worker)
      requires Valid()
      modifies `workers
      ensures Valid()
    {
      var ws := StateOf(workers, who);
      ghost var was := workers;
      workers := workers[who := ws.(heldSince := None)];
      assert Tracks(ws, log, who);
      TrackedTouched(was, workers, log, who);
    }

    method ResetKillCount(who: Worker)
      requires Valid()
      modifies `workers, `log
      ensures Valid() && log == old(log) + [ResetCount(who)]
    {
      ghost var was := workers;
      workers := workers[who := StateOf(workers, who).(killCount := 0)];
      ghost var e := ResetCount(who);
      assert (log + [e])[..|log|] == log && Tracks(StateOf(was, who), log, who);
      TrackedAfter(was, workers, log, e);
      QuietEventKeepsSpacing(log, e, clock);
      KillsAfter(log, e);
      log := log + [e];
    }

    /** Starts the sustain timer if needed; true once it and the cooldown have run out. */
    method ShouldFire(who: Worker, now: int) returns (fire: bool)
      requires Valid() && clock <= now
      modifies `workers
      ensures Valid()
      ensures fire ==> LastAction(log, who).Some? ==> now - LastAction(log, who).value >= SUSTAIN
      ensures fire ==> LastRemembered(log, who).Some? ==> now - LastRemembered(log, who).value >= COOLDOWN
    {
      ghost var was := workers;
      var ws := StateOf(workers, who);
      assert Tracks(ws, log, who);
      if ws.heldSince.None? { ws := ws.(heldSince := Some(now)); }
      if LastAction(log, who).Some? { LastActionBeforeClock(log, clock, who); }
      workers := workers[who := ws];
      TrackedTouched(was, workers, log, who);
      if now - ws.heldSince.value < SUSTAIN { return false; }
      if ws.lastKill.Some? && now - ws.lastKill.value < COOLDOWN { return false; }
      return true;
    }

    method RecordKill(who: Worker, now: int, kill: bool)
      requires Valid() && clock <= now
      requires LastAction(log, who).Some? ==> now - LastAction(log, who).value >= SUSTAIN
      requires LastRemembered(log, who).Some? ==> now - LastRemembered(log, who).value >= COOLDOWN
      requires kill ==> StateOf(workers, who).killCount < MAX_KILLS
      modifies `workers, `log, `clock
      ensures Valid() && clock == now && log == old(log) + [Act(now, who, kill)]
    {
      ghost var was := workers;
      var ws := StateOf(workers, who);
      assert Tracks(ws, log, who);
      workers := workers[who := ws.(lastKill := Some(now), heldSince := None, killCount := ws.killCount + 1)];
      ghost var e := Act(now, who, kill);
      assert (log + [e])[..|log|] == log;
      TrackedAfter(was, workers, log, e);
      ActionKeepsSpacing(log, now, who, kill);
      KillsAfter(log, e);
      log := log + [e];
      clock := now;
    }

    /** Kill, or drain once the kills have not helped; true if the engine accepted. */
    method Fire(who: Worker, now: int, accepts: bool) returns (acted: bool)
      requires Valid() && clock <= now
      modifies this
      ensures Valid() && old(clock) <= clock <= now
      ensures !acted ==> log == old(log)
      ensures acted ==> exists kill: bool :: log == old(log) + [Act(now, who, kill)]
    {
      var fire := ShouldFire(who, now);
      if !fire || !accepts { return false; }
      var kill := StateOf(workers, who).killCount < MAX_KILLS;
      RecordKill(who, now, kill);
      return true;
    }

    /** The decision tree over the workers in id order, up to the first action. */
    method EvaluateGid(sample: Sample, now: int)
      requires Valid() && clock <= now
      modifies this
      ensures Valid() && clock <= now
      ensures old(log) <= log && OneAction(log, |old(log)|, sample, now)
    {
      if |sample.stats| <= 1 { return; }
      var ordered := ById(sample.stats);
      for k := 0 to |ordered|
        invariant Valid() && clock <= now
        invariant old(log) <= log
        invariant forall i :: |old(log)| <= i < |log| ==> !log[i].Act? && log[i].who.gid == sample.gid
      {
        var s := ordered[k];
        var who := Worker(sample.gid, s.id);
        var verdict := Judge(s, ordered, WindowOf(sample, s.id), now);
        match verdict {
          case Exempt => ResetHeld(who);
          case Healthy =>
            ResetHeld(who);
            ResetKillCount(who);
          case Bad =>
            ghost var before := log;
            var acted := Fire(who, now, s.id in sample.accepts);
            if acted {
              ghost var kill :| log == before + [Act(now, who, kill)];
              assert Justified(log[|log| - 1], sample, now);
              return;
            }
        }
      }
    }

    method ForgetWorker(who: Worker)
      requires Valid()
      modifies `workers, `log
      ensures Valid() && workers == old(workers) - {who} && log == old(log) + [Forget(who)]
    {
      ghost var was := workers;
      workers := workers - {who};
      ghost var e := Forget(who);
      assert (log + [e])[..|log|] == log && Tracks(StateOf(was, who), log, who);
      TrackedAfter(was, workers, log, e);
      QuietEventKeepsSpacing(log, e, clock);
      KillsAfter(log, e);
      log := log + [e];
    }

    /** Workers missing from the stats age, and are forgotten after the grace ticks. */
    method PruneAbsent(gid: string, present: set<int>)
      requires Valid()
      modifies `workers, `log
      ensures Valid() && old(log) <= log
      ensures workers == Aged(old(workers), gid, present)
      ensures forall i :: |old(log)| <= i < |log| ==> log[i].Forget? && log[i].who.gid == gid
    {
      ghost var aged := Aged(workers, gid, present);
      var left := set who | who in workers && who.gid == gid;
      while left != {}
        invariant Valid() && old(log) <= log
        invariant forall who :: who in left ==> who.gid == gid && who in workers && workers[who] == old(workers)[who]
        invariant forall who :: who !in left ==>
                    (who in workers <==> who in aged) && (who in workers ==> workers[who] == aged[who])
        invariant left <= old(workers).Keys
        invariant forall i :: |old(log)| <= i < |log| ==> log[i].Forget? && log[i].who.gid == gid
        decreases left
      {
        var who :| who in left;
        left := left - {who};
        var ws := workers[who];
        if who.id in present {
          Touch(who, 0);
        } else if ws.absentTicks + 1 > EVICT_TICKS {
          ForgetWorker(who);
        } else {
          Touch(who, ws.absentTicks + 1);
        }
      }
    }

    method Touch(who: Worker, absentTicks: nat)
      requires Valid() && who in workers
      modifies `workers
      ensures Valid() && workers == old(workers)[who := old(workers)[who].(absentTicks := absentTicks)]
    {
      ghost var was := workers;
      workers := workers[who := workers[who].(absentTicks := absentTicks)];
      assert Tracks(StateOf(was, who), log, who);
      TrackedTouched(was, workers, log, who);
    }

    /** One tick: every active download is pruned and judged, stale ones are dropped. */
    method Tick(now: int, active: seq<Sample>, stale: set<string>)
      requires Valid() && clock <= now
      modifies this
      ensures Valid() && clock <= now && old(log) <= log
      ensures DistinctSamples(active) ==> OneEach(log, |old(log)|)
      ensures forall i :: |old(log)| <= i < |log| && log[i].Act? ==>
                IsSurge(log[i].who.gid) && exists k :: 0 <= k < |active| && Justified(log[i], active[k], now)
    {
      var present: set<string> := {};
      for k := 0 to |active|
        invariant Valid() && clock <= now && old(log) <= log
        invariant forall i :: |old(log)| <= i < |log| ==> exists m :: 0 <= m < k && log[i].who.gid == active[m].gid
        invariant forall i :: |old(log)| <= i < |log| && log[i].Act? ==>
                    IsSurge(log[i].who.gid) && exists m :: 0 <= m < k && Justified(log[i], active[m], now)
        invariant DistinctSamples(active) ==> OneEach(log, |old(log)|)
      {
        if IsSurge(active[k].gid) {
          present := present + {active[k].gid};
          if |active[k].stats| > 0 {
            VisitSample(now, active[k]);
          }
        }
      }
      ghost var judged := log;
      var left := set who | who in workers && who.gid in stale - present;
      while left != {}
        invariant Valid() && clock <= now && judged <= log && left <= workers.Keys
        invariant forall i :: |judged| <= i < |log| ==> !log[i].Act?
        decreases left
      {
        var who :| who in left;
        left := left - {who};
        ForgetWorker(who);
      }
    }

    method VisitSample(now: int, sample: Sample)
      requires Valid() && clock <= now
      modifies this
      ensures Valid() && clock <= now
      ensures old(log) <= log && OneAction(log, |old(log)|, sample, now)
    {
      PruneAbsent(sample.gid, set s | s in sample.stats :: s.id);
      ghost var pruned := log;
      EvaluateGid(sample, now);
      assert forall i :: |old(log)| <= i < |pruned| ==> log[i] == pruned[i];
    }
  }

  predicate DistinctSamples(active: seq<Sample>) {
    forall i, j :: 0 <= i < j < |active| ==> active[i].gid != active[j].gid
  }

  /** From `start` on, no download is acted on twice. */
  predicate OneEach(log: seq<Event>, start: nat) {
    forall i, j :: start <= i < j < |log| && log[i].Act? && log[j].Act? ==> log[i].who.gid != log[j].who.gid
  }

  lemma LastActionBeforeClock(log: seq<Event>, clock: int, who: Worker)
    requires Timely(log, clock) && LastAction(log, who).Some?
    ensures LastAction(log, who).value <= clock
  {
    if !ActsOn(log[|log| - 1], who) {
      LastActionBeforeClock(log[..|log| - 1], clock, who);
    }
  }
}
