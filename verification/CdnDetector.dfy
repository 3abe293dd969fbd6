/**
 * The CDN throttle detector: which workers it may act on, and how far apart its
 * actions on one worker must be over any run of ticks. Times are nanoseconds.
 */
module CdnDetector {
  import opened Prelude

  const WARMUP_GRACE: int := 5_000_000_000
  const WARMUP_BYTES: int := 1_048_576
  const SUSTAIN: int := 5_000_000_000
  const COOLDOWN: int := 10_000_000_000
  const STEADY_COV: real := 0.05
  const THROTTLE_RATIO: real := 0.5
  const HEALTHY_FLOOR: real := 1_048_576.0
  const DEAD_FLOOR: real := 2048.0
  const EVICT_TICKS: nat := 3
  const MAX_KILLS: nat := 3

  // ---- judging one worker ----------------------------------------------------------------------

  datatype Snapshot = Snapshot(id: int, started: int, sessionBytes: int, waitingOnLimiter: bool, hedged: bool,
                               httpStatus: int, speed: real)

  predicate Warm(s: Snapshot, now: int) {
    || (s.started > 0 && now - s.started < WARMUP_GRACE)
    || s.sessionBytes < WARMUP_BYTES || s.waitingOnLimiter || s.hedged
  }

  predicate Poisoned(s: Snapshot) { 400 <= s.httpStatus < 500 }

  predicate HealthyPeer(s: Snapshot, target: int, now: int) {
    s.id != target && !Warm(s, now) && s.speed > 0.0 && !Poisoned(s)
  }

  function PeerSpeeds(stats: seq<Snapshot>, target: int, now: int): seq<real> {
    if stats == [] then []
    else (if HealthyPeer(stats[0], target, now) then [stats[0].speed] else []) + PeerSpeeds(stats[1..], target, now)
  }

  function Insert(x: real, s: seq<real>): seq<real> {
    if s == [] || x <= s[0] then [x] + s else [s[0]] + Insert(x, s[1..])
  }

  function Sorted(s: seq<real>): (r: seq<real>) { if s == [] then [] else Insert(s[0], Sorted(s[1..])) }

  function Median(sorted: seq<real>): real {
    var n := |sorted|;
    if n == 0 then 0.0
    else if n % 2 == 1 then sorted[n / 2]
    else (sorted[n / 2 - 1] + sorted[n / 2]) / 2.0
  }

  function PeerMedian(stats: seq<Snapshot>, target: int, now: int): real {
    Median(Sorted(PeerSpeeds(stats, target, now)))
  }

  function Sum(w: seq<real>): real { if w == [] then 0.0 else w[0] + Sum(w[1..]) }

  function SquaredDeviations(w: seq<real>, mean: real): real {
    if w == [] then 0.0 else (w[0] - mean) * (w[0] - mean) + SquaredDeviations(w[1..], mean)
  }

  /** Every sample in the window near zero; no sample is no evidence. */
  predicate Dead(window: seq<real>) { window != [] && forall i :: 0 <= i < |window| ==> window[i] < DEAD_FLOOR }

  /** Low deviation, stated without the square root, and clearly slower than the peers. */
  predicate Throttled(window: seq<real>, speed: real, median: real) {
    window != [] &&
    var n := |window| as real;
    var mean := Sum(window) / n;
    && mean > 0.0
    && SquaredDeviations(window, mean) / n < (STEADY_COV * mean) * (STEADY_COV * mean)
    && speed < THROTTLE_RATIO * median
  }

  datatype Verdict = Exempt | Healthy | Bad

  function Judge(s: Snapshot, stats: seq<Snapshot>, window: seq<real>, now: int): Verdict {
    var median := PeerMedian(stats, s.id, now);
    if Warm(s, now) || Poisoned(s) || median <= HEALTHY_FLOOR then Exempt
    else if Dead(window) || Throttled(window, s.speed, median) then Bad
    else Healthy
  }

  lemma {:induction false} InsertMember(x: real, s: seq<real>, y: real)
    ensures y in Insert(x, s) <==> y == x || y in s
  {
    if s != [] && !(x <= s[0]) {
      InsertMember(x, s[1..], y);
      assert s == [s[0]] + s[1..];
    }
  }

  lemma {:induction false} SortedMember(s: seq<real>, y: real)
    ensures y in Sorted(s) <==> y in s
  {
    if s != [] {
      SortedMember(s[1..], y);
      InsertMember(s[0], Sorted(s[1..]), y);
      assert s == [s[0]] + s[1..];
    }
  }

  lemma {:induction false} PeerSpeedIsAPeers(stats: seq<Snapshot>, target: int, now: int, y: real)
    requires y in PeerSpeeds(stats, target, now)
    ensures exists i :: 0 <= i < |stats| && HealthyPeer(stats[i], target, now) && stats[i].speed == y
  {
    if HealthyPeer(stats[0], target, now) && y == stats[0].speed {
    } else {
      PeerSpeedIsAPeers(stats[1..], target, now, y);
      var i :| 0 <= i < |stats[1..]| && HealthyPeer(stats[1..][i], target, now) && stats[1..][i].speed == y;
      assert stats[i + 1] == stats[1..][i];
    }
  }

  /**
   * No worker is condemned unless some other worker of the download, past its warm-up
   * and not refused by the server, is itself above the floor: a download that is slow
   * as a whole, or has one worker, is never touched.
   */
  lemma BadNeedsAFastPeer(s: Snapshot, stats: seq<Snapshot>, window: seq<real>, now: int)
    requires Judge(s, stats, window, now) == Bad
    ensures exists i :: 0 <= i < |stats| && HealthyPeer(stats[i], s.id, now) && stats[i].speed > HEALTHY_FLOOR
    ensures !Warm(s, now) && !Poisoned(s)
  {
    var speeds := PeerSpeeds(stats, s.id, now);
    var sorted := Sorted(speeds);
    var n := |sorted|;
    assert n > 0;
    var y := if n % 2 == 1 || sorted[n / 2] > HEALTHY_FLOOR then sorted[n / 2] else sorted[n / 2 - 1];
    assert y > HEALTHY_FLOOR && y in sorted;
    SortedMember(speeds, y);
    PeerSpeedIsAPeers(stats, s.id, now, y);
  }

  // ---- what has been done, as a log ---------------------------------------------------------------

  datatype Worker = Worker(gid: string, id: int)

  datatype Event =
    | Act(at: int, who: Worker, kill: bool)
    | ResetCount(who: Worker)
    | Forget(who: Worker)

  predicate ActsOn(e: Event, who: Worker) { e.Act? && e.who == who }

  /** When `who` was last acted on. */
  function LastAction(log: seq<Event>, who: Worker): Option<int> {
    if log == [] then None
    else if ActsOn(log[|log| - 1], who) then Some(log[|log| - 1].at)
    else LastAction(log[..|log| - 1], who)
  }

  /** The same, as far as the detector remembers. */
  function LastRemembered(log: seq<Event>, who: Worker): Option<int> {
    if log == [] || log[|log| - 1] == Forget(who) then None
    else if ActsOn(log[|log| - 1], who) then Some(log[|log| - 1].at)
    else LastRemembered(log[..|log| - 1], who)
  }

  function ActionsSince(log: seq<Event>, who: Worker): nat {
    if log == [] || log[|log| - 1] == Forget(who) || log[|log| - 1] == ResetCount(who) then 0
    else ActionsSince(log[..|log| - 1], who) + (if ActsOn(log[|log| - 1], who) then 1 else 0)
  }

  /** Kills, not drains, since the worker's count was last reset or forgotten. */
  function KillsSince(log: seq<Event>, who: Worker): (k: nat)
    ensures k <= ActionsSince(log, who)
  {
    if log == [] || log[|log| - 1] == Forget(who) || log[|log| - 1] == ResetCount(who) then 0
    else KillsSince(log[..|log| - 1], who) + (if ActsOn(log[|log| - 1], who) && log[|log| - 1].kill then 1 else 0)
  }

  predicate Remembered(log: seq<Event>, i: int, j: int, who: Worker) {
    forall k :: 0 <= i < k < j < |log| ==> log[k] != Forget(who)
  }

  /** Two actions on one worker are far apart. */
  predicate Spaced(log: seq<Event>) {
    forall i, j :: 0 <= i < j < |log| && log[i].Act? && ActsOn(log[j], log[i].who) ==>
      && log[j].at - log[i].at >= SUSTAIN
      && (Remembered(log, i, j, log[i].who) ==> log[j].at - log[i].at >= COOLDOWN)
  }

  ghost predicate FewKills(log: seq<Event>) {
    forall n, who :: 0 <= n <= |log| ==> KillsSince(log[..n], who) <= MAX_KILLS
  }

  /** Times in the log never run ahead of the clock, nor back. */
  predicate Timely(log: seq<Event>, clock: int) {
    && (forall i :: 0 <= i < |log| && log[i].Act? ==> log[i].at <= clock)
    && (forall i, j :: 0 <= i < j < |log| && log[i].Act? && log[j].Act? ==> log[i].at <= log[j].at)
  }

  lemma {:induction false} LastActionIsLatest(log: seq<Event>, clock: int, i: nat)
    requires Timely(log, clock) && i < |log| && log[i].Act?
    ensures LastAction(log, log[i].who).Some? && log[i].at <= LastAction(log, log[i].who).value <= clock
  {
    var n := |log| - 1;
    if !ActsOn(log[n], log[i].who) {
      assert log[..n][i] == log[i];
      LastActionIsLatest(log[..n], clock, i);
    }
  }

  lemma {:induction false} RememberedIsLatest(log: seq<Event>, clock: int, i: nat)
    requires Timely(log, clock) && i < |log| && log[i].Act?
    requires forall k :: i < k < |log| ==> log[k] != Forget(log[i].who)
    ensures LastRemembered(log, log[i].who).Some? && log[i].at <= LastRemembered(log, log[i].who).value
  {
    var n := |log| - 1;
    if !ActsOn(log[n], log[i].who) {
      assert log[..n][i] == log[i];
      RememberedIsLatest(log[..n], clock, i);
    }
  }

  /** An action whose timers have run out keeps the log spaced. */
  lemma ActionKeepsSpacing(log: seq<Event>, now: int, who: Worker, kill: bool)
    requires Spaced(log) && Timely(log, now)
    requires LastAction(log, who).Some? ==> now - LastAction(log, who).value >= SUSTAIN
    requires LastRemembered(log, who).Some? ==> now - LastRemembered(log, who).value >= COOLDOWN
    ensures Spaced(log + [Act(now, who, kill)]) && Timely(log + [Act(now, who, kill)], now)
  {
    var next := log + [Act(now, who, kill)];
    forall i, j | 0 <= i < j < |next| && next[i].Act? && ActsOn(next[j], next[i].who)
      ensures next[j].at - next[i].at >= SUSTAIN
      ensures Remembered(next, i, j, next[i].who) ==> next[j].at - next[i].at >= COOLDOWN
    {
      if j == |log| {
        LastActionIsLatest(log, now, i);
        if Remembered(next, i, j, next[i].who) {
          forall k | i < k < |log| ensures log[k] != Forget(who) { assert next[k] == log[k]; }
          RememberedIsLatest(log, now, i);
        }
      } else if Remembered(next, i, j, next[i].who) {
        forall k | i < k < j ensures log[k] != Forget(log[i].who) { assert next[k] == log[k]; }
        assert Remembered(log, i, j, log[i].who);
      }
    }
  }

  lemma QuietEventKeepsSpacing(log: seq<Event>, e: Event, clock: int)
    requires Spaced(log) && Timely(log, clock) && !e.Act?
    ensures Spaced(log + [e]) && Timely(log + [e], clock)
  {
    var next := log + [e];
    forall i, j | 0 <= i < j < |next| && next[i].Act? && ActsOn(next[j], next[i].who)
      ensures next[j].at - next[i].at >= SUSTAIN
      ensures Remembered(next, i, j, next[i].who) ==> next[j].at - next[i].at >= COOLDOWN
    {
      if Remembered(next, i, j, next[i].who) {
        forall k | i < k < j ensures log[k] != Forget(log[i].who) { assert next[k] == log[k]; }
        assert Remembered(log, i, j, log[i].who);
      }
    }
  }

  lemma FewKillsExtend(log: seq<Event>, e: Event)
    requires FewKills(log)
    requires forall who :: KillsSince(log + [e], who) <= MAX_KILLS
    ensures FewKills(log + [e])
  {
    var next := log + [e];
    forall n, who | 0 <= n <= |next|
      ensures KillsSince(next[..n], who) <= MAX_KILLS
    {
      if n <= |log| {
        assert next[..n] == log[..n];
      } else {
        assert next[..n] == next;
      }
    }
  }
}
