/**
 * The download-group namer: debounce timers, their callbacks and the wait group that
 * Stop waits on. A timer is a number; `armed` are the firings still to come.
 */
module Namer {
  import opened Prelude

  const MAX_RETRIES: nat := 3

  /** How far a timer callback has got. */
  datatype Phase = Started | Deleted | Allowed | Clearing | Finishing

  datatype Callback = Callback(key: string, phase: Phase)

  /** Bookkeeping: an attempt allowed to requeue, a requeue that took effect, the attempts of a key cleared. */
  datatype Note = Allowance(key: string) | Requeue(key: string) | Cleared(key: string) | ClearedAll

  datatype State = State(
    stopped: bool, timers: map<string, nat>, keys: map<nat, string>, armed: set<nat>,
    attempts: map<string, nat>, wg: int, callbacks: map<nat, Callback>,
    nextTimer: nat, nextCallback: nat, notes: seq<Note>)

  datatype Event =
    | Queue(key: string)
    | Fire(timer: nat)
    | DeleteTimer(callback: nat)
    | Classify(callback: nat, pending: bool)
    | SelfQueue(callback: nat)
    | ClearAttempt(callback: nat)
    | Done(callback: nat)
    | Stop

  predicate Enabled(s: State, e: Event) {
    match e
    case Queue(_) => true
    case Fire(t) => t in s.armed && t in s.keys
    case DeleteTimer(c) => c in s.callbacks && s.callbacks[c].phase == Started
    case Classify(c, _) => c in s.callbacks && s.callbacks[c].phase == Deleted
    case SelfQueue(c) => c in s.callbacks && s.callbacks[c].phase == Allowed
    case ClearAttempt(c) => c in s.callbacks && s.callbacks[c].phase == Clearing
    case Done(c) => c in s.callbacks && s.callbacks[c].phase == Finishing
    case Stop => true
  }

  /** queue: resets the key's timer or makes one; a firing not already due is added to the wait group. */
  function Queued(s: State, key: string): State {
    if key == "" || s.stopped then s
    else if key in s.timers then
      var t := s.timers[key];
      s.(armed := s.armed + {t}, wg := if t in s.armed then s.wg else s.wg + 1)
    else
      var t := s.nextTimer;
      s.(timers := s.timers[key := t], keys := s.keys[t := key], armed := s.armed + {t},
         wg := s.wg + 1, nextTimer := t + 1)
  }

  /** A stopped namer requeues nothing. */
  function Requeued(s: State, key: string): State {
    if s.stopped then s else s.(notes := s.notes + [Requeue(key)])
  }

  function InPhase(s: State, c: nat, phase: Phase): State
    requires c in s.callbacks
  {
    s.(callbacks := s.callbacks[c := s.callbacks[c].(phase := phase)])
  }

  function Attempts(attempts: map<string, nat>, key: string): nat { if key in attempts then attempts[key] else 0 }

  /** The firings Stop can cancel: those of timers the map still knows. */
  function Known(timers: map<string, nat>, armed: set<nat>): set<nat> {
    set key | key in timers && timers[key] in armed :: timers[key]
  }

  function Stopped(s: State): State {
    s.(stopped := true, armed := s.armed - Known(s.timers, s.armed), wg := s.wg - |Known(s.timers, s.armed)|,
       timers := map[], attempts := map[], notes := s.notes + [ClearedAll])
  }

  function Next(s: State, e: Event): State
    requires Enabled(s, e)
  {
    match e
    case Queue(key) => Queued(s, key)
    case Fire(t) =>
      s.(armed := s.armed - {t}, callbacks := s.callbacks[s.nextCallback := Callback(s.keys[t], Started)],
         nextCallback := s.nextCallback + 1)
    case DeleteTimer(c) => InPhase(s.(timers := s.timers - {s.callbacks[c].key}), c, Deleted)
    case Classify(c, pending) =>
      var key := s.callbacks[c].key;
      if !pending then InPhase(s, c, Clearing)
      else
        var n := Attempts(s.attempts, key) + 1;
        var counted := s.(attempts := s.attempts[key := n]);
        if n <= MAX_RETRIES then InPhase(counted.(notes := s.notes + [Allowance(key)]), c, Allowed)
        else InPhase(counted, c, Clearing)
    case SelfQueue(c) =>
      var key := s.callbacks[c].key;
      InPhase(Queued(Requeued(s, key), key), c, Finishing)
    case ClearAttempt(c) =>
      var key := s.callbacks[c].key;
      InPhase(s.(attempts := s.attempts - {key}, notes := s.notes + [Cleared(key)]), c, Finishing)
    case Done(c) => s.(wg := s.wg - 1, callbacks := s.callbacks - {c})
    case Stop => Stopped(s)
  }

  predicate Init(s: State) {
    && !s.stopped && s.timers == map[] && s.armed == {} && s.attempts == map[] && s.wg == 0
    && s.callbacks == map[] && s.notes == []
  }

  // ---- counting --------------------------------------------------------------------------------

  /** Allowances of a key since its attempts were last cleared. */
  function AllowancesSince(notes: seq<Note>, key: string): nat {
    if notes == [] || notes[|notes| - 1] == Cleared(key) || notes[|notes| - 1] == ClearedAll then 0
    else AllowancesSince(notes[..|notes| - 1], key) + (if notes[|notes| - 1] == Allowance(key) then 1 else 0)
  }

  /** Requeues of a key since its attempts were last cleared. */
  function RequeuesSince(notes: seq<Note>, key: string): nat {
    if notes == [] || notes[|notes| - 1] == Cleared(key) || notes[|notes| - 1] == ClearedAll then 0
    else RequeuesSince(notes[..|notes| - 1], key) + (if notes[|notes| - 1] == Requeue(key) then 1 else 0)
  }

  function Count(notes: seq<Note>, note: Note): nat {
    if notes == [] then 0 else Count(notes[..|notes| - 1], note) + (if notes[|notes| - 1] == note then 1 else 0)
  }

  /** Callbacks of a key that have been allowed to requeue and have not yet done so. */
  function AllowedCallbacks(callbacks: map<nat, Callback>, key: string): set<nat> {
    set c | c in callbacks && callbacks[c] == Callback(key, Allowed)
  }

  // ---- the invariant ---------------------------------------------------------------------------

  /** The wait group counts exactly the firings to come and the callbacks under way. */
  predicate Counted(s: State) { s.wg == |s.armed| + |s.callbacks| }

  predicate Numbered(s: State) {
    && (forall key :: key in s.timers ==> s.timers[key] in s.keys && s.keys[s.timers[key]] == key)
    && (forall t :: t in s.armed ==> t in s.keys)
    && (forall t :: t in s.keys ==> t < s.nextTimer && s.keys[t] != "")
    && (forall c :: c in s.callbacks ==> c < s.nextCallback)
    && (s.stopped ==> s.timers == map[])
  }

  /** The allowances since the last clear are within the limit and within the attempts counted. */
  predicate RetryOk(notes: seq<Note>, attempts: map<string, nat>, key: string) {
    AllowancesSince(notes, key) <= MAX_RETRIES && AllowancesSince(notes, key) <= Attempts(attempts, key)
  }

  ghost predicate RetriesBounded(s: State) {
    forall key :: RetryOk(s.notes, s.attempts, key)
  }

  ghost predicate RequeuesAllowed(s: State) {
    forall key :: Balanced(s.notes, s.callbacks, key)
  }

  ghost predicate Inv(s: State) { Counted(s) && Numbered(s) && RetriesBounded(s) && RequeuesAllowed(s) }

  lemma InitHolds(s: State)
    requires Init(s) && s.keys == map[]
    ensures Inv(s)
  {
    forall key ensures AllowedCallbacks(s.callbacks, key) == {} { }
  }

  lemma QueuedKeepsCount(s: State, key: string)
    requires Counted(s) && Numbered(s)
    ensures Counted(Queued(s, key)) && Numbered(Queued(s, key))
  {
    QueuedCounts(s, key);
    QueuedNumbers(s, key);
  }

  lemma QueuedCounts(s: State, key: string)
    requires Counted(s) && Numbered(s)
    ensures Counted(Queued(s, key))
  {
    if key != "" && !s.stopped {
      OneMore(s.armed, if key in s.timers then s.timers[key] else s.nextTimer);
    }
  }

  lemma OneMore(armed: set<nat>, t: nat)
    ensures |armed + {t}| == |armed| + (if t in armed then 0 else 1)
  {
    if t in armed { assert armed + {t} == armed; }
  }

  lemma QueuedNumbers(s: State, key: string)
    requires Numbered(s)
    ensures Numbered(Queued(s, key))
  {
  }

  lemma KnownSplit(timers: map<string, nat>, armed: set<nat>)
    ensures |armed| == |armed - Known(timers, armed)| + |Known(timers, armed)|
  {
    assert Known(timers, armed) <= armed;
    assert armed == (armed - Known(timers, armed)) + Known(timers, armed);
  }

  lemma StopKeepsCount(s: State)
    requires Counted(s) && Numbered(s)
    ensures Counted(Stopped(s)) && Numbered(Stopped(s))
  {
    KnownSplit(s.timers, s.armed);
  }

  lemma FireKeepsCount(s: State, t: nat)
    requires Counted(s) && Numbered(s) && t in s.armed && t in s.keys
    ensures Counted(Next(s, Fire(t))) && Numbered(Next(s, Fire(t)))
  {
    AddedCallback(s.callbacks, s.nextCallback, Callback(s.keys[t], Started));
    assert s.armed == (s.armed - {t}) + {t};
    FireNumbers(s, t);
  }

  lemma AddedCallback(callbacks: map<nat, Callback>, c: nat, callback: Callback)
    requires c !in callbacks
    ensures |callbacks[c := callback]| == |callbacks| + 1
  {
    var more := callbacks[c := callback];
    assert more.Keys == callbacks.Keys + {c};
    assert |more.Keys| == |more| && |callbacks.Keys| == |callbacks|;
  }

  lemma FireNumbers(s: State, t: nat)
    requires Numbered(s) && t in s.armed && t in s.keys
    ensures Numbered(Next(s, Fire(t)))
  {
  }

  lemma DoneKeepsCount(s: State, c: nat)
    requires Counted(s) && Numbered(s) && c in s.callbacks
    ensures var next := s.(wg := s.wg - 1, callbacks := s.callbacks - {c}); Counted(next) && Numbered(next)
  {
    assert s.callbacks.Keys == (s.callbacks - {c}).Keys + {c};
    assert |s.callbacks.Keys| == |s.callbacks| && |(s.callbacks - {c}).Keys| == |s.callbacks - {c}|;
  }

  lemma PhaseKeepsCount(s: State, c: nat, phase: Phase)
    requires Counted(s) && Numbered(s) && c in s.callbacks
    ensures Counted(InPhase(s, c, phase)) && Numbered(InPhase(s, c, phase))
  {
    var next := InPhase(s, c, phase);
    assert next.callbacks.Keys == s.callbacks.Keys;
    assert |next.callbacks.Keys| == |next.callbacks| && |s.callbacks.Keys| == |s.callbacks|;
  }

  lemma StepKeepsCount(s: State, e: Event)
    requires Counted(s) && Numbered(s) && Enabled(s, e)
    ensures Counted(Next(s, e)) && Numbered(Next(s, e))
  {
    match e
    case Queue(key) => QueuedKeepsCount(s, key);
    case Fire(t) => FireKeepsCount(s, t);
    case DeleteTimer(c) => PhaseKeepsCount(s.(timers := s.timers - {s.callbacks[c].key}), c, Deleted);
    case Classify(c, pending) => ClassifyKeepsCount(s, c, pending);
    case SelfQueue(c) =>
      var key := s.callbacks[c].key;
      var noted := Requeued(s, key);
      QueuedKeepsCount(noted, key);
      PhaseKeepsCount(Queued(noted, key), c, Finishing);
    case ClearAttempt(c) =>
      var key := s.callbacks[c].key;
      PhaseKeepsCount(s.(attempts := s.attempts - {key}, notes := s.notes + [Cleared(key)]), c, Finishing);
    case Done(c) => DoneKeepsCount(s, c);
    case Stop => StopKeepsCount(s);
  }

  lemma ClassifyKeepsCount(s: State, c: nat, pending: bool)
    requires Counted(s) && Numbered(s) && Enabled(s, Classify(c, pending))
    ensures Counted(Next(s, Classify(c, pending))) && Numbered(Next(s, Classify(c, pending)))
  {
    var key := s.callbacks[c].key;
    var n := Attempts(s.attempts, key) + 1;
    var counted := s.(attempts := s.attempts[key := n]);
    PhaseKeepsCount(s, c, Clearing);
    PhaseKeepsCount(counted, c, Clearing);
    PhaseKeepsCount(counted.(notes := s.notes + [Allowance(key)]), c, Allowed);
  }

  // ---- retries -----------------------------------------------------------------------------------

  /** A note changes the counts of its own key only. */
  lemma NoteCounts(notes: seq<Note>, n: Note, key: string)
    ensures Count(notes + [n], Requeue(key)) == Count(notes, Requeue(key)) + (if n == Requeue(key) then 1 else 0)
    ensures Count(notes + [n], Allowance(key)) == Count(notes, Allowance(key)) + (if n == Allowance(key) then 1 else 0)
    ensures RequeuesSince(notes + [n], key)
            == if n == Cleared(key) || n == ClearedAll then 0
               else RequeuesSince(notes, key) + (if n == Requeue(key) then 1 else 0)
    ensures AllowancesSince(notes + [n], key)
            == if n == Cleared(key) || n == ClearedAll then 0
               else AllowancesSince(notes, key) + (if n == Allowance(key) then 1 else 0)
  {
    assert (notes + [n])[..|notes|] == notes;
  }

  lemma NoteKeepsRetry(notes: seq<Note>, attempts: map<string, nat>, n: Note, next: map<string, nat>, key: string)
    requires RetryOk(notes, attempts, key)
    requires n != Cleared(key) && n != ClearedAll ==> Attempts(attempts, key) <= Attempts(next, key)
    requires n == Allowance(key) ==> Attempts(attempts, key) < Attempts(next, key) <= MAX_RETRIES
    ensures RetryOk(notes + [n], next, key)
  {
    NoteCounts(notes, n, key);
  }

  lemma StepKeepsRetries(s: State, e: Event)
    requires Enabled(s, e) && RetriesBounded(s)
    ensures RetriesBounded(Next(s, e))
  {
    var next := Next(s, e);
    forall key
      ensures RetryOk(next.notes, next.attempts, key)
    {
      assert RetryOk(s.notes, s.attempts, key);
      StepKeepsRetry(s, e, key);
    }
  }

  lemma StepKeepsRetry(s: State, e: Event, key: string)
    requires Enabled(s, e) && RetryOk(s.notes, s.attempts, key)
    ensures RetryOk(Next(s, e).notes, Next(s, e).attempts, key)
  {
    var next := Next(s, e);
    if next.notes == s.notes {
      assert Attempts(s.attempts, key) <= Attempts(next.attempts, key);
    } else {
      var n := next.notes[|s.notes|];
      assert next.notes == s.notes + [n];
      NoteKeepsRetry(s.notes, s.attempts, n, next.attempts, key);
    }
  }

  /** Callbacks allowed to requeue, when one callback changes or is added. */
  lemma AllowedAfter(callbacks: map<nat, Callback>, c: nat, next: Callback, key: string)
    ensures AllowedCallbacks(callbacks[c := next], key)
            == AllowedCallbacks(callbacks, key) - {c} + (if next == Callback(key, Allowed) then {c} else {})
  {
  }

  lemma StepKeepsRequeues(s: State, e: Event)
    requires Numbered(s) && Enabled(s, e) && RequeuesAllowed(s)
    ensures RequeuesAllowed(Next(s, e))
  {
    var next := Next(s, e);
    forall key
      ensures Balanced(next.notes, next.callbacks, key)
    {
      assert Balanced(s.notes, s.callbacks, key);
      StepKeepsRequeuesOf(s, e, key);
    }
  }

  /** Every requeue made or still to be made has its allowance. */
  predicate Balanced(notes: seq<Note>, callbacks: map<nat, Callback>, key: string) {
    Count(notes, Requeue(key)) + |AllowedCallbacks(callbacks, key)| <= Count(notes, Allowance(key))
  }

  lemma AllowKeepsBalance(notes: seq<Note>, callbacks: map<nat, Callback>, c: nat, owner: string, key: string)
    requires Balanced(notes, callbacks, key) && c in callbacks && callbacks[c] == Callback(owner, Deleted)
    ensures Balanced(notes + [Allowance(owner)], callbacks[c := Callback(owner, Allowed)], key)
  {
    NoteCounts(notes, Allowance(owner), key);
    AllowedAfter(callbacks, c, Callback(owner, Allowed), key);
    assert AllowedCallbacks(callbacks, key) - {c} == AllowedCallbacks(callbacks, key);
  }

  lemma RequeueKeepsBalance(notes: seq<Note>, callbacks: map<nat, Callback>, c: nat, owner: string, key: string)
    requires Balanced(notes, callbacks, key) && c in callbacks && callbacks[c] == Callback(owner, Allowed)
    ensures Balanced(notes + [Requeue(owner)], callbacks[c := Callback(owner, Finishing)], key)
    ensures Balanced(notes, callbacks[c := Callback(owner, Finishing)], key)
  {
    NoteCounts(notes, Requeue(owner), key);
    AllowedAfter(callbacks, c, Callback(owner, Finishing), key);
    if owner == key {
      assert AllowedCallbacks(callbacks, key) == (AllowedCallbacks(callbacks, key) - {c}) + {c};
    } else {
      assert AllowedCallbacks(callbacks, key) - {c} == AllowedCallbacks(callbacks, key);
    }
  }

  lemma MoveKeepsBalance(notes: seq<Note>, callbacks: map<nat, Callback>, c: nat, next: Callback, key: string)
    requires Balanced(notes, callbacks, key) && next.phase != Allowed
    requires c in callbacks ==> callbacks[c].phase != Allowed
    ensures Balanced(notes, callbacks[c := next], key)
    ensures forall cleared: Note :: cleared.Cleared? || cleared.ClearedAll? ==>
              Balanced(notes + [cleared], callbacks, key) && Balanced(notes + [cleared], callbacks[c := next], key)
    ensures Balanced(notes, callbacks - {c}, key)
  {
    AllowedAfter(callbacks, c, next, key);
    assert AllowedCallbacks(callbacks, key) - {c} == AllowedCallbacks(callbacks, key);
    assert AllowedCallbacks(callbacks - {c}, key) == AllowedCallbacks(callbacks, key);
    forall cleared: Note | cleared.Cleared? || cleared.ClearedAll?
      ensures Balanced(notes + [cleared], callbacks, key) && Balanced(notes + [cleared], callbacks[c := next], key)
    {
      NoteCounts(notes, cleared, key);
    }
  }

  lemma StepKeepsRequeuesOf(s: State, e: Event, key: string)
    requires Numbered(s) && Enabled(s, e) && Balanced(s.notes, s.callbacks, key)
    ensures Balanced(Next(s, e).notes, Next(s, e).callbacks, key)
  {
    match e
    case Queue(_) =>
    case Fire(t) => MoveKeepsBalance(s.notes, s.callbacks, s.nextCallback, Callback(s.keys[t], Started), key);
    case DeleteTimer(c) => MoveKeepsBalance(s.notes, s.callbacks, c, Callback(s.callbacks[c].key, Deleted), key);
    case Classify(c, pending) =>
      AllowKeepsBalance(s.notes, s.callbacks, c, s.callbacks[c].key, key);
      MoveKeepsBalance(s.notes, s.callbacks, c, Callback(s.callbacks[c].key, Clearing), key);
    case SelfQueue(c) => RequeueKeepsBalance(s.notes, s.callbacks, c, s.callbacks[c].key, key);
    case ClearAttempt(c) => MoveKeepsBalance(s.notes, s.callbacks, c, Callback(s.callbacks[c].key, Finishing), key);
    case Done(c) => MoveKeepsBalance(s.notes, s.callbacks, c, Callback(s.callbacks[c].key, Finishing), key);
    case Stop => MoveKeepsBalance(s.notes, s.callbacks, s.nextCallback, Callback(key, Started), key);
  }

  lemma StepKeepsInvariant(s: State, e: Event)
    requires Inv(s) && Enabled(s, e)
    ensures Inv(Next(s, e))
  {
    StepKeepsCount(s, e);
    StepKeepsRetries(s, e);
    StepKeepsRequeues(s, e);
  }

  // ---- every run -----------------------------------------------------------------------------------

  predicate Runs(s: State, es: seq<Event>)
    decreases |es|
  {
    es == [] || (Enabled(s, es[0]) && Runs(Next(s, es[0]), es[1..]))
  }

  function After(s: State, es: seq<Event>): State
    requires Runs(s, es)
    decreases |es|
  {
    if es == [] then s else After(Next(s, es[0]), es[1..])
  }

  lemma {:induction false} RunKeepsInvariant(s: State, es: seq<Event>)
    requires Inv(s) && Runs(s, es)
    ensures Inv(After(s, es))
    decreases |es|
  {
    if es != [] {
      StepKeepsInvariant(s, es[0]);
      RunKeepsInvariant(Next(s, es[0]), es[1..]);
    }
  }

  /**
   * In every run the wait group equals the firings to come plus the callbacks under way,
   * so it is never negative, and it is zero, letting Stop return, only when neither is left.
   */
  lemma WaitGroupIsExact(s: State, es: seq<Event>)
    requires Init(s) && s.keys == map[] && Runs(s, es)
    ensures var t := After(s, es);
            && t.wg == |t.armed| + |t.callbacks| && t.wg >= 0
            && (t.wg == 0 <==> t.armed == {} && t.callbacks == map[])
  {
    InitHolds(s);
    RunKeepsInvariant(s, es);
    var t := After(s, es);
    assert |t.callbacks| == 0 <==> t.callbacks == map[];
  }

  /** Once Stop has returned nothing is scheduled or runs ever again. */
  lemma {:induction false} QuietAfterStop(s: State, es: seq<Event>)
    requires s.stopped && s.armed == {} && s.callbacks == map[] && Runs(s, es)
    ensures var t := After(s, es); t.stopped && t.armed == {} && t.callbacks == map[]
    ensures forall i :: 0 <= i < |es| ==> es[i].Queue? || es[i].Stop?
    decreases |es|
  {
    if es != [] { QuietAfterStop(Next(s, es[0]), es[1..]); }
  }

  /**
   * Self-requeues are rationed: each uses up an allowance, and between two clears of a
   * group's attempts at most three are given, however its callbacks overlap.
   */
  lemma RequeuesAreRationed(s: State, es: seq<Event>, key: string)
    requires Init(s) && s.keys == map[] && Runs(s, es)
    ensures var t := After(s, es);
            && AllowancesSince(t.notes, key) <= MAX_RETRIES
            && Count(t.notes, Requeue(key)) <= Count(t.notes, Allowance(key))
  {
    InitHolds(s);
    RunKeepsInvariant(s, es);
    var t := After(s, es);
    assert RetryOk(t.notes, t.attempts, key) && Balanced(t.notes, t.callbacks, key);
  }

  // ---- requeues in a row -----------------------------------------------------------------------------

  /** The step does not clear the attempts of a group while one of its callbacks is about to requeue. */
  predicate Calm(s: State, e: Event, key: string)
    requires Enabled(s, e)
  {
    e.ClearAttempt? && !s.stopped && s.callbacks[e.callback].key == key ==> AllowedCallbacks(s.callbacks, key) == {}
  }

  predicate CalmRuns(s: State, es: seq<Event>, key: string)
    requires Runs(s, es)
    decreases |es|
  {
    es == [] || (Calm(s, es[0], key) && CalmRuns(Next(s, es[0]), es[1..], key))
  }

  /** Since the last clear each allowance was used for a requeue or is about to be. */
  predicate Spent(stopped: bool, notes: seq<Note>, callbacks: map<nat, Callback>, key: string) {
    if stopped then RequeuesSince(notes, key) == 0
    else RequeuesSince(notes, key) + |AllowedCallbacks(callbacks, key)| == AllowancesSince(notes, key)
  }

  lemma AllowKeepsSpent(stopped: bool, notes: seq<Note>, callbacks: map<nat, Callback>, c: nat, owner: string,
                        key: string)
    requires Spent(stopped, notes, callbacks, key) && c in callbacks && callbacks[c] == Callback(owner, Deleted)
    ensures Spent(stopped, notes + [Allowance(owner)], callbacks[c := Callback(owner, Allowed)], key)
  {
    NoteCounts(notes, Allowance(owner), key);
    AllowedAfter(callbacks, c, Callback(owner, Allowed), key);
    assert AllowedCallbacks(callbacks, key) - {c} == AllowedCallbacks(callbacks, key);
  }

  lemma RequeueKeepsSpent(stopped: bool, notes: seq<Note>, callbacks: map<nat, Callback>, c: nat, owner: string,
                          key: string)
    requires Spent(stopped, notes, callbacks, key) && c in callbacks && callbacks[c] == Callback(owner, Allowed)
    ensures Spent(stopped, if stopped then notes else notes + [Requeue(owner)],
                  callbacks[c := Callback(owner, Finishing)], key)
  {
    NoteCounts(notes, Requeue(owner), key);
    AllowedAfter(callbacks, c, Callback(owner, Finishing), key);
    if owner == key {
      assert AllowedCallbacks(callbacks, key) == (AllowedCallbacks(callbacks, key) - {c}) + {c};
    } else {
      assert AllowedCallbacks(callbacks, key) - {c} == AllowedCallbacks(callbacks, key);
    }
  }

  lemma MoveKeepsSpent(stopped: bool, notes: seq<Note>, callbacks: map<nat, Callback>, c: nat, next: Callback,
                       key: string)
    requires Spent(stopped, notes, callbacks, key) && next.phase != Allowed
    requires c in callbacks ==> callbacks[c].phase != Allowed
    ensures Spent(stopped, notes, callbacks[c := next], key) && Spent(stopped, notes, callbacks - {c}, key)
  {
    AllowedAfter(callbacks, c, next, key);
    assert AllowedCallbacks(callbacks, key) - {c} == AllowedCallbacks(callbacks, key);
    assert AllowedCallbacks(callbacks - {c}, key) == AllowedCallbacks(callbacks, key);
  }

  /** A clear starts both counts again, so nobody may be about to requeue on the old one. */
  lemma ClearKeepsSpent(stopped: bool, notes: seq<Note>, callbacks: map<nat, Callback>, c: nat, key: string)
    requires Spent(stopped, notes, callbacks, key) && c in callbacks && callbacks[c].phase == Clearing
    requires !stopped && callbacks[c].key == key ==> AllowedCallbacks(callbacks, key) == {}
    ensures Spent(stopped, notes + [Cleared(callbacks[c].key)],
                  callbacks[c := Callback(callbacks[c].key, Finishing)], key)
  {
    NoteCounts(notes, Cleared(callbacks[c].key), key);
    AllowedAfter(callbacks, c, Callback(callbacks[c].key, Finishing), key);
    assert AllowedCallbacks(callbacks, key) - {c} == AllowedCallbacks(callbacks, key);
  }

  lemma StepKeepsSpent(s: State, e: Event, key: string)
    requires Numbered(s) && Enabled(s, e) && Calm(s, e, key)
    requires Spent(s.stopped, s.notes, s.callbacks, key)
    ensures Spent(Next(s, e).stopped, Next(s, e).notes, Next(s, e).callbacks, key)
  {
    match e
    case Queue(_) =>
    case Fire(t) =>
      MoveKeepsSpent(s.stopped, s.notes, s.callbacks, s.nextCallback, Callback(s.keys[t], Started), key);
    case DeleteTimer(c) =>
      MoveKeepsSpent(s.stopped, s.notes, s.callbacks, c, Callback(s.callbacks[c].key, Deleted), key);
    case Classify(c, pending) =>
      AllowKeepsSpent(s.stopped, s.notes, s.callbacks, c, s.callbacks[c].key, key);
      MoveKeepsSpent(s.stopped, s.notes, s.callbacks, c, Callback(s.callbacks[c].key, Clearing), key);
    case SelfQueue(c) => RequeueKeepsSpent(s.stopped, s.notes, s.callbacks, c, s.callbacks[c].key, key);
    case ClearAttempt(c) => ClearKeepsSpent(s.stopped, s.notes, s.callbacks, c, key);
    case Done(c) =>
      MoveKeepsSpent(s.stopped, s.notes, s.callbacks, c, Callback(s.callbacks[c].key, Finishing), key);
    case Stop => NoteCounts(s.notes, ClearedAll, key);
  }

  lemma {:induction false} CalmRunKeepsSpent(s: State, es: seq<Event>, key: string)
    requires Inv(s) && Runs(s, es) && CalmRuns(s, es, key) && Spent(s.stopped, s.notes, s.callbacks, key)
    ensures var t := After(s, es); Inv(t) && Spent(t.stopped, t.notes, t.callbacks, key)
    decreases |es|
  {
    if es != [] {
      StepKeepsInvariant(s, es[0]);
      StepKeepsSpent(s, es[0], key);
      CalmRunKeepsSpent(Next(s, es[0]), es[1..], key);
    }
  }

  /**
   * As long as a group's attempts are never cleared while one of its callbacks is about to
   * requeue, the group requeues itself at most three times in a row.
   */
  lemma CalmRunBoundsRequeues(s: State, es: seq<Event>, key: string)
    requires Init(s) && s.keys == map[] && Runs(s, es) && CalmRuns(s, es, key)
    ensures RequeuesSince(After(s, es).notes, key) <= MAX_RETRIES
  {
    InitHolds(s);
    assert AllowedCallbacks(s.callbacks, key) == {};
    CalmRunKeepsSpent(s, es, key);
    assert RetryOk(After(s, es).notes, After(s, es).attempts, key);
  }

  // ---- and otherwise it can be four ----------------------------------------------------------------------

  lemma {:induction false} OneMoreStep(s: State, es: seq<Event>, e: Event)
    requires Runs(s, es) && Enabled(After(s, es), e)
    ensures Runs(s, es + [e]) && After(s, es + [e]) == Next(After(s, es), e)
    decreases |es|
  {
    if es == [] {
      assert es + [e] == [e];
      assert Runs(Next(s, e), [e][1..]);
    } else {
      assert (es + [e])[1..] == es[1..] + [e];
      OneMoreStep(Next(s, es[0]), es[1..], e);
    }
  }

  lemma Extend(s: State, es: seq<Event>, e: Event)
    requires Runs(s, es) && Inv(After(s, es)) && Enabled(After(s, es), e)
    ensures Runs(s, es + [e]) && After(s, es + [e]) == Next(After(s, es), e) && Inv(After(s, es + [e]))
  {
    OneMoreStep(s, es, e);
    StepKeepsInvariant(After(s, es), e);
  }

  /** Nothing of a group's bookkeeping changed but the callbacks. */
  predicate SameBooks(s: State, t: State) {
    t.stopped == s.stopped && t.notes == s.notes && t.attempts == s.attempts
  }

  lemma QueueEffect(s: State, key: string)
    requires Numbered(s) && !s.stopped && key != ""
    ensures var t := Next(s, Queue(key));
            && SameBooks(s, t) && t.callbacks == s.callbacks && t.nextCallback == s.nextCallback
            && key in t.timers && t.timers[key] in t.armed && t.timers[key] in t.keys && t.keys[t.timers[key]] == key
  {
  }

  lemma FireEffect(s: State, timer: nat)
    requires timer in s.armed && timer in s.keys
    ensures var t := Next(s, Fire(timer));
            SameBooks(s, t) && t.callbacks == s.callbacks[s.nextCallback := Callback(s.keys[timer], Started)]
  {
  }

  lemma DeleteEffect(s: State, c: nat, key: string)
    requires c in s.callbacks && s.callbacks[c] == Callback(key, Started)
    ensures var t := Next(s, DeleteTimer(c));
            SameBooks(s, t) && t.callbacks == s.callbacks[c := Callback(key, Deleted)]
  {
  }

  /** The timer of the key is armed and fires. */
  lemma CallbackStarts(s: State, es: seq<Event>, key: string) returns (more: seq<Event>)
    requires Runs(s, es) && Inv(After(s, es)) && !After(s, es).stopped && key != ""
    ensures Runs(s, more) && Inv(After(s, more)) && SameBooks(After(s, es), After(s, more))
    ensures var t := After(s, es); After(s, more).callbacks == t.callbacks[t.nextCallback := Callback(key, Started)]
  {
    QueueEffect(After(s, es), key);
    Extend(s, es, Queue(key));
    var queued := es + [Queue(key)];
    var timer := After(s, queued).timers[key];
    FireEffect(After(s, queued), timer);
    Extend(s, queued, Fire(timer));
    more := queued + [Fire(timer)];
  }

  /** One more callback of the key has deleted its timer and is about to classify. */
  lemma CallbackArrives(s: State, es: seq<Event>, key: string) returns (more: seq<Event>)
    requires Runs(s, es) && Inv(After(s, es)) && !After(s, es).stopped && key != ""
    ensures Runs(s, more) && Inv(After(s, more)) && SameBooks(After(s, es), After(s, more))
    ensures var t := After(s, es); After(s, more).callbacks == t.callbacks[t.nextCallback := Callback(key, Deleted)]
  {
    var started := CallbackStarts(s, es, key);
    var c := After(s, es).nextCallback;
    DeleteEffect(After(s, started), c, key);
    Extend(s, started, DeleteTimer(c));
    more := started + [DeleteTimer(c)];
  }

  /** A callback that arrives is not about to requeue yet. */
  lemma ArrivalAllowsNothing(callbacks: map<nat, Callback>, c: nat, phase: Phase, key: string)
    requires c !in callbacks && phase != Allowed
    ensures AllowedCallbacks(callbacks[c := Callback(key, phase)], key) == AllowedCallbacks(callbacks, key)
  {
    AllowedAfter(callbacks, c, Callback(key, phase), key);
  }

  lemma ClassifyEffect(s: State, c: nat, key: string)
    requires c in s.callbacks && s.callbacks[c] == Callback(key, Deleted)
    requires Attempts(s.attempts, key) < MAX_RETRIES
    ensures var t := Next(s, Classify(c, true));
            && t.stopped == s.stopped
            && Attempts(t.attempts, key) == Attempts(s.attempts, key) + 1
            && RequeuesSince(t.notes, key) == RequeuesSince(s.notes, key)
            && |AllowedCallbacks(t.callbacks, key)| == |AllowedCallbacks(s.callbacks, key)| + 1
  {
    AllowedAfter(s.callbacks, c, Callback(key, Allowed), key);
    assert AllowedCallbacks(s.callbacks, key) - {c} == AllowedCallbacks(s.callbacks, key);
    NoteCounts(s.notes, Allowance(key), key);
  }

  /** Another callback of the group finds it pending and is allowed to requeue. */
  lemma OneMoreAllowed(s: State, es: seq<Event>, key: string) returns (more: seq<Event>)
    requires Runs(s, es) && Inv(After(s, es)) && !After(s, es).stopped && key != ""
    requires Attempts(After(s, es).attempts, key) < MAX_RETRIES
    ensures Runs(s, more) && Inv(After(s, more)) && !After(s, more).stopped
    ensures var t := After(s, es);
            var u := After(s, more);
            && Attempts(u.attempts, key) == Attempts(t.attempts, key) + 1
            && RequeuesSince(u.notes, key) == RequeuesSince(t.notes, key)
            && |AllowedCallbacks(u.callbacks, key)| == |AllowedCallbacks(t.callbacks, key)| + 1
  {
    var t := After(s, es);
    var arrived := CallbackArrives(s, es, key);
    ArrivalAllowsNothing(t.callbacks, t.nextCallback, Deleted, key);
    ClassifyEffect(After(s, arrived), t.nextCallback, key);
    Extend(s, arrived, Classify(t.nextCallback, true));
    more := arrived + [Classify(t.nextCallback, true)];
  }

  lemma QueuedKeepsBooks(s: State, key: string)
    ensures SameBooks(s, Queued(s, key)) && Queued(s, key).callbacks == s.callbacks
  {
  }

  lemma SelfQueueEffect(s: State, c: nat, key: string)
    requires c in AllowedCallbacks(s.callbacks, key) && !s.stopped
    ensures var t := Next(s, SelfQueue(c));
            && !t.stopped
            && RequeuesSince(t.notes, key) == RequeuesSince(s.notes, key) + 1
            && |AllowedCallbacks(t.callbacks, key)| == |AllowedCallbacks(s.callbacks, key)| - 1
  {
    QueuedKeepsBooks(Requeued(s, key), key);
    AllowedAfter(s.callbacks, c, Callback(key, Finishing), key);
    assert AllowedCallbacks(s.callbacks, key) == (AllowedCallbacks(s.callbacks, key) - {c}) + {c};
    NoteCounts(s.notes, Requeue(key), key);
  }

  /** All callbacks that are allowed to requeue do so. */
  lemma {:induction false} AllRequeue(s: State, es: seq<Event>, key: string) returns (more: seq<Event>)
    requires Runs(s, es) && !After(s, es).stopped
    ensures Runs(s, more)
    ensures var t := After(s, es);
            RequeuesSince(After(s, more).notes, key)
            == RequeuesSince(t.notes, key) + |AllowedCallbacks(t.callbacks, key)|
    decreases |AllowedCallbacks(After(s, es).callbacks, key)|
  {
    var allowed := AllowedCallbacks(After(s, es).callbacks, key);
    if allowed == {} {
      more := es;
    } else {
      var c :| c in allowed;
      SelfQueueEffect(After(s, es), c, key);
      OneMoreStep(s, es, SelfQueue(c));
      more := AllRequeue(s, es + [SelfQueue(c)], key);
    }
  }

  /** From a cleared count with somebody about to requeue, the group can requeue four times. */
  lemma ClearedRunOverflows(s: State, es: seq<Event>, key: string) returns (more: seq<Event>)
    requires Runs(s, es) && Inv(After(s, es)) && !After(s, es).stopped && key != ""
    requires Attempts(After(s, es).attempts, key) == 0 && AllowedCallbacks(After(s, es).callbacks, key) != {}
    ensures Runs(s, more) && RequeuesSince(After(s, more).notes, key) > MAX_RETRIES
  {
    assert |AllowedCallbacks(After(s, es).callbacks, key)| >= 1;
    more := OneMoreAllowed(s, es, key);
    more := OneMoreAllowed(s, more, key);
    more := OneMoreAllowed(s, more, key);
    more := AllRequeue(s, more, key);
  }

  /**
   * The condition is exact: after any run, a clear that is not calm lets the group go on to
   * requeue itself more than three times in a row.
   */
  lemma UncalmClearOverflows(s: State, es: seq<Event>, c: nat, key: string) returns (more: seq<Event>)
    requires Init(s) && s.keys == map[] && Runs(s, es) && key != ""
    requires Enabled(After(s, es), ClearAttempt(c)) && !Calm(After(s, es), ClearAttempt(c), key)
    ensures Runs(s, es + [ClearAttempt(c)] + more)
    ensures RequeuesSince(After(s, es + [ClearAttempt(c)] + more).notes, key) > MAX_RETRIES
  {
    InitHolds(s);
    RunKeepsInvariant(s, es);
    var t := After(s, es);
    var cleared := es + [ClearAttempt(c)];
    OneMoreStep(s, es, ClearAttempt(c));
    StepKeepsInvariant(t, ClearAttempt(c));
    var u := After(s, cleared);
    AllowedAfter(t.callbacks, c, Callback(key, Finishing), key);
    assert AllowedCallbacks(t.callbacks, key) - {c} == AllowedCallbacks(t.callbacks, key);
    more := ClearedRunOverflows(u, [], key);
    RunsConcat(s, cleared, more);
  }

  lemma {:induction false} RunsConcat(s: State, es: seq<Event>, more: seq<Event>)
    requires Runs(s, es) && Runs(After(s, es), more)
    ensures Runs(s, es + more) && After(s, es + more) == After(After(s, es), more)
    decreases |es|
  {
    if es == [] {
      assert es + more == more;
    } else {
      assert (es + more)[1..] == es[1..] + more;
      RunsConcat(Next(s, es[0]), es[1..], more);
    }
  }

  /** Two callbacks of one group: the first is about to requeue, the second found nothing pending. */
  lemma OneAllowedOneClearing(s: State, key: string) returns (es: seq<Event>, c: nat)
    requires Init(s) && s.keys == map[] && key != ""
    ensures Runs(s, es) && Enabled(After(s, es), ClearAttempt(c)) && !Calm(After(s, es), ClearAttempt(c), key)
  {
    InitHolds(s);
    var first := OneMoreAllowed(s, [], key);
    var t := After(s, first);
    var second := CallbackArrives(s, first, key);
    c := t.nextCallback;
    OneMoreStep(s, second, Classify(c, false));
    es := second + [Classify(c, false)];
    assert After(s, es).callbacks == t.callbacks[c := Callback(key, Clearing)];
    ArrivalAllowsNothing(t.callbacks, c, Clearing, key);
    assert |AllowedCallbacks(t.callbacks, key)| > 0;
  }

  /** Such a run exists for every group. */
  lemma FourRequeuesInARow(s: State, key: string) returns (es: seq<Event>)
    requires Init(s) && s.keys == map[] && key != ""
    ensures Runs(s, es) && RequeuesSince(After(s, es).notes, key) > MAX_RETRIES
  {
    var clearing, c := OneAllowedOneClearing(s, key);
    var rest := UncalmClearOverflows(s, clearing, c, key);
    es := clearing + [ClearAttempt(c)] + rest;
  }

  // ---- what Stop leaves armed ----------------------------------------------------------------------------

  /** Every timer that is due is the one its key finds in the map. */
  predicate DueAreKnown(s: State) {
    forall t :: t in s.armed ==> t in s.keys && s.keys[t] in s.timers && s.timers[s.keys[t]] == t
  }

  /** Stop cancels every firing to come exactly when every due timer is still in the map. */
  lemma StopCancelsAllIff(s: State, es: seq<Event>)
    requires Init(s) && s.keys == map[] && Runs(s, es)
    ensures Stopped(After(s, es)).armed == {} <==> DueAreKnown(After(s, es))
  {
    InitHolds(s);
    RunKeepsInvariant(s, es);
    var t := After(s, es);
    if DueAreKnown(t) {
      forall timer | timer in t.armed
        ensures timer in Known(t.timers, t.armed)
      {
        assert t.keys[timer] in t.timers;
      }
    }
    if t.armed - Known(t.timers, t.armed) == {} {
      forall timer | timer in t.armed
        ensures timer in t.keys && t.keys[timer] in t.timers && t.timers[t.keys[timer]] == timer
      {
        assert timer in Known(t.timers, t.armed);
      }
    }
  }

  /**
   * A callback that starts late forgets the timer that was armed again meanwhile: Stop
   * does not cancel that firing, and still waits for it.
   */
  lemma RearmedTimerOutlivesStop(s: State, key: string) returns (es: seq<Event>)
    requires Init(s) && s.keys == map[] && key != ""
    ensures Runs(s, es)
    ensures var t := After(s, es); !DueAreKnown(t) && Stopped(t).armed != {} && Stopped(t).wg > 0
  {
    var timer, c := s.nextTimer, s.nextCallback;
    es := [];
    assert After(s, es) == s;
    OneMoreStep(s, es, Queue(key));
    es := es + [Queue(key)];
    OneMoreStep(s, es, Fire(timer));
    es := es + [Fire(timer)];
    OneMoreStep(s, es, Queue(key));
    es := es + [Queue(key)];
    OneMoreStep(s, es, DeleteTimer(c));
    es := es + [DeleteTimer(c)];
    var t := After(s, es);
    assert t.armed == {timer} && key !in t.timers && t.keys[timer] == key;
    WaitGroupIsExact(s, es);
    OneMoreStep(s, es, Stop);
    WaitGroupIsExact(s, es + [Stop]);
    StopCancelsAllIff(s, es);
  }

  // ---- the object --------------------------------------------------------------------------------------

  class GroupNamer {
    var stopped: bool
    var timers: map<string, nat>
    var keys: map<nat, string>
    var armed: set<nat>
    var attempts: map<string, nat>
    var wg: int
    var callbacks: map<nat, Callback>
    var nextTimer: nat
    var nextCallback: nat
    ghost var notes: seq<Note>

    ghost function Now(): State
      reads this
    {
      State(stopped, timers, keys, armed, attempts, wg, callbacks, nextTimer, nextCallback, notes)
    }

    constructor ()
      ensures Init(Now()) && keys == map[]
    {
      stopped, timers, keys, armed, attempts := false, map[], map[], {}, map[];
      wg, callbacks, nextTimer, nextCallback, notes := 0, map[], 0, 0, [];
    }

    /** Reset reports whether the timer was still due; if not, the new firing is counted. */
    method ResetTimer(t: nat) returns (due: bool)
      modifies `armed
      ensures due <==> t in old(armed)
      ensures armed == old(armed) + {t}
    {
      due := t in armed;
      armed := armed + {t};
    }

    method QueueKey(key: string)
      modifies this
      ensures Now() == Queued(old(Now()), key)
    {
      if key == "" { return; }
      if stopped { return; }
      if key in timers {
        var due := ResetTimer(timers[key]);
        if !due { wg := wg + 1; }
        return;
      }
      wg := wg + 1;
      timers := timers[key := nextTimer];
      keys := keys[nextTimer := key];
      armed := armed + {nextTimer};
      nextTimer := nextTimer + 1;
    }

    /** Every timer the map knows is cancelled, and uncounted if it was still due. */
    method CancelDue()
      modifies `timers, `armed, `wg
      ensures timers == map[] && armed == old(armed) - TimersOf(old(timers), old(timers).Keys)
      ensures wg == old(wg) - (|old(armed)| - |armed|)
    {
      ghost var was := timers;
      var left := timers.Keys;
      while left != {}
        invariant timers.Keys == left && left <= was.Keys
        invariant forall key :: key in left ==> timers[key] == was[key]
        invariant armed == old(armed) - TimersOf(was, was.Keys - left)
        invariant wg == old(wg) - (|old(armed)| - |armed|)
        decreases left
      {
        var key :| key in left;
        MoreTimers(was, left, key);
        CancelOne(key);
        left := left - {key};
      }
      assert was.Keys - left == was.Keys;
    }

    /** timer.Stop reports whether the firing was still to come. */
    method CancelOne(key: string)
      requires key in timers
      modifies `timers, `armed, `wg
      ensures timers == old(timers) - {key} && armed == old(armed) - {old(timers)[key]}
      ensures wg == old(wg) - (|old(armed)| - |armed|)
    {
      var t := timers[key];
      if t in armed {
        OneLess(armed, t);
        armed := armed - {t};
        wg := wg - 1;
      }
      timers := timers - {key};
    }

    method CancelKnown()
      modifies `timers, `armed, `wg
      ensures timers == map[] && armed == old(armed) - Known(old(timers), old(armed))
      ensures wg == old(wg) - |Known(old(timers), old(armed))|
    {
      KnownAreTheDue(timers, armed);
      CancelDue();
    }

    /** The locked part of Stop. */
    method CancelTimers()
      modifies this
      ensures Now() == Stopped(old(Now()))
    {
      stopped := true;
      CancelKnown();
      attempts := map[];
      notes := notes + [ClearedAll];
    }
  }

  function TimersOf(timers: map<string, nat>, of: set<string>): set<nat> {
    set key | key in of && key in timers :: timers[key]
  }

  lemma OneLess(armed: set<nat>, t: nat)
    requires t in armed
    ensures |armed - {t}| == |armed| - 1
  {
    assert armed == (armed - {t}) + {t};
  }

  lemma MoreTimers(timers: map<string, nat>, left: set<string>, key: string)
    requires key in left && left <= timers.Keys
    ensures TimersOf(timers, timers.Keys - (left - {key})) == TimersOf(timers, timers.Keys - left) + {timers[key]}
  {
    var more := timers.Keys - (left - {key});
    assert key in more;
    forall t | t in TimersOf(timers, timers.Keys - left) + {timers[key]}
      ensures t in TimersOf(timers, more)
    {
      if t in TimersOf(timers, timers.Keys - left) {
        var k :| k in timers.Keys - left && k in timers && timers[k] == t;
        assert k in more;
      }
    }
  }

  lemma KnownAreTheDue(timers: map<string, nat>, armed: set<nat>)
    ensures armed - TimersOf(timers, timers.Keys) == armed - Known(timers, armed)
    ensures |armed| - |armed - Known(timers, armed)| == |Known(timers, armed)|
  {
    forall t | t in armed
      ensures t in TimersOf(timers, timers.Keys) <==> t in Known(timers, armed)
    {
    }
    assert Known(timers, armed) <= armed;
    assert armed == (armed - Known(timers, armed)) + Known(timers, armed);
  }
}
