/** Permit conservation: the counters are exactly the dispatches that hold them. */
module DispatchPermits {
  import opened Prelude
  import opened Idempotency
  import opened Dispatch

  function Holders(dispatches: map<nat, Dispatched>, p: Permit): set<nat> {
    set pid | pid in dispatches && Holds(dispatches[pid], p)
  }

  predicate Conserved(s: State, p: Permit) {
    Count(s.permits, p) == |Holders(s.dispatches, p)| <= Limit(p)
  }

  /** What one dispatch holds of a permit: one unit or none. */
  function Unit(dispatches: map<nat, Dispatched>, pid: nat, p: Permit): nat {
    if pid in dispatches && Holds(dispatches[pid], p) then 1 else 0
  }

  /** The dispatch an event moves; clock, connections and cache-wide events move none. */
  function Mover(e: Event): Option<nat> {
    match e
    case Tick(_) => None
    case OpenConn(_) => None
    case CloseConn(_) => None
    case ClearAll => None
    case RetireGeneration(_) => None
    case CloseRetired(_) => None
    case _ => Some(e.pid)
  }

  /** The moving dispatch gains or gives back what the counter gains or loses, within the limit. */
  predicate Moves(s: State, t: State, pid: nat, p: Permit) {
    && pid in t.dispatches
    && t.dispatches == s.dispatches[pid := t.dispatches[pid]]
    && Count(t.permits, p) == Count(s.permits, p) + Unit(t.dispatches, pid, p) - Unit(s.dispatches, pid, p)
    && (Count(t.permits, p) > Count(s.permits, p) ==> Available(s, p))
  }

  predicate TouchesCounter(e: Event) {
    e.AcquireConn? || e.AcquireGate? || e.GateBusy? || e.DropGate? || e.DropConn?
    || e.RefusedDropsGate? || e.RefusedDropsConn? || e.ReleaseConn? || e.ReleaseGate?
  }

  predicate TouchesCache(e: Event) {
    e.Look? || e.Register? || e.RefusedAbandons? || e.Settle? || e.LatePanic?
  }

  function One(b: bool): int { if b then 1 else 0 }

  /** A step that changes one counter and what its dispatch holds of it alike. */
  lemma CountedStep(s: State, pid: nat, stage: Stage, conn: bool, delta: int, p: Permit)
    requires pid in s.dispatches
    requires var from := s.dispatches[pid].stage;
             && One(HoldsConn(stage)) - One(HoldsConn(from)) == (if conn then delta else 0)
             && One(HoldsGate(stage)) - One(HoldsGate(from)) == (if conn then 0 else delta)
    requires delta > 0 ==> Available(s, CounterOf(s.dispatches[pid], conn))
    ensures Moves(s, Go(s, pid, stage).(permits := Add(s.permits, CounterOf(s.dispatches[pid], conn), delta)), pid, p)
  {
  }

  lemma AcquireMoves(s: State, e: Event, p: Permit)
    requires Enabled(s, e) && (e.AcquireConn? || e.AcquireGate? || e.GateBusy?)
    ensures Moves(s, Next(s, e), e.pid, p)
  {
    match e
    case AcquireConn(pid) => CountedStep(s, pid, WantsGate, true, 1, p);
    case AcquireGate(pid) => CountedStep(s, pid, WantsBegin, false, 1, p);
    case GateBusy(pid) => CountedStep(s, pid, Finished, true, -1, p);
  }

  lemma DropMoves(s: State, e: Event, p: Permit)
    requires Enabled(s, e) && (e.DropGate? || e.DropConn?)
    ensures Moves(s, Next(s, e), e.pid, p)
  {
    match e
    case DropGate(pid) => CountedStep(s, pid, DropsConn(s.dispatches[pid].stage.wait), false, -1, p);
    case DropConn(pid) =>
      var wait := s.dispatches[pid].stage.wait;
      CountedStep(s, pid, if wait.Some? then Waiting(wait.value) else Finished, true, -1, p);
  }

  lemma ReleaseMoves(s: State, e: Event, p: Permit)
    requires Enabled(s, e) && (e.RefusedDropsGate? || e.RefusedDropsConn? || e.ReleaseConn? || e.ReleaseGate?)
    ensures Moves(s, Next(s, e), e.pid, p)
  {
    match e
    case RefusedDropsGate(pid) => CountedStep(s, pid, RefusedConn, false, -1, p);
    case RefusedDropsConn(pid) => CountedStep(s, pid, Refused, true, -1, p);
    case ReleaseConn(pid) => CountedStep(s, pid, ReleasesGate, true, -1, p);
    case ReleaseGate(pid) => CountedStep(s, pid, Finished, false, -1, p);
  }

  lemma CounterStepMoves(s: State, e: Event, p: Permit)
    requires Enabled(s, e) && TouchesCounter(e)
    ensures Moves(s, Next(s, e), e.pid, p)
  {
    if e.AcquireConn? || e.AcquireGate? || e.GateBusy? { AcquireMoves(s, e, p); }
    else if e.DropGate? || e.DropConn? { DropMoves(s, e, p); }
    else { ReleaseMoves(s, e, p); }
  }

  /** A step after which the dispatch holds what it held. */
  predicate HoldsSame(s: State, t: State, pid: nat) {
    && pid in s.dispatches && pid in t.dispatches
    && t.permits == s.permits
    && t.dispatches == s.dispatches[pid := t.dispatches[pid]]
    && var a, b := s.dispatches[pid], t.dispatches[pid];
    && a.kind == b.kind && a.conn == b.conn
    && HoldsConn(a.stage) == HoldsConn(b.stage) && HoldsGate(a.stage) == HoldsGate(b.stage)
  }

  lemma AnsweredHoldsSame(s: State, pid: nat, cache: Cache, found: Lookup, stage: Stage)
    requires pid in s.dispatches
    requires var from := s.dispatches[pid].stage;
             HoldsConn(from) == HoldsConn(stage) && HoldsGate(from) == HoldsGate(stage)
    ensures HoldsSame(s, Answered(s, pid, cache, found, stage), pid)
  {
  }

  lemma TakenHoldsSame(s: State, pid: nat, result: (Cache, seq<ChannelId>), ack: Bytes, next: Stage)
    requires pid in s.dispatches
    requires var from := s.dispatches[pid].stage;
             HoldsConn(from) == HoldsConn(next) && HoldsGate(from) == HoldsGate(next)
    ensures HoldsSame(s, Taken(s, pid, result, ack, next), pid)
  {
  }

  lemma LookHoldsSame(s: State, pid: nat, c: ChannelId)
    requires Enabled(s, Look(pid, c))
    ensures HoldsSame(s, Next(s, Look(pid, c)), pid)
  {
    var d := s.dispatches[pid];
    var (cache, found) := Inspect(s.cache, d.key, d.digest, s.now, c);
    AnsweredHoldsSame(s, pid, cache, found, AfterLook(found));
  }

  lemma RegisterHoldsSame(s: State, pid: nat, c: ChannelId)
    requires Enabled(s, Register(pid, c))
    ensures HoldsSame(s, Next(s, Register(pid, c)), pid)
  {
    var d := s.dispatches[pid];
    var (cache, found) := Begin(s.cache, d.key, d.digest, s.now, c);
    AnsweredHoldsSame(s, pid, cache, found, AfterBegin(found));
  }

  lemma SettlementHoldsSame(s: State, e: Event)
    requires Enabled(s, e) && (e.RefusedAbandons? || e.Settle? || e.LatePanic?)
    ensures HoldsSame(s, Next(s, e), e.pid)
  {
    var d := s.dispatches[e.pid];
    if e.Settle? && e.complete {
      TakenHoldsSame(s, e.pid, Complete(s.cache, d.key, d.digest, e.ack, s.now), e.ack, Replying);
    } else {
      TakenHoldsSame(s, e.pid, Abandon(s.cache, d.key, d.digest), e.ack,
                     if e.Settle? then Replying else if e.LatePanic? then ReleasesConn else Finished);
    }
  }

  lemma SendHoldsSame(s: State, e: Event)
    requires Enabled(s, e) && (e.Send? || e.CloseSent?)
    ensures HoldsSame(s, Next(s, e), e.pid)
  {
  }

  lemma DeliveryMoves(s: State, e: Event, p: Permit)
    requires Enabled(s, e) && (e.DeliveryDone? || e.Receive? || e.Reply?)
    ensures Moves(s, Next(s, e), e.pid, p)
  {
  }

  lemma OtherStepMoves(s: State, e: Event, p: Permit)
    requires Enabled(s, e) && Mover(e).Some? && !TouchesCounter(e) && !TouchesCache(e)
    ensures Moves(s, Next(s, e), e.pid, p)
  {
    if e.Send? || e.CloseSent? { SendHoldsSame(s, e); }
    else if e.DeliveryDone? || e.Receive? || e.Reply? { DeliveryMoves(s, e, p); }
  }

  lemma MovesConserve(s: State, t: State, pid: nat, p: Permit)
    requires Moves(s, t, pid, p) && Conserved(s, p)
    ensures Conserved(t, p)
  {
    var before, after := Holders(s.dispatches, p), Holders(t.dispatches, p);
    assert before - {pid} == after - {pid};
    assert pid in before <==> Unit(s.dispatches, pid, p) == 1;
    assert pid in after <==> Unit(t.dispatches, pid, p) == 1;
    assert |before| == |before - {pid}| + Unit(s.dispatches, pid, p);
    assert |after| == |after - {pid}| + Unit(t.dispatches, pid, p);
  }

  lemma StepConserves(s: State, e: Event, p: Permit)
    requires Enabled(s, e) && Conserved(s, p)
    ensures Conserved(Next(s, e), p)
  {
    if Mover(e).None? {
      assert Next(s, e).dispatches == s.dispatches && Next(s, e).permits == s.permits;
    } else {
      if TouchesCounter(e) {
        CounterStepMoves(s, e, p);
      } else if TouchesCache(e) {
        if e.Look? { LookHoldsSame(s, e.pid, e.channel); }
        else if e.Register? { RegisterHoldsSame(s, e.pid, e.channel); }
        else { SettlementHoldsSame(s, e); }
      } else {
        OtherStepMoves(s, e, p);
      }
      MovesConserve(s, Next(s, e), e.pid, p);
    }
  }

  /**
   * In every interleaving, whatever the exits taken, each counter equals the
   * number of dispatches holding that permit and stays within its limit.
   */
  lemma {:induction false} PermitsConserved(s: State, es: seq<Event>, p: Permit)
    requires Runs(s, es) && Conserved(s, p)
    ensures Conserved(After(s, es), p)
    decreases |es|
  {
    if es != [] {
      StepConserves(s, es[0], p);
      PermitsConserved(Next(s, es[0]), es[1..], p);
    }
  }

  /** Runs from an empty server: two resolves, one batch, four requests per connection, never more. */
  lemma PermitsBounded(s: State, es: seq<Event>, p: Permit)
    requires Init(s) && Runs(s, es)
    ensures Count(After(s, es).permits, p) == |Holders(After(s, es).dispatches, p)| <= Limit(p)
  {
    assert Holders(s.dispatches, p) == {};
    PermitsConserved(s, es, p);
  }

  /** When every dispatch has finished, every counter is back at zero. */
  lemma FinishedDispatchesHoldNothing(s: State, es: seq<Event>, p: Permit)
    requires Init(s) && Runs(s, es)
    requires forall pid :: pid in After(s, es).dispatches ==> After(s, es).dispatches[pid].stage == Finished
    ensures Count(After(s, es).permits, p) == 0
  {
    PermitsBounded(s, es, p);
    assert Holders(After(s, es).dispatches, p) == {};
  }
}
