/**
 * How many requests are in flight. A dispatch that was admitted holds a gate
 * until it settles, but a refused direct batch gives its permits back before it
 * abandons its entry: the entries in flight are bounded by the gates and the
 * refused batches together, in every run. A connection's read loop has one
 * message in hand, so there are no more of these than connections.
 */
module DispatchBound {
  import opened Prelude
  import opened Idempotency
  import opened Dispatch
  import opened DispatchScenarios
  import P = DispatchPermits
  import D = DispatchDelivery

  /** Refused direct batches that hold no gate any more and have not abandoned their entry yet. */
  predicate IsPastGate(stage: Stage) { stage == RefusedConn || stage == Refused }

  predicate HasEntry(stage: Stage) { stage == Begun || stage == Owns || stage == RefusedGate || IsPastGate(stage) }

  function PastGate(t: State): set<nat> {
    set pid | pid in t.dispatches && IsPastGate(t.dispatches[pid].stage)
  }

  function WithEntry(t: State): set<nat> {
    set pid | pid in t.dispatches && HasEntry(t.dispatches[pid].stage)
  }

  // ---- every entry in flight has its registrant --------------------------------

  /** The dispatch that registered the entry has not settled it, and would. */
  predicate RegistrantOk(cache: Cache, dispatches: map<nat, Dispatched>, owner: map<string, nat>, key: string)
    requires key in cache.entries
  {
    && key in owner && owner[key] in dispatches
    && var d := dispatches[owner[key]];
    d.key == key && d.digest == cache.entries[key].digest && HasEntry(d.stage)
  }

  predicate Registered(t: State) {
    forall key :: key in t.cache.entries && !t.cache.entries[key].completed ==>
      RegistrantOk(t.cache, t.dispatches, t.owner, key)
  }

  /** No entry comes into flight, and those that stay keep their digest. */
  predicate NothingNew(c: Cache, d: Cache) {
    forall k :: k in d.entries && !d.entries[k].completed ==>
      k in c.entries && !c.entries[k].completed && d.entries[k].digest == c.entries[k].digest
  }

  /** The moving dispatch keeps its key, and its entry unless that is settled. */
  lemma MoveKeepsRegistered(s: State, t: State, pid: nat)
    requires Registered(s) && pid in s.dispatches && pid in t.dispatches
    requires t.dispatches == s.dispatches[pid := t.dispatches[pid]] && t.owner == s.owner
    requires NothingNew(s.cache, t.cache)
    requires var a, b := s.dispatches[pid], t.dispatches[pid];
             && b.key == a.key && b.digest == a.digest
             && (HasEntry(a.stage) && !HasEntry(b.stage) ==> !Settles(t.cache, a.key, a.digest))
    ensures Registered(t)
  {
    forall key | key in t.cache.entries && !t.cache.entries[key].completed
      ensures RegistrantOk(t.cache, t.dispatches, t.owner, key)
    {
      assert RegistrantOk(s.cache, s.dispatches, s.owner, key);
    }
  }

  lemma CacheWideKeepsRegistered(s: State, t: State)
    requires Registered(s) && t.dispatches == s.dispatches && t.owner == s.owner && NothingNew(s.cache, t.cache)
    ensures Registered(t)
  {
    forall key | key in t.cache.entries && !t.cache.entries[key].completed
      ensures RegistrantOk(t.cache, t.dispatches, t.owner, key)
    {
      assert RegistrantOk(s.cache, s.dispatches, s.owner, key);
    }
  }

  lemma InspectAddsNothing(c: Cache, key: string, digest: string, now: int, channel: ChannelId)
    ensures NothingNew(c, Inspect(c, key, digest, now, channel).0)
    ensures Inspect(c, key, digest, now, channel).1 == Miss ==>
              var d := Inspect(c, key, digest, now, channel).0;
              key !in d.entries
  {
  }

  lemma {:induction false} EvictAddsNothing(c: Cache)
    ensures NothingNew(c, Evict(c)) && Evict(c).entries.Keys <= c.entries.Keys
    decreases |c.completed|
  {
    if |c.entries| >= MAX_ENTRIES && c.completed != [] { EvictAddsNothing(EvictOne(c)); }
  }

  lemma SettlementAddsNothing(c: Cache, key: string, digest: string, ack: Bytes, now: int)
    ensures var d := Complete(c, key, digest, ack, now).0; NothingNew(c, d) && !Settles(d, key, digest)
    ensures var d := Abandon(c, key, digest).0; NothingNew(c, d) && !Settles(d, key, digest)
  {
  }

  lemma LookOnlyInspects(s: State, pid: nat, c: ChannelId)
    requires Enabled(s, Look(pid, c))
    ensures var t := Next(s, Look(pid, c));
            var d := s.dispatches[pid];
            var (cache, found) := Inspect(s.cache, d.key, d.digest, s.now, c);
            t.cache == cache && t.owner == s.owner && t.dispatches == s.dispatches[pid := d.(stage := AfterLook(found))]
  {
  }

  lemma LookStep(s: State, pid: nat, c: ChannelId)
    requires Registered(s) && Enabled(s, Look(pid, c))
    ensures Registered(Next(s, Look(pid, c)))
  {
    var d := s.dispatches[pid];
    LookOnlyInspects(s, pid, c);
    hide Next, Inspect, Registered;
    InspectAddsNothing(s.cache, d.key, d.digest, s.now, c);
    MoveKeepsRegistered(s, Next(s, Look(pid, c)), pid);
  }

  /** A begin that finds something registers nothing. */
  lemma RegisterHitStep(s: State, pid: nat, c: ChannelId)
    requires Registered(s) && Enabled(s, Register(pid, c))
    requires Begin(s.cache, s.dispatches[pid].key, s.dispatches[pid].digest, s.now, c).1 != Miss
    ensures Registered(Next(s, Register(pid, c)))
  {
    var d := s.dispatches[pid];
    InspectAddsNothing(s.cache, d.key, d.digest, s.now, c);
    MoveKeepsRegistered(s, Next(s, Register(pid, c)), pid);
  }

  /** A begin that misses adds one entry, in the name of the dispatch that begins. */
  lemma MissedBegin(c: Cache, key: string, digest: string, now: int, channel: ChannelId, k: string)
    requires Begin(c, key, digest, now, channel).1 == Miss
    ensures var d := Begin(c, key, digest, now, channel).0;
            && key in d.entries && d.entries[key].digest == digest
            && (k in d.entries && !d.entries[k].completed && k != key ==>
                  k in c.entries && !c.entries[k].completed && d.entries[k].digest == c.entries[k].digest)
  {
    InspectAddsNothing(c, key, digest, now, channel);
    EvictAddsNothing(Inspect(c, key, digest, now, channel).0);
  }

  lemma RegisterMissStep(s: State, pid: nat, c: ChannelId)
    requires Registered(s) && Enabled(s, Register(pid, c))
    requires Begin(s.cache, s.dispatches[pid].key, s.dispatches[pid].digest, s.now, c).1 == Miss
    ensures Registered(Next(s, Register(pid, c)))
  {
    var d := s.dispatches[pid];
    var t := Next(s, Register(pid, c));
    assert t.dispatches == s.dispatches[pid := d.(stage := Begun)] && t.owner == s.owner[d.key := pid];
    assert t.cache == Begin(s.cache, d.key, d.digest, s.now, c).0;
    forall key | key in t.cache.entries && !t.cache.entries[key].completed
      ensures RegistrantOk(t.cache, t.dispatches, t.owner, key)
    {
      MissedBegin(s.cache, d.key, d.digest, s.now, c, key);
      if key != d.key {
        assert RegistrantOk(s.cache, s.dispatches, s.owner, key);
      }
    }
  }

  lemma SettlementStep(s: State, e: Event)
    requires Registered(s) && Enabled(s, e) && (e.RefusedAbandons? || e.Settle? || e.LatePanic?)
    ensures Registered(Next(s, e))
  {
    var d := s.dispatches[e.pid];
    SettlementAddsNothing(s.cache, d.key, d.digest, e.ack, s.now);
    MoveKeepsRegistered(s, Next(s, e), e.pid);
  }

  lemma CacheWideStep(s: State, e: Event)
    requires Registered(s) && Enabled(s, e)
    requires e.ClearAll? || e.RetireGeneration? || e.CloseRetired? || e.Tick? || e.OpenConn? || e.CloseConn?
    ensures Registered(Next(s, e))
  {
    CacheWideKeepsRegistered(s, Next(s, e));
  }

  lemma DeliveryStep(s: State, e: Event)
    requires Registered(s) && D.DispatchesOwn(s) && Enabled(s, e)
    requires e.Send? || e.CloseSent? || e.DeliveryDone?
    ensures Registered(Next(s, e))
  {
    MoveKeepsRegistered(s, Next(s, e), e.pid);
  }

  lemma ReplyStep(s: State, e: Event)
    requires Registered(s) && Enabled(s, e) && (e.Receive? || e.Reply?)
    ensures Registered(Next(s, e))
  {
    MoveKeepsRegistered(s, Next(s, e), e.pid);
  }

  lemma ArriveStep(s: State, e: Event)
    requires Registered(s) && Enabled(s, e) && e.Arrive?
    ensures Registered(Next(s, e))
  {
    var t := Next(s, e);
    forall key | key in t.cache.entries && !t.cache.entries[key].completed
      ensures RegistrantOk(t.cache, t.dispatches, t.owner, key)
    {
      assert RegistrantOk(s.cache, s.dispatches, s.owner, key);
    }
  }

  lemma AcquireStep(s: State, e: Event)
    requires Registered(s) && Enabled(s, e)
    requires e.AcquireConn? || e.ConnBusy? || e.AcquireGate? || e.GateBusy?
    ensures Registered(Next(s, e))
  {
    MoveKeepsRegistered(s, Next(s, e), e.pid);
  }

  lemma ReleaseStep(s: State, e: Event)
    requires Registered(s) && Enabled(s, e) && (e.ReleaseConn? || e.ReleaseGate?)
    ensures Registered(Next(s, e))
  {
    MoveKeepsRegistered(s, Next(s, e), e.pid);
  }

  lemma DropStep(s: State, e: Event)
    requires Registered(s) && Enabled(s, e) && (e.DropGate? || e.DropConn?)
    ensures Registered(Next(s, e))
  {
    var t := Next(s, e);
    assert !HasEntry(s.dispatches[e.pid].stage);
    assert t.dispatches == s.dispatches[e.pid := s.dispatches[e.pid].(stage := t.dispatches[e.pid].stage)];
    MoveKeepsRegistered(s, t, e.pid);
  }

  lemma RefusalStep(s: State, e: Event)
    requires Registered(s) && Enabled(s, e)
    requires e.Launch? || e.RefuseAdmission? || e.RefusedDropsGate? || e.RefusedDropsConn?
    ensures Registered(Next(s, e))
  {
    MoveKeepsRegistered(s, Next(s, e), e.pid);
  }

  lemma StepKeepsRegistered(s: State, e: Event)
    requires D.DispatchesOwn(s) && Registered(s) && Enabled(s, e)
    ensures Registered(Next(s, e))
  {
    if e.Arrive? { ArriveStep(s, e); }
    else if e.Look? { LookStep(s, e.pid, e.channel); }
    else if e.Register? {
      var d := s.dispatches[e.pid];
      if Begin(s.cache, d.key, d.digest, s.now, e.channel).1 == Miss { RegisterMissStep(s, e.pid, e.channel); }
      else { RegisterHitStep(s, e.pid, e.channel); }
    }
    else if e.RefusedAbandons? || e.Settle? || e.LatePanic? { SettlementStep(s, e); }
    else if e.ClearAll? || e.RetireGeneration? || e.CloseRetired? || e.Tick? { CacheWideStep(s, e); }
    else if e.OpenConn? || e.CloseConn? { CacheWideStep(s, e); }
    else if e.Send? || e.CloseSent? || e.DeliveryDone? { DeliveryStep(s, e); }
    else if e.Receive? || e.Reply? { ReplyStep(s, e); }
    else if e.AcquireConn? || e.ConnBusy? || e.AcquireGate? || e.GateBusy? { AcquireStep(s, e); }
    else if e.Launch? || e.RefuseAdmission? || e.RefusedDropsGate? || e.RefusedDropsConn? { RefusalStep(s, e); }
    else if e.DropGate? || e.DropConn? { DropStep(s, e); }
    else { ReleaseStep(s, e); }
  }

  lemma {:induction false} RunKeepsRegistered(s: State, es: seq<Event>)
    requires D.Inv(s) && Registered(s) && Runs(s, es)
    ensures Registered(After(s, es))
    decreases |es|
  {
    if es != [] {
      StepKeepsRegistered(s, es[0]);
      D.StepKeepsInvariant(s, es[0]);
      RunKeepsRegistered(Next(s, es[0]), es[1..]);
    }
  }

  // ---- one dispatch per read loop -----------------------------------------------

  /** A delivery leads out of the read loop. */
  predicate LeadsOut(stage: Stage) {
    stage.Delivering? ==> !InLoop(stage.next) && !stage.next.Delivering?
  }

  /** Whoever is in a read loop is on an open connection, alone. */
  predicate LoopsOk(dispatches: map<nat, Dispatched>, open: set<nat>) {
    && (forall p :: p in dispatches && InLoop(dispatches[p].stage) ==> dispatches[p].conn in open)
    && (forall p, q :: p in dispatches && q in dispatches && InLoop(dispatches[p].stage) ==>
          InLoop(dispatches[q].stage) && dispatches[p].conn == dispatches[q].conn ==> p == q)
    && forall p :: p in dispatches ==> LeadsOut(dispatches[p].stage)
  }

  /** The moving dispatch does not enter its read loop again. */
  predicate StaysOut(a: Dispatched, b: Dispatched) {
    b.conn == a.conn && (InLoop(b.stage) ==> InLoop(a.stage)) && LeadsOut(b.stage)
  }

  lemma MoveKeepsLoops(s: State, t: State, pid: nat)
    requires LoopsOk(s.dispatches, s.open) && t.open == s.open && pid in s.dispatches && pid in t.dispatches
    requires t.dispatches == s.dispatches[pid := t.dispatches[pid]]
    requires StaysOut(s.dispatches[pid], t.dispatches[pid])
    ensures LoopsOk(t.dispatches, t.open)
  {
  }

  lemma AcquireStaysOut(s: State, e: Event)
    requires Enabled(s, e)
    requires e.AcquireConn? || e.ConnBusy? || e.AcquireGate? || e.GateBusy? || e.ReleaseConn? || e.ReleaseGate?
    ensures StaysOut(s.dispatches[e.pid], Next(s, e).dispatches[e.pid])
  {
  }

  lemma RefusalStaysOut(s: State, e: Event)
    requires Enabled(s, e)
    requires e.Launch? || e.RefuseAdmission? || e.RefusedDropsGate? || e.RefusedDropsConn? || e.DropGate? || e.DropConn?
    ensures StaysOut(s.dispatches[e.pid], Next(s, e).dispatches[e.pid])
  {
  }

  lemma LookStaysOut(s: State, e: Event)
    requires Enabled(s, e) && e.Look?
    ensures StaysOut(s.dispatches[e.pid], Next(s, e).dispatches[e.pid])
  {
  }

  lemma RegisterStaysOut(s: State, e: Event)
    requires Enabled(s, e) && e.Register?
    ensures StaysOut(s.dispatches[e.pid], Next(s, e).dispatches[e.pid])
  {
    var d := s.dispatches[e.pid];
    assert Next(s, e).dispatches[e.pid]
           == d.(stage := AfterBegin(Begin(s.cache, d.key, d.digest, s.now, e.channel).1));
  }

  lemma SettlementStaysOut(s: State, e: Event)
    requires Enabled(s, e) && (e.RefusedAbandons? || e.Settle? || e.LatePanic?)
    ensures StaysOut(s.dispatches[e.pid], Next(s, e).dispatches[e.pid])
  {
  }

  lemma CacheStaysOut(s: State, e: Event)
    requires Enabled(s, e) && P.TouchesCache(e)
    ensures StaysOut(s.dispatches[e.pid], Next(s, e).dispatches[e.pid])
  {
    if e.Look? { LookStaysOut(s, e); }
    else if e.Register? { RegisterStaysOut(s, e); }
    else { SettlementStaysOut(s, e); }
  }

  lemma DeliveryStaysOut(s: State, e: Event)
    requires Enabled(s, e) && (e.Send? || e.CloseSent? || e.DeliveryDone? || e.Receive? || e.Reply?)
    requires LeadsOut(s.dispatches[e.pid].stage)
    ensures StaysOut(s.dispatches[e.pid], Next(s, e).dispatches[e.pid])
  {
  }

  lemma ArriveKeepsLoops(s: State, e: Event)
    requires LoopsOk(s.dispatches, s.open) && Enabled(s, e) && e.Arrive?
    ensures LoopsOk(Next(s, e).dispatches, Next(s, e).open)
  {
  }

  lemma ConnKeepsLoops(s: State, e: Event)
    requires LoopsOk(s.dispatches, s.open) && Enabled(s, e) && (e.OpenConn? || e.CloseConn?)
    ensures LoopsOk(Next(s, e).dispatches, Next(s, e).open)
  {
  }

  lemma OpenStays(s: State, e: Event)
    requires Enabled(s, e) && !e.OpenConn? && !e.CloseConn?
    ensures Next(s, e).open == s.open
  {
  }

  /** Only the moving dispatch changes. */
  predicate OnlyMoves(s: State, t: State, pid: nat) {
    pid in s.dispatches && pid in t.dispatches && t.dispatches == s.dispatches[pid := t.dispatches[pid]]
  }

  lemma CacheMoves(s: State, e: Event)
    requires Enabled(s, e) && P.TouchesCache(e)
    ensures OnlyMoves(s, Next(s, e), e.pid)
  {
    if e.Look? { P.LookHoldsSame(s, e.pid, e.channel); }
    else if e.Register? { P.RegisterHoldsSame(s, e.pid, e.channel); }
    else { P.SettlementHoldsSame(s, e); }
  }

  lemma MoverIsThere(s: State, e: Event)
    requires Enabled(s, e) && P.Mover(e).Some? && !e.Arrive?
    ensures e.pid in s.dispatches
  {
  }

  lemma MoverMoves(s: State, e: Event)
    requires Enabled(s, e) && P.Mover(e).Some? && !e.Arrive?
    ensures OnlyMoves(s, Next(s, e), e.pid)
  {
    MoverIsThere(s, e);
    if P.TouchesCounter(e) { P.CounterStepMoves(s, e, ConnPermit(0)); }
    else if P.TouchesCache(e) { CacheMoves(s, e); }
    else { P.OtherStepMoves(s, e, ConnPermit(0)); }
  }

  lemma MoverStaysOut(s: State, e: Event)
    requires LoopsOk(s.dispatches, s.open) && Enabled(s, e) && P.Mover(e).Some? && !e.Arrive?
    requires OnlyMoves(s, Next(s, e), e.pid)
    ensures StaysOut(s.dispatches[e.pid], Next(s, e).dispatches[e.pid])
  {
    if P.TouchesCache(e) { CacheStaysOut(s, e); }
    else if e.Send? || e.CloseSent? || e.DeliveryDone? || e.Receive? || e.Reply? { DeliveryStaysOut(s, e); }
    else if e.AcquireConn? || e.ConnBusy? || e.AcquireGate? || e.GateBusy? || e.ReleaseConn? || e.ReleaseGate? {
      AcquireStaysOut(s, e);
    } else { RefusalStaysOut(s, e); }
  }

  lemma StepKeepsLoops(s: State, e: Event)
    requires LoopsOk(s.dispatches, s.open) && Enabled(s, e)
    ensures LoopsOk(Next(s, e).dispatches, Next(s, e).open)
  {
    if e.Arrive? { ArriveKeepsLoops(s, e); }
    else if e.OpenConn? || e.CloseConn? { ConnKeepsLoops(s, e); }
    else if P.Mover(e).Some? {
      OpenStays(s, e);
      MoverMoves(s, e);
      MoverStaysOut(s, e);
      MoveKeepsLoops(s, Next(s, e), e.pid);
    }
  }

  lemma {:induction false} RunKeepsLoops(s: State, es: seq<Event>)
    requires LoopsOk(s.dispatches, s.open) && Runs(s, es)
    ensures LoopsOk(After(s, es).dispatches, After(s, es).open)
    decreases |es|
  {
    if es != [] {
      StepKeepsLoops(s, es[0]);
      RunKeepsLoops(Next(s, es[0]), es[1..]);
    }
  }

  // ---- counting -----------------------------------------------------------------

  /** Distinct entries have distinct registrants. */
  lemma {:induction false} EntriesPerRegistrant(t: State, keys: set<string>, pids: set<nat>)
    requires Registered(t) && keys <= InFlight(t.cache)
    requires forall key :: key in keys ==> key in t.owner && t.owner[key] in pids
    ensures |keys| <= |pids|
    decreases |keys|
  {
    if keys != {} {
      var key :| key in keys;
      assert RegistrantOk(t.cache, t.dispatches, t.owner, key);
      forall k | k in keys && k != key
        ensures t.owner[k] != t.owner[key]
      {
        assert RegistrantOk(t.cache, t.dispatches, t.owner, k);
      }
      EntriesPerRegistrant(t, keys - {key}, pids - {t.owner[key]});
    }
  }

  /** Distinct dispatches in read loops are on distinct connections. */
  lemma {:induction false} LoopsPerConnection(dispatches: map<nat, Dispatched>, open: set<nat>, pids: set<nat>,
                                              conns: set<nat>)
    requires LoopsOk(dispatches, open)
    requires forall pid :: pid in pids ==>
               pid in dispatches && InLoop(dispatches[pid].stage) && dispatches[pid].conn in conns
    ensures |pids| <= |conns|
    decreases |pids|
  {
    if pids != {} {
      var pid :| pid in pids;
      LoopsPerConnection(dispatches, open, pids - {pid}, conns - {dispatches[pid].conn});
    }
  }

  lemma {:induction false} SmallerSet(a: set<nat>, b: set<nat>)
    requires a <= b
    ensures |a| <= |b|
  {
    if a != {} {
      var x :| x in a;
      SmallerSet(a - {x}, b - {x});
    }
  }

  /** The dispatches that hold one of the two gates. */
  function AtGates(t: State): set<nat> {
    P.Holders(t.dispatches, GatePermit(ResolveGate)) + P.Holders(t.dispatches, GatePermit(BatchGate))
  }

  lemma AtMostThreeAtGates(s: State, es: seq<Event>)
    requires Init(s) && Runs(s, es)
    ensures |AtGates(After(s, es))| <= 3
  {
    P.PermitsBounded(s, es, GatePermit(ResolveGate));
    P.PermitsBounded(s, es, GatePermit(BatchGate));
    var resolves := P.Holders(After(s, es).dispatches, GatePermit(ResolveGate));
    var batches := P.Holders(After(s, es).dispatches, GatePermit(BatchGate));
    assert |resolves| <= Limit(GatePermit(ResolveGate)) && |batches| <= Limit(GatePermit(BatchGate));
    assert |resolves + batches| <= |resolves| + |batches|;
  }

  /** A dispatch with an entry holds a gate or is past it; `idle` holds a gate without an entry. */
  lemma WithEntryIsBounded(t: State, idle: set<nat>)
    requires idle <= AtGates(t) && idle !! WithEntry(t)
    ensures |WithEntry(t)| <= |AtGates(t)| - |idle| + |PastGate(t)|
  {
    var busy := AtGates(t) - idle;
    forall pid | pid in WithEntry(t)
      ensures pid in busy + PastGate(t)
    {
      assert Holds(t.dispatches[pid], GatePermit(GateOf(t.dispatches[pid].kind))) || pid in PastGate(t);
    }
    SmallerSet(WithEntry(t), busy + PastGate(t));
    assert |busy| == |AtGates(t)| - |idle|;
    assert |busy + PastGate(t)| <= |busy| + |PastGate(t)|;
  }

  /** Every entry in flight belongs to a dispatch with an entry. */
  lemma InFlightHaveRegistrants(s: State, es: seq<Event>)
    requires Init(s) && Runs(s, es)
    ensures |InFlight(After(s, es).cache)| <= |WithEntry(After(s, es))|
  {
    var t := After(s, es);
    D.InitEstablishesInvariant(s);
    RunKeepsRegistered(s, es);
    forall key | key in InFlight(t.cache)
      ensures key in t.owner && t.owner[key] in WithEntry(t)
    {
      assert RegistrantOk(t.cache, t.dispatches, t.owner, key);
    }
    EntriesPerRegistrant(t, InFlight(t.cache), WithEntry(t));
  }

  /**
   * In every run, whatever is cleared, retired or panics: at most three requests
   * are in flight besides those of refused direct batches past their gate.
   */
  lemma InFlightIsBounded(s: State, es: seq<Event>)
    requires Init(s) && Runs(s, es)
    ensures |InFlight(After(s, es).cache)| <= 3 + |PastGate(After(s, es))|
  {
    InFlightHaveRegistrants(s, es);
    AtMostThreeAtGates(s, es);
    WithEntryIsBounded(After(s, es), {});
  }

  /** And of those there are no more than open connections: one read loop, one message. */
  lemma PastGateFitConnections(s: State, es: seq<Event>)
    requires Init(s) && Runs(s, es)
    ensures |PastGate(After(s, es))| <= |After(s, es).open|
  {
    RunKeepsLoops(s, es);
    var t := After(s, es);
    LoopsPerConnection(t.dispatches, t.open, PastGate(t), t.open);
  }

  /** At most three more requests are in flight than connections are open. */
  lemma InFlightFitsConnections(s: State, es: seq<Event>)
    requires Init(s) && Runs(s, es)
    ensures |InFlight(After(s, es).cache)| <= 3 + |After(s, es).open|
  {
    InFlightIsBounded(s, es);
    PastGateFitConnections(s, es);
  }

  // ---- the size of the cache ------------------------------------------------------

  lemma BeginnerIsIdle(t: State, pid: nat)
    requires At(t, pid, WantsBegin)
    ensures pid in AtGates(t) && pid !in WithEntry(t) && pid !in PastGate(t)
  {
    assert Holds(t.dispatches[pid], GatePermit(GateOf(t.dispatches[pid].kind)));
  }

  lemma BeginnerOccupiesItsLoop(s: State, es: seq<Event>, pid: nat)
    requires Init(s) && Runs(s, es) && At(After(s, es), pid, WantsBegin)
    ensures |PastGate(After(s, es))| < |After(s, es).open|
  {
    var t := After(s, es);
    RunKeepsLoops(s, es);
    BeginnerIsIdle(t, pid);
    LoopsPerConnection(t.dispatches, t.open, PastGate(t) + {pid}, t.open);
  }

  /** The dispatch about to begin occupies its read loop and holds a gate, but has no entry. */
  lemma BeginSeesFewer(s: State, es: seq<Event>, pid: nat)
    requires Init(s) && Runs(s, es) && At(After(s, es), pid, WantsBegin)
    ensures var t := After(s, es);
            |InFlight(t.cache)| <= 2 + |PastGate(t)| && |PastGate(t)| < |t.open|
  {
    InFlightHaveRegistrants(s, es);
    AtMostThreeAtGates(s, es);
    BeginnerIsIdle(After(s, es), pid);
    WithEntryIsBounded(After(s, es), {pid});
    BeginnerOccupiesItsLoop(s, es, pid);
  }

  /** At every begin of the run at most `limit` connections are open. */
  predicate AtMostOpen(s: State, es: seq<Event>, limit: nat)
    requires Runs(s, es)
    decreases |es|
  {
    es == [] || ((es[0].Register? ==> |s.open| <= limit) && AtMostOpen(Next(s, es[0]), es[1..], limit))
  }

  const MAX_OPEN: nat := MAX_ENTRIES - 2

  lemma {:induction false} FewOpenIsUncrowded(s: State, done: seq<Event>, es: seq<Event>)
    requires Init(s) && Runs(s, done) && Runs(After(s, done), es) && AtMostOpen(After(s, done), es, MAX_OPEN)
    ensures D.Uncrowded(After(s, done), es)
    decreases |es|
  {
    if es != [] {
      if es[0].Register? { BeginSeesFewer(s, done, es[0].pid); }
      OneMoreStep(s, done, es[0]);
      FewOpenIsUncrowded(s, done + [es[0]], es[1..]);
    }
  }

  /** With at most 254 connections open at each begin, the cache keeps to its 256 entries. */
  lemma CacheStaysWithinLimit(s: State, es: seq<Event>)
    requires Init(s) && Runs(s, es) && AtMostOpen(s, es, MAX_OPEN)
    ensures |After(s, es).cache.entries| <= MAX_ENTRIES
  {
    D.InitEstablishesInvariant(s);
    assert After(s, []) == s;
    FewOpenIsUncrowded(s, [], es);
    D.CacheStaysWithinLimit(s, es);
  }
}
