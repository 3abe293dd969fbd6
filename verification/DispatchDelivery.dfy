/**
 * Channel discipline of the dispatcher, in every run: whoever settles, clears
 * or retires, each waiter channel is closed exactly once, is sent to at most
 * once, and never after it was closed.
 */
module DispatchDelivery {
  import opened Prelude
  import opened Idempotency
  import opened Dispatch

  function WaitersAt(entries: map<string, Entry>, key: string): seq<ChannelId> {
    if key in entries then entries[key].waiters else []
  }

  /** The channels a dispatch still has to close. */
  function RestOf(dispatches: map<nat, Dispatched>, pid: nat): seq<ChannelId> {
    if pid in dispatches && dispatches[pid].stage.Delivering? then dispatches[pid].stage.rest else []
  }

  predicate StageOk(stage: Stage) {
    stage.Delivering? ==>
      && NoDuplicates(stage.rest)
      && (stage.sent ==> stage.rest != [])
      && !stage.next.Delivering?
  }

  function SentSoFar(stage: Stage, c: ChannelId): seq<Bytes> {
    if stage.Delivering? && stage.sent && stage.rest != [] && stage.rest[0] == c then [stage.ack] else []
  }

  /** A channel's history matches the place responsible for closing it. */
  predicate ChannelOk(s: State, c: ChannelId)
    requires c in s.channels
  {
    var ch := s.channels[c];
    match ch.place
    case AtEntry(key) => c in WaitersAt(s.cache.entries, key) && ch.sends == [] && ch.closes == 0
    case AtDispatch(pid) =>
      && pid in s.dispatches && c in RestOf(s.dispatches, pid)
      && ch.sends == SentSoFar(s.dispatches[pid].stage, c) && ch.closes == 0
    case AtRetirement => ch.sends == [] && ch.closes == 0
    case Closed => |ch.sends| <= 1 && ch.closes == 1
  }

  ghost predicate EntriesOwn(s: State) {
    forall key ::
      && NoDuplicates(WaitersAt(s.cache.entries, key))
      && forall c :: c in WaitersAt(s.cache.entries, key) ==> c in s.channels && s.channels[c].place == AtEntry(key)
  }

  predicate DispatchesOwn(s: State) {
    forall pid :: pid in s.dispatches ==>
      && StageOk(s.dispatches[pid].stage)
      && forall c :: c in RestOf(s.dispatches, pid) ==> c in s.channels && s.channels[c].place == AtDispatch(pid)
  }

  ghost predicate Inv(s: State) {
    && Booked(s.cache, s.now)
    && (forall c :: c in s.channels ==> ChannelOk(s, c))
    && EntriesOwn(s)
    && DispatchesOwn(s)
  }

  // ---- what the cache's locked sections do to the waiters ---------------------

  lemma InspectWaiters(c: Cache, key: string, digest: string, now: int, channel: ChannelId, k: string)
    requires Booked(c, now)
    ensures var (c', found) := Inspect(c, key, digest, now, channel);
            WaitersAt(c'.entries, k) == WaitersAt(c.entries, k) + if found.Coalesce? && k == key then [channel] else []
    ensures Inspect(c, key, digest, now, channel).1.Coalesce? ==>
              Inspect(c, key, digest, now, channel).1.channel == channel
              && key in c.entries && !c.entries[key].completed
  {
  }

  lemma {:induction false} EvictWaiters(c: Cache, now: int, k: string)
    requires Booked(c, now)
    ensures WaitersAt(Evict(c).entries, k) == WaitersAt(c.entries, k)
    decreases |c.completed|
  {
    if |c.entries| >= MAX_ENTRIES && c.completed != [] {
      assert c.completed[0] in c.completed;
      EvictOneKeepsBooks(c, now);
      EvictWaiters(EvictOne(c), now, k);
    }
  }

  lemma BeginWaiters(c: Cache, key: string, digest: string, now: int, channel: ChannelId, k: string)
    requires Booked(c, now)
    ensures var (c', found) := Begin(c, key, digest, now, channel);
            && WaitersAt(c'.entries, k)
               == WaitersAt(c.entries, k) + (if found.Coalesce? && k == key then [channel] else [])
            && (found.Coalesce? ==> found.channel == channel)
  {
    InspectWaiters(c, key, digest, now, channel, k);
    InspectKeepsBooks(c, key, digest, now, channel);
    var (c', found) := Inspect(c, key, digest, now, channel);
    if found == Miss { EvictWaiters(c', now, k); }
  }

  lemma SettlementWaiters(c: Cache, key: string, digest: string, ack: Bytes, now: int, k: string)
    ensures var (c', waiters) := Complete(c, key, digest, ack, now);
            TakenFrom(c, c', waiters, key, k)
    ensures var (c', waiters) := Abandon(c, key, digest);
            TakenFrom(c, c', waiters, key, k)
  {
  }

  /** Either nothing happened or the key gave up exactly its waiters. */
  predicate TakenFrom(c: Cache, c': Cache, waiters: seq<ChannelId>, key: string, k: string) {
    if waiters == [] then WaitersAt(c'.entries, k) == WaitersAt(c.entries, k)
    else waiters == WaitersAt(c.entries, key)
         && WaitersAt(c'.entries, k) == if k == key then [] else WaitersAt(c.entries, k)
  }

  // ---- every step keeps the invariant ------------------------------------------

  /** Steps that leave cache, channels and pending deliveries alone. */
  lemma QuietStep(s: State, t: State)
    requires Inv(s)
    requires t.cache == s.cache && t.now == s.now && t.channels == s.channels
    requires forall pid :: pid in s.dispatches ==> pid in t.dispatches
    requires forall pid :: pid in t.dispatches ==>
               || (pid in s.dispatches && t.dispatches[pid].stage == s.dispatches[pid].stage)
               || (!t.dispatches[pid].stage.Delivering? && RestOf(s.dispatches, pid) == [])
    ensures Inv(t)
  {
    forall c | c in t.channels
      ensures ChannelOk(t, c)
    {
      assert ChannelOk(s, c);
    }
    forall pid | pid in t.dispatches
      ensures StageOk(t.dispatches[pid].stage)
      ensures forall c :: c in RestOf(t.dispatches, pid) ==> c in t.channels && t.channels[c].place == AtDispatch(pid)
    {
      if pid in s.dispatches && t.dispatches[pid].stage == s.dispatches[pid].stage {
        assert StageOk(s.dispatches[pid].stage);
        assert RestOf(t.dispatches, pid) == RestOf(s.dispatches, pid);
      }
    }
  }

  /** A lookup or a begin: the cache changes, and a coalesced waiter joins one entry. */
  lemma AnsweredStep(s: State, pid: nat, cache: Cache, found: Lookup, stage: Stage)
    requires Inv(s) && pid in s.dispatches && RestOf(s.dispatches, pid) == [] && !stage.Delivering?
    requires Booked(cache, s.now)
    requires found.Coalesce? ==> found.channel !in s.channels
    requires forall k :: WaitersAt(cache.entries, k)
               == WaitersAt(s.cache.entries, k)
                  + if found.Coalesce? && k == s.dispatches[pid].key then [found.channel] else []
    ensures Inv(Answered(s, pid, cache, found, stage))
  {
    var t := Answered(s, pid, cache, found, stage);
    var u := Go(s, pid, stage);
    QuietStep(s, u);
    forall k
      ensures NoDuplicates(WaitersAt(t.cache.entries, k))
      ensures forall c :: c in WaitersAt(t.cache.entries, k) ==> c in t.channels && t.channels[c].place == AtEntry(k)
    {
      assert forall c :: c in WaitersAt(s.cache.entries, k) ==> c in s.channels;
    }
    forall c | c in t.channels
      ensures ChannelOk(t, c)
    {
      if c in s.channels { assert ChannelOk(u, c); }
    }
  }

  /** A settlement: the entry's waiters become the settling dispatch's to serve. */
  lemma TakenStep(s: State, pid: nat, result: (Cache, seq<ChannelId>), ack: Bytes, next: Stage)
    requires Inv(s) && pid in s.dispatches && RestOf(s.dispatches, pid) == [] && !next.Delivering?
    requires Booked(result.0, s.now)
    requires forall k :: TakenFrom(s.cache, result.0, result.1, s.dispatches[pid].key, k)
    ensures Inv(Taken(s, pid, result, ack, next))
  {
    var key := s.dispatches[pid].key;
    var t := Taken(s, pid, result, ack, next);
    assert TakenFrom(s.cache, result.0, result.1, key, key);
    assert NoDuplicates(WaitersAt(s.cache.entries, key));
    forall k
      ensures NoDuplicates(WaitersAt(t.cache.entries, k))
      ensures forall c :: c in WaitersAt(t.cache.entries, k) ==> c in t.channels && t.channels[c].place == AtEntry(k)
    {
      assert TakenFrom(s.cache, result.0, result.1, key, k);
    }
    forall c | c in t.channels
      ensures ChannelOk(t, c)
    {
      assert ChannelOk(s, c);
      if s.channels[c].place.AtEntry? {
        assert TakenFrom(s.cache, result.0, result.1, key, s.channels[c].place.key);
      }
    }
  }

  lemma SendStep(s: State, pid: nat)
    requires Inv(s) && Enabled(s, Send(pid))
    ensures Inv(Next(s, Send(pid)))
  {
    var t := Next(s, Send(pid));
    var head := s.dispatches[pid].stage.rest[0];
    assert head in RestOf(s.dispatches, pid);
    assert ChannelOk(s, head);
    forall c | c in t.channels
      ensures ChannelOk(t, c)
    {
      assert ChannelOk(s, c);
    }
  }

  lemma CloseKeepsChannel(s: State, pid: nat, c: ChannelId)
    requires Inv(s) && Enabled(s, CloseSent(pid)) && c in Next(s, CloseSent(pid)).channels
    ensures ChannelOk(Next(s, CloseSent(pid)), c)
  {
    var rest := s.dispatches[pid].stage.rest;
    assert rest[0] in RestOf(s.dispatches, pid) && NoDuplicates(rest);
    assert ChannelOk(s, rest[0]);
    assert forall d :: d in rest[1..] <==> d in rest && d != rest[0];
    assert ChannelOk(s, c);
  }

  lemma CloseStep(s: State, pid: nat)
    requires Inv(s) && Enabled(s, CloseSent(pid))
    ensures Inv(Next(s, CloseSent(pid)))
  {
    var t := Next(s, CloseSent(pid));
    var rest := s.dispatches[pid].stage.rest;
    assert rest[0] in RestOf(s.dispatches, pid);
    assert forall c :: c in rest[1..] <==> c in rest && c != rest[0];
    forall c | c in t.channels
      ensures ChannelOk(t, c)
    {
      CloseKeepsChannel(s, pid, c);
    }
  }

  /** A waiter of some entry of `keys` is one whose place says so. */
  lemma WaitersOfPlaces(s: State, keys: set<string>, c: ChannelId)
    requires Inv(s)
    ensures c in WaitersOf(s.cache.entries, keys)
            <==> c in s.channels && s.channels[c].place.AtEntry? && s.channels[c].place.key in keys
  {
    if c in WaitersOf(s.cache.entries, keys) {
      var l, i :| l in keys && l in s.cache.entries && 0 <= i < |s.cache.entries[l].waiters|
                  && s.cache.entries[l].waiters[i] == c;
      assert c in WaitersAt(s.cache.entries, l);
    }
    if c in s.channels && s.channels[c].place.AtEntry? && s.channels[c].place.key in keys {
      assert ChannelOk(s, c);
      var l := s.channels[c].place.key;
      var i :| 0 <= i < |s.cache.entries[l].waiters| && s.cache.entries[l].waiters[i] == c;
    }
  }

  lemma ClearStep(s: State)
    requires Inv(s)
    ensures Inv(Next(s, ClearAll))
  {
    var t := Next(s, ClearAll);
    forall c | c in t.channels
      ensures ChannelOk(t, c)
    {
      assert ChannelOk(s, c);
      WaitersOfPlaces(s, s.cache.entries.Keys, c);
    }
    forall pid, c | pid in t.dispatches && c in RestOf(t.dispatches, pid)
      ensures c in t.channels && t.channels[c].place == AtDispatch(pid)
    {
      WaitersOfPlaces(s, s.cache.entries.Keys, c);
    }
  }

  lemma RetireStep(s: State, gen: nat)
    requires Inv(s)
    ensures Inv(Next(s, RetireGeneration(gen)))
  {
    var t := Next(s, RetireGeneration(gen));
    RetireKeepsBooks(s.cache, gen, s.now);
    var retired := RetiredKeys(s.cache, gen);
    assert forall k :: WaitersAt(t.cache.entries, k) == if k in retired then [] else WaitersAt(s.cache.entries, k);
    forall c | c in t.channels
      ensures ChannelOk(t, c)
    {
      assert ChannelOk(s, c);
      WaitersOfPlaces(s, retired, c);
    }
    forall k, c | c in WaitersAt(t.cache.entries, k)
      ensures c in t.channels && t.channels[c].place == AtEntry(k)
    {
      assert c in s.channels && s.channels[c].place == AtEntry(k);
      WaitersOfPlaces(s, retired, c);
    }
    forall pid, c | pid in t.dispatches && c in RestOf(t.dispatches, pid)
      ensures c in t.channels && t.channels[c].place == AtDispatch(pid)
    {
      WaitersOfPlaces(s, retired, c);
    }
  }

  lemma CloseRetiredStep(s: State, c: ChannelId)
    requires Inv(s) && Enabled(s, CloseRetired(c))
    ensures Inv(Next(s, CloseRetired(c)))
  {
    var t := Next(s, CloseRetired(c));
    forall d | d in t.channels
      ensures ChannelOk(t, d)
    {
      assert ChannelOk(s, d);
    }
  }

  predicate IsQuiet(e: Event) {
    match e
    case Look(_, _) | Register(_, _) | RefusedAbandons(_, _) | Settle(_, _, _) | LatePanic(_, _)
       | Send(_) | CloseSent(_) | ClearAll | RetireGeneration(_) | CloseRetired(_) | Tick(_)
       | OpenConn(_) | CloseConn(_) => false
    case _ => true
  }

  lemma DeliveredEvent(s: State, e: Event)
    requires Inv(s) && Enabled(s, e) && (e.DeliveryDone? || e.Reply? || e.Receive? || e.Arrive?)
    ensures Inv(Next(s, e))
  {
    assert e.DeliveryDone? ==> StageOk(s.dispatches[e.pid].stage);
    QuietStep(s, Next(s, e));
  }

  lemma DropEvent(s: State, e: Event)
    requires Inv(s) && Enabled(s, e) && (e.DropGate? || e.DropConn?)
    ensures Inv(Next(s, e))
  {
    QuietStep(s, Next(s, e));
  }

  lemma AcquireEvent(s: State, e: Event)
    requires Inv(s) && Enabled(s, e) && (e.AcquireConn? || e.ConnBusy? || e.AcquireGate? || e.GateBusy?)
    ensures Inv(Next(s, e))
  {
    QuietStep(s, Next(s, e));
  }

  lemma RefusalEvent(s: State, e: Event)
    requires Inv(s) && Enabled(s, e)
    requires e.Launch? || e.RefuseAdmission? || e.RefusedDropsGate? || e.RefusedDropsConn?
    ensures Inv(Next(s, e))
  {
    QuietStep(s, Next(s, e));
  }

  lemma QuietEvent(s: State, e: Event)
    requires Inv(s) && Enabled(s, e) && IsQuiet(e)
    ensures Inv(Next(s, e))
  {
    if e.DeliveryDone? || e.Reply? || e.Receive? || e.Arrive? { DeliveredEvent(s, e); }
    else if e.DropGate? || e.DropConn? { DropEvent(s, e); }
    else if e.AcquireConn? || e.ConnBusy? || e.AcquireGate? || e.GateBusy? { AcquireEvent(s, e); }
    else if e.Launch? || e.RefuseAdmission? || e.RefusedDropsGate? || e.RefusedDropsConn? { RefusalEvent(s, e); }
    else { QuietStep(s, Next(s, e)); }
  }

  lemma LookEvent(s: State, pid: nat, c: ChannelId)
    requires Inv(s) && Enabled(s, Look(pid, c))
    ensures Inv(Next(s, Look(pid, c)))
  {
    var d := s.dispatches[pid];
    var (cache, found) := Inspect(s.cache, d.key, d.digest, s.now, c);
    InspectKeepsBooks(s.cache, d.key, d.digest, s.now, c);
    forall k { InspectWaiters(s.cache, d.key, d.digest, s.now, c, k); }
    AnsweredStep(s, pid, cache, found, AfterLook(found));
  }

  lemma RegisterEvent(s: State, pid: nat, c: ChannelId)
    requires Inv(s) && Enabled(s, Register(pid, c))
    ensures Inv(Next(s, Register(pid, c)))
  {
    var d := s.dispatches[pid];
    var (cache, found) := Begin(s.cache, d.key, d.digest, s.now, c);
    BeginKeepsBooks(s.cache, d.key, d.digest, s.now, c);
    forall k { BeginWaiters(s.cache, d.key, d.digest, s.now, c, k); }
    AnsweredStep(s, pid, cache, found, AfterBegin(found));
    var t := Answered(s, pid, cache, found, AfterBegin(found));
    OwnerIsBookkeeping(t, t.owner[d.key := pid]);
  }

  lemma OwnerIsBookkeeping(s: State, owner: map<string, nat>)
    requires Inv(s)
    ensures Inv(s.(owner := owner))
  {
    var t := s.(owner := owner);
    forall c | c in t.channels
      ensures ChannelOk(t, c)
    {
      assert ChannelOk(s, c);
    }
  }

  lemma SettlementEvent(s: State, e: Event)
    requires Inv(s) && Enabled(s, e) && (e.RefusedAbandons? || e.Settle? || e.LatePanic?)
    ensures Inv(Next(s, e))
  {
    var d := s.dispatches[e.pid];
    AbandonKeepsBooks(s.cache, d.key, d.digest, s.now);
    CompleteKeepsBooks(s.cache, d.key, d.digest, e.ack, s.now);
    var completed, abandoned := Complete(s.cache, d.key, d.digest, e.ack, s.now), Abandon(s.cache, d.key, d.digest);
    forall k
      ensures TakenFrom(s.cache, completed.0, completed.1, d.key, k)
      ensures TakenFrom(s.cache, abandoned.0, abandoned.1, d.key, k)
    {
      SettlementWaiters(s.cache, d.key, d.digest, e.ack, s.now, k);
    }
    if e.Settle? && e.complete {
      TakenStep(s, e.pid, Complete(s.cache, d.key, d.digest, e.ack, s.now), e.ack, Replying);
    } else {
      TakenStep(s, e.pid, Abandon(s.cache, d.key, d.digest), e.ack,
                if e.Settle? then Replying else if e.LatePanic? then ReleasesConn else Finished);
    }
  }

  lemma TickEvent(s: State, now: int)
    requires Inv(s) && Enabled(s, Tick(now))
    ensures Inv(Next(s, Tick(now)))
  {
    var t := Next(s, Tick(now));
    forall c | c in t.channels
      ensures ChannelOk(t, c)
    {
      assert ChannelOk(s, c);
    }
  }

  lemma ConnEvent(s: State, e: Event)
    requires Inv(s) && Enabled(s, e) && (e.OpenConn? || e.CloseConn?)
    ensures Inv(Next(s, e))
  {
    QuietStep(s, Next(s, e));
  }

  lemma StepKeepsInvariant(s: State, e: Event)
    requires Inv(s) && Enabled(s, e)
    ensures Inv(Next(s, e))
  {
    if IsQuiet(e) { QuietEvent(s, e); }
    else if e.OpenConn? || e.CloseConn? { ConnEvent(s, e); }
    else if e.Look? { LookEvent(s, e.pid, e.channel); }
    else if e.Register? { RegisterEvent(s, e.pid, e.channel); }
    else if e.RefusedAbandons? || e.Settle? || e.LatePanic? { SettlementEvent(s, e); }
    else if e.Send? { SendStep(s, e.pid); }
    else if e.CloseSent? { CloseStep(s, e.pid); }
    else if e.ClearAll? { ClearStep(s); }
    else if e.RetireGeneration? { RetireStep(s, e.gen); }
    else if e.CloseRetired? { CloseRetiredStep(s, e.channel); }
    else { TickEvent(s, e.now); }
  }

  lemma InitEstablishesInvariant(s: State)
    requires Init(s)
    ensures Inv(s)
  {
  }

  lemma {:induction false} RunKeepsInvariant(s: State, es: seq<Event>)
    requires Inv(s) && Runs(s, es)
    ensures Inv(After(s, es))
    decreases |es|
  {
    if es != [] {
      StepKeepsInvariant(s, es[0]);
      RunKeepsInvariant(Next(s, es[0]), es[1..]);
    }
  }

  // ---- what it means ------------------------------------------------------------

  /** In every run: one close and at most one send per channel, and no send or close on a closed one. */
  lemma ChannelDiscipline(s: State, es: seq<Event>, c: ChannelId)
    requires Init(s) && Runs(s, es) && c in After(s, es).channels
    ensures var ch := After(s, es).channels[c];
            && ch.closes <= 1 && |ch.sends| <= 1
            && (ch.closes == 1 <==> ch.place == Closed)
  {
    InitEstablishesInvariant(s);
    RunKeepsInvariant(s, es);
    assert ChannelOk(After(s, es), c);
  }

  /** No step of any run panics: sends and closes only ever meet an open channel with a free slot. */
  lemma NoSendOrCloseOnClosedChannel(s: State, es: seq<Event>, e: Event)
    requires Init(s) && Runs(s, es) && Enabled(After(s, es), e)
    ensures var t := After(s, es);
            && (e.Send? ==> t.channels[t.dispatches[e.pid].stage.rest[0]].closes == 0
                            && t.channels[t.dispatches[e.pid].stage.rest[0]].sends == [])
            && (e.CloseSent? ==> t.channels[t.dispatches[e.pid].stage.rest[0]].closes == 0)
            && (e.CloseRetired? ==> t.channels[e.channel].closes == 0)
            && (e.ClearAll? ==>
                  forall c :: c in WaitersOf(t.cache.entries, t.cache.entries.Keys) ==>
                    c in t.channels && t.channels[c].closes == 0)
  {
    InitEstablishesInvariant(s);
    RunKeepsInvariant(s, es);
    var t := After(s, es);
    if e.Send? || e.CloseSent? {
      assert t.dispatches[e.pid].stage.rest[0] in RestOf(t.dispatches, e.pid);
      assert ChannelOk(t, t.dispatches[e.pid].stage.rest[0]);
    }
    if e.CloseRetired? { assert ChannelOk(t, e.channel); }
    if e.ClearAll? {
      forall c | c in WaitersOf(t.cache.entries, t.cache.entries.Keys)
        ensures c in t.channels && t.channels[c].closes == 0
      {
        WaitersOfPlaces(t, t.cache.entries.Keys, c);
        assert ChannelOk(t, c);
      }
    }
  }

  /** A run that has come to rest, with nothing in flight, left no waiter hanging. */
  lemma RestingRunClosedEveryChannel(s: State, es: seq<Event>, c: ChannelId)
    requires Init(s) && Runs(s, es) && c in After(s, es).channels
    requires var t := After(s, es);
             && InFlight(t.cache) == {}
             && (forall pid :: pid in t.dispatches ==> !t.dispatches[pid].stage.Delivering?)
             && t.channels[c].place != AtRetirement
    ensures After(s, es).channels[c].closes == 1
  {
    InitEstablishesInvariant(s);
    RunKeepsInvariant(s, es);
    var t := After(s, es);
    forall k
      ensures WaitersAt(t.cache.entries, k) == []
    {
      assert k !in InFlight(t.cache);
    }
    assert ChannelOk(t, c);
  }

  // ---- the size of the cache ------------------------------------------------------

  /** Every begin of the run sees fewer than 256 requests in flight. */
  predicate Uncrowded(s: State, es: seq<Event>)
    requires Runs(s, es)
    decreases |es|
  {
    es == [] || ((es[0].Register? ==> |InFlight(s.cache)| < MAX_ENTRIES) && Uncrowded(Next(s, es[0]), es[1..]))
  }

  lemma FewerKeys(a: map<string, Entry>, b: map<string, Entry>)
    requires b.Keys <= a.Keys
    ensures |b| <= |a|
  {
    assert |a| == |a.Keys| && |b| == |b.Keys|;
    SubsetSize(b.Keys, a.Keys);
  }

  lemma {:induction false} SubsetSize(a: set<string>, b: set<string>)
    requires a <= b
    ensures |a| <= |b|
  {
    if a != {} {
      var x :| x in a;
      SubsetSize(a - {x}, b - {x});
    }
  }

  /** Only a begin that misses adds a key. */
  lemma StepAddsNoKey(s: State, e: Event)
    requires Enabled(s, e)
    requires e.Register? ==>
               Begin(s.cache, s.dispatches[e.pid].key, s.dispatches[e.pid].digest, s.now, e.channel).1 != Miss
    ensures Next(s, e).cache.entries.Keys <= s.cache.entries.Keys
  {
    if e.Look? || e.Register? {
      var d := s.dispatches[e.pid];
      assert Inspect(s.cache, d.key, d.digest, s.now, e.channel).0.entries.Keys <= s.cache.entries.Keys;
    }
  }

  lemma StepStaysWithinLimit(s: State, e: Event)
    requires Inv(s) && Enabled(s, e) && |s.cache.entries| <= MAX_ENTRIES
    requires e.Register? ==> |InFlight(s.cache)| < MAX_ENTRIES
    ensures |Next(s, e).cache.entries| <= MAX_ENTRIES
  {
    if e.Register?
       && Begin(s.cache, s.dispatches[e.pid].key, s.dispatches[e.pid].digest, s.now, e.channel).1 == Miss {
      var d := s.dispatches[e.pid];
      BeginStaysWithinLimit(s.cache, d.key, d.digest, s.now, e.channel);
    } else {
      StepAddsNoKey(s, e);
      FewerKeys(s.cache.entries, Next(s, e).cache.entries);
    }
  }

  /** The cache never outgrows its limit in such a run, whatever is cleared or retired on the way. */
  lemma {:induction false} CacheStaysWithinLimit(s: State, es: seq<Event>)
    requires Inv(s) && Runs(s, es) && Uncrowded(s, es) && |s.cache.entries| <= MAX_ENTRIES
    ensures |After(s, es).cache.entries| <= MAX_ENTRIES
    decreases |es|
  {
    if es != [] {
      StepKeepsInvariant(s, es[0]);
      StepStaysWithinLimit(s, es[0]);
      CacheStaysWithinLimit(Next(s, es[0]), es[1..]);
    }
  }
}
