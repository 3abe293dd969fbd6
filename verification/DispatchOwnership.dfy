/**
 * Single ownership and exact delivery. `complete` and `abandon` compare only key
 * and digest, so an old owner may match a newer entry. That happens exactly when
 * a request in flight is cleared or retired, or a dispatch that has settled
 * panics while it writes its reply and its recovery finds an in-flight entry with
 * its key and digest: those steps are the ones that are not clean, and in runs
 * without them ownership is single.
 */
module DispatchOwnership {
  import opened Prelude
  import opened Idempotency
  import opened Dispatch
  import opened DispatchScenarios
  import D = DispatchDelivery

  predicate Clean(s: State, e: Event) {
    match e
    case LatePanic(pid, _) =>
      pid in s.dispatches && !Settles(s.cache, s.dispatches[pid].key, s.dispatches[pid].digest)
    case ClearAll => InFlight(s.cache) == {}
    case RetireGeneration(gen) => InFlight(s.cache) !! RetiredKeys(s.cache, gen)
    case _ => true
  }

  predicate CleanRuns(s: State, es: seq<Event>)
    decreases |es|
  {
    es == [] || (Enabled(s, es[0]) && Clean(s, es[0]) && CleanRuns(Next(s, es[0]), es[1..]))
  }

  /** The dispatch registered its key and has neither completed nor abandoned it. */
  predicate Unsettled(stage: Stage) {
    stage == Begun || stage == Owns || stage == RefusedGate || stage == RefusedConn || stage == Refused
  }

  predicate MaySettle(stage: Stage) {
    match stage
    case Entered | WantsConn | WantsGate | WantsBegin | Begun | Owns | RefusedGate | RefusedConn | Refused
       | DropsGate(_) | DropsConn(_) | Waiting(_) => false
    case _ => true
  }

  predicate SettledWith(s: State, pid: nat, ack: Bytes) {
    pid in s.dispatches && s.dispatches[pid].settled == Some(ack)
  }

  /** An unsettled dispatch owns the in-flight entry of its key. */
  predicate OwnerOk(s: State, pid: nat)
    requires pid in s.dispatches
  {
    var d := s.dispatches[pid];
    && (d.settled.Some? ==> MaySettle(d.stage))
    && (d.stage.Delivering? ==> (d.stage.rest != [] ==> d.settled == Some(d.stage.ack)) && MaySettle(d.stage.next))
    && (Unsettled(d.stage) ==> Settles(s.cache, d.key, d.digest) && d.key in s.owner && s.owner[d.key] == pid)
  }

  /** Every entry traces back to the one dispatch that registered it. */
  predicate EntryOk(s: State, key: string)
    requires key in s.cache.entries
  {
    && key in s.owner && s.owner[key] in s.dispatches
    && s.dispatches[s.owner[key]].key == key
    && if s.cache.entries[key].completed
       then SettledWith(s, s.owner[key], s.cache.entries[key].ack)
       else Unsettled(s.dispatches[s.owner[key]].stage)
  }

  /** A waiter gets what the dispatch it coalesced on settles with, and nothing else. */
  predicate SourceOk(s: State, c: ChannelId)
    requires c in s.channels
  {
    && c in s.source && s.source[c] in s.dispatches
    && var ch := s.channels[c];
       match ch.place
       case AtEntry(key) => key in s.owner && s.source[c] == s.owner[key]
       case AtDispatch(pid) => s.source[c] == pid
       case AtRetirement => false
       case Closed => ch.sends != [] && SettledWith(s, s.source[c], ch.sends[0])
  }

  predicate OwnersOk(s: State) { forall pid :: pid in s.dispatches ==> OwnerOk(s, pid) }

  predicate EntriesOk(s: State) { forall key :: key in s.cache.entries ==> EntryOk(s, key) }

  predicate SourcesOk(s: State) { forall c :: c in s.channels ==> SourceOk(s, c) }

  predicate Owned(s: State) { OwnersOk(s) && EntriesOk(s) && SourcesOk(s) }

  ghost predicate Inv(s: State) { D.Inv(s) && Owned(s) }

  // ---- frames --------------------------------------------------------------

  /** One dispatch moves on without changing whom it owns or what it settled. */
  predicate MovesOn(a: Dispatched, b: Dispatched) {
    && b.key == a.key && b.digest == a.digest && b.settled == a.settled
    && Unsettled(b.stage) == Unsettled(a.stage)
    && (b.settled.Some? ==> MaySettle(b.stage))
    && (b.stage.Delivering? ==> (b.stage.rest != [] ==> b.settled == Some(b.stage.ack)) && MaySettle(b.stage.next))
  }

  predicate SameOwnership(s: State, t: State, pid: nat) {
    && pid in s.dispatches && pid in t.dispatches
    && t.dispatches == s.dispatches[pid := t.dispatches[pid]]
    && MovesOn(s.dispatches[pid], t.dispatches[pid])
    && t.owner == s.owner
  }

  /** In-flight entries stay, up to their waiters; nothing appears. */
  predicate SameInFlight(c: Cache, d: Cache) {
    && (forall k :: k in c.entries && !c.entries[k].completed ==>
          k in d.entries && !d.entries[k].completed && d.entries[k].digest == c.entries[k].digest)
    && (forall k :: k in d.entries ==>
          && k in c.entries
          && d.entries[k].completed == c.entries[k].completed
          && d.entries[k].ack == c.entries[k].ack)
  }

  /** The same, for every key but one. */
  predicate SameInFlightBut(c: Cache, d: Cache, key: string) {
    && (forall k :: k in c.entries && k != key && !c.entries[k].completed ==>
          k in d.entries && !d.entries[k].completed && d.entries[k].digest == c.entries[k].digest)
    && (forall k :: k in d.entries && k != key ==>
          && k in c.entries
          && d.entries[k].completed == c.entries[k].completed
          && d.entries[k].ack == c.entries[k].ack)
  }

  /** A settled dispatch never owns, so a moved one frames every other owner and entry. */
  lemma FrameOthers(s: State, t: State, pid: nat)
    requires OwnersOk(s) && EntriesOk(s) && pid in s.dispatches && pid in t.dispatches
    requires t.dispatches == s.dispatches[pid := t.dispatches[pid]]
    requires var key := s.dispatches[pid].key;
             && t.dispatches[pid].key == key
             && SameInFlightBut(s.cache, t.cache, key)
             && (forall k :: k != key ==> (k in t.owner <==> k in s.owner))
             && (forall k :: k in s.owner && k != key ==> t.owner[k] == s.owner[k])
             && (key in s.cache.entries && !s.cache.entries[key].completed ==> s.owner[key] == pid)
    ensures forall q :: q in t.dispatches && q != pid ==> OwnerOk(t, q)
    ensures forall k :: k in t.cache.entries && k != s.dispatches[pid].key ==>
              EntryOk(s, k) && (s.owner[k] != pid ==> EntryOk(t, k))
  {
    var key := s.dispatches[pid].key;
    forall q | q in t.dispatches && q != pid
      ensures OwnerOk(t, q)
    {
      assert OwnerOk(s, q);
      var d := s.dispatches[q];
      if Unsettled(d.stage) { assert d.key != key; }
    }
    forall k | k in t.cache.entries && k != key
      ensures EntryOk(s, k) && (s.owner[k] != pid ==> EntryOk(t, k))
    {
      assert EntryOk(s, k);
    }
  }

  lemma FrameOwners(s: State, t: State, pid: nat)
    requires OwnersOk(s) && EntriesOk(s)
    requires SameOwnership(s, t, pid) && SameInFlight(s.cache, t.cache)
    ensures OwnersOk(t) && EntriesOk(t)
  {
    forall q | q in t.dispatches
      ensures OwnerOk(t, q)
    {
      assert OwnerOk(s, q);
    }
    forall key | key in t.cache.entries
      ensures EntryOk(t, key)
    {
      assert EntryOk(s, key);
    }
  }

  lemma FrameSources(s: State, t: State, pid: nat)
    requires SourcesOk(s) && SameOwnership(s, t, pid)
    requires t.source == s.source && t.channels == s.channels
    ensures SourcesOk(t)
  {
    forall c | c in t.channels
      ensures SourceOk(t, c)
    {
      assert SourceOk(s, c);
    }
  }

  lemma FrameCache(s: State, t: State)
    requires OwnersOk(s) && EntriesOk(s)
    requires t.dispatches == s.dispatches && t.owner == s.owner && SameInFlight(s.cache, t.cache)
    ensures OwnersOk(t) && EntriesOk(t)
  {
    forall q | q in t.dispatches
      ensures OwnerOk(t, q)
    {
      assert OwnerOk(s, q);
    }
    forall key | key in t.cache.entries
      ensures EntryOk(t, key)
    {
      assert EntryOk(s, key);
    }
  }

  lemma InspectKeepsInFlight(c: Cache, key: string, digest: string, now: int, channel: ChannelId)
    ensures SameInFlight(c, Inspect(c, key, digest, now, channel).0)
  {
  }

  lemma {:induction false} EvictKeepsInFlight(c: Cache)
    ensures SameInFlight(c, Evict(c))
    decreases |c.completed|
  {
    if |c.entries| >= MAX_ENTRIES && c.completed != [] { EvictKeepsInFlight(EvictOne(c)); }
  }

  lemma BeginKeepsInFlight(c: Cache, key: string, digest: string, now: int, channel: ChannelId)
    requires Begin(c, key, digest, now, channel).1 != Miss
    ensures SameInFlight(c, Begin(c, key, digest, now, channel).0)
  {
    InspectKeepsInFlight(c, key, digest, now, channel);
  }

  // ---- steps ------------------------------------------------------------------

  lemma ArriveStep(s: State, e: Event)
    requires Owned(s) && Enabled(s, e) && e.Arrive?
    ensures Owned(Next(s, e))
  {
    var t := Next(s, e);
    forall q | q in t.dispatches
      ensures OwnerOk(t, q)
    {
      if q in s.dispatches { assert OwnerOk(s, q); }
    }
    forall key | key in t.cache.entries
      ensures EntryOk(t, key)
    {
      assert EntryOk(s, key);
    }
    forall c | c in t.channels
      ensures SourceOk(t, c)
    {
      assert SourceOk(s, c);
    }
  }

  predicate IsRelease(e: Event) {
    e.DropGate? || e.DropConn? || e.RefusedDropsGate? || e.RefusedDropsConn? || e.ReleaseConn? || e.ReleaseGate?
  }

  lemma DropSameOwnership(s: State, e: Event)
    requires OwnersOk(s) && Enabled(s, e) && (e.DropGate? || e.DropConn?)
    ensures SameOwnership(s, Next(s, e), e.pid)
  {
    assert OwnerOk(s, e.pid);
  }

  lemma RefusalSameOwnership(s: State, e: Event)
    requires OwnersOk(s) && Enabled(s, e) && (e.RefusedDropsGate? || e.RefusedDropsConn?)
    ensures SameOwnership(s, Next(s, e), e.pid)
  {
    assert OwnerOk(s, e.pid);
  }

  lemma ReleaseSameOwnership(s: State, e: Event)
    requires OwnersOk(s) && Enabled(s, e) && IsRelease(e)
    ensures SameOwnership(s, Next(s, e), e.pid)
  {
    if e.DropGate? || e.DropConn? { DropSameOwnership(s, e); }
    else if e.RefusedDropsGate? || e.RefusedDropsConn? { RefusalSameOwnership(s, e); }
    else { assert OwnerOk(s, e.pid); }
  }

  lemma AcquireSameOwnership(s: State, e: Event)
    requires OwnersOk(s) && Enabled(s, e)
    requires e.AcquireConn? || e.ConnBusy? || e.AcquireGate? || e.GateBusy? || e.Launch? || e.RefuseAdmission?
    ensures SameOwnership(s, Next(s, e), e.pid)
  {
    assert OwnerOk(s, e.pid);
  }

  lemma DeliverySameOwnership(s: State, e: Event)
    requires D.DispatchesOwn(s) && OwnersOk(s) && Enabled(s, e)
    requires e.Send? || e.CloseSent?
    ensures SameOwnership(s, Next(s, e), e.pid)
  {
    assert OwnerOk(s, e.pid);
    assert D.StageOk(s.dispatches[e.pid].stage);
  }

  lemma ReceiveSameOwnership(s: State, e: Event)
    requires OwnersOk(s) && Enabled(s, e) && e.Receive?
    ensures SameOwnership(s, Next(s, e), e.pid)
  {
    assert OwnerOk(s, e.pid);
  }

  lemma FinishSameOwnership(s: State, e: Event)
    requires D.DispatchesOwn(s) && OwnersOk(s) && Enabled(s, e)
    requires e.DeliveryDone? || e.Reply? || e.Receive?
    ensures SameOwnership(s, Next(s, e), e.pid)
  {
    if e.Receive? {
      ReceiveSameOwnership(s, e);
    } else {
      assert OwnerOk(s, e.pid);
      assert D.StageOk(s.dispatches[e.pid].stage);
    }
  }

  /** Steps that move one dispatch on and touch neither cache nor ownership. */
  lemma QuietSameOwnership(s: State, e: Event)
    requires D.DispatchesOwn(s) && OwnersOk(s) && Enabled(s, e)
    requires (D.IsQuiet(e) && !e.Arrive?) || e.Send? || e.CloseSent?
    ensures SameOwnership(s, Next(s, e), e.pid)
  {
    if IsRelease(e) { ReleaseSameOwnership(s, e); }
    else if e.Send? || e.CloseSent? { DeliverySameOwnership(s, e); }
    else if e.DeliveryDone? || e.Reply? || e.Receive? { FinishSameOwnership(s, e); }
    else { AcquireSameOwnership(s, e); }
  }

  lemma QuietStep(s: State, e: Event)
    requires D.DispatchesOwn(s) && Owned(s) && Enabled(s, e)
    requires D.IsQuiet(e) && !e.Arrive?
    ensures Owned(Next(s, e))
  {
    var t := Next(s, e);
    QuietSameOwnership(s, e);
    assert t.source == s.source && t.channels == s.channels && t.cache == s.cache;
    FrameOwners(s, t, e.pid);
    FrameSources(s, t, e.pid);
  }

  lemma SendStep(s: State, e: Event)
    requires D.Inv(s) && Owned(s) && Enabled(s, e) && (e.Send? || e.CloseSent?)
    ensures Owned(Next(s, e))
  {
    var t := Next(s, e);
    QuietSameOwnership(s, e);
    FrameOwners(s, t, e.pid);
    forall c | c in t.channels
      ensures SourceOk(t, c)
    {
      assert SourceOk(s, c);
      SendKeepsSource(s, e, c);
    }
  }

  lemma SendKeepsSource(s: State, e: Event, c: ChannelId)
    requires D.Inv(s) && Owned(s) && Enabled(s, e) && (e.Send? || e.CloseSent?) && c in Next(s, e).channels
    ensures SourceOk(Next(s, e), c)
  {
    var stage := s.dispatches[e.pid].stage;
    assert stage.rest[0] in D.RestOf(s.dispatches, e.pid);
    assert D.ChannelOk(s, stage.rest[0]) && SourceOk(s, stage.rest[0]) && OwnerOk(s, e.pid);
    assert SourceOk(s, c);
  }

  /** A lookup, or a begin that does not miss. */
  lemma AnsweredStep(s: State, pid: nat, cache: Cache, found: Lookup, stage: Stage)
    requires Owned(s) && pid in s.dispatches
    requires !MaySettle(s.dispatches[pid].stage) && !Unsettled(s.dispatches[pid].stage)
    requires !Unsettled(stage) && !stage.Delivering?
    requires SameInFlight(s.cache, cache)
    requires found.Coalesce? ==> found.channel !in s.channels && s.dispatches[pid].key in s.cache.entries
    ensures Owned(Answered(s, pid, cache, found, stage))
  {
    var t := Answered(s, pid, cache, found, stage);
    assert OwnerOk(s, pid);
    FrameOwners(s, t, pid);
    forall c | c in t.channels
      ensures SourceOk(t, c)
    {
      if c in s.channels {
        assert SourceOk(s, c);
      } else {
        assert EntryOk(s, s.dispatches[pid].key);
      }
    }
  }

  lemma LookStep(s: State, pid: nat, c: ChannelId)
    requires Owned(s) && Enabled(s, Look(pid, c))
    ensures Owned(Next(s, Look(pid, c)))
  {
    var d := s.dispatches[pid];
    var (cache, found) := Inspect(s.cache, d.key, d.digest, s.now, c);
    InspectKeepsInFlight(s.cache, d.key, d.digest, s.now, c);
    AnsweredStep(s, pid, cache, found, AfterLook(found));
  }

  lemma RegisterHitStep(s: State, pid: nat, c: ChannelId)
    requires Owned(s) && Enabled(s, Register(pid, c))
    requires Begin(s.cache, s.dispatches[pid].key, s.dispatches[pid].digest, s.now, c).1 != Miss
    ensures Owned(Next(s, Register(pid, c)))
  {
    var d := s.dispatches[pid];
    var (cache, found) := Begin(s.cache, d.key, d.digest, s.now, c);
    BeginKeepsInFlight(s.cache, d.key, d.digest, s.now, c);
    AnsweredStep(s, pid, cache, found, AfterBegin(found));
  }

  /** What a begin that misses does to the entries. */
  lemma MissAdds(c: Cache, key: string, digest: string, now: int, channel: ChannelId)
    requires Begin(c, key, digest, now, channel).1 == Miss
    ensures var d := Begin(c, key, digest, now, channel).0;
            && (key in c.entries ==> c.entries[key].completed)
            && key in d.entries && d.entries[key] == Entry(digest, [], false, 0, [])
            && SameInFlightBut(c, d, key)
  {
    var seen := Inspect(c, key, digest, now, channel).0;
    InspectKeepsInFlight(c, key, digest, now, channel);
    EvictKeepsInFlight(seen);
  }

  /** A begin that misses: no other dispatch is unsettled on this key. */
  lemma RegisterMissStep(s: State, pid: nat, c: ChannelId)
    requires Owned(s) && Enabled(s, Register(pid, c))
    requires Begin(s.cache, s.dispatches[pid].key, s.dispatches[pid].digest, s.now, c).1 == Miss
    requires forall ch :: ch in s.channels && s.channels[ch].place.AtEntry? ==>
               var k := s.channels[ch].place.key; k in s.cache.entries && !s.cache.entries[k].completed
    ensures Owned(Next(s, Register(pid, c)))
  {
    var d := s.dispatches[pid];
    var t := Next(s, Register(pid, c));
    MissAdds(s.cache, d.key, d.digest, s.now, c);
    assert OwnerOk(s, pid);
    FrameOthers(s, t, pid);
    assert OwnerOk(t, pid);
    forall key | key in t.cache.entries
      ensures EntryOk(t, key)
    {
      assert key != d.key ==> EntryOk(s, key);
    }
    forall ch | ch in t.channels
      ensures SourceOk(t, ch)
    {
      assert SourceOk(s, ch);
    }
  }

  /** The settling dispatch owns the entry, so its waiters coalesced on it. */
  lemma TakenStep(s: State, pid: nat, result: (Cache, seq<ChannelId>), ack: Bytes, next: Stage)
    requires Owned(s) && pid in s.dispatches && Unsettled(s.dispatches[pid].stage) && MaySettle(next)
    requires var d := s.dispatches[pid];
             && SameInFlightBut(s.cache, result.0, d.key)
             && (d.key in result.0.entries ==>
                   result.0.entries[d.key].completed && result.0.entries[d.key].ack == ack)
             && (forall c :: c in s.channels && s.channels[c].place == AtEntry(d.key) ==> c in result.1)
             && (forall c :: c in result.1 ==> c in s.channels && s.channels[c].place == AtEntry(d.key))
    ensures Owned(Taken(s, pid, result, ack, next))
  {
    var d := s.dispatches[pid];
    var t := Taken(s, pid, result, ack, next);
    assert OwnerOk(s, pid);
    FrameOthers(s, t, pid);
    assert OwnerOk(t, pid);
    forall key | key in t.cache.entries
      ensures EntryOk(t, key)
    {
      assert key != d.key ==> EntryOk(s, key);
    }
    forall c | c in t.channels
      ensures SourceOk(t, c)
    {
      assert SourceOk(s, c);
    }
  }

  lemma SettlementEffect(c: Cache, key: string, digest: string, ack: Bytes, now: int)
    requires Settles(c, key, digest)
    ensures var r := Complete(c, key, digest, ack, now);
            && r.1 == c.entries[key].waiters
            && SameInFlightBut(c, r.0, key)
            && (key in r.0.entries ==> r.0.entries[key].completed && r.0.entries[key].ack == ack)
    ensures var r := Abandon(c, key, digest);
            && r.1 == c.entries[key].waiters
            && SameInFlightBut(c, r.0, key)
            && key !in r.0.entries
  {
  }

  lemma SettlementStep(s: State, e: Event)
    requires D.Inv(s) && Owned(s) && Enabled(s, e) && (e.RefusedAbandons? || e.Settle?)
    ensures Owned(Next(s, e))
  {
    var d := s.dispatches[e.pid];
    assert OwnerOk(s, e.pid);
    SettlementEffect(s.cache, d.key, d.digest, e.ack, s.now);
    forall c | c in s.channels && s.channels[c].place == AtEntry(d.key)
      ensures c in s.cache.entries[d.key].waiters
    {
      assert D.ChannelOk(s, c);
    }
    assert D.WaitersAt(s.cache.entries, d.key) == s.cache.entries[d.key].waiters;
    if e.Settle? && e.complete {
      TakenStep(s, e.pid, Complete(s.cache, d.key, d.digest, e.ack, s.now), e.ack, Replying);
    } else {
      TakenStep(s, e.pid, Abandon(s.cache, d.key, d.digest), e.ack, if e.Settle? then Replying else Finished);
    }
  }

  /** A late panic that matches no entry takes nothing. */
  lemma LatePanicStep(s: State, pid: nat, ack: Bytes)
    requires Owned(s) && Enabled(s, LatePanic(pid, ack)) && Clean(s, LatePanic(pid, ack))
    ensures Owned(Next(s, LatePanic(pid, ack)))
  {
    var t := Next(s, LatePanic(pid, ack));
    assert OwnerOk(s, pid);
    assert t.channels == s.channels && t.source == s.source && t.cache == s.cache;
    FrameOwners(s, t, pid);
    FrameSources(s, t, pid);
  }

  /** Clearing or retiring only completed entries closes no channel. */
  lemma CacheWideStep(s: State, e: Event)
    requires D.Inv(s) && Owned(s) && Enabled(s, e) && Clean(s, e)
    requires e.ClearAll? || e.RetireGeneration? || e.Tick? || e.OpenConn? || e.CloseConn?
    ensures Owned(Next(s, e))
  {
    var t := Next(s, e);
    if e.ClearAll? {
      NoWaitersAmong(s, s.cache.entries.Keys);
      assert forall k :: k !in InFlight(s.cache);
    }
    if e.RetireGeneration? { NoWaitersAmong(s, RetiredKeys(s.cache, e.gen)); }
    assert t.channels == s.channels;
    assert SameInFlight(s.cache, t.cache);
    FrameCache(s, t);
    forall c | c in t.channels
      ensures SourceOk(t, c)
    {
      assert SourceOk(s, c);
    }
  }

  lemma NoWaitersAmong(s: State, keys: set<string>)
    requires D.Inv(s) && InFlight(s.cache) !! keys
    ensures WaitersOf(s.cache.entries, keys) == {}
  {
    forall k | k in keys && k in s.cache.entries
      ensures s.cache.entries[k].waiters == []
    {
      assert k !in InFlight(s.cache);
    }
  }

  lemma WaitersAreInFlight(s: State)
    requires D.Inv(s)
    ensures forall ch :: ch in s.channels && s.channels[ch].place.AtEntry? ==>
              var k := s.channels[ch].place.key; k in s.cache.entries && !s.cache.entries[k].completed
  {
    forall ch | ch in s.channels && s.channels[ch].place.AtEntry?
      ensures var k := s.channels[ch].place.key; k in s.cache.entries && !s.cache.entries[k].completed
    {
      assert D.ChannelOk(s, ch);
    }
  }

  lemma NothingIsRetired(s: State, c: ChannelId)
    requires SourcesOk(s) && c in s.channels
    ensures s.channels[c].place != AtRetirement
  {
    assert SourceOk(s, c);
  }

  lemma StepKeepsOwnership(s: State, e: Event)
    requires D.Inv(s) && Owned(s) && Enabled(s, e) && Clean(s, e)
    ensures Owned(Next(s, e))
  {
    if e.Arrive? { ArriveStep(s, e); }
    else if D.IsQuiet(e) { QuietStep(s, e); }
    else if e.Look? { LookStep(s, e.pid, e.channel); }
    else if e.Register? {
      WaitersAreInFlight(s);
      var d := s.dispatches[e.pid];
      if Begin(s.cache, d.key, d.digest, s.now, e.channel).1 == Miss { RegisterMissStep(s, e.pid, e.channel); }
      else { RegisterHitStep(s, e.pid, e.channel); }
    }
    else if e.RefusedAbandons? || e.Settle? { SettlementStep(s, e); }
    else if e.LatePanic? { LatePanicStep(s, e.pid, e.ack); }
    else if e.Send? || e.CloseSent? { SendStep(s, e); }
    else if e.CloseRetired? { NothingIsRetired(s, e.channel); assert false; }
    else { CacheWideStep(s, e); }
  }

  lemma StepKeepsInvariant(s: State, e: Event)
    requires Inv(s) && Enabled(s, e) && Clean(s, e)
    ensures Inv(Next(s, e))
  {
    D.StepKeepsInvariant(s, e);
    StepKeepsOwnership(s, e);
  }

  lemma {:induction false} CleanRunKeepsInvariant(s: State, es: seq<Event>)
    requires Inv(s) && CleanRuns(s, es)
    ensures Runs(s, es) && Inv(After(s, es))
    decreases |es|
  {
    if es != [] {
      StepKeepsInvariant(s, es[0]);
      CleanRunKeepsInvariant(Next(s, es[0]), es[1..]);
    }
  }

  lemma CleanRunFromStart(s: State, es: seq<Event>)
    requires Init(s) && CleanRuns(s, es)
    ensures Runs(s, es) && Inv(After(s, es))
  {
    D.InitEstablishesInvariant(s);
    CleanRunKeepsInvariant(s, es);
  }

  // ---- what it means -------------------------------------------------------------

  /** At any moment of a clean run, one key has at most one unsettled owner. */
  lemma SingleOwner(s: State, es: seq<Event>, p: nat, q: nat)
    requires Init(s) && CleanRuns(s, es)
    requires Runs(s, es) && p in After(s, es).dispatches && q in After(s, es).dispatches
    requires var t := After(s, es);
             && Unsettled(t.dispatches[p].stage) && Unsettled(t.dispatches[q].stage)
             && t.dispatches[p].key == t.dispatches[q].key
    ensures p == q
  {
    CleanRunFromStart(s, es);
    assert OwnerOk(After(s, es), p) && OwnerOk(After(s, es), q);
  }

  /** While a dispatch is unsettled, no lookup and no begin on its key misses. */
  lemma NoSecondMiss(s: State, es: seq<Event>, p: nat, digest: string, channel: ChannelId)
    requires Init(s) && CleanRuns(s, es)
    requires Runs(s, es) && p in After(s, es).dispatches && Unsettled(After(s, es).dispatches[p].stage)
    ensures var t := After(s, es);
            var key := t.dispatches[p].key;
            && Inspect(t.cache, key, digest, t.now, channel).1 != Miss
            && Begin(t.cache, key, digest, t.now, channel).1 != Miss
            && !Begin(t.cache, key, digest, t.now, channel).1.Hit?
  {
    CleanRunFromStart(s, es);
    assert OwnerOk(After(s, es), p);
  }

  /** What a coalesced waiter receives is exactly what the dispatch it waited for settled with. */
  lemma WaiterReceivesOwnersBytes(s: State, es: seq<Event>, pid: nat)
    requires Init(s) && CleanRuns(s, es)
    requires Runs(s, es) && Enabled(After(s, es), Receive(pid))
    ensures var t := After(s, es);
            var c := t.dispatches[pid].stage.channel;
            var u := Next(t, Receive(pid));
            && c in t.source && t.source[c] in t.dispatches
            && t.dispatches[t.source[c]].settled.Some?
            && u.dispatches[pid].received == Some(t.dispatches[t.source[c]].settled)
  {
    CleanRunFromStart(s, es);
    var t := After(s, es);
    var c := t.dispatches[pid].stage.channel;
    assert SourceOk(t, c) && D.ChannelOk(t, c);
    if t.channels[c].place.AtDispatch? { assert OwnerOk(t, t.channels[c].place.pid); }
  }

  /** A hit replays exactly what the dispatch that registered the key settled with. */
  lemma HitReplaysOwnersBytes(s: State, es: seq<Event>, key: string, digest: string, channel: ChannelId)
    requires Init(s) && CleanRuns(s, es)
    requires Runs(s, es) && Inspect(After(s, es).cache, key, digest, After(s, es).now, channel).1.Hit?
    ensures var t := After(s, es);
            var found := Inspect(t.cache, key, digest, t.now, channel).1;
            key in t.owner && SettledWith(t, t.owner[key], found.ack)
  {
    CleanRunFromStart(s, es);
    assert EntryOk(After(s, es), key);
  }

  // ---- exactly the clean steps protect ownership ---------------------------------

  /** The dispatch is not unsettled on a key that another one could come to own. */
  ghost predicate Protected(t: State, pid: nat)
    requires pid in t.dispatches
  {
    Unsettled(t.dispatches[pid].stage) ==>
      forall digest, channel :: Begin(t.cache, t.dispatches[pid].key, digest, t.now, channel).1 != Miss
  }

  ghost predicate AllProtected(t: State) { forall pid :: pid in t.dispatches ==> Protected(t, pid) }

  /** Every state of the run, from its first step on, protects its unsettled dispatches. */
  ghost predicate ProtectedRuns(s: State, es: seq<Event>)
    decreases |es|
  {
    es == [] || (Enabled(s, es[0]) && AllProtected(Next(s, es[0])) && ProtectedRuns(Next(s, es[0]), es[1..]))
  }

  lemma OwnedIsProtected(t: State)
    requires Owned(t)
    ensures AllProtected(t)
  {
    forall pid, digest, channel | pid in t.dispatches && Unsettled(t.dispatches[pid].stage)
      ensures Begin(t.cache, t.dispatches[pid].key, digest, t.now, channel).1 != Miss
    {
      assert OwnerOk(t, pid);
    }
  }

  /** An unsettled dispatch whose entry is gone is not protected. */
  lemma MissingEntryIsUnprotected(t: State, pid: nat)
    requires pid in t.dispatches && Unsettled(t.dispatches[pid].stage)
    requires t.dispatches[pid].key !in t.cache.entries
    ensures !Protected(t, pid)
  {
    assert Begin(t.cache, t.dispatches[pid].key, "", t.now, 0).1 == Miss;
  }

  /** A step that removes an entry in flight leaves its owner unprotected. */
  lemma RemovedEntryIsUnprotected(s: State, t: State, key: string)
    requires Owned(s) && key in InFlight(s.cache) && key !in t.cache.entries
    requires s.owner[key] in t.dispatches
    requires t.dispatches[s.owner[key]].key == key
    requires Unsettled(t.dispatches[s.owner[key]].stage)
    ensures !AllProtected(t)
  {
    MissingEntryIsUnprotected(t, s.owner[key]);
  }

  lemma UncleanClearIsUnprotected(s: State)
    requires Owned(s) && !Clean(s, ClearAll)
    ensures !AllProtected(Next(s, ClearAll))
  {
    var key :| key in InFlight(s.cache);
    assert EntryOk(s, key);
    RemovedEntryIsUnprotected(s, Next(s, ClearAll), key);
  }

  lemma UncleanRetirementIsUnprotected(s: State, gen: nat)
    requires Owned(s) && !Clean(s, RetireGeneration(gen))
    ensures !AllProtected(Next(s, RetireGeneration(gen)))
  {
    var key :| key in InFlight(s.cache) && key in RetiredKeys(s.cache, gen);
    assert EntryOk(s, key);
    RemovedEntryIsUnprotected(s, Next(s, RetireGeneration(gen)), key);
  }

  lemma UncleanPanicIsUnprotected(s: State, pid: nat, ack: Bytes)
    requires Owned(s) && Enabled(s, LatePanic(pid, ack)) && !Clean(s, LatePanic(pid, ack))
    ensures !AllProtected(Next(s, LatePanic(pid, ack)))
  {
    var key := s.dispatches[pid].key;
    assert EntryOk(s, key);
    assert key in InFlight(s.cache);
    RemovedEntryIsUnprotected(s, Next(s, LatePanic(pid, ack)), key);
  }

  /** In a clean run, the next step keeps every unsettled dispatch protected if and only if it is clean. */
  lemma CleanIffProtected(s: State, es: seq<Event>, e: Event)
    requires Init(s) && CleanRuns(s, es) && Runs(s, es) && Enabled(After(s, es), e)
    ensures Clean(After(s, es), e) <==> AllProtected(Next(After(s, es), e))
  {
    CleanRunFromStart(s, es);
    StepCleanIffProtected(After(s, es), e);
  }

  lemma StepCleanIffProtected(s: State, e: Event)
    requires Inv(s) && Enabled(s, e)
    ensures Clean(s, e) <==> AllProtected(Next(s, e))
  {
    if Clean(s, e) {
      StepKeepsOwnership(s, e);
      OwnedIsProtected(Next(s, e));
    } else if e.ClearAll? {
      UncleanClearIsUnprotected(s);
    } else if e.RetireGeneration? {
      UncleanRetirementIsUnprotected(s, e.gen);
    } else {
      UncleanPanicIsUnprotected(s, e.pid, e.ack);
    }
  }

  /** The clean runs are exactly the runs in which no unsettled dispatch is ever exposed to a second owner. */
  lemma CleanRunsAreTheProtectedOnes(s: State, es: seq<Event>)
    requires Init(s)
    ensures CleanRuns(s, es) <==> ProtectedRuns(s, es)
  {
    D.InitEstablishesInvariant(s);
    CleanIffProtectedThroughout(s, es);
  }

  lemma {:induction false} CleanIffProtectedThroughout(s: State, es: seq<Event>)
    requires Inv(s)
    ensures CleanRuns(s, es) <==> ProtectedRuns(s, es)
    decreases |es|
  {
    if es != [] && Enabled(s, es[0]) {
      StepCleanIffProtected(s, es[0]);
      if Clean(s, es[0]) {
        StepKeepsInvariant(s, es[0]);
        CleanIffProtectedThroughout(Next(s, es[0]), es[1..]);
      }
    }
  }

  // ---- what an unclean step leads to ------------------------------------------------

  /** A resolve of some generation, as the server keys it. */
  function ResolveRequest(gen: nat, requestId: string, digest: string): Request {
    Request(Resolve, 0, IdempKey(gen, MSG_RESOLVE, requestId), digest)
  }

  /** One dispatch, the first on the first connection, owns its key, and nothing else is there. */
  predicate OwnsAlone(t: State, r: Request) {
    && t.dispatches == map[0 := InStage(r, Owns)] && t.channels == map[] && t.open == {0}
    && t.cache == Cache(map[r.key := Entry(r.digest, [], false, 0, [])], [])
    && Count(t.permits, GateFor(r)) == 1 && Count(t.permits, ConnPermit(0)) == 1
  }

  lemma FirstOwner(s: State, r: Request) returns (es: seq<Event>)
    requires Init(s) && r.kind == Resolve && r.conn == 0
    ensures Runs(s, es) && OwnsAlone(After(s, es), r)
  {
    OneMoreStep(s, [], OpenConn(0));
    es := Acquires(s, [] + [OpenConn(0)], 0, r);
  }

  /** Clearing while a request is in flight lets a second dispatch own its key. */
  lemma ClearInFlightBreaksSingleOwner(s: State, gen: nat, requestId: string, digest: string)
    returns (es: seq<Event>)
    requires Init(s)
    ensures Runs(s, es)
    ensures var t := After(s, es);
            && 0 in t.dispatches && 1 in t.dispatches
            && Unsettled(t.dispatches[0].stage) && Unsettled(t.dispatches[1].stage)
            && t.dispatches[0].key == t.dispatches[1].key == IdempKey(gen, MSG_RESOLVE, requestId)
  {
    var r := ResolveRequest(gen, requestId, digest);
    es := FirstOwner(s, r);
    OneMoreStep(s, es, ClearAll);
    es := es + [ClearAll];
    assert After(s, es).dispatches[0].stage == Owns;
    es := Acquires(s, es, 1, r);
  }

  /** A key that was settled without a result is free again while its old owner still holds its permits. */
  lemma AbandonsAndLingers(s: State, es: seq<Event>, pid: nat) returns (more: seq<Event>)
    requires Runs(s, es) && Enabled(After(s, es), Settle(pid, false, []))
    requires var t := After(s, es);
             var d := t.dispatches[pid];
             d.key in t.cache.entries && t.cache.entries[d.key] == Entry(d.digest, [], false, 0, [])
    ensures Runs(s, more)
    ensures var t := After(s, es);
            var u := After(s, more);
            && u.dispatches == t.dispatches[pid := t.dispatches[pid].(stage := Replying, settled := Some([]))]
            && u.cache == t.cache.(entries := t.cache.entries - {t.dispatches[pid].key})
            && u.channels.Keys == t.channels.Keys && u.permits == t.permits && u.open == t.open
  {
    OneMoreStep(s, es, Settle(pid, false, []));
    more := es + [Settle(pid, false, [])];
    OneMoreStep(s, more, DeliveryDone(pid));
    more := more + [DeliveryDone(pid)];
  }

  /** The first owner has settled and is about to write its reply; its key is free again. */
  lemma FirstOwnerLingers(s: State, r: Request) returns (es: seq<Event>)
    requires Init(s) && r.kind == Resolve && r.conn == 0
    ensures Runs(s, es)
    ensures var t := After(s, es);
            t.dispatches == map[0 := InStage(r, Replying).(settled := Some([]))] && IsFree(t, r)
  {
    hide After, Runs, Next;
    es := FirstOwner(s, r);
    es := AbandonsAndLingers(s, es, 0);
  }

  /** A panic while the reply is written abandons the entry of the dispatch that took the key over. */
  lemma LatePanicAbandonsForeignEntry(s: State, gen: nat, requestId: string, digest: string)
    returns (es: seq<Event>)
    requires Init(s)
    ensures Runs(s, es)
    ensures var t := After(s, es);
            && 1 in t.dispatches && Unsettled(t.dispatches[1].stage)
            && t.dispatches[1].key == IdempKey(gen, MSG_RESOLVE, requestId) && t.dispatches[1].key !in t.cache.entries
  {
    var r := ResolveRequest(gen, requestId, digest);
    es := FirstOwnerLingers(s, r);
    es := Acquires(s, es, 1, r);
    OneMoreStep(s, es, LatePanic(0, []));
    es := es + [LatePanic(0, [])];
  }
}
