/**
 * The dispatcher of the extension server as a state machine: any number of
 * resolve, batch and direct-batch dispatches interleave at every lock, counter
 * and channel operation. Channel sends and closes happen after the cache's
 * mutex is released, so each is a step of its own.
 *
 * A connection's read loop takes one message at a time. A dispatch runs in it
 * until its handler is launched as a goroutine, it waits for a coalesced ack, or
 * it is done; a refused direct batch stays in it to the end.
 *
 * `owner`, `source`, `settled` and a channel's `place` are bookkeeping: they
 * record which dispatch registered a key, which dispatch a waiter coalesced on,
 * what a dispatch settled an entry with, and who is responsible for closing a
 * channel. No step reads them.
 */
module Dispatch {
  import opened Prelude
  import opened Idempotency

  datatype Kind = Resolve | Batch | Direct

  datatype Gate = ResolveGate | BatchGate

  function GateOf(kind: Kind): Gate { if kind == Resolve then ResolveGate else BatchGate }

  /** A counter that bounds concurrent work: two gates, and one per connection. */
  datatype Permit = GatePermit(gate: Gate) | ConnPermit(conn: nat)

  function Limit(p: Permit): nat {
    match p
    case GatePermit(ResolveGate) => 2
    case GatePermit(BatchGate) => 1
    case ConnPermit(_) => 4
  }

  datatype Stage =
    | Entered
    | WantsConn
    | WantsGate
    | WantsBegin
    | DropsGate(wait: Option<ChannelId>)
    | DropsConn(wait: Option<ChannelId>)
    | Begun
    | Owns
    | RefusedGate
    | RefusedConn
    | Refused
    | Delivering(ack: Bytes, rest: seq<ChannelId>, sent: bool, next: Stage)
    | Replying
    | ReleasesConn
    | ReleasesGate
    | Waiting(channel: ChannelId)
    | Finished

  datatype Dispatched = Dispatched(kind: Kind, conn: nat, key: string, digest: string, stage: Stage,
                                   settled: Option<Bytes>, received: Option<Option<Bytes>>)

  datatype Place = AtEntry(key: string) | AtDispatch(pid: nat) | AtRetirement | Closed

  datatype Channel = Channel(sends: seq<Bytes>, closes: nat, place: Place)

  datatype State = State(cache: Cache, now: int, permits: map<Permit, int>, dispatches: map<nat, Dispatched>,
                         channels: map<ChannelId, Channel>, owner: map<string, nat>, source: map<ChannelId, nat>,
                         open: set<nat>)

  /** The dispatch is still in its connection's read loop. */
  predicate InLoop(stage: Stage) {
    match stage
    case Entered | WantsConn | WantsGate | WantsBegin | DropsGate(_) | DropsConn(_) | Begun
       | RefusedGate | RefusedConn | Refused => true
    case Delivering(_, _, _, next) => next == Finished
    case _ => false
  }

  predicate LoopIsFree(dispatches: map<nat, Dispatched>, conn: nat) {
    forall pid :: pid in dispatches && dispatches[pid].conn == conn ==> !InLoop(dispatches[pid].stage)
  }

  predicate HoldsConn(stage: Stage) {
    match stage
    case WantsGate | WantsBegin | DropsGate(_) | DropsConn(_) | Begun | Owns | RefusedGate | RefusedConn
       | Replying | ReleasesConn => true
    case Delivering(_, _, _, next) => HoldsConn(next)
    case _ => false
  }

  predicate HoldsGate(stage: Stage) {
    match stage
    case WantsBegin | DropsGate(_) | Begun | Owns | RefusedGate | Replying | ReleasesConn | ReleasesGate => true
    case Delivering(_, _, _, next) => HoldsGate(next)
    case _ => false
  }

  predicate Holds(d: Dispatched, p: Permit) {
    match p
    case GatePermit(gate) => GateOf(d.kind) == gate && HoldsGate(d.stage)
    case ConnPermit(conn) => d.conn == conn && HoldsConn(d.stage)
  }

  function Count(permits: map<Permit, int>, p: Permit): int {
    if p in permits then permits[p] else 0
  }

  function Add(permits: map<Permit, int>, p: Permit, delta: int): map<Permit, int> {
    permits[p := Count(permits, p) + delta]
  }

  datatype Event =
    | OpenConn(conn: nat)
    | CloseConn(conn: nat)
    | Arrive(pid: nat, kind: Kind, conn: nat, key: string, digest: string)
    | Tick(now: int)
    | Look(pid: nat, channel: ChannelId)
    | AcquireConn(pid: nat)
    | ConnBusy(pid: nat)
    | AcquireGate(pid: nat)
    | GateBusy(pid: nat)
    | Register(pid: nat, channel: ChannelId)
    | DropGate(pid: nat)
    | DropConn(pid: nat)
    | Launch(pid: nat)
    | RefuseAdmission(pid: nat)
    | RefusedDropsGate(pid: nat)
    | RefusedDropsConn(pid: nat)
    | RefusedAbandons(pid: nat, ack: Bytes)
    | Settle(pid: nat, complete: bool, ack: Bytes)
    | Send(pid: nat)
    | CloseSent(pid: nat)
    | DeliveryDone(pid: nat)
    | LatePanic(pid: nat, ack: Bytes)
    | Reply(pid: nat)
    | ReleaseConn(pid: nat)
    | ReleaseGate(pid: nat)
    | Receive(pid: nat)
    | ClearAll
    | RetireGeneration(gen: nat)
    | CloseRetired(channel: ChannelId)

  predicate At(s: State, pid: nat, stage: Stage) {
    pid in s.dispatches && s.dispatches[pid].stage == stage
  }

  function CounterOf(d: Dispatched, conn: bool): Permit {
    if conn then ConnPermit(d.conn) else GatePermit(GateOf(d.kind))
  }

  predicate Available(s: State, p: Permit) { Count(s.permits, p) < Limit(p) }

  predicate Enabled(s: State, e: Event) {
    match e
    case OpenConn(conn) =>
      conn !in s.open && forall pid :: pid in s.dispatches ==> s.dispatches[pid].conn != conn
    case CloseConn(conn) => conn in s.open && LoopIsFree(s.dispatches, conn)
    case Arrive(pid, _, conn, _, _) => pid !in s.dispatches && conn in s.open && LoopIsFree(s.dispatches, conn)
    case Tick(now) => s.now <= now
    case Look(pid, c) => At(s, pid, Entered) && c !in s.channels
    case AcquireConn(pid) => At(s, pid, WantsConn) && Available(s, CounterOf(s.dispatches[pid], true))
    case ConnBusy(pid) => At(s, pid, WantsConn) && !Available(s, CounterOf(s.dispatches[pid], true))
    case AcquireGate(pid) => At(s, pid, WantsGate) && Available(s, CounterOf(s.dispatches[pid], false))
    case GateBusy(pid) => At(s, pid, WantsGate) && !Available(s, CounterOf(s.dispatches[pid], false))
    case Register(pid, c) => At(s, pid, WantsBegin) && c !in s.channels
    case DropGate(pid) => pid in s.dispatches && s.dispatches[pid].stage.DropsGate?
    case DropConn(pid) => pid in s.dispatches && s.dispatches[pid].stage.DropsConn?
    case Launch(pid) => At(s, pid, Begun)
    case RefuseAdmission(pid) => At(s, pid, Begun) && s.dispatches[pid].kind == Direct
    case RefusedDropsGate(pid) => At(s, pid, RefusedGate)
    case RefusedDropsConn(pid) => At(s, pid, RefusedConn)
    case RefusedAbandons(pid, _) => At(s, pid, Refused)
    case Settle(pid, _, _) => At(s, pid, Owns)
    case Send(pid) =>
      && pid in s.dispatches && s.dispatches[pid].stage.Delivering?
      && s.dispatches[pid].stage.rest != [] && !s.dispatches[pid].stage.sent
      && s.dispatches[pid].stage.rest[0] in s.channels
    case CloseSent(pid) =>
      && pid in s.dispatches && s.dispatches[pid].stage.Delivering?
      && s.dispatches[pid].stage.rest != [] && s.dispatches[pid].stage.sent
      && s.dispatches[pid].stage.rest[0] in s.channels
    case DeliveryDone(pid) =>
      pid in s.dispatches && s.dispatches[pid].stage.Delivering? && s.dispatches[pid].stage.rest == []
    case LatePanic(pid, _) => At(s, pid, Replying)
    case Reply(pid) => At(s, pid, Replying)
    case ReleaseConn(pid) => At(s, pid, ReleasesConn)
    case ReleaseGate(pid) => At(s, pid, ReleasesGate)
    case Receive(pid) =>
      && pid in s.dispatches && s.dispatches[pid].stage.Waiting?
      && s.dispatches[pid].stage.channel in s.channels
      && var ch := s.channels[s.dispatches[pid].stage.channel];
      ch.sends != [] || ch.closes > 0
    case ClearAll => true
    case RetireGeneration(_) => true
    case CloseRetired(c) => c in s.channels && s.channels[c].place == AtRetirement
  }

  function Go(s: State, pid: nat, stage: Stage): State
    requires pid in s.dispatches
  {
    s.(dispatches := s.dispatches[pid := s.dispatches[pid].(stage := stage)])
  }

  function MoveAll(channels: map<ChannelId, Channel>, ids: set<ChannelId>, place: Place): map<ChannelId, Channel> {
    map c | c in channels :: if c in ids then channels[c].(place := place) else channels[c]
  }

  function CloseAll(channels: map<ChannelId, Channel>, ids: set<ChannelId>): map<ChannelId, Channel> {
    map c | c in channels ::
      if c in ids then Channel(channels[c].sends, channels[c].closes + 1, Closed) else channels[c]
  }

  /** The cache answered a lookup or a begin; a coalesced waiter gets a new channel. */
  function Answered(s: State, pid: nat, cache: Cache, found: Lookup, stage: Stage): State
    requires pid in s.dispatches
  {
    var d := s.dispatches[pid];
    var t := Go(s, pid, stage).(cache := cache);
    if found.Coalesce? then
      t.(channels := s.channels[found.channel := Channel([], 0, AtEntry(d.key))],
         source := if d.key in s.owner then s.source[found.channel := s.owner[d.key]] else s.source)
    else t
  }

  /** A settlement: the entry's waiters are the dispatch's to serve; without a matching entry there is nothing. */
  function Taken(s: State, pid: nat, result: (Cache, seq<ChannelId>), ack: Bytes, next: Stage): State
    requires pid in s.dispatches
  {
    var d := s.dispatches[pid];
    var settled := if Settles(s.cache, d.key, d.digest) then Some(ack) else d.settled;
    s.(cache := result.0,
       dispatches := s.dispatches[pid := d.(stage := Delivering(ack, result.1, false, next), settled := settled)],
       channels := MoveAll(s.channels, (set c | c in result.1), AtDispatch(pid)))
  }

  function AfterLook(found: Lookup): Stage {
    match found
    case Miss => WantsConn
    case Coalesce(c) => Waiting(c)
    case _ => Finished
  }

  function AfterBegin(found: Lookup): Stage {
    match found
    case Miss => Begun
    case Coalesce(c) => DropsGate(Some(c))
    case _ => DropsGate(None)
  }

  function Next(s: State, e: Event): State
    requires Enabled(s, e)
  {
    match e
    case OpenConn(conn) => s.(open := s.open + {conn})
    case CloseConn(conn) => s.(open := s.open - {conn})
    case Arrive(pid, kind, conn, key, digest) =>
      s.(dispatches := s.dispatches[pid := Dispatched(kind, conn, key, digest, Entered, None, None)])
    case Tick(now) => s.(now := now)
    case Look(pid, c) =>
      var d := s.dispatches[pid];
      var (cache, found) := Inspect(s.cache, d.key, d.digest, s.now, c);
      Answered(s, pid, cache, found, AfterLook(found))
    case AcquireConn(pid) =>
      Go(s, pid, WantsGate).(permits := Add(s.permits, CounterOf(s.dispatches[pid], true), 1))
    case ConnBusy(pid) => Go(s, pid, Finished)
    case AcquireGate(pid) =>
      Go(s, pid, WantsBegin).(permits := Add(s.permits, CounterOf(s.dispatches[pid], false), 1))
    case GateBusy(pid) =>
      Go(s, pid, Finished).(permits := Add(s.permits, CounterOf(s.dispatches[pid], true), -1))
    case Register(pid, c) =>
      var d := s.dispatches[pid];
      var (cache, found) := Begin(s.cache, d.key, d.digest, s.now, c);
      var t := Answered(s, pid, cache, found, AfterBegin(found));
      if found == Miss then t.(owner := s.owner[d.key := pid]) else t
    case DropGate(pid) =>
      Go(s, pid, DropsConn(s.dispatches[pid].stage.wait))
      .(permits := Add(s.permits, CounterOf(s.dispatches[pid], false), -1))
    case DropConn(pid) =>
      var wait := s.dispatches[pid].stage.wait;
      Go(s, pid, if wait.Some? then Waiting(wait.value) else Finished)
      .(permits := Add(s.permits, CounterOf(s.dispatches[pid], true), -1))
    case Launch(pid) => Go(s, pid, Owns)
    case RefuseAdmission(pid) => Go(s, pid, RefusedGate)
    case RefusedDropsGate(pid) =>
      Go(s, pid, RefusedConn).(permits := Add(s.permits, CounterOf(s.dispatches[pid], false), -1))
    case RefusedDropsConn(pid) =>
      Go(s, pid, Refused).(permits := Add(s.permits, CounterOf(s.dispatches[pid], true), -1))
    case RefusedAbandons(pid, ack) =>
      var d := s.dispatches[pid];
      Taken(s, pid, Abandon(s.cache, d.key, d.digest), ack, Finished)
    case Settle(pid, complete, ack) =>
      var d := s.dispatches[pid];
      Taken(s, pid, if complete then Complete(s.cache, d.key, d.digest, ack, s.now)
                    else Abandon(s.cache, d.key, d.digest), ack, Replying)
    case Send(pid) =>
      var stage := s.dispatches[pid].stage;
      var ch := s.channels[stage.rest[0]];
      Go(s, pid, stage.(sent := true)).(channels := s.channels[stage.rest[0] := ch.(sends := ch.sends + [stage.ack])])
    case CloseSent(pid) =>
      var stage := s.dispatches[pid].stage;
      Go(s, pid, stage.(rest := stage.rest[1..], sent := false)).(channels := CloseAll(s.channels, {stage.rest[0]}))
    case DeliveryDone(pid) => Go(s, pid, s.dispatches[pid].stage.next)
    case LatePanic(pid, ack) =>
      var d := s.dispatches[pid];
      Taken(s, pid, Abandon(s.cache, d.key, d.digest), ack, ReleasesConn)
    case Reply(pid) => Go(s, pid, ReleasesConn)
    case ReleaseConn(pid) =>
      Go(s, pid, ReleasesGate).(permits := Add(s.permits, CounterOf(s.dispatches[pid], true), -1))
    case ReleaseGate(pid) =>
      Go(s, pid, Finished).(permits := Add(s.permits, CounterOf(s.dispatches[pid], false), -1))
    case Receive(pid) =>
      var d := s.dispatches[pid];
      var ch := s.channels[d.stage.channel];
      s.(dispatches := s.dispatches[pid := d.(stage := Finished,
           received := Some(if ch.sends != [] then Some(ch.sends[0]) else None))])
    case ClearAll =>
      s.(cache := Cache(map[], []),
         channels := CloseAll(s.channels, WaitersOf(s.cache.entries, s.cache.entries.Keys)))
    case RetireGeneration(gen) =>
      s.(cache := Retire(s.cache, gen),
         channels := MoveAll(s.channels, WaitersOf(s.cache.entries, RetiredKeys(s.cache, gen)), AtRetirement))
    case CloseRetired(c) => s.(channels := CloseAll(s.channels, {c}))
  }

  // ---- runs ----------------------------------------------------------------

  predicate Init(s: State) {
    && s.cache == Cache(map[], [])
    && s.permits == map[] && s.dispatches == map[] && s.channels == map[] && s.owner == map[] && s.source == map[]
    && s.open == {}
  }

  predicate Runs(s: State, es: seq<Event>)
    decreases |es|
  {
    es == [] || (Enabled(s, es[0]) && Runs(Next(s, es[0]), es[1..]))
  }

  function After(s: State, es: seq<Event>): State
    requires Runs(s, es)
    decreases |es|
  {
    if es == [] then s else After(Next(s, es[0]), es[1..])
  }
}
