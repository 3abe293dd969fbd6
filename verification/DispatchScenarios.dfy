/** How a dispatch comes to own a free key, for building particular runs. */
module DispatchScenarios {
  import opened Prelude
  import opened Idempotency
  import opened Dispatch

  lemma {:induction false} OneMoreStep(s: State, es: seq<Event>, e: Event)
    requires Runs(s, es) && Enabled(After(s, es), e)
    ensures Runs(s, es + [e]) && After(s, es + [e]) == Next(After(s, es), e)
    decreases |es|
  {
    if es == [] {
      assert es + [e] == [e];
      assert Runs(Next(s, e), [e][1..]);
    } else {
      assert (es + [e])[1..] == es[1..] + [e];
      OneMoreStep(Next(s, es[0]), es[1..], e);
    }
  }

  /** Who asks for what: the fields of a dispatch that never change. */
  datatype Request = Request(kind: Kind, conn: nat, key: string, digest: string)

  function InStage(r: Request, stage: Stage): Dispatched {
    Dispatched(r.kind, r.conn, r.key, r.digest, stage, None, None)
  }

  function GateFor(r: Request): Permit { GatePermit(GateOf(r.kind)) }

  /** What a dispatch must find to go all the way to ownership. */
  predicate IsFree(t: State, r: Request) {
    && r.conn in t.open && LoopIsFree(t.dispatches, r.conn)
    && r.key !in t.cache.entries && (|t.cache.entries| < MAX_ENTRIES || t.cache.completed == []) && 0 !in t.channels
    && Available(t, ConnPermit(r.conn)) && Available(t, GateFor(r))
  }

  /** Only `pid` has moved on, and only as far as the permits and the cache say. */
  predicate Advanced(t: State, u: State, pid: nat, r: Request, stage: Stage) {
    u.dispatches == t.dispatches[pid := InStage(r, stage)] && u.channels == t.channels && u.open == t.open
  }

  predicate TookBoth(t: State, u: State, r: Request) {
    && Count(u.permits, GateFor(r)) == Count(t.permits, GateFor(r)) + 1
    && Count(u.permits, ConnPermit(r.conn)) == Count(t.permits, ConnPermit(r.conn)) + 1
    && forall gate :: GatePermit(gate) != GateFor(r) ==>
         Count(u.permits, GatePermit(gate)) == Count(t.permits, GatePermit(gate))
  }

  /** No connection is closed on the way. */
  predicate NoClose(es: seq<Event>) { forall i :: 0 <= i < |es| ==> !es[i].CloseConn? }

  lemma MissedLook(s: State, es: seq<Event>, pid: nat, r: Request) returns (more: seq<Event>)
    requires Runs(s, es) && pid !in After(s, es).dispatches && IsFree(After(s, es), r)
    ensures Runs(s, more) && (NoClose(es) ==> NoClose(more))
    ensures After(s, more) == After(s, es).(dispatches := After(s, es).dispatches[pid := InStage(r, WantsConn)])
  {
    var t := After(s, es);
    OneMoreStep(s, es, Arrive(pid, r.kind, r.conn, r.key, r.digest));
    more := es + [Arrive(pid, r.kind, r.conn, r.key, r.digest)];
    OneMoreStep(s, more, Look(pid, 0));
    more := more + [Look(pid, 0)];
    assert After(s, more).dispatches == t.dispatches[pid := InStage(r, WantsConn)];
  }

  lemma ConnTaken(t: State, pid: nat, r: Request)
    requires pid in t.dispatches && t.dispatches[pid] == InStage(r, WantsConn) && Available(t, ConnPermit(r.conn))
    ensures Enabled(t, AcquireConn(pid))
    ensures Next(t, AcquireConn(pid))
            == t.(dispatches := t.dispatches[pid := InStage(r, WantsGate)],
                  permits := Add(t.permits, ConnPermit(r.conn), 1))
  {
  }

  lemma GateTaken(t: State, pid: nat, r: Request)
    requires pid in t.dispatches && t.dispatches[pid] == InStage(r, WantsGate) && Available(t, GateFor(r))
    ensures Enabled(t, AcquireGate(pid))
    ensures Next(t, AcquireGate(pid))
            == t.(dispatches := t.dispatches[pid := InStage(r, WantsBegin)], permits := Add(t.permits, GateFor(r), 1))
  {
  }

  lemma BothTaken(t: State, pid: nat, r: Request)
    requires pid in t.dispatches && t.dispatches[pid] == InStage(r, WantsConn)
    requires Available(t, ConnPermit(r.conn)) && Available(t, GateFor(r))
    ensures Runs(t, [AcquireConn(pid), AcquireGate(pid)])
    ensures var u := After(t, [AcquireConn(pid), AcquireGate(pid)]);
            Advanced(t, u, pid, r, WantsBegin) && u.cache == t.cache && TookBoth(t, u, r)
  {
    ConnTaken(t, pid, r);
    var u := Next(t, AcquireConn(pid));
    GateTaken(u, pid, r);
    assert [AcquireConn(pid), AcquireGate(pid)][1..] == [AcquireGate(pid)];
    assert Runs(u, [AcquireGate(pid)]) && After(u, [AcquireGate(pid)]) == Next(u, AcquireGate(pid)) by {
      OneMoreStep(u, [], AcquireGate(pid));
      assert [] + [AcquireGate(pid)] == [AcquireGate(pid)];
    }
  }

  lemma {:induction false} Continued(s: State, es: seq<Event>, more: seq<Event>)
    requires Runs(s, es) && Runs(After(s, es), more)
    ensures Runs(s, es + more) && After(s, es + more) == After(After(s, es), more)
    decreases |es|
  {
    if es == [] {
      assert es + more == more;
    } else {
      assert (es + more)[1..] == es[1..] + more;
      Continued(Next(s, es[0]), es[1..], more);
    }
  }

  lemma ReadyToRegister(s: State, es: seq<Event>, pid: nat, r: Request) returns (more: seq<Event>)
    requires Runs(s, es) && pid !in After(s, es).dispatches && IsFree(After(s, es), r)
    ensures Runs(s, more) && (NoClose(es) ==> NoClose(more))
    ensures var t := After(s, es);
            var u := After(s, more);
            Advanced(t, u, pid, r, WantsBegin) && u.cache == t.cache && TookBoth(t, u, r)
  {
    var looked := MissedLook(s, es, pid, r);
    BothTaken(After(s, looked), pid, r);
    Continued(s, looked, [AcquireConn(pid), AcquireGate(pid)]);
    more := looked + [AcquireConn(pid), AcquireGate(pid)];
  }

  lemma RegisterFreeKey(u: State, pid: nat, r: Request)
    requires r.key !in u.cache.entries && (|u.cache.entries| < MAX_ENTRIES || u.cache.completed == [])
    requires 0 !in u.channels && pid in u.dispatches && u.dispatches[pid] == InStage(r, WantsBegin)
    ensures Enabled(u, Register(pid, 0))
    ensures var v := Next(u, Register(pid, 0));
            && Advanced(u, v, pid, r, Begun) && v.permits == u.permits
            && v.cache == u.cache.(entries := u.cache.entries[r.key := Entry(r.digest, [], false, 0, [])])
  {
    assert Evict(u.cache) == u.cache;
  }

  /** A request for a free key goes all the way to its registration. */
  lemma Registers(s: State, es: seq<Event>, pid: nat, r: Request) returns (more: seq<Event>)
    requires Runs(s, es) && pid !in After(s, es).dispatches && IsFree(After(s, es), r)
    ensures Runs(s, more) && (NoClose(es) ==> NoClose(more))
    ensures var t := After(s, es);
            var u := After(s, more);
            && Advanced(t, u, pid, r, Begun) && TookBoth(t, u, r)
            && u.cache == t.cache.(entries := t.cache.entries[r.key := Entry(r.digest, [], false, 0, [])])
  {
    more := ReadyToRegister(s, es, pid, r);
    RegisterFreeKey(After(s, more), pid, r);
    OneMoreStep(s, more, Register(pid, 0));
    more := more + [Register(pid, 0)];
  }

  /** And on to its handler: the read loop is free again. */
  lemma Acquires(s: State, es: seq<Event>, pid: nat, r: Request) returns (more: seq<Event>)
    requires Runs(s, es) && pid !in After(s, es).dispatches && IsFree(After(s, es), r)
    ensures Runs(s, more) && (NoClose(es) ==> NoClose(more))
    ensures var t := After(s, es);
            var u := After(s, more);
            && Advanced(t, u, pid, r, Owns) && TookBoth(t, u, r)
            && u.cache == t.cache.(entries := t.cache.entries[r.key := Entry(r.digest, [], false, 0, [])])
  {
    more := Registers(s, es, pid, r);
    OneMoreStep(s, more, Launch(pid));
    more := more + [Launch(pid)];
  }
}
