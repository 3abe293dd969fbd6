/**
 * Runs that attain the bounds of module DispatchBound: any number of connections,
 * each with a refused direct batch that lingers past its gate, and one more
 * connection whose handlers hold all three gates.
 */
module DispatchCrowd {
  import opened Prelude
  import opened Decimal
  import opened Idempotency
  import opened Dispatch
  import opened DispatchScenarios
  import opened DispatchBound
  import P = DispatchPermits

  // ---- lingering batches ----------------------------------------------------------

  function DirectKey(i: nat): string { IdempKey(0, MSG_DIRECT, Dec(i)) }

  /** The direct batch that connection `i` sends. */
  function DirectRequest(i: nat, digest: string): Request { Request(Direct, i, DirectKey(i), digest) }

  lemma DirectKeyInjective(i: nat, j: nat)
    requires DirectKey(i) == DirectKey(j)
    ensures i == j
  {
    KeyInjective(0, MSG_DIRECT, Dec(i), 0, MSG_DIRECT, Dec(j));
    DecInjective(i, j);
  }

  function UpTo(n: nat): (s: set<nat>)
    ensures |s| == n && forall i: nat :: i in s <==> i < n
  {
    if n == 0 then {} else UpTo(n - 1) + {n - 1}
  }

  function DirectKeys(n: nat): set<string> { set i | 0 <= i < n :: DirectKey(i) }

  /** The cache holds the given keys, all in flight. */
  predicate AllInFlight(c: Cache, keys: set<string>) {
    && c.entries.Keys == keys && c.completed == []
    && forall key :: key in c.entries ==> !c.entries[key].completed
  }

  /** The first `n` connections have each a refused direct batch that lingers, all else is idle. */
  predicate Lingering(t: State, n: nat, digest: string) {
    && t.dispatches == (map i | i in UpTo(n) :: InStage(DirectRequest(i, digest), Refused))
    && AllInFlight(t.cache, DirectKeys(n))
    && t.channels == map[] && t.open == UpTo(n)
  }

  /** A refused direct batch gives both permits back before it abandons its entry. */
  lemma Lingers(s: State, es: seq<Event>, pid: nat, r: Request) returns (more: seq<Event>)
    requires Runs(s, es) && r.kind == Direct
    requires pid in After(s, es).dispatches && After(s, es).dispatches[pid] == InStage(r, Begun)
    ensures Runs(s, more) && (NoClose(es) ==> NoClose(more))
    ensures Advanced(After(s, es), After(s, more), pid, r, Refused) && After(s, more).cache == After(s, es).cache
  {
    OneMoreStep(s, es, RefuseAdmission(pid));
    more := es + [RefuseAdmission(pid)];
    OneMoreStep(s, more, RefusedDropsGate(pid));
    more := more + [RefusedDropsGate(pid)];
    OneMoreStep(s, more, RefusedDropsConn(pid));
    more := more + [RefusedDropsConn(pid)];
  }

  lemma LingerersHoldNothing(s: State, es: seq<Event>, n: nat, digest: string, p: Permit)
    requires Init(s) && Runs(s, es) && Lingering(After(s, es), n, digest)
    ensures Count(After(s, es).permits, p) == 0
  {
    P.PermitsBounded(s, es, p);
    assert P.Holders(After(s, es).dispatches, p) == {};
  }

  /** A new connection opens. */
  lemma Opens(s: State, es: seq<Event>, n: nat, digest: string) returns (more: seq<Event>)
    requires Init(s) && Runs(s, es) && NoClose(es) && Lingering(After(s, es), n, digest)
    ensures Runs(s, more) && NoClose(more)
    ensures After(s, more) == After(s, es).(open := UpTo(n + 1))
  {
    OneMoreStep(s, es, OpenConn(n));
    more := es + [OpenConn(n)];
    assert UpTo(n) + {n} == UpTo(n + 1);
  }

  lemma NextKeyIsFree(n: nat)
    ensures DirectKey(n) !in DirectKeys(n)
    ensures DirectKeys(n + 1) == DirectKeys(n) + {DirectKey(n)}
  {
    if DirectKey(n) in DirectKeys(n) {
      var i :| 0 <= i < n && DirectKey(i) == DirectKey(n);
      DirectKeyInjective(i, n);
      assert false;
    }
  }

  lemma LingeringGrows(t: State, u: State, n: nat, digest: string)
    requires Lingering(t, n, digest)
    requires u.dispatches == t.dispatches[n := InStage(DirectRequest(n, digest), Refused)]
    requires u.cache == t.cache.(entries := t.cache.entries[DirectKey(n) := Entry(digest, [], false, 0, [])])
    requires u.channels == t.channels && u.open == UpTo(n + 1)
    ensures Lingering(u, n + 1, digest)
  {
    NextKeyIsFree(n);
  }

  lemma NextLoopIsFree(t: State, n: nat, digest: string)
    requires Lingering(t, n, digest)
    ensures n !in t.dispatches && LoopIsFree(t.dispatches, n)
  {
    assert n !in UpTo(n);
  }

  lemma NextConnIsFree(t: State, n: nat, digest: string)
    requires Lingering(t, n, digest) && Count(t.permits, ConnPermit(n)) == Count(t.permits, GatePermit(BatchGate)) == 0
    ensures n !in t.dispatches && IsFree(t.(open := UpTo(n + 1)), DirectRequest(n, digest))
  {
    hide LoopIsFree, InStage, UpTo, DirectKeys, DirectKey;
    NextKeyIsFree(n);
    NextLoopIsFree(t, n, digest);
  }

  lemma OneMoreLingers(s: State, es: seq<Event>, n: nat, digest: string) returns (more: seq<Event>)
    requires Init(s) && Runs(s, es) && NoClose(es) && Lingering(After(s, es), n, digest)
    ensures Runs(s, more) && NoClose(more) && Lingering(After(s, more), n + 1, digest)
  {
    hide After, Runs, Enabled, Next, IsFree, Lingering, NoClose;
    var r := DirectRequest(n, digest);
    LingerersHoldNothing(s, es, n, digest, ConnPermit(n));
    LingerersHoldNothing(s, es, n, digest, GatePermit(BatchGate));
    NextConnIsFree(After(s, es), n, digest);
    var joined := Opens(s, es, n, digest);
    var begun := Registers(s, joined, n, r);
    more := Lingers(s, begun, n, r);
    LingeringGrows(After(s, es), After(s, more), n, digest);
  }

  lemma {:induction false} ManyLinger(s: State, n: nat, digest: string) returns (es: seq<Event>)
    requires Init(s)
    ensures Runs(s, es) && NoClose(es) && Lingering(After(s, es), n, digest)
  {
    if n == 0 {
      es := [];
    } else {
      es := ManyLinger(s, n - 1, digest);
      es := OneMoreLingers(s, es, n - 1, digest);
    }
  }

  lemma {:induction false} KeysCount(n: nat)
    ensures |DirectKeys(n)| == n
  {
    if n > 0 {
      KeysCount(n - 1);
      NextKeyIsFree(n - 1);
    }
  }

  /** However many connections: a run with as many requests in flight and not one permit taken. */
  lemma PermitsBoundNothing(s: State, n: nat, digest: string) returns (es: seq<Event>)
    requires Init(s)
    ensures Runs(s, es) && |After(s, es).open| == n
    ensures |InFlight(After(s, es).cache)| == |After(s, es).cache.entries| == n
    ensures forall p :: Count(After(s, es).permits, p) == 0
  {
    es := ManyLinger(s, n, digest);
    var t := After(s, es);
    KeysCount(n);
    assert InFlight(t.cache) == t.cache.entries.Keys;
    forall p
      ensures Count(t.permits, p) == 0
    {
      LingerersHoldNothing(s, es, n, digest, p);
    }
  }

  // ---- and three handlers on one more connection ------------------------------------

  /** The first `n` connections linger, connection `n` is open with an idle loop; `keys` are in flight. */
  predicate Crowded(t: State, n: nat, m: nat, keys: set<string>) {
    && t.dispatches.Keys == UpTo(m) && t.open == UpTo(n + 1) && PastGate(t) == UpTo(n)
    && LoopIsFree(t.dispatches, n) && t.channels == map[] && AllInFlight(t.cache, keys)
  }

  lemma CrowdedIsFree(t: State, n: nat, m: nat, keys: set<string>, r: Request)
    requires Crowded(t, n, m, keys) && r.conn == n && r.key !in keys
    requires Available(t, ConnPermit(n)) && Available(t, GateFor(r))
    ensures m !in t.dispatches && IsFree(t, r)
  {
  }

  lemma CrowdedInFlight(c: Cache, keys: set<string>, key: string, digest: string)
    requires AllInFlight(c, keys)
    ensures AllInFlight(c.(entries := c.entries[key := Entry(digest, [], false, 0, [])]), keys + {key})
  {
  }

  lemma HandlerIsNoLingerer(t: State, u: State, n: nat, m: nat, r: Request)
    requires t.dispatches.Keys == UpTo(m) && LoopIsFree(t.dispatches, n) && Advanced(t, u, m, r, Owns)
    ensures u.dispatches.Keys == UpTo(m + 1) && LoopIsFree(u.dispatches, n) && PastGate(u) == PastGate(t)
  {
    assert m !in t.dispatches;
    assert u.dispatches.Keys == UpTo(m) + {m};
  }

  lemma CrowdedGrows(t: State, u: State, n: nat, m: nat, keys: set<string>, r: Request)
    requires Crowded(t, n, m, keys) && r.conn == n && r.key !in keys && Advanced(t, u, m, r, Owns)
    requires u.cache == t.cache.(entries := t.cache.entries[r.key := Entry(r.digest, [], false, 0, [])])
    ensures Crowded(u, n, m + 1, keys + {r.key})
  {
    hide AllInFlight, LoopIsFree, PastGate;
    CrowdedInFlight(t.cache, keys, r.key, r.digest);
    HandlerIsNoLingerer(t, u, n, m, r);
  }

  lemma OneMoreHandler(s: State, es: seq<Event>, n: nat, m: nat, keys: set<string>, r: Request)
    returns (more: seq<Event>)
    requires Runs(s, es) && NoClose(es) && n <= m && Crowded(After(s, es), n, m, keys)
    requires r.conn == n && r.key !in keys
    requires Available(After(s, es), ConnPermit(n)) && Available(After(s, es), GateFor(r))
    ensures Runs(s, more) && NoClose(more)
    ensures Crowded(After(s, more), n, m + 1, keys + {r.key}) && TookBoth(After(s, es), After(s, more), r)
  {
    CrowdedIsFree(After(s, es), n, m, keys, r);
    more := Acquires(s, es, m, r);
    CrowdedGrows(After(s, es), After(s, more), n, m, keys, r);
  }

  function HandlerKey(msgType: string, id: nat): string { IdempKey(0, msgType, Dec(id)) }

  lemma HandlerKeysAreNew(n: nat)
    ensures HandlerKey(MSG_BATCH, 0) !in DirectKeys(n)
    ensures HandlerKey(MSG_RESOLVE, 0) !in DirectKeys(n) + {HandlerKey(MSG_BATCH, 0)}
    ensures HandlerKey(MSG_RESOLVE, 1) !in DirectKeys(n) + {HandlerKey(MSG_BATCH, 0)} + {HandlerKey(MSG_RESOLVE, 0)}
  {
    forall i | 0 <= i < n
      ensures DirectKey(i) != HandlerKey(MSG_BATCH, 0)
      ensures DirectKey(i) != HandlerKey(MSG_RESOLVE, 0) && DirectKey(i) != HandlerKey(MSG_RESOLVE, 1)
    {
      KeyInjective(0, MSG_DIRECT, Dec(i), 0, MSG_BATCH, Dec(0));
      KeyInjective(0, MSG_DIRECT, Dec(i), 0, MSG_RESOLVE, Dec(0));
      KeyInjective(0, MSG_DIRECT, Dec(i), 0, MSG_RESOLVE, Dec(1));
    }
    KeyInjective(0, MSG_BATCH, Dec(0), 0, MSG_RESOLVE, Dec(0));
    KeyInjective(0, MSG_BATCH, Dec(0), 0, MSG_RESOLVE, Dec(1));
    KeyInjective(0, MSG_RESOLVE, Dec(0), 0, MSG_RESOLVE, Dec(1));
    assert Dec(0) == "0" && Dec(1) == "1";
  }

  lemma LingerersAndOneMore(s: State, n: nat, digest: string) returns (es: seq<Event>)
    requires Init(s)
    ensures Runs(s, es) && NoClose(es) && Crowded(After(s, es), n, n, DirectKeys(n))
    ensures forall p :: Count(After(s, es).permits, p) == 0
  {
    var lingering := ManyLinger(s, n, digest);
    forall p
      ensures Count(After(s, lingering).permits, p) == 0
    {
      LingerersHoldNothing(s, lingering, n, digest, p);
    }
    es := Opens(s, lingering, n, digest);
  }

  function CrowdKeys(n: nat): set<string> {
    DirectKeys(n) + {HandlerKey(MSG_BATCH, 0)} + {HandlerKey(MSG_RESOLVE, 0)} + {HandlerKey(MSG_RESOLVE, 1)}
  }

  lemma CrowdKeysCount(n: nat)
    ensures |CrowdKeys(n)| == n + 3
  {
    HandlerKeysAreNew(n);
    KeysCount(n);
  }

  lemma BatchJoins(s: State, n: nat, digest: string) returns (es: seq<Event>)
    requires Init(s)
    ensures Runs(s, es) && NoClose(es)
    ensures Crowded(After(s, es), n, n + 1, DirectKeys(n) + {HandlerKey(MSG_BATCH, 0)})
    ensures Count(After(s, es).permits, ConnPermit(n)) == 1 && Count(After(s, es).permits, GatePermit(ResolveGate)) == 0
  {
    hide After, Runs, Crowded, NoClose, DirectKeys, HandlerKey;
    HandlerKeysAreNew(n);
    es := LingerersAndOneMore(s, n, digest);
    es := OneMoreHandler(s, es, n, n, DirectKeys(n), Request(Batch, n, HandlerKey(MSG_BATCH, 0), digest));
  }

  lemma Crowds(s: State, n: nat, digest: string) returns (es: seq<Event>)
    requires Init(s)
    ensures Runs(s, es) && NoClose(es) && Crowded(After(s, es), n, n + 3, CrowdKeys(n))
  {
    hide After, Runs, Crowded, NoClose, DirectKeys, HandlerKey;
    HandlerKeysAreNew(n);
    var keys := DirectKeys(n) + {HandlerKey(MSG_BATCH, 0)};
    es := BatchJoins(s, n, digest);
    es := OneMoreHandler(s, es, n, n + 1, keys, Request(Resolve, n, HandlerKey(MSG_RESOLVE, 0), digest));
    keys := keys + {HandlerKey(MSG_RESOLVE, 0)};
    es := OneMoreHandler(s, es, n, n + 2, keys, Request(Resolve, n, HandlerKey(MSG_RESOLVE, 1), digest));
  }

  lemma CrowdLosesConnection(t: State, n: nat, m: nat, keys: set<string>)
    requires Crowded(t, n, m, keys)
    ensures Enabled(t, CloseConn(n))
    ensures var u := Next(t, CloseConn(n));
            u.open == UpTo(n) && PastGate(u) == UpTo(n) && u.cache == t.cache && InFlight(u.cache) == keys
  {
    assert UpTo(n + 1) - {n} == UpTo(n);
    assert PastGate(Next(t, CloseConn(n))) == PastGate(t);
  }

  /**
   * The bound by the refused batches is attained, and so is the bound by the open
   * connections, once the connection of the three handlers is closed.
   */
  lemma BoundsAreAttained(s: State, n: nat, digest: string) returns (es: seq<Event>)
    requires Init(s)
    ensures Runs(s, es)
    ensures var t := After(s, es);
            |InFlight(t.cache)| == n + 3 && |PastGate(t)| == n && |t.open| == n
  {
    var crowd := Crowds(s, n, digest);
    CrowdLosesConnection(After(s, crowd), n, n + 3, CrowdKeys(n));
    OneMoreStep(s, crowd, CloseConn(n));
    es := crowd + [CloseConn(n)];
    CrowdKeysCount(n);
  }

  // ---- the size limit ------------------------------------------------------------------

  lemma OpenGrows(s: State, e: Event)
    requires Enabled(s, e) && !e.CloseConn?
    ensures s.open <= Next(s, e).open
  {
    if !e.OpenConn? { OpenStays(s, e); }
  }

  /** Without a close, no begin saw more connections than are open in the end. */
  lemma {:induction false} NoCloseMeansAtMostOpen(s: State, es: seq<Event>, limit: nat)
    requires Runs(s, es) && NoClose(es) && |After(s, es).open| <= limit
    ensures AtMostOpen(s, es, limit) && s.open <= After(s, es).open
    decreases |es|
  {
    if es != [] {
      var t := Next(s, es[0]);
      OpenGrows(s, es[0]);
      assert NoClose(es[1..]) by { assert forall i :: 0 <= i < |es[1..]| ==> es[1..][i] == es[i + 1]; }
      NoCloseMeansAtMostOpen(t, es[1..], limit);
      SmallerSet(s.open, After(s, es).open);
    }
  }

  /** One connection more, and the cache can outgrow its limit. */
  lemma OneConnectionTooMany(s: State, digest: string) returns (es: seq<Event>)
    requires Init(s)
    ensures Runs(s, es) && AtMostOpen(s, es, MAX_OPEN + 1)
    ensures |After(s, es).cache.entries| == MAX_ENTRIES + 1
  {
    es := Crowds(s, MAX_OPEN, digest);
    CrowdKeysCount(MAX_OPEN);
    NoCloseMeansAtMostOpen(s, es, MAX_OPEN + 1);
  }

  lemma {:induction false} AtMostMoreOpen(s: State, es: seq<Event>, limit: nat, more: nat)
    requires Runs(s, es) && AtMostOpen(s, es, limit) && limit <= more
    ensures AtMostOpen(s, es, more)
    decreases |es|
  {
    if es != [] { AtMostMoreOpen(Next(s, es[0]), es[1..], limit, more); }
  }

  /** Whoever lets at most `limit` connections be open at each begin keeps the cache within 256 entries. */
  ghost predicate KeepsWithinLimit(limit: nat) {
    forall s, es :: Init(s) && Runs(s, es) && AtMostOpen(s, es, limit) ==> |After(s, es).cache.entries| <= MAX_ENTRIES
  }

  /** The number of connections that keeps the cache within its limit, exactly. */
  lemma LimitIsExact(limit: nat)
    ensures KeepsWithinLimit(limit) <==> limit <= MAX_OPEN
  {
    if limit <= MAX_OPEN {
      forall s, es | Init(s) && Runs(s, es) && AtMostOpen(s, es, limit)
        ensures |After(s, es).cache.entries| <= MAX_ENTRIES
      {
        AtMostMoreOpen(s, es, limit, MAX_OPEN);
        CacheStaysWithinLimit(s, es);
      }
    } else {
      var s := State(Cache(map[], []), 0, map[], map[], map[], map[], map[], {});
      var es := OneConnectionTooMany(s, "");
      AtMostMoreOpen(s, es, MAX_OPEN + 1, limit);
      assert |After(s, es).cache.entries| > MAX_ENTRIES;
    }
  }
}
