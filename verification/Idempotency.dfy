/**
 * The idempotency cache of the extension server: one entry per request key,
 * in flight until its owner settles it, then completed until it expires.
 * Times are nanoseconds of one monotone clock; channels are named by numbers.
 */
module Idempotency {
  import opened Prelude
  import opened Decimal

  const TTL: nat := 60_000_000_000
  const MAX_ENTRIES: nat := 256
  const MAX_WAITERS: nat := 8

  const MSG_RESOLVE := "extractor_resolve"
  const MSG_BATCH := "batch_download"
  const MSG_DIRECT := "download_batch"

  type Bytes = seq<nat>
  type ChannelId = nat

  datatype Entry = Entry(digest: string, ack: Bytes, completed: bool, expiresAt: int, waiters: seq<ChannelId>)

  datatype Cache = Cache(entries: map<string, Entry>, completed: seq<string>)

  datatype Lookup = Miss | Hit(ack: Bytes) | Coalesce(channel: ChannelId) | Conflict | Busy

  // ---- keys ----------------------------------------------------------------

  function IdempKey(gen: nat, msgType: string, requestId: string): string {
    Dec(gen) + (['\0'] + (msgType + (['\0'] + requestId)))
  }

  function KeyPrefix(gen: nat, msgType: string): string {
    Dec(gen) + (['\0'] + (msgType + ['\0']))
  }

  predicate HasPrefix(s: string, prefix: string) {
    |prefix| <= |s| && s[..|prefix|] == prefix
  }

  predicate NulFree(s: string) { forall i :: 0 <= i < |s| ==> s[i] != '\0' }

  function FirstNul(s: string): (n: nat)
    ensures n <= |s|
  {
    if s == "" || s[0] == '\0' then 0 else 1 + FirstNul(s[1..])
  }

  lemma {:induction false} FirstNulOf(t: string, rest: string)
    requires NulFree(t)
    ensures FirstNul(t + (['\0'] + rest)) == |t|
  {
    var s := t + (['\0'] + rest);
    if t == "" {
      assert s[0] == '\0';
    } else {
      assert s[1..] == t[1..] + (['\0'] + rest);
      FirstNulOf(t[1..], rest);
    }
  }

  lemma NulDelimited(t: string, u: string, r: string, q: string)
    requires NulFree(t) && NulFree(u)
    requires t + (['\0'] + r) == u + (['\0'] + q)
    ensures t == u && r == q
  {
    FirstNulOf(t, r);
    FirstNulOf(u, q);
    var s := t + (['\0'] + r);
    var w := u + (['\0'] + q);
    assert t == s[..|t|] && u == w[..|u|];
    assert r == s[|t| + 1..] && q == w[|u| + 1..];
  }

  /** Distinct requests never share a key, as long as message types hold no NUL. */
  lemma KeyInjective(g: nat, t: string, r: string, h: nat, u: string, q: string)
    requires NulFree(t) && NulFree(u)
    ensures IdempKey(g, t, r) == IdempKey(h, u, q) <==> g == h && t == u && r == q
  {
    if IdempKey(g, t, r) == IdempKey(h, u, q) {
      DecDelimited(g, h, '\0', t + (['\0'] + r), u + (['\0'] + q));
      NulDelimited(t, u, r, q);
    }
  }

  predicate Retires(gen: nat, key: string) {
    HasPrefix(key, KeyPrefix(gen, MSG_RESOLVE)) || HasPrefix(key, KeyPrefix(gen, MSG_BATCH))
  }

  lemma PrefixMeansGenerationAndType(gen: nat, msgType: string, g: nat, t: string, r: string)
    requires NulFree(msgType) && NulFree(t)
    ensures HasPrefix(IdempKey(g, t, r), KeyPrefix(gen, msgType)) <==> g == gen && t == msgType
  {
    var key := IdempKey(g, t, r);
    var prefix := KeyPrefix(gen, msgType);
    if HasPrefix(key, prefix) {
      var rest := key[|prefix|..];
      assert key == prefix + rest == IdempKey(gen, msgType, rest);
      KeyInjective(g, t, r, gen, msgType, rest);
    }
    if g == gen && t == msgType {
      assert key[..|prefix|] == prefix;
    }
  }

  /** Retirement hits exactly the resolve and batch requests of the old generation. */
  lemma RetirementIsExact(gen: nat, g: nat, t: string, r: string)
    requires NulFree(t)
    ensures Retires(gen, IdempKey(g, t, r)) <==> g == gen && (t == MSG_RESOLVE || t == MSG_BATCH)
  {
    PrefixMeansGenerationAndType(gen, MSG_RESOLVE, g, t, r);
    PrefixMeansGenerationAndType(gen, MSG_BATCH, g, t, r);
  }

  // ---- the locked sections as functions -------------------------------------

  function Other(key: string): string -> bool { k => k != key }

  function RemoveKey(c: Cache, key: string): Cache {
    Cache(c.entries - {key}, Filter(c.completed, Other(key)))
  }

  function Inspect(c: Cache, key: string, digest: string, now: int, channel: ChannelId): (Cache, Lookup) {
    if key !in c.entries then (c, Miss)
    else
      var e := c.entries[key];
      if e.completed && now > e.expiresAt then (RemoveKey(c, key), Miss)
      else if e.digest != digest then (c, Conflict)
      else if e.completed then (c, Hit(e.ack))
      else if |e.waiters| >= MAX_WAITERS then (c, Busy)
      else (c.(entries := c.entries[key := e.(waiters := e.waiters + [channel])]), Coalesce(channel))
  }

  function EvictOne(c: Cache): Cache
    requires c.completed != []
  {
    var first := c.completed[0];
    Cache(if first in c.entries && c.entries[first].completed then c.entries - {first} else c.entries,
          c.completed[1..])
  }

  function Evict(c: Cache): Cache
    decreases |c.completed|
  {
    if |c.entries| >= MAX_ENTRIES && c.completed != [] then Evict(EvictOne(c)) else c
  }

  function Begin(c: Cache, key: string, digest: string, now: int, channel: ChannelId): (Cache, Lookup) {
    var (c', found) := Inspect(c, key, digest, now, channel);
    if found != Miss then (c', found)
    else
      var room := Evict(c');
      (room.(entries := room.entries[key := Entry(digest, [], false, 0, [])]), Miss)
  }

  /** The owner's settlement acts only on an in-flight entry with its own digest. */
  predicate Settles(c: Cache, key: string, digest: string) {
    key in c.entries && !c.entries[key].completed && c.entries[key].digest == digest
  }

  function Complete(c: Cache, key: string, digest: string, ack: Bytes, now: int): (Cache, seq<ChannelId>) {
    if !Settles(c, key, digest) then (c, [])
    else
      var e := c.entries[key];
      (Cache(c.entries[key := Entry(digest, ack, true, now + TTL, [])], c.completed + [key]), e.waiters)
  }

  function Abandon(c: Cache, key: string, digest: string): (Cache, seq<ChannelId>) {
    if !Settles(c, key, digest) then (c, [])
    else (c.(entries := c.entries - {key}), c.entries[key].waiters)
  }

  /** Every channel that some entry of `keys` holds as a waiter. */
  function WaitersOf(entries: map<string, Entry>, keys: set<string>): set<ChannelId> {
    set k, i | k in keys && k in entries && 0 <= i < |entries[k].waiters| :: entries[k].waiters[i]
  }

  function RetiredKeys(c: Cache, gen: nat): set<string> {
    set k | k in c.entries && Retires(gen, k)
  }

  function Survives(gen: nat): string -> bool { k => !Retires(gen, k) }

  function Retire(c: Cache, gen: nat): Cache {
    Cache(c.entries - RetiredKeys(c, gen), Filter(c.completed, Survives(gen)))
  }

  // ---- bookkeeping invariant -----------------------------------------------

  /** The queue holds exactly the completed keys, once each. */
  ghost predicate QueueExact(c: Cache) {
    && NoDuplicates(c.completed)
    && forall k :: k in c.completed <==> k in c.entries && c.entries[k].completed
  }

  function ExpiryIn(entries: map<string, Entry>): string -> int {
    k => if k in entries then entries[k].expiresAt else 0
  }

  ghost predicate QueueByExpiry(c: Cache) { Ordered(c.completed, ExpiryIn(c.entries)) }

  predicate EntriesOk(c: Cache, now: int) {
    forall k :: k in c.entries ==>
      && |c.entries[k].waiters| <= MAX_WAITERS
      && (c.entries[k].completed ==> c.entries[k].waiters == [] && c.entries[k].expiresAt <= now + TTL)
  }

  ghost predicate Booked(c: Cache, now: int) {
    QueueExact(c) && QueueByExpiry(c) && EntriesOk(c, now)
  }

  function InFlight(c: Cache): set<string> {
    set k | k in c.entries && !c.entries[k].completed
  }

  // ---- every locked section keeps the bookkeeping ----------------------------

  lemma OrderedDependsOnMembers(s: seq<string>, f: string -> int, g: string -> int)
    requires Ordered(s, f) && forall k :: k in s ==> f(k) == g(k)
    ensures Ordered(s, g)
  {
  }

  /** Keeping the same keys in the map and in the queue. */
  lemma DropKeepsBooks(c: Cache, d: Cache, keep: string -> bool, now: int)
    requires Booked(c, now)
    requires d.completed == Filter(c.completed, keep)
    requires forall k :: k in d.entries <==> k in c.entries && keep(k)
    requires forall k :: k in d.entries ==> d.entries[k] == c.entries[k]
    ensures Booked(d, now)
  {
    FilterNoDuplicates(c.completed, keep);
    FilterOrdered(c.completed, keep, ExpiryIn(c.entries));
    forall k
      ensures k in d.completed <==> k in d.entries && d.entries[k].completed
    {
      FilterMember(c.completed, keep, k);
    }
    OrderedDependsOnMembers(d.completed, ExpiryIn(c.entries), ExpiryIn(d.entries));
  }

  lemma RemoveKeepsBooks(c: Cache, key: string, now: int)
    requires Booked(c, now)
    ensures Booked(RemoveKey(c, key), now)
  {
    DropKeepsBooks(c, RemoveKey(c, key), Other(key), now);
  }

  lemma RetireKeepsBooks(c: Cache, gen: nat, now: int)
    requires Booked(c, now)
    ensures Booked(Retire(c, gen), now)
  {
    DropKeepsBooks(c, Retire(c, gen), Survives(gen), now);
  }

  lemma InspectKeepsBooks(c: Cache, key: string, digest: string, now: int, channel: ChannelId)
    requires Booked(c, now)
    ensures Booked(Inspect(c, key, digest, now, channel).0, now)
  {
    var (c', found) := Inspect(c, key, digest, now, channel);
    if found == Miss && c' != c { RemoveKeepsBooks(c, key, now); }
    if found.Coalesce? { OrderedDependsOnMembers(c.completed, ExpiryIn(c.entries), ExpiryIn(c'.entries)); }
  }

  lemma EvictOneKeepsBooks(c: Cache, now: int)
    requires Booked(c, now) && c.completed != []
    ensures Booked(EvictOne(c), now)
    ensures InFlight(EvictOne(c)) == InFlight(c)
    ensures EvictOne(c).entries == c.entries - {c.completed[0]}
  {
    var d := EvictOne(c);
    assert c.completed[0] in c.completed;
    assert forall i :: 0 <= i < |d.completed| ==> d.completed[i] == c.completed[i + 1];
    assert forall k :: k in d.completed <==> k in c.completed && k != c.completed[0];
    OrderedDependsOnMembers(d.completed, ExpiryIn(c.entries), ExpiryIn(d.entries));
  }

  /** Eviction removes a prefix of the queue: the entries that expire earliest. */
  lemma {:induction false} EvictKeepsBooks(c: Cache, now: int)
    requires Booked(c, now)
    ensures Booked(Evict(c), now)
    ensures InFlight(Evict(c)) == InFlight(c)
    ensures |Evict(c).entries| < MAX_ENTRIES || Evict(c).completed == []
    decreases |c.completed|
  {
    if |c.entries| >= MAX_ENTRIES && c.completed != [] {
      EvictOneKeepsBooks(c, now);
      EvictKeepsBooks(EvictOne(c), now);
    }
  }

  lemma {:induction false} EvictsPrefix(c: Cache) returns (n: nat)
    requires NoDuplicates(c.completed)
    requires forall k :: k in c.completed ==> k in c.entries && c.entries[k].completed
    ensures n <= |c.completed| && EvictsFirst(c, Evict(c), n)
    decreases |c.completed|
  {
    if |c.entries| < MAX_ENTRIES || c.completed == [] {
      assert c.completed[..0] == [];
      return 0;
    }
    var d := EvictOne(c);
    assert c.completed[0] in c.completed;
    assert d.entries == c.entries - {c.completed[0]};
    assert forall i :: 0 <= i < |d.completed| ==> d.completed[i] == c.completed[i + 1];
    var m := EvictsPrefix(d);
    n := m + 1;
    EvictsOneMore(c, d, Evict(d), m);
  }

  lemma EvictsOneMore(c: Cache, d: Cache, e: Cache, m: nat)
    requires c.completed != [] && d.completed == c.completed[1..]
    requires d.entries == c.entries - {c.completed[0]}
    requires m <= |d.completed| && EvictsFirst(d, e, m)
    ensures EvictsFirst(c, e, m + 1)
  {
    assert c.completed[..m + 1] == [c.completed[0]] + d.completed[..m];
  }

  /** Whatever is evicted expires no later than anything that stays in the queue. */
  lemma EvictionTakesEarliest(c: Cache, now: int, gone: string, stays: string)
    requires Booked(c, now)
    requires gone in c.entries && gone !in Evict(c).entries
    requires stays in Evict(c).completed
    ensures c.entries[gone].completed
    ensures stays in c.entries && c.entries[gone].expiresAt <= c.entries[stays].expiresAt
  {
    var n := EvictsPrefix(c);
    var i :| 0 <= i < n && c.completed[i] == gone;
    var j :| 0 <= j < |c.completed[n..]| && c.completed[n..][j] == stays;
    assert c.completed[n + j] == stays;
    assert gone in c.completed && stays in c.completed;
    assert ExpiryIn(c.entries)(c.completed[i]) <= ExpiryIn(c.entries)(c.completed[n + j]);
  }

  predicate EvictsFirst(c: Cache, d: Cache, n: nat)
    requires n <= |c.completed|
  {
    && d.completed == c.completed[n..]
    && d.entries == c.entries - (set k | k in c.completed[..n])
  }

  lemma BeginKeepsBooks(c: Cache, key: string, digest: string, now: int, channel: ChannelId)
    requires Booked(c, now)
    ensures Booked(Begin(c, key, digest, now, channel).0, now)
  {
    InspectKeepsBooks(c, key, digest, now, channel);
    var (c', found) := Inspect(c, key, digest, now, channel);
    if found == Miss {
      EvictKeepsBooks(c', now);
      EvictAddsNothing(c');
      AddKeepsBooks(Evict(c'), key, digest, now);
    }
  }

  lemma AddKeepsBooks(c: Cache, key: string, digest: string, now: int)
    requires Booked(c, now) && key !in c.entries
    ensures Booked(c.(entries := c.entries[key := Entry(digest, [], false, 0, [])]), now)
  {
    var d := c.(entries := c.entries[key := Entry(digest, [], false, 0, [])]);
    OrderedDependsOnMembers(c.completed, ExpiryIn(c.entries), ExpiryIn(d.entries));
  }

  lemma {:induction false} EvictAddsNothing(c: Cache)
    ensures Evict(c).entries.Keys <= c.entries.Keys
    ensures forall k :: k in Evict(c).entries ==> Evict(c).entries[k] == c.entries[k]
    decreases |c.completed|
  {
    if |c.entries| >= MAX_ENTRIES && c.completed != [] { EvictAddsNothing(EvictOne(c)); }
  }

  lemma CompleteKeepsBooks(c: Cache, key: string, digest: string, ack: Bytes, now: int)
    requires Booked(c, now)
    ensures Booked(Complete(c, key, digest, ack, now).0, now)
  {
    var d := Complete(c, key, digest, ack, now).0;
    if Settles(c, key, digest) {
      assert key !in c.completed;
      OrderedDependsOnMembers(c.completed, ExpiryIn(c.entries), ExpiryIn(d.entries));
      forall i | 0 <= i < |c.completed|
        ensures c.completed[i] in c.entries && c.entries[c.completed[i]].expiresAt <= now + TTL
      {
        assert c.completed[i] in c.completed;
      }
    }
  }

  lemma AbandonKeepsBooks(c: Cache, key: string, digest: string, now: int)
    requires Booked(c, now)
    ensures Booked(Abandon(c, key, digest).0, now)
  {
    var d := Abandon(c, key, digest).0;
    if Settles(c, key, digest) {
      assert key !in c.completed;
      OrderedDependsOnMembers(c.completed, ExpiryIn(c.entries), ExpiryIn(d.entries));
    }
  }

  /**
   * The size bound: a begin that sees fewer than 256 requests in flight leaves
   * at most 256 entries, evicting only completed ones, earliest expiry first.
   */
  lemma BeginStaysWithinLimit(c: Cache, key: string, digest: string, now: int, channel: ChannelId)
    requires Booked(c, now) && |InFlight(c)| < MAX_ENTRIES
    requires Begin(c, key, digest, now, channel).1 == Miss
    ensures |Begin(c, key, digest, now, channel).0.entries| <= MAX_ENTRIES
  {
    var c' := Inspect(c, key, digest, now, channel).0;
    InspectKeepsBooks(c, key, digest, now, channel);
    assert InFlight(c') == InFlight(c);
    EvictKeepsBooks(c', now);
    var room := Evict(c');
    if room.completed == [] {
      assert room.entries.Keys == InFlight(room);
      assert |room.entries| == |room.entries.Keys|;
    }
  }
}
