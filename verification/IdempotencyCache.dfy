/** The cache object: its methods and loops, proved against the functions of module Idempotency. */
module IdempotencyCache {
  import opened Prelude
  import opened Idempotency

  /** A one-slot channel: what was sent on it, and whether it is closed. */
  datatype Channel = Channel(sends: seq<Bytes>, closed: bool)

  const OPEN := Channel([], false)

  /** The listed channels become `ch`, the others stay. */
  function SetAll(channels: map<ChannelId, Channel>, ids: set<ChannelId>, ch: Channel): map<ChannelId, Channel> {
    map c | c in channels :: if c in ids then ch else channels[c]
  }

  function Elements(s: seq<ChannelId>): set<ChannelId> { set c | c in s }

  /** Every waiter is on an open channel that no other waiter shares. */
  ghost predicate WaitersOpen(entries: map<string, Entry>, channels: map<ChannelId, Channel>) {
    && (forall k, c :: k in entries && c in entries[k].waiters ==> c in channels && channels[c] == OPEN)
    && (forall k :: k in entries ==> NoDuplicates(entries[k].waiters))
    && (forall k, l, c :: k in entries && l in entries && c in entries[k].waiters && c in entries[l].waiters ==> k == l)
  }

  lemma FewerWaitersOpen(entries: map<string, Entry>, fewer: map<string, Entry>, channels: map<ChannelId, Channel>)
    requires WaitersOpen(entries, channels)
    requires forall k :: k in fewer ==> (k in entries && fewer[k] == entries[k]) || fewer[k].waiters == []
    ensures WaitersOpen(fewer, channels)
  {
  }

  lemma NewWaiterOpen(entries: map<string, Entry>, channels: map<ChannelId, Channel>, key: string, c: ChannelId)
    requires WaitersOpen(entries, channels) && key in entries && c !in channels
    ensures WaitersOpen(entries[key := entries[key].(waiters := entries[key].waiters + [c])], channels[c := OPEN])
  {
    var more := entries[key := entries[key].(waiters := entries[key].waiters + [c])];
    assert forall k, d :: k in more && d in more[k].waiters ==> (k == key && d == c) || d in entries[k].waiters;
  }

  /** Settled channels are no longer anyone's waiters, so the rest stay open. */
  lemma OthersStayOpen(entries: map<string, Entry>, left: map<string, Entry>, channels: map<ChannelId, Channel>,
                       gone: set<ChannelId>, ch: Channel)
    requires WaitersOpen(left, channels)
    requires forall k, c :: k in left && c in left[k].waiters ==> c !in gone
    ensures WaitersOpen(left, SetAll(channels, gone, ch))
  {
  }

  lemma SetAllStep(channels: map<ChannelId, Channel>, ids: set<ChannelId>, c: ChannelId, ch: Channel)
    requires c in channels
    ensures SetAll(channels, ids + {c}, ch) == SetAll(channels, ids, ch)[c := ch]
  {
  }

  lemma SetAllNone(channels: map<ChannelId, Channel>, ch: Channel)
    ensures SetAll(channels, Elements([]), ch) == channels
  {
  }

  lemma ConcatNoDuplicates(a: seq<ChannelId>, b: seq<ChannelId>)
    requires NoDuplicates(a) && NoDuplicates(b) && forall c :: c in a ==> c !in b
    ensures NoDuplicates(a + b)
  {
    assert forall i :: 0 <= i < |a| ==> a[i] in a;
    assert forall i :: 0 <= i < |b| ==> b[i] in b;
  }

  /** What a settlement needs and leaves: the waiters are open, and all other waiters stay open. */
  lemma SettledWaiters(entries: map<string, Entry>, left: map<string, Entry>, channels: map<ChannelId, Channel>,
                       key: string, ch: Channel)
    requires WaitersOpen(entries, channels) && key in entries
    requires forall k :: k in left ==> (k != key && k in entries && left[k] == entries[k]) || left[k].waiters == []
    ensures NoDuplicates(entries[key].waiters)
    ensures forall c :: c in entries[key].waiters ==> c in channels && channels[c] == OPEN
    ensures WaitersOpen(left, SetAll(channels, Elements(entries[key].waiters), ch))
  {
    assert WaitersOpen(left, channels);
    OthersStayOpen(entries, left, channels, Elements(entries[key].waiters), ch);
  }

  lemma RetiredWaiters(entries: map<string, Entry>, retired: set<string>, channels: map<ChannelId, Channel>)
    requires WaitersOpen(entries, channels) && retired <= entries.Keys
    ensures WaitersOpen(entries - retired, SetAll(channels, WaitersOf(entries, retired), Channel([], true)))
  {
    assert WaitersOpen(entries - retired, channels);
    OthersStayOpen(entries, entries - retired, channels, WaitersOf(entries, retired), Channel([], true));
  }

  /** The channels after a lookup or a begin: a coalesced waiter has a new one, the others are untouched. */
  function ChannelsAfter(channels: map<ChannelId, Channel>, r: Lookup): map<ChannelId, Channel> {
    if r.Coalesce? then channels[r.channel := OPEN] else channels
  }

  lemma InspectKeepsWaiters(c: Cache, channels: map<ChannelId, Channel>, key: string, digest: string, now: int,
                            channel: ChannelId)
    requires WaitersOpen(c.entries, channels) && channel !in channels
    ensures var (d, r) := Inspect(c, key, digest, now, channel);
            WaitersOpen(d.entries, ChannelsAfter(channels, r))
  {
    var (d, r) := Inspect(c, key, digest, now, channel);
    if r.Coalesce? {
      NewWaiterOpen(c.entries, channels, key, channel);
    } else {
      FewerWaitersOpen(c.entries, d.entries, channels);
    }
  }

  lemma BeginKeepsWaiters(c: Cache, channels: map<ChannelId, Channel>, key: string, digest: string, now: int,
                          channel: ChannelId)
    requires WaitersOpen(c.entries, channels) && channel !in channels
    ensures var (d, r) := Begin(c, key, digest, now, channel);
            WaitersOpen(d.entries, ChannelsAfter(channels, r))
  {
    InspectKeepsWaiters(c, channels, key, digest, now, channel);
    var (seen, r) := Inspect(c, key, digest, now, channel);
    if r == Miss {
      EvictAddsNothing(seen);
      FewerWaitersOpen(seen.entries, Evict(seen).entries[key := Entry(digest, [], false, 0, [])], channels);
    }
  }

  lemma BeginChannel(c: Cache, key: string, digest: string, now: int, channel: ChannelId)
    ensures var r := Begin(c, key, digest, now, channel).1;
            r.Coalesce? ==> r.channel == channel
  {
  }

  /** What serving the waiters of a settlement needs, and what it leaves. */
  ghost predicate Servable(d: Cache, waiters: seq<ChannelId>, channels: map<ChannelId, Channel>, ch: Channel) {
    && NoDuplicates(waiters)
    && (forall c :: c in waiters ==> c in channels && channels[c] == OPEN)
    && WaitersOpen(d.entries, SetAll(channels, Elements(waiters), ch))
  }

  lemma CompletionIsServable(c: Cache, channels: map<ChannelId, Channel>, key: string, digest: string, ack: Bytes,
                             now: int, ch: Channel)
    requires WaitersOpen(c.entries, channels)
    ensures var (d, waiters) := Complete(c, key, digest, ack, now); Servable(d, waiters, channels, ch)
  {
    if Settles(c, key, digest) {
      SettledWaiters(c.entries, Complete(c, key, digest, ack, now).0.entries, channels, key, ch);
    } else {
      SetAllNone(channels, ch);
    }
  }

  lemma AbandonmentIsServable(c: Cache, channels: map<ChannelId, Channel>, key: string, digest: string, ch: Channel)
    requires WaitersOpen(c.entries, channels)
    ensures var (d, waiters) := Abandon(c, key, digest); Servable(d, waiters, channels, ch)
  {
    if Settles(c, key, digest) {
      SettledWaiters(c.entries, Abandon(c, key, digest).0.entries, channels, key, ch);
    } else {
      SetAllNone(channels, ch);
    }
  }

  class RequestCache {
    var entries: map<string, Entry>
    var completed: seq<string>
    var channels: map<ChannelId, Channel>
    var nextChannel: ChannelId
    ghost var clock: int

    function View(): Cache
      reads this
    {
      Cache(entries, completed)
    }

    ghost predicate Valid()
      reads this
    {
      && Booked(View(), clock)
      && WaitersOpen(entries, channels)
      && forall c :: c in channels ==> c < nextChannel
    }

    constructor (ghost now: int)
      ensures Valid() && View() == Cache(map[], []) && channels == map[] && clock == now
    {
      entries, completed, channels, nextChannel, clock := map[], [], map[], 0, now;
    }

    /** Deletes the entry and filters the key out of the queue. */
    method RemoveLocked(key: string)
      modifies this`entries, this`completed
      ensures View() == RemoveKey(old(View()), key)
    {
      entries := entries - {key};
      var out: seq<string> := [];
      for i := 0 to |completed|
        invariant completed == old(completed) && entries == old(entries) - {key}
        invariant out == Filter(completed[..i], Other(key))
      {
        assert completed[..i + 1] == completed[..i] + [completed[i]];
        FilterAppend(completed[..i], [completed[i]], Other(key));
        if completed[i] != key { out := out + [completed[i]]; }
      }
      assert completed[..|completed|] == completed;
      completed := out;
    }

    method EvictIfNeededLocked()
      modifies this`entries, this`completed
      ensures View() == Evict(old(View()))
    {
      while |entries| >= MAX_ENTRIES && |completed| > 0
        invariant Evict(View()) == Evict(old(View()))
        decreases |completed|
      {
        var first := completed[0];
        completed := completed[1..];
        if first in entries && entries[first].completed {
          entries := entries - {first};
        }
      }
    }

    /** The locked section of a lookup and the first of a begin. */
    method InspectLocked(key: string, digest: string, now: int) returns (r: Lookup)
      modifies this
      ensures clock == now
      ensures (View(), r) == Inspect(old(View()), key, digest, now, old(nextChannel))
      ensures channels == ChannelsAfter(old(channels), r)
      ensures nextChannel == old(nextChannel) + (if r.Coalesce? then 1 else 0)
    {
      clock := now;
      if key !in entries { return Miss; }
      var e := entries[key];
      if e.completed && now > e.expiresAt {
        RemoveLocked(key);
        return Miss;
      }
      if e.digest != digest { return Conflict; }
      if e.completed { return Hit(e.ack); }
      if |e.waiters| >= MAX_WAITERS { return Busy; }
      var ch := nextChannel;
      nextChannel := nextChannel + 1;
      channels := channels[ch := OPEN];
      entries := entries[key := e.(waiters := e.waiters + [ch])];
      return Coalesce(ch);
    }

    method LookupRequest(gen: nat, msgType: string, requestId: string, digest: string, now: int) returns (r: Lookup)
      requires Valid() && clock <= now
      modifies this
      ensures Valid() && clock == now
      ensures (View(), r) == Inspect(old(View()), IdempKey(gen, msgType, requestId), digest, now, old(nextChannel))
      ensures channels == ChannelsAfter(old(channels), r)
    {
      var key := IdempKey(gen, msgType, requestId);
      InspectKeepsBooks(View(), key, digest, now, nextChannel) by { assert Booked(View(), now); }
      InspectKeepsWaiters(View(), channels, key, digest, now, nextChannel);
      r := InspectLocked(key, digest, now);
    }

    method BeginLocked(key: string, digest: string, now: int) returns (r: Lookup)
      modifies this
      ensures clock == now
      ensures (View(), r) == Begin(old(View()), key, digest, now, old(nextChannel))
      ensures channels == ChannelsAfter(old(channels), r)
      ensures nextChannel == old(nextChannel) + (if r.Coalesce? then 1 else 0)
    {
      r := InspectLocked(key, digest, now);
      if r != Miss { return; }
      EvictIfNeededLocked();
      entries := entries[key := Entry(digest, [], false, 0, [])];
    }

    method BeginRequest(gen: nat, msgType: string, requestId: string, digest: string, now: int) returns (r: Lookup)
      requires Valid() && clock <= now
      modifies this
      ensures Valid() && clock == now
      ensures (View(), r) == Begin(old(View()), IdempKey(gen, msgType, requestId), digest, now, old(nextChannel))
      ensures channels == ChannelsAfter(old(channels), r)
    {
      var key := IdempKey(gen, msgType, requestId);
      BeginKeepsBooks(View(), key, digest, now, nextChannel) by { assert Booked(View(), now); }
      BeginKeepsWaiters(View(), channels, key, digest, now, nextChannel);
      BeginChannel(View(), key, digest, now, nextChannel);
      r := BeginLocked(key, digest, now);
    }

    /** Sends the bytes to each waiter and closes its channel, outside the cache's lock. */
    method Deliver(waiters: seq<ChannelId>, ack: Bytes)
      requires NoDuplicates(waiters) && forall c :: c in waiters ==> c in channels && channels[c] == OPEN
      modifies this`channels
      ensures channels == SetAll(old(channels), Elements(waiters), Channel([ack], true))
    {
      for i := 0 to |waiters|
        invariant forall j :: i <= j < |waiters| ==> waiters[j] in channels && channels[waiters[j]] == OPEN
        invariant channels == SetAll(old(channels), Elements(waiters[..i]), Channel([ack], true))
      {
        var ch := waiters[i];
        assert ch in waiters && ch !in waiters[..i];
        assert [] + [ack] == [ack];
        channels := channels[ch := Channel(channels[ch].sends + [ack], channels[ch].closed)];
        channels := channels[ch := Channel(channels[ch].sends, true)];
        assert channels == SetAll(old(channels), Elements(waiters[..i]), Channel([ack], true))[ch := Channel([ack], true)];
        assert Elements(waiters[..i + 1]) == Elements(waiters[..i]) + {ch};
        SetAllStep(old(channels), Elements(waiters[..i]), ch, Channel([ack], true));
      }
      assert waiters[..|waiters|] == waiters;
    }

    /** The locked part of complete: only an entry in flight with this digest is settled. */
    method CompleteLocked(key: string, digest: string, ack: Bytes, now: int) returns (waiters: seq<ChannelId>)
      modifies `entries, `completed
      ensures (View(), waiters) == Complete(old(View()), key, digest, ack, now)
    {
      if key !in entries || entries[key].digest != digest || entries[key].completed { return []; }
      var e := entries[key];
      entries := entries[key := Entry(e.digest, ack, true, now + TTL, [])];
      completed := completed + [key];
      return e.waiters;
    }

    method CompleteRequest(gen: nat, msgType: string, requestId: string, digest: string, ack: Bytes, now: int)
      requires Valid() && clock <= now
      modifies this
      ensures Valid() && clock == now
      ensures var r := Complete(old(View()), IdempKey(gen, msgType, requestId), digest, ack, now);
              && View() == r.0
              && channels == SetAll(old(channels), Elements(r.1), Channel([ack], true))
    {
      var key := IdempKey(gen, msgType, requestId);
      CompleteKeepsBooks(View(), key, digest, ack, now) by { assert Booked(View(), now); }
      CompletionIsServable(View(), channels, key, digest, ack, now, Channel([ack], true));
      clock := now;
      var waiters := CompleteLocked(key, digest, ack, now);
      Deliver(waiters, ack);
    }

    /** The locked part of abandon. */
    method AbandonLocked(key: string, digest: string) returns (waiters: seq<ChannelId>)
      modifies `entries
      ensures (View(), waiters) == Abandon(old(View()), key, digest)
    {
      if key !in entries || entries[key].completed || entries[key].digest != digest { return []; }
      waiters := entries[key].waiters;
      entries := entries - {key};
    }

    method AbandonRequest(gen: nat, msgType: string, requestId: string, digest: string, ack: Bytes)
      requires Valid()
      modifies this
      ensures Valid() && clock == old(clock)
      ensures var r := Abandon(old(View()), IdempKey(gen, msgType, requestId), digest);
              && View() == r.0
              && channels == SetAll(old(channels), Elements(r.1), Channel([ack], true))
    {
      var key := IdempKey(gen, msgType, requestId);
      AbandonKeepsBooks(View(), key, digest, clock);
      AbandonmentIsServable(View(), channels, key, digest, Channel([ack], true));
      var waiters := AbandonLocked(key, digest);
      Deliver(waiters, ack);
    }

    method CloseAll(waiters: seq<ChannelId>)
      requires NoDuplicates(waiters)
      requires forall c :: c in waiters ==> c in channels && channels[c] == OPEN
      modifies this`channels
      ensures channels == SetAll(old(channels), Elements(waiters), Channel([], true))
    {
      for i := 0 to |waiters|
        invariant channels == SetAll(old(channels), Elements(waiters[..i]), Channel([], true))
        invariant forall j :: 0 <= j < |waiters| ==> waiters[j] in channels && channels[waiters[j]].sends == []
      {
        channels := channels[waiters[i] := Channel(channels[waiters[i]].sends, true)];
        assert Elements(waiters[..i + 1]) == Elements(waiters[..i]) + {waiters[i]};
        SetAllStep(old(channels), Elements(waiters[..i]), waiters[i], Channel([], true));
      }
      assert waiters[..|waiters|] == waiters;
    }

    method Clear()
      requires Valid()
      modifies this
      ensures Valid() && clock == old(clock)
      ensures View() == Cache(map[], [])
      ensures channels == SetAll(old(channels), WaitersOf(old(entries), old(entries).Keys), Channel([], true))
    {
      var waiters := CollectWaiters(entries.Keys);
      CloseAll(waiters);
      entries := map[];
      completed := [];
    }

    /** The waiters of the given entries, in whatever order the map yields them. */
    method CollectWaiters(keys: set<string>) returns (waiters: seq<ChannelId>)
      requires keys <= entries.Keys && WaitersOpen(entries, channels)
      ensures Elements(waiters) == WaitersOf(entries, keys)
      ensures NoDuplicates(waiters)
      ensures forall c :: c in waiters ==> c in channels && channels[c] == OPEN
    {
      waiters := [];
      var left := keys;
      while left != {}
        invariant left <= keys
        invariant Elements(waiters) == WaitersOf(entries, keys - left)
        invariant NoDuplicates(waiters)
        invariant forall c :: c in waiters ==> exists k :: k in keys - left && c in entries[k].waiters
        decreases left
      {
        var k :| k in left;
        left := left - {k};
        assert keys - left == (keys - left - {k}) + {k};
        assert WaitersOf(entries, keys - left) == WaitersOf(entries, keys - left - {k}) + Elements(entries[k].waiters);
        ConcatNoDuplicates(waiters, entries[k].waiters);
        assert Elements(waiters + entries[k].waiters) == Elements(waiters) + Elements(entries[k].waiters);
        waiters := waiters + entries[k].waiters;
      }
      assert keys - left == keys;
    }

    method DropRetired(gen: nat)
      modifies this`completed
      ensures completed == Filter(old(completed), Survives(gen))
    {
      var out: seq<string> := [];
      for i := 0 to |completed|
        invariant completed == old(completed)
        invariant out == Filter(completed[..i], Survives(gen))
      {
        assert completed[..i + 1] == completed[..i] + [completed[i]];
        FilterAppend(completed[..i], [completed[i]], Survives(gen));
        if !Retires(gen, completed[i]) { out := out + [completed[i]]; }
      }
      assert completed[..|completed|] == completed;
      completed := out;
    }

    /** The locked part of a retirement: the entries go, their waiters are handed out. */
    method RetireLocked(gen: nat) returns (waiters: seq<ChannelId>)
      requires WaitersOpen(entries, channels)
      modifies `entries, `completed
      ensures View() == Retire(old(View()), gen)
      ensures Elements(waiters) == WaitersOf(old(entries), RetiredKeys(old(View()), gen))
      ensures NoDuplicates(waiters)
      ensures forall c :: c in waiters ==> c in channels && channels[c] == OPEN
    {
      var retired := RetiredKeys(View(), gen);
      waiters := CollectWaiters(retired);
      entries := entries - retired;
      DropRetired(gen);
    }

    method RetireExtractorGeneration(gen: nat)
      requires Valid()
      modifies this
      ensures Valid() && clock == old(clock)
      ensures View() == Retire(old(View()), gen)
      ensures channels == SetAll(old(channels), WaitersOf(old(entries), RetiredKeys(old(View()), gen)), Channel([], true))
    {
      RetireKeepsBooks(View(), gen, clock);
      RetiredWaiters(entries, RetiredKeys(View(), gen), channels);
      var waiters := RetireLocked(gen);
      CloseAll(waiters);
    }
  }
}
