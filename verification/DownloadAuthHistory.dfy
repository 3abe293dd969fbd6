/** What a materialised token proves about the calls the registry has seen. */
module DownloadAuthHistory {
  import opened Prelude
  import opened DownloadAuth

  datatype Call =
    | CallRegister(now: int, invocation: nat, pack: Identity, token: string, minted: string)
    | CallBind(now: int, invocation: nat, ref: string, pack: Identity, host: string)
    | CallEnd(now: int, invocation: nat, committed: bool)
    | CallClaim(now: int, ref: string, holder: string)
    | CallRelease(now: int, ref: string, holder: string)
    | CallMaterialize(now: int, pack: Identity, ref: string, host: string)
    | CallInvalidate

  function Apply(es: Entries, call: Call): Entries {
    match call
    case CallRegister(now, invocation, pack, token, minted) => Register(es, now, invocation, pack, token, minted).0
    case CallBind(now, invocation, ref, pack, host) => Bind(es, now, invocation, ref, pack, host).0
    case CallEnd(now, invocation, committed) => EndInvocation(es, now, invocation, committed)
    case CallClaim(now, ref, holder) => Claim(es, now, ref, holder).0
    case CallRelease(now, ref, holder) => Release(es, now, ref, holder)
    case CallMaterialize(now, pack, ref, host) => Materialize(es, now, pack, ref, host).0
    case CallInvalidate => map[]
  }

  function After(calls: seq<Call>): Entries {
    if calls == [] then map[] else Apply(After(calls[..|calls| - 1]), calls[|calls| - 1])
  }

  /** Where in the history each fact about a live entry comes from. */
  datatype Origin = Origin(registered: nat, ended: Option<nat>, bound: map<string, nat>, claimed: map<string, nat>)

  /** The bookkeeping of origins; it follows the registry and never influences it. */
  function Note(es: Entries, origins: map<string, Origin>, call: Call, at: nat): map<string, Origin> {
    match call
    case CallRegister(now, invocation, pack, token, minted) =>
      if Register(es, now, invocation, pack, token, minted).1.Ok?
      then origins[minted := Origin(at, None, map[], map[])] else origins
    case CallBind(_, _, ref, _, host) =>
      if ref in origins && Bind(es, call.now, call.invocation, ref, call.pack, host).1.Ok?
      then origins[ref := origins[ref].(bound := origins[ref].bound[host := at])] else origins
    case CallEnd(_, invocation, _) =>
      map ref | ref in origins ::
        if ref in es && es[ref].invocation == invocation && invocation != 0
        then origins[ref].(ended := Some(at)) else origins[ref]
    case CallClaim(_, ref, holder) =>
      if ref in origins then origins[ref := origins[ref].(claimed := origins[ref].claimed[holder := at])] else origins
    case _ => origins
  }

  function Origins(calls: seq<Call>): map<string, Origin> {
    if calls == [] then map[]
    else Note(After(calls[..|calls| - 1]), Origins(calls[..|calls| - 1]), calls[|calls| - 1], |calls| - 1)
  }

  predicate RegisteredAt(calls: seq<Call>, r: nat, ref: string, pack: Identity, token: string, invocation: nat, at: int) {
    r < |calls| && calls[r] == CallRegister(at, invocation, pack, token, ref)
  }

  predicate BoundAt(calls: seq<Call>, b: nat, invocation: nat, ref: string, pack: Identity, host: string) {
    && b < |calls| && calls[b].CallBind?
    && calls[b].invocation == invocation && calls[b].ref == ref && calls[b].pack == pack && calls[b].host == host
  }

  predicate CommittedAt(calls: seq<Call>, e: nat, invocation: nat) {
    e < |calls| && calls[e].CallEnd? && calls[e].invocation == invocation && calls[e].committed
  }

  /** `holder` claimed the ref at `c` and has not released it since. */
  predicate HeldSince(calls: seq<Call>, c: nat, ref: string, holder: string) {
    && c < |calls| && calls[c].CallClaim? && calls[c].ref == ref && calls[c].holder == holder
    && forall i :: c < i < |calls| ==> !(calls[i].CallRelease? && calls[i].ref == ref && calls[i].holder == holder)
  }

  predicate NotInvalidatedSince(calls: seq<Call>, r: nat) {
    forall i :: r < i < |calls| ==> !calls[i].CallInvalidate?
  }

  /** A live entry is what its origin says: the invariant of every history. */
  predicate Explained(calls: seq<Call>, ref: string, e: Entry, o: Origin) {
    && o.registered < |calls| && calls[o.registered].CallRegister?
    && var inv := calls[o.registered].invocation;
    && RegisteredAt(calls, o.registered, ref, e.pack, e.token, inv, e.createdAt)
    && NotInvalidatedSince(calls, o.registered)
    && (e.invocation != 0 ==> e.invocation == inv)
    && (e.hosts != {} ==> inv != 0)
    && (e.bound <==> e.hosts != {})
    && (forall h :: h in e.hosts ==>
          h in o.bound && o.registered < o.bound[h] && BoundAt(calls, o.bound[h], inv, ref, e.pack, h))
    && (e.invocation == 0 && inv != 0 ==>
          o.ended.Some? && CommittedAt(calls, o.ended.value, inv)
          && forall h :: h in e.hosts ==> o.bound[h] < o.ended.value)
    && (ref == "" ==> e.holders == {})
    && (forall k :: k in e.holders ==>
          k in o.claimed && o.registered < o.claimed[k] && HeldSince(calls, o.claimed[k], ref, k))
  }

  predicate AllExplained(calls: seq<Call>, es: Entries, origins: map<string, Origin>) {
    forall ref :: ref in es ==> ref in origins && Explained(calls, ref, es[ref], origins[ref])
  }

  // ---- one call keeps every live entry explained ----------------------------------

  lemma StillExplained(calls: seq<Call>, call: Call, ref: string, e: Entry, o: Origin)
    requires Explained(calls, ref, e, o)
    requires !call.CallInvalidate?
    requires call.CallRelease? && call.ref == ref ==> call.holder !in e.holders
    ensures Explained(calls + [call], ref, e, o)
  {
    var more := calls + [call];
    assert forall i :: 0 <= i < |calls| ==> more[i] == calls[i];
    assert more[|calls|] == call;
    assert NotInvalidatedSince(more, o.registered);
    forall k | k in e.holders
      ensures k in o.claimed && o.registered < o.claimed[k] && HeldSince(more, o.claimed[k], ref, k)
    {
      assert HeldSince(calls, o.claimed[k], ref, k);
    }
    forall h | h in e.hosts
      ensures h in o.bound && BoundAt(more, o.bound[h], calls[o.registered].invocation, ref, e.pack, h)
    {
      assert BoundAt(calls, o.bound[h], calls[o.registered].invocation, ref, e.pack, h);
    }
  }

  lemma ExtendedExplained(calls: seq<Call>, call: Call, es: Entries, origins: map<string, Origin>, except: set<string>)
    requires AllExplained(calls, es, origins) && !call.CallInvalidate?
    requires call.CallRelease? ==> call.ref in except
    ensures forall ref :: ref in es && ref !in except ==>
              ref in origins && Explained(calls + [call], ref, es[ref], origins[ref])
  {
    forall ref | ref in es && ref !in except
      ensures ref in origins && Explained(calls + [call], ref, es[ref], origins[ref])
    {
      StillExplained(calls, call, ref, es[ref], origins[ref]);
    }
  }

  lemma RegisterExplained(calls: seq<Call>, es: Entries, origins: map<string, Origin>, call: Call)
    requires AllExplained(calls, es, origins) && call.CallRegister?
    ensures AllExplained(calls + [call], Apply(es, call), Note(es, origins, call, |calls|))
  {
    ExtendedExplained(calls, call, es, origins, {});
    assert (calls + [call])[|calls|] == call;
  }

  /** A host bound now is explained by the call that bound it. */
  lemma BoundExplained(calls: seq<Call>, ref: string, e: Entry, o: Origin, host: string, b: nat)
    requires Explained(calls, ref, e, o) && e.invocation != 0
    requires o.registered < b && BoundAt(calls, b, e.invocation, ref, e.pack, host)
    ensures Explained(calls, ref, e.(hosts := e.hosts + {host}, bound := true), o.(bound := o.bound[host := b]))
  {
  }

  lemma BindExplained(calls: seq<Call>, es: Entries, origins: map<string, Origin>, call: Call)
    requires AllExplained(calls, es, origins) && call.CallBind?
    ensures AllExplained(calls + [call], Apply(es, call), Note(es, origins, call, |calls|))
  {
    ExtendedExplained(calls, call, es, origins, {});
    var more := calls + [call];
    if Bind(es, call.now, call.invocation, call.ref, call.pack, call.host).1.Ok? {
      assert more[|calls|] == call && Explained(calls, call.ref, es[call.ref], origins[call.ref]);
      BoundExplained(more, call.ref, es[call.ref], origins[call.ref], call.host, |calls|);
    }
  }

  lemma EndExplained(calls: seq<Call>, es: Entries, origins: map<string, Origin>, call: Call)
    requires AllExplained(calls, es, origins) && call.CallEnd?
    ensures AllExplained(calls + [call], Apply(es, call), Note(es, origins, call, |calls|))
  {
    ExtendedExplained(calls, call, es, origins, {});
    var more := calls + [call];
    var after, noted := Apply(es, call), Note(es, origins, call, |calls|);
    assert more[|calls|] == call;
    forall ref | ref in after
      ensures ref in noted && Explained(more, ref, after[ref], noted[ref])
    {
      assert Explained(more, ref, es[ref], origins[ref]);
      if call.invocation != 0 && es[ref].invocation == call.invocation {
        assert CommittedAt(more, |calls|, call.invocation);
        assert forall h :: h in es[ref].hosts ==>
                 BoundAt(calls, origins[ref].bound[h], calls[origins[ref].registered].invocation, ref, es[ref].pack, h);
      }
    }
  }

  lemma ClaimExplained(calls: seq<Call>, es: Entries, origins: map<string, Origin>, call: Call)
    requires AllExplained(calls, es, origins) && call.CallClaim?
    ensures AllExplained(calls + [call], Apply(es, call), Note(es, origins, call, |calls|))
  {
    ExtendedExplained(calls, call, es, origins, {});
    var more := calls + [call];
    var after, noted := Apply(es, call), Note(es, origins, call, |calls|);
    assert more[|calls|] == call;
    if call.ref in after {
      assert Explained(more, call.ref, es[call.ref], origins[call.ref]);
      assert HeldSince(more, |calls|, call.ref, call.holder);
      assert Explained(more, call.ref, after[call.ref], noted[call.ref]);
    }
  }

  lemma FewerHoldersExplained(calls: seq<Call>, ref: string, e: Entry, o: Origin, holders: set<string>)
    requires Explained(calls, ref, e, o) && holders <= e.holders
    ensures Explained(calls, ref, e.(holders := holders), o)
  {
  }

  /** A release leaves every other entry alone, and takes the holder off its own. */
  lemma ReleaseEffect(es: Entries, now: int, ref: string, holder: string, r: string)
    requires r in Release(es, now, ref, holder)
    ensures r in es
    ensures var e := Release(es, now, ref, holder)[r];
            if r != ref || ref == "" then e == es[r]
            else e == es[r].(holders := e.holders) && e.holders <= es[r].holders && holder !in e.holders
  {
  }

  lemma ReleasedExplained(calls: seq<Call>, es: Entries, origins: map<string, Origin>, call: Call)
    requires AllExplained(calls, es, origins) && call.CallRelease? && call.ref in Apply(es, call)
    ensures call.ref in origins && Explained(calls + [call], call.ref, Apply(es, call)[call.ref], origins[call.ref])
  {
    var e := Apply(es, call)[call.ref];
    ReleaseEffect(es, call.now, call.ref, call.holder, call.ref);
    assert Explained(calls, call.ref, es[call.ref], origins[call.ref]);
    FewerHoldersExplained(calls, call.ref, es[call.ref], origins[call.ref], e.holders);
    StillExplained(calls, call, call.ref, e, origins[call.ref]);
  }

  lemma ReleaseExplained(calls: seq<Call>, es: Entries, origins: map<string, Origin>, call: Call)
    requires AllExplained(calls, es, origins) && call.CallRelease?
    ensures AllExplained(calls + [call], Apply(es, call), Note(es, origins, call, |calls|))
  {
    ExtendedExplained(calls, call, es, origins, {call.ref});
    var after := Apply(es, call);
    forall ref | ref in after
      ensures ref in origins && Explained(calls + [call], ref, after[ref], origins[ref])
    {
      if ref == call.ref {
        ReleasedExplained(calls, es, origins, call);
      } else {
        ReleaseEffect(es, call.now, call.ref, call.holder, ref);
      }
    }
  }

  lemma CallExplained(calls: seq<Call>, es: Entries, origins: map<string, Origin>, call: Call)
    requires AllExplained(calls, es, origins)
    ensures AllExplained(calls + [call], Apply(es, call), Note(es, origins, call, |calls|))
  {
    match call
    case CallRegister(_, _, _, _, _) => RegisterExplained(calls, es, origins, call);
    case CallBind(_, _, _, _, _) => BindExplained(calls, es, origins, call);
    case CallEnd(_, _, _) => EndExplained(calls, es, origins, call);
    case CallClaim(_, _, _) => ClaimExplained(calls, es, origins, call);
    case CallRelease(_, _, _) => ReleaseExplained(calls, es, origins, call);
    case CallMaterialize(_, _, _, _) => ExtendedExplained(calls, call, es, origins, {});
    case CallInvalidate =>
  }

  lemma {:induction false} HistoryExplained(calls: seq<Call>)
    ensures AllExplained(calls, After(calls), Origins(calls))
  {
    if calls != [] {
      var n := |calls| - 1;
      HistoryExplained(calls[..n]);
      CallExplained(calls[..n], After(calls[..n]), Origins(calls[..n]), calls[n]);
      assert calls[..n] + [calls[n]] == calls;
    }
  }

  // ---- the main result ---------------------------------------------------------------

  /**
   * The admission story of a token: registered by `pack` in a real invocation, bound
   * there to `host`, the invocation then ended committed, and a claim still stands.
   */
  ghost predicate Admitted(calls: seq<Call>, now: int, pack: Identity, ref: string, host: string, token: string) {
    exists r: nat, b: nat, e: nat, c: nat, invocation: nat, at: int, holder: string ::
      && RegisteredAt(calls, r, ref, pack, token, invocation, at)
      && BoundAt(calls, b, invocation, ref, pack, host)
      && CommittedAt(calls, e, invocation)
      && HeldSince(calls, c, ref, holder)
      && invocation != 0 && r < b < e && r < c
      && NotInvalidatedSince(calls, r) && now - at < TTL
  }

  /** Whatever calls came before, a materialised token has its whole admission story. */
  lemma MaterializeImpliesHistory(calls: seq<Call>, now: int, pack: Identity, ref: string, host: string)
    ensures var r := Materialize(After(calls), now, pack, ref, host).1;
            r.Ok? ==> Admitted(calls, now, pack, ref, host, r.value)
  {
    var r := Materialize(After(calls), now, pack, ref, host).1;
    if r.Ok? {
      HistoryExplained(calls);
      var e, o := After(calls)[ref], Origins(calls)[ref];
      assert Explained(calls, ref, e, o);
      var invocation := calls[o.registered].invocation;
      var holder :| holder in e.holders;
      assert RegisteredAt(calls, o.registered, ref, pack, r.value, invocation, e.createdAt);
      assert BoundAt(calls, o.bound[host], invocation, ref, pack, host);
      assert CommittedAt(calls, o.ended.value, invocation);
      assert HeldSince(calls, o.claimed[holder], ref, holder);
    }
  }

  // ---- and conversely ------------------------------------------------------------------

  /** An admission story with its places in the history: registered, bound, ended, claimed. */
  datatype Story = Story(registered: nat, bound: nat, ended: nat, claimed: nat, ref: string, pack: Identity,
                         host: string, token: string, invocation: nat, createdAt: int, holder: string)

  predicate Unexpired(call: Call, createdAt: int) {
    call.CallInvalidate? || call.now - createdAt < TTL
  }

  /** Nothing in the history undoes the story: no expiry seen, no release, no other end, the ref minted once. */
  predicate Undisturbed(calls: seq<Call>, t: Story) {
    && NotInvalidatedSince(calls, t.registered)
    && HeldSince(calls, t.claimed, t.ref, t.holder)
    && (forall i :: t.registered < i < |calls| ==>
          Unexpired(calls[i], t.createdAt) && !(calls[i].CallRegister? && calls[i].minted == t.ref))
    && (forall i :: t.registered < i < t.claimed && i < |calls| ==> !(calls[i].CallRelease? && calls[i].ref == t.ref))
    && (forall i :: t.registered < i < t.ended && i < |calls| ==>
          !(calls[i].CallEnd? && calls[i].invocation == t.invocation))
  }

  predicate Holds(calls: seq<Call>, t: Story) {
    && t.registered < t.bound < t.ended < |calls| && t.registered < t.claimed < |calls|
    && t.invocation != 0 && t.ref != "" && t.host != ""
    && RegisteredAt(calls, t.registered, t.ref, t.pack, t.token, t.invocation, t.createdAt)
    && BoundAt(calls, t.bound, t.invocation, t.ref, t.pack, t.host)
    && CommittedAt(calls, t.ended, t.invocation)
    && Undisturbed(calls, t)
  }

  /** How far the story has come after the first `i` calls. */
  predicate OnTrack(es: Entries, i: nat, t: Story) {
    && t.ref in es
    && var e := es[t.ref];
    && e.pack == t.pack && e.token == t.token && e.createdAt == t.createdAt
    && e.invocation == (if t.ended < i then 0 else t.invocation)
    && (t.bound < i ==> e.bound && t.host in e.hosts)
    && (t.claimed < i ==> t.holder in e.holders)
  }

  /** What the story and its being undisturbed say of the i-th call. */
  predicate Harmless(call: Call, i: nat, t: Story) {
    && !call.CallInvalidate? && call.now - t.createdAt < TTL && t.invocation != 0 && t.ref != "" && t.host != ""
    && (call.CallRegister? ==> call.minted != t.ref)
    && (i == t.bound ==> call.CallBind? && call.invocation == t.invocation && call.ref == t.ref
                         && call.pack == t.pack && call.host == t.host)
    && (i == t.claimed ==> call.CallClaim? && call.ref == t.ref && call.holder == t.holder)
    && (i == t.ended ==> call.CallEnd? && call.invocation == t.invocation && call.committed)
    && (call.CallEnd? && call.invocation == t.invocation ==> i >= t.ended)
    && (call.CallRelease? && call.ref == t.ref ==> i > t.claimed && call.holder != t.holder)
  }

  lemma UndisturbedIsHarmless(calls: seq<Call>, i: nat, t: Story)
    requires Holds(calls, t) && t.registered < i < |calls|
    ensures Harmless(calls[i], i, t)
  {
    assert Unexpired(calls[i], t.createdAt);
  }

  lemma RegisterStaysOnTrack(es: Entries, call: Call, i: nat, t: Story)
    requires Harmless(call, i, t) && t.bound < t.ended && OnTrack(es, i, t) && call.CallRegister?
    ensures OnTrack(Apply(es, call), i + 1, t)
  {
  }

  lemma BindStaysOnTrack(es: Entries, call: Call, i: nat, t: Story)
    requires Harmless(call, i, t) && t.bound < t.ended && OnTrack(es, i, t) && call.CallBind?
    ensures OnTrack(Apply(es, call), i + 1, t)
  {
  }

  lemma EndStaysOnTrack(es: Entries, call: Call, i: nat, t: Story)
    requires Harmless(call, i, t) && t.bound < t.ended && OnTrack(es, i, t) && call.CallEnd?
    ensures OnTrack(Apply(es, call), i + 1, t)
  {
  }

  lemma ClaimStaysOnTrack(es: Entries, call: Call, i: nat, t: Story)
    requires Harmless(call, i, t) && t.bound < t.ended && OnTrack(es, i, t) && call.CallClaim?
    ensures OnTrack(Apply(es, call), i + 1, t)
  {
  }

  lemma ReleaseStaysOnTrack(es: Entries, call: Call, i: nat, t: Story)
    requires Harmless(call, i, t) && t.bound < t.ended && OnTrack(es, i, t) && call.CallRelease?
    ensures OnTrack(Apply(es, call), i + 1, t)
  {
  }

  lemma CallStaysOnTrack(es: Entries, call: Call, i: nat, t: Story)
    requires Harmless(call, i, t) && t.bound < t.ended && OnTrack(es, i, t)
    ensures OnTrack(Apply(es, call), i + 1, t)
  {
    match call
    case CallRegister(_, _, _, _, _) => RegisterStaysOnTrack(es, call, i, t);
    case CallBind(_, _, _, _, _) => BindStaysOnTrack(es, call, i, t);
    case CallEnd(_, _, _) => EndStaysOnTrack(es, call, i, t);
    case CallClaim(_, _, _) => ClaimStaysOnTrack(es, call, i, t);
    case CallRelease(_, _, _) => ReleaseStaysOnTrack(es, call, i, t);
    case CallMaterialize(_, _, _, _) =>
  }

  lemma AfterOneMore(calls: seq<Call>, i: nat)
    requires i < |calls|
    ensures After(calls[..i + 1]) == Apply(After(calls[..i]), calls[i])
  {
    var s := calls[..i + 1];
    assert s[..|s| - 1] == calls[..i] && s[|s| - 1] == calls[i];
  }

  lemma {:induction false} StoryStaysOnTrack(calls: seq<Call>, i: nat, t: Story)
    requires t.registered < i <= |calls| && t.bound < t.ended
    requires forall j :: t.registered < j < |calls| ==> Harmless(calls[j], j, t)
    requires OnTrack(After(calls[..t.registered + 1]), t.registered + 1, t)
    ensures OnTrack(After(calls[..i]), i, t)
    decreases i
  {
    if i > t.registered + 1 {
      var k := i - 1;
      StoryStaysOnTrack(calls, k, t);
      CallStaysOnTrack(After(calls[..k]), calls[k], k, t);
      AfterOneMore(calls, k);
    }
  }

  lemma RegistrationIsOnTrack(calls: seq<Call>, t: Story)
    requires Holds(calls, t)
    requires Register(After(calls[..t.registered]), t.createdAt, t.invocation, t.pack, t.token, t.ref).1.Ok?
    ensures OnTrack(After(calls[..t.registered + 1]), t.registered + 1, t)
  {
    AfterOneMore(calls, t.registered);
  }

  /**
   * A registration that was accepted, with the rest of its story and nothing to undo it, does
   * give its token, to that pack, ref and host.
   */
  lemma HistoryImpliesMaterialize(calls: seq<Call>, now: int, t: Story)
    requires Holds(calls, t) && now - t.createdAt < TTL
    requires Register(After(calls[..t.registered]), t.createdAt, t.invocation, t.pack, t.token, t.ref).1.Ok?
    ensures Materialize(After(calls), now, t.pack, t.ref, t.host).1 == Ok(t.token)
  {
    RegistrationIsOnTrack(calls, t);
    forall j | t.registered < j < |calls|
      ensures Harmless(calls[j], j, t)
    {
      UndisturbedIsHarmless(calls, j, t);
    }
    StoryStaysOnTrack(calls, |calls|, t);
    assert calls[..|calls|] == calls;
  }

  /** The registry never outgrows its capacity, whatever is called. */
  lemma {:induction false} CapacityKept(calls: seq<Call>)
    ensures |After(calls)| <= CAPACITY
  {
    if calls != [] {
      var n := |calls| - 1;
      var es, call := After(calls[..n]), calls[n];
      CapacityKept(calls[..n]);
      if !call.CallInvalidate? {
        KeysBound(Sweep(es, call.now).Keys, es.Keys);
        if !call.CallRegister? { KeysBound(Apply(es, call).Keys, es.Keys); }
      }
    }
  }

  lemma KeysBound(a: set<string>, b: set<string>)
    requires a <= b
    ensures |a| <= |b|
  {
    assert b == a + (b - a);
  }
}
