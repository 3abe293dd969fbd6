/**
 * The add-task dispatcher and the runner beneath it: who ends an extract invocation,
 * on which path, and what the download-auth registry keeps of it.
 *
 * A resolution is driven by a script: what each guest call registers, how it ends and
 * what other goroutines do to the registry in between. Nothing is assumed of the
 * script except that invocation ids are fresh and non-zero.
 */
module AddTask {
  import opened Prelude
  import opened DownloadAuth
  import opened DownloadAuthHistory

  // ---- traces of registry calls ------------------------------------------------------

  function Replay(es: Entries, trace: seq<Call>): Entries {
    if trace == [] then es else Apply(Replay(es, trace[..|trace| - 1]), trace[|trace| - 1])
  }

  lemma ReplayOne(es: Entries, trace: seq<Call>, call: Call)
    ensures Replay(es, trace + [call]) == Apply(Replay(es, trace), call)
  {
    assert (trace + [call])[..|trace|] == trace;
  }

  lemma {:induction false} ReplayAppend(es: Entries, a: seq<Call>, b: seq<Call>)
    ensures Replay(es, a + b) == Replay(Replay(es, a), b)
  {
    if b == [] {
      assert a + b == a;
    } else {
      var n := |b| - 1;
      ReplayAppend(es, a, b[..n]);
      assert (a + b)[..|a + b| - 1] == a + b[..n];
    }
  }

  predicate RegistersUnder(call: Call, id: nat) { call.CallRegister? && call.invocation == id }

  predicate Ends(call: Call, id: nat) { call.CallEnd? && call.invocation == id }

  /** Other goroutines never hold one of our invocation ids. */
  predicate Foreign(calls: seq<Call>, ids: set<nat>) {
    forall i :: 0 <= i < |calls| && (calls[i].CallRegister? || calls[i].CallBind? || calls[i].CallEnd?) ==>
      calls[i].invocation !in ids
  }

  ghost predicate EndsAfter(trace: seq<Call>, i: int, id: nat) { exists j :: 0 <= i < j < |trace| && Ends(trace[j], id) }

  /** Every registration under one of `ids` is followed by an end of that invocation. */
  ghost predicate Settled(trace: seq<Call>, ids: set<nat>) {
    forall i, id :: 0 <= i < |trace| && id in ids && RegistersUnder(trace[i], id) ==> EndsAfter(trace, i, id)
  }

  /** Within `ids`, the trace registers under `id` only. */
  predicate OnlyRegisters(trace: seq<Call>, ids: set<nat>, id: nat) {
    forall i :: 0 <= i < |trace| && trace[i].CallRegister? && trace[i].invocation in ids ==> trace[i].invocation == id
  }

  predicate RegistersNone(trace: seq<Call>, ids: set<nat>) {
    forall i :: 0 <= i < |trace| && trace[i].CallRegister? ==> trace[i].invocation !in ids
  }

  lemma SettledAppend(a: seq<Call>, b: seq<Call>, ids: set<nat>)
    requires Settled(a, ids) && Settled(b, ids)
    ensures Settled(a + b, ids)
  {
    var t := a + b;
    forall i, id | 0 <= i < |t| && id in ids && RegistersUnder(t[i], id)
      ensures EndsAfter(t, i, id)
    {
      if i < |a| {
        assert EndsAfter(a, i, id);
        var j :| i < j < |a| && Ends(a[j], id);
        assert Ends(t[j], id);
      } else {
        assert RegistersUnder(b[i - |a|], id);
        assert EndsAfter(b, i - |a|, id);
        var j :| i - |a| < j < |b| && Ends(b[j], id);
        assert Ends(t[|a| + j], id);
      }
    }
  }

  lemma SettledByEnd(trace: seq<Call>, ids: set<nat>, id: nat, last: Call)
    requires OnlyRegisters(trace, ids, id) && Ends(last, id)
    ensures Settled(trace + [last], ids)
  {
    assert Ends((trace + [last])[|trace|], id);
  }

  lemma SettledUnless(trace: seq<Call>, ids: set<nat>, id: nat)
    requires OnlyRegisters(trace, ids, id)
    ensures Settled(trace, ids - {id})
  {
  }

  lemma SettledByBackstop(trace: seq<Call>, ids: set<nat>, id: nat, last: Call)
    requires Settled(trace, ids - {id}) && Ends(last, id)
    ensures Settled(trace + [last], ids)
  {
    var t := trace + [last];
    forall i, k | 0 <= i < |t| && k in ids && RegistersUnder(t[i], k)
      ensures EndsAfter(t, i, k)
    {
      if k == id {
        assert Ends(t[|trace|], id);
      } else {
        assert EndsAfter(trace, i, k);
        var j :| i < j < |trace| && Ends(trace[j], k);
        assert Ends(t[j], k);
      }
    }
  }

  // ---- ownership ---------------------------------------------------------------------------

  ghost predicate NoneOwned(es: Entries, ids: set<nat>) {
    forall ref :: ref in es ==> es[ref].invocation !in ids
  }

  /** Whoever owns an entry after a call registered it then, or owned it before and did not end. */
  lemma OwnedAfterCall(es: Entries, c: Call, id: nat, ref: string)
    requires id != 0 && ref in Apply(es, c) && Apply(es, c)[ref].invocation == id
    ensures RegistersUnder(c, id) || (ref in es && es[ref].invocation == id && !Ends(c, id))
  {
  }

  lemma StillOpen(trace: seq<Call>, i: nat, id: nat)
    requires i < |trace| - 1 && var before := trace[..|trace| - 1];
                                RegistersUnder(before[i], id) && !EndsAfter(before, i, id)
    requires !Ends(trace[|trace| - 1], id)
    ensures RegistersUnder(trace[i], id) && !EndsAfter(trace, i, id)
  {
    assert forall j :: 0 <= j < |trace| - 1 ==> trace[..|trace| - 1][j] == trace[j];
  }

  /** An owned entry was registered under its owner, which has not ended since. */
  lemma {:induction false} OwnedHasOpenRegistration(es: Entries, trace: seq<Call>, id: nat, ref: string)
    requires id != 0 && NoneOwned(es, {id})
    requires ref in Replay(es, trace) && Replay(es, trace)[ref].invocation == id
    ensures exists i :: 0 <= i < |trace| && RegistersUnder(trace[i], id) && !EndsAfter(trace, i, id)
  {
    if trace != [] {
      var n := |trace| - 1;
      OwnedAfterCall(Replay(es, trace[..n]), trace[n], id, ref);
      if RegistersUnder(trace[n], id) {
        assert !EndsAfter(trace, n, id);
      } else {
        OwnedHasOpenRegistration(es, trace[..n], id, ref);
        var i :| 0 <= i < n && RegistersUnder(trace[..n][i], id) && !EndsAfter(trace[..n], i, id);
        StillOpen(trace, i, id);
      }
    }
  }

  /** Once every invocation is settled nothing is owned any more. */
  lemma SettledOwnsNothing(es: Entries, trace: seq<Call>, ids: set<nat>)
    requires 0 !in ids && NoneOwned(es, ids) && Settled(trace, ids)
    ensures NoneOwned(Replay(es, trace), ids)
  {
    forall ref | ref in Replay(es, trace)
      ensures Replay(es, trace)[ref].invocation !in ids
    {
      var id := Replay(es, trace)[ref].invocation;
      if id in ids {
        OwnedHasOpenRegistration(es, trace, id, ref);
      }
    }
  }

  /** Ending an invocation that owns nothing only sweeps: retained entries are safe from the backstop. */
  lemma BackstopIsInert(es: Entries, now: int, id: nat)
    requires id != 0 && NoneOwned(es, {id})
    ensures EndInvocation(es, now, id, false) == Sweep(es, now)
  {
    forall ref | ref in Sweep(es, now)
      ensures es[ref].invocation != id
    {
      assert es[ref].invocation !in {id};
    }
    assert EndInvocation(es, now, id, false).Keys == Sweep(es, now).Keys;
  }

  /** Every end of one of `ids` in the trace does nothing but sweep. */
  ghost predicate EndsOnlySweep(es: Entries, trace: seq<Call>, ids: set<nat>) {
    forall i :: 0 <= i < |trace| && trace[i].CallEnd? && trace[i].invocation in ids ==>
      Apply(Replay(es, trace[..i]), trace[i]) == Sweep(Replay(es, trace[..i]), trace[i].now)
  }

  /** After a settled resolution its deferred backstops purge nothing, whatever runs between them. */
  lemma BackstopsOnlySweep(es: Entries, trace: seq<Call>, ids: set<nat>)
    requires 0 !in ids && NoneOwned(es, ids) && RegistersNone(trace, ids)
    ensures EndsOnlySweep(es, trace, ids)
  {
    forall i | 0 <= i < |trace| && trace[i].CallEnd? && trace[i].invocation in ids
      ensures Apply(Replay(es, trace[..i]), trace[i]) == Sweep(Replay(es, trace[..i]), trace[i].now)
    {
      SettledOwnsNothing(es, trace[..i], ids);
      BackstopIsInert(Replay(es, trace[..i]), trace[i].now, trace[i].invocation);
    }
  }

  // ---- what a commit keeps ---------------------------------------------------------------------

  /** Call `b` of the trace bound `ref` to `host` for `pack` within invocation `id`. */
  predicate BoundIn(es: Entries, trace: seq<Call>, b: nat, id: nat, ref: string, pack: Identity, host: string) {
    && b < |trace| && trace[b].CallBind?
    && trace[b] == CallBind(trace[b].now, id, ref, pack, host)
    && Bind(Replay(es, trace[..b]), trace[b].now, id, ref, pack, host).1.Ok?
  }

  predicate BoundTo(e: Entry, pack: Identity, host: string) { e.bound && host in e.hosts && e.pack == pack }

  predicate NotMintedAfter(trace: seq<Call>, b: nat, ref: string) {
    forall i :: b < i < |trace| && trace[i].CallRegister? ==> trace[i].minted != ref
  }

  /**
   * A ref bound before its invocation committed is, for as long as the registry keeps
   * it, bound to that host and pack and owned by nobody: exactly what a holder needs.
   */
  lemma CommittedRefIsRetained(es: Entries, trace: seq<Call>, b: nat, e: nat, id: nat,
                               ref: string, pack: Identity, host: string)
    requires id != 0 && b < e < |trace| && Ends(trace[e], id)
    requires BoundIn(es, trace, b, id, ref, pack, host) && NotMintedAfter(trace, b, ref)
    ensures ref in Replay(es, trace) ==>
              BoundTo(Replay(es, trace)[ref], pack, host) && Replay(es, trace)[ref].invocation == 0
  {
    KeptAfterBind(es, trace, b, e - 1, id, ref, pack, host);
    RetainedAfterEnd(es, trace, b, e, id, ref, pack, host);
  }

  /** Bound to the host and pack, and owned by `id` at most. */
  predicate Kept(es: Entries, id: nat, ref: string, pack: Identity, host: string) {
    ref in es ==> BoundTo(es[ref], pack, host) && es[ref].invocation in {0, id}
  }

  lemma CallKeeps(es: Entries, call: Call, id: nat, ref: string, pack: Identity, host: string)
    requires Kept(es, id, ref, pack, host) && !(call.CallRegister? && call.minted == ref)
    ensures Kept(Apply(es, call), id, ref, pack, host)
    ensures Kept(es, 0, ref, pack, host) ==> Kept(Apply(es, call), 0, ref, pack, host)
    ensures Ends(call, id) && id != 0 ==> Kept(Apply(es, call), 0, ref, pack, host)
  {
  }

  lemma BindKeeps(es: Entries, now: int, id: nat, ref: string, pack: Identity, host: string)
    requires Bind(es, now, id, ref, pack, host).1.Ok?
    ensures Kept(Bind(es, now, id, ref, pack, host).0, id, ref, pack, host)
  {
  }

  lemma ReplayStep(es: Entries, trace: seq<Call>, n: nat)
    requires n < |trace|
    ensures Replay(es, trace[..n + 1]) == Apply(Replay(es, trace[..n]), trace[n])
  {
    assert trace[..n + 1] == trace[..n] + [trace[n]];
    ReplayOne(es, trace[..n], trace[n]);
  }

  /** The n-th call of a trace, as in `CallKeeps`. */
  lemma CallOfTraceKeeps(es: Entries, trace: seq<Call>, n: nat, id: nat, ref: string, pack: Identity, host: string)
    requires n < |trace| && !(trace[n].CallRegister? && trace[n].minted == ref)
    requires Kept(Replay(es, trace[..n]), id, ref, pack, host)
    ensures Kept(Replay(es, trace[..n + 1]), id, ref, pack, host)
    ensures Kept(Replay(es, trace[..n]), 0, ref, pack, host) ==> Kept(Replay(es, trace[..n + 1]), 0, ref, pack, host)
    ensures Ends(trace[n], id) && id != 0 ==> Kept(Replay(es, trace[..n + 1]), 0, ref, pack, host)
  {
    ReplayStep(es, trace, n);
    CallKeeps(Replay(es, trace[..n]), trace[n], id, ref, pack, host);
  }

  lemma BindOfTraceKeeps(es: Entries, trace: seq<Call>, b: nat, id: nat, ref: string, pack: Identity, host: string)
    requires BoundIn(es, trace, b, id, ref, pack, host)
    ensures Kept(Replay(es, trace[..b + 1]), id, ref, pack, host)
  {
    ReplayStep(es, trace, b);
    BindKeeps(Replay(es, trace[..b]), trace[b].now, id, ref, pack, host);
  }

  lemma {:induction false} KeptAfterBind(es: Entries, trace: seq<Call>, b: nat, n: nat, id: nat,
                                         ref: string, pack: Identity, host: string)
    requires b <= n < |trace|
    requires BoundIn(es, trace, b, id, ref, pack, host) && NotMintedAfter(trace, b, ref)
    ensures Kept(Replay(es, trace[..n + 1]), id, ref, pack, host)
  {
    if n == b {
      BindOfTraceKeeps(es, trace, b, id, ref, pack, host);
    } else {
      KeptAfterBind(es, trace, b, n - 1, id, ref, pack, host);
      CallOfTraceKeeps(es, trace, n, id, ref, pack, host);
    }
  }

  lemma {:induction false} KeptAfterEnd(es: Entries, trace: seq<Call>, e: nat, n: nat, id: nat,
                                        ref: string, pack: Identity, host: string)
    requires e <= n < |trace| && Ends(trace[e], id) && id != 0
    requires Kept(Replay(es, trace[..e]), id, ref, pack, host)
    requires forall i :: e <= i < |trace| ==> !(trace[i].CallRegister? && trace[i].minted == ref)
    ensures Kept(Replay(es, trace[..n + 1]), 0, ref, pack, host)
  {
    if n == e {
      CallOfTraceKeeps(es, trace, e, id, ref, pack, host);
    } else {
      KeptAfterEnd(es, trace, e, n - 1, id, ref, pack, host);
      CallOfTraceKeeps(es, trace, n, 0, ref, pack, host);
    }
  }

  lemma RetainedAfterEnd(es: Entries, trace: seq<Call>, b: nat, e: nat, id: nat,
                         ref: string, pack: Identity, host: string)
    requires b < e < |trace| && Ends(trace[e], id) && id != 0 && NotMintedAfter(trace, b, ref)
    requires Kept(Replay(es, trace[..e]), id, ref, pack, host)
    ensures ref in Replay(es, trace) ==>
              BoundTo(Replay(es, trace)[ref], pack, host) && Replay(es, trace)[ref].invocation == 0
  {
    hide Apply;
    var n := |trace| - 1;
    KeptAfterEnd(es, trace, e, n, id, ref, pack, host);
    assert trace[..n + 1] == trace;
  }

  /** Of what an invocation owns, a commit keeps exactly the bound entries, ownerless and otherwise as they were. */
  lemma CommitKeepsExactlyBound(es: Entries, now: int, id: nat, ref: string)
    requires id != 0 && ref in es && es[ref].invocation == id
    ensures var after := EndInvocation(es, now, id, true);
            && (ref in after <==> es[ref].bound && !Expired(es[ref], now))
            && (ref in after ==> after[ref] == es[ref].(invocation := 0))
  {
  }
}
