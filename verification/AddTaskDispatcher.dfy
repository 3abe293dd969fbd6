/** The dispatcher's Resolve, with the runner's Match and Extract, over the registry object. */
module AddTaskDispatcher {
  import opened Prelude
  import opened DownloadAuth
  import opened DownloadAuthHistory
  import opened AddTask

  // ---- the script of one resolution --------------------------------------------------------

  /** A guest registering a token, after `others` have touched the registry. */
  datatype Registration = Registration(others: seq<Call>, now: int, token: string, minted: string)

  datatype GuestEnd = Failed(timeout: bool) | Returned | Panicked

  /** One guest call; it may fail before an invocation id is minted. */
  datatype Invocation =
    | NotStarted(timeout: bool)
    | Started(id: nat, registrations: seq<Registration>, others: seq<Call>, end: GuestEnd, endedAt: int)

  datatype PolicyEnd = NotAlias | PolicyOk | PolicyFailed | PolicyPanicked

  /** `checked` and `named` are the outcomes of the checks before and after the binding. */
  datatype Item = Item(others: seq<Call>, checked: bool, ref: string, host: string, now: int, named: bool)

  datatype Pack = Pack(identity: Identity, probe: Invocation, matched: bool, extract: Invocation,
                       policy: PolicyEnd, items: seq<Item>, others: seq<Call>, endedAt: int,
                       lateOthers: seq<Call>, backstopAt: int)

  datatype Outcome = Unmatched | Matched(pack: nat, items: seq<Item>) | TimedOut | InvalidItem(pack: nat)
                   | GenericAuth | DispatchFailed | NotConfigured | Panic

  /** What one candidate does to the loop. */
  datatype Verdict = NoMatch | Skipped(positive: bool) | EmptyOutput | Stop(outcome: Outcome)

  function IdOf(inv: Invocation): set<nat> { if inv.Started? then {inv.id} else {} }

  predicate ForeignInvocation(inv: Invocation, ids: set<nat>) {
    inv.Started? ==>
      && inv.id in ids && Foreign(inv.others, ids)
      && forall k :: 0 <= k < |inv.registrations| ==> Foreign(inv.registrations[k].others, ids)
  }

  /** `ids` are the invocation ids minted here; whatever others do, they do not use them. */
  predicate ForeignPack(p: Pack, ids: set<nat>) {
    && ForeignInvocation(p.probe, ids) && ForeignInvocation(p.extract, ids)
    && Foreign(p.others, ids) && Foreign(p.lateOthers, ids)
    && forall k :: 0 <= k < |p.items| ==> Foreign(p.items[k].others, ids)
  }

  predicate ForeignScript(packs: seq<Pack>, ids: set<nat>) {
    0 !in ids && forall k :: 0 <= k < |packs| ==> ForeignPack(packs[k], ids)
  }

  // ---- what the loop over candidates concludes ------------------------------------------------

  ghost predicate Concludes(candidates: nat, verdicts: seq<Verdict>, outcome: Outcome) {
    && |verdicts| <= candidates
    && (forall k :: 0 <= k < |verdicts| - 1 ==> !verdicts[k].Stop?)
    && if verdicts != [] && verdicts[|verdicts| - 1].Stop? then outcome == verdicts[|verdicts| - 1].outcome
       else
         && |verdicts| == candidates
         && (outcome == GenericAuth <==> EmptyOutput in verdicts)
         && (outcome == DispatchFailed <==>
               EmptyOutput !in verdicts && candidates != 0
               && (Skipped(true) in verdicts || forall k :: 0 <= k < |verdicts| ==> verdicts[k].Skipped?))
         && (outcome == Unmatched <==> outcome != GenericAuth && outcome != DispatchFailed)
  }

  /** What the loop has counted of the verdicts so far, none of them decisive. */
  predicate Tallied(verdicts: seq<Verdict>, errors: int, positive: bool, empty: bool) {
    && (forall j :: 0 <= j < |verdicts| ==> !verdicts[j].Stop?)
    && (empty <==> EmptyOutput in verdicts)
    && (positive <==> EmptyOutput in verdicts || Skipped(true) in verdicts)
    && 0 <= errors <= |verdicts|
    && (errors == |verdicts| <==> forall j :: 0 <= j < |verdicts| ==> verdicts[j].Skipped?)
  }

  lemma TalliedNext(verdicts: seq<Verdict>, errors: int, positive: bool, empty: bool, v: Verdict)
    requires Tallied(verdicts, errors, positive, empty) && !v.Stop?
    ensures Tallied(verdicts + [v], if v.Skipped? then errors + 1 else errors,
                    positive || v == EmptyOutput || v == Skipped(true), empty || v == EmptyOutput)
  {
    var more := verdicts + [v];
    assert forall j :: 0 <= j < |verdicts| ==> more[j] == verdicts[j];
    assert more[|verdicts|] == v;
  }

  /** The conclusion drawn when no candidate was decisive. */
  lemma TalliedConcludes(verdicts: seq<Verdict>, errors: int, positive: bool, empty: bool)
    requires Tallied(verdicts, errors, positive, empty) && verdicts != []
    ensures Concludes(|verdicts|, verdicts, if empty then GenericAuth
                                            else if positive || errors == |verdicts| then DispatchFailed
                                            else Unmatched)
  {
  }

  lemma StoppedConcludes(candidates: nat, verdicts: seq<Verdict>, outcome: Outcome)
    requires |verdicts| < candidates && forall j :: 0 <= j < |verdicts| ==> !verdicts[j].Stop?
    ensures Concludes(candidates, verdicts + [Stop(outcome)], outcome)
  {
    assert forall j :: 0 <= j < |verdicts| ==> (verdicts + [Stop(outcome)])[j] == verdicts[j];
  }

  /** The items of a matched resolution were bound, then their invocation ended committed. */
  ghost predicate CommittedItems(es: Entries, trace: seq<Call>, p: Pack) {
    && p.extract.Started? && p.items != []
    && exists e: nat :: e < |trace| && trace[e] == CallEnd(p.endedAt, p.extract.id, true)
         && forall k :: 0 <= k < |p.items| && p.items[k].ref != "" ==> ItemBound(es, trace, e, p, p.items[k])
  }

  ghost predicate ItemBound(es: Entries, trace: seq<Call>, e: nat, p: Pack, item: Item)
    requires p.extract.Started?
  {
    exists b: nat :: b < e && BoundIn(es, trace, b, p.extract.id, item.ref, p.identity, item.host)
  }

  lemma BoundInShifts(es: Entries, a: seq<Call>, t: seq<Call>, c: seq<Call>, b: nat, id: nat,
                      ref: string, pack: Identity, host: string)
    requires BoundIn(Replay(es, a), t, b, id, ref, pack, host)
    ensures BoundIn(es, a + t + c, |a| + b, id, ref, pack, host)
  {
    assert (a + t + c)[..|a| + b] == a + t[..b];
    ReplayAppend(es, a, t[..b]);
  }

  lemma BoundInExtends(es: Entries, t: seq<Call>, c: seq<Call>, b: nat, id: nat,
                       ref: string, pack: Identity, host: string)
    requires BoundIn(es, t, b, id, ref, pack, host)
    ensures BoundIn(es, t + c, b, id, ref, pack, host)
  {
    assert (t + c)[..b] == t[..b];
  }

  lemma CommittedItemsShift(es: Entries, a: seq<Call>, t: seq<Call>, c: seq<Call>, p: Pack)
    requires CommittedItems(Replay(es, a), t, p)
    ensures CommittedItems(es, a + t + c, p)
  {
    var start := Replay(es, a);
    var e: nat :| e < |t| && t[e] == CallEnd(p.endedAt, p.extract.id, true)
      && forall k :: 0 <= k < |p.items| && p.items[k].ref != "" ==> ItemBound(start, t, e, p, p.items[k]);
    var all := a + t + c;
    assert all[|a| + e] == CallEnd(p.endedAt, p.extract.id, true);
    forall k | 0 <= k < |p.items| && p.items[k].ref != ""
      ensures ItemBound(es, all, |a| + e, p, p.items[k])
    {
      var item := p.items[k];
      assert ItemBound(start, t, e, p, item);
      var b: nat :| b < e && BoundIn(start, t, b, p.extract.id, item.ref, p.identity, item.host);
      BoundInShifts(es, a, t, c, b, p.extract.id, item.ref, p.identity, item.host);
    }
  }

  function GuestEndOf(inv: Invocation): GuestEnd { if inv.Started? then inv.end else Failed(inv.timeout) }

  /** The verdict the candidate's own script calls for. */
  predicate Fits(p: Pack, index: nat, v: Verdict) {
    match GuestEndOf(p.probe)
    case Panicked => v == Stop(Panic)
    case Failed(timeout) => v == if timeout then Stop(TimedOut) else Skipped(false)
    case Returned =>
      if !p.matched then v == NoMatch else
      match GuestEndOf(p.extract)
      case Panicked => v == Stop(Panic)
      case Failed(timeout) => v == if timeout then Stop(TimedOut) else Skipped(true)
      case Returned =>
        if p.policy == PolicyPanicked then v == Stop(Panic)
        else if p.policy == PolicyFailed then v == Skipped(true)
        else if p.items == [] then v == EmptyOutput
        else if exists k :: 0 <= k < |p.items| && !(p.items[k].checked && p.items[k].named)
        then v == Stop(InvalidItem(index))
        else
          || v == Stop(Matched(index, p.items))
          || (v == Stop(InvalidItem(index)) && exists k :: 0 <= k < |p.items| && p.items[k].ref != "")
  }

  class Dispatcher {
    const registry: Registry

    constructor (registry: Registry)
      ensures this.registry == registry
    {
      this.registry := registry;
    }

    method Interleave(others: seq<Call>)
      modifies registry
      ensures registry.entries == Replay(old(registry.entries), others)
    {
      for i := 0 to |others|
        invariant registry.entries == Replay(old(registry.entries), others[..i])
      {
        assert others[..i + 1] == others[..i] + [others[i]];
        ReplayOne(old(registry.entries), others[..i], others[i]);
        registry.entries := Apply(registry.entries, others[i]);
      }
      assert others[..|others|] == others;
    }

    /** The guest call itself: every registration is made under the invocation's own id. */
    method RunOperation(pack: Identity, inv: Invocation, ghost ids: set<nat>) returns (ghost trace: seq<Call>)
      requires inv.Started? && ForeignInvocation(inv, ids)
      modifies registry
      ensures registry.entries == Replay(old(registry.entries), trace)
      ensures OnlyRegisters(trace, ids, inv.id)
    {
      trace := [];
      for k := 0 to |inv.registrations|
        invariant registry.entries == Replay(old(registry.entries), trace)
        invariant OnlyRegisters(trace, ids, inv.id)
      {
        var r := inv.registrations[k];
        Interleave(r.others);
        ReplayAppend(old(registry.entries), trace, r.others);
        trace := trace + r.others;
        var _ := registry.RegisterToken(r.now, inv.id, pack, r.token, r.minted);
        ReplayOne(old(registry.entries), trace, CallRegister(r.now, inv.id, pack, r.token, r.minted));
        trace := trace + [CallRegister(r.now, inv.id, pack, r.token, r.minted)];
      }
      Interleave(inv.others);
      ReplayAppend(old(registry.entries), trace, inv.others);
      trace := trace + inv.others;
    }

    /** The runner's Match: its invocation is over whichever way the guest left. */
    method Match(pack: Identity, inv: Invocation, ghost ids: set<nat>) returns (end: GuestEnd, ghost trace: seq<Call>)
      requires ForeignInvocation(inv, ids)
      modifies registry
      ensures registry.entries == Replay(old(registry.entries), trace)
      ensures end == GuestEndOf(inv)
      ensures Settled(trace, ids)
    {
      if inv.NotStarted? { return Failed(inv.timeout), []; }
      trace := RunOperation(pack, inv, ids);
      registry.End(inv.endedAt, inv.id, false);
      ReplayOne(old(registry.entries), trace, CallEnd(inv.endedAt, inv.id, false));
      SettledByEnd(trace, ids, inv.id, CallEnd(inv.endedAt, inv.id, false));
      trace := trace + [CallEnd(inv.endedAt, inv.id, false)];
      end := inv.end;
    }

    /** The runner's Extract: a returned output hands its invocation to the dispatcher. */
    method Extract(pack: Identity, inv: Invocation, ghost ids: set<nat>) returns (end: GuestEnd, ghost trace: seq<Call>)
      requires ForeignInvocation(inv, ids)
      modifies registry
      ensures registry.entries == Replay(old(registry.entries), trace)
      ensures end == GuestEndOf(inv)
      ensures end != Returned ==> Settled(trace, ids)
      ensures inv.Started? ==> OnlyRegisters(trace, ids, inv.id)
    {
      if inv.NotStarted? { return Failed(inv.timeout), []; }
      var owned := true;
      trace := RunOperation(pack, inv, ids);
      end := inv.end;
      if end == Returned { owned := false; }
      if owned {
        registry.End(inv.endedAt, inv.id, false);
        ReplayOne(old(registry.entries), trace, CallEnd(inv.endedAt, inv.id, false));
        SettledByEnd(trace, ids, inv.id, CallEnd(inv.endedAt, inv.id, false));
        trace := trace + [CallEnd(inv.endedAt, inv.id, false)];
      }
    }

    /** Binds what the items reference and ends the invocation exactly once, committed iff every item passed. */
    method BoundItems(p: Pack, ghost ids: set<nat>) returns (ok: bool, ghost trace: seq<Call>)
      requires ForeignPack(p, ids) && p.extract.Started?
      modifies registry
      ensures registry.entries == Replay(old(registry.entries), trace)
      ensures trace != [] && trace[|trace| - 1] == CallEnd(p.endedAt, p.extract.id, ok)
      ensures RegistersNone(trace, ids)
      ensures ok && p.items != [] ==> CommittedItems(old(registry.entries), trace, p)
      ensures ok ==> forall k :: 0 <= k < |p.items| ==> p.items[k].checked && p.items[k].named
      ensures !ok ==> exists k :: 0 <= k < |p.items| &&
                        !(p.items[k].checked && p.items[k].named && p.items[k].ref == "")
    {
      ghost var es := old(registry.entries);
      ok, trace := ResolvedItems(p, ids);
      registry.End(p.endedAt, p.extract.id, ok);
      ghost var last := CallEnd(p.endedAt, p.extract.id, ok);
      ReplayOne(es, trace, last);
      if ok {
        forall k | 0 <= k < |p.items| && p.items[k].ref != ""
          ensures ItemBound(es, trace + [last], |trace|, p, p.items[k])
        {
          var item := p.items[k];
          assert ItemBound(es, trace, |trace|, p, item);
          var b: nat :| b < |trace| && BoundIn(es, trace, b, p.extract.id, item.ref, p.identity, item.host);
          BoundInExtends(es, trace, [last], b, p.extract.id, item.ref, p.identity, item.host);
        }
        assert (trace + [last])[|trace|] == last;
      }
      trace := trace + [last];
    }

    method ResolvedItems(p: Pack, ghost ids: set<nat>) returns (ok: bool, ghost trace: seq<Call>)
      requires ForeignPack(p, ids) && p.extract.Started?
      modifies registry
      ensures registry.entries == Replay(old(registry.entries), trace)
      ensures RegistersNone(trace, ids)
      ensures ok ==> forall k :: 0 <= k < |p.items| ==> p.items[k].checked && p.items[k].named
      ensures ok ==> FirstBound(old(registry.entries), trace, p, |p.items|)
      ensures !ok ==> exists k :: 0 <= k < |p.items| &&
                        !(p.items[k].checked && p.items[k].named && p.items[k].ref == "")
    {
      ghost var es := old(registry.entries);
      trace := [];
      for k := 0 to |p.items|
        invariant registry.entries == Replay(es, trace)
        invariant RegistersNone(trace, ids)
        invariant forall j :: 0 <= j < k ==> p.items[j].checked && p.items[j].named
        invariant FirstBound(es, trace, p, k)
      {
        ghost var more;
        ok, more := BindItem(p, p.items[k], ids);
        ReplayAppend(es, trace, more);
        if !ok {
          trace := trace + more;
          return;
        }
        BindingsStay(es, trace, more, p, k);
        trace := trace + more;
      }
      ok := true;
    }

    /** One turn of the loop above: the checks, the binding, the filename. */
    method BindItem(p: Pack, item: Item, ghost ids: set<nat>) returns (ok: bool, ghost trace: seq<Call>)
      requires Foreign(item.others, ids) && p.extract.Started?
      modifies registry
      ensures registry.entries == Replay(old(registry.entries), trace)
      ensures RegistersNone(trace, ids)
      ensures ok ==> item.checked && item.named
      ensures ok && item.ref != "" ==> ItemBound(old(registry.entries), trace, |trace|, p, item)
      ensures !ok ==> !(item.checked && item.named && item.ref == "")
    {
      ghost var es := old(registry.entries);
      Interleave(item.others);
      trace := item.others;
      if !item.checked { return false, trace; }
      if item.ref != "" {
        var r := registry.BindRef(item.now, p.extract.id, item.ref, p.identity, item.host);
        ghost var call := CallBind(item.now, p.extract.id, item.ref, p.identity, item.host);
        ReplayOne(es, trace, call);
        trace := trace + [call];
        assert trace[..|item.others|] == item.others;
        if r.Err? { return false, trace; }
        assert BoundIn(es, trace, |item.others|, p.extract.id, item.ref, p.identity, item.host);
      }
      ok := item.named;
    }

    /** One candidate: probe, extract, alias policy, items. `pending` says a backstop is deferred for it. */
    method TryPack(p: Pack, index: nat, ghost ids: set<nat>)
      returns (v: Verdict, pending: bool, ghost trace: seq<Call>)
      requires ForeignPack(p, ids)
      modifies registry
      ensures registry.entries == Replay(old(registry.entries), trace)
      ensures Fits(p, index, v)
      ensures pending ==> p.extract.Started?
      ensures v != Stop(Panic) || !pending ==> Settled(trace, ids)
      ensures pending ==> Settled(trace, ids - IdOf(p.extract))
      ensures v == Stop(Matched(index, p.items)) ==> CommittedItems(old(registry.entries), trace, p)
    {
      ghost var es := old(registry.entries);
      pending := false;
      var end;
      end, trace := Match(p.identity, p.probe, ids);
      match end {
        case Panicked => return Stop(Panic), pending, trace;
        case Failed(timeout) => return if timeout then Stop(TimedOut) else Skipped(false), pending, trace;
        case Returned =>
      }
      if !p.matched { return NoMatch, pending, trace; }
      ghost var probe, more := trace, [];
      end, more := Extract(p.identity, p.extract, ids);
      ReplayAppend(es, trace, more);
      trace := trace + more;
      if end != Returned { SettledAppend(probe, more, ids); }
      match end {
        case Panicked => return Stop(Panic), pending, trace;
        case Failed(timeout) => return if timeout then Stop(TimedOut) else Skipped(true), pending, trace;
        case Returned =>
      }
      pending := true;
      SettledUnless(more, ids, p.extract.id);
      SettledAppend(probe, more, ids - {p.extract.id});
      Interleave(p.others);
      ReplayAppend(es, trace, p.others);
      SettledAppend(trace, p.others, ids - {p.extract.id});
      trace := trace + p.others;
      if p.policy == PolicyPanicked { return Stop(Panic), pending, trace; }
      if p.policy == PolicyFailed {
        registry.End(p.endedAt, p.extract.id, false);
        ReplayOne(es, trace, CallEnd(p.endedAt, p.extract.id, false));
        SettledByBackstop(trace, ids, p.extract.id, CallEnd(p.endedAt, p.extract.id, false));
        trace := trace + [CallEnd(p.endedAt, p.extract.id, false)];
        return Skipped(true), pending, trace;
      }
      var ok, bound := BoundItems(p, ids);
      ReplayAppend(es, trace, bound);
      SettledThroughItems(trace, bound, ids, p.extract.id);
      if ok && p.items != [] {
        CommittedItemsShift(es, trace, bound, [], p);
        assert trace + bound + [] == trace + bound;
      }
      trace := trace + bound;
      v := if !ok then Stop(InvalidItem(index)) else if p.items == [] then EmptyOutput else Stop(Matched(index, p.items));
    }

    /** The loop over the candidates; `deferred` are those whose backstop is still to run. */
    method TryPacks(packs: seq<Pack>, ghost ids: set<nat>)
      returns (outcome: Outcome, deferred: seq<Pack>, ghost verdicts: seq<Verdict>, ghost trace: seq<Call>)
      requires ForeignScript(packs, ids) && packs != []
      modifies registry
      ensures registry.entries == Replay(old(registry.entries), trace)
      ensures Concludes(|packs|, verdicts, outcome)
      ensures AllFit(packs, verdicts)
      ensures DeferredOf(packs, deferred)
      ensures if outcome == Panic && deferred != [] then Settled(trace, ids - IdOf(deferred[|deferred| - 1].extract))
              else Settled(trace, ids)
      ensures ItemsCommitted(old(registry.entries), trace, packs, outcome)
    {
      ghost var es := old(registry.entries);
      deferred, verdicts, trace := [], [], [];
      var errors, positive, empty := 0, false, false;
      for k := 0 to |packs|
        invariant registry.entries == Replay(es, trace)
        invariant |verdicts| == k
        invariant AllFit(packs, verdicts)
        invariant Tallied(verdicts, errors, positive, empty)
        invariant DeferredOf(packs, deferred)
        invariant Settled(trace, ids)
      {
        ghost var more;
        var v, pending;
        v, pending, more := TryPack(packs[k], k, ids);
        ReplayAppend(es, trace, more);
        if v.Stop? { StoppedConcludes(|packs|, verdicts, v.outcome); }
        else { TalliedNext(verdicts, errors, positive, empty, v); }
        FitNext(packs, verdicts, v);
        verdicts := verdicts + [v];
        if pending {
          DeferredNext(packs, deferred, packs[k]);
          deferred := deferred + [packs[k]];
        }
        match v {
          case Stop(stopped) =>
            CandidateStops(es, trace, more, packs, k, v, pending, ids);
            trace := trace + more;
            SettledFewer(trace, ids, deferred);
            return stopped, deferred, verdicts, trace;
          case Skipped(sure) => errors := errors + 1; positive := positive || sure;
          case EmptyOutput => positive := true; empty := true;
          case NoMatch =>
        }
        SettledAppend(trace, more, ids);
        trace := trace + more;
      }
      TalliedConcludes(verdicts, errors, positive, empty);
      outcome := if empty then GenericAuth
                 else if positive || errors == |packs| then DispatchFailed
                 else Unmatched;
    }

    /** The deferred backstops, newest first. */
    method RunDeferred(packs: seq<Pack>, deferred: seq<Pack>, ghost ids: set<nat>) returns (ghost trace: seq<Call>)
      requires ForeignScript(packs, ids) && DeferredOf(packs, deferred)
      modifies registry
      ensures registry.entries == Replay(old(registry.entries), trace)
      ensures RegistersNone(trace, ids)
      ensures forall k :: 0 <= k < |deferred| ==> EndsSome(trace, deferred[k].extract.id)
    {
      ghost var es := old(registry.entries);
      trace := [];
      var k := |deferred|;
      while k > 0
        invariant 0 <= k <= |deferred|
        invariant registry.entries == Replay(es, trace)
        invariant RegistersNone(trace, ids)
        invariant forall j :: k <= j < |deferred| ==> EndsSome(trace, deferred[j].extract.id)
      {
        k := k - 1;
        var p := deferred[k];
        Interleave(p.lateOthers);
        ReplayAppend(es, trace, p.lateOthers);
        ghost var before := trace + p.lateOthers;
        registry.End(p.backstopAt, p.extract.id, false);
        ghost var last := CallEnd(p.backstopAt, p.extract.id, false);
        ReplayOne(es, before, last);
        EndsSomeGrows(trace, p.lateOthers + [last]);
        assert trace + (p.lateOthers + [last]) == before + [last];
        trace := before + [last];
        assert Ends(trace[|before|], p.extract.id);
      }
    }

    /**
     * Whatever path it takes, a resolution leaves no entry owned by an invocation it
     * started; when it matched, the items' refs were bound and their invocation then
     * committed. `main` splits the calls made before returning from the backstops.
     */
    method Resolve(configured: bool, packs: seq<Pack>, ghost ids: set<nat>)
      returns (outcome: Outcome, ghost verdicts: seq<Verdict>, ghost trace: seq<Call>, ghost main: nat)
      requires ForeignScript(packs, ids) && NoneOwned(registry.entries, ids)
      modifies registry
      ensures registry.entries == Replay(old(registry.entries), trace)
      ensures NoneOwned(registry.entries, ids)
      ensures packs == [] ==> outcome == Unmatched && trace == []
      ensures packs != [] && !configured ==> outcome == NotConfigured && trace == []
      ensures packs != [] && configured ==>
                Concludes(|packs|, verdicts, outcome)
                && forall k :: 0 <= k < |verdicts| ==> Fits(packs[k], k, verdicts[k])
      ensures ItemsCommitted(old(registry.entries), trace, packs, outcome)
      ensures main <= |trace|
      ensures outcome != Panic ==> EndsOnlySweep(Replay(old(registry.entries), trace[..main]), trace[main..], ids)
    {
      ghost var es := old(registry.entries);
      if packs == [] { return Unmatched, [], [], 0; }
      if !configured { return NotConfigured, [], [], 0; }
      var deferred;
      ghost var closing;
      outcome, deferred, verdicts, trace := TryPacks(packs, ids);
      main := |trace|;
      closing := RunDeferred(packs, deferred, ids);
      ReplayAppend(es, trace, closing);
      if outcome == Panic && deferred != [] {
        SettledByClosing(trace, closing, ids, deferred[|deferred| - 1].extract.id);
      } else {
        SettledOwnsNothing(es, trace, ids);
        BackstopsOnlySweep(Replay(es, trace), closing, ids);
        SettledAppend(trace, closing, ids);
      }
      SettledOwnsNothing(es, trace + closing, ids);
      if outcome.Matched? {
        CommittedItemsShift(es, [], trace, closing, packs[outcome.pack]);
        assert [] + trace + closing == trace + closing;
      }
      trace := trace + closing;
      assert trace[..main] + trace[main..] == trace && trace[main..] == closing;
    }
  }

  predicate DeferredOf(packs: seq<Pack>, deferred: seq<Pack>) {
    forall k :: 0 <= k < |deferred| ==> deferred[k] in packs && deferred[k].extract.Started?
  }

  lemma DeferredNext(packs: seq<Pack>, deferred: seq<Pack>, p: Pack)
    requires DeferredOf(packs, deferred) && p in packs && p.extract.Started?
    ensures DeferredOf(packs, deferred + [p])
  {
  }

  /** Each verdict so far is the one of its candidate. */
  predicate AllFit(packs: seq<Pack>, verdicts: seq<Verdict>) {
    |verdicts| <= |packs| && forall k :: 0 <= k < |verdicts| ==> Fits(packs[k], k, verdicts[k])
  }

  lemma FitNext(packs: seq<Pack>, verdicts: seq<Verdict>, v: Verdict)
    requires AllFit(packs, verdicts) && |verdicts| < |packs| && Fits(packs[|verdicts|], |verdicts|, v)
    ensures AllFit(packs, verdicts + [v])
  {
  }

  ghost predicate ItemsCommitted(es: Entries, trace: seq<Call>, packs: seq<Pack>, outcome: Outcome) {
    outcome.Matched? ==>
      && outcome.pack < |packs| && outcome.items == packs[outcome.pack].items
      && CommittedItems(es, trace, packs[outcome.pack])
  }

  /** A decisive candidate leaves unsettled at most its own invocation, when it panicked. */
  lemma CandidateStops(es: Entries, trace: seq<Call>, more: seq<Call>, packs: seq<Pack>, k: nat, v: Verdict,
                       pending: bool, ids: set<nat>)
    requires k < |packs| && v.Stop? && Fits(packs[k], k, v)
    requires Settled(trace, ids) && (v != Stop(Panic) || !pending ==> Settled(more, ids))
    requires pending ==> Settled(more, ids - IdOf(packs[k].extract))
    requires v == Stop(Matched(k, packs[k].items)) ==> CommittedItems(Replay(es, trace), more, packs[k])
    ensures ItemsCommitted(es, trace + more, packs, v.outcome)
    ensures if v == Stop(Panic) && pending then Settled(trace + more, ids - IdOf(packs[k].extract))
            else Settled(trace + more, ids)
  {
    if v == Stop(Panic) && pending {
      SettledAppend(trace, more, ids - IdOf(packs[k].extract));
    } else {
      SettledAppend(trace, more, ids);
    }
    if v == Stop(Matched(k, packs[k].items)) {
      CommittedItemsShift(es, trace, more, [], packs[k]);
      assert trace + more + [] == trace + more;
    }
  }

  lemma SettledFewer(trace: seq<Call>, ids: set<nat>, deferred: seq<Pack>)
    ensures Settled(trace, ids) && deferred != [] ==> Settled(trace, ids - IdOf(deferred[|deferred| - 1].extract))
  {
  }

  ghost predicate EndsSome(trace: seq<Call>, id: nat) { exists i :: 0 <= i < |trace| && Ends(trace[i], id) }

  lemma EndsSomeGrows(trace: seq<Call>, more: seq<Call>)
    ensures forall id: nat :: EndsSome(trace, id) ==> EndsSome(trace + more, id)
  {
    forall id: nat | EndsSome(trace, id)
      ensures EndsSome(trace + more, id)
    {
      var i :| 0 <= i < |trace| && Ends(trace[i], id);
      assert Ends((trace + more)[i], id);
    }
  }

  lemma SettledByClosing(trace: seq<Call>, closing: seq<Call>, ids: set<nat>, id: nat)
    requires Settled(trace, ids - {id}) && RegistersNone(closing, ids) && EndsSome(closing, id)
    ensures Settled(trace + closing, ids)
  {
    var e :| 0 <= e < |closing| && Ends(closing[e], id);
    SettledAppend(trace, closing[..e], ids - {id});
    SettledByBackstop(trace + closing[..e], ids, id, closing[e]);
    SettledAppend(trace + closing[..e] + [closing[e]], closing[e + 1..], ids);
    assert trace + closing[..e] + [closing[e]] + closing[e + 1..] == trace + closing;
  }

  lemma SettledThroughItems(trace: seq<Call>, bound: seq<Call>, ids: set<nat>, id: nat)
    requires Settled(trace, ids - {id}) && RegistersNone(bound, ids)
    requires bound != [] && Ends(bound[|bound| - 1], id)
    ensures Settled(trace + bound, ids)
  {
    var n := |bound| - 1;
    SettledAppend(trace, bound[..n], ids - {id});
    SettledByBackstop(trace + bound[..n], ids, id, bound[n]);
    assert trace + bound[..n] + [bound[n]] == trace + bound;
  }

  ghost predicate FirstBound(es: Entries, trace: seq<Call>, p: Pack, n: nat)
    requires n <= |p.items| && p.extract.Started?
  {
    forall j :: 0 <= j < n && p.items[j].ref != "" ==> ItemBound(es, trace, |trace|, p, p.items[j])
  }

  lemma EarlierBindingStays(es: Entries, trace: seq<Call>, more: seq<Call>, p: Pack, item: Item)
    requires p.extract.Started? && ItemBound(es, trace, |trace|, p, item)
    ensures ItemBound(es, trace + more, |trace + more|, p, item)
  {
    var b: nat :| b < |trace| && BoundIn(es, trace, b, p.extract.id, item.ref, p.identity, item.host);
    BoundInExtends(es, trace, more, b, p.extract.id, item.ref, p.identity, item.host);
  }

  lemma LaterBindingCounts(es: Entries, trace: seq<Call>, more: seq<Call>, p: Pack, item: Item)
    requires p.extract.Started? && ItemBound(Replay(es, trace), more, |more|, p, item)
    ensures ItemBound(es, trace + more, |trace + more|, p, item)
  {
    var b: nat :| b < |more| && BoundIn(Replay(es, trace), more, b, p.extract.id, item.ref, p.identity, item.host);
    BoundInShifts(es, trace, more, [], b, p.extract.id, item.ref, p.identity, item.host);
    assert trace + more + [] == trace + more;
  }

  lemma BindingsStay(es: Entries, trace: seq<Call>, more: seq<Call>, p: Pack, k: nat)
    requires k < |p.items| && p.extract.Started? && FirstBound(es, trace, p, k)
    requires p.items[k].ref != "" ==> ItemBound(Replay(es, trace), more, |more|, p, p.items[k])
    ensures FirstBound(es, trace + more, p, k + 1)
  {
    forall j | 0 <= j < k + 1 && p.items[j].ref != ""
      ensures ItemBound(es, trace + more, |trace + more|, p, p.items[j])
    {
      if j < k {
        EarlierBindingStays(es, trace, more, p, p.items[j]);
      } else {
        LaterBindingCounts(es, trace, more, p, p.items[j]);
      }
    }
  }

  // ---- what the caller may rely on ---------------------------------------------------------

  /** Minted refs are new: never in the registry at the start, never minted twice. */
  predicate FreshMints(es: Entries, trace: seq<Call>) {
    forall i :: 0 <= i < |trace| && trace[i].CallRegister? ==>
      trace[i].minted !in es && NotMintedAfter(trace, i, trace[i].minted)
  }

  lemma {:induction false} LiveWasMinted(es: Entries, trace: seq<Call>, n: nat, ref: string)
    requires n <= |trace| && ref in Replay(es, trace[..n])
    ensures ref in es || exists i :: 0 <= i < n && trace[i].CallRegister? && trace[i].minted == ref
  {
    if n > 0 {
      assert trace[..n][..n - 1] == trace[..n - 1];
      if ref in Replay(es, trace[..n - 1]) {
        LiveWasMinted(es, trace, n - 1, ref);
      } else {
        OnlyRegisterAdds(Replay(es, trace[..n - 1]), trace[n - 1], ref);
      }
    }
  }

  lemma OnlyRegisterAdds(es: Entries, call: Call, ref: string)
    requires ref !in es && ref in Apply(es, call)
    ensures call.CallRegister? && call.minted == ref
  {
  }

  /**
   * After a matched resolution, each item's ref the registry still has is bound to the
   * item's host and pack and owned by nobody: a claim is all that materialising it needs.
   */
  lemma MatchedItemsAreReady(es: Entries, trace: seq<Call>, p: Pack, item: Item)
    requires CommittedItems(es, trace, p) && p.extract.id != 0
    requires item in p.items && item.ref != "" && FreshMints(es, trace)
    ensures item.ref in Replay(es, trace) ==>
              var e := Replay(es, trace)[item.ref]; BoundTo(e, p.identity, item.host) && e.invocation == 0
  {
    var e: nat :| e < |trace| && trace[e] == CallEnd(p.endedAt, p.extract.id, true)
      && forall k :: 0 <= k < |p.items| && p.items[k].ref != "" ==> ItemBound(es, trace, e, p, p.items[k]);
    var k :| 0 <= k < |p.items| && p.items[k] == item;
    assert ItemBound(es, trace, e, p, p.items[k]);
    var b: nat :| b < e && BoundIn(es, trace, b, p.extract.id, item.ref, p.identity, item.host);
    assert item.ref in Replay(es, trace[..b]);
    LiveWasMinted(es, trace, b, item.ref);
    CommittedRefIsRetained(es, trace, b, e, p.extract.id, item.ref, p.identity, item.host);
  }
}
