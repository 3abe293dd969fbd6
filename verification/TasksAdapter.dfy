/**
 * The tasks adapter: refs "r-N" handed to submissions, each holding a claim in the
 * download-auth registry under "ref:r-N". Goroutines run its critical sections in any
 * order, so every method takes the sections others run in between as `others`.
 */
module TasksAdapter {
  import opened Prelude
  import opened Decimal
  import opened DownloadAuth
  import opened DownloadAuthHistory

  // ---- holder keys -------------------------------------------------------------------------

  const PREFIX := "ref:"

  predicate Ours(holder: string) { |holder| >= |PREFIX| && holder[..|PREFIX|] == PREFIX }

  function HolderKey(n: nat): string { PREFIX + "r-" + Dec(n) }

  lemma HolderKeyIsOurs(n: nat)
    ensures Ours(HolderKey(n))
  {
  }

  lemma HolderKeyInjective(m: nat, n: nat)
    requires HolderKey(m) == HolderKey(n)
    ensures m == n
  {
    assert HolderKey(m) == (PREFIX + "r-") + Dec(m) && HolderKey(n) == (PREFIX + "r-") + Dec(n);
    assert HolderKey(m)[|PREFIX + "r-"|..] == Dec(m);
    assert HolderKey(n)[|PREFIX + "r-"|..] == Dec(n);
    DecInjective(m, n);
  }

  // ---- the critical sections ------------------------------------------------------------------

  /**
   * `items` is the adapter's resolvedItems, from ref number to download-auth ref. `taken`
   * are numbers drawn but not yet claimed for; `inHand` are claims made but not yet
   * stored, or dropped but not yet released.
   */
  datatype View = View(es: Entries, nextRef: nat, taken: set<nat>, items: map<nat, string>, inHand: map<nat, string>)

  datatype Section =
    | Take
    | ClaimFor(n: nat, auth: string, now: int)
    | Store(n: nat)
    | Drop(n: nat)
    | FreeFor(n: nat, now: int)
    | Elsewhere(call: Call)

  /** What others may run: their own refs, and registry calls that neither use our keys nor re-mint a held ref. */
  predicate Allowed(v: View, s: Section) {
    match s
    case Take => true
    case ClaimFor(n, _, _) => n in v.taken
    case Store(n) => n in v.inHand
    case Drop(n) => n in v.items
    case FreeFor(n, _) => n in v.inHand
    case Elsewhere(call) =>
      && (call.CallClaim? || call.CallRelease? ==> !Ours(call.holder))
      && (call.CallRegister? ==> call.minted != "" && call.minted !in (v.items + v.inHand).Values)
  }

  function Perform(v: View, s: Section): View
    requires Allowed(v, s)
  {
    match s
    case Take => v.(nextRef := v.nextRef + 1, taken := v.taken + {v.nextRef + 1})
    case ClaimFor(n, auth, now) =>
      var (es, r) := Claim(v.es, now, auth, HolderKey(n));
      v.(es := es, taken := v.taken - {n}, inHand := if r.Ok? then v.inHand[n := auth] else v.inHand)
    case Store(n) => v.(items := v.items[n := v.inHand[n]], inHand := v.inHand - {n})
    case Drop(n) => v.(items := v.items - {n}, inHand := v.inHand[n := v.items[n]])
    case FreeFor(n, now) => v.(es := Release(v.es, now, v.inHand[n], HolderKey(n)), inHand := v.inHand - {n})
    case Elsewhere(call) => v.(es := Apply(v.es, call))
  }

  // ---- the invariant ----------------------------------------------------------------------------

  function OurHolders(e: Entry): set<string> { set k | k in e.holders && Ours(k) }

  function KeysFor(refs: map<nat, string>, auth: string): set<string> {
    set n | n in refs && refs[n] == auth :: HolderKey(n)
  }

  /** Our holders of a registry entry are exactly the refs that stand for it. */
  predicate HoldersExact(es: Entries, refs: map<nat, string>) {
    forall auth :: auth in es ==> auth != "" && OurHolders(es[auth]) == KeysFor(refs, auth)
  }

  ghost predicate Agrees(v: View) {
    && v.items.Keys !! v.inHand.Keys
    && v.taken !! v.items.Keys && v.taken !! v.inHand.Keys
    && (forall n :: n in v.taken || n in v.items || n in v.inHand ==> 0 < n <= v.nextRef)
    && HoldersExact(v.es, v.items + v.inHand)
  }

  lemma KeysForAdded(refs: map<nat, string>, n: nat, auth: string, other: string)
    requires n !in refs
    ensures KeysFor(refs[n := auth], other) == KeysFor(refs, other) + (if auth == other then {HolderKey(n)} else {})
  {
    var more := refs[n := auth];
    forall k | k in KeysFor(refs, other)
      ensures k in KeysFor(more, other)
    {
      var m :| m in refs && refs[m] == other && k == HolderKey(m);
      assert m in more && more[m] == other;
    }
    if auth == other { assert n in more && more[n] == other; }
  }

  lemma KeysForRemoved(refs: map<nat, string>, n: nat, other: string)
    requires n in refs
    ensures KeysFor(refs - {n}, other) == KeysFor(refs, other) - (if refs[n] == other then {HolderKey(n)} else {})
  {
    var less := refs - {n};
    assert refs == less[n := refs[n]];
    KeysForAdded(less, n, refs[n], other);
    if HolderKey(n) in KeysFor(less, other) {
      var m :| m in less && less[m] == other && HolderKey(n) == HolderKey(m);
      HolderKeyInjective(m, n);
    }
  }

  lemma ClaimKeepsExact(es: Entries, refs: map<nat, string>, now: int, auth: string, n: nat)
    requires HoldersExact(es, refs) && n !in refs
    ensures var (after, r) := Claim(es, now, auth, HolderKey(n));
            HoldersExact(after, if r.Ok? then refs[n := auth] else refs)
  {
    HolderKeyIsOurs(n);
    forall other
      ensures KeysFor(refs[n := auth], other) == KeysFor(refs, other) + (if auth == other then {HolderKey(n)} else {})
    {
      KeysForAdded(refs, n, auth, other);
    }
    var (after, r) := Claim(es, now, auth, HolderKey(n));
    if r.Ok? && auth in after {
      assert OurHolders(after[auth]) == OurHolders(es[auth]) + {HolderKey(n)};
    }
  }

  lemma ReleaseKeepsExact(es: Entries, refs: map<nat, string>, now: int, n: nat)
    requires HoldersExact(es, refs) && n in refs
    ensures HoldersExact(Release(es, now, refs[n], HolderKey(n)), refs - {n})
  {
    HolderKeyIsOurs(n);
    var auth := refs[n];
    var after := Release(es, now, auth, HolderKey(n));
    forall other | other in after
      ensures other != "" && OurHolders(after[other]) == KeysFor(refs - {n}, other)
    {
      KeysForRemoved(refs, n, other);
      if other == auth {
        assert HolderKey(n) in KeysFor(refs, auth);
        assert OurHolders(after[auth]) == OurHolders(es[auth]) - {HolderKey(n)};
      }
    }
  }

  lemma ElsewhereKeepsExact(es: Entries, refs: map<nat, string>, call: Call)
    requires HoldersExact(es, refs)
    requires call.CallClaim? || call.CallRelease? ==> !Ours(call.holder)
    requires call.CallRegister? ==> call.minted != "" && call.minted !in refs.Values
    ensures HoldersExact(Apply(es, call), refs)
  {
    var after := Apply(es, call);
    forall auth | auth in after
      ensures auth != "" && OurHolders(after[auth]) == KeysFor(refs, auth)
    {
      if call.CallRegister? && call.minted == auth && after[auth].holders == {} {
        assert auth !in refs.Values;
        forall n | n in refs ensures refs[n] != auth { assert refs[n] in refs.Values; }
      } else {
        assert OurHolders(after[auth]) == OurHolders(es[auth]);
      }
    }
  }

  lemma SectionKeepsAgreement(v: View, s: Section)
    requires Agrees(v) && Allowed(v, s)
    ensures Agrees(Perform(v, s))
  {
    var next := Perform(v, s);
    match s
    case Take =>
    case ClaimFor(n, auth, now) =>
      ClaimKeepsExact(v.es, v.items + v.inHand, now, auth, n);
      assert v.items + v.inHand[n := auth] == (v.items + v.inHand)[n := auth];
    case Store(n) =>
      assert next.items + next.inHand == v.items + v.inHand;
    case Drop(n) =>
      assert next.items + next.inHand == v.items + v.inHand;
    case FreeFor(n, now) =>
      ReleaseKeepsExact(v.es, v.items + v.inHand, now, n);
      assert (v.items + v.inHand) - {n} == next.items + next.inHand;
    case Elsewhere(call) => ElsewhereKeepsExact(v.es, v.items + v.inHand, call);
  }

  /** What agreement says of one ref: it holds a live entry iff it stands for that entry. */
  lemma HolderIff(v: View, n: nat, auth: string)
    requires Agrees(v) && auth in v.es
    ensures var refs := v.items + v.inHand;
            HolderKey(n) in v.es[auth].holders <==> n in refs && refs[n] == auth
  {
    var refs := v.items + v.inHand;
    HolderKeyIsOurs(n);
    assert HolderKey(n) in v.es[auth].holders <==> HolderKey(n) in KeysFor(refs, auth);
    if HolderKey(n) in KeysFor(refs, auth) {
      var m :| m in refs && refs[m] == auth && HolderKey(m) == HolderKey(n);
      HolderKeyInjective(m, n);
    }
  }

  lemma GoneRefsHoldNothing(v: View, gone: set<nat>)
    requires Agrees(v) && forall n :: n in gone ==> n !in v.items && n !in v.inHand
    ensures forall n, auth :: n in gone && auth in v.es ==> HolderKey(n) !in v.es[auth].holders
  {
    forall n, auth | n in gone && auth in v.es
      ensures HolderKey(n) !in v.es[auth].holders
    {
      HolderIff(v, n, auth);
    }
  }

  // ---- other goroutines ----------------------------------------------------------------------------

  function Subject(s: Section): set<nat> {
    match s
    case Take => {}
    case ClaimFor(n, _, _) => {n}
    case Store(n) => {n}
    case Drop(n) => {n}
    case FreeFor(n, _) => {n}
    case Elsewhere(_) => {}
  }

  /** Others run any section allowed to them; they cannot know the refs in `mine` yet. */
  function ByOthers(v: View, others: seq<Section>, mine: set<nat>): View {
    if others == [] then v
    else
      var before := ByOthers(v, others[..|others| - 1], mine);
      var s := others[|others| - 1];
      if Allowed(before, s) && Subject(s) !! mine then Perform(before, s) else before
  }

  predicate SameFor(v: View, w: View, n: nat) {
    && (n in v.taken <==> n in w.taken)
    && (n in v.items <==> n in w.items) && (n in v.items ==> v.items[n] == w.items[n])
    && (n in v.inHand <==> n in w.inHand) && (n in v.inHand ==> v.inHand[n] == w.inHand[n])
  }

  lemma {:induction false} OthersKeepAgreement(v: View, others: seq<Section>, mine: set<nat>)
    requires Agrees(v) && forall n :: n in mine ==> n <= v.nextRef
    ensures var w := ByOthers(v, others, mine);
            Agrees(w) && v.nextRef <= w.nextRef && forall n :: n in mine ==> SameFor(v, w, n)
  {
    if others != [] {
      var before := ByOthers(v, others[..|others| - 1], mine);
      var s := others[|others| - 1];
      OthersKeepAgreement(v, others[..|others| - 1], mine);
      if Allowed(before, s) && Subject(s) !! mine {
        SectionKeepsAgreement(before, s);
        forall n | n in mine ensures SameFor(v, Perform(before, s), n) {
          assert n !in Subject(s);
        }
      }
    }
  }

  // ---- the object ------------------------------------------------------------------------------------

  /** One item to convert, with what others run before its claim, before its store and in a rollback. */
  datatype Conversion = Conversion(auth: string, beforeClaim: seq<Section>, claimAt: int, beforeStore: seq<Section>,
                                   afterStore: seq<Section>, beforeFree: seq<Section>, freeAt: int, afterFree: seq<Section>)

  class Adapter {
    const registry: Registry
    var nextRef: nat
    var resolvedItems: map<nat, string>
    // Bookkeeping: refs between two critical sections of their owner.
    var taken: set<nat>
    var inHand: map<nat, string>

    function Now(): View
      reads this, registry
    {
      View(registry.entries, nextRef, taken, resolvedItems, inHand)
    }

    ghost predicate Valid()
      reads this, registry
    {
      Agrees(Now())
    }

    constructor (registry: Registry)
      requires registry.entries == map[]
      ensures Valid() && this.registry == registry && resolvedItems == map[]
    {
      this.registry := registry;
      nextRef, resolvedItems, taken, inHand := 0, map[], {}, map[];
    }

    method Interfere(others: seq<Section>, mine: set<nat>)
      requires Valid() && forall n :: n in mine ==> n <= nextRef
      modifies this, registry
      ensures Valid() && old(nextRef) <= nextRef
      ensures Now() == ByOthers(old(Now()), others, mine)
      ensures forall n :: n in mine ==> SameFor(old(Now()), Now(), n)
    {
      OthersKeepAgreement(Now(), others, mine);
      var v := ByOthers(Now(), others, mine);
      registry.entries := v.es;
      nextRef, taken, resolvedItems, inHand := v.nextRef, v.taken, v.items, v.inHand;
    }

    method DrawRef() returns (ref: nat)
      requires Valid()
      modifies this
      ensures Valid() && Now() == Perform(old(Now()), Take) && ref == nextRef
      ensures ref in taken && ref !in resolvedItems && ref !in inHand
      ensures forall n: nat :: n <= old(nextRef) ==> SameFor(old(Now()), Now(), n)
    {
      SectionKeepsAgreement(Now(), Take);
      nextRef := nextRef + 1;
      ref := nextRef;
      taken := taken + {ref};
    }

    method ClaimAs(ref: nat, auth: string, now: int) returns (r: Result<(), AuthError>)
      requires Valid() && ref in taken
      modifies this, registry
      ensures Valid() && Now() == Perform(old(Now()), ClaimFor(ref, auth, now)) && nextRef == old(nextRef)
      ensures ref !in taken && ref !in resolvedItems
      ensures if r.Ok? then ref in inHand && inHand[ref] == auth else ref !in inHand
      ensures forall n: nat :: n != ref ==> SameFor(old(Now()), Now(), n)
    {
      SectionKeepsAgreement(Now(), ClaimFor(ref, auth, now));
      r := registry.ClaimRef(now, auth, HolderKey(ref));
      taken := taken - {ref};
      if r.Ok? { inHand := inHand[ref := auth]; }
    }

    method StoreItem(ref: nat)
      requires Valid() && ref in inHand
      modifies this
      ensures Valid() && Now() == Perform(old(Now()), Store(ref)) && nextRef == old(nextRef)
      ensures ref in resolvedItems && resolvedItems[ref] == old(inHand)[ref] && ref !in inHand && ref !in taken
      ensures forall n: nat :: n != ref ==> SameFor(old(Now()), Now(), n)
    {
      SectionKeepsAgreement(Now(), Store(ref));
      resolvedItems := resolvedItems[ref := inHand[ref]];
      inHand := inHand - {ref};
    }

    /** Draws a ref, claims for it and stores the item; a refused claim leaves no trace of the ref. */
    method ToNeutralItem(c: Conversion, mine: set<nat>) returns (ref: nat, r: Result<(), AuthError>)
      requires Valid() && forall n :: n in mine ==> n <= nextRef
      modifies this, registry
      ensures Valid() && old(nextRef) < ref <= nextRef && ref !in mine
      ensures forall n :: n in mine ==> SameFor(old(Now()), Now(), n)
      ensures ref !in taken && ref !in inHand
      ensures r.Ok? ==> ref in resolvedItems && resolvedItems[ref] == c.auth
      ensures r.Err? ==> ref !in resolvedItems
    {
      ref := DrawRef();
      Interfere(c.beforeClaim, mine + {ref});
      r := ClaimAs(ref, c.auth, c.claimAt);
      if r.Err? { return; }
      Interfere(c.beforeStore, mine + {ref});
      StoreItem(ref);
    }

    /** Forgets a ref and releases its claim. */
    method ReleaseItem(ref: nat, beforeFree: seq<Section>, freeAt: int, mine: set<nat>)
      requires Valid() && ref in mine && ref !in inHand && forall n :: n in mine ==> n <= nextRef
      modifies this, registry
      ensures Valid() && old(nextRef) <= nextRef
      ensures ref !in resolvedItems && ref !in inHand && (ref in taken <==> ref in old(taken))
      ensures forall n :: n in mine && n != ref ==> SameFor(old(Now()), Now(), n)
    {
      if ref in resolvedItems {
        SectionKeepsAgreement(Now(), Drop(ref));
        inHand := inHand[ref := resolvedItems[ref]];
        resolvedItems := resolvedItems - {ref};
        Interfere(beforeFree, mine);
        SectionKeepsAgreement(Now(), FreeFor(ref, freeAt));
        registry.ReleaseRef(freeAt, inHand[ref], HolderKey(ref));
        inHand := inHand - {ref};
      }
    }

    /**
     * Converts a resolution's items. On success each item got a ref of its own, stored with
     * its download-auth ref; on a refused claim no ref drawn here survives anywhere, in
     * particular not as a holder in the registry.
     */
    method Resolve(items: seq<Conversion>) returns (r: Result<seq<nat>, AuthError>, mine: set<nat>)
      requires Valid()
      modifies this, registry
      ensures Valid()
      ensures forall n :: n in mine ==> old(nextRef) < n <= nextRef
      ensures r.Ok? ==>
                && |r.value| == |items| && NoDuplicates(r.value) && mine == set n | n in r.value
                && forall k :: 0 <= k < |items| ==>
                     r.value[k] in resolvedItems && resolvedItems[r.value[k]] == items[k].auth
      ensures r.Err? ==> forall n :: n in mine ==> n !in resolvedItems && n !in inHand && n !in taken
      ensures r.Err? ==> forall n, auth :: n in mine && auth in registry.entries ==>
                           HolderKey(n) !in registry.entries[auth].holders
    {
      mine := {};
      var refs := [];
      for k := 0 to |items|
        invariant Valid() && old(nextRef) <= nextRef
        invariant |refs| == k && NoDuplicates(refs) && mine == set n | n in refs
        invariant forall n :: n in mine ==> old(nextRef) < n <= nextRef
        invariant AllStored(refs, items)
      {
        var ref, claimed := ConvertNext(items[k], refs, items, mine);
        mine := mine + {ref};
        if claimed.Err? {
          RollBack(refs, items, mine);
          GoneRefsHoldNothing(Now(), mine);
          return Err(claimed.error), mine;
        }
        refs := refs + [ref];
        KeepStored(items[k].afterStore, refs, items, mine);
      }
      r := Ok(refs);
    }

    predicate Settled(ref: nat)
      reads this
    {
      ref in resolvedItems && ref !in inHand && ref !in taken
    }

    predicate AllStored(refs: seq<nat>, items: seq<Conversion>)
      reads this
    {
      |refs| <= |items| && forall j :: 0 <= j < |refs| ==> Settled(refs[j]) && resolvedItems[refs[j]] == items[j].auth
    }

    method ConvertNext(c: Conversion, refs: seq<nat>, items: seq<Conversion>, mine: set<nat>)
      returns (ref: nat, r: Result<(), AuthError>)
      requires Valid() && AllStored(refs, items) && |refs| < |items| && c == items[|refs|]
      requires mine == (set n | n in refs) && forall n :: n in mine ==> n <= nextRef
      modifies this, registry
      ensures Valid() && old(nextRef) < ref <= nextRef && ref !in refs
      ensures AllStored(refs, items) && ref !in taken && ref !in inHand
      ensures r.Ok? ==> AllStored(refs + [ref], items)
      ensures r.Err? ==> ref !in resolvedItems
    {
      ref, r := ToNeutralItem(c, mine);
      forall j | 0 <= j < |refs|
        ensures Settled(refs[j]) && resolvedItems[refs[j]] == items[j].auth
      {
        assert refs[j] in mine && SameFor(old(Now()), Now(), refs[j]);
      }
    }

    method KeepStored(others: seq<Section>, refs: seq<nat>, items: seq<Conversion>, mine: set<nat>)
      requires Valid() && AllStored(refs, items)
      requires mine == (set n | n in refs) && forall n :: n in mine ==> n <= nextRef
      modifies this, registry
      ensures Valid() && old(nextRef) <= nextRef && AllStored(refs, items)
    {
      Interfere(others, mine);
      forall j | 0 <= j < |refs|
        ensures Settled(refs[j]) && resolvedItems[refs[j]] == items[j].auth
      {
        assert refs[j] in mine && SameFor(old(Now()), Now(), refs[j]);
      }
    }

    method RollBack(refs: seq<nat>, items: seq<Conversion>, mine: set<nat>)
      requires Valid() && |refs| <= |items| && NoDuplicates(refs)
      requires forall n :: n in mine ==> n <= nextRef && n !in inHand && n !in taken
      requires forall n :: n in mine && n !in refs ==> n !in resolvedItems
      requires forall j :: 0 <= j < |refs| ==> refs[j] in mine
      modifies this, registry
      ensures Valid() && old(nextRef) <= nextRef
      ensures forall n :: n in mine ==> n !in resolvedItems && n !in inHand && n !in taken
    {
      for j := 0 to |refs|
        invariant Valid() && old(nextRef) <= nextRef
        invariant forall n :: n in mine ==> n <= nextRef && n !in inHand && n !in taken
        invariant forall n :: n in mine && n !in refs[j..] ==> n !in resolvedItems
      {
        ghost var was := Now();
        ReleaseItem(refs[j], items[j].beforeFree, items[j].freeAt, mine);
        forall n | n in mine
          ensures n !in inHand && n !in taken && (n !in refs[j + 1..] ==> n !in resolvedItems)
        {
          if n != refs[j] {
            assert SameFor(was, Now(), n);
            assert refs[j..] == [refs[j]] + refs[j + 1..];
          }
        }
        was := Now();
        Interfere(items[j].afterFree, mine);
        assert forall n :: n in mine ==> SameFor(was, Now(), n);
      }
    }
  }
}
