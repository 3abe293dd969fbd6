/**
 * The download-auth registry: bearer tokens behind opaque refs, owned by an
 * extract invocation until it ends, then retained while some holder claims them.
 */
module DownloadAuth {
  import opened Prelude
  import opened Utf8

  const TTL: int := 600_000_000_000
  const CAPACITY: nat := 256
  const PENDING_PER_INVOCATION: nat := 8
  const TOKEN_MAX: nat := 8 * 1024 - |"Authorization: Bearer "|

  type Identity = string

  /** `invocation` is 0 once the owning invocation has ended committed. */
  datatype Entry = Entry(pack: Identity, invocation: nat, bound: bool, hosts: set<string>,
                         holders: set<string>, token: string, createdAt: int)

  type Entries = map<string, Entry>

  datatype AuthError = BadToken | InvocationLimit | RegistryFull | UnknownRef | WrongInvocation | WrongPack
                     | EmptyHost | EmptyRef | NotMaterializable

  // ---- token shape -----------------------------------------------------------

  function LowerAscii(c: char): char {
    if 'A' <= c <= 'Z' then (c as int - 'A' as int + 'a' as int) as char else c
  }

  function LowerAll(s: string): string { seq(|s|, i requires 0 <= i < |s| => LowerAscii(s[i])) }

  /** Length, UTF-8, no line break, no second bearer scheme. */
  predicate TokenOk(token: string) {
    && 0 < |token| <= TOKEN_MAX && IsUtf8(token)
    && (forall i :: 0 <= i < |token| ==> token[i] != '\r' && token[i] != '\n')
    && !(|token| >= |"bearer "| && LowerAll(token[..|"bearer "|]) == "bearer ")
  }

  // ---- the operations as functions -------------------------------------------

  predicate Expired(e: Entry, now: int) { now - e.createdAt >= TTL }

  function Sweep(es: Entries, now: int): Entries {
    map ref | ref in es && !Expired(es[ref], now) :: es[ref]
  }

  function OwnedBy(es: Entries, invocation: nat): set<string> {
    set ref | ref in es && es[ref].invocation == invocation
  }

  function Register(es: Entries, now: int, invocation: nat, pack: Identity, token: string, minted: string)
    : (Entries, Result<string, AuthError>)
  {
    if !TokenOk(token) then (es, Err(BadToken))
    else
      var live := Sweep(es, now);
      if |OwnedBy(live, invocation)| >= PENDING_PER_INVOCATION then (live, Err(InvocationLimit))
      else if |live| >= CAPACITY then (live, Err(RegistryFull))
      else (live[minted := Entry(pack, invocation, false, {}, {}, token, now)], Ok(minted))
  }

  function Bind(es: Entries, now: int, invocation: nat, ref: string, pack: Identity, host: string)
    : (Entries, Result<(), AuthError>)
  {
    var live := Sweep(es, now);
    if ref !in live then (live, Err(UnknownRef))
    else if live[ref].invocation == 0 || live[ref].invocation != invocation then (live, Err(WrongInvocation))
    else if live[ref].pack != pack then (live, Err(WrongPack))
    else if host == "" then (live, Err(EmptyHost))
    else (live[ref := live[ref].(hosts := live[ref].hosts + {host}, bound := true)], Ok(()))
  }

  function Ended(live: Entries, invocation: nat, committed: bool): Entries {
    map ref | ref in live && (live[ref].invocation != invocation || (committed && live[ref].bound)) ::
      if live[ref].invocation == invocation then live[ref].(invocation := 0) else live[ref]
  }

  function EndInvocation(es: Entries, now: int, invocation: nat, committed: bool): Entries {
    if invocation == 0 then es else Ended(Sweep(es, now), invocation, committed)
  }

  function Claim(es: Entries, now: int, ref: string, holder: string): (Entries, Result<(), AuthError>) {
    if ref == "" then (es, Ok(()))
    else
      var live := Sweep(es, now);
      if ref !in live then (live, Err(UnknownRef))
      else (live[ref := live[ref].(holders := live[ref].holders + {holder})], Ok(()))
  }

  function Release(es: Entries, now: int, ref: string, holder: string): Entries {
    if ref == "" then es
    else
      var live := Sweep(es, now);
      if ref !in live || holder !in live[ref].holders then live
      else
        var left := live[ref].holders - {holder};
        if left == {} && live[ref].invocation == 0 then live - {ref}
        else live[ref := live[ref].(holders := left)]
  }

  predicate Materializable(e: Entry, pack: Identity, host: string) {
    e.invocation == 0 && e.bound && e.pack == pack && host in e.hosts && e.holders != {}
  }

  function Materialize(es: Entries, now: int, pack: Identity, ref: string, host: string)
    : (Entries, Result<string, AuthError>)
  {
    if ref == "" then (es, Err(EmptyRef))
    else
      var live := Sweep(es, now);
      if ref !in live then (live, Err(UnknownRef))
      else if !Materializable(live[ref], pack, host) then (live, Err(NotMaterializable))
      else (live, Ok(live[ref].token))
  }

  // ---- the object --------------------------------------------------------------

  class Registry {
    var entries: Entries

    constructor ()
      ensures entries == map[]
    {
      entries := map[];
    }

    method SweepExpiredLocked(now: int)
      modifies this
      ensures entries == Sweep(old(entries), now)
    {
      var left := entries.Keys;
      while left != {}
        invariant left <= old(entries).Keys
        invariant entries.Keys == left + Sweep(old(entries), now).Keys
        invariant forall ref :: ref in entries ==> entries[ref] == old(entries)[ref]
        decreases left
      {
        var ref :| ref in left;
        left := left - {ref};
        if Expired(entries[ref], now) { entries := entries - {ref}; }
      }
    }

    method CountPending(invocation: nat) returns (pending: nat)
      ensures pending == |OwnedBy(entries, invocation)|
    {
      pending := 0;
      var left := entries.Keys;
      while left != {}
        invariant left <= entries.Keys
        invariant pending == |OwnedBy(entries, invocation) - left|
        decreases left
      {
        var ref :| ref in left;
        var seen := OwnedBy(entries, invocation) - left;
        left := left - {ref};
        if entries[ref].invocation == invocation {
          assert OwnedBy(entries, invocation) - left == seen + {ref};
          pending := pending + 1;
        } else {
          assert OwnedBy(entries, invocation) - left == seen;
        }
      }
      assert OwnedBy(entries, invocation) - left == OwnedBy(entries, invocation);
    }

    method RegisterToken(now: int, invocation: nat, pack: Identity, token: string, minted: string)
      returns (r: Result<string, AuthError>)
      modifies this
      ensures (entries, r) == Register(old(entries), now, invocation, pack, token, minted)
    {
      if !TokenOk(token) { return Err(BadToken); }
      SweepExpiredLocked(now);
      var pending := CountPending(invocation);
      if pending >= PENDING_PER_INVOCATION { return Err(InvocationLimit); }
      if |entries| >= CAPACITY { return Err(RegistryFull); }
      entries := entries[minted := Entry(pack, invocation, false, {}, {}, token, now)];
      return Ok(minted);
    }

    method BindRef(now: int, invocation: nat, ref: string, pack: Identity, host: string)
      returns (r: Result<(), AuthError>)
      modifies this
      ensures (entries, r) == Bind(old(entries), now, invocation, ref, pack, host)
    {
      SweepExpiredLocked(now);
      if ref !in entries { return Err(UnknownRef); }
      var e := entries[ref];
      if e.invocation == 0 || e.invocation != invocation { return Err(WrongInvocation); }
      if e.pack != pack { return Err(WrongPack); }
      if host == "" { return Err(EmptyHost); }
      e := e.(hosts := e.hosts + {host});
      e := e.(bound := true);
      entries := entries[ref := e];
      return Ok(());
    }

    method End(now: int, invocation: nat, committed: bool)
      modifies this
      ensures entries == EndInvocation(old(entries), now, invocation, committed)
    {
      if invocation == 0 { return; }
      SweepExpiredLocked(now);
      var live := entries;
      var left := entries.Keys;
      while left != {}
        invariant left <= live.Keys
        invariant entries.Keys == left + Ended(live, invocation, committed).Keys
        invariant forall ref :: ref in left ==> entries[ref] == live[ref]
        invariant forall ref :: ref in entries && ref !in left ==>
                    entries[ref] == Ended(live, invocation, committed)[ref]
        decreases left
      {
        var ref :| ref in left;
        left := left - {ref};
        if entries[ref].invocation == invocation {
          if committed && entries[ref].bound {
            entries := entries[ref := entries[ref].(invocation := 0)];
          } else {
            entries := entries - {ref};
          }
        }
      }
    }

    method ClaimRef(now: int, ref: string, holder: string) returns (r: Result<(), AuthError>)
      modifies this
      ensures (entries, r) == Claim(old(entries), now, ref, holder)
    {
      if ref == "" { return Ok(()); }
      SweepExpiredLocked(now);
      if ref !in entries { return Err(UnknownRef); }
      entries := entries[ref := entries[ref].(holders := entries[ref].holders + {holder})];
      return Ok(());
    }

    method ReleaseRef(now: int, ref: string, holder: string)
      modifies this
      ensures entries == Release(old(entries), now, ref, holder)
    {
      if ref == "" { return; }
      SweepExpiredLocked(now);
      if ref !in entries || holder !in entries[ref].holders { return; }
      entries := entries[ref := entries[ref].(holders := entries[ref].holders - {holder})];
      if entries[ref].holders == {} && entries[ref].invocation == 0 {
        entries := entries - {ref};
      }
    }

    method MaterializeRef(now: int, pack: Identity, ref: string, host: string) returns (r: Result<string, AuthError>)
      modifies this
      ensures (entries, r) == Materialize(old(entries), now, pack, ref, host)
    {
      if ref == "" { return Err(EmptyRef); }
      SweepExpiredLocked(now);
      if ref !in entries { return Err(UnknownRef); }
      var e := entries[ref];
      if e.invocation != 0 || !e.bound || e.pack != pack || host !in e.hosts || e.holders == {} {
        return Err(NotMaterializable);
      }
      return Ok(e.token);
    }

    method Invalidate()
      modifies this
      ensures entries == map[]
    {
      while entries != map[]
        decreases entries.Keys
      {
        assert entries.Keys != {};
        var ref :| ref in entries;
        entries := entries - {ref};
      }
    }
  }
}
