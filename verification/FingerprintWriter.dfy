/** Validation of browser header grants and the loops that write the fingerprint stream. */
module FingerprintWriter {
  import opened Prelude
  import opened Decimal
  import opened Fingerprint

  const MAX_GRANTS: nat := 8
  const MAX_HEADERS: nat := 8
  const MAX_AGGREGATE: nat := 8192
  const TTL_MILLIS: int := 60_000
  const SKEW_MILLIS: int := 30_000

  // ---- sorting ------------------------------------------------------------------------------------

  function InsertBy<T>(x: T, s: seq<T>, key: T -> string): seq<T> {
    if s == [] || Leq(key(x), key(s[0])) then [x] + s else [s[0]] + InsertBy(x, s[1..], key)
  }

  /** slices.SortFunc by a key; which sort it is does not matter once keys are distinct. */
  function SortBy<T>(s: seq<T>, key: T -> string): seq<T> {
    if s == [] then [] else InsertBy(s[0], SortBy(s[1..], key), key)
  }

  lemma {:induction false} InsertMembers<T>(x: T, s: seq<T>, key: T -> string, y: T)
    ensures y in InsertBy(x, s, key) <==> y == x || y in s
  {
    if s != [] && !Leq(key(x), key(s[0])) {
      InsertMembers(x, s[1..], key, y);
      assert s == [s[0]] + s[1..];
    }
  }

  lemma {:induction false} SortMembers<T>(s: seq<T>, key: T -> string, y: T)
    ensures y in SortBy(s, key) <==> y in s
  {
    if s != [] {
      SortMembers(s[1..], key, y);
      InsertMembers(s[0], SortBy(s[1..], key), key, y);
      assert s == [s[0]] + s[1..];
    }
  }

  lemma {:induction false} InsertSorted<T>(x: T, s: seq<T>, key: T -> string)
    requires SortedBy(s, key)
    ensures SortedBy(InsertBy(x, s, key), key)
  {
    if s == [] {
    } else if Leq(key(x), key(s[0])) {
      forall j | 0 <= j < |s| ensures Leq(key(x), key(s[j])) {
        if j > 0 { LeqTransitive(key(x), key(s[0]), key(s[j])); }
      }
    } else {
      LeqTotal(key(x), key(s[0]));
      var rest := InsertBy(x, s[1..], key);
      InsertSorted(x, s[1..], key);
      forall j | 0 <= j < |rest| ensures Leq(key(s[0]), key(rest[j])) {
        assert rest[j] in rest;
        InsertMembers(x, s[1..], key, rest[j]);
        if rest[j] != x {
          var k :| 0 <= k < |s[1..]| && s[1..][k] == rest[j];
          assert s[k + 1] == rest[j];
        }
      }
    }
  }

  lemma {:induction false} InsertDistinct<T>(x: T, s: seq<T>, key: T -> string)
    requires DistinctKeys(s, key) && forall y :: y in s ==> key(y) != key(x)
    ensures DistinctKeys(InsertBy(x, s, key), key)
  {
    if s != [] && !Leq(key(x), key(s[0])) {
      var rest := InsertBy(x, s[1..], key);
      InsertDistinct(x, s[1..], key);
      forall j | 0 <= j < |rest| ensures key(rest[j]) != key(s[0]) {
        assert rest[j] in rest;
        InsertMembers(x, s[1..], key, rest[j]);
        if rest[j] != x {
          var k :| 0 <= k < |s[1..]| && s[1..][k] == rest[j];
          assert s[k + 1] == rest[j];
        }
      }
    }
  }

  lemma {:induction false} SortIsSorted<T>(s: seq<T>, key: T -> string)
    ensures SortedBy(SortBy(s, key), key)
    ensures DistinctKeys(s, key) ==> DistinctKeys(SortBy(s, key), key)
  {
    if s != [] {
      SortIsSorted(s[1..], key);
      InsertSorted(s[0], SortBy(s[1..], key), key);
      if DistinctKeys(s, key) {
        assert forall k :: 0 <= k < |s[1..]| ==> s[1..][k] == s[k + 1];
        forall y | y in SortBy(s[1..], key) ensures key(y) != key(s[0]) { SortMembers(s[1..], key, y); }
        InsertDistinct(s[0], SortBy(s[1..], key), key);
      }
    }
  }

  // ---- arranging a context -------------------------------------------------------------------------

  function ArrangeGrant(g: Grant): Grant { g.(headers := SortBy(g.headers, NameOf)) }

  function ArrangeHeaders(gs: seq<Grant>): (r: seq<Grant>)
    ensures |r| == |gs| && forall i :: 0 <= i < |gs| ==> r[i] == ArrangeGrant(gs[i])
  {
    seq(|gs|, i requires 0 <= i < |gs| => ArrangeGrant(gs[i]))
  }

  function Arrange(c: Context): Context { c.(grants := ArrangeHeaders(SortBy(c.grants, Scope))) }

  lemma ArrangeGrantIsArranged(g: Grant)
    requires DistinctKeys(g.headers, NameOf)
    ensures ArrangedGrant(g, ArrangeGrant(g))
  {
    SortIsSorted(g.headers, NameOf);
    forall h ensures h in g.headers <==> h in SortBy(g.headers, NameOf) { SortMembers(g.headers, NameOf, h); }
  }

  /** Sorting a validated context arranges it. */
  lemma ArrangeIsArranged(c: Context)
    requires Validated(c)
    ensures Arranged(c, Arrange(c))
  {
    var sorted := SortBy(c.grants, Scope);
    var arranged := ArrangeHeaders(sorted);
    SortIsSorted(c.grants, Scope);
    forall g | g in arranged
      ensures exists h :: h in c.grants && ArrangedGrant(h, g)
    {
      var i :| 0 <= i < |arranged| && arranged[i] == g;
      assert sorted[i] in sorted;
      SortMembers(c.grants, Scope, sorted[i]);
      ArrangeGrantIsArranged(sorted[i]);
    }
    forall h | h in c.grants
      ensures exists g :: g in arranged && ArrangedGrant(h, g)
    {
      SortMembers(c.grants, Scope, h);
      var i :| 0 <= i < |sorted| && sorted[i] == h;
      ArrangeGrantIsArranged(h);
      assert arranged[i] in arranged;
    }
  }

  // ---- the fingerprint --------------------------------------------------------------------------------

  predicate EmptyContext(c: Context) { c.userAgent == "" && c.language == "" && c.referer == "" && c.grants == [] }

  lemma {:induction false} PrintAppend(a: seq<string>, b: seq<string>)
    ensures Print(a + b) == Print(a) + Print(b)
  {
    if a == [] {
      assert a + b == b;
    } else {
      assert (a + b)[1..] == a[1..] + b;
      PrintAppend(a[1..], b);
    }
  }

  lemma PrintOne(f: string)
    ensures Print([f]) == Field(f)
  {
    assert Print([f]) == Field(f) + Print([]);
  }

  lemma {:induction false} HeaderFieldsAppend(a: seq<Header>, b: seq<Header>)
    ensures HeaderFields(a + b) == HeaderFields(a) + HeaderFields(b)
  {
    if a == [] {
      assert a + b == b;
    } else {
      assert (a + b)[1..] == a[1..] + b;
      HeaderFieldsAppend(a[1..], b);
    }
  }

  lemma {:induction false} AllGrantFieldsAppend(a: seq<Grant>, b: seq<Grant>)
    ensures AllGrantFields(a + b) == AllGrantFields(a) + AllGrantFields(b)
  {
    if a == [] {
      assert a + b == b;
    } else {
      assert (a + b)[1..] == a[1..] + b;
      AllGrantFieldsAppend(a[1..], b);
    }
  }

  class Hash {
    var written: string

    constructor ()
      ensures written == ""
    {
      written := "";
    }

    /** writeFingerprintField: length, colon, bytes. */
    method WriteField(f: string)
      modifies this
      ensures written == old(written) + Field(f)
    {
      written := written + Dec(|f|);
      written := written + [':'];
      written := written + f;
      assert old(written) + Dec(|f|) + [':'] + f == old(written) + (Dec(|f|) + ([':'] + f));
    }

    method WriteFields(fields: seq<string>)
      modifies this
      ensures written == old(written) + Print(fields)
    {
      for k := 0 to |fields|
        invariant written == old(written) + Print(fields[..k])
      {
        assert fields[..k + 1] == fields[..k] + [fields[k]];
        PrintAppend(fields[..k], [fields[k]]);
        PrintOne(fields[k]);
        Associate(old(written), Print(fields[..k]), Field(fields[k]));
        WriteField(fields[k]);
      }
      assert fields[..|fields|] == fields;
    }

    method WriteHeaders(headers: seq<Header>)
      modifies this
      ensures written == old(written) + Print(HeaderFields(headers))
    {
      for k := 0 to |headers|
        invariant written == old(written) + Print(HeaderFields(headers[..k]))
      {
        assert headers[..k + 1] == headers[..k] + [headers[k]];
        ghost var one := [headers[k].name, headers[k].value];
        HeaderFieldsAppend(headers[..k], [headers[k]]);
        assert HeaderFields([headers[k]]) == one by { assert [headers[k]][1..] == []; }
        PrintAppend(HeaderFields(headers[..k]), one);
        Associate(old(written), Print(HeaderFields(headers[..k])), Print(one));
        WriteFields([headers[k].name, headers[k].value]);
      }
      assert headers[..|headers|] == headers;
    }

    /** The explicit arity keeps a grant's header region from being read in another shape. */
    method WriteGrant(grant: Grant)
      modifies this
      ensures written == old(written) + Print(GrantFields(ArrangeGrant(grant)))
    {
      var headers := SortBy(grant.headers, NameOf);
      ghost var head := HeadFields(grant, |headers|);
      WriteFields(HeadFields(grant, |headers|));
      WriteHeaders(headers);
      PrintAppend(head, HeaderFields(headers));
      Associate(old(written), Print(head), Print(HeaderFields(headers)));
    }
  }

  function HeadFields(g: Grant, arity: nat): seq<string> {
    [g.sourceOrigin, g.targetURL, g.verb, FormatInt(g.capturedAt), FormatInt(g.expiresAt), Dec(arity)]
  }

  lemma Associate(a: string, b: string, c: string)
    ensures (a + b) + c == a + (b + c)
  {
  }

  /** The stream hashed for a context; an empty context is not hashed at all. */
  method BrowserContextStream(c: Context) returns (stream: Option<string>)
    ensures stream == if EmptyContext(c) then None else Some(Stream(Arrange(c)))
  {
    if c.userAgent == "" && c.language == "" && c.referer == "" && |c.grants| == 0 { return None; }
    var grants := SortBy(c.grants, Scope);
    var sum := new Hash();
    sum.WriteFields(["v2", c.userAgent, c.language, c.referer]);
    ghost var start := ["v2", c.userAgent, c.language, c.referer];
    ghost var arranged := ArrangeHeaders(grants);
    for k := 0 to |grants|
      invariant sum.written == Print(start) + Print(AllGrantFields(arranged[..k]))
    {
      assert arranged[..k + 1] == arranged[..k] + [arranged[k]];
      AllGrantFieldsAppend(arranged[..k], [arranged[k]]);
      OneGrant(arranged[k]);
      PrintAppend(AllGrantFields(arranged[..k]), GrantFields(arranged[k]));
      Associate(Print(start), Print(AllGrantFields(arranged[..k])), Print(GrantFields(arranged[k])));
      sum.WriteGrant(grants[k]);
    }
    assert arranged[..|arranged|] == arranged;
    PrintAppend(start, AllGrantFields(arranged));
    return Some(sum.written);
  }

  lemma OneGrant(g: Grant)
    ensures AllGrantFields([g]) == GrantFields(g)
  {
    assert [g][1..] == [];
    assert GrantFields(g) + [] == GrantFields(g);
  }

  /**
   * Two validated contexts are hashed alike, or both not at all, exactly when they are
   * the same up to the order of grants and headers.
   */
  lemma FingerprintInputsEqualIff(a: Context, b: Context)
    requires Validated(a) && Validated(b)
    ensures EmptyContext(a) == EmptyContext(b) && Stream(Arrange(a)) == Stream(Arrange(b)) <==>
              && a.userAgent == b.userAgent && a.language == b.language && a.referer == b.referer
              && Views(a.grants) == Views(b.grants)
  {
    ArrangeIsArranged(a);
    ArrangeIsArranged(b);
    StreamsEqualIff(a, b, Arrange(a), Arrange(b));
    if Views(a.grants) == Views(b.grants) {
      assert a.grants == [] <==> Views(a.grants) == {} by { EmptyViews(a.grants); }
      assert b.grants == [] <==> Views(b.grants) == {} by { EmptyViews(b.grants); }
    }
  }

  lemma EmptyViews(gs: seq<Grant>)
    ensures gs == [] <==> Views(gs) == {}
  {
    if gs != [] { assert gs[0] in gs && ViewOf(gs[0]) in Views(gs); }
  }

  // ---- validation --------------------------------------------------------------------------------------

  /** `admissible` stands for the checks on the name and value alone. */
  datatype HeaderSpec = HeaderSpec(name: string, value: string, admissible: bool)

  /** The canonical forms of origin and target are the URL library's. */
  datatype GrantSpec = GrantSpec(sourceOrigin: string, sourceCanonical: bool, targetURL: string, targetCanonical: bool,
                                 verb: string, capturedAt: int, expiresAt: int, headers: seq<HeaderSpec>)

  function Aggregate(hs: seq<HeaderSpec>): nat {
    if hs == [] then 0 else Aggregate(hs[..|hs| - 1]) + |hs[|hs| - 1].value|
  }

  predicate HeadersOk(hs: seq<HeaderSpec>) {
    && 0 < |hs| <= MAX_HEADERS
    && (forall i :: 0 <= i < |hs| ==> hs[i].admissible)
    && NamesDistinct(hs) && Aggregate(hs) <= MAX_AGGREGATE
  }

  predicate TimesOk(spec: GrantSpec, now: int) {
    && 0 < spec.capturedAt < spec.expiresAt && spec.expiresAt - spec.capturedAt <= TTL_MILLIS
    && spec.capturedAt <= now + SKEW_MILLIS && now < spec.expiresAt
  }

  predicate GrantOk(spec: GrantSpec, sourceOrigin: string, now: int) {
    && spec.sourceCanonical && spec.sourceOrigin == sourceOrigin && spec.targetCanonical
    && (spec.verb == "GET" || spec.verb == "HEAD")
    && TimesOk(spec, now) && HeadersOk(spec.headers)
  }

  function ScopeOf(spec: GrantSpec): string { spec.verb + " " + spec.targetURL }

  function Plain(hs: seq<HeaderSpec>): (r: seq<Header>)
    ensures |r| == |hs| && forall i :: 0 <= i < |hs| ==> r[i] == Header(hs[i].name, hs[i].value)
  {
    seq(|hs|, i requires 0 <= i < |hs| => Header(hs[i].name, hs[i].value))
  }

  function GrantOf(spec: GrantSpec): Grant {
    Grant(spec.sourceOrigin, spec.targetURL, spec.verb, spec.capturedAt, spec.expiresAt, SortBy(Plain(spec.headers), NameOf))
  }

  lemma {:induction false} AggregateGrows(hs: seq<HeaderSpec>, k: nat)
    requires k <= |hs|
    ensures Aggregate(hs[..k]) <= Aggregate(hs)
    decreases |hs|
  {
    if k < |hs| {
      assert hs[..|hs| - 1][..k] == hs[..k];
      AggregateGrows(hs[..|hs| - 1], k);
    } else {
      assert hs[..k] == hs;
    }
  }

  function Names(hs: seq<HeaderSpec>): set<string> { set i | 0 <= i < |hs| :: hs[i].name }

  predicate NamesDistinct(hs: seq<HeaderSpec>) { forall i, j :: 0 <= i < j < |hs| ==> hs[i].name != hs[j].name }

  lemma NamesAppend(hs: seq<HeaderSpec>, h: HeaderSpec)
    ensures Names(hs + [h]) == Names(hs) + {h.name}
    ensures NamesDistinct(hs) && h.name !in Names(hs) ==> NamesDistinct(hs + [h])
  {
    var more := hs + [h];
    assert more[|hs|] == h;
    forall n | n in Names(hs) + {h.name}
      ensures n in Names(more)
    {
      if n in Names(hs) {
        var i :| 0 <= i < |hs| && hs[i].name == n;
        assert more[i].name == n;
      }
    }
  }

  lemma RepeatedName(hs: seq<HeaderSpec>, k: nat)
    requires k < |hs| && hs[k].name in Names(hs[..k])
    ensures !NamesDistinct(hs)
  {
    var i :| 0 <= i < k && hs[..k][i].name == hs[k].name;
    assert hs[i].name == hs[k].name;
  }

  /** The loop: admissible so far, no name twice, the values within the total. */
  method ScanHeaders(specs: seq<HeaderSpec>) returns (ok: bool)
    ensures ok <==> (forall i :: 0 <= i < |specs| ==> specs[i].admissible) && NamesDistinct(specs)
                    && Aggregate(specs) <= MAX_AGGREGATE
  {
    var seen: set<string>, aggregate := {}, 0;
    for k := 0 to |specs|
      invariant aggregate == Aggregate(specs[..k]) && aggregate <= MAX_AGGREGATE
      invariant seen == Names(specs[..k]) && NamesDistinct(specs[..k])
      invariant forall i :: 0 <= i < k ==> specs[i].admissible
    {
      assert specs[..k + 1][..k] == specs[..k] && specs[..k + 1] == specs[..k] + [specs[k]];
      if !specs[k].admissible { return false; }
      if specs[k].name in seen {
        RepeatedName(specs, k);
        return false;
      }
      NamesAppend(specs[..k], specs[k]);
      seen := seen + {specs[k].name};
      aggregate := aggregate + |specs[k].value|;
      AggregateGrows(specs, k + 1);
      if aggregate > MAX_AGGREGATE { return false; }
    }
    assert specs[..|specs|] == specs;
    return true;
  }

  method ValidateHeaders(specs: seq<HeaderSpec>) returns (headers: Option<seq<Header>>)
    ensures headers == if HeadersOk(specs) then Some(SortBy(Plain(specs), NameOf)) else None
  {
    if |specs| == 0 || |specs| > MAX_HEADERS { return None; }
    var ok := ScanHeaders(specs);
    return if ok then Some(SortBy(Plain(specs), NameOf)) else None;
  }

  /**
   * Accepts exactly when every grant passes on its own and no scope is asked for twice;
   * what it returns is validated in the fingerprint's sense.
   */
  method ValidateBrowserHeaderGrants(specs: seq<GrantSpec>, sourceOrigin: string, now: int)
    returns (grants: Option<seq<Grant>>)
    ensures grants.Some? <==>
              && 0 < |specs| <= MAX_GRANTS
              && (forall i :: 0 <= i < |specs| ==> GrantOk(specs[i], sourceOrigin, now))
              && (forall i, j :: 0 <= i < j < |specs| ==> ScopeOf(specs[i]) != ScopeOf(specs[j]))
    ensures grants.Some? ==>
              && |grants.value| == |specs|
              && (forall i :: 0 <= i < |specs| ==> grants.value[i] == GrantOf(specs[i]))
              && forall ua, lang, referer :: Validated(Context(ua, lang, referer, grants.value))
  {
    if |specs| == 0 || |specs| > MAX_GRANTS { return None; }
    var scopes: set<string>, kept: seq<Grant> := {}, [];
    for k := 0 to |specs|
      invariant |kept| == k && forall i :: 0 <= i < k ==> kept[i] == GrantOf(specs[i]) && GrantOk(specs[i], sourceOrigin, now)
      invariant scopes == set i | 0 <= i < k :: ScopeOf(specs[i])
      invariant forall i, j :: 0 <= i < j < k ==> ScopeOf(specs[i]) != ScopeOf(specs[j])
    {
      var grant := ValidateGrant(specs[k], sourceOrigin, now);
      if grant.None? { return None; }
      var scope := Scope(grant.value);
      if scope in scopes { return None; }
      scopes := scopes + {scope};
      kept := kept + [grant.value];
    }
    forall i | 0 <= i < |kept| ensures DistinctKeys(kept[i].headers, NameOf) { ValidHeadersAreDistinct(specs[i].headers); }
    return Some(kept);
  }

  method ValidateGrant(spec: GrantSpec, sourceOrigin: string, now: int) returns (grant: Option<Grant>)
    ensures grant == if GrantOk(spec, sourceOrigin, now) then Some(GrantOf(spec)) else None
  {
    if !spec.sourceCanonical || spec.sourceOrigin != sourceOrigin { return None; }
    if !spec.targetCanonical { return None; }
    if spec.verb != "GET" && spec.verb != "HEAD" { return None; }
    if spec.capturedAt <= 0 || spec.expiresAt <= 0 || spec.expiresAt <= spec.capturedAt
       || spec.expiresAt - spec.capturedAt > TTL_MILLIS || spec.capturedAt > now + SKEW_MILLIS || spec.expiresAt <= now
    {
      return None;
    }
    var headers := ValidateHeaders(spec.headers);
    if headers.None? { return None; }
    return Some(Grant(spec.sourceOrigin, spec.targetURL, spec.verb, spec.capturedAt, spec.expiresAt, headers.value));
  }

  lemma ValidHeadersAreDistinct(hs: seq<HeaderSpec>)
    requires HeadersOk(hs)
    ensures DistinctKeys(SortBy(Plain(hs), NameOf), NameOf)
  {
    SortIsSorted(Plain(hs), NameOf);
  }
}
