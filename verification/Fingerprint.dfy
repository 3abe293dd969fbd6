/**
 * The browser-context fingerprint: the byte stream fed to the hash. Strings are byte
 * strings here, one character a byte, since the length prefixes count bytes.
 */
module Fingerprint {
  import opened Prelude
  import opened Decimal

  datatype Header = Header(name: string, value: string)

  datatype Grant = Grant(sourceOrigin: string, targetURL: string, verb: string,
                         capturedAt: int, expiresAt: int, headers: seq<Header>)

  datatype Context = Context(userAgent: string, language: string, referer: string, grants: seq<Grant>)

  // ---- byte order -------------------------------------------------------------------------------

  /** strings.Compare(a, b) <= 0. */
  predicate Leq(a: string, b: string) {
    a == "" || (b != "" && (a[0] < b[0] || (a[0] == b[0] && Leq(a[1..], b[1..]))))
  }

  lemma {:induction false} LeqTotal(a: string, b: string)
    ensures Leq(a, b) || Leq(b, a)
    ensures Leq(a, b) && Leq(b, a) ==> a == b
  {
    if a != "" && b != "" && a[0] == b[0] {
      LeqTotal(a[1..], b[1..]);
      assert a == [a[0]] + a[1..] && b == [b[0]] + b[1..];
    }
  }

  lemma {:induction false} LeqTransitive(a: string, b: string, c: string)
    requires Leq(a, b) && Leq(b, c)
    ensures Leq(a, c)
  {
    if a != "" && b != "" && c != "" && a[0] == b[0] == c[0] {
      LeqTransitive(a[1..], b[1..], c[1..]);
    }
  }

  // ---- arrangements -------------------------------------------------------------------------------

  predicate SortedBy<T>(s: seq<T>, key: T -> string) {
    forall i, j :: 0 <= i < j < |s| ==> Leq(key(s[i]), key(s[j]))
  }

  predicate DistinctKeys<T>(s: seq<T>, key: T -> string) {
    forall i, j :: 0 <= i < j < |s| ==> key(s[i]) != key(s[j])
  }

  /** With distinct keys there is only one sorted arrangement, whatever sort made it. */
  lemma {:induction false} SortedIsUnique<T>(a: seq<T>, b: seq<T>, key: T -> string)
    requires SortedBy(a, key) && SortedBy(b, key) && DistinctKeys(a, key) && DistinctKeys(b, key)
    requires forall x :: x in a <==> x in b
    ensures a == b
  {
    if a == [] {
      NonEmptyHasMember(b);
    } else {
      assert a[0] in a && a[0] in b;
      assert b[0] in b && b[0] in a;
      var i :| 0 <= i < |b| && b[i] == a[0];
      var j :| 0 <= j < |a| && a[j] == b[0];
      assert Leq(key(a[0]), key(b[0])) by { if j == 0 { LeqTotal(key(a[0]), key(a[0])); } }
      assert Leq(key(b[0]), key(a[0])) by { if i == 0 { LeqTotal(key(b[0]), key(b[0])); } }
      LeqTotal(key(a[0]), key(b[0]));
      assert i == 0 && a[0] == b[0];
      forall x ensures x in a[1..] <==> x in b[1..] {
        TailMembers(a, key, x);
        TailMembers(b, key, x);
      }
      SortedIsUnique(a[1..], b[1..], key);
    }
  }

  lemma NonEmptyHasMember<T>(s: seq<T>)
    ensures s != [] ==> exists x :: x in s
  {
    if s != [] { assert s[0] in s; }
  }

  lemma TailMembers<T>(s: seq<T>, key: T -> string, x: T)
    requires s != [] && DistinctKeys(s, key)
    ensures x in s[1..] <==> x in s && x != s[0]
  {
    assert s == [s[0]] + s[1..];
    if x in s[1..] {
      var i :| 0 <= i < |s[1..]| && s[1..][i] == x;
      assert s[i + 1] == x;
    }
  }

  // ---- the stream -------------------------------------------------------------------------------------

  function Field(f: string): string { Dec(|f|) + ([':'] + f) }

  function Print(fields: seq<string>): string {
    if fields == [] then "" else Field(fields[0]) + Print(fields[1..])
  }

  function FormatInt(n: int): string { if n < 0 then "-" + Dec(-n) else Dec(n) }

  function HeaderFields(hs: seq<Header>): seq<string> {
    if hs == [] then [] else [hs[0].name, hs[0].value] + HeaderFields(hs[1..])
  }

  function GrantFields(g: Grant): seq<string> {
    [g.sourceOrigin, g.targetURL, g.verb, FormatInt(g.capturedAt), FormatInt(g.expiresAt), Dec(|g.headers|)]
    + HeaderFields(g.headers)
  }

  function AllGrantFields(gs: seq<Grant>): seq<string> {
    if gs == [] then [] else GrantFields(gs[0]) + AllGrantFields(gs[1..])
  }

  function ContextFields(c: Context): seq<string> {
    ["v2", c.userAgent, c.language, c.referer] + AllGrantFields(c.grants)
  }

  /** The stream of a context whose grants and headers are already arranged. */
  function Stream(c: Context): string { Print(ContextFields(c)) }

  // ---- the parser that undoes it -------------------------------------------------------------------------

  /** Reads one length-prefixed field: the field and what follows. */
  function ReadField(s: string): Option<(string, string)> {
    var n := Span(s);
    if n == 0 || n >= |s| || s[n] != ':' then None
    else
      var length := Value(s[..n]);
      if n + 1 + length > |s| then None else Some((s[n + 1..n + 1 + length], s[n + 1 + length..]))
  }

  function Parse(s: string): Option<seq<string>> {
    if s == "" then Some([])
    else
      var first := ReadField(s);
      if first.None? || |first.value.1| >= |s| then None
      else
        var rest := Parse(first.value.1);
        if rest.None? then None else Some([first.value.0] + rest.value)
  }

  lemma ReadFieldUndoes(f: string, rest: string)
    ensures ReadField(Field(f) + rest) == Some((f, rest))
  {
    var s := Field(f) + rest;
    assert s == Dec(|f|) + ([':'] + f + rest);
    SpanOf(Dec(|f|), [':'] + f + rest);
    ValueOfDec(|f|);
    var n := |Dec(|f|)|;
    assert s[..n] == Dec(|f|);
    assert s[n + 1..n + 1 + |f|] == f && s[n + 1 + |f|..] == rest;
  }

  /** Whatever bytes the fields hold, the stream gives them back. */
  lemma {:induction false} ParseUndoesPrint(fields: seq<string>)
    ensures Parse(Print(fields)) == Some(fields)
  {
    if fields != [] {
      var rest := Print(fields[1..]);
      ReadFieldUndoes(fields[0], rest);
      ParseUndoesPrint(fields[1..]);
      assert Print(fields) == Field(fields[0]) + rest && |Field(fields[0])| > 0;
      assert [fields[0]] + fields[1..] == fields;
    }
  }

  /** Reads `n` header pairs. */
  function ReadHeaders(fields: seq<string>, n: nat): Option<(seq<Header>, seq<string>)> {
    if n == 0 then Some(([], fields))
    else if |fields| < 2 then None
    else
      var rest := ReadHeaders(fields[2..], n - 1);
      if rest.None? then None else Some(([Header(fields[0], fields[1])] + rest.value.0, rest.value.1))
  }

  function ParseFormatted(s: string): int
    requires s != ""
  {
    if s[0] == '-' then (if AllDigits(s[1..]) then -(Value(s[1..]) as int) else 0)
    else if AllDigits(s) then Value(s) else 0
  }

  predicate AllDigits(s: string) { forall i :: 0 <= i < |s| ==> IsDigit(s[i]) }

  function ReadGrant(fields: seq<string>): Option<(Grant, seq<string>)> {
    if |fields| < 6 || fields[3] == "" || fields[4] == "" || !AllDigits(fields[5]) then None
    else
      var headers := ReadHeaders(fields[6..], Value(fields[5]));
      if headers.None? then None
      else Some((Grant(fields[0], fields[1], fields[2], ParseFormatted(fields[3]), ParseFormatted(fields[4]),
                       headers.value.0), headers.value.1))
  }

  function ReadGrants(fields: seq<string>): Option<seq<Grant>>
    decreases |fields|
  {
    if fields == [] then Some([])
    else
      var first := ReadGrant(fields);
      if first.None? || |first.value.1| >= |fields| then None
      else
        var rest := ReadGrants(first.value.1);
        if rest.None? then None else Some([first.value.0] + rest.value)
  }

  function ReadContext(s: string): Option<Context> {
    var fields := Parse(s);
    if fields.None? || |fields.value| < 4 || fields.value[0] != "v2" then None
    else
      var grants := ReadGrants(fields.value[4..]);
      if grants.None? then None
      else Some(Context(fields.value[1], fields.value[2], fields.value[3], grants.value))
  }

  lemma ParseFormattedUndoes(n: int)
    ensures FormatInt(n) != "" && ParseFormatted(FormatInt(n)) == n
  {
    if n < 0 {
      var digits := Dec(-n);
      ValueOfDec(-n);
      assert FormatInt(n) == "-" + digits;
      assert ("-" + digits)[0] == '-' && ("-" + digits)[1..] == digits;
      assert AllDigits(digits);
    } else {
      var digits := Dec(n);
      ValueOfDec(n);
      assert digits[0] != '-' && AllDigits(digits);
    }
  }

  lemma {:induction false} ReadHeadersUndoes(hs: seq<Header>, rest: seq<string>)
    ensures ReadHeaders(HeaderFields(hs) + rest, |hs|) == Some((hs, rest))
  {
    if hs == [] {
      assert HeaderFields(hs) + rest == rest;
    } else {
      var fields := HeaderFields(hs) + rest;
      assert fields[2..] == HeaderFields(hs[1..]) + rest;
      ReadHeadersUndoes(hs[1..], rest);
      assert [Header(fields[0], fields[1])] + hs[1..] == hs;
    }
  }

  lemma ReadGrantUndoes(g: Grant, rest: seq<string>)
    ensures ReadGrant(GrantFields(g) + rest) == Some((g, rest))
  {
    var fields := GrantFields(g) + rest;
    ParseFormattedUndoes(g.capturedAt);
    ParseFormattedUndoes(g.expiresAt);
    ValueOfDec(|g.headers|);
    assert fields[5] == Dec(|g.headers|);
    assert fields[6..] == HeaderFields(g.headers) + rest;
    ReadHeadersUndoes(g.headers, rest);
  }

  lemma {:induction false} ReadGrantsUndoes(gs: seq<Grant>)
    ensures ReadGrants(AllGrantFields(gs)) == Some(gs)
  {
    if gs != [] {
      ReadGrantsUndoes(gs[1..]);
      ReadGrantUndoes(gs[0], AllGrantFields(gs[1..]));
      assert |GrantFields(gs[0])| > 0;
      assert [gs[0]] + gs[1..] == gs;
    }
  }

  /** The stream gives the arranged context back. */
  lemma ReadContextUndoes(c: Context)
    ensures ReadContext(Stream(c)) == Some(c)
  {
    var fields := ContextFields(c);
    ParseUndoesPrint(fields);
    assert fields[4..] == AllGrantFields(c.grants);
    ReadGrantsUndoes(c.grants);
  }

  // ---- equal streams mean equal contexts ------------------------------------------------------------------

  function Scope(g: Grant): string { g.verb + " " + g.targetURL }

  function NameOf(h: Header): string { h.name }

  /** What validation leaves: no two grants of one scope, no header named twice in a grant. */
  predicate Validated(c: Context) {
    DistinctKeys(c.grants, Scope) && forall g :: g in c.grants ==> DistinctKeys(g.headers, NameOf)
  }

  /** A grant up to the order of its headers. */
  datatype GrantView = GrantView(sourceOrigin: string, targetURL: string, verb: string,
                                 capturedAt: int, expiresAt: int, headers: set<Header>)

  function ViewOf(g: Grant): GrantView {
    GrantView(g.sourceOrigin, g.targetURL, g.verb, g.capturedAt, g.expiresAt, set h | h in g.headers)
  }

  function Views(gs: seq<Grant>): set<GrantView> { set g | g in gs :: ViewOf(g) }

  predicate SameMembers<T(==)>(a: seq<T>, b: seq<T>) { (forall x :: x in a ==> x in b) && (forall x :: x in b ==> x in a) }

  /** `g` with its headers sorted by name, however the sort got there. */
  predicate ArrangedGrant(given: Grant, g: Grant) {
    && g == given.(headers := g.headers)
    && SameMembers(given.headers, g.headers)
    && SortedBy(g.headers, NameOf) && DistinctKeys(g.headers, NameOf)
  }

  /** `arranged` is `c` with its grants sorted by scope and each grant's headers by name. */
  predicate Arranged(c: Context, arranged: Context) {
    && arranged == c.(grants := arranged.grants)
    && SortedBy(arranged.grants, Scope) && DistinctKeys(arranged.grants, Scope)
    && AllFrom(c.grants, arranged.grants) && AllTo(c.grants, arranged.grants)
  }

  predicate AllFrom(given: seq<Grant>, arranged: seq<Grant>) {
    forall g :: g in arranged ==> exists h :: h in given && ArrangedGrant(h, g)
  }

  predicate AllTo(given: seq<Grant>, arranged: seq<Grant>) {
    forall h :: h in given ==> exists g :: g in arranged && ArrangedGrant(h, g)
  }

  lemma ArrangedGrantKeepsView(given: Grant, g: Grant)
    requires ArrangedGrant(given, g)
    ensures ViewOf(g) == ViewOf(given)
  {
  }

  lemma ViewsWithin(a: seq<Grant>, b: seq<Grant>)
    requires forall g :: g in a ==> exists h :: h in b && ViewOf(h) == ViewOf(g)
    ensures Views(a) <= Views(b)
  {
  }

  lemma ArrangedFromGiven(given: seq<Grant>, arranged: seq<Grant>)
    requires AllFrom(given, arranged)
    ensures Views(arranged) <= Views(given)
  {
    forall g | g in arranged
      ensures exists h :: h in given && ViewOf(h) == ViewOf(g)
    {
      var h :| h in given && ArrangedGrant(h, g);
      ArrangedGrantKeepsView(h, g);
    }
    ViewsWithin(arranged, given);
  }

  lemma GivenAreArranged(given: seq<Grant>, arranged: seq<Grant>)
    requires AllTo(given, arranged)
    ensures Views(given) <= Views(arranged)
  {
    forall h | h in given
      ensures exists g :: g in arranged && ViewOf(g) == ViewOf(h)
    {
      var g :| g in arranged && ArrangedGrant(h, g);
      ArrangedGrantKeepsView(h, g);
    }
    ViewsWithin(given, arranged);
  }

  lemma ArrangedKeepsViews(c: Context, arranged: Context)
    requires Arranged(c, arranged)
    ensures Views(arranged.grants) == Views(c.grants)
  {
    ArrangedFromGiven(c.grants, arranged.grants);
    GivenAreArranged(c.grants, arranged.grants);
  }

  lemma SameViewSameGrant(a: Grant, b: Grant)
    requires SortedBy(a.headers, NameOf) && DistinctKeys(a.headers, NameOf)
    requires SortedBy(b.headers, NameOf) && DistinctKeys(b.headers, NameOf)
    requires ViewOf(a) == ViewOf(b)
    ensures a == b
  {
    forall h ensures h in a.headers <==> h in b.headers {
      assert h in a.headers <==> h in ViewOf(a).headers;
      assert h in b.headers <==> h in ViewOf(b).headers;
    }
    SortedIsUnique(a.headers, b.headers, NameOf);
  }

  predicate HeadersArranged(gs: seq<Grant>) {
    forall g :: g in gs ==> SortedBy(g.headers, NameOf) && DistinctKeys(g.headers, NameOf)
  }

  lemma SameViewsSameGrants(a: seq<Grant>, b: seq<Grant>)
    requires SortedBy(a, Scope) && DistinctKeys(a, Scope) && SortedBy(b, Scope) && DistinctKeys(b, Scope)
    requires HeadersArranged(a) && HeadersArranged(b) && Views(a) == Views(b)
    ensures a == b
  {
    forall g ensures g in a <==> g in b {
      if g in a {
        assert ViewOf(g) in Views(b);
        var h :| h in b && ViewOf(h) == ViewOf(g);
        SameViewSameGrant(g, h);
      }
      if g in b {
        assert ViewOf(g) in Views(a);
        var h :| h in a && ViewOf(h) == ViewOf(g);
        SameViewSameGrant(g, h);
      }
    }
    SortedIsUnique(a, b, Scope);
  }

  /**
   * For validated contexts the hashed streams are equal if and only if user agent,
   * language, referer and the set of grants with their header sets are equal: the
   * stream is injective and no order, of grants or of headers, shows in it.
   */
  lemma StreamsEqualIff(a: Context, b: Context, arrangedA: Context, arrangedB: Context)
    requires Arranged(a, arrangedA) && Arranged(b, arrangedB)
    ensures Stream(arrangedA) == Stream(arrangedB) <==>
              && a.userAgent == b.userAgent && a.language == b.language && a.referer == b.referer
              && Views(a.grants) == Views(b.grants)
  {
    ArrangedKeepsViews(a, arrangedA);
    ArrangedKeepsViews(b, arrangedB);
    if Stream(arrangedA) == Stream(arrangedB) {
      ReadContextUndoes(arrangedA);
      ReadContextUndoes(arrangedB);
      assert arrangedA == arrangedB;
    }
    if Views(a.grants) == Views(b.grants) {
      SameViewsSameGrants(arrangedA.grants, arrangedB.grants);
    }
  }
}
