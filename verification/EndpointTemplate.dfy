/** Endpoint URL templates: finding placeholders and replacing them one key after the other. */
module EndpointTemplate {
  import opened Prelude
  import Utf8

  const MAX_PARAMS: nat := 16
  const MAX_KEY: nat := 32
  const MAX_VALUE: nat := 512

  // ---- keys and values ------------------------------------------------------------------------------

  predicate SlugEdge(c: char) { 'a' <= c <= 'z' || '0' <= c <= '9' }

  predicate SlugKey(key: string) {
    && key != "" && SlugEdge(key[0]) && SlugEdge(key[|key| - 1])
    && forall i :: 0 <= i < |key| ==> SlugEdge(key[i]) || key[i] == '-'
  }

  const RESERVED := {"key", "api-key", "apikey"}

  const MARKERS := {"token", "secret", "auth", "cookie", "header",
                    "credential", "password", "passwd", "bearer", "session"}

  /** One of the reserved names, or a name with a marker in it. */
  predicate Sensitive(key: string) {
    key in RESERVED || exists i, j :: 0 <= i < j <= |key| && key[i..j] in MARKERS
  }

  predicate KeyOk(key: string) { |key| <= MAX_KEY && SlugKey(key) && !Sensitive(key) }

  predicate Control(c: char) { c < ' ' || c == 0x7F as char }

  function Lower(c: char): char { if 'A' <= c <= 'Z' then (c as int + 32) as char else c }

  predicate StartsWithIgnoringCase(s: string, start: string) {
    |s| >= |start| && forall i :: 0 <= i < |start| ==> Lower(s[i]) == start[i]
  }

  /** The values a template may be filled with; colons are reserved, so only two schemes are left to refuse. */
  predicate ValueOk(v: string) {
    && 1 <= |v| <= MAX_VALUE && Utf8.IsUtf8(v) && Utf8.IsTrimmed(v)
    && (forall i :: 0 <= i < |v| ==> !Control(v[i]) && v[i] !in "/\\?#@%&=;:")
    && !StartsWithIgnoringCase(v, "bearer ") && !StartsWithIgnoringCase(v, "basic ")
  }

  // ---- path escaping ------------------------------------------------------------------------------------

  predicate Kept(c: char) {
    || 'a' <= c <= 'z' || 'A' <= c <= 'Z' || '0' <= c <= '9' || c in "-_.~$&+:=@"
  }

  function Hex(n: nat): char
    requires n < 16
  {
    "0123456789ABCDEF"[n]
  }

  function EscapeByte(c: char): string {
    if Kept(c) then [c] else ['%', Hex((c as int / 16) % 16), Hex(c as int % 16)]
  }

  /** url.PathEscape, byte by byte. */
  function PathEscape(v: string): string { if v == "" then "" else EscapeByte(v[0]) + PathEscape(v[1..]) }

  predicate NoBraces(s: string) { forall i :: 0 <= i < |s| ==> s[i] != '{' && s[i] != '}' }

  lemma {:induction false} PathEscapeHasNoBraces(v: string)
    ensures NoBraces(PathEscape(v))
  {
    if v != "" { PathEscapeHasNoBraces(v[1..]); }
  }

  // ---- tokens --------------------------------------------------------------------------------------------

  datatype Token = Lit(c: char) | Hole(key: string)

  function RenderToken(t: Token): string { match t case Lit(c) => [c] case Hole(key) => "{" + key + "}" }

  function Render(ts: seq<Token>): string { if ts == [] then "" else RenderToken(ts[0]) + Render(ts[1..]) }

  predicate TokenOk(t: Token) { match t case Lit(c) => c != '{' && c != '}' case Hole(key) => KeyOk(key) }

  predicate TokensOk(ts: seq<Token>) { forall i :: 0 <= i < |ts| ==> TokenOk(ts[i]) }

  function Keys(ts: seq<Token>): set<string> { set t | t in ts && t.Hole? :: t.key }

  function IndexOf(s: string, c: char): (i: nat)
    ensures i <= |s| && (i < |s| ==> s[i] == c)
  {
    if s == "" || s[0] == c then 0 else 1 + IndexOf(s[1..], c)
  }

  /** The first token and its width: a placeholder up to its brace, or a plain character; a stray brace is neither. */
  function NextToken(s: string): (next: Option<(Token, nat)>)
    requires s != ""
    ensures next.Some? ==> 0 < next.value.1 <= |s|
  {
    if s[0] == '{' then
      var end := IndexOf(s[1..], '}');
      if end == |s[1..]| || !KeyOk(s[1..][..end]) then None else Some((Hole(s[1..][..end]), end + 2))
    else if s[0] == '}' then None
    else Some((Lit(s[0]), 1))
  }

  /** The only way to read a template as tokens, if there is one. */
  function Scan(s: string): Option<seq<Token>> {
    if s == "" then Some([])
    else
      var next := NextToken(s);
      if next.None? then None else Glue([next.value.0], Scan(s[next.value.1..]))
  }

  /** What has been read, in front of the reading of what is left. */
  function Glue(read: seq<Token>, rest: Option<seq<Token>>): Option<seq<Token>> {
    if rest.None? then None else Some(read + rest.value)
  }

  lemma NextTokenRenders(s: string)
    requires s != "" && NextToken(s).Some?
    ensures var (t, width) := NextToken(s).value; TokenOk(t) && RenderToken(t) + s[width..] == s
  {
    if s[0] == '{' {
      var end := IndexOf(s[1..], '}');
      assert s == "{" + s[1..][..end] + "}" + s[end + 2..];
    } else {
      assert s == [s[0]] + s[1..];
    }
  }

  lemma {:induction false} ScanIsRender(s: string)
    ensures Scan(s).Some? ==> TokensOk(Scan(s).value) && Render(Scan(s).value) == s
    decreases |s|
  {
    if s != "" && Scan(s).Some? {
      var (t, width) := NextToken(s).value;
      var rest := Scan(s[width..]).value;
      NextTokenRenders(s);
      ScanIsRender(s[width..]);
      assert Scan(s).value == [t] + rest && ([t] + rest)[1..] == rest;
    }
  }

  lemma {:induction false} IndexOfFirst(a: string, c: char, b: string)
    requires forall i :: 0 <= i < |a| ==> a[i] != c
    ensures IndexOf(a + [c] + b, c) == |a|
  {
    if a != "" {
      assert (a + [c] + b)[1..] == a[1..] + [c] + b;
      IndexOfFirst(a[1..], c, b);
    }
  }

  lemma NextIsHole(key: string, rest: string)
    requires KeyOk(key)
    ensures NextToken("{" + key + "}" + rest) == Some((Hole(key), |key| + 2))
  {
    var s := "{" + key + "}" + rest;
    KeyHasNoBraces(key);
    assert s[1..] == key + ['}'] + rest;
    IndexOfFirst(key, '}', rest);
    assert s[1..][..|key|] == key;
  }

  lemma ScanToken(t: Token, rest: string)
    requires TokenOk(t)
    ensures Scan(RenderToken(t) + rest) == Glue([t], Scan(rest))
  {
    var s := RenderToken(t) + rest;
    match t {
      case Lit(c) => assert s[1..] == rest;
      case Hole(key) =>
        NextIsHole(key, rest);
        assert s[|key| + 2..] == rest;
    }
  }

  lemma {:induction false} RenderScans(ts: seq<Token>)
    requires TokensOk(ts)
    ensures Scan(Render(ts)) == Some(ts)
  {
    hide Sensitive;
    if ts != [] {
      var t, rest := ts[0], ts[1..];
      assert TokensOk(rest) && TokenOk(t);
      RenderScans(rest);
      ScanToken(t, Render(rest));
      assert [t] + rest == ts;
    }
  }

  /** A template is accepted exactly when it is the rendering of well-formed tokens, and then of one list only. */
  lemma ScanAcceptsExactlyRenderings(s: string, ts: seq<Token>)
    ensures Scan(s) == Some(ts) <==> TokensOk(ts) && s == Render(ts)
  {
    ScanIsRender(s);
    if TokensOk(ts) { RenderScans(ts); }
  }

  // ---- replacing one key -----------------------------------------------------------------------------------

  /** strings.ReplaceAll for a non-empty pattern: left to right, without overlap. */
  function ReplaceAll(s: string, pattern: string, with: string): string
    requires pattern != ""
    decreases |s|
  {
    if s == "" then ""
    else if pattern <= s then with + ReplaceAll(s[|pattern|..], pattern, with)
    else [s[0]] + ReplaceAll(s[1..], pattern, with)
  }

  function Literal(v: string): (ts: seq<Token>)
    ensures |ts| == |v| && forall i :: 0 <= i < |v| ==> ts[i] == Lit(v[i])
  {
    seq(|v|, i requires 0 <= i < |v| => Lit(v[i]))
  }

  lemma {:induction false} RenderAppend(a: seq<Token>, b: seq<Token>)
    ensures Render(a + b) == Render(a) + Render(b)
  {
    if a == [] {
      assert a + b == b;
    } else {
      assert (a + b)[1..] == a[1..] + b;
      RenderAppend(a[1..], b);
    }
  }

  lemma {:induction false} RenderLiteral(v: string)
    ensures Render(Literal(v)) == v
  {
    if v != "" {
      assert Literal(v)[1..] == Literal(v[1..]);
      RenderLiteral(v[1..]);
      assert v == [v[0]] + v[1..];
    }
  }

  /** Every hole of a filled key becomes the value's characters. */
  function FillToken(t: Token, values: map<string, string>): seq<Token> {
    if t.Hole? && t.key in values then Literal(values[t.key]) else [t]
  }

  /** Simultaneous substitution. */
  function Fill(ts: seq<Token>, values: map<string, string>): seq<Token> {
    if ts == [] then [] else FillToken(ts[0], values) + Fill(ts[1..], values)
  }

  /** No brace before the text: the pattern cannot start inside it. */
  lemma {:induction false} ReplaceSkips(text: string, rest: string, pattern: string, with: string)
    requires pattern != "" && pattern[0] == '{' && forall i :: 0 <= i < |text| ==> text[i] != '{'
    ensures ReplaceAll(text + rest, pattern, with) == text + ReplaceAll(rest, pattern, with)
  {
    if text == "" {
      assert text + rest == rest;
    } else {
      var s := text + rest;
      assert s[0] != '{' && s[1..] == text[1..] + rest;
      ReplaceSkips(text[1..], rest, pattern, with);
      assert text == [text[0]] + text[1..];
    }
  }

  lemma KeyHasNoBraces(key: string)
    requires KeyOk(key)
    ensures NoBraces(key)
  {
  }

  lemma ReplaceAtHole(key: string, other: string, rest: string, with: string)
    requires KeyOk(key) && KeyOk(other)
    ensures var pattern := "{" + key + "}";
            ReplaceAll("{" + other + "}" + rest, pattern, with)
            == (if other == key then with else "{" + other + "}") + ReplaceAll(rest, pattern, with)
  {
    var pattern := "{" + key + "}";
    var s := "{" + other + "}" + rest;
    KeyHasNoBraces(key);
    KeyHasNoBraces(other);
    if other == key {
      assert s[..|pattern|] == pattern;
      assert pattern <= s && s[|pattern|..] == rest;
    } else {
      if pattern <= s {
        PrefixHoles(key, other, rest);
        assert false;
      }
      assert s[1..] == (other + "}") + rest;
      ReplaceSkips(other + "}", rest, pattern, with);
    }
  }

  lemma PrefixHoles(key: string, other: string, rest: string)
    requires KeyOk(key) && KeyOk(other) && "{" + key + "}" <= "{" + other + "}" + rest
    ensures key == other
  {
    var s := "{" + other + "}" + rest;
    KeyHasNoBraces(key);
    KeyHasNoBraces(other);
    assert forall j :: 1 <= j <= |key| ==> s[j] == key[j - 1];
    assert forall j :: 1 <= j <= |other| ==> s[j] == other[j - 1];
    assert s[|key| + 1] == '}' && s[|other| + 1] == '}';
    assert s[1..|key| + 1] == key && s[1..|other| + 1] == other;
  }

  /** Replacing one key in the text is substituting one key in the tokens. */
  lemma {:induction false} ReplaceIsFillOne(ts: seq<Token>, key: string, value: string)
    requires TokensOk(ts) && KeyOk(key)
    ensures ReplaceAll(Render(ts), "{" + key + "}", value) == Render(Fill(ts, map[key := value]))
  {
    if ts != [] {
      var pattern := "{" + key + "}";
      var rest := Render(ts[1..]);
      ReplaceIsFillOne(ts[1..], key, value);
      RenderAppend(FillToken(ts[0], map[key := value]), Fill(ts[1..], map[key := value]));
      assert TokenOk(ts[0]);
      match ts[0] {
        case Lit(c) =>
          ReplaceSkips([c], rest, pattern, value);
          RenderOne(ts[0]);
        case Hole(other) =>
          ReplaceAtHole(key, other, rest, value);
          RenderLiteral(value);
          RenderOne(ts[0]);
      }
    }
  }

  lemma RenderOne(t: Token)
    ensures Render([t]) == RenderToken(t)
  {
    assert Render([t]) == RenderToken(t) + Render([]);
  }

  // ---- replacing all keys, in any order -----------------------------------------------------------------------

  lemma {:induction false} FillAppend(a: seq<Token>, b: seq<Token>, values: map<string, string>)
    ensures Fill(a + b, values) == Fill(a, values) + Fill(b, values)
  {
    if a == [] {
      assert a + b == b;
    } else {
      assert (a + b)[1..] == a[1..] + b;
      FillAppend(a[1..], b, values);
    }
  }

  lemma {:induction false} FillLiteral(ts: seq<Token>, values: map<string, string>)
    requires forall i :: 0 <= i < |ts| ==> ts[i].Lit?
    ensures Fill(ts, values) == ts
  {
    if ts != [] { FillLiteral(ts[1..], values); }
  }

  /** Filling one more key after others is filling them all at once. */
  lemma {:induction false} FillThenFill(ts: seq<Token>, done: map<string, string>, key: string, value: string)
    requires key !in done
    ensures Fill(Fill(ts, done), map[key := value]) == Fill(ts, done[key := value])
  {
    if ts != [] {
      FillThenFill(ts[1..], done, key, value);
      FillAppend(FillToken(ts[0], done), Fill(ts[1..], done), map[key := value]);
      if ts[0].Hole? && ts[0].key in done {
        FillLiteral(Literal(done[ts[0].key]), map[key := value]);
      } else {
        assert Fill([ts[0]], map[key := value]) == FillToken(ts[0], map[key := value]) + Fill([], map[key := value]);
      }
    }
  }

  lemma {:induction false} FillKeepsOk(ts: seq<Token>, values: map<string, string>)
    requires TokensOk(ts) && forall k :: k in values ==> NoBraces(values[k])
    ensures TokensOk(Fill(ts, values))
  {
    if ts != [] { FillKeepsOk(ts[1..], values); }
  }

  lemma {:induction false} FillNothing(ts: seq<Token>)
    ensures Fill(ts, map[]) == ts
  {
    if ts != [] {
      FillNothing(ts[1..]);
      assert [ts[0]] + ts[1..] == ts;
    }
  }

  lemma {:induction false} FilledHasNoBraces(ts: seq<Token>, values: map<string, string>)
    requires TokensOk(ts) && Keys(ts) <= values.Keys && forall k :: k in values ==> NoBraces(values[k])
    ensures NoBraces(Render(Fill(ts, values)))
  {
    if ts != [] {
      assert forall t :: t in ts[1..] ==> t in ts;
      assert ts[0] in ts && TokenOk(ts[0]);
      FilledHasNoBraces(ts[1..], values);
      RenderAppend(FillToken(ts[0], values), Fill(ts[1..], values));
      match ts[0] {
        case Lit(c) => RenderOne(ts[0]);
        case Hole(key) =>
          assert key in Keys(ts);
          RenderLiteral(values[key]);
      }
    }
  }

  /** ReplaceAll for each key of `order`, the first one first. */
  function ReplaceInOrder(template: string, order: seq<string>, values: map<string, string>): string
    requires forall k :: k in order ==> k in values
  {
    if order == [] then template
    else
      var n := |order| - 1;
      ReplaceAll(ReplaceInOrder(template, order[..n], values), "{" + order[n] + "}", values[order[n]])
  }

  function Restrict(values: map<string, string>, order: seq<string>): map<string, string> {
    map k | k in values && k in order :: values[k]
  }

  lemma RestrictMore(values: map<string, string>, order: seq<string>)
    requires order != [] && NoDuplicates(order) && order[|order| - 1] in values
    ensures var last := order[|order| - 1];
            var done := Restrict(values, order[..|order| - 1]);
            last !in done && Restrict(values, order) == done[last := values[last]]
  {
    var n := |order| - 1;
    assert order == order[..n] + [order[n]];
  }

  predicate KeysOk(order: seq<string>) { forall i :: 0 <= i < |order| ==> KeyOk(order[i]) }

  /** Whatever order the keys are replaced in, the result is the one simultaneous substitution. */
  lemma {:induction false} OrderDoesNotMatter(ts: seq<Token>, order: seq<string>, values: map<string, string>)
    requires TokensOk(ts) && NoDuplicates(order) && KeysOk(order)
    requires forall k :: k in order ==> k in values
    requires forall k :: k in values ==> NoBraces(values[k])
    ensures ReplaceInOrder(Render(ts), order, values) == Render(Fill(ts, Restrict(values, order)))
  {
    if order == [] {
      assert Restrict(values, order) == map[];
      FillNothing(ts);
    } else {
      var n := |order| - 1;
      OrderDoesNotMatter(ts, order[..n], values);
      RestrictMore(values, order);
      ReplaceOneMore(ts, Restrict(values, order[..n]), order[n], values[order[n]]);
    }
  }

  lemma ReplaceOneMore(ts: seq<Token>, done: map<string, string>, key: string, value: string)
    requires TokensOk(ts) && KeyOk(key) && key !in done && forall k :: k in done ==> NoBraces(done[k])
    ensures ReplaceAll(Render(Fill(ts, done)), "{" + key + "}", value) == Render(Fill(ts, done[key := value]))
  {
    FillKeepsOk(ts, done);
    ReplaceIsFillOne(Fill(ts, done), key, value);
    FillThenFill(ts, done, key, value);
  }

  // ---- the loops -------------------------------------------------------------------------------------------------

  function Escaped(params: map<string, string>): map<string, string> { map k | k in params :: PathEscape(params[k]) }

  /** ReplaceAll once for each param, in whatever order the map is walked. */
  method ReplaceEach(template: string, params: map<string, string>, ghost ts: seq<Token>) returns (expanded: string)
    requires TokensOk(ts) && template == Render(ts) && forall k :: k in params ==> KeyOk(k)
    ensures expanded == Render(Fill(ts, Escaped(params)))
  {
    expanded := template;
    var left := params.Keys;
    ghost var done: map<string, string> := map[];
    FillNothing(ts);
    while left != {}
      invariant left <= params.Keys && done == map k | k in params && k !in left :: PathEscape(params[k])
      invariant expanded == Render(Fill(ts, done))
      decreases left
    {
      var key :| key in left;
      left := left - {key};
      forall k | k in done ensures NoBraces(done[k]) { PathEscapeHasNoBraces(params[k]); }
      ReplaceOneMore(ts, done, key, PathEscape(params[key]));
      expanded := ReplaceAll(expanded, "{" + key + "}", PathEscape(params[key]));
      done := done[key := PathEscape(params[key])];
    }
    assert done == Escaped(params);
  }

  /** What has been read, up to the i-th byte, stands in front of the reading of the rest. */
  predicate ReadUpTo(template: string, i: nat, read: seq<Token>) {
    i <= |template| && Scan(template) == Glue(read, Scan(template[i..]))
  }

  /** The placeholder scan: accepts exactly the readable templates with few enough keys. */
  method Placeholders(template: string) returns (keys: Option<set<string>>)
    ensures keys == (var ts := Scan(template);
                     if ts.Some? && |Keys(ts.value)| <= MAX_PARAMS then Some(Keys(ts.value)) else None)
  {
    hide Scan, NextToken;
    var found: set<string> := {};
    var i := 0;
    ghost var read: seq<Token> := [];
    NothingRead(template);
    while i < |template|
      invariant ReadUpTo(template, i, read) && found == Keys(read) && |found| <= MAX_PARAMS
      decreases |template| - i
    {
      var next := ReadOne(template[i..]);
      if next.None? {
        Unreadable(template, i, read);
        return None;
      }
      var (token, width) := next.value;
      OneMoreRead(template, i, read, token, width);
      if token.Hole? { found := found + {token.key}; }
      read := read + [token];
      i := i + width;
      if |found| > MAX_PARAMS {
        TooManyRead(template, i, read);
        return None;
      }
    }
    AllRead(template, read);
    return Some(found);
  }

  lemma TooManyRead(template: string, i: nat, read: seq<Token>)
    requires ReadUpTo(template, i, read) && |Keys(read)| > MAX_PARAMS
    ensures Scan(template).Some? ==> |Keys(Scan(template).value)| > MAX_PARAMS
  {
    TooManyKeys(read, Scan(template[i..]));
  }

  lemma NothingRead(template: string)
    ensures ReadUpTo(template, 0, [])
  {
    assert template[0..] == template;
    GlueNothing(Scan(template));
  }

  lemma AllRead(template: string, read: seq<Token>)
    requires ReadUpTo(template, |template|, read)
    ensures Scan(template) == Some(read)
  {
    assert template[|template|..] == "" && read + [] == read;
  }

  lemma Unreadable(template: string, i: nat, read: seq<Token>)
    requires i < |template| && ReadUpTo(template, i, read) && NextToken(template[i..]).None?
    ensures Scan(template).None?
  {
  }

  lemma OneMoreRead(template: string, i: nat, read: seq<Token>, t: Token, width: nat)
    requires i < |template| && ReadUpTo(template, i, read) && NextToken(template[i..]) == Some((t, width))
    ensures ReadUpTo(template, i + width, read + [t])
    ensures Keys(read + [t]) == Keys(read) + (if t.Hole? then {t.key} else {})
  {
    ScanMovesOn(template, i, t, width);
    GlueMoves(Scan(template), read, t, Scan(template[i..]), Scan(template[i + width..]));
    KeysAppend(read, t);
  }

  /** The switch on one byte. */
  method ReadOne(s: string) returns (next: Option<(Token, nat)>)
    requires s != ""
    ensures next == NextToken(s)
  {
    if s[0] == '{' {
      var end := IndexOf(s[1..], '}');
      if end == |s[1..]| { return None; }
      var key := s[1..][..end];
      if !KeyOk(key) { return None; }
      return Some((Hole(key), end + 2));
    }
    if s[0] == '}' { return None; }
    return Some((Lit(s[0]), 1));
  }

  lemma GlueNothing(rest: Option<seq<Token>>)
    ensures Glue([], rest) == rest
  {
    if rest.Some? { assert [] + rest.value == rest.value; }
  }

  /** A token moves from the front of the rest to the end of what has been read. */
  lemma GlueMoves(whole: Option<seq<Token>>, read: seq<Token>, t: Token, here: Option<seq<Token>>,
                  next: Option<seq<Token>>)
    requires whole == Glue(read, here) && here == Glue([t], next)
    ensures whole == Glue(read + [t], next)
  {
    if next.Some? { assert read + ([t] + next.value) == read + [t] + next.value; }
  }

  lemma ScanOnce(s: string)
    requires s != "" && NextToken(s).Some?
    ensures Scan(s) == Glue([NextToken(s).value.0], Scan(s[NextToken(s).value.1..]))
  {
  }

  lemma ScanMovesOn(template: string, i: nat, t: Token, width: nat)
    requires i < |template| && NextToken(template[i..]) == Some((t, width))
    ensures i + width <= |template| && Scan(template[i..]) == Glue([t], Scan(template[i + width..]))
  {
    ScanOnce(template[i..]);
    assert template[i..][width..] == template[i + width..];
  }

  lemma KeysAppend(read: seq<Token>, t: Token)
    ensures Keys(read + [t]) == Keys(read) + (if t.Hole? then {t.key} else {})
  {
    forall u | u in read ensures u in read + [t] { }
    assert t in read + [t];
  }

  lemma TooManyKeys(read: seq<Token>, rest: Option<seq<Token>>)
    requires |Keys(read)| > MAX_PARAMS
    ensures Glue(read, rest).Some? ==> |Keys(Glue(read, rest).value)| > MAX_PARAMS
  {
    if rest.Some? {
      var all := Keys(read + rest.value);
      forall t | t in read ensures t in read + rest.value { }
      assert Keys(read) <= all;
      assert all == Keys(read) + (all - Keys(read));
    }
  }

  datatype ExpandError = BadTemplate | BadParams | UnknownParam | MissingParam | Unresolved | BadURL

  predicate ParamsOk(params: map<string, string>) {
    |params| <= MAX_PARAMS && forall k :: k in params ==> KeyOk(k) && ValueOk(params[k])
  }

  predicate HasBrace(s: string) { exists i :: 0 <= i < |s| && (s[i] == '{' || s[i] == '}') }

  /** The replacement and the check for leftovers, which never fires. */
  method FillTemplate(template: string, params: map<string, string>, ghost ts: seq<Token>)
    returns (r: Result<string, ExpandError>)
    requires TokensOk(ts) && template == Render(ts) && params.Keys == Keys(ts) && ParamsOk(params)
    ensures r == Ok(Render(Fill(ts, Escaped(params)))) && NoBraces(r.value)
  {
    var expanded := ReplaceEach(template, params, ts);
    forall k | k in Escaped(params) ensures NoBraces(Escaped(params)[k]) { PathEscapeHasNoBraces(params[k]); }
    FilledHasNoBraces(ts, Escaped(params));
    if HasBrace(expanded) { return Err(Unresolved); }
    return Ok(expanded);
  }

  /**
   * The whole expansion; `urlOk` are the checks on the template's URL and `finalOk` those
   * on the result. It succeeds exactly when template, params and result pass, with the
   * simultaneous substitution, and never for leftover placeholders.
   */
  method ExpandEndpointURL(template: string, params: map<string, string>, urlOk: bool, finalOk: string -> bool)
    returns (r: Result<string, ExpandError>)
    ensures var ts := Scan(template);
            var accepted := urlOk && ts.Some? && |Keys(ts.value)| <= MAX_PARAMS;
            && (r == Err(BadTemplate) <==> !accepted)
            && (r == Err(BadParams) <==> accepted && !ParamsOk(params))
            && (accepted && ParamsOk(params) ==>
                  && (r.Ok? || r == Err(BadURL) <==> params.Keys == Keys(ts.value))
                  && (params.Keys == Keys(ts.value) ==>
                        var filled := Render(Fill(ts.value, Escaped(params)));
                        NoBraces(filled) && r == if finalOk(filled) then Ok(filled) else Err(BadURL)))
    ensures r != Err(Unresolved)
  {
    if !urlOk { return Err(BadTemplate); }
    var placeholders := Placeholders(template);
    if placeholders.None? { return Err(BadTemplate); }
    if !ParamsOk(params) { return Err(BadParams); }
    if !(params.Keys <= placeholders.value) { return Err(UnknownParam); }
    if !(placeholders.value <= params.Keys) { return Err(MissingParam); }
    ScanIsRender(template);
    r := FillTemplate(template, params, Scan(template).value);
    if !finalOk(r.value) { return Err(BadURL); }
  }
}
