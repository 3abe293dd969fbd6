/**
 * The check on the locator of a runtime source: a clean absolute path for a
 * local source, an https URL of a lock file for a remote one. A char stands for
 * one byte, and paths follow the POSIX rules. A URL is taken apart where the
 * library takes it apart; whether its host is an IP literal is not decided here.
 */
module Locator {
  import opened Prelude
  import opened Utf8

  const MAX_LOCATOR_BYTES: nat := 8192

  datatype Kind = LocalZip | LocalDirectory | RemoteLock

  /** No control character, neither of ASCII nor U+0080 to U+009F. */
  predicate HasNoControls(s: string) {
    && (forall i :: 0 <= i < |s| ==> ' ' <= s[i] && s[i] != '\U{7f}')
    && forall i :: 0 <= i < |s| - 1 ==> !(s[i] == '\U{c2}' && Within(s[i + 1], '\U{80}', '\U{9f}'))
  }

  /** The path element starting at `i` is neither empty nor "." nor "..". */
  predicate IsPlainElement(s: string, i: nat) {
    var dot := i < |s| && s[i] == '.';
    var twoDots := dot && i + 1 < |s| && s[i + 1] == '.';
    && i < |s| && s[i] != '/'
    && !(dot && (i + 1 == |s| || s[i + 1] == '/'))
    && !(twoDots && (i + 2 == |s| || s[i + 2] == '/'))
  }

  /** An absolute path that lexical cleaning leaves as it is. */
  predicate IsCleanPath(s: string) {
    && s != "" && s[0] == '/'
    && (s == "/" || forall i :: 0 <= i < |s| && s[i] == '/' ==> IsPlainElement(s, i + 1))
  }

  // ---- lock URLs --------------------------------------------------------------

  function Before(s: string, c: char): (r: string)
    ensures r <= s
  {
    if s == "" || s[0] == c then "" else [s[0]] + Before(s[1..], c)
  }

  function AfterLast(s: string, c: char): string {
    if s == "" || s[|s| - 1] == c then "" else AfterLast(s[..|s| - 1], c) + [s[|s| - 1]]
  }

  function Lower(c: char): char {
    if 'A' <= c <= 'Z' then c - 'A' + 'a' else c
  }

  predicate IsDigit(c: char) { '0' <= c <= '9' }

  predicate IsAlnum(c: char) { IsDigit(c) || 'a' <= Lower(c) <= 'z' }

  predicate IsHex(c: char) { IsDigit(c) || 'a' <= Lower(c) <= 'f' }

  function HexValue(c: char): (v: nat)
    requires IsHex(c)
    ensures v < 16
  {
    if IsDigit(c) then (c - '0') as int else 10 + (Lower(c) - 'a') as int
  }

  function PercentDecoded(s: string): Option<string> {
    if s == "" then Some("")
    else if s[0] != '%' then
      var rest := PercentDecoded(s[1..]);
      if rest.None? then None else Some([s[0]] + rest.value)
    else if |s| < 3 || !IsHex(s[1]) || !IsHex(s[2]) then None
    else
      var rest := PercentDecoded(s[3..]);
      if rest.None? then None else Some([(16 * HexValue(s[1]) + HexValue(s[2])) as char] + rest.value)
  }

  /** In a host an escape may only stand for a byte outside ASCII. */
  predicate IsHostByte(host: string, i: nat)
    requires i < |host|
  {
    var c := host[i];
    || c >= '\U{80}' || IsAlnum(c) || c in "-_.~!$&'()*+,;=:]<>\"" || (c == '[' && i > 0)
    || (c == '%' && i + 2 < |host| && IsHex(host[i + 1]) && HexValue(host[i + 1]) >= 8 && IsHex(host[i + 2]))
  }

  /** A host name, with a non-empty decimal port if there is a colon. */
  predicate IsHost(host: string) {
    && host != ""
    && (forall i :: 0 <= i < |host| ==> IsHostByte(host, i))
    && (':' in host ==>
          var port := AfterLast(host, ':');
          port != "" && |port| + 1 < |host| && forall i :: 0 <= i < |port| ==> IsDigit(port[i]))
  }

  function WithoutTrailingSlashes(path: string): string {
    if path != "" && path[|path| - 1] == '/' then WithoutTrailingSlashes(path[..|path| - 1]) else path
  }

  predicate NamesLockFile(path: string) {
    var leaf := AfterLast(WithoutTrailingSlashes(path), '/');
    EndsWith(leaf, ".lock.json") && leaf != ".lock.json"
  }

  predicate HasHttpsScheme(url: string) {
    && |url| > 8
    && (forall i :: 0 <= i < 5 ==> Lower(url[i]) == "https"[i])
    && url[5] == ':' && url[6] == '/' && url[7] == '/'
  }

  /** The part between the scheme and the query: a host, then the path of a lock file. */
  predicate IsLockAddress(address: string) {
    var host := Before(address, '/');
    var path := PercentDecoded(address[|host|..]);
    IsHost(host) && path.Some? && NamesLockFile(path.value)
  }

  predicate IsLockUrl(s: string) {
    && '#' !in s
    && var url := Trim(s);
    HasHttpsScheme(url) && IsLockAddress(Before(url[8..], '?'))
  }

  predicate IsDurable(kind: Kind, s: string) {
    && 0 < |s| <= MAX_LOCATOR_BYTES
    && HasNoControls(s)
    && if kind == RemoteLock then IsLockUrl(s) else IsCleanPath(s)
  }

  // ---- two admissible locators ------------------------------------------------

  lemma {:induction false} BeforeSeparator(a: string, c: char, b: string)
    requires c !in a
    ensures Before(a + [c] + b, c) == a
  {
    var s := a + [c] + b;
    if a != "" {
      assert s[1..] == a[1..] + [c] + b;
      BeforeSeparator(a[1..], c, b);
    }
  }

  /** A URL whose query may be of any length. */
  function PaddedUrl(n: nat): (s: string)
    ensures |s| == 22 + n
  {
    "https://h/p.lock.json?" + seq(n, _ => 'a')
  }

  lemma PaddedUrlIsTrimmed(n: nat)
    requires n > 0
    ensures Trim(PaddedUrl(n)) == PaddedUrl(n)
  {
    var s := PaddedUrl(n);
    assert s[|s| - 1] == 'a' && s[0] == 'h';
    BetweenLettersIsTrimmed(s);
    TrimKeepsTrimmed(s);
  }

  lemma PaddedUrlAddress(n: nat)
    ensures Before(PaddedUrl(n)[8..], '?') == "h/p.lock.json"
  {
    var query := seq(n, _ => 'a');
    assert PaddedUrl(n)[8..] == "h/p.lock.json" + ['?'] + query;
    BeforeSeparator("h/p.lock.json", '?', query);
  }

  lemma {:induction false} AfterSeparator(a: string, c: char, b: string)
    requires c !in b
    ensures AfterLast(a + [c] + b, c) == b
  {
    var s := a + [c] + b;
    if b != "" {
      var n := |b| - 1;
      assert s[..|s| - 1] == a + [c] + b[..n];
      assert b == b[..n] + [b[n]];
      AfterSeparator(a, c, b[..n]);
    }
  }

  lemma {:induction false} NothingToDecode(s: string)
    requires '%' !in s
    ensures PercentDecoded(s) == Some(s)
  {
    if s != "" {
      NothingToDecode(s[1..]);
      assert s == [s[0]] + s[1..];
    }
  }

  lemma LeafNames(leaf: string)
    requires '/' !in leaf && EndsWith(leaf, ".lock.json") && leaf != ".lock.json"
    ensures NamesLockFile(['/'] + leaf)
  {
    var path := ['/'] + leaf;
    assert path[|path| - 1] == leaf[|leaf| - 1];
    assert WithoutTrailingSlashes(path) == path == "" + ['/'] + leaf;
    AfterSeparator("", '/', leaf);
  }

  lemma PaddedUrlLeaf(leaf: string)
    requires leaf == "p.lock.json"
    ensures NamesLockFile(['/'] + leaf)
  {
    assert leaf[1..] == ".lock.json";
    LeafNames(leaf);
  }

  lemma PaddedUrlPath(path: string)
    requires path == "/p.lock.json"
    ensures PercentDecoded(path) == Some(path) && NamesLockFile(path)
  {
    NothingToDecode(path);
    PaddedUrlLeaf(path[1..]);
    assert path == ['/'] + path[1..];
  }

  lemma PaddedUrlHost(address: string)
    requires address == "h/p.lock.json"
    ensures Before(address, '/') == "h" && address[1..] == "/p.lock.json" && IsHost("h")
  {
    BeforeSeparator("h", '/', "p.lock.json");
    assert address == "h" + ['/'] + "p.lock.json";
  }

  lemma PaddedUrlBytes(n: nat)
    ensures HasNoControls(PaddedUrl(n)) && '#' !in PaddedUrl(n)
  {
    var head := "https://h/p.lock.json?";
    assert forall i :: 0 <= i < |head| ==> ' ' <= head[i] < '\U{7f}' && head[i] != '#';
  }

  lemma PaddedUrlIsAddressed(address: string)
    requires address == "h/p.lock.json"
    ensures IsLockAddress(address)
  {
    PaddedUrlHost(address);
    PaddedUrlPath(address[1..]);
  }

  lemma PaddedUrlHasScheme(n: nat)
    requires n > 0
    ensures HasHttpsScheme(PaddedUrl(n))
  {
  }

  lemma PaddedUrlIsLockUrl(n: nat)
    requires n > 0
    ensures IsLockUrl(PaddedUrl(n))
  {
    PaddedUrlBytes(n);
    PaddedUrlIsTrimmed(n);
    PaddedUrlHasScheme(n);
    PaddedUrlAddress(n);
    PaddedUrlIsAddressed(Before(PaddedUrl(n)[8..], '?'));
  }

  lemma PaddedUrlIsDurable(n: nat)
    requires 0 < n <= MAX_LOCATOR_BYTES - 22
    ensures IsDurable(RemoteLock, PaddedUrl(n))
  {
    PaddedUrlBytes(n);
    PaddedUrlIsLockUrl(n);
  }

  /** A file name may hold a byte that is no UTF-8. */
  lemma OddFileNameIsDurable()
    ensures IsDurable(LocalZip, "/\U{ff}") && !IsUtf8("/\U{ff}")
  {
    var s := "/\U{ff}";
    assert s[Width(s)..] == "\U{ff}";
  }
}
