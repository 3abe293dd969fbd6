/**
 * Byte strings read as UTF-8, the way Go's range loop and its JSON codec read
 * them: a byte that starts no well-formed sequence stands for itself and is
 * replaced by U+FFFD when the string goes through JSON.
 */
module Utf8 {

  predicate Within(c: char, lo: char, hi: char) { lo <= c <= hi }

  predicate IsContinuation(c: char) { Within(c, '\U{80}', '\U{bf}') }

  /** The bytes that may follow the lead byte `c` (table 3-7 of the Unicode standard). */
  predicate IsSecond(c: char, d: char) {
    if c == '\U{e0}' then Within(d, '\U{a0}', '\U{bf}')
    else if c == '\U{ed}' then Within(d, '\U{80}', '\U{9f}')
    else if c == '\U{f0}' then Within(d, '\U{90}', '\U{bf}')
    else if c == '\U{f4}' then Within(d, '\U{80}', '\U{8f}')
    else IsContinuation(d)
  }

  /** How many bytes a sequence with this lead byte has, 0 if it leads none. */
  function LeadWidth(c: char): (w: nat)
    ensures w <= 4
  {
    if c < '\U{80}' then 1
    else if Within(c, '\U{c2}', '\U{df}') then 2
    else if Within(c, '\U{e0}', '\U{ef}') then 3
    else if Within(c, '\U{f0}', '\U{f4}') then 4
    else 0
  }

  /** The width of the well-formed sequence at the start of the string, 0 if there is none. */
  function Width(s: string): (w: nat)
    requires s != ""
    ensures w <= 4 && w <= |s|
  {
    var w := LeadWidth(s[0]);
    if w <= |s| && (w >= 2 ==> IsSecond(s[0], s[1])) && (w >= 3 ==> IsContinuation(s[2]))
       && (w >= 4 ==> IsContinuation(s[3]))
    then w else 0
  }

  predicate IsUtf8(s: string)
    decreases |s|
  {
    s == "" || (Width(s) > 0 && IsUtf8(s[Width(s)..]))
  }

  const REPLACEMENT := "\U{ef}\U{bf}\U{bd}"

  /** What a string has become after it was encoded as JSON and decoded again. */
  function Repair(s: string): string
    decreases |s|
  {
    if s == "" then ""
    else if Width(s) == 0 then REPLACEMENT + Repair(s[1..])
    else s[..Width(s)] + Repair(s[Width(s)..])
  }

  /** The first sequence is read the same whatever follows it. */
  lemma WidthOfPrefix(a: string, b: string)
    requires a != "" && Width(a) == |a|
    ensures Width(a + b) == |a| && (a + b)[|a|..] == b
  {
    assert forall i :: 0 <= i < |a| ==> (a + b)[i] == a[i];
  }

  lemma WidthOfFirst(s: string)
    requires s != "" && Width(s) > 0
    ensures Width(s[..Width(s)]) == Width(s)
  {
  }

  /** Only a string that is not well-formed UTF-8 is changed. */
  lemma {:induction false} RepairKeepsExactlyUtf8(s: string)
    ensures |Repair(s)| >= |s|
    ensures Repair(s) == s <==> IsUtf8(s)
    decreases |s|
  {
    if s != "" {
      var w := Width(s);
      if w == 0 {
        RepairKeepsExactlyUtf8(s[1..]);
        assert |Repair(s)| == 3 + |Repair(s[1..])|;
      } else {
        RepairKeepsExactlyUtf8(s[w..]);
        assert s == s[..w] + s[w..];
        assert Repair(s)[w..] == Repair(s[w..]);
      }
    }
  }

  lemma {:induction false} RepairIsUtf8(s: string)
    ensures IsUtf8(Repair(s))
    decreases |s|
  {
    if s != "" {
      var w := Width(s);
      var head := if w == 0 then REPLACEMENT else s[..w];
      var rest := Repair(s[if w == 0 then 1 else w..]);
      RepairIsUtf8(s[if w == 0 then 1 else w..]);
      if w > 0 { WidthOfFirst(s); }
      WidthOfPrefix(head, rest);
      assert Repair(s) == head + rest;
    }
  }

  /** A second trip through JSON changes nothing more. */
  lemma RepairIsIdempotent(s: string)
    ensures Repair(Repair(s)) == Repair(s)
  {
    RepairIsUtf8(s);
    RepairKeepsExactlyUtf8(Repair(s));
  }

  // ---- white space -----------------------------------------------------------

  /** The encodings of the code points with the Unicode property White_Space. */
  const SPACES: seq<string> :=
    ["\t", "\n", "\U{0b}", "\U{0c}", "\r", " ", "\U{c2}\U{85}", "\U{c2}\U{a0}", "\U{e1}\U{9a}\U{80}",
     "\U{e2}\U{80}\U{80}", "\U{e2}\U{80}\U{81}", "\U{e2}\U{80}\U{82}", "\U{e2}\U{80}\U{83}",
     "\U{e2}\U{80}\U{84}", "\U{e2}\U{80}\U{85}", "\U{e2}\U{80}\U{86}", "\U{e2}\U{80}\U{87}",
     "\U{e2}\U{80}\U{88}", "\U{e2}\U{80}\U{89}", "\U{e2}\U{80}\U{8a}", "\U{e2}\U{80}\U{a8}",
     "\U{e2}\U{80}\U{a9}", "\U{e2}\U{80}\U{af}", "\U{e2}\U{81}\U{9f}", "\U{e3}\U{80}\U{80}"]

  predicate EndsWith(s: string, end: string) {
    |end| <= |s| && s[|s| - |end|..] == end
  }

  predicate IsTrimmed(s: string) {
    forall i :: 0 <= i < |SPACES| ==> !(SPACES[i] <= s) && !EndsWith(s, SPACES[i])
  }

  predicate IsAsciiLetter(c: char) { Within(c, 'a', 'z') || Within(c, 'A', 'Z') }

  lemma SpacesAreNoLetters(i: nat)
    requires i < |SPACES|
    ensures SPACES[i] != "" && !IsAsciiLetter(SPACES[i][0]) && !IsAsciiLetter(SPACES[i][|SPACES[i]| - 1])
  {
  }

  lemma BetweenLettersIsTrimmed(s: string)
    requires s != "" && IsAsciiLetter(s[0]) && IsAsciiLetter(s[|s| - 1])
    ensures IsTrimmed(s)
  {
    forall i | 0 <= i < |SPACES|
      ensures !(SPACES[i] <= s) && !EndsWith(s, SPACES[i])
    {
      SpacesAreNoLetters(i);
    }
  }

  /** The width of the white space a string starts with, trying the spaces from the k-th on. */
  function LeadingSpace(s: string, k: nat): (w: nat)
    ensures w <= |s|
    decreases |SPACES| - k
  {
    if k >= |SPACES| then 0 else if SPACES[k] <= s then |SPACES[k]| else LeadingSpace(s, k + 1)
  }

  function TrailingSpace(s: string, k: nat): (w: nat)
    ensures w <= |s|
    decreases |SPACES| - k
  {
    if k >= |SPACES| then 0 else if EndsWith(s, SPACES[k]) then |SPACES[k]| else TrailingSpace(s, k + 1)
  }

  function Trim(s: string): string
    decreases |s|
  {
    var w := LeadingSpace(s, 0);
    var v := TrailingSpace(s, 0);
    if w > 0 then Trim(s[w..]) else if v > 0 then Trim(s[..|s| - v]) else s
  }

  lemma {:induction false} NoSpaceAtEnds(s: string, k: nat)
    requires IsTrimmed(s)
    ensures LeadingSpace(s, k) == 0 && TrailingSpace(s, k) == 0
    decreases |SPACES| - k
  {
    if k < |SPACES| { NoSpaceAtEnds(s, k + 1); }
  }

  lemma TrimKeepsTrimmed(s: string)
    requires IsTrimmed(s)
    ensures Trim(s) == s
  {
    NoSpaceAtEnds(s, 0);
  }
}
