/** Decimal rendering of natural numbers. */
module Decimal {

  predicate IsDigit(c: char) { '0' <= c <= '9' }

  function Digit(n: nat): (c: char)
    requires n < 10
    ensures IsDigit(c)
  {
    "0123456789"[n]
  }

  function DigitValue(c: char): nat
    requires IsDigit(c)
  {
    c as int - '0' as int
  }

  function Dec(n: nat): (s: string)
    ensures s != "" && forall i :: 0 <= i < |s| ==> IsDigit(s[i])
  {
    if n < 10 then [Digit(n)] else Dec(n / 10) + [Digit(n % 10)]
  }

  function Value(s: string): nat
    requires forall i :: 0 <= i < |s| ==> IsDigit(s[i])
  {
    if s == "" then 0 else 10 * Value(s[..|s| - 1]) + DigitValue(s[|s| - 1])
  }

  lemma {:induction false} ValueOfDec(n: nat)
    ensures Value(Dec(n)) == n
  {
    if n < 10 {
      assert Value(Dec(n)[..0]) == 0;
      assert DigitValue(Digit(n)) == n;
    } else {
      ValueOfDec(n / 10);
      var s := Dec(n);
      assert s[..|s| - 1] == Dec(n / 10);
      assert DigitValue(Digit(n % 10)) == n % 10;
    }
  }

  lemma DecInjective(a: nat, b: nat)
    requires Dec(a) == Dec(b)
    ensures a == b
  {
    ValueOfDec(a);
    ValueOfDec(b);
  }

  /** The number of leading digits. */
  function Span(s: string): (n: nat)
    ensures n <= |s| && forall i :: 0 <= i < n ==> IsDigit(s[i])
  {
    if s == "" || !IsDigit(s[0]) then 0 else 1 + Span(s[1..])
  }

  lemma {:induction false} SpanOf(digits: string, rest: string)
    requires forall i :: 0 <= i < |digits| ==> IsDigit(digits[i])
    requires rest == "" || !IsDigit(rest[0])
    ensures Span(digits + rest) == |digits|
  {
    if digits == "" {
      assert digits + rest == rest;
    } else {
      assert (digits + rest)[1..] == digits[1..] + rest;
      SpanOf(digits[1..], rest);
    }
  }

  /** Rendered numbers followed by a non-digit are read back unambiguously. */
  lemma DecDelimited(a: nat, b: nat, c: char, s: string, t: string)
    requires !IsDigit(c)
    requires Dec(a) + ([c] + s) == Dec(b) + ([c] + t)
    ensures a == b && s == t
  {
    var x := Dec(a) + ([c] + s);
    var y := Dec(b) + ([c] + t);
    SpanOf(Dec(a), [c] + s);
    SpanOf(Dec(b), [c] + t);
    assert Dec(a) == x[..Span(x)] == y[..Span(y)] == Dec(b);
    DecInjective(a, b);
    assert s == x[Span(x) + 1..] && t == y[Span(y) + 1..];
  }
}
