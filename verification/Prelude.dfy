/** Small helpers shared by the modules of the model. */
module Prelude {

  datatype Option<+T> = None | Some(value: T)

  datatype Result<+T, +E> = Ok(value: T) | Err(error: E)

  /** The elements of `s` satisfying `p`, in order. */
  function Filter<T>(s: seq<T>, p: T -> bool): seq<T> {
    if s == [] then [] else (if p(s[0]) then [s[0]] else []) + Filter(s[1..], p)
  }

  lemma {:induction false} FilterAppend<T>(a: seq<T>, b: seq<T>, p: T -> bool)
    ensures Filter(a + b, p) == Filter(a, p) + Filter(b, p)
  {
    if a == [] {
      assert a + b == b;
    } else {
      var head := if p(a[0]) then [a[0]] else [];
      var rest := Filter(a[1..], p);
      assert (a + b)[1..] == a[1..] + b;
      FilterAppend(a[1..], b, p);
      assert Filter(a + b, p) == head + (rest + Filter(b, p));
      assert head + (rest + Filter(b, p)) == (head + rest) + Filter(b, p);
    }
  }

  lemma {:induction false} FilterMember<T>(s: seq<T>, p: T -> bool, x: T)
    ensures x in Filter(s, p) <==> x in s && p(x)
  {
    if s != [] {
      assert s == [s[0]] + s[1..];
      FilterMember(s[1..], p, x);
    }
  }

  predicate NoDuplicates<T(==)>(s: seq<T>) {
    forall i, j :: 0 <= i < j < |s| ==> s[i] != s[j]
  }

  predicate Ordered<T>(s: seq<T>, rank: T -> int) {
    forall i, j :: 0 <= i < j < |s| ==> rank(s[i]) <= rank(s[j])
  }

  lemma {:induction false} FilterNoDuplicates<T>(s: seq<T>, p: T -> bool)
    requires NoDuplicates(s)
    ensures NoDuplicates(Filter(s, p))
  {
    if s != [] {
      FilterNoDuplicates(s[1..], p);
      FilterMember(s[1..], p, s[0]);
    }
  }

  lemma {:induction false} FilterOrdered<T>(s: seq<T>, p: T -> bool, rank: T -> int)
    requires Ordered(s, rank)
    ensures Ordered(Filter(s, p), rank)
  {
    if s != [] {
      var rest := Filter(s[1..], p);
      FilterOrdered(s[1..], p, rank);
      forall j | 0 <= j < |rest|
        ensures rank(s[0]) <= rank(rest[j])
      {
        FilterMember(s[1..], p, rest[j]);
      }
    }
  }
}
