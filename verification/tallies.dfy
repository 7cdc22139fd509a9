/** Counting over sequences: sums and occurrence counts, shared by the charts. */
module Tallies {

  /** The sum of a sequence of counts. */
  function Sum(s: seq<nat>): nat {
    if s == [] then 0 else Sum(s[..|s| - 1]) + s[|s| - 1]
  }

  lemma SumAppend(s: seq<nat>, x: nat)
    ensures Sum(s + [x]) == Sum(s) + x
  {
    assert (s + [x])[..|s|] == s;
  }

  /** Incrementing one slot increments the sum by one. */
  lemma {:induction false} SumIncrement(s: seq<nat>, k: nat)
    requires k < |s|
    ensures Sum(s[k := s[k] + 1]) == Sum(s) + 1
  {
    var t := s[k := s[k] + 1];
    if k == |s| - 1 {
      assert t[..|t| - 1] == s[..|s| - 1];
    } else {
      assert t[..|t| - 1] == s[..|s| - 1][k := s[k] + 1];
      SumIncrement(s[..|s| - 1], k);
    }
  }

  /** How many times `x` occurs in `s`. */
  function Occurrences<T(==)>(s: seq<T>, x: T): (n: nat)
    ensures n <= |s|
    ensures n > 0 <==> x in s
  {
    if s == [] then 0
    else
      assert s == s[..|s| - 1] + [s[|s| - 1]];
      Occurrences(s[..|s| - 1], x) + (if s[|s| - 1] == x then 1 else 0)
  }

  lemma OccurrencesAppend<T>(s: seq<T>, y: T, x: T)
    ensures Occurrences(s + [y], x) == Occurrences(s, x) + (if y == x then 1 else 0)
  {
    assert (s + [y])[..|s|] == s;
  }

  /** Counting from the front: a leading `y` adds one exactly when it is `x`. */
  lemma {:induction false} OccurrencesPrepend<T>(y: T, s: seq<T>, x: T)
    ensures Occurrences([y] + s, x) == (if y == x then 1 else 0) + Occurrences(s, x)
    decreases |s|
  {
    if s != [] {
      var init := s[..|s| - 1];
      assert ([y] + s)[..|s|] == [y] + init;
      OccurrencesPrepend(y, init, x);
    } else {
      assert ([y] + s)[..0] == [];
    }
  }

  /** How many of `keys` fall in `[0, n)`. */
  function InRange(keys: seq<int>, n: nat): (r: nat)
    ensures r <= |keys|
  {
    if keys == [] then 0
    else InRange(keys[..|keys| - 1], n) + (if 0 <= keys[|keys| - 1] < n then 1 else 0)
  }

  /** When every key lies in `[0, n)`, all of them are counted. */
  lemma {:induction false} AllInRange(keys: seq<int>, n: nat)
    requires forall i | 0 <= i < |keys| :: 0 <= keys[i] < n
    ensures InRange(keys, n) == |keys|
  {
    if keys != [] {
      AllInRange(keys[..|keys| - 1], n);
    }
  }

  /** `a` is `b` with some elements left out, the rest kept in order. */
  predicate SubsequenceOf<T(==)>(a: seq<T>, b: seq<T>)
    decreases |b|
  {
    if a == [] then true
    else if b == [] then false
    else (a[0] == b[0] && SubsequenceOf(a[1..], b[1..])) || SubsequenceOf(a, b[1..])
  }

  /** Whether no element occurs twice. */
  predicate Distinct<T(==)>(s: seq<T>) {
    forall i, j | 0 <= i < j < |s| :: s[i] != s[j]
  }
}
