/** Generic sequence helpers: prefixes, suffixes and order-preserving filtering. */
module Seqs {

  /** `s` begins with `prefix` (Rust's `starts_with`). */
  predicate StartsWith<T(==)>(s: seq<T>, prefix: seq<T>)
  {
    |prefix| <= |s| && s[..|prefix|] == prefix
  }

  /** `s` ends with `suffix` (Rust's `ends_with`). */
  predicate EndsWith<T(==)>(s: seq<T>, suffix: seq<T>)
  {
    |suffix| <= |s| && s[|s| - |suffix|..] == suffix
  }

  /** The elements of `s` that satisfy `f`, in their original order (Rust's `filter` + `collect`). */
  function Filter<T(==)>(f: T -> bool, s: seq<T>): (r: seq<T>)
    ensures |r| <= |s|
    ensures forall i :: 0 <= i < |r| ==> r[i] in s && f(r[i])
    ensures forall i :: 0 <= i < |s| && f(s[i]) ==> s[i] in r
  {
    if s == [] then [] else (if f(s[0]) then [s[0]] else []) + Filter(f, s[1..])
  }

  /** Filtering distributes over concatenation: survivors keep their relative order. */
  lemma {:induction false} FilterAppend<T>(f: T -> bool, a: seq<T>, b: seq<T>)
    ensures Filter(f, a + b) == Filter(f, a) + Filter(f, b)
  {
    if a == [] {
      assert a + b == b;
    } else {
      assert (a + b)[0] == a[0];
      assert (a + b)[1..] == a[1..] + b;
      FilterAppend(f, a[1..], b);
    }
  }

  /** Nothing is dropped exactly when every element passes. */
  lemma {:induction false} FilterKeepsAll<T>(f: T -> bool, s: seq<T>)
    ensures |Filter(f, s)| == |s| <==> forall i :: 0 <= i < |s| ==> f(s[i])
    ensures (forall i :: 0 <= i < |s| ==> f(s[i])) ==> Filter(f, s) == s
  {
    if s != [] {
      FilterKeepsAll(f, s[1..]);
      assert !f(s[0]) ==> |Filter(f, s)| < |s|;
      assert (forall i :: 1 <= i < |s| ==> f(s[i])) <==> (forall i :: 0 <= i < |s[1..]| ==> f(s[1..][i])) by {
        assert forall i :: 0 <= i < |s[1..]| ==> s[1..][i] == s[i + 1];
      }
    }
  }

  /** Two tests that agree on every element of `s` select the same elements. */
  lemma {:induction false} FilterCongruent<T>(f: T -> bool, g: T -> bool, s: seq<T>)
    requires forall i :: 0 <= i < |s| ==> f(s[i]) == g(s[i])
    ensures Filter(f, s) == Filter(g, s)
  {
    if s != [] {
      assert forall i :: 0 <= i < |s[1..]| ==> f(s[1..][i]) == g(s[1..][i]) by {
        forall i | 0 <= i < |s[1..]| ensures f(s[1..][i]) == g(s[1..][i]) {
          assert s[1..][i] == s[i + 1];
        }
      }
      FilterCongruent(f, g, s[1..]);
    }
  }
}
