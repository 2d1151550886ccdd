/**
 * Element-wise maps over sequences, built from the back so that a loop
 * appending one element at a time extends the map by one element.
 */
module Seqs {

  /** `[f(x) for x in s]`. */
  function Map<T, U>(f: T -> U, s: seq<T>): (r: seq<U>)
    ensures |r| == |s|
  {
    if s == [] then [] else Map(f, s[..|s| - 1]) + [f(s[|s| - 1])]
  }

  lemma {:induction false} MapAt<T, U>(f: T -> U, s: seq<T>, k: nat)
    requires k < |s|
    ensures Map(f, s)[k] == f(s[k])
    decreases |s|
  {
    var n := |s| - 1;
    if k < n {
      MapAt(f, s[..n], k);
      assert s[..n][k] == s[k];
    }
  }

  lemma {:induction false} MapAppend<T, U>(f: T -> U, a: seq<T>, b: seq<T>)
    ensures Map(f, a + b) == Map(f, a) + Map(f, b)
    decreases |b|
  {
    if b == [] {
      assert a + b == a;
    } else {
      var n := |b| - 1;
      assert (a + b)[..|a + b| - 1] == a + b[..n];
      assert (a + b)[|a + b| - 1] == b[n];
      MapAppend(f, a, b[..n]);
    }
  }

  lemma MapSnoc<T, U>(f: T -> U, s: seq<T>, i: nat)
    requires i < |s|
    ensures Map(f, s[..i + 1]) == Map(f, s[..i]) + [f(s[i])]
  {
    assert s[..i + 1][..i] == s[..i];
  }

  /** `[f(k, x) for k, x in enumerate(s, 1)]`. */
  function MapNumbered<T, U>(f: (nat, T) -> U, s: seq<T>): (r: seq<U>)
    ensures |r| == |s|
  {
    if s == [] then [] else MapNumbered(f, s[..|s| - 1]) + [f(|s|, s[|s| - 1])]
  }

  lemma {:induction false} MapNumberedAt<T, U>(f: (nat, T) -> U, s: seq<T>, k: nat)
    requires k < |s|
    ensures MapNumbered(f, s)[k] == f(k + 1, s[k])
    decreases |s|
  {
    var n := |s| - 1;
    if k < n {
      MapNumberedAt(f, s[..n], k);
      assert s[..n][k] == s[k];
    }
  }

  lemma MapNumberedSnoc<T, U>(f: (nat, T) -> U, s: seq<T>, i: nat)
    requires i < |s|
    ensures MapNumbered(f, s[..i + 1]) == MapNumbered(f, s[..i]) + [f(i + 1, s[i])]
  {
    assert s[..i + 1][..i] == s[..i];
  }
}
