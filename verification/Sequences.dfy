/** Facts about finite sequences that several components share. */
module Sequences {

  predicate Distinct<T(==)>(s: seq<T>) {
    forall i, j :: 0 <= i < j < |s| ==> s[i] != s[j]
  }

  /** What is left of a script after n of its entries. */
  function Rest<T>(s: seq<T>, n: nat): seq<T> {
    if n <= |s| then s[n..] else []
  }

  lemma CancelOne<T>(x: multiset<T>, y: multiset<T>, e: T)
    requires x + multiset{e} == y + multiset{e}
    ensures x == y
  {
    forall z ensures x[z] == y[z] {
      assert (x + multiset{e})[z] == (y + multiset{e})[z];
    }
  }

  /** The last element of a sequence, found in a permutation of it and taken out of both. */
  lemma TakeOut<T>(a: seq<T>, b: seq<T>) returns (l: seq<T>, x: T, r: seq<T>)
    requires multiset(a) == multiset(b) && a != []
    ensures a == a[..|a|-1] + [x] && b == l + [x] + r
    ensures multiset(a[..|a|-1]) == multiset(l + r)
  {
    x := a[|a|-1];
    assert a == a[..|a|-1] + [x];
    assert x in multiset(b);
    var i :| 0 <= i < |b| && b[i] == x;
    l, r := b[..i], b[i+1..];
    assert b == l + [x] + r;
    assert multiset(b) == multiset(l + r) + multiset{x};
    CancelOne(multiset(a[..|a|-1]), multiset(l + r), x);
  }
}
