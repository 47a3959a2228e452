/** Stable sorting (`sort.SliceStable`, `sort.Strings`) by what it guarantees. */
module Sorting {

  /** A comparator Go's sort package accepts: a strict weak order. */
  ghost predicate StrictWeak<T(!new)>(less: (T, T) -> bool) {
    && (forall a :: !less(a, a))
    && (forall a, b, c :: less(a, b) && less(b, c) ==> less(a, c))
    && (forall a, b, c :: !less(a, b) && !less(b, c) ==> !less(a, c))
  }

  ghost predicate Sorted<T(!new)>(less: (T, T) -> bool, s: seq<T>) {
    forall i, j :: 0 <= i < j < |s| ==> !less(s[j], s[i])
  }

  predicate Tied<T>(less: (T, T) -> bool, a: T, b: T) {
    !less(a, b) && !less(b, a)
  }

  /** The elements of s that compare equal to z, in their order in s. */
  function Ties<T>(less: (T, T) -> bool, z: T, s: seq<T>): seq<T> {
    if s == [] then []
    else (if Tied(less, z, s[0]) then [s[0]] else []) + Ties(less, z, s[1..])
  }

  function Insert<T>(less: (T, T) -> bool, x: T, s: seq<T>): (r: seq<T>)
    ensures |r| == |s| + 1
    ensures multiset(r) == multiset(s) + multiset{x}
  {
    if s == [] || !less(s[0], x) then [x] + s
    else
      assert s == [s[0]] + s[1..];
      [s[0]] + Insert(less, x, s[1..])
  }

  function StableSort<T>(less: (T, T) -> bool, s: seq<T>): (r: seq<T>)
    ensures |r| == |s|
    ensures multiset(r) == multiset(s)
  {
    if s == [] then []
    else
      assert s == [s[0]] + s[1..];
      Insert(less, s[0], StableSort(less, s[1..]))
  }

  lemma {:induction false} InsertSorted<T(!new)>(less: (T, T) -> bool, x: T, s: seq<T>)
    requires StrictWeak(less) && Sorted(less, s)
    ensures Sorted(less, Insert(less, x, s))
  {
    if s != [] && less(s[0], x) {
      InsertSorted(less, x, s[1..]);
      var t := Insert(less, x, s[1..]);
      assert s == [s[0]] + s[1..];
      forall j | 0 <= j < |t| ensures !less(t[j], s[0]) {
        assert t[j] in multiset(t);
        assert t[j] == x || t[j] in s[1..];
      }
    } else if s != [] {
      forall j | 0 <= j < |s| ensures !less(s[j], x) {
        assert j == 0 || !less(s[j], s[0]);
      }
    }
  }

  lemma {:induction false} InsertTies<T(!new)>(less: (T, T) -> bool, z: T, x: T, s: seq<T>)
    requires StrictWeak(less)
    ensures Ties(less, z, Insert(less, x, s)) == (if Tied(less, z, x) then [x] else []) + Ties(less, z, s)
  {
    hide StrictWeak, Tied;
    if s == [] || !less(s[0], x) {
      assert ([x] + s)[1..] == s;
    } else {
      InsertTies(less, z, x, s[1..]);
      assert ([s[0]] + Insert(less, x, s[1..]))[1..] == Insert(less, x, s[1..]);
      OneTie(less, z, s[0], x);
    }
  }

  lemma OneTie<T(!new)>(less: (T, T) -> bool, z: T, a: T, b: T)
    requires StrictWeak(less) && less(a, b)
    ensures !(Tied(less, z, a) && Tied(less, z, b))
  {
  }

  /** The sort is ordered, and elements that tie keep their order. */
  lemma {:induction false} StableSortCorrect<T(!new)>(less: (T, T) -> bool, s: seq<T>)
    requires StrictWeak(less)
    ensures Sorted(less, StableSort(less, s))
    ensures forall z :: Ties(less, z, StableSort(less, s)) == Ties(less, z, s)
  {
    if s != [] {
      StableSortCorrect(less, s[1..]);
      InsertSorted(less, s[0], StableSort(less, s[1..]));
      forall z ensures Ties(less, z, StableSort(less, s)) == Ties(less, z, s) {
        InsertTies(less, z, s[0], StableSort(less, s[1..]));
      }
    }
  }

  lemma {:induction false} TiesMember<T>(less: (T, T) -> bool, z: T, s: seq<T>)
    ensures forall x :: x in Ties(less, z, s) ==> x in s
    ensures z in s && !less(z, z) ==> Ties(less, z, s) != []
  {
    if s != [] {
      TiesMember(less, z, s[1..]);
    }
  }

  /** Order and stability fix the result: any other stable sort agrees with this one. */
  lemma {:induction false} StableSortUnique<T(!new)>(less: (T, T) -> bool, s: seq<T>, t: seq<T>)
    requires StrictWeak(less) && Sorted(less, s) && Sorted(less, t)
    requires forall z :: Ties(less, z, s) == Ties(less, z, t)
    ensures s == t
  {
    if t != [] { TiesMember(less, t[0], t); }
    if s != [] {
      TiesMember(less, s[0], s);
      TiesMember(less, s[0], t);
      var u := Ties(less, s[0], t)[0];
      assert u in t;
      TiesMember(less, t[0], t);
      TiesMember(less, t[0], s);
      var v := Ties(less, t[0], s)[0];
      assert v in s;
      Minimal(less, s, v);
      Minimal(less, t, u);
      TiesTied(less, s[0], t);
      TiesTied(less, t[0], s);
      assert Tied(less, s[0], t[0]);
      assert Ties(less, s[0], s)[0] == s[0] && Ties(less, s[0], t)[0] == t[0];
      forall z ensures Ties(less, z, s[1..]) == Ties(less, z, t[1..]) {
        assert Ties(less, z, s) == Ties(less, z, t);
        TiesHead(less, z, s);
        TiesHead(less, z, t);
      }
      StableSortUnique(less, s[1..], t[1..]);
    }
  }

  lemma Minimal<T(!new)>(less: (T, T) -> bool, s: seq<T>, x: T)
    requires StrictWeak(less) && Sorted(less, s) && x in s
    ensures !less(x, s[0])
  {
    var i :| 0 <= i < |s| && s[i] == x;
    assert i == 0 || !less(s[i], s[0]);
  }

  lemma {:induction false} TiesTied<T>(less: (T, T) -> bool, z: T, s: seq<T>)
    ensures forall x :: x in Ties(less, z, s) ==> Tied(less, z, x)
  {
    if s != [] { TiesTied(less, z, s[1..]); }
  }

  lemma TiesHead<T>(less: (T, T) -> bool, z: T, s: seq<T>)
    requires s != []
    ensures Ties(less, z, s[1..]) == if Tied(less, z, s[0]) then Ties(less, z, s)[1..] else Ties(less, z, s)
  {
  }
}
