/** Python's `sorted(xs, key=f)`: a stable sort by a key, modelled as an
    insertion sort over a total order on the keys. Every ordering step in
    Singe.py (the folder scan, the burn order, the metadata organiser and the
    cdparanoia track list) is this sort with a different key. */
module StableSort {

  /** `le` is a total order: reflexive, antisymmetric, transitive, total. */
  ghost predicate IsTotalOrder<K(!new)>(le: (K, K) -> bool) {
    && (forall a :: le(a, a))
    && (forall a, b :: le(a, b) && le(b, a) ==> a == b)
    && (forall a, b, c :: le(a, b) && le(b, c) ==> le(a, c))
    && (forall a, b :: le(a, b) || le(b, a))
  }

  /** Puts `x` before the first element whose key is not smaller than its own,
      so that `x` stays ahead of the elements with an equal key. */
  function Insert<T, K>(x: T, s: seq<T>, key: T -> K, le: (K, K) -> bool): seq<T> {
    if s == [] || le(key(x), key(s[0])) then [x] + s
    else [s[0]] + Insert(x, s[1..], key, le)
  }

  function SortBy<T, K>(s: seq<T>, key: T -> K, le: (K, K) -> bool): seq<T> {
    if s == [] then [] else Insert(s[0], SortBy(s[1..], key, le), key, le)
  }

  ghost predicate SortedBy<T, K>(s: seq<T>, key: T -> K, le: (K, K) -> bool) {
    forall i, j :: 0 <= i < j < |s| ==> le(key(s[i]), key(s[j]))
  }

  /** The elements of `s` whose key is `k`, in the order of `s`. */
  function KeyFilter<T, K(==)>(s: seq<T>, key: T -> K, k: K): seq<T> {
    if s == [] then []
    else (if key(s[0]) == k then [s[0]] else []) + KeyFilter(s[1..], key, k)
  }

  /** `[f(x) for x in s]`. */
  function Project<T, U>(s: seq<T>, f: T -> U): (r: seq<U>)
    ensures |r| == |s|
    ensures forall i :: 0 <= i < |s| ==> r[i] == f(s[i])
  {
    if s == [] then [] else [f(s[0])] + Project(s[1..], f)
  }

  /** Three elements, each of whose key falls below those of all before it,
      come out reversed. */
  lemma {:induction false} SortThreeReversed<T, K>(x: T, y: T, z: T, key: T -> K, le: (K, K) -> bool)
    requires !le(key(y), key(z)) && !le(key(x), key(z)) && !le(key(x), key(y))
    ensures SortBy([x, y, z], key, le) == [z, y, x]
  {
    assert [x, y, z][1..] == [y, z] && [y, z][1..] == [z] && [z][1..] == [];
    assert SortBy([z], key, le) == [z];
    assert Insert(y, [], key, le) == [y];
    assert Insert(y, [z], key, le) == [z, y];
    assert [z, y][1..] == [y] && [y][1..] == [];
    assert Insert(x, [], key, le) == [x];
    assert Insert(x, [y], key, le) == [y, x];
    assert Insert(x, [z, y], key, le) == [z, y, x];
  }

  lemma {:induction false} InsertPermutes<T, K>(x: T, s: seq<T>, key: T -> K, le: (K, K) -> bool)
    ensures multiset(Insert(x, s, key, le)) == multiset{x} + multiset(s)
  {
    if s != [] && !le(key(x), key(s[0])) {
      InsertPermutes(x, s[1..], key, le);
      assert s == [s[0]] + s[1..];
    }
  }

  /** The sort neither loses nor duplicates an element. */
  lemma {:induction false} SortByPermutes<T, K>(s: seq<T>, key: T -> K, le: (K, K) -> bool)
    ensures multiset(SortBy(s, key, le)) == multiset(s)
    ensures |SortBy(s, key, le)| == |s|
  {
    if s != [] {
      SortByPermutes(s[1..], key, le);
      InsertPermutes(s[0], SortBy(s[1..], key, le), key, le);
      assert s == [s[0]] + s[1..];
    }
    assert |multiset(SortBy(s, key, le))| == |SortBy(s, key, le)|;
  }

  lemma {:induction false} InsertSorted<T, K(!new)>(x: T, s: seq<T>, key: T -> K, le: (K, K) -> bool)
    requires IsTotalOrder(le)
    requires SortedBy(s, key, le)
    ensures SortedBy(Insert(x, s, key, le), key, le)
  {
    if s == [] {
    } else if le(key(x), key(s[0])) {
      forall j | 0 <= j < |s| ensures le(key(x), key(s[j])) {
        if j > 0 { assert le(key(s[0]), key(s[j])); }
      }
    } else {
      var r := Insert(x, s[1..], key, le);
      InsertSorted(x, s[1..], key, le);
      InsertPermutes(x, s[1..], key, le);
      assert le(key(s[0]), key(x));
      forall j | 0 <= j < |r| ensures le(key(s[0]), key(r[j])) {
        assert r[j] in multiset(r);
        if r[j] != x {
          assert r[j] in multiset(s[1..]);
          var m :| 0 <= m < |s[1..]| && s[1..][m] == r[j];
          assert s[m + 1] == r[j];
        }
      }
      assert Insert(x, s, key, le) == [s[0]] + r;
    }
  }

  /** The sort leaves the keys in non-decreasing order. */
  lemma {:induction false} SortBySorted<T, K(!new)>(s: seq<T>, key: T -> K, le: (K, K) -> bool)
    requires IsTotalOrder(le)
    ensures SortedBy(SortBy(s, key, le), key, le)
  {
    if s != [] {
      SortBySorted(s[1..], key, le);
      InsertSorted(s[0], SortBy(s[1..], key, le), key, le);
    }
  }

  lemma {:induction false} InsertStable<T, K(!new)>(x: T, s: seq<T>, key: T -> K, le: (K, K) -> bool, k: K)
    requires IsTotalOrder(le)
    ensures KeyFilter(Insert(x, s, key, le), key, k) == KeyFilter([x] + s, key, k)
  {
    assert ([x] + s)[1..] == s;
    if s != [] && !le(key(x), key(s[0])) {
      InsertStable(x, s[1..], key, le, k);
      assert key(x) != key(s[0]);
      var r := Insert(x, s[1..], key, le);
      assert ([s[0]] + r)[1..] == r;
      assert ([x] + s[1..])[1..] == s[1..];
      assert s == [s[0]] + s[1..];
    }
  }

  /** The sort is stable: the elements that share a key keep their input order. */
  lemma {:induction false} SortByStable<T, K(!new)>(s: seq<T>, key: T -> K, le: (K, K) -> bool, k: K)
    requires IsTotalOrder(le)
    ensures KeyFilter(SortBy(s, key, le), key, k) == KeyFilter(s, key, k)
  {
    if s != [] {
      SortByStable(s[1..], key, le, k);
      InsertStable(s[0], SortBy(s[1..], key, le), key, le, k);
      assert ([s[0]] + SortBy(s[1..], key, le))[1..] == SortBy(s[1..], key, le);
    }
  }

  lemma {:induction false} InsertProjectPermutes<T, K, U>(x: T, s: seq<T>, key: T -> K, le: (K, K) -> bool, f: T -> U)
    ensures multiset(Project(Insert(x, s, key, le), f)) == multiset{f(x)} + multiset(Project(s, f))
  {
    if s == [] || le(key(x), key(s[0])) {
      assert ([x] + s)[1..] == s;
    } else {
      InsertProjectPermutes(x, s[1..], key, le, f);
      var r := Insert(x, s[1..], key, le);
      assert ([s[0]] + r)[1..] == r;
    }
  }

  /** Projecting the sorted elements gives a permutation of the projected input. */
  lemma {:induction false} SortByProjectPermutes<T, K, U>(s: seq<T>, key: T -> K, le: (K, K) -> bool, f: T -> U)
    ensures multiset(Project(SortBy(s, key, le), f)) == multiset(Project(s, f))
  {
    if s != [] {
      SortByProjectPermutes(s[1..], key, le, f);
      InsertProjectPermutes(s[0], SortBy(s[1..], key, le), key, le, f);
    }
  }

  function IntLe(a: int, b: int): bool { a <= b }

  lemma IntLeIsTotalOrder()
    ensures IsTotalOrder(IntLe)
  {
  }
}
