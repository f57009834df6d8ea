/** Stable sorting by a key, as Python's `sorted(..., key=...)` does it, and what makes it
    insensitive to the order of its input. */
module Sorting {
  import opened Common

  ghost predicate TotalOrder<K(!new)>(le: (K, K) -> bool) {
    && (forall a, b :: le(a, b) || le(b, a))
    && (forall a, b :: le(a, b) && le(b, a) ==> a == b)
    && (forall a, b, c :: le(a, b) && le(b, c) ==> le(a, c))
  }

  function Insert<T, K>(x: T, xs: seq<T>, key: T -> K, le: (K, K) -> bool): (ys: seq<T>)
    ensures multiset(ys) == multiset{x} + multiset(xs)
    ensures |ys| == |xs| + 1
  {
    if xs == [] then [x]
    else if le(key(x), key(xs[0])) then [x] + xs
    else
      assert xs == [xs[0]] + xs[1..];
      [xs[0]] + Insert(x, xs[1..], key, le)
  }

  function SortBy<T, K>(xs: seq<T>, key: T -> K, le: (K, K) -> bool): (ys: seq<T>)
    ensures multiset(ys) == multiset(xs)
    ensures |ys| == |xs|
  {
    if xs == [] then []
    else
      assert xs == [xs[0]] + xs[1..];
      Insert(xs[0], SortBy(xs[1..], key, le), key, le)
  }

  ghost predicate Sorted<T, K>(xs: seq<T>, key: T -> K, le: (K, K) -> bool) {
    forall i, j :: 0 <= i < j < |xs| ==> le(key(xs[i]), key(xs[j]))
  }

  lemma SameMembers<T>(xs: seq<T>, ys: seq<T>)
    requires multiset(xs) == multiset(ys)
    ensures forall x :: x in xs <==> x in ys
  {
    forall x
      ensures x in xs <==> x in ys
    {
      assert x in xs <==> x in multiset(xs);
      assert x in ys <==> x in multiset(ys);
    }
  }

  lemma {:induction false} InsertSorted<T, K(!new)>(x: T, xs: seq<T>, key: T -> K, le: (K, K) -> bool)
    requires TotalOrder(le) && Sorted(xs, key, le)
    ensures Sorted(Insert(x, xs, key, le), key, le)
  {
    if xs != [] && !le(key(x), key(xs[0])) {
      var rest := Insert(x, xs[1..], key, le);
      InsertSorted(x, xs[1..], key, le);
      forall j | 0 <= j < |rest|
        ensures le(key(xs[0]), key(rest[j]))
      {
        assert rest[j] in multiset(rest);
        assert rest[j] == x || rest[j] in xs[1..];
      }
    }
  }

  /** The sort sorts. */
  lemma {:induction false} SortSorted<T, K(!new)>(xs: seq<T>, key: T -> K, le: (K, K) -> bool)
    requires TotalOrder(le)
    ensures Sorted(SortBy(xs, key, le), key, le)
  {
    if xs != [] {
      SortSorted(xs[1..], key, le);
      InsertSorted(xs[0], SortBy(xs[1..], key, le), key, le);
    }
  }

  lemma {:induction false} InsertFilter<T, K(!new)>(x: T, xs: seq<T>, key: T -> K, le: (K, K) -> bool, p: T -> bool)
    requires TotalOrder(le) && Sorted(xs, key, le)
    ensures Filter(Insert(x, xs, key, le), p) ==
            if p(x) then Insert(x, Filter(xs, p), key, le) else Filter(xs, p)
  {
    if xs == [] {
    } else if le(key(x), key(xs[0])) {
      var kept := Filter(xs, p);
      assert ([x] + xs)[1..] == xs;
      if kept != [] {
        assert kept[0] in xs;
        assert le(key(x), key(kept[0]));
      }
    } else {
      InsertFilter(x, xs[1..], key, le, p);
      assert ([xs[0]] + Insert(x, xs[1..], key, le))[1..] == Insert(x, xs[1..], key, le);
      if p(xs[0]) && p(x) {
        assert ([xs[0]] + Filter(xs[1..], p))[1..] == Filter(xs[1..], p);
      }
      if !p(xs[0]) && p(x) {
        assert Filter(xs, p) == Filter(xs[1..], p);
      }
    }
  }

  /** A stable sort commutes with every filter: dropping elements never reorders the others. */
  lemma {:induction false} SortFilter<T, K(!new)>(xs: seq<T>, key: T -> K, le: (K, K) -> bool, p: T -> bool)
    requires TotalOrder(le)
    ensures Filter(SortBy(xs, key, le), p) == SortBy(Filter(xs, p), key, le)
  {
    if xs != [] {
      SortFilter(xs[1..], key, le, p);
      SortSorted(xs[1..], key, le);
      InsertFilter(xs[0], SortBy(xs[1..], key, le), key, le, p);
    }
  }

  lemma {:induction false} SortOfSorted<T, K(!new)>(xs: seq<T>, key: T -> K, le: (K, K) -> bool)
    requires Sorted(xs, key, le)
    ensures SortBy(xs, key, le) == xs
  {
    if xs != [] {
      SortOfSorted(xs[1..], key, le);
    }
  }

  /** Keeps the elements whose key is `k`. */
  function HasKey<T, K(==)>(key: T -> K, k: K): T -> bool {
    x => key(x) == k
  }

  /** Agreement at every key. */
  ghost predicate SameByKey<T(!new), K(!new)>(xs: seq<T>, ys: seq<T>, key: T -> K) {
    forall k :: Filter(xs, HasKey(key, k)) == Filter(ys, HasKey(key, k))
  }

  /** Two key-sorted sequences that agree at every key start with the same element. */
  lemma SameHead<T(!new), K(!new)>(xs: seq<T>, ys: seq<T>, key: T -> K, le: (K, K) -> bool)
    requires TotalOrder(le) && Sorted(xs, key, le) && Sorted(ys, key, le)
    requires SameByKey(xs, ys, key) && xs != []
    ensures ys != [] && xs[0] == ys[0]
  {
    var k := key(xs[0]);
    assert Filter(xs, HasKey(key, k)) == Filter(ys, HasKey(key, k));
    assert xs[0] in Filter(xs, HasKey(key, k));
    var h := key(ys[0]);
    assert Filter(xs, HasKey(key, h)) == Filter(ys, HasKey(key, h));
    assert ys[0] in Filter(ys, HasKey(key, h));
    assert le(k, h) && le(h, k);
    assert Filter(xs, HasKey(key, k))[0] == xs[0];
    assert Filter(ys, HasKey(key, k))[0] == ys[0];
  }

  lemma SameTails<T(!new), K(!new)>(xs: seq<T>, ys: seq<T>, key: T -> K)
    requires SameByKey(xs, ys, key) && xs != [] && ys != [] && xs[0] == ys[0]
    ensures SameByKey(xs[1..], ys[1..], key)
  {
    forall k
      ensures Filter(xs[1..], HasKey(key, k)) == Filter(ys[1..], HasKey(key, k))
    {
      assert Filter(xs, HasKey(key, k)) == Filter(ys, HasKey(key, k));
      if k == key(xs[0]) {
        assert Filter(xs, HasKey(key, k))[1..] == Filter(ys, HasKey(key, k))[1..];
      }
    }
  }

  /** A key-sorted sequence is determined by its subsequence at every key: a stable sort has
      exactly one possible result. */
  lemma {:induction false} SortedDetermined<T(!new), K(!new)>(xs: seq<T>, ys: seq<T>, key: T -> K, le: (K, K) -> bool)
    requires TotalOrder(le) && Sorted(xs, key, le) && Sorted(ys, key, le)
    requires SameByKey(xs, ys, key)
    ensures xs == ys
  {
    if xs == [] {
      if ys != [] {
        SameHead(ys, xs, key, le);
      }
    } else {
      SameHead(xs, ys, key, le);
      SameTails(xs, ys, key);
      SortedDetermined(xs[1..], ys[1..], key, le);
      assert xs == [xs[0]] + xs[1..] && ys == [ys[0]] + ys[1..];
    }
  }

  /** `rel` holds between any earlier and later element of equal key. */
  ghost predicate OrderedWithin<T, K>(xs: seq<T>, key: T -> K, rel: (T, T) -> bool) {
    forall i, j :: 0 <= i < j < |xs| && key(xs[i]) == key(xs[j]) ==> rel(xs[i], xs[j])
  }

  lemma {:induction false} InsertStable<T, K(!new)>(x: T, xs: seq<T>, key: T -> K, le: (K, K) -> bool,
                                                    rel: (T, T) -> bool)
    requires TotalOrder(le) && OrderedWithin(xs, key, rel)
    requires forall y :: y in xs && key(x) == key(y) ==> rel(x, y)
    ensures OrderedWithin(Insert(x, xs, key, le), key, rel)
  {
    if xs != [] && !le(key(x), key(xs[0])) {
      var rest := Insert(x, xs[1..], key, le);
      InsertStable(x, xs[1..], key, le, rel);
      forall j | 0 <= j < |rest| && key(xs[0]) == key(rest[j])
        ensures rel(xs[0], rest[j])
      {
        assert rest[j] in multiset(rest);
        assert rest[j] == x || rest[j] in xs[1..];
      }
    }
  }

  /** The sort is stable: elements of equal key keep their order. */
  lemma {:induction false} SortStable<T, K(!new)>(xs: seq<T>, key: T -> K, le: (K, K) -> bool, rel: (T, T) -> bool)
    requires TotalOrder(le) && OrderedWithin(xs, key, rel)
    ensures OrderedWithin(SortBy(xs, key, le), key, rel)
  {
    if xs != [] {
      var rest := SortBy(xs[1..], key, le);
      forall i, j | 0 <= i < j < |xs[1..]| && key(xs[1..][i]) == key(xs[1..][j])
        ensures rel(xs[1..][i], xs[1..][j])
      {
        assert xs[1..][i] == xs[i + 1] && xs[1..][j] == xs[j + 1];
      }
      SortStable(xs[1..], key, le, rel);
      SameMembers(rest, xs[1..]);
      forall y | y in rest && key(xs[0]) == key(y)
        ensures rel(xs[0], y)
      {
        assert y in multiset(rest) && y in multiset(xs[1..]);
        var j :| 0 <= j < |xs[1..]| && xs[1..][j] == y;
        assert xs[j + 1] == y;
      }
      InsertStable(xs[0], rest, key, le, rel);
    }
  }

  lemma MapCons<T, U>(x: T, xs: seq<T>, f: T -> U)
    ensures Map([x] + xs, f) == [f(x)] + Map(xs, f)
  {
  }

  lemma {:induction false} InsertMap<T, K>(x: T, xs: seq<T>, key: T -> K, le: (K, K) -> bool, f: T -> T)
    requires key(f(x)) == key(x) && forall y :: y in xs ==> key(f(y)) == key(y)
    ensures Map(Insert(x, xs, key, le), f) == Insert(f(x), Map(xs, f), key, le)
  {
    hide Map;
    if xs == [] {
      MapCons(x, [], f);
      assert Map<T, T>([], f) == [];
    } else {
      assert xs[0] in xs;
      assert xs == [xs[0]] + xs[1..];
      MapCons(xs[0], xs[1..], f);
      if le(key(x), key(xs[0])) {
        MapCons(x, xs, f);
      } else {
        InsertMap(x, xs[1..], key, le, f);
        MapCons(xs[0], Insert(x, xs[1..], key, le), f);
        assert Map(xs, f)[1..] == Map(xs[1..], f);
      }
    }
  }

  /** Sorting commutes with any change of the elements that leaves their keys alone. */
  lemma {:induction false} SortMap<T, K>(xs: seq<T>, key: T -> K, le: (K, K) -> bool, f: T -> T)
    requires forall x :: x in xs ==> key(f(x)) == key(x)
    ensures Map(SortBy(xs, key, le), f) == SortBy(Map(xs, f), key, le)
  {
    hide Map, Insert, SortBy;
    if xs == [] {
      assert Map<T, T>([], f) == [] && SortBy<T, K>([], key, le) == [];
    } else {
      var rest := xs[1..];
      SortMap(rest, key, le, f);
      assert xs == [xs[0]] + rest;
      assert xs[0] in xs && forall y :: y in rest ==> y in xs;
      forall y | y in SortBy(rest, key, le)
        ensures key(f(y)) == key(y)
      {
        assert y in multiset(SortBy(rest, key, le)) && y in multiset(rest);
      }
      SortCons(xs[0], rest, key, le);
      InsertMap(xs[0], SortBy(rest, key, le), key, le, f);
      MapCons(xs[0], rest, f);
      SortCons(f(xs[0]), Map(rest, f), key, le);
    }
  }

  lemma SortCons<T, K>(x: T, xs: seq<T>, key: T -> K, le: (K, K) -> bool)
    ensures SortBy([x] + xs, key, le) == Insert(x, SortBy(xs, key, le), key, le)
  {
    assert ([x] + xs)[1..] == xs;
  }

  /** Filtering after a map is mapping after the matching filter. */
  lemma {:induction false} FilterMap<T, U>(xs: seq<T>, f: T -> U, p: U -> bool, q: T -> bool)
    requires forall x :: x in xs ==> p(f(x)) == q(x)
    ensures Filter(Map(xs, f), p) == Map(Filter(xs, q), f)
  {
    if xs != [] {
      FilterMap(xs[1..], f, p, q);
      MapCons(xs[0], xs[1..], f);
      assert xs == [xs[0]] + xs[1..];
      assert xs[0] in xs;
      var kept := Filter(xs[1..], q);
      MapCons(xs[0], kept, f);
      hide Map;
    }
  }

  /** Groups laid out one after the other in key order. */
  function Cat<T, K(==)>(xs: seq<T>, keys: seq<K>, key: T -> K): seq<T> {
    if keys == [] then [] else Cat(xs, keys[..|keys| - 1], key) + Filter(xs, HasKey(key, Last(keys)))
  }

  lemma {:induction false} CatMembers<T, K>(xs: seq<T>, keys: seq<K>, key: T -> K)
    ensures forall x :: x in Cat(xs, keys, key) ==> x in xs && key(x) in keys
  {
    if keys != [] {
      CatMembers(xs, keys[..|keys| - 1], key);
    }
  }

  lemma {:induction false} CatByKey<T(!new), K(!new)>(xs: seq<T>, keys: seq<K>, key: T -> K, k: K)
    requires NoRepeats(keys)
    ensures Filter(Cat(xs, keys, key), HasKey(key, k)) == if k in keys then Filter(xs, HasKey(key, k)) else []
  {
    if keys != [] {
      var n := |keys| - 1;
      var group := Filter(xs, HasKey(key, keys[n]));
      CatByKey(xs, keys[..n], key, k);
      FilterConcat(Cat(xs, keys[..n], key), group, HasKey(key, k));
      if k == keys[n] {
        FilterAll(group, HasKey(key, k));
      } else {
        FilterNone(group, HasKey(key, k));
        assert k in keys <==> k in keys[..n];
      }
    }
  }

  lemma {:induction false} CatSorted<T, K(!new)>(xs: seq<T>, keys: seq<K>, key: T -> K, le: (K, K) -> bool)
    requires TotalOrder(le) && forall i, j :: 0 <= i < j < |keys| ==> le(keys[i], keys[j])
    ensures Sorted(Cat(xs, keys, key), key, le)
  {
    if keys != [] {
      var n := |keys| - 1;
      var before, group := Cat(xs, keys[..n], key), Filter(xs, HasKey(key, keys[n]));
      CatSorted(xs, keys[..n], key, le);
      CatMembers(xs, keys[..n], key);
      assert forall k :: k in keys[..n] ==> le(k, keys[n]);
      assert forall i :: 0 <= i < |before| ==> before[i] in before;
      assert forall i :: 0 <= i < |group| ==> group[i] in group;
    }
  }

  /** Grouping by key and laying the groups out in key order is the stable sort by that key. */
  lemma CatIsSort<T(!new), K(!new)>(xs: seq<T>, keys: seq<K>, key: T -> K, le: (K, K) -> bool)
    requires TotalOrder(le)
    requires NoRepeats(keys) && forall i, j :: 0 <= i < j < |keys| ==> le(keys[i], keys[j])
    requires forall x :: x in xs ==> key(x) in keys
    ensures Cat(xs, keys, key) == SortBy(xs, key, le)
  {
    hide Cat, SortBy, Sorted, Filter;
    CatSorted(xs, keys, key, le);
    SortSorted(xs, key, le);
    forall k
      ensures Filter(Cat(xs, keys, key), HasKey(key, k)) == Filter(SortBy(xs, key, le), HasKey(key, k))
    {
      SortKeepsGroup(xs, key, le, k);
      CatByKey(xs, keys, key, k);
      if k !in keys {
        FilterNone(xs, HasKey(key, k));
      }
    }
    SortedDetermined(Cat(xs, keys, key), SortBy(xs, key, le), key, le);
  }

  /** Sorting is stable: the elements of one key keep their order. */
  lemma SortKeepsGroup<T, K(!new)>(xs: seq<T>, key: T -> K, le: (K, K) -> bool, k: K)
    requires TotalOrder(le)
    ensures Filter(SortBy(xs, key, le), HasKey(key, k)) == Filter(xs, HasKey(key, k))
  {
    hide SortBy, Filter;
    var group := Filter(xs, HasKey(key, k));
    SortFilter(xs, key, le, HasKey(key, k));
    assert forall i :: 0 <= i < |group| ==> group[i] in group;
    SortOfSorted(group, key, le);
  }

  // ----- independence of the input order

  lemma {:induction false} SortedKeysUnique<K(!new)>(ks: seq<K>, ls: seq<K>, le: (K, K) -> bool)
    requires TotalOrder(le) && multiset(ks) == multiset(ls)
    requires forall i, j :: 0 <= i < j < |ks| ==> le(ks[i], ks[j])
    requires forall i, j :: 0 <= i < j < |ls| ==> le(ls[i], ls[j])
    ensures ks == ls
  {
    hide TotalOrder;
    assert |ks| == |multiset(ks)| == |multiset(ls)| == |ls|;
    if ks != [] {
      SameLeast(ks, ls, le);
      DropHead(ks);
      DropHead(ls);
      SortedKeysUnique(ks[1..], ls[1..], le);
      assert ks == [ks[0]] + ks[1..] && ls == [ls[0]] + ls[1..];
    }
  }

  lemma SameLeast<K(!new)>(ks: seq<K>, ls: seq<K>, le: (K, K) -> bool)
    requires TotalOrder(le) && multiset(ks) == multiset(ls) && ks != [] && ls != []
    requires forall i :: 0 < i < |ks| ==> le(ks[0], ks[i])
    requires forall i :: 0 < i < |ls| ==> le(ls[0], ls[i])
    ensures ks[0] == ls[0]
  {
    SameMembers(ks, ls);
    assert ks[0] in ks && ls[0] in ls;
    var i :| 0 <= i < |ls| && ls[i] == ks[0];
    var j :| 0 <= j < |ks| && ks[j] == ls[0];
    assert le(ks[0], ks[0]);
    assert le(ks[0], ls[0]) && le(ls[0], ks[0]);
  }

  lemma DropHead<T>(xs: seq<T>)
    requires xs != []
    ensures multiset(xs[1..]) == multiset(xs) - multiset{xs[0]}
  {
    assert xs == [xs[0]] + xs[1..];
  }

  function Without<T>(xs: seq<T>, i: nat): seq<T>
    requires i < |xs|
  {
    xs[..i] + xs[i + 1..]
  }

  lemma WithoutMultiset<T>(xs: seq<T>, i: nat)
    requires i < |xs|
    ensures multiset(xs) == multiset{xs[i]} + multiset(Without(xs, i))
  {
    assert xs == xs[..i] + ([xs[i]] + xs[i + 1..]);
  }

  lemma MapWithout<T, U>(xs: seq<T>, i: nat, f: T -> U)
    requires i < |xs|
    ensures multiset(Map(xs, f)) == multiset{f(xs[i])} + multiset(Map(Without(xs, i), f))
  {
    WithoutMultiset(Map(xs, f), i);
    assert Map(Without(xs, i), f) == Without(Map(xs, f), i);
  }

  lemma {:induction false} MapPermutation<T, U>(xs: seq<T>, ys: seq<T>, f: T -> U)
    requires multiset(xs) == multiset(ys)
    ensures multiset(Map(xs, f)) == multiset(Map(ys, f))
  {
    assert |xs| == |multiset(xs)| == |multiset(ys)| == |ys|;
    if xs != [] {
      SameMembers(xs, ys);
      assert xs[0] in ys;
      var i :| 0 <= i < |ys| && ys[i] == xs[0];
      hide Map, Without;
      WithoutMultiset(xs, 0);
      WithoutMultiset(ys, i);
      assert multiset(Without(xs, 0)) == multiset(xs) - multiset{xs[0]};
      assert multiset(Without(ys, i)) == multiset(ys) - multiset{xs[0]};
      MapPermutation(Without(xs, 0), Without(ys, i), f);
      MapWithout(xs, 0, f);
      MapWithout(ys, i, f);
    }
  }

  /** Sorting any permutation yields the same sequence of keys, ties included. */
  lemma SortKeysPermutation<T, K(!new)>(xs: seq<T>, ys: seq<T>, key: T -> K, le: (K, K) -> bool)
    requires TotalOrder(le) && multiset(xs) == multiset(ys)
    ensures Map(SortBy(xs, key, le), key) == Map(SortBy(ys, key, le), key)
  {
    var s, t := SortBy(xs, key, le), SortBy(ys, key, le);
    SortSorted(xs, key, le);
    SortSorted(ys, key, le);
    MapPermutation(s, t, key);
    SortedKeysUnique(Map(s, key), Map(t, key), le);
  }

  ghost predicate DistinctKeys<T, K>(xs: seq<T>, key: T -> K) {
    forall i, j :: 0 <= i < j < |xs| ==> key(xs[i]) != key(xs[j])
  }

  /** Keys shared by no two elements: then equal keys mean equal elements. */
  lemma KeyIdentifies<T, K>(xs: seq<T>, key: T -> K)
    requires DistinctKeys(xs, key)
    ensures forall x, y :: x in xs && y in xs && key(x) == key(y) ==> x == y
  {
  }

  /** With pairwise distinct keys the sorted sequence itself does not depend on the input order. */
  lemma SortPermutation<T, K(!new)>(xs: seq<T>, ys: seq<T>, key: T -> K, le: (K, K) -> bool)
    requires TotalOrder(le) && multiset(xs) == multiset(ys)
    requires DistinctKeys(xs, key)
    ensures SortBy(xs, key, le) == SortBy(ys, key, le)
  {
    var s, t := SortBy(xs, key, le), SortBy(ys, key, le);
    SortKeysPermutation(xs, ys, key, le);
    KeyIdentifies(xs, key);
    SameMembers(s, xs);
    SameMembers(t, xs);
    assert |s| == |Map(s, key)| == |Map(t, key)| == |t|;
    forall i | 0 <= i < |s|
      ensures s[i] == t[i]
    {
      assert s[i] in xs && t[i] in xs;
      assert key(s[i]) == Map(s, key)[i] == Map(t, key)[i] == key(t[i]);
    }
  }

  lemma {:induction false} CountAtMostOnce<T, K>(xs: seq<T>, key: T -> K)
    requires DistinctKeys(xs, key)
    ensures forall x :: multiset(xs)[x] == if x in xs then 1 else 0
  {
    if xs != [] {
      CountAtMostOnce(xs[1..], key);
      assert xs == [xs[0]] + xs[1..];
      assert xs[0] !in xs[1..];
    }
  }

  /** Distinct keys stay distinct in any order. */
  lemma DistinctPermutation<T, K>(xs: seq<T>, ys: seq<T>, key: T -> K)
    requires multiset(xs) == multiset(ys) && DistinctKeys(xs, key)
    ensures DistinctKeys(ys, key)
  {
    SameMembers(xs, ys);
    KeyIdentifies(xs, key);
    CountAtMostOnce(xs, key);
    forall i, j | 0 <= i < j < |ys|
      ensures key(ys[i]) != key(ys[j])
    {
      assert ys[i] in xs && ys[j] in xs;
      if ys[i] == ys[j] {
        TwiceCounted(ys, i, j);
      }
    }
  }

  lemma TwiceCounted<T>(xs: seq<T>, i: nat, j: nat)
    requires i < j < |xs| && xs[i] == xs[j]
    ensures multiset(xs)[xs[i]] >= 2
  {
    assert xs == xs[..j] + xs[j..];
    assert xs[i] == xs[..j][i] && xs[j] == xs[j..][0];
    assert multiset(xs) == multiset(xs[..j]) + multiset(xs[j..]);
  }

  lemma {:induction false} FilterMultiset<T>(xs: seq<T>, p: T -> bool)
    ensures forall x :: multiset(Filter(xs, p))[x] == if p(x) then multiset(xs)[x] else 0
  {
    if xs != [] {
      FilterMultiset(xs[1..], p);
      assert xs == [xs[0]] + xs[1..];
      assert multiset(xs) == multiset{xs[0]} + multiset(xs[1..]);
    }
  }

  /** Filtering two permutations of each other gives permutations of each other. */
  lemma FilterPermutation<T>(xs: seq<T>, ys: seq<T>, p: T -> bool)
    requires multiset(xs) == multiset(ys)
    ensures multiset(Filter(xs, p)) == multiset(Filter(ys, p))
  {
    FilterMultiset(xs, p);
    FilterMultiset(ys, p);
  }

  // ----- the orders used for keys

  function IntLe(): (int, int) -> bool {
    (a, b) => a <= b
  }

  /** Python's order on strings: by code point, a proper prefix first. */
  predicate StringLe(a: string, b: string) {
    a == [] || (b != [] && (a[0] < b[0] || (a[0] == b[0] && StringLe(a[1..], b[1..]))))
  }

  lemma {:induction false} StringLeLaws(a: string, b: string, c: string)
    ensures StringLe(a, b) || StringLe(b, a)
    ensures StringLe(a, b) && StringLe(b, a) ==> a == b
    ensures StringLe(a, b) && StringLe(b, c) ==> StringLe(a, c)
  {
    if a != [] && b != [] && a[0] == b[0] {
      StringLeLaws(a[1..], b[1..], if c == [] then c else c[1..]);
      assert a == [a[0]] + a[1..] && b == [b[0]] + b[1..];
    }
  }

  /** `a` comes before `b` in a dictionary: at the first place they differ its character is smaller, or it
      is the beginning of `b`. */
  ghost predicate Alphabetic(a: string, b: string) {
    a <= b || exists k :: 0 <= k < |a| && k < |b| && a[..k] == b[..k] && a[k] < b[k]
  }

  lemma AlphabeticTails(a: string, b: string)
    requires a != [] && b != [] && a[0] == b[0]
    ensures Alphabetic(a[1..], b[1..]) ==> Alphabetic(a, b)
    ensures Alphabetic(a, b) ==> Alphabetic(a[1..], b[1..])
  {
    var a', b' := a[1..], b[1..];
    assert a == [a[0]] + a' && b == [a[0]] + b';
    if k :| 0 <= k < |a'| && k < |b'| && a'[..k] == b'[..k] && a'[k] < b'[k] {
      assert a[..k + 1] == [a[0]] + a'[..k] == b[..k + 1];
      assert a[k + 1] < b[k + 1];
    }
    if k :| 0 <= k < |a| && k < |b| && a[..k] == b[..k] && a[k] < b[k] {
      assert a'[..k - 1] == a[..k][1..] == b[..k][1..] == b'[..k - 1];
      assert a'[k - 1] < b'[k - 1];
    }
  }

  lemma AlphabeticHeads(a: string, b: string)
    requires a == [] || b == [] || a[0] != b[0]
    ensures Alphabetic(a, b) <==> a == [] || (b != [] && a[0] < b[0])
  {
    if a != [] && b != [] {
      assert a[..0] == b[..0];
      if k :| 0 <= k < |a| && k < |b| && a[..k] == b[..k] && a[k] < b[k] {
        assert k > 0 ==> a[..k][0] == b[..k][0];
      }
    }
  }

  lemma {:induction false} StringLeIsAlphabetic(a: string, b: string)
    ensures StringLe(a, b) <==> Alphabetic(a, b)
  {
    hide Alphabetic;
    if a != [] && b != [] && a[0] == b[0] {
      StringLeIsAlphabetic(a[1..], b[1..]);
      AlphabeticTails(a, b);
    } else {
      AlphabeticHeads(a, b);
    }
  }

  function StrLe(): (string, string) -> bool {
    (a, b) => StringLe(a, b)
  }

  lemma IntOrder()
    ensures TotalOrder(IntLe())
  {
  }

  lemma StringOrder()
    ensures TotalOrder(StrLe())
  {
    forall a, b, c
      ensures StrLe()(a, b) || StrLe()(b, a)
      ensures StrLe()(a, b) && StrLe()(b, a) ==> a == b
      ensures StrLe()(a, b) && StrLe()(b, c) ==> StrLe()(a, c)
    {
      StringLeLaws(a, b, c);
    }
  }
}
