/** Python's sorted(key=...): a stable sort by a numeric key, with the facts
    that determine its result. */
module StableSort {
  import opened Collections

  function Insert<T>(xs: seq<T>, x: T, key: T -> real): seq<T>
  {
    if xs == [] || key(xs[|xs| - 1]) <= key(x) then xs + [x]
    else Insert(xs[..|xs| - 1], x, key) + [xs[|xs| - 1]]
  }

  function Sort<T>(xs: seq<T>, key: T -> real): seq<T>
  {
    if xs == [] then [] else Insert(Sort(xs[..|xs| - 1], key), xs[|xs| - 1], key)
  }

  ghost predicate Sorted<T>(xs: seq<T>, key: T -> real)
  {
    forall i, j :: 0 <= i < j < |xs| ==> key(xs[i]) <= key(xs[j])
  }

  /** Selects the elements whose key is k. */
  function WithKey<T>(key: T -> real, k: real): T -> bool
  {
    x => key(x) == k
  }

  lemma {:induction false} InsertFacts<T>(xs: seq<T>, x: T, key: T -> real)
    requires Sorted(xs, key)
    ensures Sorted(Insert(xs, x, key), key)
    ensures multiset(Insert(xs, x, key)) == multiset(xs) + multiset{x}
  {
    if xs == [] || key(xs[|xs| - 1]) <= key(x) {
      assert Insert(xs, x, key) == xs + [x];
    } else {
      var n := |xs| - 1;
      InsertFacts(xs[..n], x, key);
      var r := Insert(xs[..n], x, key);
      MultisetSplit(xs);
      forall i | 0 <= i < |r| ensures key(r[i]) <= key(xs[n])
      {
        assert r[i] in multiset(r);
        if r[i] != x {
          assert r[i] in xs[..n];
        }
      }
      SortedAppend(r, xs[n], key);
    }
  }

  lemma MultisetSplit<T>(xs: seq<T>)
    requires xs != []
    ensures multiset(xs) == multiset(xs[..|xs| - 1]) + multiset{xs[|xs| - 1]}
  {
    assert xs == xs[..|xs| - 1] + [xs[|xs| - 1]];
  }

  lemma SortedAppend<T>(xs: seq<T>, x: T, key: T -> real)
    requires Sorted(xs, key)
    requires forall i :: 0 <= i < |xs| ==> key(xs[i]) <= key(x)
    ensures Sorted(xs + [x], key)
  {}

  /** The elements of xs followed by x, restricted to key k. */
  function Then<T>(xs: seq<T>, x: T, key: T -> real, k: real): seq<T>
  {
    Filter(xs, WithKey(key, k)) + (if key(x) == k then [x] else [])
  }

  lemma ThenBefore<T>(before: seq<T>, last: T, x: T, key: T -> real, k: real)
    requires key(last) > key(x)
    ensures Then(before, x, key, k) + (if key(last) == k then [last] else []) == Then(before + [last], x, key, k)
  {
    FilterAppend(before, last, WithKey(key, k));
  }

  lemma {:induction false} InsertStable<T>(xs: seq<T>, x: T, key: T -> real, k: real)
    ensures Filter(Insert(xs, x, key), WithKey(key, k)) == Then(xs, x, key, k)
  {
    if xs == [] || key(xs[|xs| - 1]) <= key(x) {
      FilterAppend(xs, x, WithKey(key, k));
    } else {
      var n := |xs| - 1;
      InsertStable(xs[..n], x, key, k);
      FilterAppend(Insert(xs[..n], x, key), xs[n], WithKey(key, k));
      ThenBefore(xs[..n], xs[n], x, key, k);
      assert xs == xs[..n] + [xs[n]];
    }
  }

  lemma {:induction false} SortIsSorted<T>(xs: seq<T>, key: T -> real)
    ensures Sorted(Sort(xs, key), key)
    ensures multiset(Sort(xs, key)) == multiset(xs)
  {
    if xs != [] {
      var n := |xs| - 1;
      SortIsSorted(xs[..n], key);
      InsertFacts(Sort(xs[..n], key), xs[n], key);
      MultisetSplit(xs);
    }
  }

  lemma SameElements<T>(xs: seq<T>, ys: seq<T>)
    requires multiset(xs) == multiset(ys)
    ensures |xs| == |ys|
    ensures forall x :: x in xs <==> x in ys
  {
    assert |multiset(xs)| == |multiset(ys)|;
    forall x ensures x in xs <==> x in ys
    {
      assert x in multiset(xs) <==> x in multiset(ys);
    }
  }

  lemma {:induction false} SortFacts<T>(xs: seq<T>, key: T -> real)
    ensures Sorted(Sort(xs, key), key)
    ensures multiset(Sort(xs, key)) == multiset(xs)
    ensures |Sort(xs, key)| == |xs|
    ensures forall x :: x in Sort(xs, key) <==> x in xs
  {
    SortIsSorted(xs, key);
    SameElements(Sort(xs, key), xs);
  }

  /** Elements with equal keys keep their input order. */
  lemma {:induction false} SortStable<T>(xs: seq<T>, key: T -> real, k: real)
    ensures Filter(Sort(xs, key), WithKey(key, k)) == Filter(xs, WithKey(key, k))
  {
    if xs != [] {
      var n := |xs| - 1;
      SortStable(xs[..n], key, k);
      InsertStable(Sort(xs[..n], key), xs[n], key, k);
    }
  }

  lemma {:induction false} FilterDropLast<T>(xs: seq<T>, ys: seq<T>, key: T -> real, k: real)
    requires xs != [] && ys != [] && key(xs[|xs| - 1]) == key(ys[|ys| - 1])
    requires Filter(xs, WithKey(key, k)) == Filter(ys, WithKey(key, k))
    ensures Filter(xs[..|xs| - 1], WithKey(key, k)) == Filter(ys[..|ys| - 1], WithKey(key, k))
  {
    var fx, fy := Filter(xs[..|xs| - 1], WithKey(key, k)), Filter(ys[..|ys| - 1], WithKey(key, k));
    if key(xs[|xs| - 1]) == k {
      assert fx + [xs[|xs| - 1]] == fy + [ys[|ys| - 1]];
      assert fx == (fx + [xs[|xs| - 1]])[..|fx|];
      assert fy == (fy + [ys[|ys| - 1]])[..|fx|];
    } else {
      assert fx == Filter(xs, WithKey(key, k)) == Filter(ys, WithKey(key, k)) == fy;
    }
  }

  /** The two sequences hold the same elements of every key, in the same order. */
  ghost predicate SameClasses<T>(xs: seq<T>, ys: seq<T>, key: T -> real)
  {
    forall k :: Filter(xs, WithKey(key, k)) == Filter(ys, WithKey(key, k))
  }

  lemma SameLastKey<T>(xs: seq<T>, ys: seq<T>, key: T -> real)
    requires Sorted(xs, key) && Sorted(ys, key) && SameClasses(xs, ys, key) && xs != []
    ensures ys != [] && key(ys[|ys| - 1]) >= key(xs[|xs| - 1])
  {
    var x := xs[|xs| - 1];
    FilterMembers(xs, WithKey(key, key(x)));
    FilterMembers(ys, WithKey(key, key(x)));
    assert x in Filter(ys, WithKey(key, key(x)));
  }

  lemma SameLast<T>(xs: seq<T>, ys: seq<T>, key: T -> real)
    requires xs != [] && ys != [] && key(xs[|xs| - 1]) == key(ys[|ys| - 1])
    requires SameClasses(xs, ys, key)
    ensures xs[|xs| - 1] == ys[|ys| - 1]
  {
    var p := WithKey(key, key(xs[|xs| - 1]));
    assert Filter(xs, p)[|Filter(xs, p)| - 1] == xs[|xs| - 1];
    assert Filter(ys, p)[|Filter(ys, p)| - 1] == ys[|ys| - 1];
  }

  /** Sortedness and stability leave no choice: at most one sequence has both. */
  lemma {:induction false} StableSortUnique<T>(xs: seq<T>, ys: seq<T>, key: T -> real)
    requires Sorted(xs, key) && Sorted(ys, key) && SameClasses(xs, ys, key)
    ensures xs == ys
  {
    if xs == [] {
      if ys != [] {
        SameLastKey(ys, xs, key);
      }
    } else {
      SameLastKey(xs, ys, key);
      SameLastKey(ys, xs, key);
      SameLast(xs, ys, key);
      var n, m := |xs| - 1, |ys| - 1;
      forall k ensures Filter(xs[..n], WithKey(key, k)) == Filter(ys[..m], WithKey(key, k))
      {
        FilterDropLast(xs, ys, key, k);
      }
      StableSortUnique(xs[..n], ys[..m], key);
      assert xs == xs[..n] + [xs[n]] && ys == ys[..m] + [ys[m]];
    }
  }

  /** The elements of least key come first, in input order. */
  lemma {:induction false} LeastClassFirst<T>(ys: seq<T>, key: T -> real, k: real)
    requires Sorted(ys, key)
    requires forall y :: y in ys ==> k <= key(y)
    ensures Filter(ys, WithKey(key, k)) <= ys
  {
    if ys != [] {
      var n := |ys| - 1;
      var p := WithKey(key, k);
      LeastClassFirst(ys[..n], key, k);
      assert ys == ys[..n] + [ys[n]];
      if key(ys[n]) == k {
        FilterAll(ys, p);
      }
    }
  }

  lemma SortedSplit<T>(kept: seq<T>, dropped: seq<T>, key: T -> real)
    requires Sorted(kept + dropped, key)
    ensures Sorted(kept, key)
    ensures forall k, d :: k in kept && d in dropped ==> key(k) <= key(d)
  {
    var sorted := kept + dropped;
    assert forall i :: 0 <= i < |kept| ==> kept[i] == sorted[i];
    forall k, d | k in kept && d in dropped ensures key(k) <= key(d)
    {
      var i :| 0 <= i < |kept| && kept[i] == k;
      var j :| 0 <= j < |dropped| && dropped[j] == d;
      assert sorted[i] == k && sorted[|kept| + j] == d;
    }
  }

  /** The elements of the given key come as in xs, without the last ones. */
  ghost predicate KeepsFirst<T>(xs: seq<T>, kept: seq<T>, key: T -> real, k: real)
  {
    Filter(kept, WithKey(key, k)) <= Filter(xs, WithKey(key, k))
  }

  /** kept and dropped are a fair division of xs: kept comes in order of the key, nothing
      dropped has a smaller key than anything kept, and of the elements of equal key the
      first ones are kept, in input order. */
  ghost predicate FairChoice<T>(xs: seq<T>, kept: seq<T>, dropped: seq<T>, key: T -> real)
  {
    && multiset(kept) + multiset(dropped) == multiset(xs)
    && Sorted(kept, key)
    && (forall k, d :: k in kept && d in dropped ==> key(k) <= key(d))
    && (forall k :: KeepsFirst(xs, kept, key, k))
  }

  lemma {:induction false} PrefixStable<T>(xs: seq<T>, kept: seq<T>, dropped: seq<T>, key: T -> real, k: real)
    requires Sort(xs, key) == kept + dropped
    ensures KeepsFirst(xs, kept, key, k)
  {
    SortStable(xs, key, k);
    FilterConcat(kept, dropped, WithKey(key, k));
  }

  lemma {:induction false} PrefixIsFair<T>(xs: seq<T>, kept: seq<T>, dropped: seq<T>, key: T -> real)
    requires Sort(xs, key) == kept + dropped
    ensures FairChoice(xs, kept, dropped, key)
  {
    SortIsSorted(xs, key);
    SortedSplit(kept, dropped, key);
    forall k ensures KeepsFirst(xs, kept, key, k)
    {
      PrefixStable(xs, kept, dropped, key, k);
    }
  }

  /** Some occurrence of d in xs is not among the kept ones. */
  predicate LeftOut<T(==)>(xs: seq<T>, kept: seq<T>, d: T)
  {
    multiset(kept)[d] < multiset(xs)[d]
  }

  /** Among the first of the sorted elements nothing is missing that has a smaller key. */
  lemma {:induction false} PrefixKeepsLeast<T>(xs: seq<T>, kept: seq<T>, key: T -> real)
    requires kept <= Sort(xs, key)
    ensures forall x :: multiset(kept)[x] <= multiset(xs)[x]
    ensures forall i, j :: 0 <= i < j < |kept| ==> key(kept[i]) <= key(kept[j])
    ensures forall d, k | LeftOut(xs, kept, d) && k in kept :: key(k) <= key(d)
    ensures forall k :: KeepsFirst(xs, kept, key, k)
  {
    var dropped := Sort(xs, key)[|kept|..];
    assert Sort(xs, key) == kept + dropped;
    PrefixIsFair(xs, kept, dropped, key);
    forall d, k | LeftOut(xs, kept, d) && k in kept ensures key(k) <= key(d)
    {
      assert multiset(dropped)[d] > 0;
    }
  }

  lemma {:induction false} InsertMembers<T>(xs: seq<T>, x: T, order: T -> real)
    ensures forall y :: y in Insert(xs, x, order) ==> y in xs || y == x
  {
    if xs != [] && order(xs[|xs| - 1]) > order(x) {
      InsertMembers(xs[..|xs| - 1], x, order);
    }
  }

  lemma {:induction false} InsertKeepsDistinct<T, K>(xs: seq<T>, x: T, order: T -> real, key: T -> K)
    requires DistinctKeys(xs, key) && forall i :: 0 <= i < |xs| ==> key(xs[i]) != key(x)
    ensures DistinctKeys(Insert(xs, x, order), key)
  {
    if xs != [] && order(xs[|xs| - 1]) > order(x) {
      var n := |xs| - 1;
      InsertKeepsDistinct(xs[..n], x, order, key);
      var r := Insert(xs[..n], x, order);
      InsertMembers(xs[..n], x, order);
      forall i | 0 <= i < |r| ensures key(r[i]) != key(xs[n])
      {
        assert r[i] in r;
        if r[i] != x {
          var j :| 0 <= j < n && xs[..n][j] == r[i];
          assert xs[j] == r[i];
        }
      }
    }
  }

  lemma SortMember<T>(xs: seq<T>, order: T -> real, i: nat)
    requires i < |Sort(xs, order)|
    ensures Sort(xs, order)[i] in xs
  {
    SortIsSorted(xs, order);
    assert Sort(xs, order)[i] in multiset(Sort(xs, order));
  }

  /** Sorting keeps pairwise different keys of any other kind different. */
  lemma {:induction false} SortKeepsDistinct<T, K>(xs: seq<T>, order: T -> real, key: T -> K)
    requires DistinctKeys(xs, key)
    ensures DistinctKeys(Sort(xs, order), key)
  {
    if xs != [] {
      var n := |xs| - 1;
      SortKeepsDistinct(xs[..n], order, key);
      var before := xs[..n];
      SortFacts(before, order);
      var sorted := Sort(before, order);
      forall i | 0 <= i < |sorted| ensures key(sorted[i]) != key(xs[n])
      {
        SortMember(before, order, i);
        var j :| 0 <= j < |before| && before[j] == sorted[i];
        assert xs[j] == sorted[i];
      }
      InsertKeepsDistinct(sorted, xs[n], order, key);
    }
  }

  lemma {:induction false} SortOfSorted<T>(xs: seq<T>, key: T -> real)
    requires Sorted(xs, key)
    ensures Sort(xs, key) == xs
  {
    if xs != [] {
      SortOfSorted(xs[..|xs| - 1], key);
      assert xs == xs[..|xs| - 1] + [xs[|xs| - 1]];
    }
  }
}
