/** Sequence helpers shared by the models: counting, filtering and
    first-occurrence de-duplication, each with the laws the proofs use. */
module Collections {

  datatype Option<+T> = None | Some(value: T)

  // ---------- Counting ----------

  function Count<T>(xs: seq<T>, p: T -> bool): nat
  {
    if xs == [] then 0
    else Count(xs[..|xs| - 1], p) + (if p(xs[|xs| - 1]) then 1 else 0)
  }

  lemma {:induction false} CountAppend<T>(xs: seq<T>, x: T, p: T -> bool)
    ensures Count(xs + [x], p) == Count(xs, p) + (if p(x) then 1 else 0)
  {
    assert (xs + [x])[..|xs|] == xs;
  }

  lemma {:induction false} CountConcat<T>(xs: seq<T>, ys: seq<T>, p: T -> bool)
    ensures Count(xs + ys, p) == Count(xs, p) + Count(ys, p)
  {
    if ys == [] {
      assert xs + ys == xs;
    } else {
      var n := |ys| - 1;
      assert xs + ys == (xs + ys[..n]) + [ys[n]];
      CountAppend(xs + ys[..n], ys[n], p);
      CountConcat(xs, ys[..n], p);
    }
  }

  lemma {:induction false} CountUpdate<T>(xs: seq<T>, i: nat, x: T, p: T -> bool)
    requires i < |xs|
    ensures Count(xs[i := x], p) + (if p(xs[i]) then 1 else 0) == Count(xs, p) + (if p(x) then 1 else 0)
  {
    var n := |xs| - 1;
    if i == n {
      assert xs[i := x][..n] == xs[..n];
    } else {
      assert xs[i := x][..n] == xs[..n][i := x];
      CountUpdate(xs[..n], i, x, p);
    }
  }

  lemma {:induction false} CountBound<T>(xs: seq<T>, p: T -> bool)
    ensures Count(xs, p) <= |xs|
  {
    if xs != [] {
      CountBound(xs[..|xs| - 1], p);
    }
  }

  /** A count is the number of indices: none, one or at least two of them. */
  lemma {:induction false} CountWitness<T>(xs: seq<T>, p: T -> bool) returns (i: nat)
    requires Count(xs, p) > 0
    ensures i < |xs| && p(xs[i])
  {
    var n := |xs| - 1;
    if p(xs[n]) {
      i := n;
    } else {
      i := CountWitness(xs[..n], p);
    }
  }

  lemma {:induction false} CountOne<T>(xs: seq<T>, i: nat, p: T -> bool)
    requires i < |xs| && p(xs[i])
    ensures Count(xs, p) >= 1
  {
    var n := |xs| - 1;
    if i < n {
      CountOne(xs[..n], i, p);
    }
  }

  lemma {:induction false} CountNone<T>(xs: seq<T>, p: T -> bool)
    requires forall i :: 0 <= i < |xs| ==> !p(xs[i])
    ensures Count(xs, p) == 0
  {
    if xs != [] {
      CountNone(xs[..|xs| - 1], p);
    }
  }

  lemma {:induction false} CountTwo<T>(xs: seq<T>, i: nat, j: nat, p: T -> bool)
    requires i < j < |xs| && p(xs[i]) && p(xs[j])
    ensures Count(xs, p) >= 2
  {
    var n := |xs| - 1;
    if j < n {
      CountTwo(xs[..n], i, j, p);
    } else {
      CountOne(xs[..n], i, p);
    }
  }

  lemma {:induction false} CountMono<T>(xs: seq<T>, p: T -> bool, q: T -> bool)
    requires forall x :: x in xs && p(x) ==> q(x)
    ensures Count(xs, p) <= Count(xs, q)
  {
    if xs != [] {
      CountMono(xs[..|xs| - 1], p, q);
    }
  }

  lemma NonemptyHasMember<T>(xs: seq<T>)
    ensures xs == [] || exists x | x in xs :: x == xs[0]
  {
    if xs != [] {
      assert xs[0] in xs;
    }
  }

  lemma SplitAt<T>(xs: seq<T>, i: nat)
    requires i <= |xs|
    ensures xs == xs[..i] + xs[i..]
  {}

  lemma ConcatMoveHead<T>(xs: seq<T>, ys: seq<T>)
    requires ys != []
    ensures xs + ys == (xs + [ys[0]]) + ys[1..]
  {}

  lemma ConcatLast<T>(xs: seq<T>, ys: seq<T>)
    requires ys != []
    ensures xs + ys == (xs + ys[..|ys| - 1]) + [ys[|ys| - 1]]
  {}

  // ---------- Filtering ----------

  function Filter<T>(xs: seq<T>, p: T -> bool): seq<T>
  {
    if xs == [] then []
    else Filter(xs[..|xs| - 1], p) + (if p(xs[|xs| - 1]) then [xs[|xs| - 1]] else [])
  }

  lemma {:induction false} FilterMembers<T>(xs: seq<T>, p: T -> bool)
    ensures forall x | x in Filter(xs, p) :: x in xs && p(x)
    ensures forall x | x in xs && p(x) :: x in Filter(xs, p)
    ensures |Filter(xs, p)| <= |xs|
  {
    if xs != [] {
      FilterMembers(xs[..|xs| - 1], p);
      assert xs == xs[..|xs| - 1] + [xs[|xs| - 1]];
    }
  }

  lemma {:induction false} FilterAppend<T>(xs: seq<T>, x: T, p: T -> bool)
    ensures Filter(xs + [x], p) == Filter(xs, p) + (if p(x) then [x] else [])
  {
    assert (xs + [x])[..|xs|] == xs;
  }

  lemma {:induction false} FilterConcat<T>(xs: seq<T>, ys: seq<T>, p: T -> bool)
    ensures Filter(xs + ys, p) == Filter(xs, p) + Filter(ys, p)
  {
    if ys == [] {
      assert xs + ys == xs;
    } else {
      var n := |ys| - 1;
      assert xs + ys == (xs + ys[..n]) + [ys[n]];
      FilterAppend(xs + ys[..n], ys[n], p);
      FilterConcat(xs, ys[..n], p);
    }
  }

  lemma {:induction false} FilterAll<T>(xs: seq<T>, p: T -> bool)
    requires forall i :: 0 <= i < |xs| ==> p(xs[i])
    ensures Filter(xs, p) == xs
  {
    if xs != [] {
      FilterAll(xs[..|xs| - 1], p);
    }
  }

  lemma {:induction false} FilterNone<T>(xs: seq<T>, p: T -> bool)
    requires forall i :: 0 <= i < |xs| ==> !p(xs[i])
    ensures Filter(xs, p) == []
  {
    if xs != [] {
      FilterNone(xs[..|xs| - 1], p);
    }
  }

  lemma {:induction false} FilterSame<T>(xs: seq<T>, p: T -> bool, q: T -> bool)
    requires forall x :: p(x) <==> q(x)
    ensures Filter(xs, p) == Filter(xs, q)
  {
    if xs != [] {
      FilterSame(xs[..|xs| - 1], p, q);
    }
  }

  /** A filter keeps the leading elements it accepts at the front. */
  lemma {:induction false} FilterHead<T>(xs: seq<T>, p: T -> bool)
    requires xs != [] && p(xs[0])
    ensures Filter(xs, p) != [] && Filter(xs, p)[0] == xs[0]
  {
    if |xs| > 1 {
      FilterHead(xs[..|xs| - 1], p);
    }
  }

  lemma {:induction false} Concat3<T>(xs: seq<T>, a: seq<T>, b: seq<T>, p: T -> bool, q: T -> bool)
    ensures Count(xs + (a + b), p) == Count(xs, p) + Count(a, p) + Count(b, p)
    ensures Filter(xs + (a + b), q) == Filter(xs, q) + Filter(a, q) + Filter(b, q)
  {
    CountConcat(xs, a + b, p);
    CountConcat(a, b, p);
    FilterConcat(xs, a + b, q);
    FilterConcat(a, b, q);
  }

  // ---------- Flattening ----------

  function FlatMap<T, U>(xs: seq<T>, f: T -> seq<U>): seq<U>
  {
    if xs == [] then [] else FlatMap(xs[..|xs| - 1], f) + f(xs[|xs| - 1])
  }

  lemma {:induction false} FlatMapMember<T, U>(xs: seq<T>, f: T -> seq<U>, u: U) returns (i: nat)
    requires u in FlatMap(xs, f)
    ensures i < |xs| && u in f(xs[i])
  {
    if u in f(xs[|xs| - 1]) {
      i := |xs| - 1;
    } else {
      i := FlatMapMember(xs[..|xs| - 1], f, u);
    }
  }

  lemma {:induction false} FlatMapKeeps<T, U>(xs: seq<T>, f: T -> seq<U>, i: nat, u: U)
    requires i < |xs| && u in f(xs[i])
    ensures u in FlatMap(xs, f)
  {
    var n := |xs| - 1;
    if i < n {
      FlatMapKeeps(xs[..n], f, i, u);
    }
  }

  // ---------- First occurrences ----------

  predicate HasKey<T, K(==)>(xs: seq<T>, key: T -> K, k: K)
  {
    exists i | 0 <= i < |xs| :: key(xs[i]) == k
  }

  /** The first element of every key, in order of appearance. */
  function FirstOccurrences<T, K(==)>(xs: seq<T>, key: T -> K): (r: seq<T>)
    ensures |r| <= |xs|
  {
    if xs == [] then []
    else
      var n := |xs| - 1;
      var kept := FirstOccurrences(xs[..n], key);
      if HasKey(xs[..n], key, key(xs[n])) then kept else kept + [xs[n]]
  }

  lemma {:induction false} FirstOccurrencesAppend<T, K>(xs: seq<T>, x: T, key: T -> K)
    ensures FirstOccurrences(xs + [x], key) ==
            if HasKey(xs, key, key(x)) then FirstOccurrences(xs, key)
            else FirstOccurrences(xs, key) + [x]
  {
    assert (xs + [x])[..|xs|] == xs;
  }

  /** Kept elements come from the input, and no key is lost. */
  lemma {:induction false} FirstOccurrencesKeys<T, K>(xs: seq<T>, key: T -> K)
    ensures forall y | y in FirstOccurrences(xs, key) :: y in xs
    ensures forall k :: HasKey(FirstOccurrences(xs, key), key, k) <==> HasKey(xs, key, k)
  {
    if xs != [] {
      var n := |xs| - 1;
      var kept, all := FirstOccurrences(xs[..n], key), FirstOccurrences(xs, key);
      FirstOccurrencesKeys(xs[..n], key);
      assert xs == xs[..n] + [xs[n]];
      forall k ensures HasKey(all, key, k) <==> HasKey(xs, key, k)
      {
        HasKeyAppend(xs[..n], xs[n], key, k);
        HasKeyAppend(kept, xs[n], key, k);
      }
    }
  }

  lemma HasKeyAppend<T, K>(xs: seq<T>, x: T, key: T -> K, k: K)
    ensures HasKey(xs + [x], key, k) <==> HasKey(xs, key, k) || key(x) == k
  {
    if HasKey(xs, key, k) {
      var i :| 0 <= i < |xs| && key(xs[i]) == k;
      assert (xs + [x])[i] == xs[i];
    }
    assert (xs + [x])[|xs|] == x;
  }

  /** One more element of xs, for a loop that looks at them in turn. */
  lemma FirstOccurrencesNext<T, K>(xs: seq<T>, i: nat, key: T -> K)
    requires i < |xs|
    ensures FirstOccurrences(xs[..i + 1], key) ==
            if HasKey(xs[..i], key, key(xs[i])) then FirstOccurrences(xs[..i], key)
            else FirstOccurrences(xs[..i], key) + [xs[i]]
    ensures forall k :: HasKey(xs[..i + 1], key, k) <==> HasKey(xs[..i], key, k) || key(xs[i]) == k
  {
    assert xs[..i + 1] == xs[..i] + [xs[i]];
    FirstOccurrencesAppend(xs[..i], xs[i], key);
    forall k ensures HasKey(xs[..i + 1], key, k) <==> HasKey(xs[..i], key, k) || key(xs[i]) == k
    {
      HasKeyAppend(xs[..i], xs[i], key, k);
    }
  }

  ghost predicate DistinctKeys<T, K>(xs: seq<T>, key: T -> K)
  {
    forall i, j :: 0 <= i < j < |xs| ==> key(xs[i]) != key(xs[j])
  }

  lemma {:induction false} FirstOccurrencesDistinct<T, K>(xs: seq<T>, key: T -> K)
    ensures DistinctKeys(FirstOccurrences(xs, key), key)
  {
    if xs != [] {
      var n := |xs| - 1;
      FirstOccurrencesDistinct(xs[..n], key);
      FirstOccurrencesKeys(xs[..n], key);
      assert HasKey(FirstOccurrences(xs[..n], key), key, key(xs[n])) <==> HasKey(xs[..n], key, key(xs[n]));
    }
  }

  /** Each kept element is the one with the least index among those of its key. */
  lemma {:induction false} FirstOccurrencesFirst<T, K>(xs: seq<T>, key: T -> K, y: T)
    requires y in FirstOccurrences(xs, key)
    ensures exists i :: 0 <= i < |xs| && xs[i] == y && forall j :: 0 <= j < i ==> key(xs[j]) != key(y)
  {
    var n := |xs| - 1;
    if y in FirstOccurrences(xs[..n], key) {
      FirstOccurrencesFirst(xs[..n], key, y);
      var i :| 0 <= i < n && xs[..n][i] == y && forall j :: 0 <= j < i ==> key(xs[..n][j]) != key(y);
      assert xs[i] == y;
      assert forall j :: 0 <= j < i ==> xs[j] == xs[..n][j];
    } else {
      assert y == xs[n];
      assert forall j :: 0 <= j < n ==> xs[j] in xs[..n];
    }
  }

  lemma {:induction false} FirstOccurrencesOfDistinct<T, K>(xs: seq<T>, key: T -> K)
    requires DistinctKeys(xs, key)
    ensures FirstOccurrences(xs, key) == xs
  {
    if xs != [] {
      var n := |xs| - 1;
      FirstOccurrencesOfDistinct(xs[..n], key);
      assert forall y :: y in xs[..n] ==> exists i :: 0 <= i < n && xs[i] == y;
    }
  }

  /** What comes later never displaces what was kept before. */
  lemma {:induction false} FirstOccurrencesPrefix<T, K>(xs: seq<T>, ys: seq<T>, key: T -> K)
    ensures FirstOccurrences(xs, key) <= FirstOccurrences(xs + ys, key)
  {
    if ys == [] {
      assert xs + ys == xs;
    } else {
      var n := |ys| - 1;
      assert xs + ys == (xs + ys[..n]) + [ys[n]];
      FirstOccurrencesAppend(xs + ys[..n], ys[n], key);
      FirstOccurrencesPrefix(xs, ys[..n], key);
    }
  }
}
