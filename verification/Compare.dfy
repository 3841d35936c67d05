/** pkg/internal/compare/compare.go: the keyed difference and the keyed pairing. */
module Compare {
  import opened Seqs

  /** The map a loop `m[key(x)] = x` leaves behind: the last item of a key wins. */
  function Index<T, K(==)>(s: seq<T>, key: T -> K): (m: map<K, T>)
    ensures m.Keys == KeySet(s, key)
    ensures forall k :: k in m ==> m[k] in s && key(m[k]) == k
  {
    if s == [] then map[] else
      var n := |s| - 1;
      assert s == s[..n] + [s[n]];
      Index(s[..n], key)[key(s[n]) := s[n]]
  }

  /** What `Index` holds for a key is the last item with that key. */
  lemma {:induction false} IndexIsLast<T, K>(s: seq<T>, key: T -> K, i: nat)
    requires i < |s|
    requires forall j :: i < j < |s| ==> key(s[j]) != key(s[i])
    ensures key(s[i]) in Index(s, key) && Index(s, key)[key(s[i])] == s[i]
  {
    var n := |s| - 1;
    if i < n {
      IndexIsLast(s[..n], key, i);
    }
  }

  /** With distinct keys, every item is the one found under its key. */
  lemma IndexDistinct<T(!new), K(!new)>(s: seq<T>, key: T -> K, x: T)
    requires Distinct(s, key) && x in s
    ensures key(x) in Index(s, key) && Index(s, key)[key(x)] == x
  {
    DistinctSame(s, key, x, Index(s, key)[key(x)]);
  }

  /** `xs` lists, in some order and without repetition, what `m` holds for the keys `ks`. */
  ghost predicate Enumerates<T(!new), K(!new)>(xs: seq<T>, m: map<K, T>, ks: set<K>, key: T -> K) {
    && Distinct(xs, key)
    && KeySet(xs, key) == ks
    && forall x :: x in xs ==> key(x) in m && m[key(x)] == x
  }

  /** Every pair of lists that `Diff` may return, whatever order Go iterates its maps in. */
  ghost predicate IsDiff<T(!new), K(!new)>(
    desired: seq<T>, actual: seq<T>, key: T -> K, toDelete: seq<T>, toCreate: seq<T>)
  {
    var d, a := Index(desired, key), Index(actual, key);
    && Enumerates(toCreate, d, d.Keys - a.Keys, key)
    && Enumerates(toDelete, a, a.Keys - d.Keys, key)
  }

  /** Lists in arbitrary order the values of `m` whose key `other` lacks. */
  method Lacking<T(!new), K(==, !new)>(m: map<K, T>, other: set<K>, ghost key: T -> K) returns (xs: seq<T>)
    requires forall k :: k in m ==> key(m[k]) == k
    ensures Enumerates(xs, m, m.Keys - other, key)
  {
    xs := [];
    var rest := m.Keys;
    while rest != {}
      invariant rest <= m.Keys
      invariant Distinct(xs, key)
      invariant KeySet(xs, key) == (m.Keys - rest) - other
      invariant forall x :: x in xs ==> key(x) in m && m[key(x)] == x
      decreases rest
    {
      var k :| k in rest;
      rest := rest - {k};
      if k !in other {
        assert forall x :: x in xs ==> key(x) in KeySet(xs, key);
        ghost var before := xs;
        xs := xs + [m[k]];
        assert KeySet(xs, key) == KeySet(before, key) + {k} by {
          assert m[k] in xs;
          assert forall x :: x in before ==> x in xs;
        }
      }
    }
  }

  method Diff<T(!new), K(==, !new)>(desired: seq<T>, actual: seq<T>, key: T -> K)
    returns (toDelete: seq<T>, toCreate: seq<T>)
    ensures IsDiff(desired, actual, key, toDelete, toCreate)
  {
    var d: map<K, T>, a: map<K, T> := map[], map[];
    for i := 0 to |desired|
      invariant d == Index(desired[..i], key)
    {
      d := d[key(desired[i]) := desired[i]];
      assert desired[..i + 1][..i] == desired[..i];
    }
    for i := 0 to |actual|
      invariant a == Index(actual[..i], key)
    {
      a := a[key(actual[i]) := actual[i]];
      assert actual[..i + 1][..i] == actual[..i];
    }
    assert desired[..|desired|] == desired && actual[..|actual|] == actual;
    toCreate := Lacking(d, a.Keys, key);
    toDelete := Lacking(a, d.Keys, key);
  }

  /** Each item of `xs` whose key `m` holds, with what `m` holds for it. */
  function Paired<T(!new), K(==, !new)>(xs: seq<T>, m: map<K, T>, key: T -> K): (r: seq<(T, T)>)
  {
    if xs == [] then [] else
      var n := |xs| - 1;
      Paired(xs[..n], m, key) + (if key(xs[n]) in m then [(xs[n], m[key(xs[n])])] else [])
  }

  /** The pairs `Match` returns: each item of `xs` whose key occurs in `ys`, with the last such `y`. */
  function Matched<T(!new), K(==, !new)>(xs: seq<T>, ys: seq<T>, key: T -> K): (r: seq<(T, T)>)
  {
    Paired(xs, Index(ys, key), key)
  }

  method Match<T(!new), K(==, !new)>(xs: seq<T>, ys: seq<T>, key: T -> K) returns (matches: seq<(T, T)>)
    ensures matches == Matched(xs, ys, key)
  {
    var keys: map<K, T> := map[];
    matches := [];
    for i := 0 to |ys|
      invariant keys == Index(ys[..i], key)
    {
      keys := keys[key(ys[i]) := ys[i]];
      assert ys[..i + 1][..i] == ys[..i];
    }
    assert ys[..|ys|] == ys;
    for i := 0 to |xs|
      invariant matches == Paired(xs[..i], keys, key)
    {
      assert xs[..i + 1][..i] == xs[..i];
      if key(xs[i]) in keys {
        matches := matches + [(xs[i], keys[key(xs[i])])];
      }
    }
    assert xs[..|xs|] == xs;
  }

  // ---------------------------------------------------------------- properties

  /** Nothing to create means that Match pairs every desired item, in order, with the item Diff saw. */
  lemma {:induction false} PairsAll<T(!new), K(!new)>(xs: seq<T>, m: map<K, T>, key: T -> K)
    requires forall x :: x in xs ==> key(x) in m
    ensures |Paired(xs, m, key)| == |xs|
    ensures forall i :: 0 <= i < |xs| ==> Paired(xs, m, key)[i] == (xs[i], m[key(xs[i])])
  {
    if xs != [] {
      var n := |xs| - 1;
      assert forall x :: x in xs[..n] ==> x in xs;
      PairsAll(xs[..n], m, key);
      assert xs[n] in xs;
      assert Paired(xs, m, key) == Paired(xs[..n], m, key) + [(xs[n], m[key(xs[n])])];
    }
  }

  /** What Diff lists for deletion has undesired keys only, and reaches every undesired key. */
  lemma DeletesUndesired<T(!new), K(!new)>(
    desired: seq<T>, actual: seq<T>, key: T -> K, toDelete: seq<T>, toCreate: seq<T>)
    requires IsDiff(desired, actual, key, toDelete, toCreate)
    ensures forall x :: x in toDelete ==> x in actual && key(x) !in KeySet(desired, key)
    ensures forall x :: x in actual && key(x) !in KeySet(desired, key) ==> exists y :: y in toDelete && key(y) == key(x)
  {
    forall x | x in toDelete
      ensures x in actual && key(x) !in KeySet(desired, key)
    {
      assert key(x) in KeySet(toDelete, key);
    }
    forall x | x in actual && key(x) !in KeySet(desired, key)
      ensures exists y :: y in toDelete && key(y) == key(x)
    {
      assert key(x) in KeySet(actual, key);
      assert key(x) in KeySet(toDelete, key);
    }
  }

  /** What Diff lists for creation is desired and missing, and reaches every missing key. */
  lemma CreatesMissing<T(!new), K(!new)>(
    desired: seq<T>, actual: seq<T>, key: T -> K, toDelete: seq<T>, toCreate: seq<T>)
    requires IsDiff(desired, actual, key, toDelete, toCreate)
    ensures forall x :: x in toCreate ==> x in desired && key(x) !in KeySet(actual, key)
    ensures forall x :: x in desired && key(x) !in KeySet(actual, key) ==> exists y :: y in toCreate && key(y) == key(x)
  {
    forall x | x in toCreate
      ensures x in desired && key(x) !in KeySet(actual, key)
    {
      assert key(x) in KeySet(toCreate, key);
    }
    forall x | x in desired && key(x) !in KeySet(actual, key)
      ensures exists y :: y in toCreate && key(y) == key(x)
    {
      assert key(x) in KeySet(desired, key);
      assert key(x) in KeySet(toCreate, key);
    }
  }

  /** Deleting what Diff says to delete, one item at a time, and adding what it says to create,
      reaches the desired keys, if and only if no undesired key was there twice. */
  lemma DiffReaches<T(!new), K(!new)>(
    desired: seq<T>, actual: seq<T>, key: T -> K, toDelete: seq<T>, toCreate: seq<T>, left: seq<T>)
    requires IsDiff(desired, actual, key, toDelete, toCreate)
    requires forall x :: x in left <==> x in actual && x !in toDelete
    ensures KeySet(left + toCreate, key) == KeySet(desired, key)
       <==> (forall x, y :: x in actual && y in actual && key(x) == key(y) && key(x) !in KeySet(desired, key) ==> x == y)
  {
    var all := left + toCreate;
    var want := KeySet(desired, key);
    DeletesUndesired(desired, actual, key, toDelete, toCreate);
    CreatesMissing(desired, actual, key, toDelete, toCreate);
    forall k | k in want
      ensures k in KeySet(all, key)
    {
      if k in KeySet(actual, key) {
        var x :| x in actual && key(x) == k;
        assert x in all;
      } else {
        var x :| x in desired && key(x) == k;
        var y :| y in toCreate && key(y) == key(x);
        assert y in all;
      }
    }
    if x, y :| x in actual && y in actual && key(x) == key(y) && key(x) !in want && x != y {
      var a := Index(actual, key);
      assert x in toDelete ==> a[key(x)] == x;
      assert y in toDelete ==> a[key(x)] == y;
      var z := if x in toDelete then y else x;
      assert z in all;
      assert key(z) in KeySet(all, key);
    } else {
      forall x | x in left
        ensures key(x) in want
      {
        assert key(x) !in want ==> exists y :: y in toDelete && key(y) == key(x);
      }
    }
  }

  /** Two results of Diff hold the same items, whatever order the maps were iterated in. */
  lemma DiffOrderIrrelevant<T(!new), K(!new)>(
    desired: seq<T>, actual: seq<T>, key: T -> K, del1: seq<T>, cre1: seq<T>, del2: seq<T>, cre2: seq<T>)
    requires IsDiff(desired, actual, key, del1, cre1) && IsDiff(desired, actual, key, del2, cre2)
    ensures multiset(del1) == multiset(del2) && multiset(cre1) == multiset(cre2)
  {
    var d, a := Index(desired, key), Index(actual, key);
    EnumerationsAgree(del1, del2, a, a.Keys - d.Keys, key);
    EnumerationsAgree(cre1, cre2, d, d.Keys - a.Keys, key);
  }

  lemma EnumerationsAgree<T(!new), K(!new)>(xs: seq<T>, ys: seq<T>, m: map<K, T>, ks: set<K>, key: T -> K)
    requires Enumerates(xs, m, ks, key) && Enumerates(ys, m, ks, key)
    ensures multiset(xs) == multiset(ys)
  {
    EnumerationSubset(xs, ys, m, ks, key);
    EnumerationSubset(ys, xs, m, ks, key);
    OnceEach(xs, key);
    OnceEach(ys, key);
    forall x: T
      ensures multiset(xs)[x] == multiset(ys)[x]
    {
      assert x in multiset(xs) <==> x in xs;
      assert x in multiset(ys) <==> x in ys;
    }
  }

  lemma EnumerationSubset<T(!new), K(!new)>(xs: seq<T>, ys: seq<T>, m: map<K, T>, ks: set<K>, key: T -> K)
    requires Enumerates(xs, m, ks, key) && Enumerates(ys, m, ks, key)
    ensures forall x :: x in xs ==> x in ys
  {
    forall x | x in xs
      ensures x in ys
    {
      assert key(x) in KeySet(xs, key);
      var y :| y in ys && key(y) == key(x);
    }
  }

  lemma {:induction false} OnceEach<T(!new), K(!new)>(xs: seq<T>, key: T -> K)
    requires Distinct(xs, key)
    ensures forall x :: x in xs ==> multiset(xs)[x] == 1
  {
    if xs != [] {
      var n := |xs| - 1;
      OnceEach(xs[..n], key);
      assert xs == xs[..n] + [xs[n]];
      assert xs[n] !in xs[..n];
      assert multiset(xs[..n])[xs[n]] == 0;
    }
  }
}
