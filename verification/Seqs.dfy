/** Filtering and mapping of sequences, as Go's `for … append` loops do it. */
module Seqs {

  datatype Option<+T> = None | Some(value: T)

  datatype Result<+T, +E> = Success(value: T) | Failure(error: E)

  function Map<A, B>(s: seq<A>, f: A -> B): (r: seq<B>)
    ensures |r| == |s| && forall i :: 0 <= i < |s| ==> r[i] == f(s[i])
  {
    seq(|s|, i requires 0 <= i < |s| => f(s[i]))
  }

  /** The lists `f` makes of the elements of `s`, one after the other. */
  function Flat<A, B>(s: seq<A>, f: A -> seq<B>): seq<B> {
    if s == [] then [] else
      var n := |s| - 1;
      Flat(s[..n], f) + f(s[n])
  }

  lemma FlatLast<A, B>(s: seq<A>, x: A, f: A -> seq<B>)
    ensures Flat(s + [x], f) == Flat(s, f) + f(x)
  {
    assert (s + [x])[..|s|] == s;
  }

  lemma FlatStep<A, B>(s: seq<A>, f: A -> seq<B>, i: nat)
    requires i < |s|
    ensures Flat(s[..i + 1], f) == Flat(s[..i], f) + f(s[i])
  {
    assert s[..i + 1][..i] == s[..i];
  }

  lemma FlatWhole<A, B>(s: seq<A>, f: A -> seq<B>)
    ensures Flat(s[..|s|], f) == Flat(s, f)
  {
    assert s[..|s|] == s;
  }

  lemma FlatNil<A, B>(f: A -> seq<B>)
    ensures Flat([], f) == []
  {
  }

  lemma {:induction false} FlatConcat<A, B>(a: seq<A>, b: seq<A>, f: A -> seq<B>)
    ensures Flat(a + b, f) == Flat(a, f) + Flat(b, f)
  {
    hide Flat;
    if b == [] {
      assert a + b == a;
      FlatNil(f);
    } else {
      var init, x := b[..|b| - 1], b[|b| - 1];
      assert b == init + [x];
      assert a + b == (a + init) + [x];
      FlatLast(a + init, x, f);
      FlatLast(init, x, f);
      FlatConcat(a, init, f);
    }
  }

  lemma {:induction false} FlatMember<A(!new), B(!new)>(s: seq<A>, f: A -> seq<B>)
    ensures forall x :: x in Flat(s, f) <==> exists a :: a in s && x in f(a)
  {
    if s != [] {
      var n := |s| - 1;
      FlatMember(s[..n], f);
      assert forall a :: a in s <==> a in s[..n] || a == s[n];
      assert forall x :: x in Flat(s, f) <==> x in Flat(s[..n], f) || x in f(s[n]);
    }
  }

  function Only<T>(p: T -> bool): T -> seq<T> {
    x => if p(x) then [x] else []
  }

  /** The elements of `s` that satisfy `p`, in order. */
  function Filter<T(!new)>(s: seq<T>, p: T -> bool): (r: seq<T>)
    ensures forall x :: x in r <==> x in s && p(x)
  {
    FlatMember(s, Only(p));
    Flat(s, Only(p))
  }

  lemma FilterLast<T(!new)>(s: seq<T>, x: T, p: T -> bool)
    ensures Filter(s + [x], p) == Filter(s, p) + (if p(x) then [x] else [])
  {
    FlatLast(s, x, Only(p));
  }

  lemma FilterConcat<T(!new)>(a: seq<T>, b: seq<T>, p: T -> bool)
    ensures Filter(a + b, p) == Filter(a, p) + Filter(b, p)
  {
    FlatConcat(a, b, Only(p));
  }

  lemma {:induction false} FilterSame<T(!new)>(s: seq<T>, p: T -> bool, q: T -> bool)
    requires forall x :: x in s ==> p(x) == q(x)
    ensures Filter(s, p) == Filter(s, q)
  {
    if s != [] {
      var init, x := s[..|s| - 1], s[|s| - 1];
      assert s == init + [x];
      FilterSame(init, p, q);
      hide Filter;
      FilterLast(init, x, p);
      FilterLast(init, x, q);
    }
  }

  lemma FilterAll<T(!new)>(s: seq<T>, p: T -> bool)
    requires forall x :: x in s ==> p(x)
    ensures Filter(s, p) == s
  {
    FilterSame(s, p, x => true);
    FilterTrue(s);
  }

  lemma {:induction false} FilterTrue<T(!new)>(s: seq<T>)
    ensures Filter(s, x => true) == s
  {
    if s != [] {
      var init, x := s[..|s| - 1], s[|s| - 1];
      assert s == init + [x];
      FilterTrue(init);
      hide Filter;
      FilterLast(init, x, y => true);
    }
  }

  /** Filtering twice keeps what passes both tests. */
  lemma {:induction false} FilterTwice<T(!new)>(s: seq<T>, p: T -> bool, q: T -> bool, both: T -> bool)
    requires forall x :: x in s ==> both(x) == (p(x) && q(x))
    ensures Filter(Filter(s, p), q) == Filter(s, both)
  {
    if s != [] {
      var init, x := s[..|s| - 1], s[|s| - 1];
      assert s == init + [x];
      FilterTwice(init, p, q, both);
      hide Filter;
      FilterLast(init, x, p);
      FilterLast(init, x, both);
      if p(x) {
        FilterLast(Filter(init, p), x, q);
      } else {
        assert Filter(init, p) + [] == Filter(init, p);
      }
    }
  }

  lemma NonEmpty<T(!new)>(s: seq<T>)
    ensures s != [] <==> exists x :: x in s
  {
    assert s != [] ==> s[0] in s;
  }

  /** No two positions of `s` have the same key. */
  ghost predicate Distinct<T(!new), K(!new)>(s: seq<T>, key: T -> K) {
    forall i, j :: 0 <= i < j < |s| ==> key(s[i]) != key(s[j])
  }

  lemma {:induction false} FilterDistinct<T(!new), K(!new)>(s: seq<T>, p: T -> bool, key: T -> K)
    requires Distinct(s, key)
    ensures Distinct(Filter(s, p), key)
  {
    if s != [] {
      var init, x := s[..|s| - 1], s[|s| - 1];
      assert s == init + [x];
      FilterDistinct(init, p, key);
      hide Filter;
      FilterLast(init, x, p);
      var r := Filter(init, p);
      forall i | 0 <= i < |r|
        ensures key(r[i]) != key(x)
      {
        assert r[i] in init;
      }
    }
  }

  lemma DistinctSame<T(!new), K(!new)>(s: seq<T>, key: T -> K, x: T, y: T)
    requires Distinct(s, key) && x in s && y in s && key(x) == key(y)
    ensures x == y
  {
    var i :| 0 <= i < |s| && s[i] == x;
    var j :| 0 <= j < |s| && s[j] == y;
    if i < j {
    } else if j < i {
    }
  }

  /** The keys occurring in `s`. */
  ghost function KeySet<T, K>(s: seq<T>, key: T -> K): (r: set<K>)
  {
    set x | x in s :: key(x)
  }

  /** Go's loop that appends what `f` makes of each element. */
  method AppendAll<A, B>(next: seq<B>, s: seq<A>, f: A -> seq<B>) returns (r: seq<B>)
    ensures r == next + Flat(s, f)
  {
    r := next;
    for i := 0 to |s|
      invariant r == next + Flat(s[..i], f)
    {
      FlatStep(s, f, i);
      r := r + f(s[i]);
    }
    FlatWhole(s, f);
  }

  /** Go's loop that appends one value for each element. */
  method AppendEach<A, B>(next: seq<B>, s: seq<A>, f: A -> B) returns (r: seq<B>)
    ensures r == next + Map(s, f)
  {
    r := next;
    for i := 0 to |s|
      invariant r == next + Map(s, f)[..i]
    {
      r := r + [f(s[i])];
    }
  }
}
