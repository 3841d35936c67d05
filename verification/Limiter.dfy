/** pkg/internal/limiter/limiter.go: a list of answers whose number is checked when it is read. */
module Limiters {
  import opened Seqs

  /** What `Unique` keeps: the first of any elements that `eq` identifies. */
  function Deduped<T>(s: seq<T>, eq: (T, T) -> bool): seq<T> {
    if s == [] then [] else
      var n := |s| - 1;
      var r := Deduped(s[..n], eq);
      if forall j :: 0 <= j < |r| ==> !eq(s[n], r[j]) then r + [s[n]] else r
  }

  datatype Count = FoundNone | FoundMany | Other(message: string)

  function AtMostOneOf<T>(s: seq<T>): Result<Option<T>, Count> {
    if |s| > 1 then Failure(FoundMany) else if |s| < 1 then Success(None) else Success(Some(s[0]))
  }

  /** The error a joined limiter has after the error of one more limiter was looked at. */
  function KeptError(joined: Option<Count>, next: Option<Count>): Option<Count> {
    if joined.Some? && next.Some? then next else joined
  }

  class Limiter<T> {
    var error: Option<Count>
    var elements: seq<T>

    constructor New(error: Option<Count>, elements: seq<T>)
      ensures this.error == error && this.elements == elements
    {
      this.error, this.elements := error, elements;
    }

    static ghost function AllElements(limiters: seq<Limiter<T>>): seq<T>
      reads limiters
    {
      if limiters == [] then [] else
        var n := |limiters| - 1;
        AllElements(limiters[..n]) + limiters[n].elements
    }

    /** The elements of all limiters, in order. The error of a joined limiter never gets set: it is
        only replaced when it already is. */
    static method Join(limiters: seq<Limiter<T>>) returns (joined: Limiter<T>)
      ensures fresh(joined)
      ensures joined.elements == AllElements(limiters)
      ensures joined.error == None
    {
      joined := new Limiter.New(None, []);
      for i := 0 to |limiters|
        invariant joined.error == None
        invariant joined !in limiters
        invariant joined.elements == AllElements(limiters[..i])
      {
        assert limiters[..i + 1][..i] == limiters[..i];
        joined.error := KeptError(joined.error, limiters[i].error);
        joined.elements := joined.elements + limiters[i].elements;
      }
      assert limiters[..|limiters|] == limiters;
    }

    method Unique(eq: (T, T) -> bool)
      modifies this`elements
      ensures elements == Deduped(old(elements), eq)
    {
      var result := [];
      for i := 0 to |elements|
        invariant elements == old(elements)
        invariant result == Deduped(elements[..i], eq)
      {
        assert elements[..i + 1][..i] == elements[..i];
        var add := true;
        for j := 0 to |result|
          invariant add
          invariant forall k :: 0 <= k < j ==> !eq(elements[i], result[k])
        {
          if eq(elements[i], result[j]) {
            add := false;
            break;
          }
        }
        if add {
          result := result + [elements[i]];
        }
      }
      assert elements[..|elements|] == elements;
      elements := result;
    }

    method AtMostOne() returns (r: Result<Option<T>, Count>)
      ensures r == if error.Some? then Failure(error.value) else AtMostOneOf(elements)
    {
      if error.Some? {
        return Failure(error.value);
      }
      if |elements| > 1 {
        return Failure(FoundMany);
      }
      if |elements| < 1 {
        return Success(None);
      }
      r := Success(Some(elements[0]));
    }

    method One() returns (r: Result<T, Count>)
      ensures error.Some? ==> r == Failure(error.value)
      ensures error.None? ==> (r.Success? <==> |elements| == 1) && (r.Success? ==> elements == [r.value])
      ensures error.None? && r.Failure? ==> r.error == if elements == [] then FoundNone else FoundMany
    {
      if error.Some? {
        return Failure(error.value);
      }
      if |elements| > 1 {
        return Failure(FoundMany);
      }
      if |elements| < 1 {
        return Failure(FoundNone);
      }
      r := Success(elements[0]);
    }
  }

  // ---------------------------------------------------------------- properties

  lemma OneMore<T(!new), K(!new)>(s: seq<T>, x: T, key: T -> K)
    ensures KeySet(s + [x], key) == KeySet(s, key) + {key(x)}
    ensures forall y :: y in s + [x] <==> y in s || y == x
  {
    assert forall y :: y in s + [x] <==> y in s || y == x;
  }

  lemma DedupedLast<T>(s: seq<T>, x: T, eq: (T, T) -> bool)
    ensures
      var r := Deduped(s, eq);
      Deduped(s + [x], eq) == if forall j :: 0 <= j < |r| ==> !eq(x, r[j]) then r + [x] else r
  {
    assert (s + [x])[..|s|] == s;
  }

  lemma {:induction false} DedupedKeys<T(!new), K(!new)>(s: seq<T>, eq: (T, T) -> bool, key: T -> K)
    requires forall x, y :: eq(x, y) <==> key(x) == key(y)
    ensures Distinct(Deduped(s, eq), key)
    ensures KeySet(Deduped(s, eq), key) == KeySet(s, key)
    ensures forall x :: x in Deduped(s, eq) ==> x in s
  {
    if s != [] {
      var init, x := s[..|s| - 1], s[|s| - 1];
      assert s == init + [x];
      DedupedKeys(init, eq, key);
      DedupedLast(init, x, eq);
      hide Deduped;
      var r := Deduped(init, eq);
      OneMore(init, x, key);
      OneMore(r, x, key);
      if j :| 0 <= j < |r| && eq(x, r[j]) {
        assert r[j] in r;
        assert key(x) in KeySet(r, key);
      }
    }
  }

  /** When `eq` compares keys, Unique keeps every key once, with the first element that has it. */
  lemma {:induction false} DedupedByKey<T(!new), K(!new)>(s: seq<T>, eq: (T, T) -> bool, key: T -> K)
    requires forall x, y :: eq(x, y) <==> key(x) == key(y)
    ensures Distinct(Deduped(s, eq), key)
    ensures KeySet(Deduped(s, eq), key) == KeySet(s, key)
    ensures forall x :: x in Deduped(s, eq) ==> x in s
    ensures forall i :: 0 <= i < |s| && (forall j :: 0 <= j < i ==> key(s[j]) != key(s[i])) ==> s[i] in Deduped(s, eq)
  {
    DedupedKeys(s, eq, key);
    forall i | 0 <= i < |s| && forall j :: 0 <= j < i ==> key(s[j]) != key(s[i])
      ensures s[i] in Deduped(s, eq)
    {
      FirstStays(s, eq, key, i);
    }
  }

  lemma {:induction false} FirstStays<T(!new), K(!new)>(s: seq<T>, eq: (T, T) -> bool, key: T -> K, i: nat)
    requires forall x, y :: eq(x, y) <==> key(x) == key(y)
    requires i < |s| && forall j :: 0 <= j < i ==> key(s[j]) != key(s[i])
    ensures s[i] in Deduped(s, eq)
    decreases |s|
  {
    var init, x := s[..|s| - 1], s[|s| - 1];
    assert s == init + [x];
    DedupedLast(init, x, eq);
    if i < |init| {
      FirstStays(init, eq, key, i);
    } else {
      DedupedKeys(init, eq, key);
      hide Deduped;
      var r := Deduped(init, eq);
      forall j | 0 <= j < |r|
        ensures !eq(x, r[j])
      {
        assert r[j] in init;
      }
    }
  }
}
