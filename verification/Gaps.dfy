/** How far a listing is from the desired one, and how a round closes the gap. */
module Gaps {
  import opened Seqs
  import opened Compare
  import opened Domain

  ghost function Undesired(want: seq<Item>, have: seq<Item>): set<Item> {
    set i | i in have && ItemKey(i) !in KeySet(want, ItemKey)
  }

  ghost function Missing(want: seq<Item>, have: seq<Item>): set<Key> {
    KeySet(want, ItemKey) - KeySet(have, ItemKey)
  }

  /** The resources whose key is not desired, and the desired keys no resource has. */
  ghost function Gap(want: seq<Item>, have: seq<Item>): nat {
    |Undesired(want, have)| + |Missing(want, have)|
  }

  /** What a keyed difference guarantees, whichever way its maps were iterated. */
  ghost predicate Covers(want: seq<Item>, have: seq<Item>, del: seq<Item>, cre: seq<Item>) {
    && Distinct(del, ItemKey) && Distinct(cre, ItemKey)
    && (forall i :: i in del ==> i in Undesired(want, have))
    && (forall i :: i in Undesired(want, have) ==> ItemKey(i) in KeySet(del, ItemKey))
    && KeySet(cre, ItemKey) == Missing(want, have)
  }

  lemma DiffCovers(want: seq<Item>, have: seq<Item>, del: seq<Item>, cre: seq<Item>)
    requires IsDiff(want, have, ItemKey, del, cre)
    ensures Covers(want, have, del, cre)
  {
    DeletesUndesired(want, have, ItemKey, del, cre);
  }

  /** `after` is `have` without the deleted items and with items of the created keys. */
  ghost predicate Replaced(have: seq<Item>, del: seq<Item>, cre: seq<Item>, after: seq<Item>) {
    && (forall i :: i in after ==> (i in have && i !in del) || ItemKey(i) in KeySet(cre, ItemKey))
    && (forall i :: i in have && i !in del ==> i in after)
    && KeySet(cre, ItemKey) <= KeySet(after, ItemKey)
  }

  lemma {:induction false} ElementCount<T(!new), K(!new)>(s: seq<T>, key: T -> K)
    requires Distinct(s, key)
    ensures |set x | x in s| == |s|
  {
    if s != [] {
      var init, x := s[..|s| - 1], s[|s| - 1];
      assert s == init + [x];
      ElementCount(init, key);
      assert (set y | y in s) == (set y | y in init) + {x};
      assert x !in init;
    }
  }

  lemma {:induction false} KeyCount<T(!new), K(!new)>(s: seq<T>, key: T -> K)
    requires Distinct(s, key)
    ensures |KeySet(s, key)| == |s|
  {
    if s != [] {
      var init, x := s[..|s| - 1], s[|s| - 1];
      assert s == init + [x];
      KeyCount(init, key);
      assert KeySet(s, key) == KeySet(init, key) + {key(x)} by {
        assert forall y :: y in s <==> y in init || y == x;
      }
      assert key(x) !in KeySet(init, key);
    }
  }

  lemma ListSize<T(!new), K(!new)>(s: seq<T>, key: T -> K)
    requires Distinct(s, key)
    ensures |set x | x in s| == |s| == |KeySet(s, key)|
  {
    ElementCount(s, key);
    KeyCount(s, key);
  }

  lemma UndesiredAfter(want: seq<Item>, have: seq<Item>, del: seq<Item>, cre: seq<Item>, after: seq<Item>)
    requires Covers(want, have, del, cre) && Replaced(have, del, cre, after)
    ensures Undesired(want, after) == Undesired(want, have) - set i | i in del
  {
    forall i | i in Undesired(want, after)
      ensures i in have && i !in del
    {
      assert ItemKey(i) !in KeySet(cre, ItemKey);
    }
  }

  lemma NothingMissing(want: seq<Item>, have: seq<Item>, del: seq<Item>, cre: seq<Item>, after: seq<Item>)
    requires Covers(want, have, del, cre) && Replaced(have, del, cre, after)
    ensures Missing(want, after) == {}
  {
    forall k | k in KeySet(want, ItemKey)
      ensures k in KeySet(after, ItemKey)
    {
      if k in KeySet(have, ItemKey) {
        var i :| i in have && ItemKey(i) == k;
        assert i !in del;
        assert i in after;
      }
    }
  }

  /** Each deletion and each creation closes the gap by one. */
  lemma GapShrinks(want: seq<Item>, have: seq<Item>, del: seq<Item>, cre: seq<Item>, after: seq<Item>)
    requires Covers(want, have, del, cre) && Replaced(have, del, cre, after)
    ensures Gap(want, after) + |del| + |cre| == Gap(want, have)
  {
    UndesiredAfter(want, have, del, cre, after);
    NothingMissing(want, have, del, cre, after);
    ListSize(del, ItemKey);
    ListSize(cre, ItemKey);
    var gone := set i | i in del;
    assert gone <= Undesired(want, have);
    hide Undesired;
    hide Missing;
    hide Covers;
    hide Replaced;
    assert |Undesired(want, have) - gone| == |Undesired(want, have)| - |gone|;
  }

  /** No undesired key occurs twice. */
  ghost predicate NoDuplicates(want: seq<Item>, have: seq<Item>) {
    forall i, j :: i in Undesired(want, have) && j in Undesired(want, have) && ItemKey(i) == ItemKey(j) ==> i == j
  }

  /** One round closes the gap altogether, if and only if no undesired key occurred twice. */
  lemma GapCloses(want: seq<Item>, have: seq<Item>, del: seq<Item>, cre: seq<Item>, after: seq<Item>)
    requires Covers(want, have, del, cre) && Replaced(have, del, cre, after)
    ensures Gap(want, after) == 0 <==> NoDuplicates(want, have)
  {
    UndesiredAfter(want, have, del, cre, after);
    NothingMissing(want, have, del, cre, after);
    if NoDuplicates(want, have) {
      forall i | i in Undesired(want, have)
        ensures i in del
      {
        var j :| j in del && ItemKey(j) == ItemKey(i);
      }
      assert Undesired(want, after) == {};
    }
    if Gap(want, after) == 0 {
      forall i, j | i in Undesired(want, have) && j in Undesired(want, have) && ItemKey(i) == ItemKey(j)
        ensures i == j
      {
        assert Undesired(want, after) == {};
        assert i in del && j in del;
        DistinctSame(del, ItemKey, i, j);
      }
    }
  }

  lemma NoGap(want: seq<Item>, have: seq<Item>)
    ensures Gap(want, have) == 0 <==> KeySet(want, ItemKey) == KeySet(have, ItemKey)
  {
    if Gap(want, have) == 0 {
      assert Undesired(want, have) == {} && Missing(want, have) == {};
      forall i | i in have
        ensures ItemKey(i) in KeySet(want, ItemKey)
      {
        assert i !in Undesired(want, have);
      }
    }
    if KeySet(want, ItemKey) == KeySet(have, ItemKey) {
      assert Undesired(want, have) == {};
      assert Missing(want, have) == {};
    }
  }
}
