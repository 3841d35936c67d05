/** No run creates a resource under a key that is there: it gives no two resources the same key. */
module Twins {
  import opened Seqs
  import opened Compare
  import opened Domain
  import opened CloudWorld
  import opened Validity
  import opened Planner
  import opened Lookup
  import opened Rounds
  import opened JobBatches
  import opened ChildRounds
  import opened PoolRounds
  import opened UpdateRounds
  import opened FinalRounds
  import opened Convergence
  import opened Settling
  import opened Frames
  import opened PlanLocality
  import opened Runs
  import opened OrderIndependence

  // ---------------------------------------------------------------- resources of one key

  predicate Has(i: Item, owner: Owner, kind: Kind, key: Key) {
    i.owner == owner && KindOf(i.spec) == kind && ItemKey(i) == key
  }

  /** The resources of a kind and a key that belong to one owner, as they are listed. */
  function Holding(items: seq<Item>, owner: Owner, kind: Kind, key: Key): (r: seq<Item>)
    ensures forall i :: i in r <==> i in items && Has(i, owner, kind, key)
  {
    Filter(items, i => Has(i, owner, kind, key))
  }

  /** What a batch asks to create, by owner, kind and key. */
  predicate AskedAs(s: (Owner, Spec), owner: Owner, kind: Kind, key: Key) {
    s.0 == owner && KindOf(s.1) == kind && KeyOf(s.1) == key
  }

  function Matching(shapes: seq<(Owner, Spec)>, owner: Owner, kind: Kind, key: Key): (r: seq<(Owner, Spec)>)
    ensures forall s :: s in r <==> s in shapes && AskedAs(s, owner, kind, key)
  {
    Filter(shapes, s => AskedAs(s, owner, kind, key))
  }

  function AskedFor(b: seq<Action>, subnets: map<string, Subnet>, owner: Owner, kind: Kind, key: Key): nat {
    |Matching(Flat(b, AskedBy(subnets)), owner, kind, key)|
  }

  lemma MatchingConcat(a: seq<(Owner, Spec)>, b: seq<(Owner, Spec)>, owner: Owner, kind: Kind, key: Key)
    ensures Matching(a + b, owner, kind, key) == Matching(a, owner, kind, key) + Matching(b, owner, kind, key)
  {
    FilterConcat(a, b, s => AskedAs(s, owner, kind, key));
  }

  lemma AskedConcat(a: seq<Action>, b: seq<Action>, subnets: map<string, Subnet>, owner: Owner, kind: Kind, key: Key)
    ensures AskedFor(a + b, subnets, owner, kind, key)
         == AskedFor(a, subnets, owner, kind, key) + AskedFor(b, subnets, owner, kind, key)
  {
    FlatConcat(a, b, AskedBy(subnets));
    hide Flat;
    hide Matching;
    MatchingConcat(Flat(a, AskedBy(subnets)), Flat(b, AskedBy(subnets)), owner, kind, key);
  }

  lemma AskedNothing(b: seq<Action>, subnets: map<string, Subnet>, owner: Owner, kind: Kind, key: Key)
    requires forall a :: a in b ==> Creation(a).None?
    ensures AskedFor(b, subnets, owner, kind, key) == 0
  {
    AskNothing(b, subnets);
    hide Flat;
    NonEmpty(Matching([], owner, kind, key));
  }

  // ---------------------------------------------------------------- what a batch adds

  lemma {:induction false} FewerLeft<T(!new)>(s: seq<T>, p: T -> bool, q: T -> bool)
    ensures |Filter(Filter(s, p), q)| <= |Filter(s, q)|
  {
    if s == [] {
      NonEmpty(Filter(s, p));
    } else {
      var init, x := s[..|s| - 1], s[|s| - 1];
      assert s == init + [x];
      FewerLeft(init, p, q);
      FilterLast(init, x, p);
      FilterLast(init, x, q);
      hide Filter;
      if p(x) {
        FilterLast(Filter(init, p), x, q);
      } else {
        assert Filter(init, p) + [] == Filter(init, p);
      }
    }
  }

  lemma FewerHeld(items: seq<Item>, p: Item -> bool, owner: Owner, kind: Kind, key: Key)
    ensures |Holding(Filter(items, p), owner, kind, key)| <= |Holding(items, owner, kind, key)|
  {
    FewerLeft(items, p, i => Has(i, owner, kind, key));
  }

  lemma {:induction false} SameHeld(items: seq<Item>, f: Item -> Item, owner: Owner, kind: Kind, key: Key)
    requires forall i :: i in items ==> Has(f(i), owner, kind, key) == Has(i, owner, kind, key)
    ensures |Holding(Map(items, f), owner, kind, key)| == |Holding(items, owner, kind, key)|
    ensures (forall i :: i in items && Has(i, owner, kind, key) ==> f(i) == i) ==>
      Holding(Map(items, f), owner, kind, key) == Holding(items, owner, kind, key)
  {
    if items == [] {
      assert Map(items, f) == [];
    } else {
      var init, x := items[..|items| - 1], items[|items| - 1];
      assert items == init + [x];
      SameHeld(init, f, owner, kind, key);
      MapLast(init, x, f);
      hide Map;
      hide Has;
      FilterLast(init, x, i => Has(i, owner, kind, key));
      FilterLast(Map(init, f), f(x), i => Has(i, owner, kind, key));
      hide Filter;
    }
  }

  lemma UpdateHolds(items: seq<Item>, a: Action, owner: Owner, kind: Kind, key: Key)
    ensures |Holding(Map(items, (i: Item) => Revised(i, a)), owner, kind, key)| == |Holding(items, owner, kind, key)|
  {
    forall i | i in items
      ensures Has(Revised(i, a), owner, kind, key) == Has(i, owner, kind, key)
    {
      RevisedSame(i, a);
    }
    hide Revised;
    SameHeld(items, (i: Item) => Revised(i, a), owner, kind, key);
  }

  lemma CreationHolds(w: World, a: Action, owner: Owner, kind: Kind, key: Key)
    requires Creation(a).Some?
    ensures
      var x := Item(w.next, Creation(a).value.0, Stored(w.subnets, Creation(a).value.1));
      && Holding(w.items + [x], owner, kind, key)
         == Holding(w.items, owner, kind, key) + (if Has(x, owner, kind, key) then [x] else [])
      && AskedFor([a], w.subnets, owner, kind, key) == if Has(x, owner, kind, key) then 1 else 0
  {
    var x := Item(w.next, Creation(a).value.0, Stored(w.subnets, Creation(a).value.1));
    hide Stored;
    hide Creation;
    FilterLast(w.items, x, i => Has(i, owner, kind, key));
    FlatNil(AskedBy(w.subnets));
    FlatLast([], a, AskedBy(w.subnets));
    assert [] + [a] == [a];
    var s := (x.owner, x.spec);
    assert Flat([a], AskedBy(w.subnets)) == [s];
    hide Flat;
    FilterLast([], s, t => AskedAs(t, owner, kind, key));
    assert [] + [s] == [s];
    NonEmpty(Matching([], owner, kind, key));
  }

  /** An action adds no more than it asks for. */
  lemma StepAdds(w: World, a: Action, owner: Owner, kind: Kind, key: Key)
    requires Apply(w, a).Proceed?
    ensures
      var w1 := Apply(w, a).world;
      && w1.subnets == w.subnets
      && |Holding(w1.items, owner, kind, key)| <= |Holding(w.items, owner, kind, key)| + AskedFor([a], w.subnets, owner, kind, key)
  {
    hide Holding;
    hide AskedFor;
    hide Stored;
    hide Revised;
    hide Revise;
    if IsUpdate(a) {
      UpdateHolds(w.items, a, owner, kind, key);
    } else if Creation(a).Some? {
      CreationHolds(w, a, owner, kind, key);
    } else if a.DeleteResource? {
      RemovalFilters(w, a.id);
      var p: Item -> bool :| Apply(w, a).world.items == Filter(w.items, p);
      FewerHeld(w.items, p, owner, kind, key);
    }
  }

  lemma RemovalFilters(w: World, id: Uuid)
    requires Removal(w, id).Proceed?
    ensures exists p: Item -> bool :: Removal(w, id).world.items == Filter(w.items, p)
  {
    hide Filter;
  }

  /** And so does a batch, however far it gets. */
  lemma {:induction false} BatchAdds(w: World, b: seq<Action>, owner: Owner, kind: Kind, key: Key)
    ensures |Holding(Exec(w, b).world.items, owner, kind, key)|
         <= |Holding(w.items, owner, kind, key)| + AskedFor(b, w.subnets, owner, kind, key)
    decreases |b|
  {
    hide Holding;
    hide AskedFor;
    hide Apply;
    if b != [] && Apply(w, b[0]).Proceed? {
      StepAdds(w, b[0], owner, kind, key);
      assert b == [b[0]] + b[1..];
      AskedConcat([b[0]], b[1..], w.subnets, owner, kind, key);
      BatchAdds(Apply(w, b[0]).world, b[1..], owner, kind, key);
    }
  }

  /** A batch asks only once for what it asks for, and only for what is not there. */
  ghost predicate AsksOnce(w: World, b: seq<Action>, owner: Owner, kind: Kind, key: Key) {
    AskedFor(b, w.subnets, owner, kind, key) > 0 ==>
      AskedFor(b, w.subnets, owner, kind, key) == 1 && Holding(w.items, owner, kind, key) == []
  }

  /** What is spoken of: everything, or everything but members. */
  ghost predicate InScope(members: bool, kind: Kind) {
    kind != KMember || members
  }

  ghost predicate Additive(w: World, b: seq<Action>, members: bool) {
    forall owner, kind, key :: InScope(members, kind) ==> AsksOnce(w, b, owner, kind, key)
  }

  function AtLeastOne(n: nat): nat {
    if n == 0 then 1 else n
  }

  /** Of no owner, kind and key have there come to be more, unless there was none and now is one. */
  ghost predicate AtMost(items: seq<Item>, items1: seq<Item>, members: bool) {
    forall owner, kind, key :: InScope(members, kind) ==>
      |Holding(items1, owner, kind, key)| <= AtLeastOne(|Holding(items, owner, kind, key)|)
  }

  lemma AtMostTransitive(a: seq<Item>, b: seq<Item>, c: seq<Item>, members: bool)
    requires AtMost(a, b, members) && AtMost(b, c, members)
    ensures AtMost(a, c, members)
  {
    hide Holding;
    forall owner, kind, key | InScope(members, kind)
      ensures |Holding(c, owner, kind, key)| <= AtLeastOne(|Holding(a, owner, kind, key)|)
    {
      assert |Holding(b, owner, kind, key)| <= AtLeastOne(|Holding(a, owner, kind, key)|);
    }
  }

  lemma PartAdds(w: World, b: seq<Action>, k: nat, members: bool)
    requires Additive(w, b, members) && k <= |b|
    ensures AtMost(w.items, Exec(w, b[..k]).world.items, members)
  {
    hide Holding;
    hide AskedFor;
    hide Exec;
    forall owner, kind, key | InScope(members, kind)
      ensures |Holding(Exec(w, b[..k]).world.items, owner, kind, key)| <= AtLeastOne(|Holding(w.items, owner, kind, key)|)
    {
      assert AsksOnce(w, b, owner, kind, key);
      BatchAdds(w, b[..k], owner, kind, key);
      assert b == b[..k] + b[k..];
      AskedConcat(b[..k], b[k..], w.subnets, owner, kind, key);
    }
  }

  // ---------------------------------------------------------------- what a round asks for

  const ShapeKey: ((Owner, Spec)) -> Key := (s: (Owner, Spec)) => KeyOf(s.1)

  lemma FirstTwo<T(!new), K(!new)>(s: seq<T>, key: T -> K)
    requires Distinct(s, key)
    ensures |s| > 1 ==> s[0] in s && s[1] in s && key(s[0]) != key(s[1])
  {
  }

  lemma OfOneKey<T(!new), K(!new)>(s: seq<T>, key: T -> K, k: K)
    requires Distinct(s, key) && forall x :: x in s ==> key(x) == k
    ensures |s| <= 1
  {
    FirstTwo(s, key);
  }

  lemma MatchesOnce(shapes: seq<(Owner, Spec)>, owner: Owner, kind: Kind, key: Key)
    requires Distinct(shapes, ShapeKey)
    ensures |Matching(shapes, owner, kind, key)| <= 1
  {
    FilterDistinct(shapes, s => AskedAs(s, owner, kind, key), ShapeKey);
    OfOneKey(Matching(shapes, owner, kind, key), ShapeKey, key);
  }

  lemma SomeMatch(shapes: seq<(Owner, Spec)>, owner: Owner, kind: Kind, key: Key)
    ensures |Matching(shapes, owner, kind, key)| > 0 ==> exists s :: s in shapes && AskedAs(s, owner, kind, key)
  {
    NonEmpty(Matching(shapes, owner, kind, key));
  }

  lemma NotHeld(items: seq<Item>, owner: Owner, kind: Kind, key: Key)
    requires key !in KeySet(Children(items, owner, kind), ItemKey)
    ensures Holding(items, owner, kind, key) == []
  {
    NonEmpty(Holding(items, owner, kind, key));
    hide KeyOf;
    assert forall i :: i in items && IsChild(i, owner, kind) ==> ItemKey(i) in KeySet(Children(items, owner, kind), ItemKey);
  }

  lemma ListedKeys(items: seq<Item>, lb: Uuid)
    ensures KeySet(NodesOf(items, lb), NodeKey) == KeySet(Children(items, OnLb(lb), KPool), ItemKey)
  {
    PoolItemsIn(NodesOf(items, lb));
    assert PoolItems(NodesOf(items, lb)) == PoolsOf(items, lb);
    hide NodesOf;
    hide Children;
    hide KeyOf;
  }

  lemma CreatedOnce(lb: Uuid, cre: seq<PoolNode>)
    requires Distinct(cre, NodeKey)
    ensures Distinct(Map(cre, PoolShape(lb)), ShapeKey)
  {
    hide KeyOf;
    var ss := Map(cre, PoolShape(lb));
    assert forall k :: 0 <= k < |cre| ==> ShapeKey(ss[k]) == NodeKey(cre[k]);
  }

  lemma PoolAsked(w: World, lb: Uuid, ds: seq<PoolNode>, del: seq<PoolNode>, cre: seq<PoolNode>, s: (Owner, Spec),
                  owner: Owner, kind: Kind, key: Key)
    requires IsDiff(ds, NodesOf(w.items, lb), NodeKey, del, cre) && (forall n :: n in ds ==> n.pool.spec.Pool?)
    requires s in Map(cre, PoolShape(lb)) && AskedAs(s, owner, kind, key)
    ensures Holding(w.items, owner, kind, key) == []
  {
    CreatesMissing(ds, NodesOf(w.items, lb), NodeKey, del, cre);
    ListedKeys(w.items, lb);
    hide IsDiff;
    hide NodesOf;
    hide Children;
    hide Holding;
    hide KeyOf;
    var shapes := Map(cre, PoolShape(lb));
    var k :| 0 <= k < |shapes| && shapes[k] == s;
    assert cre[k] in cre && NodeKey(cre[k]) == key && KindOf(cre[k].pool.spec) == KPool;
    NotHeld(w.items, owner, kind, key);
  }

  /** A pool round asks once for every missing pool. */
  lemma PoolsAskOnce(w: World, lb: Uuid, o: seq<Action>, ds: seq<PoolNode>, del: seq<PoolNode>, cre: seq<PoolNode>,
                     owner: Owner, kind: Kind, key: Key)
    requires PoolPlan(w, lb, o, ds, del, cre)
    ensures AsksOnce(w, o + PoolSteps(lb, del, cre), owner, kind, key)
  {
    var shapes := Map(cre, PoolShape(lb));
    PoolDiffFacts(w, lb, ds, del, cre);
    hide IsDiff;
    hide NodesOf;
    hide Flat;
    hide PoolSteps;
    hide Holding;
    hide Matching;
    hide AskedAs;
    hide Valid;
    PoolStepsAsk(lb, o, del, cre, w.subnets);
    CreatedOnce(lb, cre);
    hide Map;
    MatchesOnce(shapes, owner, kind, key);
    SomeMatch(shapes, owner, kind, key);
    if s :| s in shapes && AskedAs(s, owner, kind, key) {
      PoolAsked(w, lb, ds, del, cre, s, owner, kind, key);
    }
  }

  lemma CreatedKeys(w: World, x: JobDiff)
    requires Valid(w) && GoodJob(w, x.job) && DiffOf(x.job, x)
    requires x.job.kind == KMember ==> forall i :: i in x.job.want ==> Faithful(w.subnets, i.spec)
    ensures Distinct(Map(x.cre, ChildShape(x.job.pool, w.subnets)), ShapeKey)
    ensures forall s :: s in Map(x.cre, ChildShape(x.job.pool, w.subnets)) ==>
      s.0 == InPool(x.job.pool) && KindOf(s.1) == x.job.kind && ShapeKey(s) !in KeySet(x.job.have, ItemKey)
  {
    var ss := Map(x.cre, ChildShape(x.job.pool, w.subnets));
    CreatesMissing(x.job.want, x.job.have, ItemKey, x.del, x.cre);
    hide Stored;
    hide KeyOf;
    hide Valid;
    forall k | 0 <= k < |ss|
      ensures ShapeKey(ss[k]) == ItemKey(x.cre[k]) && x.cre[k] in x.cre && KindOf(ss[k].1) == x.job.kind
    {
      assert x.cre[k] in x.job.want;
      StoredKind(w.subnets, x.cre[k].spec);
      if x.job.kind != KMember {
        FaithfulOther(w.subnets, x.cre[k].spec);
      }
    }
  }

  /** What one comparison asks for. */
  lemma JobAsks(w: World, x: JobDiff, owner: Owner, kind: Kind, key: Key, members: bool)
    requires Valid(w) && GoodJob(w, x.job) && DiffOf(x.job, x) && InScope(members, kind)
    requires members && x.job.kind == KMember ==> forall i :: i in x.job.want ==> Faithful(w.subnets, i.spec)
    ensures
      var n := |Matching(Map(x.cre, ChildShape(x.job.pool, w.subnets)), owner, kind, key)|;
      n > 0 ==> n == 1 && owner == InPool(x.job.pool) && kind == x.job.kind && Holding(w.items, owner, kind, key) == []
  {
    var shapes := Map(x.cre, ChildShape(x.job.pool, w.subnets));
    SomeMatch(shapes, owner, kind, key);
    hide IsDiff;
    hide Valid;
    hide Matching;
    hide Holding;
    hide KeyOf;
    hide Stored;
    if |Matching(shapes, owner, kind, key)| > 0 {
      var s :| s in shapes && AskedAs(s, owner, kind, key);
      ShapesFit(w, x, s);
      CreatedKeys(w, x);
      hide Children;
      MatchesOnce(shapes, owner, kind, key);
      NotHeld(w.items, owner, kind, key);
    }
  }

  lemma ShapesFit(w: World, x: JobDiff, s: (Owner, Spec))
    requires Valid(w) && GoodJob(w, x.job) && DiffOf(x.job, x)
    requires s in Map(x.cre, ChildShape(x.job.pool, w.subnets))
    ensures s.0 == InPool(x.job.pool) && KindOf(s.1) == x.job.kind
  {
    var shapes := Map(x.cre, ChildShape(x.job.pool, w.subnets));
    DiffFacts(w, x);
    hide IsDiff;
    hide Valid;
    hide Stored;
    var k :| 0 <= k < |shapes| && shapes[k] == s;
    assert x.cre[k] in x.cre;
    StoredKind(w.subnets, x.cre[k].spec);
  }

  function Asked(diffs: seq<JobDiff>, subnets: map<string, Subnet>): seq<(Owner, Spec)> {
    Flat(Flat(diffs, JobSteps), AskedBy(subnets))
  }

  ghost predicate ScopeFaithful(subnets: map<string, Subnet>, diffs: seq<JobDiff>, members: bool) {
    members ==> forall x, i :: x in diffs && x.job.kind == KMember && i in x.job.want ==> Faithful(subnets, i.spec)
  }

  ghost predicate AskedOnce(w: World, diffs: seq<JobDiff>, owner: Owner, kind: Kind, key: Key) {
    var n := |Matching(Asked(diffs, w.subnets), owner, kind, key)|;
    n > 0 ==>
      && n == 1 && Holding(w.items, owner, kind, key) == []
      && exists x :: x in diffs && owner == InPool(x.job.pool) && kind == x.job.kind
  }

  lemma LastAsked(w: World, init: seq<JobDiff>, y: JobDiff, owner: Owner, kind: Kind, key: Key)
    requires Valid(w) && GoodJob(w, y.job) && DiffOf(y.job, y)
    ensures Matching(Asked(init + [y], w.subnets), owner, kind, key)
         == Matching(Asked(init, w.subnets), owner, kind, key)
          + Matching(Map(y.cre, ChildShape(y.job.pool, w.subnets)), owner, kind, key)
  {
    hide Valid;
    hide GoodJob;
    hide DiffOf;
    hide Flat;
    hide Matching;
    hide Map;
    AskLast(init, y, w.subnets);
    JobStepsAsk(w, y);
    MatchingConcat(Asked(init, w.subnets), Map(y.cre, ChildShape(y.job.pool, w.subnets)), owner, kind, key);
  }

  lemma OtherIds(init: seq<JobDiff>, y: JobDiff)
    requires Distinct(init + [y], DiffId)
    ensures forall x :: x in init ==> DiffId(x) != DiffId(y)
  {
    var diffs := init + [y];
    forall x | x in init
      ensures DiffId(x) != DiffId(y)
    {
      var k :| 0 <= k < |init| && init[k] == x;
      assert diffs[k] == x && diffs[|init|] == y;
    }
  }

  lemma GoodIds(w: World, diffs: seq<JobDiff>)
    requires GoodDiffs(w, diffs)
    ensures Distinct(diffs, DiffId)
  {
  }

  lemma LastScope(subnets: map<string, Subnet>, init: seq<JobDiff>, y: JobDiff, members: bool)
    requires ScopeFaithful(subnets, init + [y], members)
    ensures ScopeFaithful(subnets, init, members)
    ensures members && y.job.kind == KMember ==> forall i :: i in y.job.want ==> Faithful(subnets, i.spec)
  {
    hide Faithful;
    assert y in init + [y] && forall x :: x in init ==> x in init + [y];
  }

  lemma AskedOnceStep(w: World, init: seq<JobDiff>, y: JobDiff, owner: Owner, kind: Kind, key: Key, n: nat)
    requires AskedOnce(w, init, owner, kind, key) && forall x :: x in init ==> DiffId(x) != DiffId(y)
    requires n == |Matching(Map(y.cre, ChildShape(y.job.pool, w.subnets)), owner, kind, key)|
    requires n > 0 ==> n == 1 && owner == InPool(y.job.pool) && kind == y.job.kind && Holding(w.items, owner, kind, key) == []
    requires |Matching(Asked(init + [y], w.subnets), owner, kind, key)| == |Matching(Asked(init, w.subnets), owner, kind, key)| + n
    ensures AskedOnce(w, init + [y], owner, kind, key)
  {
    hide Asked;
    hide Matching;
    hide Holding;
    hide Map;
    assert y in init + [y] && forall x :: x in init ==> x in init + [y];
  }

  lemma {:induction false} JobsAskOnce(w: World, diffs: seq<JobDiff>, owner: Owner, kind: Kind, key: Key, members: bool)
    requires Valid(w) && GoodDiffs(w, diffs) && ScopeFaithful(w.subnets, diffs, members) && InScope(members, kind)
    ensures AskedOnce(w, diffs, owner, kind, key)
  {
    if diffs == [] {
      assert Asked(diffs, w.subnets) == [];
      SomeMatch([], owner, kind, key);
    } else {
      var init, y := diffs[..|diffs| - 1], diffs[|diffs| - 1];
      assert diffs == init + [y];
      GoodInit(w, init, y);
      GoodIds(w, diffs);
      LastScope(w.subnets, init, y, members);
      hide GoodDiffs;
      hide GoodJob;
      hide DiffOf;
      hide Valid;
      hide AskedOnce;
      hide Faithful;
      hide ScopeFaithful;
      hide Asked;
      hide Matching;
      hide Holding;
      hide Map;
      OtherIds(init, y);
      hide Distinct;
      JobsAskOnce(w, init, owner, kind, key, members);
      LastAsked(w, init, y, owner, kind, key);
      JobAsks(w, y, owner, kind, key, members);
      AskedOnceStep(w, init, y, owner, kind, key, |Matching(Map(y.cre, ChildShape(y.job.pool, w.subnets)), owner, kind, key)|);
    }
  }

  /** A child round asks once for everything that is missing. */
  lemma ChildrenAskOnce(w: World, o: seq<Action>, diffs: seq<JobDiff>, owner: Owner, kind: Kind, key: Key, members: bool)
    requires ChildPlan(w, o, diffs) && ScopeFaithful(w.subnets, diffs, members) && InScope(members, kind)
    ensures AsksOnce(w, o + Flat(diffs, JobSteps), owner, kind, key)
  {
    AskedNothing(o, w.subnets, owner, kind, key);
    AskedConcat(o, Flat(diffs, JobSteps), w.subnets, owner, kind, key);
    hide GoodDiffs;
    hide Valid;
    hide ScopeFaithful;
    JobsAskOnce(w, diffs, owner, kind, key, members);
    hide Matching;
    hide Holding;
    hide Flat;
  }

  // ---------------------------------------------------------------- what a turn asks for

  /** What this is about demands of a desired state: a wanted load balancer of the queried name, pools with
      different names, and, only as far as members go, that they are reported back as requested. */
  ghost predicate Decent(subnets: map<string, Subnet>, q: Query, d: State, members: bool) {
    && d.lb.Some? && d.lb.value.name == q.name && q.name != ""
    && Distinct(d.pools, NodeName) && (forall n :: n in d.pools ==> ProperNode(n))
    && (members ==> AllFaithful(subnets, d))
  }

  lemma JobOfDiff(jobs: seq<Job>, diffs: seq<JobDiff>, x: JobDiff)
    requires DiffsOf(jobs, diffs) && x in diffs
    ensures x.job in jobs
  {
    hide IsDiff;
    var k :| 0 <= k < |diffs| && diffs[k] == x;
    assert DiffOf(jobs[k], x);
  }

  lemma ScopeOfJobs(w: World, d: State, l: Lb, status: string, c: Choice, members: bool)
    requires PlanOf(w, d, l, status, c) && !PoolPhase(c) && (members ==> AllFaithful(w.subnets, d))
    ensures ScopeFaithful(w.subnets, c.diffs, members)
  {
    RoundJobsGood(w, d, l, status, c);
    hide RoundJobs;
    hide GoodJobs;
    hide DiffsOf;
    hide HasReps;
    hide PlanOf;
    hide Faithful;
    if members {
      forall x, i | x in c.diffs && x.job.kind == KMember && i in x.job.want
        ensures Faithful(w.subnets, i.spec)
      {
        JobOfDiff(RoundJobs(w, d, l.id), c.diffs, x);
        JobWants(w, d, l.id, x.job);
        var n :| n in d.pools && x.job.want == n.members;
      }
    }
  }

  lemma JobWants(w: World, d: State, lb: Uuid, j: Job)
    requires HasReps(d.pools, w.items, lb) && j in RoundJobs(w, d, lb) && j.kind == KMember
    ensures exists n :: n in d.pools && j.want == n.members
  {
    hide Jobs;
    hide Index;
    hide NodesOf;
    hide PoolsOf;
    JobIn(d.pools, w.items, lb, j);
    var n :| n in d.pools && j in RepJobs(n, w.items, Rep(w.items, lb, NodeName(n)));
    MembersOf(n, w.items, Rep(w.items, lb, NodeName(n)), j);
  }

  lemma MembersOf(n: PoolNode, items: seq<Item>, p: Item, j: Job)
    requires j in RepJobs(n, items, p) && j.kind == KMember
    ensures j.want == n.members
  {
  }

  lemma UpdatesCreateNothing(pairs: seq<(Item, Item)>)
    ensures forall a :: a in Flat(pairs, Update) ==> Creation(a).None?
  {
    FlatMember(pairs, Update);
    hide Flat;
    hide PairUpdates;
    forall p, a | p in pairs && a in PairUpdates(p)
      ensures Creation(a).None?
    {
      PairTargets(p);
    }
  }

  lemma LastPlanIs(w: World, d: State, l: Lb, status: string, c: Choice)
    requires d.lb.Some? && LastPhase(c)
    ensures Plan(d, Snapshot(w, Some(l), status), c)
         == OpeningOf(d, l, status) + Flat(Pairs(RoundJobs(w, d, l.id)), Update) + Map(c.assign, Assignment(l.id))
  {
    hide Flat;
    hide Jobs;
    hide NodesOf;
    hide Opening;
    hide Pairs;
  }

  lemma NothingInThree(o: seq<Action>, u: seq<Action>, b: seq<Action>)
    requires forall a :: a in o ==> Creation(a).None?
    requires forall a :: a in u ==> Creation(a).None?
    requires forall a :: a in b ==> Creation(a).None?
    ensures forall a :: a in o + u + b ==> Creation(a).None?
  {
    hide Creation;
  }

  lemma OpeningCreatesNothing(w: World, d: State, l: Lb, status: string)
    requires Valid(w) && l in w.lbs && d.lb.Some?
    ensures forall a :: a in OpeningOf(d, l, status) ==> Creation(a).None?
  {
    OpeningFacts(w, d.lb.value, status, l);
    hide Opening;
    hide OpeningFor;
    hide Valid;
    hide Creation;
  }

  lemma AssignmentsCreateNothing(ips: seq<string>, lb: Uuid)
    ensures forall a :: a in Map(ips, Assignment(lb)) ==> Creation(a).None?
  {
    AssignmentsIn(ips, lb);
  }

  lemma LastPlanCreatesNothing(w: World, d: State, l: Lb, status: string, c: Choice)
    requires Valid(w) && l in w.lbs && d.lb.Some? && LastPhase(c)
    ensures forall a :: a in Plan(d, Snapshot(w, Some(l), status), c) ==> Creation(a).None?
  {
    hide *;
    LastPlanIs(w, d, l, status, c);
    OpeningCreatesNothing(w, d, l, status);
    UpdatesCreateNothing(Pairs(RoundJobs(w, d, l.id)));
    AssignmentsCreateNothing(c.assign, l.id);
    NothingInThree(OpeningOf(d, l, status), Flat(Pairs(RoundJobs(w, d, l.id)), Update), Map(c.assign, Assignment(l.id)));
  }

  lemma WithRefetch(w: World, b: seq<Action>, owner: Owner, kind: Kind, key: Key)
    requires AsksOnce(w, b, owner, kind, key)
    ensures AsksOnce(w, b + [Refetch], owner, kind, key)
  {
    AskedNothing([Refetch], w.subnets, owner, kind, key);
    AskedConcat(b, [Refetch], w.subnets, owner, kind, key);
    hide AskedFor;
    hide Holding;
  }

  /** No plan for pools with different names asks for anything under a key that is there, or twice. */
  lemma PlanAdditive(w: World, d: State, l: Lb, status: string, c: Choice, members: bool)
    requires PlanOf(w, d, l, status, c) && (members ==> AllFaithful(w.subnets, d))
    ensures Additive(w, Plan(d, Snapshot(w, Some(l), status), c), members)
  {
    var o, b := OpeningOf(d, l, status), Plan(d, Snapshot(w, Some(l), status), c);
    forall owner, kind, key | InScope(members, kind)
      ensures AsksOnce(w, b, owner, kind, key)
    {
      if PoolPhase(c) {
        RoundPoolPlan(w, d, l, status, c);
        PoolBatchIs(w, d, l, status, c);
        hide *;
        PoolsAskOnce(w, l.id, o, d.pools, c.poolDel, c.poolCre, owner, kind, key);
        WithRefetch(w, o + PoolSteps(l.id, c.poolDel, c.poolCre), owner, kind, key);
      } else if ChildPhase(c) {
        RoundChildPlan(w, d, l, status, c);
        ScopeOfJobs(w, d, l, status, c, members);
        ChildBatchIs(w, d, l, status, c);
        hide *;
        ChildrenAskOnce(w, o, c.diffs, owner, kind, key, members);
        WithRefetch(w, o + Flat(c.diffs, JobSteps), owner, kind, key);
      } else {
        LastPlanCreatesNothing(w, d, l, status, c);
        hide Plan;
        AskedNothing(b, w.subnets, owner, kind, key);
        hide AskedFor;
      }
    }
  }

  lemma PoolBatchIs(w: World, d: State, l: Lb, status: string, c: Choice)
    requires d.lb.Some? && PoolPhase(c)
    ensures Plan(d, Snapshot(w, Some(l), status), c) == OpeningOf(d, l, status) + PoolSteps(l.id, c.poolDel, c.poolCre) + [Refetch]
  {
    hide PoolSteps;
  }

  lemma ChildBatchIs(w: World, d: State, l: Lb, status: string, c: Choice)
    requires d.lb.Some? && ChildPhase(c)
    ensures Plan(d, Snapshot(w, Some(l), status), c) == OpeningOf(d, l, status) + Flat(c.diffs, JobSteps) + [Refetch]
  {
    hide Flat;
  }

  lemma PlannedIsPlan(w: World, q: Query, t: Turn, members: bool)
    requires Valid(w) && Planned(w, q, t) && Decent(w.subnets, q, t.desired, members) && FoundIn(w, q).Some?
    ensures PlanOf(w, t.desired, FoundIn(w, q).value, t.status, t.choice)
    ensures Batch(w, q, t) == Plan(t.desired, Snapshot(w, FoundIn(w, q), t.status), t.choice)
  {
    FoundInLbs(w, q);
    hide Plan;
    hide Possible;
    hide Snapshot;
    hide ProperNode;
    hide Valid;
    hide AllFaithful;
    hide FindByServiceInfo;
    hide Refuses;
  }

  /** No part of a turn, refused by the cloud in the middle or not, creates anything under a key that was there. */
  lemma PartAtMost(w: World, q: Query, t: Turn, k: nat, members: bool)
    requires Valid(w) && Planned(w, q, t) && Decent(w.subnets, q, t.desired, members) && k <= |Batch(w, q, t)|
    ensures AtMost(w.items, Exec(w, Batch(w, q, t)[..k]).world.items, members)
  {
    if FoundIn(w, q).Some? {
      PlannedIsPlan(w, q, t, members);
      PlanAdditive(w, t.desired, FoundIn(w, q).value, t.status, t.choice, members);
      hide *;
      PartAdds(w, Batch(w, q, t), k, members);
    } else {
      CreateCut(w, t.desired.lb.value, k);
      assert Apply(w, CreateLb(t.desired.lb.value)).world.items == w.items;
      hide Apply;
      hide Exec;
      hide Holding;
    }
  }

  // ---------------------------------------------------------------- runs

  ghost predicate AllDecent(subnets: map<string, Subnet>, q: Query, turns: seq<Turn>, members: bool) {
    forall t :: t in turns ==> Decent(subnets, q, t.desired, members)
  }

  ghost function IpsOfAll(turns: seq<Turn>): set<string> {
    set t, ip | t in turns && ip in t.desired.floatingIPs :: Address(ip)
  }

  lemma DecentConsistent(subnets: map<string, Subnet>, q: Query, turns: seq<Turn>, members: bool)
    requires AllDecent(subnets, q, turns, members)
    ensures forall t :: t in turns ==> Consistent(q, false, IpsOfAll(turns), t)
  {
    hide Address;
    hide ProperNode;
    hide AllFaithful;
    forall t | t in turns
      ensures Addresses(t.desired.floatingIPs) <= IpsOfAll(turns)
    {
      forall a | a in Addresses(t.desired.floatingIPs)
        ensures a in IpsOfAll(turns)
      {
        var ip :| ip in t.desired.floatingIPs && Address(ip) == a;
      }
    }
  }

  lemma AfterValid(w: World, q: Query, turns: seq<Turn>, members: bool)
    requires Valid(w) && Ongoing(w, q, turns) && AllDecent(w.subnets, q, turns, members)
    ensures
      var w1 := After(w, q, turns);
      Valid(w1) && w1.subnets == w.subnets && Own(w1, q) == Own(w, q)
  {
    DecentConsistent(w.subnets, q, turns, members);
    AfterFrame(w, q, turns, false, IpsOfAll(turns));
    hide Foreign;
    hide OtherLbs;
    hide After;
    hide Ongoing;
    hide Own;
    hide Valid;
  }

  lemma {:induction false} AfterAtMost(w: World, q: Query, turns: seq<Turn>, members: bool)
    requires Valid(w) && Ongoing(w, q, turns) && AllDecent(w.subnets, q, turns, members)
    ensures AtMost(w.items, After(w, q, turns).items, members)
  {
    hide Valid;
    hide Decent;
    hide AtMost;
    hide Planned;
    hide Batch;
    if turns == [] {
      AtMostReflexive(w.items, members);
    } else {
      var init, t := turns[..|turns| - 1], turns[|turns| - 1];
      assert turns == init + [t];
      assert AllDecent(w.subnets, q, init, members) && t in turns;
      AfterAtMost(w, q, init, members);
      AfterValid(w, q, init, members);
      var w0 := After(w, q, init);
      WholeTurn(w0, q, t);
      PartAtMost(w0, q, t, |Batch(w0, q, t)|, members);
      AtMostTransitive(w.items, w0.items, After(w, q, turns).items, members);
    }
  }

  lemma AtMostReflexive(items: seq<Item>, members: bool)
    ensures AtMost(items, items, members)
  {
    hide Holding;
  }

  /** At every moment of a run, cut off or not, and whatever the cloud refuses: of no owner, kind and key are there
      more resources than at the start, unless there was none then, and one now. Members have to be reported
      back as requested for that, everything else need not. */
  lemma RunAtMost(w: World, q: Query, turns: seq<Turn>, t: Turn, k: nat, w1: World, members: bool)
    requires Valid(w) && Moment(w, q, turns, t, k, w1)
    requires AllDecent(w.subnets, q, turns + [t], members)
    ensures AtMost(w.items, w1.items, members)
  {
    assert t in turns + [t] && forall x :: x in turns ==> x in turns + [t];
    assert AllDecent(w.subnets, q, turns, members);
    hide Valid;
    hide Decent;
    hide AtMost;
    hide Planned;
    hide Batch;
    hide After;
    hide Ongoing;
    AfterAtMost(w, q, turns, members);
    AfterValid(w, q, turns, members);
    var w0 := After(w, q, turns);
    PartAtMost(w0, q, t, k, members);
    AtMostTransitive(w.items, w0.items, w1.items, members);
  }

  // ---------------------------------------------------------------- no twins

  /** No two pools of the load balancer, and no two listeners, monitors or, if `members`, members of one of its
      pools, have the same key. */
  ghost predicate NoTwins(items: seq<Item>, lb: Uuid, members: bool) {
    && Distinct(PoolsOf(items, lb), ItemKey)
    && forall p, kind :: p in PoolsOf(items, lb) && InScope(members, kind) ==> Distinct(Children(items, InPool(p.id), kind), ItemKey)
  }

  lemma HeldOf(items: seq<Item>, owner: Owner, kind: Kind, key: Key)
    ensures Holding(items, owner, kind, key) == Filter(Children(items, owner, kind), (i: Item) => ItemKey(i) == key)
  {
    FilterTwice(items, i => IsChild(i, owner, kind), (i: Item) => ItemKey(i) == key, i => Has(i, owner, kind, key));
  }

  lemma TwoLeft<T(!new)>(s: seq<T>, p: T -> bool, i: nat, j: nat)
    requires i < j < |s| && p(s[i]) && p(s[j])
    ensures |Filter(s, p)| >= 2
  {
    assert s == s[..j] + s[j..] && s[i] in s[..j] && s[j] in s[j..];
    FilterConcat(s[..j], s[j..], p);
    NonEmpty(Filter(s[..j], p));
    NonEmpty(Filter(s[j..], p));
  }

  lemma DistinctHeld(items: seq<Item>, owner: Owner, kind: Kind)
    ensures Distinct(Children(items, owner, kind), ItemKey) <==> forall key :: |Holding(items, owner, kind, key)| <= 1
  {
    var cs := Children(items, owner, kind);
    hide Children;
    hide KeyOf;
    hide Holding;
    hide Filter;
    if Distinct(cs, ItemKey) {
      forall key
        ensures |Holding(items, owner, kind, key)| <= 1
      {
        HeldOf(items, owner, kind, key);
        FilterDistinct(cs, (i: Item) => ItemKey(i) == key, ItemKey);
        OfOneKey(Holding(items, owner, kind, key), ItemKey, key);
      }
    }
    if forall key :: |Holding(items, owner, kind, key)| <= 1 {
      forall i, j | 0 <= i < j < |cs|
        ensures ItemKey(cs[i]) != ItemKey(cs[j])
      {
        var key := ItemKey(cs[i]);
        HeldOf(items, owner, kind, key);
        assert |Holding(items, owner, kind, key)| <= 1;
        if ItemKey(cs[j]) == key {
          TwoLeft(cs, (x: Item) => ItemKey(x) == key, i, j);
        }
      }
    }
  }

  // ---------------------------------------------------------------- where pools come from

  lemma StepOrigin(w: World, a: Action, i: Item)
    requires Apply(w, a).Proceed? && i in Apply(w, a).world.items && i.spec.Pool?
    ensures (i in w.items || i.id == w.next) && Apply(w, a).world.next >= w.next
  {
    if IsUpdate(a) {
      hide Revised;
      var r := Map(w.items, (x: Item) => Revised(x, a));
      var k :| 0 <= k < |r| && r[k] == i;
      RevisedSame(w.items[k], a);
      StillPool(w.items[k], a);
    }
    hide Revise;
    hide Stored;
  }

  lemma StillPool(i: Item, a: Action)
    requires Revised(i, a).spec.Pool?
    ensures Revised(i, a) == i
  {
  }

  lemma StepNext(w: World, a: Action)
    requires Apply(w, a).Proceed?
    ensures Apply(w, a).world.next >= w.next
  {
  }

  /** A pool that is there after a batch was there before, or is new. */
  lemma {:induction false} BatchOrigin(w: World, b: seq<Action>)
    ensures Exec(w, b).world.next >= w.next
    ensures forall i :: i in Exec(w, b).world.items && i.spec.Pool? ==> i in w.items || i.id >= w.next
    decreases |b|
  {
    if b != [] && Apply(w, b[0]).Proceed? {
      var w1 := Apply(w, b[0]).world;
      StepNext(w, b[0]);
      forall i | i in w1.items && i.spec.Pool?
        ensures i in w.items || i.id >= w.next
      {
        StepOrigin(w, b[0], i);
      }
      hide Apply;
      BatchOrigin(w1, b[1..]);
    }
  }

  lemma {:induction false} AfterOrigin(w: World, q: Query, turns: seq<Turn>)
    ensures After(w, q, turns).next >= w.next
    ensures forall i :: i in After(w, q, turns).items && i.spec.Pool? ==> i in w.items || i.id >= w.next
  {
    hide Batch;
    hide Exec;
    if turns != [] {
      var init, t := turns[..|turns| - 1], turns[|turns| - 1];
      AfterOrigin(w, q, init);
      BatchOrigin(After(w, q, init), Batch(After(w, q, init), q, t));
    }
  }

  lemma RunOrigin(w: World, q: Query, turns: seq<Turn>, t: Turn, k: nat, w1: World)
    requires Moment(w, q, turns, t, k, w1)
    ensures forall i :: i in w1.items && i.spec.Pool? ==> i in w.items || i.id >= w.next
  {
    var w0 := After(w, q, turns);
    AfterOrigin(w, q, turns);
    BatchOrigin(w0, Batch(w0, q, t)[..k]);
    hide Batch;
    hide Exec;
    hide After;
    hide Ongoing;
    hide Planned;
  }

  /** What belongs to a pool belongs to one that is there. */
  lemma OwnerThere(w: World, pool: Uuid, kind: Kind, key: Key) returns (p: Item)
    requires Valid(w) && Holding(w.items, InPool(pool), kind, key) != []
    ensures p in w.items && p.spec.Pool? && p.id == pool
  {
    var i := Holding(w.items, InPool(pool), kind, key)[0];
    assert i in Holding(w.items, InPool(pool), kind, key);
    hide Holding;
    hide KeyOf;
    assert OwnerExists(w, i);
    p :| p in w.items && p.id == pool && p.spec.Pool?;
  }

  // ---------------------------------------------------------------- no run makes twins

  /** The load balancer of the run, if there is one, has no twins. */
  ghost predicate Apart(w: World, q: Query, members: bool) {
    FoundIn(w, q).Some? ==> NoTwins(w.items, FoundIn(w, q).value.id, members)
  }

  lemma IdsBelow(w: World, i: Item)
    requires Valid(w) && i in w.items
    ensures i.id < w.next
  {
  }

  lemma NothingUnderNew(w: World, pool: Uuid, kind: Kind, key: Key)
    requires Valid(w) && pool >= w.next
    ensures Holding(w.items, InPool(pool), kind, key) == []
  {
    hide Valid;
    hide Holding;
    if Holding(w.items, InPool(pool), kind, key) != [] {
      var p := OwnerThere(w, pool, kind, key);
      IdsBelow(w, p);
      assert false;
    }
  }

  /** A pool that is there now, and was there or is new, held no key twice at the start. */
  lemma HeldOnce(w: World, lb: Uuid, p: Item, kind: Kind, key: Key, members: bool)
    requires Valid(w) && NoTwins(w.items, lb, members) && InScope(members, kind)
    requires p.spec.Pool? && p.owner == OnLb(lb) && (p in w.items || p.id >= w.next)
    ensures |Holding(w.items, InPool(p.id), kind, key)| <= 1
  {
    if p in w.items {
      IsListed(w.items, lb, p);
      hide PoolsOf;
      DistinctHeld(w.items, InPool(p.id), kind);
      hide Holding;
      hide Children;
    } else {
      NothingUnderNew(w, p.id, kind, key);
    }
  }

  /** A pool of the load balancer holds each key once, if its pools did, and the cloud has grown by `AtMost`. */
  lemma ChildApart(w: World, items1: seq<Item>, lb: Uuid, p: Item, kind: Kind, members: bool)
    requires Valid(w) && NoTwins(w.items, lb, members) && AtMost(w.items, items1, members) && InScope(members, kind)
    requires p.spec.Pool? && p.owner == OnLb(lb) && (p in w.items || p.id >= w.next)
    ensures Distinct(Children(items1, InPool(p.id), kind), ItemKey)
  {
    DistinctHeld(items1, InPool(p.id), kind);
    hide Holding;
    hide Children;
    hide NoTwins;
    hide Valid;
    hide Distinct;
    forall key
      ensures |Holding(items1, InPool(p.id), kind, key)| <= 1
    {
      HeldOnce(w, lb, p, kind, key, members);
    }
  }

  lemma PoolsApart(items: seq<Item>, items1: seq<Item>, lb: Uuid, members: bool)
    requires Distinct(PoolsOf(items, lb), ItemKey) && AtMost(items, items1, members)
    ensures Distinct(PoolsOf(items1, lb), ItemKey)
  {
    DistinctHeld(items, OnLb(lb), KPool);
    DistinctHeld(items1, OnLb(lb), KPool);
    hide Holding;
    hide Children;
    hide Distinct;
    assert InScope(members, KPool);
  }

  lemma StillApart(w: World, w1: World, lb: Uuid, members: bool)
    requires Valid(w) && NoTwins(w.items, lb, members) && AtMost(w.items, w1.items, members)
    requires forall i :: i in w1.items && i.spec.Pool? ==> i in w.items || i.id >= w.next
    ensures NoTwins(w1.items, lb, members)
  {
    PoolsApart(w.items, w1.items, lb, members);
    hide PoolsOf;
    hide AtMost;
    hide Valid;
    hide Children;
    forall p, kind | p in PoolsOf(w1.items, lb) && InScope(members, kind)
      ensures Distinct(Children(w1.items, InPool(p.id), kind), ItemKey)
    {
      InListing(w1.items, lb, p);
      ChildApart(w, w1.items, lb, p, kind, members);
    }
  }

  lemma NewLbApart(w: World, members: bool)
    requires Valid(w)
    ensures NoTwins(w.items, w.next, members)
  {
    forall i | i in w.items
      ensures i.owner != OnLb(w.next)
    {
      assert OwnerExists(w, i);
    }
    NonEmpty(PoolsOf(w.items, w.next));
    assert PoolsOf(w.items, w.next) == [];
  }

  lemma OwnApart(w: World, q: Query, members: bool)
    requires Valid(w) && Apart(w, q, members)
    ensures NoTwins(w.items, Own(w, q), members)
  {
    hide FoundIn;
    if FoundIn(w, q).None? {
      NewLbApart(w, members);
    }
  }

  /** At every moment of a run, cut off or not, and whatever the cloud refuses: no two pools of its load balancer
      have the same key, and no two listeners or monitors of a pool, if none had at the start. The same holds of
      members, if those that are desired are reported back as requested. The desired states of turns may differ. */
  lemma RunApart(w: World, q: Query, turns: seq<Turn>, t: Turn, k: nat, w1: World, members: bool)
    requires Valid(w) && Apart(w, q, members) && Moment(w, q, turns, t, k, w1)
    requires AllDecent(w.subnets, q, turns + [t], members)
    ensures Apart(w1, q, members)
  {
    RunAtMost(w, q, turns, t, k, w1, members);
    RunOrigin(w, q, turns, t, k, w1);
    DecentConsistent(w.subnets, q, turns + [t], members);
    OwnApart(w, q, members);
    assert t in turns + [t] && forall x :: x in turns ==> x in turns + [t];
    hide Valid;
    hide NoTwins;
    hide AtMost;
    hide Moment;
    hide AllDecent;
    hide Consistent;
    hide FoundIn;
    StillApart(w, w1, Own(w, q), members);
    OwnAtMoment(w, q, turns, t, k, w1, IpsOfAll(turns + [t]));
  }

  lemma OwnAtMoment(w: World, q: Query, turns: seq<Turn>, t: Turn, k: nat, w1: World, ips: set<string>)
    requires Valid(w) && Moment(w, q, turns, t, k, w1)
    requires Consistent(q, false, ips, t) && forall x :: x in turns ==> Consistent(q, false, ips, x)
    ensures Own(w1, q) == Own(w, q)
  {
    var w0 := After(w, q, turns);
    hide After;
    hide Ongoing;
    hide Own;
    hide Consistent;
    hide Planned;
    hide Batch;
    hide Frame;
    AfterFrame(w, q, turns, false, ips);
    OwnAfterPart(w0, q, t, k, ips);
  }

  lemma InListing(items: seq<Item>, lb: Uuid, p: Item)
    requires p in PoolsOf(items, lb)
    ensures p in items && p.spec.Pool? && p.owner == OnLb(lb)
  {
  }

  lemma IsListed(items: seq<Item>, lb: Uuid, p: Item)
    requires p in items && p.spec.Pool? && p.owner == OnLb(lb)
    ensures p in PoolsOf(items, lb)
  {
  }
}
