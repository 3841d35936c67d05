/** What a run for one desired state leaves behind, also where resources share a key: how many of each key depends
    on the cloud it started from and on the desired state only. */
module Tallies {
  import opened Seqs
  import opened Compare
  import opened Domain
  import opened CloudWorld
  import opened Validity
  import opened Planner
  import opened Lookup
  import opened Rounds
  import opened JobBatches
  import opened ChildRounds
  import opened PoolRounds
  import opened FinalRounds
  import opened Convergence
  import opened Frames
  import opened PlanLocality
  import opened Runs
  import opened Progress
  import opened OrderIndependence
  import opened Disruption
  import opened Twins
  import opened Outcomes
  import opened Gaps

  // ---------------------------------------------------------------- pools of a desired key

  lemma SurvivorsHold(items: seq<Item>, gone: set<Uuid>, lb: Uuid, key: Key)
    requires forall p :: p in Holding(items, OnLb(lb), KPool, key) ==> p.id !in gone
    ensures Holding(Survivors(items, gone), OnLb(lb), KPool, key) == Holding(items, OnLb(lb), KPool, key)
  {
    hide KeyOf;
    FilterTwice(items, i => Stays(i, gone), i => Has(i, OnLb(lb), KPool, key), i => Stays(i, gone) && Has(i, OnLb(lb), KPool, key));
    FilterSame(items, i => Stays(i, gone) && Has(i, OnLb(lb), KPool, key), i => Has(i, OnLb(lb), KPool, key));
  }

  lemma UpdateHoldsPools(items: seq<Item>, a: Action, lb: Uuid, key: Key)
    ensures Holding(Map(items, (i: Item) => Revised(i, a)), OnLb(lb), KPool, key) == Holding(items, OnLb(lb), KPool, key)
  {
    forall i | i in items
      ensures Has(Revised(i, a), OnLb(lb), KPool, key) == Has(i, OnLb(lb), KPool, key)
      ensures Has(i, OnLb(lb), KPool, key) ==> Revised(i, a) == i
    {
      RevisedSame(i, a);
      if i.spec.Pool? {
        PoolUnrevised(i, a);
      }
    }
    hide Revised;
    SameHeld(items, (i: Item) => Revised(i, a), OnLb(lb), KPool, key);
  }

  /** An action that deletes none of the pools of a key, and asks for none, leaves them as they are. */
  lemma StepHolds(w: World, own: Uuid, ids: set<Uuid>, ips: set<string>, a: Action, key: Key)
    requires Owns(w, own, ids) && Local(own, false, ids, ips, a) && Apply(w, a).Proceed?
    requires AskedFor([a], w.subnets, OnLb(own), KPool, key) == 0
    requires a.DeleteResource? ==> forall p :: p in Holding(w.items, OnLb(own), KPool, key) ==> p.id != a.id
    ensures Holding(Apply(w, a).world.items, OnLb(own), KPool, key) == Holding(w.items, OnLb(own), KPool, key)
  {
    hide Holding;
    hide AskedFor;
    hide Has;
    hide Stored;
    hide Revise;
    hide Revised;
    hide Survivors;
    if IsUpdate(a) {
      UpdateHoldsPools(w.items, a, own, key);
    } else if Creation(a).Some? {
      CreationHolds(w, a, OnLb(own), KPool, key);
    } else if a.DeleteResource? {
      SurvivorsHold(w.items, {a.id}, own, key);
    }
  }

  lemma {:induction false} BatchHolds(w: World, own: Uuid, ids: set<Uuid>, ips: set<string>, b: seq<Action>, key: Key)
    requires Valid(w) && Owns(w, own, ids) && forall a :: a in b ==> Local(own, false, ids, ips, a)
    requires AskedFor(b, w.subnets, OnLb(own), KPool, key) == 0
    requires forall a, p :: a in b && a.DeleteResource? && p in Holding(w.items, OnLb(own), KPool, key) ==> p.id != a.id
    ensures Holding(Exec(w, b).world.items, OnLb(own), KPool, key) == Holding(w.items, OnLb(own), KPool, key)
    decreases |b|
  {
    hide Holding;
    hide AskedFor;
    if b != [] && Apply(w, b[0]).Proceed? {
      var a, w1 := b[0], Apply(w, b[0]).world;
      assert a in b && b == [a] + b[1..];
      AskedConcat([a], b[1..], w.subnets, OnLb(own), KPool, key);
      StepHolds(w, own, ids, ips, a, key);
      StepAdds(w, a, OnLb(own), KPool, key);
      LocalStep(w, own, false, ids, ips, a);
      hide Apply;
      hide Local;
      hide Owns;
      hide Valid;
      BatchHolds(w1, own, ids, ips, b[1..], key);
    }
  }

  lemma NoNames(names: Key -> string, w: World, d: State, l: Lb, p: Item, key: Key)
    requires p in Holding(w.items, OnLb(l.id), KPool, key) && key in KeySet(d.pools, NodeKey)
    ensures DesiredTold(names, d, None) && PoolsTold(names, w.items, l.id, None)
    ensures ChildOf(w, l.id, p, None) && StillDesired(d, p, None)
  {
    hide KeyOf;
  }

  /** No part of a turn touches the pools of a desired key, if there are any, or makes one more. */
  lemma PartHolds(w: World, q: Query, t: Turn, k: nat, key: Key)
    requires Valid(w) && Planned(w, q, t) && Decent(w.subnets, q, t.desired, false) && k <= |Batch(w, q, t)|
    requires key in KeySet(t.desired.pools, NodeKey) && Holding(w.items, OnLb(Own(w, q)), KPool, key) != []
    ensures Holding(Exec(w, Batch(w, q, t)[..k]).world.items, OnLb(Own(w, q)), KPool, key)
         == Holding(w.items, OnLb(Own(w, q)), KPool, key)
  {
    if FoundIn(w, q).Some? {
      FoundHolds(w, q, t, k, key);
    } else {
      CreateCut(w, t.desired.lb.value, k);
      assert Apply(w, CreateLb(t.desired.lb.value)).world.items == w.items;
      hide Apply;
      hide Exec;
      hide Holding;
    }
  }

  lemma NoMoreAsked(w: World, b: seq<Action>, k: nat, lb: Uuid, key: Key)
    requires Additive(w, b, false) && k <= |b| && Holding(w.items, OnLb(lb), KPool, key) != []
    ensures AskedFor(b[..k], w.subnets, OnLb(lb), KPool, key) == 0
  {
    assert InScope(false, KPool);
    assert AsksOnce(w, b, OnLb(lb), KPool, key);
    assert b == b[..k] + b[k..];
    AskedConcat(b[..k], b[k..], w.subnets, OnLb(lb), KPool, key);
    hide AskedFor;
    hide Holding;
  }

  lemma FoundHolds(w: World, q: Query, t: Turn, k: nat, key: Key)
    requires Valid(w) && Planned(w, q, t) && Decent(w.subnets, q, t.desired, false) && k <= |Batch(w, q, t)|
    requires FoundIn(w, q).Some? && key in KeySet(t.desired.pools, NodeKey)
    requires Holding(w.items, OnLb(FoundIn(w, q).value.id), KPool, key) != []
    ensures
      var lb := FoundIn(w, q).value.id;
      Holding(Exec(w, Batch(w, q, t)[..k]).world.items, OnLb(lb), KPool, key) == Holding(w.items, OnLb(lb), KPool, key)
  {
    var b, d, l := Batch(w, q, t), t.desired, FoundIn(w, q).value;
    var ids, ips := OwnIds(w.items, l.id), Addresses(d.floatingIPs);
    PlannedIsPlan(w, q, t, false);
    PlanAdditive(w, d, l, t.status, t.choice, false);
    FoundInLbs(w, q);
    OwnsOwn(w, l);
    PlanLocal(w, d, l, t.status, t.choice);
    assert d.lb.Some? && Possible(d, Snapshot(w, Some(l), t.status), t.choice);
    hide Plan;
    hide Snapshot;
    hide Possible;
    hide PlanOf;
    hide Additive;
    hide Holding;
    hide AskedFor;
    hide Owns;
    hide Local;
    hide Valid;
    hide Planned;
    hide Decent;
    hide Batch;
    NoMoreAsked(w, b, k, l.id, key);
    forall a, p | a in b[..k] && a.DeleteResource? && p in Holding(w.items, OnLb(l.id), KPool, key)
      ensures p.id != a.id
    {
      assert a in b;
      var names: Key -> string := x => "";
      NoNames(names, w, d, l, p, key);
      PlanSpares(w, names, d, l, t.status, t.choice, p, None);
    }
    assert forall a :: a in b[..k] ==> a in b;
    BatchHolds(w, l.id, ids, ips, b[..k], key);
  }

  // ---------------------------------------------------------------- through whole runs

  /** All these turns ask for a pool of this key. */
  ghost predicate AllWantKey(turns: seq<Turn>, key: Key) {
    forall t :: t in turns ==> key in KeySet(t.desired.pools, NodeKey)
  }

  lemma {:induction false} AfterHolds(w: World, q: Query, turns: seq<Turn>, key: Key)
    requires Valid(w) && Ongoing(w, q, turns) && AllDecent(w.subnets, q, turns, false) && AllWantKey(turns, key)
    requires Holding(w.items, OnLb(Own(w, q)), KPool, key) != []
    ensures Holding(After(w, q, turns).items, OnLb(Own(w, q)), KPool, key) == Holding(w.items, OnLb(Own(w, q)), KPool, key)
  {
    hide Valid;
    hide Decent;
    hide Holding;
    hide Own;
    hide Planned;
    hide Batch;
    if turns != [] {
      var init, t := turns[..|turns| - 1], turns[|turns| - 1];
      assert turns == init + [t];
      assert AllDecent(w.subnets, q, init, false) && AllWantKey(init, key) && t in turns;
      AfterHolds(w, q, init, key);
      AfterValid(w, q, init, false);
      var w0 := After(w, q, init);
      WholeTurn(w0, q, t);
      PartHolds(w0, q, t, |Batch(w0, q, t)|, key);
    }
  }

  /** At every moment of a run whose turns all desire a pool of this key: if there were such pools at the start, they
      are the same ones, in the same order. */
  lemma RunHolds(w: World, q: Query, turns: seq<Turn>, t: Turn, k: nat, w1: World, key: Key)
    requires Valid(w) && Moment(w, q, turns, t, k, w1)
    requires AllDecent(w.subnets, q, turns + [t], false) && AllWantKey(turns + [t], key)
    requires Holding(w.items, OnLb(Own(w, q)), KPool, key) != []
    ensures Holding(w1.items, OnLb(Own(w, q)), KPool, key) == Holding(w.items, OnLb(Own(w, q)), KPool, key)
  {
    assert t in turns + [t] && forall x :: x in turns ==> x in turns + [t];
    assert AllDecent(w.subnets, q, turns, false) && AllWantKey(turns, key);
    hide Valid;
    hide Decent;
    hide Holding;
    hide Own;
    hide Planned;
    hide Batch;
    hide After;
    hide Ongoing;
    AfterHolds(w, q, turns, key);
    AfterValid(w, q, turns, false);
    PartHolds(After(w, q, turns), q, t, k, key);
  }

  // ---------------------------------------------------------------- what is in pools of a desired key

  lemma MoreIds(a: seq<Item>, b: seq<Item>)
    requires Distinct(a, ItemId) && Distinct(b, ItemId) && forall i :: i in a ==> exists j :: j in b && j.id == i.id
    ensures |a| <= |b|
  {
    ListSize(a, ItemId);
    ListSize(b, ItemId);
    assert KeySet(a, ItemId) <= KeySet(b, ItemId);
    SubsetSize(KeySet(a, ItemId), KeySet(b, ItemId));
  }

  lemma SubsetSize<T>(a: set<T>, b: set<T>)
    requires a <= b
    ensures |a| <= |b|
  {
    assert b == a + (b - a);
  }

  /** What a cloud holds of a key, it holds still, if another one has kept each of it. */
  lemma AllKept(w: World, w1: World, p: Item, kind: Kind, key: Key)
    requires Distinct(w.items, ItemId) && Distinct(w1.items, ItemId)
    requires forall i :: i in Holding(w.items, InPool(p.id), kind, key) ==> Kept(w, p, Some(i), w1)
    ensures |Holding(w1.items, InPool(p.id), kind, key)| >= |Holding(w.items, InPool(p.id), kind, key)|
  {
    var a, b := Holding(w.items, InPool(p.id), kind, key), Holding(w1.items, InPool(p.id), kind, key);
    FilterDistinct(w.items, i => Has(i, InPool(p.id), kind, key), ItemId);
    FilterDistinct(w1.items, i => Has(i, InPool(p.id), kind, key), ItemId);
    hide KeyOf;
    hide Distinct;
    forall i | i in a
      ensures exists j :: j in b && j.id == i.id
    {
      assert Kept(w, p, Some(i), w1);
      var j :| j in w1.items && SameResource(i, j);
      assert j in b;
    }
    MoreIds(a, b);
  }

  /** The key `key` of this kind is desired below a pool of the key of `p`, in a state whose keys tell pool names. */
  ghost predicate DesiredBelow(names: Key -> string, d: State, p: Item, kind: Kind, key: Key) {
    && AllNamed(names, d) && ItemKey(p) in KeySet(d.pools, NodeKey)
    && forall n :: n in d.pools && NodeKey(n) == ItemKey(p) ==> key in KeySet(ChildrenIn(n, kind), ItemKey)
  }

  lemma IsCareful(subnets: map<string, Subnet>, q: Query, names: Key -> string, t: Turn, p: Item, i: Item, kind: Kind, key: Key)
    requires Decent(subnets, q, t.desired, false) && DesiredBelow(names, t.desired, p, kind, key)
    requires Has(i, InPool(p.id), kind, key)
    ensures Disruption.Careful(q, names, t, p, Some(i))
  {
    hide AllNamed;
    hide KeyOf;
    hide ProperNode;
    hide ChildrenIn;
  }

  lemma StartsWith(names: Key -> string, w: World, q: Query, p: Item, i: Item, kind: Kind, key: Key)
    requires Valid(w) && FoundIn(w, q).Some? && KnownPools(names, w, q) && p in PoolsOf(w.items, FoundIn(w, q).value.id)
    requires i in Holding(w.items, InPool(p.id), kind, key)
    ensures Start(w, q, names, p, Some(i)) && Has(i, InPool(p.id), kind, key)
  {
    InListing(w.items, FoundIn(w, q).value.id, p);
    hide Valid;
    hide FoundIn;
    hide PoolsNamed;
    hide PoolsOf;
    hide KeyOf;
  }

  lemma AllCareful(subnets: map<string, Subnet>, q: Query, names: Key -> string, turns: seq<Turn>, p: Item, i: Item, kind: Kind, key: Key)
    requires AllDecent(subnets, q, turns, false) && Has(i, InPool(p.id), kind, key)
    requires forall x :: x in turns ==> DesiredBelow(names, x.desired, p, kind, key)
    ensures forall x :: x in turns ==> Disruption.Careful(q, names, x, p, Some(i))
  {
    hide Decent;
    hide DesiredBelow;
    hide Disruption.Careful;
    hide Has;
    forall x | x in turns
      ensures Disruption.Careful(q, names, x, p, Some(i))
    {
      IsCareful(subnets, q, names, x, p, i, kind, key);
    }
  }

  lemma LastToo<T>(s: seq<T>, x: T)
    ensures x in s + [x] && forall y :: y in s ==> y in s + [x]
  {
  }

  /** At every moment of a run, a pool of a desired key has no fewer resources of a desired key than at the start. */
  lemma RunKeepsAll(names: Key -> string, w: World, q: Query, turns: seq<Turn>, t: Turn, k: nat, w1: World, p: Item, kind: Kind, key: Key)
    requires Valid(w) && Moment(w, q, turns, t, k, w1) && AllDecent(w.subnets, q, turns + [t], false)
    requires FoundIn(w, q).Some? && KnownPools(names, w, q) && p in PoolsOf(w.items, FoundIn(w, q).value.id)
    requires forall x :: x in turns + [t] ==> DesiredBelow(names, x.desired, p, kind, key)
    ensures |Holding(w1.items, InPool(p.id), kind, key)| >= |Holding(w.items, InPool(p.id), kind, key)|
  {
    LastToo(turns, t);
    ValidAtMoment(w, q, turns, t, k, w1);
    assert Distinct(w.items, ItemId) && Distinct(w1.items, ItemId);
    hide *;
    forall i | i in Holding(w.items, InPool(p.id), kind, key)
      ensures Kept(w, p, Some(i), w1)
    {
      StartsWith(names, w, q, p, i, kind, key);
      AllCareful(w.subnets, q, names, turns + [t], p, i, kind, key);
      RunKeeps(w, q, turns, t, k, w1, names, p, Some(i));
    }
    AllKept(w, w1, p, kind, key);
  }

  lemma ValidAtMoment(w: World, q: Query, turns: seq<Turn>, t: Turn, k: nat, w1: World)
    requires Valid(w) && Moment(w, q, turns, t, k, w1) && AllDecent(w.subnets, q, turns + [t], false)
    ensures Valid(w1)
  {
    assert forall x :: x in turns ==> x in turns + [t];
    assert AllDecent(w.subnets, q, turns, false);
    hide Valid;
    hide AllDecent;
    hide Batch;
    hide After;
    hide Ongoing;
    hide Planned;
    AfterValid(w, q, turns, false);
    ExecValid(After(w, q, turns), Batch(After(w, q, turns), q, t)[..k]);
  }

  // ---------------------------------------------------------------- the last pool of a key

  /** What a map holds under a key is the last element with it. */
  lemma {:induction false} IndexLast<T(!new), K(!new)>(s: seq<T>, key: T -> K, k: K, p: T -> bool)
    requires forall x :: p(x) <==> key(x) == k
    ensures k in Index(s, key) <==> Filter(s, p) != []
    ensures k in Index(s, key) ==> Index(s, key)[k] == Filter(s, p)[|Filter(s, p)| - 1]
  {
    if s == [] {
      NonEmpty(Filter(s, p));
    } else {
      var init, x := s[..|s| - 1], s[|s| - 1];
      assert s == init + [x];
      IndexLast(init, key, k, p);
      FilterLast(init, x, p);
      hide Filter;
    }
  }

  lemma NameIsKey(names: Key -> string, items: seq<Item>, lb: Uuid, d: State, n: PoolNode, p: Item)
    requires AllNamed(names, d) && PoolsNamed(names, items, lb) && n in d.pools
    requires KeySet(d.pools, NodeKey) == KeySet(PoolsOf(items, lb), ItemKey) && p in PoolsOf(items, lb)
    ensures PoolName(p) == NodeName(n) <==> ItemKey(p) == NodeKey(n)
  {
    InListing(items, lb, p);
    hide KeyOf;
    hide PoolsOf;
    assert ItemKey(p) in KeySet(PoolsOf(items, lb), ItemKey);
    var m :| m in d.pools && NodeKey(m) == ItemKey(p);
    assert NamedBy(names, m.pool.spec) && NamedBy(names, n.pool.spec) && NamedBy(names, p.spec);
    if NodeName(m) == NodeName(n) {
      DistinctSame(d.pools, NodeName, m, n);
    }
  }

  function Last<T>(s: seq<T>): T
    requires s != []
  {
    s[|s| - 1]
  }

  /** Where all keys are desired ones, the pool found by name is the last one of its key. */
  lemma RepIsLast(names: Key -> string, items: seq<Item>, lb: Uuid, d: State, n: PoolNode)
    requires AllNamed(names, d) && PoolsNamed(names, items, lb) && n in d.pools && HasReps(d.pools, items, lb)
    requires KeySet(d.pools, NodeKey) == KeySet(PoolsOf(items, lb), ItemKey)
    ensures Holding(items, OnLb(lb), KPool, NodeKey(n)) != []
    ensures Rep(items, lb, NodeName(n)) == Last(Holding(items, OnLb(lb), KPool, NodeKey(n)))
  {
    var ps := PoolsOf(items, lb);
    IndexLast(ps, PoolName, NodeName(n), (p: Item) => PoolName(p) == NodeName(n));
    forall p | p in ps
      ensures PoolName(p) == NodeName(n) <==> ItemKey(p) == NodeKey(n)
    {
      NameIsKey(names, items, lb, d, n, p);
    }
    hide Index;
    hide KeyOf;
    hide Holding;
    FilterSame(ps, (p: Item) => PoolName(p) == NodeName(n), (p: Item) => ItemKey(p) == NodeKey(n));
    HeldOf(items, OnLb(lb), KPool, NodeKey(n));
    hide Filter;
  }

  // ---------------------------------------------------------------- how many there are in the end

  /** How many resources of a key there are at the end, if there were `n`. */
  function Expected(desired: bool, n: nat): nat {
    if desired then AtLeastOne(n) else 0
  }

  lemma HeldIsKey(items: seq<Item>, owner: Owner, kind: Kind, key: Key)
    ensures Holding(items, owner, kind, key) != [] <==> key in KeySet(Children(items, owner, kind), ItemKey)
  {
    NonEmpty(Holding(items, owner, kind, key));
    hide KeyOf;
    assert forall i :: i in items && IsChild(i, owner, kind) && ItemKey(i) == key ==> i in Holding(items, owner, kind, key);
  }

  /** Of each desired key there are as many pools as before, and the same ones, or one new one if there was none;
      of any other key there are none. */
  ghost predicate PoolsTallied(w: World, lb: Uuid, d: State, w1: World) {
    forall key ::
      var before, now := Holding(w.items, OnLb(lb), KPool, key), Holding(w1.items, OnLb(lb), KPool, key);
      && |now| == Expected(key in KeySet(d.pools, NodeKey), |before|)
      && (key in KeySet(d.pools, NodeKey) && before != [] ==> now == before)
  }

  /** The resources of a key in the last pool of its key, 0 if there is no such pool. */
  ghost function HeldAtStart(w: World, lb: Uuid, n: PoolNode, kind: Kind, key: Key): nat {
    var ps := Holding(w.items, OnLb(lb), KPool, NodeKey(n));
    if ps == [] then 0 else |Holding(w.items, InPool(Last(ps).id), kind, key)|
  }

  /** The desired pool that is found by its name holds as many members, listeners and monitors of each desired key as
      the last pool of its key did at the start, or one of each if there was none, and nothing else. */
  ghost predicate ContentsTallied(w: World, lb: Uuid, d: State, w1: World) {
    && HasReps(d.pools, w1.items, lb)
    && forall n, kind, key :: n in d.pools && kind != KPool ==>
      |Holding(w1.items, InPool(Rep(w1.items, lb, NodeName(n)).id), kind, key)|
      == Expected(key in KeySet(ChildrenIn(n, kind), ItemKey), HeldAtStart(w, lb, n, kind, key))
  }

  /** The other pools of a desired key hold as many resources of each key as they did at the start. */
  ghost predicate OthersTallied(w: World, lb: Uuid, d: State, w1: World) {
    forall p, kind, key :: Shadowed(w, lb, d, p) ==>
      |Holding(w1.items, InPool(p.id), kind, key)| == |Holding(w.items, InPool(p.id), kind, key)|
  }

  lemma KeyTally(w: World, lb: Uuid, d: State, w1: World, key: Key)
    requires AtMost(w.items, w1.items, true) && KeySet(d.pools, NodeKey) == KeySet(PoolsOf(w1.items, lb), ItemKey)
    requires key in KeySet(d.pools, NodeKey) && Holding(w.items, OnLb(lb), KPool, key) != [] ==>
      Holding(w1.items, OnLb(lb), KPool, key) == Holding(w.items, OnLb(lb), KPool, key)
    ensures |Holding(w1.items, OnLb(lb), KPool, key)|
         == Expected(key in KeySet(d.pools, NodeKey), |Holding(w.items, OnLb(lb), KPool, key)|)
  {
    HeldIsKey(w1.items, OnLb(lb), KPool, key);
    assert InScope(true, KPool);
    assert |Holding(w1.items, OnLb(lb), KPool, key)| <= AtLeastOne(|Holding(w.items, OnLb(lb), KPool, key)|);
    hide Holding;
    hide Children;
    hide KeyOf;
  }

  lemma JobOfKind(n: PoolNode, items: seq<Item>, p: Item, kind: Kind) returns (j: Job)
    requires kind != KPool
    ensures j in RepJobs(n, items, p) && j.want == ChildrenIn(n, kind) && j.have == Children(items, InPool(p.id), kind)
  {
    var js := RepJobs(n, items, p);
    assert js[0] in js && js[1] in js && js[2] in js;
    hide Children;
    j := if kind == KMember then js[0] else if kind == KListener then js[1] else js[2];
  }

  lemma SettledKeys(items: seq<Item>, n: PoolNode, p: Item, kind: Kind, key: Key)
    requires SettledPool(items, n, p) && kind != KPool
    ensures Holding(items, InPool(p.id), kind, key) != [] <==> key in KeySet(ChildrenIn(n, kind), ItemKey)
  {
    var j := JobOfKind(n, items, p, kind);
    assert SettledJob(j);
    HeldIsKey(items, InPool(p.id), kind, key);
    hide SettledPool;
    hide Holding;
    hide Children;
    hide KeyOf;
    hide ChildrenIn;
    hide RepJobs;
  }

  // ---------------------------------------------------------------- other pools of a desired key

  /** `p` has a desired key, but is not the last pool of its key. */
  ghost predicate Shadowed(w: World, lb: Uuid, d: State, p: Item) {
    var ps := Holding(w.items, OnLb(lb), KPool, ItemKey(p));
    p in ps && p != Last(ps) && ItemKey(p) in KeySet(d.pools, NodeKey)
  }

  lemma ShadowedIs(w: World, lb: Uuid, d: State, p: Item)
    requires Shadowed(w, lb, d, p)
    ensures p in w.items && p.spec.Pool? && p.owner == OnLb(lb) && ItemKey(p) in KeySet(d.pools, NodeKey)
  {
    hide KeyOf;
  }

  /** The reconciler does not compare its contents with anything. */
  lemma NotCompared(names: Key -> string, w: World, lb: Uuid, d: State, p: Item, j: Job)
    requires Valid(w) && AllNamed(names, d) && PoolsNamed(names, w.items, lb) && HasReps(d.pools, w.items, lb)
    requires KeySet(d.pools, NodeKey) == KeySet(PoolsOf(w.items, lb), ItemKey) && Shadowed(w, lb, d, p)
    requires j in Jobs(d.pools, NodesOf(w.items, lb))
    ensures j.pool != p.id
  {
    hide Jobs;
    hide Index;
    hide NodesOf;
    hide RepJobs;
    hide KeyOf;
    hide AllNamed;
    hide PoolsNamed;
    JobIn(d.pools, w.items, lb, j);
    var n :| n in d.pools && j in RepJobs(n, w.items, Rep(w.items, lb, NodeName(n)));
    var rep := Rep(w.items, lb, NodeName(n));
    RepJobIds(n, w.items, rep);
    RepFacts(w, lb, NodeName(n));
    RepIsLast(names, w.items, lb, d, n);
    LastIn(Holding(w.items, OnLb(lb), KPool, NodeKey(n)));
    hide Rep;
    hide PoolsOf;
    if j.pool == p.id {
      SameId(w.items, rep, p);
    }
  }

  lemma LastIn(s: seq<Item>)
    requires s != []
    ensures Last(s) in s
  {
  }

  lemma ChildSpared(w: World, d: State, lb: Uuid, diffs: seq<JobDiff>, p: Item, i: Item)
    requires Valid(w) && GoodDiffs(w, diffs) && (forall x :: x in diffs ==> x.job.pool != p.id)
    requires ChildOf(w, lb, p, Some(i))
    ensures Spares(Flat(diffs, JobSteps), p, Some(i))
  {
    FlatMember(diffs, JobSteps);
    hide Flat;
    forall a | a in Flat(diffs, JobSteps) && a.DeleteResource?
      ensures a.id != p.id && a.id != i.id
    {
      var x :| x in diffs && a in JobSteps(x);
      JobDeletes(x, a);
      DiffFacts(w, x);
      hide JobSteps;
      hide GoodJob;
      hide DiffOf;
      hide GoodDiffs;
      var y :| y in x.del && y.id == a.id;
      if y.id == p.id { SameId(w.items, y, p); }
      if y.id == i.id { SameId(w.items, y, i); }
    }
  }

  lemma PlanParts(w: World, d: State, l: Lb, status: string, c: Choice)
    requires PlanOf(w, d, l, status, c)
    ensures Valid(w) && d.lb.Some? && IsDiff(d.pools, NodesOf(w.items, l.id), NodeKey, c.poolDel, c.poolCre)
  {
    hide IsDiff;
    hide NodesOf;
    hide Valid;
    hide DiffsOf;
    hide Jobs;
  }

  lemma PlanLeaves(names: Key -> string, w: World, d: State, l: Lb, status: string, c: Choice, p: Item, i: Item)
    requires PlanOf(w, d, l, status, c) && AllNamed(names, d) && PoolsNamed(names, w.items, l.id)
    requires Shadowed(w, l.id, d, p) && ChildOf(w, l.id, p, Some(i))
    ensures Spares(Plan(d, Snapshot(w, Some(l), status), c), p, Some(i))
  {
    ShadowedIs(w, l.id, d, p);
    PlanParts(w, d, l, status, c);
    var b := Plan(d, Snapshot(w, Some(l), status), c);
    hide *;
    if c.poolDel != [] || c.poolCre != [] {
      PoolStepsSpare(w, d, l, c, p, Some(i));
      PoolPhaseSpares(w, d, l, status, c, p, Some(i));
    } else {
      NothingCompared(names, w, d, l, status, c, p);
      NoPoolPhase(c);
      RoundChildPlan(w, d, l, status, c);
      GoodOf(w, OpeningOf(d, l, status), c.diffs);
      ChildSpared(w, d, l.id, c.diffs, p, i);
      ChildPhaseSpares(w, d, l, status, c, p, Some(i));
    }
  }

  lemma NoPoolPhase(c: Choice)
    ensures PoolPhase(c) <==> c.poolDel != [] || c.poolCre != []
  {
  }

  lemma GoodOf(w: World, o: seq<Action>, diffs: seq<JobDiff>)
    requires ChildPlan(w, o, diffs)
    ensures GoodDiffs(w, diffs)
  {
    hide GoodDiffs;
    hide Valid;
  }

  lemma PoolPhaseSpares(w: World, d: State, l: Lb, status: string, c: Choice, p: Item, i: Option<Item>)
    requires d.lb.Some? && (c.poolDel != [] || c.poolCre != []) && Spares(Flat(c.poolDel, PoolRemoval), p, i)
    ensures Spares(Plan(d, Snapshot(w, Some(l), status), c), p, i)
  {
    hide Plan;
    hide Flat;
    hide Snapshot;
    forall a | a in Plan(d, Snapshot(w, Some(l), status), c) && a.DeleteResource?
      ensures a.id != p.id && (i.Some? ==> a.id != i.value.id)
    {
      PlanDeletes(w, d, l, status, c, a);
    }
  }

  lemma ChildPhaseSpares(w: World, d: State, l: Lb, status: string, c: Choice, p: Item, i: Option<Item>)
    requires d.lb.Some? && c.poolDel == [] && c.poolCre == [] && Spares(Flat(c.diffs, JobSteps), p, i)
    ensures Spares(Plan(d, Snapshot(w, Some(l), status), c), p, i)
  {
    hide Plan;
    hide Flat;
    hide Snapshot;
    forall a | a in Plan(d, Snapshot(w, Some(l), status), c) && a.DeleteResource?
      ensures a.id != p.id && (i.Some? ==> a.id != i.value.id)
    {
      PlanDeletes(w, d, l, status, c, a);
    }
  }

  lemma NothingCompared(names: Key -> string, w: World, d: State, l: Lb, status: string, c: Choice, p: Item)
    requires PlanOf(w, d, l, status, c) && c.poolDel == [] && c.poolCre == []
    requires AllNamed(names, d) && PoolsNamed(names, w.items, l.id) && Shadowed(w, l.id, d, p)
    ensures forall x :: x in c.diffs ==> x.job.pool != p.id
  {
    RoundJobsGood(w, d, l, status, c);
    SameKeys(w, d, l, status, c);
    assert Valid(w);
    hide PlanOf;
    hide Valid;
    hide Jobs;
    hide NodesOf;
    hide PoolsOf;
    hide HasReps;
    hide DiffsOf;
    hide GoodJobs;
    hide AllNamed;
    hide PoolsNamed;
    hide Shadowed;
    hide KeySet;
    forall x | x in c.diffs
      ensures x.job.pool != p.id
    {
      JobOfDiff(RoundJobs(w, d, l.id), c.diffs, x);
      NotCompared(names, w, l.id, d, p, x.job);
    }
  }

  lemma SameKeys(w: World, d: State, l: Lb, status: string, c: Choice)
    requires PlanOf(w, d, l, status, c) && !PoolPhase(c)
    ensures KeySet(d.pools, NodeKey) == KeySet(PoolsOf(w.items, l.id), ItemKey)
  {
    var seen := Snapshot(w, Some(l), status);
    EmptyDiffSamePools(d, seen, c.poolDel, c.poolCre);
    ListedKeys(w.items, l.id);
    hide IsDiff;
    hide DiffsOf;
    hide Jobs;
    hide NodesOf;
    hide Resolves;
    hide KeyOf;
    hide Valid;
  }

  /** No plan asks for anything below a pool that is not compared. */
  lemma NothingAsked(names: Key -> string, w: World, d: State, l: Lb, status: string, c: Choice, p: Item, kind: Kind, key: Key)
    requires PlanOf(w, d, l, status, c) && AllNamed(names, d) && PoolsNamed(names, w.items, l.id)
    requires Shadowed(w, l.id, d, p) && AllFaithful(w.subnets, d)
    ensures AskedFor(Plan(d, Snapshot(w, Some(l), status), c), w.subnets, InPool(p.id), kind, key) == 0
  {
    var o, owner := OpeningOf(d, l, status), InPool(p.id);
    if PoolPhase(c) {
      RoundPoolPlan(w, d, l, status, c);
      PoolBatchIs(w, d, l, status, c);
      hide *;
      PoolsAskNoChild(w, l.id, o, d.pools, c.poolDel, c.poolCre, p.id, kind, key);
      AskedRefetch(o + PoolSteps(l.id, c.poolDel, c.poolCre), w.subnets, owner, kind, key);
    } else if ChildPhase(c) {
      NothingCompared(names, w, d, l, status, c, p);
      RoundChildPlan(w, d, l, status, c);
      ScopeOfJobs(w, d, l, status, c, true);
      ChildBatchIs(w, d, l, status, c);
      hide *;
      JobsAskElsewhere(w, o, c.diffs, p.id, kind, key);
      AskedRefetch(o + Flat(c.diffs, JobSteps), w.subnets, owner, kind, key);
    } else {
      LastPlanCreatesNothing(w, d, l, status, c);
      hide Plan;
      AskedNothing(Plan(d, Snapshot(w, Some(l), status), c), w.subnets, owner, kind, key);
    }
  }

  lemma AskedRefetch(b: seq<Action>, subnets: map<string, Subnet>, owner: Owner, kind: Kind, key: Key)
    ensures AskedFor(b + [Refetch], subnets, owner, kind, key) == AskedFor(b, subnets, owner, kind, key)
  {
    AskedNothing([Refetch], subnets, owner, kind, key);
    AskedConcat(b, [Refetch], subnets, owner, kind, key);
    hide AskedFor;
  }

  lemma PoolsAskNoChild(w: World, lb: Uuid, o: seq<Action>, ds: seq<PoolNode>, del: seq<PoolNode>, cre: seq<PoolNode>,
                        pool: Uuid, kind: Kind, key: Key)
    requires PoolPlan(w, lb, o, ds, del, cre)
    ensures AskedFor(o + PoolSteps(lb, del, cre), w.subnets, InPool(pool), kind, key) == 0
  {
    var shapes := Map(cre, PoolShape(lb));
    PoolDiffFacts(w, lb, ds, del, cre);
    hide IsDiff;
    hide NodesOf;
    hide Flat;
    hide PoolSteps;
    hide Matching;
    hide Valid;
    PoolStepsAsk(lb, o, del, cre, w.subnets);
    SomeMatch(shapes, InPool(pool), kind, key);
    hide KeyOf;
    forall s | s in shapes
      ensures !AskedAs(s, InPool(pool), kind, key)
    {
      var k :| 0 <= k < |shapes| && shapes[k] == s;
    }
  }

  lemma JobsAskElsewhere(w: World, o: seq<Action>, diffs: seq<JobDiff>, pool: Uuid, kind: Kind, key: Key)
    requires ChildPlan(w, o, diffs) && ScopeFaithful(w.subnets, diffs, true) && forall x :: x in diffs ==> x.job.pool != pool
    ensures AskedFor(o + Flat(diffs, JobSteps), w.subnets, InPool(pool), kind, key) == 0
  {
    AskedNothing(o, w.subnets, InPool(pool), kind, key);
    AskedConcat(o, Flat(diffs, JobSteps), w.subnets, InPool(pool), kind, key);
    assert InScope(true, kind);
    hide GoodDiffs;
    hide Valid;
    hide ScopeFaithful;
    JobsAskOnce(w, diffs, InPool(pool), kind, key, true);
    hide Matching;
    hide Holding;
    hide Flat;
  }

  lemma AskedPart(w: World, b: seq<Action>, k: nat, owner: Owner, kind: Kind, key: Key)
    requires k <= |b| && AskedFor(b, w.subnets, owner, kind, key) == 0
    ensures |Holding(Exec(w, b[..k]).world.items, owner, kind, key)| <= |Holding(w.items, owner, kind, key)|
  {
    assert b == b[..k] + b[k..];
    AskedConcat(b[..k], b[k..], w.subnets, owner, kind, key);
    BatchAdds(w, b[..k], owner, kind, key);
    hide AskedFor;
    hide Holding;
    hide Exec;
  }

  lemma IsChildOf(w: World, lb: Uuid, d: State, p: Item, i: Item, kind: Kind, key: Key)
    requires Shadowed(w, lb, d, p) && i in Holding(w.items, InPool(p.id), kind, key)
    ensures ChildOf(w, lb, p, Some(i))
  {
    ShadowedIs(w, lb, d, p);
    hide Shadowed;
  }

  lemma WantsLb(w: World, q: Query, d: State)
    requires Wanted(w, q, d)
    ensures d.lb.Some? && AllFaithful(w.subnets, d) && Decent(w.subnets, q, d, true) && Decent(w.subnets, q, d, false)
  {
    hide Faithful;
    hide ProperNode;
    hide Address;
    assert forall n :: n in d.pools ==> WantedNode(w.subnets, n);
  }

  /** No part of a turn changes how many resources of a key such a pool holds. */
  lemma PartLeaves(names: Key -> string, w: World, q: Query, t: Turn, k: nat, p: Item, kind: Kind, key: Key)
    requires Valid(w) && Planned(w, q, t) && Wanted(w, q, t.desired) && AllNamed(names, t.desired) && k <= |Batch(w, q, t)|
    requires FoundIn(w, q).Some? && KnownPools(names, w, q) && Shadowed(w, FoundIn(w, q).value.id, t.desired, p)
    ensures |Holding(Exec(w, Batch(w, q, t)[..k]).world.items, InPool(p.id), kind, key)| == |Holding(w.items, InPool(p.id), kind, key)|
  {
    var b, d, l := Batch(w, q, t), t.desired, FoundIn(w, q).value;
    WantsLb(w, q, d);
    PlannedIsPlan(w, q, t, true);
    assert PoolsNamed(names, w.items, l.id) && FoundIn(w, q) == Some(l);
    ExecValid(w, b[..k]);
    ValidIds(w);
    ValidIds(Exec(w, b[..k]).world);
    hide *;
    NothingAsked(names, w, d, l, t.status, t.choice, p, kind, key);
    AskedPart(w, b, k, InPool(p.id), kind, key);
    forall i | i in Holding(w.items, InPool(p.id), kind, key)
      ensures Kept(w, p, Some(i), Exec(w, b[..k]).world)
    {
      IsChildOf(w, l.id, d, p, i, kind, key);
      PlanLeaves(names, w, d, l, t.status, t.choice, p, i);
      SparedKept(w, q, t, k, p, Some(i));
    }
    AllKept(w, Exec(w, b[..k]).world, p, kind, key);
  }

  lemma ValidIds(w: World)
    requires Valid(w)
    ensures Distinct(w.items, ItemId)
  {
  }

  /** Whole turns for one desired state. */
  ghost predicate TurnsFor(w: World, q: Query, d: State, turns: seq<Turn>) {
    Ongoing(w, q, turns) && forall x :: x in turns ==> x.desired == d
  }

  lemma TurnsForParts(names: Key -> string, w: World, q: Query, d: State, turns: seq<Turn>)
    requires Valid(w) && Wanted(w, q, d) && AllNamed(names, d) && KnownPools(names, w, q) && TurnsFor(w, q, d, turns)
    ensures
      var w0 := After(w, q, turns);
      Valid(w0) && Wanted(w0, q, d) && KnownPools(names, w0, q) && Own(w0, q) == Own(w, q)
    ensures AllDecent(w.subnets, q, turns, false)
  {
    assert AllWanted(w, q, turns) && forall x :: x in turns ==> AllNamed(names, x.desired);
    WantedDecent(w, q, turns);
    AfterKnown(names, w, q, turns, d);
    WeakerScope(w.subnets, q, turns);
    AfterValid(w, q, turns, true);
    hide *;
  }

  lemma WeakerScope(subnets: map<string, Subnet>, q: Query, turns: seq<Turn>)
    requires AllDecent(subnets, q, turns, true)
    ensures AllDecent(subnets, q, turns, false)
  {
    hide AllFaithful;
    hide ProperNode;
    assert forall t :: t in turns ==> Decent(subnets, q, t.desired, true);
  }

  lemma AfterShadowed(names: Key -> string, w: World, q: Query, d: State, turns: seq<Turn>, p: Item)
    requires Valid(w) && Wanted(w, q, d) && AllNamed(names, d) && KnownPools(names, w, q) && TurnsFor(w, q, d, turns)
    requires Shadowed(w, Own(w, q), d, p)
    ensures Shadowed(After(w, q, turns), Own(w, q), d, p) && FoundIn(After(w, q, turns), q).Some?
    ensures FoundIn(After(w, q, turns), q).value.id == Own(w, q)
  {
    var w0 := After(w, q, turns);
    TurnsForParts(names, w, q, d, turns);
    ShadowedIs(w, Own(w, q), d, p);
    assert AllWantKey(turns, ItemKey(p));
    hide Valid;
    hide Wanted;
    hide AllNamed;
    hide KnownPools;
    hide Holding;
    hide KeySet;
    hide KeyOf;
    hide AllDecent;
    AfterHolds(w, q, turns, ItemKey(p));
    ShadowedIs(w0, Own(w, q), d, p);
    OldPoolFound(w0, q, p);
    OwnIsFound(w0, q);
  }

  lemma {:induction false} AfterLeaves(names: Key -> string, w: World, q: Query, d: State, turns: seq<Turn>, p: Item, kind: Kind, key: Key)
    requires Valid(w) && Wanted(w, q, d) && AllNamed(names, d) && KnownPools(names, w, q) && TurnsFor(w, q, d, turns)
    requires Shadowed(w, Own(w, q), d, p)
    ensures |Holding(After(w, q, turns).items, InPool(p.id), kind, key)| == |Holding(w.items, InPool(p.id), kind, key)|
  {
    if turns != [] {
      var init, t := turns[..|turns| - 1], turns[|turns| - 1];
      var w0 := After(w, q, init);
      LastTurnOf(w, q, d, turns);
      WholeTurn(w0, q, t);
      hide *;
      AfterLeaves(names, w, q, d, init, p, kind, key);
      TurnsForParts(names, w, q, d, init);
      AfterShadowed(names, w, q, d, init, p);
      PartLeaves(names, w0, q, t, |Batch(w0, q, t)|, p, kind, key);
    }
  }

  lemma OngoingLast(w: World, q: Query, turns: seq<Turn>)
    requires Ongoing(w, q, turns) && turns != []
    ensures
      var init, t := turns[..|turns| - 1], turns[|turns| - 1];
      && Ongoing(w, q, init) && Planned(After(w, q, init), q, t)
      && After(w, q, turns) == Exec(After(w, q, init), Batch(After(w, q, init), q, t)).world
  {
    hide Planned;
    hide Batch;
    hide Exec;
  }

  lemma AllButLastIn<T>(s: seq<T>)
    requires s != []
    ensures s[|s| - 1] in s && forall x :: x in s[..|s| - 1] ==> x in s
  {
  }

  lemma LastTurnOf(w: World, q: Query, d: State, turns: seq<Turn>)
    requires TurnsFor(w, q, d, turns) && turns != []
    ensures
      var init, t := turns[..|turns| - 1], turns[|turns| - 1];
      && TurnsFor(w, q, d, init) && t.desired == d && Planned(After(w, q, init), q, t)
      && After(w, q, turns) == Exec(After(w, q, init), Batch(After(w, q, init), q, t)).world
  {
    OngoingLast(w, q, turns);
    AllButLastIn(turns);
    hide Ongoing;
    hide After;
    hide Planned;
    hide Batch;
    hide Exec;
  }

  // ---------------------------------------------------------------- the end of a run

  lemma RanMoment(w: World, q: Query, d: State, turns: seq<Turn>, t: Turn, w1: World)
    requires Ends(w, q, d, turns, t, w1)
    ensures Moment(w, q, turns, t, |Batch(After(w, q, turns), q, t)|, w1)
  {
    WholeTurn(After(w, q, turns), q, t);
    hide After;
    hide Ongoing;
    hide Planned;
    hide Batch;
  }

  lemma RanDesired(w: World, q: Query, d: State, turns: seq<Turn>, t: Turn, w1: World)
    requires Ends(w, q, d, turns, t, w1)
    ensures forall x :: x in turns + [t] ==> x.desired == d
  {
    hide After;
    hide Ongoing;
    hide Planned;
    hide TurnResult;
  }

  lemma AllWantIt(d: State, turns: seq<Turn>, key: Key)
    requires key in KeySet(d.pools, NodeKey) && forall x :: x in turns ==> x.desired == d
    ensures AllWantKey(turns, key)
  {
  }

  lemma RanDecent(w: World, q: Query, d: State, turns: seq<Turn>, t: Turn, w1: World)
    requires Wanted(w, q, d) && Ends(w, q, d, turns, t, w1)
    ensures AllDecent(w.subnets, q, turns + [t], true) && AllDecent(w.subnets, q, turns + [t], false)
  {
    LastToo(turns, t);
    WantedDecent(w, q, turns + [t]);
    hide Wanted;
    hide Ongoing;
    hide Planned;
    hide TurnResult;
    hide ProperNode;
    hide AllFaithful;
  }

  lemma RanKnown(names: Key -> string, w: World, q: Query, d: State, turns: seq<Turn>, t: Turn, w1: World)
    requires Valid(w) && Wanted(w, q, d) && Ends(w, q, d, turns, t, w1)
    requires KnownPools(names, w, q) && AllNamed(names, d)
    ensures FoundIn(w1, q).Some? && Settled(w1, FoundIn(w1, q).value, d) && PoolsNamed(names, w1.items, FoundIn(w1, q).value.id)
  {
    var w0 := After(w, q, turns);
    LastToo(turns, t);
    assert AllWanted(w, q, turns) && forall x :: x in turns ==> AllNamed(names, x.desired);
    AfterKnown(names, w, q, turns, d);
    WholeTurn(w0, q, t);
    assert GoodTurn(w0, q, t);
    hide Valid;
    hide Wanted;
    hide AllNamed;
    hide PoolsNamed;
    hide After;
    hide Ongoing;
    hide Planned;
    hide Batch;
    hide Settled;
    hide GoodTurn;
    hide FoundIn;
    TurnProgress(w0, q, t);
    PartKnown(names, w0, q, t, |Batch(w0, q, t)|);
  }

  /** What is known of the end of a run. */
  ghost predicate Ended(names: Key -> string, w: World, q: Query, d: State, w1: World) {
    && FoundIn(w1, q).Some? && FoundIn(w1, q).value.id == Own(w, q)
    && Settled(w1, FoundIn(w1, q).value, d) && PoolsNamed(names, w1.items, Own(w, q))
    && AtMost(w.items, w1.items, true)
    && forall i :: i in w1.items && i.spec.Pool? ==> i in w.items || i.id >= w.next
  }

  lemma RanEnded(names: Key -> string, w: World, q: Query, d: State, turns: seq<Turn>, t: Turn, w1: World)
    requires Valid(w) && Wanted(w, q, d) && Ends(w, q, d, turns, t, w1)
    requires KnownPools(names, w, q) && AllNamed(names, d)
    ensures Ended(names, w, q, d, w1)
  {
    var k := |Batch(After(w, q, turns), q, t)|;
    RanMoment(w, q, d, turns, t, w1);
    RanDecent(w, q, d, turns, t, w1);
    RanKnown(names, w, q, d, turns, t, w1);
    RunAtMost(w, q, turns, t, k, w1, true);
    RunOrigin(w, q, turns, t, k, w1);
    DecentConsistent(w.subnets, q, turns + [t], true);
    LastToo(turns, t);
    OwnAtMoment(w, q, turns, t, k, w1, IpsOfAll(turns + [t]));
    OwnIsFound(w1, q);
    hide *;
    EndedIs(names, w, q, d, w1);
  }

  lemma OwnIsFound(w: World, q: Query)
    ensures FoundIn(w, q).Some? ==> Own(w, q) == FoundIn(w, q).value.id
  {
    hide FoundIn;
  }

  lemma EndedIs(names: Key -> string, w: World, q: Query, d: State, w1: World)
    requires FoundIn(w1, q).Some? && FoundIn(w1, q).value.id == Own(w, q)
    requires Settled(w1, FoundIn(w1, q).value, d) && PoolsNamed(names, w1.items, Own(w, q))
    requires AtMost(w.items, w1.items, true)
    requires forall i :: i in w1.items && i.spec.Pool? ==> i in w.items || i.id >= w.next
    ensures Ended(names, w, q, d, w1)
  {
    hide FoundIn;
    hide Own;
    hide Settled;
    hide PoolsNamed;
    hide AtMost;
  }

  lemma EndedKeys(names: Key -> string, w: World, q: Query, d: State, w1: World)
    requires Ended(names, w, q, d, w1)
    ensures
      var lb := Own(w, q);
      && KeySet(d.pools, NodeKey) == KeySet(PoolsOf(w1.items, lb), ItemKey) && HasReps(d.pools, w1.items, lb)
      && PoolsNamed(names, w1.items, lb) && AtMost(w.items, w1.items, true)
      && forall n :: n in d.pools ==> SettledPool(w1.items, n, Rep(w1.items, lb, NodeName(n)))
  {
    hide FoundIn;
    hide Own;
    hide KeyOf;
    hide PoolsOf;
    hide Index;
    hide SettledPool;
    hide PoolsNamed;
    hide AtMost;
    hide FipsSettled;
  }

  lemma RanHolds(w: World, q: Query, d: State, turns: seq<Turn>, t: Turn, w1: World, key: Key)
    requires Valid(w) && Wanted(w, q, d) && Ends(w, q, d, turns, t, w1)
    requires key in KeySet(d.pools, NodeKey) && Holding(w.items, OnLb(Own(w, q)), KPool, key) != []
    ensures Holding(w1.items, OnLb(Own(w, q)), KPool, key) == Holding(w.items, OnLb(Own(w, q)), KPool, key)
  {
    RanMoment(w, q, d, turns, t, w1);
    RanDecent(w, q, d, turns, t, w1);
    RanDesired(w, q, d, turns, t, w1);
    AllWantIt(d, turns + [t], key);
    hide *;
    RunHolds(w, q, turns, t, |Batch(After(w, q, turns), q, t)|, w1, key);
  }

  lemma RanPools(names: Key -> string, w: World, q: Query, d: State, turns: seq<Turn>, t: Turn, w1: World)
    requires Valid(w) && Wanted(w, q, d) && Ends(w, q, d, turns, t, w1) && Ended(names, w, q, d, w1)
    ensures PoolsTallied(w, Own(w, q), d, w1)
  {
    var lb := Own(w, q);
    EndedKeys(names, w, q, d, w1);
    hide Valid;
    hide Wanted;
    hide Ends;
    hide Ended;
    hide Own;
    hide PoolsOf;
    hide HasReps;
    hide PoolsNamed;
    hide AtMost;
    hide Holding;
    hide KeyOf;
    hide NodeKey;
    hide ItemKey;
    hide KeySet;
    forall key
      ensures |Holding(w1.items, OnLb(lb), KPool, key)|
           == Expected(key in KeySet(d.pools, NodeKey), |Holding(w.items, OnLb(lb), KPool, key)|)
      ensures key in KeySet(d.pools, NodeKey) && Holding(w.items, OnLb(lb), KPool, key) != [] ==>
        Holding(w1.items, OnLb(lb), KPool, key) == Holding(w.items, OnLb(lb), KPool, key)
    {
      if key in KeySet(d.pools, NodeKey) && Holding(w.items, OnLb(lb), KPool, key) != [] {
        RanHolds(w, q, d, turns, t, w1, key);
      }
      KeyTally(w, lb, d, w1, key);
    }
  }

  /** The pool found in the end: the last one of its key at the start, or a new one. */
  lemma RanRep(names: Key -> string, w: World, q: Query, d: State, turns: seq<Turn>, t: Turn, w1: World, n: PoolNode) returns (p: Item)
    requires Valid(w) && Wanted(w, q, d) && Ends(w, q, d, turns, t, w1) && Ended(names, w, q, d, w1)
    requires AllNamed(names, d) && n in d.pools
    ensures NodeName(n) in Index(PoolsOf(w1.items, Own(w, q)), PoolName) && p == Rep(w1.items, Own(w, q), NodeName(n))
    ensures p.spec.Pool? && p.owner == OnLb(Own(w, q)) && ItemKey(p) == NodeKey(n) && SettledPool(w1.items, n, p)
    ensures
      var ps := Holding(w.items, OnLb(Own(w, q)), KPool, NodeKey(n));
      if ps != [] then p == Last(ps) && p in w.items else p.id >= w.next
  {
    var lb := Own(w, q);
    EndedKeys(names, w, q, d, w1);
    assert forall i :: i in w1.items && i.spec.Pool? ==> i in w.items || i.id >= w.next;
    RepIsLast(names, w1.items, lb, d, n);
    p := Rep(w1.items, lb, NodeName(n));
    var ps, now := Holding(w.items, OnLb(lb), KPool, NodeKey(n)), Holding(w1.items, OnLb(lb), KPool, NodeKey(n));
    LastIn(now);
    HasIs(p, OnLb(lb), NodeKey(n));
    assert NodeKey(n) in KeySet(d.pools, NodeKey);
    hide Valid;
    hide Wanted;
    hide Ends;
    hide Ended;
    hide Own;
    hide PoolsOf;
    hide Index;
    hide Rep;
    hide AllNamed;
    hide PoolsNamed;
    hide AtMost;
    hide SettledPool;
    hide KeyOf;
    hide KeySet;
    if ps != [] {
      RanHolds(w, q, d, turns, t, w1, NodeKey(n));
      LastIn(ps);
    } else {
      assert p !in ps;
    }
  }

  lemma HasIs(p: Item, owner: Owner, key: Key)
    ensures Has(p, owner, KPool, key) ==> p.spec.Pool? && p.owner == owner && ItemKey(p) == key
  {
    hide KeyOf;
  }

  lemma SameKeySameNode(names: Key -> string, d: State, n: PoolNode, m: PoolNode)
    requires AllNamed(names, d) && n in d.pools && m in d.pools && NodeKey(m) == NodeKey(n)
    ensures m == n
  {
    assert NamedBy(names, m.pool.spec) && NamedBy(names, n.pool.spec);
    hide KeyOf;
    DistinctSame(d.pools, NodeName, m, n);
  }

  lemma IsBelow(names: Key -> string, d: State, n: PoolNode, p: Item, kind: Kind, key: Key)
    requires AllNamed(names, d) && n in d.pools && ItemKey(p) == NodeKey(n) && key in KeySet(ChildrenIn(n, kind), ItemKey)
    ensures DesiredBelow(names, d, p, kind, key)
  {
    hide KeyOf;
    hide AllNamed;
    hide ChildrenIn;
    forall m | m in d.pools && NodeKey(m) == ItemKey(p)
      ensures m == n
    {
      SameKeySameNode(names, d, n, m);
    }
  }

  lemma OldPoolFound(w: World, q: Query, p: Item)
    requires Valid(w) && p in w.items && p.spec.Pool? && p.owner == OnLb(Own(w, q))
    ensures FoundIn(w, q).Some? && p in PoolsOf(w.items, FoundIn(w, q).value.id)
  {
    IsListed(w.items, Own(w, q), p);
    assert OwnerExists(w, p);
    hide FindByServiceInfo;
    hide PoolsOf;
  }

  /** A pool that was there keeps all of a desired key. */
  lemma RanKeepsAll(names: Key -> string, w: World, q: Query, d: State, turns: seq<Turn>, t: Turn, w1: World,
                    n: PoolNode, p: Item, kind: Kind, key: Key)
    requires Valid(w) && Wanted(w, q, d) && Ends(w, q, d, turns, t, w1) && KnownPools(names, w, q) && AllNamed(names, d)
    requires p in w.items && p.spec.Pool? && p.owner == OnLb(Own(w, q))
    requires n in d.pools && ItemKey(p) == NodeKey(n) && key in KeySet(ChildrenIn(n, kind), ItemKey)
    ensures |Holding(w1.items, InPool(p.id), kind, key)| >= |Holding(w.items, InPool(p.id), kind, key)|
  {
    RanMoment(w, q, d, turns, t, w1);
    RanDecent(w, q, d, turns, t, w1);
    IsBelow(names, d, n, p, kind, key);
    OldPoolFound(w, q, p);
    RanDesired(w, q, d, turns, t, w1);
    hide *;
    RunKeepsAll(names, w, q, turns, t, |Batch(After(w, q, turns), q, t)|, w1, p, kind, key);
  }

  lemma ContentTally(names: Key -> string, w: World, q: Query, d: State, turns: seq<Turn>, t: Turn, w1: World,
                     n: PoolNode, kind: Kind, key: Key)
    requires Valid(w) && Wanted(w, q, d) && Ends(w, q, d, turns, t, w1) && Ended(names, w, q, d, w1)
    requires KnownPools(names, w, q) && AllNamed(names, d) && n in d.pools && kind != KPool
    ensures NodeName(n) in Index(PoolsOf(w1.items, Own(w, q)), PoolName)
    ensures |Holding(w1.items, InPool(Rep(w1.items, Own(w, q), NodeName(n)).id), kind, key)|
         == Expected(key in KeySet(ChildrenIn(n, kind), ItemKey), HeldAtStart(w, Own(w, q), n, kind, key))
  {
    var p := RanRep(names, w, q, d, turns, t, w1, n);
    EndedKeys(names, w, q, d, w1);
    SettledKeys(w1.items, n, p, kind, key);
    var ps := Holding(w.items, OnLb(Own(w, q)), KPool, NodeKey(n));
    if ps == [] {
      NothingUnderNew(w, p.id, kind, key);
    } else if key in KeySet(ChildrenIn(n, kind), ItemKey) {
      RanKeepsAll(names, w, q, d, turns, t, w1, n, p, kind, key);
    }
    HeldFrom(w, Own(w, q), n, p, kind, key);
    GrownBy(w.items, w1.items, InPool(p.id), kind, key);
    hide *;
    Tally(key in KeySet(ChildrenIn(n, kind), ItemKey), |Holding(w.items, InPool(p.id), kind, key)|, |Holding(w1.items, InPool(p.id), kind, key)|);
  }

  lemma Tally(desired: bool, before: nat, now: nat)
    requires now > 0 <==> desired
    requires now <= AtLeastOne(before) && (desired ==> now >= before)
    ensures now == Expected(desired, before)
  {
  }

  lemma GrownBy(items: seq<Item>, items1: seq<Item>, owner: Owner, kind: Kind, key: Key)
    requires AtMost(items, items1, true)
    ensures |Holding(items1, owner, kind, key)| <= AtLeastOne(|Holding(items, owner, kind, key)|)
  {
    assert InScope(true, kind);
    hide Holding;
  }

  lemma HeldFrom(w: World, lb: Uuid, n: PoolNode, p: Item, kind: Kind, key: Key)
    requires
      var ps := Holding(w.items, OnLb(lb), KPool, NodeKey(n));
      if ps != [] then p == Last(ps) else Holding(w.items, InPool(p.id), kind, key) == []
    ensures HeldAtStart(w, lb, n, kind, key) == |Holding(w.items, InPool(p.id), kind, key)|
  {
    hide Holding;
  }

  lemma RanContents(names: Key -> string, w: World, q: Query, d: State, turns: seq<Turn>, t: Turn, w1: World)
    requires Valid(w) && Wanted(w, q, d) && AllNamed(names, d) && KnownPools(names, w, q)
    requires Ends(w, q, d, turns, t, w1) && Ended(names, w, q, d, w1)
    ensures ContentsTallied(w, Own(w, q), d, w1)
  {
    EndedKeys(names, w, q, d, w1);
    hide Valid;
    hide Wanted;
    hide AllNamed;
    hide KnownPools;
    hide Ends;
    hide Ended;
    hide Own;
    hide PoolsOf;
    hide PoolsNamed;
    hide AtMost;
    hide Holding;
    hide KeyOf;
    hide HeldAtStart;
    hide ChildrenIn;
    hide Index;
    hide SettledPool;
    forall n, kind, key | n in d.pools && kind != KPool
      ensures |Holding(w1.items, InPool(Rep(w1.items, Own(w, q), NodeName(n)).id), kind, key)|
           == Expected(key in KeySet(ChildrenIn(n, kind), ItemKey), HeldAtStart(w, Own(w, q), n, kind, key))
    {
      ContentTally(names, w, q, d, turns, t, w1, n, kind, key);
    }
  }

  lemma RanParts(w: World, q: Query, d: State, turns: seq<Turn>, t: Turn, w1: World)
    requires Ends(w, q, d, turns, t, w1)
    ensures TurnsFor(w, q, d, turns) && t.desired == d && Planned(After(w, q, turns), q, t)
    ensures w1 == Exec(After(w, q, turns), Batch(After(w, q, turns), q, t)).world
  {
    LastToo(turns, t);
    hide After;
    hide Ongoing;
    hide Planned;
    hide Batch;
    hide Exec;
  }

  lemma RanOthers(names: Key -> string, w: World, q: Query, d: State, turns: seq<Turn>, t: Turn, w1: World)
    requires Valid(w) && Wanted(w, q, d) && AllNamed(names, d) && KnownPools(names, w, q)
    requires Ends(w, q, d, turns, t, w1)
    ensures OthersTallied(w, Own(w, q), d, w1)
  {
    var w0 := After(w, q, turns);
    RanParts(w, q, d, turns, t, w1);
    WholeTurn(w0, q, t);
    TurnsForParts(names, w, q, d, turns);
    hide Valid;
    hide Wanted;
    hide AllNamed;
    hide KnownPools;
    hide Ends;
    hide Own;
    hide Holding;
    hide Shadowed;
    hide TurnsFor;
    hide After;
    hide Planned;
    hide Batch;
    hide Exec;
    hide FoundIn;
    hide AllDecent;
    forall p, kind, key | Shadowed(w, Own(w, q), d, p)
      ensures |Holding(w1.items, InPool(p.id), kind, key)| == |Holding(w.items, InPool(p.id), kind, key)|
    {
      AfterLeaves(names, w, q, d, turns, p, kind, key);
      AfterShadowed(names, w, q, d, turns, p);
      PartLeaves(names, w0, q, t, |Batch(w0, q, t)|, p, kind, key);
    }
  }

  /** Runs for one desired state end alike, also where resources share a key: how many pools of each key there are in
      the end, which ones, and how many members, listeners and monitors of each key they hold depends on the cloud at
      the start and on the desired state only, not on the number of turns or the order of maps. */
  lemma RunTallies(names: Key -> string, w: World, q: Query, d: State, turns: seq<Turn>, t: Turn, w1: World)
    requires Valid(w) && Wanted(w, q, d) && AllNamed(names, d) && KnownPools(names, w, q)
    requires Ends(w, q, d, turns, t, w1)
    ensures PoolsTallied(w, Own(w, q), d, w1) && ContentsTallied(w, Own(w, q), d, w1) && OthersTallied(w, Own(w, q), d, w1)
  {
    hide *;
    RanEnded(names, w, q, d, turns, t, w1);
    RanPools(names, w, q, d, turns, t, w1);
    RanContents(names, w, q, d, turns, t, w1);
    RanOthers(names, w, q, d, turns, t, w1);
  }

  /** So of any two runs for it, from one cloud, the ends hold as many resources of each key, in their pools and in what
      is in them. */
  lemma RunsAgree(names: Key -> string, w: World, q: Query, d: State, turns1: seq<Turn>, t1: Turn, w1: World,
                  turns2: seq<Turn>, t2: Turn, w2: World)
    requires Valid(w) && Wanted(w, q, d) && AllNamed(names, d) && KnownPools(names, w, q)
    requires Ends(w, q, d, turns1, t1, w1) && Ends(w, q, d, turns2, t2, w2)
    ensures forall key ::
      |Holding(w1.items, OnLb(Own(w, q)), KPool, key)| == |Holding(w2.items, OnLb(Own(w, q)), KPool, key)|
    ensures HasReps(d.pools, w1.items, Own(w, q)) && HasReps(d.pools, w2.items, Own(w, q))
    ensures forall n, kind, key :: n in d.pools && kind != KPool ==>
      |Holding(w1.items, InPool(Rep(w1.items, Own(w, q), NodeName(n)).id), kind, key)|
      == |Holding(w2.items, InPool(Rep(w2.items, Own(w, q), NodeName(n)).id), kind, key)|
  {
    RunTallies(names, w, q, d, turns1, t1, w1);
    RunTallies(names, w, q, d, turns2, t2, w2);
    var lb := Own(w, q);
    hide Valid;
    hide Wanted;
    hide AllNamed;
    hide KnownPools;
    hide Ends;
    hide Own;
    hide Holding;
    hide HeldAtStart;
    hide ChildrenIn;
    hide Index;
    hide PoolsOf;
    hide KeyOf;
    hide Expected;
    hide OthersTallied;
    hide KeySet;
    forall key
      ensures |Holding(w1.items, OnLb(lb), KPool, key)| == |Holding(w2.items, OnLb(lb), KPool, key)|
    {
      var before := Holding(w.items, OnLb(lb), KPool, key);
      assert |Holding(w1.items, OnLb(lb), KPool, key)| == Expected(key in KeySet(d.pools, NodeKey), |before|);
      assert |Holding(w2.items, OnLb(lb), KPool, key)| == Expected(key in KeySet(d.pools, NodeKey), |before|);
    }
  }
}
