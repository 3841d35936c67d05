/** What a run leaves behind is determined by the desired state alone: runs are confluent. */
module Outcomes {
  import opened Seqs
  import opened Compare
  import opened Domain
  import opened CloudWorld
  import opened Planner
  import opened Lookup
  import opened Rounds
  import opened ChildRounds
  import opened UpdateRounds
  import opened FinalRounds
  import opened PlanLocality
  import opened Runs
  import opened Progress
  import opened FewTurns
  import opened Twins
  import opened Disruption
  import opened Gaps

  // ---------------------------------------------------------------- settled clouds mirror the desired state

  /** Everything about a member, a listener or a monitor but its identity and, for a monitor, those fields
      of its HTTP block that are compared only if both sides have one. */
  const Essence: Item -> (Key, Spec) := (i: Item) => (KeyOf(i.spec), if i.spec.Monitor? then i.spec.(http := None) else i.spec)

  const EssenceKey: ((Key, Spec)) -> Key := (e: (Key, Spec)) => e.0

  lemma SameDistinct<T(!new), K(!new)>(s: seq<T>, t: seq<T>, key: T -> K)
    requires Distinct(s, key) && Distinct(t, key) && forall x :: x in s <==> x in t
    ensures multiset(s) == multiset(t)
  {
    OnceEach(s, key);
    OnceEach(t, key);
    forall x: T
      ensures multiset(s)[x] == multiset(t)[x]
    {
      assert x in multiset(s) <==> x in s;
      assert x in multiset(t) <==> x in t;
    }
  }

  lemma SameEssence(d: Item, a: Item)
    requires ItemKey(d) == ItemKey(a) && KindOf(d.spec) == KindOf(a.spec) != KPool
    requires KindOf(d.spec) != KMember ==> Agree(d.spec, a.spec)
    ensures Essence(d) == Essence(a)
  {
  }

  lemma PairFound(j: Job, d: Item, a: Item)
    requires SettledJob(j) && Distinct(j.have, ItemKey) && j.kind != KMember
    requires d in j.want && a in j.have && ItemKey(d) == ItemKey(a)
    ensures Agree(d.spec, a.spec)
  {
    var m := Index(j.have, ItemKey);
    IndexDistinct(j.have, ItemKey, a);
    hide KeyOf;
    hide Agree;
    hide Index;
    assert forall x :: x in j.want ==> ItemKey(x) in KeySet(j.want, ItemKey);
    PairsAll(j.want, m, ItemKey);
    var k :| 0 <= k < |j.want| && j.want[k] == d;
    assert Paired(j.want, m, ItemKey)[k] == (d, a);
    hide Paired;
    assert (d, a) in JobPairs(j);
  }

  lemma PairSame(j: Job, d: Item, a: Item)
    requires SettledJob(j) && j.kind != KPool && OfKind(j.want, j.kind) && OfKind(j.have, j.kind) && Distinct(j.have, ItemKey)
    requires d in j.want && a in j.have && ItemKey(d) == ItemKey(a)
    ensures Essence(d) == Essence(a)
  {
    if j.kind != KMember {
      PairFound(j, d, a);
    }
    hide Agree;
    hide SettledJob;
    SameEssence(d, a);
  }

  lemma EssencesDistinct(items: seq<Item>)
    requires Distinct(items, ItemKey)
    ensures Distinct(Map(items, Essence), EssenceKey)
  {
    hide KeyOf;
  }

  lemma EssencesIn(a: seq<Item>, b: seq<Item>)
    requires forall i :: i in a ==> exists j :: j in b && Essence(i) == Essence(j)
    ensures forall e :: e in Map(a, Essence) ==> e in Map(b, Essence)
  {
    hide KeyOf;
    var es, fs := Map(a, Essence), Map(b, Essence);
    forall e | e in es
      ensures e in fs
    {
      var k :| 0 <= k < |a| && es[k] == e;
      assert a[k] in a;
      var j :| j in b && Essence(a[k]) == Essence(j);
      var n :| 0 <= n < |b| && b[n] == j;
      assert fs[n] == e;
    }
  }

  /** A settled comparison without twins has exactly what is wanted, each once. */
  lemma JobMirrors(j: Job)
    requires SettledJob(j) && j.kind != KPool && OfKind(j.want, j.kind) && OfKind(j.have, j.kind)
    requires Distinct(j.want, ItemKey) && Distinct(j.have, ItemKey)
    ensures multiset(Map(j.have, Essence)) == multiset(Map(j.want, Essence))
  {
    forall a | a in j.have
      ensures exists d :: d in j.want && Essence(a) == Essence(d)
    {
      assert ItemKey(a) in KeySet(j.have, ItemKey);
      var d :| d in j.want && ItemKey(d) == ItemKey(a);
      PairSame(j, d, a);
    }
    forall d | d in j.want
      ensures exists a :: a in j.have && Essence(d) == Essence(a)
    {
      assert ItemKey(d) in KeySet(j.want, ItemKey);
      var a :| a in j.have && ItemKey(d) == ItemKey(a);
      PairSame(j, d, a);
    }
    hide KeyOf;
    hide SettledJob;
    EssencesIn(j.have, j.want);
    EssencesIn(j.want, j.have);
    EssencesDistinct(j.have);
    EssencesDistinct(j.want);
    hide Map;
    SameDistinct(Map(j.have, Essence), Map(j.want, Essence), EssenceKey);
  }

  /** The load balancer holds exactly the desired pools, found by their names and with their keys, and
      each of them exactly the desired members, listeners and monitors. */
  ghost predicate Mirrors(w: World, lb: Uuid, d: State) {
    && |PoolsOf(w.items, lb)| == |d.pools|
    && HasReps(d.pools, w.items, lb)
    && forall n :: n in d.pools ==> MirrorsPool(w.items, Rep(w.items, lb, NodeName(n)), n)
  }

  ghost predicate MirrorsPool(items: seq<Item>, p: Item, n: PoolNode) {
    && ItemKey(p) == NodeKey(n)
    && SameContents(items, p, n, KMember) && SameContents(items, p, n, KListener) && SameContents(items, p, n, KMonitor)
  }

  ghost predicate SameContents(items: seq<Item>, p: Item, n: PoolNode, kind: Kind) {
    multiset(Map(Children(items, InPool(p.id), kind), Essence)) == multiset(Map(ChildrenIn(n, kind), Essence))
  }

  /** A desired state that keys tell apart: pools by name, and what is in a pool by its key. */
  ghost predicate Plain(names: Key -> string, subnets: map<string, Subnet>, d: State) {
    AllNamed(names, d) && forall n :: n in d.pools ==> WantedNode(subnets, n) && Distinct(n.members, ItemKey)
  }

  lemma KindMirrors(w: World, lb: Uuid, p: Item, n: PoolNode, j: Job)
    requires SettledPool(w.items, n, p) && CleanPools(w.items, lb) && p in PoolsOf(w.items, lb)
    requires WantedNode(w.subnets, n) && Distinct(n.members, ItemKey)
    requires j in RepJobs(n, w.items, p)
    ensures SameContents(w.items, p, n, j.kind)
  {
    assert SettledJob(j);
    hide SettledJob;
    hide SettledPool;
    hide KeyOf;
    hide PoolsOf;
    assert j.want == ChildrenIn(n, j.kind) && j.have == Children(w.items, InPool(p.id), j.kind);
    JobMirrors(j);
  }

  lemma PoolMirrors(w: World, lb: Uuid, p: Item, n: PoolNode)
    requires SettledPool(w.items, n, p) && CleanPools(w.items, lb) && p in PoolsOf(w.items, lb)
    requires WantedNode(w.subnets, n) && Distinct(n.members, ItemKey)
    requires ItemKey(p) == NodeKey(n)
    ensures MirrorsPool(w.items, p, n)
  {
    var js := RepJobs(n, w.items, p);
    assert js[0] in js && js[1] in js && js[2] in js;
    assert js[0].kind == KMember && js[1].kind == KListener && js[2].kind == KMonitor;
    hide SettledPool;
    hide CleanPools;
    hide SameContents;
    hide PoolsOf;
    hide RepJobs;
    hide WantedNode;
    hide KeyOf;
    KindMirrors(w, lb, p, n, js[0]);
    KindMirrors(w, lb, p, n, js[1]);
    KindMirrors(w, lb, p, n, js[2]);
  }

  lemma RepKey(names: Key -> string, w: World, lb: Uuid, d: State, n: PoolNode)
    requires AllNamed(names, d) && PoolsNamed(names, w.items, lb) && n in d.pools && HasReps(d.pools, w.items, lb)
    requires KeySet(d.pools, NodeKey) == KeySet(PoolsOf(w.items, lb), ItemKey)
    ensures ItemKey(Rep(w.items, lb, NodeName(n))) == NodeKey(n)
  {
    var p := Rep(w.items, lb, NodeName(n));
    RepFacts(w, lb, NodeName(n));
    hide KeyOf;
    hide Index;
    assert ItemKey(p) in KeySet(PoolsOf(w.items, lb), ItemKey);
    var m :| m in d.pools && NodeKey(m) == ItemKey(p);
    assert NamedBy(names, m.pool.spec) && NamedBy(names, p.spec);
    DistinctSame(d.pools, NodeName, m, n);
  }

  lemma PoolCount(names: Key -> string, w: World, lb: Uuid, d: State)
    requires AllNamed(names, d) && Distinct(PoolsOf(w.items, lb), ItemKey)
    requires KeySet(d.pools, NodeKey) == KeySet(PoolsOf(w.items, lb), ItemKey)
    ensures |PoolsOf(w.items, lb)| == |d.pools|
  {
    hide KeyOf;
    hide PoolsOf;
    forall i, j | 0 <= i < j < |d.pools|
      ensures NodeKey(d.pools[i]) != NodeKey(d.pools[j])
    {
      assert d.pools[i] in d.pools && d.pools[j] in d.pools;
      assert NodeName(d.pools[i]) != NodeName(d.pools[j]);
    }
    ListSize(d.pools, NodeKey);
    ListSize(PoolsOf(w.items, lb), ItemKey);
  }

  lemma NoTwinsClean(items: seq<Item>, lb: Uuid)
    requires NoTwins(items, lb, true)
    ensures CleanPools(items, lb)
  {
    hide KeyOf;
    hide Children;
    hide PoolsOf;
    forall p, kind | p in PoolsOf(items, lb)
      ensures Distinct(Children(items, InPool(p.id), kind), ItemKey)
    {
      assert InScope(true, kind);
    }
  }

  /** A settled cloud without twins mirrors the desired state. */
  lemma SettledMirrors(names: Key -> string, w: World, l: Lb, d: State)
    requires Settled(w, l, d) && NoTwins(w.items, l.id, true)
    requires Plain(names, w.subnets, d) && PoolsNamed(names, w.items, l.id)
    ensures Mirrors(w, l.id, d)
  {
    hide KeyOf;
    hide CleanPools;
    hide PoolsNamed;
    hide AllNamed;
    hide WantedNode;
    hide SettledPool;
    hide MirrorsPool;
    hide Index;
    assert CleanPools(w.items, l.id) by { NoTwinsClean(w.items, l.id); }
    PoolCount(names, w, l.id, d);
    forall n | n in d.pools
      ensures MirrorsPool(w.items, Rep(w.items, l.id, NodeName(n)), n)
    {
      RepKey(names, w, l.id, d, n);
      RepFacts(w, l.id, NodeName(n));
      PoolMirrors(w, l.id, Rep(w.items, l.id, NodeName(n)), n);
    }
  }

  // ---------------------------------------------------------------- whole runs

  /** A run for `d` from `w` comes to its end in `w1`. */
  ghost predicate Ends(w: World, q: Query, d: State, turns: seq<Turn>, t: Turn, w1: World) {
    && Ongoing(w, q, turns) && (forall x :: x in turns ==> x.desired == d) && t.desired == d
    && Planned(After(w, q, turns), q, t) && TurnResult(After(w, q, turns), q, t) == Ran(w1, Finished)
  }

  /** The keys of the pools of the run's load balancer tell their names. */
  ghost predicate KnownPools(names: Key -> string, w: World, q: Query) {
    FoundIn(w, q).Some? ==> PoolsNamed(names, w.items, FoundIn(w, q).value.id)
  }

  lemma NewLbKnown(names: Key -> string, w: World)
    requires Valid(w)
    ensures PoolsNamed(names, w.items, w.next)
  {
    forall i | i in w.items
      ensures i.owner != OnLb(w.next)
    {
      assert OwnerExists(w, i);
    }
  }

  lemma PartKnown(names: Key -> string, w: World, q: Query, t: Turn, k: nat)
    requires GoodTurn(w, q, t) && AllNamed(names, t.desired) && KnownPools(names, w, q) && k <= |Batch(w, q, t)|
    ensures KnownPools(names, Exec(w, Batch(w, q, t)[..k]).world, q)
  {
    assert Planned(w, q, t) by { GoodIsPlanned(w, q, t); }
    if FoundIn(w, q).None? {
      CreatePartKnown(names, w, q, t, k);
    } else {
      GoodIsConsistent(w, q, t);
      TurnKeepsLb(w, q, t, k, Addresses(t.desired.floatingIPs));
      var i := Some(Item(0, OnLb(0), Pool("", "", "")));
      hide PoolsNamed;
      hide AllNamed;
      hide GoodTurn;
      hide Planned;
      hide Batch;
      hide FoundIn;
      assert Valid(w) && t.desired.lb.Some? by { GoodWants(w, q, t); }
      PartTold(w, q, t, k, names, i);
    }
  }

  lemma GoodWants(w: World, q: Query, t: Turn)
    requires GoodTurn(w, q, t)
    ensures Valid(w) && t.desired.lb.Some?
  {
  }

  lemma CreatePartKnown(names: Key -> string, w: World, q: Query, t: Turn, k: nat)
    requires GoodTurn(w, q, t) && FoundIn(w, q).None? && k <= |Batch(w, q, t)|
    ensures KnownPools(names, Exec(w, Batch(w, q, t)[..k]).world, q)
  {
    var lb := t.desired.lb.value;
    assert Batch(w, q, t) == [CreateLb(lb), Refetch];
    CreateCut(w, lb, k);
    CreatedIsFound(w, q, lb);
    NewLbKnown(names, w);
    assert Apply(w, CreateLb(lb)).world.items == w.items;
    hide Apply;
    hide Exec;
    hide PoolsNamed;
    hide FindByServiceInfo;
    hide Batch;
  }

  lemma {:induction false} AfterKnown(names: Key -> string, w: World, q: Query, turns: seq<Turn>, d: State)
    requires Valid(w) && Ongoing(w, q, turns) && AllWanted(w, q, turns) && Wanted(w, q, d) && KnownPools(names, w, q)
    requires forall t :: t in turns ==> AllNamed(names, t.desired)
    ensures
      var w1 := After(w, q, turns);
      Valid(w1) && Wanted(w1, q, d) && KnownPools(names, w1, q)
  {
    hide Valid;
    hide Wanted;
    hide AllNamed;
    hide KnownPools;
    hide Planned;
    hide Batch;
    if turns != [] {
      var init, t := turns[..|turns| - 1], turns[|turns| - 1];
      assert turns == init + [t];
      assert forall x :: x in init ==> x in turns;
      AfterKnown(names, w, q, init, t.desired);
      AfterKnown(names, w, q, init, d);
      var w0 := After(w, q, init);
      assert GoodTurn(w0, q, t);
      TurnAccepted(w0, q, t);
      TurnKeepsWanted(w0, q, t, d);
      WholeTurn(w0, q, t);
      PartKnown(names, w0, q, t, |Batch(w0, q, t)|);
    }
  }

  lemma LastMirrors(names: Key -> string, w: World, q: Query, t: Turn)
    requires GoodTurn(w, q, t) && TurnResult(w, q, t).control == Finished
    requires Apart(TurnResult(w, q, t).world, q, true) && KnownPools(names, w, q) && AllNamed(names, t.desired)
    requires forall n :: n in t.desired.pools ==> Distinct(n.members, ItemKey)
    ensures
      var w1 := TurnResult(w, q, t).world;
      FoundIn(w1, q).Some? && Mirrors(w1, FoundIn(w1, q).value.id, t.desired)
  {
    var w1 := TurnResult(w, q, t).world;
    TurnProgress(w, q, t);
    WholeTurn(w, q, t);
    PartKnown(names, w, q, t, |Batch(w, q, t)|);
    TurnAccepted(w, q, t);
    assert w1 == Exec(w, Batch(w, q, t)[..|Batch(w, q, t)|]).world;
    hide Exec;
    hide Batch;
    hide TurnResult;
    hide FoundIn;
    hide Settled;
    hide NoTwins;
    hide Mirrors;
    hide AllNamed;
    hide PoolsNamed;
    hide WantedNode;
    hide KeyOf;
    assert Plain(names, w1.subnets, t.desired);
    SettledMirrors(names, w1, FoundIn(w1, q).value, t.desired);
  }

  lemma WantedDecent(w: World, q: Query, turns: seq<Turn>)
    requires AllWanted(w, q, turns)
    ensures AllDecent(w.subnets, q, turns, true)
  {
    hide Faithful;
    hide ProperNode;
    hide Address;
    forall t | t in turns
      ensures Decent(w.subnets, q, t.desired, true)
    {
      assert Wanted(w, q, t.desired);
      assert forall n :: n in t.desired.pools ==> WantedNode(w.subnets, n);
    }
  }

  lemma EndApart(w: World, q: Query, turns: seq<Turn>, t: Turn)
    requires Valid(w) && Apart(w, q, true) && Ongoing(w, q, turns) && AllWanted(w, q, turns) && Wanted(w, q, t.desired)
    requires Planned(After(w, q, turns), q, t)
    ensures Apart(TurnResult(After(w, q, turns), q, t).world, q, true)
  {
    var w0 := After(w, q, turns);
    WholeTurn(w0, q, t);
    assert AllWanted(w, q, turns + [t]);
    WantedDecent(w, q, turns + [t]);
    hide Wanted;
    hide Apart;
    hide Ongoing;
    hide After;
    hide Planned;
    hide Batch;
    hide Decent;
    RunApart(w, q, turns, t, |Batch(w0, q, t)|, TurnResult(w0, q, t).world, true);
  }

  /** A run that ends leaves a load balancer that mirrors what its last turn desired, whatever cloud without
      twins it started from, whatever its turns desired before, and whatever order its maps were iterated
      in. So all runs that end with one desired state end alike. */
  lemma RunMirrors(names: Key -> string, w: World, q: Query, turns: seq<Turn>, t: Turn)
    requires Valid(w) && Apart(w, q, true) && KnownPools(names, w, q)
    requires Ongoing(w, q, turns) && AllWanted(w, q, turns) && Wanted(w, q, t.desired)
    requires AllNamed(names, t.desired) && forall x :: x in turns ==> AllNamed(names, x.desired)
    requires forall n :: n in t.desired.pools ==> Distinct(n.members, ItemKey)
    requires Planned(After(w, q, turns), q, t) && TurnResult(After(w, q, turns), q, t).control == Finished
    ensures
      var w1 := TurnResult(After(w, q, turns), q, t).world;
      FoundIn(w1, q).Some? && Mirrors(w1, FoundIn(w1, q).value.id, t.desired)
  {
    EndApart(w, q, turns, t);
    AfterKnown(names, w, q, turns, t.desired);
    hide Valid;
    hide Wanted;
    hide Planned;
    hide Apart;
    hide KnownPools;
    hide AllNamed;
    hide TurnResult;
    hide FoundIn;
    hide Mirrors;
    hide After;
    LastMirrors(names, After(w, q, turns), q, t);
  }
}
