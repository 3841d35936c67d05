/** A round that deletes undesired pools and creates missing ones. */
module PoolRounds {
  import opened Seqs
  import opened Compare
  import opened Domain
  import opened CloudWorld
  import opened Effects
  import opened Planner
  import opened Rounds
  import opened Gaps

  const PoolItem: PoolNode -> Item := (n: PoolNode) => n.pool

  function PoolItems(nodes: seq<PoolNode>): seq<Item> {
    Map(nodes, PoolItem)
  }

  lemma PoolItemsIn(nodes: seq<PoolNode>)
    ensures forall i :: i in PoolItems(nodes) <==> exists n :: n in nodes && n.pool == i
    ensures KeySet(PoolItems(nodes), ItemKey) == KeySet(nodes, NodeKey)
  {
    var ps := PoolItems(nodes);
    assert forall k :: 0 <= k < |nodes| ==> ps[k] == nodes[k].pool && ItemKey(ps[k]) == NodeKey(nodes[k]);
    forall n | n in nodes
      ensures n.pool in ps
    {
      var k :| 0 <= k < |nodes| && nodes[k] == n;
      assert ps[k] == n.pool;
    }
    forall k | k in KeySet(nodes, NodeKey)
      ensures k in KeySet(ps, ItemKey)
    {
      var n :| n in nodes && NodeKey(n) == k;
      assert n.pool in ps && ItemKey(n.pool) == k;
    }
    forall k | k in KeySet(ps, ItemKey)
      ensures k in KeySet(nodes, NodeKey)
    {
      var i :| i in ps && ItemKey(i) == k;
      var n :| n in nodes && n.pool == i;
    }
  }

  /** A batch of this round: what Diff returned for the pools of the load balancer. */
  ghost predicate PoolPlan(w: World, lb: Uuid, opening: seq<Action>, ds: seq<PoolNode>,
                           del: seq<PoolNode>, cre: seq<PoolNode>)
  {
    && Valid(w) && HasLb(w.lbs, lb)
    && IsDiff(ds, NodesOf(w.items, lb), NodeKey, del, cre)
    && (forall n :: n in ds ==> n.pool.spec.Pool?)
    && Sound(w, {}, {}, opening) && Dels(opening) == {} && Busy(opening) == {}
    && forall a :: a in opening ==> Creation(a).None?
  }

  /** One that the cloud does not keep waiting. */
  ghost predicate PoolBatch(w: World, lb: Uuid, opening: seq<Action>, ds: seq<PoolNode>,
                            del: seq<PoolNode>, cre: seq<PoolNode>)
  {
    PoolPlan(w, lb, opening, ds, del, cre) && AllSmooth(w.subnets, opening)
  }

  lemma PoolCreationFacts(w: World, lb: Uuid, cre: seq<PoolNode>)
    requires forall n :: n in cre ==> n.pool.spec.Pool?
    ensures forall a :: a in Map(cre, PoolCreation(lb)) ==>
      Creation(a).Some? && Creation(a).value.0 == OnLb(lb) && Known(w.subnets, Creation(a).value.1)
  {
    var b := Map(cre, PoolCreation(lb));
    forall a | a in b
      ensures Creation(a).Some? && Creation(a).value.0 == OnLb(lb) && Known(w.subnets, Creation(a).value.1)
    {
      var k :| 0 <= k < |b| && b[k] == a;
      assert cre[k] in cre;
    }
  }

  lemma PoolDiffFacts(w: World, lb: Uuid, ds: seq<PoolNode>, del: seq<PoolNode>, cre: seq<PoolNode>)
    requires IsDiff(ds, NodesOf(w.items, lb), NodeKey, del, cre)
    ensures Distinct(del, NodeKey) && Distinct(cre, NodeKey)
    ensures forall n :: n in del ==> n in NodesOf(w.items, lb)
    ensures forall n :: n in cre ==> n in ds
  {
    DeletesUndesired(ds, NodesOf(w.items, lb), NodeKey, del, cre);
    CreatesMissing(ds, NodesOf(w.items, lb), NodeKey, del, cre);
  }

  lemma PoolBatchSound(w: World, lb: Uuid, opening: seq<Action>, ds: seq<PoolNode>,
                       del: seq<PoolNode>, cre: seq<PoolNode>)
    requires PoolPlan(w, lb, opening, ds, del, cre)
    ensures
      var b := opening + PoolSteps(lb, del, cre);
      Sound(w, {}, {}, b) && Dels(b) == Union(del, IdsOfNode)
  {
    var removals, creations := Flat(del, PoolRemoval), Map(cre, PoolCreation(lb));
    PoolDiffFacts(w, lb, ds, del, cre);
    PoolRemovalsSound(w, lb, del);
    PoolCreationFacts(w, lb, cre);
    hide IsDiff;
    hide NodesOf;
    hide Valid;
    hide Sound;
    CreationsSound(w, Dels(removals), {}, creations, OnLb(lb));
    hide Dels;
    hide Busy;
    hide Union;
    hide Flat;
    assert {} + Dels(removals) == Dels(removals) && {} + {} == Busy(removals);
    SoundConcat(w, {}, {}, removals, creations);
    DelsConcat(removals, creations);
    DelsConcat(opening, removals + creations);
    assert {} + Dels(opening) == {} && {} + Busy(opening) == {};
    SoundConcat(w, {}, {}, opening, removals + creations);
  }

  ghost function AfterPools(w: World, lb: Uuid, opening: seq<Action>, del: seq<PoolNode>, cre: seq<PoolNode>): World {
    Exec(w, opening + PoolSteps(lb, del, cre)).world
  }

  ghost function AddedPools(w: World, lb: Uuid, opening: seq<Action>, del: seq<PoolNode>, cre: seq<PoolNode>): seq<Item> {
    Created(opening + PoolSteps(lb, del, cre), w.next, w.subnets)
  }

  lemma PoolBatchSmooth(w: World, lb: Uuid, opening: seq<Action>, ds: seq<PoolNode>,
                        del: seq<PoolNode>, cre: seq<PoolNode>)
    requires PoolBatch(w, lb, opening, ds, del, cre)
    ensures AllSmooth(w.subnets, opening + PoolSteps(lb, del, cre))
  {
    PoolDiffFacts(w, lb, ds, del, cre);
    PoolCreationFacts(w, lb, cre);
    hide IsDiff;
    hide NodesOf;
    hide Valid;
    hide Sound;
    hide Known;
    forall a | a in Flat(del, PoolRemoval)
      ensures Smooth(w.subnets, a)
    {
      RemovalSmooth(w.subnets, del, a);
    }
    hide Flat;
  }

  lemma RemovalSmooth(subnets: map<string, Subnet>, del: seq<PoolNode>, a: Action)
    requires a in Flat(del, PoolRemoval)
    ensures Smooth(subnets, a)
  {
    FlatMember(del, PoolRemoval);
    var n :| n in del && a in PoolRemoval(n);
    FlatMember(n.members + [n.pool], Deletion);
  }

  lemma PoolBatchRuns(w: World, lb: Uuid, opening: seq<Action>, ds: seq<PoolNode>,
                      del: seq<PoolNode>, cre: seq<PoolNode>)
    requires PoolBatch(w, lb, opening, ds, del, cre)
    ensures Exec(w, opening + PoolSteps(lb, del, cre)).control == Finished
    ensures
      var w1 := AfterPools(w, lb, opening, del, cre);
      && w1.items == Survivors(w.items, Union(del, IdsOfNode)) + AddedPools(w, lb, opening, del, cre)
      && w1.lbs == RenamedBy(w.lbs, opening + PoolSteps(lb, del, cre))
      && w1.subnets == w.subnets && w1.fips == w.fips
  {
    PoolBatchSound(w, lb, opening, ds, del, cre);
    PoolBatchSmooth(w, lb, opening, ds, del, cre);
    hide Flat;
    hide Sound;
    hide AllSmooth;
    hide Valid;
    hide IsDiff;
    hide PoolSteps;
    ExecSound(w, opening + PoolSteps(lb, del, cre));
  }

  lemma RemovalsOnlyDelete(del: seq<PoolNode>)
    ensures forall a :: a in Flat(del, PoolRemoval) ==> Creation(a).None?
  {
    FlatMember(del, PoolRemoval);
    forall n, a | n in del && a in PoolRemoval(n)
      ensures Creation(a).None?
    {
      FlatMember(n.members + [n.pool], Deletion);
    }
  }

  lemma PoolCreationOrigin(lb: Uuid, opening: seq<Action>, del: seq<PoolNode>, cre: seq<PoolNode>, a: Action)
    requires forall x :: x in opening ==> Creation(x).None?
    requires a in opening + PoolSteps(lb, del, cre) && Creation(a).Some?
    ensures exists n :: n in cre && a == CreatePool(lb, n.pool)
  {
    RemovalsOnlyDelete(del);
    var creations := Map(cre, PoolCreation(lb));
    hide Flat;
    assert a in creations;
    var k :| 0 <= k < |creations| && creations[k] == a;
    assert cre[k] in cre;
  }

  /** What the batch added are pools to create. */
  lemma AddedPoolOrigin(w: World, lb: Uuid, opening: seq<Action>, ds: seq<PoolNode>,
                        del: seq<PoolNode>, cre: seq<PoolNode>, i: Item)
    requires PoolBatch(w, lb, opening, ds, del, cre)
    requires i in AddedPools(w, lb, opening, del, cre)
    ensures i.id >= w.next && i.owner == OnLb(lb) && exists n :: n in cre && i.spec == n.pool.spec && i.spec.Pool?
  {
    PoolDiffFacts(w, lb, ds, del, cre);
    var b := opening + PoolSteps(lb, del, cre);
    CreatedAskedFor(b, w.next, w.subnets);
    var a :| a in b && MadeBy(i, a, w.subnets);
    hide Created;
    hide IsDiff;
    hide Flat;
    hide NodesOf;
    hide Valid;
    hide PoolSteps;
    PoolCreationOrigin(lb, opening, del, cre, a);
    var n :| n in cre && a == CreatePool(lb, n.pool);
  }

  lemma PoolCreationPresent(lb: Uuid, opening: seq<Action>, del: seq<PoolNode>, cre: seq<PoolNode>, n: PoolNode)
    requires n in cre
    ensures CreatePool(lb, n.pool) in opening + PoolSteps(lb, del, cre)
  {
    var creations := Map(cre, PoolCreation(lb));
    var k :| 0 <= k < |cre| && cre[k] == n;
    hide Flat;
    assert creations[k] in creations;
    assert creations[k] in PoolSteps(lb, del, cre);
  }

  /** Every pool to create was added. */
  lemma AddedPoolPresent(w: World, lb: Uuid, opening: seq<Action>, ds: seq<PoolNode>,
                         del: seq<PoolNode>, cre: seq<PoolNode>, n: PoolNode)
    requires PoolBatch(w, lb, opening, ds, del, cre) && n in cre
    ensures exists i :: i in AddedPools(w, lb, opening, del, cre) && i.owner == OnLb(lb) && i.spec == n.pool.spec
  {
    PoolDiffFacts(w, lb, ds, del, cre);
    var b := opening + PoolSteps(lb, del, cre);
    hide Created;
    hide IsDiff;
    hide NodesOf;
    hide Valid;
    hide PoolSteps;
    CreatedGranted(b, w.next, w.subnets);
    PoolCreationPresent(lb, opening, del, cre, n);
    var a := CreatePool(lb, n.pool);
    assert Creation(a).Some?;
    var i :| i in Created(b, w.next, w.subnets) && MadeBy(i, a, w.subnets);
  }

  lemma GonePools(w: World, lb: Uuid, del: seq<PoolNode>, p: Item)
    requires Valid(w) && p in PoolsOf(w.items, lb)
    requires forall n :: n in del ==> n in NodesOf(w.items, lb)
    ensures Stays(p, Union(del, IdsOfNode)) <==> p !in PoolItems(del)
  {
    PoolItemsIn(del);
    forall n | n in del
      ensures p.id in IdsOfNode(n) <==> p == n.pool
    {
      NodeFacts(w, lb, n);
      forall i | (i in n.members || i == n.pool) && i.id == p.id
        ensures i == p
      {
        SameId(w.items, i, p);
      }
    }
  }

  lemma PoolItemsDistinct(nodes: seq<PoolNode>)
    requires Distinct(nodes, NodeKey)
    ensures Distinct(PoolItems(nodes), ItemKey)
  {
  }

  lemma NodesCover(ds: seq<PoolNode>, nodes: seq<PoolNode>, del: seq<PoolNode>, cre: seq<PoolNode>)
    requires IsDiff(ds, nodes, NodeKey, del, cre)
    ensures Covers(PoolItems(ds), PoolItems(nodes), PoolItems(del), PoolItems(cre))
  {
    DeletesUndesired(ds, nodes, NodeKey, del, cre);
    PoolItemsIn(ds);
    PoolItemsIn(del);
    PoolItemsIn(cre);
    PoolItemsIn(nodes);
    PoolItemsDistinct(del);
    PoolItemsDistinct(cre);
    hide Index;
    hide PoolItems;
    hide KeyOf;
    hide Distinct;
    forall i | i in PoolItems(del)
      ensures i in PoolItems(nodes) && ItemKey(i) !in KeySet(ds, NodeKey)
    {
      var n :| n in del && n.pool == i;
      assert NodeKey(n) == ItemKey(i);
    }
    forall i | i in PoolItems(nodes) && ItemKey(i) !in KeySet(ds, NodeKey)
      ensures ItemKey(i) in KeySet(del, NodeKey)
    {
      var n :| n in nodes && n.pool == i;
      assert NodeKey(n) == ItemKey(i);
      var m :| m in del && NodeKey(m) == NodeKey(n);
    }
  }

  lemma PoolDiffCovers(w: World, lb: Uuid, ds: seq<PoolNode>, del: seq<PoolNode>, cre: seq<PoolNode>)
    requires IsDiff(ds, NodesOf(w.items, lb), NodeKey, del, cre)
    ensures Covers(PoolItems(ds), PoolsOf(w.items, lb), PoolItems(del), PoolItems(cre))
  {
    NodesCover(ds, NodesOf(w.items, lb), del, cre);
    hide IsDiff;
    hide Covers;
    hide PoolsOf;
    assert PoolItems(NodesOf(w.items, lb)) == PoolsOf(w.items, lb);
  }

  lemma PoolsListedAfter(w: World, lb: Uuid, opening: seq<Action>, ds: seq<PoolNode>,
                         del: seq<PoolNode>, cre: seq<PoolNode>)
    requires PoolBatch(w, lb, opening, ds, del, cre)
    ensures forall i ::
      i in PoolsOf(AfterPools(w, lb, opening, del, cre).items, lb)
      <==> (i in PoolsOf(w.items, lb) && i !in PoolItems(del)) || i in AddedPools(w, lb, opening, del, cre)
  {
    var added, gone := AddedPools(w, lb, opening, del, cre), Union(del, IdsOfNode);
    PoolBatchRuns(w, lb, opening, ds, del, cre);
    PoolDiffFacts(w, lb, ds, del, cre);
    hide AfterPools;
    hide AddedPools;
    hide IsDiff;
    hide NodesOf;
    hide Union;
    hide PoolItems;
    forall i | i in PoolsOf(w.items, lb)
      ensures Stays(i, gone) <==> i !in PoolItems(del)
    {
      GonePools(w, lb, del, i);
    }
    forall i | i in added
      ensures IsChild(i, OnLb(lb), KPool)
    {
      AddedPoolOrigin(w, lb, opening, ds, del, cre, i);
    }
  }

  lemma PoolsReplaced(w: World, lb: Uuid, opening: seq<Action>, ds: seq<PoolNode>,
                      del: seq<PoolNode>, cre: seq<PoolNode>)
    requires PoolBatch(w, lb, opening, ds, del, cre)
    ensures Replaced(PoolsOf(w.items, lb), PoolItems(del), PoolItems(cre),
                     PoolsOf(AfterPools(w, lb, opening, del, cre).items, lb))
  {
    var added := AddedPools(w, lb, opening, del, cre);
    PoolsListedAfter(w, lb, opening, ds, del, cre);
    PoolItemsIn(cre);
    hide AfterPools;
    hide AddedPools;
    hide NodesOf;
    hide PoolsOf;
    hide PoolItems;
    forall i | i in added
      ensures ItemKey(i) in KeySet(PoolItems(cre), ItemKey)
    {
      AddedPoolOrigin(w, lb, opening, ds, del, cre, i);
      var n :| n in cre && i.spec == n.pool.spec;
      assert NodeKey(n) in KeySet(cre, NodeKey);
    }
    forall k | k in KeySet(cre, NodeKey)
      ensures k in KeySet(PoolsOf(AfterPools(w, lb, opening, del, cre).items, lb), ItemKey)
    {
      var n :| n in cre && NodeKey(n) == k;
      AddedPoolPresent(w, lb, opening, ds, del, cre, n);
      var i :| i in added && i.owner == OnLb(lb) && i.spec == n.pool.spec;
      assert ItemKey(i) == k;
    }
  }
}
