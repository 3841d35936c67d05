/** Every action the planner returns concerns only the load balancer it was given, whatever is desired. */
module PlanLocality {
  import opened Seqs
  import opened Compare
  import opened Domain
  import opened CloudWorld
  import opened Planner
  import opened Rounds
  import opened ChildRounds
  import opened PoolRounds
  import opened UpdateRounds
  import opened FinalRounds
  import opened Frames

  ghost function OwnIds(items: seq<Item>, own: Uuid): set<Uuid> {
    set i | i in items && Mine(OwnPools(items, own), own, false, i) :: i.id
  }

  ghost function Addresses(ips: seq<string>): set<string> {
    set ip | ip in ips :: Address(ip)
  }

  lemma OwnsOwn(w: World, l: Lb)
    requires Valid(w) && l in w.lbs
    ensures Owns(w, l.id, OwnIds(w.items, l.id))
  {
    var ids := OwnIds(w.items, l.id);
    assert forall x :: x in w.lbs ==> x.id in LbIds(w.lbs);
    forall i | i in w.items && i.id in ids
      ensures Mine(OwnPools(w.items, l.id), l.id, false, i)
    {
      var j :| j in w.items && Mine(OwnPools(w.items, l.id), l.id, false, j) && j.id == i.id;
      SameId(w.items, i, j);
    }
  }

  lemma NodeOwned(items: seq<Item>, own: Uuid, n: PoolNode)
    requires n in NodesOf(items, own)
    ensures n.pool.id in OwnIds(items, own) && forall m :: m in n.members ==> m.id in OwnIds(items, own)
  {
    NodesIn(items, own);
    hide NodesOf;
    assert n.pool.id in OwnPools(items, own);
  }

  lemma RepJobShape(n: PoolNode, items: seq<Item>, p: Item, j: Job)
    requires j in RepJobs(n, items, p)
    ensures j.pool == p.id && j.kind != KPool && j.have == Children(items, InPool(p.id), j.kind)
  {
  }

  lemma RepOwned(items: seq<Item>, own: Uuid, name: string)
    requires name in Index(PoolsOf(items, own), PoolName)
    ensures
      var p := Rep(items, own, name);
      p.id in OwnIds(items, own) && p.id in OwnPools(items, own)
  {
    var p := Rep(items, own, name);
    assert p in PoolsOf(items, own);
    hide Index;
  }

  lemma JobOwned(desired: seq<PoolNode>, items: seq<Item>, own: Uuid, j: Job)
    requires HasReps(desired, items, own) && j in Jobs(desired, NodesOf(items, own))
    ensures j.pool in OwnIds(items, own) && j.kind != KPool
    ensures forall i :: i in j.have ==> i.id in OwnIds(items, own)
  {
    hide Jobs;
    hide NodesOf;
    hide PoolsOf;
    hide Index;
    hide RepJobs;
    JobIn(desired, items, own, j);
    var n :| n in desired && j in RepJobs(n, items, Rep(items, own, NodeName(n)));
    RepOwned(items, own, NodeName(n));
    RepJobShape(n, items, Rep(items, own, NodeName(n)), j);
    hide Rep;
  }

  lemma RemovalsLocal(items: seq<Item>, own: Uuid, del: seq<PoolNode>, ips: set<string>)
    requires forall n :: n in del ==> n in NodesOf(items, own)
    ensures forall a :: a in Flat(del, PoolRemoval) ==> Local(own, false, OwnIds(items, own), ips, a)
  {
    FlatMember(del, PoolRemoval);
    hide Flat;
    forall n, a | n in del && a in PoolRemoval(n)
      ensures Local(own, false, OwnIds(items, own), ips, a)
    {
      NodeOwned(items, own, n);
      FlatMember(n.members + [n.pool], Deletion);
    }
  }

  lemma DeletionsLocal(own: Uuid, ids: set<Uuid>, ips: set<string>, del: seq<Item>)
    requires forall i :: i in del ==> i.id in ids
    ensures forall a :: a in Deletions(del) ==> Local(own, false, ids, ips, a)
  {
    FlatMember(del, Deletion);
    hide Flat;
  }

  lemma CreationsLocal(own: Uuid, ids: set<Uuid>, ips: set<string>, pool: Uuid, kind: Kind, cre: seq<Item>)
    requires pool in ids && kind != KPool
    ensures forall a :: a in Map(cre, CreationIn(pool, kind)) ==> Local(own, false, ids, ips, a)
  {
    var b := Map(cre, CreationIn(pool, kind));
    assert forall k :: 0 <= k < |b| ==> b[k] == CreateIn(pool, kind, cre[k]);
  }

  lemma JobStepsLocal(desired: seq<PoolNode>, items: seq<Item>, own: Uuid, x: JobDiff, ips: set<string>)
    requires HasReps(desired, items, own) && x.job in Jobs(desired, NodesOf(items, own)) && DiffOf(x.job, x)
    ensures forall a :: a in JobSteps(x) ==> Local(own, false, OwnIds(items, own), ips, a)
  {
    hide Jobs;
    hide NodesOf;
    hide OwnIds;
    hide Deletions;
    hide Index;
    hide Children;
    JobOwned(desired, items, own, x.job);
    DeletesUndesired(x.job.want, x.job.have, ItemKey, x.del, x.cre);
    hide IsDiff;
    DeletionsLocal(own, OwnIds(items, own), ips, x.del);
    CreationsLocal(own, OwnIds(items, own), ips, x.job.pool, x.job.kind, x.cre);
  }

  lemma PairLocal(desired: seq<PoolNode>, items: seq<Item>, own: Uuid, j: Job, p: (Item, Item), ips: set<string>)
    requires HasReps(desired, items, own) && j in Jobs(desired, NodesOf(items, own)) && p in JobPairs(j)
    ensures forall a :: a in PairUpdates(p) ==> Local(own, false, OwnIds(items, own), ips, a)
  {
    JobOwned(desired, items, own, j);
    PairedFacts(j.want, Index(j.have, ItemKey), ItemKey);
    PairTargets(p);
    hide PairUpdates;
    hide Jobs;
    hide NodesOf;
    hide OwnIds;
    hide Revise;
    hide Paired;
  }

  lemma UpdatesLocal(desired: seq<PoolNode>, items: seq<Item>, own: Uuid, ips: set<string>)
    requires HasReps(desired, items, own)
    ensures forall a :: a in Flat(Pairs(Jobs(desired, NodesOf(items, own))), Update) ==>
      Local(own, false, OwnIds(items, own), ips, a)
  {
    var jobs := Jobs(desired, NodesOf(items, own));
    FlatMember(Pairs(jobs), Update);
    FlatMember(jobs, JobPairs);
    hide Flat;
    hide Jobs;
    hide Local;
    hide PairUpdates;
    forall p, a | p in Pairs(jobs) && a in PairUpdates(p)
      ensures Local(own, false, OwnIds(items, own), ips, a)
    {
      var j :| j in jobs && p in JobPairs(j);
      PairLocal(desired, items, own, j, p, ips);
    }
  }

  lemma StepsLocal(desired: seq<PoolNode>, items: seq<Item>, own: Uuid, diffs: seq<JobDiff>, ips: set<string>)
    requires HasReps(desired, items, own) && DiffsOf(Jobs(desired, NodesOf(items, own)), diffs)
    ensures forall a :: a in Flat(diffs, JobSteps) ==> Local(own, false, OwnIds(items, own), ips, a)
  {
    var jobs := Jobs(desired, NodesOf(items, own));
    FlatMember(diffs, JobSteps);
    hide Flat;
    hide Jobs;
    hide Local;
    forall x, a | x in diffs && a in JobSteps(x)
      ensures Local(own, false, OwnIds(items, own), ips, a)
    {
      var k :| 0 <= k < |diffs| && diffs[k] == x;
      assert DiffOf(jobs[k], x) && jobs[k] in jobs;
      JobStepsLocal(desired, items, own, x, ips);
    }
  }

  lemma AssignmentsLocal(own: Uuid, ids: set<Uuid>, assign: seq<string>, desired: seq<string>)
    requires forall ip :: ip in assign ==> ip in desired
    ensures forall a :: a in Map(assign, Assignment(own)) ==> Local(own, false, ids, Addresses(desired), a)
  {
    AssignmentsIn(assign, own);
    hide Address;
  }

  lemma PoolStepsLocal(w: World, d: State, l: Lb, status: string, c: Choice)
    requires IsDiff(d.pools, NodesOf(w.items, l.id), NodeKey, c.poolDel, c.poolCre)
    ensures forall a :: a in PoolSteps(l.id, c.poolDel, c.poolCre) ==>
      Local(l.id, false, OwnIds(w.items, l.id), Addresses(d.floatingIPs), a)
  {
    PoolDiffFacts(w, l.id, d.pools, c.poolDel, c.poolCre);
    hide IsDiff;
    hide NodesOf;
    hide Flat;
    hide OwnIds;
    RemovalsLocal(w.items, l.id, c.poolDel, Addresses(d.floatingIPs));
    var cs := Map(c.poolCre, PoolCreation(l.id));
    assert forall k :: 0 <= k < |cs| ==> cs[k] == CreatePool(l.id, c.poolCre[k].pool);
  }

  lemma LaterStepsLocal(w: World, d: State, l: Lb, c: Choice)
    requires Resolves(d.pools, NodesOf(w.items, l.id))
    requires DiffsOf(Jobs(d.pools, NodesOf(w.items, l.id)), c.diffs)
    requires IsDiff(d.floatingIPs, NetworksOf(w.fips, l.id), Same, c.release, c.assign)
    ensures
      var b := Flat(c.diffs, JobSteps) + Flat(Pairs(Jobs(d.pools, NodesOf(w.items, l.id))), Update)
               + Map(c.assign, Assignment(l.id));
      forall a :: a in b ==> Local(l.id, false, OwnIds(w.items, l.id), Addresses(d.floatingIPs), a)
  {
    ResolvesReps(d.pools, w.items, l.id);
    CreatesMissing(d.floatingIPs, NetworksOf(w.fips, l.id), Same, c.release, c.assign);
    hide IsDiff;
    hide NodesOf;
    hide Jobs;
    hide Flat;
    hide OwnIds;
    hide Local;
    hide Index;
    StepsLocal(d.pools, w.items, l.id, c.diffs, Addresses(d.floatingIPs));
    UpdatesLocal(d.pools, w.items, l.id, Addresses(d.floatingIPs));
    AssignmentsLocal(l.id, OwnIds(w.items, l.id), c.assign, d.floatingIPs);
  }

  /** All actions of a batch planned for an existing load balancer are local to it. */
  lemma PlanLocal(w: World, d: State, l: Lb, status: string, c: Choice)
    requires Possible(d, Snapshot(w, Some(l), status), c)
    ensures forall a :: a in Plan(d, Snapshot(w, Some(l), status), c) ==>
      Local(l.id, d.lb.None?, OwnIds(w.items, l.id), Addresses(d.floatingIPs), a)
  {
    if d.lb.Some? {
      if c.poolDel != [] || c.poolCre != [] {
        PoolStepsLocal(w, d, l, status, c);
      } else {
        LaterStepsLocal(w, d, l, c);
      }
    }
    hide IsDiff;
    hide DiffsOf;
    hide NodesOf;
    hide Jobs;
    hide Flat;
    hide OwnIds;
    hide PoolSteps;
    hide Resolves;
  }
}
