/** Pools, members, listeners and monitors that are still desired keep their identity through a whole run. */
module Disruption {
  import opened Seqs
  import opened Compare
  import opened Domain
  import opened CloudWorld
  import opened Validity
  import opened Planner
  import opened Lookup
  import opened Rounds
  import opened ChildRounds
  import opened PoolRounds
  import opened UpdateRounds
  import opened Frames
  import opened PlanLocality
  import opened Runs

  // ---------------------------------------------------------------- what is still desired

  function ChildrenIn(n: PoolNode, kind: Kind): seq<Item> {
    match kind
    case KPool => []
    case KMember => n.members
    case KListener => n.listeners
    case KMonitor => n.monitors
  }

  /** The key of pool `p` is desired, and so is, under that key, the key of its child `i`, if given. */
  ghost predicate StillDesired(d: State, p: Item, i: Option<Item>) {
    && ItemKey(p) in KeySet(d.pools, NodeKey)
    && (i.Some? ==> forall n :: n in d.pools && NodeKey(n) == ItemKey(p) ==>
          ItemKey(i.value) in KeySet(ChildrenIn(n, KindOf(i.value.spec)), ItemKey))
  }

  /** The key of a pool tells its name, by `names`. */
  ghost predicate NamedBy(names: Key -> string, s: Spec) {
    s.Pool? ==> names(KeyOf(s)) == s.name
  }

  ghost predicate AllNamed(names: Key -> string, d: State) {
    && Distinct(d.pools, NodeName)
    && forall n :: n in d.pools ==> n.pool.spec.Pool? && NamedBy(names, n.pool.spec)
  }

  ghost predicate PoolsNamed(names: Key -> string, items: seq<Item>, own: Uuid) {
    forall p :: p in items && p.owner == OnLb(own) ==> NamedBy(names, p.spec)
  }

  /** Where a child is followed, and not only its pool, keys tell the names of the desired pools. */
  ghost predicate DesiredTold(names: Key -> string, d: State, i: Option<Item>) {
    i.Some? ==> AllNamed(names, d)
  }

  /** The same for the pools of the load balancer. */
  ghost predicate PoolsTold(names: Key -> string, items: seq<Item>, own: Uuid, i: Option<Item>) {
    i.Some? ==> PoolsNamed(names, items, own)
  }

  ghost predicate ChildOf(w: World, own: Uuid, p: Item, i: Option<Item>) {
    && p in w.items && p.owner == OnLb(own) && p.spec.Pool?
    && (i.Some? ==> i.value in w.items && i.value.owner == InPool(p.id))
  }

  ghost predicate Spares(b: seq<Action>, p: Item, i: Option<Item>) {
    forall a :: a in b && a.DeleteResource? ==> a.id != p.id && (i.Some? ==> a.id != i.value.id)
  }

  // ---------------------------------------------------------------- the planner spares it

  lemma RemovalDeletes(n: PoolNode, a: Action)
    requires a in PoolRemoval(n) && a.DeleteResource?
    ensures a.id == n.pool.id || exists m :: m in n.members && m.id == a.id
  {
    FlatMember(n.members + [n.pool], Deletion);
  }

  lemma NodeSpares(w: World, own: Uuid, n: PoolNode, p: Item, i: Option<Item>, id: Uuid)
    requires Valid(w) && n in NodesOf(w.items, own) && ChildOf(w, own, p, i)
    requires NodeKey(n) != ItemKey(p)
    requires id == n.pool.id || exists m :: m in n.members && m.id == id
    ensures id != p.id && (i.Some? ==> id != i.value.id)
  {
    NodeFacts(w, own, n);
    hide NodesOf;
    var x :| (x in n.members || x == n.pool) && x.id == id;
    if x.id == p.id {
      SameId(w.items, x, p);
    }
    if i.Some? && x.id == i.value.id {
      SameId(w.items, x, i.value);
      OwnerPool(w, n.pool, p);
    }
  }

  lemma OwnerPool(w: World, a: Item, b: Item)
    requires Valid(w) && a in w.items && b in w.items
    ensures a.id == b.id ==> a == b
  {
    if a.id == b.id { SameId(w.items, a, b); }
  }

  lemma UndesiredNode(d: State, nodes: seq<PoolNode>, c: Choice, n: PoolNode, p: Item)
    requires IsDiff(d.pools, nodes, NodeKey, c.poolDel, c.poolCre) && n in c.poolDel
    requires ItemKey(p) in KeySet(d.pools, NodeKey)
    ensures n in nodes && NodeKey(n) != ItemKey(p)
  {
    DeletesUndesired(d.pools, nodes, NodeKey, c.poolDel, c.poolCre);
  }

  lemma PoolStepsSpare(w: World, d: State, l: Lb, c: Choice, p: Item, i: Option<Item>)
    requires Valid(w) && IsDiff(d.pools, NodesOf(w.items, l.id), NodeKey, c.poolDel, c.poolCre)
    requires ChildOf(w, l.id, p, i) && ItemKey(p) in KeySet(d.pools, NodeKey)
    ensures Spares(Flat(c.poolDel, PoolRemoval), p, i)
  {
    FlatMember(c.poolDel, PoolRemoval);
    hide Flat;
    hide IsDiff;
    hide Valid;
    hide ChildOf;
    hide NodesOf;
    hide PoolRemoval;
    hide KeyOf;
    forall a | a in Flat(c.poolDel, PoolRemoval) && a.DeleteResource?
      ensures a.id != p.id && (i.Some? ==> a.id != i.value.id)
    {
      var n :| n in c.poolDel && a in PoolRemoval(n);
      RemovalDeletes(n, a);
      UndesiredNode(d, NodesOf(w.items, l.id), c, n, p);
      NodeSpares(w, l.id, n, p, i, a.id);
    }
  }

  lemma RepJobWants(n: PoolNode, items: seq<Item>, p: Item, j: Job)
    requires j in RepJobs(n, items, p)
    ensures j.want == ChildrenIn(n, j.kind)
  {
  }

  /** A desired pool whose name finds `p`, whose key is desired too, has the key of `p`. */
  lemma NameTellsKey(names: Key -> string, d: State, n: PoolNode, p: Item)
    requires AllNamed(names, d) && n in d.pools && p.spec.Pool? && NamedBy(names, p.spec)
    requires ItemKey(p) in KeySet(d.pools, NodeKey) && NodeName(n) == p.spec.name
    ensures NodeKey(n) == ItemKey(p)
  {
    var m :| m in d.pools && NodeKey(m) == ItemKey(p);
    assert NamedBy(names, m.pool.spec);
    assert NodeName(m) == NodeName(n);
    DistinctSame(d.pools, NodeName, m, n);
  }

  lemma JobSpares(w: World, names: Key -> string, d: State, l: Lb, j: Job, x: Item, p: Item, i: Option<Item>)
    requires Valid(w) && DesiredTold(names, d, i) && PoolsTold(names, w.items, l.id, i)
    requires HasReps(d.pools, w.items, l.id) && j in Jobs(d.pools, NodesOf(w.items, l.id))
    requires ChildOf(w, l.id, p, i) && StillDesired(d, p, i)
    requires x in j.have && ItemKey(x) !in KeySet(j.want, ItemKey)
    ensures x.id != p.id && (i.Some? ==> x.id != i.value.id)
  {
    hide Jobs;
    hide NodesOf;
    hide Index;
    hide RepJobs;
    JobIn(d.pools, w.items, l.id, j);
    var n :| n in d.pools && j in RepJobs(n, w.items, Rep(w.items, l.id, NodeName(n)));
    var rep := Rep(w.items, l.id, NodeName(n));
    RepJobShape(n, w.items, rep, j);
    RepJobWants(n, w.items, rep, j);
    RepFacts(w, l.id, NodeName(n));
    hide Rep;
    hide PoolsOf;
    if x.id == p.id {
      SameId(w.items, x, p);
    }
    if i.Some? && x.id == i.value.id {
      SameId(w.items, x, i.value);
      SameId(w.items, rep, p);
      NameTellsKey(names, d, n, p);
    }
  }

  lemma ChildStepsSpare(w: World, names: Key -> string, d: State, l: Lb, diffs: seq<JobDiff>, p: Item, i: Option<Item>)
    requires Valid(w) && DesiredTold(names, d, i) && PoolsTold(names, w.items, l.id, i)
    requires HasReps(d.pools, w.items, l.id) && DiffsOf(Jobs(d.pools, NodesOf(w.items, l.id)), diffs)
    requires ChildOf(w, l.id, p, i) && StillDesired(d, p, i)
    ensures Spares(Flat(diffs, JobSteps), p, i)
  {
    var jobs := Jobs(d.pools, NodesOf(w.items, l.id));
    FlatMember(diffs, JobSteps);
    hide Flat;
    hide Jobs;
    hide ChildOf;
    hide StillDesired;
    hide Valid;
    hide DesiredTold;
    hide PoolsTold;
    forall a | a in Flat(diffs, JobSteps) && a.DeleteResource?
      ensures a.id != p.id && (i.Some? ==> a.id != i.value.id)
    {
      var x :| x in diffs && a in JobSteps(x);
      var k :| 0 <= k < |diffs| && diffs[k] == x;
      assert DiffOf(jobs[k], x) && jobs[k] in jobs;
      DeletesUndesired(x.job.want, x.job.have, ItemKey, x.del, x.cre);
      JobDeletes(x, a);
      hide IsDiff;
      hide JobSteps;
      var y :| y in x.del && y.id == a.id;
      JobSpares(w, names, d, l, x.job, y, p, i);
    }
  }

  lemma JobDeletes(x: JobDiff, a: Action)
    requires a in JobSteps(x) && a.DeleteResource?
    ensures exists y :: y in x.del && y.id == a.id
  {
    FlatMember(x.del, Deletion);
    hide Flat;
    var cre := Map(x.cre, CreationIn(x.job.pool, x.job.kind));
    assert forall k :: 0 <= k < |cre| ==> cre[k] == CreateIn(x.job.pool, x.job.kind, x.cre[k]);
    assert a in Deletions(x.del);
  }

  lemma NoDeletes(pairs: seq<(Item, Item)>, lb: Uuid, cre: seq<PoolNode>, assign: seq<string>)
    ensures forall a :: a in Flat(pairs, Update) ==> !a.DeleteResource?
    ensures forall a :: a in Map(cre, PoolCreation(lb)) ==> !a.DeleteResource?
    ensures forall a :: a in Map(assign, Assignment(lb)) ==> !a.DeleteResource?
  {
    FlatMember(pairs, Update);
    hide Flat;
    hide PairUpdates;
    forall p, a | p in pairs && a in PairUpdates(p)
      ensures !a.DeleteResource?
    {
      PairTargets(p);
    }
    var cs, bs := Map(cre, PoolCreation(lb)), Map(assign, Assignment(lb));
    assert forall k :: 0 <= k < |cs| ==> cs[k].CreatePool?;
    assert forall k :: 0 <= k < |bs| ==> bs[k].AssignFloatingIP?;
  }

  /** All deletions of a batch come from undesired pools or from comparisons of children. */
  lemma PlanDeletes(w: World, d: State, l: Lb, status: string, c: Choice, a: Action)
    requires d.lb.Some? && a in Plan(d, Snapshot(w, Some(l), status), c) && a.DeleteResource?
    ensures if c.poolDel != [] || c.poolCre != [] then a in Flat(c.poolDel, PoolRemoval) else a in Flat(c.diffs, JobSteps)
  {
    var pairs := Pairs(Jobs(d.pools, NodesOf(w.items, l.id)));
    NoDeletes(pairs, l.id, c.poolCre, c.assign);
    hide Flat;
    hide Jobs;
    hide NodesOf;
    hide NetworksOf;
    hide Pairs;
  }

  lemma DesiredPool(d: State, p: Item, i: Option<Item>)
    requires StillDesired(d, p, i)
    ensures ItemKey(p) in KeySet(d.pools, NodeKey)
  {
  }

  /** No batch planned for a state deletes what is still desired in it. */
  lemma PlanSpares(w: World, names: Key -> string, d: State, l: Lb, status: string, c: Choice, p: Item, i: Option<Item>)
    requires Valid(w) && d.lb.Some? && Possible(d, Snapshot(w, Some(l), status), c)
    requires DesiredTold(names, d, i) && PoolsTold(names, w.items, l.id, i)
    requires ChildOf(w, l.id, p, i) && StillDesired(d, p, i)
    ensures Spares(Plan(d, Snapshot(w, Some(l), status), c), p, i)
  {
    hide Plan;
    hide IsDiff;
    hide DiffsOf;
    hide NodesOf;
    hide Jobs;
    hide Flat;
    hide Resolves;
    hide Valid;
    hide DesiredTold;
    hide PoolsTold;
    hide ChildOf;
    hide StillDesired;
    hide NetworksOf;
    if c.poolDel != [] || c.poolCre != [] {
      assert ItemKey(p) in KeySet(d.pools, NodeKey) by { DesiredPool(d, p, i); }
      PoolStepsSpare(w, d, l, c, p, i);
    } else {
      ResolvesReps(d.pools, w.items, l.id);
      ChildStepsSpare(w, names, d, l, c.diffs, p, i);
    }
    forall a | a in Plan(d, Snapshot(w, Some(l), status), c) && a.DeleteResource?
      ensures a.id != p.id && (i.Some? ==> a.id != i.value.id)
    {
      PlanDeletes(w, d, l, status, c, a);
    }
  }

  // ---------------------------------------------------------------- batches keep what they spare

  /** `j` is the resource `i`, with the same owner and key; only fields updated in place may differ. */
  ghost predicate SameResource(i: Item, j: Item) {
    i.id == j.id && i.owner == j.owner && KeyOf(i.spec) == KeyOf(j.spec) && KindOf(i.spec) == KindOf(j.spec)
  }

  ghost predicate Kept(w: World, p: Item, i: Option<Item>, w1: World) {
    p in w1.items && (i.Some? ==> exists j :: j in w1.items && SameResource(i.value, j))
  }

  lemma PoolUnrevised(p: Item, a: Action)
    requires p.spec.Pool?
    ensures Revised(p, a) == p
  {
  }

  lemma StepKeeps(w: World, own: Uuid, ids: set<Uuid>, ips: set<string>, a: Action, p: Item, j: Item)
    requires Owns(w, own, ids) && Local(own, false, ids, ips, a) && Apply(w, a).Proceed?
    requires p in w.items && p.spec.Pool? && p.owner.OnLb?
    requires j in w.items && (j == p || j.owner == InPool(p.id))
    requires a.DeleteResource? ==> a.id != p.id && a.id != j.id
    ensures Revised(j, a) in Apply(w, a).world.items
  {
    if IsUpdate(a) {
      hide Revised;
      var k :| 0 <= k < |w.items| && w.items[k] == j;
      var r := Map(w.items, (i: Item) => Revised(i, a));
      assert r[k] in r;
    } else {
      NotRevised(j, a);
      hide Revised;
      hide Stored;
      if a.DeleteResource? {
        assert Stays(j, {a.id});
      }
    }
  }

  lemma {:induction false} BatchKeeps(w: World, own: Uuid, ids: set<Uuid>, ips: set<string>, b: seq<Action>, p: Item, j: Item)
    requires Valid(w) && Owns(w, own, ids) && forall a :: a in b ==> Local(own, false, ids, ips, a)
    requires p in w.items && p.spec.Pool? && p.owner.OnLb?
    requires j in w.items && (j == p || j.owner == InPool(p.id))
    requires forall a :: a in b && a.DeleteResource? ==> a.id != p.id && a.id != j.id
    ensures p in Exec(w, b).world.items
    ensures exists r :: r in Exec(w, b).world.items && SameResource(j, r)
    decreases |b|
  {
    if b == [] || !Apply(w, b[0]).Proceed? {
      assert Exec(w, b).world == w;
      assert SameResource(j, j);
    } else {
      var a, w1 := b[0], Apply(w, b[0]).world;
      assert a in b;
      StepKeeps(w, own, ids, ips, a, p, p);
      StepKeeps(w, own, ids, ips, a, p, j);
      PoolUnrevised(p, a);
      RevisedSame(j, a);
      if j == p { PoolUnrevised(j, a); }
      LocalStep(w, own, false, ids, ips, a);
      hide Apply;
      hide Local;
      hide Owns;
      hide Valid;
      hide Revised;
      hide KeyOf;
      BatchKeeps(w1, own, ids, ips, b[1..], p, Revised(j, a));
      var r :| r in Exec(w1, b[1..]).world.items && SameResource(Revised(j, a), r);
      assert SameResource(j, r);
    }
  }

  // ---------------------------------------------------------------- pools keep telling names from keys

  lemma UpdatedPool(items: seq<Item>, a: Action, i: Item)
    requires i in Map(items, (x: Item) => Revised(x, a)) && i.spec.Pool?
    ensures i in items
  {
    var r := Map(items, (x: Item) => Revised(x, a));
    var k :| 0 <= k < |r| && r[k] == i;
    RevisedSame(items[k], a);
    assert KindOf(items[k].spec) == KPool;
    PoolUnrevised(items[k], a);
  }

  /** A pool is in the cloud after an action because it was there before, or because it was created. */
  lemma PoolOrigin(w: World, a: Action, i: Item)
    requires Apply(w, a).Proceed? && i in Apply(w, a).world.items && i.spec.Pool?
    ensures i in w.items || (a.CreatePool? && i.spec == a.item.spec)
  {
    if IsUpdate(a) {
      hide Revised;
      UpdatedPool(w.items, a, i);
    }
    hide Revise;
  }

  lemma StepNames(names: Key -> string, w: World, own: Uuid, a: Action)
    requires PoolsNamed(names, w.items, own)
    requires a.CreatePool? ==> NamedBy(names, a.item.spec)
    requires Apply(w, a).Proceed?
    ensures PoolsNamed(names, Apply(w, a).world.items, own)
  {
    var items1 := Apply(w, a).world.items;
    hide Apply;
    hide KeyOf;
    forall i | i in items1 && i.owner == OnLb(own)
      ensures NamedBy(names, i.spec)
    {
      if i.spec.Pool? {
        PoolOrigin(w, a, i);
      }
    }
  }

  lemma {:induction false} BatchNames(names: Key -> string, w: World, own: Uuid, ids: set<Uuid>, ips: set<string>, b: seq<Action>)
    requires Valid(w) && Owns(w, own, ids) && PoolsNamed(names, w.items, own)
    requires forall a :: a in b ==> Local(own, false, ids, ips, a) && (a.CreatePool? ==> NamedBy(names, a.item.spec))
    ensures PoolsNamed(names, Exec(w, b).world.items, own)
    decreases |b|
  {
    if b != [] && Apply(w, b[0]).Proceed? {
      assert b[0] in b;
      StepNames(names, w, own, b[0]);
      LocalStep(w, own, false, ids, ips, b[0]);
      hide Apply;
      hide Local;
      hide Owns;
      hide Valid;
      hide PoolsNamed;
      hide NamedBy;
      BatchNames(names, Apply(w, b[0]).world, own, ids, ips, b[1..]);
    }
  }

  lemma NoPoolsInJob(x: JobDiff, a: Action)
    requires x.job.kind != KPool && a in JobSteps(x)
    ensures !a.CreatePool?
  {
    FlatMember(x.del, Deletion);
    hide Flat;
    var cre := Map(x.cre, CreationIn(x.job.pool, x.job.kind));
    assert forall k :: 0 <= k < |cre| ==> cre[k] == CreateIn(x.job.pool, x.job.kind, x.cre[k]);
  }

  lemma NoPoolsInSteps(diffs: seq<JobDiff>)
    requires forall x :: x in diffs ==> x.job.kind != KPool
    ensures forall a :: a in Flat(diffs, JobSteps) ==> !a.CreatePool?
  {
    FlatMember(diffs, JobSteps);
    hide Flat;
    hide JobSteps;
    forall x, a | x in diffs && a in JobSteps(x)
      ensures !a.CreatePool?
    {
      NoPoolsInJob(x, a);
    }
  }

  lemma JobKinds(w: World, d: State, own: Uuid, diffs: seq<JobDiff>)
    requires HasReps(d.pools, w.items, own) && DiffsOf(Jobs(d.pools, NodesOf(w.items, own)), diffs)
    ensures forall x :: x in diffs ==> x.job.kind != KPool
  {
    var jobs := Jobs(d.pools, NodesOf(w.items, own));
    hide Jobs;
    hide IsDiff;
    forall x | x in diffs
      ensures x.job.kind != KPool
    {
      var k :| 0 <= k < |diffs| && diffs[k] == x;
      assert DiffOf(jobs[k], x) && jobs[k] in jobs;
      JobOwned(d.pools, w.items, own, x.job);
    }
  }

  lemma NoPoolCreations(pairs: seq<(Item, Item)>, lb: Uuid, del: seq<PoolNode>, assign: seq<string>)
    ensures forall a :: a in Flat(pairs, Update) ==> !a.CreatePool?
    ensures forall a :: a in Flat(del, PoolRemoval) ==> !a.CreatePool?
    ensures forall a :: a in Map(assign, Assignment(lb)) ==> !a.CreatePool?
  {
    RemovalsOnlyDelete(del);
    forall a | a in Flat(del, PoolRemoval)
      ensures !a.CreatePool?
    {
      RemovalIs(del, a);
    }
    FlatMember(pairs, Update);
    hide Flat;
    hide PairUpdates;
    forall p, a | p in pairs && a in PairUpdates(p)
      ensures !a.CreatePool?
    {
      PairTargets(p);
    }
    var bs := Map(assign, Assignment(lb));
    assert forall k :: 0 <= k < |bs| ==> bs[k].AssignFloatingIP?;
  }

  lemma RemovalIs(del: seq<PoolNode>, a: Action)
    requires a in Flat(del, PoolRemoval)
    ensures a.DeleteResource? || a.Sleep?
  {
    FlatMember(del, PoolRemoval);
    var n :| n in del && a in PoolRemoval(n);
    FlatMember(n.members + [n.pool], Deletion);
  }

  lemma PlanCreates(w: World, d: State, l: Lb, status: string, c: Choice, a: Action)
    requires d.lb.Some? && a in Plan(d, Snapshot(w, Some(l), status), c) && a.CreatePool?
    ensures if c.poolDel != [] || c.poolCre != [] then a in Map(c.poolCre, PoolCreation(l.id)) else a in Flat(c.diffs, JobSteps)
  {
    var pairs := Pairs(Jobs(d.pools, NodesOf(w.items, l.id)));
    NoPoolCreations(pairs, l.id, c.poolDel, c.assign);
    hide Flat;
    hide Jobs;
    hide NodesOf;
    hide NetworksOf;
    hide Pairs;
  }

  /** The planner creates desired pools only. */
  lemma PlanCreatesDesired(w: World, d: State, l: Lb, status: string, c: Choice, a: Action)
    requires d.lb.Some? && Possible(d, Snapshot(w, Some(l), status), c)
    requires a in Plan(d, Snapshot(w, Some(l), status), c) && a.CreatePool?
    ensures exists n :: n in d.pools && a.item == n.pool
  {
    hide Plan;
    hide IsDiff;
    hide DiffsOf;
    hide NodesOf;
    hide Jobs;
    hide Flat;
    hide Resolves;
    hide NetworksOf;
    PlanCreates(w, d, l, status, c, a);
    if c.poolDel != [] || c.poolCre != [] {
      PoolDiffFacts(w, l.id, d.pools, c.poolDel, c.poolCre);
      var cs := Map(c.poolCre, PoolCreation(l.id));
      var k :| 0 <= k < |cs| && cs[k] == a;
      assert c.poolCre[k] in c.poolCre;
    } else {
      ResolvesReps(d.pools, w.items, l.id);
      JobKinds(w, d, l.id, c.diffs);
      NoPoolsInSteps(c.diffs);
    }
  }

  // ---------------------------------------------------------------- whole runs

  /** What the turns of a run have in common: they want a load balancer of the queried name, and `p`, and
      `i` below it, are still desired; where `i` is followed, pool keys tell pool names. */
  ghost predicate Careful(q: Query, names: Key -> string, t: Turn, p: Item, i: Option<Item>) {
    && t.desired.lb.Some? && t.desired.lb.value.name == q.name && q.name != ""
    && DesiredTold(names, t.desired, i) && StillDesired(t.desired, p, i)
  }

  lemma PartTold(w: World, q: Query, t: Turn, k: nat, names: Key -> string, i: Option<Item>)
    requires Valid(w) && Planned(w, q, t) && k <= |Batch(w, q, t)| && FoundIn(w, q).Some? && t.desired.lb.Some?
    requires DesiredTold(names, t.desired, i) && PoolsTold(names, w.items, FoundIn(w, q).value.id, i)
    ensures PoolsTold(names, Exec(w, Batch(w, q, t)[..k]).world.items, FoundIn(w, q).value.id, i)
  {
    if i.Some? {
      var b, l := Batch(w, q, t), FoundIn(w, q).value;
      var ids, ips := OwnIds(w.items, l.id), Addresses(t.desired.floatingIPs);
      FoundInLbs(w, q);
      OwnsOwn(w, l);
      PlanLocal(w, t.desired, l, t.status, t.choice);
      forall a | a in b[..k]
        ensures Local(l.id, false, ids, ips, a) && (a.CreatePool? ==> NamedBy(names, a.item.spec))
      {
        assert a in b;
        if a.CreatePool? {
          PlanCreatesDesired(w, t.desired, l, t.status, t.choice, a);
        }
      }
      hide Plan;
      hide Possible;
      hide Owns;
      hide Local;
      hide Valid;
      hide AllNamed;
      hide PoolsNamed;
      BatchNames(names, w, l.id, ids, ips, b[..k]);
    }
  }

  /** What the batch of a turn spares is kept by every part of it. */
  lemma SparedKept(w: World, q: Query, t: Turn, k: nat, p: Item, i: Option<Item>)
    requires Valid(w) && Planned(w, q, t) && k <= |Batch(w, q, t)| && FoundIn(w, q).Some? && t.desired.lb.Some?
    requires ChildOf(w, FoundIn(w, q).value.id, p, i) && Spares(Batch(w, q, t), p, i)
    ensures Kept(w, p, i, Exec(w, Batch(w, q, t)[..k]).world)
  {
    var b, l := Batch(w, q, t), FoundIn(w, q).value;
    var ids, ips := OwnIds(w.items, l.id), Addresses(t.desired.floatingIPs);
    FoundInLbs(w, q);
    OwnsOwn(w, l);
    PlanLocal(w, t.desired, l, t.status, t.choice);
    forall a | a in b[..k]
      ensures Local(l.id, false, ids, ips, a)
      ensures a.DeleteResource? ==> a.id != p.id && (i.Some? ==> a.id != i.value.id)
    {
      assert a in b;
    }
    hide Plan;
    hide Possible;
    hide Owns;
    hide Local;
    hide Valid;
    BatchKeeps(w, l.id, ids, ips, b[..k], p, p);
    if i.Some? {
      BatchKeeps(w, l.id, ids, ips, b[..k], p, i.value);
    }
  }

  lemma PartKeeps(w: World, q: Query, t: Turn, k: nat, names: Key -> string, p: Item, i: Option<Item>)
    requires Valid(w) && Planned(w, q, t) && k <= |Batch(w, q, t)| && FoundIn(w, q).Some?
    requires Careful(q, names, t, p, i) && PoolsTold(names, w.items, FoundIn(w, q).value.id, i)
    requires ChildOf(w, FoundIn(w, q).value.id, p, i)
    ensures Kept(w, p, i, Exec(w, Batch(w, q, t)[..k]).world)
  {
    hide Plan;
    hide Valid;
    hide DesiredTold;
    hide PoolsTold;
    hide StillDesired;
    hide ChildOf;
    hide Kept;
    hide Spares;
    PlanSpares(w, names, t.desired, FoundIn(w, q).value, t.status, t.choice, p, i);
    SparedKept(w, q, t, k, p, i);
  }

  ghost predicate Kin(i: Option<Item>, j: Option<Item>) {
    (i.Some? <==> j.Some?) && (i.Some? ==> SameResource(i.value, j.value))
  }

  lemma SameTold(names: Key -> string, d: State, i: Option<Item>, j: Option<Item>)
    requires Kin(i, j)
    ensures DesiredTold(names, d, i) <==> DesiredTold(names, d, j)
    ensures forall items, own :: PoolsTold(names, items, own, i) <==> PoolsTold(names, items, own, j)
  {
    hide PoolsNamed;
    hide AllNamed;
  }

  lemma KinDesired(d: State, p: Item, i: Option<Item>, j: Option<Item>)
    requires StillDesired(d, p, i) && Kin(i, j)
    ensures StillDesired(d, p, j)
  {
    hide KeyOf;
  }

  /** The version of `i` that a cloud has which kept it. */
  lemma KeptAs(w: World, own: Uuid, p: Item, i: Option<Item>, w1: World) returns (j: Option<Item>)
    requires ChildOf(w, own, p, i) && Kept(w, p, i, w1)
    ensures Kin(i, j) && ChildOf(w1, own, p, j)
  {
    if i.Some? {
      var r :| r in w1.items && SameResource(i.value, r);
      j := Some(r);
    } else {
      j := None;
    }
  }

  lemma KeptTwice(w: World, p: Item, i: Option<Item>, w1: World, j: Option<Item>, w2: World)
    requires Kin(i, j) && Kept(w1, p, j, w2)
    ensures Kept(w, p, i, w2)
  {
    if i.Some? {
      var r :| r in w2.items && SameResource(j.value, r);
      hide KeyOf;
      assert SameResource(i.value, r);
    }
  }

  lemma CarefulTurn(q: Query, names: Key -> string, t: Turn, p: Item, i: Option<Item>)
    requires Careful(q, names, t, p, i)
    ensures Consistent(q, false, Addresses(t.desired.floatingIPs), t)
  {
  }

  ghost predicate Start(w: World, q: Query, names: Key -> string, p: Item, i: Option<Item>) {
    && Valid(w) && FoundIn(w, q).Some?
    && PoolsTold(names, w.items, FoundIn(w, q).value.id, i) && ChildOf(w, FoundIn(w, q).value.id, p, i)
  }

  /** One part of a turn, from a cloud that has a version `j` of `i`. */
  lemma PartKeepsOn(w: World, q: Query, w0: World, t: Turn, k: nat, names: Key -> string, p: Item, i: Option<Item>, j: Option<Item>)
    requires Start(w0, q, names, p, j) && Kin(i, j)
    requires Planned(w0, q, t) && k <= |Batch(w0, q, t)| && Careful(q, names, t, p, i)
    ensures
      var w1 := Exec(w0, Batch(w0, q, t)[..k]).world;
      && Valid(w1) && Kept(w, p, i, w1) && FoundIn(w1, q).Some? && FoundIn(w1, q).value.id == FoundIn(w0, q).value.id
      && PoolsTold(names, w1.items, FoundIn(w0, q).value.id, j)
  {
    hide Valid;
    hide FoundIn;
    hide Planned;
    hide Batch;
    hide AllNamed;
    hide PoolsTold;
    hide StillDesired;
    hide ChildOf;
    hide Kin;
    hide Kept;
    CarefulTurn(q, names, t, p, i);
    KinDesired(t.desired, p, i, j);
    SameTold(names, t.desired, i, j);
    hide DesiredTold;
    PartKeeps(w0, q, t, k, names, p, j);
    PartTold(w0, q, t, k, names, j);
    TurnKeepsLb(w0, q, t, k, Addresses(t.desired.floatingIPs));
    ExecValid(w0, Batch(w0, q, t)[..k]);
    KeptTwice(w, p, i, w0, j, Exec(w0, Batch(w0, q, t)[..k]).world);
  }

  lemma {:induction false} AfterKeeps(w: World, q: Query, turns: seq<Turn>, names: Key -> string, p: Item, i: Option<Item>)
    returns (j: Option<Item>)
    requires Start(w, q, names, p, i)
    requires Ongoing(w, q, turns) && forall t :: t in turns ==> Careful(q, names, t, p, i)
    ensures Start(After(w, q, turns), q, names, p, j) && Kin(i, j)
    ensures FoundIn(After(w, q, turns), q).value.id == FoundIn(w, q).value.id
  {
    hide FoundIn;
    hide Planned;
    hide Batch;
    hide Careful;
    hide Valid;
    hide PoolsNamed;
    hide KeyOf;
    if turns == [] {
      j := i;
    } else {
      var init, t := turns[..|turns| - 1], turns[|turns| - 1];
      assert turns == init + [t];
      var j0 := AfterKeeps(w, q, init, names, p, i);
      var w0 := After(w, q, init);
      WholeTurn(w0, q, t);
      PartKeepsOn(w, q, w0, t, |Batch(w0, q, t)|, names, p, i, j0);
      hide Kept;
      hide ChildOf;
      assert ChildOf(w, FoundIn(w, q).value.id, p, i) by { StartChild(w, q, names, p, i); }
      j := KeptAs(w, FoundIn(w, q).value.id, p, i, After(w, q, turns));
    }
  }

  lemma StartChild(w: World, q: Query, names: Key -> string, p: Item, i: Option<Item>)
    requires Start(w, q, names, p, i)
    ensures ChildOf(w, FoundIn(w, q).value.id, p, i)
  {
  }

  /** A pool whose key stays desired is there at every moment of a run, untouched, and so is every
      member, listener and monitor below it whose key stays desired, with its UUID and its key. */
  lemma RunKeeps(w: World, q: Query, turns: seq<Turn>, t: Turn, k: nat, w1: World,
                 names: Key -> string, p: Item, i: Option<Item>)
    requires Start(w, q, names, p, i) && Moment(w, q, turns, t, k, w1)
    requires Careful(q, names, t, p, i) && forall x :: x in turns ==> Careful(q, names, x, p, i)
    ensures Kept(w, p, i, w1)
  {
    hide FoundIn;
    hide Planned;
    hide Batch;
    hide Careful;
    hide Start;
    hide Kept;
    hide After;
    hide Ongoing;
    var j := AfterKeeps(w, q, turns, names, p, i);
    PartKeepsOn(w, q, After(w, q, turns), t, k, names, p, i, j);
  }
}
