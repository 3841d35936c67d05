/** A round whose pools are all right: which comparisons it makes, and what is left of their gaps. */
module ChildRounds {
  import opened Seqs
  import opened Compare
  import opened Domain
  import opened CloudWorld
  import opened Effects
  import opened Planner
  import opened Rounds
  import opened JobBatches

  const PoolName: Item -> string := (p: Item) => if p.spec.Pool? then p.spec.name else ""

  // ---------------------------------------------------------------- finding pools by name

  /** Indexing nodes by name is indexing their pools by name. */
  lemma {:induction false} IndexNodes(items: seq<Item>, ps: seq<Item>)
    ensures forall name :: name in Index(Map(ps, NodeOf(items)), NodeName) <==> name in Index(ps, PoolName)
    ensures forall name :: name in Index(ps, PoolName) ==>
      Index(Map(ps, NodeOf(items)), NodeName)[name] == NodeOf(items)(Index(ps, PoolName)[name])
  {
    if ps != [] {
      var init, p := ps[..|ps| - 1], ps[|ps| - 1];
      IndexNodes(items, init);
      var nodes := Map(ps, NodeOf(items));
      assert nodes[..|ps| - 1] == Map(init, NodeOf(items));
      assert nodes[|ps| - 1] == NodeOf(items)(p);
      assert NodeName(NodeOf(items)(p)) == PoolName(p);
    }
  }

  /** The pool that `poolsByName` finds for a desired pool. */
  function Rep(items: seq<Item>, lb: Uuid, name: string): Item
    requires name in Index(PoolsOf(items, lb), PoolName)
  {
    Index(PoolsOf(items, lb), PoolName)[name]
  }

  ghost predicate HasReps(desired: seq<PoolNode>, items: seq<Item>, lb: Uuid) {
    forall n :: n in desired ==> NodeName(n) in Index(PoolsOf(items, lb), PoolName)
  }

  lemma ResolvesReps(desired: seq<PoolNode>, items: seq<Item>, lb: Uuid)
    ensures Resolves(desired, NodesOf(items, lb)) <==> HasReps(desired, items, lb)
  {
    hide Index;
    IndexNodes(items, PoolsOf(items, lb));
  }

  function RepJobs(n: PoolNode, items: seq<Item>, p: Item): seq<Job> {
    JobsOf(n, NodeOf(items)(p))
  }

  /** The comparisons of a round are those of every desired pool with the pool of its name. */
  lemma JobIn(desired: seq<PoolNode>, items: seq<Item>, lb: Uuid, j: Job)
    requires HasReps(desired, items, lb)
    ensures j in Jobs(desired, NodesOf(items, lb))
       <==> exists n :: n in desired && j in RepJobs(n, items, Rep(items, lb, NodeName(n)))
  {
    var m := Index(NodesOf(items, lb), NodeName);
    hide Index;
    IndexNodes(items, PoolsOf(items, lb));
    FlatMember(desired, JobsBy(m));
    hide JobsOf;
    hide Flat;
    assert forall n :: n in desired ==> JobsBy(m)(n) == RepJobs(n, items, Rep(items, lb, NodeName(n)));
  }

  lemma RepFacts(w: World, lb: Uuid, name: string)
    requires name in Index(PoolsOf(w.items, lb), PoolName)
    ensures
      var p := Rep(w.items, lb, name);
      && p in w.items && p.spec.Pool? && p.owner == OnLb(lb) && p.spec.name == name
      && p in PoolsOf(w.items, lb)
  {
  }

  lemma FaithfulOther(subnets: map<string, Subnet>, s: Spec)
    requires !s.Member?
    ensures Faithful(subnets, s)
  {
  }

  lemma RepJobGood(w: World, lb: Uuid, n: PoolNode, j: Job)
    requires ProperNode(n)
    requires NodeName(n) in Index(PoolsOf(w.items, lb), PoolName)
    requires j in RepJobs(n, w.items, Rep(w.items, lb, NodeName(n)))
    ensures GoodJob(w, j)
    ensures j.pool == Rep(w.items, lb, NodeName(n)).id
  {
    var p := Rep(w.items, lb, NodeName(n));
    RepFacts(w, lb, NodeName(n));
    hide Index;
    hide KeyOf;
    hide Children;
    hide PoolsOf;
    hide Rep;
    assert j.pool == p.id && HasPool(w.items, j.pool);
  }

  lemma RepJobClear(subnets: map<string, Subnet>, items: seq<Item>, n: PoolNode, p: Item, j: Job)
    requires j in RepJobs(n, items, p)
    ensures WantedNode(subnets, n) ==> ClearJob(subnets, j)
    ensures ProperNode(n) && (forall m :: m in n.members ==> Known(subnets, m.spec)) ==> KnownJob(subnets, j)
  {
    hide Faithful;
    hide KeyOf;
    hide Children;
    if ProperNode(n) {
      forall i | i in j.want && j.want != n.members
        ensures Faithful(subnets, i.spec) && Known(subnets, i.spec)
      {
        FaithfulOther(subnets, i.spec);
      }
    }
  }

  lemma RepsDiffer(w: World, lb: Uuid, n: PoolNode, m: PoolNode)
    requires Valid(w) && NodeName(n) != NodeName(m)
    requires NodeName(n) in Index(PoolsOf(w.items, lb), PoolName) && NodeName(m) in Index(PoolsOf(w.items, lb), PoolName)
    ensures Rep(w.items, lb, NodeName(n)).id != Rep(w.items, lb, NodeName(m)).id
  {
    var p, q := Rep(w.items, lb, NodeName(n)), Rep(w.items, lb, NodeName(m));
    RepFacts(w, lb, NodeName(n));
    RepFacts(w, lb, NodeName(m));
    hide Index;
    if p.id == q.id {
      SameId(w.items, p, q);
    }
  }

  lemma JobsLast(init: seq<PoolNode>, n: PoolNode, items: seq<Item>, lb: Uuid)
    requires HasReps(init + [n], items, lb)
    ensures Jobs(init + [n], NodesOf(items, lb))
         == Jobs(init, NodesOf(items, lb)) + RepJobs(n, items, Rep(items, lb, NodeName(n)))
  {
    var m := Index(NodesOf(items, lb), NodeName);
    assert n in init + [n];
    hide Index;
    IndexNodes(items, PoolsOf(items, lb));
    hide JobsOf;
    FlatLast(init, n, JobsBy(m));
  }

  lemma RepJobIds(n: PoolNode, items: seq<Item>, p: Item)
    ensures Distinct(RepJobs(n, items, p), JobId)
    ensures forall j :: j in RepJobs(n, items, p) ==> j.pool == p.id
  {
  }

  lemma EarlierJob(w: World, lb: Uuid, init: seq<PoolNode>, n: PoolNode, j: Job)
    requires Valid(w) && HasReps(init + [n], w.items, lb)
    requires forall m :: m in init ==> NodeName(m) != NodeName(n)
    requires j in Jobs(init, NodesOf(w.items, lb))
    ensures j.pool != Rep(w.items, lb, NodeName(n)).id
  {
    hide Jobs;
    hide Index;
    hide Valid;
    hide NodesOf;
    hide PoolsOf;
    hide Rep;
    hide RepJobs;
    assert forall m :: m in init ==> m in init + [n];
    assert n in init + [n];
    JobIn(init, w.items, lb, j);
    var m :| m in init && j in RepJobs(m, w.items, Rep(w.items, lb, NodeName(m)));
    RepJobIds(m, w.items, Rep(w.items, lb, NodeName(m)));
    RepsDiffer(w, lb, m, n);
  }

  /** The comparisons of a round are all different ones. */
  lemma {:induction false} JobsDistinct(w: World, lb: Uuid, desired: seq<PoolNode>)
    requires Valid(w) && Distinct(desired, NodeName) && HasReps(desired, w.items, lb)
    ensures Distinct(Jobs(desired, NodesOf(w.items, lb)), JobId)
  {
    if desired != [] {
      var init, n := desired[..|desired| - 1], desired[|desired| - 1];
      assert desired == init + [n];
      JobsDistinct(w, lb, init);
      JobsLast(init, n, w.items, lb);
      hide Jobs;
      hide Index;
      hide Valid;
      hide NodesOf;
      hide PoolsOf;
      hide RepJobs;
      var before := Jobs(init, NodesOf(w.items, lb));
      forall j | j in before
        ensures j.pool != Rep(w.items, lb, NodeName(n)).id
      {
        EarlierJob(w, lb, init, n, j);
      }
      RepJobIds(n, w.items, Rep(w.items, lb, NodeName(n)));
      DistinctConcat(before, RepJobs(n, w.items, Rep(w.items, lb, NodeName(n))), JobId);
    } else {
      assert Jobs(desired, NodesOf(w.items, lb)) == [];
    }
  }

  lemma DistinctConcat<T(!new), K(!new)>(a: seq<T>, b: seq<T>, key: T -> K)
    requires Distinct(a, key) && Distinct(b, key)
    requires forall x, y :: x in a && y in b ==> key(x) != key(y)
    ensures Distinct(a + b, key)
  {
    var s := a + b;
    forall i, j | 0 <= i < j < |s|
      ensures key(s[i]) != key(s[j])
    {
      if i < |a| <= j {
        assert s[i] in a && s[j] in b;
      }
    }
  }

  // ---------------------------------------------------------------- the effect of the batch

  lemma StoredKind(subnets: map<string, Subnet>, s: Spec)
    ensures KindOf(Stored(subnets, s)) == KindOf(s)
  {
  }

  /** A batch of this round: comparisons of this cloud, and an opening that neither deletes nor creates. */
  ghost predicate ChildPlan(w: World, opening: seq<Action>, diffs: seq<JobDiff>) {
    && Valid(w) && GoodDiffs(w, diffs)
    && Sound(w, {}, {}, opening) && Dels(opening) == {} && Busy(opening) == {}
    && forall a :: a in opening ==> Creation(a).None?
  }

  /** One that the cloud neither keeps waiting nor refuses for a subnet it does not know. */
  ghost predicate ChildBatch(w: World, opening: seq<Action>, diffs: seq<JobDiff>) {
    && ChildPlan(w, opening, diffs)
    && AllSmooth(w.subnets, opening)
    && forall x :: x in diffs ==> KnownJob(w.subnets, x.job)
  }

  lemma ChildBatchSound(w: World, opening: seq<Action>, diffs: seq<JobDiff>)
    requires ChildPlan(w, opening, diffs)
    ensures
      var b := opening + Flat(diffs, JobSteps);
      Sound(w, {}, {}, b) && Dels(b) == Union(diffs, IdsOfDiff)
  {
    JobsSound(w, diffs);
    hide GoodDiffs;
    hide Valid;
    hide Sound;
    hide Dels;
    hide Busy;
    hide Union;
    hide Flat;
    DelsConcat(opening, Flat(diffs, JobSteps));
    assert {} + Dels(opening) == {} && {} + Busy(opening) == {};
    SoundConcat(w, {}, {}, opening, Flat(diffs, JobSteps));
  }

  lemma DeletionsCreateNothing(items: seq<Item>)
    ensures forall a :: a in Deletions(items) ==> Creation(a).None?
  {
    FlatMember(items, Deletion);
    hide Flat;
  }

  lemma JobCreation(x: JobDiff, a: Action)
    requires a in JobSteps(x) && Creation(a).Some?
    ensures exists c :: c in x.cre && a == CreateIn(x.job.pool, x.job.kind, c)
  {
    DeletionsCreateNothing(x.del);
    hide Deletions;
    var cre := Map(x.cre, CreationIn(x.job.pool, x.job.kind));
    assert a in cre;
    var k :| 0 <= k < |cre| && cre[k] == a;
    assert x.cre[k] in x.cre;
  }

  /** Every create action of the batch belongs to one comparison. */
  lemma CreationOrigin(w: World, opening: seq<Action>, diffs: seq<JobDiff>, a: Action)
    requires ChildBatch(w, opening, diffs)
    requires a in opening + Flat(diffs, JobSteps) && Creation(a).Some?
    ensures exists x, c :: x in diffs && c in x.cre && a == CreateIn(x.job.pool, x.job.kind, c)
  {
    FlatMember(diffs, JobSteps);
    hide Flat;
    hide CreateIn;
    hide Creation;
    var x :| x in diffs && a in JobSteps(x);
    JobCreation(x, a);
    var c :| c in x.cre && a == CreateIn(x.job.pool, x.job.kind, c);
  }

  lemma CreationPresent(opening: seq<Action>, diffs: seq<JobDiff>, x: JobDiff, c: Item)
    requires x in diffs && c in x.cre
    ensures CreateIn(x.job.pool, x.job.kind, c) in opening + Flat(diffs, JobSteps)
  {
    FlatMember(diffs, JobSteps);
    hide Flat;
    hide CreateIn;
    var cre := Map(x.cre, CreationIn(x.job.pool, x.job.kind));
    var k :| 0 <= k < |x.cre| && x.cre[k] == c;
    assert cre[k] in cre;
    assert cre[k] in JobSteps(x);
  }

  lemma ChildBatchSmooth(w: World, opening: seq<Action>, diffs: seq<JobDiff>)
    requires ChildBatch(w, opening, diffs)
    ensures AllSmooth(w.subnets, opening + Flat(diffs, JobSteps))
  {
    JobsSmooth(w, diffs);
    hide Flat;
    hide Smooth;
  }

  lemma ChildBatchRuns(w: World, opening: seq<Action>, diffs: seq<JobDiff>)
    requires ChildBatch(w, opening, diffs)
    ensures
      var b := opening + Flat(diffs, JobSteps);
      && Exec(w, b).control == Finished
      && Exec(w, b).world.items == Survivors(w.items, Union(diffs, IdsOfDiff)) + Created(b, w.next, w.subnets)
      && Exec(w, b).world.lbs == RenamedBy(w.lbs, b)
      && Exec(w, b).world.subnets == w.subnets && Exec(w, b).world.fips == w.fips
  {
    ChildBatchSound(w, opening, diffs);
    ChildBatchSmooth(w, opening, diffs);
    hide Flat;
    hide Sound;
    hide AllSmooth;
    hide Valid;
    hide GoodDiffs;
    ExecSound(w, opening + Flat(diffs, JobSteps));
  }

  /** What the batch added comes from the creations of a comparison, below its pool. */
  lemma AddedOrigin(w: World, opening: seq<Action>, diffs: seq<JobDiff>, i: Item)
    requires ChildBatch(w, opening, diffs)
    requires i in Created(opening + Flat(diffs, JobSteps), w.next, w.subnets)
    ensures i.id >= w.next
    ensures exists x, c :: x in diffs && c in x.cre && i.owner == InPool(x.job.pool) && KindOf(i.spec) == x.job.kind
                        && i.spec == Stored(w.subnets, c.spec)
  {
    var b := opening + Flat(diffs, JobSteps);
    CreatedAskedFor(b, w.next, w.subnets);
    var a :| a in b && MadeBy(i, a, w.subnets);
    hide Flat;
    hide Created;
    CreationOrigin(w, opening, diffs, a);
    var x, c :| x in diffs && c in x.cre && a == CreateIn(x.job.pool, x.job.kind, c);
    DiffFacts(w, x);
    hide Stored;
    CreateInFacts(x.job.pool, x.job.kind, c);
    StoredKind(w.subnets, c.spec);
  }

  lemma AddedPresent(w: World, opening: seq<Action>, diffs: seq<JobDiff>, x: JobDiff, c: Item)
    requires ChildBatch(w, opening, diffs) && x in diffs && c in x.cre
    ensures exists i :: i in Created(opening + Flat(diffs, JobSteps), w.next, w.subnets)
                     && IsChild(i, InPool(x.job.pool), x.job.kind) && i.spec == Stored(w.subnets, c.spec)
  {
    var b := opening + Flat(diffs, JobSteps);
    CreationPresent(opening, diffs, x, c);
    CreatedGranted(b, w.next, w.subnets);
    DiffFacts(w, x);
    hide Flat;
    hide Created;
    hide Stored;
    var a := CreateIn(x.job.pool, x.job.kind, c);
    CreateInFacts(x.job.pool, x.job.kind, c);
    var i :| i in Created(b, w.next, w.subnets) && MadeBy(i, a, w.subnets);
    StoredKind(w.subnets, c.spec);
  }

  /** The resources a round of this kind deletes are neither pools nor those of other comparisons. */
  lemma StaysUnlessDeleted(w: World, diffs: seq<JobDiff>, x: JobDiff, i: Item)
    requires Valid(w) && GoodDiffs(w, diffs) && x in diffs && i in x.job.have
    ensures Stays(i, Union(diffs, IdsOfDiff)) <==> i !in x.del
  {
    DiffFacts(w, x);
    forall y | y in diffs && y != x
      ensures i.id !in IdsOfDiff(y) && x.job.pool !in IdsOfDiff(y)
    {
      assert DiffId(y) != DiffId(x) by {
        if DiffId(y) == DiffId(x) { DistinctSame(diffs, DiffId, x, y); }
      }
      JobsDisjoint(w, y, x);
    }
    forall j | j in x.del
      ensures j.id != x.job.pool
      ensures j.id == i.id ==> j == i
    {
      NotAPool(w, j, x.job.pool);
      if j.id == i.id { SameId(w.items, i, j); }
    }
    assert i in x.del ==> i.id in IdsOfDiff(x);
  }

  lemma PoolsStay(w: World, diffs: seq<JobDiff>, i: Item)
    requires Valid(w) && GoodDiffs(w, diffs) && i in w.items && i.spec.Pool?
    ensures Stays(i, Union(diffs, IdsOfDiff))
  {
    assert OwnerExists(w, i);
    forall x | x in diffs
      ensures i.id !in IdsOfDiff(x)
    {
      DiffFacts(w, x);
      forall j | j in x.del
        ensures j.id != i.id
      {
        if j.id == i.id { SameId(w.items, i, j); }
      }
    }
  }
}
