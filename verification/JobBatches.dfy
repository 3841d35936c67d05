/** The comparisons of a round whose pools are all right: the batch they make, and that the cloud accepts it. */
module JobBatches {
  import opened Seqs
  import opened Compare
  import opened Domain
  import opened CloudWorld
  import opened Effects
  import opened Planner
  import opened Rounds

  /** A comparison with what the cloud lists for the pool. */
  ghost predicate GoodJob(w: World, j: Job) {
    && j.kind != KPool
    && HasPool(w.items, j.pool)
    && j.have == Children(w.items, InPool(j.pool), j.kind)
    && OfKind(j.want, j.kind)
  }

  /** Listeners and monitors with distinct keys, and members that the cloud reports back as requested. */
  ghost predicate ClearJob(subnets: map<string, Subnet>, j: Job) {
    && (j.kind != KMember ==> Distinct(j.want, ItemKey))
    && forall i :: i in j.want ==> Faithful(subnets, i.spec)
  }

  /** Nothing is desired in a subnet that the cloud does not know. */
  ghost predicate KnownJob(subnets: map<string, Subnet>, j: Job) {
    forall i :: i in j.want ==> Known(subnets, i.spec)
  }

  const JobId: Job -> (Uuid, Kind) := (j: Job) => (j.pool, j.kind)

  const DiffId: JobDiff -> (Uuid, Kind) := (x: JobDiff) => (x.job.pool, x.job.kind)

  ghost predicate GoodDiffs(w: World, diffs: seq<JobDiff>) {
    && Distinct(diffs, DiffId)
    && forall x :: x in diffs ==> GoodJob(w, x.job) && DiffOf(x.job, x)
  }

  ghost predicate ClearDiffs(subnets: map<string, Subnet>, diffs: seq<JobDiff>) {
    forall x :: x in diffs ==> ClearJob(subnets, x.job)
  }

  ghost const IdsOfDiff: JobDiff -> set<Uuid> := (x: JobDiff) => Ids(x.del)

  lemma DiffFacts(w: World, x: JobDiff)
    requires Valid(w) && GoodJob(w, x.job) && DiffOf(x.job, x)
    ensures ChildrenOnly(w, x.del)
    ensures forall i :: i in x.del ==> i in x.job.have && i.owner == InPool(x.job.pool)
    ensures forall i :: i in x.cre ==> i in x.job.want
  {
    var j := x.job;
    DeletesUndesired(j.want, j.have, ItemKey, x.del, x.cre);
    CreatesMissing(j.want, j.have, ItemKey, x.del, x.cre);
    forall a, b | 0 <= a < b < |x.del|
      ensures x.del[a].id != x.del[b].id
    {
      assert ItemKey(x.del[a]) != ItemKey(x.del[b]);
      if x.del[a].id == x.del[b].id {
        SameId(w.items, x.del[a], x.del[b]);
      }
    }
  }

  lemma CreateInFacts(pool: Uuid, kind: Kind, i: Item)
    requires kind != KPool && KindOf(i.spec) == kind
    ensures Creation(CreateIn(pool, kind, i)) == Some((InPool(pool), i.spec))
  {
  }

  lemma CreationInPool(w: World, x: JobDiff)
    requires Valid(w) && GoodJob(w, x.job) && DiffOf(x.job, x)
    ensures forall a :: a in Map(x.cre, CreationIn(x.job.pool, x.job.kind)) ==>
      Creation(a).Some? && Creation(a).value.0 == InPool(x.job.pool)
      && exists i :: i in x.cre && Creation(a).value.1 == i.spec
  {
    DiffFacts(w, x);
    hide Creation;
    hide CreateIn;
    hide IsDiff;
    hide Stored;
    hide Valid;
    var b := Map(x.cre, CreationIn(x.job.pool, x.job.kind));
    forall a | a in b
      ensures Creation(a).Some? && Creation(a).value.0 == InPool(x.job.pool)
      ensures exists i :: i in x.cre && Creation(a).value.1 == i.spec
    {
      var k :| 0 <= k < |b| && b[k] == a;
      assert x.cre[k] in x.cre;
      CreateInFacts(x.job.pool, x.job.kind, x.cre[k]);
    }
  }

  lemma JobParts(w: World, gone: set<Uuid>, busy: set<Uuid>, x: JobDiff)
    requires Valid(w) && GoodJob(w, x.job) && DiffOf(x.job, x)
    requires x.job.pool !in gone && forall i :: i in x.job.have ==> i.id !in gone && i.id !in busy
    ensures Sound(w, gone, busy, Deletions(x.del))
    ensures Dels(Deletions(x.del)) == Ids(x.del) && Busy(Deletions(x.del)) == {}
    ensures
      var cre := Map(x.cre, CreationIn(x.job.pool, x.job.kind));
      Sound(w, gone + Ids(x.del), busy, cre) && Dels(cre) == {} && Busy(cre) <= {x.job.pool}
  {
    DiffFacts(w, x);
    hide IsDiff;
    hide Sound;
    DeletionsSound(w, gone, busy, x.del);
    CreationInPool(w, x);
    forall i | i in x.del
      ensures i.id != x.job.pool
    {
      NotAPool(w, i, x.job.pool);
    }
    hide Valid;
    hide Creation;
    hide Children;
    hide Dels;
    hide Busy;
    CreationsSound(w, gone + Ids(x.del), busy, Map(x.cre, CreationIn(x.job.pool, x.job.kind)), InPool(x.job.pool));
  }

  lemma ThreeSound(w: World, gone: set<Uuid>, busy: set<Uuid>,
                   del: seq<Action>, pause: seq<Action>, cre: seq<Action>)
    requires Sound(w, gone, busy, del) && Busy(del) == {}
    requires Sound(w, gone + Dels(del), busy, pause) && Dels(pause) == {} && Busy(pause) == {}
    requires Sound(w, gone + Dels(del), busy, cre) && Dels(cre) == {}
    ensures Sound(w, gone, busy, del + pause + cre)
    ensures Dels(del + pause + cre) == Dels(del) && Busy(del + pause + cre) == Busy(cre)
  {
    hide Sound;
    DelsConcat(del, pause);
    DelsConcat(del + pause, cre);
    hide Dels;
    hide Busy;
    assert gone + Dels(del + pause) == gone + Dels(del);
    assert busy + Busy(del + pause) == busy && busy + Busy(del) == busy;
    SoundConcat(w, gone, busy, del, pause);
    SoundConcat(w, gone, busy, del + pause, cre);
  }

  lemma JobSound(w: World, gone: set<Uuid>, busy: set<Uuid>, x: JobDiff)
    requires Valid(w) && GoodJob(w, x.job) && DiffOf(x.job, x)
    requires x.job.pool !in gone && forall i :: i in x.job.have ==> i.id !in gone && i.id !in busy
    ensures Sound(w, gone, busy, JobSteps(x))
    ensures Dels(JobSteps(x)) == Ids(x.del) && Busy(JobSteps(x)) <= {x.job.pool}
  {
    hide Valid;
    hide GoodJob;
    hide DiffOf;
    hide Sound;
    hide Dels;
    hide Busy;
    hide When;
    hide Deletions;
    JobParts(w, gone, busy, x);
    PauseSound(w, gone + Ids(x.del), busy, |x.del| > 0 && |x.cre| > 0);
    ThreeSound(w, gone, busy, Deletions(x.del), When(|x.del| > 0 && |x.cre| > 0, Sleep(5000)),
               Map(x.cre, CreationIn(x.job.pool, x.job.kind)));
  }

  lemma PauseSound(w: World, gone: set<Uuid>, busy: set<Uuid>, b: bool)
    ensures Sound(w, gone, busy, When(b, Sleep(5000)))
    ensures Dels(When(b, Sleep(5000))) == {} && Busy(When(b, Sleep(5000))) == {}
  {
  }

  /** Comparisons of different kinds, or for different pools, delete different resources. */
  lemma JobsDisjoint(w: World, x: JobDiff, y: JobDiff)
    requires Valid(w) && GoodJob(w, x.job) && DiffOf(x.job, x) && GoodJob(w, y.job) && DiffOf(y.job, y)
    requires DiffId(x) != DiffId(y)
    ensures forall i :: i in y.job.have ==> i.id !in Ids(x.del) && i.id != x.job.pool
    ensures y.job.pool !in Ids(x.del)
  {
    DiffFacts(w, x);
    forall i | i in y.job.have
      ensures i.id !in Ids(x.del) && i.id != x.job.pool
    {
      NotAPool(w, i, x.job.pool);
      forall j | j in x.del
        ensures j.id != i.id
      {
        if j.id == i.id { SameId(w.items, i, j); }
      }
    }
    forall j | j in x.del
      ensures j.id != y.job.pool
    {
      NotAPool(w, j, y.job.pool);
    }
  }

  lemma NotAPool(w: World, i: Item, pool: Uuid)
    requires Valid(w) && i in w.items && !i.spec.Pool? && HasPool(w.items, pool)
    ensures i.id != pool
  {
    var p :| p in w.items && p.id == pool && p.spec.Pool?;
    if i.id == p.id { SameId(w.items, i, p); }
  }

  ghost const PoolOfDiff: JobDiff -> set<Uuid> := (x: JobDiff) => {x.job.pool}

  lemma JobAfter(w: World, init: seq<JobDiff>, y: JobDiff)
    requires Valid(w) && GoodDiffs(w, init + [y])
    ensures GoodDiffs(w, init) && GoodJob(w, y.job) && DiffOf(y.job, y)
    ensures y.job.pool !in Union(init, IdsOfDiff)
    ensures forall i :: i in y.job.have ==> i.id !in Union(init, IdsOfDiff) && i.id !in Union(init, PoolOfDiff)
  {
    var diffs := init + [y];
    hide DiffOf;
    hide GoodJob;
    assert forall x :: x in diffs <==> x in init || x == y;
    forall k | 0 <= k < |init|
      ensures DiffId(init[k]) != DiffId(y)
    {
      assert diffs[k] == init[k] && diffs[|init|] == y;
    }
    assert Distinct(init, DiffId) by {
      assert forall i :: 0 <= i < |init| ==> diffs[i] == init[i];
    }
    forall x | x in init
      ensures forall i :: i in y.job.have ==> i.id !in IdsOfDiff(x) && i.id !in PoolOfDiff(x)
      ensures y.job.pool !in IdsOfDiff(x)
    {
      assert x in diffs;
      JobsDisjoint(w, x, y);
    }
  }

  lemma JobsSoundStep(w: World, init: seq<JobDiff>, y: JobDiff)
    requires Valid(w) && GoodJob(w, y.job) && DiffOf(y.job, y)
    requires y.job.pool !in Union(init, IdsOfDiff)
    requires forall i :: i in y.job.have ==> i.id !in Union(init, IdsOfDiff) && i.id !in Union(init, PoolOfDiff)
    requires Sound(w, {}, {}, Flat(init, JobSteps))
    requires Dels(Flat(init, JobSteps)) == Union(init, IdsOfDiff)
    requires Busy(Flat(init, JobSteps)) <= Union(init, PoolOfDiff)
    ensures Sound(w, {}, {}, Flat(init + [y], JobSteps))
    ensures Dels(Flat(init + [y], JobSteps)) == Union(init + [y], IdsOfDiff)
    ensures Busy(Flat(init + [y], JobSteps)) <= Union(init + [y], PoolOfDiff)
  {
    hide Flat;
    hide Sound;
    hide Valid;
    hide GoodJob;
    hide DiffOf;
    hide Dels;
    hide Busy;
    hide Union;
    var gone, busy := Union(init, IdsOfDiff), Busy(Flat(init, JobSteps));
    JobSound(w, gone, busy, y);
    FlatLast(init, y, JobSteps);
    UnionLast(init, y, IdsOfDiff);
    UnionLast(init, y, PoolOfDiff);
    DelsConcat(Flat(init, JobSteps), JobSteps(y));
    assert {} + gone == gone && {} + busy == busy;
    SoundConcat(w, {}, {}, Flat(init, JobSteps), JobSteps(y));
  }

  lemma {:induction false} JobsSound(w: World, diffs: seq<JobDiff>)
    requires Valid(w) && GoodDiffs(w, diffs)
    ensures Sound(w, {}, {}, Flat(diffs, JobSteps))
    ensures Dels(Flat(diffs, JobSteps)) == Union(diffs, IdsOfDiff)
    ensures Busy(Flat(diffs, JobSteps)) <= Union(diffs, PoolOfDiff)
  {
    if diffs != [] {
      var init, y := diffs[..|diffs| - 1], diffs[|diffs| - 1];
      assert diffs == init + [y];
      JobAfter(w, init, y);
      JobsSound(w, init);
      hide Flat;
      hide Sound;
      hide Union;
      hide GoodDiffs;
      hide Dels;
      hide Busy;
      JobsSoundStep(w, init, y);
    }
  }

  // ---------------------------------------------------------------- smooth batches

  lemma DeletionsSmooth(subnets: map<string, Subnet>, items: seq<Item>)
    ensures AllSmooth(subnets, Deletions(items))
  {
    FlatMember(items, Deletion);
    hide Flat;
  }

  lemma JobSmooth(w: World, x: JobDiff)
    requires Valid(w) && GoodJob(w, x.job) && DiffOf(x.job, x) && KnownJob(w.subnets, x.job)
    ensures AllSmooth(w.subnets, JobSteps(x))
  {
    DeletionsSmooth(w.subnets, x.del);
    CreationInPool(w, x);
    DiffFacts(w, x);
    hide Deletions;
    hide IsDiff;
    hide Valid;
    hide Known;
    var cre := Map(x.cre, CreationIn(x.job.pool, x.job.kind));
    forall a | a in cre
      ensures Smooth(w.subnets, a)
    {
      var i :| i in x.cre && Creation(a).value.1 == i.spec;
      assert !a.AwaitLb?;
    }
  }

  /** The cloud keeps none of the comparisons waiting, and refuses none for its subnet. */
  lemma JobsSmooth(w: World, diffs: seq<JobDiff>)
    requires Valid(w) && GoodDiffs(w, diffs) && forall x :: x in diffs ==> KnownJob(w.subnets, x.job)
    ensures AllSmooth(w.subnets, Flat(diffs, JobSteps))
  {
    FlatMember(diffs, JobSteps);
    hide Flat;
    hide KnownJob;
    hide GoodJob;
    hide DiffOf;
    hide Valid;
    hide Smooth;
    forall x, a | x in diffs && a in JobSteps(x)
      ensures Smooth(w.subnets, a)
    {
      JobSmooth(w, x);
    }
  }
}
