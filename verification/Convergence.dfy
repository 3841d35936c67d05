/** Every round either makes progress or ends the run, and a run that ends has settled the cloud. */
module Convergence {
  import opened Seqs
  import opened Compare
  import opened Domain
  import opened CloudWorld
  import opened Effects
  import opened Planner
  import opened Lookup
  import opened Rounds
  import opened JobBatches
  import opened Gaps
  import opened ChildRounds
  import opened Closing
  import opened PoolRounds
  import opened FinalRounds

  // ---------------------------------------------------------------- the opening of a batch

  lemma {:induction false} RenamedByRest(lbs: seq<Lb>, a: seq<Action>, b: seq<Action>)
    requires forall x :: x in b ==> !x.RenameLb?
    ensures RenamedBy(lbs, a + b) == RenamedBy(lbs, a)
  {
    if b == [] {
      assert a + b == a;
    } else {
      var n := |b| - 1;
      assert (a + b)[..|a| + n] == a + b[..n];
      assert (a + b)[|a| + n] == b[n] && b[n] in b;
      RenamedByRest(lbs, a, b[..n]);
    }
  }

  lemma OpeningFacts(w: World, d: Lb, status: string, l: Lb)
    requires Valid(w) && l in w.lbs
    ensures
      var o := Opening(d, status, l);
      && (status != "changing" ==> OpeningFor(w, o) && AllSmooth(w.subnets, o))
      && Sound(w, {}, {}, o) && Dels(o) == {} && Busy(o) == {}
      && (forall a :: a in o ==> Creation(a).None?)
      && RenamedBy(w.lbs, o) == Renamed(w.lbs, l.id, d.name)
  {
    var o := Opening(d, status, l);
    OpeningSound(w, d, status, l);
    hide Sound;
    if d.name == l.name {
      assert o == [AwaitLb(status)];
      assert o[..0] == [];
      forall k | 0 <= k < |w.lbs|
        ensures Renamed(w.lbs, l.id, d.name)[k] == w.lbs[k]
      {
        if w.lbs[k].id == l.id {
          DistinctSame(w.lbs, LbId, w.lbs[k], l);
        }
      }
    } else {
      assert o == [AwaitLb(status), RenameLb(l.id, d.name)];
      assert o[..1] == [AwaitLb(status)];
      assert [AwaitLb(status)][..0] == [];
      assert RenamedBy(w.lbs, [AwaitLb(status)]) == w.lbs;
    }
  }

  // ---------------------------------------------------------------- one round

  /** A plan for the load balancer `l`, whatever is desired of it and whatever its status: `c` is what the
      maps of the planner came up with. */
  ghost predicate PlanOf(w: World, d: State, l: Lb, status: string, c: Choice) {
    && Valid(w) && l in w.lbs && d.lb.Some?
    && Distinct(d.pools, NodeName) && (forall n :: n in d.pools ==> ProperNode(n))
    && Possible(d, Snapshot(w, Some(l), status), c)
  }

  /** Subnets and floating IPs the cloud knows. */
  ghost predicate Requests(w: World, d: State) {
    && (forall n, m :: n in d.pools && m in n.members ==> Known(w.subnets, m.spec))
    && FipsKnown(w.fips, d.floatingIPs)
  }

  /** A plan that the cloud neither refuses nor keeps waiting. */
  ghost predicate Sent(w: World, d: State, l: Lb, status: string, c: Choice) {
    PlanOf(w, d, l, status, c) && status != "changing" && Requests(w, d)
  }

  /** A round of a run that wants a load balancer, has found it, and may go on. */
  ghost predicate RoundOf(w: World, q: Query, d: State, l: Lb, status: string, c: Choice) {
    && Valid(w) && Wanted(w, q, d)
    && FindByServiceInfo(w.lbs, q) == Success(Some(l))
    && status != "changing"
    && LbRefusal(d.lb.value, l).None?
    && Possible(d, Snapshot(w, Some(l), status), c)
  }

  lemma WantedRequests(w: World, q: Query, d: State)
    requires Wanted(w, q, d)
    ensures Requests(w, d) && forall n :: n in d.pools ==> ProperNode(n) && WantedNode(w.subnets, n)
  {
    hide Address;
    hide KeyOf;
    hide Stored;
    hide Known;
    forall n, m | n in d.pools && m in n.members
      ensures Known(w.subnets, m.spec)
    {
      assert WantedNode(w.subnets, n);
      assert Faithful(w.subnets, m.spec);
    }
  }

  lemma RoundIsSent(w: World, q: Query, d: State, l: Lb, status: string, c: Choice)
    requires RoundOf(w, q, d, l, status, c)
    ensures Sent(w, d, l, status, c) && d.lb.value.name == q.name
    ensures forall n :: n in d.pools ==> WantedNode(w.subnets, n)
  {
    FoundLb(w, q, l);
    WantedRequests(w, q, d);
    hide Requests;
    hide ProperNode;
    hide WantedNode;
    hide Snapshot;
    hide Possible;
    hide Valid;
    hide FindByServiceInfo;
    hide LbRefusal;
  }

  ghost function RoundResult(w: World, d: State, l: Lb, status: string, c: Choice): Ran {
    Exec(w, Plan(d, Snapshot(w, Some(l), status), c))
  }

  ghost function OpeningOf(d: State, l: Lb, status: string): seq<Action>
    requires d.lb.Some?
  {
    Opening(d.lb.value, status, l)
  }

  lemma FoundLb(w: World, q: Query, l: Lb)
    requires Valid(w) && FindByServiceInfo(w.lbs, q) == Success(Some(l))
    ensures l in w.lbs && HasLb(w.lbs, l.id)
  {
    LookupExact(w.lbs, q);
    assert l in Candidates(w.lbs, q);
  }

  lemma RefetchEnds(w: World, b: seq<Action>)
    requires Exec(w, b).control == Finished
    ensures Exec(w, b + [Refetch]) == Ran(Exec(w, b).world, MustRefetch)
  {
    ExecConcat(w, b, [Refetch]);
  }

  ghost predicate PoolPhase(c: Choice) {
    c.poolDel != [] || c.poolCre != []
  }

  ghost predicate ChildPhase(c: Choice) {
    !PoolPhase(c) && Flat(c.diffs, JobSteps) != []
  }

  lemma RoundPoolPlan(w: World, d: State, l: Lb, status: string, c: Choice)
    requires PlanOf(w, d, l, status, c)
    ensures PoolPlan(w, l.id, OpeningOf(d, l, status), d.pools, c.poolDel, c.poolCre)
  {
    OpeningFacts(w, d.lb.value, status, l);
    hide Sound;
    hide IsDiff;
    hide Valid;
    hide Opening;
    assert HasLb(w.lbs, l.id);
    forall n | n in d.pools
      ensures n.pool.spec.Pool?
    {
      assert ProperNode(n);
    }
  }

  lemma RoundPoolBatch(w: World, d: State, l: Lb, status: string, c: Choice)
    requires Sent(w, d, l, status, c)
    ensures PoolBatch(w, l.id, OpeningOf(d, l, status), d.pools, c.poolDel, c.poolCre)
  {
    RoundPoolPlan(w, d, l, status, c);
    OpeningFacts(w, d.lb.value, status, l);
    hide PoolPlan;
    hide Sound;
    hide Opening;
    hide Possible;
    hide AllSmooth;
  }

  lemma PoolStepsRename(lb: Uuid, del: seq<PoolNode>, cre: seq<PoolNode>)
    ensures forall a :: a in PoolSteps(lb, del, cre) ==> !a.RenameLb?
  {
    FlatMember(del, PoolRemoval);
    forall n, a | n in del && a in PoolRemoval(n)
      ensures !a.RenameLb?
    {
      FlatMember(n.members + [n.pool], Deletion);
    }
    hide Flat;
    var cs := Map(cre, PoolCreation(lb));
    assert forall k :: 0 <= k < |cs| ==> cs[k].CreatePool?;
  }

  /** A round that changes pools ends in a refetch. */
  lemma PoolRound(w: World, d: State, l: Lb, status: string, c: Choice)
    requires Sent(w, d, l, status, c) && PoolPhase(c)
    ensures
      var r := RoundResult(w, d, l, status, c);
      && r.control == MustRefetch
      && r.world == AfterPools(w, l.id, OpeningOf(d, l, status), c.poolDel, c.poolCre)
      && r.world.lbs == Renamed(w.lbs, l.id, d.lb.value.name) && r.world.subnets == w.subnets && r.world.fips == w.fips
  {
    var o, steps := OpeningOf(d, l, status), PoolSteps(l.id, c.poolDel, c.poolCre);
    RoundPoolBatch(w, d, l, status, c);
    OpeningFacts(w, d.lb.value, status, l);
    hide Sound;
    hide AllSmooth;
    hide IsDiff;
    hide Valid;
    hide Opening;
    hide PoolBatch;
    hide PoolSteps;
    PoolBatchRuns(w, l.id, o, d.pools, c.poolDel, c.poolCre);
    PoolStepsRename(l.id, c.poolDel, c.poolCre);
    RenamedByRest(w.lbs, o, steps);
    hide RenamedBy;
    RefetchEnds(w, o + steps);
    hide Exec;
    assert Plan(d, Snapshot(w, Some(l), status), c) == o + steps + [Refetch];
  }

  ghost function PoolGap(w: World, d: State, lb: Uuid): nat {
    Gap(PoolItems(d.pools), PoolsOf(w.items, lb))
  }

  lemma PoolRoundShrinks(w: World, q: Query, d: State, l: Lb, status: string, c: Choice)
    requires RoundOf(w, q, d, l, status, c) && PoolPhase(c)
    ensures
      var w1 := RoundResult(w, d, l, status, c).world;
      && PoolGap(w1, d, l.id) + |c.poolDel| + |c.poolCre| == PoolGap(w, d, l.id)
      && (PoolGap(w1, d, l.id) == 0 <==> NoDuplicates(PoolItems(d.pools), PoolsOf(w.items, l.id)))
  {
    RoundIsSent(w, q, d, l, status, c);
    hide RoundOf;
    PoolRound(w, d, l, status, c);
    RoundPoolBatch(w, d, l, status, c);
    hide Sent;
    PoolDiffCovers(w, l.id, d.pools, c.poolDel, c.poolCre);
    PoolsReplaced(w, l.id, OpeningOf(d, l, status), d.pools, c.poolDel, c.poolCre);
    hide RoundResult;
    hide PoolBatch;
    hide Covers;
    hide Replaced;
    hide AfterPools;
    hide NoDuplicates;
    hide Gap;
    var w1 := RoundResult(w, d, l, status, c).world;
    GapShrinks(PoolItems(d.pools), PoolsOf(w.items, l.id), PoolItems(c.poolDel), PoolItems(c.poolCre), PoolsOf(w1.items, l.id));
    GapCloses(PoolItems(d.pools), PoolsOf(w.items, l.id), PoolItems(c.poolDel), PoolItems(c.poolCre), PoolsOf(w1.items, l.id));
  }

  // ---------------------------------------------------------------- rounds with the right pools

  ghost function RoundJobs(w: World, d: State, lb: Uuid): seq<Job> {
    Jobs(d.pools, NodesOf(w.items, lb))
  }

  /** In a round without pool changes, the comparisons are good ones. */
  lemma RoundJobsGood(w: World, d: State, l: Lb, status: string, c: Choice)
    requires PlanOf(w, d, l, status, c) && !PoolPhase(c)
    ensures HasReps(d.pools, w.items, l.id)
    ensures GoodJobs(w, RoundJobs(w, d, l.id))
    ensures DiffsOf(RoundJobs(w, d, l.id), c.diffs)
  {
    var jobs := RoundJobs(w, d, l.id);
    ResolvesReps(d.pools, w.items, l.id);
    JobsDistinct(w, l.id, d.pools);
    hide Jobs;
    hide Index;
    hide Valid;
    hide IsDiff;
    hide GoodJob;
    hide NodesOf;
    hide ProperNode;
    forall j | j in jobs
      ensures GoodJob(w, j)
    {
      JobIn(d.pools, w.items, l.id, j);
      var n :| n in d.pools && j in RepJobs(n, w.items, Rep(w.items, l.id, NodeName(n)));
      RepJobGood(w, l.id, n, j);
    }
  }

  lemma RoundJobsClear(w: World, d: State, l: Lb)
    requires HasReps(d.pools, w.items, l.id)
    ensures (forall n :: n in d.pools ==> WantedNode(w.subnets, n)) ==> ClearJobs(w.subnets, RoundJobs(w, d, l.id))
    ensures (forall n :: n in d.pools ==> ProperNode(n)) && Requests(w, d) ==>
      forall j :: j in RoundJobs(w, d, l.id) ==> KnownJob(w.subnets, j)
  {
    hide Jobs;
    hide Index;
    hide ClearJob;
    hide KnownJob;
    hide NodesOf;
    hide WantedNode;
    hide ProperNode;
    hide Known;
    hide FipsKnown;
    forall j | j in RoundJobs(w, d, l.id)
      ensures (forall n :: n in d.pools ==> WantedNode(w.subnets, n)) ==> ClearJob(w.subnets, j)
      ensures (forall n :: n in d.pools ==> ProperNode(n)) && Requests(w, d) ==> KnownJob(w.subnets, j)
    {
      JobIn(d.pools, w.items, l.id, j);
      var n :| n in d.pools && j in RepJobs(n, w.items, Rep(w.items, l.id, NodeName(n)));
      RepJobClear(w.subnets, w.items, n, Rep(w.items, l.id, NodeName(n)), j);
    }
  }

  lemma DiffsClear(subnets: map<string, Subnet>, jobs: seq<Job>, diffs: seq<JobDiff>)
    requires DiffsOf(jobs, diffs)
    ensures ClearJobs(subnets, jobs) ==> ClearDiffs(subnets, diffs)
    ensures (forall j :: j in jobs ==> KnownJob(subnets, j)) ==> forall x :: x in diffs ==> KnownJob(subnets, x.job)
  {
    hide ClearJob;
    hide KnownJob;
    hide IsDiff;
    forall x | x in diffs
      ensures x.job in jobs
    {
      var k :| 0 <= k < |diffs| && diffs[k] == x;
      assert DiffOf(jobs[k], x);
    }
  }

  lemma DiffsGood(w: World, jobs: seq<Job>, diffs: seq<JobDiff>)
    requires GoodJobs(w, jobs) && DiffsOf(jobs, diffs)
    ensures GoodDiffs(w, diffs)
  {
    hide GoodJob;
    hide IsDiff;
    forall k | 0 <= k < |diffs|
      ensures diffs[k].job == jobs[k] && jobs[k] in jobs
    {
      assert DiffOf(jobs[k], diffs[k]);
    }
  }

  lemma RoundChildPlan(w: World, d: State, l: Lb, status: string, c: Choice)
    requires PlanOf(w, d, l, status, c) && !PoolPhase(c)
    ensures ChildPlan(w, OpeningOf(d, l, status), c.diffs)
  {
    RoundJobsGood(w, d, l, status, c);
    DiffsGood(w, RoundJobs(w, d, l.id), c.diffs);
    hide Sound;
    hide GoodDiffs;
    hide GoodJobs;
    hide Valid;
    hide Opening;
    hide Possible;
    OpeningFacts(w, d.lb.value, status, l);
  }

  lemma RoundChildBatch(w: World, d: State, l: Lb, status: string, c: Choice)
    requires Sent(w, d, l, status, c) && !PoolPhase(c)
    ensures ChildBatch(w, OpeningOf(d, l, status), c.diffs)
  {
    RoundChildPlan(w, d, l, status, c);
    RoundJobsGood(w, d, l, status, c);
    RoundJobsClear(w, d, l);
    DiffsClear(w.subnets, RoundJobs(w, d, l.id), c.diffs);
    OpeningFacts(w, d.lb.value, status, l);
    hide ChildPlan;
    hide Sound;
    hide AllSmooth;
    hide GoodJobs;
    hide KnownJob;
    hide Requests;
    hide Valid;
    hide Opening;
    hide Possible;
    hide DiffsOf;
    hide Jobs;
    hide NodesOf;
  }

  lemma RoundDiffsClear(w: World, q: Query, d: State, l: Lb, status: string, c: Choice)
    requires RoundOf(w, q, d, l, status, c) && !PoolPhase(c)
    ensures ClearDiffs(w.subnets, c.diffs) && ClearJobs(w.subnets, RoundJobs(w, d, l.id))
  {
    RoundIsSent(w, q, d, l, status, c);
    hide RoundOf;
    RoundJobsGood(w, d, l, status, c);
    RoundJobsClear(w, d, l);
    hide Sent;
    hide WantedNode;
    hide DiffsOf;
    hide Jobs;
    hide NodesOf;
    hide GoodJobs;
    DiffsClear(w.subnets, RoundJobs(w, d, l.id), c.diffs);
  }

  lemma JobStepsRename(diffs: seq<JobDiff>)
    ensures forall a :: a in Flat(diffs, JobSteps) ==> !a.RenameLb?
  {
    FlatMember(diffs, JobSteps);
    forall x, a | x in diffs && a in JobSteps(x)
      ensures !a.RenameLb?
    {
      FlatMember(x.del, Deletion);
      hide Flat;
      var cs := Map(x.cre, CreationIn(x.job.pool, x.job.kind));
      assert forall k :: 0 <= k < |cs| ==> !cs[k].RenameLb?;
    }
  }

  /** A round that changes members, listeners or monitors ends in a refetch. */
  lemma ChildRound(w: World, d: State, l: Lb, status: string, c: Choice)
    requires Sent(w, d, l, status, c) && ChildPhase(c)
    ensures
      var r := RoundResult(w, d, l, status, c);
      && r.control == MustRefetch
      && r.world == AfterBatch(w, OpeningOf(d, l, status), c.diffs)
      && r.world.lbs == Renamed(w.lbs, l.id, d.lb.value.name) && r.world.subnets == w.subnets && r.world.fips == w.fips
  {
    var o, steps := OpeningOf(d, l, status), Flat(c.diffs, JobSteps);
    RoundChildBatch(w, d, l, status, c);
    OpeningFacts(w, d.lb.value, status, l);
    hide Sound;
    hide AllSmooth;
    hide Possible;
    hide Valid;
    hide Opening;
    hide ChildBatch;
    hide Flat;
    ChildBatchRuns(w, o, c.diffs);
    JobStepsRename(c.diffs);
    RenamedByRest(w.lbs, o, steps);
    hide RenamedBy;
    RefetchEnds(w, o + steps);
    hide Exec;
    assert Plan(d, Snapshot(w, Some(l), status), c) == o + steps + [Refetch];
  }

  ghost function ChildGap(w: World, d: State, lb: Uuid): nat {
    TotalGap(RoundJobs(w, d, lb))
  }

  lemma RelistedGap(w: World, opening: seq<Action>, diffs: seq<JobDiff>, jobs: seq<Job>)
    requires ChildBatch(w, opening, diffs) && ClearDiffs(w.subnets, diffs) && DiffsOf(jobs, diffs)
    ensures TotalGap(Map(jobs, Relisted(AfterBatch(w, opening, diffs).items))) + Changes(diffs) == TotalGap(jobs)
  {
    var items1 := AfterBatch(w, opening, diffs).items;
    hide ChildBatch;
    hide ClearDiffs;
    hide DiffsOf;
    hide Gap;
    hide AfterBatch;
    hide Children;
    forall x | x in diffs
      ensures Gap(x.job.want, Relisted(items1)(x.job).have) + |x.del| + |x.cre| == Gap(x.job.want, x.job.have)
    {
      OneGap(w, opening, diffs, x);
    }
    GapsSum(jobs, diffs, items1);
  }

  /** Such a round leaves the pools alone and closes the remaining gaps by what it changed. */
  lemma ChildRoundShrinks(w: World, q: Query, d: State, l: Lb, status: string, c: Choice)
    requires RoundOf(w, q, d, l, status, c) && ChildPhase(c)
    ensures
      var w1 := RoundResult(w, d, l, status, c).world;
      && PoolsOf(w1.items, l.id) == PoolsOf(w.items, l.id)
      && ChildGap(w1, d, l.id) + Changes(c.diffs) == ChildGap(w, d, l.id)
      && Changes(c.diffs) > 0
  {
    var o := OpeningOf(d, l, status);
    RoundIsSent(w, q, d, l, status, c);
    RoundDiffsClear(w, q, d, l, status, c);
    hide ClearDiffs;
    hide ClearJobs;
    ChildRound(w, d, l, status, c);
    RoundChildBatch(w, d, l, status, c);
    RoundJobsGood(w, d, l, status, c);
    hide Sent;
    NoSteps(c.diffs);
    hide RoundOf;
    hide ChildBatch;
    hide RoundResult;
    hide AfterBatch;
    hide GoodJobs;
    hide DiffsOf;
    hide Jobs;
    hide NodesOf;
    hide PoolsOf;
    hide TotalGap;
    hide Changes;
    hide Flat;
    PoolsKept(w, o, c.diffs, l.id);
    RelistedGap(w, o, c.diffs, RoundJobs(w, d, l.id));
    JobsRelisted(d.pools, w.items, AfterBatch(w, o, c.diffs).items, l.id);
  }
}
