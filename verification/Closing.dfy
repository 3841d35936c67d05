/** A round whose pools are all right closes the gaps of its comparisons by exactly what its batch changes. */
module Closing {
  import opened Seqs
  import opened Compare
  import opened Domain
  import opened CloudWorld
  import opened Effects
  import opened Planner
  import opened Rounds
  import opened JobBatches
  import opened Gaps
  import opened ChildRounds

  ghost function AfterBatch(w: World, opening: seq<Action>, diffs: seq<JobDiff>): World {
    Exec(w, opening + Flat(diffs, JobSteps)).world
  }

  lemma KeyOfCreated(w: World, x: JobDiff, c: Item)
    requires ClearJob(w.subnets, x.job) && c in x.job.want && c in x.cre
    ensures KeyOf(Stored(w.subnets, c.spec)) in KeySet(x.cre, ItemKey)
  {
    assert Faithful(w.subnets, c.spec);
    assert ItemKey(c) in KeySet(x.cre, ItemKey);
  }

  /** The listing of one comparison after the batch: its deletions gone, its creations there. */
  lemma JobReplaced(w: World, opening: seq<Action>, diffs: seq<JobDiff>, x: JobDiff)
    requires ChildBatch(w, opening, diffs) && ClearDiffs(w.subnets, diffs) && x in diffs
    ensures Replaced(x.job.have, x.del, x.cre, Children(AfterBatch(w, opening, diffs).items, InPool(x.job.pool), x.job.kind))
  {
    ChildBatchRuns(w, opening, diffs);
    DiffFacts(w, x);
    var gone, added := Union(diffs, IdsOfDiff), Created(opening + Flat(diffs, JobSteps), w.next, w.subnets);
    var owner, kind := InPool(x.job.pool), x.job.kind;
    var after := Children(AfterBatch(w, opening, diffs).items, owner, kind);
    forall i | i in after
      ensures (i in x.job.have && i !in x.del) || ItemKey(i) in KeySet(x.cre, ItemKey)
    {
      if i in added {
        AddedOrigin(w, opening, diffs, i);
        var y, c :| y in diffs && c in y.cre && i.owner == InPool(y.job.pool) && KindOf(i.spec) == y.job.kind
                    && i.spec == Stored(w.subnets, c.spec);
        DistinctSame(diffs, DiffId, x, y);
        KeyOfCreated(w, x, c);
      } else {
        StaysUnlessDeleted(w, diffs, x, i);
      }
    }
    forall i | i in x.job.have && i !in x.del
      ensures i in after
    {
      StaysUnlessDeleted(w, diffs, x, i);
    }
    forall c | c in x.cre
      ensures ItemKey(c) in KeySet(after, ItemKey)
    {
      AddedPresent(w, opening, diffs, x, c);
      var i :| i in added && IsChild(i, owner, kind) && i.spec == Stored(w.subnets, c.spec);
      assert i in after;
      assert Faithful(w.subnets, c.spec);
    }
  }

  lemma NoPoolsAdded(w: World, opening: seq<Action>, diffs: seq<JobDiff>, lb: Uuid)
    requires ChildBatch(w, opening, diffs)
    ensures Children(Created(opening + Flat(diffs, JobSteps), w.next, w.subnets), OnLb(lb), KPool) == []
  {
    var added := Created(opening + Flat(diffs, JobSteps), w.next, w.subnets);
    var r := Children(added, OnLb(lb), KPool);
    forall i | i in added
      ensures i.owner != OnLb(lb)
    {
      AddedOrigin(w, opening, diffs, i);
    }
    NonEmpty(r);
  }

  lemma AllPoolsStay(w: World, diffs: seq<JobDiff>, pools: seq<Item>)
    requires Valid(w) && GoodDiffs(w, diffs)
    requires forall p :: p in pools ==> p in w.items && p.spec.Pool?
    ensures Survivors(pools, Union(diffs, IdsOfDiff)) == pools
  {
    var gone := Union(diffs, IdsOfDiff);
    forall i | i in pools
      ensures Stays(i, gone)
    {
      PoolsStay(w, diffs, i);
    }
    FilterAll(pools, i => Stays(i, gone));
  }

  lemma ListedAfter(items: seq<Item>, gone: set<Uuid>, added: seq<Item>, owner: Owner, kind: Kind)
    ensures Children(Survivors(items, gone) + added, owner, kind)
         == Survivors(Children(items, owner, kind), gone) + Children(added, owner, kind)
  {
    hide Children;
    hide Survivors;
    ChildrenConcat(Survivors(items, gone), added, owner, kind);
    ChildrenSurvive(items, gone, owner, kind);
  }

  /** Such a batch leaves the pools of every load balancer as they are. */
  lemma PoolsKept(w: World, opening: seq<Action>, diffs: seq<JobDiff>, lb: Uuid)
    requires ChildBatch(w, opening, diffs)
    ensures PoolsOf(AfterBatch(w, opening, diffs).items, lb) == PoolsOf(w.items, lb)
  {
    var gone, added := Union(diffs, IdsOfDiff), Created(opening + Flat(diffs, JobSteps), w.next, w.subnets);
    ChildBatchRuns(w, opening, diffs);
    NoPoolsAdded(w, opening, diffs, lb);
    AllPoolsStay(w, diffs, PoolsOf(w.items, lb));
    hide *;
    ListedAfter(w.items, gone, added, OnLb(lb), KPool);
  }

  // ---------------------------------------------------------------- all comparisons

  function Relisted(items: seq<Item>): Job -> Job {
    (j: Job) => j.(have := Children(items, InPool(j.pool), j.kind))
  }

  lemma MapConcat<A, B>(a: seq<A>, b: seq<A>, f: A -> B)
    ensures Map(a + b, f) == Map(a, f) + Map(b, f)
  {
  }

  lemma RepJobsRelisted(n: PoolNode, items: seq<Item>, items1: seq<Item>, p: Item)
    ensures RepJobs(n, items1, p) == Map(RepJobs(n, items, p), Relisted(items1))
  {
  }

  /** With the same pools, the comparisons after a batch are those before it with new listings. */
  lemma {:induction false} JobsRelisted(desired: seq<PoolNode>, items: seq<Item>, items1: seq<Item>, lb: Uuid)
    requires PoolsOf(items1, lb) == PoolsOf(items, lb) && HasReps(desired, items, lb)
    ensures Jobs(desired, NodesOf(items1, lb)) == Map(Jobs(desired, NodesOf(items, lb)), Relisted(items1))
  {
    if desired == [] {
      assert Jobs(desired, NodesOf(items1, lb)) == [] == Jobs(desired, NodesOf(items, lb));
    } else {
      var init, n := desired[..|desired| - 1], desired[|desired| - 1];
      assert desired == init + [n];
      JobsRelisted(init, items, items1, lb);
      JobsLast(init, n, items, lb);
      JobsLast(init, n, items1, lb);
      hide Jobs;
      hide NodesOf;
      hide PoolsOf;
      hide Index;
      hide RepJobs;
      var p := Rep(items, lb, NodeName(n));
      RepJobsRelisted(n, items, items1, p);
      MapConcat(Jobs(init, NodesOf(items, lb)), RepJobs(n, items, p), Relisted(items1));
    }
  }

  ghost function TotalGap(jobs: seq<Job>): nat {
    if jobs == [] then 0 else TotalGap(jobs[..|jobs| - 1]) + Gap(jobs[|jobs| - 1].want, jobs[|jobs| - 1].have)
  }

  ghost function Changes(diffs: seq<JobDiff>): nat {
    if diffs == [] then 0 else
      Changes(diffs[..|diffs| - 1]) + |diffs[|diffs| - 1].del| + |diffs[|diffs| - 1].cre|
  }

  /** An empty batch is one without changes. */
  lemma {:induction false} NoSteps(diffs: seq<JobDiff>)
    ensures Flat(diffs, JobSteps) == [] <==> Changes(diffs) == 0
  {
    if diffs != [] {
      var init, x := diffs[..|diffs| - 1], diffs[|diffs| - 1];
      assert diffs == init + [x];
      NoSteps(init);
      FlatLast(init, x, JobSteps);
      hide Flat;
      var b := JobSteps(x);
      assert b == [] <==> x.del == [] && x.cre == [] by {
        if x.del != [] {
          DeletionOfLast(x.del[..|x.del| - 1], x.del[|x.del| - 1]);
          assert x.del == x.del[..|x.del| - 1] + [x.del[|x.del| - 1]];
        } else {
          FlatNil(Deletion);
        }
      }
    }
  }

  lemma OneGap(w: World, opening: seq<Action>, diffs: seq<JobDiff>, x: JobDiff)
    requires ChildBatch(w, opening, diffs) && ClearDiffs(w.subnets, diffs) && x in diffs
    ensures
      var after := Children(AfterBatch(w, opening, diffs).items, InPool(x.job.pool), x.job.kind);
      Gap(x.job.want, after) + |x.del| + |x.cre| == Gap(x.job.want, x.job.have)
  {
    JobReplaced(w, opening, diffs, x);
    hide Gap;
    hide Replaced;
    DiffCovers(x.job.want, x.job.have, x.del, x.cre);
    GapShrinks(x.job.want, x.job.have, x.del, x.cre,
               Children(AfterBatch(w, opening, diffs).items, InPool(x.job.pool), x.job.kind));
  }

  lemma {:induction false} GapsSum(jobs: seq<Job>, diffs: seq<JobDiff>, items1: seq<Item>)
    requires DiffsOf(jobs, diffs)
    requires forall x :: x in diffs ==>
      Gap(x.job.want, Relisted(items1)(x.job).have) + |x.del| + |x.cre| == Gap(x.job.want, x.job.have)
    ensures TotalGap(Map(jobs, Relisted(items1))) + Changes(diffs) == TotalGap(jobs)
  {
    if jobs != [] {
      var n := |jobs| - 1;
      hide DiffOf;
      assert DiffOf(jobs[n], diffs[n]);
      assert jobs[n] == diffs[n].job by { JobOfDiff(jobs[n], diffs[n]); }
      GapsSum(jobs[..n], diffs[..n], items1);
      assert Map(jobs, Relisted(items1))[..n] == Map(jobs[..n], Relisted(items1));
      hide Gap;
    }
  }

  lemma JobOfDiff(j: Job, x: JobDiff)
    requires DiffOf(j, x)
    ensures x.job == j
  {
  }
}
