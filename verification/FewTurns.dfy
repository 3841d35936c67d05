/** Without duplicates, a run makes at most four turns that are not spent waiting. */
module FewTurns {
  import opened Seqs
  import opened Compare
  import opened Domain
  import opened CloudWorld
  import opened Planner
  import opened Lookup
  import opened Rounds
  import opened JobBatches
  import opened Gaps
  import opened ChildRounds
  import opened Closing
  import opened PoolRounds
  import opened FinalRounds
  import opened Convergence
  import opened Runs
  import opened PlanLocality
  import opened Progress

  /** What a run has before it: creating the load balancer, changing pools, changing what is in them. */
  ghost function Rank(w: World, q: Query, d: State): (r: nat)
    ensures r <= 3
  {
    if FoundIn(w, q).None? then 3
    else if PoolsLeft(w, q, d) > 0 then 2
    else if ChildrenLeft(w, q, d) > 0 then 1
    else 0
  }

  /** No pool has two members, two listeners or two monitors with the same key. */
  ghost predicate CleanPools(items: seq<Item>, lb: Uuid) {
    forall p, kind :: p in PoolsOf(items, lb) ==> Distinct(Children(items, InPool(p.id), kind), ItemKey)
  }

  /** There are no duplicates among what a run has yet to change. */
  ghost predicate Clean(w: World, q: Query, d: State) {
    FoundIn(w, q).Some? ==>
      var lb := FoundIn(w, q).value.id;
      && (PoolsLeft(w, q, d) > 0 ==> NoDuplicates(PoolItems(d.pools), PoolsOf(w.items, lb)))
      && (PoolsLeft(w, q, d) > 0 || ChildrenLeft(w, q, d) > 0 ==> CleanPools(w.items, lb))
  }

  lemma DistinctNoDuplicates(want: seq<Item>, have: seq<Item>)
    requires Distinct(have, ItemKey)
    ensures NoDuplicates(want, have)
  {
    forall i, j | i in Undesired(want, have) && j in Undesired(want, have) && ItemKey(i) == ItemKey(j)
      ensures i == j
    {
      DistinctSame(have, ItemKey, i, j);
    }
  }

  // ---------------------------------------------------------------- turns that change pools

  lemma NothingOwnedLater(w: World, id: Uuid, kind: Kind)
    requires Valid(w) && id >= w.next
    ensures Children(w.items, InPool(id), kind) == []
  {
    var r := Children(w.items, InPool(id), kind);
    forall i | i in w.items
      ensures i.owner != InPool(id)
    {
      assert OwnerExists(w, i);
    }
    NonEmpty(r);
  }

  lemma AddedOwnNothing(w: World, lb: Uuid, opening: seq<Action>, ds: seq<PoolNode>,
                        del: seq<PoolNode>, cre: seq<PoolNode>, id: Uuid, kind: Kind)
    requires PoolBatch(w, lb, opening, ds, del, cre)
    ensures Children(AddedPools(w, lb, opening, del, cre), InPool(id), kind) == []
  {
    var added := AddedPools(w, lb, opening, del, cre);
    forall i | i in added
      ensures i.owner != InPool(id)
    {
      AddedPoolOrigin(w, lb, opening, ds, del, cre, i);
    }
    hide AddedPools;
    NonEmpty(Children(added, InPool(id), kind));
  }

  lemma PoolsStayClean(w: World, lb: Uuid, opening: seq<Action>, ds: seq<PoolNode>,
                       del: seq<PoolNode>, cre: seq<PoolNode>)
    requires PoolBatch(w, lb, opening, ds, del, cre) && CleanPools(w.items, lb)
    ensures CleanPools(AfterPools(w, lb, opening, del, cre).items, lb)
  {
    var items1, added, gone := AfterPools(w, lb, opening, del, cre).items, AddedPools(w, lb, opening, del, cre), Union(del, IdsOfNode);
    PoolBatchRuns(w, lb, opening, ds, del, cre);
    PoolsListedAfter(w, lb, opening, ds, del, cre);
    hide AfterPools;
    hide Union;
    forall p, kind | p in PoolsOf(items1, lb)
      ensures Distinct(Children(items1, InPool(p.id), kind), ItemKey)
    {
      AddedOwnNothing(w, lb, opening, ds, del, cre, p.id, kind);
      var before := Children(w.items, InPool(p.id), kind);
      if p in added {
        AddedPoolOrigin(w, lb, opening, ds, del, cre, p);
        NothingOwnedLater(w, p.id, kind);
      } else {
        assert Distinct(before, ItemKey);
      }
      hide AddedPools;
      hide PoolBatch;
      hide PoolsOf;
      ListedAfter(w.items, gone, added, InPool(p.id), kind);
      FilterDistinct(before, i => Stays(i, gone), ItemKey);
      assert Survivors(before, gone) + [] == Survivors(before, gone);
    }
  }

  lemma PoolRoundCleans(w: World, q: Query, d: State, l: Lb, status: string, c: Choice)
    requires RoundOf(w, q, d, l, status, c) && PoolPhase(c) && CleanPools(w.items, l.id)
    ensures CleanPools(RoundResult(w, d, l, status, c).world.items, l.id)
  {
    RoundIsSent(w, q, d, l, status, c);
    PoolRound(w, d, l, status, c);
    RoundPoolBatch(w, d, l, status, c);
    hide Sent;
    hide WantedNode;
    hide RoundResult;
    hide RoundOf;
    hide PoolBatch;
    hide AfterPools;
    hide CleanPools;
    PoolsStayClean(w, l.id, OpeningOf(d, l, status), d.pools, c.poolDel, c.poolCre);
  }

  lemma PoolRoundCloses(w: World, q: Query, d: State, l: Lb, status: string, c: Choice)
    requires RoundOf(w, q, d, l, status, c) && PoolPhase(c)
    ensures PoolGap(w, d, l.id) > 0
    ensures NoDuplicates(PoolItems(d.pools), PoolsOf(w.items, l.id)) ==>
      PoolGap(RoundResult(w, d, l, status, c).world, d, l.id) == 0
  {
    hide RoundOf;
    hide RoundResult;
    hide PoolGap;
    hide NoDuplicates;
    PoolRoundShrinks(w, q, d, l, status, c);
  }

  lemma PoolsDone(w: World, w1: World, q: Query, d: State)
    requires FoundIn(w, q).Some? && FoundIn(w1, q).Some? && FoundIn(w1, q).value.id == FoundIn(w, q).value.id
    requires PoolsLeft(w, q, d) > 0 && PoolsLeft(w1, q, d) == 0
    requires CleanPools(w1.items, FoundIn(w, q).value.id)
    ensures Rank(w1, q, d) < Rank(w, q, d) && Clean(w1, q, d)
  {
    hide FoundIn;
    hide PoolsLeft;
    hide ChildrenLeft;
    hide CleanPools;
  }

  lemma PoolTurnCleans(w: World, q: Query, t: Turn)
    requires GoodTurn(w, q, t) && FoundIn(w, q).Some? && t.status != "changing" && PoolPhase(t.choice)
    requires Clean(w, q, t.desired)
    ensures
      var w1 := TurnResult(w, q, t).world;
      Rank(w1, q, t.desired) < Rank(w, q, t.desired) && Clean(w1, q, t.desired)
  {
    hide FoundIn;
    hide RoundResult;
    hide RoundOf;
    hide PoolGap;
    hide CleanPools;
    hide NoDuplicates;
    hide GoodTurn;
    hide TurnResult;
    hide Rank;
    hide PoolPhase;
    var d, l, c := t.desired, FoundIn(w, q).value, t.choice;
    PoolTurn(w, q, t);
    IsRound(w, q, t);
    PoolRoundCloses(w, q, d, l, t.status, c);
    PoolRoundCleans(w, q, d, l, t.status, c);
    PoolsDone(w, TurnResult(w, q, t).world, q, d);
  }

  // ---------------------------------------------------------------- turns that change what is in pools

  lemma RightPools(w: World, q: Query, d: State, l: Lb, status: string, c: Choice)
    requires RoundOf(w, q, d, l, status, c) && !PoolPhase(c)
    ensures PoolGap(w, d, l.id) == 0
  {
    EmptyDiffSamePools(d, Snapshot(w, Some(l), status), c.poolDel, c.poolCre);
    PoolItemsIn(NodesOf(w.items, l.id));
    PoolItemsIn(d.pools);
    assert PoolItems(NodesOf(w.items, l.id)) == PoolsOf(w.items, l.id);
    hide NodesOf;
    hide PoolsOf;
    NoGap(PoolItems(d.pools), PoolsOf(w.items, l.id));
  }

  lemma OneGapCloses(w: World, opening: seq<Action>, diffs: seq<JobDiff>, x: JobDiff)
    requires ChildBatch(w, opening, diffs) && ClearDiffs(w.subnets, diffs) && x in diffs && Distinct(x.job.have, ItemKey)
    ensures Gap(x.job.want, Children(AfterBatch(w, opening, diffs).items, InPool(x.job.pool), x.job.kind)) == 0
  {
    JobReplaced(w, opening, diffs, x);
    DistinctNoDuplicates(x.job.want, x.job.have);
    hide Gap;
    hide Replaced;
    hide NoDuplicates;
    hide AfterBatch;
    DiffCovers(x.job.want, x.job.have, x.del, x.cre);
    GapCloses(x.job.want, x.job.have, x.del, x.cre,
              Children(AfterBatch(w, opening, diffs).items, InPool(x.job.pool), x.job.kind));
  }

  lemma {:induction false} NoGapsLeft(jobs: seq<Job>, items1: seq<Item>)
    requires forall j :: j in jobs ==> Gap(j.want, Relisted(items1)(j).have) == 0
    ensures TotalGap(Map(jobs, Relisted(items1))) == 0
  {
    if jobs != [] {
      var n := |jobs| - 1;
      NoGapsLeft(jobs[..n], items1);
      assert Map(jobs, Relisted(items1))[..n] == Map(jobs[..n], Relisted(items1));
      hide Gap;
      assert jobs[n] in jobs;
    }
  }

  lemma JobsClean(w: World, lb: Uuid, ds: seq<PoolNode>, j: Job)
    requires HasReps(ds, w.items, lb) && CleanPools(w.items, lb) && j in Jobs(ds, NodesOf(w.items, lb))
    ensures Distinct(j.have, ItemKey)
  {
    hide Jobs;
    hide NodesOf;
    hide Children;
    hide Index;
    hide RepJobs;
    JobIn(ds, w.items, lb, j);
    var n :| n in ds && j in RepJobs(n, w.items, Rep(w.items, lb, NodeName(n)));
    RepFacts(w, lb, NodeName(n));
    hide PoolsOf;
    hide Rep;
    RepJobShape(n, w.items, Rep(w.items, lb, NodeName(n)), j);
  }

  /** Without duplicates, one round closes all gaps in the pools. */
  lemma ChildRoundCloses(w: World, q: Query, d: State, l: Lb, status: string, c: Choice)
    requires RoundOf(w, q, d, l, status, c) && ChildPhase(c) && CleanPools(w.items, l.id)
    ensures ChildGap(RoundResult(w, d, l, status, c).world, d, l.id) == 0
  {
    var o, jobs := OpeningOf(d, l, status), RoundJobs(w, d, l.id);
    RoundIsSent(w, q, d, l, status, c);
    RoundDiffsClear(w, q, d, l, status, c);
    hide ClearDiffs;
    hide ClearJobs;
    ChildRound(w, d, l, status, c);
    RoundChildBatch(w, d, l, status, c);
    RoundJobsGood(w, d, l, status, c);
    hide Sent;
    hide WantedNode;
    hide RoundOf;
    hide RoundResult;
    hide ChildBatch;
    hide AfterBatch;
    hide GoodJobs;
    hide Jobs;
    hide NodesOf;
    hide PoolsOf;
    hide CleanPools;
    hide Gap;
    hide TotalGap;
    hide Children;
    hide IsDiff;
    var items1 := AfterBatch(w, o, c.diffs).items;
    forall j | j in jobs
      ensures Gap(j.want, Relisted(items1)(j).have) == 0
    {
      var k :| 0 <= k < |jobs| && jobs[k] == j;
      assert DiffOf(j, c.diffs[k]);
      JobsClean(w, l.id, d.pools, j);
      OneGapCloses(w, o, c.diffs, c.diffs[k]);
    }
    NoGapsLeft(jobs, items1);
    PoolsKept(w, o, c.diffs, l.id);
    JobsRelisted(d.pools, w.items, items1, l.id);
  }

  lemma ChildTurnCleans(w: World, q: Query, t: Turn)
    requires GoodTurn(w, q, t) && FoundIn(w, q).Some? && t.status != "changing" && ChildPhase(t.choice)
    requires Clean(w, q, t.desired)
    ensures
      var w1 := TurnResult(w, q, t).world;
      Rank(w1, q, t.desired) < Rank(w, q, t.desired) && Clean(w1, q, t.desired)
  {
    hide FoundIn;
    hide TurnResult;
    hide RoundResult;
    hide RoundOf;
    hide GoodTurn;
    hide PoolGap;
    hide ChildGap;
    hide CleanPools;
    hide NoDuplicates;
    hide ChildPhase;
    var d, l, c := t.desired, FoundIn(w, q).value, t.choice;
    ChildTurn(w, q, t);
    IsRound(w, q, t);
    assert !PoolPhase(c) by { ChildIsNotPool(c); }
    RightPools(w, q, d, l, t.status, c);
    ChildRoundCloses(w, q, d, l, t.status, c);
  }

  lemma ChildIsNotPool(c: Choice)
    requires ChildPhase(c)
    ensures !PoolPhase(c)
  {
  }

  lemma CreateTurnCleans(w: World, q: Query, t: Turn)
    requires GoodTurn(w, q, t) && Creates(w, q)
    ensures
      var w1 := TurnResult(w, q, t).world;
      Rank(w1, q, t.desired) < Rank(w, q, t.desired) && Clean(w1, q, t.desired)
  {
    CreateTurn(w, q, t);
    CreatedIsFound(w, q, t.desired.lb.value);
    var w1 := TurnResult(w, q, t).world;
    var pools := PoolsOf(w1.items, w.next);
    forall i | i in w.items
      ensures i.owner != OnLb(w.next)
    {
      assert OwnerExists(w, i);
    }
    NonEmpty(pools);
    assert pools == [];
    DistinctNoDuplicates(PoolItems(t.desired.pools), pools);
    hide TurnResult;
    hide PoolGap;
    hide ChildGap;
    hide NoDuplicates;
    hide FindByServiceInfo;
  }

  // ---------------------------------------------------------------- counting turns

  ghost predicate Waiting(w: World, q: Query, t: Turn) {
    FoundIn(w, q).Some? && t.status == "changing"
  }

  /** The turns that are not spent waiting. */
  ghost function Working(w: World, q: Query, turns: seq<Turn>): nat {
    if turns == [] then 0 else
      var init := turns[..|turns| - 1];
      Working(w, q, init) + if Waiting(After(w, q, init), q, turns[|turns| - 1]) then 0 else 1
  }

  lemma TurnCleans(w: World, q: Query, t: Turn)
    requires GoodTurn(w, q, t) && TurnResult(w, q, t).control == MustRefetch && Clean(w, q, t.desired)
    ensures
      var w1 := TurnResult(w, q, t).world;
      && Clean(w1, q, t.desired)
      && Rank(w1, q, t.desired) + (if Waiting(w, q, t) then 0 else 1) <= Rank(w, q, t.desired)
  {
    hide TurnResult;
    hide Clean;
    hide Rank;
    hide GoodTurn;
    if FoundIn(w, q).None? {
      CreateTurnCleans(w, q, t);
    } else if t.status == "changing" {
      assert Planned(w, q, t) by { GoodIsPlanned(w, q, t); }
      ChangingWaits(w, q, t);
    } else if PoolPhase(t.choice) {
      PoolTurnCleans(w, q, t);
    } else if ChildPhase(t.choice) {
      ChildTurnCleans(w, q, t);
    } else {
      LastTurn(w, q, t);
    }
  }

  lemma GoodIsPlanned(w: World, q: Query, t: Turn)
    requires GoodTurn(w, q, t)
    ensures Planned(w, q, t)
  {
  }

  ghost predicate CleanStart(w: World, q: Query, d: State) {
    Valid(w) && Wanted(w, q, d) && Clean(w, q, d)
  }

  lemma TurnRank(w: World, q: Query, t: Turn)
    requires CleanStart(w, q, t.desired) && Planned(w, q, t) && TurnResult(w, q, t).control == MustRefetch
    ensures
      var w1 := TurnResult(w, q, t).world;
      && CleanStart(w1, q, t.desired)
      && Rank(w1, q, t.desired) + (if Waiting(w, q, t) then 0 else 1) <= Rank(w, q, t.desired)
  {
    hide TurnResult;
    hide Clean;
    hide Rank;
    hide Planned;
    hide Valid;
    hide Wanted;
    hide Waiting;
    TurnCleans(w, q, t);
    TurnAccepted(w, q, t);
  }

  /** A run for a fixed desired state, in a cloud without duplicates among what it has to change, makes
      at most as many refetching turns, besides those that wait, as its rank: three if the load balancer
      is still to be created. The turn after them is the last. */
  lemma {:induction false} AtMostThreeThenLast(w: World, q: Query, d: State, turns: seq<Turn>)
    requires CleanStart(w, q, d)
    requires Ongoing(w, q, turns) && forall t :: t in turns ==> t.desired == d
    ensures
      var w1 := After(w, q, turns);
      Working(w, q, turns) + Rank(w1, q, d) <= Rank(w, q, d) <= 3 && CleanStart(w1, q, d)
  {
    hide Rank;
    hide CleanStart;
    hide Planned;
    hide TurnResult;
    hide Waiting;
    if turns != [] {
      var init, t := turns[..|turns| - 1], turns[|turns| - 1];
      assert turns == init + [t];
      AtMostThreeThenLast(w, q, d, init);
      TurnRank(After(w, q, init), q, t);
    }
  }

  /** A cloud whose load balancer has no two pools, and no two members, listeners or monitors of a pool,
      with the same key is such a start. */
  lemma NoDuplicatesAtAll(w: World, q: Query, d: State)
    requires FoundIn(w, q).Some? ==>
      var lb := FoundIn(w, q).value.id;
      Distinct(PoolsOf(w.items, lb), ItemKey) && CleanPools(w.items, lb)
    ensures Clean(w, q, d)
  {
    if FoundIn(w, q).Some? {
      DistinctNoDuplicates(PoolItems(d.pools), PoolsOf(w.items, FoundIn(w, q).value.id));
    }
    hide FoundIn;
    hide CleanPools;
    hide PoolsLeft;
    hide ChildrenLeft;
    hide NoDuplicates;
  }
}
