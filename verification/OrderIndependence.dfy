/** The order in which Go iterates its maps does not matter: a round ends in the same cloud, up to the
    identities of what it created and the order it was created in. */
module OrderIndependence {
  import opened Seqs
  import opened Compare
  import opened Domain
  import opened CloudWorld
  import opened Effects
  import opened Planner
  import opened Rounds
  import opened JobBatches
  import opened PoolRounds
  import opened ChildRounds
  import opened Closing
  import opened UpdateRounds
  import opened FinalRounds
  import opened Convergence
  import opened Settling

  // ---------------------------------------------------------------- permutations

  lemma MapMiddle<A, B>(before: seq<A>, x: A, after: seq<A>, f: A -> B)
    ensures multiset(Map(before + [x] + after, f)) == multiset(Map(before + after, f)) + multiset{f(x)}
    ensures multiset(before + [x] + after) - multiset{x} == multiset(before + after)
  {
    hide Map;
    MapConcat(before + [x], after, f);
    MapLast(before, x, f);
    MapConcat(before, after, f);
  }

  lemma {:induction false} MapPermuted<A(!new), B(!new)>(s: seq<A>, t: seq<A>, f: A -> B)
    requires multiset(s) == multiset(t)
    ensures multiset(Map(s, f)) == multiset(Map(t, f))
    decreases |s|
  {
    PermutedMembers(s, t);
    if s != [] {
      var init, x := s[..|s| - 1], s[|s| - 1];
      assert s == init + [x] + [] && init + [] == init;
      assert x in t;
      var j :| 0 <= j < |t| && t[j] == x;
      var before, after := t[..j], t[j + 1..];
      assert t == before + [x] + after;
      hide Map;
      MapMiddle(init, x, [], f);
      MapMiddle(before, x, after, f);
      MapPermuted(init, before + after, f);
    } else {
      assert s == t;
    }
  }

  lemma PermutedMembers<T(!new)>(s: seq<T>, t: seq<T>)
    requires multiset(s) == multiset(t)
    ensures |s| == |t| && forall x :: x in s <==> x in t
  {
    assert |multiset(s)| == |s| && |multiset(t)| == |t|;
    forall x: T
      ensures x in s <==> x in t
    {
      assert x in multiset(s) <==> x in multiset(t);
    }
  }

  // ---------------------------------------------------------------- what a batch adds, without identities

  /** A resource without its identity. */
  const Shape: Item -> (Owner, Spec) := (i: Item) => (i.owner, i.spec)

  function AskedBy(subnets: map<string, Subnet>): Action -> seq<(Owner, Spec)> {
    (a: Action) =>
      if Creation(a).Some? then [(Creation(a).value.0, Stored(subnets, Creation(a).value.1))] else []
  }

  lemma {:induction false} CreatedShapes(b: seq<Action>, next: Uuid, subnets: map<string, Subnet>)
    ensures Map(Created(b, next, subnets), Shape) == Flat(b, AskedBy(subnets))
  {
    if b == [] {
      assert Created(b, next, subnets) == [];
    } else {
      var init, a := b[..|b| - 1], b[|b| - 1];
      assert b == init + [a];
      CreatedShapes(init, next, subnets);
      FlatLast(init, a, AskedBy(subnets));
      hide Stored;
      hide Creation;
      hide Flat;
      var before := Created(init, next, subnets);
      if Creation(a).Some? {
        MapLast(before, Item(next + |before|, Creation(a).value.0, Stored(subnets, Creation(a).value.1)), Shape);
      }
    }
  }

  lemma {:induction false} AskNothing(b: seq<Action>, subnets: map<string, Subnet>)
    requires forall a :: a in b ==> Creation(a).None?
    ensures Flat(b, AskedBy(subnets)) == []
  {
    if b != [] {
      AskNothing(b[..|b| - 1], subnets);
    }
  }

  lemma {:induction false} AskEach<T(!new)>(s: seq<T>, f: T -> Action, g: T -> (Owner, Spec), subnets: map<string, Subnet>)
    requires forall x :: x in s ==> AskedBy(subnets)(f(x)) == [g(x)]
    ensures Flat(Map(s, f), AskedBy(subnets)) == Map(s, g)
  {
    if s == [] {
      assert Map(s, f) == [];
    } else {
      var init, x := s[..|s| - 1], s[|s| - 1];
      assert s == init + [x];
      AskEach(init, f, g, subnets);
      MapLast(init, x, f);
      MapLast(init, x, g);
      hide Map;
      FlatLast(Map(init, f), f(x), AskedBy(subnets));
    }
  }

  /** Two clouds that are the same but for the identities and the order of the resources after the
      first `n`. */
  ghost predicate SameBut(w: World, v: World, n: nat) {
    && n <= |w.items| && n <= |v.items| && w.items[..n] == v.items[..n]
    && multiset(Map(w.items[n..], Shape)) == multiset(Map(v.items[n..], Shape))
    && w.lbs == v.lbs && w.fips == v.fips && w.subnets == v.subnets && w.autoVip == v.autoVip && w.next == v.next
  }

  ghost predicate SameUpToNames(w: World, v: World) {
    exists n: nat :: SameBut(w, v, n)
  }

  lemma PermutedSize<A, B>(s: seq<A>, t: seq<A>, f: A -> B)
    requires multiset(Map(s, f)) == multiset(Map(t, f))
    ensures |s| == |t|
  {
    assert |multiset(Map(s, f))| == |s| && |multiset(Map(t, f))| == |t|;
  }

  /** Two runs of sound batches that delete the same and ask for the same agree up to names. */
  lemma SameEffects(w: World, a: seq<Action>, b: seq<Action>)
    requires Valid(w) && Sound(w, {}, {}, a) && Sound(w, {}, {}, b) && AllSmooth(w.subnets, a) && AllSmooth(w.subnets, b)
    requires Dels(a) == Dels(b) && RenamedBy(w.lbs, a) == RenamedBy(w.lbs, b)
    requires multiset(Flat(a, AskedBy(w.subnets))) == multiset(Flat(b, AskedBy(w.subnets)))
    ensures SameUpToNames(Exec(w, a).world, Exec(w, b).world)
  {
    hide Flat;
    hide Dels;
    hide Survivors;
    hide Sound;
    hide AllSmooth;
    hide Valid;
    ExecSound(w, a);
    ExecSound(w, b);
    var x, y := Created(a, w.next, w.subnets), Created(b, w.next, w.subnets);
    var kept := Survivors(w.items, Dels(a));
    CreatedShapes(a, w.next, w.subnets);
    CreatedShapes(b, w.next, w.subnets);
    hide Created;
    hide RenamedBy;
    hide Map;
    PermutedSize(x, y, Shape);
    hide Exec;
    assert (kept + x)[..|kept|] == kept == (kept + y)[..|kept|];
    assert (kept + x)[|kept|..] == x && (kept + y)[|kept|..] == y;
    assert SameBut(Exec(w, a).world, Exec(w, b).world, |kept|);
  }

  // ---------------------------------------------------------------- rounds that change pools

  function PoolShape(lb: Uuid): PoolNode -> (Owner, Spec) {
    (n: PoolNode) => (OnLb(lb), n.pool.spec)
  }

  lemma PoolStepsAsk(lb: Uuid, opening: seq<Action>, del: seq<PoolNode>, cre: seq<PoolNode>, subnets: map<string, Subnet>)
    requires forall a :: a in opening ==> Creation(a).None?
    requires forall n :: n in cre ==> n.pool.spec.Pool?
    ensures Flat(opening + PoolSteps(lb, del, cre), AskedBy(subnets)) == Map(cre, PoolShape(lb))
  {
    var removals, creations := Flat(del, PoolRemoval), Map(cre, PoolCreation(lb));
    RemovalsOnlyDelete(del);
    hide Flat;
    assert opening + PoolSteps(lb, del, cre) == (opening + removals) + creations;
    FlatConcat(opening + removals, creations, AskedBy(subnets));
    AskNothing(opening + removals, subnets);
    AskEach(cre, PoolCreation(lb), PoolShape(lb), subnets);
  }

  lemma SameUnion<T(!new)>(s: seq<T>, t: seq<T>, f: T -> set<Uuid>)
    requires multiset(s) == multiset(t)
    ensures Union(s, f) == Union(t, f)
  {
    PermutedMembers(s, t);
  }

  lemma PoolOrder(w: World, lb: Uuid, o: seq<Action>, ds: seq<PoolNode>,
                  del1: seq<PoolNode>, cre1: seq<PoolNode>, del2: seq<PoolNode>, cre2: seq<PoolNode>)
    requires PoolBatch(w, lb, o, ds, del1, cre1) && PoolBatch(w, lb, o, ds, del2, cre2)
    ensures SameUpToNames(AfterPools(w, lb, o, del1, cre1), AfterPools(w, lb, o, del2, cre2))
  {
    DiffOrderIrrelevant(ds, NodesOf(w.items, lb), NodeKey, del1, cre1, del2, cre2);
    PoolBatchSound(w, lb, o, ds, del1, cre1);
    PoolBatchSound(w, lb, o, ds, del2, cre2);
    PoolBatchSmooth(w, lb, o, ds, del1, cre1);
    PoolBatchSmooth(w, lb, o, ds, del2, cre2);
    hide AllSmooth;
    PoolDiffFacts(w, lb, ds, del1, cre1);
    PoolDiffFacts(w, lb, ds, del2, cre2);
    hide IsDiff;
    hide NodesOf;
    hide Valid;
    hide Sound;
    hide Dels;
    hide Busy;
    hide Union;
    hide PoolSteps;
    hide SameUpToNames;
    hide RenamedBy;
    hide Map;
    hide Flat;
    hide Exec;
    SameUnion(del1, del2, IdsOfNode);
    PoolStepsAsk(lb, o, del1, cre1, w.subnets);
    PoolStepsAsk(lb, o, del2, cre2, w.subnets);
    MapPermuted(cre1, cre2, PoolShape(lb));
    PoolStepsRename(lb, del1, cre1);
    PoolStepsRename(lb, del2, cre2);
    RenamedByRest(w.lbs, o, PoolSteps(lb, del1, cre1));
    RenamedByRest(w.lbs, o, PoolSteps(lb, del2, cre2));
    SameEffects(w, o + PoolSteps(lb, del1, cre1), o + PoolSteps(lb, del2, cre2));
  }

  // ---------------------------------------------------------------- rounds that change what is in the pools

  function ChildShape(pool: Uuid, subnets: map<string, Subnet>): Item -> (Owner, Spec) {
    (i: Item) => (InPool(pool), Stored(subnets, i.spec))
  }

  lemma JobStepsAsk(w: World, x: JobDiff)
    requires Valid(w) && GoodJob(w, x.job) && DiffOf(x.job, x)
    ensures Flat(JobSteps(x), AskedBy(w.subnets)) == Map(x.cre, ChildShape(x.job.pool, w.subnets))
  {
    var f := CreationIn(x.job.pool, x.job.kind);
    var before := Deletions(x.del) + When(|x.del| > 0 && |x.cre| > 0, Sleep(5000));
    DiffFacts(w, x);
    DeletionsCreateNothing(x.del);
    hide Flat;
    hide IsDiff;
    hide Deletions;
    hide Valid;
    hide Stored;
    hide CreateIn;
    forall c | c in x.cre
      ensures AskedBy(w.subnets)(f(c)) == [ChildShape(x.job.pool, w.subnets)(c)]
    {
      CreateInFacts(x.job.pool, x.job.kind, c);
    }
    assert JobSteps(x) == before + Map(x.cre, f);
    AskNothing(before, w.subnets);
    AskEach(x.cre, f, ChildShape(x.job.pool, w.subnets), w.subnets);
    FlatConcat(before, Map(x.cre, f), AskedBy(w.subnets));
  }

  /** The same comparisons, each with its results in some other order. */
  ghost predicate Reordered(diffs1: seq<JobDiff>, diffs2: seq<JobDiff>) {
    && |diffs1| == |diffs2|
    && forall k :: 0 <= k < |diffs1| ==>
      && diffs1[k].job == diffs2[k].job
      && multiset(diffs1[k].del) == multiset(diffs2[k].del)
      && multiset(diffs1[k].cre) == multiset(diffs2[k].cre)
  }

  lemma DiffsReordered(jobs: seq<Job>, diffs1: seq<JobDiff>, diffs2: seq<JobDiff>)
    requires DiffsOf(jobs, diffs1) && DiffsOf(jobs, diffs2)
    ensures Reordered(diffs1, diffs2)
  {
    hide IsDiff;
    forall k | 0 <= k < |jobs|
      ensures diffs1[k].job == diffs2[k].job
      ensures multiset(diffs1[k].del) == multiset(diffs2[k].del)
      ensures multiset(diffs1[k].cre) == multiset(diffs2[k].cre)
    {
      var j, x, y := jobs[k], diffs1[k], diffs2[k];
      assert DiffOf(j, x) && DiffOf(j, y);
      DiffOrderIrrelevant(j.want, j.have, ItemKey, x.del, x.cre, y.del, y.cre);
    }
  }

  lemma GoodInit(w: World, init: seq<JobDiff>, x: JobDiff)
    requires GoodDiffs(w, init + [x])
    ensures GoodDiffs(w, init) && GoodJob(w, x.job) && DiffOf(x.job, x)
  {
    hide GoodJob;
    hide DiffOf;
    var diffs := init + [x];
    assert forall y :: y in diffs <==> y in init || y == x;
    assert forall k :: 0 <= k < |init| ==> diffs[k] == init[k];
  }

  /** What two orders of the comparisons ask for, and delete, is the same so far. */
  ghost predicate AskSame(diffs1: seq<JobDiff>, diffs2: seq<JobDiff>, subnets: map<string, Subnet>) {
    && multiset(Flat(Flat(diffs1, JobSteps), AskedBy(subnets))) == multiset(Flat(Flat(diffs2, JobSteps), AskedBy(subnets)))
    && Union(diffs1, IdsOfDiff) == Union(diffs2, IdsOfDiff)
  }

  lemma AskLast(init: seq<JobDiff>, x: JobDiff, subnets: map<string, Subnet>)
    ensures Flat(Flat(init + [x], JobSteps), AskedBy(subnets))
         == Flat(Flat(init, JobSteps), AskedBy(subnets)) + Flat(JobSteps(x), AskedBy(subnets))
  {
    hide Flat;
    FlatLast(init, x, JobSteps);
    FlatConcat(Flat(init, JobSteps), JobSteps(x), AskedBy(subnets));
  }

  lemma AskStep(w: World, init1: seq<JobDiff>, x: JobDiff, init2: seq<JobDiff>, y: JobDiff)
    requires Valid(w) && GoodJob(w, x.job) && DiffOf(x.job, x) && DiffOf(y.job, y) && x.job == y.job
    requires multiset(x.del) == multiset(y.del) && multiset(x.cre) == multiset(y.cre)
    requires AskSame(init1, init2, w.subnets)
    ensures AskSame(init1 + [x], init2 + [y], w.subnets)
  {
    hide Valid;
    hide GoodJob;
    hide DiffOf;
    hide Flat;
    hide Union;
    hide Map;
    AskLast(init1, x, w.subnets);
    AskLast(init2, y, w.subnets);
    JobStepsAsk(w, x);
    JobStepsAsk(w, y);
    MapPermuted(x.cre, y.cre, ChildShape(x.job.pool, w.subnets));
    PermutedMembers(x.del, y.del);
    UnionLast(init1, x, IdsOfDiff);
    UnionLast(init2, y, IdsOfDiff);
  }

  lemma ReorderedLast(init1: seq<JobDiff>, x: JobDiff, init2: seq<JobDiff>, y: JobDiff)
    requires Reordered(init1 + [x], init2 + [y])
    ensures Reordered(init1, init2) && x.job == y.job
    ensures multiset(x.del) == multiset(y.del) && multiset(x.cre) == multiset(y.cre)
  {
    var diffs1, diffs2 := init1 + [x], init2 + [y];
    assert diffs1[|init1|] == x && diffs2[|init1|] == y;
    assert forall k :: 0 <= k < |init1| ==> diffs1[k] == init1[k] && diffs2[k] == init2[k];
  }

  lemma {:induction false} ChildrenAsk(w: World, diffs1: seq<JobDiff>, diffs2: seq<JobDiff>)
    requires Valid(w) && GoodDiffs(w, diffs1) && GoodDiffs(w, diffs2) && Reordered(diffs1, diffs2)
    ensures AskSame(diffs1, diffs2, w.subnets)
  {
    hide *;
    SameLength(diffs1, diffs2);
    if diffs1 == [] {
      AskReflexive([], w.subnets);
    } else {
      var init1, x := diffs1[..|diffs1| - 1], diffs1[|diffs1| - 1];
      assert diffs1 == init1 + [x];
      var init2, y := diffs2[..|diffs2| - 1], diffs2[|diffs2| - 1];
      assert diffs2 == init2 + [y];
      ReorderedLast(init1, x, init2, y);
      GoodInit(w, init1, x);
      GoodInit(w, init2, y);
      ChildrenAsk(w, init1, init2);
      AskStep(w, init1, x, init2, y);
    }
  }

  lemma AskReflexive(diffs: seq<JobDiff>, subnets: map<string, Subnet>)
    ensures AskSame(diffs, diffs, subnets)
  {
  }

  lemma SameLength(diffs1: seq<JobDiff>, diffs2: seq<JobDiff>)
    requires Reordered(diffs1, diffs2)
    ensures |diffs1| == |diffs2|
  {
  }

  lemma ChildOrder(w: World, o: seq<Action>, jobs: seq<Job>, diffs1: seq<JobDiff>, diffs2: seq<JobDiff>)
    requires ChildBatch(w, o, diffs1) && ChildBatch(w, o, diffs2)
    requires DiffsOf(jobs, diffs1) && DiffsOf(jobs, diffs2)
    ensures SameUpToNames(AfterBatch(w, o, diffs1), AfterBatch(w, o, diffs2))
  {
    var b1, b2, ask := Flat(diffs1, JobSteps), Flat(diffs2, JobSteps), AskedBy(w.subnets);
    DiffsReordered(jobs, diffs1, diffs2);
    hide DiffsOf;
    hide Reordered;
    ChildBatchSound(w, o, diffs1);
    ChildBatchSound(w, o, diffs2);
    ChildBatchSmooth(w, o, diffs1);
    ChildBatchSmooth(w, o, diffs2);
    hide AllSmooth;
    hide Valid;
    hide GoodDiffs;
    hide Flat;
    hide Sound;
    hide Dels;
    hide Busy;
    hide Union;
    hide SameUpToNames;
    hide RenamedBy;
    hide Exec;
    ChildrenAsk(w, diffs1, diffs2);
    FlatConcat(o, b1, ask);
    FlatConcat(o, b2, ask);
    AskNothing(o, w.subnets);
    assert [] + Flat(b1, ask) == Flat(b1, ask) && [] + Flat(b2, ask) == Flat(b2, ask);
    JobStepsRename(diffs1);
    JobStepsRename(diffs2);
    RenamedByRest(w.lbs, o, b1);
    RenamedByRest(w.lbs, o, b2);
    SameEffects(w, o + b1, o + b2);
  }

  lemma {:induction false} ReorderedChanges(diffs1: seq<JobDiff>, diffs2: seq<JobDiff>)
    requires Reordered(diffs1, diffs2)
    ensures Changes(diffs1) == Changes(diffs2)
  {
    if diffs1 != [] {
      var n := |diffs1| - 1;
      ReorderedChanges(diffs1[..n], diffs2[..n]);
      PermutedMembers(diffs1[n].del, diffs2[n].del);
      PermutedMembers(diffs1[n].cre, diffs2[n].cre);
    }
  }

  // ---------------------------------------------------------------- last rounds

  lemma LastOrder(w: World, d: State, l: Lb, status: string, c1: Choice, c2: Choice)
    requires Sent(w, d, l, status, c1) && LastPhase(c1)
    requires Sent(w, d, l, status, c2) && LastPhase(c2)
    ensures RoundResult(w, d, l, status, c1) == RoundResult(w, d, l, status, c2)
  {
    LastRuns(w, d, l, status, c1);
    LastRuns(w, d, l, status, c2);
    LastLbsAndFips(w, d, l, status, c1);
    LastLbsAndFips(w, d, l, status, c2);
    LastContext(w, d, l, status, c1);
    DiffOrderIrrelevant(d.floatingIPs, NetworksOf(w.fips, l.id), Same, c1.release, c1.assign, c2.release, c2.assign);
    hide *;
    PermutedMembers(c1.assign, c2.assign);
    SameAssigned(w.fips, c1.assign, c2.assign, l.id);
    LastItems(w, d, l, status, c1, c2);
    SameWorld(RoundResult(w, d, l, status, c1).world, RoundResult(w, d, l, status, c2).world);
  }

  lemma SameWorld(w: World, v: World)
    requires w.lbs == v.lbs && w.items == v.items && w.fips == v.fips
    requires w.subnets == v.subnets && w.autoVip == v.autoVip && w.next == v.next
    ensures w == v
  {
  }

  lemma LastItems(w: World, d: State, l: Lb, status: string, c1: Choice, c2: Choice)
    requires d.lb.Some? && OpeningFor(w, OpeningOf(d, l, status))
    ensures Map(w.items, RevisionBy(LastBatch(w, d, l, status, c1))) == Map(w.items, RevisionBy(LastBatch(w, d, l, status, c2)))
  {
    hide RevisedBy;
    hide FinalBatch;
    hide OpeningOf;
    hide RoundJobs;
    hide Pairs;
    hide OpeningFor;
    forall i: Item
      ensures RevisedBy(i, LastBatch(w, d, l, status, c1)) == RevisedBy(i, LastBatch(w, d, l, status, c2))
    {
      FinalItem(w, OpeningOf(d, l, status), Pairs(RoundJobs(w, d, l.id)), c1.assign, l.id, i);
      FinalItem(w, OpeningOf(d, l, status), Pairs(RoundJobs(w, d, l.id)), c2.assign, l.id, i);
    }
  }

  lemma SameAssigned(fips: seq<Fip>, ips1: seq<string>, ips2: seq<string>, lb: Uuid)
    requires forall ip :: ip in ips1 <==> ip in ips2
    ensures AssignedBy(fips, Map(ips1, Assignment(lb))) == AssignedBy(fips, Map(ips2, Assignment(lb)))
  {
    hide AssignedBy;
    hide Map;
    AssignAll(fips, ips1, lb);
    AssignAll(fips, ips2, lb);
    assert forall f :: Requested(ips1, f) <==> Requested(ips2, f);
  }

  // ---------------------------------------------------------------- rounds

  lemma SamePhase(w: World, d: State, l: Lb, status: string, c1: Choice, c2: Choice)
    requires Sent(w, d, l, status, c1) && Sent(w, d, l, status, c2)
    ensures PoolPhase(c1) == PoolPhase(c2) && ChildPhase(c1) == ChildPhase(c2)
  {
    var seen := Snapshot(w, Some(l), status);
    EmptyDiffSamePools(d, seen, c1.poolDel, c1.poolCre);
    EmptyDiffSamePools(d, seen, c2.poolDel, c2.poolCre);
    if !PoolPhase(c1) {
      RoundJobsGood(w, d, l, status, c1);
      RoundJobsGood(w, d, l, status, c2);
      hide *;
      DiffsReordered(RoundJobs(w, d, l.id), c1.diffs, c2.diffs);
      ReorderedChanges(c1.diffs, c2.diffs);
      NoSteps(c1.diffs);
      NoSteps(c2.diffs);
      SameChildPhase(c1, c2);
    }
  }

  lemma SameChildPhase(c1: Choice, c2: Choice)
    requires PoolPhase(c1) == PoolPhase(c2)
    requires Flat(c1.diffs, JobSteps) == [] <==> Flat(c2.diffs, JobSteps) == []
    ensures ChildPhase(c1) == ChildPhase(c2)
  {
    hide Flat;
  }

  lemma SameIsSame(w: World)
    ensures SameUpToNames(w, w)
  {
    assert SameBut(w, w, 0);
  }

  /** Whatever order the maps of a round are iterated in, it ends the same way, in clouds that differ at
      most in the identities of the resources it created and in their order. */
  lemma RoundOrderIrrelevant(w: World, d: State, l: Lb, status: string, c1: Choice, c2: Choice)
    requires Sent(w, d, l, status, c1) && Sent(w, d, l, status, c2)
    ensures RoundResult(w, d, l, status, c1).control == RoundResult(w, d, l, status, c2).control
    ensures SameUpToNames(RoundResult(w, d, l, status, c1).world, RoundResult(w, d, l, status, c2).world)
  {
    var o := OpeningOf(d, l, status);
    hide *;
    SamePhase(w, d, l, status, c1, c2);
    if PoolPhase(c1) {
      PoolRound(w, d, l, status, c1);
      PoolRound(w, d, l, status, c2);
      RoundPoolBatch(w, d, l, status, c1);
      RoundPoolBatch(w, d, l, status, c2);
      PoolOrder(w, l.id, o, d.pools, c1.poolDel, c1.poolCre, c2.poolDel, c2.poolCre);
    } else if ChildPhase(c1) {
      ChildRound(w, d, l, status, c1);
      ChildRound(w, d, l, status, c2);
      RoundChildBatch(w, d, l, status, c1);
      RoundChildBatch(w, d, l, status, c2);
      RoundJobsGood(w, d, l, status, c1);
      RoundJobsGood(w, d, l, status, c2);
      ChildOrder(w, o, RoundJobs(w, d, l.id), c1.diffs, c2.diffs);
    } else {
      IsLastPhase(c1);
      IsLastPhase(c2);
      LastOrder(w, d, l, status, c1, c2);
      SameIsSame(RoundResult(w, d, l, status, c1).world);
    }
  }

  lemma IsLastPhase(c: Choice)
    requires !PoolPhase(c) && !ChildPhase(c)
    ensures LastPhase(c)
  {
  }
}
