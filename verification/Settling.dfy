/** The last round of a run settles the cloud, and settled clouds are exactly the fixpoints. */
module Settling {
  import opened Seqs
  import opened Compare
  import opened Domain
  import opened CloudWorld
  import opened Effects
  import opened Planner
  import opened Lookup
  import opened Rounds
  import opened JobBatches
  import opened ChildRounds
  import opened Closing
  import opened PoolRounds
  import opened UpdateRounds
  import opened FinalRounds
  import opened Convergence

  // ---------------------------------------------------------------- floating IPs

  lemma {:induction false} AssignedByConcat(fips: seq<Fip>, a: seq<Action>, b: seq<Action>)
    ensures AssignedBy(fips, a + b) == AssignedBy(AssignedBy(fips, a), b)
  {
    if b == [] {
      assert a + b == a;
    } else {
      var n := |b| - 1;
      assert (a + b)[..|a| + n] == a + b[..n];
      AssignedByConcat(fips, a, b[..n]);
      hide AssignedBy;
      assert (a + b)[|a| + n] == b[n];
      AssignedByLast(fips, a + b);
      AssignedByLast(AssignedBy(fips, a), b);
    }
  }

  lemma AssignedByLast(fips: seq<Fip>, b: seq<Action>)
    requires b != []
    ensures
      var before := AssignedBy(fips, b[..|b| - 1]);
      var a := b[|b| - 1];
      AssignedBy(fips, b) == if a.AssignFloatingIP? then Assigned(before, a.ip, a.lbId) else before
  {
  }

  lemma {:induction false} AssignedByOthers(fips: seq<Fip>, b: seq<Action>)
    requires forall a :: a in b ==> !a.AssignFloatingIP?
    ensures AssignedBy(fips, b) == fips
  {
    if b != [] {
      AssignedByOthers(fips, b[..|b| - 1]);
    }
  }

  ghost predicate Requested(ips: seq<string>, f: Fip) {
    exists ip :: ip in ips && Address(ip) == Address(f.network)
  }

  /** Assigning some IPs moves the floating IPs with their addresses, and no others. */
  lemma {:induction false} AssignAll(fips: seq<Fip>, ips: seq<string>, lb: Uuid)
    ensures |AssignedBy(fips, Map(ips, Assignment(lb)))| == |fips|
    ensures forall k :: 0 <= k < |fips| ==>
      AssignedBy(fips, Map(ips, Assignment(lb)))[k] == if Requested(ips, fips[k]) then fips[k].(lb := Some(lb)) else fips[k]
  {
    var b := Map(ips, Assignment(lb));
    if ips != [] {
      var init, ip := ips[..|ips| - 1], ips[|ips| - 1];
      assert ips == init + [ip];
      assert b[..|ips| - 1] == Map(init, Assignment(lb));
      assert b[|ips| - 1] == AssignFloatingIP(ip, lb);
      AssignAll(fips, init, lb);
      AssignedByLast(fips, b);
      hide AssignedBy;
      hide Address;
      forall f: Fip
        ensures Requested(ips, f) <==> Requested(init, f) || Address(ip) == Address(f.network)
      {
      }
    } else {
      assert b == [];
    }
  }

  lemma NetworksIn(fips: seq<Fip>, lb: Uuid)
    ensures forall n :: n in NetworksOf(fips, lb) <==> exists f :: f in fips && f.lb == Some(lb) && f.network == n
  {
    var own := Filter(fips, (f: Fip) => f.lb == Some(lb));
    var ns := NetworksOf(fips, lb);
    assert forall k :: 0 <= k < |own| ==> ns[k] == own[k].network && own[k] in own;
    forall f | f in fips && f.lb == Some(lb)
      ensures f.network in ns
    {
      var k :| 0 <= k < |own| && own[k] == f;
      assert ns[k] == f.network;
    }
  }

  ghost predicate AssignDiff(fips: seq<Fip>, desired: seq<string>, release: seq<string>, assign: seq<string>, lb: Uuid) {
    IsDiff(desired, NetworksOf(fips, lb), Same, release, assign)
  }

  /** Every desired IP is on the load balancer after the assignments. */
  lemma FipsDone(fips: seq<Fip>, desired: seq<string>, release: seq<string>, assign: seq<string>, lb: Uuid)
    requires FipsKnown(fips, desired) && AssignDiff(fips, desired, release, assign, lb)
    ensures FipsSettled(AssignedBy(fips, Map(assign, Assignment(lb))), desired, lb)
    ensures forall ip :: ip in assign ==> ip in desired
  {
    var after := AssignedBy(fips, Map(assign, Assignment(lb)));
    CreatesMissing(desired, NetworksOf(fips, lb), Same, release, assign);
    NetworksIn(fips, lb);
    AssignAll(fips, assign, lb);
    hide AssignedBy;
    hide Address;
    hide NetworksOf;
    hide IsDiff;
    forall ip | ip in desired
      ensures exists f :: f in after && Address(f.network) == Address(ip) && f.lb == Some(lb)
    {
      if Same(ip) in KeySet(NetworksOf(fips, lb), Same) {
        var f :| f in fips && f.lb == Some(lb) && f.network == ip;
        var k :| 0 <= k < |fips| && fips[k] == f;
        assert after[k] in after && after[k].network == ip && after[k].lb == Some(lb);
      } else {
        var other :| other in assign && Same(other) == Same(ip);
        var f :| f in fips && Address(f.network) == Address(ip);
        var k :| 0 <= k < |fips| && fips[k] == f;
        assert Requested(assign, fips[k]);
        assert after[k] in after && after[k].network == f.network && after[k].lb == Some(lb);
      }
    }
  }

  lemma FipsUnchanged(fips: seq<Fip>, ips: seq<string>, lb: Uuid)
    requires Distinct(fips, FipAddress) && FipsSettled(fips, ips, lb)
    ensures AssignedBy(fips, Map(ips, Assignment(lb))) == fips
  {
    AssignAll(fips, ips, lb);
    hide AssignedBy;
    hide Address;
    forall k | 0 <= k < |fips|
      ensures Requested(ips, fips[k]) ==> fips[k].lb == Some(lb)
    {
      if ip :| ip in ips && Address(ip) == Address(fips[k].network) {
        var f :| f in fips && Address(f.network) == Address(ip) && f.lb == Some(lb);
        DistinctSame(fips, FipAddress, f, fips[k]);
      }
    }
  }

  // ---------------------------------------------------------------- the last round

  ghost predicate LastPhase(c: Choice) {
    !PoolPhase(c) && !ChildPhase(c)
  }

  ghost function LastBatch(w: World, d: State, l: Lb, status: string, c: Choice): seq<Action>
    requires d.lb.Some?
  {
    FinalBatch(OpeningOf(d, l, status), Pairs(RoundJobs(w, d, l.id)), c.assign, l.id)
  }

  lemma LastContext(w: World, d: State, l: Lb, status: string, c: Choice)
    requires Sent(w, d, l, status, c) && LastPhase(c)
    ensures OpeningFor(w, OpeningOf(d, l, status)) && HasLb(w.lbs, l.id) && l in w.lbs
    ensures RenamedBy(w.lbs, OpeningOf(d, l, status)) == Renamed(w.lbs, l.id, d.lb.value.name)
    ensures GoodJobs(w, RoundJobs(w, d, l.id)) && HasReps(d.pools, w.items, l.id)
    ensures AssignDiff(w.fips, d.floatingIPs, c.release, c.assign, l.id)
    ensures FipsKnown(w.fips, d.floatingIPs) && FipsKnown(w.fips, c.assign)
  {
    RoundJobsGood(w, d, l, status, c);
    OpeningFacts(w, d.lb.value, status, l);
    hide Opening;
    hide GoodJobs;
    hide Jobs;
    hide NodesOf;
    hide Sound;
    hide RenamedBy;
    assert AssignDiff(w.fips, d.floatingIPs, c.release, c.assign, l.id);
    hide Valid;
    FipsDone(w.fips, d.floatingIPs, c.release, c.assign, l.id);
  }

  /** The last round runs to its end, and changes resources only in place. */
  lemma LastRuns(w: World, d: State, l: Lb, status: string, c: Choice)
    requires Sent(w, d, l, status, c) && LastPhase(c)
    ensures RoundResult(w, d, l, status, c) == Ran(GentleResult(w, LastBatch(w, d, l, status, c)), Finished)
  {
    var jobs := RoundJobs(w, d, l.id);
    LastContext(w, d, l, status, c);
    PairsIn(w, jobs);
    hide GoodJobs;
    hide Jobs;
    hide NodesOf;
    hide Possible;
    hide Requests;
    hide Valid;
    hide Exec;
    hide OpeningFor;
    hide GentleResult;
    FinalRuns(w, OpeningOf(d, l, status), Pairs(jobs), c.assign, l.id);
    assert Plan(d, Snapshot(w, Some(l), status), c) == LastBatch(w, d, l, status, c);
  }

  lemma UpdatesOnly(pairs: seq<(Item, Item)>)
    ensures forall a :: a in Flat(pairs, Update) ==> !a.RenameLb? && !a.AssignFloatingIP?
  {
    FlatMember(pairs, Update);
    hide Flat;
    hide PairUpdates;
    forall p, a | p in pairs && a in PairUpdates(p)
      ensures !a.RenameLb? && !a.AssignFloatingIP?
    {
      PairTargets(p);
    }
  }

  lemma FinalBatchParts(lbs: seq<Lb>, fips: seq<Fip>, o: seq<Action>, pairs: seq<(Item, Item)>, assign: seq<string>, lb: Uuid)
    requires forall a :: a in o ==> !a.AssignFloatingIP?
    ensures RenamedBy(lbs, FinalBatch(o, pairs, assign, lb)) == RenamedBy(lbs, o)
    ensures AssignedBy(fips, FinalBatch(o, pairs, assign, lb)) == AssignedBy(fips, Map(assign, Assignment(lb)))
  {
    var updates, rest := Flat(pairs, Update), Map(assign, Assignment(lb));
    UpdatesOnly(pairs);
    AssignmentsIn(assign, lb);
    hide Flat;
    hide RenamedBy;
    hide AssignedBy;
    RenamedByRest(lbs, o, updates);
    RenamedByRest(lbs, o + updates, rest);
    AssignedByOthers(fips, o + updates);
    AssignedByConcat(fips, o + updates, rest);
  }

  lemma LastLbsAndFips(w: World, d: State, l: Lb, status: string, c: Choice)
    requires Sent(w, d, l, status, c) && LastPhase(c)
    ensures
      var w1 := RoundResult(w, d, l, status, c).world;
      && w1.lbs == Renamed(w.lbs, l.id, d.lb.value.name)
      && w1.fips == AssignedBy(w.fips, Map(c.assign, Assignment(l.id)))
      && w1.items == Map(w.items, RevisionBy(LastBatch(w, d, l, status, c)))
      && w1.subnets == w.subnets && w1.next == w.next && w1.autoVip == w.autoVip
  {
    LastRuns(w, d, l, status, c);
    LastContext(w, d, l, status, c);
    hide RoundResult;
    hide GoodJobs;
    hide Jobs;
    hide AssignDiff;
    hide Opening;
    hide Possible;
    hide Requests;
    hide Valid;
    hide RenamedBy;
    hide AssignedBy;
    hide FinalBatch;
    FinalBatchParts(w.lbs, w.fips, OpeningOf(d, l, status), Pairs(RoundJobs(w, d, l.id)), c.assign, l.id);
  }

  lemma {:induction false} NoChangesEach(diffs: seq<JobDiff>, x: JobDiff)
    requires Changes(diffs) == 0 && x in diffs
    ensures x.del == [] && x.cre == []
  {
    var n := |diffs| - 1;
    assert diffs == diffs[..n] + [diffs[n]];
    if x != diffs[n] {
      NoChangesEach(diffs[..n], x);
    }
  }

  lemma EmptyDiffKeys(j: Job, x: JobDiff)
    requires DiffOf(j, x) && x.del == [] && x.cre == []
    ensures KeySet(j.want, ItemKey) == KeySet(j.have, ItemKey)
  {
    DeletesUndesired(j.want, j.have, ItemKey, x.del, x.cre);
    CreatesMissing(j.want, j.have, ItemKey, x.del, x.cre);
    hide IsDiff;
  }

  /** A plan that neither creates nor deletes has seen the desired keys everywhere. */
  lemma PlanKeys(d: State, s: State, c: Choice)
    requires d.lb.Some? && s.lb.Some? && Possible(d, s, c) && LastPhase(c)
    ensures SamePools(d, s) && Resolves(d.pools, s.pools)
    ensures forall j :: j in Jobs(d.pools, s.pools) ==> KeySet(j.want, ItemKey) == KeySet(j.have, ItemKey)
  {
    var jobs := Jobs(d.pools, s.pools);
    NoSteps(c.diffs);
    EmptyDiffSamePools(d, s, c.poolDel, c.poolCre);
    hide Jobs;
    hide Flat;
    hide Changes;
    hide IsDiff;
    hide Resolves;
    hide SamePools;
    forall j | j in jobs
      ensures KeySet(j.want, ItemKey) == KeySet(j.have, ItemKey)
    {
      var k :| 0 <= k < |jobs| && jobs[k] == j;
      assert DiffOf(j, c.diffs[k]);
      NoChangesEach(c.diffs, c.diffs[k]);
      EmptyDiffKeys(j, c.diffs[k]);
    }
  }

  /** The last round sees the desired keys in every pool. */
  lemma LastKeys(w: World, d: State, l: Lb, status: string, c: Choice)
    requires d.lb.Some? && Possible(d, Snapshot(w, Some(l), status), c) && LastPhase(c)
    ensures forall j :: j in RoundJobs(w, d, l.id) ==> KeySet(j.want, ItemKey) == KeySet(j.have, ItemKey)
    ensures KeySet(d.pools, NodeKey) == KeySet(PoolsOf(w.items, l.id), ItemKey)
  {
    PoolItemsIn(NodesOf(w.items, l.id));
    assert PoolItems(NodesOf(w.items, l.id)) == PoolsOf(w.items, l.id);
    hide PoolItems;
    hide Possible;
    hide LastPhase;
    hide NodesOf;
    hide Jobs;
    PlanKeys(d, Snapshot(w, Some(l), status), c);
  }

  lemma PoolsUnrevised(w: World, o: seq<Action>, jobs: seq<Job>, assign: seq<string>, lb: Uuid)
    requires Valid(w) && GoodJobs(w, jobs) && OpeningFor(w, o)
    ensures PoolsOf(Map(w.items, RevisionBy(FinalBatch(o, Pairs(jobs), assign, lb))), lb) == PoolsOf(w.items, lb)
  {
    var b := FinalBatch(o, Pairs(jobs), assign, lb);
    ChildrenRevised(w.items, b, OnLb(lb), KPool);
    PairsIn(w, jobs);
    forall k | 0 <= k < |PoolsOf(w.items, lb)|
      ensures RevisedBy(PoolsOf(w.items, lb)[k], b) == PoolsOf(w.items, lb)[k]
    {
      var p := PoolsOf(w.items, lb)[k];
      assert p in PoolsOf(w.items, lb);
      forall x | x in Pairs(jobs)
        ensures x.1.id != p.id
      {
        if x.1.id == p.id { SameId(w.items, x.1, p); }
      }
      hide FinalBatch;
      hide RevisedBy;
      OtherPairs(Pairs(jobs), p);
      FinalItem(w, o, Pairs(jobs), assign, lb, p);
    }
  }

  ghost function NamedAs(l: Lb, q: Query): Lb {
    l.(name := q.name)
  }

  lemma ItemsSettle(w: World, q: Query, d: State, l: Lb, status: string, c: Choice, items1: seq<Item>)
    requires RoundOf(w, q, d, l, status, c) && LastPhase(c)
    requires items1 == Map(w.items, RevisionBy(LastBatch(w, d, l, status, c)))
    ensures PoolsOf(items1, l.id) == PoolsOf(w.items, l.id)
    ensures HasReps(d.pools, items1, l.id)
    ensures forall n :: n in d.pools ==> SettledPool(items1, n, Rep(items1, l.id, NodeName(n)))
  {
    var jobs, o := RoundJobs(w, d, l.id), OpeningOf(d, l, status);
    RoundIsSent(w, q, d, l, status, c);
    RoundDiffsClear(w, q, d, l, status, c);
    hide RoundOf;
    hide ClearJobs;
    hide ClearDiffs;
    LastContext(w, d, l, status, c);
    LastKeys(w, d, l, status, c);
    PoolsUnrevised(w, o, jobs, c.assign, l.id);
    JobsRelisted(d.pools, w.items, items1, l.id);
    hide Jobs;
    hide GoodJobs;
    hide NodesOf;
    hide FinalBatch;
    hide Opening;
    hide RevisedBy;
    hide AssignDiff;
    hide SettledJob;
    hide SettledPool;
    hide PoolsOf;
    hide Index;
    hide Valid;
    hide Requests;
    hide Possible;
    hide WantedNode;
    forall j1 | j1 in Jobs(d.pools, NodesOf(items1, l.id))
      ensures SettledJob(j1)
    {
      var js := Map(jobs, Relisted(items1));
      var k :| 0 <= k < |js| && js[k] == j1;
      assert jobs[k] in jobs;
      JobSettles(w, o, jobs, c.assign, l.id, jobs[k]);
    }
    var w1 := w.(items := items1);
    SettledJobs(w1, l.id, d.pools);
  }

  /** A run that ends has settled the cloud. */
  lemma LastRoundSettles(w: World, q: Query, d: State, l: Lb, status: string, c: Choice)
    requires RoundOf(w, q, d, l, status, c) && LastPhase(c)
    ensures RoundResult(w, d, l, status, c).control == Finished
    ensures Settled(RoundResult(w, d, l, status, c).world, NamedAs(l, q), d)
  {
    var w1 := RoundResult(w, d, l, status, c).world;
    RoundIsSent(w, q, d, l, status, c);
    hide WantedNode;
    LastRuns(w, d, l, status, c);
    LastLbsAndFips(w, d, l, status, c);
    ItemsSettle(w, q, d, l, status, c, w1.items);
    LastKeys(w, d, l, status, c);
    LastContext(w, d, l, status, c);
    hide RoundOf;
    hide Requests;
    FipsDone(w.fips, d.floatingIPs, c.release, c.assign, l.id);
    hide RoundResult;
    hide GoodJobs;
    hide AssignDiff;
    hide AssignedBy;
    hide SettledPool;
    hide PoolsOf;
    hide Possible;
    hide Valid;
  }

  // ---------------------------------------------------------------- fixpoints

  lemma SettledPairsUnrevised(w: World, q: Query, d: State, l: Lb, status: string, c: Choice, i: Item)
    requires RoundOf(w, q, d, l, status, c) && LastPhase(c) && Settled(w, l, d)
    ensures RevisedBy(i, LastBatch(w, d, l, status, c)) == i || i !in w.items
  {
    var jobs, o := RoundJobs(w, d, l.id), OpeningOf(d, l, status);
    RoundIsSent(w, q, d, l, status, c);
    RoundDiffsClear(w, q, d, l, status, c);
    hide RoundOf;
    hide ClearJobs;
    hide ClearDiffs;
    LastContext(w, d, l, status, c);
    SettledJobs(w, l.id, d.pools);
    PairsIn(w, jobs);
    PairsDistinct(w, jobs);
    FinalItem(w, o, Pairs(jobs), c.assign, l.id, i);
    hide FinalBatch;
    hide RevisedBy;
    hide Jobs;
    hide GoodJobs;
    hide AssignDiff;
    hide SettledPool;
    hide Possible;
    hide WantedNode;
    hide Requests;
    if i in w.items {
      if p :| p in Pairs(jobs) && p.1.id == i.id {
        SameId(w.items, p.1, i);
        OwnPairOnly(Pairs(jobs), p);
        PairDone(p);
      } else {
        OtherPairs(Pairs(jobs), i);
      }
    }
  }

  lemma NoDiffNoSteps(jobs: seq<Job>, diffs: seq<JobDiff>)
    requires DiffsOf(jobs, diffs)
    requires forall j :: j in jobs ==> KeySet(j.want, ItemKey) == KeySet(j.have, ItemKey)
    ensures Flat(diffs, JobSteps) == []
  {
    forall x | x in diffs
      ensures x.del == [] && x.cre == []
    {
      var k :| 0 <= k < |diffs| && diffs[k] == x;
      assert DiffOf(jobs[k], x);
      DeletesUndesired(x.job.want, x.job.have, ItemKey, x.del, x.cre);
      CreatesMissing(x.job.want, x.job.have, ItemKey, x.del, x.cre);
      hide IsDiff;
      NonEmpty(x.del);
      NonEmpty(x.cre);
    }
    hide DiffsOf;
    NoneChanges(diffs);
    NoSteps(diffs);
  }

  lemma {:induction false} NoneChanges(diffs: seq<JobDiff>)
    requires forall x :: x in diffs ==> x.del == [] && x.cre == []
    ensures Changes(diffs) == 0
  {
    if diffs != [] {
      NoneChanges(diffs[..|diffs| - 1]);
    }
  }

  lemma SettledIsLast(w: World, q: Query, d: State, l: Lb, status: string, c: Choice)
    requires RoundOf(w, q, d, l, status, c) && Settled(w, l, d)
    ensures LastPhase(c)
  {
    var nodes := NodesOf(w.items, l.id);
    EmptyDiffSamePools(d, Snapshot(w, Some(l), status), c.poolDel, c.poolCre);
    PoolItemsIn(nodes);
    assert PoolItems(nodes) == PoolsOf(w.items, l.id);
    hide Index;
    hide NodesOf;
    assert !PoolPhase(c);
    RoundIsSent(w, q, d, l, status, c);
    hide WantedNode;
    RoundJobsGood(w, d, l, status, c);
    SettledJobs(w, l.id, d.pools);
    hide Jobs;
    hide GoodJobs;
    hide IsDiff;
    hide Valid;
    hide Wanted;
    hide SettledPool;
    NoDiffNoSteps(RoundJobs(w, d, l.id), c.diffs);
  }

  lemma SameName(lbs: seq<Lb>, l: Lb, name: string)
    requires Distinct(lbs, LbId) && l in lbs
    ensures Renamed(lbs, l.id, name) == lbs <==> l.name == name
  {
    var k :| 0 <= k < |lbs| && lbs[k] == l;
    assert Renamed(lbs, l.id, name)[k].name == name;
    forall j | 0 <= j < |lbs|
      ensures lbs[j].id == l.id ==> lbs[j] == l
    {
      if lbs[j].id == l.id { DistinctSame(lbs, LbId, lbs[j], l); }
    }
  }

  lemma SettledUnchanged(w: World, q: Query, d: State, l: Lb, status: string, c: Choice)
    requires RoundOf(w, q, d, l, status, c) && Settled(w, l, d)
    ensures RoundResult(w, d, l, status, c) == Ran(w, Finished)
  {
    var b := LastBatch(w, d, l, status, c);
    SettledIsLast(w, q, d, l, status, c);
    RoundIsSent(w, q, d, l, status, c);
    hide WantedNode;
    LastRuns(w, d, l, status, c);
    LastLbsAndFips(w, d, l, status, c);
    LastContext(w, d, l, status, c);
    SameName(w.lbs, l, q.name);
    FipsDone(w.fips, d.floatingIPs, c.release, c.assign, l.id);
    hide RoundResult;
    hide AssignedBy;
    hide GoodJobs;
    hide AssignDiff;
    FipsUnchanged(w.fips, c.assign, l.id);
    forall k | 0 <= k < |w.items|
      ensures RevisedBy(w.items[k], b) == w.items[k]
    {
      SettledPairsUnrevised(w, q, d, l, status, c, w.items[k]);
    }
    hide RevisedBy;
    hide LastBatch;
    assert Map(w.items, RevisionBy(b)) == w.items;
  }

  /** A cloud is settled if and only if a round, in whatever order its maps are iterated, leaves it
      exactly as it is and ends the run. */
  lemma FixpointsAreSettled(w: World, q: Query, d: State, l: Lb, status: string, c: Choice)
    requires RoundOf(w, q, d, l, status, c)
    ensures RoundResult(w, d, l, status, c) == Ran(w, Finished) <==> Settled(w, l, d)
  {
    if Settled(w, l, d) {
      SettledUnchanged(w, q, d, l, status, c);
    }
    if RoundResult(w, d, l, status, c) == Ran(w, Finished) {
      RoundIsSent(w, q, d, l, status, c);
      hide WantedNode;
      if PoolPhase(c) {
        PoolRound(w, d, l, status, c);
      } else if ChildPhase(c) {
        ChildRound(w, d, l, status, c);
      } else {
        LastRoundSettles(w, q, d, l, status, c);
        LastLbsAndFips(w, d, l, status, c);
        hide RoundResult;
        hide Settled;
        FoundLb(w, q, l);
        SameName(w.lbs, l, q.name);
      }
    }
  }
}
