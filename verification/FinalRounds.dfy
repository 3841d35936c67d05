/** What the in-place updates and floating IP assignments of the last round achieve. */
module FinalRounds {
  import opened Seqs
  import opened Compare
  import opened Domain
  import opened CloudWorld
  import opened Planner
  import opened Rounds
  import opened JobBatches
  import opened ChildRounds
  import opened Closing
  import opened UpdateRounds

  // ---------------------------------------------------------------- the pairs of a round

  lemma {:induction false} PairedFacts<T(!new), K(!new)>(xs: seq<T>, m: map<K, T>, key: T -> K)
    requires forall k :: k in m ==> key(m[k]) == k
    ensures forall p :: p in Paired(xs, m, key) ==> p.0 in xs && key(p.0) in m && p.1 == m[key(p.0)]
    ensures Distinct(xs, key) ==> Distinct(Paired(xs, m, key), (p: (T, T)) => key(p.1))
  {
    if xs != [] {
      var n := |xs| - 1;
      PairedFacts(xs[..n], m, key);
    }
  }

  const PairTarget: ((Item, Item)) -> Uuid := (p: (Item, Item)) => p.1.id

  lemma JobPairsFacts(w: World, j: Job)
    requires Valid(w) && GoodJob(w, j)
    ensures forall p :: p in JobPairs(j) ==>
      p.0 in j.want && p.1 in j.have && ItemKey(p.0) == ItemKey(p.1) && !p.1.spec.Pool?
  {
    PairedFacts(j.want, Index(j.have, ItemKey), ItemKey);
    hide Paired;
    hide Index;
    hide Valid;
    hide KeyOf;
  }

  lemma JobPairsDistinct(w: World, j: Job)
    requires Valid(w) && GoodJob(w, j) && ClearJob(w.subnets, j)
    ensures Distinct(JobPairs(j), PairTarget)
  {
    if j.kind != KMember {
      var m := Index(j.have, ItemKey);
      PairedFacts(j.want, m, ItemKey);
      JobPairsFacts(w, j);
      hide Paired;
      hide Index;
      hide KeyOf;
      var ps := JobPairs(j);
      forall a, b | 0 <= a < b < |ps|
        ensures ps[a].1.id != ps[b].1.id
      {
        assert ps[a] in ps && ps[b] in ps;
        assert ItemKey(ps[a].1) != ItemKey(ps[b].1);
        if ps[a].1.id == ps[b].1.id {
          SameId(w.items, ps[a].1, ps[b].1);
        }
      }
    }
  }

  ghost predicate GoodJobs(w: World, jobs: seq<Job>) {
    Distinct(jobs, JobId) && forall j :: j in jobs ==> GoodJob(w, j)
  }

  ghost predicate ClearJobs(subnets: map<string, Subnet>, jobs: seq<Job>) {
    forall j :: j in jobs ==> ClearJob(subnets, j)
  }

  lemma JobsApart(w: World, i: Job, j: Job, p: (Item, Item), q: (Item, Item))
    requires Valid(w) && GoodJob(w, i) && GoodJob(w, j) && JobId(i) != JobId(j)
    requires p in JobPairs(i) && q in JobPairs(j)
    ensures p.1.id != q.1.id
  {
    JobPairsFacts(w, i);
    JobPairsFacts(w, j);
    hide Matched;
    if p.1.id == q.1.id {
      SameId(w.items, p.1, q.1);
    }
  }

  lemma GoodJobsInit(w: World, init: seq<Job>, j: Job)
    requires GoodJobs(w, init + [j])
    ensures GoodJobs(w, init) && GoodJob(w, j)
    ensures forall i :: i in init ==> JobId(i) != JobId(j)
  {
    var jobs := init + [j];
    hide GoodJob;
    assert forall i :: i in jobs <==> i in init || i == j;
    assert forall k :: 0 <= k < |init| ==> jobs[k] == init[k];
    assert jobs[|init|] == j;
  }

  /** Every resource is updated for one pair only. */
  lemma {:induction false} PairsDistinct(w: World, jobs: seq<Job>)
    requires Valid(w) && GoodJobs(w, jobs) && ClearJobs(w.subnets, jobs)
    ensures Distinct(Pairs(jobs), PairTarget)
  {
    if jobs == [] {
      assert Pairs(jobs) == [];
    } else {
      var init, j := jobs[..|jobs| - 1], jobs[|jobs| - 1];
      assert jobs == init + [j];
      GoodJobsInit(w, init, j);
      PairsDistinct(w, init);
      FlatLast(init, j, JobPairs);
      FlatMember(init, JobPairs);
      assert j in jobs;
      JobPairsDistinct(w, j);
      hide Flat;
      hide Valid;
      hide GoodJob;
      hide ClearJob;
      hide Matched;
      forall p, q | p in Pairs(init) && q in JobPairs(j)
        ensures p.1.id != q.1.id
      {
        var i :| i in init && p in JobPairs(i);
        JobsApart(w, i, j, p, q);
      }
      DistinctConcat(Pairs(init), JobPairs(j), PairTarget);
    }
  }

  lemma PairsIn(w: World, jobs: seq<Job>)
    requires Valid(w) && GoodJobs(w, jobs)
    ensures forall p :: p in Pairs(jobs) <==> exists j :: j in jobs && p in JobPairs(j)
    ensures forall p :: p in Pairs(jobs) ==> p.1 in w.items && !p.1.spec.Pool?
  {
    FlatMember(jobs, JobPairs);
    hide Flat;
    forall j, p | j in jobs && p in JobPairs(j)
      ensures p.1 in w.items && !p.1.spec.Pool?
    {
      JobPairsFacts(w, j);
    }
  }

  /** Among the updates of all pairs, those of its own pair are the ones that reach a resource. */
  lemma OtherTargets(p: (Item, Item), i: Item)
    requires p.1.id != i.id
    ensures forall a :: a in PairUpdates(p) ==> !IsUpdate(a) || a.id != i.id
  {
    hide PairUpdates;
    hide Revise;
    PairTargets(p);
  }

  lemma {:induction false} OwnPairOnly(pairs: seq<(Item, Item)>, p: (Item, Item))
    requires Distinct(pairs, PairTarget) && p in pairs
    ensures RevisedBy(p.1, Flat(pairs, Update)) == RevisedBy(p.1, PairUpdates(p))
  {
    hide PairUpdates;
    hide RevisedBy;
    hide Flat;
    var init, q := pairs[..|pairs| - 1], pairs[|pairs| - 1];
    assert pairs == init + [q];
    FlatLast(init, q, Update);
    RevisedByConcat(p.1, Flat(init, Update), PairUpdates(q));
    assert forall x :: x in init ==> PairTarget(x) != PairTarget(q);
    if p == q {
      OtherPairs(init, p.1);
    } else {
      OwnPairOnly(init, p);
      OtherTargets(q, p.1);
      RevisedByFacts(p.1, PairUpdates(p));
      RevisedByOthers(RevisedBy(p.1, PairUpdates(p)), PairUpdates(q));
    }
  }

  lemma OtherPairs(pairs: seq<(Item, Item)>, i: Item)
    requires forall p :: p in pairs ==> p.1.id != i.id
    ensures RevisedBy(i, Flat(pairs, Update)) == i
  {
    hide PairUpdates;
    hide RevisedBy;
    FlatMember(pairs, Update);
    hide Flat;
    forall p, a | p in pairs && a in PairUpdates(p)
      ensures !IsUpdate(a) || a.id != i.id
    {
      OtherTargets(p, i);
    }
    RevisedByOthers(i, Flat(pairs, Update));
  }

  // ---------------------------------------------------------------- the batch

  ghost function FinalBatch(opening: seq<Action>, pairs: seq<(Item, Item)>, assign: seq<string>, lb: Uuid): seq<Action> {
    opening + Flat(pairs, Update) + Map(assign, Assignment(lb))
  }

  /** An opening waits for, and renames, a load balancer the cloud has. */
  ghost predicate OpeningFor(w: World, opening: seq<Action>) {
    forall a :: a in opening ==> (a.AwaitLb? && a.status != "changing") || (a.RenameLb? && HasLb(w.lbs, a.id))
  }

  ghost predicate FipsKnown(fips: seq<Fip>, ips: seq<string>) {
    forall ip :: ip in ips ==> exists f :: f in fips && Address(f.network) == Address(ip)
  }

  lemma UpdateIsGentle(w: World, a: Action, i: Item)
    requires Updates(a, i) && i in w.items
    ensures IsUpdate(a) && Gentle(w, a)
  {
    hide Revise;
  }

  lemma UpdatesGentle(w: World, pairs: seq<(Item, Item)>)
    requires forall p :: p in pairs ==> p.1 in w.items
    ensures forall a :: a in Flat(pairs, Update) ==> IsUpdate(a) && Gentle(w, a)
  {
    FlatMember(pairs, Update);
    hide Flat;
    hide PairUpdates;
    hide Updates;
    hide Gentle;
    hide IsUpdate;
    forall p, a | p in pairs && a in PairUpdates(p)
      ensures IsUpdate(a) && Gentle(w, a)
    {
      PairTargets(p);
      UpdateIsGentle(w, a, p.1);
    }
  }

  lemma AssignmentsIn(ips: seq<string>, lb: Uuid)
    ensures forall a :: a in Map(ips, Assignment(lb)) ==> a.AssignFloatingIP? && a.lbId == lb && a.ip in ips
  {
    var b := Map(ips, Assignment(lb));
    assert forall k :: 0 <= k < |b| ==> b[k] == AssignFloatingIP(ips[k], lb);
  }

  lemma FinalGentle(w: World, opening: seq<Action>, pairs: seq<(Item, Item)>, assign: seq<string>, lb: Uuid)
    requires forall p :: p in pairs ==> p.1 in w.items
    requires OpeningFor(w, opening) && HasLb(w.lbs, lb) && FipsKnown(w.fips, assign)
    ensures forall a :: a in FinalBatch(opening, pairs, assign, lb) ==> Gentle(w, a)
  {
    UpdatesGentle(w, pairs);
    AssignmentsIn(assign, lb);
    hide Flat;
    forall a | a in FinalBatch(opening, pairs, assign, lb)
      ensures Gentle(w, a)
    {
      if a in opening {
      } else if a in Flat(pairs, Update) {
      } else {
        assert a in Map(assign, Assignment(lb));
      }
    }
  }

  lemma FinalRuns(w: World, opening: seq<Action>, pairs: seq<(Item, Item)>, assign: seq<string>, lb: Uuid)
    requires forall p :: p in pairs ==> p.1 in w.items
    requires OpeningFor(w, opening) && HasLb(w.lbs, lb) && FipsKnown(w.fips, assign)
    ensures
      var b := FinalBatch(opening, pairs, assign, lb);
      Exec(w, b) == Ran(GentleResult(w, b), Finished)
  {
    FinalGentle(w, opening, pairs, assign, lb);
    hide *;
    ExecGentle(w, FinalBatch(opening, pairs, assign, lb));
  }

  /** What the whole batch does to a resource is what its updates do to it. */
  lemma FinalItem(w: World, opening: seq<Action>, pairs: seq<(Item, Item)>, assign: seq<string>, lb: Uuid, i: Item)
    requires OpeningFor(w, opening)
    ensures RevisedBy(i, FinalBatch(opening, pairs, assign, lb)) == RevisedBy(i, Flat(pairs, Update))
  {
    var updates, rest := Flat(pairs, Update), Map(assign, Assignment(lb));
    hide Flat;
    RevisedByConcat(i, opening + updates, rest);
    RevisedByConcat(i, opening, updates);
    RevisedByOthers(i, opening);
    AssignmentsIn(assign, lb);
    hide RevisedBy;
    RevisedByOthers(RevisedBy(i, updates), rest);
  }

  // ---------------------------------------------------------------- listings after the batch

  lemma MapLast<A, B>(s: seq<A>, x: A, f: A -> B)
    ensures Map(s + [x], f) == Map(s, f) + [f(x)]
  {
  }

  lemma {:induction false} FilterMap<T(!new)>(s: seq<T>, f: T -> T, p: T -> bool)
    requires forall x :: x in s ==> p(f(x)) == p(x)
    ensures Filter(Map(s, f), p) == Map(Filter(s, p), f)
  {
    hide Filter;
    hide Map;
    if s == [] {
      NothingMapped(f, p);
    } else {
      var init, x := s[..|s| - 1], s[|s| - 1];
      assert s == init + [x];
      FilterMap(init, f, p);
      MapLast(init, x, f);
      FilterLast(Map(init, f), f(x), p);
      FilterLast(init, x, p);
      if p(x) {
        MapLast(Filter(init, p), x, f);
      } else {
        assert Filter(init, p) + [] == Filter(init, p);
      }
    }
  }

  lemma NothingMapped<T(!new)>(f: T -> T, p: T -> bool)
    ensures Filter(Map([], f), p) == [] && Map(Filter([], p), f) == []
  {
    NonEmpty(Filter([], p));
    assert Map([], f) == [];
  }

  lemma ChildrenRevised(items: seq<Item>, b: seq<Action>, owner: Owner, kind: Kind)
    ensures Children(Map(items, RevisionBy(b)), owner, kind) == Map(Children(items, owner, kind), RevisionBy(b))
  {
    forall i | i in items
      ensures IsChild(RevisedBy(i, b), owner, kind) == IsChild(i, owner, kind)
    {
      RevisedByFacts(i, b);
    }
    hide RevisedBy;
    FilterMap(items, RevisionBy(b), i => IsChild(i, owner, kind));
  }

  lemma {:induction false} IndexRevised(s: seq<Item>, b: seq<Action>)
    ensures Index(Map(s, RevisionBy(b)), ItemKey).Keys == Index(s, ItemKey).Keys
    ensures forall k :: k in Index(s, ItemKey) ==>
      k in Index(Map(s, RevisionBy(b)), ItemKey)
      && Index(Map(s, RevisionBy(b)), ItemKey)[k] == RevisedBy(Index(s, ItemKey)[k], b)
  {
    if s != [] {
      var n := |s| - 1;
      var t := Map(s, RevisionBy(b));
      IndexRevised(s[..n], b);
      RevisedByFacts(s[n], b);
      hide RevisedBy;
      assert t[..n] == Map(s[..n], RevisionBy(b));
      assert t[n] == RevisedBy(s[n], b);
    }
  }

  lemma {:induction false} PairedRevised(xs: seq<Item>, m: map<Key, Item>, m1: map<Key, Item>, b: seq<Action>)
    requires m1.Keys == m.Keys && forall k :: k in m ==> m1[k] == RevisedBy(m[k], b)
    ensures Paired(xs, m1, ItemKey) == Map(Paired(xs, m, ItemKey), (p: (Item, Item)) => (p.0, RevisedBy(p.1, b)))
  {
    var f := (p: (Item, Item)) => (p.0, RevisedBy(p.1, b));
    hide RevisedBy;
    if xs != [] {
      var n := |xs| - 1;
      PairedRevised(xs[..n], m, m1, b);
      MapConcat(Paired(xs[..n], m, ItemKey), if ItemKey(xs[n]) in m then [(xs[n], m[ItemKey(xs[n])])] else [], f);
    }
  }

  /** The pairs of a comparison after the batch are its pairs before it, with the actual sides revised. */
  lemma JobPairsRevised(j: Job, b: seq<Action>)
    ensures
      var j1 := j.(have := Map(j.have, RevisionBy(b)));
      && KeySet(j1.have, ItemKey) == KeySet(j.have, ItemKey)
      && JobPairs(j1) == Map(JobPairs(j), (p: (Item, Item)) => (p.0, RevisedBy(p.1, b)))
  {
    var have1 := Map(j.have, RevisionBy(b));
    IndexRevised(j.have, b);
    assert KeySet(have1, ItemKey) == Index(have1, ItemKey).Keys;
    hide RevisedBy;
    hide Index;
    hide Paired;
    PairedRevised(j.want, Index(j.have, ItemKey), Index(have1, ItemKey), b);
  }

  // ---------------------------------------------------------------- settled clouds

  /** A pool has the desired keys, and its matched listeners and monitors agree in every compared field. */
  ghost predicate SettledJob(j: Job) {
    && KeySet(j.want, ItemKey) == KeySet(j.have, ItemKey)
    && forall p :: p in JobPairs(j) ==> Agree(p.0.spec, p.1.spec)
  }

  ghost predicate SettledPool(items: seq<Item>, n: PoolNode, p: Item) {
    forall j :: j in RepJobs(n, items, p) ==> SettledJob(j)
  }

  ghost predicate FipsSettled(fips: seq<Fip>, ips: seq<string>, lb: Uuid) {
    forall ip :: ip in ips ==> exists f :: f in fips && Address(f.network) == Address(ip) && f.lb == Some(lb)
  }

  /** The cloud is what the service asks for: the load balancer has the desired name and the desired
      pool keys, the pool of each desired name is settled, and the desired floating IPs are on it. */
  ghost predicate Settled(w: World, lb: Lb, d: State) {
    && d.lb.Some? && lb.name == d.lb.value.name
    && KeySet(d.pools, NodeKey) == KeySet(PoolsOf(w.items, lb.id), ItemKey)
    && HasReps(d.pools, w.items, lb.id)
    && (forall n :: n in d.pools ==> SettledPool(w.items, n, Rep(w.items, lb.id, NodeName(n))))
    && FipsSettled(w.fips, d.floatingIPs, lb.id)
  }

  lemma SettledFips(w: World, l: Lb, d: State)
    requires Settled(w, l, d)
    ensures FipsSettled(w.fips, d.floatingIPs, l.id)
  {
    hide KeyOf;
    hide SettledPool;
    hide FipsSettled;
  }

  lemma SettledJobs(w: World, lb: Uuid, ds: seq<PoolNode>)
    requires HasReps(ds, w.items, lb)
    ensures (forall n :: n in ds ==> SettledPool(w.items, n, Rep(w.items, lb, NodeName(n))))
       <==> (forall j :: j in Jobs(ds, NodesOf(w.items, lb)) ==> SettledJob(j))
  {
    hide SettledJob;
    hide Jobs;
    hide Rep;
    hide RepJobs;
    hide NodesOf;
    forall j
      ensures j in Jobs(ds, NodesOf(w.items, lb))
         <==> exists n :: n in ds && j in RepJobs(n, w.items, Rep(w.items, lb, NodeName(n)))
    {
      JobIn(ds, w.items, lb, j);
    }
  }

  /** After its batch, a comparison without missing or undesired keys is settled. */
  lemma JobSettles(w: World, opening: seq<Action>, jobs: seq<Job>, assign: seq<string>, lb: Uuid, j: Job)
    requires Valid(w) && GoodJobs(w, jobs) && ClearJobs(w.subnets, jobs) && j in jobs && OpeningFor(w, opening)
    requires KeySet(j.want, ItemKey) == KeySet(j.have, ItemKey)
    ensures
      var b := FinalBatch(opening, Pairs(jobs), assign, lb);
      SettledJob(Relisted(Map(w.items, RevisionBy(b)))(j))
  {
    var b := FinalBatch(opening, Pairs(jobs), assign, lb);
    var j1 := Relisted(Map(w.items, RevisionBy(b)))(j);
    assert j1 == j.(have := Map(j.have, RevisionBy(b))) by {
      ChildrenRevised(w.items, b, InPool(j.pool), j.kind);
    }
    JobPairsRevised(j, b);
    PairsDistinct(w, jobs);
    PairsIn(w, jobs);
    hide RevisedBy;
    hide FinalBatch;
    hide Pairs;
    hide GoodJobs;
    hide Valid;
    hide Paired;
    forall q | q in JobPairs(j1)
      ensures Agree(q.0.spec, q.1.spec)
    {
      var k :| 0 <= k < |JobPairs(j1)| && JobPairs(j1)[k] == q;
      var p := JobPairs(j)[k];
      assert p in JobPairs(j);
      assert p in Pairs(jobs);
      OwnPairOnly(Pairs(jobs), p);
      FinalItem(w, opening, Pairs(jobs), assign, lb, p.1);
      PairDone(p);
    }
  }
}
