/** In which order the actions of a batch come, and what that makes impossible. */
module BatchOrder {
  import opened Seqs
  import opened Domain
  import opened CloudWorld
  import opened Effects
  import opened Planner
  import opened Rounds
  import opened ChildRounds
  import opened PoolRounds
  import opened Convergence
  import opened Settling

  predicate Deletes(b: seq<Action>, k: nat, id: Uuid) {
    k < |b| && b[k] == DeleteResource(id)
  }

  predicate CreatesIn(b: seq<Action>, k: nat, pool: Uuid) {
    k < |b| && CreatesInPool(b[k]) && Creation(b[k]).value.0.pool == pool
  }

  /** Nothing is deleted twice, nor after the pool it is in; a pool is deleted after its members; and
      nothing is created in a pool the cloud does not have, or that the batch deletes, before or after. */
  ghost predicate WellOrdered(w: World, b: seq<Action>) {
    && (forall i: nat, j: nat, id :: Deletes(b, i, id) && Deletes(b, j, id) ==> i == j)
    && (forall j: nat, m :: m in w.items && Deletes(b, j, m.id) && m.owner.InPool? ==>
          forall i: nat :: i < j ==> !Deletes(b, i, m.owner.pool))
    && (forall j: nat, m :: m in w.items && m.spec.Member? && m.owner.InPool? && Deletes(b, j, m.owner.pool) ==>
          exists i: nat :: i < j && Deletes(b, i, m.id))
    && (forall k: nat, p :: CreatesIn(b, k, p) ==> HasPool(w.items, p) && forall j: nat :: !Deletes(b, j, p))
    && forall j: nat, id :: Deletes(b, j, id) ==> exists i :: i in w.items && i.id == id
  }

  lemma DeletedBefore(b: seq<Action>, j: nat, id: Uuid)
    requires j <= |b|
    ensures id in Dels(b[..j]) <==> exists i: nat :: i < j && Deletes(b, i, id)
  {
    if id in Dels(b[..j]) {
      var a :| a in b[..j] && a.DeleteResource? && a.id == id;
      var i: nat :| i < j && b[i] == a;
      assert Deletes(b, i, id);
    }
    if i: nat :| i < j && Deletes(b, i, id) {
      assert b[i] in b[..j];
    }
  }

  lemma CreatedBefore(b: seq<Action>, j: nat, k: nat, p: Uuid)
    requires j <= |b| && k < j && CreatesIn(b, k, p)
    ensures p in Busy(b[..j])
  {
    assert b[k] in b[..j];
  }

  lemma AllowedAt(w: World, b: seq<Action>, k: nat)
    requires Sound(w, {}, {}, b) && k < |b|
    ensures Allowed(w, Dels(b[..k]), Busy(b[..k]), b[k])
  {
    hide Allowed;
    assert {} + Dels(b[..k]) == Dels(b[..k]) && {} + Busy(b[..k]) == Busy(b[..k]);
  }

  lemma DeleteFacts(w: World, b: seq<Action>, j: nat, id: Uuid)
    requires Valid(w) && Sound(w, {}, {}, b) && Deletes(b, j, id)
    ensures forall i: nat :: i < j ==> !Deletes(b, i, id)
    ensures forall m, i: nat :: m in w.items && m.id == id && m.owner.InPool? && i < j ==> !Deletes(b, i, m.owner.pool)
    ensures forall m :: m in w.items && m.spec.Member? && m.owner == InPool(id) ==> exists i: nat :: i < j && Deletes(b, i, m.id)
    ensures exists i :: i in w.items && i.id == id
    ensures forall k: nat :: k < j ==> !CreatesIn(b, k, id)
  {
    AllowedAt(w, b, j);
    hide Sound;
    var x :| x in w.items && x.id == id && Stays(x, Dels(b[..j]));
    DeletedBefore(b, j, id);
    forall m, i: nat | m in w.items && m.id == id && m.owner.InPool? && i < j
      ensures !Deletes(b, i, m.owner.pool)
    {
      SameId(w.items, m, x);
      DeletedBefore(b, j, m.owner.pool);
    }
    forall m | m in w.items && m.spec.Member? && m.owner == InPool(id)
      ensures exists i: nat :: i < j && Deletes(b, i, m.id)
    {
      DeletedBefore(b, j, m.id);
    }
    forall k: nat | k < j
      ensures !CreatesIn(b, k, id)
    {
      if CreatesIn(b, k, id) { CreatedBefore(b, j, k, id); }
    }
  }

  lemma CreateFacts(w: World, b: seq<Action>, k: nat, p: Uuid)
    requires Valid(w) && Sound(w, {}, {}, b) && CreatesIn(b, k, p)
    ensures HasPool(w.items, p) && forall j: nat :: !Deletes(b, j, p)
  {
    AllowedAt(w, b, k);
    DeletedBefore(b, k, p);
    hide Sound;
    hide Dels;
    hide Busy;
    forall j: nat
      ensures !Deletes(b, j, p)
    {
      if Deletes(b, j, p) && k < j {
        hide Allowed;
        DeleteFacts(w, b, j, p);
      }
    }
  }

  /** Every sound batch is well ordered. */
  lemma SoundIsOrdered(w: World, b: seq<Action>)
    requires Valid(w) && Sound(w, {}, {}, b)
    ensures WellOrdered(w, b)
  {
    hide Sound;
    hide Valid;
    hide CreatesIn;
    forall j: nat, id | Deletes(b, j, id)
      ensures forall i: nat :: i < j ==> !Deletes(b, i, id)
      ensures forall m, i: nat :: m in w.items && m.id == id && m.owner.InPool? && i < j ==> !Deletes(b, i, m.owner.pool)
      ensures forall m :: m in w.items && m.spec.Member? && m.owner == InPool(id) ==> exists i: nat :: i < j && Deletes(b, i, m.id)
      ensures exists i :: i in w.items && i.id == id
    {
      DeleteFacts(w, b, j, id);
    }
    forall k: nat, p | CreatesIn(b, k, p)
      ensures HasPool(w.items, p) && forall j: nat :: !Deletes(b, j, p)
    {
      CreateFacts(w, b, k, p);
    }
    forall i: nat, j: nat, id | Deletes(b, i, id) && Deletes(b, j, id)
      ensures i == j
    {
      assert !(i < j) && !(j < i);
    }
    forall j: nat, m | m in w.items && m.spec.Member? && m.owner.InPool? && Deletes(b, j, m.owner.pool)
      ensures exists i: nat :: i < j && Deletes(b, i, m.id)
    {
      assert m.owner == InPool(m.owner.pool);
    }
  }

  /** Whatever is desired, in pools with different names, and whatever the cloud will refuse: every batch
      that deletes or creates anything is well ordered up to the refetch that ends it. */
  lemma RoundIsOrdered(w: World, d: State, l: Lb, status: string, c: Choice)
    requires PlanOf(w, d, l, status, c) && !LastPhase(c)
    ensures
      var b := Plan(d, Snapshot(w, Some(l), status), c);
      b != [] && b[|b| - 1] == Refetch && WellOrdered(w, b[..|b| - 1])
  {
    var o, b := OpeningOf(d, l, status), Plan(d, Snapshot(w, Some(l), status), c);
    if PoolPhase(c) {
      var steps := PoolSteps(l.id, c.poolDel, c.poolCre);
      RoundPoolPlan(w, d, l, status, c);
      hide PoolSteps;
      hide Possible;
      hide Sound;
      assert b == o + steps + [Refetch];
      assert b[..|b| - 1] == o + steps;
      PoolBatchSound(w, l.id, o, d.pools, c.poolDel, c.poolCre);
      hide WellOrdered;
      SoundIsOrdered(w, o + steps);
    } else {
      var steps := Flat(c.diffs, JobSteps);
      RoundChildPlan(w, d, l, status, c);
      hide Flat;
      hide Possible;
      hide Sound;
      assert b == o + steps + [Refetch];
      assert b[..|b| - 1] == o + steps;
      ChildBatchSound(w, o, c.diffs);
      hide WellOrdered;
      SoundIsOrdered(w, o + steps);
    }
  }

  // ---------------------------------------------------------------- phases

  predicate Revises(a: Action) {
    IsUpdate(a) || a.AssignFloatingIP?
  }

  lemma PoolStepsReviseNothing(lb: Uuid, del: seq<PoolNode>, cre: seq<PoolNode>)
    ensures forall a :: a in PoolSteps(lb, del, cre) ==> !Revises(a)
  {
    FlatMember(del, PoolRemoval);
    forall n, a | n in del && a in PoolRemoval(n)
      ensures !Revises(a)
    {
      FlatMember(n.members + [n.pool], Deletion);
    }
    hide Flat;
    var cs := Map(cre, PoolCreation(lb));
    assert forall k :: 0 <= k < |cs| ==> cs[k].CreatePool?;
  }

  lemma CreateInRevisesNothing(pool: Uuid, kind: Kind, i: Item)
    ensures !Revises(CreateIn(pool, kind, i))
  {
  }

  lemma JobRevisesNothing(x: JobDiff, a: Action)
    requires a in JobSteps(x)
    ensures !Revises(a)
  {
    FlatMember(x.del, Deletion);
    hide Flat;
    hide CreateIn;
    var cs := Map(x.cre, CreationIn(x.job.pool, x.job.kind));
    forall k | 0 <= k < |cs|
      ensures !Revises(cs[k])
    {
      CreateInRevisesNothing(x.job.pool, x.job.kind, x.cre[k]);
    }
  }

  lemma JobsReviseNothing(diffs: seq<JobDiff>)
    ensures forall a :: a in Flat(diffs, JobSteps) ==> !Revises(a)
  {
    FlatMember(diffs, JobSteps);
    hide Flat;
    forall x, a | x in diffs && a in JobSteps(x)
      ensures !Revises(a)
    {
      JobRevisesNothing(x, a);
    }
  }

  lemma RevisesInLastPhase(d: State, s: State, c: Choice, a: Action)
    requires d.lb.Some? && s.lb.Some? && a in Plan(d, s, c) && Revises(a)
    ensures LastPhase(c)
  {
    PoolStepsReviseNothing(s.lb.value.id, c.poolDel, c.poolCre);
    JobsReviseNothing(c.diffs);
    hide Flat;
    hide PoolSteps;
    hide Jobs;
    hide Pairs;
  }

  /** Whatever the two states are: a resource is updated in place, or a floating IP assigned, only by a plan
      that has seen the desired keys everywhere, of the pools, and of the members, listeners and monitors
      of each of them. */
  lemma UpdatesComeLast(d: State, s: State, c: Choice, a: Action)
    requires Possible(d, s, c) && a in Plan(d, s, c) && Revises(a)
    ensures d.lb.Some? && s.lb.Some? && SamePools(d, s)
    ensures forall j :: j in Jobs(d.pools, s.pools) ==> KeySet(j.want, ItemKey) == KeySet(j.have, ItemKey)
  {
    hide Possible;
    hide SamePools;
    hide Jobs;
    hide PoolSteps;
    hide Flat;
    hide Pairs;
    assert d.lb.Some? && s.lb.Some?;
    hide Plan;
    RevisesInLastPhase(d, s, c, a);
    hide LastPhase;
    PlanKeys(d, s, c);
  }
}
