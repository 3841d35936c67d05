/** When a run can end at all: only if the cloud reports the desired members back as they were requested. */
module Endings {
  import opened Seqs
  import opened Compare
  import opened Domain
  import opened CloudWorld
  import opened Planner
  import opened Lookup
  import opened Rounds
  import opened ChildRounds
  import opened Settling
  import opened Runs

  // ---------------------------------------------------------------- members as the cloud reports them

  predicate Reported(subnets: map<string, Subnet>, s: Spec) {
    s.Member? ==> s.enabled && s.subnet.uuid in subnets && s.subnet == subnets[s.subnet.uuid]
  }

  /** All members are enabled, and their subnets are reported as the cloud knows them. */
  ghost predicate AllReported(w: World) {
    && (forall i :: i in w.items ==> Reported(w.subnets, i.spec))
    && forall u :: u in w.subnets ==> w.subnets[u].uuid == u
  }

  lemma StoredReported(subnets: map<string, Subnet>, s: Spec)
    requires Known(subnets, s) && forall u :: u in subnets ==> subnets[u].uuid == u
    ensures Reported(subnets, Stored(subnets, s))
  {
  }

  lemma RevisedReported(subnets: map<string, Subnet>, i: Item, a: Action)
    requires Reported(subnets, i.spec)
    ensures Reported(subnets, Revised(i, a).spec)
  {
  }

  /** The cloud never stores a member otherwise. */
  lemma ApplyReported(w: World, a: Action)
    requires AllReported(w) && Apply(w, a).Proceed?
    ensures AllReported(Apply(w, a).world)
  {
    hide Stored;
    hide Revised;
    hide Renamed;
    var w1 := Apply(w, a).world;
    if IsUpdate(a) {
      forall i | i in w1.items
        ensures Reported(w.subnets, i.spec)
      {
        var k :| 0 <= k < |w1.items| && w1.items[k] == i;
        assert w.items[k] in w.items;
        RevisedReported(w.subnets, w.items[k], a);
      }
    } else if Creation(a).Some? {
      StoredReported(w.subnets, Creation(a).value.1);
    }
  }

  lemma {:induction false} ExecReported(w: World, b: seq<Action>)
    requires AllReported(w)
    ensures AllReported(Exec(w, b).world)
    decreases |b|
  {
    if b != [] && Apply(w, b[0]).Proceed? {
      ApplyReported(w, b[0]);
      hide Apply;
      hide AllReported;
      ExecReported(Apply(w, b[0]).world, b[1..]);
    }
  }

  lemma {:induction false} AfterReported(w: World, q: Query, turns: seq<Turn>)
    requires AllReported(w)
    ensures AllReported(After(w, q, turns))
  {
    hide AllReported;
    hide Batch;
    hide Exec;
    if turns != [] {
      var init := turns[..|turns| - 1];
      AfterReported(w, q, init);
      ExecReported(After(w, q, init), Batch(After(w, q, init), q, turns[|turns| - 1]));
    }
  }

  // ---------------------------------------------------------------- the turn that ends a run

  lemma RefetchNeverFinishes(w: World, b: seq<Action>)
    ensures Exec(w, b + [Refetch]).control != Finished
  {
    ExecConcat(w, b, [Refetch]);
    hide Apply;
    assert Apply(Exec(w, b).world, Refetch) == Refresh by { RefetchRefreshes(Exec(w, b).world); }
  }

  lemma RefetchRefreshes(w: World)
    ensures Apply(w, Refetch) == Refresh
  {
  }

  /** A turn that ends a run has found the desired keys in every pool. */
  lemma FinishedKeys(w: World, d: State, l: Lb, status: string, c: Choice)
    requires d.lb.Some? && Possible(d, Snapshot(w, Some(l), status), c)
    requires Exec(w, Plan(d, Snapshot(w, Some(l), status), c)).control == Finished
    ensures Resolves(d.pools, NodesOf(w.items, l.id))
    ensures forall j :: j in Jobs(d.pools, NodesOf(w.items, l.id)) ==> KeySet(j.want, ItemKey) == KeySet(j.have, ItemKey)
  {
    var o := Opening(d.lb.value, status, l);
    hide Opening;
    hide Jobs;
    hide NodesOf;
    hide Flat;
    hide PoolSteps;
    hide Exec;
    hide IsDiff;
    hide Resolves;
    RefetchNeverFinishes(w, o + PoolSteps(l.id, c.poolDel, c.poolCre));
    RefetchNeverFinishes(w, o + Flat(c.diffs, JobSteps));
    assert LastPhase(c);
    hide Plan;
    hide LastPhase;
    PlanKeys(d, Snapshot(w, Some(l), status), c);
  }

  lemma ReportedKey(subnets: map<string, Subnet>, i: Item, m: Item)
    requires Reported(subnets, i.spec) && i.spec.Member? && ItemKey(i) == ItemKey(m)
    ensures Faithful(subnets, m.spec)
  {
  }

  lemma FirstJob(n: PoolNode, items: seq<Item>, p: Item) returns (j: Job)
    ensures j in RepJobs(n, items, p) && j.want == n.members
    ensures forall i :: i in j.have ==> i in items && i.spec.Member?
  {
    j := Job(p.id, KMember, n.members, Children(items, InPool(p.id), KMember));
    assert RepJobs(n, items, p)[0] == j;
  }

  lemma MembersJob(d: State, items: seq<Item>, lb: Uuid, n: PoolNode) returns (j: Job)
    requires n in d.pools && HasReps(d.pools, items, lb)
    ensures j in Jobs(d.pools, NodesOf(items, lb)) && j.want == n.members
    ensures forall i :: i in j.have ==> i in items && i.spec.Member?
  {
    hide RepJobs;
    hide Jobs;
    hide Index;
    hide NodesOf;
    hide PoolsOf;
    j := FirstJob(n, items, Rep(items, lb, NodeName(n)));
    JobIn(d.pools, items, lb, j);
  }

  /** No turn ends a run while a member is desired that the cloud would not report back as requested: it is
      deleted and created again, for ever. */
  lemma EndsOnlyIfFaithful(w: World, q: Query, t: Turn, n: PoolNode, m: Item)
    requires AllReported(w) && Planned(w, q, t) && FoundIn(w, q).Some? && t.desired.lb.Some?
    requires TurnResult(w, q, t).control == Finished
    requires n in t.desired.pools && m in n.members
    ensures Faithful(w.subnets, m.spec)
  {
    var d, l := t.desired, FoundIn(w, q).value;
    assert Seen(w, q, t) == Snapshot(w, Some(l), t.status);
    FinishedKeys(w, d, l, t.status, t.choice);
    ResolvesReps(d.pools, w.items, l.id);
    var j := MembersJob(d, w.items, l.id, n);
    hide Jobs;
    hide NodesOf;
    hide Plan;
    hide Possible;
    hide KeyOf;
    hide Faithful;
    assert ItemKey(m) in KeySet(j.want, ItemKey);
    var i :| i in j.have && ItemKey(i) == ItemKey(m);
    ReportedKey(w.subnets, i, m);
  }

  /** The same for the turn that ends a whole run. */
  lemma RunEndsOnlyIfFaithful(w: World, q: Query, turns: seq<Turn>, t: Turn, n: PoolNode, m: Item)
    requires AllReported(w) && Planned(After(w, q, turns), q, t)
    requires FoundIn(After(w, q, turns), q).Some? && t.desired.lb.Some?
    requires TurnResult(After(w, q, turns), q, t).control == Finished
    requires n in t.desired.pools && m in n.members
    ensures Faithful(After(w, q, turns).subnets, m.spec)
  {
    AfterReported(w, q, turns);
    hide AllReported;
    hide Planned;
    hide TurnResult;
    hide Faithful;
    hide FoundIn;
    hide After;
    EndsOnlyIfFaithful(After(w, q, turns), q, t, n, m);
  }
}
