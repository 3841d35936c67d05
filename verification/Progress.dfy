/** Runs for a wanted load balancer: every turn makes progress, and there are few of them. */
module Progress {
  import opened Seqs
  import opened Domain
  import opened CloudWorld
  import opened Validity
  import opened Planner
  import opened Lookup
  import opened Rounds
  import opened Gaps
  import opened UpdateRounds
  import opened FinalRounds
  import opened Convergence
  import opened Settling
  import opened Frames
  import opened PlanLocality
  import opened Runs

  /** A turn of a run for a state the reconciler can reach. */
  ghost predicate GoodTurn(w: World, q: Query, t: Turn) {
    Valid(w) && Planned(w, q, t) && Wanted(w, q, t.desired)
  }

  ghost predicate Creates(w: World, q: Query) {
    FoundIn(w, q).None?
  }

  /** While its load balancer is changing, a turn does nothing but wait. */
  lemma ChangingWaits(w: World, q: Query, t: Turn)
    requires Planned(w, q, t) && FoundIn(w, q).Some? && t.status == "changing"
    ensures TurnResult(w, q, t) == Ran(w, MustRefetch)
  {
    hide PoolSteps;
    hide Flat;
    hide Jobs;
    hide NodesOf;
    hide Possible;
    hide Refuses;
    var b := Batch(w, q, t);
    assert b[0] == AwaitLb(t.status);
  }

  lemma IsRound(w: World, q: Query, t: Turn)
    requires GoodTurn(w, q, t) && FoundIn(w, q).Some? && t.status != "changing"
    ensures RoundOf(w, q, t.desired, FoundIn(w, q).value, t.status, t.choice)
    ensures TurnResult(w, q, t) == RoundResult(w, t.desired, FoundIn(w, q).value, t.status, t.choice)
  {
    hide Plan;
    hide Possible;
    hide Valid;
    hide SamePools;
    hide Resolves;
    var d, l := t.desired, FoundIn(w, q).value;
    assert FindByServiceInfo(w.lbs, q) == Success(Some(l));
    assert Seen(w, q, t) == Snapshot(w, Some(l), t.status) && Seen(w, q, t).lb == Some(l);
    assert LbRefusal(d.lb.value, l).None?;
  }

  lemma CreateTurn(w: World, q: Query, t: Turn)
    requires Planned(w, q, t) && t.desired.lb.Some? && Creates(w, q)
    ensures TurnResult(w, q, t) == Ran(Apply(w, CreateLb(t.desired.lb.value)).world, MustRefetch)
  {
    var lb := t.desired.lb.value;
    assert [CreateLb(lb)] + [Refetch] == Batch(w, q, t);
    ExecOne(w, CreateLb(lb));
    hide Batch;
    RefetchEnds(w, [CreateLb(lb)]);
  }

  /** A turn for a wanted load balancer that ends the run has found it, and it is found afterwards. */
  lemma FinishedFound(w: World, q: Query, t: Turn)
    requires Planned(w, q, t) && t.desired.lb.Some? && TurnResult(w, q, t).control == Finished
    ensures FoundIn(w, q).Some?
  {
    if FoundIn(w, q).None? {
      CreateTurn(w, q, t);
    }
    hide TurnResult;
  }

  lemma FinishedFinds(w: World, q: Query, t: Turn, ips: set<string>)
    requires Valid(w) && Planned(w, q, t) && Consistent(q, false, ips, t) && TurnResult(w, q, t).control == Finished
    ensures FoundIn(TurnResult(w, q, t).world, q).Some?
  {
    assert t.desired.lb.Some?;
    hide Planned;
    hide Batch;
    hide FoundIn;
    hide Valid;
    FinishedFound(w, q, t);
    hide Consistent;
    WholeTurn(w, q, t);
    TurnKeepsLb(w, q, t, |Batch(w, q, t)|, ips);
  }

  /** If there is a load balancer, it suits. */
  ghost predicate FoundSuits(w: World, q: Query, d: State) {
    FoundIn(w, q).Some? ==> d.lb.Some? && Suits(d.lb.value, FoundIn(w, q).value)
  }

  /** And the load balancer it ends with has the addresses, the flavor and the zone that are desired. */
  lemma FinishedSuits(w: World, q: Query, t: Turn, ips: set<string>)
    requires Valid(w) && Planned(w, q, t) && Consistent(q, false, ips, t) && TurnResult(w, q, t).control == Finished
    ensures
      var w1 := TurnResult(w, q, t).world;
      t.desired.lb.Some? && FoundIn(w1, q).Some? && Suits(t.desired.lb.value, FoundIn(w1, q).value)
  {
    FinishedFinds(w, q, t, ips);
    assert t.desired.lb.Some?;
    FinishedFound(w, q, t);
    PlannedSuits(w, q, t);
    hide Planned;
    hide Batch;
    hide FoundIn;
    hide Valid;
    hide Consistent;
    WholeTurn(w, q, t);
    TurnKeepsLb(w, q, t, |Batch(w, q, t)|, ips);
  }

  lemma PlannedSuits(w: World, q: Query, t: Turn)
    requires Planned(w, q, t) && FoundIn(w, q).Some? && t.desired.lb.Some?
    ensures Suits(t.desired.lb.value, FoundIn(w, q).value)
  {
    RefusalExactly(t.desired.lb.value, FoundIn(w, q).value);
    hide LbRefusal;
    hide Suits;
    hide SamePools;
    hide Resolves;
    hide Possible;
    hide NodesOf;
    hide NetworksOf;
  }

  /** Any run for a wanted load balancer that ends leaves one with the desired addresses, flavor and zone: the one it
      found, unless it made it. */
  lemma RunSuits(w: World, q: Query, turns: seq<Turn>, t: Turn, ips: set<string>)
    requires Valid(w) && Ongoing(w, q, turns) && Planned(After(w, q, turns), q, t)
    requires Consistent(q, false, ips, t) && forall x :: x in turns ==> Consistent(q, false, ips, x)
    requires TurnResult(After(w, q, turns), q, t).control == Finished
    ensures
      var w1 := TurnResult(After(w, q, turns), q, t).world;
      t.desired.lb.Some? && FoundIn(w1, q).Some? && Suits(t.desired.lb.value, FoundIn(w1, q).value)
  {
    AfterFrame(w, q, turns, false, ips);
    hide After;
    hide Ongoing;
    hide Frame;
    hide Valid;
    hide Consistent;
    hide Planned;
    hide TurnResult;
    hide Suits;
    FinishedSuits(After(w, q, turns), q, t, ips);
  }

  lemma WantedStill(w: World, w1: World, q: Query, d: State)
    requires Wanted(w, q, d) && w1.subnets == w.subnets
    requires |w1.fips| == |w.fips| && forall k :: 0 <= k < |w.fips| ==> w1.fips[k].network == w.fips[k].network
    ensures Wanted(w1, q, d)
  {
    hide WantedNode;
    hide Address;
    forall ip | ip in d.floatingIPs
      ensures exists f :: f in w1.fips && Address(f.network) == Address(ip)
    {
      var f :| f in w.fips && Address(f.network) == Address(ip);
      var k :| 0 <= k < |w.fips| && w.fips[k] == f;
      assert w1.fips[k] in w1.fips;
    }
  }

  /** A turn that is not kept waiting runs to a refetch or to the end; the cloud refuses nothing. */
  lemma TurnAccepted(w: World, q: Query, t: Turn)
    requires GoodTurn(w, q, t)
    ensures TurnResult(w, q, t).control != Failed
    ensures Valid(TurnResult(w, q, t).world) && Wanted(TurnResult(w, q, t).world, q, t.desired)
  {
    var b := Batch(w, q, t);
    ExecValid(w, b);
    if Creates(w, q) {
      CreateTurn(w, q, t);
      WantedStill(w, TurnResult(w, q, t).world, q, t.desired);
    } else if t.status == "changing" {
      ChangingWaits(w, q, t);
    } else {
      var d, l, c := t.desired, FoundIn(w, q).value, t.choice;
      IsRound(w, q, t);
      RoundIsSent(w, q, d, l, t.status, c);
      hide Sent;
      hide WantedNode;
      hide GoodTurn;
      hide RoundOf;
      hide RoundResult;
      hide TurnResult;
      if PoolPhase(c) {
        PoolRound(w, d, l, t.status, c);
        WantedStillAfter(w, q, t);
      } else if ChildPhase(c) {
        ChildRound(w, d, l, t.status, c);
        WantedStillAfter(w, q, t);
      } else {
        LastRoundSettles(w, q, d, l, t.status, c);
        LastLbsAndFips(w, d, l, t.status, c);
        AssignedNetworks(w.fips, Map(c.assign, Assignment(l.id)));
        WantedStillAfter(w, q, t);
      }
    }
  }

  lemma WantedStillAfter(w: World, q: Query, t: Turn)
    requires GoodTurn(w, q, t)
    requires
      var w1 := TurnResult(w, q, t).world;
      && w1.subnets == w.subnets && |w1.fips| == |w.fips|
      && forall k :: 0 <= k < |w.fips| ==> w1.fips[k].network == w.fips[k].network
    ensures Wanted(TurnResult(w, q, t).world, q, t.desired)
  {
    hide TurnResult;
    hide Planned;
    hide Wanted;
    WantedStill(w, TurnResult(w, q, t).world, q, t.desired);
  }

  // ---------------------------------------------------------------- the measure

  ghost function Missing(w: World, q: Query): nat {
    if FoundIn(w, q).None? then 1 else 0
  }

  /** Undesired and missing pools. */
  ghost function PoolsLeft(w: World, q: Query, d: State): nat {
    if FoundIn(w, q).None? then 0 else PoolGap(w, d, FoundIn(w, q).value.id)
  }

  /** Undesired and missing members, listeners and monitors of the desired pools. */
  ghost function ChildrenLeft(w: World, q: Query, d: State): nat {
    if FoundIn(w, q).None? then 0 else ChildGap(w, d, FoundIn(w, q).value.id)
  }

  /** A wanted load balancer has come closer: it exists, or more of its pools are right, or, with the
      pools as before, more of what is in them. */
  ghost predicate Closer(w: World, w1: World, q: Query, d: State) {
    || Missing(w1, q) < Missing(w, q)
    || (Missing(w1, q) == Missing(w, q) && PoolsLeft(w1, q, d) < PoolsLeft(w, q, d))
    || (Missing(w1, q) == Missing(w, q) && PoolsLeft(w1, q, d) == PoolsLeft(w, q, d)
        && ChildrenLeft(w1, q, d) < ChildrenLeft(w, q, d))
  }

  lemma CloserMeans(w: World, w1: World, q: Query, d: State)
    requires Closer(w, w1, q, d)
    ensures
      || Missing(w1, q) < Missing(w, q)
      || (Missing(w1, q) == Missing(w, q) && PoolsLeft(w1, q, d) < PoolsLeft(w, q, d))
      || (Missing(w1, q) == Missing(w, q) && PoolsLeft(w1, q, d) == PoolsLeft(w, q, d)
          && ChildrenLeft(w1, q, d) < ChildrenLeft(w, q, d))
  {
    hide Missing;
    hide PoolsLeft;
    hide ChildrenLeft;
  }

  lemma FoundAgain(w: World, q: Query, l: Lb, w1: World)
    requires Valid(w) && q.name != "" && FoundIn(w, q) == Some(l)
    requires FindByServiceInfo(w.lbs, q).Success? && w1.lbs == Renamed(w.lbs, l.id, q.name)
    ensures FoundIn(w1, q) == Some(NamedAs(l, q)) && NamedAs(l, q).id == l.id
  {
    RenameIsSafe(w.lbs, q, l);
  }

  lemma PoolTurn(w: World, q: Query, t: Turn)
    requires GoodTurn(w, q, t) && FoundIn(w, q).Some? && t.status != "changing" && PoolPhase(t.choice)
    ensures
      var w1 := TurnResult(w, q, t).world;
      && TurnResult(w, q, t).control == MustRefetch
      && FoundIn(w1, q) == Some(NamedAs(FoundIn(w, q).value, q))
      && PoolsLeft(w1, q, t.desired) < PoolsLeft(w, q, t.desired)
  {
    var d, l, c := t.desired, FoundIn(w, q).value, t.choice;
    IsRound(w, q, t);
    RoundIsSent(w, q, d, l, t.status, c);
    hide Sent;
    hide WantedNode;
    PoolRound(w, d, l, t.status, c);
    PoolRoundShrinks(w, q, d, l, t.status, c);
    hide RoundOf;
    hide RoundResult;
    hide TurnResult;
    hide PoolGap;
    hide Possible;
    FoundAgain(w, q, l, TurnResult(w, q, t).world);
  }

  lemma ChildTurn(w: World, q: Query, t: Turn)
    requires GoodTurn(w, q, t) && FoundIn(w, q).Some? && t.status != "changing" && ChildPhase(t.choice)
    ensures
      var w1 := TurnResult(w, q, t).world;
      && TurnResult(w, q, t).control == MustRefetch
      && FoundIn(w1, q) == Some(NamedAs(FoundIn(w, q).value, q))
      && PoolsLeft(w1, q, t.desired) == PoolsLeft(w, q, t.desired)
      && ChildrenLeft(w1, q, t.desired) < ChildrenLeft(w, q, t.desired)
  {
    var d, l, c := t.desired, FoundIn(w, q).value, t.choice;
    IsRound(w, q, t);
    RoundIsSent(w, q, d, l, t.status, c);
    hide Sent;
    hide WantedNode;
    ChildRound(w, d, l, t.status, c);
    ChildRoundShrinks(w, q, d, l, t.status, c);
    hide RoundOf;
    hide RoundResult;
    hide TurnResult;
    hide ChildGap;
    hide Possible;
    hide Gap;
    hide PoolsOf;
    FoundAgain(w, q, l, TurnResult(w, q, t).world);
  }

  lemma LastTurn(w: World, q: Query, t: Turn)
    requires GoodTurn(w, q, t) && FoundIn(w, q).Some? && t.status != "changing" && LastPhase(t.choice)
    ensures
      var w1 := TurnResult(w, q, t).world;
      && TurnResult(w, q, t).control == Finished
      && FoundIn(w1, q) == Some(NamedAs(FoundIn(w, q).value, q))
      && Settled(w1, FoundIn(w1, q).value, t.desired)
  {
    var d, l, c := t.desired, FoundIn(w, q).value, t.choice;
    IsRound(w, q, t);
    RoundIsSent(w, q, d, l, t.status, c);
    hide Sent;
    hide WantedNode;
    LastRoundSettles(w, q, d, l, t.status, c);
    LastLbsAndFips(w, d, l, t.status, c);
    hide RoundOf;
    hide RoundResult;
    hide TurnResult;
    hide Possible;
    hide Settled;
    FoundAgain(w, q, l, TurnResult(w, q, t).world);
  }

  /** Each turn waits for a changing load balancer, or brings it closer to the desired state and goes
      on, or ends the run with the cloud settled. */
  lemma TurnProgress(w: World, q: Query, t: Turn)
    requires GoodTurn(w, q, t)
    ensures
      var r := TurnResult(w, q, t);
      match r.control
      case Failed => false
      case Finished => FoundIn(r.world, q).Some? && Settled(r.world, FoundIn(r.world, q).value, t.desired)
      case MustRefetch =>
        if FoundIn(w, q).Some? && t.status == "changing" then r.world == w
        else FoundIn(r.world, q).Some? && Closer(w, r.world, q, t.desired)
  {
    hide TurnResult;
    hide Settled;
    hide PoolsLeft;
    hide ChildrenLeft;
    if FoundIn(w, q).None? {
      CreateTurn(w, q, t);
      CreatedIsFound(w, q, t.desired.lb.value);
    } else if t.status == "changing" {
      ChangingWaits(w, q, t);
    } else if PoolPhase(t.choice) {
      PoolTurn(w, q, t);
    } else if ChildPhase(t.choice) {
      ChildTurn(w, q, t);
    } else {
      LastTurn(w, q, t);
    }
  }

  // ---------------------------------------------------------------- turns for different desired states

  lemma GoodIsConsistent(w: World, q: Query, t: Turn)
    requires GoodTurn(w, q, t)
    ensures Consistent(q, false, Addresses(t.desired.floatingIPs), t)
  {
  }

  lemma TurnKeepsWanted(w: World, q: Query, t: Turn, d: State)
    requires GoodTurn(w, q, t) && Wanted(w, q, d) && TurnResult(w, q, t).control == MustRefetch
    ensures Wanted(TurnResult(w, q, t).world, q, d)
  {
    GoodIsConsistent(w, q, t);
    WholeTurnFrame(w, q, t, false, Addresses(t.desired.floatingIPs));
    hide Foreign;
    hide OtherLbs;
    hide TurnResult;
    hide Wanted;
    WantedStill(w, TurnResult(w, q, t).world, q, d);
  }

  ghost predicate AllWanted(w: World, q: Query, turns: seq<Turn>) {
    forall t :: t in turns ==> Wanted(w, q, t.desired)
  }
}
