/** When runs end: exactly if the cloud reports every desired member back as it was requested. */
module Finishing {
  import opened Seqs
  import opened Compare
  import opened Domain
  import opened CloudWorld
  import opened Planner
  import opened Lookup
  import opened Rounds
  import opened FinalRounds
  import opened Convergence
  import opened Settling
  import opened Frames
  import opened PlanLocality
  import opened Runs
  import opened Progress
  import opened Disruption
  import opened Names
  import opened Outcomes
  import opened Endings
  import opened Choices

  // ---------------------------------------------------------------- requests the cloud does not refuse

  /** All that `Wanted` asks of a desired state, but that its members are reported back as requested:
      here the cloud only has to know their subnets. */
  ghost predicate Fair(w: World, q: Query, d: State) {
    && d.lb.Some? && d.lb.value.name == q.name && q.name != ""
    && Distinct(d.pools, NodeName)
    && (forall n :: n in d.pools ==> ProperNode(n) && Distinct(n.listeners, ItemKey) && Distinct(n.monitors, ItemKey))
    && Requests(w, d)
  }

  lemma FairFaithful(w: World, q: Query, d: State)
    ensures Fair(w, q, d) && AllFaithful(w.subnets, d) <==> Wanted(w, q, d)
  {
    hide KeyOf;
    hide Stored;
    hide Known;
    hide Address;
    if Wanted(w, q, d) {
      forall n, m | n in d.pools && m in n.members
        ensures Faithful(w.subnets, m.spec) && Known(w.subnets, m.spec)
      {
        assert WantedNode(w.subnets, n);
      }
    }
  }

  /** A run for `d` can start: the lookup finds at most one load balancer, whose addresses, flavor and zone
      are as desired, and pool keys tell pool names. */
  ghost predicate Ready(names: Key -> string, w: World, q: Query, d: State) {
    && Valid(w) && Fair(w, q, d)
    && FindByServiceInfo(w.lbs, q).Success?
    && (FoundIn(w, q).Some? ==> LbRefusal(d.lb.value, FoundIn(w, q).value).None?)
    && AllNamed(names, d) && KnownPools(names, w, q)
  }

  lemma NamesResolve(names: Key -> string, items: seq<Item>, lb: Uuid, d: State)
    requires AllNamed(names, d) && PoolsNamed(names, items, lb)
    requires KeySet(d.pools, NodeKey) == KeySet(NodesOf(items, lb), NodeKey)
    ensures Resolves(d.pools, NodesOf(items, lb))
  {
    var nodes := NodesOf(items, lb);
    NodesIn(items, lb);
    hide NodesOf;
    hide KeyOf;
    forall n | n in d.pools
      ensures NodeName(n) in Index(nodes, NodeName)
    {
      assert NodeKey(n) in KeySet(d.pools, NodeKey);
      var m :| m in nodes && NodeKey(m) == NodeKey(n);
      assert NamedBy(names, m.pool.spec) && NamedBy(names, n.pool.spec);
      assert NodeName(m) in KeySet(nodes, NodeName);
    }
  }

  lemma ReadyPlans(names: Key -> string, w: World, q: Query, d: State, status: string)
    requires Ready(names, w, q, d)
    ensures !Refuses(d, Snapshot(w, FoundIn(w, q), status))
  {
    hide NodesOf;
    hide AllNamed;
    hide PoolsNamed;
    hide Fair;
    hide Valid;
    if FoundIn(w, q).Some? {
      var l := FoundIn(w, q).value;
      if SamePools(d, Snapshot(w, Some(l), status)) {
        NamesResolve(names, w.items, l.id, d);
      }
      hide Resolves;
      hide LbRefusal;
    }
  }

  /** There is always a next turn. */
  lemma ReadyTurn(names: Key -> string, w: World, q: Query, d: State) returns (t: Turn)
    requires Ready(names, w, q, d)
    ensures Planned(w, q, t) && t.desired == d && t.status == "running" && AllFor(d, [t])
  {
    ReadyPlans(names, w, q, d, "running");
    hide Refuses;
    hide Snapshot;
    hide Planned;
    hide Fair;
    hide KnownPools;
    hide AllNamed;
    t := SomeTurn(w, q, d, "running");
  }

  lemma FairConsistent(w: World, q: Query, t: Turn)
    requires Fair(w, q, t.desired)
    ensures Consistent(q, false, Addresses(t.desired.floatingIPs), t)
  {
  }

  lemma IsSent(w: World, q: Query, t: Turn)
    requires Valid(w) && Planned(w, q, t) && Fair(w, q, t.desired) && FoundIn(w, q).Some? && t.status != "changing"
    ensures Sent(w, t.desired, FoundIn(w, q).value, t.status, t.choice)
    ensures TurnResult(w, q, t) == RoundResult(w, t.desired, FoundIn(w, q).value, t.status, t.choice)
  {
    FoundInLbs(w, q);
    hide Plan;
    hide Possible;
    hide Valid;
    hide SamePools;
    hide Resolves;
    hide Requests;
    var d, l := t.desired, FoundIn(w, q).value;
    assert Seen(w, q, t) == Snapshot(w, Some(l), t.status);
  }

  /** The cloud refuses nothing of a turn for a fair request. */
  lemma FairAccepted(w: World, q: Query, t: Turn)
    requires Valid(w) && Planned(w, q, t) && Fair(w, q, t.desired) && t.status != "changing"
    ensures TurnResult(w, q, t).control != Failed
    ensures FoundIn(w, q).None? ==> TurnResult(w, q, t).control == MustRefetch
  {
    if FoundIn(w, q).None? {
      CreateTurn(w, q, t);
    } else {
      var d, l, c := t.desired, FoundIn(w, q).value, t.choice;
      IsSent(w, q, t);
      hide Sent;
      hide RoundResult;
      hide TurnResult;
      hide Fair;
      if PoolPhase(c) {
        PoolRound(w, d, l, t.status, c);
      } else if ChildPhase(c) {
        ChildRound(w, d, l, t.status, c);
      } else {
        assert LastPhase(c);
        LastRuns(w, d, l, t.status, c);
      }
    }
  }

  lemma SameRefusal(d: Lb, l: Lb, l1: Lb)
    requires SameLbAs(l, l1)
    ensures LbRefusal(d, l1) == LbRefusal(d, l)
  {
  }

  lemma FairStill(w: World, w1: World, q: Query, d: State)
    requires Fair(w, q, d) && w1.subnets == w.subnets
    requires |w1.fips| == |w.fips| && forall k :: 0 <= k < |w.fips| ==> w1.fips[k].network == w.fips[k].network
    ensures Fair(w1, q, d)
  {
    hide ProperNode;
    hide Known;
    hide Address;
    hide KeyOf;
    forall ip | ip in d.floatingIPs
      ensures exists f :: f in w1.fips && Address(f.network) == Address(ip)
    {
      var f :| f in w.fips && Address(f.network) == Address(ip);
      var k :| 0 <= k < |w.fips| && w.fips[k] == f;
      assert w1.fips[k] in w1.fips;
    }
  }

  lemma LbStillFits(w: World, q: Query, t: Turn)
    requires Valid(w) && Planned(w, q, t) && Fair(w, q, t.desired)
    requires FoundIn(w, q).Some? ==> LbRefusal(t.desired.lb.value, FoundIn(w, q).value).None?
    requires TurnResult(w, q, t).control == MustRefetch
    ensures FoundIn(TurnResult(w, q, t).world, q).Some?
    ensures LbRefusal(t.desired.lb.value, FoundIn(TurnResult(w, q, t).world, q).value).None?
  {
    if FoundIn(w, q).None? {
      CreateTurn(w, q, t);
      CreatedIsFound(w, q, t.desired.lb.value);
    } else {
      FairConsistent(w, q, t);
      WholeTurn(w, q, t);
      hide Fair;
      hide Batch;
      hide Planned;
      hide FoundIn;
      TurnKeepsLb(w, q, t, |Batch(w, q, t)|, Addresses(t.desired.floatingIPs));
      SameRefusal(t.desired.lb.value, FoundIn(w, q).value, FoundIn(TurnResult(w, q, t).world, q).value);
    }
  }

  lemma TurnTold(names: Key -> string, w: World, q: Query, t: Turn)
    requires Valid(w) && Planned(w, q, t) && Fair(w, q, t.desired) && AllNamed(names, t.desired) && KnownPools(names, w, q)
    requires TurnResult(w, q, t).control == MustRefetch
    ensures KnownPools(names, TurnResult(w, q, t).world, q)
  {
    if FoundIn(w, q).None? {
      CreateTurn(w, q, t);
      CreatedIsFound(w, q, t.desired.lb.value);
      NewLbKnown(names, w);
      assert Apply(w, CreateLb(t.desired.lb.value)).world.items == w.items;
      hide Apply;
      hide PoolsNamed;
      hide FindByServiceInfo;
    } else {
      var i := Some(Item(0, OnLb(0), Pool("", "", "")));
      FairConsistent(w, q, t);
      WholeTurn(w, q, t);
      assert t.desired.lb.Some?;
      hide PoolsNamed;
      hide AllNamed;
      hide Fair;
      hide Planned;
      hide Batch;
      hide FoundIn;
      TurnKeepsLb(w, q, t, |Batch(w, q, t)|, Addresses(t.desired.floatingIPs));
      PartTold(w, q, t, |Batch(w, q, t)|, names, i);
    }
  }

  /** A turn that goes on leaves the run ready for the next one. */
  lemma ReadyStill(names: Key -> string, w: World, q: Query, t: Turn)
    requires Ready(names, w, q, t.desired) && Planned(w, q, t) && TurnResult(w, q, t).control == MustRefetch
    ensures Ready(names, TurnResult(w, q, t).world, q, t.desired)
  {
    var ips := Addresses(t.desired.floatingIPs);
    FairConsistent(w, q, t);
    WholeTurnFrame(w, q, t, false, ips);
    LbStillFits(w, q, t);
    TurnTold(names, w, q, t);
    hide Foreign;
    hide OtherLbs;
    hide TurnResult;
    hide Planned;
    hide Valid;
    hide Fair;
    hide LbRefusal;
    hide AllNamed;
    hide KnownPools;
    FairStill(w, TurnResult(w, q, t).world, q, t.desired);
  }

  // ---------------------------------------------------------------- what a caller can check

  /** The words of all pools concerned meet only in being the same, and everything else lets a run start. */
  ghost predicate Startable(algorithms: set<string>, protocols: set<string>, w: World, q: Query, d: State) {
    && Valid(w) && Fair(w, q, d)
    && FindByServiceInfo(w.lbs, q).Success?
    && TailsMeet(algorithms, protocols) && PoolsOver(algorithms, protocols, d.pools)
    && (FoundIn(w, q).Some? ==>
         && Suits(d.lb.value, FoundIn(w, q).value)
         && PoolsOver(algorithms, protocols, NodesOf(w.items, FoundIn(w, q).value.id)))
  }

  /** What the keys of pools over these words stand for. */
  ghost function NamesOver(algorithms: set<string>, protocols: set<string>): Key -> string {
    k => NameBehind(algorithms, protocols, k)
  }

  lemma ListedPool(items: seq<Item>, lb: Uuid, p: Item) returns (n: PoolNode)
    requires p in items && p.owner == OnLb(lb) && p.spec.Pool?
    ensures n in NodesOf(items, lb) && n.pool == p
  {
    NodesIn(items, lb);
    n := NodeOf(items)(p);
    assert p in PoolsOf(items, lb);
  }

  lemma StartableReady(algorithms: set<string>, protocols: set<string>, w: World, q: Query, d: State)
    requires Startable(algorithms, protocols, w, q, d)
    ensures Ready(NamesOver(algorithms, protocols), w, q, d)
  {
    var names := NamesOver(algorithms, protocols);
    hide NodesOf;
    hide KeyOf;
    hide TailsMeet;
    hide NameBehind;
    hide Requests;
    hide LbRefusal;
    hide Suits;
    hide Valid;
    forall n | n in d.pools
      ensures n.pool.spec.Pool? && NamedBy(names, n.pool.spec)
    {
      KeysTellNames(algorithms, protocols, n.pool.spec);
    }
    if FoundIn(w, q).Some? {
      var lb := FoundIn(w, q).value.id;
      RefusalExactly(d.lb.value, FoundIn(w, q).value);
      forall p | p in w.items && p.owner == OnLb(lb)
        ensures NamedBy(names, p.spec)
      {
        if p.spec.Pool? {
          var n := ListedPool(w.items, lb, p);
          KeysTellNames(algorithms, protocols, p.spec);
        }
      }
    }
  }

  // ---------------------------------------------------------------- runs that end

  lemma {:induction false} AfterFirst(w: World, q: Query, t: Turn, turns: seq<Turn>)
    requires Planned(w, q, t) && TurnResult(w, q, t).control == MustRefetch
    ensures After(w, q, [t] + turns) == After(TurnResult(w, q, t).world, q, turns)
    ensures Ongoing(TurnResult(w, q, t).world, q, turns) ==> Ongoing(w, q, [t] + turns)
  {
    hide Planned;
    hide TurnResult;
    if turns == [] {
      assert [t] + turns == [t] && [t][..0] == [];
    } else {
      var init, x := turns[..|turns| - 1], turns[|turns| - 1];
      assert ([t] + turns)[..|turns|] == [t] + init;
      AfterFirst(w, q, t, init);
    }
  }

  ghost predicate AllFor(d: State, turns: seq<Turn>) {
    forall x :: x in turns ==> x.desired == d && x.status != "changing"
  }

  lemma AllForFirst(d: State, t: Turn, turns: seq<Turn>)
    requires AllFor(d, [t]) && AllFor(d, turns)
    ensures AllFor(d, [t] + turns)
  {
  }

  /** A run for `d` that ends in `w1`; its load balancer is never changing. */
  ghost predicate EndsIn(w: World, q: Query, d: State, turns: seq<Turn>, t: Turn, w1: World) {
    && Ongoing(w, q, turns) && AllFor(d, turns) && AllFor(d, [t])
    && Planned(After(w, q, turns), q, t) && TurnResult(After(w, q, turns), q, t) == Ran(w1, Finished)
  }

  /** What a turn for faithful members does: it ends the run in a settled cloud, or leaves it ready for
      the next turn, with less to do. */
  lemma ReadyStep(names: Key -> string, w: World, q: Query, t: Turn)
    requires Ready(names, w, q, t.desired) && AllFaithful(w.subnets, t.desired) && Planned(w, q, t) && AllFor(t.desired, [t])
    ensures
      var r := TurnResult(w, q, t);
      && (r.control == Finished || r.control == MustRefetch)
      && (r.control == Finished ==>
        EndsIn(w, q, t.desired, [], t, r.world) && FoundIn(r.world, q).Some? && Settled(r.world, FoundIn(r.world, q).value, t.desired))
      && (r.control == MustRefetch ==>
        && Ready(names, r.world, q, t.desired) && AllFaithful(r.world.subnets, t.desired)
        && Closer(w, r.world, q, t.desired))
  {
    assert t in [t];
    ReadyGood(names, w, q, t);
    TurnProgress(w, q, t);
    hide TurnResult;
    hide Planned;
    hide Settled;
    hide PoolsLeft;
    hide ChildrenLeft;
    hide Missing;
    hide Ready;
    hide GoodTurn;
    hide AllFaithful;
    if TurnResult(w, q, t).control == MustRefetch {
      ReadyStill(names, w, q, t);
      FaithfulStill(w, q, t);
    }
  }

  lemma EndsLater(w: World, q: Query, d: State, first: Turn, turns: seq<Turn>, t: Turn, w1: World)
    requires Planned(w, q, first) && AllFor(d, [first])
    requires TurnResult(w, q, first).control == MustRefetch
    requires EndsIn(TurnResult(w, q, first).world, q, d, turns, t, w1)
    ensures EndsIn(w, q, d, [first] + turns, t, w1)
  {
    AfterFirst(w, q, first, turns);
    hide TurnResult;
    hide Planned;
    hide Ongoing;
    hide After;
    hide AllFor;
    AllForFirst(d, first, turns);
  }

  /** With faithful members, some run comes to its end, and everything is as desired then. */
  lemma SomeEnd(names: Key -> string, w: World, q: Query, d: State) returns (turns: seq<Turn>, t: Turn, w1: World)
    requires Ready(names, w, q, d) && AllFaithful(w.subnets, d)
    ensures EndsIn(w, q, d, turns, t, w1) && FoundIn(w1, q).Some? && Settled(w1, FoundIn(w1, q).value, d)
    decreases Missing(w, q), PoolsLeft(w, q, d), ChildrenLeft(w, q, d)
  {
    t := ReadyTurn(names, w, q, d);
    var r := TurnResult(w, q, t);
    ReadyStep(names, w, q, t);
    hide *;
    if r.control == Finished {
      turns, w1 := [], r.world;
    } else {
      var first := t;
      CloserMeans(w, r.world, q, d);
      turns, t, w1 := SomeEnd(names, r.world, q, d);
      EndsLater(w, q, d, first, turns, t, w1);
      turns := [first] + turns;
    }
  }

  lemma ReadyGood(names: Key -> string, w: World, q: Query, t: Turn)
    requires Ready(names, w, q, t.desired) && AllFaithful(w.subnets, t.desired) && Planned(w, q, t)
    ensures GoodTurn(w, q, t)
  {
    FairFaithful(w, q, t.desired);
    hide Fair;
    hide Wanted;
    hide Planned;
  }

  lemma FaithfulStill(w: World, q: Query, t: Turn)
    requires GoodTurn(w, q, t) && AllFaithful(w.subnets, t.desired) && TurnResult(w, q, t).control == MustRefetch
    ensures AllFaithful(TurnResult(w, q, t).world.subnets, t.desired)
  {
    GoodIsConsistent(w, q, t);
    WholeTurnFrame(w, q, t, false, Addresses(t.desired.floatingIPs));
    hide Foreign;
    hide OtherLbs;
    hide TurnResult;
  }

  // ---------------------------------------------------------------- runs that never end

  ghost function Firsts(f: nat -> Turn, n: nat): seq<Turn> {
    if n == 0 then [] else Firsts(f, n - 1) + [f(n - 1)]
  }

  /** A run for `d` that goes on for ever, although its load balancer is never changing. */
  ghost predicate Forever(w: World, q: Query, d: State, f: nat -> Turn) {
    forall n: nat :: AllFor(d, [f(n)]) && Ongoing(w, q, Firsts(f, n))
  }

  ghost predicate Endless(w: World, q: Query, d: State) {
    exists f: nat -> Turn :: Forever(w, q, d, f)
  }

  lemma NextOfForever(w: World, q: Query, d: State, f: nat -> Turn, n: nat)
    requires Forever(w, q, d, f)
    ensures
      var w0 := After(w, q, Firsts(f, n));
      && Planned(w0, q, f(n)) && f(n).desired == d && AllFor(d, [f(n)])
      && TurnResult(w0, q, f(n)) == Ran(After(w, q, Firsts(f, n + 1)), MustRefetch)
  {
    hide Planned;
    hide TurnResult;
    assert Ongoing(w, q, Firsts(f, n + 1));
    assert f(n) in [f(n)];
    assert Firsts(f, n + 1) == Firsts(f, n) + [f(n)];
    assert Firsts(f, n + 1)[..|Firsts(f, n)|] == Firsts(f, n);
  }

  /** With faithful members, no run goes on for ever. */
  lemma {:induction false} NotForever(names: Key -> string, w: World, q: Query, d: State, f: nat -> Turn, n: nat)
    requires Forever(w, q, d, f)
    requires Ready(names, After(w, q, Firsts(f, n)), q, d) && AllFaithful(After(w, q, Firsts(f, n)).subnets, d)
    ensures false
    decreases Missing(After(w, q, Firsts(f, n)), q), PoolsLeft(After(w, q, Firsts(f, n)), q, d), ChildrenLeft(After(w, q, Firsts(f, n)), q, d)
  {
    var w0 := After(w, q, Firsts(f, n));
    NextOfForever(w, q, d, f, n);
    ReadyStep(names, w0, q, f(n));
    hide *;
    CloserMeans(w0, After(w, q, Firsts(f, n + 1)), q, d);
    NotForever(names, w, q, d, f, n + 1);
  }

  /** A turn to make next. */
  ghost predicate CanTake(w: World, q: Query, d: State, t: Turn) {
    Planned(w, q, t) && t.desired == d && t.status == "running"
  }

  ghost function NextTurn(w: World, q: Query, d: State): (t: Turn)
    ensures (exists x :: CanTake(w, q, d, x)) ==> CanTake(w, q, d, t)
  {
    if exists x :: CanTake(w, q, d, x) then
      var x :| CanTake(w, q, d, x);
      x
    else Turn(d, "running", Choice([], [], [], [], []))
  }

  ghost function Nth(w: World, q: Query, d: State, n: nat): World {
    if n == 0 then w else
      var w0 := Nth(w, q, d, n - 1);
      TurnResult(w0, q, NextTurn(w0, q, d)).world
  }

  ghost function Endlessly(w: World, q: Query, d: State): nat -> Turn {
    (n: nat) => NextTurn(Nth(w, q, d, n), q, d)
  }

  ghost predicate Unfaithful(subnets: map<string, Subnet>, d: State) {
    exists n, m :: n in d.pools && m in n.members && !Faithful(subnets, m.spec)
  }

  /** While a member is desired that is not reported back as requested, there is a next turn, and it does
      not end the run. */
  lemma GoesOn(names: Key -> string, w: World, q: Query, d: State)
    requires Ready(names, w, q, d) && AllReported(w) && Unfaithful(w.subnets, d)
    ensures
      var t := NextTurn(w, q, d);
      && CanTake(w, q, d, t) && TurnResult(w, q, t).control == MustRefetch
      && Ready(names, TurnResult(w, q, t).world, q, d) && AllReported(TurnResult(w, q, t).world)
      && TurnResult(w, q, t).world.subnets == w.subnets
  {
    var some := ReadyTurn(names, w, q, d);
    assert CanTake(w, q, d, some);
    var t := NextTurn(w, q, d);
    hide NextTurn;
    assert Planned(w, q, t) && t.desired == d && t.status == "running";
    FairOf(names, w, q, d);
    FairAccepted(w, q, t);
    if FoundIn(w, q).Some? && TurnResult(w, q, t).control == Finished {
      var n, m :| n in d.pools && m in n.members && !Faithful(w.subnets, m.spec);
      EndsOnlyIfFaithful(w, q, t, n, m);
      assert false;
    }
    FairConsistent(w, q, t);
    WholeTurnFrame(w, q, t, false, Addresses(d.floatingIPs));
    ExecReported(w, Batch(w, q, t));
    hide Foreign;
    hide OtherLbs;
    hide Planned;
    hide Faithful;
    hide AllReported;
    hide Fair;
    hide Ready;
    ReadyStill(names, w, q, t);
  }

  lemma FairOf(names: Key -> string, w: World, q: Query, d: State)
    requires Ready(names, w, q, d)
    ensures Valid(w) && Fair(w, q, d)
  {
  }

  lemma {:induction false} NthGoesOn(names: Key -> string, w: World, q: Query, d: State, n: nat)
    requires Ready(names, w, q, d) && AllReported(w) && Unfaithful(w.subnets, d)
    ensures
      var w0 := Nth(w, q, d, n);
      && Ready(names, w0, q, d) && AllReported(w0) && w0.subnets == w.subnets
      && Ongoing(w, q, Firsts(Endlessly(w, q, d), n)) && After(w, q, Firsts(Endlessly(w, q, d), n)) == w0
  {
    if n == 0 {
      NthZero(w, q, d);
      hide *;
    } else {
      hide *;
      NthGoesOn(names, w, q, d, n - 1);
      GoesOn(names, Nth(w, q, d, n - 1), q, d);
      NthNext(w, q, d, n - 1);
      OneMore(w, q, d, Firsts(Endlessly(w, q, d), n - 1), Nth(w, q, d, n - 1));
    }
  }

  lemma NthZero(w: World, q: Query, d: State)
    ensures Nth(w, q, d, 0) == w && Firsts(Endlessly(w, q, d), 0) == []
    ensures Ongoing(w, q, []) && After(w, q, []) == w
  {
  }

  lemma NthNext(w: World, q: Query, d: State, n: nat)
    ensures Firsts(Endlessly(w, q, d), n + 1) == Firsts(Endlessly(w, q, d), n) + [NextTurn(Nth(w, q, d, n), q, d)]
    ensures Nth(w, q, d, n + 1) == TurnResult(Nth(w, q, d, n), q, NextTurn(Nth(w, q, d, n), q, d)).world
  {
    hide TurnResult;
    hide NextTurn;
  }

  lemma OneMore(w: World, q: Query, d: State, turns: seq<Turn>, w0: World)
    requires Ongoing(w, q, turns) && After(w, q, turns) == w0
    requires CanTake(w0, q, d, NextTurn(w0, q, d)) && TurnResult(w0, q, NextTurn(w0, q, d)).control == MustRefetch
    ensures Ongoing(w, q, turns + [NextTurn(w0, q, d)])
    ensures After(w, q, turns + [NextTurn(w0, q, d)]) == TurnResult(w0, q, NextTurn(w0, q, d)).world
  {
    var x := NextTurn(w0, q, d);
    assert (turns + [x])[..|turns|] == turns;
    hide TurnResult;
    hide NextTurn;
    hide Planned;
  }

  lemma UnfaithfulIsEndless(names: Key -> string, w: World, q: Query, d: State)
    requires Ready(names, w, q, d) && AllReported(w) && Unfaithful(w.subnets, d)
    ensures Endless(w, q, d)
  {
    var f := Endlessly(w, q, d);
    hide Ready;
    hide AllReported;
    hide Unfaithful;
    hide Ongoing;
    forall n: nat
      ensures AllFor(d, [f(n)]) && Ongoing(w, q, Firsts(f, n))
    {
      NthGoesOn(names, w, q, d, n);
      NthTurn(names, w, q, d, n);
    }
    assert Forever(w, q, d, f);
  }

  lemma NthTurn(names: Key -> string, w: World, q: Query, d: State, n: nat)
    requires Ready(names, Nth(w, q, d, n), q, d) && AllReported(Nth(w, q, d, n))
    requires Unfaithful(w.subnets, d) && Nth(w, q, d, n).subnets == w.subnets
    ensures AllFor(d, [Endlessly(w, q, d)(n)])
  {
    hide Ready;
    hide AllReported;
    hide Unfaithful;
    hide NextTurn;
    hide Planned;
    hide Nth;
    GoesOn(names, Nth(w, q, d, n), q, d);
  }

  // ---------------------------------------------------------------- exactly when runs end

  lemma ForConsistent(w: World, q: Query, d: State, turns: seq<Turn>)
    requires Fair(w, q, d) && AllFor(d, turns)
    ensures forall t :: t in turns ==> Consistent(q, false, Addresses(d.floatingIPs), t)
  {
    forall t | t in turns
      ensures Consistent(q, false, Addresses(d.floatingIPs), t)
    {
      FairConsistent(w, q, t);
    }
  }

  lemma FairLb(w: World, q: Query, d: State)
    requires Fair(w, q, d)
    ensures d.lb.Some?
  {
  }

  lemma EndIsFaithful(w: World, q: Query, d: State, turns: seq<Turn>, t: Turn, w1: World)
    requires Valid(w) && Fair(w, q, d) && AllReported(w) && EndsIn(w, q, d, turns, t, w1)
    ensures AllFaithful(w.subnets, d)
  {
    var w0, ips := After(w, q, turns), Addresses(d.floatingIPs);
    ForConsistent(w, q, d, turns);
    FairLb(w, q, d);
    AfterFrame(w, q, turns, false, ips);
    assert t in [t];
    hide Fair;
    hide Foreign;
    hide OtherLbs;
    hide After;
    hide Ongoing;
    hide Own;
    hide Consistent;
    hide Planned;
    hide TurnResult;
    hide Valid;
    hide AllReported;
    hide Faithful;
    FinishedFound(w0, q, t);
    forall n, m | n in d.pools && m in n.members
      ensures Faithful(w.subnets, m.spec)
    {
      RunEndsOnlyIfFaithful(w, q, turns, t, n, m);
    }
  }

  lemma EndlessIsUnfaithful(names: Key -> string, w: World, q: Query, d: State)
    requires Ready(names, w, q, d) && AllFaithful(w.subnets, d)
    ensures !Endless(w, q, d)
  {
    hide Ready;
    hide AllFaithful;
    if f: nat -> Turn :| Forever(w, q, d, f) {
      assert Firsts(f, 0) == [] && After(w, q, Firsts(f, 0)) == w;
      NotForever(names, w, q, d, f, 0);
    }
  }

  /** Runs whose load balancer is not changing, for a request the cloud does not refuse, end if and only if
      the cloud reports every desired member back as it was requested: then none goes on for ever, and
      otherwise none ends. */
  lemma EndsExactly(algorithms: set<string>, protocols: set<string>, w: World, q: Query, d: State)
    requires Startable(algorithms, protocols, w, q, d) && AllReported(w)
    ensures (exists turns, t, w1 :: EndsIn(w, q, d, turns, t, w1)) <==> AllFaithful(w.subnets, d)
    ensures Endless(w, q, d) <==> !AllFaithful(w.subnets, d)
  {
    var names := NamesOver(algorithms, protocols);
    StartableReady(algorithms, protocols, w, q, d);
    FairOf(names, w, q, d);
    NotFaithful(w.subnets, d);
    hide *;
    forall turns, t, w1 | EndsIn(w, q, d, turns, t, w1)
      ensures AllFaithful(w.subnets, d)
    {
      EndIsFaithful(w, q, d, turns, t, w1);
    }
    if AllFaithful(w.subnets, d) {
      var turns, t, w1 := SomeEnd(names, w, q, d);
      EndlessIsUnfaithful(names, w, q, d);
    } else {
      UnfaithfulIsEndless(names, w, q, d);
    }
  }

  lemma NotFaithful(subnets: map<string, Subnet>, d: State)
    ensures Unfaithful(subnets, d) <==> !AllFaithful(subnets, d)
  {
    hide Faithful;
  }

  /** A subnet that the cloud reports with other details than those it is requested with. */
  lemma OtherDetailsNeverEnd(requested: string, reported: string)
    requires requested != reported
    ensures
      var w := World([], [], [], map["u" := Subnet("u", reported)], "a", 1);
      var m := Item(0, InPool(0), Member("m", true, "a", Subnet("u", requested), 80, 80));
      var n := PoolNode(Item(0, OnLb(0), Pool("p", "round_robin", "tcp")), [m], [], []);
      Endless(w, Query(None, "lb"), State(Some(Lb(0, "lb", [], "f", "z")), "", [n], []))
  {
    var w := World([], [], [], map["u" := Subnet("u", reported)], "a", 1);
    var q := Query(None, "lb");
    var m := Item(0, InPool(0), Member("m", true, "a", Subnet("u", requested), 80, 80));
    var n := PoolNode(Item(0, OnLb(0), Pool("p", "round_robin", "tcp")), [m], [], []);
    var d := State(Some(Lb(0, "lb", [], "f", "z")), "", [n], []);
    FreshStart(reported, q);
    OneWord("round_robin", "tcp");
    hide Valid;
    hide AllReported;
    hide FindByServiceInfo;
    hide TailsMeet;
    assert w.fips == [] && w.items == [];
    OneMemberFair(w, q, d, n, m);
    assert Startable({"round_robin"}, {"tcp"}, w, q, d);
    hide *;
    EndsExactly({"round_robin"}, {"tcp"}, w, q, d);
  }

  lemma OneMemberFair(w: World, q: Query, d: State, n: PoolNode, m: Item)
    requires d.lb.Some? && d.lb.value.name == q.name != "" && d.pools == [n] && d.floatingIPs == []
    requires n.members == [m] && n.listeners == [] && n.monitors == [] && n.pool.spec.Pool?
    requires m.spec.Member? && m.spec.subnet.uuid in w.subnets && w.subnets[m.spec.subnet.uuid].details != m.spec.subnet.details
    ensures Fair(w, q, d) && !AllFaithful(w.subnets, d)
  {
    assert m in n.members && n in d.pools;
    assert KeyOf(Stored(w.subnets, m.spec)) != KeyOf(m.spec);
    assert !Faithful(w.subnets, m.spec);
  }

  lemma FreshStart(reported: string, q: Query)
    requires q == Query(None, "lb")
    ensures
      var w := World([], [], [], map["u" := Subnet("u", reported)], "a", 1);
      Valid(w) && AllReported(w) && FoundIn(w, q).None? && FindByServiceInfo(w.lbs, q).Success?
  {
  }

  lemma OneWord(a: string, x: string)
    ensures TailsMeet({a}, {x})
  {
  }
}
