/** The loop of pkg/cloudscale_ccm/reconcile.go: `actualLbState`, `runActions` and `reconcileLbState`. */
module Reconcile {
  import opened Seqs
  import opened Domain
  import opened CloudWorld
  import opened Limiters
  import opened Lookup
  import opened Planner
  import opened Rounds
  import opened Frames
  import opened FinalRounds
  import opened Runs
  import opened Progress
  import opened Finishing
  import opened Clouds

  // ---------------------------------------------------------------- actualLbState

  /** The resources of a list that have this owner. */
  method OwnedBy(list: seq<Item>, owner: Owner) returns (r: seq<Item>)
    ensures r == Filter(list, (i: Item) => i.owner == owner)
  {
    r := [];
    for k := 0 to |list|
      invariant r == Filter(list[..k], (i: Item) => i.owner == owner)
    {
      assert list[..k + 1] == list[..k] + [list[k]];
      FilterLast(list[..k], list[k], (i: Item) => i.owner == owner);
      if list[k].owner == owner {
        r := r + [list[k]];
      }
    }
    assert list[..|list|] == list;
  }

  /** The listing of all resources of one kind. */
  function Listed(items: seq<Item>, kind: Kind): seq<Item> {
    Filter(items, (i: Item) => KindOf(i.spec) == kind)
  }

  lemma ListedOwned(items: seq<Item>, owner: Owner, kind: Kind)
    ensures Filter(Listed(items, kind), (i: Item) => i.owner == owner) == Children(items, owner, kind)
  {
    FilterTwice(items, (i: Item) => KindOf(i.spec) == kind, (i: Item) => i.owner == owner, i => IsChild(i, owner, kind));
  }

  method PoolStates(items: seq<Item>, lb: Uuid) returns (nodes: seq<PoolNode>)
    ensures nodes == NodesOf(items, lb)
  {
    var monitors := Listed(items, KMonitor);
    var listeners := Listed(items, KListener);
    var pools := Listed(items, KPool);
    nodes := [];
    var own := (p: Item) => p.owner == OnLb(lb);
    hide Children;
    hide Listed;
    hide KindOf;
    for k := 0 to |pools|
      invariant nodes == Map(Filter(pools[..k], own), NodeOf(items))
    {
      var p := pools[k];
      assert pools[..k + 1] == pools[..k] + [p];
      FilterLast(pools[..k], p, own);
      if p.owner != OnLb(lb) {
        continue;
      }
      var members := Children(items, InPool(p.id), KMember);
      var ms := OwnedBy(monitors, InPool(p.id));
      var ls := OwnedBy(listeners, InPool(p.id));
      ListedOwned(items, InPool(p.id), KMonitor);
      ListedOwned(items, InPool(p.id), KListener);
      MapLast(Filter(pools[..k], own), p, NodeOf(items));
      nodes := nodes + [PoolNode(p, members, ls, ms)];
    }
    assert pools[..|pools|] == pools;
    ListedOwned(items, OnLb(lb), KPool);
  }

  method AssignedNetworksOf(fips: seq<Fip>, lb: Uuid) returns (networks: seq<string>)
    ensures networks == NetworksOf(fips, lb)
  {
    var own, network := (f: Fip) => f.lb == Some(lb), (f: Fip) => f.network;
    networks := [];
    for k := 0 to |fips|
      invariant networks == Map(Filter(fips[..k], own), network)
    {
      assert fips[..k + 1] == fips[..k] + [fips[k]];
      FilterLast(fips[..k], fips[k], own);
      if fips[k].lb == Some(lb) {
        MapLast(Filter(fips[..k], own), fips[k], network);
        networks := networks + [fips[k].network];
      }
    }
    assert fips[..|fips|] == fips;
  }

  /** Fails exactly if the lookup does, with the calls of it that fail, or there is a load balancer and one of the
      listings of what belongs to it fails. */
  method ActualLbState(cloud: Cloud, q: Query, status: string, uuidFails: bool, listFails: bool, listingFails: bool)
    returns (r: Result<State, Count>)
    ensures
      var found := FindDespite(cloud.lbs, q, uuidFails, listFails);
      if found.Failure? then r == Failure(found.error)
      else if found.value.Some? && listingFails then r == Failure(CallError)
      else r == Success(Snapshot(cloud.State(), found.value, status))
  {
    var found := cloud.FindAtMostOne(q, uuidFails, listFails);
    if found.Failure? {
      return Failure(found.error);
    }
    if found.value.None? {
      return Success(State(None, "", [], []));
    }
    if listingFails {
      return Failure(CallError);
    }
    var lb := found.value.value;
    var pools := PoolStates(cloud.items, lb.id);
    var networks := AssignedNetworksOf(cloud.fips, lb.id);
    r := Success(State(Some(lb), status, pools, networks));
  }

  // ---------------------------------------------------------------- runActions

  datatype RunError = Aborted | CallFailed

  lemma ExecMore(w: World, b: seq<Action>, i: nat)
    requires i < |b| && Exec(w, b[..i]).control == Finished
    ensures
      var w1 := Exec(w, b[..i]).world;
      match Apply(w1, b[i])
      case Proceed(w2) => Exec(w, b[..i + 1]) == Ran(w2, Finished)
      case Refresh => Exec(w, b) == Ran(w1, MustRefetch)
      case Refused => true
  {
    var w1 := Exec(w, b[..i]).world;
    assert b[..i + 1] == b[..i] + [b[i]];
    ExecConcat(w, b[..i], [b[i]]);
    ExecOne(w1, b[i]);
    assert b == b[..i] + b[i..];
    ExecConcat(w, b[..i], b[i..]);
    assert b[i..][0] == b[i];
    hide Apply;
  }

  /** What one pass through the loop meets with: the status the load balancer is fetched with, whether the lookup of it
      by its name alone fails, or a listing of what belongs to it, before which actions the run is cancelled, and the
      calls of which actions fail. */
  datatype Condition = Condition(status: string, lookupFails: bool, listingFails: bool, cancelled: nat -> bool, callFails: nat -> bool)

  /** What the passes meet with, by their number. */
  type Conditions = nat -> Condition

  /** Waiting for a refetch or for the load balancer makes no call. */
  predicate Calls(a: Action) {
    !a.Refetch? && !a.AwaitLb?
  }

  /** Nothing is in the way of the action number `i`. */
  ghost predicate Clear(b: seq<Action>, at: Condition, i: nat)
    requires i < |b|
  {
    !at.cancelled(i) && !(Calls(b[i]) && at.callFails(i))
  }

  /** Why a batch did not get further than its first `k` actions: the run was cancelled, or the call of the next action
      failed or was refused by the cloud. */
  ghost predicate Stopped(w: World, b: seq<Action>, at: Condition, cause: RunError, k: nat) {
    && k < |b| && Exec(w, b[..k]).control == Finished
    && match cause
       case Aborted => at.cancelled(k)
       case CallFailed => !at.cancelled(k) && ((Calls(b[k]) && at.callFails(k)) || Apply(Exec(w, b[..k]).world, b[k]).Refused?)
  }

  /** Runs the actions until one asks for a refetch, the run is cancelled, or a call fails; then only the first `k`
      actions have had their effect. */
  method RunActions(cloud: Cloud, next: seq<Action>, at: Condition) returns (r: Result<bool, RunError>, ghost k: nat)
    modifies cloud
    ensures k <= |next| && cloud.State() == Exec(old(cloud.State()), next[..k]).world
    ensures forall i :: 0 <= i < k ==> Clear(next, at, i)
    ensures r.Success? ==> Exec(old(cloud.State()), next) == Ran(cloud.State(), if r.value then MustRefetch else Finished)
    ensures r.Success? ==> (r.value ==> k < |next| && Clear(next, at, k)) && (!r.value ==> k == |next|)
    ensures r.Failure? ==> Stopped(old(cloud.State()), next, at, r.error, k)
  {
    ghost var w := cloud.State();
    k := 0;
    for i := 0 to |next|
      invariant k == i
      invariant Exec(w, next[..i]) == Ran(cloud.State(), Finished)
      invariant forall j :: 0 <= j < i ==> Clear(next, at, j)
    {
      if at.cancelled(i) {
        return Failure(Aborted), i;
      }
      if Calls(next[i]) && at.callFails(i) {
        return Failure(CallFailed), i;
      }
      ExecMore(w, next, i);
      hide Exec;
      var control := cloud.Run(next[i]);
      if control == Errored {
        return Failure(CallFailed), i;
      }
      if control == RefreshNow {
        return Success(true), i;
      }
      k := i + 1;
    }
    assert next[..|next|] == next;
    r := Success(false);
  }

  // ---------------------------------------------------------------- reconcileLbState

  datatype Ended<E> = Done | NoDesired(error: E) | LookupFailed(count: Count) | PlanRefused(plan: PlanError) | RunFailed(cause: RunError)

  lemma PlannedTurn(w: World, q: Query, t: Turn, actual: State)
    requires FindByServiceInfo(w.lbs, q).Success?
    requires actual == Snapshot(w, FindByServiceInfo(w.lbs, q).value, t.status)
    requires !Refuses(t.desired, actual) && Possible(t.desired, actual, t.choice)
    ensures Planned(w, q, t) && Batch(w, q, t) == Plan(t.desired, actual, t.choice)
  {
    hide Refuses;
    hide Possible;
    hide Plan;
    hide Snapshot;
  }

  ghost predicate Requirable(w: World, q: Query, desired: State) {
    Valid(w) && (desired.lb.Some? ==> Wanted(w, q, desired))
  }

  /** A turn that went on: the cloud still fits the request, and if nobody kept it waiting, it came closer. */
  lemma WentOn(w: World, q: Query, t: Turn)
    requires Requirable(w, q, t.desired) && Planned(w, q, t) && TurnResult(w, q, t).control == MustRefetch
    ensures Requirable(TurnResult(w, q, t).world, q, t.desired)
    ensures t.status != "changing" ==> Closer(w, TurnResult(w, q, t).world, q, t.desired)
  {
    if t.desired.lb.Some? {
      hide Closer;
      TurnAccepted(w, q, t);
      TurnProgress(w, q, t);
    } else {
      WaitingTurn(w, q, t);
    }
  }

  lemma OngoingMore(w: World, q: Query, turns: seq<Turn>, t: Turn)
    requires Ongoing(w, q, turns) && Planned(After(w, q, turns), q, t)
    requires TurnResult(After(w, q, turns), q, t).control == MustRefetch
    ensures Ongoing(w, q, turns + [t]) && After(w, q, turns + [t]) == TurnResult(After(w, q, turns), q, t).world
  {
    assert (turns + [t])[..|turns|] == turns;
    hide TurnResult;
    hide Planned;
  }

  /** What the passes through the loop have for a desired state, by their number. */
  type Wishes<E> = nat -> Result<State, E>

  /** All desired states agree on whether a load balancer is wanted, under the name of the query, and ask for
      no other addresses than `ips`. */
  ghost predicate Agree<E(!new)>(q: Query, all: bool, ips: set<string>, desired: Wishes<E>) {
    forall n: nat :: desired(n).Success? ==> ConsistentState(q, all, ips, desired(n).value)
  }

  ghost predicate ConsistentState(q: Query, all: bool, ips: set<string>, d: State) {
    Consistent(q, all, ips, Turn(d, "", Choice([], [], [], [], [])))
  }

  lemma ForTurn<E(!new)>(q: Query, all: bool, ips: set<string>, desired: Wishes<E>, n: nat, t: Turn)
    requires Agree(q, all, ips, desired) && desired(n) == Success(t.desired)
    ensures Consistent(q, all, ips, t)
  {
    assert ConsistentState(q, all, ips, desired(n).value);
  }

  /** The turns were made for the desired states of their passes, under their conditions. */
  ghost predicate Made<E>(desired: Wishes<E>, at: Conditions, turns: seq<Turn>) {
    forall k :: 0 <= k < |turns| ==> desired(k) == Success(turns[k].desired) && turns[k].status == at(k).status
  }

  /** Why a pass did not get to a batch. */
  ghost predicate NotBegun<E>(w: World, q: Query, desired: State, at: Condition, e: Ended<E>) {
    match e
    case LookupFailed(_) => FindByServiceInfo(w.lbs, q).Failure? || at.lookupFails || at.listingFails
    case PlanRefused(_) => FindByServiceInfo(w.lbs, q).Success? && Refuses(desired, Snapshot(w, FoundIn(w, q), at.status))
    case _ => false
  }

  /** How a run ended: after which whole turns, within which turn, and why. */
  ghost predicate EndsAs<E(!new)>(w: World, q: Query, desired: Wishes<E>, at: Conditions, deadline: Option<nat>,
                                  e: Ended<E>, turns: seq<Turn>, last: Option<(Turn, nat)>, w1: World) {
    var w0, n := After(w, q, turns), |turns|;
    && Ongoing(w, q, turns) && Made(desired, at, turns)
    && match last
       case None =>
         && w1 == w0
         && (|| (e.NoDesired? && desired(n) == Failure(e.error))
             || (n > 0 && deadline == Some(n - 1) && e == RunFailed(Aborted))
             || (desired(n).Success? && NotBegun(w0, q, desired(n).value, at(n), e)))
       case Some((t, k)) =>
         && desired(n) == Success(t.desired) && t.status == at(n).status && Moment(w, q, turns, t, k, w1)
         && (e.Done? || e.RunFailed?)
         && (e.Done? ==> TurnResult(w0, q, t) == Ran(w1, Finished))
         && (e.RunFailed? ==> Stopped(w0, Batch(w0, q, t), at(n), e.cause, k))
  }

  lemma MadeConsistent<E(!new)>(q: Query, all: bool, ips: set<string>, desired: Wishes<E>, at: Conditions, turns: seq<Turn>)
    requires Agree(q, all, ips, desired) && Made(desired, at, turns)
    ensures forall t :: t in turns ==> Consistent(q, all, ips, t)
  {
    hide Consistent;
    hide Agree;
    forall t | t in turns
      ensures Consistent(q, all, ips, t)
    {
      var k :| 0 <= k < |turns| && turns[k] == t;
      ForTurn(q, all, ips, desired, k, t);
    }
  }

  /** Whatever way a run ends, everything but the service's own load balancer is as it was. */
  lemma EndFrame<E(!new)>(w: World, q: Query, all: bool, ips: set<string>, desired: Wishes<E>, at: Conditions, deadline: Option<nat>,
                          e: Ended<E>, turns: seq<Turn>, last: Option<(Turn, nat)>, w1: World)
    requires Valid(w) && Agree(q, all, ips, desired) && EndsAs(w, q, desired, at, deadline, e, turns, last, w1)
    ensures Valid(w1) && Frame(w, w1, Own(w, q), all, ips)
  {
    MadeConsistent(q, all, ips, desired, at, turns);
    hide After;
    hide Ongoing;
    hide Frame;
    hide TurnResult;
    hide Consistent;
    hide Valid;
    hide Made;
    hide Agree;
    hide Stopped;
    hide NotBegun;
    AfterFrame(w, q, turns, all, ips);
    if last.Some? {
      ForTurn(q, all, ips, desired, |turns|, last.value.0);
      RunFrame(w, q, turns, last.value.0, last.value.1, w1, all, ips);
    }
  }

  /** A pass that started at `w`: errors before the batch change nothing, and the batch has taken effect as far as
      `k` actions; success tells whether to go on. */
  ghost predicate Took<E>(w: World, q: Query, desired: State, at: Condition, more: Result<bool, Ended<E>>, t: Turn, k: nat,
                          began: bool, w1: World) {
    && t.desired == desired && t.status == at.status
    && (began ==> Planned(w, q, t) && k <= |Batch(w, q, t)| && w1 == Exec(w, Batch(w, q, t)[..k]).world)
    && (!began ==> w1 == w && more.Failure? && NotBegun(w, q, desired, at, more.error))
    && (more.Success? ==> TurnResult(w, q, t) == Ran(w1, if more.value then MustRefetch else Finished))
    && (began && more.Failure? ==> more.error.RunFailed? && Stopped(w, Batch(w, q, t), at, more.error.cause, k))
  }

  lemma SeenByName(lbs: seq<Lb>, q: Query, listFails: bool)
    ensures
      var r := FindDespite(lbs, q, false, listFails && q.uuid.None?);
      r == FindByServiceInfo(lbs, q) || (r.Failure? && listFails)
  {
    NothingFails(lbs, q);
    hide Deduped;
  }

  /** One pass through the loop: fetch, plan, and run the batch. Success tells whether to go on;
      `began` whether the batch was started. */
  method TakeTurn<E>(cloud: Cloud, q: Query, desired: State, at: Condition)
    returns (r: Result<bool, Ended<E>>, ghost t: Turn, ghost k: nat, ghost began: bool)
    modifies cloud
    ensures Took(old(cloud.State()), q, desired, at, r, t, k, began, cloud.State())
  {
    hide Plan;
    hide Snapshot;
    hide Refuses;
    hide Possible;
    hide Exec;
    hide Stopped;
    hide FindDespite;
    hide FindByServiceInfo;
    t, k, began := Turn(desired, at.status, Choice([], [], [], [], [])), 0, false;
    SeenByName(cloud.lbs, q, at.lookupFails);
    var actual := ActualLbState(cloud, q, at.status, false, at.lookupFails && q.uuid.None?, at.listingFails);
    if actual.Failure? {
      r := Failure(LookupFailed(actual.error));
      return;
    }
    var next;
    ghost var c;
    next, c := NextLbActions(desired, actual.value);
    if next.Failure? {
      r := Failure(PlanRefused(next.error));
      return;
    }
    t, began := Turn(desired, at.status, c), true;
    PlannedTurn(cloud.State(), q, t, actual.value);
    var updateState;
    updateState, k := RunActions(cloud, next.value, at);
    r := if updateState.Failure? then Failure(RunFailed(updateState.error)) else Success(updateState.value);
  }

  function EndOf<E>(more: Result<bool, Ended<E>>): Ended<E> {
    if more.Failure? then more.error else Done
  }

  /** A desired state that the reconciler could reach at first, it can still reach later. */
  lemma StillRequirable(w: World, q: Query, turns: seq<Turn>, all: bool, ips: set<string>, d: State)
    requires Requirable(w, q, d) && Ongoing(w, q, turns) && forall t :: t in turns ==> Consistent(q, all, ips, t)
    ensures Requirable(After(w, q, turns), q, d)
  {
    AfterFrame(w, q, turns, all, ips);
    hide After;
    hide Ongoing;
    hide Consistent;
    hide Valid;
    hide Foreign;
    hide OtherLbs;
    hide Wanted;
    if d.lb.Some? {
      WantedStill(w, After(w, q, turns), q, d);
    }
  }

  lemma EndOfRun(w: World, q: Query, t: Turn)
    requires Requirable(w, q, t.desired) && Planned(w, q, t) && TurnResult(w, q, t).control == Finished
    ensures Reached(TurnResult(w, q, t).world, q, t.desired)
  {
    hide Settled;
    if t.desired.lb.Some? {
      TurnProgress(w, q, t);
    } else {
      DeletionEnds(w, q, t);
    }
  }

  lemma Ending<E(!new)>(w: World, q: Query, all: bool, ips: set<string>, desired: Wishes<E>, at: Conditions, deadline: Option<nat>,
                        turns: seq<Turn>, d: State, more: Result<bool, Ended<E>>, t: Turn, k: nat, began: bool, w1: World)
    requires Valid(w) && Agree(q, all, ips, desired) && Ongoing(w, q, turns) && Made(desired, at, turns)
    requires desired(|turns|) == Success(d)
    requires Took(After(w, q, turns), q, d, at(|turns|), more, t, k, began, w1)
    requires more.Success? ==> !more.value
    ensures EndsAs(w, q, desired, at, deadline, EndOf(more), turns, if began then Some((t, k)) else None, w1)
    ensures more.Success? && Requirable(w, q, d) ==> Reached(w1, q, d)
    ensures more.Success? && !all ==> FoundIn(w1, q).Some? && d.lb.Some? && Suits(d.lb.value, FoundIn(w1, q).value)
    ensures (EndOf(more).Done? <==> more.Success?) && (more.Success? ==> began && t.desired == d)
  {
    hide Reached;
    hide Requirable;
    hide After;
    hide Ongoing;
    hide TurnResult;
    hide Planned;
    hide Batch;
    hide Agree;
    hide Valid;
    hide Consistent;
    hide FoundIn;
    if more.Success? {
      MadeConsistent(q, all, ips, desired, at, turns);
      ForTurn(q, all, ips, desired, |turns|, t);
      hide Made;
      AfterFrame(w, q, turns, all, ips);
      hide Frame;
      if !all {
        FinishedSuits(After(w, q, turns), q, t, ips);
      }
      if Requirable(w, q, d) {
        StillRequirable(w, q, turns, all, ips, d);
        EndOfRun(After(w, q, turns), q, t);
      }
    }
  }

  /** The cloud is as desired: settled, or without the load balancer. */
  ghost predicate Reached(w: World, q: Query, d: State) {
    && (d.lb.Some? ==> FoundIn(w, q).Some? && Settled(w, FoundIn(w, q).value, d))
    && (d.lb.None? ==> FindByServiceInfo(w.lbs, q) == Success(None))
  }

  /** Without a deadline, passes must all be for one state that the reconciler can reach, and the load balancer must
      not be found changing any more from some pass on. */
  ghost predicate Endable<E(!new)>(w: World, q: Query, desired: Wishes<E>, at: Conditions, deadline: Option<nat>, calm: nat) {
    deadline.None? && desired(0).Success? ==>
      && Requirable(w, q, desired(0).value) && (forall n: nat :: desired(n) == desired(0))
      && forall n: nat :: n >= calm ==> at(n).status != "changing"
  }

  lemma SameWish<E(!new)>(w: World, q: Query, desired: Wishes<E>, at: Conditions, calm: nat, pass: nat)
    requires Endable(w, q, desired, at, None, calm) && desired(0).Success?
    ensures desired(pass) == desired(0) && Requirable(w, q, desired(0).value)
    ensures pass >= calm ==> at(pass).status != "changing"
  {
    hide Requirable;
  }

  lemma MadeMore<E>(desired: Wishes<E>, at: Conditions, turns: seq<Turn>, t: Turn)
    requires Made(desired, at, turns) && desired(|turns|) == Success(t.desired) && t.status == at(|turns|).status
    ensures Made(desired, at, turns + [t])
  {
  }

  lemma EndsBetween<E(!new)>(w: World, q: Query, desired: Wishes<E>, at: Conditions, deadline: Option<nat>, e: Ended<E>, turns: seq<Turn>)
    requires Ongoing(w, q, turns) && Made(desired, at, turns)
    requires
      || (turns != [] && deadline == Some(|turns| - 1) && e == RunFailed(Aborted))
      || (e.NoDesired? && desired(|turns|) == Failure(e.error))
    ensures EndsAs(w, q, desired, at, deadline, e, turns, None, After(w, q, turns))
  {
  }

  lemma GoesOn<E>(w: World, q: Query, d: State, at: Condition, more: Result<bool, Ended<E>>, t: Turn, k: nat, began: bool, w1: World)
    requires Took(w, q, d, at, more, t, k, began, w1) && more == Success(true)
    ensures t.desired == d && t.status == at.status && Planned(w, q, t) && TurnResult(w, q, t) == Ran(w1, MustRefetch)
  {
    hide Planned;
    hide TurnResult;
  }

  // ---------------------------------------------------------------- nothing but disturbances stops a run

  ghost predicate Quiet(at: Condition) {
    !at.lookupFails && !at.listingFails && forall i: nat :: !at.cancelled(i) && !at.callFails(i)
  }

  /** No call fails and nothing is cancelled. */
  ghost predicate Undisturbed(at: Conditions) {
    forall n: nat :: Quiet(at(n))
  }

  /** All passes are for one desired state. */
  ghost predicate Steady<E(!new)>(desired: Wishes<E>) {
    desired(0).Success? && forall n: nat :: desired(n) == desired(0)
  }

  /** Nothing speaks against a run: the lookup succeeds, and for a wanted load balancer, the one that is found passes
      the checks, keys tell pool names, and the request is one that the cloud can fulfil. */
  ghost predicate CanEnd(w: World, q: Query, d: State) {
    Valid(w) && FindByServiceInfo(w.lbs, q).Success?
    && (d.lb.Some? ==> AllFaithful(w.subnets, d) && exists names: Key -> string :: Ready(names, w, q, d))
  }

  lemma TurnCanEnd(w: World, q: Query, t: Turn)
    requires CanEnd(w, q, t.desired) && Planned(w, q, t) && TurnResult(w, q, t).control == MustRefetch
    ensures CanEnd(TurnResult(w, q, t).world, q, t.desired)
  {
    var w1 := TurnResult(w, q, t).world;
    if t.desired.lb.Some? {
      var names: Key -> string :| Ready(names, w, q, t.desired);
      ReadyGood(names, w, q, t);
      ReadyStill(names, w, q, t);
      FaithfulStill(w, q, t);
      ReadyParts(names, w1, q, t.desired);
    } else {
      WaitingTurn(w, q, t);
    }
    hide Ready;
    hide AllFaithful;
    hide Valid;
    hide Planned;
    hide TurnResult;
    hide FindByServiceInfo;
  }

  lemma ReadyParts(names: Key -> string, w: World, q: Query, d: State)
    requires Ready(names, w, q, d)
    ensures Valid(w) && FindByServiceInfo(w.lbs, q).Success?
  {
  }

  lemma {:induction false} AfterCanEnd(w: World, q: Query, turns: seq<Turn>, d: State)
    requires CanEnd(w, q, d) && Ongoing(w, q, turns) && forall t :: t in turns ==> t.desired == d
    ensures CanEnd(After(w, q, turns), q, d)
  {
    hide CanEnd;
    hide Planned;
    hide TurnResult;
    if turns != [] {
      var init, t := turns[..|turns| - 1], turns[|turns| - 1];
      assert turns == init + [t];
      AfterCanEnd(w, q, init, d);
      TurnCanEnd(After(w, q, init), q, t);
    }
  }

  lemma RefusedFails(w: World, b: seq<Action>, k: nat)
    requires k < |b| && Exec(w, b[..k]).control == Finished && Apply(Exec(w, b[..k]).world, b[k]).Refused?
    ensures Exec(w, b).control == Failed
  {
    assert b == b[..k] + b[k..] && b[k..][0] == b[k];
    ExecConcat(w, b[..k], b[k..]);
    hide Apply;
  }

  lemma NothingRefused(w: World, q: Query, t: Turn)
    requires CanEnd(w, q, t.desired) && Planned(w, q, t)
    ensures TurnResult(w, q, t).control != Failed
  {
    if t.desired.lb.Some? {
      var names: Key -> string :| Ready(names, w, q, t.desired);
      ReadyGood(names, w, q, t);
      hide Ready;
      hide AllFaithful;
      hide GoodTurn;
      TurnAccepted(w, q, t);
    } else if FoundIn(w, q).Some? {
      var l := FoundIn(w, q).value;
      FoundInLbs(w, q);
      DeletionBatch(w, t.status, l.id);
      assert HasLb(w.lbs, l.id);
      hide Exec;
    }
  }

  lemma NotRefused(w: World, q: Query, d: State, status: string)
    requires CanEnd(w, q, d)
    ensures !Refuses(d, Snapshot(w, FoundIn(w, q), status))
  {
    if d.lb.Some? {
      var names: Key -> string :| Ready(names, w, q, d);
      ReadyPlans(names, w, q, d, status);
      hide Ready;
    }
    hide AllFaithful;
    hide Snapshot;
  }

  lemma MadeFor<E(!new)>(desired: Wishes<E>, at: Conditions, turns: seq<Turn>, d: State)
    requires Steady(desired) && Made(desired, at, turns) && desired(0) == Success(d)
    ensures forall t :: t in turns ==> t.desired == d
  {
    forall t | t in turns
      ensures t.desired == d
    {
      var k :| 0 <= k < |turns| && turns[k] == t;
    }
  }

  /** A run that nothing disturbs, for a state that nothing speaks against, ends well, or when the deadline is over. */
  lemma MustEnd<E(!new)>(w: World, q: Query, desired: Wishes<E>, at: Conditions, deadline: Option<nat>, e: Ended<E>, turns: seq<Turn>,
                         last: Option<(Turn, nat)>, w1: World)
    requires EndsAs(w, q, desired, at, deadline, e, turns, last, w1) && Undisturbed(at) && Steady(desired)
    requires CanEnd(w, q, desired(0).value)
    ensures e.Done? || (e == RunFailed(Aborted) && last.None? && deadline == Some(|turns| - 1))
  {
    var d, w0, n := desired(0).value, After(w, q, turns), |turns|;
    assert desired(n) == desired(0) && Quiet(at(n));
    MadeFor(desired, at, turns, d);
    hide Undisturbed;
    hide Steady;
    hide Made;
    hide CanEnd;
    hide Ongoing;
    hide After;
    hide Apply;
    AfterCanEnd(w, q, turns, d);
    assert FindByServiceInfo(w0.lbs, q).Success? by { CanEndFinds(w0, q, d); }
    hide FindByServiceInfo;
    NotRefused(w0, q, d, at(n).status);
    hide Refuses;
    hide Snapshot;
    hide FoundIn;
    if last.Some? && e.RunFailed? {
      var (t, k) := last.value;
      assert e.cause == CallFailed;
      hide Moment;
      hide Batch;
      RefusedFails(w0, Batch(w0, q, t), k);
      MomentPlanned(w, q, turns, t, k, w1);
      hide Exec;
      NothingRefused(w0, q, t);
      assert false;
    }
  }

  lemma CanEndFinds(w: World, q: Query, d: State)
    requires CanEnd(w, q, d)
    ensures FindByServiceInfo(w.lbs, q).Success?
  {
  }

  lemma MomentPlanned(w: World, q: Query, turns: seq<Turn>, t: Turn, k: nat, w1: World)
    requires Moment(w, q, turns, t, k, w1)
    ensures Planned(After(w, q, turns), q, t)
  {
    hide Planned;
    hide Batch;
    hide Exec;
  }

  // ---------------------------------------------------------------- the loop

  /** Reconciles the cloud with a desired state, which may be another one in every pass. The deadline passes after
      so many passes. A run that ends well has reached the desired state of its last pass, if it can be reached; and
      one that nothing disturbs ends well, or when the deadline is over. */
  method ReconcileLbState<E(!new)>(cloud: Cloud, q: Query, desired: Wishes<E>, at: Conditions, deadline: Option<nat>,
                                   ghost calm: nat, ghost all: bool, ghost ips: set<string>)
    returns (e: Ended<E>, ghost turns: seq<Turn>, ghost last: Option<(Turn, nat)>)
    requires Valid(cloud.State()) && Agree(q, all, ips, desired) && Endable(cloud.State(), q, desired, at, deadline, calm)
    modifies cloud
    ensures EndsAs(old(cloud.State()), q, desired, at, deadline, e, turns, last, cloud.State())
    ensures Valid(cloud.State()) && Frame(old(cloud.State()), cloud.State(), Own(old(cloud.State()), q), all, ips)
    ensures e.Done? && !all ==>
      var wish := last.value.0.desired.lb;
      FoundIn(cloud.State(), q).Some? && wish.Some? && Suits(wish.value, FoundIn(cloud.State(), q).value)
    ensures e.Done? && Requirable(old(cloud.State()), q, last.value.0.desired) ==> Reached(cloud.State(), q, last.value.0.desired)
    ensures Undisturbed(at) && Steady(desired) && CanEnd(old(cloud.State()), q, desired(0).value) ==>
      e.Done? || (e == RunFailed(Aborted) && deadline == Some(|turns| - 1))
  {
    hide *;
    ghost var w := cloud.State();
    var pass := 0;
    turns, last := [], None;
    NoTurns(w, q, desired, at);
    if deadline.None? && desired(0).Success? {
      SameWish(w, q, desired, at, calm, 0);
    }
    while true
      invariant pass == |turns| && (deadline.Some? ==> pass <= deadline.value)
      invariant Ongoing(w, q, turns) && cloud.State() == After(w, q, turns) && Made(desired, at, turns)
      invariant Valid(w) && Agree(q, all, ips, desired) && Endable(w, q, desired, at, deadline, calm)
      invariant deadline.None? && desired(0).Success? ==> Requirable(cloud.State(), q, desired(0).value)
      invariant deadline.None? && pass > 0 ==> desired(0).Success?
      decreases
        if deadline.Some? then deadline.value - pass else 0,
        if deadline.None? && pass < calm then calm - pass else 0,
        if desired(0).Success? then Missing(cloud.State(), q) else 0,
        if desired(0).Success? then PoolsLeft(cloud.State(), q, desired(0).value) else 0,
        if desired(0).Success? then ChildrenLeft(cloud.State(), q, desired(0).value) else 0
    {
      ghost var w0 := cloud.State();
      var wish := desired(pass);
      if deadline.None? && desired(0).Success? {
        SameWish(w, q, desired, at, calm, pass);
      }
      if wish.Failure? {
        e := NoDesired(wish.error);
        EndsBetween(w, q, desired, at, deadline, e, turns);
        EndFrame(w, q, all, ips, desired, at, deadline, e, turns, last, cloud.State());
        Concluded(w, q, desired, at, deadline, e, turns, last, cloud.State());
        return;
      }
      var more;
      ghost var t, k, began;
      more, t, k, began := TakeTurn(cloud, q, wish.value, at(pass));
      if more.Failure? || !more.value {
        e := EndOf(more);
        last := if began then Some((t, k)) else None;
        Ending(w, q, all, ips, desired, at, deadline, turns, wish.value, more, t, k, began, cloud.State());
        EndFrame(w, q, all, ips, desired, at, deadline, e, turns, last, cloud.State());
        Concluded(w, q, desired, at, deadline, e, turns, last, cloud.State());
        return;
      }
      GoesOn(w0, q, wish.value, at(pass), more, t, k, began, cloud.State());
      OngoingMore(w, q, turns, t);
      MadeMore(desired, at, turns, t);
      turns := turns + [t];
      if deadline.None? {
        WentOn(w0, q, t);
        if pass >= calm {
          CloserMeans(w0, cloud.State(), q, t.desired);
        }
      }
      if deadline == Some(pass) {
        e := RunFailed(Aborted);
        EndsBetween(w, q, desired, at, deadline, e, turns);
        EndFrame(w, q, all, ips, desired, at, deadline, e, turns, last, cloud.State());
        Concluded(w, q, desired, at, deadline, e, turns, last, cloud.State());
        return;
      }
      pass := pass + 1;
    }
  }

  lemma Concluded<E(!new)>(w: World, q: Query, desired: Wishes<E>, at: Conditions, deadline: Option<nat>, e: Ended<E>, turns: seq<Turn>,
                           last: Option<(Turn, nat)>, w1: World)
    requires EndsAs(w, q, desired, at, deadline, e, turns, last, w1)
    ensures Undisturbed(at) && Steady(desired) && CanEnd(w, q, desired(0).value) ==>
      e.Done? || (e == RunFailed(Aborted) && deadline == Some(|turns| - 1))
  {
    hide EndsAs;
    hide Undisturbed;
    hide CanEnd;
    if Undisturbed(at) && Steady(desired) && CanEnd(w, q, desired(0).value) {
      MustEnd(w, q, desired, at, deadline, e, turns, last, w1);
    }
  }

  lemma NoTurns<E>(w: World, q: Query, desired: Wishes<E>, at: Conditions)
    ensures Ongoing(w, q, []) && After(w, q, []) == w && Made(desired, at, [])
  {
  }
}
