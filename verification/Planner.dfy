/** `nextLbActions` of pkg/cloudscale_ccm/reconcile.go: the batch of one round. */
module Planner {
  import opened Seqs
  import opened Compare
  import opened Domain
  import opened CloudWorld

  // ---------------------------------------------------------------- refusals

  datatype PlanError = VipsChanged | FlavorChanged | ZoneChanged | NoPoolFound(name: string)

  /** A desired address may be left open; subnets and the number of addresses have to agree. */
  predicate VipsAgree(d: seq<Vip>, a: seq<Vip>) {
    && |d| == |a|
    && forall i :: 0 <= i < |d| ==> (d[i].address == "" || d[i].address == a[i].address) && d[i].subnet == a[i].subnet
  }

  /** Why an existing load balancer cannot be turned into the desired one. */
  function LbRefusal(d: Lb, a: Lb): Option<PlanError> {
    if |d.vips| > 0 && !VipsAgree(d.vips, a.vips) then Some(VipsChanged)
    else if d.flavor != a.flavor then Some(FlavorChanged)
    else if d.zone != a.zone then Some(ZoneChanged)
    else None
  }

  /** The addresses asked for, if any, are those there are, where they are not left open, in the same subnets. */
  ghost predicate AddressesFit(d: seq<Vip>, a: seq<Vip>) {
    d != [] ==>
      && |d| == |a|
      && forall i :: 0 <= i < |d| ==> d[i].subnet == a[i].subnet && d[i].address in {"", a[i].address}
  }

  /** The load balancer can stay as it is, but for its name. */
  ghost predicate Suits(d: Lb, a: Lb) {
    AddressesFit(d.vips, a.vips) && d.flavor == a.flavor && d.zone == a.zone
  }

  /** The first difference decides, of addresses, flavor and zone in this order. */
  lemma RefusalExactly(d: Lb, a: Lb)
    ensures LbRefusal(d, a).None? <==> Suits(d, a)
    ensures LbRefusal(d, a) == Some(VipsChanged) <==> !AddressesFit(d.vips, a.vips)
    ensures LbRefusal(d, a) == Some(FlavorChanged) <==> AddressesFit(d.vips, a.vips) && d.flavor != a.flavor
    ensures LbRefusal(d, a) == Some(ZoneChanged) <==> AddressesFit(d.vips, a.vips) && d.flavor == a.flavor && d.zone != a.zone
  {
    if d.vips != [] && |d.vips| == |a.vips| && !AddressesFit(d.vips, a.vips) {
      var i :| 0 <= i < |d.vips| && !(d.vips[i].subnet == a.vips[i].subnet && d.vips[i].address in {"", a.vips[i].address});
    }
  }

  /** Every desired pool is found by its name among the actual pools. */
  ghost predicate Resolves(desired: seq<PoolNode>, actual: seq<PoolNode>) {
    forall d :: d in desired ==> NodeName(d) in Index(actual, NodeName)
  }

  /** The first desired pool that is not found has this name. */
  ghost predicate FirstMissing(desired: seq<PoolNode>, actual: seq<PoolNode>, name: string) {
    exists i :: 0 <= i < |desired| && NodeName(desired[i]) == name && name !in KeySet(actual, NodeName)
      && forall j :: 0 <= j < i ==> NodeName(desired[j]) in KeySet(actual, NodeName)
  }

  ghost predicate SamePools(d: State, a: State) {
    KeySet(d.pools, NodeKey) == KeySet(a.pools, NodeKey)
  }

  /** The planner returns an error instead of a batch. */
  ghost predicate Refuses(d: State, a: State) {
    d.lb.Some? && a.lb.Some? && (LbRefusal(d.lb.value, a.lb.value).Some? || (SamePools(d, a) && !Resolves(d.pools, a.pools)))
  }

  // ---------------------------------------------------------------- jobs and steps

  /** One comparison of desired with actual children of a pool. */
  datatype Job = Job(pool: Uuid, kind: Kind, want: seq<Item>, have: seq<Item>)

  /** A comparison with what `Diff` returned for it. */
  datatype JobDiff = JobDiff(job: Job, del: seq<Item>, cre: seq<Item>)

  function JobsOf(d: PoolNode, a: PoolNode): seq<Job> {
    [Job(a.pool.id, KMember, d.members, a.members),
     Job(a.pool.id, KListener, d.listeners, a.listeners),
     Job(a.pool.id, KMonitor, d.monitors, a.monitors)]
  }

  function JobsBy(byName: map<string, PoolNode>): PoolNode -> seq<Job> {
    (d: PoolNode) => if NodeName(d) in byName then JobsOf(d, byName[NodeName(d)]) else []
  }

  /** The comparisons of a round, for each desired pool its members, listeners and monitors. */
  function Jobs(desired: seq<PoolNode>, actual: seq<PoolNode>): seq<Job> {
    Flat(desired, JobsBy(Index(actual, NodeName)))
  }

  const Deletion: Item -> seq<Action> := (i: Item) => [DeleteResource(i.id), Sleep(500)]

  function Deletions(items: seq<Item>): seq<Action> {
    Flat(items, Deletion)
  }

  const PoolRemoval: PoolNode -> seq<Action> := (n: PoolNode) => Deletions(n.members + [n.pool])

  function PoolCreation(lb: Uuid): PoolNode -> Action {
    (n: PoolNode) => CreatePool(lb, n.pool)
  }

  function CreateIn(pool: Uuid, kind: Kind, i: Item): Action {
    match kind
    case KPool => CreatePool(pool, i)
    case KMember => CreatePoolMember(pool, i)
    case KListener => CreateListener(pool, i)
    case KMonitor => CreateHealthMonitor(pool, i)
  }

  function CreationIn(pool: Uuid, kind: Kind): Item -> Action {
    (i: Item) => CreateIn(pool, kind, i)
  }

  const JobSteps: JobDiff -> seq<Action> := (x: JobDiff) =>
    Deletions(x.del) + When(|x.del| > 0 && |x.cre| > 0, Sleep(5000)) + Map(x.cre, CreationIn(x.job.pool, x.job.kind))

  function When(b: bool, a: Action): seq<Action> {
    if b then [a] else []
  }

  function ListenerUpdates(d: Spec, id: Uuid, a: Spec): seq<Action>
    requires d.Listener? && a.Listener?
  {
    When(d.allowedCIDRs != a.allowedCIDRs, UpdateListenerAllowedCIDRs(id, d.allowedCIDRs))
    + When(d.timeoutClientDataMS != a.timeoutClientDataMS,
           UpdateListenerTimeout(id, d.timeoutClientDataMS, "client-data-ms"))
    + When(d.timeoutMemberConnectMS != a.timeoutMemberConnectMS,
           UpdateListenerTimeout(id, d.timeoutMemberConnectMS, "member-connect-ms"))
    + When(d.timeoutMemberDataMS != a.timeoutMemberDataMS,
           UpdateListenerTimeout(id, d.timeoutMemberDataMS, "member-data-ms"))
  }

  /** Hosts are pointers into different responses, which differ unless both are nil. */
  function HttpUpdates(d: Http, id: Uuid, a: Http): seq<Action> {
    When(d.host.Some? || a.host.Some?, UpdateMonitorHTTPHost(id, d.host))
    + When(d.urlPath != a.urlPath, UpdateMonitorHTTPPath(id, d.urlPath))
    + When(d.verb != a.verb, UpdateMonitorHTTPMethod(id, d.verb))
    + When(d.expectedCodes != a.expectedCodes, UpdateMonitorHTTPExpectedCodes(id, d.expectedCodes))
  }

  function NumberUpdates(d: Spec, id: Uuid, a: Spec): seq<Action>
    requires d.Monitor? && a.Monitor?
  {
    When(d.delayS != a.delayS, UpdateMonitorNumber(id, d.delayS, "delay-s"))
    + When(d.timeoutS != a.timeoutS, UpdateMonitorNumber(id, d.timeoutS, "timeout-s"))
    + When(d.upThreshold != a.upThreshold, UpdateMonitorNumber(id, d.upThreshold, "up-threshold"))
    + When(d.downThreshold != a.downThreshold, UpdateMonitorNumber(id, d.downThreshold, "down-threshold"))
  }

  /** The in-place updates of one matched pair. */
  function PairUpdates(p: (Item, Item)): seq<Action> {
    var d, id, a := p.0.spec, p.1.id, p.1.spec;
    if d.Listener? && a.Listener? then ListenerUpdates(d, id, a)
    else if d.Monitor? && a.Monitor? then
      (if d.http.Some? && a.http.Some? then HttpUpdates(d.http.value, id, a.http.value) else [])
      + NumberUpdates(d, id, a)
    else []
  }

  const Update: ((Item, Item)) -> seq<Action> := (p: (Item, Item)) => PairUpdates(p)

  /** The matched listeners or monitors of one comparison. */
  const JobPairs: Job -> seq<(Item, Item)> := (j: Job) =>
    if j.kind == KMember then [] else Matched(j.want, j.have, ItemKey)

  function Pairs(jobs: seq<Job>): seq<(Item, Item)> {
    Flat(jobs, JobPairs)
  }

  function Assignment(lb: Uuid): string -> Action {
    (ip: string) => AssignFloatingIP(ip, lb)
  }

  // ---------------------------------------------------------------- the batch

  /** What the map iterations of one call of the planner came up with. */
  datatype Choice = Choice(poolDel: seq<PoolNode>, poolCre: seq<PoolNode>, diffs: seq<JobDiff>,
                           release: seq<string>, assign: seq<string>)

  const Same: string -> string := (ip: string) => ip

  ghost predicate DiffOf(j: Job, x: JobDiff) {
    x.job == j && IsDiff(j.want, j.have, ItemKey, x.del, x.cre)
  }

  ghost predicate DiffsOf(jobs: seq<Job>, diffs: seq<JobDiff>) {
    |diffs| == |jobs| && forall k :: 0 <= k < |jobs| ==> DiffOf(jobs[k], diffs[k])
  }

  /** `c` is something the map iterations may come up with for these two states. */
  ghost predicate Possible(d: State, a: State, c: Choice) {
    d.lb.Some? && a.lb.Some? ==>
      && IsDiff(d.pools, a.pools, NodeKey, c.poolDel, c.poolCre)
      && (c.poolDel == [] && c.poolCre == [] ==>
        && Resolves(d.pools, a.pools)
        && DiffsOf(Jobs(d.pools, a.pools), c.diffs)
        && IsDiff(d.floatingIPs, a.floatingIPs, Same, c.release, c.assign))
  }

  function Opening(d: Lb, status: string, a: Lb): seq<Action> {
    [AwaitLb(status)] + When(d.name != a.name, RenameLb(a.id, d.name))
  }

  function PoolSteps(lb: Uuid, del: seq<PoolNode>, cre: seq<PoolNode>): seq<Action> {
    Flat(del, PoolRemoval) + Map(cre, PoolCreation(lb))
  }

  /** The batch the planner returns, given the order its maps were iterated in. */
  function Plan(d: State, a: State, c: Choice): seq<Action> {
    if d.lb.None? && a.lb.None? then []
    else if a.lb.None? then [CreateLb(d.lb.value), Refetch]
    else if d.lb.None? then [AwaitLb(a.status), DeleteResource(a.lb.value.id)]
    else
      var opening := Opening(d.lb.value, a.status, a.lb.value);
      if c.poolDel != [] || c.poolCre != [] then opening + PoolSteps(a.lb.value.id, c.poolDel, c.poolCre) + [Refetch]
      else
        var steps := Flat(c.diffs, JobSteps);
        if steps != [] then opening + steps + [Refetch]
        else opening + Flat(Pairs(Jobs(d.pools, a.pools)), Update) + Map(c.assign, Assignment(a.lb.value.id))
  }

  // ---------------------------------------------------------------- the method

  method PoolChanges(next: seq<Action>, lb: Uuid, del: seq<PoolNode>, cre: seq<PoolNode>) returns (r: seq<Action>)
    ensures r == next + PoolSteps(lb, del, cre)
  {
    r := AppendAll(next, del, PoolRemoval);
    r := AppendEach(r, cre, PoolCreation(lb));
  }

  method JobChanges(next: seq<Action>, j: Job) returns (r: seq<Action>, ghost x: JobDiff)
    ensures DiffOf(j, x)
    ensures r == next + JobSteps(x)
  {
    hide IsDiff;
    var del, cre := Diff(j.want, j.have, ItemKey);
    x := JobDiff(j, del, cre);
    r := AppendAll(next, del, Deletion);
    if |del| > 0 && |cre| > 0 {
      r := r + [Sleep(5000)];
    }
    r := AppendEach(r, cre, CreationIn(j.pool, j.kind));
  }

  method PoolsByName(pools: seq<PoolNode>) returns (m: map<string, PoolNode>)
    ensures m == Index(pools, NodeName)
  {
    m := map[];
    for i := 0 to |pools|
      invariant m == Index(pools[..i], NodeName)
    {
      assert pools[..i + 1][..i] == pools[..i];
      m := m[NodeName(pools[i]) := pools[i]];
    }
    assert pools[..|pools|] == pools;
  }

  lemma EmptyDiffSamePools(d: State, a: State, del: seq<PoolNode>, cre: seq<PoolNode>)
    requires IsDiff(d.pools, a.pools, NodeKey, del, cre)
    ensures (del == [] && cre == []) <==> SamePools(d, a)
  {
    DeletesUndesired(d.pools, a.pools, NodeKey, del, cre);
    CreatesMissing(d.pools, a.pools, NodeKey, del, cre);
    assert del != [] ==> del[0] in del;
    assert cre != [] ==> cre[0] in cre;
  }

  /** The members, listeners and monitors of one pool, in that order. */
  method NodeChanges(next: seq<Action>, jobs: seq<Job>) returns (r: seq<Action>, ghost diffs: seq<JobDiff>)
    ensures DiffsOf(jobs, diffs)
    ensures r == next + Flat(diffs, JobSteps)
  {
    hide DiffOf;
    hide Flat;
    r, diffs := next, [];
    NothingYet([]);
    for k := 0 to |jobs|
      invariant DiffsOf(jobs[..k], diffs)
      invariant r == next + Flat(diffs, JobSteps)
    {
      ghost var x;
      r, x := JobChanges(r, jobs[k]);
      FlatLast(diffs, x, JobSteps);
      diffs := diffs + [x];
    }
  }

  lemma JobsStep(desired: seq<PoolNode>, actual: seq<PoolNode>, i: nat)
    requires i < |desired| && NodeName(desired[i]) in Index(actual, NodeName)
    ensures Jobs(desired[..i + 1], actual)
         == Jobs(desired[..i], actual) + JobsOf(desired[i], Index(actual, NodeName)[NodeName(desired[i])])
  {
    hide Index;
    FlatStep(desired, JobsBy(Index(actual, NodeName)), i);
  }

  lemma DiffsConcat(jobs: seq<Job>, diffs: seq<JobDiff>, moreJobs: seq<Job>, moreDiffs: seq<JobDiff>)
    requires DiffsOf(jobs, diffs) && DiffsOf(moreJobs, moreDiffs)
    ensures DiffsOf(jobs + moreJobs, diffs + moreDiffs)
  {
    hide DiffOf;
  }

  method ChildChanges(next: seq<Action>, desired: seq<PoolNode>, actual: seq<PoolNode>)
    returns (r: Result<seq<Action>, PlanError>, ghost diffs: seq<JobDiff>)
    ensures r.Success? <==> Resolves(desired, actual)
    ensures r.Failure? ==> r.error.NoPoolFound? && FirstMissing(desired, actual, r.error.name)
    ensures r.Success? ==> DiffsOf(Jobs(desired, actual), diffs)
    ensures r.Success? ==> r.value == next + Flat(diffs, JobSteps)
  {
    hide DiffsOf;
    hide Flat;
    hide Index;
    hide JobsOf;
    hide Jobs;
    var actualPools := PoolsByName(actual);
    var steps := next;
    diffs := [];
    NothingYet(actual);
    for i := 0 to |desired|
      invariant Resolves(desired[..i], actual)
      invariant forall j :: 0 <= j < i ==> NodeName(desired[j]) in KeySet(actual, NodeName)
      invariant DiffsOf(Jobs(desired[..i], actual), diffs)
      invariant steps == next + Flat(diffs, JobSteps)
    {
      var d := desired[i];
      if NodeName(d) !in actualPools {
        assert d in desired;
        assert FirstMissing(desired, actual, NodeName(d));
        return Failure(NoPoolFound(NodeName(d))), [];
      }
      JobsStep(desired, actual, i);
      ghost var more;
      steps, more := NodeChanges(steps, JobsOf(d, actualPools[NodeName(d)]));
      FlatConcat(diffs, more, JobSteps);
      DiffsConcat(Jobs(desired[..i], actual), diffs, JobsOf(d, actualPools[NodeName(d)]), more);
      diffs := diffs + more;
    }
    assert desired[..|desired|] == desired;
    r := Success(steps);
  }

  lemma NothingYet(actual: seq<PoolNode>)
    ensures DiffsOf(Jobs([], actual), []) && Pairs(Jobs([], actual)) == [] && Flat([], JobSteps) == [] == Flat([], Update)
  {
  }

  lemma JobPairsOf(d: PoolNode, a: PoolNode)
    ensures Pairs(JobsOf(d, a)) == Matched(d.listeners, a.listeners, ItemKey) + Matched(d.monitors, a.monitors, ItemKey)
  {
    var j := JobsOf(d, a);
    FlatStep(j, JobPairs, 0);
    FlatStep(j, JobPairs, 1);
    FlatStep(j, JobPairs, 2);
    FlatWhole(j, JobPairs);
  }

  /** In-place updates of the listeners and the monitors of every desired pool. */
  method ChildUpdates(next: seq<Action>, desired: seq<PoolNode>, actual: seq<PoolNode>) returns (r: seq<Action>)
    requires Resolves(desired, actual)
    ensures r == next + Flat(Pairs(Jobs(desired, actual)), Update)
  {
    hide Flat;
    hide Index;
    hide Paired;
    hide JobsOf;
    hide Jobs;
    var actualPools := PoolsByName(actual);
    r := next;
    NothingYet(actual);
    for i := 0 to |desired|
      invariant desired[..i] == [] ==> r == next
      invariant r == next + Flat(Pairs(Jobs(desired[..i], actual)), Update)
    {
      var d := desired[i];
      assert d in desired;
      var a := actualPools[NodeName(d)];
      var listeners := Match(d.listeners, a.listeners, ItemKey);
      r := AppendAll(r, listeners, Update);
      var monitors := Match(d.monitors, a.monitors, ItemKey);
      r := AppendAll(r, monitors, Update);
      PairsStep(desired, actual, i);
    }
    assert desired[..|desired|] == desired;
  }

  lemma PairsStep(desired: seq<PoolNode>, actual: seq<PoolNode>, i: nat)
    requires i < |desired| && NodeName(desired[i]) in Index(actual, NodeName)
    ensures
      var d, a := desired[i], Index(actual, NodeName)[NodeName(desired[i])];
      Flat(Pairs(Jobs(desired[..i + 1], actual)), Update)
      == Flat(Pairs(Jobs(desired[..i], actual)), Update)
       + Flat(Matched(d.listeners, a.listeners, ItemKey), Update)
       + Flat(Matched(d.monitors, a.monitors, ItemKey), Update)
  {
    hide Flat;
    hide Index;
    hide Paired;
    hide JobsOf;
    hide Jobs;
    var d, a := desired[i], Index(actual, NodeName)[NodeName(desired[i])];
    var done := Jobs(desired[..i], actual);
    var listeners, monitors := Matched(d.listeners, a.listeners, ItemKey), Matched(d.monitors, a.monitors, ItemKey);
    JobsStep(desired, actual, i);
    JobPairsOf(d, a);
    FlatConcat(done, JobsOf(d, a), JobPairs);
    FlatConcat(listeners, monitors, Update);
    FlatConcat(Pairs(done), listeners + monitors, Update);
  }

  method NextLbActions(desired: State, actual: State)
    returns (r: Result<seq<Action>, PlanError>, ghost c: Choice)
    ensures r.Failure? <==> Refuses(desired, actual)
    ensures r.Failure? ==>
      var d, a := desired.lb.value, actual.lb.value;
      match r.error
      case VipsChanged => !AddressesFit(d.vips, a.vips)
      case FlavorChanged => AddressesFit(d.vips, a.vips) && d.flavor != a.flavor
      case ZoneChanged => AddressesFit(d.vips, a.vips) && d.flavor == a.flavor && d.zone != a.zone
      case NoPoolFound(name) => Suits(d, a) && SamePools(desired, actual) && FirstMissing(desired.pools, actual.pools, name)
    ensures r.Success? && desired.lb.Some? && actual.lb.Some? ==> Suits(desired.lb.value, actual.lb.value)
    ensures r.Success? ==> Possible(desired, actual, c) && r.value == Plan(desired, actual, c)
  {
    c := Choice([], [], [], [], []);
    if desired.lb.None? && actual.lb.None? {
      return Success([]), c;
    }
    if actual.lb.None? {
      return Success([CreateLb(desired.lb.value), Refetch]), c;
    }
    var next := [AwaitLb(actual.status)];
    if desired.lb.None? {
      next := next + [DeleteResource(actual.lb.value.id)];
      return Success(next), c;
    }
    var d, a := desired.lb.value, actual.lb.value;
    RefusalExactly(d, a);
    hide Suits;
    hide AddressesFit;
    hide FirstMissing;
    if |d.vips| > 0 && !VipsAgree(d.vips, a.vips) {
      return Failure(VipsChanged), c;
    }
    if d.flavor != a.flavor {
      return Failure(FlavorChanged), c;
    }
    if d.zone != a.zone {
      return Failure(ZoneChanged), c;
    }
    if d.name != a.name {
      next := next + [RenameLb(a.id, d.name)];
    }
    r, c := ItemActions(desired, actual, next);
  }

  lemma NoPoolSteps(lb: Uuid)
    ensures PoolSteps(lb, [], []) == []
  {
    assert Map([], PoolCreation(lb)) == [];
  }

  /** The part of the planner after the checks of the load balancer itself. */
  method ItemActions(desired: State, actual: State, opening: seq<Action>)
    returns (r: Result<seq<Action>, PlanError>, ghost c: Choice)
    requires desired.lb.Some? && actual.lb.Some? && LbRefusal(desired.lb.value, actual.lb.value).None?
    requires opening == Opening(desired.lb.value, actual.status, actual.lb.value)
    ensures r.Failure? <==> Refuses(desired, actual)
    ensures r.Failure? ==> r.error.NoPoolFound? && FirstMissing(desired.pools, actual.pools, r.error.name)
    ensures r.Success? ==> Possible(desired, actual, c) && r.value == Plan(desired, actual, c)
  {
    hide IsDiff;
    hide DiffsOf;
    hide Jobs;
    hide Flat;
    hide PoolSteps;
    var lb := actual.lb.value.id;
    var del, cre := Diff(desired.pools, actual.pools, NodeKey);
    EmptyDiffSamePools(desired, actual, del, cre);
    c := Choice(del, cre, [], [], []);
    var next := PoolChanges(opening, lb, del, cre);
    if |del| > 0 || |cre| > 0 {
      next := next + [Refetch];
      return Success(next), c;
    }
    assert next == opening by { NoPoolSteps(lb); }
    var actionCount := |next|;
    var changed;
    ghost var diffs;
    changed, diffs := ChildChanges(next, desired.pools, actual.pools);
    if changed.Failure? {
      return Failure(changed.error), c;
    }
    var release, assign := Diff(desired.floatingIPs, actual.floatingIPs, Same);
    c := Choice(del, cre, diffs, release, assign);
    next := changed.value;
    if actionCount < |next| {
      next := next + [Refetch];
      assert next == opening + Flat(diffs, JobSteps) + [Refetch];
      return Success(next), c;
    }
    next := ChildUpdates(next, desired.pools, actual.pools);
    next := AppendEach(next, assign, Assignment(lb));
    r := Success(next);
  }
}
