/** The concurrent layer of pkg/cloudscale_ccm/loadbalancer.go: any number of workers reconcile any number
    of services at the same time, each under the lock of its service. */
module Locks {
  import opened Seqs
  import opened Domain
  import opened CloudWorld
  import opened Validity
  import opened Limiters
  import opened Lookup
  import opened Planner
  import opened UpdateRounds
  import opened FinalRounds

  /** Services are known by their UID. */
  type Service = string

  type Mutex = nat

  /** What a worker that holds a lock is doing: about to look up its load balancer, knowing what the
      lookup by UUID gave, knowing its load balancer, or running a batch. */
  datatype Stage =
    | Looking
    | Listing(byUuid: Option<seq<Lb>>)
    | Planning(found: Option<Lb>)
    | Running(rest: seq<Action>)

  datatype Worker =
    | Idle
    | Called(service: Service)
    | Waiting(service: Service, mu: Mutex)
    | Holding(service: Service, mu: Mutex, stage: Stage)

  /** `muMap` and the mutexes it holds; `owner` is who has locked a mutex. */
  datatype Shared = Shared(world: World, muMap: map<Service, Mutex>, owner: map<Mutex, nat>, workers: seq<Worker>)

  /** The names of the load balancers of the services. */
  type Naming = map<Service, string>

  ghost predicate GoodNaming(names: Naming) {
    && (forall s :: s in names ==> names[s] != "")
    && forall s, t :: s in names && t in names && names[s] == names[t] ==> s == t
  }

  // ---------------------------------------------------------------- taking a lock

  /** `LoadOrStore`: the mutex of the service, put there by the first who asks for it. */
  function Loaded(muMap: map<Service, Mutex>, service: Service, mu: Mutex): map<Service, Mutex> {
    if service in muMap then muMap else muMap[service := mu]
  }

  class LockTable {
    var muMap: map<Service, Mutex>
    var next: Mutex

    /** The mutex `lockForService` then locks. */
    method MutexFor(service: Service) returns (mu: Mutex)
      modifies this
      ensures muMap == Loaded(old(muMap), service, old(next)) && service in muMap && mu == muMap[service]
      ensures next == old(next) + 1
    {
      if service !in muMap {
        muMap := muMap[service := next];
      }
      mu := muMap[service];
      next := next + 1;
    }
  }

  // ---------------------------------------------------------------- steps

  datatype Event =
    | Call(service: Service)
    | Load(mu: Mutex)
    | Lock
    | ByUUID(uuid: Option<Uuid>)
    | ByNames
    | Build(desired: State, actual: State, choice: Choice)
    | Act
    | Leave

  ghost function Turned(s: Shared, i: nat, to: Worker): Shared
    requires i < |s.workers|
  {
    s.(workers := s.workers[i := to])
  }

  /** What looking by UUID, if the service has one, and then by name gives. */
  function Answer(byUuid: Option<seq<Lb>>, named: seq<Lb>): Result<Option<Lb>, Count> {
    AtMostOneOf(if byUuid.Some? then Deduped(byUuid.value + named, SameLb) else named)
  }

  /** Worker `i` makes a step. */
  ghost predicate WorkerStep(names: Naming, s: Shared, i: nat, e: Event, s1: Shared) {
    i < |s.workers| &&
    match (s.workers[i], e)
    case (Idle, Call(service)) =>
      service in names && s1 == Turned(s, i, Called(service))
    case (Called(service), Load(mu)) =>
      && (service in s.muMap ==> mu == s.muMap[service]) && (service !in s.muMap ==> mu !in s.muMap.Values)
      && s1 == Turned(s, i, Waiting(service, mu)).(muMap := Loaded(s.muMap, service, mu))
    case (Waiting(service, mu), Lock) =>
      mu !in s.owner && s1 == Turned(s, i, Holding(service, mu, Looking)).(owner := s.owner[mu := i])
    case (Holding(service, mu, Looking), ByUUID(uuid)) =>
      s1 == Turned(s, i, Holding(service, mu, Listing(if uuid.Some? then Some(ByUuid(s.world.lbs, uuid.value)) else None)))
    case (Holding(service, mu, Listing(byUuid)), ByNames) =>
      && service in names
      && Answer(byUuid, ByName(s.world.lbs, names[service])).Success?
      && s1 == Turned(s, i, Holding(service, mu, Planning(Answer(byUuid, ByName(s.world.lbs, names[service])).value)))
    case (Holding(service, mu, Planning(found)), Build(desired, actual, choice)) =>
      && service in names && (desired.lb.Some? ==> desired.lb.value.name == names[service])
      && actual.lb == found && !Refuses(desired, actual) && Possible(desired, actual, choice)
      && s1 == Turned(s, i, Holding(service, mu, Running(Plan(desired, actual, choice))))
    case (Holding(service, mu, Running(rest)), Act) =>
      && rest != []
      && (match Apply(s.world, rest[0])
          case Proceed(w1) => s1 == Turned(s, i, Holding(service, mu, Running(rest[1..]))).(world := w1)
          case Refresh => s1 == Turned(s, i, Holding(service, mu, Looking))
          case Refused => false)
    case (Holding(service, mu, _), Leave) =>
      s1 == Turned(s, i, Idle).(owner := s.owner - {mu})
    case _ => false
  }

  ghost function LbsNamed(w: World, name: string): set<Lb> {
    set l | l in w.lbs && l.name == name
  }

  /** Something else changes the cloud, but gives no load balancer the name of a service. */
  ghost predicate OutsideStep(names: Naming, s: Shared, s1: Shared) {
    && s1 == s.(world := s1.world) && Valid(s1.world)
    && forall t :: t in names ==> LbsNamed(s1.world, names[t]) <= LbsNamed(s.world, names[t])
  }

  ghost predicate Step(names: Naming, s: Shared, s1: Shared) {
    OutsideStep(names, s, s1) || exists i: nat, e :: WorkerStep(names, s, i, e, s1)
  }

  // ---------------------------------------------------------------- the invariant

  /** At most one load balancer has this name. */
  ghost predicate Unique(w: World, name: string) {
    forall l, m :: l in LbsNamed(w, name) && m in LbsNamed(w, name) ==> l == m
  }

  predicate Names(a: Action, name: string) {
    (a.CreateLb? && a.lb.name == name) || (a.RenameLb? && a.name == name)
  }

  /** Who is about to create a load balancer of this name knows that there is none, and who is about to
      rename one to it that there is no other. Nothing else is given this or another name. */
  ghost predicate Guarded(w: World, name: string, b: seq<Action>) {
    && (forall a :: a in b && (a.CreateLb? || a.RenameLb?) ==> Names(a, name))
    && (forall a :: a in b && a.CreateLb? ==> LbsNamed(w, name) == {})
    && (forall a, l :: a in b && a.RenameLb? && l in LbsNamed(w, name) ==> l.id == a.id)
    && (forall a, c :: a in b && a.RenameLb? && c in b && c.RenameLb? ==> a == c)
    && (forall k, j :: 0 <= k < |b| && 0 <= j < |b| && b[k].CreateLb? && Names(b[j], name) ==> j == k)
  }

  ghost predicate FoundGuards(w: World, name: string, found: Option<Lb>) {
    forall l :: l in LbsNamed(w, name) ==> found.Some? && l.id == found.value.id
  }

  ghost predicate StageInv(w: World, name: string, stage: Stage) {
    match stage
    case Planning(found) => FoundGuards(w, name, found)
    case Running(rest) => Guarded(w, name, rest)
    case _ => true
  }

  ghost predicate WorkerInv(names: Naming, s: Shared, i: nat)
    requires i < |s.workers|
  {
    match s.workers[i]
    case Idle => true
    case Called(service) => service in names
    case Waiting(service, mu) => service in names && service in s.muMap && s.muMap[service] == mu
    case Holding(service, mu, stage) =>
      && service in names && service in s.muMap && s.muMap[service] == mu
      && mu in s.owner && s.owner[mu] == i
      && StageInv(s.world, names[service], stage)
  }

  ghost predicate Inv(names: Naming, s: Shared) {
    && Valid(s.world)
    && (forall t :: t in names ==> Unique(s.world, names[t]))
    && forall i: nat :: i < |s.workers| ==> WorkerInv(names, s, i)
  }

  /** No two workers hold the lock of one service. */
  lemma OneHolder(names: Naming, s: Shared, i: nat, j: nat)
    requires Inv(names, s) && i < |s.workers| && j < |s.workers|
    requires s.workers[i].Holding? && s.workers[j].Holding? && s.workers[i].service == s.workers[j].service
    ensures i == j
  {
    assert WorkerInv(names, s, i) && WorkerInv(names, s, j);
  }

  // ---------------------------------------------------------------- what a worker learns and plans

  /** With no step of another in between, the two parts of a lookup are the lookup. */
  lemma AnswerAtOnce(lbs: seq<Lb>, uuid: Option<Uuid>, name: string)
    requires name != ""
    ensures Answer(if uuid.Some? then Some(ByUuid(lbs, uuid.value)) else None, ByName(lbs, name)) == FindByServiceInfo(lbs, Query(uuid, name))
  {
    hide Deduped;
  }

  lemma AnswerGuards(w: World, name: string, byUuid: Option<seq<Lb>>)
    requires Answer(byUuid, ByName(w.lbs, name)).Success?
    ensures FoundGuards(w, name, Answer(byUuid, ByName(w.lbs, name)).value)
  {
    var named := ByName(w.lbs, name);
    if byUuid.Some? {
      var both := byUuid.value + named;
      DedupedByKey(both, SameLb, LbId);
      hide Deduped;
      var found := Deduped(both, SameLb);
      AtMostOneExact(found);
      forall l | l in LbsNamed(w, name)
        ensures found != [] && l.id == found[0].id
      {
        assert l in both;
        assert LbId(l) in KeySet(both, LbId);
        var m :| m in found && LbId(m) == LbId(l);
      }
    } else {
      AtMostOneExact(named);
    }
  }

  lemma StepsNameNothing(lb: Uuid, c: Choice)
    ensures forall a :: a in PoolSteps(lb, c.poolDel, c.poolCre) ==> !a.CreateLb? && !a.RenameLb?
    ensures forall a :: a in Flat(c.diffs, JobSteps) ==> !a.CreateLb? && !a.RenameLb?
  {
    FlatMember(c.poolDel, PoolRemoval);
    FlatMember(c.diffs, JobSteps);
    forall n, a | n in c.poolDel && a in PoolRemoval(n)
      ensures !a.CreateLb? && !a.RenameLb?
    {
      FlatMember(n.members + [n.pool], Deletion);
    }
    forall x, a | x in c.diffs && a in JobSteps(x)
      ensures !a.CreateLb? && !a.RenameLb?
    {
      FlatMember(x.del, Deletion);
      var cs := Map(x.cre, CreationIn(x.job.pool, x.job.kind));
      assert forall k :: 0 <= k < |cs| ==> cs[k] == CreateIn(x.job.pool, x.job.kind, x.cre[k]);
    }
    hide Flat;
    var cs := Map(c.poolCre, PoolCreation(lb));
    assert forall k :: 0 <= k < |cs| ==> cs[k].CreatePool?;
  }

  lemma UpdatesNameNothing(pairs: seq<(Item, Item)>, assign: seq<string>, lb: Uuid)
    ensures forall a :: a in Flat(pairs, Update) + Map(assign, Assignment(lb)) ==> !a.CreateLb? && !a.RenameLb?
  {
    FlatMember(pairs, Update);
    AssignmentsIn(assign, lb);
    hide Flat;
    hide PairUpdates;
    forall p, a | p in pairs && a in PairUpdates(p)
      ensures !a.CreateLb? && !a.RenameLb?
    {
      PairTargets(p);
    }
  }

  lemma PlanNames(d: State, a: State, c: Choice)
    requires d.lb.Some? && a.lb.Some?
    ensures forall x :: x in Plan(d, a, c) ==> !x.CreateLb? && (x.RenameLb? ==> x == RenameLb(a.lb.value.id, d.lb.value.name))
  {
    StepsNameNothing(a.lb.value.id, c);
    UpdatesNameNothing(Pairs(Jobs(d.pools, a.pools)), c.assign, a.lb.value.id);
    hide Flat;
    hide Pairs;
    hide Jobs;
    hide PoolSteps;
  }

  lemma PlanGuarded(w: World, name: string, d: State, a: State, c: Choice)
    requires FoundGuards(w, name, a.lb) && (d.lb.Some? ==> d.lb.value.name == name)
    ensures Guarded(w, name, Plan(d, a, c))
  {
    if d.lb.Some? && a.lb.Some? {
      PlanNames(d, a, c);
      hide Plan;
    }
  }

  // ---------------------------------------------------------------- what a step of the cloud does to names

  lemma NamesAfter(w: World, a: Action, name: string)
    requires Apply(w, a).Proceed? && !Names(a, name)
    ensures LbsNamed(Apply(w, a).world, name) <= LbsNamed(w, name)
  {
    hide Stored;
    hide Revised;
    var lbs1 := Apply(w, a).world.lbs;
    forall l | l in lbs1 && l.name == name
      ensures l in w.lbs
    {
      if a.RenameLb? {
        var k :| 0 <= k < |lbs1| && lbs1[k] == l;
        assert w.lbs[k] in w.lbs;
      }
    }
  }

  lemma Behind(a: Action, rest: seq<Action>)
    ensures forall x :: x in rest ==> x in [a] + rest
    ensures forall k :: 0 <= k < |rest| ==> ([a] + rest)[k + 1] == rest[k]
  {
  }

  lemma OwnCreate(w: World, lb: Lb, name: string, rest: seq<Action>)
    requires Guarded(w, name, [CreateLb(lb)] + rest)
    ensures
      var w1 := Apply(w, CreateLb(lb)).world;
      Unique(w1, name) && Guarded(w1, name, rest)
  {
    var b := [CreateLb(lb)] + rest;
    Behind(CreateLb(lb), rest);
    assert b[0] == CreateLb(lb) && b[0] in b;
    assert forall l :: l in w.lbs ==> l !in LbsNamed(w, name);
    forall x | x in rest
      ensures !x.CreateLb? && !x.RenameLb?
    {
      var k :| 0 <= k < |rest| && rest[k] == x;
      assert b[k + 1] == x && b[0].CreateLb?;
    }
    var lb1 := lb.(id := w.next, vips := Granted(lb.vips, w.autoVip));
    assert forall l :: l in w.lbs + [lb1] <==> l in w.lbs || l == lb1;
  }

  lemma OwnOther(w: World, a: Action, name: string, rest: seq<Action>)
    requires Unique(w, name) && Guarded(w, name, [a] + rest) && !Names(a, name)
    requires Apply(w, a).Proceed?
    ensures Unique(Apply(w, a).world, name) && Guarded(Apply(w, a).world, name, rest)
  {
    Behind(a, rest);
    NamesAfter(w, a, name);
    hide Apply;
    hide Names;
    FewerUnique(w, Apply(w, a).world, name);
    forall k, j | 0 <= k < |rest| && 0 <= j < |rest| && rest[k].CreateLb? && Names(rest[j], name)
      ensures j == k
    {
      var b := [a] + rest;
      assert b[k + 1] == rest[k] && b[j + 1] == rest[j];
    }
    hide LbsNamed;
    assert forall l :: l in LbsNamed(Apply(w, a).world, name) ==> l in LbsNamed(w, name);
  }

  /** The worker whose name it is keeps it unique, and the rest of its batch stays guarded. */
  lemma OwnName(w: World, a: Action, name: string, rest: seq<Action>)
    requires Valid(w) && Unique(w, name) && Guarded(w, name, [a] + rest)
    requires Apply(w, a).Proceed?
    ensures Unique(Apply(w, a).world, name) && Guarded(Apply(w, a).world, name, rest)
  {
    if a.RenameLb? {
      assert a in [a] + rest;
      OwnRename(w, a.id, name);
      ApplyValid(w, a);
      OneId(Apply(w, a).world, name, a.id);
      RestGuarded(w, a, name, rest);
    } else if a.CreateLb? {
      OwnCreate(w, a.lb, name, rest);
    } else {
      hide Apply;
      hide Guarded;
      OwnOther(w, a, name, rest);
    }
  }

  lemma OwnRename(w: World, id: Uuid, name: string)
    requires HasLb(w.lbs, id) && forall l :: l in LbsNamed(w, name) ==> l.id == id
    ensures forall l :: l in LbsNamed(w.(lbs := Renamed(w.lbs, id, name)), name) ==> l.id == id
  {
    var r := Renamed(w.lbs, id, name);
    forall l | l in r && l.name == name
      ensures l.id == id
    {
      var k :| 0 <= k < |r| && r[k] == l;
      assert w.lbs[k] in w.lbs;
      assert l.id == id || l in LbsNamed(w, name);
    }
  }

  lemma OneId(w: World, name: string, id: Uuid)
    requires Valid(w) && forall l :: l in LbsNamed(w, name) ==> l.id == id
    ensures Unique(w, name)
  {
    forall l, m | l in LbsNamed(w, name) && m in LbsNamed(w, name)
      ensures l == m
    {
      DistinctSame(w.lbs, LbId, l, m);
    }
  }

  lemma RestGuarded(w: World, a: Action, name: string, rest: seq<Action>)
    requires a.RenameLb? && Guarded(w, name, [a] + rest)
    requires Apply(w, a).Proceed?
    requires forall l :: l in LbsNamed(Apply(w, a).world, name) ==> l.id == a.id
    ensures Guarded(Apply(w, a).world, name, rest)
  {
    var b := [a] + rest;
    hide Apply;
    assert b[0] == a && forall k :: 0 <= k < |rest| ==> b[k + 1] == rest[k];
    forall x | x in rest
      ensures !x.CreateLb? && (x.RenameLb? ==> x in b)
    {
      var k :| 0 <= k < |rest| && rest[k] == x;
      assert b[k + 1] == x && Names(b[0], name);
    }
  }

  // ---------------------------------------------------------------- every step keeps the invariant

  lemma FewerNames(w: World, w1: World, name: string, stage: Stage)
    requires LbsNamed(w1, name) <= LbsNamed(w, name) && StageInv(w, name, stage)
    ensures StageInv(w1, name, stage)
  {
    hide LbsNamed;
    assert forall l :: l in LbsNamed(w1, name) ==> l in LbsNamed(w, name);
  }

  lemma FewerUnique(w: World, w1: World, name: string)
    requires LbsNamed(w1, name) <= LbsNamed(w, name) && Unique(w, name)
    ensures Unique(w1, name)
  {
    hide LbsNamed;
    assert forall l :: l in LbsNamed(w1, name) ==> l in LbsNamed(w, name);
  }

  lemma OutsideKeeps(names: Naming, s: Shared, s1: Shared)
    requires Inv(names, s) && OutsideStep(names, s, s1)
    ensures Inv(names, s1)
  {
    hide LbsNamed;
    hide Valid;
    forall t | t in names
      ensures Unique(s1.world, names[t])
    {
      FewerUnique(s.world, s1.world, names[t]);
    }
    forall i: nat | i < |s1.workers|
      ensures WorkerInv(names, s1, i)
    {
      assert WorkerInv(names, s, i);
      if s.workers[i].Holding? {
        FewerNames(s.world, s1.world, names[s.workers[i].service], s.workers[i].stage);
      }
      hide StageInv;
    }
  }

  /** A worker runs the next action of its batch. */
  lemma ActKeeps(names: Naming, s: Shared, i: nat, w1: World, s1: Shared)
    requires GoodNaming(names) && Inv(names, s) && i < |s.workers|
    requires s.workers[i].Holding? && s.workers[i].stage.Running? && s.workers[i].stage.rest != []
    requires Apply(s.world, s.workers[i].stage.rest[0]) == Proceed(w1)
    requires s1 == Turned(s, i, s.workers[i].(stage := Running(s.workers[i].stage.rest[1..]))).(world := w1)
    ensures Inv(names, s1)
  {
    assert WorkerInv(names, s, i);
    var me, rest := s.workers[i], s.workers[i].stage.rest;
    var a, name := rest[0], names[me.service];
    assert rest == [a] + rest[1..];
    OwnName(s.world, a, name, rest[1..]);
    ApplyValid(s.world, a);
    assert a in rest;
    forall t | t in names && t != me.service
      ensures LbsNamed(w1, names[t]) <= LbsNamed(s.world, names[t])
    {
      NamesAfter(s.world, a, names[t]);
    }
    hide Apply;
    hide Guarded;
    hide LbsNamed;
    hide Valid;
    forall t | t in names
      ensures Unique(w1, names[t])
    {
      if t != me.service {
        FewerUnique(s.world, w1, names[t]);
      }
    }
    forall j: nat | j < |s1.workers|
      ensures WorkerInv(names, s1, j)
    {
      assert WorkerInv(names, s, j);
      if j != i && s.workers[j].Holding? {
        if s.workers[j].service == me.service {
          OneHolder(names, s, i, j);
        }
        FewerNames(s.world, w1, names[s.workers[j].service], s.workers[j].stage);
      }
    }
  }

  /** A worker moves on without touching the cloud or the locks. */
  lemma StageKeeps(names: Naming, s: Shared, i: nat, stage: Stage)
    requires Inv(names, s) && i < |s.workers| && s.workers[i].Holding? && s.workers[i].service in names
    requires StageInv(s.world, names[s.workers[i].service], stage)
    ensures Inv(names, Turned(s, i, s.workers[i].(stage := stage)))
  {
    hide StageInv;
    hide Unique;
    hide Valid;
    assert WorkerInv(names, s, i);
    var s1 := Turned(s, i, s.workers[i].(stage := stage));
    forall j: nat | j < |s1.workers|
      ensures WorkerInv(names, s1, j)
    {
      assert WorkerInv(names, s, j);
    }
  }

  lemma LoadKeeps(names: Naming, s: Shared, i: nat, service: Service, mu: Mutex)
    requires Inv(names, s) && i < |s.workers| && s.workers[i] == Called(service)
    requires service in s.muMap ==> mu == s.muMap[service]
    ensures Inv(names, Turned(s, i, Waiting(service, mu)).(muMap := Loaded(s.muMap, service, mu)))
  {
    hide StageInv;
    hide Unique;
    hide Valid;
    assert WorkerInv(names, s, i);
    var s1 := Turned(s, i, Waiting(service, mu)).(muMap := Loaded(s.muMap, service, mu));
    forall j: nat | j < |s1.workers|
      ensures WorkerInv(names, s1, j)
    {
      assert WorkerInv(names, s, j);
    }
  }

  lemma LockKeeps(names: Naming, s: Shared, i: nat, service: Service, mu: Mutex)
    requires Inv(names, s) && i < |s.workers| && s.workers[i] == Waiting(service, mu) && mu !in s.owner
    ensures Inv(names, Turned(s, i, Holding(service, mu, Looking)).(owner := s.owner[mu := i]))
  {
    hide Unique;
    hide Valid;
    hide Guarded;
    hide FoundGuards;
    assert WorkerInv(names, s, i);
    var s1 := Turned(s, i, Holding(service, mu, Looking)).(owner := s.owner[mu := i]);
    forall j: nat | j < |s1.workers|
      ensures WorkerInv(names, s1, j)
    {
      assert WorkerInv(names, s, j);
    }
  }

  lemma LeaveKeeps(names: Naming, s: Shared, i: nat)
    requires Inv(names, s) && i < |s.workers| && s.workers[i].Holding?
    ensures Inv(names, Turned(s, i, Idle).(owner := s.owner - {s.workers[i].mu}))
  {
    hide Unique;
    hide Valid;
    hide StageInv;
    assert WorkerInv(names, s, i);
    var s1 := Turned(s, i, Idle).(owner := s.owner - {s.workers[i].mu});
    forall j: nat | j < |s1.workers|
      ensures WorkerInv(names, s1, j)
    {
      assert WorkerInv(names, s, j);
    }
  }

  lemma CallKeeps(names: Naming, s: Shared, i: nat, service: Service)
    requires Inv(names, s) && i < |s.workers| && service in names
    ensures Inv(names, Turned(s, i, Called(service)))
  {
    hide Unique;
    hide Valid;
    hide StageInv;
    var s1 := Turned(s, i, Called(service));
    forall j: nat | j < |s1.workers|
      ensures WorkerInv(names, s1, j)
    {
      assert WorkerInv(names, s, j);
    }
  }

  lemma HoldingKeeps(names: Naming, s: Shared, i: nat, e: Event, s1: Shared)
    requires GoodNaming(names) && Inv(names, s) && WorkerStep(names, s, i, e, s1) && s.workers[i].Holding?
    ensures Inv(names, s1)
  {
    hide Inv;
    hide Apply;
    hide Refuses;
    hide Possible;
    hide Plan;
    hide GoodNaming;
    hide LbsNamed;
    assert WorkerInv(names, s, i) by { OfWorker(names, s, i); }
    var me := s.workers[i];
    if e.Leave? {
      LeaveKeeps(names, s, i);
    } else {
      match me.stage
      case Looking =>
        StageKeeps(names, s, i, s1.workers[i].stage);
      case Listing(byUuid) =>
        hide Answer;
        AnswerGuards(s.world, names[me.service], byUuid);
        StageKeeps(names, s, i, s1.workers[i].stage);
      case Planning(found) =>
        PlanGuarded(s.world, names[me.service], e.desired, e.actual, e.choice);
        hide Guarded;
        StageKeeps(names, s, i, s1.workers[i].stage);
      case Running(rest) =>
        hide Guarded;
        match Apply(s.world, rest[0])
        case Proceed(w1) => ActKeeps(names, s, i, w1, s1);
        case Refresh => StageKeeps(names, s, i, Looking);
    }
  }

  lemma OfWorker(names: Naming, s: Shared, i: nat)
    requires Inv(names, s) && i < |s.workers|
    ensures WorkerInv(names, s, i)
  {
  }

  /** Whatever worker makes whatever step, and whatever else changes the cloud, the invariant holds. */
  lemma StepKeeps(names: Naming, s: Shared, s1: Shared)
    requires GoodNaming(names) && Inv(names, s) && Step(names, s, s1)
    ensures Inv(names, s1)
  {
    hide Inv;
    hide GoodNaming;
    if OutsideStep(names, s, s1) {
      hide OutsideStep;
      OutsideKeeps(names, s, s1);
    } else {
      hide OutsideStep;
      var i: nat, e :| WorkerStep(names, s, i, e, s1);
      match s.workers[i]
      case Idle => CallKeeps(names, s, i, e.service);
      case Called(service) => LoadKeeps(names, s, i, service, e.mu);
      case Waiting(service, mu) => LockKeeps(names, s, i, service, mu);
      case Holding(_, _, _) =>
        hide WorkerStep;
        HoldingKeeps(names, s, i, e, s1);
    }
  }

  // ---------------------------------------------------------------- every run

  ghost predicate Start(names: Naming, s: Shared) {
    && Valid(s.world) && (forall t :: t in names ==> Unique(s.world, names[t]))
    && forall i :: 0 <= i < |s.workers| ==> s.workers[i].Idle?
  }

  ghost predicate Trace(names: Naming, ss: seq<Shared>) {
    ss != [] && forall k :: 0 <= k < |ss| - 1 ==> Step(names, ss[k], ss[k + 1])
  }

  /** However many workers reconcile however many services, in whatever interleaving: at every point
      there is at most one load balancer with the name of a service, and at most one worker holds the
      lock of a service. */
  lemma {:induction false} AtMostOneLbEach(names: Naming, ss: seq<Shared>)
    requires GoodNaming(names) && Trace(names, ss) && Start(names, ss[0])
    ensures Inv(names, ss[|ss| - 1])
    ensures forall t :: t in names ==> Unique(ss[|ss| - 1].world, names[t])
    decreases |ss|
  {
    hide Step;
    hide WorkerInv;
    var n := |ss| - 1;
    if n == 0 {
      StartInv(names, ss[0]);
    } else {
      var before := ss[..n];
      assert forall k :: 0 <= k < |before| - 1 ==> Step(names, before[k], before[k + 1]) by {
        assert forall k :: 0 <= k < n - 1 ==> Step(names, ss[k], ss[k + 1]);
      }
      AtMostOneLbEach(names, before);
      assert Step(names, ss[n - 1], ss[n - 1 + 1]);
      StepKeeps(names, ss[n - 1], ss[n]);
    }
  }

  lemma StartInv(names: Naming, s: Shared)
    requires Start(names, s)
    ensures Inv(names, s)
  {
    hide Unique;
    hide Valid;
  }

  // ---------------------------------------------------------------- why the names have to differ

  /** The state of a service that asks for a load balancer and nothing else. */
  function Bare(lb: Lb): State {
    State(Some(lb), "", [], [])
  }

  const NoChoice := Choice([], [], [], [], [])

  ghost function Prepared(s: Shared, i: nat, service: Service, mu: Mutex, lb: Lb): Shared
    requires i < |s.workers|
  {
    Turned(s, i, Holding(service, mu, Running([CreateLb(lb), Refetch]))).(
      muMap := s.muMap[service := mu], owner := s.owner[mu := i])
  }

  ghost predicate CanPrepare(names: Naming, s: Shared, i: nat, service: Service, mu: Mutex, lb: Lb) {
    && i < |s.workers| && s.workers[i].Idle? && service in names && names[service] == lb.name
    && service !in s.muMap && mu !in s.muMap.Values && mu !in s.owner
    && LbsNamed(s.world, lb.name) == {}
  }

  lemma NobodyAnswers(w: World, name: string)
    requires LbsNamed(w, name) == {}
    ensures Answer(None, ByName(w.lbs, name)) == Success(None)
  {
    forall l | l in w.lbs
      ensures l.name != name
    {
      assert l.name == name ==> l in LbsNamed(w, name);
    }
    NonEmpty(ByName(w.lbs, name));
  }

  lemma FirstSteps(names: Naming, s: Shared, i: nat, service: Service, mu: Mutex, lb: Lb) returns (ss: seq<Shared>)
    requires CanPrepare(names, s, i, service, mu, lb)
    ensures ss != [] && Trace(names, ss) && ss[0] == s
    ensures ss[|ss| - 1] == Turned(s, i, Holding(service, mu, Looking)).(muMap := s.muMap[service := mu], owner := s.owner[mu := i])
  {
    var s1 := Turned(s, i, Called(service));
    var s2 := Turned(s1, i, Waiting(service, mu)).(muMap := Loaded(s.muMap, service, mu));
    var s3 := Turned(s2, i, Holding(service, mu, Looking)).(owner := s.owner[mu := i]);
    assert WorkerStep(names, s, i, Call(service), s1);
    assert WorkerStep(names, s1, i, Load(mu), s2);
    assert WorkerStep(names, s2, i, Lock, s3);
    assert s3.workers == Turned(s, i, Holding(service, mu, Looking)).workers;
    hide WorkerStep;
    hide Trace;
    ss := Extend(names, [s], i, Call(service), s1);
    ss := Extend(names, ss, i, Load(mu), s2);
    ss := Extend(names, ss, i, Lock, s3);
  }

  lemma NextSteps(names: Naming, s: Shared, i: nat, service: Service, mu: Mutex, lb: Lb) returns (ss: seq<Shared>)
    requires i < |s.workers| && s.workers[i] == Holding(service, mu, Looking)
    requires service in names && names[service] == lb.name && LbsNamed(s.world, lb.name) == {}
    ensures ss != [] && Trace(names, ss) && ss[0] == s
    ensures ss[|ss| - 1] == Turned(s, i, Holding(service, mu, Running([CreateLb(lb), Refetch])))
  {
    var s4 := Turned(s, i, Holding(service, mu, Listing(None)));
    var s5 := Turned(s4, i, Holding(service, mu, Planning(None)));
    var s6 := Turned(s5, i, Holding(service, mu, Running([CreateLb(lb), Refetch])));
    var build := Build(Bare(lb), State(None, "", [], []), NoChoice);
    NobodyAnswers(s.world, lb.name);
    assert Plan(Bare(lb), State(None, "", [], []), NoChoice) == [CreateLb(lb), Refetch];
    hide Answer;
    hide Plan;
    assert WorkerStep(names, s, i, ByUUID(None), s4);
    assert WorkerStep(names, s4, i, ByNames, s5);
    assert WorkerStep(names, s5, i, build, s6);
    assert s6.workers == Turned(s, i, Holding(service, mu, Running([CreateLb(lb), Refetch]))).workers;
    hide WorkerStep;
    hide Trace;
    ss := Extend(names, [s], i, ByUUID(None), s4);
    ss := Extend(names, ss, i, ByNames, s5);
    ss := Extend(names, ss, i, build, s6);
  }

  /** One worker gets as far as being about to create its load balancer. */
  lemma Prepare(names: Naming, s: Shared, i: nat, service: Service, mu: Mutex, lb: Lb) returns (ss: seq<Shared>)
    requires CanPrepare(names, s, i, service, mu, lb)
    ensures ss != [] && Trace(names, ss) && ss[0] == s && ss[|ss| - 1] == Prepared(s, i, service, mu, lb)
  {
    hide Trace;
    var a := FirstSteps(names, s, i, service, mu, lb);
    var b := NextSteps(names, a[|a| - 1], i, service, mu, lb);
    Together(names, a, b);
    ss := a + b[1..];
  }

  lemma Extend(names: Naming, ss: seq<Shared>, i: nat, e: Event, s1: Shared) returns (more: seq<Shared>)
    requires |ss| == 1 || Trace(names, ss)
    requires ss != [] && WorkerStep(names, ss[|ss| - 1], i, e, s1)
    ensures more != [] && Trace(names, more) && more[0] == ss[0] && more[|more| - 1] == s1
  {
    hide WorkerStep;
    more := ss + [s1];
    assert Step(names, ss[|ss| - 1], s1);
    hide Step;
  }

  lemma Together(names: Naming, a: seq<Shared>, b: seq<Shared>)
    requires a != [] && b != [] && Trace(names, a) && Trace(names, b) && a[|a| - 1] == b[0]
    ensures Trace(names, a + b[1..]) && (a + b[1..])[0] == a[0] && (a + b[1..])[|a| + |b| - 2] == b[|b| - 1]
  {
    hide Step;
    var c := a + b[1..];
    forall k | 0 <= k < |c| - 1
      ensures Step(names, c[k], c[k + 1])
    {
      if k < |a| - 1 {
        assert c[k] == a[k] && c[k + 1] == a[k + 1];
      } else {
        assert c[k] == b[k - |a| + 1] && c[k + 1] == b[k - |a| + 1 + 1];
      }
    }
  }

  lemma TwoCreated(w: World, lb: Lb)
    requires Valid(w)
    ensures
      var w1 := Apply(w, CreateLb(lb)).world;
      !Unique(Apply(w1, CreateLb(lb)).world, lb.name)
  {
    var w1 := Apply(w, CreateLb(lb)).world;
    var w2 := Apply(w1, CreateLb(lb)).world;
    var l, m := lb.(id := w.next, vips := Granted(lb.vips, w.autoVip)), lb.(id := w.next + 1, vips := Granted(lb.vips, w.autoVip));
    assert w2.lbs == w.lbs + [l] + [m];
    assert w2.lbs[|w.lbs|] == l && w2.lbs[|w.lbs| + 1] == m;
    assert l in LbsNamed(w2, lb.name) && m in LbsNamed(w2, lb.name) && l != m;
  }

  lemma BothCreate(names: Naming, s2: Shared, s: Service, t: Service, lb: Lb) returns (ss: seq<Shared>)
    requires |s2.workers| == 2 && Valid(s2.world)
    requires s2.workers[0] == Holding(s, 0, Running([CreateLb(lb), Refetch]))
    requires s2.workers[1] == Holding(t, 1, Running([CreateLb(lb), Refetch]))
    ensures ss != [] && Trace(names, ss) && ss[0] == s2 && !Unique(ss[|ss| - 1].world, lb.name)
  {
    var w1 := Apply(s2.world, CreateLb(lb)).world;
    var w2 := Apply(w1, CreateLb(lb)).world;
    var s3 := Turned(s2, 0, Holding(s, 0, Running([Refetch]))).(world := w1);
    var s4 := Turned(s3, 1, Holding(t, 1, Running([Refetch]))).(world := w2);
    TwoCreated(s2.world, lb);
    assert [CreateLb(lb), Refetch][1..] == [Refetch];
    assert WorkerStep(names, s2, 0, Act, s3);
    assert WorkerStep(names, s3, 1, Act, s4);
    hide WorkerStep;
    hide Apply;
    hide Trace;
    ss := Extend(names, [s2], 0, Act, s3);
    ss := Extend(names, ss, 1, Act, s4);
  }

  /** Two services of the same name defeat the locks: from any cloud without load balancers of these
      names, their workers can come to create one each. */
  lemma SharedNameDefeatsLocks(names: Naming, s: Service, t: Service, w: World) returns (ss: seq<Shared>)
    requires s in names && t in names && s != t && names[s] == names[t] != ""
    requires Valid(w) && forall x :: x in names ==> LbsNamed(w, names[x]) == {}
    ensures ss != [] && Trace(names, ss) && Start(names, ss[0]) && ss[0].world == w
    ensures !Unique(ss[|ss| - 1].world, names[s])
  {
    var lb := Lb(0, names[s], [], "", "");
    var s0 := Shared(w, map[], map[], [Idle, Idle]);
    var s1 := Prepared(s0, 0, s, 0, lb);
    var s2 := Prepared(s1, 1, t, 1, lb);
    assert Start(names, s0);
    hide Trace;
    hide Start;
    hide Unique;
    hide Valid;
    hide LbsNamed;
    var a := Prepare(names, s0, 0, s, 0, lb);
    var b := Prepare(names, s1, 1, t, 1, lb);
    Together(names, a, b);
    var c := BothCreate(names, s2, s, t, lb);
    Together(names, a + b[1..], c);
    ss := a + b[1..] + c[1..];
  }
}
