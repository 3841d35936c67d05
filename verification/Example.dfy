/** Runs from beginning to end: the conditions of the main results hold of them. */
module Example {
  import opened Seqs
  import opened Compare
  import opened Domain
  import opened CloudWorld
  import opened Planner
  import opened Lookup
  import opened Rounds
  import opened ChildRounds
  import opened Convergence
  import opened Settling
  import opened FinalRounds
  import opened Runs
  import opened Disruption
  import opened Outcomes
  import opened Names
  import opened DesiredStates
  import opened DesiredFits
  import Flapping

  const Balancer := Lb(1, "web", [], "flex", "rma1")

  const Service := Query(None, "web")

  const Before := World([Balancer], [], [], map[], "10.0.0.1", 2)

  const Http80 := PoolNode(Item(0, OnLb(0), Pool("tcp", "round_robin", "tcp")), [], [], [])

  const Wants := State(Some(Balancer), "", [Http80], [])

  const CreateIt := Choice([], [Http80], [], [], [])

  const After80 := World([Balancer], [Item(2, OnLb(1), Pool("tcp", "round_robin", "tcp"))], [], map[], "10.0.0.1", 3)

  const NothingLeft := Choice([], [], [JobDiff(Job(2, KMember, [], []), [], []), JobDiff(Job(2, KListener, [], []), [], []),
                                       JobDiff(Job(2, KMonitor, [], []), [], [])], [], [])

  lemma FoundBalancer(w: World)
    requires w.lbs == [Balancer]
    ensures FindByServiceInfo(w.lbs, Service) == Success(Some(Balancer)) && FoundIn(w, Service) == Some(Balancer)
  {
    LookupExact(w.lbs, Service);
    assert Balancer in w.lbs;
    assert Candidates(w.lbs, Service) == {Balancer};
  }

  lemma DiffEmpty<T(!new), K(!new)>(key: T -> K)
    ensures IsDiff([], [], key, [], [])
  {
  }

  lemma DiffNew<T(!new), K(!new)>(x: T, key: T -> K)
    ensures IsDiff([x], [], key, [], [x])
  {
    assert [x][..0] == [];
    assert Index([x], key) == map[key(x) := x];
    assert KeySet([x], key) == {key(x)};
  }

  lemma DiffSame<T(!new), K(!new)>(x: T, y: T, key: T -> K)
    requires key(x) == key(y)
    ensures IsDiff([x], [y], key, [], [])
  {
    assert [x][..0] == [] && [y][..0] == [];
    assert Index([x], key).Keys == {key(x)} == Index([y], key).Keys;
  }

  lemma BeforeValid()
    ensures Valid(Before) && Wanted(Before, Service, Wants)
  {
    hide KeyOf;
    assert KindOf(Http80.pool.spec) == KPool;
  }

  lemma NoChildren(items: seq<Item>, owner: Owner, kind: Kind)
    requires forall i :: i in items ==> i.owner != owner
    ensures Children(items, owner, kind) == []
  {
    NonEmpty(Children(items, owner, kind));
  }

  lemma NothingListed(items: seq<Item>, lb: Uuid)
    requires forall i :: i in items ==> i.owner != OnLb(lb)
    ensures NodesOf(items, lb) == [] && NetworksOf([], lb) == []
  {
    NoChildren(items, OnLb(lb), KPool);
    NonEmpty(Filter([], (f: Fip) => f.lb == Some(lb)));
  }

  lemma FirstPossible()
    ensures Snapshot(Before, Some(Balancer), "running") == State(Some(Balancer), "running", [], [])
    ensures Possible(Wants, State(Some(Balancer), "running", [], []), CreateIt)
  {
    NothingListed([], 1);
    DiffNew(Http80, NodeKey);
    hide IsDiff;
    hide NodesOf;
    hide NetworksOf;
  }

  lemma FirstPlan()
    ensures Plan(Wants, State(Some(Balancer), "running", [], []), CreateIt)
         == [AwaitLb("running"), CreatePool(1, Http80.pool), Refetch]
  {
    assert Map([Http80], PoolCreation(1)) == [CreatePool(1, Http80.pool)];
    FlatNil(PoolRemoval);
    hide Flat;
    assert PoolSteps(1, [], [Http80]) == [CreatePool(1, Http80.pool)];
  }

  lemma FirstRuns()
    ensures Exec(Before, [AwaitLb("running"), CreatePool(1, Http80.pool), Refetch]) == Ran(After80, MustRefetch)
  {
    var create := CreatePool(1, Http80.pool);
    var b := [AwaitLb("running"), create, Refetch];
    assert b[1..] == [create, Refetch] && [create, Refetch][1..] == [Refetch];
    assert Balancer in Before.lbs;
    assert Apply(Before, create) == Proceed(After80);
    hide Apply;
    assert Apply(After80, Refetch) == Refresh && Apply(Before, b[0]) == Proceed(Before) by { Opened(); }
    assert Exec(After80, [Refetch]) == Ran(After80, MustRefetch);
    assert Exec(Before, [create, Refetch]) == Ran(After80, MustRefetch);
  }

  lemma Opened()
    ensures Apply(After80, Refetch) == Refresh && Apply(Before, AwaitLb("running")) == Proceed(Before)
  {
  }

  /** The first round of the run creates the pool. */
  lemma FirstRound()
    ensures RoundOf(Before, Service, Wants, Balancer, "running", CreateIt) && PoolPhase(CreateIt)
    ensures RoundResult(Before, Wants, Balancer, "running", CreateIt) == Ran(After80, MustRefetch)
  {
    BeforeValid();
    FoundBalancer(Before);
    FirstPossible();
    FirstPlan();
    FirstRuns();
    hide Possible;
    hide FindByServiceInfo;
    hide Valid;
    hide Wanted;
    hide Plan;
    hide Snapshot;
    hide Exec;
  }

  // ---------------------------------------------------------------- the last round

  const Made := After80.items[0]

  lemma PoolListed()
    ensures Children(After80.items, OnLb(1), KPool) == [Made]
  {
    FilterAll(After80.items, i => IsChild(i, OnLb(1), KPool));
  }

  lemma NothingInPool()
    ensures NodeOf(After80.items)(Made) == PoolNode(Made, [], [], [])
  {
    NoChildren(After80.items, InPool(2), KMember);
    NoChildren(After80.items, InPool(2), KListener);
    NoChildren(After80.items, InPool(2), KMonitor);
    hide Children;
  }

  lemma OnePool()
    ensures PoolsOf(After80.items, 1) == [Made]
    ensures NodesOf(After80.items, 1) == [PoolNode(Made, [], [], [])]
  {
    PoolListed();
    NothingInPool();
    hide Children;
    hide NodeOf;
    assert Map([Made], NodeOf(After80.items)) == [PoolNode(Made, [], [], [])];
  }

  lemma SameName(n: PoolNode)
    ensures Index([n], NodeName) == map[NodeName(n) := n]
  {
    assert [n][..0] == [];
    hide NodeName;
  }

  lemma LastJobs()
    ensures
      var n := PoolNode(Made, [], [], []);
      && Resolves([Http80], [n])
      && Jobs([Http80], [n]) == [Job(2, KMember, [], []), Job(2, KListener, [], []), Job(2, KMonitor, [], [])]
  {
    var n := PoolNode(Made, [], [], []);
    SameName(n);
    assert NodeName(Http80) == NodeName(n) == "tcp";
    var m := Index([n], NodeName);
    hide Index;
    assert JobsBy(m)(Http80) == JobsOf(Http80, n);
    FlatNil(JobsBy(m));
    FlatLast([], Http80, JobsBy(m));
    hide Flat;
    assert [] + [Http80] == [Http80];
  }

  lemma LastSnapshot()
    ensures Snapshot(After80, Some(Balancer), "running") == State(Some(Balancer), "running", [PoolNode(Made, [], [], [])], [])
  {
    OnePool();
    NothingListed([], 1);
    hide NodesOf;
    hide NetworksOf;
  }

  lemma LastDiffs()
    ensures DiffsOf([Job(2, KMember, [], []), Job(2, KListener, [], []), Job(2, KMonitor, [], [])], NothingLeft.diffs)
  {
    DiffEmpty(ItemKey);
    hide IsDiff;
  }

  lemma LastPossible()
    ensures Possible(Wants, State(Some(Balancer), "running", [PoolNode(Made, [], [], [])], []), NothingLeft)
  {
    var n := PoolNode(Made, [], [], []);
    assert NodeKey(Http80) == NodeKey(n);
    DiffSame(Http80, n, NodeKey);
    hide IsDiff;
    hide KeyOf;
    LastJobs();
    LastDiffs();
    DiffEmpty(Same);
    hide Jobs;
    hide Resolves;
    hide DiffsOf;
  }

  lemma AfterValid()
    ensures Valid(After80) && Wanted(After80, Service, Wants)
  {
    hide KeyOf;
    assert KindOf(Http80.pool.spec) == KPool;
    assert Balancer in After80.lbs;
  }

  lemma LastIsRound()
    ensures RoundOf(After80, Service, Wants, Balancer, "running", NothingLeft)
  {
    AfterValid();
    FoundBalancer(After80);
    LastSnapshot();
    LastPossible();
    hide Possible;
    hide FindByServiceInfo;
    hide Valid;
    hide Wanted;
    hide Snapshot;
  }

  lemma JobsSettled(j: Job)
    requires j.want == [] && j.have == []
    ensures SettledJob(j)
  {
  }

  lemma SamePoolKeys()
    ensures KeySet(Wants.pools, NodeKey) == KeySet([Made], ItemKey)
  {
    assert NodeKey(Http80) == ItemKey(Made);
    hide KeyOf;
    assert KeySet(Wants.pools, NodeKey) == {NodeKey(Http80)};
    assert KeySet([Made], ItemKey) == {ItemKey(Made)};
  }

  lemma LastContents()
    ensures HasReps(Wants.pools, After80.items, 1)
    ensures forall n :: n in Wants.pools ==> SettledPool(After80.items, n, Rep(After80.items, 1, NodeName(n)))
  {
    OnePool();
    LastJobs();
    hide NodesOf;
    hide PoolsOf;
    hide Jobs;
    hide Resolves;
    hide SettledPool;
    hide SettledJob;
    hide HasReps;
    hide KeyOf;
    hide Rep;
    assert forall j :: j in Jobs(Wants.pools, NodesOf(After80.items, 1)) ==> j.want == [] && j.have == [];
    forall j | j in Jobs(Wants.pools, NodesOf(After80.items, 1))
      ensures SettledJob(j)
    {
      JobsSettled(j);
    }
    ResolvesReps(Wants.pools, After80.items, 1);
    SettledJobs(After80, 1, Wants.pools);
  }

  lemma LastSettled()
    ensures Settled(After80, Balancer, Wants)
  {
    OnePool();
    SamePoolKeys();
    LastContents();
    hide NodesOf;
    hide PoolsOf;
    hide SettledPool;
    hide HasReps;
    hide Rep;
    hide KeyOf;
    hide NodeKey;
    hide ItemKey;
  }

  /** The second round finds everything in place, changes nothing and ends the run. */
  lemma LastRound()
    ensures RoundResult(After80, Wants, Balancer, "running", NothingLeft) == Ran(After80, Finished)
  {
    LastIsRound();
    LastSettled();
    hide *;
    FixpointsAreSettled(After80, Service, Wants, Balancer, "running", NothingLeft);
  }

  // ---------------------------------------------------------------- the run

  const Turn1 := Turn(Wants, "running", CreateIt)
  const Turn2 := Turn(Wants, "running", NothingLeft)

  lemma NotRefused(w: World, c: Choice)
    requires RoundOf(w, Service, Wants, Balancer, "running", c)
    ensures !Refuses(Wants, Snapshot(w, Some(Balancer), "running"))
  {
    var seen := Snapshot(w, Some(Balancer), "running");
    EmptyDiffSamePools(Wants, seen, c.poolDel, c.poolCre);
    hide SamePools;
    hide Valid;
    hide Wanted;
    hide NodesOf;
    hide IsDiff;
  }

  lemma RoundIsTurn(w: World, c: Choice)
    requires RoundOf(w, Service, Wants, Balancer, "running", c)
    ensures Planned(w, Service, Turn(Wants, "running", c))
    ensures TurnResult(w, Service, Turn(Wants, "running", c)) == RoundResult(w, Wants, Balancer, "running", c)
  {
    NotRefused(w, c);
    hide Refuses;
    hide Possible;
    hide Plan;
    hide Valid;
    hide Wanted;
    hide Snapshot;
  }

  lemma OneTurn(w: World, t: Turn)
    requires Planned(w, Service, t) && TurnResult(w, Service, t).control == MustRefetch
    ensures Ongoing(w, Service, [t]) && After(w, Service, [t]) == TurnResult(w, Service, t).world
  {
    assert [t][..0] == [];
    hide Planned;
    hide TurnResult;
  }

  /** The two rounds are the two turns of a run that ends. */
  lemma WholeRun()
    ensures Ongoing(Before, Service, [Turn1]) && After(Before, Service, [Turn1]) == After80
    ensures Planned(After80, Service, Turn2) && TurnResult(After80, Service, Turn2) == Ran(After80, Finished)
  {
    FirstRound();
    LastIsRound();
    LastRound();
    hide RoundOf;
    hide RoundResult;
    hide Planned;
    hide TurnResult;
    hide Ongoing;
    hide After;
    RoundIsTurn(Before, CreateIt);
    RoundIsTurn(After80, NothingLeft);
    OneTurn(Before, Turn1);
  }

  // ---------------------------------------------------------------- a whole service

  /** A service with a floating IP and the defaults of the annotations. */
  const Web := Settings(
    "web", "rma1", "flex-4-2", Some([]), Some(["1.2.3.4"]), "round_robin", "tcp", Some([]), "tcp", Some(2), Some(1), Some(2), Some(3),
    Unset, "tcp", Some(50000), Some(5000), Some(50000), Some([]), false, 0)

  const Inside := Subnet("u", "10.0.0.0/24")

  const OneNode := [Server("rma1", [Nic("private", [NicAddress("10.0.0.7", Inside)])])]

  const Port80 := [ServicePort("TCP", "http", 80, 30080)]

  /** A cloud that knows the subnet and the floating IP, without any load balancer. */
  const Fresh := World([], [], [Fip("1.2.3.4/32", None)], map["u" := Inside], "10.0.0.1", 1)

  const Algorithms := {"round_robin", "source_ip"}

  const Protocols := {"tcp", "udp", "proxy", "proxyv2"}

  lemma FilterOne<T(!new)>(x: T, p: T -> bool)
    requires p(x)
    ensures Filter([x], p) == [x]
  {
    FilterAll([x], p);
  }

  lemma OneAddress()
    ensures EligibleAddresses(Web, OneNode) == [Candidate("private", NicAddress("10.0.0.7", Inside))]
  {
    var c := Candidate("private", NicAddress("10.0.0.7", Inside));
    var nic := OneNode[0].nics[0];
    assert OfNic(nic) == [c];
    FlatNil(OfNic);
    FlatLast([], nic, OfNic);
    FlatNil(OfServer);
    FlatLast([], OneNode[0], OfServer);
    assert [] + [nic] == [nic] && [] + [OneNode[0]] == OneNode;
    assert OfServer(OneNode[0]) == [c] && AllAddresses(OneNode) == [c];
    assert Eligible([], c);
    FilterOne(c, EligibleIn([]));
  }

  lemma WebDesired() returns (d: State)
    ensures Desired(Web, 1, OneNode, Port80) == Success(d) && d.floatingIPs == ["1.2.3.4"]
    ensures |d.pools| == 1 && PoolOfPort(Web, OneNode, Port80[0], d.pools[0])
  {
    SucceedsExactly(Web, 1, OneNode, Port80);
    hide Desired;
    hide PoolOfPort;
    d := Desired(Web, 1, OneNode, Port80).value;
    DesiredShape(Web, 1, OneNode, Port80, d);
  }

  lemma SameAddress()
    ensures Address("1.2.3.4/32") == Address("1.2.3.4")
  {
    Flapping.SlashBehind();
  }

  lemma FreshKnows()
    ensures SubnetsKnown(Fresh.subnets, EligibleAddresses(Web, OneNode))
    ensures Distinct(EligibleAddresses(Web, OneNode), CandidateAddress)
    ensures exists f :: f in Fresh.fips && Address(f.network) == Address("1.2.3.4")
  {
    OneAddress();
    SameAddress();
    hide EligibleAddresses;
    hide Address;
    assert Fresh.fips[0] in Fresh.fips;
  }

  lemma WebIsPlain()
    ensures PortsDiffer(Port80) && Web.name == Service.name != "" && |OneNode| == 1 && Web.allowedSubnets.Some?
    ensures Web.algorithm in Algorithms && Web.protocol in Protocols && "udp" in Protocols
  {
  }

  lemma WebAsks(d: State)
    requires Desired(Web, 1, OneNode, Port80) == Success(d) && d.floatingIPs == ["1.2.3.4"]
    ensures Asks(Algorithms, Protocols, Fresh, Service, Web, OneNode, Port80, d)
  {
    FreshKnows();
    WebIsPlain();
    KnownAlphabets();
    ApartMeets(Algorithms, Protocols);
    AsksFor(Algorithms, Protocols, Fresh, Service, Web, OneNode, Port80, d, "1.2.3.4");
    hide *;
  }

  lemma AsksFor(algorithms: set<string>, protocols: set<string>, w: World, q: Query,
                s: Settings, servers: seq<Server>, ports: seq<ServicePort>, d: State, ip: string)
    requires Desired(s, |servers|, servers, ports) == Success(d) && d.floatingIPs == [ip]
    requires PortsDiffer(ports) && s.name == q.name != "" && s.allowedSubnets.Some?
    requires SubnetsKnown(w.subnets, EligibleAddresses(s, servers)) && Distinct(EligibleAddresses(s, servers), CandidateAddress)
    requires exists f :: f in w.fips && Address(f.network) == Address(ip)
    requires TailsMeet(algorithms, protocols) && s.algorithm in algorithms && s.protocol in protocols && "udp" in protocols
    ensures Asks(algorithms, protocols, w, q, s, servers, ports, d)
  {
    hide Desired;
    hide PortsDiffer;
    hide SubnetsKnown;
    hide EligibleAddresses;
    hide TailsMeet;
    hide Address;
    hide Distinct;
  }

  lemma FreshTidy()
    ensures Tidy(Algorithms, Protocols, Fresh, Service) && FindByServiceInfo(Fresh.lbs, Service) == Success(None)
    ensures FoundIn(Fresh, Service).None?
  {
    LookupExact(Fresh.lbs, Service);
    assert Candidates(Fresh.lbs, Service) == {};
    hide FindByServiceInfo;
    assert Valid(Fresh);
  }

  /** The only item of its kind that a pool holds, seen from the pool that was asked for. */
  lemma OneEach(items: seq<Item>, p: Item, n: PoolNode, kind: Kind) returns (i: Item)
    requires SameContents(items, p, n, kind) && |ChildrenIn(n, kind)| == 1
    ensures Children(items, InPool(p.id), kind) == [i] && Essence(i) == Essence(ChildrenIn(n, kind)[0])
  {
    var have, want := Children(items, InPool(p.id), kind), ChildrenIn(n, kind);
    hide Children;
    hide ChildrenIn;
    hide KeyOf;
    assert |multiset(Map(have, Essence))| == |multiset(Map(want, Essence))|;
    i := have[0];
    assert Map(have, Essence)[0] == Essence(i) && Map(want, Essence) == [Essence(want[0])];
    assert Essence(i) in multiset(Map(have, Essence));
  }

  /** The load balancer `lb` has a pool for the port, with one member for the address, one listener and one monitor. */
  ghost predicate ServesPort(w: World, lb: Uuid, t: Settings, port: ServicePort, c: Candidate, p: Item, m: Item, l: Item, h: Item) {
    && p in PoolsOf(w.items, lb) && p.spec.Pool? && IsPoolName(port.protocol, port.name, p.spec.name)
    && Children(w.items, InPool(p.id), KMember) == [m] && Children(w.items, InPool(p.id), KListener) == [l]
    && Children(w.items, InPool(p.id), KMonitor) == [h]
    && Serves(t, port, c, m) && ListensTo(t, port, l.spec)
    && h.spec.Monitor? && exists http :: Monitors(t, h.spec.(http := http))
  }

  lemma ShapeEach(t: Settings, servers: seq<Server>, port: ServicePort, c: Candidate, n: PoolNode)
    requires PoolOfPort(t, servers, port, n) && EligibleAddresses(t, servers) == [c]
    ensures |n.members| == 1 && Serves(t, port, c, n.members[0]) && |n.listeners| == 1 && ListensTo(t, port, n.listeners[0].spec)
    ensures |n.monitors| == 1 && Monitors(t, n.monitors[0].spec) && IsPoolName(port.protocol, port.name, NodeName(n))
  {
    hide EligibleAddresses;
    hide IsPoolName;
    hide ListensTo;
    hide Monitors;
    assert c == EligibleAddresses(t, servers)[0];
    hide Serves;
  }

  lemma SameSpec(i: Item, j: Item)
    requires Essence(i) == Essence(j)
    ensures j.spec.Monitor? ==> i.spec.Monitor? && i.spec.(http := j.spec.http) == j.spec
    ensures !j.spec.Monitor? ==> i.spec == j.spec
  {
    hide KeyOf;
    if j.spec.Monitor? {
      assert i.spec.Monitor? && i.spec.(http := None) == j.spec.(http := None);
    }
  }

  lemma SameServes(t: Settings, port: ServicePort, c: Candidate, i: Item, j: Item)
    requires Serves(t, port, c, j) && Essence(i) == Essence(j)
    ensures Serves(t, port, c, i)
  {
    SameSpec(i, j);
    hide Essence;
    hide IsMemberName;
  }

  lemma SameListens(t: Settings, port: ServicePort, i: Item, j: Item)
    requires ListensTo(t, port, j.spec) && Essence(i) == Essence(j)
    ensures ListensTo(t, port, i.spec)
  {
    SameSpec(i, j);
    hide Essence;
    hide IsListenerName;
  }

  lemma SameMonitors(t: Settings, i: Item, j: Item)
    requires Monitors(t, j.spec) && Essence(i) == Essence(j)
    ensures i.spec.Monitor? && exists http :: Monitors(t, i.spec.(http := http))
  {
    SameSpec(i, j);
    hide Essence;
    assert j.spec.Monitor?;
    assert i.spec.(http := j.spec.http) == j.spec;
  }

  lemma PoolHolds(w: World, lb: Uuid, t: Settings, servers: seq<Server>, port: ServicePort, c: Candidate, n: PoolNode, p: Item)
    returns (m: Item, l: Item, h: Item)
    requires PoolOfPort(t, servers, port, n) && EligibleAddresses(t, servers) == [c]
    requires p in PoolsOf(w.items, lb) && p.spec.Pool? && p.spec.name == NodeName(n) && MirrorsPool(w.items, p, n)
    ensures ServesPort(w, lb, t, port, c, p, m, l, h)
  {
    ShapeEach(t, servers, port, c, n);
    hide PoolOfPort;
    hide EligibleAddresses;
    hide PoolsOf;
    hide Children;
    hide KeyOf;
    hide Serves;
    hide ListensTo;
    hide Monitors;
    hide IsPoolName;
    hide SameContents;
    hide Essence;
    m := OneEach(w.items, p, n, KMember);
    l := OneEach(w.items, p, n, KListener);
    h := OneEach(w.items, p, n, KMonitor);
    hide MirrorsPool;
    SameServes(t, port, c, m, n.members[0]);
    SameListens(t, port, l, n.listeners[0]);
    SameMonitors(t, h, n.monitors[0]);
  }

  lemma FirstPool(w: World, lb: Uuid, d: State) returns (p: Item)
    requires Mirrors(w, lb, d) && |d.pools| == 1
    ensures p in PoolsOf(w.items, lb) && p.spec.Pool? && p.spec.name == NodeName(d.pools[0]) && MirrorsPool(w.items, p, d.pools[0])
  {
    hide PoolsOf;
    hide Index;
    hide MirrorsPool;
    assert d.pools[0] in d.pools;
    p := Rep(w.items, lb, NodeName(d.pools[0]));
    RepFacts(w, lb, NodeName(d.pools[0]));
    hide Rep;
  }

  lemma IpSettled(fips: seq<Fip>, lb: Uuid)
    requires FipsSettled(fips, ["1.2.3.4"], lb)
    ensures exists f :: f in fips && Address(f.network) == Address("1.2.3.4") && f.lb == Some(lb)
  {
    hide Address;
    assert "1.2.3.4" in ["1.2.3.4"];
  }

  /** From a cloud without any load balancer, a run gives the service all it asks for: a load balancer, a pool with
      its member, its listener and its monitor, and the floating IP. */
  lemma WholeService() returns (d: State, turns: seq<Turn>, t: Turn, w1: World, lb: Lb, p: Item, m: Item, l: Item, h: Item)
    ensures Desired(Web, 1, OneNode, Port80) == Success(d) && Ends(Fresh, Service, d, turns, t, w1)
    ensures FoundIn(w1, Service) == Some(lb) && Fresh.lbs == []
    ensures ServesPort(w1, lb.id, Web, Port80[0], Candidate("private", NicAddress("10.0.0.7", Inside)), p, m, l, h)
    ensures exists f :: f in w1.fips && Address(f.network) == Address("1.2.3.4") && f.lb == Some(lb.id)
  {
    d := WebDesired();
    WebAsks(d);
    FreshTidy();
    OneAddress();
    assert Fresh.lbs == [] && |OneNode| == 1;
    hide *;
    turns, t, w1 := ServiceIsProvisioned(Algorithms, Protocols, Fresh, Service, Web, OneNode, Port80, d);
    lb := FoundIn(w1, Service).value;
    p := FirstPool(w1, lb.id, d);
    m, l, h := PoolHolds(w1, lb.id, Web, OneNode, Port80[0], Candidate("private", NicAddress("10.0.0.7", Inside)), d.pools[0], p);
    IpSettled(w1.fips, lb.id);
  }
}
