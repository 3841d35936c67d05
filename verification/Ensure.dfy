/** `EnsureLoadBalancer`, `UpdateLoadBalancer` and `EnsureLoadBalancerDeleted` of
    pkg/cloudscale_ccm/loadbalancer.go, as far as they run under the lock of their service. */
module Ensure {
  import opened Seqs
  import opened Domain
  import opened CloudWorld
  import opened Limiters
  import opened Lookup
  import opened Planner
  import opened Frames
  import opened PlanLocality
  import opened Runs
  import opened Progress
  import opened Clouds
  import opened Reconcile
  import opened FloatingIps
  import opened DesiredStates
  import opened DesiredFits
  import opened Finishing
  import opened Rounds
  import opened Names
  import opened Annotate

  datatype EnsureError =
    | BadConfig(config: ConfigError)
    | NotReconciled(ended: Ended<DesiredError>)
    | NotRead(count: Count)

  /** A service with what Kubernetes knows of it: its settings, its nodes and its ports; and the servers of its
      nodes as they are listed for each pass of the reconciler. */
  datatype Request = Request(service: Service, uuid: Option<Uuid>, settings: Settings, nodes: nat,
                             servers: nat -> seq<Server>, ports: seq<ServicePort>, annotations: Annotated)

  function QueryOf(r: Request): Query {
    Query(r.uuid, r.settings.name)
  }

  /** A service looks for the load balancer it is annotated with, and for one of its name. */
  lemma QueryExactly(w: World, r: Request)
    requires Valid(w)
    ensures forall l :: FindByServiceInfo(w.lbs, QueryOf(r)) == Success(Some(l)) <==>
      (set x | x in w.lbs && (r.uuid == Some(x.id) || (r.settings.name != "" && x.name == r.settings.name))) == {l}
  {
    LookupExact(w.lbs, QueryOf(r));
    hide FindByServiceInfo;
  }

  function DesiredOf(r: Request): Wishes<DesiredError> {
    (pass: nat) => Desired(r.settings, r.nodes, r.servers(pass), r.ports)
  }

  const Nothing: Wishes<DesiredError> := (pass: nat) => Success(State(None, "", [], []))

  /** The addresses the service asks for. */
  ghost function IpsOf(r: Request): set<string> {
    if r.settings.floatingIPs.Some? then Addresses(r.settings.floatingIPs.value) else {}
  }

  ghost function AllServices(listing: ServiceListing): seq<Service> {
    Flat(listing.pages, Whole)
  }

  /** The cloud after a call: valid, and the same but for the load balancer of the service. */
  ghost predicate Spared(w: World, w1: World, r: Request, all: bool) {
    Valid(w1) && Frame(w, w1, Own(w, QueryOf(r)), all, IpsOf(r))
  }

  lemma Untouched(w: World, r: Request, all: bool)
    requires Valid(w)
    ensures Spared(w, w, r, all)
  {
    hide Valid;
    hide Own;
    FrameReflexive(w, Own(w, QueryOf(r)), all, IpsOf(r));
  }

  lemma DesiredParts(t: Settings, nodes: nat, servers: seq<Server>, ports: seq<ServicePort>)
    requires Desired(t, nodes, servers, ports).Success?
    ensures
      var d := Desired(t, nodes, servers, ports).value;
      d.lb.Some? && d.lb.value.name == t.name && t.floatingIPs == Some(d.floatingIPs)
  {
    hide ZoneFor;
    hide NodesFor;
  }

  lemma DesiredIps(r: Request, pass: nat)
    requires DesiredOf(r)(pass).Success?
    ensures
      var d := DesiredOf(r)(pass).value;
      d.lb.Some? && d.lb.value.name == r.settings.name && Addresses(d.floatingIPs) == IpsOf(r)
  {
    hide Desired;
    hide Address;
    assert DesiredOf(r)(pass) == Desired(r.settings, r.nodes, r.servers(pass), r.ports);
    DesiredParts(r.settings, r.nodes, r.servers(pass), r.ports);
  }

  lemma DesiredAgrees(r: Request)
    requires r.settings.name != ""
    ensures Agree(QueryOf(r), false, IpsOf(r), DesiredOf(r))
  {
    hide IpsOf;
    hide DesiredOf;
    forall pass: nat | DesiredOf(r)(pass).Success?
      ensures ConsistentState(QueryOf(r), false, IpsOf(r), DesiredOf(r)(pass).value)
    {
      DesiredIps(r, pass);
    }
  }

  /** The configuration is bad or cannot be checked. */
  ghost predicate Rejected(listing: ServiceListing, r: Request) {
    !Passes(r.service, AllServices(listing)) || !Readable(listing, r.service)
  }

  lemma FirstWish(desired: Wishes<DesiredError>, at: Conditions, turns: seq<Turn>)
    requires Made(desired, at, turns)
    ensures turns != [] ==> desired(0).Success?
  {
    if turns != [] {
      assert desired(0) == Success(turns[0].desired);
    }
  }

  /** A run that has ended before the first batch was started. */
  lemma NothingDone(w: World, r: Request, at: Conditions, deadline: Option<nat>, e: Ended<DesiredError>, turns: seq<Turn>,
                    last: Option<(Turn, nat)>, w1: World)
    requires EndsAs(w, QueryOf(r), DesiredOf(r), at, deadline, e, turns, last, w1) && DesiredOf(r)(0).Failure?
    ensures !e.Done? && w1 == w
  {
    hide Ongoing;
    hide Moment;
    hide TurnResult;
    hide Stopped;
    FirstWish(DesiredOf(r), at, turns);
    hide DesiredOf;
    hide NotBegun;
  }

  /** A call that succeeds, which is after some pass, has settled the desired state of that pass, if it can be
      reached. A call that nothing disturbs, has no deadline, and that neither the configuration nor the cloud speaks
      against, succeeds. */
  method UpdateLoadBalancer(cloud: Cloud, listing: ServiceListing, r: Request, at: Conditions, deadline: Option<nat>, ghost calm: nat)
    returns (e: Result<(), EnsureError>, ghost pass: nat)
    requires |listing.pages| > 0 && Valid(cloud.State()) && r.settings.name != ""
    requires Endable(cloud.State(), QueryOf(r), DesiredOf(r), at, deadline, calm)
    modifies cloud
    ensures Spared(old(cloud.State()), cloud.State(), r, false)
    ensures Rejected(listing, r) || DesiredOf(r)(0).Failure? ==> e.Failure? && cloud.State() == old(cloud.State())
    ensures e.Success? ==>
      && DesiredOf(r)(pass) == Desired(r.settings, r.nodes, r.servers(pass), r.ports)
      && DesiredOf(r)(pass).Success? && DesiredOf(r)(pass).value.lb.Some? && FoundIn(cloud.State(), QueryOf(r)).Some?
      && Suits(DesiredOf(r)(pass).value.lb.value, FoundIn(cloud.State(), QueryOf(r)).value)
    ensures e.Success? && Requirable(old(cloud.State()), QueryOf(r), DesiredOf(r)(pass).value) ==>
      Reached(cloud.State(), QueryOf(r), DesiredOf(r)(pass).value)
    ensures !Rejected(listing, r) && deadline.None? && Undisturbed(at) && Steady(DesiredOf(r)) ==>
      CanEnd(old(cloud.State()), QueryOf(r), DesiredOf(r)(0).value) ==> e.Success?
  {
    hide Valid;
    hide Frame;
    hide Own;
    hide Reached;
    hide Requirable;
    hide FoundIn;
    hide EndsAs;
    hide Desired;
    hide IpsOf;
    hide Agree;
    hide Endable;
    hide Passes;
    hide Readable;
    hide Undisturbed;
    hide CanEnd;
    hide Suits;
    ghost var w := cloud.State();
    pass := 0;
    Untouched(w, r, false);
    var checked := EnsureValidConfig(listing, r.service);
    if checked.Failure? {
      e := Failure(BadConfig(checked.error));
      return;
    }
    DesiredAgrees(r);
    ghost var turns, last;
    var ended;
    ended, turns, last := ReconcileLbState(cloud, QueryOf(r), DesiredOf(r), at, deadline, calm, false, IpsOf(r));
    if DesiredOf(r)(0).Failure? {
      NothingDone(w, r, at, deadline, ended, turns, last, cloud.State());
    }
    LastWish(w, r, at, deadline, ended, turns, last, cloud.State());
    e, pass := if ended.Done? then Success(()) else Failure(NotReconciled(ended)), |turns|;
  }

  lemma LastWish(w: World, r: Request, at: Conditions, deadline: Option<nat>, e: Ended<DesiredError>, turns: seq<Turn>,
                 last: Option<(Turn, nat)>, w1: World)
    requires EndsAs(w, QueryOf(r), DesiredOf(r), at, deadline, e, turns, last, w1)
    ensures e.Done? ==> last.Some? && DesiredOf(r)(|turns|) == Success(last.value.0.desired)
  {
    hide Ongoing;
    hide Moment;
    hide TurnResult;
    hide Stopped;
    hide DesiredOf;
  }

  /** For a service whose ports and addresses differ and whose servers stay the same, and a cloud that knows what it asks
      for, nothing speaks against a run, if the lookup succeeds and the load balancer that is found suits. */
  lemma ServiceCanEnd(algorithms: set<string>, protocols: set<string>, w: World, r: Request, d: State)
    requires r.nodes == |r.servers(0)| && forall pass: nat :: r.servers(pass) == r.servers(0)
    requires Asks(algorithms, protocols, w, QueryOf(r), r.settings, r.servers(0), r.ports, d)
    requires Tidy(algorithms, protocols, w, QueryOf(r)) && FindByServiceInfo(w.lbs, QueryOf(r)).Success?
    requires FoundSuits(w, QueryOf(r), d)
    ensures Steady(DesiredOf(r)) && DesiredOf(r)(0) == Success(d) && CanEnd(w, QueryOf(r), d)
  {
    AsksReady(algorithms, protocols, w, QueryOf(r), r.settings, r.servers(0), r.ports, d);
    assert Desired(r.settings, r.nodes, r.servers(0), r.ports) == Success(d);
    ReadyParts(k => NameBehind(algorithms, protocols, k), w, QueryOf(r), d);
    hide Ready;
    hide AllFaithful;
    hide Desired;
    hide Asks;
    hide Tidy;
    hide Valid;
    hide FindByServiceInfo;
    hide NameBehind;
  }

  const UuidKey := "k8s.cloudscale.ch/loadbalancer-uuid"
  const VersionKey := "k8s.cloudscale.ch/loadbalancer-config-version"
  const ZoneKey := "k8s.cloudscale.ch/loadbalancer-zone"

  /** What the service is annotated with. */
  function Notes(lb: Lb): seq<string> {
    [UuidKey, Decimal(lb.id), VersionKey, "1", ZoneKey, lb.zone]
  }

  /** Returns the operations that annotate the service. Reading the load balancer once more can fail, but cannot
      come up empty after a run that ended well. */
  method EnsureLoadBalancer(cloud: Cloud, listing: ServiceListing, r: Request, at: Conditions, after: Condition, deadline: Option<nat>,
                            ghost calm: nat)
    returns (e: Result<seq<Operation>, EnsureError>, ghost pass: nat)
    requires |listing.pages| > 0 && Valid(cloud.State()) && r.settings.name != ""
    requires Endable(cloud.State(), QueryOf(r), DesiredOf(r), at, deadline, calm)
    modifies cloud
    ensures Spared(old(cloud.State()), cloud.State(), r, false)
    ensures Rejected(listing, r) || DesiredOf(r)(0).Failure? ==> e.Failure? && cloud.State() == old(cloud.State())
    ensures e.Success? ==>
      && DesiredOf(r)(pass) == Desired(r.settings, r.nodes, r.servers(pass), r.ports)
      && DesiredOf(r)(pass).Success? && DesiredOf(r)(pass).value.lb.Some? && FoundIn(cloud.State(), QueryOf(r)).Some?
      && Suits(DesiredOf(r)(pass).value.lb.value, FoundIn(cloud.State(), QueryOf(r)).value)
      && e.value == Operations(r.annotations, Notes(FoundIn(cloud.State(), QueryOf(r)).value))
    ensures e.Success? && Requirable(old(cloud.State()), QueryOf(r), DesiredOf(r)(pass).value) ==>
      Reached(cloud.State(), QueryOf(r), DesiredOf(r)(pass).value)
    ensures !Rejected(listing, r) && deadline.None? && Undisturbed(at) && Quiet(after) && Steady(DesiredOf(r)) ==>
      CanEnd(old(cloud.State()), QueryOf(r), DesiredOf(r)(0).value) ==> e.Success?
  {
    hide Valid;
    hide Frame;
    hide Own;
    hide Reached;
    hide Desired;
    hide IpsOf;
    hide Rejected;
    hide Operations;
    hide Spared;
    hide Requirable;
    hide Endable;
    hide Notes;
    hide Suits;
    hide Undisturbed;
    hide CanEnd;
    hide Steady;
    hide FindDespite;
    var updated;
    updated, pass := UpdateLoadBalancer(cloud, listing, r, at, deadline, calm);
    if updated.Failure? {
      e := Failure(updated.error);
      return;
    }
    SnapshotLb(cloud.State(), QueryOf(r));
    SeenByName(cloud.lbs, QueryOf(r), after.lookupFails);
    var actual := ActualLbState(cloud, QueryOf(r), "", false, after.lookupFails && r.uuid.None?, after.listingFails);
    if actual.Failure? {
      e := Failure(NotRead(actual.error));
      return;
    }
    var lb := actual.value.lb.value;
    SomeNotes(lb);
    var annotated := AnnotateService(true, r.annotations, Notes(lb));
    e := Success(annotated.value);
  }

  /** A load balancer that is found is there to be read. */
  lemma SnapshotLb(w: World, q: Query)
    requires FoundIn(w, q).Some?
    ensures FindByServiceInfo(w.lbs, q).Success? && FindByServiceInfo(w.lbs, q).value == FoundIn(w, q)
  {
  }

  lemma SomeNotes(lb: Lb)
    ensures Notes(lb) != [] && |Notes(lb)| % 2 == 0
  {
  }

  lemma NothingAgrees(w: World, q: Query, at: Conditions, deadline: Option<nat>, calm: nat)
    requires Valid(w) && (deadline.None? ==> forall n: nat :: n >= calm ==> at(n).status != "changing")
    ensures Agree(q, true, {}, Nothing) && Endable(w, q, Nothing, at, deadline, calm)
    ensures Steady(Nothing) && (FindByServiceInfo(w.lbs, q).Success? ==> CanEnd(w, q, Nothing(0).value))
  {
    hide Valid;
    hide FindByServiceInfo;
  }

  /** Succeeds, if nothing disturbs it, there is no deadline, and neither the configuration nor the lookup fails. */
  method EnsureLoadBalancerDeleted(cloud: Cloud, listing: ServiceListing, r: Request, at: Conditions, deadline: Option<nat>, ghost calm: nat)
    returns (e: Result<(), EnsureError>)
    requires |listing.pages| > 0 && Valid(cloud.State())
    requires deadline.None? ==> forall n: nat :: n >= calm ==> at(n).status != "changing"
    modifies cloud
    ensures Spared(old(cloud.State()), cloud.State(), r, true)
    ensures Rejected(listing, r) ==> e.Failure? && cloud.State() == old(cloud.State())
    ensures e.Success? ==> FindByServiceInfo(cloud.lbs, QueryOf(r)) == Success(None)
    ensures !Rejected(listing, r) && deadline.None? && Undisturbed(at) && FindByServiceInfo(old(cloud.lbs), QueryOf(r)).Success? ==> e.Success?
  {
    hide Valid;
    hide Frame;
    hide Own;
    hide FindByServiceInfo;
    hide EndsAs;
    hide IpsOf;
    hide Agree;
    hide Endable;
    hide Passes;
    hide Readable;
    hide Undisturbed;
    hide CanEnd;
    Untouched(cloud.State(), r, true);
    var checked := EnsureValidConfig(listing, r.service);
    if checked.Failure? {
      return Failure(BadConfig(checked.error));
    }
    ghost var w := cloud.State();
    ghost var turns, last;
    var ended;
    NothingAgrees(w, QueryOf(r), at, deadline, calm);
    ended, turns, last := ReconcileLbState(cloud, QueryOf(r), Nothing, at, deadline, calm, true, {});
    MoreIps(w, cloud.State(), Own(w, QueryOf(r)), IpsOf(r));
    if ended.Done? {
      NothingLeft(w, QueryOf(r), at, deadline, ended, turns, last, cloud.State());
    }
    e := if ended.Done? then Success(()) else Failure(NotReconciled(ended));
  }

  lemma NothingLeft(w: World, q: Query, at: Conditions, deadline: Option<nat>, e: Ended<DesiredError>, turns: seq<Turn>,
                    last: Option<(Turn, nat)>, w1: World)
    requires Valid(w) && EndsAs(w, q, Nothing, at, deadline, e, turns, last, w1) && e.Done?
    requires last.Some? && Requirable(w, q, last.value.0.desired) ==> Reached(w1, q, last.value.0.desired)
    ensures FindByServiceInfo(w1.lbs, q) == Success(None)
  {
    hide Ongoing;
    hide Moment;
    hide TurnResult;
    hide Stopped;
    hide Valid;
    assert Nothing(|turns|) == Success(last.value.0.desired);
    hide FindByServiceInfo;
  }

  lemma MoreIps(w: World, w1: World, own: Uuid, ips: set<string>)
    requires Frame(w, w1, own, true, {})
    ensures Frame(w, w1, own, true, ips)
  {
    hide Foreign;
    hide OtherLbs;
    hide Address;
  }

  // ---------------------------------------------------------------- the annotations

  lemma NotesAgree(lb: Lb)
    ensures Agreeing(Notes(lb), 3)
  {
    assert |UuidKey| == 35 && |VersionKey| == 45 && |ZoneKey| == 35;
    assert UuidKey[31] == 'u' && ZoneKey[31] == 'z';
  }

  lemma NotesHold(lb: Lb)
    ensures |Notes(lb)| == 6
    ensures KeyAt(Notes(lb), 0) == "k8s.cloudscale.ch/loadbalancer-uuid" && ReadsAs(ValueAt(Notes(lb), 0), lb.id)
    ensures KeyAt(Notes(lb), 1) == "k8s.cloudscale.ch/loadbalancer-config-version" && ValueAt(Notes(lb), 1) == "1"
    ensures KeyAt(Notes(lb), 2) == "k8s.cloudscale.ch/loadbalancer-zone" && ValueAt(Notes(lb), 2) == lb.zone
  {
    DecimalReads(lb.id);
    hide Decimal;
    hide ReadsAs;
  }

  lemma OnlyNoted(lb: Lb, k: string)
    ensures GivenTo(Notes(lb), 3, k) ==>
      k in {"k8s.cloudscale.ch/loadbalancer-uuid", "k8s.cloudscale.ch/loadbalancer-config-version", "k8s.cloudscale.ch/loadbalancer-zone"}
  {
    NotesHold(lb);
    hide Notes;
    hide ReadsAs;
  }

  /** Sending the operations annotates the service with the UUID of its load balancer, which tells it apart, the
      version "1" and the zone, and leaves all other annotations as they are; a second call sends none. */
  lemma AnnotatedOnce(a: Annotated, lb: Lb) returns (m: map<string, string>)
    ensures Patched(a, Operations(a, Notes(lb))) == Some(Some(m))
    ensures ReadsAs(Read(Some(m), "k8s.cloudscale.ch/loadbalancer-uuid"), lb.id)
    ensures Read(Some(m), "k8s.cloudscale.ch/loadbalancer-config-version") == "1"
    ensures Read(Some(m), "k8s.cloudscale.ch/loadbalancer-zone") == lb.zone
    ensures forall k ::
      k !in {"k8s.cloudscale.ch/loadbalancer-uuid", "k8s.cloudscale.ch/loadbalancer-config-version", "k8s.cloudscale.ch/loadbalancer-zone"}
      ==> (k in m <==> k in Start(a)) && (k in m ==> m[k] == Start(a)[k])
    ensures Operations(Some(m), Notes(lb)) == []
    ensures forall other: Lb :: ReadsAs(Read(Some(m), "k8s.cloudscale.ch/loadbalancer-uuid"), other.id) ==> other.id == lb.id
  {
    NotesAgree(lb);
    m := PatchIsExact(a, Notes(lb));
    hide Patched;
    hide Operations;
    NotesHold(lb);
    forall k
      ensures GivenTo(Notes(lb), 3, k) ==>
        k in {"k8s.cloudscale.ch/loadbalancer-uuid", "k8s.cloudscale.ch/loadbalancer-config-version", "k8s.cloudscale.ch/loadbalancer-zone"}
    {
      OnlyNoted(lb, k);
    }
    hide Notes;
    hide Agreeing;
    hide Read;
    hide KeyAt;
    hide ValueAt;
    hide GivenTo;
    NothingToDo(m, Notes(lb), 3);
    hide ReadsAs;
    forall other: Lb | ReadsAs(Read(Some(m), "k8s.cloudscale.ch/loadbalancer-uuid"), other.id)
      ensures other.id == lb.id
    {
      OneReading(Read(Some(m), "k8s.cloudscale.ch/loadbalancer-uuid"), other.id, lb.id);
    }
  }

  lemma OneReading(s: string, n: int, m: int)
    requires ReadsAs(s, n) && ReadsAs(s, m)
    ensures n == m
  {
    hide Parse;
  }
}
