/** No floating IP goes back and forth between services, exactly as long as no two of them ask for its address. */
module Flapping {
  import opened Seqs
  import opened Domain
  import opened CloudWorld
  import opened Planner
  import opened Lookup
  import opened Rounds
  import opened FinalRounds
  import opened Frames
  import opened PlanLocality
  import opened Runs
  import opened Names
  import opened Finishing
  import opened FloatingIps

  // ---------------------------------------------------------------- names of load balancers

  lemma {:induction false} BatchNames(w: World, b: seq<Action>, name: string)
    requires forall a :: a in b ==> (a.RenameLb? ==> a.name == name) && (a.CreateLb? ==> a.lb.name == name)
    ensures forall l :: l in Exec(w, b).world.lbs ==> l in w.lbs || l.name == name
    decreases |b|
  {
    if b != [] && Apply(w, b[0]).Proceed? {
      var w1 := Apply(w, b[0]).world;
      assert b[0] in b;
      StepNames(w, b[0], name);
      hide Apply;
      BatchNames(w1, b[1..], name);
    }
  }

  lemma StepNames(w: World, a: Action, name: string)
    requires Apply(w, a).Proceed?
    requires (a.RenameLb? ==> a.name == name) && (a.CreateLb? ==> a.lb.name == name)
    ensures forall l :: l in Apply(w, a).world.lbs ==> l in w.lbs || l.name == name
  {
    hide Stored;
    hide Revised;
    hide Survivors;
    hide Assigned;
  }

  lemma PlanNames(w: World, q: Query, t: Turn, all: bool, ips: set<string>)
    requires Planned(w, q, t) && Consistent(q, all, ips, t)
    ensures forall a :: a in Batch(w, q, t) ==> (a.RenameLb? ==> a.name == q.name) && (a.CreateLb? ==> a.lb.name == q.name)
  {
    if FoundIn(w, q).Some? {
      var l := FoundIn(w, q).value;
      PlanLocal(w, t.desired, l, t.status, t.choice);
      if t.desired.lb.Some? {
        PlanRenames(w, t.desired, l, t.status, t.choice);
        hide Plan;
      }
    }
  }

  lemma TurnNames(w: World, q: Query, t: Turn, k: nat, all: bool, ips: set<string>)
    requires Planned(w, q, t) && Consistent(q, all, ips, t) && k <= |Batch(w, q, t)|
    ensures forall l :: l in Exec(w, Batch(w, q, t)[..k]).world.lbs ==> l in w.lbs || l.name == q.name
  {
    PlanNames(w, q, t, all, ips);
    hide Planned;
    hide Consistent;
    hide Batch;
    hide Exec;
    BatchNames(w, Batch(w, q, t)[..k], q.name);
  }

  lemma {:induction false} AfterNames(w: World, q: Query, turns: seq<Turn>, all: bool, ips: set<string>)
    requires Ongoing(w, q, turns) && forall t :: t in turns ==> Consistent(q, all, ips, t)
    ensures forall l :: l in After(w, q, turns).lbs ==> l in w.lbs || l.name == q.name
  {
    hide Planned;
    hide Batch;
    hide Consistent;
    hide Exec;
    if turns != [] {
      var init, t := turns[..|turns| - 1], turns[|turns| - 1];
      assert turns == init + [t];
      AfterNames(w, q, init, all, ips);
      var w0 := After(w, q, init);
      WholeTurn(w0, q, t);
      TurnNames(w0, q, t, |Batch(w0, q, t)|, all, ips);
    }
  }

  /** A run creates and renames load balancers under its own name only. */
  lemma RunNames(w: World, q: Query, turns: seq<Turn>, t: Turn, k: nat, w1: World, all: bool, ips: set<string>)
    requires Moment(w, q, turns, t, k, w1)
    requires Consistent(q, all, ips, t) && forall x :: x in turns ==> Consistent(q, all, ips, x)
    ensures forall l :: l in w1.lbs ==> l in w.lbs || l.name == q.name
  {
    hide Planned;
    hide Batch;
    hide Consistent;
    hide Exec;
    hide After;
    hide Ongoing;
    AfterNames(w, q, turns, all, ips);
    TurnNames(After(w, q, turns), q, t, k, all, ips);
  }

  // ---------------------------------------------------------------- services and their load balancers

  /** The cloud, and the UUIDs of load balancers that services, by their UID, are annotated with. */
  datatype Stage = Stage(world: World, notes: map<string, Uuid>)

  /** What a service looks its load balancer up by; `names` are the load balancer names of services. */
  ghost function QueryFor(names: string -> string, notes: map<string, Uuid>, s: Service): Query {
    Query(if s.uid in notes then Some(notes[s.uid]) else None, names(s.uid))
  }

  /** The addresses a service asks for. */
  ghost function Wants(s: Service): set<string> {
    if s.ips.Some? then Addresses(s.ips.value) else {}
  }

  /** A run of a service, cut off anywhere or not; `all` if it is to delete the load balancer. */
  datatype Visit = Visit(service: Service, all: bool, turns: seq<Turn>, t: Turn, k: nat)

  /** The service is annotated with the load balancer it finds, or nothing is noted. */
  ghost predicate Noted(s0: Stage, uid: string, found: Option<Lb>, s1: Stage) {
    s1.notes == s0.notes || (found.Some? && s1.notes == s0.notes[uid := found.value.id])
  }

  ghost predicate Visited(names: string -> string, s0: Stage, v: Visit, s1: Stage) {
    var q := QueryFor(names, s0.notes, v.service);
    && Moment(s0.world, q, v.turns, v.t, v.k, s1.world)
    && Consistent(q, v.all, Wants(v.service), v.t)
    && (forall t :: t in v.turns ==> Consistent(q, v.all, Wants(v.service), t))
    && Noted(s0, v.service.uid, FoundIn(s1.world, q), s1)
  }

  /** The service has a load balancer and gets past the check. */
  ghost predicate Active(services: seq<Service>, s: Service) {
    s in services && s.kind == "LoadBalancer" && Passes(s, services)
  }

  /** Visits of any active services one after the other, in any order; `uid` is not deleted. */
  ghost predicate History(names: string -> string, services: seq<Service>, uid: string, ss: seq<Stage>, vs: seq<Visit>) {
    && |ss| == |vs| + 1
    && forall i :: 0 <= i < |vs| ==>
      && Visited(names, ss[i], vs[i], ss[i + 1])
      && Active(services, vs[i].service) && (vs[i].service.uid == uid ==> !vs[i].all)
  }

  /** The service finds `l`, and no other service goes by the name or the UUID of `l` or by the name of the service. */
  ghost predicate Holds(names: string -> string, services: seq<Service>, s: Stage, a: Service, l: Lb) {
    && FindByServiceInfo(s.world.lbs, QueryFor(names, s.notes, a)) == Success(Some(l))
    && (a.uid in s.notes ==> s.notes[a.uid] < s.world.next)
    && forall b :: b in services && b.uid != a.uid ==> Apart(names, s, a, l, b)
  }

  ghost predicate Apart(names: string -> string, s: Stage, a: Service, l: Lb, b: Service) {
    && names(b.uid) != names(a.uid) && names(b.uid) != l.name
    && (b.uid in s.notes ==> s.notes[b.uid] != l.id)
  }

  /** Who holds the load balancer `lb`. */
  ghost predicate HoldsId(names: string -> string, services: seq<Service>, s: Stage, a: Service, lb: Uuid) {
    exists l: Lb :: l.id == lb && Holds(names, services, s, a, l)
  }

  lemma NotFound(w: World, q: Query, l: Lb)
    requires Valid(w) && l in w.lbs && q.uuid != Some(l.id) && q.name != l.name
    ensures Own(w, q) != l.id
    ensures FoundIn(w, q).Some? ==> FoundIn(w, q).value.id != l.id
  {
    if FoundIn(w, q).Some? {
      var x := FoundIn(w, q).value;
      OnlyOne(w, q, x);
      if x.id == l.id {
        DistinctSame(w.lbs, LbId, x, l);
      }
    }
  }

  /** The query is for `x`. */
  ghost predicate Fits(q: Query, x: Lb) {
    q.uuid == Some(x.id) || (q.name != "" && x.name == q.name)
  }

  lemma OnlyOne(w: World, q: Query, l: Lb)
    requires Valid(w)
    ensures FindByServiceInfo(w.lbs, q) == Success(Some(l))
       <==> l in w.lbs && Fits(q, l) && forall x :: x in w.lbs && Fits(q, x) ==> x == l
  {
    LookupExact(w.lbs, q);
    hide FindByServiceInfo;
    var c := Candidates(w.lbs, q);
    assert forall x :: x in c <==> x in w.lbs && Fits(q, x);
    if c == {l} {
      assert l in c;
      assert forall x :: x in c ==> x == l;
    }
    if l in c && forall x :: x in c ==> x == l {
      assert c == {l};
    }
  }

  // ---------------------------------------------------------------- visits of others

  lemma Newcomer(w: World, q: Query, w1: World, q1: Query, x: Lb)
    requires Valid(w) && OtherLbs(w1.lbs, Own(w, q1)) == OtherLbs(w.lbs, Own(w, q1))
    requires x in w1.lbs && x !in w.lbs && x.name == q1.name && q1.name != q.name && Fits(q, x)
    ensures q.uuid == Some(x.id) && (x.id == w.next || exists y :: y in w.lbs && y.id == x.id)
  {
    OwnKnown(w, q1);
    hide FoundIn;
    hide Own;
    hide OtherLbs;
    hide Valid;
    if x.id != Own(w, q1) {
      OthersStay(w, w1, Own(w, q1), x);
    }
  }

  lemma NoNewcomer(w: World, q: Query, l: Lb, w1: World, q1: Query, x: Lb)
    requires Valid(w) && FindByServiceInfo(w.lbs, q) == Success(Some(l))
    requires q.uuid.Some? ==> q.uuid.value < w.next
    requires q1.name != q.name && OtherLbs(w1.lbs, Own(w, q1)) == OtherLbs(w.lbs, Own(w, q1))
    requires Own(w, q1) != l.id
    requires x in w1.lbs && (x in w.lbs || x.name == q1.name) && Fits(q, x)
    ensures x == l
  {
    OnlyOne(w, q, l);
    hide FindByServiceInfo;
    hide Valid;
    if x !in w.lbs {
      Newcomer(w, q, w1, q1, x);
      OldOne(w, w1, Own(w, q1), x, l);
      hide OtherLbs;
      hide Own;
    }
  }

  lemma OldOne(w: World, w1: World, own: Uuid, x: Lb, l: Lb)
    requires OtherLbs(w1.lbs, own) == OtherLbs(w.lbs, own) && own != l.id
    requires x in w1.lbs && x !in w.lbs
    ensures x.id != l.id
  {
    if x.id == l.id {
      OthersStay(w, w1, own, x);
    }
  }

  /** A visit for another load balancer leaves this one where it is found. */
  lemma StillFound(w: World, q: Query, l: Lb, w1: World, q1: Query)
    requires Valid(w) && Valid(w1) && FindByServiceInfo(w.lbs, q) == Success(Some(l))
    requires q.uuid.Some? ==> q.uuid.value < w.next
    requires q1.uuid != Some(l.id) && q1.name != l.name && q1.name != q.name
    requires OtherLbs(w1.lbs, Own(w, q1)) == OtherLbs(w.lbs, Own(w, q1))
    requires forall x :: x in w1.lbs ==> x in w.lbs || x.name == q1.name
    ensures FindByServiceInfo(w1.lbs, q) == Success(Some(l))
  {
    OnlyOne(w, q, l);
    OnlyOne(w1, q, l);
    NotFound(w, q1, l);
    OthersStay(w, w1, Own(w, q1), l);
    hide FindByServiceInfo;
    hide Own;
    hide OtherLbs;
    hide Valid;
    hide Fits;
    forall x | x in w1.lbs && Fits(q, x)
      ensures x == l
    {
      NoNewcomer(w, q, l, w1, q1, x);
    }
  }

  lemma OwnKnown(w: World, q: Query)
    requires Valid(w)
    ensures Own(w, q) == w.next || exists y :: y in w.lbs && y.id == Own(w, q)
  {
    if FoundIn(w, q).Some? {
      FoundInLbs(w, q);
    }
  }

  lemma OthersStay(w: World, w1: World, own: Uuid, x: Lb)
    requires OtherLbs(w1.lbs, own) == OtherLbs(w.lbs, own) && x.id != own
    ensures x in w1.lbs <==> x in w.lbs
  {
    assert x in OtherLbs(w1.lbs, own) <==> x in w1.lbs;
    assert x in OtherLbs(w.lbs, own) <==> x in w.lbs;
  }

  lemma OtherLeaves(w: World, q1: Query, turns: seq<Turn>, t: Turn, k: nat, w1: World, all: bool, ips: set<string>, q: Query, l: Lb)
    requires Valid(w) && Moment(w, q1, turns, t, k, w1) && FindByServiceInfo(w.lbs, q) == Success(Some(l))
    requires Consistent(q1, all, ips, t) && forall x :: x in turns ==> Consistent(q1, all, ips, x)
    requires q.uuid.Some? ==> q.uuid.value < w.next
    requires q1.uuid != Some(l.id) && q1.name != l.name && q1.name != q.name
    ensures Valid(w1) && FindByServiceInfo(w1.lbs, q) == Success(Some(l)) && w1.next >= w.next
    ensures Own(w, q1) != l.id && (FoundIn(w1, q1).Some? ==> FoundIn(w1, q1).value.id != l.id)
  {
    RunFrame(w, q1, turns, t, k, w1, all, ips);
    RunNames(w, q1, turns, t, k, w1, all, ips);
    OnlyOne(w, q, l);
    hide FindByServiceInfo;
    hide Valid;
    hide Moment;
    hide Consistent;
    hide Own;
    hide OtherLbs;
    hide Foreign;
    hide FipsFrame;
    hide FoundIn;
    hide Fits;
    StillFound(w, q, l, w1, q1);
    OnlyOne(w1, q, l);
    NotFound(w, q1, l);
    NotFound(w1, q1, l);
  }

  lemma NotedApart(names: string -> string, s0: Stage, s1: Stage, uid: string, found: Option<Lb>, a: Service, l: Lb, b: Service)
    requires Apart(names, s0, a, l, b) && Noted(s0, uid, found, s1)
    requires found.Some? ==> found.value.id != l.id
    ensures Apart(names, s1, a, l, b)
  {
  }

  lemma OtherHolds(names: string -> string, services: seq<Service>, s0: Stage, v: Visit, s1: Stage, a: Service, l: Lb)
    requires Valid(s0.world) && Visited(names, s0, v, s1) && Holds(names, services, s0, a, l)
    requires v.service in services && v.service.uid != a.uid
    ensures Valid(s1.world) && Holds(names, services, s1, a, l)
    ensures Own(s0.world, QueryFor(names, s0.notes, v.service)) != l.id
  {
    var q, q1 := QueryFor(names, s0.notes, a), QueryFor(names, s0.notes, v.service);
    assert Apart(names, s0, a, l, v.service);
    hide FindByServiceInfo;
    hide Valid;
    hide Moment;
    hide Consistent;
    hide Own;
    hide FoundIn;
    OtherLeaves(s0.world, q1, v.turns, v.t, v.k, s1.world, v.all, Wants(v.service), q, l);
    hide Apart;
    forall b | b in services && b.uid != a.uid
      ensures Apart(names, s1, a, l, b)
    {
      NotedApart(names, s0, s1, v.service.uid, FoundIn(s1.world, q1), a, l, b);
    }
  }

  // ---------------------------------------------------------------- own visits

  lemma Reannotated(w: World, q: Query, l: Lb)
    requires Valid(w) && FindByServiceInfo(w.lbs, q) == Success(Some(l))
    ensures FindByServiceInfo(w.lbs, Query(Some(l.id), q.name)) == Success(Some(l)) && l.id < w.next
  {
    OnlyOne(w, q, l);
    OnlyOne(w, Query(Some(l.id), q.name), l);
    hide FindByServiceInfo;
    forall x | x in w.lbs && Fits(Query(Some(l.id), q.name), x)
      ensures x == l
    {
      if x.id == l.id {
        DistinctSame(w.lbs, LbId, x, l);
      }
    }
  }

  lemma SameOrOwnName(w: World, q: Query, l: Lb, w1: World, l1: Lb)
    requires Valid(w) && l in w.lbs && l1 in w1.lbs && l1.id == l.id
    requires forall x :: x in w1.lbs ==> x in w.lbs || x.name == q.name
    ensures l1.name == l.name || l1.name == q.name
  {
    if l1 in w.lbs {
      DistinctSame(w.lbs, LbId, l, l1);
    }
  }

  lemma OwnFound(w: World, q: Query, turns: seq<Turn>, t: Turn, k: nat, w1: World, ips: set<string>, l: Lb) returns (l1: Lb)
    requires Valid(w) && Moment(w, q, turns, t, k, w1) && FindByServiceInfo(w.lbs, q) == Success(Some(l))
    requires Consistent(q, false, ips, t) && forall x :: x in turns ==> Consistent(q, false, ips, x)
    ensures Valid(w1) && FindByServiceInfo(w1.lbs, q) == Success(Some(l1)) && w1.next >= w.next
    ensures l1.id == l.id && (l1.name == l.name || l1.name == q.name)
  {
    RunFrame(w, q, turns, t, k, w1, false, ips);
    RunNames(w, q, turns, t, k, w1, false, ips);
    RunKeepsLb(w, q, turns, t, k, w1, ips);
    l1 := FoundIn(w1, q).value;
    OnlyOne(w, q, l);
    OnlyOne(w1, q, l1);
    hide Moment;
    hide Consistent;
    hide Valid;
    hide Foreign;
    hide OtherLbs;
    hide Own;
    hide Fits;
    SameOrOwnName(w, q, l, w1, l1);
  }

  lemma OwnApart(names: string -> string, s0: Stage, s1: Stage, a: Service, l: Lb, l1: Lb, b: Service)
    requires Apart(names, s0, a, l, b) && Noted(s0, a.uid, Some(l1), s1) && b.uid != a.uid
    requires l1.id == l.id && (l1.name == l.name || l1.name == names(a.uid))
    ensures Apart(names, s1, a, l1, b)
  {
  }

  lemma OwnHolds(names: string -> string, services: seq<Service>, s0: Stage, v: Visit, s1: Stage, a: Service, l: Lb) returns (l1: Lb)
    requires Valid(s0.world) && Visited(names, s0, v, s1) && Holds(names, services, s0, a, l)
    requires v.service.uid == a.uid && !v.all
    ensures Valid(s1.world) && Holds(names, services, s1, a, l1) && l1.id == l.id
    ensures Own(s0.world, QueryFor(names, s0.notes, v.service)) == l.id
  {
    var q := QueryFor(names, s0.notes, a);
    l1 := OwnFound(s0.world, q, v.turns, v.t, v.k, s1.world, Wants(v.service), l);
    Reannotated(s1.world, q, l1);
    assert FoundIn(s1.world, q) == Some(l1);
    hide FindByServiceInfo;
    hide Valid;
    hide Moment;
    hide Consistent;
    hide Apart;
    hide Wants;
    forall b | b in services && b.uid != a.uid
      ensures Apart(names, s1, a, l1, b)
    {
      OwnApart(names, s0, s1, a, l, l1, b);
    }
  }

  // ---------------------------------------------------------------- histories

  /** Through a visit, a load balancer stays with its service, and so does a floating IP that no other active
      service asks for. */
  lemma VisitKeeps(names: string -> string, services: seq<Service>, s0: Stage, v: Visit, s1: Stage, a: Service, l: Lb, n: nat)
    returns (l1: Lb)
    requires Valid(s0.world) && Visited(names, s0, v, s1) && Holds(names, services, s0, a, l)
    requires v.service in services && (v.service.uid == a.uid ==> !v.all)
    requires n < |s0.world.fips| && s0.world.fips[n].lb == Some(l.id)
    requires v.service.uid != a.uid ==> Address(s0.world.fips[n].network) !in Wants(v.service)
    ensures Valid(s1.world) && Holds(names, services, s1, a, l1) && l1.id == l.id
    ensures |s1.world.fips| == |s0.world.fips| && s1.world.fips[n] == s0.world.fips[n]
  {
    var q := QueryFor(names, s0.notes, v.service);
    RunFrame(s0.world, q, v.turns, v.t, v.k, s1.world, v.all, Wants(v.service));
    if v.service.uid == a.uid {
      RunMoves(s0.world, q, v.turns, v.t, v.k, s1.world, Wants(v.service));
      l1 := OwnHolds(names, services, s0, v, s1, a, l);
    } else {
      OtherHolds(names, services, s0, v, s1, a, l);
      l1 := l;
    }
    hide FindByServiceInfo;
    hide Valid;
    hide Moment;
    hide Consistent;
    hide Own;
    hide OtherLbs;
    hide Foreign;
    hide FoundIn;
    hide Address;
    hide Wants;
    hide Holds;
  }

  /** A floating IP stays where it is through every history. */
  ghost predicate Stays(names: string -> string, services: seq<Service>, a: Service, s0: Stage, n: nat)
    requires n < |s0.world.fips|
  {
    forall ss: seq<Stage>, vs: seq<Visit> | History(names, services, a.uid, ss, vs) && ss[0] == s0 ::
      forall i :: 0 <= i < |ss| ==> n < |ss[i].world.fips| && ss[i].world.fips[n] == s0.world.fips[n]
  }

  /** Another active service asks for the address of the floating IP. */
  ghost predicate Contested(services: seq<Service>, a: Service, f: Fip) {
    exists b :: Active(services, b) && b.uid != a.uid && Address(f.network) in Wants(b)
  }

  lemma Later(names: string -> string, services: seq<Service>, uid: string, ss: seq<Stage>, vs: seq<Visit>)
    requires History(names, services, uid, ss, vs) && vs != []
    ensures Visited(names, ss[0], vs[0], ss[1]) && Active(services, vs[0].service) && (vs[0].service.uid == uid ==> !vs[0].all)
    ensures History(names, services, uid, ss[1..], vs[1..])
  {
    hide Visited;
    hide Active;
    assert ss[0 + 1] == ss[1];
    forall i | 0 <= i < |vs| - 1
      ensures Visited(names, ss[1..][i], vs[1..][i], ss[1..][i + 1])
    {
      assert Visited(names, ss[i + 1], vs[i + 1], ss[i + 1 + 1]);
    }
  }

  lemma {:induction false} Uncontested(names: string -> string, services: seq<Service>, ss: seq<Stage>, vs: seq<Visit>, a: Service, l: Lb, n: nat)
    requires History(names, services, a.uid, ss, vs)
    requires Valid(ss[0].world) && Holds(names, services, ss[0], a, l)
    requires n < |ss[0].world.fips| && ss[0].world.fips[n].lb == Some(l.id)
    requires !Contested(services, a, ss[0].world.fips[n])
    ensures forall i :: 0 <= i < |ss| ==>
      n < |ss[i].world.fips| && ss[i].world.fips[n] == ss[0].world.fips[n] && HoldsId(names, services, ss[i], a, l.id)
    decreases |vs|
  {
    hide Valid;
    hide Visited;
    hide Holds;
    hide Active;
    hide Wants;
    hide Address;
    if vs == [] {
      assert HoldsId(names, services, ss[0], a, l.id);
    } else {
      Later(names, services, a.uid, ss, vs);
      hide History;
      ActiveIn(services, vs[0].service);
      var l1 := VisitKeeps(names, services, ss[0], vs[0], ss[1], a, l, n);
      Uncontested(names, services, ss[1..], vs[1..], a, l1, n);
      assert HoldsId(names, services, ss[0], a, l.id);
      hide HoldsId;
      forall i | 0 <= i < |ss|
        ensures n < |ss[i].world.fips| && ss[i].world.fips[n] == ss[0].world.fips[n] && HoldsId(names, services, ss[i], a, l.id)
      {
        assert i > 0 ==> ss[1..][i - 1] == ss[i];
      }
    }
  }

  lemma ActiveIn(services: seq<Service>, s: Service)
    requires Active(services, s)
    ensures s in services
  {
  }

  // ---------------------------------------------------------------- visits that take a floating IP

  /** A run of the service could start now, for the IPs of the service, and the members it wants are
      reported back as requested. */
  ghost predicate CanRun(names: string -> string, s: Stage, b: Service) {
    exists algorithms, protocols, d :: RunsFor(names, s, b, algorithms, protocols, d)
  }

  ghost predicate RunsFor(names: string -> string, s: Stage, b: Service, algorithms: set<string>, protocols: set<string>, d: State) {
    && Startable(algorithms, protocols, s.world, QueryFor(names, s.notes, b), d)
    && AllFaithful(s.world.subnets, d) && b.ips == Some(d.floatingIPs)
  }

  lemma EndIsMoment(w: World, q: Query, d: State, turns: seq<Turn>, t: Turn, w1: World)
    requires Fair(w, q, d) && EndsIn(w, q, d, turns, t, w1)
    ensures Moment(w, q, turns, t, |Batch(After(w, q, turns), q, t)|, w1)
    ensures Consistent(q, false, Addresses(d.floatingIPs), t)
    ensures forall x :: x in turns ==> Consistent(q, false, Addresses(d.floatingIPs), x)
  {
    ForConsistent(w, q, d, turns);
    ForConsistent(w, q, d, [t]);
    assert t in [t];
    WholeTurn(After(w, q, turns), q, t);
    hide Fair;
    hide After;
    hide Ongoing;
    hide Planned;
    hide Batch;
    hide Consistent;
  }

  /** An active service that can run makes a visit in which it gets all its floating IPs. */
  lemma SomeVisit(names: string -> string, s0: Stage, b: Service) returns (v: Visit, s1: Stage)
    requires CanRun(names, s0, b)
    ensures v.service == b && !v.all && Visited(names, s0, v, s1) && Valid(s0.world) && Valid(s1.world)
    ensures b.ips.Some? && FoundIn(s1.world, QueryFor(names, s0.notes, b)).Some?
    ensures FipsSettled(s1.world.fips, b.ips.value, FoundIn(s1.world, QueryFor(names, s0.notes, b)).value.id)
  {
    var algorithms, protocols, d :| RunsFor(names, s0, b, algorithms, protocols, d);
    var q := QueryFor(names, s0.notes, b);
    StartableReady(algorithms, protocols, s0.world, q, d);
    FairOf(NamesOver(algorithms, protocols), s0.world, q, d);
    hide Startable;
    hide AllFaithful;
    hide Fair;
    hide Ready;
    hide Valid;
    hide EndsIn;
    hide Settled;
    hide FoundIn;
    hide Moment;
    hide Consistent;
    hide Addresses;
    hide FipsSettled;
    var turns, t, w1 := SomeEnd(NamesOver(algorithms, protocols), s0.world, q, d);
    EndIsMoment(s0.world, q, d, turns, t, w1);
    var k := |Batch(After(s0.world, q, turns), q, t)|;
    RunFrame(s0.world, q, turns, t, k, w1, false, Addresses(d.floatingIPs));
    hide Frame;
    hide After;
    hide Batch;
    v, s1 := Visit(b, false, turns, t, k), Stage(w1, s0.notes);
    SettledFips(w1, FoundIn(w1, q).value, d);
  }

  lemma HasMoved(fips: seq<Fip>, ips: seq<string>, own: Uuid, n: nat)
    requires Distinct(fips, FipAddress) && n < |fips| && FipsSettled(fips, ips, own)
    requires Address(fips[n].network) in Addresses(ips)
    ensures fips[n].lb == Some(own)
  {
    hide Address;
    var ip :| ip in ips && Address(ip) == Address(fips[n].network);
    var g :| g in fips && Address(g.network) == Address(ip) && g.lb == Some(own);
    DistinctSame(fips, FipAddress, g, fips[n]);
  }

  lemma OneVisit(names: string -> string, services: seq<Service>, uid: string, s0: Stage, v: Visit, s1: Stage)
    requires Visited(names, s0, v, s1) && Active(services, v.service) && !v.all
    ensures History(names, services, uid, [s0, s1], [v])
  {
    hide Visited;
    hide Active;
  }

  /** Such a visit gets a certain floating IP that the service asks for. */
  lemma SomeTaking(names: string -> string, s0: Stage, b: Service, n: nat) returns (v: Visit, s1: Stage)
    requires CanRun(names, s0, b) && n < |s0.world.fips| && Address(s0.world.fips[n].network) in Wants(b)
    ensures v.service == b && !v.all && Visited(names, s0, v, s1) && Valid(s0.world) && Valid(s1.world)
    ensures FoundIn(s1.world, QueryFor(names, s0.notes, b)).Some?
    ensures |s1.world.fips| == |s0.world.fips| && s1.world.fips[n].network == s0.world.fips[n].network
    ensures s1.world.fips[n].lb == Some(FoundIn(s1.world, QueryFor(names, s0.notes, b)).value.id)
  {
    v, s1 := SomeVisit(names, s0, b);
    var q := QueryFor(names, s0.notes, b);
    RunFrame(s0.world, q, v.turns, v.t, v.k, s1.world, v.all, Wants(b));
    assert Distinct(s1.world.fips, FipAddress);
    hide Moment;
    hide Consistent;
    hide OtherLbs;
    hide Foreign;
    hide Own;
    hide FipsSettled;
    hide FoundIn;
    hide Valid;
    hide CanRun;
    hide Address;
    HasMoved(s1.world.fips, b.ips.value, FoundIn(s1.world, q).value.id, n);
  }

  /** The visit of a service that asks for a floating IP of another one takes it from there. */
  lemma TakesIt(names: string -> string, services: seq<Service>, a: Service, b: Service, s0: Stage, l: Lb, n: nat)
    returns (v: Visit, s1: Stage)
    requires Holds(names, services, s0, a, l)
    requires n < |s0.world.fips| && Address(s0.world.fips[n].network) in Wants(b)
    requires Active(services, b) && b.uid != a.uid && CanRun(names, s0, b)
    ensures Visited(names, s0, v, s1) && v.service == b && !v.all && Valid(s0.world)
    ensures |s1.world.fips| == |s0.world.fips| && s1.world.fips[n].network == s0.world.fips[n].network
    ensures s1.world.fips[n].lb.Some? && s1.world.fips[n].lb != Some(l.id)
    ensures Valid(s1.world) && Holds(names, services, s1, a, l)
  {
    v, s1 := SomeTaking(names, s0, b, n);
    ActiveIn(services, b);
    hide Visited;
    hide Active;
    hide CanRun;
    hide FindByServiceInfo;
    assert Apart(names, s0, a, l, b);
    OtherHolds(names, services, s0, v, s1, a, l);
    OnlyOne(s1.world, QueryFor(names, s1.notes, a), l);
    hide Valid;
    hide Fits;
    hide FoundIn;
    NotFound(s1.world, QueryFor(names, s0.notes, b), l);
  }

  // ---------------------------------------------------------------- no flapping

  /** Uncontested floating IPs stay where they are. */
  lemma UncontestedStays(names: string -> string, services: seq<Service>, a: Service, l: Lb, s0: Stage, n: nat)
    requires Valid(s0.world) && Holds(names, services, s0, a, l)
    requires n < |s0.world.fips| && s0.world.fips[n].lb == Some(l.id)
    requires !Contested(services, a, s0.world.fips[n])
    ensures Stays(names, services, a, s0, n)
  {
    hide Valid;
    hide Holds;
    hide Contested;
    forall ss: seq<Stage>, vs: seq<Visit> | History(names, services, a.uid, ss, vs) && ss[0] == s0
      ensures forall i :: 0 <= i < |ss| ==> n < |ss[i].world.fips| && ss[i].world.fips[n] == s0.world.fips[n]
    {
      Uncontested(names, services, ss, vs, a, l, n);
    }
  }

  lemma TakenAway(names: string -> string, services: seq<Service>, a: Service, s0: Stage, v: Visit, s1: Stage, n: nat)
    requires Visited(names, s0, v, s1) && Active(services, v.service) && !v.all
    requires n < |s0.world.fips| && n < |s1.world.fips| && s1.world.fips[n] != s0.world.fips[n]
    ensures !Stays(names, services, a, s0, n)
  {
    OneVisit(names, services, a.uid, s0, v, s1);
    hide Visited;
    hide Active;
    hide History;
    assert [s0, s1][0] == s0 && [s0, s1][1] == s1;
  }

  lemma ContestedLeaves(names: string -> string, services: seq<Service>, a: Service, l: Lb, s0: Stage, n: nat)
    requires Valid(s0.world) && Holds(names, services, s0, a, l)
    requires n < |s0.world.fips| && s0.world.fips[n].lb == Some(l.id)
    requires forall b :: Active(services, b) && b.uid != a.uid ==> CanRun(names, s0, b)
    requires Contested(services, a, s0.world.fips[n])
    ensures !Stays(names, services, a, s0, n)
  {
    hide Valid;
    hide Holds;
    hide Visited;
    hide Stays;
    hide CanRun;
    hide Active;
    hide Address;
    hide Wants;
    var b :| Active(services, b) && b.uid != a.uid && Address(s0.world.fips[n].network) in Wants(b);
    var v, s1 := TakesIt(names, services, a, b, s0, l, n);
    TakenAway(names, services, a, s0, v, s1, n);
  }

  /** A floating IP on the load balancer that its service holds stays there through every history of runs, of
      any services that pass the check, in any order, cut off anywhere, if and only if no other such service
      asks for its address. */
  lemma NoFlapping(names: string -> string, services: seq<Service>, a: Service, l: Lb, s0: Stage, n: nat)
    requires Valid(s0.world) && Holds(names, services, s0, a, l)
    requires n < |s0.world.fips| && s0.world.fips[n].lb == Some(l.id)
    requires forall b :: Active(services, b) && b.uid != a.uid ==> CanRun(names, s0, b)
    ensures Stays(names, services, a, s0, n) <==> !Contested(services, a, s0.world.fips[n])
  {
    if Contested(services, a, s0.world.fips[n]) {
      ContestedLeaves(names, services, a, l, s0, n);
    } else {
      UncontestedStays(names, services, a, l, s0, n);
    }
    hide *;
  }

  lemma NotWanted(services: seq<Service>, fips: seq<Fip>, a: Service, ip: string, b: Service)
    requires a in services && b in services && b.kind == "LoadBalancer" && b.uid != a.uid
    requires Disjoint(services) && Claims(a, ip) && Distinct(fips, FipAddress)
    requires forall s :: s in services && s.ips.Some? ==> Canonical(fips, s.ips.value)
    ensures Address(ip) !in Wants(b)
  {
    hide Canonical;
    hide Address;
    if b.ips.Some? {
      forall x | x in a.ips.value
        ensures x !in b.ips.value
      {
        assert Claims(a, x);
        assert !Claims(b, x);
      }
      CanonicalAddresses(fips, a.ips.value, b.ips.value);
      assert Address(ip) in Addresses(a.ips.value);
    }
  }

  /** Where all services write their IPs as the cloud does, passing the check is enough. */
  lemma CanonicalStays(names: string -> string, services: seq<Service>, a: Service, l: Lb, s0: Stage, n: nat)
    requires Valid(s0.world) && Holds(names, services, s0, a, l)
    requires n < |s0.world.fips| && s0.world.fips[n].lb == Some(l.id)
    requires forall s :: s in services && s.kind == "LoadBalancer" ==> Passes(s, services)
    requires a in services && Claims(a, s0.world.fips[n].network)
    requires forall s :: s in services && s.ips.Some? ==> Canonical(s0.world.fips, s.ips.value)
    ensures Stays(names, services, a, s0, n)
  {
    var f := s0.world.fips[n];
    AllPassExactly(services);
    assert Distinct(s0.world.fips, FipAddress);
    hide Passes;
    hide Disjoint;
    hide Valid;
    hide Canonical;
    hide Address;
    hide Holds;
    hide Stays;
    forall b | Active(services, b) && b.uid != a.uid
      ensures Address(f.network) !in Wants(b)
    {
      NotWanted(services, s0.world.fips, a, f.network, b);
    }
    hide Wants;
    UncontestedStays(names, services, a, l, s0, n);
  }

  // ---------------------------------------------------------------- back and forth

  lemma SamePoolsStill(w: World, w1: World, own: Uuid, all: bool, lb: Uuid, algorithms: set<string>, protocols: set<string>)
    requires Foreign(w1.items, own, all) == Foreign(w.items, own, all) && own != lb
    requires PoolsOver(algorithms, protocols, NodesOf(w.items, lb))
    ensures PoolsOver(algorithms, protocols, NodesOf(w1.items, lb))
  {
    NodesIn(w1.items, lb);
    hide NodesOf;
    hide PoolsOf;
    hide NodeOf;
    forall n | n in NodesOf(w1.items, lb)
      ensures n.pool.spec.Pool? && n.pool.spec.algorithm in algorithms && n.pool.spec.protocol in protocols
    {
      assert n.pool in Foreign(w1.items, own, all);
      assert n.pool in Foreign(w.items, own, all);
      var m := ListedPool(w.items, lb, n.pool);
    }
  }

  /** A visit of another service leaves a service able to run. */
  lemma StillRuns(names: string -> string, services: seq<Service>, s0: Stage, v: Visit, s1: Stage, a: Service, l: Lb)
    requires Valid(s0.world) && Visited(names, s0, v, s1) && Holds(names, services, s0, a, l)
    requires v.service in services && v.service.uid != a.uid && CanRun(names, s0, a)
    ensures CanRun(names, s1, a)
  {
    var algorithms, protocols, d :| RunsFor(names, s0, a, algorithms, protocols, d);
    var q, q1 := QueryFor(names, s0.notes, a), QueryFor(names, s0.notes, v.service);
    RunFrame(s0.world, q1, v.turns, v.t, v.k, s1.world, v.all, Wants(v.service));
    OtherHolds(names, services, s0, v, s1, a, l);
    assert QueryFor(names, s1.notes, a) == q;
    hide Apart;
    hide Moment;
    hide Consistent;
    hide OtherLbs;
    hide Foreign;
    hide Own;
    hide Valid;
    hide Fair;
    hide TailsMeet;
    hide PoolsOver;
    hide NodesOf;
    hide Suits;
    hide FindByServiceInfo;
    hide Wants;
    hide AllFaithful;
    hide Address;
    FairStill(s0.world, s1.world, q, d);
    SamePoolsStill(s0.world, s1.world, Own(s0.world, q1), v.all, l.id, algorithms, protocols);
    assert RunsFor(names, s1, a, algorithms, protocols, d);
  }

  lemma TakesBack(names: string -> string, services: seq<Service>, a: Service, s1: Stage, l: Lb, n: nat)
    returns (v: Visit, s2: Stage)
    requires Valid(s1.world) && Holds(names, services, s1, a, l) && CanRun(names, s1, a)
    requires n < |s1.world.fips| && Address(s1.world.fips[n].network) in Wants(a)
    ensures Visited(names, s1, v, s2) && v.service == a && !v.all
    ensures n < |s2.world.fips| && s2.world.fips[n].lb == Some(l.id)
  {
    v, s2 := SomeTaking(names, s1, a, n);
    hide CanRun;
    hide Apart;
    hide Moment;
    hide Consistent;
    hide FindByServiceInfo;
    hide Valid;
    hide Wants;
    var l1 := OwnFound(s1.world, QueryFor(names, s1.notes, a), v.turns, v.t, v.k, s2.world, Wants(a), l);
  }

  lemma TwoVisits(names: string -> string, services: seq<Service>, uid: string, s0: Stage, v1: Visit, s1: Stage, v2: Visit, s2: Stage)
    requires Visited(names, s0, v1, s1) && Active(services, v1.service) && !v1.all
    requires Visited(names, s1, v2, s2) && Active(services, v2.service) && !v2.all
    ensures History(names, services, uid, [s0, s1, s2], [v1, v2])
  {
    hide Visited;
    hide Active;
  }

  /** Two services that ask for one address, and can run, take the floating IP from each other. */
  lemma BackAndForth(names: string -> string, services: seq<Service>, a: Service, b: Service, s0: Stage, l: Lb, n: nat)
    returns (v1: Visit, s1: Stage, v2: Visit, s2: Stage)
    requires Holds(names, services, s0, a, l)
    requires n < |s0.world.fips| && Address(s0.world.fips[n].network) in Wants(a) * Wants(b)
    requires Active(services, a) && Active(services, b) && b.uid != a.uid && CanRun(names, s0, a) && CanRun(names, s0, b)
    ensures v1.service == b && v2.service == a && History(names, services, a.uid, [s0, s1, s2], [v1, v2])
    ensures n < |s1.world.fips| && s1.world.fips[n].lb.Some? && s1.world.fips[n].lb != Some(l.id)
    ensures n < |s2.world.fips| && s2.world.fips[n].lb == Some(l.id)
  {
    v1, s1 := TakesIt(names, services, a, b, s0, l, n);
    ActiveIn(services, b);
    hide *;
    StillRuns(names, services, s0, v1, s1, a, l);
    v2, s2 := TakesBack(names, services, a, s1, l, n);
    TwoVisits(names, services, a.uid, s0, v1, s1, v2, s2);
  }

  // ---------------------------------------------------------------- two services

  const OwnNames: string -> string := uid => uid

  const First := Lb(1, "a", [], "flex", "z")

  /** The service "a" has a load balancer, the service "b" does not have one yet. */
  ghost function Scene(fips: seq<Fip>): Stage {
    Stage(World([First], [], fips, map[], "10.0.0.1", 2), map["a" := 1])
  }

  function WithIP(uid: string, ip: string): Service {
    Service(uid, uid, "LoadBalancer", None, Some([ip]))
  }

  lemma SceneHolds(fips: seq<Fip>, x: string, y: string)
    requires Distinct(fips, FipAddress)
    ensures Valid(Scene(fips).world) && Holds(OwnNames, [WithIP("a", x), WithIP("b", y)], Scene(fips), WithIP("a", x), First)
  {
    var w := Scene(fips).world;
    assert "a" != "b";
    OnlyOne(w, Query(Some(1), "a"), First);
    hide FindByServiceInfo;
  }

  /** A desired load balancer alone. */
  function Bare(uid: string, ip: string): State {
    State(Some(Lb(0, uid, [], "flex", "z")), "", [], [ip])
  }

  lemma SceneFinds(fips: seq<Fip>)
    requires Distinct(fips, FipAddress)
    ensures FindByServiceInfo([First], Query(Some(1), "a")) == Success(Some(First))
    ensures FindByServiceInfo([First], Query(None, "b")) == Success(None)
    ensures Valid(Scene(fips).world) && NodesOf([], 1) == []
  {
    var w := Scene(fips).world;
    assert "a" != "b" && First in [First];
    OnlyOne(w, Query(Some(1), "a"), First);
    LookupExact(w.lbs, Query(None, "b"));
    assert Candidates(w.lbs, Query(None, "b")) == {};
    hide FindByServiceInfo;
    NoNodes(1);
  }

  lemma NoNodes(lb: Uuid)
    ensures NodesOf([], lb) == []
  {
    NodesIn([], lb);
    hide NodesOf;
    NonEmpty(NodesOf([], lb));
  }

  lemma BareFair(w: World, q: Query, ip: string)
    requires q.name != "" && exists f :: f in w.fips && Address(f.network) == Address(ip)
    ensures Fair(w, q, Bare(q.name, ip)) && AllFaithful(w.subnets, Bare(q.name, ip))
  {
    hide Address;
  }

  lemma BareStartable(w: World, q: Query, ip: string)
    requires Valid(w) && Fair(w, q, Bare(q.name, ip)) && FindByServiceInfo(w.lbs, q).Success?
    requires FoundIn(w, q).Some? ==> FoundIn(w, q).value == First && NodesOf(w.items, 1) == []
    ensures Startable({"round_robin"}, {"tcp"}, w, q, Bare(q.name, ip))
  {
    OneWord("round_robin", "tcp");
    assert Suits(Bare(q.name, ip).lb.value, First);
    hide FindByServiceInfo;
    hide Valid;
    hide TailsMeet;
    hide NodesOf;
    hide Fair;
    hide Suits;
  }

  function SceneQuery(uid: string): Query {
    Query(if uid == "a" then Some(1) else None, uid)
  }

  lemma SceneReady(fips: seq<Fip>, uid: string)
    requires Distinct(fips, FipAddress) && (uid == "a" || uid == "b")
    ensures
      var w, q := Scene(fips).world, SceneQuery(uid);
      && Valid(w) && FindByServiceInfo(w.lbs, q).Success? && q.name == uid && uid != "" && w.fips == fips
      && (FoundIn(w, q).Some? ==> FoundIn(w, q).value == First && NodesOf(w.items, 1) == [])
  {
    SceneFinds(fips);
    hide FindByServiceInfo;
    hide Valid;
    hide NodesOf;
  }

  lemma QueryOfScene(fips: seq<Fip>, uid: string, ip: string)
    requires uid == "a" || uid == "b"
    ensures QueryFor(OwnNames, Scene(fips).notes, WithIP(uid, ip)) == SceneQuery(uid)
  {
  }

  lemma RunsWith(names: string -> string, s: Stage, b: Service, q: Query, d: State)
    requires q == QueryFor(names, s.notes, b) && Startable({"round_robin"}, {"tcp"}, s.world, q, d)
    requires AllFaithful(s.world.subnets, d) && b.ips == Some(d.floatingIPs)
    ensures CanRun(names, s, b)
  {
    hide Startable;
    hide AllFaithful;
    assert RunsFor(names, s, b, {"round_robin"}, {"tcp"}, d);
  }

  lemma SceneRuns(fips: seq<Fip>, uid: string, ip: string)
    requires Distinct(fips, FipAddress) && (uid == "a" || uid == "b")
    requires exists f :: f in fips && Address(f.network) == Address(ip)
    ensures CanRun(OwnNames, Scene(fips), WithIP(uid, ip))
  {
    var w, q := Scene(fips).world, SceneQuery(uid);
    SceneReady(fips, uid);
    QueryOfScene(fips, uid, ip);
    assert WithIP(uid, ip).ips == Some(Bare(uid, ip).floatingIPs);
    hide *;
    BareFair(w, q, ip);
    BareStartable(w, q, ip);
    RunsWith(OwnNames, Scene(fips), WithIP(uid, ip), q, Bare(uid, ip));
  }

  lemma BothActive(x: string, y: string)
    requires x != y
    ensures Active([WithIP("a", x), WithIP("b", y)], WithIP("a", x)) && Active([WithIP("a", x), WithIP("b", y)], WithIP("b", y))
    ensures forall s :: Active([WithIP("a", x), WithIP("b", y)], s) ==> s == WithIP("a", x) || s == WithIP("b", y)
  {
    var a, b := WithIP("a", x), WithIP("b", y);
    assert "a" != "b";
    NoConflict([x], "a", [a, b]);
    NoConflict([y], "b", [a, b]);
    hide ConflictsWith;
  }

  lemma WantsIt(uid: string, ip: string)
    ensures Wants(WithIP(uid, ip)) == {Address(ip)}
  {
    hide Address;
  }

  /** Of two services that write one floating IP in two ways, which both pass the check, either takes it from
      the other. */
  lemma TwoNotationsFlap(x: string, y: string) returns (v1: Visit, s1: Stage, v2: Visit, s2: Stage)
    requires x != y && Address(x) == Address(y)
    ensures
      var a, b, s0 := WithIP("a", x), WithIP("b", y), Scene([Fip(x, Some(1))]);
      && Active([a, b], a) && Active([a, b], b) && !Stays(OwnNames, [a, b], a, s0, 0)
      && v1.service == b && v2.service == a && History(OwnNames, [a, b], "a", [s0, s1, s2], [v1, v2])
      && 0 < |s1.world.fips| && s1.world.fips[0].lb.Some? && s1.world.fips[0].lb != Some(1)
      && 0 < |s2.world.fips| && s2.world.fips[0].lb == Some(1)
  {
    var a, b, fips := WithIP("a", x), WithIP("b", y), [Fip(x, Some(1))];
    assert fips[0] in fips && a.uid == "a" && b.uid == "b" && "a" != "b";
    assert Scene(fips).world.fips == fips && First.id == 1;
    SceneHolds(fips, x, y);
    SceneRuns(fips, "a", x);
    SceneRuns(fips, "b", y);
    BothActive(x, y);
    WantsIt("a", x);
    WantsIt("b", y);
    hide *;
    v1, s1, v2, s2 := BackAndForth(OwnNames, [a, b], a, b, Scene(fips), First, 0);
    FirstTaken(OwnNames, [a, b], a, Scene(fips), v1, s1, v2, s2);
  }

  lemma FirstTaken(names: string -> string, services: seq<Service>, a: Service, s0: Stage, v1: Visit, s1: Stage, v2: Visit, s2: Stage)
    requires History(names, services, a.uid, [s0, s1, s2], [v1, v2])
    requires 0 < |s0.world.fips| && 0 < |s1.world.fips| && s1.world.fips[0] != s0.world.fips[0]
    ensures !Stays(names, services, a, s0, 0)
  {
    hide History;
    assert [s0, s1, s2][0] == s0 && [s0, s1, s2][1] == s1;
  }

  /** A floating IP written with its prefix length, and without. */
  lemma SlashBehind()
    ensures Address("1.2.3.4/32") == Address("1.2.3.4") && "1.2.3.4/32" != "1.2.3.4"
  {
    BeforeSlash("1.2.3.4");
    assert "1.2.3.4" + "/" + "32" == "1.2.3.4/32";
    hide Address;
    assert |"1.2.3.4/32"| != |"1.2.3.4"|;
  }

  lemma {:induction false} BeforeSlash(s: string)
    requires '/' !in s
    ensures Address(s) == s && forall rest: string :: Address(s + "/" + rest) == s
  {
    if s == "" {
      forall rest: string
        ensures Address(s + "/" + rest) == s
      {
        assert (s + "/" + rest)[0] == '/';
      }
    } else {
      BeforeSlash(s[1..]);
      assert s == [s[0]] + s[1..];
      forall rest: string
        ensures Address(s + "/" + rest) == s
      {
        assert (s + "/" + rest)[1..] == s[1..] + "/" + rest;
        assert (s + "/" + rest)[0] == s[0];
      }
    }
  }

  lemma NotContested(x: string, y: string, f: Fip)
    requires x != y && Address(f.network) == Address(x) != Address(y)
    ensures !Contested([WithIP("a", x), WithIP("b", y)], WithIP("a", x), f)
  {
    BothActive(x, y);
    WantsIt("b", y);
    hide Active;
    hide Address;
    hide Wants;
  }

  /** Two services with different addresses, in whatever notation, do not disturb each other: the floating IP
      `m` of the one stays where it is through every history. In one such history the other service gets its
      load balancer and its floating IP `n`. */
  lemma TwoAddressesStay(x: string, y: string, m: string, n: string) returns (v: Visit, s1: Stage)
    requires Address(m) == Address(x) != Address(y) == Address(n)
    ensures
      var a, b, s0 := WithIP("a", x), WithIP("b", y), Scene([Fip(m, Some(1)), Fip(n, None)]);
      && Active([a, b], a) && Active([a, b], b) && Stays(OwnNames, [a, b], a, s0, 0)
      && v.service == b && History(OwnNames, [a, b], "a", [s0, s1], [v])
      && FoundIn(s1.world, Query(None, "b")).Some? && |s1.world.fips| == 2
      && s1.world.fips[1].lb == Some(FoundIn(s1.world, Query(None, "b")).value.id)
  {
    var a, b, fips := WithIP("a", x), WithIP("b", y), [Fip(m, Some(1)), Fip(n, None)];
    assert fips[0] in fips && fips[1] in fips && a.uid == "a" && b.uid == "b" && "a" != "b";
    assert Scene(fips).world.fips == fips && First.id == 1;
    assert Distinct(fips, FipAddress) && QueryFor(OwnNames, Scene(fips).notes, b) == Query(None, "b");
    SceneHolds(fips, x, y);
    SceneRuns(fips, "b", y);
    BothActive(x, y);
    WantsIt("b", y);
    NotContested(x, y, fips[0]);
    hide *;
    UncontestedStays(OwnNames, [a, b], a, First, Scene(fips), 0);
    v, s1 := SomeTaking(OwnNames, Scene(fips), b, 1);
    OneVisit(OwnNames, [a, b], "a", Scene(fips), v, s1);
  }
}
