/** `findIPsAssignedElsewhere` and `ensureValidConfig` of pkg/cloudscale_ccm/loadbalancer.go: no two
    services get the same floating IP, and so no floating IP goes back and forth between them. */
module FloatingIps {
  import opened Seqs
  import opened Domain
  import opened CloudWorld
  import opened Planner
  import opened Lookup
  import opened Frames
  import opened PlanLocality
  import opened Runs

  /** A service as far as it matters here; `ips` is the parsed annotation, None if it is malformed. */
  datatype Service = Service(uid: string, name: string, kind: string, class_: Option<string>, ips: Option<seq<string>>)

  datatype ConfigError = Unsupported(class_: string) | NotParsed | Conflicts(ips: map<string, string>)

  // ---------------------------------------------------------------- the conflicts

  /** A service whose IPs count as taken for the service `uid`. */
  predicate Rival(s: Service, uid: string) {
    s.kind == "LoadBalancer" && s.uid != uid && s.ips.Some?
  }

  /** `conflicts` after one more IP of a service of this name. */
  function WithIp(conflicts: map<string, string>, ips: seq<string>, ip: string, name: string): map<string, string> {
    if ip in ips then conflicts[ip := name] else conflicts
  }

  function WithIps(conflicts: map<string, string>, ips: seq<string>, other: seq<string>, name: string): map<string, string> {
    if other == [] then conflicts else
      var n := |other| - 1;
      WithIp(WithIps(conflicts, ips, other[..n], name), ips, other[n], name)
  }

  /** What the loop over all services leaves in its map. */
  function ConflictsWith(ips: seq<string>, uid: string, services: seq<Service>): map<string, string> {
    if services == [] then map[] else
      var s := services[|services| - 1];
      var before := ConflictsWith(ips, uid, services[..|services| - 1]);
      if Rival(s, uid) then WithIps(before, ips, s.ips.value, s.name) else before
  }

  // ---------------------------------------------------------------- the paged listing

  const Whole: seq<Service> -> seq<Service> := (page: seq<Service>) => page

  /** The service listing of Kubernetes, page by page. A continue token is the number of the next page,
      0 where Kubernetes has the empty string. The call for a page in `failing` fails. */
  class ServiceListing {
    const pages: seq<seq<Service>>
    const failing: set<nat>

    constructor (pages: seq<seq<Service>>, failing: set<nat>)
      ensures this.pages == pages && this.failing == failing
    {
      this.pages := pages;
      this.failing := failing;
    }

    predicate Answers() {
      forall token :: 0 <= token < |pages| ==> token !in failing
    }

    method List(token: nat) returns (r: Result<(seq<Service>, nat), string>)
      requires token < |pages|
      ensures r.Success? <==> token !in failing
      ensures r.Success? ==> r.value == (pages[token], if token + 1 < |pages| then token + 1 else 0)
    {
      if token in failing {
        return Failure("failed to retrieve services");
      }
      r := Success((pages[token], if token + 1 < |pages| then token + 1 else 0));
    }
  }

  lemma ConflictsStep(ips: seq<string>, uid: string, before: seq<Service>, s: Service)
    ensures ConflictsWith(ips, uid, before + [s])
         == if Rival(s, uid) then WithIps(ConflictsWith(ips, uid, before), ips, s.ips.value, s.name)
            else ConflictsWith(ips, uid, before)
  {
    assert (before + [s])[..|before|] == before;
  }

  method AddIps(conflicts: map<string, string>, ips: seq<string>, other: seq<string>, name: string)
    returns (r: map<string, string>)
    ensures r == WithIps(conflicts, ips, other, name)
  {
    r := conflicts;
    for k := 0 to |other|
      invariant r == WithIps(conflicts, ips, other[..k], name)
    {
      assert other[..k + 1][..k] == other[..k];
      if other[k] in ips {
        r := r[other[k] := name];
      }
    }
    assert other[..|other|] == other;
  }

  /** The services of one page. */
  method AddPage(conflicts: map<string, string>, ips: seq<string>, uid: string, items: seq<Service>, ghost seen: seq<Service>)
    returns (r: map<string, string>)
    requires conflicts == ConflictsWith(ips, uid, seen)
    ensures r == ConflictsWith(ips, uid, seen + items)
  {
    r := conflicts;
    assert seen + items[..0] == seen;
    for k := 0 to |items|
      invariant r == ConflictsWith(ips, uid, seen + items[..k])
    {
      var s := items[k];
      assert seen + items[..k + 1] == (seen + items[..k]) + [s];
      ConflictsStep(ips, uid, seen + items[..k], s);
      if s.kind != "LoadBalancer" {
        continue;
      }
      if s.uid == uid {
        continue;
      }
      if s.ips.None? {
        continue;
      }
      r := AddIps(r, ips, s.ips.value, s.name);
    }
    assert items[..|items|] == items;
  }

  method FindIPsAssignedElsewhere(listing: ServiceListing, me: Service) returns (r: Result<map<string, string>, string>)
    requires |listing.pages| > 0
    ensures r.Success? <==> me.ips.Some? && (me.ips.value == [] || listing.Answers())
    ensures r.Success? ==> r.value == ConflictsWith(me.ips.value, me.uid, Flat(listing.pages, Whole))
  {
    if me.ips.None? {
      return Failure("not a valid JSON string list");
    }
    var ips := me.ips.value;
    if |ips| == 0 {
      NothingWanted(me.uid, Flat(listing.pages, Whole));
      return Success(map[]);
    }
    var conflicts: map<string, string> := map[];
    var token, last := 0, false;
    assert Flat(listing.pages[..0], Whole) == [];
    while !last
      invariant !last ==> token < |listing.pages| && conflicts == ConflictsWith(ips, me.uid, Flat(listing.pages[..token], Whole))
      invariant last ==> conflicts == ConflictsWith(ips, me.uid, Flat(listing.pages, Whole))
      invariant forall i :: 0 <= i < (if last then |listing.pages| else token) ==> i !in listing.failing
      decreases if last then 0 else |listing.pages| - token
    {
      var page := listing.List(token);
      if page.Failure? {
        return Failure(page.error);
      }
      FlatStep(listing.pages, Whole, token);
      FlatWhole(listing.pages, Whole);
      conflicts := AddPage(conflicts, ips, me.uid, page.value.0, Flat(listing.pages[..token], Whole));
      if page.value.1 == 0 {
        last := true;
      } else {
        token := page.value.1;
      }
    }
    r := Success(conflicts);
  }

  lemma {:induction false} NothingWanted(uid: string, services: seq<Service>)
    ensures ConflictsWith([], uid, services) == map[]
  {
    if services != [] {
      var s := services[|services| - 1];
      NothingWanted(uid, services[..|services| - 1]);
      if Rival(s, uid) {
        NoneAdded(map[], s.ips.value, s.name);
      }
    }
  }

  lemma {:induction false} NoneAdded(conflicts: map<string, string>, other: seq<string>, name: string)
    ensures WithIps(conflicts, [], other, name) == conflicts
  {
    if other != [] {
      NoneAdded(conflicts, other[..|other| - 1], name);
    }
  }

  // ---------------------------------------------------------------- what is a conflict

  /** The services to which an IP of the service `uid` is also assigned. */
  ghost predicate Takes(s: Service, uid: string, ip: string) {
    Rival(s, uid) && ip in s.ips.value
  }

  lemma {:induction false} IpsAdded(conflicts: map<string, string>, ips: seq<string>, other: seq<string>, name: string)
    ensures forall ip ::
      ip in WithIps(conflicts, ips, other, name) <==> ip in conflicts || (ip in ips && ip in other)
    ensures forall ip :: ip in WithIps(conflicts, ips, other, name) ==>
      WithIps(conflicts, ips, other, name)[ip] == if ip in ips && ip in other then name else conflicts[ip]
  {
    if other != [] {
      var n := |other| - 1;
      assert forall ip :: ip in other <==> ip in other[..n] || ip == other[n];
      IpsAdded(conflicts, ips, other[..n], name);
    }
  }

  /** However the listing is cut into pages, the conflicts are exactly the IPs of the service that some
      other service of type LoadBalancer, whose IPs can be read, has as well. Each is reported with the
      name of the last such service. */
  lemma {:induction false} ConflictsExact(ips: seq<string>, uid: string, services: seq<Service>)
    ensures forall ip ::
      ip in ConflictsWith(ips, uid, services) <==> ip in ips && exists s :: s in services && Takes(s, uid, ip)
    ensures forall ip, k ::
      ip in ips && 0 <= k < |services| && Takes(services[k], uid, ip)
      && (forall j :: k < j < |services| ==> !Takes(services[j], uid, ip))
      ==> ConflictsWith(ips, uid, services)[ip] == services[k].name
  {
    if services != [] {
      var n := |services| - 1;
      var s, before := services[n], services[..n];
      assert services == before + [s];
      ConflictsExact(ips, uid, before);
      if Rival(s, uid) {
        IpsAdded(ConflictsWith(ips, uid, before), ips, s.ips.value, s.name);
      }
      hide WithIps;
      forall ip
        ensures (exists x :: x in services && Takes(x, uid, ip)) <==> (exists x :: x in before && Takes(x, uid, ip)) || Takes(s, uid, ip)
      {
      }
      forall ip, k |
        ip in ips && 0 <= k < |services| && Takes(services[k], uid, ip)
        && forall j :: k < j < |services| ==> !Takes(services[j], uid, ip)
        ensures ConflictsWith(ips, uid, services)[ip] == services[k].name
      {
        if k < n {
          assert !Takes(services[n], uid, ip);
          assert before[k] == services[k];
          assert forall j :: k < j < n ==> before[j] == services[j];
        }
      }
    }
  }

  // ---------------------------------------------------------------- the check before a run

  /** Nothing speaks against the service among these services. */
  ghost predicate Passes(me: Service, services: seq<Service>) {
    me.class_.None? && me.ips.Some? && ConflictsWith(me.ips.value, me.uid, services) == map[]
  }

  /** The IPs of the service can be read, and so can the other services, should it have any. */
  ghost predicate Readable(listing: ServiceListing, me: Service) {
    me.ips.Some? && (me.ips.value == [] || listing.Answers())
  }

  /** Succeeds exactly if nothing speaks against the service and what is needed to know can be read. */
  method EnsureValidConfig(listing: ServiceListing, me: Service) returns (r: Result<(), ConfigError>)
    requires |listing.pages| > 0
    ensures r.Success? <==> Passes(me, Flat(listing.pages, Whole)) && Readable(listing, me)
    ensures r.Failure? && r.error.Conflicts? <==>
      me.class_.None? && Readable(listing, me) && ConflictsWith(me.ips.value, me.uid, Flat(listing.pages, Whole)) != map[]
    ensures r.Failure? && r.error.Conflicts? ==> r.error.ips == ConflictsWith(me.ips.value, me.uid, Flat(listing.pages, Whole))
    ensures r.Failure? && r.error.Unsupported? <==> me.class_.Some?
  {
    if me.class_.Some? {
      return Failure(Unsupported(me.class_.value));
    }
    var ips := FindIPsAssignedElsewhere(listing, me);
    if ips.Failure? {
      return Failure(NotParsed);
    }
    if |ips.value| > 0 {
      return Failure(Conflicts(ips.value));
    }
    r := Success(());
  }

  lemma NoConflict(ips: seq<string>, uid: string, services: seq<Service>)
    ensures ConflictsWith(ips, uid, services) == map[]
       <==> forall s, ip :: s in services && ip in ips ==> !Takes(s, uid, ip)
  {
    ConflictsExact(ips, uid, services);
    var m := ConflictsWith(ips, uid, services);
    if m == map[] {
      forall s, ip | s in services && ip in ips
        ensures !Takes(s, uid, ip)
      {
        assert ip !in m;
      }
    }
    if forall s, ip :: s in services && ip in ips ==> !Takes(s, uid, ip) {
      assert forall ip :: ip !in m;
    }
  }

  /** No two different services of type LoadBalancer, among those whose IPs can be read, share an IP. */
  ghost predicate Disjoint(services: seq<Service>) {
    forall a, b, ip :: a in services && b in services && Claims(a, ip) && Claims(b, ip) ==> a.uid == b.uid
  }

  ghost predicate Claims(s: Service, ip: string) {
    s.kind == "LoadBalancer" && s.ips.Some? && ip in s.ips.value
  }

  ghost predicate Sound(s: Service) {
    s.class_.None? && s.ips.Some?
  }

  /** All load balancer services pass the check, one by one, if and only if each is supported and can be
      read, and no two of them share an IP. */
  lemma AllPassExactly(services: seq<Service>)
    ensures (forall s :: s in services && s.kind == "LoadBalancer" ==> Passes(s, services))
       <==> (forall s :: s in services && s.kind == "LoadBalancer" ==> Sound(s)) && Disjoint(services)
  {
    hide ConflictsWith;
    forall s | s in services && s.kind == "LoadBalancer" && s.ips.Some?
      ensures ConflictsWith(s.ips.value, s.uid, services) == map[]
         <==> forall o, ip :: o in services && ip in s.ips.value ==> !Takes(o, s.uid, ip)
    {
      NoConflict(s.ips.value, s.uid, services);
    }
    if forall s :: s in services && s.kind == "LoadBalancer" ==> Passes(s, services) {
      forall a, b, ip | a in services && b in services && Claims(a, ip) && Claims(b, ip)
        ensures a.uid == b.uid
      {
        assert Passes(a, services);
        assert !Takes(b, a.uid, ip);
      }
    }
    if (forall s :: s in services && s.kind == "LoadBalancer" ==> Sound(s)) && Disjoint(services) {
      forall s | s in services && s.kind == "LoadBalancer"
        ensures Passes(s, services)
      {
        assert Sound(s);
        forall o, ip | o in services && ip in s.ips.value
          ensures !Takes(o, s.uid, ip)
        {
          assert Claims(s, ip);
          assert Takes(o, s.uid, ip) ==> Claims(o, ip);
        }
      }
    }
  }

  // ---------------------------------------------------------------- notation

  /** IPs written as the cloud writes its networks. */
  ghost predicate Canonical(fips: seq<Fip>, ips: seq<string>) {
    forall ip :: ip in ips ==> exists f :: f in fips && f.network == ip
  }

  /** Of IPs in the cloud's own notation, different ones have different addresses. */
  lemma CanonicalAddresses(fips: seq<Fip>, a: seq<string>, b: seq<string>)
    requires Distinct(fips, FipAddress) && Canonical(fips, a) && Canonical(fips, b)
    ensures (forall ip :: ip in a ==> ip !in b) <==> Addresses(a) !! Addresses(b)
  {
    hide Address;
    forall x, y | x in a && y in b && Address(x) == Address(y)
      ensures x == y
    {
      var f :| f in fips && f.network == x;
      var g :| g in fips && g.network == y;
      DistinctSame(fips, FipAddress, f, g);
    }
    if Addresses(a) !! Addresses(b) {
      forall ip | ip in a
        ensures ip !in b
      {
        assert Address(ip) in Addresses(a);
      }
    }
  }

  // ---------------------------------------------------------------- where a run moves floating IPs

  /** Floating IPs are moved to `own` only, or, if it is deleted, taken off it. */
  ghost predicate FipsTo(fips: seq<Fip>, fips1: seq<Fip>, own: Uuid, all: bool) {
    && |fips1| == |fips|
    && forall k :: 0 <= k < |fips| ==>
      || fips1[k].lb == fips[k].lb
      || fips1[k].lb == Some(own)
      || (all && fips1[k].lb == None && (fips[k].lb == Some(own) || fips[k].lb == None))
  }

  lemma FipsToTransitive(a: seq<Fip>, b: seq<Fip>, c: seq<Fip>, own: Uuid)
    requires FipsTo(a, b, own, false) && FipsTo(b, c, own, false)
    ensures FipsTo(a, c, own, false)
  {
  }

  lemma StepMoves(w: World, own: Uuid, ids: set<Uuid>, ips: set<string>, a: Action)
    requires Valid(w) && Owns(w, own, ids) && Local(own, false, ids, ips, a) && Apply(w, a).Proceed?
    ensures FipsTo(w.fips, Apply(w, a).world.fips, own, false)
  {
    hide Stored;
    hide Revised;
    hide Renamed;
    hide Survivors;
    hide Valid;
  }

  lemma {:induction false} BatchMoves(w: World, own: Uuid, ids: set<Uuid>, ips: set<string>, b: seq<Action>)
    requires Valid(w) && Owns(w, own, ids) && forall a :: a in b ==> Local(own, false, ids, ips, a)
    ensures FipsTo(w.fips, Exec(w, b).world.fips, own, false)
    decreases |b|
  {
    if b != [] && Apply(w, b[0]).Proceed? {
      var w1 := Apply(w, b[0]).world;
      assert b[0] in b;
      LocalStep(w, own, false, ids, ips, b[0]);
      StepMoves(w, own, ids, ips, b[0]);
      hide Apply;
      hide Local;
      hide Owns;
      hide Valid;
      hide FipsTo;
      BatchMoves(w1, own, ids, ips, b[1..]);
      FipsToTransitive(w.fips, w1.fips, Exec(w, b).world.fips, own);
    }
  }

  lemma PartMoves(w: World, q: Query, t: Turn, k: nat, ips: set<string>)
    requires Valid(w) && Planned(w, q, t) && Consistent(q, false, ips, t) && k <= |Batch(w, q, t)|
    ensures FipsTo(w.fips, Exec(w, Batch(w, q, t)[..k]).world.fips, Own(w, q), false)
  {
    var b := Batch(w, q, t);
    if FoundIn(w, q).Some? {
      var l := FoundIn(w, q).value;
      FoundInLbs(w, q);
      OwnsOwn(w, l);
      PlanLocal(w, t.desired, l, t.status, t.choice);
      assert forall a :: a in b[..k] ==> a in b;
      hide FipsTo;
      hide Exec;
      hide Owns;
      hide Plan;
      hide Local;
      BatchMoves(w, l.id, OwnIds(w.items, l.id), Addresses(t.desired.floatingIPs), b[..k]);
    } else {
      CreateCut(w, t.desired.lb.value, k);
    }
  }

  lemma WholeTurnMoves(w: World, q: Query, t: Turn, ips: set<string>)
    requires Valid(w) && Planned(w, q, t) && Consistent(q, false, ips, t)
    ensures FipsTo(w.fips, TurnResult(w, q, t).world.fips, Own(w, q), false)
  {
    WholeTurn(w, q, t);
    hide FipsTo;
    hide Valid;
    hide Own;
    hide Planned;
    hide Batch;
    hide Consistent;
    PartMoves(w, q, t, |Batch(w, q, t)|, ips);
  }

  lemma {:induction false} AfterMoves(w: World, q: Query, turns: seq<Turn>, ips: set<string>)
    requires Valid(w) && Ongoing(w, q, turns) && forall t :: t in turns ==> Consistent(q, false, ips, t)
    ensures
      var w1 := After(w, q, turns);
      Valid(w1) && FipsTo(w.fips, w1.fips, Own(w, q), false) && Own(w1, q) == Own(w, q)
  {
    hide FipsTo;
    hide Valid;
    hide Own;
    hide Planned;
    hide TurnResult;
    hide Consistent;
    AfterFrame(w, q, turns, false, ips);
    if turns == [] {
      MovesNothing(w.fips, Own(w, q));
    } else {
      var init, t := turns[..|turns| - 1], turns[|turns| - 1];
      assert turns == init + [t];
      AfterMoves(w, q, init, ips);
      var w0 := After(w, q, init);
      WholeTurnMoves(w0, q, t, ips);
      FipsToTransitive(w.fips, w0.fips, After(w, q, turns).fips, Own(w, q));
    }
  }

  lemma MovesNothing(fips: seq<Fip>, own: Uuid)
    ensures FipsTo(fips, fips, own, false)
  {
  }

  /** At every moment of a run for a wanted load balancer, floating IPs have moved to it only. */
  lemma RunMoves(w: World, q: Query, turns: seq<Turn>, t: Turn, k: nat, w1: World, ips: set<string>)
    requires Valid(w) && Moment(w, q, turns, t, k, w1)
    requires Consistent(q, false, ips, t) && forall x :: x in turns ==> Consistent(q, false, ips, x)
    ensures FipsTo(w.fips, w1.fips, Own(w, q), false)
  {
    var w0 := After(w, q, turns);
    hide FipsTo;
    hide Valid;
    hide Own;
    hide Planned;
    hide Batch;
    hide Consistent;
    hide Ongoing;
    hide After;
    AfterMoves(w, q, turns, ips);
    PartMoves(w0, q, t, k, ips);
    FipsToTransitive(w.fips, w0.fips, w1.fips, Own(w, q));
  }
}
