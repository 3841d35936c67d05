/** `desiredLbState` of pkg/cloudscale_ccm/reconcile.go: what a service and its nodes ask for. */
module DesiredStates {
  import opened Seqs
  import opened Domain
  import opened CloudWorld
  import opened Names

  datatype NicAddress = NicAddress(address: string, subnet: Subnet)

  datatype Nic = Nic(kind: string, addresses: seq<NicAddress>)

  datatype Server = Server(zone: string, nics: seq<Nic>)

  datatype ServicePort = ServicePort(protocol: string, name: string, port: int, nodePort: int)

  /** The annotation with the HTTP options of a health monitor. */
  datatype HttpOption = Unset | Unreadable | Given(http: Http)

  /** The annotations of a service, parsed: None stands for a value that cannot be read. `local` is the
      external traffic policy. */
  datatype Settings = Settings(
    name: string, zone: string, flavor: string, vips: Option<seq<Vip>>, floatingIPs: Option<seq<string>>,
    algorithm: string, protocol: string, allowedSubnets: Option<seq<string>>,
    monitorType: string, delayS: Option<int>, timeoutS: Option<int>, up: Option<int>, down: Option<int>, http: HttpOption,
    listenerProtocol: string, clientDataMS: Option<int>, memberConnectMS: Option<int>, memberDataMS: Option<int>,
    allowedCIDRs: Option<seq<string>>,
    local: bool, healthCheckNodePort: int)

  datatype DesiredError =
    | BadMapping
    | SeveralZones
    | NoZone
    | UnsupportedProtocol(protocol: string)
    | UnknownPort
    | Unparsable(annotation: string)

  // ---------------------------------------------------------------- zones

  /** The zone a load balancer gets when none is set: what the loop over the servers comes to. */
  function ScanZones(servers: seq<Server>): Result<string, DesiredError> {
    if servers == [] then Success("") else
      var before := ScanZones(servers[..|servers| - 1]);
      var z := servers[|servers| - 1].zone;
      if before.Failure? then before
      else if before.value != "" && before.value != z then Failure(SeveralZones)
      else Success(z)
  }

  function ZoneFor(zone: string, servers: seq<Server>): Result<string, DesiredError> {
    if zone != "" then Success(zone) else
      var z := ScanZones(servers);
      if z == Success("") then Failure(NoZone) else z
  }

  /** The first `n` servers tell no zone, and the others all tell `z`. */
  ghost predicate AgreeFrom(servers: seq<Server>, n: nat, z: string) {
    && n <= |servers|
    && (forall i :: 0 <= i < n ==> servers[i].zone == "")
    && forall i :: n <= i < |servers| ==> servers[i].zone == z
  }

  /** Without a set zone, the servers have to agree on one: some of the first may tell none. */
  lemma {:induction false} ZonesAgree(servers: seq<Server>)
    ensures forall z :: z != "" ==>
      (ScanZones(servers) == Success(z) <==> exists n: nat :: n < |servers| && AgreeFrom(servers, n, z))
    ensures ScanZones(servers) == Success("") <==> AgreeFrom(servers, |servers|, "")
  {
    if servers != [] {
      var init, last := servers[..|servers| - 1], servers[|servers| - 1];
      assert servers == init + [last];
      ZonesAgree(init);
      assert AgreeFrom(servers, |servers|, "") <==> AgreeFrom(init, |init|, "") && last.zone == "";
      forall z | z != ""
        ensures ScanZones(servers) == Success(z) <==> exists n: nat :: n < |servers| && AgreeFrom(servers, n, z)
      {
        ZoneStep(init, last, z);
      }
    }
  }

  lemma ZoneStep(init: seq<Server>, last: Server, z: string)
    requires z != ""
    requires ScanZones(init) == Success(z) <==> exists n: nat :: n < |init| && AgreeFrom(init, n, z)
    requires ScanZones(init) == Success("") <==> AgreeFrom(init, |init|, "")
    ensures ScanZones(init + [last]) == Success(z)
       <==> exists n: nat :: n < |init| + 1 && AgreeFrom(init + [last], n, z)
  {
    var servers := init + [last];
    assert servers[..|init|] == init;
    if ScanZones(servers) == Success(z) {
      assert last.zone == z;
      if ScanZones(init) == Success(z) {
        var n: nat :| n < |init| && AgreeFrom(init, n, z);
        assert AgreeFrom(servers, n, z);
      } else {
        assert AgreeFrom(servers, |init|, z);
      }
    }
    if n: nat :| n < |init| + 1 && AgreeFrom(servers, n, z) {
      assert servers[|init|].zone == z;
      assert forall i :: 0 <= i < |init| ==> servers[i] == init[i];
      if n < |init| {
        assert AgreeFrom(init, n, z);
      } else {
        assert AgreeFrom(init, |init|, "");
      }
    }
  }

  // ---------------------------------------------------------------- members

  /** An address of a server with the kind of its interface. */
  datatype Candidate = Candidate(kind: string, at: NicAddress)

  const OfNic: Nic -> seq<Candidate> := (nic: Nic) => Map(nic.addresses, (a: NicAddress) => Candidate(nic.kind, a))

  const OfServer: Server -> seq<Candidate> := (s: Server) => Flat(s.nics, OfNic)

  /** All addresses of all servers, in order. */
  function AllAddresses(servers: seq<Server>): seq<Candidate> {
    Flat(servers, OfServer)
  }

  /** Traffic goes to addresses that are not public, have a subnet, and are in an allowed one if any is set. */
  predicate Eligible(allowed: seq<string>, c: Candidate) {
    c.kind != "public" && c.at.subnet.uuid != "" && (allowed == [] || c.at.subnet.uuid in allowed)
  }

  function EligibleIn(allowed: seq<string>): Candidate -> bool {
    c => Eligible(allowed, c)
  }

  function DesiredItem(s: Spec): Item {
    Item(0, InPool(0), s)
  }

  function MemberFor(nodePort: int, monitorPort: int): Candidate -> Item {
    (c: Candidate) => DesiredItem(Member(PoolMemberName(c.at.address, nodePort), true, c.at.address, c.at.subnet, nodePort, monitorPort))
  }

  function MembersFor(candidates: seq<Candidate>, allowed: seq<string>, nodePort: int, monitorPort: int): seq<Item> {
    Map(Filter(candidates, EligibleIn(allowed)), MemberFor(nodePort, monitorPort))
  }

  lemma MembersLast(candidates: seq<Candidate>, c: Candidate, allowed: seq<string>, nodePort: int, monitorPort: int)
    ensures MembersFor(candidates + [c], allowed, nodePort, monitorPort)
         == MembersFor(candidates, allowed, nodePort, monitorPort)
          + if Eligible(allowed, c) then [MemberFor(nodePort, monitorPort)(c)] else []
  {
    FilterLast(candidates, c, EligibleIn(allowed));
  }

  lemma NextAddress(before: seq<Candidate>, nic: Nic, k: nat, allowed: seq<string>, nodePort: int, monitorPort: int)
    requires k < |nic.addresses|
    ensures
      var c := Candidate(nic.kind, nic.addresses[k]);
      MembersFor(before + OfNic(nic)[..k + 1], allowed, nodePort, monitorPort)
        == MembersFor(before + OfNic(nic)[..k], allowed, nodePort, monitorPort)
         + if Eligible(allowed, c) then [MemberFor(nodePort, monitorPort)(c)] else []
  {
    var c := Candidate(nic.kind, nic.addresses[k]);
    assert before + OfNic(nic)[..k + 1] == (before + OfNic(nic)[..k]) + [c];
    MembersLast(before + OfNic(nic)[..k], c, allowed, nodePort, monitorPort);
    hide MembersFor;
    hide MemberFor;
  }

  lemma AllOfNic(before: seq<Candidate>, nic: Nic)
    ensures |OfNic(nic)| == |nic.addresses|
    ensures before + OfNic(nic)[..0] == before && OfNic(nic)[..|nic.addresses|] == OfNic(nic)
  {
  }

  /** The addresses of one interface. */
  method NicMembers(members: seq<Item>, nic: Nic, allowed: seq<string>, nodePort: int, monitorPort: int, ghost before: seq<Candidate>)
    returns (r: seq<Item>)
    requires members == MembersFor(before, allowed, nodePort, monitorPort) && nic.kind != "public"
    ensures r == MembersFor(before + OfNic(nic), allowed, nodePort, monitorPort)
  {
    r := members;
    AllOfNic(before, nic);
    hide MembersFor;
    hide OfNic;
    hide PoolMemberName;
    for k := 0 to |nic.addresses|
      invariant r == MembersFor(before + OfNic(nic)[..k], allowed, nodePort, monitorPort)
    {
      var addr := nic.addresses[k];
      NextAddress(before, nic, k, allowed, nodePort, monitorPort);
      if addr.subnet.uuid == "" {
        continue;
      }
      if |allowed| > 0 && addr.subnet.uuid !in allowed {
        continue;
      }
      var name := PoolMemberName(addr.address, nodePort);
      r := r + [DesiredItem(Member(name, true, addr.address, addr.subnet, nodePort, monitorPort))];
    }
  }

  lemma PublicSkipped(before: seq<Candidate>, nic: Nic, allowed: seq<string>, nodePort: int, monitorPort: int)
    requires nic.kind == "public"
    ensures MembersFor(before + OfNic(nic), allowed, nodePort, monitorPort) == MembersFor(before, allowed, nodePort, monitorPort)
  {
    var public := OfNic(nic);
    FilterConcat(before, public, EligibleIn(allowed));
    forall c | c in public
      ensures !Eligible(allowed, c)
    {
      var k :| 0 <= k < |public| && public[k] == c;
    }
    NonEmpty(Filter(public, EligibleIn(allowed)));
    assert Filter(before, EligibleIn(allowed)) + [] == Filter(before, EligibleIn(allowed));
  }

  /** The interfaces of one server. */
  method ServerMembers(members: seq<Item>, server: Server, allowed: seq<string>, nodePort: int, monitorPort: int, ghost before: seq<Candidate>)
    returns (r: seq<Item>)
    requires members == MembersFor(before, allowed, nodePort, monitorPort)
    ensures r == MembersFor(before + OfServer(server), allowed, nodePort, monitorPort)
  {
    hide Flat;
    hide MembersFor;
    r := members;
    FlatNil(OfNic);
    assert server.nics[..0] == [] && before + [] == before;
    for n := 0 to |server.nics|
      invariant r == MembersFor(before + Flat(server.nics[..n], OfNic), allowed, nodePort, monitorPort)
    {
      var nic := server.nics[n];
      FlatStep(server.nics, OfNic, n);
      ghost var done := before + Flat(server.nics[..n], OfNic);
      assert before + Flat(server.nics[..n + 1], OfNic) == done + OfNic(nic);
      if nic.kind == "public" {
        PublicSkipped(done, nic, allowed, nodePort, monitorPort);
        continue;
      }
      r := NicMembers(r, nic, allowed, nodePort, monitorPort, done);
    }
    FlatWhole(server.nics, OfNic);
  }

  method Members(servers: seq<Server>, allowed: seq<string>, nodePort: int, monitorPort: int) returns (members: seq<Item>)
    ensures members == MembersFor(AllAddresses(servers), allowed, nodePort, monitorPort)
  {
    members := [];
    assert AllAddresses(servers[..0]) == [] && MembersFor([], allowed, nodePort, monitorPort) == [];
    hide MembersFor;
    for i := 0 to |servers|
      invariant members == MembersFor(AllAddresses(servers[..i]), allowed, nodePort, monitorPort)
    {
      FlatStep(servers, OfServer, i);
      members := ServerMembers(members, servers[i], allowed, nodePort, monitorPort, AllAddresses(servers[..i]));
    }
    FlatWhole(servers, OfServer);
  }

  // ---------------------------------------------------------------- monitors and listeners

  /** `healthMonitorForPort` */
  function MonitorFor(t: Settings): Result<Spec, DesiredError> {
    if t.delayS.None? then Failure(Unparsable("delay"))
    else if t.timeoutS.None? then Failure(Unparsable("timeout"))
    else if t.up.None? then Failure(Unparsable("up-threshold"))
    else if t.down.None? then Failure(Unparsable("down-threshold"))
    else if t.http.Unreadable? then Failure(Unparsable("http"))
    else
      var http :=
        if t.http.Given? then Some(Filled(t.http.http))
        else if t.local then Some(Http("GET", "/livez", "1.0", None, ["200"]))
        else None;
      Success(Monitor(if t.local then "http" else t.monitorType, http, t.delayS.value, t.timeoutS.value, t.up.value, t.down.value))
  }

  function LowerChar(c: char): char {
    if 'A' <= c <= 'Z' then (c as int + 32) as char else c
  }

  function ListenerName(protocol: string, port: int): string {
    Map(protocol + "/" + Decimal(port), (c: char) => LowerChar(c))
  }

  lemma LowerCharIs(c: char)
    ensures forall l :: IsLower(c, l) <==> l == LowerChar(c)
  {
  }

  lemma DecimalStays(n: int)
    ensures Map(Decimal(n), (c: char) => LowerChar(c)) == Decimal(n)
  {
    DecimalDigits(if n < 0 then -n else n);
    if n < 0 {
      assert Decimal(n) == "-" + Decimal(-n);
    }
    assert forall i :: 0 <= i < |Decimal(n)| ==> Decimal(n)[i] == '-' || IsDigit(Decimal(n)[i]);
    hide Decimal;
  }

  /** What `ListenerName` returns, and no other name, is the protocol in lower case with the port. */
  lemma ListenerNameExactly(protocol: string, port: int, name: string)
    ensures IsListenerName(protocol, port, name) <==> name == ListenerName(protocol, port)
  {
    var lower, text := (c: char) => LowerChar(c), Decimal(port);
    DecimalExactly(text, port);
    DecimalStays(port);
    forall i | 0 <= i < |protocol|
      ensures forall l :: IsLower(protocol[i], l) <==> l == LowerChar(protocol[i])
    {
      LowerCharIs(protocol[i]);
    }
    hide Decimal;
    hide ReadsAs;
    hide IsLower;
    var head := Map(protocol, lower);
    assert ListenerName(protocol, port) == head + "/" + text;
    if IsListenerName(protocol, port, name) {
      var h: string, t: string :| name == h + "/" + t && ReadsAs(t, port)
        && |h| == |protocol| && forall i :: 0 <= i < |h| ==> IsLower(protocol[i], h[i]);
      DecimalExactly(t, port);
      assert h == head;
    }
  }

  /** `listenerForPort` */
  function ListenerFor(t: Settings, port: ServicePort): Result<Spec, DesiredError> {
    var protocol := if port.protocol != "TCP" then "udp" else t.listenerProtocol;
    if t.clientDataMS.None? then Failure(Unparsable("client-data"))
    else if t.memberConnectMS.None? then Failure(Unparsable("member-connect"))
    else if t.memberDataMS.None? then Failure(Unparsable("member-data"))
    else if t.allowedCIDRs.None? then Failure(Unparsable("allowed-cidrs"))
    else
      Success(Listener(ListenerName(protocol, port.port), protocol, port.port, t.allowedCIDRs.value,
                       t.clientDataMS.value, t.memberConnectMS.value, t.memberDataMS.value))
  }

  // ---------------------------------------------------------------- one port

  predicate Balanced(protocol: string) {
    protocol == "TCP" || protocol == "UDP"
  }

  function ProtocolOf(protocol: string): Protocol {
    if protocol == "TCP" then TCP else UDP
  }

  function MonitorPort(t: Settings, port: ServicePort): int {
    if t.local && t.healthCheckNodePort > 0 then t.healthCheckNodePort else port.nodePort
  }

  function PoolFor(t: Settings, port: ServicePort): Item {
    Item(0, OnLb(0), Pool(PoolNameOf(ProtocolOf(port.protocol), port.name), t.algorithm, if port.protocol != "TCP" then "udp" else t.protocol))
  }

  /** What one port of the service asks for. */
  function NodeFor(t: Settings, servers: seq<Server>, port: ServicePort): Result<PoolNode, DesiredError> {
    if !Balanced(port.protocol) then Failure(UnsupportedProtocol(port.protocol))
    else if port.nodePort == 0 then Failure(UnknownPort)
    else if t.allowedSubnets.None? then Failure(Unparsable("allowed-subnets"))
    else if MonitorFor(t).Failure? then Failure(MonitorFor(t).error)
    else if ListenerFor(t, port).Failure? then Failure(ListenerFor(t, port).error)
    else
      Success(PoolNode(PoolFor(t, port),
                       MembersFor(AllAddresses(servers), t.allowedSubnets.value, port.nodePort, MonitorPort(t, port)),
                       [DesiredItem(ListenerFor(t, port).value)], [DesiredItem(MonitorFor(t).value)]))
  }

  function NodesFor(t: Settings, servers: seq<Server>, ports: seq<ServicePort>): Result<seq<PoolNode>, DesiredError> {
    if ports == [] then Success([]) else
      var before := NodesFor(t, servers, ports[..|ports| - 1]);
      var node := NodeFor(t, servers, ports[|ports| - 1]);
      if before.Failure? then before
      else if node.Failure? then Failure(node.error)
      else Success(before.value + [node.value])
  }

  function LbFor(t: Settings, zone: string, vips: seq<Vip>): Lb {
    Lb(0, t.name, vips, t.flavor, zone)
  }

  /** The desired state, or the first thing that speaks against it. */
  function Desired(t: Settings, nodes: nat, servers: seq<Server>, ports: seq<ServicePort>): Result<State, DesiredError> {
    if nodes != |servers| then Failure(BadMapping)
    else if ZoneFor(t.zone, servers).Failure? then Failure(ZoneFor(t.zone, servers).error)
    else if t.vips.None? then Failure(Unparsable("vip-addresses"))
    else if t.floatingIPs.None? then Failure(Unparsable("floating-ips"))
    else
      var pools := NodesFor(t, servers, ports);
      if pools.Failure? then Failure(pools.error)
      else Success(State(Some(LbFor(t, ZoneFor(t.zone, servers).value, t.vips.value)), "", pools.value, t.floatingIPs.value))
  }

  method FindZone(zone: string, servers: seq<Server>) returns (r: Result<string, DesiredError>)
    ensures r == ZoneFor(zone, servers)
  {
    var z := zone;
    if z == "" {
      for i := 0 to |servers|
        invariant ScanZones(servers[..i]) == Success(z)
      {
        assert servers[..i + 1][..i] == servers[..i];
        if z != "" && z != servers[i].zone {
          ScanFails(servers, i + 1);
          return Failure(SeveralZones);
        }
        z := servers[i].zone;
      }
      assert servers[..|servers|] == servers;
      if z == "" {
        return Failure(NoZone);
      }
    }
    r := Success(z);
  }

  lemma {:induction false} ScanFails(servers: seq<Server>, i: nat)
    requires i <= |servers| && ScanZones(servers[..i]) == Failure(SeveralZones)
    ensures ScanZones(servers) == Failure(SeveralZones)
    decreases |servers| - i
  {
    if i < |servers| {
      assert servers[..i + 1][..i] == servers[..i];
      ScanFails(servers, i + 1);
    } else {
      assert servers[..i] == servers;
    }
  }

  lemma {:induction false} NodesFail(t: Settings, servers: seq<Server>, ports: seq<ServicePort>, i: nat)
    requires i <= |ports| && NodesFor(t, servers, ports[..i]).Failure?
    ensures NodesFor(t, servers, ports) == NodesFor(t, servers, ports[..i])
    decreases |ports| - i
  {
    hide NodeFor;
    if i < |ports| {
      assert ports[..i + 1][..i] == ports[..i];
      NodesFail(t, servers, ports, i + 1);
    } else {
      assert ports[..i] == ports;
    }
  }

  /** One pass of the loop over the ports. */
  method PortNode(t: Settings, servers: seq<Server>, port: ServicePort) returns (r: Result<PoolNode, DesiredError>)
    ensures r == NodeFor(t, servers, port)
  {
    if port.protocol != "TCP" && port.protocol != "UDP" {
      return Failure(UnsupportedProtocol(port.protocol));
    }
    var nodePort := port.nodePort;
    if nodePort == 0 {
      return Failure(UnknownPort);
    }
    var monitorPort := nodePort;
    if t.local {
      if t.healthCheckNodePort > 0 {
        monitorPort := t.healthCheckNodePort;
      }
    }
    var poolProtocol := t.protocol;
    if port.protocol != "TCP" {
      poolProtocol := "udp";
    }
    var pool := Item(0, OnLb(0), Pool(PoolNameOf(ProtocolOf(port.protocol), port.name), t.algorithm, poolProtocol));
    if t.allowedSubnets.None? {
      return Failure(Unparsable("allowed-subnets"));
    }
    var members := Members(servers, t.allowedSubnets.value, nodePort, monitorPort);
    var monitor := MonitorFor(t);
    if monitor.Failure? {
      return Failure(monitor.error);
    }
    var listener := ListenerFor(t, port);
    if listener.Failure? {
      return Failure(listener.error);
    }
    r := Success(PoolNode(pool, members, [DesiredItem(listener.value)], [DesiredItem(monitor.value)]));
  }

  method DesiredLbState(t: Settings, nodes: nat, servers: seq<Server>, ports: seq<ServicePort>)
    returns (r: Result<State, DesiredError>)
    ensures r == Desired(t, nodes, servers, ports)
  {
    hide NodeFor;
    hide ZoneFor;
    if nodes != |servers| {
      return Failure(BadMapping);
    }
    var zone := FindZone(t.zone, servers);
    if zone.Failure? {
      return Failure(zone.error);
    }
    if t.vips.None? {
      return Failure(Unparsable("vip-addresses"));
    }
    var addrs := [];
    for k := 0 to |t.vips.value|
      invariant addrs == t.vips.value[..k]
    {
      addrs := addrs + [Vip(t.vips.value[k].address, t.vips.value[k].subnet)];
    }
    assert addrs == t.vips.value;
    if t.floatingIPs.None? {
      return Failure(Unparsable("floating-ips"));
    }
    var pools := [];
    for i := 0 to |ports|
      invariant NodesFor(t, servers, ports[..i]) == Success(pools)
    {
      assert ports[..i + 1][..i] == ports[..i];
      var node := PortNode(t, servers, ports[i]);
      if node.Failure? {
        NodesFail(t, servers, ports, i + 1);
        return Failure(node.error);
      }
      pools := pools + [node.value];
    }
    assert ports[..|ports|] == ports;
    r := Success(State(Some(LbFor(t, zone.value, addrs)), "", pools, t.floatingIPs.value));
  }
}
