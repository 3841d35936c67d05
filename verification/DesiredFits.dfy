/** What `desiredLbState` returns has the shape its callers rely on, and is a state the reconciler can reach. */
module DesiredFits {
  import opened Seqs
  import opened Domain
  import opened CloudWorld
  import opened Planner
  import opened Lookup
  import opened Rounds
  import opened Names
  import opened Disruption
  import opened Runs
  import opened Progress
  import opened Twins
  import opened Outcomes
  import opened DesiredStates
  import opened FinalRounds
  import Finishing

  // ---------------------------------------------------------------- one pool per port

  lemma {:induction false} NodesShape(t: Settings, servers: seq<Server>, ports: seq<ServicePort>)
    ensures NodesFor(t, servers, ports).Success? <==> forall i :: 0 <= i < |ports| ==> NodeFor(t, servers, ports[i]).Success?
    ensures NodesFor(t, servers, ports).Success? ==>
      var nodes := NodesFor(t, servers, ports).value;
      |nodes| == |ports| && forall i :: 0 <= i < |ports| ==> NodeFor(t, servers, ports[i]) == Success(nodes[i])
  {
    hide NodeFor;
    if ports != [] {
      var n := |ports| - 1;
      NodesShape(t, servers, ports[..n]);
      assert forall i :: 0 <= i < n ==> ports[..n][i] == ports[i];
    }
  }

  /** The addresses that become members of a pool. */
  function EligibleAddresses(t: Settings, servers: seq<Server>): seq<Candidate>
    requires t.allowedSubnets.Some?
  {
    Filter(AllAddresses(servers), EligibleIn(t.allowedSubnets.value))
  }

  /** `m` sends the traffic of a port to an address, and is monitored at the health check port of the service
      where there is one. */
  ghost predicate Serves(t: Settings, port: ServicePort, c: Candidate, m: Item) {
    && m.spec.Member? && m.spec.enabled
    && m.spec.address == c.at.address && m.spec.subnet == c.at.subnet
    && m.spec.protocolPort == port.nodePort
    && m.spec.monitorPort == (if t.local && t.healthCheckNodePort > 0 then t.healthCheckNodePort else port.nodePort)
    && IsMemberName(c.at.address, port.nodePort, m.spec.name)
  }

  /** `s` listens on a port, by the protocol of its name, with the timeouts and networks of the service. */
  ghost predicate ListensTo(t: Settings, port: ServicePort, s: Spec) {
    && s.Listener? && s.protocolPort == port.port
    && s.protocol == (if port.protocol == "UDP" then "udp" else t.listenerProtocol)
    && IsListenerName(s.protocol, port.port, s.name)
    && Some(s.allowedCIDRs) == t.allowedCIDRs && Some(s.timeoutClientDataMS) == t.clientDataMS
    && Some(s.timeoutMemberConnectMS) == t.memberConnectMS && Some(s.timeoutMemberDataMS) == t.memberDataMS
  }

  /** The options of an HTTP monitor, with the defaults of the cloud for those that are not given. */
  ghost predicate FilledOut(given: Http, h: Http) {
    && h.verb == (if given.verb == "" then "GET" else given.verb)
    && h.urlPath == (if given.urlPath == "" then "/" else given.urlPath)
    && h.version == (if given.version == "" then "1.1" else given.version)
    && h.host == given.host
    && h.expectedCodes == (if given.expectedCodes == [] then ["200"] else given.expectedCodes)
  }

  /** `s` monitors a pool as the annotations say; with the local traffic policy over HTTP, and unless options are
      given, at /livez. */
  ghost predicate Monitors(t: Settings, s: Spec) {
    && s.Monitor? && s.kind == (if t.local then "http" else t.monitorType)
    && Some(s.delayS) == t.delayS && Some(s.timeoutS) == t.timeoutS
    && Some(s.upThreshold) == t.up && Some(s.downThreshold) == t.down
    && match t.http
       case Unset => s.http == (if t.local then Some(Http("GET", "/livez", "1.0", None, ["200"])) else None)
       case Unreadable => false
       case Given(h) => s.http.Some? && FilledOut(h, s.http.value)
  }

  /** The pool of a port: named after it, with one listener on the port, one monitor, and a member for
      each eligible address, in order. */
  ghost predicate PoolOfPort(t: Settings, servers: seq<Server>, port: ServicePort, n: PoolNode) {
    && n.pool.spec.Pool? && IsPoolName(port.protocol, port.name, n.pool.spec.name)
    && n.pool.spec.algorithm == t.algorithm
    && n.pool.spec.protocol == (if port.protocol == "UDP" then "udp" else t.protocol)
    && |n.listeners| == 1 && ListensTo(t, port, n.listeners[0].spec)
    && |n.monitors| == 1 && Monitors(t, n.monitors[0].spec)
    && t.allowedSubnets.Some?
    && |n.members| == |EligibleAddresses(t, servers)|
    && forall k :: 0 <= k < |n.members| ==> Serves(t, port, EligibleAddresses(t, servers)[k], n.members[k])
  }

  lemma MonitorShape(t: Settings)
    requires MonitorFor(t).Success?
    ensures Monitors(t, MonitorFor(t).value)
  {
  }

  lemma ListenerShape(t: Settings, port: ServicePort)
    requires ListenerFor(t, port).Success? && Balanced(port.protocol)
    ensures ListensTo(t, port, ListenerFor(t, port).value)
  {
    var protocol := if port.protocol != "TCP" then "udp" else t.listenerProtocol;
    ListenerNameExactly(protocol, port.port, ListenerName(protocol, port.port));
    hide ListenerName;
    hide IsListenerName;
  }

  lemma PoolShapeOf(t: Settings, port: ServicePort)
    requires Balanced(port.protocol)
    ensures
      var s := PoolFor(t, port).spec;
      && s.Pool? && IsPoolName(port.protocol, port.name, s.name) && s.algorithm == t.algorithm
      && s.protocol == (if port.protocol == "UDP" then "udp" else t.protocol)
  {
    PoolNameExactly(ProtocolOf(port.protocol), port.name, PoolFor(t, port).spec.name);
    hide PoolNameOf;
    hide IsPoolName;
  }

  lemma MembersShape(t: Settings, servers: seq<Server>, port: ServicePort, members: seq<Item>)
    requires t.allowedSubnets.Some?
    requires members == MembersFor(AllAddresses(servers), t.allowedSubnets.value, port.nodePort, MonitorPort(t, port))
    ensures |members| == |EligibleAddresses(t, servers)|
    ensures forall k :: 0 <= k < |members| ==> Serves(t, port, EligibleAddresses(t, servers)[k], members[k])
  {
    hide Filter;
    hide PoolMemberName;
    hide IsMemberName;
    forall k | 0 <= k < |members|
      ensures Serves(t, port, EligibleAddresses(t, servers)[k], members[k])
    {
      MemberNameExactly(EligibleAddresses(t, servers)[k].at.address, port.nodePort, members[k].spec.name);
    }
  }

  lemma NodeShape(t: Settings, servers: seq<Server>, port: ServicePort, n: PoolNode)
    requires NodeFor(t, servers, port) == Success(n)
    ensures PoolOfPort(t, servers, port, n)
  {
    MonitorShape(t);
    ListenerShape(t, port);
    PoolShapeOf(t, port);
    MembersShape(t, servers, port, n.members);
    hide MonitorFor;
    hide ListenerFor;
    hide PoolFor;
    hide MembersFor;
    hide Monitors;
    hide ListensTo;
    hide Serves;
    hide EligibleAddresses;
    hide IsPoolName;
  }

  /** A successful call wants a load balancer with the name, the addresses, the flavor and the zone of the service,
      which is that of its servers if none is set, and has exactly one such pool for each port, in their order. */
  lemma DesiredShape(t: Settings, nodes: nat, servers: seq<Server>, ports: seq<ServicePort>, d: State)
    requires Desired(t, nodes, servers, ports) == Success(d)
    ensures d.lb.Some? && d.lb.value.name == t.name && Some(d.floatingIPs) == t.floatingIPs
    ensures Some(d.lb.value.vips) == t.vips && d.lb.value.flavor == t.flavor
    ensures if t.zone != "" then d.lb.value.zone == t.zone
            else d.lb.value.zone != "" && exists n: nat :: n < |servers| && AgreeFrom(servers, n, d.lb.value.zone)
    ensures |d.pools| == |ports| && forall i :: 0 <= i < |ports| ==> PoolOfPort(t, servers, ports[i], d.pools[i])
  {
    NodesShape(t, servers, ports);
    ZonesAgree(servers);
    hide PoolOfPort;
    hide ScanZones;
    hide AgreeFrom;
    hide NodesFor;
    forall i | 0 <= i < |ports|
      ensures PoolOfPort(t, servers, ports[i], d.pools[i])
    {
      NodeShape(t, servers, ports[i], d.pools[i]);
    }
  }

  // ---------------------------------------------------------------- which addresses

  /** The addresses of the interfaces of a server, one interface after the other. */
  lemma AddressesOfOne(zone: string, nics: seq<Nic>, nic: Nic)
    ensures AllAddresses([Server(zone, [])]) == []
    ensures AllAddresses([Server(zone, nics + [nic])])
         == AllAddresses([Server(zone, nics)]) + seq(|nic.addresses|, i requires 0 <= i < |nic.addresses| => Candidate(nic.kind, nic.addresses[i]))
  {
    OneServer(Server(zone, []));
    OneServer(Server(zone, nics));
    OneServer(Server(zone, nics + [nic]));
    FlatNil(OfNic);
    FlatLast(nics, nic, OfNic);
    hide Flat;
    hide AllAddresses;
  }

  lemma OneServer(s: Server)
    ensures AllAddresses([s]) == Flat(s.nics, OfNic)
  {
    FlatNil(OfServer);
    FlatLast([], s, OfServer);
    assert [] + [s] == [s];
    hide Flat;
  }

  /** All addresses are those of one server after the other. */
  lemma AddressesInOrder(a: seq<Server>, b: seq<Server>)
    ensures AllAddresses([]) == [] && AllAddresses(a + b) == AllAddresses(a) + AllAddresses(b)
  {
    FlatConcat(a, b, OfServer);
  }

  /** Traffic goes exactly to the addresses of interfaces that are not public, which have a subnet, and one that is
      allowed if any are named, in the order of all addresses. */
  lemma EligibleExactly(t: Settings, servers: seq<Server>)
    requires t.allowedSubnets.Some?
    ensures forall c :: c in EligibleAddresses(t, servers) <==>
      && c in AllAddresses(servers) && c.kind != "public" && c.at.subnet.uuid != ""
      && (t.allowedSubnets.value == [] || c.at.subnet.uuid in t.allowedSubnets.value)
    ensures forall before, after :: AllAddresses(servers) == before + after ==>
      EligibleAddresses(t, servers) == Filter(before, EligibleIn(t.allowedSubnets.value)) + Filter(after, EligibleIn(t.allowedSubnets.value))
  {
    var all, p := AllAddresses(servers), EligibleIn(t.allowedSubnets.value);
    hide AllAddresses;
    forall before, after | all == before + after
      ensures Filter(all, p) == Filter(before, p) + Filter(after, p)
    {
      FilterConcat(before, after, p);
    }
    hide Filter;
  }

  // ---------------------------------------------------------------- when there is a desired state

  ghost predicate ReadableForPorts(t: Settings) {
    && t.allowedSubnets.Some?
    && t.delayS.Some? && t.timeoutS.Some? && t.up.Some? && t.down.Some? && !t.http.Unreadable?
    && t.clientDataMS.Some? && t.memberConnectMS.Some? && t.memberDataMS.Some? && t.allowedCIDRs.Some?
  }

  ghost predicate ZoneKnown(t: Settings, servers: seq<Server>) {
    t.zone != "" || exists z, n: nat :: z != "" && n < |servers| && AgreeFrom(servers, n, z)
  }

  lemma NodeSucceeds(t: Settings, servers: seq<Server>, port: ServicePort)
    ensures NodeFor(t, servers, port).Success? <==> Balanced(port.protocol) && port.nodePort != 0 && ReadableForPorts(t)
  {
    hide MembersFor;
    hide AllAddresses;
    hide PoolNameOf;
    hide ListenerName;
  }

  lemma ZoneSucceeds(t: Settings, servers: seq<Server>)
    ensures ZoneFor(t.zone, servers).Success? <==> ZoneKnown(t, servers)
  {
    ZonesAgree(servers);
    hide ScanZones;
    hide AgreeFrom;
    if t.zone == "" {
      if ZoneFor(t.zone, servers).Success? {
        var z := ZoneFor(t.zone, servers).value;
        var n: nat :| n < |servers| && AgreeFrom(servers, n, z);
      }
      if ZoneKnown(t, servers) {
        var z, n: nat :| z != "" && n < |servers| && AgreeFrom(servers, n, z);
        assert ScanZones(servers) == Success(z);
      }
    }
  }

  /** There is a desired state exactly if nodes and servers match, a zone is set or the servers agree on
      one, all ports are TCP or UDP with a node port, and the annotations can be read: those that concern
      ports only if there are any. */
  lemma SucceedsExactly(t: Settings, nodes: nat, servers: seq<Server>, ports: seq<ServicePort>)
    ensures Desired(t, nodes, servers, ports).Success? <==>
      && nodes == |servers| && ZoneKnown(t, servers) && t.vips.Some? && t.floatingIPs.Some?
      && (ports != [] ==> ReadableForPorts(t))
      && forall i :: 0 <= i < |ports| ==> Balanced(ports[i].protocol) && ports[i].nodePort != 0
  {
    ZoneSucceeds(t, servers);
    NodesShape(t, servers, ports);
    forall i | 0 <= i < |ports|
      ensures NodeFor(t, servers, ports[i]).Success?
         <==> Balanced(ports[i].protocol) && ports[i].nodePort != 0 && ReadableForPorts(t)
    {
      NodeSucceeds(t, servers, ports[i]);
    }
    hide NodeFor;
    hide ZoneFor;
    hide ZoneKnown;
    hide ReadableForPorts;
    hide NodesFor;
    if ports != [] {
      assert NodeFor(t, servers, ports[0]).Success? <==> Balanced(ports[0].protocol) && ports[0].nodePort != 0 && ReadableForPorts(t);
    }
  }

  /** An annotation that cannot be read, by the name its error gives. */
  ghost predicate Unreadables(t: Settings, annotation: string) {
    || (annotation == "vip-addresses" && t.vips.None?) || (annotation == "floating-ips" && t.floatingIPs.None?)
    || (annotation == "allowed-subnets" && t.allowedSubnets.None?)
    || (annotation == "delay" && t.delayS.None?) || (annotation == "timeout" && t.timeoutS.None?)
    || (annotation == "up-threshold" && t.up.None?) || (annotation == "down-threshold" && t.down.None?)
    || (annotation == "http" && t.http.Unreadable?)
    || (annotation == "client-data" && t.clientDataMS.None?) || (annotation == "member-connect" && t.memberConnectMS.None?)
    || (annotation == "member-data" && t.memberDataMS.None?) || (annotation == "allowed-cidrs" && t.allowedCIDRs.None?)
  }

  /** What the error about a port says of it. */
  ghost predicate Faults(t: Settings, port: ServicePort, e: DesiredError) {
    match e
    case UnsupportedProtocol(p) => port.protocol == p && p != "TCP" && p != "UDP"
    case UnknownPort => port.nodePort == 0
    case Unparsable(a) => Unreadables(t, a)
    case _ => false
  }

  /** Nothing is wrong with the ports before one that is at fault. */
  ghost predicate FirstAtFault(t: Settings, servers: seq<Server>, ports: seq<ServicePort>, e: DesiredError) {
    exists i :: 0 <= i < |ports| && Faults(t, ports[i], e) && forall j :: 0 <= j < i ==> NodeFor(t, servers, ports[j]).Success?
  }

  lemma PortErrorTells(t: Settings, servers: seq<Server>, port: ServicePort, e: DesiredError)
    requires NodeFor(t, servers, port) == Failure(e)
    ensures Faults(t, port, e)
  {
    hide MembersFor;
    hide AllAddresses;
    hide PoolNameOf;
    hide ListenerName;
  }

  lemma {:induction false} FirstPortTells(t: Settings, servers: seq<Server>, ports: seq<ServicePort>, e: DesiredError)
    requires NodesFor(t, servers, ports) == Failure(e)
    ensures FirstAtFault(t, servers, ports, e)
  {
    hide NodeFor;
    hide Faults;
    var n := |ports| - 1;
    var init := ports[..n];
    NodesShape(t, servers, init);
    if NodesFor(t, servers, init).Failure? {
      FirstPortTells(t, servers, init, e);
      var i :| 0 <= i < |init| && Faults(t, init[i], e) && forall j :: 0 <= j < i ==> NodeFor(t, servers, init[j]).Success?;
      assert ports[i] == init[i];
      assert forall j :: 0 <= j < i ==> ports[j] == init[j];
    } else {
      PortErrorTells(t, servers, ports[n], e);
      assert forall j :: 0 <= j < n ==> ports[j] == init[j];
    }
  }

  lemma {:induction false} SeveralZonesTells(servers: seq<Server>)
    requires ScanZones(servers).Failure?
    ensures ScanZones(servers) == Failure(SeveralZones)
    ensures exists i, j :: 0 <= i < j < |servers| && servers[i].zone != "" && servers[i].zone != servers[j].zone
  {
    var n := |servers| - 1;
    var init := servers[..n];
    if ScanZones(init).Failure? {
      SeveralZonesTells(init);
      var i, j :| 0 <= i < j < |init| && init[i].zone != "" && init[i].zone != init[j].zone;
      assert servers[i] == init[i] && servers[j] == init[j];
    } else {
      ZonesAgree(init);
      var z := ScanZones(init).value;
      var k: nat :| k < |init| && AgreeFrom(init, k, z);
      assert init[k].zone == z && servers[k] == init[k];
    }
  }

  /** The error tells what is wrong, of ports the first thing. */
  lemma ErrorsTell(t: Settings, nodes: nat, servers: seq<Server>, ports: seq<ServicePort>, e: DesiredError)
    requires Desired(t, nodes, servers, ports) == Failure(e)
    ensures match e
      case BadMapping => nodes != |servers|
      case SeveralZones => t.zone == "" && exists i, j :: 0 <= i < j < |servers| && servers[i].zone != "" && servers[i].zone != servers[j].zone
      case NoZone => t.zone == "" && forall i :: 0 <= i < |servers| ==> servers[i].zone == ""
      case Unparsable(annotation) => Unreadables(t, annotation)
      case UnsupportedProtocol(_) => FirstAtFault(t, servers, ports, e)
      case UnknownPort => FirstAtFault(t, servers, ports, e)
  {
    hide NodeFor;
    if nodes == |servers| {
      if t.zone == "" && ScanZones(servers).Failure? {
        SeveralZonesTells(servers);
      } else {
        ZonesAgree(servers);
        hide ScanZones;
        if NodesFor(t, servers, ports) == Failure(e) {
          FirstPortTells(t, servers, ports, e);
        }
        hide NodesFor;
      }
    }
  }

  // ---------------------------------------------------------------- the reconciler can reach it

  /** As Kubernetes demands of the ports of a service. */
  ghost predicate PortsDiffer(ports: seq<ServicePort>) {
    forall i, j :: 0 <= i < j < |ports| ==> ports[i].protocol != ports[j].protocol || ports[i].name != ports[j].name
  }

  /** The cloud knows the subnets of these addresses as the servers report them. */
  ghost predicate SubnetsKnown(subnets: map<string, Subnet>, cs: seq<Candidate>) {
    forall c :: c in cs ==> c.at.subnet.uuid in subnets && subnets[c.at.subnet.uuid] == c.at.subnet
  }

  lemma PoolsDiffer(t: Settings, servers: seq<Server>, ports: seq<ServicePort>, pools: seq<PoolNode>)
    requires |pools| == |ports| && PortsDiffer(ports)
    requires forall i :: 0 <= i < |ports| ==> PoolOfPort(t, servers, ports[i], pools[i]) && Balanced(ports[i].protocol)
    ensures Distinct(pools, NodeName)
  {
    hide PoolNameOf;
    hide Serves;
    forall i, j | 0 <= i < j < |pools|
      ensures NodeName(pools[i]) != NodeName(pools[j])
    {
      assert PoolOfPort(t, servers, ports[i], pools[i]) && PoolOfPort(t, servers, ports[j], pools[j]);
      PoolNameExactly(ProtocolOf(ports[i].protocol), ports[i].name, NodeName(pools[i]));
      PoolNameExactly(ProtocolOf(ports[j].protocol), ports[j].name, NodeName(pools[j]));
      PoolNamesDiffer(ProtocolOf(ports[i].protocol), ports[i].name, ProtocolOf(ports[j].protocol), ports[j].name);
    }
  }

  lemma MemberFaithful(subnets: map<string, Subnet>, t: Settings, port: ServicePort, c: Candidate, m: Item)
    requires Serves(t, port, c, m)
    requires c.at.subnet.uuid in subnets && subnets[c.at.subnet.uuid] == c.at.subnet
    ensures Faithful(subnets, m.spec)
  {
    hide PoolMemberName;
  }

  lemma KindsOf(t: Settings, servers: seq<Server>, port: ServicePort, n: PoolNode)
    requires PoolOfPort(t, servers, port, n)
    ensures KindOf(n.pool.spec) == KPool && |n.listeners| == 1 && |n.monitors| == 1
    ensures KindOf(n.listeners[0].spec) == KListener && KindOf(n.monitors[0].spec) == KMonitor
  {
    hide EligibleAddresses;
    hide IsListenerName;
    hide IsPoolName;
    hide Serves;
  }

  lemma MembersFaithful(subnets: map<string, Subnet>, t: Settings, servers: seq<Server>, port: ServicePort, n: PoolNode)
    requires PoolOfPort(t, servers, port, n) && SubnetsKnown(subnets, EligibleAddresses(t, servers))
    ensures forall m :: m in n.members ==> KindOf(m.spec) == KMember && Faithful(subnets, m.spec)
  {
    var cs := EligibleAddresses(t, servers);
    hide EligibleAddresses;
    hide IsMemberName;
    hide IsPoolName;
    hide ListensTo;
    hide Monitors;
    hide KeyOf;
    hide Faithful;
    forall m | m in n.members
      ensures Faithful(subnets, m.spec) && KindOf(m.spec) == KMember
    {
      var k :| 0 <= k < |n.members| && n.members[k] == m;
      assert Serves(t, port, cs[k], m);
      assert cs[k] in cs && m.spec.Member?;
      MemberFaithful(subnets, t, port, cs[k], m);
    }
  }

  lemma OneOfKind(items: seq<Item>, kind: Kind)
    requires |items| == 1 && KindOf(items[0].spec) == kind
    ensures OfKind(items, kind) && Distinct(items, ItemKey)
  {
    hide KeyOf;
  }

  lemma WantedParts(subnets: map<string, Subnet>, n: PoolNode)
    requires KindOf(n.pool.spec) == KPool && OfKind(n.listeners, KListener) && OfKind(n.monitors, KMonitor)
    requires Distinct(n.listeners, ItemKey) && Distinct(n.monitors, ItemKey)
    requires forall m :: m in n.members ==> KindOf(m.spec) == KMember && Faithful(subnets, m.spec)
    ensures WantedNode(subnets, n)
  {
    hide Faithful;
    hide Distinct;
    hide KeyOf;
    hide KindOf;
  }

  lemma NodeWanted(subnets: map<string, Subnet>, t: Settings, servers: seq<Server>, port: ServicePort, n: PoolNode)
    requires PoolOfPort(t, servers, port, n) && SubnetsKnown(subnets, EligibleAddresses(t, servers))
    ensures WantedNode(subnets, n)
  {
    hide *;
    KindsOf(t, servers, port, n);
    MembersFaithful(subnets, t, servers, port, n);
    OneOfKind(n.listeners, KListener);
    OneOfKind(n.monitors, KMonitor);
    WantedParts(subnets, n);
  }

  /** The desired state of a service whose ports differ is one the reconciler can reach: its runs settle it. */
  lemma DesiredIsWanted(w: World, q: Query, t: Settings, nodes: nat, servers: seq<Server>, ports: seq<ServicePort>, d: State)
    requires Desired(t, nodes, servers, ports) == Success(d) && PortsDiffer(ports)
    requires t.name == q.name && q.name != ""
    requires t.allowedSubnets.Some? ==> SubnetsKnown(w.subnets, EligibleAddresses(t, servers))
    requires forall ip :: ip in d.floatingIPs ==> exists f :: f in w.fips && Address(f.network) == Address(ip)
    ensures Wanted(w, q, d)
  {
    DesiredShape(t, nodes, servers, ports, d);
    SucceedsExactly(t, nodes, servers, ports);
    hide Desired;
    hide Address;
    hide SubnetsKnown;
    hide EligibleAddresses;
    hide PoolNameOf;
    hide WantedNode;
    hide PoolOfPort;
    PoolsDiffer(t, servers, ports, d.pools);
    forall n | n in d.pools
      ensures WantedNode(w.subnets, n)
    {
      var k :| 0 <= k < |d.pools| && d.pools[k] == n;
      assert PoolOfPort(t, servers, ports[k], n);
      assert t.allowedSubnets.Some? by { OfPort(t, servers, ports[k], n); }
      NodeWanted(w.subnets, t, servers, ports[k], n);
    }
  }

  lemma OfPort(t: Settings, servers: seq<Server>, port: ServicePort, n: PoolNode)
    requires PoolOfPort(t, servers, port, n)
    ensures t.allowedSubnets.Some?
  {
  }

  // ---------------------------------------------------------------- no twins are asked for

  const CandidateAddress: Candidate -> string := (c: Candidate) => c.at.address

  lemma MembersApart(t: Settings, servers: seq<Server>, port: ServicePort, n: PoolNode)
    requires PoolOfPort(t, servers, port, n) && Distinct(EligibleAddresses(t, servers), CandidateAddress)
    ensures Distinct(n.members, ItemKey)
  {
    var cs := EligibleAddresses(t, servers);
    hide EligibleAddresses;
    hide PoolMemberName;
    hide PoolNameOf;
    forall i, j | 0 <= i < j < |n.members|
      ensures ItemKey(n.members[i]) != ItemKey(n.members[j])
    {
      assert Serves(t, port, cs[i], n.members[i]) && Serves(t, port, cs[j], n.members[j]);
      MemberNameExactly(cs[i].at.address, port.nodePort, n.members[i].spec.name);
      MemberNameExactly(cs[j].at.address, port.nodePort, n.members[j].spec.name);
      MemberNamesDiffer(cs[i].at.address, port.nodePort, cs[j].at.address, port.nodePort);
    }
  }

  lemma AlphabetOf(algorithms: set<string>, protocols: set<string>, t: Settings, servers: seq<Server>, port: ServicePort, n: PoolNode)
    requires PoolOfPort(t, servers, port, n) && t.algorithm in algorithms && t.protocol in protocols && "udp" in protocols
    ensures n.pool.spec.Pool? && FromAlphabets(algorithms, protocols, n.pool.spec) && t.allowedSubnets.Some?
  {
    hide EligibleAddresses;
    hide IsPoolName;
    hide ListensTo;
    hide Monitors;
    hide Serves;
  }

  /** The key of a pool tells its name, and the keys of its members tell them apart. */
  ghost predicate PlainNode(algorithms: set<string>, protocols: set<string>, n: PoolNode) {
    n.pool.spec.Pool? && NamedBy(k => NameBehind(algorithms, protocols, k), n.pool.spec) && Distinct(n.members, ItemKey)
  }

  lemma NodePlain(algorithms: set<string>, protocols: set<string>, t: Settings, servers: seq<Server>, port: ServicePort, n: PoolNode)
    requires PoolOfPort(t, servers, port, n) && t.algorithm in algorithms && t.protocol in protocols && "udp" in protocols
    requires TailsMeet(algorithms, protocols)
    requires t.allowedSubnets.Some? ==> Distinct(EligibleAddresses(t, servers), CandidateAddress)
    ensures PlainNode(algorithms, protocols, n)
  {
    AlphabetOf(algorithms, protocols, t, servers, port, n);
    KeysTellNames(algorithms, protocols, n.pool.spec);
    MembersApart(t, servers, port, n);
    hide PoolOfPort;
    hide TailsMeet;
    hide EligibleAddresses;
    hide Distinct;
    hide NamedBy;
  }

  lemma NodesPlain(algorithms: set<string>, protocols: set<string>, subnets: map<string, Subnet>, d: State)
    requires Distinct(d.pools, NodeName)
    requires forall n :: n in d.pools ==> WantedNode(subnets, n) && PlainNode(algorithms, protocols, n)
    ensures Plain(k => NameBehind(algorithms, protocols, k), subnets, d)
  {
    hide WantedNode;
    hide Distinct;
    hide NamedBy;
  }

  /** If no address occurs twice and pools have known algorithms and protocols, the keys of the desired
      state tell everything apart: a run for it leaves its mirror image. */
  lemma DesiredIsPlain(algorithms: set<string>, protocols: set<string>, w: World, q: Query,
                       t: Settings, nodes: nat, servers: seq<Server>, ports: seq<ServicePort>, d: State)
    requires Desired(t, nodes, servers, ports) == Success(d) && Wanted(w, q, d)
    requires TailsMeet(algorithms, protocols) && t.algorithm in algorithms && t.protocol in protocols && "udp" in protocols
    requires t.allowedSubnets.Some? ==> Distinct(EligibleAddresses(t, servers), CandidateAddress)
    ensures Plain(k => NameBehind(algorithms, protocols, k), w.subnets, d)
  {
    hide *;
    DesiredShape(t, nodes, servers, ports, d);
    WantedNodes(w, q, d);
    forall n | n in d.pools
      ensures PlainNode(algorithms, protocols, n)
    {
      var k :| 0 <= k < |d.pools| && d.pools[k] == n;
      NodePlain(algorithms, protocols, t, servers, ports[k], n);
    }
    NodesPlain(algorithms, protocols, w.subnets, d);
  }

  lemma WantedNodes(w: World, q: Query, d: State)
    requires Wanted(w, q, d)
    ensures Distinct(d.pools, NodeName) && forall n :: n in d.pools ==> WantedNode(w.subnets, n)
  {
    hide WantedNode;
    hide Distinct;
  }

  /** A service whose ports differ, whose eligible addresses differ, and whose pools have known algorithms
      and protocols, asks for `d`; the cloud knows its subnets and its floating IPs. */
  ghost predicate Asks(algorithms: set<string>, protocols: set<string>, w: World, q: Query,
                       s: Settings, servers: seq<Server>, ports: seq<ServicePort>, d: State) {
    && Desired(s, |servers|, servers, ports) == Success(d) && PortsDiffer(ports)
    && s.name == q.name && q.name != ""
    && (s.allowedSubnets.Some? ==>
         SubnetsKnown(w.subnets, EligibleAddresses(s, servers)) && Distinct(EligibleAddresses(s, servers), CandidateAddress))
    && (forall ip :: ip in d.floatingIPs ==> exists f :: f in w.fips && Address(f.network) == Address(ip))
    && TailsMeet(algorithms, protocols) && s.algorithm in algorithms && s.protocol in protocols && "udp" in protocols
  }

  ghost predicate Tidy(algorithms: set<string>, protocols: set<string>, w: World, q: Query) {
    Valid(w) && Apart(w, q, true) && KnownPools(k => NameBehind(algorithms, protocols, k), w, q)
  }

  /** From the service to the cloud: a run that ends leaves a load balancer that holds exactly what the
      service asks for. */
  lemma ServiceIsMirrored(algorithms: set<string>, protocols: set<string>, w: World, q: Query, turns: seq<Turn>, t: Turn,
                          s: Settings, servers: seq<Server>, ports: seq<ServicePort>, d: State, w1: World)
    requires Asks(algorithms, protocols, w, q, s, servers, ports, d) && Tidy(algorithms, protocols, w, q)
    requires Ends(w, q, d, turns, t, w1)
    ensures FoundIn(w1, q).Some? && Mirrors(w1, FoundIn(w1, q).value.id, d)
  {
    var names := k => NameBehind(algorithms, protocols, k);
    hide Desired;
    hide PortsDiffer;
    hide SubnetsKnown;
    hide EligibleAddresses;
    hide TailsMeet;
    hide Address;
    hide After;
    hide Ongoing;
    hide Planned;
    hide TurnResult;
    hide Valid;
    hide Apart;
    hide KnownPools;
    hide Wanted;
    hide Plain;
    hide Mirrors;
    hide FoundIn;
    hide NameBehind;
    DesiredIsWanted(w, q, s, |servers|, servers, ports, d);
    DesiredIsPlain(algorithms, protocols, w, q, s, |servers|, servers, ports, d);
    PlainParts(names, w.subnets, d);
    assert AllWanted(w, q, turns);
    hide Asks;
    hide Distinct;
    hide AllNamed;
    hide AllWanted;
    RunMirrors(names, w, q, turns, t);
  }

  lemma PlainParts(names: Key -> string, subnets: map<string, Subnet>, d: State)
    requires Plain(names, subnets, d)
    ensures AllNamed(names, d) && forall n :: n in d.pools ==> Distinct(n.members, ItemKey)
  {
  }

  lemma AsksReady(algorithms: set<string>, protocols: set<string>, w: World, q: Query,
                  s: Settings, servers: seq<Server>, ports: seq<ServicePort>, d: State)
    requires Asks(algorithms, protocols, w, q, s, servers, ports, d) && Tidy(algorithms, protocols, w, q)
    requires FindByServiceInfo(w.lbs, q).Success?
    requires FoundSuits(w, q, d)
    ensures Finishing.Ready(k => NameBehind(algorithms, protocols, k), w, q, d) && AllFaithful(w.subnets, d)
  {
    var names := k => NameBehind(algorithms, protocols, k);
    if FoundIn(w, q).Some? {
      RefusalExactly(d.lb.value, FoundIn(w, q).value);
    }
    hide Desired;
    hide PortsDiffer;
    hide SubnetsKnown;
    hide EligibleAddresses;
    hide TailsMeet;
    hide Address;
    hide Valid;
    hide Apart;
    hide KnownPools;
    hide Wanted;
    hide Plain;
    hide FindByServiceInfo;
    hide LbRefusal;
    hide Suits;
    hide NameBehind;
    hide AllNamed;
    hide Finishing.Fair;
    hide AllFaithful;
    DesiredIsWanted(w, q, s, |servers|, servers, ports, d);
    DesiredIsPlain(algorithms, protocols, w, q, s, |servers|, servers, ports, d);
    PlainParts(names, w.subnets, d);
    Finishing.FairFaithful(w, q, d);
  }

  /** And there is such a run, after which the service has its floating IPs as well: unless the lookup fails, or
      the load balancer that is found does not fit. */
  lemma ServiceIsProvisioned(algorithms: set<string>, protocols: set<string>, w: World, q: Query,
                             s: Settings, servers: seq<Server>, ports: seq<ServicePort>, d: State)
    returns (turns: seq<Turn>, t: Turn, w1: World)
    requires Asks(algorithms, protocols, w, q, s, servers, ports, d) && Tidy(algorithms, protocols, w, q)
    requires FindByServiceInfo(w.lbs, q).Success?
    requires FoundSuits(w, q, d)
    ensures Ends(w, q, d, turns, t, w1)
    ensures FoundIn(w1, q).Some? && Mirrors(w1, FoundIn(w1, q).value.id, d)
    ensures FipsSettled(w1.fips, d.floatingIPs, FoundIn(w1, q).value.id)
  {
    AsksReady(algorithms, protocols, w, q, s, servers, ports, d);
    hide Asks;
    hide Tidy;
    hide Finishing.Ready;
    hide AllFaithful;
    hide Mirrors;
    hide Settled;
    hide FipsSettled;
    hide FoundIn;
    hide FoundSuits;
    hide FindByServiceInfo;
    turns, t, w1 := Finishing.SomeEnd(k => NameBehind(algorithms, protocols, k), w, q, d);
    EndsCalmly(w, q, d, turns, t, w1);
    hide Ends;
    ServiceIsMirrored(algorithms, protocols, w, q, turns, t, s, servers, ports, d, w1);
    SettledFips(w1, FoundIn(w1, q).value, d);
  }

  lemma EndsCalmly(w: World, q: Query, d: State, turns: seq<Turn>, t: Turn, w1: World)
    requires Finishing.EndsIn(w, q, d, turns, t, w1)
    ensures Ends(w, q, d, turns, t, w1)
  {
    assert t in [t];
    hide Planned;
    hide TurnResult;
    hide Ongoing;
    hide After;
  }

  // ---------------------------------------------------------------- defaults

  /** The cloud stores the desired monitor as it is: every default it would fill in is filled in already. */
  lemma MonitorComplete(t: Settings, subnets: map<string, Subnet>)
    ensures MonitorFor(t).Success? ==> Stored(subnets, MonitorFor(t).value) == MonitorFor(t).value
    ensures MonitorFor(t).Success? && t.local ==>
      MonitorFor(t).value.kind == "http" && MonitorFor(t).value.http.Some?
      && (t.http.Unset? ==> MonitorFor(t).value.http.value.urlPath == "/livez" && KeyOf(MonitorFor(t).value) == MonitorKey("http", "1.0"))
  {
  }
}
