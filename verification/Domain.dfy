/** The entities of the load balancer reconciler: cloud resources, their keys, and load balancer states. */
module Domain {
  import opened Seqs

  /** Resource identities. One counter serves all kinds of resources; 0 is Go's empty UUID. */
  type Uuid = nat

  datatype Vip = Vip(address: string, subnet: string)

  datatype Lb = Lb(id: Uuid, name: string, vips: seq<Vip>, flavor: string, zone: string)

  /** `details` stands for the fields of a subnet stub other than its UUID. */
  datatype Subnet = Subnet(uuid: string, details: string)

  datatype Http = Http(verb: string, urlPath: string, version: string, host: Option<string>, expectedCodes: seq<string>)

  /** What a sub-resource of a load balancer is, apart from its identity and its owner. */
  datatype Spec =
    | Pool(name: string, algorithm: string, protocol: string)
    | Member(name: string, enabled: bool, address: string, subnet: Subnet, protocolPort: int, monitorPort: int)
    | Listener(name: string, protocol: string, protocolPort: int, allowedCIDRs: seq<string>,
               timeoutClientDataMS: int, timeoutMemberConnectMS: int, timeoutMemberDataMS: int)
    | Monitor(kind: string, http: Option<Http>, delayS: int, timeoutS: int, upThreshold: int, downThreshold: int)

  datatype Kind = KPool | KMember | KListener | KMonitor

  function KindOf(s: Spec): Kind {
    match s
    case Pool(_, _, _) => KPool
    case Member(_, _, _, _, _, _) => KMember
    case Listener(_, _, _, _, _, _, _) => KListener
    case Monitor(_, _, _, _, _, _) => KMonitor
  }

  /** Pools, and listeners without a pool, belong to a load balancer; everything else to a pool. */
  datatype Owner = OnLb(lb: Uuid) | InPool(pool: Uuid)

  datatype Item = Item(id: Uuid, owner: Owner, spec: Spec)

  /** A pool with what the maps of `lbState` hold for its pointer. */
  datatype PoolNode = PoolNode(pool: Item, members: seq<Item>, listeners: seq<Item>, monitors: seq<Item>)

  /** `lbState`, desired or actual, with the status the load balancer was fetched with. */
  datatype State = State(lb: Option<Lb>, status: string, pools: seq<PoolNode>, floatingIPs: seq<string>)

  // ---------------------------------------------------------------- keys

  /** The values that cause an item to be recreated when they differ. */
  datatype Key =
    | PoolKey(text: string)
    | MemberKey(name: string, enabled: bool, monitorPort: int, protocolPort: int, address: string, subnet: Subnet)
    | ListenerKey(name: string, protocol: string, protocolPort: int)
    | MonitorKey(kind: string, httpVersion: string)

  function HttpVersion(http: Option<Http>): string {
    if http.Some? && http.value.version != "" then http.value.version else "1.1"
  }

  function KeyOf(s: Spec): Key {
    match s
    case Pool(name, algorithm, protocol) => PoolKey(name + algorithm + protocol)
    case Member(name, enabled, address, subnet, protocolPort, monitorPort) =>
      MemberKey(name, enabled, monitorPort, protocolPort, address, subnet)
    case Listener(name, protocol, protocolPort, _, _, _, _) => ListenerKey(name, protocol, protocolPort)
    case Monitor(kind, http, _, _, _, _) => MonitorKey(kind, HttpVersion(http))
  }

  const ItemKey: Item -> Key := (i: Item) => KeyOf(i.spec)

  const NodeKey: PoolNode -> Key := (n: PoolNode) => KeyOf(n.pool.spec)

  /** The key `poolsByName` uses. */
  const NodeName: PoolNode -> string := (n: PoolNode) => if n.pool.spec.Pool? then n.pool.spec.name else ""

  const ItemId: Item -> Uuid := (i: Item) => i.id

  const LbId: Lb -> Uuid := (l: Lb) => l.id

  /** The part of an IP network before its first slash, as `strings.Cut` returns it. */
  function Address(ip: string): string {
    if ip == "" || ip[0] == '/' then "" else [ip[0]] + Address(ip[1..])
  }
}
