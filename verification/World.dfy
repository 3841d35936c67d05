/** The cloud as a value, and what each action of pkg/internal/actions/actions.go does to it. */
module CloudWorld {
  import opened Seqs
  import opened Domain

  datatype Fip = Fip(network: string, lb: Option<Uuid>)

  /** `subnets` and `autoVip` are the subnets the cloud knows and the address it hands out unasked. */
  datatype World = World(lbs: seq<Lb>, items: seq<Item>, fips: seq<Fip>,
                         subnets: map<string, Subnet>, autoVip: string, next: Uuid)

  datatype Action =
    | Refetch
    | CreateLb(lb: Lb)
    | RenameLb(id: Uuid, name: string)
    | AwaitLb(status: string)
    | DeleteResource(id: Uuid)
    | Sleep(duration: nat)
    | CreatePool(lbId: Uuid, item: Item)
    | CreatePoolMember(poolId: Uuid, item: Item)
    | CreateListener(poolId: Uuid, item: Item)
    | CreateHealthMonitor(poolId: Uuid, item: Item)
    | UpdateListenerAllowedCIDRs(id: Uuid, cidrs: seq<string>)
    | UpdateListenerTimeout(id: Uuid, ms: int, field: string)
    | UpdateMonitorHTTPMethod(id: Uuid, text: string)
    | UpdateMonitorHTTPPath(id: Uuid, text: string)
    | UpdateMonitorHTTPHost(id: Uuid, host: Option<string>)
    | UpdateMonitorHTTPExpectedCodes(id: Uuid, codes: seq<string>)
    | UpdateMonitorNumber(id: Uuid, number: int, field: string)
    | AssignFloatingIP(ip: string, lbId: Uuid)

  /** An action lets the batch go on with a changed cloud, ends it, or is refused by the cloud. */
  datatype Outcome = Proceed(world: World) | Refresh | Refused

  // ---------------------------------------------------------------- listings

  ghost function LbIds(lbs: seq<Lb>): set<Uuid> {
    set l | l in lbs :: l.id
  }

  ghost function Ids(items: seq<Item>): set<Uuid> {
    set i | i in items :: i.id
  }

  predicate IsChild(i: Item, owner: Owner, kind: Kind) {
    i.owner == owner && KindOf(i.spec) == kind
  }

  /** The listing of one kind of resource under one owner. */
  function Children(items: seq<Item>, owner: Owner, kind: Kind): (r: seq<Item>)
    ensures forall i :: i in r <==> i in items && IsChild(i, owner, kind)
  {
    Filter(items, i => IsChild(i, owner, kind))
  }

  predicate HasLb(lbs: seq<Lb>, id: Uuid) {
    exists l :: l in lbs && l.id == id
  }

  predicate HasPool(items: seq<Item>, id: Uuid) {
    exists i :: i in items && i.id == id && i.spec.Pool?
  }

  predicate Stays(i: Item, gone: set<Uuid>) {
    i.id !in gone && (i.owner.InPool? ==> i.owner.pool !in gone)
  }

  /** What is left of a listing when the resources `gone` are deleted, each with what it owns. */
  function Survivors(items: seq<Item>, gone: set<Uuid>): (r: seq<Item>)
    ensures forall i :: i in r <==> i in items && Stays(i, gone)
  {
    Filter(items, i => Stays(i, gone))
  }

  // ---------------------------------------------------------------- effects

  function Filled(h: Http): Http {
    Http(if h.verb == "" then "GET" else h.verb,
         if h.urlPath == "" then "/" else h.urlPath,
         if h.version == "" then "1.1" else h.version,
         h.host,
         if h.expectedCodes == [] then ["200"] else h.expectedCodes)
  }

  /** What the cloud stores for a request made from `s`: requests name a subnet by UUID and do not
      say whether a member is enabled, and the cloud fills in the defaults of an HTTP block. */
  function Stored(subnets: map<string, Subnet>, s: Spec): Spec {
    match s
    case Member(_, _, _, subnet, _, _) =>
      s.(enabled := true, subnet := if subnet.uuid in subnets then subnets[subnet.uuid] else subnet)
    case Monitor(_, http, _, _, _, _) =>
      s.(http := if http.Some? then Some(Filled(http.value)) else None)
    case _ => s
  }

  predicate Known(subnets: map<string, Subnet>, s: Spec) {
    s.Member? ==> s.subnet.uuid in subnets
  }

  /** The owner and the specification a create action asks for. */
  function Creation(a: Action): Option<(Owner, Spec)> {
    match a
    case CreatePool(lb, i) => if i.spec.Pool? then Some((OnLb(lb), i.spec)) else None
    case CreatePoolMember(p, i) => if i.spec.Member? then Some((InPool(p), i.spec)) else None
    case CreateListener(p, i) => if i.spec.Listener? then Some((InPool(p), i.spec)) else None
    case CreateHealthMonitor(p, i) => if i.spec.Monitor? then Some((InPool(p), i.spec)) else None
    case _ => None
  }

  /** A specification after an update action; None if the action does not fit it. */
  function Revise(s: Spec, a: Action): Option<Spec> {
    match a
    case UpdateListenerAllowedCIDRs(_, cidrs) =>
      if s.Listener? then Some(s.(allowedCIDRs := cidrs)) else None
    case UpdateListenerTimeout(_, ms, field) =>
      if !s.Listener? then None
      else if field == "client-data-ms" then Some(s.(timeoutClientDataMS := ms))
      else if field == "member-connect-ms" then Some(s.(timeoutMemberConnectMS := ms))
      else if field == "member-data-ms" then Some(s.(timeoutMemberDataMS := ms))
      else None
    case UpdateMonitorHTTPMethod(_, text) =>
      if s.Monitor? && s.http.Some? then Some(s.(http := Some(s.http.value.(verb := text)))) else None
    case UpdateMonitorHTTPPath(_, text) =>
      if s.Monitor? && s.http.Some? then Some(s.(http := Some(s.http.value.(urlPath := text)))) else None
    case UpdateMonitorHTTPHost(_, host) =>
      if s.Monitor? && s.http.Some? then Some(s.(http := Some(s.http.value.(host := host)))) else None
    case UpdateMonitorHTTPExpectedCodes(_, codes) =>
      if s.Monitor? && s.http.Some? then Some(s.(http := Some(s.http.value.(expectedCodes := codes)))) else None
    case UpdateMonitorNumber(_, number, field) =>
      if !s.Monitor? then None
      else if field == "delay-s" then Some(s.(delayS := number))
      else if field == "timeout-s" then Some(s.(timeoutS := number))
      else if field == "up-threshold" then Some(s.(upThreshold := number))
      else if field == "down-threshold" then Some(s.(downThreshold := number))
      else None
    case _ => None
  }

  predicate IsUpdate(a: Action) {
    a.UpdateListenerAllowedCIDRs? || a.UpdateListenerTimeout? || a.UpdateMonitorHTTPMethod?
    || a.UpdateMonitorHTTPPath? || a.UpdateMonitorHTTPHost? || a.UpdateMonitorHTTPExpectedCodes?
    || a.UpdateMonitorNumber?
  }

  function Revised(i: Item, a: Action): Item {
    if IsUpdate(a) && a.id == i.id && Revise(i.spec, a).Some? then i.(spec := Revise(i.spec, a).value) else i
  }

  function Renamed(lbs: seq<Lb>, id: Uuid, name: string): seq<Lb> {
    Map(lbs, (l: Lb) => if l.id == id then l.(name := name) else l)
  }

  function Assigned(fips: seq<Fip>, ip: string, lb: Uuid): seq<Fip> {
    Map(fips, (f: Fip) => if Address(f.network) == Address(ip) then f.(lb := Some(lb)) else f)
  }

  function Granted(vips: seq<Vip>, auto: string): seq<Vip> {
    if vips == [] then [Vip(auto, "")]
    else Map(vips, (v: Vip) => if v.address == "" then v.(address := auto) else v)
  }

  /** Deleting a load balancer deletes everything under it and leaves its floating IPs unassigned. */
  function WithoutLb(w: World, id: Uuid): World {
    var pools := set i | i in w.items && i.owner == OnLb(id) && i.spec.Pool? :: i.id;
    w.(lbs := Filter(w.lbs, (l: Lb) => l.id != id),
       items := Filter(w.items, (i: Item) => i.owner != OnLb(id) && (i.owner.InPool? ==> i.owner.pool !in pools)),
       fips := Map(w.fips, (f: Fip) => if f.lb == Some(id) then f.(lb := None) else f))
  }

  /** The cloud refuses to delete what it does not have, and a pool that still has members. */
  function Removal(w: World, id: Uuid): Outcome {
    if HasLb(w.lbs, id) then Proceed(WithoutLb(w, id))
    else if !(exists i :: i in w.items && i.id == id) then Refused
    else if exists m :: m in w.items && m.owner == InPool(id) && m.spec.Member? then Refused
    else Proceed(w.(items := Survivors(w.items, {id})))
  }

  function Changed(w: World, a: Action): Outcome
    requires IsUpdate(a)
  {
    if exists i :: i in w.items && i.id == a.id && Revise(i.spec, a).Some?
    then Proceed(w.(items := Map(w.items, (i: Item) => Revised(i, a))))
    else Refused
  }

  predicate HasOwner(w: World, owner: Owner) {
    match owner
    case OnLb(lb) => HasLb(w.lbs, lb)
    case InPool(p) => HasPool(w.items, p)
  }

  function Insertion(w: World, owner: Owner, spec: Spec): Outcome {
    if Known(w.subnets, spec) && HasOwner(w, owner)
    then Proceed(w.(items := w.items + [Item(w.next, owner, Stored(w.subnets, spec))], next := w.next + 1))
    else Refused
  }

  function Apply(w: World, a: Action): Outcome {
    if IsUpdate(a) then Changed(w, a)
    else if Creation(a).Some? then Insertion(w, Creation(a).value.0, Creation(a).value.1)
    else match a
      case Refetch => Refresh
      case AwaitLb(status) => if status == "changing" then Refresh else Proceed(w)
      case Sleep(_) => Proceed(w)
      case CreateLb(lb) =>
        Proceed(w.(lbs := w.lbs + [lb.(id := w.next, vips := Granted(lb.vips, w.autoVip))], next := w.next + 1))
      case RenameLb(id, name) =>
        if HasLb(w.lbs, id) then Proceed(w.(lbs := Renamed(w.lbs, id, name))) else Refused
      case DeleteResource(id) => Removal(w, id)
      case AssignFloatingIP(ip, lb) =>
        if HasLb(w.lbs, lb) && exists f :: f in w.fips && Address(f.network) == Address(ip)
        then Proceed(w.(fips := Assigned(w.fips, ip, lb))) else Refused
      case _ => Refused
  }

  // ---------------------------------------------------------------- batches

  datatype Control = Finished | MustRefetch | Failed

  datatype Ran = Ran(world: World, control: Control)

  /** Runs a batch until an action asks for a refetch or is refused. */
  function Exec(w: World, b: seq<Action>): (r: Ran)
    decreases |b|
  {
    if b == [] then Ran(w, Finished) else
      match Apply(w, b[0])
      case Proceed(w1) => Exec(w1, b[1..])
      case Refresh => Ran(w, MustRefetch)
      case Refused => Ran(w, Failed)
  }

  lemma {:induction false} ExecConcat(w: World, a: seq<Action>, b: seq<Action>)
    ensures Exec(w, a + b) == if Exec(w, a).control == Finished then Exec(Exec(w, a).world, b) else Exec(w, a)
    decreases |a|
  {
    if a == [] {
      assert a + b == b;
    } else {
      assert (a + b)[1..] == a[1..] + b;
      match Apply(w, a[0])
      case Proceed(w1) => ExecConcat(w1, a[1..], b);
      case _ =>
    }
  }

  // ---------------------------------------------------------------- well-formed clouds

  const FipAddress: Fip -> string := (f: Fip) => Address(f.network)

  ghost predicate OwnerExists(w: World, i: Item) {
    match i.owner
    case OnLb(lb) => HasLb(w.lbs, lb) && (i.spec.Pool? || i.spec.Listener?)
    case InPool(p) => HasPool(w.items, p) && !i.spec.Pool?
  }

  /** Identities are unique over all resources and below the counter, owners exist, and no two
      floating IPs share an address. */
  ghost predicate Valid(w: World) {
    && w.next > 0
    && Distinct(w.lbs, LbId)
    && Distinct(w.items, ItemId)
    && (forall l :: l in w.lbs ==> 0 < l.id < w.next)
    && (forall i :: i in w.items ==> 0 < i.id < w.next && i.id !in LbIds(w.lbs))
    && (forall i :: i in w.items ==> OwnerExists(w, i))
    && Distinct(w.fips, FipAddress)
    && (forall u :: u in w.subnets ==> w.subnets[u].uuid == u)
  }

  lemma SameId(items: seq<Item>, i: Item, j: Item)
    requires Distinct(items, ItemId) && i in items && j in items && i.id == j.id
    ensures i == j
  {
    DistinctSame(items, ItemId, i, j);
  }
}
