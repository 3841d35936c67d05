/** One round of the reconciler: what it sees, the batch it plans, and that the cloud accepts the batch. */
module Rounds {
  import opened Seqs
  import opened Domain
  import opened CloudWorld
  import opened Effects
  import opened Planner
  import opened Lookup

  // ---------------------------------------------------------------- what a round sees

  function PoolsOf(items: seq<Item>, lb: Uuid): seq<Item> {
    Children(items, OnLb(lb), KPool)
  }

  function NodeOf(items: seq<Item>): Item -> PoolNode {
    (p: Item) => PoolNode(p, Children(items, InPool(p.id), KMember),
                          Children(items, InPool(p.id), KListener),
                          Children(items, InPool(p.id), KMonitor))
  }

  function NodesOf(items: seq<Item>, lb: Uuid): seq<PoolNode> {
    Map(PoolsOf(items, lb), NodeOf(items))
  }

  function NetworksOf(fips: seq<Fip>, lb: Uuid): seq<string> {
    Map(Filter(fips, (f: Fip) => f.lb == Some(lb)), (f: Fip) => f.network)
  }

  /** `actualLbState`: the found load balancer with everything under it. `status` is the state the
      cloud reports the load balancer in. */
  function Snapshot(w: World, found: Option<Lb>, status: string): State {
    if found.None? then State(None, "", [], [])
    else State(found, status, NodesOf(w.items, found.value.id), NetworksOf(w.fips, found.value.id))
  }

  // ---------------------------------------------------------------- desired states

  ghost predicate OfKind(items: seq<Item>, kind: Kind) {
    forall i :: i in items ==> KindOf(i.spec) == kind
  }

  /** What the cloud makes of the request has the key it was requested with. */
  ghost predicate Faithful(subnets: map<string, Subnet>, s: Spec) {
    Known(subnets, s) && KeyOf(Stored(subnets, s)) == KeyOf(s)
  }

  /** All desired members are reported back as requested. */
  ghost predicate AllFaithful(subnets: map<string, Subnet>, d: State) {
    forall n, m :: n in d.pools && m in n.members ==> Faithful(subnets, m.spec)
  }

  /** A desired pool with what is desired in it. */
  ghost predicate ProperNode(n: PoolNode) {
    && KindOf(n.pool.spec) == KPool
    && OfKind(n.members, KMember) && OfKind(n.listeners, KListener) && OfKind(n.monitors, KMonitor)
  }

  ghost predicate WantedNode(subnets: map<string, Subnet>, n: PoolNode) {
    && ProperNode(n)
    && Distinct(n.listeners, ItemKey) && Distinct(n.monitors, ItemKey)
    && forall m :: m in n.members ==> Faithful(subnets, m.spec)
  }

  /** A desired state the reconciler can reach: pools with distinct names, listeners and monitors of
      a pool with distinct keys, and members that the cloud reports back as they were requested. */
  ghost predicate Wanted(w: World, q: Query, d: State) {
    && d.lb.Some? && d.lb.value.name == q.name && q.name != ""
    && Distinct(d.pools, NodeName)
    && (forall n :: n in d.pools ==> WantedNode(w.subnets, n))
    && (forall ip :: ip in d.floatingIPs ==> exists f :: f in w.fips && Address(f.network) == Address(ip))
  }

  // ---------------------------------------------------------------- properties of the snapshot

  lemma NodesIn(items: seq<Item>, lb: Uuid)
    ensures forall n :: n in NodesOf(items, lb) <==> n.pool in PoolsOf(items, lb) && n == NodeOf(items)(n.pool)
    ensures forall n :: n in NodesOf(items, lb) ==> n.pool in items && n.pool.owner == OnLb(lb) && n.pool.spec.Pool?
  {
    var ps, f := PoolsOf(items, lb), NodeOf(items);
    var ns := NodesOf(items, lb);
    assert forall k :: 0 <= k < |ps| ==> ns[k] == f(ps[k]) && f(ps[k]).pool == ps[k];
    forall n: PoolNode | n.pool in ps && n == f(n.pool)
      ensures n in ns
    {
      var k :| 0 <= k < |ps| && ps[k] == n.pool;
      assert ns[k] == n;
    }
  }

  lemma ChildrenConcat(a: seq<Item>, b: seq<Item>, owner: Owner, kind: Kind)
    ensures Children(a + b, owner, kind) == Children(a, owner, kind) + Children(b, owner, kind)
  {
    FilterConcat(a, b, i => IsChild(i, owner, kind));
  }

  lemma ChildrenSurvive(items: seq<Item>, gone: set<Uuid>, owner: Owner, kind: Kind)
    ensures Children(Survivors(items, gone), owner, kind) == Survivors(Children(items, owner, kind), gone)
  {
    var p, q := i => Stays(i, gone), i => IsChild(i, owner, kind);
    var both := i => Stays(i, gone) && IsChild(i, owner, kind);
    FilterTwice(items, p, q, both);
    FilterTwice(items, q, p, both);
  }

  // ---------------------------------------------------------------- the cloud accepts the batch

  lemma OpeningSound(w: World, d: Lb, status: string, a: Lb)
    requires HasLb(w.lbs, a.id)
    ensures Sound(w, {}, {}, Opening(d, status, a))
    ensures status != "changing" ==> AllSmooth(w.subnets, Opening(d, status, a))
    ensures Dels(Opening(d, status, a)) == {} && Busy(Opening(d, status, a)) == {}
  {
  }

  lemma DeletionOfLast(items: seq<Item>, i: Item)
    ensures Deletions(items + [i]) == Deletions(items) + [DeleteResource(i.id), Sleep(500)]
    ensures Dels([DeleteResource(i.id), Sleep(500)]) == {i.id} && Busy([DeleteResource(i.id), Sleep(500)]) == {}
  {
    FlatLast(items, i, Deletion);
    assert DeleteResource(i.id) in [DeleteResource(i.id), Sleep(500)];
  }

  lemma DeletionSound(w: World, gone: set<Uuid>, busy: set<Uuid>, i: Item)
    requires Allowed(w, gone, busy, DeleteResource(i.id))
    ensures Sound(w, gone, busy, [DeleteResource(i.id), Sleep(500)])
  {
    var b := [DeleteResource(i.id), Sleep(500)];
    hide Allowed;
    assert b[..0] == [];
    assert gone + Dels([]) == gone && busy + Busy([]) == busy;
    assert Allowed(w, gone + Dels(b[..1]), busy + Busy(b[..1]), b[1]) by {
      AlwaysSleep(w, gone + Dels(b[..1]), busy + Busy(b[..1]), 500);
    }
  }

  lemma AlwaysSleep(w: World, gone: set<Uuid>, busy: set<Uuid>, ms: nat)
    ensures Allowed(w, gone, busy, Sleep(ms))
  {
  }

  /** Nothing but a pool has members. */
  lemma OnlyPoolsOwn(w: World, i: Item, m: Item)
    requires Valid(w) && i in w.items && m in w.items && m.owner == InPool(i.id)
    ensures i.spec.Pool?
  {
    assert OwnerExists(w, m);
    var p :| p in w.items && p.id == i.id && p.spec.Pool?;
    SameId(w.items, p, i);
  }

  lemma OwnsOnlyIfPool(w: World, i: Item)
    requires Valid(w) && i in w.items
    ensures (exists m :: m in w.items && m.owner == InPool(i.id)) ==> i.spec.Pool?
  {
    if m :| m in w.items && m.owner == InPool(i.id) {
      OnlyPoolsOwn(w, i, m);
    }
  }

  ghost predicate ChildrenOnly(w: World, items: seq<Item>) {
    && Distinct(items, ItemId)
    && forall i :: i in items ==> i in w.items && !i.spec.Pool? && i.owner.InPool?
  }

  lemma {:induction false} DeletionsSound(w: World, gone: set<Uuid>, busy: set<Uuid>, items: seq<Item>)
    requires Valid(w) && ChildrenOnly(w, items)
    requires forall i :: i in items ==> i.id !in gone && i.owner.pool !in gone && i.id !in busy
    ensures Sound(w, gone, busy, Deletions(items))
    ensures Dels(Deletions(items)) == Ids(items) && Busy(Deletions(items)) == {}
  {
    if items != [] {
      var init, i := items[..|items| - 1], items[|items| - 1];
      assert items == init + [i];
      DeletionsSound(w, gone, busy, init);
      DeletionOfLast(init, i);
      DelsConcat(Deletions(init), [DeleteResource(i.id), Sleep(500)]);
      hide Deletions;
      var gone1 := gone + Ids(init);
      assert i.id !in Ids(init);
      assert OwnerExists(w, i);
      forall j | j in init
        ensures j.id != i.owner.pool
      {
        if j.id == i.owner.pool {
          OnlyPoolsOwn(w, j, i);
        }
      }
      OwnsOnlyIfPool(w, i);
      assert Allowed(w, gone1, busy, DeleteResource(i.id));
      hide Allowed;
      DeletionSound(w, gone1, busy, i);
      assert busy + {} == busy;
      SoundConcat(w, gone, busy, Deletions(init), [DeleteResource(i.id), Sleep(500)]);
      assert Ids(items) == Ids(init) + {i.id};
    }
  }

  // pools

  ghost function NodeIds(n: PoolNode): set<Uuid> {
    Ids(n.members) + {n.pool.id}
  }

  /** A node of the snapshot: what is listed under it, and that it can be deleted as a whole. */
  lemma NodeFacts(w: World, lb: Uuid, n: PoolNode)
    requires Valid(w) && n in NodesOf(w.items, lb)
    ensures n.pool in w.items && n.pool.spec.Pool? && n.pool.owner == OnLb(lb)
    ensures n.members == Children(w.items, InPool(n.pool.id), KMember)
    ensures n.listeners == Children(w.items, InPool(n.pool.id), KListener)
    ensures n.monitors == Children(w.items, InPool(n.pool.id), KMonitor)
    ensures ChildrenOnly(w, n.members)
  {
    NodesIn(w.items, lb);
    FilterDistinct(w.items, i => IsChild(i, InPool(n.pool.id), KMember), ItemId);
  }

  lemma PoolDeletable(w: World, lb: Uuid, gone: set<Uuid>, n: PoolNode)
    requires Valid(w) && n in NodesOf(w.items, lb)
    requires n.pool.id !in gone
    ensures Allowed(w, gone + Ids(n.members), {}, DeleteResource(n.pool.id))
  {
    NodeFacts(w, lb, n);
    hide NodesOf;
    var gone1 := gone + Ids(n.members);
    forall i | i in n.members
      ensures i.id != n.pool.id
    {
      if i.id == n.pool.id { SameId(w.items, i, n.pool); }
    }
    assert Stays(n.pool, gone1);
    forall m | m in w.items && m.owner == InPool(n.pool.id) && m.spec.Member?
      ensures m.id in gone1
    {
      assert IsChild(m, InPool(n.pool.id), KMember);
      assert m in Children(w.items, InPool(n.pool.id), KMember);
    }
  }

  lemma PoolRemovalSound(w: World, lb: Uuid, gone: set<Uuid>, n: PoolNode)
    requires Valid(w) && n in NodesOf(w.items, lb)
    requires NodeIds(n) !! gone
    ensures Sound(w, gone, {}, PoolRemoval(n))
    ensures Dels(PoolRemoval(n)) == NodeIds(n) && Busy(PoolRemoval(n)) == {}
  {
    NodeFacts(w, lb, n);
    assert n.pool.id in NodeIds(n);
    forall i | i in n.members
      ensures i.id !in gone && i.owner.InPool? && i.owner.pool !in gone
    {
      assert i.id in Ids(n.members);
    }
    DeletionsSound(w, gone, {}, n.members);
    DeletionOfLast(n.members, n.pool);
    DelsConcat(Deletions(n.members), [DeleteResource(n.pool.id), Sleep(500)]);
    PoolDeletable(w, lb, gone, n);
    hide NodesOf;
    hide Children;
    hide Deletions;
    hide Allowed;
    hide Sound;
    hide Valid;
    hide Dels;
    hide Busy;
    DeletionSound(w, gone + Ids(n.members), {}, n.pool);
    assert {} + {} == Busy(Deletions(n.members));
    SoundConcat(w, gone, {}, Deletions(n.members), [DeleteResource(n.pool.id), Sleep(500)]);
  }

  ghost function Union<T(!new)>(s: seq<T>, f: T -> set<Uuid>): set<Uuid> {
    set x, id | x in s && id in f(x) :: id
  }

  lemma UnionLast<T(!new)>(s: seq<T>, x: T, f: T -> set<Uuid>)
    ensures Union(s + [x], f) == Union(s, f) + f(x)
  {
    assert forall y :: y in s + [x] <==> y in s || y == x;
  }

  ghost const IdsOfNode: PoolNode -> set<Uuid> := (n: PoolNode) => NodeIds(n)

  lemma PoolsApart(w: World, lb: Uuid, n: PoolNode, m: PoolNode)
    requires Valid(w) && n in NodesOf(w.items, lb) && m in NodesOf(w.items, lb) && n != m
    ensures n.pool.id != m.pool.id
  {
    NodesIn(w.items, lb);
    hide NodesOf;
    if n.pool.id == m.pool.id {
      SameId(w.items, n.pool, m.pool);
    }
  }

  ghost predicate PartOf(n: PoolNode, i: Item) {
    i == n.pool || i in n.members
  }

  lemma PartFacts(w: World, lb: Uuid, n: PoolNode, i: Item)
    requires Valid(w) && n in NodesOf(w.items, lb) && PartOf(n, i)
    ensures i in w.items && (if i.spec.Pool? then i == n.pool else i.owner == InPool(n.pool.id))
  {
    NodeFacts(w, lb, n);
    hide NodesOf;
  }

  lemma PartsApart(w: World, lb: Uuid, n: PoolNode, m: PoolNode, x: Item, y: Item)
    requires Valid(w) && n in NodesOf(w.items, lb) && m in NodesOf(w.items, lb) && n != m
    requires PartOf(n, x) && PartOf(m, y)
    ensures x.id != y.id
  {
    PoolsApart(w, lb, n, m);
    PartFacts(w, lb, n, x);
    PartFacts(w, lb, m, y);
    hide NodesOf;
    if x.id == y.id {
      SameId(w.items, x, y);
    }
  }

  lemma PartIds(n: PoolNode)
    ensures forall id :: id in NodeIds(n) <==> exists x :: PartOf(n, x) && x.id == id
  {
    assert PartOf(n, n.pool);
  }

  /** Different pools of a snapshot share neither their identity nor their members. */
  lemma NodesDisjoint(w: World, lb: Uuid, n: PoolNode, m: PoolNode)
    requires Valid(w) && n in NodesOf(w.items, lb) && m in NodesOf(w.items, lb) && n != m
    ensures NodeIds(n) !! NodeIds(m)
  {
    hide *;
    forall x, y | PartOf(n, x) && PartOf(m, y)
      ensures x.id != y.id
    {
      PartsApart(w, lb, n, m, x, y);
    }
    PartIds(n);
    PartIds(m);
  }

  lemma RemovalsApart(w: World, lb: Uuid, init: seq<PoolNode>, n: PoolNode)
    requires Valid(w) && Distinct(init + [n], NodeKey) && forall m :: m in init + [n] ==> m in NodesOf(w.items, lb)
    ensures Distinct(init, NodeKey) && (forall m :: m in init ==> m in NodesOf(w.items, lb)) && n in NodesOf(w.items, lb)
    ensures Union(init, IdsOfNode) !! NodeIds(n)
  {
    var nodes := init + [n];
    assert forall k :: 0 <= k < |init| ==> nodes[k] == init[k];
    assert nodes[|init|] == n && n in nodes && forall m :: m in init ==> m in nodes;
    hide NodesOf;
    hide KeyOf;
    forall m | m in init
      ensures NodeIds(m) !! NodeIds(n)
    {
      var k :| 0 <= k < |init| && init[k] == m;
      assert NodeKey(nodes[k]) != NodeKey(nodes[|init|]);
      NodesDisjoint(w, lb, m, n);
    }
    hide NodeIds;
  }

  lemma {:induction false} PoolRemovalsSound(w: World, lb: Uuid, nodes: seq<PoolNode>)
    requires Valid(w) && Distinct(nodes, NodeKey)
    requires forall n :: n in nodes ==> n in NodesOf(w.items, lb)
    ensures Sound(w, {}, {}, Flat(nodes, PoolRemoval))
    ensures Dels(Flat(nodes, PoolRemoval)) == Union(nodes, IdsOfNode) && Busy(Flat(nodes, PoolRemoval)) == {}
  {
    if nodes != [] {
      var init, n := nodes[..|nodes| - 1], nodes[|nodes| - 1];
      assert nodes == init + [n];
      RemovalsApart(w, lb, init, n);
      hide Flat;
      hide NodesOf;
      hide NodeIds;
      hide Valid;
      hide Sound;
      hide Distinct;
      hide PoolRemoval;
      PoolRemovalsSound(w, lb, init);
      FlatLast(init, n, PoolRemoval);
      UnionLast(init, n, IdsOfNode);
      PoolRemovalSound(w, lb, Union(init, IdsOfNode), n);
      DelsConcat(Flat(init, PoolRemoval), PoolRemoval(n));
      assert {} + Union(init, IdsOfNode) == Union(init, IdsOfNode) && {} + {} == Busy(Flat(init, PoolRemoval));
      SoundConcat(w, {}, {}, Flat(init, PoolRemoval), PoolRemoval(n));
    }
  }

  // creations

  lemma CreationsSound(w: World, gone: set<Uuid>, busy: set<Uuid>, b: seq<Action>, owner: Owner)
    requires forall a :: a in b ==> Creation(a).Some? && Creation(a).value.0 == owner
    requires HasOwner(w, owner) && (owner.InPool? ==> owner.pool !in gone)
    ensures Sound(w, gone, busy, b)
    ensures Dels(b) == {} && Busy(b) <= if owner.InPool? then {owner.pool} else {}
  {
    assert forall a :: a in b ==> !a.DeleteResource?;
    assert Dels(b) == {};
    forall k | 0 <= k < |b|
      ensures Allowed(w, gone + Dels(b[..k]), busy + Busy(b[..k]), b[k])
    {
      assert b[k] in b;
      assert forall a :: a in b[..k] ==> a in b;
      assert Dels(b[..k]) == {};
    }
  }
}
