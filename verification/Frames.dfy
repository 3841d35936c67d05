/** What a run leaves alone: everything that does not belong to the load balancer of the service. */
module Frames {
  import opened Seqs
  import opened Domain
  import opened CloudWorld
  import Effects
  import opened Validity
  import opened FinalRounds

  ghost function OwnPools(items: seq<Item>, own: Uuid): set<Uuid> {
    set p | p in items && p.owner == OnLb(own) && p.spec.Pool? :: p.id
  }

  /** A resource that belongs to the load balancer `own`. Listeners without a pool count only if `all`. */
  ghost predicate Mine(pools: set<Uuid>, own: Uuid, all: bool, i: Item) {
    match i.owner
    case OnLb(lb) => lb == own && (all || i.spec.Pool?)
    case InPool(p) => p in pools
  }

  ghost function Foreign(items: seq<Item>, own: Uuid, all: bool): seq<Item> {
    Filter(items, i => !Mine(OwnPools(items, own), own, all, i))
  }

  ghost function OtherLbs(lbs: seq<Lb>, own: Uuid): seq<Lb> {
    Filter(lbs, (l: Lb) => l.id != own)
  }

  /** Floating IPs keep their network, and move only if requested, or when their load balancer `own` goes. */
  ghost predicate FipsFrame(fips: seq<Fip>, fips1: seq<Fip>, own: Uuid, all: bool, ips: set<string>) {
    && |fips1| == |fips|
    && forall k :: 0 <= k < |fips| ==>
      && fips1[k].network == fips[k].network
      && (Address(fips[k].network) !in ips ==>
           fips1[k].lb == fips[k].lb || (all && fips[k].lb == Some(own) && fips1[k].lb == None))
  }

  /** Everything but the load balancer `own` and what belongs to it is the same in both clouds; `ips`
      are the addresses requested for it. */
  ghost predicate Frame(w: World, w1: World, own: Uuid, all: bool, ips: set<string>) {
    && OtherLbs(w1.lbs, own) == OtherLbs(w.lbs, own)
    && Foreign(w1.items, own, all) == Foreign(w.items, own, all)
    && FipsFrame(w.fips, w1.fips, own, all, ips)
    && w1.subnets == w.subnets
    && w1.next >= w.next
  }

  lemma FrameTransitive(w: World, w1: World, w2: World, own: Uuid, all: bool, ips: set<string>)
    requires Frame(w, w1, own, all, ips) && Frame(w1, w2, own, all, ips)
    ensures Frame(w, w2, own, all, ips)
  {
    hide Foreign;
    hide OtherLbs;
  }

  // ---------------------------------------------------------------- one action

  /** `a` concerns only the load balancer `own` and resources with the identities `ids` below it. */
  ghost predicate Local(own: Uuid, all: bool, ids: set<Uuid>, ips: set<string>, a: Action) {
    match a
    case Refetch => true
    case AwaitLb(_) => true
    case Sleep(_) => true
    case CreateLb(_) => false
    case RenameLb(id, _) => id == own
    case DeleteResource(id) => id in ids || (all && id == own)
    case CreatePool(lb, _) => lb == own
    case CreatePoolMember(p, _) => p in ids
    case CreateListener(p, _) => p in ids
    case CreateHealthMonitor(p, _) => p in ids
    case AssignFloatingIP(ip, lb) => lb == own && Address(ip) in ips
    case _ => IsUpdate(a) && a.id in ids
  }

  /** The identities `ids`, as far as the cloud knows them, belong to `own`. */
  ghost predicate Owns(w: World, own: Uuid, ids: set<Uuid>) {
    && own < w.next && (forall i :: i in w.items ==> i.id != own)
    && (forall id :: id in ids ==> id < w.next && !HasLb(w.lbs, id))
    && forall i :: i in w.items && i.id in ids ==> Mine(OwnPools(w.items, own), own, false, i)
  }

  lemma GoneIsMine(w: World, own: Uuid, all: bool, id: Uuid, i: Item)
    requires Valid(w) && i in w.items && !Stays(i, {id})
    requires forall j :: j in w.items && j.id == id ==> Mine(OwnPools(w.items, own), own, false, j)
    ensures Mine(OwnPools(w.items, own), own, all, i)
  {
    if i.id != id {
      assert OwnerExists(w, i);
      var p :| p in w.items && p.id == id && p.spec.Pool?;
      assert OwnerExists(w, p);
      assert p.id in OwnPools(w.items, own);
    }
  }

  lemma DeleteMine(w: World, own: Uuid, all: bool, id: Uuid, i: Item)
    requires Valid(w) && i in Survivors(w.items, {id})
    ensures Mine(OwnPools(Survivors(w.items, {id}), own), own, all, i) <==> Mine(OwnPools(w.items, own), own, all, i)
  {
    var items1 := Survivors(w.items, {id});
    var ps, ps1 := OwnPools(w.items, own), OwnPools(items1, own);
    if i.owner.InPool? && i.owner.pool in ps {
      var p :| p in w.items && p.owner == OnLb(own) && p.spec.Pool? && p.id == i.owner.pool;
      assert p in items1;
    }
  }

  lemma DeleteFrame(w: World, own: Uuid, all: bool, id: Uuid)
    requires Valid(w)
    requires forall j :: j in w.items && j.id == id ==> Mine(OwnPools(w.items, own), own, false, j)
    ensures Foreign(Survivors(w.items, {id}), own, all) == Foreign(w.items, own, all)
  {
    var items1 := Survivors(w.items, {id});
    var ps, ps1 := OwnPools(w.items, own), OwnPools(items1, own);
    forall i | i in items1
      ensures Mine(ps1, own, all, i) <==> Mine(ps, own, all, i)
    {
      DeleteMine(w, own, all, id, i);
    }
    forall i | i in w.items && !Stays(i, {id})
      ensures Mine(ps, own, all, i)
    {
      GoneIsMine(w, own, all, id, i);
    }
    hide OwnPools;
    hide Mine;
    FilterSame(items1, i => !Mine(ps1, own, all, i), i => !Mine(ps, own, all, i));
    FilterTwice(w.items, i => Stays(i, {id}), i => !Mine(ps, own, all, i), i => !Mine(ps, own, all, i));
  }

  lemma InsertMine(w: World, own: Uuid, all: bool, i: Item, j: Item)
    requires Valid(w) && i.id == w.next && j in w.items
    ensures Mine(OwnPools(w.items + [i], own), own, all, j) <==> Mine(OwnPools(w.items, own), own, all, j)
  {
    assert OwnerExists(w, j);
    var ps, ps1 := OwnPools(w.items, own), OwnPools(w.items + [i], own);
    assert forall x :: x in ps ==> x in ps1;
    assert forall x :: x in ps1 ==> x in ps || x == i.id;
    if j.owner.InPool? {
      var p :| p in w.items && p.id == j.owner.pool && p.spec.Pool?;
    }
  }

  lemma InsertFrame(w: World, own: Uuid, all: bool, i: Item)
    requires Valid(w) && i.id == w.next
    requires Mine(OwnPools(w.items, own), own, all, i)
    ensures Foreign(w.items + [i], own, all) == Foreign(w.items, own, all)
  {
    var items1 := w.items + [i];
    var ps, ps1 := OwnPools(w.items, own), OwnPools(items1, own);
    forall j | j in w.items
      ensures Mine(ps1, own, all, j) <==> Mine(ps, own, all, j)
    {
      InsertMine(w, own, all, i, j);
    }
    assert forall p :: p in w.items ==> p in items1;
    assert forall x :: x in ps ==> x in ps1;
    FilterLast(w.items, i, j => !Mine(ps1, own, all, j));
    FilterSame(w.items, j => !Mine(ps1, own, all, j), j => !Mine(ps, own, all, j));
  }

  lemma UpdatedOne(i: Item, a: Action)
    ensures Revised(i, a).id == i.id && Revised(i, a).owner == i.owner && (Revised(i, a).spec.Pool? <==> i.spec.Pool?)
  {
    RevisedSame(i, a);
    hide Revised;
    assert KindOf(Revised(i, a).spec) == KindOf(i.spec);
  }

  lemma UpdatePools(items: seq<Item>, own: Uuid, a: Action)
    ensures OwnPools(Map(items, (i: Item) => Revised(i, a)), own) == OwnPools(items, own)
  {
    var items1 := Map(items, (i: Item) => Revised(i, a));
    assert forall k :: 0 <= k < |items| ==> items1[k] == Revised(items[k], a);
    hide Revised;
    hide Map;
    forall id | id in OwnPools(items, own)
      ensures id in OwnPools(items1, own)
    {
      var i :| i in items && i.owner == OnLb(own) && i.spec.Pool? && i.id == id;
      var k :| 0 <= k < |items| && items[k] == i;
      UpdatedOne(items[k], a);
      assert items1[k] in items1;
    }
    forall id | id in OwnPools(items1, own)
      ensures id in OwnPools(items, own)
    {
      var i :| i in items1 && i.owner == OnLb(own) && i.spec.Pool? && i.id == id;
      var k :| 0 <= k < |items1| && items1[k] == i;
      UpdatedOne(items[k], a);
      assert items[k] in items;
    }
  }

  lemma SameMine(pools: set<Uuid>, own: Uuid, all: bool, a: Action, i: Item)
    ensures Mine(pools, own, all, Revised(i, a)) == Mine(pools, own, all, i)
  {
    RevisedSame(i, a);
    hide Revised;
    assert KindOf(Revised(i, a).spec) == KindOf(i.spec);
  }

  lemma UpdateFrame(w: World, own: Uuid, all: bool, a: Action)
    requires IsUpdate(a)
    requires forall j :: j in w.items && j.id == a.id ==> Mine(OwnPools(w.items, own), own, false, j)
    ensures Foreign(Map(w.items, (i: Item) => Revised(i, a)), own, all) == Foreign(w.items, own, all)
  {
    var f := (i: Item) => Revised(i, a);
    var ps := OwnPools(w.items, own);
    UpdatePools(w.items, own, a);
    forall i { SameMine(ps, own, all, a, i); }
    hide Revised;
    hide OwnPools;
    FilterMap(w.items, f, i => !Mine(ps, own, all, i));
    var foreign := Foreign(w.items, own, all);
    forall k | 0 <= k < |foreign|
      ensures f(foreign[k]) == foreign[k]
    {
      assert foreign[k] in foreign;
      NotRevised(foreign[k], a);
    }
    assert Map(foreign, f) == foreign;
  }

  lemma NotRevised(i: Item, a: Action)
    requires !IsUpdate(a) || a.id != i.id
    ensures Revised(i, a) == i
  {
  }

  lemma LbDeleteFrame(w: World, own: Uuid, ips: set<string>)
    requires Valid(w)
    ensures Frame(w, WithoutLb(w, own), own, true, ips)
    ensures forall i :: i in WithoutLb(w, own).items ==> !Mine(OwnPools(w.items, own), own, false, i)
  {
    var w1 := WithoutLb(w, own);
    var ps := OwnPools(w.items, own);
    var pools := set i | i in w.items && i.owner == OnLb(own) && i.spec.Pool? :: i.id;
    assert pools == ps;
    FilterTwice(w.lbs, (l: Lb) => l.id != own, (l: Lb) => l.id != own, (l: Lb) => l.id != own);
    FilterSame(w.items, i => !Mine(ps, own, true, i),
               (i: Item) => i.owner != OnLb(own) && (i.owner.InPool? ==> i.owner.pool !in pools));
    assert OwnPools(w1.items, own) == {};
    FilterAll(w1.items, i => !Mine(OwnPools(w1.items, own), own, true, i));
  }

  lemma ItemsFrame(w: World, own: Uuid, all: bool, ips: set<string>, items1: seq<Item>, next: Uuid)
    requires Foreign(items1, own, all) == Foreign(w.items, own, all) && next >= w.next
    ensures Frame(w, w.(items := items1, next := next), own, all, ips)
  {
  }

  lemma NewPoolMine(w: World, own: Uuid, ids: set<Uuid>, p: Uuid)
    requires Valid(w) && Owns(w, own, ids) && p in ids && HasPool(w.items, p)
    ensures p in OwnPools(w.items, own)
  {
    var i :| i in w.items && i.id == p && i.spec.Pool?;
    assert OwnerExists(w, i);
  }

  lemma InsertOwns(w: World, own: Uuid, ids: set<Uuid>, i: Item)
    requires Valid(w) && Owns(w, own, ids) && i.id == w.next
    ensures Owns(w.(items := w.items + [i], next := w.next + 1), own, ids)
  {
    forall j | j in w.items
      ensures Mine(OwnPools(w.items + [i], own), own, false, j) <==> Mine(OwnPools(w.items, own), own, false, j)
    {
      InsertMine(w, own, false, i, j);
    }
    hide OwnPools;
  }

  lemma InsertStep(w: World, own: Uuid, all: bool, ids: set<Uuid>, ips: set<string>, owner: Owner, spec: Spec)
    requires Valid(w) && Owns(w, own, ids) && HasOwner(w, owner)
    requires (owner == OnLb(own) && spec.Pool?) || (owner.InPool? && owner.pool in ids)
    ensures
      var w1 := w.(items := w.items + [Item(w.next, owner, Stored(w.subnets, spec))], next := w.next + 1);
      Frame(w, w1, own, all, ips) && Owns(w1, own, ids)
  {
    var i := Item(w.next, owner, Stored(w.subnets, spec));
    if owner.InPool? {
      NewPoolMine(w, own, ids, owner.pool);
    }
    StoredPool(w.subnets, spec);
    hide Stored;
    InsertOwns(w, own, ids, i);
    hide Owns;
    assert Mine(OwnPools(w.items, own), own, all, i);
    InsertFrame(w, own, all, i);
    hide OwnPools;
    hide Foreign;
    ItemsFrame(w, own, all, ips, w.items + [i], w.next + 1);
  }

  lemma StoredPool(subnets: map<string, Subnet>, s: Spec)
    ensures Stored(subnets, s).Pool? <==> s.Pool?
  {
  }

  lemma DeleteStep(w: World, own: Uuid, all: bool, ids: set<Uuid>, ips: set<string>, id: Uuid)
    requires Valid(w) && Owns(w, own, ids) && id in ids && !HasLb(w.lbs, id)
    ensures
      var w1 := w.(items := Survivors(w.items, {id}));
      Frame(w, w1, own, all, ips) && Owns(w1, own, ids)
  {
    DeleteFrame(w, own, all, id);
    forall i | i in Survivors(w.items, {id})
      ensures Mine(OwnPools(Survivors(w.items, {id}), own), own, false, i) <==> Mine(OwnPools(w.items, own), own, false, i)
    {
      DeleteMine(w, own, false, id, i);
    }
  }

  lemma UpdateOwns(w: World, own: Uuid, ids: set<Uuid>, a: Action)
    requires Owns(w, own, ids)
    ensures Owns(w.(items := Map(w.items, (i: Item) => Revised(i, a))), own, ids)
  {
    var f := (i: Item) => Revised(i, a);
    UpdatePools(w.items, own, a);
    hide OwnPools;
    forall k | 0 <= k < |w.items|
      ensures Map(w.items, f)[k].id == w.items[k].id && w.items[k] in w.items
      ensures Mine(OwnPools(w.items, own), own, false, Map(w.items, f)[k]) == Mine(OwnPools(w.items, own), own, false, w.items[k])
    {
      RevisedSame(w.items[k], a);
      SameMine(OwnPools(w.items, own), own, false, a, w.items[k]);
    }
    hide Revised;
    hide Mine;
  }

  lemma UpdateStep(w: World, own: Uuid, all: bool, ids: set<Uuid>, ips: set<string>, a: Action)
    requires Owns(w, own, ids) && IsUpdate(a) && a.id in ids
    ensures
      var w1 := w.(items := Map(w.items, (i: Item) => Revised(i, a)));
      Frame(w, w1, own, all, ips) && Owns(w1, own, ids)
  {
    UpdateFrame(w, own, all, a);
    UpdateOwns(w, own, ids, a);
    hide Owns;
    hide Foreign;
  }

  lemma OwnsLbs(w: World, lbs: seq<Lb>, fips: seq<Fip>, own: Uuid, ids: set<Uuid>)
    requires Owns(w, own, ids) && forall id :: HasLb(lbs, id) <==> HasLb(w.lbs, id)
    ensures Owns(w.(lbs := lbs, fips := fips), own, ids)
  {
  }

  lemma RenameStep(w: World, own: Uuid, all: bool, ids: set<Uuid>, ips: set<string>, name: string)
    requires Owns(w, own, ids)
    ensures
      var w1 := w.(lbs := Renamed(w.lbs, own, name));
      Frame(w, w1, own, all, ips) && Owns(w1, own, ids)
  {
    var f := (l: Lb) => if l.id == own then l.(name := name) else l;
    var others := OtherLbs(w.lbs, own);
    Effects.RenameStep(w.lbs, own, name);
    OwnsLbs(w, Renamed(w.lbs, own, name), w.fips, own, ids);
    FilterMap(w.lbs, f, (l: Lb) => l.id != own);
    assert Map(others, f) == others by {
      assert forall k :: 0 <= k < |others| ==> others[k] in others;
    }
  }

  lemma DeleteOwnStep(w: World, own: Uuid, all: bool, ids: set<Uuid>, ips: set<string>, id: Uuid)
    requires Valid(w) && Owns(w, own, ids) && !HasLb(w.lbs, id)
    requires id in ids || id == own
    requires exists i :: i in w.items && i.id == id
    ensures
      var w1 := w.(items := Survivors(w.items, {id}));
      Frame(w, w1, own, all, ips) && Owns(w1, own, ids)
  {
    DeleteStep(w, own, all, ids, ips, id);
  }

  lemma AssignStep(w: World, own: Uuid, all: bool, ids: set<Uuid>, ips: set<string>, ip: string)
    requires Owns(w, own, ids) && Address(ip) in ips
    ensures
      var w1 := w.(fips := Assigned(w.fips, ip, own));
      Frame(w, w1, own, all, ips) && Owns(w1, own, ids)
  {
    OwnsLbs(w, w.lbs, Assigned(w.fips, ip, own), own, ids);
    hide Owns;
    hide Foreign;
    hide OtherLbs;
  }

  lemma FrameReflexive(w: World, own: Uuid, all: bool, ips: set<string>)
    ensures Frame(w, w, own, all, ips)
  {
  }

  lemma DeleteAction(w: World, own: Uuid, all: bool, ids: set<Uuid>, ips: set<string>, id: Uuid)
    requires Valid(w) && Owns(w, own, ids) && (id in ids || (all && id == own))
    requires Removal(w, id).Proceed?
    ensures
      var w1 := Removal(w, id).world;
      Frame(w, w1, own, all, ips) && Owns(w1, own, ids)
  {
    if HasLb(w.lbs, id) {
      LbDeleteFrame(w, own, ips);
      OwnsNothing(w, own, ids);
    } else {
      hide Survivors;
      hide Frame;
      hide WithoutLb;
      DeleteOwnStep(w, own, all, ids, ips, id);
    }
  }

  lemma OwnsNothing(w: World, own: Uuid, ids: set<Uuid>)
    requires Valid(w) && Owns(w, own, ids)
    ensures Owns(WithoutLb(w, own), own, ids)
  {
    LbDeleteFrame(w, own, {});
    forall id | id in ids
      ensures !HasLb(WithoutLb(w, own).lbs, id)
    {
    }
    hide OwnPools;
  }

  /** An action that is local to a load balancer leaves everything else alone. */
  lemma LocalStep(w: World, own: Uuid, all: bool, ids: set<Uuid>, ips: set<string>, a: Action)
    requires Valid(w) && Owns(w, own, ids) && Local(own, all, ids, ips, a)
    requires Apply(w, a).Proceed?
    ensures
      var w1 := Apply(w, a).world;
      Valid(w1) && Frame(w, w1, own, all, ips) && Owns(w1, own, ids)
  {
    ApplyValid(w, a);
    FrameReflexive(w, own, all, ips);
    hide Valid;
    hide Frame;
    hide Owns;
    hide Stored;
    hide Survivors;
    hide Revised;
    hide Removal;
    if IsUpdate(a) {
      UpdateStep(w, own, all, ids, ips, a);
    } else if Creation(a).Some? {
      InsertStep(w, own, all, ids, ips, Creation(a).value.0, Creation(a).value.1);
    } else if a.RenameLb? {
      RenameStep(w, own, all, ids, ips, a.name);
    } else if a.DeleteResource? {
      DeleteAction(w, own, all, ids, ips, a.id);
    } else if a.AssignFloatingIP? {
      AssignStep(w, own, all, ids, ips, a.ip);
    }
  }

  /** A batch of such actions, run to any point and whatever the cloud refuses, leaves everything else alone. */
  lemma {:induction false} LocalBatch(w: World, own: Uuid, all: bool, ids: set<Uuid>, ips: set<string>, b: seq<Action>)
    requires Valid(w) && Owns(w, own, ids)
    requires forall a :: a in b ==> Local(own, all, ids, ips, a)
    ensures
      var w1 := Exec(w, b).world;
      Valid(w1) && Frame(w, w1, own, all, ips) && Owns(w1, own, ids)
    decreases |b|
  {
    if b != [] && Apply(w, b[0]).Proceed? {
      var w1 := Apply(w, b[0]).world;
      assert b[0] in b;
      LocalStep(w, own, all, ids, ips, b[0]);
      hide Apply;
      hide Local;
      hide Owns;
      hide Valid;
      hide Frame;
      LocalBatch(w1, own, all, ids, ips, b[1..]);
      FrameTransitive(w, w1, Exec(w1, b[1..]).world, own, all, ips);
    }
  }
}
