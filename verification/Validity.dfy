/** Every action keeps a cloud well formed. */
module Validity {
  import opened Seqs
  import opened Domain
  import opened CloudWorld

  lemma RenamedIds(lbs: seq<Lb>, id: Uuid, name: string)
    ensures LbIds(Renamed(lbs, id, name)) == LbIds(lbs)
  {
    var r := Renamed(lbs, id, name);
    assert forall k :: 0 <= k < |lbs| ==> r[k].id == lbs[k].id && r[k] in r && lbs[k] in lbs;
  }

  lemma LbIdsHas(lbs: seq<Lb>, id: Uuid)
    ensures id in LbIds(lbs) <==> HasLb(lbs, id)
  {
  }

  lemma RenameValid(w: World, id: Uuid, name: string)
    requires Valid(w)
    ensures Valid(w.(lbs := Renamed(w.lbs, id, name)))
  {
    var w1 := w.(lbs := Renamed(w.lbs, id, name));
    RenamedIds(w.lbs, id, name);
    forall i | i in w1.items
      ensures OwnerExists(w1, i)
    {
      assert OwnerExists(w, i);
      if i.owner.OnLb? {
        LbIdsHas(w.lbs, i.owner.lb);
        LbIdsHas(w1.lbs, i.owner.lb);
      }
    }
    assert forall l :: l in w1.lbs ==> exists k :: 0 <= k < |w.lbs| && w1.lbs[k] == l && w.lbs[k] in w.lbs;
  }

  lemma CreateLbValid(w: World, lb: Lb)
    requires Valid(w)
    ensures Valid(Apply(w, CreateLb(lb)).world)
  {
    var w1 := Apply(w, CreateLb(lb)).world;
    forall i | i in w1.items
      ensures OwnerExists(w1, i) && i.id !in LbIds(w1.lbs)
    {
      assert OwnerExists(w, i);
      assert forall l :: l in w.lbs ==> l in w1.lbs && l.id in LbIds(w.lbs);
    }
  }

  lemma SurvivorsValid(w: World, id: Uuid)
    requires Valid(w)
    ensures Valid(w.(items := Survivors(w.items, {id})))
  {
    var w1 := w.(items := Survivors(w.items, {id}));
    FilterDistinct(w.items, i => Stays(i, {id}), ItemId);
    forall i | i in w1.items
      ensures OwnerExists(w1, i)
    {
      assert OwnerExists(w, i);
      if i.owner.InPool? {
        var p :| p in w.items && p.id == i.owner.pool && p.spec.Pool?;
        assert OwnerExists(w, p);
        assert p in w1.items;
      }
    }
  }

  lemma WithoutLbValid(w: World, id: Uuid)
    requires Valid(w)
    ensures Valid(WithoutLb(w, id))
  {
    var w1 := WithoutLb(w, id);
    var pools := set i | i in w.items && i.owner == OnLb(id) && i.spec.Pool? :: i.id;
    FilterDistinct(w.items, (i: Item) => i.owner != OnLb(id) && (i.owner.InPool? ==> i.owner.pool !in pools), ItemId);
    FilterDistinct(w.lbs, (l: Lb) => l.id != id, LbId);
    assert forall l :: l in w1.lbs ==> l in w.lbs;
    forall i | i in w1.items
      ensures OwnerExists(w1, i) && i.id !in LbIds(w1.lbs)
    {
      assert OwnerExists(w, i);
      if i.owner.InPool? {
        var p :| p in w.items && p.id == i.owner.pool && p.spec.Pool?;
        assert OwnerExists(w, p);
        assert p in w1.items;
      } else {
        var l :| l in w.lbs && l.id == i.owner.lb;
        assert l in w1.lbs;
      }
    }
  }

  lemma InsertValid(w: World, owner: Owner, spec: Spec)
    requires Valid(w) && HasOwner(w, owner)
    requires owner.OnLb? ==> spec.Pool?
    requires owner.InPool? ==> !spec.Pool?
    ensures Valid(w.(items := w.items + [Item(w.next, owner, spec)], next := w.next + 1))
  {
    var w1 := w.(items := w.items + [Item(w.next, owner, spec)], next := w.next + 1);
    forall i | i in w1.items
      ensures OwnerExists(w1, i) && i.id !in LbIds(w1.lbs)
    {
      assert i in w.items ==> OwnerExists(w, i);
      assert forall p :: p in w.items ==> p in w1.items;
    }
  }

  lemma RevisedSame(i: Item, a: Action)
    ensures Revised(i, a).id == i.id && Revised(i, a).owner == i.owner
    ensures KindOf(Revised(i, a).spec) == KindOf(i.spec) && KeyOf(Revised(i, a).spec) == KeyOf(i.spec)
  {
  }

  lemma UpdateValid(w: World, a: Action)
    requires Valid(w)
    ensures Valid(w.(items := Map(w.items, (i: Item) => Revised(i, a))))
  {
    hide Revised;
    var w1 := w.(items := Map(w.items, (i: Item) => Revised(i, a)));
    forall i: Item { RevisedSame(i, a); }
    forall k | 0 <= k < |w.items|
      ensures OwnerExists(w1, w1.items[k]) && 0 < w1.items[k].id < w1.next && w1.items[k].id !in LbIds(w1.lbs)
    {
      var i := w.items[k];
      assert i in w.items;
      assert OwnerExists(w, i);
      if i.owner.InPool? {
        var p :| p in w.items && p.id == i.owner.pool && p.spec.Pool?;
        var j :| 0 <= j < |w.items| && w.items[j] == p;
        assert w1.items[j] in w1.items && KindOf(w1.items[j].spec) == KPool;
      }
    }
  }

  lemma FipsValid(w: World, fips: seq<Fip>)
    requires Valid(w)
    requires |fips| == |w.fips| && forall k :: 0 <= k < |fips| ==> fips[k].network == w.fips[k].network
    ensures Valid(w.(fips := fips))
  {
    assert forall i :: i in w.items ==> OwnerExists(w, i);
    assert forall i :: OwnerExists(w, i) <==> OwnerExists(w.(fips := fips), i);
  }

  lemma ApplyValid(w: World, a: Action)
    requires Valid(w) && Apply(w, a).Proceed?
    ensures Valid(Apply(w, a).world)
  {
    if IsUpdate(a) {
      UpdateValid(w, a);
    } else if Creation(a).Some? {
      hide Valid;
      InsertValid(w, Creation(a).value.0, Stored(w.subnets, Creation(a).value.1));
    } else if a.CreateLb? {
      CreateLbValid(w, a.lb);
    } else if a.RenameLb? {
      RenameValid(w, a.id, a.name);
    } else if a.DeleteResource? {
      if HasLb(w.lbs, a.id) {
        WithoutLbValid(w, a.id);
      } else {
        SurvivorsValid(w, a.id);
      }
    } else if a.AssignFloatingIP? {
      FipsValid(w, Assigned(w.fips, a.ip, a.lbId));
    }
  }

  /** No batch, run to any point, leaves the cloud malformed. */
  lemma {:induction false} ExecValid(w: World, b: seq<Action>)
    requires Valid(w)
    ensures Valid(Exec(w, b).world)
    decreases |b|
  {
    hide Valid;
    hide Apply;
    if b != [] && Apply(w, b[0]).Proceed? {
      ApplyValid(w, b[0]);
      ExecValid(Apply(w, b[0]).world, b[1..]);
    }
  }

  // ---------------------------------------------------------------- what the cloud makes of a request

  /** An option of an HTTP block as given, or its default. */
  lemma StoredHttp(subnets: map<string, Subnet>, s: Spec)
    requires s.Monitor? && s.http.Some?
    ensures
      var h := s.http.value;
      Stored(subnets, s) == s.(http := Some(Http(
        if h.verb == "" then "GET" else h.verb, if h.urlPath == "" then "/" else h.urlPath,
        if h.version == "" then "1.1" else h.version, h.host, if h.expectedCodes == [] then ["200"] else h.expectedCodes)))
  {
  }

  /** Pools, listeners and monitors without HTTP options are stored as they are requested; members too, but that they
      are enabled, in a subnet that is requested by its UUID alone. */
  lemma StoredExactly(subnets: map<string, Subnet>, s: Spec)
    ensures s.Pool? || s.Listener? || (s.Monitor? && s.http.None?) ==> Stored(subnets, s) == s
    ensures s.Member? ==>
      && Stored(subnets, s).Member? && Stored(subnets, s).(enabled := s.enabled, subnet := s.subnet) == s && Stored(subnets, s).enabled
      && (s.subnet.uuid in subnets ==> Stored(subnets, s).subnet == subnets[s.subnet.uuid])
  {
  }
}
