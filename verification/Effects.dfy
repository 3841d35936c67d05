/** What a batch of deletions and creations does to a cloud, as one equation, and when no action of it is refused. */
module Effects {
  import opened Seqs
  import opened Domain
  import opened CloudWorld

  ghost function Dels(b: seq<Action>): set<Uuid> {
    set a | a in b && a.DeleteResource? :: a.id
  }

  predicate CreatesInPool(a: Action) {
    Creation(a).Some? && Creation(a).value.0.InPool?
  }

  /** The pools a batch creates something in. */
  ghost function Busy(b: seq<Action>): set<Uuid> {
    set a | a in b && CreatesInPool(a) :: Creation(a).value.0.pool
  }

  /** The resources a batch adds, named from `next` on. */
  function Created(b: seq<Action>, next: Uuid, subnets: map<string, Subnet>): (r: seq<Item>) {
    if b == [] then [] else
      var n := |b| - 1;
      var before := Created(b[..n], next, subnets);
      if Creation(b[n]).Some?
      then before + [Item(next + |before|, Creation(b[n]).value.0, Stored(subnets, Creation(b[n]).value.1))]
      else before
  }

  function RenamedBy(lbs: seq<Lb>, b: seq<Action>): seq<Lb> {
    if b == [] then lbs else
      var n := |b| - 1;
      var before := RenamedBy(lbs, b[..n]);
      if b[n].RenameLb? then Renamed(before, b[n].id, b[n].name) else before
  }

  // ---------------------------------------------------------------- sound batches

  /** `a` deletes, or adds to, something that `w` has and that is still there once the resources
      `gone` are deleted; a pool is deleted only after its members, and nothing is added to it. */
  ghost predicate Allowed(w: World, gone: set<Uuid>, busy: set<Uuid>, a: Action) {
    match a
    case Sleep(_) => true
    case AwaitLb(_) => true
    case RenameLb(id, _) => HasLb(w.lbs, id)
    case DeleteResource(id) =>
      && id !in busy
      && (exists i :: i in w.items && i.id == id && Stays(i, gone))
      && (forall m :: m in w.items && m.owner == InPool(id) && m.spec.Member? ==> m.id in gone)
    case _ =>
      && Creation(a).Some?
      && match Creation(a).value.0
         case OnLb(lb) => HasLb(w.lbs, lb)
         case InPool(p) => HasPool(w.items, p) && p !in gone
  }

  /** Every action of `b` is allowed at its place, after deletions `gone` and additions to `busy`. */
  ghost predicate Sound(w: World, gone: set<Uuid>, busy: set<Uuid>, b: seq<Action>) {
    forall k :: 0 <= k < |b| ==> Allowed(w, gone + Dels(b[..k]), busy + Busy(b[..k]), b[k])
  }

  /** `a` is neither kept waiting nor refused for a subnet the cloud does not know. */
  predicate Smooth(subnets: map<string, Subnet>, a: Action) {
    && (a.AwaitLb? ==> a.status != "changing")
    && (Creation(a).Some? ==> Known(subnets, Creation(a).value.1))
  }

  ghost predicate AllSmooth(subnets: map<string, Subnet>, b: seq<Action>) {
    forall a :: a in b ==> Smooth(subnets, a)
  }

  lemma DelsConcat(a: seq<Action>, b: seq<Action>)
    ensures Dels(a + b) == Dels(a) + Dels(b) && Busy(a + b) == Busy(a) + Busy(b)
  {
  }

  lemma SoundConcat(w: World, gone: set<Uuid>, busy: set<Uuid>, a: seq<Action>, b: seq<Action>)
    requires Sound(w, gone, busy, a) && Sound(w, gone + Dels(a), busy + Busy(a), b)
    ensures Sound(w, gone, busy, a + b)
  {
    hide Allowed;
    hide Dels;
    hide Busy;
    forall k | 0 <= k < |a + b|
      ensures Allowed(w, gone + Dels((a + b)[..k]), busy + Busy((a + b)[..k]), (a + b)[k])
    {
      if k < |a| {
        assert (a + b)[..k] == a[..k];
      } else {
        assert (a + b)[..k] == a + b[..k - |a|];
        DelsConcat(a, b[..k - |a|]);
        assert gone + Dels((a + b)[..k]) == gone + Dels(a) + Dels(b[..k - |a|]);
        assert busy + Busy((a + b)[..k]) == busy + Busy(a) + Busy(b[..k - |a|]);
      }
    }
  }

  lemma SoundPrefix(w: World, gone: set<Uuid>, busy: set<Uuid>, b: seq<Action>, k: nat)
    requires Sound(w, gone, busy, b) && k <= |b|
    ensures Sound(w, gone, busy, b[..k])
  {
    hide Allowed;
    forall j | 0 <= j < k
      ensures Allowed(w, gone + Dels(b[..k][..j]), busy + Busy(b[..k][..j]), b[..k][j])
    {
      assert b[..k][..j] == b[..j];
    }
  }

  // ---------------------------------------------------------------- the equation

  /** `w` is `w0` without the resources `gone` and what they own, and with the resources `extra`. */
  ghost predicate Became(w0: World, gone: set<Uuid>, busy: set<Uuid>, extra: seq<Item>, w: World) {
    && w.items == Survivors(w0.items, gone) + extra
    && (forall i :: i in extra ==> w0.next <= i.id && (i.owner.InPool? ==> i.owner.pool in busy))
    && (forall id :: HasLb(w.lbs, id) <==> HasLb(w0.lbs, id))
    && w.fips == w0.fips && w.subnets == w0.subnets && w.autoVip == w0.autoVip
    && w.next == w0.next + |extra|
  }

  lemma SurvivorsMore(items: seq<Item>, extra: seq<Item>, gone: set<Uuid>, id: Uuid)
    requires forall i :: i in extra ==> i.id != id && i.owner != InPool(id)
    ensures Survivors(Survivors(items, gone) + extra, {id}) == Survivors(items, gone + {id}) + extra
  {
    var p, q, both := i => Stays(i, gone), i => Stays(i, {id}), i => Stays(i, gone + {id});
    FilterConcat(Survivors(items, gone), extra, q);
    FilterTwice(items, p, q, both);
    FilterAll(extra, q);
  }

  lemma DeleteStep(w0: World, gone: set<Uuid>, busy: set<Uuid>, extra: seq<Item>, w: World, id: Uuid)
    requires Valid(w0) && Became(w0, gone, busy, extra, w) && Allowed(w0, gone, busy, DeleteResource(id))
    ensures Apply(w, DeleteResource(id)) == Proceed(w.(items := Survivors(w0.items, gone + {id}) + extra))
  {
    hide Survivors;
    var i :| i in w0.items && i.id == id && Stays(i, gone);
    assert i in w.items;
    assert forall l :: l in w0.lbs ==> l.id in LbIds(w0.lbs);
    assert !HasLb(w.lbs, id);
    assert forall m :: m in w.items && m.owner == InPool(id) ==> !m.spec.Member?;
    SurvivorsMore(w0.items, extra, gone, id);
  }

  lemma RenameStep(lbs: seq<Lb>, id: Uuid, name: string)
    ensures forall x :: HasLb(Renamed(lbs, id, name), x) <==> HasLb(lbs, x)
  {
    var r := Renamed(lbs, id, name);
    forall x
      ensures HasLb(r, x) <==> HasLb(lbs, x)
    {
      if l :| l in lbs && l.id == x {
        var k :| 0 <= k < |lbs| && lbs[k] == l;
        assert r[k] in r && r[k].id == x;
      }
      if l :| l in r && l.id == x {
        var k :| 0 <= k < |r| && r[k] == l;
        assert lbs[k] in lbs && lbs[k].id == x;
      }
    }
  }

  ghost function Added(w: World, a: Action): seq<Item> {
    if Creation(a).Some? then [Item(w.next, Creation(a).value.0, Stored(w.subnets, Creation(a).value.1))] else []
  }

  lemma InsertStep(w0: World, gone: set<Uuid>, busy: set<Uuid>, extra: seq<Item>, w: World, a: Action)
    requires Valid(w0) && Became(w0, gone, busy, extra, w) && Allowed(w0, gone, busy, a) && Creation(a).Some?
    ensures Apply(w, a) == if Known(w.subnets, Creation(a).value.1)
                           then Proceed(w.(items := w.items + Added(w, a), next := w.next + 1)) else Refused
  {
    hide Survivors;
    var owner := Creation(a).value.0;
    if owner.InPool? {
      var i :| i in w0.items && i.id == owner.pool && i.spec.Pool?;
      assert OwnerExists(w0, i);
      assert Stays(i, gone);
      assert i in w.items;
    }
  }

  /** An allowed action goes through if it is smooth, and if it goes through, does what it says. */
  lemma Step(w0: World, gone: set<Uuid>, busy: set<Uuid>, extra: seq<Item>, w: World, a: Action)
    requires Valid(w0) && Became(w0, gone, busy, extra, w) && Allowed(w0, gone, busy, a)
    ensures Smooth(w0.subnets, a) ==> Apply(w, a).Proceed?
    ensures Apply(w, a).Proceed? ==>
      && Became(w0, gone + Dels([a]), busy + Busy([a]), extra + Added(w, a), Apply(w, a).world)
      && Apply(w, a).world.lbs == if a.RenameLb? then Renamed(w.lbs, a.id, a.name) else w.lbs
  {
    hide Survivors;
    hide Valid;
    assert a in [a];
    if a.DeleteResource? {
      assert Dels([a]) == {a.id} && Busy([a]) == {};
      DeleteStep(w0, gone, busy, extra, w, a.id);
      hide Allowed;
      hide Apply;
      assert extra + Added(w, a) == extra && busy + Busy([a]) == busy;
    } else if Creation(a).Some? {
      assert gone + Dels([a]) == gone;
      InsertStep(w0, gone, busy, extra, w, a);
      hide Allowed;
      hide Apply;
      assert Survivors(w0.items, gone) + extra + Added(w, a) == Survivors(w0.items, gone) + (extra + Added(w, a));
    } else {
      assert gone + Dels([a]) == gone && busy + Busy([a]) == busy;
      assert extra + Added(w, a) == extra;
      if a.RenameLb? {
        RenameStep(w.lbs, a.id, a.name);
        hide Renamed;
      }
    }
  }

  /** The batch has deleted what it says, added what it says, and done nothing else. */
  ghost predicate RanAsSaid(w: World, b: seq<Action>) {
    && Became(w, Dels(b), Busy(b), Created(b, w.next, w.subnets), Exec(w, b).world)
    && Exec(w, b).world.lbs == RenamedBy(w.lbs, b)
  }

  lemma SmoothLast(subnets: map<string, Subnet>, init: seq<Action>, a: Action)
    ensures AllSmooth(subnets, init + [a]) <==> AllSmooth(subnets, init) && Smooth(subnets, a)
  {
    hide Smooth;
    assert forall x :: x in init + [a] <==> x in init || x == a;
  }

  lemma NothingRan(w: World)
    ensures RanAsSaid(w, []) && Exec(w, []).control == Finished
  {
    FilterAll(w.items, i => Stays(i, Dels([])));
    assert Survivors(w.items, Dels([])) + [] == w.items;
  }

  lemma SoundLast(w: World, init: seq<Action>, a: Action)
    requires Sound(w, {}, {}, init + [a])
    ensures Sound(w, {}, {}, init) && Allowed(w, Dels(init), Busy(init), a)
  {
    var b := init + [a];
    hide Allowed;
    SoundPrefix(w, {}, {}, b, |init|);
    assert b[..|init|] == init && b[|init|] == a;
    assert {} + Dels(init) == Dels(init) && {} + Busy(init) == Busy(init);
  }

  lemma FinishedBefore(w: World, init: seq<Action>, a: Action)
    ensures Exec(w, init + [a]).control == Finished ==> Exec(w, init).control == Finished
  {
    hide Apply;
    ExecConcat(w, init, [a]);
  }

  /** A sound batch that is smooth runs to its end, and one that runs to its end has done what it says. */
  lemma {:induction false} ExecSound(w: World, b: seq<Action>)
    requires Valid(w) && Sound(w, {}, {}, b)
    ensures AllSmooth(w.subnets, b) ==> Exec(w, b).control == Finished
    ensures Exec(w, b).control == Finished ==> RanAsSaid(w, b)
  {
    hide *;
    if b == [] {
      NothingRan(w);
    } else {
      var init, a := b[..|b| - 1], b[|b| - 1];
      assert b == init + [a];
      SoundLast(w, init, a);
      ExecSound(w, init);
      SmoothLast(w.subnets, init, a);
      FinishedBefore(w, init, a);
      if Exec(w, init).control == Finished {
        ExecSoundStep(w, init, a);
      }
    }
  }

  lemma ExecSoundStep(w: World, init: seq<Action>, a: Action)
    requires Valid(w) && Allowed(w, Dels(init), Busy(init), a)
    requires Exec(w, init).control == Finished && RanAsSaid(w, init)
    ensures Smooth(w.subnets, a) ==> Exec(w, init + [a]).control == Finished
    ensures Exec(w, init + [a]).control == Finished ==> RanAsSaid(w, init + [a])
  {
    var w1 := Exec(w, init).world;
    ExecConcat(w, init, [a]);
    hide Allowed;
    hide Valid;
    hide Smooth;
    Step(w, Dels(init), Busy(init), Created(init, w.next, w.subnets), w1, a);
    CreatedLast(w, init, a, w1);
    DelsConcat(init, [a]);
    ExecSingle(w1, a);
    hide Became;
    hide Created;
    hide RenamedBy;
    hide Dels;
    hide Busy;
    hide Exec;
  }

  lemma ExecSingle(w: World, a: Action)
    ensures Exec(w, [a]).control == Finished <==> Apply(w, a).Proceed?
    ensures Apply(w, a).Proceed? ==> Exec(w, [a]).world == Apply(w, a).world
  {
    hide Apply;
    assert [a][1..] == [];
  }

  lemma ExecLast(w: World, init: seq<Action>, a: Action)
    requires Exec(w, init).control == Finished && Apply(Exec(w, init).world, a).Proceed?
    ensures Exec(w, init + [a]) == Ran(Apply(Exec(w, init).world, a).world, Finished)
  {
    ExecConcat(w, init, [a]);
    hide Apply;
    assert [a][1..] == [];
  }

  lemma CreatedLast(w: World, init: seq<Action>, a: Action, w1: World)
    requires Became(w, Dels(init), Busy(init), Created(init, w.next, w.subnets), w1)
    ensures Created(init + [a], w.next, w.subnets) == Created(init, w.next, w.subnets) + Added(w1, a)
    ensures RenamedBy(w.lbs, init + [a])
         == if a.RenameLb? then Renamed(RenamedBy(w.lbs, init), a.id, a.name) else RenamedBy(w.lbs, init)
  {
    assert (init + [a])[..|init|] == init;
    hide Survivors;
  }

  // ---------------------------------------------------------------- what was added

  /** `i` is what the cloud makes of the create action `a`. */
  ghost predicate MadeBy(i: Item, a: Action, subnets: map<string, Subnet>) {
    Creation(a).Some? && i.owner == Creation(a).value.0 && i.spec == Stored(subnets, Creation(a).value.1)
  }

  /** Everything added was asked for by an action, and has a new identity. */
  lemma {:induction false} CreatedAskedFor(b: seq<Action>, next: Uuid, subnets: map<string, Subnet>)
    ensures forall i :: i in Created(b, next, subnets) ==>
      next <= i.id < next + |Created(b, next, subnets)| && exists a :: a in b && MadeBy(i, a, subnets)
    ensures Distinct(Created(b, next, subnets), ItemId)
  {
    if b != [] {
      var init, last := b[..|b| - 1], b[|b| - 1];
      assert b == init + [last];
      CreatedAskedFor(init, next, subnets);
      hide Stored;
      hide Creation;
      assert forall a :: a in init ==> a in b;
      var before, r := Created(init, next, subnets), Created(b, next, subnets);
      if Creation(last).Some? {
        assert r == before + [r[|before|]];
        assert last in b && MadeBy(r[|before|], last, subnets);
      } else {
        assert r == before;
      }
    }
  }

  /** Everything an action asked for was added. */
  lemma {:induction false} CreatedGranted(b: seq<Action>, next: Uuid, subnets: map<string, Subnet>)
    ensures forall a :: a in b && Creation(a).Some? ==> exists i :: i in Created(b, next, subnets) && MadeBy(i, a, subnets)
  {
    if b != [] {
      var init, last := b[..|b| - 1], b[|b| - 1];
      assert b == init + [last];
      CreatedGranted(init, next, subnets);
      hide Stored;
      hide Creation;
      var r := Created(b, next, subnets);
      assert forall i :: i in Created(init, next, subnets) ==> i in r;
      if Creation(last).Some? {
        assert r[|r| - 1] in r && MadeBy(r[|r| - 1], last, subnets);
      }
    }
  }
}
