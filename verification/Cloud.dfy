/** The cloud as the mutable object the actions work on, and the lookups and listings made of it. */
module Clouds {
  import opened Seqs
  import opened Domain
  import opened CloudWorld
  import opened Limiters
  import opened Lookup

  datatype ActionControl = Errored | GoOn | RefreshNow

  class Cloud {
    var lbs: seq<Lb>
    var items: seq<Item>
    var fips: seq<Fip>
    var next: Uuid
    const subnets: map<string, Subnet>
    const autoVip: string

    function State(): World
      reads this
    {
      World(lbs, items, fips, subnets, autoVip, next)
    }

    /** What became of a call: the cloud is as `Apply` says, or refused it and is unchanged. */
    twostate predicate Did(a: Action, ok: bool)
      reads this
    {
      if ok then Apply(old(State()), a) == Proceed(State())
      else Apply(old(State()), a) == Refused && State() == old(State())
    }

    method CreateLb(lb: Lb)
      modifies this`lbs, this`next
      ensures Did(Action.CreateLb(lb), true)
    {
      var addrs := [];
      for i := 0 to |lb.vips|
        invariant addrs == lb.vips[..i]
      {
        addrs := addrs + [Vip(lb.vips[i].address, lb.vips[i].subnet)];
      }
      assert addrs == lb.vips;
      lbs := lbs + [Lb(next, lb.name, Granted(addrs, autoVip), lb.flavor, lb.zone)];
      next := next + 1;
    }

    method RenameLb(id: Uuid, name: string) returns (ok: bool)
      modifies this`lbs
      ensures Did(Action.RenameLb(id, name), ok)
    {
      ok := HasLb(lbs, id);
      if ok {
        lbs := Renamed(lbs, id, name);
      }
    }

    method DeleteResource(id: Uuid) returns (ok: bool)
      modifies this`lbs, this`items, this`fips
      ensures Did(Action.DeleteResource(id), ok)
    {
      var removal := Removal(State(), id);
      ok := removal.Proceed?;
      if ok {
        lbs, items, fips := removal.world.lbs, removal.world.items, removal.world.fips;
      }
    }

    /** Creates a pool, a member, a listener or a monitor. */
    method CreateItem(a: Action) returns (ok: bool)
      requires Creation(a).Some?
      modifies this`items, this`next
      ensures Did(a, ok)
    {
      var (owner, spec) := Creation(a).value;
      ok := Known(subnets, spec) && HasOwner(State(), owner);
      if ok {
        items := items + [Item(next, owner, Stored(subnets, spec))];
        next := next + 1;
      }
    }

    /** Sets the one field of a listener or a monitor that the action names. */
    method UpdateItem(a: Action) returns (ok: bool)
      requires IsUpdate(a)
      modifies this`items
      ensures Did(a, ok)
    {
      ok := exists i :: i in items && i.id == a.id && Revise(i.spec, a).Some?;
      if ok {
        items := Map(items, (i: Item) => Revised(i, a));
      }
    }

    method AssignFloatingIP(ip: string, lb: Uuid) returns (ok: bool)
      modifies this`fips
      ensures Did(Action.AssignFloatingIP(ip, lb), ok)
    {
      ok := HasLb(lbs, lb) && exists f :: f in fips && Address(f.network) == Address(ip);
      if ok {
        fips := Assigned(fips, ip, lb);
      }
    }

    /** The `Run` methods of the actions. */
    method Run(a: Action) returns (control: ActionControl)
      modifies this
      ensures match Apply(old(State()), a)
              case Proceed(w1) => control == GoOn && State() == w1
              case Refresh => control == RefreshNow && State() == old(State())
              case Refused => control == Errored && State() == old(State())
    {
      var ok := true;
      if IsUpdate(a) {
        ok := UpdateItem(a);
      } else if Creation(a).Some? {
        ok := CreateItem(a);
      } else {
        match a
        case Refetch => return RefreshNow;
        case AwaitLb(status) =>
          if status == "changing" { return RefreshNow; }
        case Sleep(_) =>
        case CreateLb(lb) => CreateLb(lb);
        case RenameLb(id, name) => ok := RenameLb(id, name);
        case DeleteResource(id) => ok := DeleteResource(id);
        case AssignFloatingIP(ip, lb) => ok := AssignFloatingIP(ip, lb);
        case _ => ok := false;
      }
      control := if ok then GoOn else Errored;
    }

    /** `getByUUID`; the call may fail otherwise than by not finding anything. */
    method GetByUUID(id: Uuid, fails: bool) returns (r: Limiter<Lb>)
      ensures fresh(r)
      ensures r.error == if fails then Some(CallError) else None
      ensures r.elements == if fails then [] else ByUuid(lbs, id)
    {
      if fails {
        r := new Limiter.New(Some(CallError), []);
        return;
      }
      r := new Limiter.New(None, ByUuid(lbs, id));
    }

    /** `findByName`; its listing may fail. */
    method FindByName(name: string, fails: bool) returns (r: Limiter<Lb>)
      ensures fresh(r)
      ensures r.error == if name == "" then Some(EmptyName) else if fails then Some(CallError) else None
      ensures r.elements == if name == "" || fails then [] else ByName(lbs, name)
    {
      if name == "" {
        r := new Limiter.New(Some(EmptyName), []);
        return;
      }
      if fails {
        r := new Limiter.New(Some(CallError), []);
        return;
      }
      var matches := [];
      for i := 0 to |lbs|
        invariant matches == ByName(lbs[..i], name)
      {
        assert lbs[..i + 1] == lbs[..i] + [lbs[i]];
        FilterLast(lbs[..i], lbs[i], (l: Lb) => l.name == name);
        if lbs[i].name == name {
          matches := matches + [lbs[i]];
        }
      }
      assert lbs[..|lbs|] == lbs;
      r := new Limiter.New(None, matches);
    }

    /** `findByServiceInfo(…).AtMostOne()` */
    method FindAtMostOne(q: Query, uuidFails: bool, listFails: bool) returns (r: Result<Option<Lb>, Count>)
      ensures r == FindDespite(lbs, q, uuidFails, listFails)
    {
      var named := FindByName(q.name, listFails);
      var found := named;
      if q.uuid.Some? {
        var byUuid := GetByUUID(q.uuid.value, uuidFails);
        found := Limiter.Join([byUuid, named]);
        JoinedTwo(byUuid, named);
        found.Unique(SameLb);
      }
      r := found.AtMostOne();
    }
  }

  lemma JoinedTwo(a: Limiter<Lb>, b: Limiter<Lb>)
    ensures Limiter.AllElements([a, b]) == a.elements + b.elements
  {
    assert [a][..0] == [];
    assert Limiter.AllElements([a]) == a.elements;
    assert [a, b][..1] == [a];
  }
}
