/** Whole runs of the reconciler, cut off at any point, and what every one of them keeps. */
module Runs {
  import opened Seqs
  import opened Domain
  import opened CloudWorld
  import Effects
  import opened Validity
  import opened Planner
  import opened Lookup
  import opened Rounds
  import opened Frames
  import opened PlanLocality
  import opened FinalRounds
  import opened Convergence
  import opened Settling

  /** One turn of the loop: the desired state it computed, the status its load balancer was fetched
      with, and what the map iterations of its planner came up with. */
  datatype Turn = Turn(desired: State, status: string, choice: Choice)

  ghost function FoundIn(w: World, q: Query): Option<Lb> {
    var r := FindByServiceInfo(w.lbs, q);
    if r.Success? then r.value else None
  }

  ghost function Seen(w: World, q: Query, t: Turn): State {
    Snapshot(w, FoundIn(w, q), t.status)
  }

  /** The turn gets to run a batch: its lookup succeeds and its planner does not refuse. */
  ghost predicate Planned(w: World, q: Query, t: Turn) {
    && FindByServiceInfo(w.lbs, q).Success?
    && !Refuses(t.desired, Seen(w, q, t))
    && Possible(t.desired, Seen(w, q, t), t.choice)
  }

  ghost function Batch(w: World, q: Query, t: Turn): seq<Action> {
    Plan(t.desired, Seen(w, q, t), t.choice)
  }

  ghost function TurnResult(w: World, q: Query, t: Turn): Ran {
    Exec(w, Batch(w, q, t))
  }

  /** The cloud after some turns that all ended in a refetch. */
  ghost function After(w: World, q: Query, turns: seq<Turn>): World {
    if turns == [] then w else
      TurnResult(After(w, q, turns[..|turns| - 1]), q, turns[|turns| - 1]).world
  }

  /** The loop makes these turns and goes on. */
  ghost predicate Ongoing(w: World, q: Query, turns: seq<Turn>) {
    turns != [] ==>
      var init, t := turns[..|turns| - 1], turns[|turns| - 1];
      var w1 := After(w, q, init);
      Ongoing(w, q, init) && Planned(w1, q, t) && TurnResult(w1, q, t).control == MustRefetch
  }

  /** `w1` is the cloud at some moment of a run: after whole turns, and `k` actions of one more. */
  ghost predicate Moment(w: World, q: Query, turns: seq<Turn>, t: Turn, k: nat, w1: World) {
    var w0 := After(w, q, turns);
    && Ongoing(w, q, turns) && Planned(w0, q, t)
    && k <= |Batch(w0, q, t)|
    && w1 == Exec(w0, Batch(w0, q, t)[..k]).world
  }

  // ---------------------------------------------------------------- the load balancer of a run

  /** The identity of the load balancer a run is about: the one it finds, or the one it would create. */
  ghost function Own(w: World, q: Query): Uuid {
    if FoundIn(w, q).Some? then FoundIn(w, q).value.id else w.next
  }

  /** The turns of one call agree on whether a load balancer is wanted, under the name of the query,
      and on the addresses of the floating IPs. */
  ghost predicate Consistent(q: Query, all: bool, ips: set<string>, t: Turn) {
    && (t.desired.lb.None? <==> all)
    && (t.desired.lb.Some? ==> t.desired.lb.value.name == q.name && q.name != "")
    && Addresses(t.desired.floatingIPs) <= ips
  }

  lemma LocalWidens(own: Uuid, all: bool, ids: set<Uuid>, ips: set<string>, more: set<string>, a: Action)
    requires Local(own, all, ids, ips, a) && ips <= more
    ensures Local(own, all, ids, more, a)
  {
  }

  lemma CreateFrame(w: World, lb: Lb, all: bool, ips: set<string>)
    requires Valid(w)
    ensures Frame(w, Apply(w, CreateLb(lb)).world, w.next, all, ips)
  {
    var lb1 := lb.(id := w.next, vips := Granted(lb.vips, w.autoVip));
    FilterLast(w.lbs, lb1, (l: Lb) => l.id != w.next);
  }

  lemma FoundInLbs(w: World, q: Query)
    requires Valid(w) && FoundIn(w, q).Some?
    ensures FoundIn(w, q).value in w.lbs
  {
    LookupExact(w.lbs, q);
    assert FoundIn(w, q).value in Candidates(w.lbs, q);
  }

  lemma CreateCut(w: World, lb: Lb, k: nat)
    requires k <= 2
    ensures
      var r := Exec(w, [CreateLb(lb), Refetch][..k]).world;
      r == w || r == Apply(w, CreateLb(lb)).world
  {
    var b := [CreateLb(lb), Refetch];
    assert b[..0] == [] && b[..1] == [CreateLb(lb)] && b[..2] == b;
    assert b[1..] == [Refetch] && [CreateLb(lb)][1..] == [];
  }

  /** No part of a turn touches what does not belong to the load balancer of the run. */
  lemma TurnFrame(w: World, q: Query, t: Turn, k: nat, all: bool, ips: set<string>)
    requires Valid(w) && Planned(w, q, t) && Consistent(q, all, ips, t) && k <= |Batch(w, q, t)|
    ensures
      var w1 := Exec(w, Batch(w, q, t)[..k]).world;
      Valid(w1) && Frame(w, w1, Own(w, q), all, ips)
  {
    var b := Batch(w, q, t);
    ExecValid(w, b[..k]);
    if FoundIn(w, q).Some? {
      var l := FoundIn(w, q).value;
      FoundInLbs(w, q);
      OwnsOwn(w, l);
      PlanLocal(w, t.desired, l, t.status, t.choice);
      forall a | a in b[..k]
        ensures Local(l.id, all, OwnIds(w.items, l.id), ips, a)
      {
        assert a in b;
        LocalWidens(l.id, all, OwnIds(w.items, l.id), Addresses(t.desired.floatingIPs), ips, a);
      }
      hide Frame;
      hide Exec;
      hide Owns;
      LocalBatch(w, l.id, all, OwnIds(w.items, l.id), ips, b[..k]);
    } else {
      FrameReflexive(w, w.next, all, ips);
      if t.desired.lb.Some? {
        CreateFrame(w, t.desired.lb.value, all, ips);
        CreateCut(w, t.desired.lb.value, k);
      } else {
        assert b[..k] == [];
      }
    }
  }

  lemma PlanRenames(w: World, d: State, l: Lb, status: string, c: Choice)
    requires d.lb.Some?
    ensures forall a :: a in Plan(d, Snapshot(w, Some(l), status), c) && a.RenameLb? ==> a.name == d.lb.value.name
  {
    PoolStepsRename(l.id, c.poolDel, c.poolCre);
    JobStepsRename(c.diffs);
    UpdatesOnly(Pairs(Jobs(d.pools, NodesOf(w.items, l.id))));
    AssignmentsIn(c.assign, l.id);
    hide PoolSteps;
    hide Flat;
    hide Jobs;
    hide NodesOf;
  }

  lemma RenamedTwice(lbs: seq<Lb>, id: Uuid, name: string)
    ensures Renamed(Renamed(lbs, id, name), id, name) == Renamed(lbs, id, name)
  {
  }

  /** Local actions that delete no load balancer can only rename their own. */
  lemma {:induction false} LbsEither(w: World, own: Uuid, ids: set<Uuid>, ips: set<string>, name: string, b: seq<Action>)
    requires forall a :: a in b ==> Local(own, false, ids, ips, a) && (a.RenameLb? ==> a.name == name)
    requires forall id :: id in ids ==> !HasLb(w.lbs, id)
    ensures Exec(w, b).world.lbs == w.lbs || Exec(w, b).world.lbs == Renamed(w.lbs, own, name)
    decreases |b|
  {
    if b != [] && Apply(w, b[0]).Proceed? {
      var w1 := Apply(w, b[0]).world;
      assert b[0] in b;
      assert w1.lbs == if b[0].RenameLb? then Renamed(w.lbs, own, name) else w.lbs by {
        OneLb(w, own, ids, ips, b[0]);
      }
      Effects.RenameStep(w.lbs, own, name);
      RenamedTwice(w.lbs, own, name);
      hide Apply;
      hide Renamed;
      hide Local;
      LbsEither(w1, own, ids, ips, name, b[1..]);
    }
  }

  lemma OneLb(w: World, own: Uuid, ids: set<Uuid>, ips: set<string>, a: Action)
    requires Local(own, false, ids, ips, a) && Apply(w, a).Proceed?
    requires forall id :: id in ids ==> !HasLb(w.lbs, id)
    ensures Apply(w, a).world.lbs == if a.RenameLb? then Renamed(w.lbs, own, a.name) else w.lbs
  {
    hide Renamed;
    hide Stored;
    hide Revise;
  }

  /** `l1` is the load balancer `l`, at most renamed. */
  ghost predicate SameLbAs(l: Lb, l1: Lb) {
    l1.(name := l.name) == l
  }

  /** While a load balancer is wanted, no part of a turn deletes or recreates the one the run has
      found, and the lookup finds it again. */
  lemma TurnKeepsLb(w: World, q: Query, t: Turn, k: nat, ips: set<string>)
    requires Valid(w) && Planned(w, q, t) && Consistent(q, false, ips, t) && k <= |Batch(w, q, t)|
    requires FoundIn(w, q).Some?
    ensures
      var w1 := Exec(w, Batch(w, q, t)[..k]).world;
      && (w1.lbs == w.lbs || w1.lbs == Renamed(w.lbs, FoundIn(w, q).value.id, q.name))
      && FoundIn(w1, q).Some? && SameLbAs(FoundIn(w, q).value, FoundIn(w1, q).value)
  {
    var b, l := Batch(w, q, t), FoundIn(w, q).value;
    FoundInLbs(w, q);
    OwnsOwn(w, l);
    PlanLocal(w, t.desired, l, t.status, t.choice);
    PlanRenames(w, t.desired, l, t.status, t.choice);
    assert forall a :: a in b[..k] ==> a in b;
    hide Plan;
    hide Local;
    LbsEither(w, l.id, OwnIds(w.items, l.id), Addresses(t.desired.floatingIPs), q.name, b[..k]);
    hide Exec;
    hide Batch;
    RenameIsSafe(w.lbs, q, l);
  }

  lemma CreatedCandidate(w: World, q: Query, lb1: Lb)
    requires Candidates(w.lbs, q) == {} && lb1.name == q.name && q.name != ""
    ensures Candidates(w.lbs + [lb1], q) == {lb1}
  {
    assert forall l :: l in w.lbs + [lb1] <==> l in w.lbs || l == lb1;
    assert forall l :: l in w.lbs ==> l !in Candidates(w.lbs, q);
  }

  lemma CreatedPasses(lb: Lb, id: Uuid, auto: string)
    ensures LbRefusal(lb, lb.(id := id, vips := Granted(lb.vips, auto))).None?
  {
  }

  /** Creating the missing load balancer makes it the one the lookup finds, and it passes the checks
      that later turns make with the same desired load balancer. */
  lemma CreatedIsFound(w: World, q: Query, lb: Lb)
    requires Valid(w) && FindByServiceInfo(w.lbs, q) == Success(None)
    requires lb.name == q.name && q.name != ""
    ensures
      var w1 := Apply(w, CreateLb(lb)).world;
      && FoundIn(w1, q).Some? && FoundIn(w1, q).value.id == w.next
      && FoundIn(w1, q).value in w1.lbs
      && LbRefusal(lb, FoundIn(w1, q).value).None?
  {
    var w1 := Apply(w, CreateLb(lb)).world;
    var lb1 := lb.(id := w.next, vips := Granted(lb.vips, w.autoVip));
    assert w1.lbs == w.lbs + [lb1];
    CreateLbValid(w, lb);
    CreatedPasses(lb, w.next, w.autoVip);
    hide Granted;
    hide LbRefusal;
    LookupExact(w.lbs, q);
    LookupExact(w1.lbs, q);
    hide Apply;
    hide FindByServiceInfo;
    CreatedCandidate(w, q, lb1);
  }

  /** Only a name makes it so: one that is created under an empty name is never found, and the next turn
      creates another. */
  lemma CreatedIsFoundExactly(w: World, q: Query, lb: Lb)
    requires Valid(w) && FindByServiceInfo(w.lbs, q) == Success(None)
    requires lb.name == q.name && q.uuid != Some(w.next)
    ensures
      var w1 := Apply(w, CreateLb(lb)).world;
      && (FoundIn(w1, q).Some? <==> q.name != "")
      && (FoundIn(w1, q).None? <==> FindByServiceInfo(w1.lbs, q) == Success(None))
  {
    if q.name != "" {
      CreatedIsFound(w, q, lb);
      hide FindByServiceInfo;
    } else {
      var w1 := Apply(w, CreateLb(lb)).world;
      CreateLbValid(w, lb);
      LookupExact(w.lbs, q);
      LookupExact(w1.lbs, q);
      NamelessLost(w, q, lb.(id := w.next, vips := Granted(lb.vips, w.autoVip)));
      hide FindByServiceInfo;
    }
  }

  lemma NamelessLost(w: World, q: Query, made: Lb)
    requires Candidates(w.lbs, q) == {} && q.name == "" && q.uuid != Some(made.id)
    ensures Candidates(w.lbs + [made], q) == {}
  {
    assert forall l :: l in w.lbs ==> l !in Candidates(w.lbs, q);
  }

  lemma OwnAfterPart(w: World, q: Query, t: Turn, k: nat, ips: set<string>)
    requires Valid(w) && Planned(w, q, t) && Consistent(q, false, ips, t) && k <= |Batch(w, q, t)|
    ensures Own(Exec(w, Batch(w, q, t)[..k]).world, q) == Own(w, q)
  {
    if FoundIn(w, q).Some? {
      TurnKeepsLb(w, q, t, k, ips);
    } else {
      CreatedIsFound(w, q, t.desired.lb.value);
      CreateCut(w, t.desired.lb.value, k);
    }
  }

  lemma WholeTurn(w: World, q: Query, t: Turn)
    ensures Batch(w, q, t)[..|Batch(w, q, t)|] == Batch(w, q, t)
  {
  }

  /** A deletion waits while the load balancer is changing, and then issues the one delete. */
  lemma DeletionBatch(w: World, status: string, id: Uuid)
    ensures Exec(w, [AwaitLb(status), DeleteResource(id)])
         == if status == "changing" then Ran(w, MustRefetch)
            else if Removal(w, id).Proceed? then Ran(Removal(w, id).world, Finished)
            else Ran(w, Failed)
  {
    var b := [AwaitLb(status), DeleteResource(id)];
    assert b[1..] == [DeleteResource(id)];
    hide Removal;
    RemovalNeverWaits(w, id);
    ExecOne(w, DeleteResource(id));
  }

  lemma ExecOne(w: World, a: Action)
    ensures Exec(w, [a]) ==
      match Apply(w, a)
      case Proceed(w1) => Ran(w1, Finished)
      case Refresh => Ran(w, MustRefetch)
      case Refused => Ran(w, Failed)
  {
    assert [a][1..] == [];
    hide Apply;
  }

  lemma RemovalNeverWaits(w: World, id: Uuid)
    ensures !Removal(w, id).Refresh?
  {
  }

  /** A turn of a deletion that goes on has only waited. */
  lemma WaitingTurn(w: World, q: Query, t: Turn)
    requires Planned(w, q, t) && t.desired.lb.None? && TurnResult(w, q, t).control == MustRefetch
    ensures TurnResult(w, q, t).world == w && FoundIn(w, q).Some? && t.status == "changing"
  {
    if FoundIn(w, q).Some? {
      DeletionBatch(w, t.status, FoundIn(w, q).value.id);
      hide Exec;
    }
  }

  /** A deletion that ends has removed the load balancer with everything under it, or found none, and
      the lookup finds none then. */
  lemma DeletionEnds(w: World, q: Query, t: Turn)
    requires Valid(w) && Planned(w, q, t) && t.desired.lb.None? && TurnResult(w, q, t).control == Finished
    ensures
      var w1 := TurnResult(w, q, t).world;
      && w1 == (if FoundIn(w, q).Some? then WithoutLb(w, FoundIn(w, q).value.id) else w)
      && FindByServiceInfo(w1.lbs, q) == Success(None)
  {
    if FoundIn(w, q).Some? {
      var l := FoundIn(w, q).value;
      DeletionBatch(w, t.status, l.id);
      hide Exec;
      FoundInLbs(w, q);
      DeletedLbs(w, q, l);
    }
  }

  /** Nothing is left of what belonged to a deleted load balancer. */
  lemma DeletionCascades(w: World, l: Lb)
    requires Valid(w)
    ensures forall i :: i in WithoutLb(w, l.id).items <==> i in w.items && !Mine(OwnPools(w.items, l.id), l.id, true, i)
    ensures forall f :: f in WithoutLb(w, l.id).fips ==> f.lb != Some(l.id)
  {
    var pools := set i | i in w.items && i.owner == OnLb(l.id) && i.spec.Pool? :: i.id;
    assert pools == OwnPools(w.items, l.id);
  }

  /** Deleting again, once nothing is found, changes nothing. */
  lemma DeletionRepeats(w: World, q: Query, t: Turn)
    requires Planned(w, q, t) && t.desired.lb.None? && FindByServiceInfo(w.lbs, q) == Success(None)
    ensures TurnResult(w, q, t) == Ran(w, Finished)
  {
  }

  lemma DeletedLbs(w: World, q: Query, l: Lb)
    requires Valid(w) && FindByServiceInfo(w.lbs, q) == Success(Some(l))
    ensures FindByServiceInfo(WithoutLb(w, l.id).lbs, q) == Success(None)
  {
    var lbs1 := WithoutLb(w, l.id).lbs;
    LookupExact(w.lbs, q);
    assert l in Candidates(w.lbs, q);
    FilterDistinct(w.lbs, (x: Lb) => x.id != l.id, LbId);
    forall x | x in lbs1
      ensures x !in Candidates(lbs1, q)
    {
      assert x in Candidates(w.lbs, q) ==> x == l;
    }
    LookupExact(lbs1, q);
  }

  lemma WholeTurnFrame(w: World, q: Query, t: Turn, all: bool, ips: set<string>)
    requires Valid(w) && Planned(w, q, t) && Consistent(q, all, ips, t)
    requires TurnResult(w, q, t).control == MustRefetch
    ensures
      var w1 := TurnResult(w, q, t).world;
      Valid(w1) && Frame(w, w1, Own(w, q), all, ips) && Own(w1, q) == Own(w, q)
  {
    WholeTurn(w, q, t);
    hide Batch;
    hide Frame;
    hide Valid;
    hide Own;
    hide Planned;
    TurnFrame(w, q, t, |Batch(w, q, t)|, all, ips);
    if all {
      WaitingTurn(w, q, t);
    } else {
      OwnAfterPart(w, q, t, |Batch(w, q, t)|, ips);
    }
  }

  lemma {:induction false} AfterFrame(w: World, q: Query, turns: seq<Turn>, all: bool, ips: set<string>)
    requires Valid(w) && Ongoing(w, q, turns) && forall t :: t in turns ==> Consistent(q, all, ips, t)
    ensures
      var w1 := After(w, q, turns);
      Valid(w1) && Frame(w, w1, Own(w, q), all, ips) && Own(w1, q) == Own(w, q)
  {
    hide Frame;
    hide Valid;
    hide Own;
    hide Planned;
    hide TurnResult;
    hide Consistent;
    if turns == [] {
      FrameReflexive(w, Own(w, q), all, ips);
    } else {
      var init, t := turns[..|turns| - 1], turns[|turns| - 1];
      assert turns == init + [t];
      AfterFrame(w, q, init, all, ips);
      var w0 := After(w, q, init);
      WholeTurnFrame(w0, q, t, all, ips);
      FrameTransitive(w, w0, After(w, q, turns), Own(w, q), all, ips);
    }
  }

  /** At every moment of every run, cut off by a failing call or not, everything but the service's own
      load balancer, and the floating IPs it asks for, is exactly as it was. */
  lemma RunFrame(w: World, q: Query, turns: seq<Turn>, t: Turn, k: nat, w1: World, all: bool, ips: set<string>)
    requires Valid(w) && Moment(w, q, turns, t, k, w1)
    requires Consistent(q, all, ips, t) && forall x :: x in turns ==> Consistent(q, all, ips, x)
    ensures Valid(w1) && Frame(w, w1, Own(w, q), all, ips)
  {
    var w0 := After(w, q, turns);
    AfterFrame(w, q, turns, all, ips);
    hide After;
    hide Ongoing;
    hide Own;
    TurnFrame(w0, q, t, k, all, ips);
    hide Frame;
    FrameTransitive(w, w0, w1, Own(w, q), all, ips);
  }

  // ---------------------------------------------------------------- identity of the load balancer

  lemma {:induction false} AfterKeepsLb(w: World, q: Query, turns: seq<Turn>, ips: set<string>)
    requires Valid(w) && Ongoing(w, q, turns) && FoundIn(w, q).Some?
    requires forall t :: t in turns ==> Consistent(q, false, ips, t)
    ensures
      var w1 := After(w, q, turns);
      Valid(w1) && FoundIn(w1, q).Some? && SameLbAs(FoundIn(w, q).value, FoundIn(w1, q).value)
  {
    hide Valid;
    hide FoundIn;
    hide Planned;
    hide Batch;
    hide Consistent;
    if turns != [] {
      var init, t := turns[..|turns| - 1], turns[|turns| - 1];
      assert turns == init + [t];
      AfterKeepsLb(w, q, init, ips);
      var w0 := After(w, q, init);
      WholeTurn(w0, q, t);
      TurnKeepsLb(w0, q, t, |Batch(w0, q, t)|, ips);
      ExecValid(w0, Batch(w0, q, t));
    }
  }

  /** While a load balancer is wanted, the one a run has found is never deleted or recreated: at every
      moment the lookup finds the same UUID, with the same VIPs, flavor and zone. */
  lemma RunKeepsLb(w: World, q: Query, turns: seq<Turn>, t: Turn, k: nat, w1: World, ips: set<string>)
    requires Valid(w) && Moment(w, q, turns, t, k, w1) && FoundIn(w, q).Some?
    requires Consistent(q, false, ips, t) && forall x :: x in turns ==> Consistent(q, false, ips, x)
    ensures FoundIn(w1, q).Some? && SameLbAs(FoundIn(w, q).value, FoundIn(w1, q).value)
  {
    hide Valid;
    hide FoundIn;
    hide Planned;
    hide Batch;
    hide Consistent;
    hide After;
    hide Ongoing;
    AfterKeepsLb(w, q, turns, ips);
    TurnKeepsLb(After(w, q, turns), q, t, k, ips);
  }
}
