/** The last round: in-place updates and floating IPs. */
module UpdateRounds {
  import opened Seqs
  import opened Domain
  import opened CloudWorld
  import opened Effects
  import opened Validity
  import opened Planner

  // ---------------------------------------------------------------- batches that only update

  /** A resource after all update actions of a batch that name it. */
  function RevisedBy(i: Item, b: seq<Action>): Item {
    if b == [] then i else
      var n := |b| - 1;
      Revised(RevisedBy(i, b[..n]), b[n])
  }

  function AssignedBy(fips: seq<Fip>, b: seq<Action>): seq<Fip> {
    if b == [] then fips else
      var n := |b| - 1;
      var before := AssignedBy(fips, b[..n]);
      if b[n].AssignFloatingIP? then Assigned(before, b[n].ip, b[n].lbId) else before
  }

  /** `a` changes something `w` has, in place. */
  ghost predicate Gentle(w: World, a: Action) {
    match a
    case AwaitLb(status) => status != "changing"
    case RenameLb(id, _) => HasLb(w.lbs, id)
    case AssignFloatingIP(ip, lb) => HasLb(w.lbs, lb) && exists f :: f in w.fips && Address(f.network) == Address(ip)
    case _ => IsUpdate(a) && exists i :: i in w.items && i.id == a.id && Revise(i.spec, a).Some?
  }

  /** Which updates fit a specification does not change when it is updated. */
  lemma FitsStill(i: Item, a: Action, b: Action)
    ensures Revise(Revised(i, a).spec, b).Some? <==> Revise(i.spec, b).Some?
  {
  }

  lemma {:induction false} RevisedByFacts(i: Item, b: seq<Action>)
    ensures RevisedBy(i, b).id == i.id && RevisedBy(i, b).owner == i.owner
    ensures KindOf(RevisedBy(i, b).spec) == KindOf(i.spec) && KeyOf(RevisedBy(i, b).spec) == KeyOf(i.spec)
    ensures forall a :: Revise(RevisedBy(i, b).spec, a).Some? <==> Revise(i.spec, a).Some?
  {
    if b != [] {
      var n := |b| - 1;
      RevisedByFacts(i, b[..n]);
      hide Revised;
      hide Revise;
      RevisedSame(RevisedBy(i, b[..n]), b[n]);
      forall a
        ensures Revise(RevisedBy(i, b).spec, a).Some? <==> Revise(i.spec, a).Some?
      {
        FitsStill(RevisedBy(i, b[..n]), b[n], a);
      }
    }
  }

  function RevisionBy(b: seq<Action>): Item -> Item {
    (i: Item) => RevisedBy(i, b)
  }

  lemma {:induction false} AssignedNetworks(fips: seq<Fip>, b: seq<Action>)
    ensures |AssignedBy(fips, b)| == |fips|
    ensures forall k :: 0 <= k < |fips| ==> AssignedBy(fips, b)[k].network == fips[k].network
  {
    if b != [] {
      AssignedNetworks(fips, b[..|b| - 1]);
    }
  }

  ghost function GentleResult(w: World, b: seq<Action>): World {
    w.(lbs := RenamedBy(w.lbs, b), items := Map(w.items, RevisionBy(b)), fips := AssignedBy(w.fips, b))
  }

  lemma {:induction false} RenamedByHas(lbs: seq<Lb>, b: seq<Action>)
    ensures forall x :: HasLb(RenamedBy(lbs, b), x) <==> HasLb(lbs, x)
  {
    if b != [] {
      var n := |b| - 1;
      RenamedByHas(lbs, b[..n]);
      if b[n].RenameLb? {
        RenameStep(RenamedBy(lbs, b[..n]), b[n].id, b[n].name);
      }
    }
  }

  lemma GentleUpdate(w: World, init: seq<Action>, a: Action)
    requires Gentle(w, a) && IsUpdate(a)
    ensures Apply(GentleResult(w, init), a) == Proceed(GentleResult(w, init + [a]))
  {
    var b, w1 := init + [a], GentleResult(w, init);
    assert b[..|init|] == init;
    var i :| i in w.items && i.id == a.id && Revise(i.spec, a).Some?;
    var k :| 0 <= k < |w.items| && w.items[k] == i;
    RevisedByFacts(i, init);
    hide Revise;
    hide Revised;
    assert w1.items[k] in w1.items && w1.items[k] == RevisedBy(i, init);
    assert Map(w1.items, (x: Item) => Revised(x, a)) == Map(w.items, RevisionBy(b));
  }

  lemma GentleOther(w: World, init: seq<Action>, a: Action)
    requires Gentle(w, a) && !IsUpdate(a)
    ensures Apply(GentleResult(w, init), a) == Proceed(GentleResult(w, init + [a]))
  {
    var b, w1 := init + [a], GentleResult(w, init);
    assert b[..|init|] == init;
    RenamedByHas(w.lbs, init);
    AssignedNetworks(w.fips, init);
    hide Removal;
    hide Address;
    hide Revised;
    hide Renamed;
    hide Assigned;
    assert Map(w.items, RevisionBy(b)) == Map(w.items, RevisionBy(init));
    if a.AssignFloatingIP? {
      var f :| f in w.fips && Address(f.network) == Address(a.ip);
      var k :| 0 <= k < |w.fips| && w.fips[k] == f;
      assert w1.fips[k] in w1.fips;
    }
  }

  lemma GentleLast(w: World, init: seq<Action>, a: Action)
    requires Gentle(w, a)
    ensures Apply(GentleResult(w, init), a) == Proceed(GentleResult(w, init + [a]))
  {
    hide *;
    if IsUpdate(a) {
      GentleUpdate(w, init, a);
    } else {
      GentleOther(w, init, a);
    }
  }

  /** A batch of in-place changes runs to its end and revises every resource on its own. */
  lemma {:induction false} ExecGentle(w: World, b: seq<Action>)
    requires forall a :: a in b ==> Gentle(w, a)
    ensures Exec(w, b) == Ran(GentleResult(w, b), Finished)
  {
    if b == [] {
      assert Map(w.items, RevisionBy(b)) == w.items;
    } else {
      var init, a := b[..|b| - 1], b[|b| - 1];
      assert b == init + [a];
      assert forall x :: x in init ==> x in b;
      hide Gentle;
      hide GentleResult;
      ExecGentle(w, init);
      GentleLast(w, init, a);
      ExecLast(w, init, a);
    }
  }

  // ---------------------------------------------------------------- pairs

  /** The compared fields of a matched pair agree. */
  predicate Agree(d: Spec, a: Spec) {
    (d.Listener? && a.Listener? ==>
      && a.allowedCIDRs == d.allowedCIDRs
      && a.timeoutClientDataMS == d.timeoutClientDataMS
      && a.timeoutMemberConnectMS == d.timeoutMemberConnectMS
      && a.timeoutMemberDataMS == d.timeoutMemberDataMS)
    && (d.Monitor? && a.Monitor? ==>
      && a.delayS == d.delayS && a.timeoutS == d.timeoutS
      && a.upThreshold == d.upThreshold && a.downThreshold == d.downThreshold
      && (d.http.Some? && a.http.Some? ==> AgreeHttp(d.http.value, a.http.value)))
  }

  /** All fields but the version, which is part of the key. */
  predicate AgreeHttp(d: Http, a: Http) {
    a.host == d.host && a.urlPath == d.urlPath && a.verb == d.verb && a.expectedCodes == d.expectedCodes
  }

  lemma {:induction false} RevisedByConcat(i: Item, a: seq<Action>, b: seq<Action>)
    ensures RevisedBy(i, a + b) == RevisedBy(RevisedBy(i, a), b)
  {
    if b == [] {
      assert a + b == a;
    } else {
      var n := |b| - 1;
      assert (a + b)[..|a| + n] == a + b[..n];
      hide Revised;
      RevisedByConcat(i, a, b[..n]);
    }
  }

  lemma {:induction false} RevisedByOthers(i: Item, b: seq<Action>)
    requires forall a :: a in b ==> !IsUpdate(a) || a.id != i.id
    ensures RevisedBy(i, b) == i
  {
    if b != [] {
      RevisedByOthers(i, b[..|b| - 1]);
    }
  }

  function Perhaps(i: Item, c: bool, a: Action): Item {
    if c then Revised(i, a) else i
  }

  lemma RevisedByWhen(i: Item, c: bool, a: Action)
    ensures RevisedBy(i, When(c, a)) == Perhaps(i, c, a)
  {
    hide Revised;
    if c {
      assert [a][..0] == [];
    }
  }

  /** Four optional updates one after the other. */
  lemma RevisedByFour(i: Item, c1: bool, a1: Action, c2: bool, a2: Action, c3: bool, a3: Action, c4: bool, a4: Action)
    ensures RevisedBy(i, When(c1, a1) + When(c2, a2) + When(c3, a3) + When(c4, a4))
         == Perhaps(Perhaps(Perhaps(Perhaps(i, c1, a1), c2, a2), c3, a3), c4, a4)
  {
    hide RevisedBy;
    hide Perhaps;
    hide When;
    RevisedByWhen(i, c1, a1);
    RevisedByConcat(i, When(c1, a1), When(c2, a2));
    RevisedByWhen(Perhaps(i, c1, a1), c2, a2);
    RevisedByConcat(i, When(c1, a1) + When(c2, a2), When(c3, a3));
    RevisedByWhen(Perhaps(Perhaps(i, c1, a1), c2, a2), c3, a3);
    RevisedByConcat(i, When(c1, a1) + When(c2, a2) + When(c3, a3), When(c4, a4));
    RevisedByWhen(Perhaps(Perhaps(Perhaps(i, c1, a1), c2, a2), c3, a3), c4, a4);
  }

  lemma FourIn(c1: bool, a1: Action, c2: bool, a2: Action, c3: bool, a3: Action, c4: bool, a4: Action)
    ensures forall a :: a in When(c1, a1) + When(c2, a2) + When(c3, a3) + When(c4, a4) ==> a == a1 || a == a2 || a == a3 || a == a4
  {
  }

  /** `a` is an update of `i` that fits it. */
  ghost predicate Updates(a: Action, i: Item) {
    IsUpdate(a) && a.id == i.id && Revise(i.spec, a).Some?
  }

  lemma ListenerTargets(d: Spec, i: Item)
    requires d.Listener? && i.spec.Listener?
    ensures forall a :: a in ListenerUpdates(d, i.id, i.spec) ==> Updates(a, i)
  {
    FourIn(d.allowedCIDRs != i.spec.allowedCIDRs, UpdateListenerAllowedCIDRs(i.id, d.allowedCIDRs),
           d.timeoutClientDataMS != i.spec.timeoutClientDataMS,
           UpdateListenerTimeout(i.id, d.timeoutClientDataMS, "client-data-ms"),
           d.timeoutMemberConnectMS != i.spec.timeoutMemberConnectMS,
           UpdateListenerTimeout(i.id, d.timeoutMemberConnectMS, "member-connect-ms"),
           d.timeoutMemberDataMS != i.spec.timeoutMemberDataMS,
           UpdateListenerTimeout(i.id, d.timeoutMemberDataMS, "member-data-ms"));
    hide When;
  }

  lemma HttpTargets(d: Http, i: Item)
    requires i.spec.Monitor? && i.spec.http.Some?
    ensures forall a :: a in HttpUpdates(d, i.id, i.spec.http.value) ==> Updates(a, i)
  {
    var h := i.spec.http.value;
    FourIn(d.host.Some? || h.host.Some?, UpdateMonitorHTTPHost(i.id, d.host),
           d.urlPath != h.urlPath, UpdateMonitorHTTPPath(i.id, d.urlPath),
           d.verb != h.verb, UpdateMonitorHTTPMethod(i.id, d.verb),
           d.expectedCodes != h.expectedCodes, UpdateMonitorHTTPExpectedCodes(i.id, d.expectedCodes));
    hide When;
  }

  lemma NumberTargets(d: Spec, i: Item)
    requires d.Monitor? && i.spec.Monitor?
    ensures forall a :: a in NumberUpdates(d, i.id, i.spec) ==> Updates(a, i)
  {
    FourIn(d.delayS != i.spec.delayS, UpdateMonitorNumber(i.id, d.delayS, "delay-s"),
           d.timeoutS != i.spec.timeoutS, UpdateMonitorNumber(i.id, d.timeoutS, "timeout-s"),
           d.upThreshold != i.spec.upThreshold, UpdateMonitorNumber(i.id, d.upThreshold, "up-threshold"),
           d.downThreshold != i.spec.downThreshold, UpdateMonitorNumber(i.id, d.downThreshold, "down-threshold"));
    hide When;
  }

  /** The updates of a pair all fit its actual side and name nothing else. */
  lemma PairTargets(p: (Item, Item))
    ensures forall a :: a in PairUpdates(p) ==> Updates(a, p.1)
  {
    var d, i := p.0.spec, p.1;
    hide ListenerUpdates;
    hide HttpUpdates;
    hide NumberUpdates;
    hide Updates;
    if d.Listener? && i.spec.Listener? {
      ListenerTargets(d, i);
    } else if d.Monitor? && i.spec.Monitor? {
      NumberTargets(d, i);
      if d.http.Some? && i.spec.http.Some? {
        HttpTargets(d.http.value, i);
      }
    }
  }

  lemma SetCidrs(i: Item, v: seq<string>)
    requires i.spec.Listener?
    ensures Perhaps(i, v != i.spec.allowedCIDRs, UpdateListenerAllowedCIDRs(i.id, v)) == i.(spec := i.spec.(allowedCIDRs := v))
  {
  }

  lemma SetClientData(i: Item, n: int)
    requires i.spec.Listener?
    ensures Perhaps(i, n != i.spec.timeoutClientDataMS, UpdateListenerTimeout(i.id, n, "client-data-ms")) == i.(spec := i.spec.(timeoutClientDataMS := n))
  {
  }

  lemma SetMemberConnect(i: Item, n: int)
    requires i.spec.Listener?
    ensures Perhaps(i, n != i.spec.timeoutMemberConnectMS, UpdateListenerTimeout(i.id, n, "member-connect-ms")) == i.(spec := i.spec.(timeoutMemberConnectMS := n))
  {
  }

  lemma SetMemberData(i: Item, n: int)
    requires i.spec.Listener?
    ensures Perhaps(i, n != i.spec.timeoutMemberDataMS, UpdateListenerTimeout(i.id, n, "member-data-ms")) == i.(spec := i.spec.(timeoutMemberDataMS := n))
  {
  }

  lemma ListenerDone(d: Spec, i: Item)
    requires d.Listener? && i.spec.Listener?
    ensures RevisedBy(i, ListenerUpdates(d, i.id, i.spec))
         == i.(spec := i.spec.(allowedCIDRs := d.allowedCIDRs, timeoutClientDataMS := d.timeoutClientDataMS,
                               timeoutMemberConnectMS := d.timeoutMemberConnectMS,
                               timeoutMemberDataMS := d.timeoutMemberDataMS))
  {
    RevisedByFour(i, d.allowedCIDRs != i.spec.allowedCIDRs, UpdateListenerAllowedCIDRs(i.id, d.allowedCIDRs),
           d.timeoutClientDataMS != i.spec.timeoutClientDataMS,
           UpdateListenerTimeout(i.id, d.timeoutClientDataMS, "client-data-ms"),
           d.timeoutMemberConnectMS != i.spec.timeoutMemberConnectMS,
           UpdateListenerTimeout(i.id, d.timeoutMemberConnectMS, "member-connect-ms"),
           d.timeoutMemberDataMS != i.spec.timeoutMemberDataMS,
           UpdateListenerTimeout(i.id, d.timeoutMemberDataMS, "member-data-ms"));
    hide When;
    hide RevisedBy;
    hide Perhaps;
    SetCidrs(i, d.allowedCIDRs);
    var i1 := i.(spec := i.spec.(allowedCIDRs := d.allowedCIDRs));
    SetClientData(i1, d.timeoutClientDataMS);
    var i2 := i1.(spec := i1.spec.(timeoutClientDataMS := d.timeoutClientDataMS));
    SetMemberConnect(i2, d.timeoutMemberConnectMS);
    SetMemberData(i2.(spec := i2.spec.(timeoutMemberConnectMS := d.timeoutMemberConnectMS)), d.timeoutMemberDataMS);
  }

  lemma SetDelay(i: Item, n: int)
    requires i.spec.Monitor?
    ensures Perhaps(i, n != i.spec.delayS, UpdateMonitorNumber(i.id, n, "delay-s")) == i.(spec := i.spec.(delayS := n))
  {
  }

  lemma SetTimeout(i: Item, n: int)
    requires i.spec.Monitor?
    ensures Perhaps(i, n != i.spec.timeoutS, UpdateMonitorNumber(i.id, n, "timeout-s")) == i.(spec := i.spec.(timeoutS := n))
  {
  }

  lemma SetUp(i: Item, n: int)
    requires i.spec.Monitor?
    ensures Perhaps(i, n != i.spec.upThreshold, UpdateMonitorNumber(i.id, n, "up-threshold")) == i.(spec := i.spec.(upThreshold := n))
  {
  }

  lemma SetDown(i: Item, n: int)
    requires i.spec.Monitor?
    ensures Perhaps(i, n != i.spec.downThreshold, UpdateMonitorNumber(i.id, n, "down-threshold")) == i.(spec := i.spec.(downThreshold := n))
  {
  }

  lemma NumberDone(d: Spec, i: Item)
    requires d.Monitor? && i.spec.Monitor?
    ensures RevisedBy(i, NumberUpdates(d, i.id, i.spec))
         == i.(spec := i.spec.(delayS := d.delayS, timeoutS := d.timeoutS,
                               upThreshold := d.upThreshold, downThreshold := d.downThreshold))
  {
    RevisedByFour(i, d.delayS != i.spec.delayS, UpdateMonitorNumber(i.id, d.delayS, "delay-s"),
           d.timeoutS != i.spec.timeoutS, UpdateMonitorNumber(i.id, d.timeoutS, "timeout-s"),
           d.upThreshold != i.spec.upThreshold, UpdateMonitorNumber(i.id, d.upThreshold, "up-threshold"),
           d.downThreshold != i.spec.downThreshold, UpdateMonitorNumber(i.id, d.downThreshold, "down-threshold"));
    hide When;
    hide RevisedBy;
    hide Perhaps;
    SetDelay(i, d.delayS);
    var i1 := i.(spec := i.spec.(delayS := d.delayS));
    SetTimeout(i1, d.timeoutS);
    var i2 := i1.(spec := i1.spec.(timeoutS := d.timeoutS));
    SetUp(i2, d.upThreshold);
    SetDown(i2.(spec := i2.spec.(upThreshold := d.upThreshold)), d.downThreshold);
  }

  ghost function WithHttp(i: Item, h: Http): Item
    requires i.spec.Monitor?
  {
    i.(spec := i.spec.(http := Some(h)))
  }

  lemma SetHost(i: Item, v: Option<string>)
    requires i.spec.Monitor? && i.spec.http.Some?
    ensures Perhaps(i, v.Some? || i.spec.http.value.host.Some?, UpdateMonitorHTTPHost(i.id, v)) == WithHttp(i, i.spec.http.value.(host := v))
  {
  }

  lemma SetPath(i: Item, v: string)
    requires i.spec.Monitor? && i.spec.http.Some?
    ensures Perhaps(i, v != i.spec.http.value.urlPath, UpdateMonitorHTTPPath(i.id, v)) == WithHttp(i, i.spec.http.value.(urlPath := v))
  {
  }

  lemma SetVerb(i: Item, v: string)
    requires i.spec.Monitor? && i.spec.http.Some?
    ensures Perhaps(i, v != i.spec.http.value.verb, UpdateMonitorHTTPMethod(i.id, v)) == WithHttp(i, i.spec.http.value.(verb := v))
  {
  }

  lemma SetCodes(i: Item, v: seq<string>)
    requires i.spec.Monitor? && i.spec.http.Some?
    ensures Perhaps(i, v != i.spec.http.value.expectedCodes, UpdateMonitorHTTPExpectedCodes(i.id, v)) == WithHttp(i, i.spec.http.value.(expectedCodes := v))
  {
  }

  lemma HttpDone(d: Http, i: Item)
    requires i.spec.Monitor? && i.spec.http.Some?
    ensures RevisedBy(i, HttpUpdates(d, i.id, i.spec.http.value)) == WithHttp(i, d.(version := i.spec.http.value.version))
  {
    var h := i.spec.http.value;
    RevisedByFour(i, d.host.Some? || h.host.Some?, UpdateMonitorHTTPHost(i.id, d.host),
           d.urlPath != h.urlPath, UpdateMonitorHTTPPath(i.id, d.urlPath),
           d.verb != h.verb, UpdateMonitorHTTPMethod(i.id, d.verb),
           d.expectedCodes != h.expectedCodes, UpdateMonitorHTTPExpectedCodes(i.id, d.expectedCodes));
    hide When;
    hide RevisedBy;
    hide Perhaps;
    SetHost(i, d.host);
    var i1 := WithHttp(i, h.(host := d.host));
    SetPath(i1, d.urlPath);
    var i2 := WithHttp(i1, i1.spec.http.value.(urlPath := d.urlPath));
    SetVerb(i2, d.verb);
    SetCodes(WithHttp(i2, i2.spec.http.value.(verb := d.verb)), d.expectedCodes);
  }

  /** A pair agrees after its updates, and they change nothing if it agreed before. */
  lemma PairDone(p: (Item, Item))
    ensures Agree(p.0.spec, RevisedBy(p.1, PairUpdates(p)).spec)
    ensures Agree(p.0.spec, p.1.spec) ==> RevisedBy(p.1, PairUpdates(p)) == p.1
  {
    var d, i := p.0.spec, p.1;
    hide ListenerUpdates;
    hide HttpUpdates;
    hide NumberUpdates;
    hide Revised;
    if d.Listener? && i.spec.Listener? {
      ListenerDone(d, i);
    } else if d.Monitor? && i.spec.Monitor? {
      MonitorDone(d, i);
    }
  }

  lemma MonitorDone(d: Spec, i: Item)
    requires d.Monitor? && i.spec.Monitor?
    ensures
      var b := (if d.http.Some? && i.spec.http.Some? then HttpUpdates(d.http.value, i.id, i.spec.http.value) else [])
               + NumberUpdates(d, i.id, i.spec);
      && Agree(d, RevisedBy(i, b).spec)
      && (Agree(d, i.spec) ==> RevisedBy(i, b) == i)
  {
    hide HttpUpdates;
    hide NumberUpdates;
    hide Revised;
    if d.http.Some? && i.spec.http.Some? {
      HttpDone(d.http.value, i);
      var i1 := WithHttp(i, d.http.value.(version := i.spec.http.value.version));
      RevisedByConcat(i, HttpUpdates(d.http.value, i.id, i.spec.http.value), NumberUpdates(d, i.id, i.spec));
      SameNumbers(d, i, i1);
      NumberDone(d, i1);
    } else {
      assert [] + NumberUpdates(d, i.id, i.spec) == NumberUpdates(d, i.id, i.spec);
      NumberDone(d, i);
    }
  }

  lemma SameNumbers(d: Spec, i: Item, j: Item)
    requires d.Monitor? && i.spec.Monitor? && j.spec.Monitor? && i.id == j.id
    requires i.spec.(http := j.spec.http) == j.spec
    ensures NumberUpdates(d, i.id, i.spec) == NumberUpdates(d, j.id, j.spec)
  {
  }
}
