/** What the batch of a round consists of, action by action. */
module Steps {
  import opened Seqs
  import opened Compare
  import opened Domain
  import opened CloudWorld
  import opened Planner
  import opened Rounds
  import opened FinalRounds
  import opened Settling
  import opened BatchOrder

  // ---------------------------------------------------------------- deletions and creations

  /** Half a second after each deletion. */
  lemma {:induction false} DeletionsAre(items: seq<Item>)
    ensures |Deletions(items)| == 2 * |items|
    ensures forall i :: 0 <= i < |items| ==>
      Deletions(items)[2 * i] == DeleteResource(items[i].id) && Deletions(items)[2 * i + 1] == Sleep(500)
  {
    if items != [] {
      var n := |items| - 1;
      var init, b := items[..n], Deletions(items);
      assert items == init + [items[n]];
      DeletionsAre(init);
      FlatLast(init, items[n], Deletion);
      hide Flat;
      assert b == Deletions(init) + [DeleteResource(items[n].id), Sleep(500)];
      forall i | 0 <= i < |items|
        ensures b[2 * i] == DeleteResource(items[i].id) && b[2 * i + 1] == Sleep(500)
      {
        if i < n {
          assert b[2 * i] == Deletions(init)[2 * i] && b[2 * i + 1] == Deletions(init)[2 * i + 1];
        }
      }
    }
  }

  /** An undesired pool goes after its members, one after the other. */
  lemma RemovalIs(n: PoolNode)
    ensures
      var b, m := PoolRemoval(n), |n.members|;
      && |b| == 2 * m + 2 && (forall i :: 0 <= i < m ==> b[2 * i] == DeleteResource(n.members[i].id))
      && b[2 * m] == DeleteResource(n.pool.id) && forall i :: 0 <= i <= m ==> b[2 * i + 1] == Sleep(500)
  {
    DeletionsAre(n.members + [n.pool]);
    hide Deletions;
    assert forall i :: 0 <= i < |n.members| ==> (n.members + [n.pool])[i] == n.members[i];
  }

  /** The call that creates a resource in a pool. */
  predicate CreatesIt(a: Action, pool: Uuid, i: Item) {
    match i.spec
    case Member(_, _, _, _, _, _) => a == CreatePoolMember(pool, i)
    case Listener(_, _, _, _, _, _, _) => a == CreateListener(pool, i)
    case Monitor(_, _, _, _, _, _) => a == CreateHealthMonitor(pool, i)
    case Pool(_, _, _) => false
  }

  /** What one comparison deletes goes first; then, if there is also something to create, a pause of five seconds; then
      what it creates comes, in the pool it was made for. */
  lemma JobStepsAre(x: JobDiff)
    requires x.job.kind != KPool && forall i :: i in x.cre ==> KindOf(i.spec) == x.job.kind
    ensures
      var b, n := JobSteps(x), 2 * |x.del|;
      var p := if x.del != [] && x.cre != [] then 1 else 0;
      && |b| == n + p + |x.cre|
      && (forall i :: 0 <= i < |x.del| ==> b[2 * i] == DeleteResource(x.del[i].id) && b[2 * i + 1] == Sleep(500))
      && (p == 1 ==> b[n] == Sleep(5000))
      && forall i :: 0 <= i < |x.cre| ==> CreatesIt(b[n + p + i], x.job.pool, x.cre[i])
  {
    DeletionsAre(x.del);
    hide Deletions;
    var cs := Map(x.cre, CreationIn(x.job.pool, x.job.kind));
    forall i | 0 <= i < |x.cre|
      ensures CreatesIt(cs[i], x.job.pool, x.cre[i])
    {
      assert x.cre[i] in x.cre;
    }
    hide CreatesIt;
    hide CreateIn;
  }

  /** The three comparisons of a desired pool with an actual one: members, listeners and monitors. */
  predicate Compares(js: seq<Job>, i: nat, d: PoolNode, a: PoolNode) {
    && 3 * i + 2 < |js|
    && js[3 * i] == Job(a.pool.id, KMember, d.members, a.members)
    && js[3 * i + 1] == Job(a.pool.id, KListener, d.listeners, a.listeners)
    && js[3 * i + 2] == Job(a.pool.id, KMonitor, d.monitors, a.monitors)
  }

  lemma MoreCompares(js: seq<Job>, more: seq<Job>, i: nat, d: PoolNode, a: PoolNode)
    requires Compares(js, i, d, a)
    ensures Compares(js + more, i, d, a)
  {
  }

  lemma LastCompares(js: seq<Job>, n: nat, d: PoolNode, a: PoolNode)
    requires |js| == 3 * n
    ensures |js + JobsOf(d, a)| == 3 * (n + 1) && Compares(js + JobsOf(d, a), n, d, a)
  {
  }

  lemma AllButLast(s: seq<PoolNode>)
    requires s != []
    ensures
      var n := |s| - 1;
      && s == s[..n] + [s[n]] && s[n] in s && (forall x :: x in s[..n] ==> x in s)
      && forall i :: 0 <= i < n ==> s[..n][i] == s[i]
  {
  }

  lemma JobsByLast(init: seq<PoolNode>, d: PoolNode, m: map<string, PoolNode>)
    requires NodeName(d) in m
    ensures Flat(init + [d], JobsBy(m)) == Flat(init, JobsBy(m)) + JobsOf(d, m[NodeName(d)])
  {
    FlatLast(init, d, JobsBy(m));
    hide Flat;
    hide JobsOf;
  }

  lemma {:induction false} JobsByAre(desired: seq<PoolNode>, m: map<string, PoolNode>)
    requires forall d :: d in desired ==> NodeName(d) in m
    ensures |Flat(desired, JobsBy(m))| == 3 * |desired|
    ensures forall i :: 0 <= i < |desired| ==> Compares(Flat(desired, JobsBy(m)), i, desired[i], m[NodeName(desired[i])])
  {
    if desired == [] {
      FlatNil(JobsBy(m));
    } else {
      var n := |desired| - 1;
      var init, d := desired[..n], desired[n];
      hide *;
      AllButLast(desired);
      JobsByAre(init, m);
      JobsByLast(init, d, m);
      LastCompares(Flat(init, JobsBy(m)), n, d, m[NodeName(d)]);
      forall i | 0 <= i < n
        ensures Compares(Flat(desired, JobsBy(m)), i, desired[i], m[NodeName(desired[i])])
      {
        MoreCompares(Flat(init, JobsBy(m)), JobsOf(d, m[NodeName(d)]), i, desired[i], m[NodeName(desired[i])]);
      }
    }
  }

  /** Each desired pool is compared with the last one of its name: first its members, then its listeners, then its
      monitors. */
  lemma JobsAre(desired: seq<PoolNode>, actual: seq<PoolNode>)
    requires Resolves(desired, actual)
    ensures |Jobs(desired, actual)| == 3 * |desired|
    ensures forall i :: 0 <= i < |desired| ==>
      desired[i] in desired && Compares(Jobs(desired, actual), i, desired[i], Index(actual, NodeName)[NodeName(desired[i])])
  {
    JobsByAre(desired, Index(actual, NodeName));
    hide Index;
    hide Flat;
    hide Compares;
    hide NodeName;
  }

  // ---------------------------------------------------------------- updates

  /** A listener or a monitor of the cloud differs from what is desired in a field that is updated in place; two HTTP
      hosts count as different unless both are missing. */
  predicate Differs(d: Spec, a: Spec) {
    || (d.Listener? && a.Listener?
        && (d.allowedCIDRs != a.allowedCIDRs || d.timeoutClientDataMS != a.timeoutClientDataMS
            || d.timeoutMemberConnectMS != a.timeoutMemberConnectMS || d.timeoutMemberDataMS != a.timeoutMemberDataMS))
    || (d.Monitor? && a.Monitor?
        && (d.delayS != a.delayS || d.timeoutS != a.timeoutS || d.upThreshold != a.upThreshold || d.downThreshold != a.downThreshold
            || (d.http.Some? && a.http.Some?
                && (d.http.value.verb != a.http.value.verb || d.http.value.urlPath != a.http.value.urlPath
                    || d.http.value.expectedCodes != a.http.value.expectedCodes
                    || d.http.value.host.Some? || a.http.value.host.Some?))))
  }

  /** There is an update of a matched pair exactly if it differs, and each update changes something, but for that of an
      HTTP host. */
  lemma UpdatesExactly(p: (Item, Item))
    ensures PairUpdates(p) != [] <==> Differs(p.0.spec, p.1.spec)
    ensures forall a :: a in PairUpdates(p) && !a.UpdateMonitorHTTPHost? ==> Revised(p.1, a) != p.1
  {
    var d, i, a := p.0.spec, p.1, p.1.spec;
    if d.Listener? && a.Listener? {
      ListenerUpdatesExactly(d, i);
      hide ListenerUpdates;
    } else if d.Monitor? && a.Monitor? {
      NumberUpdatesExactly(d, i);
      hide NumberUpdates;
      if d.http.Some? && a.http.Some? {
        HttpUpdatesExactly(d.http.value, i);
        hide HttpUpdates;
      }
    }
  }

  /** An update that is made when it is needed. */
  predicate Needed(needed: bool, u: Action, i: Item) {
    needed ==> Revised(i, u) != i
  }

  lemma ListenerUpdatesExactly(d: Spec, i: Item)
    requires d.Listener? && i.spec.Listener?
    ensures ListenerUpdates(d, i.id, i.spec) != [] <==> Differs(d, i.spec)
    ensures forall u :: u in ListenerUpdates(d, i.id, i.spec) ==> Revised(i, u) != i
  {
    var a, id := i.spec, i.id;
    assert Needed(d.allowedCIDRs != a.allowedCIDRs, UpdateListenerAllowedCIDRs(id, d.allowedCIDRs), i);
    assert Needed(d.timeoutClientDataMS != a.timeoutClientDataMS, UpdateListenerTimeout(id, d.timeoutClientDataMS, "client-data-ms"), i);
    assert Needed(d.timeoutMemberConnectMS != a.timeoutMemberConnectMS,
                  UpdateListenerTimeout(id, d.timeoutMemberConnectMS, "member-connect-ms"), i);
    assert Needed(d.timeoutMemberDataMS != a.timeoutMemberDataMS, UpdateListenerTimeout(id, d.timeoutMemberDataMS, "member-data-ms"), i);
    hide Revised;
  }

  lemma NumberUpdatesExactly(d: Spec, i: Item)
    requires d.Monitor? && i.spec.Monitor?
    ensures NumberUpdates(d, i.id, i.spec) != [] <==>
      d.delayS != i.spec.delayS || d.timeoutS != i.spec.timeoutS || d.upThreshold != i.spec.upThreshold || d.downThreshold != i.spec.downThreshold
    ensures forall u :: u in NumberUpdates(d, i.id, i.spec) ==> !u.UpdateMonitorHTTPHost? && Revised(i, u) != i
  {
    var a, id := i.spec, i.id;
    assert Needed(d.delayS != a.delayS, UpdateMonitorNumber(id, d.delayS, "delay-s"), i);
    assert Needed(d.timeoutS != a.timeoutS, UpdateMonitorNumber(id, d.timeoutS, "timeout-s"), i);
    assert Needed(d.upThreshold != a.upThreshold, UpdateMonitorNumber(id, d.upThreshold, "up-threshold"), i);
    assert Needed(d.downThreshold != a.downThreshold, UpdateMonitorNumber(id, d.downThreshold, "down-threshold"), i);
    hide Revised;
  }

  lemma HttpUpdatesExactly(d: Http, i: Item)
    requires i.spec.Monitor? && i.spec.http.Some?
    ensures
      var a := i.spec.http.value;
      HttpUpdates(d, i.id, a) != [] <==>
        d.verb != a.verb || d.urlPath != a.urlPath || d.expectedCodes != a.expectedCodes || d.host.Some? || a.host.Some?
    ensures forall u :: u in HttpUpdates(d, i.id, i.spec.http.value) && !u.UpdateMonitorHTTPHost? ==> Revised(i, u) != i
  {
  }

  // ---------------------------------------------------------------- floating IPs

  /** A floating IP is assigned to the load balancer exactly if it is desired and not there, in the notation of the cloud,
      and only by a plan that ends the run. */
  lemma AssignsMissing(w: World, d: State, l: Lb, status: string, c: Choice, ip: string, lb: Uuid)
    requires d.lb.Some? && Possible(d, Snapshot(w, Some(l), status), c)
    ensures AssignFloatingIP(ip, lb) in Plan(d, Snapshot(w, Some(l), status), c) <==>
      LastPhase(c) && lb == l.id && ip in d.floatingIPs && forall f :: f in w.fips && f.lb == Some(l.id) ==> f.network != ip
  {
    var s, a := Snapshot(w, Some(l), status), AssignFloatingIP(ip, lb);
    NetworksIn(w.fips, l.id);
    UpdatesOnly(Pairs(Jobs(d.pools, NodesOf(w.items, l.id))));
    AssignedAre(c.assign, l.id, ip, lb);
    if LastPhase(c) {
      LastAssigns(d, s, c, ip);
      OpeningAssigns(d.lb.value, status, l, a);
    } else if a in Plan(d, s, c) {
      RevisesInLastPhase(d, s, c, a);
    }
    hide Flat;
    hide Jobs;
    hide NodesOf;
    hide NetworksOf;
    hide IsDiff;
    hide DiffsOf;
    hide Opening;
    hide PoolSteps;
    hide Pairs;
  }

  lemma OpeningAssigns(d: Lb, status: string, l: Lb, a: Action)
    requires a.AssignFloatingIP?
    ensures a !in Opening(d, status, l)
  {
  }

  lemma AssignedAre(ips: seq<string>, lb: Uuid, ip: string, lb1: Uuid)
    ensures AssignFloatingIP(ip, lb1) in Map(ips, Assignment(lb)) <==> ip in ips && lb1 == lb
  {
    var b := Map(ips, Assignment(lb));
    AssignmentsIn(ips, lb);
    if ip in ips {
      var k :| 0 <= k < |ips| && ips[k] == ip;
      assert b[k] == AssignFloatingIP(ip, lb);
    }
  }

  lemma LastAssigns(d: State, s: State, c: Choice, ip: string)
    requires d.lb.Some? && s.lb.Some? && Possible(d, s, c) && LastPhase(c)
    ensures ip in c.assign <==> ip in d.floatingIPs && ip !in s.floatingIPs
  {
    CreatesMissing(d.floatingIPs, s.floatingIPs, Same, c.release, c.assign);
    hide IsDiff;
    hide DiffsOf;
    hide Jobs;
    hide Resolves;
    assert ip in s.floatingIPs <==> Same(ip) in KeySet(s.floatingIPs, Same);
  }
}
