/** A planner that does not refuse always comes up with something: its map iterations have an outcome. */
module Choices {
  import opened Seqs
  import opened Compare
  import opened Domain
  import opened CloudWorld
  import opened Planner
  import opened Limiters
  import opened Lookup
  import opened Rounds
  import opened Runs

  lemma {:induction false} SomeList<T(!new), K(!new)>(m: map<K, T>, ks: set<K>, key: T -> K) returns (xs: seq<T>)
    requires ks <= m.Keys && forall k :: k in m ==> key(m[k]) == k
    ensures Enumerates(xs, m, ks, key)
    decreases ks
  {
    if ks == {} {
      xs := [];
    } else {
      var k :| k in ks;
      var rest := SomeList(m, ks - {k}, key);
      assert forall x :: x in rest ==> key(x) in KeySet(rest, key);
      xs := rest + [m[k]];
      OneMore(rest, m[k], key);
    }
  }

  lemma SomeDiff<T(!new), K(!new)>(desired: seq<T>, actual: seq<T>, key: T -> K) returns (del: seq<T>, cre: seq<T>)
    ensures IsDiff(desired, actual, key, del, cre)
  {
    var d, a := Index(desired, key), Index(actual, key);
    hide Enumerates;
    cre := SomeList(d, d.Keys - a.Keys, key);
    del := SomeList(a, a.Keys - d.Keys, key);
  }

  lemma {:induction false} SomeDiffs(jobs: seq<Job>) returns (diffs: seq<JobDiff>)
    ensures DiffsOf(jobs, diffs)
  {
    if jobs == [] {
      diffs := [];
    } else {
      var n := |jobs| - 1;
      var before := SomeDiffs(jobs[..n]);
      var del, cre := SomeDiff(jobs[n].want, jobs[n].have, ItemKey);
      diffs := before + [JobDiff(jobs[n], del, cre)];
      assert DiffOf(jobs[n], diffs[n]);
      hide DiffOf;
      forall k | 0 <= k < |jobs|
        ensures DiffOf(jobs[k], diffs[k])
      {
        assert k < n ==> DiffOf(jobs[..n][k], before[k]);
      }
    }
  }

  /** Unless it refuses, the planner returns a batch. */
  lemma SomeChoice(d: State, s: State) returns (c: Choice)
    requires !Refuses(d, s)
    ensures Possible(d, s, c)
  {
    c := Choice([], [], [], [], []);
    if d.lb.Some? && s.lb.Some? {
      var del, cre := SomeDiff(d.pools, s.pools, NodeKey);
      EmptyDiffSamePools(d, s, del, cre);
      var diffs := SomeDiffs(Jobs(d.pools, s.pools));
      var release, assign := SomeDiff(d.floatingIPs, s.floatingIPs, Same);
      c := Choice(del, cre, diffs, release, assign);
      hide IsDiff;
      hide DiffsOf;
      hide Jobs;
      hide SamePools;
      hide Resolves;
    }
  }

  /** Unless it refuses, there is a turn to make, for any status of the load balancer. */
  lemma SomeTurn(w: World, q: Query, d: State, status: string) returns (t: Turn)
    requires FoundIn(w, q).Some? || FindByServiceInfo(w.lbs, q) == Success(None)
    requires !Refuses(d, Snapshot(w, FoundIn(w, q), status))
    ensures Planned(w, q, t) && t.desired == d && t.status == status
  {
    var c := SomeChoice(d, Snapshot(w, FoundIn(w, q), status));
    t := Turn(d, status, c);
    hide Refuses;
    hide Possible;
    hide Snapshot;
  }
}
