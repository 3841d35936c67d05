/** pkg/cloudscale_ccm/lb_mapper.go: which load balancer belongs to a service. */
module Lookup {
  import opened Seqs
  import opened Domain
  import opened CloudWorld
  import opened Limiters

  /** The load balancer annotations of a service: the UUID, once annotated, and the name. */
  datatype Query = Query(uuid: Option<Uuid>, name: string)

  const SameLb: (Lb, Lb) -> bool := (a: Lb, b: Lb) => a.id == b.id

  const EmptyName := Other("no load balancer with empty name found")

  function ByUuid(lbs: seq<Lb>, id: Uuid): (r: seq<Lb>)
    ensures forall l :: l in r <==> l in lbs && l.id == id
  {
    Filter(lbs, (l: Lb) => l.id == id)
  }

  function ByName(lbs: seq<Lb>, name: string): (r: seq<Lb>)
    ensures forall l :: l in r <==> l in lbs && l.name == name
  {
    Filter(lbs, (l: Lb) => l.name == name)
  }

  function Named(lbs: seq<Lb>, q: Query): (r: seq<Lb>)
    ensures forall l :: l in r <==> l in lbs && q.name != "" && l.name == q.name
  {
    if q.name == "" then [] else ByName(lbs, q.name)
  }

  /** Answers by UUID and by name together, each load balancer once. */
  function Found(lbs: seq<Lb>, q: Query): seq<Lb> {
    if q.uuid.Some? then Deduped(ByUuid(lbs, q.uuid.value) + Named(lbs, q), SameLb) else Named(lbs, q)
  }

  /** Looking for an empty name is an error, which gets lost when answers are joined. */
  function FindByServiceInfo(lbs: seq<Lb>, q: Query): Result<Option<Lb>, Count> {
    if q.uuid.None? && q.name == "" then Failure(EmptyName) else AtMostOneOf(Found(lbs, q))
  }

  /** The load balancers that carry the UUID or the name of the service. */
  ghost function Candidates(lbs: seq<Lb>, q: Query): set<Lb> {
    set l | l in lbs && (q.uuid == Some(l.id) || (q.name != "" && l.name == q.name))
  }

  lemma AtMostOneExact<T(!new)>(s: seq<T>)
    ensures AtMostOneOf(s) == Success(None) <==> s == []
    ensures forall x :: AtMostOneOf(s) == Success(Some(x)) <==> s == [x]
  {
    assert |s| == 1 ==> s == [s[0]];
  }

  /** Of answers from one cloud, `Unique` keeps each load balancer once. */
  lemma AnswersOnce(lbs: seq<Lb>, answers: seq<Lb>)
    requires Distinct(lbs, LbId) && forall x :: x in answers ==> x in lbs
    ensures Distinct(Deduped(answers, SameLb), LbId)
    ensures forall x :: x in Deduped(answers, SameLb) <==> x in answers
  {
    DedupedByKey(answers, SameLb, LbId);
    hide Deduped;
    var found := Deduped(answers, SameLb);
    forall x | x in answers
      ensures x in found
    {
      assert LbId(x) in KeySet(answers, LbId);
      var y :| y in found && LbId(y) == LbId(x);
      DistinctSame(lbs, LbId, x, y);
    }
  }

  lemma FoundExact(lbs: seq<Lb>, q: Query)
    requires Distinct(lbs, LbId)
    ensures Distinct(Found(lbs, q), LbId)
    ensures forall x :: x in Found(lbs, q) <==> x in Candidates(lbs, q)
  {
    if q.uuid.Some? {
      AnswersOnce(lbs, ByUuid(lbs, q.uuid.value) + Named(lbs, q));
      hide Deduped;
    } else if q.name != "" {
      FilterDistinct(lbs, (x: Lb) => x.name == q.name, LbId);
    }
  }

  lemma ListOfSet<T(!new), K(!new)>(s: seq<T>, c: set<T>, key: T -> K)
    requires Distinct(s, key) && forall x :: x in s <==> x in c
    ensures s == [] <==> c == {}
    ensures forall x :: s == [x] <==> c == {x}
  {
    assert s != [] ==> s[0] in s;
    assert |s| > 1 ==> key(s[0]) != key(s[1]);
    forall x | c == {x}
      ensures s == [x]
    {
      assert x in s;
      forall i | 0 <= i < |s|
        ensures s[i] == x
      {
        assert s[i] in s;
        assert s[i] in c;
      }
    }
  }

  /** A load balancer is found exactly when it is the only candidate, none exactly when there is no
      candidate; with two candidates, or with nothing to look for, the lookup fails. */
  lemma LookupExact(lbs: seq<Lb>, q: Query)
    requires Distinct(lbs, LbId)
    ensures forall l :: FindByServiceInfo(lbs, q) == Success(Some(l)) <==> Candidates(lbs, q) == {l}
    ensures FindByServiceInfo(lbs, q) == Success(None)
       <==> Candidates(lbs, q) == {} && (q.uuid.Some? || q.name != "")
  {
    FoundExact(lbs, q);
    AtMostOneExact(Found(lbs, q));
    ListOfSet(Found(lbs, q), Candidates(lbs, q), LbId);
    if q.uuid.None? && q.name == "" {
      assert Candidates(lbs, q) == {};
    }
  }

  /** Renaming what the lookup found to the name of the service leaves exactly one load balancer
      with that name. */
  lemma RenameIsSafe(lbs: seq<Lb>, q: Query, l: Lb)
    requires Distinct(lbs, LbId) && q.name != ""
    requires FindByServiceInfo(lbs, q) == Success(Some(l))
    ensures
      var renamed := Renamed(lbs, l.id, q.name);
      && Candidates(renamed, q) == {l.(name := q.name)}
      && FindByServiceInfo(renamed, q) == Success(Some(l.(name := q.name)))
  {
    LookupExact(lbs, q);
    var renamed := Renamed(lbs, l.id, q.name);
    RenamedCandidate(lbs, q, l);
    hide Candidates;
    LookupExact(renamed, q);
  }

  lemma RenamedCandidate(lbs: seq<Lb>, q: Query, l: Lb)
    requires Distinct(lbs, LbId) && q.name != ""
    requires Candidates(lbs, q) == {l}
    ensures Distinct(Renamed(lbs, l.id, q.name), LbId)
    ensures Candidates(Renamed(lbs, l.id, q.name), q) == {l.(name := q.name)}
  {
    var renamed := Renamed(lbs, l.id, q.name);
    var l1 := l.(name := q.name);
    assert l in Candidates(lbs, q);
    forall k | 0 <= k < |lbs|
      ensures renamed[k] == (if lbs[k] == l then l1 else lbs[k])
      ensures lbs[k] != l ==> lbs[k] !in Candidates(lbs, q)
    {
      if lbs[k].id == l.id {
        DistinctSame(lbs, LbId, lbs[k], l);
      }
    }
    var k :| 0 <= k < |lbs| && lbs[k] == l;
    assert renamed[k] in renamed;
    forall x | x in Candidates(renamed, q)
      ensures x == l1
    {
      var j :| 0 <= j < |renamed| && renamed[j] == x;
      assert lbs[j] in lbs;
    }
  }

  // ---------------------------------------------------------------- failing calls

  const CallError := Other("the call failed")

  /** The lookup when the call by UUID, or the listing, fails: joining the answers loses the error. */
  function FindDespite(lbs: seq<Lb>, q: Query, uuidFails: bool, listFails: bool): Result<Option<Lb>, Count> {
    if q.uuid.Some? then
      AtMostOneOf(Deduped((if uuidFails then [] else ByUuid(lbs, q.uuid.value)) + (if listFails then [] else Named(lbs, q)), SameLb))
    else if q.name == "" then Failure(EmptyName)
    else if listFails then Failure(CallError)
    else AtMostOneOf(ByName(lbs, q.name))
  }

  /** The candidates that the calls which did not fail have answered with. */
  ghost function Answered(lbs: seq<Lb>, q: Query, uuidFails: bool, listFails: bool): set<Lb> {
    set l | l in lbs && ((!uuidFails && q.uuid == Some(l.id)) || (!listFails && q.name != "" && l.name == q.name))
  }

  lemma NothingFails(lbs: seq<Lb>, q: Query)
    ensures FindDespite(lbs, q, false, false) == FindByServiceInfo(lbs, q)
    ensures Answered(lbs, q, false, false) == Candidates(lbs, q)
  {
  }

  lemma DespiteExact(lbs: seq<Lb>, q: Query, uuidFails: bool, listFails: bool)
    requires Distinct(lbs, LbId) && q.uuid.Some?
    ensures FindDespite(lbs, q, uuidFails, listFails) == Success(None) <==> Answered(lbs, q, uuidFails, listFails) == {}
    ensures forall l :: FindDespite(lbs, q, uuidFails, listFails) == Success(Some(l)) <==> Answered(lbs, q, uuidFails, listFails) == {l}
  {
    var both := (if uuidFails then [] else ByUuid(lbs, q.uuid.value)) + (if listFails then [] else Named(lbs, q));
    AnswersOnce(lbs, both);
    hide Deduped;
    AtMostOneExact(Deduped(both, SameLb));
    ListOfSet(Deduped(both, SameLb), Answered(lbs, q, uuidFails, listFails), LbId);
    hide AtMostOneOf;
  }

  /** A failing call makes the lookup succeed with a wrong answer exactly if the service carries a UUID, the calls
      that answered have left a candidate out, and have not come up with two. */
  lemma LostErrors(lbs: seq<Lb>, q: Query, uuidFails: bool, listFails: bool)
    requires Distinct(lbs, LbId)
    ensures
      var r, answered := FindDespite(lbs, q, uuidFails, listFails), Answered(lbs, q, uuidFails, listFails);
      (r.Success? && r != FindByServiceInfo(lbs, q)) <==>
      (q.uuid.Some? && answered != Candidates(lbs, q) && (answered == {} || exists l :: answered == {l}))
  {
    NothingFails(lbs, q);
    if q.uuid.Some? {
      DespiteExact(lbs, q, uuidFails, listFails);
      DespiteExact(lbs, q, false, false);
      hide FindByServiceInfo;
      hide FindDespite;
      hide Answered;
      hide Candidates;
      var r := FindDespite(lbs, q, uuidFails, listFails);
      assert r.Success? ==> r == Success(None) || r == Success(Some(r.value.value));
    }
  }

  lemma AddedDistinct(lbs: seq<Lb>, made: Lb)
    requires Distinct(lbs, LbId) && forall x :: x in lbs ==> x.id != made.id
    ensures Distinct(lbs + [made], LbId)
  {
  }

  lemma TwoCandidates(lbs: seq<Lb>, q: Query, l: Lb, made: Lb)
    requires Distinct(lbs, LbId) && (forall x :: x in lbs ==> x.id != made.id)
    requires q.uuid.Some? && q.name != "" && made.name == q.name && FindByServiceInfo(lbs, q) == Success(Some(l))
    ensures FindByServiceInfo(lbs + [made], q) == Failure(FoundMany)
  {
    AddedDistinct(lbs, made);
    LookupExact(lbs, q);
    LookupExact(lbs + [made], q);
    assert l in Candidates(lbs, q);
    assert l in Candidates(lbs + [made], q) && made in Candidates(lbs + [made], q) && l != made;
    OneOutcome(lbs + [made], q);
    hide Candidates;
    hide FindByServiceInfo;
  }

  /** So, when both calls for an existing load balancer fail, none is found, and the one that is then created makes
      all later lookups fail. */
  lemma LostErrorsDuplicate(w: World, q: Query, l: Lb, lb: Lb)
    requires Distinct(w.lbs, LbId) && (forall x :: x in w.lbs ==> x.id != w.next)
    requires q.uuid.Some? && q.name != "" && lb.name == q.name && FindByServiceInfo(w.lbs, q) == Success(Some(l))
    ensures FindDespite(w.lbs, q, true, true) == Success(None)
    ensures FindByServiceInfo(Apply(w, CreateLb(lb)).world.lbs, q) == Failure(FoundMany)
  {
    var made := lb.(id := w.next, vips := Granted(lb.vips, w.autoVip));
    assert Apply(w, CreateLb(lb)).world.lbs == w.lbs + [made];
    DespiteExact(w.lbs, q, true, true);
    assert Answered(w.lbs, q, true, true) == {};
    hide Apply;
    hide FindByServiceInfo;
    hide FindDespite;
    TwoCandidates(w.lbs, q, l, made);
  }

  lemma OneOutcome(lbs: seq<Lb>, q: Query)
    requires q.uuid.Some?
    ensures var r := FindByServiceInfo(lbs, q); r == Failure(FoundMany) || r == Success(None) || exists l :: r == Success(Some(l))
  {
    hide Found;
  }
}
