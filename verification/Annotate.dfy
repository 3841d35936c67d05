/** pkg/internal/kubeutil/annotate.go: the JSON patch that annotates a service, and what it does to it. */
module Annotate {
  import opened Seqs

  // ---------------------------------------------------------------- JSON pointers

  /** `strings.ReplaceAll` for a pattern of one character. */
  function ReplaceAll(s: string, c: char, sub: string): string {
    if s == "" then "" else (if s[0] == c then sub else [s[0]]) + ReplaceAll(s[1..], c, sub)
  }

  /** The two passes over a key. */
  function Escape(k: string): string {
    ReplaceAll(ReplaceAll(k, '~', "~0"), '/', "~1")
  }

  /** Replaces a pattern of two characters by one. */
  function Contract(s: string, c: char, d: char, sub: char): string {
    if |s| < 2 then s
    else if s[0] == c && s[1] == d then [sub] + Contract(s[2..], c, d, sub)
    else [s[0]] + Contract(s[1..], c, d, sub)
  }

  /** How a reference token is read: first `~1`, then `~0` (section 4 of RFC 6901). */
  function Decode(token: string): string {
    Contract(Contract(token, '~', '1', '/'), '~', '0', '~')
  }

  /** The reference tokens of a pointer, which follow one slash each (section 3 of RFC 6901). */
  function Split(s: string): seq<string> {
    if s == "" then [""]
    else if s[0] == '/' then [""] + Split(s[1..])
    else
      var rest := Split(s[1..]);
      if rest == [] then [] else [[s[0]] + rest[0]] + rest[1..]
  }

  function Tokens(pointer: string): seq<string> {
    if pointer == "" || pointer[0] != '/' then [] else Map(Split(pointer[1..]), (t: string) => Decode(t))
  }

  function EscapedChar(c: char): string {
    if c == '~' then "~0" else if c == '/' then "~1" else [c]
  }

  lemma ReplaceFirst(c: char, rest: string, p: char, sub: string)
    ensures ReplaceAll([c] + rest, p, sub) == (if c == p then sub else [c]) + ReplaceAll(rest, p, sub)
  {
    assert ([c] + rest)[1..] == rest;
  }

  lemma EscapeFirst(k: string)
    requires k != ""
    ensures Escape(k) == EscapedChar(k[0]) + Escape(k[1..])
  {
    var inner := ReplaceAll(k[1..], '~', "~0");
    assert k == [k[0]] + k[1..];
    ReplaceFirst(k[0], k[1..], '~', "~0");
    hide ReplaceAll;
    if k[0] == '~' {
      assert "~0" + inner == ['~'] + (['0'] + inner);
      ReplaceFirst('~', ['0'] + inner, '/', "~1");
      ReplaceFirst('0', inner, '/', "~1");
    } else {
      ReplaceFirst(k[0], inner, '/', "~1");
    }
  }

  lemma {:induction false} FirstPassUndone(k: string)
    ensures Contract(ReplaceAll(k, '~', "~0"), '~', '0', '~') == k
  {
    if k != "" {
      var rest := ReplaceAll(k[1..], '~', "~0");
      FirstPassUndone(k[1..]);
      if k[0] == '~' {
        assert ("~0" + rest)[2..] == rest;
      } else {
        ContractSkips(k[0], rest, '~', '0', '~');
      }
    }
  }

  lemma ContractSkips(c: char, rest: string, first: char, second: char, sub: char)
    requires c != first
    ensures Contract([c] + rest, first, second, sub) == [c] + Contract(rest, first, second, sub)
  {
    assert ([c] + rest)[1..] == rest;
  }

  lemma ContractTilde(rest: string)
    ensures Contract("~0" + rest, '~', '1', '/') == "~0" + Contract(rest, '~', '1', '/')
    ensures Contract("~1" + rest, '~', '1', '/') == "/" + Contract(rest, '~', '1', '/')
  {
    assert ("~1" + rest)[2..] == rest;
    assert ("~0" + rest)[1..] == ['0'] + rest;
    ContractSkips('0', rest, '~', '1', '/');
  }

  lemma {:induction false} SecondPassUndone(k: string)
    ensures Contract(Escape(k), '~', '1', '/') == ReplaceAll(k, '~', "~0")
  {
    if k == "" {
    } else {
      var rest := Escape(k[1..]);
      assert k == [k[0]] + k[1..];
      ReplaceFirst(k[0], k[1..], '~', "~0");
      EscapeFirst(k);
      SecondPassUndone(k[1..]);
      hide Escape;
      hide ReplaceAll;
      hide Contract;
      if k[0] == '~' || k[0] == '/' {
        ContractTilde(rest);
      } else {
        ContractSkips(k[0], rest, '~', '1', '/');
      }
    }
  }

  lemma {:induction false} NoSlash(k: string)
    ensures '/' !in Escape(k)
  {
    if k != "" {
      EscapeFirst(k);
      NoSlash(k[1..]);
    }
  }

  /** Every key is read back from its token, and its token has no slash in it. */
  lemma EscapeRoundTrip(k: string)
    ensures Decode(Escape(k)) == k && '/' !in Escape(k)
  {
    SecondPassUndone(k);
    FirstPassUndone(k);
    NoSlash(k);
  }

  lemma {:induction false} SplitFirst(a: string, b: string)
    requires '/' !in a
    ensures Split(a + "/" + b) == [a] + Split(b)
  {
    if a == "" {
      assert (a + "/" + b)[1..] == b;
    } else {
      SplitFirst(a[1..], b);
      assert (a + "/" + b)[1..] == a[1..] + "/" + b;
      assert ([a[1..]] + Split(b))[1..] == Split(b);
      assert [a[0]] + a[1..] == a;
    }
  }

  lemma {:induction false} SplitLast(a: string)
    requires '/' !in a
    ensures Split(a) == [a]
  {
    if a != "" {
      SplitLast(a[1..]);
      assert [a[0]] + a[1..] == a && [a[1..]][1..] == [];
    }
  }

  function Annotations(): string {
    "/metadata/annotations"
  }

  lemma {:induction false} DecodePlain(s: string)
    requires '~' !in s
    ensures Decode(s) == s
  {
    ContractPlain(s, '1', '/');
    ContractPlain(s, '0', '~');
  }

  lemma {:induction false} ContractPlain(s: string, d: char, sub: char)
    requires '~' !in s
    ensures Contract(s, '~', d, sub) == s
  {
    if |s| >= 2 {
      ContractPlain(s[1..], d, sub);
    }
  }

  lemma ThreeParts(m: string, a: string, e: string)
    requires '/' !in m && '/' !in a && '/' !in e
    ensures Split(m + "/" + a + "/" + e) == [m, a, e]
  {
    assert m + "/" + a + "/" + e == m + "/" + (a + "/" + e);
    SplitFirst(m, a + "/" + e);
    SplitFirst(a, e);
    SplitLast(e);
  }

  lemma TwoParts(m: string, a: string)
    requires '/' !in m && '/' !in a
    ensures Split(m + "/" + a) == [m, a]
  {
    SplitFirst(m, a);
    SplitLast(a);
  }

  lemma TokensOf(pointer: string, rest: string)
    requires pointer == "/" + rest
    ensures Tokens(pointer) == Map(Split(rest), (t: string) => Decode(t))
  {
    assert pointer[1..] == rest;
  }

  lemma PlainDecoded()
    ensures Decode("metadata") == "metadata" && Decode("annotations") == "annotations"
    ensures '/' !in "metadata" && '/' !in "annotations"
  {
    hide Decode;
    DecodePlain("metadata");
    DecodePlain("annotations");
  }

  /** The path of an operation leads to the key it was made for. */
  lemma PathLeadsTo(k: string)
    ensures Tokens(Annotations() + "/" + Escape(k)) == ["metadata", "annotations", k]
    ensures Tokens(Annotations()) == ["metadata", "annotations"]
  {
    EscapeRoundTrip(k);
    PlainDecoded();
    hide Escape;
    hide Split;
    hide Decode;
    hide Tokens;
    var long, short := "metadata" + "/" + "annotations" + "/" + Escape(k), "metadata" + "/" + "annotations";
    ThreeParts("metadata", "annotations", Escape(k));
    TwoParts("metadata", "annotations");
    assert Annotations() == "/" + short;
    assert Annotations() + "/" + Escape(k) == "/" + long;
    TokensOf(Annotations(), short);
    TokensOf(Annotations() + "/" + Escape(k), long);
    assert Map(["metadata", "annotations", Escape(k)], (t: string) => Decode(t)) == ["metadata", "annotations", k];
    assert Map(["metadata", "annotations"], (t: string) => Decode(t)) == ["metadata", "annotations"];
  }

  // ---------------------------------------------------------------- the patch

  datatype Value = EmptyObject | Text(text: string)

  /** An operation `add`. */
  datatype Operation = Add(path: string, value: Value)

  datatype AnnotateError = OddArguments | NoClient

  /** The annotations of a service, None for nil. */
  type Annotated = Option<map<string, string>>

  /** What reading an annotation gives, as a Go map reads. */
  function Read(a: Annotated, k: string): string {
    if a.Some? && k in a.value then a.value[k] else ""
  }

  function OperationFor(a: Annotated, k: string, v: string): seq<Operation> {
    if a.Some? && Read(a, k) == v then [] else [Add(Annotations() + "/" + Escape(k), Text(v))]
  }

  /** The key and the value of pair `i`. */
  function KeyAt(kv: seq<string>, i: nat): string
    requires 2 * i < |kv|
  {
    kv[2 * i]
  }

  function ValueAt(kv: seq<string>, i: nat): string
    requires 2 * i + 1 < |kv|
  {
    kv[2 * i + 1]
  }

  /** The operations for the first `n` pairs. */
  function OperationsTo(a: Annotated, kv: seq<string>, n: nat): seq<Operation>
    requires 2 * n <= |kv|
  {
    if n == 0 then (if a.None? then [Add(Annotations(), EmptyObject)] else [])
    else OperationsTo(a, kv, n - 1) + OperationFor(a, KeyAt(kv, n - 1), ValueAt(kv, n - 1))
  }

  function Operations(a: Annotated, kv: seq<string>): seq<Operation> {
    OperationsTo(a, kv, |kv| / 2)
  }

  lemma FirstOperations(a: Annotated, kv: seq<string>)
    ensures OperationsTo(a, kv, 0) == if a.None? then [Add(Annotations(), EmptyObject)] else []
  {
  }

  lemma MoreOperations(a: Annotated, kv: seq<string>, ix: nat)
    requires ix % 2 == 0 && ix + 1 < |kv|
    ensures OperationsTo(a, kv, ix / 2 + 1) == OperationsTo(a, kv, ix / 2) + OperationFor(a, kv[ix], kv[ix + 1])
  {
    hide Escape;
    hide Annotations;
    hide OperationFor;
  }

  /** Computes the operations; no operations mean that no patch is sent. */
  method AnnotateService(client: bool, a: Annotated, kv: seq<string>) returns (r: Result<seq<Operation>, AnnotateError>)
    ensures r == if kv == [] then Success([])
                 else if |kv| % 2 != 0 then Failure(OddArguments)
                 else if !client then Failure(NoClient)
                 else Success(Operations(a, kv))
  {
    hide ReplaceAll;
    hide Annotations;
    hide OperationsTo;
    if |kv| == 0 {
      return Success([]);
    }
    if |kv| % 2 != 0 {
      return Failure(OddArguments);
    }
    if !client {
      return Failure(NoClient);
    }
    var operations := [];
    if a.None? {
      operations := operations + [Add(Annotations(), EmptyObject)];
    }
    FirstOperations(a, kv);
    for ix := 0 to |kv|
      invariant operations == OperationsTo(a, kv, (ix + 1) / 2)
    {
      if ix % 2 != 0 {
        continue;
      }
      MoreOperations(a, kv, ix);
      var k := kv[ix];
      var v := kv[ix + 1];
      if a.Some? && Read(a, k) == v {
        continue;
      }
      k := ReplaceAll(k, '~', "~0");
      k := ReplaceAll(k, '/', "~1");
      operations := operations + [Add(Annotations() + "/" + k, Text(v))];
    }
    r := Success(operations);
  }

  // ---------------------------------------------------------------- applying it

  /** The annotations after an `add` (section 4.1 of RFC 6902); None if its target does not exist, or
      is not one that annotations have. */
  function Added(a: Annotated, op: Operation): Option<Annotated> {
    var t := Tokens(op.path);
    if t == ["metadata", "annotations"] && op.value == EmptyObject then Some(Some(map[]))
    else if |t| == 3 && t[..2] == ["metadata", "annotations"] && op.value.Text? && a.Some?
    then Some(Some(a.value[t[2] := op.value.text]))
    else None
  }

  function Patched(a: Annotated, ops: seq<Operation>): Option<Annotated> {
    if ops == [] then Some(a) else
      var before := Patched(a, ops[..|ops| - 1]);
      if before.None? then None else Added(before.value, ops[|ops| - 1])
  }

  lemma PatchedLast(a: Annotated, ops: seq<Operation>, op: Operation)
    ensures Patched(a, ops + [op]) == if Patched(a, ops).None? then None else Added(Patched(a, ops).value, op)
  {
    assert (ops + [op])[..|ops|] == ops;
  }

  lemma AddedKey(m: map<string, string>, k: string, v: string)
    ensures Added(Some(m), Add(Annotations() + "/" + Escape(k), Text(v))) == Some(Some(m[k := v]))
  {
    PathLeadsTo(k);
  }

  lemma AddedObject(a: Annotated)
    ensures Added(a, Add(Annotations(), EmptyObject)) == Some(Some(map[]))
  {
    PathLeadsTo("");
  }

  /** One of the first `n` pairs has this key. */
  ghost predicate GivenTo(kv: seq<string>, n: nat, k: string)
    requires 2 * n <= |kv|
  {
    exists i: nat :: i < n && KeyAt(kv, i) == k
  }

  function Start(a: Annotated): map<string, string> {
    if a.None? then map[] else a.value
  }

  /** No key is given two different values by the first `n` pairs. */
  ghost predicate Agreeing(kv: seq<string>, n: nat)
    requires 2 * n <= |kv|
  {
    forall i: nat, j: nat :: i < n && j < n && KeyAt(kv, i) == KeyAt(kv, j) ==> ValueAt(kv, i) == ValueAt(kv, j)
  }

  /** Every key of the first `n` pairs reads as its value. */
  ghost predicate AllRead(a: Annotated, kv: seq<string>, n: nat)
    requires 2 * n <= |kv|
  {
    forall i: nat :: i < n ==> Read(a, KeyAt(kv, i)) == ValueAt(kv, i)
  }

  /** Keys the first `n` pairs do not have are as they were. */
  ghost predicate OthersKept(m: map<string, string>, kv: seq<string>, n: nat, m1: map<string, string>)
    requires 2 * n <= |kv|
  {
    forall k :: !GivenTo(kv, n, k) ==> (k in m1 <==> k in m) && (k in m ==> m1[k] == m[k])
  }

  ghost predicate PatchedTo(a: Annotated, kv: seq<string>, n: nat, m: map<string, string>)
    requires 2 * n <= |kv|
  {
    && Patched(a, OperationsTo(a, kv, n)) == Some(Some(m))
    && OthersKept(Start(a), kv, n, m)
    && (Agreeing(kv, n) ==> AllRead(Some(m), kv, n))
  }

  lemma SkippedPair(a: Annotated, kv: seq<string>, n: nat, m: map<string, string>)
    requires 0 < n && 2 * n <= |kv|
    requires OthersKept(Start(a), kv, n - 1, m) && (Agreeing(kv, n - 1) ==> AllRead(Some(m), kv, n - 1))
    requires a.Some? && Read(a, KeyAt(kv, n - 1)) == ValueAt(kv, n - 1)
    ensures OthersKept(Start(a), kv, n, m) && (Agreeing(kv, n) ==> AllRead(Some(m), kv, n))
  {
    var k := KeyAt(kv, n - 1);
    assert GivenTo(kv, n, k);
    assert forall x :: GivenTo(kv, n - 1, x) ==> GivenTo(kv, n, x);
    if Agreeing(kv, n) && GivenTo(kv, n - 1, k) {
      var i: nat :| i < n - 1 && KeyAt(kv, i) == k;
      assert ValueAt(kv, i) == ValueAt(kv, n - 1);
    }
  }

  lemma AddedPair(a: Annotated, kv: seq<string>, n: nat, m: map<string, string>)
    requires 0 < n && 2 * n <= |kv|
    requires OthersKept(Start(a), kv, n - 1, m) && (Agreeing(kv, n - 1) ==> AllRead(Some(m), kv, n - 1))
    ensures
      var m1 := m[KeyAt(kv, n - 1) := ValueAt(kv, n - 1)];
      OthersKept(Start(a), kv, n, m1) && (Agreeing(kv, n) ==> AllRead(Some(m1), kv, n))
  {
    var k := KeyAt(kv, n - 1);
    assert GivenTo(kv, n, k);
    assert forall x :: GivenTo(kv, n - 1, x) ==> GivenTo(kv, n, x);
    if Agreeing(kv, n) {
      forall i: nat | i < n
        ensures Read(Some(m[k := ValueAt(kv, n - 1)]), KeyAt(kv, i)) == ValueAt(kv, i)
      {
        assert i < n - 1 ==> Read(Some(m), KeyAt(kv, i)) == ValueAt(kv, i);
      }
    }
  }

  lemma NothingPatched(a: Annotated, kv: seq<string>)
    ensures PatchedTo(a, kv, 0, Start(a))
  {
    if a.None? {
      AddedObject(a);
      hide Added;
      PatchedLast(a, [], Add(Annotations(), EmptyObject));
      assert [] + [Add(Annotations(), EmptyObject)] == OperationsTo(a, kv, 0);
    }
  }

  lemma PairPatched(a: Annotated, kv: seq<string>, n: nat, m0: map<string, string>) returns (m: map<string, string>)
    requires 0 < n && 2 * n <= |kv| && PatchedTo(a, kv, n - 1, m0)
    ensures PatchedTo(a, kv, n, m)
  {
    hide Escape;
    hide Annotations;
    hide KeyAt;
    hide ValueAt;
    hide Added;
    hide Patched;
    hide OthersKept;
    hide Agreeing;
    hide AllRead;
    var k, v, ops := KeyAt(kv, n - 1), ValueAt(kv, n - 1), OperationsTo(a, kv, n - 1);
    if a.Some? && Read(a, k) == v {
      m := m0;
      SkippedPair(a, kv, n, m0);
      assert OperationsTo(a, kv, n) == ops;
    } else {
      m := m0[k := v];
      AddedPair(a, kv, n, m0);
      AddedKey(m0, k, v);
      PatchedLast(a, ops, Add(Annotations() + "/" + Escape(k), Text(v)));
    }
  }

  /** All operations apply, leave every other key alone and make the given keys read as their values. */
  lemma {:induction false} PatchApplies(a: Annotated, kv: seq<string>, n: nat) returns (m: map<string, string>)
    requires 2 * n <= |kv|
    ensures PatchedTo(a, kv, n, m)
    decreases n
  {
    hide *;
    if n == 0 {
      m := Start(a);
      NothingPatched(a, kv);
    } else {
      var m0 := PatchApplies(a, kv, n - 1);
      m := PairPatched(a, kv, n, m0);
    }
  }

  /** Whatever keys and values are given: the whole patch applies and leaves every other annotation alone,
      and every given key then reads as its value, if and only if no key is given two different values. */
  lemma PatchIsExact(a: Annotated, kv: seq<string>) returns (m: map<string, string>)
    requires kv != [] && |kv| % 2 == 0
    ensures Patched(a, Operations(a, kv)) == Some(Some(m))
    ensures OthersKept(Start(a), kv, |kv| / 2, m)
    ensures AllRead(Some(m), kv, |kv| / 2) <==> Agreeing(kv, |kv| / 2)
  {
    m := PatchApplies(a, kv, |kv| / 2);
    hide Patched;
  }

  lemma {:induction false} NothingToDo(m: map<string, string>, kv: seq<string>, n: nat)
    requires 2 * n <= |kv|
    ensures OperationsTo(Some(m), kv, n) == [] <==> AllRead(Some(m), kv, n)
    decreases n
  {
    hide Escape;
    hide Annotations;
    hide KeyAt;
    hide ValueAt;
    if n > 0 {
      NothingToDo(m, kv, n - 1);
      if AllRead(Some(m), kv, n) {
        assert Read(Some(m), KeyAt(kv, n - 1)) == ValueAt(kv, n - 1);
      }
    }
  }

  /** Annotating a second time sends nothing, if and only if no key is given two different values. */
  lemma SecondTimeNothing(a: Annotated, kv: seq<string>)
    requires kv != [] && |kv| % 2 == 0
    ensures Patched(a, Operations(a, kv)).Some?
    ensures Operations(Patched(a, Operations(a, kv)).value, kv) == [] <==> Agreeing(kv, |kv| / 2)
  {
    var m := PatchIsExact(a, kv);
    NothingToDo(m, kv, |kv| / 2);
  }
}
