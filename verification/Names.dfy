/** The keys and names that pools and members are compared by, and when they tell what they were made of. */
module Names {
  import opened Seqs
  import opened Compare
  import opened Domain
  import opened CloudWorld
  import opened Planner
  import opened Rounds
  import opened Disruption

  // ---------------------------------------------------------------- pool keys

  predicate IsSuffix(t: string, s: string) {
    |t| <= |s| && s[|s| - |t|..] == t
  }

  ghost predicate SuffixFree(words: set<string>) {
    forall a, b :: a in words && b in words && IsSuffix(a, b) ==> a == b
  }

  /** No algorithm and protocol, written one after the other, end in those of another pair. */
  ghost predicate TailsApart(algorithms: set<string>, protocols: set<string>) {
    forall a, x, b, y ::
      a in algorithms && x in protocols && b in algorithms && y in protocols && IsSuffix(a + x, b + y) ==> a == b && x == y
  }

  /** Pools with these algorithms and protocols have the same key only if they are the same. */
  ghost predicate KeysTellPools(algorithms: set<string>, protocols: set<string>) {
    forall n, a, x, m, b, y ::
      (a in algorithms && x in protocols && b in algorithms && y in protocols
       && KeyOf(Pool(n, a, x)) == KeyOf(Pool(m, b, y)))
      ==> Pool(n, a, x) == Pool(m, b, y)
  }

  lemma EqualTails(n: string, t: string, m: string, u: string)
    requires n + t == m + u
    ensures IsSuffix(t, u) || IsSuffix(u, t)
    ensures |t| == |u| ==> n == m && t == u
  {
    var s := n + t;
    assert s[|s| - |t|..] == t && s[|s| - |u|..] == u && s[..|n|] == n && s[..|m|] == m;
    if |t| <= |u| {
      assert u[|u| - |t|..] == s[|s| - |t|..];
    } else {
      assert t[|t| - |u|..] == s[|s| - |u|..];
    }
  }

  lemma SameKeySamePool(algorithms: set<string>, protocols: set<string>,
                        n: string, a: string, x: string, m: string, b: string, y: string)
    requires TailsApart(algorithms, protocols)
    requires a in algorithms && x in protocols && b in algorithms && y in protocols
    requires n + a + x == m + b + y
    ensures n == m && a == b && x == y
  {
    assert n + (a + x) == n + a + x && m + (b + y) == m + b + y;
    EqualTails(n, a + x, m, b + y);
  }

  /** The concatenation without separators tells pools apart if and only if no tail of one is the end of
      the tail of another. */
  lemma PoolKeysExact(algorithms: set<string>, protocols: set<string>)
    ensures KeysTellPools(algorithms, protocols) <==> TailsApart(algorithms, protocols)
  {
    if TailsApart(algorithms, protocols) {
      forall n, a, x, m, b, y |
        a in algorithms && x in protocols && b in algorithms && y in protocols
        && KeyOf(Pool(n, a, x)) == KeyOf(Pool(m, b, y))
        ensures Pool(n, a, x) == Pool(m, b, y)
      {
        SameKeySamePool(algorithms, protocols, n, a, x, m, b, y);
      }
    }
    if KeysTellPools(algorithms, protocols) {
      forall a, x, b, y |
        a in algorithms && x in protocols && b in algorithms && y in protocols && IsSuffix(a + x, b + y)
        ensures a == b && x == y
      {
        var rest := (b + y)[..|b + y| - |a + x|];
        assert rest + (a + x) == b + y && rest + a + x == rest + (a + x) && "" + b + y == b + y;
        assert KeyOf(Pool(rest, a, x)) == KeyOf(Pool("", b, y));
        assert Pool(rest, a, x) == Pool("", b, y);
      }
    }
  }

  /** It is enough that neither the algorithms nor the protocols end in one another. */
  lemma SuffixFreeTells(algorithms: set<string>, protocols: set<string>)
    requires SuffixFree(algorithms) && SuffixFree(protocols)
    ensures TailsApart(algorithms, protocols)
  {
    forall a, x, b, y |
      a in algorithms && x in protocols && b in algorithms && y in protocols && IsSuffix(a + x, b + y)
      ensures a == b && x == y
    {
      var rest := (b + y)[..|b + y| - |a + x|];
      assert (rest + a) + x == rest + (a + x) == b + y;
      EqualTails(rest + a, x, b, y);
      assert x == y;
      EqualTails(rest + a, x, b, y);
      EqualTails(rest, a, "", b);
    }
  }

  /** So the algorithms and protocols that the repository's documentation and tests use are told apart. */
  lemma KnownAlphabets()
    ensures TailsApart({"round_robin", "source_ip"}, {"tcp", "udp", "proxy", "proxyv2"})
  {
    assert SuffixFree({"round_robin", "source_ip"});
    assert SuffixFree({"tcp", "udp", "proxy", "proxyv2"});
    SuffixFreeTells({"round_robin", "source_ip"}, {"tcp", "udp", "proxy", "proxyv2"});
  }

  /** The name a key stands for, if pools have these algorithms and protocols. */
  ghost function NameBehind(algorithms: set<string>, protocols: set<string>, k: Key): string {
    if exists n, a, x :: a in algorithms && x in protocols && k == KeyOf(Pool(n, a, x)) then
      var n, a, x :| a in algorithms && x in protocols && k == KeyOf(Pool(n, a, x));
      n
    else ""
  }

  ghost predicate FromAlphabets(algorithms: set<string>, protocols: set<string>, s: Spec) {
    s.Pool? ==> s.algorithm in algorithms && s.protocol in protocols
  }

  // ---------------------------------------------------------------- the error of a missing pool

  /** Pools with these algorithms and protocols. */
  ghost predicate PoolsOver(algorithms: set<string>, protocols: set<string>, nodes: seq<PoolNode>) {
    forall n :: n in nodes ==>
      n.pool.spec.Pool? && n.pool.spec.algorithm in algorithms && n.pool.spec.protocol in protocols
  }

  /** Where an algorithm and a protocol, written one after the other, end in those of another pool, they are
      written the same. */
  ghost predicate TailsMeet(algorithms: set<string>, protocols: set<string>) {
    forall a, x, b, y ::
      a in algorithms && x in protocols && b in algorithms && y in protocols && IsSuffix(a + x, b + y) ==> a + x == b + y
  }

  /** Whenever the pool keys of two states over these words agree, every desired pool is found by name. */
  ghost predicate NeverMissing(algorithms: set<string>, protocols: set<string>) {
    forall d: State, s: State ::
      PoolsOver(algorithms, protocols, d.pools) && PoolsOver(algorithms, protocols, s.pools) && SamePools(d, s)
      ==> Resolves(d.pools, s.pools)
  }

  lemma SameTextSameName(algorithms: set<string>, protocols: set<string>,
                         n: string, a: string, x: string, m: string, b: string, y: string)
    requires TailsMeet(algorithms, protocols)
    requires a in algorithms && x in protocols && b in algorithms && y in protocols
    requires n + a + x == m + b + y
    ensures n == m
  {
    assert n + (a + x) == n + a + x && m + (b + y) == m + b + y;
    EqualTails(n, a + x, m, b + y);
  }

  /** Where tails meet only in being the same, keys tell the names of pools. */
  lemma KeysTellNames(algorithms: set<string>, protocols: set<string>, s: Spec)
    requires TailsMeet(algorithms, protocols) && FromAlphabets(algorithms, protocols, s)
    ensures NamedBy(k => NameBehind(algorithms, protocols, k), s)
  {
    if s.Pool? {
      assert KeyOf(s) == KeyOf(Pool(s.name, s.algorithm, s.protocol));
      var k := KeyOf(s);
      var n, a, x :| a in algorithms && x in protocols && k == KeyOf(Pool(n, a, x)) && NameBehind(algorithms, protocols, k) == n;
      assert k.text == s.name + s.algorithm + s.protocol;
      assert k.text == n + a + x by { assert KeyOf(Pool(n, a, x)).text == n + a + x; }
      hide TailsMeet;
      SameTextSameName(algorithms, protocols, s.name, s.algorithm, s.protocol, n, a, x);
    }
  }

  /** Words that tell pools apart meet only in being the same. */
  lemma ApartMeets(algorithms: set<string>, protocols: set<string>)
    requires TailsApart(algorithms, protocols)
    ensures TailsMeet(algorithms, protocols)
  {
  }

  lemma SameKeySameName(algorithms: set<string>, protocols: set<string>, n: PoolNode, m: PoolNode)
    requires TailsMeet(algorithms, protocols)
    requires PoolsOver(algorithms, protocols, [n]) && PoolsOver(algorithms, protocols, [m]) && NodeKey(n) == NodeKey(m)
    ensures NodeName(n) == NodeName(m)
  {
    assert n in [n] && m in [m];
    var s, t := n.pool.spec, m.pool.spec;
    hide TailsMeet;
    SameTextSameName(algorithms, protocols, s.name, s.algorithm, s.protocol, t.name, t.algorithm, t.protocol);
  }

  lemma PoolFound(algorithms: set<string>, protocols: set<string>, d: State, s: State)
    requires TailsMeet(algorithms, protocols) && SamePools(d, s)
    requires PoolsOver(algorithms, protocols, d.pools) && PoolsOver(algorithms, protocols, s.pools)
    ensures Resolves(d.pools, s.pools)
  {
    hide KeyOf;
    hide TailsMeet;
    forall n | n in d.pools
      ensures NodeName(n) in Index(s.pools, NodeName)
    {
      assert NodeKey(n) in KeySet(d.pools, NodeKey);
      var m :| m in s.pools && NodeKey(m) == NodeKey(n);
      SameKeySameName(algorithms, protocols, n, m);
      assert NodeName(m) in KeySet(s.pools, NodeName);
    }
  }

  /** A state with one pool and nothing else. */
  function OnePool(name: string, algorithm: string, protocol: string): State {
    State(None, "", [PoolNode(Item(0, OnLb(0), Pool(name, algorithm, protocol)), [], [], [])], [])
  }

  /** Two pools whose names differ, but not their keys: the one that is desired is not found. */
  lemma OneIsMissing(name: string, a: string, x: string, other: string, b: string, y: string)
    requires name + a + x == other + b + y && name != other
    ensures SamePools(OnePool(name, a, x), OnePool(other, b, y))
    ensures !Resolves(OnePool(name, a, x).pools, OnePool(other, b, y).pools)
  {
    var d, s := OnePool(name, a, x), OnePool(other, b, y);
    var n, m := d.pools[0], s.pools[0];
    assert NodeKey(n) == NodeKey(m);
    assert NodeName(n) == name && NodeName(m) == other;
    hide KeyOf;
    assert KeySet([n], NodeKey) == {NodeKey(n)} && KeySet([m], NodeKey) == {NodeKey(m)};
    assert KeySet([m], NodeName) == {other};
    assert d.pools == [n] && s.pools == [m] && n in [n];
  }

  lemma TailsMustMeet(algorithms: set<string>, protocols: set<string>, a: string, x: string, b: string, y: string)
    requires IsSuffix(a + x, b + y) && a + x != b + y
    requires a in algorithms && x in protocols && b in algorithms && y in protocols
    ensures !NeverMissing(algorithms, protocols)
  {
    var rest := (b + y)[..|b + y| - |a + x|];
    assert rest + (a + x) == b + y;
    assert "tcp" + b + y == "tcp" + (b + y) == ("tcp" + rest) + a + x;
    assert |"tcp" + rest| > |"tcp"|;
    OneIsMissing("tcp", b, y, "tcp" + rest, a, x);
    var d, s := OnePool("tcp", b, y), OnePool("tcp" + rest, a, x);
    assert PoolsOver(algorithms, protocols, d.pools) && PoolsOver(algorithms, protocols, s.pools);
    hide Resolves;
    hide SamePools;
    hide PoolsOver;
  }

  /** Equal pool keys always mean that every desired pool is found by its name, if and only if no algorithm
      and protocol end in others that are written differently. */
  lemma NeverMissingExact(algorithms: set<string>, protocols: set<string>)
    ensures NeverMissing(algorithms, protocols) <==> TailsMeet(algorithms, protocols)
  {
    hide Resolves;
    hide SamePools;
    hide PoolsOver;
    if TailsMeet(algorithms, protocols) {
      forall d: State, s: State |
        PoolsOver(algorithms, protocols, d.pools) && PoolsOver(algorithms, protocols, s.pools) && SamePools(d, s)
        ensures Resolves(d.pools, s.pools)
      {
        PoolFound(algorithms, protocols, d, s);
      }
    }
    if NeverMissing(algorithms, protocols) {
      forall a, x, b, y |
        a in algorithms && x in protocols && b in algorithms && y in protocols && IsSuffix(a + x, b + y)
        ensures a + x == b + y
      {
        if a + x != b + y {
          TailsMustMeet(algorithms, protocols, a, x, b, y);
        }
      }
    }
  }

  /** Keys that tell pools apart are more than is needed: these words do not, and yet no pool is missing. */
  lemma MeetingIsWeaker()
    ensures TailsMeet({"a", "ab"}, {"bc", "c"}) && !TailsApart({"a", "ab"}, {"bc", "c"})
  {
    assert "a" + "bc" == "abc" == "ab" + "c";
    assert "a" + "c" == "ac" && "ab" + "bc" == "abbc";
    assert IsSuffix("a" + "bc", "ab" + "c");
    assert "a" != "ab" by { assert |"a"| != |"ab"|; }
    assert "a" in {"a", "ab"} && "bc" in {"bc", "c"} && "ab" in {"a", "ab"} && "c" in {"bc", "c"};
  }

  /** The planner then refuses only for the sake of the load balancer itself. */
  lemma NoPoolIsMissing(algorithms: set<string>, protocols: set<string>, w: World, d: State, l: Lb, status: string)
    requires TailsMeet(algorithms, protocols) && d.lb.Some?
    requires PoolsOver(algorithms, protocols, d.pools) && PoolsOver(algorithms, protocols, NodesOf(w.items, l.id))
    ensures Refuses(d, Snapshot(w, Some(l), status)) <==> LbRefusal(d.lb.value, l).Some?
  {
    NeverMissingExact(algorithms, protocols);
    hide NodesOf;
    hide SamePools;
    hide Resolves;
    hide PoolsOver;
    hide LbRefusal;
  }

  /** An algorithm that ends in one of the cloud makes the planner fail: it is desired, and a pool whose
      name takes up the difference is there. */
  lemma AmbiguousKeys()
    ensures
      var want, have := OnePool("tcp", "xround_robin", "tcp"), OnePool("tcpx", "round_robin", "tcp");
      Refuses(want.(lb := Some(Lb(1, "lb", [], "", ""))), have.(lb := Some(Lb(1, "lb", [], "", ""))))
  {
    assert "tcp" + "xround_robin" + "tcp" == "tcpx" + "round_robin" + "tcp";
    assert |"tcp"| != |"tcpx"|;
    OneIsMissing("tcp", "xround_robin", "tcp", "tcpx", "round_robin", "tcp");
  }

  // ---------------------------------------------------------------- names of pools and members

  datatype Protocol = TCP | UDP

  function Lower(p: Protocol): string {
    match p
    case TCP => "tcp"
    case UDP => "udp"
  }

  function PoolNameOf(protocol: Protocol, name: string): string {
    if name == "" then Lower(protocol) else Lower(protocol) + "/" + name
  }

  /** Different ports, by protocol and name, have pools with different names. */
  lemma PoolNamesDiffer(p: Protocol, n: string, q: Protocol, m: string)
    ensures PoolNameOf(p, n) == PoolNameOf(q, m) ==> p == q && n == m
  {
    var s, t := PoolNameOf(p, n), PoolNameOf(q, m);
    assert s[..3] == Lower(p) && t[..3] == Lower(q);
    assert n != "" ==> s[4..] == n;
    assert m != "" ==> t[4..] == m;
    assert "tcp"[0] != "udp"[0];
  }

  function Digit(n: nat): char
    requires n < 10
  {
    '0' + n as char
  }

  /** A number as `%d` prints it. */
  function Decimal(n: int): string
    decreases n < 0, if n < 0 then -n else n
  {
    if n < 0 then "-" + Decimal(-n)
    else if n < 10 then [Digit(n)]
    else Decimal(n / 10) + [Digit(n % 10)]
  }

  predicate IsDigit(c: char) {
    '0' <= c <= '9'
  }

  lemma {:induction false} DecimalDigits(n: nat)
    ensures Decimal(n) != [] && forall c :: c in Decimal(n) ==> IsDigit(c)
    decreases n
  {
    if n >= 10 {
      DecimalDigits(n / 10);
    }
  }

  lemma {:induction false} DecimalTells(n: nat, m: nat)
    requires Decimal(n) == Decimal(m)
    ensures n == m
    decreases n
  {
    var s := Decimal(n);
    if n >= 10 { DecimalDigits(n / 10); }
    if m >= 10 { DecimalDigits(m / 10); }
    assert s[|s| - 1] == Digit(n % 10) == Digit(m % 10);
    if n >= 10 && m >= 10 {
      assert s[..|s| - 1] == Decimal(n / 10) == Decimal(m / 10);
      DecimalTells(n / 10, m / 10);
    }
  }

  lemma DecimalSign(n: int)
    ensures Decimal(n) != [] && (Decimal(n)[0] == '-' <==> n < 0)
    ensures ':' !in Decimal(n)
  {
    if n < 0 {
      DecimalDigits(-n);
    } else {
      DecimalDigits(n);
      assert IsDigit(Decimal(n)[0]);
    }
  }

  lemma DecimalTellsAll(n: int, m: int)
    ensures Decimal(n) == Decimal(m) ==> n == m
    ensures ':' !in Decimal(n)
  {
    DecimalSign(n);
    DecimalSign(m);
    if Decimal(n) == Decimal(m) {
      if n < 0 {
        assert Decimal(n)[1..] == Decimal(-n) && Decimal(m)[1..] == Decimal(-m);
        DecimalTells(-n, -m);
      } else {
        DecimalTells(n, m);
      }
    }
  }

  function PoolMemberName(address: string, port: int): string {
    (if ':' in address then "[" + address + "]" else address) + ":" + Decimal(port)
  }

  lemma ColonLater(a: string, x: string, b: string, y: string)
    requires a + ":" + x == b + ":" + y && |a| < |b|
    ensures ':' in x
  {
    var s := a + ":" + x;
    assert s[|b|] == ':' && s[|a| + 1..] == x;
    assert x[|b| - |a| - 1] == s[|b|];
  }

  lemma LastColon(a: string, x: string, b: string, y: string)
    requires ':' !in x && ':' !in y && a + ":" + x == b + ":" + y
    ensures a == b && x == y
  {
    if |a| < |b| {
      ColonLater(a, x, b, y);
    } else if |b| < |a| {
      ColonLater(b, y, a, x);
    }
    var s := a + ":" + x;
    assert s[..|a|] == a && s[..|b|] == b;
    assert s[|a| + 1..] == x && s[|b| + 1..] == y;
  }

  /** The name of a pool member tells its address and its port, whatever they are. */
  lemma MemberNamesDiffer(a: string, p: int, b: string, r: int)
    ensures PoolMemberName(a, p) == PoolMemberName(b, r) ==> a == b && p == r
  {
    if PoolMemberName(a, p) == PoolMemberName(b, r) {
      var x := if ':' in a then "[" + a + "]" else a;
      var y := if ':' in b then "[" + b + "]" else b;
      DecimalTellsAll(p, r);
      DecimalTellsAll(r, p);
      LastColon(x, Decimal(p), y, Decimal(r));
      assert ':' in a ==> x[1..|x| - 1] == a && ':' in x;
      assert ':' in b ==> y[1..|y| - 1] == b && ':' in y;
    }
  }

  // ---------------------------------------------------------------- when something is recreated

  /** What makes two resources count as the same, so that one is not deleted to create the other: for members every
      field, for listeners name, protocol and port, for monitors the type and the HTTP version, 1.1 where there is
      none. */
  lemma KeysExactly(a: Spec, b: Spec)
    ensures KeyOf(a) == KeyOf(b) <==> match (a, b)
      case (Pool(n, g, p), Pool(m, h, q)) => n + g + p == m + h + q
      case (Member(_, _, _, _, _, _), Member(_, _, _, _, _, _)) => a == b
      case (Listener(n, p, x, _, _, _, _), Listener(m, q, y, _, _, _, _)) => n == m && p == q && x == y
      case (Monitor(k, _, _, _, _, _), Monitor(l, _, _, _, _, _)) =>
        && k == l
        && (if a.http.Some? && a.http.value.version != "" then a.http.value.version else "1.1")
           == (if b.http.Some? && b.http.value.version != "" then b.http.value.version else "1.1")
      case _ => false
  {
  }

  // ---------------------------------------------------------------- reading numbers back

  function DigitValue(c: char): Option<nat> {
    match c
    case '0' => Some(0)
    case '1' => Some(1)
    case '2' => Some(2)
    case '3' => Some(3)
    case '4' => Some(4)
    case '5' => Some(5)
    case '6' => Some(6)
    case '7' => Some(7)
    case '8' => Some(8)
    case '9' => Some(9)
    case _ => None
  }

  /** The number a text of decimal digits stands for. */
  function ParseNat(s: string): Option<nat> {
    if s == "" then None
    else
      var last := DigitValue(s[|s| - 1]);
      if last.None? then None
      else if |s| == 1 then last
      else
        var before := ParseNat(s[..|s| - 1]);
        if before.None? then None else Some(10 * before.value + last.value)
  }

  function Parse(s: string): Option<int> {
    if s != "" && s[0] == '-' then
      var n := ParseNat(s[1..]);
      if n.None? then None else Some(0 - n.value as int)
    else
      var n := ParseNat(s);
      if n.None? then None else Some(n.value)
  }

  predicate Trimmed(s: string) {
    s != "" && (s[0] == '0' ==> |s| == 1)
  }

  /** The text reads back as the number, and has no needless zeros or signs. */
  predicate ReadsAs(s: string, n: int) {
    Parse(s) == Some(n) && (if s[0] == '-' then Trimmed(s[1..]) && s[1] != '0' else Trimmed(s))
  }

  lemma DigitReads(n: nat)
    requires n < 10
    ensures DigitValue(Digit(n)) == Some(n)
  {
  }

  lemma DigitIs(c: char)
    requires DigitValue(c).Some?
    ensures DigitValue(c).value < 10 && c == Digit(DigitValue(c).value) && c != '-' && (c != '0' ==> DigitValue(c).value > 0)
  {
  }

  lemma {:induction false} NatReads(n: nat)
    ensures ParseNat(Decimal(n)) == Some(n) && Trimmed(Decimal(n)) && (n > 0 ==> Decimal(n)[0] != '0')
    decreases n
  {
    DigitReads(n % 10);
    if n >= 10 {
      NatReads(n / 10);
      var s := Decimal(n);
      assert s[..|s| - 1] == Decimal(n / 10) && s[|s| - 1] == Digit(n % 10) && s[0] == Decimal(n / 10)[0];
    }
  }

  lemma {:induction false} NatReadsOnly(s: string, n: nat)
    requires ParseNat(s) == Some(n) && Trimmed(s)
    ensures s == Decimal(n) && (s[0] != '0' ==> n > 0) && s[0] != '-'
    decreases |s|
  {
    DigitIs(s[|s| - 1]);
    if |s| > 1 {
      var init := s[..|s| - 1];
      NatReadsOnly(init, ParseNat(init).value);
      assert s == init + [s[|s| - 1]];
    }
  }

  lemma DecimalReads(n: int)
    ensures ReadsAs(Decimal(n), n)
  {
    DecimalSign(n);
    if n >= 0 {
      NatReads(n);
      hide Decimal;
    } else {
      NatReads(-n);
      assert Decimal(n) == "-" + Decimal(-n) && Decimal(n)[1..] == Decimal(-n);
      hide Decimal;
    }
    hide ParseNat;
  }

  lemma ReadsOnly(s: string, n: int)
    requires ReadsAs(s, n)
    ensures s == Decimal(n)
  {
    assert s != "";
    hide ParseNat;
    if s[0] == '-' {
      var m := ParseNat(s[1..]).value;
      NatReadsOnly(s[1..], m);
      assert s == "-" + s[1..];
    } else {
      NatReadsOnly(s, n);
    }
  }

  /** What `%d` prints reads back as the number, and nothing else that is trimmed does. */
  lemma DecimalExactly(s: string, n: int)
    ensures ReadsAs(s, n) <==> s == Decimal(n)
  {
    DecimalReads(n);
    if ReadsAs(s, n) {
      ReadsOnly(s, n);
    }
    hide *;
  }

  // ---------------------------------------------------------------- what names say

  /** The address, in brackets exactly if it has a colon, a colon, and the port. */
  ghost predicate IsMemberName(address: string, port: int, name: string) {
    exists host: string, text: string ::
      && name == host + ":" + text && ReadsAs(text, port)
      && (if ':' in address then host == "[" + address + "]" else host == address)
  }

  /** The protocol in lower case, alone for a port without a name, and else followed by a slash and that name. */
  predicate IsPoolName(protocol: string, port: string, name: string) {
    && (protocol == "TCP" ==> |name| >= 3 && name[..3] == "tcp")
    && (protocol == "UDP" ==> |name| >= 3 && name[..3] == "udp")
    && (port == "" <==> |name| == 3)
    && (port != "" ==> |name| > 4 && name[3] == '/' && name[4..] == port)
  }

  /** A letter in lower case. */
  predicate IsLower(c: char, l: char) {
    if 'A' <= c <= 'Z' then 'a' <= l <= 'z' && (l as int) - ('a' as int) == (c as int) - ('A' as int) else l == c
  }

  /** The protocol in lower case, a slash, and the port. */
  ghost predicate IsListenerName(protocol: string, port: int, name: string) {
    exists head: string, text: string ::
      && name == head + "/" + text && ReadsAs(text, port)
      && |head| == |protocol| && forall i :: 0 <= i < |head| ==> IsLower(protocol[i], head[i])
  }

  lemma MemberNameExactly(address: string, port: int, name: string)
    ensures IsMemberName(address, port, name) <==> name == PoolMemberName(address, port)
  {
    var host := if ':' in address then "[" + address + "]" else address;
    DecimalExactly(Decimal(port), port);
    hide ReadsAs;
    hide Decimal;
    if name == PoolMemberName(address, port) {
      assert name == host + ":" + Decimal(port);
    }
    if IsMemberName(address, port, name) {
      var h: string, text: string :| name == h + ":" + text && ReadsAs(text, port)
        && (if ':' in address then h == "[" + address + "]" else h == address);
      DecimalExactly(text, port);
    }
  }

  lemma PoolNameExactly(protocol: Protocol, port: string, name: string)
    ensures IsPoolName(if protocol.TCP? then "TCP" else "UDP", port, name) <==> name == PoolNameOf(protocol, port)
  {
    assert "TCP" != "UDP" by { assert "TCP"[0] != "UDP"[0]; }
    if IsPoolName(if protocol.TCP? then "TCP" else "UDP", port, name) {
      if port == "" {
        assert name == name[..3];
      } else {
        assert name == name[..3] + [name[3]] + name[4..];
      }
    }
    var s := PoolNameOf(protocol, port);
    assert s[..3] == Lower(protocol) && (port != "" ==> s[4..] == port);
  }
}
