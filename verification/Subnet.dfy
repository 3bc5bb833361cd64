/** The tunnel's IPv4 network: which addresses clients get, how they are spelled, and the scan that
    hands out the lowest free one. */
module Subnet {
  import opened Text

  const MIN_PREFIX := 16
  const MAX_PREFIX := 30
  const TWO32 := 0x1_0000_0000

  /** 2^(32 - prefix), for the prefixes the panel accepts. */
  function Size(prefix: nat): (n: nat)
    requires MIN_PREFIX <= prefix <= MAX_PREFIX
    ensures 4 <= n <= 65536
  {
    match prefix
    case 16 => 65536 case 17 => 32768 case 18 => 16384 case 19 => 8192 case 20 => 4096
    case 21 => 2048 case 22 => 1024 case 23 => 512 case 24 => 256 case 25 => 128
    case 26 => 64 case 27 => 32 case 28 => 16 case 29 => 8 case _ => 4
  }

  predicate Between(low: nat, a: nat, high: nat) {
    low <= a < high
  }

  function Range(low: nat, high: nat): set<nat> {
    set a: nat | a < high && Between(low, a, high) :: a
  }

  /** A network as subnet.parse returns one: an aligned base and a prefix between /16 and /30. */
  datatype Net4 = Net4(base: nat, prefix: nat) {
    predicate Valid() {
      MIN_PREFIX <= prefix <= MAX_PREFIX && base % Size(prefix) == 0 && base + Size(prefix) <= TWO32
    }

    /** Lowest address a client may get: the network address and the server come before it. */
    function FirstHost(): nat {
      base + 2
    }

    /** Highest address a client may get: broadcast comes after it. */
    function LastHost(): nat
      requires Valid()
    {
      base + Size(prefix) - 2
    }

    function Capacity(): nat
      requires Valid()
    {
      LastHost() - FirstHost() + 1
    }

    predicate ContainsHost(address: nat)
      requires Valid()
    {
      FirstHost() <= address <= LastHost()
    }

    /** Every address a client may get. */
    function Hosts(): set<nat>
      requires Valid()
    {
      Range(FirstHost(), LastHost() + 1)
    }
  }

  /** The lowest address in the pool that is not in `used`: gaps are reused. */
  ghost predicate IsLowestFree(net: Net4, used: set<nat>, address: Option<nat>)
    requires net.Valid()
  {
    match address
    case Some(a) => net.ContainsHost(a) && a !in used && forall b: nat :: net.FirstHost() <= b < a ==> b in used
    case None => net.Hosts() <= used
  }

  function LowestFrom(net: Net4, used: set<nat>, candidate: nat): Option<nat>
    requires net.Valid()
    decreases net.LastHost() + 1 - candidate
  {
    if candidate > net.LastHost() then None
    else if candidate !in used then Some(candidate)
    else LowestFrom(net, used, candidate + 1)
  }

  function LowestFree(net: Net4, used: set<nat>): Option<nat>
    requires net.Valid()
  {
    LowestFrom(net, used, net.FirstHost())
  }

  /** The scan of subnet.next_free. */
  method NextFree(net: Net4, used: set<nat>) returns (address: Option<nat>)
    requires net.Valid()
    ensures IsLowestFree(net, used, address)
    ensures address == LowestFree(net, used)
  {
    var candidate := net.FirstHost();
    var end := net.LastHost();
    while candidate <= end && candidate in used
      invariant net.FirstHost() <= candidate <= end + 1
      invariant forall b: nat :: net.FirstHost() <= b < candidate ==> b in used
      invariant LowestFree(net, used) == LowestFrom(net, used, candidate)
      decreases end + 1 - candidate
    {
      candidate := candidate + 1;
    }
    address := if candidate <= end then Some(candidate) else None;
  }

  lemma {:induction false} LowestFromSays(net: Net4, used: set<nat>, candidate: nat)
    requires net.Valid() && net.FirstHost() <= candidate
    requires forall b: nat :: net.FirstHost() <= b < candidate ==> b in used
    ensures IsLowestFree(net, used, LowestFrom(net, used, candidate))
    decreases net.LastHost() + 1 - candidate
  {
    if candidate <= net.LastHost() && candidate in used {
      LowestFromSays(net, used, candidate + 1);
    }
  }

  lemma LowestFreeSays(net: Net4, used: set<nat>)
    requires net.Valid()
    ensures IsLowestFree(net, used, LowestFree(net, used))
  {
    LowestFromSays(net, used, net.FirstHost());
  }

  lemma {:induction false} CountRange(low: nat, high: nat)
    requires low <= high
    ensures |Range(low, high)| == high - low
  {
    if low < high {
      CountRange(low, high - 1);
      var fewer := Range(low, high - 1) + {high - 1};
      forall a: nat ensures a in Range(low, high) <==> a in fewer {
        assert Between(low, a, high) <==> Between(low, a, high - 1) || a == high - 1;
      }
      assert Range(low, high) == fewer;
    } else {
      assert Range(low, high) == {};
    }
  }

  /** The pool holds as many addresses as the capacity says. */
  lemma HostsCount(net: Net4)
    requires net.Valid()
    ensures |net.Hosts()| == net.Capacity()
  {
    CountRange(net.FirstHost(), net.LastHost() + 1);
  }

  // ------------------------------------------------------------------ spelling

  /** One part of a dotted quad: up to three digits, no leading zero, at most 255. */
  function ParseOctet(s: string): Option<nat> {
    if s == "" || |s| > 3 || !AllDigits(s, 10) || (|s| > 1 && s[0] == '0') then None
    else if ValueOf(s, 10) > 255 then None
    else Some(ValueOf(s, 10))
  }

  function Quad(a: nat, b: nat, c: nat, d: nat): nat {
    ((a * 256 + b) * 256 + c) * 256 + d
  }

  /** int(IPv4Address(s)), or None where that raises. */
  function ParseV4(s: string): Option<nat> {
    var parts := SplitOn(s, '.');
    if |parts| != 4 then None
    else
      match (ParseOctet(parts[0]), ParseOctet(parts[1]), ParseOctet(parts[2]), ParseOctet(parts[3]))
      case (Some(a), Some(b), Some(c), Some(d)) => Some(Quad(a, b, c, d))
      case _ => None
  }

  function ShowV4(n: nat): string
    requires n < TWO32
  {
    Show(n / 256 / 256 / 256, 10) + ['.']
    + (Show(n / 256 / 256 % 256, 10) + ['.'] + (Show(n / 256 % 256, 10) + ['.'] + Show(n % 256, 10)))
  }

  lemma ShowShort(n: nat)
    requires n < 256
    ensures |Show(n, 10)| <= 3 && (|Show(n, 10)| > 1 ==> Show(n, 10)[0] != '0')
  {
    if n >= 10 {
      var front := Show(n / 10, 10);
      assert Show(n, 10) == front + [DigitChar(n % 10)];
      if n >= 100 {
        assert front == Show(n / 100, 10) + [DigitChar(n / 10 % 10)];
        assert Show(n / 100, 10) == [DigitChar(n / 100)];
      } else {
        assert front == [DigitChar(n / 10)];
      }
    }
  }

  lemma OctetRoundTrip(n: nat)
    requires n < 256
    ensures ParseOctet(Show(n, 10)) == Some(n)
    ensures '.' !in Show(n, 10) && ',' !in Show(n, 10) && '/' !in Show(n, 10) && ':' !in Show(n, 10)
    ensures forall c :: c in Show(n, 10) ==> '0' <= c <= '9'
  {
    ShowShort(n);
  }

  lemma QuadOfParts(n: nat)
    requires n < TWO32
    ensures Quad(n / 256 / 256 / 256, n / 256 / 256 % 256, n / 256 % 256, n % 256) == n && n / 256 / 256 / 256 < 256
  {
  }

  lemma SplitQuad(a: string, b: string, c: string, d: string)
    requires '.' !in a && '.' !in b && '.' !in c && '.' !in d
    ensures SplitOn(a + ['.'] + (b + ['.'] + (c + ['.'] + d)), '.') == [a, b, c, d]
  {
    hide SplitOn;
    var r2 := c + ['.'] + d;
    var r1 := b + ['.'] + r2;
    SplitOnStep(a, '.', r1);
    SplitOnStep(b, '.', r2);
    SplitOnStep(c, '.', d);
    SplitOnWhole(d, '.');
    assert [a] + ([b] + ([c] + [d])) == [a, b, c, d];
  }

  /** An address reads back as the number it was printed from. */
  lemma V4RoundTrip(n: nat)
    requires n < TWO32
    ensures ParseV4(ShowV4(n)) == Some(n)
  {
    var a, b, c, d := n / 256 / 256 / 256, n / 256 / 256 % 256, n / 256 % 256, n % 256;
    QuadOfParts(n);
    OctetRoundTrip(a);
    OctetRoundTrip(b);
    OctetRoundTrip(c);
    OctetRoundTrip(d);
    hide ParseOctet, Show, SplitOn, Quad;
    SplitQuad(Show(a, 10), Show(b, 10), Show(c, 10), Show(d, 10));
  }

  lemma V4Plain(n: nat)
    requires n < TWO32
    ensures ShowV4(n) != "" && forall c :: c in ShowV4(n) ==> '0' <= c <= '9' || c == '.'
  {
    QuadOfParts(n);
    OctetRoundTrip(n / 256 / 256 / 256);
    OctetRoundTrip(n / 256 / 256 % 256);
    OctetRoundTrip(n / 256 % 256);
    OctetRoundTrip(n % 256);
    hide Show;
    var d := Show(n % 256, 10);
    var c := Show(n / 256 % 256, 10) + ['.'] + d;
    var b := Show(n / 256 / 256 % 256, 10) + ['.'] + c;
    assert forall x :: x in c ==> '0' <= x <= '9' || x == '.';
    assert forall x :: x in b ==> '0' <= x <= '9' || x == '.';
  }

  // ------------------------------------------------------------------ one spelling

  lemma DigitIs(c: char)
    requires DigitVal(c) < 10
    ensures '0' <= c <= '9' && DigitChar(DigitVal(c)) == c
  {
  }

  lemma OneDigit(s: string)
    requires |s| == 1 && AllDigits(s, 10)
    ensures ValueOf(s, 10) == DigitVal(s[0]) < 10 && Show(ValueOf(s, 10), 10) == s
  {
    DigitIs(s[0]);
    assert ValueOf(s[..0], 10) == 0;
  }

  lemma MoreDigits(front: string, last: char)
    requires front != "" && AllDigits(front, 10) && DigitVal(last) < 10
    requires Show(ValueOf(front, 10), 10) == front && ValueOf(front, 10) > 0
    ensures ValueOf(front + [last], 10) >= 10 && Show(ValueOf(front + [last], 10), 10) == front + [last]
  {
    DigitIs(last);
    var s := front + [last];
    assert s[..|s| - 1] == front;
    var high, n := ValueOf(front, 10), ValueOf(s, 10);
    assert n == high * 10 + DigitVal(last) && n / 10 == high && n % 10 == DigitVal(last);
  }

  /** A numeral without leading zeros is the one its value is printed as. */
  lemma {:induction false} NumeralIsShown(s: string)
    requires s != "" && AllDigits(s, 10) && (|s| > 1 ==> s[0] != '0')
    ensures Show(ValueOf(s, 10), 10) == s
    ensures |s| > 1 ==> ValueOf(s, 10) >= 10
    ensures |s| == 1 && s[0] != '0' ==> ValueOf(s, 10) > 0
  {
    if |s| == 1 {
      OneDigit(s);
      DigitIs(s[0]);
    } else {
      var front, last := s[..|s| - 1], s[|s| - 1];
      assert s == front + [last];
      NumeralIsShown(front);
      hide Show, ValueOf;
      MoreDigits(front, last);
    }
  }

  lemma OctetIsShown(s: string)
    requires ParseOctet(s).Some?
    ensures ParseOctet(s).value < 256 && Show(ParseOctet(s).value, 10) == s
  {
    NumeralIsShown(s);
  }

  lemma {:induction false} SplitJoins(s: string, c: char)
    ensures var parts := SplitOn(s, c); |parts| == 1 ==> s == parts[0]
    ensures var parts := SplitOn(s, c); |parts| > 1 ==> exists rest :: s == parts[0] + [c] + rest && parts[1..] == SplitOn(rest, c)
  {
    var i := IndexOf(s, c);
    if i < |s| {
      var rest := s[i + 1..];
      assert s == s[..i] + [c] + rest;
      assert SplitOn(s, c)[1..] == SplitOn(rest, c);
    } else {
      assert s[..i] == s;
    }
  }

  lemma FourParts(s: string)
    requires |SplitOn(s, '.')| == 4
    ensures var p := SplitOn(s, '.'); s == p[0] + ['.'] + (p[1] + ['.'] + (p[2] + ['.'] + p[3]))
  {
    hide SplitOn;
    var p := SplitOn(s, '.');
    SplitJoins(s, '.');
    var a :| s == p[0] + ['.'] + a && p[1..] == SplitOn(a, '.');
    SplitJoins(a, '.');
    var b :| a == p[1..][0] + ['.'] + b && p[1..][1..] == SplitOn(b, '.');
    SplitJoins(b, '.');
    var c :| b == p[1..][1..][0] + ['.'] + c && p[1..][1..][1..] == SplitOn(c, '.');
    SplitJoins(c, '.');
  }

  lemma QuadParts(a: nat, b: nat, c: nat, d: nat)
    requires a < 256 && b < 256 && c < 256 && d < 256
    ensures var n := Quad(a, b, c, d);
            n < TWO32 && n / 256 / 256 / 256 == a && n / 256 / 256 % 256 == b && n / 256 % 256 == c && n % 256 == d
  {
    assert ((a * 256 + b) * 256 + c) * 256 + d == Quad(a, b, c, d);
    assert Quad(a, b, c, d) / 256 == (a * 256 + b) * 256 + c;
    assert ((a * 256 + b) * 256 + c) / 256 == a * 256 + b;
  }

  /** No other spelling of an address is read: a text that reads as n is n as it is printed. */
  lemma V4IsItsSpelling(s: string)
    requires ParseV4(s).Some?
    ensures ParseV4(s).value < TWO32 && ShowV4(ParseV4(s).value) == s
  {
    hide Quad, ParseOctet, Show, SplitOn;
    var p := SplitOn(s, '.');
    FourParts(s);
    OctetIsShown(p[0]);
    OctetIsShown(p[1]);
    OctetIsShown(p[2]);
    OctetIsShown(p[3]);
    QuadParts(ParseOctet(p[0]).value, ParseOctet(p[1]).value, ParseOctet(p[2]).value, ParseOctet(p[3]).value);
  }

  /** A network one bit wider holds twice as many addresses, from the four of a /30. */
  lemma SizeSays(prefix: nat)
    requires MIN_PREFIX <= prefix <= MAX_PREFIX
    ensures Size(30) == 4
    ensures prefix < MAX_PREFIX ==> Size(prefix) == 2 * Size(prefix + 1)
  {
  }
}
