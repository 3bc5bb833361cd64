/** The tunnel's IPv6 network: nothing is allocated, a client's address is its IPv4 offset written
    into the /64, spelled by a rule that has no ties in it. */
module Subnet6 {
  import opened Text

  const TWO16 := 0x1_0000
  const TWO32 := 0x1_0000_0000
  const TWO64 := 0x1_0000_0000_0000_0000

  /** A /64 is its upper 64 bits. */
  type Prefix64 = p: nat | p < 0x1_0000_0000_0000_0000

  function Groups(p: Prefix64): (g: seq<nat>)
    ensures |g| == 4 && forall i :: 0 <= i < 4 ==> g[i] < TWO16
    ensures ((g[0] * TWO16 + g[1]) * TWO16 + g[2]) * TWO16 + g[3] == p
  {
    [p / 0x1_0000_0000_0000, p / 0x1_0000_0000 % 0x1_0000, p / 0x1_0000 % 0x1_0000, p % 0x1_0000]
  }

  /** The groups left once trailing zero ones are dropped; the first always stays. */
  function DropZeros(groups: seq<nat>): (r: seq<nat>)
    requires groups != []
    ensures r != [] && r <= groups
    ensures forall i :: |r| <= i < |groups| ==> groups[i] == 0
    ensures |r| > 1 ==> r[|r| - 1] != 0
  {
    if |groups| > 1 && groups[|groups| - 1] == 0 then DropZeros(groups[..|groups| - 1]) else groups
  }

  function Hex(groups: seq<nat>): (r: seq<string>)
    ensures |r| == |groups|
  {
    seq(|groups|, i requires 0 <= i < |groups| => Show(groups[i], 16))
  }

  function JoinColon(parts: seq<string>): string {
    if parts == [] then "" else if |parts| == 1 then parts[0] else parts[0] + [':'] + JoinColon(parts[1..])
  }

  function RenderPrefix(p: Prefix64): string {
    JoinColon(Hex(DropZeros(Groups(p))))
  }

  /** The loop of render_prefix, on the spelled groups as the source runs it. */
  method RenderPrefixLoop(p: Prefix64) returns (text: string)
    ensures text == RenderPrefix(p)
  {
    var values := Groups(p);
    var groups := Hex(values);
    ghost var left := values;
    while |groups| > 1 && groups[|groups| - 1] == "0"
      invariant left != [] && groups == Hex(left)
      invariant DropZeros(values) == DropZeros(left)
      decreases |groups|
    {
      ZeroIsSpelledZero(left[|left| - 1]);
      groups := groups[..|groups| - 1];
      left := left[..|left| - 1];
    }
    if |groups| > 1 { ZeroIsSpelledZero(left[|left| - 1]); }
    assert DropZeros(left) == left;
    text := JoinColon(groups);
  }

  lemma ZeroIsSpelledZero(n: nat)
    ensures Show(n, 16) == "0" <==> n == 0
  {
    assert Show(0, 16) == "0";
    if Show(n, 16) == "0" { ShowInjective(n, 0, 16); }
  }

  function HostGroups(offset: nat): (g: seq<nat>)
    requires 0 < offset < TWO32
    ensures 1 <= |g| <= 2 && forall i :: 0 <= i < |g| ==> g[i] < TWO16
  {
    if offset > 0xFFFF then [offset / 0x1_0000, offset % 0x1_0000] else [offset]
  }

  /** A client's address, spelled the way both halves of the panel spell it. */
  function HostAddr(p: Prefix64, offset: nat): string
    requires 0 < offset < TWO32
  {
    RenderPrefix(p) + "::" + JoinColon(Hex(HostGroups(offset)))
  }

  // ------------------------------------------------------------------ section 2.2 of RFC 4291

  /** Where "::" stands first, or |s|. */
  function DoubleColon(s: string): (i: nat)
    ensures i <= |s|
    ensures i < |s| ==> i + 1 < |s| && s[i] == ':' && s[i + 1] == ':'
    ensures forall j :: 0 <= j < i && j + 1 < |s| ==> !(s[j] == ':' && s[j + 1] == ':')
  {
    if |s| < 2 then |s|
    else if s[0] == ':' && s[1] == ':' then 0
    else 1 + DoubleColon(s[1..])
  }

  /** One group: one to four hexadecimal digits. */
  function ParseGroup(s: string): Option<nat> {
    if s == "" || |s| > 4 || !AllDigits(s, 16) then None else Some(ValueOf(s, 16))
  }

  function ParseGroups(parts: seq<string>): Option<seq<nat>> {
    if parts == [] then Some([])
    else
      match (ParseGroup(parts[0]), ParseGroups(parts[1..]))
      case (Some(g), Some(rest)) => Some([g] + rest)
      case _ => None
  }

  function Side(s: string): Option<seq<nat>> {
    if s == "" then Some([]) else ParseGroups(SplitOn(s, ':'))
  }

  function Value(groups: seq<nat>): nat {
    if groups == [] then 0 else Value(groups[..|groups| - 1]) * TWO16 + groups[|groups| - 1]
  }

  function Zeros(n: nat): (z: seq<nat>)
    ensures |z| == n
  {
    seq(n, i => 0)
  }

  /** The address a text stands for: eight groups, or fewer around one "::" that stands for the
      groups of zeros that are missing. */
  function Expand(s: string): Option<nat> {
    var at := DoubleColon(s);
    if at == |s| then
      match Side(s)
      case Some(g) => (if |g| == 8 then Some(Value(g)) else None)
      case None => None
    else if DoubleColon(s[at + 2..]) < |s[at + 2..]| then None
    else
      match (Side(s[..at]), Side(s[at + 2..]))
      case (Some(l), Some(r)) => (if |l| + |r| <= 7 then Some(Value(l + Zeros(8 - |l| - |r|) + r)) else None)
      case _ => None
  }

  // ------------------------------------------------------------------ rendering is faithful

  lemma GroupShort(n: nat)
    requires n < TWO16
    ensures |Show(n, 16)| <= 4 && ':' !in Show(n, 16)
    ensures ParseGroup(Show(n, 16)) == Some(n)
  {
    if n >= 16 {
      ShowGrows(n);
      if n >= 256 {
        ShowGrows(n / 16);
        if n >= 4096 { ShowGrows(n / 16 / 16); }
      }
    }
    assert ':' !in Show(n, 16);
  }

  lemma ShowGrows(n: nat)
    requires n >= 16
    ensures |Show(n, 16)| == |Show(n / 16, 16)| + 1
    ensures n / 16 < 16 ==> |Show(n / 16, 16)| == 1
  {
  }

  lemma {:induction false} SplitJoin(groups: seq<nat>)
    requires groups != [] && forall i :: 0 <= i < |groups| ==> groups[i] < TWO16
    ensures SplitOn(JoinColon(Hex(groups)), ':') == Hex(groups)
    ensures ParseGroups(Hex(groups)) == Some(groups)
  {
    hide Show, ParseGroup;
    GroupShort(groups[0]);
    var parts := Hex(groups);
    if |groups| == 1 {
      SplitOnWhole(parts[0], ':');
      assert parts[1..] == [] && ParseGroups(parts[1..]) == Some([]);
      assert parts == [parts[0]] && [groups[0]] + [] == groups;
    } else {
      assert [groups[0]] + groups[1..] == groups;
      assert parts[1..] == Hex(groups[1..]);
      SplitJoin(groups[1..]);
      SplitOnStep(parts[0], ':', JoinColon(parts[1..]));
    }
  }

  predicate NoDouble(s: string) {
    forall j :: 0 <= j < |s| - 1 ==> !(s[j] == ':' && s[j + 1] == ':')
  }

  /** Joined groups never hold "::" and neither start nor end with a colon. */
  lemma {:induction false} JoinPlain(groups: seq<nat>)
    requires groups != [] && forall i :: 0 <= i < |groups| ==> groups[i] < TWO16
    ensures var s := JoinColon(Hex(groups));
            s != "" && s[0] != ':' && s[|s| - 1] != ':' && NoDouble(s)
  {
    GroupShort(groups[0]);
    var head := Show(groups[0], 16);
    assert forall j :: 0 <= j < |head| ==> head[j] in head;
    hide Show;
    if |groups| > 1 {
      var parts := Hex(groups);
      assert parts[1..] == Hex(groups[1..]);
      JoinPlain(groups[1..]);
      var tail := JoinColon(Hex(groups[1..]));
      var s := head + [':'] + tail;
      forall j | 0 <= j < |s| - 1 ensures !(s[j] == ':' && s[j + 1] == ':') {
        if j > |head| {
          assert s[j] == tail[j - |head| - 1] && s[j + 1] == tail[j - |head|];
        }
      }
    }
  }

  lemma DoubleColonAt(left: string, right: string)
    requires left != "" && left[|left| - 1] != ':' && NoDouble(left)
    ensures DoubleColon(left + "::" + right) == |left|
  {
    var s := left + "::" + right;
    assert s[|left|] == ':' && s[|left| + 1] == ':';
    assert forall j :: 0 <= j < |left| ==> s[j] == left[j];
  }

  lemma DoubleColonNone(s: string)
    requires NoDouble(s)
    ensures DoubleColon(s) == |s|
  {
  }

  /** Where the dropped zero groups go back in, the number is the one that was rendered. */
  lemma ValueOfHost(p: Prefix64, offset: nat)
    requires 0 < offset < TWO32
    ensures var l, r := DropZeros(Groups(p)), HostGroups(offset);
            |l| + |r| <= 7 && Value(l + Zeros(8 - |l| - |r|) + r) == p * TWO64 + offset
  {
    var g, r := Groups(p), HostGroups(offset);
    var l := DropZeros(g);
    var all := l + Zeros(8 - |l| - |r|) + r;
    var high := if |r| == 2 then r[0] else 0;
    assert all == [g[0], g[1], g[2], g[3], 0, 0, high, r[|r| - 1]];
    EightGroups(all);
  }

  lemma EightGroups(g: seq<nat>)
    requires |g| == 8 && g[4] == 0 && g[5] == 0
    ensures Value(g) == (((g[0] * TWO16 + g[1]) * TWO16 + g[2]) * TWO16 + g[3]) * TWO64 + g[6] * TWO16 + g[7]
  {
    hide Value;
    assert Value(g[..0]) == 0 by { ValueNone(g[..0]); }
    ValueStep(g, 1);
    ValueStep(g, 2);
    ValueStep(g, 3);
    ValueStep(g, 4);
    var high := Value(g[..4]);
    assert high == ((g[0] * TWO16 + g[1]) * TWO16 + g[2]) * TWO16 + g[3];
    ValueStep(g, 5);
    ValueStep(g, 6);
    ValueStep(g, 7);
    ValueStep(g, 8);
    assert g[..8] == g;
  }

  lemma ValueNone(g: seq<nat>)
    requires g == []
    ensures Value(g) == 0
  {
  }

  lemma ValueStep(g: seq<nat>, n: nat)
    requires 0 < n <= |g|
    ensures Value(g[..n]) == Value(g[..n - 1]) * TWO16 + g[n - 1]
  {
    assert g[..n][..n - 1] == g[..n - 1];
  }

  /** Reading the spelled address by the RFC's rules gives the network plus the offset: the "::"
      only ever stands for the groups that were dropped, never for an interior one. */
  lemma HostAddrExpands(p: Prefix64, offset: nat)
    requires 0 < offset < TWO32
    ensures Expand(HostAddr(p, offset)) == Some(p * TWO64 + offset)
  {
    hide DropZeros, Groups, HostGroups, Hex, JoinColon, DoubleColon, Value, ParseGroups;
    var l, r := DropZeros(Groups(p)), HostGroups(offset);
    assert forall i :: 0 <= i < |l| ==> l[i] == Groups(p)[i];
    var left, right := JoinColon(Hex(l)), JoinColon(Hex(r));
    JoinPlain(l);
    JoinPlain(r);
    SplitJoin(l);
    SplitJoin(r);
    var s := left + "::" + right;
    DoubleColonAt(left, right);
    DoubleColonNone(right);
    assert s[..|left|] == left && s[|left| + 2..] == right;
    ValueOfHost(p, offset);
  }

  /** Two clients, or two networks, never share a spelling. */
  lemma HostAddrInjective(p: Prefix64, m: nat, q: Prefix64, n: nat)
    requires 0 < m < TWO32 && 0 < n < TWO32 && HostAddr(p, m) == HostAddr(q, n)
    ensures p == q && m == n
  {
    hide HostAddr, Expand;
    HostAddrExpands(p, m);
    HostAddrExpands(q, n);
  }
}
