/** Names that end in a line feed. The pattern a name is checked against lets one through at the end,
    the printer puts it into the "# Client" line as it is, and the next parse finds the name without
    it, followed by a blank line. */
module NameBreaks {
  import opened Text
  import opened Config
  import opened ConfRoundTrip
  import opened ConfStrip

  predicate EndsInBreak(s: string) {
    s != "" && s[|s| - 1] == '\n'
  }

  /** A string without the one line feed it may end in. */
  function Bare(s: string): (r: string)
    ensures |r| <= |s|
  {
    if EndsInBreak(s) then s[..|s| - 1] else s
  }

  function BareName(name: Option<string>): Option<string> {
    if name.Some? then Some(Bare(name.value)) else None
  }

  function BarePeer(p: Peer): Peer {
    p.(name := BareName(p.name))
  }

  function BarePeers(peers: seq<Peer>): (r: seq<Peer>)
    ensures |r| == |peers|
  {
    seq(|peers|, i requires 0 <= i < |peers| => BarePeer(peers[i]))
  }

  function BareConf(c: Conf): Conf {
    c.(peers := BarePeers(c.peers))
  }

  /** No name ends in a line feed. */
  predicate NamesWhole(c: Conf) {
    forall i :: 0 <= i < |c.peers| && c.peers[i].name.Some? ==> !EndsInBreak(c.peers[i].name.value)
  }

  lemma BareOfPlain(s: string)
    requires '\n' !in s
    ensures Bare(s) == s
  {
    assert s != "" ==> s[|s| - 1] in s;
  }

  lemma BareOfOk(p: Peer)
    requires PeerOk(p)
    ensures BarePeer(p) == p
  {
    hide PeerHeaderOk, AllowedOk, ExtraOk, KeptLine;
    if p.name.Some? { BareOfPlain(p.name.value); }
  }

  lemma BarePeersOfOk(peers: seq<Peer>)
    requires forall i :: 0 <= i < |peers| ==> PeerOk(peers[i])
    ensures BarePeers(peers) == peers
  {
    hide PeerOk, BarePeer;
    forall i | 0 <= i < |peers| ensures BarePeer(peers[i]) == peers[i] {
      BareOfOk(peers[i]);
    }
  }

  lemma BareAppended(peers: seq<Peer>, p: Peer)
    ensures BarePeers(peers + [p]) == BarePeers(peers) + [BarePeer(p)]
  {
    hide BarePeer;
  }

  lemma BareReplaced(peers: seq<Peer>, i: nat, p: Peer)
    requires i < |peers|
    ensures BarePeers(peers[i := p]) == BarePeers(peers)[i := BarePeer(p)]
  {
    hide BarePeer;
  }

  lemma BareDropped(peers: seq<Peer>, i: nat)
    requires i < |peers|
    ensures BarePeers(peers[..i] + peers[i + 1..]) == BarePeers(peers)[..i] + BarePeers(peers)[i + 1..]
  {
    hide BarePeer;
  }

  lemma BareTwice(p: Peer)
    requires PeerOk(BarePeer(p))
    ensures BarePeer(BarePeer(p)) == BarePeer(p)
  {
    BareOfOk(BarePeer(p));
  }

  // ------------------------------------------------------------------ lines that end in a line feed

  /** What a line is found as once it is printed: itself, or two lines. */
  function BrokenLine(line: string): seq<string> {
    if EndsInBreak(line) then [Bare(line), ""] else [line]
  }

  function Broken(lines: seq<string>): seq<string> {
    if lines == [] then [] else BrokenLine(lines[0]) + Broken(lines[1..])
  }

  predicate BreaksAtEnd(lines: seq<string>) {
    forall l :: l in lines ==> '\n' !in Bare(l)
  }

  lemma {:induction false} BrokenAppend(a: seq<string>, b: seq<string>)
    ensures Broken(a + b) == Broken(a) + Broken(b)
  {
    hide BrokenLine;
    if a == [] {
      assert a + b == b;
    } else {
      assert (a + b)[1..] == a[1..] + b;
      BrokenAppend(a[1..], b);
    }
  }

  lemma {:induction false} BrokenPlain(lines: seq<string>)
    requires NoBreaks(lines)
    ensures Broken(lines) == lines && BreaksAtEnd(lines)
  {
    if lines != [] {
      assert lines[0] in lines && '\n' !in lines[0];
      BareOfPlain(lines[0]);
      assert !EndsInBreak(lines[0]);
      assert NoBreaks(lines[1..]);
      BrokenPlain(lines[1..]);
      assert lines == [lines[0]] + lines[1..];
      forall l | l in lines ensures '\n' !in Bare(l) {
        BareOfPlain(l);
      }
    }
  }

  /** The text is the same either way. */
  lemma {:induction false} UnlinesBroken(lines: seq<string>)
    ensures Unlines(Broken(lines)) == Unlines(lines)
  {
    if lines != [] {
      var l := lines[0];
      UnlinesBroken(lines[1..]);
      UnlinesAppend(BrokenLine(l), Broken(lines[1..]));
      assert Unlines(BrokenLine(l)) == l + "\n" by { UnlinesBrokenLine(l); }
    }
  }

  lemma UnlinesBrokenLine(l: string)
    ensures Unlines(BrokenLine(l)) == l + "\n"
  {
    if EndsInBreak(l) {
      assert BrokenLine(l)[1..] == [""];
      assert Unlines([""]) == "\n" by { assert [""][1..] == []; }
      assert l == Bare(l) + "\n";
    } else {
      assert [l][1..] == [];
    }
  }

  lemma {:induction false} BrokenNoBreaks(lines: seq<string>)
    requires BreaksAtEnd(lines)
    ensures NoBreaks(Broken(lines))
  {
    hide Bare;
    if lines != [] {
      assert lines[0] in lines;
      assert BreaksAtEnd(lines[1..]);
      BrokenNoBreaks(lines[1..]);
      BrokenLineNoBreaks(lines[0]);
    }
  }

  lemma BrokenLineNoBreaks(l: string)
    requires '\n' !in Bare(l)
    ensures NoBreaks(BrokenLine(l))
  {
  }

  /** Whatever ends in a line feed, the reader finds the broken lines. */
  lemma LinesFound(lines: seq<string>)
    requires lines != [] && BreaksAtEnd(lines)
    ensures SplitLines(JoinLines(lines) + "\n") == Broken(lines)
  {
    hide Unlines, JoinLines, SplitLines;
    JoinIsUnlines(lines);
    UnlinesBroken(lines);
    BrokenNoBreaks(lines);
    LinesRoundTrip(Broken(lines));
  }

  // ------------------------------------------------------------------ one peer

  /** A printed peer, taken apart at the line that may break. */
  function PeerRest(p: Peer): seq<string> {
    OptMeta("Created", p.created) + OptMeta("Disabled", p.disabledAt) + p.extraComments + KernelLines(p) + ExtraLines(p.extra)
  }

  lemma PeerLinesApart(p: Peer)
    requires PeerOk(BarePeer(p))
    ensures PeerLines(p) == [p.header] + OptMeta("Client", p.name) + PeerRest(p)
    ensures PeerLines(BarePeer(p)) == [p.header] + OptMeta("Client", BareName(p.name)) + PeerRest(p)
  {
    hide OptMeta, KernelLines, ExtraLines, PeerOk, PeerLines;
    PeerHeaderLine(BarePeer(p));
    HeaderSaysSomething(p.header);
    Apart(p);
    Apart(BarePeer(p));
    KernelLinesOf(p);
  }

  lemma HeaderSaysSomething(header: string)
    requires PeerHeaderOk(header)
    ensures header != ""
  {
    assert HeaderName("").None?;
  }

  lemma Apart(p: Peer)
    requires p.header != ""
    ensures PeerLines(p) == [p.header] + OptMeta("Client", p.name) + PeerRest(p)
  {
    hide OptMeta, KernelLines, ExtraLines;
    var a, b, c := OptMeta("Client", p.name), OptMeta("Created", p.created), OptMeta("Disabled", p.disabledAt);
    var d, e := KernelLines(p), ExtraLines(p.extra);
    assert a + b + c + p.extraComments + d + e == a + (b + c + p.extraComments + d + e);
  }

  lemma KernelLinesOf(p: Peer)
    ensures KernelLines(BarePeer(p)) == KernelLines(p) && KernelPeer(BarePeer(p)) == KernelPeer(p)
  {
  }

  lemma ClientLine(name: string)
    ensures Bare(MetaLine("Client", name)) == MetaLine("Client", Bare(name))
    ensures EndsInBreak(MetaLine("Client", name)) <==> EndsInBreak(name)
  {
    var line := MetaLine("Client", name);
    var front := "# Client = ";
    assert line == front + name;
    if name == "" { assert line == front; }
  }

  /** A blank line inside a peer is nothing. */
  lemma FeedBreak(s: Parser, name: string)
    requires s.Valid() && s.inPeer && MetaOk(Some(Bare(name)))
    ensures FeedAll(s, Broken([MetaLine("Client", name)])) == FeedAll(s, [MetaLine("Client", Bare(name))])
  {
    var line, bare := MetaLine("Client", name), MetaLine("Client", Bare(name));
    ClientLine(name);
    assert [line][1..] == [];
    assert Broken([line]) == BrokenLine(line);
    if EndsInBreak(name) {
      assert BrokenLine(line) == [bare] + [""];
      FeedAllAppend(s, [bare], [""]);
      FeedOptMeta(s.conf.peers[|s.conf.peers| - 1], Client, Some(Bare(name)));
      assert TagOf(Client) == "Client";
      FeedIntoPeer(s, [bare]);
      FeedBlank(FeedAll(s, [bare]));
    }
  }

  lemma FeedBrokenName(s: Parser, name: Option<string>)
    requires s.Valid() && s.inPeer && MetaOk(BareName(name))
    ensures FeedAll(s, Broken(OptMeta("Client", name))) == FeedAll(s, OptMeta("Client", BareName(name)))
  {
    if name.Some? { FeedBreak(s, name.value); }
  }

  lemma PlainParts(a: seq<string>, b: seq<string>)
    requires NoBreaks(a + b)
    ensures NoBreaks(a) && NoBreaks(b)
  {
    assert forall l :: l in a || l in b ==> l in a + b;
  }

  lemma RestPlain(p: Peer)
    requires PeerOk(BarePeer(p))
    ensures NoBreaks([p.header]) && NoBreaks(PeerRest(p))
  {
    hide PeerOk, PeerLines, OptMeta, PeerRest, NoBreaks, BarePeer;
    PeerLinesApart(p);
    PeerLinesNoBreaks(BarePeer(p));
    PlainParts([p.header] + OptMeta("Client", BareName(p.name)), PeerRest(p));
    PlainParts([p.header], OptMeta("Client", BareName(p.name)));
  }

  lemma NameLineBreaks(p: Peer)
    requires PeerOk(BarePeer(p))
    ensures BreaksAtEnd(OptMeta("Client", p.name))
  {
    hide PeerHeaderOk, AllowedOk, ExtraOk, KeptLine;
    if p.name.Some? {
      ClientLine(p.name.value);
    }
  }

  /** A peer's lines, broken as they are found, read back as the peer with the bare name. */
  lemma FeedBrokenPeer(s: Parser, p: Peer)
    requires s.Valid() && PeerOk(BarePeer(p))
    ensures FeedAll(s, Broken(PeerLines(p))) == FeedAll(s, PeerLines(BarePeer(p)))
    ensures BreaksAtEnd(PeerLines(p))
  {
    PeerLinesApart(p);
    RestPlain(p);
    NameLineBreaks(p);
    NameOf(p);
    hide Feed, PeerOk, PeerLines, PeerRest, OptMeta, BrokenLine, Broken, FeedAll;
    var head, rest := [p.header], PeerRest(p);
    var client, bare := OptMeta("Client", p.name), OptMeta("Client", BareName(p.name));
    BrokenAppend(head + client, rest);
    BrokenAppend(head, client);
    BrokenPlain(head);
    BrokenPlain(rest);
    var s1 := FeedAll(s, head);
    HeaderEnters(s, p.header);
    FeedBrokenName(s1, p.name);
    FeedAllAppend(s, head, Broken(client));
    FeedAllAppend(s, head, bare);
    FeedAllAppend(s, head + Broken(client), rest);
    FeedAllAppend(s, head + bare, rest);
  }

  lemma NameOf(p: Peer)
    requires PeerOk(BarePeer(p))
    ensures MetaOk(BareName(p.name)) && PeerHeaderOk(p.header)
  {
    hide PeerHeaderOk, AllowedOk, ExtraOk, KeptLine;
  }

  lemma HeaderEnters(s: Parser, header: string)
    requires s.Valid() && PeerHeaderOk(header)
    ensures FeedAll(s, [header]).inPeer
  {
    FeedPeerHeaderLine(s, header);
    hide Feed, PeerHeaderOk;
    assert [header][1..] == [];
  }

  // ------------------------------------------------------------------ the whole file

  predicate LastBlank(lines: seq<string>)
    requires lines != []
  {
    Strip(lines[|lines| - 1]) == ""
  }

  lemma SeparateSays(lines: seq<string>)
    requires lines != []
    ensures Separate(lines) == lines + (if LastBlank(lines) then [] else [""])
  {
  }

  lemma MetaLineSpoken(tag: string, value: string)
    ensures Strip(MetaLine(tag, value)) != ""
  {
    StripEmpty(MetaLine(tag, value));
    assert MetaLine(tag, value)[0] == '#';
  }

  lemma SameLastBlank(p: Peer)
    requires PeerOk(BarePeer(p))
    ensures LastBlank(PeerLines(p)) == LastBlank(PeerLines(BarePeer(p)))
  {
    hide PeerOk, PeerLines, PeerRest, OptMeta, BarePeer, LastBlank;
    PeerLinesApart(p);
    var client, bare := OptMeta("Client", p.name), OptMeta("Client", BareName(p.name));
    if PeerRest(p) != [] {
      LastOfAppend([p.header] + client, PeerRest(p));
      LastOfAppend([p.header] + bare, PeerRest(p));
    } else if p.name.Some? {
      NameSpoken(p.name.value);
      LastOfAppend([p.header], client);
      LastOfAppend([p.header], bare);
      assert [p.header] + client + [] == [p.header] + client && [p.header] + bare + [] == [p.header] + bare;
    } else {
      assert client == [] && bare == [] by { NoName(p.name); }
    }
  }

  lemma NoName(name: Option<string>)
    requires name.None?
    ensures OptMeta("Client", name) == [] && OptMeta("Client", BareName(name)) == []
  {
  }

  lemma NameSpoken(name: string)
    ensures OptMeta("Client", Some(name)) != [] && !LastBlank(OptMeta("Client", Some(name)))
    ensures OptMeta("Client", BareName(Some(name))) != [] && !LastBlank(OptMeta("Client", BareName(Some(name))))
  {
    hide Strip, MetaLine;
    MetaLineSpoken("Client", name);
    MetaLineSpoken("Client", Bare(name));
  }

  lemma LastOfAppend(a: seq<string>, b: seq<string>)
    requires b != []
    ensures LastBlank(a + b) == LastBlank(b)
  {
  }

  lemma BreaksAppend(a: seq<string>, b: seq<string>)
    requires BreaksAtEnd(a) && BreaksAtEnd(b)
    ensures BreaksAtEnd(a + b)
  {
    hide Bare;
  }

  /** The two printings side by side: the one with the names as they are, as its lines are found, and
      the one with the names bare. */
  ghost predicate Abreast(a: seq<string>, b: seq<string>) {
    a != [] && b != [] && LastBlank(a) == LastBlank(b) && BreaksAtEnd(a) && FeedAll(START, Broken(a)) == FeedAll(START, b)
  }

  lemma {:induction false} AbreastPeers(a: seq<string>, b: seq<string>, peers: seq<Peer>)
    requires Abreast(a, b) && forall i :: 0 <= i < |peers| ==> PeerOk(BarePeer(peers[i]))
    ensures Abreast(AppendPeers(a, peers), AppendPeers(b, BarePeers(peers)))
    decreases |peers|
  {
    hide Abreast, PeerOk, PeerLines, BarePeer, Separate;
    if peers != [] {
      AbreastPeer(a, b, peers[0]);
      assert BarePeers(peers)[1..] == BarePeers(peers[1..]);
      AbreastPeers(Separate(a) + PeerLines(peers[0]), Separate(b) + PeerLines(BarePeer(peers[0])), peers[1..]);
    }
  }

  lemma AbreastPeer(a: seq<string>, b: seq<string>, p: Peer)
    requires Abreast(a, b) && PeerOk(BarePeer(p))
    ensures Abreast(Separate(a) + PeerLines(p), Separate(b) + PeerLines(BarePeer(p)))
  {
    hide PeerOk, PeerLines, BarePeer, Separate, Broken, FeedAll, LastBlank, BreaksAtEnd;
    SeparateSays(a);
    SeparateSays(b);
    var gap := if LastBlank(a) then [] else [""];
    BrokenPlain(gap);
    BrokenAppend(a, gap);
    BreaksAppend(a, gap);
    FeedAllAppend(START, Broken(a), gap);
    FeedAllAppend(START, b, gap);
    var s := FeedAll(START, b + gap);
    FeedBrokenPeer(s, p);
    BrokenAppend(a + gap, PeerLines(p));
    BreaksAppend(a + gap, PeerLines(p));
    FeedAllAppend(START, Broken(a + gap), Broken(PeerLines(p)));
    FeedAllAppend(START, b + gap, PeerLines(BarePeer(p)));
    SameLastBlank(p);
    LastOfAppend(a + gap, PeerLines(p));
    LastOfAppend(b + gap, PeerLines(BarePeer(p)));
  }

  lemma InterfaceAbreast(c: Conf)
    requires ConfOk(BareConf(c))
    ensures Abreast(InterfaceLines(c), InterfaceLines(BareConf(c)))
  {
    InterfacePlain(c);
    hide ConfOk, InterfaceLines, NoBreaks, BreaksAtEnd, FeedAll, LastBlank;
    assert InterfaceLines(BareConf(c)) == InterfaceLines(c) by { InterfaceBare(c); }
    BrokenPlain(InterfaceLines(c));
  }

  lemma InterfaceBare(c: Conf)
    ensures InterfaceLines(BareConf(c)) == InterfaceLines(c)
  {
  }

  lemma InterfacePlain(c: Conf)
    requires ConfOk(BareConf(c))
    ensures NoBreaks(InterfaceLines(c))
  {
    var none := c.(peers := []);
    hide PeerOk, ItemOk, AppendPeers, NoBreaks, InterfaceLines, InterfaceHeaderOk;
    assert ConfOk(none);
    RenderNoBreaks(none);
    NoPeersAppended(InterfaceLines(none));
    InterfaceOnly(c);
  }

  lemma InterfaceOnly(c: Conf)
    ensures InterfaceLines(c.(peers := [])) == InterfaceLines(c)
  {
  }

  lemma NoPeersAppended(lines: seq<string>)
    ensures AppendPeers(lines, []) == lines
  {
  }

  /** Printing names as they are and printing them bare parse to the same config. */
  lemma ReadsBackBare(c: Conf)
    requires ConfOk(BareConf(c))
    ensures Parse(Render(c)) == Parse(Render(BareConf(c))) == Norm(BareConf(c))
  {
    assert forall i :: 0 <= i < |c.peers| ==> BareConf(c).peers[i] == BarePeer(c.peers[i]);
    hide PeerOk, ConfOk, BarePeer, AppendPeers, InterfaceLines, Norm, JoinLines, SplitLines, Abreast, FeedAll;
    assert forall i :: 0 <= i < |c.peers| ==> PeerOk(BareConf(c).peers[i]) by { PeersOfOk(BareConf(c)); }
    InterfaceAbreast(c);
    AbreastPeers(InterfaceLines(c), InterfaceLines(BareConf(c)), c.peers);
    FromAbreast(RenderLines(c), RenderLines(BareConf(c)));
    LinesReadBack(BareConf(c));
    RoundTrip(BareConf(c));
  }

  lemma PeersOfOk(c: Conf)
    requires ConfOk(c)
    ensures forall i :: 0 <= i < |c.peers| ==> PeerOk(c.peers[i])
  {
  }

  lemma FromAbreast(a: seq<string>, b: seq<string>)
    requires Abreast(a, b)
    ensures Parse(JoinLines(a) + "\n") == ParseLines(b)
  {
    hide FeedAll, JoinLines, SplitLines, Broken, LastBlank, BreaksAtEnd;
    LinesFound(a);
  }

  // ------------------------------------------------------------------ the kernel never sees a name

  lemma BlockBare(p: Peer)
    ensures KernelBlock(BarePeer(p)) == KernelBlock(p) && Enabled(BarePeer(p)) == Enabled(p)
    ensures BarePeer(p).publicKey == p.publicKey
  {
    KernelLinesOf(p);
  }

  lemma {:induction false} StrippedBare(peers: seq<Peer>, excluded: set<string>)
    ensures StrippedPeers(BarePeers(peers), excluded) == StrippedPeers(peers, excluded)
  {
    hide KernelBlock, BarePeer, Enabled;
    if peers != [] {
      BlockBare(peers[0]);
      assert BarePeers(peers)[1..] == BarePeers(peers[1..]);
      StrippedBare(peers[1..], excluded);
    }
  }

  lemma StripConfBare(c: Conf, excluded: set<string>)
    ensures StripConf(BareConf(c), excluded) == StripConf(c, excluded)
  {
    StrippedBare(c.peers, excluded);
  }
}
