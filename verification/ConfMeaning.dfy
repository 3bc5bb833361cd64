/** What a parse holds, said line by line: which lines go to the interface section, and what the lines below a
    [Peer] header make of the peer. */
module ConfMeaning {
  import opened Text
  import opened Config
  import opened ConfRoundTrip
  import opened ConfAllowedLines

  // ------------------------------------------------------------------ where each line goes

  /** The headers of the peers, in order. */
  function PeerHeaders(lines: seq<string>): seq<string> {
    if lines == [] then []
    else (if IsHeader(lines[0], "peer") then [lines[0]] else []) + PeerHeaders(lines[1..])
  }

  /** The lines of the interface section: all that stand in no peer's block, with the headers of sections that
      are neither, and without the first [Interface] header. */
  function Outer(lines: seq<string>, inPeer: bool, seen: bool): seq<string> {
    if lines == [] then []
    else if IsHeader(lines[0], "peer") then Outer(lines[1..], true, seen)
    else if IsHeader(lines[0], "interface") && !seen then Outer(lines[1..], false, true)
    else if Closes(lines[0]) then [lines[0]] + Outer(lines[1..], false, seen)
    else if inPeer then Outer(lines[1..], true, seen)
    else [lines[0]] + Outer(lines[1..], false, seen)
  }

  function Total(blocks: seq<seq<string>>): nat {
    if blocks == [] then 0 else |blocks[0]| + Total(blocks[1..])
  }

  // ------------------------------------------------------------------ what one line says to a peer

  /** A key and its value, from a line that is neither blank nor a comment. */
  function SaidOn(line: string): Option<(string, string)> {
    if Strip(line) == "" || IsComment(line) then None else Setting(line)
  }

  /** The value a line gives a key, whatever the case the key is written in. */
  function KeyOn(line: string, key: string): Option<string> {
    match SaidOn(line)
    case Some((k, v)) => if Fold(k) == key then Some(v) else None
    case None => None
  }

  /** The value of a "# Client", "# Created" or "# Disabled" marker. */
  function MarkOn(line: string, meta: Meta): Option<string> {
    if !IsComment(line) then None
    else
      match MetaOf(line)
      case Some((m, v)) => if m == meta then Some(v) else None
      case None => None
  }

  function SecondsOn(line: string): Option<int> {
    match KeyOn(line, "persistentkeepalive")
    case Some(v) => ParseInt(v)
    case None => None
  }

  predicate KnownKey(key: string) {
    var k := Fold(key);
    k == "publickey" || k == "presharedkey" || k == "allowedips" || k == "endpoint"
  }

  /** A setting no field of a peer holds: any other key, or a keepalive that is no number. */
  function ExtraOn(line: string): seq<(string, string)> {
    match SaidOn(line)
    case Some((k, v)) => if KnownKey(k) || SecondsOn(line).Some? then [] else [(k, v)]
    case None => []
  }

  /** A line that says nothing the panel reads, and is kept as it stands. */
  function KeptOn(line: string): seq<string> {
    if Strip(line) != "" && SaidOn(line).None? && (IsComment(line) ==> MetaOf(line).None?) then [line] else []
  }

  // ------------------------------------------------------------------ what a block says

  function LastKey(lines: seq<string>, key: string): Option<string> {
    if lines == [] then None
    else if LastKey(lines[1..], key).Some? then LastKey(lines[1..], key) else KeyOn(lines[0], key)
  }

  function LastMark(lines: seq<string>, meta: Meta): Option<string> {
    if lines == [] then None
    else if LastMark(lines[1..], meta).Some? then LastMark(lines[1..], meta) else MarkOn(lines[0], meta)
  }

  function LastSeconds(lines: seq<string>): Option<int> {
    if lines == [] then None
    else if LastSeconds(lines[1..]).Some? then LastSeconds(lines[1..]) else SecondsOn(lines[0])
  }

  function Extras(lines: seq<string>): seq<(string, string)> {
    if lines == [] then [] else ExtraOn(lines[0]) + Extras(lines[1..])
  }

  function Kepts(lines: seq<string>): seq<string> {
    if lines == [] then [] else KeptOn(lines[0]) + Kepts(lines[1..])
  }

  function Or<T>(a: Option<T>, b: Option<T>): Option<T> {
    if a.Some? then a else b
  }

  /** A peer is its header and what its block says: of each field the last line that gives it, AllowedIPs all of
      them together, and everything else in the order it stands. */
  predicate SaysBlock(p: Peer, header: string, block: seq<string>) {
    && p.header == RstripBreaks(header)
    && p.publicKey == OrEmpty(LastKey(block, "publickey"))
    && p.presharedKey == LastKey(block, "presharedkey") && p.endpoint == LastKey(block, "endpoint")
    && p.keepalive == LastSeconds(block)
    && p.name == LastMark(block, Client) && p.created == LastMark(block, Created) && p.disabledAt == LastMark(block, Disabled)
    && p.extra == Extras(block) && p.extraComments == Kepts(block)
  }

  // ------------------------------------------------------------------ one line fed to a peer

  lemma FeedFields(p: Peer, line: string)
    ensures var q := FeedPeer(p, line);
            && q.header == p.header
            && q.publicKey == (if KeyOn(line, "publickey").Some? then KeyOn(line, "publickey").value else p.publicKey)
            && q.presharedKey == Or(KeyOn(line, "presharedkey"), p.presharedKey)
            && q.endpoint == Or(KeyOn(line, "endpoint"), p.endpoint)
            && q.keepalive == Or(SecondsOn(line), p.keepalive)
            && q.extra == p.extra + ExtraOn(line)
  {
    hide Strip, ParseInt, MetaOf, Setting, MergeAllowed, Fold, IsComment;
    if SaidOn(line).Some? {
      var (k, v) := SaidOn(line).value;
      assert FeedPeer(p, line) == WithSetting(p, k, v);
    } else {
      assert p.extra + [] == p.extra;
    }
  }

  lemma FeedMarks(p: Peer, line: string)
    ensures var q := FeedPeer(p, line);
            && q.name == Or(MarkOn(line, Client), p.name) && q.created == Or(MarkOn(line, Created), p.created)
            && q.disabledAt == Or(MarkOn(line, Disabled), p.disabledAt)
            && q.extraComments == p.extraComments + KeptOn(line)
  {
    assert p.extraComments + [] == p.extraComments;
    CommentSaysNothing(line);
    hide Strip, ParseInt, MetaOf, Setting, MergeAllowed, Fold, IsComment;
    if SaidOn(line).Some? {
      var (k, v) := SaidOn(line).value;
      assert FeedPeer(p, line) == WithSetting(p, k, v);
    }
  }

  lemma CommentSaysNothing(line: string)
    ensures IsComment(line) ==> Strip(line) != "" && SaidOn(line).None?
  {
    hide Setting;
  }

  lemma {:induction false} FeedBlockFields(p: Peer, lines: seq<string>)
    ensures var q := FeedPeerAll(p, lines);
            && q.header == p.header
            && q.publicKey == (if LastKey(lines, "publickey").Some? then LastKey(lines, "publickey").value else p.publicKey)
            && q.presharedKey == Or(LastKey(lines, "presharedkey"), p.presharedKey)
            && q.endpoint == Or(LastKey(lines, "endpoint"), p.endpoint)
            && q.keepalive == Or(LastSeconds(lines), p.keepalive)
            && q.extra == p.extra + Extras(lines)
    decreases |lines|
  {
    hide KeyOn, SecondsOn, ExtraOn, FeedPeer;
    if lines != [] {
      FeedFields(p, lines[0]);
      FeedBlockFields(FeedPeer(p, lines[0]), lines[1..]);
    }
  }

  lemma {:induction false} FeedBlockMarks(p: Peer, lines: seq<string>)
    ensures var q := FeedPeerAll(p, lines);
            && q.name == Or(LastMark(lines, Client), p.name) && q.created == Or(LastMark(lines, Created), p.created)
            && q.disabledAt == Or(LastMark(lines, Disabled), p.disabledAt)
            && q.extraComments == p.extraComments + Kepts(lines)
    decreases |lines|
  {
    hide MarkOn, KeptOn, FeedPeer;
    if lines != [] {
      FeedMarks(p, lines[0]);
      FeedBlockMarks(FeedPeer(p, lines[0]), lines[1..]);
    }
  }

  lemma BlockSays(header: string, block: seq<string>)
    ensures SaysBlock(FeedPeerAll(NewPeer(RstripBreaks(header)), block), header, block)
  {
    hide LastKey, LastMark, LastSeconds, Extras, Kepts, FeedPeerAll, RstripBreaks;
    var p := NewPeer(RstripBreaks(header));
    FeedBlockFields(p, block);
    FeedBlockMarks(p, block);
    assert [] + Extras(block) == Extras(block) && [] + Kepts(block) == Kepts(block);
  }

  // ------------------------------------------------------------------ the whole text

  /** The peers the headers and blocks to come amount to. */
  function Coming(headers: seq<string>, blocks: seq<seq<string>>): (r: seq<Peer>)
    requires |headers| == |blocks|
    ensures |r| == |blocks|
  {
    seq(|blocks|, i requires 0 <= i < |blocks| => FeedPeerAll(NewPeer(RstripBreaks(headers[i])), blocks[i]))
  }

  /** The peers there are, the last one still open to the lines up to the next header. */
  function Here(peers: seq<Peer>, inPeer: bool, lines: seq<string>): (r: seq<Peer>)
    requires inPeer ==> peers != []
    ensures |r| == |peers|
  {
    if inPeer then peers[|peers| - 1 := FeedPeerAll(peers[|peers| - 1], Body(lines))] else peers
  }

  lemma {:induction false} HeadersAndBlocks(lines: seq<string>)
    ensures |PeerHeaders(lines)| == |Blocks(lines)|
  {
    hide IsHeader, Body;
    if lines != [] { HeadersAndBlocks(lines[1..]); }
  }

  lemma OneMoreComes(header: string, headers: seq<string>, block: seq<string>, blocks: seq<seq<string>>)
    requires |headers| == |blocks|
    ensures Coming([header] + headers, [block] + blocks) == [FeedPeerAll(NewPeer(RstripBreaks(header)), block)] + Coming(headers, blocks)
  {
    hide FeedPeerAll, RstripBreaks;
  }

  lemma ComingMore(lines: seq<string>)
    requires lines != [] && IsHeader(lines[0], "peer")
    ensures |PeerHeaders(lines)| == |Blocks(lines)| && |PeerHeaders(lines[1..])| == |Blocks(lines[1..])| && Body(lines) == []
    ensures Coming(PeerHeaders(lines), Blocks(lines))
            == [FeedPeerAll(NewPeer(RstripBreaks(lines[0])), Body(lines[1..]))] + Coming(PeerHeaders(lines[1..]), Blocks(lines[1..]))
  {
    HeadersAndBlocks(lines);
    HeadersAndBlocks(lines[1..]);
    BlocksMore(lines);
    assert PeerHeaders(lines) == [lines[0]] + PeerHeaders(lines[1..]) by { hide IsHeader; }
    hide Blocks, Body, IsHeader, FeedPeerAll, RstripBreaks, PeerHeaders, Coming;
    OneMoreComes(lines[0], PeerHeaders(lines[1..]), Body(lines[1..]), Blocks(lines[1..]));
  }

  lemma FeedsPeers(s: Parser, line: string)
    requires s.Valid()
    ensures var r := Feed(s, line); var was := s.conf.peers;
            && r.inPeer == (IsHeader(line, "peer") || (s.inPeer && !Closes(line)))
            && r.conf.peers
               == if IsHeader(line, "peer") then was + [NewPeer(RstripBreaks(line))]
                  else if s.inPeer && !Closes(line) then was[|was| - 1 := FeedPeer(was[|was| - 1], line)]
                  else was
  {
    hide FeedPeer, InterfaceItem, RstripBreaks, Strip, Fold;
  }

  lemma OpenPeer(peers: seq<Peer>, lines: seq<string>)
    requires peers != [] && lines != [] && !Closes(lines[0])
    ensures Here(peers, true, lines) == Here(peers[|peers| - 1 := FeedPeer(peers[|peers| - 1], lines[0])], true, lines[1..])
  {
    hide FeedPeer, Closes;
    assert Body(lines)[0] == lines[0] && Body(lines)[1..] == Body(lines[1..]);
  }

  lemma {:induction false} FeedAllPeers(s: Parser, lines: seq<string>)
    requires s.Valid() && |PeerHeaders(lines)| == |Blocks(lines)|
    ensures FeedAll(s, lines).conf.peers == Here(s.conf.peers, s.inPeer, lines) + Coming(PeerHeaders(lines), Blocks(lines))
    decreases |lines|
  {
    hide Feed, FeedPeer, Closes, IsHeader, Body, FeedPeerAll, RstripBreaks, Coming, Here;
    var was := s.conf.peers;
    if lines == [] {
      NothingComes(was, s.inPeer);
    } else {
      FeedsPeers(s, lines[0]);
      HeadersAndBlocks(lines[1..]);
      FeedAllPeers(Feed(s, lines[0]), lines[1..]);
      if IsHeader(lines[0], "peer") {
        ComingMore(lines);
        PeerOpens(was, s.inPeer, lines);
      } else {
        assert PeerHeaders(lines) == PeerHeaders(lines[1..]) && Blocks(lines) == Blocks(lines[1..]);
        PeerGoesOn(was, s.inPeer, lines);
      }
    }
  }

  lemma NothingComes(was: seq<Peer>, inPeer: bool)
    requires inPeer ==> was != []
    ensures Here(was, inPeer, []) + Coming([], []) == was
  {
  }

  lemma PeerOpens(was: seq<Peer>, inPeer: bool, lines: seq<string>)
    requires (inPeer ==> was != []) && lines != [] && Body(lines) == []
    ensures Here(was, inPeer, lines) == was
    ensures var p := NewPeer(RstripBreaks(lines[0]));
            Here(was + [p], true, lines[1..]) == was + [FeedPeerAll(p, Body(lines[1..]))]
  {
    hide Body, RstripBreaks, FeedPeer;
  }

  lemma PeerGoesOn(was: seq<Peer>, inPeer: bool, lines: seq<string>)
    requires (inPeer ==> was != []) && lines != []
    ensures Here(was, inPeer, lines)
            == if inPeer && !Closes(lines[0]) then Here(was[|was| - 1 := FeedPeer(was[|was| - 1], lines[0])], true, lines[1..])
               else Here(was, false, lines[1..])
  {
    hide Closes, FeedPeer;
    if inPeer {
      if Closes(lines[0]) {
        assert Body(lines) == [];
      } else {
        OpenPeer(was, lines);
      }
    }
  }

  /** Peer by peer, a parse says what the block below its header says. */
  lemma PeersSayTheirBlocks(text: string)
    ensures var lines, peers := SplitLines(text), Parse(text).peers;
            && |peers| == |PeerHeaders(lines)| == |Blocks(lines)|
            && forall k :: 0 <= k < |peers| ==> SaysBlock(peers[k], PeerHeaders(lines)[k], Blocks(lines)[k])
  {
    hide FeedAll, SplitLines, PeerHeaders, Blocks, FeedPeerAll, SaysBlock, RstripBreaks;
    var lines, peers := SplitLines(text), Parse(text).peers;
    HeadersAndBlocks(lines);
    FeedAllPeers(START, lines);
    assert [] + Coming(PeerHeaders(lines), Blocks(lines)) == peers;
    forall k | 0 <= k < |peers| ensures SaysBlock(peers[k], PeerHeaders(lines)[k], Blocks(lines)[k]) {
      BlockSays(PeerHeaders(lines)[k], Blocks(lines)[k]);
    }
  }

  // ------------------------------------------------------------------ the interface section

  lemma FeedsOuter(s: Parser, line: string)
    requires s.Valid()
    ensures var r := Feed(s, line);
            if IsHeader(line, "peer") then r.inPeer && r.seen == s.seen && r.conf.interface == s.conf.interface && r.conf.header == s.conf.header
            else if IsHeader(line, "interface") && !s.seen then
              !r.inPeer && r.seen && r.conf.interface == s.conf.interface && r.conf.header == RstripBreaks(line)
            else
              && r.seen == s.seen && r.inPeer == (s.inPeer && !Closes(line)) && r.conf.header == s.conf.header
              && r.conf.interface
                 == s.conf.interface + if Closes(line) then [Raw(line)] else if s.inPeer then [] else [InterfaceItem(line)]
  {
    hide FeedPeer, InterfaceItem, RstripBreaks, Strip, Fold;
    assert s.conf.interface + [] == s.conf.interface;
  }

  lemma ItemOfLine(line: string)
    ensures ItemLine(InterfaceItem(line)) == line
  {
    hide Strip, IsComment, Setting;
  }

  lemma ItemLinesMore(items: seq<Item>, item: Item, line: string)
    requires ItemLine(item) == line
    ensures ItemLines(items + [item]) == ItemLines(items) + [line]
  {
    hide ItemLine;
  }

  lemma {:induction false} FeedAllOuter(s: Parser, lines: seq<string>)
    requires s.Valid()
    ensures ItemLines(FeedAll(s, lines).conf.interface) == ItemLines(s.conf.interface) + Outer(lines, s.inPeer, s.seen)
    decreases |lines|
  {
    hide Feed, Closes, IsHeader, InterfaceItem, RstripBreaks;
    if lines != [] {
      FeedsOuter(s, lines[0]);
      FeedAllOuter(Feed(s, lines[0]), lines[1..]);
      ItemOfLine(lines[0]);
      ItemLinesMore(s.conf.interface, Raw(lines[0]), lines[0]);
      ItemLinesMore(s.conf.interface, InterfaceItem(lines[0]), lines[0]);
    }
  }

  /** The first [Interface] header, as it is spelled, or the plain one where there is none. */
  function FirstHeader(lines: seq<string>): string {
    if lines == [] then "[Interface]"
    else if IsHeader(lines[0], "interface") && !IsHeader(lines[0], "peer") then RstripBreaks(lines[0])
    else FirstHeader(lines[1..])
  }

  lemma {:induction false} FeedAllHeader(s: Parser, lines: seq<string>)
    requires s.Valid() && (!s.seen ==> s.conf.header == "[Interface]")
    ensures FeedAll(s, lines).conf.header == if s.seen then s.conf.header else FirstHeader(lines)
    decreases |lines|
  {
    hide Feed, Closes, IsHeader, InterfaceItem, RstripBreaks;
    if lines != [] {
      FeedsOuter(s, lines[0]);
      FeedAllHeader(Feed(s, lines[0]), lines[1..]);
    }
  }

  /** An item is what its line says: nothing, a comment, a setting, or something else that is kept. */
  predicate SaysLine(item: Item) {
    match item
    case Blank(line) => AllSpace(line)
    case Comment(line) => IsComment(line)
    case Kv(key, value, text) => text.Some? && Strip(text.value) != "" && !IsComment(text.value) && Setting(text.value) == Some((key, value))
    case Raw(line) => Closes(line) || (Strip(line) != "" && !IsComment(line) && Setting(line).None?)
  }

  lemma ItemSaysLine(line: string)
    ensures SaysLine(InterfaceItem(line))
  {
    StripEmpty(line);
    hide Strip, IsComment, Setting, AllSpace, Closes;
  }

  lemma {:induction false} FeedAllSays(s: Parser, lines: seq<string>)
    requires s.Valid() && forall i :: 0 <= i < |s.conf.interface| ==> SaysLine(s.conf.interface[i])
    ensures forall i :: 0 <= i < |FeedAll(s, lines).conf.interface| ==> SaysLine(FeedAll(s, lines).conf.interface[i])
    decreases |lines|
  {
    hide Feed, Closes, IsHeader, InterfaceItem, SaysLine, RstripBreaks;
    if lines != [] {
      FeedsOuter(s, lines[0]);
      ItemSaysLine(lines[0]);
      RawSaysLine(lines[0]);
      FeedAllSays(Feed(s, lines[0]), lines[1..]);
    }
  }

  lemma RawSaysLine(line: string)
    ensures Closes(line) ==> SaysLine(Raw(line))
  {
    hide Closes;
  }

  /** No line outside the peers is lost, added, changed or moved, and each is read for what it says; the first
      [Interface] header is the section's own. */
  lemma InterfaceSaysItsLines(text: string)
    ensures var lines, c := SplitLines(text), Parse(text);
            && ItemLines(c.interface) == Outer(lines, false, false) && c.header == FirstHeader(lines)
            && forall i :: 0 <= i < |c.interface| ==> SaysLine(c.interface[i])
  {
    hide FeedAll, SplitLines, Outer, SaysLine;
    var lines := SplitLines(text);
    FeedAllOuter(START, lines);
    FeedAllHeader(START, lines);
    FeedAllSays(START, lines);
    assert ItemLines([]) + Outer(lines, false, false) == Outer(lines, false, false);
  }

  /** Every line goes to one place: the interface section, a peer's header, a peer's block or the section's own
      header. */
  lemma {:induction false} EveryLineCounts(lines: seq<string>, inPeer: bool, seen: bool)
    ensures |lines| == |Outer(lines, inPeer, seen)| + |PeerHeaders(lines)| + Total(Blocks(lines))
                       + (if inPeer then |Body(lines)| else 0) + (if OwnHeader(lines, seen) then 1 else 0)
  {
    hide IsHeader, Closes;
    if lines != [] {
      var l := lines[0];
      HeaderCloses(l);
      EveryLineCounts(lines[1..], IsHeader(l, "peer") || (inPeer && !Closes(l)),
                      seen || (IsHeader(l, "interface") && !IsHeader(l, "peer")));
      if IsHeader(l, "peer") {
        BlocksMore(lines);
        assert ([Body(lines[1..])] + Blocks(lines[1..]))[1..] == Blocks(lines[1..]);
      } else {
        assert Blocks(lines) == Blocks(lines[1..]) && PeerHeaders(lines) == PeerHeaders(lines[1..]);
      }
    }
  }

  predicate OwnHeader(lines: seq<string>, seen: bool) {
    !seen && lines != [] && ((IsHeader(lines[0], "interface") && !IsHeader(lines[0], "peer")) || OwnHeader(lines[1..], seen))
  }

  lemma HeaderCloses(line: string)
    ensures IsHeader(line, "peer") || IsHeader(line, "interface") ==> Closes(line)
  {
    hide OpensSection, Fold, Strip;
  }
}
