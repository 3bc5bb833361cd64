/** Every text parses to a config the printer can be trusted with, and one pass through parser and
    printer reaches a fixed point exactly when no peer's AllowedIPs ends in a blank. */
module ConfNormalForm {
  import opened Text
  import opened Config
  import opened ConfRoundTrip

  // ------------------------------------------------------------------ what a parse holds

  lemma {:induction false} LstripPush(a: string, b: string)
    requires Lstrip(a) != ""
    ensures Lstrip(a + b) == Lstrip(a) + b
  {
    if IsSpace(a[0]) {
      assert (a + b)[1..] == a[1..] + b;
      LstripPush(a[1..], b);
    }
  }

  lemma StripPadded(s: string, pad: string)
    requires AllSpace(pad)
    ensures Strip(s + pad) == Strip(s)
  {
    if Lstrip(s) == "" {
      StripEmpty(s);
      assert AllSpace(s + pad);
      StripEmpty(s + pad);
    } else {
      LstripPush(s, pad);
      RstripPad(Lstrip(s), pad);
    }
  }

  lemma {:induction false} NameEndPush(a: string, b: string)
    requires NameEnd(a) < |a|
    ensures NameEnd(a + b) == NameEnd(a)
  {
    if a[0] != ']' && a[0] != '#' {
      assert (a + b)[1..] == a[1..] + b;
      NameEndPush(a[1..], b);
    }
  }

  lemma NameEndBelow(a: string, c: char)
    requires c != ']' && c != '#' && NameEnd(a + [c]) < |a + [c]|
    ensures NameEnd(a) < |a|
  {
    var i := NameEnd(a + [c]);
    assert (a + [c])[i] == a[i];
    assert a[i] == ']' || a[i] == '#';
  }

  /** A carriage return at the end of a header is not part of its name. */
  lemma HeaderNameDropLast(line: string, c: char)
    requires (c == '\r' || c == '\n') && HeaderName(line + [c]).Some?
    ensures HeaderName(line) == HeaderName(line + [c])
  {
    if Lstrip(line) == "" {
      StripEmpty(line);
      LstripPad(line, [c]);
      assert false;
    }
    LstripPush(line, [c]);
    var body := Lstrip(line)[1..];
    assert Lstrip(line + [c])[1..] == body + [c];
    NameEndBelow(body, c);
    NameEndPush(body, [c]);
    var i := NameEnd(body);
    assert (body + [c])[i + 1..] == body[i + 1..] + [c];
    if Lstrip(body[i + 1..]) != "" {
      LstripPush(body[i + 1..], [c]);
    }
    assert (body + [c])[..i] == body[..i];
  }

  lemma {:induction false} HeaderNameRstrip(line: string)
    requires HeaderName(line).Some?
    ensures HeaderName(RstripBreaks(line)) == HeaderName(line)
    ensures RstripBreaks(RstripBreaks(line)) == RstripBreaks(line)
  {
    if line != "" && (line[|line| - 1] == '\r' || line[|line| - 1] == '\n') {
      var shorter := line[..|line| - 1];
      assert line == shorter + [line[|line| - 1]];
      HeaderNameDropLast(shorter, line[|line| - 1]);
      HeaderNameRstrip(shorter);
    }
  }

  lemma SettingOk(line: string)
    requires BodyLine(line) && Setting(line).Some?
    ensures KeyOk(Setting(line).value.0) && ValueOk(Setting(line).value.1)
  {
    var u := Uncommented(line);
    var i := IndexOf(u, '=');
    var key, value := u[..i], u[i + 1..];
    assert '#' !in u && '\n' !in u && '=' !in key;
    assert u == key + u[i..];
    StripChars(key, '#');
    StripChars(key, '\n');
    StripChars(key, '=');
    StripChars(value, '#');
    StripChars(value, '\n');
    assert Lstrip(key) != "" && Strip(key)[0] == Lstrip(key)[0];
    LstripPush(key, u[i..]);
    assert Lstrip(u)[0] == Lstrip(key)[0];
  }

  lemma TagValueOk(line: string, tag: string)
    requires '\n' !in line && TagValue(line, tag).Some?
    ensures MetaOk(TagValue(line, tag))
  {
    var s := Lstrip(line);
    LstripSuffix(line);
    assert '\n' !in s;
    var rest := Lstrip(s[1..]);
    LstripSuffix(s[1..]);
    assert '\n' !in rest;
    var tail := Lstrip(rest[|tag|..]);
    LstripSuffix(rest[|tag|..]);
    assert '\n' !in tail;
    StripChars(tail[1..], '\n');
  }

  lemma MetaOfOk(line: string)
    requires '\n' !in line && MetaOf(line).Some?
    ensures MetaOk(Some(MetaOf(line).value.1))
  {
    hide TagValue;
    if TagValue(line, "Client").Some? {
      TagValueOk(line, "Client");
    } else if TagValue(line, "Created").Some? {
      TagValueOk(line, "Created");
    } else {
      TagValueOk(line, "Disabled");
    }
  }

  lemma MergeAllowedOk(allowed: string, value: string)
    requires AllowedOk(allowed) && ValueOk(value)
    ensures AllowedOk(MergeAllowed(allowed, value))
  {
  }

  lemma ExtraPush(p: Peer, setting: (string, string))
    requires PeerOk(p) && ExtraOk(setting)
    ensures PeerOk(p.(extra := p.extra + [setting]))
  {
    hide ExtraOk, KeptLine, PeerHeaderOk;
  }

  lemma WithSettingOk(p: Peer, key: string, value: string)
    requires PeerOk(p) && KeyOk(key) && ValueOk(value)
    ensures PeerOk(WithSetting(p, key, value))
  {
    hide KeyOk, ParseInt, PeerOk, AllowedOk, ValueOk;
    var folded := Fold(key);
    if folded == "allowedips" {
      assert AllowedOk(p.allowedIps) by { FieldsOk(p); }
      MergeAllowedOk(p.allowedIps, value);
      FieldUpdatesOk(p, value, MergeAllowed(p.allowedIps, value));
    } else if folded in PEER_KEYS {
      FieldsOk(p);
      FieldUpdatesOk(p, value, p.allowedIps);
    } else if folded == "persistentkeepalive" && ParseInt(value).Some? {
      KeepaliveOk(p, ParseInt(value).value);
    } else {
      assert ExtraOk((key, value));
      ExtraPush(p, (key, value));
    }
  }

  lemma FieldsOk(p: Peer)
    requires PeerOk(p)
    ensures AllowedOk(p.allowedIps)
  {
  }

  lemma KeepaliveOk(p: Peer, n: int)
    requires PeerOk(p)
    ensures PeerOk(p.(keepalive := Some(n)))
  {
  }

  lemma FieldUpdatesOk(p: Peer, value: string, allowed: string)
    requires PeerOk(p) && ValueOk(value) && AllowedOk(allowed)
    ensures PeerOk(p.(publicKey := value)) && PeerOk(p.(presharedKey := Some(value)))
    ensures PeerOk(p.(endpoint := Some(value))) && PeerOk(p.(allowedIps := allowed))
  {
  }

  lemma KeptPush(p: Peer, line: string)
    requires PeerOk(p) && KeptLine(line)
    ensures PeerOk(p.(extraComments := p.extraComments + [line]))
  {
    hide KeptLine, ExtraOk, PeerHeaderOk;
  }

  lemma WithMetaOk(p: Peer, meta: Meta, value: string)
    requires PeerOk(p) && MetaOk(Some(value))
    ensures PeerOk(WithMeta(p, meta, value))
  {
    hide KeptLine, ExtraOk, PeerHeaderOk;
  }

  lemma FeedPeerOk(p: Peer, line: string)
    requires PeerOk(p) && BodyLine(line)
    ensures PeerOk(FeedPeer(p, line))
  {
    hide WithSetting, WithMeta, Setting, MetaOf, PeerOk, KeyOk, ValueOk, HeaderName, OpensSection;
    if Strip(line) == "" {
    } else if IsComment(line) {
      if MetaOf(line).Some? {
        MetaOfOk(line);
        WithMetaOk(p, MetaOf(line).value.0, MetaOf(line).value.1);
      } else {
        KeptPush(p, line);
      }
    } else if Setting(line).Some? {
      SettingOk(line);
      WithSettingOk(p, Setting(line).value.0, Setting(line).value.1);
    } else {
      KeptPush(p, line);
    }
  }

  predicate ParserOk(s: Parser) {
    s.Valid() && ConfOk(s.conf)
  }

  lemma NewPeerOk(line: string)
    requires '\n' !in line && IsHeader(line, "peer")
    ensures PeerOk(NewPeer(RstripBreaks(line)))
  {
    HeaderNameRstrip(line);
    assert RstripBreaks(line) == line[..|RstripBreaks(line)|];
  }

  lemma RawItemOk(line: string)
    requires '\n' !in line && !IsHeader(line, "peer") && (HeaderName(line).Some? || OpensSection(line))
    ensures ItemOk(Raw(line))
  {
  }

  lemma AddItemOk(c: Conf, item: Item)
    requires ConfOk(c) && ItemOk(item)
    ensures ConfOk(AddItem(c, item))
  {
    hide ItemOk, PeerOk, InterfaceHeaderOk;
  }

  lemma PutPeerOk(c: Conf, i: nat, p: Peer)
    requires ConfOk(c) && PeerOk(p) && i <= |c.peers|
    ensures ConfOk(c.(peers := c.peers + [p]))
    ensures i < |c.peers| ==> ConfOk(c.(peers := c.peers[i := p]))
  {
    hide ItemOk, PeerOk, InterfaceHeaderOk;
  }

  lemma HeaderOk(line: string)
    requires '\n' !in line && IsHeader(line, "interface")
    ensures InterfaceHeaderOk(RstripBreaks(line))
  {
    HeaderNameRstrip(line);
    assert RstripBreaks(line) == line[..|RstripBreaks(line)|];
  }

  lemma LastPeerOk(c: Conf)
    requires ConfOk(c) && c.peers != []
    ensures PeerOk(c.peers[|c.peers| - 1])
  {
  }

  lemma HeaderLineOk(c: Conf, header: string)
    requires ConfOk(c) && InterfaceHeaderOk(header)
    ensures ConfOk(c.(header := header))
  {
    hide ItemOk, PeerOk, InterfaceHeaderOk;
  }

  lemma FeedOk(s: Parser, line: string)
    requires ParserOk(s) && '\n' !in line
    ensures ParserOk(Feed(s, line))
  {
    hide ConfOk, PeerOk, ItemOk, InterfaceHeaderOk, FeedPeer, InterfaceItem;
    hide AddItem, HeaderName, OpensSection, RstripBreaks, Fold;
    if IsHeader(line, "peer") {
      NewPeerOk(line);
      PutPeerOk(s.conf, 0, NewPeer(RstripBreaks(line)));
    } else if IsHeader(line, "interface") && !s.seen {
      HeaderOk(line);
      HeaderLineOk(s.conf, RstripBreaks(line));
    } else if HeaderName(line).Some? || OpensSection(line) {
      RawItemOk(line);
      AddItemOk(s.conf, Raw(line));
    } else if s.inPeer {
      var last := |s.conf.peers| - 1;
      LastPeerOk(s.conf);
      FeedPeerOk(s.conf.peers[last], line);
      PutPeerOk(s.conf, last, FeedPeer(s.conf.peers[last], line));
    } else {
      InterfaceItemOk(line);
      AddItemOk(s.conf, InterfaceItem(line));
    }
  }

  lemma InterfaceItemOk(line: string)
    requires BodyLine(line)
    ensures ItemOk(InterfaceItem(line))
  {
  }

  lemma {:induction false} FeedAllOk(s: Parser, lines: seq<string>)
    requires ParserOk(s) && NoBreaks(lines)
    ensures ParserOk(FeedAll(s, lines))
    decreases |lines|
  {
    hide Feed, ConfOk;
    if lines != [] {
      FeedOk(s, lines[0]);
      FeedAllOk(Feed(s, lines[0]), lines[1..]);
    }
  }

  lemma BracketHeader(header: string, name: string)
    requires header == "[" + name + "]" && ']' !in name && '#' !in name
    ensures HeaderName(header) == Some(name)
    ensures RstripBreaks(header) == header
  {
    var body := header[1..];
    assert body == name + "]";
    assert body[|name|] == ']' && forall i :: 0 <= i < |name| ==> body[i] == name[i] && name[i] in name;
    assert NameEnd(body) == |name|;
    assert body[..|name|] == name && body[|name| + 1..] == "";
  }

  lemma PlainHeaders()
    ensures InterfaceHeaderOk(INTERFACE_HEADER) && PeerHeaderOk(PEER_HEADER)
  {
    hide HeaderName, RstripBreaks, Strip;
    BracketHeader(INTERFACE_HEADER, "Interface");
    BracketHeader(PEER_HEADER, "Peer");
    assert Strip("Interface") == "Interface" by { StripTrimmed("Interface"); }
    assert Strip("Peer") == "Peer" by { StripTrimmed("Peer"); }
    FoldedHeaders();
  }

  lemma FoldedHeaders()
    ensures Fold("Interface") == "interface" && Fold("Peer") == "peer"
  {
  }

  /** Whatever text is parsed, the printer's own output for it reads back. */
  lemma ParseOk(text: string)
    ensures ConfOk(Parse(text))
  {
    hide FeedAll, SplitLines, InterfaceHeaderOk;
    PlainHeaders();
    assert ParserOk(START);
    FeedAllOk(START, SplitLines(text));
  }

  // ------------------------------------------------------------------ the fixed point

  /** AllowedIPs ends in a blank: an empty AllowedIPs line was merged last. */
  predicate EndsBlank(s: string) {
    s != "" && IsSpace(s[|s| - 1])
  }

  lemma EndsBlankIsUntrimmed(s: string)
    requires AllowedOk(s)
    ensures EndsBlank(s) <==> Strip(s) != s
    ensures EndsBlank(s) ==> |Strip(s)| < |s|
    ensures s != "" ==> Strip(s) != ""
  {
    if s != "" {
      StripKeepsFirst(s);
      RstripPrefix(s);
    }
  }

  /** How the blank gets there: of all peer lines only an AllowedIPs line can put it there or take
      it away, and it puts it there exactly when it is empty and something was merged before it. */
  lemma EndsBlankStep(p: Peer, line: string)
    requires PeerOk(p) && BodyLine(line)
    ensures EndsBlank(FeedPeer(p, line).allowedIps)
            <==> if !IsComment(line) && Setting(line).Some? && Fold(Setting(line).value.0) == "allowedips"
                 then Setting(line).value.1 == "" && p.allowedIps != ""
                 else EndsBlank(p.allowedIps)
  {
    hide PeerOk, ParseInt, MetaOf;
    if Setting(line).Some? {
      SettingOk(line);
    }
    if Strip(line) == "" {
      StripEmpty(line);
      SettingOfBlank(line);
    }
  }

  lemma SettingOfBlank(line: string)
    requires AllSpace(line)
    ensures Setting(line).None?
  {
    assert forall i :: 0 <= i < |line| ==> IsSpace(line[i]) && line[i] != '=';
    IndexOfNone(Uncommented(line), '=');
  }

  function Weight(lines: seq<string>): nat {
    |Unlines(lines)|
  }

  lemma WeightAppend(a: seq<string>, b: seq<string>)
    ensures Weight(a + b) == Weight(a) + Weight(b)
  {
    UnlinesAppend(a, b);
  }

  lemma WeightAllowed(allowed: string)
    requires AllowedOk(allowed)
    ensures Weight(OptSetting("AllowedIPs", Strip(allowed))) + |allowed|
            == Weight(OptSetting("AllowedIPs", allowed)) + |Strip(allowed)|
  {
    EndsBlankIsUntrimmed(allowed);
    if allowed != "" {
      var line, line' := SettingLine("AllowedIPs", allowed), SettingLine("AllowedIPs", Strip(allowed));
      assert Unlines([line]) == line + "\n" && Unlines([line']) == line' + "\n";
    }
  }

  lemma PeerLinesParts(p: Peer)
    requires PeerOk(p)
    ensures var before := [p.header] + MetaLines(p) + p.extraComments + OptSetting("PublicKey", p.publicKey)
                          + OptSetting("PresharedKey", OrEmpty(p.presharedKey));
            var after := OptSetting("Endpoint", OrEmpty(p.endpoint)) + KeepaliveLines(p.keepalive) + ExtraLines(p.extra);
            PeerLines(p) == before + OptSetting("AllowedIPs", p.allowedIps) + after
            && PeerLines(NormPeer(p)) == before + OptSetting("AllowedIPs", Strip(p.allowedIps)) + after
  {
    hide MetaLines, OptSetting, KeepaliveLines, ExtraLines, Strip, ValueOk, AllowedOk, MetaOk, KeptLine, ExtraOk;
    assert p.header != "" by {
      assert HeaderName("").None?;
    }
    assert OrEmpty(NonEmpty(p.presharedKey)) == OrEmpty(p.presharedKey);
    assert OrEmpty(NonEmpty(p.endpoint)) == OrEmpty(p.endpoint);
    assert MetaLines(NormPeer(p)) == MetaLines(p) by {
      MetaLinesOf(p);
    }
  }

  lemma MetaLinesOf(p: Peer)
    ensures MetaLines(NormPeer(p)) == MetaLines(p)
  {
  }

  lemma NormPeerLighter(p: Peer)
    requires PeerOk(p)
    ensures Weight(PeerLines(NormPeer(p))) + |p.allowedIps| == Weight(PeerLines(p)) + |Strip(p.allowedIps)|
    ensures !EndsBlank(p.allowedIps) ==> PeerLines(NormPeer(p)) == PeerLines(p)
  {
    var before := [p.header] + MetaLines(p) + p.extraComments + OptSetting("PublicKey", p.publicKey)
                  + OptSetting("PresharedKey", OrEmpty(p.presharedKey));
    var after := OptSetting("Endpoint", OrEmpty(p.endpoint)) + KeepaliveLines(p.keepalive) + ExtraLines(p.extra);
    PeerLinesParts(p);
    assert AllowedOk(p.allowedIps);
    hide PeerLines, MetaLines, OptSetting, KeepaliveLines, ExtraLines, Strip, PeerOk, AllowedOk, Weight, NormPeer;
    WeightAllowed(p.allowedIps);
    EndsBlankIsUntrimmed(p.allowedIps);
    WeightAppend(before + OptSetting("AllowedIPs", p.allowedIps), after);
    WeightAppend(before, OptSetting("AllowedIPs", p.allowedIps));
    WeightAppend(before + OptSetting("AllowedIPs", Strip(p.allowedIps)), after);
    WeightAppend(before, OptSetting("AllowedIPs", Strip(p.allowedIps)));
  }

  predicate NoneBlank(lines: seq<string>) {
    forall l :: l in lines ==> Strip(l) != ""
  }

  lemma OptSettingNotBlank(key: string, value: string)
    requires KeyOk(key) && OneLine(value)
    ensures NoneBlank(OptSetting(key, value))
  {
    if value != "" {
      SettingLineReads(key, value);
    }
  }

  lemma OptMetaNotBlank(tag: string, value: Option<string>)
    ensures NoneBlank(OptMeta(tag, value))
  {
    if value.Some? {
      StripKeepsFirst(MetaLine(tag, value.value));
    }
  }

  lemma ExtraLinesNotBlank(extra: seq<(string, string)>)
    requires forall i :: 0 <= i < |extra| ==> ExtraOk(extra[i])
    ensures NoneBlank(ExtraLines(extra))
  {
    forall l | l in ExtraLines(extra) ensures Strip(l) != "" {
      var i :| 0 <= i < |extra| && l == ExtraLines(extra)[i];
      SettingLineReads(extra[i].0, extra[i].1);
    }
  }

  lemma HeaderNotBlank(header: string)
    requires HeaderName(header).Some?
    ensures Strip(header) != ""
  {
    StripEmpty(header);
  }

  lemma PeerPartsNotBlank(p: Peer)
    requires PeerOk(p)
    ensures p.header != "" && Strip(p.header) != "" && NoneBlank(p.extraComments) && NoneBlank(ExtraLines(p.extra))
    ensures NoneBlank(OptSetting("PublicKey", p.publicKey)) && NoneBlank(OptSetting("AllowedIPs", p.allowedIps))
    ensures NoneBlank(OptSetting("PresharedKey", OrEmpty(p.presharedKey)))
    ensures NoneBlank(OptSetting("Endpoint", OrEmpty(p.endpoint)))
  {
    hide OptSetting, ExtraLines, Strip;
    HeaderNotBlank(p.header);
    assert p.header != "" by { assert HeaderName("").None?; }
    OptSettingNotBlank("PublicKey", p.publicKey);
    OptSettingNotBlank("PresharedKey", OrEmpty(p.presharedKey));
    OptSettingNotBlank("AllowedIPs", p.allowedIps);
    OptSettingNotBlank("Endpoint", OrEmpty(p.endpoint));
    ExtraLinesNotBlank(p.extra);
  }

  lemma KeepaliveNotBlank(keepalive: Option<int>)
    ensures NoneBlank(KeepaliveLines(keepalive))
  {
    if keepalive.Some? {
      ShowIntPlain(keepalive.value);
      SettingLineReads("PersistentKeepalive", ShowInt(keepalive.value));
    }
  }

  lemma PeerLinesNotBlank(p: Peer)
    requires PeerOk(p)
    ensures NoneBlank(PeerLines(p))
  {
    hide OptMeta, OptSetting, ExtraLines, KeepaliveLines, PeerOk, Strip;
    PeerPartsNotBlank(p);
    KeepaliveNotBlank(p.keepalive);
    OptMetaNotBlank("Client", p.name);
    OptMetaNotBlank("Created", p.created);
    OptMetaNotBlank("Disabled", p.disabledAt);
    NoneBlankThree(OptMeta("Client", p.name), OptMeta("Created", p.created), OptMeta("Disabled", p.disabledAt));
    NoneBlankThree(OptSetting("PublicKey", p.publicKey), OptSetting("PresharedKey", OrEmpty(p.presharedKey)),
                   OptSetting("AllowedIPs", p.allowedIps));
    var three := OptSetting("PublicKey", p.publicKey) + OptSetting("PresharedKey", OrEmpty(p.presharedKey))
                 + OptSetting("AllowedIPs", p.allowedIps);
    NoneBlankThree(three, OptSetting("Endpoint", OrEmpty(p.endpoint)), KeepaliveLines(p.keepalive));
    NoneBlankThree(MetaLines(p), p.extraComments, KernelLines(p));
    NoneBlankThree([p.header], MetaLines(p) + p.extraComments + KernelLines(p), ExtraLines(p.extra));
  }

  lemma NoneBlankThree(a: seq<string>, b: seq<string>, c: seq<string>)
    requires NoneBlank(a) && NoneBlank(b) && NoneBlank(c)
    ensures NoneBlank(a + b + c)
  {
  }

  lemma NormPeerOk(p: Peer)
    requires PeerOk(p)
    ensures PeerOk(NormPeer(p))
  {
    hide KeptLine, ExtraOk, PeerHeaderOk, MetaOk;
    StripChars(p.allowedIps, '#');
    StripChars(p.allowedIps, '\n');
  }

  /** Printing the normal form is never longer, and is shorter as soon as one peer ends in a blank. */
  lemma {:induction false} NormPeersLighter(a: seq<string>, b: seq<string>, peers: seq<Peer>)
    requires forall i :: 0 <= i < |peers| ==> PeerOk(peers[i])
    requires Weight(a) <= Weight(b)
    requires a != [] && b != [] && (Strip(a[|a| - 1]) == "" <==> Strip(b[|b| - 1]) == "")
    ensures Weight(AppendPeers(a, NormPeers(peers))) <= Weight(AppendPeers(b, peers))
    ensures (Weight(a) < Weight(b) || exists i :: 0 <= i < |peers| && EndsBlank(peers[i].allowedIps)) ==>
              Weight(AppendPeers(a, NormPeers(peers))) < Weight(AppendPeers(b, peers))
    decreases |peers|
  {
    hide PeerOk, PeerLines, NormPeer, Strip, Weight, EndsBlank;
    if peers != [] {
      var p := peers[0];
      WeightAppend(a, [""]);
      WeightAppend(b, [""]);
      WeightAppend(Separate(a), PeerLines(NormPeer(p)));
      WeightAppend(Separate(b), PeerLines(p));
      NormPeerLighter(p);
      LighterWhenBlank(p);
      var a', b' := Separate(a) + PeerLines(NormPeer(p)), Separate(b) + PeerLines(p);
      NormPeerOk(p);
      PeerLinesNotBlank(p);
      PeerLinesNotBlank(NormPeer(p));
      assert a'[|a'| - 1] in PeerLines(NormPeer(p)) && b'[|b'| - 1] in PeerLines(p);
      assert NormPeers(peers)[1..] == NormPeers(peers[1..]);
      NormPeersLighter(a', b', peers[1..]);
      if exists i :: 0 <= i < |peers| && EndsBlank(peers[i].allowedIps) {
        var i :| 0 <= i < |peers| && EndsBlank(peers[i].allowedIps);
        if i > 0 { assert peers[i] == peers[1..][i - 1]; }
      }
    }
  }

  lemma LighterWhenBlank(p: Peer)
    requires PeerOk(p)
    ensures |Strip(p.allowedIps)| <= |p.allowedIps|
    ensures EndsBlank(p.allowedIps) ==> |Strip(p.allowedIps)| < |p.allowedIps|
  {
    EndsBlankIsUntrimmed(p.allowedIps);
  }

  lemma {:induction false} NormPeersSame(lines: seq<string>, peers: seq<Peer>)
    requires forall i :: 0 <= i < |peers| ==> PeerOk(peers[i]) && !EndsBlank(peers[i].allowedIps)
    ensures AppendPeers(lines, NormPeers(peers)) == AppendPeers(lines, peers)
    decreases |peers|
  {
    hide PeerOk, PeerLines, NormPeer, EndsBlank;
    if peers != [] {
      NormPeerLighter(peers[0]);
      assert NormPeers(peers)[1..] == NormPeers(peers[1..]);
      NormPeersSame(Separate(lines) + PeerLines(peers[0]), peers[1..]);
    }
  }

  lemma ItemLinesNorm(items: seq<Item>)
    ensures ItemLines(NormItems(items)) == ItemLines(items)
  {
  }

  lemma SeparateTwice(lines: seq<string>)
    ensures Separate(Separate(lines)) == Separate(lines)
  {
    assert Strip("") == "" by { StripTrimmed(""); }
  }

  /** The normal form starts with the interface section the printer already separated. */
  lemma NormInterface(c: Conf)
    requires ConfOk(c)
    ensures InterfaceLines(Norm(c)) == if c.peers == [] then InterfaceLines(c) else Separate(InterfaceLines(c))
  {
    ItemLinesNorm(c.interface);
    var items := NormItems(c.interface);
    assert ItemLines(items + Padding(c)) == ItemLines(items) + ItemLines(Padding(c));
    if Padding(c) == [] {
      assert items + Padding(c) == items;
    } else {
      assert ItemLines(Padding(c)) == [""];
    }
  }

  lemma NormRendered(c: Conf)
    requires ConfOk(c)
    ensures RenderLines(Norm(c)) == AppendPeers(InterfaceLines(Norm(c)), NormPeers(c.peers))
    ensures RenderLines(c) == AppendPeers(InterfaceLines(Norm(c)), c.peers)
  {
    hide InterfaceLines, ConfOk, NormPeers;
    NormInterface(c);
    SeparateTwice(InterfaceLines(c));
  }

  /** Printing the normal form gives the same text exactly when no AllowedIPs ends in a blank. */
  lemma NormFixed(c: Conf)
    requires ConfOk(c)
    ensures Render(Norm(c)) == Render(c) <==> forall i :: 0 <= i < |c.peers| ==> !EndsBlank(c.peers[i].allowedIps)
  {
    var top := InterfaceLines(Norm(c));
    NormRendered(c);
    assert forall i :: 0 <= i < |c.peers| ==> PeerOk(c.peers[i]);
    AppendPeersGrows(top, c.peers);
    AppendPeersGrows(top, NormPeers(c.peers));
    hide PeerOk, ConfOk, Norm, InterfaceLines, AppendPeers, NormPeers, RenderLines, JoinLines, Unlines, EndsBlank;
    JoinIsUnlines(RenderLines(c));
    JoinIsUnlines(RenderLines(Norm(c)));
    if forall i :: 0 <= i < |c.peers| ==> !EndsBlank(c.peers[i].allowedIps) {
      NormPeersSame(top, c.peers);
    } else {
      NormPeersLighter(top, top, c.peers);
    }
  }

  /** One pass reaches the normal form: printing and parsing again changes nothing, for exactly the
      texts in which no peer's merged AllowedIPs ends in a blank. */
  lemma NormalForm(text: string)
    ensures Render(Parse(Render(Parse(text)))) == Render(Parse(text))
            <==> forall i :: 0 <= i < |Parse(text).peers| ==> !EndsBlank(Parse(text).peers[i].allowedIps)
  {
    hide Render, Norm, Parse, ConfOk, EndsBlank;
    ParseOk(text);
    RoundTrip(Parse(text));
    NormFixed(Parse(text));
  }

  /** Two passes always do: the blank goes on the second. */
  lemma SecondPassIsFixed(text: string)
    ensures var once := Render(Parse(text));
            var twice := Render(Parse(once));
            Render(Parse(twice)) == twice
  {
    hide Render, Norm, Parse, ConfOk, EndsBlank;
    var once := Render(Parse(text));
    ParseOk(text);
    RoundTrip(Parse(text));
    NormTrimmed(Parse(text));
    NormalForm(once);
  }

  lemma NormTrimmed(c: Conf)
    ensures forall i :: 0 <= i < |Norm(c).peers| ==> !EndsBlank(Norm(c).peers[i].allowedIps)
  {
  }

  lemma FeedAllowed(p: Peer, value: string)
    requires ValueOk(value)
    ensures BodyLine(SettingLine("AllowedIPs", value))
    ensures FeedPeer(p, SettingLine("AllowedIPs", value)) == p.(allowedIps := MergeAllowed(p.allowedIps, value))
  {
    hide FeedPeer, WithSetting, Setting, Strip, BodyLine;
    assert KeyOk("AllowedIPs");
    SettingLineReads("AllowedIPs", value);
    assert Strip(value) == value by { StripTrimmed(value); }
    FeedSetting(p, "AllowedIPs", value);
    WithPeerKeys(p, value);
  }

  lemma MergedBlank(value: string)
    requires ValueOk(value) && value != ""
    ensures var lines := [SettingLine("AllowedIPs", value), SettingLine("AllowedIPs", "")];
            BodyLines(lines) && EndsBlank(FeedPeerAll(NewPeer(PEER_HEADER), lines).allowedIps)
  {
    hide FeedPeer, BodyLine, SettingLine;
    var lines := [SettingLine("AllowedIPs", value), SettingLine("AllowedIPs", "")];
    var p := NewPeer(PEER_HEADER);
    FeedAllowed(p, value);
    var p1 := FeedPeer(p, lines[0]);
    FeedAllowed(p1, "");
    var p2 := FeedPeer(p1, lines[1]);
    assert lines[1..] == [lines[1]] && FeedPeerAll(p1, [lines[1]]) == p2;
    assert p2.allowedIps == value + ", " + "";
  }

  /** The texts that need two passes, at their smallest: an empty AllowedIPs line after one that
      says something is joined as "value, ", which is stripped on the way back in. */
  lemma NormalFormNeedsNoBlank(value: string)
    requires ValueOk(value) && value != ""
    ensures var text := Unlines([PEER_HEADER, SettingLine("AllowedIPs", value), SettingLine("AllowedIPs", "")]);
            Render(Parse(Render(Parse(text)))) != Render(Parse(text))
  {
    hide Render, Feed, SettingLine, SplitLines, Unlines, FeedPeerAll, BodyLine, EndsBlank;
    MergedBlank(value);
    FeedPlainPeer();
    var rest := [SettingLine("AllowedIPs", value), SettingLine("AllowedIPs", "")];
    var lines := [PEER_HEADER, rest[0], rest[1]];
    var s := Feed(START, PEER_HEADER);
    assert lines[1..] == rest && FeedAll(START, lines) == FeedAll(s, rest);
    FeedIntoPeer(s, rest);
    BodyLinesPlain(rest);
    assert '\n' !in rest[0] && '\n' !in rest[1] && '\n' !in PEER_HEADER;
    LinesRoundTrip(lines);
    NormalForm(Unlines(lines));
    assert Parse(Unlines(lines)).peers == [FeedPeerAll(NewPeer(PEER_HEADER), rest)];
    assert EndsBlank(Parse(Unlines(lines)).peers[0].allowedIps);
  }

  lemma BodyLinesPlain(lines: seq<string>)
    requires BodyLines(lines)
    ensures forall i :: 0 <= i < |lines| ==> '\n' !in lines[i]
  {
  }

  lemma FeedPlainPeer()
    ensures Feed(START, PEER_HEADER) == Parser(START.conf.(peers := [NewPeer(PEER_HEADER)]), true, false)
  {
    PlainHeaders();
    hide HeaderName, RstripBreaks;
    assert START.conf.peers + [NewPeer(PEER_HEADER)] == [NewPeer(PEER_HEADER)];
  }
}
