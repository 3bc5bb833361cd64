/** The parser and the printer agree: what a parse holds, printed and parsed again, is the same
    config up to a stated normal form. */
module ConfRoundTrip {
  import opened Text
  import opened Config

  // ------------------------------------------------------------------ what a config may hold

  predicate OneLine(s: string) {
    '\n' !in s && '#' !in s
  }

  /** A key that reads back as itself when it is printed in front of " = ". */
  predicate KeyOk(key: string) {
    key != "" && Trimmed(key) && OneLine(key) && '=' !in key && key[0] != '['
  }

  /** A value that reads back as itself: trimmed, on one line, and without a '#'. */
  predicate ValueOk(value: string) {
    Trimmed(value) && OneLine(value)
  }

  predicate MetaOk(value: Option<string>) {
    value.Some? ==> Trimmed(value.value) && '\n' !in value.value
  }

  /** A line the parser hands to the section it is in, rather than to a header. */
  predicate BodyLine(line: string) {
    '\n' !in line && HeaderName(line).None? && !OpensSection(line)
  }

  /** A peer line that is neither a setting nor a marker: it is kept verbatim. */
  predicate KeptLine(line: string) {
    && BodyLine(line) && Strip(line) != ""
    && if IsComment(line) then MetaOf(line).None? else Setting(line).None?
  }

  const PEER_KEYS: set<string> := {"publickey", "presharedkey", "allowedips", "endpoint"}

  predicate ExtraOk(setting: (string, string)) {
    && KeyOk(setting.0) && ValueOk(setting.1) && Fold(setting.0) !in PEER_KEYS
    && (Fold(setting.0) == "persistentkeepalive" ==> ParseInt(setting.1).None?)
  }

  /** AllowedIPs may end in the blank that merging an empty repeated line leaves behind. */
  predicate AllowedOk(allowed: string) {
    OneLine(allowed) && (allowed != "" ==> !IsSpace(allowed[0]))
  }

  predicate PeerHeaderOk(header: string) {
    '\n' !in header && RstripBreaks(header) == header && IsHeader(header, "peer")
  }

  predicate InterfaceHeaderOk(header: string) {
    '\n' !in header && RstripBreaks(header) == header && IsHeader(header, "interface")
  }

  predicate PeerOk(p: Peer) {
    && PeerHeaderOk(p.header)
    && ValueOk(p.publicKey) && ValueOk(OrEmpty(p.presharedKey)) && ValueOk(OrEmpty(p.endpoint))
    && AllowedOk(p.allowedIps)
    && MetaOk(p.name) && MetaOk(p.created) && MetaOk(p.disabledAt)
    && (forall i :: 0 <= i < |p.extra| ==> ExtraOk(p.extra[i]))
    && (forall i :: 0 <= i < |p.extraComments| ==> KeptLine(p.extraComments[i]))
  }

  /** What a line outside any peer adds to the interface section once its header has been read. */
  function InterfaceReading(line: string): Option<Item> {
    if IsHeader(line, "peer") then None
    else if HeaderName(line).Some? || OpensSection(line) then Some(Raw(line))
    else Some(InterfaceItem(line))
  }

  /** An item as a later parse finds it: every setting has a source line. */
  function NormItem(item: Item): Item {
    if item.Kv? then item.(text := Some(ItemLine(item))) else item
  }

  predicate ItemOk(item: Item) {
    '\n' !in ItemLine(item) && InterfaceReading(ItemLine(item)) == Some(NormItem(item))
  }

  predicate ConfOk(c: Conf) {
    && InterfaceHeaderOk(c.header)
    && (forall i :: 0 <= i < |c.interface| ==> ItemOk(c.interface[i]))
    && (forall i :: 0 <= i < |c.peers| ==> PeerOk(c.peers[i]))
  }

  function NonEmpty(value: Option<string>): Option<string> {
    if value == Some("") then None else value
  }

  /** A peer as a later parse finds it: an empty optional field is an absent one. */
  function NormPeer(p: Peer): Peer {
    p.(presharedKey := NonEmpty(p.presharedKey), endpoint := NonEmpty(p.endpoint), allowedIps := Strip(p.allowedIps))
  }

  function NormItems(items: seq<Item>): (r: seq<Item>)
    ensures |r| == |items|
  {
    seq(|items|, i requires 0 <= i < |items| => NormItem(items[i]))
  }

  function NormPeers(peers: seq<Peer>): (r: seq<Peer>)
    ensures |r| == |peers|
  {
    seq(|peers|, i requires 0 <= i < |peers| => NormPeer(peers[i]))
  }

  lemma NormPeersTwice(peers: seq<Peer>)
    ensures NormPeers(NormPeers(peers)) == NormPeers(peers)
  {
    forall i | 0 <= i < |peers| ensures NormPeer(NormPeer(peers[i])) == NormPeer(peers[i]) {
      StripTrimmed(Strip(peers[i].allowedIps));
    }
  }

  /** The blank line in front of the first peer belongs to the interface section when it is read. */
  function Padding(c: Conf): seq<Item> {
    var lines := InterfaceLines(c);
    if c.peers != [] && Strip(lines[|lines| - 1]) != "" then [Blank("")] else []
  }

  /** What parsing the printed config gives. */
  function Norm(c: Conf): Conf {
    Conf(NormItems(c.interface) + Padding(c), NormPeers(c.peers), c.header)
  }

  // ------------------------------------------------------------------ one setting line

  lemma UncommentedWhole(line: string)
    requires '#' !in line
    ensures Uncommented(line) == line
  {
    IndexOfNone(line, '#');
  }

  lemma SettingLineBody(key: string, value: string)
    requires KeyOk(key) && OneLine(value)
    ensures BodyLine(SettingLine(key, value))
    ensures Strip(SettingLine(key, value)) != "" && !IsComment(SettingLine(key, value))
  {
    var line := SettingLine(key, value);
    assert line[0] == key[0];
    assert key[0] in key;
    StripKeepsFirst(line);
    UncommentedWhole(line);
  }

  lemma SettingLineSplits(key: string, value: string)
    requires KeyOk(key) && OneLine(value)
    ensures Setting(SettingLine(key, value)) == Some((key, Strip(value)))
  {
    var line := SettingLine(key, value);
    var before := key + " ";
    assert line == before + ['='] + (" " + value);
    UncommentedWhole(line);
    PartitionAt(line, before, '=', " " + value);
    StripPad("", key, " ");
    assert "" + key + " " == before;
    LstripPad(" ", value);
  }

  lemma SettingLineReads(key: string, value: string)
    requires KeyOk(key) && OneLine(value)
    ensures BodyLine(SettingLine(key, value))
    ensures Strip(SettingLine(key, value)) != "" && !IsComment(SettingLine(key, value))
    ensures Setting(SettingLine(key, value)) == Some((key, Strip(value)))
  {
    SettingLineBody(key, value);
    SettingLineSplits(key, value);
  }

  predicate IsTag(tag: string) {
    tag == "Client" || tag == "Created" || tag == "Disabled"
  }

  lemma CommentBody(line: string)
    requires line != "" && line[0] == '#' && '\n' !in line
    ensures BodyLine(line) && IsComment(line)
  {
    StripKeepsFirst(line);
    assert Uncommented(line) == "";
  }

  lemma MetaLineTail(tag: string, value: string)
    requires IsTag(tag) && Trimmed(value)
    ensures var line := MetaLine(tag, value);
            line != "" && line[0] == '#' && Lstrip(line) == line && Lstrip(line[1..]) == tag + " = " + value
  {
    var line := MetaLine(tag, value);
    var rest := tag + " = " + value;
    assert line[0] == '#';
    StripKeepsFirst(line);
    assert line[1..] == " " + rest;
    LstripPad(" ", rest);
    assert rest[0] == tag[0];
    StripKeepsFirst(rest);
  }

  lemma EqualsTail(value: string)
    requires Trimmed(value)
    ensures var tail := Lstrip(" = " + value);
            tail != "" && tail[0] == '=' && Strip(tail[1..]) == value
  {
    var tail := "= " + value;
    assert " = " + value == " " + tail;
    LstripPad(" ", tail);
    StripKeepsFirst(tail);
    assert tail[1..] == " " + value + "";
    StripPad(" ", value, "");
  }

  lemma TagReads(tag: string, value: string)
    requires IsTag(tag) && Trimmed(value)
    ensures TagValue(MetaLine(tag, value), tag) == Some(value)
  {
    MetaLineTail(tag, value);
    var rest := tag + " = " + value;
    assert rest == tag + (" = " + value);
    assert tag <= rest && rest[|tag|..] == " = " + value;
    EqualsTail(value);
  }

  lemma TagsDiffer(tag: string, other: string)
    requires IsTag(tag) && IsTag(other) && tag != other
    ensures |tag| > 1 && |other| > 1 && (tag[0] != other[0] || tag[1] != other[1])
  {
    assert "Client"[0] == 'C' && "Created"[0] == 'C' && "Disabled"[0] == 'D';
    assert "Client"[1] == 'l' && "Created"[1] == 'r';
  }

  lemma OtherTag(tag: string, value: string, other: string)
    requires IsTag(tag) && IsTag(other) && tag != other && Trimmed(value)
    ensures TagValue(MetaLine(tag, value), other) == None
  {
    MetaLineTail(tag, value);
    TagsDiffer(tag, other);
    hide IsTag, MetaLine, Trimmed;
    var rest := tag + " = " + value;
    assert rest[0] == tag[0] && rest[1] == tag[1];
  }

  /** A marker the printer writes is read back into the field it came from. */
  lemma MetaLineReads(meta: Meta, value: string)
    requires Trimmed(value) && '\n' !in value
    ensures BodyLine(MetaLine(TagOf(meta), value)) && IsComment(MetaLine(TagOf(meta), value))
    ensures MetaOf(MetaLine(TagOf(meta), value)) == Some((meta, value))
  {
    var tag := TagOf(meta);
    MetaLineTail(tag, value);
    CommentBody(MetaLine(tag, value));
    TagReads(tag, value);
    if meta != Client { OtherTag(tag, value, "Client"); }
    if meta == Disabled { OtherTag(tag, value, "Created"); }
  }

  function TagOf(meta: Meta): string {
    match meta
    case Client => "Client"
    case Created => "Created"
    case Disabled => "Disabled"
  }

  // ------------------------------------------------------------------ one peer

  function FeedPeerAll(p: Peer, lines: seq<string>): Peer
    decreases |lines|
  {
    if lines == [] then p else FeedPeerAll(FeedPeer(p, lines[0]), lines[1..])
  }

  lemma {:induction false} FeedPeerAllAppend(p: Peer, a: seq<string>, b: seq<string>)
    ensures FeedPeerAll(p, a + b) == FeedPeerAll(FeedPeerAll(p, a), b)
    decreases |a|
  {
    if a == [] {
      assert a + b == b;
    } else {
      assert (a + b)[0] == a[0] && (a + b)[1..] == a[1..] + b;
      FeedPeerAllAppend(FeedPeer(p, a[0]), a[1..], b);
    }
  }

  predicate BodyLines(lines: seq<string>) {
    forall i :: 0 <= i < |lines| ==> BodyLine(lines[i])
  }

  /** Lines below a [Peer] header change that peer and nothing else. */
  lemma {:induction false} FeedIntoPeer(s: Parser, lines: seq<string>)
    requires s.Valid() && s.inPeer && BodyLines(lines)
    ensures var last := |s.conf.peers| - 1;
            FeedAll(s, lines)
            == s.(conf := s.conf.(peers := s.conf.peers[last := FeedPeerAll(s.conf.peers[last], lines)]))
    decreases |lines|
  {
    var last := |s.conf.peers| - 1;
    if lines == [] {
      assert s.conf.peers[last := s.conf.peers[last]] == s.conf.peers;
    } else {
      assert BodyLine(lines[0]);
      FeedIntoPeer(Feed(s, lines[0]), lines[1..]);
      var p := FeedPeer(s.conf.peers[last], lines[0]);
      var q := FeedPeerAll(p, lines[1..]);
      assert s.conf.peers[last := p][last := q] == s.conf.peers[last := q];
    }
  }

  lemma FoldedPeerKeys()
    ensures Fold("PublicKey") == "publickey" && Fold("PresharedKey") == "presharedkey"
    ensures Fold("AllowedIPs") == "allowedips" && Fold("Endpoint") == "endpoint"
    ensures Fold("PersistentKeepalive") == "persistentkeepalive"
  {
  }

  lemma FeedSetting(p: Peer, key: string, value: string)
    requires KeyOk(key) && OneLine(value)
    ensures FeedPeer(p, SettingLine(key, value)) == WithSetting(p, key, Strip(value))
  {
    SettingLineReads(key, value);
  }

  lemma FeedOptSetting(p: Peer, key: string, value: string)
    requires KeyOk(key) && OneLine(value)
    ensures BodyLines(OptSetting(key, value))
    ensures FeedPeerAll(p, OptSetting(key, value)) == if value != "" then WithSetting(p, key, Strip(value)) else p
  {
    if value != "" {
      SettingLineReads(key, value);
      assert FeedPeerAll(p, [SettingLine(key, value)]) == FeedPeer(p, SettingLine(key, value));
    }
  }

  lemma FeedOptMeta(p: Peer, meta: Meta, value: Option<string>)
    requires MetaOk(value)
    ensures BodyLines(OptMeta(TagOf(meta), value))
    ensures FeedPeerAll(p, OptMeta(TagOf(meta), value)) == if value.Some? then WithMeta(p, meta, value.value) else p
  {
    if value.Some? {
      MetaLineReads(meta, value.value);
      var line := MetaLine(TagOf(meta), value.value);
      assert FeedPeerAll(p, [line]) == FeedPeer(p, line);
    }
  }

  lemma FeedMetaLines(p: Peer, q: Peer)
    requires MetaOk(q.name) && MetaOk(q.created) && MetaOk(q.disabledAt)
    requires p.name.None? && p.created.None? && p.disabledAt.None?
    ensures BodyLines(MetaLines(q))
    ensures FeedPeerAll(p, MetaLines(q)) == p.(name := q.name, created := q.created, disabledAt := q.disabledAt)
  {
    var a, b, c := OptMeta("Client", q.name), OptMeta("Created", q.created), OptMeta("Disabled", q.disabledAt);
    FeedOptMeta(p, Client, q.name);
    var p1 := FeedPeerAll(p, a);
    FeedOptMeta(p1, Created, q.created);
    var p2 := FeedPeerAll(p1, b);
    FeedOptMeta(p2, Disabled, q.disabledAt);
    FeedPeerAllAppend(p, a, b);
    FeedPeerAllAppend(p, a + b, c);
  }

  lemma FeedKeptLine(p: Peer, line: string)
    requires KeptLine(line)
    ensures FeedPeer(p, line) == p.(extraComments := p.extraComments + [line])
  {
  }

  lemma KeptLinesBody(lines: seq<string>)
    requires forall i :: 0 <= i < |lines| ==> KeptLine(lines[i])
    ensures BodyLines(lines)
  {
    hide BodyLine;
  }

  lemma {:induction false} FeedKept(p: Peer, lines: seq<string>)
    requires forall i :: 0 <= i < |lines| ==> KeptLine(lines[i])
    ensures FeedPeerAll(p, lines) == p.(extraComments := p.extraComments + lines)
    decreases |lines|
  {
    hide FeedPeer, KeptLine;
    if lines == [] {
      assert p.extraComments + [] == p.extraComments;
    } else {
      assert KeptLine(lines[0]);
      FeedKeptLine(p, lines[0]);
      var p1 := FeedPeer(p, lines[0]);
      FeedKept(p1, lines[1..]);
      assert p.extraComments + [lines[0]] + lines[1..] == p.extraComments + lines;
    }
  }

  lemma FeedExtraLine(p: Peer, setting: (string, string))
    requires ExtraOk(setting)
    ensures BodyLine(SettingLine(setting.0, setting.1))
    ensures FeedPeer(p, SettingLine(setting.0, setting.1)) == p.(extra := p.extra + [setting])
  {
    var (key, value) := setting;
    SettingLineReads(key, value);
    StripTrimmed(value);
    hide FeedPeer;
    FeedSetting(p, key, value);
  }

  lemma {:induction false} FeedExtra(p: Peer, extra: seq<(string, string)>)
    requires forall i :: 0 <= i < |extra| ==> ExtraOk(extra[i])
    ensures BodyLines(ExtraLines(extra))
    ensures FeedPeerAll(p, ExtraLines(extra)) == p.(extra := p.extra + extra)
    decreases |extra|
  {
    hide FeedPeer, BodyLine, ExtraOk;
    var lines := ExtraLines(extra);
    if extra == [] {
      assert p.extra + [] == p.extra;
    } else {
      FeedExtraLine(p, extra[0]);
      var p1 := FeedPeer(p, lines[0]);
      assert lines[1..] == ExtraLines(extra[1..]);
      FeedExtra(p1, extra[1..]);
      assert p.extra + [extra[0]] + extra[1..] == p.extra + extra;
      forall i | 0 <= i < |lines| ensures BodyLine(lines[i]) {
        if i > 0 { assert lines[i] == lines[1..][i - 1]; }
      }
    }
  }

  lemma KeepaliveReads(p: Peer, n: int)
    ensures WithSetting(p, "PersistentKeepalive", ShowInt(n)) == p.(keepalive := Some(n))
  {
    IntRoundTrip(n);
    hide ParseInt, ShowInt;
    FoldedPeerKeys();
  }

  lemma FeedKeepalive(p: Peer, keepalive: Option<int>)
    requires p.keepalive.None?
    ensures BodyLines(KeepaliveLines(keepalive))
    ensures FeedPeerAll(p, KeepaliveLines(keepalive)) == p.(keepalive := keepalive)
  {
    hide FeedPeer, WithSetting, ShowInt, Strip, BodyLine, Setting, SettingLine;
    if keepalive.Some? {
      var value := ShowInt(keepalive.value);
      ShowIntPlain(keepalive.value);
      assert KeyOk("PersistentKeepalive");
      SettingLineReads("PersistentKeepalive", value);
      assert Strip(value) == value by { StripTrimmed(value); }
      FeedSetting(p, "PersistentKeepalive", value);
      KeepaliveReads(p, keepalive.value);
      var line := SettingLine("PersistentKeepalive", value);
      assert FeedPeerAll(p, [line]) == FeedPeer(p, line);
    }
  }

  lemma ShowIntPlain(n: int)
    ensures ValueOk(ShowInt(n)) && ShowInt(n) != ""
  {
    var digits := Show(if n < 0 then -n else n, 10);
    assert digits[0] in digits && digits[|digits| - 1] in digits;
  }

  lemma WithPeerKeys(p: Peer, value: string)
    ensures WithSetting(p, "PublicKey", value) == p.(publicKey := value)
    ensures WithSetting(p, "PresharedKey", value) == p.(presharedKey := Some(value))
    ensures WithSetting(p, "AllowedIPs", value) == p.(allowedIps := MergeAllowed(p.allowedIps, value))
    ensures WithSetting(p, "Endpoint", value) == p.(endpoint := Some(value))
  {
    FoldedPeerKeys();
  }

  lemma FeedField(p: Peer, key: string, value: string)
    requires KeyOk(key) && ValueOk(value)
    ensures BodyLines(OptSetting(key, value))
    ensures FeedPeerAll(p, OptSetting(key, value)) == if value != "" then WithSetting(p, key, value) else p
  {
    hide FeedPeerAll, BodyLine, WithSetting, Strip, OptSetting;
    FeedOptSetting(p, key, value);
    StripTrimmed(value);
  }

  lemma KernelKeysOk()
    ensures KeyOk("PublicKey") && KeyOk("PresharedKey") && KeyOk("AllowedIPs") && KeyOk("Endpoint")
  {
  }

  lemma FeedKeyLines(p: Peer, q: Peer)
    requires ValueOk(q.publicKey) && ValueOk(OrEmpty(q.presharedKey))
    requires p.publicKey == "" && p.presharedKey.None?
    ensures var lines := OptSetting("PublicKey", q.publicKey) + OptSetting("PresharedKey", OrEmpty(q.presharedKey));
            BodyLines(lines)
            && FeedPeerAll(p, lines) == p.(publicKey := q.publicKey, presharedKey := NonEmpty(q.presharedKey))
  {
    hide FeedPeerAll, BodyLine, WithSetting, OptSetting, ValueOk, KeyOk;
    KernelKeysOk();
    var a, b := OptSetting("PublicKey", q.publicKey), OptSetting("PresharedKey", OrEmpty(q.presharedKey));
    FeedField(p, "PublicKey", q.publicKey);
    WithPeerKeys(p, q.publicKey);
    var p1 := FeedPeerAll(p, a);
    FeedField(p1, "PresharedKey", OrEmpty(q.presharedKey));
    WithPeerKeys(p1, OrEmpty(q.presharedKey));
    FeedPeerAllAppend(p, a, b);
  }

  lemma FeedRouteLines(p: Peer, q: Peer)
    requires ValueOk(OrEmpty(q.endpoint)) && AllowedOk(q.allowedIps)
    requires p.allowedIps == "" && p.endpoint.None?
    ensures var lines := OptSetting("AllowedIPs", q.allowedIps) + OptSetting("Endpoint", OrEmpty(q.endpoint));
            BodyLines(lines)
            && FeedPeerAll(p, lines) == p.(allowedIps := Strip(q.allowedIps), endpoint := NonEmpty(q.endpoint))
  {
    assert Strip("") == "" by { StripTrimmed(""); }
    hide FeedPeerAll, BodyLine, WithSetting, OptSetting, ValueOk, KeyOk, Strip, OneLine;
    KernelKeysOk();
    var c, d := OptSetting("AllowedIPs", q.allowedIps), OptSetting("Endpoint", OrEmpty(q.endpoint));
    FeedOptSetting(p, "AllowedIPs", q.allowedIps);
    WithPeerKeys(p, Strip(q.allowedIps));
    var p1 := FeedPeerAll(p, c);
    FeedField(p1, "Endpoint", OrEmpty(q.endpoint));
    WithPeerKeys(p1, OrEmpty(q.endpoint));
    FeedPeerAllAppend(p, c, d);
  }

  lemma FeedKernelLines(p: Peer, q: Peer)
    requires ValueOk(q.publicKey) && ValueOk(OrEmpty(q.presharedKey)) && ValueOk(OrEmpty(q.endpoint))
    requires AllowedOk(q.allowedIps)
    requires p.publicKey == "" && p.presharedKey.None? && p.allowedIps == "" && p.endpoint.None? && p.keepalive.None?
    ensures BodyLines(KernelLines(q))
    ensures FeedPeerAll(p, KernelLines(q))
            == p.(publicKey := q.publicKey, presharedKey := NonEmpty(q.presharedKey), allowedIps := Strip(q.allowedIps),
                  endpoint := NonEmpty(q.endpoint), keepalive := q.keepalive)
  {
    hide FeedPeerAll, BodyLine, OptSetting, Strip, ValueOk, AllowedOk, KeepaliveLines;
    var a := OptSetting("PublicKey", q.publicKey) + OptSetting("PresharedKey", OrEmpty(q.presharedKey));
    var b := OptSetting("AllowedIPs", q.allowedIps) + OptSetting("Endpoint", OrEmpty(q.endpoint));
    var c := KeepaliveLines(q.keepalive);
    assert KernelLines(q) == a + b + c;
    FeedKeyLines(p, q);
    var p1 := FeedPeerAll(p, a);
    FeedRouteLines(p1, q);
    var p2 := FeedPeerAll(p1, b);
    FeedKeepalive(p2, q.keepalive);
    FeedPeerAllAppend(p, a, b);
    FeedPeerAllAppend(p, a + b, c);
  }

  /** The lines of one printed peer, below its header, read back as that peer. */
  lemma FeedPeerLines(q: Peer)
    requires PeerOk(q)
    ensures BodyLines(PeerLines(q)[1..])
    ensures FeedPeerAll(NewPeer(q.header), PeerLines(q)[1..]) == NormPeer(q)
  {
    hide FeedPeerAll, MetaLines, KernelLines;
    var a, b, c, d := MetaLines(q), q.extraComments, KernelLines(q), ExtraLines(q.extra);
    assert PeerLines(q)[1..] == a + b + c + d;
    var p := NewPeer(q.header);
    FeedMetaLines(p, q);
    var p1 := FeedPeerAll(p, a);
    FeedKept(p1, b);
    KeptLinesBody(b);
    var p2 := FeedPeerAll(p1, b);
    assert p2.extraComments == q.extraComments;
    FeedKernelLines(p2, q);
    var p3 := FeedPeerAll(p2, c);
    FeedExtra(p3, q.extra);
    assert [] + q.extra == q.extra;
    FeedPeerAllAppend(p, a, b);
    FeedPeerAllAppend(p, a + b, c);
    FeedPeerAllAppend(p, a + b + c, d);
  }

  // ------------------------------------------------------------------ the whole file

  lemma {:induction false} FeedItems(s: Parser, items: seq<Item>)
    requires s.Valid() && s.seen && !s.inPeer
    requires forall i :: 0 <= i < |items| ==> ItemOk(items[i])
    ensures FeedAll(s, ItemLines(items))
            == s.(conf := s.conf.(interface := s.conf.interface + NormItems(items)))
    decreases |items|
  {
    var lines := ItemLines(items);
    if items == [] {
      assert s.conf.interface + NormItems(items) == s.conf.interface;
    } else {
      assert ItemOk(items[0]);
      var s1 := Feed(s, lines[0]);
      assert s1 == s.(conf := AddItem(s.conf, NormItem(items[0])));
      hide Feed, ItemOk, ItemLine, NormItem;
      FeedItems(s1, items[1..]);
      assert lines[1..] == ItemLines(items[1..]);
      assert s.conf.interface + [NormItem(items[0])] + NormItems(items[1..]) == s.conf.interface + NormItems(items);
    }
  }

  lemma PeerHeaderLine(q: Peer)
    requires PeerOk(q)
    ensures PeerLines(q)[0] == q.header && PeerHeaderOk(q.header)
  {
    assert q.header != "" by {
      assert HeaderName("").None?;
    }
  }

  lemma FeedPeerHeaderLine(s: Parser, header: string)
    requires s.Valid() && PeerHeaderOk(header)
    ensures Feed(s, header) == Parser(s.conf.(peers := s.conf.peers + [NewPeer(header)]), true, s.seen)
  {
  }

  lemma FeedOnePeer(s: Parser, q: Peer)
    requires s.Valid() && PeerOk(q)
    ensures FeedAll(s, PeerLines(q)) == Parser(s.conf.(peers := s.conf.peers + [NormPeer(q)]), true, s.seen)
  {
    hide Feed, PeerOk, FeedPeerAll, NormPeer, PeerLines, PeerHeaderOk, BodyLine;
    var lines := PeerLines(q);
    PeerHeaderLine(q);
    FeedPeerHeaderLine(s, q.header);
    FeedPeerLines(q);
    var s1 := Feed(s, q.header);
    FeedIntoPeer(s1, lines[1..]);
    var last := |s.conf.peers|;
    assert s1.conf.peers[last := NormPeer(q)] == s.conf.peers + [NormPeer(q)];
  }

  lemma FeedBlank(s: Parser)
    requires s.Valid()
    ensures FeedAll(s, [""]) == if s.inPeer then s else s.(conf := AddItem(s.conf, Blank("")))
  {
    assert BodyLine("");
    if s.inPeer {
      FeedIntoPeer(s, [""]);
      var last := |s.conf.peers| - 1;
      assert FeedPeerAll(s.conf.peers[last], [""]) == s.conf.peers[last];
      assert s.conf.peers[last := s.conf.peers[last]] == s.conf.peers;
    } else {
      assert FeedAll(s, [""]) == Feed(s, "");
    }
  }

  lemma FeedSeparate(s: Parser, lines: seq<string>)
    requires s.Valid() && lines != [] && FeedAll(s, lines).inPeer
    ensures FeedAll(s, Separate(lines)) == FeedAll(s, lines)
  {
    FeedAllAppend(s, lines, [""]);
    FeedBlank(FeedAll(s, lines));
  }

  lemma {:induction false} FeedPeers(lines: seq<string>, peers: seq<Peer>)
    requires lines != [] && FeedAll(START, lines).inPeer
    requires forall i :: 0 <= i < |peers| ==> PeerOk(peers[i])
    ensures var s := FeedAll(START, lines);
            FeedAll(START, AppendPeers(lines, peers)) == s.(conf := s.conf.(peers := s.conf.peers + NormPeers(peers)))
    decreases |peers|
  {
    hide FeedAll, PeerOk, NormPeer, PeerLines, Separate;
    var s := FeedAll(START, lines);
    if peers == [] {
      assert s.conf.peers + NormPeers(peers) == s.conf.peers;
    } else {
      FeedSeparate(START, lines);
      FeedAllAppend(START, Separate(lines), PeerLines(peers[0]));
      FeedOnePeer(s, peers[0]);
      FeedPeers(Separate(lines) + PeerLines(peers[0]), peers[1..]);
      assert s.conf.peers + [NormPeer(peers[0])] + NormPeers(peers[1..]) == s.conf.peers + NormPeers(peers);
    }
  }

  lemma FeedInterface(c: Conf)
    requires ConfOk(c)
    ensures FeedAll(START, InterfaceLines(c)) == Parser(Conf(NormItems(c.interface), [], c.header), false, true)
  {
    assert c.header != "" by {
      assert HeaderName("").None?;
    }
    var s := Feed(START, c.header);
    assert s == Parser(Conf([], [], c.header), false, true) by {
      assert "peer" != "interface";
    }
    assert InterfaceLines(c)[0] == c.header && InterfaceLines(c)[1..] == ItemLines(c.interface);
    hide Feed, ItemOk;
    FeedItems(s, c.interface);
    assert [] + NormItems(c.interface) == NormItems(c.interface);
  }

  lemma FeedPadding(c: Conf)
    requires ConfOk(c) && c.peers != []
    ensures FeedAll(START, Separate(InterfaceLines(c)))
            == Parser(Conf(NormItems(c.interface) + Padding(c), [], c.header), false, true)
  {
    hide FeedAll, ConfOk, NormItems, InterfaceLines;
    var lines := InterfaceLines(c);
    FeedInterface(c);
    FeedAllAppend(START, lines, [""]);
    FeedBlank(FeedAll(START, lines));
    assert NormItems(c.interface) + [] == NormItems(c.interface);
  }

  /** Lines read back: what the printer lays out, the parser turns into the normal form. */
  lemma LinesReadBack(c: Conf)
    requires ConfOk(c)
    ensures ParseLines(RenderLines(c)) == Norm(c)
  {
    hide FeedAll, PeerOk, ItemOk, NormPeer, PeerLines, Padding, InterfaceLines, Separate, InterfaceHeaderOk;
    if c.peers == [] {
      FeedInterface(c);
      assert NormItems(c.interface) + Padding(c) == NormItems(c.interface) by { PaddingNone(c); }
    } else {
      var spaced := Separate(InterfaceLines(c));
      FeedPadding(c);
      var s := FeedAll(START, spaced);
      FeedAllAppend(START, spaced, PeerLines(c.peers[0]));
      FeedOnePeer(s, c.peers[0]);
      FeedPeers(spaced + PeerLines(c.peers[0]), c.peers[1..]);
      assert [] + [NormPeer(c.peers[0])] + NormPeers(c.peers[1..]) == NormPeers(c.peers);
    }
  }

  lemma PaddingNone(c: Conf)
    requires c.peers == []
    ensures Padding(c) == [] && NormPeers(c.peers) == []
  {
  }

  lemma PeerLinesNoBreaks(p: Peer)
    requires PeerOk(p)
    ensures NoBreaks(PeerLines(p))
  {
    hide FeedPeerAll;
    FeedPeerLines(p);
    var lines := PeerLines(p);
    forall l | l in lines ensures '\n' !in l {
      if l != lines[0] { assert l in lines[1..]; }
    }
  }

  lemma {:induction false} AppendPeersNoBreaks(lines: seq<string>, peers: seq<Peer>)
    requires NoBreaks(lines) && forall i :: 0 <= i < |peers| ==> PeerOk(peers[i])
    ensures NoBreaks(AppendPeers(lines, peers))
    decreases |peers|
  {
    hide PeerOk, PeerLines;
    if peers != [] {
      PeerLinesNoBreaks(peers[0]);
      AppendPeersNoBreaks(Separate(lines) + PeerLines(peers[0]), peers[1..]);
    }
  }

  lemma RenderNoBreaks(c: Conf)
    requires ConfOk(c)
    ensures RenderLines(c) != [] && NoBreaks(RenderLines(c))
  {
    hide PeerOk, AppendPeers;
    AppendPeersNoBreaks(InterfaceLines(c), c.peers);
    AppendPeersGrows(InterfaceLines(c), c.peers);
  }

  /** Printing a config and parsing the text gives the config back, in normal form: every peer
      field, every setting in order, every comment and raw line. */
  lemma RoundTrip(c: Conf)
    requires ConfOk(c)
    ensures Parse(Render(c)) == Norm(c)
  {
    hide ConfOk, Norm, RenderLines, JoinLines, Unlines, SplitLines, ParseLines;
    RenderNoBreaks(c);
    JoinIsUnlines(RenderLines(c));
    LinesRoundTrip(RenderLines(c));
    LinesReadBack(c);
  }
}
