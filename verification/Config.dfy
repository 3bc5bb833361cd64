/** The server config as values: what one parse of <iface>.conf holds, how the parser consumes a
    line and how the printer lays the whole thing out again. */
module Config {
  import opened Text

  /** One line of the [Interface] section. A setting keeps its source line until its value changes. */
  datatype Item =
    | Kv(key: string, value: string, text: Option<string>)
    | Blank(line: string)
    | Comment(line: string)
    | Raw(line: string)

  datatype Peer = Peer(
    publicKey: string,
    presharedKey: Option<string>,
    allowedIps: string,
    endpoint: Option<string>,
    keepalive: Option<int>,
    name: Option<string>,
    created: Option<string>,
    disabledAt: Option<string>,
    extra: seq<(string, string)>,
    extraComments: seq<string>,
    header: string)

  datatype Conf = Conf(interface: seq<Item>, peers: seq<Peer>, header: string)

  const INTERFACE_HEADER := "[Interface]"
  const PEER_HEADER := "[Peer]"

  function NewPeer(header: string): Peer {
    Peer("", None, "", None, None, None, None, None, [], [], header)
  }

  // ------------------------------------------------------------------ one line

  /** The part of a line before its first '#'. */
  function Uncommented(line: string): string {
    line[..IndexOf(line, '#')]
  }

  /** Where a section name ends: the first ']' or '#'. */
  function NameEnd(body: string): (i: nat)
    ensures i <= |body|
    ensures i < |body| ==> body[i] == ']' || body[i] == '#'
    ensures forall j :: 0 <= j < i ==> body[j] != ']' && body[j] != '#'
  {
    if body == "" || body[0] == ']' || body[0] == '#' then 0 else 1 + NameEnd(body[1..])
  }

  /** The name inside a section header, or None for a line that is not one. A header may carry a
      trailing comment, and nothing else after its bracket. */
  function HeaderName(line: string): Option<string> {
    var s := Lstrip(line);
    if s == "" || s[0] != '[' then None
    else
      var body := s[1..];
      var i := NameEnd(body);
      if i == |body| || body[i] == '#' then None
      else
        var rest := Lstrip(body[i + 1..]);
        if rest == "" || rest[0] == '#' then Some(body[..i]) else None
  }

  /** Whether a line closes the section above it although it names nothing. */
  predicate OpensSection(line: string) {
    var s := Lstrip(Uncommented(line));
    s != "" && s[0] == '['
  }

  predicate IsHeader(line: string, name: string) {
    HeaderName(line).Some? && Fold(Strip(HeaderName(line).value)) == name
  }

  /** line.rstrip("\r\n") */
  function RstripBreaks(line: string): (r: string)
    ensures |r| <= |line| && r == line[..|r|]
    ensures r == "" || (r[|r| - 1] != '\r' && r[|r| - 1] != '\n')
  {
    if line == "" || (line[|line| - 1] != '\r' && line[|line| - 1] != '\n') then line
    else RstripBreaks(line[..|line| - 1])
  }

  /** What a line says as a setting: its key and value, or None when it has neither. */
  function Setting(line: string): Option<(string, string)> {
    var u := Uncommented(line);
    var i := IndexOf(u, '=');
    if i == |u| || Strip(u[..i]) == "" then None else Some((Strip(u[..i]), Strip(u[i + 1..])))
  }

  predicate IsComment(line: string) {
    Strip(line) != "" && Strip(line)[0] == '#'
  }

  function InterfaceItem(line: string): Item {
    if Strip(line) == "" then Blank(line)
    else if IsComment(line) then Comment(line)
    else match Setting(line)
      case None => Raw(line)
      case Some((key, value)) => Kv(key, value, Some(line))
  }

  datatype Meta = Client | Created | Disabled

  /** The value after a "# <tag> =" marker, or None when the line is not that marker. */
  function TagValue(line: string, tag: string): Option<string> {
    var s := Lstrip(line);
    if s == "" || s[0] != '#' then None
    else
      var rest := Lstrip(s[1..]);
      if !(tag <= rest) then None
      else
        var tail := Lstrip(rest[|tag|..]);
        if tail == "" || tail[0] != '=' then None else Some(Strip(tail[1..]))
  }

  function MetaOf(line: string): Option<(Meta, string)> {
    match TagValue(line, "Client")
    case Some(v) => Some((Client, v))
    case None =>
      match TagValue(line, "Created")
      case Some(v) => Some((Created, v))
      case None =>
        match TagValue(line, "Disabled")
        case Some(v) => Some((Disabled, v))
        case None => None
  }

  function WithMeta(p: Peer, meta: Meta, value: string): Peer {
    match meta
    case Client => p.(name := Some(value))
    case Created => p.(created := Some(value))
    case Disabled => p.(disabledAt := Some(value))
  }

  /** A second AllowedIPs line adds to the first. */
  function MergeAllowed(allowed: string, value: string): string {
    if allowed != "" then allowed + ", " + value else value
  }

  function WithSetting(p: Peer, key: string, value: string): Peer {
    var folded := Fold(key);
    if folded == "persistentkeepalive" then
      match ParseInt(value)
      case Some(n) => p.(keepalive := Some(n))
      case None => p.(extra := p.extra + [(key, value)])
    else if folded == "allowedips" then p.(allowedIps := MergeAllowed(p.allowedIps, value))
    else if folded == "publickey" then p.(publicKey := value)
    else if folded == "presharedkey" then p.(presharedKey := Some(value))
    else if folded == "endpoint" then p.(endpoint := Some(value))
    else p.(extra := p.extra + [(key, value)])
  }

  function FeedPeer(p: Peer, line: string): Peer {
    if Strip(line) == "" then p
    else if IsComment(line) then
      match MetaOf(line)
      case Some((meta, value)) => WithMeta(p, meta, value)
      case None => p.(extraComments := p.extraComments + [line])
    else match Setting(line)
      case None => p.(extraComments := p.extraComments + [line])
      case Some((key, value)) => WithSetting(p, key, value)
  }

  // ------------------------------------------------------------------ int()

  predicate Grouped(s: string) {
    && s != "" && s[0] != '_' && s[|s| - 1] != '_'
    && (forall i :: 0 <= i < |s| ==> s[i] == '_' || DigitVal(s[i]) < 10)
    && (forall i :: 0 <= i < |s| - 1 ==> s[i] == '_' ==> s[i + 1] != '_')
  }

  function DropGroups(s: string): (r: string)
    requires forall i :: 0 <= i < |s| ==> s[i] == '_' || DigitVal(s[i]) < 10
    ensures AllDigits(r, 10)
  {
    if s == "" then ""
    else if s[0] == '_' then DropGroups(s[1..])
    else [s[0]] + DropGroups(s[1..])
  }

  /** int(s) for an already stripped s: an optional sign, digits, single underscores between them. */
  function ParseInt(s: string): Option<int> {
    if s == "" then None
    else
      var body := if s[0] == '-' || s[0] == '+' then s[1..] else s;
      if !Grouped(body) then None
      else
        var n: int := ValueOf(DropGroups(body), 10);
        Some(if s[0] == '-' then -n else n)
  }

  lemma {:induction false} DropGroupsDigits(s: string)
    requires AllDigits(s, 10)
    ensures DropGroups(s) == s
  {
    if s != "" {
      assert s[0] != '_';
      DropGroupsDigits(s[1..]);
    }
  }

  lemma DigitsAreGrouped(s: string)
    requires s != "" && AllDigits(s, 10)
    ensures Grouped(s) && DropGroups(s) == s && s[0] != '-' && s[0] != '+'
  {
    DropGroupsDigits(s);
    assert forall i :: 0 <= i < |s| ==> s[i] != '_';
  }

  lemma ParseDigits(s: string)
    requires s != "" && AllDigits(s, 10)
    ensures ParseInt(s) == Some(ValueOf(s, 10))
    ensures ParseInt("-" + s).Some? && ParseInt("-" + s).value + ValueOf(s, 10) == 0
  {
    DigitsAreGrouped(s);
    assert ("-" + s)[1..] == s;
  }

  lemma IntRoundTrip(n: int)
    ensures ParseInt(ShowInt(n)) == Some(n)
  {
    ParseDigits(Show(if n < 0 then -n else n, 10));
  }

  // ------------------------------------------------------------------ the parser

  /** Where the parser stands: what it has built, whether it is inside a peer, and whether the
      [Interface] header has been seen. */
  datatype Parser = Parser(conf: Conf, inPeer: bool, seen: bool) {
    predicate Valid() {
      inPeer ==> conf.peers != []
    }
  }

  const START: Parser := Parser(Conf([], [], INTERFACE_HEADER), false, false)

  function AddItem(c: Conf, item: Item): Conf {
    c.(interface := c.interface + [item])
  }

  function Feed(s: Parser, line: string): (r: Parser)
    requires s.Valid()
    ensures r.Valid()
  {
    if IsHeader(line, "peer") then
      Parser(s.conf.(peers := s.conf.peers + [NewPeer(RstripBreaks(line))]), true, s.seen)
    else if IsHeader(line, "interface") && !s.seen then
      Parser(s.conf.(header := RstripBreaks(line)), false, true)
    else if HeaderName(line).Some? || OpensSection(line) then
      Parser(AddItem(s.conf, Raw(line)), false, s.seen)
    else if s.inPeer then
      var last := |s.conf.peers| - 1;
      s.(conf := s.conf.(peers := s.conf.peers[last := FeedPeer(s.conf.peers[last], line)]))
    else
      s.(conf := AddItem(s.conf, InterfaceItem(line)))
  }

  function FeedAll(s: Parser, lines: seq<string>): (r: Parser)
    requires s.Valid()
    ensures r.Valid()
    decreases |lines|
  {
    if lines == [] then s else FeedAll(Feed(s, lines[0]), lines[1..])
  }

  function ParseLines(lines: seq<string>): Conf {
    FeedAll(START, lines).conf
  }

  function Parse(text: string): Conf {
    ParseLines(SplitLines(text))
  }

  lemma {:induction false} FeedAllAppend(s: Parser, a: seq<string>, b: seq<string>)
    requires s.Valid()
    ensures FeedAll(s, a + b) == FeedAll(FeedAll(s, a), b)
    decreases |a|
  {
    if a == [] {
      assert a + b == b;
    } else {
      assert (a + b)[0] == a[0] && (a + b)[1..] == a[1..] + b;
      FeedAllAppend(Feed(s, a[0]), a[1..], b);
    }
  }

  // ------------------------------------------------------------------ the printer

  function SettingLine(key: string, value: string): string {
    key + " = " + value
  }

  function ItemLine(item: Item): string {
    match item
    case Kv(key, value, text) => (if text.Some? then text.value else SettingLine(key, value))
    case Blank(line) => line
    case Comment(line) => line
    case Raw(line) => line
  }

  function ItemLines(items: seq<Item>): (lines: seq<string>)
    ensures |lines| == |items|
    ensures forall i :: 0 <= i < |items| ==> lines[i] == ItemLine(items[i])
  {
    seq(|items|, i requires 0 <= i < |items| => ItemLine(items[i]))
  }

  function MetaLine(tag: string, value: string): string {
    "# " + tag + " = " + value
  }

  function OptMeta(tag: string, value: Option<string>): seq<string> {
    if value.Some? then [MetaLine(tag, value.value)] else []
  }

  /** A field is printed only when it says something. */
  function OptSetting(key: string, value: string): seq<string> {
    if value != "" then [SettingLine(key, value)] else []
  }

  function OrEmpty(value: Option<string>): string {
    if value.Some? then value.value else ""
  }

  function ExtraLines(extra: seq<(string, string)>): (lines: seq<string>)
    ensures |lines| == |extra|
  {
    seq(|extra|, i requires 0 <= i < |extra| => SettingLine(extra[i].0, extra[i].1))
  }

  function KeepaliveLines(keepalive: Option<int>): seq<string> {
    if keepalive.Some? then [SettingLine("PersistentKeepalive", ShowInt(keepalive.value))] else []
  }

  function MetaLines(p: Peer): seq<string> {
    OptMeta("Client", p.name) + OptMeta("Created", p.created) + OptMeta("Disabled", p.disabledAt)
  }

  /** The settings the kernel reads, in the order both printers write them. */
  function KernelLines(p: Peer): seq<string> {
    OptSetting("PublicKey", p.publicKey) + OptSetting("PresharedKey", OrEmpty(p.presharedKey))
    + OptSetting("AllowedIPs", p.allowedIps) + OptSetting("Endpoint", OrEmpty(p.endpoint))
    + KeepaliveLines(p.keepalive)
  }

  function PeerLines(p: Peer): (lines: seq<string>)
    ensures lines != []
  {
    [if p.header != "" then p.header else PEER_HEADER]
    + (MetaLines(p) + p.extraComments + KernelLines(p) + ExtraLines(p.extra))
  }

  /** Exactly one blank line before each [Peer], unless one is already there. */
  function Separate(lines: seq<string>): seq<string> {
    if lines != [] && Strip(lines[|lines| - 1]) != "" then lines + [""] else lines
  }

  function AppendPeers(lines: seq<string>, peers: seq<Peer>): seq<string>
    decreases |peers|
  {
    if peers == [] then lines else AppendPeers(Separate(lines) + PeerLines(peers[0]), peers[1..])
  }

  function InterfaceLines(c: Conf): (lines: seq<string>)
    ensures lines != []
  {
    [if c.header != "" then c.header else INTERFACE_HEADER] + ItemLines(c.interface)
  }

  function RenderLines(c: Conf): (lines: seq<string>) {
    AppendPeers(InterfaceLines(c), c.peers)
  }

  lemma {:induction false} AppendPeersGrows(lines: seq<string>, peers: seq<Peer>)
    ensures |lines| <= |AppendPeers(lines, peers)|
    decreases |peers|
  {
    if peers != [] {
      AppendPeersGrows(Separate(lines) + PeerLines(peers[0]), peers[1..]);
    }
  }

  function Render(c: Conf): string {
    JoinLines(RenderLines(c)) + "\n"
  }

  // ------------------------------------------------------------------ what the kernel is given

  /** Keys awg-quick consumes itself and `awg setconf` rejects. */
  const STRIP_DROP: set<string> :=
    {"address", "dns", "mtu", "table", "preup", "postup", "predown", "postdown", "saveconfig"}

  function SettingsOf(items: seq<Item>): seq<(string, string)> {
    if items == [] then []
    else (if items[0].Kv? then [(items[0].key, items[0].value)] else []) + SettingsOf(items[1..])
  }

  function StrippedSettings(settings: seq<(string, string)>): seq<string> {
    if settings == [] then []
    else
      (if Fold(settings[0].0) in STRIP_DROP then [] else [SettingLine(settings[0].0, settings[0].1)])
      + StrippedSettings(settings[1..])
  }

  /** A peer reaches the kernel when it has a key and carries no "# Disabled" marker. */
  predicate Enabled(p: Peer) {
    p.publicKey != "" && p.disabledAt.None?
  }

  function KernelBlock(p: Peer): seq<string> {
    [PEER_HEADER] + KernelLines(p)
  }

  function StrippedPeers(peers: seq<Peer>, excluded: set<string>): seq<string> {
    if peers == [] then []
    else
      (if Enabled(peers[0]) && peers[0].publicKey !in excluded then KernelBlock(peers[0]) else [])
      + StrippedPeers(peers[1..], excluded)
  }

  function StripLines(c: Conf, excluded: set<string>): (lines: seq<string>)
    ensures lines != []
  {
    [INTERFACE_HEADER] + StrippedSettings(SettingsOf(c.interface)) + StrippedPeers(c.peers, excluded)
  }

  function StripConf(c: Conf, excluded: set<string>): string {
    JoinLines(StripLines(c, excluded)) + "\n"
  }
}
