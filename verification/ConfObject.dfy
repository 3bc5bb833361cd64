/** The server config as the objects the store edits: parsing builds them, cloning separates them. */
module ConfObject {
  import opened Text
  import opened Config
  import opened Section
  import opened SectionObject
  import opened Hooks

  class PeerEntry {
    var publicKey: string
    var presharedKey: Option<string>
    var allowedIps: string
    var endpoint: Option<string>
    var keepalive: Option<int>
    var name: Option<string>
    var created: Option<string>
    var disabledAt: Option<string>
    var extra: seq<(string, string)>
    var extraComments: seq<string>
    var header: string

    constructor (header: string)
      ensures View() == NewPeer(header)
    {
      publicKey, presharedKey, allowedIps, endpoint, keepalive := "", None, "", None, None;
      name, created, disabledAt, extra, extraComments := None, None, None, [], [];
      this.header := header;
    }

    function View(): Peer
      reads this
    {
      Peer(publicKey, presharedKey, allowedIps, endpoint, keepalive, name, created, disabledAt, extra, extraComments, header)
    }

    /** One line below a [Peer] header, read into the peer's fields. */
    method Feed(line: string)
      modifies this
      ensures View() == FeedPeer(old(View()), line)
    {
      if Strip(line) == "" {
        return;
      }
      if IsComment(line) {
        match MetaOf(line) {
          case Some((Client, value)) => name := Some(value);
          case Some((Created, value)) => created := Some(value);
          case Some((Disabled, value)) => disabledAt := Some(value);
          case None => extraComments := extraComments + [line];
        }
        return;
      }
      match Setting(line) {
        case None => extraComments := extraComments + [line];
        case Some((key, value)) => Put(key, value);
      }
    }

    method Put(key: string, value: string)
      modifies this
      ensures View() == WithSetting(old(View()), key, value)
    {
      hide ParseInt, MergeAllowed;
      var folded := Fold(key);
      if folded == "persistentkeepalive" {
        match ParseInt(value)
        case Some(n) => keepalive := Some(n);
        case None => extra := extra + [(key, value)];
      } else if folded == "allowedips" {
        allowedIps := MergeAllowed(allowedIps, value);
      } else if folded == "publickey" {
        publicKey := value;
      } else if folded == "presharedkey" {
        presharedKey := Some(value);
      } else if folded == "endpoint" {
        endpoint := Some(value);
      } else {
        extra := extra + [(key, value)];
      }
    }

    method Copy() returns (clone: PeerEntry)
      ensures fresh(clone) && clone.View() == View()
    {
      clone := new PeerEntry(header);
      clone.publicKey, clone.presharedKey, clone.allowedIps := publicKey, presharedKey, allowedIps;
      clone.endpoint, clone.keepalive, clone.name := endpoint, keepalive, name;
      clone.created, clone.disabledAt := created, disabledAt;
      clone.extra, clone.extraComments := extra, extraComments;
    }
  }

  class ServerConf {
    var interface: OrderedMulti
    var peers: seq<PeerEntry>
    var header: string

    ghost predicate Valid()
      reads this, interface
    {
      interface.Valid() && forall i, j :: 0 <= i < j < |peers| ==> peers[i] != peers[j]
    }

    ghost function Repr(): set<object>
      reads this, interface
    {
      {this} + interface.Repr() + set p: object | p in peers
    }

    ghost function PeerViews(): (v: seq<Peer>)
      reads this, peers
      ensures |v| == |peers|
    {
      seq(|peers|, i requires 0 <= i < |peers| reads this, peers => peers[i].View())
    }

    ghost function View(): Conf
      reads this, interface, interface.items, peers
    {
      Conf(interface.View(), PeerViews(), header)
    }

    constructor ()
      ensures Valid() && fresh(Repr()) && View() == START.conf
    {
      interface := new OrderedMulti();
      peers := [];
      header := INTERFACE_HEADER;
    }

    method AddPeer(line: string) returns (peer: PeerEntry)
      requires Valid()
      modifies this
      ensures Valid() && fresh(peer) && peers == old(peers) + [peer] && interface == old(interface)
      ensures View() == old(View()).(peers := old(View()).peers + [NewPeer(RstripBreaks(line))])
    {
      peer := new PeerEntry(RstripBreaks(line));
      peers := peers + [peer];
    }

    /** A line of the section: a blank, a comment, a setting, or something kept verbatim. */
    method FeedInterface(line: string)
      requires Valid()
      modifies interface
      ensures Valid() && fresh(interface.Repr() - old(interface.Repr()))
      ensures View() == AddItem(old(View()), InterfaceItem(line))
    {
      if Strip(line) == "" {
        interface.Add(BlankKind, "", "", Some(line));
      } else if IsComment(line) {
        interface.Add(CommentKind, "", "", Some(line));
      } else {
        match Setting(line)
        case None => interface.Add(RawKind, "", "", Some(line));
        case Some((key, value)) => interface.Add(KvKind, key, value, Some(line));
      }
    }

    method FeedRaw(line: string)
      requires Valid()
      modifies interface
      ensures Valid() && fresh(interface.Repr() - old(interface.Repr()))
      ensures View() == AddItem(old(View()), Raw(line))
    {
      interface.Add(RawKind, "", "", Some(line));
    }

    method FeedLastPeer(line: string)
      requires Valid() && peers != []
      modifies peers[|peers| - 1]
      ensures Valid()
      ensures var last := |peers| - 1;
              View() == old(View()).(peers := old(View()).peers[last := FeedPeer(old(View()).peers[last], line)])
    {
      hide FeedPeer;
      var last := |peers| - 1;
      peers[last].Feed(line);
    }
  }

  /** One step of the parser's loop, over the config built so far. */
  method FeedLine(conf: ServerConf, line: string, inPeer: bool, seen: bool) returns (inPeer': bool, seen': bool)
    requires conf.Valid() && (inPeer ==> conf.peers != [])
    modifies conf.Repr()
    ensures conf.Valid() && fresh(conf.Repr() - old(conf.Repr())) && (inPeer' ==> conf.peers != [])
    ensures Parser(conf.View(), inPeer', seen') == Feed(Parser(old(conf.View()), inPeer, seen), line)
  {
    hide InterfaceItem, FeedPeer, HeaderName, OpensSection, RstripBreaks;
    inPeer', seen' := inPeer, seen;
    if IsHeader(line, "peer") {
      var peer := conf.AddPeer(line);
      inPeer' := true;
    } else if IsHeader(line, "interface") && !seen {
      seen', inPeer' := true, false;
      conf.header := RstripBreaks(line);
    } else if HeaderName(line).Some? || OpensSection(line) {
      inPeer' := false;
      conf.FeedRaw(line);
    } else if inPeer {
      conf.FeedLastPeer(line);
    } else {
      conf.FeedInterface(line);
    }
  }

  /** Parse a server config, keeping unknown keys, comments and order. */
  method ParseConf(text: string) returns (conf: ServerConf)
    ensures fresh(conf.Repr()) && conf.Valid()
    ensures conf.View() == Parse(text)
  {
    hide Feed;
    conf := new ServerConf();
    var inPeer, seen := false, false;
    var lines := SplitLines(text);
    for i := 0 to |lines|
      invariant conf.Valid() && fresh(conf.Repr())
      invariant inPeer ==> conf.peers != []
      invariant FeedAll(START, lines) == FeedAll(Parser(conf.View(), inPeer, seen), lines[i..])
    {
      assert lines[i..][0] == lines[i] && lines[i..][1..] == lines[i + 1..];
      inPeer, seen := FeedLine(conf, lines[i], inPeer, seen);
    }
  }

  method ClonePeers(peers: seq<PeerEntry>) returns (clones: seq<PeerEntry>)
    ensures |clones| == |peers| && forall k :: 0 <= k < |peers| ==> fresh(clones[k]) && clones[k].View() == peers[k].View()
    ensures forall k, l :: 0 <= k < l < |clones| ==> clones[k] != clones[l]
  {
    clones := [];
    for i := 0 to |peers|
      modifies {}
      invariant |clones| == i && forall k :: 0 <= k < i ==> fresh(clones[k]) && clones[k].View() == peers[k].View()
      invariant forall k, l :: 0 <= k < l < i ==> clones[k] != clones[l]
    {
      var peer := peers[i].Copy();
      clones := clones + [peer];
    }
  }

  /** An independent copy: no object of it is an object of the original. */
  method CloneConf(conf: ServerConf) returns (clone: ServerConf)
    requires conf.Valid()
    ensures fresh(clone.Repr()) && clone.Valid()
    ensures clone.View() == conf.View()
  {
    clone := new ServerConf();
    clone.header := conf.header;
    clone.interface := conf.interface.Copy();
    clone.peers := ClonePeers(conf.peers);
    assert clone.PeerViews() == conf.PeerViews();
  }

  /** The section's own lines, one per item. */
  method SectionLines(section: OrderedMulti) returns (lines: seq<string>)
    requires section.Valid()
    ensures lines == ItemLines(section.View())
  {
    lines := [];
    for i := 0 to |section.items|
      invariant lines == ItemLines(section.View())[..i]
    {
      var item := section.items[i];
      if item.kind == KvKind && item.text.None? {
        lines := lines + [SettingLine(item.key, item.value)];
      } else {
        lines := lines + [OrEmpty(item.text)];
      }
    }
  }

  /** Render the config in the layout the installer writes. */
  method RenderConf(conf: ServerConf) returns (text: string)
    requires conf.Valid()
    ensures text == Render(conf.View())
  {
    hide PeerLines, Separate, ItemLines, JoinLines;
    var lines := [if conf.header != "" then conf.header else INTERFACE_HEADER];
    var body := SectionLines(conf.interface);
    lines := lines + body;
    ghost var views := conf.PeerViews();
    for i := 0 to |conf.peers|
      invariant AppendPeers(lines, views[i..]) == RenderLines(conf.View())
    {
      assert views[i..][0] == conf.peers[i].View() && views[i..][1..] == views[i + 1..];
      lines := Separate(lines) + PeerLines(conf.peers[i].View());
    }
    text := JoinLines(lines) + "\n";
  }

  method RetargetLines(lines: seq<string>, markers: seq<string>) returns (others: seq<string>)
    ensures others == Others(lines, markers)
  {
    hide RetargetHook, Marked;
    others := [];
    for i := 0 to |lines|
      invariant Others(lines, markers) == others + Others(lines[i..], markers)
    {
      var line := RetargetHook(lines[i]);
      ghost var head := if Marked(line, markers) then [] else [line];
      assert others + (head + Others(lines[i + 1..], markers)) == others + head + Others(lines[i + 1..], markers);
      assert lines[i..][0] == lines[i] && lines[i..][1..] == lines[i + 1..];
      if !Marked(line, markers) {
        others := others + [line];
      }
    }
  }

  method EnsureSlotLines(section: OrderedMulti, slot: string, markers: seq<string>, ours: seq<string>, first: bool)
    requires section.Valid()
    modifies section, section.items
    ensures section.Valid() && fresh(section.Repr() - old(section.Repr()))
    ensures section.View() == EnsureSlot(old(section.View()), slot, markers, ours, first)
  {
    hide SetAll, All, Others;
    var lines := section.Values(slot);
    var others := RetargetLines(lines, markers);
    section.SetValues(slot, if first then ours + others else others + ours);
  }

  /** Keep the tunnel's own hooks in the config, whatever else is being written. */
  method EnsureConfHooks(conf: ServerConf)
    requires conf.Valid()
    modifies conf.interface, conf.interface.items
    ensures conf.Valid() && fresh(conf.Repr() - old(conf.Repr()))
    ensures conf.View() == old(conf.View()).(interface := EnsureHooks(old(conf.View()).interface))
  {
    hide EnsureSlot;
    EnsureSlotLines(conf.interface, PRE_DOWN, [PREDOWN_MARKER], [PREDOWN_HOOK], false);
    EnsureSlotLines(conf.interface, POST_UP, [POSTUP_MARKER, SHAPE_MARKER], [POSTUP_HOOK, SHAPE_HOOK], true);
    EnsureSlotLines(conf.interface, POST_DOWN, [SHAPE_MARKER], [UNSHAPE_HOOK], false);
  }
}
