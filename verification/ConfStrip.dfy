/** What `awg syncconf` is handed: the stripped config says exactly the enabled peers. */
module ConfStrip {
  import opened Text
  import opened Config
  import opened ConfRoundTrip
  import opened ConfNormalForm

  /** The part of a peer the kernel holds, as it reads it. */
  function KernelPeer(p: Peer): Peer {
    NewPeer(PEER_HEADER).(
      publicKey := p.publicKey, presharedKey := NonEmpty(p.presharedKey), allowedIps := Strip(p.allowedIps),
      endpoint := NonEmpty(p.endpoint), keepalive := p.keepalive)
  }

  function KernelPeers(peers: seq<Peer>, excluded: set<string>): seq<Peer> {
    if peers == [] then []
    else
      (if Enabled(peers[0]) && peers[0].publicKey !in excluded then [KernelPeer(peers[0])] else [])
      + KernelPeers(peers[1..], excluded)
  }

  /** A setting awg-quick acts on itself: `awg setconf` knows none of these nine. */
  predicate QuickOnly(key: string) {
    var k := Fold(key);
    || k == "address" || k == "dns" || k == "mtu" || k == "table" || k == "saveconfig"
    || k == "preup" || k == "postup" || k == "predown" || k == "postdown"
  }

  function KeptSettings(settings: seq<(string, string)>): seq<(string, string)> {
    if settings == [] then []
    else (if QuickOnly(settings[0].0) then [] else [settings[0]]) + KeptSettings(settings[1..])
  }

  lemma DroppedAreQuick(key: string)
    ensures Fold(key) in STRIP_DROP <==> QuickOnly(key)
  {
    hide Fold;
  }

  function SettingItem(setting: (string, string)): Item {
    Kv(setting.0, setting.1, Some(SettingLine(setting.0, setting.1)))
  }

  function SettingItems(settings: seq<(string, string)>): (items: seq<Item>)
    ensures |items| == |settings|
  {
    seq(|settings|, i requires 0 <= i < |settings| => SettingItem(settings[i]))
  }

  predicate SettingsOk(settings: seq<(string, string)>) {
    forall i :: 0 <= i < |settings| ==> KeyOk(settings[i].0) && ValueOk(settings[i].1)
  }

  lemma KvOk(item: Item)
    requires item.Kv? && ItemOk(item)
    ensures KeyOk(item.key) && ValueOk(item.value)
  {
    var line := ItemLine(item);
    assert BodyLine(line) && Setting(line) == Some((item.key, item.value));
    SettingOk(line);
  }

  lemma {:induction false} SettingsOfOk(items: seq<Item>)
    requires forall i :: 0 <= i < |items| ==> ItemOk(items[i])
    ensures SettingsOk(SettingsOf(items))
  {
    hide ItemOk, KeyOk, ValueOk;
    if items != [] {
      if items[0].Kv? { KvOk(items[0]); }
      SettingsOfOk(items[1..]);
    }
  }

  lemma FeedSettingItem(s: Parser, setting: (string, string))
    requires s.Valid() && !s.inPeer && KeyOk(setting.0) && ValueOk(setting.1)
    ensures Feed(s, SettingLine(setting.0, setting.1)) == s.(conf := AddItem(s.conf, SettingItem(setting)))
    ensures '\n' !in SettingLine(setting.0, setting.1)
  {
    SettingLineReads(setting.0, setting.1);
    StripTrimmed(setting.1);
  }

  lemma {:induction false} FeedSettings(s: Parser, settings: seq<(string, string)>)
    requires s.Valid() && !s.inPeer && SettingsOk(settings)
    ensures NoBreaks(StrippedSettings(settings))
    ensures FeedAll(s, StrippedSettings(settings))
            == s.(conf := s.conf.(interface := s.conf.interface + SettingItems(KeptSettings(settings))))
    decreases |settings|
  {
    hide Feed, KeyOk, ValueOk, SettingLine, SettingItem, QuickOnly, KeptSettings, StrippedSettings;
    SettingsStep(settings);
    if settings == [] {
      assert s.conf.interface + SettingItems(KeptSettings(settings)) == s.conf.interface;
      assert FeedAll(s, StrippedSettings(settings)) == s;
    } else if QuickOnly(settings[0].0) {
      FeedSettings(s, settings[1..]);
      assert StrippedSettings(settings) == StrippedSettings(settings[1..]);
      assert KeptSettings(settings) == KeptSettings(settings[1..]);
    } else {
      FeedSettingItem(s, settings[0]);
      var line := SettingLine(settings[0].0, settings[0].1);
      var s1 := Feed(s, line);
      FeedSettings(s1, settings[1..]);
      assert StrippedSettings(settings)[0] == line && StrippedSettings(settings)[1..] == StrippedSettings(settings[1..]);
      assert s.conf.interface + [SettingItem(settings[0])] + SettingItems(KeptSettings(settings[1..]))
          == s.conf.interface + SettingItems(KeptSettings(settings));
    }
  }

  /** The printer's list of keys is the one the kernel's reader needs dropped. */
  lemma SettingsStep(settings: seq<(string, string)>)
    ensures settings == [] ==> StrippedSettings(settings) == [] && KeptSettings(settings) == []
    ensures settings != [] ==>
              var quick := QuickOnly(settings[0].0);
              && StrippedSettings(settings)
                 == (if quick then [] else [SettingLine(settings[0].0, settings[0].1)]) + StrippedSettings(settings[1..])
              && KeptSettings(settings) == (if quick then [] else [settings[0]]) + KeptSettings(settings[1..])
  {
    hide QuickOnly, SettingLine, Fold;
    if settings != [] {
      DroppedAreQuick(settings[0].0);
      var line := SettingLine(settings[0].0, settings[0].1);
      if Fold(settings[0].0) in STRIP_DROP {
        assert StrippedSettings(settings) == [] + StrippedSettings(settings[1..]);
      } else {
        assert StrippedSettings(settings) == [line] + StrippedSettings(settings[1..]);
      }
    }
  }

  lemma KernelFieldsOk(p: Peer)
    requires PeerOk(p)
    ensures ValueOk(p.publicKey) && ValueOk(OrEmpty(p.presharedKey)) && ValueOk(OrEmpty(p.endpoint)) && AllowedOk(p.allowedIps)
  {
  }

  lemma FeedPeerHeader(s: Parser)
    requires s.Valid()
    ensures Feed(s, PEER_HEADER) == Parser(s.conf.(peers := s.conf.peers + [NewPeer(PEER_HEADER)]), true, s.seen)
  {
    PlainHeaders();
    hide HeaderName, RstripBreaks, Strip, OpensSection;
  }

  lemma KernelBlockReads(p: Peer)
    requires PeerOk(p)
    ensures KernelBlock(p) != [] && KernelBlock(p)[0] == PEER_HEADER && BodyLines(KernelBlock(p)[1..]) && NoBreaks(KernelBlock(p))
    ensures FeedPeerAll(NewPeer(PEER_HEADER), KernelBlock(p)[1..]) == KernelPeer(p)
  {
    KernelFieldsOk(p);
    hide FeedPeerAll, KernelLines, BodyLine, ValueOk, AllowedOk, PeerOk, Strip;
    FeedKernelLines(NewPeer(PEER_HEADER), p);
    assert KernelBlock(p)[1..] == KernelLines(p);
    BodyLinesPlain(KernelLines(p));
    assert '\n' !in PEER_HEADER;
  }

  lemma FeedKernelPeer(s: Parser, p: Peer)
    requires s.Valid() && PeerOk(p)
    ensures FeedAll(s, KernelBlock(p)) == Parser(s.conf.(peers := s.conf.peers + [KernelPeer(p)]), true, s.seen)
  {
    hide Feed, FeedPeerAll, KernelBlock, BodyLine, PeerOk, KernelPeer;
    KernelBlockReads(p);
    FeedPeerHeader(s);
    var s1 := Feed(s, PEER_HEADER);
    FeedIntoPeer(s1, KernelBlock(p)[1..]);
    var last := |s.conf.peers|;
    assert s1.conf.peers[last := KernelPeer(p)] == s.conf.peers + [KernelPeer(p)];
  }

  lemma {:induction false} StrippedPeersNoBreaks(peers: seq<Peer>, excluded: set<string>)
    requires forall i :: 0 <= i < |peers| ==> PeerOk(peers[i])
    ensures NoBreaks(StrippedPeers(peers, excluded))
  {
    hide PeerOk, KernelBlock, Enabled;
    if peers != [] {
      KernelBlockReads(peers[0]);
      StrippedPeersNoBreaks(peers[1..], excluded);
    }
  }

  lemma {:induction false} FeedKernelPeers(s: Parser, peers: seq<Peer>, excluded: set<string>)
    requires s.Valid() && forall i :: 0 <= i < |peers| ==> PeerOk(peers[i])
    ensures FeedAll(s, StrippedPeers(peers, excluded)).conf
            == s.conf.(peers := s.conf.peers + KernelPeers(peers, excluded))
    decreases |peers|
  {
    hide FeedAll, PeerOk, KernelBlock, KernelPeer, Enabled;
    if peers == [] {
      assert s.conf.peers + [] == s.conf.peers;
      FeedNothing(s);
    } else {
      var mine := if Enabled(peers[0]) && peers[0].publicKey !in excluded then KernelBlock(peers[0]) else [];
      var own := if Enabled(peers[0]) && peers[0].publicKey !in excluded then [KernelPeer(peers[0])] else [];
      FeedKernelPeer(s, peers[0]);
      FeedNothing(s);
      var s1 := FeedAll(s, mine);
      FeedAllAppend(s, mine, StrippedPeers(peers[1..], excluded));
      assert s.conf.peers + [] == s.conf.peers;
      assert s1.conf == s.conf.(peers := s.conf.peers + own);
      FeedKernelPeers(s1, peers[1..], excluded);
      assert s.conf.peers + own + KernelPeers(peers[1..], excluded) == s.conf.peers + KernelPeers(peers, excluded);
    }
  }

  lemma FeedNothing(s: Parser)
    requires s.Valid()
    ensures FeedAll(s, []) == s
  {
  }

  lemma FeedStripHeader()
    ensures FeedAll(START, [INTERFACE_HEADER]) == Parser(Conf([], [], INTERFACE_HEADER), false, true)
  {
    PlainHeaders();
    hide HeaderName, RstripBreaks, Strip;
    assert [INTERFACE_HEADER][1..] == [];
  }

  /** What the kernel's parser finds in the stripped text: every setting awg-quick does not consume,
      and exactly the peers that have a key, no "# Disabled" marker and are not excluded. */
  lemma StripReadsBack(c: Conf, excluded: set<string>)
    requires ConfOk(c)
    ensures Parse(StripConf(c, excluded))
            == Conf(SettingItems(KeptSettings(SettingsOf(c.interface))), KernelPeers(c.peers, excluded), INTERFACE_HEADER)
  {
    var a, b := StrippedSettings(SettingsOf(c.interface)), StrippedPeers(c.peers, excluded);
    assert forall i :: 0 <= i < |c.peers| ==> PeerOk(c.peers[i]);
    SettingsOfOk(c.interface);
    hide FeedAll, ConfOk, PeerOk, SettingsOf, SettingsOk, SettingItems, KeptSettings, KernelPeers;
    hide SplitLines, JoinLines, Unlines, StrippedPeers, StrippedSettings;
    FeedStripped(c.interface, c.peers, excluded);
    var lines := StripLines(c, excluded);
    assert lines == [INTERFACE_HEADER] + a + b;
    JoinIsUnlines(lines);
    LinesRoundTrip(lines);
  }

  lemma FeedStripped(items: seq<Item>, peers: seq<Peer>, excluded: set<string>)
    requires SettingsOk(SettingsOf(items)) && forall i :: 0 <= i < |peers| ==> PeerOk(peers[i])
    ensures var lines := [INTERFACE_HEADER] + StrippedSettings(SettingsOf(items)) + StrippedPeers(peers, excluded);
            NoBreaks(lines)
            && FeedAll(START, lines).conf
               == Conf(SettingItems(KeptSettings(SettingsOf(items))), KernelPeers(peers, excluded), INTERFACE_HEADER)
  {
    hide FeedAll, PeerOk, SettingsOf, SettingsOk, StrippedPeers, StrippedSettings, SettingItems, KeptSettings, KernelPeers;
    var settings := SettingsOf(items);
    var a, b := StrippedSettings(settings), StrippedPeers(peers, excluded);
    FeedStripHeader();
    var s0 := FeedAll(START, [INTERFACE_HEADER]);
    FeedSettings(s0, settings);
    FeedAllAppend(START, [INTERFACE_HEADER], a);
    var s1 := FeedAll(s0, a);
    FeedAllAppend(START, [INTERFACE_HEADER] + a, b);
    FeedKernelPeers(s1, peers, excluded);
    StrippedPeersNoBreaks(peers, excluded);
    assert [] + SettingItems(KeptSettings(settings)) == SettingItems(KeptSettings(settings));
    assert [] + KernelPeers(peers, excluded) == KernelPeers(peers, excluded);
    assert '\n' !in INTERFACE_HEADER;
  }
}
