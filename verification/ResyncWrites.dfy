/** What resync_all writes: the IPv6 entries it gives to peers, and the client files line by line. */
module ResyncWrites {
  import opened Text
  import C = Config
  import opened Params
  import opened ClientConf
  import opened Subnet
  import opened Resync
  import opened ResyncIdempotent
  import K = Clients
  import E = ConfEntries
  import W = ClientWrites
  import S6 = Subnet6

  // ------------------------------------------------------------------ the values of an emitted file

  lemma {:induction false} NobodySets(values: Values, params: seq<Param>, key: string)
    requires forall p :: p in params ==> KeyName(p) != key
    ensures RowValue(ParamRows(values, params), key) == None
  {
    hide KeyName, IsSet, Get;
    if params == [] {
      NoRows(key);
    } else {
      var q := params[0];
      var head := if IsSet(q, Get(values, q)) then [Sets(KeyName(q), Get(values, q))] else [];
      NobodySets(values, params[1..], key);
      RowValueJoin(head, ParamRows(values, params[1..]), key);
      assert head != [] ==> head[1..] == [];
    }
  }

  lemma BackKeysFree(values: Values)
    ensures RowValue(ParamRows(values, AWG_PARAMS), "PublicKey") == None
    ensures RowValue(ParamRows(values, AWG_PARAMS), "Endpoint") == None
    ensures RowValue(ParamRows(values, AWG_PARAMS), "PersistentKeepalive") == None
  {
    hide KeyName, RowValue, ParamRows;
    forall p | p in AWG_PARAMS
      ensures KeyName(p) != "PublicKey" && KeyName(p) != "Endpoint" && KeyName(p) != "PersistentKeepalive"
    {
      NotMirrored(p);
      BackShapes(p);
    }
    NobodySets(values, AWG_PARAMS, "PublicKey");
    NobodySets(values, AWG_PARAMS, "Endpoint");
    NobodySets(values, AWG_PARAMS, "PersistentKeepalive");
  }

  lemma OtherNamesDiffer()
    ensures "MTU" != "PrivateKey" && "MTU" != "Address" && "MTU" != "DNS" && "Address" != "PrivateKey"
    ensures "PublicKey" != "PrivateKey" && "PublicKey" != "Address" && "PublicKey" != "DNS" && "PublicKey" != "MTU"
    ensures "Endpoint" != "PrivateKey" && "Endpoint" != "Address" && "Endpoint" != "DNS" && "Endpoint" != "MTU"
    ensures "PersistentKeepalive" != "PrivateKey" && "PersistentKeepalive" != "Address" && "PersistentKeepalive" != "DNS"
    ensures "PersistentKeepalive" != "MTU" && "Endpoint" != "PublicKey" && "Endpoint" != "PresharedKey"
    ensures "PersistentKeepalive" != "PublicKey" && "PersistentKeepalive" != "PresharedKey"
    ensures "PersistentKeepalive" != "Endpoint" && "PersistentKeepalive" != "AllowedIPs"
  {
    assert |"PublicKey"| == 9 && |"Endpoint"| == 8 && |"PersistentKeepalive"| == 19 && |"PrivateKey"| == 10;
    assert |"Address"| == 7 && |"DNS"| == 3 && |"MTU"| == 3 && |"PresharedKey"| == 12 && |"AllowedIPs"| == 10;
    assert "MTU"[0] != "DNS"[0];
  }

  /** The five values the server alone decides. */
  lemma ServersValues(s: Server, private: string, address: string, dns: string, allowed: string, preshared: string)
    requires ServerOk(s) && OneLine(private) && OneLine(address) && OneLine(dns) && OneLine(allowed) && OneLine(preshared)
    ensures var text := EmitClient(s, private, address, dns, allowed, preshared);
            && Value(text, "Address") == ReadsAs(address) && Value(text, "MTU") == ReadsAs(s.mtu)
            && Value(text, "PublicKey") == ReadsAs(s.publicKey) && Value(text, "Endpoint") == ReadsAs(s.endpoint)
            && Value(text, "PersistentKeepalive") == ReadsAs(s.keepalive)
  {
    hide RowValue, ParamRows, FrontRows, BackRows, Value, RowTexts, ReadsAs, GoodRows, Clean;
    var front, middle, back := FrontRows(s, private, address, dns), ParamRows(s.params, AWG_PARAMS), BackRows(s, preshared, allowed);
    ClientIsGood(s, private, address, dns, allowed, preshared);
    BackKeysFree(s.params);
    OtherNamesDiffer();
    ServersValue(s, private, address, dns, allowed, preshared, "Address");
    ServersValue(s, private, address, dns, allowed, preshared, "MTU");
    ServersValue(s, private, address, dns, allowed, preshared, "PublicKey");
    ServersValue(s, private, address, dns, allowed, preshared, "Endpoint");
    ServersValue(s, private, address, dns, allowed, preshared, "PersistentKeepalive");
  }

  lemma ServersValue(s: Server, private: string, address: string, dns: string, allowed: string, preshared: string, key: string)
    requires GoodRows(ClientRows(s, private, address, dns, allowed, preshared))
    ensures var middle := RowValue(ParamRows(s.params, AWG_PARAMS), key);
            Value(EmitClient(s, private, address, dns, allowed, preshared), key)
            == if key == "PrivateKey" then ReadsAs(private) else if key == "Address" then ReadsAs(address)
               else if key == "DNS" then ReadsAs(dns) else if key == "MTU" then ReadsAs(s.mtu)
               else if middle.Some? then ReadsAs(middle.value)
               else if key == "PublicKey" then ReadsAs(s.publicKey) else if key == "PresharedKey" then ReadsAs(preshared)
               else if key == "Endpoint" then ReadsAs(s.endpoint) else if key == "AllowedIPs" then ReadsAs(allowed)
               else if key == "PersistentKeepalive" then ReadsAs(s.keepalive) else ""
  {
    hide RowValue, ParamRows, FrontRows, BackRows, Value, RowTexts, ReadsAs, GoodRows;
    FrontValue(s, private, address, dns, key);
    BackValue(s, preshared, allowed, key);
    Joined(FrontRows(s, private, address, dns), ParamRows(s.params, AWG_PARAMS), BackRows(s, preshared, allowed), key);
    FileReads(ClientRows(s, private, address, dns, allowed, preshared), key);
  }

  // ------------------------------------------------------------------ one client's file

  /** The file holds both of the client's keys, and the private one is the peer's. */
  predicate Matching(pubkey: string -> Option<string>, p: C.Peer, text: string) {
    && Value(text, "PrivateKey") != "" && Value(text, "PresharedKey") != ""
    && pubkey(Value(text, "PrivateKey")) == Some(p.publicKey)
  }

  /** The DNS of the request if it names one, then the file's own, then the server's. */
  function DnsMeant(s: Server, ask: Ask, text: string): string {
    if ask.dns != "" then ask.dns else if Value(text, "DNS") != "" then Value(text, "DNS") else s.dns
  }

  /** A list that routes the whole of IPv4 and nothing of IPv6. */
  predicate FullTunnel(whole: seq<string> -> bool, list: string) {
    && E.Entries(list) != [] && whole(E.Entries(list)) && forall i :: 0 <= i < |E.Entries(list)| ==> ':' !in E.Entries(list)[i]
  }

  /** The file's own list or else the server's; the tunnel's old network is its new one; and a full tunnel takes
      IPv6 in where the server has it. */
  function AllowedMeant(s: Server, whole: seq<string> -> bool, ask: Ask, text: string): string {
    var own := if Value(text, "AllowedIPs") != "" then Value(text, "AllowedIPs") else s.allowed;
    var list := if ask.move.Some? && Strip(own) == ask.move.value.0 then ask.move.value.1 else own;
    if s.net6.Some? && FullTunnel(whole, list) then Strip(list) + ", ::/0" else list
  }

  lemma MeantIs(s: Server, whole: seq<string> -> bool, ask: Ask, text: string)
    ensures DnsFor(s, ask, text) == DnsMeant(s, ask, text) && AllowedFor(s, whole, ask, text) == AllowedMeant(s, whole, ask, text)
  {
    hide Value, E.Entries, Strip;
    var own := Or(Value(text, "AllowedIPs"), s.allowed);
    TunnelIs(whole, Moved(ask, own));
  }

  lemma TunnelIs(whole: seq<string> -> bool, list: string)
    ensures NeedsV6(whole, list) <==> FullTunnel(whole, list)
  {
    hide E.Entries;
    if !AnyV6(E.Entries(list)) {
      assert forall i :: 0 <= i < |E.Entries(list)| ==> E.Entries(list)[i] in E.Entries(list);
    }
  }

  /** A file whose keys are not the peer's is left as it is. Any other says afterwards what the client's file
      said of its keys, the server's own identity and settings, its address in the tunnel, and the DNS and
      routes that are meant; it is refused exactly when one of those two holds a carriage return. */
  lemma FileSays(s: Server, pubkey: string -> Option<string>, whole: seq<string> -> bool, ask: Ask, p: C.Peer, text: string)
    requires ServerOk(s) && MoveOk(ask) && OneLine(p.allowedIps)
    ensures var done := TextAfter(s, pubkey, whole, ask, p, text);
            var dns, allowed := DnsMeant(s, ask, text), AllowedMeant(s, whole, ask, text);
            if !Matching(pubkey, p, text) then done == Some(text)
            else if '\r' in dns || '\r' in allowed then done.None?
            else
              && done.Some?
              && Value(done.value, "PrivateKey") == Value(text, "PrivateKey")
              && Value(done.value, "PresharedKey") == Value(text, "PresharedKey")
              && Value(done.value, "Address") == ReadsAs(InterfaceAddress(s, PeerIp(p.allowedIps)))
              && Value(done.value, "DNS") == dns && Value(done.value, "AllowedIPs") == allowed
              && Value(done.value, "MTU") == ReadsAs(s.mtu) && Value(done.value, "PublicKey") == ReadsAs(s.publicKey)
              && Value(done.value, "Endpoint") == ReadsAs(s.endpoint)
              && Value(done.value, "PersistentKeepalive") == ReadsAs(s.keepalive)
  {
    hide EmitClient, Value, WithV6, Clean, ReadsAs, InterfaceAddress, PeerIp, DnsMeant, AllowedMeant, DnsFor, AllowedFor, ServerOk, OneLine;
    MeantIs(s, whole, ask, text);
    if Matching(pubkey, p, text) {
      var dns, allowed := DnsFor(s, ask, text), AllowedFor(s, whole, ask, text);
      var private, preshared := Value(text, "PrivateKey"), Value(text, "PresharedKey");
      ValuesAreClean(s, ask, text);
      CleanNext(s, whole, ask, text);
      LinesFrom(dns, allowed, private, preshared);
      NetOk(s);
      AddressIsOneLine(s, p.allowedIps);
      var address := InterfaceAddress(s, PeerIp(p.allowedIps));
      NoFeed(dns);
      NoFeed(allowed);
      EmittedValues(s, private, address, dns, allowed, preshared);
      ServersValues(s, private, address, dns, allowed, preshared);
    }
  }

  lemma NetOk(s: Server)
    requires ServerOk(s)
    ensures s.net.Valid()
  {
  }

  lemma NoFeed(value: string)
    requires OneLine(value)
    ensures Breaks(value) <==> '\r' in value
  {
  }

  lemma AddressText(s: Server, a: nat)
    requires s.net.Valid() && s.net.base + 2 <= a <= s.net.base + Size(s.net.prefix) - 2
    ensures InterfaceAddress(s, ShowV4(a)) == W.Routed(s.net, s.net6, a)
  {
    AddedWithIp6(s, a);
    hide ShowV4, S6.HostAddr, Ip6Of;
    if s.net6.Some? {
      SameText(ShowV4(a), S6.HostAddr(s.net6.value, a - s.net.base));
    } else {
      PlainText(ShowV4(a));
    }
  }

  /** The address written for a client of the pool is the one the server routes to it. */
  lemma AddressIsRouted(s: Server, a: nat)
    requires s.net.Valid() && s.net.base + 2 <= a <= s.net.base + Size(s.net.prefix) - 2
    ensures InterfaceAddress(s, ShowV4(a)) == W.Routed(s.net, s.net6, a)
    ensures ReadsAs(InterfaceAddress(s, ShowV4(a))) == W.Routed(s.net, s.net6, a)
  {
    hide *;
    AddressText(s, a);
    RoutedPlain(s, a);
    CleanReads(W.Routed(s.net, s.net6, a));
  }

  lemma SameText(a4: string, a6: string)
    ensures a4 + "/32, " + a6 + "/128" == a4 + "/" + "32" + ", " + a6 + "/" + "128"
  {
  }

  lemma PlainText(a4: string)
    ensures a4 + "/32" == a4 + "/" + "32"
  {
  }

  lemma RoutedPlain(s: Server, a: nat)
    requires s.net.Valid() && s.net.base + 2 <= a <= s.net.base + Size(s.net.prefix) - 2
    ensures Clean(W.Routed(s.net, s.net6, a))
  {
    W.RoutedIs(s.net, s.net6, a);
    V4Plain(a);
    hide ShowV4, S6.HostAddr, Trimmed;
    match s.net6 {
      case None =>
      case Some(p) => K.HostAddrChars(p, a - s.net.base);
    }
  }

  // ------------------------------------------------------------------ all the files

  /** After a resync that goes through, each named peer's file is what its turn made of it, every other file is
      as it was, and none was added or removed. */
  lemma {:induction false} LoopWrites(s: Server, pubkey: string -> Option<string>, whole: seq<string> -> bool, ask: Ask,
                                      peers: seq<C.Peer>, files: Files, written: nat)
    requires s.net.Valid() && OwnFiles(peers) && Loop(s, pubkey, whole, ask, peers, files, written).Some?
    ensures var after := Loop(s, pubkey, whole, ask, peers, files, written).value.0;
            && after.Keys == files.Keys
            && (forall i :: 0 <= i < |peers| && Takes(peers[i], files) ==>
                  TextAfter(s, pubkey, whole, ask, peers[i], files[peers[i].name.value]) == Some(after[peers[i].name.value]))
            && (forall name :: name in files && Elsewhere(peers, name) ==> after[name] == files[name])
    decreases |peers|
  {
    hide TextAfter;
    if peers != [] {
      assert forall i :: 0 <= i < |peers[1..]| ==> peers[1..][i] == peers[i + 1];
      assert OwnFiles(peers[1..]);
      LoopFrame(s, pubkey, whole, ask, peers, files, written, "");
      forall name | name in files && Elsewhere(peers, name)
        ensures Loop(s, pubkey, whole, ask, peers, files, written).value.0[name] == files[name]
      {
        LoopFrame(s, pubkey, whole, ask, peers, files, written, name);
      }
      forall i | 0 <= i < |peers| && Takes(peers[i], files)
        ensures TextAfter(s, pubkey, whole, ask, peers[i], files[peers[i].name.value])
                == Some(Loop(s, pubkey, whole, ask, peers, files, written).value.0[peers[i].name.value])
      {
        OneTurn(s, pubkey, whole, ask, peers, files, written, i);
      }
    }
  }

  lemma {:induction false} OneTurn(s: Server, pubkey: string -> Option<string>, whole: seq<string> -> bool, ask: Ask,
                                   peers: seq<C.Peer>, files: Files, written: nat, i: nat)
    requires s.net.Valid() && OwnFiles(peers) && Loop(s, pubkey, whole, ask, peers, files, written).Some?
    requires i < |peers| && Takes(peers[i], files)
    ensures peers[i].name.value in Loop(s, pubkey, whole, ask, peers, files, written).value.0
    ensures TextAfter(s, pubkey, whole, ask, peers[i], files[peers[i].name.value])
            == Some(Loop(s, pubkey, whole, ask, peers, files, written).value.0[peers[i].name.value])
    decreases |peers|
  {
    hide TextAfter;
    var rest := peers[1..];
    assert forall j :: 0 <= j < |rest| ==> rest[j] == peers[j + 1];
    assert OwnFiles(rest);
    if !Takes(peers[0], files) {
      OneTurn(s, pubkey, whole, ask, rest, files, written, i - 1);
    } else {
      var own := peers[0].name.value;
      var text := TextAfter(s, pubkey, whole, ask, peers[0], files[own]).value;
      var next, more := files[own := text], if text == files[own] then written else written + 1;
      if i == 0 {
        assert Elsewhere(rest, own);
        LoopFrame(s, pubkey, whole, ask, rest, next, more, own);
      } else {
        assert peers[i].name != peers[0].name;
        OneTurn(s, pubkey, whole, ask, rest, next, more, i - 1);
      }
    }
  }

  /** An override that would break a line is refused before any file is written, and otherwise a resync is
      refused exactly when some client's own turn is. */
  lemma RefusedExactly(s: Server, pubkey: string -> Option<string>, whole: seq<string> -> bool, ask: Ask, peers: seq<C.Peer>,
                       files: Files)
    requires s.net.Valid() && OwnFiles(peers)
    ensures var given := Backfill(s, peers);
            ResyncFiles(s, pubkey, whole, ask, peers, files).None?
            <==> '\n' in ask.dns || '\r' in ask.dns
                 || exists i :: 0 <= i < |peers| && Takes(given[i], files)
                                && TextAfter(s, pubkey, whole, ask, given[i], files[given[i].name.value]).None?
  {
    hide TextAfter, Loop, Takes, OwnFiles, BackfillOne;
    BackfilledNames(s, peers);
    LoopRefused(s, pubkey, whole, ask, Backfill(s, peers), files, 0);
  }

  lemma BackfilledNames(s: Server, peers: seq<C.Peer>)
    requires s.net.Valid() && OwnFiles(peers)
    ensures OwnFiles(Backfill(s, peers))
  {
    forall i | 0 <= i < |peers| ensures Backfill(s, peers)[i].name == peers[i].name && Backfill(s, peers)[i].publicKey == peers[i].publicKey {
      hide Ip6Of, PeerIp;
    }
    hide BackfillOne;
  }

  lemma {:induction false} LoopRefused(s: Server, pubkey: string -> Option<string>, whole: seq<string> -> bool, ask: Ask,
                                       peers: seq<C.Peer>, files: Files, written: nat)
    requires s.net.Valid() && OwnFiles(peers)
    ensures Loop(s, pubkey, whole, ask, peers, files, written).None?
            <==> exists i :: 0 <= i < |peers| && Takes(peers[i], files)
                             && TextAfter(s, pubkey, whole, ask, peers[i], files[peers[i].name.value]).None?
    decreases |peers|
  {
    hide TextAfter;
    if peers != [] {
      var rest := peers[1..];
      assert forall j :: 0 <= j < |rest| ==> rest[j] == peers[j + 1];
      assert OwnFiles(rest);
      if !Takes(peers[0], files) {
        LoopRefused(s, pubkey, whole, ask, rest, files, written);
      } else {
        var own := peers[0].name.value;
        var turn := TextAfter(s, pubkey, whole, ask, peers[0], files[own]);
        if turn.Some? {
          var next := files[own := turn.value];
          LoopRefused(s, pubkey, whole, ask, rest, next, if turn.value == files[own] then written else written + 1);
          forall j | 1 <= j < |peers|
            ensures Takes(peers[j], next) == Takes(peers[j], files)
                    && (Takes(peers[j], files) ==> next[peers[j].name.value] == files[peers[j].name.value])
          {
            assert Named(peers[0]);
            assert Takes(peers[j], files) ==> Named(peers[j]) && peers[j].name != peers[0].name;
          }
          Shifted(s, pubkey, whole, ask, peers, files, next);
        }
      }
    }
  }

  lemma Shifted(s: Server, pubkey: string -> Option<string>, whole: seq<string> -> bool, ask: Ask, peers: seq<C.Peer>,
                files: Files, next: Files)
    requires s.net.Valid() && peers != []
    requires Takes(peers[0], files) && TextAfter(s, pubkey, whole, ask, peers[0], files[peers[0].name.value]).Some?
    requires forall j :: 1 <= j < |peers| ==>
               Takes(peers[j], next) == Takes(peers[j], files)
               && (Takes(peers[j], files) ==> next[peers[j].name.value] == files[peers[j].name.value])
    ensures (exists i :: 0 <= i < |peers| && Takes(peers[i], files)
                         && TextAfter(s, pubkey, whole, ask, peers[i], files[peers[i].name.value]).None?)
            <==> exists i :: 0 <= i < |peers[1..]| && Takes(peers[1..][i], next)
                             && TextAfter(s, pubkey, whole, ask, peers[1..][i], next[peers[1..][i].name.value]).None?
  {
    hide TextAfter;
    var rest := peers[1..];
    assert forall j :: 0 <= j < |rest| ==> rest[j] == peers[j + 1];
    if i :| 0 <= i < |peers| && Takes(peers[i], files)
            && TextAfter(s, pubkey, whole, ask, peers[i], files[peers[i].name.value]).None? {
      assert rest[i - 1] == peers[i];
    }
  }

  // ------------------------------------------------------------------ peers without IPv6

  /** A client of the pool with no IPv6 entry is given what a client added on its address is given; every other
      peer is left alone. */
  lemma BackfillSays(s: Server, p: C.Peer)
    requires s.net.Valid()
    ensures s.net6.None? || ':' in p.allowedIps ==> BackfillOne(s, p) == p
    ensures forall a: nat :: s.net.base + 2 <= a <= s.net.base + Size(s.net.prefix) - 2
                             && s.net6.Some? && ':' !in p.allowedIps && PeerIp(p.allowedIps) == ShowV4(a)
              ==> BackfillOne(s, p) == p.(allowedIps := W.Routed(s.net, s.net6, a))
  {
    hide PeerIp, ShowV4, ParseV4, S6.HostAddr, W.Routed, Strip;
    forall a: nat | s.net.base + 2 <= a <= s.net.base + Size(s.net.prefix) - 2
                    && s.net6.Some? && ':' !in p.allowedIps && PeerIp(p.allowedIps) == ShowV4(a)
      ensures BackfillOne(s, p) == p.(allowedIps := W.Routed(s.net, s.net6, a))
    {
      AddressIsRouted(s, a);
      AddedWithIp6(s, a);
    }
  }

  /** A peer is found by its first IPv4 entry, whatever follows it: further routes it had are not among those it
      is given. */
  lemma FurtherRoutesGo(s: Server, p: C.Peer, a: nat, more: string)
    requires s.net.Valid() && s.net.base + 2 <= a <= s.net.base + Size(s.net.prefix) - 2 && s.net6.Some?
    requires p.allowedIps == ShowV4(a) + "/32, " + more && ':' !in more
    ensures BackfillOne(s, p) == p.(allowedIps := W.Routed(s.net, s.net6, a))
  {
    V4Plain(a);
    hide ShowV4, PeerIp, BackfillOne, W.Routed;
    FirstEntry(a, more);
    assert ':' !in p.allowedIps;
    BackfillSays(s, p);
  }

  lemma FirstEntry(a: nat, more: string)
    requires a < Subnet.TWO32
    ensures PeerIp(ShowV4(a) + "/32, " + more) == ShowV4(a)
  {
    V4Plain(a);
    var text := ShowV4(a);
    assert ',' !in text && '/' !in text && ':' !in text && !IsSpace(text[0]) by {
      assert text[0] in text;
    }
    hide ShowV4, IsSpace, SplitOn, IndexOf, Strip;
    var first := text + ['/'] + "32";
    assert text + "/32, " + more == first + [','] + (" " + more);
    SplitOnStep(first, ',', " " + more);
    assert Trimmed(first) by { LastDigit(first); }
    StripTrimmed(first);
    PartitionAt(first, text, '/', "32");
    assert ':' !in first;
    FirstOf(first, SplitOn(" " + more, ','));
  }

  lemma LastDigit(s: string)
    requires |s| > 0 && !IsSpace(s[0]) && s[|s| - 1] == '2'
    ensures Trimmed(s)
  {
  }

  lemma FirstOf(first: string, rest: seq<string>)
    requires Strip(first) == first && first != "" && ':' !in first
    ensures FirstV4([first] + rest) == first[..IndexOf(first, '/')]
  {
  }

  /** The first entry that says something and is no IPv6 one decides, whatever stands in front of it. */
  lemma {:induction false} FirstV4Says(entries: seq<string>, i: nat)
    requires i < |entries| && Strip(entries[i]) != "" && ':' !in Strip(entries[i])
    requires forall j :: 0 <= j < i ==> Strip(entries[j]) == "" || ':' in Strip(entries[j])
    ensures FirstV4(entries) == Strip(entries[i])[..IndexOf(Strip(entries[i]), '/')]
  {
    hide Strip, IndexOf;
    if i > 0 {
      FirstV4Says(entries[1..], i - 1);
    }
  }

  // ------------------------------------------------------------------ which settings are copied

  /** Every obfuscation setting is copied, and none that only the server or the network has. */
  lemma MirroredAre(p: Param)
    ensures p in AWG_PARAMS
            <==> p != DisableCookies && p != ListenPort && p != MTU && p != EndpointPort && p != PersistentKeepalive
  {
  }
}
