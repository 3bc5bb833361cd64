/** The second address: over whole runs, no IPv6 address of the tunnel goes to two clients. */
module ClientRuns6 {
  import opened Text
  import opened Config
  import opened ConfRoundTrip
  import opened ConfNormalForm
  import opened NameBreaks
  import opened Subnet
  import opened Clients
  import opened ClientRuns
  import S6 = Subnet6

  /** The entries of an AllowedIPs list, without the blanks around them. */
  function EntriesIn(pieces: seq<string>): set<string> {
    if pieces == [] then {} else {Strip(pieces[0])} + EntriesIn(pieces[1..])
  }

  function Entries(allowed: string): set<string> {
    EntriesIn(SplitOn(allowed, ','))
  }

  /** How the k-th IPv6 address of the tunnel stands in such a list. */
  function Entry6(p6: S6.Prefix64, k: nat): string
    requires 0 < k < S6.TWO32
  {
    Entry(S6.HostAddr(p6, k), "128")
  }

  /** A peer that is routed a tunnel address by IPv6 has the IPv4 address at the same place. */
  ghost predicate Paired(net: Net4, p6: S6.Prefix64, p: Peer) {
    GoTogether(net, p6, Entries(p.allowedIps), Reserved(p))
  }

  ghost predicate GoTogether(net: Net4, p6: S6.Prefix64, entries: set<string>, reserved: set<nat>) {
    forall k: nat :: 0 < k < S6.TWO32 && Entry6(p6, k) in entries ==> net.base + k in reserved
  }

  ghost predicate AllPaired(net: Net4, p6: S6.Prefix64, peers: seq<Peer>) {
    forall i :: 0 <= i < |peers| ==> Paired(net, p6, peers[i])
  }

  /** No IPv6 address of the tunnel is routed to two peers. */
  ghost predicate NoShared6(p6: S6.Prefix64, peers: seq<Peer>) {
    forall i, j, k: nat :: 0 <= i < j < |peers| && 0 < k < S6.TWO32 && Entry6(p6, k) in Entries(peers[i].allowedIps) ==>
      Entry6(p6, k) !in Entries(peers[j].allowedIps)
  }

  lemma PairedApart(net: Net4, p6: S6.Prefix64, peers: seq<Peer>)
    requires AllPaired(net, p6, peers) && NoSharedAddress(peers)
    ensures NoShared6(p6, peers)
  {
    hide Reserved, Entries, Entry6;
    forall i, j, k: nat | 0 <= i < j < |peers| && 0 < k < S6.TWO32 && Entry6(p6, k) in Entries(peers[i].allowedIps)
      ensures Entry6(p6, k) !in Entries(peers[j].allowedIps)
    {
      assert Paired(net, p6, peers[i]) && Paired(net, p6, peers[j]);
      assert net.base + k in Reserved(peers[i]);
    }
  }

  // ------------------------------------------------------------------ one client

  lemma EntrySplit(a: string, b: string, suffix: string)
    requires Entry(a, suffix) == Entry(b, suffix)
    ensures a == b
  {
    var s := Entry(a, suffix);
    assert |a| == |b|;
    assert s[..|a|] == a && s[..|b|] == b;
  }

  lemma OtherSuffix(a: string, b: string)
    ensures Entry(a, "32") != Entry(b, "128")
  {
    var s, t := Entry(a, "32"), Entry(b, "128");
    assert s[|s| - 1] == '2' && t[|t| - 1] == '8';
  }

  lemma EntryTrimmed(a: string, suffix: string)
    requires AddressChars(a) && a != "" && (suffix == "32" || suffix == "128")
    ensures Trimmed(Entry(a, suffix))
  {
    var s := Entry(a, suffix);
    assert s[0] == a[0] && a[0] in a;
    assert s[|s| - 1] == suffix[|suffix| - 1];
  }

  lemma TwoPieces(a: string, b: string)
    ensures EntriesIn([a, b]) == {Strip(a), Strip(b)}
  {
    hide Strip;
    assert [a, b][1..] == [b] && [b][1..] == [];
    assert EntriesIn([b]) == {Strip(b)};
  }

  lemma EntriesOfTwo(a: string, b: string)
    requires AddressChars(a) && a != "" && AddressChars(b) && b != ""
    ensures Entries(Entry(a, "32") + [','] + (" " + Entry(b, "128"))) == {Entry(a, "32"), Entry(b, "128")}
  {
    var first, second := Entry(a, "32"), Entry(b, "128");
    EntryTrimmed(a, "32");
    EntryTrimmed(b, "128");
    EntryPlain(a, "32");
    EntryPlain(b, "128");
    hide Entry, SplitOn, Trimmed, Strip, EntriesIn;
    TwoEntries(first, " " + second);
    StripTrimmed(first);
    StripPad(" ", second, "");
    assert " " + second + "" == " " + second;
    TwoPieces(first, " " + second);
  }

  lemma NewClientEntries(net: Net4, p6: S6.Prefix64, a: nat, q: Request)
    requires net.Valid() && net.ContainsHost(a)
    ensures var p := NewClient(q.publicKey, q.presharedKey, PeerAllowed(a, ClientIp6(net, Some(p6), a)), q.name, q.created);
            Entries(p.allowedIps) == {Entry(ShowV4(a), "32"), Entry6(p6, a - net.base)} && Reserved(p) == {a}
  {
    var own := a - net.base;
    NewClientReserves(net, Some(p6), a, q.publicKey, q.presharedKey, q.name, q.created);
    NewClientFields(q.publicKey, q.presharedKey, PeerAllowed(a, ClientIp6(net, Some(p6), a)), q.name, q.created);
    HostAddrChars(p6, own);
    V4Plain(a);
    hide S6.HostAddr, ShowV4, Reserved, Entries, AddressChars, Entry, NewClient;
    EntriesOfTwo(ShowV4(a), S6.HostAddr(p6, own));
  }

  /** A new client is paired by the very offset its IPv6 address was made from. */
  lemma NewClientPaired(net: Net4, p6: S6.Prefix64, a: nat, q: Request)
    requires net.Valid() && net.ContainsHost(a)
    ensures Paired(net, p6, NewClient(q.publicKey, q.presharedKey, PeerAllowed(a, ClientIp6(net, Some(p6), a)), q.name, q.created))
  {
    hide S6.HostAddr, ShowV4, Reserved, Entries, Entry, NewClient, PeerAllowed, ClientIp6;
    var own := a - net.base;
    NewClientEntries(net, p6, a, q);
    var p := NewClient(q.publicKey, q.presharedKey, PeerAllowed(a, ClientIp6(net, Some(p6), a)), q.name, q.created);
    forall k: nat | 0 < k < S6.TWO32 && Entry6(p6, k) in Entries(p.allowedIps) ensures net.base + k in Reserved(p) {
      OtherSuffix(ShowV4(a), S6.HostAddr(p6, k));
      EntrySplit(S6.HostAddr(p6, k), S6.HostAddr(p6, own), "128");
      S6.HostAddrInjective(p6, k, p6, own);
    }
  }

  // ------------------------------------------------------------------ what the next read finds

  lemma {:induction false} EntriesPadded(s: string, pad: string)
    requires AllSpace(pad)
    ensures Entries(s + pad) == Entries(s)
    decreases |s|
  {
    hide Strip;
    assert ',' !in pad;
    var i := IndexOf(s, ',');
    if i == |s| {
      assert ',' !in s + pad;
      SplitOnWhole(s, ',');
      SplitOnWhole(s + pad, ',');
      StripPadded(s, pad);
      assert [s][1..] == [] && [s + pad][1..] == [];
    } else {
      var piece, rest := s[..i], s[i + 1..];
      assert s == piece + [','] + rest && s + pad == piece + [','] + (rest + pad);
      SplitOnStep(piece, ',', rest);
      SplitOnStep(piece, ',', rest + pad);
      EntriesPadded(rest, pad);
      assert ([piece] + SplitOn(rest, ','))[1..] == SplitOn(rest, ',');
      assert ([piece] + SplitOn(rest + pad, ','))[1..] == SplitOn(rest + pad, ',');
    }
  }

  lemma NormKeepsEntries(p: Peer)
    requires AllowedOk(p.allowedIps)
    ensures Entries(NormPeer(p).allowedIps) == Entries(p.allowedIps)
  {
    var a := p.allowedIps;
    assert Lstrip(a) == a;
    RstripPrefix(a);
    var pad := a[|Rstrip(a)|..];
    assert a == Strip(a) + pad;
    hide Entries, Strip;
    EntriesPadded(Strip(a), pad);
  }

  lemma NormKeepsPaired(net: Net4, p6: S6.Prefix64, p: Peer)
    requires AllowedOk(p.allowedIps)
    ensures Paired(net, p6, NormPeer(p)) <==> Paired(net, p6, p)
  {
    hide GoTogether, Entries, Reserved, NormPeer, AllowedOk;
    NormKeepsEntries(p);
    NormKeepsReserved(p);
  }

  /** Nothing but the AllowedIPs of a peer decides. */
  lemma SameAllowedPaired(net: Net4, p6: S6.Prefix64, p: Peer, q: Peer)
    requires p.allowedIps == q.allowedIps && Paired(net, p6, p)
    ensures Paired(net, p6, q)
  {
    hide GoTogether, Entries, ReservedIn, SplitOn;
  }

  /** What is read back of a list is paired exactly when the list is. */
  lemma ReadsBackPaired(net: Net4, p6: S6.Prefix64, peers: seq<Peer>)
    requires PeersOk(BarePeers(peers))
    ensures AllPaired(net, p6, NormPeers(BarePeers(peers))) <==> AllPaired(net, p6, peers)
  {
    hide PeerOk, Paired, NormPeer;
    forall i | 0 <= i < |peers|
      ensures Paired(net, p6, NormPeers(BarePeers(peers))[i]) <==> Paired(net, p6, peers[i])
    {
      var bare := BarePeers(peers)[i];
      if Paired(net, p6, peers[i]) { SameAllowedPaired(net, p6, peers[i], bare); }
      if Paired(net, p6, bare) { SameAllowedPaired(net, p6, bare, peers[i]); }
      AllowedOf(bare);
      NormKeepsPaired(net, p6, bare);
    }
  }

  // ------------------------------------------------------------------ every edit

  lemma ReplacePaired(net: Net4, p6: S6.Prefix64, peers: seq<Peer>, i: nat, p: Peer)
    requires i < |peers| && p.allowedIps == peers[i].allowedIps && AllPaired(net, p6, peers)
    ensures AllPaired(net, p6, peers[i := p])
  {
    hide Paired;
    SameAllowedPaired(net, p6, peers[i], p);
  }

  lemma DropPaired(net: Net4, p6: S6.Prefix64, peers: seq<Peer>, i: nat)
    requires i < |peers| && AllPaired(net, p6, peers)
    ensures AllPaired(net, p6, peers[..i] + peers[i + 1..])
  {
    hide Paired;
  }

  lemma {:induction false} RemoveManyPaired(net: Net4, p6: S6.Prefix64, peers: seq<Peer>, names: seq<string>)
    requires AllPaired(net, p6, peers)
    ensures AllPaired(net, p6, RemoveClients(peers, names))
    decreases |names|
  {
    hide AllPaired, Find, RemoveEqual;
    if names != [] {
      RemoveSays(peers, names[0]);
      var i := Find(peers, names[0]);
      if i < |peers| {
        DropPaired(net, p6, peers, i);
        RemoveManyPaired(net, p6, peers[..i] + peers[i + 1..], names[1..]);
      } else {
        RemoveManyPaired(net, p6, peers, names[1..]);
      }
    }
  }

  lemma {:induction false} SwitchManyPaired(net: Net4, p6: S6.Prefix64, peers: seq<Peer>, names: seq<string>, enabled: bool,
                                            stamp: string)
    requires AllPaired(net, p6, peers)
    ensures AllPaired(net, p6, SetManyEnabled(peers, names, enabled, stamp))
    decreases |names|
  {
    hide AllPaired, Find;
    if names != [] {
      var i := Find(peers, names[0]);
      if names[0] != "" && i < |peers| {
        ReplacePaired(net, p6, peers, i, Switched(peers[i], enabled, stamp));
        SwitchManyPaired(net, p6, peers[i := Switched(peers[i], enabled, stamp)], names[1..], enabled, stamp);
      } else {
        SwitchManyPaired(net, p6, peers, names[1..], enabled, stamp);
      }
    }
  }

  lemma AddPaired(net: Net4, p6: S6.Prefix64, peers: seq<Peer>, q: Request)
    requires net.Valid() && AllPaired(net, p6, peers)
    requires AddClient(peers, net, Some(p6), q.name, q.publicKey, q.presharedKey, q.created).Done?
    ensures AllPaired(net, p6, AddClient(peers, net, Some(p6), q.name, q.publicKey, q.presharedKey, q.created).value.0)
  {
    hide Paired, AddClient, NewClient, PeerAllowed, ClientIp6, UsedHosts, IsLowestFree;
    AddDone(peers, net, Some(p6), q);
    NewClientPaired(net, p6, AddClient(peers, net, Some(p6), q.name, q.publicKey, q.presharedKey, q.created).value.1, q);
  }

  lemma EditKeepsPaired(net: Net4, p6: S6.Prefix64, peers: seq<Peer>, op: Op)
    requires net.Valid() && AllPaired(net, p6, peers) && Edited(peers, net, Some(p6), op).Some?
    ensures AllPaired(net, p6, Edited(peers, net, Some(p6), op).value.0)
  {
    hide AllPaired, AddClient, Find, RemoveEqual;
    match op
    case Add(q) => AddPaired(net, p6, peers, q);
    case Remove(name) =>
      RemoveSays(peers, name);
      DropPaired(net, p6, peers, Find(peers, name));
    case RemoveMany(names) => RemoveManyPaired(net, p6, peers, names);
    case Rename(from, to) =>
      var i := Find(peers, from);
      ReplacePaired(net, p6, peers, i, peers[i].(name := Some(to)));
    case Switch(name, enabled, stamp) =>
      var i := Find(peers, name);
      ReplacePaired(net, p6, peers, i, Switched(peers[i], enabled, stamp));
    case SwitchMany(names, enabled, stamp) => SwitchManyPaired(net, p6, peers, names, enabled, stamp);
    case Reset(name, publicKey, presharedKey) =>
      var i := Find(peers, name);
      ReplacePaired(net, p6, peers, i, peers[i].(publicKey := publicKey, presharedKey := Some(presharedKey)));
  }

  lemma ApplyKeepsPaired(s: Server, net: Net4, p6: S6.Prefix64, op: Op, own: bool)
    requires net.Valid() && Inv(s) && Supplied(s.Peers(), op) && AllPaired(net, p6, s.Peers())
    ensures AllPaired(net, p6, Apply(s, net, Some(p6), op, own).Peers())
  {
    hide AllPaired, Parse, Edited, Commit, Supplied, Good, Sound, EnabledSet, KeyUnused, Exists, UsedHosts, ConfOk, KeptOk, Server.Read;
    hide NormPeers, BarePeers, PeersOk;
    InvHas(s);
    if IsEdit(op) {
      var peers := s.Read(own).peers;
      ReadSays(s, own);
      ReadIsGood(s, own);
      ParsedPeersOk(s.text);
      BareReading(s);
      GoodReads(peers);
      ReadsBackPaired(net, p6, peers);
      ReadsBackPaired(net, p6, s.Peers());
      if Edited(peers, net, Some(p6), op).Some? {
        var (after, live) := Edited(peers, net, Some(p6), op).value;
        SuppliedSame(peers, s.Peers(), op);
        EditKeepsGood(peers, net, Some(p6), op);
        EditKeepsPaired(net, p6, peers, op);
        CommitSays(s, s.Read(own), after, live);
        ReadsBackPaired(net, p6, after);
      }
    } else {
      assert Apply(s, net, Some(p6), op, own).text == s.text;
    }
  }

  lemma BareReading(s: Server)
    ensures BarePeers(s.Peers()) == s.Peers()
  {
    hide Parse;
    ParsedPeersOk(s.text);
  }

  /** Over every run on one network, started where every peer's tunnel addresses go together: they still
      do, and no IPv6 address of the tunnel is ever routed to two clients. */
  lemma {:induction false} EveryRunKeeps6(states: seq<Server>, calls: seq<(Op, bool)>, net: Net4, p6: S6.Prefix64, n: nat)
    requires net.Valid() && Run(states, calls, net, Some(p6)) && Inv(states[0]) && n < |states|
    requires AllPaired(net, p6, states[0].Peers())
    ensures AllPaired(net, p6, states[n].Peers()) && NoShared6(p6, states[n].Peers())
  {
    hide Apply, Edited, Supplied, NewNameClear, NamesDistinct, KeysDistinct, NoSharedAddress, EnabledSet, AllPaired, NoShared6, KeptOk;
    if n > 0 {
      EveryRunKeeps6(states, calls, net, p6, n - 1);
      EveryRunKeeps(states, calls, net, Some(p6), n - 1);
      ApplyKeepsPaired(states[n - 1], net, p6, calls[n - 1].0, calls[n - 1].1);
    }
    EveryRunKeeps(states, calls, net, Some(p6), n);
    PairedApart(net, p6, states[n].Peers());
  }
}
