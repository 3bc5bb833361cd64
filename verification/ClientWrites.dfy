/** What each client operation writes, field by field, as a fresh reading of the file and the kernel show
    it afterwards, whichever reading the operation started from. */
module ClientWrites {
  import opened Text
  import opened Config
  import opened ConfRoundTrip
  import opened ConfStrip
  import opened NameBreaks
  import opened Subnet
  import opened Clients
  import opened ClientRuns
  import S6 = Subnet6

  /** Everybody but the i-th is as the file had it: only blanks around AllowedIPs and empty settings go. */
  predicate OthersStay(was: seq<Peer>, now: seq<Peer>, i: nat) {
    |now| == |was| && forall j :: 0 <= j < |was| && j != i ==> now[j] == NormPeer(was[j])
  }

  /** What the kernel keeps of one peer. */
  predicate HeldAs(kernel: map<string, Peer>, key: string, presharedKey: Option<string>, allowedIps: string,
                   endpoint: Option<string>, keepalive: Option<int>) {
    && key in kernel
    && kernel[key] == Peer(key, presharedKey, allowedIps, endpoint, keepalive, None, None, None, [], [], PEER_HEADER)
  }

  /** Two kernels hold the same under a key, or both nothing. */
  predicate SameAt(a: map<string, Peer>, b: map<string, Peer>, key: string) {
    (key in a <==> key in b) && (key in a ==> a[key] == b[key])
  }

  // ------------------------------------------------------------------ where a client stands in the file

  lemma FindIs(peers: seq<Peer>, name: string, i: nat)
    requires NamesDistinct(peers) && i < |peers| && Answers(peers[i], name)
    ensures Find(peers, name) == i
  {
  }

  /** The place a name leads to in a reading is the client's place in the file. */
  lemma PlaceIs(s: Server, own: bool, name: string)
    requires KeptOk(s) && Sound(s.Peers())
    ensures var read, was := s.Read(own).peers, s.Peers(); var i := Find(read, name);
            && |read| == |was| && NormPeers(BarePeers(read)) == NormPeers(was)
            && (i < |read| ==> i == Find(was, Bare(name)) && Answers(was[i], Bare(name)))
            && (forall j :: 0 <= j < |read| ==> NormPeer(BarePeer(read[j])) == NormPeer(was[j]))
  {
    hide Parse, Render, ConfOk, Bare, Server.Read, KeptOk, KeysDistinct, NoSharedAddress, Strip;
    ReadSays(s, own);
    var read, was := s.Read(own).peers, s.Peers();
    assert forall j :: 0 <= j < |read| ==> NormPeers(BarePeers(read))[j] == NormPeer(BarePeer(read[j]));
    assert forall j :: 0 <= j < |was| ==> NormPeers(was)[j] == NormPeer(was[j]);
    var i := Find(read, name);
    if i < |read| {
      assert NormPeer(BarePeer(read[i])) == NormPeer(was[i]);
      FindIs(was, Bare(name), i);
    }
  }

  // ------------------------------------------------------------------ what a list is read as

  lemma ReplacedReads(read: seq<Peer>, was: seq<Peer>, i: nat, p: Peer)
    requires |read| == |was| && i < |was| && NormPeers(BarePeers(read)) == NormPeers(was)
    ensures NormPeers(BarePeers(read[i := p])) == NormPeers(was)[i := NormPeer(BarePeer(p))]
  {
    hide NormPeer, BarePeer;
    assert forall j :: 0 <= j < |was| ==> NormPeers(BarePeers(read))[j] == NormPeer(BarePeer(read[j]));
  }

  lemma AppendedReads(read: seq<Peer>, was: seq<Peer>, p: Peer)
    requires NormPeers(BarePeers(read)) == NormPeers(was)
    ensures NormPeers(BarePeers(read + [p])) == NormPeers(was) + [NormPeer(BarePeer(p))]
  {
    hide NormPeer, BarePeer;
    assert forall j :: 0 <= j < |read| ==> NormPeers(BarePeers(read))[j] == NormPeer(BarePeer(read[j]));
  }

  lemma DroppedReads(read: seq<Peer>, was: seq<Peer>, i: nat)
    requires |read| == |was| && i < |was| && NormPeers(BarePeers(read)) == NormPeers(was)
    ensures NormPeers(BarePeers(read[..i] + read[i + 1..])) == NormPeers(was[..i] + was[i + 1..])
  {
    hide NormPeer, BarePeer;
    assert forall j :: 0 <= j < |was| ==> NormPeers(BarePeers(read))[j] == NormPeer(BarePeer(read[j])) == NormPeer(was[j]);
  }

  /** What a call that goes through leaves in the file and in the kernel. */
  lemma EditLands(s: Server, net: Net4, net6: Option<S6.Prefix64>, op: Op, own: bool)
    requires net.Valid() && Inv(s) && IsEdit(op) && Supplied(s.Peers(), op)
    requires Edited(s.Read(own).peers, net, net6, op).Some?
    ensures var s' := Apply(s, net, net6, op, own); var (after, live) := Edited(s.Read(own).peers, net, net6, op).value;
            && s'.Peers() == NormPeers(BarePeers(after)) && s'.up == s.up
            && s'.kernel == if live && s.up then EnabledSet(s'.Peers()) else s.kernel
  {
    hide NamesDistinct, Parse, Commit, Edited, Good, PeersOk, Sound, EnabledSet, ConfOk, Supplied, NewNameClear, KeptOk, Server.Read;
    hide KeyUnused, NormPeers, BarePeers;
    InvHas(s);
    ReadSays(s, own);
    ReadIsGood(s, own);
    SuppliedSame(s.Read(own).peers, s.Peers(), op);
    EditKeepsGood(s.Read(own).peers, net, net6, op);
    var (after, live) := Edited(s.Read(own).peers, net, net6, op).value;
    CommitSays(s, s.Read(own), after, live);
  }

  lemma InvSays(s: Server)
    requires Inv(s)
    ensures KeptOk(s) && Sound(s.Peers()) && s.kernel == if s.up then EnabledSet(s.Peers()) else map[]
  {
  }

  // ------------------------------------------------------------------ the kernel, key by key

  /** A key is in the kernel's set exactly when somebody who is switched on has it. */
  lemma HeldIs(peers: seq<Peer>, i: nat)
    requires KeysDistinct(peers) && i < |peers| && Keyed(peers[i])
    ensures Enabled(peers[i]) ==>
              HeldAs(EnabledSet(peers), peers[i].publicKey, NonEmpty(peers[i].presharedKey), Strip(peers[i].allowedIps),
                     NonEmpty(peers[i].endpoint), peers[i].keepalive)
    ensures !Enabled(peers[i]) ==> peers[i].publicKey !in EnabledSet(peers)
  {
    hide EnabledSet, Strip;
    EnabledSetSays(peers);
  }

  lemma NobodyNotHeld(peers: seq<Peer>, key: string)
    requires KeysDistinct(peers) && KeyUnused(peers, key)
    ensures key !in EnabledSet(peers)
  {
    hide EnabledSet;
    EnabledSetSays(peers);
  }

  /** A list has a peer of that key as another has it, or neither has one. */
  ghost predicate SameUnder(a: seq<Peer>, b: seq<Peer>, key: string) {
    && (forall i :: 0 <= i < |a| && a[i].publicKey == key ==> exists j :: 0 <= j < |b| && b[j] == NormPeer(a[i]))
    && (forall j :: 0 <= j < |b| && b[j].publicKey == key ==> exists i :: 0 <= i < |a| && b[j] == NormPeer(a[i]))
  }

  lemma HeldAlike(a: seq<Peer>, b: seq<Peer>, key: string)
    requires KeysDistinct(a) && KeysDistinct(b) && SameUnder(a, b, key)
    ensures SameAt(EnabledSet(a), EnabledSet(b), key)
  {
    hide EnabledSet, NormPeer, KernelPeer;
    EnabledSetSays(a);
    EnabledSetSays(b);
    if key in EnabledSet(a) {
      var i :| 0 <= i < |a| && Enabled(a[i]) && a[i].publicKey == key;
      var j :| 0 <= j < |b| && b[j] == NormPeer(a[i]);
      NormIsHeld(a[i]);
    }
    if key in EnabledSet(b) {
      var j :| 0 <= j < |b| && Enabled(b[j]) && b[j].publicKey == key;
      var i :| 0 <= i < |a| && b[j] == NormPeer(a[i]);
      NormIsHeld(a[i]);
    }
  }

  lemma NormIsHeld(p: Peer)
    ensures KernelPeer(NormPeer(p)) == KernelPeer(p) && Enabled(NormPeer(p)) == Enabled(p) && NormPeer(p).publicKey == p.publicKey
  {
    KernelPeerTwice(p);
  }

  /** One peer replaced: every key but the two it had and has is held as before. */
  lemma ReplacedHeld(was: seq<Peer>, now: seq<Peer>, i: nat, key: string)
    requires KeysDistinct(was) && KeysDistinct(now) && OthersStay(was, now, i) && i < |was|
    requires key != was[i].publicKey && key != now[i].publicKey
    ensures SameAt(EnabledSet(was), EnabledSet(now), key)
  {
    hide EnabledSet, KeysDistinct, NormPeer;
    HeldAlike(was, now, key) by {
      assert SameUnder(was, now, key);
    }
  }

  lemma ReplacedKeys(was: seq<Peer>, now: seq<Peer>, i: nat)
    requires KeysDistinct(was) && OthersStay(was, now, i) && i < |was|
    requires now[i].publicKey == was[i].publicKey || KeyUnused(was, now[i].publicKey)
    ensures KeysDistinct(now)
  {
    hide Strip;
  }

  // ------------------------------------------------------------------ a key reset

  /** A reset puts the given key and preshared key at the client's place and changes nothing else there
      or anywhere; its old key is nobody's, in the file or in the kernel, and if the interface is up
      and the client is switched on, the kernel holds the new one with the client's own AllowedIPs. */
  lemma ResetWrites(s: Server, net: Net4, net6: Option<S6.Prefix64>, name: string, publicKey: string, presharedKey: string,
                    own: bool)
    requires net.Valid() && Inv(s) && Supplied(s.Peers(), Reset(name, publicKey, presharedKey))
    ensures var s' := Apply(s, net, net6, Reset(name, publicKey, presharedKey), own);
            var was, now := s.Peers(), s'.Peers();
            if !Exists(s.Read(own).peers, name) then s' == s
            else
              var i := Find(was, Bare(name));
              && i < |was| && OthersStay(was, now, i)
              && now[i] == Peer(publicKey, Some(presharedKey), Strip(was[i].allowedIps), NonEmpty(was[i].endpoint),
                                was[i].keepalive, was[i].name, was[i].created, was[i].disabledAt, was[i].extra,
                                was[i].extraComments, was[i].header)
              && KeyUnused(now, was[i].publicKey) && was[i].publicKey !in s'.kernel
              && (s.up && was[i].disabledAt.None? ==>
                    HeldAs(s'.kernel, publicKey, Some(presharedKey), Strip(was[i].allowedIps), NonEmpty(was[i].endpoint),
                           was[i].keepalive))
              && (was[i].disabledAt.Some? ==> publicKey !in s'.kernel)
              && (forall key :: key != publicKey && key != was[i].publicKey ==> SameAt(s.kernel, s'.kernel, key))
  {
    hide Inv, Parse, Commit, Find, Bare, BarePeers, NormPeers, Server.Read, KeptOk, EnabledSet, Sound, Strip, KeyUnused, KeysDistinct, Apply;
    hide OthersStay;
    var op := Reset(name, publicKey, presharedKey);
    var read, was := s.Read(own).peers, s.Peers();
    InvSays(s);
    FindEnds(read, name);
    if Exists(read, name) {
      var s' := Apply(s, net, net6, op, own);
      var now := s'.Peers();
      var i := Find(read, name);
      PlaceIs(s, own, name);
      EditLands(s, net, net6, op, own);
      ReplacedReads(read, was, i, read[i].(publicKey := publicKey, presharedKey := Some(presharedKey)));
      ResetRead(read[i], was[i], publicKey, presharedKey);
      OneChanged(was, now, i);
      SoundKeys(was);
      ReplacedKeys(was, now, i);
      NobodysKey(was, publicKey, i);
      OldKeyGone(was, now, i);
      NobodyNotHeld(now, was[i].publicKey);
      HeldIs(now, i);
      StripTwice(was[i].allowedIps);
      forall key | key != publicKey && key != was[i].publicKey ensures SameAt(s.kernel, s'.kernel, key) {
        ReplacedHeld(was, now, i, key);
      }
    } else {
      NotEdited(s, net, net6, op, own);
    }
  }

  lemma NobodysKey(peers: seq<Peer>, key: string, i: nat)
    requires KeyUnused(peers, key) && i < |peers|
    ensures peers[i].publicKey != key
  {
  }

  lemma FindEnds(peers: seq<Peer>, name: string)
    ensures Find(peers, name) <= |peers| && (Exists(peers, name) <==> Find(peers, name) < |peers|)
  {
  }

  lemma NotEdited(s: Server, net: Net4, net6: Option<S6.Prefix64>, op: Op, own: bool)
    requires net.Valid() && IsEdit(op) && Edited(s.Read(own).peers, net, net6, op).None?
    ensures Apply(s, net, net6, op, own) == s
  {
    hide Edited, Server.Read;
  }

  lemma ResetRead(p: Peer, q: Peer, publicKey: string, presharedKey: string)
    requires NormPeer(BarePeer(p)) == NormPeer(q) && presharedKey != "" && q.name == BareName(p.name)
    ensures NormPeer(BarePeer(p.(publicKey := publicKey, presharedKey := Some(presharedKey))))
            == Peer(publicKey, Some(presharedKey), Strip(q.allowedIps), NonEmpty(q.endpoint), q.keepalive, q.name, q.created,
                    q.disabledAt, q.extra, q.extraComments, q.header)
  {
    hide Strip;
  }

  lemma OneChanged(was: seq<Peer>, now: seq<Peer>, i: nat)
    requires i < |was| && |now| == |was| && now == NormPeers(was)[i := now[i]]
    ensures OthersStay(was, now, i)
  {
    hide NormPeer;
    assert forall j :: 0 <= j < |was| ==> NormPeers(was)[j] == NormPeer(was[j]);
    assert forall j :: 0 <= j < |was| && j != i ==> NormPeers(was)[i := now[i]][j] == NormPeers(was)[j];
  }

  lemma SoundKeys(peers: seq<Peer>)
    requires Sound(peers)
    ensures KeysDistinct(peers)
  {
  }

  lemma OldKeyGone(was: seq<Peer>, now: seq<Peer>, i: nat)
    requires KeysDistinct(was) && i < |was| && Keyed(was[i]) && OthersStay(was, now, i)
    requires now[i].publicKey != was[i].publicKey
    ensures KeyUnused(now, was[i].publicKey)
  {
    hide Strip;
  }

  lemma StripTwice(s: string)
    ensures Strip(Strip(s)) == Strip(s)
  {
    StripTrimmed(Strip(s));
  }

  // ------------------------------------------------------------------ an add

  /** The AllowedIPs of a client on an address of the pool: the address as a "/32", and where the tunnel has
      IPv6 the address at the same offset of its /64 as a "/128". */
  function Routed(net: Net4, net6: Option<S6.Prefix64>, a: nat): string
    requires net.Valid() && net.base + 2 <= a <= net.base + Size(net.prefix) - 2
  {
    match net6
    case None => ShowV4(a) + "/" + "32"
    case Some(p) => ShowV4(a) + "/" + "32" + ", " + S6.HostAddr(p, a - net.base) + "/" + "128"
  }

  /** An add goes through exactly when the name is free and the pool is not used up. It puts one peer at the
      end of the file, with the given keys, name and time, the lowest free address and nothing else, and
      leaves everybody as they were; if the interface is up the kernel holds the client too. */
  lemma AddWrites(s: Server, net: Net4, net6: Option<S6.Prefix64>, q: Request, own: bool) returns (a: nat)
    requires net.Valid() && Inv(s) && Supplied(s.Peers(), Add(q))
    ensures net.base + 2 <= a <= net.base + Size(net.prefix) - 2
    ensures var s' := Apply(s, net, net6, Add(q), own);
            var was, now := s.Peers(), s'.Peers();
            if Exists(s.Read(own).peers, q.name) || net.Hosts() <= UsedHosts(was) then s' == s
            else
              && HandedOutRight(was, net, a)
              && now == NormPeers(was) + [Peer(q.publicKey, Some(q.presharedKey), Routed(net, net6, a), None, None,
                                               Some(Bare(q.name)), Some(q.created), None, [], [], "[Peer]")]
              && (s.up ==> HeldAs(s'.kernel, q.publicKey, Some(q.presharedKey), Routed(net, net6, a), None, None))
              && (forall key :: key != q.publicKey ==> SameAt(s.kernel, s'.kernel, key))
  {
    hide Inv, Parse, Commit, Find, Bare, BarePeers, NormPeers, Server.Read, KeptOk, EnabledSet, Sound, Strip, KeyUnused, KeysDistinct, Apply;
    hide Exists, AddClient, UsedHosts, IsLowestFree, PeerAllowed, ClientIp6, NewClient, HandedOutRight, PeersOk, Routed, PlainName;
    var op := Add(q);
    var read, was := s.Read(own).peers, s.Peers();
    InvSays(s);
    ReadIsGood(s, own);
    AddSays(read, net, net6, q.name, q.publicKey, q.presharedKey, q.created);
    a := net.base + 2;
    if AddClient(read, net, net6, q.name, q.publicKey, q.presharedKey, q.created).Done? {
      AddDone(read, net, net6, q);
      var s', now := Apply(s, net, net6, op, own), Apply(s, net, net6, op, own).Peers();
      a := AddClient(read, net, net6, q.name, q.publicKey, q.presharedKey, q.created).value.1;
      AddHandsOut(read, was, net, a);
      PlaceIs(s, own, q.name);
      EditLands(s, net, net6, op, own);
      AppendedReads(read, was, NewClient(q.publicKey, q.presharedKey, PeerAllowed(a, ClientIp6(net, net6, a)), q.name, q.created));
      NewRead(net, net6, a, q);
      assert now == NormPeers(was) + [now[|was|]];
      SoundKeys(was);
      AppendedKeys(was, now);
      HeldIs(now, |was|);
      NewSettings(net, net6, a, q);
      forall key | key != q.publicKey ensures SameAt(s.kernel, s'.kernel, key) {
        AppendedHeld(was, now, key);
      }
    } else {
      NotEdited(s, net, net6, op, own);
    }
  }

  lemma AddHandsOut(read: seq<Peer>, was: seq<Peer>, net: Net4, a: nat)
    requires net.Valid() && UsedHosts(read) == UsedHosts(was) && IsLowestFree(net, UsedHosts(read), Some(a))
    ensures HandedOutRight(was, net, a) && a in net.Hosts() && a !in UsedHosts(was)
  {
    hide UsedHosts;
    LowestIsRight(was, net, a);
    HostIsInPool(net, a);
  }

  lemma PlainTrimmed(s: string, address: string, suffix: string)
    requires AddressChars(address) && address != "" && (suffix == "32" || suffix == "128")
    requires |s| > 0 && s[0] == address[0] && s[|s| - 1] == suffix[|suffix| - 1]
    ensures Trimmed(s)
  {
    assert s[0] in address;
  }

  lemma RoutedIs(net: Net4, net6: Option<S6.Prefix64>, a: nat)
    requires net.Valid() && net.base + 2 <= a <= net.base + Size(net.prefix) - 2
    ensures PeerAllowed(a, ClientIp6(net, net6, a)) == Routed(net, net6, a) && Trimmed(Routed(net, net6, a))
  {
    hide ShowV4, S6.HostAddr, Trimmed;
    V4Plain(a);
    PlainTrimmed(ShowV4(a) + "/" + "32", ShowV4(a), "32");
    match net6
    case None =>
    case Some(p) =>
      var a6 := S6.HostAddr(p, a - net.base);
      assert Entry(ShowV4(a), "32") + [','] + (" " + Entry(a6, "128")) == ShowV4(a) + "/" + "32" + ", " + a6 + "/" + "128";
      PlainTrimmed(Routed(net, net6, a), ShowV4(a), "128");
  }

  lemma NewRead(net: Net4, net6: Option<S6.Prefix64>, a: nat, q: Request)
    requires net.Valid() && net.base + 2 <= a <= net.base + Size(net.prefix) - 2 && q.presharedKey != ""
    ensures NormPeer(BarePeer(NewClient(q.publicKey, q.presharedKey, PeerAllowed(a, ClientIp6(net, net6, a)), q.name, q.created)))
            == Peer(q.publicKey, Some(q.presharedKey), Routed(net, net6, a), None, None, Some(Bare(q.name)), Some(q.created),
                    None, [], [], "[Peer]")
  {
    hide PeerAllowed, ClientIp6, Routed, Bare, Strip;
    RoutedIs(net, net6, a);
    StripTrimmed(Routed(net, net6, a));
  }

  lemma NewSettings(net: Net4, net6: Option<S6.Prefix64>, a: nat, q: Request)
    requires net.Valid() && net.base + 2 <= a <= net.base + Size(net.prefix) - 2
    ensures Strip(Routed(net, net6, a)) == Routed(net, net6, a)
  {
    hide Routed, Strip;
    RoutedIs(net, net6, a);
    StripTrimmed(Routed(net, net6, a));
  }

  lemma AppendedKeys(was: seq<Peer>, now: seq<Peer>)
    requires KeysDistinct(was) && |now| == |was| + 1 && now == NormPeers(was) + [now[|was|]]
    requires KeyUnused(was, now[|was|].publicKey)
    ensures KeysDistinct(now)
  {
    hide Strip;
  }

  lemma AppendedHeld(was: seq<Peer>, now: seq<Peer>, key: string)
    requires KeysDistinct(was) && KeysDistinct(now) && |now| == |was| + 1 && now == NormPeers(was) + [now[|was|]]
    requires key != now[|was|].publicKey
    ensures SameAt(EnabledSet(was), EnabledSet(now), key)
  {
    hide EnabledSet, KeysDistinct, NormPeer;
    HeldAlike(was, now, key) by {
      assert forall j :: 0 <= j < |was| ==> now[j] == NormPeers(was)[j] == NormPeer(was[j]);
      assert SameUnder(was, now, key);
    }
  }

  // ------------------------------------------------------------------ a removal

  /** A removal takes the client out of the file and its key out of the kernel, and nobody else. */
  lemma RemoveWrites(s: Server, net: Net4, net6: Option<S6.Prefix64>, name: string, own: bool)
    requires net.Valid() && Inv(s)
    ensures var s' := Apply(s, net, net6, Remove(name), own);
            var was, now := s.Peers(), s'.Peers();
            if !Exists(s.Read(own).peers, name) then s' == s
            else
              var i := Find(was, Bare(name));
              && i < |was| && now == NormPeers(was[..i] + was[i + 1..])
              && KeyUnused(now, was[i].publicKey) && was[i].publicKey !in s'.kernel
              && (forall key :: key != was[i].publicKey ==> SameAt(s.kernel, s'.kernel, key))
  {
    hide Inv, Parse, Commit, Find, Bare, BarePeers, NormPeers, Server.Read, KeptOk, EnabledSet, Sound, Strip, KeyUnused, KeysDistinct, Apply;
    hide RemoveEqual;
    var op := Remove(name);
    var read, was := s.Read(own).peers, s.Peers();
    InvSays(s);
    FindEnds(read, name);
    if Exists(read, name) {
      var s' := Apply(s, net, net6, op, own);
      var now := s'.Peers();
      var i := Find(read, name);
      RemoveSays(read, name);
      PlaceIs(s, own, name);
      EditLands(s, net, net6, op, own);
      DroppedReads(read, was, i);
      SoundKeys(was);
      DroppedKeys(was, now, i);
      NobodyNotHeld(now, was[i].publicKey);
      forall key | key != was[i].publicKey ensures SameAt(s.kernel, s'.kernel, key) {
        DroppedHeld(was, now, i, key);
      }
    } else {
      NotEdited(s, net, net6, op, own);
    }
  }

  lemma DroppedAt(was: seq<Peer>, now: seq<Peer>, i: nat)
    requires i < |was| && now == NormPeers(was[..i] + was[i + 1..])
    ensures |now| == |was| - 1
    ensures forall j :: 0 <= j < |now| ==> now[j] == NormPeer(was[if j < i then j else j + 1])
  {
    hide NormPeer;
  }

  lemma DroppedKeys(was: seq<Peer>, now: seq<Peer>, i: nat)
    requires KeysDistinct(was) && i < |was| && Keyed(was[i]) && now == NormPeers(was[..i] + was[i + 1..])
    ensures KeysDistinct(now) && KeyUnused(now, was[i].publicKey)
  {
    hide Strip, NormPeers;
    DroppedAt(was, now, i);
  }

  lemma DroppedHeld(was: seq<Peer>, now: seq<Peer>, i: nat, key: string)
    requires KeysDistinct(was) && KeysDistinct(now) && i < |was| && now == NormPeers(was[..i] + was[i + 1..])
    requires key != was[i].publicKey
    ensures SameAt(EnabledSet(was), EnabledSet(now), key)
  {
    hide EnabledSet, KeysDistinct, NormPeer, NormPeers;
    DroppedAt(was, now, i);
    forall j | 0 <= j < |was| && was[j].publicKey == key ensures exists k :: 0 <= k < |now| && now[k] == NormPeer(was[j]) {
      assert now[if j < i then j else j - 1] == NormPeer(was[j]);
    }
    assert SameUnder(was, now, key);
    HeldAlike(was, now, key);
  }

  // ------------------------------------------------------------------ a rename

  /** A rename changes the client's name and nothing else, and the kernel hears nothing of it. It is refused
      exactly when there is no such client or another one answers to the new name. */
  lemma RenameWrites(s: Server, net: Net4, net6: Option<S6.Prefix64>, from: string, to: string, own: bool)
    requires net.Valid() && Inv(s) && Supplied(s.Peers(), Rename(from, to))
    ensures var s' := Apply(s, net, net6, Rename(from, to), own); var read := s.Read(own).peers;
            var was, now := s.Peers(), s'.Peers();
            if !Exists(read, from) || (to != from && Exists(read, to)) then s' == s
            else
              var i := Find(was, Bare(from));
              && i < |was| && OthersStay(was, now, i) && now[i] == NormPeer(was[i]).(name := Some(Bare(to)))
              && s'.kernel == s.kernel && s'.up == s.up
  {
    hide Inv, Parse, Commit, Find, Bare, BarePeers, NormPeers, Server.Read, KeptOk, EnabledSet, Sound, Strip, KeyUnused, KeysDistinct, Apply;
    hide OthersStay, PlainName, Exists;
    var op := Rename(from, to);
    var read, was := s.Read(own).peers, s.Peers();
    InvSays(s);
    FindEnds(read, from);
    if Exists(read, from) && !(to != from && Exists(read, to)) {
      var i := Find(read, from);
      PlaceIs(s, own, from);
      EditLands(s, net, net6, op, own);
      ReplacedReads(read, was, i, read[i].(name := Some(to)));
      RenameRead(read[i], was[i], to);
      OneChanged(was, Apply(s, net, net6, op, own).Peers(), i);
    } else {
      NotEdited(s, net, net6, op, own);
    }
  }

  lemma RenameRead(p: Peer, q: Peer, to: string)
    requires NormPeer(BarePeer(p)) == NormPeer(q)
    ensures NormPeer(BarePeer(p.(name := Some(to)))) == NormPeer(q).(name := Some(Bare(to)))
  {
    hide Strip;
  }

  // ------------------------------------------------------------------ a switch

  /** A switch changes the marker alone, and only of a client that is in the other state; afterwards the
      kernel holds the client with its own settings, or does not hold it, and everybody else as before. */
  lemma SwitchWrites(s: Server, net: Net4, net6: Option<S6.Prefix64>, name: string, enabled: bool, stamp: string, own: bool)
    requires net.Valid() && Inv(s) && Supplied(s.Peers(), Switch(name, enabled, stamp))
    ensures var s' := Apply(s, net, net6, Switch(name, enabled, stamp), own);
            var was, now := s.Peers(), s'.Peers();
            var i := Find(was, Bare(name));
            if !Exists(s.Read(own).peers, name) then s' == s
            else if i < |was| && was[i].disabledAt.None? == enabled then s' == s
            else
              && i < |was| && OthersStay(was, now, i)
              && now[i] == NormPeer(was[i]).(disabledAt := if enabled then None else Some(stamp))
              && (s.up && enabled ==>
                    HeldAs(s'.kernel, was[i].publicKey, NonEmpty(was[i].presharedKey), Strip(was[i].allowedIps),
                           NonEmpty(was[i].endpoint), was[i].keepalive))
              && (!enabled ==> was[i].publicKey !in s'.kernel)
              && (forall key :: key != was[i].publicKey ==> SameAt(s.kernel, s'.kernel, key))
  {
    hide Inv, Parse, Commit, Find, Bare, BarePeers, NormPeers, Server.Read, KeptOk, EnabledSet, Sound, Strip, KeyUnused, KeysDistinct, Apply;
    hide OthersStay;
    var op := Switch(name, enabled, stamp);
    var read, was := s.Read(own).peers, s.Peers();
    InvSays(s);
    FindEnds(read, name);
    if Exists(read, name) {
      var i := Find(read, name);
      PlaceIs(s, own, name);
      MarkerRead(read, was, i, enabled, stamp);
      if was[i].disabledAt.None? != enabled {
        var s' := Apply(s, net, net6, op, own);
        var now := s'.Peers();
        EditLands(s, net, net6, op, own);
        ReplacedReads(read, was, i, Switched(read[i], enabled, stamp));
        OneChanged(was, now, i);
        SoundKeys(was);
        KeyStays(was[i]);
        ReplacedKeys(was, now, i);
        HeldIs(now, i);
        SwitchSettings(was[i]);
        forall key | key != was[i].publicKey ensures SameAt(s.kernel, s'.kernel, key) {
          ReplacedHeld(was, now, i, key);
        }
      } else {
        NotEdited(s, net, net6, op, own);
      }
    } else {
      NotEdited(s, net, net6, op, own);
    }
  }

  lemma KeyStays(p: Peer)
    ensures NormPeer(p).publicKey == p.publicKey
  {
  }

  lemma SwitchSettings(p: Peer)
    ensures Strip(NormPeer(p).allowedIps) == Strip(p.allowedIps) && NonEmpty(NormPeer(p).presharedKey) == NonEmpty(p.presharedKey)
    ensures NonEmpty(NormPeer(p).endpoint) == NonEmpty(p.endpoint) && NormPeer(p).keepalive == p.keepalive
  {
    StripTwice(p.allowedIps);
  }

  lemma MarkerRead(read: seq<Peer>, was: seq<Peer>, i: nat, enabled: bool, stamp: string)
    requires |read| == |was| && i < |was| && NormPeer(BarePeer(read[i])) == NormPeer(was[i])
    ensures was[i].disabledAt == read[i].disabledAt
    ensures was[i].disabledAt.None? != enabled ==>
              NormPeer(BarePeer(Switched(read[i], enabled, stamp)))
              == NormPeer(was[i]).(disabledAt := if enabled then None else Some(stamp))
    ensures read[i := Switched(read[i], enabled, stamp)] == read <==> was[i].disabledAt.None? == enabled
  {
    hide Strip;
    assert read[i := Switched(read[i], enabled, stamp)][i] == Switched(read[i], enabled, stamp);
  }

  // ------------------------------------------------------------------ bringing the interface up and down

  /** A start and a restart leave the interface up with exactly the clients that are switched on, a stop leaves it
      down with nobody, and none of them touches the file. */
  lemma PowerWrites(s: Server, net: Net4, net6: Option<S6.Prefix64>, own: bool)
    requires net.Valid() && Inv(s)
    ensures var up := Apply(s, net, net6, Start, own); up.text == s.text && up.up && up.kernel == EnabledSet(s.Peers())
    ensures var again := Apply(s, net, net6, Restart, own);
            again.text == s.text && again.up && again.kernel == EnabledSet(s.Peers())
    ensures var down := Apply(s, net, net6, Stop, own); down.text == s.text && !down.up && down.kernel == map[]
  {
    hide Parse, ConfOk, PeerOk, EnabledSet, Sound, ByKey, KeyedPeers, Render, Good, Edited;
    InvSays(s);
    ReadSays(s, own);
    ReadIsGood(s, own);
    SyncedIsEnabled(s.Read(own));
    hide Synced;
  }

  lemma {:induction false} KeyedOnly(peers: seq<Peer>, p: Peer)
    requires p in KeyedPeers(peers)
    ensures exists i :: 0 <= i < |peers| && Keyed(peers[i]) && peers[i].publicKey == p.publicKey
  {
    hide KernelPeer;
    if Keyed(peers[0]) && p == KernelPeer(peers[0]) {
      KernelKey(peers[0]);
    } else {
      KeyedOnly(peers[1..], p);
      var i :| 0 <= i < |peers[1..]| && Keyed(peers[1..][i]) && peers[1..][i].publicKey == p.publicKey;
      assert peers[i + 1] == peers[1..][i];
    }
  }

  /** A bring-up on its own loads exactly the keys of the file, switched-off clients' among them. */
  lemma BroughtUpSays(s: Server, key: string)
    ensures BroughtUp(s).up && BroughtUp(s).text == s.text
    ensures key in BroughtUp(s).kernel <==> key != "" && !KeyUnused(s.Peers(), key)
  {
    hide Parse, ByKey, KeyedPeers;
    var peers := s.Peers();
    if key in BroughtUp(s).kernel {
      ByKeyOnly(KeyedPeers(peers), key);
      var k :| 0 <= k < |KeyedPeers(peers)| && KeyedPeers(peers)[k].publicKey == key;
      KeyedOnly(peers, KeyedPeers(peers)[k]);
    }
    if key != "" && !KeyUnused(peers, key) {
      var i :| 0 <= i < |peers| && peers[i].publicKey == key;
      KeyedHas(peers, i);
      var k :| 0 <= k < |KeyedPeers(peers)| && KeyedPeers(peers)[k].publicKey == key;
      ByKeyHas(KeyedPeers(peers), k);
    }
  }
}
