/** Whole runs of client operations over the config file and the kernel: no address twice, no name
    twice, and the kernel holding exactly the clients that are switched on. */
module ClientRuns {
  import opened Text
  import opened Config
  import opened ConfRoundTrip
  import opened ConfNormalForm
  import opened ConfStrip
  import opened NameBreaks
  import opened Hooks
  import opened Subnet
  import opened Clients
  import S6 = Subnet6

  // ------------------------------------------------------------------ what each edit keeps

  predicate KeysDistinct(peers: seq<Peer>) {
    forall i, j :: 0 <= i < j < |peers| && Keyed(peers[i]) ==> peers[i].publicKey != peers[j].publicKey
  }

  predicate KeyUnused(peers: seq<Peer>, key: string) {
    forall i :: 0 <= i < |peers| ==> peers[i].publicKey != key
  }

  predicate Sound(peers: seq<Peer>) {
    NoSharedAddress(peers) && NamesDistinct(peers) && KeysDistinct(peers)
  }

  predicate PeersOk(peers: seq<Peer>) {
    forall i :: 0 <= i < |peers| ==> PeerOk(peers[i])
  }

  predicate KeyText(key: string) {
    key != "" && ValueOk(key)
  }

  /** One peer's fields change, its address and its being keyed do not. */
  lemma UpdateKeepsAddresses(peers: seq<Peer>, i: nat, p: Peer)
    requires i < |peers| && p.allowedIps == peers[i].allowedIps
    ensures NoSharedAddress(peers) ==> NoSharedAddress(peers[i := p])
    ensures UsedHosts(peers[i := p]) == UsedHosts(peers)
  {
    var after := peers[i := p];
    assert Reserved(p) == Reserved(peers[i]);
    hide Reserved;
    assert forall j :: 0 <= j < |peers| ==> Reserved(after[j]) == Reserved(peers[j]);
    SameReservedSameUsed(peers, after);
  }

  lemma {:induction false} SameReservedSameUsed(a: seq<Peer>, b: seq<Peer>)
    requires |a| == |b| && forall j :: 0 <= j < |a| ==> Reserved(a[j]) == Reserved(b[j])
    ensures UsedHosts(a) == UsedHosts(b)
  {
    hide Reserved;
    if a != [] {
      SameReservedSameUsed(a[1..], b[1..]);
    }
  }

  lemma RemoveSays(peers: seq<Peer>, name: string)
    ensures var i := Find(peers, name);
            RemoveClient(peers, name) == if i == |peers| then NoSuchClient else Done(peers[..i] + peers[i + 1..])
  {
    var i := Find(peers, name);
    if i < |peers| {
      RemoveEqualAt(peers, i);
    }
  }

  lemma DropKeepsSound(peers: seq<Peer>, i: nat)
    requires i < |peers| && Sound(peers)
    ensures Sound(peers[..i] + peers[i + 1..])
  {
    hide Reserved;
    var after := peers[..i] + peers[i + 1..];
    assert forall j :: 0 <= j < |after| ==> after[j] == peers[if j < i then j else j + 1];
  }

  /** Removing a client frees its addresses and no others. */
  lemma DropFreesOwn(peers: seq<Peer>, i: nat)
    requires i < |peers| && NoSharedAddress(peers)
    ensures UsedHosts(peers[..i] + peers[i + 1..]) == UsedHosts(peers) - Reserved(peers[i])
  {
    hide Reserved;
    var before, rest := peers[..i], peers[i + 1..];
    UsedHostsAppend(before, rest);
    AppendOne(before, peers[i]);
    UsedHostsAppend(before + [peers[i]], rest);
    assert peers == before + [peers[i]] + rest;
    UsedDisjoint(before, Reserved(peers[i]));
    UsedDisjoint(rest, Reserved(peers[i]));
  }

  lemma {:induction false} UsedDisjoint(peers: seq<Peer>, taken: set<nat>)
    requires forall j :: 0 <= j < |peers| ==> Reserved(peers[j]) !! taken
    ensures UsedHosts(peers) !! taken
  {
    hide Reserved;
    if peers != [] {
      UsedDisjoint(peers[1..], taken);
    }
  }

  lemma SwitchKeepsSound(peers: seq<Peer>, i: nat, enabled: bool, stamp: string)
    requires Sound(peers) && i < |peers|
    ensures Sound(peers[i := Switched(peers[i], enabled, stamp)])
    ensures UsedHosts(peers[i := Switched(peers[i], enabled, stamp)]) == UsedHosts(peers)
  {
    hide Reserved;
    UpdateKeepsAddresses(peers, i, Switched(peers[i], enabled, stamp));
  }

  lemma ResetKeepsSound(peers: seq<Peer>, i: nat, publicKey: string, presharedKey: string)
    requires Sound(peers) && publicKey != "" && KeyUnused(peers, publicKey) && i < |peers| && Keyed(peers[i])
    ensures Sound(peers[i := peers[i].(publicKey := publicKey, presharedKey := Some(presharedKey))])
  {
    hide Reserved;
    UpdateKeepsAddresses(peers, i, peers[i].(publicKey := publicKey, presharedKey := Some(presharedKey)));
  }

  // ------------------------------------------------------------------ what the next read finds

  lemma {:induction false} LastPiecePadded(s: string, pad: string)
    requires AllSpace(pad)
    ensures ReservedIn(SplitOn(s + pad, ',')) == ReservedIn(SplitOn(s, ','))
    decreases |s|
  {
    hide ReservedHost;
    assert ',' !in pad;
    var i := IndexOf(s, ',');
    if i == |s| {
      assert ',' !in s + pad;
      SplitOnWhole(s, ',');
      SplitOnWhole(s + pad, ',');
      OneEntryReserves(s);
      OneEntryReserves(s + pad);
      PaddedEntry(s, pad);
    } else {
      var piece, rest := s[..i], s[i + 1..];
      assert s == piece + [','] + rest && s + pad == piece + [','] + (rest + pad);
      SplitOnStep(piece, ',', rest);
      SplitOnStep(piece, ',', rest + pad);
      LastPiecePadded(rest, pad);
      assert ([piece] + SplitOn(rest, ','))[1..] == SplitOn(rest, ',');
      assert ([piece] + SplitOn(rest + pad, ','))[1..] == SplitOn(rest + pad, ',');
    }
  }

  lemma PaddedEntry(s: string, pad: string)
    requires AllSpace(pad)
    ensures ReservedHost(s + pad) == ReservedHost(s)
  {
    StripPadded(s, pad);
  }

  /** Taking the blanks off AllowedIPs changes nothing about what is reserved. */
  lemma NormKeepsReserved(p: Peer)
    requires AllowedOk(p.allowedIps)
    ensures Reserved(NormPeer(p)) == Reserved(p)
  {
    var a := p.allowedIps;
    assert Lstrip(a) == a;
    RstripPrefix(a);
    var pad := a[|Rstrip(a)|..];
    assert a == Strip(a) + pad;
    hide ReservedIn, SplitOn, Strip;
    LastPiecePadded(Strip(a), pad);
  }

  lemma NormReserves(peers: seq<Peer>)
    requires PeersOk(peers)
    ensures forall i :: 0 <= i < |peers| ==> Reserved(NormPeers(peers)[i]) == Reserved(peers[i])
    ensures UsedHosts(NormPeers(peers)) == UsedHosts(peers)
  {
    hide Reserved, PeerOk, Strip;
    var after := NormPeers(peers);
    forall i | 0 <= i < |peers| ensures Reserved(after[i]) == Reserved(peers[i]) {
      assert PeerOk(peers[i]);
      AllowedOf(peers[i]);
      NormKeepsReserved(peers[i]);
    }
    SameReservedSameUsed(after, peers);
  }

  lemma NormKeepsSound(peers: seq<Peer>)
    requires PeersOk(peers)
    ensures Sound(NormPeers(peers)) <==> Sound(peers)
  {
    hide Reserved, PeerOk, Strip;
    NormReserves(peers);
  }

  lemma AllowedOf(p: Peer)
    requires PeerOk(p)
    ensures AllowedOk(p.allowedIps)
  {
  }

  // ------------------------------------------------------------------ the kernel

  /** Every peer by key, a later one in place of an earlier. */
  function ByKey(peers: seq<Peer>): map<string, Peer> {
    if peers == [] then map[]
    else ByKey(peers[..|peers| - 1])[peers[|peers| - 1].publicKey := KernelPeer(peers[|peers| - 1])]
  }

  /** What the kernel should hold: every keyed peer without a "# Disabled" marker. */
  function EnabledPeers(peers: seq<Peer>): seq<Peer> {
    KernelPeers(peers, {})
  }

  function EnabledSet(peers: seq<Peer>): map<string, Peer> {
    ByKey(EnabledPeers(peers))
  }

  /** What `awg-quick up` loads: the whole file, switched-off peers included. */
  function KeyedPeers(peers: seq<Peer>): seq<Peer> {
    if peers == [] then []
    else (if Keyed(peers[0]) then [KernelPeer(peers[0])] else []) + KeyedPeers(peers[1..])
  }

  lemma KernelPeerTwice(p: Peer)
    ensures KernelPeer(KernelPeer(p)) == KernelPeer(p) && KernelPeer(NormPeer(p)) == KernelPeer(p)
  {
    StripTrimmed(Strip(p.allowedIps));
  }

  lemma {:induction false} EnabledOfNorm(peers: seq<Peer>)
    ensures EnabledPeers(NormPeers(peers)) == EnabledPeers(peers)
  {
    if peers != [] {
      KernelPeerTwice(peers[0]);
      assert NormPeers(peers)[1..] == NormPeers(peers[1..]);
      assert Enabled(NormPeer(peers[0])) == Enabled(peers[0]);
      hide KernelPeer, NormPeer;
      EnabledOfNorm(peers[1..]);
    }
  }

  /** The key says it all: the map holds a peer exactly when some enabled peer has that key, and it
      holds that peer's AllowedIPs, preshared key, endpoint and keepalive. */
  lemma {:induction false} ByKeySays(peers: seq<Peer>, i: nat)
    requires KeysDistinct(peers) && i < |peers| && Keyed(peers[i])
    ensures peers[i].publicKey in ByKey(peers) && ByKey(peers)[peers[i].publicKey] == KernelPeer(peers[i])
    decreases |peers|
  {
    hide KernelPeer;
    var last := |peers| - 1;
    if i < last {
      ByKeySays(peers[..last], i);
    }
  }

  lemma {:induction false} ByKeyOnly(peers: seq<Peer>, key: string)
    requires key in ByKey(peers)
    ensures exists i :: 0 <= i < |peers| && peers[i].publicKey == key
    decreases |peers|
  {
    hide KernelPeer;
    var last := |peers| - 1;
    if key != peers[last].publicKey {
      ByKeyOnly(peers[..last], key);
      var i :| 0 <= i < |peers[..last]| && peers[..last][i].publicKey == key;
      assert peers[i].publicKey == key;
    }
  }

  lemma {:induction false} EnabledHas(peers: seq<Peer>, i: nat)
    requires i < |peers| && Enabled(peers[i])
    ensures KernelPeer(peers[i]) in EnabledPeers(peers)
  {
    hide KernelPeer;
    if i > 0 {
      EnabledHas(peers[1..], i - 1);
    }
  }

  lemma {:induction false} EnabledOnly(peers: seq<Peer>, p: Peer)
    requires p in EnabledPeers(peers)
    ensures exists i :: 0 <= i < |peers| && Enabled(peers[i]) && p == KernelPeer(peers[i])
  {
    hide KernelPeer;
    if Enabled(peers[0]) && p == KernelPeer(peers[0]) {
    } else {
      EnabledOnly(peers[1..], p);
      var i :| 0 <= i < |peers[1..]| && Enabled(peers[1..][i]) && p == KernelPeer(peers[1..][i]);
      assert peers[i + 1] == peers[1..][i];
    }
  }

  lemma {:induction false} EnabledKeysDistinct(peers: seq<Peer>)
    requires KeysDistinct(peers)
    ensures KeysDistinct(EnabledPeers(peers))
    ensures forall i :: 0 <= i < |EnabledPeers(peers)| ==> Keyed(EnabledPeers(peers)[i])
  {
    if peers != [] {
      EnabledKeysDistinct(peers[1..]);
      var rest := EnabledPeers(peers[1..]);
      forall i | 0 <= i < |rest| && Enabled(peers[0]) ensures rest[i].publicKey != peers[0].publicKey {
        EnabledOnly(peers[1..], rest[i]);
        var j :| 0 <= j < |peers[1..]| && Enabled(peers[1..][j]) && rest[i] == KernelPeer(peers[1..][j]);
        assert peers[j + 1] == peers[1..][j];
      }
    }
  }

  /** The set the kernel should hold, said peer by peer: a key is in it exactly when a peer that is
      switched on has it, and what it holds there are that peer's own settings. */
  lemma EnabledSetSays(peers: seq<Peer>)
    requires KeysDistinct(peers)
    ensures forall i :: 0 <= i < |peers| && Enabled(peers[i]) ==>
              peers[i].publicKey in EnabledSet(peers) && EnabledSet(peers)[peers[i].publicKey] == KernelPeer(peers[i])
    ensures forall key :: key in EnabledSet(peers) ==>
              exists i :: 0 <= i < |peers| && Enabled(peers[i]) && peers[i].publicKey == key
  {
    hide ByKey, KernelPeers;
    EnabledKeysDistinct(peers);
    forall i | 0 <= i < |peers| && Enabled(peers[i])
      ensures peers[i].publicKey in EnabledSet(peers) && EnabledSet(peers)[peers[i].publicKey] == KernelPeer(peers[i])
    {
      EnabledHas(peers, i);
      var k :| 0 <= k < |EnabledPeers(peers)| && EnabledPeers(peers)[k] == KernelPeer(peers[i]);
      ByKeySays(EnabledPeers(peers), k);
      KernelPeerTwice(peers[i]);
    }
    forall key | key in EnabledSet(peers)
      ensures exists i :: 0 <= i < |peers| && Enabled(peers[i]) && peers[i].publicKey == key
    {
      ByKeyOnly(EnabledPeers(peers), key);
      var k :| 0 <= k < |EnabledPeers(peers)| && EnabledPeers(peers)[k].publicKey == key;
      EnabledOnly(peers, EnabledPeers(peers)[k]);
    }
  }

  // ------------------------------------------------------------------ the edits, on a list of peers

  datatype Op =
    | Add(request: Request)
    | Remove(name: string)
    | RemoveMany(names: seq<string>)
    | Rename(name: string, to: string)
    | Switch(name: string, enabled: bool, stamp: string)
    | SwitchMany(names: seq<string>, enabled: bool, stamp: string)
    | Reset(name: string, publicKey: string, presharedKey: string)
    | Start
    | Stop
    | Restart

  /** What one mutation writes: the list of peers and whether the kernel is told; None when it writes
      nothing. */
  function Edited(peers: seq<Peer>, net: Net4, net6: Option<S6.Prefix64>, op: Op): Option<(seq<Peer>, bool)>
    requires net.Valid()
  {
    match op
    case Add(q) =>
      var r := AddClient(peers, net, net6, q.name, q.publicKey, q.presharedKey, q.created);
      if r.Done? then Some((r.value.0, true)) else None
    case Remove(name) => Written(RemoveClient(peers, name), true)
    case RemoveMany(names) =>
      var rest := RemoveClients(peers, names);
      if rest == peers then None else Some((rest, true))
    case Rename(name, to) => Written(RenameClient(peers, name, to), false)
    case Switch(name, enabled, stamp) =>
      var r := SetEnabled(peers, name, enabled, stamp);
      if r.Done? && r.value != peers then Some((r.value, true)) else None
    case SwitchMany(names, enabled, stamp) =>
      var moved := SetManyEnabled(peers, names, enabled, stamp);
      if moved == peers then None else Some((moved, true))
    case Reset(name, publicKey, presharedKey) => Written(ResetKeys(peers, name, publicKey, presharedKey), true)
    case _ => None
  }

  function Written(r: Outcome<seq<Peer>>, live: bool): Option<(seq<Peer>, bool)> {
    if r.Done? then Some((r.value, live)) else None
  }

  /** The name a mutation gives out, and the name it takes from the same client. */
  function NewName(op: Op): Option<(string, Option<string>)> {
    match op
    case Add(q) => Some((q.name, None))
    case Rename(from, to) => Some((to, Some(from)))
    case _ => None
  }

  /** What the callers and the key generator guarantee: names the panel accepts, keys nobody has, time
      stamps that stay on their line. */
  predicate Supplied(peers: seq<Peer>, op: Op) {
    match op
    case Add(q) =>
      && ValidName(q.name) && KeyText(q.publicKey) && KeyText(q.presharedKey) && MetaOk(Some(q.created))
      && KeyUnused(peers, q.publicKey)
    case Rename(_, to) => ValidName(to)
    case Switch(_, _, stamp) => MetaOk(Some(stamp))
    case SwitchMany(_, _, stamp) => MetaOk(Some(stamp))
    case Reset(_, publicKey, presharedKey) => KeyText(publicKey) && KeyText(presharedKey) && KeyUnused(peers, publicKey)
    case _ => true
  }

  /** Nobody but the client itself answers to a name, on a list of peers as it is read. */
  predicate NameClear(peers: seq<Peer>, name: string, own: Option<string>) {
    (own.Some? && Bare(own.value) == Bare(name)) || !Exists(peers, Bare(name))
  }

  predicate NewNameClear(peers: seq<Peer>, op: Op) {
    NewName(op).Some? ==> NameClear(peers, NewName(op).value.0, NewName(op).value.1)
  }

  /** A list that is fit to be written: but for line feeds at the end of a name every peer reads back,
      and then no address, name or key is there twice. */
  predicate Good(peers: seq<Peer>) {
    PeersOk(BarePeers(peers)) && Sound(BarePeers(peers))
  }

  // ------------------------------------------------------------------ the edited peers read back

  lemma NameIsMeta(name: string)
    requires PlainName(name)
    ensures MetaOk(Some(name))
  {
  }

  lemma NewClientParts(publicKey: string, presharedKey: string, allowed: string, name: string, created: string)
    requires ValueOk(publicKey) && ValueOk(presharedKey) && AllowedOk(allowed)
    requires MetaOk(Some(name)) && MetaOk(Some(created)) && PeerHeaderOk(PEER_HEADER)
    ensures PeerOk(NewClient(publicKey, presharedKey, allowed, name, created))
  {
    assert ValueOk("") && MetaOk(None);
    hide PeerHeaderOk, ValueOk, MetaOk, AllowedOk, ExtraOk, KeptLine;
  }

  lemma NewClientOk(net: Net4, net6: Option<S6.Prefix64>, a: nat, q: Request)
    requires net.Valid() && net.ContainsHost(a)
    requires PlainName(q.name) && KeyText(q.publicKey) && KeyText(q.presharedKey) && MetaOk(Some(q.created))
    ensures PeerOk(NewClient(q.publicKey, q.presharedKey, PeerAllowed(a, ClientIp6(net, net6, a)), q.name, q.created))
  {
    hide ClientIp6, PeerAllowed, Reserved, PeerOk, PeerHeaderOk, ValueOk, MetaOk, AllowedOk, PlainName;
    NewClientReserves(net, net6, a, q.publicKey, q.presharedKey, q.name, q.created);
    PlainHeaders();
    NameIsMeta(q.name);
    NewClientParts(q.publicKey, q.presharedKey, PeerAllowed(a, ClientIp6(net, net6, a)), q.name, q.created);
  }

  lemma UpdatedOk(peers: seq<Peer>, i: nat, p: Peer)
    requires PeersOk(peers) && i < |peers| && PeerOk(p)
    ensures PeersOk(peers[i := p])
  {
    hide PeerOk;
  }

  lemma OneMoreOk(peers: seq<Peer>, p: Peer)
    requires PeersOk(peers) && PeerOk(p)
    ensures PeersOk(peers + [p])
  {
    hide PeerOk;
  }

  lemma PeerOf(peers: seq<Peer>, i: nat)
    requires PeersOk(peers) && i < |peers|
    ensures PeerOk(peers[i])
  {
  }

  lemma DropOk(peers: seq<Peer>, i: nat)
    requires PeersOk(peers) && i < |peers|
    ensures PeersOk(peers[..i] + peers[i + 1..])
  {
    hide PeerOk;
  }

  lemma PeerEditsOk(p: Peer, text: string, key: string, psk: string)
    requires PeerOk(p)
    ensures MetaOk(Some(text)) ==> PeerOk(p.(name := Some(text))) && PeerOk(p.(disabledAt := Some(text)))
    ensures PeerOk(p.(disabledAt := None))
    ensures KeyText(key) && KeyText(psk) ==> PeerOk(p.(publicKey := key, presharedKey := Some(psk)))
  {
    hide PeerHeaderOk, AllowedOk, KeptLine, ExtraOk;
  }

  lemma BareOf(peers: seq<Peer>, i: nat)
    requires i < |peers|
    ensures BarePeers(peers)[i] == BarePeer(peers[i]) && BarePeers(peers)[i].publicKey == peers[i].publicKey
  {
  }

  /** Names apart, a bare list is the list. */
  lemma BareKeeps(peers: seq<Peer>)
    ensures UsedHosts(BarePeers(peers)) == UsedHosts(peers)
    ensures forall key :: KeyUnused(BarePeers(peers), key) <==> KeyUnused(peers, key)
  {
    assert forall i :: 0 <= i < |peers| ==> BarePeers(peers)[i].publicKey == peers[i].publicKey;
    forall i | 0 <= i < |peers| ensures Reserved(BarePeers(peers)[i]) == Reserved(peers[i]) {
    }
    hide Reserved;
    SameReservedSameUsed(BarePeers(peers), peers);
  }

  // ------------------------------------------------------------------ every edit keeps the list good

  lemma DropKeepsGood(peers: seq<Peer>, i: nat)
    requires i < |peers| && Good(peers)
    ensures Good(peers[..i] + peers[i + 1..])
  {
    hide PeersOk, Sound;
    BareDropped(peers, i);
    DropOk(BarePeers(peers), i);
    DropKeepsSound(BarePeers(peers), i);
  }

  lemma {:induction false} RemoveManyKeepsGood(peers: seq<Peer>, names: seq<string>)
    requires Good(peers)
    ensures Good(RemoveClients(peers, names))
    decreases |names|
  {
    hide Good, Find, RemoveEqual;
    if names != [] {
      RemoveSays(peers, names[0]);
      var i := Find(peers, names[0]);
      if i < |peers| {
        DropKeepsGood(peers, i);
        RemoveManyKeepsGood(peers[..i] + peers[i + 1..], names[1..]);
      } else {
        RemoveManyKeepsGood(peers, names[1..]);
      }
    }
  }

  lemma SwitchedBare(p: Peer, enabled: bool, stamp: string)
    ensures BarePeer(Switched(p, enabled, stamp)) == Switched(BarePeer(p), enabled, stamp)
  {
  }

  lemma SwitchKeepsGood(peers: seq<Peer>, i: nat, enabled: bool, stamp: string)
    requires Good(peers) && i < |peers| && MetaOk(Some(stamp))
    ensures Good(peers[i := Switched(peers[i], enabled, stamp)])
  {
    hide PeersOk, PeerOk, Sound, MetaOk, BarePeer;
    var bare := BarePeers(peers);
    BareReplaced(peers, i, Switched(peers[i], enabled, stamp));
    SwitchedBare(peers[i], enabled, stamp);
    BareOf(peers, i);
    PeerOf(bare, i);
    PeerEditsOk(bare[i], stamp, "", "");
    UpdatedOk(bare, i, Switched(bare[i], enabled, stamp));
    SwitchKeepsSound(bare, i, enabled, stamp);
  }

  lemma {:induction false} SwitchManyKeepsGood(peers: seq<Peer>, names: seq<string>, enabled: bool, stamp: string)
    requires Good(peers) && MetaOk(Some(stamp))
    ensures Good(SetManyEnabled(peers, names, enabled, stamp))
    decreases |names|
  {
    hide Good, Find, Switched, MetaOk;
    if names != [] {
      var i := Find(peers, names[0]);
      if names[0] != "" && i < |peers| {
        SwitchKeepsGood(peers, i, enabled, stamp);
        SwitchManyKeepsGood(peers[i := Switched(peers[i], enabled, stamp)], names[1..], enabled, stamp);
      } else {
        SwitchManyKeepsGood(peers, names[1..], enabled, stamp);
      }
    }
  }

  lemma ResetBare(p: Peer, publicKey: string, presharedKey: string)
    ensures BarePeer(p.(publicKey := publicKey, presharedKey := Some(presharedKey)))
            == BarePeer(p).(publicKey := publicKey, presharedKey := Some(presharedKey))
  {
  }

  lemma ResetKeepsGood(peers: seq<Peer>, i: nat, publicKey: string, presharedKey: string)
    requires Good(peers) && i < |peers| && KeyText(publicKey) && KeyText(presharedKey) && KeyUnused(peers, publicKey)
    requires Keyed(peers[i])
    ensures Good(peers[i := peers[i].(publicKey := publicKey, presharedKey := Some(presharedKey))])
  {
    hide PeersOk, PeerOk, Sound, ValueOk, BarePeer, KeyUnused;
    var bare := BarePeers(peers);
    BareReplaced(peers, i, peers[i].(publicKey := publicKey, presharedKey := Some(presharedKey)));
    ResetBare(peers[i], publicKey, presharedKey);
    BareOf(peers, i);
    BareKeeps(peers);
    PeerOf(bare, i);
    PeerEditsOk(bare[i], "", publicKey, presharedKey);
    UpdatedOk(bare, i, bare[i].(publicKey := publicKey, presharedKey := Some(presharedKey)));
    ResetKeepsSound(bare, i, publicKey, presharedKey);
  }

  lemma RenamedBare(p: Peer, to: string)
    ensures BarePeer(p.(name := Some(to))) == BarePeer(p).(name := Some(Bare(to)))
  {
  }

  /** The list a rename writes, with its names bare: it reads back whatever it says. */
  lemma RenamedList(peers: seq<Peer>, i: nat, to: string)
    requires Good(peers) && i < |peers| && ValidName(to)
    ensures var after := peers[i := peers[i].(name := Some(to))];
            && BarePeers(after) == BarePeers(peers)[i := BarePeers(peers)[i].(name := Some(Bare(to)))]
            && PeersOk(BarePeers(after)) && EnabledSet(BarePeers(after)) == EnabledSet(BarePeers(peers))
  {
    hide PeersOk, PeerOk, Sound, BarePeer, PlainName, MetaOk, EnabledSet, Bare;
    var bare := BarePeers(peers);
    BareReplaced(peers, i, peers[i].(name := Some(to)));
    RenamedBare(peers[i], to);
    BareOf(peers, i);
    PeerOf(bare, i);
    NameIsMeta(Bare(to));
    PeerEditsOk(bare[i], Bare(to), "", "");
    UpdatedOk(bare, i, bare[i].(name := Some(Bare(to))));
    RenamedSet(bare, i, Bare(to));
  }

  lemma NameIsBare(peers: seq<Peer>, i: nat, from: string)
    requires i < |peers| && Answers(peers[i], from)
    ensures Answers(BarePeers(peers)[i], Bare(from))
  {
  }

  /** A rename through any list leaves it good exactly when the new name is clear in the list as it is
      read. */
  lemma RenameKeepsGood(peers: seq<Peer>, from: string, to: string)
    requires Good(peers) && ValidName(to) && RenameClient(peers, from, to).Done?
    ensures Good(RenameClient(peers, from, to).value) <==> NameClear(BarePeers(peers), to, Some(from))
    ensures NamesDistinct(BarePeers(RenameClient(peers, from, to).value)) <==> NameClear(BarePeers(peers), to, Some(from))
  {
    hide PeersOk, BarePeer, PlainName, Bare, EnabledSet, NoSharedAddress, KeysDistinct;
    var bare, i := BarePeers(peers), Find(peers, from);
    RenamedList(peers, i, to);
    NameIsBare(peers, i, from);
    RenameInPlace(bare, i, Bare(to));
  }

  /** Giving the i-th keyed peer a name keeps a list sound exactly when it had it or nobody has. */
  lemma RenameInPlace(peers: seq<Peer>, i: nat, to: string)
    requires Sound(peers) && i < |peers| && Keyed(peers[i])
    ensures Sound(peers[i := peers[i].(name := Some(to))]) <==> peers[i].name == Some(to) || !Exists(peers, to)
    ensures NamesDistinct(peers[i := peers[i].(name := Some(to))]) <==> peers[i].name == Some(to) || !Exists(peers, to)
  {
    hide Reserved;
    var after := peers[i := peers[i].(name := Some(to))];
    UpdateKeepsAddresses(peers, i, peers[i].(name := Some(to)));
    var j := Find(peers, to);
    if j < |peers| {
      if peers[i].name == Some(to) {
        assert after == peers;
      } else {
        SharedName(after, i, j);
      }
    } else {
      assert forall k :: 0 <= k < |peers| ==> !Answers(peers[k], to);
      assert KeysDistinct(after);
    }
  }

  lemma SharedName(peers: seq<Peer>, i: nat, j: nat)
    requires i < |peers| && j < |peers| && i != j && Keyed(peers[i]) && Keyed(peers[j])
    requires peers[i].name.Some? && peers[i].name == peers[j].name
    ensures !NamesDistinct(peers)
  {
    var a, b := if i < j then i else j, if i < j then j else i;
    assert peers[a].name == peers[b].name;
  }

  lemma NewClientBare(q: Request, allowed: string)
    ensures BarePeer(NewClient(q.publicKey, q.presharedKey, allowed, q.name, q.created))
            == NewClient(q.publicKey, q.presharedKey, allowed, Bare(q.name), q.created)
  {
  }

  lemma AddDone(peers: seq<Peer>, net: Net4, net6: Option<S6.Prefix64>, q: Request)
    requires net.Valid() && AddClient(peers, net, net6, q.name, q.publicKey, q.presharedKey, q.created).Done?
    ensures var (after, a) := AddClient(peers, net, net6, q.name, q.publicKey, q.presharedKey, q.created).value;
            && net.ContainsHost(a) && IsLowestFree(net, UsedHosts(peers), Some(a))
            && after == peers + [NewClient(q.publicKey, q.presharedKey, PeerAllowed(a, ClientIp6(net, net6, a)), q.name, q.created)]
  {
    hide Exists, PeerAllowed, ClientIp6, LowestFree, UsedHosts, NewClient, IsLowestFree;
    LowestFreeSays(net, UsedHosts(peers));
    FreeIsHost(net, UsedHosts(peers), LowestFree(net, UsedHosts(peers)).value);
  }

  /** The list an add writes, with its names bare: one peer more, which reads back whatever it says. */
  lemma AddedList(peers: seq<Peer>, net: Net4, net6: Option<S6.Prefix64>, q: Request)
    requires net.Valid() && Good(peers) && Supplied(peers, Add(q))
    requires AddClient(peers, net, net6, q.name, q.publicKey, q.presharedKey, q.created).Done?
    ensures var (after, a) := AddClient(peers, net, net6, q.name, q.publicKey, q.presharedKey, q.created).value;
            && net.ContainsHost(a) && IsLowestFree(net, UsedHosts(BarePeers(peers)), Some(a)) && PeersOk(BarePeers(after))
            && BarePeers(after) == BarePeers(peers) + [NewClient(q.publicKey, q.presharedKey,
                                                                 PeerAllowed(a, ClientIp6(net, net6, a)), Bare(q.name), q.created)]
  {
    hide AddClient, PeersOk, PeerOk, PeerAllowed, ClientIp6, UsedHosts, Bare, BarePeer, BarePeers, PlainName, MetaOk;
    hide KeyText, KeyUnused, NewClient, IsLowestFree, Sound;
    AddDone(peers, net, net6, q);
    BareKeeps(peers);
    var a := AddClient(peers, net, net6, q.name, q.publicKey, q.presharedKey, q.created).value.1;
    var allowed := PeerAllowed(a, ClientIp6(net, net6, a));
    BareAppended(peers, NewClient(q.publicKey, q.presharedKey, allowed, q.name, q.created));
    NewClientBare(q, allowed);
    NewClientOk(net, net6, a, q.(name := Bare(q.name)));
    OneMoreOk(BarePeers(peers), NewClient(q.publicKey, q.presharedKey, allowed, Bare(q.name), q.created));
  }

  lemma FreeIsHost(net: Net4, used: set<nat>, a: nat)
    requires net.Valid() && IsLowestFree(net, used, Some(a))
    ensures net.ContainsHost(a) && a !in used
  {
  }

  /** An add through any list leaves it good exactly when the name is clear in the list as it is read. */
  lemma AddKeepsGood(peers: seq<Peer>, net: Net4, net6: Option<S6.Prefix64>, q: Request)
    requires net.Valid() && Good(peers) && Supplied(peers, Add(q))
    requires AddClient(peers, net, net6, q.name, q.publicKey, q.presharedKey, q.created).Done?
    ensures Good(AddClient(peers, net, net6, q.name, q.publicKey, q.presharedKey, q.created).value.0)
            <==> NameClear(BarePeers(peers), q.name, None)
    ensures NamesDistinct(BarePeers(AddClient(peers, net, net6, q.name, q.publicKey, q.presharedKey, q.created).value.0))
            <==> NameClear(BarePeers(peers), q.name, None)
  {
    hide NamesDistinct, PeersOk, AddClient, BarePeer, BarePeers, PlainName, Bare, Exists, MetaOk, KeyText, KeyUnused, PeerAllowed, ClientIp6;
    hide Sound, NewClient, IsLowestFree, UsedHosts, Reserved;
    var bare := BarePeers(peers);
    AddedList(peers, net, net6, q);
    BareKeeps(peers);
    var a := AddClient(peers, net, net6, q.name, q.publicKey, q.presharedKey, q.created).value.1;
    FreeIsHost(net, UsedHosts(bare), a);
    var allowed := PeerAllowed(a, ClientIp6(net, net6, a));
    NewClientReserves(net, net6, a, q.publicKey, q.presharedKey, Bare(q.name), q.created);
    NewClientFields(q.publicKey, q.presharedKey, allowed, Bare(q.name), q.created);
    assert Keyed(NewClient(q.publicKey, q.presharedKey, allowed, Bare(q.name), q.created)) by { KeyTextKeyed(q); }
    OneMoreSound(bare, NewClient(q.publicKey, q.presharedKey, allowed, Bare(q.name), q.created), a, Bare(q.name));
  }

  lemma KeyTextKeyed(q: Request)
    requires KeyText(q.publicKey)
    ensures q.publicKey != ""
  {
  }

  /** One keyed peer more, on an address nobody reserves and under a key nobody has. */
  lemma OneMoreSound(peers: seq<Peer>, p: Peer, a: nat, name: string)
    requires Sound(peers) && Reserved(p) == {a} && a !in UsedHosts(peers) && KeyUnused(peers, p.publicKey)
    requires Keyed(p) && p.name == Some(name)
    ensures Sound(peers + [p]) <==> !Exists(peers, name)
    ensures NamesDistinct(peers + [p]) <==> !Exists(peers, name)
  {
    hide Reserved;
    var after, n := peers + [p], |peers|;
    assert forall i :: 0 <= i < n ==> after[i] == peers[i];
    forall i | 0 <= i < n ensures Reserved(after[i]) !! Reserved(after[n]) {
      UsedHostsHas(peers, i);
    }
    var i := Find(peers, name);
    if i < n {
      SharedName(after, i, n);
    } else {
      assert forall k :: 0 <= k < n ==> !Answers(peers[k], name);
    }
  }

  /** Every mutation, from any good list: what it writes is good too, exactly when the name it gives out
      is clear in the list as it is read. */
  lemma EditKeepsGood(peers: seq<Peer>, net: Net4, net6: Option<S6.Prefix64>, op: Op)
    requires net.Valid() && Good(peers) && Supplied(peers, op) && Edited(peers, net, net6, op).Some?
    ensures Good(Edited(peers, net, net6, op).value.0) <==> NewNameClear(BarePeers(peers), op)
    ensures NamesDistinct(BarePeers(Edited(peers, net, net6, op).value.0)) <==> NewNameClear(BarePeers(peers), op)
    ensures PeersOk(BarePeers(Edited(peers, net, net6, op).value.0))
    ensures !Edited(peers, net, net6, op).value.1 ==>
              EnabledSet(BarePeers(Edited(peers, net, net6, op).value.0)) == EnabledSet(BarePeers(peers))
  {
    hide Good, NamesDistinct, PeersOk, AddClient, BarePeers, EnabledSet, NameClear, KeyText, MetaOk, PlainName, Find, RemoveEqual, Switched, KeyUnused;
    match op
    case Add(q) =>
      AddKeepsGood(peers, net, net6, q);
      AddedList(peers, net, net6, q);
    case Remove(name) =>
      RemoveSays(peers, name);
      DropKeepsGood(peers, Find(peers, name));
      GoodReads(peers[..Find(peers, name)] + peers[Find(peers, name) + 1..]);
    case RemoveMany(names) =>
      RemoveManyKeepsGood(peers, names);
      GoodReads(RemoveClients(peers, names));
    case Rename(from, to) =>
      RenameKeepsGood(peers, from, to);
      RenamedList(peers, Find(peers, from), to);
    case Switch(name, enabled, stamp) =>
      var i := Find(peers, name);
      SwitchKeepsGood(peers, i, enabled, stamp);
      GoodReads(peers[i := Switched(peers[i], enabled, stamp)]);
    case SwitchMany(names, enabled, stamp) =>
      SwitchManyKeepsGood(peers, names, enabled, stamp);
      GoodReads(SetManyEnabled(peers, names, enabled, stamp));
    case Reset(name, publicKey, presharedKey) =>
      var i := Find(peers, name);
      ResetKeepsGood(peers, i, publicKey, presharedKey);
      GoodReads(peers[i := peers[i].(publicKey := publicKey, presharedKey := Some(presharedKey))]);
  }

  lemma GoodReads(peers: seq<Peer>)
    requires Good(peers)
    ensures PeersOk(BarePeers(peers)) && NamesDistinct(BarePeers(peers))
  {
  }

  /** A rename is invisible to the kernel. */
  lemma {:induction false} RenameUnseen(peers: seq<Peer>, i: nat, name: string)
    requires i < |peers|
    ensures EnabledPeers(peers[i := peers[i].(name := Some(name))]) == EnabledPeers(peers)
  {
    var after := peers[i := peers[i].(name := Some(name))];
    if i == 0 {
      assert after[1..] == peers[1..];
      assert KernelPeer(after[0]) == KernelPeer(peers[0]);
    } else {
      hide KernelPeer;
      assert after[1..] == peers[1..][i - 1 := peers[1..][i - 1].(name := Some(name))];
      RenameUnseen(peers[1..], i - 1, name);
    }
  }

  lemma RenamedSet(peers: seq<Peer>, i: nat, name: string)
    requires i < |peers|
    ensures EnabledSet(peers[i := peers[i].(name := Some(name))]) == EnabledSet(peers)
  {
    RenameUnseen(peers, i, name);
  }

  // ------------------------------------------------------------------ the server

  /** The config file, whether the interface is up, the peers the kernel holds, by key, and what the
      file was last printed from, if the panel wrote it. */
  datatype Server = Server(text: string, up: bool, kernel: map<string, Peer>, kept: Option<Conf>) {
    /** What a fresh reading of the file finds. */
    function Peers(): seq<Peer> {
      Parse(text).peers
    }

    /** What a read hands out: to the thread that wrote the file its own object, to any other a parse. */
    function Read(own: bool): Conf {
      if own && kept.Some? then kept.value else Parse(text)
    }
  }

  /** syncconf: the kernel is given the stripped text and holds what it parses there. */
  function Synced(c: Conf): map<string, Peer> {
    ByKey(Parse(StripConf(c, {})).peers)
  }

  /** The end of a mutation: hooks, file, the object kept, and for all but a rename the kernel if there
      is one. */
  function Commit(s: Server, read: Conf, peers: seq<Peer>, live: bool): Server {
    var c := WithHooks(read.(peers := peers));
    s.(text := Render(c), kept := Some(c), kernel := if live && s.up then Synced(c) else s.kernel)
  }

  /** A bring-up loads every keyed peer of the file; the re-assertion after it takes back the ones
      that are switched off. */
  function BroughtUp(s: Server): Server {
    s.(up := true, kernel := ByKey(KeyedPeers(s.Peers())))
  }

  function Reasserted(s: Server, own: bool): Server {
    if s.up then s.(kernel := Synced(s.Read(own))) else s
  }

  /** One call, by the thread that wrote the file last or by another. */
  function Apply(s: Server, net: Net4, net6: Option<S6.Prefix64>, op: Op, own: bool): Server
    requires net.Valid()
  {
    match op
    case Start => Reasserted(if s.up then s else BroughtUp(s), own)
    case Stop => s.(up := false, kernel := map[])
    case Restart => Reasserted(BroughtUp(s.(up := false, kernel := map[])), own)
    case _ =>
      match Edited(s.Read(own).peers, net, net6, op)
      case Some((peers, live)) => Commit(s, s.Read(own), peers, live)
      case None => s
  }

  /** What a call has to meet: what it is supplied with is right, and if it goes through, the name it
      gives out is clear in a fresh reading of the file. */
  predicate OpOk(s: Server, net: Net4, net6: Option<S6.Prefix64>, op: Op, own: bool)
    requires net.Valid()
  {
    Supplied(s.Peers(), op) && (Edited(s.Read(own).peers, net, net6, op).Some? ==> NewNameClear(s.Peers(), op))
  }

  ghost predicate Inv(s: Server) {
    && Sound(s.Peers()) && KeptOk(s)
    && s.kernel == if s.up then EnabledSet(s.Peers()) else map[]
  }

  /** The object kept is what the file was printed from. */
  predicate KeptOk(s: Server) {
    s.kept.Some? ==> ConfOk(BareConf(s.kept.value)) && s.text == Render(s.kept.value)
  }

  lemma InvHas(s: Server)
    requires Inv(s)
    ensures KeptOk(s) && Sound(s.Peers())
  {
  }

  ghost predicate Run(states: seq<Server>, calls: seq<(Op, bool)>, net: Net4, net6: Option<S6.Prefix64>)
    requires net.Valid()
  {
    && |states| == |calls| + 1
    && forall i :: 0 <= i < |calls| ==>
         && OpOk(states[i], net, net6, calls[i].0, calls[i].1)
         && states[i + 1] == Apply(states[i], net, net6, calls[i].0, calls[i].1)
  }

  lemma ParsedPeersOk(text: string)
    ensures PeersOk(Parse(text).peers) && ConfOk(Parse(text)) && BareConf(Parse(text)) == Parse(text)
  {
    hide Parse, PeerOk;
    ParseOk(text);
    BarePeersOfOk(Parse(text).peers);
  }

  /** Either reading shows the file's peers: line feeds at the end of names and blanks around AllowedIPs
      apart they are the same. */
  lemma ReadSays(s: Server, own: bool)
    requires KeptOk(s)
    ensures ConfOk(BareConf(s.Read(own)))
    ensures NormPeers(BarePeers(s.Read(own).peers)) == NormPeers(s.Peers())
  {
    hide Parse, Render, ConfOk;
    ParsedPeersOk(s.text);
    if own && s.kept.Some? {
      ReadsBackBare(s.kept.value);
      NormPeersTwice(BarePeers(s.kept.value.peers));
    }
  }

  lemma NormKeepsNames(peers: seq<Peer>)
    ensures forall i :: 0 <= i < |peers| ==>
              NormPeers(peers)[i].name == peers[i].name && NormPeers(peers)[i].publicKey == peers[i].publicKey
  {
    hide Strip;
  }

  /** The same names in the same order under the same keys: the same answers. */
  lemma SameNamesSameAnswers(a: seq<Peer>, b: seq<Peer>)
    requires |a| == |b| && forall i :: 0 <= i < |a| ==> a[i].name == b[i].name && a[i].publicKey == b[i].publicKey
    ensures forall name :: Find(a, name) == Find(b, name) && Exists(a, name) == Exists(b, name)
    ensures forall key :: KeyUnused(a, key) <==> KeyUnused(b, key)
  {
    forall name ensures Find(a, name) == Find(b, name) {
      assert forall i :: 0 <= i < |a| ==> (Answers(a[i], name) <==> Answers(b[i], name));
    }
  }

  lemma NormAnswers(a: seq<Peer>, b: seq<Peer>)
    requires NormPeers(a) == NormPeers(b)
    ensures forall name :: Find(a, name) == Find(b, name) && Exists(a, name) == Exists(b, name)
    ensures forall key :: KeyUnused(a, key) <==> KeyUnused(b, key)
  {
    NormKeepsNames(a);
    NormKeepsNames(b);
    hide NormPeers;
    SameNamesSameAnswers(a, b);
  }

  /** What a call finds, whichever reading it starts from: a good list that says of names, keys and the
      kernel what the file says. */
  lemma ReadIsGood(s: Server, own: bool)
    requires KeptOk(s) && Sound(s.Peers())
    ensures var peers := s.Read(own).peers;
            && Good(peers) && EnabledSet(BarePeers(peers)) == EnabledSet(s.Peers())
            && (forall name :: Exists(BarePeers(peers), name) == Exists(s.Peers(), name))
            && (forall key :: KeyUnused(peers, key) <==> KeyUnused(s.Peers(), key))
            && UsedHosts(peers) == UsedHosts(s.Peers())
  {
    hide Parse, Render, PeerOk, Sound, EnabledSet, KeyUnused, Exists, UsedHosts, NormPeers, Server.Read, KeptOk;
    ReadSays(s, own);
    ParsedPeersOk(s.text);
    var bare := BarePeers(s.Read(own).peers);
    assert PeersOk(bare);
    NormKeepsSound(bare);
    NormKeepsSound(s.Peers());
    NormReserves(bare);
    NormReserves(s.Peers());
    EnabledSetOfNorm(bare);
    EnabledSetOfNorm(s.Peers());
    NormAnswers(bare, s.Peers());
    BareKeeps(s.Read(own).peers);
  }

  lemma WithPeersOk(c: Conf, peers: seq<Peer>)
    requires ConfOk(c) && PeersOk(peers)
    ensures ConfOk(WithHooks(c.(peers := peers))) && WithHooks(c.(peers := peers)).peers == peers
  {
    hide PeerOk, ItemOk, EnsureHooks;
    WithHooksOk(c.(peers := peers));
  }

  lemma SyncedIsEnabled(c: Conf)
    requires ConfOk(BareConf(c))
    ensures Synced(c) == EnabledSet(BarePeers(c.peers))
  {
    hide ConfOk, Parse, StripConf;
    StripConfBare(c, {});
    StripReadsBack(BareConf(c), {});
  }

  /** What a commit leaves: the file says the peers that were meant, their names bare, and the kernel, if
      it was told, holds exactly those of them that are switched on. */
  lemma CommitSays(s: Server, read: Conf, peers: seq<Peer>, live: bool)
    requires ConfOk(BareConf(read)) && PeersOk(BarePeers(peers))
    ensures var s' := Commit(s, read, peers, live);
            && s'.Peers() == NormPeers(BarePeers(peers)) && s'.up == s.up && KeptOk(s')
            && (live && s.up ==> s'.kernel == EnabledSet(s'.Peers()))
            && (!(live && s.up) ==> s'.kernel == s.kernel)
  {
    hide Parse, Render, PeerOk, ConfOk, EnabledSet, Synced, NormPeers, EnsureHooks;
    WithPeersOk(BareConf(read), BarePeers(peers));
    var c := WithHooks(read.(peers := peers));
    assert BareConf(c) == WithHooks(BareConf(read).(peers := BarePeers(peers)));
    ReadsBackBare(c);
    SyncedIsEnabled(c);
    EnabledSetOfNorm(BarePeers(peers));
  }

  lemma EnabledSetOfNorm(peers: seq<Peer>)
    ensures EnabledSet(NormPeers(peers)) == EnabledSet(peers)
  {
    EnabledOfNorm(peers);
  }

  /** A commit of peers that read back keeps everything exactly when the list is good. */
  lemma CommitKeeps(s: Server, read: Conf, peers: seq<Peer>, live: bool)
    requires Inv(s) && ConfOk(BareConf(read)) && PeersOk(BarePeers(peers))
    requires !live ==> EnabledSet(BarePeers(peers)) == EnabledSet(s.Peers())
    ensures Inv(Commit(s, read, peers, live)) <==> Good(peers)
    ensures NamesDistinct(Commit(s, read, peers, live).Peers()) <==> NamesDistinct(BarePeers(peers))
  {
    NormKeepsNames(BarePeers(peers));
    hide Parse, Commit, ConfOk, PeerOk, EnabledSet, NormPeers, Sound, KeptOk;
    CommitSays(s, read, peers, live);
    NormKeepsSound(BarePeers(peers));
    EnabledSetOfNorm(BarePeers(peers));
  }

  // ------------------------------------------------------------------ every run

  lemma SuppliedSame(a: seq<Peer>, b: seq<Peer>, op: Op)
    requires forall key :: KeyUnused(a, key) <==> KeyUnused(b, key)
    ensures Supplied(a, op) <==> Supplied(b, op)
  {
    hide KeyUnused, KeyText, MetaOk, PlainName;
  }

  lemma ClearSame(a: seq<Peer>, b: seq<Peer>, op: Op)
    requires forall name :: Exists(a, name) == Exists(b, name)
    ensures NewNameClear(a, op) <==> NewNameClear(b, op)
  {
    hide Exists, Bare;
  }

  predicate IsEdit(op: Op) {
    !op.Start? && !op.Stop? && !op.Restart?
  }

  /** One mutation that goes through, from either reading, keeps names, keys and addresses apart and the
      kernel in step exactly when the name it gives out is clear in a fresh reading of the file. */
  lemma EditIsExact(s: Server, net: Net4, net6: Option<S6.Prefix64>, op: Op, own: bool)
    requires net.Valid() && Inv(s) && IsEdit(op) && Supplied(s.Peers(), op)
    requires Edited(s.Read(own).peers, net, net6, op).Some?
    ensures Inv(Apply(s, net, net6, op, own)) <==> NewNameClear(s.Peers(), op)
    ensures NamesDistinct(Apply(s, net, net6, op, own).Peers()) <==> NewNameClear(s.Peers(), op)
  {
    hide NamesDistinct, Parse, Commit, Edited, Good, PeersOk, Sound, EnabledSet, ConfOk, Supplied, NewNameClear, KeptOk, Server.Read, KeyUnused;
    var peers := s.Read(own).peers;
    ReadSays(s, own);
    ReadIsGood(s, own);
    SuppliedSame(peers, s.Peers(), op);
    ClearSame(BarePeers(peers), s.Peers(), op);
    EditKeepsGood(peers, net, net6, op);
    var (after, live) := Edited(peers, net, net6, op).value;
    CommitKeeps(s, s.Read(own), after, live);
  }

  lemma ApplyPowerKeeps(s: Server, net: Net4, net6: Option<S6.Prefix64>, op: Op, own: bool)
    requires net.Valid() && Inv(s) && !IsEdit(op)
    ensures Inv(Apply(s, net, net6, op, own))
  {
    hide Parse, ConfOk, PeerOk, Synced, EnabledSet, Sound, ByKey, KeyedPeers, Render, Good, Edited;
    ReadSays(s, own);
    ReadIsGood(s, own);
    SyncedIsEnabled(s.Read(own));
  }

  lemma ApplyKeeps(s: Server, net: Net4, net6: Option<S6.Prefix64>, op: Op, own: bool)
    requires net.Valid() && Inv(s) && OpOk(s, net, net6, op, own)
    ensures Inv(Apply(s, net, net6, op, own))
  {
    hide Inv, Edited, Supplied, NewNameClear, Server.Read;
    if !IsEdit(op) {
      ApplyPowerKeeps(s, net, net6, op, own);
    } else if Edited(s.Read(own).peers, net, net6, op).Some? {
      EditIsExact(s, net, net6, op, own);
    }
  }

  /** Over every run of adds, removals, renames, switches, key resets, starts, stops and restarts, each
      by the thread that wrote the file last or by another: no address is spoken for twice, no two
      clients share a name or a key, and while the interface is up the kernel holds exactly the clients
      that are switched on, with their own settings. */
  lemma {:induction false} EveryRunKeeps(states: seq<Server>, calls: seq<(Op, bool)>, net: Net4, net6: Option<S6.Prefix64>,
                                         n: nat)
    requires net.Valid() && Run(states, calls, net, net6) && Inv(states[0]) && n < |states|
    ensures Sound(states[n].Peers())
    ensures states[n].kernel == if states[n].up then EnabledSet(states[n].Peers()) else map[]
    ensures Inv(states[n])
  {
    hide Apply, OpOk, Sound, EnabledSet, KeptOk;
    if n > 0 {
      EveryRunKeeps(states, calls, net, net6, n - 1);
      ApplyKeeps(states[n - 1], net, net6, calls[n - 1].0, calls[n - 1].1);
    }
  }

  lemma SwitchedOffNotHeld(peers: seq<Peer>, i: nat)
    requires KeysDistinct(peers) && i < |peers| && Keyed(peers[i]) && peers[i].disabledAt.Some?
    ensures peers[i].publicKey !in EnabledSet(peers)
  {
    hide EnabledSet;
    EnabledSetSays(peers);
  }

  /** Why every bring-up is followed by a sync: on its own it lets a switched-off client back in. */
  lemma BringUpAloneReadmits(s: Server, i: nat, own: bool)
    requires KeptOk(s) && Sound(s.Peers())
    requires i < |s.Peers()| && Keyed(s.Peers()[i]) && s.Peers()[i].disabledAt.Some?
    ensures s.Peers()[i].publicKey in BroughtUp(s).kernel
    ensures s.Peers()[i].publicKey !in Reasserted(BroughtUp(s), own).kernel
  {
    hide Parse, ConfOk, PeerOk, Synced, ByKey, KeyedPeers, EnabledSet, KeysDistinct, NoSharedAddress, NamesDistinct, Render, Good;
    var peers := s.Peers();
    ReadSays(s, own);
    ReadIsGood(s, own);
    SyncedIsEnabled(s.Read(own));
    SwitchedOffNotHeld(peers, i);
    KeyedHas(peers, i);
    var k :| 0 <= k < |KeyedPeers(peers)| && KeyedPeers(peers)[k].publicKey == peers[i].publicKey;
    ByKeyHas(KeyedPeers(peers), k);
  }

  lemma {:induction false} KeyedHas(peers: seq<Peer>, i: nat)
    requires i < |peers| && Keyed(peers[i])
    ensures exists k :: 0 <= k < |KeyedPeers(peers)| && KeyedPeers(peers)[k].publicKey == peers[i].publicKey
  {
    hide KernelPeer;
    if i == 0 {
      assert KeyedPeers(peers)[0].publicKey == peers[0].publicKey by {
        KernelKey(peers[0]);
      }
    } else {
      KeyedHas(peers[1..], i - 1);
      var k :| 0 <= k < |KeyedPeers(peers[1..])| && KeyedPeers(peers[1..])[k].publicKey == peers[i].publicKey;
      var shift := if Keyed(peers[0]) then 1 else 0;
      assert KeyedPeers(peers)[k + shift] == KeyedPeers(peers[1..])[k];
    }
  }

  lemma KernelKey(p: Peer)
    ensures KernelPeer(p).publicKey == p.publicKey
  {
  }

  lemma {:induction false} ByKeyHas(peers: seq<Peer>, k: nat)
    requires k < |peers|
    ensures peers[k].publicKey in ByKey(peers)
    decreases |peers|
  {
    hide KernelPeer;
    if k < |peers| - 1 {
      ByKeyHas(peers[..|peers| - 1], k);
    }
  }
}
