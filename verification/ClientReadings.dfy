/** The two readings a mutation may start from: the file's own parse, and the object the thread wrote
    last. Where no name ends in a line feed it makes no difference which. */
module ClientReadings {
  import opened Text
  import opened Config
  import opened ConfRoundTrip
  import opened NameBreaks
  import opened Subnet
  import opened Clients
  import opened ClientRuns
  import P = PrivateCaches
  import S6 = Subnet6

  /** What any thread is handed in any interleaving is one of the two readings. */
  lemma EveryReadIsOne(states: seq<P.World>, steps: seq<P.Step>, n: nat, up: bool, kernel: map<string, Peer>)
    returns (s: Server, own: bool)
    requires P.Run(states, steps) && n < |steps| && steps[n].Read?
    ensures states[n].file == Some(s.text) && s.up == up && s.kernel == kernel && KeptOk(s)
    ensures s.Read(own) == states[n + 1].heap[steps[n].ref]
  {
    hide P.Observe, Parse, Render, ConfOk, NamesWhole;
    P.EveryReadIsFresh(states, steps, n);
    var c, text := states[n + 1].heap[steps[n].ref], states[n].file.value;
    if c == Parse(text) {
      s, own := Server(text, up, kernel, None), false;
    } else {
      s, own := Server(text, up, kernel, Some(c)), true;
    }
  }

  // ------------------------------------------------------------------ what can be told of two states

  /** The same to a fresh reading of the file and to the kernel. */
  predicate SameState(a: Server, b: Server) {
    a.Peers() == b.Peers() && a.up == b.up && a.kernel == b.kernel
  }

  /** Two commits of lists that read back alike. */
  lemma CommitsAlike(s: Server, r: Conf, a: seq<Peer>, q: Conf, b: seq<Peer>, live: bool)
    requires ConfOk(BareConf(r)) && PeersOk(BarePeers(a)) && ConfOk(BareConf(q)) && PeersOk(BarePeers(b))
    requires NormPeers(BarePeers(a)) == NormPeers(BarePeers(b))
    ensures SameState(Commit(s, r, a, live), Commit(s, q, b, live))
  {
    hide Commit, Parse, ConfOk, PeersOk, NormPeers, BarePeers, EnabledSet, KeptOk;
    CommitSays(s, r, a, live);
    CommitSays(s, q, b, live);
  }

  // ------------------------------------------------------------------ line feeds at the end of a name

  /** Adding under a name that ends in a line feed is, to a fresh reading and to the kernel, adding under
      the name without it from the same list. */
  lemma AddBare(s: Server, net: Net4, net6: Option<S6.Prefix64>, q: Request, own: bool)
    requires net.Valid() && Inv(s) && Supplied(s.Peers(), Add(q))
    requires !Exists(s.Read(own).peers, q.name) && !Exists(s.Read(own).peers, Bare(q.name))
    ensures SameState(Apply(s, net, net6, Add(q), own), Apply(s, net, net6, Add(q.(name := Bare(q.name))), own))
  {
    hide Inv, Parse, Commit, AddClient, Supplied, Exists, Bare, BarePeers, NormPeers, Server.Read, Good, KeptOk, ConfOk, PeersOk, EnabledSet;
    hide UsedHosts, NewClient, IsLowestFree, KeyUnused, Sound;
    var peers, bare := s.Read(own).peers, q.(name := Bare(q.name));
    InvHas(s);
    ReadSays(s, own);
    ReadIsGood(s, own);
    SuppliedSame(peers, s.Peers(), Add(q));
    SuppliedBare(peers, q);
    SameOutcome(peers, net, net6, q);
    if AddClient(peers, net, net6, q.name, q.publicKey, q.presharedKey, q.created).Done? {
      AddedList(peers, net, net6, q);
      AddedList(peers, net, net6, bare);
      CommitsAlike(s, s.Read(own), AddClient(peers, net, net6, q.name, q.publicKey, q.presharedKey, q.created).value.0,
                   s.Read(own), AddClient(peers, net, net6, bare.name, q.publicKey, q.presharedKey, q.created).value.0, true);
    } else {
    }
  }

  lemma SuppliedBare(peers: seq<Peer>, q: Request)
    requires Supplied(peers, Add(q))
    ensures Supplied(peers, Add(q.(name := Bare(q.name)))) && Bare(Bare(q.name)) == Bare(q.name)
  {
    BareOfPlain(Bare(q.name));
  }

  lemma SameOutcome(peers: seq<Peer>, net: Net4, net6: Option<S6.Prefix64>, q: Request)
    requires net.Valid() && !Exists(peers, q.name) && !Exists(peers, Bare(q.name))
    ensures var r := AddClient(peers, net, net6, q.name, q.publicKey, q.presharedKey, q.created);
            var b := AddClient(peers, net, net6, Bare(q.name), q.publicKey, q.presharedKey, q.created);
            r.Done? == b.Done? && (r.Done? ==> r.value.1 == b.value.1)
  {
    hide Exists, Bare, LowestFree, UsedHosts, PeerAllowed, ClientIp6;
    LowestFreeSays(net, UsedHosts(peers));
  }

  /** And so is renaming. */
  lemma RenameBare(s: Server, net: Net4, net6: Option<S6.Prefix64>, from: string, to: string, own: bool)
    requires net.Valid() && Inv(s) && ValidName(to)
    requires !Exists(s.Read(own).peers, to) && !Exists(s.Read(own).peers, Bare(to))
    ensures SameState(Apply(s, net, net6, Rename(from, to), own), Apply(s, net, net6, Rename(from, Bare(to)), own))
  {
    hide Inv, Parse, Commit, PlainName, Exists, Find, Bare, BarePeers, NormPeers, Server.Read, Good, KeptOk, ConfOk, PeersOk, EnabledSet;
    hide UsedHosts, KeyUnused, Sound;
    var peers := s.Read(own).peers;
    InvHas(s);
    ReadSays(s, own);
    ReadIsGood(s, own);
    BareOfValid(to);
    var i := Find(peers, from);
    FindBounds(peers, from);
    if i < |peers| {
      FoundExists(peers, to);
      FoundExists(peers, Bare(to));
      RenamedList(peers, i, to);
      RenamedList(peers, i, Bare(to));
      CommitsAlike(s, s.Read(own), peers[i := peers[i].(name := Some(to))],
                   s.Read(own), peers[i := peers[i].(name := Some(Bare(to)))], false);
    }
  }

  lemma FindBounds(peers: seq<Peer>, name: string)
    ensures Find(peers, name) <= |peers|
  {
  }

  lemma FoundExists(peers: seq<Peer>, name: string)
    ensures Exists(peers, name) <==> Find(peers, name) < |peers|
  {
  }

  lemma BareOfValid(name: string)
    requires ValidName(name)
    ensures Bare(Bare(name)) == Bare(name) && ValidName(Bare(name))
  {
    BareOfPlain(Bare(name));
  }

  // ------------------------------------------------------------------ either reading

  /** Two good lists that a fresh reading cannot tell apart, names as they stand included. */
  ghost predicate Alike(a: seq<Peer>, b: seq<Peer>) {
    Good(a) && Good(b) && NormPeers(a) == NormPeers(b)
  }

  /** Position by position. */
  ghost predicate AlikeAt(a: seq<Peer>, b: seq<Peer>) {
    |a| == |b| && forall i :: 0 <= i < |a| ==> NormPeer(a[i]) == NormPeer(b[i])
  }

  lemma AlikeIs(a: seq<Peer>, b: seq<Peer>)
    ensures NormPeers(a) == NormPeers(b) <==> AlikeAt(a, b)
  {
    hide NormPeer;
    if NormPeers(a) == NormPeers(b) {
      assert forall i :: 0 <= i < |a| ==> NormPeers(a)[i] == NormPeer(a[i]) && NormPeers(b)[i] == NormPeer(b[i]);
    }
  }

  lemma AlikeSays(a: seq<Peer>, b: seq<Peer>)
    requires Alike(a, b)
    ensures AlikeAt(a, b) && NormPeers(BarePeers(a)) == NormPeers(BarePeers(b)) && UsedHosts(a) == UsedHosts(b)
    ensures forall name :: Find(a, name) == Find(b, name) && Exists(a, name) == Exists(b, name)
    ensures forall key :: KeyUnused(a, key) <==> KeyUnused(b, key)
  {
    hide Sound, PeersOk, UsedHosts, Find, Exists, KeyUnused, Strip;
    AlikeIs(a, b);
    hide NormPeers, BarePeers, NormPeer;
    BareNorm(a, b);
    NormAnswers(a, b);
    NormReserves(BarePeers(a));
    NormReserves(BarePeers(b));
    BareKeeps(a);
    BareKeeps(b);
  }

  lemma DropAlike(a: seq<Peer>, b: seq<Peer>, i: nat)
    requires NormPeers(a) == NormPeers(b) && i < |a| && |a| == |b|
    ensures NormPeers(a[..i] + a[i + 1..]) == NormPeers(b[..i] + b[i + 1..])
  {
    hide NormPeer;
    AlikeIs(a, b);
    AlikeIs(a[..i] + a[i + 1..], b[..i] + b[i + 1..]);
  }

  lemma ReplaceAlike(a: seq<Peer>, b: seq<Peer>, i: nat, p: Peer, q: Peer)
    requires NormPeers(a) == NormPeers(b) && i < |a| && |a| == |b| && NormPeer(p) == NormPeer(q)
    ensures NormPeers(a[i := p]) == NormPeers(b[i := q])
  {
    hide NormPeer;
    AlikeIs(a, b);
    AlikeIs(a[i := p], b[i := q]);
  }

  lemma AppendAlike(a: seq<Peer>, b: seq<Peer>, p: Peer)
    requires NormPeers(a) == NormPeers(b)
    ensures NormPeers(a + [p]) == NormPeers(b + [p])
  {
    hide NormPeer;
    AlikeIs(a, b);
    AlikeIs(a + [p], b + [p]);
  }

  /** One field of a peer changed the same way on both sides. */
  lemma FieldsAlike(p: Peer, q: Peer, name: string, enabled: bool, stamp: string, publicKey: string, presharedKey: string)
    requires NormPeer(p) == NormPeer(q)
    ensures NormPeer(p.(name := Some(name))) == NormPeer(q.(name := Some(name)))
    ensures NormPeer(Switched(p, enabled, stamp)) == NormPeer(Switched(q, enabled, stamp))
    ensures Switched(p, enabled, stamp) == p <==> Switched(q, enabled, stamp) == q
    ensures NormPeer(p.(publicKey := publicKey, presharedKey := Some(presharedKey)))
            == NormPeer(q.(publicKey := publicKey, presharedKey := Some(presharedKey)))
  {
    hide Strip;
  }

  lemma {:induction false} RemoveManyAlike(a: seq<Peer>, b: seq<Peer>, names: seq<string>)
    requires Alike(a, b)
    ensures Alike(RemoveClients(a, names), RemoveClients(b, names))
    ensures |RemoveClients(a, names)| <= |a| && (|RemoveClients(a, names)| == |a| ==> RemoveClients(a, names) == a)
    decreases |names|
  {
    hide Good, Find, RemoveEqual, NormPeers;
    if names != [] {
      RemoveSays(a, names[0]);
      RemoveSays(b, names[0]);
      AlikeSays(a, b);
      var i := Find(a, names[0]);
      FindBounds(a, names[0]);
      if i < |a| {
        DropAlike(a, b, i);
        DropKeepsGood(a, i);
        DropKeepsGood(b, i);
        RemoveManyAlike(a[..i] + a[i + 1..], b[..i] + b[i + 1..], names[1..]);
      } else {
        RemoveManyAlike(a, b, names[1..]);
      }
    }
  }

  /** Nothing but markers changed. */
  predicate OnlyMarkers(was: seq<Peer>, now: seq<Peer>) {
    |was| == |now| && forall i :: 0 <= i < |was| ==> now[i] == was[i].(disabledAt := now[i].disabledAt)
  }

  lemma {:induction false} SwitchManyAlike(a: seq<Peer>, b: seq<Peer>, names: seq<string>, enabled: bool, stamp: string)
    requires Alike(a, b) && MetaOk(Some(stamp))
    ensures Alike(SetManyEnabled(a, names, enabled, stamp), SetManyEnabled(b, names, enabled, stamp))
    ensures OnlyMarkers(a, SetManyEnabled(a, names, enabled, stamp)) && OnlyMarkers(b, SetManyEnabled(b, names, enabled, stamp))
    decreases |names|
  {
    hide Good, Find, NormPeers, MetaOk, NormPeer;
    if names != [] {
      AlikeSays(a, b);
      var i := Find(a, names[0]);
      FindBounds(a, names[0]);
      if names[0] != "" && i < |a| {
        FieldsAlike(a[i], b[i], "", enabled, stamp, "", "");
        ReplaceAlike(a, b, i, Switched(a[i], enabled, stamp), Switched(b[i], enabled, stamp));
        SwitchKeepsGood(a, i, enabled, stamp);
        SwitchKeepsGood(b, i, enabled, stamp);
        SwitchManyAlike(a[i := Switched(a[i], enabled, stamp)], b[i := Switched(b[i], enabled, stamp)], names[1..], enabled, stamp);
      } else {
        SwitchManyAlike(a, b, names[1..], enabled, stamp);
      }
    }
  }

  lemma MarkersTell(a: seq<Peer>, b: seq<Peer>, x: seq<Peer>, y: seq<Peer>)
    requires AlikeAt(a, b) && AlikeAt(x, y) && OnlyMarkers(a, x) && OnlyMarkers(b, y)
    ensures x == a <==> y == b
  {
    hide Strip;
    assert forall i :: 0 <= i < |a| ==> NormPeer(a[i]).disabledAt == a[i].disabledAt && NormPeer(b[i]).disabledAt == b[i].disabledAt;
    assert forall i :: 0 <= i < |a| ==> NormPeer(x[i]).disabledAt == x[i].disabledAt && NormPeer(y[i]).disabledAt == y[i].disabledAt;
    assert forall i :: 0 <= i < |a| ==> (x[i] == a[i] <==> x[i].disabledAt == a[i].disabledAt);
    assert forall i :: 0 <= i < |a| ==> (y[i] == b[i] <==> y[i].disabledAt == b[i].disabledAt);
    assert forall i :: 0 <= i < |a| ==> (x[i] == a[i] <==> y[i] == b[i]);
  }

  /** A mutation goes through from both lists or from neither, and writes lists alike. */
  lemma EditAlike(a: seq<Peer>, b: seq<Peer>, net: Net4, net6: Option<S6.Prefix64>, op: Op)
    requires net.Valid() && Alike(a, b) && Supplied(a, op) && IsEdit(op)
    ensures Edited(a, net, net6, op).Some? <==> Edited(b, net, net6, op).Some?
    ensures Edited(a, net, net6, op).Some? ==>
              && Edited(a, net, net6, op).value.1 == Edited(b, net, net6, op).value.1
              && NormPeers(Edited(a, net, net6, op).value.0) == NormPeers(Edited(b, net, net6, op).value.0)
  {
    hide Good, Find, NormPeers, NormPeer, MetaOk, Exists, UsedHosts, LowestFree, NewClient, PeerAllowed, ClientIp6, RemoveEqual, Switched;
    hide KeyUnused, PlainName, KeyText, RemoveClients, SetManyEnabled, OnlyMarkers;
    AlikeSays(a, b);
    match op
    case Add(q) =>
      LowestFreeSays(net, UsedHosts(a));
      match LowestFree(net, UsedHosts(a)) {
        case Some(address) =>
          AppendAlike(a, b, NewClient(q.publicKey, q.presharedKey, PeerAllowed(address, ClientIp6(net, net6, address)), q.name, q.created));
        case None =>
      }
    case Remove(name) =>
      RemoveSays(a, name);
      RemoveSays(b, name);
      FindBounds(a, name);
      if Find(a, name) < |a| { DropAlike(a, b, Find(a, name)); }
    case RemoveMany(names) =>
      RemoveManyAlike(a, b, names);
      RemoveManyAlike(b, a, names);
      AlikeSays(RemoveClients(a, names), RemoveClients(b, names));
    case Rename(from, to) =>
      FindBounds(a, from);
      var i := Find(a, from);
      if i < |a| {
        FieldsAlike(a[i], b[i], to, true, "", "", "");
        ReplaceAlike(a, b, i, a[i].(name := Some(to)), b[i].(name := Some(to)));
      }
    case Switch(name, enabled, stamp) =>
      FindBounds(a, name);
      var i := Find(a, name);
      if i < |a| {
        FieldsAlike(a[i], b[i], "", enabled, stamp, "", "");
        ReplaceAlike(a, b, i, Switched(a[i], enabled, stamp), Switched(b[i], enabled, stamp));
        ReplaceTells(a, i, Switched(a[i], enabled, stamp));
        ReplaceTells(b, i, Switched(b[i], enabled, stamp));
      }
    case SwitchMany(names, enabled, stamp) =>
      SwitchManyAlike(a, b, names, enabled, stamp);
      AlikeSays(SetManyEnabled(a, names, enabled, stamp), SetManyEnabled(b, names, enabled, stamp));
      MarkersTell(a, b, SetManyEnabled(a, names, enabled, stamp), SetManyEnabled(b, names, enabled, stamp));
    case Reset(name, publicKey, presharedKey) =>
      FindBounds(a, name);
      var i := Find(a, name);
      if i < |a| {
        FieldsAlike(a[i], b[i], "", true, "", publicKey, presharedKey);
        ReplaceAlike(a, b, i, a[i].(publicKey := publicKey, presharedKey := Some(presharedKey)),
                     b[i].(publicKey := publicKey, presharedKey := Some(presharedKey)));
      }
  }

  lemma ReplaceTells(peers: seq<Peer>, i: nat, p: Peer)
    requires i < |peers|
    ensures peers[i := p] == peers <==> p == peers[i]
  {
    if peers[i := p] == peers { assert peers[i := p][i] == p; }
  }

  lemma ReadingsAlike(s: Server)
    requires Inv(s) && s.kept.Some? && NamesWhole(s.kept.value)
    ensures Alike(s.Read(true).peers, s.Read(false).peers)
  {
    hide Parse, Render, ConfOk, Good, EnabledSet, KeyUnused, Exists, UsedHosts, NormPeers, PeerOk, Sound;
    InvHas(s);
    ReadIsGood(s, true);
    ReadIsGood(s, false);
    ReadSays(s, true);
    ReadSays(s, false);
    ParsedPeersOk(s.text);
    WholeIsBare(s.kept.value);
  }

  lemma WholeIsBare(c: Conf)
    requires NamesWhole(c)
    ensures BarePeers(c.peers) == c.peers
  {
    forall i | 0 <= i < |c.peers| ensures BarePeer(c.peers[i]) == c.peers[i] {
    }
  }

  lemma ReassertAlike(s: Server)
    requires KeptOk(s) && Sound(s.Peers())
    ensures Reasserted(s, true) == Reasserted(s, false)
  {
    hide Parse, Render, ConfOk, Good, Synced, EnabledSet, KeyUnused, Exists, UsedHosts, NormPeers, Sound, Server.Read;
    ReadSays(s, true);
    ReadSays(s, false);
    ReadIsGood(s, true);
    ReadIsGood(s, false);
    SyncedIsEnabled(s.Read(true));
    SyncedIsEnabled(s.Read(false));
  }

  /** While no name in the object kept ends in a line feed, it makes no difference to the file's peers, to
      the interface or to the kernel whether a call starts from it or from a fresh reading. */
  lemma EitherReadingServes(s: Server, net: Net4, net6: Option<S6.Prefix64>, op: Op)
    requires net.Valid() && Inv(s) && Supplied(s.Peers(), op) && s.kept.Some? && NamesWhole(s.kept.value)
    ensures SameState(Apply(s, net, net6, op, true), Apply(s, net, net6, op, false))
  {
    hide Parse, Render, Commit, Edited, Good, EnabledSet, ConfOk, PeersOk, Supplied, Sound, NormPeers, Server.Read, KeptOk;
    hide BarePeers, UsedHosts, Find, Exists, KeyUnused, Reasserted;
    InvHas(s);
    if IsEdit(op) {
      var a, b := s.Read(true).peers, s.Read(false).peers;
      ReadingsAlike(s);
      ReadIsGood(s, true);
      ReadIsGood(s, false);
      ReadSays(s, true);
      ReadSays(s, false);
      SuppliedSame(a, s.Peers(), op);
      SuppliedSame(b, s.Peers(), op);
      EditAlike(a, b, net, net6, op);
      if Edited(a, net, net6, op).Some? {
        EditKeepsGood(a, net, net6, op);
        EditKeepsGood(b, net, net6, op);
        var (x, live) := Edited(a, net, net6, op).value;
        var y := Edited(b, net, net6, op).value.0;
        BareNorm(x, y);
        CommitsAlike(s, s.Read(true), x, s.Read(false), y, live);
      }
    } else {
      PowerAlike(s, net, net6, op);
    }
  }

  lemma BareNorm(a: seq<Peer>, b: seq<Peer>)
    requires NormPeers(a) == NormPeers(b)
    ensures NormPeers(BarePeers(a)) == NormPeers(BarePeers(b))
  {
    hide Strip;
    AlikeIs(a, b);
    forall i | 0 <= i < |a| ensures NormPeer(BarePeers(a)[i]) == NormPeer(BarePeers(b)[i]) {
      assert NormPeer(a[i]) == NormPeer(b[i]);
    }
    hide NormPeers, BarePeers, NormPeer;
    AlikeIs(BarePeers(a), BarePeers(b));
  }

  lemma PowerAlike(s: Server, net: Net4, net6: Option<S6.Prefix64>, op: Op)
    requires net.Valid() && Inv(s) && !IsEdit(op)
    ensures Apply(s, net, net6, op, true) == Apply(s, net, net6, op, false)
  {
    hide Parse, Render, Edited, Commit, EnabledSet, Sound, ConfOk, Reasserted;
    ReassertAlike(s);
    ReassertAlike(BroughtUp(s));
    ReassertAlike(BroughtUp(s.(up := false, kernel := map[])));
  }
}
