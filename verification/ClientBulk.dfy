/** The operations on many clients at once: which entries a bulk removal takes out and which markers a bulk
    switch sets, named twice, out of order or not there at all. */
module ClientBulk {
  import opened Text
  import opened Config
  import opened ConfRoundTrip
  import opened NameBreaks
  import opened Subnet
  import opened Clients
  import opened ClientRuns
  import opened ClientWrites
  import S6 = Subnet6

  /** A client that answers to one of the names. */
  predicate Named(p: Peer, names: seq<string>) {
    Keyed(p) && p.name.Some? && p.name.value in names
  }

  /** The entries of one list whose counterparts in a reading are not among the names. */
  function Spared(read: seq<Peer>, was: seq<Peer>, names: seq<string>): seq<Peer>
    requires |read| == |was|
  {
    if read == [] then []
    else (if Named(read[0], names) then [] else [was[0]]) + Spared(read[1..], was[1..], names)
  }

  lemma {:induction false} SparedAppend(a: seq<Peer>, b: seq<Peer>, x: seq<Peer>, y: seq<Peer>, names: seq<string>)
    requires |a| == |x| && |b| == |y|
    ensures Spared(a + b, x + y, names) == Spared(a, x, names) + Spared(b, y, names)
  {
    hide Named;
    if a == [] {
      assert a + b == b && x + y == y;
    } else {
      assert (a + b)[1..] == a[1..] + b && (x + y)[1..] == x[1..] + y;
      SparedAppend(a[1..], b, x[1..], y, names);
    }
  }

  lemma {:induction false} SparedAlike(a: seq<Peer>, x: seq<Peer>, names: seq<string>, fewer: seq<string>)
    requires |a| == |x| && forall i :: 0 <= i < |a| ==> (Named(a[i], names) <==> Named(a[i], fewer))
    ensures Spared(a, x, names) == Spared(a, x, fewer)
  {
    hide Named;
    if a != [] { SparedAlike(a[1..], x[1..], names, fewer); }
  }

  lemma OneSpared(p: Peer, q: Peer, names: seq<string>)
    ensures Spared([p], [q], names) == if Named(p, names) then [] else [q]
  {
    hide Named;
    assert [p][1..] == [] && [q][1..] == [];
  }

  /** The first name's client gone, the rest is spared by the other names as it was by all of them. */
  lemma SparedStep(peers: seq<Peer>, names: seq<string>, i: nat)
    requires NamesDistinct(peers) && names != [] && i < |peers| && Answers(peers[i], names[0])
    ensures var rest := peers[..i] + peers[i + 1..]; Spared(rest, rest, names[1..]) == Spared(peers, peers, names)
  {
    var a, p, b := peers[..i], peers[i], peers[i + 1..];
    OthersNamed(peers, names, i);
    assert forall j :: 0 <= j < |a| ==> a[j] == peers[j];
    assert forall j :: 0 <= j < |b| ==> b[j] == peers[i + 1 + j];
    hide Named, Spared, NamesDistinct;
    assert peers == a + ([p] + b);
    SparedAppend(a, [p] + b, a, [p] + b, names);
    SparedAppend([p], b, [p], b, names);
    OneSpared(p, p, names);
    SparedAppend(a, b, a, b, names[1..]);
    SparedAlike(a, a, names, names[1..]);
    SparedAlike(b, b, names, names[1..]);
    assert [] + Spared(b, b, names) == Spared(b, b, names);
  }

  lemma OthersNamed(peers: seq<Peer>, names: seq<string>, i: nat)
    requires NamesDistinct(peers) && names != [] && i < |peers| && Answers(peers[i], names[0])
    ensures Named(peers[i], names)
    ensures forall j :: 0 <= j < |peers| && j != i ==> (Named(peers[j], names) <==> Named(peers[j], names[1..]))
  {
    assert forall j :: 0 <= j < |peers| && j != i ==> !Answers(peers[j], names[0]);
  }

  lemma {:induction false} NoneSpared(peers: seq<Peer>)
    ensures Spared(peers, peers, []) == peers
  {
    if peers != [] { NoneSpared(peers[1..]); }
  }

  lemma DropDistinct(peers: seq<Peer>, i: nat)
    requires NamesDistinct(peers) && i < |peers|
    ensures NamesDistinct(peers[..i] + peers[i + 1..])
  {
    var rest := peers[..i] + peers[i + 1..];
    assert forall j :: 0 <= j < |rest| ==> rest[j] == peers[if j < i then j else j + 1];
  }

  /** remove_clients takes out exactly the clients that answer to one of the names, whatever their order. */
  lemma {:induction false} RemoveClientsSays(peers: seq<Peer>, names: seq<string>)
    requires NamesDistinct(peers)
    ensures RemoveClients(peers, names) == Spared(peers, peers, names)
    decreases |names|
  {
    hide Find, RemoveEqual, NamesDistinct, Spared;
    if names == [] {
      NoneSpared(peers);
    } else {
      RemoveSays(peers, names[0]);
      FindEnds(peers, names[0]);
      var i := Find(peers, names[0]);
      if i < |peers| {
        FindAnswers(peers, names[0]);
        SparedStep(peers, names, i);
        DropDistinct(peers, i);
        RemoveClientsSays(peers[..i] + peers[i + 1..], names[1..]);
      } else {
        FindAnswers(peers, names[0]);
        NobodyNamed(peers, names);
        SparedAlike(peers, peers, names, names[1..]);
        RemoveClientsSays(peers, names[1..]);
      }
    }
  }

  lemma FindAnswers(peers: seq<Peer>, name: string)
    ensures var i := Find(peers, name);
            if i < |peers| then Answers(peers[i], name) else forall j :: 0 <= j < |peers| ==> !Answers(peers[j], name)
  {
  }

  lemma NobodyNamed(peers: seq<Peer>, names: seq<string>)
    requires names != [] && forall j :: 0 <= j < |peers| ==> !Answers(peers[j], names[0])
    ensures forall j :: 0 <= j < |peers| ==> (Named(peers[j], names) <==> Named(peers[j], names[1..]))
  {
  }

  /** The marker a peer has after set_clients_enabled: only named clients in the other state are touched. */
  function MarkerOf(p: Peer, names: seq<string>, enabled: bool, stamp: string): Option<string> {
    if !Named(p, names) || p.name == Some("") then p.disabledAt
    else if enabled then None
    else if p.disabledAt.Some? then p.disabledAt
    else Some(stamp)
  }

  lemma {:induction false} SetManySays(peers: seq<Peer>, names: seq<string>, enabled: bool, stamp: string)
    requires NamesDistinct(peers)
    ensures forall j :: 0 <= j < |peers| ==>
              SetManyEnabled(peers, names, enabled, stamp)[j]
              == peers[j].(disabledAt := MarkerOf(peers[j], names, enabled, stamp))
    decreases |names|
  {
    hide Find, NamesDistinct, MarkerOf, Switched;
    if names == [] {
      NoMarker(peers, enabled, stamp);
    } else {
      var i := Find(peers, names[0]);
      FindEnds(peers, names[0]);
      FindAnswers(peers, names[0]);
      if names[0] != "" && i < |peers| {
        var next := peers[i := Switched(peers[i], enabled, stamp)];
        SwitchedDistinct(peers, i, enabled, stamp);
        SetManySays(next, names[1..], enabled, stamp);
        MarkerStep(peers, i, names, enabled, stamp);
      } else {
        MarkerSkips(peers, names, enabled, stamp);
        SetManySays(peers, names[1..], enabled, stamp);
      }
    }
  }

  lemma NoMarker(peers: seq<Peer>, enabled: bool, stamp: string)
    ensures forall j :: 0 <= j < |peers| ==> peers[j] == peers[j].(disabledAt := MarkerOf(peers[j], [], enabled, stamp))
  {
  }

  lemma SwitchedDistinct(peers: seq<Peer>, i: nat, enabled: bool, stamp: string)
    requires NamesDistinct(peers) && i < |peers|
    ensures NamesDistinct(peers[i := Switched(peers[i], enabled, stamp)])
  {
  }

  lemma MarkerStep(peers: seq<Peer>, i: nat, names: seq<string>, enabled: bool, stamp: string)
    requires NamesDistinct(peers) && names != [] && names[0] != "" && i < |peers| && Answers(peers[i], names[0])
    ensures var next := peers[i := Switched(peers[i], enabled, stamp)];
            forall j :: 0 <= j < |peers| ==>
              next[j].(disabledAt := MarkerOf(next[j], names[1..], enabled, stamp))
              == peers[j].(disabledAt := MarkerOf(peers[j], names, enabled, stamp))
  {
    assert forall j :: 0 <= j < |peers| && j != i ==> !Answers(peers[j], names[0]);
    assert forall j :: 0 <= j < |peers| && j != i ==> (Named(peers[j], names) <==> Named(peers[j], names[1..]));
  }

  lemma MarkerSkips(peers: seq<Peer>, names: seq<string>, enabled: bool, stamp: string)
    requires names != [] && (names[0] == "" || forall j :: 0 <= j < |peers| ==> !Answers(peers[j], names[0]))
    ensures forall j :: 0 <= j < |peers| ==>
              MarkerOf(peers[j], names[1..], enabled, stamp) == MarkerOf(peers[j], names, enabled, stamp)
  {
  }

  lemma ReadDistinct(s: Server, own: bool)
    requires Inv(s)
    ensures NamesDistinct(s.Read(own).peers)
  {
    hide Parse, Server.Read, KeptOk, PeersOk, EnabledSet, NoSharedAddress, KeysDistinct, UsedHosts, KeyUnused, Exists;
    InvSays(s);
    ReadIsGood(s, own);
    var read := s.Read(own).peers;
    assert NamesDistinct(BarePeers(read));
    assert forall j :: 0 <= j < |read| ==> BarePeers(read)[j].name == BareName(read[j].name) && BarePeers(read)[j].publicKey == read[j].publicKey;
  }

  lemma {:induction false} SparedReads(read: seq<Peer>, was: seq<Peer>, names: seq<string>)
    requires |read| == |was| && forall j :: 0 <= j < |read| ==> NormPeer(BarePeer(read[j])) == NormPeer(was[j])
    ensures NormPeers(BarePeers(Spared(read, read, names))) == NormPeers(Spared(read, was, names))
  {
    hide Named, NormPeer, BarePeer;
    if read != [] {
      SparedReads(read[1..], was[1..], names);
      var a, b := Spared(read[1..], read[1..], names), Spared(read[1..], was[1..], names);
      if Named(read[0], names) {
        assert Spared(read, read, names) == a && Spared(read, was, names) == b;
      } else {
        ListStep(read[0], a);
        ListStep(was[0], b);
      }
    }
  }

  lemma ListStep(p: Peer, rest: seq<Peer>)
    ensures NormPeers(BarePeers([p] + rest)) == [NormPeer(BarePeer(p))] + NormPeers(BarePeers(rest))
    ensures NormPeers([p] + rest) == [NormPeer(p)] + NormPeers(rest)
  {
    hide NormPeer, BarePeer;
  }

  /** A bulk removal takes out exactly the clients the reading knows by one of the names, in the file and
      in the kernel; with none of them there it writes nothing. */
  lemma RemoveManyWrites(s: Server, net: Net4, net6: Option<S6.Prefix64>, names: seq<string>, own: bool)
    requires net.Valid() && Inv(s)
    ensures var s' := Apply(s, net, net6, RemoveMany(names), own); var read, was := s.Read(own).peers, s.Peers();
            && |read| == |was|
            && if Spared(read, read, names) == read then s' == s
               else s'.Peers() == NormPeers(Spared(read, was, names)) && s'.up == s.up
                    && (s.up ==> s'.kernel == EnabledSet(s'.Peers()))
  {
    hide Inv, Parse, Commit, NormPeers, BarePeers, Server.Read, KeptOk, EnabledSet, Sound, Apply, Spared, RemoveClients, NamesDistinct;
    var op := RemoveMany(names);
    var read, was := s.Read(own).peers, s.Peers();
    InvSays(s);
    ReadDistinct(s, own);
    RemoveClientsSays(read, names);
    PlaceIs(s, own, "");
    if Spared(read, read, names) == read {
      NotEdited(s, net, net6, op, own);
    } else {
      EditLands(s, net, net6, op, own);
      SparedReads(read, was, names);
    }
  }

  /** A bulk switch changes the markers of the named clients that are in the other state, and nothing else;
      afterwards the kernel is told. With none of them in the other state it writes nothing. */
  lemma SwitchManyWrites(s: Server, net: Net4, net6: Option<S6.Prefix64>, names: seq<string>, enabled: bool, stamp: string,
                         own: bool)
    requires net.Valid() && Inv(s) && Supplied(s.Peers(), SwitchMany(names, enabled, stamp))
    ensures var s' := Apply(s, net, net6, SwitchMany(names, enabled, stamp), own); var read, was := s.Read(own).peers, s.Peers();
            && |read| == |was|
            && if forall j :: 0 <= j < |read| ==> MarkerOf(read[j], names, enabled, stamp) == was[j].disabledAt then s' == s
               else
                 && |s'.Peers()| == |was| && s'.up == s.up && (s.up ==> s'.kernel == EnabledSet(s'.Peers()))
                 && forall j :: 0 <= j < |was| ==>
                      s'.Peers()[j] == NormPeer(was[j]).(disabledAt := MarkerOf(read[j], names, enabled, stamp))
  {
    hide Inv, Parse, Commit, NormPeers, BarePeers, Server.Read, KeptOk, EnabledSet, Sound, Apply, SetManyEnabled, NamesDistinct, MarkerOf;
    hide NormPeer, BarePeer;
    var op := SwitchMany(names, enabled, stamp);
    var read, was := s.Read(own).peers, s.Peers();
    InvSays(s);
    ReadDistinct(s, own);
    SetManySays(read, names, enabled, stamp);
    PlaceIs(s, own, "");
    var moved := SetManyEnabled(read, names, enabled, stamp);
    MarkersMove(read, was, moved, names, enabled, stamp);
    if moved == read {
      NotEdited(s, net, net6, op, own);
    } else {
      EditLands(s, net, net6, op, own);
    }
  }

  lemma MarkersMove(read: seq<Peer>, was: seq<Peer>, moved: seq<Peer>, names: seq<string>, enabled: bool, stamp: string)
    requires |read| == |was| == |moved| && forall j :: 0 <= j < |read| ==> NormPeer(BarePeer(read[j])) == NormPeer(was[j])
    requires forall j :: 0 <= j < |read| ==> moved[j] == read[j].(disabledAt := MarkerOf(read[j], names, enabled, stamp))
    ensures moved == read <==> forall j :: 0 <= j < |read| ==> MarkerOf(read[j], names, enabled, stamp) == was[j].disabledAt
    ensures forall j :: 0 <= j < |was| ==>
              NormPeers(BarePeers(moved))[j] == NormPeer(was[j]).(disabledAt := MarkerOf(read[j], names, enabled, stamp))
  {
    hide MarkerOf, Strip;
    forall j | 0 <= j < |read| ensures was[j].disabledAt == read[j].disabledAt {
      assert NormPeer(BarePeer(read[j])) == NormPeer(was[j]);
    }
    assert forall j :: 0 <= j < |read| ==> (moved[j] == read[j] <==> moved[j].disabledAt == read[j].disabledAt);
    forall j | 0 <= j < |was|
      ensures NormPeers(BarePeers(moved))[j] == NormPeer(was[j]).(disabledAt := MarkerOf(read[j], names, enabled, stamp))
    {
      assert NormPeer(BarePeer(read[j])) == NormPeer(was[j]);
    }
  }
}
