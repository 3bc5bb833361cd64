/** Where the look-up for a new name is made in the wrong list or for the wrong string: exactly when an
    add or a rename leaves two clients with one name. */
module ClientNames {
  import opened Text
  import opened Config
  import opened ConfRoundTrip
  import opened NameBreaks
  import opened Hooks
  import opened Subnet
  import opened Clients
  import opened ClientRuns
  import S6 = Subnet6

  /** An add that goes through, from either reading, leaves every client a name of its own exactly when
      nobody in a fresh reading of the file answers to the name without its line feed; and then
      everything else holds too. */
  lemma AddNamesExact(s: Server, net: Net4, net6: Option<S6.Prefix64>, q: Request, own: bool)
    requires net.Valid() && Inv(s) && Supplied(s.Peers(), Add(q))
    requires AddClient(s.Read(own).peers, net, net6, q.name, q.publicKey, q.presharedKey, q.created).Done?
    ensures NamesDistinct(Apply(s, net, net6, Add(q), own).Peers()) <==> !Exists(s.Peers(), Bare(q.name))
    ensures Inv(Apply(s, net, net6, Add(q), own)) <==> !Exists(s.Peers(), Bare(q.name))
  {
    hide Inv, Apply, AddClient, NamesDistinct, Supplied, Exists, Bare, Server.Read;
    EditIsExact(s, net, net6, Add(q), own);
  }

  /** A rename that goes through, from either reading, leaves every client a name of its own exactly when
      the new name and the old one are the same without their line feeds, or nobody in a fresh reading
      answers to the new one without it. */
  lemma RenameNamesExact(s: Server, net: Net4, net6: Option<S6.Prefix64>, from: string, to: string, own: bool)
    requires net.Valid() && Inv(s) && ValidName(to) && RenameClient(s.Read(own).peers, from, to).Done?
    ensures NamesDistinct(Apply(s, net, net6, Rename(from, to), own).Peers())
            <==> Bare(from) == Bare(to) || !Exists(s.Peers(), Bare(to))
    ensures Inv(Apply(s, net, net6, Rename(from, to), own)) <==> Bare(from) == Bare(to) || !Exists(s.Peers(), Bare(to))
  {
    hide Inv, Apply, RenameClient, NamesDistinct, PlainName, Exists, Bare, Server.Read;
    EditIsExact(s, net, net6, Rename(from, to), own);
  }

  // ------------------------------------------------------------------ the inputs that fail

  lemma Named(peers: seq<Peer>, i: nat, name: string)
    requires i < |peers| && Answers(peers[i], name)
    ensures Exists(peers, name)
  {
  }

  /** A name somebody in a list has is somebody's in the list as it is read. */
  lemma ClearOfBare(peers: seq<Peer>, name: string)
    requires !Exists(BarePeers(peers), Bare(name))
    ensures !Exists(peers, name)
  {
    hide Bare;
    var i := Find(peers, name);
    if i < |peers| {
      Named(BarePeers(peers), i, Bare(name));
    }
  }

  lemma OneMoreAnswers(peers: seq<Peer>, p: Peer, name: string)
    ensures Exists(peers + [p], name) <==> Exists(peers, name) || Answers(p, name)
  {
    var after := peers + [p];
    var i := Find(after, name);
    if i < |peers| {
      Named(peers, i, name);
    }
    if Exists(peers, name) {
      Named(after, Find(peers, name), name);
    }
    if Answers(p, name) {
      Named(after, |peers|, name);
    }
  }

  lemma OneMoreKey(peers: seq<Peer>, p: Peer, key: string)
    ensures KeyUnused(peers + [p], key) <==> KeyUnused(peers, key) && p.publicKey != key
  {
    var after := peers + [p];
    assert forall i :: 0 <= i < |peers| ==> after[i] == peers[i];
    assert after[|peers|] == p;
  }

  lemma SameUsedSameFree(net: Net4, a: seq<Peer>, b: seq<Peer>)
    requires net.Valid() && UsedHosts(a) == UsedHosts(b)
    ensures FreeIps(net, a) == FreeIps(net, b)
  {
  }

  lemma SuppliedKey(peers: seq<Peer>, q: Request)
    requires Supplied(peers, Add(q))
    ensures KeyText(q.publicKey) && KeyUnused(peers, q.publicKey)
  {
  }

  lemma AddCommits(s: Server, net: Net4, net6: Option<S6.Prefix64>, q: Request, own: bool)
    requires net.Valid() && AddClient(s.Read(own).peers, net, net6, q.name, q.publicKey, q.presharedKey, q.created).Done?
    ensures Edited(s.Read(own).peers, net, net6, Add(q)).Some?
    ensures Apply(s, net, net6, Add(q), own).Read(true).peers
            == AddClient(s.Read(own).peers, net, net6, q.name, q.publicKey, q.presharedKey, q.created).value.0
  {
    hide Parse, Render, AddClient, EnsureHooks, Synced;
  }

  /** What stands after an add, from either reading, under a name that is clear and with an address left:
      it went through, the file has one client more, under the name as it is read, and one address less,
      and everything is sound. */
  lemma AddLands(s: Server, net: Net4, net6: Option<S6.Prefix64>, q: Request, own: bool)
    requires net.Valid() && Inv(s) && Supplied(s.Peers(), Add(q))
    requires !Exists(s.Peers(), Bare(q.name)) && FreeIps(net, s.Peers()) > 0
    ensures var s' := Apply(s, net, net6, Add(q), own);
            && AddClient(s.Read(own).peers, net, net6, q.name, q.publicKey, q.presharedKey, q.created).Done?
            && Inv(s') && FreeIps(net, s'.Peers()) == FreeIps(net, s.Peers()) - 1
            && (forall name :: Exists(s'.Peers(), name) <==> Exists(s.Peers(), name) || name == Bare(q.name))
            && (forall key :: KeyUnused(s'.Peers(), key) <==> KeyUnused(s.Peers(), key) && key != q.publicKey)
            && (forall name :: Exists(s'.Read(true).peers, name) <==> Exists(s.Read(own).peers, name) || name == q.name)
  {
    hide Inv, Parse, Apply, AddClient, Supplied, Exists, Bare, FreeIps, BarePeers, Server.Read, Sound, KeptOk, Good, EnabledSet, KeyUnused;
    hide UsedHosts, NewClient, PeerAllowed, Answers;
    var peers := s.Read(own).peers;
    InvHas(s);
    ReadIsGood(s, own);
    ClearOfBare(peers, q.name);
    SameUsedSameFree(net, peers, s.Peers());
    AddTakesOne(peers, net, net6, q.name, q.publicKey, q.presharedKey, q.created);
    AddSays(peers, net, net6, q.name, q.publicKey, q.presharedKey, q.created);
    AddCommits(s, net, net6, q, own);
    AddNamesExact(s, net, net6, q, own);
    SuppliedSame(peers, s.Peers(), Add(q));
    AddedList(peers, net, net6, q);
    AddDone(peers, net, net6, q);
    var (after, a) := AddClient(peers, net, net6, q.name, q.publicKey, q.presharedKey, q.created).value;
    var s' := Apply(s, net, net6, Add(q), own);
    InvHas(s');
    ReadIsGood(s', true);
    SameUsedSameFree(net, after, s'.Peers());
    var allowed := PeerAllowed(a, ClientIp6(net, net6, a));
    SuppliedKey(peers, q);
    NewAnswers(q, allowed);
    forall name ensures Exists(s'.Peers(), name) <==> Exists(s.Peers(), name) || name == Bare(q.name) {
      OneMoreAnswers(BarePeers(peers), NewClient(q.publicKey, q.presharedKey, allowed, Bare(q.name), q.created), name);
    }
    forall name ensures Exists(after, name) <==> Exists(peers, name) || name == q.name {
      OneMoreAnswers(peers, NewClient(q.publicKey, q.presharedKey, allowed, q.name, q.created), name);
    }
    forall key ensures KeyUnused(s'.Peers(), key) <==> KeyUnused(s.Peers(), key) && key != q.publicKey {
      OneMoreKey(peers, NewClient(q.publicKey, q.presharedKey, allowed, q.name, q.created), key);
    }
  }

  /** A new client answers to the name it was given and to no other. */
  lemma NewAnswers(q: Request, allowed: string)
    ensures NewClient(q.publicKey, q.presharedKey, allowed, q.name, q.created).publicKey == q.publicKey
    ensures KeyText(q.publicKey) ==> forall given, name ::
              Answers(NewClient(q.publicKey, q.presharedKey, allowed, given, q.created), name) <==> name == given
  {
  }

  lemma AbcNames()
    ensures ValidName("abc") && ValidName("abc\n") && Bare("abc") == "abc" && Bare("abc\n") == "abc"
  {
    assert "abc\n"[..3] == "abc";
    assert PlainName("abc");
  }

  lemma OkNameIsBare(p: Peer, name: string)
    requires PeerOk(p) && Bare(name) != name
    ensures p.name != Some(name)
  {
    BareOfOk(p);
    hide PeerOk;
    assert BarePeer(p).name == p.name;
  }

  /** No parsed peer has a name that ends in a line feed. */
  lemma BrokenNameIsFree(peers: seq<Peer>, name: string)
    requires PeersOk(peers) && Bare(name) != name
    ensures !Exists(peers, name)
  {
    hide PeerOk, Bare;
    forall i | 0 <= i < |peers| ensures !Answers(peers[i], name) {
      OkNameIsBare(peers[i], name);
    }
  }

  /** Two requests that would give one name out twice. */
  predicate Pair(s: Server, first: Request, second: Request) {
    && Supplied(s.Peers(), Add(first)) && Supplied(s.Peers(), Add(second)) && first.publicKey != second.publicKey
    && !Exists(s.Peers(), "abc")
  }

  lemma SuppliedLater(a: seq<Peer>, b: seq<Peer>, q: Request)
    requires Supplied(a, Add(q)) && KeyUnused(b, q.publicKey)
    ensures Supplied(b, Add(q))
  {
  }

  /** "abc" and then "abc" with a line feed: the second add is looked up as it stands and goes through,
      from either reading, and leaves two clients called abc. */
  lemma AbcTwice(s: Server, net: Net4, net6: Option<S6.Prefix64>, first: Request, second: Request, own: bool, again: bool)
    requires net.Valid() && Inv(s) && Pair(s, first, second) && FreeIps(net, s.Peers()) > 1
    requires first.name == "abc" && second.name == "abc\n"
    ensures var s1 := Apply(s, net, net6, Add(first), own);
            var s2 := Apply(s1, net, net6, Add(second), again);
            && Inv(s1) && Exists(s1.Peers(), "abc") && Edited(s1.Read(again).peers, net, net6, Add(second)).Some?
            && !NamesDistinct(s2.Peers())
  {
    hide Inv, Parse, Apply, AddClient, Edited, Supplied, Exists, Bare, FreeIps, NamesDistinct, KeyUnused, Server.Read, ValidName, PeersOk;
    AbcNames();
    AddLands(s, net, net6, first, own);
    var s1 := Apply(s, net, net6, Add(first), own);
    InvHas(s);
    ReadIsGood(s, own);
    ClearOfBare(s.Read(own).peers, second.name);
    ParseReads(s1);
    ParsedPeersOk(s1.text);
    BrokenNameIsFree(s1.Peers(), second.name);
    SuppliedKey(s.Peers(), second);
    SuppliedLater(s.Peers(), s1.Peers(), second);
    AddGoes(s1, net, net6, second, again);
    AddNamesExact(s1, net, net6, second, again);
  }

  lemma ParseReads(s: Server)
    ensures s.Read(false).peers == s.Peers()
  {
    hide Parse;
  }

  /** The look-up alone decides, while there are addresses. */
  lemma AddGoes(s: Server, net: Net4, net6: Option<S6.Prefix64>, q: Request, own: bool)
    requires net.Valid() && Inv(s) && FreeIps(net, s.Peers()) > 0
    ensures AddClient(s.Read(own).peers, net, net6, q.name, q.publicKey, q.presharedKey, q.created).Done?
            <==> !Exists(s.Read(own).peers, q.name)
    ensures Edited(s.Read(own).peers, net, net6, Add(q)).Some? <==> !Exists(s.Read(own).peers, q.name)
    ensures Exists(s.Read(own).peers, q.name) ==> Apply(s, net, net6, Add(q), own) == s
  {
    hide Inv, Parse, AddClient, Exists, FreeIps, Server.Read, Good, EnabledSet, UsedHosts, KeyUnused, Sound, KeptOk;
    var peers := s.Read(own).peers;
    InvHas(s);
    ReadIsGood(s, own);
    SameUsedSameFree(net, peers, s.Peers());
    AddTakesOne(peers, net, net6, q.name, q.publicKey, q.presharedKey, q.created);
    AddSays(peers, net, net6, q.name, q.publicKey, q.presharedKey, q.created);
  }

  /** "abc" with a line feed and then "abc": another thread reads the file and is refused, but the thread
      that wrote it is handed its own object, where the name still has its line feed. Its second add goes
      through, and leaves two clients called abc. */
  lemma AbcFromOwnObject(s: Server, net: Net4, net6: Option<S6.Prefix64>, first: Request, second: Request, own: bool)
    requires net.Valid() && Inv(s) && Pair(s, first, second) && FreeIps(net, s.Peers()) > 1
    requires first.name == "abc\n" && second.name == "abc"
    ensures var s1 := Apply(s, net, net6, Add(first), own);
            && Inv(s1) && Exists(s1.Peers(), "abc") && !Exists(s1.Read(true).peers, "abc")
            && Apply(s1, net, net6, Add(second), false) == s1
            && Edited(s1.Read(true).peers, net, net6, Add(second)).Some?
            && !NamesDistinct(Apply(s1, net, net6, Add(second), true).Peers())
  {
    hide Inv, Parse, Apply, AddClient, Edited, Supplied, Exists, Bare, FreeIps, NamesDistinct, KeyUnused, Server.Read, ValidName, PeersOk;
    AbcNames();
    AddLands(s, net, net6, first, own);
    var s1 := Apply(s, net, net6, Add(first), own);
    InvHas(s);
    ReadIsGood(s, own);
    ClearOfBare(s.Read(own).peers, "abc");
    ParseReads(s1);
    SuppliedKey(s.Peers(), second);
    SuppliedLater(s.Peers(), s1.Peers(), second);
    AddGoes(s1, net, net6, second, false);
    AddGoes(s1, net, net6, second, true);
    AddNamesExact(s1, net, net6, second, true);
  }
}
