/** The free count the panel shows is a promise about the adds to come. */
module ClientCapacity {
  import opened Text
  import opened Config
  import opened NameBreaks
  import opened Subnet
  import opened Clients
  import opened ClientRuns
  import opened ClientNames
  import S6 = Subnet6

  /** One add after another, each by the thread that wrote the file last or by another, and each from the
      file as the one before left it; stopping at the first refusal. */
  function AddAll(s: Server, net: Net4, net6: Option<S6.Prefix64>, requests: seq<(Request, bool)>): Outcome<Server>
    requires net.Valid()
    decreases |requests|
  {
    if requests == [] then Done(s)
    else
      var (q, own) := requests[0];
      match AddClient(s.Read(own).peers, net, net6, q.name, q.publicKey, q.presharedKey, q.created)
      case Done(_) => AddAll(Apply(s, net, net6, Add(q), own), net, net6, requests[1..])
      case NameTaken => NameTaken
      case NoAddress => NoAddress
      case NoSuchClient => NoSuchClient
  }

  /** Names and keys nobody in the file has, and no two of the requests share; of names that end in a line
      feed, what counts is what they are read back as. */
  predicate FreshRequests(peers: seq<Peer>, requests: seq<(Request, bool)>) {
    && (forall i :: 0 <= i < |requests| ==>
          Supplied(peers, Add(requests[i].0)) && !Exists(peers, Bare(requests[i].0.name)))
    && (forall i, j :: 0 <= i < j < |requests| ==>
          && Bare(requests[i].0.name) != Bare(requests[j].0.name)
          && requests[i].0.publicKey != requests[j].0.publicKey)
  }

  lemma StillFresh(before: seq<Peer>, after: seq<Peer>, requests: seq<(Request, bool)>)
    requires requests != [] && FreshRequests(before, requests)
    requires forall name :: Exists(after, name) <==> Exists(before, name) || name == Bare(requests[0].0.name)
    requires forall key :: KeyUnused(after, key) <==> KeyUnused(before, key) && key != requests[0].0.publicKey
    ensures FreshRequests(after, requests[1..])
  {
    hide Exists, Bare, KeyUnused, Supplied;
    var rest := requests[1..];
    forall i | 0 <= i < |rest| ensures Supplied(after, Add(rest[i].0)) && !Exists(after, Bare(rest[i].0.name)) {
      assert rest[i] == requests[i + 1];
      SuppliedKey(before, rest[i].0);
      SuppliedLater(before, after, rest[i].0);
    }
  }

  /** Under fresh names, from whichever reading each of them starts, exactly as many further adds go
      through as there are free addresses, and the next is refused because the pool is full. */
  lemma {:induction false} FreeIpsIsExact(s: Server, net: Net4, net6: Option<S6.Prefix64>, requests: seq<(Request, bool)>)
    requires net.Valid() && Inv(s) && FreshRequests(s.Peers(), requests)
    ensures AddAll(s, net, net6, requests).Done? <==> |requests| <= FreeIps(net, s.Peers())
    ensures AddAll(s, net, net6, requests).Done? || AddAll(s, net, net6, requests).NoAddress?
    ensures AddAll(s, net, net6, requests).Done? ==> Inv(AddAll(s, net, net6, requests).value)
    decreases |requests|
  {
    hide Inv, Apply, AddClient, Exists, Bare, FreeIps, KeyUnused, Supplied, Server.Read, Good, EnabledSet, UsedHosts, Sound, KeptOk, BarePeers;
    var peers := s.Peers();
    AddTakesOne(peers, net, net6, "", "", "", "");
    if requests != [] {
      var (q, own) := requests[0];
      var read := s.Read(own).peers;
      InvHas(s);
      ReadIsGood(s, own);
      SameUsedSameFree(net, read, peers);
      ClearOfBare(read, q.name);
      AddTakesOne(read, net, net6, q.name, q.publicKey, q.presharedKey, q.created);
      AddSays(read, net, net6, q.name, q.publicKey, q.presharedKey, q.created);
      if FreeIps(net, peers) > 0 {
        AddLands(s, net, net6, q, own);
        var next := Apply(s, net, net6, Add(q), own);
        StillFresh(peers, next.Peers(), requests);
        FreeIpsIsExact(next, net, net6, requests[1..]);
      }
    }
  }
}
