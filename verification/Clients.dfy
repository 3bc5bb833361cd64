/** The client operations on a parsed server config: who is called what, who holds which address,
    who is switched off. */
module Clients {
  import opened Text
  import opened Config
  import opened ConfRoundTrip
  import opened NameBreaks
  import opened Subnet
  import S6 = Subnet6

  // ------------------------------------------------------------------ names

  predicate IsNameChar(c: char) {
    'A' <= c <= 'Z' || 'a' <= c <= 'z' || '0' <= c <= '9' || c == '.' || c == '_' || c == '-'
  }

  /** A letter or digit, then up to 31 more letters, digits, dots, underscores or hyphens. */
  predicate PlainName(name: string) {
    && 1 <= |name| <= 32 && (forall i :: 0 <= i < |name| ==> IsNameChar(name[i]))
    && name[0] != '.' && name[0] != '_' && name[0] != '-'
  }

  /** validate_name: what NAME_RE matches. Its `$` also matches in front of one line feed at the end. */
  predicate ValidName(name: string) {
    PlainName(Bare(name))
  }

  predicate Keyed(p: Peer) {
    p.publicKey != ""
  }

  predicate Answers(p: Peer, name: string) {
    p.name == Some(name) && Keyed(p)
  }

  /** The first keyed peer of that name, or the number of peers. */
  function Find(peers: seq<Peer>, name: string): (i: nat)
    ensures i <= |peers|
    ensures i < |peers| ==> Answers(peers[i], name)
    ensures forall j :: 0 <= j < i ==> !Answers(peers[j], name)
  {
    if peers == [] || Answers(peers[0], name) then 0 else 1 + Find(peers[1..], name)
  }

  predicate Exists(peers: seq<Peer>, name: string) {
    Find(peers, name) < |peers|
  }

  /** No two keyed peers answer to one name. */
  predicate NamesDistinct(peers: seq<Peer>) {
    forall i, j :: 0 <= i < j < |peers| && Keyed(peers[i]) && Keyed(peers[j]) && peers[i].name.Some? ==>
      peers[i].name != peers[j].name
  }

  // ------------------------------------------------------------------ addresses

  /** The one IPv4 address an AllowedIPs entry reserves: a bare address or a /32, nothing wider. */
  function ReservedHost(entry: string): Option<nat> {
    var s := Strip(entry);
    var i := IndexOf(s, '/');
    if i < |s| && Strip(s[i + 1..]) != "32" then None else ParseV4(Strip(s[..i]))
  }

  function ReservedIn(entries: seq<string>): set<nat> {
    if entries == [] then {}
    else (if ReservedHost(entries[0]).Some? then {ReservedHost(entries[0]).value} else {}) + ReservedIn(entries[1..])
  }

  /** Everything one peer reserves. */
  function Reserved(p: Peer): set<nat> {
    ReservedIn(SplitOn(p.allowedIps, ','))
  }

  /** _used_hosts: every address already spoken for. */
  function UsedHosts(peers: seq<Peer>): set<nat> {
    if peers == [] then {} else Reserved(peers[0]) + UsedHosts(peers[1..])
  }

  /** No address is spoken for twice. */
  predicate NoSharedAddress(peers: seq<Peer>) {
    forall i, j :: 0 <= i < j < |peers| ==> Reserved(peers[i]) !! Reserved(peers[j])
  }

  function InPool(net: Net4, used: set<nat>): set<nat>
    requires net.Valid()
  {
    used * net.Hosts()
  }

  /** scan_of's free count: the pool less what the allocator itself would skip. */
  function FreeIps(net: Net4, peers: seq<Peer>): int
    requires net.Valid()
  {
    net.Capacity() - |InPool(net, UsedHosts(peers))|
  }

  /** What the server routes to one client. */
  function PeerAllowed(address: nat, address6: Option<string>): string
    requires address < Subnet.TWO32
  {
    match address6
    case None => Entry(ShowV4(address), "32")
    case Some(a6) => Entry(ShowV4(address), "32") + [','] + (" " + Entry(a6, "128"))
  }

  function Entry(address: string, prefix: string): string {
    address + "/" + prefix
  }

  /** The IPv6 address at an offset, if the tunnel has IPv6. */
  function Ip6At(net6: Option<S6.Prefix64>, offset: nat): Option<string>
    requires 0 < offset < S6.TWO32
  {
    match net6
    case None => None
    case Some(p) => Some(S6.HostAddr(p, offset))
  }

  /** A client's IPv6 address: its offset in the IPv4 pool, written into the tunnel's /64. */
  function ClientIp6(net: Net4, net6: Option<S6.Prefix64>, address: nat): (r: Option<string>)
    requires net.Valid() && net.ContainsHost(address)
  {
    Ip6At(net6, address - net.base)
  }

  // ------------------------------------------------------------------ the edits

  datatype Outcome<+T> = Done(value: T) | NameTaken | NoAddress | NoSuchClient

  function NewClient(publicKey: string, presharedKey: string, allowed: string, name: string, created: string): Peer {
    Peer(publicKey, Some(presharedKey), allowed, None, None, Some(name), Some(created), None, [], [], PEER_HEADER)
  }

  /** What add_client appends, once the name is known, and the address it handed out. */
  function AddClient(peers: seq<Peer>, net: Net4, net6: Option<S6.Prefix64>, name: string, publicKey: string,
                     presharedKey: string, created: string): Outcome<(seq<Peer>, nat)>
    requires net.Valid()
  {
    if Exists(peers, name) then NameTaken
    else
      match LowestFree(net, UsedHosts(peers))
      case None => NoAddress
      case Some(a) =>
        LowestFreeSays(net, UsedHosts(peers));
        Done((peers + [NewClient(publicKey, presharedKey, PeerAllowed(a, ClientIp6(net, net6, a)), name, created)], a))
  }

  /** list.remove: the first peer equal to this one goes. */
  function RemoveEqual(peers: seq<Peer>, p: Peer): seq<Peer> {
    if peers == [] then []
    else if peers[0] == p then peers[1..]
    else [peers[0]] + RemoveEqual(peers[1..], p)
  }

  function RemoveClient(peers: seq<Peer>, name: string): Outcome<seq<Peer>> {
    var i := Find(peers, name);
    if i == |peers| then NoSuchClient else Done(RemoveEqual(peers, peers[i]))
  }

  /** remove_clients: a name with no peer behind it is skipped. */
  function RemoveClients(peers: seq<Peer>, names: seq<string>): seq<Peer>
    decreases |names|
  {
    if names == [] then peers
    else
      match RemoveClient(peers, names[0])
      case Done(rest) => RemoveClients(rest, names[1..])
      case _ => RemoveClients(peers, names[1..])
  }

  function RenameClient(peers: seq<Peer>, old': string, new': string): Outcome<seq<Peer>> {
    var i := Find(peers, old');
    if i == |peers| then NoSuchClient
    else if old' != new' && Exists(peers, new') then NameTaken
    else Done(peers[i := peers[i].(name := Some(new'))])
  }

  /** The marker one switch leaves: none, the one that was there, or a new one. */
  function Switched(p: Peer, enabled: bool, stamp: string): Peer {
    if p.disabledAt.None? == enabled then p
    else p.(disabledAt := if enabled then None else Some(stamp))
  }

  function SetEnabled(peers: seq<Peer>, name: string, enabled: bool, stamp: string): Outcome<seq<Peer>> {
    var i := Find(peers, name);
    if i == |peers| then NoSuchClient else Done(peers[i := Switched(peers[i], enabled, stamp)])
  }

  /** set_clients_enabled: unknown names and empty ones are skipped. */
  function SetManyEnabled(peers: seq<Peer>, names: seq<string>, enabled: bool, stamp: string): (r: seq<Peer>)
    ensures |r| == |peers|
    decreases |names|
  {
    if names == [] then peers
    else
      var next := if names[0] != "" && Exists(peers, names[0]) then SetEnabled(peers, names[0], enabled, stamp).value else peers;
      SetManyEnabled(next, names[1..], enabled, stamp)
  }

  function ResetKeys(peers: seq<Peer>, name: string, publicKey: string, presharedKey: string): Outcome<seq<Peer>> {
    var i := Find(peers, name);
    if i == |peers| then NoSuchClient
    else Done(peers[i := peers[i].(publicKey := publicKey, presharedKey := Some(presharedKey))])
  }

  /** list.remove takes away the very peer that was found: nothing in front of it is equal to it. */
  lemma {:induction false} RemoveEqualAt(peers: seq<Peer>, i: nat)
    requires i < |peers| && forall j :: 0 <= j < i ==> peers[j] != peers[i]
    ensures RemoveEqual(peers, peers[i]) == peers[..i] + peers[i + 1..]
  {
    if i > 0 {
      RemoveEqualAt(peers[1..], i - 1);
      assert peers[1..][i - 1] == peers[i];
    }
  }

  // ------------------------------------------------------------------ reserved addresses

  lemma {:induction false} ReservedInAppend(a: seq<string>, b: seq<string>)
    ensures ReservedIn(a + b) == ReservedIn(a) + ReservedIn(b)
  {
    hide ReservedHost;
    if a == [] {
      assert a + b == b;
    } else {
      assert (a + b)[1..] == a[1..] + b;
      ReservedInAppend(a[1..], b);
    }
  }

  lemma {:induction false} UsedHostsAppend(a: seq<Peer>, b: seq<Peer>)
    ensures UsedHosts(a + b) == UsedHosts(a) + UsedHosts(b)
  {
    hide Reserved;
    if a == [] {
      assert a + b == b;
    } else {
      assert (a + b)[1..] == a[1..] + b;
      UsedHostsAppend(a[1..], b);
    }
  }

  lemma {:induction false} UsedHostsHas(peers: seq<Peer>, i: nat)
    requires i < |peers|
    ensures Reserved(peers[i]) <= UsedHosts(peers)
  {
    hide Reserved;
    if i > 0 {
      UsedHostsHas(peers[1..], i - 1);
    }
  }

  predicate AddressChars(s: string) {
    forall c :: c in s ==> '0' <= c <= '9' || 'a' <= c <= 'f' || c == '.' || c == ':'
  }

  lemma {:induction false} JoinChars(groups: seq<nat>)
    ensures AddressChars(S6.JoinColon(S6.Hex(groups)))
  {
    if |groups| > 0 {
      var parts := S6.Hex(groups);
      assert parts[1..] == S6.Hex(groups[1..]);
      JoinChars(groups[1..]);
      assert AddressChars(parts[0]);
      assert |groups| == 1 ==> S6.JoinColon(parts) == parts[0];
      hide Show;
      assert |groups| > 1 ==> S6.JoinColon(parts) == parts[0] + [':'] + S6.JoinColon(parts[1..]);
    }
  }

  lemma HostAddrChars(p: S6.Prefix64, offset: nat)
    requires 0 < offset < S6.TWO32
    ensures AddressChars(S6.HostAddr(p, offset)) && S6.HostAddr(p, offset) != ""
  {
    JoinChars(S6.DropZeros(S6.Groups(p)));
    JoinChars(S6.HostGroups(offset));
  }

  lemma AddressTrimmed(s: string)
    requires AddressChars(s)
    ensures Trimmed(s) && ',' !in s && '/' !in s
  {
    assert forall i :: 0 <= i < |s| ==> s[i] in s;
  }

  lemma SlashEntry(a: string, suffix: string, pad: string)
    requires AddressChars(a) && a != "" && (suffix == "32" || suffix == "128") && AllSpace(pad)
    ensures ReservedHost(pad + Entry(a, suffix)) == if suffix == "32" then ParseV4(a) else None
  {
    hide ParseV4;
    AddressTrimmed(a);
    var s := Entry(a, suffix);
    assert s[0] in a && Trimmed(s);
    StripPad(pad, s, "");
    assert pad + s + "" == pad + s;
    assert s == a + ['/'] + suffix;
    PartitionAt(s, a, '/', suffix);
    StripTrimmed(a);
    StripTrimmed(suffix);
  }

  lemma EntryPlain(a: string, suffix: string)
    requires AddressChars(a) && (suffix == "32" || suffix == "128")
    ensures ',' !in Entry(a, suffix) && ',' !in " " + Entry(a, suffix)
    ensures '#' !in Entry(a, suffix) && '\n' !in Entry(a, suffix)
  {
  }

  lemma TwoEntries(first: string, second: string)
    requires ',' !in first && ',' !in second
    ensures SplitOn(first, ',') == [first] && SplitOn(first + [','] + second, ',') == [first, second]
  {
    hide SplitOn;
    SplitOnWhole(first, ',');
    SplitOnWhole(second, ',');
    SplitOnStep(first, ',', second);
  }

  lemma OneEntryReserves(entry: string)
    ensures ReservedIn([entry]) == if ReservedHost(entry).Some? then {ReservedHost(entry).value} else {}
  {
    hide ReservedHost;
    assert [entry][1..] == [];
  }

  /** A client's entry reserves its own address and no other, with or without an IPv6 half. */
  lemma PeerAllowedReserves(address: nat, address6: Option<string>)
    requires address < Subnet.TWO32
    requires address6.Some? ==> AddressChars(address6.value) && address6.value != ""
    ensures ReservedIn(SplitOn(PeerAllowed(address, address6), ',')) == {address}
  {
    V4Plain(address);
    V4RoundTrip(address);
    hide ShowV4, SplitOn, ReservedHost, ReservedIn, ParseV4, Entry;
    var a := ShowV4(address);
    var first := Entry(a, "32");
    EntryPlain(a, "32");
    SlashEntry(a, "32", "");
    assert "" + first == first;
    OneEntryReserves(first);
    if address6.Some? {
      var second := " " + Entry(address6.value, "128");
      EntryPlain(address6.value, "128");
      SlashEntry(address6.value, "128", " ");
      OneEntryReserves(second);
      TwoEntries(first, second);
      ReservedInAppend([first], [second]);
      assert [first] + [second] == [first, second];
    } else {
      TwoEntries(first, "");
    }
  }

  lemma PeerAllowedOk(address: nat, address6: Option<string>)
    requires address < Subnet.TWO32
    requires address6.Some? ==> AddressChars(address6.value)
    ensures AllowedOk(PeerAllowed(address, address6))
  {
    V4Plain(address);
    hide ShowV4, IsSpace;
    var a := ShowV4(address);
    EntryPlain(a, "32");
    if address6.Some? { EntryPlain(address6.value, "128"); }
    assert PeerAllowed(address, address6)[0] == a[0] && a[0] in a;
    assert !IsSpace(a[0]) by { AddressTrimmed(a); }
  }

  // ------------------------------------------------------------------ add

  /** The peer add_client appends reserves exactly the address it was given. */
  lemma NewClientReserves(net: Net4, net6: Option<S6.Prefix64>, a: nat, publicKey: string, presharedKey: string,
                          name: string, created: string)
    requires net.Valid() && net.ContainsHost(a)
    ensures var p := NewClient(publicKey, presharedKey, PeerAllowed(a, ClientIp6(net, net6, a)), name, created);
            Reserved(p) == {a} && AllowedOk(p.allowedIps)
  {
    if net6.Some? {
      HostAddrChars(net6.value, a - net.base);
    }
    hide S6.HostAddr, PeerAllowed, SplitOn, AddressChars, ReservedIn;
    PeerAllowedReserves(a, ClientIp6(net, net6, a));
    PeerAllowedOk(a, ClientIp6(net, net6, a));
  }

  /** `after` is `peers` with one client more, holding address a and nothing else. */
  predicate Appended(peers: seq<Peer>, after: seq<Peer>, name: string, publicKey: string, a: nat) {
    && |after| == |peers| + 1 && after[..|peers|] == peers
    && after[|peers|].name == Some(name) && after[|peers|].publicKey == publicKey
    && Reserved(after[|peers|]) == {a} && UsedHosts(after) == UsedHosts(peers) + {a}
  }

  /** The lowest address of the pool that no peer entry reserves: not the network address, not the
      server's, not broadcast. */
  ghost predicate HandedOutRight(peers: seq<Peer>, net: Net4, a: nat)
    requires net.Valid()
  {
    && net.base + 2 <= a <= net.base + Size(net.prefix) - 2
    && (forall i :: 0 <= i < |peers| ==> a !in Reserved(peers[i]))
    && (forall b: nat :: net.base + 2 <= b < a ==> b in UsedHosts(peers))
  }

  /** Adding a client: refused exactly when the name is taken or the pool is full, and otherwise the
      lowest free address, to one new peer, with every other peer as it was. */
  lemma AddSays(peers: seq<Peer>, net: Net4, net6: Option<S6.Prefix64>, name: string, publicKey: string,
                presharedKey: string, created: string)
    requires net.Valid()
    ensures match AddClient(peers, net, net6, name, publicKey, presharedKey, created)
            case Done(r) =>
              !Exists(peers, name) && Appended(peers, r.0, name, publicKey, r.1) && HandedOutRight(peers, net, r.1)
            case NameTaken => Exists(peers, name)
            case NoAddress => !Exists(peers, name) && net.Hosts() <= UsedHosts(peers)
            case NoSuchClient => false
  {
    hide Reserved, ClientIp6, PeerAllowed, LowestFree, Exists, HandedOutRight, NewClient;
    LowestFreeSays(net, UsedHosts(peers));
    match LowestFree(net, UsedHosts(peers))
    case None =>
    case Some(a) =>
      LowestIsRight(peers, net, a);
      var p := NewClient(publicKey, presharedKey, PeerAllowed(a, ClientIp6(net, net6, a)), name, created);
      NewClientReserves(net, net6, a, publicKey, presharedKey, name, created);
      AppendOne(peers, p);
      NewClientFields(publicKey, presharedKey, PeerAllowed(a, ClientIp6(net, net6, a)), name, created);
  }

  lemma NewClientFields(publicKey: string, presharedKey: string, allowed: string, name: string, created: string)
    ensures var p := NewClient(publicKey, presharedKey, allowed, name, created);
            p.name == Some(name) && p.publicKey == publicKey && p.allowedIps == allowed
  {
  }

  lemma LowestIsRight(peers: seq<Peer>, net: Net4, a: nat)
    requires net.Valid() && IsLowestFree(net, UsedHosts(peers), Some(a))
    ensures HandedOutRight(peers, net, a)
  {
    hide Reserved;
    forall i | 0 <= i < |peers| ensures a !in Reserved(peers[i]) {
      UsedHostsHas(peers, i);
    }
  }

  lemma AppendOne(peers: seq<Peer>, p: Peer)
    ensures UsedHosts(peers + [p]) == UsedHosts(peers) + Reserved(p) && (peers + [p])[..|peers|] == peers
  {
    hide Reserved;
    UsedHostsAppend(peers, [p]);
    assert [p][1..] == [] && UsedHosts([p]) == Reserved(p) + UsedHosts([]);
  }

  // ------------------------------------------------------------------ how many are left

  /** Every add takes exactly one address out of the free count, and only an empty pool refuses. */
  lemma AddTakesOne(peers: seq<Peer>, net: Net4, net6: Option<S6.Prefix64>, name: string, publicKey: string,
                    presharedKey: string, created: string)
    requires net.Valid()
    ensures var r := AddClient(peers, net, net6, name, publicKey, presharedKey, created);
            && FreeIps(net, peers) >= 0
            && (r.Done? ==> FreeIps(net, r.value.0) == FreeIps(net, peers) - 1)
            && (r.NoAddress? <==> !Exists(peers, name) && FreeIps(net, peers) == 0)
  {
    hide Reserved, AddClient, Exists, Subnet.Range;
    AddSays(peers, net, net6, name, publicKey, presharedKey, created);
    HostsCount(net);
    var used := InPool(net, UsedHosts(peers));
    SubsetCount(used, net.Hosts());
    var r := AddClient(peers, net, net6, name, publicKey, presharedKey, created);
    match r
    case Done(v) =>
      HostIsInPool(net, v.1);
      assert v.1 !in UsedHosts(peers) by {
        NotUsed(peers, v.1);
      }
      assert InPool(net, UsedHosts(v.0)) == used + {v.1};
      assert v.1 in net.Hosts() && v.1 !in used;
      ProperSubsetCount(used, net.Hosts(), v.1);
    case NoAddress => assert used == net.Hosts();
    case NameTaken =>
    case NoSuchClient =>
  }

  lemma HostIsInPool(net: Net4, a: nat)
    requires net.Valid()
    ensures a in net.Hosts() <==> net.ContainsHost(a)
  {
    assert Subnet.Between(net.FirstHost(), a, net.LastHost() + 1) <==> net.ContainsHost(a);
  }

  lemma {:induction false} NotUsed(peers: seq<Peer>, a: nat)
    requires forall i :: 0 <= i < |peers| ==> a !in Reserved(peers[i])
    ensures a !in UsedHosts(peers)
  {
    hide Reserved;
    if peers != [] {
      NotUsed(peers[1..], a);
    }
  }

  lemma {:induction false} SubsetCount<T>(a: set<T>, b: set<T>)
    requires a <= b
    ensures |a| <= |b| && (|a| == |b| ==> a == b)
  {
    assert b == a + (b - a);
    assert |b| == |a| + |b - a|;
  }

  lemma ProperSubsetCount<T>(a: set<T>, b: set<T>, x: T)
    requires a <= b && x in b && x !in a
    ensures |a| < |b|
  {
    SubsetCount(a, b);
  }

  datatype Request = Request(name: string, publicKey: string, presharedKey: string, created: string)

  /** Two clients with different IPv4 addresses never share a derived IPv6 one. */
  lemma DerivedIp6Distinct(net: Net4, p: S6.Prefix64, a: nat, b: nat)
    requires net.Valid() && net.ContainsHost(a) && net.ContainsHost(b) && a != b
    ensures ClientIp6(net, Some(p), a) != ClientIp6(net, Some(p), b)
  {
    if ClientIp6(net, Some(p), a) == ClientIp6(net, Some(p), b) {
      S6.HostAddrInjective(p, a - net.base, p, b - net.base);
    }
  }

  // ------------------------------------------------------------------ a drawn name

  /** names.unique_name over the given draws: the first one no peer's folded name equals and no
      client file carries. */
  function FreeName(peers: seq<Peer>, files: set<string>, draws: seq<string>): Option<string> {
    if draws == [] then None
    else if (forall i :: 0 <= i < |peers| && peers[i].name.Some? && peers[i].name.value != "" ==>
               Fold(peers[i].name.value) != draws[0])
            && draws[0] !in files then Some(draws[0])
    else FreeName(peers, files, draws[1..])
  }

  /** A name from names.ALPHABET: lower-case letters and digits only. */
  predicate Drawn(name: string) {
    name != "" && forall i :: 0 <= i < |name| ==> 'a' <= name[i] <= 'z' || '0' <= name[i] <= '9'
  }

  /** A drawn name is one no peer answers to, and no file would be written over by it. */
  lemma {:induction false} FreeNameIsFree(peers: seq<Peer>, files: set<string>, draws: seq<string>)
    requires forall i :: 0 <= i < |draws| ==> Drawn(draws[i])
    requires FreeName(peers, files, draws).Some?
    ensures var name := FreeName(peers, files, draws).value;
            !Exists(peers, name) && name !in files && name in draws
  {
    if FreeName(peers, files, draws) == Some(draws[0]) && draws[0] !in files {
      var name := draws[0];
      assert Drawn(name);
      assert Fold(name) == name;
      var i := Find(peers, name);
      if i < |peers| {
        assert Answers(peers[i], name);
        assert FreeName(peers, files, draws) == FreeName(peers, files, draws[1..]);
        FreeNameIsFree(peers, files, draws[1..]);
      }
    } else {
      FreeNameIsFree(peers, files, draws[1..]);
    }
  }
}
