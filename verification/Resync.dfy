/** Rebuilding every client's config from the server's settings. */
module Resync {
  import opened Text
  import C = Config
  import opened Params
  import opened ClientConf
  import opened Subnet
  import K = Clients
  import S6 = Subnet6
  import E = ConfEntries

  // --- what goes into a client's config

  function KeyName(p: Param): string {
    match p
    case Jc => "Jc" case Jmin => "Jmin" case Jmax => "Jmax"
    case S1 => "S1" case S2 => "S2" case S3 => "S3" case S4 => "S4"
    case H1 => "H1" case H2 => "H2" case H3 => "H3" case H4 => "H4"
    case I1 => "I1" case I2 => "I2" case I3 => "I3" case I4 => "I4" case I5 => "I5"
    case HeaderProtectionKey => "HeaderProtectionKey"
    case ContentPaddingAddition => "ContentPaddingAddition"
    case RekeyAfterTime => "RekeyAfterTime" case RekeyTimeout => "RekeyTimeout"
    case RejectAfterTime => "RejectAfterTime" case KeepaliveTimeout => "KeepaliveTimeout"
    case MaxHandshakeAttempts => "MaxHandshakeAttempts"
    case RandomTrailers => "RandomTrailers" case DisableCookies => "DisableCookies"
    case ListenPort => "ListenPort" case MTU => "MTU"
    case EndpointPort => "EndpointPort" case PersistentKeepalive => "PersistentKeepalive"
  }

  /** The settings every client config carries a copy of, in the order they are written. */
  const AWG_PARAMS := [Jc, Jmin, Jmax, S1, S2, S3, S4, H1, H2, H3, H4, I1, I2, I3, I4, I5, HeaderProtectionKey,
                       ContentPaddingAddition, RekeyAfterTime, RekeyTimeout, RejectAfterTime, KeepaliveTimeout,
                       MaxHandshakeAttempts, RandomTrailers]

  /** The server's side of a client config: its tunnel, its identity, the client-facing defaults and its
      own obfuscation settings. */
  datatype Server = Server(net: Net4, net6: Option<S6.Prefix64>, publicKey: string, endpoint: string, mtu: string,
                           keepalive: string, dns: string, allowed: string, params: Values)

  function ParamRows(values: Values, params: seq<Param>): seq<Row> {
    if params == [] then []
    else (if IsSet(params[0], Get(values, params[0])) then [Sets(KeyName(params[0]), Get(values, params[0]))] else [])
         + ParamRows(values, params[1..])
  }

  function FrontRows(s: Server, private: string, address: string, dns: string): seq<Row> {
    [Head("Interface"), Sets("PrivateKey", private), Sets("Address", address), Sets("DNS", dns), Sets("MTU", s.mtu), Gap]
  }

  function BackRows(s: Server, preshared: string, allowed: string): seq<Row> {
    [Gap, Head("Peer"), Sets("PublicKey", s.publicKey), Sets("PresharedKey", preshared), Sets("Endpoint", s.endpoint),
     Sets("AllowedIPs", allowed), Sets("PersistentKeepalive", s.keepalive)]
  }

  function ClientRows(s: Server, private: string, address: string, dns: string, allowed: string, preshared: string): seq<Row> {
    FrontRows(s, private, address, dns) + ParamRows(s.params, AWG_PARAMS) + BackRows(s, preshared, allowed)
  }

  /** store._emit_client_conf. */
  function EmitClient(s: Server, private: string, address: string, dns: string, allowed: string, preshared: string): string {
    Unlines(RowTexts(ClientRows(s, private, address, dns, allowed, preshared)))
  }

  // --- addresses

  /** The first entry of a peer's AllowedIPs that is not an IPv6 one, without its prefix length. */
  function FirstV4(entries: seq<string>): string {
    if entries == [] then ""
    else
      var e := Strip(entries[0]);
      if e != "" && ':' !in e then e[..IndexOf(e, '/')] else FirstV4(entries[1..])
  }

  function PeerIp(allowedIps: string): string {
    FirstV4(SplitOn(allowedIps, ','))
  }

  /** subnet6.offset_of. */
  function OffsetOf(net: Net4, address: string): Option<nat>
    requires net.Valid()
  {
    match ParseV4(Strip(address))
    case Some(a) => if net.base <= a < net.base + Size(net.prefix) then Some(a - net.base) else None
    case None => None
  }

  /** store._client_ip6, for an address as it stands in a peer. */
  function Ip6Of(s: Server, address: string): Option<string>
    requires s.net.Valid()
  {
    match OffsetOf(s.net, address)
    case Some(offset) => if offset > 0 then K.Ip6At(s.net6, offset) else None
    case None => None
  }

  /** For an address of the pool it is the one the client was given when it was added. */
  lemma AddedWithIp6(s: Server, a: nat)
    requires s.net.Valid() && s.net.ContainsHost(a)
    ensures Ip6Of(s, ShowV4(a)) == K.ClientIp6(s.net, s.net6, a)
  {
    V4RoundTrip(a);
    V4Plain(a);
    V4Trimmed(a);
    hide ShowV4, ParseV4;
  }

  lemma V4Trimmed(a: nat)
    requires a < Subnet.TWO32
    ensures Strip(ShowV4(a)) == ShowV4(a)
  {
    V4Plain(a);
    var text := ShowV4(a);
    assert text[0] in text && text[|text| - 1] in text;
    StripTrimmed(text);
  }

  function InterfaceAddress(s: Server, address: string): string
    requires s.net.Valid()
  {
    match Ip6Of(s, address)
    case Some(a6) => address + "/32, " + a6 + "/128"
    case None => address + "/32"
  }

  /** store._backfill_peer_ipv6, for one peer. */
  function BackfillOne(s: Server, p: C.Peer): C.Peer
    requires s.net.Valid()
  {
    var address := PeerIp(p.allowedIps);
    if ':' in p.allowedIps || Ip6Of(s, address).None? then p
    else p.(allowedIps := address + "/32, " + Ip6Of(s, address).value + "/128")
  }

  function Backfill(s: Server, peers: seq<C.Peer>): (out: seq<C.Peer>)
    requires s.net.Valid()
    ensures |out| == |peers| && forall i :: 0 <= i < |peers| ==> out[i] == BackfillOne(s, peers[i])
  {
    if peers == [] then [] else [BackfillOne(s, peers[0])] + Backfill(s, peers[1..])
  }

  function BackfillCount(s: Server, peers: seq<C.Peer>): nat
    requires s.net.Valid()
  {
    if peers == [] then 0
    else (if BackfillOne(s, peers[0]) != peers[0] then 1 else 0) + BackfillCount(s, peers[1..])
  }

  // --- route lists

  predicate AnyV6(entries: seq<string>) {
    exists e :: e in entries && ':' in e
  }

  /** subnet6.needs_ipv6; whether the entries cover the whole of IPv4 is left to `whole`. */
  predicate NeedsV6(whole: seq<string> -> bool, value: string) {
    E.Entries(value) != [] && !AnyV6(E.Entries(value)) && whole(E.Entries(value))
  }

  function WithV6(s: Server, whole: seq<string> -> bool, value: string): string {
    if s.net6.None? || !NeedsV6(whole, value) then value else Strip(value) + ", ::/0"
  }

  // --- one client, then all of them

  function Or(a: string, b: string): string {
    if a != "" then a else b
  }

  /** What resync_all is told: an override for DNS, and the tunnel's old and new network. */
  datatype Ask = Ask(dns: string, move: Option<(string, string)>)

  function Moved(ask: Ask, allowed: string): string {
    if ask.move.Some? && Strip(allowed) == ask.move.value.0 then ask.move.value.1 else allowed
  }

  predicate Breaks(value: string) {
    '\n' in value || '\r' in value
  }

  /** Whether the client's own file still holds its keys. */
  predicate HasKeys(pubkey: string -> Option<string>, p: C.Peer, text: string) {
    && Value(text, "PrivateKey") != "" && Value(text, "PresharedKey") != ""
    && pubkey(Value(text, "PrivateKey")) == Some(p.publicKey)
  }

  function DnsFor(s: Server, ask: Ask, text: string): string {
    Or(ask.dns, Or(Value(text, "DNS"), s.dns))
  }

  function AllowedFor(s: Server, whole: seq<string> -> bool, ask: Ask, text: string): string {
    WithV6(s, whole, Moved(ask, Or(Value(text, "AllowedIPs"), s.allowed)))
  }

  /** A client's file after the loop's turn; None is a refused value, which ends the whole resync. */
  function TextAfter(s: Server, pubkey: string -> Option<string>, whole: seq<string> -> bool, ask: Ask, p: C.Peer,
                     text: string): Option<string>
    requires s.net.Valid()
  {
    if !HasKeys(pubkey, p, text) then Some(text)
    else
      var dns, allowed := DnsFor(s, ask, text), AllowedFor(s, whole, ask, text);
      if Breaks(dns) || Breaks(allowed) then None
      else Some(EmitClient(s, Value(text, "PrivateKey"), InterfaceAddress(s, PeerIp(p.allowedIps)), dns, allowed,
                           Value(text, "PresharedKey")))
  }

  type Files = map<string, string>

  predicate Takes(p: C.Peer, files: Files) {
    p.publicKey != "" && p.name.Some? && p.name.value != "" && p.name.value in files
  }

  function Loop(s: Server, pubkey: string -> Option<string>, whole: seq<string> -> bool, ask: Ask, peers: seq<C.Peer>,
                files: Files, written: nat): Option<(Files, nat)>
    requires s.net.Valid()
    decreases |peers|
  {
    if peers == [] then Some((files, written))
    else if !Takes(peers[0], files) then Loop(s, pubkey, whole, ask, peers[1..], files, written)
    else
      var name := peers[0].name.value;
      match TextAfter(s, pubkey, whole, ask, peers[0], files[name])
      case None => None
      case Some(text) =>
        Loop(s, pubkey, whole, ask, peers[1..], files[name := text], if text == files[name] then written else written + 1)
  }

  /** store.resync_all, on the files as they are: the files it leaves and how many it wrote. */
  function ResyncFiles(s: Server, pubkey: string -> Option<string>, whole: seq<string> -> bool, ask: Ask,
                       peers: seq<C.Peer>, files: Files): Option<(Files, nat)>
    requires s.net.Valid()
  {
    if Breaks(ask.dns) then None else Loop(s, pubkey, whole, ask, Backfill(s, peers), files, 0)
  }

  method ResyncAll(s: Server, pubkey: string -> Option<string>, whole: seq<string> -> bool, ask: Ask, peers: seq<C.Peer>,
                   before: Files) returns (done: Option<(Files, nat)>)
    requires s.net.Valid()
    ensures done == ResyncFiles(s, pubkey, whole, ask, peers, before)
  {
    hide TextAfter, Backfill;
    if Breaks(ask.dns) {
      return None;
    }
    var peers := Backfill(s, peers);
    var files, written := before, 0;
    assert peers[0..] == peers;
    for i := 0 to |peers|
      invariant Loop(s, pubkey, whole, ask, peers, before, 0) == Loop(s, pubkey, whole, ask, peers[i..], files, written)
    {
      assert peers[i..][0] == peers[i] && peers[i..][1..] == peers[i + 1..];
      var peer := peers[i];
      if !Takes(peer, files) {
        continue;
      }
      var current := files[peer.name.value];
      var text := TextAfter(s, pubkey, whole, ask, peer, current);
      if text.None? {
        return None;
      }
      if text.value == current {
        assert files[peer.name.value := text.value] == files;
        continue;
      }
      files := files[peer.name.value := text.value];
      written := written + 1;
    }
    assert peers[|peers|..] == [];
    done := Some((files, written));
  }
}
