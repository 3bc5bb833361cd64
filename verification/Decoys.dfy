/** The decoy templates, and that every packet sent from one says the truth about its own lengths. */
module Decoys {
  import opened Text
  import opened Imitation

  type Bytes = seq<Byte>

  function U16(n: nat): (b: Bytes)
    requires n < 0x10000
    ensures |b| == 2
  {
    var high: nat := n / 256;
    var low: nat := n % 256;
    [high, low]
  }

  function At16(b: Bytes, i: nat): nat
    requires i + 2 <= |b|
  {
    (b[i] as nat) * 256 + (b[i + 1] as nat)
  }

  lemma U16Reads(n: nat)
    requires n < 0x10000
    ensures At16(U16(n), 0) == n
  {
  }

  // --- STUN, section 5 and 14 of RFC 8489

  function StunRequest(controlling: bool): seq<Tag> {
    [Literal([0, 1] + U16(if controlling then 20 else 8) + [0x21, 0x12, 0xa4, 0x42]), Fresh(12),
     Literal([0, 0x24, 0, 4]), Fresh(4)]
    + if controlling then [Literal([0x80, 0x2a, 0, 8]), Fresh(8)] else []
  }

  function StunResponse(): seq<Tag> {
    [Literal([1, 1, 0, 0x0c, 0x21, 0x12, 0xa4, 0x42]), Fresh(12), Literal([0, 0x20, 0, 8, 0, 1]), Fresh(6)]
  }

  /** A run of attributes, each a type, a length and as many bytes, padded to a multiple of four. */
  predicate IsAttributes(b: Bytes)
    decreases |b|
  {
    b == []
    || (|b| >= 4 && var n := (At16(b, 2) + 3) / 4 * 4; 4 + n <= |b| && IsAttributes(b[4 + n..]))
  }

  /** The length field counts everything after the twenty-byte header, which is whole attributes. */
  predicate IsStun(b: Bytes) {
    && |b| >= 20 && b[0] < 64 && b[4..8] == [0x21, 0x12, 0xa4, 0x42]
    && At16(b, 2) == |b| - 20 && IsAttributes(b[20..])
  }

  // --- QUIC, section 16 and 17.2.2 of RFC 9000

  function QuicInitial(dcid: nat, total: nat): seq<Tag>
    requires dcid < 256 && 10 + dcid <= total < 0x4000
  {
    var body := total - 10 - dcid;
    [Literal([0xc3, 0, 0, 0, 1, dcid]), Fresh(dcid), Literal([0, 0] + U16(0x4000 + body)), Fresh(body)]
  }

  function QuicShort(first: Byte, payload: nat): seq<Tag> {
    [Literal([first]), Fresh(8), Fresh(payload)]
  }

  /** How many bytes a variable-length integer takes, from its first. */
  function VarintSize(first: Byte): nat {
    match first / 64
    case 0 => 1
    case 1 => 2
    case 2 => 4
    case _ => 8
  }

  function Big(b: Bytes): nat {
    if b == [] then 0 else Big(b[..|b| - 1]) * 256 + (b[|b| - 1] as nat)
  }

  /** A variable-length integer: the two top bits of the first byte are its size. */
  function Varint(b: Bytes, at: nat): nat
    requires at < |b| && at + VarintSize(b[at]) <= |b|
  {
    Big([b[at] % 64] + b[at + 1..at + VarintSize(b[at])])
  }

  /** Where the field after a variable-length integer starts. */
  predicate HasVarint(b: Bytes, at: nat) {
    at < |b| && at + VarintSize(b[at]) <= |b|
  }

  /** A long header of type Initial, version 1, two connection IDs, a token, and a Length that is the
      number of bytes left. */
  predicate IsInitial(b: Bytes) {
    && |b| > 5 && b[0] / 16 == 0xc && b[1..5] == [0, 0, 0, 1]
    && var source: nat := (b[5] as nat) + 6;
    && source < |b|
    && var token: nat := source + 1 + (b[source] as nat);
    && HasVarint(b, token)
    && var length: nat := token + VarintSize(b[token]) + Varint(b, token);
    && HasVarint(b, length)
    && Varint(b, length) == |b| - (length + VarintSize(b[length]))
  }

  // --- DNS, section 3.1 and 4.1 of RFC 1035

  function LabelBytes(piece: string): (b: Bytes)
    ensures |b| == |piece|
  {
    seq(|piece|, i requires 0 <= i < |piece| => (piece[i] as nat) % 256)
  }

  function Labels(parts: seq<string>): Bytes
    requires forall i :: 0 <= i < |parts| ==> |parts[i]| < 256
  {
    if parts == [] then [0] else [|parts[0]|] + LabelBytes(parts[0]) + Labels(parts[1..])
  }

  /** A host name whose labels a resolver accepts. */
  predicate IsHostName(name: string) {
    forall p :: p in SplitOn(name, '.') ==> 1 <= |p| <= 63
  }

  /** validate.dns_name_hex, before it is spelled in hex. */
  function NameBytes(name: string): Bytes
    requires IsHostName(name)
  {
    Labels(SplitOn(name, '.'))
  }

  function DnsQuery(name: string, udp: nat): seq<Tag>
    requires IsHostName(name) && udp < 0x10000
  {
    [Fresh(2), Literal([1, 0, 0, 1, 0, 0, 0, 0, 0, 1] + NameBytes(name)
                       + ([0, 1, 0, 1] + ([0, 0, 0x29] + U16(udp) + [0, 0, 0, 0, 0, 0])))]
  }

  function DnsAnswer(name: string, flags: nat, ttl: Bytes, address: Bytes): seq<Tag>
    requires IsHostName(name) && flags < 0x10000 && |ttl| == 4 && |address| == 4
  {
    [Fresh(2), Literal(U16(flags) + [0, 1, 0, 1, 0, 0, 0, 0] + NameBytes(name)
                       + ([0, 1, 0, 1] + ([0xc0, 0x0c, 0, 1, 0, 1] + ttl + [0, 4] + address)))]
  }

  /** Where a name ends: length bytes and labels up to the empty one, or a two-byte pointer. */
  function NameEnd(b: Bytes): (end: Option<nat>)
    ensures end.Some? ==> 0 < end.value <= |b|
    decreases |b|
  {
    if b == [] then None
    else if b[0] == 0 then Some(1)
    else if b[0] >= 0xc0 then (if |b| >= 2 then Some(2) else None)
    else if b[0] > 63 || 1 + b[0] > |b| then None
    else
      match NameEnd(b[1 + b[0]..])
      case Some(n) => Some(1 + b[0] + n)
      case None => None
  }

  /** A name, its type, class and time to live, and as much data as the length says, to the end. */
  predicate IsOneRecord(b: Bytes) {
    match NameEnd(b)
    case Some(n) => n + 10 <= |b| && At16(b, n + 8) == |b| - n - 10
    case None => false
  }

  /** One question and one record, which are the whole message, and the counts that say so. */
  predicate IsDns(b: Bytes, answer: bool) {
    && |b| >= 12
    && At16(b, 4) == 1 && At16(b, 6) == (if answer then 1 else 0) && At16(b, 8) == 0
    && At16(b, 10) == (if answer then 0 else 1)
    && match NameEnd(b[12..])
       case Some(n) => 12 + n + 4 <= |b| && IsOneRecord(b[12 + n + 4..])
       case None => false
  }

  /** One media packet. */
  function Rtp(second: Byte, ssrc: Bytes, payload: nat): seq<Tag>
    requires |ssrc| == 4
  {
    [Literal([0x80, second]), Fresh(6), Literal(ssrc), Fresh(payload)]
  }

  // --- what a sending looks like

  lemma EmitsFirst(tag: Tag, rest: seq<Tag>, b: Bytes)
    requires Emits([tag] + rest, b)
    ensures SizeOf(tag) <= |b| && (tag.Literal? ==> b[..SizeOf(tag)] == tag.bytes) && Emits(rest, b[SizeOf(tag)..])
  {
    assert ([tag] + rest)[0] == tag && ([tag] + rest)[1..] == rest;
  }

  lemma EmitsSplit(xs: seq<Tag>, ys: seq<Tag>, b: Bytes)
    requires Emits(xs + ys, b)
    ensures TotalSize(xs) <= |b| && Emits(xs, b[..TotalSize(xs)]) && Emits(ys, b[TotalSize(xs)..])
  {
    if xs == [] {
      assert xs + ys == ys && b[..0] == [] && b[0..] == b;
    } else {
      assert xs + ys == [xs[0]] + (xs[1..] + ys);
      var n := SizeOf(xs[0]);
      EmitsFirst(xs[0], xs[1..] + ys, b);
      EmitsSplit(xs[1..], ys, b[n..]);
      var k := TotalSize(xs);
      assert b[..k][..n] == b[..n] && b[..k][n..] == b[n..][..k - n];
      assert b[n..][k - n..] == b[k..];
    }
  }

  /** A literal tag's bytes stand where the sizes before it say. */
  lemma PieceAt(xs: seq<Tag>, tag: Tag, ys: seq<Tag>, b: Bytes)
    requires Emits(xs + ([tag] + ys), b)
    ensures var k := TotalSize(xs);
            k + SizeOf(tag) <= |b| && (tag.Literal? ==> b[k..k + SizeOf(tag)] == tag.bytes)
  {
    hide Emits;
    var k := TotalSize(xs);
    EmitsSplit(xs, [tag] + ys, b);
    EmitsFirst(tag, ys, b[k..]);
    assert b[k..][..SizeOf(tag)] == b[k..k + SizeOf(tag)];
  }

  lemma {:induction false} TotalJoin(xs: seq<Tag>, ys: seq<Tag>)
    ensures TotalSize(xs + ys) == TotalSize(xs) + TotalSize(ys)
  {
    if xs == [] {
      assert xs + ys == ys;
    } else {
      assert (xs + ys)[1..] == xs[1..] + ys;
      TotalJoin(xs[1..], ys);
    }
  }

  lemma TotalOne(tag: Tag)
    ensures TotalSize([tag]) == SizeOf(tag)
  {
    assert [tag][1..] == [];
  }

  lemma TotalTwo(one: Tag, two: Tag)
    ensures TotalSize([one, two]) == SizeOf(one) + SizeOf(two)
  {
    assert [one, two] == [one] + [two];
    TotalJoin([one], [two]);
    TotalOne(one);
    TotalOne(two);
  }

  /** Four tags: the length of a sending, and where its two literal pieces are. */
  lemma FourPieces(one: Tag, two: Tag, three: Tag, four: Tag, b: Bytes)
    requires Emits([one, two, three, four], b)
    ensures TotalSize([one, two, three, four]) == |b| == SizeOf(one) + SizeOf(two) + SizeOf(three) + SizeOf(four)
    ensures one.Literal? ==> b[..SizeOf(one)] == one.bytes
    ensures three.Literal? ==> b[SizeOf(one) + SizeOf(two)..SizeOf(one) + SizeOf(two) + SizeOf(three)] == three.bytes
  {
    hide Emits, TotalSize;
    var all := [one, two, three, four];
    assert all == [] + ([one] + [two, three, four]);
    assert all == [one, two] + ([three] + [four]);
    assert all == [one, two] + [three, four];
    EmitsItsSize(all, b);
    TotalJoin([one, two], [three, four]);
    TotalTwo(one, two);
    TotalTwo(three, four);
    TotalNone();
    PieceAt([], one, [two, three, four], b);
    PieceAt([one, two], three, [four], b);
  }

  lemma TotalNone()
    ensures TotalSize([]) == 0
  {
  }

  // --- QUIC

  lemma TwoByteVarint(n: nat)
    requires n < 0x4000
    ensures var u := U16(0x4000 + n); u[0] / 64 == 1 && ((u[0] as nat) % 64) * 256 + (u[1] as nat) == n
  {
  }

  lemma OneByteVarint(b: Bytes, at: nat)
    requires at < |b| && b[at] == 0
    ensures HasVarint(b, at) && VarintSize(b[at]) == 1 && Varint(b, at) == 0
  {
    assert [b[at] % 64] + b[at + 1..at + 1] == [0];
    BigOne(0);
  }

  lemma VarintAt(b: Bytes, at: nat, n: nat)
    requires n < 0x4000 && at + 2 <= |b| && b[at..at + 2] == U16(0x4000 + n)
    ensures HasVarint(b, at) && VarintSize(b[at]) == 2 && Varint(b, at) == n
  {
    var u := U16(0x4000 + n);
    TwoByteVarint(n);
    assert b[at] == b[at..at + 2][0] == u[0] && b[at + 1] == b[at..at + 2][1] == u[1];
    assert [b[at] % 64] + b[at + 1..at + 2] == [u[0] % 64, u[1]];
    BigTwo(u[0] % 64, u[1]);
  }

  lemma BigOne(x: Byte)
    ensures Big([x]) == x
  {
    assert [x][..0] == [];
  }

  lemma BigTwo(x: Byte, y: Byte)
    ensures Big([x, y]) == (x as nat) * 256 + (y as nat)
  {
    assert [x, y][..1] == [x];
    BigOne(x);
  }

  /** Every sending of a decoy Initial reads as one: its Length field counts exactly the bytes after
      it, and the datagram is as long as section 14.1 of RFC 9000 asks. */
  lemma InitialIsTrue(dcid: nat, total: nat, b: Bytes)
    requires 0 < dcid <= 20 && 1200 <= total < 0x4000 && Emits(QuicInitial(dcid, total), b)
    ensures |b| == total == TotalSize(QuicInitial(dcid, total)) && IsInitial(b)
  {
    hide Emits, TotalSize, Varint, VarintSize, U16;
    var body := total - 10 - dcid;
    var first, last := Literal([0xc3, 0, 0, 0, 1, dcid]), Literal([0, 0] + U16(0x4000 + body));
    FourPieces(first, Fresh(dcid), last, Fresh(body), b);
    var at := 6 + dcid;
    assert b[..6] == first.bytes && b[at..at + 4] == last.bytes;
    assert b[0] == b[..6][0] && b[5] == b[..6][5] && b[1..5] == b[..6][1..5];
    assert b[at] == b[at..at + 4][0] && b[at + 1] == b[at..at + 4][1];
    assert b[at + 2..at + 4] == b[at..at + 4][2..] == U16(0x4000 + body);
    OneByteVarint(b, at + 1);
    VarintAt(b, at + 2, body);
  }

  // --- STUN

  lemma OneAttribute(b: Bytes, n: nat)
    requires |b| >= 4 + n && n % 4 == 0 && At16(b, 2) == n && IsAttributes(b[4 + n..])
    ensures IsAttributes(b)
  {
  }

  lemma StunHead(b: Bytes, kind: Byte, length: nat)
    requires |b| >= 20 && kind < 64 && length < 0x10000
    requires b[..8] == [kind, 1] + U16(length) + [0x21, 0x12, 0xa4, 0x42]
    ensures b[0] == kind && b[4..8] == [0x21, 0x12, 0xa4, 0x42] && At16(b, 2) == length
  {
    var head := b[..8];
    assert b[0] == head[0] && b[2] == head[2] && b[3] == head[3] && b[4..8] == head[4..8];
    U16Reads(length);
  }

  lemma StunResponseIsTrue(b: Bytes)
    requires Emits(StunResponse(), b)
    ensures |b| == TotalSize(StunResponse()) && IsStun(b)
  {
    hide Emits, TotalSize, IsAttributes;
    var first, last := Literal([1, 1, 0, 0x0c, 0x21, 0x12, 0xa4, 0x42]), Literal([0, 0x20, 0, 8, 0, 1]);
    FourPieces(first, Fresh(12), last, Fresh(6), b);
    U16Of12();
    assert b[..8] == [1, 1] + U16(12) + [0x21, 0x12, 0xa4, 0x42];
    StunHead(b, 1, 12);
    var rest := b[20..];
    assert rest[2] == b[20..26][2] && rest[3] == b[20..26][3];
    assert rest[12..] == [];
    NoAttributes();
    OneAttribute(rest, 8);
  }

  lemma U16Of12()
    ensures U16(12) == [0, 12]
  {
  }

  lemma NoAttributes()
    ensures IsAttributes([])
  {
  }

  /** Every sending of a decoy binding request carries its true length, controlling or not. */
  lemma StunRequestIsTrue(controlling: bool, b: Bytes)
    requires Emits(StunRequest(controlling), b)
    ensures |b| == TotalSize(StunRequest(controlling)) && IsStun(b)
  {
    hide Emits, TotalSize, IsAttributes, U16;
    var length := if controlling then 20 else 8;
    var head := [0, 1] + U16(length) + [0x21, 0x12, 0xa4, 0x42];
    var front := [Literal(head), Fresh(12), Literal([0, 0x24, 0, 4]), Fresh(4)];
    var back := if controlling then [Literal([0x80, 0x2a, 0, 8]), Fresh(8)] else [];
    EmitsItsSize(front + back, b);
    TotalJoin(front, back);
    EmitsSplit(front, back, b);
    var k := TotalSize(front);
    FourPieces(Literal(head), Fresh(12), Literal([0, 0x24, 0, 4]), Fresh(4), b[..k]);
    assert b[..8] == b[..k][..8] == [0, 1] + U16(length) + [0x21, 0x12, 0xa4, 0x42];
    StunLengths(controlling, back, b[k..]);
    StunHead(b, 0, length);
    var rest := b[20..];
    assert b[..k][20..24] == b[20..24];
    assert rest[2] == b[20..24][2] && rest[3] == b[20..24][3];
    assert rest[8..] == b[k..];
    OneAttribute(rest, 4);
  }

  lemma StunLengths(controlling: bool, back: seq<Tag>, b: Bytes)
    requires back == (if controlling then [Literal([0x80, 0x2a, 0, 8]), Fresh(8)] else []) && Emits(back, b)
    ensures |b| == (if controlling then 12 else 0) == TotalSize(back) && IsAttributes(b)
  {
    hide Emits, TotalSize, IsAttributes;
    NoAttributes();
    EmitsItsSize(back, b);
    TotalNone();
    if controlling {
      TotalTwo(back[0], back[1]);
      assert back == [] + ([back[0]] + [back[1]]);
      PieceAt([], back[0], [back[1]], b);
      assert b[2] == b[0..4][2] && b[3] == b[0..4][3];
      assert b[12..] == [];
      OneAttribute(b, 8);
    }
  }

  // --- DNS

  predicate LabelsOk(parts: seq<string>) {
    forall i :: 0 <= i < |parts| ==> 1 <= |parts[i]| <= 63
  }

  /** The labels of a name, as a resolver takes them off one by one. */
  function LabelsIn(b: Bytes): seq<Bytes>
    decreases |b|
  {
    if b == [] || b[0] == 0 || b[0] > 63 || 1 + (b[0] as nat) > |b| then []
    else [b[1..1 + (b[0] as nat)]] + LabelsIn(b[1 + (b[0] as nat)..])
  }

  function AllBytes(parts: seq<string>): seq<Bytes> {
    if parts == [] then [] else [LabelBytes(parts[0])] + AllBytes(parts[1..])
  }

  /** An encoded name ends where its last length byte says, and its labels come back one by one. */
  lemma {:induction false} NameReads(parts: seq<string>, rest: Bytes)
    requires LabelsOk(parts)
    ensures NameEnd(Labels(parts) + rest) == Some(|Labels(parts)|) && LabelsIn(Labels(parts) + rest) == AllBytes(parts)
  {
    var b := Labels(parts) + rest;
    if parts != [] {
      assert LabelsOk(parts[1..]);
      NameReads(parts[1..], rest);
      var n := |parts[0]|;
      var more := Labels(parts[1..]) + rest;
      assert b == [n] + LabelBytes(parts[0]) + more;
      assert b[0] == n && b[1..1 + n] == LabelBytes(parts[0]) && b[1 + n..] == more;
    } else {
      assert b[0] == 0;
    }
  }

  lemma HostLabels(name: string)
    requires IsHostName(name)
    ensures LabelsOk(SplitOn(name, '.'))
  {
    var parts := SplitOn(name, '.');
    forall i | 0 <= i < |parts| ensures 1 <= |parts[i]| <= 63 {
      assert parts[i] in parts;
    }
  }

  lemma {:induction false} NameLength(name: string)
    requires IsHostName(name)
    ensures |NameBytes(name)| == |name| + 2
    decreases |name|
  {
    var i := IndexOf(name, '.');
    var parts := SplitOn(name, '.');
    if i < |name| {
      var rest := name[i + 1..];
      assert parts == [name[..i]] + SplitOn(rest, '.');
      assert parts[1..] == SplitOn(rest, '.');
      assert forall p :: p in SplitOn(rest, '.') ==> p in parts;
      NameLength(rest);
    } else {
      assert parts[1..] == [];
      assert Labels([]) == [0];
    }
  }

  /** A message of a question and one record, from its three parts. */
  lemma MessageIsTrue(b: Bytes, name: string, counts: Bytes, record: Bytes, answer: bool)
    requires IsHostName(name) && |counts| == 8
    requires |b| >= 12 && b[4..12] == counts && b[12..] == NameBytes(name) + ([0, 1, 0, 1] + record)
    requires counts == (if answer then [0, 1, 0, 1, 0, 0, 0, 0] else [0, 1, 0, 0, 0, 0, 0, 1])
    requires IsOneRecord(record)
    ensures IsDns(b, answer)
  {
    hide NameEnd, Labels, IsOneRecord, IsHostName, SplitOn;
    var parts := SplitOn(name, '.');
    HostLabels(name);
    NameReads(parts, [0, 1, 0, 1] + record);
    var n := |NameBytes(name)|;
    assert forall i :: 0 <= i < 8 ==> b[4 + i] == b[4..12][i];
    assert b[12 + n + 4..] == b[12..][n + 4..];
    assert (NameBytes(name) + ([0, 1, 0, 1] + record))[n + 4..] == record;
  }

  function OptRecord(udp: nat): Bytes
    requires udp < 0x10000
  {
    [0, 0, 0x29] + U16(udp) + [0, 0, 0, 0, 0, 0]
  }

  function AddressRecord(ttl: Bytes, address: Bytes): Bytes
    requires |ttl| == 4 && |address| == 4
  {
    [0xc0, 0x0c, 0, 1, 0, 1] + ttl + [0, 4] + address
  }

  lemma OptIsRecord(udp: nat)
    requires udp < 0x10000
    ensures IsOneRecord(OptRecord(udp)) && |OptRecord(udp)| == 11
  {
    hide U16;
    var r := OptRecord(udp);
    assert r[0] == 0 && r[9] == 0 && r[10] == 0;
  }

  lemma AddressIsRecord(ttl: Bytes, address: Bytes)
    requires |ttl| == 4 && |address| == 4
    ensures IsOneRecord(AddressRecord(ttl, address)) && |AddressRecord(ttl, address)| == 16
  {
    var r := AddressRecord(ttl, address);
    assert r[0] == 0xc0 && r[10] == 0 && r[11] == 4;
  }

  lemma TwoPieces(count: nat, bytes: Bytes, b: Bytes)
    requires Emits([Fresh(count), Literal(bytes)], b)
    ensures |b| == count + |bytes| == TotalSize([Fresh(count), Literal(bytes)]) && b[count..] == bytes
  {
    hide Emits, TotalSize;
    var one, two := Fresh(count), Literal(bytes);
    EmitsItsSize([one, two], b);
    TotalTwo(one, two);
    TotalOne(one);
    assert [one, two] == [one] + ([two] + []);
    PieceAt([one], two, [], b);
  }

  lemma Slices(b: Bytes, head: Bytes, tail: Bytes)
    requires |b| == 12 + |tail| && |head| == 10 && b[2..] == head + tail
    ensures b[4..12] == head[2..] && b[12..] == tail
  {
    assert b[4..12] == b[2..][2..10];
    assert b[12..] == b[2..][10..];
  }

  /** A sending of a decoy query is one question and one OPT record, to the last byte. */
  lemma QueryIsTrue(name: string, udp: nat, b: Bytes)
    requires IsHostName(name) && udp < 0x10000 && Emits(DnsQuery(name, udp), b)
    ensures |b| == TotalSize(DnsQuery(name, udp)) == |name| + 29 && IsDns(b, false)
  {
    hide Emits, TotalSize, NameBytes, U16, IsDns, IsOneRecord, IsHostName;
    var head: Bytes := [1, 0, 0, 1, 0, 0, 0, 0, 0, 1];
    var tail := NameBytes(name) + ([0, 1, 0, 1] + OptRecord(udp));
    assert head + NameBytes(name) + ([0, 1, 0, 1] + OptRecord(udp)) == head + tail;
    TwoPieces(2, head + tail, b);
    NameLength(name);
    OptIsRecord(udp);
    Slices(b, head, tail);
    MessageIsTrue(b, name, head[2..], OptRecord(udp), false);
  }

  /** A sending of a decoy answer is one question and one address record, to the last byte. */
  lemma AnswerIsTrue(name: string, flags: nat, ttl: Bytes, address: Bytes, b: Bytes)
    requires IsHostName(name) && flags < 0x10000 && |ttl| == 4 && |address| == 4
    requires Emits(DnsAnswer(name, flags, ttl, address), b)
    ensures |b| == TotalSize(DnsAnswer(name, flags, ttl, address)) == |name| + 34 && IsDns(b, true)
  {
    hide Emits, TotalSize, NameBytes, U16, IsDns, IsOneRecord, IsHostName;
    var head: Bytes := U16(flags) + [0, 1, 0, 1, 0, 0, 0, 0];
    var record := AddressRecord(ttl, address);
    var tail := NameBytes(name) + ([0, 1, 0, 1] + record);
    assert head + NameBytes(name) + ([0, 1, 0, 1] + record) == head + tail;
    TwoPieces(2, head + tail, b);
    NameLength(name);
    AddressIsRecord(ttl, address);
    Slices(b, head, tail);
    assert head[2..] == [0, 1, 0, 1, 0, 0, 0, 0];
    MessageIsTrue(b, name, head[2..], record, true);
  }
}
