/** Whatever is drawn, on whatever profile and at any MTU the panel accepts, the validator has nothing
    to say about it, and the decoys say the truth. */
module GenerationValid {
  import opened Text
  import opened Params
  import I = Imitation
  import opened Decoys
  import opened Timers
  import opened Validation
  import opened ValidationMeaning
  import opened Generator
  import opened Generation
  import VP = ValidationPromise

  // --- one line at a time

  lemma WholeLine(p: Param, n: nat)
    requires SpecOf(p).kind.Whole? && SpecOf(p).optional && SpecOf(p).min <= n <= SpecOf(p).max
    ensures CheckOne(p, Show(n, 10)).None?
  {
    hide SpecOf, Show, ParseWhole, IsSet;
    ShowReads(n);
  }

  lemma RangeLine(p: Param, low: nat, high: nat)
    requires SpecOf(p).kind.Range? && SpecOf(p).optional && low <= high && SpecOf(p).min <= low && high <= SpecOf(p).max
    ensures CheckOne(p, ShowRange(low, high)).None?
  {
    hide SpecOf, ShowRange, ParseRange, IsSet;
    ShowRangeReads(low, high);
  }

  lemma EmptyLine(p: Param)
    requires SpecOf(p).optional
    ensures CheckOne(p, "").None?
  {
  }

  // --- packets

  lemma TotalFour(one: I.Tag, two: I.Tag, three: I.Tag, four: I.Tag)
    ensures I.TotalSize([one, two, three, four]) == I.SizeOf(one) + I.SizeOf(two) + I.SizeOf(three) + I.SizeOf(four)
  {
    hide I.TotalSize;
    assert [one, two, three, four] == [one, two] + [three, four];
    TotalJoin([one, two], [three, four]);
    TotalTwo(one, two);
    TotalTwo(three, four);
  }

  predicate Good(tags: seq<I.Tag>) {
    tags != [] && I.AllSendable(tags) && I.TotalSize(tags) <= JUNK_MAX
  }

  lemma StunIsGood(controlling: bool)
    ensures Good(StunRequest(controlling)) && Good(StunResponse())
  {
    hide I.TotalSize, U16;
    var front := [I.Literal([0, 1] + U16(if controlling then 20 else 8) + [0x21, 0x12, 0xa4, 0x42]), I.Fresh(12),
                  I.Literal([0, 0x24, 0, 4]), I.Fresh(4)];
    TotalFour(front[0], front[1], front[2], front[3]);
    var back := if controlling then [I.Literal([0x80, 0x2a, 0, 8]), I.Fresh(8)] else [];
    if controlling {
      TotalTwo(back[0], back[1]);
    } else {
      TotalNone();
    }
    TotalJoin(front, back);
    assert StunRequest(controlling) == front + back;
    var r := StunResponse();
    TotalFour(r[0], r[1], r[2], r[3]);
  }

  lemma QuicIsGood(dcid: nat, total: nat, first: I.Byte, size: nat)
    requires (dcid == 4 || dcid == 8) && 1200 <= total <= 1232 && 80 <= size <= 400
    ensures Good(QuicInitial(dcid, total)) && Good(QuicShort(first, size))
  {
    hide I.TotalSize, U16;
    var q := QuicInitial(dcid, total);
    TotalFour(q[0], q[1], q[2], q[3]);
    var s := QuicShort(first, size);
    assert s == [s[0], s[1]] + [s[2]];
    TotalJoin([s[0], s[1]], [s[2]]);
    TotalTwo(s[0], s[1]);
    TotalOne(s[2]);
  }

  lemma MediaIsGood(second: I.Byte, ssrc: Bytes, payload: nat)
    requires |ssrc| == 4 && 120 <= payload <= 260
    ensures Good(Rtp(second, ssrc, payload))
  {
    hide I.TotalSize;
    var r := Rtp(second, ssrc, payload);
    TotalFour(r[0], r[1], r[2], r[3]);
  }

  lemma DnsIsGood(name: string, udp: nat, flags: nat, ttl: Bytes, address: Bytes)
    requires IsHostName(name) && |name| <= 253 && udp < 0x10000 && flags < 0x10000 && |ttl| == 4 && |address| == 4
    ensures Good(DnsQuery(name, udp)) && Good(DnsAnswer(name, flags, ttl, address))
  {
    hide I.TotalSize, U16, NameBytes, IsHostName;
    NameLength(name);
    var q, a := DnsQuery(name, udp), DnsAnswer(name, flags, ttl, address);
    TotalTwo(q[0], q[1]);
    TotalTwo(a[0], a[1]);
  }

  lemma DecoyIsGood(d: Decoy)
    requires DecoyOk(d)
    ensures Good(TagsOf(d))
  {
    hide Good, StunRequest, StunResponse, Rtp, QuicInitial, QuicShort, DnsQuery, DnsAnswer, IsHostName;
    match d {
      case Request(controlling) => StunIsGood(controlling);
      case Response => StunIsGood(true);
      case Media(second, ssrc, payload) => MediaIsGood(second, ssrc, payload);
      case Initial(dcid, total) => QuicIsGood(dcid, total, 0, 80);
      case ShortHeader(first, size) => QuicIsGood(4, 1200, first, size);
      case Query(name, udp) => DnsIsGood(name, udp, 0, [0, 0, 0, 0], [0, 0, 0, 0]);
      case Answer(name, flags, ttl, address) => DnsIsGood(name, 0, flags, ttl, address);
    }
  }

  /** Every sending of every decoy that can be drawn is as long as its tags say, and what a parser of
      its protocol reads out of it - lengths, labels, counts - is true of it. */
  lemma DecoysAreTruthful(d: Decoy, b: Bytes)
    requires DecoyOk(d) && I.Emits(TagsOf(d), b)
    ensures |b| == I.TotalSize(TagsOf(d)) && Truthful(d, b)
  {
    hide I.Emits, StunRequest, StunResponse, Rtp, QuicInitial, QuicShort, DnsQuery, DnsAnswer, IsHostName;
    hide IsStun, IsInitial, IsDns, I.TotalSize;
    I.EmitsItsSize(TagsOf(d), b);
    match d {
      case Request(controlling) => StunRequestIsTrue(controlling, b);
      case Response => StunResponseIsTrue(b);
      case Initial(dcid, total) => InitialIsTrue(dcid, total, b);
      case Query(name, udp) => QueryIsTrue(name, udp, b);
      case Answer(name, flags, ttl, address) => AnswerIsTrue(name, flags, ttl, address, b);
      case _ =>
    }
  }

  lemma {:induction false} RenderEnds(tags: seq<I.Tag>)
    requires tags != []
    ensures var s := I.Render(tags); s != "" && s[0] == '<' && s[|s| - 1] == '>'
  {
    hide Show, I.Hex;
    if |tags| == 1 {
      assert I.Render(tags[1..]) == "";
    } else {
      RenderEnds(tags[1..]);
    }
  }

  lemma PacketText(decoys: seq<Decoy>, i: nat)
    requires AllOk(decoys)
    ensures var s := Packet(decoys, i);
            Strip(s) == s && s != "0" && (s != "" ==> I.ParseImitation(s).Tags?)
  {
    hide TagsOf, I.Render, I.ParseImitation, I.TotalSize, I.Emits, I.AllSendable, DecoyOk, IsSpace;
    if i < |decoys| {
      assert DecoyOk(decoys[i]);
      var tags := TagsOf(decoys[i]);
      DecoyIsGood(decoys[i]);
      RenderEnds(tags);
      Angles();
      StripTrimmed(I.Render(tags));
      I.RenderedIsAccepted(tags, []);
    } else {
      StripTrimmed("");
    }
  }

  lemma Angles()
    ensures !IsSpace('<') && !IsSpace('>')
  {
  }

  lemma PacketLine(p: Param, decoys: seq<Decoy>, i: nat)
    requires SpecOf(p).kind.Imitation? && SpecOf(p).optional && AllOk(decoys)
    ensures CheckOne(p, Packet(decoys, i)).None?
  {
    hide SpecOf, Packet, I.ParseImitation, DecoyOk, IsSet;
    PacketText(decoys, i);
    StripTrimmed("");
    NothingIsSet(p);
  }

  // --- the header key

  lemma Base64CharIs(n: nat)
    requires n < 64
    ensures IsBase64Char(Base64Char(n)) && Base64Char(n) != '='
  {
  }

  /** Whole groups of three bytes become four plain characters each; a last pair becomes three and one
      '='. */
  lemma {:induction false} Base64Shape(b: Bytes)
    requires |b| % 3 == 2
    ensures var s := Base64(b);
            |s| == (|b| + 1) / 3 * 4 && s[|s| - 1] == '=' && forall i :: 0 <= i < |s| - 1 ==> IsBase64Char(s[i])
  {
    hide Base64Char, IsBase64Char;
    forall n: nat | n < 64 ensures IsBase64Char(Base64Char(n)) {
      Base64CharIs(n);
    }
    if |b| > 2 {
      Base64Shape(b[3..]);
    }
  }

  lemma KeyLine(key: Bytes)
    requires |key| == 32
    ensures CheckOne(HeaderProtectionKey, Base64(key)).None?
  {
    hide Base64, IsSet;
    Base64Shape(key);
    KeyTrimmed(Base64(key));
  }

  lemma KeyTrimmed(s: string)
    requires IsBase64Key(s)
    ensures Strip(s) == s
  {
    assert IsBase64Char(s[0]);
    StripTrimmed(s);
  }

  lemma SwitchLine()
    ensures CheckOne(RandomTrailers, "on").None?
  {
    StripTrimmed("on");
    OnFolds();
  }

  lemma OnFolds()
    ensures Fold("on") == "on" && Fold("on") != "off"
  {
    assert Fold("on")[0] == 'o' && Fold("on")[1] == 'n';
  }

  // --- the whole set

  function Whole(d: Draw, a: Advanced, mtu: nat): Values
    requires |d.headers| == 4 && AllOk(d.decoys)
  {
    Written(d) + WrittenAdvanced(a) + map[MTU := Show(mtu, 10)]
  }

  ghost predicate Holds(part: Values, values: Values) {
    forall p :: p in part ==> p in values && values[p] == part[p]
  }

  function JunkKeys(): set<Param> {
    {Jc, Jmin, Jmax}
  }

  function SizeKeys(): set<Param> {
    {S1, S2, S3, S4}
  }

  function HeaderKeySet(): set<Param> {
    {H1, H2, H3, H4}
  }

  function PacketKeys(): set<Param> {
    {I1, I2, I3, I4, I5}
  }

  function AdvancedKeys(): set<Param> {
    {HeaderProtectionKey, ContentPaddingAddition, RekeyAfterTime, RekeyTimeout, RejectAfterTime, KeepaliveTimeout,
     MaxHandshakeAttempts, RandomTrailers}
  }

  lemma KeysApart()
    ensures JunkKeys() !! SizeKeys() && JunkKeys() + SizeKeys() !! HeaderKeySet()
    ensures JunkKeys() + SizeKeys() + HeaderKeySet() !! PacketKeys()
    ensures JunkKeys() + SizeKeys() + HeaderKeySet() + PacketKeys() !! AdvancedKeys()
    ensures JunkKeys() + SizeKeys() + HeaderKeySet() + PacketKeys() + AdvancedKeys() !! {MTU}
  {
  }

  lemma GroupKeys(d: Draw, a: Advanced)
    requires |d.headers| == 4 && AllOk(d.decoys)
    ensures WrittenJunk(d.jc, d.jmin, d.jmax).Keys == JunkKeys()
    ensures WrittenSizes(d.s1, d.s2, d.s3, d.s4).Keys == SizeKeys()
    ensures WrittenHeaders(d.headers).Keys == HeaderKeySet()
    ensures WrittenPackets(d.decoys).Keys == PacketKeys()
    ensures WrittenAdvanced(a).Keys == AdvancedKeys()
  {
    hide Show, ShowRange, Packet, Base64, DecoyOk;
  }

  /** No group writes over another, and nothing else is written. */
  lemma GroupsHold(d: Draw, a: Advanced, mtu: nat)
    requires |d.headers| == 4 && AllOk(d.decoys)
    ensures var v := Whole(d, a, mtu);
            && Holds(WrittenJunk(d.jc, d.jmin, d.jmax), v) && Holds(WrittenSizes(d.s1, d.s2, d.s3, d.s4), v)
            && Holds(WrittenHeaders(d.headers), v) && Holds(WrittenPackets(d.decoys), v) && Holds(WrittenAdvanced(a), v)
            && MTU in v && v[MTU] == Show(mtu, 10)
            && v.Keys == WrittenJunk(d.jc, d.jmin, d.jmax).Keys + WrittenSizes(d.s1, d.s2, d.s3, d.s4).Keys
                         + WrittenHeaders(d.headers).Keys + WrittenPackets(d.decoys).Keys + WrittenAdvanced(a).Keys + {MTU}
  {
    hide WrittenJunk, WrittenSizes, WrittenHeaders, WrittenPackets, WrittenAdvanced, Show, Holds;
    hide JunkKeys, SizeKeys, HeaderKeySet, PacketKeys, AdvancedKeys, DecoyOk;
    GroupKeys(d, a);
    KeysApart();
    var junk, sizes := WrittenJunk(d.jc, d.jmin, d.jmax), WrittenSizes(d.s1, d.s2, d.s3, d.s4);
    var headers, packets := WrittenHeaders(d.headers), WrittenPackets(d.decoys);
    var two := junk + sizes;
    var three := two + headers;
    var four := three + packets;
    var five := four + WrittenAdvanced(a);
    var mtuLine := map[MTU := Show(mtu, 10)];
    UnionHolds(junk, sizes);
    UnionHolds(two, headers);
    UnionHolds(three, packets);
    UnionHolds(four, WrittenAdvanced(a));
    UnionHolds(five, mtuLine);
    HoldsChain(four, five, five + mtuLine);
    HoldsChain(three, four, five + mtuLine);
    HoldsChain(two, three, five + mtuLine);
    HoldsChain(junk, two, five + mtuLine);
    HoldsChain(sizes, two, five + mtuLine);
    HoldsChain(headers, three, five + mtuLine);
    HoldsChain(packets, four, five + mtuLine);
    HoldsChain(WrittenAdvanced(a), five, five + mtuLine);
  }

  lemma UnionHolds(x: Values, y: Values)
    requires x.Keys !! y.Keys
    ensures Holds(x, x + y) && Holds(y, x + y) && (x + y).Keys == x.Keys + y.Keys
  {
  }

  lemma HoldsChain(x: Values, y: Values, z: Values)
    requires Holds(x, y) && Holds(y, z)
    ensures Holds(x, z)
  {
  }

  lemma ReadWhole(part: Values, v: Values, p: Param, n: nat)
    requires Holds(part, v) && p in part && part[p] == Show(n, 10) && n > 0 && SpecOf(p).kind.Whole?
    ensures SetWhole(v, p) == Some(n)
  {
    hide Show, SpecOf, SetWhole;
    ShowSets(v, p, n);
  }

  lemma ReadRange(part: Values, v: Values, p: Param, low: nat, high: nat)
    requires Holds(part, v) && p in part && part[p] == ShowRange(low, high) && SpecOf(p).kind.Range?
    ensures p in v && SetRange(v, p) == Some((low as int, high as int))
  {
    hide ShowRange, SpecOf, SetRange;
    ShowRangeSets(v, p, low, high);
  }

  ghost predicate GroupOk(part: Values) {
    forall p :: p in part ==> CheckOne(p, part[p]).None?
  }

  lemma JunkIsOk(d: Draw, p: Profile)
    requires JunkDrawn(d, p) && Usable(p)
    ensures GroupOk(WrittenJunk(d.jc, d.jmin, d.jmax))
  {
    hide Show, CheckOne;
    WholeLine(Jc, d.jc);
    WholeLine(Jmin, d.jmin);
    WholeLine(Jmax, d.jmax);
  }

  lemma SizesAreOk(d: Draw, p: Profile, mtu: int)
    requires SizesDrawn(d.s1, d.s2, d.s3, d.s4, p, mtu) && Usable(p)
    ensures GroupOk(WrittenSizes(d.s1, d.s2, d.s3, d.s4))
  {
    hide Show, CheckOne;
    WholeLine(S1, d.s1);
    WholeLine(S2, d.s2);
    WholeLine(S3, d.s3);
    WholeLine(S4, d.s4);
  }

  lemma HeadersAreOk(bounds: seq<Band>)
    requires HeadersDrawn(bounds)
    ensures GroupOk(WrittenHeaders(bounds))
  {
    hide ShowRange, CheckOne;
    assert HeaderBand(bounds[0]) && HeaderBand(bounds[1]) && HeaderBand(bounds[2]) && HeaderBand(bounds[3]);
    RangeLine(H1, bounds[0].0, bounds[0].1);
    RangeLine(H2, bounds[1].0, bounds[1].1);
    RangeLine(H3, bounds[2].0, bounds[2].1);
    RangeLine(H4, bounds[3].0, bounds[3].1);
  }

  lemma PacketsAreOk(decoys: seq<Decoy>)
    requires AllOk(decoys)
    ensures GroupOk(WrittenPackets(decoys))
  {
    hide Packet, CheckOne, DecoyOk;
    PacketLine(I1, decoys, 0);
    PacketLine(I2, decoys, 1);
    PacketLine(I3, decoys, 2);
    PacketLine(I4, decoys, 3);
    PacketLine(I5, decoys, 4);
  }

  lemma AdvancedIsOk(a: Advanced, t: Timing)
    requires AdvancedDrawn(a, t) && UsableTiming(t)
    ensures GroupOk(WrittenAdvanced(a))
  {
    hide ShowRange, CheckOne, Base64;
    KeyLine(a.key);
    if a.padding.Some? {
      RangeLine(ContentPaddingAddition, a.padding.value.0, a.padding.value.1);
    } else {
      EmptyLine(ContentPaddingAddition);
    }
    RangeLine(RekeyAfterTime, a.rekeyAfter.0, a.rekeyAfter.1);
    RangeLine(RekeyTimeout, a.rekeyTimeout.0, a.rekeyTimeout.1);
    RangeLine(RejectAfterTime, a.reject.0, a.reject.1);
    RangeLine(KeepaliveTimeout, a.keepalive.0, a.keepalive.1);
    RangeLine(MaxHandshakeAttempts, a.attempts.0, a.attempts.1);
    SwitchLine();
  }

  /** Everything that Acceptable asks of one drawn set. */
  predicate Fits(d: Draw, a: Advanced, p: Profile, t: Timing, mtu: nat) {
    Drawn(d, p, mtu) && AdvancedDrawn(a, t) && Usable(p) && UsableTiming(t) && 1280 <= mtu <= MTU_BUDGET - HEADER_NONCE
  }

  lemma EachIsOk(d: Draw, a: Advanced, p: Profile, t: Timing, mtu: nat)
    requires Fits(d, a, p, t, mtu)
    ensures EachOk(Whole(d, a, mtu))
  {
    hide WrittenJunk, WrittenSizes, WrittenHeaders, WrittenPackets, WrittenAdvanced, Whole, CheckOne, Show, AllOk;
    JunkIsOk(d, p);
    SizesAreOk(d, p, mtu);
    HeadersAreOk(d.headers);
    PacketsAreOk(d.decoys);
    AdvancedIsOk(a, t);
    WholeLine(MTU, mtu);
    GroupsHold(d, a, mtu);
  }

  lemma NumbersRead(d: Draw, a: Advanced, p: Profile, t: Timing, mtu: nat)
    requires Fits(d, a, p, t, mtu)
    ensures var v := Whole(d, a, mtu);
            && SetWhole(v, Jmin) == Some(d.jmin) && SetWhole(v, Jmax) == Some(d.jmax)
            && SetWhole(v, S1) == Some(d.s1) && SetWhole(v, S2) == Some(d.s2) && SetWhole(v, S3) == Some(d.s3)
            && SetWhole(v, S4) == Some(d.s4) && SetWhole(v, MTU) == Some(mtu)
  {
    hide WrittenHeaders, WrittenPackets, WrittenAdvanced, Whole, Show, SetWhole;
    hide AllOk, AllDisjoint, AllHeaderBands, AdvancedDrawn, Holds;
    GroupsHold(d, a, mtu);
    var v := Whole(d, a, mtu);
    ReadWhole(WrittenJunk(d.jc, d.jmin, d.jmax), v, Jmin, d.jmin);
    ReadWhole(WrittenJunk(d.jc, d.jmin, d.jmax), v, Jmax, d.jmax);
    ReadSizes(d, p, mtu, v);
    ShowSets(v, MTU, mtu);
  }

  lemma ReadSizes(d: Draw, p: Profile, mtu: nat, v: Values)
    requires SizesDrawn(d.s1, d.s2, d.s3, d.s4, p, mtu) && Usable(p) && mtu <= MTU_BUDGET - HEADER_NONCE
    requires Holds(WrittenSizes(d.s1, d.s2, d.s3, d.s4), v)
    ensures SetWhole(v, S1) == Some(d.s1) && SetWhole(v, S2) == Some(d.s2) && SetWhole(v, S3) == Some(d.s3)
    ensures SetWhole(v, S4) == Some(d.s4)
  {
    hide Show, SetWhole, Holds;
    var sizes := WrittenSizes(d.s1, d.s2, d.s3, d.s4);
    ReadWhole(sizes, v, S1, d.s1);
    ReadWhole(sizes, v, S2, d.s2);
    ReadWhole(sizes, v, S3, d.s3);
    ReadWhole(sizes, v, S4, d.s4);
  }

  lemma HeadersRead(d: Draw, a: Advanced, mtu: nat)
    requires |d.headers| == 4 && AllOk(d.decoys)
    ensures var v := Whole(d, a, mtu);
            && HeaderRange(v, map[], H1) == Some((d.headers[0].0 as int, d.headers[0].1 as int))
            && HeaderRange(v, map[], H2) == Some((d.headers[1].0 as int, d.headers[1].1 as int))
            && HeaderRange(v, map[], H3) == Some((d.headers[2].0 as int, d.headers[2].1 as int))
            && HeaderRange(v, map[], H4) == Some((d.headers[3].0 as int, d.headers[3].1 as int))
  {
    hide WrittenJunk, WrittenSizes, WrittenPackets, WrittenAdvanced, Whole, ShowRange, SetRange, AllOk, Show, Holds;
    GroupsHold(d, a, mtu);
    var v := Whole(d, a, mtu);
    var w := WrittenHeaders(d.headers);
    ReadRange(w, v, H1, d.headers[0].0, d.headers[0].1);
    ReadRange(w, v, H2, d.headers[1].0, d.headers[1].1);
    ReadRange(w, v, H3, d.headers[2].0, d.headers[2].1);
    ReadRange(w, v, H4, d.headers[3].0, d.headers[3].1);
  }

  lemma TimersRead(d: Draw, a: Advanced, mtu: nat)
    requires |d.headers| == 4 && AllOk(d.decoys)
    ensures var v := Whole(d, a, mtu);
            && SetRange(v, RekeyAfterTime) == Some((a.rekeyAfter.0 as int, a.rekeyAfter.1 as int))
            && SetRange(v, RejectAfterTime) == Some((a.reject.0 as int, a.reject.1 as int))
            && SetRange(v, RekeyTimeout) == Some((a.rekeyTimeout.0 as int, a.rekeyTimeout.1 as int))
            && SetRange(v, KeepaliveTimeout) == Some((a.keepalive.0 as int, a.keepalive.1 as int))
  {
    hide WrittenJunk, WrittenSizes, WrittenPackets, WrittenHeaders, Whole, ShowRange;
    hide SetRange, AllOk, Show, Holds, Base64;
    GroupsHold(d, a, mtu);
    var v := Whole(d, a, mtu);
    var w := WrittenAdvanced(a);
    ReadRange(w, v, RekeyAfterTime, a.rekeyAfter.0, a.rekeyAfter.1);
    ReadRange(w, v, RejectAfterTime, a.reject.0, a.reject.1);
    ReadRange(w, v, RekeyTimeout, a.rekeyTimeout.0, a.rekeyTimeout.1);
    ReadRange(w, v, KeepaliveTimeout, a.keepalive.0, a.keepalive.1);
  }

  lemma SizesFit(d: Draw, a: Advanced, p: Profile, t: Timing, mtu: nat)
    requires Fits(d, a, p, t, mtu)
    ensures var v := Whole(d, a, mtu); JunkOk(v) && SizesOk(v) && PaddingOk(v) && NonceOk(v)
  {
    hide Whole, SetWhole, Get, AllOk, HeadersDrawn, AdvancedDrawn, DecoysDrawn;
    NumbersRead(d, a, p, t, mtu);
  }

  lemma HeadersFit(d: Draw, a: Advanced, mtu: nat)
    requires HeadersDrawn(d.headers) && AllOk(d.decoys)
    ensures HeadersOk(Whole(d, a, mtu))
  {
    hide Whole, HeaderRange, AllOk, AllHeaderBands;
    HeadersRead(d, a, mtu);
    var v := Whole(d, a, mtu);
    assert Disjoint(d.headers[0], d.headers[1]) && Disjoint(d.headers[0], d.headers[2]) && Disjoint(d.headers[0], d.headers[3]);
    assert Disjoint(d.headers[1], d.headers[2]) && Disjoint(d.headers[1], d.headers[3]) && Disjoint(d.headers[2], d.headers[3]);
    assert AllApart(v);
    HeaderMembers();
    HeadersOkSays(v);
  }

  lemma TimersFit(d: Draw, a: Advanced, t: Timing, mtu: nat)
    requires |d.headers| == 4 && AllOk(d.decoys) && AdvancedDrawn(a, t) && UsableTiming(t)
    ensures TimersOk(Whole(d, a, mtu))
  {
    hide Whole, SetRange, AllOk;
    TimersRead(d, a, mtu);
  }

  /** Whatever the random source returns, for every profile name and every MTU from 1280 to 1408, the
      two drawn groups and that MTU together are accepted by a module that has all the features. */
  lemma EveryDrawIsAccepted(d: Draw, a: Advanced, profile: string, mtu: nat, features: Features)
    requires 1280 <= mtu <= 1408 && Drawn(d, ProfileOf(profile), mtu) && AdvancedDrawn(a, TimingOf(profile))
    requires forall f :: !Lacks(features, f)
    ensures Validate(Whole(d, a, mtu), features) == map[]
  {
    hide Whole, ProfileOf, TimingOf, EachOk, JunkOk, SizesOk, PaddingOk, NonceOk, HeadersOk, TimersOk, Validate, IsSet;
    hide JunkDrawn, SizesDrawn, AllHeaderBands, AllDisjoint, AllOk, OneFamily;
    ProfilesAreUsable(profile);
    EachIsOk(d, a, ProfileOf(profile), TimingOf(profile), mtu);
    SizesFit(d, a, ProfileOf(profile), TimingOf(profile), mtu);
    HeadersFit(d, a, mtu);
    TimersFit(d, a, TimingOf(profile), mtu);
    AcceptedMeans(Whole(d, a, mtu), features);
  }

  /** So the settings drawn keep every promise the settings page makes of them. */
  lemma EveryDrawIsPromised(d: Draw, a: Advanced, profile: string, mtu: nat, features: Features)
    requires 1280 <= mtu <= 1408 && Drawn(d, ProfileOf(profile), mtu) && AdvancedDrawn(a, TimingOf(profile))
    requires forall f :: !Lacks(features, f)
    ensures VP.Promised(Whole(d, a, mtu), features)
  {
    hide Whole, ProfileOf, TimingOf, Validate, VP.Promised;
    hide JunkDrawn, SizesDrawn, AllHeaderBands, AllDisjoint, AllOk, OneFamily;
    EveryDrawIsAccepted(d, a, profile, mtu, features);
    VP.AcceptedIsPromised(Whole(d, a, mtu), features);
  }

  /** The Reconfigure button: draw both groups against the MTU the server has. */
  method Reconfigure(profile: string, mtu: nat, features: Features) returns (values: Values)
    requires 1280 <= mtu <= 1408 && forall f :: !Lacks(features, f)
    ensures Validate(values, features) == map[]
  {
    hide Written, WrittenAdvanced, Validate, ProfileOf, TimingOf, JunkDrawn;
    hide SizesDrawn, AllHeaderBands, AllDisjoint, AllOk, OneFamily;
    hide AdvancedDrawn;
    var basic := Randomize(Some(mtu), profile);
    var advanced := RandomizeAdvanced(profile);
    values := basic + advanced + map[MTU := Show(mtu, 10)];
    ghost var d: Draw :| Drawn(d, ProfileOf(profile), mtu) && basic == Written(d);
    ghost var a: Advanced :| AdvancedDrawn(a, TimingOf(profile)) && advanced == WrittenAdvanced(a);
    EveryDrawIsAccepted(d, a, profile, mtu, features);
  }
}
