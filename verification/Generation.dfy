/** randomize and randomize_advanced: every draw, on every profile, step by step. */
module Generation {
  import opened Text
  import opened Params
  import I = Imitation
  import opened Decoys
  import opened Generator

  const H_FLOOR := 5
  const H_WIDTH_LO := 1024
  const H_WIDTH_HI := 4096
  const PADDING_MULTIPLE := 16

  /** The numbers behind one drawn set. */
  datatype Draw = Draw(jc: nat, jmin: nat, jmax: nat, s1: nat, s2: nat, s3: nat, s4: nat,
                       headers: seq<Band>, decoys: seq<Decoy>)

  predicate Disjoint(a: Band, b: Band) {
    a.1 < b.0 || b.1 < a.0
  }

  predicate AllDisjoint(bounds: seq<Band>) {
    forall i, j :: 0 <= i < j < |bounds| ==> Disjoint(bounds[i], bounds[j])
  }

  /** A narrow range above WireGuard's own four values. */
  predicate HeaderBand(b: Band) {
    H_FLOOR <= b.0 && b.1 <= H_MAX && H_WIDTH_LO <= b.1 - b.0 + 1 <= H_WIDTH_HI
  }

  predicate AllHeaderBands(bounds: seq<Band>) {
    forall i :: 0 <= i < |bounds| ==> HeaderBand(bounds[i])
  }

  predicate HeadersDrawn(bounds: seq<Band>) {
    |bounds| == 4 && AllHeaderBands(bounds) && AllDisjoint(bounds)
  }

  predicate JunkDrawn(d: Draw, p: Profile) {
    InBand(d.jc, p.jc) && InBand(d.jmin, p.jmin) && d.jmax >= d.jmin && InBand(d.jmax - d.jmin, p.jspan)
  }

  /** S4 stays inside the profile's ceiling and inside what the MTU leaves, and never under the nonce
      an MTU the panel accepts always leaves room for. */
  predicate SizesDrawn(s1: nat, s2: nat, s3: nat, s4: nat, p: Profile, mtu: int) {
    && InBand(s1, p.s) && InBand(s2, p.s) && InBand(s3, p.s) && s1 + 56 != s2
    && s4 <= p.s4.1
    && (mtu <= MTU_BUDGET - HEADER_NONCE ==> HEADER_NONCE <= s4 && s4 + mtu <= MTU_BUDGET)
    && (mtu > MTU_BUDGET - HEADER_NONCE ==> s4 == 0)
  }

  predicate DecoysDrawn(decoys: seq<Decoy>, p: Profile) {
    && 1 <= |decoys| <= 5 && p.decoys.0 <= |decoys| <= p.decoys.1
    && AllOk(decoys) && OneFamily(decoys)
  }

  predicate Drawn(d: Draw, p: Profile, mtu: int) {
    && JunkDrawn(d, p) && SizesDrawn(d.s1, d.s2, d.s3, d.s4, p, mtu) && HeadersDrawn(d.headers) && DecoysDrawn(d.decoys, p)
  }

  function Packet(decoys: seq<Decoy>, i: nat): string
    requires AllOk(decoys)
  {
    if i < |decoys| then I.Render(TagsOf(decoys[i])) else ""
  }

  function WrittenJunk(jc: nat, jmin: nat, jmax: nat): Values {
    map[Jc := Show(jc, 10), Jmin := Show(jmin, 10), Jmax := Show(jmax, 10)]
  }

  function WrittenSizes(s1: nat, s2: nat, s3: nat, s4: nat): Values {
    map[S1 := Show(s1, 10), S2 := Show(s2, 10), S3 := Show(s3, 10), S4 := Show(s4, 10)]
  }

  function WrittenHeaders(bounds: seq<Band>): Values
    requires |bounds| == 4
  {
    map[H1 := ShowRange(bounds[0].0, bounds[0].1), H2 := ShowRange(bounds[1].0, bounds[1].1),
        H3 := ShowRange(bounds[2].0, bounds[2].1), H4 := ShowRange(bounds[3].0, bounds[3].1)]
  }

  function WrittenPackets(decoys: seq<Decoy>): Values
    requires AllOk(decoys)
  {
    map[I1 := Packet(decoys, 0), I2 := Packet(decoys, 1), I3 := Packet(decoys, 2), I4 := Packet(decoys, 3),
        I5 := Packet(decoys, 4)]
  }

  /** What is written for a draw. */
  function Written(d: Draw): Values
    requires |d.headers| == 4 && AllOk(d.decoys)
  {
    WrittenJunk(d.jc, d.jmin, d.jmax) + WrittenSizes(d.s1, d.s2, d.s3, d.s4) + WrittenHeaders(d.headers)
    + WrittenPackets(d.decoys)
  }

  method DrawFrom(b: Band) returns (n: nat)
    requires b.0 <= b.1
    ensures InBand(n, b)
  {
    n := RandInt(b.0, b.1);
  }

  method JunkBounds(p: Profile) returns (jc: nat, jmin: nat, jmax: nat)
    requires Usable(p)
    ensures InBand(jc, p.jc) && InBand(jmin, p.jmin) && jmax >= jmin && InBand(jmax - jmin, p.jspan)
  {
    jmin := DrawFrom(p.jmin);
    jc := DrawFrom(p.jc);
    var span := DrawFrom(p.jspan);
    jmax := jmin + span;
  }

  /** validate._mtu_or_default, the text already read as a number or not at all. */
  function MtuOrDefault(given: Option<int>): int {
    if given.Some? && given.value > 0 then given.value else DEFAULT_MTU
  }

  method PaddingSizes(p: Profile, given: Option<int>) returns (s1: nat, s2: nat, s3: nat, s4: nat)
    requires Usable(p)
    ensures SizesDrawn(s1, s2, s3, s4, p, MtuOrDefault(given))
  {
    s1 := DrawFrom(p.s);
    s2 := DrawFrom(p.s);
    if s2 == s1 + 56 {
      s2 := if s2 == p.s.1 then p.s.0 else s2 + 1;
    }
    var room := MTU_BUDGET - MtuOrDefault(given);
    if room >= HEADER_NONCE {
      var top := if p.s4.1 < room then p.s4.1 else room;
      var floor := if p.s4.0 <= top then p.s4.0 else HEADER_NONCE;
      s4 := RandInt(floor, top);
    } else {
      s4 := 0;
    }
    s3 := DrawFrom(p.s);
  }

  function Slot(): nat {
    (H_MAX - H_FLOOR + 1) / 4
  }

  predicate InSlot(b: Band, i: nat) {
    H_FLOOR + i * Slot() <= b.0 && b.1 < H_FLOOR + (i + 1) * Slot()
  }

  lemma SlotsApart(bounds: seq<Band>)
    requires |bounds| == 4 && forall i :: 0 <= i < 4 ==> InSlot(bounds[i], i) && bounds[i].0 <= bounds[i].1
    ensures AllDisjoint(bounds)
  {
    forall i, j | 0 <= i < j < 4 ensures Disjoint(bounds[i], bounds[j]) {
      assert InSlot(bounds[i], i) && InSlot(bounds[j], j);
    }
  }

  /** A random range inside each quarter of the space, then shuffled. */
  method HeaderRanges() returns (bounds: seq<Band>)
    ensures HeadersDrawn(bounds)
  {
    bounds := [];
    for index := 0 to 4
      invariant |bounds| == index && AllHeaderBands(bounds)
      invariant forall i :: 0 <= i < index ==> InSlot(bounds[i], i) && bounds[i].0 <= bounds[i].1
    {
      var base := H_FLOOR + index * Slot();
      var width := RandInt(H_WIDTH_LO, H_WIDTH_HI);
      var offset := RandInt(0, Slot() - width);
      var start := base + offset;
      bounds := bounds + [(start, start + width - 1)];
    }
    SlotsApart(bounds);
    bounds := Shuffle(bounds);
  }

  lemma SwapKeeps(bounds: seq<Band>, i: nat, j: nat)
    requires i < |bounds| && j < |bounds| && AllDisjoint(bounds) && AllHeaderBands(bounds)
    ensures var swapped := bounds[i := bounds[j]][j := bounds[i]]; AllDisjoint(swapped) && AllHeaderBands(swapped)
  {
    var swapped := bounds[i := bounds[j]][j := bounds[i]];
    forall a, b | 0 <= a < b < |swapped| ensures Disjoint(swapped[a], swapped[b]) {
      var x := if a == i then j else if a == j then i else a;
      var y := if b == i then j else if b == j then i else b;
      assert swapped[a] == bounds[x] && swapped[b] == bounds[y] && x != y;
      assert x < y ==> Disjoint(bounds[x], bounds[y]);
      assert y < x ==> Disjoint(bounds[y], bounds[x]);
    }
  }

  /** random.shuffle: swaps from the end, with a partner drawn each time. */
  method Shuffle(bounds: seq<Band>) returns (out: seq<Band>)
    requires HeadersDrawn(bounds)
    ensures HeadersDrawn(out) && multiset(out) == multiset(bounds)
  {
    out := bounds;
    var i := |out| - 1;
    while i > 0
      invariant -1 <= i < |out| && HeadersDrawn(out) && multiset(out) == multiset(bounds)
    {
      var j := RandInt(0, i);
      SwapKeeps(out, i, j);
      out := out[i := out[j]][j := out[i]];
      i := i - 1;
    }
  }

  // --- decoys

  method DrawMedia(ssrc: Bytes, payloadType: nat) returns (d: Decoy)
    requires |ssrc| == 4 && 96 <= payloadType <= 127
    ensures DecoyOk(d) && FamilyOf(d) == 0
  {
    var marker := CoinToss();
    var size := RandInt(120, 260);
    d := Media(if marker then payloadType + 128 else payloadType, ssrc, size);
  }

  method FamilyMedia(count: nat) returns (decoys: seq<Decoy>)
    requires count >= 1
    ensures |decoys| == count && AllOk(decoys) && forall i :: 0 <= i < count ==> FamilyOf(decoys[i]) == 0
  {
    var ssrc := RandBytes(4);
    var payloadType := RandInt(96, 127);
    var controlling := CoinToss();
    var both := [Request(controlling), Response];
    decoys := both[..if count < 2 then count else 2];
    while |decoys| < count
      invariant |decoys| <= count && AllOk(decoys) && forall i :: 0 <= i < |decoys| ==> FamilyOf(decoys[i]) == 0
    {
      var d := DrawMedia(ssrc, payloadType);
      decoys := decoys + [d];
    }
  }

  method FamilyQuic(count: nat) returns (decoys: seq<Decoy>)
    requires count >= 1
    ensures |decoys| == count && AllOk(decoys) && forall i :: 0 <= i < count ==> FamilyOf(decoys[i]) == 1
  {
    var dcid := Choice([4, 8]);
    var total := RandInt(1200, 1232);
    decoys := [Initial(dcid, total)];
    while |decoys| < count
      invariant |decoys| <= count && AllOk(decoys) && forall i :: 0 <= i < |decoys| ==> FamilyOf(decoys[i]) == 1
    {
      var first := Choice([0x43, 0x53, 0x63, 0x73]);
      var size := RandInt(80, 400);
      decoys := decoys + [ShortHeader(first, size)];
    }
  }

  predicate IsPublicFirst(n: nat) {
    1 <= n < 224 && n !in {10, 100, 127, 169, 172, 192, 198, 203}
  }

  /** Four bytes of an address that is not an obvious bogon. */
  predicate Routable(b: Bytes) {
    |b| == 4 && IsPublicFirst(b[0])
  }

  method RoutableAddress() returns (b: Bytes)
    ensures Routable(b)
  {
    assert IsPublicFirst(1);
    var first: nat :| first < 224 && IsPublicFirst(first);
    var last := RandBytes(3);
    b := [first] + last;
  }

  method DrawQuery(domain: string) returns (d: Decoy)
    requires IsDomain(domain)
    ensures DecoyOk(d) && FamilyOf(d) == 2 && d.Query? && d.question == domain
  {
    var udp := Choice([0x04d0, 0x1000, 0x0500]);
    d := Query(domain, udp);
  }

  method DrawAnswer(domain: string) returns (d: Decoy)
    requires IsDomain(domain)
    ensures DecoyOk(d) && FamilyOf(d) == 2 && d.Answer? && d.name == domain && Routable(d.address)
  {
    var flags := Choice([0x8180, 0x8580]);
    var ttl := RandInt(120, 32767 + 120);
    var address := RoutableAddress();
    d := Answer(domain, flags, [0, 0] + U16(ttl), address);
  }

  /** Question and answer in turn; an odd count ends on a question. */
  method FamilyDns(count: nat) returns (decoys: seq<Decoy>)
    requires count >= 1
    ensures |decoys| == count && AllOk(decoys) && forall i :: 0 <= i < count ==> FamilyOf(decoys[i]) == 2
    ensures forall i :: 0 <= i < count && i % 2 == 1 ==>
              decoys[i].Answer? && decoys[i - 1].Query? && decoys[i].name == decoys[i - 1].question
  {
    hide IsHostName, IsDomain;
    DomainsAreDomains();
    decoys := [];
    while |decoys| < count
      invariant |decoys| <= count + 1 && |decoys| % 2 == 0
      invariant AllOk(decoys) && forall i :: 0 <= i < |decoys| ==> FamilyOf(decoys[i]) == 2
      invariant forall i :: 0 <= i < |decoys| && i % 2 == 1 ==>
                  decoys[i].Answer? && decoys[i - 1].Query? && decoys[i].name == decoys[i - 1].question
    {
      var domain := Choice(DOMAINS);
      var question := DrawQuery(domain);
      var answer := DrawAnswer(domain);
      decoys := decoys + [question, answer];
    }
    decoys := decoys[..count];
  }

  /** One family for the whole set, and as many packets as the profile draws. */
  method ImitationSet(p: Profile) returns (decoys: seq<Decoy>)
    requires Usable(p) && p.decoys.1 <= 5
    ensures DecoysDrawn(decoys, p)
  {
    var count := RandInt(p.decoys.0, p.decoys.1);
    count := if count < 5 then count else 5;
    var family := RandInt(0, 2);
    if family == 0 {
      decoys := FamilyMedia(count);
    } else if family == 1 {
      decoys := FamilyQuic(count);
    } else {
      decoys := FamilyDns(count);
    }
  }

  lemma FiveAtMost(name: string)
    ensures ProfileOf(name).decoys.1 <= 5
  {
  }

  /** A set that some draw within the bands of the profile writes. */
  ghost predicate IsRandomized(out: Values, profile: string, mtu: int) {
    exists d: Draw :: Drawn(d, ProfileOf(profile), mtu) && out == Written(d)
  }

  /** validate.randomize, for a profile name and whatever MTU the caller had. */
  method Randomize(given: Option<int>, profile: string) returns (out: Values)
    ensures IsRandomized(out, profile, MtuOrDefault(given))
  {
    hide ProfileOf, WrittenJunk, WrittenSizes, WrittenHeaders, WrittenPackets, Packet;
    ProfilesAreUsable(profile);
    FiveAtMost(profile);
    var band := ProfileOf(profile);
    var jc, jmin, jmax := JunkBounds(band);
    var s1, s2, s3, s4 := PaddingSizes(band, given);
    var headers := HeaderRanges();
    var decoys := ImitationSet(band);
    out := WrittenJunk(jc, jmin, jmax);
    out := out + WrittenSizes(s1, s2, s3, s4);
    out := out + WrittenHeaders(headers);
    var packets := PacketSlots(decoys);
    out := out + packets;
    ghost var draw := Draw(jc, jmin, jmax, s1, s2, s3, s4, headers, decoys);
    assert Drawn(draw, band, MtuOrDefault(given)) && out == Written(draw);
  }

  const SLOTS := [I1, I2, I3, I4, I5]

  /** The slots I1 to I5, filled from the front; unused ones come back empty. */
  method PacketSlots(decoys: seq<Decoy>) returns (out: Values)
    requires AllOk(decoys) && |decoys| <= 5
    ensures out == WrittenPackets(decoys)
  {
    hide TagsOf;
    out := map[I1 := "", I2 := "", I3 := "", I4 := "", I5 := ""];
    for slot := 0 to |decoys|
      invariant out.Keys == {I1, I2, I3, I4, I5}
      invariant forall i :: 0 <= i < 5 ==> out[SLOTS[i]] == if i < slot then Packet(decoys, i) else ""
    {
      out := out[SLOTS[slot] := I.Render(TagsOf(decoys[slot]))];
    }
    SlotsAre(decoys, out);
  }

  lemma SlotsAre(decoys: seq<Decoy>, out: Values)
    requires AllOk(decoys) && out.Keys == {I1, I2, I3, I4, I5} && forall i :: 0 <= i < 5 ==> out[SLOTS[i]] == Packet(decoys, i)
    ensures out == WrittenPackets(decoys)
  {
    hide Packet;
    assert SLOTS[0] == I1 && SLOTS[1] == I2 && SLOTS[2] == I3 && SLOTS[3] == I4 && SLOTS[4] == I5;
  }

  // --- the advanced group

  /** The numbers behind one drawn advanced group; an empty padding is one that was not worth writing. */
  datatype Advanced = Advanced(key: Bytes, padding: Option<Band>, rekeyAfter: Band, rekeyTimeout: Band,
                               reject: Band, keepalive: Band, attempts: Band)

  predicate Within(r: Band, b: Band) {
    b.0 <= r.0 < r.1 <= b.1
  }

  predicate AdvancedDrawn(a: Advanced, t: Timing) {
    && |a.key| == 32
    && (a.padding.Some? ==> PADDING_MULTIPLE <= a.padding.value.1 <= t.padding.1 && 3 * a.padding.value.0 <= a.padding.value.1)
    && Within(a.rekeyAfter, t.rekeyAfter) && Within(a.rekeyTimeout, t.rekeyTimeout)
    && Within(a.keepalive, t.keepalive) && Within(a.attempts, t.attempts)
    && a.rekeyAfter.1 + a.keepalive.1 + a.rekeyTimeout.1 < a.reject.0 <= a.reject.1 <= 7200
  }

  /** RFC 4648 section 4. */
  function Base64Char(n: nat): char
    requires n < 64
  {
    if n < 26 then ('A' as int + n) as char
    else if n < 52 then ('a' as int + n - 26) as char
    else if n < 62 then ('0' as int + n - 52) as char
    else if n == 62 then '+' else '/'
  }

  function Base64(b: Bytes): string {
    if b == [] then ""
    else
      var x: nat := b[0];
      if |b| == 1 then [Base64Char(x / 4), Base64Char(x % 4 * 16), '=', '=']
      else
        var y: nat := b[1];
        if |b| == 2 then [Base64Char(x / 4), Base64Char(x % 4 * 16 + y / 16), Base64Char(y % 16 * 4), '=']
        else
          var z: nat := b[2];
          [Base64Char(x / 4), Base64Char(x % 4 * 16 + y / 16), Base64Char(y % 16 * 4 + z / 64), Base64Char(z % 64)]
          + Base64(b[3..])
  }

  function WrittenAdvanced(a: Advanced): Values {
    map[HeaderProtectionKey := Base64(a.key),
        ContentPaddingAddition := if a.padding.Some? then ShowRange(a.padding.value.0, a.padding.value.1) else "",
        RekeyAfterTime := ShowRange(a.rekeyAfter.0, a.rekeyAfter.1), RekeyTimeout := ShowRange(a.rekeyTimeout.0, a.rekeyTimeout.1),
        RejectAfterTime := ShowRange(a.reject.0, a.reject.1), KeepaliveTimeout := ShowRange(a.keepalive.0, a.keepalive.1),
        MaxHandshakeAttempts := ShowRange(a.attempts.0, a.attempts.1), RandomTrailers := "on"]
  }

  /** A range inside the band, its top strictly above its bottom. */
  method TimerRange(b: Band) returns (r: Band)
    requires b.0 < b.1
    ensures Within(r, b)
  {
    var low := RandInt(b.0, b.1 - 1);
    var high := RandInt(low + 1, b.1);
    r := (low, high);
  }

  method ContentPadding(b: Band) returns (padding: Option<Band>)
    requires b.0 <= b.1
    ensures padding.Some? ==> PADDING_MULTIPLE <= padding.value.1 <= b.1 && 3 * padding.value.0 <= padding.value.1
  {
    var high := DrawFrom(b);
    if high < PADDING_MULTIPLE {
      return None;
    }
    var low := RandInt(0, high / 3);
    padding := Some((low, high));
  }

  ghost predicate IsRandomizedAdvanced(out: Values, profile: string) {
    exists a: Advanced :: AdvancedDrawn(a, TimingOf(profile)) && out == WrittenAdvanced(a)
  }

  /** validate.randomize_advanced. */
  method RandomizeAdvanced(profile: string) returns (out: Values)
    ensures IsRandomizedAdvanced(out, profile)
  {
    hide TimingOf, ProfileOf, Base64, ShowRange;
    ProfilesAreUsable(profile);
    var band := TimingOf(profile);
    var rekeyAfter := TimerRange(band.rekeyAfter);
    var rekeyTimeout := TimerRange(band.rekeyTimeout);
    var keepalive := TimerRange(band.keepalive);
    var attempts := TimerRange(band.attempts);
    var cap := 7200;
    var floor := rekeyAfter.1 + keepalive.1 + rekeyTimeout.1;
    var margin := DrawFrom(band.margin);
    var low := if floor + margin < cap then floor + margin else cap;
    var more := DrawFrom(band.margin);
    var high := if low + more < cap then low + more else cap;
    var key := RandBytes(32);
    var padding := ContentPadding(band.padding);
    out := map[HeaderProtectionKey := Base64(key),
               ContentPaddingAddition := if padding.Some? then ShowRange(padding.value.0, padding.value.1) else "",
               RekeyAfterTime := ShowRange(rekeyAfter.0, rekeyAfter.1), RekeyTimeout := ShowRange(rekeyTimeout.0, rekeyTimeout.1),
               RejectAfterTime := ShowRange(low, high), KeepaliveTimeout := ShowRange(keepalive.0, keepalive.1),
               MaxHandshakeAttempts := ShowRange(attempts.0, attempts.1), RandomTrailers := "on"];
    ghost var draw := Advanced(key, padding, rekeyAfter, rekeyTimeout, (low, high), keepalive, attempts);
    assert AdvancedDrawn(draw, band) && out == WrittenAdvanced(draw);
  }
}
