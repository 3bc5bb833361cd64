/** Drawing a server's obfuscation: every value from a band, every draw the random source's choice. */
module Generator {
  import opened Text
  import opened Params
  import I = Imitation
  import opened Decoys

  // --- the bands

  type Band = (nat, nat)

  datatype Profile = Profile(jc: Band, jmin: Band, jspan: Band, s: Band, s4: Band, decoys: Band)

  datatype Timing = Timing(padding: Band, rekeyAfter: Band, rekeyTimeout: Band, keepalive: Band, attempts: Band, margin: Band)

  function Least(a: nat, b: nat): nat {
    if a <= b then a else b
  }

  function Most(a: nat, b: nat): nat {
    if a >= b then a else b
  }

  function Span(a: Band, b: Band, c: Band): Band {
    (Least(a.0, Least(b.0, c.0)), Most(a.1, Most(b.1, c.1)))
  }

  function Fast(): Profile {
    Profile((1, 3), (16, 40), (24, 80), (HEADER_NONCE, 96), (HEADER_NONCE, 20), (1, 2))
  }

  function Standard(): Profile {
    Profile((3, 8), (24, 80), (40, 240), (24, 320), (HEADER_NONCE, 40), (3, 5))
  }

  function Resistant(): Profile {
    Profile((8, 12), (64, 160), (200, 640), (160, 900), (24, 64), (4, 5))
  }

  function Anything(): Profile {
    var f, s, d := Fast(), Standard(), Resistant();
    Profile(Span(f.jc, s.jc, d.jc), Span(f.jmin, s.jmin, d.jmin), Span(f.jspan, s.jspan, d.jspan),
            Span(f.s, s.s, d.s), Span(f.s4, s.s4, d.s4), Span(f.decoys, s.decoys, d.decoys))
  }

  function FastTiming(): Timing {
    Timing((0, 0), (110, 130), (2, 4), (5, 10), (8, 12), (60, 120))
  }

  function StandardTiming(): Timing {
    Timing((32, 96), (120, 180), (4, 7), (8, 15), (16, 24), (60, 180))
  }

  function ResistantTiming(): Timing {
    Timing((128, 384), (300, 600), (8, 20), (30, 60), (40, 80), (120, 360))
  }

  function AnyTiming(): Timing {
    var f, s, d := FastTiming(), StandardTiming(), ResistantTiming();
    Timing(Span(f.padding, s.padding, d.padding), Span(f.rekeyAfter, s.rekeyAfter, d.rekeyAfter),
           Span(f.rekeyTimeout, s.rekeyTimeout, d.rekeyTimeout), Span(f.keepalive, s.keepalive, d.keepalive),
           Span(f.attempts, s.attempts, d.attempts), Span(f.margin, s.margin, d.margin))
  }

  /** An unknown name is the standard profile. */
  function ProfileOf(name: string): Profile {
    if name == "dpi" then Resistant() else if name == "fast" then Fast()
    else if name == "random" then Anything() else Standard()
  }

  function TimingOf(name: string): Timing {
    if name == "dpi" then ResistantTiming() else if name == "fast" then FastTiming()
    else if name == "random" then AnyTiming() else StandardTiming()
  }

  predicate InBand(x: int, b: Band) {
    b.0 <= x <= b.1
  }

  /** What every profile keeps, whichever is chosen. */
  predicate Usable(p: Profile) {
    && 1 <= p.jc.0 <= p.jc.1 <= 128 && 1 <= p.jmin.0 <= p.jmin.1 && 1 <= p.jspan.0 <= p.jspan.1
    && p.jmin.1 + p.jspan.1 <= JUNK_MAX
    && HEADER_NONCE <= p.s.0 < p.s.1 <= JUNK_MAX && HEADER_NONCE <= p.s4.0 <= p.s4.1 <= JUNK_MAX
    && 1 <= p.decoys.0 <= p.decoys.1
  }

  predicate UsableTiming(t: Timing) {
    && t.padding.0 <= t.padding.1 <= JUNK_MAX
    && 5 <= t.rekeyAfter.0 < t.rekeyAfter.1 <= 3600 && 1 <= t.rekeyTimeout.0 < t.rekeyTimeout.1 <= 60
    && 1 <= t.keepalive.0 < t.keepalive.1 <= 3600 && 1 <= t.attempts.0 < t.attempts.1 <= 1000
    && 1 <= t.margin.0 <= t.margin.1
    && t.rekeyAfter.1 + t.keepalive.1 + t.rekeyTimeout.1 + t.margin.1 <= 7200
  }

  lemma ProfilesAreUsable(name: string)
    ensures Usable(ProfileOf(name)) && UsableTiming(TimingOf(name))
  {
    assert Usable(Fast()) && Usable(Standard()) && Usable(Resistant()) && Usable(Anything());
    assert UsableTiming(FastTiming()) && UsableTiming(StandardTiming());
    assert UsableTiming(ResistantTiming()) && UsableTiming(AnyTiming());
  }

  // --- the random source

  /** random.Random: any value it may return, and refused where it raises. */
  method RandInt(low: int, high: int) returns (n: int)
    requires low <= high
    ensures low <= n <= high
  {
    n :| low <= n <= high;
  }

  method Choice<T>(options: seq<T>) returns (t: T)
    requires options != []
    ensures t in options
  {
    var i := RandInt(0, |options| - 1);
    t := options[i];
  }

  method CoinToss() returns (heads: bool) {
    heads := *;
  }

  method RandByte() returns (b: I.Byte) {
    var n := RandInt(0, 255);
    b := n;
  }

  method RandBytes(count: nat) returns (b: Bytes)
    ensures |b| == count
  {
    b := [];
    for i := 0 to count
      invariant |b| == i
    {
      var x := RandByte();
      b := b + [x];
    }
  }

  // --- decoys

  datatype Decoy =
    | Request(controlling: bool)
    | Response
    | Media(second: I.Byte, ssrc: Bytes, payload: nat)
    | Initial(dcid: nat, total: nat)
    | ShortHeader(first: I.Byte, size: nat)
    | Query(question: string, udp: nat)
    | Answer(name: string, flags: nat, ttl: Bytes, address: Bytes)

  predicate DecoyOk(d: Decoy) {
    match d
    case Request(_) => true
    case Response => true
    case Media(_, ssrc, payload) => |ssrc| == 4 && 120 <= payload <= 260
    case Initial(dcid, total) => (dcid == 4 || dcid == 8) && 1200 <= total <= 1232
    case ShortHeader(_, size) => 80 <= size <= 400
    case Query(name, udp) => IsHostName(name) && |name| <= 253 && udp < 0x10000
    case Answer(name, flags, ttl, address) =>
      IsHostName(name) && |name| <= 253 && flags < 0x10000 && |ttl| == 4 && |address| == 4
  }

  function TagsOf(d: Decoy): seq<I.Tag>
    requires DecoyOk(d)
  {
    match d
    case Request(controlling) => StunRequest(controlling)
    case Response => StunResponse()
    case Media(second, ssrc, payload) => Rtp(second, ssrc, payload)
    case Initial(dcid, total) => QuicInitial(dcid, total)
    case ShortHeader(first, size) => QuicShort(first, size)
    case Query(name, udp) => DnsQuery(name, udp)
    case Answer(name, flags, ttl, address) => DnsAnswer(name, flags, ttl, address)
  }

  /** What a parser of the protocol would find true of these bytes. */
  predicate Truthful(d: Decoy, b: Bytes) {
    match d
    case Request(_) => IsStun(b)
    case Response => IsStun(b)
    case Initial(_, _) => IsInitial(b) && |b| >= 1200
    case Query(_, _) => IsDns(b, false)
    case Answer(_, _, _, _) => IsDns(b, true)
    case _ => true
  }

  predicate SameFamily(d: Decoy, e: Decoy) {
    FamilyOf(d) == FamilyOf(e)
  }

  function FamilyOf(d: Decoy): nat {
    match d
    case Request(_) => 0
    case Response => 0
    case Media(_, _, _) => 0
    case Initial(_, _) => 1
    case ShortHeader(_, _) => 1
    case Query(_, _) => 2
    case Answer(_, _, _, _) => 2
  }

  predicate AllOk(decoys: seq<Decoy>) {
    forall i :: 0 <= i < |decoys| ==> DecoyOk(decoys[i])
  }

  predicate OneFamily(decoys: seq<Decoy>) {
    forall i, j :: 0 <= i < |decoys| && 0 <= j < |decoys| ==> SameFamily(decoys[i], decoys[j])
  }

  const DOMAINS := ["apple.com", "www.google.com", "cloudflare.com", "microsoft.com", "www.icloud.com",
                    "outlook.com", "fastly.net", "akamai.net"]

  /** A public name: labels a resolver accepts and at most 253 characters of them. */
  predicate IsDomain(name: string) {
    IsHostName(name) && |name| <= 253
  }

  lemma TwoLabels(a: string, b: string)
    requires '.' !in a && '.' !in b && 1 <= |a| <= 63 && 1 <= |b| <= 63
    ensures IsDomain(a + "." + b)
  {
    SplitOnStep(a, '.', b);
    SplitOnWhole(b, '.');
    assert a + ['.'] + b == a + "." + b;
  }

  lemma ThreeLabels(a: string, b: string, c: string)
    requires '.' !in a && '.' !in b && '.' !in c && 1 <= |a| <= 63 && 1 <= |b| <= 63 && 1 <= |c| <= 63
    ensures IsDomain(a + "." + b + "." + c)
  {
    hide SplitOn;
    SplitOnStep(a, '.', b + "." + c);
    TwoLabels(b, c);
    assert a + ['.'] + (b + "." + c) == a + "." + b + "." + c;
  }

  lemma SomeDomains()
    ensures IsDomain("apple.com") && IsDomain("www.google.com") && IsDomain("cloudflare.com") && IsDomain("microsoft.com")
  {
    hide IsDomain;
    TwoLabels("apple", "com");
    ThreeLabels("www", "google", "com");
    TwoLabels("cloudflare", "com");
    TwoLabels("microsoft", "com");
    assert "apple" + "." + "com" == "apple.com";
    assert "www" + "." + "google" + "." + "com" == "www.google.com";
    assert "cloudflare" + "." + "com" == "cloudflare.com";
    assert "microsoft" + "." + "com" == "microsoft.com";
  }

  lemma MoreDomains()
    ensures IsDomain("www.icloud.com") && IsDomain("outlook.com") && IsDomain("fastly.net") && IsDomain("akamai.net")
  {
    hide IsDomain;
    ThreeLabels("www", "icloud", "com");
    TwoLabels("outlook", "com");
    TwoLabels("fastly", "net");
    TwoLabels("akamai", "net");
    assert "www" + "." + "icloud" + "." + "com" == "www.icloud.com";
    assert "outlook" + "." + "com" == "outlook.com";
    assert "fastly" + "." + "net" == "fastly.net";
    assert "akamai" + "." + "net" == "akamai.net";
  }

  lemma DomainsAreDomains()
    ensures forall name :: name in DOMAINS ==> IsDomain(name)
  {
    hide IsDomain;
    SomeDomains();
    MoreDomains();
  }
}
