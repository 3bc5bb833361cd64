/** What validate_params promises of the parameters it accepts, said parameter by parameter and number by
    number, without the tests that find out. */
module ValidationPromise {
  import opened Text
  import opened Params
  import opened Timers
  import opened Validation
  import opened ValidationMeaning
  import G = ImitationGrammar
  import I = Imitation

  // ------------------------------------------------------------------ the parameters

  predicate IsSwitch(p: Param) {
    p == RandomTrailers || p == DisableCookies
  }

  predicate IsPacket(p: Param) {
    p == I1 || p == I2 || p == I3 || p == I4 || p == I5
  }

  predicate IsHeader(p: Param) {
    p == H1 || p == H2 || p == H3 || p == H4
  }

  predicate IsTimer(p: Param) {
    p == RekeyAfterTime || p == RekeyTimeout || p == RejectAfterTime || p == KeepaliveTimeout || p == MaxHandshakeAttempts
  }

  /** The parameters that hold one number. */
  predicate IsNumber(p: Param) {
    || p == Jc || p == Jmin || p == Jmax || p == S1 || p == S2 || p == S3 || p == S4
    || p == ListenPort || p == MTU || p == EndpointPort || p == PersistentKeepalive
  }

  /** The lowest and the highest number a parameter may hold. */
  function Bounds(p: Param): (int, int) {
    match p
    case Jc => (1, 128)
    case Jmin => (0, 1280)
    case Jmax => (1, 1280)
    case S1 => (0, 1280)
    case S2 => (0, 1280)
    case S3 => (0, 1280)
    case S4 => (0, 1280)
    case H1 => (1, 2_147_483_647)
    case H2 => (1, 2_147_483_647)
    case H3 => (1, 2_147_483_647)
    case H4 => (1, 2_147_483_647)
    case ContentPaddingAddition => (0, 1280)
    case RekeyAfterTime => (5, 3600)
    case RekeyTimeout => (1, 60)
    case RejectAfterTime => (10, 7200)
    case KeepaliveTimeout => (1, 3600)
    case MaxHandshakeAttempts => (1, 1000)
    case ListenPort => (1, 65535)
    case MTU => (1280, 1408)
    case EndpointPort => (1, 65535)
    case PersistentKeepalive => (0, 65535)
    case _ => (0, 0)
  }

  /** Parameters of the tunnel's network, whose zero is a number. */
  predicate ZeroCounts(p: Param) {
    p == ListenPort || p == MTU || p == EndpointPort || p == PersistentKeepalive
  }

  // ------------------------------------------------------------------ texts

  /** What is written for a parameter, blanks around it apart; empty when there is nothing. */
  function Said(values: Values, p: Param): string {
    if p in values then Strip(values[p]) else ""
  }

  predicate Word(s: string, lower: string, upper: string)
    requires |lower| == |upper|
  {
    |s| == |lower| && forall i :: 0 <= i < |s| ==> s[i] == lower[i] || s[i] == upper[i]
  }

  predicate MinusZero(s: string) {
    |s| > 1 && s[0] == '-' && forall i :: 1 <= i < |s| ==> s[i] == '0'
  }

  /** The two ends of what a text says as a number or a range of numbers. */
  function Ends(s: string): Option<(int, int)> {
    if G.Digits(s) then Some((G.Number(s), G.Number(s)))
    else if MinusZero(s) then Some((0, 0))
    else
      var i := IndexOf(s, '-');
      if i < |s| && G.Digits(s[..i]) && G.Digits(s[i + 1..]) then Some((G.Number(s[..i]), G.Number(s[i + 1..]))) else None
  }

  predicate Base64(c: char) {
    'A' <= c <= 'Z' || 'a' <= c <= 'z' || '0' <= c <= '9' || c == '+' || c == '/'
  }

  /** 44 characters of base64 ending in one '=', or 64 hexadecimal characters. */
  predicate KeyShape(s: string) {
    || (|s| == 44 && s[43] == '=' && forall i :: 0 <= i < 43 ==> Base64(s[i]))
    || (|s| == 64 && forall i :: 0 <= i < 64 ==> G.HexDigit(s[i]))
  }

  /** Nothing would be written for this text: it is empty, a switch that says off, or a zero where zero is off. */
  predicate Off(p: Param, s: string) {
    || s == ""
    || (IsSwitch(p) && (Word(s, "off", "OFF") || (G.Digits(s) && G.Number(s) == 0)))
    || (!IsSwitch(p) && !ZeroCounts(p) && s == "0")
  }

  /** A text that may stand for a parameter. */
  ghost predicate Good(p: Param, s: string) {
    if IsSwitch(p) then Word(s, "on", "ON") || Word(s, "off", "OFF") || G.Digits(s)
    else if IsPacket(p) then G.Template(s)
    else if p == HeaderProtectionKey then KeyShape(s)
    else
      && Ends(s).Some? && Bounds(p).0 <= Ends(s).value.0 <= Ends(s).value.1 <= Bounds(p).1
      && (IsNumber(p) ==> G.Digits(s) || MinusZero(s))
  }

  /** Every parameter given says something that may stand for it, or nothing; the listening port always does. */
  ghost predicate EachGood(values: Values) {
    forall p :: p in values ==> if Off(p, Said(values, p)) then p != ListenPort else Good(p, Said(values, p))
  }

  // ------------------------------------------------------------------ together

  function Range(values: Values, p: Param): Option<(int, int)> {
    if Off(p, Said(values, p)) then None else Ends(Said(values, p))
  }

  /** The number a parameter is set to, and 0 where nothing is written. */
  function Value(values: Values, p: Param): int {
    if Range(values, p).Some? then Range(values, p).value.0 else 0
  }

  predicate Set(values: Values, p: Param) {
    Range(values, p).Some?
  }

  predicate May(values: Values, p: Param, n: int) {
    Set(values, p) && Range(values, p).value.0 <= n <= Range(values, p).value.1
  }

  /** Sizes: junk has a span, the two handshake packets differ in length (148 + S1 and 92 + S2), a data packet
      with its padding fits the path, and a protection key finds its 12-byte nonce in every packet. */
  predicate SizesPromise(values: Values) {
    && (Set(values, Jmin) && Set(values, Jmax) ==> Value(values, Jmin) < Value(values, Jmax))
    && (Set(values, S1) && Set(values, S2) ==> 148 + Value(values, S1) != 92 + Value(values, S2))
    && (Set(values, MTU) ==> Value(values, MTU) + Value(values, S4) <= 1420)
    && (Said(values, HeaderProtectionKey) != "" ==>
          Value(values, S1) >= 12 && Value(values, S2) >= 12 && Value(values, S3) >= 12 && Value(values, S4) >= 12)
  }

  /** Headers: where one that is given is set, all that are given are, and no number may be two of them. */
  ghost predicate HeadersPromise(values: Values) {
    && (forall p, q :: IsHeader(p) && IsHeader(q) && Set(values, p) && q in values ==> Set(values, q))
    && (forall p, q, n :: IsHeader(p) && IsHeader(q) && p != q && May(values, p, n) ==> !May(values, q, n))
  }

  /** Timers: whatever is drawn, a key ends after it was due for renewal, and with the waits set too, after a
      whole attempt; without a renewal time it ends after the two shortest waits. */
  ghost predicate TimersPromise(values: Values) {
    && (forall r, j :: May(values, RekeyAfterTime, r) && May(values, RejectAfterTime, j) ==> r < j)
    && (forall r, k, t, j ::
          (May(values, RekeyAfterTime, r) && May(values, KeepaliveTimeout, k) && May(values, RekeyTimeout, t)
           && May(values, RejectAfterTime, j)) ==> r + k + t < j)
    && (Set(values, KeepaliveTimeout) && Set(values, RekeyTimeout) ==>
          forall j :: May(values, RejectAfterTime, j) ==> Value(values, KeepaliveTimeout) + Value(values, RekeyTimeout) < j)
  }

  /** What a parameter needs of the installed module is not something it was found unable to do. */
  predicate Supported(values: Values, features: Features, p: Param) {
    && (IsPacket(p) ==> Can(features, ImitationPackets))
    && (p == HeaderProtectionKey ==> Can(features, HeaderKeys))
    && (p == ContentPaddingAddition ==> Can(features, ContentPadding))
    && (IsTimer(p) ==> Can(features, TimerOverrides))
    && (p == RandomTrailers ==> Can(features, RandomTrailing))
    && (p == DisableCookies ==> Can(features, CookieSwitch))
    && (IsHeader(p) && '-' in Said(values, p) ==> Can(features, HeaderRanges))
  }

  predicate FeaturesPromise(values: Values, features: Features) {
    forall p :: p in values && !Off(p, Said(values, p)) ==> Supported(values, features, p)
  }

  predicate Can(features: Features, f: Feature) {
    f in features ==> features[f]
  }

  ghost predicate Promised(values: Values, features: Features) {
    && EachGood(values) && SizesPromise(values) && HeadersPromise(values) && TimersPromise(values)
    && FeaturesPromise(values, features)
  }

  // ------------------------------------------------------------------ one text, read and tested

  lemma FoldOff(s: string)
    ensures Word(s, "off", "OFF") <==> Fold(s) == "off"
    ensures Word(s, "on", "ON") <==> Fold(s) == "on"
  {
    assert forall i :: 0 <= i < |s| ==> Fold(s)[i] == FoldChar(s[i]);
    if Fold(s) == "off" {
      assert Fold(s)[0] == 'o' && Fold(s)[1] == 'f' && Fold(s)[2] == 'f';
    }
    if Fold(s) == "on" {
      assert Fold(s)[0] == 'o' && Fold(s)[1] == 'n';
    }
    if Word(s, "off", "OFF") { assert Fold(s) == "off"; }
    if Word(s, "on", "ON") { assert Fold(s) == "on"; }
  }

  lemma SwitchIs(s: string)
    ensures SwitchState(s).Some? <==> Word(s, "on", "ON") || Word(s, "off", "OFF") || G.Digits(s)
    ensures SwitchState(s) == Some(false) <==> Word(s, "off", "OFF") || (G.Digits(s) && G.Number(s) == 0)
  {
    G.DigitsAreNumerals(s);
    FoldOff(s);
    if Word(s, "on", "ON") { assert s[0] == 'o' || s[0] == 'O'; }
    hide Fold, IsNumeral, Numeral;
  }

  lemma OffIs(p: Param, s: string)
    requires Strip(s) == s
    ensures Off(p, s) <==> !IsSet(p, s)
  {
    hide SwitchState, G.Digits, G.Number, Word, Strip;
    SwitchIs(s);
    KindIs(p);
  }

  lemma KindIs(p: Param)
    ensures SpecOf(p).kind.Switch? <==> IsSwitch(p)
    ensures SpecOf(p).kind.Imitation? <==> IsPacket(p)
    ensures SpecOf(p).kind.Secret? <==> p == HeaderProtectionKey
    ensures SpecOf(p).kind.Whole? <==> IsNumber(p)
    ensures SpecOf(p).kind.Whole? || SpecOf(p).kind.Range? ==> SpecOf(p).min == Bounds(p).0 && SpecOf(p).max == Bounds(p).1
    ensures !IsSwitch(p) ==> (SpecOf(p).offIsZero <==> !ZeroCounts(p))
    ensures SpecOf(p).optional <==> p != ListenPort
  {
  }

  lemma {:induction false} ZerosAre(s: string)
    requires IsNumeral(s) && Numeral(s) == 0
    ensures forall i :: 0 <= i < |s| ==> s[i] == '0'
  {
    if |s| > 1 {
      ZerosAre(s[..|s| - 1]);
    }
  }

  lemma {:induction false} ZerosCount(s: string)
    requires s != "" && forall i :: 0 <= i < |s| ==> s[i] == '0'
    ensures IsNumeral(s) && Numeral(s) == 0
  {
    if |s| > 1 {
      ZerosCount(s[..|s| - 1]);
    } else {
      assert ValueOf(s[..0], 10) == 0;
    }
  }

  lemma MinusZeroIs(s: string)
    ensures MinusZero(s) <==> s != "" && s[0] == '-' && IsNumeral(s[1..]) && Numeral(s[1..]) == 0
  {
    hide IsNumeral, Numeral;
    if MinusZero(s) {
      ZerosCount(s[1..]);
    } else if s != "" && s[0] == '-' && IsNumeral(s[1..]) && Numeral(s[1..]) == 0 {
      NumeralSays(s[1..]);
      ZerosAre(s[1..]);
      assert forall i :: 1 <= i < |s| ==> s[i] == s[1..][i - 1];
    }
  }

  lemma NumeralSays(s: string)
    requires IsNumeral(s)
    ensures s != "" && s[0] != '-' && '-' !in s
  {
  }

  /** Within bounds from zero up, a whole number is digits, or a zero with a minus in front. */
  lemma WholeIs(s: string, low: int, high: int)
    requires 0 <= low
    ensures (ParseWhole(s).Some? && low <= ParseWhole(s).value <= high)
            <==> (G.Digits(s) || MinusZero(s)) && Ends(s).Some? && low <= Ends(s).value.0 <= Ends(s).value.1 <= high
    ensures G.Digits(s) || MinusZero(s) ==> ParseWhole(s).Some? && Ends(s) == Some((ParseWhole(s).value, ParseWhole(s).value))
  {
    G.DigitsAreNumerals(s);
    MinusZeroIs(s);
    if IsNumeral(s) { NumeralSays(s); }
    hide IsNumeral, Numeral, G.Digits, G.Number, MinusZero;
  }

  lemma DashFirst(s: string, i: nat)
    requires i == IndexOf(s, '-') < |s| && IsNumeral(s[..i]) && IsNumeral(s[i + 1..])
    ensures !IsNumeral(s) && !MinusZero(s)
  {
    assert DigitVal(s[i]) == 16;
    assert s[..i][0] == s[0] && DigitVal(s[..i][0]) < 10;
  }

  lemma RangeIs(s: string, low: int, high: int)
    requires 0 <= low
    ensures (ParseRange(s).Some? && low <= ParseRange(s).value.0 <= ParseRange(s).value.1 <= high)
            <==> Ends(s).Some? && low <= Ends(s).value.0 <= Ends(s).value.1 <= high
    ensures Ends(s).Some? ==> ParseRange(s) == Ends(s)
  {
    var i := IndexOf(s, '-');
    if i < |s| && IsNumeral(s[..i]) && IsNumeral(s[i + 1..]) {
      DashFirst(s, i);
      G.DigitsAreNumerals(s[..i]);
      G.DigitsAreNumerals(s[i + 1..]);
      G.DigitsAreNumerals(s);
      hide IsNumeral, Numeral, G.Digits, G.Number, MinusZero;
    } else {
      if i < |s| {
        G.DigitsAreNumerals(s[..i]);
        G.DigitsAreNumerals(s[i + 1..]);
      }
      WholeIs(s, low, high);
      hide IsNumeral, Numeral, G.Digits, G.Number, MinusZero;
    }
  }

  lemma KeyIs(s: string)
    ensures IsBase64Key(s) || IsHexKey(s) <==> KeyShape(s)
  {
    forall i | 0 <= i < |s| ensures G.HexDigit(s[i]) <==> DigitVal(s[i]) < 16 {
      G.HexDigitsAre(s[i]);
    }
    hide G.HexDigit, DigitVal;
  }

  lemma BoundsFromZero(p: Param)
    ensures 0 <= Bounds(p).0
  {
  }

  /** The test of one value passes exactly what may stand for the parameter. */
  lemma CheckIsGood(p: Param, s: string)
    ensures CheckValue(p, s).None? <==> Good(p, s)
  {
    KindIs(p);
    BoundsFromZero(p);
    hide SpecOf, Bounds, IsSwitch, IsPacket, IsNumber, SwitchState, ParseWhole, ParseRange, IsBase64Key, IsHexKey, KeyShape, Ends, Word;
    hide I.ParseImitation, G.Template, G.Digits, MinusZero;
    match SpecOf(p).kind
    case Whole => WholeIs(s, Bounds(p).0, Bounds(p).1);
    case Range => RangeIs(s, Bounds(p).0, Bounds(p).1);
    case Imitation => G.AcceptedIsTemplate(s);
    case Secret => KeyIs(s);
    case Switch => SwitchIs(s);
  }

  lemma StripTwice(s: string)
    ensures Strip(Strip(s)) == Strip(s)
  {
    StripTrimmed(Strip(s));
  }

  lemma EachIs(values: Values)
    ensures EachOk(values) <==> EachGood(values)
  {
    hide IsSet, CheckValue, Off, Good, Strip;
    forall p | p in values
      ensures CheckOne(p, values[p]).None? <==> if Off(p, Said(values, p)) then p != ListenPort else Good(p, Said(values, p))
    {
      StripTwice(values[p]);
      OffIs(p, Said(values, p));
      CheckIsGood(p, Said(values, p));
      KindIs(p);
    }
  }

  // ------------------------------------------------------------------ what the tests between them read

  lemma SaidIs(values: Values, p: Param)
    ensures Said(values, p) == Get(values, p) && Strip(Said(values, p)) == Said(values, p)
  {
    if p in values { StripTwice(values[p]); }
  }

  lemma SetIs(values: Values, p: Param)
    ensures Off(p, Said(values, p)) <==> !IsSet(p, Get(values, p))
    ensures !Off(p, Said(values, p)) ==> p in values
  {
    hide IsSet, Off, Strip;
    SaidIs(values, p);
    OffIs(p, Said(values, p));
    if p !in values { NothingSaid(p); }
  }

  lemma NothingSaid(p: Param)
    ensures Off(p, "")
  {
  }

  lemma NumberIs(values: Values, p: Param)
    requires EachGood(values) && IsNumber(p)
    ensures SetWhole(values, p).Some? <==> Set(values, p)
    ensures OrZero(SetWhole(values, p)) == Value(values, p)
    ensures Set(values, p) ==> SetWhole(values, p) == Some(Value(values, p))
  {
    hide IsSet, Off, Ends, ParseWhole, Strip, G.Digits, MinusZero, Get, Said;
    SaidIs(values, p);
    SetIs(values, p);
    NumberIsNone(p);
    if !Off(p, Said(values, p)) {
      assert Good(p, Said(values, p));
      WholeIs(Said(values, p), 0, 0);
    }
  }

  lemma NumberIsNone(p: Param)
    requires IsNumber(p)
    ensures !IsSwitch(p) && !IsPacket(p) && p != HeaderProtectionKey
  {
  }

  predicate HasRange(p: Param) {
    || IsHeader(p) || p == ContentPaddingAddition || p == RekeyAfterTime || p == RekeyTimeout || p == RejectAfterTime
    || p == KeepaliveTimeout || p == MaxHandshakeAttempts
  }

  lemma GoodRange(values: Values, p: Param)
    requires EachGood(values) && HasRange(p) && p in values && !Off(p, Said(values, p))
    ensures Ends(Said(values, p)).Some? && 0 <= Ends(Said(values, p)).value.0 <= Ends(Said(values, p)).value.1
  {
    hide Off, Ends, G.Digits, MinusZero, Said, Bounds;
    BoundsFromZero(p);
    assert Good(p, Said(values, p));
  }

  lemma RangeOf(values: Values, p: Param)
    requires EachGood(values) && HasRange(p)
    ensures SetRange(values, p) == Range(values, p)
    ensures Set(values, p) ==> 0 <= Range(values, p).value.0 <= Range(values, p).value.1 && Value(values, p) == Range(values, p).value.0
  {
    hide EachGood, HasRange, IsSet, Off, Ends, ParseRange, Get, Said, Strip;
    SaidIs(values, p);
    SetIs(values, p);
    if !Off(p, Said(values, p)) {
      GoodRange(values, p);
      RangeIs(Said(values, p), 0, 0);
    }
  }

  // ------------------------------------------------------------------ the tests between them

  lemma SizesAre(values: Values)
    requires EachGood(values)
    ensures JunkOk(values) && SizesOk(values) && PaddingOk(values) && NonceOk(values) <==> SizesPromise(values)
  {
    hide EachGood, SetWhole, Value, Set, Strip, Get, Said;
    NumberIs(values, Jmin);
    NumberIs(values, Jmax);
    NumberIs(values, S1);
    NumberIs(values, S2);
    NumberIs(values, S3);
    NumberIs(values, S4);
    NumberIs(values, MTU);
    SaidIs(values, HeaderProtectionKey);
    assert PROTECTED[0] == S1 && PROTECTED[1] == S2 && PROTECTED[2] == S3 && PROTECTED[3] == S4;
  }

  lemma HeaderIs(values: Values, p: Param)
    requires EachGood(values) && IsHeader(p)
    ensures HeaderRange(values, map[], p) == Range(values, p) && (Set(values, p) ==> p in values)
    ensures Set(values, p) ==> Range(values, p).value.0 <= Range(values, p).value.1
  {
    hide EachGood, Ends, Off, Said, SetRange;
    RangeOf(values, p);
    SetIs(values, p);
  }

  /** Two ranges share no number exactly when one ends before the other begins. */
  lemma ApartIs(values: Values, p: Param, q: Param)
    requires EachGood(values) && IsHeader(p) && IsHeader(q)
    ensures Apart(values, p, q) <==> forall n :: May(values, p, n) ==> !May(values, q, n)
  {
    hide EachGood, Range, HeaderRange;
    HeaderIs(values, p);
    HeaderIs(values, q);
    if Set(values, p) && Set(values, q) && !Apart(values, p, q) {
      var a, b := Range(values, p).value, Range(values, q).value;
      var n := if a.0 < b.0 then b.0 else a.0;
      assert May(values, p, n) && May(values, q, n);
    }
  }

  lemma HeadersAre(values: Values)
    requires EachGood(values)
    ensures HeadersOk(values) <==> HeadersPromise(values)
  {
    hide EachGood, Range, HeaderRange, Apart, May;
    assert HEADERS[0] == H1 && HEADERS[1] == H2 && HEADERS[2] == H3 && HEADERS[3] == H4;
    forall p | IsHeader(p) ensures HeaderRange(values, map[], p) == Range(values, p) && (Set(values, p) ==> p in values) {
      HeaderIs(values, p);
    }
    forall p, q | IsHeader(p) && IsHeader(q) ensures Apart(values, p, q) <==> forall n :: May(values, p, n) ==> !May(values, q, n) {
      ApartIs(values, p, q);
    }
    HeadersOkSays(values);
    TogetherIs(values);
    PairsAre(values);
  }

  lemma TogetherIs(values: Values)
    requires forall p :: IsHeader(p) ==> HeaderRange(values, map[], p) == Range(values, p) && (Set(values, p) ==> p in values)
    ensures Together(values)
            <==> forall p, q :: IsHeader(p) && IsHeader(q) && Set(values, p) && q in values ==> Set(values, q)
  {
    hide Range, HeaderRange;
    HeaderMembers();
    if Together(values) {
      forall p, q | IsHeader(p) && IsHeader(q) && Set(values, p) && q in values ensures Set(values, q) {
        assert p in HEADERS && q in HEADERS && HeaderRange(values, map[], p).Some?;
      }
    } else {
      var p :| p in HEADERS && HeaderRange(values, map[], p).Some?;
      var q :| q in HEADERS && q in values && HeaderRange(values, map[], q).None?;
      assert IsHeader(p) && IsHeader(q) && Set(values, p) && !Set(values, q);
    }
  }

  ghost predicate Disjoint(values: Values, p: Param, q: Param) {
    forall n :: May(values, p, n) ==> !May(values, q, n)
  }

  lemma PairsAre(values: Values)
    requires forall p, q :: IsHeader(p) && IsHeader(q) ==> (Apart(values, p, q) <==> Disjoint(values, p, q))
    ensures AllApart(values)
            <==> forall p, q, n :: IsHeader(p) && IsHeader(q) && p != q && May(values, p, n) ==> !May(values, q, n)
  {
    hide Apart, May;
    if AllApart(values) {
      forall p, q, n | IsHeader(p) && IsHeader(q) && p != q && May(values, p, n) ensures !May(values, q, n) {
        assert Disjoint(values, H1, H2) && Disjoint(values, H1, H3) && Disjoint(values, H2, H3);
        assert Disjoint(values, H1, H4) && Disjoint(values, H2, H4) && Disjoint(values, H3, H4);
      }
    } else {
      assert !Disjoint(values, H1, H2) || !Disjoint(values, H1, H3) || !Disjoint(values, H2, H3)
          || !Disjoint(values, H1, H4) || !Disjoint(values, H2, H4) || !Disjoint(values, H3, H4);
    }
  }

  lemma TimersAre(values: Values)
    requires EachGood(values)
    ensures TimersOk(values) <==> TimersPromise(values)
  {
    hide EachGood, Verdict, SetRange, Range;
    RangeOf(values, RekeyAfterTime);
    RangeOf(values, RejectAfterTime);
    RangeOf(values, RekeyTimeout);
    RangeOf(values, KeepaliveTimeout);
    var r, j, t, k := Range(values, RekeyAfterTime), Range(values, RejectAfterTime), Range(values, RekeyTimeout), Range(values, KeepaliveTimeout);
    VerdictIs(r, j, t, k);
    DrawsAre(values, r, j, t, k);
  }

  /** The four tests in one line each. */
  lemma VerdictIs(r: Option<(int, int)>, j: Option<(int, int)>, t: Option<(int, int)>, k: Option<(int, int)>)
    requires (r.Some? ==> WellFormed(r.value)) && (t.Some? ==> WellFormed(t.value)) && (k.Some? ==> WellFormed(k.value))
    ensures Verdict(r, j, t, k).None? <==>
              (j.Some? ==>
                 && (r.Some? ==> r.value.1 < j.value.0)
                 && (t.Some? && k.Some? ==> k.value.0 + t.value.0 < j.value.0)
                 && (r.Some? && t.Some? && k.Some? ==> r.value.1 + k.value.1 + t.value.1 < j.value.0))
  {
  }

  lemma DrawsAre(values: Values, r: Option<(int, int)>, j: Option<(int, int)>, t: Option<(int, int)>, k: Option<(int, int)>)
    requires r == Range(values, RekeyAfterTime) && j == Range(values, RejectAfterTime)
    requires t == Range(values, RekeyTimeout) && k == Range(values, KeepaliveTimeout)
    requires (r.Some? ==> WellFormed(r.value)) && (j.Some? ==> WellFormed(j.value))
    requires (t.Some? ==> WellFormed(t.value)) && (k.Some? ==> WellFormed(k.value))
    ensures TimersPromise(values) <==>
              (j.Some? ==>
                 && (r.Some? ==> r.value.1 < j.value.0)
                 && (t.Some? && k.Some? ==> k.value.0 + t.value.0 < j.value.0)
                 && (r.Some? && t.Some? && k.Some? ==> r.value.1 + k.value.1 + t.value.1 < j.value.0))
  {
    hide Range;
    if TimersPromise(values) && j.Some? {
      assert May(values, RejectAfterTime, j.value.0);
      if r.Some? { assert May(values, RekeyAfterTime, r.value.1); }
      if t.Some? { assert May(values, RekeyTimeout, t.value.1); }
      if k.Some? { assert May(values, KeepaliveTimeout, k.value.1); }
    }
  }

  lemma FeaturesAre(values: Values, features: Features)
    ensures (forall p: Param :: !NeedsMissing(values, features, p)) <==> FeaturesPromise(values, features)
  {
    hide IsSet, Off, Said, Get, Supported, NeedsMissing;
    forall p: Param ensures (Off(p, Said(values, p)) <==> !IsSet(p, Get(values, p))) && Said(values, p) == Get(values, p) {
      SetIs(values, p);
      SaidIs(values, p);
    }
    forall p: Param ensures !Off(p, Said(values, p)) ==> p in values { SetIs(values, p); }
    HeaderMembers();
    forall p: Param ensures NeedsMissing(values, features, p) <==> p in values && !Off(p, Said(values, p)) && !Supported(values, features, p) {
      GateIs(values, features, p);
    }
  }

  lemma SupportedIs(values: Values, features: Features, p: Param)
    ensures Supported(values, features, p)
            <==> (FeatureOf(p).Some? ==> Can(features, FeatureOf(p).value))
                 && (IsHeader(p) && '-' in Said(values, p) ==> Can(features, HeaderRanges))
  {
    hide Can, Said;
    FeatureIs(p);
  }

  lemma GateIs(values: Values, features: Features, p: Param)
    requires (Off(p, Said(values, p)) <==> !IsSet(p, Get(values, p))) && Said(values, p) == Get(values, p)
    requires !Off(p, Said(values, p)) ==> p in values
    ensures NeedsMissing(values, features, p) <==> p in values && !Off(p, Said(values, p)) && !Supported(values, features, p)
  {
    hide IsSet, Off, Said, Get, FeatureOf, Supported;
    HeaderMembers();
    SupportedIs(values, features, p);
  }

  lemma FeatureIs(p: Param)
    ensures FeatureOf(p)
            == if IsPacket(p) then Some(ImitationPackets)
               else if p == HeaderProtectionKey then Some(HeaderKeys)
               else if p == ContentPaddingAddition then Some(ContentPadding)
               else if IsTimer(p) then Some(TimerOverrides)
               else if p == RandomTrailers then Some(RandomTrailing)
               else if p == DisableCookies then Some(CookieSwitch)
               else None
  {
  }

  /** validate_params answers with nothing exactly when what it promises of the parameters is so. */
  lemma AcceptedIsPromised(values: Values, features: Features)
    ensures Validate(values, features) == map[] <==> Promised(values, features)
  {
    hide Validate, EachOk, JunkOk, SizesOk, PaddingOk, NonceOk, HeadersOk, TimersOk, NeedsMissing;
    hide EachGood, SizesPromise, HeadersPromise, TimersPromise, FeaturesPromise;
    AcceptedMeans(values, features);
    EachIs(values);
    if EachGood(values) {
      SizesAre(values);
      HeadersAre(values);
      TimersAre(values);
    }
    FeaturesAre(values, features);
  }
}
