/** The catalogue of tunnel parameters, and how one value on its own is read and checked. */
module Params {
  import opened Text

  datatype Param =
    | Jc | Jmin | Jmax | S1 | S2 | S3 | S4 | H1 | H2 | H3 | H4 | I1 | I2 | I3 | I4 | I5
    | HeaderProtectionKey | ContentPaddingAddition | RekeyAfterTime | RekeyTimeout | RejectAfterTime
    | KeepaliveTimeout | MaxHandshakeAttempts | RandomTrailers | DisableCookies
    | ListenPort | MTU | EndpointPort | PersistentKeepalive

  datatype Kind = Whole | Range | Imitation | Secret | Switch

  /** How a parameter is checked; offIsZero marks the groups where "0" means that no line is written. */
  datatype Spec = Spec(kind: Kind, offIsZero: bool, min: nat, max: nat, optional: bool)

  const H_MIN := 1
  const H_MAX := 2_147_483_647
  const JUNK_MAX := 1280
  const HEADER_NONCE := 12
  const MTU_BUDGET := 1420
  const DEFAULT_MTU := 1372

  function SpecOf(p: Param): Spec {
    match p
    case Jc => Spec(Whole, true, 1, 128, true)
    case Jmin => Spec(Whole, true, 0, JUNK_MAX, true)
    case Jmax => Spec(Whole, true, 1, JUNK_MAX, true)
    case S1 | S2 | S3 | S4 => Spec(Whole, true, 0, JUNK_MAX, true)
    case H1 | H2 | H3 | H4 => Spec(Range, true, H_MIN, H_MAX, true)
    case I1 | I2 | I3 | I4 | I5 => Spec(Imitation, true, 0, 0, true)
    case HeaderProtectionKey => Spec(Secret, true, 0, 0, true)
    case ContentPaddingAddition => Spec(Range, true, 0, JUNK_MAX, true)
    case RekeyAfterTime => Spec(Range, true, 5, 3600, true)
    case RekeyTimeout => Spec(Range, true, 1, 60, true)
    case RejectAfterTime => Spec(Range, true, 10, 7200, true)
    case KeepaliveTimeout => Spec(Range, true, 1, 3600, true)
    case MaxHandshakeAttempts => Spec(Range, true, 1, 1000, true)
    case RandomTrailers => Spec(Switch, true, 0, 0, true)
    case DisableCookies => Spec(Switch, false, 0, 0, true)
    case ListenPort => Spec(Whole, false, 1, 65535, false)
    case MTU => Spec(Whole, false, 1280, MTU_BUDGET - HEADER_NONCE, true)
    case EndpointPort => Spec(Whole, false, 1, 65535, true)
    case PersistentKeepalive => Spec(Whole, false, 0, 65535, true)
  }

  type Values = map<Param, string>

  /** The value as it is read: stripped, and empty when there is none. */
  function Get(values: Values, p: Param): string {
    if p in values then Strip(values[p]) else ""
  }

  // --- numbers and ranges

  predicate IsNumeral(s: string) {
    s != "" && AllDigits(s, 10)
  }

  function Numeral(s: string): nat
    requires IsNumeral(s)
  {
    ValueOf(s, 10)
  }

  /** -?\d+ and its value. */
  function ParseWhole(s: string): Option<int> {
    if IsNumeral(s) then Some(Numeral(s))
    else if s != "" && s[0] == '-' && IsNumeral(s[1..]) then Some(0 - Numeral(s[1..]))
    else None
  }

  /** Both ends of a range; a bare number is a range of one. */
  function ParseRange(s: string): Option<(int, int)> {
    var i := IndexOf(s, '-');
    if i < |s| && IsNumeral(s[..i]) && IsNumeral(s[i + 1..]) then Some((Numeral(s[..i]), Numeral(s[i + 1..])))
    else
      match ParseWhole(s)
      case Some(n) => Some((n, n))
      case None => None
  }

  function ShowRange(low: nat, high: nat): string {
    Show(low, 10) + "-" + Show(high, 10)
  }

  /** on, off, or a number; None is what the tools refuse to read. */
  function SwitchState(s: string): Option<bool> {
    if Fold(s) == "off" then Some(false)
    else if Fold(s) == "on" then Some(true)
    else if IsNumeral(s) then Some(Numeral(s) != 0)
    else None
  }

  /** Whether a line would be written for the value. */
  predicate IsSet(p: Param, value: string) {
    var text := Strip(value);
    var spec := SpecOf(p);
    text != "" && if spec.kind.Switch? then SwitchState(text) != Some(false) else !(spec.offIsZero && text == "0")
  }

  function SetWhole(values: Values, p: Param): Option<int> {
    if IsSet(p, Get(values, p)) then ParseWhole(Get(values, p)) else None
  }

  function SetRange(values: Values, p: Param): Option<(int, int)> {
    if IsSet(p, Get(values, p)) then ParseRange(Get(values, p)) else None
  }

  // --- keys

  predicate IsBase64Char(c: char) {
    'A' <= c <= 'Z' || 'a' <= c <= 'z' || '0' <= c <= '9' || c == '+' || c == '/'
  }

  predicate IsBase64Key(s: string) {
    |s| == 44 && s[43] == '=' && forall i :: 0 <= i < 43 ==> IsBase64Char(s[i])
  }

  predicate IsHexKey(s: string) {
    |s| == 64 && AllDigits(s, 16)
  }

  // --- what a written value reads as

  lemma ShowIsNumeral(n: nat)
    ensures IsNumeral(Show(n, 10)) && Numeral(Show(n, 10)) == n && '-' !in Show(n, 10)
  {
  }

  lemma NumeralIsTrimmed(s: string)
    requires IsNumeral(s)
    ensures Trimmed(s) && Strip(s) == s
  {
    assert DigitVal(s[0]) < 10 && DigitVal(s[|s| - 1]) < 10;
    StripTrimmed(s);
  }

  lemma ShowReads(n: nat)
    ensures ParseWhole(Show(n, 10)) == Some(n) && Strip(Show(n, 10)) == Show(n, 10)
    ensures Show(n, 10) == "0" <==> n == 0
  {
    ShowIsNumeral(n);
    NumeralIsTrimmed(Show(n, 10));
    if Show(n, 10) == "0" {
      assert ValueOf("0", 10) == 0 by {
        assert "0"[..0] == "";
      }
    }
  }

  lemma ShowRangeReads(low: nat, high: nat)
    ensures ParseRange(ShowRange(low, high)) == Some((low, high)) && Strip(ShowRange(low, high)) == ShowRange(low, high)
    ensures ShowRange(low, high) != "0" && ShowRange(low, high) != ""
  {
    hide Show, ValueOf;
    ShowIsNumeral(low);
    ShowIsNumeral(high);
    var a, b := Show(low, 10), Show(high, 10);
    PartitionAt(ShowRange(low, high), a, '-', b);
    NumeralIsTrimmed(a);
    NumeralIsTrimmed(b);
    var s := ShowRange(low, high);
    assert s[0] == a[0] && s[|s| - 1] == b[|b| - 1];
    StripTrimmed(s);
  }

  lemma ShowSets(values: Values, p: Param, n: nat)
    requires p in values && values[p] == Show(n, 10) && n > 0 && SpecOf(p).kind.Whole?
    ensures IsSet(p, values[p]) && Get(values, p) == Show(n, 10) && SetWhole(values, p) == Some(n)
  {
    hide SpecOf, Show, ParseWhole;
    ShowReads(n);
    ShowIsNumeral(n);
  }

  lemma ShowRangeSets(values: Values, p: Param, low: nat, high: nat)
    requires p in values && values[p] == ShowRange(low, high) && SpecOf(p).kind.Range?
    ensures IsSet(p, values[p]) && Get(values, p) == ShowRange(low, high) && SetRange(values, p) == Some((low, high))
  {
    hide SpecOf, ShowRange, ParseRange;
    ShowRangeReads(low, high);
  }
}
