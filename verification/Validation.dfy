/** Checking a set of parameters against itself: one message per parameter, the first that applies. */
module Validation {
  import opened Text
  import opened Params
  import I = Imitation
  import opened Timers

  datatype Fault =
    | Empty | NotWhole | Below(min: nat) | Above(max: nat) | NotRange | Backwards | OutOfRange
    | BadPacket(reason: I.Fault) | NotKey | NotSwitch | JmaxNotAbove | SameLengths | Overrun(s4: int, free: int)
    | NonceTooShort | HeaderMissing | Overlaps(earlier: Param) | TimersClash(why: TimerFault) | Unsupported

  type Errors = map<Param, Fault>

  /** errors.setdefault: the first message stays. */
  function Add(errors: Errors, p: Param, fault: Fault): Errors {
    if p in errors then errors else errors[p := fault]
  }

  // --- one value

  function CheckWhole(p: Param, value: string): Option<Fault> {
    match ParseWhole(value)
    case None => Some(NotWhole)
    case Some(n) =>
      if n < SpecOf(p).min then Some(Below(SpecOf(p).min))
      else if n > SpecOf(p).max then Some(Above(SpecOf(p).max)) else None
  }

  function CheckRange(p: Param, value: string): Option<Fault> {
    match ParseRange(value)
    case None => Some(NotRange)
    case Some(r) =>
      if r.0 > r.1 then Some(Backwards)
      else if r.0 < SpecOf(p).min || r.1 > SpecOf(p).max then Some(OutOfRange) else None
  }

  function CheckPacket(value: string): Option<Fault> {
    match I.ParseImitation(value)
    case Failed(why) => Some(BadPacket(why))
    case Tags(_) => None
  }

  function CheckValue(p: Param, value: string): Option<Fault> {
    match SpecOf(p).kind
    case Whole => CheckWhole(p, value)
    case Range => CheckRange(p, value)
    case Imitation => CheckPacket(value)
    case Secret => if IsBase64Key(value) || IsHexKey(value) then None else Some(NotKey)
    case Switch => if SwitchState(value).None? then Some(NotSwitch) else None
  }

  /** The first loop of validate_params, for one parameter. */
  function CheckOne(p: Param, raw: string): Option<Fault> {
    var value := Strip(raw);
    if !IsSet(p, value) then (if SpecOf(p).optional then None else Some(Empty)) else CheckValue(p, value)
  }

  function FirstPass(values: Values): Errors {
    map p | p in values && CheckOne(p, values[p]).Some? :: CheckOne(p, values[p]).value
  }

  // --- values against each other

  function CheckJunk(values: Values, errors: Errors): Errors {
    var low, high := SetWhole(values, Jmin), SetWhole(values, Jmax);
    if low.None? || high.None? || Jmin in errors || Jmax in errors then errors
    else if low.value >= high.value then Add(errors, Jmax, JmaxNotAbove) else errors
  }

  function CheckSizes(values: Values, errors: Errors): Errors {
    var s1, s2 := SetWhole(values, S1), SetWhole(values, S2);
    if s1.None? || s2.None? || S1 in errors || S2 in errors then errors
    else if s1.value + 56 == s2.value then Add(errors, S2, SameLengths) else errors
  }

  function OrZero(n: Option<int>): int {
    if n.Some? then n.value else 0
  }

  /** validate.data_padding_overrun: S4 and the room for it, when it does not fit. */
  function PaddingOverrun(values: Values): Option<Fault> {
    match SetWhole(values, MTU)
    case None => None
    case Some(mtu) =>
      var s4, free := OrZero(SetWhole(values, S4)), MTU_BUDGET - mtu;
      if s4 > free then Some(Overrun(s4, free)) else None
  }

  function AddIfGiven(values: Values, errors: Errors, p: Param, fault: Fault): Errors {
    if p in values then Add(errors, p, fault) else errors
  }

  function CheckDataPadding(values: Values, errors: Errors): Errors {
    if MTU in errors || S4 in errors then errors
    else
      match PaddingOverrun(values)
      case None => errors
      case Some(fault) => AddIfGiven(values, AddIfGiven(values, errors, MTU, fault), S4, fault)
  }

  const PROTECTED := [S1, S2, S3, S4]

  function Short(values: Values, p: Param): bool {
    OrZero(SetWhole(values, p)) < HEADER_NONCE
  }

  /** validate.header_protection_short. */
  function HeaderShort(values: Values): set<Param> {
    if Get(values, HeaderProtectionKey) == "" then {} else set p | p in PROTECTED && Short(values, p)
  }

  function CheckHeaderProtection(values: Values, errors: Errors): Errors {
    var short := HeaderShort(values);
    if HeaderProtectionKey in errors || short == {} then errors
    else
      var first := Add(errors, HeaderProtectionKey, NonceTooShort);
      map p | p in first.Keys + (values.Keys * short) :: if p in first then first[p] else NonceTooShort
  }

  const HEADERS := [H1, H2, H3, H4]

  /** The range of a header that is set, reads as one and has no error of its own. */
  function HeaderRange(values: Values, errors: Errors, p: Param): Option<Ends> {
    if p !in values || p in errors then None else SetRange(values, p)
  }

  predicate AnyHeader(values: Values, errors: Errors) {
    exists p :: p in HEADERS && HeaderRange(values, errors, p).Some?
  }

  function AddMissing(values: Values, errors: Errors, original: Errors, p: Param): Errors {
    if p in values && HeaderRange(values, original, p).None? && p !in errors then Add(errors, p, HeaderMissing) else errors
  }

  predicate Overlap(a: Ends, b: Ends) {
    a.0 <= b.1 && b.0 <= a.1
  }

  /** The first of the earlier headers this one's range overlaps. */
  function FirstOverlap(values: Values, errors: Errors, p: Param, earlier: seq<Param>): Option<Param> {
    if earlier == [] then None
    else
      var mine, other := HeaderRange(values, errors, p), HeaderRange(values, errors, earlier[0]);
      if mine.Some? && other.Some? && Overlap(mine.value, other.value) then Some(earlier[0])
      else FirstOverlap(values, errors, p, earlier[1..])
  }

  function AddOverlap(values: Values, errors: Errors, original: Errors, p: Param, earlier: seq<Param>): Errors {
    match FirstOverlap(values, original, p, earlier)
    case Some(q) => Add(errors, p, Overlaps(q))
    case None => errors
  }

  function CheckHeaders(values: Values, errors: Errors): Errors {
    var e0 := errors;
    var m := if AnyHeader(values, e0)
             then AddMissing(values, AddMissing(values, AddMissing(values, AddMissing(values, e0, e0, H1), e0, H2), e0, H3), e0, H4)
             else e0;
    AddOverlap(values, AddOverlap(values, AddOverlap(values, m, e0, H2, [H1]), e0, H3, [H1, H2]), e0, H4, [H1, H2, H3])
  }

  function EndsOf(values: Values, errors: Errors, p: Param): Option<Ends> {
    if p in errors then None else SetRange(values, p)
  }

  function CheckTimers(values: Values, errors: Errors): Errors {
    match Verdict(EndsOf(values, errors, RekeyAfterTime), EndsOf(values, errors, RejectAfterTime),
                  EndsOf(values, errors, RekeyTimeout), EndsOf(values, errors, KeepaliveTimeout))
    case Some(why) => Add(errors, RejectAfterTime, TimersClash(why))
    case None => errors
  }

  datatype Feature =
    | ImitationPackets | HeaderKeys | ContentPadding | TimerOverrides | RandomTrailing | CookieSwitch | HeaderRanges

  type Features = map<Feature, bool>

  function FeatureOf(p: Param): Option<Feature> {
    match p
    case I1 | I2 | I3 | I4 | I5 => Some(ImitationPackets)
    case HeaderProtectionKey => Some(HeaderKeys)
    case ContentPaddingAddition => Some(ContentPadding)
    case RekeyAfterTime | RekeyTimeout | RejectAfterTime | KeepaliveTimeout | MaxHandshakeAttempts => Some(TimerOverrides)
    case RandomTrailers => Some(RandomTrailing)
    case DisableCookies => Some(CookieSwitch)
    case _ => None
  }

  predicate Lacks(features: Features, f: Feature) {
    f in features && !features[f]
  }

  /** A value the installed module cannot do. */
  predicate NeedsMissing(values: Values, features: Features, p: Param) {
    && IsSet(p, Get(values, p))
    && (|| (FeatureOf(p).Some? && Lacks(features, FeatureOf(p).value))
        || (p in HEADERS && p in values && '-' in Get(values, p) && Lacks(features, HeaderRanges)))
  }

  function CheckFeatures(values: Values, errors: Errors, features: Features): Errors {
    map p | p in errors.Keys + (set q: Param | NeedsMissing(values, features, q)) :: if p in errors then errors[p] else Unsupported
  }

  /** validate.validate_params: an empty answer means everything is acceptable. */
  function Validate(values: Values, features: Features): Errors {
    var e1 := FirstPass(values);
    var e2 := CheckJunk(values, e1);
    var e3 := CheckSizes(values, e2);
    var e4 := CheckDataPadding(values, e3);
    var e5 := CheckHeaderProtection(values, e4);
    var e6 := CheckHeaders(values, e5);
    var e7 := CheckTimers(values, e6);
    CheckFeatures(values, e7, features)
  }

  // --- what acceptance means

  predicate JunkOk(values: Values) {
    var low, high := SetWhole(values, Jmin), SetWhole(values, Jmax);
    low.Some? && high.Some? ==> low.value < high.value
  }

  predicate SizesOk(values: Values) {
    var s1, s2 := SetWhole(values, S1), SetWhole(values, S2);
    s1.Some? && s2.Some? ==> s1.value + 56 != s2.value
  }

  /** Every data packet still fits the path. */
  predicate PaddingOk(values: Values) {
    SetWhole(values, MTU).Some? ==> OrZero(SetWhole(values, S4)) + SetWhole(values, MTU).value <= MTU_BUDGET
  }

  /** A header protection key finds its nonce in every packet. */
  predicate NonceOk(values: Values) {
    Get(values, HeaderProtectionKey) != "" ==> forall p :: p in PROTECTED ==> OrZero(SetWhole(values, p)) >= HEADER_NONCE
  }

  /** The headers given are set together, and no two packet types share a value. */
  predicate HeadersOk(values: Values) {
    && (forall p, q :: p in HEADERS && q in HEADERS && HeaderRange(values, map[], p).Some? && q in values
          ==> HeaderRange(values, map[], q).Some?)
    && (forall i, j :: 0 <= i < j < 4 ==> Apart(values, HEADERS[i], HEADERS[j]))
  }

  predicate Apart(values: Values, p: Param, q: Param) {
    var a, b := HeaderRange(values, map[], p), HeaderRange(values, map[], q);
    a.Some? && b.Some? ==> a.value.1 < b.value.0 || b.value.1 < a.value.0
  }

  predicate TimersOk(values: Values) {
    Verdict(SetRange(values, RekeyAfterTime), SetRange(values, RejectAfterTime),
            SetRange(values, RekeyTimeout), SetRange(values, KeepaliveTimeout)).None?
  }

  predicate EachOk(values: Values) {
    forall p :: p in values ==> CheckOne(p, values[p]).None?
  }

  predicate Acceptable(values: Values, features: Features) {
    && EachOk(values) && JunkOk(values) && SizesOk(values) && PaddingOk(values) && NonceOk(values)
    && HeadersOk(values) && TimersOk(values) && (forall p: Param :: !NeedsMissing(values, features, p))
  }
}
