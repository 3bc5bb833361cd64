/** validate_params as it runs: loops that fill one dictionary of messages. */
module ValidationLoop {
  import opened Text
  import opened Params
  import opened Timers
  import opened Validation

  method CheckEach(values: Values) returns (errors: Errors)
    ensures errors == FirstPass(values)
  {
    hide CheckOne;
    errors := map[];
    var left := values.Keys;
    while left != {}
      invariant left <= values.Keys
      invariant forall p :: p in errors <==> p in values && p !in left && CheckOne(p, values[p]).Some?
      invariant forall p :: p in errors ==> errors[p] == CheckOne(p, values[p]).value
      decreases |left|
    {
      var p :| p in left;
      var message := CheckOne(p, values[p]);
      if message.Some? {
        errors := Add(errors, p, message.value);
      }
      left := left - {p};
    }
  }

  function MissingAll(values: Values, errors: Errors, keys: seq<Param>): Errors {
    if keys == [] then errors
    else AddMissing(values, MissingAll(values, errors, keys[..|keys| - 1]), errors, keys[|keys| - 1])
  }

  function OverlapAll(values: Values, errors: Errors, original: Errors, upto: nat): Errors
    requires upto <= 4
  {
    if upto == 0 then errors
    else AddOverlap(values, OverlapAll(values, errors, original, upto - 1), original, HEADERS[upto - 1], HEADERS[..upto - 1])
  }

  lemma MissingUnrolled(values: Values, e: Errors)
    ensures MissingAll(values, e, HEADERS)
            == AddMissing(values, AddMissing(values, AddMissing(values, AddMissing(values, e, e, H1), e, H2), e, H3), e, H4)
  {
    hide AddMissing;
    assert HEADERS[..3] == [H1, H2, H3] && [H1, H2, H3][..2] == [H1, H2] && [H1, H2][..1] == [H1] && [H1][..0] == [];
    assert MissingAll(values, e, [H1]) == AddMissing(values, e, e, H1);
    assert MissingAll(values, e, [H1, H2]) == AddMissing(values, MissingAll(values, e, [H1]), e, H2);
    assert MissingAll(values, e, [H1, H2, H3]) == AddMissing(values, MissingAll(values, e, [H1, H2]), e, H3);
  }

  lemma OverlapUnrolled(values: Values, m: Errors, e: Errors)
    ensures OverlapAll(values, m, e, 4)
            == AddOverlap(values, AddOverlap(values, AddOverlap(values, m, e, H2, [H1]), e, H3, [H1, H2]), e, H4, [H1, H2, H3])
  {
    hide AddOverlap;
    assert HEADERS[..0] == [] && HEADERS[..1] == [H1] && HEADERS[..2] == [H1, H2] && HEADERS[..3] == [H1, H2, H3];
    FirstHasNone(values, m, e);
    assert OverlapAll(values, m, e, 1) == AddOverlap(values, OverlapAll(values, m, e, 0), e, H1, []);
    assert OverlapAll(values, m, e, 2) == AddOverlap(values, OverlapAll(values, m, e, 1), e, H2, [H1]);
    assert OverlapAll(values, m, e, 3) == AddOverlap(values, OverlapAll(values, m, e, 2), e, H3, [H1, H2]);
  }

  lemma FirstHasNone(values: Values, m: Errors, e: Errors)
    ensures AddOverlap(values, m, e, H1, []) == m
  {
  }

  /** The ranges of the headers that are set and have no error of their own. */
  method CollectRanges(values: Values, errors: Errors) returns (ranges: map<Param, Ends>)
    ensures forall p :: p in ranges <==> p in HEADERS && HeaderRange(values, errors, p).Some?
    ensures forall p :: p in ranges ==> ranges[p] == HeaderRange(values, errors, p).value
  {
    hide SetRange;
    ranges := map[];
    for i := 0 to |HEADERS|
      invariant forall p :: p in ranges <==> p in HEADERS[..i] && HeaderRange(values, errors, p).Some?
      invariant forall p :: p in ranges ==> ranges[p] == HeaderRange(values, errors, p).value
    {
      var key := HEADERS[i];
      assert HEADERS[..i + 1] == HEADERS[..i] + [key];
      if key !in values || key in errors {
        continue;
      }
      var parsed := SetRange(values, key);
      if parsed.Some? {
        ranges := ranges[key := parsed.value];
      }
    }
    assert HEADERS[..|HEADERS|] == HEADERS;
  }

  /** The inner loop: the first earlier range that overlaps. */
  method FindOverlap(values: Values, errors: Errors, ranges: map<Param, Ends>, at: nat) returns (found: Option<Param>)
    requires at < 4 && HEADERS[at] in ranges
    requires forall p :: p in ranges <==> p in HEADERS && HeaderRange(values, errors, p).Some?
    requires forall p :: p in ranges ==> ranges[p] == HeaderRange(values, errors, p).value
    ensures found == FirstOverlap(values, errors, HEADERS[at], HEADERS[..at])
  {
    hide HeaderRange;
    var mine := ranges[HEADERS[at]];
    var earlier := HEADERS[..at];
    assert earlier[0..] == earlier;
    for j := 0 to at
      invariant FirstOverlap(values, errors, HEADERS[at], earlier) == FirstOverlap(values, errors, HEADERS[at], earlier[j..])
    {
      assert earlier[j..][0] == earlier[j] == HEADERS[j] && earlier[j..][1..] == earlier[j + 1..];
      assert HEADERS[j] in HEADERS;
      if HEADERS[j] in ranges && Overlap(mine, ranges[HEADERS[j]]) {
        return Some(HEADERS[j]);
      }
    }
    assert earlier[at..] == [];
    found := None;
  }

  method CheckHeadersLoop(values: Values, errors: Errors) returns (out: Errors)
    ensures out == CheckHeaders(values, errors)
  {
    hide HeaderRange, FirstOverlap, AddMissing;
    var ranges := CollectRanges(values, errors);
    out := errors;
    AnyIsAny(values, errors, ranges);
    if ranges != map[] {
      for i := 0 to |HEADERS|
        invariant out == MissingAll(values, errors, HEADERS[..i])
      {
        assert HEADERS[..i + 1][..i] == HEADERS[..i];
        MissingIs(values, out, errors, HEADERS[i]);
        if HEADERS[i] in values && HEADERS[i] !in ranges && HEADERS[i] !in out {
          out := Add(out, HEADERS[i], HeaderMissing);
        }
      }
      assert HEADERS[..|HEADERS|] == HEADERS;
      MissingUnrolled(values, errors);
    }
    ghost var m := out;
    OverlapUnrolled(values, m, errors);
    for i := 0 to 4
      invariant out == OverlapAll(values, m, errors, i)
    {
      if HEADERS[i] in ranges {
        var other := FindOverlap(values, errors, ranges, i);
        if other.Some? {
          out := Add(out, HEADERS[i], Overlaps(other.value));
        }
      } else {
        NoRangeNoOverlap(values, errors, HEADERS[i], HEADERS[..i]);
      }
    }
  }

  lemma AnyIsAny(values: Values, errors: Errors, ranges: map<Param, Ends>)
    requires forall p :: p in ranges <==> p in HEADERS && HeaderRange(values, errors, p).Some?
    ensures ranges != map[] <==> AnyHeader(values, errors)
  {
    hide HeaderRange;
    if ranges != map[] {
      var p :| p in ranges;
    }
  }

  lemma MissingIs(values: Values, now: Errors, errors: Errors, p: Param)
    ensures AddMissing(values, now, errors, p)
            == if p in values && HeaderRange(values, errors, p).None? && p !in now then Add(now, p, HeaderMissing) else now
  {
  }

  lemma {:induction false} NoRangeNoOverlap(values: Values, errors: Errors, p: Param, earlier: seq<Param>)
    requires HeaderRange(values, errors, p).None?
    ensures FirstOverlap(values, errors, p, earlier).None?
  {
    hide HeaderRange;
    if earlier != [] {
      NoRangeNoOverlap(values, errors, p, earlier[1..]);
    }
  }

  method ValidateParams(values: Values, features: Features) returns (errors: Errors)
    ensures errors == Validate(values, features)
  {
    hide FirstPass, CheckJunk, CheckSizes, CheckDataPadding, CheckHeaderProtection, CheckHeaders, CheckTimers, CheckFeatures;
    errors := CheckEach(values);
    errors := CheckJunk(values, errors);
    errors := CheckSizes(values, errors);
    errors := CheckDataPadding(values, errors);
    errors := CheckHeaderProtection(values, errors);
    errors := CheckHeadersLoop(values, errors);
    errors := CheckTimers(values, errors);
    errors := CheckFeatures(values, errors, features);
  }
}
