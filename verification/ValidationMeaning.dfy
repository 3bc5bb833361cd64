/** An empty answer from validate_params means exactly what the settings page promises. */
module ValidationMeaning {
  import opened Text
  import opened Params
  import opened Timers
  import opened Validation

  lemma FirstPassSays(values: Values)
    ensures FirstPass(values) == map[] <==> EachOk(values)
  {
    hide CheckOne;
    var first := FirstPass(values);
    if EachOk(values) {
      assert first.Keys == {};
    } else {
      var p :| p in values && CheckOne(p, values[p]).Some?;
      assert p in first;
    }
  }

  lemma AddGrows(errors: Errors, p: Param, fault: Fault)
    ensures errors.Keys <= Add(errors, p, fault).Keys && p in Add(errors, p, fault)
  {
  }

  lemma JunkSays(values: Values, errors: Errors)
    ensures errors.Keys <= CheckJunk(values, errors).Keys
    ensures CheckJunk(values, map[]) == map[] <==> JunkOk(values)
  {
    hide SetWhole;
    AddGrows(map[], Jmax, JmaxNotAbove);
  }

  lemma SizesSay(values: Values, errors: Errors)
    ensures errors.Keys <= CheckSizes(values, errors).Keys
    ensures CheckSizes(values, map[]) == map[] <==> SizesOk(values)
  {
    hide SetWhole;
    AddGrows(map[], S2, SameLengths);
  }

  lemma PaddingSays(values: Values, errors: Errors)
    ensures errors.Keys <= CheckDataPadding(values, errors).Keys
    ensures CheckDataPadding(values, map[]) == map[] <==> PaddingOk(values)
  {
    hide SetWhole, Add;
    MtuIsGiven(values);
    match PaddingOverrun(values) {
      case Some(fault) =>
        AddGrows(errors, MTU, fault);
        AddGrows(AddIfGiven(values, errors, MTU, fault), S4, fault);
        AddGrows(map[], MTU, fault);
        AddGrows(AddIfGiven(values, map[], MTU, fault), S4, fault);
      case None =>
    }
  }

  lemma MtuIsGiven(values: Values)
    ensures SetWhole(values, MTU).Some? ==> MTU in values
  {
    if MTU !in values {
      assert Get(values, MTU) == "";
      NothingIsSet(MTU);
    }
  }

  lemma NothingIsSet(p: Param)
    ensures !IsSet(p, "")
  {
  }

  lemma NonceSays(values: Values, errors: Errors)
    ensures errors.Keys <= CheckHeaderProtection(values, errors).Keys
    ensures CheckHeaderProtection(values, map[]) == map[] <==> NonceOk(values)
  {
    hide SetWhole, Get;
    var short := HeaderShort(values);
    AddGrows(errors, HeaderProtectionKey, NonceTooShort);
    if short != {} {
      assert HeaderProtectionKey in CheckHeaderProtection(values, map[]);
      var p :| p in short;
      assert !NonceOk(values);
    } else if Get(values, HeaderProtectionKey) != "" {
      forall p | p in PROTECTED ensures OrZero(SetWhole(values, p)) >= HEADER_NONCE {
        assert p !in short;
        assert !Short(values, p);
      }
    }
  }

  lemma TimersSay(values: Values, errors: Errors)
    ensures errors.Keys <= CheckTimers(values, errors).Keys
    ensures CheckTimers(values, map[]) == map[] <==> TimersOk(values)
  {
    hide SetRange, Verdict;
  }

  lemma FeaturesSay(values: Values, errors: Errors, features: Features)
    ensures errors.Keys <= CheckFeatures(values, errors, features).Keys
    ensures CheckFeatures(values, map[], features) == map[] <==> forall p: Param :: !NeedsMissing(values, features, p)
  {
    hide NeedsMissing;
    var found := CheckFeatures(values, map[], features);
    if p: Param :| NeedsMissing(values, features, p) {
      assert p in found;
    } else {
      assert found.Keys == {};
    }
  }

  // --- headers

  lemma MissingGrows(values: Values, errors: Errors, original: Errors, p: Param)
    ensures errors.Keys <= AddMissing(values, errors, original, p).Keys
    ensures AddMissing(values, errors, original, p) == errors
            || (p !in errors && p in AddMissing(values, errors, original, p))
    ensures p !in errors ==> (AddMissing(values, errors, original, p) == errors
                              <==> !(p in values && HeaderRange(values, original, p).None?))
  {
    hide HeaderRange;
  }

  lemma OverlapGrows(values: Values, errors: Errors, original: Errors, p: Param, earlier: seq<Param>)
    ensures errors.Keys <= AddOverlap(values, errors, original, p, earlier).Keys
    ensures p !in errors ==> (AddOverlap(values, errors, original, p, earlier) == errors
                              <==> FirstOverlap(values, original, p, earlier).None?)
  {
    hide FirstOverlap;
  }

  lemma OverlapsOne(values: Values, p: Param, q: Param, rest: seq<Param>)
    ensures FirstOverlap(values, map[], p, [q] + rest).None?
            <==> Apart(values, q, p) && FirstOverlap(values, map[], p, rest).None?
  {
    hide HeaderRange;
    assert ([q] + rest)[1..] == rest;
  }

  lemma NoneEarlier(values: Values, p: Param)
    ensures FirstOverlap(values, map[], p, []).None?
  {
  }

  lemma ApartSays(values: Values)
    ensures FirstOverlap(values, map[], H2, [H1]).None? <==> Apart(values, H1, H2)
    ensures FirstOverlap(values, map[], H3, [H1, H2]).None? <==> Apart(values, H1, H3) && Apart(values, H2, H3)
    ensures FirstOverlap(values, map[], H4, [H1, H2, H3]).None?
            <==> Apart(values, H1, H4) && Apart(values, H2, H4) && Apart(values, H3, H4)
  {
    hide FirstOverlap, Apart;
    assert [H1] == [H1] + [];
    assert [H1, H2] == [H1] + [H2] && [H2] == [H2] + [];
    assert [H1, H2, H3] == [H1] + [H2, H3] && [H2, H3] == [H2] + [H3] && [H3] == [H3] + [];
    NoneEarlier(values, H2);
    NoneEarlier(values, H3);
    NoneEarlier(values, H4);
    OverlapsOne(values, H2, H1, []);
    OverlapsOne(values, H3, H1, [H2]);
    OverlapsOne(values, H3, H2, []);
    OverlapsOne(values, H4, H1, [H2, H3]);
    OverlapsOne(values, H4, H2, [H3]);
    OverlapsOne(values, H4, H3, []);
  }

  predicate AllApart(values: Values) {
    && Apart(values, H1, H2) && Apart(values, H1, H3) && Apart(values, H2, H3)
    && Apart(values, H1, H4) && Apart(values, H2, H4) && Apart(values, H3, H4)
  }

  predicate Together(values: Values) {
    AnyHeader(values, map[]) ==> forall q :: q in HEADERS && q in values ==> HeaderRange(values, map[], q).Some?
  }

  lemma HeadersOkSays(values: Values)
    ensures HeadersOk(values) <==> Together(values) && AllApart(values)
  {
    hide HeaderRange, Apart;
    assert HEADERS[0] == H1 && HEADERS[1] == H2 && HEADERS[2] == H3 && HEADERS[3] == H4;
  }

  function WithMissing(values: Values, e: Errors): Errors {
    if AnyHeader(values, e)
    then AddMissing(values, AddMissing(values, AddMissing(values, AddMissing(values, e, e, H1), e, H2), e, H3), e, H4)
    else e
  }

  lemma MissingSays(values: Values, errors: Errors)
    ensures errors.Keys <= WithMissing(values, errors).Keys
    ensures WithMissing(values, map[]) == map[] <==> Together(values)
  {
    hide HeaderRange, AddMissing, AnyHeader;
    MissingChain(values, errors);
    MissingChain(values, map[]);
    AllGiven(values);
  }

  lemma HeaderMembers()
    ensures forall q: Param :: q in HEADERS <==> q == H1 || q == H2 || q == H3 || q == H4
  {
  }

  predicate Given(values: Values, e: Errors, p: Param) {
    p in values ==> HeaderRange(values, e, p).Some?
  }

  predicate AllOfThem(values: Values, e: Errors) {
    Given(values, e, H1) && Given(values, e, H2) && Given(values, e, H3) && Given(values, e, H4)
  }

  lemma AllGiven(values: Values)
    ensures (forall q :: q in HEADERS && q in values ==> HeaderRange(values, map[], q).Some?)
            <==> AllOfThem(values, map[])
  {
    hide HeaderRange;
    HeaderMembers();
  }

  lemma MissingChain(values: Values, e: Errors)
    ensures var a := AddMissing(values, e, e, H1); var b := AddMissing(values, a, e, H2);
            var c := AddMissing(values, b, e, H3); var d := AddMissing(values, c, e, H4);
            && e.Keys <= a.Keys <= b.Keys <= c.Keys <= d.Keys
            && (e == map[] ==> (d == map[] <==> AllOfThem(values, e)))
  {
    hide HeaderRange, AddMissing;
    var a := AddMissing(values, e, e, H1);
    var b := AddMissing(values, a, e, H2);
    var c := AddMissing(values, b, e, H3);
    MissingGrows(values, e, e, H1);
    MissingGrows(values, a, e, H2);
    MissingGrows(values, b, e, H3);
    MissingGrows(values, c, e, H4);
  }

  lemma HeadersSay(values: Values, errors: Errors)
    ensures errors.Keys <= CheckHeaders(values, errors).Keys
    ensures CheckHeaders(values, map[]) == map[] <==> HeadersOk(values)
  {
    hide HeaderRange, AddMissing, AddOverlap, FirstOverlap, Apart, AnyHeader, Together;
    OverlapChain(values, errors);
    OverlapChain(values, map[]);
    MissingSays(values, errors);
    HeadersOkSays(values);
    ApartSays(values);
  }

  predicate NoOverlaps(values: Values, e: Errors) {
    && FirstOverlap(values, e, H2, [H1]).None? && FirstOverlap(values, e, H3, [H1, H2]).None?
    && FirstOverlap(values, e, H4, [H1, H2, H3]).None?
  }

  lemma OverlapChain(values: Values, e: Errors)
    ensures var m := WithMissing(values, e);
            && m.Keys <= CheckHeaders(values, e).Keys
            && (m == map[] ==> (CheckHeaders(values, e) == map[] <==> NoOverlaps(values, e)))
  {
    hide HeaderRange, AddMissing, AddOverlap, FirstOverlap, AnyHeader;
    var m := WithMissing(values, e);
    var a := AddOverlap(values, m, e, H2, [H1]);
    var b := AddOverlap(values, a, e, H3, [H1, H2]);
    OverlapGrows(values, m, e, H2, [H1]);
    OverlapGrows(values, a, e, H3, [H1, H2]);
    OverlapGrows(values, b, e, H4, [H1, H2, H3]);
  }

  // --- all together

  lemma EmptyBefore(a: Errors, b: Errors)
    requires a.Keys <= b.Keys && b == map[]
    ensures a == map[]
  {
    assert a.Keys == {};
  }

  /** validate_params answers with nothing exactly when every value is acceptable on its own and all of
      them are together. */
  lemma AcceptedMeans(values: Values, features: Features)
    ensures Validate(values, features) == map[] <==> Acceptable(values, features)
  {
    hide FirstPass, CheckJunk, CheckSizes, CheckDataPadding, CheckHeaderProtection, CheckHeaders, CheckTimers, CheckFeatures;
    hide EachOk, JunkOk, SizesOk, PaddingOk, NonceOk, HeadersOk, TimersOk, NeedsMissing;
    var e1 := FirstPass(values);
    var e2 := CheckJunk(values, e1);
    var e3 := CheckSizes(values, e2);
    var e4 := CheckDataPadding(values, e3);
    var e5 := CheckHeaderProtection(values, e4);
    var e6 := CheckHeaders(values, e5);
    var e7 := CheckTimers(values, e6);
    FirstPassSays(values);
    JunkSays(values, e1);
    SizesSay(values, e2);
    PaddingSays(values, e3);
    NonceSays(values, e4);
    HeadersSay(values, e5);
    TimersSay(values, e6);
    FeaturesSay(values, e7, features);
    if Validate(values, features) == map[] {
      EmptyBefore(e7, CheckFeatures(values, e7, features));
      EmptyBefore(e6, e7);
      EmptyBefore(e5, e6);
      EmptyBefore(e4, e5);
      EmptyBefore(e3, e4);
      EmptyBefore(e2, e3);
      EmptyBefore(e1, e2);
    }
  }
}
