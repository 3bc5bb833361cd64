/** Which texts are release tags, and what each of them says. */
module ReleaseTags {
  import opened Text
  import opened Release

  /** A tag taken apart: the numeric parts as they are spelled, the pre-release and the build, empty when there
      is none. */
  datatype Spelled = Spelled(v: bool, parts: seq<string>, pre: string, build: string)

  function Dotted(parts: seq<string>): string {
    if parts == [] then "" else if |parts| == 1 then parts[0] else parts[0] + "." + Dotted(parts[1..])
  }

  function Ending(t: Spelled): string {
    (if t.pre == "" then "" else "-" + t.pre) + (if t.build == "" then "" else "+" + t.build)
  }

  function TagText(t: Spelled): string {
    (if t.v then "v" else "") + Dotted(t.parts) + Ending(t)
  }

  /** Digits and nothing else, at least one. */
  predicate AreDigits(s: string) {
    s != "" && forall i :: 0 <= i < |s| ==> '0' <= s[i] <= '9'
  }

  /** Letters, digits, dots and hyphens. */
  predicate Identifiers(s: string) {
    forall i :: 0 <= i < |s| ==>
      '0' <= s[i] <= '9' || 'A' <= s[i] <= 'Z' || 'a' <= s[i] <= 'z' || s[i] == '.' || s[i] == '-'
  }

  predicate AllDigitParts(parts: seq<string>) {
    forall i :: 0 <= i < |parts| ==> AreDigits(parts[i])
  }

  predicate WellSpelled(t: Spelled) {
    t.parts != [] && AllDigitParts(t.parts) && Identifiers(t.pre) && Identifiers(t.build)
  }

  /** The version says each part as a number, and of each dot-separated identifier the number, if it is digits
      and nothing else, and otherwise the text. */
  predicate Says(v: Version, t: Spelled)
    requires WellSpelled(t)
  {
    && |v.nums| == |t.parts| && (forall i :: 0 <= i < |t.parts| ==> AllDigits(t.parts[i], 10) && v.nums[i] == ValueOf(t.parts[i], 10))
    && (t.pre == "" ==> v.pre.None?)
    && (t.pre != "" ==>
          var pieces := SplitOn(t.pre, '.');
          && v.pre.Some? && |v.pre.value| == |pieces|
          && forall i :: 0 <= i < |pieces| ==>
               if AreDigits(pieces[i]) then AllDigits(pieces[i], 10) && v.pre.value[i] == Number(ValueOf(pieces[i], 10))
               else v.pre.value[i] == Release.Word(pieces[i]))
  }

  // ------------------------------------------------------------------ every tag is read

  lemma DigitsAre(s: string)
    ensures AreDigits(s) <==> s != "" && IsNumeral(s)
    ensures AreDigits(s) ==> AllDigits(s, 10)
  {
  }

  lemma {:induction false} DigitRun(s: string, x: string)
    requires IsNumeral(s) && (x != "" ==> !IsDigit(x[0]))
    ensures Digits(s + x) == |s|
  {
    if s == "" {
      assert s + x == x;
    } else {
      assert (s + x)[1..] == s[1..] + x && (s + x)[0] == s[0];
      DigitRun(s[1..], x);
    }
  }

  lemma {:induction false} IdRun(s: string, x: string)
    requires Identifiers(s) && (x != "" ==> !IsIdChar(x[0]))
    ensures IdChars(s + x) == |s|
  {
    if s == "" {
      assert s + x == x;
    } else {
      assert (s + x)[1..] == s[1..] + x && (s + x)[0] == s[0];
      IdRun(s[1..], x);
    }
  }

  lemma DottedStep(parts: seq<string>)
    requires |parts| > 1
    ensures Dotted(parts) == parts[0] + "." + Dotted(parts[1..])
  {
  }

  /** The numbers in front of whatever follows them. */
  lemma {:induction false} NumbersRead(parts: seq<string>, x: string)
    requires parts != [] && AllDigitParts(parts) && (x != "" ==> x[0] == '-' || x[0] == '+')
    ensures var r := ReadNumbers(Dotted(parts) + x);
            && r.Numbers? && r.rest == x && |r.nums| == |parts|
            && forall i :: 0 <= i < |parts| ==> AllDigits(parts[i], 10) && r.nums[i] == ValueOf(parts[i], 10)
    decreases |parts|
  {
    hide ValueOf, Dotted, ReadNumbers;
    DigitsAre(parts[0]);
    if |parts| == 1 {
      OnePart(parts);
      LastPart(parts[0], x);
    } else {
      DottedStep(parts);
      var rest := parts[1..];
      var more := Dotted(rest) + x;
      assert Dotted(parts) + x == parts[0] + ("." + more);
      assert AllDigitParts(rest);
      NumbersRead(rest, x);
      PartStep(parts[0] + ("." + more), parts[0], more);
      assert forall i :: 0 < i < |parts| ==> parts[i] == rest[i - 1];
    }
  }

  lemma LastPart(first: string, x: string)
    requires first != "" && IsNumeral(first) && (x != "" ==> x[0] == '-' || x[0] == '+')
    ensures ReadNumbers(first + x) == Numbers([Release.Numeral(first)], x)
  {
    hide ValueOf;
    DigitRun(first, x);
    var s := first + x;
    assert s[..|first|] == first && s[|first|..] == x;
  }

  lemma OnePart(parts: seq<string>)
    requires |parts| == 1
    ensures Dotted(parts) == parts[0]
  {
  }

  lemma PartStep(s: string, first: string, more: string)
    requires s == first + ("." + more) && first != "" && IsNumeral(first) && ReadNumbers(more).Numbers?
    ensures ReadNumbers(s) == Numbers([Release.Numeral(first)] + ReadNumbers(more).nums, ReadNumbers(more).rest)
  {
    hide ValueOf;
    DigitRun(first, "." + more);
    assert s[..|first|] == first && s[|first| + 1..] == more;
  }

  lemma BuildRead(build: string)
    requires Identifiers(build)
    ensures var b := if build == "" then "" else "+" + build;
            b == "" || (b[0] == '+' && |b| > 1 && IdChars(b[1..]) == |b| - 1)
  {
    if build != "" {
      IdRun(build, "");
      assert build + "" == build && ("+" + build)[1..] == build;
    }
  }

  lemma PreRead(pre: string, b: string)
    requires Identifiers(pre) && pre != "" && (b == "" || (b[0] == '+' && |b| > 1 && IdChars(b[1..]) == |b| - 1))
    ensures ReadTail("-" + pre + b) == Tail(pre)
  {
    hide Identifiers;
    IdRun(pre, b);
    var s := "-" + pre + b;
    hide IdChars;
    CutPre(pre, b);
  }

  lemma CutPre(pre: string, b: string)
    ensures var s := "-" + pre + b; s[1..] == pre + b && s[1 + |pre|..] == b && s[1..1 + |pre|] == pre
  {
    var s := "-" + pre + b;
    assert s == "-" + (pre + b);
    assert s[1..] == pre + b;
  }

  lemma EndingRead(t: Spelled)
    requires Identifiers(t.pre) && Identifiers(t.build)
    ensures ReadTail(Ending(t)) == Tail(t.pre)
  {
    hide Identifiers, IdChars;
    var b := if t.build == "" then "" else "+" + t.build;
    BuildRead(t.build);
    if t.pre != "" {
      PreRead(t.pre, b);
    } else {
      assert "" + b == b;
    }
  }

  lemma TagBody(t: Spelled)
    ensures TagText(t) == (if t.v then "v" else "") + (Dotted(t.parts) + Ending(t))
  {
    hide Dotted, Ending;
  }

  lemma BodyEnds(t: Spelled)
    requires WellSpelled(t)
    ensures var b := Dotted(t.parts) + Ending(t); b != "" && '0' <= b[0] <= '9' && !IsSpace(b[|b| - 1])
  {
    DottedEnds(t.parts);
    hide Dotted, Ending, AllDigitParts, Identifiers;
    var d, e := Dotted(t.parts), Ending(t);
    if e != "" {
      EndingEnds(t);
      assert (d + e)[|d + e| - 1] == e[|e| - 1];
    } else {
      assert d + e == d;
    }
  }

  lemma TagTrimmed(t: Spelled)
    requires WellSpelled(t)
    ensures TagText(t) != "" && Trimmed(TagText(t)) && (TagText(t)[0] == 'v' <==> t.v)
    ensures (if t.v then TagText(t)[1..] else TagText(t)) == Dotted(t.parts) + Ending(t)
  {
    BodyEnds(t);
    TagBody(t);
    hide Dotted, Ending, AllDigitParts, Identifiers, TagText, WellSpelled;
    var s, b := TagText(t), Dotted(t.parts) + Ending(t);
    if t.v {
      assert s[0] == 'v' && s[|s| - 1] == b[|b| - 1] && s[1..] == b;
    } else {
      assert s == b;
    }
  }

  lemma {:induction false} DottedEnds(parts: seq<string>)
    requires parts != [] && AllDigitParts(parts)
    ensures var d := Dotted(parts); d != "" && '0' <= d[0] <= '9' && '0' <= d[|d| - 1] <= '9'
  {
    assert AreDigits(parts[0]);
    if |parts| > 1 {
      assert AllDigitParts(parts[1..]);
      DottedEnds(parts[1..]);
    }
  }

  lemma EndingEnds(t: Spelled)
    requires Identifiers(t.pre) && Identifiers(t.build) && Ending(t) != ""
    ensures !IsSpace(Ending(t)[|Ending(t)| - 1])
  {
    if t.build != "" {
      assert Ending(t)[|Ending(t)| - 1] == t.build[|t.build| - 1];
    } else {
      assert Ending(t)[|Ending(t)| - 1] == t.pre[|t.pre| - 1];
    }
  }

  /** Every well-spelled tag is read, with or without blanks around it, and says what it spells. */
  lemma TagReads(t: Spelled, before: string, after: string)
    requires WellSpelled(t) && AllSpace(before) && AllSpace(after)
    ensures ReadVersion(before + TagText(t) + after).Some?
    ensures Says(ReadVersion(before + TagText(t) + after).value, t)
  {
    hide AllSpace, IsSpace, ReadNumbers, ReadTail, Ending, Dotted, TagText, ValueOf, SplitOn, AllDigitParts, Identifiers;
    TagTrimmed(t);
    StripPad(before, TagText(t), after);
    EndingStarts(t);
    NumbersRead(t.parts, Ending(t));
    EndingRead(t);
    forall i | 0 <= i < |SplitOn(t.pre, '.')| ensures AreDigits(SplitOn(t.pre, '.')[i]) ==> AllDigits(SplitOn(t.pre, '.')[i], 10) {
      DigitsAre(SplitOn(t.pre, '.')[i]);
    }
    PiecesAre(SplitOn(t.pre, '.'));
  }

  lemma EndingStarts(t: Spelled)
    ensures Ending(t) != "" ==> Ending(t)[0] == '-' || Ending(t)[0] == '+'
  {
  }

  lemma PiecesAre(pieces: seq<string>)
    ensures forall i :: 0 <= i < |pieces| ==>
              if AreDigits(pieces[i]) then AllDigits(pieces[i], 10) && IdsOf(pieces)[i] == Number(ValueOf(pieces[i], 10))
              else IdsOf(pieces)[i] == Release.Word(pieces[i])
  {
    hide ValueOf;
    forall i | 0 <= i < |pieces|
      ensures if AreDigits(pieces[i]) then AllDigits(pieces[i], 10) && IdsOf(pieces)[i] == Number(ValueOf(pieces[i], 10))
              else IdsOf(pieces)[i] == Release.Word(pieces[i])
    {
      DigitsAre(pieces[i]);
    }
  }

  // ------------------------------------------------------------------ nothing else is read

  /** What one step of reading numbers found. */
  lemma NumbersStep(s: string)
    requires ReadNumbers(s).Numbers?
    ensures var n := Digits(s);
            && 0 < n <= |s| && AreDigits(s[..n])
            && if n < |s| && s[n] == '.' && ReadNumbers(s[n + 1..]).Numbers? then ReadNumbers(s).rest == ReadNumbers(s[n + 1..]).rest
               else ReadNumbers(s).rest == s[n..]
  {
    RunIsDigits(s);
    hide ValueOf, Digits, AreDigits, IsNumeral;
  }

  lemma RunIsDigits(s: string)
    ensures Digits(s) > 0 ==> AreDigits(s[..Digits(s)])
  {
    DigitsAre(s[..Digits(s)]);
  }

  lemma {:induction false} NumbersAre(s: string) returns (parts: seq<string>)
    requires ReadNumbers(s).Numbers?
    ensures parts != [] && AllDigitParts(parts) && s == Dotted(parts) + ReadNumbers(s).rest
    decreases |s|
  {
    hide ReadNumbers, Digits, AreDigits, Dotted;
    var n := Digits(s);
    var first := s[..n];
    NumbersStep(s);
    if n < |s| && s[n] == '.' && ReadNumbers(s[n + 1..]).Numbers? {
      var more := NumbersAre(s[n + 1..]);
      parts := [first] + more;
      assert parts[1..] == more;
      DottedStep(parts);
      assert s == first + ("." + s[n + 1..]);
    } else {
      parts := [first];
      OnePart(parts);
      assert s == first + s[n..];
    }
  }

  lemma IdPart(s: string, k: nat)
    requires k <= IdChars(s)
    ensures Identifiers(s[..k])
  {
  }

  /** The end of a text that is read: a build, or nothing. */
  lemma BuildIs(rest: string) returns (build: string)
    requires rest == "" || (rest[0] == '+' && |rest| > 1 && IdChars(rest[1..]) == |rest| - 1)
    ensures Identifiers(build) && rest == if build == "" then "" else "+" + build
  {
    build := if rest == "" then "" else rest[1..];
    if rest != "" {
      IdPart(rest[1..], |rest| - 1);
      assert rest[1..][..|rest| - 1] == build;
    }
  }

  /** What the end of a tag was read from: k characters of a pre-release, and the rest. */
  lemma TailParts(s: string) returns (k: nat)
    requires ReadTail(s).Tail?
    ensures k > 0 ==> s != "" && s[0] == '-' && k <= IdChars(s[1..]) && k < |s| && ReadTail(s).pre == s[1..][..k]
    ensures k == 0 ==> ReadTail(s).pre == ""
    ensures var rest := if k > 0 then s[1..][k..] else s;
            rest == "" || (rest[0] == '+' && |rest| > 1 && IdChars(rest[1..]) == |rest| - 1)
  {
    k := if s != "" && s[0] == '-' then IdChars(s[1..]) else 0;
    hide IdChars;
    if k > 0 {
      assert s[1..1 + k] == s[1..][..k] && s[1 + k..] == s[1..][k..];
    }
  }

  lemma TailIs(s: string) returns (pre: string, build: string)
    requires ReadTail(s).Tail?
    ensures Identifiers(pre) && Identifiers(build) && s == Ending(Spelled(false, [], pre, build)) && pre == ReadTail(s).pre
  {
    hide IdChars, Identifiers, ReadTail;
    var k := TailParts(s);
    pre := ReadTail(s).pre;
    if k > 0 {
      build := BuildIs(s[1..][k..]);
      IdPart(s[1..], k);
      assert s == "-" + pre + s[1..][k..];
    } else {
      build := BuildIs(s);
      NoIdentifiers();
      assert "" + s == s;
    }
  }

  lemma NoIdentifiers()
    ensures Identifiers("")
  {
  }

  lemma ReadParts(text: string)
    requires ReadVersion(text).Some?
    ensures var s := Strip(text); var body := if s != "" && s[0] == 'v' then s[1..] else s;
            ReadNumbers(body).Numbers? && ReadTail(ReadNumbers(body).rest).Tail?
  {
    hide ReadNumbers, ReadTail, Strip, SplitOn, IdsOf;
  }

  /** A text that is read is a tag with blanks around it. */
  lemma ReadIsTag(text: string) returns (t: Spelled)
    requires ReadVersion(text).Some?
    ensures WellSpelled(t) && Strip(text) == TagText(t)
  {
    hide ReadVersion, ReadNumbers, ReadTail, Strip, Dotted, Identifiers, AllDigitParts, TagText;
    var s := Strip(text);
    var body := if s != "" && s[0] == 'v' then s[1..] else s;
    ReadParts(text);
    var parts := NumbersAre(body);
    var pre, build := TailIs(ReadNumbers(body).rest);
    t := Spelled(s != "" && s[0] == 'v', parts, pre, build);
    assert Ending(t) == Ending(Spelled(false, [], pre, build));
    TagBody(t);
    assert s == (if t.v then "v" else "") + body;
  }
}
