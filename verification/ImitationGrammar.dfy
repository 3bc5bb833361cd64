/** The template grammar of imitation packets, said as a shape a text has rather than as a way to read it. */
module ImitationGrammar {
  import opened Text
  import opened Params
  import opened Imitation

  /** A stretch of blanks, or a tag: "<", blanks, a name, whatever follows it up to the bracket, ">". */
  datatype Piece = Gap(blanks: string) | Tagged(before: string, name: string, rest: string)

  function Spelling(piece: Piece): string {
    match piece
    case Gap(blanks) => blanks
    case Tagged(before, name, rest) => "<" + before + name + rest + ">"
  }

  function Spellings(pieces: seq<Piece>): string {
    if pieces == [] then "" else Spelling(pieces[0]) + Spellings(pieces[1..])
  }

  /** Decimal digits and nothing else, at least one. */
  predicate Digits(s: string) {
    s != "" && forall i :: 0 <= i < |s| ==> '0' <= s[i] <= '9'
  }

  /** The number decimal digits stand for. */
  function Number(s: string): nat
    requires Digits(s)
  {
    var last := s[|s| - 1] as int - '0' as int;
    if |s| == 1 then last else Number(s[..|s| - 1]) * 10 + last
  }

  predicate HexDigit(c: char) {
    '0' <= c <= '9' || 'a' <= c <= 'f' || 'A' <= c <= 'F'
  }

  predicate Latin(c: char) {
    'a' <= c <= 'z' || 'A' <= c <= 'Z'
  }

  /** The bytes a tag of this name and argument stands for, or None when there is no such tag. */
  function Bytes(name: string, arg: string): Option<nat> {
    if name == "r" then (if Digits(arg) && 1 <= Number(arg) <= 1500 then Some(Number(arg)) else None)
    else if name == "b" then
      (if |arg| > 2 && (arg[..2] == "0x" || arg[..2] == "0X") && (forall i :: 2 <= i < |arg| ==> HexDigit(arg[i])) && |arg| % 2 == 0
       then Some(|arg| / 2 - 1) else None)
    else if name == "t" || name == "c" then (if arg == "" then Some(4) else None)
    else if name == "rc" || name == "rd" then
      (if arg == "" then Some(0) else if Digits(arg) then Some(Number(arg)) else None)
    else None
  }

  /** Blanks are blank, a tag's name is all the letters it starts with, and there is such a tag. */
  predicate Proper(piece: Piece) {
    match piece
    case Gap(blanks) => AllSpace(blanks)
    case Tagged(before, name, rest) =>
      && AllSpace(before) && name != "" && (forall i :: 0 <= i < |name| ==> Latin(name[i]))
      && '>' !in rest && (rest != "" ==> !Latin(rest[0]))
      && Bytes(Fold(name), Strip(rest)).Some?
  }

  predicate AllProper(pieces: seq<Piece>) {
    forall i :: 0 <= i < |pieces| ==> Proper(pieces[i])
  }

  function TagCount(pieces: seq<Piece>): nat {
    if pieces == [] then 0 else (if pieces[0].Tagged? then 1 else 0) + TagCount(pieces[1..])
  }

  /** The bytes of every sending, where the tags have a size of their own. */
  function ByteCount(pieces: seq<Piece>): nat
    requires AllProper(pieces)
  {
    if pieces == [] then 0
    else
      assert Proper(pieces[0]);
      assert AllProper(pieces[1..]);
      (match pieces[0] case Gap(_) => 0 case Tagged(_, name, rest) => Bytes(Fold(name), Strip(rest)).value)
      + ByteCount(pieces[1..])
  }

  /** A template: tags with blanks around them at most, one at least, and no more than 1280 bytes in all. */
  ghost predicate Template(value: string) {
    exists pieces :: AllProper(pieces) && Spellings(pieces) == value && TagCount(pieces) >= 1 && ByteCount(pieces) <= 1280
  }

  // ------------------------------------------------------------------ digits

  lemma {:induction false} DigitsAreNumerals(s: string)
    ensures Digits(s) <==> IsNumeral(s)
    ensures Digits(s) ==> Number(s) == Numeral(s)
    decreases |s|
  {
    if Digits(s) && |s| > 1 {
      DigitsAreNumerals(s[..|s| - 1]);
    } else if Digits(s) {
      assert ValueOf(s[..0], 10) == 0;
    }
  }

  lemma HexDigitsAre(c: char)
    ensures HexDigit(c) <==> DigitVal(c) < 16
  {
  }

  lemma HexIs(arg: string)
    ensures IsHex(arg) <==> |arg| > 2 && (arg[..2] == "0x" || arg[..2] == "0X") && forall i :: 2 <= i < |arg| ==> HexDigit(arg[i])
  {
    if |arg| > 2 {
      var digits := arg[2..];
      assert forall i :: 2 <= i < |arg| ==> digits[i - 2] == arg[i];
      assert forall i :: 0 <= i < |digits| ==> arg[i + 2] == digits[i];
      assert arg[..2] == [arg[0], arg[1]];
    }
  }

  lemma BytesAre(name: string, arg: string)
    ensures ReadTag(name, arg).Good? <==> Bytes(name, arg).Some?
    ensures ReadTag(name, arg).Good? ==> ReadTag(name, arg).tag.size == Bytes(name, arg).value
  {
    DigitsAreNumerals(arg);
    HexIs(arg);
    hide Digits, IsNumeral, Number, Numeral, IsHex, HexDigit;
  }

  // ------------------------------------------------------------------ a template is read as its tags

  lemma {:induction false} BlanksSkipped(blanks: string, more: string)
    requires AllSpace(blanks)
    ensures ParseTags(blanks + more) == ParseTags(more)
    decreases |blanks|
  {
    hide IsSpace, MatchTag, ReadTag;
    if blanks == "" {
      assert blanks + more == more;
    } else {
      assert (blanks + more)[1..] == blanks[1..] + more;
      assert (blanks + more)[0] == blanks[0];
      BlanksSkipped(blanks[1..], more);
    }
  }

  lemma {:induction false} LettersOf(name: string, after: string)
    requires (forall i :: 0 <= i < |name| ==> IsLetter(name[i])) && after != "" && !IsLetter(after[0])
    ensures Letters(name + after) == |name|
  {
    hide IsLetter;
    if name == "" {
      assert name + after == after;
    } else {
      assert (name + after)[1..] == name[1..] + after && (name + after)[0] == name[0];
      LettersOf(name[1..], after);
    }
  }

  lemma NotBlank(c: char)
    requires IsLetter(c)
    ensures !IsSpace(c) && c != '>'
  {
  }

  /** A match, from the three positions it is made of. */
  lemma MatchOf(s: string, inner: string, n: nat, close: nat)
    requires s != "" && s[0] == '<' && Lstrip(s[1..]) == inner && Letters(inner) == n && IndexOf(inner, '>') == close
    requires 0 < n && close < |inner|
    ensures n <= close && MatchTag(s) == Bracket(Fold(inner[..n]), Strip(inner[n..close]), |s| - |inner| + close + 1)
  {
    hide IsSpace, Strip, Fold, Lstrip, Letters, IndexOf;
  }

  lemma InnerOf(before: string, name: string, after: string)
    requires AllSpace(before) && name != "" && !IsSpace(name[0])
    ensures Lstrip(before + (name + after)) == name + after
  {
    hide IsSpace, AllSpace;
    LstripPad(before, name + after);
    assert (name + after)[0] == name[0];
    StripKeepsFirst(name + after);
  }

  lemma CloseOf(name: string, rest: string, more: string)
    requires (forall i :: 0 <= i < |name| ==> name[i] != '>') && '>' !in rest
    ensures IndexOf(name + rest + ">" + more, '>') == |name| + |rest|
  {
    hide IndexOf;
    PartitionAt(name + rest + ">" + more, name + rest, '>', more);
  }

  lemma TagMatches(before: string, name: string, rest: string, more: string)
    requires AllSpace(before) && name != "" && (forall i :: 0 <= i < |name| ==> IsLetter(name[i]))
    requires '>' !in rest && (rest != "" ==> !IsLetter(rest[0]))
    ensures var s := "<" + before + name + rest + ">" + more;
            s[0] == '<' && MatchTag(s) == Bracket(Fold(name), Strip(rest), |s| - |more|)
  {
    forall i | 0 <= i < |name| ensures !IsSpace(name[i]) && name[i] != '>' {
      NotBlank(name[i]);
    }
    assert !IsLetter('>');
    hide IsSpace, AllSpace, Strip, Fold, Lstrip, Letters, IndexOf, MatchTag, IsLetter;
    var s := "<" + before + name + rest + ">" + more;
    var after := rest + ">" + more;
    var inner := name + after;
    PutTogether(before, name, rest, more);
    InnerOf(before, name, after);
    LettersOf(name, after);
    CloseOf(name, rest, more);
    MatchOf(s, inner, |name|, |name| + |rest|);
  }

  lemma PutTogether(before: string, name: string, rest: string, more: string)
    ensures var s := "<" + before + name + rest + ">" + more; var inner := name + (rest + ">" + more);
            && |s| == 1 + |before| + |inner| && s[0] == '<' && s[1..] == before + inner && inner == name + rest + ">" + more
            && inner[..|name|] == name && inner[|name|..|name| + |rest|] == rest && |inner| == |name| + |rest| + 1 + |more|
  {
    var inner := name + (rest + ">" + more);
    assert "<" + before + name + rest + ">" + more == "<" + (before + inner);
  }

  lemma TagRead(before: string, name: string, rest: string, more: string)
    requires Proper(Tagged(before, name, rest))
    ensures var s := "<" + before + name + rest + ">" + more;
            var read := ReadTag(Fold(name), Strip(rest));
            && read.Good? && read.tag.size == Bytes(Fold(name), Strip(rest)).value
            && ParseTags(s) == Behind([read.tag], ParseTags(more))
  {
    LatinIs();
    hide IsSpace, MatchTag, ReadTag, Bytes, Strip, Fold, IsLetter, Latin;
    var s := "<" + before + name + rest + ">" + more;
    TagMatches(before, name, rest, more);
    BytesAre(Fold(name), Strip(rest));
    NotASpace();
    assert s[|s| - |more|..] == more;
  }

  /** Every spelling of a template is read, with as many tags and as many bytes as it has. */
  lemma {:induction false} ProperIsRead(pieces: seq<Piece>)
    requires AllProper(pieces)
    ensures var parsed := ParseTags(Spellings(pieces));
            parsed.Tags? && |parsed.tags| == TagCount(pieces) && SumSizes(parsed.tags) == ByteCount(pieces)
  {
    hide ParseTags, Strip, Fold, Bytes, ReadTag;
    if pieces == [] {
      EndOfText([]);
    } else {
      assert Proper(pieces[0]) && AllProper(pieces[1..]);
      var more := Spellings(pieces[1..]);
      ProperIsRead(pieces[1..]);
      match pieces[0] {
        case Gap(blanks) => BlanksSkipped(blanks, more);
        case Tagged(before, name, rest) =>
          TagRead(before, name, rest, more);
          var tag, tags := ReadTag(Fold(name), Strip(rest)).tag, ParseTags(more).tags;
          assert ([tag] + tags)[1..] == tags;
      }
    }
  }

  // ------------------------------------------------------------------ what is read is a template

  lemma {:induction false} LeadingBlanks(s: string)
    ensures s == s[..|s| - |Lstrip(s)|] + Lstrip(s) && AllSpace(s[..|s| - |Lstrip(s)|])
  {
    LstripSuffix(s);
  }

  /** The three positions of a match. */
  lemma MatchHas(s: string) returns (inner: string, n: nat, close: nat)
    requires MatchTag(s).Bracket?
    ensures s != "" && s[0] == '<' && inner == Lstrip(s[1..]) && n == Letters(inner) && close == IndexOf(inner, '>')
    ensures 0 < n <= close < |inner|
    ensures MatchTag(s) == Bracket(Fold(inner[..n]), Strip(inner[n..close]), |s| - |inner| + close + 1)
  {
    inner := Lstrip(s[1..]);
    n, close := Letters(inner), IndexOf(inner, '>');
    hide IsSpace, Strip, Fold, Lstrip, Letters, IndexOf;
  }

  lemma CutUp(s: string, inner: string, n: nat, close: nat)
    requires s != "" && s[0] == '<' && |inner| < |s| && n <= close < |inner| && inner[close] == '>'
    requires s[1..] == s[1..][..|s| - 1 - |inner|] + inner
    ensures s == "<" + s[1..][..|s| - 1 - |inner|] + inner[..n] + inner[n..close] + ">" + s[|s| - |inner| + close + 1..]
  {
    var before := s[1..][..|s| - 1 - |inner|];
    assert s == ["<"[0]] + (before + inner);
    assert inner == inner[..n] + inner[n..close] + [inner[close]] + inner[close + 1..];
    assert s[|s| - |inner| + close + 1..] == inner[close + 1..];
  }

  /** A match is a tag in the grammar's sense. */
  lemma MatchIsTag(s: string) returns (before: string, name: string, rest: string)
    requires MatchTag(s).Bracket? && ReadTag(MatchTag(s).name, MatchTag(s).arg).Good?
    ensures Proper(Tagged(before, name, rest)) && MatchTag(s).name == Fold(name) && MatchTag(s).arg == Strip(rest)
    ensures s == "<" + before + name + rest + ">" + s[MatchTag(s).used..]
  {
    var inner, n, close := MatchHas(s);
    LettersAre(inner);
    LatinIs();
    LeadingBlanks(s[1..]);
    hide IsSpace, Strip, Fold, ReadTag, Bytes, Lstrip, AllSpace, MatchTag, Letters, IndexOf, IsLetter, Latin, Proper;
    before, name, rest := s[1..][..|s| - 1 - |inner|], inner[..n], inner[n..close];
    LetterLower(inner, n, close);
    BytesAre(Fold(name), Strip(rest));
    ProperTag(before, name, rest);
    CutUp(s, inner, n, close);
  }

  lemma ProperTag(before: string, name: string, rest: string)
    requires AllSpace(before) && name != "" && (forall i :: 0 <= i < |name| ==> Latin(name[i]))
    requires '>' !in rest && (rest != "" ==> !Latin(rest[0])) && Bytes(Fold(name), Strip(rest)).Some?
    ensures Proper(Tagged(before, name, rest))
  {
    hide AllSpace, Strip, Fold, Bytes, Latin;
  }

  lemma LatinIs()
    ensures forall c :: Latin(c) <==> IsLetter(c)
  {
  }

  lemma LettersAre(s: string)
    ensures Letters(s) <= |s| && (Letters(s) < |s| ==> !IsLetter(s[Letters(s)]))
    ensures forall i :: 0 <= i < Letters(s) ==> IsLetter(s[i])
  {
  }

  lemma LetterLower(inner: string, n: nat, close: nat)
    requires n <= |inner| && close < |inner| && inner[close] == '>' && (forall i :: 0 <= i < n ==> IsLetter(inner[i]))
    requires (n < |inner| ==> !IsLetter(inner[n])) && forall i :: 0 <= i < close ==> inner[i] != '>'
    ensures n <= close && '>' !in inner[n..close] && (inner[n..close] != "" ==> !IsLetter(inner[n..close][0]))
    ensures forall i :: 0 <= i < n ==> IsLetter(inner[..n][i])
  {
    assert !IsLetter('>');
  }

  lemma ReadOnce(s: string)
    requires s != "" && !IsSpace(s[0]) && ParseTags(s).Tags?
    ensures MatchTag(s).Bracket? && ReadTag(MatchTag(s).name, MatchTag(s).arg).Good?
    ensures ParseTags(s[MatchTag(s).used..]).Tags?
  {
    hide MatchTag, ReadTag, IsSpace;
  }

  lemma {:induction false} ReadIsProper(s: string) returns (pieces: seq<Piece>)
    requires ParseTags(s).Tags?
    ensures AllProper(pieces) && Spellings(pieces) == s
    decreases |s|
  {
    hide MatchTag, ReadTag, IsSpace, Proper;
    if s == "" {
      pieces := [];
    } else if IsSpace(s[0]) {
      var more := ReadIsProper(s[1..]);
      pieces := [Gap([s[0]])] + more;
      assert Proper(Gap([s[0]])) by { OneBlank(s[0]); }
      assert pieces[1..] == more;
      assert s == [s[0]] + s[1..];
    } else {
      ReadOnce(s);
      var before, name, rest := MatchIsTag(s);
      var more := ReadIsProper(s[MatchTag(s).used..]);
      pieces := [Tagged(before, name, rest)] + more;
      assert pieces[1..] == more;
    }
  }

  lemma OneBlank(c: char)
    requires IsSpace(c)
    ensures Proper(Gap([c]))
  {
    hide IsSpace;
  }

  /** A value is accepted exactly when it is a template. */
  lemma AcceptedIsTemplate(value: string)
    ensures ParseImitation(value).Tags? <==> Template(value)
  {
    hide ParseTags, Proper, SumSizes;
    if ParseImitation(value).Tags? {
      var pieces := ReadIsProper(value);
      ProperIsRead(pieces);
      assert Template(value);
    }
    if Template(value) {
      var pieces :| AllProper(pieces) && Spellings(pieces) == value && TagCount(pieces) >= 1 && ByteCount(pieces) <= 1280;
      ProperIsRead(pieces);
    }
  }
}
