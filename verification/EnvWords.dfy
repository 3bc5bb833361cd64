/** What a bash word is made of, said as a shape, and that the scan reads exactly those words. */
module EnvWords {
  import opened Text
  import opened EnvFile

  /** Inside double quotes: a character as it is, one of the four that a backslash takes its meaning from, or a
      backslash that stays because what follows it has none. */
  datatype Inner = Kept(c: char) | Undone(c: char) | Pair(c: char)

  /** A character as it is, one behind a backslash, everything between single quotes, or a double-quoted part. */
  datatype Piece = Plain(c: char) | Behind(c: char) | Single(text: string) | Double(inside: seq<Inner>)

  predicate InnerOk(i: Inner) {
    match i
    case Kept(c) => c != '"' && c != '\\'
    case Undone(c) => c == '\\' || c == '"' || c == '$' || c == '`'
    case Pair(c) => c != '\\' && c != '"' && c != '$' && c != '`'
  }

  predicate InsideOk(inside: seq<Inner>) {
    forall k :: 0 <= k < |inside| ==> InnerOk(inside[k])
  }

  predicate PieceOk(p: Piece) {
    match p
    case Plain(c) => c != ' ' && c != '\t' && c != '"' && c != '\'' && c != '\\'
    case Behind(_) => true
    case Single(text) => '\'' !in text
    case Double(inside) => InsideOk(inside)
  }

  predicate PiecesOk(pieces: seq<Piece>) {
    forall k :: 0 <= k < |pieces| ==> PieceOk(pieces[k])
  }

  function InnerText(i: Inner): string {
    if i.Kept? then [i.c] else ['\\', i.c]
  }

  function InsideText(inside: seq<Inner>): string {
    if inside == [] then "" else InnerText(inside[0]) + InsideText(inside[1..])
  }

  function InsideValue(inside: seq<Inner>): string {
    if inside == [] then ""
    else (if inside[0].Pair? then ['\\', inside[0].c] else [inside[0].c]) + InsideValue(inside[1..])
  }

  function PieceText(p: Piece): string {
    match p
    case Plain(c) => [c]
    case Behind(c) => ['\\', c]
    case Single(text) => "'" + text + "'"
    case Double(inside) => "\"" + InsideText(inside) + "\""
  }

  function PieceValue(p: Piece): string {
    match p
    case Plain(c) => [c]
    case Behind(c) => [c]
    case Single(text) => text
    case Double(inside) => InsideValue(inside)
  }

  function WordText(pieces: seq<Piece>): string {
    if pieces == [] then "" else PieceText(pieces[0]) + WordText(pieces[1..])
  }

  function WordValue(pieces: seq<Piece>): string {
    if pieces == [] then "" else PieceValue(pieces[0]) + WordValue(pieces[1..])
  }

  /** Where a word ends: at a blank, or with the text. */
  predicate Ends(rest: string) {
    rest == "" || rest[0] == ' ' || rest[0] == '\t'
  }

  // ------------------------------------------------------------------ every word is read as what it says

  lemma {:induction false} SingleReads(text: string, rest: string)
    requires '\'' !in text
    ensures ScanSingle(text + "'" + rest) == Word(text, |text| + 1)
  {
    var s := text + "'" + rest;
    if text == "" {
      assert s[0] == '\'';
    } else {
      assert s[0] == text[0] && s[1..] == text[1..] + "'" + rest;
      SingleReads(text[1..], rest);
      assert [text[0]] + text[1..] == text;
    }
  }

  lemma {:induction false} DoubleReads(inside: seq<Inner>, rest: string)
    requires InsideOk(inside)
    ensures ScanDouble(InsideText(inside) + "\"" + rest) == Word(InsideValue(inside), |InsideText(inside)| + 1)
  {
    var s := InsideText(inside) + "\"" + rest;
    if inside == [] {
      assert s[0] == '"';
    } else {
      assert InnerOk(inside[0]) && InsideOk(inside[1..]);
      DoubleReads(inside[1..], rest);
      InnerReads(inside[0], InsideText(inside[1..]) + "\"" + rest);
      assert s == InnerText(inside[0]) + (InsideText(inside[1..]) + "\"" + rest);
    }
  }

  lemma KeptReads(c: char, more: string)
    requires c != '"' && c != '\\'
    ensures ScanDouble([c] + more) == Before(c, ScanDouble(more), 1)
  {
    assert ([c] + more)[1..] == more;
  }

  lemma UndoneReads(c: char, more: string)
    requires Escaped(c)
    ensures ScanDouble(['\\', c] + more) == Before(c, ScanDouble(more), 2)
  {
    assert (['\\', c] + more)[2..] == more;
  }

  lemma PairReads(c: char, more: string)
    requires !Escaped(c)
    ensures ScanDouble(['\\', c] + more) == Before('\\', Before(c, ScanDouble(more), 1), 1)
  {
    var s := ['\\', c] + more;
    assert s[1..] == [c] + more;
    KeptReads(c, more);
    hide Before;
    assert s[0] == '\\' && s[1] == c;
  }

  lemma InnerReads(i: Inner, more: string)
    requires InnerOk(i)
    ensures var value := if i.Pair? then ['\\', i.c] else [i.c];
            ScanDouble(InnerText(i) + more)
            == if ScanDouble(more).Unread? then Unread
               else Word(value + ScanDouble(more).value, |InnerText(i)| + ScanDouble(more).used)
  {
    hide ScanDouble;
    match i
    case Kept(c) => KeptReads(c, more);
    case Undone(c) => UndoneReads(c, more);
    case Pair(c) =>
      PairReads(c, more);
      if ScanDouble(more).Word? {
        assert ['\\'] + ([c] + ScanDouble(more).value) == ['\\', c] + ScanDouble(more).value;
      }
  }

  lemma QuotedReads(q: char, inner: string, value: string, more: string)
    requires q == '\'' || q == '"'
    requires (if q == '"' then ScanDouble(inner + [q] + more) else ScanSingle(inner + [q] + more)) == Word(value, |inner| + 1)
    ensures ScanWord([q] + inner + [q] + more)
            == if ScanWord(more).Unread? then Unread else Word(value + ScanWord(more).value, |inner| + 2 + ScanWord(more).used)
  {
    hide ScanSingle, ScanDouble;
    var s := [q] + inner + [q] + more;
    assert s[0] == q && s[1..] == inner + [q] + more;
    assert s[1 + (|inner| + 1)..] == more;
  }

  lemma BareReads(p: Piece, more: string)
    requires PieceOk(p) && (p.Plain? || p.Behind?)
    ensures ScanWord(PieceText(p) + more)
            == if ScanWord(more).Unread? then Unread
               else Word([p.c] + ScanWord(more).value, |PieceText(p)| + ScanWord(more).used)
  {
    hide ScanSingle, ScanDouble;
    var s := PieceText(p) + more;
    if p.Plain? {
      assert s[0] == p.c && s[1..] == more;
    } else {
      assert s[0] == '\\' && s[1] == p.c && s[2..] == more;
    }
  }

  lemma PieceReads(p: Piece, more: string)
    requires PieceOk(p)
    ensures ScanWord(PieceText(p) + more)
            == if ScanWord(more).Unread? then Unread
               else Word(PieceValue(p) + ScanWord(more).value, |PieceText(p)| + ScanWord(more).used)
  {
    hide ScanSingle, ScanDouble, ScanWord, InsideOk, InsideText, InsideValue;
    match p
    case Plain(c) => BareReads(p, more);
    case Behind(c) => BareReads(p, more);
    case Single(text) =>
      SingleReads(text, more);
      QuotedReads('\'', text, text, more);
    case Double(inside) =>
      DoubleReads(inside, more);
      QuotedReads('"', InsideText(inside), InsideValue(inside), more);
  }

  /** A word made of such pieces is read as what they say, up to its end and no further. */
  lemma {:induction false} WordReads(pieces: seq<Piece>, rest: string)
    requires PiecesOk(pieces) && Ends(rest)
    ensures ScanWord(WordText(pieces) + rest) == Word(WordValue(pieces), |WordText(pieces)|)
  {
    hide PieceText, PieceValue, PieceOk, ScanWord;
    if pieces == [] {
      EndReads(rest);
      assert WordText(pieces) + rest == rest;
    } else {
      assert PiecesOk(pieces[1..]);
      WordReads(pieces[1..], rest);
      hide WordText, WordValue;
      WordStep(pieces, rest);
    }
  }

  lemma WordStep(pieces: seq<Piece>, rest: string)
    requires PiecesOk(pieces) && pieces != []
    requires ScanWord(WordText(pieces[1..]) + rest) == Word(WordValue(pieces[1..]), |WordText(pieces[1..])|)
    ensures ScanWord(WordText(pieces) + rest) == Word(WordValue(pieces), |WordText(pieces)|)
  {
    hide PieceText, PieceValue, PieceOk, ScanWord;
    var first, more := PieceText(pieces[0]), WordText(pieces[1..]);
    assert WordText(pieces) == first + more && WordValue(pieces) == PieceValue(pieces[0]) + WordValue(pieces[1..]);
    hide WordText, WordValue;
    PieceReads(pieces[0], more + rest);
    assert first + more + rest == first + (more + rest);
  }

  lemma EndReads(rest: string)
    requires Ends(rest)
    ensures ScanWord(rest) == Word("", 0)
  {
  }

  /** In particular, whatever stands between single quotes is taken as it is. */
  lemma SingleQuoted(v: string, rest: string)
    requires '\'' !in v && Ends(rest)
    ensures ScanWord("'" + v + "'" + rest) == Word(v, |v| + 2)
  {
    var pieces := [Single(v)];
    assert pieces[1..] == [] && WordText(pieces) == "'" + v + "'" + "" && WordValue(pieces) == v + "";
    assert WordText(pieces) == "'" + v + "'" && WordValue(pieces) == v;
    hide ScanWord, WordText, WordValue;
    WordReads(pieces, rest);
  }

  // ------------------------------------------------------------------ nothing else is read

  lemma {:induction false} SingleIs(s: string)
    requires ScanSingle(s).Word?
    ensures var w := ScanSingle(s); 0 < w.used <= |s| && s[..w.used] == w.value + "'" && '\'' !in w.value
  {
    if s[0] != '\'' {
      SingleIs(s[1..]);
      var w := ScanSingle(s[1..]);
      assert s[..1 + w.used] == [s[0]] + s[1..][..w.used];
    }
  }

  lemma {:induction false} DoubleIs(s: string) returns (inside: seq<Inner>)
    requires ScanDouble(s).Word?
    ensures InsideOk(inside) && ScanDouble(s).value == InsideValue(inside)
    ensures 0 < ScanDouble(s).used <= |s| && s[..ScanDouble(s).used] == InsideText(inside) + "\""
    decreases |s|
  {
    if s[0] == '"' {
      inside := [];
    } else if s[0] == '\\' {
      assert |s| > 1;
      inside := BackslashIs(s);
    } else {
      var more := DoubleIs(s[1..]);
      inside := [Kept(s[0])] + more;
      assert inside[1..] == more;
      var w := ScanDouble(s[1..]);
      assert s[..1 + w.used] == [s[0]] + s[1..][..w.used];
    }
  }

  lemma {:induction false} BackslashIs(s: string) returns (inside: seq<Inner>)
    requires ScanDouble(s).Word? && |s| > 1 && s[0] == '\\'
    ensures InsideOk(inside) && ScanDouble(s).value == InsideValue(inside)
    ensures 0 < ScanDouble(s).used <= |s| && s[..ScanDouble(s).used] == InsideText(inside) + "\""
    decreases |s|, 0
  {
    var c, rest := s[1], s[2..];
    var i := if Escaped(c) then Undone(c) else Pair(c);
    assert s == InnerText(i) + rest;
    InnerReads(i, rest);
    hide ScanDouble, Escaped;
    var more := DoubleIs(rest);
    inside := [i] + more;
    assert inside[1..] == more;
    var used := ScanDouble(rest).used;
    assert s[..2 + used] == InnerText(i) + rest[..used];
  }

  lemma WordParts(s: string)
    requires ScanWord(s).Word? && !Ends(s)
    ensures s[0] == '\'' ==> ScanSingle(s[1..]).Word?
    ensures s[0] == '"' ==> ScanDouble(s[1..]).Word?
    ensures s[0] == '\\' ==> |s| > 1
  {
    hide ScanSingle, ScanDouble;
  }

  lemma FirstThen(s: string, used: nat, part: string)
    requires s != "" && used <= |s| - 1 && s[1..][..used] == part
    ensures [s[0]] + part <= s
  {
    assert s[..1 + used] == [s[0]] + s[1..][..used];
  }

  /** A piece at the start of a word, and where the rest begins. */
  lemma PieceIs(s: string) returns (p: Piece)
    requires ScanWord(s).Word? && !Ends(s)
    ensures PieceOk(p) && PieceText(p) <= s && |PieceText(p)| > 0
  {
    hide ScanSingle, ScanDouble, ScanWord, InsideOk, InsideText, InsideValue;
    WordParts(s);
    if s[0] == '\'' {
      SingleIs(s[1..]);
      var w := ScanSingle(s[1..]);
      p := Single(w.value);
      FirstThen(s, w.used, w.value + "'");
      assert PieceText(p) == [s[0]] + (w.value + "'");
    } else if s[0] == '"' {
      var inside := DoubleIs(s[1..]);
      p := Double(inside);
      FirstThen(s, ScanDouble(s[1..]).used, InsideText(inside) + "\"");
      assert PieceText(p) == [s[0]] + (InsideText(inside) + "\"");
    } else if s[0] == '\\' {
      p := Behind(s[1]);
      FirstThen(s, 1, [s[1]]);
      assert PieceText(p) == [s[0]] + [s[1]];
    } else {
      p := Plain(s[0]);
      FirstThen(s, 0, "");
      assert PieceText(p) == [s[0]] + "";
    }
  }

  /** Whatever is read is such a word, and ends where one ends. */
  lemma {:induction false} WordIs(s: string) returns (pieces: seq<Piece>)
    requires ScanWord(s).Word?
    ensures PiecesOk(pieces) && ScanWord(s).value == WordValue(pieces) && ScanWord(s).used == |WordText(pieces)|
    ensures WordText(pieces) <= s && Ends(s[|WordText(pieces)|..])
    decreases |s|
  {
    if Ends(s) {
      pieces := [];
    } else {
      var p := PieceIs(s);
      var more := s[|PieceText(p)|..];
      assert s == PieceText(p) + more;
      hide ScanWord, PieceText, PieceValue, PieceOk;
      PieceReads(p, more);
      var rest := WordIs(more);
      pieces := [p] + rest;
      assert pieces[1..] == rest;
      assert WordText(pieces) == PieceText(p) + WordText(rest) && WordValue(pieces) == PieceValue(p) + WordValue(rest);
      hide WordText, WordValue;
      Onward(s, PieceText(p), more, WordText(rest));
    }
  }

  lemma Onward(s: string, first: string, more: string, next: string)
    requires s == first + more && next <= more
    ensures first + next <= s && s[|first + next|..] == more[|next|..]
  {
    assert s == first + next + more[|next|..];
  }
}
