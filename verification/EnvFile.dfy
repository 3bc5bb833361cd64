/** clients.env: shell assignments read without a shell, and rewritten without losing anything. */
module EnvFile {
  import opened Text

  // --- bash words

  predicate IsBlank(c: char) {
    c == ' ' || c == '\t'
  }

  /** Characters bash still interprets inside double quotes. */
  predicate Escaped(c: char) {
    c == '\\' || c == '"' || c == '$' || c == '`'
  }

  datatype Scan = Unread | Word(value: string, used: nat)

  function Before(c: char, rest: Scan, skipped: nat): Scan {
    if rest.Unread? then Unread else Word([c] + rest.value, skipped + rest.used)
  }

  /** After an opening double quote, up to and with the closing one. */
  function ScanDouble(s: string): (r: Scan)
    ensures r.Word? ==> r.used <= |s|
  {
    if s == "" then Unread
    else if s[0] == '"' then Word("", 1)
    else if s[0] == '\\' && |s| > 1 && Escaped(s[1]) then Before(s[1], ScanDouble(s[2..]), 2)
    else Before(s[0], ScanDouble(s[1..]), 1)
  }

  function ScanSingle(s: string): (r: Scan)
    ensures r.Word? ==> r.used <= |s|
  {
    if s == "" then Unread
    else if s[0] == '\'' then Word("", 1)
    else Before(s[0], ScanSingle(s[1..]), 1)
  }

  function Then(first: Scan, rest: Scan): Scan {
    if first.Unread? || rest.Unread? then Unread else Word(first.value + rest.value, first.used + rest.used)
  }

  /** One bash word unquoted, and how much of the text it took; Unread when a quote does not close on
      the line or a backslash ends it. */
  function ScanWord(s: string): (r: Scan)
    ensures r.Word? ==> r.used <= |s|
    decreases |s|
  {
    if s == "" || IsBlank(s[0]) then Word("", 0)
    else if s[0] == '"' || s[0] == '\'' then
      var part := if s[0] == '"' then ScanDouble(s[1..]) else ScanSingle(s[1..]);
      if part.Unread? then Unread
      else Then(Word(part.value, 1 + part.used), ScanWord(s[1 + part.used..]))
    else if s[0] == '\\' then
      if |s| == 1 then Unread else Before(s[1], ScanWord(s[2..]), 2)
    else Before(s[0], ScanWord(s[1..]), 1)
  }

  /** str.replace(c, "\\" + c). */
  function Replace(s: string, c: char): string {
    if s == "" then "" else (if s[0] == c then ['\\', c] else [s[0]]) + Replace(s[1..], c)
  }

  /** clientsenv.quote: the four characters escaped one after the other. */
  function Quote(value: string): string {
    "\"" + Replace(Replace(Replace(Replace(value, '\\'), '"'), '$'), '`') + "\""
  }

  function Escape(s: string): string {
    if s == "" then "" else (if Escaped(s[0]) then ['\\', s[0]] else [s[0]]) + Escape(s[1..])
  }

  lemma {:induction false} ReplaceJoin(a: string, b: string, c: char)
    ensures Replace(a + b, c) == Replace(a, c) + Replace(b, c)
  {
    if a == "" {
      assert a + b == b;
    } else {
      assert (a + b)[1..] == a[1..] + b;
      ReplaceJoin(a[1..], b, c);
    }
  }

  lemma ReplaceOne(c: char, d: char)
    ensures Replace([c], d) == if c == d then ['\\', d] else [c]
  {
    assert [c][1..] == "";
  }

  lemma ReplacePair(c: char, d: char)
    requires d != '\\'
    ensures Replace(['\\', c], d) == ['\\'] + if c == d then ['\\', d] else [c]
  {
    assert ['\\', c] == ['\\'] + [c];
    ReplaceJoin(['\\'], [c], d);
    ReplaceOne('\\', d);
    ReplaceOne(c, d);
  }

  function EscapeChar(c: char): string {
    if Escaped(c) then ['\\', c] else [c]
  }

  function FourTimes(s: string): string {
    Replace(Replace(Replace(Replace(s, '\\'), '"'), '$'), '`')
  }

  lemma FourTimesOne(c: char)
    ensures FourTimes([c]) == EscapeChar(c)
  {
    ReplaceOne(c, '\\');
    if c == '\\' {
      ReplacePair(c, '"');
      ReplacePair(c, '$');
      ReplacePair(c, '`');
    } else {
      ReplaceOne(c, '"');
      if c == '"' {
        ReplacePair(c, '$');
        ReplacePair(c, '`');
      } else {
        ReplaceOne(c, '$');
        if c == '$' {
          ReplacePair(c, '`');
        } else {
          ReplaceOne(c, '`');
        }
      }
    }
  }

  lemma FourTimesJoin(a: string, b: string)
    ensures FourTimes(a + b) == FourTimes(a) + FourTimes(b)
  {
    ReplaceJoin(a, b, '\\');
    ReplaceJoin(Replace(a, '\\'), Replace(b, '\\'), '"');
    ReplaceJoin(Replace(Replace(a, '\\'), '"'), Replace(Replace(b, '\\'), '"'), '$');
    ReplaceJoin(Replace(Replace(Replace(a, '\\'), '"'), '$'), Replace(Replace(Replace(b, '\\'), '"'), '$'), '`');
  }

  /** The backslash is replaced first, so no escape is escaped again: replacing four times over is
      escaping each character once. */
  lemma {:induction false} FourTimesIsOnce(s: string)
    ensures FourTimes(s) == Escape(s)
  {
    hide FourTimes;
    if s == "" {
      FourTimesEmpty();
    } else {
      assert s == [s[0]] + s[1..];
      FourTimesJoin([s[0]], s[1..]);
      FourTimesOne(s[0]);
      FourTimesIsOnce(s[1..]);
    }
  }

  lemma FourTimesEmpty()
    ensures FourTimes("") == ""
  {
  }

  lemma {:induction false} ScanEscape(v: string, rest: string)
    ensures ScanDouble(Escape(v) + "\"" + rest) == Word(v, |Escape(v)| + 1)
  {
    var text := Escape(v) + "\"" + rest;
    if v == "" {
      assert text[0] == '"';
    } else {
      ScanEscape(v[1..], rest);
      var more := Escape(v[1..]) + "\"" + rest;
      assert v == [v[0]] + v[1..];
      if Escaped(v[0]) {
        assert text == ['\\', v[0]] + more;
        assert text[2..] == more;
      } else {
        assert text == [v[0]] + more;
        assert text[1..] == more;
      }
    }
  }

  /** Quoting a value and scanning it back gives the value, whatever characters it has, if a blank or
      the end of the line follows. */
  lemma ScanQuote(v: string, rest: string)
    requires rest == "" || IsBlank(rest[0])
    ensures ScanWord(Quote(v) + rest) == Word(v, |Quote(v)|)
  {
    hide ScanDouble, Escape;
    FourTimesIsOnce(v);
    ScanEscape(v, rest);
    var text := Quote(v) + rest;
    assert text[0] == '"' && text[1..] == Escape(v) + "\"" + rest;
    assert text[1 + (|Escape(v)| + 1)..] == rest;
    assert ScanWord(rest) == Word("", 0);
    assert v + "" == v;
  }

  // --- one line

  /** Length of the longest run of blanks the text starts with. */
  function Blanks(s: string): (n: nat)
    ensures n <= |s|
    ensures n < |s| ==> !IsBlank(s[n])
    ensures forall i :: 0 <= i < n ==> IsBlank(s[i])
  {
    if s == "" || !IsBlank(s[0]) then 0 else 1 + Blanks(s[1..])
  }

  predicate IsWordChar(c: char) {
    'A' <= c <= 'Z' || 'a' <= c <= 'z' || '0' <= c <= '9' || c == '_'
  }

  function WordChars(s: string): (n: nat)
    ensures n <= |s|
    ensures n < |s| ==> !IsWordChar(s[n])
    ensures forall i :: 0 <= i < n ==> IsWordChar(s[i])
  {
    if s == "" || !IsWordChar(s[0]) then 0 else 1 + WordChars(s[1..])
  }

  predicate IsName(s: string) {
    s != "" && !('0' <= s[0] <= '9') && forall i :: 0 <= i < |s| ==> IsWordChar(s[i])
  }

  const EXPORT := "export"

  predicate StartsExport(s: string) {
    |s| > 6 && s[..6] == EXPORT && IsBlank(s[6])
  }

  /** "export" and the blanks after it, or nothing. */
  function Exports(s: string): (n: nat)
    ensures n <= |s|
  {
    if StartsExport(s) then 6 + Blanks(s[6..]) else 0
  }

  /** NAME= at the start. */
  function NameAt(s: string): (key: Option<string>)
    ensures key.Some? ==> IsName(key.value) && |key.value| < |s| && s[..|key.value|] == key.value && s[|key.value|] == '='
  {
    var n := WordChars(s);
    if n > 0 && !('0' <= s[0] <= '9') && n < |s| && s[n] == '=' then Some(s[..n]) else None
  }

  datatype Assigns = NotAssign | Assign(key: string, end: nat)

  function Shift(m: Assigns, n: nat): Assigns {
    if m.NotAssign? then m else Assign(m.key, n + m.end)
  }

  function MatchName(s: string): (m: Assigns)
    ensures m.Assign? ==> 0 < m.end <= |s| && IsName(m.key) && m.end == |m.key| + 1 && s[..m.end] == m.key + "="
  {
    match NameAt(s)
    case Some(key) =>
      assert s[..|key| + 1] == s[..|key|] + [s[|key|]];
      Assign(key, |key| + 1)
    case None => NotAssign
  }

  function MatchExport(s: string): (m: Assigns)
    ensures m.Assign? ==> 0 < m.end <= |s| && IsName(m.key)
  {
    Shift(MatchName(s[Exports(s)..]), Exports(s))
  }

  /** Blanks, an optional export, NAME=. */
  function MatchAssign(s: string): (m: Assigns)
    ensures m.Assign? ==> 0 < m.end <= |s| && IsName(m.key)
  {
    Shift(MatchExport(s[Blanks(s)..]), Blanks(s))
  }

  datatype Line =
    | Other(text: string)
    | Setting(text: string, key: string, value: string, prefix: string, trailer: string, comment: string, column: nat)

  /** clientsenv._parse_line; the column is that of the comment's '#', when there is a comment. */
  function ParseLine(s: string): (p: Line)
    ensures p.text == s
  {
    match MatchAssign(s)
    case NotAssign => Other(s)
    case Assign(key, end) =>
      match ScanWord(s[end..])
      case Unread => Other(s)
      case Word(value, used) =>
        var stop := end + used;
        var trailer := s[stop..];
        var stripped := Strip(trailer);
        if stripped != "" && stripped[0] != '#' then Other(s)
        else
          var column := if stripped == "" then 0 else stop + IndexOf(trailer, '#');
          Setting(s, key, value, s[..end], trailer, if stripped == "" then "" else s[column..], column)
  }

  function Spaces(n: nat): (s: string)
    ensures |s| == n && forall i :: 0 <= i < n ==> s[i] == ' '
  {
    seq(n, i => ' ')
  }

  /** clientsenv._render. */
  function Render(p: Line, value: string): string
    requires p.Setting?
  {
    var body := p.prefix + Quote(value);
    if p.comment == "" then body + p.trailer
    else body + Spaces(if p.column > |body| then p.column - |body| else 1) + p.comment
  }

  // --- what a rewritten line reads as

  predicate AllBlank(s: string) {
    forall i :: 0 <= i < |s| ==> IsBlank(s[i])
  }

  lemma {:induction false} BlanksAre(pad: string, rest: string)
    requires AllBlank(pad) && (rest == "" || !IsBlank(rest[0]))
    ensures Blanks(pad + rest) == |pad|
  {
    if pad == "" {
      assert pad + rest == rest;
    } else {
      assert (pad + rest)[1..] == pad[1..] + rest;
      BlanksAre(pad[1..], rest);
    }
  }

  lemma WordCharsAre(s: string, n: nat)
    requires n < |s| && !IsWordChar(s[n]) && forall i :: 0 <= i < n ==> IsWordChar(s[i])
    ensures WordChars(s) == n
  {
  }

  /** Up to and with the '=', the name decides. */
  lemma NameDecides(key: string, x: string)
    requires IsName(key)
    ensures MatchName(key + "=" + x) == Assign(key, |key| + 1)
  {
    var s := key + "=" + x;
    assert s[|key|] == '=';
    assert forall i :: 0 <= i < |key| ==> s[i] == key[i];
    WordCharsAre(s, |key|);
    assert s[..|key|] == key;
  }

  lemma NameIsNotExport(key: string, x: string)
    requires IsName(key)
    ensures !StartsExport(key + "=" + x)
  {
    var s := key + "=" + x;
    assert s[|key|] == '=';
    assert forall i :: 0 <= i < 6 ==> EXPORT[i] != '=';
    assert |key| < 6 && |s| > 6 ==> s[..6][|key|] == '=';
    assert |key| > 6 ==> s[6] == key[6];
  }

  predicate IsExport(e: string) {
    e == "" || (|e| > 6 && e[..6] == EXPORT && AllBlank(e[6..]))
  }

  lemma ExportsAre(e: string, key: string, x: string)
    requires IsExport(e) && IsName(key)
    ensures Exports(e + (key + "=" + x)) == |e|
  {
    var rest := key + "=" + x;
    var s := e + rest;
    if e == "" {
      assert s == rest;
      NameIsNotExport(key, x);
    } else {
      assert s[..6] == e[..6] && s[6] == e[6] == e[6..][0];
      assert s[6..] == e[6..] + rest;
      BlanksAre(e[6..], rest);
    }
  }

  lemma ExportPiece(s: string)
    ensures IsExport(s[..Exports(s)])
  {
    if StartsExport(s) {
      var e := s[..Exports(s)];
      assert Blanks(s[6..]) > 0;
      assert e[..6] == s[..6];
      assert e[6..] == s[6..][..Blanks(s[6..])];
    }
  }

  lemma Cut<T>(s: seq<T>, n: nat, k: nat, x: seq<T>)
    requires n + k <= |s|
    ensures s[..n + k] + x == s[..n] + (s[n..][..k] + x)
    ensures (s[..n] + (s[n..][..k] + x))[n..] == s[n..][..k] + x
  {
  }

  lemma ExportDecides(s: string, x: string)
    requires MatchExport(s).Assign?
    ensures MatchExport(s[..MatchExport(s).end] + x) == MatchExport(s)
    ensures !IsBlank(s[0])
  {
    hide MatchName, Exports, IsExport, IsName;
    var n := Exports(s);
    var m := MatchName(s[n..]);
    ExportPiece(s);
    Cut(s, n, m.end, x);
    ExportsAre(s[..n], m.key, x);
    NameDecides(m.key, x);
    NotBlankFirst(s, n, m.key);
  }

  lemma NotBlankFirst(s: string, n: nat, key: string)
    requires n <= |s| && IsExport(s[..n]) && IsName(key) && |key| < |s| - n && s[n..][..|key| + 1] == key + "="
    ensures !IsBlank(s[0])
  {
    if n > 0 {
      assert s[0] == s[..n][..6][0] == EXPORT[0];
    } else {
      assert s[0] == s[n..][..|key| + 1][0] == key[0];
    }
  }

  lemma BlankPiece(s: string)
    ensures AllBlank(s[..Blanks(s)])
  {
  }

  /** Everything up to and with the '=' decides what is assigned to. */
  lemma MatchPrefix(s: string, x: string)
    requires MatchAssign(s).Assign?
    ensures MatchAssign(s[..MatchAssign(s).end] + x) == MatchAssign(s)
  {
    hide MatchExport, Blanks, AllBlank;
    var n := Blanks(s);
    var m := MatchExport(s[n..]);
    BlankPiece(s);
    Cut(s, n, m.end, x);
    ExportDecides(s[n..], x);
    assert (s[n..][..m.end] + x)[0] == s[n..][0];
    BlanksAre(s[..n], s[n..][..m.end] + x);
  }

  // --- a line parsed and rendered

  lemma {:induction false} ScanStops(s: string)
    ensures var r := ScanWord(s); r.Word? ==> r.used <= |s| && (r.used == |s| || IsBlank(s[r.used]))
    decreases |s|
  {
    hide ScanDouble, ScanSingle;
    if s == "" || IsBlank(s[0]) {
    } else if s[0] == '"' || s[0] == '\'' {
      var part := if s[0] == '"' then ScanDouble(s[1..]) else ScanSingle(s[1..]);
      if part.Word? {
        ScanStops(s[1 + part.used..]);
        Suffix(s, 1 + part.used);
      }
    } else if s[0] == '\\' {
      if |s| > 1 {
        ScanStops(s[2..]);
        Suffix(s, 2);
      }
    } else {
      ScanStops(s[1..]);
      Suffix(s, 1);
    }
  }

  lemma Suffix<T>(s: seq<T>, n: nat)
    requires n <= |s|
    ensures forall k :: 0 <= k < |s| - n ==> s[n..][k] == s[n + k]
  {
  }

  /** What ParseLine found in a line that assigns. */
  lemma ParsedSays(s: string)
    ensures var p := ParseLine(s);
            p.Setting? ==>
              && MatchAssign(s) == Assign(p.key, |p.prefix|) && p.prefix == s[..|p.prefix|] && |p.prefix| <= |s|
              && |p.trailer| <= |s| && p.trailer == s[|s| - |p.trailer|..]
              && (p.trailer == "" || IsBlank(p.trailer[0]))
              && HasComment(p, s)
  {
    hide ScanWord, MatchAssign, Strip, HasComment;
    var m := MatchAssign(s);
    if m.Assign? && ScanWord(s[m.end..]).Word? {
      ScanStops(s[m.end..]);
      var used := ScanWord(s[m.end..]).used;
      var stop := m.end + used;
      assert used < |s[m.end..]| ==> s[m.end..][used] == s[stop];
      if ParseLine(s).Setting? {
        CommentSays(s, stop, ParseLine(s));
      }
    }
  }

  /** The comment is the text from the first '#' after the value on, and only whitespace is before
      it; without one the rest of the line is whitespace. */
  predicate HasComment(p: Line, s: string)
    requires p.Setting? && |p.trailer| <= |s|
  {
    && (p.comment == "" <==> AllSpace(p.trailer))
    && (p.comment != "" ==>
          && p.comment[0] == '#' && |s| - |p.trailer| <= p.column < |s| && p.comment == s[p.column..]
          && AllSpace(s[|s| - |p.trailer|..p.column]))
  }

  lemma CommentSays(s: string, stop: nat, p: Line)
    requires stop <= |s| && p.Setting? && p.trailer == s[stop..]
    requires Strip(p.trailer) != "" ==> Strip(p.trailer)[0] == '#'
    requires p.column == (if Strip(p.trailer) == "" then 0 else stop + IndexOf(p.trailer, '#'))
    requires p.comment == (if Strip(p.trailer) == "" || p.column > |s| then "" else s[p.column..])
    ensures HasComment(p, s)
  {
    hide Strip, IndexOf;
    StripEmpty(p.trailer);
    if Strip(p.trailer) != "" {
      CommentAt(p.trailer);
      var h := IndexOf(p.trailer, '#');
      assert s[stop + h] == p.trailer[h] == '#';
      assert s[stop..stop + h] == p.trailer[..h];
    }
  }

  /** When what is left starts with '#' once stripped, the first '#' has only whitespace before it. */
  lemma CommentAt(s: string)
    requires Strip(s) != "" && Strip(s)[0] == '#'
    ensures IndexOf(s, '#') < |s| && AllSpace(s[..IndexOf(s, '#')])
  {
    LstripSuffix(s);
    var l := Lstrip(s);
    var n := |s| - |l|;
    assert l[0] == '#';
    assert s[n] == l[0];
    assert forall i :: 0 <= i < n ==> IsSpace(s[..n][i]) && s[..n][i] == s[i];
    IndexIs(s, '#', n);
  }

  lemma IndexIs(s: string, c: char, n: nat)
    requires n < |s| && s[n] == c && forall i :: 0 <= i < n ==> s[i] != c
    ensures IndexOf(s, c) == n
  {
  }

  /** The value put in place of the old one reads back as itself; the key, the prefix and the comment
      are as they were, and the comment starts where it did or one space after a value that grew past
      it. */
  lemma RenderSays(s: string, v: string)
    requires ParseLine(s).Setting?
    ensures var p := ParseLine(s); var q := ParseLine(Render(p, v));
            && q.Setting? && q.key == p.key && q.value == v && q.prefix == p.prefix && q.comment == p.comment
            && (p.comment == "" ==> q.trailer == p.trailer)
            && (p.comment != "" ==> q.column == ColumnAfter(p, v))
  {
    hide ScanWord, MatchAssign, Quote, ParseLine, HasComment, Render;
    ParsedSays(s);
    if ParseLine(s).comment == "" {
      RenderBare(s, v, ParseLine(s));
    } else {
      RenderCommented(s, v, ParseLine(s));
    }
  }

  lemma RenderBare(s: string, v: string, p: Line)
    requires p.Setting? && MatchAssign(s) == Assign(p.key, |p.prefix|) && |p.trailer| <= |s| && p.prefix == s[..|p.prefix|]
    requires p.trailer == "" || IsBlank(p.trailer[0])
    requires p.comment == "" && HasComment(p, s)
    ensures var line := Render(p, v); ParseLine(line) == Setting(line, p.key, v, p.prefix, p.trailer, "", 0)
  {
    hide ScanWord, MatchAssign, Quote, ParseLine, HasComment, Strip, IndexOf;
    BareTrailer(s, p);
    ReadsAs(s, v, p.trailer, "", 0);
    Regroup(p.prefix, Quote(v), p.trailer);
  }

  lemma Regroup<T>(a: seq<T>, b: seq<T>, c: seq<T>)
    ensures a + b + c == a + (b + c)
  {
  }

  function ColumnAfter(p: Line, v: string): (n: nat)
    requires p.Setting?
    ensures n > |p.prefix| + |Quote(v)|
  {
    var body := |p.prefix| + |Quote(v)|;
    if p.column > body then p.column else body + 1
  }

  lemma RenderCommented(s: string, v: string, p: Line)
    requires p.Setting? && MatchAssign(s) == Assign(p.key, |p.prefix|) && |p.trailer| <= |s| && p.prefix == s[..|p.prefix|]
    requires p.comment != "" && HasComment(p, s)
    ensures var line := Render(p, v); var q := ParseLine(line);
            && q.Setting? && q.key == p.key && q.value == v && q.prefix == p.prefix && q.comment == p.comment
            && q.column == ColumnAfter(p, v)
  {
    hide ScanWord, MatchAssign, Quote, ParseLine, HasComment, Strip, IndexOf;
    var gap := ColumnAfter(p, v) - (|p.prefix| + |Quote(v)|);
    var rest := Spaces(gap) + p.comment;
    CommentShape(s, p);
    SpacedComment(gap, p.comment);
    assert rest[gap..] == p.comment;
    assert rest[0] == Spaces(gap)[0];
    ReadsAs(s, v, rest, p.comment, ColumnAfter(p, v));
    Regroup(p.prefix + Quote(v), Spaces(gap), p.comment);
    Regroup(p.prefix, Quote(v), rest);
  }

  lemma BareTrailer(s: string, p: Line)
    requires p.Setting? && |p.trailer| <= |s| && HasComment(p, s) && p.comment == ""
    ensures Strip(p.trailer) == ""
  {
    StripEmpty(p.trailer);
  }

  lemma CommentShape(s: string, p: Line)
    requires p.Setting? && |p.trailer| <= |s| && HasComment(p, s) && p.comment != ""
    ensures p.comment[0] == '#'
  {
  }

  lemma SpacedComment(gap: nat, comment: string)
    requires comment != "" && comment[0] == '#'
    ensures var rest := Spaces(gap) + comment;
            Strip(rest) != "" && Strip(rest)[0] == '#' && IndexOf(rest, '#') == gap
  {
    var rest := Spaces(gap) + comment;
    LstripPad(Spaces(gap), comment);
    StripKeepsFirst(comment);
    IndexIs(rest, '#', gap);
  }

  /** A prefix, a quoted value and a well-formed remainder, parsed. */
  lemma ReadsAs(s: string, v: string, rest: string, comment: string, column: nat)
    requires MatchAssign(s).Assign? && (rest == "" || IsBlank(rest[0]))
    requires var n := MatchAssign(s).end + |Quote(v)|;
             if Strip(rest) == "" then comment == "" && column == 0
             else Strip(rest)[0] == '#' && IndexOf(rest, '#') <= |rest| && column == n + IndexOf(rest, '#')
                  && comment == rest[IndexOf(rest, '#')..]
    ensures var m := MatchAssign(s); var line := s[..m.end] + (Quote(v) + rest);
            ParseLine(line) == Setting(line, m.key, v, s[..m.end], rest, comment, column)
  {
    hide ScanWord, MatchAssign, Quote, Strip, IndexOf;
    var m := MatchAssign(s);
    var prefix := s[..m.end];
    var line := prefix + (Quote(v) + rest);
    MatchPrefix(s, Quote(v) + rest);
    ScanQuote(v, rest);
    assert line[m.end..] == Quote(v) + rest;
    assert line[..m.end] == prefix;
    assert line[m.end + |Quote(v)|..] == rest;
    if Strip(rest) != "" {
      assert line[column..] == comment;
    }
  }
}
