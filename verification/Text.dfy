/** The string operations every file format of the panel is read and written with:
    whitespace stripping, first-occurrence splitting, lines, and numerals. */
module Text {

  datatype Option<+T> = None | Some(value: T)

  /** The characters that str.isspace, str.strip and the regular expression class \s agree on. */
  predicate IsSpace(c: char) {
    var n := c as int;
    || 9 <= n <= 13 || 28 <= n <= 32 || n == 0x85 || n == 0xA0 || n == 0x1680
    || 0x2000 <= n <= 0x200A || n == 0x2028 || n == 0x2029 || n == 0x202F || n == 0x205F || n == 0x3000
  }

  predicate AllSpace(s: string) {
    forall i :: 0 <= i < |s| ==> IsSpace(s[i])
  }

  function Lstrip(s: string): (r: string)
    ensures |r| <= |s|
    ensures r != "" ==> !IsSpace(r[0])
  {
    if s == "" || !IsSpace(s[0]) then s else Lstrip(s[1..])
  }

  function Rstrip(s: string): (r: string)
    ensures |r| <= |s|
    ensures r != "" ==> !IsSpace(r[|r| - 1])
    ensures r != "" ==> r[0] == s[0]
  {
    if s == "" || !IsSpace(s[|s| - 1]) then s else Rstrip(s[..|s| - 1])
  }

  /** No whitespace at either end: what strip() leaves alone. */
  predicate Trimmed(s: string) {
    s == "" || (!IsSpace(s[0]) && !IsSpace(s[|s| - 1]))
  }

  function Strip(s: string): (r: string)
    ensures Trimmed(r)
    ensures |r| <= |s|
  {
    Rstrip(Lstrip(s))
  }

  lemma {:induction false} LstripSuffix(s: string)
    ensures Lstrip(s) == s[|s| - |Lstrip(s)|..]
    ensures AllSpace(s[..|s| - |Lstrip(s)|])
  {
    if s != "" && IsSpace(s[0]) {
      LstripSuffix(s[1..]);
    }
  }

  lemma {:induction false} RstripPrefix(s: string)
    ensures Rstrip(s) == s[..|Rstrip(s)|]
    ensures AllSpace(s[|Rstrip(s)|..])
  {
    if s != "" && IsSpace(s[|s| - 1]) {
      var short := s[..|s| - 1];
      RstripPrefix(short);
      assert s[|Rstrip(s)|..] == short[|Rstrip(s)|..] + [s[|s| - 1]];
    }
  }

  /** strip() only ever drops characters. */
  lemma StripChars(s: string, c: char)
    requires c !in s
    ensures c !in Strip(s) && c !in Lstrip(s)
  {
    LstripSuffix(s);
    RstripPrefix(Lstrip(s));
  }

  lemma StripTrimmed(s: string)
    requires Trimmed(s)
    ensures Strip(s) == s && Lstrip(s) == s && Rstrip(s) == s
  {
  }

  lemma {:induction false} LstripPad(pad: string, s: string)
    requires AllSpace(pad)
    ensures Lstrip(pad + s) == Lstrip(s)
  {
    if pad != "" {
      assert (pad + s)[1..] == pad[1..] + s;
      LstripPad(pad[1..], s);
    } else {
      assert pad + s == s;
    }
  }

  lemma {:induction false} RstripPad(s: string, pad: string)
    requires AllSpace(pad)
    ensures Rstrip(s + pad) == Rstrip(s)
  {
    if pad != "" {
      var shorter := pad[..|pad| - 1];
      assert (s + pad)[..|s + pad| - 1] == s + shorter;
      RstripPad(s, shorter);
    } else {
      assert s + pad == s;
    }
  }

  /** Whitespace around a trimmed value is exactly what strip() removes. */
  lemma StripPad(before: string, s: string, after: string)
    requires AllSpace(before) && AllSpace(after) && Trimmed(s)
    ensures Strip(before + s + after) == s
  {
    if s == "" {
      assert before + s + after == before + after;
      LstripPad(before, after);
      LstripPad(after, "");
      assert after + "" == after;
    } else {
      assert before + s + after == before + (s + after);
      LstripPad(before, s + after);
      assert (s + after)[0] == s[0];
      RstripPad(s, after);
    }
  }

  /** A string stripped to nothing held nothing but whitespace, and the other way round. */
  lemma {:induction false} StripEmpty(s: string)
    ensures Strip(s) == "" <==> AllSpace(s)
    ensures Lstrip(s) == "" <==> AllSpace(s)
  {
    if AllSpace(s) {
      LstripPad(s, "");
      assert s + "" == s;
    } else {
      var i :| 0 <= i < |s| && !IsSpace(s[i]);
      LstripKeeps(s, i);
      var l := Lstrip(s);
      if Rstrip(l) == "" {
        RstripKeeps(l, 0);
        assert false;
      }
    }
  }

  lemma {:induction false} LstripKeeps(s: string, i: nat)
    requires i < |s| && !IsSpace(s[i])
    ensures Lstrip(s) != ""
  {
    if IsSpace(s[0]) {
      LstripKeeps(s[1..], i - 1);
    }
  }

  lemma {:induction false} RstripKeeps(s: string, i: nat)
    requires i < |s| && !IsSpace(s[i])
    ensures i < |Rstrip(s)|
  {
    if IsSpace(s[|s| - 1]) {
      RstripKeeps(s[..|s| - 1], i);
    }
  }

  lemma StripKeepsFirst(s: string)
    requires s != "" && !IsSpace(s[0])
    ensures Lstrip(s) == s && Strip(s) != "" && Strip(s)[0] == s[0]
  {
    RstripKeeps(s, 0);
  }

  /** Position of the first c in s, or |s| when there is none. */
  function IndexOf(s: string, c: char): (i: nat)
    ensures i <= |s|
    ensures i < |s| ==> s[i] == c
    ensures forall j :: 0 <= j < i ==> s[j] != c
  {
    if s == "" || s[0] == c then 0 else 1 + IndexOf(s[1..], c)
  }

  lemma IndexOfAfter(before: string, c: char, after: string)
    requires c !in before
    ensures IndexOf(before + [c] + after, c) == |before|
  {
    var s := before + [c] + after;
    assert s[|before|] == c;
    assert forall j :: 0 <= j < |before| ==> s[j] == before[j] && before[j] in before;
  }

  /** str.partition around a separator the first part does not hold. */
  lemma PartitionAt(s: string, before: string, c: char, after: string)
    requires s == before + [c] + after && c !in before
    ensures IndexOf(s, c) == |before| && s[..|before|] == before && s[|before| + 1..] == after
  {
    IndexOfAfter(before, c, after);
  }

  lemma IndexOfNone(s: string, c: char)
    requires c !in s
    ensures IndexOf(s, c) == |s|
  {
  }

  /** str.split(c): the pieces between every occurrence of c. */
  function SplitOn(s: string, c: char): (parts: seq<string>)
    ensures |parts| >= 1
    ensures forall p :: p in parts ==> c !in p
    decreases |s|
  {
    var i := IndexOf(s, c);
    assert s[..i] == s || i < |s|;
    if i == |s| then [s] else [s[..i]] + SplitOn(s[i + 1..], c)
  }

  lemma SplitOnStep(piece: string, c: char, rest: string)
    requires c !in piece
    ensures SplitOn(piece + [c] + rest, c) == [piece] + SplitOn(rest, c)
  {
    var s := piece + [c] + rest;
    IndexOfAfter(piece, c, rest);
    assert s[..|piece|] == piece;
    assert s[|piece| + 1..] == rest;
  }

  lemma SplitOnWhole(piece: string, c: char)
    requires c !in piece
    ensures SplitOn(piece, c) == [piece]
  {
    IndexOfNone(piece, c);
  }

  /** Every line followed by a line feed: what the writers put on disk. */
  function Unlines(lines: seq<string>): string {
    if lines == [] then "" else lines[0] + "\n" + Unlines(lines[1..])
  }

  /** "\n".join(lines), as the renderers call it. */
  function JoinLines(lines: seq<string>): string {
    if lines == [] then "" else if |lines| == 1 then lines[0] else lines[0] + "\n" + JoinLines(lines[1..])
  }

  lemma {:induction false} JoinIsUnlines(lines: seq<string>)
    requires lines != []
    ensures JoinLines(lines) + "\n" == Unlines(lines)
  {
    if |lines| == 1 {
      assert Unlines(lines[1..]) == "";
    } else {
      JoinIsUnlines(lines[1..]);
      assert JoinLines(lines) + "\n" == lines[0] + "\n" + (JoinLines(lines[1..]) + "\n");
    }
  }

  lemma {:induction false} UnlinesAppend(a: seq<string>, b: seq<string>)
    ensures Unlines(a + b) == Unlines(a) + Unlines(b)
  {
    if a == [] {
      assert a + b == b;
    } else {
      assert (a + b)[1..] == a[1..] + b;
      UnlinesAppend(a[1..], b);
      assert Unlines(a + b) == a[0] + "\n" + (Unlines(a[1..]) + Unlines(b));
    }
  }

  /** text.split("\n") without the empty piece that the last line feed leaves behind. */
  function SplitLines(text: string): (lines: seq<string>)
    ensures forall l :: l in lines ==> '\n' !in l
  {
    var parts := SplitOn(text, '\n');
    if parts[|parts| - 1] == "" then parts[..|parts| - 1] else parts
  }

  predicate NoBreaks(lines: seq<string>) {
    forall l :: l in lines ==> '\n' !in l
  }

  lemma {:induction false} SplitUnlines(lines: seq<string>)
    requires NoBreaks(lines)
    ensures SplitOn(Unlines(lines), '\n') == lines + [""]
  {
    if lines == [] {
      assert SplitOn("", '\n') == [""];
    } else {
      assert NoBreaks(lines[1..]);
      SplitUnlines(lines[1..]);
      assert Unlines(lines) == lines[0] + ['\n'] + Unlines(lines[1..]);
      SplitOnStep(lines[0], '\n', Unlines(lines[1..]));
      assert lines + [""] == [lines[0]] + (lines[1..] + [""]);
    }
  }

  /** What was written line by line is read back line by line. */
  lemma LinesRoundTrip(lines: seq<string>)
    requires NoBreaks(lines)
    ensures SplitLines(Unlines(lines)) == lines
  {
    SplitUnlines(lines);
    assert (lines + [""])[..|lines|] == lines;
  }

  /** The ASCII part of str.casefold. */
  function FoldChar(c: char): char {
    if 'A' <= c <= 'Z' then (c as int + 32) as char else c
  }

  function Fold(s: string): (r: string)
    ensures |r| == |s|
  {
    seq(|s|, i requires 0 <= i < |s| => FoldChar(s[i]))
  }

  /** Whether needle occurs in s, as Python's `in` on strings. */
  predicate Contains(s: string, needle: string) {
    exists i :: 0 <= i <= |s| - |needle| && OccursAt(s, needle, i)
  }

  predicate OccursAt(s: string, needle: string, i: nat)
    requires i <= |s| - |needle|
  {
    s[i..i + |needle|] == needle
  }

  // ------------------------------------------------------------------ numerals

  predicate IsBase(b: int) {
    b == 10 || b == 16
  }

  function DigitChar(d: nat): (c: char)
    requires d < 16
    ensures DigitVal(c) == d
  {
    if d < 10 then ('0' as int + d) as char else ('a' as int + d - 10) as char
  }

  /** The value of a digit in either spelling, or 16 for anything that is not a hexadecimal digit. */
  function DigitVal(c: char): (d: nat)
    ensures d <= 16
  {
    if '0' <= c <= '9' then c as int - '0' as int
    else if 'a' <= c <= 'f' then c as int - 'a' as int + 10
    else if 'A' <= c <= 'F' then c as int - 'A' as int + 10
    else 16
  }

  predicate AllDigits(s: string, b: int)
    requires IsBase(b)
  {
    forall i :: 0 <= i < |s| ==> DigitVal(s[i]) < b
  }

  function ValueOf(s: string, b: int): nat
    requires IsBase(b) && AllDigits(s, b)
  {
    if s == "" then 0 else ValueOf(s[..|s| - 1], b) * b + DigitVal(s[|s| - 1])
  }

  /** The numeral of n without leading zeros. */
  function Show(n: nat, b: int): (s: string)
    requires IsBase(b)
    ensures s != "" && AllDigits(s, b) && ValueOf(s, b) == n
    ensures forall c :: c in s ==> '0' <= c <= '9' || 'a' <= c <= 'f'
    ensures b == 10 ==> forall c :: c in s ==> '0' <= c <= '9'
  {
    if n < b then
      assert ValueOf([DigitChar(n)][..0], b) == 0;
      [DigitChar(n)]
    else
      var front := Show(n / b, b);
      var s := front + [DigitChar(n % b)];
      assert s[..|s| - 1] == front;
      s
  }

  function ShowInt(n: int): string {
    if n < 0 then "-" + Show(-n, 10) else Show(n, 10)
  }

  lemma ShowInjective(m: nat, n: nat, b: int)
    requires IsBase(b)
    requires Show(m, b) == Show(n, b)
    ensures m == n
  {
    assert ValueOf(Show(m, b), b) == ValueOf(Show(n, b), b);
  }
}
