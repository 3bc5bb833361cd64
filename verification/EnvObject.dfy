/** The rewriter as it runs: an index moving over a word, and lines overwritten one by one. */
module EnvObject {
  import opened Text
  import opened EnvFile
  import opened EnvUpdate

  /** What is left of the text from an index on, put behind what has been read. */
  function Resume(out: string, at: nat, rest: Scan): Scan {
    if rest.Unread? then Unread else Word(out + rest.value, at + rest.used)
  }

  lemma ResumeOne(out: string, at: nat, c: char, rest: Scan, skipped: nat)
    ensures Resume(out, at, Before(c, rest, skipped)) == Resume(out + [c], at + skipped, rest)
  {
    if rest.Word? {
      assert out + ([c] + rest.value) == out + [c] + rest.value;
    }
  }

  lemma Tail<T>(s: seq<T>, i: nat, k: nat)
    requires i + k <= |s|
    ensures s[i..][k..] == s[i + k..]
  {
  }

  lemma ResumeNothing(r: Scan)
    ensures Resume("", 0, r) == r
  {
    if r.Word? {
      assert "" + r.value == r.value;
    }
  }

  lemma DoubleStep(s: string)
    ensures s == "" ==> ScanDouble(s) == Unread
    ensures s != "" && s[0] == '"' ==> ScanDouble(s) == Word("", 1)
    ensures s != "" && s[0] != '"' ==>
      ScanDouble(s) == if s[0] == '\\' && |s| > 1 && Escaped(s[1]) then Before(s[1], ScanDouble(s[2..]), 2)
                       else Before(s[0], ScanDouble(s[1..]), 1)
  {
  }

  /** Inside double quotes, from index i on: up to and with the closing one. */
  method ScanDoubleLoop(text: string, start: nat) returns (found: Option<string>, i: nat)
    requires start <= |text|
    ensures start <= i <= |text|
    ensures ScanDouble(text[start..]) == if found.None? then Unread else Word(found.value, i - start)
  {
    hide ScanDouble, Before;
    var out := "";
    i := start;
    ResumeNothing(ScanDouble(text[start..]));
    while i < |text| && text[i] != '"'
      invariant start <= i <= |text|
      invariant ScanDouble(text[start..]) == Resume(out, i - start, ScanDouble(text[i..]))
    {
      DoubleStep(text[i..]);
      if text[i] == '\\' && i + 1 < |text| && Escaped(text[i + 1]) {
        Tail(text, i, 2);
        ResumeOne(out, i - start, text[i + 1], ScanDouble(text[i + 2..]), 2);
        out := out + [text[i + 1]];
        i := i + 2;
        continue;
      }
      Tail(text, i, 1);
      ResumeOne(out, i - start, text[i], ScanDouble(text[i + 1..]), 1);
      out := out + [text[i]];
      i := i + 1;
    }
    DoubleStep(text[i..]);
    if i >= |text| {
      found := None;
    } else {
      assert out + "" == out;
      found := Some(out);
      i := i + 1;
    }
  }

  method ScanSingleLoop(text: string, start: nat) returns (found: Option<string>, i: nat)
    requires start <= |text|
    ensures start <= i <= |text|
    ensures ScanSingle(text[start..]) == if found.None? then Unread else Word(found.value, i - start)
  {
    var out := "";
    i := start;
    while i < |text| && text[i] != '\''
      invariant start <= i <= |text|
      invariant ScanSingle(text[start..]) == Resume(out, i - start, ScanSingle(text[i..]))
    {
      ResumeOne(out, i - start, text[i], ScanSingle(text[i + 1..]), 1);
      Tail(text, i, 1);
      out := out + [text[i]];
      i := i + 1;
    }
    if i >= |text| {
      found := None;
    } else {
      assert out + "" == out;
      found := Some(out);
      i := i + 1;
    }
  }

  lemma ResumePart(out: string, at: nat, part: Scan, rest: Scan)
    requires part.Word?
    ensures Resume(out, at, Then(part, rest)) == Resume(out + part.value, at + part.used, rest)
  {
    if rest.Word? {
      assert out + (part.value + rest.value) == out + part.value + rest.value;
    }
  }

  method ScanQuoted(text: string, i: nat) returns (part: Scan)
    requires i < |text| && (text[i] == '"' || text[i] == '\'')
    ensures part.Word? ==> 0 < part.used <= |text| - i
    ensures var inner := if text[i] == '"' then ScanDouble(text[i + 1..]) else ScanSingle(text[i + 1..]);
            part == if inner.Unread? then Unread else Word(inner.value, 1 + inner.used)
  {
    hide ScanDouble, ScanSingle;
    var quoted: Option<string>;
    var next: nat;
    if text[i] == '"' {
      quoted, next := ScanDoubleLoop(text, i + 1);
    } else {
      quoted, next := ScanSingleLoop(text, i + 1);
    }
    part := if quoted.None? then Unread else Word(quoted.value, next - i);
  }

  /** How a word that does not end here goes on. */
  lemma QuotedStep(s: string)
    requires s != "" && (s[0] == '"' || s[0] == '\'')
    ensures var inner := if s[0] == '"' then ScanDouble(s[1..]) else ScanSingle(s[1..]);
            ScanWord(s) == if inner.Unread? then Unread
                           else Then(Word(inner.value, 1 + inner.used), ScanWord(s[1 + inner.used..]))
  {
    hide ScanDouble, ScanSingle;
  }

  lemma PlainStep(s: string)
    requires s != "" && !IsBlank(s[0]) && s[0] != '"' && s[0] != '\''
    ensures s[0] != '\\' ==> ScanWord(s) == Then(Word([s[0]], 1), ScanWord(s[1..]))
    ensures s[0] == '\\' && |s| == 1 ==> ScanWord(s) == Unread
    ensures s[0] == '\\' && |s| > 1 ==> ScanWord(s) == Then(Word([s[1]], 2), ScanWord(s[2..]))
  {
  }

  /** One quoted stretch, one escape or one plain character of a word. */
  method ScanPart(text: string, i: nat) returns (part: Scan)
    requires i < |text| && !IsBlank(text[i])
    ensures part.Unread? ==> ScanWord(text[i..]) == Unread
    ensures part.Word? ==> 0 < part.used <= |text| - i && ScanWord(text[i..]) == Then(part, ScanWord(text[i + part.used..]))
  {
    hide ScanDouble, ScanSingle, ScanWord, Then;
    var c := text[i];
    ghost var s := text[i..];
    Tail(text, i, 1);
    if c == '"' || c == '\'' {
      QuotedStep(s);
      part := ScanQuoted(text, i);
      if part.Word? {
        Tail(text, i, part.used);
      }
      return;
    }
    PlainStep(s);
    if c == '\\' {
      if i + 1 >= |text| {
        return Unread;
      }
      Tail(text, i, 2);
      return Word([text[i + 1]], 2);
    }
    return Word([c], 1);
  }

  /** clientsenv._scan_word: the value and how far it goes, or nothing. */
  method ScanWordLoop(text: string, start: nat) returns (r: Scan)
    requires start <= |text|
    ensures r == ScanWord(text[start..])
  {
    hide ScanWord, Then;
    var out := "";
    var i := start;
    ResumeNothing(ScanWord(text[start..]));
    while i < |text| && !IsBlank(text[i])
      invariant start <= i <= |text|
      invariant ScanWord(text[start..]) == Resume(out, i - start, ScanWord(text[i..]))
      decreases |text| - i
    {
      var part := ScanPart(text, i);
      if part.Unread? {
        return Unread;
      }
      ResumePart(out, i - start, part, ScanWord(text[i + part.used..]));
      out := out + part.value;
      i := i + part.used;
    }
    WordEnds(text[i..]);
    assert out + "" == out;
    r := Word(out, i - start);
  }

  lemma WordEnds(s: string)
    requires s == "" || IsBlank(s[0])
    ensures ScanWord(s) == Word("", 0)
  {
  }

  /** clientsenv.read_env. */
  method ReadEnvLoop(file: Option<string>) returns (values: Values)
    ensures values == ReadEnv(file)
  {
    hide Defaults, ParseLine, ReadText, Splitlines;
    values := Defaults();
    var lines := Splitlines(ReadText(file));
    for i := 0 to |lines|
      invariant values == ReadLines(Defaults(), lines[..i])
    {
      assert lines[..i + 1][..i] == lines[..i];
      var parsed := ParseLine(lines[i]);
      if parsed.Setting? {
        values := values[parsed.key := parsed.value];
      }
    }
    assert lines[..|lines|] == lines;
  }

  /** One source line, its text overwritten in place when it assigns a changed key. */
  class LineObject {
    const parsed: Line
    var text: string

    constructor (source: string)
      ensures parsed == ParseLine(source) && text == source
    {
      parsed, text := ParseLine(source), source;
    }
  }

  function Texts(lines: seq<LineObject>): (out: seq<string>)
    reads lines
    ensures |out| == |lines| && forall i :: 0 <= i < |lines| ==> out[i] == lines[i].text
  {
    seq(|lines|, i requires 0 <= i < |lines| reads lines => lines[i].text)
  }

  method ParseAll(sources: seq<string>) returns (lines: seq<LineObject>)
    ensures |lines| == |sources| && fresh(lines)
    ensures forall i :: 0 <= i < |lines| ==> lines[i].parsed == ParseLine(sources[i]) && lines[i].text == sources[i]
    ensures forall i, j :: 0 <= i < j < |lines| ==> lines[i] != lines[j]
  {
    hide ParseLine;
    lines := [];
    for i := 0 to |sources|
      modifies {}
      invariant |lines| == i && fresh(lines)
      invariant forall k :: 0 <= k < i ==> lines[k].parsed == ParseLine(sources[k]) && lines[k].text == sources[k]
      invariant forall j, k :: 0 <= j < k < i ==> lines[j] != lines[k]
    {
      var line := new LineObject(sources[i]);
      lines := lines + [line];
    }
  }

  /** The loop of update_env over the lines: which changed keys it has seen, and each line's new text. */
  method RewriteLines(lines: seq<LineObject>, sources: seq<string>, wanted: Values) returns (seen: set<string>)
    requires |lines| == |sources| && forall i, j :: 0 <= i < j < |lines| ==> lines[i] != lines[j]
    requires forall i :: 0 <= i < |lines| ==> lines[i].parsed == ParseLine(sources[i]) && lines[i].text == sources[i]
    modifies lines
    ensures Texts(lines) == RewriteAll(sources, wanted)
    ensures forall k :: k in wanted ==> (k in seen <==> Assigned(sources, k))
  {
    hide ParseLine, Render;
    seen := {};
    for i := 0 to |lines|
      invariant forall k :: 0 <= k < i ==> lines[k].text == Rewrite(sources[k], wanted)
      invariant forall k :: i <= k < |lines| ==> lines[k].text == sources[k]
      invariant forall k :: k in seen ==> exists j :: 0 <= j < i && SetsKey(sources[j], k)
      invariant forall j, k :: 0 <= j < i && k in wanted && SetsKey(sources[j], k) ==> k in seen
    {
      var parsed := lines[i].parsed;
      if parsed.Setting? && parsed.key in wanted {
        assert SetsKey(sources[i], parsed.key);
        seen := seen + {parsed.key};
        lines[i].text := Render(parsed, wanted[parsed.key]);
      }
    }
  }

  /** clientsenv.update_env, from reading the file to the text that replaces it. */
  method UpdateEnv(file: Option<string>, changes: seq<Change>) returns (outcome: Outcome)
    ensures outcome == Update(file, changes)
  {
    hide ParseLine, Splitlines, ReadText, Header, NewLine, Assigned;
    if changes == [] {
      return Untouched;
    }
    for i := 0 to |changes|
      invariant forall k :: 0 <= k < i ==> Accepted(changes[k])
    {
      if !Accepted(changes[i]) {
        return Refused;
      }
    }
    var original := ReadText(file);
    var sources := Splitlines(original);
    var lines := ParseAll(sources);
    var wanted := ToMap(changes);
    var seen := RewriteLines(lines, sources, wanted);
    var out := Texts(lines);
    if out == [] && original == "" {
      out := [Header()];
    }
    var kept := out;
    assert kept == Kept(original, wanted);
    assert kept + [] == kept;
    for i := 0 to |changes|
      invariant out == kept + Appended(sources, changes[..i])
    {
      assert changes[..i + 1][..i] == changes[..i];
      InMap(changes, i);
      if changes[i].key !in seen {
        Longer(kept, Appended(sources, changes[..i]), NewLine(changes[i]));
        out := out + [NewLine(changes[i])];
      }
    }
    assert changes[..|changes|] == changes;
    outcome := Written(JoinLines(out) + "\n");
  }

  lemma Longer<T>(a: seq<T>, b: seq<T>, x: T)
    ensures a + b + [x] == a + (b + [x])
  {
  }

  lemma {:induction false} InMap(changes: seq<Change>, i: nat)
    requires i < |changes|
    ensures changes[i].key in ToMap(changes)
  {
    if i < |changes| - 1 {
      assert changes[..|changes| - 1][i] == changes[i];
      InMap(changes[..|changes| - 1], i);
    }
  }
}
