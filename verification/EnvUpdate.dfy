/** Updating clients.env: what a later reading says, and what is left exactly as it was. */
module EnvUpdate {
  import opened Text
  import opened EnvFile

  // --- lines, as str.splitlines sees them

  /** Every character splitlines() ends a line at. */
  predicate IsBreak(c: char) {
    var n := c as int;
    10 <= n <= 13 || 28 <= n <= 30 || n == 0x85 || n == 0x2028 || n == 0x2029
  }

  predicate OneLine(s: string) {
    forall i :: 0 <= i < |s| ==> !IsBreak(s[i])
  }

  /** Reading a text file turns every line ending into a line feed. */
  function Universal(raw: string): string {
    if raw == "" then ""
    else if raw[0] == '\r' then "\n" + Universal(if |raw| > 1 && raw[1] == '\n' then raw[2..] else raw[1..])
    else [raw[0]] + Universal(raw[1..])
  }

  function BreakAt(s: string): (n: nat)
    ensures n <= |s|
    ensures n < |s| ==> IsBreak(s[n])
    ensures forall i :: 0 <= i < n ==> !IsBreak(s[i])
  {
    if s == "" || IsBreak(s[0]) then 0 else 1 + BreakAt(s[1..])
  }

  function Splitlines(s: string): (lines: seq<string>)
    decreases |s|
  {
    var n := BreakAt(s);
    if s == "" then [] else if n == |s| then [s] else [s[..n]] + Splitlines(s[n + 1..])
  }

  predicate OneLineEach(lines: seq<string>) {
    forall i :: 0 <= i < |lines| ==> OneLine(lines[i])
  }

  lemma {:induction false} SplitlinesAreLines(s: string)
    ensures OneLineEach(Splitlines(s))
    decreases |s|
  {
    var n := BreakAt(s);
    if s != "" {
      if n < |s| {
        SplitlinesAreLines(s[n + 1..]);
      } else {
        assert s[..n] == s;
      }
    }
  }

  lemma BreakAfter(line: string, rest: string)
    requires OneLine(line)
    ensures BreakAt(line + "\n" + rest) == |line|
  {
    var s := line + "\n" + rest;
    assert s[|line|] == '\n';
    assert forall i :: 0 <= i < |line| ==> s[i] == line[i];
  }

  lemma {:induction false} SplitlinesUnlines(lines: seq<string>)
    requires OneLineEach(lines)
    ensures Splitlines(Unlines(lines)) == lines
  {
    if lines != [] {
      assert OneLineEach(lines[1..]);
      SplitlinesUnlines(lines[1..]);
      var s := Unlines(lines);
      BreakAfter(lines[0], Unlines(lines[1..]));
      assert s[..|lines[0]|] == lines[0];
      assert s[|lines[0]| + 1..] == Unlines(lines[1..]);
    }
  }

  lemma {:induction false} UniversalKeeps(s: string)
    requires '\r' !in s
    ensures Universal(s) == s
  {
    if s != "" {
      assert s[0] in s;
      UniversalKeeps(s[1..]);
    }
  }

  lemma {:induction false} UniversalClean(raw: string)
    ensures '\r' !in Universal(raw)
    decreases |raw|
  {
    if raw != "" {
      if raw[0] == '\r' {
        UniversalClean(if |raw| > 1 && raw[1] == '\n' then raw[2..] else raw[1..]);
      } else {
        UniversalClean(raw[1..]);
      }
    }
  }

  // --- reading

  type Values = map<string, string>

  function Defaults(): Values {
    map["ENDPOINT_HOST" := "", "ENDPOINT_PORT" := "", "CLIENT_DNS" := "8.8.8.8, 8.8.4.4", "CLIENT_MTU" := "1372",
        "CLIENT_ALLOWED_IPS" := "0.0.0.0/0", "SUBNET_CIDR" := "", "SUBNET_BASE" := "", "SUBNET6_CIDR" := "",
        "SUBNET6_MODE" := "", "KEEPALIVE" := "25"]
  }

  function Absorb(values: Values, line: string): Values {
    var p := ParseLine(line);
    if p.Setting? then values[p.key := p.value] else values
  }

  /** A repeated key is what bash would end up with: the last one wins. */
  function ReadLines(values: Values, lines: seq<string>): Values {
    if lines == [] then values else Absorb(ReadLines(values, lines[..|lines| - 1]), lines[|lines| - 1])
  }

  /** The file's text; a missing file reads as an empty one. */
  function ReadText(file: Option<string>): string {
    if file.None? then "" else Universal(file.value)
  }

  /** A file read over the values that stand for what it does not set. */
  function ReadOver(defaults: Values, file: Option<string>): Values {
    ReadLines(defaults, Splitlines(ReadText(file)))
  }

  function ReadEnv(file: Option<string>): Values {
    ReadOver(Defaults(), file)
  }

  // --- updating

  datatype Change = Change(key: string, value: string)

  predicate Distinct(changes: seq<Change>) {
    forall i, j :: 0 <= i < j < |changes| ==> changes[i].key != changes[j].key
  }

  function ToMap(changes: seq<Change>): Values {
    if changes == [] then map[]
    else ToMap(changes[..|changes| - 1])[changes[|changes| - 1].key := changes[|changes| - 1].value]
  }

  /** _KEY_RE, whose $ also matches before a line feed that ends the text. */
  predicate KeyAccepted(key: string) {
    IsName(key) || (|key| > 1 && key[|key| - 1] == '\n' && IsName(key[..|key| - 1]))
  }

  predicate Accepted(c: Change) {
    KeyAccepted(c.key) && '\n' !in c.value && '\r' !in c.value
  }

  predicate AllAccepted(changes: seq<Change>) {
    forall i :: 0 <= i < |changes| ==> Accepted(changes[i])
  }

  /** Every line assigning a changed key, with its value replaced; every other as it is. */
  function Rewrite(line: string, wanted: Values): string {
    var p := ParseLine(line);
    if p.Setting? && p.key in wanted then Render(p, wanted[p.key]) else line
  }

  function RewriteAll(lines: seq<string>, wanted: Values): (out: seq<string>)
    ensures |out| == |lines|
    ensures forall i :: 0 <= i < |lines| ==> out[i] == Rewrite(lines[i], wanted)
  {
    seq(|lines|, i requires 0 <= i < |lines| => Rewrite(lines[i], wanted))
  }

  predicate Assigned(lines: seq<string>, key: string) {
    exists i :: 0 <= i < |lines| && SetsKey(lines[i], key)
  }

  predicate SetsKey(line: string, key: string) {
    ParseLine(line).Setting? && ParseLine(line).key == key
  }

  function NewLine(c: Change): string {
    c.key + "=" + Quote(c.value)
  }

  /** A line for every changed key that no line assigns. */
  function Appended(lines: seq<string>, changes: seq<Change>): seq<string> {
    if changes == [] then []
    else
      var rest := Appended(lines, changes[..|changes| - 1]);
      if Assigned(lines, changes[|changes| - 1].key) then rest else rest + [NewLine(changes[|changes| - 1])]
  }

  const TITLE := "# AmneziaWG client defaults."
  const ADVICE := " Shell syntax - every value must be QUOTED."

  function Header(): string {
    TITLE + ADVICE
  }

  function Kept(text: string, wanted: Values): seq<string> {
    var lines := RewriteAll(Splitlines(text), wanted);
    if lines == [] && text == "" then [Header()] else lines
  }

  datatype Outcome = Untouched | Refused | Written(raw: string)

  function Out(file: Option<string>, changes: seq<Change>): seq<string> {
    var text := ReadText(file);
    Kept(text, ToMap(changes)) + Appended(Splitlines(text), changes)
  }

  /** clientsenv.update_env. */
  function Update(file: Option<string>, changes: seq<Change>): Outcome {
    if changes == [] then Untouched
    else if !AllAccepted(changes) then Refused
    else Written(JoinLines(Out(file, changes)) + "\n")
  }

  // --- everything read is one line

  lemma {:induction false} ScanDoubleClean(s: string)
    requires OneLine(s)
    ensures ScanDouble(s).Word? ==> OneLine(ScanDouble(s).value)
  {
    if s != "" && s[0] != '"' {
      if s[0] == '\\' && |s| > 1 && Escaped(s[1]) {
        ScanDoubleClean(s[2..]);
      } else {
        ScanDoubleClean(s[1..]);
      }
    }
  }

  lemma {:induction false} ScanSingleClean(s: string)
    requires OneLine(s)
    ensures ScanSingle(s).Word? ==> OneLine(ScanSingle(s).value)
  {
    if s != "" && s[0] != '\'' {
      ScanSingleClean(s[1..]);
    }
  }

  lemma {:induction false} ScanWordClean(s: string)
    requires OneLine(s)
    ensures ScanWord(s).Word? ==> OneLine(ScanWord(s).value)
    decreases |s|
  {
    hide ScanDouble, ScanSingle, IsBreak;
    if s == "" || IsBlank(s[0]) {
    } else if s[0] == '"' || s[0] == '\'' {
      var part := if s[0] == '"' then ScanDouble(s[1..]) else ScanSingle(s[1..]);
      if s[0] == '"' {
        ScanDoubleClean(s[1..]);
      } else {
        ScanSingleClean(s[1..]);
      }
      if part.Word? {
        ScanWordClean(s[1 + part.used..]);
      }
    } else if s[0] == '\\' {
      if |s| > 1 {
        ScanWordClean(s[2..]);
      }
    } else {
      ScanWordClean(s[1..]);
    }
  }

  lemma NameClean(key: string)
    requires IsName(key)
    ensures OneLine(key)
  {
    forall i | 0 <= i < |key| ensures !IsBreak(key[i]) {
      assert IsWordChar(key[i]);
    }
  }

  lemma ParsedClean(line: string)
    requires OneLine(line)
    ensures var p := ParseLine(line);
            p.Setting? ==> && OneLine(p.key) && OneLine(p.value) && OneLine(p.prefix) && OneLine(p.trailer) && OneLine(p.comment)
  {
    hide ScanWord, MatchAssign, IsBreak, IsName, Strip;
    var m := MatchAssign(line);
    if m.Assign? {
      NameClean(m.key);
      ScanWordClean(line[m.end..]);
    }
  }

  predicate AllClean(values: Values) {
    forall k :: k in values ==> OneLine(k) && OneLine(values[k])
  }

  lemma {:induction false} ReadLinesClean(values: Values, lines: seq<string>)
    requires AllClean(values) && OneLineEach(lines)
    ensures AllClean(ReadLines(values, lines))
  {
    hide ParseLine, OneLine;
    if lines != [] {
      ReadLinesClean(values, lines[..|lines| - 1]);
      ParsedClean(lines[|lines| - 1]);
    }
  }

  lemma DefaultNames()
    ensures OneLine("ENDPOINT_HOST") && OneLine("ENDPOINT_PORT") && OneLine("CLIENT_DNS") && OneLine("CLIENT_MTU")
    ensures OneLine("CLIENT_ALLOWED_IPS") && OneLine("KEEPALIVE")
  {
  }

  lemma SubnetNames()
    ensures OneLine("SUBNET_CIDR") && OneLine("SUBNET_BASE") && OneLine("SUBNET6_CIDR") && OneLine("SUBNET6_MODE")
  {
  }

  lemma DefaultValues()
    ensures OneLine("") && OneLine("8.8.8.8, 8.8.4.4") && OneLine("1372") && OneLine("0.0.0.0/0") && OneLine("25")
  {
  }

  lemma DefaultsClean()
    ensures AllClean(Defaults())
  {
    hide OneLine;
    DefaultNames();
    SubnetNames();
    DefaultValues();
  }

  /** No reading ever holds a character that ends a line, in a key or in a value. */
  lemma ReadOverClean(defaults: Values, file: Option<string>)
    requires AllClean(defaults)
    ensures AllClean(ReadOver(defaults, file))
  {
    hide ReadLines, AllClean, ReadText, Splitlines;
    SplitlinesAreLines(ReadText(file));
    ReadLinesClean(defaults, Splitlines(ReadText(file)));
  }

  // --- what is written is lines

  lemma {:induction false} EscapeClean(v: string)
    requires OneLine(v)
    ensures OneLine(Escape(v))
  {
    if v != "" {
      EscapeClean(v[1..]);
    }
  }

  lemma QuoteClean(v: string)
    requires OneLine(v)
    ensures OneLine(Quote(v))
  {
    FourTimesIsOnce(v);
    EscapeClean(v);
  }

  lemma RewriteClean(line: string, wanted: Values)
    requires OneLine(line) && AllClean(wanted)
    ensures OneLine(Rewrite(line, wanted))
  {
    hide ParseLine, Quote, IsBreak;
    var p := ParseLine(line);
    if p.Setting? && p.key in wanted {
      ParsedClean(line);
      QuoteClean(wanted[p.key]);
      SpacesClean(if p.column > |p.prefix| + |Quote(wanted[p.key])| then p.column - (|p.prefix| + |Quote(wanted[p.key])|) else 1);
    }
  }

  lemma SpacesClean(n: nat)
    ensures OneLine(Spaces(n))
  {
  }

  predicate CleanChanges(changes: seq<Change>) {
    forall i :: 0 <= i < |changes| ==> OneLine(changes[i].key) && OneLine(changes[i].value)
  }

  lemma {:induction false} ToMapClean(changes: seq<Change>)
    requires CleanChanges(changes)
    ensures AllClean(ToMap(changes))
  {
    hide OneLine;
    if changes != [] {
      ToMapClean(changes[..|changes| - 1]);
    }
  }

  lemma {:induction false} AppendedClean(lines: seq<string>, changes: seq<Change>)
    requires CleanChanges(changes)
    ensures OneLineEach(Appended(lines, changes))
  {
    hide Quote, IsBreak, Assigned;
    if changes != [] {
      AppendedClean(lines, changes[..|changes| - 1]);
      QuoteClean(changes[|changes| - 1].value);
      EqualsClean();
    }
  }

  lemma EqualsClean()
    ensures OneLine("=")
  {
  }

  lemma HeaderClean()
    ensures OneLine(Header())
  {
    hide IsBreak;
    TitleClean();
    AdviceClean();
  }

  lemma TitleClean()
    ensures OneLine(TITLE)
  {
  }

  lemma AdviceClean()
    ensures OneLine(ADVICE)
  {
  }

  lemma OutClean(file: Option<string>, changes: seq<Change>)
    requires CleanChanges(changes)
    ensures OneLineEach(Out(file, changes))
  {
    hide OneLine, Header, Rewrite, Appended, ToMap, AllClean;
    var lines, wanted := Splitlines(ReadText(file)), ToMap(changes);
    SplitlinesAreLines(ReadText(file));
    ToMapClean(changes);
    forall i | 0 <= i < |lines| ensures OneLine(RewriteAll(lines, wanted)[i]) {
      RewriteClean(lines[i], wanted);
    }
    HeaderClean();
    AppendedClean(lines, changes);
  }

  lemma {:induction false} NoReturns(lines: seq<string>)
    requires OneLineEach(lines)
    ensures '\r' !in Unlines(lines)
  {
    if lines != [] {
      assert OneLineEach(lines[1..]);
      NoReturns(lines[1..]);
      assert forall i :: 0 <= i < |lines[0]| ==> lines[0][i] != '\r';
    }
  }

  /** What was written is read back line for line. */
  lemma WrittenLines(lines: seq<string>)
    requires OneLineEach(lines) && lines != []
    ensures Splitlines(ReadText(Some(JoinLines(lines) + "\n"))) == lines
  {
    JoinIsUnlines(lines);
    NoReturns(lines);
    UniversalKeeps(Unlines(lines));
    SplitlinesUnlines(lines);
  }
}
