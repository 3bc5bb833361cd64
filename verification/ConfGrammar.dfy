/** The shapes of a config line: what a setting, a marker and a section header look like, and that nothing
    else is read as one. */
module ConfGrammar {
  import opened Text
  import opened Config

  /** Nothing, or a comment to the end of the line. */
  predicate IsRemark(s: string) {
    s == "" || s[0] == '#'
  }

  /** A text stripped is the text between its blanks. */
  lemma StripParts(s: string) returns (before: string, after: string)
    ensures AllSpace(before) && AllSpace(after) && s == before + Strip(s) + after
  {
    LstripSuffix(s);
    var l := Lstrip(s);
    RstripPrefix(l);
    before, after := s[..|s| - |l|], l[|Rstrip(l)|..];
    assert s == before + l && l == Strip(s) + after;
  }

  lemma NoSuchBlank(s: string, c: char)
    requires AllSpace(s) && !IsSpace(c)
    ensures c !in s
  {
  }

  lemma Signs()
    ensures !IsSpace('#') && !IsSpace('=') && !IsSpace('[') && !IsSpace(']')
  {
  }

  // ------------------------------------------------------------------ a setting

  datatype SettingLine = SettingLine(before: string, key: string, gap1: string, gap2: string, value: string, after: string, remark: string)

  /** A key and a value with an equals sign between them, neither with a '#', and a remark after them or none;
      blanks around either do not matter. */
  predicate IsSetting(t: SettingLine) {
    && AllSpace(t.before) && AllSpace(t.gap1) && AllSpace(t.gap2) && AllSpace(t.after) && IsRemark(t.remark)
    && t.key != "" && Trimmed(t.key) && '=' !in t.key && '#' !in t.key && Trimmed(t.value) && '#' !in t.value
  }

  function SettingText(t: SettingLine): string {
    t.before + t.key + t.gap1 + ['='] + (t.gap2 + t.value + t.after) + t.remark
  }

  lemma RemarkCut(u: string, remark: string)
    requires '#' !in u && IsRemark(remark)
    ensures Uncommented(u + remark) == u
  {
    if remark == "" {
      assert u + remark == u;
      IndexOfNone(u, '#');
      assert u[..|u|] == u;
    } else {
      assert u + remark == u + ['#'] + remark[1..];
      PartitionAt(u + remark, u, '#', remark[1..]);
    }
  }

  lemma SplitSetting(left: string, right: string)
    requires '=' !in left && Strip(left) != ""
    ensures var u := left + ['='] + right; var i := IndexOf(u, '=');
            i < |u| && Strip(u[..i]) == Strip(left) && Strip(u[i + 1..]) == Strip(right)
  {
    PartitionAt(left + ['='] + right, left, '=', right);
  }

  /** Every such line is read as that setting. */
  lemma SettingReads(t: SettingLine)
    requires IsSetting(t)
    ensures Setting(SettingText(t)) == Some((t.key, t.value))
  {
    Signs();
    NoSuchBlank(t.before, '#');
    NoSuchBlank(t.before, '=');
    NoSuchBlank(t.gap1, '#');
    NoSuchBlank(t.gap1, '=');
    NoSuchBlank(t.gap2, '#');
    NoSuchBlank(t.after, '#');
    hide IsSpace, AllSpace, Trimmed, Strip, IndexOf, Uncommented;
    var left, right := t.before + t.key + t.gap1, t.gap2 + t.value + t.after;
    StripPad(t.before, t.key, t.gap1);
    StripPad(t.gap2, t.value, t.after);
    var u := left + ['='] + right;
    assert '#' !in left && '#' !in right && '=' !in left;
    assert '#' !in u;
    RemarkCut(u, t.remark);
    SplitSetting(left, right);
    assert SettingText(t) == u + t.remark;
  }

  lemma CutRemark(line: string)
    ensures '#' !in Uncommented(line) && IsRemark(line[|Uncommented(line)|..])
    ensures line == Uncommented(line) + line[|Uncommented(line)|..]
  {
  }

  lemma CutSetting(u: string, i: nat)
    requires i == IndexOf(u, '=') < |u|
    ensures u == u[..i] + ['='] + u[i + 1..] && '=' !in u[..i]
  {
  }

  /** And no other line is read as a setting. */
  lemma SettingIs(line: string) returns (t: SettingLine)
    requires Setting(line).Some?
    ensures IsSetting(t) && line == SettingText(t) && Setting(line) == Some((t.key, t.value))
  {
    var u := Uncommented(line);
    var i := IndexOf(u, '=');
    CutRemark(line);
    CutSetting(u, i);
    var left, right := u[..i], u[i + 1..];
    StripChars(left, '=');
    assert '#' !in left && '#' !in right;
    StripChars(left, '#');
    StripChars(right, '#');
    hide IsSpace, AllSpace, Trimmed, Strip, IndexOf, Uncommented;
    var b1, a1 := StripParts(left);
    var b2, a2 := StripParts(right);
    t := SettingLine(b1, Strip(left), a1, b2, Strip(right), a2, line[|u|..]);
  }

  // ------------------------------------------------------------------ a marker

  datatype MarkLine = MarkLine(before: string, gap1: string, gap2: string, rest: string)

  predicate IsMark(t: MarkLine) {
    AllSpace(t.before) && AllSpace(t.gap1) && AllSpace(t.gap2)
  }

  /** A comment that starts with the tag and an equals sign. */
  function MarkText(t: MarkLine, tag: string): string {
    t.before + (['#'] + (t.gap1 + (tag + (t.gap2 + (['='] + t.rest)))))
  }

  lemma LstripAt(pad: string, s: string)
    requires AllSpace(pad) && s != "" && !IsSpace(s[0])
    ensures Lstrip(pad + s) == s
  {
    LstripPad(pad, s);
  }

  lemma LstripCut(s: string) returns (pad: string)
    ensures AllSpace(pad) && s == pad + Lstrip(s)
  {
    LstripSuffix(s);
    pad := s[..|s| - |Lstrip(s)|];
  }

  lemma MarkReads(t: MarkLine, tag: string)
    requires IsMark(t) && tag != "" && !IsSpace(tag[0])
    ensures TagValue(MarkText(t, tag), tag) == Some(Strip(t.rest))
  {
    Signs();
    hide IsSpace, AllSpace, Strip, Lstrip;
    var third := ['='] + t.rest;
    var second := tag + (t.gap2 + third);
    var first := ['#'] + (t.gap1 + second);
    LstripAt(t.before, first);
    assert first[1..] == t.gap1 + second;
    assert second[0] == tag[0];
    LstripAt(t.gap1, second);
    assert tag <= second && second[|tag|..] == t.gap2 + third;
    LstripAt(t.gap2, third);
    assert third[1..] == t.rest;
  }

  lemma MarkIs(line: string, tag: string) returns (t: MarkLine)
    requires TagValue(line, tag).Some?
    ensures IsMark(t) && line == MarkText(t, tag) && TagValue(line, tag) == Some(Strip(t.rest))
  {
    hide IsSpace, AllSpace, Strip, Lstrip;
    var s := Lstrip(line);
    var b := LstripCut(line);
    var rest := Lstrip(s[1..]);
    var g1 := LstripCut(s[1..]);
    var tail := Lstrip(rest[|tag|..]);
    var g2 := LstripCut(rest[|tag|..]);
    t := MarkLine(b, g1, g2, tail[1..]);
    assert tail == ['='] + tail[1..];
    assert rest == tag + rest[|tag|..];
    assert s == ['#'] + s[1..];
  }

  // ------------------------------------------------------------------ a section header

  datatype HeadLine = HeadLine(before: string, name: string, after: string, remark: string)

  /** A name in brackets, itself without a ']' or a '#', and after it nothing but a remark. */
  predicate IsHead(t: HeadLine) {
    AllSpace(t.before) && AllSpace(t.after) && IsRemark(t.remark) && ']' !in t.name && '#' !in t.name
  }

  function HeadText(t: HeadLine): string {
    t.before + (['['] + (t.name + ([']'] + (t.after + t.remark))))
  }

  lemma {:induction false} NameEndAt(name: string, rest: string)
    requires ']' !in name && '#' !in name
    ensures NameEnd(name + ([']'] + rest)) == |name|
  {
    if name == "" {
      assert name + ([']'] + rest) == [']'] + rest;
    } else {
      assert (name + ([']'] + rest))[1..] == name[1..] + ([']'] + rest);
      NameEndAt(name[1..], rest);
    }
  }

  lemma RemarkAfter(after: string, remark: string)
    requires AllSpace(after) && IsRemark(remark)
    ensures IsRemark(Lstrip(after + remark))
  {
    Signs();
    LstripPad(after, remark);
    if remark != "" { LstripAt(after, remark); }
  }

  lemma HeadReads(t: HeadLine)
    requires IsHead(t)
    ensures HeaderName(HeadText(t)) == Some(t.name)
  {
    Signs();
    hide IsSpace, AllSpace, Lstrip, NameEnd;
    var tail := t.after + t.remark;
    var body := t.name + ([']'] + tail);
    LstripAt(t.before, ['['] + body);
    assert (['['] + body)[1..] == body;
    NameEndAt(t.name, tail);
    assert body[|t.name|] == ']' && body[|t.name| + 1..] == tail && body[..|t.name|] == t.name;
    RemarkAfter(t.after, t.remark);
  }

  /** What a header was read from. */
  lemma HeadParts(line: string)
    requires HeaderName(line).Some?
    ensures var s := Lstrip(line);
            && s != "" && s[0] == '['
            && var i := NameEnd(s[1..]);
               && i < |s[1..]| && s[1..][i] == ']' && HeaderName(line) == Some(s[1..][..i]) && IsRemark(Lstrip(s[1..][i + 1..]))
  {
    hide Lstrip, NameEnd;
  }

  lemma NamePlain(body: string, i: nat)
    requires i == NameEnd(body) && i <= |body|
    ensures ']' !in body[..i] && '#' !in body[..i]
  {
  }

  lemma HeadIs(line: string) returns (t: HeadLine)
    requires HeaderName(line).Some?
    ensures IsHead(t) && line == HeadText(t) && HeaderName(line) == Some(t.name)
  {
    HeadParts(line);
    var s := Lstrip(line);
    var body := s[1..];
    var i := NameEnd(body);
    NamePlain(body, i);
    hide AllSpace, Lstrip, NameEnd, HeaderName, IsRemark;
    var b := LstripCut(line);
    var a := LstripCut(body[i + 1..]);
    t := HeadLine(b, body[..i], a, Lstrip(body[i + 1..]));
    PutHead(line, b, s, i, a, Lstrip(body[i + 1..]));
  }

  lemma PutHead(line: string, before: string, s: string, i: nat, after: string, remark: string)
    requires line == before + s && s != "" && s[0] == '[' && i < |s[1..]| && s[1..][i] == ']'
    requires s[1..][i + 1..] == after + remark
    ensures line == HeadText(HeadLine(before, s[1..][..i], after, remark))
  {
    var body := s[1..];
    assert body == body[..i] + ([']'] + body[i + 1..]);
    assert s == ['['] + body;
  }

  /** What is left of a line's blanks goes for the line with its remark too. */
  lemma LstripThen(u: string, remark: string)
    requires IsRemark(remark)
    ensures Lstrip(u + remark) == Lstrip(u) + remark
  {
    var pad := LstripCut(u);
    RemarkFirst(remark);
    if Lstrip(u) != "" {
      FirstKept(u);
      hide AllSpace, Lstrip, IsSpace;
      assert u + remark == pad + (Lstrip(u) + remark);
      LstripAt(pad, Lstrip(u) + remark);
    } else {
      hide AllSpace, Lstrip, IsSpace;
      assert u == pad && "" + remark == remark;
      LstripPad(pad, remark);
    }
  }

  /** A line opens a section exactly when its first character that is no blank is a bracket. */
  lemma OpensIs(line: string)
    ensures OpensSection(line) <==> Lstrip(line) != "" && Lstrip(line)[0] == '['
  {
    CutRemark(line);
    hide Lstrip, Uncommented;
    LstripThen(Uncommented(line), line[|Uncommented(line)|..]);
  }

  lemma FirstKept(s: string)
    requires Lstrip(s) != ""
    ensures !IsSpace(Lstrip(s)[0])
  {
  }

  lemma RemarkFirst(remark: string)
    requires IsRemark(remark)
    ensures Lstrip(remark) == remark
  {
    Signs();
  }
}
