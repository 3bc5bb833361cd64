/** Which lines of clients.env assign what: the shape of an assignment, and that no other line is one. */
module EnvLines {
  import opened Text
  import opened EnvFile
  import opened EnvWords

  /** Blanks, an optional export, a name, a word, and nothing after it but a comment. */
  datatype Assignment = Assignment(pad: string, prefix: string, key: string, word: seq<Piece>, gap: string, remark: string)

  predicate IsAssignment(t: Assignment) {
    && AllBlank(t.pad) && IsExport(t.prefix) && IsName(t.key) && PiecesOk(t.word)
    && AllSpace(t.gap) && (t.remark == "" || t.remark[0] == '#') && Ends(t.gap + t.remark)
  }

  function AssignmentText(t: Assignment): string {
    t.pad + (t.prefix + (t.key + "=" + (WordText(t.word) + (t.gap + t.remark))))
  }

  // ------------------------------------------------------------------ every such line assigns

  lemma NotBlankStart(prefix: string, key: string, rest: string)
    requires IsExport(prefix) && IsName(key)
    ensures prefix + (key + "=" + rest) != "" && !IsBlank((prefix + (key + "=" + rest))[0])
  {
    if prefix != "" {
      assert prefix[0] == prefix[..6][0];
    }
  }

  lemma ShiftedMatch(t: Assignment, rest: string)
    requires AllBlank(t.pad) && IsExport(t.prefix) && IsName(t.key)
    ensures MatchAssign(t.pad + (t.prefix + (t.key + "=" + rest))) == Assign(t.key, |t.pad| + |t.prefix| + |t.key| + 1)
  {
    var third := t.key + "=" + rest;
    var second := t.prefix + third;
    hide IsName, IsExport, AllBlank, Blanks, Exports, MatchName, IsBlank;
    NotBlankStart(t.prefix, t.key, rest);
    BlanksAre(t.pad, second);
    ExportsAre(t.prefix, t.key, rest);
    NameDecides(t.key, rest);
    assert (t.pad + second)[|t.pad|..] == second && second[|t.prefix|..] == third;
  }

  lemma TrailerStrips(gap: string, remark: string)
    requires AllSpace(gap) && (remark == "" || remark[0] == '#')
    ensures Strip(gap + remark) == "" || Strip(gap + remark)[0] == '#'
  {
    LstripPad(gap, remark);
    assert !IsSpace('#');
    if remark != "" {
      StripKeepsFirst(remark);
    } else {
      StripEmpty(gap + remark);
    }
  }

  /** Such a line is read as its key and what its word says. */
  lemma AssignmentReads(t: Assignment)
    requires IsAssignment(t)
    ensures var p := ParseLine(AssignmentText(t)); p.Setting? && p.key == t.key && p.value == WordValue(t.word)
  {
    hide IsName, IsExport, AllBlank, PiecesOk, AllSpace, Ends, MatchAssign, ScanWord, WordText, WordValue, Strip;
    var trailer := t.gap + t.remark;
    var rest := WordText(t.word) + trailer;
    var s := AssignmentText(t);
    ShiftedMatch(t, rest);
    var end := |t.pad| + |t.prefix| + |t.key| + 1;
    TailOf(t.pad, t.prefix, t.key, rest);
    WordReads(t.word, trailer);
    TrailerStrips(t.gap, t.remark);
    assert s[end..] == rest && rest[|WordText(t.word)|..] == trailer;
    assert s[end + |WordText(t.word)|..] == trailer;
  }

  lemma TailOf(pad: string, prefix: string, key: string, rest: string)
    ensures (pad + (prefix + (key + "=" + rest)))[|pad| + |prefix| + |key| + 1..] == rest
  {
    assert pad + (prefix + (key + "=" + rest)) == pad + prefix + key + "=" + rest;
  }

  // ------------------------------------------------------------------ and no other line does

  lemma BlankStart(s: string)
    ensures AllBlank(s[..Blanks(s)])
  {
  }

  lemma MatchParts(s: string) returns (pad: string, prefix: string)
    requires MatchAssign(s).Assign?
    ensures AllBlank(pad) && IsExport(prefix) && IsName(MatchAssign(s).key) && MatchAssign(s).end <= |s|
    ensures s[..MatchAssign(s).end] == pad + (prefix + (MatchAssign(s).key + "="))
  {
    BlankStart(s);
    var n := Blanks(s);
    var s1 := s[n..];
    ExportPiece(s1);
    var k := Exports(s1);
    var s2 := s1[k..];
    hide IsName, IsExport, AllBlank, Blanks, Exports, IsBlank;
    var m := MatchName(s2);
    pad, prefix := s[..n], s1[..k];
    assert s[..n + (k + m.end)] == s[..n] + s1[..k + m.end];
    assert s1[..k + m.end] == s1[..k] + s2[..m.end];
  }

  lemma RemarkOf(trailer: string) returns (gap: string, remark: string)
    requires Strip(trailer) == "" || Strip(trailer)[0] == '#'
    ensures AllSpace(gap) && (remark == "" || remark[0] == '#') && trailer == gap + remark
  {
    LstripSuffix(trailer);
    var l := Lstrip(trailer);
    gap, remark := trailer[..|trailer| - |l|], l;
    assert trailer == gap + remark;
    if l != "" {
      StripKeepsFirst(l);
      StripTwice(trailer, l);
    }
  }

  lemma StripTwice(s: string, l: string)
    requires l == Lstrip(s) && l != ""
    ensures Lstrip(l) == l && Strip(s) == Strip(l)
  {
  }

  lemma Pasted(s: string, end: nat, word: string, trailer: string, front: string)
    requires end <= |s| && s[..end] == front && word <= s[end..] && s[end..][|word|..] == trailer
    ensures s == front + (word + trailer)
  {
    assert s[end..] == word + trailer;
    assert s == s[..end] + s[end..];
  }

  /** A line that is read as an assignment has that shape. */
  lemma AssignmentIs(s: string) returns (t: Assignment)
    requires ParseLine(s).Setting?
    ensures IsAssignment(t) && s == AssignmentText(t) && ParseLine(s).key == t.key && ParseLine(s).value == WordValue(t.word)
  {
    hide IsName, IsExport, AllBlank, PiecesOk, AllSpace, Ends, MatchAssign, ScanWord, WordText, WordValue, Strip;
    var m := MatchAssign(s);
    var pad, prefix := MatchParts(s);
    var word := WordIs(s[m.end..]);
    var trailer := s[m.end..][|WordText(word)|..];
    assert s[m.end + |WordText(word)|..] == trailer;
    var gap, remark := RemarkOf(trailer);
    t := Assignment(pad, prefix, m.key, word, gap, remark);
    Pasted(s, m.end, WordText(word), trailer, pad + (prefix + (m.key + "=")));
    assert pad + (prefix + (m.key + "=")) + (WordText(word) + trailer) == pad + (prefix + (m.key + "=" + (WordText(word) + trailer)));
  }
}
