/** Imitation packets: templates of tags, the text they are written as, and the bytes they emit. */
module Imitation {
  import opened Text
  import opened Params

  // --- the bytes

  type Byte = n: nat | n < 256

  /** <r N>, N bytes drawn on every send, or <b 0x..>, literal ones. */
  datatype Tag = Fresh(count: nat) | Literal(bytes: seq<Byte>)

  function SizeOf(tag: Tag): nat {
    if tag.Fresh? then tag.count else |tag.bytes|
  }

  function TotalSize(tags: seq<Tag>): nat {
    if tags == [] then 0 else SizeOf(tags[0]) + TotalSize(tags[1..])
  }

  /** Whether these bytes are one sending of the template. */
  predicate Emits(tags: seq<Tag>, bytes: seq<Byte>) {
    if tags == [] then bytes == []
    else
      var n := SizeOf(tags[0]);
      && n <= |bytes|
      && (tags[0].Literal? ==> bytes[..n] == tags[0].bytes)
      && Emits(tags[1..], bytes[n..])
  }

  lemma {:induction false} EmitsItsSize(tags: seq<Tag>, bytes: seq<Byte>)
    requires Emits(tags, bytes)
    ensures |bytes| == TotalSize(tags)
  {
    if tags != [] {
      EmitsItsSize(tags[1..], bytes[SizeOf(tags[0])..]);
    }
  }

  // --- the text

  function HexByte(b: Byte): (s: string)
    ensures |s| == 2
  {
    [DigitChar(b / 16), DigitChar(b % 16)]
  }

  function Hex(bytes: seq<Byte>): (s: string)
    ensures |s| == 2 * |bytes|
  {
    if bytes == [] then "" else HexByte(bytes[0]) + Hex(bytes[1..])
  }

  function RenderTag(tag: Tag): string {
    if tag.Fresh? then "<r " + Show(tag.count, 10) + ">" else "<b 0x" + Hex(tag.bytes) + ">"
  }

  function Render(tags: seq<Tag>): string {
    if tags == [] then "" else RenderTag(tags[0]) + Render(tags[1..])
  }

  // --- the parser

  /** A tag as it was read: its name, its argument and the bytes it contributes. */
  datatype Seen = Seen(name: string, arg: string, size: nat)

  datatype Fault =
    | OutsideTag | BadCount | BadHex | OddHex | UnwantedArgument | BadOptionalCount | UnknownTag
    | NoTags | TooLong(total: nat)

  predicate IsLetter(c: char) {
    'A' <= c <= 'Z' || 'a' <= c <= 'z'
  }

  function Letters(s: string): (n: nat)
    ensures n <= |s| && (n < |s| ==> !IsLetter(s[n]))
    ensures forall i :: 0 <= i < n ==> IsLetter(s[i])
  {
    if s == "" || !IsLetter(s[0]) then 0 else 1 + Letters(s[1..])
  }

  /** <name argument> at the start of the text: blanks around both, and the argument up to the first
      '>'. */
  datatype Bracket = NoBracket | Bracket(name: string, arg: string, used: nat)

  function MatchTag(s: string): (b: Bracket)
    ensures b.Bracket? ==> 0 < b.used <= |s|
  {
    if s == "" || s[0] != '<' then NoBracket
    else
      var inner := Lstrip(s[1..]);
      var n := Letters(inner);
      var close := IndexOf(inner, '>');
      if n == 0 || close == |inner| then NoBracket
      else
        assert n <= close;
        Bracket(Fold(inner[..n]), Strip(inner[n..close]), |s| - |inner| + close + 1)
  }

  predicate IsHex(s: string) {
    |s| > 2 && s[0] == '0' && (s[1] == 'x' || s[1] == 'X') && AllDigits(s[2..], 16)
  }

  datatype Read = Good(tag: Seen) | Bad(fault: Fault)

  /** What one tag means. */
  function ReadTag(name: string, arg: string): Read {
    if name == "r" then
      if IsNumeral(arg) && 1 <= Numeral(arg) <= 1500 then Good(Seen(name, arg, Numeral(arg))) else Bad(BadCount)
    else if name == "b" then
      if !IsHex(arg) then Bad(BadHex)
      else if (|arg| - 2) % 2 != 0 then Bad(OddHex)
      else Good(Seen(name, arg, (|arg| - 2) / 2))
    else if name == "t" || name == "c" then
      if arg != "" then Bad(UnwantedArgument) else Good(Seen(name, "", 4))
    else if name == "rc" || name == "rd" then
      if arg != "" && !IsNumeral(arg) then Bad(BadOptionalCount)
      else Good(Seen(name, arg, if arg == "" then 0 else Numeral(arg)))
    else Bad(UnknownTag)
  }

  datatype Parsed = Tags(tags: seq<Seen>) | Failed(fault: Fault)

  function ParseTags(s: string): Parsed
    decreases |s|
  {
    if s == "" then Tags([])
    else if IsSpace(s[0]) then ParseTags(s[1..])
    else
      var b := MatchTag(s);
      if b.NoBracket? then Failed(OutsideTag)
      else
        match ReadTag(b.name, b.arg)
        case Bad(fault) => Failed(fault)
        case Good(tag) =>
          match ParseTags(s[b.used..])
          case Failed(fault) => Failed(fault)
          case Tags(rest) => Tags([tag] + rest)
  }

  function SumSizes(tags: seq<Seen>): nat {
    if tags == [] then 0 else tags[0].size + SumSizes(tags[1..])
  }

  /** validate._parse_imitation's error, or its tags. */
  function ParseImitation(value: string): Parsed {
    match ParseTags(value)
    case Failed(fault) => Failed(fault)
    case Tags(tags) =>
      if tags == [] then Failed(NoTags)
      else if SumSizes(tags) > JUNK_MAX then Failed(TooLong(SumSizes(tags)))
      else Tags(tags)
  }

  /** Putting tags already read in front. */
  function Behind(tags: seq<Seen>, rest: Parsed): Parsed {
    if rest.Failed? then rest else Tags(tags + rest.tags)
  }

  /** The loop that moves a position over the text. */
  method ParseLoop(value: string) returns (result: Parsed)
    ensures result == ParseImitation(value)
  {
    hide MatchTag, ReadTag, IsSpace, ParseTags;
    var tags := [];
    var total := 0;
    var position := 0;
    StartOfText(value);
    while position < |value|
      invariant 0 <= position <= |value|
      invariant ParseTags(value) == Behind(tags, ParseTags(value[position..]))
      invariant total == SumSizes(tags)
    {
      ParseStep(value, position);
      if IsSpace(value[position]) {
        position := position + 1;
        continue;
      }
      var b := MatchTag(value[position..]);
      if b.NoBracket? {
        return Failed(OutsideTag);
      }
      var read := ReadTag(b.name, b.arg);
      if read.Bad? {
        return Failed(read.fault);
      }
      Pushed(tags, read.tag, ParseTags(value[position + b.used..]));
      SumPush(tags, read.tag);
      tags := tags + [read.tag];
      total := total + read.tag.size;
      position := position + b.used;
    }
    EndOfText(tags);
    if tags == [] {
      result := Failed(NoTags);
    } else if total > JUNK_MAX {
      result := Failed(TooLong(total));
    } else {
      result := Tags(tags);
    }
  }

  lemma StartOfText(value: string)
    ensures value[0..] == value && ParseTags(value) == Behind([], ParseTags(value))
  {
    if ParseTags(value).Tags? {
      assert [] + ParseTags(value).tags == ParseTags(value).tags;
    }
  }

  lemma EndOfText(tags: seq<Seen>)
    ensures ParseTags("") == Tags([]) && Behind(tags, ParseTags("")) == Tags(tags)
  {
    assert tags + [] == tags;
  }

  lemma ParseStep(value: string, position: nat)
    requires position < |value|
    ensures var s := value[position..]; var b := MatchTag(s);
            if IsSpace(value[position]) then ParseTags(s) == ParseTags(value[position + 1..])
            else if b.NoBracket? then ParseTags(s) == Failed(OutsideTag)
            else match ReadTag(b.name, b.arg)
              case Bad(fault) => ParseTags(s) == Failed(fault)
              case Good(tag) => b.used <= |s| && ParseTags(s) == Behind([tag], ParseTags(value[position + b.used..]))
  {
    hide MatchTag, ReadTag, IsSpace;
    var s := value[position..];
    assert s[0] == value[position] && s[1..] == value[position + 1..];
    var b := MatchTag(s);
    if b.Bracket? {
      assert s[b.used..] == value[position + b.used..];
    }
  }

  lemma Pushed(tags: seq<Seen>, tag: Seen, rest: Parsed)
    ensures Behind(tags, Behind([tag], rest)) == Behind(tags + [tag], rest)
  {
    if rest.Tags? {
      assert tags + ([tag] + rest.tags) == tags + [tag] + rest.tags;
    }
  }

  lemma {:induction false} SumPush(tags: seq<Seen>, tag: Seen)
    ensures SumSizes(tags + [tag]) == SumSizes(tags) + tag.size
  {
    if tags == [] {
      assert [tag][1..] == [];
    } else {
      assert (tags + [tag])[1..] == tags[1..] + [tag];
      SumPush(tags[1..], tag);
    }
  }

  // --- what was rendered is read back

  predicate Sendable(tag: Tag) {
    if tag.Fresh? then 1 <= tag.count <= 1500 else tag.bytes != []
  }

  predicate AllSendable(tags: seq<Tag>) {
    forall i :: 0 <= i < |tags| ==> Sendable(tags[i])
  }

  function SeenTag(tag: Tag): Seen {
    if tag.Fresh? then Seen("r", Show(tag.count, 10), tag.count) else Seen("b", "0x" + Hex(tag.bytes), |tag.bytes|)
  }

  function SeenTags(tags: seq<Tag>): seq<Seen> {
    if tags == [] then [] else [SeenTag(tags[0])] + SeenTags(tags[1..])
  }

  lemma LetterAlone(c: char, rest: string)
    requires IsLetter(c) && rest != "" && !IsLetter(rest[0])
    ensures Letters([c] + rest) == 1
  {
    var s := [c] + rest;
    assert s[1..] == rest;
    assert Letters(rest) == 0;
  }

  lemma BracketReads(c: char, arg: string, rest: string)
    requires (c == 'r' || c == 'b') && Trimmed(arg) && '>' !in arg
    ensures MatchTag("<" + [c] + " " + arg + ">" + rest) == Bracket([c], arg, |arg| + 4)
  {
    hide IsSpace, Trimmed;
    var s := "<" + [c] + " " + arg + ">" + rest;
    var inner := [c] + (" " + arg + ">" + rest);
    assert s[1..] == inner;
    NotSpaces();
    assert Lstrip(inner) == inner;
    LetterAlone(c, " " + arg + ">" + rest);
    PartitionAt(inner, [c] + " " + arg, '>', rest);
    assert inner[1..|arg| + 2] == " " + arg + "";
    OneSpace();
    StripPad(" ", arg, "");
    assert Fold([c]) == [c];
    assert inner[..1] == [c];
  }

  lemma NotSpaces()
    ensures !IsSpace('r') && !IsSpace('b')
  {
  }

  lemma OneSpace()
    ensures AllSpace(" ") && AllSpace("")
  {
  }

  lemma {:induction false} HexIsHex(bytes: seq<Byte>)
    ensures AllDigits(Hex(bytes), 16) && '>' !in Hex(bytes)
  {
    if bytes != [] {
      HexIsHex(bytes[1..]);
    }
  }

  lemma TagReads(tag: Tag, rest: string)
    requires Sendable(tag)
    ensures var s := RenderTag(tag) + rest; var b := MatchTag(s);
            && !IsSpace(s[0]) && b.Bracket? && b.used == |RenderTag(tag)| && ReadTag(b.name, b.arg) == Good(SeenTag(tag))
  {
    hide MatchTag, IsSpace, Show, Hex;
    NotASpace();
    if tag.Fresh? {
      var arg := Show(tag.count, 10);
      ShowIsNumeral(tag.count);
      NumeralIsTrimmed(arg);
      NoBracketInNumeral(tag.count);
      BracketReads('r', arg, rest);
      assert RenderTag(tag) + rest == "<" + ['r'] + " " + arg + ">" + rest;
    } else {
      var arg := "0x" + Hex(tag.bytes);
      HexArgument(tag.bytes);
      BracketReads('b', arg, rest);
      assert RenderTag(tag) + rest == "<" + ['b'] + " " + arg + ">" + rest;
    }
  }

  lemma NotASpace()
    ensures !IsSpace('<')
  {
  }

  lemma NoBracketInNumeral(n: nat)
    ensures '>' !in Show(n, 10)
  {
  }

  lemma HexArgument(bytes: seq<Byte>)
    requires bytes != []
    ensures var arg := "0x" + Hex(bytes);
            && Trimmed(arg) && '>' !in arg && IsHex(arg) && (|arg| - 2) % 2 == 0 && (|arg| - 2) / 2 == |bytes|
  {
    HexIsHex(bytes);
    var arg := "0x" + Hex(bytes);
    assert arg[2..] == Hex(bytes);
    var last := Hex(bytes)[|Hex(bytes)| - 1];
    assert DigitVal(last) < 16;
    assert arg[|arg| - 1] == last;
  }

  lemma {:induction false} TagsRead(tags: seq<Tag>)
    requires AllSendable(tags)
    ensures ParseTags(Render(tags)) == Tags(SeenTags(tags))
  {
    hide MatchTag, ReadTag, IsSpace, RenderTag, SeenTag;
    if tags != [] {
      var rest := Render(tags[1..]);
      TagsRead(tags[1..]);
      TagReads(tags[0], rest);
      var s := RenderTag(tags[0]) + rest;
      assert s[|RenderTag(tags[0])|..] == rest;
      NotEmpty(tags[0]);
    }
  }

  lemma NotEmpty(tag: Tag)
    ensures RenderTag(tag) != ""
  {
  }

  lemma {:induction false} SameSizes(tags: seq<Tag>)
    ensures SumSizes(SeenTags(tags)) == TotalSize(tags) && |SeenTags(tags)| == |tags|
  {
    if tags != [] {
      SameSizes(tags[1..]);
      assert SeenTags(tags)[1..] == SeenTags(tags[1..]);
    }
  }

  /** A rendered template is accepted when it fits, with its own tags and a size that is the number of
      bytes every sending of it has. */
  lemma RenderedIsAccepted(tags: seq<Tag>, bytes: seq<Byte>)
    requires tags != [] && AllSendable(tags) && TotalSize(tags) <= JUNK_MAX
    ensures ParseImitation(Render(tags)) == Tags(SeenTags(tags))
    ensures Emits(tags, bytes) ==> SumSizes(SeenTags(tags)) == |bytes|
  {
    hide ParseTags, Render, Emits;
    TagsRead(tags);
    SameSizes(tags);
    if Emits(tags, bytes) {
      EmitsItsSize(tags, bytes);
    }
  }
}
