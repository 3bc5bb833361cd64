/** A client's config file: what the panel writes into it, and what it reads back out of one. */
module ClientConf {
  import opened Text
  import Config
  import opened Params

  // --- reading

  /** What a line of a client config sets. */
  function LineSets(line: string): Option<(string, string)> {
    var s := Strip(line);
    if s == "" || s[0] == '#' || s[0] == '[' then None else Config.Setting(line)
  }

  /** The first line that sets the key, wherever it stands. */
  function Lookup(lines: seq<string>, key: string): Option<string> {
    if lines == [] then None
    else
      match LineSets(lines[0])
      case Some(kv) => if kv.0 == key then Some(kv.1) else Lookup(lines[1..], key)
      case None => Lookup(lines[1..], key)
  }

  /** Looking a key up in a file's text, "" when it is not there. */
  function Value(text: string, key: string): string {
    match Lookup(SplitLines(text), key)
    case Some(v) => v
    case None => ""
  }

  /** conf.parse_client_conf: a dictionary in which the first occurrence of a key stays. */
  method ParseClientConf(text: string) returns (out: map<string, string>)
    ensures forall k :: k in out <==> Lookup(SplitLines(text), k).Some?
    ensures forall k :: k in out ==> out[k] == Lookup(SplitLines(text), k).value
  {
    hide LineSets, SplitLines;
    out := map[];
    var lines := SplitLines(text);
    for i := 0 to |lines|
      invariant forall k :: k in out <==> Lookup(lines[..i], k).Some?
      invariant forall k :: k in out ==> out[k] == Lookup(lines[..i], k).value
    {
      assert lines[..i + 1] == lines[..i] + [lines[i]];
      forall k: string { LookupSnoc(lines[..i], lines[i], k); }
      match LineSets(lines[i]) {
        case Some(kv) =>
          if kv.0 !in out {
            out := out[kv.0 := kv.1];
          }
        case None =>
      }
    }
    assert lines[..|lines|] == lines;
  }

  lemma {:induction false} LookupSnoc(lines: seq<string>, line: string, key: string)
    ensures Lookup(lines + [line], key)
            == if Lookup(lines, key).Some? then Lookup(lines, key)
               else if LineSets(line).Some? && LineSets(line).value.0 == key then Some(LineSets(line).value.1) else None
  {
    hide LineSets;
    if lines == [] {
      assert ([] + [line])[1..] == [];
    } else {
      assert (lines + [line])[1..] == lines[1..] + [line];
      LookupSnoc(lines[1..], line, key);
    }
  }

  // --- writing

  /** One line of a config the panel writes. */
  datatype Row = Gap | Head(name: string) | Sets(key: string, value: string)

  function RowText(r: Row): string {
    match r
    case Gap => ""
    case Head(name) => "[" + name + "]"
    case Sets(key, value) => key + " = " + value
  }

  function RowTexts(rows: seq<Row>): (lines: seq<string>)
    ensures |lines| == |rows|
  {
    if rows == [] then [] else [RowText(rows[0])] + RowTexts(rows[1..])
  }

  /** What a value reads back as: up to its first '#', stripped. */
  function ReadsAs(value: string): string {
    Strip(Config.Uncommented(value))
  }

  predicate GoodKey(key: string) {
    key != "" && Trimmed(key) && '=' !in key && '#' !in key && '[' !in key && '\n' !in key
  }

  predicate GoodRow(r: Row) {
    match r
    case Gap => true
    case Head(name) => '\n' !in name
    case Sets(key, value) => GoodKey(key) && '\n' !in value
  }

  predicate GoodRows(rows: seq<Row>) {
    forall i :: 0 <= i < |rows| ==> GoodRow(rows[i])
  }

  /** The first row that sets the key. */
  function RowValue(rows: seq<Row>, key: string): Option<string> {
    if rows == [] then None
    else if rows[0].Sets? && rows[0].key == key then Some(rows[0].value)
    else RowValue(rows[1..], key)
  }

  lemma UncommentedSets(key: string, value: string)
    requires '#' !in key
    ensures Config.Uncommented(key + " = " + value) == key + " = " + Config.Uncommented(value)
  {
    var head := key + " = ";
    assert '#' !in head;
    var i := IndexOf(value, '#');
    var line := head + value;
    if i < |value| {
      PartitionAt(line, head + value[..i], '#', value[i + 1..]);
    } else {
      assert value[..i] == value;
      IndexOfNone(line, '#');
    }
  }

  lemma SetsReads(key: string, value: string)
    requires GoodKey(key)
    ensures LineSets(key + " = " + value) == Some((key, ReadsAs(value)))
  {
    hide IsSpace;
    var line := key + " = " + value;
    UncommentedSets(key, value);
    var u := key + " = " + Config.Uncommented(value);
    PartitionAt(u, key + " ", '=', " " + Config.Uncommented(value));
    OneSpace();
    StripPad("", key, " ");
    assert "" + key + " " == key + " ";
    LstripPad(" ", Config.Uncommented(value));
    StripKeepsFirst(line);
    assert line[0] == key[0];
  }

  lemma OneSpace()
    ensures AllSpace(" ") && AllSpace("")
  {
  }

  lemma HeadSetsNothing(name: string)
    ensures LineSets("[" + name + "]") == None
  {
    StripKeepsFirst("[" + name + "]");
  }

  lemma GapSetsNothing()
    ensures LineSets("") == None
  {
    StripTrimmed("");
  }

  /** What is written reads back: a key gives the value of the first row that sets it, cut at '#' and
      stripped. */
  lemma {:induction false} RowsRead(rows: seq<Row>, key: string)
    requires GoodRows(rows)
    ensures Lookup(RowTexts(rows), key)
            == match RowValue(rows, key) { case Some(v) => Some(ReadsAs(v)) case None => None }
  {
    hide LineSets, ReadsAs, GoodKey;
    if rows != [] {
      assert GoodRow(rows[0]);
      RowsRead(rows[1..], key);
      match rows[0] {
        case Gap => GapSetsNothing();
        case Head(name) => HeadSetsNothing(name);
        case Sets(k, v) => SetsReads(k, v);
      }
      assert RowTexts(rows)[1..] == RowTexts(rows[1..]);
    }
  }

  lemma {:induction false} RowsAreLines(rows: seq<Row>)
    requires GoodRows(rows)
    ensures NoBreaks(RowTexts(rows))
  {
    hide Trimmed;
    if rows != [] {
      assert GoodRow(rows[0]);
      RowsAreLines(rows[1..]);
      assert '\n' !in RowText(rows[0]);
    }
  }

  /** A file of good rows, read by key. */
  lemma FileReads(rows: seq<Row>, key: string)
    requires GoodRows(rows)
    ensures Value(Unlines(RowTexts(rows)), key) == match RowValue(rows, key) { case Some(v) => ReadsAs(v) case None => "" }
  {
    hide Lookup, ReadsAs, GoodRow;
    RowsAreLines(rows);
    LinesRoundTrip(RowTexts(rows));
    RowsRead(rows, key);
  }

  /** A value nothing is cut from. */
  predicate Clean(value: string) {
    Trimmed(value) && '#' !in value && '\n' !in value
  }

  lemma CleanReads(value: string)
    requires Clean(value)
    ensures ReadsAs(value) == value
  {
    IndexOfNone(value, '#');
    assert value[..|value|] == value;
    StripTrimmed(value);
  }

  /** Everything read out of a file is clean. */
  lemma {:induction false} LookupIsClean(lines: seq<string>, key: string)
    requires NoBreaks(lines)
    ensures Lookup(lines, key).Some? ==> Clean(Lookup(lines, key).value)
  {
    hide Config.Uncommented, Trimmed;
    if lines != [] {
      assert NoBreaks(lines[1..]);
      LookupIsClean(lines[1..], key);
      if LineSets(lines[0]).Some? {
        SettingIsClean(lines[0]);
      }
    }
  }

  lemma SettingIsClean(line: string)
    requires '\n' !in line
    ensures Config.Setting(line).Some? ==> Clean(Config.Setting(line).value.1)
  {
    var u := Config.Uncommented(line);
    assert '#' !in u && '\n' !in u;
    var i := IndexOf(u, '=');
    if i < |u| {
      StripChars(u[i + 1..], '#');
      StripChars(u[i + 1..], '\n');
    }
  }

  lemma ValueIsClean(text: string, key: string)
    ensures Clean(Value(text, key))
  {
    hide Clean;
    LookupIsClean(SplitLines(text), key);
    NothingIsClean();
  }

  lemma NothingIsClean()
    ensures Clean("")
  {
  }
}
