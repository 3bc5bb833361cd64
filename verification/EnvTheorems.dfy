/** Reading after updating is the old reading overwritten, and nothing else in the file moves. */
module EnvTheorems {
  import opened Text
  import opened EnvFile
  import opened EnvUpdate

  lemma {:induction false} ReadLinesJoin(values: Values, xs: seq<string>, ys: seq<string>)
    ensures ReadLines(values, xs + ys) == ReadLines(ReadLines(values, xs), ys)
  {
    hide Absorb;
    if ys == [] {
      assert xs + ys == xs;
    } else {
      assert (xs + ys)[..|xs + ys| - 1] == xs + ys[..|ys| - 1];
      assert (xs + ys)[|xs + ys| - 1] == ys[|ys| - 1];
      ReadLinesJoin(values, xs, ys[..|ys| - 1]);
    }
  }

  lemma AssignedSnoc(lines: seq<string>, key: string)
    requires lines != []
    ensures Assigned(lines, key) <==> Assigned(lines[..|lines| - 1], key) || SetsKey(lines[|lines| - 1], key)
  {
    hide SetsKey;
    var short := lines[..|lines| - 1];
    if Assigned(short, key) {
      var i :| 0 <= i < |short| && SetsKey(short[i], key);
      assert SetsKey(lines[i], key);
    }
    if Assigned(lines, key) && !SetsKey(lines[|lines| - 1], key) {
      var i :| 0 <= i < |lines| && SetsKey(lines[i], key);
      assert SetsKey(short[i], key);
    }
  }

  /** One map overwritten by part of another, at one key. */
  predicate Overwritten(now: Values, was: Values, wanted: Values, there: bool, key: string) {
    if key in wanted && there then key in now && now[key] == wanted[key]
    else (key in now <==> key in was) && (key in now && key in was ==> now[key] == was[key])
  }

  lemma RewriteReads(line: string, wanted: Values)
    ensures var p, q := ParseLine(line), ParseLine(Rewrite(line, wanted));
            && q.Setting? == p.Setting?
            && (p.Setting? ==> q.key == p.key && q.value == if p.key in wanted then wanted[p.key] else p.value)
  {
    hide ParseLine, Render, ColumnAfter;
    if ParseLine(line).Setting? && ParseLine(line).key in wanted {
      RenderSays(line, wanted[ParseLine(line).key]);
    }
  }

  lemma RewriteAllSnoc(lines: seq<string>, wanted: Values)
    requires lines != []
    ensures var out := RewriteAll(lines, wanted);
            out[..|out| - 1] == RewriteAll(lines[..|lines| - 1], wanted) && out[|out| - 1] == Rewrite(lines[|lines| - 1], wanted)
  {
    hide Rewrite;
  }

  /** Reading the rewritten lines differs from reading the old ones at the changed keys they assign. */
  lemma {:induction false} RewrittenReads(values: Values, lines: seq<string>, wanted: Values, key: string)
    ensures Overwritten(ReadLines(values, RewriteAll(lines, wanted)), ReadLines(values, lines), wanted,
                        Assigned(lines, key), key)
  {
    hide ParseLine, Rewrite, RewriteAll, Assigned;
    if lines == [] {
      NoneAssigned(key);
      assert RewriteAll(lines, wanted) == [];
    } else {
      RewrittenReads(values, lines[..|lines| - 1], wanted, key);
      RewriteAllSnoc(lines, wanted);
      AssignedSnoc(lines, key);
      RewriteReads(lines[|lines| - 1], wanted);
    }
  }

  lemma NoneAssigned(key: string)
    ensures !Assigned([], key)
  {
  }

  /** A new line assigns its key its value. */
  lemma NewLineReads(c: Change)
    requires IsName(c.key)
    ensures var p := ParseLine(NewLine(c)); p.Setting? && p.key == c.key && p.value == c.value
  {
    hide ParseLine, ScanWord, MatchExport, Quote;
    var head := c.key + "=";
    assert head + "" == head;
    BareName(c.key);
    ReadsAs(head, c.value, "", "", 0);
    assert head[..|head|] + (Quote(c.value) + "") == NewLine(c);
  }

  lemma BareName(key: string)
    requires IsName(key)
    ensures MatchAssign(key + "=") == Assign(key, |key| + 1)
  {
    hide IsName, MatchName, Exports;
    var s := key + "=";
    assert s + "" == s;
    assert "" + s == s;
    NameFirst(key);
    BlanksAre("", s);
    ExportsAre("", key, "");
    NameDecides(key, "");
    assert s[0..] == s;
    Nothing();
  }

  lemma Nothing()
    ensures IsExport("") && AllBlank("")
  {
  }

  lemma NameFirst(key: string)
    requires IsName(key)
    ensures !IsBlank((key + "=")[0])
  {
    assert IsWordChar(key[0]);
  }

  lemma {:induction false} ToMapHas(changes: seq<Change>, i: nat)
    requires Distinct(changes) && i < |changes|
    ensures changes[i].key in ToMap(changes) && ToMap(changes)[changes[i].key] == changes[i].value
  {
    if i < |changes| - 1 {
      assert changes[..|changes| - 1][i] == changes[i];
      ToMapHas(changes[..|changes| - 1], i);
    }
  }

  /** Reading the appended lines sets the changed keys that no line assigned. */
  lemma {:induction false} AppendedReads(values: Values, lines: seq<string>, changes: seq<Change>, key: string)
    requires forall i :: 0 <= i < |changes| ==> IsName(changes[i].key)
    ensures Overwritten(ReadLines(values, Appended(lines, changes)), values, ToMap(changes), !Assigned(lines, key), key)
  {
    hide ParseLine, Assigned, NewLine, IsName;
    if changes != [] {
      var last := changes[|changes| - 1];
      var before := Appended(lines, changes[..|changes| - 1]);
      AppendedReads(values, lines, changes[..|changes| - 1], key);
      if !Assigned(lines, last.key) {
        ReadLinesJoin(values, before, [NewLine(last)]);
        ReadOne(ReadLines(values, before), NewLine(last));
        NewLineReads(last);
      }
    }
  }

  lemma ReadOne(values: Values, line: string)
    ensures ReadLines(values, [line]) == Absorb(values, line)
  {
    hide Absorb;
    assert [line][..0] == [];
    assert ReadLines(values, []) == values;
  }

  lemma HeaderAssignsNothing()
    ensures !ParseLine(Header()).Setting?
  {
    hide ScanWord;
    assert Header()[0] == '#';
    HashAssignsNothing(Header());
  }

  lemma HashAssignsNothing(s: string)
    requires s != "" && s[0] == '#'
    ensures MatchAssign(s).NotAssign?
  {
    assert Blanks(s) == 0 && s[0..] == s;
    assert |s| > 6 ==> s[..6][0] == '#';
    assert EXPORT[0] != '#';
    assert WordChars(s) == 0;
  }

  lemma KeptReads(defaults: Values, text: string, wanted: Values, key: string)
    ensures Overwritten(ReadLines(defaults, Kept(text, wanted)), ReadLines(defaults, Splitlines(text)), wanted,
                        Assigned(Splitlines(text), key), key)
  {
    hide RewriteAll, Header, ParseLine, Assigned, Splitlines;
    var lines := Splitlines(text);
    RewrittenReads(defaults, lines, wanted, key);
    if RewriteAll(lines, wanted) == [] && text == "" {
      assert lines == [];
      ReadOne(defaults, Header());
      HeaderAssignsNothing();
      NoneAssigned(key);
    }
  }

  lemma NamesIfClean(changes: seq<Change>)
    requires AllAccepted(changes) && CleanChanges(changes)
    ensures forall i :: 0 <= i < |changes| ==> IsName(changes[i].key)
  {
    forall i | 0 <= i < |changes| ensures IsName(changes[i].key) {
      var key := changes[i].key;
      assert Accepted(changes[i]);
      assert OneLine(key);
      assert key != "" ==> !IsBreak(key[|key| - 1]);
    }
  }

  /** The whole file that was written, read. */
  lemma OutReads(defaults: Values, file: Option<string>, changes: seq<Change>)
    requires forall i :: 0 <= i < |changes| ==> IsName(changes[i].key)
    ensures ReadLines(defaults, Out(file, changes)) == ReadOver(defaults, file) + ToMap(changes)
  {
    hide Kept, Appended, Assigned, ReadText, Splitlines, ReadLines, ToMap;
    var text, wanted := ReadText(file), ToMap(changes);
    var kept := ReadLines(defaults, Kept(text, wanted));
    ReadLinesJoin(defaults, Kept(text, wanted), Appended(Splitlines(text), changes));
    var now := ReadLines(defaults, Out(file, changes));
    var was := ReadOver(defaults, file);
    forall key: string
      ensures (key in now <==> key in was + wanted) && (key in now ==> now[key] == (was + wanted)[key])
    {
      KeptReads(defaults, text, wanted, key);
      AppendedReads(kept, Splitlines(text), changes, key);
    }
    assert now == was + wanted;
  }

  lemma OutNotEmpty(file: Option<string>, changes: seq<Change>)
    ensures Out(file, changes) != []
  {
    hide Appended, Rewrite, ToMap, ReadText;
    var text := ReadText(file);
    if text != "" {
      assert Splitlines(text) != [];
    }
  }

  lemma CleanUpdateReads(defaults: Values, file: Option<string>, changes: seq<Change>)
    requires Update(file, changes).Written? && CleanChanges(changes)
    ensures ReadOver(defaults, Some(Update(file, changes).raw)) == ReadOver(defaults, file) + ToMap(changes)
    ensures Splitlines(ReadText(Some(Update(file, changes).raw))) == Out(file, changes)
  {
    hide Out, ReadLines, ToMap, Splitlines, CleanChanges, ReadText;
    OutClean(file, changes);
    OutNotEmpty(file, changes);
    NamesIfClean(changes);
    OutReads(defaults, file, changes);
    WrittenLines(Out(file, changes));
  }

  /** Whatever stands for the keys a file does not set: a reading after an update is the old reading
      overwritten by the changes exactly when every key and value stays on one line. */
  lemma UpdateReads(defaults: Values, file: Option<string>, changes: seq<Change>)
    requires AllClean(defaults) && Distinct(changes) && Update(file, changes).Written?
    ensures ReadOver(defaults, Some(Update(file, changes).raw)) == ReadOver(defaults, file) + ToMap(changes)
            <==> CleanChanges(changes)
  {
    hide ReadOver, ToMap, Update, OneLine;
    if CleanChanges(changes) {
      CleanUpdateReads(defaults, file, changes);
    } else {
      var i :| 0 <= i < |changes| && !(OneLine(changes[i].key) && OneLine(changes[i].value));
      ToMapHas(changes, i);
      ReadOverClean(defaults, Some(Update(file, changes).raw));
    }
  }

  /** read_env after update_env. The update itself refuses only line feeds and carriage returns in
      values: it lets through a value with any other character that ends a line, and a key that ends
      in a line feed, and those do not come back. */
  lemma UpdateRoundTrip(file: Option<string>, changes: seq<Change>)
    requires Distinct(changes) && Update(file, changes).Written?
    ensures ReadEnv(Some(Update(file, changes).raw)) == ReadEnv(file) + ToMap(changes) <==> CleanChanges(changes)
  {
    hide ReadOver, ToMap, Update, Defaults, CleanChanges, AllClean;
    DefaultsClean();
    UpdateReads(Defaults(), file, changes);
  }

  /** Every line that does not assign a changed key is still there, where it was and character for
      character; one that does keeps its key, its prefix and its comment, the comment where it began or
      one space after a value that reaches it; and new lines come after all of them. */
  lemma UpdateFrame(file: Option<string>, changes: seq<Change>, i: nat)
    requires Distinct(changes) && Update(file, changes).Written? && CleanChanges(changes)
    requires i < |Splitlines(ReadText(file))|
    ensures var before := Splitlines(ReadText(file));
            var after := Splitlines(ReadText(Some(Update(file, changes).raw)));
            var p := ParseLine(before[i]);
            && i < |after|
            && (if p.Setting? && p.key in ToMap(changes) then
                  var q := ParseLine(after[i]);
                  && q.Setting? && q.key == p.key && q.value == ToMap(changes)[p.key] && q.prefix == p.prefix
                  && q.comment == p.comment && (p.comment == "" ==> q.trailer == p.trailer)
                  && (p.comment != "" ==> q.column == ColumnAfter(p, q.value))
                else after[i] == before[i])
  {
    hide ReadEnv, ToMap, Update, ParseLine, Splitlines, ReadText, Appended, ColumnAfter, Render;
    var before := Splitlines(ReadText(file));
    var wanted := ToMap(changes);
    CleanUpdateReads(map[], file, changes);
    KeptAt(file, changes, i);
    if ParseLine(before[i]).Setting? && ParseLine(before[i]).key in wanted {
      RenderSays(before[i], wanted[ParseLine(before[i]).key]);
    }
  }

  lemma KeptAt(file: Option<string>, changes: seq<Change>, i: nat)
    requires i < |Splitlines(ReadText(file))|
    ensures i < |Out(file, changes)| && Out(file, changes)[i] == Rewrite(Splitlines(ReadText(file))[i], ToMap(changes))
  {
    hide ToMap, Rewrite, Splitlines, ReadText, Appended;
  }

  /** The characters a value can carry that the update lets through and the reading does not give
      back: a vertical tab, for one. */
  lemma VerticalTabIsLost(defaults: Values, file: Option<string>, key: string, value: string)
    requires AllClean(defaults) && IsName(key) && '\n' !in value && '\r' !in value && (0x0B as char) in value
    ensures var c := [Change(key, value)];
            && Update(file, c).Written?
            && ReadOver(defaults, Some(Update(file, c).raw)) != ReadOver(defaults, file) + ToMap(c)
  {
    hide ReadOver, ToMap, AllClean;
    var c := [Change(key, value)];
    var i :| 0 <= i < |value| && value[i] == 0x0B as char;
    assert !OneLine(c[0].value);
    assert Accepted(c[0]);
    UpdateReads(defaults, file, c);
  }

  // --- what is refused

  /** A shell variable's name, and after it one line feed or none. */
  predicate KeyShape(key: string) {
    var n := if key != "" && key[|key| - 1] == '\n' then |key| - 1 else |key|;
    && n > 0 && !('0' <= key[0] <= '9')
    && forall i :: 0 <= i < n ==> 'A' <= key[i] <= 'Z' || 'a' <= key[i] <= 'z' || '0' <= key[i] <= '9' || key[i] == '_'
  }

  /** A key of another shape, or a value with a line feed or a carriage return in it. */
  predicate Refusable(c: Change) {
    !KeyShape(c.key) || exists i :: 0 <= i < |c.value| && (c.value[i] == '\n' || c.value[i] == '\r')
  }

  lemma KeyShapeIs(key: string)
    ensures KeyAccepted(key) <==> KeyShape(key)
  {
    if key != "" && key[|key| - 1] == '\n' {
      var short := key[..|key| - 1];
      assert forall i :: 0 <= i < |short| ==> short[i] == key[i];
      assert !IsWordChar(key[|key| - 1]);
    }
  }

  lemma RefusableIs(c: Change)
    ensures Accepted(c) <==> !Refusable(c)
  {
    KeyShapeIs(c.key);
    hide KeyAccepted, KeyShape;
  }

  /** update_env writes nothing for no changes, and refuses the rest exactly when one of them cannot be taken;
      one that is refused keeps all of them from being written. */
  lemma RefusedExactly(file: Option<string>, changes: seq<Change>)
    ensures Update(file, changes).Untouched? <==> changes == []
    ensures Update(file, changes).Refused? <==> exists i :: 0 <= i < |changes| && Refusable(changes[i])
  {
    hide Out, Refusable, Accepted;
    forall i | 0 <= i < |changes| ensures Accepted(changes[i]) <==> !Refusable(changes[i]) {
      RefusableIs(changes[i]);
    }
  }
}
