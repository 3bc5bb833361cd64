/** One config section as the ordered stream it is: lookups that ignore case, edits that keep
    everything else where it was. */
module Section {
  import opened Text
  import opened Config

  predicate IsKey(item: Item, key: string) {
    item.Kv? && Fold(item.key) == Fold(key)
  }

  predicate NoKey(items: seq<Item>, key: string) {
    forall j :: 0 <= j < |items| ==> !IsKey(items[j], key)
  }

  /** Every value of key, in order: OrderedMulti.all. */
  function All(items: seq<Item>, key: string): seq<string> {
    if items == [] then []
    else (if IsKey(items[0], key) then [items[0].value] else []) + All(items[1..], key)
  }

  /** The section without a key: OrderedMulti.delete. */
  function Without(items: seq<Item>, key: string): seq<Item> {
    if items == [] then []
    else (if IsKey(items[0], key) then [] else [items[0]]) + Without(items[1..], key)
  }

  /** The first occurrence of key, or the length of the section. */
  function First(items: seq<Item>, key: string): (i: nat)
    ensures i <= |items|
    ensures i < |items| ==> IsKey(items[i], key)
    ensures forall j :: 0 <= j < i ==> !IsKey(items[j], key)
  {
    if items == [] || IsKey(items[0], key) then 0 else 1 + First(items[1..], key)
  }

  /** Where a new setting goes: after the last setting there is, or at the end of a section without one. */
  function AfterLastKv(items: seq<Item>): (i: nat)
    ensures i <= |items|
    ensures forall j :: i <= j < |items| ==> !items[j].Kv?
    ensures i == |items| || i == 0 || items[i - 1].Kv? || forall j :: 0 <= j < |items| ==> !items[j].Kv?
  {
    var i := LastKv(items, |items|);
    if i == 0 then |items| else i
  }

  /** One past the last setting among the first n items, or 0. */
  function LastKv(items: seq<Item>, n: nat): (i: nat)
    requires n <= |items|
    ensures i <= n
    ensures i > 0 ==> items[i - 1].Kv?
    ensures forall j :: i <= j < n ==> !items[j].Kv?
  {
    if n == 0 then 0 else if items[n - 1].Kv? then n else LastKv(items, n - 1)
  }

  function Block(key: string, values: seq<string>): (items: seq<Item>)
    ensures |items| == |values|
  {
    seq(|values|, i requires 0 <= i < |values| => Kv(key, values[i], None))
  }

  /** A key the section does not have goes after its last setting. */
  function PutAbsent(items: seq<Item>, key: string, values: seq<string>): seq<Item> {
    var at := AfterLastKv(items);
    items[..at] + Block(key, values) + items[at..]
  }

  /** A key the section has keeps its first place and its spelling there. */
  function PutPresent(items: seq<Item>, first: nat, key: string, values: seq<string>): seq<Item>
    requires first < |items| && items[first].Kv?
  {
    items[..first] + Block(items[first].key, values) + Without(items[first + 1..], key)
  }

  /** The section after OrderedMulti.set_all(key, values). */
  function SetAll(items: seq<Item>, key: string, values: seq<string>): seq<Item> {
    var first := First(items, key);
    if values == [] then Without(items, key)
    else if first == |items| then PutAbsent(items, key, values)
    else PutPresent(items, first, key, values)
  }

  // ------------------------------------------------------------------ what an edit does

  lemma {:induction false} AllAppend(a: seq<Item>, b: seq<Item>, key: string)
    ensures All(a + b, key) == All(a, key) + All(b, key)
  {
    if a == [] {
      assert a + b == b;
    } else {
      assert (a + b)[1..] == a[1..] + b;
      AllAppend(a[1..], b, key);
    }
  }

  lemma {:induction false} WithoutAppend(a: seq<Item>, b: seq<Item>, key: string)
    ensures Without(a + b, key) == Without(a, key) + Without(b, key)
  {
    if a == [] {
      assert a + b == b;
    } else {
      assert (a + b)[1..] == a[1..] + b;
      WithoutAppend(a[1..], b, key);
    }
  }

  lemma {:induction false} AbsentKey(items: seq<Item>, key: string)
    requires forall i :: 0 <= i < |items| ==> !IsKey(items[i], key)
    ensures All(items, key) == [] && Without(items, key) == items
  {
    if items != [] {
      AbsentKey(items[1..], key);
    }
  }

  lemma {:induction false} WithoutHasNone(items: seq<Item>, key: string)
    ensures forall i :: 0 <= i < |Without(items, key)| ==> !IsKey(Without(items, key)[i], key)
    ensures All(Without(items, key), key) == []
    ensures Without(Without(items, key), key) == Without(items, key)
  {
    if items != [] {
      WithoutHasNone(items[1..], key);
    }
    AbsentKey(Without(items, key), key);
  }

  lemma {:induction false} WithoutKeepsOthers(items: seq<Item>, key: string, other: string)
    requires Fold(key) != Fold(other)
    ensures All(Without(items, key), other) == All(items, other)
  {
    if items != [] {
      var head := if IsKey(items[0], key) then [] else [items[0]];
      AllAppend(head, Without(items[1..], key), other);
      WithoutKeepsOthers(items[1..], key, other);
    }
  }

  lemma {:induction false} BlockIsKey(key: string, name: string, values: seq<string>)
    requires Fold(key) == Fold(name)
    ensures All(Block(key, values), name) == values && Without(Block(key, values), name) == []
    ensures forall other :: Fold(other) != Fold(name) ==> All(Block(key, values), other) == []
  {
    var items := Block(key, values);
    if values != [] {
      assert items[1..] == Block(key, values[1..]);
      BlockIsKey(key, name, values[1..]);
    }
  }

  lemma SetAbsentSays(items: seq<Item>, key: string, values: seq<string>)
    requires NoKey(items, key) && values != []
    ensures var at := AfterLastKv(items);
            var r := items[..at] + Block(key, values) + items[at..];
            All(r, key) == values && Without(r, key) == items
  {
    hide IsKey, All, Without, Block, AfterLastKv;
    var at := AfterLastKv(items);
    var before, after, block := items[..at], items[at..], Block(key, values);
    assert NoKey(before, key) && NoKey(after, key);
    BlockIsKey(key, key, values);
    AbsentKey(before, key);
    AbsentKey(after, key);
    AllAppend(before + block, after, key);
    AllAppend(before, block, key);
    WithoutAppend(before + block, after, key);
    WithoutAppend(before, block, key);
    assert before + [] + after == items && [] + values + [] == values;
  }

  lemma SetPresentSays(items: seq<Item>, key: string, name: string, values: seq<string>, first: nat)
    requires first < |items| && IsKey(items[first], key) && NoKey(items[..first], key) && Fold(name) == Fold(key)
    ensures var r := items[..first] + Block(name, values) + Without(items[first + 1..], key);
            All(r, key) == values && Without(r, key) == Without(items, key)
  {
    hide IsKey, All, Without, Block, Fold;
    var before, rest, block := items[..first], Without(items[first + 1..], key), Block(name, values);
    BlockIsKey(name, key, values);
    AbsentKey(before, key);
    WithoutHasNone(items[first + 1..], key);
    AllAppend(before + block, rest, key);
    AllAppend(before, block, key);
    WithoutAppend(before + block, rest, key);
    WithoutAppend(before, block, key);
    OneKey(items[first], key);
    assert items == before + [items[first]] + items[first + 1..];
    WithoutAppend(before + [items[first]], items[first + 1..], key);
    WithoutAppend(before, [items[first]], key);
    assert before + [] + rest == before + rest && [] + values + [] == values;
  }

  /** set_all leaves exactly the given values under the key, whatever its spelling in the file, and
      every other setting, comment, blank and raw line where it stood relative to the others. */
  lemma SetAllSays(items: seq<Item>, key: string, values: seq<string>)
    ensures All(SetAll(items, key, values), key) == values
    ensures Without(SetAll(items, key, values), key) == Without(items, key)
  {
    hide Fold, All, Without, AfterLastKv, Block;
    var first := First(items, key);
    if values == [] {
      WithoutHasNone(items, key);
    } else if first == |items| {
      SetAbsentSays(items, key, values);
      AbsentKey(items, key);
    } else {
      SetPresentSays(items, key, items[first].key, values, first);
    }
  }

  lemma OneKey(item: Item, key: string)
    requires IsKey(item, key)
    ensures Without([item], key) == [] && All([item], key) == [item.value]
  {
  }

  /** An edit of one key is invisible under every other. */
  lemma SetAllKeepsOthers(items: seq<Item>, key: string, values: seq<string>, other: string)
    requires Fold(key) != Fold(other)
    ensures All(SetAll(items, key, values), other) == All(items, other)
  {
    var edited := SetAll(items, key, values);
    SetAllSays(items, key, values);
    WithoutKeepsOthers(edited, key, other);
    WithoutKeepsOthers(items, key, other);
  }

  /** Where an edit put its run of lines: right after what was in front of it. */
  lemma RunStartsAt(before: seq<Item>, name: string, key: string, values: seq<string>, rest: seq<Item>)
    requires values != [] && Fold(name) == Fold(key)
    requires forall j :: 0 <= j < |before| ==> !IsKey(before[j], key)
    requires forall j :: 0 <= j < |rest| ==> !IsKey(rest[j], key)
    ensures SetAll(before + Block(name, values) + rest, key, values) == before + Block(name, values) + rest
  {
    var block := Block(name, values);
    var edited := before + block + rest;
    var at := |before|;
    assert edited[at] == block[0] && IsKey(edited[at], key);
    assert forall j :: 0 <= j < at ==> edited[j] == before[j];
    assert First(edited, key) == at;
    hide Fold, First, Without;
    assert edited[..at] == before && edited[at].key == name;
    assert edited[at + 1..] == block[1..] + rest;
    WithoutAppend(block[1..], rest, key);
    assert block[1..] == Block(name, values[1..]);
    BlockIsKey(name, key, values[1..]);
    AbsentKey(rest, key);
    assert [] + rest == rest;
  }

  /** Writing the same values again changes nothing: not the text, not the position. */
  lemma SetAllTwice(items: seq<Item>, key: string, values: seq<string>)
    ensures SetAll(SetAll(items, key, values), key, values) == SetAll(items, key, values)
  {
    hide Fold, All, Without, AfterLastKv;
    var edited := SetAll(items, key, values);
    if values == [] {
      WithoutHasNone(items, key);
      assert First(edited, key) == |edited|;
    } else {
      var first := First(items, key);
      if first == |items| {
        var at := AfterLastKv(items);
        RunStartsAt(items[..at], key, key, values, items[at..]);
      } else {
        WithoutHasNone(items[first + 1..], key);
        RunStartsAt(items[..first], items[first].key, key, values, Without(items[first + 1..], key));
      }
    }
  }

  // ------------------------------------------------------------------ runs

  /** A section in which key is one run of freshly written lines: what set_all leaves behind. */
  ghost predicate IsRun(items: seq<Item>, key: string, values: seq<string>, before: seq<Item>, name: string,
                        rest: seq<Item>) {
    && items == before + Block(name, values) + rest
    && Fold(name) == Fold(key)
    && NoKey(before, key) && NoKey(rest, key)
  }

  lemma SetAllRun(items: seq<Item>, key: string, values: seq<string>)
    returns (before: seq<Item>, name: string, rest: seq<Item>)
    requires values != []
    ensures IsRun(SetAll(items, key, values), key, values, before, name, rest)
  {
    hide Fold, AfterLastKv, Without;
    var first := First(items, key);
    if first == |items| {
      var at := AfterLastKv(items);
      before, name, rest := items[..at], key, items[at..];
    } else {
      WithoutHasNone(items[first + 1..], key);
      before, name, rest := items[..first], items[first].key, Without(items[first + 1..], key);
    }
  }

  lemma {:induction false} WithoutSubset(items: seq<Item>, key: string, other: string)
    requires NoKey(items, key)
    ensures NoKey(Without(items, other), key)
  {
    if items != [] {
      var head := if IsKey(items[0], other) then [] else [items[0]];
      var w := Without(items[1..], other);
      assert NoKey(items[1..], key);
      WithoutSubset(items[1..], key, other);
      assert NoKey(head + w, key) by {
        forall j | 0 <= j < |head + w| ensures !IsKey((head + w)[j], key) {
          assert j < |head| || (head + w)[j] == w[j - |head|];
        }
      }
    }
  }

  lemma BlockOther(name: string, values: seq<string>, other: string)
    requires Fold(name) != Fold(other)
    ensures Without(Block(name, values), other) == Block(name, values)
    ensures forall j :: 0 <= j < |values| ==> !IsKey(Block(name, values)[j], other)
  {
    AbsentKey(Block(name, values), other);
  }

  lemma FirstIn(a: seq<Item>, b: seq<Item>, key: string)
    ensures First(a, key) < |a| ==> First(a + b, key) == First(a, key)
    ensures First(a, key) == |a| ==> First(a + b, key) == |a| + First(b, key)
  {
    var f := First(a + b, key);
    assert forall j :: 0 <= j < |a| ==> (a + b)[j] == a[j];
    assert forall j :: 0 <= j < |b| ==> (a + b)[|a| + j] == b[j];
    if First(a, key) == |a| {
      assert First(b, key) < |b| ==> IsKey((a + b)[|a| + First(b, key)], key);
    }
  }

  lemma AfterRun(before: seq<Item>, run: seq<Item>, rest: seq<Item>)
    requires run != [] && run[|run| - 1].Kv?
    ensures AfterLastKv(before + run + rest) >= |before| + |run|
  {
    assert (before + run + rest)[|before| + |run| - 1] == run[|run| - 1];
  }

  lemma RunThenAppended(before: seq<Item>, run: seq<Item>, rest: seq<Item>, other: string, written: seq<string>)
    returns (cut: nat)
    requires written != [] && run != [] && run[|run| - 1].Kv?
    requires First(before + run + rest, other) == |before + run + rest|
    ensures cut <= |rest|
    ensures SetAll(before + run + rest, other, written) == before + run + (rest[..cut] + Block(other, written) + rest[cut..])
  {
    hide First, AfterLastKv, Block, Without;
    var items := before + run + rest;
    var at := AfterLastKv(items);
    AfterRun(before, run, rest);
    cut := at - |before| - |run|;
    assert items[..at] == before + run + rest[..cut] && items[at..] == rest[cut..];
  }

  lemma RunThenBefore(before: seq<Item>, run: seq<Item>, rest: seq<Item>, other: string, written: seq<string>)
    requires written != [] && First(before, other) < |before| && Without(run, other) == run
    ensures var g := First(before, other);
            SetAll(before + run + rest, other, written)
            == (before[..g] + Block(before[g].key, written) + Without(before[g + 1..], other)) + run + Without(rest, other)
  {
    var items := before + run + rest;
    var g := First(before, other);
    FirstIn(before, run + rest, other);
    assert items == before + (run + rest);
    hide First, Fold, Without;
    var tail := before[g + 1..];
    assert items[g] == before[g] && items[..g] == before[..g] && items[g + 1..] == tail + run + rest;
    WithoutAppend(tail + run, rest, other);
    WithoutAppend(tail, run, other);
    Regroup(before[..g], Block(before[g].key, written), Without(tail, other), run, Without(rest, other));
  }

  lemma Regroup<T>(a: seq<T>, b: seq<T>, c: seq<T>, d: seq<T>, e: seq<T>)
    ensures a + b + (c + d + e) == (a + b + c) + d + e
  {
  }

  lemma RunThenAfter(before: seq<Item>, run: seq<Item>, rest: seq<Item>, other: string, written: seq<string>)
    requires written != [] && First(before + run, other) == |before + run| && First(rest, other) < |rest|
    ensures var g := First(rest, other);
            SetAll(before + run + rest, other, written)
            == before + run + (rest[..g] + Block(rest[g].key, written) + Without(rest[g + 1..], other))
  {
    var items := before + run + rest;
    var g := First(rest, other);
    FirstIn(before + run, rest, other);
    hide First, Fold, Without;
    var first := |before + run| + g;
    assert items[first] == rest[g] && items[..first] == before + run + rest[..g] && items[first + 1..] == rest[g + 1..];
  }

  lemma FirstOf(items: seq<Item>, key: string)
    requires forall j :: 0 <= j < |items| ==> !IsKey(items[j], key)
    ensures First(items, key) == |items|
  {
  }

  lemma NoKeyThree(a: seq<Item>, b: seq<Item>, c: seq<Item>, key: string)
    requires NoKey(a, key) && NoKey(b, key) && NoKey(c, key)
    ensures NoKey(a + b + c, key)
  {
  }

  lemma NoKeyParts(items: seq<Item>, cut: nat, key: string, other: string)
    requires cut <= |items| && NoKey(items, key)
    ensures NoKey(items[..cut], key) && NoKey(items[cut..], key) && NoKey(Without(items[cut..], other), key)
    ensures cut < |items| ==> NoKey(Without(items[cut + 1..], other), key)
  {
    WithoutSubset(items[cut..], key, other);
    if cut < |items| { WithoutSubset(items[cut + 1..], key, other); }
  }

  /** Writing another key leaves a run a run: a new setting never lands inside it. */
  lemma RunSurvives(items: seq<Item>, key: string, values: seq<string>, before: seq<Item>, name: string,
                    rest: seq<Item>, other: string, written: seq<string>)
    returns (before': seq<Item>, rest': seq<Item>)
    requires IsRun(items, key, values, before, name, rest) && values != [] && written != []
    requires Fold(other) != Fold(key)
    ensures IsRun(SetAll(items, other, written), key, values, before', name, rest')
  {
    var run := Block(name, values);
    assert run[|run| - 1].Kv?;
    BlockOther(name, values, other);
    assert NoKey(before, key) && NoKey(rest, key);
    hide Fold, Without, SetAll, First, Block, IsKey;
    FirstOf(run, other);
    FirstIn(before, run, other);
    FirstIn(before + run, rest, other);
    if First(before, other) < |before| {
      var g := First(before, other);
      RunThenBefore(before, run, rest, other, written);
      KeyOfFirst(before, other, key);
      BlockOther(before[g].key, written, key);
      NoKeyParts(before, g, key, other);
      NoKeyParts(rest, 0, key, other);
      assert rest[0..] == rest;
      NoKeyThree(before[..g], Block(before[g].key, written), Without(before[g + 1..], other), key);
      before' := before[..g] + Block(before[g].key, written) + Without(before[g + 1..], other);
      rest' := Without(rest, other);
    } else if First(rest, other) < |rest| {
      var g := First(rest, other);
      RunThenAfter(before, run, rest, other, written);
      KeyOfFirst(rest, other, key);
      BlockOther(rest[g].key, written, key);
      NoKeyParts(rest, g, key, other);
      NoKeyThree(rest[..g], Block(rest[g].key, written), Without(rest[g + 1..], other), key);
      before' := before;
      rest' := rest[..g] + Block(rest[g].key, written) + Without(rest[g + 1..], other);
    } else {
      var cut := RunThenAppended(before, run, rest, other, written);
      BlockOther(other, written, key);
      NoKeyParts(rest, cut, key, other);
      NoKeyThree(rest[..cut], Block(other, written), rest[cut..], key);
      before' := before;
      rest' := rest[..cut] + Block(other, written) + rest[cut..];
    }
    assert NoKey(before', key) && NoKey(rest', key);
  }

  lemma KeyOfFirst(items: seq<Item>, other: string, key: string)
    requires First(items, other) < |items| && Fold(other) != Fold(key)
    ensures items[First(items, other)].Kv? && Fold(items[First(items, other)].key) != Fold(key)
  {
  }

  lemma RunIsFixed(items: seq<Item>, key: string, values: seq<string>, before: seq<Item>, name: string, rest: seq<Item>)
    requires IsRun(items, key, values, before, name, rest) && values != []
    ensures SetAll(items, key, values) == items && All(items, key) == values
  {
    hide Fold;
    RunStartsAt(before, name, key, values, rest);
    SetAllSays(items, key, values);
  }

  lemma OneItem(item: Item, key: string)
    ensures Without([item], key) == (if IsKey(item, key) then [] else [item]) && Without([], key) == []
  {
  }

  lemma {:induction false} WithoutCommutes(items: seq<Item>, a: string, b: string)
    ensures Without(Without(items, a), b) == Without(Without(items, b), a)
  {
    hide Fold;
    if items != [] {
      WithoutCommutes(items[1..], a, b);
      var headA := if IsKey(items[0], a) then [] else [items[0]];
      var headB := if IsKey(items[0], b) then [] else [items[0]];
      WithoutAppend(headA, Without(items[1..], a), b);
      WithoutAppend(headB, Without(items[1..], b), a);
      assert Without(headA, b) == Without(headB, a) by { OneItem(items[0], a); OneItem(items[0], b); }
    }
  }
}
