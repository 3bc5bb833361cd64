/** OrderedMulti as the object it is: a list of mutable line items, edited in place. */
module SectionObject {
  import opened Text
  import opened Config
  import opened Section

  datatype Kind = KvKind | BlankKind | CommentKind | RawKind

  /** One line of a section. Editing a setting changes the item, not the list it sits in. */
  class LineItem {
    var kind: Kind
    var key: string
    var value: string
    var text: Option<string>

    constructor (kind: Kind, key: string, value: string, text: Option<string>)
      ensures this.kind == kind && this.key == key && this.value == value && this.text == text
    {
      this.kind, this.key, this.value, this.text := kind, key, value, text;
    }

    function View(): Item
      reads this
    {
      match kind
      case KvKind => Kv(key, value, text)
      case BlankKind => Blank(OrEmpty(text))
      case CommentKind => Comment(OrEmpty(text))
      case RawKind => Raw(OrEmpty(text))
    }
  }

  /** The list without the items standing at the given places. */
  ghost predicate AreIndexes(found: seq<nat>, items: seq<Item>, key: string) {
    && (forall k :: 0 <= k < |found| ==> found[k] < |items| && IsKey(items[found[k]], key))
    && (forall k, l :: 0 <= k < l < |found| ==> found[k] < found[l])
    && (forall i :: 0 <= i < |items| && IsKey(items[i], key) ==> i in found)
  }

  lemma IndexesBefore(items: seq<Item>, key: string, found: seq<nat>)
    requires AreIndexes(found, items, key) && found != []
    ensures var last := |found| - 1;
            var i := found[last];
            AreIndexes(found[..last], items[..i], key) && NoKey(items[i + 1..], key)
  {
    hide IsKey;
    var last := |found| - 1;
    var i := found[last];
    forall j | 0 <= j < i && IsKey(items[..i][j], key) ensures j in found[..last] {
      assert items[..i][j] == items[j];
      var k :| 0 <= k < |found| && found[k] == j;
      assert found[..last][k] == j;
    }
    var after := items[i + 1..];
    assert forall j :: 0 <= j < |after| ==> after[j] == items[i + 1 + j] && i + 1 + j !in found;
  }

  lemma {:induction false} AllAtIndexes(items: seq<Item>, key: string, found: seq<nat>)
    requires AreIndexes(found, items, key)
    ensures |All(items, key)| == |found|
    ensures forall k :: 0 <= k < |found| ==> All(items, key)[k] == items[found[k]].value
    decreases |found|
  {
    hide Fold, All;
    if found == [] {
      AbsentKey(items, key);
    } else {
      var last := |found| - 1;
      var i := found[last];
      IndexesBefore(items, key, found);
      AllAtIndexes(items[..i], key, found[..last]);
      AbsentKey(items[i + 1..], key);
      OneKey(items[i], key);
      assert items == items[..i] + [items[i]] + items[i + 1..];
      AllAppend(items[..i] + [items[i]], items[i + 1..], key);
      AllAppend(items[..i], [items[i]], key);
    }
  }

  lemma DropStep(was: seq<Item>, key: string, found: seq<nat>, k: nat)
    requires AreIndexes(found, was, key) && 1 <= k <= |found|
    ensures var index := found[k - 1];
            var b := if k < |found| then found[k] else |was|;
            index < b <= |was| && Without(was[index..], key) == was[index + 1..b] + Without(was[b..], key)
  {
    hide Fold, Without;
    var index := found[k - 1];
    var b := if k < |found| then found[k] else |was|;
    var gap := was[index + 1..b];
    assert forall j :: 0 <= j < |gap| ==> gap[j] == was[index + 1 + j] && index + 1 + j !in found;
    AbsentKey(gap, key);
    OneKey(was[index], key);
    assert was[index..] == [was[index]] + gap + was[b..];
    WithoutAppend([was[index]] + gap, was[b..], key);
    WithoutAppend([was[index]], gap, key);
  }

  lemma FirstIsFirstIndex(items: seq<Item>, key: string, found: seq<nat>)
    requires AreIndexes(found, items, key)
    ensures First(items, key) == if found == [] then |items| else found[0]
  {
    hide Fold;
  }

  lemma {:induction false} LastKvIs(items: seq<Item>, n: nat, i: nat)
    requires i <= n <= |items|
    requires i > 0 ==> items[i - 1].Kv?
    requires forall j :: i <= j < n ==> !items[j].Kv?
    ensures LastKv(items, n) == i
  {
    if n > i {
      LastKvIs(items, n - 1, i);
    }
  }

  lemma AppendedAfterRun(was: seq<Item>, key: string, values: seq<string>)
    ensures var at := AfterLastKv(was);
            AfterLastKv(was[..at] + Block(key, values) + was[at..]) == at + |values|
  {
    var at := AfterLastKv(was);
    var now := was[..at] + Block(key, values) + was[at..];
    var last := LastKv(was, |was|);
    if values == [] {
      assert now == was;
    } else {
      assert now[at + |values| - 1].Kv?;
      assert forall j :: at + |values| <= j < |now| ==> now[j] == was[j - |values|];
      LastKvIs(now, |now|, at + |values|);
    }
  }

  lemma DroppedRest(was: seq<Item>, edited: seq<Item>, key: string, found: seq<nat>)
    requires AreIndexes(found, was, key) && found != []
    requires |edited| == |was| && edited == was[found[0] := edited[found[0]]]
    ensures var first := found[0];
            var b := if 1 < |found| then found[1] else |was|;
            Dropped(edited, b, key) == was[..first] + [edited[first]] + Without(was[first + 1..], key)
  {
    var first := found[0];
    var b := if 1 < |found| then found[1] else |was|;
    hide IsKey, Without;
    DropStep(was, key, found, 1);
    WithoutFirst(was, first, key);
    var w := Without(was[b..], key);
    Pieces(was, edited, first, b, w);
    assert edited[b..] == was[b..];
  }

  lemma DeletedAll(was: seq<Item>, key: string, found: seq<nat>)
    requires AreIndexes(found, was, key)
    ensures var b := if 0 < |found| then found[0] else |was|;
            Dropped(was, b, key) == Without(was, key)
  {
    FirstIsFirstIndex(was, key, found);
    var b := if 0 < |found| then found[0] else |was|;
    assert NoKey(was[..b], key);
    hide IsKey, Without;
    AbsentKey(was[..b], key);
    WithoutAppend(was[..b], was[b..], key);
    assert was == was[..b] + was[b..];
  }

  /** What the backwards scan for the last setting has found once it stops. */
  lemma ScanBack(items: seq<Item>, i: nat)
    requires i <= |items| && forall j :: i <= j < |items| ==> !items[j].Kv?
    ensures i > 0 && items[i - 1].Kv? ==> AfterLastKv(items) == i
    ensures i == 0 ==> AfterLastKv(items) == |items|
  {
    if i == 0 || items[i - 1].Kv? {
      LastKvIs(items, |items|, i);
    }
  }

  lemma IsSetting(item: Item, key: string)
    requires IsKey(item, key)
    ensures item.Kv?
  {
  }

  lemma InsertMid<T>(pre: seq<T>, mid: seq<T>, post: seq<T>, x: T)
    ensures var all := pre + mid + post;
            all[..|pre| + |mid|] + [x] + all[|pre| + |mid|..] == pre + (mid + [x]) + post
  {
  }

  lemma RunBehind<T>(pre: seq<T>, e: T, block: seq<T>, rest: seq<T>)
    ensures var all := pre + [e] + rest;
            all[..|pre| + 1] + block + all[|pre| + 1..] == pre + ([e] + block) + rest
  {
  }

  /** set_all on a key that is there: edit the first, drop the rest, put the other values behind it. */
  lemma Replaced(was: seq<Item>, edited: seq<Item>, key: string, values: seq<string>, found: seq<nat>)
    requires AreIndexes(found, was, key) && found != [] && values != [] && was[found[0]].Kv?
    requires edited == was[found[0] := Kv(was[found[0]].key, values[0], None)]
    ensures AreIndexes(found, edited, key)
    ensures var first := found[0];
            var b := if 1 < |found| then found[1] else |was|;
            var dropped := Dropped(edited, b, key);
            first < |dropped|
            && dropped[..first + 1] + Block(was[first].key, values[1..]) + dropped[first + 1..] == SetAll(was, key, values)
  {
    EditedIndexes(was, edited, key, found);
    FirstIsFirstIndex(was, key, found);
    assert SetAll(was, key, values) == PutPresent(was, found[0], key, values);
    hide IsKey, Without, First, SetAll, Block;
    DroppedRest(was, edited, key, found);
    var first := found[0];
    BlockSplit(was[first].key, values);
    RunBehind(was[..first], edited[first], Block(was[first].key, values[1..]), Without(was[first + 1..], key));
  }

  lemma BlockNone(key: string, values: seq<string>)
    requires values == []
    ensures Block(key, values) == []
  {
  }

  lemma BlockPush(key: string, values: seq<string>, value: string)
    ensures Block(key, values + [value]) == Block(key, values) + [Kv(key, value, None)]
  {
  }

  lemma BlockSplit(key: string, values: seq<string>)
    requires values != []
    ensures Block(key, values) == [Kv(key, values[0], None)] + Block(key, values[1..])
  {
  }

  lemma EditedIndexes(was: seq<Item>, edited: seq<Item>, key: string, found: seq<nat>)
    requires AreIndexes(found, was, key) && found != [] && was[found[0]].Kv? && |edited| == |was|
    requires edited == was[found[0] := edited[found[0]]]
    requires edited[found[0]].Kv? && edited[found[0]].key == was[found[0]].key
    ensures AreIndexes(found, edited, key)
  {
    hide Fold;
  }

  lemma WithoutFirst(was: seq<Item>, first: nat, key: string)
    requires first < |was| && IsKey(was[first], key)
    ensures Without(was[first..], key) == Without(was[first + 1..], key)
  {
    hide IsKey;
    OneKey(was[first], key);
    assert was[first..] == [was[first]] + was[first + 1..];
    WithoutAppend([was[first]], was[first + 1..], key);
  }

  lemma Pieces<T>(was: seq<T>, edited: seq<T>, first: nat, b: nat, w: seq<T>)
    requires first < b <= |was| && |edited| == |was| && edited == was[first := edited[first]]
    ensures edited[..b] + w == was[..first] + [edited[first]] + (was[first + 1..b] + w)
  {
    assert edited[..b] == was[..first] + [edited[first]] + was[first + 1..b];
  }

  lemma DroppedOne<T>(was: seq<T>, index: nat, b: nat, w: seq<T>)
    requires index < b <= |was|
    ensures var before := was[..b] + w;
            before[..index] + before[index + 1..] == was[..index] + (was[index + 1..b] + w)
  {
  }

  /** The section once every occurrence of key from place b on is gone. */
  ghost function Dropped(was: seq<Item>, b: nat, key: string): seq<Item>
    requires b <= |was|
  {
    was[..b] + Without(was[b..], key)
  }

  lemma DroppedNone(was: seq<Item>, key: string)
    ensures Dropped(was, |was|, key) == was
  {
    AbsentKey(was[|was|..], key);
  }

  lemma DroppedStep(was: seq<Item>, key: string, found: seq<nat>, k: nat)
    requires AreIndexes(found, was, key) && 1 <= k <= |found|
    ensures var index := found[k - 1];
            var b := if k < |found| then found[k] else |was|;
            index < b <= |was| && index < |Dropped(was, b, key)|
            && Dropped(was, b, key)[..index] + Dropped(was, b, key)[index + 1..] == Dropped(was, index, key)
  {
    DropStep(was, key, found, k);
    hide Without, AreIndexes;
    var b := if k < |found| then found[k] else |was|;
    DroppedOne(was, found[k - 1], b, Without(was[b..], key));
  }

  class OrderedMulti {
    var items: seq<LineItem>

    ghost predicate Valid()
      reads this
    {
      forall i, j :: 0 <= i < j < |items| ==> items[i] != items[j]
    }

    ghost function Repr(): set<object>
      reads this
    {
      {this} + set o: object | o in items
    }

    ghost function View(): (v: seq<Item>)
      reads this, items
      ensures |v| == |items|
    {
      seq(|items|, i requires 0 <= i < |items| reads this, items => items[i].View())
    }

    constructor ()
      ensures Valid() && items == []
    {
      items := [];
    }

    /** append, add_blank, add_comment and add_raw: a line at the end of the section. */
    method Add(kind: Kind, key: string, value: string, text: Option<string>)
      requires Valid()
      modifies this
      ensures Valid() && |items| == |old(items)| + 1 && items[..|old(items)|] == old(items)
      ensures fresh(items[|old(items)|])
      ensures View() == old(View()) + [items[|old(items)|].View()]
      ensures var item := items[|old(items)|];
              item.kind == kind && item.key == key && item.value == value && item.text == text
    {
      var item := new LineItem(kind, key, value, text);
      items := items + [item];
    }

    method Indexes(key: string) returns (found: seq<nat>)
      requires Valid()
      ensures AreIndexes(found, View(), key)
    {
      found := [];
      for i := 0 to |items|
        invariant forall k :: 0 <= k < |found| ==> found[k] < i && IsKey(View()[found[k]], key)
        invariant forall k, l :: 0 <= k < l < |found| ==> found[k] < found[l]
        invariant forall j :: 0 <= j < i && IsKey(View()[j], key) ==> j in found
      {
        if items[i].kind == KvKind && Fold(items[i].key) == Fold(key) {
          found := found + [i];
        }
      }
    }

    method Get(key: string) returns (value: Option<string>)
      requires Valid()
      ensures value == if All(View(), key) == [] then None else Some(All(View(), key)[0])
    {
      var found := Indexes(key);
      AllAtIndexes(View(), key, found);
      value := if found == [] then None else Some(items[found[0]].value);
    }

    method Values(key: string) returns (values: seq<string>)
      requires Valid()
      ensures values == All(View(), key)
    {
      var found := Indexes(key);
      AllAtIndexes(View(), key, found);
      values := seq(|found|, k requires 0 <= k < |found| && found[k] < |items| reads this, items => items[found[k]].value);
    }

    method RemoveAt(at: nat)
      requires Valid() && at < |items|
      modifies this
      ensures Valid() && items == old(items)[..at] + old(items)[at + 1..]
      ensures View() == old(View())[..at] + old(View())[at + 1..]
    {
      items := items[..at] + items[at + 1..];
    }

    /** The loop both delete and set_all end in: the indexes after the first `keep`, backwards. */
    method DropIndexes(key: string, found: seq<nat>, keep: nat)
      requires Valid() && AreIndexes(found, View(), key) && keep <= |found|
      modifies this
      ensures Valid() && (forall o :: o in items ==> o in old(items))
      ensures var b := if keep < |found| then found[keep] else |old(items)|;
              View() == Dropped(old(View()), b, key)
    {
      hide IsKey, Dropped, AreIndexes;
      ghost var was := View();
      ghost var objects := items;
      var k := |found|;
      ghost var b := |was|;
      DroppedNone(was, key);
      while k > keep
        invariant keep <= k <= |found|
        invariant b == if k < |found| then found[k] else |was|
        invariant Valid() && (forall o :: o in items ==> o in objects)
        invariant b <= |was| && View() == Dropped(was, b, key)
      {
        var index := found[k - 1];
        DroppedStep(was, key, found, k);
        RemoveAt(index);
        k := k - 1;
        b := index;
      }
    }

    method Delete(key: string)
      requires Valid()
      modifies this
      ensures Valid() && (forall o :: o in items ==> o in old(items))
      ensures View() == Without(old(View()), key)
    {
      hide IsKey, Without;
      var found := Indexes(key);
      ghost var was := View();
      DeletedAll(was, key, found);
      DropIndexes(key, found, 0);
    }

    method InsertAt(at: nat, item: LineItem)
      requires Valid() && at <= |items| && item !in items
      modifies this
      ensures Valid() && items == old(items)[..at] + [item] + old(items)[at..]
      ensures View() == old(View())[..at] + [item.View()] + old(View())[at..]
    {
      items := items[..at] + [item] + items[at..];
    }

    /** A new key belongs after the last real setting. */
    method InsertAfterLastKv(item: LineItem)
      requires Valid() && item !in items
      modifies this
      ensures Valid() && (forall o :: o in items ==> o == item || o in old(items))
      ensures var at := AfterLastKv(old(View()));
              View() == old(View())[..at] + [item.View()] + old(View())[at..]
    {
      hide LastKv, AfterLastKv;
      var i := |items|;
      while i > 0
        invariant 0 <= i <= |items|
        invariant forall j :: i <= j < |items| ==> !View()[j].Kv?
      {
        if items[i - 1].kind == KvKind {
          ScanBack(View(), i);
          InsertAt(i, item);
          return;
        }
        i := i - 1;
      }
      ScanBack(View(), 0);
      InsertAt(|items|, item);
    }

    /** One more value of a key that was absent from `was`, behind the values already written. */
    method PutOne(key: string, value: string, ghost was: seq<Item>, ghost written: seq<string>)
      requires Valid()
      requires View() == was[..AfterLastKv(was)] + Block(key, written) + was[AfterLastKv(was)..]
      modifies this
      ensures Valid() && (forall o :: o in items ==> o in old(items) || fresh(o))
      ensures View() == was[..AfterLastKv(was)] + Block(key, written + [value]) + was[AfterLastKv(was)..]
    {
      hide AfterLastKv, Block;
      var item := new LineItem(KvKind, key, value, None);
      AppendedAfterRun(was, key, written);
      BlockPush(key, written, value);
      InsertMid(was[..AfterLastKv(was)], Block(key, written), was[AfterLastKv(was)..], item.View());
      InsertAfterLastKv(item);
    }

    /** set_all for a key the section does not have. */
    method PutNew(key: string, values: seq<string>)
      requires Valid() && First(View(), key) == |View()| && values != []
      modifies this
      ensures Valid() && fresh(Repr() - old(Repr()))
      ensures View() == SetAll(old(View()), key, values)
    {
      assert SetAll(View(), key, values) == PutAbsent(View(), key, values);
      hide AfterLastKv, SetAll, Block, First;
      ghost var was := View();
      BlockNone(key, values[..0]);
      for n := 0 to |values|
        invariant Valid() && (forall o :: o in items ==> o in old(items) || fresh(o))
        invariant View() == was[..AfterLastKv(was)] + Block(key, values[..n]) + was[AfterLastKv(was)..]
      {
        PutOne(key, values[n], was, values[..n]);
        assert values[..n + 1] == values[..n] + [values[n]];
      }
      assert values[..|values|] == values;
    }

    /** The values after the first, each a new item behind the ones before it. */
    method InsertRun(at: nat, key: string, values: seq<string>)
      requires Valid() && at < |items| && values != []
      modifies this
      ensures Valid() && fresh(Repr() - old(Repr()))
      ensures View() == old(View())[..at + 1] + Block(key, values[1..]) + old(View())[at + 1..]
    {
      ghost var was := View();
      for n := 1 to |values|
        invariant Valid() && fresh(Repr() - old(Repr()))
        invariant View() == was[..at + 1] + Block(key, values[1..n]) + was[at + 1..]
      {
        var item := new LineItem(KvKind, key, values[n], None);
        InsertAt(at + n, item);
        assert values[1..n + 1] == values[1..n] + [values[n]];
        assert Block(key, values[1..n + 1]) == Block(key, values[1..n]) + [Kv(key, values[n], None)];
      }
      assert values[1..|values|] == values[1..];
    }

    /** set_all for a key the section has: the first occurrence is edited where it stands, the
        others go, and the remaining values follow it. */
    method Replace(key: string, values: seq<string>, found: seq<nat>)
      requires Valid() && AreIndexes(found, View(), key) && found != [] && values != []
      modifies this, items
      ensures Valid() && fresh(Repr() - old(Repr()))
      ensures View() == SetAll(old(View()), key, values)
    {
      hide IsKey, Without, SetAll, Block;
      ghost var was := View();
      var first := found[0];
      var head := items[first];
      IsSetting(was[first], key);
      head.value := values[0];
      head.text := None;
      ghost var edited := View();
      assert edited == was[first := Kv(was[first].key, values[0], None)];
      Replaced(was, edited, key, values, found);
      DropIndexes(key, found, 1);
      InsertRun(first, head.key, values);
    }

    /** Every occurrence of key replaced by values, at the first one's place. */
    method SetValues(key: string, values: seq<string>)
      requires Valid()
      modifies this, items
      ensures Valid() && fresh(Repr() - old(Repr()))
      ensures View() == SetAll(old(View()), key, values)
    {
      hide IsKey, Without;
      var found := Indexes(key);
      FirstIsFirstIndex(View(), key, found);
      if values == [] {
        Delete(key);
      } else if found == [] {
        PutNew(key, values);
      } else {
        Replace(key, values, found);
      }
    }

    /** Leave the section with exactly one occurrence of key. */
    method Set(key: string, value: string)
      requires Valid()
      modifies this, items
      ensures Valid() && fresh(Repr() - old(Repr()))
      ensures View() == SetAll(old(View()), key, [value])
    {
      SetValues(key, [value]);
    }

    /** An independent section: every item is a new object. */
    method Copy() returns (clone: OrderedMulti)
      requires Valid()
      ensures fresh(clone.Repr()) && clone.Valid()
      ensures clone.View() == View()
    {
      clone := new OrderedMulti();
      for i := 0 to |items|
        invariant clone.Valid() && fresh(clone.Repr())
        invariant clone.View() == View()[..i]
      {
        clone.Add(items[i].kind, items[i].key, items[i].value, items[i].text);
      }
    }
  }
}
