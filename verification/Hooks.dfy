/** The tunnel's own PreDown, PostUp and PostDown lines, re-asserted on every write of the config. */
module Hooks {
  import opened Text
  import opened Config
  import opened ConfRoundTrip
  import opened ConfNormalForm
  import opened ConfStrip
  import opened Section

  const BIN := "/usr/local/bin/"
  const OR_TRUE := " || true"
  const PREDOWN_MARKER := "awg-panel manage trafficsync"
  const POSTUP_MARKER := "awg-panel manage enforce"
  const SHAPE_MARKER := "awg-panel manage shape"
  const DETACH := " --detach"
  const PREDOWN_HOOK := BIN + PREDOWN_MARKER + OR_TRUE
  const POSTUP_HOOK := BIN + POSTUP_MARKER + OR_TRUE
  const SHAPE_HOOK := BIN + SHAPE_MARKER + OR_TRUE
  const UNSHAPE_HOOK := BIN + SHAPE_MARKER + DETACH + OR_TRUE
  const LEGACY_SYNC := "awg-client traffic sync"
  const LEGACY_ENFORCE := "awg-client enforce"

  const PRE_DOWN := "PreDown"
  const POST_UP := "PostUp"
  const POST_DOWN := "PostDown"

  /** One hook line, pointed at the panel if it still names the retired command line. */
  function RetargetHook(line: string): string {
    if Contains(line, LEGACY_SYNC) then PREDOWN_HOOK
    else if Contains(line, LEGACY_ENFORCE) then POSTUP_HOOK
    else line
  }

  predicate Marked(line: string, markers: seq<string>) {
    exists i :: 0 <= i < |markers| && Contains(line, markers[i])
  }

  /** The operator's own lines, retired commands already rewritten. */
  function Others(lines: seq<string>, markers: seq<string>): seq<string> {
    if lines == [] then []
    else
      var line := RetargetHook(lines[0]);
      (if Marked(line, markers) then [] else [line]) + Others(lines[1..], markers)
  }

  function SlotValues(lines: seq<string>, markers: seq<string>, ours: seq<string>, first: bool): seq<string> {
    if first then ours + Others(lines, markers) else Others(lines, markers) + ours
  }

  function EnsureSlot(items: seq<Item>, slot: string, markers: seq<string>, ours: seq<string>, first: bool): seq<Item> {
    SetAll(items, slot, SlotValues(All(items, slot), markers, ours, first))
  }

  function EnsurePreDown(items: seq<Item>): seq<Item> {
    EnsureSlot(items, PRE_DOWN, [PREDOWN_MARKER], [PREDOWN_HOOK], false)
  }

  function EnsurePostUp(items: seq<Item>): seq<Item> {
    EnsureSlot(items, POST_UP, [POSTUP_MARKER, SHAPE_MARKER], [POSTUP_HOOK, SHAPE_HOOK], true)
  }

  function EnsurePostDown(items: seq<Item>): seq<Item> {
    EnsureSlot(items, POST_DOWN, [SHAPE_MARKER], [UNSHAPE_HOOK], false)
  }

  function EnsureHooks(items: seq<Item>): seq<Item> {
    EnsurePostDown(EnsurePostUp(EnsurePreDown(items)))
  }

  // ------------------------------------------------------------------ the literal lines

  /** Every dash in s is followed by something other than the 'c' of "awg-client". */
  predicate NoDashC(s: string) {
    forall j :: 0 <= j < |s| && s[j] == '-' ==> j + 1 < |s| && s[j + 1] != 'c'
  }

  lemma NoDashCAppend(a: string, b: string)
    requires NoDashC(a) && NoDashC(b)
    ensures NoDashC(a + b)
  {
  }

  lemma NotRetired(line: string)
    requires NoDashC(line)
    ensures RetargetHook(line) == line
  {
    assert forall i :: 0 <= i <= |line| - |LEGACY_SYNC| && OccursAt(line, LEGACY_SYNC, i) ==>
        line[i + 3] == LEGACY_SYNC[3] && line[i + 4] == LEGACY_SYNC[4];
    assert forall i :: 0 <= i <= |line| - |LEGACY_ENFORCE| && OccursAt(line, LEGACY_ENFORCE, i) ==>
        line[i + 3] == LEGACY_ENFORCE[3] && line[i + 4] == LEGACY_ENFORCE[4];
  }

  lemma PanelHooksStay()
    ensures NoDashC(PREDOWN_HOOK) && NoDashC(POSTUP_HOOK) && NoDashC(SHAPE_HOOK) && NoDashC(UNSHAPE_HOOK)
  {
    assert NoDashC(BIN) && NoDashC(OR_TRUE) && NoDashC(DETACH);
    assert NoDashC(PREDOWN_MARKER) && NoDashC(POSTUP_MARKER) && NoDashC(SHAPE_MARKER);
    NoDashCAppend(BIN, PREDOWN_MARKER);
    NoDashCAppend(BIN + PREDOWN_MARKER, OR_TRUE);
    NoDashCAppend(BIN, POSTUP_MARKER);
    NoDashCAppend(BIN + POSTUP_MARKER, OR_TRUE);
    NoDashCAppend(BIN, SHAPE_MARKER);
    NoDashCAppend(BIN + SHAPE_MARKER, OR_TRUE);
    NoDashCAppend(BIN + SHAPE_MARKER, DETACH);
    NoDashCAppend(BIN + SHAPE_MARKER + DETACH, OR_TRUE);
  }

  lemma ContainsMiddle(before: string, needle: string, after: string)
    ensures Contains(before + needle + after, needle)
  {
    assert OccursAt(before + needle + after, needle, |before|);
  }

  lemma PanelHooksMarked()
    ensures Contains(PREDOWN_HOOK, PREDOWN_MARKER) && Contains(POSTUP_HOOK, POSTUP_MARKER)
    ensures Contains(SHAPE_HOOK, SHAPE_MARKER) && Contains(UNSHAPE_HOOK, SHAPE_MARKER)
  {
    ContainsMiddle(BIN, PREDOWN_MARKER, OR_TRUE);
    ContainsMiddle(BIN, POSTUP_MARKER, OR_TRUE);
    ContainsMiddle(BIN, SHAPE_MARKER, OR_TRUE);
    ContainsMiddle(BIN, SHAPE_MARKER, DETACH + OR_TRUE);
    assert BIN + SHAPE_MARKER + DETACH + OR_TRUE == BIN + SHAPE_MARKER + (DETACH + OR_TRUE);
  }

  lemma RetargetTwice(line: string)
    ensures RetargetHook(RetargetHook(line)) == RetargetHook(line)
  {
    hide NoDashC, Contains;
    PanelHooksStay();
    NotRetired(PREDOWN_HOOK);
    NotRetired(POSTUP_HOOK);
  }

  // ------------------------------------------------------------------ one slot

  lemma {:induction false} OthersAppend(a: seq<string>, b: seq<string>, markers: seq<string>)
    ensures Others(a + b, markers) == Others(a, markers) + Others(b, markers)
  {
    hide RetargetHook, Marked;
    if a == [] {
      assert a + b == b;
    } else {
      assert (a + b)[1..] == a[1..] + b;
      OthersAppend(a[1..], b, markers);
    }
  }

  /** Filtering once is enough, and what is left carries no marker of the slot. */
  lemma {:induction false} OthersTwice(lines: seq<string>, markers: seq<string>)
    ensures Others(Others(lines, markers), markers) == Others(lines, markers)
    ensures forall line :: line in Others(lines, markers) ==> !Marked(line, markers) && RetargetHook(line) == line
  {
    hide RetargetHook, Marked;
    if lines != [] {
      var line := RetargetHook(lines[0]);
      RetargetTwice(lines[0]);
      OthersTwice(lines[1..], markers);
      var head := if Marked(line, markers) then [] else [line];
      OthersAppend(head, Others(lines[1..], markers), markers);
      assert Others(head, markers) == head;
    }
  }

  /** Lines of the panel's own for a slot: each is marked, and none names the retired command. */
  predicate OwnLines(ours: seq<string>, markers: seq<string>) {
    forall i :: 0 <= i < |ours| ==> Marked(ours[i], markers) && RetargetHook(ours[i]) == ours[i]
  }

  lemma {:induction false} OthersOfOwn(ours: seq<string>, markers: seq<string>)
    requires OwnLines(ours, markers)
    ensures Others(ours, markers) == []
  {
    hide RetargetHook, Marked;
    if ours != [] {
      OthersOfOwn(ours[1..], markers);
    }
  }

  lemma SlotValuesFixed(lines: seq<string>, markers: seq<string>, ours: seq<string>, first: bool)
    requires OwnLines(ours, markers)
    ensures var values := SlotValues(lines, markers, ours, first);
            SlotValues(values, markers, ours, first) == values && Others(values, markers) == Others(lines, markers)
  {
    hide OwnLines, Others;
    var others := Others(lines, markers);
    OthersTwice(lines, markers);
    OthersOfOwn(ours, markers);
    OthersAppend(ours, others, markers);
    OthersAppend(others, ours, markers);
    assert [] + others == others && others + [] == others;
  }

  lemma SlotSays(items: seq<Item>, slot: string, markers: seq<string>, ours: seq<string>, first: bool)
    requires OwnLines(ours, markers)
    ensures var r := EnsureSlot(items, slot, markers, ours, first);
            && All(r, slot) == SlotValues(All(items, slot), markers, ours, first)
            && Without(r, slot) == Without(items, slot)
            && EnsureSlot(r, slot, markers, ours, first) == r
  {
    hide OwnLines, SetAll, SlotValues, All, Without;
    var values := SlotValues(All(items, slot), markers, ours, first);
    SetAllSays(items, slot, values);
    SlotValuesFixed(All(items, slot), markers, ours, first);
    SetAllTwice(items, slot, values);
  }

  lemma PanelLinesOwn()
    ensures OwnLines([PREDOWN_HOOK], [PREDOWN_MARKER])
    ensures OwnLines([POSTUP_HOOK, SHAPE_HOOK], [POSTUP_MARKER, SHAPE_MARKER])
    ensures OwnLines([UNSHAPE_HOOK], [SHAPE_MARKER])
  {
    hide Contains, NoDashC;
    PanelHooksMarked();
    PanelHooksStay();
    NotRetired(PREDOWN_HOOK);
    NotRetired(POSTUP_HOOK);
    NotRetired(SHAPE_HOOK);
    NotRetired(UNSHAPE_HOOK);
    var up := [POSTUP_MARKER, SHAPE_MARKER];
    assert Contains(POSTUP_HOOK, up[0]) && Contains(SHAPE_HOOK, up[1]);
    assert Contains(PREDOWN_HOOK, [PREDOWN_MARKER][0]) && Contains(UNSHAPE_HOOK, [SHAPE_MARKER][0]);
  }

  lemma SlotsDiffer()
    ensures Fold(PRE_DOWN) != Fold(POST_UP) && Fold(PRE_DOWN) != Fold(POST_DOWN) && Fold(POST_UP) != Fold(POST_DOWN)
  {
    assert Fold(PRE_DOWN)[1] == 'r' && Fold(POST_UP)[1] == 'o' && Fold(POST_DOWN)[1] == 'o';
    assert |Fold(POST_UP)| == 6 && |Fold(POST_DOWN)| == 8;
  }

  // ------------------------------------------------------------------ the whole section

  /** The section without its three hook keys. */
  function WithoutHooks(items: seq<Item>): seq<Item> {
    Without(Without(Without(items, PRE_DOWN), POST_UP), POST_DOWN)
  }

  lemma WithoutHooksSame(a: seq<Item>, b: seq<Item>, slot: string)
    requires slot == PRE_DOWN || slot == POST_UP || slot == POST_DOWN
    requires Without(a, slot) == Without(b, slot)
    ensures WithoutHooks(a) == WithoutHooks(b)
  {
    hide Without;
    var d, u, p := PRE_DOWN, POST_UP, POST_DOWN;
    forall x: seq<Item> ensures Without(Without(Without(x, d), u), p) == Without(Without(Without(x, u), d), p) {
      WithoutCommutes(x, d, u);
    }
    forall x: seq<Item> ensures Without(Without(Without(x, d), u), p) == Without(Without(Without(x, p), d), u) {
      WithoutCommutes(Without(x, d), u, p);
      WithoutCommutes(x, d, p);
    }
  }

  /** What every write leaves in the file: each hook of the panel at its fixed place, the operator's
      lines around it in the order they had, and nothing else touched. */
  lemma EnsureHooksSays(items: seq<Item>)
    ensures var r := EnsureHooks(items);
            && All(r, PRE_DOWN) == Others(All(items, PRE_DOWN), [PREDOWN_MARKER]) + [PREDOWN_HOOK]
            && All(r, POST_UP) == [POSTUP_HOOK, SHAPE_HOOK] + Others(All(items, POST_UP), [POSTUP_MARKER, SHAPE_MARKER])
            && All(r, POST_DOWN) == Others(All(items, POST_DOWN), [SHAPE_MARKER]) + [UNSHAPE_HOOK]
            && WithoutHooks(r) == WithoutHooks(items)
  {
    PanelLinesOwn();
    SlotsDiffer();
    hide OwnLines, Fold, SetAll, All, Without, Others, WithoutHooks;
    var a := EnsurePreDown(items);
    var b := EnsurePostUp(a);
    var c := EnsurePostDown(b);
    SlotSays(items, PRE_DOWN, [PREDOWN_MARKER], [PREDOWN_HOOK], false);
    SlotSays(a, POST_UP, [POSTUP_MARKER, SHAPE_MARKER], [POSTUP_HOOK, SHAPE_HOOK], true);
    SlotSays(b, POST_DOWN, [SHAPE_MARKER], [UNSHAPE_HOOK], false);
    SlotKeepsOthers(items, PRE_DOWN, [PREDOWN_MARKER], [PREDOWN_HOOK], false, POST_UP);
    SlotKeepsOthers(items, PRE_DOWN, [PREDOWN_MARKER], [PREDOWN_HOOK], false, POST_DOWN);
    SlotKeepsOthers(a, POST_UP, [POSTUP_MARKER, SHAPE_MARKER], [POSTUP_HOOK, SHAPE_HOOK], true, PRE_DOWN);
    SlotKeepsOthers(a, POST_UP, [POSTUP_MARKER, SHAPE_MARKER], [POSTUP_HOOK, SHAPE_HOOK], true, POST_DOWN);
    SlotKeepsOthers(b, POST_DOWN, [SHAPE_MARKER], [UNSHAPE_HOOK], false, PRE_DOWN);
    SlotKeepsOthers(b, POST_DOWN, [SHAPE_MARKER], [UNSHAPE_HOOK], false, POST_UP);
    WithoutHooksSame(items, a, PRE_DOWN);
    WithoutHooksSame(a, b, POST_UP);
    WithoutHooksSame(b, c, POST_DOWN);
  }

  lemma SlotKeepsOthers(items: seq<Item>, slot: string, markers: seq<string>, ours: seq<string>, first: bool, other: string)
    requires Fold(slot) != Fold(other)
    ensures All(EnsureSlot(items, slot, markers, ours, first), other) == All(items, other)
  {
    SetAllKeepsOthers(items, slot, SlotValues(All(items, slot), markers, ours, first), other);
  }

  lemma SlotStandsOnce(lines: seq<string>, markers: seq<string>, ours: seq<string>, first: bool, k: nat)
    requires OwnLines(ours, markers) && k < |ours|
    requires forall j :: 0 <= j < |ours| && j != k ==> ours[j] != ours[k]
    ensures multiset(SlotValues(lines, markers, ours, first))[ours[k]] == 1
  {
    hide Others, OwnLines, Marked, RetargetHook;
    OwnNotOther(lines, markers, ours, k);
    var others := Others(lines, markers);
    if first {
      CountOnce([], ours, others, k);
      assert [] + ours + others == SlotValues(lines, markers, ours, first);
    } else {
      CountOnce(others, ours, [], k);
      assert others + ours + [] == SlotValues(lines, markers, ours, first);
    }
  }

  /** No operator line of a slot is one of the panel's: each of those stands there exactly once. */
  lemma HooksStandOnce(items: seq<Item>)
    ensures var r := EnsureHooks(items);
            && multiset(All(r, PRE_DOWN))[PREDOWN_HOOK] == 1
            && multiset(All(r, POST_UP))[POSTUP_HOOK] == 1 && multiset(All(r, POST_UP))[SHAPE_HOOK] == 1
            && multiset(All(r, POST_DOWN))[UNSHAPE_HOOK] == 1
  {
    EnsureHooksSays(items);
    PanelLinesOwn();
    HooksDiffer();
    hide Others, EnsureHooks, All, OwnLines;
    SlotStandsOnce(All(items, PRE_DOWN), [PREDOWN_MARKER], [PREDOWN_HOOK], false, 0);
    SlotStandsOnce(All(items, POST_UP), [POSTUP_MARKER, SHAPE_MARKER], [POSTUP_HOOK, SHAPE_HOOK], true, 0);
    SlotStandsOnce(All(items, POST_UP), [POSTUP_MARKER, SHAPE_MARKER], [POSTUP_HOOK, SHAPE_HOOK], true, 1);
    SlotStandsOnce(All(items, POST_DOWN), [SHAPE_MARKER], [UNSHAPE_HOOK], false, 0);
  }

  lemma HooksDiffer()
    ensures POSTUP_HOOK != SHAPE_HOOK
  {
    assert |POSTUP_HOOK| != |SHAPE_HOOK|;
  }

  lemma OwnNotOther(lines: seq<string>, markers: seq<string>, ours: seq<string>, k: nat)
    requires OwnLines(ours, markers) && k < |ours|
    ensures ours[k] !in Others(lines, markers)
  {
    hide Marked, RetargetHook;
    OthersTwice(lines, markers);
  }

  lemma CountOnce(before: seq<string>, own: seq<string>, after: seq<string>, k: nat)
    requires k < |own| && own[k] !in before && own[k] !in after
    requires forall j :: 0 <= j < |own| && j != k ==> own[j] != own[k]
    ensures multiset(before + own + after)[own[k]] == 1
  {
    assert own == own[..k] + [own[k]] + own[k + 1..];
    assert multiset(own) == multiset(own[..k]) + multiset{own[k]} + multiset(own[k + 1..]);
    assert own[k] !in own[..k] && own[k] !in own[k + 1..];
    assert multiset(before + own + after) == multiset(before) + multiset(own) + multiset(after);
  }

  /** A line that still runs one of the two commands of the retired command-line tool. */
  predicate Retired(line: string) {
    Contains(line, "awg-client traffic sync") || Contains(line, "awg-client enforce")
  }

  /** A retired line becomes the panel's hook that does its work, and any other line stays. */
  lemma RetargetSays(line: string)
    ensures Contains(line, "awg-client traffic sync") ==>
              RetargetHook(line) == "/usr/local/bin/" + "awg-panel manage trafficsync" + " || true"
    ensures Contains(line, "awg-client enforce") && !Contains(line, "awg-client traffic sync") ==>
              RetargetHook(line) == "/usr/local/bin/" + "awg-panel manage enforce" + " || true"
    ensures !Retired(line) ==> RetargetHook(line) == line
    ensures !Retired(RetargetHook(line))
  {
    hide Contains, NoDashC;
    PanelHooksStay();
    PanelNotRetired(PREDOWN_HOOK);
    PanelNotRetired(POSTUP_HOOK);
  }

  lemma PanelNotRetired(line: string)
    requires NoDashC(line)
    ensures !Retired(line)
  {
    var sync, enforce := "awg-client traffic sync", "awg-client enforce";
    assert forall i :: 0 <= i <= |line| - |sync| && OccursAt(line, sync, i) ==> line[i + 3] == sync[3] && line[i + 4] == sync[4];
    assert forall i :: 0 <= i <= |line| - |enforce| && OccursAt(line, enforce, i) ==>
        line[i + 3] == enforce[3] && line[i + 4] == enforce[4];
  }

  /** What a slot keeps of the operator's lines when nothing in it is the panel's or retired: all of them. */
  lemma {:induction false} OthersKeep(lines: seq<string>, markers: seq<string>)
    requires forall i :: 0 <= i < |lines| ==> !Retired(lines[i]) && !Marked(lines[i], markers)
    ensures Others(lines, markers) == lines
  {
    hide Retired, Marked, RetargetHook;
    if lines != [] {
      RetargetSays(lines[0]);
      OthersKeep(lines[1..], markers);
    }
  }

  /** No write leaves a retired command in any of the three slots. */
  lemma NoneRetired(items: seq<Item>)
    ensures var r := EnsureHooks(items);
            forall line :: line in All(r, "PreDown") + All(r, "PostUp") + All(r, "PostDown") ==> !Retired(line)
  {
    hide Retired, Contains, Others, All, EnsureHooks, NoDashC;
    EnsureHooksSays(items);
    PanelHooksStay();
    PanelNotRetired(PREDOWN_HOOK);
    PanelNotRetired(POSTUP_HOOK);
    PanelNotRetired(SHAPE_HOOK);
    PanelNotRetired(UNSHAPE_HOOK);
    OthersNotRetired(All(items, PRE_DOWN), [PREDOWN_MARKER]);
    OthersNotRetired(All(items, POST_UP), [POSTUP_MARKER, SHAPE_MARKER]);
    OthersNotRetired(All(items, POST_DOWN), [SHAPE_MARKER]);
  }

  lemma OthersNotRetired(lines: seq<string>, markers: seq<string>)
    ensures forall line :: line in Others(lines, markers) ==> !Retired(line)
  {
    hide Retired, RetargetHook, Others, Marked;
    OthersTwice(lines, markers);
    forall line | line in Others(lines, markers) ensures !Retired(line) {
      RetargetSays(line);
    }
  }

  /** Re-asserting the hooks on a file that already has them writes the same file. */
  lemma EnsureHooksTwice(items: seq<Item>)
    ensures EnsureHooks(EnsureHooks(items)) == EnsureHooks(items)
  {
    PanelLinesOwn();
    SlotsDiffer();
    hide OwnLines, Fold, SetAll, All, Others;
    var a := EnsurePreDown(items);
    var b := EnsurePostUp(a);
    var c := EnsurePostDown(b);
    var vd := SlotValues(All(items, PRE_DOWN), [PREDOWN_MARKER], [PREDOWN_HOOK], false);
    var vu := SlotValues(All(a, POST_UP), [POSTUP_MARKER, SHAPE_MARKER], [POSTUP_HOOK, SHAPE_HOOK], true);
    var vp := SlotValues(All(b, POST_DOWN), [SHAPE_MARKER], [UNSHAPE_HOOK], false);
    SlotValuesFixed(All(items, PRE_DOWN), [PREDOWN_MARKER], [PREDOWN_HOOK], false);
    SlotValuesFixed(All(a, POST_UP), [POSTUP_MARKER, SHAPE_MARKER], [POSTUP_HOOK, SHAPE_HOOK], true);
    SlotValuesFixed(All(b, POST_DOWN), [SHAPE_MARKER], [UNSHAPE_HOOK], false);
    assert vd[|vd| - 1] == PREDOWN_HOOK && vu[0] == POSTUP_HOOK && vp[|vp| - 1] == UNSHAPE_HOOK;
    hide SlotValues, IsRun;
    var bd, nd, rd := SetAllRun(items, PRE_DOWN, vd);
    bd, rd := RunSurvives(a, PRE_DOWN, vd, bd, nd, rd, POST_UP, vu);
    bd, rd := RunSurvives(b, PRE_DOWN, vd, bd, nd, rd, POST_DOWN, vp);
    var bu, nu, ru := SetAllRun(a, POST_UP, vu);
    bu, ru := RunSurvives(b, POST_UP, vu, bu, nu, ru, POST_DOWN, vp);
    var bp, np, rp := SetAllRun(b, POST_DOWN, vp);
    RunIsFixed(c, PRE_DOWN, vd, bd, nd, rd);
    RunIsFixed(c, POST_UP, vu, bu, nu, ru);
    RunIsFixed(c, POST_DOWN, vp, bp, np, rp);
  }

  // ------------------------------------------------------------------ the edits read back

  predicate ItemsOk(items: seq<Item>) {
    forall i :: 0 <= i < |items| ==> ItemOk(items[i])
  }

  predicate ValuesOk(values: seq<string>) {
    forall i :: 0 <= i < |values| ==> ValueOk(values[i])
  }

  lemma WrittenItemOk(key: string, value: string)
    requires KeyOk(key) && ValueOk(value)
    ensures ItemOk(Kv(key, value, None))
  {
    SettingLineReads(key, value);
    StripTrimmed(value);
  }

  lemma {:induction false} WithoutOk(items: seq<Item>, key: string)
    requires ItemsOk(items)
    ensures ItemsOk(Without(items, key))
  {
    hide ItemOk, IsKey;
    if items != [] {
      WithoutOk(items[1..], key);
    }
  }

  lemma BlockOk(key: string, values: seq<string>)
    requires KeyOk(key) && ValuesOk(values)
    ensures ItemsOk(Block(key, values))
  {
    hide ItemOk, KeyOk, ValueOk;
    forall i | 0 <= i < |values| ensures ItemOk(Block(key, values)[i]) {
      WrittenItemOk(key, values[i]);
    }
  }

  /** A section edited through set_all with values that keep to one line and hold no '#' is still
      one that reads back. */
  lemma SetAllOk(items: seq<Item>, key: string, values: seq<string>)
    requires ItemsOk(items) && KeyOk(key) && ValuesOk(values)
    ensures ItemsOk(SetAll(items, key, values))
  {
    hide ItemOk, Fold, AfterLastKv, KeyOk, ValueOk, Block, Without;
    var first := First(items, key);
    if values == [] {
      WithoutOk(items, key);
    } else if first == |items| {
      BlockOk(key, values);
    } else {
      KvOk(items[first]);
      BlockOk(items[first].key, values);
      WithoutOk(items[first + 1..], key);
    }
  }

  lemma {:induction false} AllOk(items: seq<Item>, key: string)
    requires ItemsOk(items)
    ensures ValuesOk(All(items, key))
  {
    hide ItemOk, ValueOk, Fold;
    if items != [] {
      if IsKey(items[0], key) { KvOk(items[0]); }
      AllOk(items[1..], key);
    }
  }

  predicate PlainText(s: string) {
    '#' !in s && '\n' !in s
  }

  lemma PlainHook(start: string, middle: string, end: string)
    requires PlainText(start) && PlainText(middle) && PlainText(end)
    requires start != "" && !IsSpace(start[0]) && end != "" && !IsSpace(end[|end| - 1])
    ensures ValueOk(start + middle + end)
  {
    var s := start + middle + end;
    assert s[0] == start[0] && s[|s| - 1] == end[|end| - 1];
  }

  lemma HookEnds()
    ensures PlainText(BIN) && !IsSpace(BIN[0]) && PlainText(OR_TRUE) && !IsSpace(OR_TRUE[|OR_TRUE| - 1])
    ensures PlainText(DETACH) && PlainText(PREDOWN_MARKER) && PlainText(POSTUP_MARKER) && PlainText(SHAPE_MARKER)
  {
  }

  lemma SlotKeysOk()
    ensures KeyOk(PRE_DOWN) && KeyOk(POST_UP) && KeyOk(POST_DOWN)
  {
  }

  lemma PanelHooksOk()
    ensures ValueOk(PREDOWN_HOOK) && ValueOk(POSTUP_HOOK) && ValueOk(SHAPE_HOOK) && ValueOk(UNSHAPE_HOOK)
  {
    hide PlainText, ValueOk;
    HookEnds();
    PlainHook(BIN, PREDOWN_MARKER, OR_TRUE);
    PlainHook(BIN, POSTUP_MARKER, OR_TRUE);
    PlainHook(BIN, SHAPE_MARKER, OR_TRUE);
    assert PlainText(SHAPE_MARKER + DETACH) by { PlainPair(SHAPE_MARKER, DETACH); }
    PlainHook(BIN, SHAPE_MARKER + DETACH, OR_TRUE);
    assert BIN + (SHAPE_MARKER + DETACH) + OR_TRUE == UNSHAPE_HOOK;
  }

  lemma PlainPair(a: string, b: string)
    requires PlainText(a) && PlainText(b)
    ensures PlainText(a + b)
  {
  }

  lemma {:induction false} OthersOk(lines: seq<string>, markers: seq<string>)
    requires ValuesOk(lines)
    ensures ValuesOk(Others(lines, markers))
  {
    PanelHooksOk();
    hide ValueOk, Contains, Marked;
    if lines != [] {
      OthersOk(lines[1..], markers);
    }
  }

  lemma EnsureSlotOk(items: seq<Item>, slot: string, markers: seq<string>, ours: seq<string>, first: bool)
    requires ItemsOk(items) && KeyOk(slot) && ValuesOk(ours)
    ensures ItemsOk(EnsureSlot(items, slot, markers, ours, first))
  {
    hide ItemOk, ValueOk, KeyOk, SetAll, All, Others;
    AllOk(items, slot);
    OthersOk(All(items, slot), markers);
    SetAllOk(items, slot, SlotValues(All(items, slot), markers, ours, first));
  }

  lemma EnsureHooksOk(items: seq<Item>)
    requires ItemsOk(items)
    ensures ItemsOk(EnsureHooks(items))
  {
    PanelHooksOk();
    SlotKeysOk();
    hide ItemsOk, ValueOk, KeyOk, EnsureSlot;
    EnsureSlotOk(items, PRE_DOWN, [PREDOWN_MARKER], [PREDOWN_HOOK], false);
    var a := EnsurePreDown(items);
    EnsureSlotOk(a, POST_UP, [POSTUP_MARKER, SHAPE_MARKER], [POSTUP_HOOK, SHAPE_HOOK], true);
    EnsureSlotOk(EnsurePostUp(a), POST_DOWN, [SHAPE_MARKER], [UNSHAPE_HOOK], false);
  }

  /** What _write_conf makes of a config before it prints it. */
  function WithHooks(c: Conf): Conf {
    c.(interface := EnsureHooks(c.interface))
  }

  lemma WithHooksOk(c: Conf)
    requires ConfOk(c)
    ensures ConfOk(WithHooks(c))
  {
    hide EnsureHooks, ItemOk, PeerOk;
    EnsureHooksOk(c.interface);
  }
}
