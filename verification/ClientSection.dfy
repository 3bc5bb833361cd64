/** What the client operations leave of the [Interface] section they write along: all of it but the
    three hook keys, which hold the operator's own lines and the panel's. */
module ClientSection {
  import opened Text
  import opened Config
  import opened ConfRoundTrip
  import opened ConfStrip
  import opened NameBreaks
  import opened Section
  import opened Hooks
  import opened Subnet
  import opened Clients
  import opened ClientRuns
  import S6 = Subnet6

  /** A section without the blank lines it ends in. */
  function WithoutTail(items: seq<Item>): seq<Item> {
    if items != [] && items[|items| - 1].Blank? then WithoutTail(items[..|items| - 1]) else items
  }

  /** One section holds what another does, in the same order and spelled the same, the hook keys and the
      blank lines at the end apart: settings, comments, lines kept as they are, and blank lines between them. */
  predicate SameSection(a: seq<Item>, b: seq<Item>) {
    WithoutTail(WithoutHooks(a)) == WithoutTail(WithoutHooks(b))
  }

  /** The hook keys of `now` hold the operator's lines of `was`, in order, and each hook of the panel at
      its place. */
  predicate HooksWritten(was: seq<Item>, now: seq<Item>) {
    && All(now, "PreDown") == Others(All(was, "PreDown"), [PREDOWN_MARKER]) + [PREDOWN_HOOK]
    && All(now, "PostUp") == [POSTUP_HOOK, SHAPE_HOOK] + Others(All(was, "PostUp"), [POSTUP_MARKER, SHAPE_MARKER])
    && All(now, "PostDown") == Others(All(was, "PostDown"), [SHAPE_MARKER]) + [UNSHAPE_HOOK]
  }

  /** The settings the kernel is to have, as its reader finds them: every one awg-quick does not act on itself. */
  function DeviceSettings(items: seq<Item>): seq<Item> {
    SettingItems(KeptSettings(SettingsOf(items)))
  }

  // ------------------------------------------------------------------ items as they are read again

  lemma {:induction false} NormItemsSame(items: seq<Item>, key: string)
    ensures Without(NormItems(items), key) == NormItems(Without(items, key))
    ensures All(NormItems(items), key) == All(items, key)
  {
    hide Fold;
    if items != [] {
      NormItemsSame(items[1..], key);
      assert NormItems(items)[1..] == NormItems(items[1..]);
      var head := if IsKey(items[0], key) then [] else [items[0]];
      assert Without(items, key) == head + Without(items[1..], key);
    }
  }

  /** Blank lines after a section are no setting of it. */
  lemma Padded(items: seq<Item>, pad: seq<Item>, key: string)
    requires forall i :: 0 <= i < |pad| ==> pad[i].Blank?
    ensures Without(items + pad, key) == Without(items, key) + pad && All(items + pad, key) == All(items, key)
  {
    AbsentKey(pad, key);
    WithoutAppend(items, pad, key);
    AllAppend(items, pad, key);
  }

  lemma {:induction false} TailOnly(items: seq<Item>, pad: seq<Item>)
    requires forall i :: 0 <= i < |pad| ==> pad[i].Blank?
    ensures WithoutTail(items + pad) == WithoutTail(items)
    decreases |pad|
  {
    if pad == [] {
      assert items + pad == items;
    } else {
      var all := items + pad;
      assert all[..|all| - 1] == items + pad[..|pad| - 1];
      TailOnly(items, pad[..|pad| - 1]);
    }
  }

  /** A section printed, with the blank line that may follow it, and read again. */
  lemma ReadAgain(items: seq<Item>, pad: seq<Item>)
    requires forall i :: 0 <= i < |pad| ==> pad[i].Blank?
    ensures var r := NormItems(items) + pad;
            && WithoutHooks(r) == NormItems(WithoutHooks(items)) + pad
            && All(r, "PreDown") == All(items, "PreDown") && All(r, "PostUp") == All(items, "PostUp")
            && All(r, "PostDown") == All(items, "PostDown")
  {
    hide Without, All, NormItems;
    var d, u, p := PRE_DOWN, POST_UP, POST_DOWN;
    Padded(NormItems(items), pad, d);
    Padded(NormItems(items), pad, u);
    Padded(NormItems(items), pad, p);
    NormItemsSame(items, d);
    NormItemsSame(items, u);
    NormItemsSame(items, p);
    Padded(NormItems(Without(items, d)), pad, u);
    NormItemsSame(Without(items, d), u);
    Padded(NormItems(Without(Without(items, d), u)), pad, p);
    NormItemsSame(Without(Without(items, d), u), p);
  }

  // ------------------------------------------------------------------ every setting of a parse has its line

  predicate Spelled(items: seq<Item>) {
    forall i :: 0 <= i < |items| && items[i].Kv? ==> items[i].text.Some?
  }

  lemma FeedSpelled(s: Parser, line: string)
    requires s.Valid() && Spelled(s.conf.interface)
    ensures Spelled(Feed(s, line).conf.interface)
  {
    hide IsHeader, HeaderName, OpensSection, FeedPeer, Strip, IsComment, Setting, RstripBreaks;
  }

  lemma {:induction false} FeedAllSpelled(s: Parser, lines: seq<string>)
    requires s.Valid() && Spelled(s.conf.interface)
    ensures Spelled(FeedAll(s, lines).conf.interface)
    decreases |lines|
  {
    hide Feed, Spelled;
    if lines != [] {
      FeedSpelled(s, lines[0]);
      FeedAllSpelled(Feed(s, lines[0]), lines[1..]);
    }
  }

  lemma ParsedIsNorm(text: string)
    ensures NormItems(Parse(text).interface) == Parse(text).interface
  {
    hide FeedAll, SplitLines;
    FeedAllSpelled(START, SplitLines(text));
  }

  // ------------------------------------------------------------------ the two readings

  /** Either reading has the file's section, printed and read again. */
  lemma ReadSection(s: Server, own: bool) returns (pad: seq<Item>)
    requires KeptOk(s)
    ensures forall i :: 0 <= i < |pad| ==> pad[i].Blank?
    ensures Parse(s.text).interface == NormItems(s.Read(own).interface) + pad
    ensures Parse(s.text).header == s.Read(own).header
  {
    hide Parse, Render, ConfOk, NormItems, BarePeers, NormPeers, Padding;
    if own && s.kept.Some? {
      ReadsBackBare(s.kept.value);
      pad := Padding(BareConf(s.kept.value));
      PadIsBlank(BareConf(s.kept.value));
    } else {
      ParsedIsNorm(s.text);
      pad := [];
      assert Parse(s.text).interface + [] == Parse(s.text).interface;
    }
  }

  lemma PadIsBlank(c: Conf)
    ensures forall i :: 0 <= i < |Padding(c)| ==> Padding(c)[i].Blank?
  {
  }

  // ------------------------------------------------------------------ what a write leaves

  /** The section of a file that was printed with its hooks in place. */
  lemma WrittenSection(was: seq<Item>, read: seq<Item>, pad: seq<Item>, pad': seq<Item>)
    requires (forall i :: 0 <= i < |pad| ==> pad[i].Blank?) && (forall i :: 0 <= i < |pad'| ==> pad'[i].Blank?)
    requires was == NormItems(read) + pad
    ensures var now := NormItems(EnsureHooks(read)) + pad';
            SameSection(was, now) && HooksWritten(was, now)
  {
    hide EnsureHooks, All, WithoutHooks, NormItems, Others, WithoutTail;
    EnsureHooksSays(read);
    ReadAgain(read, pad);
    ReadAgain(EnsureHooks(read), pad');
    TailOnly(NormItems(WithoutHooks(read)), pad);
    TailOnly(NormItems(WithoutHooks(read)), pad');
  }

  /** Whatever list of peers a commit writes, the file's section stays but for the hooks. */
  lemma CommitSection(s: Server, own: bool, peers: seq<Peer>, live: bool)
    requires KeptOk(s) && PeersOk(BarePeers(peers))
    ensures var s' := Commit(s, s.Read(own), peers, live);
            && Parse(s'.text).header == Parse(s.text).header
            && SameSection(Parse(s.text).interface, Parse(s'.text).interface)
            && HooksWritten(Parse(s.text).interface, Parse(s'.text).interface)
  {
    hide Parse, Render, PeerOk, ConfOk, Synced, EnsureHooks, Padding, NormPeers, NormItems, SameSection, HooksWritten, KeptOk;
    ReadSays(s, own);
    var pad := ReadSection(s, own);
    var read := s.Read(own);
    WithPeersOk(BareConf(read), BarePeers(peers));
    var c := WithHooks(read.(peers := peers));
    assert BareConf(c) == WithHooks(BareConf(read).(peers := BarePeers(peers)));
    ReadsBackBare(c);
    PadIsBlank(BareConf(c));
    WrittenSection(Parse(s.text).interface, read.interface, pad, Padding(BareConf(c)));
  }

  // ------------------------------------------------------------------ what the kernel is given of it

  lemma {:induction false} SettingsAppend(a: seq<Item>, b: seq<Item>)
    ensures SettingsOf(a + b) == SettingsOf(a) + SettingsOf(b)
  {
    if a == [] {
      assert a + b == b;
    } else {
      assert (a + b)[1..] == a[1..] + b;
      SettingsAppend(a[1..], b);
    }
  }

  lemma {:induction false} NoSettings(pad: seq<Item>)
    requires forall i :: 0 <= i < |pad| ==> pad[i].Blank?
    ensures SettingsOf(pad) == []
  {
    if pad != [] { NoSettings(pad[1..]); }
  }

  lemma {:induction false} SettingsOfNorm(items: seq<Item>)
    ensures SettingsOf(NormItems(items)) == SettingsOf(items)
  {
    if items != [] {
      assert NormItems(items)[1..] == NormItems(items[1..]);
      SettingsOfNorm(items[1..]);
    }
  }

  lemma {:induction false} TailSettings(items: seq<Item>)
    ensures SettingsOf(WithoutTail(items)) == SettingsOf(items)
  {
    if items != [] && items[|items| - 1].Blank? {
      var front, last := items[..|items| - 1], items[|items| - 1];
      TailSettings(front);
      assert items == front + [last];
      SettingsAppend(front, [last]);
      NoSettings([last]);
    }
  }

  /** A key awg-quick acts on itself may stand in the section or not. */
  lemma {:induction false} QuickKeyApart(items: seq<Item>, key: string)
    requires QuickOnly(key)
    ensures KeptSettings(SettingsOf(Without(items, key))) == KeptSettings(SettingsOf(items))
  {
    if items != [] {
      QuickKeyApart(items[1..], key);
      OneApart(items[0], items[1..], key);
    }
  }

  lemma OneApart(item: Item, rest: seq<Item>, key: string)
    requires QuickOnly(key)
    requires KeptSettings(SettingsOf(Without(rest, key))) == KeptSettings(SettingsOf(rest))
    ensures KeptSettings(SettingsOf(Without([item] + rest, key))) == KeptSettings(SettingsOf([item] + rest))
  {
    hide KeptSettings, SettingsOf, Without, QuickOnly, Fold;
    WithoutAppend([item], rest, key);
    OneItem(item, key);
    SettingsAppend([item], rest);
    if IsKey(item, key) {
      SettingsOfOne(item);
      SameFold(item.key, key);
      KeptStep((item.key, item.value), SettingsOf(rest));
      assert [] + Without(rest, key) == Without(rest, key);
    } else {
      SettingsAppend([item], Without(rest, key));
      SettingsOfOne(item);
      if item.Kv? {
        KeptStep((item.key, item.value), SettingsOf(rest));
        KeptStep((item.key, item.value), SettingsOf(Without(rest, key)));
      } else {
        assert [] + SettingsOf(rest) == SettingsOf(rest);
        assert [] + SettingsOf(Without(rest, key)) == SettingsOf(Without(rest, key));
      }
    }
  }

  lemma SettingsOfOne(item: Item)
    ensures SettingsOf([item]) == if item.Kv? then [(item.key, item.value)] else []
  {
    assert [item][1..] == [];
  }

  lemma SameFold(a: string, b: string)
    requires Fold(a) == Fold(b)
    ensures QuickOnly(a) == QuickOnly(b)
  {
  }

  lemma KeptStep(setting: (string, string), rest: seq<(string, string)>)
    ensures KeptSettings([setting] + rest) == (if QuickOnly(setting.0) then [] else [setting]) + KeptSettings(rest)
  {
    hide QuickOnly;
    assert ([setting] + rest)[1..] == rest;
  }

  lemma HookKeysQuick()
    ensures QuickOnly(PRE_DOWN) && QuickOnly(POST_UP) && QuickOnly(POST_DOWN)
  {
    assert Fold(PRE_DOWN) == "predown" && Fold(POST_UP) == "postup" && Fold(POST_DOWN) == "postdown";
  }

  /** Sections that differ in their hooks and their last blank lines give the kernel the same settings. */
  lemma SameSettings(a: seq<Item>, b: seq<Item>)
    requires SameSection(a, b)
    ensures DeviceSettings(a) == DeviceSettings(b)
  {
    hide KeptSettings, SettingsOf, SettingItems, Without, WithoutTail, QuickOnly;
    SectionSettings(a);
    SectionSettings(b);
    TailSettings(WithoutHooks(a));
    TailSettings(WithoutHooks(b));
  }

  lemma SectionSettings(items: seq<Item>)
    ensures KeptSettings(SettingsOf(WithoutHooks(items))) == KeptSettings(SettingsOf(items))
  {
    hide KeptSettings, SettingsOf, Without, QuickOnly;
    HookKeysQuick();
    QuickKeyApart(items, PRE_DOWN);
    QuickKeyApart(Without(items, PRE_DOWN), POST_UP);
    QuickKeyApart(Without(Without(items, PRE_DOWN), POST_UP), POST_DOWN);
  }

  /** Whichever reading is stripped, the kernel's reader finds the settings of the file. */
  lemma StrippedSection(s: Server, own: bool)
    requires KeptOk(s)
    ensures Parse(StripConf(s.Read(own), {})).interface == DeviceSettings(Parse(s.text).interface)
  {
    hide Parse, Render, ConfOk, StripConf, NormItems, SettingsOf, SettingItems, KeptSettings, KernelPeers, KeptOk;
    ReadSays(s, own);
    var read := s.Read(own);
    StripConfBare(read, {});
    StripReadsBack(BareConf(read), {});
    var pad := ReadSection(s, own);
    SettingsAppend(NormItems(read.interface), pad);
    NoSettings(pad);
    SettingsOfNorm(read.interface);
    assert SettingsOf(read.interface) + [] == SettingsOf(read.interface);
  }

  // ------------------------------------------------------------------ one call

  /** A call that writes the file keeps its header and its section, re-asserts the hooks, and hands the
      kernel the settings the file had before it. */
  lemma EditSection(s: Server, net: Net4, net6: Option<S6.Prefix64>, op: Op, own: bool)
    requires net.Valid() && Inv(s) && IsEdit(op) && Supplied(s.Peers(), op)
    requires Edited(s.Read(own).peers, net, net6, op).Some?
    ensures var s' := Apply(s, net, net6, op, own); var was, now := Parse(s.text), Parse(s'.text);
            && now.header == was.header && SameSection(was.interface, now.interface)
            && HooksWritten(was.interface, now.interface)
            && s'.kept.Some? && Parse(StripConf(s'.kept.value, {})).interface == DeviceSettings(was.interface)
            && DeviceSettings(now.interface) == DeviceSettings(was.interface)
  {
    hide NamesDistinct, Parse, Edited, Good, PeersOk, Sound, EnabledSet, ConfOk, Supplied, NewNameClear, KeptOk, Server.Read, KeyUnused;
    hide SameSection, HooksWritten, DeviceSettings, StripConf, Render, WithHooks, Synced;
    var peers := s.Read(own).peers;
    ReadSays(s, own);
    ReadIsGood(s, own);
    SuppliedSame(peers, s.Peers(), op);
    EditKeepsGood(peers, net, net6, op);
    var (after, live) := Edited(peers, net, net6, op).value;
    CommitSection(s, own, after, live);
    CommitSays(s, s.Read(own), after, live);
    var s' := Apply(s, net, net6, op, own);
    SameSettings(Parse(s.text).interface, Parse(s'.text).interface);
    StrippedSection(s', true);
    assert s'.kept.Some? && s'.Read(true) == s'.kept.value by { ReadOwn(s'); }
  }

  lemma ReadOwn(s: Server)
    ensures s.kept.Some? ==> s.Read(true) == s.kept.value
  {
  }

  // ------------------------------------------------------------------ every run

  /** Hooks written over hooks already written are the hooks written once. */
  lemma HooksWrittenTwice(a: seq<Item>, b: seq<Item>, c: seq<Item>)
    requires HooksWritten(a, b) && HooksWritten(b, c)
    ensures HooksWritten(a, c)
  {
    PanelLinesOwn();
    hide All, Others, OwnLines;
    SlotValuesFixed(All(a, "PreDown"), [PREDOWN_MARKER], [PREDOWN_HOOK], false);
    SlotValuesFixed(All(a, "PostUp"), [POSTUP_MARKER, SHAPE_MARKER], [POSTUP_HOOK, SHAPE_HOOK], true);
    SlotValuesFixed(All(a, "PostDown"), [SHAPE_MARKER], [UNSHAPE_HOOK], false);
  }

  lemma ApplySection(s: Server, net: Net4, net6: Option<S6.Prefix64>, op: Op, own: bool)
    requires net.Valid() && Inv(s) && Supplied(s.Peers(), op)
    ensures var was, now := Parse(s.text), Parse(Apply(s, net, net6, op, own).text);
            && now.header == was.header && SameSection(was.interface, now.interface)
            && (Apply(s, net, net6, op, own).text == s.text || HooksWritten(was.interface, now.interface))
  {
    hide Inv, Edited, Supplied, Server.Read, Parse, HooksWritten, Commit, Synced, ByKey, KeyedPeers;
    if IsEdit(op) && Edited(s.Read(own).peers, net, net6, op).Some? {
      EditSection(s, net, net6, op, own);
    }
  }

  /** Over every run: the file's header and its section are those it started with, the hook keys are
      those it started with or hold what one write makes of them, and the settings for the kernel never
      change. */
  lemma {:induction false} EveryRunKeepsSection(states: seq<Server>, calls: seq<(Op, bool)>, net: Net4, net6: Option<S6.Prefix64>,
                                                n: nat)
    requires net.Valid() && Run(states, calls, net, net6) && Inv(states[0]) && n < |states|
    ensures var was, now := Parse(states[0].text), Parse(states[n].text);
            && now.header == was.header && SameSection(was.interface, now.interface)
            && DeviceSettings(now.interface) == DeviceSettings(was.interface)
            && (states[n].text == states[0].text || HooksWritten(was.interface, now.interface))
  {
    hide Inv, Apply, Supplied, NewNameClear, Edited, Parse, HooksWritten, DeviceSettings, WithoutTail, WithoutHooks;
    if n > 0 {
      EveryRunKeepsSection(states, calls, net, net6, n - 1);
      EveryRunKeeps(states, calls, net, net6, n - 1);
      var was, then', now := Parse(states[0].text).interface, Parse(states[n - 1].text).interface, Parse(states[n].text).interface;
      ApplySection(states[n - 1], net, net6, calls[n - 1].0, calls[n - 1].1);
      if states[n - 1].text != states[0].text && states[n].text != states[n - 1].text {
        HooksWrittenTwice(was, then', now);
      }
      SameSettings(was, now);
    }
  }
}
