/** Threads of the panel sharing one config file: a re-entrant lock around every mutation, and in
    each thread a private parse of the file that thread wrote last, guarded by the file's stamp.
    The steps interleave freely; editors outside the panel take no lock and may step in anywhere
    except between a write and the stat that follows it. */
module PrivateCaches {
  import opened Text
  import opened Config
  import opened ConfRoundTrip
  import opened ConfNormalForm
  import opened NameBreaks
  import opened Hooks

  type Tid = nat
  type Ref = nat
  type Stamp = nat

  /** What _conf_stamp answers for a file that is not there. */
  const NO_STAMP: Stamp := 0

  // ------------------------------------------------------------------ what a config shows

  predicate IsBlank(item: Item) {
    item.Blank?
  }

  function Content(items: seq<Item>): seq<Item> {
    if items == [] then []
    else (if IsBlank(items[0]) then [] else [NormItem(items[0])]) + Content(items[1..])
  }

  /** What can be told about a config: its header, every setting, comment and kept line in order,
      and every peer, with AllowedIPs taken without blanks at its end and an empty optional field
      taken as an absent one. */
  datatype Sight = Sight(header: string, content: seq<Item>, peers: seq<Peer>)

  function Observe(c: Conf): Sight {
    Sight(c.header, Content(c.interface), NormPeers(c.peers))
  }

  lemma {:induction false} ContentAppend(a: seq<Item>, b: seq<Item>)
    ensures Content(a + b) == Content(a) + Content(b)
  {
    hide NormItem;
    if a == [] {
      assert a + b == b;
    } else {
      assert (a + b)[1..] == a[1..] + b;
      ContentAppend(a[1..], b);
    }
  }

  lemma {:induction false} ContentOfNorm(items: seq<Item>)
    ensures Content(NormItems(items)) == Content(items)
  {
    if items != [] {
      assert NormItem(NormItem(items[0])) == NormItem(items[0]);
      hide NormItem;
      assert NormItems(items)[1..] == NormItems(items[1..]);
      ContentOfNorm(items[1..]);
    }
  }

  /** A config that was edited and printed cannot be told from a fresh parse of what was printed. */
  lemma PrintedLooksParsed(c: Conf)
    requires ConfOk(c)
    ensures Observe(Parse(Render(c))) == Observe(c)
  {
    hide ConfOk, Render, Parse, Content, NormItems, NormPeers, InterfaceLines;
    RoundTrip(c);
    ContentOfNorm(c.interface);
    ContentAppend(NormItems(c.interface), Padding(c));
    assert Content(Padding(c)) == [] by { PaddingShowsNothing(c); }
    NormPeersTwice(c.peers);
    assert Content(c.interface) + [] == Content(c.interface);
  }

  /** What a config shows to whoever does not look at line feeds at the end of a name. */
  function Shown(c: Conf): Sight {
    Observe(BareConf(c))
  }

  /** A config the printer can carry, but for line feeds at the end of a name. */
  predicate Printable(c: Conf) {
    ConfOk(BareConf(c))
  }

  lemma HooksPrintable(c: Conf)
    requires Printable(c)
    ensures Printable(WithHooks(c)) && BareConf(WithHooks(c)) == WithHooks(BareConf(c))
  {
    hide ConfOk, EnsureHooks;
    WithHooksOk(BareConf(c));
  }

  lemma ParsedPrintable(text: string)
    ensures Printable(Parse(text)) && BareConf(Parse(text)) == Parse(text)
  {
    hide Parse, PeerOk;
    ParseOk(text);
    BarePeersOfOk(Parse(text).peers);
  }

  lemma WrittenShown(c: Conf)
    requires Printable(c)
    ensures Observe(Parse(Render(c))) == Shown(c)
  {
    hide ConfOk, Render, Parse, Observe;
    ReadsBackBare(c);
    PrintedLooksParsed(BareConf(c));
  }

  /** Exactly a name that ends in a line feed makes the two sights differ. */
  lemma ShownIsObserved(c: Conf)
    ensures Observe(c) == Shown(c) <==> NamesWhole(c)
  {
    hide Content, Strip;
    var bare, held := NormPeers(BarePeers(c.peers)), NormPeers(c.peers);
    forall i | 0 <= i < |c.peers|
      ensures bare[i] == held[i] <==> (c.peers[i].name.Some? ==> !EndsInBreak(c.peers[i].name.value))
    {
    }
    assert bare == held <==> forall i :: 0 <= i < |c.peers| ==> bare[i] == held[i];
  }

  lemma PaddingShowsNothing(c: Conf)
    ensures Content(Padding(c)) == []
  {
  }

  // ------------------------------------------------------------------ the state

  /** Everything the threads share, every config object there is, and who may edit which.
      `version` counts the contents the file has had. */
  datatype World = World(
    file: Option<string>,
    stamp: Stamp,
    issued: set<Stamp>,
    heap: map<Ref, Conf>,
    held: map<Ref, Tid>,
    caches: map<Tid, (Stamp, Ref)>,
    pending: Option<(Tid, Ref)>,
    owner: Option<Tid>,
    depth: map<Tid, nat>,
    version: nat)
  {
    function Stat(): Stamp {
      if file.None? then NO_STAMP else stamp
    }

    function Depth(t: Tid): nat {
      if t in depth then depth[t] else 0
    }

    /** _read_conf's test: this thread wrote the file last and nobody has since. */
    predicate Hit(t: Tid) {
      t in caches && caches[t].0 != NO_STAMP && caches[t].0 == Stat()
    }
  }

  ghost predicate Init(s: World) {
    && s.heap == map[] && s.held == map[] && s.caches == map[]
    && s.pending.None? && s.owner.None? && s.depth == map[]
    && s.stamp != NO_STAMP && s.stamp in s.issued
    && s.version == 0
  }

  // ------------------------------------------------------------------ the steps

  datatype Step =
    | Enter(t: Tid)
    | Exit(t: Tid)
    | Read(t: Tid, ref: Ref)
    | Edit(t: Tid, ref: Ref, conf: Conf)
    | Write(t: Tid, ref: Ref, newStamp: Stamp)
    | WriteFails(t: Tid, ref: Ref)
    | Remember(t: Tid)
    | Interrupted(t: Tid)
    | Outside(content: Option<string>, newStamp: Stamp)

  /** config_lock: a thread that holds it goes one deeper, another waits until nobody does. */
  predicate CanEnter(s: World, t: Tid) {
    s.owner == Some(t) || s.owner.None?
  }

  function DoEnter(s: World, t: Tid): World {
    if s.owner == Some(t) then s.(depth := s.depth[t := s.Depth(t) + 1])
    else s.(owner := Some(t), depth := s.depth[t := 1])
  }

  predicate CanExit(s: World, t: Tid) {
    s.owner == Some(t) && s.Depth(t) > 0 && s.pending.None?
  }

  function DoExit(s: World, t: Tid): World
    requires CanExit(s, t)
  {
    var left := s.Depth(t) - 1;
    s.(depth := s.depth[t := left], owner := if left == 0 then None else s.owner)
  }

  predicate CanRead(s: World, t: Tid, ref: Ref) {
    s.file.Some? && ref !in s.heap && (s.Hit(t) ==> s.caches[t].1 in s.heap)
  }

  /** _read_conf: a copy of the thread's own parse while the stamp still says so, else a parse. */
  function DoRead(s: World, t: Tid, ref: Ref): World
    requires CanRead(s, t, ref)
  {
    var conf := if s.Hit(t) then s.heap[s.caches[t].1] else Parse(s.file.value);
    s.(heap := s.heap[ref := conf], held := s.held[ref := t])
  }

  /** A caller changing the object it was handed, to anything the printer can carry, names that end in
      a line feed included. */
  predicate CanEdit(s: World, t: Tid, ref: Ref, conf: Conf) {
    ref in s.held && s.held[ref] == t && Printable(conf)
  }

  function DoEdit(s: World, ref: Ref, conf: Conf): World {
    s.(heap := s.heap[ref := conf])
  }

  predicate CanWrite(s: World, t: Tid, ref: Ref, newStamp: Stamp) {
    && s.owner == Some(t) && s.pending.None?
    && ref in s.held && s.held[ref] == t && ref in s.heap
    && newStamp !in s.issued && newStamp != NO_STAMP
  }

  /** _write_conf up to the replace: the object gets its hooks, the file becomes its text. */
  function DoWrite(s: World, t: Tid, ref: Ref, newStamp: Stamp): World
    requires CanWrite(s, t, ref, newStamp)
  {
    var conf := WithHooks(s.heap[ref]);
    s.(heap := s.heap[ref := conf], file := Some(Render(conf)), stamp := newStamp, issued := s.issued + {newStamp},
       held := s.held - {ref}, pending := Some((t, ref)), version := s.version + 1)
  }

  /** The replace raised: the object has its hooks and the file is what it was. */
  function DoWriteFails(s: World, ref: Ref): World
    requires ref in s.heap
  {
    s.(heap := s.heap[ref := WithHooks(s.heap[ref])])
  }

  predicate CanRemember(s: World, t: Tid) {
    s.pending.Some? && s.pending.value.0 == t
  }

  /** The stat after the write: this object is what the file holds, under this stamp. */
  function DoRemember(s: World, t: Tid): World
    requires CanRemember(s, t)
  {
    s.(caches := s.caches[t := (s.Stat(), s.pending.value.1)], pending := None)
  }

  /** Something raised between the replace and the assignment: the file is new, and the thread still
      has the parse it had before. */
  function DoInterrupted(s: World): World {
    s.(pending := None)
  }

  /** An editor, a restore, another program: any text, or no file at all, under a stamp of its own. */
  function DoOutside(s: World, content: Option<string>, newStamp: Stamp): World {
    s.(file := content, stamp := newStamp, issued := s.issued + {newStamp}, version := s.version + 1)
  }

  predicate CanOutside(s: World, newStamp: Stamp) {
    newStamp !in s.issued && newStamp != NO_STAMP
  }

  ghost predicate Takes(s: World, step: Step, s': World) {
    match step
    case Enter(t) => CanEnter(s, t) && s' == DoEnter(s, t)
    case Exit(t) => CanExit(s, t) && s' == DoExit(s, t)
    case Read(t, ref) => CanRead(s, t, ref) && s' == DoRead(s, t, ref)
    case Edit(t, ref, conf) => CanEdit(s, t, ref, conf) && s' == DoEdit(s, ref, conf)
    case Write(t, ref, newStamp) => CanWrite(s, t, ref, newStamp) && s' == DoWrite(s, t, ref, newStamp)
    case WriteFails(t, ref) => ref in s.held && s.held[ref] == t && ref in s.heap && s' == DoWriteFails(s, ref)
    case Remember(t) => CanRemember(s, t) && s' == DoRemember(s, t)
    case Interrupted(t) => CanRemember(s, t) && s' == DoInterrupted(s)
    case Outside(content, newStamp) => CanOutside(s, newStamp) && s.pending.None? && s' == DoOutside(s, content, newStamp)
  }

  /** A run: any number of threads, any order. */
  ghost predicate Run(states: seq<World>, steps: seq<Step>) {
    && |states| == |steps| + 1 && Init(states[0])
    && forall i :: 0 <= i < |steps| ==> Takes(states[i], steps[i], states[i + 1])
  }

  // ------------------------------------------------------------------ what every step keeps

  /** A cached object is nobody's to edit, and while its stamp matches it is what the file was printed
      from. */
  ghost predicate CacheOk(s: World, t: Tid)
    requires t in s.caches
  {
    && s.caches[t].1 in s.heap && s.caches[t].1 !in s.held
    && (s.caches[t].0 != NO_STAMP ==> s.caches[t].0 in s.issued)
    && (s.Hit(t) ==> s.file == Some(Render(s.heap[s.caches[t].1])))
  }

  ghost predicate PendingOk(s: World) {
    s.pending.Some? ==>
      && s.owner.Some? && s.owner.value == s.pending.value.0
      && s.pending.value.1 in s.heap && s.pending.value.1 !in s.held
      && s.file == Some(Render(s.heap[s.pending.value.1]))
  }

  ghost predicate LockOk(s: World) {
    forall t: Tid :: s.Depth(t) > 0 <==> s.owner == Some(t)
  }

  ghost predicate Inv(s: World) {
    && s.held.Keys <= s.heap.Keys
    && (forall r :: r in s.heap ==> Printable(s.heap[r]))
    && s.stamp != NO_STAMP && s.stamp in s.issued
    && (forall t :: t in s.caches ==> CacheOk(s, t))
    && PendingOk(s) && LockOk(s)
  }

  lemma InitKeeps(s: World)
    requires Init(s)
    ensures Inv(s)
  {
  }

  lemma ReadKeeps(s: World, t: Tid, ref: Ref)
    requires Inv(s) && CanRead(s, t, ref)
    ensures Inv(DoRead(s, t, ref))
    ensures HandedOut(s, DoRead(s, t, ref).heap[ref])
  {
    hide Observe, Parse, Printable, Render;
    ParsedPrintable(s.file.value);
    var s' := DoRead(s, t, ref);
    forall u | u in s'.caches ensures CacheOk(s', u) {
      assert CacheOk(s, u);
      assert s.Hit(u) <==> s'.Hit(u);
    }
    if s.Hit(t) { assert CacheOk(s, t); }
    assert forall u: Tid :: s'.Depth(u) == s.Depth(u);
  }

  /** What a read hands out: the file's own parse, or the object the file was printed from. */
  predicate HandedOut(s: World, c: Conf) {
    s.file.Some? && (c == Parse(s.file.value) || (Printable(c) && s.file == Some(Render(c))))
  }

  lemma HandedOutShows(s: World, c: Conf)
    requires HandedOut(s, c)
    ensures Shown(c) == Observe(Parse(s.file.value))
    ensures Observe(c) == Observe(Parse(s.file.value)) <==> NamesWhole(c)
  {
    hide Observe, Parse, Printable, Render;
    ParsedPrintable(s.file.value);
    if c != Parse(s.file.value) { WrittenShown(c); }
    ShownIsObserved(c);
  }

  lemma EditKeeps(s: World, t: Tid, ref: Ref, conf: Conf)
    requires Inv(s) && CanEdit(s, t, ref, conf)
    ensures Inv(DoEdit(s, ref, conf))
  {
    hide Observe, Parse, Printable, Render;
    var s' := DoEdit(s, ref, conf);
    forall u | u in s'.caches ensures CacheOk(s', u) {
      assert CacheOk(s, u);
      assert s.Hit(u) <==> s'.Hit(u);
    }
    assert forall u: Tid :: s'.Depth(u) == s.Depth(u);
  }

  lemma WriteKeeps(s: World, t: Tid, ref: Ref, newStamp: Stamp)
    requires Inv(s) && CanWrite(s, t, ref, newStamp)
    ensures Inv(DoWrite(s, t, ref, newStamp))
  {
    hide Observe, Parse, Printable, Render, WithHooks;
    HooksPrintable(s.heap[ref]);
    var s' := DoWrite(s, t, ref, newStamp);
    assert forall u: Tid :: s'.Depth(u) == s.Depth(u);
    WriteKeepsCaches(s, t, ref, newStamp);
  }

  lemma WriteKeepsCaches(s: World, t: Tid, ref: Ref, newStamp: Stamp)
    requires Inv(s) && CanWrite(s, t, ref, newStamp)
    ensures var s' := DoWrite(s, t, ref, newStamp); forall u :: u in s'.caches ==> CacheOk(s', u)
  {
    hide Observe, Parse, Printable, Render, WithHooks, LockOk;
    var s' := DoWrite(s, t, ref, newStamp);
    forall u | u in s'.caches ensures CacheOk(s', u) {
      assert CacheOk(s, u);
      assert !s'.Hit(u);
    }
  }

  lemma WriteFailsKeeps(s: World, t: Tid, ref: Ref)
    requires Inv(s) && ref in s.held && ref in s.heap
    ensures Inv(DoWriteFails(s, ref))
  {
    HooksPrintable(s.heap[ref]);
    EditKeeps(s, s.held[ref], ref, WithHooks(s.heap[ref]));
  }

  lemma RememberKeeps(s: World, t: Tid)
    requires Inv(s) && CanRemember(s, t)
    ensures Inv(DoRemember(s, t)) && DoRemember(s, t).Hit(t)
  {
    hide Observe, Parse, Printable, Render;
    var s' := DoRemember(s, t);
    forall u | u in s'.caches ensures CacheOk(s', u) {
      if u != t {
        assert CacheOk(s, u);
        assert s.Hit(u) <==> s'.Hit(u);
      }
    }
    assert forall u: Tid :: s'.Depth(u) == s.Depth(u);
  }

  lemma OutsideKeeps(s: World, content: Option<string>, newStamp: Stamp)
    requires Inv(s) && CanOutside(s, newStamp) && s.pending.None?
    ensures Inv(DoOutside(s, content, newStamp))
  {
    hide Observe, Parse, Printable, Render;
    var s' := DoOutside(s, content, newStamp);
    forall u | u in s'.caches ensures CacheOk(s', u) {
      assert CacheOk(s, u);
      assert !s'.Hit(u);
    }
    assert forall u: Tid :: s'.Depth(u) == s.Depth(u);
  }

  lemma InterruptedKeeps(s: World, t: Tid)
    requires Inv(s) && CanRemember(s, t)
    ensures Inv(DoInterrupted(s))
  {
    hide Observe, Parse, Printable, Render;
    var s' := DoInterrupted(s);
    forall u | u in s'.caches ensures CacheOk(s', u) {
      assert CacheOk(s, u);
      assert s.Hit(u) <==> s'.Hit(u);
    }
    assert forall u: Tid :: s'.Depth(u) == s.Depth(u);
  }

  lemma LockKeeps(s: World, t: Tid)
    requires Inv(s)
    ensures CanEnter(s, t) ==> Inv(DoEnter(s, t))
    ensures CanExit(s, t) ==> Inv(DoExit(s, t))
  {
    hide Observe, Parse, Printable, Render;
    if CanEnter(s, t) {
      LockStep(s, DoEnter(s, t));
    }
    if CanExit(s, t) {
      LockStep(s, DoExit(s, t));
    }
  }

  lemma LockStep(s: World, s': World)
    requires Inv(s) && LockOk(s') && PendingOk(s')
    requires s' == s.(owner := s'.owner, depth := s'.depth)
    ensures Inv(s')
  {
    hide Observe, Parse, Printable, Render;
    forall u | u in s'.caches ensures CacheOk(s', u) {
      assert CacheOk(s, u);
      assert s.Hit(u) <==> s'.Hit(u);
    }
  }

  lemma StepKeeps(s: World, step: Step, s': World)
    requires Inv(s) && Takes(s, step, s')
    ensures Inv(s')
  {
    hide Inv, Observe, Parse, Printable, Render;
    match step
    case Enter(t) => LockKeeps(s, t);
    case Exit(t) => LockKeeps(s, t);
    case Read(t, ref) => ReadKeeps(s, t, ref);
    case Edit(t, ref, conf) => EditKeeps(s, t, ref, conf);
    case Write(t, ref, newStamp) => WriteKeeps(s, t, ref, newStamp);
    case WriteFails(t, ref) => WriteFailsKeeps(s, t, ref);
    case Remember(t) => RememberKeeps(s, t);
    case Interrupted(t) => InterruptedKeeps(s, t);
    case Outside(content, newStamp) => OutsideKeeps(s, content, newStamp);
  }

  lemma {:induction false} RunKeeps(states: seq<World>, steps: seq<Step>, n: nat)
    requires Run(states, steps) && n < |states|
    ensures Inv(states[n])
  {
    hide Inv, Takes, Init;
    if n == 0 {
      InitKeeps(states[0]);
    } else {
      RunKeeps(states, steps, n - 1);
      StepKeeps(states[n - 1], steps[n - 1], states[n]);
    }
  }

  // ------------------------------------------------------------------ what it comes to

  /** Serialisability of the reads: in every run, whatever the caches hold, what a thread is handed is
      the file's own parse or the object the file was printed from. Line feeds at the end of names
      apart it shows what a fresh parse of the file as it then is would show; and that is all it shows
      exactly when no name in it ends in one. */
  lemma EveryReadIsFresh(states: seq<World>, steps: seq<Step>, n: nat)
    requires Run(states, steps) && n < |steps| && steps[n].Read?
    ensures states[n].file.Some?
    ensures var c, found := states[n + 1].heap[steps[n].ref], Parse(states[n].file.value);
            && HandedOut(states[n], c) && Shown(c) == Observe(found)
            && (Observe(c) == Observe(found) <==> NamesWhole(c))
  {
    hide Inv, Observe, Parse, Printable, Render, HandedOut, NamesWhole, Shown;
    RunKeeps(states, steps, n);
    assert Takes(states[n], steps[n], states[n + 1]);
    ReadKeeps(states[n], steps[n].t, steps[n].ref);
    HandedOutShows(states[n], states[n + 1].heap[steps[n].ref]);
  }

  /** An edit, and a write that failed, reach no object but the caller's own: not a cached one, not
      one another thread is editing, not the file. */
  lemma EditsStayPrivate(states: seq<World>, steps: seq<Step>, n: nat)
    requires Run(states, steps) && n < |steps| && (steps[n].Edit? || steps[n].WriteFails?)
    ensures var s, s' := states[n], states[n + 1];
            && s'.file == s.file && s'.caches == s.caches && s'.held == s.held
            && (forall t :: t in s.caches ==> s.caches[t].1 in s.heap && s'.heap[s.caches[t].1] == s.heap[s.caches[t].1])
            && (forall r :: r in s.held && s.held[r] != steps[n].t ==> r in s.heap && s'.heap[r] == s.heap[r])
  {
    hide Observe, Parse, Printable, Render, WithHooks;
    RunKeeps(states, steps, n);
    var s := states[n];
    assert Takes(s, steps[n], states[n + 1]);
    assert forall t :: t in s.caches ==> CacheOk(s, t);
  }

  /** One mutation at a time: only the thread that holds the lock replaces the file, and no other
      thread is inside it at any depth. */
  lemma OneWriter(states: seq<World>, steps: seq<Step>, n: nat, other: Tid)
    requires Run(states, steps) && n < |steps| && (steps[n].Write? || steps[n].Remember?)
    ensures states[n].owner == Some(steps[n].t)
    ensures states[n].Depth(other) > 0 ==> other == steps[n].t
  {
    hide Observe, Parse, Printable, Render, WithHooks;
    RunKeeps(states, steps, n);
    assert Takes(states[n], steps[n], states[n + 1]);
  }

  /** How much oftener a thread has entered the lock than left it, in its own steps alone. */
  function Nesting(t: Tid, steps: seq<Step>): int {
    if steps == [] then 0
    else
      var last := steps[|steps| - 1];
      Nesting(t, steps[..|steps| - 1])
      + (if last == Enter(t) then 1 else if last == Exit(t) then -1 else 0)
  }

  /** A thread's depth in the lock is its own doing: nobody else's step changes it. */
  lemma {:induction false} DepthIsNesting(states: seq<World>, steps: seq<Step>, t: Tid, n: nat)
    requires Run(states, steps) && n < |states|
    ensures states[n].Depth(t) == Nesting(t, steps[..n])
  {
    hide Parse, ConfOk, Render, WithHooks, CanRead, DoRead;
    if n > 0 {
      DepthIsNesting(states, steps, t, n - 1);
      RunKeeps(states, steps, n - 1);
      assert steps[..n][..n - 1] == steps[..n - 1];
      assert Takes(states[n - 1], steps[n - 1], states[n]);
      DepthStep(states[n - 1], steps[n - 1], states[n], t);
    }
  }

  lemma DepthStep(s: World, step: Step, s': World, t: Tid)
    requires Inv(s) && Takes(s, step, s')
    ensures s'.Depth(t) == s.Depth(t) + (if step == Enter(t) then 1 else if step == Exit(t) then -1 else 0)
  {
    hide Parse, ConfOk, Render, WithHooks, Observe, PendingOk, CacheOk;
    assert LockOk(s);
  }

  /** The thread stays inside its outermost `with` from one step to another. */
  ghost predicate StaysInside(t: Tid, steps: seq<Step>, m: nat, n: nat)
    requires m <= n <= |steps|
  {
    forall k :: m <= k <= n ==> Nesting(t, steps[..k]) > 0
  }

  lemma InsideOwns(states: seq<World>, steps: seq<Step>, t: Tid, k: nat)
    requires Run(states, steps) && k < |states| && Nesting(t, steps[..k]) > 0
    ensures states[k].owner == Some(t)
  {
    hide Nesting, Run;
    DepthIsNesting(states, steps, t, k);
    RunKeeps(states, steps, k);
    assert LockOk(states[k]);
  }

  /** The steps that give the file other contents. */
  predicate Replaces(step: Step) {
    step.Write? || step.Outside?
  }

  /** One step counts the version up exactly when it replaces the file, and leaves both alone else. */
  lemma ReplacesStep(s: World, step: Step, s': World)
    requires Takes(s, step, s')
    ensures s'.version == s.version + (if Replaces(step) then 1 else 0)
    ensures !Replaces(step) ==> s'.file == s.file
  {
    hide Parse, ConfOk, Render, WithHooks, Observe;
  }

  lemma {:induction false} VersionCounts(states: seq<World>, steps: seq<Step>, m: nat, n: nat)
    requires Run(states, steps) && m <= n < |states|
    ensures states[m].version <= states[n].version
    ensures states[n].version == states[m].version <==> forall k :: m <= k < n ==> !Replaces(steps[k])
    ensures states[n].version == states[m].version ==> states[n].file == states[m].file
  {
    hide Replaces, Takes, Init;
    if m < n {
      VersionCounts(states, steps, m, n - 1);
      ReplacesStep(states[n - 1], steps[n - 1], states[n]);
    }
  }

  predicate WritesAs(t: Tid, step: Step) {
    step.Write? && step.t == t
  }

  /** No lost update. A thread reads the config and later writes what it read, inside the lock all
      the while. Then no other thread has written in between; and the file it replaces is the very
      version it read, showing what it was handed, exactly when neither it nor an outsider has
      replaced the file since. */
  lemma NoLostUpdate(states: seq<World>, steps: seq<Step>, t: Tid, ref: Ref, m: nat, n: nat)
    requires Run(states, steps) && m < n < |steps|
    requires steps[m] == Read(t, ref) && steps[n].Write? && steps[n].t == t && steps[n].ref == ref
    requires StaysInside(t, steps, m, n)
    ensures forall k :: m < k < n && steps[k].Write? ==> steps[k].t == t
    ensures states[n].version == states[m].version
            <==> forall k :: m < k < n ==> !steps[k].Outside? && !WritesAs(t, steps[k])
    ensures states[n].version == states[m].version ==>
              && states[n].file == states[m].file && states[n].file.Some?
              && Shown(states[m + 1].heap[ref]) == Observe(Parse(states[n].file.value))
  {
    hide Inv, Observe, Parse, Printable, Render, WithHooks, Nesting;
    forall k | m < k < n && steps[k].Write? ensures steps[k].t == t {
      assert Takes(states[k], steps[k], states[k + 1]);
      InsideOwns(states, steps, t, k);
    }
    VersionCounts(states, steps, m, n);
    EveryReadIsFresh(states, steps, m);
  }

  /** After a write and its stat the thread's next read is answered from memory, and shows what the
      file says. */
  lemma OwnWriteIsRemembered(s: World, t: Tid, ref: Ref, newStamp: Stamp, next: Ref)
    requires Inv(s) && CanWrite(s, t, ref, newStamp) && next !in s.heap
    ensures var w := DoWrite(s, t, ref, newStamp);
            CanRemember(w, t) && DoRemember(w, t).Hit(t) && CanRead(DoRemember(w, t), t, next)
            && DoRead(DoRemember(w, t), t, next).heap[next] == WithHooks(s.heap[ref])
            && Shown(WithHooks(s.heap[ref])) == Observe(Parse(w.file.value))
  {
    hide Inv, Observe, Parse, Printable, Render, WithHooks;
    var w := DoWrite(s, t, ref, newStamp);
    WriteKeeps(s, t, ref, newStamp);
    RememberKeeps(w, t);
    ReadKeeps(DoRemember(w, t), t, next);
    WrittenShows(s, t, ref, newStamp);
  }

  // ------------------------------------------------------------------ why the premises are there

  /** The lock has to be held from the read on. Thread 1 reads first and enters afterwards: what
      thread 2 put into the file in between is gone, though both wrote under the lock. */
  lemma ReadOutsideLosesUpdate(s: World, text: string, theirs: Conf, stamp: Stamp, later: Stamp)
    returns (states: seq<World>, steps: seq<Step>)
    requires Init(s) && s.file == Some(text) && Printable(theirs)
    requires stamp !in s.issued && later !in s.issued && stamp != later && stamp != NO_STAMP && later != NO_STAMP
    ensures Run(states, steps) && states[0] == s
    ensures steps == [Read(1, 0), Enter(2), Read(2, 1), Edit(2, 1, theirs), Write(2, 1, stamp),
                      Remember(2), Exit(2), Enter(1), Write(1, 0, later)]
    ensures states[5].file == Some(Render(WithHooks(theirs)))
    ensures states[9].file == Some(Render(WithHooks(Parse(text))))
  {
    hide Observe, Parse, Printable, Render, WithHooks;
    steps := [Read(1, 0), Enter(2), Read(2, 1), Edit(2, 1, theirs), Write(2, 1, stamp),
              Remember(2), Exit(2), Enter(1), Write(1, 0, later)];
    var s1 := DoRead(s, 1, 0);
    var s2 := DoEnter(s1, 2);
    var s3 := DoRead(s2, 2, 1);
    var s4 := DoEdit(s3, 1, theirs);
    var s5 := DoWrite(s4, 2, 1, stamp);
    var s6 := DoRemember(s5, 2);
    var s7 := DoExit(s6, 2);
    var s8 := DoEnter(s7, 1);
    var s9 := DoWrite(s8, 1, 0, later);
    states := [s, s1, s2, s3, s4, s5, s6, s7, s8, s9];
  }

  /** The stat has to follow the write: an outsider between the two leaves the thread holding its
      own parse under the outsider's stamp, and its next read shows a file that is gone. */
  lemma StatMustFollowWrite(s: World, text: string, newStamp: Stamp, next: Ref)
    requires Inv(s) && s.pending.Some? && CanOutside(s, newStamp) && next !in s.heap
    requires Observe(Parse(text)) != Observe(s.heap[s.pending.value.1])
    ensures var t := s.pending.value.0;
            var out := DoOutside(s, Some(text), newStamp);
            CanRemember(out, t) && CanRead(DoRemember(out, t), t, next)
            && Observe(DoRead(DoRemember(out, t), t, next).heap[next]) != Observe(Parse(text))
  {
    hide Observe, Parse, Printable, Render;
  }

  /** The caller has to let go of what it wrote: the object is the thread's cached parse from then on,
      and an edit made to it later shows in the thread's next read, though the file never changed. */
  lemma EditAfterWriteLeaks(s: World, t: Tid, ref: Ref, newStamp: Stamp, conf: Conf, next: Ref)
    requires Inv(s) && CanWrite(s, t, ref, newStamp) && next !in s.heap
    requires Observe(conf) != Shown(WithHooks(s.heap[ref]))
    ensures var w := DoRemember(DoWrite(s, t, ref, newStamp), t);
            var e := DoEdit(w, ref, conf);
            ref !in w.held && e.file == w.file && e.file.Some? && CanRead(e, t, next)
            && Observe(DoRead(e, t, next).heap[next]) != Observe(Parse(e.file.value))
  {
    hide Inv, Observe, Parse, Printable, Render, WithHooks;
    var w := DoWrite(s, t, ref, newStamp);
    WriteKeeps(s, t, ref, newStamp);
    RememberKeeps(w, t);
    WrittenShows(s, t, ref, newStamp);
  }

  lemma WrittenShows(s: World, t: Tid, ref: Ref, newStamp: Stamp)
    requires Inv(s) && CanWrite(s, t, ref, newStamp)
    ensures DoWrite(s, t, ref, newStamp).file.Some?
    ensures Observe(Parse(DoWrite(s, t, ref, newStamp).file.value)) == Shown(WithHooks(s.heap[ref]))
  {
    hide Observe, Parse, Printable, Render, CacheOk, PendingOk, LockOk, Shown;
    HooksPrintable(s.heap[ref]);
    WrittenShown(WithHooks(s.heap[ref]));
  }

  /** And so has a name to keep clear of a line feed at its end: exactly with such a name the object
      shows something else than a fresh parse of what it was printed to. */
  lemma BrokenNameShows(c: Conf)
    requires Printable(c)
    ensures Observe(Parse(Render(c))) == Observe(c) <==> NamesWhole(c)
  {
    hide Parse, Render, Printable, Observe, NamesWhole;
    WrittenShown(c);
    ShownIsObserved(c);
  }

  /** A value has to keep clear of '#': everything from it on is a comment to the next parse. */
  lemma HashIsCutOff(key: string, value: string, comment: string)
    requires KeyOk(key) && OneLine(value)
    ensures Setting(SettingLine(key, value + "#" + comment)) == Some((key, Strip(value)))
  {
    var line := SettingLine(key, value + "#" + comment);
    var kept := SettingLine(key, value);
    assert line == kept + ['#'] + comment;
    IndexOfAfter(kept, '#', comment);
    assert Uncommented(line) == kept;
    UncommentedWhole(kept);
    hide Strip, IndexOf;
    SettingLineReads(key, value);
  }
}
