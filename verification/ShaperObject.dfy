/** The shaper as an object: commands run at once, or are collected by batched() and sent in one go. */
module ShaperObject {
  import opened Text
  import opened Subnet
  import opened ShaperIds
  import opened ShaperTree
  import opened ShaperLimits
  import opened ShaperRuns
  import opened ShaperAttach

  /** The kernel, what has been sent to it, what a batch has collected, and whether an exception is
      on its way out. */
  datatype Now = Now(tree: Tree, sent: seq<Line>, queue: Option<seq<Line>>, raised: bool)

  predicate Refused(t: Tree, line: Line) {
    line.check && Exec(t, line.cmd).None?
  }

  /** One command: queued inside a batch, run otherwise. */
  function One(now: Now, line: Line): Now {
    if now.raised then now
    else if now.queue.Some? then now.(queue := Some(now.queue.value + [line]))
    else now.(tree := After(now.tree, line.cmd), sent := now.sent + [line], raised := Refused(now.tree, line))
  }

  function Send(now: Now, lines: seq<Line>): Now
    decreases |lines|
  {
    if lines == [] then now else Send(One(now, lines[0]), lines[1..])
  }

  /** tc -force: carries on past a refusal. */
  function Forced(t: Tree, lines: seq<Line>): Tree
    decreases |lines|
  {
    if lines == [] then t else Forced(After(t, lines[0].cmd), lines[1..])
  }

  /** Whether a command somebody asked to succeed was among those refused. */
  predicate Blamed(t: Tree, lines: seq<Line>)
    decreases |lines|
  {
    lines != [] && (Refused(t, lines[0]) || Blamed(After(t, lines[0].cmd), lines[1..]))
  }

  /** The end of the outermost batch. */
  function Flush(now: Now): Now {
    if now.queue.None? then now
    else if now.raised then now.(queue := None)
    else now.(tree := Forced(now.tree, now.queue.value), sent := now.sent + now.queue.value, queue := None,
              raised := Blamed(now.tree, now.queue.value))
  }

  function Open(now: Now): Now {
    now.(queue := Some([]))
  }

  lemma {:induction false} SendJoin(now: Now, xs: seq<Line>, ys: seq<Line>)
    ensures Send(now, xs + ys) == Send(Send(now, xs), ys)
    decreases |xs|
  {
    hide One;
    if xs == [] {
      assert xs + ys == ys;
    } else {
      assert (xs + ys)[0] == xs[0] && (xs + ys)[1..] == xs[1..] + ys;
      SendJoin(One(now, xs[0]), xs[1..], ys);
    }
  }

  lemma SendOne(now: Now, line: Line)
    ensures Send(now, [line]) == One(now, line)
  {
    hide One;
    assert [line][1..] == [];
    assert Send(One(now, line), []) == One(now, line);
  }

  lemma {:induction false} SendRaised(now: Now, lines: seq<Line>)
    requires now.raised
    ensures Send(now, lines) == now
    decreases |lines|
  {
    if lines != [] {
      SendRaised(now, lines[1..]);
    }
  }

  // --- attach, asking the kernel as it goes

  function DevGo(now: Now, d: Dev): Now {
    Send(Send(now, RootLines(now.tree, d)), OwnClassLines(d))
  }

  function HashGo(now: Now, c: Chain, f: Family): Now {
    Send(now, HashLines(now.tree, c, f))
  }

  function HashesGo(cfg: Shaping, now: Now, c: Chain): Now {
    var one := HashGo(now, c, V4);
    if cfg.Covers(V6) then HashGo(one, c, V6) else one
  }

  function UploadGo(cfg: Shaping, now: Now): Now {
    if !cfg.wan then now
    else DevGo(HashesGo(cfg, Send(now, IngressLines(now.tree)), Ingress), Wan)
  }

  function AttachGo(cfg: Shaping, now: Now): Now {
    UploadGo(cfg, HashesGo(cfg, DevGo(now, Tunnel), Egress))
  }

  /** A Shaper: what it was built with, the kernel it talks to, and the batch being collected. */
  class Shaper {
    const cfg: Shaping
    var tree: Tree
    var queue: Option<seq<Line>>
    var raised: bool
    ghost var sent: seq<Line>

    constructor (cfg: Shaping, tree: Tree)
      ensures this.cfg == cfg && State() == Now(tree, [], None, false)
    {
      this.cfg, this.tree, queue, raised, sent := cfg, tree, None, false, [];
    }

    ghost function State(): Now
      reads this
    {
      Now(tree, sent, queue, raised)
    }

    /** Shaper._run. */
    method RunLine(line: Line)
      modifies this
      ensures State() == Send(old(State()), [line])
    {
      SendOne(State(), line);
      if raised {
        return;
      }
      if queue.Some? {
        queue := Some(queue.value + [line]);
        return;
      }
      sent := sent + [line];
      match Exec(tree, line.cmd) {
        case Some(next) => tree := next;
        case None => raised := line.check;
      }
    }

    method AddClass(dev: Dev, client: nat, bps: nat)
      modifies this
      ensures State() == Send(old(State()), AddClassLines(dev, client, bps))
    {
      var first, second, third := Line(ClassReplace(dev, client, bps), true),
                                  Line(LeafDel(dev, client), false), Line(LeafAdd(dev, client), true);
      SendJoin(State(), [first], [second] + [third]);
      RunLine(first);
      SendJoin(State(), [second], [third]);
      RunLine(second);
      RunLine(third);
    }

    method DelClass(dev: Dev, client: nat)
      modifies this
      ensures State() == Send(old(State()), DelClassLines(dev, client))
    {
      SendJoin(State(), [Line(LeafDel(dev, client), false)], [Line(ClassDel(dev, client), false)]);
      RunLine(Line(LeafDel(dev, client), false));
      RunLine(Line(ClassDel(dev, client), false));
    }

    /** The families this shaper covers, v4 first. */
    function Families(): (all: seq<Family>)
      ensures all == [V4] + if cfg.Covers(V6) then [V6] else []
    {
      if cfg.p6.Some? then [V4, V6] else [V4]
    }

    method WriteNodes(c: Chain, a: nat)
      requires cfg.Valid() && IsClient(cfg.net, a)
      modifies this
      ensures State() == Send(old(State()), NodeLines(cfg, c, a))
    {
      ghost var before := State();
      SendJoin(before, [NodeLine(cfg, c, V4, a)], if cfg.Covers(V6) then [NodeLine(cfg, c, V6, a)] else []);
      var all := Families();
      for i := 0 to |all|
        invariant i == 0 ==> State() == before
        invariant i == 1 ==> State() == Send(before, [NodeLine(cfg, c, V4, a)])
        invariant i == 2 ==> State() == Send(before, NodeLines(cfg, c, a))
      {
        RunLine(NodeLine(cfg, c, all[i], a));
      }
      assert Send(Send(before, [NodeLine(cfg, c, V4, a)]), []) == Send(before, [NodeLine(cfg, c, V4, a)]);
    }

    method DropNodes(c: Chain, a: nat)
      requires cfg.Valid() && IsClient(cfg.net, a)
      modifies this
      ensures State() == Send(old(State()), DropLines(cfg, c, a))
    {
      ghost var before := State();
      SendJoin(before, [DropLine(cfg, c, V4, a)], if cfg.Covers(V6) then [DropLine(cfg, c, V6, a)] else []);
      var all := Families();
      for i := 0 to |all|
        invariant i == 0 ==> State() == before
        invariant i == 1 ==> State() == Send(before, [DropLine(cfg, c, V4, a)])
        invariant i == 2 ==> State() == Send(before, DropLines(cfg, c, a))
      {
        RunLine(DropLine(cfg, c, all[i], a));
      }
      assert Send(Send(before, [DropLine(cfg, c, V4, a)]), []) == Send(before, [DropLine(cfg, c, V4, a)]);
    }

    method DropDownward(a: nat)
      requires cfg.Valid() && IsClient(cfg.net, a)
      modifies this
      ensures State() == Send(old(State()), DropDown(cfg, a))
    {
      SendJoin(State(), DropLines(cfg, Egress, a), DelClassLines(Tunnel, Minor(cfg.net, a)));
      DropNodes(Egress, a);
      DelClass(Tunnel, Minor(cfg.net, a));
    }

    method DropUpward(a: nat)
      requires cfg.Valid() && IsClient(cfg.net, a)
      modifies this
      ensures State() == Send(old(State()), DropUp(cfg, a))
    {
      if !cfg.wan {
        return;
      }
      var client := Minor(cfg.net, a);
      SendJoin(State(), DropLines(cfg, Ingress, a), [Line(FwDel(client), false)] + DelClassLines(Wan, client));
      DropNodes(Ingress, a);
      SendJoin(State(), [Line(FwDel(client), false)], DelClassLines(Wan, client));
      RunLine(Line(FwDel(client), false));
      DelClass(Wan, client);
    }

    /** Shaper.clear_limit: a ValidationError, or every command of ClearLimit in order. */
    method Clear(a: nat)
      requires cfg.Valid() && !raised
      modifies this
      ensures State() == Edited(cfg, old(State()), Edit.Clear(a))
    {
      if !IsClient(cfg.net, a) {
        raised := true;
        return;
      }
      SendJoin(State(), DropDown(cfg, a), DropUp(cfg, a));
      DropDownward(a);
      DropUpward(a);
    }

    /** Shaper.set_limit. */
    method Limit(a: nat, down: int, up: int)
      requires cfg.Valid() && !raised
      modifies this
      ensures State() == Edited(cfg, old(State()), Edit.Set(a, down, up))
    {
      hide Send, DropDown, DropUp, CapDown, CapUp;
      if !RateOk(down) || !RateOk(up) || (up > 0 && !cfg.wan) {
        raised := true;
        return;
      }
      if down == 0 && up == 0 {
        Clear(a);
        return;
      }
      if !IsClient(cfg.net, a) {
        raised := true;
        return;
      }
      SendJoin(State(), if down > 0 then CapDown(cfg, a, down) else DropDown(cfg, a),
               if up > 0 then CapUp(cfg, a, up) else DropUp(cfg, a));
      if down > 0 {
        CapDownward(a, down);
      } else {
        DropDownward(a);
      }
      if up > 0 {
        CapUpward(a, up);
      } else {
        DropUpward(a);
      }
    }

    method AttachDev(d: Dev)
      modifies this
      ensures State() == DevGo(old(State()), d)
    {
      if d !in tree.roots {
        RunLine(Line(RootAdd(d), true));
      }
      RunOwnClasses(d);
    }

    method RunOwnClasses(d: Dev)
      modifies this
      ensures State() == Send(old(State()), OwnClassLines(d))
    {
      var first, second, third := Line(ClassReplace(d, ROOT_MINOR, ROOT_BPS), true),
                                  Line(ClassReplace(d, DEFAULT_MINOR, ROOT_BPS), true), Line(LeafReplace(d, DEFAULT_MINOR), true);
      SendJoin(State(), [first], [second] + [third]);
      RunLine(first);
      SendJoin(State(), [second], [third]);
      RunLine(second);
      RunLine(third);
    }

    method AttachHash(c: Chain, f: Family)
      modifies this
      ensures State() == HashGo(old(State()), c, f)
    {
      hide Table, OwnLink;
      if HasLink(tree, c, f) {
        return;
      }
      var first, second := Line(TableAdd(c, f, Table(c, f)), false), Line(LinkAdd(c, f, OwnLink(c, f)), true);
      SendJoin(State(), [first], [second]);
      RunLine(first);
      RunLine(second);
    }

    method AttachHashes(c: Chain)
      modifies this
      ensures State() == HashesGo(cfg, old(State()), c)
    {
      hide HashGo;
      ghost var before := State();
      var all := Families();
      for i := 0 to |all|
        invariant i == 0 ==> State() == before
        invariant i == 1 ==> State() == HashGo(before, c, V4)
        invariant i == 2 ==> State() == HashesGo(cfg, before, c)
      {
        AttachHash(c, all[i]);
      }
    }

    /** Shaper.attach. */
    method Attach()
      modifies this
      ensures State() == AttachGo(cfg, old(State()))
    {
      hide HashesGo, DevGo;
      AttachDev(Tunnel);
      AttachHashes(Egress);
      if !cfg.wan {
        return;
      }
      if !tree.ingress {
        RunLine(Line(IngressAdd, true));
      }
      AttachHashes(Ingress);
      AttachDev(Wan);
    }

    method CapDownward(a: nat, bps: nat)
      requires cfg.Valid() && IsClient(cfg.net, a)
      modifies this
      ensures State() == Send(old(State()), CapDown(cfg, a, bps))
    {
      SendJoin(State(), AddClassLines(Tunnel, Minor(cfg.net, a), bps), NodeLines(cfg, Egress, a));
      AddClass(Tunnel, Minor(cfg.net, a), bps);
      WriteNodes(Egress, a);
    }

    method CapUpward(a: nat, bps: nat)
      requires cfg.Valid() && IsClient(cfg.net, a)
      modifies this
      ensures State() == Send(old(State()), CapUp(cfg, a, bps))
    {
      var client := Minor(cfg.net, a);
      SendJoin(State(), NodeLines(cfg, Ingress, a), AddClassLines(Wan, client, bps) + [Line(FwReplace(client, client), true)]);
      WriteNodes(Ingress, a);
      SendJoin(State(), AddClassLines(Wan, client, bps), [Line(FwReplace(client, client), true)]);
      AddClass(Wan, client, bps);
      RunLine(Line(FwReplace(client, client), true));
    }

    /** A caller's code: edits, attach, exceptions of its own, and batched() blocks nested anyhow. */
    method Perform(progs: seq<Prog>)
      requires cfg.Valid()
      modifies this
      ensures State() == Performs(cfg, old(State()), progs)
      decreases progs
    {
      hide Send, AttachGo, Edited, Flush;
      var i := 0;
      ghost var before := State();
      assert progs[0..] == progs;
      while i < |progs| && !raised
        invariant 0 <= i <= |progs|
        invariant Performs(cfg, before, progs) == Performs(cfg, State(), progs[i..])
      {
        assert progs[i..][0] == progs[i] && progs[i..][1..] == progs[i + 1..];
        PerformOne(progs[i]);
        i := i + 1;
      }
    }

    method PerformOne(prog: Prog)
      requires cfg.Valid() && !raised
      modifies this
      ensures State() == Performed(cfg, old(State()), prog)
      decreases prog
    {
      hide Send, AttachGo, Edited, Performs;
      match prog {
        case Do(e) =>
          if e.Set? {
            Limit(e.address, e.down, e.up);
          } else {
            Clear(e.address);
          }
        case BringUp => Attach();
        case Throw => raised := true;
        case Block(body) =>
          if queue.Some? {
            Perform(body);
            return;
          }
          queue := Some([]);
          Perform(body);
          var items := queue;
          queue := None;
          if !raised && items.Some? {
            SendBatch(items.value);
          }
      }
    }

    /** Shaper._send: one tc -force -batch. */
    method SendBatch(items: seq<Line>)
      requires queue.None? && !raised
      modifies this
      ensures tree == Forced(old(tree), items) && sent == old(sent) + items && queue == None
      ensures raised == Blamed(old(tree), items)
    {
      sent := sent + items;
      var i, failed := 0, false;
      assert items[0..] == items;
      while i < |items|
        invariant 0 <= i <= |items|
        invariant queue == None && !raised && sent == old(sent) + items
        invariant Forced(old(tree), items) == Forced(tree, items[i..])
        invariant Blamed(old(tree), items) == (failed || Blamed(tree, items[i..]))
      {
        assert items[i..][0] == items[i] && items[i..][1..] == items[i + 1..];
        match Exec(tree, items[i].cmd) {
          case Some(next) => tree := next;
          case None => failed := failed || items[i].check;
        }
        i := i + 1;
      }
      raised := failed;
    }
  }

  /** What one edit does to the state. */
  function Edited(cfg: Shaping, now: Now, e: Edit): Now
    requires cfg.Valid()
  {
    if now.raised then now
    else match Lines(cfg, e)
      case Some(lines) => Send(now, lines)
      case None => now.(raised := true)
  }

  datatype Prog = Do(edit: Edit) | BringUp | Throw | Block(body: seq<Prog>)

  function Performed(cfg: Shaping, now: Now, prog: Prog): Now
    requires cfg.Valid()
    decreases prog
  {
    match prog
    case Do(e) => Edited(cfg, now, e)
    case BringUp => AttachGo(cfg, now)
    case Throw => now.(raised := true)
    case Block(body) =>
      if now.queue.Some? then Performs(cfg, now, body) else Flush(Performs(cfg, Open(now), body))
  }

  function Performs(cfg: Shaping, now: Now, progs: seq<Prog>): Now
    requires cfg.Valid()
    decreases progs
  {
    if progs == [] || now.raised then now else Performs(cfg, Performed(cfg, now, progs[0]), progs[1..])
  }
}
