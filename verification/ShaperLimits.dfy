/** The commands behind one client's ceilings, and the invariant they keep: the whole tree is a
    function of who has which ceiling. */
module ShaperLimits {
  import opened Text
  import opened Subnet
  import opened ShaperIds
  import opened ShaperTree

  /** Who is capped at what, in bits per second. */
  datatype Ceilings = Ceilings(down: map<nat, nat>, up: map<nat, nat>) {
    function On(d: Dev): map<nat, nat> {
      if d.Tunnel? then down else up
    }

    function Behind(c: Chain): map<nat, nat> {
      if c.Egress? then down else up
    }
  }

  const NOBODY := Ceilings(map[], map[])

  // --- the commands

  function NodeFor(cfg: Shaping, c: Chain, f: Family, a: nat): Node
    requires cfg.Valid() && cfg.Covers(f) && IsClient(cfg.net, a)
  {
    Node(f, SideOf(c), cfg.Target(f, a), if c.Egress? then Class(Minor(cfg.net, a)) else Mark(Minor(cfg.net, a)))
  }

  function Key(cfg: Shaping, c: Chain, f: Family, a: nat): (Chain, Handle)
    requires cfg.Valid() && IsClient(cfg.net, a)
  {
    (c, HandleOf(cfg.net, f, a, Table(c, f)))
  }

  function NodeLine(cfg: Shaping, c: Chain, f: Family, a: nat): Line
    requires cfg.Valid() && cfg.Covers(f) && IsClient(cfg.net, a)
  {
    Line(NodeReplace(c, Key(cfg, c, f, a).1, NodeFor(cfg, c, f, a)), true)
  }

  function DropLine(cfg: Shaping, c: Chain, f: Family, a: nat): Line
    requires cfg.Valid() && IsClient(cfg.net, a)
  {
    Line(NodeDel(c, Key(cfg, c, f, a).1, f), false)
  }

  function NodeLines(cfg: Shaping, c: Chain, a: nat): seq<Line>
    requires cfg.Valid() && IsClient(cfg.net, a)
  {
    [NodeLine(cfg, c, V4, a)] + if cfg.Covers(V6) then [NodeLine(cfg, c, V6, a)] else []
  }

  function DropLines(cfg: Shaping, c: Chain, a: nat): seq<Line>
    requires cfg.Valid() && IsClient(cfg.net, a)
  {
    [DropLine(cfg, c, V4, a)] + if cfg.Covers(V6) then [DropLine(cfg, c, V6, a)] else []
  }

  function AddClassLines(dev: Dev, m: nat, bps: nat): seq<Line> {
    [Line(ClassReplace(dev, m, bps), true)] + ([Line(LeafDel(dev, m), false)] + [Line(LeafAdd(dev, m), true)])
  }

  function DelClassLines(dev: Dev, m: nat): seq<Line> {
    [Line(LeafDel(dev, m), false)] + [Line(ClassDel(dev, m), false)]
  }

  function CapDown(cfg: Shaping, a: nat, bps: nat): seq<Line>
    requires cfg.Valid() && IsClient(cfg.net, a)
  {
    AddClassLines(Tunnel, Minor(cfg.net, a), bps) + NodeLines(cfg, Egress, a)
  }

  function CapUp(cfg: Shaping, a: nat, bps: nat): seq<Line>
    requires cfg.Valid() && IsClient(cfg.net, a)
  {
    var m := Minor(cfg.net, a);
    NodeLines(cfg, Ingress, a) + (AddClassLines(Wan, m, bps) + [Line(FwReplace(m, m), true)])
  }

  function DropDown(cfg: Shaping, a: nat): seq<Line>
    requires cfg.Valid() && IsClient(cfg.net, a)
  {
    DropLines(cfg, Egress, a) + DelClassLines(Tunnel, Minor(cfg.net, a))
  }

  function DropUp(cfg: Shaping, a: nat): seq<Line>
    requires cfg.Valid() && IsClient(cfg.net, a)
  {
    var m := Minor(cfg.net, a);
    if cfg.wan then DropLines(cfg, Ingress, a) + ([Line(FwDel(m), false)] + DelClassLines(Wan, m)) else []
  }

  /** Shaper.clear_limit; None is a ValidationError, raised before anything is run. */
  function ClearLimit(cfg: Shaping, a: nat): Option<seq<Line>>
    requires cfg.Valid()
  {
    if !IsClient(cfg.net, a) then None else Some(DropDown(cfg, a) + DropUp(cfg, a))
  }

  predicate RateOk(bps: int) {
    0 <= bps <= ROOT_BPS
  }

  /** Shaper.set_limit. */
  function SetLimit(cfg: Shaping, a: nat, down: int, up: int): Option<seq<Line>>
    requires cfg.Valid()
  {
    if !RateOk(down) || !RateOk(up) || (up > 0 && !cfg.wan) then None
    else if down == 0 && up == 0 then ClearLimit(cfg, a)
    else if !IsClient(cfg.net, a) then None
    else Some((if down > 0 then CapDown(cfg, a, down) else DropDown(cfg, a))
              + if up > 0 then CapUp(cfg, a, up) else DropUp(cfg, a))
  }

  /** What the caller asked for. */
  function Asked(k: Ceilings, a: nat, down: int, up: int): Ceilings {
    Ceilings(if down > 0 then k.down[a := down] else k.down - {a},
             if up > 0 then k.up[a := up] else k.up - {a})
  }

  // --- the invariant

  predicate OwnedMinor(cfg: Shaping, m: nat, ceil: map<nat, nat>)
    requires cfg.Valid()
  {
    m >= CLASS_BASE && cfg.net.base + (m - CLASS_BASE) in ceil
  }

  function FamilyOf(c: Chain, h: Handle): Family {
    if h.table == Table(c, V4) then V4 else V6
  }

  function OwnerOf(cfg: Shaping, c: Chain, h: Handle): nat
    requires cfg.Valid()
  {
    Owner(cfg.net, FamilyOf(c, h), h)
  }

  predicate OwnedKey(cfg: Shaping, c: Chain, h: Handle, ceil: map<nat, nat>)
    requires cfg.Valid()
  {
    var f, a := FamilyOf(c, h), OwnerOf(cfg, c, h);
    cfg.Covers(f) && a in ceil && IsClient(cfg.net, a) && (c, h) == Key(cfg, c, f, a)
  }

  predicate DevUp(t: Tree, d: Dev) {
    && d in t.roots && (d, ROOT_MINOR) in t.classes && (d, DEFAULT_MINOR) in t.classes
    && t.classes[(d, ROOT_MINOR)] == ROOT_BPS == t.classes[(d, DEFAULT_MINOR)]
  }

  predicate Linked(cfg: Shaping, t: Tree, c: Chain, f: Family) {
    && (c, Table(c, f)) in t.tables && (c, f) in t.links
    && t.links[(c, f)] == Link(Table(c, f), SideOf(c), LastWordAt(f, SideOf(c)))
  }

  /** Everything attach() builds is there. */
  predicate StructureOk(cfg: Shaping, t: Tree)
    requires cfg.Valid()
  {
    && DevUp(t, Tunnel) && Linked(cfg, t, Egress, V4) && (cfg.Covers(V6) ==> Linked(cfg, t, Egress, V6))
    && (cfg.wan ==>
          && DevUp(t, Wan) && t.ingress && Linked(cfg, t, Ingress, V4)
          && (cfg.Covers(V6) ==> Linked(cfg, t, Ingress, V6)))
  }

  /** The links that are there are the shaper's own, and nothing hangs below a qdisc that is not
      there. */
  ghost predicate Coherent(cfg: Shaping, t: Tree)
    requires cfg.Valid()
  {
    && (forall c, f :: (c, f) in t.links ==> cfg.Covers(f) && HasQdisc(t, c) && Linked(cfg, t, c, f))
    && (forall d, m :: (d, m) in t.classes ==> d in t.roots)
    && (forall d, m :: (d, m) in t.leaves ==> d in t.roots)
    && (forall c, n :: (c, n) in t.tables ==> HasQdisc(t, c))
    && (forall c, h :: (c, h) in t.nodes ==> HasQdisc(t, c) && (c, h.table) in t.tables)
    && (forall n :: n in t.marks ==> Wan in t.roots)
  }

  /** One class, with its own leaf, for each ceiling on an interface, and no other but its own two. */
  ghost predicate ClassesOk(cfg: Shaping, t: Tree, d: Dev, ceil: map<nat, nat>)
    requires cfg.Valid()
  {
    forall m: nat | m != ROOT_MINOR && m != DEFAULT_MINOR ::
      && ((d, m) in t.classes <==> OwnedMinor(cfg, m, ceil))
      && ((d, m) in t.leaves <==> OwnedMinor(cfg, m, ceil))
      && ((d, m) in t.classes && OwnedMinor(cfg, m, ceil)
          ==> t.classes[(d, m)] == ceil[cfg.net.base + (m - CLASS_BASE)])
  }

  /** One filter per family for each ceiling, and no other. */
  ghost predicate NodesOk(cfg: Shaping, t: Tree, c: Chain, ceil: map<nat, nat>)
    requires cfg.Valid()
  {
    forall h: Handle ::
      && ((c, h) in t.nodes <==> OwnedKey(cfg, c, h, ceil))
      && (OwnedKey(cfg, c, h, ceil) && (c, h) in t.nodes
          ==> t.nodes[(c, h)] == NodeFor(cfg, c, FamilyOf(c, h), OwnerOf(cfg, c, h)))
  }

  ghost predicate MarksOk(cfg: Shaping, t: Tree, up: map<nat, nat>)
    requires cfg.Valid()
  {
    forall n: nat :: (n in t.marks <==> OwnedMinor(cfg, n, up)) && (n in t.marks ==> t.marks[n] == n)
  }

  ghost predicate CeilingsOk(cfg: Shaping, ceil: map<nat, nat>)
    requires cfg.Valid()
  {
    forall a: nat :: a in ceil ==> IsClient(cfg.net, a) && 0 < ceil[a] <= ROOT_BPS
  }

  /** The tree's client classes, filters and marks are exactly these ceilings', whether or not the
      rest of the structure is complete. */
  ghost predicate Carries(cfg: Shaping, t: Tree, k: Ceilings)
    requires cfg.Valid()
  {
    && Coherent(cfg, t)
    && CeilingsOk(cfg, k.down) && CeilingsOk(cfg, k.up) && (!cfg.wan ==> k.up == map[])
    && ClassesOk(cfg, t, Tunnel, k.down) && ClassesOk(cfg, t, Wan, k.up)
    && NodesOk(cfg, t, Egress, k.down) && NodesOk(cfg, t, Ingress, k.up)
    && MarksOk(cfg, t, k.up)
  }

  ghost predicate Holds(cfg: Shaping, t: Tree, k: Ceilings)
    requires cfg.Valid()
  {
    StructureOk(cfg, t) && Carries(cfg, t, k)
  }

  // --- running lines

  /** These lines take one tree to the other, raise nothing and never leave a filter dangling. */
  ghost predicate Does(t: Tree, lines: seq<Line>, u: Tree) {
    Run(t, lines) == Some(u) && NeverDangling(t, lines)
  }

  lemma DoesJoin(t: Tree, xs: seq<Line>, u: Tree, ys: seq<Line>, v: Tree)
    requires Does(t, xs, u) && Does(u, ys, v)
    ensures Does(t, xs + ys, v)
  {
    hide Run, NeverDangling;
    RunJoin(t, xs, ys);
    NeverDanglingJoin(t, xs, ys);
  }

  lemma DoesOne(t: Tree, line: Line)
    requires NoDangling(t) && NoDangling(After(t, line.cmd))
    requires line.check ==> Exec(t, line.cmd).Some?
    ensures Does(t, [line], After(t, line.cmd))
  {
    hide Run, NeverDangling, NoDangling, Exec, After;
    RunOne(t, line);
    NeverDanglingOne(t, line);
  }

  lemma DoesNothing(t: Tree)
    requires NoDangling(t)
    ensures Does(t, [], t)
  {
    hide NoDangling;
  }

  // --- a class and its leaf

  function WithClass(t: Tree, d: Dev, m: nat, bps: nat): Tree {
    t.(classes := t.classes[(d, m) := bps], leaves := t.leaves + {(d, m)})
  }

  function WithoutClass(t: Tree, d: Dev, m: nat): Tree {
    t.(classes := t.classes - {(d, m)}, leaves := t.leaves - {(d, m)})
  }

  lemma AddClass(t: Tree, d: Dev, m: nat, bps: nat)
    requires d in t.roots && (d, ROOT_MINOR) in t.classes && NoDangling(t)
    ensures Does(t, AddClassLines(d, m, bps), WithClass(t, d, m, bps)) && NoDangling(WithClass(t, d, m, bps))
  {
    hide Does, Run, NeverDangling;
    var made := t.(classes := t.classes[(d, m) := bps]);
    var emptied := made.(leaves := made.leaves - {(d, m)});
    DoesOne(t, Line(ClassReplace(d, m, bps), true));
    assert (d, m) !in made.leaves ==> emptied.leaves == made.leaves;
    DoesOne(made, Line(LeafDel(d, m), false));
    DoesOne(emptied, Line(LeafAdd(d, m), true));
    assert emptied.leaves + {(d, m)} == t.leaves + {(d, m)};
    DoesJoin(made, [Line(LeafDel(d, m), false)], emptied, [Line(LeafAdd(d, m), true)], WithClass(t, d, m, bps));
    DoesJoin(t, [Line(ClassReplace(d, m, bps), true)], made,
             [Line(LeafDel(d, m), false)] + [Line(LeafAdd(d, m), true)], WithClass(t, d, m, bps));
  }

  ghost predicate Unused(t: Tree, d: Dev, m: nat) {
    if d.Tunnel? then forall k :: k in t.nodes ==> t.nodes[k].action != Class(m)
    else forall n :: n in t.marks ==> t.marks[n] != m
  }

  lemma DelClass(t: Tree, d: Dev, m: nat)
    requires NoDangling(t) && Unused(t, d, m)
    requires (d, m) in t.leaves ==> (d, m) in t.classes
    ensures Does(t, DelClassLines(d, m), WithoutClass(t, d, m)) && NoDangling(WithoutClass(t, d, m))
  {
    hide Does, Run, NeverDangling;
    var emptied := t.(leaves := t.leaves - {(d, m)});
    assert (d, m) !in t.leaves ==> emptied.leaves == t.leaves;
    DoesOne(t, Line(LeafDel(d, m), false));
    assert emptied.leaves - {(d, m)} == emptied.leaves;
    assert (d, m) !in t.classes ==> t.classes - {(d, m)} == t.classes;
    DoesOne(emptied, Line(ClassDel(d, m), false));
    DoesJoin(t, [Line(LeafDel(d, m), false)], emptied, [Line(ClassDel(d, m), false)], WithoutClass(t, d, m));
  }

  // --- a client's filters, one per family

  function WithNode(cfg: Shaping, t: Tree, c: Chain, f: Family, a: nat): Tree
    requires cfg.Valid() && cfg.Covers(f) && IsClient(cfg.net, a)
  {
    t.(nodes := t.nodes[Key(cfg, c, f, a) := NodeFor(cfg, c, f, a)])
  }

  function WithNodes(cfg: Shaping, t: Tree, c: Chain, a: nat): Tree
    requires cfg.Valid() && IsClient(cfg.net, a)
  {
    var u := WithNode(cfg, t, c, V4, a);
    if cfg.Covers(V6) then WithNode(cfg, u, c, V6, a) else u
  }

  function WithoutNode(cfg: Shaping, t: Tree, c: Chain, f: Family, a: nat): Tree
    requires cfg.Valid() && IsClient(cfg.net, a)
  {
    t.(nodes := t.nodes - {Key(cfg, c, f, a)})
  }

  function WithoutNodes(cfg: Shaping, t: Tree, c: Chain, a: nat): Tree
    requires cfg.Valid() && IsClient(cfg.net, a)
  {
    var u := WithoutNode(cfg, t, c, V4, a);
    if cfg.Covers(V6) then WithoutNode(cfg, u, c, V6, a) else u
  }

  predicate Aimed(cfg: Shaping, t: Tree, c: Chain, a: nat)
    requires cfg.Valid() && IsClient(cfg.net, a)
  {
    c.Egress? ==> (Tunnel, Minor(cfg.net, a)) in t.classes
  }

  lemma AddNode(cfg: Shaping, t: Tree, c: Chain, f: Family, a: nat)
    requires cfg.Valid() && cfg.Covers(f) && IsClient(cfg.net, a) && NoDangling(t) && Aimed(cfg, t, c, a)
    requires (c, Table(c, f)) in t.tables
    ensures Does(t, [NodeLine(cfg, c, f, a)], WithNode(cfg, t, c, f, a)) && NoDangling(WithNode(cfg, t, c, f, a))
  {
    hide Does, Minor, HandleV4, HandleV6;
    assert Key(cfg, c, f, a).1.table == Table(c, f) by {
      HandleInRange(cfg.net, 0, f, a, Table(c, f));
    }
    DoesOne(t, NodeLine(cfg, c, f, a));
  }

  lemma AddNodes(cfg: Shaping, t: Tree, c: Chain, a: nat)
    requires cfg.Valid() && IsClient(cfg.net, a) && NoDangling(t) && Aimed(cfg, t, c, a)
    requires (c, Table(c, V4)) in t.tables && (cfg.Covers(V6) ==> (c, Table(c, V6)) in t.tables)
    ensures Does(t, NodeLines(cfg, c, a), WithNodes(cfg, t, c, a)) && NoDangling(WithNodes(cfg, t, c, a))
  {
    hide Does, Minor, Key, NodeFor, NodeLine, NoDangling;
    var u := WithNode(cfg, t, c, V4, a);
    AddNode(cfg, t, c, V4, a);
    if cfg.Covers(V6) {
      AddNode(cfg, u, c, V6, a);
      DoesJoin(t, [NodeLine(cfg, c, V4, a)], u, [NodeLine(cfg, c, V6, a)], WithNodes(cfg, t, c, a));
    } else {
      assert [NodeLine(cfg, c, V4, a)] + [] == [NodeLine(cfg, c, V4, a)];
    }
  }

  lemma DropNode(cfg: Shaping, t: Tree, c: Chain, f: Family, a: nat)
    requires cfg.Valid() && IsClient(cfg.net, a) && NoDangling(t)
    requires Key(cfg, c, f, a) in t.nodes ==> t.nodes[Key(cfg, c, f, a)].family == f
    ensures Does(t, [DropLine(cfg, c, f, a)], WithoutNode(cfg, t, c, f, a)) && NoDangling(WithoutNode(cfg, t, c, f, a))
  {
    hide Does, HandleOf;
    assert Key(cfg, c, f, a) !in t.nodes ==> t.nodes - {Key(cfg, c, f, a)} == t.nodes;
    DoesOne(t, DropLine(cfg, c, f, a));
  }

  lemma DropNodes(cfg: Shaping, t: Tree, c: Chain, a: nat)
    requires cfg.Valid() && IsClient(cfg.net, a) && NoDangling(t)
    requires forall f :: Key(cfg, c, f, a) in t.nodes ==> t.nodes[Key(cfg, c, f, a)].family == f
    ensures Does(t, DropLines(cfg, c, a), WithoutNodes(cfg, t, c, a)) && NoDangling(WithoutNodes(cfg, t, c, a))
  {
    hide Does, Key, DropLine, NoDangling;
    var u := WithoutNode(cfg, t, c, V4, a);
    DropNode(cfg, t, c, V4, a);
    if cfg.Covers(V6) {
      DropNode(cfg, u, c, V6, a);
      DoesJoin(t, [DropLine(cfg, c, V4, a)], u, [DropLine(cfg, c, V6, a)], WithoutNodes(cfg, t, c, a));
    } else {
      assert [DropLine(cfg, c, V4, a)] + [] == [DropLine(cfg, c, V4, a)];
    }
  }

  // --- who owns which key

  predicate IsKeyOf(cfg: Shaping, c: Chain, h: Handle, a: nat)
    requires cfg.Valid() && IsClient(cfg.net, a)
  {
    (c, h) == Key(cfg, c, V4, a) || (cfg.Covers(V6) && (c, h) == Key(cfg, c, V6, a))
  }

  lemma KeyNamesOwner(cfg: Shaping, c: Chain, f: Family, a: nat)
    requires cfg.Valid() && IsClient(cfg.net, a)
    ensures FamilyOf(c, Key(cfg, c, f, a).1) == f && OwnerOf(cfg, c, Key(cfg, c, f, a).1) == a
  {
    hide Owner, HandleV4, HandleV6;
    HandleInRange(cfg.net, 0, f, a, Table(c, f));
    OwnerOfHandle(cfg.net, f, a, Table(c, f));
  }

  lemma OwnedAfterAdd(cfg: Shaping, c: Chain, h: Handle, ceil: map<nat, nat>, a: nat, bps: nat)
    requires cfg.Valid() && IsClient(cfg.net, a)
    ensures OwnedKey(cfg, c, h, ceil[a := bps]) <==> OwnedKey(cfg, c, h, ceil) || IsKeyOf(cfg, c, h, a)
  {
    hide OwnerOf, FamilyOf, Key;
    KeyNamesOwner(cfg, c, V4, a);
    KeyNamesOwner(cfg, c, V6, a);
    var f, b := FamilyOf(c, h), OwnerOf(cfg, c, h);
    if IsKeyOf(cfg, c, h, a) {
      assert h == Key(cfg, c, V4, a).1 || h == Key(cfg, c, V6, a).1;
      assert b == a && (c, h) == Key(cfg, c, f, a);
    }
    assert f == V4 || f == V6;
  }

  lemma OwnedAfterDrop(cfg: Shaping, c: Chain, h: Handle, ceil: map<nat, nat>, a: nat)
    requires cfg.Valid() && IsClient(cfg.net, a)
    ensures OwnedKey(cfg, c, h, ceil - {a}) <==> OwnedKey(cfg, c, h, ceil) && !IsKeyOf(cfg, c, h, a)
  {
    hide OwnerOf, FamilyOf, Key;
    KeyNamesOwner(cfg, c, V4, a);
    KeyNamesOwner(cfg, c, V6, a);
    var f, b := FamilyOf(c, h), OwnerOf(cfg, c, h);
    if IsKeyOf(cfg, c, h, a) {
      assert h == Key(cfg, c, V4, a).1 || h == Key(cfg, c, V6, a).1;
      assert b == a && (c, h) == Key(cfg, c, f, a);
    }
    assert f == V4 || f == V6;
  }

  lemma NodesAfterAdd(cfg: Shaping, t: Tree, c: Chain, ceil: map<nat, nat>, a: nat, bps: nat)
    requires cfg.Valid() && IsClient(cfg.net, a) && NodesOk(cfg, t, c, ceil)
    ensures NodesOk(cfg, WithNodes(cfg, t, c, a), c, ceil[a := bps])
  {
    hide OwnedKey, OwnerOf, FamilyOf, Key, NodeFor;
    var u := WithNodes(cfg, t, c, a);
    KeyNamesOwner(cfg, c, V4, a);
    KeyNamesOwner(cfg, c, V6, a);
    forall h: Handle
      ensures (c, h) in u.nodes <==> OwnedKey(cfg, c, h, ceil[a := bps])
      ensures OwnedKey(cfg, c, h, ceil[a := bps]) && (c, h) in u.nodes ==>
                && cfg.Covers(FamilyOf(c, h)) && IsClient(cfg.net, OwnerOf(cfg, c, h))
                && u.nodes[(c, h)] == NodeFor(cfg, c, FamilyOf(c, h), OwnerOf(cfg, c, h))
    {
      OwnedAfterAdd(cfg, c, h, ceil, a, bps);
      OwnedCovers(cfg, c, h, ceil[a := bps]);
      OwnedCovers(cfg, c, h, ceil);
    }
    forall h: Handle ensures OwnedKey(cfg, c, h, ceil[a := bps]) ==> cfg.Covers(FamilyOf(c, h)) && IsClient(cfg.net, OwnerOf(cfg, c, h)) {
      OwnedCovers(cfg, c, h, ceil[a := bps]);
    }
  }

  lemma OwnedCovers(cfg: Shaping, c: Chain, h: Handle, ceil: map<nat, nat>)
    requires cfg.Valid()
    ensures OwnedKey(cfg, c, h, ceil) ==>
              && cfg.Covers(FamilyOf(c, h)) && IsClient(cfg.net, OwnerOf(cfg, c, h)) && OwnerOf(cfg, c, h) in ceil
              && (c, h) == Key(cfg, c, FamilyOf(c, h), OwnerOf(cfg, c, h))
  {
  }

  lemma NodesAfterDrop(cfg: Shaping, t: Tree, c: Chain, ceil: map<nat, nat>, a: nat)
    requires cfg.Valid() && IsClient(cfg.net, a) && NodesOk(cfg, t, c, ceil)
    ensures NodesOk(cfg, WithoutNodes(cfg, t, c, a), c, ceil - {a})
  {
    hide OwnedKey, OwnerOf, FamilyOf, Key, NodeFor;
    var u := WithoutNodes(cfg, t, c, a);
    forall h: Handle
      ensures (c, h) in u.nodes <==> OwnedKey(cfg, c, h, ceil - {a})
      ensures OwnedKey(cfg, c, h, ceil - {a}) && (c, h) in u.nodes ==>
                && cfg.Covers(FamilyOf(c, h)) && IsClient(cfg.net, OwnerOf(cfg, c, h))
                && u.nodes[(c, h)] == NodeFor(cfg, c, FamilyOf(c, h), OwnerOf(cfg, c, h))
    {
      OwnedAfterDrop(cfg, c, h, ceil, a);
      OwnedCovers(cfg, c, h, ceil - {a});
      OwnedCovers(cfg, c, h, ceil);
    }
  }
}
