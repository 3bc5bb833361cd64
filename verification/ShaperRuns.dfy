/** Runs of set_limit and clear_limit: each leaves exactly the ceilings asked for, raises only what it
    validates, and never has a filter naming a class that is not there. */
module ShaperRuns {
  import opened Text
  import opened Subnet
  import opened ShaperIds
  import opened ShaperTree
  import opened ShaperLimits

  // --- what a change to one part leaves alone

  lemma ClassesFrame(cfg: Shaping, t: Tree, u: Tree, d: Dev, ceil: map<nat, nat>)
    requires cfg.Valid() && ClassesOk(cfg, t, d, ceil)
    requires forall m: nat :: ((d, m) in u.classes <==> (d, m) in t.classes) && ((d, m) in u.leaves <==> (d, m) in t.leaves)
    requires forall m: nat :: (d, m) in u.classes ==> u.classes[(d, m)] == t.classes[(d, m)]
    ensures ClassesOk(cfg, u, d, ceil)
  {
    hide OwnedMinor;
  }

  lemma NodesFrame(cfg: Shaping, t: Tree, u: Tree, c: Chain, ceil: map<nat, nat>)
    requires cfg.Valid() && NodesOk(cfg, t, c, ceil)
    requires forall h: Handle :: ((c, h) in u.nodes <==> (c, h) in t.nodes)
    requires forall h: Handle :: (c, h) in u.nodes ==> u.nodes[(c, h)] == t.nodes[(c, h)]
    ensures NodesOk(cfg, u, c, ceil)
  {
    hide OwnedKey, OwnerOf, FamilyOf, NodeFor;
    forall h: Handle
      ensures OwnedKey(cfg, c, h, ceil) ==> cfg.Covers(FamilyOf(c, h)) && IsClient(cfg.net, OwnerOf(cfg, c, h))
    {
      OwnedCovers(cfg, c, h, ceil);
    }
  }

  lemma OtherChainAfterNode(cfg: Shaping, t: Tree, c: Chain, f: Family, other: Chain, ceil: map<nat, nat>, a: nat)
    requires cfg.Valid() && IsClient(cfg.net, a) && c != other && NodesOk(cfg, t, other, ceil)
    ensures cfg.Covers(f) ==> NodesOk(cfg, WithNode(cfg, t, c, f, a), other, ceil)
    ensures NodesOk(cfg, WithoutNode(cfg, t, c, f, a), other, ceil)
  {
    hide NodesOk, Key, NodeFor;
    assert Key(cfg, c, f, a).0 == c by {
      KeyChain(cfg, c, f, a);
    }
    if cfg.Covers(f) {
      NodesFrame(cfg, t, WithNode(cfg, t, c, f, a), other, ceil);
    }
    NodesFrame(cfg, t, WithoutNode(cfg, t, c, f, a), other, ceil);
  }

  lemma KeyChain(cfg: Shaping, c: Chain, f: Family, a: nat)
    requires cfg.Valid() && IsClient(cfg.net, a)
    ensures Key(cfg, c, f, a).0 == c
  {
  }

  lemma OtherChainAfterNodes(cfg: Shaping, t: Tree, c: Chain, other: Chain, ceil: map<nat, nat>, a: nat)
    requires cfg.Valid() && IsClient(cfg.net, a) && c != other && NodesOk(cfg, t, other, ceil)
    ensures NodesOk(cfg, WithNodes(cfg, t, c, a), other, ceil)
    ensures NodesOk(cfg, WithoutNodes(cfg, t, c, a), other, ceil)
  {
    hide NodesOk, Key, NodeFor, WithNode, WithoutNode;
    OtherChainAfterNode(cfg, t, c, V4, other, ceil, a);
    if cfg.Covers(V6) {
      OtherChainAfterNode(cfg, WithNode(cfg, t, c, V4, a), c, V6, other, ceil, a);
    }
    OtherChainAfterNode(cfg, WithoutNode(cfg, t, c, V4, a), c, V6, other, ceil, a);
  }

  lemma OwnedMinorOf(cfg: Shaping, m: nat, ceil: map<nat, nat>, a: nat, bps: nat)
    requires cfg.Valid() && IsClient(cfg.net, a)
    ensures OwnedMinor(cfg, m, ceil[a := bps]) <==> OwnedMinor(cfg, m, ceil) || m == Minor(cfg.net, a)
    ensures OwnedMinor(cfg, m, ceil - {a}) <==> OwnedMinor(cfg, m, ceil) && m != Minor(cfg.net, a)
    ensures m == Minor(cfg.net, a) ==> m >= CLASS_BASE && cfg.net.base + (m - CLASS_BASE) == a
    ensures Minor(cfg.net, a) != ROOT_MINOR && Minor(cfg.net, a) != DEFAULT_MINOR
  {
  }

  lemma ClassesAfterAdd(cfg: Shaping, t: Tree, d: Dev, ceil: map<nat, nat>, a: nat, bps: nat)
    requires cfg.Valid() && IsClient(cfg.net, a) && ClassesOk(cfg, t, d, ceil)
    ensures ClassesOk(cfg, WithClass(t, d, Minor(cfg.net, a), bps), d, ceil[a := bps])
  {
    hide Minor;
    var c := Minor(cfg.net, a);
    var u := WithClass(t, d, c, bps);
    forall m: nat | m != ROOT_MINOR && m != DEFAULT_MINOR
      ensures (d, m) in u.classes <==> OwnedMinor(cfg, m, ceil[a := bps])
      ensures (d, m) in u.leaves <==> OwnedMinor(cfg, m, ceil[a := bps])
      ensures (d, m) in u.classes && OwnedMinor(cfg, m, ceil[a := bps])
          ==> u.classes[(d, m)] == ceil[a := bps][cfg.net.base + (m - CLASS_BASE)]
    {
      OwnedMinorOf(cfg, m, ceil, a, bps);
    }
  }

  lemma ClassesAfterDrop(cfg: Shaping, t: Tree, d: Dev, ceil: map<nat, nat>, a: nat)
    requires cfg.Valid() && IsClient(cfg.net, a) && ClassesOk(cfg, t, d, ceil)
    ensures ClassesOk(cfg, WithoutClass(t, d, Minor(cfg.net, a)), d, ceil - {a})
  {
    hide Minor;
    var c := Minor(cfg.net, a);
    var u := WithoutClass(t, d, c);
    forall m: nat | m != ROOT_MINOR && m != DEFAULT_MINOR
      ensures (d, m) in u.classes <==> OwnedMinor(cfg, m, ceil - {a})
      ensures (d, m) in u.leaves <==> OwnedMinor(cfg, m, ceil - {a})
      ensures (d, m) in u.classes && OwnedMinor(cfg, m, ceil - {a})
          ==> u.classes[(d, m)] == (ceil - {a})[cfg.net.base + (m - CLASS_BASE)]
    {
      OwnedMinorOf(cfg, m, ceil, a, 0);
    }
  }

  lemma MarksAfter(cfg: Shaping, t: Tree, u: Tree, up: map<nat, nat>, a: nat, bps: nat)
    requires cfg.Valid() && IsClient(cfg.net, a) && MarksOk(cfg, t, up)
    ensures u.marks == t.marks[Minor(cfg.net, a) := Minor(cfg.net, a)] ==> MarksOk(cfg, u, up[a := bps])
    ensures u.marks == t.marks - {Minor(cfg.net, a)} ==> MarksOk(cfg, u, up - {a})
  {
    hide Minor, OwnedMinor;
    var m := Minor(cfg.net, a);
    if u.marks == t.marks[m := m] {
      forall n: nat ensures (n in u.marks <==> OwnedMinor(cfg, n, up[a := bps])) && (n in u.marks ==> u.marks[n] == n) {
        OwnedMinorOf(cfg, n, up, a, bps);
      }
    }
    if u.marks == t.marks - {m} {
      forall n: nat ensures (n in u.marks <==> OwnedMinor(cfg, n, up - {a})) && (n in u.marks ==> u.marks[n] == n) {
        OwnedMinorOf(cfg, n, up, a, bps);
      }
    }
  }

  // --- no dangling filter

  lemma OwnedNodeAim(cfg: Shaping, t: Tree, c: Chain, ceil: map<nat, nat>, h: Handle)
    requires cfg.Valid() && NodesOk(cfg, t, c, ceil) && (c, h) in t.nodes
    ensures var a := OwnerOf(cfg, c, h);
            && IsClient(cfg.net, a) && a in ceil && cfg.Covers(FamilyOf(c, h))
            && (c, h) == Key(cfg, c, FamilyOf(c, h), a)
            && t.nodes[(c, h)] == NodeFor(cfg, c, FamilyOf(c, h), a)
            && t.nodes[(c, h)].action == (if c.Egress? then Class(Minor(cfg.net, a)) else Mark(Minor(cfg.net, a)))
            && t.nodes[(c, h)].family == FamilyOf(c, h)
  {
    hide OwnerOf, FamilyOf, Minor, Key;
    OwnedCovers(cfg, c, h, ceil);
    assert OwnedKey(cfg, c, h, ceil);
  }

  lemma ClassOf(cfg: Shaping, t: Tree, d: Dev, ceil: map<nat, nat>, a: nat)
    requires cfg.Valid() && CeilingsOk(cfg, ceil) && ClassesOk(cfg, t, d, ceil) && IsClient(cfg.net, a)
    ensures (d, Minor(cfg.net, a)) in t.classes <==> a in ceil
    ensures a in ceil ==> t.classes[(d, Minor(cfg.net, a))] == ceil[a]
  {
    var m := Minor(cfg.net, a);
    assert OwnedMinor(cfg, m, ceil) <==> a in ceil;
  }

  lemma CarriesIsSound(cfg: Shaping, t: Tree, k: Ceilings)
    requires cfg.Valid() && Carries(cfg, t, k)
    ensures NoDangling(t)
  {
    hide NodesOk, ClassesOk, Coherent, OwnerOf, FamilyOf, Minor, Key, NodeFor;
    forall key | key in t.nodes && t.nodes[key].action.Class?
      ensures (Tunnel, t.nodes[key].action.minor) in t.classes
    {
      OwnedNodeAim(cfg, t, key.0, k.Behind(key.0), key.1);
      assert key == (key.0, key.1);
      ClassOf(cfg, t, Tunnel, k.down, OwnerOf(cfg, Egress, key.1));
    }
    forall n | n in t.marks ensures (Wan, t.marks[n]) in t.classes {
      MarkAims(cfg, t, k, n);
    }
  }

  lemma MarkAims(cfg: Shaping, t: Tree, k: Ceilings, n: nat)
    requires cfg.Valid() && CeilingsOk(cfg, k.up) && MarksOk(cfg, t, k.up) && ClassesOk(cfg, t, Wan, k.up) && n in t.marks
    ensures (Wan, t.marks[n]) in t.classes
  {
    assert OwnedMinor(cfg, n, k.up);
  }

  // --- the fixed part of the structure

  lemma StructureClass(cfg: Shaping, t: Tree, d: Dev, a: nat, bps: nat)
    requires cfg.Valid() && IsClient(cfg.net, a) && StructureOk(cfg, t) && Coherent(cfg, t) && d in t.roots
    ensures var u := WithClass(t, d, Minor(cfg.net, a), bps); StructureOk(cfg, u) && Coherent(cfg, u)
    ensures var u := WithoutClass(t, d, Minor(cfg.net, a)); StructureOk(cfg, u) && Coherent(cfg, u)
  {
    hide Minor;
    OwnedMinorOf(cfg, 0, map[], a, bps);
  }

  lemma StructureNode(cfg: Shaping, t: Tree, c: Chain, f: Family, a: nat)
    requires cfg.Valid() && IsClient(cfg.net, a) && StructureOk(cfg, t) && Coherent(cfg, t)
    requires (c, Table(c, f)) in t.tables
    ensures cfg.Covers(f) ==> var u := WithNode(cfg, t, c, f, a); StructureOk(cfg, u) && Coherent(cfg, u)
    ensures var u := WithoutNode(cfg, t, c, f, a); StructureOk(cfg, u) && Coherent(cfg, u)
  {
    hide HandleOf, NodeFor;
    KeyTable(cfg, c, f, a);
  }

  lemma KeyTable(cfg: Shaping, c: Chain, f: Family, a: nat)
    requires cfg.Valid() && IsClient(cfg.net, a)
    ensures Key(cfg, c, f, a).0 == c && Key(cfg, c, f, a).1.table == Table(c, f)
  {
  }

  lemma StructureNodes(cfg: Shaping, t: Tree, c: Chain, a: nat)
    requires cfg.Valid() && IsClient(cfg.net, a) && StructureOk(cfg, t) && Coherent(cfg, t)
    requires (c, Table(c, V4)) in t.tables && (cfg.Covers(V6) ==> (c, Table(c, V6)) in t.tables)
    ensures var u := WithNodes(cfg, t, c, a); StructureOk(cfg, u) && Coherent(cfg, u)
    ensures var u := WithoutNodes(cfg, t, c, a); StructureOk(cfg, u) && Coherent(cfg, u)
  {
    hide StructureOk, Coherent, Key, NodeFor;
    StructureNode(cfg, t, c, V4, a);
    if cfg.Covers(V6) {
      StructureNode(cfg, WithNode(cfg, t, c, V4, a), c, V6, a);
      StructureNode(cfg, WithoutNode(cfg, t, c, V4, a), c, V6, a);
    }
  }

  lemma NodesOnly(cfg: Shaping, t: Tree, c: Chain, a: nat)
    requires cfg.Valid() && IsClient(cfg.net, a)
    ensures var u := WithNodes(cfg, t, c, a); u == t.(nodes := u.nodes)
    ensures var u := WithoutNodes(cfg, t, c, a); u == t.(nodes := u.nodes)
  {
  }

  // --- the four halves of an edit

  lemma CapDownHolds(cfg: Shaping, t: Tree, k: Ceilings, a: nat, bps: nat) returns (u: Tree)
    requires cfg.Valid() && IsClient(cfg.net, a) && 0 < bps <= ROOT_BPS && Holds(cfg, t, k)
    ensures Does(t, CapDown(cfg, a, bps), u) && Holds(cfg, u, k.(down := k.down[a := bps]))
  {
    hide Does, NoDangling, NodesOk, ClassesOk, MarksOk, Minor, AddClassLines, NodeLines, WithNodes, Coherent;
    CarriesIsSound(cfg, t, k);
    var m := Minor(cfg.net, a);
    var capped := WithClass(t, Tunnel, m, bps);
    u := WithNodes(cfg, capped, Egress, a);
    NodesOnly(cfg, capped, Egress, a);
    AddClass(t, Tunnel, m, bps);
    AddNodes(cfg, capped, Egress, a);
    DoesJoin(t, AddClassLines(Tunnel, m, bps), capped, NodeLines(cfg, Egress, a), u);
    StructureClass(cfg, t, Tunnel, a, bps);
    StructureNodes(cfg, capped, Egress, a);
    ClassesAfterAdd(cfg, t, Tunnel, k.down, a, bps);
    ClassesFrame(cfg, capped, u, Tunnel, k.down[a := bps]);
    ClassesFrame(cfg, t, u, Wan, k.up);
    NodesFrame(cfg, t, capped, Egress, k.down);
    NodesAfterAdd(cfg, capped, Egress, k.down, a, bps);
    NodesFrame(cfg, t, capped, Ingress, k.up);
    OtherChainAfterNodes(cfg, capped, Egress, Ingress, k.up, a);
    MarksFrame(cfg, t, u, k.up);
  }

  lemma MarksFrame(cfg: Shaping, t: Tree, u: Tree, up: map<nat, nat>)
    requires cfg.Valid() && MarksOk(cfg, t, up) && u.marks == t.marks
    ensures MarksOk(cfg, u, up)
  {
  }

  lemma DroppedIsUnused(cfg: Shaping, t: Tree, c: Chain, ceil: map<nat, nat>, a: nat)
    requires cfg.Valid() && IsClient(cfg.net, a) && NodesOk(cfg, t, Egress, ceil - {a})
    requires forall h :: (Ingress, h) in t.nodes ==> t.nodes[(Ingress, h)].action.Mark?
    ensures Unused(t, Tunnel, Minor(cfg.net, a))
  {
    hide NodesOk, OwnerOf, FamilyOf, Key, NodeFor;
    forall key | key in t.nodes ensures t.nodes[key].action != Class(Minor(cfg.net, a)) {
      assert key == (key.0, key.1);
      if key.0 == Egress {
        OwnedNodeAim(cfg, t, Egress, ceil - {a}, key.1);
      }
    }
  }

  lemma IngressOnlyMarks(cfg: Shaping, t: Tree, ceil: map<nat, nat>)
    requires cfg.Valid() && NodesOk(cfg, t, Ingress, ceil)
    ensures forall h :: (Ingress, h) in t.nodes ==> t.nodes[(Ingress, h)].action.Mark?
  {
    hide NodesOk, OwnerOf, FamilyOf, Key, NodeFor;
    forall h | (Ingress, h) in t.nodes ensures t.nodes[(Ingress, h)].action.Mark? {
      OwnedNodeAim(cfg, t, Ingress, ceil, h);
    }
  }

  lemma OwnFamily(cfg: Shaping, t: Tree, c: Chain, ceil: map<nat, nat>, a: nat)
    requires cfg.Valid() && IsClient(cfg.net, a) && NodesOk(cfg, t, c, ceil)
    ensures forall f :: Key(cfg, c, f, a) in t.nodes ==> t.nodes[Key(cfg, c, f, a)].family == f
  {
    hide NodesOk, OwnerOf, FamilyOf, Key, NodeFor;
    forall f | Key(cfg, c, f, a) in t.nodes ensures t.nodes[Key(cfg, c, f, a)].family == f {
      KeyNamesOwner(cfg, c, f, a);
      KeyChain(cfg, c, f, a);
      assert Key(cfg, c, f, a) == (c, Key(cfg, c, f, a).1);
      OwnedNodeAim(cfg, t, c, ceil, Key(cfg, c, f, a).1);
    }
  }

  lemma LeafHasClass(cfg: Shaping, t: Tree, d: Dev, ceil: map<nat, nat>, a: nat)
    requires cfg.Valid() && IsClient(cfg.net, a) && ClassesOk(cfg, t, d, ceil)
    ensures (d, Minor(cfg.net, a)) in t.leaves ==> (d, Minor(cfg.net, a)) in t.classes
  {
  }

  lemma DropDownHolds(cfg: Shaping, t: Tree, k: Ceilings, a: nat) returns (u: Tree)
    requires cfg.Valid() && IsClient(cfg.net, a) && Holds(cfg, t, k)
    ensures Does(t, DropDown(cfg, a), u) && Holds(cfg, u, k.(down := k.down - {a}))
  {
    hide Does, NoDangling, NodesOk, ClassesOk, MarksOk, Minor, DelClassLines, DropLines, WithoutNodes, Coherent, Unused;
    CarriesIsSound(cfg, t, k);
    var m := Minor(cfg.net, a);
    var bare := WithoutNodes(cfg, t, Egress, a);
    u := WithoutClass(bare, Tunnel, m);
    NodesOnly(cfg, t, Egress, a);
    OwnFamily(cfg, t, Egress, k.down, a);
    DropNodes(cfg, t, Egress, a);
    NodesAfterDrop(cfg, t, Egress, k.down, a);
    OtherChainAfterNodes(cfg, t, Egress, Ingress, k.up, a);
    IngressOnlyMarks(cfg, bare, k.up);
    DroppedIsUnused(cfg, bare, Egress, k.down, a);
    LeafHasClass(cfg, t, Tunnel, k.down, a);
    DelClass(bare, Tunnel, m);
    DoesJoin(t, DropLines(cfg, Egress, a), bare, DelClassLines(Tunnel, m), u);
    StructureNodes(cfg, t, Egress, a);
    StructureClass(cfg, bare, Tunnel, a, 0);
    ClassesFrame(cfg, t, bare, Tunnel, k.down);
    ClassesAfterDrop(cfg, bare, Tunnel, k.down, a);
    ClassesFrame(cfg, t, u, Wan, k.up);
    NodesFrame(cfg, bare, u, Egress, k.down - {a});
    NodesFrame(cfg, bare, u, Ingress, k.up);
    MarksFrame(cfg, t, u, k.up);
  }

  lemma SetMark(t: Tree, m: nat)
    requires NoDangling(t) && Wan in t.roots && (Wan, m) in t.classes
    ensures var u := t.(marks := t.marks[m := m]);
            Does(t, [Line(FwReplace(m, m), true)], u) && NoDangling(u)
  {
    hide Does;
    DoesOne(t, Line(FwReplace(m, m), true));
  }

  lemma DropMark(t: Tree, m: nat)
    requires NoDangling(t)
    ensures var u := t.(marks := t.marks - {m});
            Does(t, [Line(FwDel(m), false)], u) && NoDangling(u)
  {
    hide Does;
    assert m !in t.marks ==> t.marks - {m} == t.marks;
    DoesOne(t, Line(FwDel(m), false));
  }

  lemma StructureMarks(cfg: Shaping, t: Tree, u: Tree)
    requires cfg.Valid() && StructureOk(cfg, t) && Coherent(cfg, t) && Wan in t.roots && u == t.(marks := u.marks)
    ensures StructureOk(cfg, u) && Coherent(cfg, u)
  {
  }

  lemma CapUpHolds(cfg: Shaping, t: Tree, k: Ceilings, a: nat, bps: nat) returns (u: Tree)
    requires cfg.Valid() && cfg.wan && IsClient(cfg.net, a) && 0 < bps <= ROOT_BPS && Holds(cfg, t, k)
    ensures Does(t, CapUp(cfg, a, bps), u) && Holds(cfg, u, k.(up := k.up[a := bps]))
  {
    hide Does, NoDangling, NodesOk, ClassesOk, MarksOk, Minor, AddClassLines, NodeLines, WithNodes, Coherent;
    CarriesIsSound(cfg, t, k);
    var m := Minor(cfg.net, a);
    var marked := WithNodes(cfg, t, Ingress, a);
    var capped := WithClass(marked, Wan, m, bps);
    u := capped.(marks := capped.marks[m := m]);
    NodesOnly(cfg, t, Ingress, a);
    AddNodes(cfg, t, Ingress, a);
    AddClass(marked, Wan, m, bps);
    SetMark(capped, m);
    DoesJoin(marked, AddClassLines(Wan, m, bps), capped, [Line(FwReplace(m, m), true)], u);
    DoesJoin(t, NodeLines(cfg, Ingress, a), marked, AddClassLines(Wan, m, bps) + [Line(FwReplace(m, m), true)], u);
    StructureNodes(cfg, t, Ingress, a);
    StructureClass(cfg, marked, Wan, a, bps);
    StructureMarks(cfg, capped, u);
    ClassesFrame(cfg, t, marked, Wan, k.up);
    ClassesAfterAdd(cfg, marked, Wan, k.up, a, bps);
    ClassesFrame(cfg, capped, u, Wan, k.up[a := bps]);
    ClassesFrame(cfg, t, u, Tunnel, k.down);
    NodesAfterAdd(cfg, t, Ingress, k.up, a, bps);
    NodesFrame(cfg, marked, u, Ingress, k.up[a := bps]);
    OtherChainAfterNodes(cfg, t, Ingress, Egress, k.down, a);
    NodesFrame(cfg, marked, u, Egress, k.down);
    MarksAfter(cfg, t, u, k.up, a, bps);
  }

  lemma DropUpHolds(cfg: Shaping, t: Tree, k: Ceilings, a: nat) returns (u: Tree)
    requires cfg.Valid() && IsClient(cfg.net, a) && Holds(cfg, t, k)
    ensures Does(t, DropUp(cfg, a), u) && Holds(cfg, u, k.(up := k.up - {a}))
  {
    hide Does, NoDangling, NodesOk, ClassesOk, MarksOk, Minor, DelClassLines, DropLines, WithoutNodes, Coherent, Unused;
    CarriesIsSound(cfg, t, k);
    if !cfg.wan {
      u := t;
      DoesNothing(t);
      assert k.up - {a} == k.up;
      return;
    }
    var m := Minor(cfg.net, a);
    var bare := WithoutNodes(cfg, t, Ingress, a);
    var unmarked := bare.(marks := bare.marks - {m});
    u := WithoutClass(unmarked, Wan, m);
    NodesOnly(cfg, t, Ingress, a);
    OwnFamily(cfg, t, Ingress, k.up, a);
    DropNodes(cfg, t, Ingress, a);
    DropMark(bare, m);
    MarksAfter(cfg, t, unmarked, k.up, a, 0);
    UnmarkedIsUnused(cfg, unmarked, k.up - {a}, m);
    LeafHasClass(cfg, t, Wan, k.up, a);
    DelClass(unmarked, Wan, m);
    DoesJoin(bare, [Line(FwDel(m), false)], unmarked, DelClassLines(Wan, m), u);
    DoesJoin(t, DropLines(cfg, Ingress, a), bare, [Line(FwDel(m), false)] + DelClassLines(Wan, m), u);
    StructureNodes(cfg, t, Ingress, a);
    StructureMarks(cfg, bare, unmarked);
    StructureClass(cfg, unmarked, Wan, a, 0);
    ClassesFrame(cfg, t, unmarked, Wan, k.up);
    ClassesAfterDrop(cfg, unmarked, Wan, k.up, a);
    ClassesFrame(cfg, t, u, Tunnel, k.down);
    NodesAfterDrop(cfg, t, Ingress, k.up, a);
    NodesFrame(cfg, bare, u, Ingress, k.up - {a});
    OtherChainAfterNodes(cfg, t, Ingress, Egress, k.down, a);
    NodesFrame(cfg, bare, u, Egress, k.down);
    MarksFrame(cfg, unmarked, u, k.up - {a});
  }

  lemma UnmarkedIsUnused(cfg: Shaping, t: Tree, up: map<nat, nat>, m: nat)
    requires cfg.Valid() && MarksOk(cfg, t, up) && m !in t.marks
    ensures Unused(t, Wan, m)
  {
  }

  // --- whole edits and runs of them

  datatype Edit = Set(address: nat, down: int, up: int) | Clear(address: nat)

  function Lines(cfg: Shaping, e: Edit): Option<seq<Line>>
    requires cfg.Valid()
  {
    match e
    case Set(a, down, up) => SetLimit(cfg, a, down, up)
    case Clear(a) => ClearLimit(cfg, a)
  }

  /** The addresses a client may have: after the network's own and the server's, before broadcast. */
  predicate InPool(net: Net4, a: nat)
    requires net.Valid()
  {
    net.base + 2 <= a <= net.base + Size(net.prefix) - 2
  }

  /** What may be asked: a client of the pool, ceilings from none to what the tree's root runs at, and one
      upwards only where there is an interface to shape it on. */
  predicate MayAsk(cfg: Shaping, e: Edit)
    requires cfg.Valid()
  {
    match e
    case Set(a, down, up) =>
      InPool(cfg.net, a) && 0 <= down <= 100_000_000_000 && 0 <= up <= 100_000_000_000 && (up > 0 ==> cfg.wan)
    case Clear(a) => InPool(cfg.net, a)
  }

  /** The plain map from client to ceiling that an edit leaves; one that may not be asked changes
      nothing. */
  function Want(cfg: Shaping, k: Ceilings, e: Edit): Ceilings
    requires cfg.Valid()
  {
    if !MayAsk(cfg, e) then k
    else
      match e
      case Set(a, down, up) => Asked(k, a, down, up)
      case Clear(a) => Ceilings(k.down - {a}, k.up - {a})
  }

  function WantAll(cfg: Shaping, k: Ceilings, edits: seq<Edit>): Ceilings
    requires cfg.Valid()
    decreases |edits|
  {
    if edits == [] then k else WantAll(cfg, Want(cfg, k, edits[0]), edits[1..])
  }

  function LinesOr(cfg: Shaping, e: Edit): seq<Line>
    requires cfg.Valid()
  {
    if Lines(cfg, e).Some? then Lines(cfg, e).value else []
  }

  function AllLines(cfg: Shaping, edits: seq<Edit>): seq<Line>
    requires cfg.Valid()
  {
    if edits == [] then [] else LinesOr(cfg, edits[0]) + AllLines(cfg, edits[1..])
  }

  lemma HalvesHold(cfg: Shaping, t: Tree, k: Ceilings, a: nat, down: nat, up: nat) returns (u: Tree)
    requires cfg.Valid() && IsClient(cfg.net, a) && down <= ROOT_BPS && up <= ROOT_BPS && (up > 0 ==> cfg.wan)
    requires Holds(cfg, t, k)
    ensures Does(t, (if down > 0 then CapDown(cfg, a, down) else DropDown(cfg, a))
                    + if up > 0 then CapUp(cfg, a, up) else DropUp(cfg, a), u)
    ensures Holds(cfg, u, Asked(k, a, down, up))
  {
    hide Does, Holds, CapDown, CapUp, DropDown, DropUp;
    var half: Tree;
    if down > 0 {
      half := CapDownHolds(cfg, t, k, a, down);
    } else {
      half := DropDownHolds(cfg, t, k, a);
    }
    var middle := k.(down := Asked(k, a, down, up).down);
    if up > 0 {
      u := CapUpHolds(cfg, half, middle, a, up);
    } else {
      u := DropUpHolds(cfg, half, middle, a);
    }
    assert middle.(up := Asked(k, a, down, up).up) == Asked(k, a, down, up);
    DoesJoin(t, if down > 0 then CapDown(cfg, a, down) else DropDown(cfg, a), half,
             if up > 0 then CapUp(cfg, a, up) else DropUp(cfg, a), u);
  }

  /** Exactly what may be asked is accepted. */
  lemma AcceptedExactly(cfg: Shaping, e: Edit)
    requires cfg.Valid()
    ensures Lines(cfg, e).Some? <==> MayAsk(cfg, e)
  {
    hide CapDown, CapUp, DropDown, DropUp;
  }

  /** One edit is accepted exactly when it may be asked, and then leaves the plain map's ceilings, raises
      no tc failure, and no filter ever dangles. */
  lemma EditHolds(cfg: Shaping, t: Tree, k: Ceilings, e: Edit) returns (u: Tree)
    requires cfg.Valid() && Holds(cfg, t, k)
    ensures Does(t, LinesOr(cfg, e), u) && Holds(cfg, u, Want(cfg, k, e))
    ensures Lines(cfg, e).Some? <==> MayAsk(cfg, e)
    ensures Lines(cfg, e).None? ==> u == t && Want(cfg, k, e) == k
  {
    AcceptedExactly(cfg, e);
    hide Does, CapDown, CapUp, DropDown, DropUp, Carries, StructureOk;
    CarriesIsSound(cfg, t, k);
    if Lines(cfg, e).None? {
      u := t;
      DoesNothing(t);
    } else {
      match e {
        case Set(a, down, up) => u := HalvesHold(cfg, t, k, a, down, up);
        case Clear(a) => u := HalvesHold(cfg, t, k, a, 0, 0);
      }
    }
  }

  /** Any run of edits from a tree holding some ceilings ends in one holding exactly what the plain
      map says, with no checked command refused and, after every single command, every
      class-selecting filter naming a class that is there. */
  lemma {:induction false} EveryRunHolds(cfg: Shaping, t: Tree, k: Ceilings, edits: seq<Edit>) returns (u: Tree)
    requires cfg.Valid() && Holds(cfg, t, k)
    ensures Run(t, AllLines(cfg, edits)) == Some(u) && NeverDangling(t, AllLines(cfg, edits))
    ensures Holds(cfg, u, WantAll(cfg, k, edits))
    decreases |edits|
  {
    hide Run, NeverDangling, Holds, LinesOr, Want;
    if edits == [] {
      u := t;
      EmptyRunHolds(cfg, t, k);
    } else {
      var next := EditHolds(cfg, t, k, edits[0]);
      u := EveryRunHolds(cfg, next, Want(cfg, k, edits[0]), edits[1..]);
      DoesJoin(t, LinesOr(cfg, edits[0]), next, AllLines(cfg, edits[1..]), u);
    }
  }

  lemma EmptyRunHolds(cfg: Shaping, t: Tree, k: Ceilings)
    requires cfg.Valid() && Holds(cfg, t, k)
    ensures Does(t, [], t)
  {
    hide Carries;
    CarriesIsSound(cfg, t, k);
    DoesNothing(t);
  }
}
