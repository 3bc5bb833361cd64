/** attach(): every piece that is missing is built, nothing that is there is lost. */
module ShaperAttach {
  import opened Text
  import opened Subnet
  import opened ShaperIds
  import opened ShaperTree
  import opened ShaperLimits
  import opened ShaperRuns

  // --- the commands, from what the kernel shows

  function HasLink(t: Tree, c: Chain, f: Family): bool {
    (c, f) in t.links && t.links[(c, f)].table == Table(c, f)
  }

  function OwnLink(c: Chain, f: Family): Link {
    Link(Table(c, f), SideOf(c), LastWordAt(f, SideOf(c)))
  }

  function HashLines(t: Tree, c: Chain, f: Family): seq<Line> {
    if HasLink(t, c, f) then []
    else [Line(TableAdd(c, f, Table(c, f)), false)]
         + [Line(LinkAdd(c, f, OwnLink(c, f)), true)]
  }

  function HashesLines(cfg: Shaping, t: Tree, c: Chain): seq<Line> {
    HashLines(t, c, V4) + if cfg.Covers(V6) then HashLines(t, c, V6) else []
  }

  function RootLines(t: Tree, d: Dev): seq<Line> {
    if d in t.roots then [] else [Line(RootAdd(d), true)]
  }

  function OwnClassLines(d: Dev): seq<Line> {
    [Line(ClassReplace(d, ROOT_MINOR, ROOT_BPS), true)]
    + ([Line(ClassReplace(d, DEFAULT_MINOR, ROOT_BPS), true)] + [Line(LeafReplace(d, DEFAULT_MINOR), true)])
  }

  function IngressLines(t: Tree): seq<Line> {
    if t.ingress then [] else [Line(IngressAdd, true)]
  }

  function AttachTunnel(cfg: Shaping, t: Tree): seq<Line> {
    (RootLines(t, Tunnel) + OwnClassLines(Tunnel)) + HashesLines(cfg, t, Egress)
  }

  function AttachUpload(cfg: Shaping, t: Tree): seq<Line> {
    if !cfg.wan then []
    else (IngressLines(t) + HashesLines(cfg, t, Ingress)) + (RootLines(t, Wan) + OwnClassLines(Wan))
  }

  /** Shaper.attach, every question put to the tree as it was before. */
  function AttachLines(cfg: Shaping, t: Tree): seq<Line> {
    AttachTunnel(cfg, t) + AttachUpload(cfg, t)
  }

  // --- one piece at a time

  /** Same filters, marks and client classes. */
  ghost predicate SameClients(t: Tree, u: Tree) {
    && u.nodes == t.nodes && u.marks == t.marks
    && (forall d, m :: m != ROOT_MINOR && m != DEFAULT_MINOR ==> ((d, m) in u.classes <==> (d, m) in t.classes))
    && (forall d, m :: m != ROOT_MINOR && m != DEFAULT_MINOR ==> ((d, m) in u.leaves <==> (d, m) in t.leaves))
    && (forall d, m :: m != ROOT_MINOR && m != DEFAULT_MINOR && (d, m) in t.classes && (d, m) in u.classes
          ==> u.classes[(d, m)] == t.classes[(d, m)])
  }

  /** Nothing of the fixed structure, and no class, has been taken away. */
  ghost predicate Grown(t: Tree, u: Tree) {
    && t.roots <= u.roots && (t.ingress ==> u.ingress) && t.tables <= u.tables && t.classes.Keys <= u.classes.Keys
    && (forall k :: k in t.links ==> k in u.links && u.links[k] == t.links[k])
    && (forall d :: DevUp(t, d) ==> DevUp(u, d))
  }

  /** What attach() asks of a tree, whoever has a ceiling in it and whether or not all of it is there:
      links of the shaper's own, nothing below a missing qdisc, no filter without its class. */
  ghost predicate Standing(cfg: Shaping, t: Tree)
    requires cfg.Valid()
  {
    Coherent(cfg, t) && NoDangling(t)
  }

  /** These lines only add to the structure, and every client keeps what it had. */
  ghost predicate Adds(cfg: Shaping, t: Tree, lines: seq<Line>, u: Tree)
    requires cfg.Valid()
  {
    Does(t, lines, u) && Standing(cfg, t) && Standing(cfg, u) && SameClients(t, u) && Grown(t, u)
  }

  lemma SameClientsJoin(t: Tree, u: Tree, v: Tree)
    requires SameClients(t, u) && SameClients(u, v)
    ensures SameClients(t, v)
  {
  }

  lemma GrownJoin(t: Tree, u: Tree, v: Tree)
    requires Grown(t, u) && Grown(u, v)
    ensures Grown(t, v)
  {
    hide DevUp;
  }

  lemma AddsJoin(cfg: Shaping, t: Tree, xs: seq<Line>, u: Tree, ys: seq<Line>, v: Tree)
    requires cfg.Valid() && Adds(cfg, t, xs, u) && Adds(cfg, u, ys, v)
    ensures Adds(cfg, t, xs + ys, v)
  {
    hide Does, Standing, SameClients, Grown;
    DoesJoin(t, xs, u, ys, v);
    SameClientsJoin(t, u, v);
    GrownJoin(t, u, v);
  }

  lemma AddsNothing(cfg: Shaping, t: Tree)
    requires cfg.Valid() && Standing(cfg, t)
    ensures Adds(cfg, t, [], t)
  {
    hide Does, Coherent, NoDangling, DevUp;
    DoesNothing(t);
  }

  lemma ClientsFrame(cfg: Shaping, t: Tree, u: Tree, k: Ceilings)
    requires cfg.Valid() && Carries(cfg, t, k) && SameClients(t, u) && Coherent(cfg, u)
    ensures Carries(cfg, u, k)
  {
    hide NodesOk, MarksOk, OwnedMinor, Coherent;
    NodesFrame(cfg, t, u, Egress, k.down);
    NodesFrame(cfg, t, u, Ingress, k.up);
    MarksFrame(cfg, t, u, k.up);
  }

  lemma AddsOne(cfg: Shaping, t: Tree, line: Line, u: Tree)
    requires cfg.Valid() && Standing(cfg, t) && SameClients(t, u) && Coherent(cfg, u) && Grown(t, u)
    requires Exec(t, line.cmd) == Some(u) || (Exec(t, line.cmd).None? && !line.check && u == t)
    ensures Adds(cfg, t, [line], u)
  {
    hide Does, Coherent, Exec, DevUp;
    DoesOne(t, line);
  }

  lemma NothingBelow(cfg: Shaping, t: Tree, d: Dev)
    requires cfg.Valid() && Coherent(cfg, t) && d !in t.roots
    ensures FreshRoot(t, d) == t.(roots := t.roots + {d})
  {
    var u := FreshRoot(t, d);
    assert u.classes == t.classes;
    assert u.leaves == t.leaves;
    assert u.marks == t.marks;
    assert u.tables == t.tables;
    assert u.links == t.links;
    assert u.nodes == t.nodes;
  }

  lemma StandingCoherent(cfg: Shaping, t: Tree)
    requires cfg.Valid() && Standing(cfg, t)
    ensures Coherent(cfg, t)
  {
    hide Coherent, NoDangling;
  }

  lemma RootStep(cfg: Shaping, t: Tree, d: Dev) returns (u: Tree)
    requires cfg.Valid() && Standing(cfg, t)
    ensures Adds(cfg, t, RootLines(t, d), u) && d in u.roots
    ensures u.links == t.links && u.ingress == t.ingress && (forall e :: e != d ==> (e in u.roots <==> e in t.roots))
  {
    hide Adds, Standing;
    u := t.(roots := t.roots + {d});
    StandingCoherent(cfg, t);
    if d in t.roots {
      assert u == t;
      AddsNothing(cfg, t);
    } else {
      NothingBelow(cfg, t, d);
      AddsOne(cfg, t, Line(RootAdd(d), true), u);
    }
  }

  lemma IngressStep(cfg: Shaping, t: Tree) returns (u: Tree)
    requires cfg.Valid() && Standing(cfg, t)
    ensures Adds(cfg, t, IngressLines(t), u) && u.ingress
    ensures u.links == t.links && u.roots == t.roots
  {
    hide Adds, Standing;
    u := t.(ingress := true);
    StandingCoherent(cfg, t);
    if t.ingress {
      assert u == t;
      AddsNothing(cfg, t);
    } else {
      AddsOne(cfg, t, Line(IngressAdd, true), u);
    }
  }

  lemma OwnClassStep(cfg: Shaping, t: Tree, d: Dev, m: nat) returns (u: Tree)
    requires cfg.Valid() && Standing(cfg, t) && d in t.roots
    requires m == ROOT_MINOR || (m == DEFAULT_MINOR && (d, ROOT_MINOR) in t.classes)
    ensures Adds(cfg, t, [Line(ClassReplace(d, m, ROOT_BPS), true)], u)
    ensures u == t.(classes := t.classes[(d, m) := ROOT_BPS])
  {
    hide Adds, Standing;
    u := t.(classes := t.classes[(d, m) := ROOT_BPS]);
    StandingCoherent(cfg, t);
    AddsOne(cfg, t, Line(ClassReplace(d, m, ROOT_BPS), true), u);
  }

  lemma OwnLeafStep(cfg: Shaping, t: Tree, d: Dev) returns (u: Tree)
    requires cfg.Valid() && Standing(cfg, t) && d in t.roots && (d, DEFAULT_MINOR) in t.classes
    ensures Adds(cfg, t, [Line(LeafReplace(d, DEFAULT_MINOR), true)], u)
    ensures u == t.(leaves := t.leaves + {(d, DEFAULT_MINOR)})
  {
    hide Adds, Standing;
    u := t.(leaves := t.leaves + {(d, DEFAULT_MINOR)});
    StandingCoherent(cfg, t);
    AddsOne(cfg, t, Line(LeafReplace(d, DEFAULT_MINOR), true), u);
  }

  lemma AddsStanding(cfg: Shaping, t: Tree, lines: seq<Line>, u: Tree)
    requires cfg.Valid() && Adds(cfg, t, lines, u)
    ensures Standing(cfg, t) && Standing(cfg, u) && SameClients(t, u) && Grown(t, u) && Does(t, lines, u)
  {
    hide Standing, Grown, Does, SameClients;
  }

  lemma DevStep(cfg: Shaping, t: Tree, d: Dev) returns (u: Tree)
    requires cfg.Valid() && Standing(cfg, t)
    ensures Adds(cfg, t, RootLines(t, d) + OwnClassLines(d), u) && DevUp(u, d)
    ensures u.links == t.links && u.ingress == t.ingress && (forall e :: e != d ==> (e in u.roots <==> e in t.roots))
  {
    hide Adds, Standing, Grown;
    var root := RootStep(cfg, t, d);
    AddsStanding(cfg, t, RootLines(t, d), root);
    var first, second, third := Line(ClassReplace(d, ROOT_MINOR, ROOT_BPS), true),
                                Line(ClassReplace(d, DEFAULT_MINOR, ROOT_BPS), true), Line(LeafReplace(d, DEFAULT_MINOR), true);
    var one := OwnClassStep(cfg, root, d, ROOT_MINOR);
    AddsStanding(cfg, root, [first], one);
    var two := OwnClassStep(cfg, one, d, DEFAULT_MINOR);
    AddsStanding(cfg, one, [second], two);
    u := OwnLeafStep(cfg, two, d);
    AddsJoin(cfg, one, [second], two, [third], u);
    AddsJoin(cfg, root, [first], one, [second] + [third], u);
    AddsJoin(cfg, t, RootLines(t, d), root, OwnClassLines(d), u);
  }

  lemma TableStep(cfg: Shaping, t: Tree, c: Chain, f: Family) returns (u: Tree)
    requires cfg.Valid() && Standing(cfg, t) && HasQdisc(t, c)
    ensures Adds(cfg, t, [Line(TableAdd(c, f, Table(c, f)), false)], u)
    ensures u == t.(tables := t.tables + {(c, Table(c, f))})
  {
    hide Adds, Standing, Table;
    u := t.(tables := t.tables + {(c, Table(c, f))});
    assert (c, Table(c, f)) in t.tables ==> u.tables == t.tables;
    StandingCoherent(cfg, t);
    AddsOne(cfg, t, Line(TableAdd(c, f, Table(c, f)), false), u);
  }

  lemma LinkStep(cfg: Shaping, t: Tree, c: Chain, f: Family) returns (u: Tree)
    requires cfg.Valid() && Standing(cfg, t) && cfg.Covers(f) && HasQdisc(t, c)
    requires (c, Table(c, f)) in t.tables && (c, f) !in t.links
    ensures Adds(cfg, t, [Line(LinkAdd(c, f, OwnLink(c, f)), true)], u)
    ensures u == t.(links := t.links[(c, f) := OwnLink(c, f)])
  {
    hide Adds, Standing, Table, LastWordAt;
    u := t.(links := t.links[(c, f) := OwnLink(c, f)]);
    StandingCoherent(cfg, t);
    AddsOne(cfg, t, Line(LinkAdd(c, f, OwnLink(c, f)), true), u);
  }

  lemma LinkedIfThere(cfg: Shaping, t: Tree, c: Chain, f: Family)
    requires cfg.Valid() && Standing(cfg, t)
    ensures (c, f) in t.links ==> HasLink(t, c, f) && Linked(cfg, t, c, f)
  {
    hide Standing, Table, LastWordAt;
    StandingCoherent(cfg, t);
  }

  /** The table may be there already, left behind by a chain that went; the link that follows is the
      step that has to succeed, and does. */
  lemma HashStep(cfg: Shaping, t: Tree, c: Chain, f: Family) returns (u: Tree)
    requires cfg.Valid() && Standing(cfg, t) && cfg.Covers(f) && HasQdisc(t, c)
    ensures Adds(cfg, t, HashLines(t, c, f), u) && Linked(cfg, u, c, f)
    ensures u.roots == t.roots && u.ingress == t.ingress
    ensures forall e, g :: (e, g) != (c, f) ==> HasLink(u, e, g) == HasLink(t, e, g)
  {
    hide Adds, Standing, Table, LastWordAt, Grown;
    LinkedIfThere(cfg, t, c, f);
    if HasLink(t, c, f) {
      u := t;
      AddsNothing(cfg, t);
    } else {
      var first, second := Line(TableAdd(c, f, Table(c, f)), false), Line(LinkAdd(c, f, OwnLink(c, f)), true);
      var tabled := TableStep(cfg, t, c, f);
      AddsStanding(cfg, t, [first], tabled);
      u := LinkStep(cfg, tabled, c, f);
      AddsJoin(cfg, t, [first], tabled, [second], u);
    }
  }

  lemma HashesStep(cfg: Shaping, t: Tree, c: Chain) returns (u: Tree)
    requires cfg.Valid() && Standing(cfg, t) && HasQdisc(t, c)
    ensures Adds(cfg, t, HashesLines(cfg, t, c), u) && Linked(cfg, u, c, V4) && (cfg.Covers(V6) ==> Linked(cfg, u, c, V6))
    ensures u.roots == t.roots && u.ingress == t.ingress
    ensures forall e, g :: e != c ==> HasLink(u, e, g) == HasLink(t, e, g)
  {
    hide Adds, Standing, HasLink;
    u := HashStep(cfg, t, c, V4);
    if cfg.Covers(V6) {
      var one := u;
      AddsStanding(cfg, t, HashLines(t, c, V4), one);
      u := HashStep(cfg, one, c, V6);
      AddsJoin(cfg, t, HashLines(t, c, V4), one, HashLines(one, c, V6), u);
      AddsStanding(cfg, one, HashLines(one, c, V6), u);
    } else {
      assert HashLines(t, c, V4) + [] == HashLines(t, c, V4);
    }
  }

  lemma SameLinksSameLines(cfg: Shaping, t: Tree, u: Tree, c: Chain)
    requires forall g :: HasLink(u, c, g) == HasLink(t, c, g)
    ensures HashesLines(cfg, u, c) == HashesLines(cfg, t, c)
  {
    hide HasLink;
  }

  /** attach() completes the structure from any part of it, raises nothing, and leaves every client
      with whatever class, filters and mark it had, whether or not they agree. */
  lemma AttachCompletes(cfg: Shaping, t: Tree) returns (u: Tree)
    requires cfg.Valid() && Standing(cfg, t)
    ensures Run(t, AttachLines(cfg, t)) == Some(u) && NeverDangling(t, AttachLines(cfg, t))
    ensures StructureOk(cfg, u) && Standing(cfg, u) && SameClients(t, u) && Grown(t, u)
  {
    hide Adds, Standing, SameClients, Run, NeverDangling, Grown, RootLines, OwnClassLines, HashesLines, IngressLines;
    hide HasLink, Linked, DevUp;
    var root := DevStep(cfg, t, Tunnel);
    AddsStanding(cfg, t, RootLines(t, Tunnel) + OwnClassLines(Tunnel), root);
    UpHasRoot(root, Tunnel);
    SameLinks(t, root);
    SameLinksSameLines(cfg, t, root, Egress);
    var tunnel := HashesStep(cfg, root, Egress);
    AddsJoin(cfg, t, RootLines(t, Tunnel) + OwnClassLines(Tunnel), root, HashesLines(cfg, root, Egress), tunnel);
    AddsStanding(cfg, root, HashesLines(cfg, root, Egress), tunnel);
    GrownDev(root, tunnel, Tunnel);
    u := UploadStep(cfg, t, tunnel);
    AddsJoin(cfg, t, AttachTunnel(cfg, t), tunnel, AttachUpload(cfg, t), u);
    AddsStanding(cfg, t, AttachLines(cfg, t), u);
    AddsStanding(cfg, tunnel, AttachUpload(cfg, t), u);
    GrownDev(tunnel, u, Tunnel);
    GrownLink(cfg, tunnel, u, Egress, V4);
    GrownLink(cfg, tunnel, u, Egress, V6);
  }

  lemma CarriesStands(cfg: Shaping, t: Tree, k: Ceilings)
    requires cfg.Valid() && Carries(cfg, t, k)
    ensures Standing(cfg, t)
  {
    CarriesIsSound(cfg, t, k);
    hide ClassesOk, NodesOk, MarksOk, CeilingsOk, Coherent, NoDangling;
  }

  /** ... and where classes, filters and marks do agree on some ceilings, the tree then holds those. */
  lemma AttachRepairs(cfg: Shaping, t: Tree, k: Ceilings) returns (u: Tree)
    requires cfg.Valid() && Carries(cfg, t, k)
    ensures Run(t, AttachLines(cfg, t)) == Some(u) && NeverDangling(t, AttachLines(cfg, t))
    ensures Holds(cfg, u, k)
  {
    hide Carries, Run, NeverDangling, StructureOk, SameClients, Coherent, NoDangling, AttachLines, Grown;
    CarriesStands(cfg, t, k);
    u := AttachCompletes(cfg, t);
    ClientsFrame(cfg, t, u, k);
  }

  lemma UpHasRoot(t: Tree, d: Dev)
    requires DevUp(t, d)
    ensures d in t.roots
  {
  }

  lemma SameLinks(t: Tree, u: Tree)
    requires u.links == t.links
    ensures forall c, g :: HasLink(u, c, g) == HasLink(t, c, g)
  {
  }

  lemma GrownDev(t: Tree, u: Tree, d: Dev)
    requires Grown(t, u) && DevUp(t, d)
    ensures DevUp(u, d)
  {
  }

  lemma GrownLink(cfg: Shaping, t: Tree, u: Tree, c: Chain, f: Family)
    requires Grown(t, u)
    ensures Linked(cfg, t, c, f) ==> Linked(cfg, u, c, f)
  {
  }

  /** The upload half, on a tree whose tunnel half has just been built. */
  lemma UploadStep(cfg: Shaping, was: Tree, t: Tree) returns (u: Tree)
    requires cfg.Valid() && Standing(cfg, t)
    requires was.ingress == t.ingress && (Wan in was.roots <==> Wan in t.roots)
    requires forall g :: HasLink(t, Ingress, g) == HasLink(was, Ingress, g)
    ensures Adds(cfg, t, AttachUpload(cfg, was), u)
    ensures cfg.wan ==> && DevUp(u, Wan) && u.ingress && Linked(cfg, u, Ingress, V4)
                        && (cfg.Covers(V6) ==> Linked(cfg, u, Ingress, V6))
  {
    hide Adds, Standing, Grown, OwnClassLines, HashesLines, HasLink, Linked, DevUp;
    if !cfg.wan {
      u := t;
      AddsNothing(cfg, t);
      return;
    }
    var gate := IngressStep(cfg, t);
    AddsStanding(cfg, t, IngressLines(t), gate);
    SameLinks(t, gate);
    SameLinksSameLines(cfg, was, gate, Ingress);
    var marking := HashesStep(cfg, gate, Ingress);
    AddsJoin(cfg, t, IngressLines(t), gate, HashesLines(cfg, gate, Ingress), marking);
    AddsStanding(cfg, gate, HashesLines(cfg, gate, Ingress), marking);
    u := DevStep(cfg, marking, Wan);
    AddsJoin(cfg, t, IngressLines(t) + HashesLines(cfg, gate, Ingress), marking, RootLines(marking, Wan) + OwnClassLines(Wan), u);
    AddsStanding(cfg, marking, RootLines(marking, Wan) + OwnClassLines(Wan), u);
    GrownLink(cfg, marking, u, Ingress, V4);
    GrownLink(cfg, marking, u, Ingress, V6);
  }

  /** A bare interface carries nobody's ceilings. */
  lemma BareCarriesNobody(cfg: Shaping)
    requires cfg.Valid()
    ensures Carries(cfg, BARE, NOBODY)
  {
  }

  /** Attaching to a whole structure changes nothing in the tree. */
  lemma AttachAgainKeeps(cfg: Shaping, t: Tree, k: Ceilings)
    requires cfg.Valid() && Holds(cfg, t, k) && (Tunnel, DEFAULT_MINOR) in t.leaves && (cfg.wan ==> (Wan, DEFAULT_MINOR) in t.leaves)
    ensures Run(t, AttachLines(cfg, t)) == Some(t)
  {
    hide Carries, Run;
    var own := OwnClassLines(Tunnel);
    OwnClassesAgain(t, Tunnel);
    assert RootLines(t, Tunnel) + own == own;
    assert HashesLines(cfg, t, Egress) == [];
    assert AttachTunnel(cfg, t) == own;
    if cfg.wan {
      OwnClassesAgain(t, Wan);
      assert HashesLines(cfg, t, Ingress) == [] && IngressLines(t) == [];
      assert AttachUpload(cfg, t) == OwnClassLines(Wan);
      RunJoin(t, own, OwnClassLines(Wan));
    } else {
      assert own + [] == own;
    }
  }

  lemma OwnClassesAgain(t: Tree, d: Dev)
    requires DevUp(t, d) && (d, DEFAULT_MINOR) in t.leaves
    ensures Run(t, OwnClassLines(d)) == Some(t)
  {
    hide Run;
    var first, second, third := Line(ClassReplace(d, ROOT_MINOR, ROOT_BPS), true),
                                Line(ClassReplace(d, DEFAULT_MINOR, ROOT_BPS), true), Line(LeafReplace(d, DEFAULT_MINOR), true);
    assert t.classes[(d, ROOT_MINOR) := ROOT_BPS] == t.classes;
    assert t.classes[(d, DEFAULT_MINOR) := ROOT_BPS] == t.classes;
    assert t.leaves + {(d, DEFAULT_MINOR)} == t.leaves;
    RunOne(t, first);
    RunOne(t, second);
    RunOne(t, third);
    RunJoin(t, [second], [third]);
    RunJoin(t, [first], [second] + [third]);
  }
}
