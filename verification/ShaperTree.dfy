/** The kernel's side of shaping: the classes, hash tables and filters two interfaces carry, what one
    tc command does to them, and where a packet ends up. */
module ShaperTree {
  import opened Text
  import opened Subnet
  import opened ShaperIds
  import S6 = Subnet6

  const ROOT_BPS := 100_000_000_000
  const ROOT_MINOR := 1
  const DEFAULT_MINOR := 2

  /** The tunnel interface and the one facing the internet. */
  datatype Dev = Tunnel | Wan

  /** The two places u32 filters hang on the tunnel: its root qdisc and its ingress qdisc. */
  datatype Chain = Egress | Ingress

  datatype Action = Class(minor: nat) | Mark(mark: nat)
  datatype Node = Node(family: Family, side: Side, target: nat, action: Action)
  datatype Link = Link(table: nat, side: Side, at: nat)

  datatype Tree = Tree(
    roots: set<Dev>, ingress: bool, classes: map<(Dev, nat), nat>, leaves: set<(Dev, nat)>,
    tables: set<(Chain, nat)>, links: map<(Chain, Family), Link>, nodes: map<(Chain, Handle), Node>,
    marks: map<nat, nat>)

  const BARE := Tree({}, false, map[], {}, {}, map[], map[], map[])

  /** What a shaper is built with. */
  datatype Shaping = Shaping(net: Net4, p6: Option<S6.Prefix64>, wan: bool) {
    predicate Valid() {
      net.Valid() && Supports(net)
    }

    predicate Covers(f: Family) {
      f.V4? || p6.Some?
    }

    /** What a client's filter matches on: its own address in that family. */
    function Target(f: Family, a: nat): nat
      requires Valid() && Covers(f) && IsClient(net, a)
    {
      TargetOf(net, if p6.Some? then p6.value else 0, f, a)
    }
  }

  function Table(c: Chain, f: Family): nat {
    if c.Egress? then DownTable(f) else MarkTable(f)
  }

  function SideOf(c: Chain): Side {
    if c.Egress? then Dst else Src
  }

  /** Byte offset of the last four bytes of an address in its header. */
  function LastWordAt(f: Family, side: Side): nat {
    match (f, side)
    case (V4, Src) => 12
    case (V4, Dst) => 16
    case (V6, Src) => 20
    case (V6, Dst) => 36
  }

  datatype Cmd =
    | RootAdd(dev: Dev)
    | ClassReplace(dev: Dev, minor: nat, rate: nat)
    | LeafReplace(dev: Dev, minor: nat)
    | LeafDel(dev: Dev, minor: nat)
    | LeafAdd(dev: Dev, minor: nat)
    | ClassDel(dev: Dev, minor: nat)
    | IngressAdd
    | TableAdd(chain: Chain, family: Family, table: nat)
    | LinkAdd(chain: Chain, family: Family, link: Link)
    | NodeReplace(chain: Chain, handle: Handle, node: Node)
    | NodeDel(chain: Chain, handle: Handle, family: Family)
    | FwReplace(mark: nat, minor: nat)
    | FwDel(mark: nat)

  predicate HasQdisc(t: Tree, c: Chain) {
    if c.Egress? then Tunnel in t.roots else t.ingress
  }

  /** A new root qdisc: whatever hung below the one it replaces is gone. */
  function FreshRoot(t: Tree, dev: Dev): Tree {
    var u := t.(roots := t.roots + {dev},
                classes := (map k | k in t.classes && k.0 != dev :: t.classes[k]),
                leaves := (set k | k in t.leaves && k.0 != dev));
    if dev.Wan? then u.(marks := map[])
    else u.(tables := (set k | k in t.tables && k.0 != Egress),
            links := (map k | k in t.links && k.0 != Egress :: t.links[k]),
            nodes := (map k | k in t.nodes && k.0 != Egress :: t.nodes[k]))
  }

  /** One tc command; None is a refusal, which changes nothing. Deleting a class a filter still names
      and adding a filter for a class that is not there are both let through: that they do not happen
      has to come from the order of the commands. */
  function Exec(t: Tree, cmd: Cmd): Option<Tree> {
    match cmd
    case RootAdd(dev) => Some(FreshRoot(t, dev))
    case ClassReplace(dev, minor, rate) =>
      if dev in t.roots && (minor == ROOT_MINOR || (dev, ROOT_MINOR) in t.classes)
      then Some(t.(classes := t.classes[(dev, minor) := rate])) else None
    case LeafReplace(dev, minor) =>
      if (dev, minor) in t.classes then Some(t.(leaves := t.leaves + {(dev, minor)})) else None
    case LeafDel(dev, minor) =>
      if (dev, minor) in t.leaves then Some(t.(leaves := t.leaves - {(dev, minor)})) else None
    case LeafAdd(dev, minor) =>
      if (dev, minor) in t.classes && (dev, minor) !in t.leaves
      then Some(t.(leaves := t.leaves + {(dev, minor)})) else None
    case ClassDel(dev, minor) =>
      if (dev, minor) in t.classes
      then Some(t.(classes := t.classes - {(dev, minor)}, leaves := t.leaves - {(dev, minor)})) else None
    case IngressAdd => if t.ingress then None else Some(t.(ingress := true))
    case TableAdd(chain, _, table) =>
      if HasQdisc(t, chain) && (chain, table) !in t.tables
      then Some(t.(tables := t.tables + {(chain, table)})) else None
    case LinkAdd(chain, family, link) =>
      if HasQdisc(t, chain) && (chain, link.table) in t.tables && (chain, family) !in t.links
      then Some(t.(links := t.links[(chain, family) := link])) else None
    case NodeReplace(chain, handle, node) =>
      if (chain, handle.table) in t.tables then Some(t.(nodes := t.nodes[(chain, handle) := node])) else None
    case NodeDel(chain, handle, family) =>
      if (chain, handle) in t.nodes && t.nodes[(chain, handle)].family == family
      then Some(t.(nodes := t.nodes - {(chain, handle)})) else None
    case FwReplace(mark, minor) =>
      if Wan in t.roots then Some(t.(marks := t.marks[mark := minor])) else None
    case FwDel(mark) => if mark in t.marks then Some(t.(marks := t.marks - {mark})) else None
  }

  /** A command and whether anyone asked for it to succeed. */
  datatype Line = Line(cmd: Cmd, check: bool)

  function After(t: Tree, cmd: Cmd): Tree {
    match Exec(t, cmd)
    case Some(u) => u
    case None => t
  }

  /** Lines one at a time: a refusal that was not checked is stepped over, a checked one raises. */
  function Run(t: Tree, lines: seq<Line>): Option<Tree>
    decreases |lines|
  {
    if lines == [] then Some(t)
    else if Exec(t, lines[0].cmd).None? && lines[0].check then None
    else Run(After(t, lines[0].cmd), lines[1..])
  }

  lemma {:induction false} RunJoin(t: Tree, xs: seq<Line>, ys: seq<Line>)
    ensures Run(t, xs + ys) == (if Run(t, xs).None? then None else Run(Run(t, xs).value, ys))
    decreases |xs|
  {
    hide Exec, After;
    if xs == [] {
      assert xs + ys == ys;
    } else {
      assert (xs + ys)[0] == xs[0] && (xs + ys)[1..] == xs[1..] + ys;
      if !(Exec(t, xs[0].cmd).None? && xs[0].check) {
        RunJoin(After(t, xs[0].cmd), xs[1..], ys);
      }
    }
  }

  lemma RunOne(t: Tree, line: Line)
    ensures Run(t, [line]) == if Exec(t, line.cmd).None? && line.check then None else Some(After(t, line.cmd))
  {
    hide Exec, After;
    assert [line][1..] == [];
    assert Run(After(t, line.cmd), []) == Some(After(t, line.cmd));
  }

  // --- packets

  function BigEndian(bytes: seq<nat>): nat {
    if bytes == [] then 0 else BigEndian(bytes[..|bytes| - 1]) * 256 + bytes[|bytes| - 1]
  }

  /** An IP header, as bytes on the wire. */
  datatype Header = Header(family: Family, bytes: seq<nat>) {
    predicate Valid() {
      && |bytes| >= (if family.V4? then 20 else 40)
      && forall i :: 0 <= i < |bytes| ==> bytes[i] < 256
    }

    /** The address, from where RFC 791 section 3.1 and RFC 8200 section 3 put it. */
    function Address(side: Side): nat
      requires Valid()
    {
      match (family, side)
      case (V4, Src) => BigEndian(bytes[12..16])
      case (V4, Dst) => BigEndian(bytes[16..20])
      case (V6, Src) => BigEndian(bytes[8..24])
      case (V6, Dst) => BigEndian(bytes[24..40])
    }
  }

  /** The bucket under mask 0x000000ff: the last byte of the word at the link's offset. */
  function Bucket(h: Header, at: nat): nat
    requires h.Valid()
  {
    if at + 3 < |h.bytes| then h.bytes[at + 3] else 0
  }

  predicate InSubnet(cfg: Shaping, f: Family, address: nat)
    requires cfg.Valid()
  {
    match f
    case V4 => cfg.net.base <= address < cfg.net.base + Size(cfg.net.prefix)
    case V6 => cfg.p6.Some? && address / S6.TWO64 == cfg.p6.value
  }

  /** The filters of one bucket, in the order of their node ids: the first that matches decides. */
  function Scan(t: Tree, c: Chain, f: Family, table: nat, bucket: nat, address: nat, node: nat): Option<Action>
    decreases NODE_MAX + 1 - node
  {
    if node > NODE_MAX then None
    else
      var key := (c, Handle(table, bucket, node));
      if key in t.nodes && t.nodes[key].family == f && t.nodes[key].target == address && t.nodes[key].side == SideOf(c)
      then Some(t.nodes[key].action)
      else Scan(t, c, f, table, bucket, address, node + 1)
  }

  /** What the u32 chain of a packet's protocol decides about it. */
  function Classify(cfg: Shaping, t: Tree, c: Chain, h: Header): Option<Action>
    requires cfg.Valid() && h.Valid()
  {
    if (c, h.family) !in t.links then None
    else
      var link := t.links[(c, h.family)];
      if InSubnet(cfg, h.family, h.Address(link.side))
      then Scan(t, c, h.family, link.table, Bucket(h, link.at), h.Address(SideOf(c)), 0)
      else None
  }

  datatype Fate = Shaped(minor: nat, rate: nat) | Unshaped | Dropped

  function Enter(t: Tree, dev: Dev, minor: nat): Fate {
    if (dev, minor) in t.classes then Shaped(minor, t.classes[(dev, minor)]) else Dropped
  }

  /** A packet towards a client. */
  function Download(cfg: Shaping, t: Tree, h: Header): Fate
    requires cfg.Valid() && h.Valid()
  {
    match Classify(cfg, t, Egress, h)
    case Some(Class(m)) => Enter(t, Tunnel, m)
    case _ => Unshaped
  }

  /** A packet from a client: marked as it enters the tunnel interface, shaped by its mark as it
      leaves the other one, whatever its source address has been translated to by then. */
  function Upload(cfg: Shaping, t: Tree, h: Header): Fate
    requires cfg.Valid() && h.Valid()
  {
    match Classify(cfg, t, Ingress, h)
    case Some(Mark(n)) => if n in t.marks then Enter(t, Wan, t.marks[n]) else Unshaped
    case _ => Unshaped
  }

  /** Every filter that names a class names one that is there. */
  ghost predicate NoDangling(t: Tree) {
    && (forall k :: k in t.nodes && t.nodes[k].action.Class? ==> (Tunnel, t.nodes[k].action.minor) in t.classes)
    && (forall n :: n in t.marks ==> (Wan, t.marks[n]) in t.classes)
  }

  /** ... before the first of these lines and after every single one. */
  ghost predicate NeverDangling(t: Tree, lines: seq<Line>)
    decreases |lines|
  {
    NoDangling(t) && (lines != [] ==> NeverDangling(After(t, lines[0].cmd), lines[1..]))
  }

  lemma {:induction false} NeverDanglingJoin(t: Tree, xs: seq<Line>, ys: seq<Line>)
    requires NeverDangling(t, xs) && Run(t, xs).Some? && NeverDangling(Run(t, xs).value, ys)
    ensures NeverDangling(t, xs + ys)
    decreases |xs|
  {
    hide Exec, After, NoDangling;
    if xs == [] {
      assert xs + ys == ys;
    } else {
      assert (xs + ys)[0] == xs[0] && (xs + ys)[1..] == xs[1..] + ys;
      NeverDanglingJoin(After(t, xs[0].cmd), xs[1..], ys);
    }
  }

  lemma NeverDanglingOne(t: Tree, line: Line)
    requires NoDangling(t) && NoDangling(After(t, line.cmd))
    ensures NeverDangling(t, [line])
  {
    hide Exec, After, NoDangling;
    assert [line][1..] == [];
    assert NeverDangling(After(t, line.cmd), []);
  }

  /** The low octet of an address is the byte the hash reads. */
  lemma BucketIsLastOctet(h: Header, side: Side)
    requires h.Valid()
    ensures Bucket(h, LastWordAt(h.family, side)) == h.Address(side) % 256
  {
    match (h.family, side)
    case (V4, Src) => LastByte(h.bytes, 12, 16);
    case (V4, Dst) => LastByte(h.bytes, 16, 20);
    case (V6, Src) => LastByte(h.bytes, 8, 24);
    case (V6, Dst) => LastByte(h.bytes, 24, 40);
  }

  lemma LastByte(bytes: seq<nat>, from: nat, to: nat)
    requires from < to <= |bytes| && bytes[to - 1] < 256
    ensures BigEndian(bytes[from..to]) % 256 == bytes[to - 1]
  {
    var word := bytes[from..to];
    assert word[|word| - 1] == bytes[to - 1];
    MultipleDrops(BigEndian(word[..|word| - 1]), bytes[to - 1]);
  }
}
