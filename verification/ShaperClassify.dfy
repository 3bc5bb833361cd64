/** What the hash index decides about a packet is what a plain map from client to ceiling would. */
module ShaperClassify {
  import opened Text
  import opened Subnet
  import opened ShaperIds
  import opened ShaperTree
  import opened ShaperLimits
  import opened ShaperRuns
  import S6 = Subnet6

  /** The client an address belongs to. */
  function ClientAt(cfg: Shaping, f: Family, address: nat): Option<nat>
    requires cfg.Valid()
  {
    if !InSubnet(cfg, f, address) then None
    else
      var a := if f.V4? then address else cfg.net.base + address % S6.TWO64;
      if IsClient(cfg.net, a) then Some(a) else None
  }

  /** The plain map: the client's own ceiling if it has one. */
  function Plain(cfg: Shaping, ceil: map<nat, nat>, f: Family, address: nat): Fate
    requires cfg.Valid()
  {
    match ClientAt(cfg, f, address)
    case Some(a) => if a in ceil then Shaped(Minor(cfg.net, a), ceil[a]) else Unshaped
    case None => Unshaped
  }

  lemma Split64(p: nat, offset: nat)
    requires offset < S6.TWO64
    ensures (p * S6.TWO64 + offset) / S6.TWO64 == p && (p * S6.TWO64 + offset) % S6.TWO64 == offset
  {
  }

  lemma Join64(x: nat)
    ensures x / S6.TWO64 * S6.TWO64 + x % S6.TWO64 == x
  {
  }

  lemma TargetIsClients(cfg: Shaping, f: Family, a: nat)
    requires cfg.Valid() && cfg.Covers(f) && IsClient(cfg.net, a)
    ensures ClientAt(cfg, f, cfg.Target(f, a)) == Some(a) && InSubnet(cfg, f, cfg.Target(f, a))
  {
    if f.V6? {
      Split64(cfg.p6.value, a - cfg.net.base);
    }
  }

  lemma ClientsTarget(cfg: Shaping, f: Family, address: nat)
    requires cfg.Valid() && ClientAt(cfg, f, address).Some?
    ensures cfg.Covers(f) && IsClient(cfg.net, ClientAt(cfg, f, address).value)
    ensures cfg.Target(f, ClientAt(cfg, f, address).value) == address && InSubnet(cfg, f, address)
  {
    Join64(address);
  }

  // --- one bucket

  predicate Matches(t: Tree, c: Chain, f: Family, table: nat, bucket: nat, address: nat, node: nat) {
    var key := (c, Handle(table, bucket, node));
    key in t.nodes && t.nodes[key].family == f && t.nodes[key].target == address && t.nodes[key].side == SideOf(c)
  }

  lemma {:induction false} ScanMisses(t: Tree, c: Chain, f: Family, table: nat, bucket: nat, address: nat, node: nat)
    requires forall n: nat :: !Matches(t, c, f, table, bucket, address, n)
    ensures Scan(t, c, f, table, bucket, address, node) == None
    decreases NODE_MAX + 1 - node
  {
    if node <= NODE_MAX {
      assert !Matches(t, c, f, table, bucket, address, node);
      ScanMisses(t, c, f, table, bucket, address, node + 1);
    }
  }

  lemma {:induction false} ScanHits(t: Tree, c: Chain, f: Family, table: nat, bucket: nat, address: nat, node: nat, at: nat)
    requires node <= at <= NODE_MAX && Matches(t, c, f, table, bucket, address, at)
    requires forall n: nat :: Matches(t, c, f, table, bucket, address, n) ==> n == at
    ensures Scan(t, c, f, table, bucket, address, node) == Some(t.nodes[(c, Handle(table, bucket, at))].action)
    decreases NODE_MAX + 1 - node
  {
    if node < at {
      assert !Matches(t, c, f, table, bucket, address, node);
      ScanHits(t, c, f, table, bucket, address, node + 1, at);
    }
  }

  /** A filter that matches an address is the filter of the client the address belongs to. */
  lemma MatchIsOwn(cfg: Shaping, t: Tree, c: Chain, ceil: map<nat, nat>, f: Family, bucket: nat, address: nat, node: nat)
    requires cfg.Valid() && NodesOk(cfg, t, c, ceil)
    requires Matches(t, c, f, Table(c, f), bucket, address, node)
    ensures var who := ClientAt(cfg, f, address);
            who.Some? && who.value in ceil && IsClient(cfg.net, who.value)
            && (c, Handle(Table(c, f), bucket, node)) == Key(cfg, c, f, who.value)
  {
    hide NodesOk, OwnerOf, FamilyOf, Key, ClientAt, Minor, TargetOf;
    var h := Handle(Table(c, f), bucket, node);
    OwnedNodeAim(cfg, t, c, ceil, h);
    TargetIsClients(cfg, f, OwnerOf(cfg, c, h));
  }

  lemma OwnMatches(cfg: Shaping, t: Tree, c: Chain, ceil: map<nat, nat>, f: Family, a: nat)
    requires cfg.Valid() && cfg.Covers(f) && NodesOk(cfg, t, c, ceil) && IsClient(cfg.net, a) && a in ceil
    ensures var h := Key(cfg, c, f, a).1;
            && (c, h) in t.nodes && t.nodes[(c, h)] == NodeFor(cfg, c, f, a)
            && Matches(t, c, f, h.table, h.bucket, cfg.Target(f, a), h.node)
  {
    hide OwnerOf, FamilyOf, Minor, TargetOf, HandleOf;
    KeyNamesOwner(cfg, c, f, a);
    assert OwnedKey(cfg, c, Key(cfg, c, f, a).1, ceil);
  }

  lemma KeyInRange(cfg: Shaping, c: Chain, f: Family, a: nat)
    requires cfg.Valid() && cfg.Covers(f) && IsClient(cfg.net, a)
    ensures var h := Key(cfg, c, f, a).1;
            h.table == Table(c, f) && h.bucket == cfg.Target(f, a) % 256 && h.node <= NODE_MAX
  {
    hide HandleOf, TargetOf;
    HandleInRange(cfg.net, if cfg.p6.Some? then cfg.p6.value else 0, f, a, Table(c, f));
  }

  /** Scanning the bucket the wire selects finds the client's own filter when it has a ceiling, and
      nothing otherwise. */
  lemma ScanSays(cfg: Shaping, t: Tree, c: Chain, ceil: map<nat, nat>, f: Family, address: nat)
    requires cfg.Valid() && NodesOk(cfg, t, c, ceil)
    ensures var who := ClientAt(cfg, f, address);
            Scan(t, c, f, Table(c, f), address % 256, address, 0)
            == if who.Some? && who.value in ceil
               then Some(if c.Egress? then Class(Minor(cfg.net, who.value)) else Mark(Minor(cfg.net, who.value)))
               else None
  {
    hide NodesOk, Key, ClientAt, Minor, TargetOf, Scan, Matches;
    var table, bucket, who := Table(c, f), address % 256, ClientAt(cfg, f, address);
    forall n: nat | Matches(t, c, f, table, bucket, address, n)
      ensures who.Some? && who.value in ceil && IsClient(cfg.net, who.value)
              && (c, Handle(table, bucket, n)) == Key(cfg, c, f, who.value)
    {
      MatchIsOwn(cfg, t, c, ceil, f, bucket, address, n);
    }
    if who.Some? && who.value in ceil {
      ClientsTarget(cfg, f, address);
      OwnMatches(cfg, t, c, ceil, f, who.value);
      KeyInRange(cfg, c, f, who.value);
      var h := Key(cfg, c, f, who.value).1;
      ScanHits(t, c, f, table, bucket, address, 0, h.node);
      assert Handle(table, bucket, h.node) == h;
    } else {
      ScanMisses(t, c, f, table, bucket, address, 0);
    }
  }

  /** The link sends a packet to the bucket of its own address, so the chain decides what the scan
      does. */
  lemma ClassifySays(cfg: Shaping, t: Tree, k: Ceilings, c: Chain, h: Header)
    requires cfg.Valid() && Holds(cfg, t, k) && h.Valid()
    ensures var who := ClientAt(cfg, h.family, h.Address(SideOf(c)));
            Classify(cfg, t, c, h)
            == if who.Some? && who.value in k.Behind(c)
               then Some(if c.Egress? then Class(Minor(cfg.net, who.value)) else Mark(Minor(cfg.net, who.value)))
               else None
  {
    hide NodesOk, ClassesOk, MarksOk, ClientAt, Minor, TargetOf, Scan, BigEndian, Bucket, InSubnet, CeilingsOk;
    hide LastWordAt, Header.Address, Header.Valid;
    var address := h.Address(SideOf(c));
    var who := ClientAt(cfg, h.family, address);
    if who.Some? {
      ClientsTarget(cfg, h.family, address);
    } else {
      NotSomeone(cfg, h.family, address);
    }
    if (c, h.family) in t.links {
      BucketIsLastOctet(h, SideOf(c));
      ScanSays(cfg, t, c, k.Behind(c), h.family, address);
    }
  }

  lemma NotSomeone(cfg: Shaping, f: Family, address: nat)
    requires cfg.Valid() && ClientAt(cfg, f, address).None?
    ensures ClientAt(cfg, f, address) == None
  {
  }

  /** Downwards, in either family: the client's own class at its own ceiling when it has one, and the
      default class otherwise. */
  lemma DownloadIsPlain(cfg: Shaping, t: Tree, k: Ceilings, h: Header)
    requires cfg.Valid() && Holds(cfg, t, k) && h.Valid()
    ensures Download(cfg, t, h) == Plain(cfg, k.down, h.family, h.Address(Dst))
  {
    hide NodesOk, ClassesOk, MarksOk, Coherent, StructureOk, ClientAt, Minor, Classify, CeilingsOk;
    hide Header.Address, Header.Valid;
    ClassifySays(cfg, t, k, Egress, h);
    var who := ClientAt(cfg, h.family, h.Address(Dst));
    if who.Some? && who.value in k.down {
      ClientsTarget(cfg, h.family, h.Address(Dst));
      ClassOf(cfg, t, Tunnel, k.down, who.value);
    }
  }

  lemma MarkLeads(cfg: Shaping, t: Tree, up: map<nat, nat>, a: nat)
    requires cfg.Valid() && IsClient(cfg.net, a) && MarksOk(cfg, t, up)
    ensures Minor(cfg.net, a) in t.marks <==> a in up
    ensures a in up ==> t.marks[Minor(cfg.net, a)] == Minor(cfg.net, a)
  {
  }

  /** Upwards: the mark set on the way in leads to the same client's class on the way out. */
  lemma UploadIsPlain(cfg: Shaping, t: Tree, k: Ceilings, h: Header)
    requires cfg.Valid() && Holds(cfg, t, k) && h.Valid()
    ensures Upload(cfg, t, h) == Plain(cfg, k.up, h.family, h.Address(Src))
  {
    hide NodesOk, ClassesOk, MarksOk, Coherent, StructureOk, ClientAt, Minor, Classify, CeilingsOk;
    hide Header.Address, Header.Valid;
    ClassifySays(cfg, t, k, Ingress, h);
    var who := ClientAt(cfg, h.family, h.Address(Src));
    if who.Some? && who.value in k.up {
      ClientsTarget(cfg, h.family, h.Address(Src));
      ClassOf(cfg, t, Wan, k.up, who.value);
      MarkLeads(cfg, t, k.up, who.value);
    }
  }

  /** A client's two addresses share one class and one ceiling, and no other client's packets enter
      it. */
  lemma OneClassPerClient(cfg: Shaping, k: Ceilings, a: nat, f: Family, address: nat)
    requires cfg.Valid() && cfg.p6.Some? && IsClient(cfg.net, a) && a in k.down
    ensures Plain(cfg, k.down, V4, cfg.Target(V4, a)) == Plain(cfg, k.down, V6, cfg.Target(V6, a))
         == Shaped(Minor(cfg.net, a), k.down[a])
    ensures Plain(cfg, k.down, f, address) == Plain(cfg, k.down, V4, cfg.Target(V4, a))
            ==> cfg.Covers(f) && address == cfg.Target(f, a)
  {
    hide ClientAt, TargetOf;
    TargetIsClients(cfg, V4, a);
    TargetIsClients(cfg, V6, a);
    if ClientAt(cfg, f, address).Some? {
      ClientsTarget(cfg, f, address);
    }
  }

  /** From attach on, for any run of edits: every packet in both directions fares as the plain map
      of the ceilings asked for says. */
  lemma RunsClassifyPlainly(cfg: Shaping, t: Tree, k: Ceilings, edits: seq<Edit>, h: Header)
    requires cfg.Valid() && Holds(cfg, t, k) && h.Valid()
    ensures var end := Run(t, AllLines(cfg, edits));
            && end.Some?
            && Download(cfg, end.value, h) == Plain(cfg, WantAll(cfg, k, edits).down, h.family, h.Address(Dst))
            && Upload(cfg, end.value, h) == Plain(cfg, WantAll(cfg, k, edits).up, h.family, h.Address(Src))
  {
    hide Holds, Run, AllLines, WantAll, Download, Upload, Plain, Header.Address, Header.Valid, NeverDangling;
    var u := EveryRunHolds(cfg, t, k, edits);
    DownloadIsPlain(cfg, u, WantAll(cfg, k, edits), h);
    UploadIsPlain(cfg, u, WantAll(cfg, k, edits), h);
  }

  // --- reading the ceilings back

  /** What Shaper._read_classes keeps of the class rows before one index. */
  function ReadBack(net: Net4, rows: seq<(nat, nat)>): (found: map<nat, nat>)
    requires net.Valid()
  {
    if rows == [] then map[]
    else
      var before, row := ReadBack(net, rows[..|rows| - 1]), rows[|rows| - 1];
      if row.0 >= CLASS_BASE && net.ContainsHost(net.base + (row.0 - CLASS_BASE))
      then before[net.base + (row.0 - CLASS_BASE) := row.1] else before
  }

  method ReadClasses(net: Net4, rows: seq<(nat, nat)>) returns (found: map<nat, nat>)
    requires net.Valid()
    ensures found == ReadBack(net, rows)
  {
    found := map[];
    var last := net.base + Size(net.prefix) - 1;
    assert rows[..0] == [];
    for i := 0 to |rows|
      invariant found == ReadBack(net, rows[..i])
    {
      assert rows[..i + 1][..i] == rows[..i];
      var client, rate := rows[i].0, rows[i].1;
      var value: int := net.base + client - CLASS_BASE;
      if client < CLASS_BASE || value > last {
        continue;
      }
      if net.ContainsHost(value) {
        found := found[value := rate];
      }
    }
    assert rows[..|rows|] == rows;
  }

  /** The class listing of one interface, in whatever order: one row per class. */
  ghost predicate Lists(rows: seq<(nat, nat)>, t: Tree, d: Dev) {
    && (forall i :: 0 <= i < |rows| ==> (d, rows[i].0) in t.classes && t.classes[(d, rows[i].0)] == rows[i].1)
    && (forall m: nat :: (d, m) in t.classes ==> (m, t.classes[(d, m)]) in rows)
  }

  lemma {:induction false} ReadBackSays(net: Net4, rows: seq<(nat, nat)>, t: Tree, d: Dev, a: nat)
    requires net.Valid() && net.ContainsHost(a)
    requires forall i :: 0 <= i < |rows| ==> (d, rows[i].0) in t.classes && t.classes[(d, rows[i].0)] == rows[i].1
    ensures var m := Minor(net, a); var found := ReadBack(net, rows);
            && (a in found <==> exists i :: 0 <= i < |rows| && rows[i].0 == m)
            && (a in found ==> (d, m) in t.classes && found[a] == t.classes[(d, m)])
  {
    if rows != [] {
      var short := rows[..|rows| - 1];
      ReadBackSays(net, short, t, d, a);
      var m := Minor(net, a);
      assert rows[|rows| - 1].0 == m <==> rows[|rows| - 1].0 >= CLASS_BASE && net.base + (rows[|rows| - 1].0 - CLASS_BASE) == a;
      if i :| 0 <= i < |rows| && rows[i].0 == m && i < |rows| - 1 {
        assert short[i].0 == m;
      }
      if i :| 0 <= i < |short| && short[i].0 == m {
        assert rows[i].0 == m;
      }
    }
  }

  lemma {:induction false} ReadBackIsClients(net: Net4, rows: seq<(nat, nat)>)
    requires net.Valid()
    ensures forall a :: a in ReadBack(net, rows) ==> net.ContainsHost(a)
  {
    if rows != [] {
      ReadBackIsClients(net, rows[..|rows| - 1]);
    }
  }

  /** Reading the kernel's classes back gives exactly the ceilings, on either interface. */
  lemma LimitsReadBack(cfg: Shaping, t: Tree, k: Ceilings, d: Dev, rows: seq<(nat, nat)>)
    requires cfg.Valid() && Holds(cfg, t, k) && Lists(rows, t, d)
    ensures ReadBack(cfg.net, rows) == k.On(d)
  {
    hide NodesOk, ClassesOk, MarksOk, Coherent, StructureOk, ReadBack, Minor;
    var found := ReadBack(cfg.net, rows);
    ReadBackIsClients(cfg.net, rows);
    forall a: nat
      ensures a in found <==> a in k.On(d)
      ensures a in found && a in k.On(d) ==> found[a] == k.On(d)[a]
    {
      if IsClient(cfg.net, a) {
        ReadBackSays(cfg.net, rows, t, d, a);
        ClassOf(cfg, t, d, k.On(d), a);
        var m := Minor(cfg.net, a);
        if (d, m) in t.classes {
          assert (m, t.classes[(d, m)]) in rows;
          var i :| 0 <= i < |rows| && rows[i] == (m, t.classes[(d, m)]);
          assert rows[i].0 == m;
        }
      }
    }
  }
}
