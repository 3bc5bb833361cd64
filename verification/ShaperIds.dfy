/** Where a client sits in the shaping structure: every id is arithmetic on its address. */
module ShaperIds {
  import opened Text
  import opened Subnet
  import S6 = Subnet6

  const CLASS_BASE := 0x10
  const MAX_MINOR := 0xFFFF
  const NODE_BASE := 0x800
  const NODE_MAX := 0xFFF

  datatype Family = V4 | V6
  datatype Side = Src | Dst

  /** A u32 filter handle, table:bucket:node. */
  datatype Handle = Handle(table: nat, bucket: nat, node: nat)

  function DownTable(f: Family): nat {
    if f.V4? then 0x10 else 0x11
  }

  function MarkTable(f: Family): nat {
    if f.V4? then 0x20 else 0x21
  }

  /** shaper.supports: the last address still gets a sixteen-bit class id. */
  predicate Supports(net: Net4)
    requires net.Valid()
  {
    net.LastHost() - net.base + CLASS_BASE <= MAX_MINOR
  }

  predicate IsClient(net: Net4, a: nat)
    requires net.Valid()
  {
    net.ContainsHost(a)
  }

  /** shaper.minor, for an address of the pool. */
  function Minor(net: Net4, a: nat): (m: nat)
    requires net.Valid() && IsClient(net, a)
  {
    a - net.base + CLASS_BASE
  }

  function Slot(table: nat, bucket: nat, offset: nat): Handle {
    Handle(table, bucket % 256, NODE_BASE + offset / 256)
  }

  /** The v4 filter sits in the bucket of the address's own last octet. */
  function HandleV4(net: Net4, a: nat, table: nat): Handle
    requires net.Valid() && IsClient(net, a)
  {
    Slot(table, a % 256, Minor(net, a) - CLASS_BASE)
  }

  /** The v6 filter is keyed off the offset itself. */
  function HandleV6(offset: nat, table: nat): Handle {
    Slot(table, offset % 256, offset)
  }

  function HandleOf(net: Net4, f: Family, a: nat, table: nat): Handle
    requires net.Valid() && IsClient(net, a)
  {
    if f.V4? then HandleV4(net, a, table) else HandleV6(a - net.base, table)
  }

  /** What a client's filter matches on in each family: its own address. */
  function TargetOf(net: Net4, p6: S6.Prefix64, f: Family, a: nat): nat
    requires net.Valid() && IsClient(net, a)
  {
    if f.V4? then a else p6 * S6.TWO64 + (a - net.base)
  }

  /** Every prefix from /17 to /30 can be shaped and a /16 cannot. */
  lemma SupportsSays(net: Net4)
    requires net.Valid()
    ensures Supports(net) <==> net.prefix >= 17
  {
  }

  /** Class ids: in range, clear of the reserved ones, and one per client. */
  lemma MinorSays(net: Net4, a: nat, b: nat)
    requires net.Valid() && Supports(net) && IsClient(net, a) && IsClient(net, b)
    ensures CLASS_BASE < Minor(net, a) <= MAX_MINOR
    ensures Minor(net, a) == Minor(net, b) ==> a == b
  {
  }

  /** A multiple of k * 256 is a multiple of 256. */
  lemma MultipleOf256(base: nat, k: nat)
    requires k > 0 && base % (k * 256) == 0
    ensures base % 256 == 0
  {
    var q := base / (k * 256);
    assert base == (q * k) * 256;
    MultipleDrops(q * k, 0);
  }

  lemma MultipleDrops(k: nat, offset: nat)
    ensures (k * 256 + offset) % 256 == offset % 256
  {
  }

  /** The block of n addresses numbered q, k of them to 256, lies inside one run of 256. */
  lemma BlockSplit(q: nat, n: nat, k: nat) returns (c: nat, start: nat)
    requires k > 0 && n * k == 256
    ensures q * n == c * 256 + start && start + n <= 256
  {
    c := q / k;
    var r := q % k;
    start := r * n;
    assert q == c * k + r;
    Distribute(c, k, r, n);
    AtMost(r + 1, k, n);
  }

  lemma Distribute(c: nat, k: nat, r: nat, n: nat)
    ensures (c * k + r) * n == c * (n * k) + r * n
  {
    assert (c * k + r) * n == c * k * n + r * n;
    assert c * k * n == c * (n * k);
  }

  lemma AtMost(x: nat, y: nat, n: nat)
    requires x <= y
    ensures x * n <= y * n && (x > 0 ==> x * n == (x - 1) * n + n)
  {
  }

  lemma BlockStays(base: nat, n: nat, k: nat, offset: nat)
    requires n > 0 && k > 0 && n * k == 256 && base % n == 0 && offset < n
    ensures (base + offset) / 256 == base / 256
  {
    var q := base / n;
    var c, start := BlockSplit(q, n, k);
    Quotient(c, start);
    Quotient(c, start + offset);
  }

  lemma Quotient(c: nat, rest: nat)
    requires rest < 256
    ensures (c * 256 + rest) / 256 == c
  {
  }

  /** A network of /24 and wider starts at a .0. */
  lemma StartsAtZero(net: Net4)
    requires net.Valid() && net.prefix <= 24
    ensures net.base % 256 == 0
  {
    MultipleOf256(net.base, Size(net.prefix) / 256);
  }

  /** A narrower one never crosses a .0. */
  lemma StaysInOctet(net: Net4, a: nat)
    requires net.Valid() && net.prefix > 24 && net.base <= a < net.base + Size(net.prefix)
    ensures a / 256 == net.base / 256
  {
    BlockStays(net.base, Size(net.prefix), 256 / Size(net.prefix), a - net.base);
  }

  lemma SameOctet(base: nat, offset: nat)
    requires base % 256 == 0
    ensures (base + offset) % 256 == offset % 256
  {
    assert base == base / 256 * 256;
    MultipleDrops(base / 256, offset);
  }

  lemma WideOctets(net: Net4, a: nat)
    requires net.Valid() && net.prefix <= 24 && net.base <= a
    ensures a % 256 == (a - net.base) % 256
  {
    StartsAtZero(net);
    SameOctet(net.base, a - net.base);
  }

  lemma NodeFits(offset: nat)
    requires offset <= MAX_MINOR
    ensures NODE_BASE <= NODE_BASE + offset / 256 <= NODE_MAX
  {
  }

  lemma LowByte(p6: nat, offset: nat)
    ensures (p6 * S6.TWO64 + offset) % 256 == offset % 256
  {
    MultipleDrops(p6 * 0x100_0000_0000_0000, offset);
  }

  /** Filter handles: the bucket is the last octet on the wire in both families, and the node fits
      its twelve bits, clear of a hand-added filter's. */
  lemma HandleInRange(net: Net4, p6: S6.Prefix64, f: Family, a: nat, table: nat)
    requires net.Valid() && Supports(net) && IsClient(net, a)
    ensures var h := HandleOf(net, f, a, table);
            && h.table == table && h.bucket == TargetOf(net, p6, f, a) % 256
            && NODE_BASE <= h.node <= NODE_MAX
  {
    NodeFits(a - net.base);
    LowByte(p6, a - net.base);
  }

  /** The address a handle belongs to, read back from its bucket and node. */
  function Owner(net: Net4, f: Family, h: Handle): nat
    requires net.Valid()
  {
    if f.V4? && net.prefix > 24 then net.base / 256 * 256 + h.bucket
    else if h.node < NODE_BASE then 0
    else net.base + (h.node - NODE_BASE) * 256 + h.bucket
  }

  /** A handle gives its client's address back, so no two clients share one, in either family, in a
      table of either direction. */
  lemma OwnerOfHandle(net: Net4, f: Family, a: nat, table: nat)
    requires net.Valid() && IsClient(net, a)
    ensures Owner(net, f, HandleOf(net, f, a, table)) == a
  {
    if f.V4? && net.prefix > 24 {
      StaysInOctet(net, a);
      Recombine(a);
    } else {
      if f.V4? {
        WideOctets(net, a);
      }
      Recombine(a - net.base);
      WideOwner(net, f, a, table);
    }
  }

  lemma Recombine(x: nat)
    ensures x / 256 * 256 + x % 256 == x
  {
  }

  lemma WideOwner(net: Net4, f: Family, a: nat, table: nat)
    requires net.Valid() && IsClient(net, a) && (f.V4? ==> net.prefix <= 24 && a % 256 == (a - net.base) % 256)
    ensures Owner(net, f, HandleOf(net, f, a, table)) == net.base + (a - net.base) / 256 * 256 + (a - net.base) % 256
  {
    Recombine(a - net.base);
    assert (a - net.base) % 256 % 256 == (a - net.base) % 256;
  }

  lemma HandleIsOwn(net: Net4, f: Family, a: nat, b: nat, table: nat)
    requires net.Valid() && IsClient(net, a) && IsClient(net, b)
    requires HandleOf(net, f, a, table) == HandleOf(net, f, b, table)
    ensures a == b
  {
    OwnerOfHandle(net, f, a, table);
    OwnerOfHandle(net, f, b, table);
  }

  /** The bucket of the offset, which is what an earlier version used, is not where the kernel
      looks: at 10.0.0.128/25 the first client's packets hash to bucket 130, its offset to 2. */
  lemma OffsetBucketMissesTheWire(net: Net4)
    requires net.Valid() && net.prefix > 24 && net.base % 256 != 0
    ensures forall a: nat :: IsClient(net, a) ==> a % 256 != (a - net.base) % 256
  {
    forall a: nat | IsClient(net, a) ensures a % 256 != (a - net.base) % 256 {
      StaysInOctet(net, a);
      assert a - net.base == a % 256 - net.base % 256;
    }
  }
}
