/** From a bare interface to the fate of a packet: bring-up, clients and later edits, in any blocks. */
module ShaperWhole {
  import opened Text
  import opened Subnet
  import opened ShaperIds
  import opened ShaperTree
  import opened ShaperLimits
  import opened ShaperRuns
  import opened ShaperAttach
  import opened ShaperObject
  import B = ShaperBatch
  import C = ShaperClassify

  /** One class for one client and for nobody else: of all the packets there are, exactly those to one
      of a limited client's own addresses run at its class and ceiling, and exactly those from one of
      them on the way up. */
  lemma OneClassInTree(cfg: Shaping, t: Tree, k: Ceilings, a: nat, h: Header)
    requires cfg.Valid() && Holds(cfg, t, k) && h.Valid() && IsClient(cfg.net, a)
    ensures a in k.down ==>
              (Download(cfg, t, h) == Shaped(Minor(cfg.net, a), k.down[a])
               <==> cfg.Covers(h.family) && h.Address(Dst) == cfg.Target(h.family, a))
    ensures a in k.up ==>
              (Upload(cfg, t, h) == Shaped(Minor(cfg.net, a), k.up[a])
               <==> cfg.Covers(h.family) && h.Address(Src) == cfg.Target(h.family, a))
  {
    hide Holds, Download, Upload, Header.Address, Header.Valid, C.Plain, TargetOf;
    C.DownloadIsPlain(cfg, t, k, h);
    C.UploadIsPlain(cfg, t, k, h);
    if a in k.down { OneClass(cfg, k.down, a, h.family, h.Address(Dst)); }
    if a in k.up { OneClass(cfg, k.up, a, h.family, h.Address(Src)); }
  }

  lemma OneClass(cfg: Shaping, ceil: map<nat, nat>, a: nat, f: Family, address: nat)
    requires cfg.Valid() && IsClient(cfg.net, a) && a in ceil
    ensures C.Plain(cfg, ceil, f, address) == Shaped(Minor(cfg.net, a), ceil[a])
            <==> cfg.Covers(f) && address == cfg.Target(f, a)
  {
    hide C.ClientAt, TargetOf;
    if cfg.Covers(f) {
      C.TargetIsClients(cfg, f, a);
    }
    if C.ClientAt(cfg, f, address).Some? {
      C.ClientsTarget(cfg, f, address);
    }
  }

  /** set_limit, from any tree that holds some ceilings and outside any batch. For an address from the
      third of its network to the last but one, and two whole numbers from 0 to 100,000,000,000 of which
      the upward one may be above 0 only with an interface to shape it on, it raises nothing and the
      client has exactly the ceilings asked for, and everybody else theirs. For anything else it raises,
      and no command has been run. */
  lemma SetLimitSays(cfg: Shaping, now: Now, k: Ceilings, a: nat, down: int, up: int)
    requires cfg.Valid() && Holds(cfg, now.tree, k) && now.queue == None && !now.raised
    ensures var end := Performed(cfg, now, Do(Set(a, down, up)));
            var may := cfg.net.base + 2 <= a <= cfg.net.base + Size(cfg.net.prefix) - 2
                       && 0 <= down <= 100_000_000_000 && 0 <= up <= 100_000_000_000 && (up > 0 ==> cfg.wan);
            && (may ==> !end.raised && Holds(cfg, end.tree, Ceilings(if down > 0 then k.down[a := down] else k.down - {a},
                                                                    if up > 0 then k.up[a := up] else k.up - {a})))
            && (!may ==> end == now.(raised := true))
  {
    EditSays(cfg, now, k, Set(a, down, up));
  }

  /** clear_limit likewise: the client has no ceiling left, and an address outside the pool raises. */
  lemma ClearLimitSays(cfg: Shaping, now: Now, k: Ceilings, a: nat)
    requires cfg.Valid() && Holds(cfg, now.tree, k) && now.queue == None && !now.raised
    ensures var end := Performed(cfg, now, Do(Clear(a)));
            var may := cfg.net.base + 2 <= a <= cfg.net.base + Size(cfg.net.prefix) - 2;
            && (may ==> !end.raised && Holds(cfg, end.tree, Ceilings(k.down - {a}, k.up - {a})))
            && (!may ==> end == now.(raised := true))
  {
    EditSays(cfg, now, k, Clear(a));
  }

  lemma EditSays(cfg: Shaping, now: Now, k: Ceilings, e: Edit)
    requires cfg.Valid() && Holds(cfg, now.tree, k) && now.queue == None && !now.raised
    ensures var end := Performed(cfg, now, Do(e));
            && (MayAsk(cfg, e) ==> !end.raised && Holds(cfg, end.tree, Want(cfg, k, e)))
            && (!MayAsk(cfg, e) ==> end == now.(raised := true))
  {
    hide Holds, Lines, Run, Send, NeverDangling, MayAsk, Want;
    var u := EditHolds(cfg, now.tree, k, e);
    if MayAsk(cfg, e) {
      B.SendRuns(now, LinesOr(cfg, e));
    }
  }

  function Bare(): Now {
    Now(BARE, [], None, false)
  }

  /** A server from nothing: attach on a bare interface, the clients of the bring-up, in one batch or
      not, and whatever edits follow, in any blocks. No checked command is refused, and every packet in
      both directions fares as the plain map of all the ceilings asked for says. */
  lemma FromBareToPackets(cfg: Shaping, first: seq<Prog>, later: seq<Prog>, h: Header)
    requires cfg.Valid() && B.Plain(cfg, first) && B.Plain(cfg, later) && h.Valid()
    ensures var up := Performs(cfg, Bare(), [BringUp] + first); var end := Performs(cfg, up, later);
            var asked := WantAll(cfg, WantAll(cfg, NOBODY, B.Edits(first)), B.Edits(later));
            && Performed(cfg, Bare(), Block([BringUp] + first)) == up && !up.raised && !end.raised
            && Download(cfg, end.tree, h) == C.Plain(cfg, asked.down, h.family, h.Address(Dst))
            && Upload(cfg, end.tree, h) == C.Plain(cfg, asked.up, h.family, h.Address(Src))
  {
    hide Holds, Download, Upload, Header.Address, Header.Valid, C.Plain, Performs, Performed, WantAll, AllLines, Run, Carries, AttachLines;
    hide B.Plain, B.Edits;
    BareCarriesNobody(cfg);
    B.BringUpHolds(cfg, Bare(), NOBODY, first);
    var up := Performs(cfg, Bare(), [BringUp] + first);
    var k := WantAll(cfg, NOBODY, B.Edits(first));
    assert up.queue == None by { StaysUnbatched(cfg, first); }
    B.BatchingIsInvisible(cfg, up, k, later);
    var end := Performs(cfg, up, later);
    C.DownloadIsPlain(cfg, end.tree, WantAll(cfg, k, B.Edits(later)), h);
    C.UploadIsPlain(cfg, end.tree, WantAll(cfg, k, B.Edits(later)), h);
  }

  /** A block leaves no batch open behind it. */
  lemma StaysUnbatched(cfg: Shaping, first: seq<Prog>)
    requires cfg.Valid()
    ensures Performed(cfg, Bare(), Block([BringUp] + first)).queue == None
  {
    hide Performs, Forced, Blamed;
  }
}
