/** What batched() promises: the same commands in the same order to the same tree, however the blocks
    are nested, and nothing at all when the outer block raises. */
module ShaperBatch {
  import opened Text
  import opened Subnet
  import opened ShaperIds
  import opened ShaperTree
  import opened ShaperLimits
  import opened ShaperRuns
  import opened ShaperAttach
  import opened ShaperObject

  /** The edits of a program in order, whatever blocks they are in. */
  function Edits(progs: seq<Prog>): seq<Edit>
    decreases progs
  {
    if progs == [] then [] else EditsOf(progs[0]) + Edits(progs[1..])
  }

  function EditsOf(prog: Prog): seq<Edit>
    decreases prog
  {
    match prog
    case Do(e) => [e]
    case Block(body) => Edits(body)
    case _ => []
  }

  /** Only edits that may be asked, in any blocks. */
  predicate Plain(cfg: Shaping, progs: seq<Prog>)
    requires cfg.Valid()
    decreases progs
  {
    progs == [] || (PlainOne(cfg, progs[0]) && Plain(cfg, progs[1..]))
  }

  predicate PlainOne(cfg: Shaping, prog: Prog)
    requires cfg.Valid()
    decreases prog
  {
    match prog
    case Do(e) => MayAsk(cfg, e)
    case Block(body) => Plain(cfg, body)
    case _ => false
  }

  lemma {:induction false} AllLinesJoin(cfg: Shaping, xs: seq<Edit>, ys: seq<Edit>)
    requires cfg.Valid()
    ensures AllLines(cfg, xs + ys) == AllLines(cfg, xs) + AllLines(cfg, ys)
  {
    hide LinesOr;
    if xs == [] {
      assert xs + ys == ys;
    } else {
      assert (xs + ys)[0] == xs[0] && (xs + ys)[1..] == xs[1..] + ys;
      AllLinesJoin(cfg, xs[1..], ys);
    }
  }

  lemma AllLinesNone(cfg: Shaping)
    requires cfg.Valid()
    ensures AllLines(cfg, []) == []
  {
  }

  lemma AllLinesOne(cfg: Shaping, e: Edit)
    requires cfg.Valid()
    ensures AllLines(cfg, [e]) == LinesOr(cfg, e)
  {
    hide LinesOr;
    assert [e][1..] == [];
    assert AllLines(cfg, []) == [];
  }

  // --- inside a batch

  lemma {:induction false} SendQueues(now: Now, lines: seq<Line>)
    requires now.queue.Some? && !now.raised
    ensures Send(now, lines) == now.(queue := Some(now.queue.value + lines))
    decreases |lines|
  {
    if lines == [] {
      assert now.queue.value + [] == now.queue.value;
    } else {
      SendQueues(One(now, lines[0]), lines[1..]);
      assert now.queue.value + [lines[0]] + lines[1..] == now.queue.value + lines;
    }
  }

  lemma {:induction false} QueuesAll(cfg: Shaping, now: Now, progs: seq<Prog>)
    requires cfg.Valid() && Plain(cfg, progs) && now.queue.Some? && !now.raised
    ensures Performs(cfg, now, progs) == now.(queue := Some(now.queue.value + AllLines(cfg, Edits(progs))))
    decreases progs
  {
    hide Lines, AllLines, Send;
    if progs == [] {
      AllLinesNone(cfg);
      assert now.queue.value + [] == now.queue.value;
    } else {
      QueuesOne(cfg, now, progs[0]);
      var next := Performed(cfg, now, progs[0]);
      QueuesAll(cfg, next, progs[1..]);
      AllLinesJoin(cfg, EditsOf(progs[0]), Edits(progs[1..]));
      Regroup(now.queue.value, AllLines(cfg, EditsOf(progs[0])), AllLines(cfg, Edits(progs[1..])));
    }
  }

  lemma Regroup<T>(a: seq<T>, b: seq<T>, c: seq<T>)
    ensures a + b + c == a + (b + c)
  {
  }

  lemma {:induction false} QueuesOne(cfg: Shaping, now: Now, prog: Prog)
    requires cfg.Valid() && PlainOne(cfg, prog) && now.queue.Some? && !now.raised
    ensures Performed(cfg, now, prog) == now.(queue := Some(now.queue.value + AllLines(cfg, EditsOf(prog))))
    decreases prog
  {
    hide Lines, AllLines, Send;
    match prog {
      case Do(e) =>
        AcceptedExactly(cfg, e);
        AllLinesOne(cfg, e);
        SendQueues(now, LinesOr(cfg, e));
      case Block(body) => QueuesAll(cfg, now, body);
    }
  }

  /** Whatever runs inside a batch, the kernel is as it was before and the batch is still open. */
  lemma {:induction false} NothingReachesTheKernel(cfg: Shaping, now: Now, progs: seq<Prog>)
    requires cfg.Valid() && now.queue.Some?
    ensures var end := Performs(cfg, now, progs); end.tree == now.tree && end.sent == now.sent && end.queue.Some?
    decreases progs
  {
    hide Send, AttachGo, Lines;
    if progs != [] && !now.raised {
      match progs[0] {
        case Do(e) =>
          if Lines(cfg, e).Some? {
            SendQueues(now, Lines(cfg, e).value);
          }
        case BringUp => AttachQueues(cfg, now);
        case Throw =>
        case Block(body) => NothingReachesTheKernel(cfg, now, body);
      }
      NothingReachesTheKernel(cfg, Performed(cfg, now, progs[0]), progs[1..]);
    }
  }

  // --- outside

  lemma {:induction false} SendRuns(now: Now, lines: seq<Line>)
    requires now.queue.None? && !now.raised && Run(now.tree, lines).Some?
    ensures Send(now, lines) == Now(Run(now.tree, lines).value, now.sent + lines, None, false)
    decreases |lines|
  {
    hide Exec, After;
    if lines == [] {
      assert now.sent + [] == now.sent;
    } else {
      SendRuns(One(now, lines[0]), lines[1..]);
      assert now.sent + [lines[0]] + lines[1..] == now.sent + lines;
    }
  }

  /** Carrying on past refusals ends where stepping over the unchecked ones does, when no checked
      command is refused; and then nothing is blamed. */
  lemma {:induction false} ForcedIsRun(t: Tree, lines: seq<Line>)
    requires Run(t, lines).Some?
    ensures Forced(t, lines) == Run(t, lines).value && !Blamed(t, lines)
    decreases |lines|
  {
    hide Exec, After;
    if lines != [] {
      ForcedIsRun(After(t, lines[0].cmd), lines[1..]);
    }
  }

  lemma RunParts(t: Tree, xs: seq<Line>, ys: seq<Line>)
    requires Run(t, xs + ys).Some?
    ensures Run(t, xs).Some? && Run(Run(t, xs).value, ys) == Run(t, xs + ys)
  {
    hide Run;
    RunJoin(t, xs, ys);
  }

  lemma {:induction false} PerformsRuns(cfg: Shaping, now: Now, progs: seq<Prog>)
    requires cfg.Valid() && Plain(cfg, progs) && now.queue.None? && !now.raised
    requires Run(now.tree, AllLines(cfg, Edits(progs))).Some?
    ensures var lines := AllLines(cfg, Edits(progs));
            Performs(cfg, now, progs) == Now(Run(now.tree, lines).value, now.sent + lines, None, false)
    decreases progs
  {
    hide Lines, AllLines, Send, Run;
    if progs == [] {
      AllLinesNone(cfg);
      assert Run(now.tree, []) == Some(now.tree) by {
        RunNothing(now.tree);
      }
      assert now.sent + [] == now.sent;
    } else {
      var first, rest := AllLines(cfg, EditsOf(progs[0])), AllLines(cfg, Edits(progs[1..]));
      AllLinesJoin(cfg, EditsOf(progs[0]), Edits(progs[1..]));
      RunParts(now.tree, first, rest);
      PerformedRuns(cfg, now, progs[0]);
      PerformsRuns(cfg, Performed(cfg, now, progs[0]), progs[1..]);
      Regroup(now.sent, first, rest);
    }
  }

  lemma RunNothing(t: Tree)
    ensures Run(t, []) == Some(t)
  {
  }

  lemma {:induction false} PerformedRuns(cfg: Shaping, now: Now, prog: Prog)
    requires cfg.Valid() && PlainOne(cfg, prog) && now.queue.None? && !now.raised
    requires Run(now.tree, AllLines(cfg, EditsOf(prog))).Some?
    ensures var lines := AllLines(cfg, EditsOf(prog));
            Performed(cfg, now, prog) == Now(Run(now.tree, lines).value, now.sent + lines, None, false)
    decreases prog
  {
    hide Lines, AllLines, Send, Run;
    match prog {
      case Do(e) =>
        AcceptedExactly(cfg, e);
        AllLinesOne(cfg, e);
        SendRuns(now, LinesOr(cfg, e));
      case Block(body) =>
        QueuesAll(cfg, Open(now), body);
        var lines := AllLines(cfg, Edits(body));
        assert [] + lines == lines;
        ForcedIsRun(now.tree, lines);
    }
  }

  /** Batching is invisible but for its speed: from a tree that holds some ceilings, accepted edits in
      any nesting of blocks send the very same commands in the same order, raise nothing, and leave
      the ceilings the plain map says. */
  lemma BatchingIsInvisible(cfg: Shaping, now: Now, k: Ceilings, progs: seq<Prog>)
    requires cfg.Valid() && Plain(cfg, progs) && now.queue.None? && !now.raised && Holds(cfg, now.tree, k)
    ensures var lines := AllLines(cfg, Edits(progs)); var end := Performs(cfg, now, progs);
            && end.sent == now.sent + lines && !end.raised && end.queue.None?
            && Run(now.tree, lines) == Some(end.tree)
            && Holds(cfg, end.tree, WantAll(cfg, k, Edits(progs)))
  {
    hide Lines, AllLines, Run, Holds, WantAll, Performs, Edits, NeverDangling;
    var u := EveryRunHolds(cfg, now.tree, k, Edits(progs));
    PerformsRuns(cfg, now, progs);
  }

  /** Two programs that differ only in their blocks end in the same state. */
  lemma BlocksDoNotMatter(cfg: Shaping, now: Now, k: Ceilings, one: seq<Prog>, other: seq<Prog>)
    requires cfg.Valid() && Plain(cfg, one) && Plain(cfg, other) && Edits(one) == Edits(other)
    requires now.queue.None? && !now.raised && Holds(cfg, now.tree, k)
    ensures Performs(cfg, now, one) == Performs(cfg, now, other)
  {
    hide Lines, AllLines, Run, Holds, WantAll, Performs, Edits;
    BatchingIsInvisible(cfg, now, k, one);
    BatchingIsInvisible(cfg, now, k, other);
    assert Some(Performs(cfg, now, one).tree) == Some(Performs(cfg, now, other).tree);
    assert Performs(cfg, now, one).queue == None == Performs(cfg, now, other).queue;
  }

  /** If a batched block raises before its end, whatever it had collected and whatever raised,
      the kernel is never told anything. */
  lemma RaisingSendsNothing(cfg: Shaping, now: Now, body: seq<Prog>)
    requires cfg.Valid() && now.queue == None && !now.raised && Performs(cfg, Open(now), body).raised
    ensures Performed(cfg, now, Block(body)) == now.(raised := true)
  {
    hide Performs;
    NothingReachesTheKernel(cfg, Open(now), body);
  }

  /** A batch that does not raise inside sends everything it collected, and raises at its end exactly
      when a checked command among them was refused; refusals stop none of the others. */
  lemma BatchSendsAll(cfg: Shaping, now: Now, progs: seq<Prog>)
    requires cfg.Valid() && Plain(cfg, progs) && now.queue == None && !now.raised
    ensures var lines := AllLines(cfg, Edits(progs)); var end := Performed(cfg, now, Block(progs));
            && end.sent == now.sent + lines && end.tree == Forced(now.tree, lines)
            && (end.raised <==> Blamed(now.tree, lines))
  {
    hide Performs, AllLines, Edits, Forced, Blamed;
    QueuesAll(cfg, Open(now), progs);
    assert [] + AllLines(cfg, Edits(progs)) == AllLines(cfg, Edits(progs));
  }

  // --- attach, then the clients

  lemma AttachQueues(cfg: Shaping, now: Now)
    requires now.queue.Some? && !now.raised
    ensures AttachGo(cfg, now) == now.(queue := Some(now.queue.value + AttachLines(cfg, now.tree)))
  {
    hide RootLines, OwnClassLines, HashLines, IngressLines, Send;
    var t, q := now.tree, now.queue.value;
    var r, o, h4, h6 := RootLines(t, Tunnel), OwnClassLines(Tunnel), HashLines(t, Egress, V4), HashLines(t, Egress, V6);
    var i, m4, m6, wr, wo := IngressLines(t), HashLines(t, Ingress, V4), HashLines(t, Ingress, V6), RootLines(t, Wan), OwnClassLines(Wan);
    var n1 := DevGo(now, Tunnel);
    DevQueues(now, Tunnel);
    HashesQueue(cfg, n1, Egress);
    var n2 := HashesGo(cfg, n1, Egress);
    assert n2.queue.value == q + AttachTunnel(cfg, t);
    if cfg.wan {
      SendQueues(n2, i);
      var n3 := Send(n2, i);
      HashesQueue(cfg, n3, Ingress);
      DevQueues(HashesGo(cfg, n3, Ingress), Wan);
      FourParts(q + AttachTunnel(cfg, t), i, HashesLines(cfg, t, Ingress), wr + wo);
      Regroup(q, AttachTunnel(cfg, t), AttachUpload(cfg, t));
    } else {
      assert AttachTunnel(cfg, t) + [] == AttachTunnel(cfg, t);
    }
  }

  lemma FourParts<T>(a: seq<T>, b: seq<T>, c: seq<T>, d: seq<T>)
    ensures a + b + c + d == a + ((b + c) + d)
  {
  }

  lemma DevQueues(now: Now, d: Dev)
    requires now.queue.Some? && !now.raised
    ensures DevGo(now, d) == now.(queue := Some(now.queue.value + (RootLines(now.tree, d) + OwnClassLines(d))))
  {
    hide RootLines, OwnClassLines, Send;
    SendQueues(now, RootLines(now.tree, d));
    SendQueues(Send(now, RootLines(now.tree, d)), OwnClassLines(d));
    Regroup(now.queue.value, RootLines(now.tree, d), OwnClassLines(d));
  }

  lemma HashesQueue(cfg: Shaping, now: Now, c: Chain)
    requires now.queue.Some? && !now.raised
    ensures HashesGo(cfg, now, c) == now.(queue := Some(now.queue.value + HashesLines(cfg, now.tree, c)))
  {
    hide HashLines, Send;
    var h4, h6 := HashLines(now.tree, c, V4), HashLines(now.tree, c, V6);
    SendQueues(now, h4);
    if cfg.Covers(V6) {
      SendQueues(Send(now, h4), h6);
      Regroup(now.queue.value, h4, h6);
    } else {
      assert h4 + [] == h4;
    }
  }

  lemma DevRuns(now: Now, d: Dev)
    ensures DevGo(now, d) == Send(now, RootLines(now.tree, d) + OwnClassLines(d))
  {
    hide RootLines, OwnClassLines, Send;
    SendJoin(now, RootLines(now.tree, d), OwnClassLines(d));
  }

  /** Asking after each link as it goes gives the answers the tree gave before the chain was touched. */
  lemma HashesRun(cfg: Shaping, now: Now, c: Chain)
    requires cfg.Valid() && now.queue.None? && !now.raised && Standing(cfg, now.tree) && HasQdisc(now.tree, c)
    ensures HashesGo(cfg, now, c) == Send(now, HashesLines(cfg, now.tree, c))
  {
    hide Send, Standing, Run, NeverDangling, Grown, HasLink, Linked, HasQdisc;
    if cfg.Covers(V6) {
      var one := HashStep(cfg, now.tree, c, V4);
      SendRuns(now, HashLines(now.tree, c, V4));
      SendJoin(now, HashLines(now.tree, c, V4), HashLines(one, c, V6));
    } else {
      assert HashLines(now.tree, c, V4) + [] == HashLines(now.tree, c, V4);
    }
  }

  lemma SendEnds(now: Now, lines: seq<Line>, u: Tree)
    requires now.queue.None? && !now.raised && Run(now.tree, lines) == Some(u)
    ensures Send(now, lines) == Now(u, now.sent + lines, None, false)
  {
    hide Run, Send;
    SendRuns(now, lines);
  }

  lemma SendNothing(now: Now)
    ensures Send(now, []) == now
  {
  }

  lemma AddsRuns(cfg: Shaping, t: Tree, lines: seq<Line>, u: Tree)
    requires cfg.Valid() && Adds(cfg, t, lines, u)
    ensures Run(t, lines) == Some(u) && Standing(cfg, u) && Grown(t, u)
  {
    hide Standing, Grown, Run, NeverDangling;
  }

  lemma UploadRuns(cfg: Shaping, was: Tree, now: Now)
    requires cfg.Valid() && now.queue.None? && !now.raised && Standing(cfg, now.tree)
    requires was.ingress == now.tree.ingress && (Wan in was.roots <==> Wan in now.tree.roots)
    requires forall g :: HasLink(now.tree, Ingress, g) == HasLink(was, Ingress, g)
    ensures UploadGo(cfg, now) == Send(now, AttachUpload(cfg, was))
  {
    hide Send, Standing, Run, Grown, HasLink, OwnClassLines, HashesLines, HashesGo, Adds;
    SendNothing(now);
    if cfg.wan {
      var t := now.tree;
      var gate := IngressStep(cfg, t);
      AddsRuns(cfg, t, IngressLines(t), gate);
      SendEnds(now, IngressLines(t), gate);
      var gated := Send(now, IngressLines(t));
      HashesRun(cfg, gated, Ingress);
      SameLinks(t, gate);
      SameLinksSameLines(cfg, was, gate, Ingress);
      var marking := HashesStep(cfg, gate, Ingress);
      AddsRuns(cfg, gate, HashesLines(cfg, gate, Ingress), marking);
      SendEnds(gated, HashesLines(cfg, gate, Ingress), marking);
      DevRuns(HashesGo(cfg, gated, Ingress), Wan);
      SendJoin(now, IngressLines(t), HashesLines(cfg, gate, Ingress));
      SendJoin(now, IngressLines(t) + HashesLines(cfg, gate, Ingress), RootLines(was, Wan) + OwnClassLines(Wan));
    }
  }

  /** attach() run at once sends what attach() in a batch collects. */
  lemma AttachRuns(cfg: Shaping, now: Now)
    requires cfg.Valid() && now.queue.None? && !now.raised && Standing(cfg, now.tree)
    ensures AttachGo(cfg, now) == Send(now, AttachLines(cfg, now.tree))
  {
    hide Send, Standing, Run, Grown, HasLink, OwnClassLines, HashesLines, HashesGo;
    hide UploadGo, Adds, DevUp, AttachUpload, RootLines, Linked;
    var t := now.tree;
    var root := DevStep(cfg, t, Tunnel);
    AddsRuns(cfg, t, RootLines(t, Tunnel) + OwnClassLines(Tunnel), root);
    DevRuns(now, Tunnel);
    SendEnds(now, RootLines(t, Tunnel) + OwnClassLines(Tunnel), root);
    UpHasRoot(root, Tunnel);
    var built := DevGo(now, Tunnel);
    HashesRun(cfg, built, Egress);
    SameLinks(t, root);
    SameLinksSameLines(cfg, t, root, Egress);
    var tunnel := HashesStep(cfg, root, Egress);
    AddsRuns(cfg, root, HashesLines(cfg, root, Egress), tunnel);
    SendEnds(built, HashesLines(cfg, root, Egress), tunnel);
    SendJoin(now, RootLines(t, Tunnel) + OwnClassLines(Tunnel), HashesLines(cfg, t, Egress));
    var hashed := HashesGo(cfg, built, Egress);
    UploadRuns(cfg, t, hashed);
    SendJoin(now, AttachTunnel(cfg, t), AttachUpload(cfg, t));
  }

  /** The bring-up hook: attach and then every client, in one batch or not, from any part of the
      structure, ends in a whole tree with exactly the ceilings asked for. */
  lemma BringUpHolds(cfg: Shaping, now: Now, k: Ceilings, progs: seq<Prog>)
    requires cfg.Valid() && Plain(cfg, progs) && now.queue == None && !now.raised && Carries(cfg, now.tree, k)
    ensures var end := Performs(cfg, now, [BringUp] + progs);
            && Performed(cfg, now, Block([BringUp] + progs)) == end
            && !end.raised && Holds(cfg, end.tree, WantAll(cfg, k, Edits(progs)))
            && end.sent == now.sent + (AttachLines(cfg, now.tree) + AllLines(cfg, Edits(progs)))
  {
    hide Send, Carries, Standing, Run, Grown, Holds, WantAll, Edits, AllLines;
    hide AttachGo, AttachLines, NeverDangling, Forced, Blamed, Plain;
    var built := AttachRepairs(cfg, now.tree, k);
    var first, rest := AttachLines(cfg, now.tree), AllLines(cfg, Edits(progs));
    var all := [BringUp] + progs;
    assert all[0] == BringUp && all[1..] == progs;
    CarriesStands(cfg, now.tree, k);
    AttachRuns(cfg, now);
    SendEnds(now, first, built);
    var ready := AttachGo(cfg, now);
    BatchingIsInvisible(cfg, ready, k, progs);
    Regroup(now.sent, first, rest);
    BringUpBatched(cfg, now, built, progs);
    RunJoin(now.tree, first, rest);
    ForcedIsRun(now.tree, first + rest);
  }

  lemma BringUpBatched(cfg: Shaping, now: Now, built: Tree, progs: seq<Prog>)
    requires cfg.Valid() && Plain(cfg, progs) && now.queue == None && !now.raised
    ensures var lines := AttachLines(cfg, now.tree) + AllLines(cfg, Edits(progs));
            Performed(cfg, now, Block([BringUp] + progs))
            == Now(Forced(now.tree, lines), now.sent + lines, None, Blamed(now.tree, lines))
  {
    hide Send, Edits, AllLines, AttachGo, AttachLines, Forced, Blamed, Plain;
    var all := [BringUp] + progs;
    assert all[0] == BringUp && all[1..] == progs;
    AttachQueues(cfg, Open(now));
    assert [] + AttachLines(cfg, now.tree) == AttachLines(cfg, now.tree);
    var inside := AttachGo(cfg, Open(now));
    QueuesAll(cfg, inside, progs);
    assert Performs(cfg, Open(now), all) == Performs(cfg, inside, progs);
    assert Performed(cfg, now, Block(all)) == Flush(Performs(cfg, inside, progs));
  }
}
