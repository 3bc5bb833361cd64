/** A client's totals across key resets: the row in traffic.db follows the client to its new key. */
module TrafficRekey {
  import opened Traffic

  /** _rekey_traffic: the row moves to the new key, its raw counters at zero. */
  function Rekey(db: map<Key, Row>, from: Key, to: Key): map<Key, Row> {
    if from == "" || from == to || from !in db then db
    else (db - {from})[to := db[from].(last := Zero())]
  }

  /** A key reset as the interface and the files see it, both under the lock the folds take: the old peer
      goes and the new one counts from zero. Readings taken before may still be folded after. */
  function ResetKey(w: World, from: Key, to: Key): World {
    w.(raw := (w.raw - {from})[to := Zero()], files := w.files.(db := Rekey(w.files.db, from, to)))
  }

  /** A reset restarts the client's counter: what was counted so far lies before it, and what was last
      read is final. */
  function NoteReset(y: Tally): Tally {
    y.(base := y.counted, done := y.done.Plus(y.current), current := Zero())
  }

  /** Drawn by the key generator: nobody's yet. */
  predicate Unused(w: World, k: Key) {
    k != "" && k !in w.raw && k !in w.files.db && forall i :: 0 <= i < |w.readings| ==> !Shows(w, i, k)
  }

  lemma RekeyRow(db: map<Key, Row>, from: Key, to: Key)
    requires from != "" && to !in db && from != to
    ensures RowOf(Rekey(db, from, to), to) == RowOf(db, from).(last := Zero())
    ensures from !in Rekey(db, from, to) && (to in Rekey(db, from, to) <==> from in db)
    ensures forall k :: k != from && k != to ==> RowOf(Rekey(db, from, to), k) == RowOf(db, k)
  {
  }

  lemma ResetSays(w: World, y: Tally, from: Key, to: Key)
    requires Sane(from, w, y) && from != "" && from != to && Unused(w, to)
    ensures var v, z := ResetKey(w, from, to), NoteReset(y);
            && v.readings == w.readings && v.token == w.token && v.used == w.used && v.files.epoch == w.files.epoch
            && z.bases == y.bases && z.counted == y.counted && z.base == y.base.Plus(RawIn(w.raw, from)) == y.counted
            && RawIn(v.raw, to) == Zero() && (to in v.files.db <==> from in w.files.db)
            && RowOf(v.files.db, to) == RowOf(w.files.db, from).(last := Zero())
            && forall i :: !Shows(v, i, to)
  {
    RekeyRow(w.files.db, from, to);
    hide Rekey, RowOf;
    var v := ResetKey(w, from, to);
    assert v.raw[to] == Zero();
    assert forall i :: Shows(v, i, to) == Shows(w, i, to);
  }

  lemma ResetKeepsCovered(w: World, y: Tally, from: Key, to: Key, latest: nat)
    requires Sane(from, w, y) && Timely(from, w, y) && Covered(from, w, y, latest)
    requires from != "" && from != to && Unused(w, to)
    ensures var v, z := ResetKey(w, from, to), NoteReset(y); Sane(to, v, z) && Timely(to, v, z) && Covered(to, v, z, 0)
  {
    ResetSays(w, y, from, to);
    MovedFits(RowOf(w.files.db, from), w.files.epoch, w.token, y.base, RawIn(w.raw, from));
    NothingAdded(y.counted, Zero());
    hide ResetKey, NoteReset, RowOf, Precedes, Fits, Shows, RawIn;
  }

  lemma MovedFits(row: Row, epoch: string, token: string, base: Pair, raw: Pair)
    requires Fits(row, epoch, token, base, raw)
    ensures Fits(row.(last := Zero()), epoch, token, base.Plus(raw), Zero())
  {
  }

  lemma ResetKeepsExact(w: World, y: Tally, from: Key, to: Key)
    requires Exact(from, w, y) && from != "" && from != to && Unused(w, to)
    ensures Exact(to, ResetKey(w, from, to), NoteReset(y))
  {
    RekeyRow(w.files.db, from, to);
    hide Rekey, RowOf;
    assert y.done.Plus(y.current).Plus(Zero()) == y.done.Plus(y.current);
  }

  /** Stretches of a client's life: what happens under one key, and the key it is reset to. */
  datatype Era = Era(events: seq<Event>, next: Key)

  function WorldAfter(k: Key, w: World, eras: seq<Era>): World
    decreases |eras|
  {
    if eras == [] then w
    else WorldAfter(eras[0].next, ResetKey(After(w, eras[0].events), k, eras[0].next), eras[1..])
  }

  function KeyAfter(k: Key, eras: seq<Era>): Key {
    if eras == [] then k else eras[|eras| - 1].next
  }

  function TallyAfter(k: Key, w: World, y: Tally, eras: seq<Era>): Tally
    decreases |eras|
  {
    if eras == [] then y
    else
      TallyAfter(eras[0].next, ResetKey(After(w, eras[0].events), k, eras[0].next),
                 NoteReset(NoteAll(k, w, y, eras[0].events)), eras[1..])
  }

  /** Every stretch is possible, with the epoch readable at every fold, and every new key is new. */
  predicate PossibleLife(k: Key, w: World, eras: seq<Era>)
    decreases |eras|
  {
    k != "" &&
    (eras == []
     || (PossibleRun(w, eras[0].events) && AllReadable(eras[0].events)
         && eras[0].next != k && Unused(After(w, eras[0].events), eras[0].next)
         && PossibleLife(eras[0].next, ResetKey(After(w, eras[0].events), k, eras[0].next), eras[1..])))
  }

  /** In every stretch readings that show the client are folded in the run and in the order they were
      taken in. */
  predicate AlwaysInOrder(k: Key, w: World, eras: seq<Era>)
    decreases |eras|
  {
    eras == []
    || (InOrder(k, w, eras[0].events, 0)
        && AlwaysInOrder(eras[0].next, ResetKey(After(w, eras[0].events), k, eras[0].next), eras[1..]))
  }

  /** In every stretch every fold is safe for the client. */
  predicate AlwaysSafe(k: Key, w: World, eras: seq<Era>)
    decreases |eras|
  {
    eras == []
    || (AllSafe(k, w, eras[0].events)
        && AlwaysSafe(eras[0].next, ResetKey(After(w, eras[0].events), k, eras[0].next), eras[1..]))
  }

  lemma {:induction false} LifeKeepsCovered(k: Key, w: World, y: Tally, eras: seq<Era>)
    requires Sane(k, w, y) && Timely(k, w, y) && Covered(k, w, y, 0) && PossibleLife(k, w, eras) && AlwaysInOrder(k, w, eras)
    ensures var v, z, now := WorldAfter(k, w, eras), TallyAfter(k, w, y, eras), KeyAfter(k, eras);
            Sane(now, v, z) && Timely(now, v, z) && Covered(now, v, z, 0)
    decreases |eras|
  {
    hide Sane, Timely, Covered, ResetKey, NoteReset, After, NoteAll, PossibleRun, AllReadable, Unused, InOrder;
    if eras != [] {
      var e := eras[0];
      var last := RunKeepsCovered(k, w, y, e.events, 0);
      var v, z := After(w, e.events), NoteAll(k, w, y, e.events);
      ResetKeepsCovered(v, z, k, e.next, last);
      LifeKeepsCovered(e.next, ResetKey(v, k, e.next), NoteReset(z), eras[1..]);
      assert KeyAfter(e.next, eras[1..]) == KeyAfter(k, eras);
    }
  }

  lemma {:induction false} LifeKeepsExact(k: Key, w: World, y: Tally, eras: seq<Era>)
    requires Exact(k, w, y) && PossibleLife(k, w, eras) && AlwaysSafe(k, w, eras)
    ensures Exact(KeyAfter(k, eras), WorldAfter(k, w, eras), TallyAfter(k, w, y, eras))
    decreases |eras|
  {
    hide Exact, ResetKey, NoteReset, After, NoteAll, PossibleRun, AllReadable, Unused, AllSafe;
    if eras != [] {
      var e := eras[0];
      RunKeepsExact(k, w, y, e.events);
      var v, z := After(w, e.events), NoteAll(k, w, y, e.events);
      ResetKeepsExact(v, z, k, e.next);
      LifeKeepsExact(e.next, ResetKey(v, k, e.next), NoteReset(z), eras[1..]);
      assert KeyAfter(e.next, eras[1..]) == KeyAfter(k, eras);
    }
  }

  /** However often its keys are reset, and whatever happens after the last reset: a client's total never
      exceeds what was counted for it under all of its keys, when readings are folded in the run and in
      the order they were taken in; and it is the sum of the highest readings folded of every key in every
      run, when every fold is safe. */
  lemma TotalFollowsTheClient(k: Key, w: World, eras: seq<Era>, since: seq<Event>)
    requires Fresh(w) && PossibleLife(k, w, eras)
    requires PossibleRun(WorldAfter(k, w, eras), since) && AllReadable(since)
    ensures var now, v := KeyAfter(k, eras), WorldAfter(k, w, eras);
            var z := NoteAll(now, v, TallyAfter(k, w, Start(), eras), since);
            && (AlwaysInOrder(k, w, eras) && InOrder(now, v, since, 0) ==> Total(now, After(v, since)).AtMost(z.counted))
            && (AlwaysSafe(k, w, eras) && AllSafe(now, v, since) ==> Total(now, After(v, since)) == z.done.Plus(z.current))
  {
    TotalFollows(k, w, Start(), eras, since);
  }

  lemma TotalFollows(k: Key, w: World, y: Tally, eras: seq<Era>, since: seq<Event>)
    requires Fresh(w) && PossibleLife(k, w, eras) && y == Start()
    requires PossibleRun(WorldAfter(k, w, eras), since) && AllReadable(since)
    ensures var now, v := KeyAfter(k, eras), WorldAfter(k, w, eras);
            var z := NoteAll(now, v, TallyAfter(k, w, y, eras), since);
            && (AlwaysInOrder(k, w, eras) && InOrder(now, v, since, 0) ==> Total(now, After(v, since)).AtMost(z.counted))
            && (AlwaysSafe(k, w, eras) && AllSafe(now, v, since) ==> Total(now, After(v, since)) == z.done.Plus(z.current))
  {
    hide *;
    FreshIsExact(k, w, y);
    FreshIsCovered(k, w, y);
    var now, v, x := KeyAfter(k, eras), WorldAfter(k, w, eras), TallyAfter(k, w, y, eras);
    if AlwaysInOrder(k, w, eras) && InOrder(now, v, since, 0) {
      LifeKeepsCovered(k, w, y, eras);
      var last := RunKeepsCovered(now, v, x, since, 0);
      CoveredTotal(now, After(v, since), NoteAll(now, v, x, since), last);
    }
    if AlwaysSafe(k, w, eras) && AllSafe(now, v, since) {
      LifeKeepsExact(k, w, y, eras);
      RunKeepsExact(now, v, x, since);
      ExactTotal(now, After(v, since), NoteAll(now, v, x, since));
    }
  }

  /** A row moved to the new key with its raw counters as they were. */
  function KeptRaw(w: World, k: Key, to: Key): World
    requires k in w.files.db
  {
    w.(raw := (w.raw - {k})[to := Zero()], files := w.files.(db := (w.files.db - {k})[to := w.files.db[k]]))
  }

  lemma KeptLoses(w: World, k: Key, to: Key, b: Pair, more: Pair)
    requires w.files.epoch == w.token != "" && k in w.files.db && w.files.db[k] == Row(b, b) && b.AtMost(more)
    ensures Total(to, ReadNow(Step(KeptRaw(w, k, to), Moved(to, more)))) == more
  {
    var kept := KeptRaw(w, k, to);
    assert RowOf(kept.files.db, to) == Row(b, b) && kept.raw[to] == Zero() && kept.files.epoch == kept.token;
    hide KeptRaw, RowOf, ReadNow, Step;
    ReadNowRow(to, kept, more);
  }

  lemma ResetCounts(w: World, k: Key, to: Key, b: Pair, more: Pair)
    requires w.files.epoch == w.token != "" && k in w.files.db && w.files.db[k] == Row(b, b) && k != to && Unused(w, to)
    ensures Total(to, ReadNow(Step(ResetKey(w, k, to), Moved(to, more)))) == (if k == "" then more else b.Plus(more))
  {
    var moved := ResetKey(w, k, to);
    if k != "" { RekeyRow(w.files.db, k, to); }
    assert RowOf(moved.files.db, to) == (if k == "" then NewRow() else Row(b, Zero())) && moved.raw[to] == Zero();
    assert moved.files.epoch == moved.token == w.token;
    hide ResetKey, Rekey, RowOf, ReadNow, Step;
    ReadNowRow(to, moved, more);
  }

  /** Why the raw counters are zeroed: a row moved as it is takes the new key's traffic off what the
      old key had already counted, until the new key has moved as much. */
  lemma UnzeroedRowLoses(w: World, k: Key, to: Key, b: Pair, more: Pair)
    requires w.files.epoch == w.token != "" && k in w.files.db && w.files.db[k] == Row(b, b) && b.AtMost(more)
    requires k != to && Unused(w, to)
    ensures Total(to, ReadNow(Step(KeptRaw(w, k, to), Moved(to, more)))) == more
    ensures Total(to, ReadNow(Step(ResetKey(w, k, to), Moved(to, more)))) == (if k == "" then more else b.Plus(more))
  {
    hide KeptRaw, ResetKey, Total, ReadNow, Step;
    KeptLoses(w, k, to, b, more);
    ResetCounts(w, k, to, b, more);
  }
}
