/** All-time transfer totals, folded from counters that restart whenever the interface does. */
module Traffic {
  type Key = string

  /** A pair of counters: bytes received from a peer and sent to it. */
  datatype Pair = Pair(rx: nat, tx: nat) {
    function Plus(p: Pair): Pair {
      Pair(rx + p.rx, tx + p.tx)
    }

    predicate AtMost(p: Pair) {
      rx <= p.rx && tx <= p.tx
    }

    function Max(p: Pair): Pair {
      Pair(if rx < p.rx then p.rx else rx, if tx < p.tx then p.tx else tx)
    }
  }

  function Zero(): Pair {
    Pair(0, 0)
  }

  /** One row of traffic.db: the totals, and the raw counters behind them. */
  datatype Row = Row(cum: Pair, last: Pair)

  function NewRow(): Row {
    Row(Zero(), Zero())
  }

  function DeltaOf(raw: nat, last: nat): nat {
    if raw >= last then raw - last else raw
  }

  function Delta(row: Row, raw: Pair, restarted: bool): Pair {
    var last := if restarted then Zero() else row.last;
    Pair(DeltaOf(raw.rx, last.rx), DeltaOf(raw.tx, last.tx))
  }

  function FoldRow(row: Row, raw: Pair, restarted: bool): Row {
    Row(row.cum.Plus(Delta(row, raw, restarted)), raw)
  }

  function RowOf(db: map<Key, Row>, k: Key): Row {
    if k in db then db[k] else NewRow()
  }

  /** One reading folded in: a peer it does not show keeps its row. */
  function FoldAll(db: map<Key, Row>, dump: map<Key, Pair>, restarted: bool): map<Key, Row> {
    map k | k in db.Keys + dump.Keys :: if k in dump then FoldRow(RowOf(db, k), dump[k], restarted) else db[k]
  }

  function Deltas(db: map<Key, Row>, dump: map<Key, Pair>, restarted: bool): map<Key, Pair> {
    map k | k in dump :: Delta(RowOf(db, k), dump[k], restarted)
  }

  function Zeroed(db: map<Key, Row>): map<Key, Row> {
    map k | k in db :: db[k].(last := Zero())
  }

  /** The two files: the rows and the epoch they were read in, "" when none was ever recorded. */
  datatype Files = Files(db: map<Key, Row>, epoch: string)

  predicate Restarted(stored: string, epoch: string) {
    epoch != "" && stored != "" && epoch != stored
  }

  /** traffic.sync_db, for the epoch it read ("" when it could not). */
  function Sync(files: Files, dump: map<Key, Pair>, epoch: string, ending: bool): Files {
    var db := FoldAll(files.db, dump, Restarted(files.epoch, epoch));
    Files(if ending && epoch == "" then Zeroed(db) else db, if epoch != "" then epoch else files.epoch)
  }

  // --- a server's life

  /** What a process read off the kernel, and the run of the interface it read it in. The run is known to
      nobody: what is handed to a fold is the dump alone. */
  datatype Reading = Reading(dump: map<Key, Pair>, token: string)

  /** The running interface, its epoch and raw counters, every epoch there has been, every reading taken
      so far by whatever process, and the files. */
  datatype World = World(token: string, used: set<string>, raw: map<Key, Pair>, readings: seq<Reading>, files: Files)

  /** A reading is taken outside the lock, and folded whenever the process that took it gets to it: late,
      twice, after another's, or never. */
  datatype Event =
    | Moved(peer: Key, bytes: Pair)
    | PeerAdded(peer: Key)
    | PeerRemoved(peer: Key)
    | InterfaceRestarted(token: string, peers: set<Key>)
    | Taken
    | Folded(reading: nat, readable: bool, ending: bool)

  /** Bytes move only for peers the interface has, no two runs of it share an epoch, and only what was
      read can be folded. */
  predicate Possible(w: World, e: Event) {
    match e
    case Moved(peer, _) => peer in w.raw
    case InterfaceRestarted(token, _) => token != "" && token !in w.used
    case Folded(i, _, _) => i < |w.readings|
    case _ => true
  }

  function Step(w: World, e: Event): World {
    match e
    case Moved(peer, bytes) => if peer in w.raw then w.(raw := w.raw[peer := w.raw[peer].Plus(bytes)]) else w
    case PeerAdded(peer) => w.(raw := w.raw[peer := Zero()])
    case PeerRemoved(peer) => w.(raw := w.raw - {peer})
    case InterfaceRestarted(token, peers) =>
      w.(token := token, used := w.used + {token}, raw := map k | k in peers :: Zero())
    case Taken => w.(readings := w.readings + [Reading(w.raw, w.token)])
    case Folded(i, readable, ending) =>
      if i < |w.readings|
      then w.(files := Sync(w.files, w.readings[i].dump, if readable then w.token else "", ending))
      else w
  }

  function RawIn(dump: map<Key, Pair>, k: Key): Pair {
    if k in dump then dump[k] else Zero()
  }

  predicate Shows(w: World, i: nat, k: Key) {
    i < |w.readings| && k in w.readings[i].dump
  }

  /** What really happened to one peer: every byte the kernel counted, those of them counted before its
      present counter started, the highest reading folded within each finished run that it was taken in,
      added up, and the highest in this run; the sum of the deltas returned for it; and, for each reading
      taken, what had been counted before the counter it shows had started. */
  datatype Tally = Tally(counted: Pair, base: Pair, done: Pair, current: Pair, deltas: Pair, bases: seq<Pair>)

  function Start(): Tally {
    Tally(Zero(), Zero(), Zero(), Zero(), Zero(), [])
  }

  function Note(k: Key, w: World, y: Tally, e: Event): Tally {
    match e
    case Moved(peer, bytes) => if peer == k && k in w.raw then y.(counted := y.counted.Plus(bytes)) else y
    case PeerAdded(peer) => if peer == k then y.(base := y.counted) else y
    case PeerRemoved(peer) => if peer == k then y.(base := y.counted) else y
    case InterfaceRestarted(_, _) => y.(base := y.counted, done := y.done.Plus(y.current), current := Zero())
    case Taken => y.(bases := y.bases + [y.base])
    case Folded(i, readable, _) =>
      if !Shows(w, i, k) then y
      else
        var r := w.readings[i];
        y.(current := if r.token == w.token then y.current.Max(r.dump[k]) else y.current,
           deltas := y.deltas.Plus(Deltas(w.files.db, r.dump, Restarted(w.files.epoch, if readable then w.token else ""))[k]))
  }

  predicate PossibleRun(w: World, events: seq<Event>)
    decreases |events|
  {
    events == [] || (Possible(w, events[0]) && PossibleRun(Step(w, events[0]), events[1..]))
  }

  function After(w: World, events: seq<Event>): World
    decreases |events|
  {
    if events == [] then w else After(Step(w, events[0]), events[1..])
  }

  function NoteAll(k: Key, w: World, y: Tally, events: seq<Event>): Tally
    decreases |events|
  {
    if events == [] then y else NoteAll(k, Step(w, events[0]), Note(k, w, y, events[0]), events[1..])
  }

  /** A new server: an empty database, no recorded epoch, nothing read, and an interface that has just
      come up. */
  predicate Fresh(w: World) {
    && w.token != "" && w.token in w.used && w.files == Files(map[], "") && w.readings == []
    && forall k :: k in w.raw ==> w.raw[k] == Zero()
  }

  predicate AllReadable(events: seq<Event>) {
    forall i :: 0 <= i < |events| ==> events[i].Folded? ==> events[i].readable
  }

  predicate NoneReadable(events: seq<Event>) {
    forall i :: 0 <= i < |events| ==> events[i].Folded? ==> !events[i].readable
  }

  /** The peer's counter restarts only with the interface. */
  predicate Settled(k: Key, events: seq<Event>) {
    forall i :: 0 <= i < |events| ==> events[i] != PeerAdded(k) && events[i] != PeerRemoved(k)
  }

  /** The total on file for one peer. */
  function Total(k: Key, w: World): Pair {
    RowOf(w.files.db, k).cum
  }

  /** What a fold does to one peer's row. */
  lemma SyncRow(files: Files, dump: map<Key, Pair>, epoch: string, ending: bool, k: Key)
    ensures var was, now := RowOf(files.db, k), RowOf(Sync(files, dump, epoch, ending).db, k);
            var read := if k in dump then FoldRow(was, dump[k], Restarted(files.epoch, epoch)) else was;
            now == if ending && epoch == "" then read.(last := Zero()) else read
    ensures k in Sync(files, dump, epoch, ending).db <==> k in files.db || k in dump
  {
  }

  // --- never too much

  /** Readings of the run the interface is in, none taken before another that was folded: where a reading
      shows the peer it is folded within the run it was taken in, and no later one has been folded. */
  predicate InOrder(k: Key, w: World, events: seq<Event>, latest: nat)
    decreases |events|
  {
    events == []
    || ((events[0].Folded? && Shows(w, events[0].reading, k) ==>
           w.readings[events[0].reading].token == w.token && events[0].reading >= latest)
        && InOrder(k, Step(w, events[0]), events[1..], Later(k, w, events[0], latest)))
  }

  function Later(k: Key, w: World, e: Event, latest: nat): nat {
    if e.Folded? && Shows(w, e.reading, k) then e.reading else latest
  }

  /** A moment and a later one, by what had been counted before the counter of the moment and what it
      showed: the same counter, higher by then, or a new one that started after all of that. */
  predicate Precedes(base: Pair, raw: Pair, then': Pair, now: Pair) {
    (base == then' && raw.AtMost(now)) || base.Plus(raw).AtMost(then')
  }

  predicate Sane(k: Key, w: World, y: Tally) {
    && w.token != "" && w.token in w.used && (w.files.epoch != "" ==> w.files.epoch in w.used)
    && y.counted == y.base.Plus(RawIn(w.raw, k))
    && (w.files.epoch == "" ==> k !in w.files.db)
  }

  /** Readings come in the order they were taken in. */
  ghost predicate Timely(k: Key, w: World, y: Tally) {
    && |y.bases| == |w.readings|
    && (forall i :: 0 <= i < |w.readings| ==> w.readings[i].token in w.used)
    && (forall i :: 0 <= i < |w.readings| && Shows(w, i, k) ==>
          Precedes(y.bases[i], RawIn(w.readings[i].dump, k), y.base, RawIn(w.raw, k)))
    && (forall i, j :: 0 <= i <= j < |w.readings| && Shows(w, i, k) && Shows(w, j, k) ==>
          Precedes(y.bases[i], RawIn(w.readings[i].dump, k), y.bases[j], RawIn(w.readings[j].dump, k)))
  }

  /** The total is covered by what had been counted at a moment: by what came before the counter of that
      moment, or by that and a folded reading of this very counter, taken in the epoch on file. */
  predicate Fits(row: Row, epoch: string, token: string, base: Pair, raw: Pair) {
    row.cum.AtMost(base) || (row.last.AtMost(raw) && row.cum.AtMost(base.Plus(row.last)) && epoch == token)
  }

  /** ... at present, and at every moment whose reading may still be folded. */
  ghost predicate Covered(k: Key, w: World, y: Tally, latest: nat)
    requires |y.bases| == |w.readings|
  {
    var row := RowOf(w.files.db, k);
    && Fits(row, w.files.epoch, w.token, y.base, RawIn(w.raw, k))
    && forall i :: latest <= i < |w.readings| && Shows(w, i, k) && w.readings[i].token == w.token ==>
         Fits(row, w.files.epoch, w.token, y.bases[i], RawIn(w.readings[i].dump, k))
  }

  lemma StepKeepsSane(k: Key, w: World, y: Tally, e: Event)
    requires Sane(k, w, y) && Possible(w, e) && (e.Folded? ==> e.readable)
    ensures Sane(k, Step(w, e), Note(k, w, y, e))
  {
    hide FoldAll, Deltas, Zeroed;
    if e.Folded? {
      hide Sync, RowOf;
      SyncRow(w.files, w.readings[e.reading].dump, w.token, e.ending, k);
      SyncEpoch(w.files, w.readings[e.reading].dump, w.token, e.ending);
    }
  }

  lemma SyncEpoch(files: Files, dump: map<Key, Pair>, epoch: string, ending: bool)
    ensures Sync(files, dump, epoch, ending).epoch == if epoch != "" then epoch else files.epoch
  {
    hide FoldAll, Zeroed;
  }

  /** A counter that goes on, or starts again after everything that had been counted. */
  predicate GoesOn(base: Pair, raw: Pair, then': Pair, now: Pair) {
    (base == then' && raw.AtMost(now)) || then' == base.Plus(raw)
  }

  lemma PrecedesOn(b: Pair, r: Pair, base: Pair, raw: Pair, then': Pair, now: Pair)
    requires Precedes(b, r, base, raw) && GoesOn(base, raw, then', now)
    ensures Precedes(b, r, then', now)
  {
  }

  lemma StepGoesOn(k: Key, w: World, y: Tally, e: Event)
    requires Sane(k, w, y) && Possible(w, e)
    ensures GoesOn(y.base, RawIn(w.raw, k), Note(k, w, y, e).base, RawIn(Step(w, e).raw, k))
  {
    hide Sync, Deltas;
  }

  lemma StepKeepsTimely(k: Key, w: World, y: Tally, e: Event)
    requires Sane(k, w, y) && Possible(w, e) && Timely(k, w, y)
    ensures Timely(k, Step(w, e), Note(k, w, y, e))
  {
    StepGoesOn(k, w, y, e);
    StepReadings(k, w, y, e);
    hide Precedes, GoesOn, Step, Note, Sane, Possible, RawIn;
    var v, z := Step(w, e), Note(k, w, y, e);
    forall i | 0 <= i < |w.readings| && Shows(w, i, k)
      ensures Precedes(y.bases[i], RawIn(w.readings[i].dump, k), z.base, RawIn(v.raw, k))
    {
      PrecedesOn(y.bases[i], RawIn(w.readings[i].dump, k), y.base, RawIn(w.raw, k), z.base, RawIn(v.raw, k));
    }
    PrecedesSelf(y.base, RawIn(w.raw, k));
  }

  lemma PrecedesSelf(base: Pair, raw: Pair)
    ensures Precedes(base, raw, base, raw)
  {
  }

  /** No step but a reading adds one, and a reading shows the present. */
  lemma StepReadings(k: Key, w: World, y: Tally, e: Event)
    requires |y.bases| == |w.readings| && w.token in w.used
    ensures var v, z := Step(w, e), Note(k, w, y, e);
            && w.used <= v.used
            && if e.Taken? then v.readings == w.readings + [Reading(w.raw, w.token)] && z.bases == y.bases + [y.base]
                                && v.raw == w.raw && z.base == y.base
               else v.readings == w.readings && z.bases == y.bases
  {
    hide Sync, Deltas;
  }

  // Whatever happens between folds, the total still fits.

  lemma FitsOn(row: Row, epoch: string, token: string, base: Pair, raw: Pair, then': Pair, now: Pair)
    requires Fits(row, epoch, token, base, raw) && GoesOn(base, raw, then', now)
    ensures Fits(row, epoch, token, then', now)
  {
  }

  lemma FitsAnew(row: Row, epoch: string, token: string, base: Pair, raw: Pair, other: string, now: Pair)
    requires Fits(row, epoch, token, base, raw)
    ensures Fits(row, epoch, other, base.Plus(raw), now)
  {
  }

  /** A reading that fits, folded: the total is covered by all that had been counted when it was taken. */
  lemma FoldFits(row: Row, epoch: string, token: string, base: Pair, raw: Pair)
    requires Fits(row, epoch, token, base, raw) && (epoch == "" ==> row == NewRow()) && token != ""
    ensures var now := FoldRow(row, raw, Restarted(epoch, token));
            now.cum.AtMost(base.Plus(raw)) && now.last == raw
  {
  }

  lemma FoldedFits(row: Row, token: string, base: Pair, raw: Pair, then': Pair, now: Pair)
    requires row.cum.AtMost(base.Plus(raw)) && row.last == raw && Precedes(base, raw, then', now)
    ensures Fits(row, token, token, then', now)
  {
  }

  lemma OtherStepKeepsCovered(k: Key, w: World, y: Tally, e: Event, latest: nat)
    requires Sane(k, w, y) && Timely(k, w, y) && Possible(w, e) && Covered(k, w, y, latest) && !e.Folded?
    ensures |Note(k, w, y, e).bases| == |Step(w, e).readings| && Covered(k, Step(w, e), Note(k, w, y, e), latest)
  {
    StepGoesOn(k, w, y, e);
    StepReadings(k, w, y, e);
    assert Step(w, e).files == w.files;
    hide Fits, GoesOn, Precedes, RowOf;
    var v, z, row := Step(w, e), Note(k, w, y, e), RowOf(w.files.db, k);
    if e.InterfaceRestarted? {
      FitsAnew(row, w.files.epoch, w.token, y.base, RawIn(w.raw, k), v.token, RawIn(v.raw, k));
      assert z.base == y.base.Plus(RawIn(w.raw, k));
    } else {
      hide Step, Note, RawIn;
      assert v.token == w.token by { SameToken(w, e); }
      FitsOn(row, w.files.epoch, w.token, y.base, RawIn(w.raw, k), z.base, RawIn(v.raw, k));
    }
  }

  lemma SameToken(w: World, e: Event)
    requires !e.InterfaceRestarted?
    ensures Step(w, e).token == w.token
  {
    hide Sync;
  }

  lemma FoldKeepsCovered(k: Key, w: World, y: Tally, i: nat, ending: bool, latest: nat)
    requires Sane(k, w, y) && Timely(k, w, y) && Covered(k, w, y, latest) && i < |w.readings|
    requires Shows(w, i, k) ==> w.readings[i].token == w.token && i >= latest
    ensures var e := Folded(i, true, ending);
            Covered(k, Step(w, e), Note(k, w, y, e), Later(k, w, e, latest))
  {
    hide Sync, Deltas, Fits, Precedes, RowOf, FoldRow, GoesOn, Restarted;
    var dump, row := w.readings[i].dump, RowOf(w.files.db, k);
    SyncRow(w.files, dump, w.token, ending, k);
    SyncEpoch(w.files, dump, w.token, ending);
    var v := Step(w, Folded(i, true, ending));
    var now := RowOf(v.files.db, k);
    if Shows(w, i, k) {
      RowWhenUnread(w.files, k);
      FoldFits(row, w.files.epoch, w.token, y.bases[i], RawIn(dump, k));
      FoldedFits(now, w.token, y.bases[i], RawIn(dump, k), y.base, RawIn(w.raw, k));
      forall j | i <= j < |w.readings| && Shows(w, j, k)
        ensures Fits(now, w.token, w.token, y.bases[j], RawIn(w.readings[j].dump, k))
      {
        FoldedFits(now, w.token, y.bases[i], RawIn(dump, k), y.bases[j], RawIn(w.readings[j].dump, k));
      }
    } else {
      FitsEpoch(row, w.files.epoch, w.token, y.base, RawIn(w.raw, k));
      forall j | latest <= j < |w.readings| && Shows(w, j, k) && w.readings[j].token == w.token
        ensures Fits(row, w.token, w.token, y.bases[j], RawIn(w.readings[j].dump, k))
      {
        FitsEpoch(row, w.files.epoch, w.token, y.bases[j], RawIn(w.readings[j].dump, k));
      }
    }
  }

  lemma RowWhenUnread(files: Files, k: Key)
    ensures k !in files.db ==> RowOf(files.db, k) == NewRow()
  {
  }

  lemma FitsEpoch(row: Row, epoch: string, token: string, base: Pair, raw: Pair)
    requires Fits(row, epoch, token, base, raw)
    ensures Fits(row, token, token, base, raw)
  {
  }

  lemma {:induction false} RunKeepsCovered(k: Key, w: World, y: Tally, events: seq<Event>, latest: nat) returns (last: nat)
    requires Sane(k, w, y) && Timely(k, w, y) && Covered(k, w, y, latest)
    requires PossibleRun(w, events) && AllReadable(events) && InOrder(k, w, events, latest)
    ensures var v, z := After(w, events), NoteAll(k, w, y, events);
            Sane(k, v, z) && Timely(k, v, z) && Covered(k, v, z, last)
    decreases |events|
  {
    hide Sane, Timely, Covered, Step, Note, Later, Shows;
    last := latest;
    if events != [] {
      var e := events[0];
      assert e.Folded? ==> e.readable;
      StepKeepsSane(k, w, y, e);
      StepKeepsTimely(k, w, y, e);
      TimelyLengths(k, w, y);
      TimelyLengths(k, Step(w, e), Note(k, w, y, e));
      if e.Folded? {
        FoldKeepsCovered(k, w, y, e.reading, e.ending, latest);
      } else {
        OtherStepKeepsCovered(k, w, y, e, latest);
        assert Later(k, w, e, latest) == latest by { LaterOnlyFolds(k, w, e, latest); }
      }
      last := RunKeepsCovered(k, Step(w, e), Note(k, w, y, e), events[1..], Later(k, w, e, latest));
    }
  }

  lemma LaterOnlyFolds(k: Key, w: World, e: Event, latest: nat)
    requires !e.Folded?
    ensures Later(k, w, e, latest) == latest
  {
  }

  lemma TimelyLengths(k: Key, w: World, y: Tally)
    requires Timely(k, w, y)
    ensures |y.bases| == |w.readings|
  {
  }

  /** With the epoch readable at every fold, and readings folded in the run and in the order they were
      taken in, by however many processes, no peer's total ever exceeds what the kernel counted for it,
      whatever restarts, removals and additions happened in between. */
  lemma NeverTooMuch(k: Key, w: World, events: seq<Event>)
    requires Fresh(w) && PossibleRun(w, events) && AllReadable(events) && InOrder(k, w, events, 0)
    ensures Total(k, After(w, events)).AtMost(NoteAll(k, w, Start(), events).counted)
  {
    NeverTooMuchFrom(k, w, Start(), events);
  }

  lemma NeverTooMuchFrom(k: Key, w: World, y: Tally, events: seq<Event>)
    requires Fresh(w) && PossibleRun(w, events) && AllReadable(events) && InOrder(k, w, events, 0) && y == Start()
    ensures Total(k, After(w, events)).AtMost(NoteAll(k, w, y, events).counted)
  {
    hide *;
    FreshIsCovered(k, w, y);
    var last := RunKeepsCovered(k, w, y, events, 0);
    CoveredTotal(k, After(w, events), NoteAll(k, w, y, events), last);
  }

  lemma FreshIsCovered(k: Key, w: World, y: Tally)
    requires Fresh(w) && y == Start()
    ensures Sane(k, w, y) && Timely(k, w, y) && Covered(k, w, y, 0)
  {
    hide Pair.Plus;
    NothingAdded(y.base, Zero());
  }

  lemma CoveredTotal(k: Key, w: World, y: Tally, latest: nat)
    requires Sane(k, w, y) && Timely(k, w, y) && Covered(k, w, y, latest)
    ensures Total(k, w).AtMost(y.counted)
  {
    hide RowOf, Precedes;
  }

  lemma NothingAdded(p: Pair, q: Pair)
    requires q == Zero()
    ensures p.Plus(q) == p
  {
  }

  // --- exactly what was read

  /** Which folds are safe for a peer, from what is on file. Of a reading taken in the run it is folded
      in: it is not below the one folded last in this run. Of any other: it says what that one said. And
      a reading that does not show the peer is not the first of a run, or nothing was on the counter. */
  predicate SafeFold(k: Key, w: World, i: nat, readable: bool)
    requires i < |w.readings|
  {
    var r, last := w.readings[i], LastHere(k, w, readable);
    if k in r.dump then (if r.token == w.token then last.AtMost(r.dump[k]) else r.dump[k] == last)
    else RowOf(w.files.db, k).last == last
  }

  /** What a fold will take for the peer's last reading of this run. */
  function LastHere(k: Key, w: World, readable: bool): Pair {
    if !readable || w.files.epoch == w.token then RowOf(w.files.db, k).last else Zero()
  }

  predicate AllSafe(k: Key, w: World, events: seq<Event>)
    decreases |events|
  {
    events == []
    || ((events[0].Folded? && events[0].reading < |w.readings| ==> SafeFold(k, w, events[0].reading, events[0].readable))
        && AllSafe(k, Step(w, events[0]), events[1..]))
  }

  /** The account is right: the total is the finished runs' highest readings and this run's, and the next
      reading will be taken against the right one. */
  predicate Exact(k: Key, w: World, y: Tally) {
    var row := RowOf(w.files.db, k);
    && row.cum == y.done.Plus(y.current)
    && (w.files.epoch == w.token ==> row.last == y.current)
    && (w.files.epoch != w.token ==> y.current == Zero())
    && w.token != "" && w.token in w.used && (w.files.epoch != "" ==> w.files.epoch in w.used)
    && (w.files.epoch == "" ==> k !in w.files.db)
  }

  lemma OtherStepKeepsExact(k: Key, w: World, y: Tally, e: Event)
    requires Possible(w, e) && !e.Folded? && Exact(k, w, y)
    ensures Exact(k, Step(w, e), Note(k, w, y, e))
  {
    hide RowOf;
  }

  /** A fold leaves the account right if and only if it is safe. */
  lemma FoldIsExact(k: Key, w: World, y: Tally, i: nat, ending: bool)
    requires Exact(k, w, y) && i < |w.readings|
    ensures Exact(k, Step(w, Folded(i, true, ending)), Note(k, w, y, Folded(i, true, ending))) <==> SafeFold(k, w, i, true)
  {
    hide FoldAll, Deltas, Zeroed, RowOf, Sync;
    SyncRow(w.files, w.readings[i].dump, w.token, ending, k);
    SyncEpoch(w.files, w.readings[i].dump, w.token, ending);
    RowWhenUnread(w.files, k);
  }

  lemma {:induction false} RunKeepsExact(k: Key, w: World, y: Tally, events: seq<Event>)
    requires Exact(k, w, y) && PossibleRun(w, events) && AllReadable(events) && AllSafe(k, w, events)
    ensures Exact(k, After(w, events), NoteAll(k, w, y, events))
    decreases |events|
  {
    hide Exact, Step, Note, SafeFold;
    if events != [] {
      var e := events[0];
      assert e.Folded? ==> e.readable;
      if e.Folded? {
        FoldIsExact(k, w, y, e.reading, e.ending);
      } else {
        OtherStepKeepsExact(k, w, y, e);
      }
      RunKeepsExact(k, Step(w, e), Note(k, w, y, e), events[1..]);
    }
  }

  /** The total equals the sum, over the interface's runs, of the highest reading folded in each, for any
      processes folding in any order, while every fold is safe. */
  lemma TotalIsWhatWasRead(k: Key, w: World, events: seq<Event>)
    requires Fresh(w) && PossibleRun(w, events) && AllReadable(events) && AllSafe(k, w, events)
    ensures var y := NoteAll(k, w, Start(), events); Total(k, After(w, events)) == y.done.Plus(y.current)
  {
    TotalIsReadFrom(k, w, Start(), events);
  }

  lemma TotalIsReadFrom(k: Key, w: World, y: Tally, events: seq<Event>)
    requires Fresh(w) && PossibleRun(w, events) && AllReadable(events) && AllSafe(k, w, events) && y == Start()
    ensures var z := NoteAll(k, w, y, events); Total(k, After(w, events)) == z.done.Plus(z.current)
  {
    hide *;
    FreshIsExact(k, w, y);
    RunKeepsExact(k, w, y, events);
    ExactTotal(k, After(w, events), NoteAll(k, w, y, events));
  }

  lemma FreshIsExact(k: Key, w: World, y: Tally)
    requires Fresh(w) && y == Start()
    ensures Exact(k, w, y)
  {
    hide Pair.Plus;
    NothingAdded(y.done, y.current);
  }

  lemma ExactTotal(k: Key, w: World, y: Tally)
    requires Exact(k, w, y)
    ensures Total(k, w) == y.done.Plus(y.current)
  {
  }

  // --- what an unsafe fold comes to

  /** A reading taken now and folded at once. */
  function ReadNow(w: World): World {
    Step(Step(w, Taken), Folded(|w.readings|, true, false))
  }

  /** Safe means just this: the total is right after the fold, and is right again, however much the peer
      moves before, when the next reading is taken and folded at once. So an unsafe fold makes the total
      wrong then or at the next good reading. */
  lemma SafeFoldIsExact(k: Key, w: World, y: Tally, i: nat, ending: bool)
    requires Exact(k, w, y) && i < |w.readings| && k in w.raw && y.current.AtMost(w.raw[k])
    requires k in w.readings[i].dump && w.readings[i].token == w.token ==> w.readings[i].dump[k].AtMost(w.raw[k])
    ensures var e := Folded(i, true, ending); var v, z := Step(w, e), Note(k, w, y, e);
            SafeFold(k, w, i, true)
            <==> Total(k, v) == z.done.Plus(z.current) && forall more :: RightNext(k, v, z, more)
  {
    var e := Folded(i, true, ending);
    var v, z := Step(w, e), Note(k, w, y, e);
    FoldIsExact(k, w, y, i, ending);
    FoldLeaves(k, w, y, i, ending);
    hide Exact, SafeFold, Step, Note, RightNext;
    ExactAfter(k, v, z);
    if Exact(k, v, z) {
      ExactTotal(k, v, z);
      forall more ensures RightNext(k, v, z, more) {
        NextIsRight(k, v, z, more);
      }
    }
    if Total(k, v) == z.done.Plus(z.current) && RightNext(k, v, z, RowOf(v.files.db, k).last) {
      NextTells(k, v, z);
    }
  }

  /** After the peer moved and was read, the total is all that this run counted, on top of what the runs
      before it came to. */
  predicate RightNext(k: Key, w: World, y: Tally, more: Pair)
  {
    Total(k, ReadNow(Step(w, Moved(k, more)))) == y.done.Plus(RawIn(w.raw, k).Plus(more))
  }

  lemma FoldLeaves(k: Key, w: World, y: Tally, i: nat, ending: bool)
    requires Exact(k, w, y) && i < |w.readings| && k in w.raw && y.current.AtMost(w.raw[k])
    requires k in w.readings[i].dump && w.readings[i].token == w.token ==> w.readings[i].dump[k].AtMost(w.raw[k])
    ensures var e := Folded(i, true, ending); var v, z := Step(w, e), Note(k, w, y, e);
            && v.files.epoch == v.token && v.token == w.token && v.raw == w.raw && v.used == w.used
            && z.current.AtMost(v.raw[k]) && v.token != "" && v.token in v.used
  {
    hide Sync, Deltas, RowOf;
    SyncEpoch(w.files, w.readings[i].dump, w.token, ending);
  }

  lemma ExactAfter(k: Key, w: World, y: Tally)
    requires w.files.epoch == w.token && w.token != "" && w.token in w.used
    ensures Exact(k, w, y) <==> Total(k, w) == y.done.Plus(y.current) && RowOf(w.files.db, k).last == y.current
  {
  }

  lemma ReadNowRow(k: Key, w: World, more: Pair)
    requires k in w.raw && w.files.epoch == w.token && w.token != ""
    ensures Total(k, ReadNow(Step(w, Moved(k, more))))
            == RowOf(w.files.db, k).cum.Plus(Delta(RowOf(w.files.db, k), w.raw[k].Plus(more), false))
  {
    hide Sync, RowOf;
    var v := Step(Step(w, Moved(k, more)), Taken);
    assert v.readings[|w.readings|] == Reading(v.raw, v.token);
    SyncRow(v.files, v.raw, v.token, false, k);
  }

  lemma NextIsRight(k: Key, w: World, y: Tally, more: Pair)
    requires Exact(k, w, y) && k in w.raw && w.files.epoch == w.token && y.current.AtMost(w.raw[k]) && w.token != ""
    ensures RightNext(k, w, y, more)
  {
    ReadNowRow(k, w, more);
    hide ReadNow, Step, RowOf;
  }

  lemma NextTells(k: Key, w: World, y: Tally)
    requires k in w.raw && w.files.epoch == w.token && w.token != "" && Total(k, w) == y.done.Plus(y.current)
    requires RightNext(k, w, y, RowOf(w.files.db, k).last)
    ensures RowOf(w.files.db, k).last == y.current
  {
    ReadNowRow(k, w, RowOf(w.files.db, k).last);
    hide ReadNow, Step, RowOf;
  }

  /** Readings folded in the run and in the order they were taken in are safe, for a peer whose counter
      restarts only with the interface and which is in the first fold of each run. */
  predicate InFirstFolds(k: Key, w: World, events: seq<Event>)
    decreases |events|
  {
    events == []
    || ((events[0].Folded? && w.files.epoch != w.token ==> Shows(w, events[0].reading, k))
        && InFirstFolds(k, Step(w, events[0]), events[1..]))
  }

  /** Of the readings of this run that may still be folded none is below what is on file. */
  ghost predicate Rising(k: Key, w: World, latest: nat) {
    && w.token in w.used && (forall i :: 0 <= i < |w.readings| ==> w.readings[i].token in w.used)
    && (forall i :: latest <= i < |w.readings| && Shows(w, i, k) && w.readings[i].token == w.token ==>
          LastHere(k, w, true).AtMost(RawIn(w.readings[i].dump, k)))
    && (forall i, j :: 0 <= i <= j < |w.readings| && Shows(w, i, k) && Shows(w, j, k)
                       && w.readings[i].token == w.token && w.readings[j].token == w.token ==>
          RawIn(w.readings[i].dump, k).AtMost(RawIn(w.readings[j].dump, k)))
    && (forall i :: 0 <= i < |w.readings| && Shows(w, i, k) && w.readings[i].token == w.token ==>
          RawIn(w.readings[i].dump, k).AtMost(RawIn(w.raw, k)))
    && LastHere(k, w, true).AtMost(RawIn(w.raw, k))
  }

  lemma RawGoesOn(k: Key, w: World, e: Event)
    requires Possible(w, e) && !e.Folded? && !e.InterfaceRestarted? && e != PeerAdded(k) && e != PeerRemoved(k)
    ensures var v := Step(w, e);
            && RawIn(w.raw, k).AtMost(RawIn(v.raw, k)) && v.token == w.token && v.files == w.files && v.used == w.used
            && v.readings == (if e.Taken? then w.readings + [Reading(w.raw, w.token)] else w.readings)
  {
    hide Sync;
  }

  lemma QuietKeepsRising(k: Key, w: World, e: Event, latest: nat)
    requires Rising(k, w, latest) && Possible(w, e) && !e.Folded? && !e.InterfaceRestarted?
    requires e != PeerAdded(k) && e != PeerRemoved(k)
    ensures Rising(k, Step(w, e), latest)
  {
    RawGoesOn(k, w, e);
    hide Step, RowOf, RawIn;
    var v := Step(w, e);
    assert LastHere(k, v, true) == LastHere(k, w, true);
    if e.Taken? {
      assert v.readings[|w.readings|] == Reading(w.raw, w.token);
      assert forall i :: 0 <= i < |w.readings| ==> v.readings[i] == w.readings[i];
      assert RawIn(v.readings[|w.readings|].dump, k) == RawIn(w.raw, k);
    }
  }

  lemma RestartKeepsRising(k: Key, w: World, t: string, peers: set<Key>, latest: nat)
    requires Rising(k, w, latest) && t != "" && t !in w.used && (w.files.epoch != "" ==> w.files.epoch in w.used)
    ensures Rising(k, Step(w, InterfaceRestarted(t, peers)), latest)
  {
    hide RowOf;
    var v := Step(w, InterfaceRestarted(t, peers));
    assert forall i :: 0 <= i < |v.readings| ==> v.readings[i].token != t;
    assert v.files == w.files && v.files.epoch != t;
  }

  lemma FoldKeepsRising(k: Key, w: World, i: nat, ending: bool, latest: nat)
    requires Rising(k, w, latest) && i < |w.readings| && w.token != ""
    requires Shows(w, i, k) ==> w.readings[i].token == w.token && i >= latest
    requires w.files.epoch != w.token ==> Shows(w, i, k)
    ensures Rising(k, Step(w, Folded(i, true, ending)), Later(k, w, Folded(i, true, ending), latest))
  {
    hide Sync, RowOf, FoldRow;
    SyncRow(w.files, w.readings[i].dump, w.token, ending, k);
    SyncEpoch(w.files, w.readings[i].dump, w.token, ending);
    var v := Step(w, Folded(i, true, ending));
    assert v.readings == w.readings && v.raw == w.raw && v.files.epoch == v.token == w.token && v.used == w.used;
    LastOfFold(RowOf(w.files.db, k), RawIn(w.readings[i].dump, k), Restarted(w.files.epoch, w.token));
  }

  lemma LastOfFold(row: Row, raw: Pair, restarted: bool)
    ensures FoldRow(row, raw, restarted).last == raw
  {
  }

  lemma StepKeepsRising(k: Key, w: World, e: Event, latest: nat)
    requires Rising(k, w, latest) && Possible(w, e) && w.token != "" && (e.Folded? ==> e.readable)
    requires e != PeerAdded(k) && e != PeerRemoved(k) && (w.files.epoch != "" ==> w.files.epoch in w.used)
    requires e.Folded? && Shows(w, e.reading, k) ==> w.readings[e.reading].token == w.token && e.reading >= latest
    requires e.Folded? && w.files.epoch != w.token ==> Shows(w, e.reading, k)
    ensures Rising(k, Step(w, e), Later(k, w, e, latest))
  {
    hide Rising, Step, Shows;
    match e
    case InterfaceRestarted(t, peers) => RestartKeepsRising(k, w, t, peers, latest);
    case Folded(i, _, ending) => FoldKeepsRising(k, w, i, ending, latest);
    case _ => QuietKeepsRising(k, w, e, latest);
  }

  lemma StepKeepsEpoch(w: World, e: Event)
    requires Possible(w, e) && w.token != "" && w.token in w.used && (e.Folded? ==> e.readable)
    requires w.files.epoch != "" ==> w.files.epoch in w.used
    ensures var v := Step(w, e); v.token != "" && v.token in v.used && (v.files.epoch != "" ==> v.files.epoch in v.used)
  {
    hide Sync;
    if e.Folded? { SyncEpoch(w.files, w.readings[e.reading].dump, w.token, e.ending); }
  }

  lemma {:induction false} OrderIsSafe(k: Key, w: World, events: seq<Event>, latest: nat)
    requires Rising(k, w, latest) && w.token != "" && (w.files.epoch != "" ==> w.files.epoch in w.used)
    requires PossibleRun(w, events) && AllReadable(events) && Settled(k, events)
    requires InOrder(k, w, events, latest) && InFirstFolds(k, w, events)
    ensures AllSafe(k, w, events)
    decreases |events|
  {
    hide Rising, Step, Later;
    if events != [] {
      var e := events[0];
      assert e.Folded? ==> e.readable;
      assert e != PeerAdded(k) && e != PeerRemoved(k);
      if e.Folded? {
        RisingIsSafe(k, w, e.reading, latest);
      }
      StepKeepsRising(k, w, e, latest);
      assert w.token in w.used by { RisingToken(k, w, latest); }
      StepKeepsEpoch(w, e);
      OrderIsSafe(k, Step(w, e), events[1..], Later(k, w, e, latest));
    }
  }

  lemma RisingIsSafe(k: Key, w: World, i: nat, latest: nat)
    requires Rising(k, w, latest) && i < |w.readings|
    requires Shows(w, i, k) ==> w.readings[i].token == w.token && i >= latest
    requires w.files.epoch != w.token ==> Shows(w, i, k)
    ensures SafeFold(k, w, i, true)
  {
  }

  lemma RisingToken(k: Key, w: World, latest: nat)
    requires Rising(k, w, latest)
    ensures w.token in w.used
  {
  }

  lemma FreshIsRising(k: Key, w: World)
    requires Fresh(w)
    ensures Rising(k, w, 0)
  {
  }

  /** So with nobody folding late the total is what was read, and never too much. */
  lemma OrderSuffices(k: Key, w: World, events: seq<Event>)
    requires Fresh(w) && PossibleRun(w, events) && AllReadable(events) && Settled(k, events)
    requires InOrder(k, w, events, 0) && InFirstFolds(k, w, events)
    ensures var y := NoteAll(k, w, Start(), events);
            AllSafe(k, w, events) && Total(k, After(w, events)) == y.done.Plus(y.current) && Total(k, After(w, events)).AtMost(y.counted)
  {
    FreshIsRising(k, w);
    OrderIsSafe(k, w, events, 0);
    TotalIsWhatWasRead(k, w, events);
    NeverTooMuch(k, w, events);
  }

  // --- without an epoch

  /** Every run of the interface ends in an ending fold, and nothing else does. */
  predicate EndsEveryRun(events: seq<Event>, ended: bool)
    decreases |events|
  {
    events == []
    || match events[0]
       case Folded(_, _, ending) => !ended && EndsEveryRun(events[1..], ending)
       case InterfaceRestarted(_, _) => ended && EndsEveryRun(events[1..], false)
       case _ => EndsEveryRun(events[1..], ended)
  }

  function EndedNext(e: Event, ended: bool): bool {
    match e
    case Folded(_, _, ending) => ending
    case InterfaceRestarted(_, _) => false
    case _ => ended
  }

  /** The account is right on a kernel that gives no epoch: between runs every raw counter is zeroed. */
  predicate Unaided(k: Key, w: World, y: Tally, ended: bool) {
    var row := RowOf(w.files.db, k);
    && w.files.epoch == ""
    && row.cum == y.done.Plus(y.current) && row.last == (if ended then Zero() else y.current)
  }

  lemma OtherStepKeepsUnaided(k: Key, w: World, y: Tally, e: Event, ended: bool)
    requires Unaided(k, w, y, ended) && !e.Folded? && (e.InterfaceRestarted? ==> ended)
    ensures Unaided(k, Step(w, e), Note(k, w, y, e), EndedNext(e, ended))
  {
    hide RowOf;
  }

  /** Here too a fold leaves the account right if it is safe, and unless it zeroes the counters itself
      only then. */
  lemma FoldIsUnaided(k: Key, w: World, y: Tally, i: nat, ending: bool)
    requires Unaided(k, w, y, false) && i < |w.readings|
    ensures var e := Folded(i, false, ending); var right := Unaided(k, Step(w, e), Note(k, w, y, e), ending);
            (SafeFold(k, w, i, false) ==> right) && (right && !ending ==> SafeFold(k, w, i, false))
  {
    hide FoldAll, Deltas, Zeroed, RowOf, Sync;
    SyncRow(w.files, w.readings[i].dump, "", ending, k);
    SyncEpoch(w.files, w.readings[i].dump, "", ending);
  }

  lemma {:induction false} RunKeepsUnaided(k: Key, w: World, y: Tally, events: seq<Event>, ended: bool) returns (last: bool)
    requires Unaided(k, w, y, ended) && NoneReadable(events) && EndsEveryRun(events, ended)
    requires PossibleRun(w, events) && AllSafe(k, w, events)
    ensures Unaided(k, After(w, events), NoteAll(k, w, y, events), last)
    decreases |events|
  {
    hide Unaided, Step, Note, SafeFold;
    last := ended;
    if events != [] {
      var e := events[0];
      assert e.Folded? ==> !e.readable;
      if e.Folded? {
        FoldIsUnaided(k, w, y, e.reading, e.ending);
      } else {
        OtherStepKeepsUnaided(k, w, y, e, ended);
      }
      last := RunKeepsUnaided(k, Step(w, e), Note(k, w, y, e), events[1..], EndedNext(e, ended));
    }
  }

  /** On a kernel whose epoch can never be read the same equality holds, if every run of the interface
      ends in an ending fold and every fold is safe. */
  lemma EndingFoldsSuffice(k: Key, w: World, events: seq<Event>)
    requires Fresh(w) && NoneReadable(events) && EndsEveryRun(events, false) && PossibleRun(w, events) && AllSafe(k, w, events)
    ensures var y := NoteAll(k, w, Start(), events); Total(k, After(w, events)) == y.done.Plus(y.current)
  {
    EndingFoldsFrom(k, w, Start(), events);
  }

  lemma EndingFoldsFrom(k: Key, w: World, y: Tally, events: seq<Event>)
    requires Fresh(w) && NoneReadable(events) && EndsEveryRun(events, false) && PossibleRun(w, events) && AllSafe(k, w, events)
    requires y == Start()
    ensures var z := NoteAll(k, w, y, events); Total(k, After(w, events)) == z.done.Plus(z.current)
  {
    hide *;
    FreshIsUnaided(k, w, y);
    var last := RunKeepsUnaided(k, w, y, events, false);
    UnaidedTotal(k, After(w, events), NoteAll(k, w, y, events), last);
  }

  lemma FreshIsUnaided(k: Key, w: World, y: Tally)
    requires Fresh(w) && y == Start()
    ensures Unaided(k, w, y, false)
  {
    hide Pair.Plus;
    NothingAdded(y.done, y.current);
  }

  lemma UnaidedTotal(k: Key, w: World, y: Tally, ended: bool)
    requires Unaided(k, w, y, ended)
    ensures Total(k, w) == y.done.Plus(y.current)
  {
  }

  // --- the deltas returned

  lemma StepKeepsDeltas(k: Key, w: World, y: Tally, e: Event)
    requires Total(k, w) == y.deltas
    ensures Total(k, Step(w, e)) == Note(k, w, y, e).deltas
  {
  }

  lemma {:induction false} RunKeepsDeltas(k: Key, w: World, y: Tally, events: seq<Event>)
    requires Total(k, w) == y.deltas
    ensures Total(k, After(w, events)) == NoteAll(k, w, y, events).deltas
    decreases |events|
  {
    hide Step, Note, Total;
    if events != [] {
      StepKeepsDeltas(k, w, y, events[0]);
      RunKeepsDeltas(k, Step(w, events[0]), Note(k, w, y, events[0]), events[1..]);
    }
  }

  /** Whatever happens, readable or not, safe or not, the deltas returned add up to the total. */
  lemma DeltasAddUp(k: Key, w: World, events: seq<Event>)
    requires Fresh(w)
    ensures Total(k, After(w, events)) == NoteAll(k, w, Start(), events).deltas
  {
    RunKeepsDeltas(k, w, Start(), events);
  }

  // --- why the premises are there

  /** A reading taken and folded at once. */
  function ReadAndFold(w: World, readable: bool, ending: bool): World {
    Step(Step(w, Taken), Folded(|w.readings|, readable, ending))
  }

  lemma ReadAndFoldRow(k: Key, w: World, readable: bool, ending: bool)
    ensures var v, epoch := ReadAndFold(w, readable, ending), if readable then w.token else "";
            var was := RowOf(w.files.db, k);
            var read := if k in w.raw then FoldRow(was, w.raw[k], Restarted(w.files.epoch, epoch)) else was;
            && RowOf(v.files.db, k) == (if ending && epoch == "" then read.(last := Zero()) else read)
            && v.files.epoch == (if epoch != "" then epoch else w.files.epoch) && v.raw == w.raw && v.token == w.token
            && v.used == w.used && v.readings == w.readings + [Reading(w.raw, w.token)]
  {
    hide Sync, RowOf, FoldRow;
    var t := Step(w, Taken);
    assert t.readings[|w.readings|] == Reading(w.raw, w.token);
    var epoch := if readable then w.token else "";
    SyncRow(t.files, w.raw, epoch, ending, k);
    SyncEpoch(t.files, w.raw, epoch, ending);
  }

  lemma Unfold(k: Key, w: World, y: Tally, e: Event, rest: seq<Event>)
    ensures After(w, [e] + rest) == After(Step(w, e), rest)
    ensures NoteAll(k, w, y, [e] + rest) == NoteAll(k, Step(w, e), Note(k, w, y, e), rest)
    ensures PossibleRun(w, [e] + rest) <==> Possible(w, e) && PossibleRun(Step(w, e), rest)
  {
    hide Step, Note, Possible;
    assert ([e] + rest)[1..] == rest;
  }

  /** What six events come to, one after the other. */
  lemma UnfoldSix(k: Key, w: World, y: Tally, e: Event, f: Event, g: Event, h: Event, m: Event, n: Event)
    ensures After(w, [e, f, g, h, m, n]) == Step(Step(Step(Step(Step(Step(w, e), f), g), h), m), n)
  {
    hide Step, Note, Possible, After, NoteAll, PossibleRun;
    var w1 := Step(w, e);
    var w2 := Step(w1, f);
    var w3 := Step(w2, g);
    var w4 := Step(w3, h);
    var w5 := Step(w4, m);
    Unfold(k, w, y, e, [f, g, h, m, n]);
    Unfold(k, w1, y, f, [g, h, m, n]);
    Unfold(k, w2, y, g, [h, m, n]);
    Unfold(k, w3, y, h, [m, n]);
    Unfold(k, w4, y, m, [n]);
    Unfold(k, w5, y, n, []);
    assert [e, f, g, h, m, n] == [e] + [f, g, h, m, n] && [f, g, h, m, n] == [f] + [g, h, m, n];
    assert [g, h, m, n] == [g] + [h, m, n] && [h, m, n] == [h] + [m, n] && [m, n] == [m] + [n] && [n] == [n] + [];
    assert After(Step(w5, n), []) == Step(w5, n) by { NothingAfter(Step(w5, n)); }
  }

  lemma NothingAfter(w: World)
    ensures After(w, []) == w && PossibleRun(w, [])
  {
  }

  /** The kernel's counters through the same six events. */
  function LateFold(k: Key, a: Pair, b: Pair): seq<Event> {
    [Moved(k, a), Taken, Moved(k, b), Taken, Folded(1, true, false), Folded(0, true, false)]
  }

  lemma LateFoldCounts(k: Key, a: Pair, b: Pair, w: World, y: Tally)
    requires Fresh(w) && k in w.raw && y == Start()
    ensures PossibleRun(w, LateFold(k, a, b)) && NoteAll(k, w, y, LateFold(k, a, b)).counted == a.Plus(b)
  {
    hide Sync, Deltas, After, NoteAll, PossibleRun, RawIn, Pair.Max;
    var w1, y1 := Step(w, Moved(k, a)), Note(k, w, y, Moved(k, a));
    var w2, y2 := Step(w1, Taken), Note(k, w1, y1, Taken);
    var w3, y3 := Step(w2, Moved(k, b)), Note(k, w2, y2, Moved(k, b));
    var w4, y4 := Step(w3, Taken), Note(k, w3, y3, Taken);
    var w5, y5 := Step(w4, Folded(1, true, false)), Note(k, w4, y4, Folded(1, true, false));
    var w6, y6 := Step(w5, Folded(0, true, false)), Note(k, w5, y5, Folded(0, true, false));
    Unfold(k, w, y, Moved(k, a), [Taken, Moved(k, b), Taken, Folded(1, true, false), Folded(0, true, false)]);
    Unfold(k, w1, y1, Taken, [Moved(k, b), Taken, Folded(1, true, false), Folded(0, true, false)]);
    Unfold(k, w2, y2, Moved(k, b), [Taken, Folded(1, true, false), Folded(0, true, false)]);
    Unfold(k, w3, y3, Taken, [Folded(1, true, false), Folded(0, true, false)]);
    Unfold(k, w4, y4, Folded(1, true, false), [Folded(0, true, false)]);
    Unfold(k, w5, y5, Folded(0, true, false), []);
    NothingAfter(w6);
    assert NoteAll(k, w6, y6, []) == y6 by { NothingNoted(k, w6, y6); }
    assert LateFold(k, a, b) == [Moved(k, a)] + [Taken, Moved(k, b), Taken, Folded(1, true, false), Folded(0, true, false)];
    assert [Taken, Moved(k, b), Taken, Folded(1, true, false), Folded(0, true, false)]
        == [Taken] + [Moved(k, b), Taken, Folded(1, true, false), Folded(0, true, false)];
    assert [Moved(k, b), Taken, Folded(1, true, false), Folded(0, true, false)]
        == [Moved(k, b)] + [Taken, Folded(1, true, false), Folded(0, true, false)];
    assert [Taken, Folded(1, true, false), Folded(0, true, false)] == [Taken] + [Folded(1, true, false), Folded(0, true, false)];
    assert [Folded(1, true, false), Folded(0, true, false)] == [Folded(1, true, false)] + [Folded(0, true, false)];
    assert [Folded(0, true, false)] == [Folded(0, true, false)] + [];
    assert |w4.readings| == 2;
    assert y4.counted == a.Plus(b);
  }

  lemma NothingNoted(k: Key, w: World, y: Tally)
    ensures NoteAll(k, w, y, []) == y
  {
  }

  /** A reading folded after a later one: the collector reads a, another process reads a + b and folds it,
      and the collector's fold takes the lower figure for a counter that started again. One run, every
      epoch readable, and what came before the first reading is counted twice. */
  lemma OldReadingCountsTwice(k: Key, a: Pair, b: Pair, w: World)
    requires Fresh(w) && k in w.raw && 0 < b.rx && 0 < b.tx
    ensures var events := LateFold(k, a, b);
            && PossibleRun(w, events) && AllReadable(events) && Settled(k, events)
            && NoteAll(k, w, Start(), events).counted == a.Plus(b)
            && Total(k, After(w, events)) == a.Plus(b).Plus(a)
  {
    LateFoldCounts(k, a, b, w, Start());
    LateFoldTotals(k, a, b, w);
    hide Step, Note, After, NoteAll, PossibleRun, Fresh, Total;
  }

  lemma LateFoldTotals(k: Key, a: Pair, b: Pair, w: World)
    requires Fresh(w) && k in w.raw && 0 < b.rx && 0 < b.tx
    ensures Total(k, After(w, LateFold(k, a, b))) == a.Plus(b).Plus(a)
  {
    LateReadings(k, a, b, w);
    UnfoldSix(k, w, Start(), Moved(k, a), Taken, Moved(k, b), Taken, Folded(1, true, false), Folded(0, true, false));
    hide Step, After, Total;
    FoldedRows(k, Step(Step(Step(Step(w, Moved(k, a)), Taken), Moved(k, b)), Taken), a, a.Plus(b));
  }

  lemma LateReadings(k: Key, a: Pair, b: Pair, w: World)
    requires Fresh(w) && k in w.raw
    ensures var v := Step(Step(Step(Step(w, Moved(k, a)), Taken), Moved(k, b)), Taken);
            && |v.readings| == 2 && Shows(v, 0, k) && Shows(v, 1, k) && v.token == w.token && v.files == w.files
            && v.readings[0].dump[k] == a && v.readings[1].dump[k] == a.Plus(b)
  {
    hide Sync;
    var w1 := Step(w, Moved(k, a));
    assert w1.raw[k] == a && w1.readings == [] && w1.files == w.files && w1.token == w.token;
    var w2 := Step(w1, Taken);
    assert w2.readings == [Reading(w1.raw, w.token)] && w2.raw == w1.raw;
    var w3 := Step(w2, Moved(k, b));
    assert w3.raw[k] == a.Plus(b);
  }

  lemma FoldedRows(k: Key, w: World, low: Pair, high: Pair)
    requires |w.readings| == 2 && Shows(w, 0, k) && Shows(w, 1, k) && w.token != ""
    requires w.readings[0].dump[k] == low && w.readings[1].dump[k] == high && low.rx < high.rx && low.tx < high.tx
    requires w.files == Files(map[], "")
    ensures Total(k, Step(Step(w, Folded(1, true, false)), Folded(0, true, false))) == high.Plus(low)
  {
    hide Sync, RowOf;
    var v := Step(w, Folded(1, true, false));
    SyncRow(w.files, w.readings[1].dump, w.token, false, k);
    SyncEpoch(w.files, w.readings[1].dump, w.token, false);
    RowWhenUnread(w.files, k);
    SyncRow(v.files, v.readings[0].dump, v.token, false, k);
  }

  lemma RestartSays(w: World, t: string, k: Key)
    ensures var v := Step(w, InterfaceRestarted(t, {k}));
            && k in v.raw && v.raw[k] == Zero() && v.files == w.files && v.readings == w.readings && v.token == t
            && v.used == w.used + {t}
  {
    hide Sync;
  }

  lemma MovedSays(w: World, k: Key, b: Pair)
    requires k in w.raw && w.raw[k] == Zero()
    ensures var v := Step(w, Moved(k, b));
            && k in v.raw && v.raw[k] == b && v.files == w.files && v.readings == w.readings && v.token == w.token && v.used == w.used
  {
    hide Sync;
  }

  lemma FoldSays(k: Key, w: World, i: nat, readable: bool)
    requires Shows(w, i, k)
    ensures RowOf(Step(w, Folded(i, readable, false)).files.db, k)
            == FoldRow(RowOf(w.files.db, k), w.readings[i].dump[k], Restarted(w.files.epoch, if readable then w.token else ""))
  {
    hide Sync, RowOf, FoldRow;
    SyncRow(w.files, w.readings[i].dump, if readable then w.token else "", false, k);
  }

  /** A peer that moved and was read. */
  lemma MovedAndRead(k: Key, a: Pair, w: World, readable: bool)
    requires Fresh(w) && k in w.raw
    ensures var v := ReadAndFold(Step(w, Moved(k, a)), readable, false);
            && RowOf(v.files.db, k) == Row(a, a) && v.files.epoch == (if readable then w.token else "") && v.used == w.used
            && |v.readings| == 1 && Shows(v, 0, k) && v.readings[0].dump[k] == a
  {
    MovedSays(w, k, a);
    var moved := Step(w, Moved(k, a));
    hide Step, ReadAndFold, RowOf, FoldRow, Fresh;
    assert RowOf(w.files.db, k) == NewRow() && w.files.epoch == "" && w.readings == [] by { FreshRow(k, w); }
    ReadAndFoldRow(k, moved, readable, false);
    FirstFold(a);
  }

  lemma FreshRow(k: Key, w: World)
    requires Fresh(w)
    ensures RowOf(w.files.db, k) == NewRow() && w.files.epoch == "" && w.readings == []
  {
  }

  /** ... and then the restart. */
  lemma ReadAndRestarted(k: Key, a: Pair, w: World, t: string, readable: bool) returns (up: World)
    requires Fresh(w) && k in w.raw && t != ""
    ensures up == Step(ReadAndFold(Step(w, Moved(k, a)), readable, false), InterfaceRestarted(t, {k}))
    ensures RowOf(up.files.db, k) == Row(a, a) && up.files.epoch == (if readable then w.token else "") && up.token == t
    ensures k in up.raw && up.raw[k] == Zero() && |up.readings| == 1 && Shows(up, 0, k) && up.readings[0].dump[k] == a
  {
    MovedAndRead(k, a, w, readable);
    hide Step, ReadAndFold, RowOf, Fresh;
    var read := ReadAndFold(Step(w, Moved(k, a)), readable, false);
    RestartSays(read, t, k);
    up := Step(read, InterfaceRestarted(t, {k}));
  }

  lemma FoldedAgain(k: Key, a: Pair, up: World)
    requires |up.readings| == 1 && Shows(up, 0, k) && up.readings[0].dump[k] == a && RowOf(up.files.db, k) == Row(a, a)
    requires up.files.epoch != "" && up.token != "" && up.token != up.files.epoch
    ensures Total(k, Step(up, Folded(0, true, false))) == a.Plus(a)
  {
    FoldSays(k, up, 0, true);
    AgainFold(Row(a, a), a);
    hide Step, RowOf, FoldRow;
  }

  /** A reading of one run folded in the next: what was read is counted again. */
  lemma LateReadingCountsTwice(k: Key, a: Pair, w: World, t: string)
    requires Fresh(w) && k in w.raw && t != "" && t !in w.used
    ensures var up := Step(ReadAndFold(Step(w, Moved(k, a)), true, false), InterfaceRestarted(t, {k}));
            Possible(up, Folded(0, true, false)) && Total(k, Step(up, Folded(0, true, false))) == a.Plus(a)
  {
    var up := ReadAndRestarted(k, a, w, t, true);
    FoldedAgain(k, a, up);
    hide Step, ReadAndFold, Total, RowOf;
  }

  lemma FirstFold(a: Pair)
    ensures FoldRow(NewRow(), a, false) == Row(a, a) && FoldRow(NewRow(), a, true) == Row(a, a)
  {
  }

  lemma AgainFold(row: Row, a: Pair)
    ensures FoldRow(row, a, true) == Row(row.cum.Plus(a), a)
  {
  }

  function Ran(w: World, e: Event, f: bool, ending: bool): World {
    ReadAndFold(Step(w, e), f, ending)
  }

  /** An epoch that is readable in one fold and not in another counts a run twice. */
  lemma PatchyEpochCountsTwice(k: Key, b: Pair, w: World, t: string)
    requires Fresh(w) && t != w.token && t != "" && b != Zero()
    ensures var up := Step(ReadAndFold(w, true, false), InterfaceRestarted(t, {k}));
            Total(k, ReadAndFold(Ran(up, Moved(k, b), false, false), true, false)) == b.Plus(b)
  {
    var read := ReadAndFold(w, true, false);
    ReadAndFoldRow(k, w, true, false);
    var up := Step(read, InterfaceRestarted(t, {k}));
    var moved := Step(up, Moved(k, b));
    assert moved.raw[k] == b;
    ReadAndFoldRow(k, moved, false, false);
    ReadAndFoldRow(k, ReadAndFold(moved, false, false), true, false);
    hide ReadAndFold;
  }

  /** An epoch that can be read for the first time is no restart: the fold adds what the counters grew by since
      they were last read, and from then on the epoch is the one the files remember. */
  lemma FirstEpochIsNoRestart(k: Key, w: World, ending: bool)
    requires w.files.epoch == "" && w.token != "" && k in w.raw && RowOf(w.files.db, k).last.AtMost(w.raw[k])
    ensures var v := ReadAndFold(w, true, ending);
            && Total(k, v).Plus(RowOf(w.files.db, k).last) == Total(k, w).Plus(w.raw[k])
            && v.files.epoch == w.token
  {
    ReadAndFoldRow(k, w, true, ending);
  }

  /** Without an epoch, an ending fold run by hand on an interface that stays up counts it twice. */
  lemma EndingTooSoonCountsTwice(k: Key, b: Pair, w: World)
    requires Fresh(w) && k in w.raw
    ensures Total(k, ReadAndFold(Ran(w, Moved(k, b), false, true), false, false)) == b.Plus(b)
  {
    var moved := Step(w, Moved(k, b));
    assert moved.raw[k] == b;
    ReadAndFoldRow(k, moved, false, true);
    ReadAndFoldRow(k, ReadAndFold(moved, false, true), false, false);
    hide ReadAndFold;
  }

  /** Without an epoch, a crash loses what the run before it had counted from every peer that has moved
      at least as much again. */
  lemma UnseenRestartLoses(k: Key, b: Pair, w: World, t: string, more: Pair)
    requires Fresh(w) && k in w.raw && t != "" && b.AtMost(more)
    ensures var up := Step(Ran(w, Moved(k, b), false, false), InterfaceRestarted(t, {k}));
            Total(k, Ran(up, Moved(k, more), false, false)) == more
  {
    var up := ReadAndRestarted(k, b, w, t, false);
    MovedUnseen(k, b, up, more);
    hide Step, ReadAndFold, Total, RowOf;
  }

  lemma MovedUnseen(k: Key, b: Pair, up: World, more: Pair)
    requires k in up.raw && up.raw[k] == Zero() && RowOf(up.files.db, k) == Row(b, b) && up.files.epoch == "" && b.AtMost(more)
    ensures Total(k, Ran(up, Moved(k, more), false, false)) == more
  {
    MovedSays(up, k, more);
    ReadAndFoldRow(k, Step(up, Moved(k, more)), false, false);
    HigherFold(b, more);
    hide Step, ReadAndFold, RowOf, FoldRow;
  }

  lemma HigherFold(b: Pair, more: Pair)
    requires b.AtMost(more)
    ensures FoldRow(Row(b, b), more, false) == Row(more, more)
  {
  }
}
