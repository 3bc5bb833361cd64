/** The fold as it is done: row objects updated in place, then the whole database written back. */
module TrafficObject {
  import opened Traffic

  class Counters {
    var cumRx: nat
    var cumTx: nat
    var lastRx: nat
    var lastTx: nat

    constructor ()
      ensures Value() == NewRow()
    {
      cumRx, cumTx, lastRx, lastTx := 0, 0, 0, 0;
    }

    ghost function Value(): Row
      reads this
    {
      Row(Pair(cumRx, cumTx), Pair(lastRx, lastTx))
    }

    /** The body of accumulate's loop for one peer. */
    method Fold(raw: Pair, restarted: bool) returns (delta: Pair)
      modifies this
      ensures Value() == FoldRow(old(Value()), raw, restarted) && delta == Delta(old(Value()), raw, restarted)
    {
      var wasRx := if restarted then 0 else lastRx;
      var wasTx := if restarted then 0 else lastTx;
      var deltaRx := if raw.rx >= wasRx then raw.rx - wasRx else raw.rx;
      var deltaTx := if raw.tx >= wasTx then raw.tx - wasTx else raw.tx;
      cumRx := cumRx + deltaRx;
      cumTx := cumTx + deltaTx;
      lastRx := raw.rx;
      lastTx := raw.tx;
      delta := Pair(deltaRx, deltaTx);
    }
  }

  /** traffic.db in memory, and the epoch beside it. */
  class Database {
    var rows: map<Key, Counters>
    var epoch: string

    constructor ()
      ensures Valid() && Contents() == Files(map[], "")
    {
      rows, epoch := map[], "";
    }

    /** No two peers share a row. */
    ghost predicate Valid()
      reads this
    {
      forall k, l :: k in rows && l in rows && k != l ==> rows[k] != rows[l]
    }

    ghost function Rows(): map<Key, Row>
      reads this, rows.Values
    {
      map k | k in rows :: rows[k].Value()
    }

    ghost function Contents(): Files
      reads this, rows.Values
    {
      Files(Rows(), epoch)
    }

    /** The row of a peer, made if it has none. */
    method RowFor(pub: Key) returns (row: Counters)
      requires Valid()
      modifies this`rows
      ensures Valid() && fresh(rows.Values - old(rows.Values))
      ensures pub in rows && rows[pub] == row && row.Value() == RowOf(old(Rows()), pub)
      ensures rows == old(rows)[pub := row]
    {
      if pub !in rows {
        row := new Counters();
        rows := rows[pub := row];
      } else {
        row := rows[pub];
      }
    }

    method FoldOne(pub: Key, raw: Pair, restarted: bool) returns (delta: Pair)
      requires Valid()
      modifies this`rows, rows.Values
      ensures Valid() && fresh(rows.Values - old(rows.Values))
      ensures Rows() == old(Rows())[pub := FoldRow(RowOf(old(Rows()), pub), raw, restarted)]
      ensures delta == Delta(RowOf(old(Rows()), pub), raw, restarted)
    {
      hide FoldRow, Delta, RowOf;
      var row := RowFor(pub);
      delta := row.Fold(raw, restarted);
      assert forall k :: k in old(rows) && k != pub ==> rows[k] == old(rows)[k] && rows[k].Value() == old(rows[k].Value());
    }

    /** traffic.accumulate. */
    method Accumulate(dump: map<Key, Pair>, restarted: bool) returns (deltas: map<Key, Pair>)
      requires Valid()
      modifies this`rows, rows.Values
      ensures Valid() && fresh(rows.Values - old(rows.Values))
      ensures Rows() == FoldAll(old(Rows()), dump, restarted)
      ensures deltas == Deltas(old(Rows()), dump, restarted)
    {
      hide FoldAll, Deltas, FoldRow, Delta, RowOf, Part;
      deltas := map[];
      var left := dump.Keys;
      ghost var before := Rows();
      FoldNone(before, dump, restarted);
      while left != {}
        invariant left <= dump.Keys && Valid() && fresh(rows.Values - old(rows.Values))
        invariant Rows() == FoldAll(before, Part(dump, left), restarted)
        invariant deltas == Deltas(before, Part(dump, left), restarted)
        decreases |left|
      {
        var pub :| pub in left;
        FoldOneMore(before, dump, left, restarted, pub);
        var delta := FoldOne(pub, dump[pub], restarted);
        deltas := deltas[pub := delta];
        left := left - {pub};
      }
      FoldDone(dump);
    }

    method ZeroOne(pub: Key)
      requires Valid() && pub in rows
      modifies rows.Values
      ensures Rows() == old(Rows())[pub := old(Rows())[pub].(last := Traffic.Zero())]
    {
      rows[pub].lastRx := 0;
      rows[pub].lastTx := 0;
      assert forall k :: k in rows && k != pub ==> rows[k].Value() == old(rows[k].Value());
    }

    /** The raw values of every row back to zero. */
    method Zero()
      requires Valid()
      modifies rows.Values
      ensures Rows() == Zeroed(old(Rows()))
    {
      hide Zeroed, ZeroedBut;
      var left := rows.Keys;
      ghost var before := Rows();
      ZeroedNone(before);
      while left != {}
        invariant left <= rows.Keys && before.Keys == rows.Keys
        invariant Rows() == ZeroedBut(before, left)
        decreases |left|
      {
        var pub :| pub in left;
        ZeroedOneMore(before, left, pub);
        ZeroOne(pub);
        left := left - {pub};
      }
      ZeroedAll(before);
    }

    /** traffic.sync_db, from the epoch current_epoch() answered with. */
    method Sync(dump: map<Key, Pair>, current: string, ending: bool) returns (deltas: map<Key, Pair>)
      requires Valid()
      modifies this, rows.Values
      ensures Valid() && Contents() == Traffic.Sync(old(Contents()), dump, current, ending)
      ensures deltas == Deltas(old(Rows()), dump, Restarted(old(epoch), current))
    {
      hide FoldAll, Deltas, Zeroed;
      var stored := epoch;
      var restarted := current != "" && stored != "" && current != stored;
      deltas := Accumulate(dump, restarted);
      if ending && current == "" {
        Zero();
      }
      if current != "" && current != stored {
        epoch := current;
      }
    }
  }

  /** The part of a reading that has been folded already. */
  ghost function Part(dump: map<Key, Pair>, left: set<Key>): map<Key, Pair> {
    map k | k in dump && k !in left :: dump[k]
  }

  lemma FoldNone(before: map<Key, Row>, dump: map<Key, Pair>, restarted: bool)
    ensures FoldAll(before, Part(dump, dump.Keys), restarted) == before
    ensures Deltas(before, Part(dump, dump.Keys), restarted) == map[]
  {
  }

  lemma FoldDone(dump: map<Key, Pair>)
    ensures Part(dump, {}) == dump
  {
  }

  lemma FoldOneMore(before: map<Key, Row>, dump: map<Key, Pair>, left: set<Key>, restarted: bool, pub: Key)
    requires pub in left && left <= dump.Keys
    ensures var was := FoldAll(before, Part(dump, left), restarted);
            && RowOf(was, pub) == RowOf(before, pub)
            && FoldAll(before, Part(dump, left - {pub}), restarted)
               == was[pub := FoldRow(RowOf(before, pub), dump[pub], restarted)]
    ensures Deltas(before, Part(dump, left - {pub}), restarted)
            == Deltas(before, Part(dump, left), restarted)[pub := Delta(RowOf(before, pub), dump[pub], restarted)]
  {
    hide FoldRow, Delta;
    var was := FoldAll(before, Part(dump, left), restarted);
    assert pub in was <==> pub in before;
  }

  ghost function ZeroedBut(db: map<Key, Row>, left: set<Key>): map<Key, Row> {
    map k | k in db :: if k in left then db[k] else db[k].(last := Traffic.Zero())
  }

  lemma ZeroedNone(db: map<Key, Row>)
    ensures ZeroedBut(db, db.Keys) == db
  {
  }

  lemma ZeroedAll(db: map<Key, Row>)
    ensures ZeroedBut(db, {}) == Zeroed(db)
  {
  }

  lemma ZeroedOneMore(db: map<Key, Row>, left: set<Key>, pub: Key)
    requires pub in left && left <= db.Keys
    ensures pub in ZeroedBut(db, left)
    ensures ZeroedBut(db, left - {pub})
            == ZeroedBut(db, left)[pub := ZeroedBut(db, left)[pub].(last := Traffic.Zero())]
  {
  }
}
