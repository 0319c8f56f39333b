/** The startup reconciler: once, when the worker starts, every session still queued or
    processing in either session table is marked failed and its owner's credit refunded.
    A failure while sweeping one table ends that table's sweep and the next table is swept.

    The store lists the in-flight rows in an order it chooses, so the sweep is described by
    `Cleanup` given the two listings, and `CleanupStuckSessions` returns the listings it got
    as ghost results. */
module Startup {
  import opened Prelude
  import opened Generation
  import opened Gateway
  import opened TaskPayload
  import Tasks

  /** The tables swept, in order, each with its owner column. */
  const SWEPT: seq<(string, string)> :=
    [("generation_sessions", "user_id"), ("store_generation_sessions", "store_id")]

  const RESTART_MESSAGE: string := "Worker restarted \U{2014} job did not complete"

  const RESTART_UPDATE: SessionUpdate := SessionUpdate(Failed, None, Some(RESTART_MESSAGE))

  /** Which calls of the sweep raise: the listing of a table, and the failed write or the
      refund of a row, by `(table, id)`. */
  datatype SweepScript = SweepScript(
    selectFails: set<string>,
    writeFails: set<(string, string)>,
    refundFails: set<(string, string)>)

  function OutcomeOf(raises: bool): Outcome {
    if raises then Raises else Succeeds
  }

  /** Marks the listed rows failed and refunds each owner, row by row in listing order; the
      first call that raises ends the table's sweep. */
  function SweepRows(w: World, table: string, field: string, rows: seq<Row>, sc: SweepScript): (r: World)
    ensures r.storage == w.storage && r.tables.Keys == w.tables.Keys
    ensures w.refunds <= r.refunds && |r.refunds| <= |w.refunds| + |rows|
    ensures w.calls <= r.calls
    decreases |rows|
  {
    if rows == [] then w
    else
      var r := rows[0];
      var w1 := Updated(w, table, r.id, RESTART_UPDATE, OutcomeOf((table, r.id) in sc.writeFails));
      if (table, r.id) in sc.writeFails then w1
      else if !Truthy(r.owner) then SweepRows(w1, table, field, rows[1..], sc)
      else
        var w2 := Refunded(w1, "p_" + field, r.owner.value, REFUND_AMOUNT, OutcomeOf((table, r.id) in sc.refundFails));
        if (table, r.id) in sc.refundFails then w2 else SweepRows(w2, table, field, rows[1..], sc)
  }

  /** Lists the table's in-flight rows, then sweeps them; a listing that raises ends the
      table's sweep. */
  function SweepTable(w: World, table: string, field: string, rows: seq<Row>, sc: SweepScript): (r: World)
    ensures r.storage == w.storage && r.tables.Keys == w.tables.Keys
    ensures w.refunds <= r.refunds && |r.refunds| <= |w.refunds| + |rows|
    ensures |r.calls| > |w.calls| && r.calls[..|w.calls| + 1] == w.calls + [SelectInFlight(table, field)]
    ensures table in sc.selectFails || table !in w.tables ==> r.tables == w.tables && r.refunds == w.refunds
  {
    var w1 := Logged(w, SelectInFlight(table, field));
    if table in sc.selectFails || table !in w.tables then w1
    else SweepRows(w1, table, field, rows, sc)
  }

  /** The first `|listings|` tables of `SWEPT` swept in order, the k-th with `listings[k]`. */
  function Cleanup(w: World, listings: seq<seq<Row>>, sc: SweepScript): (r: World)
    requires |listings| <= |SWEPT|
    ensures r.storage == w.storage && r.tables.Keys == w.tables.Keys
    ensures w.refunds <= r.refunds && w.calls <= r.calls
    ensures |r.calls| >= |w.calls| + |listings|
    decreases |listings|
  {
    if listings == [] then w
    else
      var k := |listings| - 1;
      SweepTable(Cleanup(w, listings[..k], sc), SWEPT[k].0, SWEPT[k].1, listings[k], sc)
  }

  /** `rows` is a listing of `table`'s in-flight rows in `w`, when listing the table does
      not raise (when it raises, the rows are never used). */
  predicate ListingOf(w: World, table: string, rows: seq<Row>, sc: SweepScript) {
    table in w.tables && table !in sc.selectFails ==> IsListing(w.tables[table], rows)
  }

  /** Each `listings[k]` lists table `SWEPT[k]` as it stood when its sweep began. */
  predicate Listings(w: World, listings: seq<seq<Row>>, sc: SweepScript)
    requires |listings| <= |SWEPT|
    decreases |listings|
  {
    listings != [] ==>
      var k := |listings| - 1;
      Listings(w, listings[..k], sc) && ListingOf(Cleanup(w, listings[..k], sc), SWEPT[k].0, listings[k], sc)
  }

  /** `cur` is the world after sweeping the first `|listings|` tables, each with a listing of
      the table as it stood when its sweep began. */
  predicate SweptSoFar(w: World, listings: seq<seq<Row>>, cur: World, sc: SweepScript) {
    |listings| <= |SWEPT| && Listings(w, listings, sc) && cur == Cleanup(w, listings, sc)
  }

  lemma CleanupStep(w: World, listings: seq<seq<Row>>, before: World, rows: seq<Row>, after: World, sc: SweepScript)
    requires |listings| < |SWEPT| && SweptSoFar(w, listings, before, sc)
    requires ListingOf(before, SWEPT[|listings|].0, rows, sc)
    requires after == SweepTable(before, SWEPT[|listings|].0, SWEPT[|listings|].1, rows, sc)
    ensures SweptSoFar(w, listings + [rows], after, sc)
  {
    assert (listings + [rows])[..|listings|] == listings;
  }

  // ---------------------------------------------------------------------------------------
  // The sweep over a Backend.

  method SweepListed(b: Backend, table: string, field: string, rows: seq<Row>, sc: SweepScript)
    modifies b
    ensures b.State() == SweepRows(old(b.State()), table, field, rows, sc)
  {
    var i := 0;
    while i < |rows|
      invariant 0 <= i <= |rows|
      invariant SweepRows(old(b.State()), table, field, rows, sc) == SweepRows(b.State(), table, field, rows[i..], sc)
    {
      var session := rows[i];
      var raised := b.Update(table, session.id, RESTART_UPDATE, OutcomeOf((table, session.id) in sc.writeFails));
      if raised {
        return;
      }
      var owner := session.owner;
      if owner.Some? && owner.value != "" {
        raised := b.RequestRefund("p_" + field, owner.value, REFUND_AMOUNT, OutcomeOf((table, session.id) in sc.refundFails));
        if raised {
          return;
        }
      }
      i := i + 1;
    }
  }

  /** One table's guarded block: list its in-flight rows, then sweep them. */
  method SweepStuck(b: Backend, table: string, field: string, sc: SweepScript) returns (ghost stuck: seq<Row>)
    modifies b
    ensures ListingOf(old(b.State()), table, stuck, sc)
    ensures b.State() == SweepTable(old(b.State()), table, field, stuck, sc)
  {
    var rows, raised := b.ListInFlight(table, field, OutcomeOf(table in sc.selectFails));
    if !raised {
      SweepListed(b, table, field, rows, sc);
    }
    stuck := rows;
  }

  /** `cleanup_stuck_sessions()`. */
  method CleanupStuckSessions(b: Backend, sc: SweepScript) returns (ghost listings: seq<seq<Row>>)
    modifies b
    ensures |listings| == |SWEPT|
    ensures Listings(old(b.State()), listings, sc)
    ensures b.State() == Cleanup(old(b.State()), listings, sc)
  {
    ghost var w0 := b.State();
    listings := [];
    var k := 0;
    while k < |SWEPT|
      invariant k == |listings| && SweptSoFar(w0, listings, b.State(), sc)
    {
      var table, field := SWEPT[k].0, SWEPT[k].1;
      ghost var before := b.State();
      var stuck := SweepStuck(b, table, field, sc);
      CleanupStep(w0, listings, before, stuck, b.State(), sc);
      listings := listings + [stuck];
      k := k + 1;
    }
  }

  // ---------------------------------------------------------------------------------------
  // Properties of the sweep.

  /** The calls one listed row gets: its failed write, then its owner's refund when the owner
      id is present and non-empty. */
  function RowCalls(table: string, field: string, r: Row): seq<Call> {
    [UpdateSession(table, r.id, RESTART_UPDATE)]
    + (if Truthy(r.owner) then [RefundCredits(Refund("p_" + field, r.owner.value, REFUND_AMOUNT))] else [])
  }

  function RowsCalls(table: string, field: string, rows: seq<Row>): seq<Call>
    decreases |rows|
  {
    if rows == [] then [] else RowCalls(table, field, rows[0]) + RowsCalls(table, field, rows[1..])
  }

  /** One refund per listed row whose owner id is present and non-empty, in listing order. */
  function OwnerRefunds(field: string, rows: seq<Row>): seq<Refund>
    decreases |rows|
  {
    if rows == [] then []
    else
      (if Truthy(rows[0].owner) then [Refund("p_" + field, rows[0].owner.value, REFUND_AMOUNT)] else [])
      + OwnerRefunds(field, rows[1..])
  }

  /** Neither call made for row `r` raises. */
  predicate RowDone(table: string, r: Row, sc: SweepScript) {
    (table, r.id) !in sc.writeFails && (Truthy(r.owner) ==> (table, r.id) !in sc.refundFails)
  }

  predicate RowsDone(table: string, rows: seq<Row>, sc: SweepScript) {
    forall i :: 0 <= i < |rows| ==> RowDone(table, rows[i], sc)
  }

  /** Only rows of `table` whose ids are in `ids` may differ. */
  predicate OnlyTableChanged(before: map<string, Table>, after: map<string, Table>, table: string, ids: set<string>) {
    && before.Keys == after.Keys
    && (forall t :: t in before && t != table ==> after[t] == before[t])
    && (table in before ==>
          && after[table].Keys == before[table].Keys
          && forall id :: id in before[table] && id !in ids ==> after[table][id] == before[table][id])
  }

  lemma ExtendsPrepend(p: seq<Call>, x: seq<Call>, y: seq<Call>)
    requires Extends(x, y)
    ensures Extends(p + x, p + y)
  {
    assert (p + y)[..|p + x|] == p + y[..|x|];
  }

  /** The calls made for one row, and the world after them when neither raises. */
  function RowDoneWorld(w: World, table: string, field: string, r: Row): World {
    var w1 := Updated(w, table, r.id, RESTART_UPDATE, Succeeds);
    if Truthy(r.owner) then Refunded(w1, "p_" + field, r.owner.value, REFUND_AMOUNT, Succeeds) else w1
  }

  lemma RowsDoneTail(table: string, rows: seq<Row>, sc: SweepScript)
    requires rows != [] && RowsDone(table, rows, sc)
    ensures RowDone(table, rows[0], sc) && RowsDone(table, rows[1..], sc)
  {
    forall i | 0 <= i < |rows[1..]| ensures RowDone(table, rows[1..][i], sc) {
      assert rows[1..][i] == rows[i + 1];
    }
  }

  /** Sweeping rows touches no storage; its calls follow the listing, row by row, each
      failed write before its refund, and stop at the first call that raises. */
  lemma {:induction false} SweepRowsLog(w: World, table: string, field: string, rows: seq<Row>, sc: SweepScript)
    ensures var res := SweepRows(w, table, field, rows, sc);
            && res.storage == w.storage
            && Extends(w.calls, res.calls)
            && Extends(res.calls[|w.calls|..], RowsCalls(table, field, rows))
    decreases |rows|
  {
    if rows != [] {
      var rc := RowCalls(table, field, rows[0]);
      assert RowsCalls(table, field, rows) == rc + RowsCalls(table, field, rows[1..]);
      if !RowDone(table, rows[0], sc) {
        SweepRowsStopped(w, table, field, rows, sc);
        var res := SweepRows(w, table, field, rows, sc);
        assert RowsCalls(table, field, rows)[..|rc|] == rc;
        ExtendsTrans(res.calls[|w.calls|..], rc, RowsCalls(table, field, rows));
      } else {
        SweepRowsStep(w, table, field, rows, sc);
        var wn := RowDoneWorld(w, table, field, rows[0]);
        SweepRowsLog(wn, table, field, rows[1..], sc);
        LogAfterPrefix(w.calls, rc, SweepRows(wn, table, field, rows[1..], sc).calls,
                       RowsCalls(table, field, rows[1..]));
      }
    }
  }

  /** A log that first grows by `rc` and then by calls following `rest` grows by calls
      following `rc + rest`. */
  lemma LogAfterPrefix(log: seq<Call>, rc: seq<Call>, res: seq<Call>, rest: seq<Call>)
    requires Extends(log + rc, res) && Extends(res[|log + rc|..], rest)
    ensures Extends(log, res) && Extends(res[|log|..], rc + rest)
  {
    assert res[|log|..] == rc + res[|log + rc|..];
    ExtendsPrepend(rc, res[|log + rc|..], rest);
  }

  /** A row one of whose calls raises ends the sweep after a prefix of its own calls. */
  lemma SweepRowsStopped(w: World, table: string, field: string, rows: seq<Row>, sc: SweepScript)
    requires rows != [] && !RowDone(table, rows[0], sc)
    ensures var res := SweepRows(w, table, field, rows, sc);
            && res.storage == w.storage
            && Extends(w.calls, res.calls)
            && Extends(res.calls[|w.calls|..], RowCalls(table, field, rows[0]))
  {
    var r := rows[0];
    var res := SweepRows(w, table, field, rows, sc);
    var write := UpdateSession(table, r.id, RESTART_UPDATE);
    if (table, r.id) in sc.writeFails {
      assert res.calls == w.calls + [write];
      assert res.calls[|w.calls|..] == [write];
    } else {
      assert res.calls[|w.calls|..] == RowCalls(table, field, r);
    }
  }

  /** When no call raises, every listed row gets its calls and every owner its refund. */
  lemma {:induction false} SweepRowsAllDone(w: World, table: string, field: string, rows: seq<Row>, sc: SweepScript)
    requires RowsDone(table, rows, sc)
    ensures var res := SweepRows(w, table, field, rows, sc);
            && res.calls == w.calls + RowsCalls(table, field, rows)
            && res.refunds == w.refunds + OwnerRefunds(field, rows)
    decreases |rows|
  {
    if rows != [] {
      var r := rows[0];
      RowsDoneTail(table, rows, sc);
      SweepRowsStep(w, table, field, rows, sc);
      var wn := RowDoneWorld(w, table, field, r);
      SweepRowsAllDone(wn, table, field, rows[1..], sc);
      assert RowsCalls(table, field, rows) == RowCalls(table, field, r) + RowsCalls(table, field, rows[1..]);
      ConcatAssoc(w.calls, RowCalls(table, field, r), RowsCalls(table, field, rows[1..]));
      ConcatAssoc(w.refunds, if Truthy(r.owner) then [Refund("p_" + field, r.owner.value, REFUND_AMOUNT)] else [],
                  OwnerRefunds(field, rows[1..]));
    }
  }

  /** A row whose calls both succeed is followed by the sweep of the rest. */
  lemma SweepRowsStep(w: World, table: string, field: string, rows: seq<Row>, sc: SweepScript)
    requires rows != [] && RowDone(table, rows[0], sc)
    ensures SweepRows(w, table, field, rows, sc) == SweepRows(RowDoneWorld(w, table, field, rows[0]), table, field, rows[1..], sc)
    ensures var r := rows[0];
            var first := if Truthy(r.owner) then [Refund("p_" + field, r.owner.value, REFUND_AMOUNT)] else [];
            && RowDoneWorld(w, table, field, r).calls == w.calls + RowCalls(table, field, r)
            && RowDoneWorld(w, table, field, r).refunds == w.refunds + first
            && OwnerRefunds(field, rows) == first + OwnerRefunds(field, rows[1..])
  {
  }

  lemma OnlyTableChangedTrans(a: map<string, Table>, b: map<string, Table>, c: map<string, Table>,
                              table: string, s1: set<string>, s2: set<string>)
    requires OnlyTableChanged(a, b, table, s1) && OnlyTableChanged(b, c, table, s2)
    ensures OnlyTableChanged(a, c, table, s1 + s2)
  {
  }

  /** Ids of the listed rows whose owner id is present and non-empty. */
  function OwnedIds(rows: seq<Row>): set<string> {
    set r | r in rows && Truthy(r.owner) :: r.id
  }

  /** The in-flight rows of `tbl` whose owner id is present and non-empty. */
  function StuckOwned(tbl: Table): set<string> {
    set id | id in tbl && InFlight(tbl[id].status) && Truthy(tbl[id].owner)
  }

  /** The rest of a listing with distinct ids has distinct ids, none of them the first's. */
  lemma DistinctTail(rows: seq<Row>)
    requires DistinctIds(rows) && rows != []
    ensures DistinctIds(rows[1..])
    ensures forall q :: q in rows[1..] ==> q.id != rows[0].id
  {
    forall a, b | 0 <= a < b < |rows[1..]| ensures rows[1..][a].id != rows[1..][b].id {
      assert rows[1..][a] == rows[a + 1] && rows[1..][b] == rows[b + 1];
    }
    forall q | q in rows[1..] ensures q.id != rows[0].id {
      var a :| 0 <= a < |rows[1..]| && rows[1..][a] == q;
      assert rows[a + 1] == q;
    }
  }

  lemma RowIdsCons(rows: seq<Row>)
    requires rows != []
    ensures RowIds(rows) == {rows[0].id} + RowIds(rows[1..])
    ensures OwnedIds(rows) == (if Truthy(rows[0].owner) then {rows[0].id} else {}) + OwnedIds(rows[1..])
  {
    assert rows == [rows[0]] + rows[1..];
    forall x ensures x in RowIds(rows) <==> x == rows[0].id || x in RowIds(rows[1..]) {
      if x in RowIds(rows) {
        var q :| q in rows && q.id == x;
      }
      if x in RowIds(rows[1..]) {
        var q :| q in rows[1..] && q.id == x;
      }
    }
    forall x ensures x in OwnedIds(rows) <==> (Truthy(rows[0].owner) && x == rows[0].id) || x in OwnedIds(rows[1..]) {
      if x in OwnedIds(rows) {
        var q :| q in rows && Truthy(q.owner) && q.id == x;
      }
      if x in OwnedIds(rows[1..]) {
        var q :| q in rows[1..] && Truthy(q.owner) && q.id == x;
      }
    }
  }

  lemma IdsOfRows(rows: seq<Row>)
    ensures forall q :: q in rows ==> q.id in RowIds(rows)
    ensures forall x :: x in RowIds(rows) ==> exists q :: q in rows && q.id == x
    ensures forall x :: x in OwnedIds(rows) ==> exists q :: q in rows && q.id == x
  {
  }

  /** Sweeping rows changes only the listed rows of its own table. */
  lemma {:induction false} SweepRowsFrame(w: World, table: string, field: string, rows: seq<Row>, sc: SweepScript)
    ensures OnlyTableChanged(w.tables, SweepRows(w, table, field, rows, sc).tables, table, RowIds(rows))
    decreases |rows|
  {
    if rows != [] {
      var r := rows[0];
      var w1 := Updated(w, table, r.id, RESTART_UPDATE, OutcomeOf((table, r.id) in sc.writeFails));
      assert OnlyTableChanged(w.tables, w1.tables, table, {r.id});
      RowIdsCons(rows);
      if (table, r.id) !in sc.writeFails {
        var wn := if Truthy(r.owner)
                  then Refunded(w1, "p_" + field, r.owner.value, REFUND_AMOUNT, OutcomeOf((table, r.id) in sc.refundFails))
                  else w1;
        if !(Truthy(r.owner) && (table, r.id) in sc.refundFails) {
          SweepRowsFrame(wn, table, field, rows[1..], sc);
          OnlyTableChangedTrans(w.tables, wn.tables, SweepRows(w, table, field, rows, sc).tables,
                                table, {r.id}, RowIds(rows[1..]));
        }
      }
    }
  }

  /** A listed row whose own failed write is reached and succeeds ends failed with the restart
      message, whatever happens to the rows after it. */
  lemma {:induction false} SweepRowsMarks(w: World, table: string, field: string, rows: seq<Row>, sc: SweepScript, j: nat)
    requires DistinctIds(rows) && j < |rows|
    requires forall i :: 0 <= i < j ==> RowDone(table, rows[i], sc)
    requires (table, rows[j].id) !in sc.writeFails
    requires table in w.tables && rows[j].id in w.tables[table]
    ensures var res := SweepRows(w, table, field, rows, sc);
            && table in res.tables && rows[j].id in res.tables[table]
            && res.tables[table][rows[j].id] == Apply(w.tables[table][rows[j].id], RESTART_UPDATE)
    decreases |rows|
  {
    var r := rows[0];
    var res := SweepRows(w, table, field, rows, sc);
    var w1 := Updated(w, table, r.id, RESTART_UPDATE, OutcomeOf((table, r.id) in sc.writeFails));
    var wn := if Truthy(r.owner)
              then Refunded(w1, "p_" + field, r.owner.value, REFUND_AMOUNT, OutcomeOf((table, r.id) in sc.refundFails))
              else w1;
    DistinctTail(rows);
    if j == 0 {
      if !(Truthy(r.owner) && (table, r.id) in sc.refundFails) {
        SweepRowsFrame(wn, table, field, rows[1..], sc);
        IdsOfRows(rows[1..]);
      }
    } else {
      assert RowDone(table, r, sc);
      assert rows[1..][j - 1] == rows[j];
      assert rows[j].id != r.id;
      SweepRowsMarks(wn, table, field, rows[1..], sc, j - 1);
    }
  }

  /** With distinct ids, there is one owner refund per owned row. */
  lemma {:induction false} OwnerRefundsCount(field: string, rows: seq<Row>)
    requires DistinctIds(rows)
    ensures |OwnerRefunds(field, rows)| == |OwnedIds(rows)|
    decreases |rows|
  {
    if rows != [] {
      DistinctTail(rows);
      OwnerRefundsCount(field, rows[1..]);
      RowIdsCons(rows);
      IdsOfRows(rows[1..]);
      assert rows[0].id !in OwnedIds(rows[1..]);
    }
  }

  /** A listing's owned rows are exactly the table's in-flight rows with an owner. */
  lemma ListingOwned(tbl: Table, rows: seq<Row>)
    requires IsListing(tbl, rows)
    ensures OwnedIds(rows) == StuckOwned(tbl)
  {
    forall x ensures x in OwnedIds(rows) <==> x in StuckOwned(tbl) {
      if x in OwnedIds(rows) {
        var q :| q in rows && Truthy(q.owner) && q.id == x;
        assert x in RowIds(rows);
      }
      if x in StuckOwned(tbl) {
        assert x in InFlightIds(tbl);
        var q :| q in rows && q.id == x;
      }
    }
  }

  /** What a row sweep leaves in its own table depends only on that table. */
  lemma {:induction false} SweepRowsSameTable(w: World, v: World, table: string, field: string, rows: seq<Row>, sc: SweepScript)
    requires table in w.tables && table in v.tables && w.tables[table] == v.tables[table]
    ensures var a := SweepRows(w, table, field, rows, sc);
            var b := SweepRows(v, table, field, rows, sc);
            table in a.tables && table in b.tables && a.tables[table] == b.tables[table]
    decreases |rows|
  {
    if rows != [] {
      var r := rows[0];
      var o := OutcomeOf((table, r.id) in sc.writeFails);
      var w1 := Updated(w, table, r.id, RESTART_UPDATE, o);
      var v1 := Updated(v, table, r.id, RESTART_UPDATE, o);
      assert w1.tables[table] == v1.tables[table];
      if (table, r.id) !in sc.writeFails {
        var ro := OutcomeOf((table, r.id) in sc.refundFails);
        var wn := if Truthy(r.owner) then Refunded(w1, "p_" + field, r.owner.value, REFUND_AMOUNT, ro) else w1;
        var vn := if Truthy(r.owner) then Refunded(v1, "p_" + field, r.owner.value, REFUND_AMOUNT, ro) else v1;
        assert wn.tables == w1.tables && vn.tables == v1.tables;
        if !(Truthy(r.owner) && (table, r.id) in sc.refundFails) {
          SweepRowsSameTable(wn, vn, table, field, rows[1..], sc);
        }
      }
    }
  }

  /** The ids of `table`'s in-flight rows in `w`, none when there is no such table. */
  function StuckIds(w: World, table: string): set<string> {
    if table in w.tables then InFlightIds(w.tables[table]) else {}
  }

  /** The calls of one table's sweep: the listing, then a prefix of its rows' calls. */
  predicate TableLog(log: seq<Call>, table: string, field: string, rows: seq<Row>) {
    |log| >= 1 && log[0] == SelectInFlight(table, field) && Extends(log[1..], RowsCalls(table, field, rows))
  }

  /** Sweeping one table lists it first, touches no storage, and changes only its own
      in-flight rows; a listing that raises, or an unknown table, ends the sweep with nothing
      changed but the listing call. */
  lemma SweepTableEffects(w: World, table: string, field: string, rows: seq<Row>, sc: SweepScript)
    requires ListingOf(w, table, rows, sc)
    ensures var res := SweepTable(w, table, field, rows, sc);
            && res.storage == w.storage
            && Extends(w.calls, res.calls)
            && TableLog(res.calls[|w.calls|..], table, field, rows)
            && OnlyTableChanged(w.tables, res.tables, table, StuckIds(w, table))
            && (table in sc.selectFails || table !in w.tables ==> res == Logged(w, SelectInFlight(table, field)))
  {
    var w1 := Logged(w, SelectInFlight(table, field));
    var res := SweepTable(w, table, field, rows, sc);
    if table in sc.selectFails || table !in w.tables {
      assert res.calls[|w.calls|..] == [SelectInFlight(table, field)];
      assert res.calls[|w.calls|..][1..] == [];
    } else {
      SweepRowsLog(w1, table, field, rows, sc);
      SweepRowsFrame(w1, table, field, rows, sc);
      ExtendsTrans(w.calls, w1.calls, res.calls);
      assert res.calls[|w.calls|..][1..] == res.calls[|w1.calls|..];
      assert res.calls[|w.calls|..][0] == res.calls[|w1.calls| - 1];
    }
  }

  /** With no call raising, every row the listing names ends failed with the restart message. */
  lemma SweepRowsMarksAll(w: World, table: string, field: string, rows: seq<Row>, sc: SweepScript)
    requires table in w.tables && IsListing(w.tables[table], rows) && RowsDone(table, rows, sc)
    ensures var res := SweepRows(w, table, field, rows, sc);
            && table in res.tables
            && forall id :: id in InFlightIds(w.tables[table]) ==>
                 id in res.tables[table] && res.tables[table][id] == Apply(w.tables[table][id], RESTART_UPDATE)
  {
    var res := SweepRows(w, table, field, rows, sc);
    SweepRowsFrame(w, table, field, rows, sc);
    forall id | id in InFlightIds(w.tables[table])
      ensures id in res.tables[table] && res.tables[table][id] == Apply(w.tables[table][id], RESTART_UPDATE)
    {
      IdsOfRows(rows);
      var q :| q in rows && q.id == id;
      var j :| 0 <= j < |rows| && rows[j] == q;
      SweepRowsMarks(w, table, field, rows, sc, j);
    }
  }

  /** A table swept with no call raising: it is listed, then each listed row gets its failed
      write and its owner's refund; afterwards no row of the table is in flight, every row that
      was is failed with the restart message, and one refund was given per in-flight row with
      an owner. */
  lemma SweepTableClean(w: World, table: string, field: string, rows: seq<Row>, sc: SweepScript)
    requires table in w.tables && table !in sc.selectFails
    requires IsListing(w.tables[table], rows) && RowsDone(table, rows, sc)
    ensures var res := SweepTable(w, table, field, rows, sc);
            && res.calls == w.calls + [SelectInFlight(table, field)] + RowsCalls(table, field, rows)
            && res.refunds == w.refunds + OwnerRefunds(field, rows)
            && |res.refunds| == |w.refunds| + |StuckOwned(w.tables[table])|
            && table in res.tables && InFlightIds(res.tables[table]) == {}
            && forall id :: id in InFlightIds(w.tables[table]) ==>
                 id in res.tables[table] && res.tables[table][id] == Apply(w.tables[table][id], RESTART_UPDATE)
  {
    var w1 := Logged(w, SelectInFlight(table, field));
    var res := SweepTable(w, table, field, rows, sc);
    SweepRowsAllDone(w1, table, field, rows, sc);
    OwnerRefundsCount(field, rows);
    ListingOwned(w.tables[table], rows);
    SweepRowsMarksAll(w1, table, field, rows, sc);
    SweepRowsFrame(w1, table, field, rows, sc);
    var before, after := w.tables[table], res.tables[table];
    forall id | id in after ensures !InFlight(after[id].status) {
      if id !in InFlightIds(before) {
        assert id !in RowIds(rows);
      }
    }
  }

  /** The whole sweep: the first table, then the second on what the first left. */
  lemma CleanupUnfold(w: World, listings: seq<seq<Row>>, sc: SweepScript)
    requires |listings| == |SWEPT|
    ensures var mid := SweepTable(w, SWEPT[0].0, SWEPT[0].1, listings[0], sc);
            && Cleanup(w, listings[..1], sc) == mid
            && Cleanup(w, listings, sc) == SweepTable(mid, SWEPT[1].0, SWEPT[1].1, listings[1], sc)
            && (Listings(w, listings, sc) <==>
                  ListingOf(w, SWEPT[0].0, listings[0], sc) && ListingOf(mid, SWEPT[1].0, listings[1], sc))
  {
    assert listings[..1][..0] == [];
    assert listings[..1][0] == listings[0];
    assert Listings(w, listings[..1][..0], sc) && Cleanup(w, listings[..1][..0], sc) == w;
  }

  /** Each table ends as if it alone had been swept: a failure in the first table's sweep does
      not affect the second, and the second table's listing is a listing of it as it stood
      before the sweep began. Storage and every other table are untouched, and the calls are
      the first table's listing and row calls, then the second's. */
  lemma CleanupIsolation(w: World, listings: seq<seq<Row>>, sc: SweepScript)
    requires |listings| == |SWEPT| && Listings(w, listings, sc)
    ensures var res := Cleanup(w, listings, sc);
            && res.storage == w.storage
            && res.tables.Keys == w.tables.Keys
            && (forall t :: t in w.tables && t != SWEPT[0].0 && t != SWEPT[1].0 ==> res.tables[t] == w.tables[t])
            && forall k :: 0 <= k < |SWEPT| ==>
                 var alone := SweepTable(w, SWEPT[k].0, SWEPT[k].1, listings[k], sc);
                 && ListingOf(w, SWEPT[k].0, listings[k], sc)
                 && (SWEPT[k].0 in w.tables ==>
                       SWEPT[k].0 in alone.tables && res.tables[SWEPT[k].0] == alone.tables[SWEPT[k].0])
  {
    var t0, f0, t1, f1 := SWEPT[0].0, SWEPT[0].1, SWEPT[1].0, SWEPT[1].1;
    CleanupUnfold(w, listings, sc);
    var mid := SweepTable(w, t0, f0, listings[0], sc);
    var res := Cleanup(w, listings, sc);
    var alone := SweepTable(w, t1, f1, listings[1], sc);
    SweepTableEffects(w, t0, f0, listings[0], sc);
    assert t1 in mid.tables <==> t1 in w.tables;
    assert t1 in w.tables ==> mid.tables[t1] == w.tables[t1];
    assert ListingOf(w, t1, listings[1], sc);
    SweepTableEffects(mid, t1, f1, listings[1], sc);
    assert t1 in w.tables ==> res.tables[t1] == alone.tables[t1] by {
      if t1 in w.tables && t1 !in sc.selectFails {
        SweepRowsSameTable(Logged(mid, SelectInFlight(t1, f1)), Logged(w, SelectInFlight(t1, f1)), t1, f1, listings[1], sc);
      }
    }
    assert t0 in w.tables ==> res.tables[t0] == mid.tables[t0];
    forall k | 0 <= k < |SWEPT|
      ensures var alone := SweepTable(w, SWEPT[k].0, SWEPT[k].1, listings[k], sc);
              && ListingOf(w, SWEPT[k].0, listings[k], sc)
              && (SWEPT[k].0 in w.tables ==>
                    SWEPT[k].0 in alone.tables && res.tables[SWEPT[k].0] == alone.tables[SWEPT[k].0])
    {
      if k == 1 {
        assert SWEPT[k] == (t1, f1);
      } else {
        assert SWEPT[k] == (t0, f0);
      }
    }
  }

  /** The sweep's calls: the first table's listing and a prefix of its row calls, then the
      second table's. */
  lemma CleanupLog(w: World, listings: seq<seq<Row>>, sc: SweepScript)
    requires |listings| == |SWEPT| && Listings(w, listings, sc)
    ensures var mid := Cleanup(w, listings[..1], sc);
            var res := Cleanup(w, listings, sc);
            && Extends(w.calls, mid.calls) && Extends(mid.calls, res.calls)
            && TableLog(res.calls[|w.calls|..|mid.calls|], SWEPT[0].0, SWEPT[0].1, listings[0])
            && TableLog(res.calls[|mid.calls|..], SWEPT[1].0, SWEPT[1].1, listings[1])
  {
    CleanupUnfold(w, listings, sc);
    var mid := Cleanup(w, listings[..1], sc);
    var res := Cleanup(w, listings, sc);
    SweepTableEffects(w, SWEPT[0].0, SWEPT[0].1, listings[0], sc);
    SweepTableEffects(mid, SWEPT[1].0, SWEPT[1].1, listings[1], sc);
    assert res.calls[|w.calls|..|mid.calls|] == mid.calls[|w.calls|..];
  }

  /** No call fails. */
  predicate NothingRaises(sc: SweepScript) {
    sc.selectFails == {} && sc.writeFails == {} && sc.refundFails == {}
  }

  /** A sweep in which no call raises leaves no session in flight in either table, fails every
      session that was with the restart message, and gives one refund per in-flight session
      with an owner; its calls are each table's listing followed by its rows' calls. */
  lemma CleanSweep(w: World, listings: seq<seq<Row>>, sc: SweepScript)
    requires |listings| == |SWEPT| && Listings(w, listings, sc) && NothingRaises(sc)
    requires SWEPT[0].0 in w.tables && SWEPT[1].0 in w.tables
    ensures var res := Cleanup(w, listings, sc);
            && res.calls == w.calls + [SelectInFlight(SWEPT[0].0, SWEPT[0].1)] + RowsCalls(SWEPT[0].0, SWEPT[0].1, listings[0])
                                    + [SelectInFlight(SWEPT[1].0, SWEPT[1].1)] + RowsCalls(SWEPT[1].0, SWEPT[1].1, listings[1])
            && |res.refunds| == |w.refunds| + |StuckOwned(w.tables[SWEPT[0].0])| + |StuckOwned(w.tables[SWEPT[1].0])|
            && forall k :: 0 <= k < |SWEPT| ==>
                 var table := SWEPT[k].0;
                 && table in res.tables
                 && InFlightIds(res.tables[table]) == {}
                 && forall id :: id in InFlightIds(w.tables[table]) ==>
                      id in res.tables[table] && res.tables[table][id] == Apply(w.tables[table][id], RESTART_UPDATE)
  {
    CleanSweepCalls(w, listings, sc);
    CleanSweepTables(w, listings, sc);
  }

  lemma CleanSweepCalls(w: World, listings: seq<seq<Row>>, sc: SweepScript)
    requires |listings| == |SWEPT| && Listings(w, listings, sc) && NothingRaises(sc)
    requires SWEPT[0].0 in w.tables && SWEPT[1].0 in w.tables
    ensures var res := Cleanup(w, listings, sc);
            && res.calls == w.calls + [SelectInFlight(SWEPT[0].0, SWEPT[0].1)] + RowsCalls(SWEPT[0].0, SWEPT[0].1, listings[0])
                                    + [SelectInFlight(SWEPT[1].0, SWEPT[1].1)] + RowsCalls(SWEPT[1].0, SWEPT[1].1, listings[1])
            && |res.refunds| == |w.refunds| + |StuckOwned(w.tables[SWEPT[0].0])| + |StuckOwned(w.tables[SWEPT[1].0])|
  {
    var t0, f0, t1, f1 := SWEPT[0].0, SWEPT[0].1, SWEPT[1].0, SWEPT[1].1;
    CleanupUnfold(w, listings, sc);
    var mid := SweepTable(w, t0, f0, listings[0], sc);
    SweepTableEffects(w, t0, f0, listings[0], sc);
    assert mid.tables[t1] == w.tables[t1];
    SweepTableClean(w, t0, f0, listings[0], sc);
    SweepTableClean(mid, t1, f1, listings[1], sc);
  }

  lemma CleanSweepTables(w: World, listings: seq<seq<Row>>, sc: SweepScript)
    requires |listings| == |SWEPT| && Listings(w, listings, sc) && NothingRaises(sc)
    requires SWEPT[0].0 in w.tables && SWEPT[1].0 in w.tables
    ensures var res := Cleanup(w, listings, sc);
            forall k :: 0 <= k < |SWEPT| ==>
              var table := SWEPT[k].0;
              && table in res.tables
              && InFlightIds(res.tables[table]) == {}
              && forall id :: id in InFlightIds(w.tables[table]) ==>
                   id in res.tables[table] && res.tables[table][id] == Apply(w.tables[table][id], RESTART_UPDATE)
  {
    var res := Cleanup(w, listings, sc);
    CleanupIsolation(w, listings, sc);
    forall k | 0 <= k < |SWEPT|
      ensures var table := SWEPT[k].0;
              && table in res.tables
              && InFlightIds(res.tables[table]) == {}
              && forall id :: id in InFlightIds(w.tables[table]) ==>
                   id in res.tables[table] && res.tables[table][id] == Apply(w.tables[table][id], RESTART_UPDATE)
    {
      SweepTableClean(w, SWEPT[k].0, SWEPT[k].1, listings[k], sc);
    }
  }

  /** The reconciler sweeps exactly the handler's session tables, each with the owner column
      the handler refunds by, and refunds through the same owner parameter. */
  lemma HandlerTablesAreSwept()
    ensures forall c: Channel :: exists k :: 0 <= k < |SWEPT| && SWEPT[k] == (Tasks.SessionTable(c), Tasks.CreditIdField(c))
    ensures forall k :: 0 <= k < |SWEPT| ==>
              exists c: Channel :: SWEPT[k] == (Tasks.SessionTable(c), Tasks.CreditIdField(c)) && "p_" + SWEPT[k].1 == Tasks.CreditParam(c)
  {
    assert SWEPT[0] == (Tasks.SessionTable(B2C), Tasks.CreditIdField(B2C));
    assert SWEPT[1] == (Tasks.SessionTable(B2B), Tasks.CreditIdField(B2B));
  }
}
