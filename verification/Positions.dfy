/**
 Position replacement is exact: afterwards the open rows of the connection are the broker's positions,
 row for row, and everything else was closed or left alone. Repeating it changes nothing but times.
 */
module Positions {
  import opened Common
  import opened ExecutionDomain
  import opened Transactions
  import opened Ledger

  // ----- what a list of snapshots asks for

  /** The snapshot is the last one listed under its key: it overwrites the earlier ones. */
  ghost predicate LastOf(snapshots: seq<PositionSnapshot>, i: int) {
    0 <= i < |snapshots| && forall j :: i < j < |snapshots| ==> snapshots[j].key != snapshots[i].key
  }

  /** No key without a row is listed twice: two inserts under one key break the unique constraint. */
  ghost predicate Insertable(positions: map<Id, Position>, conn: Id, snapshots: seq<PositionSnapshot>) {
    forall i, j :: 0 <= i < j < |snapshots| && snapshots[i].key == snapshots[j].key ==>
      HasRow(positions, conn, snapshots[i].key)
  }

  ghost predicate Listed(snapshots: seq<PositionSnapshot>, key: PositionKey) {
    exists i :: 0 <= i < |snapshots| && snapshots[i].key == key
  }

  /** The row shows the snapshot: same key, open, same terms. */
  predicate Shows(row: Position, conn: Id, snapshot: PositionSnapshot, at: Time) {
    && row.connectionId == conn
    && row.key == snapshot.key
    && row.state == PositionState.Open
    && row.terms == snapshot.terms
    && row.closedAt == None
    && row.lastReconciledAt == at
  }

  ghost predicate Shown(positions: map<Id, Position>, conn: Id, snapshot: PositionSnapshot, at: Time) {
    exists id :: id in positions && Shows(positions[id], conn, snapshot, at)
  }

  // ----- the upsert loop

  /** The loop succeeds exactly when no key without a row is listed twice. */
  lemma {:induction false} UpsertsOkIff(db: Db, user: string, conn: Id, environment: Environment,
                                        snapshots: seq<PositionSnapshot>, at: Time)
    requires PositionsUnique(db.positions) && DrawnBefore(db.positions, db.nextId)
    ensures UpsertPositions(db, user, conn, environment, snapshots, at).Ok? <==>
            Insertable(db.positions, conn, snapshots)
  {
    if |snapshots| != 0 {
      var before := snapshots[..|snapshots| - 1];
      UpsertsOkIff(db, user, conn, environment, before, at);
      if UpsertPositions(db, user, conn, environment, before, at).Ok? {
        var mid := UpsertPositions(db, user, conn, environment, before, at).value;
        UpsertsFrame(db, user, conn, environment, before, at);
        UpsertsTouch(db, user, conn, environment, before, at);
        LastInsertable(db, mid, conn, snapshots);
      }
    }
  }

  lemma LastInsertable(db: Db, mid: Db, conn: Id, snapshots: seq<PositionSnapshot>)
    requires |snapshots| > 0 && PositionsGrow(db.positions, mid.positions)
    requires forall key :: HasRow(mid.positions, conn, key) <==>
             HasRow(db.positions, conn, key) || Listed(snapshots[..|snapshots| - 1], key)
    requires Insertable(db.positions, conn, snapshots[..|snapshots| - 1])
    ensures var key := snapshots[|snapshots| - 1].key;
            Insertable(db.positions, conn, snapshots) <==>
              HasRow(db.positions, conn, key) || !HasRow(mid.positions, conn, key)
  {
  }

  /** What the loop leaves alone, and which keys have rows after it. */
  ghost predicate Touched(db: Db, mid: Db, user: string, conn: Id, snapshots: seq<PositionSnapshot>) {
    && (forall id ::
          id in db.positions && id in mid.positions &&
            !(db.positions[id].connectionId == conn && Listed(snapshots, db.positions[id].key)) ==>
          mid.positions[id] == db.positions[id])
    && (forall id :: id in mid.positions && id !in db.positions ==> Listed(snapshots, mid.positions[id].key))
    && (forall key :: HasRow(mid.positions, conn, key) <==> HasRow(db.positions, conn, key) || Listed(snapshots, key))
  }

  lemma ListedLast(snapshots: seq<PositionSnapshot>, key: PositionKey)
    requires |snapshots| > 0
    ensures Listed(snapshots, key) <==>
            Listed(snapshots[..|snapshots| - 1], key) || snapshots[|snapshots| - 1].key == key
  {
  }

  lemma {:induction false} UpsertsTouch(db: Db, user: string, conn: Id, environment: Environment,
                                        snapshots: seq<PositionSnapshot>, at: Time)
    requires PositionsUnique(db.positions) && DrawnBefore(db.positions, db.nextId)
    requires UpsertPositions(db, user, conn, environment, snapshots, at).Ok?
    ensures Touched(db, UpsertPositions(db, user, conn, environment, snapshots, at).value, user, conn, snapshots)
  {
    if |snapshots| != 0 {
      var before := snapshots[..|snapshots| - 1];
      var mid := UpsertPositions(db, user, conn, environment, before, at).value;
      UpsertsTouch(db, user, conn, environment, before, at);
      UpsertsFrame(db, user, conn, environment, before, at);
      forall key ensures Listed(snapshots, key) <==> Listed(before, key) || snapshots[|snapshots| - 1].key == key {
        ListedLast(snapshots, key);
      }
      UpsertTouches(db, mid, user, conn, environment, before, snapshots[|snapshots| - 1], at);
      hide UpsertPosition, UpsertFrame, PositionsUnique;
    }
  }

  /** One upsert writes one row: the row filed under the snapshot's key, or a new one. */
  lemma UpsertForm(db: Db, mid: Db, user: string, conn: Id, environment: Environment, snapshot: PositionSnapshot,
                   at: Time) returns (id: Id, row: Position)
    requires PositionsGrow(db.positions, mid.positions) && DrawnBefore(mid.positions, mid.nextId)
    requires UpsertPosition(db.positions, mid, user, conn, environment, snapshot, at).Ok?
    ensures UpsertPosition(db.positions, mid, user, conn, environment, snapshot, at).value.positions ==
            mid.positions[id := row]
    ensures Shows(row, conn, snapshot, at)
    ensures if id in db.positions then SamePlaceAs(db.positions[id], conn, snapshot.key) else id !in mid.positions
    ensures id in mid.positions ==> SamePlaceAs(mid.positions[id], conn, snapshot.key)
  {
    if HasRow(db.positions, conn, snapshot.key) {
      id := RowOf(db.positions, conn, snapshot.key);
      assert SameRow(db.positions[id], mid.positions[id]);
      row := UpdatedPosition(mid.positions[id], snapshot, at);
    } else {
      id, row := mid.nextId, NewPosition(user, conn, environment, snapshot, at);
    }
  }

  predicate SamePlaceAs(row: Position, conn: Id, key: PositionKey) {
    row.connectionId == conn && row.key == key
  }

  lemma UpsertTouches(db: Db, mid: Db, user: string, conn: Id, environment: Environment, before: seq<PositionSnapshot>,
                      snapshot: PositionSnapshot, at: Time)
    requires PositionsGrow(db.positions, mid.positions) && DrawnBefore(mid.positions, mid.nextId)
    requires Touched(db, mid, user, conn, before)
    requires UpsertPosition(db.positions, mid, user, conn, environment, snapshot, at).Ok?
    ensures var after := UpsertPosition(db.positions, mid, user, conn, environment, snapshot, at).value;
            && (forall id :: id in db.positions && id in after.positions ==>
                  (db.positions[id].connectionId == conn &&
                   (Listed(before, db.positions[id].key) || db.positions[id].key == snapshot.key)) ||
                  after.positions[id] == db.positions[id])
            && (forall id :: id in after.positions && id !in db.positions ==>
                  Listed(before, after.positions[id].key) || after.positions[id].key == snapshot.key)
            && (forall key :: HasRow(after.positions, conn, key) <==>
                  HasRow(db.positions, conn, key) || Listed(before, key) || key == snapshot.key)
  {
    var id, row := UpsertForm(db, mid, user, conn, environment, snapshot, at);
    hide UpsertPosition, Listed, HasRow;
    forall key
      ensures HasRow(mid.positions[id := row], conn, key) <==> HasRow(mid.positions, conn, key) || key == snapshot.key
    {
      RowsAfter(mid.positions, id, row, conn, snapshot.key, key);
    }
  }

  lemma RowsAfter(positions: map<Id, Position>, id: Id, row: Position, conn: Id, written: PositionKey, key: PositionKey)
    requires SamePlaceAs(row, conn, written) && (id in positions ==> SamePlaceAs(positions[id], conn, written))
    ensures HasRow(positions[id := row], conn, key) <==> HasRow(positions, conn, key) || key == written
  {
    var after := positions[id := row];
    if HasRow(positions, conn, key) {
      var other := RowOf(positions, conn, key);
      assert other in after && SamePlaceAs(after[other], conn, key);
    }
    assert after[id] == row;
    if HasRow(after, conn, key) && key != written {
      var other := RowOf(after, conn, key);
      assert other in positions && SamePlaceAs(positions[other], conn, key);
    }
  }

  // ----- the last snapshot of every key is shown

  lemma {:induction false} ListedHasLast(snapshots: seq<PositionSnapshot>, key: PositionKey)
    requires Listed(snapshots, key)
    ensures exists i :: LastOf(snapshots, i) && snapshots[i].key == key
  {
    var last := |snapshots| - 1;
    if snapshots[last].key == key {
      assert LastOf(snapshots, last);
    } else {
      ListedLast(snapshots, key);
      ListedHasLast(snapshots[..last], key);
      var i :| LastOf(snapshots[..last], i) && snapshots[..last][i].key == key;
      LastBefore(snapshots, i);
    }
  }

  lemma LastBefore(snapshots: seq<PositionSnapshot>, i: int)
    requires |snapshots| > 0 && 0 <= i < |snapshots| - 1
    ensures LastOf(snapshots, i) <==>
            LastOf(snapshots[..|snapshots| - 1], i) && snapshots[i].key != snapshots[|snapshots| - 1].key
  {
    var before := snapshots[..|snapshots| - 1];
    if LastOf(before, i) && snapshots[i].key != snapshots[|snapshots| - 1].key {
      forall j | i < j < |snapshots| ensures snapshots[j].key != snapshots[i].key {
        if j < |before| { assert before[j].key != before[i].key; }
      }
    }
    if LastOf(snapshots, i) {
      forall j | i < j < |before| ensures before[j].key != before[i].key {
        assert snapshots[j].key != snapshots[i].key;
      }
    }
  }

  lemma {:induction false} UpsertsShow(db: Db, user: string, conn: Id, environment: Environment,
                                       snapshots: seq<PositionSnapshot>, at: Time, i: nat)
    requires PositionsUnique(db.positions) && DrawnBefore(db.positions, db.nextId)
    requires LastOf(snapshots, i)
    requires UpsertPositions(db, user, conn, environment, snapshots, at).Ok?
    ensures Shown(UpsertPositions(db, user, conn, environment, snapshots, at).value.positions, conn, snapshots[i], at)
  {
    var before := snapshots[..|snapshots| - 1];
    var mid := UpsertPositions(db, user, conn, environment, before, at).value;
    UpsertsFrame(db, user, conn, environment, before, at);
    if i < |before| {
      LastBefore(snapshots, i);
      UpsertsShow(db, user, conn, environment, before, at, i);
      StillShown(db, mid, user, conn, environment, snapshots[|snapshots| - 1], at, before[i]);
    } else {
      LastShown(db, mid, user, conn, environment, snapshots[i], at);
    }
  }

  lemma LastShown(db: Db, mid: Db, user: string, conn: Id, environment: Environment, snapshot: PositionSnapshot,
                  at: Time)
    requires PositionsGrow(db.positions, mid.positions) && DrawnBefore(mid.positions, mid.nextId)
    requires UpsertPosition(db.positions, mid, user, conn, environment, snapshot, at).Ok?
    ensures Shown(UpsertPosition(db.positions, mid, user, conn, environment, snapshot, at).value.positions, conn,
                  snapshot, at)
  {
    var id, row := UpsertForm(db, mid, user, conn, environment, snapshot, at);
    hide UpsertPosition;
    assert Shows(mid.positions[id := row][id], conn, snapshot, at);
  }

  lemma StillShown(db: Db, mid: Db, user: string, conn: Id, environment: Environment, snapshot: PositionSnapshot,
                   at: Time, earlier: PositionSnapshot)
    requires PositionsGrow(db.positions, mid.positions) && DrawnBefore(mid.positions, mid.nextId)
    requires UpsertPosition(db.positions, mid, user, conn, environment, snapshot, at).Ok?
    requires Shown(mid.positions, conn, earlier, at) && earlier.key != snapshot.key
    ensures Shown(UpsertPosition(db.positions, mid, user, conn, environment, snapshot, at).value.positions, conn,
                  earlier, at)
  {
    var id, row := UpsertForm(db, mid, user, conn, environment, snapshot, at);
    hide UpsertPosition;
    var shown :| shown in mid.positions && Shows(mid.positions[shown], conn, earlier, at);
    assert Shows(mid.positions[id := row][shown], conn, earlier, at);
  }

  // ----- the theorem

  /** A closed row: nothing is held any more, and everything else is as it last was. */
  predicate Vacated(before: Position, after: Position, at: Time) {
    && SameRow(before, after)
    && after.state == PositionState.Closed && after.closedAt == Some(at) && after.lastReconciledAt == at
    && after.terms == before.terms.(size := after.terms.size, positionValue := after.terms.positionValue,
                                    unrealisedPnl := after.terms.unrealisedPnl)
    && after.terms.size == 0.0 && after.terms.positionValue == 0.0 && after.terms.unrealisedPnl == 0.0
  }

  /** How an old row looks after the replacement: shown, closed, or untouched. */
  ghost predicate RowReplaced(before: Position, after: Position, conn: Id, snapshots: seq<PositionSnapshot>, at: Time) {
    if before.connectionId == conn && Listed(snapshots, before.key)
    then exists i :: LastOf(snapshots, i) && Shows(after, conn, snapshots[i], at) && SameRow(before, after)
    else if before.connectionId == conn && before.state == PositionState.Open then Vacated(before, after, at)
    else after == before
  }

  ghost predicate ReplacedExactly(db: Db, after: Db, user: string, conn: Id, snapshots: seq<PositionSnapshot>,
                                  at: Time) {
    // no row is lost or re-identified, and each old row is shown, closed or untouched
    && db.positions.Keys <= after.positions.Keys
    && (forall id :: id in db.positions ==> RowReplaced(db.positions[id], after.positions[id], conn, snapshots, at))
    // new rows are positions of the user that were listed under a key without a row
    && (forall id :: id in after.positions && id !in db.positions ==>
          && OpenedFor(after.positions[id], user, conn) && Listed(snapshots, after.positions[id].key)
          && !HasRow(db.positions, conn, after.positions[id].key))
    // the last snapshot of each key is shown, and by one row only
    && (forall i :: LastOf(snapshots, i) ==> Shown(after.positions, conn, snapshots[i], at))
    && PositionsUnique(after.positions)
    // each open row of the connection is listed
    && (forall id ::
          id in after.positions && after.positions[id].connectionId == conn &&
            after.positions[id].state == PositionState.Open ==>
          Listed(snapshots, after.positions[id].key))
    && conn in after.checkpoints && after.checkpoints[conn] == at
  }

  lemma SeenIffListed(snapshots: seq<PositionSnapshot>, key: PositionKey)
    ensures key in SeenKeys(snapshots) <==> Listed(snapshots, key)
  {
  }

  lemma OldRowReplaced(db: Db, mid: Db, user: string, conn: Id, snapshots: seq<PositionSnapshot>, at: Time, id: Id)
    requires id in db.positions && UpsertFrame(db, mid, user, conn) && Touched(db, mid, user, conn, snapshots)
    requires forall i :: LastOf(snapshots, i) ==> Shown(mid.positions, conn, snapshots[i], at)
    ensures var closing := Vanished(mid.positions, conn, SeenKeys(snapshots));
            RowReplaced(db.positions[id], CloseRows(mid.positions, closing, at)[id], conn, snapshots, at)
  {
    if Listed(snapshots, db.positions[id].key) { ListedHasLast(snapshots, db.positions[id].key); }
    hide LastOf;
  }

  lemma SnapshotShown(mid: map<Id, Position>, conn: Id, snapshots: seq<PositionSnapshot>, at: Time, i: nat)
    requires i < |snapshots| && Shown(mid, conn, snapshots[i], at)
    ensures Shown(CloseRows(mid, Vanished(mid, conn, SeenKeys(snapshots)), at), conn, snapshots[i], at)
  {
    var closing := Vanished(mid, conn, SeenKeys(snapshots));
    var id :| id in mid && Shows(mid[id], conn, snapshots[i], at);
    assert snapshots[i].key in SeenKeys(snapshots);
    assert Shows(CloseRows(mid, closing, at)[id], conn, snapshots[i], at);
  }

  /** The replacement succeeds exactly when no key without a row is listed twice. */
  lemma ReplaceOkIff(db: Db, user: string, conn: Id, environment: Environment, snapshots: seq<PositionSnapshot>,
                     at: Time)
    requires Sound(db)
    ensures ReplaceOpenPositions(db, user, conn, environment, snapshots, at).Ok? <==>
            Insertable(db.positions, conn, snapshots)
  {
    UpsertsOkIff(db, user, conn, environment, snapshots, at);
  }

  /** A list that shows one new position twice raises, on every account. */
  lemma TwiceListedRaises(db: Db, user: string, conn: Id, environment: Environment, snapshot: PositionSnapshot,
                          at: Time)
    requires Sound(db) && !HasRow(db.positions, conn, snapshot.key)
    ensures ReplaceOpenPositions(db, user, conn, environment, [snapshot, snapshot], at).Err?
  {
    ReplaceOkIff(db, user, conn, environment, [snapshot, snapshot], at);
    hide ReplaceOpenPositions, Sound, HasRow;
    assert [snapshot, snapshot][0].key == [snapshot, snapshot][1].key;
  }

  /** A replacement that does not raise is exact. */
  lemma ReplacementExact(db: Db, user: string, conn: Id, environment: Environment, snapshots: seq<PositionSnapshot>,
                         at: Time)
    requires Sound(db) && ReplaceOpenPositions(db, user, conn, environment, snapshots, at).Ok?
    ensures ReplacedExactly(db, After(db, ReplaceOpenPositions(db, user, conn, environment, snapshots, at)), user,
                            conn, snapshots, at)
  {
    UpsertsFrame(db, user, conn, environment, snapshots, at);
    UpsertsTouch(db, user, conn, environment, snapshots, at);
    var mid := UpsertPositions(db, user, conn, environment, snapshots, at).value;
    forall i | LastOf(snapshots, i) ensures Shown(mid.positions, conn, snapshots[i], at) {
      UpsertsShow(db, user, conn, environment, snapshots, at, i);
    }
    hide Sound, UpsertPositions, ReplacedExactly;
    ClosingExact(db, mid, user, conn, snapshots, at);
  }

  lemma ClosingExact(db: Db, mid: Db, user: string, conn: Id, snapshots: seq<PositionSnapshot>, at: Time)
    requires UpsertFrame(db, mid, user, conn) && Touched(db, mid, user, conn, snapshots)
    requires forall i :: LastOf(snapshots, i) ==> Shown(mid.positions, conn, snapshots[i], at)
    ensures ReplacedExactly(db, CloseVanished(mid, conn, Vanished(mid.positions, conn, SeenKeys(snapshots)), at), user,
                            conn, snapshots, at)
  {
    var closing := Vanished(mid.positions, conn, SeenKeys(snapshots));
    var positions := CloseRows(mid.positions, closing, at);
    ClosedGrow(mid.positions, closing, at);
    assert db.positions.Keys <= mid.positions.Keys;
    hide PositionsUnique, Shown, RowReplaced, Touched, Listed, UpsertFrame, PositionsGrow, Vanished, HasRow,
         OpenedFor;
    forall id | id in db.positions ensures RowReplaced(db.positions[id], positions[id], conn, snapshots, at) {
      OldRowReplaced(db, mid, user, conn, snapshots, at, id);
    }
    forall i | LastOf(snapshots, i) ensures Shown(positions, conn, snapshots[i], at) {
      SnapshotShown(mid.positions, conn, snapshots, at, i);
    }
    NewAndOpenRows(db, mid, user, conn, snapshots, at);
  }

  lemma NewAndOpenRows(db: Db, mid: Db, user: string, conn: Id, snapshots: seq<PositionSnapshot>, at: Time)
    requires UpsertFrame(db, mid, user, conn) && Touched(db, mid, user, conn, snapshots)
    ensures var after := CloseRows(mid.positions, Vanished(mid.positions, conn, SeenKeys(snapshots)), at);
            && (forall id :: id in after && id !in db.positions ==>
                  && OpenedFor(after[id], user, conn) && Listed(snapshots, after[id].key)
                  && !HasRow(db.positions, conn, after[id].key))
            && (forall id :: id in after && after[id].connectionId == conn && after[id].state == PositionState.Open ==>
                  Listed(snapshots, after[id].key))
  {
    var closing := Vanished(mid.positions, conn, SeenKeys(snapshots));
    var after := CloseRows(mid.positions, closing, at);
    forall key ensures key in SeenKeys(snapshots) <==> Listed(snapshots, key) { SeenIffListed(snapshots, key); }
    forall id | id in after && id !in db.positions ensures !HasRow(db.positions, conn, after[id].key) {
      if HasRow(db.positions, conn, after[id].key) {
        var first := RowOf(db.positions, conn, after[id].key);
        assert SameRow(db.positions[first], mid.positions[first]);
        assert SamePlace(mid.positions[first], mid.positions[id]);
      }
    }
  }

  /** The rows the loop has inserted so far: opened when the broker says, in the environment of the account. */
  ghost predicate FreshRows(before: map<Id, Position>, after: map<Id, Position>, environment: Environment) {
    forall id :: id in after && id !in before ==>
      after[id].openedAt == after[id].terms.brokerUpdatedAt && after[id].environment == environment
  }

  lemma UpsertFresh(loaded: map<Id, Position>, mid: Db, user: string, conn: Id, environment: Environment,
                    snapshot: PositionSnapshot, at: Time)
    requires FreshRows(loaded, mid.positions, environment)
    requires UpsertPosition(loaded, mid, user, conn, environment, snapshot, at).Ok?
    ensures FreshRows(loaded, UpsertPosition(loaded, mid, user, conn, environment, snapshot, at).value.positions,
                      environment)
  {
  }

  lemma {:induction false} UpsertsFresh(db: Db, user: string, conn: Id, environment: Environment,
                                        snapshots: seq<PositionSnapshot>, at: Time)
    requires UpsertPositions(db, user, conn, environment, snapshots, at).Ok?
    ensures FreshRows(db.positions, UpsertPositions(db, user, conn, environment, snapshots, at).value.positions,
                      environment)
  {
    hide UpsertPosition, FreshRows;
    if |snapshots| == 0 {
      NoneFresh(db.positions, environment);
    } else {
      var before := snapshots[..|snapshots| - 1];
      UpsertsFresh(db, user, conn, environment, before, at);
      UpsertFresh(db.positions, UpsertPositions(db, user, conn, environment, before, at).value, user, conn, environment,
                  snapshots[|snapshots| - 1], at);
    }
  }

  lemma NoneFresh(positions: map<Id, Position>, environment: Environment)
    ensures FreshRows(positions, positions, environment)
  {
  }

  /** Every row a replacement inserts is opened at the broker's time, in the environment of the account. */
  lemma InsertedFresh(db: Db, user: string, conn: Id, environment: Environment, snapshots: seq<PositionSnapshot>,
                      at: Time)
    requires Sound(db) && ReplaceOpenPositions(db, user, conn, environment, snapshots, at).Ok?
    ensures FreshRows(db.positions, After(db, ReplaceOpenPositions(db, user, conn, environment, snapshots,
                                                                   at)).positions, environment)
  {
    UpsertsFresh(db, user, conn, environment, snapshots, at);
    NewAreListed(db, user, conn, environment, snapshots, at);
    hide Sound, UpsertPositions, Touched;
  }

  /** What is closed was there before: a row that was just inserted is listed. */
  lemma NewAreListed(db: Db, user: string, conn: Id, environment: Environment, snapshots: seq<PositionSnapshot>,
                     at: Time)
    requires Sound(db) && UpsertPositions(db, user, conn, environment, snapshots, at).Ok?
    ensures var mid := UpsertPositions(db, user, conn, environment, snapshots, at).value.positions;
            Vanished(mid, conn, SeenKeys(snapshots)) <= db.positions.Keys
  {
    UpsertsTouch(db, user, conn, environment, snapshots, at);
    var mid := UpsertPositions(db, user, conn, environment, snapshots, at).value.positions;
    hide UpsertPositions, Sound;
    forall id | id in Vanished(mid, conn, SeenKeys(snapshots)) ensures id in db.positions {
      SeenIffListed(snapshots, mid[id].key);
    }
  }

  // ----- repeating

  /** Every listed key has a row afterwards. */
  lemma ListedHasRow(db: Db, after: Db, user: string, conn: Id, snapshots: seq<PositionSnapshot>, at: Time,
                     key: PositionKey)
    requires ReplacedExactly(db, after, user, conn, snapshots, at) && Listed(snapshots, key)
    ensures HasRow(after.positions, conn, key)
  {
    ListedHasLast(snapshots, key);
    var i :| LastOf(snapshots, i) && snapshots[i].key == key;
    assert Shown(after.positions, conn, snapshots[i], at);
  }

  /** A replacement that did not raise does not raise the second time. */
  lemma AgainOk(db: Db, user: string, conn: Id, environment: Environment, snapshots: seq<PositionSnapshot>, at: Time,
                later: Time)
    requires Sound(db) && ReplaceOpenPositions(db, user, conn, environment, snapshots, at).Ok?
    ensures var once := After(db, ReplaceOpenPositions(db, user, conn, environment, snapshots, at));
            Sound(once) && ReplaceOpenPositions(once, user, conn, environment, snapshots, later).Ok?
  {
    ReplacementExact(db, user, conn, environment, snapshots, at);
    KeepReplace(db, user, conn, environment, snapshots, at);
    var once := After(db, ReplaceOpenPositions(db, user, conn, environment, snapshots, at));
    ReplaceOkIff(once, user, conn, environment, snapshots, later);
    hide ReplaceOpenPositions, Sound, ReplacedExactly, HasRow;
    forall i, j | 0 <= i < j < |snapshots| && snapshots[i].key == snapshots[j].key
      ensures HasRow(once.positions, conn, snapshots[i].key)
    {
      ListedHasRow(db, once, user, conn, snapshots, at, snapshots[i].key);
    }
  }

  /** Of position rows, the second replacement with the same snapshots changes reconciliation times only. */
  lemma RowsTwice(db: Db, user: string, conn: Id, environment: Environment, snapshots: seq<PositionSnapshot>, at: Time,
                  later: Time)
    requires Sound(db) && ReplaceOpenPositions(db, user, conn, environment, snapshots, at).Ok?
    ensures var once := After(db, ReplaceOpenPositions(db, user, conn, environment, snapshots, at));
            var twice := After(once, ReplaceOpenPositions(once, user, conn, environment, snapshots, later));
            && twice.positions.Keys == once.positions.Keys
            && forall id :: id in once.positions ==>
                 twice.positions[id] == once.positions[id].(lastReconciledAt := twice.positions[id].lastReconciledAt)
  {
    ReplacementExact(db, user, conn, environment, snapshots, at);
    var once := After(db, ReplaceOpenPositions(db, user, conn, environment, snapshots, at));
    AgainOk(db, user, conn, environment, snapshots, at, later);
    ReplacementExact(once, user, conn, environment, snapshots, later);
    var twice := After(once, ReplaceOpenPositions(once, user, conn, environment, snapshots, later));
    hide Sound, ReplaceOpenPositions;
    ExactTwice(db, once, twice, user, conn, snapshots, at, later);
  }

  lemma ExactTwice(db: Db, once: Db, twice: Db, user: string, conn: Id, snapshots: seq<PositionSnapshot>, at: Time,
                   later: Time)
    requires ReplacedExactly(db, once, user, conn, snapshots, at) &&
             ReplacedExactly(once, twice, user, conn, snapshots, later)
    ensures twice.positions.Keys == once.positions.Keys
    ensures forall id :: id in once.positions ==>
              twice.positions[id] == once.positions[id].(lastReconciledAt := twice.positions[id].lastReconciledAt)
  {
    NothingNew(db, once, twice, user, conn, snapshots, at, later);
    hide ReplacedExactly;
    forall id | id in once.positions
      ensures twice.positions[id] == once.positions[id].(lastReconciledAt := twice.positions[id].lastReconciledAt)
    {
      KnownRowTwice(db, once, twice, user, conn, snapshots, at, later, id);
    }
  }

  lemma KnownRowTwice(db: Db, once: Db, twice: Db, user: string, conn: Id, snapshots: seq<PositionSnapshot>, at: Time,
                      later: Time, id: Id)
    requires id in once.positions && id in twice.positions
    ensures ReplacedExactly(db, once, user, conn, snapshots, at) &&
            ReplacedExactly(once, twice, user, conn, snapshots, later) ==>
            twice.positions[id] == once.positions[id].(lastReconciledAt := twice.positions[id].lastReconciledAt)
  {
    hide Shown, PositionsUnique, Listed, RowReplaced, HasRow, OpenedFor, LastOf;
    if ReplacedExactly(db, once, user, conn, snapshots, at) &&
       ReplacedExactly(once, twice, user, conn, snapshots, later) {
      RowTwice(once, twice, user, conn, snapshots, at, later, id);
    }
  }

  lemma NothingNew(db: Db, once: Db, twice: Db, user: string, conn: Id, snapshots: seq<PositionSnapshot>, at: Time,
                   later: Time)
    requires ReplacedExactly(db, once, user, conn, snapshots, at) &&
             ReplacedExactly(once, twice, user, conn, snapshots, later)
    ensures twice.positions.Keys == once.positions.Keys
  {
    hide Shown, PositionsUnique, Listed, RowReplaced, HasRow, OpenedFor, LastOf;
    forall id | id in twice.positions ensures id in once.positions {
      if id !in once.positions { ListedHasRow(db, once, user, conn, snapshots, at, twice.positions[id].key); }
    }
  }

  lemma RowTwice(once: Db, twice: Db, user: string, conn: Id, snapshots: seq<PositionSnapshot>, at: Time, later: Time,
                 id: Id)
    requires PositionsUnique(once.positions) && id in once.positions && id in twice.positions
    requires forall i :: LastOf(snapshots, i) ==> Shown(once.positions, conn, snapshots[i], at)
    requires once.positions[id].connectionId == conn && once.positions[id].state == PositionState.Open ==>
               Listed(snapshots, once.positions[id].key)
    requires RowReplaced(once.positions[id], twice.positions[id], conn, snapshots, later)
    ensures twice.positions[id] == once.positions[id].(lastReconciledAt := twice.positions[id].lastReconciledAt)
  {
  }
}
