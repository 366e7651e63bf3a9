/**
 The portfolio check of preflight: it passes exactly when the positions last written to the connection, by
 whichever call, carry the risk terms the proposal was sized against.
 */
module Portfolio {
  import opened Common
  import opened ExecutionDomain
  import opened Transactions
  import opened Ledger
  import opened History
  import opened Interleaving
  import opened CallMoves
  import opened Positions
  import opened Fingerprints
  import opened Submissions
  import opened ExampleRuns

  // ----- position rows belong to the owner of their connection, in its environment

  predicate Owned(connections: map<Id, Connection>, user: string, conn: Id) {
    conn in connections && connections[conn].userId == user
  }

  predicate OwnedIn(connections: map<Id, Connection>, user: string, conn: Id, environment: Environment) {
    Owned(connections, user, conn) && connections[conn].environment == environment
  }

  ghost predicate RowsOwned(connections: map<Id, Connection>, positions: map<Id, Position>) {
    forall id :: id in positions ==> OwnedIn(connections, positions[id].userId, positions[id].connectionId,
                                     positions[id].environment)
  }

  /**
   A call that is about to replace positions does so for the owner of the connection, and one that is about to
   check its portfolio has a connection whose positions were written.
   */
  predicate CallOwns(connections: map<Id, Connection>, written: set<Id>, call: Call) {
    match call
    case SubmitFetched(user, _, _, proposal, _, _) =>
      OwnedIn(connections, user, proposal.connectionId, proposal.environment)
    case SubmitWritten(user, _, _, proposal) =>
      OwnedIn(connections, user, proposal.connectionId, proposal.environment) && proposal.connectionId in written
    case ManageFetched(user, _, _, _, _, row, _) => OwnedIn(connections, user, row.connectionId, row.environment)
    case PositionsPolled(user, conn, environment, _) => OwnedIn(connections, user, conn, environment)
    case _ => true
  }

  ghost predicate CallsOwn(connections: map<Id, Connection>, written: set<Id>, calls: map<Id, Call>) {
    forall c :: c in calls ==> CallOwns(connections, written, calls[c])
  }

  ghost predicate Owning(s: System) {
    RowsOwned(s.db.connections, s.db.positions) && CallsOwn(s.db.connections, s.db.checkpoints.Keys, s.calls)
  }

  lemma OwnedGrows(before: map<Id, Connection>, after: map<Id, Connection>, user: string, conn: Id,
                   environment: Environment)
    requires ConnectionsGrow(before, after) && OwnedIn(before, user, conn, environment)
    ensures OwnedIn(after, user, conn, environment)
  {
    assert SameAccount(before[conn], after[conn]);
  }

  lemma OthersLeavePositions(db: Db, txn: Txn)
    requires !txn.Replace?
    ensures Apply(db, txn).positions == db.positions && Apply(db, txn).checkpoints == db.checkpoints
  {
    hide Apply;
    if OfAccounts(txn) { AccountsLeaveTrading(db, txn); } else { TradingLeavesAccounts(db, txn); }
  }

  lemma TxnOwns(db: Db, txn: Txn)
    requires Sound(db) && RowsOwned(db.connections, db.positions)
    requires txn.Replace? ==> OwnedIn(db.connections, txn.user, txn.conn, txn.environment)
    ensures RowsOwned(Apply(db, txn).connections, Apply(db, txn).positions)
  {
    TxnGrows(db, txn);
    if txn.Replace? {
      ReplaceOwns(db, txn.user, txn.conn, txn.environment, txn.snapshots, txn.now);
    } else {
      OthersLeavePositions(db, txn);
      var after := Apply(db, txn);
      hide Sound, Apply;
      forall id | id in after.positions
        ensures OwnedIn(after.connections, after.positions[id].userId, after.positions[id].connectionId,
                      after.positions[id].environment)
      {
        OwnedGrows(db.connections, after.connections, db.positions[id].userId, db.positions[id].connectionId,
                   db.positions[id].environment);
      }
    }
  }

  lemma ReplaceOwns(db: Db, user: string, conn: Id, environment: Environment, snapshots: seq<PositionSnapshot>,
                    at: Time)
    requires Sound(db) && RowsOwned(db.connections, db.positions) && OwnedIn(db.connections, user, conn, environment)
    ensures var after := After(db, ReplaceOpenPositions(db, user, conn, environment, snapshots, at));
            RowsOwned(after.connections, after.positions)
  {
    ReplaceLeaves(db, user, conn, environment, snapshots, at);
    var upserts := UpsertPositions(db, user, conn, environment, snapshots, at);
    if upserts.Ok? {
      UpsertsFrame(db, user, conn, environment, snapshots, at);
      UpsertsFresh(db, user, conn, environment, snapshots, at);
      var mid := upserts.value;
      hide Sound, UpsertPositions;
      forall id | id in mid.positions
        ensures OwnedIn(db.connections, mid.positions[id].userId, mid.positions[id].connectionId,
                      mid.positions[id].environment)
      {
        assert id in db.positions ==> SameRow(db.positions[id], mid.positions[id]);
      }
    }
  }

  // ----- every step keeps ownership

  lemma ReadStepsOwn(s: System, e: Step)
    requires Owning(s) && (e.FetchAccount? || e.FetchPositions? || e.PollPositions?)
    ensures CallsOwn(s.db.connections, s.db.checkpoints.Keys, Moved(s, e).calls)
  {
    hide MovedOrder, MovedAction, MovedAlone;
  }

  /** Other steps leave no call behind that holds positions of its own. */
  lemma TurnOwns(before: map<Id, Call>, e: Step, after: map<Id, Call>, connections: map<Id, Connection>,
                 written: set<Id>)
    requires OneTurn(before, e, after) && CallsOwn(connections, written, before)
    requires !e.FetchAccount? && !e.FetchPositions? && !e.PollPositions? && !e.WritePositions?
    ensures CallsOwn(connections, written, after)
  {
    hide Owned, OwnedIn;
    forall c | c in after ensures At(after, c) == Some(after[c]) {}
  }

  /** A call goes on to its check only when its replacement was written. */
  lemma WrittenOwns(s: System, c: Id, now: Time)
    requires Sound(s.db) && Owning(s)
    ensures CallsOwn(s.db.connections, Apply(s.db, TxnOf(s, WritePositions(c, now))).checkpoints.Keys,
                     Moved(s, WritePositions(c, now)).calls)
  {
    hide Sound, ReplaceOpenPositions, Apply, TxnOf, Owned, OwnedIn, RowsOwned, Moved;
    CheckpointsGrow(s.db, TxnOf(s, WritePositions(c, now)));
    WrittenTxn(s, c, now);
    if c in s.calls && HoldsPositions(s.calls[c]) {
      var txn := ReplaceTxn(s.calls[c], now);
      ReplaceChecks(s.db, txn.user, txn.conn, txn.environment, txn.snapshots, txn.now);
      ReplaceApplies(s.db, txn);
      assert CallOwns(s.db.connections, s.db.checkpoints.Keys, s.calls[c]);
    }
    WrittenCalls(s, c, now);
    hide ReplaceTxn;
  }

  /** A call that writes positions goes on to its check if the write did not raise, and ends otherwise. */
  lemma WrittenCalls(s: System, c: Id, now: Time)
    ensures var calls := Moved(s, WritePositions(c, now)).calls;
            if c in s.calls && HoldsPositions(s.calls[c])
            then calls == WrittenPositions(s, c, now).calls else calls == s.calls
  {
    hide WrittenPositions;
  }

  lemma WrittenTxn(s: System, c: Id, now: Time)
    ensures TxnOf(s, WritePositions(c, now)) == if c in s.calls && HoldsPositions(s.calls[c])
                                                then ReplaceTxn(s.calls[c], now) else Nothing
    ensures c in s.calls && HoldsPositions(s.calls[c]) ==> ReplaceTxn(s.calls[c], now).Replace?
  {
  }

  lemma CallsStillOwn(s: System, e: Step)
    requires Owning(s) && !e.WritePositions?
    ensures CallsOwn(s.db.connections, s.db.checkpoints.Keys, Moved(s, e).calls)
  {
    hide Moved, OneTurn, RowsOwned, CallsOwn;
    if e.FetchAccount? || e.FetchPositions? || e.PollPositions? {
      ReadStepsOwn(s, e);
    } else {
      StepTurns(s, e);
      TurnOwns(s.calls, e, Moved(s, e).calls, s.db.connections, s.db.checkpoints.Keys);
    }
  }

  /** A replacement is run by a call, for the owner the call holds. */
  lemma ReplaceByOwner(s: System, e: Step)
    requires CallsOwn(s.db.connections, s.db.checkpoints.Keys, s.calls)
    ensures var txn := TxnOf(s, e); txn.Replace? ==> OwnedIn(s.db.connections, txn.user, txn.conn, txn.environment)
  {
  }

  /** The table of checkpoints only gains connections. */
  lemma CheckpointsGrow(db: Db, txn: Txn)
    requires Sound(db)
    ensures db.checkpoints.Keys <= Apply(db, txn).checkpoints.Keys
  {
    if txn.Replace? {
      ReplaceChecks(db, txn.user, txn.conn, txn.environment, txn.snapshots, txn.now);
    } else {
      OthersLeavePositions(db, txn);
    }
  }

  /** A replacement moves the checkpoint of its own connection only. */
  lemma ReplaceChecks(db: Db, user: string, conn: Id, environment: Environment, snapshots: seq<PositionSnapshot>,
                      at: Time)
    requires Sound(db)
    ensures var outcome := ReplaceOpenPositions(db, user, conn, environment, snapshots, at);
            After(db, outcome).checkpoints == if outcome.Ok? then db.checkpoints[conn := at] else db.checkpoints
  {
    if UpsertPositions(db, user, conn, environment, snapshots, at).Ok? {
      UpsertsFrame(db, user, conn, environment, snapshots, at);
    }
    hide Sound, UpsertPositions;
  }

  lemma StepOwns(s: System, e: Step)
    requires Sound(s.db) && Owning(s)
    ensures Owning(Next(s, e))
  {
    hide Sound, Apply, Moved, TxnOf, Owned, OwnedIn, RowsOwned, Next;
    var txn, after := TxnOf(s, e), Next(s, e);
    NextParts(s, e);
    ReplaceByOwner(s, e);
    TxnOwns(s.db, txn);
    TxnGrows(s.db, txn);
    CheckpointsGrow(s.db, txn);
    var written := if e.WritePositions? then after.db.checkpoints.Keys else s.db.checkpoints.Keys;
    if e.WritePositions? { WrittenOwns(s, e.c, e.now); } else { CallsStillOwn(s, e); }
    forall c | c in after.calls ensures CallOwns(after.db.connections, after.db.checkpoints.Keys, after.calls[c]) {
      CallGrows(s.db.connections, after.db.connections, written, after.db.checkpoints.Keys, after.calls[c]);
    }
  }

  lemma CallGrows(before: map<Id, Connection>, after: map<Id, Connection>, written: set<Id>, more: set<Id>, call: Call)
    requires ConnectionsGrow(before, after) && written <= more && CallOwns(before, written, call)
    ensures CallOwns(after, more, call)
  {
  }

  /** In every run, position rows and pending replacements are those of the connection's owner and environment. */
  lemma {:induction false} AlwaysOwning(steps: seq<Step>)
    ensures Sound(Run(Initial, steps).db) && Owning(Run(Initial, steps))
  {
    AlwaysPlacing(steps);
    hide Sound, Next, Placing;
    if |steps| == 0 {
    } else {
      AlwaysOwning(steps[..|steps| - 1]);
      StepOwns(Run(Initial, steps[..|steps| - 1]), steps[|steps| - 1]);
    }
  }

  // ----- what a portfolio read holds

  /** The broker returned a position with these terms; of several under one key the last counts. */
  ghost predicate Live(snapshots: seq<PositionSnapshot>, terms: RiskTerms) {
    exists i :: LastOf(snapshots, i) && RiskOf(snapshots[i].key, snapshots[i].terms) == terms
  }

  /** A portfolio read holds exactly the terms its connection displays, each key once. */
  lemma PortfolioIsLive(db: Db, user: string, conn: Id, snapshots: seq<PositionSnapshot>, at: Time, rows: seq<Id>)
    requires Displays(db.positions, conn, snapshots, at) && PositionsUnique(db.positions)
    requires RowsOwned(db.connections, db.positions) && Owned(db.connections, user, conn)
    requires OpenRows(db.positions, user, conn, rows)
    ensures DistinctRows(RowsRead(db.positions, rows))
    ensures forall terms :: Holds(RowsRead(db.positions, rows), terms) <==> Live(snapshots, terms)
  {
    RowsDistinct(db.positions, user, conn, rows);
    forall terms ensures Holds(RowsRead(db.positions, rows), terms) <==> Live(snapshots, terms) {
      ReadIsLive(db.positions, user, conn, snapshots, at, rows, terms);
      LiveIsRead(db.connections, db.positions, user, conn, snapshots, at, rows, terms);
    }
  }

  lemma RowsDistinct(positions: map<Id, Position>, user: string, conn: Id, rows: seq<Id>)
    requires PositionsUnique(positions) && OpenRows(positions, user, conn, rows)
    ensures DistinctRows(RowsRead(positions, rows))
  {
  }

  lemma ReadIsLive(positions: map<Id, Position>, user: string, conn: Id, snapshots: seq<PositionSnapshot>, at: Time,
                   rows: seq<Id>, terms: RiskTerms)
    requires PositionsUnique(positions) && OpenRows(positions, user, conn, rows)
    requires forall i :: LastOf(snapshots, i) ==> Shown(positions, conn, snapshots[i], at)
    requires forall id ::
               id in positions && positions[id].connectionId == conn && positions[id].state == PositionState.Open ==>
               Listed(snapshots, positions[id].key)
    ensures Holds(RowsRead(positions, rows), terms) ==> Live(snapshots, terms)
  {
    if Holds(RowsRead(positions, rows), terms) {
      var k :| 0 <= k < |rows| && TermsOf(RowsRead(positions, rows)[k]) == terms;
      ListedHasLast(snapshots, positions[rows[k]].key);
      var i :| LastOf(snapshots, i) && snapshots[i].key == positions[rows[k]].key;
      var id :| id in positions && Shows(positions[id], conn, snapshots[i], at);
      assert SamePlace(positions[id], positions[rows[k]]);
    }
  }

  lemma LiveIsRead(connections: map<Id, Connection>, positions: map<Id, Position>, user: string, conn: Id,
                   snapshots: seq<PositionSnapshot>, at: Time, rows: seq<Id>, terms: RiskTerms)
    requires OpenRows(positions, user, conn, rows) && RowsOwned(connections, positions) &&
             Owned(connections, user, conn)
    requires forall i :: LastOf(snapshots, i) ==> Shown(positions, conn, snapshots[i], at)
    ensures Live(snapshots, terms) ==> Holds(RowsRead(positions, rows), terms)
  {
    if Live(snapshots, terms) {
      var j :| LastOf(snapshots, j) && RiskOf(snapshots[j].key, snapshots[j].terms) == terms;
      assert Shown(positions, conn, snapshots[j], at);
      var shown :| shown in positions && Shows(positions[shown], conn, snapshots[j], at);
      assert OwnedIn(connections, positions[shown].userId, positions[shown].connectionId,
                     positions[shown].environment);
      assert shown in rows;
      var i :| 0 <= i < |rows| && rows[i] == shown;
      assert TermsOf(RowsRead(positions, rows)[i]) == terms;
    }
  }

  // ----- which replacement a connection shows

  /** The positions last written to a connection in a run, by whichever call. */
  ghost function LastWritten(steps: seq<Step>, conn: Id): Option<seq<PositionSnapshot>> {
    if |steps| == 0 then None
    else
      var before := Run(Initial, steps[..|steps| - 1]);
      var txn := TxnOf(before, steps[|steps| - 1]);
      if Writes(before.db, txn, conn) then Some(txn.snapshots) else LastWritten(steps[..|steps| - 1], conn)
  }

  /** The transaction replaces the positions of the connection, and does not raise. */
  ghost predicate Writes(db: Db, txn: Txn, conn: Id) {
    txn.Replace? && txn.conn == conn &&
      ReplaceOpenPositions(db, txn.user, conn, txn.environment, txn.snapshots, txn.now).Ok?
  }

  /**
   The open rows of the connection are these positions: the last one of each key is shown, and each open row
   is listed.
   */
  ghost predicate Displays(positions: map<Id, Position>, conn: Id, snapshots: seq<PositionSnapshot>, at: Time) {
    && (forall i :: LastOf(snapshots, i) ==> Shown(positions, conn, snapshots[i], at))
    && (forall id ::
          id in positions && positions[id].connectionId == conn && positions[id].state == PositionState.Open ==>
          Listed(snapshots, positions[id].key))
  }

  /** The replacement lists no position twice that has no row yet: it will not raise. */
  ghost predicate Writable(db: Db, txn: Txn)
    requires txn.Replace?
  {
    Insertable(db.positions, txn.conn, txn.snapshots)
  }

  ghost predicate Displayed(db: Db, conn: Id, last: Option<seq<PositionSnapshot>>) {
    && (last.Some? <==> conn in db.checkpoints)
    && (last.Some? ==> Displays(db.positions, conn, last.value, db.checkpoints[conn]))
  }

  /** A replacement leaves the rows of other connections alone. */
  lemma ReplaceElsewhere(db: Db, user: string, conn: Id, environment: Environment, snapshots: seq<PositionSnapshot>,
                         at: Time, other: Id)
    requires Sound(db) && other != conn && ReplaceOpenPositions(db, user, conn, environment, snapshots, at).Ok?
    ensures SameElsewhere(db.positions,
                          After(db, ReplaceOpenPositions(db, user, conn, environment, snapshots, at)).positions, other)
  {
    UpsertsFrame(db, user, conn, environment, snapshots, at);
    UpsertsTouch(db, user, conn, environment, snapshots, at);
    hide Sound, UpsertPositions, UpsertFrame, Touched, SameElsewhere, Vanished;
    var mid := UpsertPositions(db, user, conn, environment, snapshots, at).value;
    UpsertsElsewhere(db, mid, user, conn, snapshots, other);
    ClosesElsewhere(db.positions, mid.positions, conn, SeenKeys(snapshots), at, other);
  }

  lemma UpsertsElsewhere(db: Db, mid: Db, user: string, conn: Id, snapshots: seq<PositionSnapshot>, other: Id)
    requires other != conn && UpsertFrame(db, mid, user, conn) && Touched(db, mid, user, conn, snapshots)
    ensures SameElsewhere(db.positions, mid.positions, other)
  {
    hide PositionsUnique, HasRow, Listed, ActionsAdvance, OpenStays;
    forall id | id in mid.positions && mid.positions[id].connectionId == other ensures id in db.positions {
      assert id in db.positions || OpenedFor(mid.positions[id], user, conn);
    }
    forall id | id in db.positions
      ensures id in mid.positions && mid.positions[id].connectionId == db.positions[id].connectionId
    {
      assert SameRow(db.positions[id], mid.positions[id]);
    }
  }

  lemma ClosesElsewhere(before: map<Id, Position>, mid: map<Id, Position>, conn: Id, seen: set<PositionKey>, at: Time,
                        other: Id)
    requires other != conn && SameElsewhere(before, mid, other)
    ensures SameElsewhere(before, CloseRows(mid, Vanished(mid, conn, seen), at), other)
  {
  }

  ghost predicate SameElsewhere(before: map<Id, Position>, after: map<Id, Position>, conn: Id) {
    && (forall id :: id in before && before[id].connectionId == conn ==> id in after && after[id] == before[id])
    && (forall id :: id in after && after[id].connectionId == conn ==> id in before && after[id] == before[id])
  }

  lemma ElsewhereDisplays(before: map<Id, Position>, after: map<Id, Position>, conn: Id,
                          snapshots: seq<PositionSnapshot>, at: Time)
    requires SameElsewhere(before, after, conn) && Displays(before, conn, snapshots, at)
    ensures Displays(after, conn, snapshots, at)
  {
    hide Listed;
    forall i | LastOf(snapshots, i) ensures Shown(after, conn, snapshots[i], at) {
      assert Shown(before, conn, snapshots[i], at);
      var id :| id in before && Shows(before[id], conn, snapshots[i], at);
      assert Shows(after[id], conn, snapshots[i], at);
    }
  }

  lemma WriteDisplays(db: Db, txn: Txn, conn: Id)
    requires Sound(db) && Writes(db, txn, conn)
    ensures Displayed(Apply(db, txn), conn, Some(txn.snapshots))
  {
    ReplaceChecks(db, txn.user, conn, txn.environment, txn.snapshots, txn.now);
    ReplacementExact(db, txn.user, conn, txn.environment, txn.snapshots, txn.now);
    hide Sound, ReplaceOpenPositions, LastOf, Shown, Listed, RowReplaced;
  }

  lemma OtherDisplays(db: Db, txn: Txn, conn: Id, last: Option<seq<PositionSnapshot>>)
    requires Sound(db) && !Writes(db, txn, conn) && Displayed(db, conn, last)
    ensures Displayed(Apply(db, txn), conn, last)
  {
    if txn.Replace? {
      ReplaceChecks(db, txn.user, txn.conn, txn.environment, txn.snapshots, txn.now);
      var outcome := ReplaceOpenPositions(db, txn.user, txn.conn, txn.environment, txn.snapshots, txn.now);
      if outcome.Ok? {
        ReplaceElsewhere(db, txn.user, txn.conn, txn.environment, txn.snapshots, txn.now, conn);
        hide Sound, ReplaceOpenPositions, Displays, SameElsewhere;
        if last.Some? {
          ElsewhereDisplays(db.positions, Apply(db, txn).positions, conn, last.value, db.checkpoints[conn]);
        }
      }
    } else {
      OthersLeavePositions(db, txn);
      hide Sound, Apply, Displays;
    }
  }

  /**
   In every run a connection has a checkpoint once its positions were written, and shows exactly the last
   ones written.
   */
  lemma {:induction false} AlwaysDisplayed(steps: seq<Step>, conn: Id)
    ensures Displayed(Run(Initial, steps).db, conn, LastWritten(steps, conn))
  {
    hide Next, Sound, Displayed, Writes, Placing;
    if |steps| == 0 {
      NothingDisplayed(conn);
    } else {
      var init, e := steps[..|steps| - 1], steps[|steps| - 1];
      AlwaysDisplayed(init, conn);
      AlwaysPlacing(init);
      var before := Run(Initial, init);
      NextParts(before, e);
      if Writes(before.db, TxnOf(before, e), conn) {
        WriteDisplays(before.db, TxnOf(before, e), conn);
      } else {
        OtherDisplays(before.db, TxnOf(before, e), conn, LastWritten(init, conn));
      }
    }
  }

  lemma NothingDisplayed(conn: Id)
    ensures Displayed(Initial.db, conn, None)
  {
  }

  // ----- the check

  /** The check itself looks at the fingerprint of the rows read. */
  lemma CheckLooks(s: System, c: Id, rows: seq<Id>)
    requires c in s.calls && s.calls[c].SubmitWritten?
    requires s.calls[c].proposal.connectionId in s.db.checkpoints
    requires OpenRows(s.db.positions, s.calls[c].user, s.calls[c].proposal.connectionId, rows)
    ensures Passes(s, c, rows) <==> s.calls[c].proposal.fingerprint == Some(Fingerprint(RowsRead(s.db.positions, rows)))
  {
    hide Fingerprint, OpenRows, Apply;
  }

  /** The submission goes on from its portfolio check. */
  ghost predicate Passes(s: System, c: Id, rows: seq<Id>) {
    c in Next(s, CheckPortfolio(c, rows, true)).calls && Next(s, CheckPortfolio(c, rows, true)).calls[c].SubmitReady?
  }

  /** A submission is about to check its portfolio, and its proposal was sized against these rows. */
  ghost predicate AtCheck(s: System, c: Id, sizedAgainst: seq<Position>) {
    c in s.calls && s.calls[c].SubmitWritten? && s.calls[c].proposal.fingerprint == Some(Fingerprint(sizedAgainst))
  }

  /**
   Preflight, over every run and every interleaving: when a submission comes to its portfolio check, positions
   of its connection were written, and the check passes if and only if the positions written last, by whichever
   call, have the risk terms the proposal was sized against.
   */
  lemma PreflightPassesIff(steps: seq<Step>, c: Id, rows: seq<Id>, sizedAgainst: seq<Position>)
    requires DistinctRows(sizedAgainst)
    ensures var s := Run(Initial, steps);
            AtCheck(s, c, sizedAgainst) ==>
            var last := LastWritten(steps, s.calls[c].proposal.connectionId);
            && last.Some?
            && (OpenRows(s.db.positions, s.calls[c].user, s.calls[c].proposal.connectionId, rows) ==>
                (Passes(s, c, rows) <==> forall terms :: Holds(sizedAgainst, terms) <==> Live(last.value, terms)))
  {
    var s := Run(Initial, steps);
    AlwaysOwning(steps);
    hide Run, Owning, OpenRows, Holds, Live, Passes, DistinctRows, LastWritten, Displayed, Sound;
    if AtCheck(s, c, sizedAgainst) {
      var conn := s.calls[c].proposal.connectionId;
      AlwaysDisplayed(steps, conn);
      CheckpointKnown(s, c);
      HasDisplay(s.db, conn, LastWritten(steps, conn));
      if OpenRows(s.db.positions, s.calls[c].user, conn, rows) {
        PassesIff(s, c, rows, sizedAgainst, LastWritten(steps, conn).value);
      }
    }
  }

  lemma CheckpointKnown(s: System, c: Id)
    requires Owning(s) && c in s.calls && s.calls[c].SubmitWritten?
    ensures s.calls[c].proposal.connectionId in s.db.checkpoints
  {
    assert CallOwns(s.db.connections, s.db.checkpoints.Keys, s.calls[c]);
  }

  lemma HasDisplay(db: Db, conn: Id, last: Option<seq<PositionSnapshot>>)
    requires Displayed(db, conn, last) && conn in db.checkpoints
    ensures last.Some?
    ensures Displays(db.positions, conn, last.value, db.checkpoints[conn])
  {
    hide Displays;
  }

  lemma PassesIff(s: System, c: Id, rows: seq<Id>, sizedAgainst: seq<Position>, snapshots: seq<PositionSnapshot>)
    requires Sound(s.db) && Owning(s) && AtCheck(s, c, sizedAgainst) && DistinctRows(sizedAgainst)
    requires s.calls[c].proposal.connectionId in s.db.checkpoints
    requires Displays(s.db.positions, s.calls[c].proposal.connectionId, snapshots,
                      s.db.checkpoints[s.calls[c].proposal.connectionId])
    ensures OpenRows(s.db.positions, s.calls[c].user, s.calls[c].proposal.connectionId, rows) ==>
            (Passes(s, c, rows) <==> forall terms :: Holds(sizedAgainst, terms) <==> Live(snapshots, terms))
  {
    var user, conn := s.calls[c].user, s.calls[c].proposal.connectionId;
    assert CallOwns(s.db.connections, s.db.checkpoints.Keys, s.calls[c]);
    SoundPositions(s.db);
    hide Sound, Passes, Displays, Holds, Live, OpenRows, RowsRead, DistinctRows, Owned, OwnedIn, RowsOwned, CallsOwn,
         Fingerprint;
    if OpenRows(s.db.positions, user, conn, rows) {
      CheckLooks(s, c, rows);
      PortfolioIsLive(s.db, user, conn, snapshots, s.db.checkpoints[conn], rows);
      OpenRowsKnown(s.db.positions, user, conn, rows);
      SameFingerprintIff(sizedAgainst, RowsRead(s.db.positions, rows));
    }
  }

  lemma SoundPositions(db: Db)
    requires Sound(db)
    ensures PositionsUnique(db.positions)
  {
  }

  lemma OpenRowsKnown(positions: map<Id, Position>, user: string, conn: Id, rows: seq<Id>)
    requires OpenRows(positions, user, conn, rows)
    ensures forall id :: id in rows ==> id in positions
  {
  }

  // ----- whose write decides

  /** A call that holds positions and writes them is then the last to have written its connection. */
  lemma WriteDecides(steps: seq<Step>, c: Id, now: Time)
    requires var s := Run(Initial, steps);
             c in s.calls && HoldsPositions(s.calls[c]) && Writable(s.db, ReplaceTxn(s.calls[c], now))
    ensures var txn := ReplaceTxn(Run(Initial, steps).calls[c], now);
            LastWritten(steps + [WritePositions(c, now)], txn.conn) == Some(txn.snapshots)
  {
    var s, more := Run(Initial, steps), steps + [WritePositions(c, now)];
    assert more[..|more| - 1] == steps;
    AlwaysPlacing(steps);
    var txn := ReplaceTxn(s.calls[c], now);
    ReplaceOkIff(s.db, txn.user, txn.conn, txn.environment, txn.snapshots, txn.now);
    hide Run, Sound, Placing, ReplaceOpenPositions, Insertable, MapOrderState, RecordTxn;
  }

  /** With nothing in between, that write is its own: the check passes iff the positions just fetched match. */
  lemma UndisturbedPreflight(steps: seq<Step>, c: Id, now: Time, rows: seq<Id>, sizedAgainst: seq<Position>)
    requires DistinctRows(sizedAgainst)
    requires var s := Run(Initial, steps);
             && c in s.calls && s.calls[c].SubmitFetched? && Writable(s.db, ReplaceTxn(s.calls[c], now))
             && s.calls[c].proposal.fingerprint == Some(Fingerprint(sizedAgainst))
    ensures var s := Run(Initial, steps);
            var written := Next(s, WritePositions(c, now));
            OpenRows(written.db.positions, s.calls[c].user, s.calls[c].proposal.connectionId, rows) ==>
            (Passes(written, c, rows) <==> forall terms :: Holds(sizedAgainst, terms) <==>
             Live(s.calls[c].snapshots, terms))
  {
    var s, more := Run(Initial, steps), steps + [WritePositions(c, now)];
    assert more[..|more| - 1] == steps;
    AlwaysPlacing(steps);
    PreflightWrites(s, c, now);
    WriteDecides(steps, c, now);
    assert Run(Initial, more) == Next(s, WritePositions(c, now));
    hide Next, Run, Sound, Placing, OpenRows, Holds, Live, Passes, Writable, DistinctRows, LastWritten, Fingerprint;
    PreflightPassesIff(more, c, rows, sizedAgainst);
  }

  /** Writing the positions a preflight fetched: the call goes on to its check. */
  lemma PreflightWrites(s: System, c: Id, now: Time)
    requires Sound(s.db) && c in s.calls && s.calls[c].SubmitFetched? && Writable(s.db, ReplaceTxn(s.calls[c], now))
    ensures var written, call := Next(s, WritePositions(c, now)), s.calls[c];
            written.calls == s.calls[c := SubmitWritten(call.user, call.pid, call.input, call.proposal)]
  {
    var call := s.calls[c];
    ReplaceOkIff(s.db, call.user, call.proposal.connectionId, call.proposal.environment, call.snapshots, call.readAt);
    hide Sound, ReplaceOpenPositions, Insertable, Apply;
  }

  // ----- a run in which the write of another call decides

  const HELD := PositionSnapshot(PositionKey(Linear, "ETHUSDT", 0),
                                 PositionTerms(Buy, 1.0, 10.0, 10.0, None, 10.0, None, None, None, 0.0, 0.0, 1, 1))

  /**
   The preflight of a proposal sized against an empty portfolio fetches a position, and a poll that saw
   none is written after it.
   */
  const OVERTAKEN := SETUP + Reads([HELD]) + [WritePositions(0, 2)] + [PollPositions(1, "u", 0, [])] +
    [WritePositions(1, 3)]

  lemma PollsEmpty(s: System)
    requires s.calls == map[0 := SubmitWritten("u", 1, INPUT, OFFER)]
    requires Owned(s.db.connections, "u", 0)
    ensures var after := Next(s, PollPositions(1, "u", 0, []));
            && after.db == s.db
            && after.calls == map[0 := SubmitWritten("u", 1, INPUT, OFFER),
                                  1 := PositionsPolled("u", 0, s.db.connections[0].environment, [])]
  {
    NothingHappens(s.db);
    hide Apply;
  }

  lemma WritesHeld(s: System)
    requires Sound(s.db) &&
             s == Initial.(db := TRADING, calls := map[0 := SubmitFetched("u", 1, INPUT, OFFER, [HELD], 2)])
    ensures var after := Next(s, WritePositions(0, 2));
            after.calls == map[0 := SubmitWritten("u", 1, INPUT, OFFER)] && Owned(after.db.connections, "u", 0)
  {
    hide Next, Sound;
    PreflightWrites(s, 0, 2);
    WritesKeepAccounts(s, 0, 2);
  }

  lemma WritesKeepAccounts(s: System, c: Id, now: Time)
    requires Sound(s.db)
    ensures Next(s, WritePositions(c, now)).db.connections == s.db.connections
  {
    hide Next, Sound, Apply, TxnOf, ReplaceOpenPositions;
    NextParts(s, WritePositions(c, now));
    WrittenTxn(s, c, now);
    if c in s.calls && HoldsPositions(s.calls[c]) {
      var txn := ReplaceTxn(s.calls[c], now);
      ReplaceApplies(s.db, txn);
      ReplaceLeaves(s.db, txn.user, txn.conn, txn.environment, txn.snapshots, txn.now);
    } else {
      NothingHappens(s.db);
    }
  }

  /** Writing the positions a poll fetched ends the poll. */
  lemma PollWrites(s: System, c: Id, now: Time)
    requires Sound(s.db) && c in s.calls && s.calls[c].PositionsPolled? && Writable(s.db, ReplaceTxn(s.calls[c], now))
    ensures var after, call := Next(s, WritePositions(c, now)), s.calls[c];
            after.calls == s.calls - {c} && ReplacedExactly(s.db, after.db, call.user, call.conn, call.snapshots, now)
  {
    hide Next, Sound, Apply, TxnOf, ReplaceOpenPositions, ReplacedExactly, Moved;
    var call := s.calls[c];
    NextParts(s, WritePositions(c, now));
    WrittenTxn(s, c, now);
    PollEnds(s, c, now);
    ReplaceApplies(s.db, ReplaceTxn(call, now));
    ReplaceOkIff(s.db, call.user, call.conn, call.environment, call.snapshots, now);
    ReplacementExact(s.db, call.user, call.conn, call.environment, call.snapshots, now);
  }

  lemma PollEnds(s: System, c: Id, now: Time)
    requires c in s.calls && s.calls[c].PositionsPolled?
    ensures Moved(s, WritePositions(c, now)).calls == s.calls - {c}
  {
    hide ReplaceOpenPositions;
  }

  lemma WritesEmpty(s: System, environment: Environment)
    requires Sound(s.db) &&
             s.calls == map[0 := SubmitWritten("u", 1, INPUT, OFFER), 1 := PositionsPolled("u", 0, environment, [])]
    ensures var after := Next(s, WritePositions(1, 3));
            after.calls == map[0 := SubmitWritten("u", 1, INPUT, OFFER)] && OpenRows(after.db.positions, "u", 0, [])
  {
    hide Next, Sound, RowReplaced, Shown;
    PollWrites(s, 1, 3);
  }

  /**
   In this run the portfolio check passes although the positions this submission fetched differ from those its
   proposal was sized against: a poll of the worker was written between its own write and its check.
   */
  lemma OvertakenPreflight()
    ensures var s := Run(Initial, OVERTAKEN);
            && AtCheck(s, 0, []) && OpenRows(s.db.positions, "u", 0, []) && Passes(s, 0, [])
    ensures var fetched := Run(Initial, SETUP + Reads([HELD]));
            && 0 in fetched.calls && fetched.calls[0] == SubmitFetched("u", 1, INPUT, OFFER, [HELD], 2)
    ensures !forall terms :: Holds([], terms) <==> Live([HELD], terms)
  {
    hide Next, Sound, Placing, Passes, OpenRows, Live, Holds;
    ReadsDone([HELD]);
    var start := SETUP + Reads([HELD]);
    var s0 := Run(Initial, start);
    RunSnoc(Initial, start, WritePositions(0, 2));
    RunSnoc(Initial, start + [WritePositions(0, 2)], PollPositions(1, "u", 0, []));
    RunSnoc(Initial, start + [WritePositions(0, 2)] + [PollPositions(1, "u", 0, [])], WritePositions(1, 3));
    AlwaysPlacing(start);
    AlwaysPlacing(start + [WritePositions(0, 2)] + [PollPositions(1, "u", 0, [])]);
    var s1 := Next(s0, WritePositions(0, 2));
    var s2 := Next(s1, PollPositions(1, "u", 0, []));
    WritesHeld(s0);
    PollsEmpty(s1);
    WritesEmpty(s2, s1.db.connections[0].environment);
    hide Run;
    OvertakenLast(start);
    PreflightPassesIff(OVERTAKEN, 0, [], []);
    NothingLive();
    HeldIsLive();
  }

  lemma NothingLive()
    ensures DistinctRows([]) && Fingerprint([]) == []
    ensures forall terms :: Holds([], terms) <==> Live([], terms)
  {
  }

  lemma HeldIsLive()
    ensures Live([HELD], RiskOf(HELD.key, HELD.terms)) && !Holds([], RiskOf(HELD.key, HELD.terms))
  {
    assert [HELD][0] == HELD;
  }

  lemma OvertakenLast(start: seq<Step>)
    requires start == SETUP + Reads([HELD])
    requires var s := Run(Initial, start + [WritePositions(0, 2)] + [PollPositions(1, "u", 0, [])]);
             1 in s.calls && s.calls[1].PositionsPolled? && s.calls[1].snapshots == [] && s.calls[1].conn == 0
    ensures LastWritten(OVERTAKEN, 0) == Some([])
  {
    var steps := start + [WritePositions(0, 2)] + [PollPositions(1, "u", 0, [])];
    WriteDecides(steps, 1, 3);
    hide Run, LastWritten;
    assert OVERTAKEN == steps + [WritePositions(1, 3)];
  }
}
