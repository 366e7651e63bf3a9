/**
 Replacing the positions of a connection twice with the same snapshots: the second time nothing is inserted,
 closed, completed or archived. Only times change.
 */
module Repeating {
  import opened Common
  import opened ExecutionDomain
  import opened Transactions
  import opened Ledger
  import opened Positions

  /** No action on this position waits for the boundaries these terms show. */
  ghost predicate Idle(actions: map<Id, Action>, reviews: map<Id, ActionReview>, id: Id, terms: PositionTerms) {
    forall a :: a in actions ==>
      !(actions[a].actionType == ActionType.UpdateProtection && actions[a].targetId == id &&
        AwaitsEvidence(actions[a].state) && ProtectionMatches(reviews, actions[a], terms))
  }

  lemma IdleCompletes(actions: map<Id, Action>, reviews: map<Id, ActionReview>, id: Id, terms: PositionTerms, at: Time)
    requires Idle(actions, reviews, id, terms)
    ensures CompleteProtection(actions, reviews, id, terms, at) == actions
  {
  }

  lemma CompletedIdle(actions: map<Id, Action>, reviews: map<Id, ActionReview>, id: Id, terms: PositionTerms, at: Time)
    ensures Idle(CompleteProtection(actions, reviews, id, terms, at), reviews, id, terms)
  {
  }

  /** Actions that only advance stay idle. */
  lemma AdvancedIdle(before: map<Id, Action>, after: map<Id, Action>, reviews: map<Id, ActionReview>, id: Id,
                     terms: PositionTerms)
    requires ActionsAdvance(before, after) && Idle(before, reviews, id, terms)
    ensures Idle(after, reviews, id, terms)
  {
  }

  // ----- the first time

  /** After the upserts nothing waits on a listed position that had a row. */
  lemma {:induction false} UpsertsIdle(db: Db, user: string, conn: Id, environment: Environment,
                                       snapshots: seq<PositionSnapshot>, at: Time, i: nat)
    requires PositionsUnique(db.positions) && DrawnBefore(db.positions, db.nextId) && i < |snapshots|
    requires UpsertPositions(db, user, conn, environment, snapshots, at).Ok? &&
             HasRow(db.positions, conn, snapshots[i].key)
    ensures Idle(UpsertPositions(db, user, conn, environment, snapshots, at).value.actions, db.actionReviews,
                 RowOf(db.positions, conn, snapshots[i].key), snapshots[i].terms)
  {
    var before, last := snapshots[..|snapshots| - 1], snapshots[|snapshots| - 1];
    var mid := UpsertPositions(db, user, conn, environment, before, at).value;
    UpsertsFrame(db, user, conn, environment, before, at);
    if i < |before| {
      UpsertsIdle(db, user, conn, environment, before, at, i);
      UpsertKeepsFrame(db.positions, mid, user, conn, environment, last, at);
      var after := UpsertPosition(db.positions, mid, user, conn, environment, last, at).value;
      hide UpsertPosition, UpsertPositions, Idle;
      AdvancedIdle(mid.actions, after.actions, db.actionReviews, RowOf(db.positions, conn, snapshots[i].key),
                   snapshots[i].terms);
    } else {
      CompletedIdle(mid.actions, mid.actionReviews, RowOf(db.positions, conn, last.key), last.terms, at);
      hide CompleteProtection, Idle;
    }
  }

  /** Every listed position has a row, on which nothing waits. */
  ghost predicate Quiet(db: Db, conn: Id, snapshots: seq<PositionSnapshot>) {
    forall i :: 0 <= i < |snapshots| ==>
      HasRow(db.positions, conn, snapshots[i].key) &&
      Idle(db.actions, db.actionReviews, RowOf(db.positions, conn, snapshots[i].key), snapshots[i].terms)
  }

  /** A row under a key the table already had is the same row. */
  lemma SameRowOf(before: map<Id, Position>, after: map<Id, Position>, conn: Id, key: PositionKey)
    requires PositionsGrow(before, after) && PositionsUnique(after) && HasRow(before, conn, key) &&
             HasRow(after, conn, key)
    ensures RowOf(after, conn, key) == RowOf(before, conn, key)
  {
    var id := RowOf(before, conn, key);
    assert SameRow(before[id], after[id]);
    assert SamePlace(after[id], after[RowOf(after, conn, key)]);
  }

  /** No action targets a row that was only just inserted. */
  lemma NewRowIdle(db: Db, actions: map<Id, Action>, reviews: map<Id, ActionReview>, id: Id, terms: PositionTerms)
    requires ActionsTarget(db.orders, db.positions, db.actions) && ActionsAdvance(db.actions, actions) &&
             id !in db.positions
    ensures Idle(actions, reviews, id, terms)
  {
    forall a | a in actions && actions[a].actionType == ActionType.UpdateProtection ensures actions[a].targetId != id {
      assert Targets(db.orders, db.positions, db.actions[a]);
    }
  }

  lemma OnceQuiet(db: Db, user: string, conn: Id, environment: Environment, snapshots: seq<PositionSnapshot>, at: Time)
    requires Sound(db) && ReplaceOpenPositions(db, user, conn, environment, snapshots, at).Ok?
    ensures Quiet(After(db, ReplaceOpenPositions(db, user, conn, environment, snapshots, at)), conn, snapshots)
  {
    ReplacementExact(db, user, conn, environment, snapshots, at);
    UpsertsFrame(db, user, conn, environment, snapshots, at);
    var mid := UpsertPositions(db, user, conn, environment, snapshots, at).value;
    var closing := Vanished(mid.positions, conn, SeenKeys(snapshots));
    var once := CloseVanished(mid, conn, closing, at);
    assert once == After(db, ReplaceOpenPositions(db, user, conn, environment, snapshots, at));
    CompletedAdvance(mid.actions, ActionType.ClosePosition, closing, at);
    ClosedGrow(mid.positions, closing, at);
    forall i | 0 <= i < |snapshots|
      ensures HasRow(once.positions, conn, snapshots[i].key)
      ensures Idle(once.actions, once.actionReviews, RowOf(once.positions, conn, snapshots[i].key), snapshots[i].terms)
    {
      hide Vanished, ArchiveSymbols, CloseRows, CompleteActions, Idle, ReplaceOpenPositions, UpsertPositions;
      OneQuiet(db, mid, once, user, conn, environment, snapshots, at, i);
    }
    hide Sound, ReplaceOpenPositions, UpsertPositions, ReplacedExactly, Idle, HasRow, CloseVanished;
  }

  lemma OneQuiet(db: Db, mid: Db, once: Db, user: string, conn: Id, environment: Environment,
                 snapshots: seq<PositionSnapshot>, at: Time, i: nat)
    requires i < |snapshots|
    ensures Sound(db) && UpsertPositions(db, user, conn, environment, snapshots, at) == Ok(mid) &&
            UpsertFrame(db, mid, user, conn) && ReplacedExactly(db, once, user, conn, snapshots, at) &&
            ActionsAdvance(mid.actions, once.actions) && PositionsGrow(mid.positions, once.positions) &&
            once.actionReviews == db.actionReviews ==>
            && HasRow(once.positions, conn, snapshots[i].key)
            && Idle(once.actions, once.actionReviews, RowOf(once.positions, conn, snapshots[i].key), snapshots[i].terms)
  {
    if Sound(db) && UpsertPositions(db, user, conn, environment, snapshots, at) == Ok(mid) &&
       UpsertFrame(db, mid, user, conn) && ReplacedExactly(db, once, user, conn, snapshots, at) &&
       ActionsAdvance(mid.actions, once.actions) && PositionsGrow(mid.positions, once.positions) &&
       once.actionReviews == db.actionReviews {
      var key := snapshots[i].key;
      ListedHasRow(db, once, user, conn, snapshots, at, key);
      var id := RowOf(once.positions, conn, key);
      if HasRow(db.positions, conn, key) {
        UpsertsIdle(db, user, conn, environment, snapshots, at, i);
        GrownTwice(db.positions, mid.positions, once.positions);
        SameRowOf(db.positions, once.positions, conn, key);
        AdvancedIdle(mid.actions, once.actions, db.actionReviews, id, snapshots[i].terms);
      } else {
        AdvancedTwice(db.actions, mid.actions, once.actions);
        RowIsNew(db.positions, once.positions, conn, key);
        NewRowIdle(db, once.actions, once.actionReviews, id, snapshots[i].terms);
      }
      hide Idle;
    }
  }

  lemma RowIsNew(before: map<Id, Position>, after: map<Id, Position>, conn: Id, key: PositionKey)
    requires !HasRow(before, conn, key) && HasRow(after, conn, key)
    requires forall id :: id in before && id in after ==> SameRow(before[id], after[id])
    ensures RowOf(after, conn, key) !in before
  {
  }

  lemma GrownTwice(a: map<Id, Position>, b: map<Id, Position>, c: map<Id, Position>)
    requires PositionsGrow(a, b) && PositionsGrow(b, c)
    ensures PositionsGrow(a, c)
  {
  }

  lemma AdvancedTwice(a: map<Id, Action>, b: map<Id, Action>, c: map<Id, Action>)
    requires ActionsAdvance(a, b) && ActionsAdvance(b, c)
    ensures ActionsAdvance(a, c)
  {
  }

  // ----- the second time

  /** On a quiet database the upserts write position rows only. */
  lemma {:induction false} UpsertsOnlyRows(db: Db, user: string, conn: Id, environment: Environment,
                                           snapshots: seq<PositionSnapshot>, at: Time)
    requires Quiet(db, conn, snapshots) && UpsertPositions(db, user, conn, environment, snapshots, at).Ok?
    ensures var mid := UpsertPositions(db, user, conn, environment, snapshots, at).value;
            mid == db.(positions := mid.positions)
  {
    if |snapshots| == 0 {
    } else {
      var before, last := snapshots[..|snapshots| - 1], snapshots[|snapshots| - 1];
      UpsertsOnlyRows(db, user, conn, environment, before, at);
      assert Quiet(db, conn, snapshots);
      IdleCompletes(db.actions, db.actionReviews, RowOf(db.positions, conn, last.key), last.terms, at);
      hide CompleteProtection, Idle;
    }
  }

  /** Closing nothing moves the checkpoint only. */
  lemma ClosesNothing(db: Db, conn: Id, at: Time)
    ensures CloseVanished(db, conn, {}, at) == db.(checkpoints := db.checkpoints[conn := at])
  {
    assert CloseRows(db.positions, {}, at) == db.positions;
    assert CompleteActions(db.actions, ActionType.ClosePosition, {}, at) == db.actions;
    assert ArchiveSymbols(db.proposals, db.positions, {}, at) == db.proposals;
  }

  /** When each open row was listed before the upserts, each is after them. */
  lemma NothingVanishes(db: Db, mid: Db, user: string, conn: Id, snapshots: seq<PositionSnapshot>)
    requires UpsertFrame(db, mid, user, conn) && Touched(db, mid, user, conn, snapshots)
    requires forall id ::
               id in db.positions && db.positions[id].connectionId == conn &&
                 db.positions[id].state == PositionState.Open ==>
               Listed(snapshots, db.positions[id].key)
    ensures Vanished(mid.positions, conn, SeenKeys(snapshots)) == {}
  {
    forall id | id in mid.positions && mid.positions[id].connectionId == conn &&
      mid.positions[id].state == PositionState.Open
      ensures Listed(snapshots, mid.positions[id].key)
    {
      assert id in db.positions ==> SameRow(db.positions[id], mid.positions[id]);
    }
    forall key ensures key in SeenKeys(snapshots) <==> Listed(snapshots, key) { SeenIffListed(snapshots, key); }
  }

  /**
   Replacing again with the same snapshots does not raise and changes reconciliation times only: no position is
   inserted, closed or changed, no action is completed, no proposal archived and no id drawn.
   */
  lemma ReplacingTwice(db: Db, user: string, conn: Id, environment: Environment, snapshots: seq<PositionSnapshot>,
                       at: Time, later: Time)
    requires Sound(db) && ReplaceOpenPositions(db, user, conn, environment, snapshots, at).Ok?
    ensures var once := After(db, ReplaceOpenPositions(db, user, conn, environment, snapshots, at));
            var twice := After(once, ReplaceOpenPositions(once, user, conn, environment, snapshots, later));
            && ReplaceOpenPositions(once, user, conn, environment, snapshots, later).Ok?
            && twice == once.(positions := twice.positions, checkpoints := once.checkpoints[conn := later])
            && twice.positions.Keys == once.positions.Keys
            && forall id :: id in once.positions ==>
                 twice.positions[id] == once.positions[id].(lastReconciledAt := twice.positions[id].lastReconciledAt)
  {
    RowsTwice(db, user, conn, environment, snapshots, at, later);
    ReplacementExact(db, user, conn, environment, snapshots, at);
    AgainOk(db, user, conn, environment, snapshots, at, later);
    OnceQuiet(db, user, conn, environment, snapshots, at);
    hide Quiet;
    var once := After(db, ReplaceOpenPositions(db, user, conn, environment, snapshots, at));
    hide ReplaceOpenPositions;
    OnlyTimes(once, user, conn, environment, snapshots, later);
  }

  lemma OnlyTimes(once: Db, user: string, conn: Id, environment: Environment, snapshots: seq<PositionSnapshot>,
                  later: Time)
    requires Sound(once) && Quiet(once, conn, snapshots) &&
             ReplaceOpenPositions(once, user, conn, environment, snapshots, later).Ok?
    requires forall id ::
               id in once.positions && once.positions[id].connectionId == conn &&
                 once.positions[id].state == PositionState.Open ==>
               Listed(snapshots, once.positions[id].key)
    ensures var twice := After(once, ReplaceOpenPositions(once, user, conn, environment, snapshots, later));
            twice == once.(positions := twice.positions, checkpoints := once.checkpoints[conn := later])
  {
    ReplacementExact(once, user, conn, environment, snapshots, later);
    UpsertsFrame(once, user, conn, environment, snapshots, later);
    UpsertsTouch(once, user, conn, environment, snapshots, later);
    UpsertsOnlyRows(once, user, conn, environment, snapshots, later);
    var mid := UpsertPositions(once, user, conn, environment, snapshots, later).value;
    NothingVanishes(once, mid, user, conn, snapshots);
    ClosesNothing(mid, conn, later);
    hide Sound, UpsertPositions, CloseVanished, Vanished, Quiet, ReplacedExactly;
  }
}
