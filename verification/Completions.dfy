/**
 Exactly when broker evidence completes an action: never without it, and always with it. A cancel completes when its
 order is written as cancelled, a close when its open position is no longer listed, and a protection change when its
 position is listed with exactly the reviewed stop and target.
 */
module Completions {
  import opened Common
  import opened ExecutionDomain
  import opened Transactions
  import opened Ledger
  import opened Positions
  import opened PendingActions
  import opened Evidence
  import opened OrderStatuses

  /** The action still waits for the broker, which has answered it or may have. */
  predicate Waits(action: Action) {
    action.state == ActionState.Acknowledged || action.state == ActionState.ReconciliationRequired
  }

  predicate CompletedAt(before: Action, after: Action, at: Time) {
    after == before.(state := ActionState.Completed, updatedAt := at)
  }

  /** The position is listed, in this snapshot, with the reviewed protection of the action. */
  predicate SeenIn(db: Db, action: Action, conn: Id, snapshot: PositionSnapshot) {
    && action.actionType == ActionType.UpdateProtection
    && action.targetId in db.positions
    && db.positions[action.targetId].connectionId == conn
    && action.reviewId in db.actionReviews
    && snapshot.key == db.positions[action.targetId].key
    && snapshot.terms.stopLoss == db.actionReviews[action.reviewId].terms.stopLoss
    && snapshot.terms.takeProfit == db.actionReviews[action.reviewId].terms.takeProfit
  }

  lemma SeenLast(db: Db, action: Action, conn: Id, snapshots: seq<PositionSnapshot>)
    requires |snapshots| > 0
    ensures ProtectionSeen(db, action, conn, snapshots) <==>
            ProtectionSeen(db, action, conn, snapshots[..|snapshots| - 1]) ||
            SeenIn(db, action, conn, snapshots[|snapshots| - 1])
  {
    var before := snapshots[..|snapshots| - 1];
    assert forall i :: 0 <= i < |before| ==> before[i] == snapshots[i];
  }

  /** One snapshot of the loop completes an action that waits exactly when it shows its reviewed protection. */
  lemma UpsertCompletesIff(db: Db, mid: Db, user: string, conn: Id, environment: Environment,
                           snapshot: PositionSnapshot, at: Time, a: Id)
    requires PositionsUnique(db.positions) && a in mid.actions && mid.actionReviews == db.actionReviews
    requires UpsertPosition(db.positions, mid, user, conn, environment, snapshot, at).Ok?
    ensures var after := UpsertPosition(db.positions, mid, user, conn, environment, snapshot, at).value.actions;
            && a in after
            && if Waits(mid.actions[a]) && SeenIn(db, mid.actions[a], conn, snapshot)
               then CompletedAt(mid.actions[a], after[a], at) else after[a] == mid.actions[a]
  {
    if HasRow(db.positions, conn, snapshot.key) {
      var id := RowOf(db.positions, conn, snapshot.key);
      var target := mid.actions[a].targetId;
      if SeenIn(db, mid.actions[a], conn, snapshot) {
        assert SamePlace(db.positions[target], db.positions[id]);
      }
    }
  }

  lemma {:induction false} UpsertsCompleteIff(db: Db, user: string, conn: Id, environment: Environment,
                                              snapshots: seq<PositionSnapshot>, at: Time, a: Id)
    requires PositionsUnique(db.positions) && DrawnBefore(db.positions, db.nextId)
    requires UpsertPositions(db, user, conn, environment, snapshots, at).Ok?
    requires a in db.actions
    ensures var after := UpsertPositions(db, user, conn, environment, snapshots, at).value.actions;
            && a in after
            && if Waits(db.actions[a]) && ProtectionSeen(db, db.actions[a], conn, snapshots)
               then CompletedAt(db.actions[a], after[a], at) else after[a] == db.actions[a]
  {
    hide PositionsUnique, DrawnBefore, UpsertPosition, ProtectionSeen, SeenIn;
    if |snapshots| == 0 {
      NothingSeen(db, db.actions[a], conn);
    } else {
      var before := snapshots[..|snapshots| - 1];
      var mid := UpsertPositions(db, user, conn, environment, before, at).value;
      UpsertsCompleteIff(db, user, conn, environment, before, at, a);
      UpsertsFrame(db, user, conn, environment, before, at);
      SeenLast(db, db.actions[a], conn, snapshots);
      UpsertCompletesIff(db, mid, user, conn, environment, snapshots[|snapshots| - 1], at, a);
    }
  }

  lemma NothingSeen(db: Db, action: Action, conn: Id)
    ensures !ProtectionSeen(db, action, conn, [])
  {
  }

  /** Closing what vanished completes the close actions on it. */
  lemma ClosingCompletesIff(db: Db, mid: Db, user: string, conn: Id, snapshots: seq<PositionSnapshot>, at: Time, a: Id)
    requires UpsertFrame(db, mid, user, conn) && Touched(db, mid, user, conn, snapshots)
    requires a in db.actions && a in mid.actions && Targets(db.orders, db.positions, db.actions[a])
    requires mid.actions[a] == db.actions[a] || !mid.actions[a].actionType.ClosePosition?
    ensures var after := CloseVanished(mid, conn, Vanished(mid.positions, conn, SeenKeys(snapshots)), at).actions;
            && a in after
            && if Waits(mid.actions[a]) && PositionVanished(db, mid.actions[a], conn, snapshots)
               then CompletedAt(mid.actions[a], after[a], at) else after[a] == mid.actions[a]
  {
    var target := db.actions[a].targetId;
    if target in db.positions { SeenIffListed(snapshots, db.positions[target].key); }
  }

  lemma ReplaceCompletesIff(db: Db, user: string, conn: Id, environment: Environment, snapshots: seq<PositionSnapshot>,
                            at: Time, a: Id)
    requires Sound(db) && a in db.actions
    ensures var after := After(db, ReplaceOpenPositions(db, user, conn, environment, snapshots, at)).actions;
            && a in after
            && if Waits(db.actions[a]) && Insertable(db.positions, conn, snapshots) &&
                  (PositionVanished(db, db.actions[a], conn, snapshots) ||
                   ProtectionSeen(db, db.actions[a], conn, snapshots))
               then CompletedAt(db.actions[a], after[a], at) else after[a] == db.actions[a]
  {
    ReplaceOkIff(db, user, conn, environment, snapshots, at);
    if ReplaceOpenPositions(db, user, conn, environment, snapshots, at).Ok? {
      var mid := UpsertPositions(db, user, conn, environment, snapshots, at).value;
      UpsertsCompleteIff(db, user, conn, environment, snapshots, at, a);
      UpsertsFrame(db, user, conn, environment, snapshots, at);
      UpsertsTouch(db, user, conn, environment, snapshots, at);
      assert Targets(db.orders, db.positions, db.actions[a]);
      KindOf(db, db.actions[a], conn, snapshots);
      hide Sound, UpsertPositions, ProtectionSeen, PositionVanished, UpsertFrame, Touched, Vanished, Insertable;
      ClosingCompletesIff(db, mid, user, conn, snapshots, at, a);
      SameKindVanishes(db, db.actions[a], mid.actions[a], conn, snapshots);
    }
  }

  /** An action waits for one kind of evidence only. */
  lemma KindOf(db: Db, action: Action, conn: Id, snapshots: seq<PositionSnapshot>)
    ensures ProtectionSeen(db, action, conn, snapshots) ==> action.actionType == ActionType.UpdateProtection
    ensures PositionVanished(db, action, conn, snapshots) ==> action.actionType == ActionType.ClosePosition
  {
  }

  lemma SameKindVanishes(db: Db, before: Action, after: Action, conn: Id, snapshots: seq<PositionSnapshot>)
    requires after.actionType == before.actionType && after.targetId == before.targetId
    ensures PositionVanished(db, before, conn, snapshots) <==> PositionVanished(db, after, conn, snapshots)
  {
  }

  lemma ReconciledActions(db: Db, orderId: Id, snapshot: OrderSnapshot, state: OrderState, at: Time)
    ensures After(db, ReconcileOrder(db, orderId, snapshot, state, at)).actions ==
            if orderId in db.orders && state == OrderState.Cancelled
            then CompleteActions(db.actions, ActionType.CancelOrder, {orderId}, at) else db.actions
  {
    hide CompleteActions, ArchiveProposal, ReconciledOrder;
  }

  lemma CancelHasOrder(db: Db, a: Id)
    requires Sound(db) && a in db.actions && db.actions[a].actionType == ActionType.CancelOrder
    ensures db.actions[a].targetId in db.orders
  {
    assert Targets(db.orders, db.positions, db.actions[a]);
  }

  lemma ReconcileCompletesIff(db: Db, orderId: Id, snapshot: OrderSnapshot, state: OrderState, at: Time, a: Id)
    requires Sound(db) && a in db.actions
    ensures var after := After(db, ReconcileOrder(db, orderId, snapshot, state, at)).actions;
            && a in after
            && if Waits(db.actions[a]) && OrderCancelled(db.actions[a], orderId, state)
               then CompletedAt(db.actions[a], after[a], at) else after[a] == db.actions[a]
  {
    hide Sound, ReconcileOrder;
    ReconciledActions(db, orderId, snapshot, state, at);
    if db.actions[a].actionType == ActionType.CancelOrder { CancelHasOrder(db, a); }
  }

  /** The transaction carries evidence for the action: its order written as cancelled, or a list of positions. */
  ghost predicate Confirms(db: Db, txn: Txn, action: Action) {
    match txn
    case Reconcile(orderId, _, state, _) => OrderCancelled(action, orderId, state)
    case Replace(_, conn, _, snapshots, _) =>
      Insertable(db.positions, conn, snapshots) &&
        (PositionVanished(db, action, conn, snapshots) || ProtectionSeen(db, action, conn, snapshots))
    case _ => false
  }

  /** When the evidence was written. */
  function WrittenAt(txn: Txn): Time {
    match txn
    case Reconcile(_, _, _, now) => now
    case Replace(_, _, _, _, now) => now
    case _ => 0
  }

  /**
   Any transaction but starting or marking an action completes an action if and only if the action waits for the
   broker and the transaction carries its evidence; otherwise the action stays as it is.
   */
  lemma CompletesIff(db: Db, txn: Txn, a: Id)
    requires Sound(db) && a in db.actions && !txn.Act? && !txn.SetAction?
    ensures a in Apply(db, txn).actions
    ensures if Waits(db.actions[a]) && Confirms(db, txn, db.actions[a])
            then CompletedAt(db.actions[a], Apply(db, txn).actions[a], WrittenAt(txn))
            else Apply(db, txn).actions[a] == db.actions[a]
  {
    hide Sound, BeginSubmission, ReplaceOpenPositions, ReconcileOrder, OrderCancelled, PositionVanished, ProtectionSeen,
         Insertable;
    match txn
    case Reconcile(orderId, snapshot, state, now) =>
      ReconcileIs(db, txn);
      hide Apply;
      ReconcileCompletesIff(db, orderId, snapshot, state, now, a);
    case Replace(user, conn, environment, snapshots, now) =>
      ReplaceCompletesIff(db, user, conn, environment, snapshots, now, a);
    case Begin(user, pid, input, now) => BeginLeavesActions(db, user, pid, input, now);
    case _ => OthersLeaveActions(db, txn);
  }
}
