/**
 What a step may do to one action: nothing, the single mark of its own call, or completion on broker
 evidence that matches what the user reviewed.
 */
module Evidence {
  import opened Common
  import opened ExecutionDomain
  import opened Transactions
  import opened Ledger
  import opened Positions
  import opened Interleaving
  import opened Submissions
  import opened PendingActions

  /** The broker no longer lists the action's open position. */
  ghost predicate PositionVanished(db: Db, action: Action, conn: Id, snapshots: seq<PositionSnapshot>) {
    && action.actionType == ActionType.ClosePosition
    && action.targetId in db.positions
    && db.positions[action.targetId].connectionId == conn
    && db.positions[action.targetId].state == PositionState.Open
    && !Listed(snapshots, db.positions[action.targetId].key)
  }

  /** The broker lists the action's position with exactly the reviewed stop and target. */
  ghost predicate ProtectionSeen(db: Db, action: Action, conn: Id, snapshots: seq<PositionSnapshot>) {
    && action.actionType == ActionType.UpdateProtection
    && action.targetId in db.positions
    && db.positions[action.targetId].connectionId == conn
    && action.reviewId in db.actionReviews
    && exists i :: 0 <= i < |snapshots| && snapshots[i].key == db.positions[action.targetId].key &&
                   snapshots[i].terms.stopLoss == db.actionReviews[action.reviewId].terms.stopLoss &&
                   snapshots[i].terms.takeProfit == db.actionReviews[action.reviewId].terms.takeProfit
  }

  /** The written snapshot says the action's order is cancelled. */
  predicate OrderCancelled(action: Action, orderId: Id, state: OrderState) {
    action.actionType == ActionType.CancelOrder && action.targetId == orderId && state == OrderState.Cancelled
  }

  /** The transaction writes broker evidence that the action did what was reviewed. */
  ghost predicate Proves(db: Db, txn: Txn, action: Action) {
    match txn
    case Reconcile(orderId, _, state, _) => OrderCancelled(action, orderId, state)
    case Replace(_, conn, _, snapshots, _) =>
      PositionVanished(db, action, conn, snapshots) || ProtectionSeen(db, action, conn, snapshots)
    case _ => false
  }

  lemma ReconcileProves(db: Db, orderId: Id, snapshot: OrderSnapshot, state: OrderState, now: Time, a: Id)
    requires a in db.actions
    ensures var after := After(db, ReconcileOrder(db, orderId, snapshot, state, now)).actions;
            a in after && (after[a] == db.actions[a] || OrderCancelled(db.actions[a], orderId, state))
  {
  }

  /** Within the loop, an action only changes when its position is listed with the reviewed protection. */
  lemma {:induction false} UpsertsProve(db: Db, user: string, conn: Id, environment: Environment,
                                        snapshots: seq<PositionSnapshot>, at: Time, a: Id)
    requires PositionsUnique(db.positions) && DrawnBefore(db.positions, db.nextId)
    requires UpsertPositions(db, user, conn, environment, snapshots, at).Ok?
    requires a in db.actions
    ensures var after := UpsertPositions(db, user, conn, environment, snapshots, at).value.actions;
            a in after && (after[a] == db.actions[a] || ProtectionSeen(db, db.actions[a], conn, snapshots))
  {
    hide PositionsUnique, DrawnBefore, UpsertFrame, UpsertPosition, ProtectionSeen;
    if |snapshots| != 0 {
      var before := snapshots[..|snapshots| - 1];
      var mid := UpsertPositions(db, user, conn, environment, before, at).value;
      UpsertsFrame(db, user, conn, environment, before, at);
      UpsertsProve(db, user, conn, environment, before, at, a);
      UpsertKeepsAction(db, mid, user, conn, environment, snapshots[|snapshots| - 1], at, a);
      if ProtectionSeen(db, db.actions[a], conn, before) {
        SeenLonger(db, db.actions[a], conn, before, snapshots);
      } else {
        UpsertProves(db, mid, user, conn, environment, snapshots, at, a);
      }
    }
  }

  lemma UpsertKeepsAction(db: Db, mid: Db, user: string, conn: Id, environment: Environment,
                          snapshot: PositionSnapshot, at: Time, a: Id)
    requires a in mid.actions && UpsertPosition(db.positions, mid, user, conn, environment, snapshot, at).Ok?
    ensures a in UpsertPosition(db.positions, mid, user, conn, environment, snapshot, at).value.actions
  {
  }

  lemma SeenLonger(db: Db, action: Action, conn: Id, before: seq<PositionSnapshot>, snapshots: seq<PositionSnapshot>)
    requires before <= snapshots && ProtectionSeen(db, action, conn, before)
    ensures ProtectionSeen(db, action, conn, snapshots)
  {
  }

  lemma UpsertProves(db: Db, mid: Db, user: string, conn: Id, environment: Environment,
                     snapshots: seq<PositionSnapshot>, at: Time, a: Id)
    requires |snapshots| > 0 && UpsertFrame(db, mid, user, conn)
    requires UpsertPosition(db.positions, mid, user, conn, environment, snapshots[|snapshots| - 1], at).Ok?
    requires a in db.actions && mid.actions[a] == db.actions[a]
    ensures var after := UpsertPosition(db.positions, mid, user, conn, environment, snapshots[|snapshots| - 1],
                                        at).value.actions;
            a in after && (after[a] == db.actions[a] || ProtectionSeen(db, db.actions[a], conn, snapshots))
  {
  }

  lemma ReplaceProves(db: Db, user: string, conn: Id, environment: Environment, snapshots: seq<PositionSnapshot>,
                      now: Time, a: Id)
    requires Sound(db) && a in db.actions
    ensures var after := After(db, ReplaceOpenPositions(db, user, conn, environment, snapshots, now)).actions;
            a in after && (after[a] == db.actions[a] || PositionVanished(db, db.actions[a], conn, snapshots) ||
                           ProtectionSeen(db, db.actions[a], conn, snapshots))
  {
    var upserts := UpsertPositions(db, user, conn, environment, snapshots, now);
    if upserts.Ok? {
      UpsertsProve(db, user, conn, environment, snapshots, now, a);
      UpsertsFrame(db, user, conn, environment, snapshots, now);
      UpsertsTouch(db, user, conn, environment, snapshots, now);
      assert Targets(db.orders, db.positions, db.actions[a]);
      hide Sound, UpsertPositions, ProtectionSeen;
      CloseProves(db, upserts.value, user, conn, snapshots, now, a);
    }
  }

  lemma CloseProves(db: Db, mid: Db, user: string, conn: Id, snapshots: seq<PositionSnapshot>, now: Time, a: Id)
    requires UpsertFrame(db, mid, user, conn) && Touched(db, mid, user, conn, snapshots)
    requires a in db.actions && Targets(db.orders, db.positions, db.actions[a])
    requires a in mid.actions && (mid.actions[a] == db.actions[a] || ProtectionSeen(db, db.actions[a], conn, snapshots))
    ensures var after := CloseVanished(mid, conn, Vanished(mid.positions, conn, SeenKeys(snapshots)), now).actions;
            a in after && (after[a] == db.actions[a] || PositionVanished(db, db.actions[a], conn, snapshots) ||
                           ProtectionSeen(db, db.actions[a], conn, snapshots))
  {
  }

  /** Outside starting and marking, a transaction changes an action only on evidence. */
  lemma TxnProves(db: Db, txn: Txn, a: Id)
    requires Sound(db) && a in db.actions && !txn.Act? && !txn.SetAction?
    ensures a in Apply(db, txn).actions
    ensures Apply(db, txn).actions[a] == db.actions[a] || Proves(db, txn, db.actions[a])
  {
    hide Sound, PositionVanished, ProtectionSeen, OrderCancelled, BeginSubmission, ReplaceOpenPositions,
         ReconcileOrder;
    match txn
    case Reconcile(orderId, snapshot, state, now) => ReconcileProves(db, orderId, snapshot, state, now, a);
    case Replace(user, conn, environment, snapshots, now) =>
      ReplaceProves(db, user, conn, environment, snapshots, now, a);
    case Begin(user, pid, input, now) => BeginLeavesActions(db, user, pid, input, now);
    case _ => OthersLeaveActions(db, txn);
  }

  /** One step as seen by one action. */
  ghost predicate ActionStep(s: System, e: Step, before: Action, after: Action) {
    || after == before
    || (e.RecordAction? && Marked(before, after))
    || (AwaitsEvidence(before.state) && Proves(s.db, TxnOf(s, e), before) &&
        after == CompleteAction(before, after.updatedAt))
  }

  lemma StartLeaves(db: Db, txn: Txn, a: Id)
    requires txn.Act? && a in db.actions && DrawnBefore(db.actions, db.nextId)
    ensures a in Apply(db, txn).actions && Apply(db, txn).actions[a] == db.actions[a]
  {
  }

  lemma OtherStepOnAction(s: System, e: Step, a: Id)
    requires Sound(s.db) && a in s.db.actions && !e.StartAction? && !e.RecordAction?
    ensures a in Next(s, e).db.actions && ActionStep(s, e, s.db.actions[a], Next(s, e).db.actions[a])
  {
    hide Apply, Moved, Proves, Sound, TxnOf;
    OtherTxn(s, e);
    TxnProves(s.db, TxnOf(s, e), a);
    TxnAdvances(s.db, TxnOf(s, e));
    assert AtMostCompleted(s.db.actions[a], Next(s, e).db.actions[a]);
  }

  lemma StepOnAction(s: System, e: Step, a: Id)
    requires Sound(s.db) && Acting(s.calls, s.db.actions) && a in s.db.actions
    ensures a in Next(s, e).db.actions && ActionStep(s, e, s.db.actions[a], Next(s, e).db.actions[a])
  {
    hide Apply, Moved, Proves, SubmissionsSound, ActionsSound, PositionsUnique, OneRunner, OnePending;
    match e
    case StartAction(c, now) =>
      assert TxnOf(s, e).Act? || TxnOf(s, e).Nothing?;
      if TxnOf(s, e).Act? { StartLeaves(s.db, TxnOf(s, e), a); } else { NothingHappens(s.db); }
    case RecordAction(c, now) =>
      if c in s.calls && s.calls[c].ActionAnswered? { RecordMarks(s, c, now); } else { NothingHappens(s.db); }
    case _ => OtherStepOnAction(s, e, a);
  }

  /**
   In every run and at every step: a finished action never changes again; a call marks its action only
   from submitting; and an action becomes completed only by a transaction that writes matching evidence.
   */
  lemma FinishedForever(steps: seq<Step>, e: Step, a: Id)
    requires a in Run(Initial, steps).db.actions
    ensures var s := Run(Initial, steps);
            var before := s.db.actions[a];
            && a in Next(s, e).db.actions
            && var after := Next(s, e).db.actions[a];
            && (!InFlight(before.state) ==> after == before)
            && (e.RecordAction? && after != before ==> Marked(before, after))
            && (after.state == ActionState.Completed && before.state != ActionState.Completed ==>
                  AwaitsEvidence(before.state) && Proves(s.db, TxnOf(s, e), before))
            && SameAction(before, after)
  {
    AlwaysPlacing(steps);
    AlwaysActing(steps);
    hide Run, Next, Sound, Acting, Placing, Proves, TxnOf;
    StepOnAction(Run(Initial, steps), e, a);
    RecordProvesNothing(Run(Initial, steps), e, Run(Initial, steps).db.actions[a]);
  }

  lemma RecordProvesNothing(s: System, e: Step, action: Action)
    ensures e.RecordAction? ==> !Proves(s.db, TxnOf(s, e), action)
  {
  }

  /** An action review is consumed if and only if exactly one action refers to it. */
  lemma ConsumedIffOneAction(db: Db, r: Id)
    requires Sound(db) && r in db.actionReviews
    ensures db.actionReviews[r].consumedAt.Some? <==>
            exists a :: a in db.actions && db.actions[a].reviewId == r &&
                        forall other :: other in db.actions && db.actions[other].reviewId == r ==> other == a
  {
  }
}
