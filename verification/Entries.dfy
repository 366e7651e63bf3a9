/**
 When an order or an action is inserted, and with which columns, in the fields of the rows a transaction reads:
 the review the user confirmed is theirs, for this proposal or target, unused, unexpired and of the same hash.
 */
module Entries {
  import opened Common
  import opened ExecutionDomain
  import opened Transactions
  import opened Ledger
  import opened History
  import opened Interleaving
  import opened Submissions
  import opened PendingActions

  // ----- orders

  /** The confirmed review is of this proposal and hash, and still good at this moment. */
  predicate ReviewHolds(db: Db, user: string, pid: Id, input: SubmitInput, now: Time) {
    && input.reviewId in db.reviews
    && db.reviews[input.reviewId].userId == user
    && db.reviews[input.reviewId].proposalId == pid
    && db.reviews[input.reviewId].consumedAt == None
    && now < db.reviews[input.reviewId].expiresAt
    && input.proposalHash == db.reviews[input.reviewId].proposalHash
  }

  /** The proposal is the user's, available and unexpired, on their healthy active account with a key. */
  predicate ProposalHolds(db: Db, user: string, pid: Id, now: Time) {
    && pid in db.proposals
    && db.proposals[pid].userId == user
    && db.proposals[pid].payload.status == ProposalStatus.Available
    && now < db.proposals[pid].payload.expiresAt
    && var conn := db.proposals[pid].payload.connectionId;
       && conn in db.connections
       && db.connections[conn].userId == user
       && db.connections[conn].status == ConnectionStatus.Healthy
       && db.connections[conn].hasCredential
       && user in db.contexts && db.contexts[user].connectionId == conn
  }

  /** Everything a submission needs to insert an order. */
  ghost predicate MaySubmit(db: Db, user: string, pid: Id, input: SubmitInput, now: Time) {
    && (forall o :: o in db.orders && db.orders[o].userId == user ==>
          db.orders[o].idempotencyKey != input.idempotencyKey)
    && ReviewHolds(db, user, pid, input, now)
    && ProposalHolds(db, user, pid, now)
  }

  /** The order asks for exactly what the proposal fixes, on its account, under the key, linked by its own id. */
  predicate OrdersProposal(order: Order, o: Id, db: Db, user: string, pid: Id, key: string, now: Time)
    requires pid in db.proposals && db.proposals[pid].payload.connectionId in db.connections
  {
    var proposal := db.proposals[pid].payload;
    && order.userId == user && order.proposalId == pid && order.idempotencyKey == key && order.linkId == o
    && order.connectionId == proposal.connectionId
    && order.environment == db.connections[proposal.connectionId].environment
    && order.state == OrderState.Submitting
    && order.facts.category == proposal.category && order.facts.symbol == proposal.symbol
    && order.facts.side == proposal.side && order.facts.orderType == proposal.orderType
    && order.facts.quantity == proposal.quantity && order.facts.leaves == proposal.quantity
    && order.facts.executed == 0.0 && order.facts.averagePrice == None
    && order.brokerOrderId == None && order.brokerStatus == None && order.lastReconciledAt == None
    && order.errorCode == None && order.createdAt == now && order.updatedAt == now
  }

  /** What inserting an order does: one order, one consumed review, one submitted proposal, nothing else. */
  ghost predicate OrderEntered(db: Db, after: Db, user: string, pid: Id, input: SubmitInput, now: Time)
    requires MaySubmit(db, user, pid, input, now)
  {
    var o := db.nextId;
    && after.orders.Keys == db.orders.Keys + {o}
    && (forall other :: other in db.orders && other != o ==> after.orders[other] == db.orders[other])
    && OrdersProposal(after.orders[o], o, db, user, pid, input.idempotencyKey, now)
    && after.reviews == db.reviews[input.reviewId := db.reviews[input.reviewId].(consumedAt := Some(now))]
    && after.proposals.Keys == db.proposals.Keys
    && (forall p :: p in db.proposals && p != pid ==> after.proposals[p] == db.proposals[p])
    && after.proposals[pid] ==
       db.proposals[pid].(status := ProposalStatus.Submitted, updatedAt := now,
                          payload := db.proposals[pid].payload.(status := ProposalStatus.Submitted, updatedAt := now))
    && after.connections == db.connections && after.contexts == db.contexts && after.positions == db.positions
    && after.actions == db.actions && after.actionReviews == db.actionReviews && after.checkpoints == db.checkpoints
  }

  lemma RefusedIff(db: Db, user: string, pid: Id, input: SubmitInput, now: Time)
    ensures SubmissionRefusal(db, user, pid, input, now).None? <==>
            ReviewHolds(db, user, pid, input, now) && ProposalHolds(db, user, pid, now)
    ensures OrderKeyTaken(db, user, input.idempotencyKey) <==>
            !(forall o :: o in db.orders && db.orders[o].userId == user ==>
                db.orders[o].idempotencyKey != input.idempotencyKey)
  {
  }

  lemma BegunEnters(db: Db, user: string, pid: Id, input: SubmitInput, now: Time)
    requires MaySubmit(db, user, pid, input, now)
    ensures OrderEntered(db, SubmissionBegun(db, user, pid, input, now), user, pid, input, now)
  {
  }

  /** A submission inserts its order exactly when it may, and otherwise changes nothing. */
  lemma SubmissionEntersIff(db: Db, user: string, pid: Id, input: SubmitInput, now: Time)
    requires Sound(db)
    ensures var after := After(db, BeginSubmission(db, user, pid, input, now));
            if MaySubmit(db, user, pid, input, now) then OrderEntered(db, after, user, pid, input, now)
            else after == db
  {
    RefusedIff(db, user, pid, input, now);
    hide Sound, SubmissionRefusal, SubmissionBegun, ReviewHolds, ProposalHolds, OrderEntered, OrderInsertable;
    if MaySubmit(db, user, pid, input, now) {
      BeginInsertable(db, user, pid, input, now);
      BegunEnters(db, user, pid, input, now);
    }
  }

  lemma BeginIs(db: Db, txn: Txn)
    requires txn.Begin?
    ensures Apply(db, txn) == After(db, BeginSubmission(db, txn.user, txn.pid, txn.input, txn.now))
  {
    hide BeginSubmission;
  }

  /**
   A transaction inserts an order if and only if it is a submission under a key the user has not used, whose
   confirmed review is theirs, of this proposal and hash, unused and unexpired, of an unexpired available proposal
   on their healthy active account.
   */
  lemma InsertsOrderIff(db: Db, txn: Txn, o: Id)
    requires Sound(db) && o !in db.orders
    ensures o in Apply(db, txn).orders <==>
            txn.Begin? && o == db.nextId && MaySubmit(db, txn.user, txn.pid, txn.input, txn.now)
    ensures txn.Begin? && MaySubmit(db, txn.user, txn.pid, txn.input, txn.now) ==>
              OrderEntered(db, Apply(db, txn), txn.user, txn.pid, txn.input, txn.now)
  {
    hide Sound, Apply, MaySubmit;
    if txn.Begin? {
      BeginIs(db, txn);
      SubmissionEntersIff(db, txn.user, txn.pid, txn.input, txn.now);
    } else {
      OrderKeysStay(db, txn);
    }
  }

  /** The same of every step of every call, in every run. */
  lemma StepEntersIff(steps: seq<Step>, e: Step, o: Id)
    requires o !in Run(Initial, steps).db.orders
    ensures var s := Run(Initial, steps);
            o in Next(s, e).db.orders <==>
              && e.BeginOrder? && e.c in s.calls && s.calls[e.c].SubmitReady? && o == s.db.nextId
              && MaySubmit(s.db, s.calls[e.c].user, s.calls[e.c].pid, s.calls[e.c].input, e.now)
  {
    AlwaysPlacing(steps);
    var s := Run(Initial, steps);
    hide Run, Sound, Placing, MaySubmit, Apply, Moved;
    InsertsOrderIff(s.db, TxnOf(s, e), o);
    OnlyBegins(s, e);
  }

  lemma OnlyBegins(s: System, e: Step)
    ensures TxnOf(s, e).Begin? <==> e.BeginOrder? && e.c in s.calls && s.calls[e.c].SubmitReady?
    ensures TxnOf(s, e).Begin? ==>
              TxnOf(s, e) == Begin(s.calls[e.c].user, s.calls[e.c].pid, s.calls[e.c].input, e.now)
  {
    if e.Account? { AccountTxnKind(s, e.c, e.act); }
    hide AccountTxn, MapOrderState, Clip;
  }

  // ----- actions

  /** The confirmed action review is of this target, type and hash, and still good at this moment. */
  predicate ActionReviewHolds(db: Db, user: string, actionType: ActionType, target: Id, input: ConfirmInput,
                              now: Time) {
    && input.reviewId in db.actionReviews
    && db.actionReviews[input.reviewId].userId == user
    && db.actionReviews[input.reviewId].actionType == actionType
    && db.actionReviews[input.reviewId].targetId == target
    && db.actionReviews[input.reviewId].consumedAt == None
    && now < db.actionReviews[input.reviewId].expiresAt
    && input.actionHash == db.actionReviews[input.reviewId].actionHash
  }

  /** A cancel is of an order of the user, the others of a position of theirs. */
  predicate TargetOwned(db: Db, user: string, actionType: ActionType, target: Id) {
    match actionType
    case CancelOrder => target in db.orders && db.orders[target].userId == user
    case ClosePosition => target in db.positions && db.positions[target].userId == user
    case UpdateProtection => target in db.positions && db.positions[target].userId == user
  }

  /** Everything an action needs to start: no other one of the user on the target still waits for the broker. */
  ghost predicate MayAct(db: Db, user: string, actionType: ActionType, target: Id, input: ConfirmInput, now: Time) {
    && TargetOwned(db, user, actionType, target)
    && ActionReviewHolds(db, user, actionType, target, input, now)
    && (forall a :: a in db.actions && db.actions[a].userId == user ==>
          && db.actions[a].idempotencyKey != input.idempotencyKey
          && (db.actions[a].targetId == target ==>
                db.actions[a].state == ActionState.Completed || db.actions[a].state == ActionState.Rejected))
  }

  /** The action carries out the confirmed review; only a close places an order of its own, linked by its id. */
  predicate ActsOnReview(action: Action, a: Id, db: Db, user: string, actionType: ActionType, target: Id,
                         input: ConfirmInput, now: Time)
    requires input.reviewId in db.actionReviews
  {
    && action.reviewId == input.reviewId && action.userId == user && action.actionType == actionType
    && action.targetId == target && action.idempotencyKey == input.idempotencyKey
    && action.connectionId == db.actionReviews[input.reviewId].terms.connectionId
    && action.state == ActionState.Submitting
    && (if actionType == ActionType.ClosePosition then action.linkId == Some(a) else action.linkId == None)
    && action.brokerOrderId == None && action.errorCode == None && action.createdAt == now && action.updatedAt == now
  }

  /** What starting an action does: one action, one consumed review, and a cancel marks its order. */
  ghost predicate ActionEntered(db: Db, after: Db, user: string, actionType: ActionType, target: Id,
                                input: ConfirmInput, now: Time)
    requires MayAct(db, user, actionType, target, input, now)
  {
    var a := db.nextId;
    && after.actions.Keys == db.actions.Keys + {a}
    && (forall other :: other in db.actions && other != a ==> after.actions[other] == db.actions[other])
    && ActsOnReview(after.actions[a], a, db, user, actionType, target, input, now)
    && after.actionReviews ==
       db.actionReviews[input.reviewId := db.actionReviews[input.reviewId].(consumedAt := Some(now))]
    && after.orders.Keys == db.orders.Keys
    && (forall o :: o in db.orders ==>
          after.orders[o] == if actionType == ActionType.CancelOrder && o == target
                             then db.orders[o].(state := OrderState.Cancelling, updatedAt := now) else db.orders[o])
    && after.connections == db.connections && after.contexts == db.contexts && after.positions == db.positions
    && after.proposals == db.proposals && after.reviews == db.reviews && after.checkpoints == db.checkpoints
  }

  lemma ActionRefusedIff(db: Db, user: string, actionType: ActionType, target: Id, input: ConfirmInput, now: Time)
    ensures OwnsTarget(db, user, actionType, target) && !ActionKeyTaken(db, user, input.idempotencyKey) &&
              ActionRefusal(db, user, actionType, target, input, now).None? <==>
            MayAct(db, user, actionType, target, input, now)
  {
    OwnedIff(db, user, actionType, target);
    ReviewRefusedIff(db, user, actionType, target, input, now);
    hide OwnsTarget, TargetOwned, ActionReviewHolds, ActionRefusal;
  }

  lemma OwnedIff(db: Db, user: string, actionType: ActionType, target: Id)
    ensures OwnsTarget(db, user, actionType, target) <==> TargetOwned(db, user, actionType, target)
  {
  }

  lemma ReviewRefusedIff(db: Db, user: string, actionType: ActionType, target: Id, input: ConfirmInput, now: Time)
    ensures ActionRefusal(db, user, actionType, target, input, now).None? <==>
            !ActionAwaited(db, user, target) && ActionReviewHolds(db, user, actionType, target, input, now)
  {
    hide ActionAwaited;
  }

  lemma ActedEnters(db: Db, user: string, actionType: ActionType, target: Id, input: ConfirmInput, now: Time)
    requires MayAct(db, user, actionType, target, input, now)
    ensures ActionEntered(db, ActionBegun(db, user, actionType, target, input, now), user, actionType, target, input,
                          now)
  {
  }

  /** An action starts exactly when it may, and otherwise nothing changes. */
  lemma ActionEntersIff(db: Db, user: string, actionType: ActionType, target: Id, input: ConfirmInput, now: Time)
    requires Sound(db)
    ensures var after := After(db, BeginAction(db, user, actionType, target, input, now));
            if MayAct(db, user, actionType, target, input, now)
            then ActionEntered(db, after, user, actionType, target, input, now) else after == db
  {
    ActionRefusedIff(db, user, actionType, target, input, now);
    hide Sound, ActionRefusal, ActionBegun, OwnsTarget, ActionKeyTaken, MayAct, ActionEntered, ActionInsertable;
    if MayAct(db, user, actionType, target, input, now) {
      ActInsertable(db, user, actionType, target, input, now);
      ActedEnters(db, user, actionType, target, input, now);
    }
  }

  lemma ActIs(db: Db, txn: Txn)
    requires txn.Act?
    ensures Apply(db, txn) == After(db, BeginAction(db, txn.user, txn.actionType, txn.target, txn.confirm, txn.now))
  {
    hide BeginAction;
  }

  /**
   A transaction inserts an action if and only if it starts one under a key the user has not used, on a target of
   theirs with no action pending, confirmed by an unused and unexpired review of theirs with the same type, target
   and hash.
   */
  lemma InsertsActionIff(db: Db, txn: Txn, a: Id)
    requires Sound(db) && a !in db.actions
    ensures a in Apply(db, txn).actions <==>
            txn.Act? && a == db.nextId && MayAct(db, txn.user, txn.actionType, txn.target, txn.confirm, txn.now)
    ensures txn.Act? && MayAct(db, txn.user, txn.actionType, txn.target, txn.confirm, txn.now) ==>
              ActionEntered(db, Apply(db, txn), txn.user, txn.actionType, txn.target, txn.confirm, txn.now)
  {
    hide Sound, Apply, MayAct;
    if txn.Act? {
      ActIs(db, txn);
      ActionEntersIff(db, txn.user, txn.actionType, txn.target, txn.confirm, txn.now);
    } else if txn.SetAction? {
      MarkInsertsNone(db, txn, a);
    } else {
      TxnAdvances(db, txn);
    }
  }

  lemma MarkInsertsNone(db: Db, txn: Txn, a: Id)
    requires txn.SetAction? && a !in db.actions
    ensures a !in Apply(db, txn).actions
  {
    hide InsertProposal, RejectProposal, CreateConnection, MarkConnection, SaveAccountSnapshot, SwitchContext,
         RevokeConnection, CreateReview, CreateActionReview, ReplaceOpenPositions, BeginSubmission, SetOrderState,
         BeginAction, ReconcileOrder;
  }
}
