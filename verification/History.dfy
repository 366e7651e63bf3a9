/**
 What transactions may change over time: the moves of a proposal, the columns an order and an action
 are bound to forever, and the account an order is inserted for.
 */
module History {
  import opened Common
  import opened ExecutionDomain
  import opened Transactions
  import opened Ledger

  /** Orders never disappear and never change what they are bound to. */
  ghost predicate OrdersGrow(before: map<Id, Order>, after: map<Id, Order>) {
    before.Keys <= after.Keys && forall o :: o in before ==> SameBinding(before[o], after[o])
  }

  /** Actions never disappear and never change the review, user, type, target or key they are bound to. */
  ghost predicate ActionsGrow(before: map<Id, Action>, after: map<Id, Action>) {
    before.Keys <= after.Keys && forall a :: a in before ==> SameAction(before[a], after[a])
  }

  predicate SameReview(before: OrderReview, after: OrderReview) {
    after == before || (before.consumedAt.None? && after == before.(consumedAt := after.consumedAt))
  }

  /** A consumed review stays consumed at the same time; nothing else in a review changes. */
  ghost predicate ReviewsGrow(before: map<Id, OrderReview>, after: map<Id, OrderReview>) {
    before.Keys <= after.Keys && forall r :: r in before ==> SameReview(before[r], after[r])
  }

  predicate SameActionReview(before: ActionReview, after: ActionReview) {
    after == before || (before.consumedAt.None? && after == before.(consumedAt := after.consumedAt))
  }

  ghost predicate ActionReviewsGrow(before: map<Id, ActionReview>, after: map<Id, ActionReview>) {
    before.Keys <= after.Keys && forall r :: r in before ==> SameActionReview(before[r], after[r])
  }

  /** Connections keep their owner and environment. */
  predicate SameAccount(before: Connection, after: Connection) {
    after.userId == before.userId && after.environment == before.environment
  }

  ghost predicate ConnectionsGrow(before: map<Id, Connection>, after: map<Id, Connection>) {
    before.Keys <= after.Keys && forall c :: c in before ==> SameAccount(before[c], after[c])
  }

  /** Everything that holds between a database and any later one. */
  ghost predicate Grows(before: Db, after: Db) {
    && before.nextId <= after.nextId
    && before.proposals.Keys <= after.proposals.Keys
    && OrdersGrow(before.orders, after.orders)
    && ActionsGrow(before.actions, after.actions)
    && ReviewsGrow(before.reviews, after.reviews)
    && ActionReviewsGrow(before.actionReviews, after.actionReviews)
    && PositionsGrow(before.positions, after.positions)
    && ConnectionsGrow(before.connections, after.connections)
  }

  /** Tables that did not change grow trivially. */
  lemma GrowsSelf(db: Db)
    ensures OrdersGrow(db.orders, db.orders) && ActionsGrow(db.actions, db.actions)
    ensures ReviewsGrow(db.reviews, db.reviews) && ActionReviewsGrow(db.actionReviews, db.actionReviews)
    ensures PositionsGrow(db.positions, db.positions) && ConnectionsGrow(db.connections, db.connections)
    ensures Grows(db, db)
  {
  }

  lemma RowsStay(proposals: map<Id, ProposalRow>)
    requires RowsAgree(proposals)
    ensures RowsMoved(proposals, proposals)
  {
    forall p | p in proposals ensures RowMoved(proposals[p], proposals[p]) { assert RowAgrees(proposals[p]); }
  }

  lemma AdvanceGrows(before: map<Id, Action>, after: map<Id, Action>)
    requires ActionsAdvance(before, after)
    ensures ActionsGrow(before, after)
  {
    AdvanceKeeps(before, after);
  }

  lemma ReviewInserts(db: Db, user: string, pid: Id, proposalHash: string, expiresAt: Time)
    requires DrawnBefore(db.reviews, db.nextId)
    ensures var after := After(db, CreateReview(db, user, pid, proposalHash, expiresAt));
            && ReviewsGrow(db.reviews, after.reviews) && after == db.(reviews := after.reviews, nextId := after.nextId)
            && db.nextId <= after.nextId
  {
  }

  lemma ActionReviewInserts(db: Db, user: string, terms: ActionTerms, actionHash: string, expiresAt: Time)
    requires DrawnBefore(db.actionReviews, db.nextId)
    ensures var after := After(db, CreateActionReview(db, user, terms, actionHash, expiresAt));
            && ActionReviewsGrow(db.actionReviews, after.actionReviews)
            && after == db.(actionReviews := after.actionReviews, nextId := after.nextId) && db.nextId <= after.nextId
  {
  }

  lemma ConnectInserts(db: Db, txn: Txn)
    requires DrawnBefore(db.connections, db.nextId)
    requires txn.Nothing? || txn.Connect?
    ensures var after := Apply(db, txn);
            && ConnectionsGrow(db.connections, after.connections)
            && after == db.(connections := after.connections, nextId := after.nextId)
            && db.nextId <= after.nextId
  {
  }

  lemma InsertGrows(db: Db, txn: Txn)
    requires Sound(db)
    requires txn.Nothing? || txn.Connect? || txn.Review? || txn.ReviewAction?
    ensures Grows(db, Apply(db, txn)) && RowsMoved(db.proposals, Apply(db, txn).proposals)
  {
    RowsStay(db.proposals);
    GrowsSelf(db);
    hide OrdersGrow, ActionsGrow, ReviewsGrow, ActionReviewsGrow, PositionsGrow, ConnectionsGrow, DrawnBefore,
         RowsMoved, SubmissionsSound, ActionsSound, PositionsUnique, CreateReview, CreateActionReview,
         CreateConnection;
    if txn.Review? {
      ReviewInserts(db, txn.user, txn.pid, txn.proposalHash, txn.expiresAt);
    } else if txn.ReviewAction? {
      ActionReviewInserts(db, txn.user, txn.terms, txn.actionHash, txn.expiresAt);
    } else {
      ConnectInserts(db, txn);
    }
  }

  lemma MarkStatusMoves(db: Db, user: string, conn: Id, status: ConnectionStatus)
    requires Sound(db)
    ensures Grows(db, After(db, MarkConnection(db, user, conn, status)))
  {
    hide Sound;
    GrowsSelf(db);
    var after := After(db, MarkConnection(db, user, conn, status));
    assert ConnectionsGrow(db.connections, after.connections);
    hide OrdersGrow, ActionsGrow, ReviewsGrow, ActionReviewsGrow, PositionsGrow, ConnectionsGrow;
  }

  lemma SyncMoves(db: Db, user: string, conn: Id, capturedAt: Time, now: Time)
    requires Sound(db)
    ensures Grows(db, After(db, SaveAccountSnapshot(db, user, conn, capturedAt, now)))
  {
    hide Sound;
    GrowsSelf(db);
    var after := After(db, SaveAccountSnapshot(db, user, conn, capturedAt, now));
    assert ConnectionsGrow(db.connections, after.connections);
    hide OrdersGrow, ActionsGrow, ReviewsGrow, ActionReviewsGrow, PositionsGrow, ConnectionsGrow;
  }

  lemma SetActionMoves(db: Db, actionId: Id, state: ActionState, brokerOrderId: Option<string>,
                       errorCode: Option<string>, now: Time)
    requires Sound(db)
    ensures Grows(db, After(db, MarkAction(db, actionId, state, brokerOrderId, errorCode, now)))
  {
    hide Sound;
    GrowsSelf(db);
    var after := After(db, MarkAction(db, actionId, state, brokerOrderId, errorCode, now));
    assert ActionsGrow(db.actions, after.actions);
    hide OrdersGrow, ActionsGrow, ReviewsGrow, ActionReviewsGrow, PositionsGrow, ConnectionsGrow;
  }

  lemma ProposeMoves(db: Db, proposal: TradeProposal)
    requires Sound(db)
    ensures var after := After(db, InsertProposal(db, proposal));
            Grows(db, after) && RowsMoved(db.proposals, after.proposals)
  {
    RowsStay(db.proposals);
    GrowsSelf(db);
    hide SubmissionsSound, ActionsSound, PositionsUnique;
    hide OrdersGrow, ActionsGrow, ReviewsGrow, ActionReviewsGrow, PositionsGrow, ConnectionsGrow;
  }

  /** Proposals that moved aside while accounts changed. */
  lemma AsideMoves(db: Db, after: Db)
    requires Sound(db)
    requires after == db.(proposals := after.proposals, contexts := after.contexts, connections := after.connections)
    requires after.proposals == db.proposals || RowsAside(db.proposals, after.proposals)
    requires ConnectionsGrow(db.connections, after.connections)
    ensures Grows(db, after) && RowsMoved(db.proposals, after.proposals)
  {
    RowsStay(db.proposals);
    GrowsSelf(db);
    hide Sound, ConnectionsGrow, OrdersGrow, ActionsGrow, ReviewsGrow, ActionReviewsGrow, PositionsGrow;
  }

  lemma RejectMoves(db: Db, user: string, pid: Id, now: Time)
    requires Sound(db)
    ensures var after := After(db, RejectProposal(db, user, pid, now));
            Grows(db, after) && RowsMoved(db.proposals, after.proposals)
  {
    if RejectProposal(db, user, pid, now).Ok? { RejectedAside(db.proposals, pid, now); }
    hide SubmissionsSound, ActionsSound, PositionsUnique, IdsDrawn, RowsAside;
    AsideMoves(db, After(db, RejectProposal(db, user, pid, now)));
  }

  lemma SwitchMoves(db: Db, user: string, environment: Environment, conn: Id, now: Time)
    requires Sound(db)
    ensures var after := After(db, SwitchContext(db, user, environment, conn, now));
            Grows(db, after) && RowsMoved(db.proposals, after.proposals)
  {
    InvalidatedAside(db.proposals, user, None, now);
    GrowsSelf(db);
    hide SubmissionsSound, ActionsSound, PositionsUnique, IdsDrawn, RowsAside, ConnectionsGrow, Grows;
    AsideMoves(db, After(db, SwitchContext(db, user, environment, conn, now)));
  }

  lemma RevokedGrow(connections: map<Id, Connection>, conn: Id)
    ensures ConnectionsGrow(connections, connections)
    ensures conn in connections ==>
              ConnectionsGrow(connections,
                              connections[conn := connections[conn].(status := ConnectionStatus.Revoked,
                                                                     hasCredential := false)])
  {
  }

  lemma RevokeMoves(db: Db, user: string, conn: Id, now: Time)
    requires Sound(db)
    ensures var after := After(db, RevokeConnection(db, user, conn, now));
            Grows(db, after) && RowsMoved(db.proposals, after.proposals)
  {
    InvalidatedAside(db.proposals, user, Some(conn), now);
    RevokedGrow(db.connections, conn);
    hide SubmissionsSound, ActionsSound, PositionsUnique, IdsDrawn, RowsAside, Grows, ConnectionsGrow;
    AsideMoves(db, After(db, RevokeConnection(db, user, conn, now)));
  }

  /** One order row rewritten without touching its binding, possibly archiving its proposal or completing actions. */
  lemma OrderRowMoves(db: Db, after: Db, pid: Id, at: Time)
    requires Sound(db)
    requires after == db.(orders := after.orders, proposals := after.proposals, actions := after.actions)
    requires OrdersKept(db.orders, after.orders) && ActionsAdvance(db.actions, after.actions)
    requires after.proposals == db.proposals || after.proposals == ArchiveProposal(db.proposals, pid, at)
    ensures Grows(db, after) && RowsMoved(db.proposals, after.proposals)
  {
    RowsStay(db.proposals);
    ArchivedAside(db.proposals, pid, at);
    AdvanceGrows(db.actions, after.actions);
    GrowsSelf(db);
    assert OrdersGrow(db.orders, after.orders);
    hide Sound, OrdersGrow, ActionsGrow, ReviewsGrow, ActionReviewsGrow, PositionsGrow, ConnectionsGrow,
         ActionsAdvance, OrdersKept;
  }

  lemma SetOrderMoves(db: Db, orderId: Id, state: OrderState, brokerOrderId: Option<string>, errorCode: Option<string>,
                      now: Time)
    requires Sound(db)
    ensures var after := After(db, SetOrderState(db, orderId, state, brokerOrderId, errorCode, now));
            Grows(db, after) && RowsMoved(db.proposals, after.proposals)
  {
    hide SubmissionsSound, ActionsSound, PositionsUnique, IdsDrawn, Grows, RowsMoved;
    var pid := if orderId in db.orders then db.orders[orderId].proposalId else 0;
    OrderRowMoves(db, After(db, SetOrderState(db, orderId, state, brokerOrderId, errorCode, now)), pid, now);
  }

  lemma ReconcileMoves(db: Db, orderId: Id, snapshot: OrderSnapshot, state: OrderState, at: Time)
    requires Sound(db)
    ensures var after := After(db, ReconcileOrder(db, orderId, snapshot, state, at));
            Grows(db, after) && RowsMoved(db.proposals, after.proposals) && ActionsAdvance(db.actions, after.actions)
  {
    hide SubmissionsSound, ActionsSound, PositionsUnique, IdsDrawn, Grows, RowsMoved;
    var pid := if orderId in db.orders then db.orders[orderId].proposalId else 0;
    CompletedAdvance(db.actions, ActionType.CancelOrder, {orderId}, at);
    OrderRowMoves(db, After(db, ReconcileOrder(db, orderId, snapshot, state, at)), pid, at);
  }

  lemma BeginMoves(db: Db, user: string, pid: Id, input: SubmitInput, now: Time)
    requires Sound(db)
    ensures var after := After(db, BeginSubmission(db, user, pid, input, now));
            Grows(db, after) && RowsMoved(db.proposals, after.proposals)
  {
    RowsStay(db.proposals);
    if !OrderKeyTaken(db, user, input.idempotencyKey) && SubmissionRefusal(db, user, pid, input, now).None? {
      BeginInsertable(db, user, pid, input, now);
      BegunMoves(db, user, pid, input, now);
    } else {
      GrowsSelf(db);
    }
  }

  lemma BegunMoves(db: Db, user: string, pid: Id, input: SubmitInput, now: Time)
    requires IdsDrawn(db) && RowsMoved(db.proposals, db.proposals)
    requires SubmissionRefusal(db, user, pid, input, now).None?
    requires db.proposals[pid].status == ProposalStatus.Available && RowAgrees(db.proposals[pid])
    ensures var after := SubmissionBegun(db, user, pid, input, now);
            Grows(db, after) && RowsMoved(db.proposals, after.proposals)
  {
    assert RowMoved(db.proposals[pid], WithStatus(db.proposals[pid], ProposalStatus.Submitted, now));
    GrowsSelf(db);
    var after := SubmissionBegun(db, user, pid, input, now);
    assert OrdersGrow(db.orders, after.orders);
    assert ReviewsGrow(db.reviews, after.reviews);
    hide IdsDrawn, OrdersGrow, ActionsGrow, ReviewsGrow, ActionReviewsGrow, PositionsGrow, ConnectionsGrow;
  }

  lemma ActMoves(db: Db, user: string, actionType: ActionType, target: Id, input: ConfirmInput, now: Time)
    requires Sound(db)
    ensures var after := After(db, BeginAction(db, user, actionType, target, input, now));
            Grows(db, after) && RowsMoved(db.proposals, after.proposals)
  {
    RowsStay(db.proposals);
    GrowsSelf(db);
    hide SubmissionsSound, ActionsSound, PositionsUnique, RowsMoved, Grows;
    if OwnsTarget(db, user, actionType, target) && !ActionKeyTaken(db, user, input.idempotencyKey) &&
       ActionRefusal(db, user, actionType, target, input, now).None? {
      ActedMoves(db, user, actionType, target, input, now);
    }
  }

  lemma ActedMoves(db: Db, user: string, actionType: ActionType, target: Id, input: ConfirmInput, now: Time)
    requires IdsDrawn(db)
    requires ActionRefusal(db, user, actionType, target, input, now).None?
    ensures Grows(db, ActionBegun(db, user, actionType, target, input, now))
  {
  }

  lemma ReplaceMoves(db: Db, user: string, conn: Id, environment: Environment, snapshots: seq<PositionSnapshot>,
                     at: Time)
    requires Sound(db)
    ensures var after := After(db, ReplaceOpenPositions(db, user, conn, environment, snapshots, at));
            Grows(db, after) && RowsMoved(db.proposals, after.proposals) && ActionsAdvance(db.actions, after.actions)
  {
    RowsStay(db.proposals);
    var upserts := UpsertPositions(db, user, conn, environment, snapshots, at);
    if upserts.Ok? {
      UpsertsFrame(db, user, conn, environment, snapshots, at);
      ClosingMoves(db, upserts.value, user, conn, Vanished(upserts.value.positions, conn, SeenKeys(snapshots)), at);
    } else {
      GrowsSelf(db);
    }
  }

  lemma ClosingMoves(db: Db, upserted: Db, user: string, conn: Id, closing: set<Id>, at: Time)
    requires RowsAgree(db.proposals) && UpsertFrame(db, upserted, user, conn)
    ensures var after := CloseVanished(upserted, conn, closing, at);
            Grows(db, after) && RowsMoved(db.proposals, after.proposals) && ActionsAdvance(db.actions, after.actions)
  {
    SymbolsAside(db.proposals, upserted.positions, closing, at);
    PositionsGrowTwice(db.positions, upserted.positions, closing, at);
    var actions := CompleteActions(upserted.actions, ActionType.ClosePosition, closing, at);
    CompletedAdvance(upserted.actions, ActionType.ClosePosition, closing, at);
    AdvanceTwice(db.actions, upserted.actions, actions);
    AdvanceGrows(db.actions, actions);
    GrowsSelf(db);
    hide ActionsAdvance, OpenStays, PositionsUnique, RowsAgree, OrdersGrow, ActionsGrow, ReviewsGrow,
         ActionReviewsGrow, PositionsGrow, ConnectionsGrow;
  }

  lemma AdvanceTwice(a: map<Id, Action>, b: map<Id, Action>, c: map<Id, Action>)
    requires ActionsAdvance(a, b) && ActionsAdvance(b, c)
    ensures ActionsAdvance(a, c)
  {
  }

  lemma PositionsGrowTwice(before: map<Id, Position>, mid: map<Id, Position>, closing: set<Id>, at: Time)
    requires PositionsGrow(before, mid)
    ensures PositionsGrow(before, CloseRows(mid, closing, at))
  {
  }

  /** Each transaction only lets the tables grow, and moves each proposal along an allowed edge. */
  lemma TxnGrows(db: Db, txn: Txn)
    requires Sound(db)
    ensures Grows(db, Apply(db, txn))
    ensures RowsMoved(db.proposals, Apply(db, txn).proposals)
  {
    RowsStay(db.proposals);
    hide Sound, Grows, RowsMoved, BeginSubmission, SetOrderState, BeginAction, MarkAction, ReconcileOrder,
         ReplaceOpenPositions, InsertProposal, RejectProposal, CreateConnection, MarkConnection, SaveAccountSnapshot,
         SwitchContext, RevokeConnection, CreateReview, CreateActionReview;
    match txn
    case Begin(user, pid, input, now) => BeginMoves(db, user, pid, input, now);
    case Act(user, actionType, target, confirm, now) => ActMoves(db, user, actionType, target, confirm, now);
    case Replace(user, conn, environment, snapshots, now) => ReplaceMoves(db, user, conn, environment, snapshots, now);
    case SetOrder(orderId, state, brokerOrderId, errorCode, now) =>
      SetOrderMoves(db, orderId, state, brokerOrderId, errorCode, now);
    case Reconcile(orderId, snapshot, state, now) => ReconcileMoves(db, orderId, snapshot, state, now);
    case Propose(proposal) => ProposeMoves(db, proposal.(status := ProposalStatus.Available));
    case Reject(user, pid, now) => RejectMoves(db, user, pid, now);
    case Switch(user, environment, conn, now) => SwitchMoves(db, user, environment, conn, now);
    case Revoke(user, conn, now) => RevokeMoves(db, user, conn, now);
    case MarkStatus(user, conn, status) => MarkStatusMoves(db, user, conn, status);
    case Sync(user, conn, capturedAt, now) => SyncMoves(db, user, conn, capturedAt, now);
    case SetAction(actionId, verdict, brokerOrderId, errorCode, now) =>
      SetActionMoves(db, actionId, verdict, brokerOrderId, errorCode, now);
    case _ => InsertGrows(db, txn);
  }

  lemma GrowsTwice(a: Db, b: Db, c: Db)
    requires Grows(a, b) && Grows(b, c)
    ensures Grows(a, c)
  {
    forall o | o in a.orders ensures SameBinding(a.orders[o], c.orders[o]) {
      assert SameBinding(a.orders[o], b.orders[o]);
    }
    forall x | x in a.actions ensures SameAction(a.actions[x], c.actions[x]) {
      assert SameAction(a.actions[x], b.actions[x]);
    }
    forall r | r in a.reviews ensures SameReview(a.reviews[r], c.reviews[r]) {
      assert SameReview(a.reviews[r], b.reviews[r]);
    }
    forall r | r in a.actionReviews ensures SameActionReview(a.actionReviews[r], c.actionReviews[r]) {
      assert SameActionReview(a.actionReviews[r], b.actionReviews[r]);
    }
    forall id | id in a.positions ensures SameRow(a.positions[id], c.positions[id]) {
      assert SameRow(a.positions[id], b.positions[id]);
    }
    forall k | k in a.connections ensures SameAccount(a.connections[k], c.connections[k]) {
      assert SameAccount(a.connections[k], b.connections[k]);
    }
  }

  /** An idempotency key, once bound to an order, is bound to the same order of the same proposal ever after. */
  lemma {:induction false} KeyBoundForever(db: Db, txns: seq<Txn>, o: Id)
    requires Sound(db) && o in db.orders
    ensures Sound(ApplyAll(db, txns))
    ensures Grows(db, ApplyAll(db, txns))
    ensures var later := ApplyAll(db, txns).orders;
            && o in later && SameBinding(db.orders[o], later[o])
            && forall other :: other in later && SameKey(later[other], db.orders[o]) ==> other == o
  {
    hide Apply;
    if |txns| == 0 {
      GrowsSelf(db);
    } else {
      var before := ApplyAll(db, txns[..|txns| - 1]);
      KeyBoundForever(db, txns[..|txns| - 1], o);
      TxnKeepsSound(before, txns[|txns| - 1]);
      TxnGrows(before, txns[|txns| - 1]);
      GrowsTwice(db, before, ApplyAll(db, txns));
    }
    var later := ApplyAll(db, txns).orders;
    assert SameBinding(db.orders[o], later[o]);
    forall other | other in later && SameKey(later[other], db.orders[o]) ensures other == o {
      assert SameKey(later[other], later[o]);
    }
  }

  // ----- two families of transactions

  /** The transactions on connections, contexts, proposals and reviews. */
  predicate OfAccounts(txn: Txn) {
    txn.Nothing? || txn.Propose? || txn.Reject? || txn.Connect? || txn.MarkStatus? || txn.Sync? || txn.Switch? ||
    txn.Revoke? || txn.Review? || txn.ReviewAction?
  }

  /** Orders, actions, positions and checkpoints are as they were. */
  predicate SameTrading(before: Db, after: Db) {
    && after.orders == before.orders && after.actions == before.actions
    && after.positions == before.positions && after.checkpoints == before.checkpoints
  }

  lemma AccountsLeaveTrading(db: Db, txn: Txn)
    requires OfAccounts(txn)
    ensures SameTrading(db, Apply(db, txn))
  {
    hide Apply, SameTrading;
    if txn.Connect? || txn.MarkStatus? || txn.Sync? || txn.Switch? || txn.Revoke? {
      ConnectionsLeaveTrading(db, txn);
    } else {
      ProposalsLeaveTrading(db, txn);
    }
  }

  lemma ConnectionsLeaveTrading(db: Db, txn: Txn)
    requires txn.Connect? || txn.MarkStatus? || txn.Sync? || txn.Switch? || txn.Revoke?
    ensures SameTrading(db, Apply(db, txn))
  {
    hide BeginSubmission, SetOrderState, BeginAction, MarkAction, ReconcileOrder, ReplaceOpenPositions,
         InvalidatePending, InsertProposal, RejectProposal, CreateReview, CreateActionReview;
  }

  lemma ProposalsLeaveTrading(db: Db, txn: Txn)
    requires txn.Nothing? || txn.Propose? || txn.Reject? || txn.Review? || txn.ReviewAction?
    ensures SameTrading(db, Apply(db, txn))
  {
    hide BeginSubmission, SetOrderState, BeginAction, MarkAction, ReconcileOrder, ReplaceOpenPositions,
         CreateConnection, MarkConnection, SaveAccountSnapshot, SwitchContext, RevokeConnection, WithStatus, RowFor;
  }

  /** Connections, contexts, positions and checkpoints are as they were. */
  predicate SameAccounts(before: Db, after: Db) {
    && after.connections == before.connections && after.contexts == before.contexts
    && after.positions == before.positions && after.checkpoints == before.checkpoints
  }

  lemma TradingLeavesAccounts(db: Db, txn: Txn)
    requires !OfAccounts(txn) && !txn.Replace?
    ensures SameAccounts(db, Apply(db, txn))
  {
    hide Apply, SameAccounts;
    if txn.Begin? || txn.Act? { StartsLeaveAccounts(db, txn); } else { MarksLeaveAccounts(db, txn); }
  }

  lemma StartsLeaveAccounts(db: Db, txn: Txn)
    requires txn.Begin? || txn.Act?
    ensures SameAccounts(db, Apply(db, txn))
  {
    hide InsertProposal, RejectProposal, CreateConnection, MarkConnection, SaveAccountSnapshot, SwitchContext,
         RevokeConnection, CreateReview, CreateActionReview, ReplaceOpenPositions, SetOrderState, MarkAction,
         ReconcileOrder, BeginSubmission, BeginAction, SameAccounts;
    match txn
    case Begin(user, pid, input, now) => BeginLeavesAccounts(db, user, pid, input, now);
    case Act(user, actionType, target, confirm, now) => ActLeavesAccounts(db, user, actionType, target, confirm, now);
  }

  lemma BeginLeavesAccounts(db: Db, user: string, pid: Id, input: SubmitInput, now: Time)
    ensures SameAccounts(db, After(db, BeginSubmission(db, user, pid, input, now)))
  {
  }

  lemma ActLeavesAccounts(db: Db, user: string, actionType: ActionType, target: Id, input: ConfirmInput, now: Time)
    ensures SameAccounts(db, After(db, BeginAction(db, user, actionType, target, input, now)))
  {
  }

  lemma MarksLeaveAccounts(db: Db, txn: Txn)
    requires txn.SetOrder? || txn.SetAction? || txn.Reconcile?
    ensures SameAccounts(db, Apply(db, txn))
  {
    hide InsertProposal, RejectProposal, CreateConnection, MarkConnection, SaveAccountSnapshot, SwitchContext,
         RevokeConnection, CreateReview, CreateActionReview, ReplaceOpenPositions, BeginSubmission, BeginAction,
         ArchiveProposal, CompleteActions;
  }

  /** Marking an action touches actions only. */
  lemma SetActionLeaves(db: Db, txn: Txn)
    requires txn.SetAction?
    ensures Apply(db, txn) == db.(actions := Apply(db, txn).actions)
  {
    hide InsertProposal, RejectProposal, CreateConnection, MarkConnection, SaveAccountSnapshot, SwitchContext,
         RevokeConnection, CreateReview, CreateActionReview, ReplaceOpenPositions, BeginSubmission, SetOrderState,
         BeginAction, ReconcileOrder;
  }

  /** Only a submission inserts an order. */
  lemma OrderKeysStay(db: Db, txn: Txn)
    requires Sound(db) && !txn.Begin?
    ensures Apply(db, txn).orders.Keys == db.orders.Keys
  {
    hide Sound, Apply;
    if OfAccounts(txn) {
      AccountsLeaveTrading(db, txn);
    } else if txn.Replace? {
      ReplaceApplies(db, txn);
      ReplaceLeaves(db, txn.user, txn.conn, txn.environment, txn.snapshots, txn.now);
    } else {
      TradingKeepsOrderKeys(db, txn);
    }
  }

  lemma TradingKeepsOrderKeys(db: Db, txn: Txn)
    requires txn.SetOrder? || txn.Act? || txn.SetAction? || txn.Reconcile?
    ensures Apply(db, txn).orders.Keys == db.orders.Keys
  {
    hide InsertProposal, RejectProposal, CreateConnection, MarkConnection, SaveAccountSnapshot, SwitchContext,
         RevokeConnection, CreateReview, CreateActionReview, ReplaceOpenPositions, BeginSubmission, BeginAction,
         ArchiveProposal, CompleteActions;
    if txn.Act? { ActKeepsOrderKeys(db, txn.user, txn.actionType, txn.target, txn.confirm, txn.now); }
  }

  lemma ActKeepsOrderKeys(db: Db, user: string, actionType: ActionType, target: Id, input: ConfirmInput, now: Time)
    ensures After(db, BeginAction(db, user, actionType, target, input, now)).orders.Keys == db.orders.Keys
  {
  }

  lemma ReplaceApplies(db: Db, txn: Txn)
    requires txn.Replace?
    ensures Apply(db, txn) ==
            After(db, ReplaceOpenPositions(db, txn.user, txn.conn, txn.environment, txn.snapshots, txn.now))
  {
    hide ReplaceOpenPositions;
  }

  /** What surrounds the insertion of an order: a trading account, an available proposal, an unused fresh review. */
  ghost predicate InsertedActively(db: Db, after: Db, order: Order) {
    && TradingAllowed(db, order.userId, order.connectionId)
    && order.environment == db.connections[order.connectionId].environment
    && order.state == OrderState.Submitting
    && order.proposalId in db.proposals && order.proposalId in after.proposals
    && db.proposals[order.proposalId].status == ProposalStatus.Available
    && after.proposals[order.proposalId].status == ProposalStatus.Submitted
    && db.proposals[order.proposalId].payload.expiresAt > order.createdAt
    && exists r :: r in db.reviews && r in after.reviews && db.reviews[r].consumedAt.None? &&
                   db.reviews[r].userId == order.userId && db.reviews[r].expiresAt > order.createdAt &&
                   ConsumedFor(after.reviews[r], order.proposalId)
  }

  lemma BegunActively(db: Db, user: string, pid: Id, input: SubmitInput, now: Time)
    requires SubmissionRefusal(db, user, pid, input, now).None?
    requires db.proposals[pid].status == ProposalStatus.Available && RowAgrees(db.proposals[pid])
    ensures var after := SubmissionBegun(db, user, pid, input, now);
            InsertedActively(db, after, after.orders[db.nextId])
  {
    assert ConsumedFor(SubmissionBegun(db, user, pid, input, now).reviews[input.reviewId], pid);
  }

  /** An order is only ever inserted while its connection may trade for its owner, consuming one fresh review. */
  lemma OrdersInsertedActively(db: Db, txn: Txn, o: Id)
    requires Sound(db)
    ensures var after := Apply(db, txn);
            o in after.orders && o !in db.orders ==> InsertedActively(db, after, after.orders[o])
  {
    hide Sound, InsertedActively;
    if txn.Begin? {
      BegunInserts(db, txn.user, txn.pid, txn.input, txn.now, o);
    } else {
      OrderKeysStay(db, txn);
    }
    hide Apply;
  }

  lemma BegunInserts(db: Db, user: string, pid: Id, input: SubmitInput, now: Time, o: Id)
    requires Sound(db)
    ensures var after := After(db, BeginSubmission(db, user, pid, input, now));
            o in after.orders && o !in db.orders ==> InsertedActively(db, after, after.orders[o])
  {
    hide InsertedActively, ActionsSound, PositionsUnique;
    if !OrderKeyTaken(db, user, input.idempotencyKey) && SubmissionRefusal(db, user, pid, input, now).None? {
      BeginInsertable(db, user, pid, input, now);
      BegunActively(db, user, pid, input, now);
    }
  }

  /** Position replacement leaves orders, reviews and accounts alone. */
  lemma ReplaceLeaves(db: Db, user: string, conn: Id, environment: Environment, snapshots: seq<PositionSnapshot>,
                      at: Time)
    requires Sound(db)
    ensures var after := After(db, ReplaceOpenPositions(db, user, conn, environment, snapshots, at));
            && after.orders == db.orders && after.reviews == db.reviews && after.actionReviews == db.actionReviews
            && after.connections == db.connections && after.contexts == db.contexts
  {
    var upserts := UpsertPositions(db, user, conn, environment, snapshots, at);
    if upserts.Ok? { UpsertsFrame(db, user, conn, environment, snapshots, at); }
  }
}
