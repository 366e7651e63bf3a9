/**
 What every transaction keeps, whoever calls it and with whatever arguments: rows agree with their
 payloads, orders and proposals agree, and each order and action consumed exactly one review.
 */
module Ledger {
  import opened Common
  import opened ExecutionDomain
  import opened Transactions

  // ----- the invariants, each over the tables it speaks of

  ghost predicate DrawnBefore<T>(rows: map<Id, T>, nextId: Id) {
    forall id :: id in rows ==> id < nextId
  }

  /** Every row has an id that was drawn, and an order and a position never share one. */
  ghost predicate IdsDrawn(db: Db) {
    && DrawnBefore(db.connections, db.nextId)
    && DrawnBefore(db.proposals, db.nextId)
    && DrawnBefore(db.reviews, db.nextId)
    && DrawnBefore(db.orders, db.nextId)
    && DrawnBefore(db.positions, db.nextId)
    && DrawnBefore(db.actionReviews, db.nextId)
    && DrawnBefore(db.actions, db.nextId)
    && db.orders.Keys !! db.positions.Keys
  }

  /** The columns of a proposal row repeat what its payload says. */
  predicate RowAgrees(row: ProposalRow) {
    row == RowFor(row.payload) && row.status != ProposalStatus.Expired
  }

  ghost predicate RowsAgree(proposals: map<Id, ProposalRow>) {
    forall p :: p in proposals ==> RowAgrees(proposals[p])
  }

  predicate Ordered(status: ProposalStatus) {
    status == ProposalStatus.Submitted || status == ProposalStatus.Archived
  }

  /** A proposal can be stored in this status without an order; expiry is only ever displayed. */
  predicate Unordered(status: ProposalStatus) {
    !Ordered(status) && status != ProposalStatus.Expired
  }

  predicate OrderMatches(proposals: map<Id, ProposalRow>, o: Id, order: Order) {
    && order.linkId == o
    && order.proposalId in proposals
    && proposals[order.proposalId].userId == order.userId
    && proposals[order.proposalId].connectionId == order.connectionId
    && Ordered(proposals[order.proposalId].status)
  }

  ghost predicate OrdersMatch(proposals: map<Id, ProposalRow>, orders: map<Id, Order>) {
    forall o :: o in orders ==> OrderMatches(proposals, o, orders[o])
  }

  predicate SameKey(first: Order, second: Order) {
    first.userId == second.userId && first.idempotencyKey == second.idempotencyKey
  }

  ghost predicate OrdersUnique(orders: map<Id, Order>) {
    forall o1, o2 :: o1 in orders && o2 in orders && o1 != o2 ==>
      orders[o1].proposalId != orders[o2].proposalId && !SameKey(orders[o1], orders[o2])
  }

  ghost predicate HasOrder(orders: map<Id, Order>, pid: Id) {
    exists o :: o in orders && orders[o].proposalId == pid
  }

  predicate ConsumedFor(review: OrderReview, pid: Id) {
    review.consumedAt.Some? && review.proposalId == pid
  }

  ghost predicate HasConsumedReview(reviews: map<Id, OrderReview>, pid: Id) {
    exists r :: r in reviews && ConsumedFor(reviews[r], pid)
  }

  ghost predicate OrderedHaveOrders(proposals: map<Id, ProposalRow>, orders: map<Id, Order>) {
    forall p :: p in proposals && Ordered(proposals[p].status) ==> HasOrder(orders, p)
  }

  ghost predicate OrderedHaveReviews(proposals: map<Id, ProposalRow>, reviews: map<Id, OrderReview>) {
    forall p :: p in proposals && Ordered(proposals[p].status) ==> HasConsumedReview(reviews, p)
  }

  predicate ReviewMatches(proposals: map<Id, ProposalRow>, review: OrderReview) {
    review.consumedAt.Some? ==> review.proposalId in proposals && Ordered(proposals[review.proposalId].status)
  }

  ghost predicate ReviewsMatch(proposals: map<Id, ProposalRow>, reviews: map<Id, OrderReview>) {
    forall r :: r in reviews ==> ReviewMatches(proposals, reviews[r])
  }

  predicate BothConsumed(first: OrderReview, second: OrderReview) {
    first.consumedAt.Some? && second.consumedAt.Some?
  }

  ghost predicate ReviewsUnique(reviews: map<Id, OrderReview>) {
    forall r1, r2 :: r1 in reviews && r2 in reviews && r1 != r2 && BothConsumed(reviews[r1], reviews[r2]) ==>
      reviews[r1].proposalId != reviews[r2].proposalId
  }

  predicate Targets(orders: map<Id, Order>, positions: map<Id, Position>, action: Action) {
    if action.actionType == ActionType.CancelOrder
    then action.targetId in orders && orders[action.targetId].userId == action.userId
    else action.targetId in positions && positions[action.targetId].userId == action.userId
  }

  ghost predicate ActionsTarget(orders: map<Id, Order>, positions: map<Id, Position>, actions: map<Id, Action>) {
    forall a :: a in actions ==> Targets(orders, positions, actions[a])
  }

  predicate ActionMatches(actionReviews: map<Id, ActionReview>, a: Id, action: Action) {
    && (action.linkId.Some? ==> action.linkId == Some(a))
    && action.reviewId in actionReviews
    && actionReviews[action.reviewId].consumedAt.Some?
    && actionReviews[action.reviewId].userId == action.userId
    && actionReviews[action.reviewId].actionType == action.actionType
    && actionReviews[action.reviewId].targetId == action.targetId
  }

  ghost predicate ActionsMatch(actionReviews: map<Id, ActionReview>, actions: map<Id, Action>) {
    forall a :: a in actions ==> ActionMatches(actionReviews, a, actions[a])
  }

  predicate SameActionKey(first: Action, second: Action) {
    first.userId == second.userId && first.idempotencyKey == second.idempotencyKey
  }

  ghost predicate ActionsUnique(actions: map<Id, Action>) {
    forall a1, a2 :: a1 in actions && a2 in actions && a1 != a2 ==>
      actions[a1].reviewId != actions[a2].reviewId && !SameActionKey(actions[a1], actions[a2])
  }

  ghost predicate HasAction(actions: map<Id, Action>, reviewId: Id) {
    exists a :: a in actions && actions[a].reviewId == reviewId
  }

  ghost predicate ActionReviewsMatch(actionReviews: map<Id, ActionReview>, actions: map<Id, Action>) {
    forall r :: r in actionReviews && actionReviews[r].consumedAt.Some? ==> HasAction(actions, r)
  }

  predicate SamePlace(first: Position, second: Position) {
    first.connectionId == second.connectionId && first.key == second.key
  }

  ghost predicate PositionsUnique(positions: map<Id, Position>) {
    forall p1, p2 :: p1 in positions && p2 in positions && p1 != p2 ==> !SamePlace(positions[p1], positions[p2])
  }

  /** Submission tables: proposals, orders and order reviews agree. */
  ghost predicate SubmissionsSound(proposals: map<Id, ProposalRow>, orders: map<Id, Order>,
                                   reviews: map<Id, OrderReview>) {
    && RowsAgree(proposals)
    && OrdersMatch(proposals, orders) && OrdersUnique(orders)
    && OrderedHaveOrders(proposals, orders) && OrderedHaveReviews(proposals, reviews)
    && ReviewsMatch(proposals, reviews) && ReviewsUnique(reviews)
  }

  /** Action tables: actions, their reviews and their targets agree. */
  ghost predicate ActionsSound(orders: map<Id, Order>, positions: map<Id, Position>,
                               actionReviews: map<Id, ActionReview>, actions: map<Id, Action>) {
    && ActionsTarget(orders, positions, actions)
    && ActionsMatch(actionReviews, actions) && ActionsUnique(actions)
    && ActionReviewsMatch(actionReviews, actions)
  }

  ghost predicate Sound(db: Db) {
    && IdsDrawn(db)
    && SubmissionsSound(db.proposals, db.orders, db.reviews)
    && ActionsSound(db.orders, db.positions, db.actionReviews, db.actions)
    && PositionsUnique(db.positions)
  }

  // ----- transactions as values

  datatype Txn =
    | Nothing
    | Propose(proposal: TradeProposal)
    | Reject(user: string, pid: Id, now: Time)
    | Connect(user: string, environment: Environment)
    | MarkStatus(user: string, conn: Id, status: ConnectionStatus)
    | Sync(user: string, conn: Id, capturedAt: Time, now: Time)
    | Switch(user: string, environment: Environment, conn: Id, now: Time)
    | Revoke(user: string, conn: Id, now: Time)
    | Review(user: string, pid: Id, proposalHash: string, expiresAt: Time)
    | Begin(user: string, pid: Id, input: SubmitInput, now: Time)
    | SetOrder(orderId: Id, state: OrderState, brokerOrderId: Option<string>, errorCode: Option<string>, now: Time)
    | ReviewAction(user: string, terms: ActionTerms, actionHash: string, expiresAt: Time)
    | Act(user: string, actionType: ActionType, target: Id, confirm: ConfirmInput, now: Time)
    | SetAction(actionId: Id, verdict: ActionState, brokerOrderId: Option<string>, errorCode: Option<string>, now: Time)
    | Reconcile(orderId: Id, snapshot: OrderSnapshot, state: OrderState, now: Time)
    | Replace(user: string, conn: Id, environment: Environment, snapshots: seq<PositionSnapshot>, now: Time)

  /** The database after one transaction. New proposals are always stored as available. */
  ghost function Apply(db: Db, txn: Txn): Db {
    match txn
    case Nothing => db
    case Propose(proposal) => After(db, InsertProposal(db, proposal.(status := ProposalStatus.Available)))
    case Reject(user, pid, now) => After(db, RejectProposal(db, user, pid, now))
    case Connect(user, environment) => After(db, CreateConnection(db, user, environment))
    case MarkStatus(user, conn, status) => After(db, MarkConnection(db, user, conn, status))
    case Sync(user, conn, capturedAt, now) => After(db, SaveAccountSnapshot(db, user, conn, capturedAt, now))
    case Switch(user, environment, conn, now) => After(db, SwitchContext(db, user, environment, conn, now))
    case Revoke(user, conn, now) => After(db, RevokeConnection(db, user, conn, now))
    case Review(user, pid, proposalHash, expiresAt) => After(db, CreateReview(db, user, pid, proposalHash, expiresAt))
    case Begin(user, pid, input, now) => After(db, BeginSubmission(db, user, pid, input, now))
    case SetOrder(orderId, state, brokerOrderId, errorCode, now) =>
      After(db, SetOrderState(db, orderId, state, brokerOrderId, errorCode, now))
    case ReviewAction(user, terms, actionHash, expiresAt) =>
      After(db, CreateActionReview(db, user, terms, actionHash, expiresAt))
    case Act(user, actionType, target, confirm, now) =>
      After(db, BeginAction(db, user, actionType, target, confirm, now))
    case SetAction(actionId, verdict, brokerOrderId, errorCode, now) =>
      After(db, MarkAction(db, actionId, verdict, brokerOrderId, errorCode, now))
    case Reconcile(orderId, snapshot, state, now) => After(db, ReconcileOrder(db, orderId, snapshot, state, now))
    case Replace(user, conn, environment, snapshots, now) =>
      After(db, ReplaceOpenPositions(db, user, conn, environment, snapshots, now))
  }

  lemma NothingHappens(db: Db)
    ensures Apply(db, Nothing) == db
  {
  }

  ghost function ApplyAll(db: Db, txns: seq<Txn>): Db {
    if |txns| == 0 then db else Apply(ApplyAll(db, txns[..|txns| - 1]), txns[|txns| - 1])
  }

  // ----- how tables change

  /** The only moves a proposal makes. */
  predicate MayMove(from: ProposalStatus, to: ProposalStatus) {
    || from == to
    || (from == ProposalStatus.Available &&
        (to == ProposalStatus.Submitted || to == ProposalStatus.Rejected || to == ProposalStatus.Invalidated))
    || (from == ProposalStatus.Submitted && to == ProposalStatus.Archived)
  }

  /** A row that changed at most its status, along an allowed move, and its update time. */
  predicate RowMoved(before: ProposalRow, after: ProposalRow) {
    after == WithStatus(before, after.status, after.updatedAt) && MayMove(before.status, after.status)
  }

  ghost predicate RowsMoved(before: map<Id, ProposalRow>, after: map<Id, ProposalRow>) {
    before.Keys <= after.Keys && forall p :: p in before ==> RowMoved(before[p], after[p])
  }

  /** Rows that moved without becoming ordered, and no new rows. */
  ghost predicate RowsAside(before: map<Id, ProposalRow>, after: map<Id, ProposalRow>) {
    && before.Keys == after.Keys
    && forall p :: p in before ==>
         RowMoved(before[p], after[p]) && Ordered(after[p].status) == Ordered(before[p].status)
  }

  /** Actions keep every column but the state, the broker's answer and the update time. */
  predicate SameAction(before: Action, after: Action) {
    after == before.(state := after.state, brokerOrderId := after.brokerOrderId,
                     errorCode := after.errorCode, updatedAt := after.updatedAt)
  }

  ghost predicate ActionsKept(before: map<Id, Action>, after: map<Id, Action>) {
    before.Keys == after.Keys && forall a :: a in before ==> SameAction(before[a], after[a])
  }

  /** Orders keep the columns that bind them to a user, a key, a proposal and a connection. */
  predicate SameBinding(before: Order, after: Order) {
    && after.userId == before.userId
    && after.idempotencyKey == before.idempotencyKey
    && after.proposalId == before.proposalId
    && after.connectionId == before.connectionId
    && after.environment == before.environment
    && after.linkId == before.linkId
    && after.createdAt == before.createdAt
  }

  ghost predicate OrdersKept(before: map<Id, Order>, after: map<Id, Order>) {
    before.Keys == after.Keys && forall o :: o in before ==> SameBinding(before[o], after[o])
  }

  /** A row of the position table keeps its owner, its key and its opening time. */
  predicate SameRow(before: Position, after: Position) {
    && after.userId == before.userId
    && after.connectionId == before.connectionId
    && after.environment == before.environment
    && after.key == before.key
    && after.openedAt == before.openedAt
  }

  ghost predicate PositionsGrow(before: map<Id, Position>, after: map<Id, Position>) {
    before.Keys <= after.Keys && forall id :: id in before ==> SameRow(before[id], after[id])
  }

  /** The only thing reconciliation does to an action is to complete one that awaited evidence. */
  predicate AtMostCompleted(before: Action, after: Action) {
    after == before || (AwaitsEvidence(before.state) && after == CompleteAction(before, after.updatedAt))
  }

  ghost predicate ActionsAdvance(before: map<Id, Action>, after: map<Id, Action>) {
    before.Keys == after.Keys && forall a :: a in before ==> AtMostCompleted(before[a], after[a])
  }

  // ----- table updates that keep the tables sound

  lemma RowsAsideSound(proposals: map<Id, ProposalRow>, after: map<Id, ProposalRow>, orders: map<Id, Order>,
                       reviews: map<Id, OrderReview>)
    requires SubmissionsSound(proposals, orders, reviews) && RowsAside(proposals, after)
    ensures SubmissionsSound(after, orders, reviews)
  {
  }

  lemma OrdersKeptSound(proposals: map<Id, ProposalRow>, orders: map<Id, Order>, after: map<Id, Order>,
                        reviews: map<Id, OrderReview>)
    requires SubmissionsSound(proposals, orders, reviews) && OrdersKept(orders, after)
    ensures SubmissionsSound(proposals, after, reviews)
  {
  }

  lemma TargetsKeptSound(orders: map<Id, Order>, ordersAfter: map<Id, Order>, positions: map<Id, Position>,
                         positionsAfter: map<Id, Position>,
                         actionReviews: map<Id, ActionReview>, actions: map<Id, Action>)
    requires ActionsSound(orders, positions, actionReviews, actions)
    requires OrdersKept(orders, ordersAfter) && PositionsGrow(positions, positionsAfter)
    ensures ActionsSound(ordersAfter, positionsAfter, actionReviews, actions)
  {
  }

  lemma ActionsKeptSound(orders: map<Id, Order>, positions: map<Id, Position>, actionReviews: map<Id, ActionReview>,
                         actions: map<Id, Action>, after: map<Id, Action>)
    requires ActionsSound(orders, positions, actionReviews, actions) && ActionsKept(actions, after)
    ensures ActionsSound(orders, positions, actionReviews, after)
  {
  }

  lemma AdvanceKeeps(before: map<Id, Action>, after: map<Id, Action>)
    requires ActionsAdvance(before, after)
    ensures ActionsKept(before, after)
  {
  }

  lemma ArchivedAside(proposals: map<Id, ProposalRow>, pid: Id, at: Time)
    requires RowsAgree(proposals)
    ensures RowsAside(proposals, ArchiveProposal(proposals, pid, at))
  {
    forall p | p in proposals ensures RowMoved(proposals[p], proposals[p]) { assert RowAgrees(proposals[p]); }
  }

  lemma RejectedAside(proposals: map<Id, ProposalRow>, pid: Id, now: Time)
    requires RowsAgree(proposals)
    requires pid in proposals && proposals[pid].status == ProposalStatus.Available
    ensures RowsAside(proposals, proposals[pid := WithStatus(proposals[pid], ProposalStatus.Rejected, now)])
  {
    forall p | p in proposals ensures RowMoved(proposals[p], proposals[p]) { assert RowAgrees(proposals[p]); }
  }

  lemma InvalidatedAside(proposals: map<Id, ProposalRow>, user: string, conn: Option<Id>, now: Time)
    requires RowsAgree(proposals)
    ensures RowsAside(proposals, InvalidatePending(proposals, user, conn, now))
  {
    forall p | p in proposals ensures RowMoved(proposals[p], proposals[p]) { assert RowAgrees(proposals[p]); }
  }

  lemma SymbolsAside(proposals: map<Id, ProposalRow>, positions: map<Id, Position>, closing: set<Id>, at: Time)
    requires RowsAgree(proposals)
    ensures RowsAside(proposals, ArchiveSymbols(proposals, positions, closing, at))
  {
    forall p | p in proposals ensures RowMoved(proposals[p], proposals[p]) { assert RowAgrees(proposals[p]); }
  }

  // ----- account transactions

  lemma KeepReject(db: Db, user: string, pid: Id, now: Time)
    requires Sound(db)
    ensures Sound(After(db, RejectProposal(db, user, pid, now)))
  {
    if RejectProposal(db, user, pid, now).Ok? {
      RejectedAside(db.proposals, pid, now);
      RowsAsideSound(db.proposals, db.proposals[pid := WithStatus(db.proposals[pid], ProposalStatus.Rejected, now)],
                     db.orders, db.reviews);
    }
  }

  lemma KeepSwitch(db: Db, user: string, environment: Environment, conn: Id, now: Time)
    requires Sound(db)
    ensures Sound(After(db, SwitchContext(db, user, environment, conn, now)))
  {
    InvalidatedAside(db.proposals, user, None, now);
    RowsAsideSound(db.proposals, InvalidatePending(db.proposals, user, None, now), db.orders, db.reviews);
  }

  lemma KeepRevoke(db: Db, user: string, conn: Id, now: Time)
    requires Sound(db)
    ensures Sound(After(db, RevokeConnection(db, user, conn, now)))
  {
    InvalidatedAside(db.proposals, user, Some(conn), now);
    RowsAsideSound(db.proposals, InvalidatePending(db.proposals, user, Some(conn), now), db.orders, db.reviews);
  }

  lemma KeepConnections(db: Db, txn: Txn)
    requires Sound(db)
    requires txn.Connect? || txn.MarkStatus? || txn.Sync?
    ensures Sound(Apply(db, txn))
  {
  }

  // ----- proposals and reviews

  lemma KeepPropose(db: Db, proposal: TradeProposal)
    requires Sound(db) && Unordered(proposal.status)
    ensures Sound(After(db, InsertProposal(db, proposal)))
  {
    ProposedSound(db.proposals, db.orders, db.reviews, db.nextId, RowFor(proposal));
  }

  lemma ProposedSound(proposals: map<Id, ProposalRow>, orders: map<Id, Order>, reviews: map<Id, OrderReview>, id: Id,
                      row: ProposalRow)
    requires SubmissionsSound(proposals, orders, reviews)
    requires id !in proposals && RowAgrees(row) && Unordered(row.status)
    ensures SubmissionsSound(proposals[id := row], orders, reviews)
  {
    forall o | o in orders ensures OrderMatches(proposals[id := row], o, orders[o]) {
      assert OrderMatches(proposals, o, orders[o]);
    }
    forall r | r in reviews ensures ReviewMatches(proposals[id := row], reviews[r]) {
      assert ReviewMatches(proposals, reviews[r]);
    }
  }

  lemma KeepReview(db: Db, user: string, pid: Id, proposalHash: string, expiresAt: Time)
    requires Sound(db)
    ensures Sound(After(db, CreateReview(db, user, pid, proposalHash, expiresAt)))
  {
    hide SubmissionsSound, ActionsSound, PositionsUnique;
    ReviewedSound(db.proposals, db.orders, db.reviews, db.nextId,
                  OrderReview(user, pid, proposalHash, expiresAt, None));
  }

  lemma ReviewedSound(proposals: map<Id, ProposalRow>, orders: map<Id, Order>, reviews: map<Id, OrderReview>, id: Id,
                      review: OrderReview)
    requires SubmissionsSound(proposals, orders, reviews)
    requires id !in reviews && review.consumedAt.None?
    ensures SubmissionsSound(proposals, orders, reviews[id := review])
  {
    forall p | p in proposals && Ordered(proposals[p].status) ensures HasConsumedReview(reviews[id := review], p) {
      assert HasConsumedReview(reviews, p);
      var r :| r in reviews && ConsumedFor(reviews[r], p);
      assert ConsumedFor(reviews[id := review][r], p);
    }
  }

  lemma KeepReviewAction(db: Db, user: string, terms: ActionTerms, actionHash: string, expiresAt: Time)
    requires Sound(db)
    ensures Sound(After(db, CreateActionReview(db, user, terms, actionHash, expiresAt)))
  {
    var after := After(db, CreateActionReview(db, user, terms, actionHash, expiresAt));
    forall a | a in db.actions ensures ActionMatches(after.actionReviews, a, db.actions[a]) {
      assert ActionMatches(db.actionReviews, a, db.actions[a]);
    }
  }

  // ----- submission

  /** A new order: the unique columns never clash, because an available proposal has no order. */
  lemma BeginInsertable(db: Db, user: string, pid: Id, input: SubmitInput, now: Time)
    requires Sound(db)
    requires !OrderKeyTaken(db, user, input.idempotencyKey) && SubmissionRefusal(db, user, pid, input, now).None?
    ensures OrderInsertable(db, user, pid, input.idempotencyKey, db.nextId)
    ensures db.proposals[pid].status == ProposalStatus.Available && RowAgrees(db.proposals[pid])
  {
  }

  lemma SubmittedSound(proposals: map<Id, ProposalRow>, orders: map<Id, Order>, reviews: map<Id, OrderReview>,
                       pid: Id, id: Id, order: Order, r: Id, now: Time)
    requires SubmissionsSound(proposals, orders, reviews)
    requires pid in proposals && proposals[pid].status == ProposalStatus.Available
    requires r in reviews && reviews[r].proposalId == pid
    requires id !in orders && order.linkId == id && order.proposalId == pid
    requires order.userId == proposals[pid].userId && order.connectionId == proposals[pid].connectionId
    requires forall o :: o in orders ==> orders[o].proposalId != pid && !SameKey(orders[o], order)
    ensures SubmissionsSound(proposals[pid := WithStatus(proposals[pid], ProposalStatus.Submitted, now)],
                             orders[id := order], reviews[r := reviews[r].(consumedAt := Some(now))])
  {
    SubmittedOrders(proposals, orders, pid, id, order, now);
    SubmittedReviews(proposals, reviews, pid, r, now);
    var proposals' := proposals[pid := WithStatus(proposals[pid], ProposalStatus.Submitted, now)];
    var orders' := orders[id := order];
    var reviews' := reviews[r := reviews[r].(consumedAt := Some(now))];
    hide OrdersMatch, OrdersUnique, RowsAgree, ReviewsMatch, ReviewsUnique;
    forall p | p in proposals' && Ordered(proposals'[p].status)
      ensures HasOrder(orders', p) && HasConsumedReview(reviews', p)
    {
      if p == pid {
        assert orders'[id].proposalId == pid;
        assert ConsumedFor(reviews'[r], pid);
      } else {
        StillOrdered(proposals, orders, reviews, p, id, order, r, now);
      }
    }
  }

  lemma SubmittedOrders(proposals: map<Id, ProposalRow>, orders: map<Id, Order>, pid: Id, id: Id, order: Order,
                        now: Time)
    requires RowsAgree(proposals) && OrdersMatch(proposals, orders) && OrdersUnique(orders)
    requires pid in proposals && proposals[pid].status == ProposalStatus.Available
    requires id !in orders && order.linkId == id && order.proposalId == pid
    requires order.userId == proposals[pid].userId && order.connectionId == proposals[pid].connectionId
    requires forall o :: o in orders ==> orders[o].proposalId != pid && !SameKey(orders[o], order)
    ensures var proposals' := proposals[pid := WithStatus(proposals[pid], ProposalStatus.Submitted, now)];
            RowsAgree(proposals') && OrdersMatch(proposals', orders[id := order]) && OrdersUnique(orders[id := order])
  {
    var proposals' := proposals[pid := WithStatus(proposals[pid], ProposalStatus.Submitted, now)];
    assert RowAgrees(proposals[pid]);
    var orders' := orders[id := order];
    forall o | o in orders' ensures OrderMatches(proposals', o, orders'[o]) {
      if o != id { assert OrderMatches(proposals, o, orders[o]); }
    }
  }

  lemma SubmittedReviews(proposals: map<Id, ProposalRow>, reviews: map<Id, OrderReview>, pid: Id, r: Id, now: Time)
    requires ReviewsMatch(proposals, reviews) && ReviewsUnique(reviews)
    requires pid in proposals && proposals[pid].status == ProposalStatus.Available
    requires r in reviews && reviews[r].proposalId == pid
    ensures var reviews' := reviews[r := reviews[r].(consumedAt := Some(now))];
            && ReviewsMatch(proposals[pid := WithStatus(proposals[pid], ProposalStatus.Submitted, now)], reviews')
            && ReviewsUnique(reviews')
  {
    var proposals' := proposals[pid := WithStatus(proposals[pid], ProposalStatus.Submitted, now)];
    var reviews' := reviews[r := reviews[r].(consumedAt := Some(now))];
    forall q | q in reviews' ensures ReviewMatches(proposals', reviews'[q]) {
      assert ReviewMatches(proposals, reviews[q]);
    }
    forall q | q in reviews && q != r && reviews[q].consumedAt.Some? ensures reviews[q].proposalId != pid {
      assert ReviewMatches(proposals, reviews[q]);
    }
  }

  lemma StillOrdered(proposals: map<Id, ProposalRow>, orders: map<Id, Order>, reviews: map<Id, OrderReview>,
                     p: Id, id: Id, order: Order, r: Id, now: Time)
    requires SubmissionsSound(proposals, orders, reviews)
    requires p in proposals && Ordered(proposals[p].status) && id !in orders
    requires r in reviews && reviews[r].proposalId != p
    ensures HasOrder(orders[id := order], p)
    ensures HasConsumedReview(reviews[r := reviews[r].(consumedAt := Some(now))], p)
  {
    assert HasOrder(orders, p) && HasConsumedReview(reviews, p);
    var o :| o in orders && orders[o].proposalId == p;
    assert orders[id := order][o].proposalId == p;
    var q :| q in reviews && ConsumedFor(reviews[q], p);
    assert ConsumedFor(reviews[r := reviews[r].(consumedAt := Some(now))][q], p);
  }

  lemma NewOrderTargets(orders: map<Id, Order>, positions: map<Id, Position>, actionReviews: map<Id, ActionReview>,
                        actions: map<Id, Action>, id: Id, order: Order)
    requires ActionsSound(orders, positions, actionReviews, actions) && id !in orders
    ensures ActionsSound(orders[id := order], positions, actionReviews, actions)
  {
  }

  lemma KeepBegin(db: Db, user: string, pid: Id, input: SubmitInput, now: Time)
    requires Sound(db)
    ensures Sound(After(db, BeginSubmission(db, user, pid, input, now)))
    ensures BeginSubmission(db, user, pid, input, now) != Err(IntegrityError)
  {
    hide SubmissionsSound, ActionsSound, PositionsUnique;
    if !OrderKeyTaken(db, user, input.idempotencyKey) && SubmissionRefusal(db, user, pid, input, now).None? {
      BeginInsertable(db, user, pid, input, now);
      KeepSubmissionBegun(db, user, pid, input, now);
    }
  }

  lemma KeepSubmissionBegun(db: Db, user: string, pid: Id, input: SubmitInput, now: Time)
    requires Sound(db)
    requires SubmissionRefusal(db, user, pid, input, now).None?
    requires OrderInsertable(db, user, pid, input.idempotencyKey, db.nextId)
    requires db.proposals[pid].status == ProposalStatus.Available && RowAgrees(db.proposals[pid])
    ensures Sound(SubmissionBegun(db, user, pid, input, now))
  {
    hide SubmissionsSound, ActionsSound, PositionsUnique;
    var proposal := db.proposals[pid].payload;
    var order := NewOrder(db.nextId, user, pid, proposal, db.connections[proposal.connectionId].environment,
                          input.idempotencyKey, now);
    SubmittedSound(db.proposals, db.orders, db.reviews, pid, db.nextId, order, input.reviewId, now);
    NewOrderTargets(db.orders, db.positions, db.actionReviews, db.actions, db.nextId, order);
  }

  lemma KeepSetOrder(db: Db, orderId: Id, state: OrderState, brokerOrderId: Option<string>, errorCode: Option<string>,
                     now: Time)
    requires Sound(db)
    ensures Sound(After(db, SetOrderState(db, orderId, state, brokerOrderId, errorCode, now)))
  {
    hide SubmissionsSound, ActionsSound, PositionsUnique;
    var after := After(db, SetOrderState(db, orderId, state, brokerOrderId, errorCode, now));
    if orderId in db.orders {
      KeepOrderRow(db, after, db.orders[orderId].proposalId, now);
    }
  }

  /** One order row rewritten without touching its binding, possibly archiving its proposal. */
  lemma KeepOrderRow(db: Db, after: Db, pid: Id, at: Time)
    requires Sound(db)
    requires after == db.(orders := after.orders, proposals := after.proposals)
    requires OrdersKept(db.orders, after.orders)
    requires after.proposals == db.proposals || after.proposals == ArchiveProposal(db.proposals, pid, at)
    ensures Sound(after)
  {
    ArchivedAside(db.proposals, pid, at);
    RowsAsideSound(db.proposals, ArchiveProposal(db.proposals, pid, at), db.orders, db.reviews);
    OrdersKeptSound(after.proposals, db.orders, after.orders, db.reviews);
    TargetsKeptSound(db.orders, after.orders, db.positions, db.positions, db.actionReviews, db.actions);
  }

  lemma CompletedAdvance(actions: map<Id, Action>, actionType: ActionType, targets: set<Id>, at: Time)
    ensures ActionsAdvance(actions, CompleteActions(actions, actionType, targets, at))
  {
  }

  lemma KeepActionStates(db: Db, actions: map<Id, Action>)
    requires Sound(db) && ActionsKept(db.actions, actions)
    ensures Sound(db.(actions := actions))
  {
    ActionsKeptSound(db.orders, db.positions, db.actionReviews, db.actions, actions);
  }

  lemma KeepReconcile(db: Db, orderId: Id, snapshot: OrderSnapshot, state: OrderState, at: Time)
    requires Sound(db)
    ensures Sound(After(db, ReconcileOrder(db, orderId, snapshot, state, at)))
  {
    hide SubmissionsSound, ActionsSound, PositionsUnique;
    var after := After(db, ReconcileOrder(db, orderId, snapshot, state, at));
    if orderId in db.orders {
      var mid := db.(orders := after.orders, proposals := after.proposals);
      KeepOrderRow(db, mid, db.orders[orderId].proposalId, at);
      CompletedAdvance(db.actions, ActionType.CancelOrder, {orderId}, at);
      AdvanceKeeps(db.actions, CompleteActions(db.actions, ActionType.CancelOrder, {orderId}, at));
      KeepActionStates(mid, CompleteActions(db.actions, ActionType.CancelOrder, {orderId}, at));
    }
  }

  // ----- actions

  lemma KeepSetAction(db: Db, actionId: Id, state: ActionState, brokerOrderId: Option<string>,
                      errorCode: Option<string>, now: Time)
    requires Sound(db)
    ensures Sound(After(db, MarkAction(db, actionId, state, brokerOrderId, errorCode, now)))
  {
    hide SubmissionsSound, ActionsSound, PositionsUnique;
    if actionId in db.actions {
      KeepActionStates(db, After(db, MarkAction(db, actionId, state, brokerOrderId, errorCode, now)).actions);
    }
  }

  lemma ActedSound(orders: map<Id, Order>, positions: map<Id, Position>, actionReviews: map<Id, ActionReview>,
                   actions: map<Id, Action>, id: Id, action: Action, now: Time)
    requires ActionsSound(orders, positions, actionReviews, actions)
    requires id !in actions && (action.linkId.Some? ==> action.linkId == Some(id))
    requires Targets(orders, positions, action)
    requires action.reviewId in actionReviews && actionReviews[action.reviewId].userId == action.userId
    requires actionReviews[action.reviewId].actionType == action.actionType
    requires actionReviews[action.reviewId].targetId == action.targetId
    requires forall a :: a in actions ==> actions[a].reviewId != action.reviewId && !SameActionKey(actions[a], action)
    ensures ActionsSound(orders, positions,
                         actionReviews[action.reviewId := actionReviews[action.reviewId].(consumedAt := Some(now))],
                         actions[id := action])
  {
    var reviews' := actionReviews[action.reviewId := actionReviews[action.reviewId].(consumedAt := Some(now))];
    var actions' := actions[id := action];
    forall a | a in actions'
      ensures Targets(orders, positions, actions'[a]) && ActionMatches(reviews', a, actions'[a])
    {
      if a != id { assert Targets(orders, positions, actions[a]) && ActionMatches(actionReviews, a, actions[a]); }
    }
    forall r | r in reviews' && reviews'[r].consumedAt.Some? ensures HasAction(actions', r) {
      if r == action.reviewId {
        assert actions'[id].reviewId == r;
      } else {
        assert HasAction(actions, r);
        var a :| a in actions && actions[a].reviewId == r;
        assert actions'[a].reviewId == r;
      }
    }
    assert ActionsUnique(actions');
  }

  /** A new action: its review was unconsumed, so no other action refers to it. */
  lemma ActInsertable(db: Db, user: string, actionType: ActionType, target: Id, input: ConfirmInput, now: Time)
    requires Sound(db)
    requires !ActionKeyTaken(db, user, input.idempotencyKey)
    requires ActionRefusal(db, user, actionType, target, input, now).None?
    ensures ActionInsertable(db, user, input.reviewId, input.idempotencyKey, ActionLink(actionType, db.nextId))
  {
  }

  lemma KeepNewAction(db: Db, user: string, actionType: ActionType, target: Id, input: ConfirmInput, now: Time)
    requires Sound(db)
    requires OwnsTarget(db, user, actionType, target) && !ActionKeyTaken(db, user, input.idempotencyKey)
    requires ActionRefusal(db, user, actionType, target, input, now).None?
    requires ActionInsertable(db, user, input.reviewId, input.idempotencyKey, ActionLink(actionType, db.nextId))
    ensures Sound(ActionBegun(db, user, actionType, target, input, now))
  {
    hide SubmissionsSound, ActionsSound, PositionsUnique;
    var action := NewAction(db, user, actionType, target, input, now);
    ActedSound(db.orders, db.positions, db.actionReviews, db.actions, db.nextId, action, now);
    KeepStored(db, action, input.reviewId, now);
    KeepCancelling(ActionStored(db, action, input.reviewId, now), actionType, target, now);
  }

  /** Storing the action and its consumed review. */
  function ActionStored(db: Db, action: Action, r: Id, now: Time): Db
    requires r in db.actionReviews
  {
    db.(actions := db.actions[db.nextId := action],
        actionReviews := db.actionReviews[r := db.actionReviews[r].(consumedAt := Some(now))],
        nextId := db.nextId + 1)
  }

  lemma KeepStored(db: Db, action: Action, r: Id, now: Time)
    requires Sound(db) && r in db.actionReviews
    requires ActionsSound(db.orders, db.positions, ActionStored(db, action, r, now).actionReviews,
                          ActionStored(db, action, r, now).actions)
    ensures Sound(ActionStored(db, action, r, now))
  {
    hide SubmissionsSound, ActionsSound, PositionsUnique;
  }

  /** Then moving a cancelled order on. */
  lemma KeepCancelling(db: Db, actionType: ActionType, target: Id, now: Time)
    requires Sound(db)
    ensures Sound(db.(orders := CancellingOrders(db.orders, actionType, target, now)))
  {
    hide SubmissionsSound, ActionsSound, PositionsUnique, IdsDrawn;
    KeepOrderRow(db, db.(orders := CancellingOrders(db.orders, actionType, target, now)), target, now);
  }

  lemma KeepAct(db: Db, user: string, actionType: ActionType, target: Id, input: ConfirmInput, now: Time)
    requires Sound(db)
    ensures Sound(After(db, BeginAction(db, user, actionType, target, input, now)))
    ensures BeginAction(db, user, actionType, target, input, now) != Err(IntegrityError)
  {
    hide SubmissionsSound, PositionsUnique, IdsDrawn, ActionBegun;
    if OwnsTarget(db, user, actionType, target) {
      if ActionKeyTaken(db, user, input.idempotencyKey) {
        var a := ActionWithKey(db, user, input.idempotencyKey);
        assert ActionMatches(db.actionReviews, a, db.actions[a]);
      } else if ActionRefusal(db, user, actionType, target, input, now).None? {
        ActInsertable(db, user, actionType, target, input, now);
        KeepNewAction(db, user, actionType, target, input, now);
      }
    }
  }

  // ----- position replacement

  /** What a run of upserts changes: positions grow by drawn ids, and actions at most complete. */
  ghost predicate UpsertFrame(db: Db, after: Db, user: string, conn: Id) {
    && after == db.(positions := after.positions, actions := after.actions, nextId := after.nextId)
    && db.nextId <= after.nextId
    && PositionsGrow(db.positions, after.positions)
    && OpenStays(db.positions, after.positions)
    && ActionsAdvance(db.actions, after.actions)
    && DrawnBefore(after.positions, after.nextId)
    && PositionsUnique(after.positions)
    && (forall id :: id in after.positions && id !in db.positions ==>
          db.nextId <= id && OpenedFor(after.positions[id], user, conn))
  }

  ghost predicate OpenStays(before: map<Id, Position>, after: map<Id, Position>) {
    forall id :: id in before && id in after && before[id].state == PositionState.Open ==>
      after[id].state == PositionState.Open
  }

  predicate OpenedFor(position: Position, user: string, conn: Id) {
    position.userId == user && position.connectionId == conn && position.state == PositionState.Open
  }

  lemma UpsertKeepsFrame(loaded: map<Id, Position>, db: Db, user: string, conn: Id, environment: Environment,
                         snapshot: PositionSnapshot, at: Time)
    requires PositionsUnique(db.positions) && DrawnBefore(db.positions, db.nextId)
    requires PositionsGrow(loaded, db.positions)
    requires UpsertPosition(loaded, db, user, conn, environment, snapshot, at).Ok?
    ensures UpsertFrame(db, UpsertPosition(loaded, db, user, conn, environment, snapshot, at).value, user, conn)
  {
    if HasRow(loaded, conn, snapshot.key) {
      var id := RowOf(loaded, conn, snapshot.key);
      assert SameRow(loaded[id], db.positions[id]);
      UpdateUnique(db.positions, id, UpdatedPosition(db.positions[id], snapshot, at));
    } else {
      InsertUnique(db.positions, db.nextId, NewPosition(user, conn, environment, snapshot, at));
    }
  }

  lemma UpdateUnique(positions: map<Id, Position>, id: Id, row: Position)
    requires PositionsUnique(positions) && id in positions && SameRow(positions[id], row)
    ensures PositionsUnique(positions[id := row]) && PositionsGrow(positions, positions[id := row])
  {
  }

  lemma InsertUnique(positions: map<Id, Position>, id: Id, row: Position)
    requires PositionsUnique(positions) && id !in positions && !HasRow(positions, row.connectionId, row.key)
    ensures PositionsUnique(positions[id := row]) && PositionsGrow(positions, positions[id := row])
  {
  }

  lemma FrameTwice(db: Db, mid: Db, after: Db, user: string, conn: Id)
    requires UpsertFrame(db, mid, user, conn) && UpsertFrame(mid, after, user, conn)
    ensures UpsertFrame(db, after, user, conn)
  {
  }

  lemma {:induction false} UpsertsFrame(db: Db, user: string, conn: Id, environment: Environment,
                                        snapshots: seq<PositionSnapshot>, at: Time)
    requires PositionsUnique(db.positions) && DrawnBefore(db.positions, db.nextId)
    requires UpsertPositions(db, user, conn, environment, snapshots, at).Ok?
    ensures UpsertFrame(db, UpsertPositions(db, user, conn, environment, snapshots, at).value, user, conn)
  {
    if |snapshots| != 0 {
      var before := snapshots[..|snapshots| - 1];
      var mid := UpsertPositions(db, user, conn, environment, before, at).value;
      UpsertsFrame(db, user, conn, environment, before, at);
      UpsertKeepsFrame(db.positions, mid, user, conn, environment, snapshots[|snapshots| - 1], at);
      FrameTwice(db, mid,
                 UpsertPosition(db.positions, mid, user, conn, environment, snapshots[|snapshots| - 1],
                                at).value, user, conn);
    }
  }

  lemma KeepUpserted(db: Db, after: Db, user: string, conn: Id)
    requires Sound(db) && UpsertFrame(db, after, user, conn)
    ensures Sound(after)
  {
    hide SubmissionsSound, ActionsSound, PositionsUnique, ActionsKept, ActionsAdvance;
    AdvanceKeeps(db.actions, after.actions);
    ActionsKeptSound(db.orders, db.positions, db.actionReviews, db.actions, after.actions);
    TargetsKeptSound(db.orders, db.orders, db.positions, after.positions, db.actionReviews, after.actions);
    assert IdsDrawn(after);
  }

  lemma ClosedGrow(positions: map<Id, Position>, closing: set<Id>, at: Time)
    requires PositionsUnique(positions)
    ensures PositionsGrow(positions, CloseRows(positions, closing, at))
    ensures PositionsUnique(CloseRows(positions, closing, at))
  {
  }

  lemma KeepClosed(db: Db, conn: Id, closing: set<Id>, at: Time)
    requires Sound(db)
    ensures Sound(CloseVanished(db, conn, closing, at))
  {
    hide ActionsSound, PositionsUnique, ActionsKept, ActionsAdvance, CompleteActions, ArchiveSymbols, RowsAside;
    ClosedGrow(db.positions, closing, at);
    SymbolsAside(db.proposals, db.positions, closing, at);
    RowsAsideSound(db.proposals, ArchiveSymbols(db.proposals, db.positions, closing, at), db.orders, db.reviews);
    var actions := CompleteActions(db.actions, ActionType.ClosePosition, closing, at);
    CompletedAdvance(db.actions, ActionType.ClosePosition, closing, at);
    AdvanceKeeps(db.actions, actions);
    ActionsKeptSound(db.orders, db.positions, db.actionReviews, db.actions, actions);
    TargetsKeptSound(db.orders, db.orders, db.positions, CloseRows(db.positions, closing, at), db.actionReviews,
                     actions);
  }

  lemma KeepReplace(db: Db, user: string, conn: Id, environment: Environment, snapshots: seq<PositionSnapshot>,
                    at: Time)
    requires Sound(db)
    ensures Sound(After(db, ReplaceOpenPositions(db, user, conn, environment, snapshots, at)))
  {
    var upserts := UpsertPositions(db, user, conn, environment, snapshots, at);
    if upserts.Ok? {
      UpsertsFrame(db, user, conn, environment, snapshots, at);
      KeepUpserted(db, upserts.value, user, conn);
      KeepClosed(upserts.value, conn, Vanished(upserts.value.positions, conn, SeenKeys(snapshots)), at);
    }
  }

  // ----- the theorems

  /** Every transaction keeps the database sound. */
  lemma TxnKeepsSound(db: Db, txn: Txn)
    requires Sound(db)
    ensures Sound(Apply(db, txn))
  {
    hide Sound;
    match txn
    case Nothing =>
    case Propose(proposal) => KeepPropose(db, proposal.(status := ProposalStatus.Available));
    case Reject(user, pid, now) => KeepReject(db, user, pid, now);
    case Connect(_, _) => KeepConnections(db, txn);
    case MarkStatus(_, _, _) => KeepConnections(db, txn);
    case Sync(_, _, _, _) => KeepConnections(db, txn);
    case Switch(user, environment, conn, now) => KeepSwitch(db, user, environment, conn, now);
    case Revoke(user, conn, now) => KeepRevoke(db, user, conn, now);
    case Review(user, pid, proposalHash, expiresAt) => KeepReview(db, user, pid, proposalHash, expiresAt);
    case Begin(user, pid, input, now) => KeepBegin(db, user, pid, input, now);
    case SetOrder(orderId, state, brokerOrderId, errorCode, now) =>
      KeepSetOrder(db, orderId, state, brokerOrderId, errorCode, now);
    case ReviewAction(user, terms, actionHash, expiresAt) => KeepReviewAction(db, user, terms, actionHash, expiresAt);
    case Act(user, actionType, target, confirm, now) => KeepAct(db, user, actionType, target, confirm, now);
    case SetAction(actionId, verdict, brokerOrderId, errorCode, now) =>
      KeepSetAction(db, actionId, verdict, brokerOrderId, errorCode, now);
    case Reconcile(orderId, snapshot, state, now) => KeepReconcile(db, orderId, snapshot, state, now);
    case Replace(user, conn, environment, snapshots, now) => KeepReplace(db, user, conn, environment, snapshots, now);
  }

  /** Whatever sequence of transactions ran, the database is sound. */
  lemma {:induction false} AlwaysSound(txns: seq<Txn>)
    ensures Sound(ApplyAll(EmptyDb, txns))
  {
    hide Apply;
    if |txns| == 0 {
    } else {
      AlwaysSound(txns[..|txns| - 1]);
      TxnKeepsSound(ApplyAll(EmptyDb, txns[..|txns| - 1]), txns[|txns| - 1]);
    }
  }

  /**
   In every reachable state the status column is the status in the payload, and a proposal has an order if and
   only if it was submitted or archived.
   */
  lemma ProposalLedgerAgrees(txns: seq<Txn>, p: Id)
    requires p in ApplyAll(EmptyDb, txns).proposals
    ensures var db := ApplyAll(EmptyDb, txns);
            && db.proposals[p] == RowFor(db.proposals[p].payload)
            && (HasOrder(db.orders, p) <==> Ordered(db.proposals[p].status))
  {
    AlwaysSound(txns);
    var db := ApplyAll(EmptyDb, txns);
    hide ApplyAll, IdsDrawn, ActionsSound, PositionsUnique, ReviewsMatch, ReviewsUnique, OrderedHaveReviews,
         OrdersUnique;
    assert RowAgrees(db.proposals[p]);
    if HasOrder(db.orders, p) {
      var o :| o in db.orders && db.orders[o].proposalId == p;
      assert OrderMatches(db.proposals, o, db.orders[o]);
    }
  }
}
