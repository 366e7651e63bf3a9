/**
 The database transactions of the execution, proposal and broker stores, each as one atomic function
 of the whole database. An `Err` result stands for a raised exception: the transaction is rolled back.
 */
module Transactions {
  import opened Common
  import opened ExecutionDomain

  datatype Failure = NotFound | Conflict | IntegrityError

  type Outcome<+T> = Result<(Db, T), Failure>

  /** The database after a transaction: unchanged when it raised. */
  function After<T>(db: Db, outcome: Outcome<T>): Db {
    if outcome.Ok? then outcome.value.0 else db
  }

  // ----- proposals

  /** Moves the status column and the status inside the payload together. */
  function WithStatus(row: ProposalRow, status: ProposalStatus, at: Time): ProposalRow {
    row.(status := status, updatedAt := at, payload := row.payload.(status := status, updatedAt := at))
  }

  function RowFor(proposal: TradeProposal): ProposalRow {
    ProposalRow(proposal.userId, proposal.connectionId, proposal.environment, proposal.symbol,
                proposal.status, proposal.proposalHash, proposal.expiresAt, proposal.updatedAt, proposal)
  }

  /** Stores a new proposal; the hash column is unique and the connection is a foreign key. */
  ghost function InsertProposal(db: Db, proposal: TradeProposal): Outcome<Id> {
    if proposal.connectionId !in db.connections ||
       exists id :: id in db.proposals && db.proposals[id].proposalHash == proposal.proposalHash then
      Err(IntegrityError)
    else
      Ok((db.(proposals := db.proposals[db.nextId := RowFor(proposal)], nextId := db.nextId + 1), db.nextId))
  }

  function RejectProposal(db: Db, user: string, pid: Id, now: Time): Outcome<()> {
    if pid !in db.proposals || db.proposals[pid].userId != user then Err(NotFound)
    else if db.proposals[pid].status != ProposalStatus.Available then Err(Conflict)
    else Ok((db.(proposals := db.proposals[pid := WithStatus(db.proposals[pid], ProposalStatus.Rejected, now)]), ()))
  }

  function ArchiveProposal(proposals: map<Id, ProposalRow>, pid: Id, at: Time): map<Id, ProposalRow> {
    if pid !in proposals || proposals[pid].status != ProposalStatus.Submitted then proposals
    else proposals[pid := WithStatus(proposals[pid], ProposalStatus.Archived, at)]
  }

  // ----- connections and the active context

  function CreateConnection(db: Db, user: string, environment: Environment): Outcome<Id> {
    Ok((db.(connections := db.connections[db.nextId := Connection(user, environment, ConnectionStatus.Pending, None,
                                                                  true)],
            nextId := db.nextId + 1),
        db.nextId))
  }

  /** Verification and failure marks: only the status of an owned connection changes. */
  function MarkConnection(db: Db, user: string, conn: Id, status: ConnectionStatus): Outcome<()> {
    if conn !in db.connections || db.connections[conn].userId != user then Err(NotFound)
    else Ok((db.(connections := db.connections[conn := db.connections[conn].(status := status)]), ()))
  }

  /** An account snapshot heals the connection and becomes the first context of a user without one. */
  function SaveAccountSnapshot(db: Db, user: string, conn: Id, capturedAt: Time, now: Time): Outcome<()> {
    if conn !in db.connections || db.connections[conn].userId != user then Err(NotFound)
    else
      var healed := db.connections[conn].(status := ConnectionStatus.Healthy, lastSyncedAt := Some(capturedAt));
      var contexts :=
        if user in db.contexts then db.contexts
        else db.contexts[user := Context(healed.environment, conn, now)];
      Ok((db.(connections := db.connections[conn := healed], contexts := contexts), ()))
  }

  /** Every available proposal of the user (on one connection, if given) becomes invalidated. */
  function InvalidatePending(proposals: map<Id, ProposalRow>, user: string, conn: Option<Id>,
                             now: Time): map<Id, ProposalRow> {
    map id | id in proposals ::
      if PendingOf(proposals[id], user, conn) then WithStatus(proposals[id], ProposalStatus.Invalidated, now)
      else proposals[id]
  }

  predicate PendingOf(row: ProposalRow, user: string, conn: Option<Id>) {
    row.userId == user && row.status == ProposalStatus.Available && (conn.Some? ==> row.connectionId == conn.value)
  }

  function SwitchContext(db: Db, user: string, environment: Environment, conn: Id, now: Time): Outcome<()> {
    if conn !in db.connections || db.connections[conn].userId != user then Err(NotFound)
    else if db.connections[conn].environment != environment then Err(Conflict)
    else if db.connections[conn].status != ConnectionStatus.Healthy || db.connections[conn].lastSyncedAt.None?
         then Err(Conflict)
    else
      var changed := user !in db.contexts || db.contexts[user].connectionId != conn;
      Ok((db.(contexts := db.contexts[user := Context(environment, conn, now)],
              proposals := if changed then InvalidatePending(db.proposals, user, None, now) else db.proposals),
          ()))
  }

  function RevokeConnection(db: Db, user: string, conn: Id, now: Time): Outcome<()> {
    if conn !in db.connections || db.connections[conn].userId != user then Err(NotFound)
    else
      var revoked := db.connections[conn].(status := ConnectionStatus.Revoked, hasCredential := false);
      var contexts :=
        if user in db.contexts && db.contexts[user].connectionId == conn then db.contexts - {user}
        else db.contexts;
      Ok((db.(connections := db.connections[conn := revoked], contexts := contexts,
              proposals := InvalidatePending(db.proposals, user, Some(conn), now)),
          ()))
  }

  // ----- order submission

  datatype SubmitInput = SubmitInput(reviewId: Id, proposalHash: string, idempotencyKey: string)

  datatype SubmissionStart = SubmissionStart(orderId: Id, proposal: TradeProposal, isNew: bool)

  function CreateReview(db: Db, user: string, pid: Id, proposalHash: string, expiresAt: Time): Outcome<Id> {
    if pid !in db.proposals then Err(IntegrityError)
    else
      Ok((db.(reviews := db.reviews[db.nextId := OrderReview(user, pid, proposalHash, expiresAt, None)],
              nextId := db.nextId + 1),
          db.nextId))
  }

  ghost predicate OrderKeyTaken(db: Db, user: string, key: string) {
    exists id :: id in db.orders && db.orders[id].userId == user && db.orders[id].idempotencyKey == key
  }

  ghost function OrderWithKey(db: Db, user: string, key: string): (id: Id)
    requires OrderKeyTaken(db, user, key)
    ensures id in db.orders && db.orders[id].userId == user && db.orders[id].idempotencyKey == key
  {
    var id :| id in db.orders && db.orders[id].userId == user && db.orders[id].idempotencyKey == key;
    id
  }

  /** The owner may trade on this connection now: it is healthy, is the active context, and holds a key. */
  predicate TradingAllowed(db: Db, user: string, conn: Id) {
    && conn in db.connections
    && db.connections[conn].userId == user
    && db.connections[conn].status == ConnectionStatus.Healthy
    && user in db.contexts
    && db.contexts[user].connectionId == conn
    && db.connections[conn].hasCredential
  }

  /** Why a submission under an unused key raises, checked in the order of the transaction. */
  function SubmissionRefusal(db: Db, user: string, pid: Id, input: SubmitInput, now: Time): Option<Failure> {
    if input.reviewId !in db.reviews || db.reviews[input.reviewId].userId != user ||
       db.reviews[input.reviewId].proposalId != pid || pid !in db.proposals || db.proposals[pid].userId != user then
      Some(NotFound)
    else
      var review := db.reviews[input.reviewId];
      var proposal := db.proposals[pid].payload;
      if review.consumedAt.Some? || review.expiresAt <= now || review.proposalHash != input.proposalHash
      then Some(Conflict)
      else if proposal.status != ProposalStatus.Available || proposal.expiresAt <= now then Some(Conflict)
      else if !TradingAllowed(db, user, proposal.connectionId) then Some(Conflict)
      else None
  }

  /** The unique columns of the order table. */
  ghost predicate OrderInsertable(db: Db, user: string, pid: Id, key: string, linkId: Id) {
    forall id :: id in db.orders ==>
      && db.orders[id].proposalId != pid
      && !(db.orders[id].userId == user && db.orders[id].idempotencyKey == key)
      && db.orders[id].linkId != linkId
  }

  function NewOrder(id: Id, user: string, pid: Id, proposal: TradeProposal, environment: Environment, key: string,
                    now: Time): Order {
    Order(user, pid, proposal.connectionId, environment, OrderState.Submitting, key, id, None,
          OrderFacts(proposal.category, proposal.symbol, proposal.side, proposal.orderType, proposal.quantity,
                     0.0, proposal.quantity, None),
          None, None, None, now, now)
  }

  /** The database once a submission was accepted: the review is consumed and the proposal submitted. */
  function SubmissionBegun(db: Db, user: string, pid: Id, input: SubmitInput, now: Time): Db
    requires pid in db.proposals && db.proposals[pid].payload.connectionId in db.connections &&
             input.reviewId in db.reviews
  {
    var proposal := db.proposals[pid].payload;
    var environment := db.connections[proposal.connectionId].environment;
    db.(orders := db.orders[db.nextId := NewOrder(db.nextId, user, pid, proposal, environment, input.idempotencyKey,
                                                  now)],
        reviews := db.reviews[input.reviewId := db.reviews[input.reviewId].(consumedAt := Some(now))],
        proposals := db.proposals[pid := WithStatus(db.proposals[pid], ProposalStatus.Submitted, now)],
        nextId := db.nextId + 1)
  }

  ghost function BeginSubmission(db: Db, user: string, pid: Id, input: SubmitInput,
                                 now: Time): Outcome<SubmissionStart> {
    if OrderKeyTaken(db, user, input.idempotencyKey) then
      var id := OrderWithKey(db, user, input.idempotencyKey);
      if db.orders[id].proposalId != pid then Err(Conflict)
      else if pid !in db.proposals || db.proposals[pid].userId != user then Err(NotFound)
      else Ok((db, SubmissionStart(id, db.proposals[pid].payload, false)))
    else
      match SubmissionRefusal(db, user, pid, input, now)
      case Some(failure) => Err(failure)
      case None =>
        var id := db.nextId;
        if !OrderInsertable(db, user, pid, input.idempotencyKey, id) then Err(IntegrityError)
        else
          Ok((SubmissionBegun(db, user, pid, input, now),
              SubmissionStart(id, WithStatus(db.proposals[pid], ProposalStatus.Submitted, now).payload, true)))
  }

  /** Records the outcome of the broker call; a definite rejection archives the proposal. */
  function SetOrderState(db: Db, orderId: Id, state: OrderState, brokerOrderId: Option<string>,
                         errorCode: Option<string>, now: Time): Outcome<()> {
    if orderId !in db.orders then Err(NotFound)
    else
      var order := db.orders[orderId];
      var marked := order.(state := state, updatedAt := now, errorCode := errorCode,
                           brokerOrderId := if brokerOrderId.Some? then brokerOrderId else order.brokerOrderId);
      Ok((db.(orders := db.orders[orderId := marked],
              proposals := if state == OrderState.Rejected then ArchiveProposal(db.proposals, order.proposalId, now)
                           else db.proposals),
          ()))
  }

  // ----- actions

  function CompleteAction(action: Action, at: Time): Action {
    action.(state := ActionState.Completed, updatedAt := at)
  }

  /** The actions of one type on the given targets that broker evidence completes. */
  function CompleteActions(actions: map<Id, Action>, actionType: ActionType, targets: set<Id>,
                           at: Time): map<Id, Action> {
    map a | a in actions ::
      if actions[a].actionType == actionType && actions[a].targetId in targets && AwaitsEvidence(actions[a].state)
      then CompleteAction(actions[a], at) else actions[a]
  }

  predicate ProtectionMatches(reviews: map<Id, ActionReview>, action: Action, terms: PositionTerms) {
    && action.reviewId in reviews
    && reviews[action.reviewId].terms.stopLoss == terms.stopLoss
    && reviews[action.reviewId].terms.takeProfit == terms.takeProfit
  }

  function CompleteProtection(actions: map<Id, Action>, reviews: map<Id, ActionReview>, target: Id,
                              terms: PositionTerms, at: Time): map<Id, Action> {
    map a | a in actions ::
      if actions[a].actionType == ActionType.UpdateProtection && actions[a].targetId == target &&
         AwaitsEvidence(actions[a].state) && ProtectionMatches(reviews, actions[a], terms)
      then CompleteAction(actions[a], at) else actions[a]
  }

  datatype ConfirmInput = ConfirmInput(reviewId: Id, actionHash: string, idempotencyKey: string)

  datatype ActionStart = ActionStart(actionId: Id, terms: ActionTerms, isNew: bool)

  /** Stores a review of the given terms; its type and target columns come from the terms. */
  function CreateActionReview(db: Db, user: string, terms: ActionTerms, actionHash: string,
                              expiresAt: Time): Outcome<Id> {
    Ok((db.(actionReviews := db.actionReviews[db.nextId :=
              ActionReview(user, terms.actionType, terms.targetId, actionHash, terms, expiresAt, None)],
            nextId := db.nextId + 1),
        db.nextId))
  }

  /** The row an action of this type points at exists and belongs to the user. */
  predicate OwnsTarget(db: Db, user: string, actionType: ActionType, target: Id) {
    if actionType == ActionType.CancelOrder then target in db.orders && db.orders[target].userId == user
    else target in db.positions && db.positions[target].userId == user
  }

  ghost predicate ActionKeyTaken(db: Db, user: string, key: string) {
    exists a :: a in db.actions && db.actions[a].userId == user && db.actions[a].idempotencyKey == key
  }

  ghost function ActionWithKey(db: Db, user: string, key: string): (a: Id)
    requires ActionKeyTaken(db, user, key)
    ensures a in db.actions && db.actions[a].userId == user && db.actions[a].idempotencyKey == key
  {
    var a :| a in db.actions && db.actions[a].userId == user && db.actions[a].idempotencyKey == key;
    a
  }

  ghost predicate ActionAwaited(db: Db, user: string, target: Id) {
    exists a :: a in db.actions && db.actions[a].userId == user && db.actions[a].targetId == target &&
      InFlight(db.actions[a].state)
  }

  /** Why an action under an unused key raises, checked in the order of the transaction. */
  ghost function ActionRefusal(db: Db, user: string, actionType: ActionType, target: Id, input: ConfirmInput,
                               now: Time): Option<Failure> {
    if ActionAwaited(db, user, target) then Some(Conflict)
    else if input.reviewId !in db.actionReviews then Some(NotFound)
    else
      var review := db.actionReviews[input.reviewId];
      if review.userId != user || review.actionType != actionType || review.targetId != target then Some(NotFound)
      else if review.consumedAt.Some? || review.expiresAt <= now || review.actionHash != input.actionHash
           then Some(Conflict)
      else None
  }

  /** The unique columns of the action table. */
  ghost predicate ActionInsertable(db: Db, user: string, reviewId: Id, key: string, linkId: Option<Id>) {
    forall a :: a in db.actions ==>
      && db.actions[a].reviewId != reviewId
      && !(db.actions[a].userId == user && db.actions[a].idempotencyKey == key)
      && (linkId.Some? ==> db.actions[a].linkId != linkId)
  }

  function ActionLink(actionType: ActionType, id: Id): Option<Id> {
    if actionType == ActionType.ClosePosition then Some(id) else None
  }

  function NewAction(db: Db, user: string, actionType: ActionType, target: Id, input: ConfirmInput, now: Time): Action
    requires input.reviewId in db.actionReviews
  {
    Action(input.reviewId, user, actionType, target, db.actionReviews[input.reviewId].terms.connectionId,
           ActionState.Submitting,
           input.idempotencyKey, ActionLink(actionType, db.nextId), None, None, now, now)
  }

  /** A cancel action moves its order to cancelling. */
  function CancellingOrders(orders: map<Id, Order>, actionType: ActionType, target: Id, now: Time): map<Id, Order> {
    if actionType == ActionType.CancelOrder && target in orders
    then orders[target := orders[target].(state := OrderState.Cancelling, updatedAt := now)]
    else orders
  }

  /** The database once an action was accepted: it refers to its review, which it consumed. */
  function ActionBegun(db: Db, user: string, actionType: ActionType, target: Id, input: ConfirmInput, now: Time): Db
    requires input.reviewId in db.actionReviews
  {
    db.(actions := db.actions[db.nextId := NewAction(db, user, actionType, target, input, now)],
        actionReviews := db.actionReviews[input.reviewId := db.actionReviews[input.reviewId].(consumedAt := Some(now))],
        orders := CancellingOrders(db.orders, actionType, target, now),
        nextId := db.nextId + 1)
  }

  ghost function BeginAction(db: Db, user: string, actionType: ActionType, target: Id, input: ConfirmInput,
                             now: Time): Outcome<ActionStart> {
    if !OwnsTarget(db, user, actionType, target) then Err(NotFound)
    else if ActionKeyTaken(db, user, input.idempotencyKey) then
      var a := ActionWithKey(db, user, input.idempotencyKey);
      if db.actions[a].actionType != actionType || db.actions[a].targetId != target then Err(Conflict)
      else if db.actions[a].reviewId !in db.actionReviews then Err(IntegrityError)
      else Ok((db, ActionStart(a, db.actionReviews[db.actions[a].reviewId].terms, false)))
    else
      match ActionRefusal(db, user, actionType, target, input, now)
      case Some(failure) => Err(failure)
      case None =>
        var review := db.actionReviews[input.reviewId];
        var id := db.nextId;
        if !ActionInsertable(db, user, input.reviewId, input.idempotencyKey, ActionLink(actionType, id))
        then Err(IntegrityError)
        else
          Ok((ActionBegun(db, user, actionType, target, input, now), ActionStart(id, review.terms, true)))
  }

  function MarkAction(db: Db, actionId: Id, state: ActionState, brokerOrderId: Option<string>,
                      errorCode: Option<string>, now: Time): Outcome<()> {
    if actionId !in db.actions then Err(NotFound)
    else
      var action := db.actions[actionId];
      Ok((db.(actions := db.actions[actionId :=
                action.(state := state, updatedAt := now, errorCode := errorCode,
                        brokerOrderId := if brokerOrderId.Some? then brokerOrderId else action.brokerOrderId)]),
          ()))
  }

  // ----- reconciliation with the broker

  /** Writes a broker snapshot over an order row. */
  function ReconciledOrder(order: Order, snapshot: OrderSnapshot, state: OrderState, at: Time): Order {
    order.(state := state, brokerOrderId := Some(snapshot.orderId), facts := snapshot.facts,
           brokerStatus := Some(snapshot.status), lastReconciledAt := Some(at), updatedAt := at)
  }

  function ReconcileOrder(db: Db, orderId: Id, snapshot: OrderSnapshot, state: OrderState, at: Time): Outcome<()> {
    if orderId !in db.orders then Err(NotFound)
    else
      Ok((db.(orders := db.orders[orderId := ReconciledOrder(db.orders[orderId], snapshot, state, at)],
              actions := if state == OrderState.Cancelled
                         then CompleteActions(db.actions, ActionType.CancelOrder, {orderId}, at) else db.actions,
              proposals := if (state == OrderState.Cancelled || state == OrderState.Rejected) &&
                snapshot.facts.executed == 0.0
                           then ArchiveProposal(db.proposals, db.orders[orderId].proposalId, at) else db.proposals),
          ()))
  }

  ghost predicate HasRow(positions: map<Id, Position>, conn: Id, key: PositionKey) {
    exists id :: id in positions && positions[id].connectionId == conn && positions[id].key == key
  }

  ghost function RowOf(positions: map<Id, Position>, conn: Id, key: PositionKey): (id: Id)
    requires HasRow(positions, conn, key)
    ensures id in positions && positions[id].connectionId == conn && positions[id].key == key
  {
    var id :| id in positions && positions[id].connectionId == conn && positions[id].key == key;
    id
  }

  function NewPosition(user: string, conn: Id, environment: Environment, snapshot: PositionSnapshot,
                       at: Time): Position {
    Position(user, conn, environment, PositionState.Open, snapshot.key, snapshot.terms, snapshot.terms.brokerUpdatedAt,
             None, at)
  }

  function UpdatedPosition(position: Position, snapshot: PositionSnapshot, at: Time): Position {
    position.(state := PositionState.Open, terms := snapshot.terms, closedAt := None, lastReconciledAt := at)
  }

  function ClosedPosition(position: Position, at: Time): Position {
    position.(state := PositionState.Closed, closedAt := Some(at), lastReconciledAt := at,
              terms := position.terms.(size := 0.0, positionValue := 0.0, unrealisedPnl := 0.0))
  }

  /** One snapshot of the loop: update the row loaded under its key, or insert one. The key columns are unique. */
  ghost function UpsertPosition(loaded: map<Id, Position>, db: Db, user: string, conn: Id, environment: Environment,
                                snapshot: PositionSnapshot, at: Time): Result<Db, Failure>
  {
    if HasRow(loaded, conn, snapshot.key) then
      var id := RowOf(loaded, conn, snapshot.key);
      if id !in db.positions then Err(IntegrityError)
      else
        Ok(db.(positions := db.positions[id := UpdatedPosition(db.positions[id], snapshot, at)],
               actions := CompleteProtection(db.actions, db.actionReviews, id, snapshot.terms, at)))
    else if HasRow(db.positions, conn, snapshot.key) then Err(IntegrityError)
    else
      Ok(db.(positions := db.positions[db.nextId := NewPosition(user, conn, environment, snapshot, at)],
             nextId := db.nextId + 1))
  }

  ghost function UpsertPositions(db: Db, user: string, conn: Id, environment: Environment,
                                 snapshots: seq<PositionSnapshot>, at: Time): Result<Db, Failure>
  {
    if |snapshots| == 0 then Ok(db)
    else
      match UpsertPositions(db, user, conn, environment, snapshots[..|snapshots| - 1], at)
      case Err(failure) => Err(failure)
      case Ok(before) => UpsertPosition(db.positions, before, user, conn, environment, snapshots[|snapshots| - 1], at)
  }

  function SeenKeys(snapshots: seq<PositionSnapshot>): set<PositionKey> {
    set i | 0 <= i < |snapshots| :: snapshots[i].key
  }

  /** The open rows of the connection that the broker no longer returns. */
  function Vanished(positions: map<Id, Position>, conn: Id, seen: set<PositionKey>): set<Id> {
    set id | id in positions && positions[id].connectionId == conn &&
             positions[id].state == PositionState.Open && positions[id].key !in seen
  }

  function CloseRows(positions: map<Id, Position>, closing: set<Id>, at: Time): map<Id, Position> {
    map id | id in positions :: if id in closing then ClosedPosition(positions[id], at) else positions[id]
  }

  /** Submitted proposals on the symbol of a closing position. */
  predicate ArchivedByClosing(row: ProposalRow, positions: map<Id, Position>, closing: set<Id>) {
    row.status == ProposalStatus.Submitted &&
    exists id :: id in closing && id in positions && positions[id].userId == row.userId &&
                 positions[id].connectionId == row.connectionId && positions[id].key.symbol == row.symbol
  }

  function ArchiveSymbols(proposals: map<Id, ProposalRow>, positions: map<Id, Position>, closing: set<Id>,
                          at: Time): map<Id, ProposalRow> {
    map p | p in proposals ::
      if ArchivedByClosing(proposals[p], positions, closing)
      then WithStatus(proposals[p], ProposalStatus.Archived, at) else proposals[p]
  }

  function CloseVanished(db: Db, conn: Id, closing: set<Id>, at: Time): Db {
    db.(positions := CloseRows(db.positions, closing, at),
        actions := CompleteActions(db.actions, ActionType.ClosePosition, closing, at),
        proposals := ArchiveSymbols(db.proposals, db.positions, closing, at),
        checkpoints := db.checkpoints[conn := at])
  }

  /** Makes the rows of one connection agree with a complete list of broker positions. */
  ghost function ReplaceOpenPositions(db: Db, user: string, conn: Id, environment: Environment,
                                      snapshots: seq<PositionSnapshot>, at: Time): Outcome<()> {
    match UpsertPositions(db, user, conn, environment, snapshots, at)
    case Err(failure) => Err(failure)
    case Ok(upserted) =>
      Ok((CloseVanished(upserted, conn, Vanished(upserted.positions, conn, SeenKeys(snapshots)), at), ()))
  }
}
