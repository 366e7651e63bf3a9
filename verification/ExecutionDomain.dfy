/** The rows of the execution schema and the values the broker reports. */
module ExecutionDomain {
  import opened Common

  datatype OrderType = Market | Limit

  datatype ProposalStatus = Available | Submitted | Rejected | Expired | Invalidated | Archived

  datatype OrderState =
    | Submitting | Acknowledged | PartiallyFilled | Filled | Cancelling | Cancelled
    | Rejected | SubmissionUnknown | ReconciliationRequired

  datatype ActionType = CancelOrder | ClosePosition | UpdateProtection

  datatype ActionState = Submitting | Acknowledged | Completed | Rejected | ReconciliationRequired

  datatype ConnectionStatus = Pending | Verifying | Syncing | Healthy | Degraded | Failed | Revoked

  datatype PositionState = Open | Closed

  /** The broker status strings, mapped as `map_order_state` does: unknown ones ask for another poll. */
  function MapOrderState(status: string): OrderState {
    match status
    case "Created" => OrderState.Acknowledged
    case "New" => OrderState.Acknowledged
    case "Untriggered" => OrderState.Acknowledged
    case "Triggered" => OrderState.Acknowledged
    case "PartiallyFilled" => OrderState.PartiallyFilled
    case "Filled" => OrderState.Filled
    case "Cancelled" => OrderState.Cancelled
    case "PartiallyFilledCanceled" => OrderState.Cancelled
    case "Deactivated" => OrderState.Cancelled
    case "Rejected" => OrderState.Rejected
    case _ => OrderState.ReconciliationRequired
  }

  /** The states that stop being polled. */
  predicate Terminal(state: OrderState) {
    state == OrderState.Filled || state == OrderState.Cancelled || state == OrderState.Rejected
  }

  /** The states `list_reconcilable_orders` selects. */
  predicate Reconcilable(state: OrderState) {
    state == OrderState.Submitting || state == OrderState.Acknowledged ||
    state == OrderState.PartiallyFilled || state == OrderState.Cancelling ||
    state == OrderState.SubmissionUnknown || state == OrderState.ReconciliationRequired
  }

  /** The action states that still wait for the broker. */
  predicate InFlight(state: ActionState) {
    state == ActionState.Submitting || state == ActionState.Acknowledged ||
    state == ActionState.ReconciliationRequired
  }

  /** The pending states that broker evidence may complete. */
  predicate AwaitsEvidence(state: ActionState) {
    state == ActionState.Acknowledged || state == ActionState.ReconciliationRequired
  }

  // ----- accounts

  datatype Connection = Connection(
    userId: string,
    environment: Environment,
    status: ConnectionStatus,
    lastSyncedAt: Option<Time>,
    hasCredential: bool)

  datatype Context = Context(environment: Environment, connectionId: Id, switchedAt: Time)

  // ----- proposals and orders

  /** The terms of an order as a proposal fixes them. */
  datatype OrderFacts = OrderFacts(
    category: Category,
    symbol: string,
    side: Side,
    orderType: OrderType,
    quantity: real,
    executed: real,
    leaves: real,
    averagePrice: Option<real>)

  /** The risk-bearing terms of one position, with the key it is filed under. */
  datatype RiskTerms = RiskTerms(
    category: Category,
    symbol: string,
    positionIndex: int,
    side: Side,
    size: real,
    averagePrice: real,
    leverage: Option<real>,
    stopLoss: Option<real>,
    takeProfit: Option<real>)

  /** A SHA-256 digest of a portfolio, represented by its canonical preimage: equal digests, equal preimages. */
  type Digest = seq<RiskTerms>

  datatype TradeProposal = TradeProposal(
    userId: string,
    connectionId: Id,
    environment: Environment,
    category: Category,
    symbol: string,
    side: Side,
    orderType: OrderType,
    quantity: real,
    limitPrice: Option<real>,
    leverage: real,
    fingerprint: Option<Digest>,
    proposalHash: string,
    expiresAt: Time,
    status: ProposalStatus,
    updatedAt: Time)

  /** A proposal row: indexed columns next to the serialised proposal. */
  datatype ProposalRow = ProposalRow(
    userId: string,
    connectionId: Id,
    environment: Environment,
    symbol: string,
    status: ProposalStatus,
    proposalHash: string,
    expiresAt: Time,
    updatedAt: Time,
    payload: TradeProposal)

  datatype OrderReview = OrderReview(
    userId: string,
    proposalId: Id,
    proposalHash: string,
    expiresAt: Time,
    consumedAt: Option<Time>)

  datatype Order = Order(
    userId: string,
    proposalId: Id,
    connectionId: Id,
    environment: Environment,
    state: OrderState,
    idempotencyKey: string,
    linkId: Id,
    brokerOrderId: Option<string>,
    facts: OrderFacts,
    brokerStatus: Option<string>,
    lastReconciledAt: Option<Time>,
    errorCode: Option<string>,
    createdAt: Time,
    updatedAt: Time)

  /** What the broker reports about one order. */
  datatype OrderSnapshot = OrderSnapshot(orderId: string, status: string, facts: OrderFacts)

  // ----- positions

  datatype PositionKey = PositionKey(category: Category, symbol: string, positionIndex: int)

  /** Everything a position snapshot carries beside its key. */
  datatype PositionTerms = PositionTerms(
    side: Side,
    size: real,
    averagePrice: real,
    positionValue: real,
    leverage: Option<real>,
    markPrice: real,
    liquidationPrice: Option<real>,
    takeProfit: Option<real>,
    stopLoss: Option<real>,
    unrealisedPnl: real,
    realisedPnl: real,
    sequence: int,
    brokerUpdatedAt: Time)

  datatype PositionSnapshot = PositionSnapshot(key: PositionKey, terms: PositionTerms)

  datatype Position = Position(
    userId: string,
    connectionId: Id,
    environment: Environment,
    state: PositionState,
    key: PositionKey,
    terms: PositionTerms,
    openedAt: Time,
    closedAt: Option<Time>,
    lastReconciledAt: Time)

  // ----- actions on orders and positions

  datatype ActionTerms = ActionTerms(
    actionType: ActionType,
    targetId: Id,
    connectionId: Id,
    side: Option<Side>,
    brokerStatus: Option<string>,
    quantity: Option<real>,
    targetSequence: Option<int>,
    stopLoss: Option<real>,
    takeProfit: Option<real>)

  datatype ActionReview = ActionReview(
    userId: string,
    actionType: ActionType,
    targetId: Id,
    actionHash: string,
    terms: ActionTerms,
    expiresAt: Time,
    consumedAt: Option<Time>)

  datatype Action = Action(
    reviewId: Id,
    userId: string,
    actionType: ActionType,
    targetId: Id,
    connectionId: Id,
    state: ActionState,
    idempotencyKey: string,
    linkId: Option<Id>,
    brokerOrderId: Option<string>,
    errorCode: Option<string>,
    createdAt: Time,
    updatedAt: Time)

  // ----- the database

  datatype Db = Db(
    connections: map<Id, Connection>,
    contexts: map<string, Context>,
    proposals: map<Id, ProposalRow>,
    reviews: map<Id, OrderReview>,
    orders: map<Id, Order>,
    positions: map<Id, Position>,
    checkpoints: map<Id, Time>,
    actionReviews: map<Id, ActionReview>,
    actions: map<Id, Action>,
    nextId: Id)

  const EmptyDb := Db(map[], map[], map[], map[], map[], map[], map[], map[], map[], 0)
}
