/**
 Service calls in flight over the shared database and a broker. Other steps may run before and after each
 transaction, broker call and broker answer of a service method; reads that follow one another are one step.
 A call is a value that holds what its method has read so far. Calls may be abandoned at any point, broker
 answers may be lost, and snapshots may be written long after they were taken.
 */
module Interleaving {
  import opened Common
  import opened ExecutionDomain
  import opened Transactions
  import opened Ledger
  import opened AccountCalls
  import opened Fingerprints

  /** What `place_order` came back with: an acknowledgement, a definite rejection, or a transport failure. */
  datatype PlaceAnswer = Accepted(orderId: string, linkId: Id) | Refused(code: string) | Lost

  datatype Call =
    | SubmitOpened(user: string, pid: Id, input: SubmitInput)
    | SubmitLoaded(user: string, pid: Id, input: SubmitInput, proposal: TradeProposal)
    | SubmitFetched(user: string, pid: Id, input: SubmitInput, proposal: TradeProposal,
                    snapshots: seq<PositionSnapshot>, readAt: Time)
    | SubmitWritten(user: string, pid: Id, input: SubmitInput, proposal: TradeProposal)
    | SubmitReady(user: string, pid: Id, input: SubmitInput)
    | SubmitBegun(orderId: Id, proposal: TradeProposal)
    | SubmitSent(orderId: Id)
    | SubmitAnswered(orderId: Id, answer: PlaceAnswer)
    | CancelOpened(user: string, orderId: Id, confirm: ConfirmInput, terms: ActionTerms)
    | CancelFetched(user: string, orderId: Id, confirm: ConfirmInput, terms: ActionTerms, snapshot: OrderSnapshot)
    | CancelWritten(user: string, orderId: Id, confirm: ConfirmInput, terms: ActionTerms)
    | CancelReady(user: string, orderId: Id, confirm: ConfirmInput)
    | ManageOpened(user: string, kind: ActionType, positionId: Id, confirm: ConfirmInput, terms: ActionTerms)
    | ManageFetched(user: string, kind: ActionType, positionId: Id, confirm: ConfirmInput, terms: ActionTerms,
                    row: Position, snapshots: seq<PositionSnapshot>)
    | ManageWritten(user: string, kind: ActionType, positionId: Id, confirm: ConfirmInput, terms: ActionTerms)
    | ManageReady(user: string, kind: ActionType, positionId: Id, confirm: ConfirmInput)
    | ActionSent(actionId: Id)
    | ActionAnswered(actionId: Id, verdict: ActionState, brokerOrderId: Option<string>, errorCode: Option<string>)
    | OrderPolled(orderId: Id, snapshot: OrderSnapshot)
    | PositionsPolled(user: string, conn: Id, environment: Environment, snapshots: seq<PositionSnapshot>)
    | OnAccount(account: AccountCall)

  /**
   `broker` holds the orders the broker knows, under the link id of the order row; `sent` lists the
   `place_order` calls made; `refused` are the orders the broker has definitely not accepted.
   */
  datatype System = System(
    db: Db,
    calls: map<Id, Call>,
    broker: map<Id, OrderSnapshot>,
    sent: seq<Id>,
    refused: set<Id>)

  const Initial := System(EmptyDb, map[], map[], [], {})

  datatype Step =
    | Direct(txn: Txn)
    | OpenSubmit(c: Id, user: string, pid: Id, input: SubmitInput)
    | LoadProposal(c: Id)
    | FetchAccount(c: Id, permitted: bool, snapshots: seq<PositionSnapshot>, now: Time)
    | WritePositions(c: Id, now: Time)
    | CheckPortfolio(c: Id, rows: seq<Id>, permitted: bool)
    | BeginOrder(c: Id, now: Time)
    | RefuseLeverage(c: Id, code: string)
    | LoseLeverage(c: Id)
    | SendOrder(c: Id)
    | AnswerOrder(c: Id, answer: PlaceAnswer)
    | RecordOrder(c: Id, now: Time)
    | OpenCancel(c: Id, user: string, orderId: Id, confirm: ConfirmInput, now: Time)
    | FetchOrder(c: Id)
    | WriteOrder(c: Id, now: Time)
    | CheckOrder(c: Id)
    | OpenManage(c: Id, user: string, kind: ActionType, positionId: Id, confirm: ConfirmInput, now: Time)
    | FetchPositions(c: Id, snapshots: seq<PositionSnapshot>)
    | CheckPosition(c: Id)
    | StartAction(c: Id, now: Time)
    | AnswerAction(c: Id, verdict: ActionState, brokerOrderId: Option<string>, errorCode: Option<string>)
    | RecordAction(c: Id, now: Time)
    | PollOrder(c: Id, orderId: Id, byWorker: bool)
    | PollPositions(c: Id, user: string, conn: Id, snapshots: seq<PositionSnapshot>)
    | Account(c: Id, act: AccountAct)
    | Abandon(c: Id)
    | BrokerMoves(linkId: Id, snapshot: OrderSnapshot)

  // ----- how one call changes

  /** A call moves on, or ends. */
  function Become(s: System, c: Id, next: Option<Call>): System {
    s.(calls := if next.Some? then s.calls[c := next.value] else s.calls - {c})
  }

  /** A new call, under an id no call in flight has. */
  function Open(s: System, c: Id, call: Call): System {
    if c in s.calls then s else s.(calls := s.calls[c := call])
  }

  /** Statuses the broker never leaves. */
  predicate FinalStatus(status: string) {
    Terminal(MapOrderState(status))
  }

  /** Account, proposal and review requests that are one transaction each. */
  predicate SingleTransaction(txn: Txn) {
    txn.Reject? || txn.Connect? || txn.Switch? || txn.Revoke? || txn.Review? || txn.ReviewAction?
  }

  // ----- submission

  ghost function OpenedSubmit(s: System, c: Id, user: string, pid: Id, input: SubmitInput): System {
    if OrderKeyTaken(s.db, user, input.idempotencyKey) then s else Open(s, c, SubmitOpened(user, pid, input))
  }

  function LoadedProposal(s: System, c: Id): System
    requires c in s.calls && s.calls[c].SubmitOpened?
  {
    var call := s.calls[c];
    if call.pid in s.db.proposals && s.db.proposals[call.pid].userId == call.user
    then Become(s, c, Some(SubmitLoaded(call.user, call.pid, call.input, s.db.proposals[call.pid].payload)))
    else Become(s, c, None)
  }

  /** Preflight up to the broker reads; `permitted` stands for the profile, risk, mandate and strategy checks. */
  function FetchedAccount(s: System, c: Id, permitted: bool, snapshots: seq<PositionSnapshot>, now: Time): System
    requires c in s.calls && s.calls[c].SubmitLoaded?
  {
    var call := s.calls[c];
    var proposal := call.proposal;
    if permitted && proposal.status == ProposalStatus.Available && proposal.expiresAt > now &&
       proposal.fingerprint.Some? &&
       TradingAllowed(s.db, call.user, proposal.connectionId) &&
       s.db.connections[proposal.connectionId].environment == proposal.environment
    then Become(s, c, Some(SubmitFetched(call.user, call.pid, call.input, proposal, snapshots, now)))
    else Become(s, c, None)
  }

  /** The rows a portfolio read returns: each open row of the user on the connection, once. */
  ghost predicate OpenRows(positions: map<Id, Position>, user: string, conn: Id, rows: seq<Id>) {
    && (forall i, j :: 0 <= i < j < |rows| ==> rows[i] != rows[j])
    && (forall id :: id in rows <==> id in positions && positions[id].userId == user &&
                                     positions[id].connectionId == conn && positions[id].state == PositionState.Open)
  }

  function RowsRead(positions: map<Id, Position>, rows: seq<Id>): seq<Position>
    requires forall id :: id in rows ==> id in positions
  {
    seq(|rows|, i requires 0 <= i < |rows| => positions[rows[i]])
  }

  ghost function CheckedPortfolio(s: System, c: Id, rows: seq<Id>, permitted: bool): System
    requires c in s.calls && s.calls[c].SubmitWritten?
  {
    var call := s.calls[c];
    var conn := call.proposal.connectionId;
    if permitted && conn in s.db.checkpoints && OpenRows(s.db.positions, call.user, conn, rows) &&
       Some(Fingerprint(RowsRead(s.db.positions, rows))) == call.proposal.fingerprint
    then Become(s, c, Some(SubmitReady(call.user, call.pid, call.input)))
    else Become(s, c, None)
  }

  ghost function BegunOrder(s: System, c: Id, now: Time): System
    requires c in s.calls && s.calls[c].SubmitReady?
  {
    var call := s.calls[c];
    match BeginSubmission(s.db, call.user, call.pid, call.input, now)
    case Err(_) => Become(s, c, None)
    case Ok((_, start)) =>
      Become(s, c, if start.isNew then Some(SubmitBegun(start.orderId, start.proposal)) else None)
  }

  /** Setting the leverage failed, so `place_order` is never called. */
  function FailedLeverage(s: System, c: Id, answer: PlaceAnswer): System
    requires c in s.calls && s.calls[c].SubmitBegun? && !answer.Accepted?
  {
    var o := s.calls[c].orderId;
    Become(s, c, Some(SubmitAnswered(o, answer))).(refused := if answer.Refused? then s.refused + {o} else s.refused)
  }

  function SentOrder(s: System, c: Id): System
    requires c in s.calls && s.calls[c].SubmitBegun?
  {
    var o := s.calls[c].orderId;
    Become(s, c, Some(SubmitSent(o))).(sent := s.sent + [o])
  }

  /** A definite rejection can only be the answer while the broker knows no such order. */
  predicate MayAnswer(s: System, o: Id, answer: PlaceAnswer) {
    answer.Refused? ==> o !in s.broker
  }

  function AnsweredOrder(s: System, c: Id, answer: PlaceAnswer): System
    requires c in s.calls && s.calls[c].SubmitSent? && MayAnswer(s, s.calls[c].orderId, answer)
  {
    var o := s.calls[c].orderId;
    Become(s, c, Some(SubmitAnswered(o, answer))).(refused := if answer.Refused? then s.refused + {o} else s.refused)
  }

  function Clip(text: string): string {
    if |text| <= 100 then text else text[..100]
  }

  /** The transaction that records an answer. */
  function RecordTxn(o: Id, answer: PlaceAnswer, now: Time): Txn {
    match answer
    case Refused(code) => SetOrder(o, OrderState.Rejected, None, Some(Clip("bybit_" + code)), now)
    case Lost => SetOrder(o, OrderState.SubmissionUnknown, None, Some("bybit_transport_unknown"), now)
    case Accepted(orderId, linkId) =>
      if linkId != o then SetOrder(o, OrderState.SubmissionUnknown, None, Some("bybit_order_link_mismatch"), now)
      else SetOrder(o, OrderState.Acknowledged, Some(orderId), None, now)
  }

  // ----- cancelling an order

  /** The confirmed review exists, is the user's, is fresh, and is for this target and type. */
  predicate Confirmed(db: Db, user: string, kind: ActionType, target: Id, confirm: ConfirmInput, now: Time) {
    && confirm.reviewId in db.actionReviews
    && db.actionReviews[confirm.reviewId].userId == user
    && db.actionReviews[confirm.reviewId].terms.targetId == target
    && db.actionReviews[confirm.reviewId].expiresAt > now
    && db.actionReviews[confirm.reviewId].terms.actionType == kind
    && db.actionReviews[confirm.reviewId].actionHash == confirm.actionHash
  }

  ghost function OpenedCancel(s: System, c: Id, user: string, orderId: Id, confirm: ConfirmInput, now: Time): System {
    if ActionKeyTaken(s.db, user, confirm.idempotencyKey) ||
       !Confirmed(s.db, user, ActionType.CancelOrder, orderId, confirm, now) ||
       orderId !in s.db.orders || s.db.orders[orderId].userId != user
    then s
    else Open(s, c, CancelOpened(user, orderId, confirm, s.db.actionReviews[confirm.reviewId].terms))
  }

  function FetchedOrder(s: System, c: Id): System
    requires c in s.calls && s.calls[c].CancelOpened?
  {
    var call := s.calls[c];
    if call.orderId in s.broker
    then Become(s, c, Some(CancelFetched(call.user, call.orderId, call.confirm, call.terms, s.broker[call.orderId])))
    else Become(s, c, None)
  }

  function Polled(s: System, c: Id, orderId: Id, byWorker: bool): System {
    if orderId in s.db.orders && orderId in s.broker && (byWorker ==> Reconcilable(s.db.orders[orderId].state))
    then Open(s, c, OrderPolled(orderId, s.broker[orderId]))
    else s
  }

  predicate HoldsSnapshot(call: Call) {
    call.CancelFetched? || call.OrderPolled?
  }

  function WrittenOrder(s: System, c: Id): System
    requires c in s.calls && HoldsSnapshot(s.calls[c])
  {
    var call := s.calls[c];
    Become(s, c,
           if call.orderId in s.db.orders && call.CancelFetched?
           then Some(CancelWritten(call.user, call.orderId, call.confirm, call.terms)) else None)
  }

  /** The order is still open at the broker and unchanged since the cancel review. */
  predicate Cancellable(order: Order, terms: ActionTerms) {
    && (order.state == OrderState.Acknowledged || order.state == OrderState.PartiallyFilled)
    && order.brokerStatus == terms.brokerStatus
    && Some(order.facts.leaves) == terms.quantity
  }

  function CheckedOrder(s: System, c: Id): System
    requires c in s.calls && s.calls[c].CancelWritten?
  {
    var call := s.calls[c];
    if call.orderId in s.db.orders && s.db.orders[call.orderId].userId == call.user &&
       Cancellable(s.db.orders[call.orderId], call.terms)
    then Become(s, c, Some(CancelReady(call.user, call.orderId, call.confirm)))
    else Become(s, c, None)
  }

  // ----- closing and protecting a position

  ghost function OpenedManage(s: System, c: Id, user: string, kind: ActionType, positionId: Id, confirm: ConfirmInput,
                              now: Time): System {
    if kind == ActionType.CancelOrder || ActionKeyTaken(s.db, user, confirm.idempotencyKey) ||
       !Confirmed(s.db, user, kind, positionId, confirm, now)
    then s
    else Open(s, c, ManageOpened(user, kind, positionId, confirm, s.db.actionReviews[confirm.reviewId].terms))
  }

  function FetchedPositions(s: System, c: Id, snapshots: seq<PositionSnapshot>): System
    requires c in s.calls && s.calls[c].ManageOpened?
  {
    var call := s.calls[c];
    if call.positionId in s.db.positions && s.db.positions[call.positionId].userId == call.user
    then Become(s, c, Some(ManageFetched(call.user, call.kind, call.positionId, call.confirm, call.terms,
                                               s.db.positions[call.positionId], snapshots)))
    else Become(s, c, None)
  }

  predicate HoldsPositions(call: Call) {
    call.SubmitFetched? || call.ManageFetched? || call.PositionsPolled?
  }

  /** The replacement a call is about to write. Preflight stamps it with the time it began. */
  function ReplaceTxn(call: Call, now: Time): Txn
    requires HoldsPositions(call)
  {
    match call
    case SubmitFetched(user, _, _, proposal, snapshots, readAt) =>
      Replace(user, proposal.connectionId, proposal.environment, snapshots, readAt)
    case ManageFetched(user, _, _, _, _, row, snapshots) =>
      Replace(user, row.connectionId, row.environment, snapshots, now)
    case PositionsPolled(user, conn, environment, snapshots) => Replace(user, conn, environment, snapshots, now)
  }

  ghost function WrittenPositions(s: System, c: Id, now: Time): System
    requires c in s.calls && HoldsPositions(s.calls[c])
  {
    var call := s.calls[c];
    var txn := ReplaceTxn(call, now);
    var ok := ReplaceOpenPositions(s.db, txn.user, txn.conn, txn.environment, txn.snapshots, txn.now).Ok?;
    Become(s, c,
           if ok && call.SubmitFetched? then Some(SubmitWritten(call.user, call.pid, call.input, call.proposal))
           else if ok && call.ManageFetched?
                then Some(ManageWritten(call.user, call.kind, call.positionId, call.confirm, call.terms))
           else None)
  }

  /** The position is open and unchanged since the review. */
  predicate Unchanged(position: Position, terms: ActionTerms) {
    && position.state == PositionState.Open
    && Some(position.terms.sequence) == terms.targetSequence
    && Some(position.terms.size) == terms.quantity
    && Some(position.terms.side) == terms.side
  }

  /** New boundaries stay on the protective sides of the mark price, and at least one remains. */
  predicate ValidProtection(position: Position, stopLoss: Option<real>, takeProfit: Option<real>) {
    && (stopLoss.Some? || takeProfit.Some?)
    && match position.terms.side
       case Buy =>
         && (stopLoss.None? || stopLoss.value < position.terms.markPrice)
         && (takeProfit.None? || takeProfit.value > position.terms.markPrice)
       case Sell =>
         && (stopLoss.None? || stopLoss.value > position.terms.markPrice)
         && (takeProfit.None? || takeProfit.value < position.terms.markPrice)
  }

  function CheckedPosition(s: System, c: Id): System
    requires c in s.calls && s.calls[c].ManageWritten?
  {
    var call := s.calls[c];
    if call.positionId in s.db.positions && s.db.positions[call.positionId].userId == call.user &&
       Unchanged(s.db.positions[call.positionId], call.terms) &&
       (call.kind == ActionType.UpdateProtection ==>
          ValidProtection(s.db.positions[call.positionId], call.terms.stopLoss, call.terms.takeProfit))
    then Become(s, c, Some(ManageReady(call.user, call.kind, call.positionId, call.confirm)))
    else Become(s, c, None)
  }

  // ----- running an action

  predicate ReadyToAct(call: Call) {
    call.CancelReady? || call.ManageReady?
  }

  function ActTxn(call: Call, now: Time): Txn
    requires ReadyToAct(call)
  {
    match call
    case CancelReady(user, orderId, confirm) => Act(user, ActionType.CancelOrder, orderId, confirm, now)
    case ManageReady(user, kind, positionId, confirm) => Act(user, kind, positionId, confirm, now)
  }

  ghost function StartedAction(s: System, c: Id, now: Time): System
    requires c in s.calls && ReadyToAct(s.calls[c])
  {
    var txn := ActTxn(s.calls[c], now);
    match BeginAction(s.db, txn.user, txn.actionType, txn.target, txn.confirm, txn.now)
    case Err(_) => Become(s, c, None)
    case Ok((_, start)) => Become(s, c, if start.isNew then Some(ActionSent(start.actionId)) else None)
  }

  predicate Verdict(state: ActionState) {
    state == ActionState.Acknowledged || state == ActionState.Rejected || state == ActionState.ReconciliationRequired
  }

  // ----- requests on an account

  /** A request opens under an id no call in flight has, and goes on only with the act it is at. */
  predicate Acts(s: System, c: Id, act: AccountAct) {
    if Opens(act) then c !in s.calls && Opened(s.db, act).Some?
    else c in s.calls && s.calls[c].OnAccount? && Fits(s.calls[c].account, act)
  }

  function AccountTxn(s: System, c: Id, act: AccountAct): Txn {
    if !Acts(s, c, act) then Nothing
    else if Opens(act) then OpenTxn(act)
    else CallTxn(s.calls[c].account, act)
  }

  function ActedAccount(s: System, c: Id, act: AccountAct): System
    requires Acts(s, c, act)
  {
    if Opens(act) then s.(calls := s.calls[c := OnAccount(Opened(s.db, act).value)])
    else
      match Continued(s.db, s.calls[c].account)
      case Some(call) => Become(s, c, Some(OnAccount(call)))
      case None => Become(s, c, None)
  }

  // ----- the broker

  /** The broker knows only orders it was sent and has not refused, and never leaves a final status. */
  predicate MayMoveBroker(s: System, linkId: Id) {
    linkId in s.sent && linkId !in s.refused && (linkId in s.broker ==> !FinalStatus(s.broker[linkId].status))
  }

  // ----- every step is at most one transaction

  /** The transaction a step runs. */
  ghost function TxnOf(s: System, e: Step): Txn {
    match e
    case Direct(txn) => if SingleTransaction(txn) then txn else Nothing
    case WritePositions(c, now) =>
      if c in s.calls && HoldsPositions(s.calls[c]) then ReplaceTxn(s.calls[c], now) else Nothing
    case BeginOrder(c, now) =>
      if c in s.calls && s.calls[c].SubmitReady? then Begin(s.calls[c].user, s.calls[c].pid, s.calls[c].input, now)
      else Nothing
    case RecordOrder(c, now) =>
      if c in s.calls && s.calls[c].SubmitAnswered? then RecordTxn(s.calls[c].orderId, s.calls[c].answer, now)
      else Nothing
    case WriteOrder(c, now) =>
      if c in s.calls && HoldsSnapshot(s.calls[c])
      then Reconcile(s.calls[c].orderId, s.calls[c].snapshot, MapOrderState(s.calls[c].snapshot.status), now)
      else Nothing
    case StartAction(c, now) => if c in s.calls && ReadyToAct(s.calls[c]) then ActTxn(s.calls[c], now) else Nothing
    case RecordAction(c, now) =>
      if c in s.calls && s.calls[c].ActionAnswered?
      then SetAction(s.calls[c].actionId, s.calls[c].verdict, s.calls[c].brokerOrderId, s.calls[c].errorCode, now)
      else Nothing
    case Account(c, act) => AccountTxn(s, c, act)
    case _ => Nothing
  }

  // ----- all steps

  /** The steps of a submission. */
  predicate OfSubmission(e: Step) {
    e.OpenSubmit? || e.LoadProposal? || e.FetchAccount? || e.CheckPortfolio? || e.BeginOrder? || e.RefuseLeverage? ||
    e.LoseLeverage? || e.SendOrder? || e.AnswerOrder? || e.RecordOrder?
  }

  ghost function MovedSubmission(s: System, e: Step): System {
    match e
    case OpenSubmit(c, user, pid, input) => OpenedSubmit(s, c, user, pid, input)
    case LoadProposal(c) => if c in s.calls && s.calls[c].SubmitOpened? then LoadedProposal(s, c) else s
    case FetchAccount(c, permitted, snapshots, now) =>
      if c in s.calls && s.calls[c].SubmitLoaded? then FetchedAccount(s, c, permitted, snapshots, now) else s
    case CheckPortfolio(c, rows, permitted) =>
      if c in s.calls && s.calls[c].SubmitWritten? then CheckedPortfolio(s, c, rows, permitted) else s
    case BeginOrder(c, now) => if c in s.calls && s.calls[c].SubmitReady? then BegunOrder(s, c, now) else s
    case RefuseLeverage(c, code) =>
      if c in s.calls && s.calls[c].SubmitBegun? && s.calls[c].proposal.category == Linear
      then FailedLeverage(s, c, Refused(code)) else s
    case LoseLeverage(c) =>
      if c in s.calls && s.calls[c].SubmitBegun? && s.calls[c].proposal.category == Linear
      then FailedLeverage(s, c, Lost) else s
    case SendOrder(c) => if c in s.calls && s.calls[c].SubmitBegun? then SentOrder(s, c) else s
    case AnswerOrder(c, answer) =>
      if c in s.calls && s.calls[c].SubmitSent? && MayAnswer(s, s.calls[c].orderId, answer)
      then AnsweredOrder(s, c, answer) else s
    case RecordOrder(c, now) =>
      if c in s.calls && s.calls[c].SubmitAnswered? then Become(s, c, None) else s
    case _ => s
  }

  /** The steps that read and write one order: of a cancel, and of a poll. */
  predicate OfOrder(e: Step) {
    e.OpenCancel? || e.FetchOrder? || e.WriteOrder? || e.CheckOrder? || e.PollOrder?
  }

  ghost function MovedOrder(s: System, e: Step): System {
    match e
    case OpenCancel(c, user, orderId, confirm, now) => OpenedCancel(s, c, user, orderId, confirm, now)
    case FetchOrder(c) => if c in s.calls && s.calls[c].CancelOpened? then FetchedOrder(s, c) else s
    case WriteOrder(c, now) => if c in s.calls && HoldsSnapshot(s.calls[c]) then WrittenOrder(s, c) else s
    case CheckOrder(c) => if c in s.calls && s.calls[c].CancelWritten? then CheckedOrder(s, c) else s
    case PollOrder(c, orderId, byWorker) => Polled(s, c, orderId, byWorker)
    case _ => s
  }

  /** The steps that read and write positions: of closing and protecting, of a poll, and of preflight. */
  predicate OfPositions(e: Step) {
    e.WritePositions? || e.OpenManage? || e.FetchPositions? || e.CheckPosition? || e.PollPositions?
  }

  ghost function MovedPositions(s: System, e: Step): System {
    match e
    case WritePositions(c, now) => if c in s.calls && HoldsPositions(s.calls[c]) then WrittenPositions(s, c, now) else s
    case OpenManage(c, user, kind, positionId, confirm, now) => OpenedManage(s, c, user, kind, positionId, confirm, now)
    case FetchPositions(c, snapshots) =>
      if c in s.calls && s.calls[c].ManageOpened? then FetchedPositions(s, c, snapshots) else s
    case CheckPosition(c) => if c in s.calls && s.calls[c].ManageWritten? then CheckedPosition(s, c) else s
    case PollPositions(c, user, conn, snapshots) =>
      if conn in s.db.connections && s.db.connections[conn].userId == user
      then Open(s, c, PositionsPolled(user, conn, s.db.connections[conn].environment, snapshots)) else s
    case _ => s
  }

  /** The steps of a started action. */
  predicate OfAction(e: Step) {
    e.StartAction? || e.AnswerAction? || e.RecordAction?
  }

  ghost function MovedAction(s: System, e: Step): System {
    match e
    case StartAction(c, now) => if c in s.calls && ReadyToAct(s.calls[c]) then StartedAction(s, c, now) else s
    case AnswerAction(c, verdict, brokerOrderId, errorCode) =>
      if c in s.calls && s.calls[c].ActionSent? && Verdict(verdict)
      then Become(s, c, Some(ActionAnswered(s.calls[c].actionId, verdict, brokerOrderId, errorCode))) else s
    case RecordAction(c, now) =>
      if c in s.calls && s.calls[c].ActionAnswered? then Become(s, c, None) else s
    case _ => s
  }

  ghost function MovedAccount(s: System, e: Step): System
    requires e.Account?
  {
    if Acts(s, e.c, e.act) then ActedAccount(s, e.c, e.act) else s
  }

  /** Requests of one transaction, crashes, and the broker. */
  function MovedAlone(s: System, e: Step): System {
    match e
    case Abandon(c) => s.(calls := s.calls - {c})
    case BrokerMoves(linkId, snapshot) =>
      if MayMoveBroker(s, linkId) then s.(broker := s.broker[linkId := snapshot]) else s
    case _ => s
  }

  /**
   What a step does beside its transaction: calls move on, and the broker acts. A step that is not enabled
   does nothing.
   */
  ghost function Moved(s: System, e: Step): System {
    if OfSubmission(e) then MovedSubmission(s, e)
    else if OfOrder(e) then MovedOrder(s, e)
    else if OfPositions(e) then MovedPositions(s, e)
    else if OfAction(e) then MovedAction(s, e)
    else if e.Account? then MovedAccount(s, e)
    else MovedAlone(s, e)
  }

  /** What an account request writes: a connection's status, a synced account, or a proposal. */
  lemma AccountTxnKind(s: System, c: Id, act: AccountAct)
    ensures var txn := AccountTxn(s, c, act); txn.Nothing? || txn.MarkStatus? || txn.Sync? || txn.Propose?
  {
    hide Opened, Continued;
  }

  /** One step: its transaction commits on the database and its call moves on. */
  ghost function Next(s: System, e: Step): System {
    Moved(s, e).(db := Apply(s.db, TxnOf(s, e)))
  }

  ghost function Run(s: System, steps: seq<Step>): System {
    if |steps| == 0 then s else Next(Run(s, steps[..|steps| - 1]), steps[|steps| - 1])
  }

  /** An enabled request on an account: its write commits, and its call moves on. */
  lemma AccountNext(s: System, c: Id, act: AccountAct)
    ensures Next(s, Account(c, act)) ==
            if Acts(s, c, act) then ActedAccount(s, c, act).(db := Apply(s.db, AccountTxn(s, c, act))) else s
  {
    NothingHappens(s.db);
    hide Apply, Acts, ActedAccount, CallTxn, OpenTxn;
  }

  // ----- joining runs

  lemma RunSnoc(s: System, steps: seq<Step>, e: Step)
    ensures Run(s, steps + [e]) == Next(Run(s, steps), e)
  {
    hide Next;
    assert (steps + [e])[..|steps|] == steps;
  }

  lemma {:induction false} RunJoins(s: System, first: seq<Step>, second: seq<Step>)
    ensures Run(s, first + second) == Run(Run(s, first), second)
  {
    hide Next;
    if |second| == 0 {
      assert first + second == first;
    } else {
      var init, last := second[..|second| - 1], second[|second| - 1];
      RunJoins(s, first, init);
      assert (first + second)[..|first + second| - 1] == first + init;
    }
  }

  lemma RunOne(s: System, e: Step)
    ensures Run(s, [e]) == Next(s, e)
  {
    hide Next;
    assert [e][..0] == [];
  }
}
