/**
 How one step moves the calls in flight: it touches at most the call it names, and moves it from one stage of its
 method to the next. What holds of every interleaving follows from this relation, without looking at the steps again.
 */
module CallMoves {
  import opened Common
  import opened ExecutionDomain
  import opened Transactions
  import opened Ledger
  import opened AccountCalls
  import opened Interleaving

  function At(calls: map<Id, Call>, c: Id): Option<Call> {
    if c in calls then Some(calls[c]) else None
  }

  /** The call a step names. */
  function CallOf(e: Step): Option<Id> {
    if e.Direct? || e.BrokerMoves? then None else Some(e.c)
  }

  /** The steps of a submission: what the call they name was, and what it becomes. */
  predicate SubmissionTurns(before: Option<Call>, e: Step, after: Option<Call>)
    requires OfSubmission(e)
  {
    match e
    case OpenSubmit(_, user, pid, input) => before.None? && after == Some(SubmitOpened(user, pid, input))
    case LoadProposal(_) => before.Some? && before.value.SubmitOpened? && (after.Some? ==> after.value.SubmitLoaded?)
    case FetchAccount(_, _, _, _) =>
      before.Some? && before.value.SubmitLoaded? && (after.Some? ==> after.value.SubmitFetched?)
    case CheckPortfolio(_, _, _) =>
      before.Some? && before.value.SubmitWritten? && (after.Some? ==> after.value.SubmitReady?)
    case BeginOrder(_, _) => before.Some? && before.value.SubmitReady? && (after.Some? ==> after.value.SubmitBegun?)
    case RefuseLeverage(_, code) =>
      && before.Some? && before.value.SubmitBegun?
      && after == Some(SubmitAnswered(before.value.orderId, Refused(code)))
    case LoseLeverage(_) =>
      before.Some? && before.value.SubmitBegun? && after == Some(SubmitAnswered(before.value.orderId, Lost))
    case SendOrder(_) => before.Some? && before.value.SubmitBegun? && after == Some(SubmitSent(before.value.orderId))
    case AnswerOrder(_, answer) =>
      before.Some? && before.value.SubmitSent? && after == Some(SubmitAnswered(before.value.orderId, answer))
    case RecordOrder(_, _) => before.Some? && before.value.SubmitAnswered? && after.None?
  }

  predicate OrderTurns(before: Option<Call>, e: Step, after: Option<Call>)
    requires OfOrder(e)
  {
    match e
    case OpenCancel(_, _, _, _, _) => before.None? && after.Some? && after.value.CancelOpened?
    case FetchOrder(_) =>
      && before.Some? && before.value.CancelOpened?
      && (after.Some? ==> after.value.CancelFetched? && after.value.orderId == before.value.orderId)
    case WriteOrder(_, _) =>
      && before.Some? && HoldsSnapshot(before.value)
      && (after.Some? ==> after.value.CancelWritten? && after.value.orderId == before.value.orderId)
    case CheckOrder(_) =>
      && before.Some? && before.value.CancelWritten?
      && (after.Some? ==> after.value.CancelReady? && after.value.orderId == before.value.orderId)
    case PollOrder(_, orderId, _) =>
      before.None? && after.Some? && after.value.OrderPolled? && after.value.orderId == orderId
  }

  predicate PositionTurns(before: Option<Call>, e: Step, after: Option<Call>)
    requires OfPositions(e)
  {
    match e
    case WritePositions(_, _) =>
      && before.Some? && HoldsPositions(before.value)
      && (after.Some? ==>
            || after.value.SubmitWritten?
            || (before.value.ManageFetched? && after.value.ManageWritten? && after.value.kind == before.value.kind))
    case OpenManage(_, _, kind, _, _, _) =>
      && before.None? && after.Some? && after.value.ManageOpened?
      && after.value.kind == kind && kind != ActionType.CancelOrder
    case FetchPositions(_, _) =>
      && before.Some? && before.value.ManageOpened?
      && (after.Some? ==> after.value.ManageFetched? && after.value.kind == before.value.kind)
    case CheckPosition(_) =>
      && before.Some? && before.value.ManageWritten?
      && (after.Some? ==> after.value.ManageReady? && after.value.kind == before.value.kind)
    case PollPositions(_, _, _, _) => before.None? && after.Some? && after.value.PositionsPolled?
  }

  predicate ActionTurns(before: Option<Call>, e: Step, after: Option<Call>)
    requires OfAction(e)
  {
    match e
    case StartAction(_, _) => before.Some? && ReadyToAct(before.value) && (after.Some? ==> after.value.ActionSent?)
    case AnswerAction(_, verdict, brokerOrderId, errorCode) =>
      && before.Some? && before.value.ActionSent? && Verdict(verdict)
      && after == Some(ActionAnswered(before.value.actionId, verdict, brokerOrderId, errorCode))
    case RecordAction(_, _) => before.Some? && before.value.ActionAnswered? && after.None?
  }

  predicate Turns(before: Option<Call>, e: Step, after: Option<Call>) {
    if OfSubmission(e) then SubmissionTurns(before, e, after)
    else if OfOrder(e) then OrderTurns(before, e, after)
    else if OfPositions(e) then PositionTurns(before, e, after)
    else if OfAction(e) then ActionTurns(before, e, after)
    else if e.Account? then
      (before.Some? ==> before.value.OnAccount?) && (after.Some? ==> after.value.OnAccount?)
    else after.None?
  }

  /** The calls are as they were, or the call the step names took its turn and the others are as they were. */
  ghost predicate OneTurn(before: map<Id, Call>, e: Step, after: map<Id, Call>) {
    || after == before
    || (&& CallOf(e).Some?
        && Turns(At(before, CallOf(e).value), e, At(after, CallOf(e).value))
        && forall c :: c != CallOf(e).value ==> At(before, c) == At(after, c))
  }

  /** What few steps do: call `place_order`, change what the broker has refused, and move the broker. */
  predicate SameElse(s: System, e: Step, after: System) {
    && (e.SendOrder? || after.sent == s.sent)
    && (e.RefuseLeverage? || e.AnswerOrder? || after.refused == s.refused)
    && (e.BrokerMoves? || after.broker == s.broker)
  }

  lemma ReadTurns(s: System, e: Step)
    requires e.LoadProposal? || e.FetchAccount? || e.CheckPortfolio? || e.OpenSubmit?
    ensures OneTurn(s.calls, e, MovedSubmission(s, e).calls) && SameElse(s, e, MovedSubmission(s, e))
  {
    hide Fingerprints.Fingerprint, TradingAllowed, OrderKeyTaken, OpenRows, FinalStatus;
  }

  lemma PlaceTurns(s: System, e: Step)
    requires e.BeginOrder? || e.RefuseLeverage? || e.LoseLeverage? || e.SendOrder? || e.AnswerOrder? || e.RecordOrder?
    ensures OneTurn(s.calls, e, MovedSubmission(s, e).calls) && SameElse(s, e, MovedSubmission(s, e))
  {
    hide FinalStatus, OrderKeyTaken, BeginSubmission;
  }

  lemma CancelTurns(s: System, e: Step)
    requires OfOrder(e)
    ensures OneTurn(s.calls, e, MovedOrder(s, e).calls) && SameElse(s, e, MovedOrder(s, e))
  {
    hide FinalStatus, ActionKeyTaken, Confirmed, MapOrderState;
  }

  lemma ManageTurns(s: System, e: Step)
    requires OfPositions(e)
    ensures OneTurn(s.calls, e, MovedPositions(s, e).calls) && SameElse(s, e, MovedPositions(s, e))
  {
    hide ReplaceOpenPositions, ReplaceTxn, ActionKeyTaken, Confirmed, ValidProtection, Unchanged;
  }

  lemma RunTurns(s: System, e: Step)
    requires OfAction(e)
    ensures OneTurn(s.calls, e, MovedAction(s, e).calls) && SameElse(s, e, MovedAction(s, e))
  {
    hide BeginAction;
  }

  lemma AccountTurns(s: System, e: Step)
    requires e.Account?
    ensures OneTurn(s.calls, e, MovedAccount(s, e).calls) && SameElse(s, e, MovedAccount(s, e))
  {
    hide Opened, Continued;
  }

  lemma AloneTurns(s: System, e: Step)
    requires e.Direct? || e.Abandon? || e.BrokerMoves?
    ensures OneTurn(s.calls, e, MovedAlone(s, e).calls) && SameElse(s, e, MovedAlone(s, e))
  {
    hide FinalStatus;
  }

  /** Every step takes at most one turn. */
  lemma StepTurns(s: System, e: Step)
    ensures OneTurn(s.calls, e, Moved(s, e).calls) && SameElse(s, e, Moved(s, e))
  {
    hide MovedSubmission, MovedOrder, MovedPositions, MovedAction, MovedAccount, MovedAlone, OneTurn, SameElse;
    if OfOrder(e) {
      CancelTurns(s, e);
    } else if OfPositions(e) {
      ManageTurns(s, e);
    } else if OfAction(e) {
      RunTurns(s, e);
    } else if e.Account? {
      AccountTurns(s, e);
    } else if e.Direct? || e.Abandon? || e.BrokerMoves? {
      AloneTurns(s, e);
    } else if e.LoadProposal? || e.FetchAccount? || e.CheckPortfolio? || e.OpenSubmit? {
      ReadTurns(s, e);
    } else {
      PlaceTurns(s, e);
    }
  }

  /** A step is its transaction and its turn. */
  lemma NextParts(s: System, e: Step)
    ensures Next(s, e) == Moved(s, e).(db := Apply(s.db, TxnOf(s, e)))
  {
    hide Moved, Apply, TxnOf;
  }
}
