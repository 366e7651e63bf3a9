/**
 A local terminal state never contradicts the broker. Rows may leave a terminal state again (a late
 acknowledgement, a cancel begun after a fill), but whenever one says filled, cancelled or rejected, the
 broker's final record says the same, or the broker definitely refused the order.
 */
module BrokerTruth {
  import opened Common
  import opened ExecutionDomain
  import opened Transactions
  import opened Ledger
  import opened History
  import opened Interleaving
  import opened CallMoves
  import opened Submissions

  /** The row repeats the broker's final record of the order. */
  predicate FromBroker(order: Order, o: Id, broker: map<Id, OrderSnapshot>) {
    && o in broker
    && FinalStatus(broker[o].status)
    && order.state == MapOrderState(broker[o].status)
    && order.brokerStatus == Some(broker[o].status)
    && order.facts == broker[o].facts
  }

  predicate RowTrue(order: Order, o: Id, broker: map<Id, OrderSnapshot>, refused: set<Id>) {
    Terminal(order.state) ==> FromBroker(order, o, broker) || (order.state == OrderState.Rejected && o in refused)
  }

  ghost predicate RowsTrue(orders: map<Id, Order>, broker: map<Id, OrderSnapshot>, refused: set<Id>) {
    forall o :: o in orders ==> RowTrue(orders[o], o, broker, refused)
  }

  /** A snapshot in flight may be stale, unless it is final: then it is still the broker's record. */
  predicate SnapshotTrue(call: Call, broker: map<Id, OrderSnapshot>) {
    HoldsSnapshot(call) ==>
      call.orderId in broker && (FinalStatus(call.snapshot.status) ==> broker[call.orderId] == call.snapshot)
  }

  predicate RefusalTrue(call: Call, refused: set<Id>) {
    call.SubmitAnswered? && call.answer.Refused? ==> call.orderId in refused
  }

  ghost predicate CallsTrue(calls: map<Id, Call>, broker: map<Id, OrderSnapshot>, refused: set<Id>) {
    forall c :: c in calls ==> SnapshotTrue(calls[c], broker) && RefusalTrue(calls[c], refused)
  }

  /** The broker knows only orders that were sent, and none it refused. */
  ghost predicate BrokerKnown(broker: map<Id, OrderSnapshot>, sent: seq<Id>, refused: set<Id>) {
    forall o :: o in broker ==> o in sent && o !in refused
  }

  ghost predicate Truthful(s: System) {
    && RowsTrue(s.db.orders, s.broker, s.refused)
    && CallsTrue(s.calls, s.broker, s.refused)
    && BrokerKnown(s.broker, s.sent, s.refused)
  }

  // ----- how rows move

  /** A row that kept what it says about the broker, or says nothing final. */
  predicate RowQuiet(before: Order, after: Order) {
    !Terminal(after.state) ||
    (after.state == before.state && after.facts == before.facts && after.brokerStatus == before.brokerStatus)
  }

  ghost predicate RowsQuiet(before: map<Id, Order>, after: map<Id, Order>) {
    forall o :: o in after ==> if o in before then RowQuiet(before[o], after[o]) else !Terminal(after[o].state)
  }

  lemma QuietRowsTrue(before: map<Id, Order>, after: map<Id, Order>, broker: map<Id, OrderSnapshot>, refused: set<Id>,
                      more: set<Id>)
    requires RowsTrue(before, broker, refused) && RowsQuiet(before, after) && refused <= more
    ensures RowsTrue(after, broker, more)
  {
  }

  lemma BeginQuiet(db: Db, user: string, pid: Id, input: SubmitInput, now: Time)
    ensures RowsQuiet(db.orders, After(db, BeginSubmission(db, user, pid, input, now)).orders)
  {
  }

  lemma ActQuiet(db: Db, user: string, actionType: ActionType, target: Id, input: ConfirmInput, now: Time)
    ensures RowsQuiet(db.orders, After(db, BeginAction(db, user, actionType, target, input, now)).orders)
  {
  }

  /** Transactions other than recording an answer or a snapshot say nothing final about an order. */
  lemma TxnQuiet(db: Db, txn: Txn)
    requires Sound(db) && !txn.SetOrder? && !txn.Reconcile?
    ensures RowsQuiet(db.orders, Apply(db, txn).orders)
  {
    hide Sound, BeginSubmission, BeginAction, ReplaceOpenPositions, SetOrderState, ReconcileOrder, MarkAction,
         InsertProposal, RejectProposal, CreateConnection, MarkConnection, SaveAccountSnapshot, SwitchContext,
         RevokeConnection, CreateReview, CreateActionReview;
    match txn
    case Begin(user, pid, input, now) => BeginQuiet(db, user, pid, input, now);
    case Act(user, actionType, target, confirm, now) => ActQuiet(db, user, actionType, target, confirm, now);
    case Replace(user, conn, environment, snapshots, now) => ReplaceLeaves(db, user, conn, environment, snapshots, now);
    case SetAction(_, _, _, _, _) => SetActionLeaves(db, txn);
    case _ => AccountsLeaveTrading(db, txn);
  }

  // ----- how calls move

  /** The call carries a broker answer or snapshot that a later write relies on. */
  predicate Carries(call: Call) {
    HoldsSnapshot(call) || (call.SubmitAnswered? && call.answer.Refused?)
  }

  ghost predicate CallsQuiet(before: map<Id, Call>, after: map<Id, Call>) {
    forall c :: c in after && Carries(after[c]) ==> c in before && before[c] == after[c]
  }

  /** The steps that bring news from the broker, or take them to it. */
  predicate BringsNews(e: Step) {
    e.FetchOrder? || e.PollOrder? || e.RefuseLeverage? || e.AnswerOrder? || e.BrokerMoves?
  }

  /** One turn that brings no news leaves no call that carries any. */
  lemma CallQuiet(before: Option<Call>, e: Step, after: Option<Call>)
    requires Turns(before, e, after) && !BringsNews(e) && after.Some?
    ensures !Carries(after.value)
  {
  }

  lemma TurnQuiet(before: map<Id, Call>, e: Step, after: map<Id, Call>)
    requires OneTurn(before, e, after) && !BringsNews(e)
    ensures CallsQuiet(before, after)
  {
    hide Turns, Carries, BringsNews;
    forall c | c in after && Carries(after[c]) ensures c in before && before[c] == after[c] {
      assert At(after, c) == Some(after[c]);
      if At(before, c) != At(after, c) { CallQuiet(At(before, c), e, At(after, c)); }
    }
  }

  lemma StepsQuiet(s: System, e: Step)
    requires !BringsNews(e)
    ensures CallsQuiet(s.calls, Moved(s, e).calls) && Moved(s, e).broker == s.broker && Moved(s, e).refused == s.refused
  {
    hide CallsQuiet, Moved, OneTurn;
    StepTurns(s, e);
    TurnQuiet(s.calls, e, Moved(s, e).calls);
  }

  lemma QuietCallsTrue(before: map<Id, Call>, after: map<Id, Call>, broker: map<Id, OrderSnapshot>, refused: set<Id>)
    requires CallsTrue(before, broker, refused) && CallsQuiet(before, after)
    ensures CallsTrue(after, broker, refused)
  {
  }

  // ----- the steps that matter

  lemma ReconcileTrue(db: Db, broker: map<Id, OrderSnapshot>, refused: set<Id>, call: Call, now: Time)
    requires RowsTrue(db.orders, broker, refused) && HoldsSnapshot(call) && SnapshotTrue(call, broker)
    ensures RowsTrue(After(db, ReconcileOrder(db, call.orderId, call.snapshot, MapOrderState(call.snapshot.status),
                                              now)).orders, broker, refused)
  {
    hide MapOrderState;
  }

  lemma RecordTrue(db: Db, broker: map<Id, OrderSnapshot>, refused: set<Id>, call: Call, now: Time)
    requires RowsTrue(db.orders, broker, refused) && call.SubmitAnswered? && RefusalTrue(call, refused)
    ensures RowsTrue(Apply(db, RecordTxn(call.orderId, call.answer, now)).orders, broker, refused)
  {
    RecordShape(call, now);
    var txn := RecordTxn(call.orderId, call.answer, now);
    hide RecordTxn, FinalStatus, RowsTrue;
    SetOrderTrue(db, broker, refused, txn);
  }

  /** Recording an answer says rejected only for a definite refusal, and never filled or cancelled. */
  lemma RecordShape(call: Call, now: Time)
    requires call.SubmitAnswered?
    ensures var txn := RecordTxn(call.orderId, call.answer, now);
            && txn.SetOrder? && txn.orderId == call.orderId
            && (Terminal(txn.state) ==> txn.state == OrderState.Rejected && call.answer.Refused?)
  {
    hide Clip;
  }

  lemma SetOrderTrue(db: Db, broker: map<Id, OrderSnapshot>, refused: set<Id>, txn: Txn)
    requires RowsTrue(db.orders, broker, refused) && txn.SetOrder?
    requires Terminal(txn.state) ==> txn.state == OrderState.Rejected && txn.orderId in refused
    ensures RowsTrue(Apply(db, txn).orders, broker, refused)
  {
    hide FinalStatus;
  }

  /** New snapshots repeat the broker's record at the moment they are taken. */
  lemma NewsTrue(s: System, e: Step)
    requires e.FetchOrder? || e.PollOrder?
    requires CallsTrue(s.calls, s.broker, s.refused)
    ensures CallsTrue(Moved(s, e).calls, s.broker, s.refused)
    ensures Moved(s, e).broker == s.broker && Moved(s, e).refused == s.refused
  {
    hide MovedSubmission, MovedPositions, MovedAction, MovedAlone;
    hide FinalStatus;
  }

  // ----- every step

  lemma KnownKept(s: System, e: Step)
    requires BrokerKnown(s.broker, s.sent, s.refused) && !BringsNews(e)
    ensures BrokerKnown(s.broker, Next(s, e).sent, s.refused)
  {
    if !e.BeginOrder? && !e.SendOrder? {
      StepsContinue(s, e);
    } else {
      hide BeginSubmission, Apply;
    }
  }

  lemma WritesTrue(s: System, e: Step)
    requires Sound(s.db) && Truthful(s) && (e.WriteOrder? || e.RecordOrder?)
    ensures RowsTrue(Next(s, e).db.orders, s.broker, s.refused)
  {
    hide Sound, RowsTrue, BrokerKnown, Moved, FinalStatus, MapOrderState, RecordTxn;
    if e.c in s.calls {
      assert SnapshotTrue(s.calls[e.c], s.broker) && RefusalTrue(s.calls[e.c], s.refused);
      hide CallsTrue;
      if e.WriteOrder? && HoldsSnapshot(s.calls[e.c]) { ReconcileTrue(s.db, s.broker, s.refused, s.calls[e.c], e.now); }
      if e.RecordOrder? && s.calls[e.c].SubmitAnswered? { RecordTrue(s.db, s.broker, s.refused, s.calls[e.c], e.now); }
    }
  }

  lemma QuietStepTrue(s: System, e: Step)
    requires Sound(s.db) && Truthful(s) && !BringsNews(e)
    ensures Truthful(Next(s, e))
  {
    StepsQuiet(s, e);
    KnownKept(s, e);
    if e.WriteOrder? || e.RecordOrder? {
      WritesTrue(s, e);
    } else {
      OtherRowsQuiet(s, e);
    }
    hide Sound, Apply, Moved, RowsTrue, CallsTrue, BrokerKnown, RowsQuiet, CallsQuiet, TxnOf;
    QuietCallsTrue(s.calls, Next(s, e).calls, s.broker, s.refused);
    if !e.WriteOrder? && !e.RecordOrder? {
      QuietRowsTrue(s.db.orders, Next(s, e).db.orders, s.broker, s.refused, s.refused);
    }
  }

  lemma OtherRowsQuiet(s: System, e: Step)
    requires Sound(s.db) && !e.WriteOrder? && !e.RecordOrder?
    ensures RowsQuiet(s.db.orders, Next(s, e).db.orders)
  {
    hide Sound, Apply, RowsQuiet, Moved;
    assert !TxnOf(s, e).SetOrder? && !TxnOf(s, e).Reconcile?;
    TxnQuiet(s.db, TxnOf(s, e));
  }

  lemma RefusalStepTrue(s: System, e: Step)
    requires Truthful(s) && BegunUnsent(s.calls, s.sent) && (e.RefuseLeverage? || e.AnswerOrder?)
    ensures Truthful(Next(s, e))
  {
  }

  lemma SnapshotStepTrue(s: System, e: Step)
    requires Truthful(s) && (e.FetchOrder? || e.PollOrder?)
    ensures Truthful(Next(s, e))
  {
    NewsRunsNothing(s, e);
    NewsTrue(s, e);
    hide RowsTrue, CallsTrue, BrokerKnown, FinalStatus, Apply;
    assert Next(s, e).sent == s.sent && Next(s, e).db == s.db;
  }

  lemma BrokerStepTrue(s: System, linkId: Id, snapshot: OrderSnapshot)
    requires Truthful(s)
    ensures Truthful(Next(s, BrokerMoves(linkId, snapshot)))
  {
  }

  lemma NewsRunsNothing(s: System, e: Step)
    requires BringsNews(e)
    ensures Next(s, e) == Moved(s, e) && Moved(s, e).db == s.db
  {
    hide FinalStatus;
  }

  /** No step makes a row contradict the broker. */
  lemma StepTruthful(s: System, e: Step)
    requires Sound(s.db) && BegunUnsent(s.calls, s.sent) && Truthful(s)
    ensures Truthful(Next(s, e))
  {
    hide Sound, BegunUnsent, Truthful, Next;
    match e
    case BrokerMoves(linkId, snapshot) => BrokerStepTrue(s, linkId, snapshot);
    case FetchOrder(_) => SnapshotStepTrue(s, e);
    case PollOrder(_, _, _) => SnapshotStepTrue(s, e);
    case RefuseLeverage(_, _) => RefusalStepTrue(s, e);
    case AnswerOrder(_, _) => RefusalStepTrue(s, e);
    case _ => QuietStepTrue(s, e);
  }

  /**
   In every run, a row that says filled, cancelled or rejected repeats the broker's final record, executed
   quantity included, or says rejected of an order the broker definitely refused; and every other row is
   still polled.
   */
  lemma {:induction false} AlwaysTruthful(steps: seq<Step>)
    ensures Truthful(Run(Initial, steps))
  {
    hide Next, Sound, Placing, Truthful;
    if |steps| > 0 {
      AlwaysTruthful(steps[..|steps| - 1]);
      AlwaysPlacing(steps[..|steps| - 1]);
      var before := Run(Initial, steps[..|steps| - 1]);
      assert BegunUnsent(before.calls, before.sent) by { PlacingUnsent(before); }
      StepTruthful(before, steps[|steps| - 1]);
    } else {
      InitiallyTruthful();
    }
  }

  lemma InitiallyTruthful()
    ensures Truthful(Initial)
  {
  }

  lemma PlacingUnsent(s: System)
    requires Placing(s.calls, s.sent, s.db.orders)
    ensures BegunUnsent(s.calls, s.sent)
  {
  }

  /** The form a reader of one order row wants. */
  lemma TerminalMeansFinal(steps: seq<Step>, o: Id)
    requires o in Run(Initial, steps).db.orders
    ensures var s := Run(Initial, steps);
            var order := s.db.orders[o];
            if Terminal(order.state)
            then FromBroker(order, o, s.broker) ||
              (order.state == OrderState.Rejected && o in s.refused && o !in s.broker)
            else Reconcilable(order.state)
  {
    AlwaysTruthful(steps);
    var s := Run(Initial, steps);
    hide Run, FinalStatus;
    assert RowTrue(s.db.orders[o], o, s.broker, s.refused);
  }
}
