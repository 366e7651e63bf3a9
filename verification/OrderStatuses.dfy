/**
 What the states of order rows mean, in the status strings of the broker: what each step writes to a row, what a
 state says about the broker in every run, which state a final record settles to, and which records are final.
 */
module OrderStatuses {
  import opened Common
  import opened ExecutionDomain
  import opened Transactions
  import opened Ledger
  import opened History
  import opened Interleaving
  import opened CallMoves
  import opened Submissions
  import opened BrokerTruth
  import opened Settling
  import opened Entries

  /** The statuses that say each state; any other status asks for another poll. */
  predicate Says(status: string, state: OrderState) {
    match state
    case Filled => status == "Filled"
    case Cancelled => status == "Cancelled" || status == "PartiallyFilledCanceled" || status == "Deactivated"
    case Rejected => status == "Rejected"
    case PartiallyFilled => status == "PartiallyFilled"
    case Acknowledged => status == "Created" || status == "New" || status == "Untriggered" || status == "Triggered"
    case ReconciliationRequired =>
      status !in ["Filled", "Cancelled", "PartiallyFilledCanceled", "Deactivated", "Rejected", "PartiallyFilled",
                  "Created", "New", "Untriggered", "Triggered"]
    case _ => false
  }

  /** The statuses the broker never leaves. */
  predicate Final(status: string) {
    status == "Filled" || status == "Cancelled" || status == "PartiallyFilledCanceled" || status == "Deactivated" ||
    status == "Rejected"
  }

  lemma SaysIff(status: string, state: OrderState)
    ensures Says(status, state) <==> MapOrderState(status) == state
    ensures Final(status) <==> FinalStatus(status)
  {
  }

  // ----- what one step writes to one row

  /** The first hundred characters of an error code. */
  predicate Shortened(code: string, full: string) {
    |code| <= 100 && code <= full && (code == full || |code| == 100)
  }

  /** Recording the answer of `place_order`. */
  predicate Recorded(before: Order, after: Order, o: Id, answer: PlaceAnswer, now: Time) {
    && after == before.(state := after.state, brokerOrderId := after.brokerOrderId, errorCode := after.errorCode,
                        updatedAt := now)
    && match answer
       case Refused(code) =>
         && after.state == OrderState.Rejected && after.brokerOrderId == before.brokerOrderId
         && after.errorCode.Some? && Shortened(after.errorCode.value, "bybit_" + code)
       case Lost =>
         && after.state == OrderState.SubmissionUnknown && after.brokerOrderId == before.brokerOrderId
         && after.errorCode == Some("bybit_transport_unknown")
       case Accepted(orderId, linkId) =>
         if linkId == o
         then after.state == OrderState.Acknowledged && after.brokerOrderId == Some(orderId) && after.errorCode == None
         else after.state == OrderState.SubmissionUnknown && after.brokerOrderId == before.brokerOrderId &&
              after.errorCode == Some("bybit_order_link_mismatch")
  }

  /** Writing a snapshot: the row repeats it, in the state its status says. */
  predicate Wrote(before: Order, after: Order, snapshot: OrderSnapshot, now: Time) {
    && after == before.(state := after.state, brokerOrderId := Some(snapshot.orderId), facts := snapshot.facts,
                        brokerStatus := Some(snapshot.status), lastReconciledAt := Some(now), updatedAt := now)
    && Says(snapshot.status, after.state)
  }

  predicate Records(s: System, e: Step, o: Id) {
    e.RecordOrder? && e.c in s.calls && s.calls[e.c].SubmitAnswered? && s.calls[e.c].orderId == o
  }

  predicate Writes(s: System, e: Step, o: Id) {
    e.WriteOrder? && e.c in s.calls && HoldsSnapshot(s.calls[e.c]) && s.calls[e.c].orderId == o
  }

  /** The transaction begins an accepted cancel of the order. */
  ghost predicate Cancels(db: Db, txn: Txn, o: Id) {
    txn.Act? && txn.actionType == ActionType.CancelOrder && txn.target == o &&
    MayAct(db, txn.user, ActionType.CancelOrder, o, txn.confirm, txn.now)
  }

  predicate MarkedCancelling(before: Order, after: Order, txn: Txn) {
    txn.Act? && after == before.(state := OrderState.Cancelling, updatedAt := txn.now)
  }

  /** One step as seen by one order. */
  ghost predicate RowStep(s: System, e: Step, o: Id, before: Order, after: Order) {
    if Records(s, e, o) then Recorded(before, after, o, s.calls[e.c].answer, e.now)
    else if Writes(s, e, o) then Wrote(before, after, s.calls[e.c].snapshot, e.now)
    else if Cancels(s.db, TxnOf(s, e), o) then MarkedCancelling(before, after, TxnOf(s, e))
    else after == before
  }

  lemma AnswerWritten(db: Db, o: Id, answer: PlaceAnswer, now: Time)
    requires o in db.orders
    ensures var txn := RecordTxn(o, answer, now);
            && txn.SetOrder?
            && var after := After(db, SetOrderState(db, o, txn.state, txn.brokerOrderId, txn.errorCode,
                                                    txn.now)).orders;
               o in after && Recorded(db.orders[o], after[o], o, answer, now)
  {
  }

  lemma SnapshotWritten(db: Db, o: Id, snapshot: OrderSnapshot, now: Time)
    requires o in db.orders
    ensures var after := After(db, ReconcileOrder(db, o, snapshot, MapOrderState(snapshot.status), now)).orders;
            o in after && Wrote(db.orders[o], after[o], snapshot, now)
  {
    SaysIff(snapshot.status, MapOrderState(snapshot.status));
    hide MapOrderState, Says;
  }

  lemma SetOrderIs(db: Db, txn: Txn)
    requires txn.SetOrder?
    ensures Apply(db, txn) ==
            After(db, SetOrderState(db, txn.orderId, txn.state, txn.brokerOrderId, txn.errorCode, txn.now))
  {
    hide SetOrderState;
  }

  lemma ReconcileIs(db: Db, txn: Txn)
    requires txn.Reconcile?
    ensures Apply(db, txn) == After(db, ReconcileOrder(db, txn.orderId, txn.snapshot, txn.state, txn.now))
  {
    hide ReconcileOrder;
  }

  /** Beginning an action leaves the row of an order, or marks it as being cancelled. */
  lemma ActOnOrder(db: Db, txn: Txn, o: Id)
    requires Sound(db) && txn.Act? && o in db.orders
    ensures o in Apply(db, txn).orders
    ensures Apply(db, txn).orders[o] ==
            if Cancels(db, txn, o) then db.orders[o].(state := OrderState.Cancelling, updatedAt := txn.now)
            else db.orders[o]
  {
    ActIs(db, txn);
    ActionEntersIff(db, txn.user, txn.actionType, txn.target, txn.confirm, txn.now);
    hide Sound, Apply, MayAct, BeginAction, ActsOnReview;
  }

  /**
   What any step does to the row of any order: it records an answer, writes a snapshot, begins an accepted
   cancel, or leaves the row as it is.
   */
  lemma StepOnOrder(s: System, e: Step, o: Id)
    requires Sound(s.db) && o in s.db.orders
    ensures o in Next(s, e).db.orders
    ensures RowStep(s, e, o, s.db.orders[o], Next(s, e).db.orders[o])
  {
    hide Sound, Apply, Moved, Recorded, Wrote, Cancels, RecordTxn, SetOrderState, ReconcileOrder, MapOrderState;
    RewritesOnly(s, e, o);
    var txn := TxnOf(s, e);
    if Records(s, e, o) {
      SetOrderIs(s.db, txn);
      AnswerWritten(s.db, o, s.calls[e.c].answer, e.now);
    } else if Writes(s, e, o) {
      ReconcileIs(s.db, txn);
      SnapshotWritten(s.db, o, s.calls[e.c].snapshot, e.now);
    } else {
      hide TxnOf;
      if txn.Act? {
        ActOnOrder(s.db, txn, o);
      } else {
        RowLeft(s.db, txn, o);
        NoCancel(s.db, txn, o);
      }
    }
  }

  lemma NoCancel(db: Db, txn: Txn, o: Id)
    requires !txn.Act?
    ensures !Cancels(db, txn, o)
  {
  }

  /** Which transaction a step that rewrites a row runs. */
  lemma RewritesOnly(s: System, e: Step, o: Id)
    ensures Records(s, e, o) ==> TxnOf(s, e) == RecordTxn(o, s.calls[e.c].answer, e.now) && TxnOf(s, e).SetOrder? &&
                                 TxnOf(s, e).orderId == o
    ensures Writes(s, e, o) ==>
              TxnOf(s, e) == Reconcile(o, s.calls[e.c].snapshot, MapOrderState(s.calls[e.c].snapshot.status), e.now)
    ensures !Records(s, e, o) && !Writes(s, e, o) && !TxnOf(s, e).Act? ==> !Rewrites(TxnOf(s, e), o)
  {
    if e.Account? { AccountTxnKind(s, e.c, e.act); }
    hide AccountTxn, MapOrderState, Clip;
  }

  // ----- what a state says, in every run

  /** The row's state is what its broker status says, where a snapshot alone can have written it. */
  predicate Reads(order: Order) {
    match order.state
    case Submitting => order.brokerStatus == None
    case Filled => order.brokerStatus.Some? && Says(order.brokerStatus.value, OrderState.Filled)
    case Cancelled => order.brokerStatus.Some? && Says(order.brokerStatus.value, OrderState.Cancelled)
    case PartiallyFilled => order.brokerStatus.Some? && Says(order.brokerStatus.value, OrderState.PartiallyFilled)
    case ReconciliationRequired =>
      order.brokerStatus.Some? && Says(order.brokerStatus.value, OrderState.ReconciliationRequired)
    case _ => true
  }

  ghost predicate AllRead(orders: map<Id, Order>) {
    forall o :: o in orders ==> Reads(orders[o])
  }

  lemma RowReads(before: Order, after: Order, o: Id, answer: PlaceAnswer, snapshot: OrderSnapshot, txn: Txn, now: Time)
    requires Reads(before)
    ensures Recorded(before, after, o, answer, now) ==> Reads(after)
    ensures Wrote(before, after, snapshot, now) ==> Reads(after)
    ensures MarkedCancelling(before, after, txn) ==> Reads(after)
  {
    hide Shortened;
  }

  lemma StepReads(s: System, e: Step)
    requires Sound(s.db) && AllRead(s.db.orders)
    ensures AllRead(Next(s, e).db.orders)
  {
    hide Sound, Next, Reads, RowStep;
    forall o | o in Next(s, e).db.orders ensures Reads(Next(s, e).db.orders[o]) {
      if o in s.db.orders {
        StepOnOrder(s, e, o);
        RowStepReads(s, e, o, s.db.orders[o], Next(s, e).db.orders[o]);
      } else {
        NewRowReads(s, e, o);
      }
    }
  }

  lemma RowStepReads(s: System, e: Step, o: Id, before: Order, after: Order)
    requires RowStep(s, e, o, before, after) && Reads(before)
    ensures Reads(after)
  {
    hide Reads, Recorded, Wrote, MarkedCancelling, Cancels, TxnOf;
    var nothing := OrderSnapshot("", "", before.facts);
    if Records(s, e, o) {
      RowReads(before, after, o, s.calls[e.c].answer, nothing, Nothing, e.now);
    } else if Writes(s, e, o) {
      RowReads(before, after, o, Lost, s.calls[e.c].snapshot, Nothing, e.now);
    } else {
      RowReads(before, after, o, Lost, nothing, TxnOf(s, e), 0);
    }
  }

  lemma NewRowReads(s: System, e: Step, o: Id)
    requires Sound(s.db) && o !in s.db.orders && o in Next(s, e).db.orders
    ensures Reads(Next(s, e).db.orders[o])
  {
    hide Sound, Apply, Moved, MaySubmit, TxnOf;
    InsertsOrderIff(s.db, TxnOf(s, e), o);
  }

  lemma {:induction false} AlwaysRead(steps: seq<Step>)
    ensures AllRead(Run(Initial, steps).db.orders)
  {
    hide Next, Sound, Placing, AllRead;
    if |steps| > 0 {
      AlwaysRead(steps[..|steps| - 1]);
      AlwaysPlacing(steps[..|steps| - 1]);
      StepReads(Run(Initial, steps[..|steps| - 1]), steps[|steps| - 1]);
    } else {
      NoneRead();
    }
  }

  lemma NoneRead()
    ensures AllRead(Initial.db.orders)
  {
  }

  /** The broker's record of the order has this status, and the row repeats it. */
  predicate Repeats(order: Order, o: Id, broker: map<Id, OrderSnapshot>) {
    o in broker && order.brokerStatus == Some(broker[o].status) && order.facts == broker[o].facts
  }

  /**
   In every run: a filled row repeats a record that is Filled, a cancelled row one that is Cancelled,
   PartiallyFilledCanceled or Deactivated, a rejected row one that is Rejected unless the broker refused the order;
   a partially filled row was last told PartiallyFilled, one that asks for another poll an unlisted status, and one
   still submitting nothing.
   */
  lemma StatesSay(steps: seq<Step>, o: Id)
    requires o in Run(Initial, steps).db.orders
    ensures var s := Run(Initial, steps);
            var order := s.db.orders[o];
            match order.state
            case Filled => Repeats(order, o, s.broker) && s.broker[o].status == "Filled"
            case Cancelled =>
              Repeats(order, o, s.broker) &&
                (s.broker[o].status == "Cancelled" || s.broker[o].status == "PartiallyFilledCanceled" ||
                 s.broker[o].status == "Deactivated")
            case Rejected =>
              || (Repeats(order, o, s.broker) && s.broker[o].status == "Rejected")
              || (o in s.refused && o !in s.broker)
            case Submitting => order.brokerStatus == None
            case PartiallyFilled => order.brokerStatus == Some("PartiallyFilled")
            case ReconciliationRequired =>
              order.brokerStatus.Some? && Says(order.brokerStatus.value, OrderState.ReconciliationRequired)
            case _ => true
  {
    AlwaysRead(steps);
    TerminalMeansFinal(steps, o);
    var s := Run(Initial, steps);
    hide Run;
    var order := s.db.orders[o];
    assert Reads(order);
    if order.state.Rejected? && o in s.broker { SaysIff(s.broker[o].status, OrderState.Rejected); }
    hide MapOrderState, FinalStatus;
  }

  // ----- which records are final

  /** The broker may change its record of an order it was sent exactly when the status is not final. */
  lemma BrokerMovesIff(s: System, o: Id, snapshot: OrderSnapshot)
    requires o in s.broker && o in s.sent && o !in s.refused
    ensures Next(s, BrokerMoves(o, snapshot)).broker ==
            if Final(s.broker[o].status) then s.broker else s.broker[o := snapshot]
  {
    SaysIff(s.broker[o].status, OrderState.Filled);
    hide FinalStatus, Apply;
  }

  lemma StepKeepsFinal(s: System, e: Step, o: Id)
    requires o in s.broker && Final(s.broker[o].status)
    ensures o in Next(s, e).broker && Next(s, e).broker[o] == s.broker[o]
  {
    SaysIff(s.broker[o].status, OrderState.Filled);
    NextParts(s, e);
    hide Next, Moved, FinalStatus, Final, Apply, OneTurn;
    if e.BrokerMoves? {
      BrokerAlone(s, e);
    } else {
      StepTurns(s, e);
    }
  }

  lemma BrokerAlone(s: System, e: Step)
    requires e.BrokerMoves?
    ensures Moved(s, e).broker == if MayMoveBroker(s, e.linkId) then s.broker[e.linkId := e.snapshot] else s.broker
  {
  }

  lemma {:induction false} FinalStays(s: System, more: seq<Step>, o: Id)
    requires o in s.broker && Final(s.broker[o].status)
    ensures o in Run(s, more).broker && Run(s, more).broker[o] == s.broker[o]
  {
    hide Next, Final;
    if |more| > 0 {
      FinalStays(s, more[..|more| - 1], o);
      StepKeepsFinal(Run(s, more[..|more| - 1]), more[|more| - 1], o);
    }
  }

  /** In every run the record of an order stays what it is in all continuations if and only if its status is final. */
  lemma RecordStaysIff(steps: seq<Step>, o: Id)
    requires o in Run(Initial, steps).broker
    ensures var s := Run(Initial, steps);
            Final(s.broker[o].status) <==>
            forall more: seq<Step> :: o in Run(s, more).broker && Run(s, more).broker[o] == s.broker[o]
  {
    var s := Run(Initial, steps);
    AlwaysTruthful(steps);
    assert o in s.sent && o !in s.refused by { KnownRecord(s, o); }
    hide Truthful, Final, Next;
    if Final(s.broker[o].status) {
      forall more: seq<Step> ensures o in Run(s, more).broker && Run(s, more).broker[o] == s.broker[o] {
        FinalStays(s, more, o);
      }
    } else {
      var other := s.broker[o].(orderId := s.broker[o].orderId + "!");
      BrokerMovesIff(s, o, other);
      RunOne(s, BrokerMoves(o, other));
      assert other != s.broker[o] by { assert |other.orderId| == |s.broker[o].orderId| + 1; }
      assert Run(s, [BrokerMoves(o, other)]).broker[o] != s.broker[o];
    }
  }

  lemma KnownRecord(s: System, o: Id)
    requires Truthful(s) && o in s.broker
    ensures o in s.sent && o !in s.refused
  {
  }

  // ----- what a final record settles to

  /**
   From every reachable system in which the broker's record of an order is final and the calls that could write
   something else have drained, one poll in any interleaving, and then anything at all, leaves the row filled,
   cancelled or rejected exactly as the final status says, with the broker's quantities.
   */
  lemma FinalSettles(steps: seq<Step>, c: Id, o: Id, byWorker: bool, between: seq<Step>, now: Time, more: seq<Step>)
    requires PollSurvives(between, c)
    ensures var s := Run(Initial, steps);
            o in s.db.orders && o in s.broker && Final(s.broker[o].status) && Drained(s, o) && c !in s.calls ==>
            var after := Run(Run(s, PollAround(c, o, byWorker, between, now)), more).db.orders;
            && o in after && Says(s.broker[o].status, after[o].state)
            && (after[o].state == OrderState.Filled || after[o].state == OrderState.Cancelled ||
                after[o].state == OrderState.Rejected)
            && after[o].brokerStatus == Some(s.broker[o].status) && after[o].facts == s.broker[o].facts
  {
    hide Next, Drained, PollAround, PollSurvives, Run, Says;
    var s := Run(Initial, steps);
    if o in s.db.orders && o in s.broker && Final(s.broker[o].status) && Drained(s, o) && c !in s.calls {
      SaysIff(s.broker[o].status, OrderState.Filled);
      EveryOrderConverges(steps, c, o, byWorker, between, now, more);
      var settled := Run(s, PollAround(c, o, byWorker, between, now));
      RunJoins(s, PollAround(c, o, byWorker, between, now), more);
      FinalStays(s, PollAround(c, o, byWorker, between, now) + more, o);
      SettledRow(Run(settled, more), o, s.broker[o]);
    }
  }

  lemma SettledRow(s: System, o: Id, record: OrderSnapshot)
    requires Settled(s, o) && o in s.broker && s.broker[o] == record
    ensures o in s.db.orders
    ensures var order := s.db.orders[o];
            && Says(record.status, order.state)
            && (order.state == OrderState.Filled || order.state == OrderState.Cancelled ||
                order.state == OrderState.Rejected)
            && order.brokerStatus == Some(record.status) && order.facts == record.facts
  {
    assert FromBroker(s.db.orders[o], o, s.broker);
    SaysIff(record.status, s.db.orders[o].state);
    hide MapOrderState, Says, Drained;
  }
}
