/**
 When an order row leaves a terminal state again. It can: a late answer, a stale snapshot or a new cancel
 may be written after reconciliation closed the row. Nothing else reopens one.
 */
module Reopening {
  import opened Common
  import opened ExecutionDomain
  import opened Transactions
  import opened Ledger
  import opened Interleaving
  import opened CallMoves
  import opened Settling
  import opened ExampleRuns

  /** A new cancel of the order is accepted: its target is owned, its key unused, and no check refuses it. */
  ghost predicate CancelAccepted(db: Db, txn: Txn, o: Id) {
    && txn.Act? && txn.actionType == ActionType.CancelOrder && txn.target == o
    && OwnsTarget(db, txn.user, txn.actionType, o)
    && !ActionKeyTaken(db, txn.user, txn.confirm.idempotencyKey)
    && ActionRefusal(db, txn.user, txn.actionType, o, txn.confirm, txn.now).None?
  }

  /** The three steps that reopen a closed row. */
  ghost predicate Reopens(s: System, e: Step, o: Id) {
    match e
    case RecordOrder(c, _) =>
      c in s.calls && s.calls[c].SubmitAnswered? && s.calls[c].orderId == o && !s.calls[c].answer.Refused?
    case WriteOrder(c, _) =>
      c in s.calls && HoldsSnapshot(s.calls[c]) && s.calls[c].orderId == o && !FinalStatus(s.calls[c].snapshot.status)
    case StartAction(c, now) =>
      c in s.calls && ReadyToAct(s.calls[c]) && CancelAccepted(s.db, ActTxn(s.calls[c], now), o)
    case _ => false
  }

  lemma MarkedOrder(db: Db, orderId: Id, state: OrderState, brokerOrderId: Option<string>, errorCode: Option<string>,
                    now: Time, o: Id)
    requires o in db.orders
    ensures var after := After(db, SetOrderState(db, orderId, state, brokerOrderId, errorCode, now)).orders;
            o in after && after[o].state == if orderId == o then state else db.orders[o].state
  {
  }

  lemma MarkedRow(db: Db, txn: Txn, o: Id)
    requires txn.SetOrder? && o in db.orders
    ensures var after := Apply(db, txn).orders;
            o in after && after[o].state == if txn.orderId == o then txn.state else db.orders[o].state
  {
    MarkedOrder(db, txn.orderId, txn.state, txn.brokerOrderId, txn.errorCode, txn.now, o);
    hide SetOrderState;
  }

  lemma PolledRow(db: Db, txn: Txn, o: Id)
    requires txn.Reconcile? && o in db.orders
    ensures var after := Apply(db, txn).orders;
            o in after && after[o].state == if txn.orderId == o then txn.state else db.orders[o].state
  {
    hide BeginSubmission, BeginAction, ReplaceOpenPositions, SetOrderState, InsertProposal, RejectProposal,
         SwitchContext, RevokeConnection, SaveAccountSnapshot, MarkConnection, CreateConnection, CreateReview,
         CreateActionReview, MarkAction;
  }

  lemma RecordState(o: Id, answer: PlaceAnswer, now: Time)
    ensures var txn := RecordTxn(o, answer, now);
            txn.SetOrder? && txn.orderId == o && (Terminal(txn.state) <==> answer.Refused?)
  {
    hide Clip;
  }

  lemma RecordReopensIff(s: System, c: Id, now: Time, o: Id)
    requires o in s.db.orders && Terminal(s.db.orders[o].state)
    ensures var after := Apply(s.db, TxnOf(s, RecordOrder(c, now))).orders;
            o in after && (!Terminal(after[o].state) <==> Reopens(s, RecordOrder(c, now), o))
  {
    hide Apply, RecordTxn, CancelAccepted, FinalStatus;
    if c in s.calls && s.calls[c].SubmitAnswered? {
      RecordState(s.calls[c].orderId, s.calls[c].answer, now);
      MarkedRow(s.db, RecordTxn(s.calls[c].orderId, s.calls[c].answer, now), o);
    } else {
      NothingHappens(s.db);
    }
  }

  lemma WriteReopensIff(s: System, c: Id, now: Time, o: Id)
    requires o in s.db.orders && Terminal(s.db.orders[o].state)
    ensures var after := Apply(s.db, TxnOf(s, WriteOrder(c, now))).orders;
            o in after && (!Terminal(after[o].state) <==> Reopens(s, WriteOrder(c, now), o))
  {
    hide Apply, MapOrderState, CancelAccepted;
    if c in s.calls && HoldsSnapshot(s.calls[c]) {
      PolledRow(s.db, TxnOf(s, WriteOrder(c, now)), o);
    } else {
      NothingHappens(s.db);
    }
  }

  lemma CancelledRow(db: Db, txn: Txn, o: Id)
    requires Sound(db) && CancelAccepted(db, txn, o) && o in db.orders
    ensures var after := Apply(db, txn).orders; o in after && after[o].state == OrderState.Cancelling
  {
    ActInsertable(db, txn.user, txn.actionType, txn.target, txn.confirm, txn.now);
    hide Sound, ActionRefusal;
  }

  lemma UncancelledRow(db: Db, txn: Txn, o: Id)
    requires txn.Act? && !CancelAccepted(db, txn, o) && o in db.orders
    ensures var after := Apply(db, txn).orders; o in after && after[o].state == db.orders[o].state
  {
    hide ActionRefusal, ActionInsertable, OwnsTarget, ActionKeyTaken;
  }

  lemma ActReopensIff(db: Db, txn: Txn, o: Id)
    requires Sound(db) && txn.Act? && o in db.orders && Terminal(db.orders[o].state)
    ensures var after := Apply(db, txn).orders;
            o in after && (!Terminal(after[o].state) <==> CancelAccepted(db, txn, o))
  {
    hide Apply, Sound;
    if CancelAccepted(db, txn, o) { CancelledRow(db, txn, o); } else { UncancelledRow(db, txn, o); }
    hide CancelAccepted;
  }

  lemma StartTxn(s: System, c: Id, now: Time)
    ensures TxnOf(s, StartAction(c, now)) == if c in s.calls && ReadyToAct(s.calls[c]) then ActTxn(s.calls[c], now)
                                             else Nothing
    ensures c in s.calls && ReadyToAct(s.calls[c]) ==> ActTxn(s.calls[c], now).Act?
  {
  }

  lemma OthersRewriteNothing(s: System, e: Step, o: Id)
    requires !e.RecordOrder? && !e.WriteOrder? && !e.StartAction?
    ensures !Rewrites(TxnOf(s, e), o)
  {
  }

  /**
   At every step of every sound system: a row in a terminal state leaves it if and only if the step records an
   answer other than a refusal, writes a snapshot that is not final, or begins an accepted cancel of the order.
   */
  lemma ReopensIff(s: System, e: Step, o: Id)
    requires Sound(s.db) && o in s.db.orders && Terminal(s.db.orders[o].state)
    ensures o in Next(s, e).db.orders && (!Terminal(Next(s, e).db.orders[o].state) <==> Reopens(s, e, o))
  {
    NextParts(s, e);
    hide Next, Sound, Apply, TxnOf, ActTxn, CancelAccepted, FinalStatus, Rewrites, ReadyToAct, HoldsSnapshot;
    if e.RecordOrder? {
      RecordReopensIff(s, e.c, e.now, o);
    } else if e.WriteOrder? {
      WriteReopensIff(s, e.c, e.now, o);
    } else if e.StartAction? {
      StartTxn(s, e.c, e.now);
      if e.c in s.calls && ReadyToAct(s.calls[e.c]) {
        ActReopensIff(s.db, ActTxn(s.calls[e.c], e.now), o);
      } else {
        NothingHappens(s.db);
      }
    } else {
      OthersRewriteNothing(s, e, o);
      RowLeft(s.db, TxnOf(s, e), o);
    }
  }

  // ----- a run that does it

  const FACTS := OrderFacts(Linear, "BTCUSDT", Buy, OrderType.Limit, 1.0, 1.0, 0.0, Some(10.0))
  const FILL := OrderSnapshot("b", "Filled", FACTS)

  /** A submission that reaches the broker, and a fill that is polled before the acknowledgement is recorded. */
  const SUBMISSION := [WritePositions(0, 2), CheckPortfolio(0, [], true), BeginOrder(0, 2), SendOrder(0),
                       AnswerOrder(0, Accepted("b", 3)), BrokerMoves(3, FILL), PollOrder(1, 3, true), WriteOrder(1, 3)]

  const CHECKED := TRADING.(checkpoints := map[0 := 2])
  const READY := Initial.(db := CHECKED, calls := map[0 := SubmitReady("u", 1, INPUT)])

  lemma NothingToReplace()
    ensures ReplaceOpenPositions(TRADING, "u", 0, Mainnet, [], 2) == Ok((CHECKED, ()))
  {
    var closing := Vanished(TRADING.positions, 0, SeenKeys([]));
    assert closing == {};
    assert CloseRows(TRADING.positions, {}, 2) == map[];
    assert CompleteActions(TRADING.actions, ActionType.ClosePosition, {}, 2) == map[];
    assert ArchiveSymbols(TRADING.proposals, TRADING.positions, {}, 2) == TRADING.proposals;
  }

  lemma Written(s: System)
    requires s == Initial.(db := TRADING, calls := map[0 := SubmitFetched("u", 1, INPUT, OFFER, [], 2)])
    ensures Next(s, WritePositions(0, 2)) ==
            Initial.(db := CHECKED, calls := map[0 := SubmitWritten("u", 1, INPUT, OFFER)])
  {
    NothingToReplace();
    hide ReplaceOpenPositions;
  }

  lemma Checked(s: System)
    requires s == Initial.(db := CHECKED, calls := map[0 := SubmitWritten("u", 1, INPUT, OFFER)])
    ensures Next(s, CheckPortfolio(0, [], true)) == READY
  {
    NothingHappens(s.db);
    assert RowsRead(s.db.positions, []) == [];
    assert Fingerprints.Fingerprint([]) == [];
    hide Apply;
  }

  /** The order is inserted, and its call is about to send it. */
  lemma Begun(s: System)
    requires s == READY
    ensures var after := Next(s, BeginOrder(0, 2));
            && 3 in after.db.orders && after.db.orders[3].state == OrderState.Submitting
            && after.calls.Keys == {0} && after.calls[0].SubmitBegun? && after.calls[0].orderId == 3
            && after.broker == map[] && after.sent == [] && after.refused == {}
  {
    Accepts();
    hide BeginSubmission, SubmissionBegun;
  }

  lemma Accepts()
    ensures var db := SubmissionBegun(CHECKED, "u", 1, INPUT, 2);
            && 3 in db.orders && db.orders[3].state == OrderState.Submitting
            && BeginSubmission(CHECKED, "u", 1, INPUT, 2) ==
               Ok((db, SubmissionStart(3, WithStatus(CHECKED.proposals[1], ProposalStatus.Submitted, 2).payload, true)))
  {
    assert CHECKED.orders.Keys == {};
    assert SubmissionRefusal(CHECKED, "u", 1, INPUT, 2).None?;
    hide SubmissionRefusal;
  }

  /** The row of order 3 is in this state, and these are the calls, the broker's record and what was sent. */
  predicate At(s: System, state: OrderState, calls: map<Id, Call>, broker: map<Id, OrderSnapshot>) {
    3 in s.db.orders && s.db.orders[3].state == state && s.calls == calls && s.broker == broker && s.sent == [3] &&
      s.refused == {}
  }

  const ACKNOWLEDGING: Call := SubmitAnswered(3, Accepted("b", 3))

  lemma Sent(s: System)
    requires 3 in s.db.orders && s.db.orders[3].state == OrderState.Submitting
    requires s.calls.Keys == {0} && s.calls[0].SubmitBegun? && s.calls[0].orderId == 3
    requires s.broker == map[] && s.sent == [] && s.refused == {}
    ensures At(Next(s, SendOrder(0)), OrderState.Submitting, map[0 := SubmitSent(3)], map[])
  {
    NothingHappens(s.db);
    hide Apply;
  }

  lemma Answered(s: System)
    requires At(s, OrderState.Submitting, map[0 := SubmitSent(3)], map[])
    ensures At(Next(s, AnswerOrder(0, Accepted("b", 3))), OrderState.Submitting, map[0 := ACKNOWLEDGING], map[])
  {
    NothingHappens(s.db);
    hide Apply;
  }

  lemma Fills(s: System)
    requires At(s, OrderState.Submitting, map[0 := ACKNOWLEDGING], map[])
    ensures At(Next(s, BrokerMoves(3, FILL)), OrderState.Submitting, map[0 := ACKNOWLEDGING], map[3 := FILL])
  {
    NothingHappens(s.db);
    hide Apply;
  }

  lemma Polls(s: System)
    requires At(s, OrderState.Submitting, map[0 := ACKNOWLEDGING], map[3 := FILL])
    ensures At(Next(s, PollOrder(1, 3, true)), OrderState.Submitting,
               map[0 := ACKNOWLEDGING, 1 := OrderPolled(3, FILL)], map[3 := FILL])
  {
    NothingHappens(s.db);
    hide Apply;
  }

  lemma Writes(s: System)
    requires At(s, OrderState.Submitting, map[0 := ACKNOWLEDGING, 1 := OrderPolled(3, FILL)], map[3 := FILL])
    ensures At(Next(s, WriteOrder(1, 3)), OrderState.Filled, map[0 := ACKNOWLEDGING], map[3 := FILL])
  {
    assert MapOrderState("Filled") == OrderState.Filled;
    RewrittenRow(s.db, 3, FILL, OrderState.Filled, 3);
    hide Apply;
  }

  /**
   In this run a late acknowledgement reopens a row that reconciliation had closed: order 3 is filled at the
   broker and in its row, and recording the answer of `place_order` moves the row back to acknowledged.
   */
  lemma LateAcknowledgementReopens()
    ensures var closed := Run(Initial, SETUP + Reads([]) + SUBMISSION);
            && 3 in closed.db.orders && closed.db.orders[3].state == OrderState.Filled
            && 3 in closed.broker && closed.broker[3].status == "Filled"
    ensures var reopened := Run(Initial, SETUP + Reads([]) + SUBMISSION + [RecordOrder(0, 4)]);
            3 in reopened.db.orders && reopened.db.orders[3].state == OrderState.Acknowledged
  {
    hide Next, Run;
    ReadsDone([]);
    var s := Run(Initial, SETUP + Reads([]));
    Submitted(s);
    RunJoins(Initial, SETUP + Reads([]), SUBMISSION);
    var closed := Run(Initial, SETUP + Reads([]) + SUBMISSION);
    RunSnoc(Initial, SETUP + Reads([]) + SUBMISSION, RecordOrder(0, 4));
    Records(closed);
  }

  lemma Submitted(s: System)
    requires s == Initial.(db := TRADING, calls := map[0 := SubmitFetched("u", 1, INPUT, OFFER, [], 2)])
    ensures At(Run(s, SUBMISSION), OrderState.Filled, map[0 := ACKNOWLEDGING], map[3 := FILL])
  {
    hide Next, At;
    var e := SUBMISSION;
    assert e == [] + [e[0]] + [e[1]] + [e[2]] + [e[3]] + [e[4]] + [e[5]] + [e[6]] + [e[7]];
    RunSnoc(s, [] + [e[0]] + [e[1]] + [e[2]] + [e[3]] + [e[4]] + [e[5]] + [e[6]], e[7]);
    RunSnoc(s, [] + [e[0]] + [e[1]] + [e[2]] + [e[3]] + [e[4]] + [e[5]], e[6]);
    RunSnoc(s, [] + [e[0]] + [e[1]] + [e[2]] + [e[3]] + [e[4]], e[5]);
    RunSnoc(s, [] + [e[0]] + [e[1]] + [e[2]] + [e[3]], e[4]);
    RunSnoc(s, [] + [e[0]] + [e[1]] + [e[2]], e[3]);
    RunSnoc(s, [] + [e[0]] + [e[1]], e[2]);
    RunSnoc(s, [] + [e[0]], e[1]);
    RunSnoc(s, [], e[0]);
    Written(s);
    Checked(Next(s, e[0]));
    Begun(READY);
    var begun := Next(READY, e[2]);
    Sent(begun);
    Answered(Next(begun, e[3]));
    Fills(Next(Next(begun, e[3]), e[4]));
    Polls(Next(Next(Next(begun, e[3]), e[4]), e[5]));
    Writes(Next(Next(Next(Next(begun, e[3]), e[4]), e[5]), e[6]));
  }

  lemma Records(s: System)
    requires At(s, OrderState.Filled, map[0 := ACKNOWLEDGING], map[3 := FILL])
    ensures 3 in Next(s, RecordOrder(0, 4)).db.orders &&
            Next(s, RecordOrder(0, 4)).db.orders[3].state == OrderState.Acknowledged
  {
    NextParts(s, RecordOrder(0, 4));
    MarkedRow(s.db, RecordTxn(3, Accepted("b", 3), 4), 3);
    hide Apply, Next, Clip;
  }
}
