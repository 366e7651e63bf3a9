/**
 Convergence of one order. Once the broker's record is final and the calls that could still write
 something else have drained, one poll settles the row, and it stays settled whatever runs next.
 */
module Settling {
  import opened Common
  import opened ExecutionDomain
  import opened Transactions
  import opened Ledger
  import opened History
  import opened Interleaving
  import opened CallMoves
  import opened Submissions
  import opened BrokerTruth

  predicate Manages(call: Call) {
    call.ManageOpened? || call.ManageFetched? || call.ManageWritten? || call.ManageReady?
  }

  /** The row of the order repeats the broker's final record. */
  predicate RowFinal(orders: map<Id, Order>, o: Id, broker: map<Id, OrderSnapshot>) {
    o in orders && FromBroker(orders[o], o, broker)
  }

  /**
   The call may still write to the order something other than the broker's current record. `final` says
   whether the row repeats the final record: a cancel about to check its row cannot pass on such a row.
   */
  predicate Stirs(call: Call, o: Id, final: bool, broker: map<Id, OrderSnapshot>) {
    || Submits(call) == Some(o)
    || (HoldsSnapshot(call) && call.orderId == o && !(o in broker && call.snapshot == broker[o]))
    || (call.CancelWritten? && call.orderId == o && !final)
    || (call.CancelReady? && call.orderId == o)
    || (Manages(call) && call.kind == ActionType.CancelOrder)
  }

  ghost predicate Calm(calls: map<Id, Call>, o: Id, final: bool, broker: map<Id, OrderSnapshot>) {
    forall c :: c in calls ==> !Stirs(calls[c], o, final, broker)
  }

  ghost predicate Drained(s: System, o: Id) {
    Calm(s.calls, o, RowFinal(s.db.orders, o, s.broker), s.broker)
  }

  predicate BrokerFinal(s: System, o: Id) {
    o in s.broker && FinalStatus(s.broker[o].status)
  }

  /** The broker is done with the order, and so is every call that could write something else. */
  ghost predicate Quiet(s: System, o: Id) {
    o in s.db.orders && BrokerFinal(s, o) && Drained(s, o)
  }

  ghost predicate Settled(s: System, o: Id) {
    Quiet(s, o) && RowFinal(s.db.orders, o, s.broker)
  }

  // ----- the row

  /** The transaction rewrites this order's row. */
  predicate Rewrites(txn: Txn, o: Id) {
    || (txn.SetOrder? && txn.orderId == o)
    || (txn.Reconcile? && txn.orderId == o)
    || (txn.Act? && txn.actionType == ActionType.CancelOrder && txn.target == o)
  }

  lemma BeginLeavesRow(db: Db, user: string, pid: Id, input: SubmitInput, now: Time, o: Id)
    requires o in db.orders && DrawnBefore(db.orders, db.nextId)
    ensures var after := After(db, BeginSubmission(db, user, pid, input, now)).orders;
            o in after && after[o] == db.orders[o]
  {
  }

  lemma ActLeavesRow(db: Db, user: string, actionType: ActionType, target: Id, input: ConfirmInput, now: Time, o: Id)
    requires o in db.orders && !(actionType == ActionType.CancelOrder && target == o)
    ensures var after := After(db, BeginAction(db, user, actionType, target, input, now)).orders;
            o in after && after[o] == db.orders[o]
  {
  }

  lemma RowLeft(db: Db, txn: Txn, o: Id)
    requires Sound(db) && o in db.orders && !Rewrites(txn, o)
    ensures o in Apply(db, txn).orders && Apply(db, txn).orders[o] == db.orders[o]
  {
    hide SubmissionsSound, ActionsSound, PositionsUnique, BeginSubmission, BeginAction, ReplaceOpenPositions,
         SetOrderState, ReconcileOrder, MarkAction, InsertProposal, RejectProposal, CreateConnection, MarkConnection,
         SaveAccountSnapshot, SwitchContext, RevokeConnection, CreateReview, CreateActionReview;
    match txn
    case Begin(user, pid, input, now) => BeginLeavesRow(db, user, pid, input, now, o);
    case Act(user, actionType, target, confirm, now) => ActLeavesRow(db, user, actionType, target, confirm, now, o);
    case Replace(user, conn, environment, snapshots, now) => ReplaceLeaves(db, user, conn, environment, snapshots, now);
    case SetOrder(_, _, _, _, _) => MarkLeavesRow(db, txn, o);
    case Reconcile(_, _, _, _) => MarkLeavesRow(db, txn, o);
    case SetAction(_, _, _, _, _) => SetActionLeaves(db, txn);
    case _ => AccountsLeaveTrading(db, txn);
  }

  lemma MarkLeavesRow(db: Db, txn: Txn, o: Id)
    requires (txn.SetOrder? || txn.Reconcile?) && txn.orderId != o && o in db.orders
    ensures o in Apply(db, txn).orders && Apply(db, txn).orders[o] == db.orders[o]
  {
    hide BeginSubmission, BeginAction, ReplaceOpenPositions, MarkAction, InsertProposal, RejectProposal,
         CreateConnection, MarkConnection, SaveAccountSnapshot, SwitchContext, RevokeConnection, CreateReview,
         CreateActionReview, ArchiveProposal, CompleteActions;
  }

  /** In a quiet system the only step that rewrites the row writes the broker's record over it. */
  lemma DrainedRewrites(s: System, e: Step, o: Id)
    requires Quiet(s, o) && Rewrites(TxnOf(s, e), o)
    ensures TxnOf(s, e).Reconcile? && TxnOf(s, e).orderId == o && TxnOf(s, e).snapshot == s.broker[o]
    ensures TxnOf(s, e).state == MapOrderState(s.broker[o].status)
  {
  }

  lemma RewrittenRow(db: Db, o: Id, snapshot: OrderSnapshot, state: OrderState, now: Time)
    requires o in db.orders
    ensures var after := Apply(db, Reconcile(o, snapshot, state, now)).orders;
            && o in after
            && after[o].state == state && after[o].brokerStatus == Some(snapshot.status) &&
                 after[o].facts == snapshot.facts
  {
  }

  /** A step of a quiet system leaves the row alone or writes the final record over it. */
  lemma RowStep(s: System, e: Step, o: Id)
    requires Sound(s.db) && Quiet(s, o)
    ensures o in Next(s, e).db.orders
    ensures Next(s, e).db.orders[o] == s.db.orders[o] || FromBroker(Next(s, e).db.orders[o], o, s.broker)
  {
    hide Sound, Apply, Moved, Drained, FinalStatus, MapOrderState, TxnOf;
    var txn := TxnOf(s, e);
    if Rewrites(txn, o) {
      DrainedRewrites(s, e, o);
      RewrittenRow(s.db, o, txn.snapshot, txn.state, txn.now);
    } else {
      RowLeft(s.db, txn, o);
    }
  }

  // ----- the calls

  /** Later calls stir the order only if the call they continue did. */
  ghost predicate NoNewStir(before: System, after: System, o: Id, final: bool) {
    && after.broker == before.broker
    && forall c :: c in after.calls && Stirs(after.calls[c], o, final, before.broker) ==>
         c in before.calls && Stirs(before.calls[c], o, final, before.broker)
  }

  /** The steps whose calls may write something new to an order. */
  predicate TouchesOrders(e: Step) {
    e.BeginOrder? || e.FetchOrder? || e.PollOrder? || e.WriteOrder? || e.CheckOrder? || e.BrokerMoves?
  }

  /** One turn of another kind stirs an order only if the call stirred it before. */
  lemma CallCalm(before: Option<Call>, e: Step, after: Option<Call>, o: Id, final: bool, broker: map<Id, OrderSnapshot>)
    requires Turns(before, e, after) && !TouchesOrders(e) && after.Some? && Stirs(after.value, o, final, broker)
    ensures before.Some? && Stirs(before.value, o, final, broker)
  {
  }

  lemma TurnCalm(s: System, e: Step, after: System, o: Id, final: bool)
    requires OneTurn(s.calls, e, after.calls) && after.broker == s.broker && !TouchesOrders(e)
    ensures NoNewStir(s, after, o, final)
  {
    hide Turns, Stirs, TouchesOrders;
    forall c | c in after.calls && Stirs(after.calls[c], o, final, s.broker)
      ensures c in s.calls && Stirs(s.calls[c], o, final, s.broker)
    {
      assert At(after.calls, c) == Some(after.calls[c]);
      if At(s.calls, c) != At(after.calls, c) {
        CallCalm(At(s.calls, c), e, At(after.calls, c), o, final, s.broker);
      }
    }
  }

  /** News about the order is the broker's record. */
  lemma NewsCalm(s: System, e: Step, o: Id, final: bool)
    requires e.FetchOrder? || e.PollOrder?
    requires BrokerFinal(s, o)
    ensures NoNewStir(s, Moved(s, e), o, final)
  {
    hide MovedSubmission, MovedPositions, MovedAction, MovedAlone;
    hide MapOrderState, FinalStatus;
  }

  /** A cancel cannot pass its check on a row that says the order is final. */
  lemma CancelStepsCalm(s: System, e: Step, o: Id)
    requires e.CheckOrder?
    ensures NoNewStir(s, Moved(s, e), o, RowFinal(s.db.orders, o, s.broker))
  {
    hide MovedSubmission, MovedPositions, MovedAction, MovedAlone;
    hide MapOrderState;
  }

  /** A submission begun now places another order. */
  lemma BeginCalm(s: System, c: Id, now: Time, o: Id, final: bool)
    requires Sound(s.db) && o in s.db.orders
    ensures NoNewStir(s, Moved(s, BeginOrder(c, now)), o, final)
  {
    hide Sound, BeginSubmission, Apply;
    if c in s.calls && s.calls[c].SubmitReady? {
      var call := s.calls[c];
      var outcome := BeginSubmission(s.db, call.user, call.pid, call.input, now);
      BegunCalls(s, c, now);
      if outcome.Ok? && outcome.value.1.isNew { BegunFresh(s.db, call.user, call.pid, call.input, now); }
      assert Next(s, BeginOrder(c, now)).calls == Moved(s, BeginOrder(c, now)).calls;
    }
  }

  lemma BrokerCalm(s: System, linkId: Id, snapshot: OrderSnapshot, o: Id, final: bool)
    requires BrokerFinal(s, o) && Calm(s.calls, o, final, s.broker)
    ensures var after := Moved(s, BrokerMoves(linkId, snapshot));
            o in after.broker && after.broker[o] == s.broker[o] && Calm(after.calls, o, final, after.broker)
  {
  }

  /** What writing a snapshot does to the calls: it ends, or a cancel goes on to check its row. */
  lemma WriteMoves(s: System, c: Id, now: Time)
    ensures var e := WriteOrder(c, now);
            Moved(s, e) == s || (c in s.calls && HoldsSnapshot(s.calls[c]) && Moved(s, e) == WrittenOrder(s, c))
    ensures c !in s.calls || !HoldsSnapshot(s.calls[c]) ==> Moved(s, WriteOrder(c, now)) == s
  {
    hide WrittenOrder;
  }

  /** The cancel whose snapshot was just written finds the final record in its row. */
  lemma WriteCalm(s: System, c: Id, now: Time, o: Id, before: bool, after: bool)
    requires Quiet(s, o) && before == RowFinal(s.db.orders, o, s.broker) && (before ==> after)
    requires c in s.calls && HoldsSnapshot(s.calls[c]) && s.calls[c].orderId == o ==> after
    ensures Moved(s, WriteOrder(c, now)).broker == s.broker
    ensures Calm(Moved(s, WriteOrder(c, now)).calls, o, after, s.broker)
  {
    WriteMoves(s, c, now);
    hide Moved, BrokerFinal, RowFinal;
  }

  lemma WriteFinishes(s: System, c: Id, now: Time, o: Id)
    requires Quiet(s, o) && c in s.calls && HoldsSnapshot(s.calls[c]) && s.calls[c].orderId == o
    ensures RowFinal(Next(s, WriteOrder(c, now)).db.orders, o, s.broker)
  {
    WrittenTxn(s, c, now);
    hide Moved, MapOrderState, TxnOf;
    assert s.calls[c].snapshot == s.broker[o];
    RewrittenRow(s.db, o, s.broker[o], MapOrderState(s.broker[o].status), now);
    hide Apply;
  }

  lemma WrittenTxn(s: System, c: Id, now: Time)
    requires c in s.calls && HoldsSnapshot(s.calls[c])
    ensures TxnOf(s, WriteOrder(c, now)) ==
            Reconcile(s.calls[c].orderId, s.calls[c].snapshot, MapOrderState(s.calls[c].snapshot.status), now)
  {
    hide MapOrderState;
  }

  lemma StepCalm(s: System, e: Step, o: Id)
    requires Sound(s.db) && Quiet(s, o) && !e.BrokerMoves? && !e.WriteOrder?
    ensures NoNewStir(s, Moved(s, e), o, RowFinal(s.db.orders, o, s.broker))
  {
    var final := RowFinal(s.db.orders, o, s.broker);
    hide Sound, Apply, Moved, Drained, NoNewStir, BrokerFinal, FromBroker, RowFinal, OneTurn;
    if e.BeginOrder? {
      BeginCalm(s, e.c, e.now, o, final);
    } else if e.CheckOrder? {
      CancelStepsCalm(s, e, o);
    } else if e.FetchOrder? || e.PollOrder? {
      NewsCalm(s, e, o, final);
    } else {
      StepTurns(s, e);
      TurnCalm(s, e, Moved(s, e), o, final);
    }
  }

  /** A row that repeats the final record rules out more calls, never fewer. */
  lemma CalmOnceFinal(calls: map<Id, Call>, o: Id, before: bool, after: bool, broker: map<Id, OrderSnapshot>)
    requires Calm(calls, o, before, broker) && (before ==> after)
    ensures Calm(calls, o, after, broker)
  {
  }

  // ----- the theorems

  /** Quiet is kept by every step, and so is a row that repeats the final record. */
  lemma StepQuiet(s: System, e: Step, o: Id)
    requires Sound(s.db) && Quiet(s, o)
    ensures Quiet(Next(s, e), o) && Next(s, e).broker[o] == s.broker[o]
    ensures Settled(s, o) ==> Settled(Next(s, e), o)
  {
    hide Next, Sound, FinalStatus, Calm;
    RowStep(s, e, o);
    NextParts(s, e);
    var before, after := RowFinal(s.db.orders, o, s.broker), RowFinal(Next(s, e).db.orders, o, s.broker);
    if e.BrokerMoves? {
      BrokerCalm(s, e.linkId, e.snapshot, o, before);
      SameRecord(s.db.orders, o, s.broker, Next(s, e).broker);
      CalmOnceFinal(Moved(s, e).calls, o, before, after, Moved(s, e).broker);
    } else if e.WriteOrder? {
      if e.c in s.calls && HoldsSnapshot(s.calls[e.c]) && s.calls[e.c].orderId == o { WriteFinishes(s, e.c, e.now, o); }
      WriteCalm(s, e.c, e.now, o, before, after);
    } else {
      StepCalm(s, e, o);
      NoStirCalm(s, Moved(s, e), o, before);
      CalmOnceFinal(Moved(s, e).calls, o, before, after, s.broker);
    }
    SameRecord(Next(s, e).db.orders, o, s.broker, Next(s, e).broker);
  }

  lemma SameRecord(orders: map<Id, Order>, o: Id, before: map<Id, OrderSnapshot>, after: map<Id, OrderSnapshot>)
    requires o in before && o in after && before[o] == after[o]
    ensures RowFinal(orders, o, before) == RowFinal(orders, o, after)
  {
  }

  lemma NoStirCalm(before: System, after: System, o: Id, final: bool)
    requires NoNewStir(before, after, o, final) && Calm(before.calls, o, final, before.broker)
    ensures Calm(after.calls, o, final, before.broker)
  {
  }

  /** Quiet stays, and so does a settled row, in every continuation. */
  lemma {:induction false} SettledForever(s: System, steps: seq<Step>, o: Id)
    requires Sound(s.db) && Quiet(s, o)
    ensures Sound(Run(s, steps).db) && Quiet(Run(s, steps), o)
    ensures Settled(s, o) ==> Settled(Run(s, steps), o)
  {
    hide Next, Sound, Settled, Quiet;
    RunsGrow(s, steps);
    if |steps| == 0 {
    } else {
      SettledForever(s, steps[..|steps| - 1], o);
      StepQuiet(Run(s, steps[..|steps| - 1]), steps[|steps| - 1], o);
    }
  }

  // ----- one poll, whatever runs between its fetch and its write

  /** The row is settled, or the poll still carries the final record. */
  ghost predicate Polling(s: System, c: Id, o: Id) {
    Settled(s, o) || (Quiet(s, o) && c in s.calls && s.calls[c] == OrderPolled(o, s.broker[o]))
  }

  /** A poll in flight moves on only by writing its snapshot or being abandoned. */
  predicate Leaves(e: Step, c: Id) {
    !(e.WriteOrder? && e.c == c) && !(e.Abandon? && e.c == c)
  }

  predicate Keeps(s: System, after: System, c: Id) {
    c in s.calls && c in after.calls && after.calls[c] == s.calls[c]
  }

  lemma TurnKeeps(before: map<Id, Call>, e: Step, after: map<Id, Call>, c: Id)
    requires OneTurn(before, e, after) && c in before && before[c].OrderPolled? && Leaves(e, c)
    ensures c in after && after[c] == before[c]
  {
    assert At(before, c) == Some(before[c]);
  }

  lemma PollKept(s: System, e: Step, c: Id)
    requires c in s.calls && s.calls[c].OrderPolled? && Leaves(e, c)
    ensures Keeps(s, Moved(s, e), c)
  {
    hide Moved, OneTurn;
    StepTurns(s, e);
    TurnKeeps(s.calls, e, Moved(s, e).calls, c);
  }

  /** Writing the final record settles the row. */
  lemma WriteSettles(s: System, c: Id, o: Id, now: Time)
    requires Sound(s.db) && Quiet(s, o) && c in s.calls && s.calls[c] == OrderPolled(o, s.broker[o])
    ensures Settled(Next(s, WriteOrder(c, now)), o)
  {
    StepQuiet(s, WriteOrder(c, now), o);
    WriteFinishes(s, c, now, o);
    hide Next, FromBroker, Drained;
    SameRecord(Next(s, WriteOrder(c, now)).db.orders, o, s.broker, Next(s, WriteOrder(c, now)).broker);
  }

  lemma StepPolling(s: System, e: Step, c: Id, o: Id)
    requires Sound(s.db) && Polling(s, c, o) && !(e.Abandon? && e.c == c)
    ensures Polling(Next(s, e), c, o)
    ensures e.WriteOrder? && e.c == c ==> Settled(Next(s, e), o)
  {
    StepQuiet(s, e, o);
    hide Sound, Drained, RowFinal, BrokerFinal, Next;
    if !Settled(s, o) {
      if e.WriteOrder? && e.c == c {
        WriteSettles(s, c, o, e.now);
      } else {
        PollKept(s, e, c);
        NextParts(s, e);
      }
    }
  }

  /** The poll is not given up in between. */
  predicate PollSurvives(between: seq<Step>, c: Id) {
    forall i :: 0 <= i < |between| ==> !(between[i].Abandon? && between[i].c == c)
  }

  lemma {:induction false} PollingOn(s: System, between: seq<Step>, c: Id, o: Id)
    requires Sound(s.db) && Polling(s, c, o) && PollSurvives(between, c)
    ensures Sound(Run(s, between).db) && Polling(Run(s, between), c, o)
  {
    hide Next, Sound, Polling;
    RunsGrow(s, between);
    if |between| == 0 {
    } else {
      PollingOn(s, between[..|between| - 1], c, o);
      RunsGrow(s, between[..|between| - 1]);
      StepPolling(Run(s, between[..|between| - 1]), between[|between| - 1], c, o);
    }
  }

  lemma PollOpens(s: System, c: Id, o: Id, byWorker: bool)
    requires c !in s.calls && o in s.db.orders && o in s.broker
    ensures Next(s, PollOrder(c, o, byWorker)) ==
            if byWorker && !Reconcilable(s.db.orders[o].state) then s
            else s.(calls := s.calls[c := OrderPolled(o, s.broker[o])])
  {
    NothingHappens(s.db);
    hide Apply;
  }

  /** The poll starts: on a quiet system it carries the final record, or there is nothing left to poll. */
  lemma PollStarts(s: System, c: Id, o: Id, byWorker: bool)
    requires Truthful(s) && Sound(s.db) && Quiet(s, o) && c !in s.calls
    ensures Sound(Next(s, PollOrder(c, o, byWorker)).db) && Polling(Next(s, PollOrder(c, o, byWorker)), c, o)
    ensures Settled(s, o) || Reconcilable(s.db.orders[o].state)
  {
    hide Sound, Drained, Next, FinalStatus, RowFinal, Truthful;
    StepQuiet(s, PollOrder(c, o, byWorker), o);
    RunsGrow(s, [PollOrder(c, o, byWorker)]);
    RunOne(s, PollOrder(c, o, byWorker));
    PollOpens(s, c, o, byWorker);
    TerminalIsFinal(s, o);
  }

  lemma TerminalIsFinal(s: System, o: Id)
    requires Truthful(s) && o in s.db.orders && BrokerFinal(s, o)
    ensures Terminal(s.db.orders[o].state) ==> RowFinal(s.db.orders, o, s.broker)
  {
    hide FinalStatus;
    assert RowTrue(s.db.orders[o], o, s.broker, s.refused);
  }

  /** Fetching the order, then anything at all, then writing the snapshot. */
  function PollAround(c: Id, o: Id, byWorker: bool, between: seq<Step>, now: Time): seq<Step> {
    [PollOrder(c, o, byWorker)] + between + [WriteOrder(c, now)]
  }

  /**
   When the broker's record is final and the calls that could write something else have drained, the row is
   settled already or is one the worker still polls; and one poll settles it, whatever runs between its fetch
   and its write, as long as the poll itself is not given up.
   */
  lemma PollSettles(s: System, c: Id, o: Id, byWorker: bool, between: seq<Step>, now: Time)
    requires Truthful(s) && Sound(s.db) && Quiet(s, o) && c !in s.calls && PollSurvives(between, c)
    ensures Settled(s, o) || Reconcilable(s.db.orders[o].state)
    ensures Sound(Run(s, PollAround(c, o, byWorker, between, now)).db)
    ensures Settled(Run(s, PollAround(c, o, byWorker, between, now)), o)
  {
    hide Next, Truthful, Settled, Quiet, Polling, PollSurvives, Sound;
    var first, last := PollOrder(c, o, byWorker), WriteOrder(c, now);
    PollStarts(s, c, o, byWorker);
    RunOne(s, first);
    var polled := Run(s, [first]);
    PollingOn(polled, between, c, o);
    RunJoins(s, [first], between);
    var held := Run(s, [first] + between);
    StepPolling(held, last, c, o);
    RunOne(held, last);
    RunJoins(s, [first] + between, [last]);
    RunsGrow(held, [last]);
  }

  /**
   Convergence over runs: from every reachable system whose broker record of an order is final and whose calls
   have drained, one poll settles the row in whatever interleaving, and it stays settled ever after.
   */
  lemma EveryOrderConverges(steps: seq<Step>, c: Id, o: Id, byWorker: bool, between: seq<Step>, now: Time,
                            more: seq<Step>)
    requires PollSurvives(between, c)
    ensures var s := Run(Initial, steps);
            Quiet(s, o) && c !in s.calls ==>
            && (Settled(s, o) || Reconcilable(s.db.orders[o].state))
            && Settled(Run(Run(s, PollAround(c, o, byWorker, between, now)), more), o)
  {
    hide Next, Sound, Truthful, Settled, Quiet, PollAround, Placing, PollSurvives;
    var s := Run(Initial, steps);
    AlwaysPlacing(steps);
    AlwaysTruthful(steps);
    if Quiet(s, o) && c !in s.calls {
      PollSettles(s, c, o, byWorker, between, now);
      var settled := Run(s, PollAround(c, o, byWorker, between, now));
      assert Quiet(settled, o) by { SettledIsQuiet(settled, o); }
      SettledForever(settled, more, o);
    }
  }

  lemma SettledIsQuiet(s: System, o: Id)
    requires Settled(s, o)
    ensures Quiet(s, o)
  {
  }
}
