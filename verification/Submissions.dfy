/**
 At-most-once submission: over every interleaving of service calls, abandoned calls, lost answers and
 reconciliation, `place_order` is called at most once for a proposal.
 */
module Submissions {
  import opened Common
  import opened ExecutionDomain
  import opened Transactions
  import opened Ledger
  import opened History
  import opened Interleaving
  import opened CallMoves

  /** The order a submission call is placing, once the call has inserted it. */
  function Submits(call: Call): Option<Id> {
    match call
    case SubmitBegun(o, _) => Some(o)
    case SubmitSent(o) => Some(o)
    case SubmitAnswered(o, _) => Some(o)
    case _ => None
  }

  ghost predicate OneCallEach(calls: map<Id, Call>) {
    forall c1, c2 :: c1 in calls && c2 in calls && c1 != c2 && Submits(calls[c1]).Some? ==>
      Submits(calls[c1]) != Submits(calls[c2])
  }

  ghost predicate CallsKnown(calls: map<Id, Call>, orders: map<Id, Order>) {
    forall c :: c in calls && Submits(calls[c]).Some? ==> Submits(calls[c]).value in orders
  }

  /** A call that has not sent its order yet is the only one that could, and nobody did. */
  ghost predicate BegunUnsent(calls: map<Id, Call>, sent: seq<Id>) {
    forall c :: c in calls && calls[c].SubmitBegun? ==> calls[c].orderId !in sent
  }

  ghost predicate SentKnown(sent: seq<Id>, orders: map<Id, Order>) {
    forall i :: 0 <= i < |sent| ==> sent[i] in orders
  }

  ghost predicate Distinct(sent: seq<Id>) {
    forall i, j :: 0 <= i < j < |sent| ==> sent[i] != sent[j]
  }

  ghost predicate Placing(calls: map<Id, Call>, sent: seq<Id>, orders: map<Id, Order>) {
    OneCallEach(calls) && CallsKnown(calls, orders) && BegunUnsent(calls, sent) && SentKnown(sent, orders) &&
      Distinct(sent)
  }

  // ----- how calls move

  /** The later call still places the order the earlier one placed, and is no further back. */
  predicate Continues(before: Call, after: Call) {
    Submits(after) == Submits(before) && (after.SubmitBegun? ==> before.SubmitBegun?)
  }

  /** Calls that place orders only go on placing them. */
  ghost predicate CallsContinue(before: map<Id, Call>, after: map<Id, Call>) {
    forall c :: c in after && Submits(after[c]).Some? ==> c in before && Continues(before[c], after[c])
  }

  /** One turn: a call that places an order afterwards placed it before. */
  lemma CallContinues(before: Option<Call>, e: Step, after: Option<Call>)
    requires Turns(before, e, after) && !e.BeginOrder? && after.Some? && Submits(after.value).Some?
    ensures before.Some? && Continues(before.value, after.value)
  {
  }

  lemma TurnContinues(before: map<Id, Call>, e: Step, after: map<Id, Call>)
    requires OneTurn(before, e, after) && !e.BeginOrder?
    ensures CallsContinue(before, after)
  {
    hide Turns, Submits;
    forall c | c in after && Submits(after[c]).Some? ensures c in before && Continues(before[c], after[c]) {
      assert At(after, c) == Some(after[c]);
      if At(before, c) != At(after, c) { CallContinues(At(before, c), e, At(after, c)); }
    }
  }

  lemma StepsContinue(s: System, e: Step)
    requires !e.BeginOrder?
    ensures CallsContinue(s.calls, Moved(s, e).calls)
    ensures e.SendOrder? || Moved(s, e).sent == s.sent
  {
    hide Moved, OneTurn, CallsContinue;
    StepTurns(s, e);
    TurnContinues(s.calls, e, Moved(s, e).calls);
  }

  lemma ContinuePlacing(before: map<Id, Call>, after: map<Id, Call>, sent: seq<Id>, orders: map<Id, Order>,
                        ordersAfter: map<Id, Order>)
    requires Placing(before, sent, orders) && CallsContinue(before, after) && OrdersGrow(orders, ordersAfter)
    ensures Placing(after, sent, ordersAfter)
  {
  }

  /** A submission that inserted an order drew a fresh id for it. */
  lemma BegunFresh(db: Db, user: string, pid: Id, input: SubmitInput, now: Time)
    requires Sound(db)
    requires BeginSubmission(db, user, pid, input, now).Ok? && BeginSubmission(db, user, pid, input, now).value.1.isNew
    ensures var outcome := BeginSubmission(db, user, pid, input, now);
            outcome.value.1.orderId !in db.orders && outcome.value.1.orderId in After(db, outcome).orders
  {
    hide SubmissionsSound, ActionsSound, PositionsUnique;
  }

  lemma BeginPlaces(s: System, c: Id, now: Time)
    requires Sound(s.db) && Placing(s.calls, s.sent, s.db.orders)
    requires c in s.calls && s.calls[c].SubmitReady?
    ensures var after := Next(s, BeginOrder(c, now)); Placing(after.calls, after.sent, after.db.orders)
  {
    hide *;
    var call := s.calls[c];
    var outcome := BeginSubmission(s.db, call.user, call.pid, call.input, now);
    BegunCalls(s, c, now);
    BegunGrows(s.db, call, now);
    if outcome.Ok? && outcome.value.1.isNew {
      BegunFresh(s.db, call.user, call.pid, call.input, now);
      FreshPlaces(s, c, outcome.value.1, Next(s, BeginOrder(c, now)).db.orders);
    } else {
      EndPlaces(s, c, Next(s, BeginOrder(c, now)).db.orders);
    }
  }

  lemma BegunGrows(db: Db, call: Call, now: Time)
    requires Sound(db) && call.SubmitReady?
    ensures OrdersGrow(db.orders, After(db, BeginSubmission(db, call.user, call.pid, call.input, now)).orders)
  {
    hide Sound, BeginSubmission, OrdersGrow, RowsMoved;
    BeginMoves(db, call.user, call.pid, call.input, now);
  }

  lemma EndPlaces(s: System, c: Id, orders: map<Id, Order>)
    requires Placing(s.calls, s.sent, s.db.orders) && OrdersGrow(s.db.orders, orders)
    ensures Placing(s.calls - {c}, s.sent, orders)
  {
    ContinuePlacing(s.calls, s.calls - {c}, s.sent, s.db.orders, orders);
  }

  lemma BegunCalls(s: System, c: Id, now: Time)
    requires c in s.calls && s.calls[c].SubmitReady?
    ensures var call := s.calls[c];
            var outcome := BeginSubmission(s.db, call.user, call.pid, call.input, now);
            var after := Next(s, BeginOrder(c, now));
            && after.sent == s.sent && after.db == After(s.db, outcome)
            && after.calls == if outcome.Ok? && outcome.value.1.isNew
                              then s.calls[c := SubmitBegun(outcome.value.1.orderId, outcome.value.1.proposal)]
                              else s.calls - {c}
  {
    hide BeginSubmission;
  }

  lemma FreshPlaces(s: System, c: Id, start: SubmissionStart, orders: map<Id, Order>)
    requires Placing(s.calls, s.sent, s.db.orders) && OrdersGrow(s.db.orders, orders)
    requires start.orderId in orders && start.orderId !in s.db.orders
    ensures Placing(s.calls[c := SubmitBegun(start.orderId, start.proposal)], s.sent, orders)
  {
  }

  /** Each step keeps the database sound and each order in the hands of at most one call. */
  lemma StepPlaces(s: System, e: Step)
    requires Sound(s.db) && Placing(s.calls, s.sent, s.db.orders)
    ensures Sound(Next(s, e).db)
    ensures Placing(Next(s, e).calls, Next(s, e).sent, Next(s, e).db.orders)
  {
    hide Apply, Sound, Placing, Grows, CallsContinue, OrdersGrow, TxnOf, Moved;
    TxnKeepsSound(s.db, TxnOf(s, e));
    match e
    case BeginOrder(c, now) => BeginOrderPlaces(s, c, now);
    case SendOrder(c) => SendOrderPlaces(s, c);
    case _ => OtherPlaces(s, e);
  }

  lemma BeginOrderPlaces(s: System, c: Id, now: Time)
    requires Sound(s.db) && Placing(s.calls, s.sent, s.db.orders)
    ensures var after := Next(s, BeginOrder(c, now)); Placing(after.calls, after.sent, after.db.orders)
  {
    hide Sound, Placing;
    if c in s.calls && s.calls[c].SubmitReady? { BeginPlaces(s, c, now); }
  }

  lemma SendOrderPlaces(s: System, c: Id)
    requires Placing(s.calls, s.sent, s.db.orders)
    ensures var after := Next(s, SendOrder(c)); Placing(after.calls, after.sent, after.db.orders)
  {
    SentMoves(s, c);
    hide Next;
  }

  lemma SentMoves(s: System, c: Id)
    ensures var after := Next(s, SendOrder(c));
            && after.db == s.db
            && if c in s.calls && s.calls[c].SubmitBegun?
               then after.sent == s.sent + [s.calls[c].orderId] &&
                    after.calls == s.calls[c := SubmitSent(s.calls[c].orderId)]
               else after.sent == s.sent && after.calls == s.calls
  {
    NothingHappens(s.db);
    hide Apply, MovedOrder, MovedPositions, MovedAction, MovedAlone;
  }

  lemma OtherPlaces(s: System, e: Step)
    requires !e.BeginOrder? && !e.SendOrder?
    requires Sound(s.db) && Placing(s.calls, s.sent, s.db.orders)
    ensures Placing(Next(s, e).calls, Next(s, e).sent, Next(s, e).db.orders)
  {
    TxnGrows(s.db, TxnOf(s, e));
    StepsContinue(s, e);
    hide Apply, Sound, Placing, CallsContinue, Moved;
    ContinuePlacing(s.calls, Next(s, e).calls, s.sent, s.db.orders, Next(s, e).db.orders);
  }

  /** Reachable systems are sound, and their orders are placed by at most one call. */
  lemma {:induction false} AlwaysPlacing(steps: seq<Step>)
    ensures Sound(Run(Initial, steps).db)
    ensures var s := Run(Initial, steps); Placing(s.calls, s.sent, s.db.orders)
  {
    hide Next;
    if |steps| == 0 {
    } else {
      AlwaysPlacing(steps[..|steps| - 1]);
      StepPlaces(Run(Initial, steps[..|steps| - 1]), steps[|steps| - 1]);
    }
  }

  /** In every run, whatever `place_order` was called for is an order that exists, of a proposal that was submitted. */
  lemma PlacedForSubmitted(steps: seq<Step>, i: nat)
    requires i < |Run(Initial, steps).sent|
    ensures var s := Run(Initial, steps);
            s.sent[i] in s.db.orders && OrderMatches(s.db.proposals, s.sent[i], s.db.orders[s.sent[i]])
  {
    hide Run;
    AlwaysPlacing(steps);
  }

  /**
   At most once: in every run, `place_order` was called at most once for each order and at most once for
   each proposal.
   */
  lemma PlacedAtMostOnce(steps: seq<Step>, i: nat, j: nat)
    requires i < |Run(Initial, steps).sent| && j < |Run(Initial, steps).sent| && i != j
    ensures var s := Run(Initial, steps);
            && s.sent[i] in s.db.orders && s.sent[j] in s.db.orders
            && s.sent[i] != s.sent[j]
            && s.db.orders[s.sent[i]].proposalId != s.db.orders[s.sent[j]].proposalId
  {
    hide Run;
    AlwaysPlacing(steps);
  }

  /** However a run goes on, the rows it had keep their bindings: an idempotency key never changes orders. */
  lemma {:induction false} RunsGrow(s: System, steps: seq<Step>)
    requires Sound(s.db)
    ensures Sound(Run(s, steps).db) && Grows(s.db, Run(s, steps).db)
  {
    hide Apply, Sound, Grows, Moved, TxnOf;
    if |steps| == 0 {
      GrowsSelf(s.db);
    } else {
      var before := Run(s, steps[..|steps| - 1]);
      RunsGrow(s, steps[..|steps| - 1]);
      TxnKeepsSound(before.db, TxnOf(before, steps[|steps| - 1]));
      TxnGrows(before.db, TxnOf(before, steps[|steps| - 1]));
      GrowsTwice(s.db, before.db, Run(s, steps).db);
    }
  }

  /** Each order consumed exactly one review, and it was a review of its own proposal. */
  lemma OneReviewEach(db: Db, o: Id)
    requires Sound(db) && o in db.orders
    ensures exists r :: r in db.reviews && ConsumedFor(db.reviews[r], db.orders[o].proposalId) &&
                        forall other ::
                          other in db.reviews && ConsumedFor(db.reviews[other], db.orders[o].proposalId) ==> other == r
  {
  }
}
