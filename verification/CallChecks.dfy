/**
 What the checks of calls in flight compare, and exactly when they let a call go on: a cancel or a change of a
 position acts on the review its user confirmed, on a row that is still what was reviewed, and a submission goes
 on from an unexpired proposal on the active healthy account it was made for.
 */
module CallChecks {
  import opened Common
  import opened ExecutionDomain
  import opened Transactions
  import opened Ledger
  import opened History
  import Fingerprints
  import opened Interleaving
  import opened CallMoves
  import opened Submissions
  import opened PendingActions

  // ----- what a call carries

  /** The confirmation a call acts on: whose, of what kind, on what target. */
  datatype Confirmation = Confirmation(user: string, kind: ActionType, target: Id, confirm: ConfirmInput)

  function Confirming(call: Call): Option<Confirmation> {
    match call
    case CancelOpened(user, orderId, confirm, _) =>
      Some(Confirmation(user, ActionType.CancelOrder, orderId, confirm))
    case CancelFetched(user, orderId, confirm, _, _) =>
      Some(Confirmation(user, ActionType.CancelOrder, orderId, confirm))
    case CancelWritten(user, orderId, confirm, _) =>
      Some(Confirmation(user, ActionType.CancelOrder, orderId, confirm))
    case CancelReady(user, orderId, confirm) => Some(Confirmation(user, ActionType.CancelOrder, orderId, confirm))
    case ManageOpened(user, kind, positionId, confirm, _) => Some(Confirmation(user, kind, positionId, confirm))
    case ManageFetched(user, kind, positionId, confirm, _, _, _) => Some(Confirmation(user, kind, positionId, confirm))
    case ManageWritten(user, kind, positionId, confirm, _) => Some(Confirmation(user, kind, positionId, confirm))
    case ManageReady(user, kind, positionId, confirm) => Some(Confirmation(user, kind, positionId, confirm))
    case _ => None
  }

  /** The reviewed terms the call still has to compare. */
  function Reviewed(call: Call): Option<ActionTerms> {
    match call
    case CancelOpened(_, _, _, terms) => Some(terms)
    case CancelFetched(_, _, _, terms, _) => Some(terms)
    case CancelWritten(_, _, _, terms) => Some(terms)
    case ManageOpened(_, _, _, _, terms) => Some(terms)
    case ManageFetched(_, _, _, _, terms, _, _) => Some(terms)
    case ManageWritten(_, _, _, _, terms) => Some(terms)
    case _ => None
  }

  /** The proposal a submission goes on with, as it was loaded. */
  datatype Loading = Loading(user: string, pid: Id, proposal: TradeProposal)

  function Loaded(call: Call): Option<Loading> {
    match call
    case SubmitLoaded(user, pid, _, proposal) => Some(Loading(user, pid, proposal))
    case SubmitFetched(user, pid, _, proposal, _, _) => Some(Loading(user, pid, proposal))
    case SubmitWritten(user, pid, _, proposal) => Some(Loading(user, pid, proposal))
    case _ => None
  }

  /** Nothing new is carried: what the later stage carries, the earlier one did. */
  predicate GoesOn(before: Call, after: Call) {
    && (Confirming(after).Some? ==> Confirming(after) == Confirming(before))
    && (Reviewed(after).Some? ==> Reviewed(after) == Reviewed(before))
    && (Loaded(after).Some? ==> Loaded(after) == Loaded(before))
  }

  /** The call carries nothing, or the rows say what it carries. */
  ghost predicate Backed(call: Call, db: Db) {
    && (Confirming(call).Some? ==> ReviewBacks(Confirming(call).value, Reviewed(call), db))
    && (Loaded(call).Some? ==> ProposalBacks(Loaded(call).value, db))
  }

  /** The confirmed review is the user's, of this kind, target and hash, and holds the terms carried. */
  predicate ReviewBacks(c: Confirmation, terms: Option<ActionTerms>, db: Db) {
    && c.confirm.reviewId in db.actionReviews
    && var review := db.actionReviews[c.confirm.reviewId];
       && review.userId == c.user && review.actionHash == c.confirm.actionHash
       && review.terms.targetId == c.target && review.terms.actionType == c.kind
       && (terms.Some? ==> terms == Some(review.terms))
  }

  /** The loaded proposal is the user's row, but for a status and time that may have moved since. */
  predicate ProposalBacks(l: Loading, db: Db) {
    && l.pid in db.proposals && db.proposals[l.pid].userId == l.user
    && l.proposal == db.proposals[l.pid].payload.(status := l.proposal.status, updatedAt := l.proposal.updatedAt)
  }

  ghost predicate AllBacked(calls: map<Id, Call>, db: Db) {
    forall c :: c in calls ==> Backed(calls[c], db)
  }

  // ----- every step keeps it

  lemma BackedGrows(call: Call, before: Db, after: Db)
    requires Backed(call, before) && Grows(before, after) && RowsMoved(before.proposals, after.proposals)
    ensures Backed(call, after)
  {
    if Confirming(call).Some? {
      var r := Confirming(call).value.confirm.reviewId;
      assert SameActionReview(before.actionReviews[r], after.actionReviews[r]);
    }
    if Loaded(call).Some? {
      var p := Loaded(call).value.pid;
      assert RowMoved(before.proposals[p], after.proposals[p]);
    }
    hide Grows, RowsMoved;
  }

  lemma WentOn(before: Call, after: Call, db: Db)
    requires GoesOn(before, after) && Backed(before, db)
    ensures Backed(after, db)
  {
  }

  /** The steps that look something up: they open a confirmed request, or load a proposal. */
  predicate LooksUp(e: Step) {
    e.OpenCancel? || e.OpenManage? || e.LoadProposal?
  }

  /** The steps that move a request on to its next check. */
  predicate MovesOn(e: Step) {
    e.FetchAccount? || e.FetchOrder? || e.WriteOrder? || e.CheckOrder? || e.WritePositions? || e.FetchPositions? ||
    e.CheckPosition?
  }

  /** Every turn that looks nothing up carries nothing new. */
  ghost predicate NothingNew(before: map<Id, Call>, after: map<Id, Call>) {
    forall c :: c in after ==>
      (c in before && GoesOn(before[c], after[c])) || (Confirming(after[c]).None? && Loaded(after[c]).None?)
  }

  lemma FetchCarries(s: System, e: Step)
    requires e.FetchAccount?
    ensures NothingNew(s.calls, MovedSubmission(s, e).calls)
  {
    hide TradingAllowed;
  }

  lemma OrdersCarry(s: System, e: Step)
    requires e.FetchOrder? || e.WriteOrder? || e.CheckOrder?
    ensures NothingNew(s.calls, MovedOrder(s, e).calls)
  {
    hide FinalStatus, MapOrderState, Cancellable;
  }

  lemma WritesCarry(s: System, e: Step)
    requires e.WritePositions?
    ensures NothingNew(s.calls, MovedPositions(s, e).calls)
  {
    hide ReplaceOpenPositions, ReplaceTxn;
  }

  lemma PositionsCarry(s: System, e: Step)
    requires e.FetchPositions? || e.CheckPosition?
    ensures NothingNew(s.calls, MovedPositions(s, e).calls)
  {
    hide ReplaceOpenPositions, ReplaceTxn, ValidProtection, Unchanged;
  }

  lemma OtherTurn(before: Option<Call>, e: Step, after: Option<Call>)
    requires Turns(before, e, after) && !LooksUp(e) && !MovesOn(e) && after.Some?
    ensures Confirming(after.value).None? && Loaded(after.value).None?
  {
  }

  lemma OtherTurns(before: map<Id, Call>, e: Step, after: map<Id, Call>)
    requires OneTurn(before, e, after) && !LooksUp(e) && !MovesOn(e)
    ensures NothingNew(before, after)
  {
    hide Turns, LooksUp, MovesOn, Confirming, Loaded, Reviewed;
    forall c | c in after
      ensures (c in before && GoesOn(before[c], after[c])) || (Confirming(after[c]).None? && Loaded(after[c]).None?)
    {
      assert At(after, c) == Some(after[c]);
      if At(before, c) != At(after, c) { OtherTurn(At(before, c), e, At(after, c)); }
    }
  }

  lemma StepsCarry(s: System, e: Step)
    requires !LooksUp(e)
    ensures NothingNew(s.calls, Moved(s, e).calls)
  {
    hide MovedSubmission, MovedOrder, MovedPositions, MovedAction, MovedAccount, MovedAlone, NothingNew, OneTurn;
    if e.FetchAccount? {
      FetchCarries(s, e);
    } else if e.FetchOrder? || e.WriteOrder? || e.CheckOrder? {
      OrdersCarry(s, e);
    } else if e.WritePositions? {
      WritesCarry(s, e);
    } else if e.FetchPositions? || e.CheckPosition? {
      PositionsCarry(s, e);
    } else {
      StepTurns(s, e);
      OtherTurns(s.calls, e, Moved(s, e).calls);
    }
  }

  lemma LookupsBacked(s: System, e: Step)
    requires AllBacked(s.calls, s.db) && LooksUp(e)
    ensures AllBacked(Moved(s, e).calls, s.db)
  {
  }

  lemma StepBacked(s: System, e: Step)
    requires Sound(s.db) && AllBacked(s.calls, s.db)
    ensures AllBacked(Next(s, e).calls, Next(s, e).db)
  {
    hide Sound, Apply, Moved, Backed, Grows, RowsMoved, NothingNew, TxnOf;
    TxnGrows(s.db, TxnOf(s, e));
    if LooksUp(e) {
      LookupsBacked(s, e);
    } else {
      StepsCarry(s, e);
      CarriedBacked(s.calls, Moved(s, e).calls, s.db);
    }
    forall c | c in Moved(s, e).calls ensures Backed(Moved(s, e).calls[c], Apply(s.db, TxnOf(s, e))) {
      BackedGrows(Moved(s, e).calls[c], s.db, Apply(s.db, TxnOf(s, e)));
    }
  }

  lemma CarriedBacked(before: map<Id, Call>, after: map<Id, Call>, db: Db)
    requires NothingNew(before, after) && AllBacked(before, db)
    ensures AllBacked(after, db)
  {
    hide Confirming, Loaded, Reviewed, GoesOn, ReviewBacks, ProposalBacks;
    forall c | c in after ensures Backed(after[c], db) {
      if c in before && GoesOn(before[c], after[c]) { WentOn(before[c], after[c], db); }
    }
  }

  /** In every run, the review and the proposal a call goes by are those of the database, of its user and target. */
  lemma {:induction false} AlwaysBacked(steps: seq<Step>)
    ensures AllBacked(Run(Initial, steps).calls, Run(Initial, steps).db)
  {
    hide Next, Sound, Placing, Backed;
    if |steps| > 0 {
      AlwaysBacked(steps[..|steps| - 1]);
      AlwaysPlacing(steps[..|steps| - 1]);
      StepBacked(Run(Initial, steps[..|steps| - 1]), steps[|steps| - 1]);
    }
  }

  // ----- exactly when a check lets a call go on

  /** The order is the user's, open at the broker, and has the status and the remaining quantity that were reviewed. */
  predicate StillCancellable(db: Db, user: string, o: Id, review: ActionReview) {
    && o in db.orders && db.orders[o].userId == user
    && (db.orders[o].state == OrderState.Acknowledged || db.orders[o].state == OrderState.PartiallyFilled)
    && db.orders[o].brokerStatus == review.terms.brokerStatus
    && review.terms.quantity == Some(db.orders[o].facts.leaves)
  }

  lemma CheckedOrderIff(s: System, c: Id)
    requires c in s.calls && s.calls[c].CancelWritten?
    ensures var call, after := s.calls[c], Moved(s, CheckOrder(c)).calls;
            var row := call.orderId in s.db.orders && s.db.orders[call.orderId].userId == call.user &&
                       Cancellable(s.db.orders[call.orderId], call.terms);
            && (row ==> c in after && after[c] == CancelReady(call.user, call.orderId, call.confirm))
            && (!row ==> c !in after)
  {
    hide MovedSubmission, MovedPositions, MovedAction, MovedAccount, MovedAlone, Cancellable;
  }

  /**
   In every run, the check of a cancel lets it start its action if and only if the row it has just refreshed is the
   user's, still open, and has exactly the broker status and the remaining quantity of the review it confirmed.
   */
  lemma CancelGoesOnIff(steps: seq<Step>, c: Id)
    requires c in Run(Initial, steps).calls && Run(Initial, steps).calls[c].CancelWritten?
    ensures var s := Run(Initial, steps);
            var call, after := s.calls[c], Next(s, CheckOrder(c)).calls;
            && call.confirm.reviewId in s.db.actionReviews
            && var review := s.db.actionReviews[call.confirm.reviewId];
               && review.userId == call.user && review.actionHash == call.confirm.actionHash
               && (if StillCancellable(s.db, call.user, call.orderId, review)
                   then c in after && after[c] == CancelReady(call.user, call.orderId, call.confirm)
                   else c !in after)
  {
    AlwaysBacked(steps);
    var s := Run(Initial, steps);
    hide Run, Moved, Apply;
    assert Backed(s.calls[c], s.db);
    CheckedOrderIff(s, c);
  }

  /** The position is open and is what was reviewed: same update, size and side. */
  predicate StillReviewed(position: Position, review: ActionReview) {
    && position.state == PositionState.Open
    && review.terms.targetSequence == Some(position.terms.sequence)
    && review.terms.quantity == Some(position.terms.size)
    && review.terms.side == Some(position.terms.side)
  }

  /** A new stop stays on the losing side of the mark price, a new target on the winning side, and one is given. */
  predicate Protects(position: Position, stop: Option<real>, target: Option<real>) {
    var mark := position.terms.markPrice;
    && !(stop == None && target == None)
    && (stop.Some? ==> if position.terms.side == Buy then stop.value < mark else stop.value > mark)
    && (target.Some? ==> if position.terms.side == Buy then target.value > mark else target.value < mark)
  }

  predicate StillManageable(db: Db, user: string, kind: ActionType, p: Id, review: ActionReview) {
    && p in db.positions && db.positions[p].userId == user && StillReviewed(db.positions[p], review)
    && (kind == ActionType.UpdateProtection ==>
          Protects(db.positions[p], review.terms.stopLoss, review.terms.takeProfit))
  }

  lemma ProtectsIff(position: Position, stop: Option<real>, target: Option<real>, terms: ActionTerms)
    ensures ValidProtection(position, stop, target) <==> Protects(position, stop, target)
  {
  }

  lemma CheckedPositionIff(s: System, c: Id)
    requires c in s.calls && s.calls[c].ManageWritten?
    ensures var call, after := s.calls[c], Moved(s, CheckPosition(c)).calls;
            var row := call.positionId in s.db.positions && s.db.positions[call.positionId].userId == call.user &&
                       Unchanged(s.db.positions[call.positionId], call.terms) &&
                       (call.kind == ActionType.UpdateProtection ==>
                          ValidProtection(s.db.positions[call.positionId], call.terms.stopLoss, call.terms.takeProfit));
            && (row ==> c in after && after[c] == ManageReady(call.user, call.kind, call.positionId, call.confirm))
            && (!row ==> c !in after)
  {
    hide MovedSubmission, MovedOrder, MovedAction, MovedAccount, MovedAlone, Unchanged, ValidProtection,
         ReplaceOpenPositions, ReplaceTxn;
  }

  /**
   In every run, the check of a close or a protection change lets it start its action if and only if the row it has
   just refreshed is the user's open position, unchanged since the review it confirmed, and the reviewed protection
   stands on the protective sides of the mark price.
   */
  lemma ManageGoesOnIff(steps: seq<Step>, c: Id)
    requires c in Run(Initial, steps).calls && Run(Initial, steps).calls[c].ManageWritten?
    ensures var s := Run(Initial, steps);
            var call, after := s.calls[c], Next(s, CheckPosition(c)).calls;
            && call.confirm.reviewId in s.db.actionReviews
            && var review := s.db.actionReviews[call.confirm.reviewId];
               && review.userId == call.user && review.actionHash == call.confirm.actionHash
               && (if StillManageable(s.db, call.user, call.kind, call.positionId, review)
                   then c in after && after[c] == ManageReady(call.user, call.kind, call.positionId, call.confirm)
                   else c !in after)
  {
    AlwaysBacked(steps);
    var s := Run(Initial, steps);
    hide Run, Moved, Apply, ValidProtection, Protects;
    assert Backed(s.calls[c], s.db);
    CheckedPositionIff(s, c);
    var call := s.calls[c];
    if call.positionId in s.db.positions {
      ProtectsIff(s.db.positions[call.positionId], call.terms.stopLoss, call.terms.takeProfit, call.terms);
    }
  }

  /** The submission's account: the user's, healthy, active, with a key, in the environment of the proposal. */
  predicate OnItsAccount(db: Db, user: string, proposal: TradeProposal) {
    var conn := proposal.connectionId;
    && conn in db.connections && db.connections[conn].userId == user
    && db.connections[conn].status == ConnectionStatus.Healthy && db.connections[conn].hasCredential
    && db.connections[conn].environment == proposal.environment
    && user in db.contexts && db.contexts[user].connectionId == conn
  }

  lemma FetchedAccountIff(s: System, c: Id, permitted: bool, snapshots: seq<PositionSnapshot>, now: Time)
    requires c in s.calls && s.calls[c].SubmitLoaded?
    ensures var call, after := s.calls[c], Moved(s, FetchAccount(c, permitted, snapshots, now)).calls;
            var proposal := call.proposal;
            if permitted && proposal.status == ProposalStatus.Available && now < proposal.expiresAt &&
               proposal.fingerprint.Some? && OnItsAccount(s.db, call.user, proposal)
            then c in after && after[c] == SubmitFetched(call.user, call.pid, call.input, proposal, snapshots, now)
            else c !in after
  {
    hide MovedOrder, MovedPositions, MovedAction, MovedAccount, MovedAlone;
  }

  /**
   In every run, a submission comes to fetch its account if and only if its proposal, as its row fixes it, was
   available when loaded, is unexpired, was sized against a portfolio, and is made for the user's healthy active
   account, in its environment and with a key.
   */
  lemma PreflightGoesOnIff(steps: seq<Step>, c: Id, permitted: bool, snapshots: seq<PositionSnapshot>, now: Time)
    requires c in Run(Initial, steps).calls && Run(Initial, steps).calls[c].SubmitLoaded?
    ensures var s := Run(Initial, steps);
            var call, after := s.calls[c], Next(s, FetchAccount(c, permitted, snapshots, now)).calls;
            && call.pid in s.db.proposals && s.db.proposals[call.pid].userId == call.user
            && var row := s.db.proposals[call.pid].payload;
               && (if permitted && call.proposal.status == ProposalStatus.Available && now < row.expiresAt &&
                      row.fingerprint.Some? && OnItsAccount(s.db, call.user, row)
                   then c in after &&
                        after[c] == SubmitFetched(call.user, call.pid, call.input, call.proposal, snapshots, now)
                   else c !in after)
  {
    AlwaysBacked(steps);
    var s := Run(Initial, steps);
    hide Run, Moved, Apply;
    assert Backed(s.calls[c], s.db);
    FetchedAccountIff(s, c, permitted, snapshots, now);
  }

  /** A submission opens unless its user has an order under its key, and goes on with their own proposal only. */
  lemma SubmitOpensIff(s: System, c: Id, user: string, pid: Id, input: SubmitInput)
    requires c !in s.calls
    ensures c in Next(s, OpenSubmit(c, user, pid, input)).calls <==>
            forall o :: o in s.db.orders && s.db.orders[o].userId == user ==>
              s.db.orders[o].idempotencyKey != input.idempotencyKey
  {
    hide MovedOrder, MovedPositions, MovedAction, MovedAccount, MovedAlone, Apply;
  }

  lemma LoadGoesOnIff(s: System, c: Id)
    requires c in s.calls && s.calls[c].SubmitOpened?
    ensures var call, after := s.calls[c], Next(s, LoadProposal(c)).calls;
            if call.pid in s.db.proposals && s.db.proposals[call.pid].userId == call.user
            then c in after &&
                 after[c] == SubmitLoaded(call.user, call.pid, call.input, s.db.proposals[call.pid].payload)
            else c !in after
  {
    hide MovedOrder, MovedPositions, MovedAction, MovedAccount, MovedAlone, Apply;
  }

  /** The portfolio check lets a submission go on only when everything else permits it and positions were written. */
  lemma PortfolioGoesOnIff(s: System, c: Id, rows: seq<Id>, permitted: bool)
    requires c in s.calls && s.calls[c].SubmitWritten?
    ensures var call, after := s.calls[c], Next(s, CheckPortfolio(c, rows, permitted)).calls;
            var conn := call.proposal.connectionId;
            if permitted && conn in s.db.checkpoints && OpenRows(s.db.positions, call.user, conn, rows) &&
               call.proposal.fingerprint == Some(Fingerprints.Fingerprint(RowsRead(s.db.positions, rows)))
            then c in after && after[c] == SubmitReady(call.user, call.pid, call.input)
            else c !in after
  {
    hide MovedOrder, MovedPositions, MovedAction, MovedAccount, MovedAlone, Apply, OpenRows, Fingerprints.Fingerprint;
  }

  /** Only a linear order sets its leverage first, and only then can that fail: refused, or unknown. */
  lemma LeverageFailsIff(s: System, c: Id, code: string)
    requires c in s.calls && s.calls[c].SubmitBegun?
    ensures var call, refused, lost := s.calls[c], Next(s, RefuseLeverage(c, code)), Next(s, LoseLeverage(c));
            if call.proposal.category == Linear
            then
              && refused.calls == s.calls[c := SubmitAnswered(call.orderId, Refused(code))]
              && refused.refused == s.refused + {call.orderId}
              && lost.calls == s.calls[c := SubmitAnswered(call.orderId, Lost)] && lost.refused == s.refused
            else refused.calls == s.calls && refused.refused == s.refused && lost.calls == s.calls &&
                 lost.refused == s.refused
  {
    hide MovedOrder, MovedPositions, MovedAction, MovedAccount, MovedAlone, Apply;
  }

  /** A cancel goes on with the broker's record of its order, a change of a position with its user's row only. */
  lemma FetchesGoOnIff(s: System, c: Id, snapshots: seq<PositionSnapshot>)
    requires c in s.calls
    ensures s.calls[c].CancelOpened? ==>
              var call, after := s.calls[c], Next(s, FetchOrder(c)).calls;
              if call.orderId in s.broker
              then c in after && after[c] == CancelFetched(call.user, call.orderId, call.confirm, call.terms,
                                                           s.broker[call.orderId])
              else c !in after
    ensures s.calls[c].ManageOpened? ==>
              var call, after := s.calls[c], Next(s, FetchPositions(c, snapshots)).calls;
              if call.positionId in s.db.positions && s.db.positions[call.positionId].userId == call.user
              then c in after && after[c] == ManageFetched(call.user, call.kind, call.positionId, call.confirm,
                                                           call.terms, s.db.positions[call.positionId], snapshots)
              else c !in after
  {
    hide MovedSubmission, MovedAction, MovedAccount, MovedAlone, Apply;
  }

  // ----- the ends of a confirmed request

  /** The review the user confirms is theirs, unexpired, for this target and kind, and has the confirmed hash. */
  predicate ReviewConfirmed(db: Db, user: string, kind: ActionType, target: Id, confirm: ConfirmInput, now: Time) {
    && confirm.reviewId in db.actionReviews
    && var review := db.actionReviews[confirm.reviewId];
       && review.userId == user && review.actionHash == confirm.actionHash && now < review.expiresAt
       && review.terms.targetId == target && review.terms.actionType == kind
  }

  /** The step by which a user confirms an action of this kind. */
  function OpenStep(c: Id, user: string, kind: ActionType, target: Id, confirm: ConfirmInput, now: Time): Step {
    if kind == ActionType.CancelOrder then OpenCancel(c, user, target, confirm, now)
    else OpenManage(c, user, kind, target, confirm, now)
  }

  /**
   A confirmed request opens if and only if the user has not used its key, confirms an unexpired review of theirs for
   this kind, target and hash, and, to cancel, owns the order.
   */
  lemma ConfirmOpensIff(s: System, c: Id, user: string, kind: ActionType, target: Id, confirm: ConfirmInput, now: Time)
    requires c !in s.calls
    ensures c in Next(s, OpenStep(c, user, kind, target, confirm, now)).calls <==>
            && (forall a :: a in s.db.actions && s.db.actions[a].userId == user ==>
                  s.db.actions[a].idempotencyKey != confirm.idempotencyKey)
            && ReviewConfirmed(s.db, user, kind, target, confirm, now)
            && (kind == ActionType.CancelOrder ==> target in s.db.orders && s.db.orders[target].userId == user)
  {
    ConfirmedIff(s.db, user, kind, target, confirm, now);
    if kind == ActionType.CancelOrder {
      CancelOpens(s, c, user, target, confirm, now);
    } else {
      ManageOpens(s, c, user, kind, target, confirm, now);
    }
    hide Moved, Apply, Confirmed, ReviewConfirmed;
  }

  lemma ConfirmedIff(db: Db, user: string, kind: ActionType, target: Id, confirm: ConfirmInput, now: Time)
    ensures Confirmed(db, user, kind, target, confirm, now) <==> ReviewConfirmed(db, user, kind, target, confirm, now)
  {
  }

  lemma CancelOpens(s: System, c: Id, user: string, target: Id, confirm: ConfirmInput, now: Time)
    requires c !in s.calls
    ensures c in Moved(s, OpenCancel(c, user, target, confirm, now)).calls <==>
            !ActionKeyTaken(s.db, user, confirm.idempotencyKey) &&
              Confirmed(s.db, user, ActionType.CancelOrder, target, confirm, now) &&
              target in s.db.orders && s.db.orders[target].userId == user
  {
    hide MovedSubmission, MovedPositions, MovedAction, MovedAccount, MovedAlone, Confirmed, ActionKeyTaken;
  }

  lemma ManageOpens(s: System, c: Id, user: string, kind: ActionType, target: Id, confirm: ConfirmInput, now: Time)
    requires c !in s.calls && kind != ActionType.CancelOrder
    ensures c in Moved(s, OpenManage(c, user, kind, target, confirm, now)).calls <==>
            !ActionKeyTaken(s.db, user, confirm.idempotencyKey) && Confirmed(s.db, user, kind, target, confirm, now)
  {
    hide MovedSubmission, MovedOrder, MovedAction, MovedAccount, MovedAlone, Confirmed, ActionKeyTaken;
  }

  /** Marking an action writes the verdict of its broker call, and keeps a broker id it was not told again. */
  lemma MarksVerdict(s: System, c: Id, now: Time)
    requires c in s.calls && s.calls[c].ActionAnswered? && s.calls[c].actionId in s.db.actions
    ensures var call, after := s.calls[c], Next(s, RecordAction(c, now)).db.actions;
            var before := s.db.actions[call.actionId];
            && after.Keys == s.db.actions.Keys
            && (forall other :: other in s.db.actions && other != call.actionId ==>
                  after[other] == s.db.actions[other])
            && after[call.actionId] ==
               before.(state := call.verdict, updatedAt := now, errorCode := call.errorCode,
                       brokerOrderId := if call.brokerOrderId == None then before.brokerOrderId
                                        else call.brokerOrderId)
  {
    hide Moved;
    SetActionIs(s.db, TxnOf(s, RecordAction(c, now)));
    hide Apply;
  }

  lemma SetActionIs(db: Db, txn: Txn)
    requires txn.SetAction?
    ensures Apply(db, txn) ==
            After(db, MarkAction(db, txn.actionId, txn.verdict, txn.brokerOrderId, txn.errorCode, txn.now))
  {
    hide MarkAction;
  }
}
