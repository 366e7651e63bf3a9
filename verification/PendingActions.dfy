/**
 Actions on orders and positions: at most one per target is in flight, each is marked exactly once by the
 call that started it, finished actions never change, and only matching broker evidence completes one.
 */
module PendingActions {
  import opened Common
  import opened ExecutionDomain
  import opened Transactions
  import opened Ledger
  import opened History
  import opened Interleaving
  import opened CallMoves
  import opened Submissions

  /** The action a call has started and will mark. */
  function Runs(call: Call): Option<Id> {
    match call
    case ActionSent(a) => Some(a)
    case ActionAnswered(a, _, _, _) => Some(a)
    case _ => None
  }

  /** The call's action is still submitting, and the answer it carries is one a broker call can give. */
  predicate RunsOpen(call: Call, actions: map<Id, Action>) {
    && (Runs(call).Some? ==> Runs(call).value in actions && actions[Runs(call).value].state == ActionState.Submitting)
    && (call.ActionAnswered? ==> Verdict(call.verdict))
  }

  ghost predicate CallsOpen(calls: map<Id, Call>, actions: map<Id, Action>) {
    forall c :: c in calls ==> RunsOpen(calls[c], actions)
  }

  ghost predicate OneRunner(calls: map<Id, Call>) {
    forall c1, c2 :: c1 in calls && c2 in calls && c1 != c2 && Runs(calls[c1]).Some? ==>
      Runs(calls[c1]) != Runs(calls[c2])
  }

  ghost predicate OnePending(actions: map<Id, Action>) {
    forall a1, a2 ::
      a1 in actions && a2 in actions && a1 != a2 && InFlight(actions[a1].state) && InFlight(actions[a2].state) ==>
      actions[a1].targetId != actions[a2].targetId
  }

  ghost predicate Acting(calls: map<Id, Call>, actions: map<Id, Action>) {
    CallsOpen(calls, actions) && OneRunner(calls) && OnePending(actions)
  }

  // ----- how calls move

  /** Calls that run actions only go on running them, never back to before their broker call. */
  ghost predicate RunnersContinue(before: map<Id, Call>, after: map<Id, Call>) {
    forall c :: c in after && Runs(after[c]).Some? ==>
      && c in before && Runs(before[c]) == Runs(after[c])
      && (after[c].ActionAnswered? ==> Verdict(after[c].verdict))
      && (after[c].ActionSent? ==> before[c].ActionSent?)
  }

  /** One turn: a call that runs an action afterwards ran it before. */
  lemma CallRuns(before: Option<Call>, e: Step, after: Option<Call>)
    requires Turns(before, e, after) && !e.StartAction? && !e.RecordAction? && after.Some? && Runs(after.value).Some?
    ensures before.Some? && before.value.ActionSent? && after.value.ActionAnswered?
    ensures after.value.actionId == before.value.actionId && Verdict(after.value.verdict)
  {
  }

  lemma TurnRuns(before: map<Id, Call>, e: Step, after: map<Id, Call>, actions: map<Id, Action>)
    requires OneTurn(before, e, after) && !e.StartAction? && !e.RecordAction? && CallsOpen(before, actions)
    ensures RunnersContinue(before, after)
  {
    hide Turns;
    forall c | c in after && Runs(after[c]).Some?
      ensures c in before && Runs(before[c]) == Runs(after[c])
      ensures after[c].ActionAnswered? ==> Verdict(after[c].verdict)
      ensures after[c].ActionSent? ==> before[c].ActionSent?
    {
      assert At(after, c) == Some(after[c]);
      if At(before, c) != At(after, c) {
        CallRuns(At(before, c), e, At(after, c));
      } else {
        assert RunsOpen(before[c], actions);
      }
    }
  }

  lemma StepsRun(s: System, e: Step)
    requires !e.StartAction? && !e.RecordAction?
    requires CallsOpen(s.calls, s.db.actions)
    ensures RunnersContinue(s.calls, Moved(s, e).calls)
  {
    hide RunnersContinue, Moved, CallsOpen, OneTurn;
    StepTurns(s, e);
    TurnRuns(s.calls, e, Moved(s, e).calls, s.db.actions);
  }

  // ----- how actions move

  lemma AdvanceSelf(actions: map<Id, Action>)
    ensures ActionsAdvance(actions, actions)
  {
  }

  /** Transactions other than starting and marking an action at most complete actions that awaited evidence. */
  lemma TxnAdvances(db: Db, txn: Txn)
    requires Sound(db) && !txn.Act? && !txn.SetAction?
    ensures ActionsAdvance(db.actions, Apply(db, txn).actions)
  {
    AdvanceSelf(db.actions);
    hide Sound, ActionsAdvance, BeginSubmission, Grows, RowsMoved;
    match txn
    case Begin(user, pid, input, now) => BeginLeavesActions(db, user, pid, input, now);
    case Reconcile(orderId, snapshot, state, now) => ReconcileMoves(db, orderId, snapshot, state, now);
    case Replace(user, conn, environment, snapshots, now) => ReplaceMoves(db, user, conn, environment, snapshots, now);
    case _ => OthersLeaveActions(db, txn);
  }

  /** Only five transactions touch the action table. */
  lemma OthersLeaveActions(db: Db, txn: Txn)
    requires !txn.Act? && !txn.SetAction? && !txn.Begin? && !txn.Reconcile? && !txn.Replace?
    ensures Apply(db, txn).actions == db.actions
  {
  }

  lemma BeginLeavesActions(db: Db, user: string, pid: Id, input: SubmitInput, now: Time)
    ensures After(db, BeginSubmission(db, user, pid, input, now)).actions == db.actions
  {
  }

  lemma ContinueActing(before: map<Id, Call>, after: map<Id, Call>, actions: map<Id, Action>, advanced: map<Id, Action>)
    requires Acting(before, actions) && RunnersContinue(before, after) && ActionsAdvance(actions, advanced)
    ensures Acting(after, advanced)
  {
  }

  // ----- starting an action

  /** Two actions on one target belong to its one owner, so the owner's pending check covers the target. */
  lemma TargetFree(db: Db, user: string, actionType: ActionType, target: Id)
    requires Sound(db) && OwnsTarget(db, user, actionType, target) && !ActionAwaited(db, user, target)
    ensures forall a :: a in db.actions && InFlight(db.actions[a].state) ==> db.actions[a].targetId != target
  {
  }

  lemma StartedCalls(s: System, c: Id, now: Time)
    requires c in s.calls && ReadyToAct(s.calls[c])
    ensures var txn := ActTxn(s.calls[c], now);
            var outcome := BeginAction(s.db, txn.user, txn.actionType, txn.target, txn.confirm, now);
            var after := Next(s, StartAction(c, now));
            && after.db == After(s.db, outcome)
            && after.calls == if outcome.Ok? && outcome.value.1.isNew
                              then s.calls[c := ActionSent(outcome.value.1.actionId)] else s.calls - {c}
  {
    hide BeginAction;
  }

  /** A started action is new, submitting, and the only pending one on its target. */
  lemma StartedAlone(db: Db, user: string, actionType: ActionType, target: Id, input: ConfirmInput, now: Time)
    requires Sound(db) && OnePending(db.actions)
    requires BeginAction(db, user, actionType, target, input, now).Ok?
    ensures var outcome := BeginAction(db, user, actionType, target, input, now);
            var actions := After(db, outcome).actions;
            if outcome.value.1.isNew
            then outcome.value.1.actionId !in db.actions && OnePending(actions) &&
              ActionAdded(db.actions, actions, outcome.value.1.actionId)
            else actions == db.actions
  {
    hide SubmissionsSound, PositionsUnique, ActionsSound;
    if !ActionKeyTaken(db, user, input.idempotencyKey) &&
       ActionRefusal(db, user, actionType, target, input, now).None? {
      TargetFree(db, user, actionType, target);
    }
  }

  /** One submitting action was added and the others are as they were. */
  predicate ActionAdded(before: map<Id, Action>, after: map<Id, Action>, a: Id) {
    a in after && after[a].state == ActionState.Submitting && after == before[a := after[a]]
  }

  lemma AddActing(calls: map<Id, Call>, actions: map<Id, Action>, after: map<Id, Action>, c: Id, a: Id)
    requires Acting(calls, actions) && a !in actions && ActionAdded(actions, after, a) && OnePending(after)
    ensures Acting(calls[c := ActionSent(a)], after)
  {
  }

  lemma EndActing(calls: map<Id, Call>, actions: map<Id, Action>, c: Id)
    requires Acting(calls, actions)
    ensures Acting(calls - {c}, actions)
  {
  }

  lemma StartActing(s: System, c: Id, now: Time)
    requires Sound(s.db) && Acting(s.calls, s.db.actions)
    ensures Acting(Next(s, StartAction(c, now)).calls, Next(s, StartAction(c, now)).db.actions)
  {
    if c in s.calls && ReadyToAct(s.calls[c]) {
      var txn := ActTxn(s.calls[c], now);
      var outcome := BeginAction(s.db, txn.user, txn.actionType, txn.target, txn.confirm, now);
      StartedCalls(s, c, now);
      if outcome.Ok? { StartedAlone(s.db, txn.user, txn.actionType, txn.target, txn.confirm, now); }
      hide Sound, Next, BeginAction, CallsOpen, OneRunner, OnePending, ActionAdded;
      if outcome.Ok? && outcome.value.1.isNew {
        AddActing(s.calls, s.db.actions, After(s.db, outcome).actions, c, outcome.value.1.actionId);
      } else {
        EndActing(s.calls, s.db.actions, c);
      }
    }
  }

  // ----- marking an action

  /** The one mark a call makes finds the action submitting and leaves a broker verdict. */
  predicate Marked(before: Action, after: Action) {
    && before.state == ActionState.Submitting
    && Verdict(after.state)
    && SameAction(before, after)
  }

  lemma MarkActing(calls: map<Id, Call>, actions: map<Id, Action>, c: Id, after: map<Id, Action>)
    requires Acting(calls, actions) && c in calls && calls[c].ActionAnswered?
    requires var a := calls[c].actionId; a in after && after == actions[a := after[a]] && Marked(actions[a], after[a])
    ensures Acting(calls - {c}, after)
  {
  }

  lemma RecordMarks(s: System, c: Id, now: Time)
    requires c in s.calls && s.calls[c].ActionAnswered? && CallsOpen(s.calls, s.db.actions)
    ensures var after := Next(s, RecordAction(c, now));
            var a := s.calls[c].actionId;
            && after.calls == s.calls - {c}
            && a in s.db.actions && a in after.db.actions
            && after.db.actions == s.db.actions[a := after.db.actions[a]]
            && Marked(s.db.actions[a], after.db.actions[a])
            && after.db.actions[a].state == s.calls[c].verdict
  {
    assert RunsOpen(s.calls[c], s.db.actions);
  }

  lemma RecordActing(s: System, c: Id, now: Time)
    requires Acting(s.calls, s.db.actions)
    ensures Acting(Next(s, RecordAction(c, now)).calls, Next(s, RecordAction(c, now)).db.actions)
  {
    if c in s.calls && s.calls[c].ActionAnswered? {
      RecordMarks(s, c, now);
      hide Next, CallsOpen, OneRunner, OnePending, Marked;
      MarkActing(s.calls, s.db.actions, c, Next(s, RecordAction(c, now)).db.actions);
    }
  }

  // ----- every step

  lemma OtherActing(s: System, e: Step)
    requires Sound(s.db) && Acting(s.calls, s.db.actions) && !e.StartAction? && !e.RecordAction?
    ensures Acting(Next(s, e).calls, Next(s, e).db.actions)
    ensures ActionsAdvance(s.db.actions, Next(s, e).db.actions)
  {
    hide Sound, Apply, Moved, RunnersContinue, ActionsAdvance;
    StepsRun(s, e);
    assert !TxnOf(s, e).Act? && !TxnOf(s, e).SetAction? by { hide Acting; OtherTxn(s, e); }
    TxnAdvances(s.db, TxnOf(s, e));
    ContinueActing(s.calls, Next(s, e).calls, s.db.actions, Next(s, e).db.actions);
  }

  lemma OtherTxn(s: System, e: Step)
    requires !e.StartAction? && !e.RecordAction?
    ensures !TxnOf(s, e).Act? && !TxnOf(s, e).SetAction?
  {
    hide Clip;
  }

  lemma StepActing(s: System, e: Step)
    requires Sound(s.db) && Acting(s.calls, s.db.actions)
    ensures Acting(Next(s, e).calls, Next(s, e).db.actions)
  {
    hide Sound, Next, Acting;
    match e
    case StartAction(c, now) => StartActing(s, c, now);
    case RecordAction(c, now) => RecordActing(s, c, now);
    case _ => OtherActing(s, e);
  }

  /** In every run, at most one action per target is in flight, and each started action has one call to mark it. */
  lemma {:induction false} AlwaysActing(steps: seq<Step>)
    ensures var s := Run(Initial, steps); Acting(s.calls, s.db.actions)
  {
    hide Next, Sound, Placing, Acting;
    if |steps| > 0 {
      AlwaysActing(steps[..|steps| - 1]);
      AlwaysPlacing(steps[..|steps| - 1]);
      StepActing(Run(Initial, steps[..|steps| - 1]), steps[|steps| - 1]);
    } else {
      InitiallyActing();
    }
  }

  lemma InitiallyActing()
    ensures Acting(Initial.calls, Initial.db.actions)
  {
  }

  lemma OnePendingPerTarget(steps: seq<Step>, a1: Id, a2: Id)
    requires var actions := Run(Initial, steps).db.actions;
             && a1 in actions && a2 in actions && InFlight(actions[a1].state) && InFlight(actions[a2].state)
             && actions[a1].targetId == actions[a2].targetId
    ensures a1 == a2
  {
    hide Run;
    AlwaysActing(steps);
  }
}
