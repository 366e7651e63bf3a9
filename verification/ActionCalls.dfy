/**
 The broker call of an action is made at most once: only the call that started an action makes it, and
 never again.
 */
module ActionCalls {
  import opened Common
  import opened ExecutionDomain
  import opened Transactions
  import opened Ledger
  import opened Interleaving
  import opened CallMoves
  import opened Submissions
  import opened PendingActions

  /** Some call is about to make, or is making, the broker call of the action. */
  ghost predicate Calling(calls: map<Id, Call>, a: Id) {
    exists c :: c in calls && calls[c] == ActionSent(a)
  }

  /** No step brings the broker call of an existing action back. */
  lemma StepCallsNoMore(s: System, e: Step, a: Id)
    requires Sound(s.db) && Acting(s.calls, s.db.actions) && a in s.db.actions && !Calling(s.calls, a)
    ensures !Calling(Next(s, e).calls, a)
  {
    hide Sound, Next, OnePending, Moved, OneTurn;
    if e.StartAction? {
      StartCallsNoMore(s, e.c, e.now, a);
    } else if e.RecordAction? {
      NextParts(s, e);
      StepTurns(s, e);
      RecordStarts(s.calls, e, Moved(s, e).calls);
    } else {
      StepsRun(s, e);
      NextParts(s, e);
    }
  }

  /** Marking an action starts no call. */
  lemma RecordStarts(before: map<Id, Call>, e: Step, after: map<Id, Call>)
    requires OneTurn(before, e, after) && e.RecordAction?
    ensures forall c :: c in after ==> c in before && after[c] == before[c]
  {
    forall c | c in after ensures c in before && after[c] == before[c] {
      assert At(after, c) == Some(after[c]);
    }
  }

  lemma StartCallsNoMore(s: System, c: Id, now: Time, a: Id)
    requires Sound(s.db) && Acting(s.calls, s.db.actions) && a in s.db.actions && !Calling(s.calls, a)
    ensures !Calling(Next(s, StartAction(c, now)).calls, a)
  {
    hide Sound, Next, Calling, BeginAction, OnePending, ActionAdded;
    if c in s.calls && ReadyToAct(s.calls[c]) {
      var txn := ActTxn(s.calls[c], now);
      StartedCalls(s, c, now);
      var outcome := BeginAction(s.db, txn.user, txn.actionType, txn.target, txn.confirm, now);
      if outcome.Ok? { StartedAlone(s.db, txn.user, txn.actionType, txn.target, txn.confirm, now); }
      if outcome.Ok? && outcome.value.1.isNew {
        OtherStarted(s.calls, c, outcome.value.1.actionId, a);
      } else {
        CallEnded(s.calls, c, a);
      }
    } else {
      NextParts(s, StartAction(c, now));
    }
  }

  lemma OtherStarted(calls: map<Id, Call>, c: Id, started: Id, a: Id)
    requires started != a && !Calling(calls, a)
    ensures !Calling(calls[c := ActionSent(started)], a)
  {
  }

  lemma CallEnded(calls: map<Id, Call>, c: Id, a: Id)
    requires !Calling(calls, a)
    ensures !Calling(calls - {c}, a)
  {
  }

  /** Once no call is making it, the broker call of an action is not made again, in any continuation. */
  lemma {:induction false} NeverCalledAgain(steps: seq<Step>, more: seq<Step>, a: Id)
    requires var s := Run(Initial, steps); a in s.db.actions && !Calling(s.calls, a)
    ensures !Calling(Run(Initial, steps + more).calls, a) && a in Run(Initial, steps + more).db.actions
  {
    hide Next, Sound, Placing, Acting, Calling;
    if |more| == 0 {
      assert steps + more == steps;
    } else {
      var init := more[..|more| - 1];
      NeverCalledAgain(steps, init, a);
      assert (steps + more)[..|steps + more| - 1] == steps + init;
      AlwaysPlacing(steps + init);
      AlwaysActing(steps + init);
      StepCallsNoMore(Run(Initial, steps + init), more[|more| - 1], a);
      ActionStays(Run(Initial, steps + init), more[|more| - 1], a);
    }
  }

  lemma ActionStays(s: System, e: Step, a: Id)
    requires Sound(s.db) && a in s.db.actions
    ensures a in Next(s, e).db.actions
  {
    hide Next, Sound, History.Grows;
    RunsGrow(s, [e]);
    RunOne(s, e);
    GrowsKeepsAction(s.db, Next(s, e).db, a);
  }

  lemma GrowsKeepsAction(before: Db, after: Db, a: Id)
    requires History.Grows(before, after) && a in before.actions
    ensures a in after.actions
  {
  }

  // ----- the broker calls a run makes

  /** The action whose broker call starts in this step, whether or not it ever comes back. */
  ghost function MakesCall(s: System, e: Step): Option<Id> {
    if e.StartAction? && e.c in s.calls && ReadyToAct(s.calls[e.c]) && e.c in Next(s, e).calls &&
       Next(s, e).calls[e.c].ActionSent?
    then Some(Next(s, e).calls[e.c].actionId) else None
  }

  ghost function CallsMade(steps: seq<Step>): seq<Id> {
    if |steps| == 0 then []
    else
      var init, e := steps[..|steps| - 1], steps[|steps| - 1];
      var made := MakesCall(Run(Initial, init), e);
      if made.Some? then CallsMade(init) + [made.value] else CallsMade(init)
  }

  ghost predicate AllMade(actions: map<Id, Action>, made: seq<Id>) {
    Distinct(made) && forall i :: 0 <= i < |made| ==> made[i] in actions
  }

  /** The call is made for an action that did not exist before. */
  lemma MakesNew(s: System, e: Step)
    requires Sound(s.db) && Acting(s.calls, s.db.actions)
    ensures MakesCall(s, e).Some? ==>
              MakesCall(s, e).value !in s.db.actions && MakesCall(s, e).value in Next(s, e).db.actions
  {
    hide Sound, Next, CallsOpen, OneRunner, OnePending, BeginAction;
    if MakesCall(s, e).Some? {
      var txn := ActTxn(s.calls[e.c], e.now);
      StartedCalls(s, e.c, e.now);
      var outcome := BeginAction(s.db, txn.user, txn.actionType, txn.target, txn.confirm, e.now);
      assert e.c !in s.calls - {e.c};
      StartedAlone(s.db, txn.user, txn.actionType, txn.target, txn.confirm, e.now);
    }
  }

  lemma {:induction false} AlwaysMade(steps: seq<Step>)
    ensures AllMade(Run(Initial, steps).db.actions, CallsMade(steps))
  {
    hide Next, Sound, Acting, Placing, MakesCall;
    if |steps| == 0 {
    } else {
      var init, e := steps[..|steps| - 1], steps[|steps| - 1];
      var s := Run(Initial, init);
      AlwaysMade(init);
      AlwaysPlacing(init);
      AlwaysActing(init);
      forall i | 0 <= i < |CallsMade(init)| ensures CallsMade(init)[i] in Next(s, e).db.actions {
        ActionStays(s, e, CallsMade(init)[i]);
      }
      MakesNew(s, e);
    }
  }

  /** In every run the broker call of an action is made at most once, whether it comes back or not. */
  lemma MadeAtMostOnce(steps: seq<Step>, i: nat, j: nat)
    requires i < |CallsMade(steps)| && j < |CallsMade(steps)| && i != j
    ensures CallsMade(steps)[i] != CallsMade(steps)[j]
  {
    AlwaysMade(steps);
    hide CallsMade, Run;
  }

  // ----- the broker calls of a run that come back

  /** The action whose broker call comes back in this step. */
  function CallsBroker(s: System, e: Step): Option<Id> {
    if e.AnswerAction? && e.c in s.calls && s.calls[e.c].ActionSent? && Verdict(e.verdict)
    then Some(s.calls[e.c].actionId) else None
  }

  ghost function BrokerCalls(steps: seq<Step>): seq<Id> {
    if |steps| == 0 then []
    else
      var init, e := steps[..|steps| - 1], steps[|steps| - 1];
      var called := CallsBroker(Run(Initial, init), e);
      if called.Some? then BrokerCalls(init) + [called.value] else BrokerCalls(init)
  }

  /** Every action called so far exists, and no call is making its broker call any more. */
  ghost predicate AllOver(s: System, called: seq<Id>) {
    && (forall i :: 0 <= i < |called| ==> called[i] in s.db.actions && !Calling(s.calls, called[i]))
    && Distinct(called)
  }

  lemma AnsweredCalls(s: System, e: Step)
    requires CallsBroker(s, e).Some?
    ensures Moved(s, e).calls ==
            s.calls[e.c := ActionAnswered(CallsBroker(s, e).value, e.verdict, e.brokerOrderId, e.errorCode)]
  {
    hide MovedSubmission, MovedOrder, MovedPositions, MovedAlone;
  }

  lemma OnlyRunnerAnswered(calls: map<Id, Call>, c: Id, a: Id, answered: Call)
    requires OneRunner(calls) && c in calls && calls[c] == ActionSent(a) && answered.ActionAnswered?
    ensures Calling(calls, a) && !Calling(calls[c := answered], a)
  {
  }

  lemma CallEnds(s: System, e: Step)
    requires Acting(s.calls, s.db.actions) && CallsBroker(s, e).Some?
    ensures var a := CallsBroker(s, e).value; a in s.db.actions && Calling(s.calls, a) && !Calling(Next(s, e).calls, a)
  {
    assert RunsOpen(s.calls[e.c], s.db.actions);
    NextParts(s, e);
    AnsweredCalls(s, e);
    hide Next, Moved, OneRunner, OnePending, CallsOpen, Calling;
    OnlyRunnerAnswered(s.calls, e.c, CallsBroker(s, e).value, Moved(s, e).calls[e.c]);
  }

  lemma StepOver(s: System, e: Step, called: seq<Id>)
    requires Sound(s.db) && Acting(s.calls, s.db.actions) && AllOver(s, called)
    ensures AllOver(Next(s, e), if CallsBroker(s, e).Some? then called + [CallsBroker(s, e).value] else called)
  {
    hide Sound, Acting, Next, Calling, CallsBroker;
    forall i | 0 <= i < |called| ensures called[i] in Next(s, e).db.actions && !Calling(Next(s, e).calls, called[i]) {
      StepCallsNoMore(s, e, called[i]);
      ActionStays(s, e, called[i]);
    }
    if CallsBroker(s, e).Some? {
      CallEnds(s, e);
      ActionStays(s, e, CallsBroker(s, e).value);
    }
  }

  lemma {:induction false} AlwaysOver(steps: seq<Step>)
    ensures AllOver(Run(Initial, steps), BrokerCalls(steps))
  {
    hide Next, Sound, Acting, Placing, CallsBroker;
    if |steps| == 0 {
    } else {
      var init := steps[..|steps| - 1];
      AlwaysOver(init);
      AlwaysPlacing(init);
      AlwaysActing(init);
      StepOver(Run(Initial, init), steps[|steps| - 1], BrokerCalls(init));
    }
  }

  /** In every run the broker call of an action comes back at most once. */
  lemma CalledAtMostOnce(steps: seq<Step>, i: nat, j: nat)
    requires i < |BrokerCalls(steps)| && j < |BrokerCalls(steps)| && i != j
    ensures BrokerCalls(steps)[i] != BrokerCalls(steps)[j]
  {
    AlwaysOver(steps);
    hide BrokerCalls, Run;
  }
}
