/**
 Requesters and workers over one analysis queue, in any interleaving. A request is looked up, inserted
 and perhaps looked up again in separate transactions; a worker claims, analyses, and then completes or
 fails its claim, while leases expire and other workers claim the same requests again.
 */
module AnalysisWorkers {
  import opened Common
  import opened AnalysisQueue

  /**
   A request being made: nothing active was seen, or an insert lost against `blocker`, or it was answered
   (`None`: it raised).
   */
  datatype Requester =
    | Inserting(user: string, environment: Environment, requestedAt: Time)
    | Rereading(user: string, environment: Environment, blocker: Id)
    | Answered(user: string, environment: Environment, answer: Option<Id>)

  /** A worker iteration. `Gone` stands for a process that died or whose own failure report failed. */
  datatype Worker =
    | Analysing(claimed: seq<Id>)
    | Analysed(claimed: seq<Id>, scanId: Id)
    | Failing(claimed: seq<Id>)
    | Ended(claimed: seq<Id>)
    | Gone

  datatype System = System(rows: map<Id, Request>, nextId: Id, now: Time, requesters: map<Id, Requester>,
                           workers: map<Id, Worker>)

  const Empty := System(map[], 0, 0, map[], map[])

  datatype Step =
    | Tick(later: Time)
    | Ask(c: Id, user: string, environment: Environment)
    | InsertRow(c: Id)
    | Reread(c: Id)
    | ClaimRows(w: Id, environment: Environment, limit: nat, locked: set<Id>, claimed: seq<Id>)
    | AnalysisDone(w: Id, scanId: Id)
    | AnalysisFails(w: Id)
    | CompleteRows(w: Id)
    | CompleteFails(w: Id, committed: bool)
    | FailRows(w: Id)
    | FailFails(w: Id, committed: bool)
    | Die(w: Id)

  ghost function ActiveOne(rows: map<Id, Request>, user: string, environment: Environment): (id: Id)
    requires HasActive(rows, user, environment)
    ensures id in rows && ActiveFor(rows[id], user, environment)
  {
    var id :| id in rows && ActiveFor(rows[id], user, environment);
    id
  }

  /** The first lookup of a request. */
  ghost function Asked(s: System, c: Id, user: string, environment: Environment): System {
    if c in s.requesters then s
    else if HasActive(s.rows, user, environment) then
      s.(requesters := s.requesters[c := Answered(user, environment, Some(ActiveOne(s.rows, user, environment)))])
    else s.(requesters := s.requesters[c := Inserting(user, environment, s.now)])
  }

  /** The insert: the index refuses it when someone else's request became active in between. */
  ghost function Inserted(s: System, c: Id): System
    requires c in s.requesters && s.requesters[c].Inserting?
  {
    var r := s.requesters[c];
    if HasActive(s.rows, r.user, r.environment) then
      s.(requesters := s.requesters[c := Rereading(r.user, r.environment, ActiveOne(s.rows, r.user, r.environment))])
    else
      s.(rows := s.rows[s.nextId := NewRequest(r.user, r.environment, r.requestedAt)], nextId := s.nextId + 1,
         requesters := s.requesters[c := Answered(r.user, r.environment, Some(s.nextId))])
  }

  ghost function LookedAgain(s: System, c: Id): System
    requires c in s.requesters && s.requesters[c].Rereading?
  {
    var r := s.requesters[c];
    var answer := if HasActive(s.rows, r.user, r.environment) then Some(ActiveOne(s.rows, r.user, r.environment))
                  else None;
    s.(requesters := s.requesters[c := Answered(r.user, r.environment, answer)])
  }

  ghost function Claimed(s: System, w: Id, environment: Environment, limit: nat, locked: set<Id>,
                         claimed: seq<Id>): System {
    if w in s.workers || !OldestFirst(s.rows, Candidates(s.rows, environment, s.now, locked), limit, claimed) then s
    else s.(rows := Started(s.rows, claimed, s.now), workers := s.workers[w := Analysing(claimed)])
  }

  /** The failure code the worker reports. */
  const FAILURE := Broken("market_analysis_failed")

  function Finishes(s: System, claimed: seq<Id>, outcome: Outcome, committed: bool): map<Id, Request> {
    if committed then Finished(s.rows, claimed, outcome, s.now) else s.rows
  }

  function Works(s: System, w: Id, next: Worker): System {
    s.(workers := s.workers[w := next])
  }

  ghost function Next(s: System, e: Step): System {
    match e
    case Tick(later) => if later > s.now then s.(now := later) else s
    case Ask(c, user, environment) => Asked(s, c, user, environment)
    case InsertRow(c) => if c in s.requesters && s.requesters[c].Inserting? then Inserted(s, c) else s
    case Reread(c) => if c in s.requesters && s.requesters[c].Rereading? then LookedAgain(s, c) else s
    case ClaimRows(w, environment, limit, locked, claimed) => Claimed(s, w, environment, limit, locked, claimed)
    case AnalysisDone(w, scanId) =>
      if w in s.workers && s.workers[w].Analysing? then Works(s, w, Analysed(s.workers[w].claimed, scanId)) else s
    case AnalysisFails(w) =>
      if w in s.workers && s.workers[w].Analysing? then Works(s, w, Failing(s.workers[w].claimed)) else s
    case CompleteRows(w) =>
      if w in s.workers && s.workers[w].Analysed? then
        Works(s, w, Ended(s.workers[w].claimed)).(rows := Finishes(s, s.workers[w].claimed, Done(s.workers[w].scanId),
                                                                   true))
      else s
    case CompleteFails(w, committed) =>
      if w in s.workers && s.workers[w].Analysed? then
        Works(s, w, Failing(s.workers[w].claimed)).(rows := Finishes(s, s.workers[w].claimed,
                                                                     Done(s.workers[w].scanId), committed))
      else s
    case FailRows(w) =>
      if w in s.workers && s.workers[w].Failing? then
        Works(s, w, Ended(s.workers[w].claimed)).(rows := Finishes(s, s.workers[w].claimed, FAILURE, true))
      else s
    case FailFails(w, committed) =>
      if w in s.workers && s.workers[w].Failing? then
        Works(s, w, Gone).(rows := Finishes(s, s.workers[w].claimed, FAILURE, committed))
      else s
    case Die(w) => if w in s.workers && !s.workers[w].Ended? then Works(s, w, Gone) else s
  }

  ghost function Run(s: System, steps: seq<Step>): System {
    if |steps| == 0 then s else Next(Run(s, steps[..|steps| - 1]), steps[|steps| - 1])
  }

  // ----- the invariant

  predicate Terminated(request: Request) {
    request.status == Completed || request.status == Failed
  }

  /** Times lie in the past, and a running request says since when. */
  predicate RowTimely(request: Request, now: Time) {
    && (request.status == Running ==> request.startedAt.Some?)
    && (request.status == Queued ==> request.startedAt.None?)
    && (request.startedAt.Some? ==> request.startedAt.value <= now)
    && (Terminated(request) <==> request.completedAt.Some?)
  }

  ghost predicate RowsTimely(rows: map<Id, Request>, nextId: Id, now: Time) {
    forall id :: id in rows ==> id < nextId && RowTimely(rows[id], now)
  }

  /** The claim of a worker: its requests exist and have left the queue. */
  predicate ClaimHolds(rows: map<Id, Request>, claimed: seq<Id>) {
    forall id :: id in claimed ==> id in rows && rows[id].status != Queued
  }

  predicate WorkerHolds(rows: map<Id, Request>, worker: Worker) {
    match worker
    case Analysing(claimed) => ClaimHolds(rows, claimed)
    case Analysed(claimed, _) => ClaimHolds(rows, claimed)
    case Failing(claimed) => ClaimHolds(rows, claimed)
    case Ended(claimed) => forall id :: id in claimed ==> id in rows && Terminated(rows[id])
    case Gone => true
  }

  ghost predicate WorkersHold(rows: map<Id, Request>, workers: map<Id, Worker>) {
    forall w :: w in workers ==> WorkerHolds(rows, workers[w])
  }

  predicate RequestOf(rows: map<Id, Request>, id: Id, user: string, environment: Environment) {
    id in rows && rows[id].userId == user && rows[id].environment == environment
  }

  /** An answer is a request of the same user; an insert was refused because of one. */
  predicate RequesterHolds(rows: map<Id, Request>, requester: Requester) {
    match requester
    case Inserting(_, _, _) => true
    case Rereading(user, environment, blocker) => RequestOf(rows, blocker, user, environment)
    case Answered(user, environment, answer) => answer.Some? ==> RequestOf(rows, answer.value, user, environment)
  }

  ghost predicate RequestersHold(rows: map<Id, Request>, requesters: map<Id, Requester>) {
    forall c :: c in requesters ==> RequesterHolds(rows, requesters[c])
  }

  ghost predicate Healthy(s: System) {
    && OneActive(s.rows)
    && RowsTimely(s.rows, s.nextId, s.now)
    && WorkersHold(s.rows, s.workers)
    && RequestersHold(s.rows, s.requesters)
  }

  /** Rows stay, keep their owners, never return to the queue, and never change once they are finished. */
  predicate RowMoves(before: Request, after: Request) {
    && after.userId == before.userId && after.environment == before.environment &&
         after.requestedAt == before.requestedAt
    && (after.status == Queued ==> before.status == Queued)
    && (Terminated(before) ==> after == before)
  }

  ghost predicate RowsMove(before: map<Id, Request>, after: map<Id, Request>) {
    forall id :: id in before ==> id in after && RowMoves(before[id], after[id])
  }

  lemma HoldsStay(before: map<Id, Request>, after: map<Id, Request>, workers: map<Id, Worker>,
                  requesters: map<Id, Requester>)
    requires RowsMove(before, after)
    ensures WorkersHold(before, workers) ==> WorkersHold(after, workers)
    ensures RequestersHold(before, requesters) ==> RequestersHold(after, requesters)
  {
  }

  // ----- the three changes of the table

  lemma InsertMoves(s: System, user: string, environment: Environment, at: Time)
    requires OneActive(s.rows) && RowsTimely(s.rows, s.nextId, s.now) && !HasActive(s.rows, user, environment)
    ensures var rows := s.rows[s.nextId := NewRequest(user, environment, at)];
            RowsMove(s.rows, rows) && OneActive(rows) && RowsTimely(rows, s.nextId + 1, s.now)
  {
    InsertKeepsOne(s.rows, s.nextId, user, environment, at);
  }

  lemma StartMoves(s: System, environment: Environment, limit: nat, locked: set<Id>, claimed: seq<Id>)
    requires OneActive(s.rows) && RowsTimely(s.rows, s.nextId, s.now)
    requires OldestFirst(s.rows, Candidates(s.rows, environment, s.now, locked), limit, claimed)
    ensures var rows := Started(s.rows, claimed, s.now);
            RowsMove(s.rows, rows) && OneActive(rows) && RowsTimely(rows, s.nextId, s.now) && ClaimHolds(rows, claimed)
  {
    assert forall id :: id in claimed ==> id in s.rows && Active(s.rows[id]);
    StartKeepsOne(s.rows, claimed, s.now);
    hide OldestFirst, OneActive;
  }

  lemma FinishMoves(s: System, claimed: seq<Id>, outcome: Outcome, committed: bool)
    requires OneActive(s.rows) && RowsTimely(s.rows, s.nextId, s.now) && ClaimHolds(s.rows, claimed)
    ensures var rows := Finishes(s, claimed, outcome, committed);
            && RowsMove(s.rows, rows) && OneActive(rows) && RowsTimely(rows, s.nextId, s.now) &&
                 ClaimHolds(rows, claimed)
            && (committed ==> WorkerHolds(rows, Ended(claimed)))
  {
    FinishKeepsOne(s.rows, claimed, outcome, s.now);
    hide OneActive;
  }

  // ----- every step

  lemma RequestStep(s: System, e: Step)
    requires Healthy(s) && (e.Ask? || e.InsertRow? || e.Reread?)
    ensures Healthy(Next(s, e)) && RowsMove(s.rows, Next(s, e).rows)
  {
    match e
    case Ask(c, user, environment) => { hide OneActive, RowsTimely, WorkersHold; }
    case InsertRow(c) =>
      if c in s.requesters && s.requesters[c].Inserting? &&
         !HasActive(s.rows, s.requesters[c].user, s.requesters[c].environment) {
        InsertMoves(s, s.requesters[c].user, s.requesters[c].environment, s.requesters[c].requestedAt);
        HoldsStay(s.rows, Next(s, e).rows, s.workers, s.requesters);
        hide OneActive, RowsTimely, WorkersHold, RowsMove, HasActive;
      }
    case Reread(c) => { hide OneActive, RowsTimely, WorkersHold; }
  }

  lemma ClaimStep(s: System, e: Step)
    requires Healthy(s) && e.ClaimRows?
    ensures Healthy(Next(s, e)) && RowsMove(s.rows, Next(s, e).rows)
  {
    if e.w !in s.workers &&
       OldestFirst(s.rows, Candidates(s.rows, e.environment, s.now, e.locked), e.limit, e.claimed) {
      StartMoves(s, e.environment, e.limit, e.locked, e.claimed);
      HoldsStay(s.rows, Next(s, e).rows, s.workers, s.requesters);
    }
    hide OneActive, RowsTimely, RequestersHold, OldestFirst;
  }

  lemma WorkStep(s: System, e: Step)
    requires Healthy(s) && (e.Tick? || e.AnalysisDone? || e.AnalysisFails? || e.Die?)
    ensures Healthy(Next(s, e)) && RowsMove(s.rows, Next(s, e).rows)
  {
    hide OneActive, RequestersHold;
  }

  lemma FinishStep(s: System, e: Step)
    requires Healthy(s) && (e.CompleteRows? || e.CompleteFails? || e.FailRows? || e.FailFails?)
    ensures Healthy(Next(s, e)) && RowsMove(s.rows, Next(s, e).rows)
  {
    if e.w in s.workers && (s.workers[e.w].Analysed? || s.workers[e.w].Failing?) {
      assert WorkerHolds(s.rows, s.workers[e.w]);
      var claimed := s.workers[e.w].claimed;
      var outcome := if s.workers[e.w].Analysed? then Done(s.workers[e.w].scanId) else FAILURE;
      FinishMoves(s, claimed, outcome, true);
      FinishMoves(s, claimed, outcome, false);
      hide Finishes, OneActive, RowsTimely, ClaimHolds;
      HoldsStay(s.rows, Next(s, e).rows, s.workers, s.requesters);
      hide RequestersHold, RowsMove;
    }
  }

  lemma StepHealthy(s: System, e: Step)
    requires Healthy(s)
    ensures Healthy(Next(s, e)) && RowsMove(s.rows, Next(s, e).rows)
  {
    hide *;
    if e.Ask? || e.InsertRow? || e.Reread? {
      RequestStep(s, e);
    } else if e.ClaimRows? {
      ClaimStep(s, e);
    } else if e.Tick? || e.AnalysisDone? || e.AnalysisFails? || e.Die? {
      WorkStep(s, e);
    } else {
      FinishStep(s, e);
    }
  }

  lemma RowsMoveTwice(a: map<Id, Request>, b: map<Id, Request>, c: map<Id, Request>)
    requires RowsMove(a, b) && RowsMove(b, c)
    ensures RowsMove(a, c)
  {
  }

  // ----- whole runs

  /**
   In every run: one active request for each user and environment, and every finished iteration left none
   of its claim unfinished.
   */
  lemma {:induction false} AlwaysHealthy(steps: seq<Step>)
    ensures Healthy(Run(Empty, steps))
  {
    hide Next;
    if |steps| == 0 {
    } else {
      AlwaysHealthy(steps[..|steps| - 1]);
      StepHealthy(Run(Empty, steps[..|steps| - 1]), steps[|steps| - 1]);
    }
  }

  /** However a run goes on, a finished request keeps its outcome, even when two workers hold it. */
  lemma {:induction false} OutcomesStay(s: System, steps: seq<Step>)
    requires Healthy(s)
    ensures Healthy(Run(s, steps)) && RowsMove(s.rows, Run(s, steps).rows)
  {
    hide Next, Healthy;
    if |steps| == 0 {
    } else {
      var before := Run(s, steps[..|steps| - 1]);
      OutcomesStay(s, steps[..|steps| - 1]);
      StepHealthy(before, steps[|steps| - 1]);
      hide RowsMove;
      RowsMoveTwice(s.rows, before.rows, Run(s, steps).rows);
    }
  }

  lemma FinishedAtMostOnce(steps: seq<Step>, more: seq<Step>, id: Id)
    requires id in Run(Empty, steps).rows && Terminated(Run(Empty, steps).rows[id])
    ensures var later := Run(Run(Empty, steps), more).rows; id in later && later[id] == Run(Empty, steps).rows[id]
  {
    AlwaysHealthy(steps);
    OutcomesStay(Run(Empty, steps), more);
    hide Run, Healthy;
    assert RowMoves(Run(Empty, steps).rows[id], Run(Run(Empty, steps), more).rows[id]);
  }

  /** An iteration that ended has finished its whole claim, though another worker may have done it. */
  lemma EndedFinishesAll(steps: seq<Step>, w: Id, id: Id)
    requires var s := Run(Empty, steps); w in s.workers && s.workers[w].Ended? && id in s.workers[w].claimed
    ensures var s := Run(Empty, steps); id in s.rows && Terminated(s.rows[id])
  {
    AlwaysHealthy(steps);
    hide Run;
    assert WorkerHolds(Run(Empty, steps).rows, Run(Empty, steps).workers[w]);
  }

  /** Every unfinished request is claimable now, or is held by a lease that lapses at a known time. */
  lemma UnfinishedIsClaimable(steps: seq<Step>, id: Id, at: Time)
    requires var s := Run(Empty, steps); id in s.rows && !Terminated(s.rows[id])
    ensures var request := Run(Empty, steps).rows[id];
            (Claimable(request, request.environment, at) <==>
               request.status == Queued || (request.startedAt.Some? && request.startedAt.value + 600_000_000 <= at))
    ensures at >= Run(Empty, steps).now + 600_000_000 ==>
              Claimable(Run(Empty, steps).rows[id], Run(Empty, steps).rows[id].environment, at)
  {
    AlwaysHealthy(steps);
    hide Run;
    assert RowTimely(Run(Empty, steps).rows[id], Run(Empty, steps).now);
  }

  /** A lease later, the next roomy claim takes every unfinished request of its environment. */
  lemma NextClaimTakes(steps: seq<Step>, later: Time, w: Id, limit: nat, claimed: seq<Id>, id: Id)
    requires var s := Run(Empty, steps);
             && id in s.rows && !Terminated(s.rows[id]) && later >= s.now + LEASE && w !in s.workers
             && |Candidates(s.rows, s.rows[id].environment, later, {})| <= limit
             && OldestFirst(s.rows, Candidates(s.rows, s.rows[id].environment, later, {}), limit, claimed)
    ensures var s := Run(Empty, steps);
            var after := Next(Next(s, Tick(later)), ClaimRows(w, s.rows[id].environment, limit, {}, claimed));
            w in after.workers && after.workers[w] == Analysing(claimed) && id in claimed
  {
    UnfinishedIsClaimable(steps, id, later);
    hide Run;
    var s := Run(Empty, steps);
    RoomyClaimTakesAll(s.rows, Candidates(s.rows, s.rows[id].environment, later, {}), limit, claimed, id);
    hide OldestFirst;
  }

  /** A request raises only when the one that blocked its insert is no longer active. */
  lemma RaisesOnlyAfterBlockerEnded(steps: seq<Step>, c: Id)
    requires var s := Run(Empty, steps); c in s.requesters && s.requesters[c].Rereading?
    ensures var s := Run(Empty, steps);
            && s.requesters[c].blocker in s.rows
            && (Next(s, Reread(c)).requesters[c].answer.None? ==> Terminated(s.rows[s.requesters[c].blocker]))
  {
    AlwaysHealthy(steps);
    hide Run;
    var s := Run(Empty, steps);
    assert RequesterHolds(s.rows, s.requesters[c]);
    if !Terminated(s.rows[s.requesters[c].blocker]) {
      assert ActiveFor(s.rows[s.requesters[c].blocker], s.requesters[c].user, s.requesters[c].environment);
    }
  }

  // ----- what single steps answer and write

  /** A request of this user and environment waits or runs. */
  ghost predicate Waiting(rows: map<Id, Request>, id: Id, user: string, environment: Environment) {
    && id in rows && rows[id].userId == user && rows[id].environment == environment
    && (rows[id].status == Queued || rows[id].status == Running)
  }

  lemma WaitingIff(rows: map<Id, Request>, user: string, environment: Environment)
    ensures HasActive(rows, user, environment) <==> exists id :: Waiting(rows, id, user, environment)
    ensures HasActive(rows, user, environment) ==>
              Waiting(rows, ActiveOne(rows, user, environment), user, environment)
  {
    if HasActive(rows, user, environment) {
      assert Waiting(rows, ActiveOne(rows, user, environment), user, environment);
    }
    if id :| Waiting(rows, id, user, environment) { assert ActiveFor(rows[id], user, environment); }
  }

  /** Asking answers with a waiting request of the user if there is one, and else goes on to insert one. */
  lemma AskAnswers(s: System, c: Id, user: string, environment: Environment)
    requires c !in s.requesters
    ensures var after := Next(s, Ask(c, user, environment));
            && after.rows == s.rows && c in after.requesters
            && if exists id :: Waiting(s.rows, id, user, environment)
               then after.requesters[c].Answered? && after.requesters[c].answer.Some? &&
                    Waiting(s.rows, after.requesters[c].answer.value, user, environment)
               else after.requesters[c] == Inserting(user, environment, s.now)
  {
    WaitingIff(s.rows, user, environment);
    hide Waiting, HasActive;
  }

  /** The insert adds one queued request, as of when it was asked for, unless one of the user waits already. */
  lemma InsertAnswers(s: System, c: Id)
    requires c in s.requesters && s.requesters[c].Inserting? && s.nextId !in s.rows
    ensures var after, r := Next(s, InsertRow(c)), s.requesters[c];
            if exists id :: Waiting(s.rows, id, r.user, r.environment)
            then after.rows == s.rows && after.requesters[c].Rereading?
            else
              && s.nextId in after.rows && after.rows == s.rows[s.nextId := after.rows[s.nextId]]
              && after.rows[s.nextId].userId == r.user && after.rows[s.nextId].environment == r.environment
              && after.rows[s.nextId].status == Queued && after.rows[s.nextId].requestedAt == r.requestedAt
              && after.rows[s.nextId].startedAt == None && after.rows[s.nextId].completedAt == None
              && after.rows[s.nextId].scanId == None && after.rows[s.nextId].errorCode == None
              && after.requesters[c] == Answered(r.user, r.environment, Some(s.nextId))
  {
    WaitingIff(s.rows, s.requesters[c].user, s.requesters[c].environment);
    hide Waiting, HasActive;
  }

  /** What a finish call of a worker leaves of a claimed request that still runs; others it leaves alone. */
  lemma FinishWrites(s: System, w: Id, id: Id)
    requires w in s.workers && (s.workers[w].Analysed? || s.workers[w].Failing?) && id in s.rows
    ensures var worker := s.workers[w];
            var after := Next(s, if worker.Analysed? then CompleteRows(w) else FailRows(w)).rows;
            && id in after
            && if id !in worker.claimed || s.rows[id].status != Running then after[id] == s.rows[id]
               else if worker.Analysed?
               then after[id] == s.rows[id].(status := Completed, completedAt := Some(s.now),
                                             scanId := Some(worker.scanId), errorCode := None)
               else after[id] == s.rows[id].(status := Failed, completedAt := Some(s.now), scanId := None,
                                             errorCode := Some("market_analysis_failed"))
  {
  }
}
