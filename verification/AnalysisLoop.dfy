/**
 The loop of the analysis worker, alone on its queue: claim, scan, analyse when it is due, complete the claim,
 and fail it when anything raised. What the loop calls may raise, and a finish call may raise after it committed.
 */
module AnalysisLoop {
  import opened Common
  import opened AnalysisQueue
  import opened AnalysisWorkers

  /** A call on the queue that returned, or one that raised, before or after its commit. */
  datatype Delivery = Through | Dropped(committed: bool)

  predicate Lands(delivery: Delivery) {
    delivery.Through? || delivery.committed
  }

  /** What a scan says, and whether a session sweep is due at its time. */
  datatype Scan = Scan(id: Id, createdAt: Time, sweepDue: bool)

  /** What happens around one round: `scan` is absent when scanning raised, `analyses` is false when analysing does. */
  datatype Round = Round(claim: Delivery, scan: Option<Scan>, analyses: bool, complete: Delivery, fail: Delivery,
                         claimedAt: Time, completedAt: Time, failedAt: Time)

  datatype Settings = Settings(environment: Environment, pipeline: bool, analysisInterval: Time, once: bool)

  /** What a loop keeps between rounds: the table, and the scan time of its last analysis. */
  datatype Progress = Progress(rows: map<Id, Request>, lastAnalysisAt: Option<Time>)

  /** One claim takes at most this many requests. */
  const CLAIM_LIMIT: nat := 100

  /** The requests the worker knows it holds: none when its claim call raised. */
  function Held(settings: Settings, round: Round, taken: seq<Id>): seq<Id> {
    if settings.pipeline && round.claim.Through? then taken else []
  }

  predicate AnalysisDue(settings: Settings, scan: Scan, lastAnalysisAt: Option<Time>, held: seq<Id>) {
    && settings.pipeline
    && (lastAnalysisAt.None? || scan.createdAt - lastAnalysisAt.value >= settings.analysisInterval || scan.sweepDue ||
        |held| > 0)
  }

  predicate ClaimRaised(settings: Settings, round: Round) {
    settings.pipeline && round.claim.Dropped?
  }

  /** The round analyses its scan, and the analysis gets through. */
  predicate Analyses(settings: Settings, round: Round, lastAnalysisAt: Option<Time>, taken: seq<Id>) {
    && !ClaimRaised(settings, round) && round.scan.Some?
    && AnalysisDue(settings, round.scan.value, lastAnalysisAt, Held(settings, round, taken)) && round.analyses
  }

  /** Something in the round raised before its end. */
  predicate Raises(settings: Settings, round: Round, lastAnalysisAt: Option<Time>, taken: seq<Id>) {
    var held := Held(settings, round, taken);
    || ClaimRaised(settings, round)
    || round.scan.None?
    || (AnalysisDue(settings, round.scan.value, lastAnalysisAt, held) && !round.analyses)
    || (Analyses(settings, round, lastAnalysisAt, taken) && |held| > 0 && round.complete.Dropped?)
  }

  /** Even the report that the round failed raised. */
  predicate Breaks(settings: Settings, round: Round, lastAnalysisAt: Option<Time>, taken: seq<Id>) {
    Raises(settings, round, lastAnalysisAt, taken) && |Held(settings, round, taken)| > 0 && round.fail.Dropped?
  }

  function AfterClaim(rows: map<Id, Request>, settings: Settings, round: Round, taken: seq<Id>): map<Id, Request> {
    if settings.pipeline && Lands(round.claim) then Started(rows, taken, round.claimedAt) else rows
  }

  function AfterComplete(before: Progress, settings: Settings, round: Round, taken: seq<Id>): map<Id, Request> {
    var started := AfterClaim(before.rows, settings, round, taken);
    var held := Held(settings, round, taken);
    if Analyses(settings, round, before.lastAnalysisAt, taken) && |held| > 0 && Lands(round.complete)
    then Finished(started, held, Done(round.scan.value.id), round.completedAt) else started
  }

  /** One round, given the requests its claim took. */
  function AfterRound(before: Progress, settings: Settings, round: Round, taken: seq<Id>): Progress {
    var held := Held(settings, round, taken);
    var completed := AfterComplete(before, settings, round, taken);
    Progress(
      if Raises(settings, round, before.lastAnalysisAt, taken) && |held| > 0 && Lands(round.fail)
      then Finished(completed, held, FAILURE, round.failedAt) else completed,
      if Analyses(settings, round, before.lastAnalysisAt, taken) then Some(round.scan.value.createdAt)
      else before.lastAnalysisAt)
  }

  function Played(rows: map<Id, Request>, settings: Settings, rounds: seq<Round>, claims: seq<seq<Id>>): Progress
    requires |rounds| == |claims|
  {
    if |rounds| == 0 then Progress(rows, None)
    else
      AfterRound(Played(rows, settings, rounds[..|rounds| - 1], claims[..|rounds| - 1]), settings, rounds[|rounds| - 1],
                 claims[|rounds| - 1])
  }

  /** A claim that is made takes the oldest claimable requests. */
  ghost predicate TakesOldest(rows: map<Id, Request>, settings: Settings, round: Round, taken: seq<Id>) {
    if settings.pipeline && Lands(round.claim)
    then OldestFirst(rows, Candidates(rows, settings.environment, round.claimedAt, {}), 100, taken)
    else taken == []
  }

  ghost predicate ClaimsOldest(rows: map<Id, Request>, settings: Settings, rounds: seq<Round>, claims: seq<seq<Id>>)
    requires |rounds| == |claims|
  {
    forall i :: 0 <= i < |rounds| ==>
      TakesOldest(Played(rows, settings, rounds[..i], claims[..i]).rows, settings, rounds[i], claims[i])
  }

  ghost predicate BreaksAt(rows: map<Id, Request>, settings: Settings, rounds: seq<Round>, claims: seq<seq<Id>>, i: nat)
    requires |rounds| == |claims| && i < |rounds|
  {
    Breaks(settings, rounds[i], Played(rows, settings, rounds[..i], claims[..i]).lastAnalysisAt, claims[i])
  }

  ghost predicate NoneBroke(rows: map<Id, Request>, settings: Settings, rounds: seq<Round>, claims: seq<seq<Id>>)
    requires |rounds| == |claims|
  {
    forall i :: 0 <= i < |rounds| ==> !BreaksAt(rows, settings, rounds, claims, i)
  }

  ghost predicate AnalysesAt(rows: map<Id, Request>, settings: Settings, rounds: seq<Round>, claims: seq<seq<Id>>,
                             i: nat)
    requires |rounds| == |claims| && i < |rounds|
  {
    Analyses(settings, rounds[i], Played(rows, settings, rounds[..i], claims[..i]).lastAnalysisAt, claims[i])
  }

  // ----- what a round leaves of its claim

  /** The request has the outcome of the round: the scan it was analysed with, or the failure code. */
  predicate Answers(request: Request, round: Round, analysed: bool) {
    if analysed && Lands(round.complete)
    then request.status == Completed && round.scan.Some? && request.scanId == Some(round.scan.value.id)
    else request.status == Failed && request.errorCode == Some("market_analysis_failed")
  }

  /** A round that did not break leaves every request it held with its outcome: a held claim makes the analysis due. */
  lemma RoundAnswers(before: Progress, settings: Settings, round: Round, taken: seq<Id>, id: Id)
    requires TakesOldest(before.rows, settings, round, taken) && id in Held(settings, round, taken)
    requires !Breaks(settings, round, before.lastAnalysisAt, taken)
    ensures id in AfterRound(before, settings, round, taken).rows
    ensures Answers(AfterRound(before, settings, round, taken).rows[id], round,
                    Analyses(settings, round, before.lastAnalysisAt, taken))
  {
    assert id in taken && id in before.rows;
    assert AfterClaim(before.rows, settings, round, taken)[id].status == Running;
  }

  /** A round changes no request that is finished. */
  lemma RoundKeeps(before: Progress, settings: Settings, round: Round, taken: seq<Id>, id: Id)
    requires TakesOldest(before.rows, settings, round, taken) && id in before.rows && Terminated(before.rows[id])
    ensures var after := AfterRound(before, settings, round, taken).rows; id in after && after[id] == before.rows[id]
  {
    assert id !in taken;
  }

  /**
   Over whatever a worker alone on the queue runs into: each request a round knew it held ends with exactly the
   outcome of that round and keeps it, unless even the report of that round's failure raised.
   */
  lemma {:induction false} EveryHeldRequestAnswered(rows: map<Id, Request>, settings: Settings, rounds: seq<Round>,
                                                    claims: seq<seq<Id>>, i: nat, id: Id)
    requires |rounds| == |claims| && ClaimsOldest(rows, settings, rounds, claims)
    requires i < |rounds| && id in Held(settings, rounds[i], claims[i]) && !BreaksAt(rows, settings, rounds, claims, i)
    ensures id in Played(rows, settings, rounds, claims).rows
    ensures Answers(Played(rows, settings, rounds, claims).rows[id], rounds[i],
                    AnalysesAt(rows, settings, rounds, claims, i))
  {
    hide Played, ClaimsOldest, TakesOldest, BreaksAt, AnalysesAt, Breaks, Analyses, AfterRound, Held, Answers;
    var last := |rounds| - 1;
    var before := Played(rows, settings, rounds[..last], claims[..last]);
    LastRound(rows, settings, rounds, claims);
    if i == last {
      RoundAnswers(before, settings, rounds[i], claims[i], id);
    } else {
      RoundBefore(rows, settings, rounds, claims, i);
      EveryHeldRequestAnswered(rows, settings, rounds[..last], claims[..last], i, id);
      AnsweredTerminates(before.rows[id], rounds[i], AnalysesAt(rows, settings, rounds, claims, i));
      RoundKeeps(before, settings, rounds[last], claims[last], id);
    }
  }

  lemma AnsweredTerminates(request: Request, round: Round, analysed: bool)
    requires Answers(request, round, analysed)
    ensures Terminated(request)
  {
  }

  lemma LastRound(rows: map<Id, Request>, settings: Settings, rounds: seq<Round>, claims: seq<seq<Id>>)
    requires |rounds| == |claims| && |rounds| > 0 && ClaimsOldest(rows, settings, rounds, claims)
    ensures var last := |rounds| - 1;
            var before := Played(rows, settings, rounds[..last], claims[..last]);
            && ClaimsOldest(rows, settings, rounds[..last], claims[..last])
            && TakesOldest(before.rows, settings, rounds[last], claims[last])
            && Played(rows, settings, rounds, claims) == AfterRound(before, settings, rounds[last], claims[last])
            && BreaksAt(rows, settings, rounds, claims, last) ==
                 Breaks(settings, rounds[last], before.lastAnalysisAt, claims[last])
            && AnalysesAt(rows, settings, rounds, claims, last) ==
                 Analyses(settings, rounds[last], before.lastAnalysisAt, claims[last])
  {
    ClaimsBefore(rows, settings, rounds, claims);
    hide AfterRound, TakesOldest, Breaks, Analyses;
  }

  lemma ClaimsBefore(rows: map<Id, Request>, settings: Settings, rounds: seq<Round>, claims: seq<seq<Id>>)
    requires |rounds| == |claims| && |rounds| > 0 && ClaimsOldest(rows, settings, rounds, claims)
    ensures ClaimsOldest(rows, settings, rounds[..|rounds| - 1], claims[..|rounds| - 1])
  {
    hide Played, TakesOldest;
    var last := |rounds| - 1;
    forall k | 0 <= k < last
      ensures TakesOldest(Played(rows, settings, rounds[..last][..k], claims[..last][..k]).rows, settings,
                          rounds[..last][k], claims[..last][k])
    {
      assert rounds[..last][..k] == rounds[..k] && claims[..last][..k] == claims[..k];
    }
  }

  lemma RoundBefore(rows: map<Id, Request>, settings: Settings, rounds: seq<Round>, claims: seq<seq<Id>>, i: nat)
    requires |rounds| == |claims| && i < |rounds| - 1
    ensures var last := |rounds| - 1;
            && BreaksAt(rows, settings, rounds, claims, i) ==
                 BreaksAt(rows, settings, rounds[..last], claims[..last], i)
            && AnalysesAt(rows, settings, rounds, claims, i) ==
                 AnalysesAt(rows, settings, rounds[..last], claims[..last], i)
  {
    hide Played, Breaks, Analyses;
    assert rounds[..|rounds| - 1][..i] == rounds[..i] && claims[..|rounds| - 1][..i] == claims[..i];
  }

  // ----- when a round analyses

  /** Round j is the last one before round n that analysed its scan. */
  ghost predicate LastAnalysed(rows: map<Id, Request>, settings: Settings, rounds: seq<Round>, claims: seq<seq<Id>>,
                               j: nat, n: nat)
    requires |rounds| == |claims| && n <= |rounds|
  {
    && j < n && AnalysesAt(rows, settings, rounds, claims, j)
    && forall l: nat :: j < l < n ==> !AnalysesAt(rows, settings, rounds, claims, l)
  }

  /** The scan time the loop remembers after n rounds is that of the last round that analysed. */
  lemma {:induction false} Remembers(rows: map<Id, Request>, settings: Settings, rounds: seq<Round>,
                                     claims: seq<seq<Id>>, n: nat)
    requires |rounds| == |claims| && n <= |rounds|
    ensures var last := Played(rows, settings, rounds[..n], claims[..n]).lastAnalysisAt;
            && (last.None? <==> forall j: nat :: j < n ==> !AnalysesAt(rows, settings, rounds, claims, j))
            && forall j: nat :: LastAnalysed(rows, settings, rounds, claims, j, n) ==>
                 rounds[j].scan.Some? && last == Some(rounds[j].scan.value.createdAt)
  {
    hide AnalysesAt;
    if n > 0 {
      Remembers(rows, settings, rounds, claims, n - 1);
      RemembersNext(rows, settings, rounds, claims, n - 1);
      hide Played;
      var last := n - 1;
      forall j: nat | LastAnalysed(rows, settings, rounds, claims, j, n)
        ensures if AnalysesAt(rows, settings, rounds, claims, last) then j == last
                else LastAnalysed(rows, settings, rounds, claims, j, last)
      {
        assert j < last ==> !AnalysesAt(rows, settings, rounds, claims, last);
      }
    }
  }

  lemma RemembersNext(rows: map<Id, Request>, settings: Settings, rounds: seq<Round>, claims: seq<seq<Id>>, n: nat)
    requires |rounds| == |claims| && n < |rounds|
    ensures AnalysesAt(rows, settings, rounds, claims, n) ==> rounds[n].scan.Some?
    ensures Played(rows, settings, rounds[..n + 1], claims[..n + 1]).lastAnalysisAt ==
            if AnalysesAt(rows, settings, rounds, claims, n) then Some(rounds[n].scan.value.createdAt)
            else Played(rows, settings, rounds[..n], claims[..n]).lastAnalysisAt
  {
    assert rounds[..n + 1][..n] == rounds[..n] && claims[..n + 1][..n] == claims[..n];
    hide Raises, AfterComplete;
  }

  /**
   In any run of the loop, a round analyses its scan if and only if it has a pipeline, its claim and its scan got
   through, the analysis does, and it is due: the first, an interval after the last one, at a sweep, or for a claim.
   */
  lemma AnalysesIff(rows: map<Id, Request>, settings: Settings, rounds: seq<Round>, claims: seq<seq<Id>>, i: nat)
    requires |rounds| == |claims| && i < |rounds|
    ensures var round := rounds[i];
            AnalysesAt(rows, settings, rounds, claims, i) <==>
            && settings.pipeline && round.claim.Through? && round.scan.Some? && round.analyses
            && (|| round.scan.value.sweepDue
                || |claims[i]| > 0
                || (forall j: nat :: j < i ==> !AnalysesAt(rows, settings, rounds, claims, j))
                || exists j: nat :: LastAnalysed(rows, settings, rounds, claims, j, i) && rounds[j].scan.Some? &&
                                    round.scan.value.createdAt - rounds[j].scan.value.createdAt >=
                                    settings.analysisInterval)
  {
    Remembers(rows, settings, rounds, claims, i);
    hide Played, LastAnalysed;
    if j: nat :| j < i && AnalysesAt(rows, settings, rounds, claims, j) {
      var last := LastExists(rows, settings, rounds, claims, i, j);
    }
  }

  lemma {:induction false} LastExists(rows: map<Id, Request>, settings: Settings, rounds: seq<Round>,
                                      claims: seq<seq<Id>>, n: nat, i: nat) returns (j: nat)
    requires |rounds| == |claims| && i < n <= |rounds| && AnalysesAt(rows, settings, rounds, claims, i)
    ensures LastAnalysed(rows, settings, rounds, claims, j, n)
  {
    hide AnalysesAt;
    if AnalysesAt(rows, settings, rounds, claims, n - 1) {
      j := n - 1;
    } else {
      j := LastExists(rows, settings, rounds, claims, n - 1, i);
    }
  }

  // ----- the loop

  /**
   Runs rounds until one of them stops the loop: a worker asked for one round, or one whose failure report
   raised. `claims` are the requests each round's claim took; `raised` says whether the loop itself raised.
   */
  method RunScanLoop(store: RequestStore, settings: Settings, rounds: seq<Round>)
    returns (claims: seq<seq<Id>>, lastAnalysisAt: Option<Time>, raised: bool)
    requires store.Valid()
    modifies store
    ensures store.Valid() && |claims| <= |rounds|
    ensures ClaimsOldest(old(store.rows), settings, rounds[..|claims|], claims)
    ensures Played(old(store.rows), settings, rounds[..|claims|], claims) == Progress(store.rows, lastAnalysisAt)
    ensures |claims| > 1 ==> !settings.once
    ensures |claims| > 0 ==> NoneBroke(old(store.rows), settings, rounds[..|claims| - 1], claims[..|claims| - 1])
    ensures |claims| < |rounds| ==> |claims| > 0 && (settings.once || raised)
    ensures |claims| == 0 ==> !raised
    ensures |claims| > 0 ==>
              (raised <==> if settings.once then Raises(settings, rounds[0], None, claims[0])
                           else BreaksAt(old(store.rows), settings, rounds[..|claims|], claims, |claims| - 1))
  {
    hide Played, ClaimsOldest, NoneBroke, TakesOldest, BreaksAt, Breaks, Raises, AfterRound;
    claims, lastAnalysisAt, raised := [], None, false;
    NoRounds(store.rows, settings);
    assert rounds[..0] == [];
    for n := 0 to |rounds|
      invariant store.Valid() && |claims| == n && !raised && (if n > 0 then !settings.once else lastAnalysisAt.None?)
      invariant ClaimsOldest(old(store.rows), settings, rounds[..n], claims)
      invariant Played(old(store.rows), settings, rounds[..n], claims) == Progress(store.rows, lastAnalysisAt)
      invariant NoneBroke(old(store.rows), settings, rounds[..n], claims)
      invariant n > 0 ==> NoneBroke(old(store.rows), settings, rounds[..n - 1], claims[..n - 1])
      invariant n > 0 ==> !BreaksAt(old(store.rows), settings, rounds[..n], claims, n - 1)
    {
      var round := rounds[n];
      var taken;
      var failed, broken;
      taken, lastAnalysisAt, failed, broken := PlayRound(store, settings, round, lastAnalysisAt);
      OneRoundMore(old(store.rows), settings, rounds, claims, n, taken);
      claims := claims + [taken];
      if broken || (settings.once && failed) { raised := true; return; }
      if settings.once { return; }
    }
  }

  /** One pass through the body of the loop. `failed` is the exception it caught, `broken` the one it let out. */
  method PlayRound(store: RequestStore, settings: Settings, round: Round, last: Option<Time>)
    returns (taken: seq<Id>, lastAnalysisAt: Option<Time>, failed: bool, broken: bool)
    requires store.Valid()
    modifies store
    ensures store.Valid()
    ensures TakesOldest(old(store.rows), settings, round, taken)
    ensures Progress(store.rows, lastAnalysisAt) == AfterRound(Progress(old(store.rows), last), settings, round, taken)
    ensures failed <==> Raises(settings, round, last, taken)
    ensures broken <==> Breaks(settings, round, last, taken)
    ensures broken ==> failed
  {
    var held: seq<Id> := [];
    taken, lastAnalysisAt, failed, broken := [], last, false, false;
    if settings.pipeline {
      if Lands(round.claim) {
        taken := store.Claim(settings.environment, round.claimedAt, CLAIM_LIMIT, {});
      }
      if round.claim.Through? { held := taken; } else { failed := true; }
    }
    if !failed {
      if round.scan.None? {
        failed := true;
      } else if AnalysisDue(settings, round.scan.value, last, held) {
        if !round.analyses {
          failed := true;
        } else {
          lastAnalysisAt := Some(round.scan.value.createdAt);
          if |held| > 0 {
            if Lands(round.complete) { store.Finish(held, Done(round.scan.value.id), round.completedAt); }
            failed := round.complete.Dropped?;
          }
        }
      }
    }
    if failed && |held| > 0 {
      if Lands(round.fail) { store.Finish(held, FAILURE, round.failedAt); }
      broken := round.fail.Dropped?;
    }
  }

  lemma NoRounds(rows: map<Id, Request>, settings: Settings)
    ensures Played(rows, settings, [], []) == Progress(rows, None) && ClaimsOldest(rows, settings, [], []) &&
            NoneBroke(rows, settings, [], [])
  {
  }

  lemma OneRoundMore(rows: map<Id, Request>, settings: Settings, rounds: seq<Round>, claims: seq<seq<Id>>, n: nat,
                     taken: seq<Id>)
    requires |claims| == n < |rounds|
    ensures rounds[..n + 1][..n] == rounds[..n] && (claims + [taken])[..n] == claims
    ensures Played(rows, settings, rounds[..n + 1], claims + [taken]) ==
            AfterRound(Played(rows, settings, rounds[..n], claims), settings, rounds[n], taken)
    ensures BreaksAt(rows, settings, rounds[..n + 1], claims + [taken], n) ==
            Breaks(settings, rounds[n], Played(rows, settings, rounds[..n], claims).lastAnalysisAt, taken)
    ensures NoneBroke(rows, settings, rounds[..n], claims) &&
            !BreaksAt(rows, settings, rounds[..n + 1], claims + [taken], n) ==>
            NoneBroke(rows, settings, rounds[..n + 1], claims + [taken])
    ensures ClaimsOldest(rows, settings, rounds[..n], claims) &&
            TakesOldest(Played(rows, settings, rounds[..n], claims).rows, settings, rounds[n], taken) ==>
            ClaimsOldest(rows, settings, rounds[..n + 1], claims + [taken])
  {
    var longer, more := rounds[..n + 1], claims + [taken];
    assert longer[..n] == rounds[..n] && more[..n] == claims;
    forall i | 0 <= i < n ensures longer[..i] == rounds[..n][..i] && more[..i] == claims[..i] {}
    hide Breaks, TakesOldest, AfterRound, Played;
    if NoneBroke(rows, settings, rounds[..n], claims) {
      forall i | 0 <= i < n ensures !BreaksAt(rows, settings, longer, more, i) {
        assert !BreaksAt(rows, settings, rounds[..n], claims, i);
      }
    }
  }
}
