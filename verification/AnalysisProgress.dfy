/**
 Progress of the analysis queue: claims take the oldest requests first, so a waiting request is taken once the
 claims of a lease have had room for everything that was requested no later.
 */
module AnalysisProgress {
  import opened Common
  import opened AnalysisQueue
  import opened AnalysisWorkers

  /** The request was claimed at or after this time. */
  predicate TakenSince(request: Request, since: Time) {
    request.startedAt.Some? && request.startedAt.value >= since
  }

  /** The requests that a claim may take before this one, and itself. */
  function Ahead(rows: map<Id, Request>, id: Id): set<Id>
    requires id in rows
  {
    set x | x in rows && rows[x].environment == rows[id].environment && rows[x].requestedAt <= rows[id].requestedAt
  }

  /** Those of them that were claimed since, other than the request itself. */
  function AheadTaken(rows: map<Id, Request>, id: Id, since: Time): set<Id>
    requires id in rows
  {
    set x | x in Ahead(rows, id) && x != id && TakenSince(rows[x], since)
  }

  /** The step is a claim in the environment that does not find the request locked. */
  ghost predicate Claims(s: System, e: Step, environment: Environment, id: Id) {
    && e.ClaimRows? && e.environment == environment && id !in e.locked && e.w !in s.workers
    && OldestFirst(s.rows, Candidates(s.rows, environment, s.now, e.locked), e.limit, e.claimed)
  }

  /** How many requests the claims of a run had room for. */
  ghost function Room(s: System, more: seq<Step>, environment: Environment, id: Id): nat {
    if |more| == 0 then 0
    else
      var init, e := more[..|more| - 1], more[|more| - 1];
      Room(s, init, environment, id) + if Claims(Run(s, init), e, environment, id) then e.limit else 0
  }

  // ----- what steps do to the time a request was started

  /** Rows keep their place in the queue, and what was taken since stays taken since. */
  ghost predicate StartsKept(before: map<Id, Request>, after: map<Id, Request>, since: Time) {
    forall x :: x in before ==>
      && x in after && after[x].environment == before[x].environment && after[x].requestedAt == before[x].requestedAt
      && (TakenSince(before[x], since) ==> TakenSince(after[x], since))
  }

  lemma StepStarts(s: System, e: Step, since: Time)
    requires Healthy(s) && since <= s.now
    ensures StartsKept(s.rows, Next(s, e).rows, since) && s.now <= Next(s, e).now
  {
    StepHealthy(s, e);
    hide OneActive, WorkersHold, RequestersHold, OldestFirst, Candidates, HasActive;
  }

  /** An untaken and unfinished request is as it was. */
  lemma StillWaits(s: System, e: Step, since: Time, id: Id)
    requires Healthy(s) && since <= s.now && id in s.rows
    ensures var after := Next(s, e).rows;
            && id in after
            && (!TakenSince(after[id], since) && !Terminated(after[id]) ==> after[id] == s.rows[id])
  {
    StepHealthy(s, e);
    hide OneActive, WorkersHold, RequestersHold, OldestFirst, Candidates, HasActive;
  }

  // ----- what a claim takes when it leaves a waiting request

  /** Requests that may be claimed within a lease were not claimed since. */
  lemma ClaimableIsUntaken(s: System, x: Id, environment: Environment, since: Time)
    requires RowsTimely(s.rows, s.nextId, s.now) && s.now < since + LEASE
    requires x in s.rows && Claimable(s.rows[x], environment, s.now)
    ensures !TakenSince(s.rows[x], since)
  {
    assert RowTimely(s.rows[x], s.now);
  }

  /** A claim that leaves a claimable request takes as many as it may, all of them from ahead of it. */
  lemma LeftBehind(rows: map<Id, Request>, environment: Environment, now: Time, locked: set<Id>, limit: nat,
                   picked: seq<Id>, id: Id)
    requires id in rows && id !in locked && id !in picked && Claimable(rows[id], environment, now)
    requires OldestFirst(rows, Candidates(rows, environment, now, locked), limit, picked)
    ensures |picked| == limit
    ensures forall x :: x in picked ==> x in Ahead(rows, id) && x != id && Claimable(rows[x], environment, now)
  {
    assert id in Candidates(rows, environment, now, locked);
    forall x | x in picked ensures x in Ahead(rows, id) && x != id && Claimable(rows[x], environment, now) {
      assert x in Candidates(rows, environment, now, locked);
      var i :| 0 <= i < |picked| && picked[i] == x;
    }
  }

  function Members(picked: seq<Id>): set<Id> {
    set x | x in picked
  }

  lemma {:induction false} DistinctCount(picked: seq<Id>)
    requires forall i, j :: 0 <= i < j < |picked| ==> picked[i] != picked[j]
    ensures |Members(picked)| == |picked|
  {
    if |picked| == 0 {
      assert Members(picked) == {};
    } else {
      var init, last := picked[..|picked| - 1], picked[|picked| - 1];
      DistinctCount(init);
      assert Members(picked) == Members(init) + {last};
      assert last !in Members(init);
    }
  }

  lemma KeptTaken(before: map<Id, Request>, after: map<Id, Request>, id: Id, since: Time)
    requires StartsKept(before, after, since) && id in before
    ensures id in after && AheadTaken(before, id, since) <= AheadTaken(after, id, since)
  {
  }

  /** Such a claim adds its whole room to what was taken ahead of the request. */
  lemma ClaimTakes(s: System, e: Step, id: Id, since: Time)
    requires Healthy(s) && since <= s.now < since + LEASE && id in s.rows
    requires Claims(s, e, s.rows[id].environment, id) && Claimable(s.rows[id], s.rows[id].environment, s.now)
    ensures id in Next(s, e).rows
    ensures !TakenSince(Next(s, e).rows[id], since) ==>
              |AheadTaken(Next(s, e).rows, id, since)| >= |AheadTaken(s.rows, id, since)| + e.limit
  {
    var environment, picked := s.rows[id].environment, e.claimed;
    StepStarts(s, e, since);
    KeptTaken(s.rows, Next(s, e).rows, id, since);
    assert Next(s, e).rows == Started(s.rows, picked, s.now);
    if id !in picked {
      LeftBehind(s.rows, environment, s.now, e.locked, e.limit, picked, id);
      DistinctCount(picked);
      var added := Members(picked);
      var before, after := AheadTaken(s.rows, id, since), AheadTaken(Next(s, e).rows, id, since);
      hide OldestFirst, Candidates, OneActive, WorkersHold, RequestersHold;
      forall x | x in added ensures x in after && x !in before {
        ClaimableIsUntaken(s, x, environment, since);
      }
      TwoParts(before, added, after);
    }
  }

  lemma TwoParts(before: set<Id>, added: set<Id>, after: set<Id>)
    requires before <= after && added <= after && before !! added
    ensures |after| >= |before| + |added|
  {
    assert |before + added| == |before| + |added|;
    Smaller(before + added, after);
  }

  lemma Smaller(part: set<Id>, whole: set<Id>)
    requires part <= whole
    ensures |part| <= |whole|
  {
    assert whole == part + (whole - part);
  }

  // ----- over a run

  /** While the request waits, everything the claims had room for was taken ahead of it. */
  lemma {:induction false} RoomTaken(s: System, more: seq<Step>, id: Id)
    requires Healthy(s) && id in s.rows && Claimable(s.rows[id], s.rows[id].environment, s.now)
    requires Run(s, more).now < s.now + LEASE
    ensures Healthy(Run(s, more)) && s.now <= Run(s, more).now && id in Run(s, more).rows
    ensures var later := Run(s, more).rows;
            !TakenSince(later[id], s.now) && !Terminated(later[id]) ==>
              && later[id] == s.rows[id]
              && |AheadTaken(later, id, s.now)| >= Room(s, more, s.rows[id].environment, id)
  {
    hide Next, Healthy, Claims, Claimable;
    if |more| == 0 {
    } else {
      var init, e := more[..|more| - 1], more[|more| - 1];
      var before, environment := Run(s, init), s.rows[id].environment;
      TimeGrows(before, e);
      RoomTaken(s, init, id);
      StepHealthy(before, e);
      StepStarts(before, e, s.now);
      StillWaits(before, e, s.now, id);
      KeptTaken(before.rows, Next(before, e).rows, id, s.now);
      Smaller(AheadTaken(before.rows, id, s.now), AheadTaken(Next(before, e).rows, id, s.now));
      var after := Next(before, e).rows[id];
      if !TakenSince(after, s.now) && !Terminated(after) && Claims(before, e, environment, id) {
        assert before.rows[id] == after;
        ClaimableLater(s.rows[id], environment, s.now, before.now);
        ClaimTakes(before, e, id, s.now);
      }
    }
  }

  lemma TimeGrows(s: System, e: Step)
    ensures s.now <= Next(s, e).now
  {
  }

  lemma ClaimableLater(request: Request, environment: Environment, now: Time, later: Time)
    requires Claimable(request, environment, now) && now <= later
    ensures Claimable(request, environment, later)
  {
  }

  /**
   Oldest first, over every run and with any number of workers, crashes and failures: within a lease, a waiting
   request has been claimed, or was finished by a worker that still held it, once the claims that did not find it
   locked had room for every request of its environment that was requested no later than itself.
   */
  lemma TakenWithin(steps: seq<Step>, more: seq<Step>, id: Id)
    requires var s := Run(Empty, steps);
             && id in s.rows && Claimable(s.rows[id], s.rows[id].environment, s.now)
             && Run(s, more).now < s.now + LEASE
             && id in Run(s, more).rows
             && Room(s, more, s.rows[id].environment, id) >= |Ahead(Run(s, more).rows, id)|
    ensures var s := Run(Empty, steps);
            TakenSince(Run(s, more).rows[id], s.now) || Terminated(Run(s, more).rows[id])
  {
    hide Next;
    var s := Run(Empty, steps);
    var later := Run(s, more);
    AlwaysHealthy(steps);
    RoomTaken(s, more, id);
    hide Run, Healthy, Room;
    assert AheadTaken(later.rows, id, s.now) <= Ahead(later.rows, id) - {id};
    Smaller(AheadTaken(later.rows, id, s.now), Ahead(later.rows, id) - {id});
    assert id in Ahead(later.rows, id);
  }
}
