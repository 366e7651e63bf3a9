/**
 The leased queue of analysis requests: the table, the transactions on it, and the store as an object.
 A partial unique index allows one queued or running request for each user and environment.
 */
module AnalysisQueue {
  import opened Common

  /** A claim lapses after ten minutes. */
  const LEASE: Time := 10 * 60 * 1_000_000

  datatype Status = Queued | Running | Completed | Failed

  datatype Request = Request(
    userId: string,
    environment: Environment,
    status: Status,
    requestedAt: Time,
    startedAt: Option<Time>,
    completedAt: Option<Time>,
    scanId: Option<Id>,
    errorCode: Option<string>)

  predicate Active(request: Request) {
    request.status == Queued || request.status == Running
  }

  predicate ActiveFor(request: Request, user: string, environment: Environment) {
    Active(request) && request.userId == user && request.environment == environment
  }

  ghost predicate HasActive(rows: map<Id, Request>, user: string, environment: Environment) {
    exists id :: id in rows && ActiveFor(rows[id], user, environment)
  }

  /** The partial unique index. */
  ghost predicate OneActive(rows: map<Id, Request>) {
    forall a, b :: a in rows && b in rows && a != b && Active(rows[a]) && Active(rows[b]) ==>
      rows[a].userId != rows[b].userId || rows[a].environment != rows[b].environment
  }

  // ----- claiming

  predicate Claimable(request: Request, environment: Environment, now: Time) {
    request.environment == environment &&
    (request.status == Queued ||
     (request.status == Running && (request.startedAt.None? || request.startedAt.value <= now - LEASE)))
  }

  /** The rows a claim may take: those nobody else is claiming at this moment. */
  function Candidates(rows: map<Id, Request>, environment: Environment, now: Time, locked: set<Id>): set<Id> {
    set id | id in rows && id !in locked && Claimable(rows[id], environment, now)
  }

  /** The oldest candidates in order of request time, as many as the limit allows; ties may fall either way. */
  ghost predicate OldestFirst(rows: map<Id, Request>, candidates: set<Id>, limit: nat, picked: seq<Id>) {
    && (forall i, j :: 0 <= i < j < |picked| ==> picked[i] != picked[j])
    && (forall id :: id in picked ==> id in candidates)
    && candidates <= rows.Keys
    && (forall i, j :: 0 <= i < j < |picked| ==> rows[picked[i]].requestedAt <= rows[picked[j]].requestedAt)
    && (forall i, id :: 0 <= i < |picked| && id in candidates && id !in picked ==>
          rows[picked[i]].requestedAt <= rows[id].requestedAt)
    && (|picked| == limit || (|picked| < limit && forall id :: id in candidates ==> id in picked))
  }

  function Started(rows: map<Id, Request>, claimed: seq<Id>, now: Time): map<Id, Request> {
    map id | id in rows :: if id in claimed then rows[id].(status := Running, startedAt := Some(now)) else rows[id]
  }

  // ----- finishing

  datatype Outcome = Done(scanId: Id) | Broken(errorCode: string)

  function FinishedRow(request: Request, outcome: Outcome, at: Time): Request {
    match outcome
    case Done(scanId) =>
      request.(status := Completed, completedAt := Some(at), scanId := Some(scanId), errorCode := None)
    case Broken(errorCode) =>
      request.(status := Failed, completedAt := Some(at), scanId := None, errorCode := Some(errorCode))
  }

  /** Finishes the requests of a claim that are still running; the others were finished by someone else. */
  function Finished(rows: map<Id, Request>, claimed: seq<Id>, outcome: Outcome, at: Time): map<Id, Request> {
    map id | id in rows ::
      if id in claimed && rows[id].status == Running then FinishedRow(rows[id], outcome, at) else rows[id]
  }

  function NewRequest(user: string, environment: Environment, at: Time): Request {
    Request(user, environment, Queued, at, None, None, None, None)
  }

  // ----- the store

  class RequestStore {
    var rows: map<Id, Request>
    var nextId: Id

    ghost predicate Valid()
      reads this
    {
      OneActive(rows) && forall id :: id in rows ==> id < nextId
    }

    constructor ()
      ensures Valid() && rows == map[]
    {
      rows, nextId := map[], 0;
    }

    /** Looks for the active request of a user; the index allows at most one. */
    method FindActive(user: string, environment: Environment) returns (found: Option<Id>)
      requires Valid()
      ensures found.None? <==> !HasActive(rows, user, environment)
      ensures found.Some? ==> forall id :: id in rows && ActiveFor(rows[id], user, environment) <==> id == found.value
    {
      if id :| id in rows && ActiveFor(rows[id], user, environment) { return Some(id); }
      return None;
    }

    /** The insert of a request: refused by the index when an active request exists. */
    method Insert(user: string, environment: Environment, at: Time) returns (r: Result<Id, ()>)
      requires Valid()
      modifies this
      ensures Valid()
      ensures r.Ok? <==> !HasActive(old(rows), user, environment)
      ensures r.Ok? ==> r.value !in old(rows) &&
                        rows == old(rows)[r.value := Request(user, environment, Queued, at, None, None, None, None)]
      ensures r.Err? ==> rows == old(rows)
    {
      var active := FindActive(user, environment);
      if active.Some? { return Err(()); }
      r := Ok(nextId);
      rows, nextId := rows[nextId := NewRequest(user, environment, at)], nextId + 1;
    }

    /** One oldest candidate. */
    method Oldest(candidates: set<Id>) returns (oldest: Id)
      requires candidates != {} && candidates <= rows.Keys
      ensures oldest in candidates && forall id :: id in candidates ==> rows[oldest].requestedAt <= rows[id].requestedAt
    {
      oldest :| oldest in candidates;
      var rest := candidates - {oldest};
      while rest != {}
        invariant rest <= candidates && oldest in candidates
        invariant forall id :: id in candidates - rest ==> rows[oldest].requestedAt <= rows[id].requestedAt
        decreases rest
      {
        var id :| id in rest;
        if rows[id].requestedAt < rows[oldest].requestedAt { oldest := id; }
        rest := rest - {id};
      }
    }

    /** Claims the oldest claimable requests that no other transaction has locked. */
    method Claim(environment: Environment, now: Time, limit: nat, locked: set<Id>) returns (claimed: seq<Id>)
      requires Valid()
      modifies this
      ensures Valid()
      ensures OldestFirst(old(rows), Candidates(old(rows), environment, now, locked), limit, claimed)
      ensures rows == Started(old(rows), claimed, now)
      ensures forall id :: id in claimed ==>
                && id in old(rows) && id !in locked && old(rows)[id].environment == environment
                && (old(rows)[id].status == Queued || old(rows)[id].status == Running)
                && id in rows && rows[id] == old(rows)[id].(status := Running, startedAt := Some(now))
    {
      ghost var before := rows;
      var candidates := Candidates(rows, environment, now, locked);
      claimed := Pick(candidates, limit);
      PickedActive(before, environment, now, locked, limit, claimed);
      NoneStarted(before, now);
      hide OldestFirst, Candidates, Started, OneActive;
      for i := 0 to |claimed|
        invariant rows == Started(before, claimed[..i], now)
        invariant Valid()
      {
        StartOneMore(before, claimed, i, now);
        rows := rows[claimed[i] := rows[claimed[i]].(status := Running, startedAt := Some(now))];
      }
      assert claimed[..|claimed|] == claimed;
      ClaimedRows(before, environment, now, limit, locked, claimed);
    }

    method Pick(candidates: set<Id>, limit: nat) returns (picked: seq<Id>)
      requires candidates <= rows.Keys
      ensures OldestFirst(rows, candidates, limit, picked)
    {
      picked := [];
      var rest := candidates;
      while rest != {} && |picked| < limit
        invariant rest <= candidates && |picked| <= limit
        invariant forall i, j :: 0 <= i < j < |picked| ==> picked[i] != picked[j]
        invariant forall id :: id in picked <==> id in candidates && id !in rest
        invariant forall i, j :: 0 <= i < j < |picked| ==> rows[picked[i]].requestedAt <= rows[picked[j]].requestedAt
        invariant forall i, id :: 0 <= i < |picked| && id in rest ==>
                    rows[picked[i]].requestedAt <= rows[id].requestedAt
        decreases rest
      {
        var oldest := Oldest(rest);
        picked := picked + [oldest];
        rest := rest - {oldest};
      }
    }

    /** Completes or fails the requests of a claim that still run. */
    method Finish(claimed: seq<Id>, outcome: Outcome, at: Time)
      requires Valid()
      modifies this
      ensures Valid()
      ensures rows == Finished(old(rows), claimed, outcome, at)
      ensures forall id :: id in old(rows) ==> id in rows
      ensures forall id :: id in old(rows) && (id !in claimed || old(rows)[id].status != Running) ==>
                rows[id] == old(rows)[id]
      ensures forall id :: id in old(rows) && id in claimed && old(rows)[id].status == Running ==>
                if outcome.Done?
                then rows[id] == old(rows)[id].(status := Completed, completedAt := Some(at),
                                                scanId := Some(outcome.scanId), errorCode := None)
                else rows[id] == old(rows)[id].(status := Failed, completedAt := Some(at), scanId := None,
                                                errorCode := Some(outcome.errorCode))
    {
      ghost var before := rows;
      var running := set id | id in rows && id in claimed && rows[id].status == Running;
      var todo := running;
      FinishKeepsOne(before, claimed, outcome, at);
      while todo != {}
        invariant todo <= running && rows.Keys == before.Keys
        invariant forall id :: id in before ==>
                    rows[id] == if id in running && id !in todo then FinishedRow(before[id], outcome, at)
                                else before[id]
        invariant nextId == old(nextId)
        decreases todo
      {
        var id :| id in todo;
        rows := rows[id := FinishedRow(rows[id], outcome, at)];
        todo := todo - {id};
      }
      assert rows == Finished(before, claimed, outcome, at);
    }
  }

  lemma PickedActive(rows: map<Id, Request>, environment: Environment, now: Time, locked: set<Id>, limit: nat,
                     picked: seq<Id>)
    requires OldestFirst(rows, Candidates(rows, environment, now, locked), limit, picked)
    ensures forall j :: 0 <= j < |picked| ==> picked[j] in rows && Active(rows[picked[j]])
  {
    forall j | 0 <= j < |picked| ensures picked[j] in rows && Active(rows[picked[j]]) {
      assert picked[j] in picked;
      assert picked[j] in Candidates(rows, environment, now, locked);
    }
  }

  /** Claimed requests were unlocked and unfinished, and are started. */
  lemma ClaimedRows(rows: map<Id, Request>, environment: Environment, now: Time, limit: nat, locked: set<Id>,
                    claimed: seq<Id>)
    requires OldestFirst(rows, Candidates(rows, environment, now, locked), limit, claimed)
    ensures forall id :: id in claimed ==>
              && id in rows && id !in locked && rows[id].environment == environment
              && (rows[id].status == Queued || rows[id].status == Running)
              && id in Started(rows, claimed, now)
              && Started(rows, claimed, now)[id] == rows[id].(status := Running, startedAt := Some(now))
  {
    forall id | id in claimed ensures id in Candidates(rows, environment, now, locked) {}
  }

  lemma NoneStarted(rows: map<Id, Request>, now: Time)
    ensures Started(rows, [], now) == rows
  {
  }

  lemma StartOneMore(rows: map<Id, Request>, claimed: seq<Id>, i: nat, now: Time)
    requires i < |claimed| && claimed[i] in rows && OneActive(rows)
    requires Active(rows[claimed[i]]) && forall j :: 0 <= j < |claimed| ==>
               claimed[j] in rows && Active(rows[claimed[j]])
    ensures claimed[i] in Started(rows, claimed[..i], now)
    ensures var row := Started(rows, claimed[..i], now)[claimed[i]];
            Started(rows, claimed[..i], now)[claimed[i] := row.(status := Running, startedAt := Some(now))] ==
              Started(rows, claimed[..i + 1], now)
    ensures OneActive(Started(rows, claimed[..i + 1], now))
  {
  }

  /** Starting active requests keeps the index. */
  lemma StartKeepsOne(rows: map<Id, Request>, claimed: seq<Id>, now: Time)
    requires OneActive(rows) && forall id :: id in claimed ==> id in rows && Active(rows[id])
    ensures OneActive(Started(rows, claimed, now))
  {
  }

  lemma FinishKeepsOne(rows: map<Id, Request>, claimed: seq<Id>, outcome: Outcome, at: Time)
    requires OneActive(rows)
    ensures OneActive(Finished(rows, claimed, outcome, at))
  {
  }

  lemma InsertKeepsOne(rows: map<Id, Request>, id: Id, user: string, environment: Environment, at: Time)
    requires OneActive(rows) && id !in rows && !HasActive(rows, user, environment)
    ensures OneActive(rows[id := NewRequest(user, environment, at)])
  {
  }

  /** A claim with room for every candidate takes every candidate. */
  lemma RoomyClaimTakesAll(rows: map<Id, Request>, candidates: set<Id>, limit: nat, picked: seq<Id>, id: Id)
    requires OldestFirst(rows, candidates, limit, picked) && |candidates| <= limit && id in candidates
    ensures id in picked
  {
    if id !in picked {
      PickedFits(picked, candidates - {id});
    }
  }

  lemma {:induction false} PickedFits(picked: seq<Id>, within: set<Id>)
    requires forall i, j :: 0 <= i < j < |picked| ==> picked[i] != picked[j]
    requires forall id :: id in picked ==> id in within
    ensures |picked| <= |within|
  {
    if |picked| == 0 {
    } else {
      var last := picked[|picked| - 1];
      forall id | id in picked[..|picked| - 1] ensures id in within - {last} {
        assert id in picked;
      }
      PickedFits(picked[..|picked| - 1], within - {last});
    }
  }
}
