/**
 The stores as objects over one mutable database. Each method runs one transaction step by step on
 local rows and commits at the end, or raises and leaves the database as it was; its contract is the
 transaction function of the same name.
 */
module Stores {
  import opened Common
  import opened ExecutionDomain
  import opened Transactions
  import opened Ledger

  /** The value a transaction returns, without the database it leaves. */
  function Answer<T>(outcome: Outcome<T>): Result<T, Failure> {
    match outcome
    case Ok((_, value)) => Ok(value)
    case Err(failure) => Err(failure)
  }

  class Database {
    var connections: map<Id, Connection>
    var contexts: map<string, Context>
    var proposals: map<Id, ProposalRow>
    var reviews: map<Id, OrderReview>
    var orders: map<Id, Order>
    var positions: map<Id, Position>
    var checkpoints: map<Id, Time>
    var actionReviews: map<Id, ActionReview>
    var actions: map<Id, Action>
    var nextId: Id

    ghost function State(): Db
      reads this
    {
      Db(connections, contexts, proposals, reviews, orders, positions, checkpoints, actionReviews, actions, nextId)
    }

    /** The constraints every transaction relies on and keeps. */
    ghost predicate Valid()
      reads this
    {
      Sound(State())
    }

    constructor ()
      ensures Valid() && State() == EmptyDb
    {
      connections, contexts, proposals, reviews, orders := map[], map[], map[], map[], map[];
      positions, checkpoints, actionReviews, actions, nextId := map[], map[], map[], map[], 0;
      new;
      assert ApplyAll(EmptyDb, []) == EmptyDb;
      AlwaysSound([]);
    }
  }

  /** Completes, one after the other, the actions of one type on the targets that await evidence. */
  method CompleteEach(actions: map<Id, Action>, actionType: ActionType, targets: set<Id>, at: Time)
    returns (after: map<Id, Action>)
    ensures after == CompleteActions(actions, actionType, targets, at)
  {
    var todo := set a | a in actions && actions[a].actionType == actionType && actions[a].targetId in targets &&
                        AwaitsEvidence(actions[a].state);
    var goal := CompleteActions(actions, actionType, targets, at);
    after := actions;
    while todo != {}
      invariant todo <= actions.Keys && after.Keys == actions.Keys
      invariant forall a :: a in actions ==> after[a] == if a in todo then actions[a] else goal[a]
      invariant forall a :: a in todo ==> goal[a] == CompleteAction(actions[a], at)
      decreases todo
    {
      var a :| a in todo;
      after := after[a := CompleteAction(actions[a], at)];
      todo := todo - {a};
    }
  }

  /** Completes the protection actions on one position whose reviewed boundaries the snapshot shows. */
  method CompleteProtected(actions: map<Id, Action>, reviews: map<Id, ActionReview>, target: Id, terms: PositionTerms,
                           at: Time)
    returns (after: map<Id, Action>)
    ensures after == CompleteProtection(actions, reviews, target, terms, at)
  {
    var todo := set a | a in actions && actions[a].actionType == ActionType.UpdateProtection &&
      actions[a].targetId == target &&
                        AwaitsEvidence(actions[a].state);
    var goal := CompleteProtection(actions, reviews, target, terms, at);
    after := actions;
    while todo != {}
      invariant todo <= actions.Keys && after.Keys == actions.Keys
      invariant forall a :: a in actions ==> after[a] == if a in todo then actions[a] else goal[a]
      invariant forall a :: a in todo ==>
        goal[a] == if ProtectionMatches(reviews, actions[a], terms) then CompleteAction(actions[a], at) else actions[a]
      decreases todo
    {
      var a :| a in todo;
      if ProtectionMatches(reviews, actions[a], terms) {
        after := after[a := CompleteAction(actions[a], at)];
      }
      todo := todo - {a};
    }
  }

  /** Invalidates, one after the other, the available proposals of a user. */
  method InvalidateEach(proposals: map<Id, ProposalRow>, user: string, conn: Option<Id>, now: Time)
    returns (after: map<Id, ProposalRow>)
    ensures after == InvalidatePending(proposals, user, conn, now)
  {
    var todo := set p | p in proposals && PendingOf(proposals[p], user, conn);
    var goal := InvalidatePending(proposals, user, conn, now);
    after := proposals;
    while todo != {}
      invariant todo <= proposals.Keys && after.Keys == proposals.Keys
      invariant forall p :: p in proposals ==> after[p] == if p in todo then proposals[p] else goal[p]
      invariant forall p :: p in todo ==> goal[p] == WithStatus(proposals[p], ProposalStatus.Invalidated, now)
      decreases todo
    {
      var p :| p in todo;
      after := after[p := WithStatus(proposals[p], ProposalStatus.Invalidated, now)];
      todo := todo - {p};
    }
  }

  class ExecutionStore {
    const sessions: Database

    constructor (sessions: Database)
      ensures this.sessions == sessions
    {
      this.sessions := sessions;
    }

    /** The checks of a submission under an unused key, in order. */
    method SubmissionBlocked(user: string, pid: Id, input: SubmitInput, now: Time) returns (failure: Option<Failure>)
      ensures failure == SubmissionRefusal(sessions.State(), user, pid, input, now)
    {
      if input.reviewId !in sessions.reviews || pid !in sessions.proposals { return Some(NotFound); }
      var review, proposal := sessions.reviews[input.reviewId], sessions.proposals[pid].payload;
      if review.userId != user || review.proposalId != pid || sessions.proposals[pid].userId != user {
        return Some(NotFound);
      }
      if review.consumedAt.Some? || review.expiresAt <= now || review.proposalHash != input.proposalHash {
        return Some(Conflict);
      }
      if proposal.status != ProposalStatus.Available || proposal.expiresAt <= now { return Some(Conflict); }
      var conn := proposal.connectionId;
      if conn !in sessions.connections || user !in sessions.contexts { return Some(Conflict); }
      if sessions.connections[conn].userId != user || sessions.connections[conn].status != ConnectionStatus.Healthy ||
         sessions.contexts[user].connectionId != conn || !sessions.connections[conn].hasCredential {
        return Some(Conflict);
      }
      return None;
    }

    method BeginSubmission(user: string, pid: Id, input: SubmitInput, now: Time)
      returns (r: Result<SubmissionStart, Failure>)
      requires sessions.Valid()
      modifies sessions
      ensures sessions.Valid()
      ensures sessions.State() ==
              After(old(sessions.State()), Transactions.BeginSubmission(old(sessions.State()), user, pid, input, now))
      ensures r == Answer(Transactions.BeginSubmission(old(sessions.State()), user, pid, input, now))
    {
      hide Sound, Transactions.BeginSubmission, SubmissionRefusal;
      ghost var db := sessions.State();
      KeepBegin(db, user, pid, input, now);
      if id :| id in sessions.orders && sessions.orders[id].userId == user &&
               sessions.orders[id].idempotencyKey == input.idempotencyKey {
        RepeatedSubmission(db, user, pid, input, now, id);
        if sessions.orders[id].proposalId != pid { return Err(Conflict); }
        if pid !in sessions.proposals || sessions.proposals[pid].userId != user { return Err(NotFound); }
        return Ok(SubmissionStart(id, sessions.proposals[pid].payload, false));
      }
      var failure := SubmissionBlocked(user, pid, input, now);
      FirstSubmission(db, user, pid, input, now);
      if failure.Some? { return Err(failure.value); }
      var id, conn := sessions.nextId, sessions.proposals[pid].payload.connectionId;
      sessions.nextId := id + 1;
      sessions.orders := sessions.orders[id :=
        NewOrder(id, user, pid, sessions.proposals[pid].payload, sessions.connections[conn].environment,
                 input.idempotencyKey, now)];
      var review := sessions.reviews[input.reviewId];
      sessions.reviews := sessions.reviews[input.reviewId := review.(consumedAt := Some(now))];
      var submitted := WithStatus(sessions.proposals[pid], ProposalStatus.Submitted, now);
      sessions.proposals := sessions.proposals[pid := submitted];
      return Ok(SubmissionStart(id, submitted.payload, true));
    }

    /** The checks of an action under an unused key, in order. */
    method ActionBlocked(user: string, actionType: ActionType, target: Id, input: ConfirmInput, now: Time)
      returns (failure: Option<Failure>)
      ensures failure == ActionRefusal(sessions.State(), user, actionType, target, input, now)
    {
      if a :| a in sessions.actions && sessions.actions[a].userId == user && sessions.actions[a].targetId == target &&
              InFlight(sessions.actions[a].state) {
        return Some(Conflict);
      }
      if input.reviewId !in sessions.actionReviews { return Some(NotFound); }
      var review := sessions.actionReviews[input.reviewId];
      if review.userId != user || review.actionType != actionType || review.targetId != target {
        return Some(NotFound);
      }
      if review.consumedAt.Some? || review.expiresAt <= now || review.actionHash != input.actionHash {
        return Some(Conflict);
      }
      return None;
    }

    method BeginAction(user: string, actionType: ActionType, target: Id, input: ConfirmInput, now: Time)
      returns (r: Result<ActionStart, Failure>)
      requires sessions.Valid()
      modifies sessions
      ensures sessions.Valid()
      ensures sessions.State() ==
              After(old(sessions.State()),
                    Transactions.BeginAction(old(sessions.State()), user, actionType, target, input, now))
      ensures r == Answer(Transactions.BeginAction(old(sessions.State()), user, actionType, target, input, now))
    {
      hide Sound, Transactions.BeginAction, ActionRefusal;
      ghost var db := sessions.State();
      KeepAct(db, user, actionType, target, input, now);
      UnownedAction(db, user, actionType, target, input, now);
      if actionType == ActionType.CancelOrder {
        if target !in sessions.orders || sessions.orders[target].userId != user { return Err(NotFound); }
      } else {
        if target !in sessions.positions || sessions.positions[target].userId != user { return Err(NotFound); }
      }
      if a :| a in sessions.actions && sessions.actions[a].userId == user &&
              sessions.actions[a].idempotencyKey == input.idempotencyKey {
        RepeatedAction(db, user, actionType, target, input, now, a);
        if sessions.actions[a].actionType != actionType || sessions.actions[a].targetId != target {
          return Err(Conflict);
        }
        return Ok(ActionStart(a, sessions.actionReviews[sessions.actions[a].reviewId].terms, false));
      }
      var failure := ActionBlocked(user, actionType, target, input, now);
      FirstAction(db, user, actionType, target, input, now);
      if failure.Some? { return Err(failure.value); }
      var id, review := sessions.nextId, sessions.actionReviews[input.reviewId];
      sessions.nextId := id + 1;
      sessions.actions := sessions.actions[id :=
        Action(input.reviewId, user, actionType, target, review.terms.connectionId, ActionState.Submitting,
               input.idempotencyKey, ActionLink(actionType, id), None, None, now, now)];
      sessions.actionReviews := sessions.actionReviews[input.reviewId := review.(consumedAt := Some(now))];
      if actionType == ActionType.CancelOrder {
        sessions.orders := sessions.orders[target := sessions.orders[target].(state := OrderState.Cancelling,
                                                                              updatedAt := now)];
      }
      return Ok(ActionStart(id, review.terms, true));
    }

    method MarkAction(actionId: Id, state: ActionState, brokerOrderId: Option<string>, errorCode: Option<string>,
                      now: Time)
      returns (r: Result<(), Failure>)
      requires sessions.Valid()
      modifies sessions
      ensures sessions.Valid()
      ensures sessions.State() ==
              After(old(sessions.State()),
                    Transactions.MarkAction(old(sessions.State()), actionId, state, brokerOrderId, errorCode, now))
      ensures r == Answer(Transactions.MarkAction(old(sessions.State()), actionId, state, brokerOrderId, errorCode,
                                                  now))
    {
      hide Sound;
      KeepSetAction(sessions.State(), actionId, state, brokerOrderId, errorCode, now);
      if actionId !in sessions.actions { return Err(NotFound); }
      var record := sessions.actions[actionId].(state := state, errorCode := errorCode, updatedAt := now);
      if brokerOrderId.Some? { record := record.(brokerOrderId := brokerOrderId); }
      sessions.actions := sessions.actions[actionId := record];
      return Ok(());
    }

    /** The shared body of marking an order acknowledged or failed. */
    method SetState(orderId: Id, state: OrderState, brokerOrderId: Option<string>, errorCode: Option<string>, now: Time)
      returns (r: Result<(), Failure>)
      requires sessions.Valid()
      modifies sessions
      ensures sessions.Valid()
      ensures sessions.State() ==
              After(old(sessions.State()),
                    SetOrderState(old(sessions.State()), orderId, state, brokerOrderId, errorCode, now))
      ensures r == Answer(SetOrderState(old(sessions.State()), orderId, state, brokerOrderId, errorCode, now))
    {
      hide Sound;
      KeepSetOrder(sessions.State(), orderId, state, brokerOrderId, errorCode, now);
      if orderId !in sessions.orders { return Err(NotFound); }
      var record := sessions.orders[orderId].(state := state, updatedAt := now, errorCode := errorCode);
      if brokerOrderId.Some? { record := record.(brokerOrderId := brokerOrderId); }
      sessions.orders := sessions.orders[orderId := record];
      if state == OrderState.Rejected {
        ArchiveOne(record.proposalId, now);
      }
      return Ok(());
    }

    /** Archives a proposal if it is still submitted. */
    method ArchiveOne(pid: Id, at: Time)
      modifies sessions`proposals
      ensures sessions.proposals == ArchiveProposal(old(sessions.proposals), pid, at)
    {
      if pid in sessions.proposals && sessions.proposals[pid].status == ProposalStatus.Submitted {
        sessions.proposals := sessions.proposals[pid := WithStatus(sessions.proposals[pid], ProposalStatus.Archived,
                                                                   at)];
      }
    }

    method ReconcileOrder(orderId: Id, snapshot: OrderSnapshot, state: OrderState, at: Time)
      returns (r: Result<(), Failure>)
      requires sessions.Valid()
      modifies sessions
      ensures sessions.Valid()
      ensures sessions.State() ==
              After(old(sessions.State()),
                    Transactions.ReconcileOrder(old(sessions.State()), orderId, snapshot, state, at))
      ensures r == Answer(Transactions.ReconcileOrder(old(sessions.State()), orderId, snapshot, state, at))
    {
      hide Sound;
      KeepReconcile(sessions.State(), orderId, snapshot, state, at);
      if orderId !in sessions.orders { return Err(NotFound); }
      var record := sessions.orders[orderId].(state := state, brokerOrderId := Some(snapshot.orderId),
                                              facts := snapshot.facts, brokerStatus := Some(snapshot.status),
                                              lastReconciledAt := Some(at), updatedAt := at);
      sessions.orders := sessions.orders[orderId := record];
      if state == OrderState.Cancelled {
        sessions.actions := CompleteEach(sessions.actions, ActionType.CancelOrder, {orderId}, at);
      }
      if (state == OrderState.Cancelled || state == OrderState.Rejected) && snapshot.facts.executed == 0.0 {
        ArchiveOne(record.proposalId, at);
      }
      return Ok(());
    }

    /** Archives, one after the other, the submitted proposals of one account on one symbol. */
    method ArchiveSymbol(proposals: map<Id, ProposalRow>, row: Position, at: Time) returns (after: map<Id, ProposalRow>)
      ensures after == ArchiveSymbols(proposals, map[0 := row], {0}, at)
    {
      var todo := set p | p in proposals && proposals[p].status == ProposalStatus.Submitted &&
        proposals[p].userId == row.userId &&
                          proposals[p].connectionId == row.connectionId && proposals[p].symbol == row.key.symbol;
      ghost var goal := ArchiveSymbols(proposals, map[0 := row], {0}, at);
      ArchivedRows(proposals, row, at);
      hide ArchiveSymbols, WithStatus;
      after := proposals;
      while todo != {}
        invariant todo <= proposals.Keys && after.Keys == proposals.Keys
        invariant forall p :: p in proposals ==> after[p] == if p in todo then proposals[p] else goal[p]
        decreases todo
      {
        var p :| p in todo;
        after := after[p := WithStatus(proposals[p], ProposalStatus.Archived, at)];
        todo := todo - {p};
      }
    }

    /** The second loop: closes each vanished row, completes its close actions, archives its symbol. */
    method CloseEach(rows: map<Id, Position>, closing: set<Id>, actions: map<Id, Action>,
                     proposals: map<Id, ProposalRow>, at: Time)
      returns (rows': map<Id, Position>, actions': map<Id, Action>, proposals': map<Id, ProposalRow>)
      requires closing <= rows.Keys
      ensures rows' == CloseRows(rows, closing, at)
      ensures actions' == CompleteActions(actions, ActionType.ClosePosition, closing, at)
      ensures proposals' == ArchiveSymbols(proposals, rows, closing, at)
    {
      rows', actions', proposals' := rows, actions, proposals;
      var done: set<Id> := {};
      while closing - done != {}
        invariant done <= closing
        invariant rows' == CloseRows(rows, done, at)
        invariant actions' == CompleteActions(actions, ActionType.ClosePosition, done, at)
        invariant proposals' == ArchiveSymbols(proposals, rows, done, at)
        decreases closing - done
      {
        var id :| id in closing - done;
        rows' := rows'[id := ClosedPosition(rows'[id], at)];
        actions' := CompleteEach(actions', ActionType.ClosePosition, {id}, at);
        proposals' := ArchiveSymbol(proposals', rows[id], at);
        CloseOneMore(rows, done, id, at);
        CompleteOneMore(actions, done, id, at);
        ArchiveOneMore(proposals, rows, done, id, at);
        hide CloseRows, CompleteActions, ArchiveSymbols;
        done := done + {id};
      }
      assert done == closing;
    }

    /** One snapshot: the row filed under its key is updated, or a new row is inserted. */
    method UpsertOne(loaded: map<Id, Position>, before: Db, user: string, conn: Id, environment: Environment,
                     snapshot: PositionSnapshot, at: Time)
      returns (ok: bool, rows: map<Id, Position>, actions: map<Id, Action>, nextId: Id)
      requires PositionsUnique(loaded)
      ensures UpsertPosition(loaded, before, user, conn, environment, snapshot, at) ==
              if ok then Ok(before.(positions := rows, actions := actions, nextId := nextId)) else Err(IntegrityError)
    {
      ok, rows, actions, nextId := true, before.positions, before.actions, before.nextId;
      if id :| id in loaded && loaded[id].connectionId == conn && loaded[id].key == snapshot.key {
        RowIsUnique(loaded, conn, snapshot.key, id);
        if id !in rows { return false, rows, actions, nextId; }
        rows := rows[id := UpdatedPosition(rows[id], snapshot, at)];
        actions := CompleteProtected(actions, before.actionReviews, id, snapshot.terms, at);
      } else if id :| id in rows && rows[id].connectionId == conn && rows[id].key == snapshot.key {
        return false, rows, actions, nextId;
      } else {
        rows := rows[nextId := NewPosition(user, conn, environment, snapshot, at)];
        nextId := nextId + 1;
      }
    }

    /** The first loop: one upsert a snapshot, on the rows of the session. */
    method UpsertEach(user: string, conn: Id, environment: Environment, snapshots: seq<PositionSnapshot>, at: Time)
      returns (ok: bool, rows: map<Id, Position>, actions: map<Id, Action>, nextId: Id)
      requires sessions.Valid()
      ensures UpsertPositions(sessions.State(), user, conn, environment, snapshots, at) ==
              if ok then Ok(sessions.State().(positions := rows, actions := actions, nextId := nextId))
              else Err(IntegrityError)
    {
      ghost var db := sessions.State();
      hide Sound;
      assert PositionsUnique(db.positions) by { SoundRows(db); }
      ok, rows, actions, nextId := true, sessions.positions, sessions.actions, sessions.nextId;
      var session := Db(sessions.connections, sessions.contexts, sessions.proposals, sessions.reviews, sessions.orders,
                        rows, sessions.checkpoints, sessions.actionReviews, actions, nextId);
      for i := 0 to |snapshots|
        invariant UpsertPositions(db, user, conn, environment, snapshots[..i], at) == Ok(session)
        invariant session == db.(positions := rows, actions := actions, nextId := nextId) && ok
      {
        hide PositionsUnique, UpsertPosition;
        UpsertNext(db, user, conn, environment, snapshots, at, i);
        hide UpsertPositions;
        ok, rows, actions, nextId := UpsertOne(sessions.positions, session, user, conn, environment, snapshots[i], at);
        if !ok {
          UpsertStops(db, user, conn, environment, snapshots, at, i + 1);
          return;
        }
        session := session.(positions := rows, actions := actions, nextId := nextId);
      }
      assert snapshots[..|snapshots|] == snapshots;
    }

    method ReplaceOpenPositions(user: string, conn: Id, environment: Environment, snapshots: seq<PositionSnapshot>,
                                at: Time)
      returns (r: Result<(), Failure>)
      requires sessions.Valid()
      modifies sessions
      ensures sessions.Valid()
      ensures sessions.State() ==
              After(old(sessions.State()),
                    Transactions.ReplaceOpenPositions(old(sessions.State()), user, conn, environment, snapshots, at))
      ensures r == Answer(Transactions.ReplaceOpenPositions(old(sessions.State()), user, conn, environment, snapshots,
                                                            at))
    {
      KeepReplace(sessions.State(), user, conn, environment, snapshots, at);
      var ok, rows, actions, nextId := UpsertEach(user, conn, environment, snapshots, at);
      hide Sound, UpsertPositions;
      if !ok { return Err(IntegrityError); }
      var closing := Vanished(rows, conn, SeenKeys(snapshots));
      var closed, completed, archived := CloseEach(rows, closing, actions, sessions.proposals, at);
      sessions.positions, sessions.actions, sessions.proposals, sessions.nextId := closed, completed, archived, nextId;
      sessions.checkpoints := sessions.checkpoints[conn := at];
      return Ok(());
    }

    /** The orders a reconciliation cycle polls: those of the connection that may still change. */
    method ListReconcilableOrders(conn: Id) returns (ids: set<Id>)
      ensures forall o :: o in ids <==>
              o in sessions.orders && sessions.orders[o].connectionId == conn && !Terminal(sessions.orders[o].state)
    {
      ids := set o | o in sessions.orders && sessions.orders[o].connectionId == conn &&
        Reconcilable(sessions.orders[o].state);
    }
  }

  class ProposalStore {
    const sessions: Database

    constructor (sessions: Database)
      ensures this.sessions == sessions
    {
      this.sessions := sessions;
    }

    /** Stores a proposal in whatever status it has; one submitted or archived would lack its order. */
    method Create(proposal: TradeProposal) returns (r: Result<Id, Failure>)
      requires sessions.Valid()
      modifies sessions
      ensures Unordered(proposal.status) ==> sessions.Valid()
      ensures sessions.State() == After(old(sessions.State()), InsertProposal(old(sessions.State()), proposal))
      ensures r == Answer(InsertProposal(old(sessions.State()), proposal))
    {
      hide Sound;
      if Unordered(proposal.status) { KeepPropose(sessions.State(), proposal); }
      if proposal.connectionId !in sessions.connections { return Err(IntegrityError); }
      if id :| id in sessions.proposals && sessions.proposals[id].proposalHash == proposal.proposalHash {
        return Err(IntegrityError);
      }
      var id := sessions.nextId;
      sessions.nextId := id + 1;
      sessions.proposals := sessions.proposals[id := RowFor(proposal)];
      return Ok(id);
    }

    method Reject(user: string, pid: Id, now: Time) returns (r: Result<(), Failure>)
      requires sessions.Valid()
      modifies sessions
      ensures sessions.Valid()
      ensures sessions.State() == After(old(sessions.State()), RejectProposal(old(sessions.State()), user, pid, now))
      ensures r == Answer(RejectProposal(old(sessions.State()), user, pid, now))
    {
      hide Sound;
      KeepReject(sessions.State(), user, pid, now);
      if pid !in sessions.proposals || sessions.proposals[pid].userId != user { return Err(NotFound); }
      if sessions.proposals[pid].status != ProposalStatus.Available { return Err(Conflict); }
      sessions.proposals := sessions.proposals[pid := WithStatus(sessions.proposals[pid], ProposalStatus.Rejected,
                                                                 now)];
      return Ok(());
    }
  }

  class BrokerContextService {
    const sessions: Database

    constructor (sessions: Database)
      ensures this.sessions == sessions
    {
      this.sessions := sessions;
    }

    method Switch(user: string, environment: Environment, conn: Id, now: Time) returns (r: Result<(), Failure>)
      requires sessions.Valid()
      modifies sessions
      ensures sessions.Valid()
      ensures sessions.State() ==
              After(old(sessions.State()), SwitchContext(old(sessions.State()), user, environment, conn, now))
      ensures r == Answer(SwitchContext(old(sessions.State()), user, environment, conn, now))
    {
      hide Sound;
      KeepSwitch(sessions.State(), user, environment, conn, now);
      if conn !in sessions.connections || sessions.connections[conn].userId != user { return Err(NotFound); }
      if sessions.connections[conn].environment != environment { return Err(Conflict); }
      if sessions.connections[conn].status != ConnectionStatus.Healthy ||
         sessions.connections[conn].lastSyncedAt.None? {
        return Err(Conflict);
      }
      var changed := user !in sessions.contexts || sessions.contexts[user].connectionId != conn;
      sessions.contexts := sessions.contexts[user := Context(environment, conn, now)];
      if changed {
        sessions.proposals := InvalidateEach(sessions.proposals, user, None, now);
      }
      return Ok(());
    }

    method Revoke(user: string, conn: Id, now: Time) returns (r: Result<(), Failure>)
      requires sessions.Valid()
      modifies sessions
      ensures sessions.Valid()
      ensures sessions.State() == After(old(sessions.State()), RevokeConnection(old(sessions.State()), user, conn, now))
      ensures r == Answer(RevokeConnection(old(sessions.State()), user, conn, now))
    {
      hide Sound;
      KeepRevoke(sessions.State(), user, conn, now);
      if conn !in sessions.connections || sessions.connections[conn].userId != user { return Err(NotFound); }
      var revoked := sessions.connections[conn].(status := ConnectionStatus.Revoked, hasCredential := false);
      sessions.connections := sessions.connections[conn := revoked];
      if user in sessions.contexts && sessions.contexts[user].connectionId == conn {
        sessions.contexts := sessions.contexts - {user};
      }
      sessions.proposals := InvalidateEach(sessions.proposals, user, Some(conn), now);
      return Ok(());
    }
  }

  class BrokerStore {
    const sessions: Database

    constructor (sessions: Database)
      ensures this.sessions == sessions
    {
      this.sessions := sessions;
    }

    method SaveSnapshot(user: string, conn: Id, capturedAt: Time, now: Time) returns (r: Result<(), Failure>)
      requires sessions.Valid()
      modifies sessions
      ensures sessions.Valid()
      ensures sessions.State() ==
              After(old(sessions.State()), SaveAccountSnapshot(old(sessions.State()), user, conn, capturedAt, now))
      ensures r == Answer(SaveAccountSnapshot(old(sessions.State()), user, conn, capturedAt, now))
    {
      hide Sound;
      KeepConnections(sessions.State(), Sync(user, conn, capturedAt, now));
      if conn !in sessions.connections || sessions.connections[conn].userId != user { return Err(NotFound); }
      var record := sessions.connections[conn].(status := ConnectionStatus.Healthy, lastSyncedAt := Some(capturedAt));
      sessions.connections := sessions.connections[conn := record];
      if user !in sessions.contexts {
        sessions.contexts := sessions.contexts[user := Context(record.environment, conn, now)];
      }
      return Ok(());
    }
  }

  // ----- the loops, one step at a time

  lemma CloseOneMore(rows: map<Id, Position>, done: set<Id>, id: Id, at: Time)
    requires id in rows && id !in done
    ensures CloseRows(rows, done, at)[id := ClosedPosition(rows[id], at)] == CloseRows(rows, done + {id}, at)
  {
  }

  lemma CompleteOneMore(actions: map<Id, Action>, done: set<Id>, id: Id, at: Time)
    ensures CompleteActions(CompleteActions(actions, ActionType.ClosePosition, done, at), ActionType.ClosePosition,
                            {id}, at) ==
            CompleteActions(actions, ActionType.ClosePosition, done + {id}, at)
  {
  }

  /** Closing one row archives the submitted proposals of its account on its symbol, and nothing else. */
  lemma ArchivedRows(proposals: map<Id, ProposalRow>, row: Position, at: Time)
    ensures var after := ArchiveSymbols(proposals, map[0 := row], {0}, at);
            && after.Keys == proposals.Keys
            && forall p :: p in proposals ==>
                 after[p] == if proposals[p].status == ProposalStatus.Submitted && proposals[p].userId == row.userId &&
                                proposals[p].connectionId == row.connectionId && proposals[p].symbol == row.key.symbol
                             then WithStatus(proposals[p], ProposalStatus.Archived, at) else proposals[p]
  {
  }

  lemma ArchiveOneMore(proposals: map<Id, ProposalRow>, rows: map<Id, Position>, done: set<Id>, id: Id, at: Time)
    requires id in rows
    ensures ArchiveSymbols(ArchiveSymbols(proposals, rows, done, at), map[0 := rows[id]], {0}, at) ==
            ArchiveSymbols(proposals, rows, done + {id}, at)
  {
  }

  lemma SoundRows(db: Db)
    requires Sound(db)
    ensures PositionsUnique(db.positions)
  {
  }

  lemma RowIsUnique(positions: map<Id, Position>, conn: Id, key: PositionKey, id: Id)
    requires PositionsUnique(positions) && id in positions && positions[id].connectionId == conn &&
             positions[id].key == key
    ensures HasRow(positions, conn, key) && RowOf(positions, conn, key) == id
  {
  }

  lemma UpsertNext(db: Db, user: string, conn: Id, environment: Environment, snapshots: seq<PositionSnapshot>,
                   at: Time, i: nat)
    requires i < |snapshots|
    ensures var before := UpsertPositions(db, user, conn, environment, snapshots[..i], at);
            UpsertPositions(db, user, conn, environment, snapshots[..i + 1], at) ==
            if before.Err? then Err(before.error)
            else UpsertPosition(db.positions, before.value, user, conn, environment, snapshots[i], at)
  {
    assert snapshots[..i + 1][..i] == snapshots[..i];
    hide UpsertPosition;
  }

  /** Once the loop has failed it fails, whatever snapshots follow. */
  lemma {:induction false} UpsertStops(db: Db, user: string, conn: Id, environment: Environment,
                                       snapshots: seq<PositionSnapshot>, at: Time, i: nat)
    requires i <= |snapshots| && UpsertPositions(db, user, conn, environment, snapshots[..i], at) == Err(IntegrityError)
    ensures UpsertPositions(db, user, conn, environment, snapshots, at) == Err(IntegrityError)
    decreases |snapshots| - i
  {
    if i == |snapshots| {
      assert snapshots[..i] == snapshots;
    } else {
      UpsertNext(db, user, conn, environment, snapshots, at, i);
      UpsertStops(db, user, conn, environment, snapshots, at, i + 1);
    }
  }

  // ----- what a transaction returns, case by case

  lemma RepeatedSubmission(db: Db, user: string, pid: Id, input: SubmitInput, now: Time, id: Id)
    requires Sound(db) && id in db.orders && db.orders[id].userId == user &&
             db.orders[id].idempotencyKey == input.idempotencyKey
    ensures Transactions.BeginSubmission(db, user, pid, input, now) ==
            if db.orders[id].proposalId != pid then Err(Conflict)
            else if pid !in db.proposals || db.proposals[pid].userId != user then Err(NotFound)
            else Ok((db, SubmissionStart(id, db.proposals[pid].payload, false)))
  {
  }

  lemma FirstSubmission(db: Db, user: string, pid: Id, input: SubmitInput, now: Time)
    requires Sound(db) && !OrderKeyTaken(db, user, input.idempotencyKey)
    ensures match SubmissionRefusal(db, user, pid, input, now)
            case Some(failure) => Transactions.BeginSubmission(db, user, pid, input, now) == Err(failure)
            case None =>
              && pid in db.proposals && db.proposals[pid].payload.connectionId in db.connections &&
                   input.reviewId in db.reviews
              && Transactions.BeginSubmission(db, user, pid, input, now) ==
                 Ok((SubmissionBegun(db, user, pid, input, now),
                     SubmissionStart(db.nextId, WithStatus(db.proposals[pid], ProposalStatus.Submitted, now).payload,
                                     true)))
  {
  }

  lemma UnownedAction(db: Db, user: string, actionType: ActionType, target: Id, input: ConfirmInput, now: Time)
    ensures !OwnsTarget(db, user, actionType, target) ==>
              Transactions.BeginAction(db, user, actionType, target, input, now) == Err(NotFound)
  {
  }

  lemma RepeatedAction(db: Db, user: string, actionType: ActionType, target: Id, input: ConfirmInput, now: Time, a: Id)
    requires Sound(db) && OwnsTarget(db, user, actionType, target)
    requires a in db.actions && db.actions[a].userId == user && db.actions[a].idempotencyKey == input.idempotencyKey
    ensures db.actions[a].reviewId in db.actionReviews
    ensures Transactions.BeginAction(db, user, actionType, target, input, now) ==
            if db.actions[a].actionType != actionType || db.actions[a].targetId != target then Err(Conflict)
            else Ok((db, ActionStart(a, db.actionReviews[db.actions[a].reviewId].terms, false)))
  {
  }

  lemma FirstAction(db: Db, user: string, actionType: ActionType, target: Id, input: ConfirmInput, now: Time)
    requires Sound(db) && OwnsTarget(db, user, actionType, target) && !ActionKeyTaken(db, user, input.idempotencyKey)
    ensures match ActionRefusal(db, user, actionType, target, input, now)
            case Some(failure) => Transactions.BeginAction(db, user, actionType, target, input, now) == Err(failure)
            case None =>
              && input.reviewId in db.actionReviews
              && (actionType == ActionType.CancelOrder ==> target in db.orders)
              && Transactions.BeginAction(db, user, actionType, target, input, now) ==
                 Ok((ActionBegun(db, user, actionType, target, input, now),
                     ActionStart(db.nextId, db.actionReviews[input.reviewId].terms, true)))
  {
    if ActionRefusal(db, user, actionType, target, input, now).None? {
      ActInsertable(db, user, actionType, target, input, now);
    }
    hide Sound, ActionBegun;
  }
}
