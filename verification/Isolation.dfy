/**
 Account isolation: an available proposal always belongs to its owner's active context. Switching,
 revoking and first syncs keep this; storing a proposal keeps it exactly when the context the service
 checked is still the active one.
 */
module Isolation {
  import opened Common
  import opened ExecutionDomain
  import opened Transactions
  import opened Ledger
  import opened AccountCalls
  import opened History

  /** A context points at a connection of its own user and repeats its environment. */
  ghost predicate ContextsOwned(connections: map<Id, Connection>, contexts: map<string, Context>) {
    forall u :: u in contexts ==>
      && contexts[u].connectionId in connections
      && connections[contexts[u].connectionId].userId == u
      && connections[contexts[u].connectionId].environment == contexts[u].environment
  }

  ghost predicate ProposalsActive(contexts: map<string, Context>, proposals: map<Id, ProposalRow>) {
    forall p :: p in proposals && proposals[p].status == ProposalStatus.Available ==>
      Active(contexts, proposals[p].userId, proposals[p].connectionId)
  }

  ghost predicate Isolated(db: Db) {
    ContextsOwned(db.connections, db.contexts) && ProposalsActive(db.contexts, db.proposals)
  }

  // ----- one lemma a table change

  lemma MovedActive(contexts: map<string, Context>, before: map<Id, ProposalRow>, after: map<Id, ProposalRow>)
    requires ProposalsActive(contexts, before) && RowsMoved(before, after) && before.Keys == after.Keys
    ensures ProposalsActive(contexts, after)
  {
  }

  lemma GrownOwned(before: map<Id, Connection>, after: map<Id, Connection>, contexts: map<string, Context>)
    requires ContextsOwned(before, contexts) && ConnectionsGrow(before, after)
    ensures ContextsOwned(after, contexts)
  {
  }

  lemma SwitchIsolates(db: Db, user: string, environment: Environment, conn: Id, now: Time)
    requires Isolated(db)
    ensures Isolated(After(db, SwitchContext(db, user, environment, conn, now)))
  {
  }

  lemma RevokeIsolates(db: Db, user: string, conn: Id, now: Time)
    requires Isolated(db)
    ensures Isolated(After(db, RevokeConnection(db, user, conn, now)))
  {
  }

  lemma SyncIsolates(db: Db, user: string, conn: Id, capturedAt: Time, now: Time)
    requires Isolated(db)
    ensures Isolated(After(db, SaveAccountSnapshot(db, user, conn, capturedAt, now)))
  {
  }

  /** Storing a proposal keeps isolation if and only if its connection is the active context at that moment. */
  lemma ProposeIsolatesIff(db: Db, proposal: TradeProposal)
    requires Sound(db) && Isolated(db) && proposal.status == ProposalStatus.Available
    requires InsertProposal(db, proposal).Ok?
    ensures Isolated(After(db, InsertProposal(db, proposal))) <==>
            Active(db.contexts, proposal.userId, proposal.connectionId)
  {
    var after := After(db, InsertProposal(db, proposal));
    assert after.proposals[db.nextId] == RowFor(proposal);
    forall p | p in db.proposals ensures p in after.proposals && after.proposals[p] == db.proposals[p] {}
  }

  /** The account checks of creating a proposal, and the insert, as one step. */
  ghost function CheckedCreate(db: Db, proposal: TradeProposal): Outcome<Id> {
    match Opened(db, OpenPropose(proposal))
    case None => Err(Conflict)
    case Some(call) => InsertProposal(db, call.proposal)
  }

  /** Taken as one step, creating a proposal keeps isolation without any assumption. */
  lemma CheckedCreateIsolates(db: Db, proposal: TradeProposal)
    requires Sound(db) && Isolated(db)
    ensures Isolated(After(db, CheckedCreate(db, proposal)))
  {
    if CheckedCreate(db, proposal).Ok? {
      var environment := db.connections[proposal.connectionId].environment;
      ProposeIsolatesIff(db, proposal.(environment := environment, status := ProposalStatus.Available));
    }
  }

  /** Transactions that touch neither accounts nor contexts, and store no proposal. */
  lemma OthersIsolate(db: Db, txn: Txn)
    requires Sound(db) && Isolated(db)
    requires !txn.Propose? && !txn.Switch? && !txn.Revoke? && !txn.Sync?
    ensures Isolated(Apply(db, txn))
  {
    TxnGrows(db, txn);
    OthersKeep(db, txn);
    MovedActive(db.contexts, db.proposals, Apply(db, txn).proposals);
    GrownOwned(db.connections, Apply(db, txn).connections, db.contexts);
  }

  lemma OthersKeep(db: Db, txn: Txn)
    requires Sound(db)
    requires !txn.Propose? && !txn.Switch? && !txn.Revoke? && !txn.Sync?
    ensures Apply(db, txn).contexts == db.contexts && Apply(db, txn).proposals.Keys == db.proposals.Keys
  {
    hide Sound, BeginSubmission, BeginAction, ReplaceOpenPositions, ReconcileOrder, SetOrderState, RejectProposal;
    match txn
    case Replace(user, conn, environment, snapshots, now) =>
      ReplaceKeepsKeys(db, user, conn, environment, snapshots, now);
    case Reconcile(orderId, snapshot, state, now) => ReconcileKeepsKeys(db, orderId, snapshot, state, now);
    case Begin(user, pid, input, now) => BeginKeepsKeys(db, user, pid, input, now);
    case Act(user, actionType, target, confirm, now) => ActKeepsKeys(db, user, actionType, target, confirm, now);
    case Reject(user, pid, now) => RejectKeepsKeys(db, user, pid, now);
    case SetOrder(orderId, state, brokerOrderId, errorCode, now) =>
      SetOrderKeepsKeys(db, orderId, state, brokerOrderId, errorCode, now);
    case _ => OtherTables(db, txn);
  }

  lemma OtherTables(db: Db, txn: Txn)
    requires txn.Nothing? || txn.Connect? || txn.MarkStatus? || txn.Review? || txn.ReviewAction? || txn.SetAction?
    ensures Apply(db, txn).contexts == db.contexts && Apply(db, txn).proposals == db.proposals
  {
  }

  lemma RejectKeepsKeys(db: Db, user: string, pid: Id, now: Time)
    ensures var after := After(db, RejectProposal(db, user, pid, now));
            after.contexts == db.contexts && after.proposals.Keys == db.proposals.Keys
  {
  }

  lemma SetOrderKeepsKeys(db: Db, orderId: Id, state: OrderState, brokerOrderId: Option<string>,
                          errorCode: Option<string>, now: Time)
    ensures var after := After(db, SetOrderState(db, orderId, state, brokerOrderId, errorCode, now));
            after.contexts == db.contexts && after.proposals.Keys == db.proposals.Keys
  {
  }

  lemma ReplaceKeepsKeys(db: Db, user: string, conn: Id, environment: Environment, snapshots: seq<PositionSnapshot>,
                         at: Time)
    requires Sound(db)
    ensures var after := After(db, ReplaceOpenPositions(db, user, conn, environment, snapshots, at));
            after.contexts == db.contexts && after.proposals.Keys == db.proposals.Keys
  {
    var upserts := UpsertPositions(db, user, conn, environment, snapshots, at);
    if upserts.Ok? { UpsertsFrame(db, user, conn, environment, snapshots, at); }
  }

  lemma ReconcileKeepsKeys(db: Db, orderId: Id, snapshot: OrderSnapshot, state: OrderState, at: Time)
    ensures var after := After(db, ReconcileOrder(db, orderId, snapshot, state, at));
            after.contexts == db.contexts && after.proposals.Keys == db.proposals.Keys
  {
  }

  lemma BeginKeepsKeys(db: Db, user: string, pid: Id, input: SubmitInput, now: Time)
    ensures var after := After(db, BeginSubmission(db, user, pid, input, now));
            after.contexts == db.contexts && after.proposals.Keys == db.proposals.Keys
  {
  }

  lemma ActKeepsKeys(db: Db, user: string, actionType: ActionType, target: Id, input: ConfirmInput, now: Time)
    ensures var after := After(db, BeginAction(db, user, actionType, target, input, now));
            after.contexts == db.contexts && after.proposals == db.proposals
  {
  }

  /** The one transaction that may break isolation is storing a proposal on a connection no longer active. */
  predicate KeepsIsolation(db: Db, txn: Txn) {
    txn.Propose? ==> Active(db.contexts, txn.proposal.userId, txn.proposal.connectionId)
  }

  lemma TxnIsolates(db: Db, txn: Txn)
    requires Sound(db) && Isolated(db) && KeepsIsolation(db, txn)
    ensures Isolated(Apply(db, txn))
  {
    match txn
    case Propose(proposal) =>
      var available := proposal.(status := ProposalStatus.Available);
      if InsertProposal(db, available).Ok? { ProposeIsolatesIff(db, available); }
    case Switch(user, environment, conn, now) => SwitchIsolates(db, user, environment, conn, now);
    case Revoke(user, conn, now) => RevokeIsolates(db, user, conn, now);
    case Sync(user, conn, capturedAt, now) => SyncIsolates(db, user, conn, capturedAt, now);
    case _ => OthersIsolate(db, txn);
  }

  /** The transactions of a run all meet `KeepsIsolation` at the moment they run. */
  ghost predicate RunKeepsIsolation(txns: seq<Txn>) {
    forall i :: 0 <= i < |txns| ==> KeepsIsolation(ApplyAll(EmptyDb, txns[..i]), txns[i])
  }

  /**
   In every run whose stored proposals were still on the active context, each available proposal is on
   its owner's active context, and a user without a context has no available proposal.
   */
  lemma {:induction false} AlwaysIsolated(txns: seq<Txn>)
    requires RunKeepsIsolation(txns)
    ensures Isolated(ApplyAll(EmptyDb, txns))
  {
    if |txns| == 0 {
    } else {
      var before := txns[..|txns| - 1];
      forall i | 0 <= i < |before| ensures KeepsIsolation(ApplyAll(EmptyDb, before[..i]), before[i]) {
        assert before[..i] == txns[..i];
      }
      AlwaysIsolated(before);
      AlwaysSound(before);
      assert KeepsIsolation(ApplyAll(EmptyDb, txns[..|txns| - 1]), txns[|txns| - 1]);
      TxnIsolates(ApplyAll(EmptyDb, before), txns[|txns| - 1]);
    }
  }

  /**
   The check and the insert of `ProposalService.create` are separate transactions. With a context switch
   between them an available proposal ends up off its owner's active context.
   */
  lemma SwitchBetweenCheckAndInsert(proposal: TradeProposal)
    requires proposal.userId == "u" && proposal.connectionId == 0
    ensures var checked := [Connect("u", Mainnet), Connect("u", Mainnet), Sync("u", 0, 1, 1), Sync("u", 1, 1, 1)];
            && Active(ApplyAll(EmptyDb, checked).contexts, "u", 0)
            && !Isolated(ApplyAll(EmptyDb, checked + [Switch("u", Mainnet, 1, 2), Propose(proposal)]))
  {
    var checked := [Connect("u", Mainnet), Connect("u", Mainnet), Sync("u", 0, 1, 1), Sync("u", 1, 1, 1)];
    TwoSyncedConnections(checked);
    var db := ApplyAll(EmptyDb, checked);
    Unroll(EmptyDb, checked, Switch("u", Mainnet, 1, 2));
    Unroll(EmptyDb, checked + [Switch("u", Mainnet, 1, 2)], Propose(proposal));
    assert checked + [Switch("u", Mainnet, 1, 2)] + [Propose(proposal)] ==
           checked + [Switch("u", Mainnet, 1, 2), Propose(proposal)];
    OvertakenInsert(db, proposal);
  }

  lemma OvertakenInsert(db: Db, proposal: TradeProposal)
    requires proposal.userId == "u" && proposal.connectionId == 0 && 0 in db.connections
    requires 1 in db.connections &&
             db.connections[1] == Connection("u", Mainnet, ConnectionStatus.Healthy, Some(1), true)
    requires db.proposals == map[]
    ensures !Isolated(Apply(Apply(db, Switch("u", Mainnet, 1, 2)), Propose(proposal)))
  {
    var switched := Apply(db, Switch("u", Mainnet, 1, 2));
    assert switched.proposals.Keys == {};
    assert switched.contexts["u"].connectionId == 1;
    var stored := Apply(switched, Propose(proposal));
    assert stored.proposals[switched.nextId] == RowFor(proposal.(status := ProposalStatus.Available));
  }

  lemma TwoSyncedConnections(checked: seq<Txn>)
    requires checked == [Connect("u", Mainnet), Connect("u", Mainnet), Sync("u", 0, 1, 1), Sync("u", 1, 1, 1)]
    ensures var db := ApplyAll(EmptyDb, checked);
            && db.proposals == map[] && 0 in db.connections && 1 in db.connections
            && db.connections[1] == Connection("u", Mainnet, ConnectionStatus.Healthy, Some(1), true)
            && Active(db.contexts, "u", 0)
  {
    assert checked == [] + [checked[0]] + [checked[1]] + [checked[2]] + [checked[3]];
    Unroll(EmptyDb, [] + [checked[0]] + [checked[1]] + [checked[2]], checked[3]);
    Unroll(EmptyDb, [] + [checked[0]] + [checked[1]], checked[2]);
    Unroll(EmptyDb, [] + [checked[0]], checked[1]);
    Unroll(EmptyDb, [], checked[0]);
  }

  lemma Unroll(db: Db, txns: seq<Txn>, txn: Txn)
    ensures ApplyAll(db, txns + [txn]) == Apply(ApplyAll(db, txns), txn)
  {
  }
}
