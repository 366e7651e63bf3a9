/**
 Exactly when a proposal changes its status, in the fields of the rows a transaction reads. An available one is
 submitted with its order, rejected by its owner, or invalidated when its owner's context or account goes; a
 submitted one is archived when its order dies unexecuted or a position on its symbol closes.
 */
module ProposalMoves {
  import opened Common
  import opened ExecutionDomain
  import opened Transactions
  import opened Ledger
  import opened Isolation
  import opened Positions
  import opened Entries
  import opened OrderStatuses

  /** The row moved at this time, its column and its payload alike, and kept everything else. */
  predicate MovedTo(before: ProposalRow, after: ProposalRow, status: ProposalStatus, at: Time) {
    && after.status == status && after.updatedAt == at
    && after.payload.status == status && after.payload.updatedAt == at
    && after == before.(status := status, updatedAt := at, payload := after.payload)
    && after.payload == before.payload.(status := status, updatedAt := at)
  }

  // ----- the causes

  ghost predicate Submits(db: Db, txn: Txn, p: Id) {
    txn.Begin? && txn.pid == p && MaySubmit(db, txn.user, p, txn.input, txn.now)
  }

  predicate Rejects(row: ProposalRow, txn: Txn, p: Id) {
    txn.Reject? && txn.pid == p && txn.user == row.userId
  }

  /** The owner switches to another healthy synced account of theirs than the active one. */
  predicate SwitchesAway(db: Db, txn: Txn, user: string) {
    && txn.Switch? && txn.user == user
    && txn.conn in db.connections
    && db.connections[txn.conn].userId == user
    && db.connections[txn.conn].environment == txn.environment
    && db.connections[txn.conn].status == ConnectionStatus.Healthy
    && db.connections[txn.conn].lastSyncedAt != None
    && (user in db.contexts ==> db.contexts[user].connectionId != txn.conn)
  }

  predicate RevokesAccount(db: Db, txn: Txn, user: string, conn: Id) {
    txn.Revoke? && txn.user == user && txn.conn == conn && conn in db.connections && db.connections[conn].userId == user
  }

  predicate Invalidates(db: Db, txn: Txn, row: ProposalRow) {
    SwitchesAway(db, txn, row.userId) || RevokesAccount(db, txn, row.userId, row.connectionId)
  }

  /** The order of the proposal is marked as rejected, or reconciled as dead with nothing executed. */
  predicate OrderDies(db: Db, txn: Txn, p: Id) {
    || (txn.SetOrder? && txn.orderId in db.orders && db.orders[txn.orderId].proposalId == p &&
        txn.state == OrderState.Rejected)
    || (txn.Reconcile? && txn.orderId in db.orders && db.orders[txn.orderId].proposalId == p &&
        (txn.state == OrderState.Rejected || txn.state == OrderState.Cancelled) && txn.snapshot.facts.executed == 0.0)
  }

  /** An open position of the proposal's account and symbol is no longer listed by the broker. */
  ghost predicate SymbolCloses(db: Db, txn: Txn, row: ProposalRow) {
    && txn.Replace? && txn.conn == row.connectionId && Insertable(db.positions, txn.conn, txn.snapshots)
    && exists id :: id in db.positions && ClosesOn(db.positions[id], row, txn.snapshots)
  }

  ghost predicate ClosesOn(position: Position, row: ProposalRow, snapshots: seq<PositionSnapshot>) {
    && position.userId == row.userId && position.connectionId == row.connectionId
    && position.state == PositionState.Open && position.key.symbol == row.symbol
    && !Listed(snapshots, position.key)
  }

  // ----- transaction by transaction

  lemma StatusSet(row: ProposalRow, status: ProposalStatus, at: Time)
    ensures MovedTo(row, WithStatus(row, status, at), status, at)
  {
  }

  lemma RejectedRows(db: Db, user: string, pid: Id, now: Time)
    ensures After(db, RejectProposal(db, user, pid, now)).proposals ==
            if pid in db.proposals && db.proposals[pid].userId == user &&
               db.proposals[pid].status == ProposalStatus.Available
            then db.proposals[pid := WithStatus(db.proposals[pid], ProposalStatus.Rejected, now)] else db.proposals
  {
    hide WithStatus;
  }

  lemma PendingMoves(proposals: map<Id, ProposalRow>, user: string, conn: Option<Id>, now: Time, p: Id)
    requires p in proposals
    ensures var after, row := InvalidatePending(proposals, user, conn, now), proposals[p];
            && p in after
            && if row.status == ProposalStatus.Available && row.userId == user &&
                  (conn == None || conn == Some(row.connectionId))
               then MovedTo(row, after[p], ProposalStatus.Invalidated, now) else after[p] == row
  {
    hide WithStatus;
    StatusSet(proposals[p], ProposalStatus.Invalidated, now);
  }

  lemma RejectMovesIff(db: Db, user: string, pid: Id, now: Time, p: Id)
    requires p in db.proposals
    ensures var after := After(db, RejectProposal(db, user, pid, now)).proposals;
            && p in after
            && if db.proposals[p].status == ProposalStatus.Available &&
                  Rejects(db.proposals[p], Reject(user, pid, now), p)
               then MovedTo(db.proposals[p], after[p], ProposalStatus.Rejected, now) else after[p] == db.proposals[p]
  {
    hide WithStatus, RejectProposal;
    RejectedRows(db, user, pid, now);
    if pid in db.proposals { StatusSet(db.proposals[pid], ProposalStatus.Rejected, now); }
  }

  lemma SwitchedRows(db: Db, user: string, environment: Environment, conn: Id, now: Time)
    ensures After(db, SwitchContext(db, user, environment, conn, now)).proposals ==
            if SwitchesAway(db, Switch(user, environment, conn, now), user)
            then InvalidatePending(db.proposals, user, None, now) else db.proposals
  {
    hide InvalidatePending;
  }

  lemma SwitchMovesIff(db: Db, user: string, environment: Environment, conn: Id, now: Time, p: Id)
    requires p in db.proposals
    ensures var txn := Switch(user, environment, conn, now);
            var after := After(db, SwitchContext(db, user, environment, conn, now)).proposals;
            && p in after
            && if db.proposals[p].status == ProposalStatus.Available && Invalidates(db, txn, db.proposals[p])
               then MovedTo(db.proposals[p], after[p], ProposalStatus.Invalidated, now) else after[p] == db.proposals[p]
  {
    hide InvalidatePending, SwitchContext;
    SwitchedRows(db, user, environment, conn, now);
    PendingMoves(db.proposals, user, None, now, p);
  }

  lemma RevokedRows(db: Db, user: string, conn: Id, now: Time)
    ensures After(db, RevokeConnection(db, user, conn, now)).proposals ==
            if RevokesAccount(db, Revoke(user, conn, now), user, conn)
            then InvalidatePending(db.proposals, user, Some(conn), now) else db.proposals
  {
    hide InvalidatePending;
  }

  lemma RevokeMovesIff(db: Db, user: string, conn: Id, now: Time, p: Id)
    requires p in db.proposals
    ensures var txn := Revoke(user, conn, now);
            var after := After(db, RevokeConnection(db, user, conn, now)).proposals;
            && p in after
            && if db.proposals[p].status == ProposalStatus.Available && Invalidates(db, txn, db.proposals[p])
               then MovedTo(db.proposals[p], after[p], ProposalStatus.Invalidated, now) else after[p] == db.proposals[p]
  {
    hide InvalidatePending, RevokeConnection;
    RevokedRows(db, user, conn, now);
    PendingMoves(db.proposals, user, Some(conn), now, p);
  }

  lemma SetOrderMovesIff(db: Db, orderId: Id, state: OrderState, brokerOrderId: Option<string>,
                         errorCode: Option<string>, now: Time, p: Id)
    requires p in db.proposals
    ensures var txn := SetOrder(orderId, state, brokerOrderId, errorCode, now);
            var after := After(db, SetOrderState(db, orderId, state, brokerOrderId, errorCode, now)).proposals;
            && p in after
            && if db.proposals[p].status == ProposalStatus.Submitted && OrderDies(db, txn, p)
               then MovedTo(db.proposals[p], after[p], ProposalStatus.Archived, now) else after[p] == db.proposals[p]
  {
  }

  lemma ReconcileMovesIff(db: Db, orderId: Id, snapshot: OrderSnapshot, state: OrderState, at: Time, p: Id)
    requires p in db.proposals
    ensures var txn := Reconcile(orderId, snapshot, state, at);
            var after := After(db, ReconcileOrder(db, orderId, snapshot, state, at)).proposals;
            && p in after
            && if db.proposals[p].status == ProposalStatus.Submitted && OrderDies(db, txn, p)
               then MovedTo(db.proposals[p], after[p], ProposalStatus.Archived, at) else after[p] == db.proposals[p]
  {
  }

  lemma ReplaceMovesIff(db: Db, user: string, conn: Id, environment: Environment, snapshots: seq<PositionSnapshot>,
                        at: Time, p: Id)
    requires Sound(db) && p in db.proposals
    ensures var txn := Replace(user, conn, environment, snapshots, at);
            var after := After(db, ReplaceOpenPositions(db, user, conn, environment, snapshots, at)).proposals;
            && p in after
            && if db.proposals[p].status == ProposalStatus.Submitted && SymbolCloses(db, txn, db.proposals[p])
               then MovedTo(db.proposals[p], after[p], ProposalStatus.Archived, at) else after[p] == db.proposals[p]
  {
    ReplaceOkIff(db, user, conn, environment, snapshots, at);
    if ReplaceOpenPositions(db, user, conn, environment, snapshots, at).Ok? {
      UpsertsFrame(db, user, conn, environment, snapshots, at);
      UpsertsTouch(db, user, conn, environment, snapshots, at);
      NewAreListed(db, user, conn, environment, snapshots, at);
      var mid := UpsertPositions(db, user, conn, environment, snapshots, at).value;
      hide Sound, UpsertPositions, Insertable, ClosesOn, UpsertFrame, Touched, Vanished;
      ClosingMovesIff(db, mid, user, conn, snapshots, at, p);
      assert mid.proposals == db.proposals by { FrameProposals(db, mid, user, conn); }
    }
  }

  lemma FrameProposals(db: Db, mid: Db, user: string, conn: Id)
    requires UpsertFrame(db, mid, user, conn)
    ensures mid.proposals == db.proposals
  {
  }

  /** What closes: the open rows that were there before and are not listed, as they were before. */
  lemma ClosingRows(db: Db, mid: Db, user: string, conn: Id, snapshots: seq<PositionSnapshot>, id: Id)
    requires UpsertFrame(db, mid, user, conn) && Touched(db, mid, user, conn, snapshots) && id in db.positions
    ensures var closing := Vanished(mid.positions, conn, SeenKeys(snapshots));
            && (id in closing <==>
                  db.positions[id].connectionId == conn && db.positions[id].state == PositionState.Open &&
                  !Listed(snapshots, db.positions[id].key))
            && (id in closing ==> id in mid.positions && mid.positions[id] == db.positions[id])
  {
    SeenIffListed(snapshots, db.positions[id].key);
  }

  /** Which submitted proposals closing these rows archives. */
  lemma ArchivedIff(proposals: map<Id, ProposalRow>, positions: map<Id, Position>, closing: set<Id>, at: Time, p: Id)
    requires p in proposals
    ensures var after, row := ArchiveSymbols(proposals, positions, closing, at), proposals[p];
            && p in after
            && if row.status == ProposalStatus.Submitted &&
                  exists id :: id in closing && id in positions && positions[id].userId == row.userId &&
                               positions[id].connectionId == row.connectionId && positions[id].key.symbol == row.symbol
               then MovedTo(row, after[p], ProposalStatus.Archived, at) else after[p] == row
  {
    hide WithStatus;
    StatusSet(proposals[p], ProposalStatus.Archived, at);
  }

  lemma ClosingMovesIff(db: Db, mid: Db, user: string, conn: Id, snapshots: seq<PositionSnapshot>, at: Time, p: Id)
    requires UpsertFrame(db, mid, user, conn) && Touched(db, mid, user, conn, snapshots)
    requires Vanished(mid.positions, conn, SeenKeys(snapshots)) <= db.positions.Keys
    requires p in mid.proposals
    ensures var closing := Vanished(mid.positions, conn, SeenKeys(snapshots));
            var after := ArchiveSymbols(mid.proposals, mid.positions, closing, at);
            var row := mid.proposals[p];
            && p in after
            && if row.status == ProposalStatus.Submitted && row.connectionId == conn &&
                  exists id :: id in db.positions && ClosesOn(db.positions[id], row, snapshots)
               then MovedTo(row, after[p], ProposalStatus.Archived, at) else after[p] == row
  {
    hide UpsertFrame, Touched, Listed, SeenKeys, Vanished, ArchiveSymbols, MovedTo;
    var closing, row := Vanished(mid.positions, conn, SeenKeys(snapshots)), mid.proposals[p];
    ArchivedIff(mid.proposals, mid.positions, closing, at, p);
    forall id | id in db.positions
      ensures id in closing <==>
              db.positions[id].connectionId == conn && db.positions[id].state == PositionState.Open &&
              !Listed(snapshots, db.positions[id].key)
      ensures id in closing ==> id in mid.positions && mid.positions[id] == db.positions[id]
    {
      ClosingRows(db, mid, user, conn, snapshots, id);
    }
    if id :| id in db.positions && ClosesOn(db.positions[id], row, snapshots) && row.connectionId == conn {
      assert id in closing;
    }
  }

  lemma ProposeMovesNone(db: Db, proposal: TradeProposal, p: Id)
    requires p in db.proposals && DrawnBefore(db.proposals, db.nextId)
    ensures var after := After(db, InsertProposal(db, proposal)).proposals; p in after && after[p] == db.proposals[p]
  {
  }

  /** The transactions that leave every proposal as it is. */
  predicate LeavesProposals(txn: Txn) {
    txn.Nothing? || txn.Connect? || txn.MarkStatus? || txn.Sync? || txn.Review? || txn.ReviewAction? || txn.SetAction?
  }

  lemma OthersMoveNone(db: Db, txn: Txn)
    requires LeavesProposals(txn)
    ensures Apply(db, txn).proposals == db.proposals
  {
    hide Apply;
    if txn.Sync? { SyncMovesNone(db, txn); } else { OtherTables(db, txn); }
  }

  lemma SyncMovesNone(db: Db, txn: Txn)
    requires txn.Sync?
    ensures Apply(db, txn).proposals == db.proposals
  {
    hide BeginSubmission, BeginAction, ReplaceOpenPositions, SetOrderState, ReconcileOrder, InsertProposal,
         RejectProposal, SwitchContext, RevokeConnection, MarkConnection, CreateConnection, CreateReview,
         CreateActionReview, MarkAction;
  }

  lemma AppliesTo(db: Db, txn: Txn)
    ensures match txn
            case Reject(user, pid, now) => Apply(db, txn) == After(db, RejectProposal(db, user, pid, now))
            case Switch(user, environment, conn, now) =>
              Apply(db, txn) == After(db, SwitchContext(db, user, environment, conn, now))
            case Revoke(user, conn, now) => Apply(db, txn) == After(db, RevokeConnection(db, user, conn, now))
            case Propose(proposal) =>
              Apply(db, txn) == After(db, InsertProposal(db, proposal.(status := ProposalStatus.Available)))
            case Replace(user, conn, environment, snapshots, now) =>
              Apply(db, txn) == After(db, ReplaceOpenPositions(db, user, conn, environment, snapshots, now))
            case _ => true
  {
    hide BeginSubmission, BeginAction, ReplaceOpenPositions, SetOrderState, ReconcileOrder, InsertProposal,
         RejectProposal, SwitchContext, RevokeConnection, After;
  }

  // ----- the theorem

  /** The time a transaction that moves proposals writes. */
  function TimeOf(txn: Txn): Time {
    match txn
    case Begin(_, _, _, now) => now
    case Reject(_, _, now) => now
    case Switch(_, _, _, now) => now
    case Revoke(_, _, now) => now
    case SetOrder(_, _, _, _, now) => now
    case Reconcile(_, _, _, now) => now
    case Replace(_, _, _, _, now) => now
    case _ => 0
  }

  /** What a transaction does to a proposal, and exactly when. */
  ghost predicate MovesExactly(db: Db, txn: Txn, p: Id, before: ProposalRow, after: ProposalRow) {
    match before.status
    case Available =>
      if Submits(db, txn, p) then MovedTo(before, after, ProposalStatus.Submitted, TimeOf(txn))
      else if Rejects(before, txn, p) then MovedTo(before, after, ProposalStatus.Rejected, TimeOf(txn))
      else if Invalidates(db, txn, before) then MovedTo(before, after, ProposalStatus.Invalidated, TimeOf(txn))
      else after == before
    case Submitted =>
      if OrderDies(db, txn, p) || SymbolCloses(db, txn, before)
      then MovedTo(before, after, ProposalStatus.Archived, TimeOf(txn)) else after == before
    case _ => after == before
  }

  /**
   The status of any proposal after any transaction. An available one becomes submitted exactly with its order,
   rejected exactly by its owner, invalidated exactly when its owner switches to another account or revokes its own;
   a submitted one becomes archived exactly when its order is rejected or dies unexecuted, or an open position of
   its account and symbol vanishes; nothing else moves.
   */
  lemma ProposalMovesIff(db: Db, txn: Txn, p: Id)
    requires Sound(db) && p in db.proposals
    ensures p in Apply(db, txn).proposals
    ensures MovesExactly(db, txn, p, db.proposals[p], Apply(db, txn).proposals[p])
  {
    hide Apply, Sound, Submits, Invalidates, SymbolCloses, OrderDies, Rejects, MovesExactly;
    AppliesTo(db, txn);
    match txn
    case Reject(user, pid, now) =>
      RejectMovesIff(db, user, pid, now, p);
      OnlyRejects(db, txn, p);
    case Switch(user, environment, conn, now) =>
      SwitchMovesIff(db, user, environment, conn, now, p);
      OnlyInvalidates(db, txn, p);
    case Revoke(user, conn, now) =>
      RevokeMovesIff(db, user, conn, now, p);
      OnlyInvalidates(db, txn, p);
    case SetOrder(orderId, state, brokerOrderId, errorCode, now) =>
      SetOrderIs(db, txn);
      SetOrderMovesIff(db, orderId, state, brokerOrderId, errorCode, now, p);
      OnlyArchives(db, txn, p);
    case Reconcile(orderId, snapshot, state, now) =>
      ReconcileIs(db, txn);
      ReconcileMovesIff(db, orderId, snapshot, state, now, p);
      OnlyArchives(db, txn, p);
    case Replace(user, conn, environment, snapshots, now) =>
      ReplaceMovesIff(db, user, conn, environment, snapshots, now, p);
      OnlyArchives(db, txn, p);
    case Begin(user, pid, input, now) => BeginMovesIff(db, txn, p);
    case Act(user, actionType, target, confirm, now) => ActMovesNone(db, txn, p);
    case Propose(proposal) =>
      ProposalsDrawn(db);
      ProposeMovesNone(db, proposal.(status := ProposalStatus.Available), p);
      NoCause(db, txn, p);
    case _ =>
      OthersMoveNone(db, txn);
      NoCause(db, txn, p);
  }

  lemma ProposalsDrawn(db: Db)
    requires Sound(db)
    ensures DrawnBefore(db.proposals, db.nextId)
  {
  }

  lemma OnlyRejects(db: Db, txn: Txn, p: Id)
    requires txn.Reject? && p in db.proposals && p in Apply(db, txn).proposals
    requires var before, after := db.proposals[p], Apply(db, txn).proposals[p];
             if before.status == ProposalStatus.Available && Rejects(before, txn, p)
             then MovedTo(before, after, ProposalStatus.Rejected, TimeOf(txn)) else after == before
    ensures MovesExactly(db, txn, p, db.proposals[p], Apply(db, txn).proposals[p])
  {
    hide Apply;
  }

  lemma OnlyInvalidates(db: Db, txn: Txn, p: Id)
    requires (txn.Switch? || txn.Revoke?) && p in db.proposals && p in Apply(db, txn).proposals
    requires var before, after := db.proposals[p], Apply(db, txn).proposals[p];
             if before.status == ProposalStatus.Available && Invalidates(db, txn, before)
             then MovedTo(before, after, ProposalStatus.Invalidated, TimeOf(txn)) else after == before
    ensures MovesExactly(db, txn, p, db.proposals[p], Apply(db, txn).proposals[p])
  {
    hide Apply, SwitchesAway, RevokesAccount;
  }

  lemma OnlyArchives(db: Db, txn: Txn, p: Id)
    requires (txn.SetOrder? || txn.Reconcile? || txn.Replace?) && p in db.proposals && p in Apply(db, txn).proposals
    requires var before, after := db.proposals[p], Apply(db, txn).proposals[p];
             if before.status == ProposalStatus.Submitted &&
                (if txn.Replace? then SymbolCloses(db, txn, before) else OrderDies(db, txn, p))
             then MovedTo(before, after, ProposalStatus.Archived, TimeOf(txn)) else after == before
    ensures MovesExactly(db, txn, p, db.proposals[p], Apply(db, txn).proposals[p])
  {
    hide Apply, Insertable, ClosesOn;
  }

  lemma NoCause(db: Db, txn: Txn, p: Id)
    requires p in db.proposals && (txn.Propose? || LeavesProposals(txn) || txn.Act?)
    ensures MovesExactly(db, txn, p, db.proposals[p], db.proposals[p])
  {
  }

  lemma BeginMovesIff(db: Db, txn: Txn, p: Id)
    requires Sound(db) && txn.Begin? && p in db.proposals
    ensures p in Apply(db, txn).proposals
    ensures MovesExactly(db, txn, p, db.proposals[p], Apply(db, txn).proposals[p])
  {
    hide Apply, Sound, BeginSubmission, MaySubmit, OrdersProposal;
    BeginIs(db, txn);
    SubmissionEntersIff(db, txn.user, txn.pid, txn.input, txn.now);
    if MaySubmit(db, txn.user, txn.pid, txn.input, txn.now) { SubmitsAvailable(db, txn); }
  }

  lemma SubmitsAvailable(db: Db, txn: Txn)
    requires Sound(db) && txn.Begin? && MaySubmit(db, txn.user, txn.pid, txn.input, txn.now)
    ensures txn.pid in db.proposals && db.proposals[txn.pid].status == ProposalStatus.Available
  {
    assert RowAgrees(db.proposals[txn.pid]);
  }

  lemma ActMovesNone(db: Db, txn: Txn, p: Id)
    requires Sound(db) && txn.Act? && p in db.proposals
    ensures p in Apply(db, txn).proposals
    ensures MovesExactly(db, txn, p, db.proposals[p], Apply(db, txn).proposals[p])
  {
    ActIs(db, txn);
    ActionEntersIff(db, txn.user, txn.actionType, txn.target, txn.confirm, txn.now);
    NoCause(db, txn, p);
    hide Apply, Sound, BeginAction, MayAct, MovesExactly;
  }
}
