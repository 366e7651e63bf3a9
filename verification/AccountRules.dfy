/**
 When a request on an account opens and what it writes, and when proposals and reviews are inserted and with which
 columns, in the fields of the rows.
 */
module AccountRules {
  import opened Common
  import opened ExecutionDomain
  import opened Transactions
  import opened Ledger
  import opened History
  import opened Isolation
  import opened AccountCalls
  import opened Interleaving

  // ----- opening

  /** The account is the user's. */
  predicate Theirs(db: Db, user: string, conn: Id) {
    conn in db.connections && db.connections[conn].userId == user
  }

  predicate HealthyAndActive(db: Db, user: string, conn: Id) {
    && Theirs(db, user, conn) && db.connections[conn].status == ConnectionStatus.Healthy
    && user in db.contexts && db.contexts[user].connectionId == conn
  }

  lemma OpensAs(s: System, c: Id, act: AccountAct)
    requires c !in s.calls && Opens(act)
    ensures var after := Next(s, Account(c, act));
            && (c in after.calls <==> Opened(s.db, act).Some?)
            && (c in after.calls ==> after.calls[c] == OnAccount(Opened(s.db, act).value))
  {
    AccountNext(s, c, act);
    hide Next, Opened, Apply;
  }

  /** The worker syncs the healthy active accounts; a user any of theirs that is syncing, healthy or degraded. */
  lemma SyncOpensIff(s: System, c: Id, user: string, conn: Id, byWorker: bool)
    requires c !in s.calls
    ensures c in Next(s, Account(c, OpenSync(user, conn, byWorker))).calls <==>
            if byWorker then HealthyAndActive(s.db, user, conn)
            else
              && Theirs(s.db, user, conn)
              && (s.db.connections[conn].status == ConnectionStatus.Syncing ||
                  s.db.connections[conn].status == ConnectionStatus.Healthy ||
                  s.db.connections[conn].status == ConnectionStatus.Degraded)
  {
    OpensAs(s, c, OpenSync(user, conn, byWorker));
    hide Next;
  }

  /** A user verifies any account of theirs, and that marks it as verifying. */
  lemma VerifyOpensIff(s: System, c: Id, user: string, conn: Id)
    requires c !in s.calls
    ensures var after := Next(s, Account(c, OpenVerify(user, conn)));
            && (c in after.calls <==> Theirs(s.db, user, conn))
            && (Theirs(s.db, user, conn) ==>
                  after.db.connections == s.db.connections[conn := s.db.connections[conn].(status :=
                    ConnectionStatus.Verifying)])
  {
    OpensAs(s, c, OpenVerify(user, conn));
    AccountNext(s, c, OpenVerify(user, conn));
    MarkIs(s.db, MarkStatus(user, conn, ConnectionStatus.Verifying));
    hide Next, Apply;
  }

  lemma MarkIs(db: Db, txn: Txn)
    requires txn.MarkStatus?
    ensures Apply(db, txn) == After(db, MarkConnection(db, txn.user, txn.conn, txn.status))
  {
    hide MarkConnection;
  }

  /** A verification that read the key leaves its account syncing when the broker accepts it, and failed otherwise. */
  lemma VerificationMarks(s: System, c: Id, verified: bool)
    requires c in s.calls && s.calls[c].OnAccount? && s.calls[c].account.VerifyRead?
    requires Theirs(s.db, s.calls[c].account.user, s.calls[c].account.conn)
    ensures var conn := s.calls[c].account.conn;
            Next(s, Account(c, MarkVerified(verified))).db.connections ==
            s.db.connections[conn := s.db.connections[conn].(status :=
              if verified then ConnectionStatus.Syncing else ConnectionStatus.Failed)]
  {
    var call := s.calls[c].account;
    AccountNext(s, c, MarkVerified(verified));
    MarkIs(s.db, CallTxn(call, MarkVerified(verified)));
    hide Next, Apply;
  }

  /** A proposal is made for the user's healthy active account, in that account's environment, and as available. */
  lemma ProposeOpensIff(s: System, c: Id, proposal: TradeProposal)
    requires c !in s.calls
    ensures var after := Next(s, Account(c, OpenPropose(proposal)));
            && (c in after.calls <==> HealthyAndActive(s.db, proposal.userId, proposal.connectionId))
            && (c in after.calls ==>
                  after.calls[c] ==
                  OnAccount(ProposeChecked(proposal.(status := ProposalStatus.Available,
                                                     environment :=
                                                       s.db.connections[proposal.connectionId].environment))))
  {
    OpensAs(s, c, OpenPropose(proposal));
    hide Next;
  }

  // ----- inserting

  /** The columns of a proposal row are those of its payload. */
  predicate ColumnsOf(row: ProposalRow, proposal: TradeProposal) {
    && row.payload == proposal && row.userId == proposal.userId && row.connectionId == proposal.connectionId
    && row.environment == proposal.environment && row.symbol == proposal.symbol && row.status == proposal.status
    && row.proposalHash == proposal.proposalHash && row.expiresAt == proposal.expiresAt
    && row.updatedAt == proposal.updatedAt
  }

  ghost predicate HashFree(db: Db, hash: string) {
    forall p :: p in db.proposals ==> db.proposals[p].proposalHash != hash
  }

  lemma ProposeInserts(db: Db, proposal: TradeProposal, p: Id)
    requires p !in db.proposals
    ensures var after := After(db, InsertProposal(db, proposal)).proposals;
            && (p in after <==>
                  p == db.nextId && proposal.connectionId in db.connections && HashFree(db, proposal.proposalHash))
            && (p in after ==> after == db.proposals[p := after[p]] && ColumnsOf(after[p], proposal))
  {
  }

  lemma ProposeIs(db: Db, txn: Txn)
    requires txn.Propose?
    ensures Apply(db, txn) == After(db, InsertProposal(db, txn.proposal.(status := ProposalStatus.Available)))
  {
    hide InsertProposal;
  }

  /** Switching, revoking and syncing insert no proposal. */
  lemma AccountsInsertNone(db: Db, txn: Txn)
    requires txn.Switch? || txn.Revoke? || txn.Sync?
    ensures Apply(db, txn).proposals.Keys == db.proposals.Keys
  {
    hide BeginSubmission, BeginAction, ReplaceOpenPositions, SetOrderState, ReconcileOrder, InsertProposal,
         RejectProposal, WithStatus;
  }

  /**
   A transaction inserts a proposal if and only if it proposes one on an account that exists under a hash no other
   has; it is available, and its columns are those of its payload.
   */
  lemma InsertsProposalIff(db: Db, txn: Txn, p: Id)
    requires Sound(db) && p !in db.proposals
    ensures p in Apply(db, txn).proposals <==>
            && txn.Propose? && p == db.nextId && txn.proposal.connectionId in db.connections
            && HashFree(db, txn.proposal.proposalHash)
    ensures p in Apply(db, txn).proposals && txn.Propose? ==>
              && Apply(db, txn).proposals == db.proposals[p := Apply(db, txn).proposals[p]]
              && ColumnsOf(Apply(db, txn).proposals[p], txn.proposal.(status := ProposalStatus.Available))
  {
    hide Apply, Sound, ColumnsOf, InsertProposal, HashFree;
    if txn.Propose? {
      ProposeIs(db, txn);
      ProposeInserts(db, txn.proposal.(status := ProposalStatus.Available), p);
    } else if txn.Switch? || txn.Revoke? || txn.Sync? {
      AccountsInsertNone(db, txn);
    } else {
      OthersKeep(db, txn);
    }
  }

  lemma ReviewIs(db: Db, txn: Txn)
    requires txn.Review? || txn.ReviewAction?
    ensures txn.Review? ==>
              Apply(db, txn) == After(db, CreateReview(db, txn.user, txn.pid, txn.proposalHash, txn.expiresAt))
    ensures txn.ReviewAction? ==>
              Apply(db, txn) == After(db, CreateActionReview(db, txn.user, txn.terms, txn.actionHash, txn.expiresAt))
  {
    hide CreateReview, CreateActionReview;
  }

  /**
   A new review of an order exists exactly when its proposal does; it is unused, and has the user, proposal, hash
   and expiry it was asked for. A new review of an action has the type and target of its terms.
   */
  lemma ReviewsInsert(db: Db, txn: Txn)
    requires Sound(db) && (txn.Review? || txn.ReviewAction?)
    ensures db.nextId !in db.reviews && db.nextId !in db.actionReviews
    ensures txn.Review? ==>
              Apply(db, txn).reviews ==
              if txn.pid in db.proposals
              then db.reviews[db.nextId := OrderReview(txn.user, txn.pid, txn.proposalHash, txn.expiresAt, None)]
              else db.reviews
    ensures txn.ReviewAction? ==>
              Apply(db, txn).actionReviews ==
              db.actionReviews[db.nextId := ActionReview(txn.user, txn.terms.actionType, txn.terms.targetId,
                                                         txn.actionHash, txn.terms, txn.expiresAt, None)]
  {
    ReviewIs(db, txn);
    assert IdsDrawn(db);
    hide Apply, SubmissionsSound, ActionsSound, PositionsUnique;
  }
}
