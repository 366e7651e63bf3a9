/**
 When a revoked connection comes back. Syncing reads the credential in one transaction and saves the account in a
 later one, which makes the connection healthy whatever happened in between. That is the only way back: a revoked
 connection can become healthy or active again if and only if such a save is still to come when it is revoked.
 */
module Reviving {
  import opened Common
  import opened ExecutionDomain
  import opened Transactions
  import opened Ledger
  import opened AccountCalls
  import opened History
  import Isolation
  import opened Interleaving
  import opened CallMoves
  import opened Submissions
  import opened Revocation
  import opened ExampleRuns

  // ----- the status and the active account, one transaction at a time

  /** The status of an account after a transaction. */
  function StatusAfter(db: Db, txn: Txn, conn: Id): ConnectionStatus
    requires conn in db.connections
  {
    match txn
    case Sync(user, id, _, _) =>
      if id == conn && Owns(db, user, conn) then ConnectionStatus.Healthy else db.connections[conn].status
    case MarkStatus(user, id, status) =>
      if id == conn && Owns(db, user, conn) then status else db.connections[conn].status
    case Revoke(user, id, _) =>
      if id == conn && Owns(db, user, conn) then ConnectionStatus.Revoked else db.connections[conn].status
    case _ => db.connections[conn].status
  }

  lemma TxnStatus(db: Db, txn: Txn, conn: Id)
    requires Sound(db) && conn in db.connections
    ensures conn in Apply(db, txn).connections
    ensures Apply(db, txn).connections[conn].status == StatusAfter(db, txn, conn)
  {
    SoundConnections(db);
    hide Sound, Apply;
    if OfAccounts(txn) {
      AccountStatus(db, txn, conn);
    } else if txn.Replace? {
      ReplaceApplies(db, txn);
      ReplaceLeaves(db, txn.user, txn.conn, txn.environment, txn.snapshots, txn.now);
    } else {
      TradingLeavesAccounts(db, txn);
    }
  }

  /** The transactions that touch a connection or a context. */
  predicate OnConnections(txn: Txn) {
    txn.Connect? || txn.MarkStatus? || txn.Sync? || txn.Switch? || txn.Revoke?
  }

  lemma ProposalsLeaveAccounts(db: Db, txn: Txn)
    requires OfAccounts(txn) && !OnConnections(txn)
    ensures Apply(db, txn).connections == db.connections && Apply(db, txn).contexts == db.contexts
  {
    hide BeginSubmission, SetOrderState, BeginAction, MarkAction, ReconcileOrder, ReplaceOpenPositions,
         CreateConnection, MarkConnection, SaveAccountSnapshot, SwitchContext, RevokeConnection, WithStatus, RowFor;
  }

  lemma AccountStatus(db: Db, txn: Txn, conn: Id)
    requires DrawnBefore(db.connections, db.nextId) && OfAccounts(txn) && conn in db.connections
    ensures conn in Apply(db, txn).connections
    ensures Apply(db, txn).connections[conn].status == StatusAfter(db, txn, conn)
  {
    hide Apply;
    if OnConnections(txn) { MarkedStatus(db, txn, conn); } else { ProposalsLeaveAccounts(db, txn); }
  }

  lemma ConnectWrites(db: Db, user: string, environment: Environment)
    ensures var after := After(db, CreateConnection(db, user, environment));
            && after.contexts == db.contexts
            && after.connections ==
                 db.connections[db.nextId := Connection(user, environment, ConnectionStatus.Pending, None, true)]
  {
  }

  lemma MarkWrites(db: Db, user: string, id: Id, status: ConnectionStatus)
    ensures var after := After(db, MarkConnection(db, user, id, status));
            && after.contexts == db.contexts
            && after.connections == if Owns(db, user, id)
                                    then db.connections[id := db.connections[id].(status := status)] else db.connections
  {
  }

  lemma SyncWrites(db: Db, user: string, id: Id, capturedAt: Time, now: Time)
    ensures var after := After(db, SaveAccountSnapshot(db, user, id, capturedAt, now));
            if Owns(db, user, id)
            then && after.connections ==
                      db.connections[id := db.connections[id].(status := ConnectionStatus.Healthy,
                                                               lastSyncedAt := Some(capturedAt))]
                 && after.contexts == (if user in db.contexts then db.contexts
                                       else db.contexts[user := Context(db.connections[id].environment, id, now)])
            else after == db
  {
  }

  lemma SwitchWrites(db: Db, user: string, environment: Environment, id: Id, now: Time)
    ensures var after := After(db, SwitchContext(db, user, environment, id, now));
            && after.connections == db.connections
            && after.contexts == if MaySwitch(db, user, environment, id)
                                 then db.contexts[user := Context(environment, id, now)] else db.contexts
  {
    hide InvalidatePending;
  }

  lemma RevokeWrites(db: Db, user: string, id: Id, now: Time)
    ensures var after := After(db, RevokeConnection(db, user, id, now));
            if Owns(db, user, id)
            then && after.connections ==
                      db.connections[id := db.connections[id].(status := ConnectionStatus.Revoked,
                                                               hasCredential := false)]
                 && after.contexts == (if Active(db.contexts, user, id) then db.contexts - {user} else db.contexts)
            else after == db
  {
    hide InvalidatePending;
  }

  lemma MarkedStatus(db: Db, txn: Txn, conn: Id)
    requires DrawnBefore(db.connections, db.nextId) && OnConnections(txn) && conn in db.connections
    ensures conn in Apply(db, txn).connections
    ensures Apply(db, txn).connections[conn].status == StatusAfter(db, txn, conn)
  {
    hide BeginSubmission, SetOrderState, BeginAction, MarkAction, ReconcileOrder, ReplaceOpenPositions,
         InsertProposal, RejectProposal, CreateReview, CreateActionReview, CreateConnection, MarkConnection,
         SaveAccountSnapshot, SwitchContext, RevokeConnection;
    match txn
    case Connect(user, environment) => ConnectWrites(db, user, environment);
    case MarkStatus(user, id, status) => MarkWrites(db, user, id, status);
    case Sync(user, id, capturedAt, now) => SyncWrites(db, user, id, capturedAt, now);
    case Switch(user, environment, id, now) => SwitchWrites(db, user, environment, id, now);
    case Revoke(user, id, now) => RevokeWrites(db, user, id, now);
  }

  /** The owner may switch to the account. */
  predicate MaySwitch(db: Db, user: string, environment: Environment, conn: Id) {
    && Owns(db, user, conn)
    && db.connections[conn].environment == environment
    && db.connections[conn].status == ConnectionStatus.Healthy
    && db.connections[conn].lastSyncedAt.Some?
  }

  /** The active accounts after a transaction. */
  function ContextsAfter(db: Db, txn: Txn): map<string, Context> {
    match txn
    case Sync(user, id, _, now) =>
      if Owns(db, user, id) && user !in db.contexts
      then db.contexts[user := Context(db.connections[id].environment, id, now)] else db.contexts
    case Switch(user, environment, id, now) =>
      if MaySwitch(db, user, environment, id) then db.contexts[user := Context(environment, id, now)] else db.contexts
    case Revoke(user, id, _) =>
      if Owns(db, user, id) && Active(db.contexts, user, id) then db.contexts - {user} else db.contexts
    case _ => db.contexts
  }

  lemma TxnContexts(db: Db, txn: Txn)
    requires Sound(db)
    ensures Apply(db, txn).contexts == ContextsAfter(db, txn)
  {
    hide Sound, Apply;
    if OnConnections(txn) {
      MarkedContexts(db, txn);
    } else if OfAccounts(txn) {
      ProposalsLeaveAccounts(db, txn);
    } else if txn.Replace? {
      ReplaceApplies(db, txn);
      ReplaceLeaves(db, txn.user, txn.conn, txn.environment, txn.snapshots, txn.now);
    } else {
      TradingLeavesAccounts(db, txn);
    }
  }

  lemma MarkedContexts(db: Db, txn: Txn)
    requires OnConnections(txn)
    ensures Apply(db, txn).contexts == ContextsAfter(db, txn)
  {
    hide BeginSubmission, SetOrderState, BeginAction, MarkAction, ReconcileOrder, ReplaceOpenPositions,
         InsertProposal, RejectProposal, CreateReview, CreateActionReview, CreateConnection, MarkConnection,
         SaveAccountSnapshot, SwitchContext, RevokeConnection;
    match txn
    case Connect(user, environment) => ConnectWrites(db, user, environment);
    case MarkStatus(user, id, status) => MarkWrites(db, user, id, status);
    case Sync(user, id, capturedAt, now) => SyncWrites(db, user, id, capturedAt, now);
    case Switch(user, environment, id, now) => SwitchWrites(db, user, environment, id, now);
    case Revoke(user, id, now) => RevokeWrites(db, user, id, now);
  }

  /** The transaction makes the connection its owner's active account. */
  predicate Activates(db: Db, txn: Txn, conn: Id)
    requires conn in db.connections
  {
    var user := db.connections[conn].userId;
    || (txn.Sync? && txn.conn == conn && txn.user == user && user !in db.contexts)
    || (txn.Switch? && txn.conn == conn && txn.user == user && MaySwitch(db, user, txn.environment, conn))
  }

  /** An account that is not active becomes active by its owner's first sync or by a switch, and in no other way. */
  lemma TxnActivatesIff(db: Db, txn: Txn, conn: Id)
    requires Sound(db) && conn in db.connections && !Active(db.contexts, db.connections[conn].userId, conn)
    ensures Active(Apply(db, txn).contexts, db.connections[conn].userId, conn) <==> Activates(db, txn, conn)
  {
    TxnContexts(db, txn);
    hide Sound, Apply;
  }

  // ----- one step at a time

  /** The call holds the credential of the connection and is about to save its snapshot. */
  predicate HoldsRead(calls: map<Id, Call>, c: Id, user: string, conn: Id) {
    c in calls && calls[c] == OnAccount(SyncRead(user, conn))
  }

  /** The step saves an account snapshot of the connection. */
  predicate SavesRead(s: System, e: Step, user: string, conn: Id) {
    e.Account? && e.act.SaveSync? && HoldsRead(s.calls, e.c, user, conn)
  }

  predicate Healthy(s: System, conn: Id) {
    conn in s.db.connections && s.db.connections[conn].status == ConnectionStatus.Healthy
  }

  /** What a step writes to the status of a connection. */
  lemma StepStatus(s: System, e: Step, conn: Id)
    requires Sound(s.db) && conn in s.db.connections
    ensures conn in Next(s, e).db.connections
    ensures Next(s, e).db.connections[conn].status == StatusAfter(s.db, TxnOf(s, e), conn)
  {
    hide Sound, Apply, TxnOf, Moved, StatusAfter;
    TxnStatus(s.db, TxnOf(s, e), conn);
  }

  /** A connection becomes healthy by the save of a sync of its owner, and by no other step. */
  lemma StepHealsIff(s: System, e: Step, conn: Id)
    requires Sound(s.db) && conn in s.db.connections && !Healthy(s, conn)
    ensures Healthy(Next(s, e), conn) <==> SavesRead(s, e, s.db.connections[conn].userId, conn)
  {
    hide Next, Sound, TxnOf, AccountTxn, HoldsRead;
    StepStatus(s, e, conn);
    if e.Account? {
      AccountTxnOf(s, e);
      SaveTxn(s, e.c, e.act, conn);
    } else {
      OnlyAccountsMark(s, e);
    }
  }

  lemma AccountTxnOf(s: System, e: Step)
    requires e.Account?
    ensures TxnOf(s, e) == AccountTxn(s, e.c, e.act)
  {
    hide AccountTxn;
  }

  /** Only requests on an account sync it or mark its status. */
  lemma OnlyAccountsMark(s: System, e: Step)
    requires !e.Account?
    ensures !TxnOf(s, e).Sync? && !TxnOf(s, e).MarkStatus? && !TxnOf(s, e).Propose?
    ensures TxnOf(s, e).Switch? || TxnOf(s, e).Revoke? ==> e.Direct? && e.txn == TxnOf(s, e)
    ensures e.Direct? && (e.txn.Switch? || e.txn.Revoke?) ==> TxnOf(s, e) == e.txn
  {
    hide Clip;
  }

  /** The requests that write a status, and the status they write. */
  lemma SaveTxn(s: System, c: Id, act: AccountAct, conn: Id)
    requires conn in s.db.connections
    ensures var txn, user := AccountTxn(s, c, act), s.db.connections[conn].userId;
            && (txn.Sync? && txn.conn == conn && txn.user == user <==>
                  act.SaveSync? && HoldsRead(s.calls, c, user, conn))
            && (txn.MarkStatus? && txn.conn == conn && txn.user == user <==>
                  || (act == OpenVerify(user, conn) && c !in s.calls)
                  || (act.MarkVerified? && c in s.calls && s.calls[c] == OnAccount(VerifyRead(user, conn))))
            && (txn.MarkStatus? ==> txn.status != ConnectionStatus.Healthy && txn.status != ConnectionStatus.Revoked)
            && !txn.Revoke? && !txn.Switch?
  {
    hide Continued, MaySync, MayPropose;
  }

  /**
   A revoked status is overwritten by the save of a sync, by a verification that read the credential, and by every
   new verification of the owner: only the first two are races with the revoke.
   */
  lemma LeavesRevokedIff(s: System, e: Step, conn: Id)
    requires Sound(s.db) && conn in s.db.connections && s.db.connections[conn].status == ConnectionStatus.Revoked
    ensures var user := s.db.connections[conn].userId;
            conn in Next(s, e).db.connections &&
            (Next(s, e).db.connections[conn].status != ConnectionStatus.Revoked <==>
               || SavesRead(s, e, user, conn)
               || (e.Account? && e.act.MarkVerified? && e.c in s.calls &&
                   s.calls[e.c] == OnAccount(VerifyRead(user, conn)))
               || (e.Account? && e.act == OpenVerify(user, conn) && e.c !in s.calls))
  {
    hide Next, Sound, TxnOf, AccountTxn, HoldsRead;
    StepStatus(s, e, conn);
    if e.Account? {
      AccountTxnOf(s, e);
      SaveTxn(s, e.c, e.act, conn);
    } else {
      OnlyAccountsMark(s, e);
    }
  }

  /** A connection becomes its owner's active account by a save that finds no active one, or by a switch. */
  lemma StepActivatesIff(s: System, e: Step, conn: Id)
    requires Sound(s.db) && conn in s.db.connections && !Active(s.db.contexts, s.db.connections[conn].userId, conn)
    ensures var account := s.db.connections[conn];
            Active(Next(s, e).db.contexts, account.userId, conn) <==>
              || (SavesRead(s, e, account.userId, conn) && account.userId !in s.db.contexts)
              || (e.Direct? && e.txn.Switch? && e.txn.conn == conn && e.txn.user == account.userId &&
                  MaySwitch(s.db, account.userId, e.txn.environment, conn))
  {
    hide Next, Sound, Apply, TxnOf, AccountTxn, HoldsRead, Active;
    NextParts(s, e);
    TxnActivatesIff(s.db, TxnOf(s, e), conn);
    if e.Account? {
      AccountTxnOf(s, e);
      SaveTxn(s, e.c, e.act, conn);
    } else {
      OnlyAccountsMark(s, e);
    }
  }

  // ----- after a revoke

  /** Requests on accounts are only moved on by their own steps. */
  ghost predicate NoNewRequests(before: map<Id, Call>, after: map<Id, Call>) {
    forall c :: c in after && after[c].OnAccount? ==> c in before && before[c] == after[c]
  }

  /** A turn of another kind leaves no request on an account. */
  lemma CallOpensNone(before: Option<Call>, e: Step, after: Option<Call>)
    requires Turns(before, e, after) && !e.Account? && after.Some?
    ensures !after.value.OnAccount?
  {
  }

  lemma TurnOpensNone(before: map<Id, Call>, e: Step, after: map<Id, Call>)
    requires OneTurn(before, e, after) && !e.Account?
    ensures NoNewRequests(before, after)
  {
    hide Turns;
    forall c | c in after && after[c].OnAccount? ensures c in before && before[c] == after[c] {
      assert At(after, c) == Some(after[c]);
      if At(before, c) != At(after, c) { CallOpensNone(At(before, c), e, At(after, c)); }
    }
  }

  /** Without a credential no call comes to hold it. */
  lemma NoNewRead(s: System, e: Step, c: Id, user: string, conn: Id)
    requires Bare(s.db.connections, conn)
    ensures HoldsRead(Next(s, e).calls, c, user, conn) ==> HoldsRead(s.calls, c, user, conn)
  {
    hide Next, Moved, OneTurn;
    NextParts(s, e);
    if e.Account? {
      AccountReads(s, e, c, user, conn);
    } else {
      StepTurns(s, e);
      TurnOpensNone(s.calls, e, Moved(s, e).calls);
    }
  }

  lemma AccountReads(s: System, e: Step, c: Id, user: string, conn: Id)
    requires e.Account? && Bare(s.db.connections, conn)
    ensures HoldsRead(Moved(s, e).calls, c, user, conn) ==> HoldsRead(s.calls, c, user, conn)
  {
    hide MovedSubmission, MovedOrder, MovedPositions, MovedAction, MovedAlone, MaySync, MayPropose;
  }

  /** The account was revoked: its credential is gone, and it is neither healthy nor active. */
  predicate Revoked(s: System, user: string, conn: Id) {
    && Bare(s.db.connections, conn) && s.db.connections[conn].userId == user
    && s.db.connections[conn].status == ConnectionStatus.Revoked && !Active(s.db.contexts, user, conn)
  }

  /** The step of the continuation that saves a snapshot of the account. */
  ghost predicate SavesAt(s: System, more: seq<Step>, k: int, user: string, conn: Id) {
    0 <= k < |more| && SavesRead(Run(s, more[..k]), more[k], user, conn)
  }

  ghost predicate SavedIn(s: System, more: seq<Step>, user: string, conn: Id) {
    exists k :: SavesAt(s, more, k, user, conn)
  }

  /** What stays of an account without a credential: its row, its owner, and no call that newly holds the credential. */
  ghost predicate Followed(s: System, later: System, user: string, conn: Id) {
    && Sound(later.db) && Bare(later.db.connections, conn) && later.db.connections[conn].userId == user
    && forall c :: HoldsRead(later.calls, c, user, conn) ==> HoldsRead(s.calls, c, user, conn)
  }

  lemma {:induction false} RunFollowed(s: System, more: seq<Step>, user: string, conn: Id)
    requires Sound(s.db) && Bare(s.db.connections, conn) && s.db.connections[conn].userId == user
    ensures Followed(s, Run(s, more), user, conn)
  {
    hide Next, Sound, Grows;
    if |more| == 0 {
    } else {
      var before, e := Run(s, more[..|more| - 1]), more[|more| - 1];
      RunFollowed(s, more[..|more| - 1], user, conn);
      RunsGrow(before, [e]);
      RunOne(before, e);
      OwnerStays(before, Next(before, e), conn);
      StepStaysBare(before, e, conn);
      forall c | HoldsRead(Next(before, e).calls, c, user, conn) ensures HoldsRead(s.calls, c, user, conn) {
        NoNewRead(before, e, c, user, conn);
      }
    }
  }

  lemma OwnerStays(before: System, after: System, conn: Id)
    requires Grows(before.db, after.db) && conn in before.db.connections
    ensures conn in after.db.connections && SameAccount(before.db.connections[conn], after.db.connections[conn])
  {
  }

  lemma StepStaysBare(s: System, e: Step, conn: Id)
    requires Sound(s.db) && Bare(s.db.connections, conn)
    ensures Bare(Next(s, e).db.connections, conn)
  {
    hide Sound, Apply, TxnOf, Moved;
    TxnStaysBare(s.db, TxnOf(s, e), conn);
  }

  lemma SavedGrows(s: System, more: seq<Step>, user: string, conn: Id)
    requires |more| > 0
    ensures SavedIn(s, more, user, conn) <==>
            || SavedIn(s, more[..|more| - 1], user, conn)
            || SavesRead(Run(s, more[..|more| - 1]), more[|more| - 1], user, conn)
  {
    hide Run, SavesRead;
    var init := more[..|more| - 1];
    forall k | 0 <= k < |init| ensures SavesAt(s, init, k, user, conn) <==> SavesAt(s, more, k, user, conn) {
      assert init[..k] == more[..k];
    }
    if SavesRead(Run(s, init), more[|more| - 1], user, conn) {
      assert SavesAt(s, more, |more| - 1, user, conn);
    }
    if SavedIn(s, more, user, conn) {
      var k :| SavesAt(s, more, k, user, conn);
      assert k == |init| || SavesAt(s, init, k, user, conn);
    }
    if SavedIn(s, init, user, conn) {
      var k :| SavesAt(s, init, k, user, conn);
      assert SavesAt(s, more, k, user, conn);
    }
  }

  /**
   After a revoke, in every continuation: the connection stays unhealthy and inactive until a save, and no other
   step of any kind, brings it back.
   */
  lemma {:induction false} DownUntilSaved(s: System, more: seq<Step>, user: string, conn: Id)
    requires Sound(s.db) && Revoked(s, user, conn) && !SavedIn(s, more, user, conn)
    ensures !Healthy(Run(s, more), conn) && !Active(Run(s, more).db.contexts, user, conn)
  {
    hide Next, Sound, SavedIn, SavesRead, Active, Bare;
    if |more| == 0 {
    } else {
      var init, e := more[..|more| - 1], more[|more| - 1];
      SavedGrows(s, more, user, conn);
      DownUntilSaved(s, init, user, conn);
      RunFollowed(s, init, user, conn);
      FollowedRow(s, Run(s, init), user, conn);
      StepHealsIff(Run(s, init), e, conn);
      StepActivatesIff(Run(s, init), e, conn);
    }
  }

  lemma FollowedRow(s: System, later: System, user: string, conn: Id)
    requires Followed(s, later, user, conn)
    ensures Sound(later.db) && conn in later.db.connections && later.db.connections[conn].userId == user
  {
  }

  /**
   Over every run: a revoked connection is healthy at some point of a continuation if and only if some step of it
   saves a snapshot, and whoever saves one had read the credential before the revoke.
   */
  lemma HealthyIffSaved(steps: seq<Step>, user: string, conn: Id, now: Time, more: seq<Step>)
    requires var s := Run(Initial, steps); conn in s.db.connections && s.db.connections[conn].userId == user
    ensures var s := Run(Initial, steps + [Direct(Revoke(user, conn, now))]);
            && ((exists j :: 0 <= j <= |more| && Healthy(Run(s, more[..j]), conn)) <==> SavedIn(s, more, user, conn))
            && forall k :: SavesAt(s, more, k, user, conn) ==>
                 more[k].Account? && HoldsRead(Run(Initial, steps).calls, more[k].c, user, conn)
  {
    hide Next, Sound, SavedIn, SavesRead;
    var s := Run(Initial, steps + [Direct(Revoke(user, conn, now))]);
    AfterRevoke(steps, user, conn, now);
    forall k | SavesAt(s, more, k, user, conn)
      ensures more[k].Account? && HoldsRead(Run(Initial, steps).calls, more[k].c, user, conn)
    {
      RunFollowed(s, more[..k], user, conn);
      SaveHolds(Run(s, more[..k]), more[k], user, conn);
    }
    if j :| 0 <= j <= |more| && Healthy(Run(s, more[..j]), conn) {
      if !SavedIn(s, more, user, conn) {
        if SavedIn(s, more[..j], user, conn) { SavedPrefix(s, more, j, user, conn); }
        DownUntilSaved(s, more[..j], user, conn);
      }
    }
    if SavedIn(s, more, user, conn) {
      var k := SaveIndex(s, more, user, conn);
      RunFollowed(s, more[..k], user, conn);
      FollowedRow(s, Run(s, more[..k]), user, conn);
      if !Healthy(Run(s, more[..k]), conn) { StepHealsIff(Run(s, more[..k]), more[k], conn); }
      assert more[..k + 1] == more[..k] + [more[k]];
      RunSnoc(s, more[..k], more[k]);
      assert Healthy(Run(s, more[..k]), conn) || Healthy(Run(s, more[..k + 1]), conn);
    }
  }

  ghost function SaveIndex(s: System, more: seq<Step>, user: string, conn: Id): (k: int)
    requires SavedIn(s, more, user, conn)
    ensures SavesAt(s, more, k, user, conn)
  {
    var k :| SavesAt(s, more, k, user, conn);
    k
  }

  lemma SaveHolds(s: System, e: Step, user: string, conn: Id)
    requires SavesRead(s, e, user, conn)
    ensures e.Account? && e.act.SaveSync? && HoldsRead(s.calls, e.c, user, conn)
  {
  }

  lemma SavedPrefix(s: System, more: seq<Step>, j: int, user: string, conn: Id)
    requires 0 <= j <= |more| && SavedIn(s, more[..j], user, conn)
    ensures SavedIn(s, more, user, conn)
  {
    hide Run, SavesRead;
    var k :| SavesAt(s, more[..j], k, user, conn);
    assert more[..j][..k] == more[..k];
    assert SavesAt(s, more, k, user, conn);
  }

  lemma AfterRevoke(steps: seq<Step>, user: string, conn: Id, now: Time)
    requires var s := Run(Initial, steps); conn in s.db.connections && s.db.connections[conn].userId == user
    ensures var s := Run(Initial, steps + [Direct(Revoke(user, conn, now))]);
            Sound(s.db) && Revoked(s, user, conn) && s.calls == Run(Initial, steps).calls
  {
    hide Next, Sound, Placing, Apply, Bare, Grows;
    var before, revoke := Run(Initial, steps), Direct(Revoke(user, conn, now));
    RunSnoc(Initial, steps, revoke);
    AlwaysPlacing(steps);
    AlwaysPlacing(steps + [revoke]);
    DirectNext(before, revoke.txn);
    RevokeStep(before, user, conn, now);
    TxnStatus(before.db, revoke.txn, conn);
    TxnContexts(before.db, revoke.txn);
    TxnGrows(before.db, revoke.txn);
    OwnerStays(before, Next(before, revoke), conn);
  }

  /** Some call in flight has read the credential of the account and not saved its snapshot yet. */
  ghost predicate ReadInFlight(s: System, user: string, conn: Id) {
    exists c :: HoldsRead(s.calls, c, user, conn)
  }

  /**
   The race, exactly: when its owner revokes a connection in any reachable system, some continuation makes it
   healthy again if and only if a sync that has read the credential is in flight at that moment; and the same
   condition decides whether some continuation makes it the active account again.
   */
  lemma RevivesIff(steps: seq<Step>, user: string, conn: Id, now: Time)
    requires var s := Run(Initial, steps); conn in s.db.connections && s.db.connections[conn].userId == user
    ensures var s := Run(Initial, steps + [Direct(Revoke(user, conn, now))]);
            && ((exists more :: Healthy(Run(s, more), conn)) <==> ReadInFlight(Run(Initial, steps), user, conn))
            && ((exists more :: Active(Run(s, more).db.contexts, user, conn)) <==>
                ReadInFlight(Run(Initial, steps), user, conn))
  {
    hide Next, Sound, SavedIn, SavesRead, HoldsRead, Active;
    var s := Run(Initial, steps + [Direct(Revoke(user, conn, now))]);
    AfterRevoke(steps, user, conn, now);
    hide Run;
    if more: seq<Step> :| Healthy(Run(s, more), conn) || Active(Run(s, more).db.contexts, user, conn) {
      if !SavedIn(s, more, user, conn) { DownUntilSaved(s, more, user, conn); }
      HealthyIffSaved(steps, user, conn, now, more);
      var k := SaveIndex(s, more, user, conn);
      assert SavesAt(s, more, k, user, conn);
      assert HoldsRead(Run(Initial, steps).calls, more[k].c, user, conn);
    }
    if ReadInFlight(Run(Initial, steps), user, conn) {
      var c :| HoldsRead(Run(Initial, steps).calls, c, user, conn);
      SaveRevives(s, c, user, conn);
    }
  }

  /** Saving makes it healthy, and a switch of the owner then makes it active if the save did not. */
  lemma SaveRevives(s: System, c: Id, user: string, conn: Id)
    requires Sound(s.db) && Revoked(s, user, conn) && HoldsRead(s.calls, c, user, conn)
    ensures var save := Account(c, SaveSync(0, 0));
            var switch := Direct(Switch(user, s.db.connections[conn].environment, conn, 0));
            Healthy(Run(s, [save]), conn) && Active(Run(s, [save, switch]).db.contexts, user, conn)
  {
    hide Next, Sound, Run, Apply, Grows;
    var save, switch := Account(c, SaveSync(0, 0)), Direct(Switch(user, s.db.connections[conn].environment, conn, 0));
    RunOne(s, save);
    RunSnoc(s, [save], switch);
    assert [save] + [switch] == [save, switch];
    SavedRow(s, c, user, conn);
    RunsGrow(s, [save]);
    var saved := Next(s, save);
    DirectNext(saved, switch.txn);
    TxnContexts(saved.db, switch.txn);
  }

  lemma SavedRow(s: System, c: Id, user: string, conn: Id)
    requires Revoked(s, user, conn) && HoldsRead(s.calls, c, user, conn)
    ensures var after := Next(s, Account(c, SaveSync(0, 0))).db.connections;
            conn in after && after[conn] ==
              s.db.connections[conn].(status := ConnectionStatus.Healthy, lastSyncedAt := Some(0))
  {
    AccountNext(s, c, SaveSync(0, 0));
    hide Next;
  }

  // ----- a verification after a revoke

  /**
   With no race at all, a verification that the owner starts after a revoke overwrites the status, and then raises
   for want of a credential: the connection is left verifying.
   */
  lemma VerifyForgetsRevoke(s: System, c: Id, user: string, conn: Id)
    requires Sound(s.db) && Bare(s.db.connections, conn) && s.db.connections[conn].userId == user && c !in s.calls
    ensures var after := Run(s, [Account(c, OpenVerify(user, conn)), Account(c, ReadCredential)]);
            && conn in after.db.connections && after.db.connections[conn].status == ConnectionStatus.Verifying
            && after.calls == s.calls
  {
    hide Next, Sound, Run, Apply;
    var start, read := Account(c, OpenVerify(user, conn)), Account(c, ReadCredential);
    RunOne(s, start);
    RunSnoc(s, [start], read);
    assert [start] + [read] == [start, read];
    var verifying := Next(s, start);
    AccountNext(s, c, OpenVerify(user, conn));
    TxnStatus(s.db, AccountTxn(s, c, OpenVerify(user, conn)), conn);
    StepStaysBare(s, start, conn);
    AccountNext(verifying, c, ReadCredential);
    NothingHappens(verifying.db);
    assert s.calls[c := OnAccount(VerifyOpened(user, conn))] - {c} == s.calls;
  }

  // ----- a run that does it

  /** A worker reads the credential of an account, its user revokes it, and the worker saves its snapshot. */
  const RACE := [Account(0, OpenSync("u", 0, true)), Account(0, ReadCredential), Direct(Revoke("u", 0, 2)),
                 Account(0, SaveSync(1, 3))]

  lemma Reads()
    ensures Next(READY, Account(0, OpenSync("u", 0, true))) == READY.(calls := map[0 := OnAccount(SyncOpened("u", 0))])
    ensures Next(READY.(calls := map[0 := OnAccount(SyncOpened("u", 0))]), Account(0, ReadCredential)) ==
            READY.(calls := map[0 := OnAccount(SyncRead("u", 0))])
  {
    hide Next, Apply;
    AccountNext(READY, 0, OpenSync("u", 0, true));
    AccountNext(READY.(calls := map[0 := OnAccount(SyncOpened("u", 0))]), 0, ReadCredential);
    NothingHappens(READY.db);
  }

  /** The account after its revoke. */
  const GONE := EmptyDb.(connections := map[0 := Connection("u", Mainnet, ConnectionStatus.Revoked, Some(1), false)],
                         nextId := 1)

  lemma Goes()
    ensures Apply(READY.db, Revoke("u", 0, 2)) == GONE
  {
    var after := Apply(READY.db, Revoke("u", 0, 2));
    assert after.contexts == map[];
    assert after.proposals.Keys == {};
  }

  lemma Returns(db: Db)
    requires db == GONE
    ensures Apply(db, Sync("u", 0, 1, 3)) ==
            db.(connections := map[0 := Connection("u", Mainnet, ConnectionStatus.Healthy, Some(1), false)],
                contexts := map["u" := Context(Mainnet, 0, 3)])
  {
  }

  lemma SavesLate()
    ensures Next(READY.(calls := map[0 := OnAccount(SyncRead("u", 0))]), Direct(Revoke("u", 0, 2))) ==
            Initial.(db := GONE, calls := map[0 := OnAccount(SyncRead("u", 0))])
    ensures Next(Initial.(db := GONE, calls := map[0 := OnAccount(SyncRead("u", 0))]), Account(0, SaveSync(1, 3))) ==
            Initial.(db := Apply(GONE, Sync("u", 0, 1, 3)))
  {
    hide Next, Apply;
    DirectNext(READY.(calls := map[0 := OnAccount(SyncRead("u", 0))]), Revoke("u", 0, 2));
    Goes();
    AccountNext(Initial.(db := GONE, calls := map[0 := OnAccount(SyncRead("u", 0))]), 0, SaveSync(1, 3));
  }

  /**
   The race as a run from the initial system: afterwards the revoked connection is healthy and active, and a
   proposal can be stored on it, but it cannot trade.
   */
  lemma LateSaveRevives(proposal: TradeProposal)
    requires proposal.userId == "u" && proposal.connectionId == 0
    ensures var db := Run(Initial, SYNCING + RACE).db;
            && 0 in db.connections && db.connections[0].status == ConnectionStatus.Healthy
            && Active(db.contexts, "u", 0)
            && Isolation.CheckedCreate(db, proposal).Ok?
            && !TradingAllowed(db, "u", 0)
  {
    hide Next, Apply, Run;
    Synced();
    Reads();
    SavesLate();
    Returns(GONE);
    var e := RACE;
    assert SYNCING + e == SYNCING + [e[0]] + [e[1]] + [e[2]] + [e[3]];
    RunSnoc(Initial, SYNCING + [e[0]] + [e[1]] + [e[2]], e[3]);
    RunSnoc(Initial, SYNCING + [e[0]] + [e[1]], e[2]);
    RunSnoc(Initial, SYNCING + [e[0]], e[1]);
    RunSnoc(Initial, SYNCING, e[0]);
    assert Run(Initial, SYNCING + e).db.proposals.Keys == {};
  }
}
