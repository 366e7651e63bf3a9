/**
 Requests on a broker account that read in one transaction and write in a later one: syncing an account,
 verifying its key, and creating a proposal. What they read may be out of date when they write.
 */
module AccountCalls {
  import opened Common
  import opened ExecutionDomain
  import opened Ledger

  predicate Owns(db: Db, user: string, conn: Id) {
    conn in db.connections && db.connections[conn].userId == user
  }

  predicate Active(contexts: map<string, Context>, user: string, conn: Id) {
    user in contexts && contexts[user].connectionId == conn
  }

  /** A request in flight. `SyncRead` and `VerifyRead` hold the decrypted credential and talk to the broker. */
  datatype AccountCall =
    | SyncOpened(user: string, conn: Id)
    | SyncRead(user: string, conn: Id)
    | VerifyOpened(user: string, conn: Id)
    | VerifyRead(user: string, conn: Id)
    | ProposeChecked(proposal: TradeProposal)

  datatype AccountAct =
    | OpenSync(user: string, conn: Id, byWorker: bool)
    | OpenVerify(user: string, conn: Id)
    | OpenPropose(proposal: TradeProposal)
    | ReadCredential
    | SaveSync(capturedAt: Time, now: Time)
    | MarkVerified(verified: bool)
    | StoreProposal

  // ----- opening a request

  predicate Opens(act: AccountAct) {
    act.OpenSync? || act.OpenVerify? || act.OpenPropose?
  }

  /** The worker lists healthy active accounts; a user syncs any verified account of theirs. */
  predicate MaySync(db: Db, user: string, conn: Id, byWorker: bool) {
    && Owns(db, user, conn)
    && var status := db.connections[conn].status;
       if byWorker then status == ConnectionStatus.Healthy && Active(db.contexts, user, conn)
       else status in {ConnectionStatus.Syncing, ConnectionStatus.Healthy, ConnectionStatus.Degraded}
  }

  /** The account checks of creating a proposal. */
  predicate MayPropose(db: Db, user: string, conn: Id) {
    && Owns(db, user, conn)
    && db.connections[conn].status == ConnectionStatus.Healthy
    && Active(db.contexts, user, conn)
  }

  function Opened(db: Db, act: AccountAct): Option<AccountCall>
    requires Opens(act)
  {
    match act
    case OpenSync(user, conn, byWorker) =>
      if MaySync(db, user, conn, byWorker) then Some(SyncOpened(user, conn)) else None
    case OpenVerify(user, conn) => if Owns(db, user, conn) then Some(VerifyOpened(user, conn)) else None
    case OpenPropose(proposal) =>
      if MayPropose(db, proposal.userId, proposal.connectionId)
      then Some(ProposeChecked(proposal.(environment := db.connections[proposal.connectionId].environment,
                                         status := ProposalStatus.Available)))
      else None
  }

  /** Verifying marks its connection before anything else; the others write nothing when they open. */
  function OpenTxn(act: AccountAct): Txn {
    if act.OpenVerify? then MarkStatus(act.user, act.conn, ConnectionStatus.Verifying) else Nothing
  }

  // ----- continuing one

  predicate Fits(call: AccountCall, act: AccountAct) {
    match call
    case SyncOpened(_, _) => act.ReadCredential?
    case SyncRead(_, _) => act.SaveSync?
    case VerifyOpened(_, _) => act.ReadCredential?
    case VerifyRead(_, _) => act.MarkVerified?
    case ProposeChecked(_) => act.StoreProposal?
  }

  /** What the call goes on as: without a credential it raises, and after its write it ends. */
  function Continued(db: Db, call: AccountCall): Option<AccountCall> {
    match call
    case SyncOpened(user, conn) =>
      if Owns(db, user, conn) && db.connections[conn].hasCredential then Some(SyncRead(user, conn)) else None
    case VerifyOpened(user, conn) =>
      if Owns(db, user, conn) && db.connections[conn].hasCredential then Some(VerifyRead(user, conn)) else None
    case _ => None
  }

  function CallTxn(call: AccountCall, act: AccountAct): Txn
    requires Fits(call, act)
  {
    match call
    case SyncRead(user, conn) => Sync(user, conn, act.capturedAt, act.now)
    case VerifyRead(user, conn) =>
      MarkStatus(user, conn, if act.verified then ConnectionStatus.Syncing else ConnectionStatus.Failed)
    case ProposeChecked(proposal) => Propose(proposal)
    case _ => Nothing
  }
}
