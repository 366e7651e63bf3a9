/**
 What a revoke leaves behind. The credential is gone for good, so no later step ever inserts an order on the
 connection, whatever becomes of its status.
 */
module Revocation {
  import opened Common
  import opened ExecutionDomain
  import opened Transactions
  import opened Ledger
  import opened History
  import opened Interleaving
  import opened Submissions

  /** The connection row is there and its trading credential is not. */
  predicate Bare(connections: map<Id, Connection>, conn: Id) {
    conn in connections && !connections[conn].hasCredential
  }

  lemma TxnStaysBare(db: Db, txn: Txn, conn: Id)
    requires Sound(db) && Bare(db.connections, conn)
    ensures Bare(Apply(db, txn).connections, conn)
  {
    SoundConnections(db);
    hide Sound, Apply;
    if OfAccounts(txn) {
      AccountStaysBare(db, txn, conn);
    } else if txn.Replace? {
      ReplaceApplies(db, txn);
      ReplaceLeaves(db, txn.user, txn.conn, txn.environment, txn.snapshots, txn.now);
    } else {
      TradingLeavesAccounts(db, txn);
    }
  }

  lemma AccountStaysBare(db: Db, txn: Txn, conn: Id)
    requires DrawnBefore(db.connections, db.nextId) && OfAccounts(txn) && Bare(db.connections, conn)
    ensures Bare(Apply(db, txn).connections, conn)
  {
    hide BeginSubmission, SetOrderState, BeginAction, MarkAction, ReconcileOrder, ReplaceOpenPositions,
         InvalidatePending, RowFor, WithStatus;
  }

  lemma SoundConnections(db: Db)
    requires Sound(db)
    ensures DrawnBefore(db.connections, db.nextId)
  {
  }

  /** Every order on the connection is one of the given orders. */
  ghost predicate NoOrdersBut(orders: map<Id, Order>, known: set<Id>, conn: Id) {
    forall o :: o in orders && orders[o].connectionId == conn ==> o in known
  }

  lemma StepAddsNone(s: System, e: Step, conn: Id, known: set<Id>)
    requires Sound(s.db) && Bare(s.db.connections, conn) && NoOrdersBut(s.db.orders, known, conn)
    ensures Bare(Next(s, e).db.connections, conn) && NoOrdersBut(Next(s, e).db.orders, known, conn)
  {
    hide Sound, Moved, Apply, TxnOf, Grows;
    var after := Apply(s.db, TxnOf(s, e));
    TxnStaysBare(s.db, TxnOf(s, e), conn);
    TxnGrows(s.db, TxnOf(s, e));
    OrdersBound(s.db, after);
    forall o | o in after.orders && after.orders[o].connectionId == conn ensures o in known {
      InsertedElsewhere(s.db, TxnOf(s, e), o, conn);
    }
  }

  /** A transaction inserts no order on a connection without a credential. */
  lemma InsertedElsewhere(db: Db, txn: Txn, o: Id, conn: Id)
    requires Sound(db) && Bare(db.connections, conn)
    ensures var after := Apply(db, txn).orders; o in after && o !in db.orders ==> after[o].connectionId != conn
  {
    hide Sound, Apply;
    OrdersInsertedActively(db, txn, o);
  }

  lemma OrdersBound(before: Db, after: Db)
    requires Grows(before, after)
    ensures forall o :: o in before.orders ==>
              o in after.orders && after.orders[o].connectionId == before.orders[o].connectionId
  {
  }

  lemma {:induction false} RunAddsNone(s: System, more: seq<Step>, conn: Id, known: set<Id>)
    requires Sound(s.db) && Bare(s.db.connections, conn) && NoOrdersBut(s.db.orders, known, conn)
    ensures Bare(Run(s, more).db.connections, conn) && NoOrdersBut(Run(s, more).db.orders, known, conn)
  {
    hide Sound, Next, Bare, NoOrdersBut, Grows;
    if |more| == 0 {
    } else {
      RunAddsNone(s, more[..|more| - 1], conn, known);
      RunsGrow(s, more[..|more| - 1]);
      StepAddsNone(Run(s, more[..|more| - 1]), more[|more| - 1], conn, known);
    }
  }

  /** A revoke by the owner takes the credential and leaves every order as it is. */
  lemma RevokeStep(s: System, user: string, conn: Id, now: Time)
    requires conn in s.db.connections && s.db.connections[conn].userId == user
    ensures var after := Next(s, Direct(Revoke(user, conn, now))).db;
            Bare(after.connections, conn) && after.orders == s.db.orders
  {
    hide InvalidatePending, Moved;
  }

  /**
   In every run, once the owner has revoked a connection nothing that follows inserts an order on it: every
   order it ever has, and every `place_order` call ever made for one, is of an order that was there before.
   */
  lemma NoOrdersAfterRevoke(steps: seq<Step>, user: string, conn: Id, now: Time, more: seq<Step>)
    requires var s := Run(Initial, steps); conn in s.db.connections && s.db.connections[conn].userId == user
    ensures var s := Run(Initial, steps);
            var later := Run(Initial, steps + [Direct(Revoke(user, conn, now))] + more);
            && Bare(later.db.connections, conn)
            && (forall o :: o in later.db.orders && later.db.orders[o].connectionId == conn ==> o in s.db.orders)
            && (forall i :: 0 <= i < |later.sent| ==>
                  later.sent[i] in later.db.orders &&
                  (later.db.orders[later.sent[i]].connectionId == conn ==> later.sent[i] in s.db.orders))
  {
    hide Next, Sound, Placing, Grows;
    var s := Run(Initial, steps);
    var revoke := Direct(Revoke(user, conn, now));
    var revoked := Run(Initial, steps + [revoke]);
    assert (steps + [revoke])[..|steps + [revoke]| - 1] == steps;
    RevokeStep(s, user, conn, now);
    AlwaysPlacing(steps + [revoke]);
    RunAddsNone(revoked, more, conn, s.db.orders.Keys);
    RunJoins(Initial, steps + [revoke], more);
    hide Run;
    AllSentKnown(steps + [revoke] + more);
  }

  lemma AllSentKnown(steps: seq<Step>)
    ensures var s := Run(Initial, steps); SentKnown(s.sent, s.db.orders)
  {
    hide Run;
    AlwaysPlacing(steps);
  }
}
