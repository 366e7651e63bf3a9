/**
 Creating a proposal in the running system: its account checks and its insert are separate transactions, and
 the context may move between them. Account isolation is lost at exactly such inserts.
 */
module Proposing {
  import opened Common
  import opened ExecutionDomain
  import opened Transactions
  import opened Ledger
  import opened AccountCalls
  import opened Isolation
  import opened Interleaving
  import opened CallMoves
  import opened Submissions
  import opened Reviving
  import opened ExampleRuns

  /** The call has checked the account of its proposal and is about to store it. */
  predicate HoldsChecked(calls: map<Id, Call>, c: Id) {
    c in calls && calls[c].OnAccount? && calls[c].account.ProposeChecked?
  }

  /** The step stores a proposal whose connection is no longer its owner's active account. */
  ghost predicate StoresOff(s: System, e: Step) {
    && e.Account? && e.act.StoreProposal? && HoldsChecked(s.calls, e.c)
    && var proposal := s.calls[e.c].account.proposal;
       && InsertProposal(s.db, proposal.(status := ProposalStatus.Available)).Ok?
       && !Active(s.db.contexts, proposal.userId, proposal.connectionId)
  }

  lemma StoreTxn(s: System, c: Id, act: AccountAct)
    ensures var txn := AccountTxn(s, c, act);
            && (txn.Propose? <==> act.StoreProposal? && HoldsChecked(s.calls, c))
            && (txn.Propose? ==> txn.proposal == s.calls[c].account.proposal)
  {
    hide Continued, MaySync, MayPropose;
  }

  lemma ProposesIff(db: Db, proposal: TradeProposal)
    requires Sound(db) && Isolated(db)
    ensures Isolated(Apply(db, Propose(proposal))) <==>
            !(InsertProposal(db, proposal.(status := ProposalStatus.Available)).Ok? &&
              !Active(db.contexts, proposal.userId, proposal.connectionId))
  {
    hide Sound, Isolated;
    var available := proposal.(status := ProposalStatus.Available);
    if InsertProposal(db, available).Ok? { ProposeIsolatesIff(db, available); }
  }

  /** At every step of every sound system, isolation is lost if and only if the step stores an overtaken proposal. */
  lemma StepIsolatesIff(s: System, e: Step)
    requires Sound(s.db) && Isolated(s.db)
    ensures Isolated(Next(s, e).db) <==> !StoresOff(s, e)
  {
    hide Next, Sound, Isolated, Apply, TxnOf, AccountTxn, InsertProposal;
    NextParts(s, e);
    if e.Account? {
      AccountTxnOf(s, e);
      StoreTxn(s, e.c, e.act);
    } else {
      OnlyAccountsMark(s, e);
    }
    var txn := TxnOf(s, e);
    if txn.Propose? {
      ProposesIff(s.db, txn.proposal);
      assert txn == Propose(txn.proposal);
    } else {
      TxnIsolates(s.db, txn);
    }
  }

  /** In every run that stores no overtaken proposal, each available proposal is on its owner's active account. */
  lemma {:induction false} IsolatedUnlessOvertaken(steps: seq<Step>)
    requires forall k :: 0 <= k < |steps| ==> !StoresOff(Run(Initial, steps[..k]), steps[k])
    ensures Isolated(Run(Initial, steps).db)
  {
    hide Next, Sound, StoresOff, Placing;
    if |steps| == 0 {
    } else {
      var init := steps[..|steps| - 1];
      forall k | 0 <= k < |init| ensures !StoresOff(Run(Initial, init[..k]), init[k]) {
        assert init[..k] == steps[..k];
      }
      IsolatedUnlessOvertaken(init);
      AlwaysPlacing(init);
      StepIsolatesIff(Run(Initial, init), steps[|steps| - 1]);
    }
  }

  /** An active account stops being active by its revoke, or by a switch of its owner to another, and not otherwise. */
  lemma StepDeactivatesIff(s: System, e: Step, user: string, conn: Id)
    requires Sound(s.db) && Isolated(s.db) && Active(s.db.contexts, user, conn)
    ensures !Active(Next(s, e).db.contexts, user, conn) <==>
            && e.Direct?
            && (|| (e.txn.Revoke? && e.txn.user == user && e.txn.conn == conn)
                || (e.txn.Switch? && e.txn.user == user && e.txn.conn != conn &&
                    MaySwitch(s.db, user, e.txn.environment, e.txn.conn)))
  {
    hide Next, Sound, Apply, TxnOf, AccountTxn, Isolated;
    NextParts(s, e);
    TxnContexts(s.db, TxnOf(s, e));
    ActiveIsOwned(s.db, user, conn);
    if e.Account? {
      AccountTxnOf(s, e);
      AccountTxnKind(s, e.c, e.act);
    } else {
      OnlyAccountsMark(s, e);
    }
  }

  lemma ActiveIsOwned(db: Db, user: string, conn: Id)
    requires Isolated(db) && Active(db.contexts, user, conn)
    ensures Owns(db, user, conn)
  {
  }

  // ----- a run that loses it

  /** The account is revoked between the checks of a proposal and its insert. */
  const OVERTAKEN_OFFER := [Account(0, OpenPropose(OFFER)), Direct(Revoke("u", 0, 2)), Account(0, StoreProposal)]

  lemma Stores()
    ensures Next(READY.(calls := map[0 := OnAccount(ProposeChecked(OFFER))]), Direct(Revoke("u", 0, 2))) ==
            Initial.(db := GONE, calls := map[0 := OnAccount(ProposeChecked(OFFER))])
    ensures Next(Initial.(db := GONE, calls := map[0 := OnAccount(ProposeChecked(OFFER))]),
                 Account(0, StoreProposal)) ==
            Initial.(db := Apply(GONE, Propose(OFFER)))
  {
    hide Next, Apply;
    DirectNext(READY.(calls := map[0 := OnAccount(ProposeChecked(OFFER))]), Revoke("u", 0, 2));
    Goes();
    AccountNext(Initial.(db := GONE, calls := map[0 := OnAccount(ProposeChecked(OFFER))]), 0, StoreProposal);
  }

  /** In this run an available proposal is stored on a connection that was revoked after its checks. */
  lemma RevokeBetweenCheckAndInsert()
    ensures Isolated(Run(Initial, SYNCING).db)
    ensures !Isolated(Run(Initial, SYNCING + OVERTAKEN_OFFER).db)
  {
    hide Next, Apply, Run;
    Synced();
    Checks();
    Stores();
    var e := OVERTAKEN_OFFER;
    assert SYNCING + e == SYNCING + [e[0]] + [e[1]] + [e[2]];
    RunSnoc(Initial, SYNCING + [e[0]] + [e[1]], e[2]);
    RunSnoc(Initial, SYNCING + [e[0]], e[1]);
    RunSnoc(Initial, SYNCING, e[0]);
    OfferStored(GONE);
  }

  lemma OfferStored(db: Db)
    requires db == GONE
    ensures !Isolated(Apply(db, Propose(OFFER)))
  {
    var stored := Apply(db, Propose(OFFER));
    assert OFFER.(status := ProposalStatus.Available) == OFFER;
    assert db.proposals.Keys == {};
    assert stored.proposals[1] == RowFor(OFFER);
  }
}
