/**
 One account set up for trading, and what a submission on it goes through: the runs from the initial system
 on which claims that do not hold are refuted.
 */
module ExampleRuns {
  import opened Common
  import opened ExecutionDomain
  import opened Transactions
  import opened Ledger
  import opened AccountCalls
  import opened Interleaving

  /** A proposal sized against an empty portfolio. */
  const OFFER := TradeProposal("u", 0, Mainnet, Linear, "BTCUSDT", Buy, OrderType.Limit, 1.0, Some(10.0), 1.0,
                               Some([]), "h", 100, ProposalStatus.Available, 0)

  const INPUT := SubmitInput(2, "h", "k")

  const ACCOUNT := map[0 := Connection("u", Mainnet, ConnectionStatus.Healthy, Some(1), true)]
  const ACTIVE := map["u" := Context(Mainnet, 0, 1)]

  /** A healthy active connection, an available proposal and a fresh review of it. */
  const TRADING := Db(ACCOUNT, ACTIVE, map[1 := RowFor(OFFER)], map[2 := OrderReview("u", 1, "h", 100, None)],
                      map[], map[], map[], map[], map[], 3)

  /** A user connects an account, verifies its key and syncs it; this makes it their active account. */
  const SYNCING := [Direct(Connect("u", Mainnet)), Account(0, OpenVerify("u", 0)), Account(0, ReadCredential),
                    Account(0, MarkVerified(true)), Account(0, OpenSync("u", 0, false)), Account(0, ReadCredential),
                    Account(0, SaveSync(1, 1))]

  /** A proposal is created on it and reviewed. */
  const OFFERING := [Account(0, OpenPropose(OFFER)), Account(0, StoreProposal), Direct(Review("u", 1, "h", 100))]

  const SETUP := SYNCING + OFFERING

  /** A fresh account in a given status. */
  function Fresh(status: ConnectionStatus): System {
    Initial.(db := EmptyDb.(connections := map[0 := Connection("u", Mainnet, status, None, true)], nextId := 1))
  }

  lemma DirectNext(s: System, txn: Txn)
    requires SingleTransaction(txn)
    ensures Next(s, Direct(txn)) == s.(db := Apply(s.db, txn))
  {
    hide Apply;
  }

  lemma Connects()
    ensures Next(Initial, Direct(Connect("u", Mainnet))) == Fresh(ConnectionStatus.Pending)
  {
    hide Next;
    DirectNext(Initial, Connect("u", Mainnet));
    assert Apply(EmptyDb, Connect("u", Mainnet)).connections ==
           map[0 := Connection("u", Mainnet, ConnectionStatus.Pending, None, true)];
  }

  lemma Marks(s: System, before: ConnectionStatus, after: ConnectionStatus)
    requires s.db == Fresh(before).db
    ensures Apply(s.db, MarkStatus("u", 0, after)) == Fresh(after).db
  {
    assert Apply(s.db, MarkStatus("u", 0, after)).connections == Fresh(after).db.connections;
  }

  lemma Verifies()
    ensures Next(Fresh(ConnectionStatus.Pending), Account(0, OpenVerify("u", 0))) ==
            Fresh(ConnectionStatus.Verifying).(calls := map[0 := OnAccount(VerifyOpened("u", 0))])
    ensures var s := Fresh(ConnectionStatus.Verifying);
            && Next(s.(calls := map[0 := OnAccount(VerifyOpened("u", 0))]), Account(0, ReadCredential)) ==
                 s.(calls := map[0 := OnAccount(VerifyRead("u", 0))])
            && Next(s.(calls := map[0 := OnAccount(VerifyRead("u", 0))]), Account(0, MarkVerified(true))) ==
                 Fresh(ConnectionStatus.Syncing)
  {
    hide Next, Apply;
    var pending, s := Fresh(ConnectionStatus.Pending), Fresh(ConnectionStatus.Verifying);
    AccountNext(pending, 0, OpenVerify("u", 0));
    AccountNext(s.(calls := map[0 := OnAccount(VerifyOpened("u", 0))]), 0, ReadCredential);
    AccountNext(s.(calls := map[0 := OnAccount(VerifyRead("u", 0))]), 0, MarkVerified(true));
    Marks(pending, ConnectionStatus.Pending, ConnectionStatus.Verifying);
    Marks(s, ConnectionStatus.Verifying, ConnectionStatus.Syncing);
    NothingHappens(s.db);
  }

  /** The account is synced and active. */
  const READY := Initial.(db := EmptyDb.(connections := ACCOUNT, contexts := ACTIVE, nextId := 1))

  lemma Saves(db: Db)
    requires db == Fresh(ConnectionStatus.Syncing).db
    ensures Apply(db, Sync("u", 0, 1, 1)) == READY.db
  {
  }

  lemma Syncs()
    ensures var s := Fresh(ConnectionStatus.Syncing);
            && Next(s, Account(0, OpenSync("u", 0, false))) == s.(calls := map[0 := OnAccount(SyncOpened("u", 0))])
            && Next(s.(calls := map[0 := OnAccount(SyncOpened("u", 0))]), Account(0, ReadCredential)) ==
                 s.(calls := map[0 := OnAccount(SyncRead("u", 0))])
            && Next(s.(calls := map[0 := OnAccount(SyncRead("u", 0))]), Account(0, SaveSync(1, 1))) == READY
  {
    hide Next, Apply;
    var s := Fresh(ConnectionStatus.Syncing);
    AccountNext(s, 0, OpenSync("u", 0, false));
    AccountNext(s.(calls := map[0 := OnAccount(SyncOpened("u", 0))]), 0, ReadCredential);
    AccountNext(s.(calls := map[0 := OnAccount(SyncRead("u", 0))]), 0, SaveSync(1, 1));
    NothingHappens(s.db);
    Saves(s.db);
  }

  lemma Synced()
    ensures Run(Initial, SYNCING) == READY
  {
    Connects();
    Verifies();
    Syncs();
    hide Next, Fresh;
    var e := SYNCING;
    assert e == [] + [e[0]] + [e[1]] + [e[2]] + [e[3]] + [e[4]] + [e[5]] + [e[6]];
    RunSnoc(Initial, [] + [e[0]] + [e[1]] + [e[2]] + [e[3]] + [e[4]] + [e[5]], e[6]);
    RunSnoc(Initial, [] + [e[0]] + [e[1]] + [e[2]] + [e[3]] + [e[4]], e[5]);
    RunSnoc(Initial, [] + [e[0]] + [e[1]] + [e[2]] + [e[3]], e[4]);
    RunSnoc(Initial, [] + [e[0]] + [e[1]] + [e[2]], e[3]);
    RunSnoc(Initial, [] + [e[0]] + [e[1]], e[2]);
    RunSnoc(Initial, [] + [e[0]], e[1]);
    RunSnoc(Initial, [], e[0]);
  }

  lemma Stored(db: Db)
    requires db == READY.db
    ensures Apply(Apply(db, Propose(OFFER)), Review("u", 1, "h", 100)) == TRADING
  {
    var proposed := Apply(db, Propose(OFFER));
    assert db.proposals.Keys == {};
    assert OFFER.(status := ProposalStatus.Available) == OFFER;
    assert proposed == db.(proposals := map[1 := RowFor(OFFER)], nextId := 2);
  }

  /** The account checks of the offer pass. */
  lemma Checks()
    ensures Next(READY, Account(0, OpenPropose(OFFER))) == READY.(calls := map[0 := OnAccount(ProposeChecked(OFFER))])
    ensures Next(READY.(calls := map[0 := OnAccount(ProposeChecked(OFFER))]), Account(0, StoreProposal)) ==
            READY.(db := Apply(READY.db, Propose(OFFER)))
  {
    hide Next, Apply;
    AccountNext(READY, 0, OpenPropose(OFFER));
    AccountNext(READY.(calls := map[0 := OnAccount(ProposeChecked(OFFER))]), 0, StoreProposal);
    NothingHappens(READY.db);
    assert OFFER.(environment := Mainnet, status := ProposalStatus.Available) == OFFER;
  }

  lemma SetUp()
    ensures Run(Initial, SETUP) == Initial.(db := TRADING)
  {
    hide Next, Apply;
    Synced();
    Checks();
    Stored(READY.db);
    var proposed := READY.(db := Apply(READY.db, Propose(OFFER)));
    DirectNext(proposed, Review("u", 1, "h", 100));
    var e := OFFERING;
    assert SETUP == SYNCING + [e[0]] + [e[1]] + [e[2]];
    RunSnoc(Initial, SYNCING + [e[0]] + [e[1]], e[2]);
    RunSnoc(Initial, SYNCING + [e[0]], e[1]);
    RunSnoc(Initial, SYNCING, e[0]);
  }

  /** The first reads of a submission, with the positions the broker returns to it. */
  function Reads(snapshots: seq<PositionSnapshot>): seq<Step> {
    [OpenSubmit(0, "u", 1, INPUT), LoadProposal(0), FetchAccount(0, true, snapshots, 2)]
  }

  lemma ReadsDone(snapshots: seq<PositionSnapshot>)
    ensures Run(Initial, SETUP + Reads(snapshots)) ==
            Initial.(db := TRADING, calls := map[0 := SubmitFetched("u", 1, INPUT, OFFER, snapshots, 2)])
  {
    var steps := Reads(snapshots);
    SetUp();
    assert SETUP + steps == SETUP + [steps[0]] + [steps[1]] + [steps[2]];
    RunSnoc(Initial, SETUP, steps[0]);
    RunSnoc(Initial, SETUP + [steps[0]], steps[1]);
    RunSnoc(Initial, SETUP + [steps[0]] + [steps[1]], steps[2]);
    hide Run;
    var s := Initial.(db := TRADING);
    Opens(s);
    Loads(s.(calls := map[0 := SubmitOpened("u", 1, INPUT)]));
    Fetches(s.(calls := map[0 := SubmitLoaded("u", 1, INPUT, OFFER)]), snapshots);
    hide Next;
  }

  lemma Opens(s: System)
    requires s == Initial.(db := TRADING)
    ensures Next(s, OpenSubmit(0, "u", 1, INPUT)) == s.(calls := map[0 := SubmitOpened("u", 1, INPUT)])
  {
    NothingHappens(s.db);
    assert s.db.orders.Keys == {};
    hide Apply;
  }

  lemma Loads(s: System)
    requires s == Initial.(db := TRADING, calls := map[0 := SubmitOpened("u", 1, INPUT)])
    ensures Next(s, LoadProposal(0)) == s.(calls := map[0 := SubmitLoaded("u", 1, INPUT, OFFER)])
  {
    NothingHappens(s.db);
    hide Apply;
  }

  lemma Fetches(s: System, snapshots: seq<PositionSnapshot>)
    requires s == Initial.(db := TRADING, calls := map[0 := SubmitLoaded("u", 1, INPUT, OFFER)])
    ensures Next(s, FetchAccount(0, true, snapshots, 2)) ==
            s.(calls := map[0 := SubmitFetched("u", 1, INPUT, OFFER, snapshots, 2)])
  {
    NothingHappens(s.db);
    hide Apply;
  }
}
