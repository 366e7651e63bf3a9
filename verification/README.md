# SignalOS backend: execution, sizing, replay and market queue

A Dafny model of the parts of the SignalOS backend that move money or decide about it, with proofs
over every input, every run or every interleaving. `dafny verify dfyconfig.toml` checks all of it.

**Orders and actions.** `ExecutionDomain` has the rows, `Transactions` each database transaction as one
atomic function of the whole database (an `Err` is a raised exception: nothing is written), and `Stores`
the same transactions as methods that assign fields and loop over rows, proved equal to those functions.
`Ledger` and `History` say what every transaction keeps and how tables grow. `Interleaving` puts service
calls in flight over the database and a broker: a call is a value that holds what it has read, anything
else may run before and after each of its transactions, broker calls and broker answers (reads that follow
one another are one step), calls may be abandoned, answers lost, snapshots written long after they were
taken, and the broker is an adversary that only keeps its final statuses final. `AccountCalls` are the
calls that sync an account, verify its key and create a proposal, and `CallMoves` says how a step moves
the calls. `Submissions`, `BrokerTruth`, `Settling`, `Reopening`, `PendingActions`, `ActionCalls`,
`Evidence`, `Isolation`, `Proposing`, `Revocation`, `Reviving`, `Positions`, `Repeating` and `Portfolio`
are the theorems about every run of that system, and `ExampleRuns` the account their concrete runs start
from. `Entries`, `ProposalMoves`, `Completions`, `CallChecks` and `OrderStatuses` say exactly when each row is
inserted, moved or completed and each check passes (with `AccountRules` for accounts and proposals), in the fields of the rows and the broker's own status
strings, without the functions the transactions are written with. `Fills` is the overlapping fill window over whole histories of cycles.

**Arithmetic.** `Sizing` is the sizing policy in exact reals (`SizingPolicy` is its imperative form),
`Signals` the signal engine and tick rounding, `Replay` the bar-by-bar replay as a fold and as the loop
that computes it, `ReplaySafety` the claims about whole replays, `Drawdown` the one-pass drawdown.
`SizingBudgets`, `SignalRules`, `ReplayReturns` and `TradeOutcomes` say in input fields alone what is accepted,
signalled and earned, and `PricePaths` what a fixed share earns along a path of prices.

**Market.** `AnalysisQueue` is the leased request queue as a store object, `AnalysisWorkers` all
interleavings of requesters and workers on it, `AnalysisProgress` how soon a request is claimed,
`AnalysisLoop` the worker loop around it, `Ranking` the scanner. `Sorting` is the stable sort that `Ranking`
and `Fingerprints` use.

Conventions: the clock is an integer that does not run backwards inside one process, identifiers come
from a counter, SHA-256 is injective (a digest is represented by its preimage), a foreign key or unique
constraint that fails is an `IntegrityError` outcome.

Where a promise does not hold of the code as it stands, the model keeps the code and proves when it does:

- A proposal is checked against the active context and stored in two transactions. A step of any call loses
  isolation if and only if it stores a proposal whose connection is no longer the active context
  (`Proposing.StepIsolatesIff`), which takes a switch or a revoke in between (`Proposing.StepDeactivatesIff`);
  `Proposing.RevokeBetweenCheckAndInsert` and `Isolation.SwitchBetweenCheckAndInsert` are runs that do it.
- A submission checks its portfolio against the rows last written to its connection, by whichever call
  (`Portfolio.PreflightPassesIff`), not against the positions it fetched: `Portfolio.OvertakenPreflight` is a
  run in which a poll is written between its write and its check, and the check passes although the fetched
  positions differ. Undisturbed, they decide (`Portfolio.UndisturbedPreflight`).
- An order row can leave a terminal state. A step takes it out if and only if it records an answer that is
  not a refusal, writes a snapshot that is not final, or begins an accepted cancel (`Reopening.ReopensIff`);
  `Reopening.LateAcknowledgementReopens` is a run in which a filled row goes back to acknowledged. What always
  holds is that a terminal row agrees with the broker (`BrokerTruth.TerminalMeansFinal`).
- A revoked connection can become healthy and active again: some continuation makes it so if and only if a
  sync that has read its credential is in flight when it is revoked (`Reviving.RevivesIff`), and a
  continuation does so if and only if that sync saves in it (`Reviving.HealthyIffSaved`).
  `Reviving.LateSaveRevives` is such a run. Its status also gives way to `verifying` whenever the owner
  verifies it again, with no race (`Reviving.VerifyForgetsRevoke`, `Reviving.LeavesRevokedIff`). It never gets
  another order (`Revocation.NoOrdersAfterRevoke`).
- `replace_open_positions` and `save_executions` raise when one batch lists an unknown key twice
  (`Positions.TwiceListedRaises`, `Fills.TwiceListedRaises`); they succeed if and only if it does not
  (`Positions.ReplaceOkIff`, `Fills.SaveOkIff`).
- A fill that is unknown once something newer than it by more than a minute is stored is lost for good
  (`Fills.MissedForever`): `Fills.LateFillLost` is such a fill, and `Fills.LateFillShown` a run of cycles that
  loses it. A fill is stored if and only if some cycle fetches when it is shown and reaches back to it
  (`Fills.StoredIff`); whether the first cycle that could see it does is decided by its window alone
  (`Fills.FirstCycleStoresIff`).
- A short trade closed at its target may have lost money before costs (`TradeOutcomes.ShortTargetMayLose`): its
  exposure is brought back to the same share at every close. A bar gains if and only if its own move exceeds its
  costs (`ReplayReturns.BarGainsIff`), and a long trade closed above its fill always gains before them
  (`TradeOutcomes.LongTradePays`).
- The ranking depends on the order of the tickers when two of them tie (`Ranking.TiesShowOrder`), and does not
  when none do (`Ranking.InputOrderFree`).
- Signal evaluation raises if and only if a momentum strategy sees enough candles and one is foreign or open,
  or a buy stop would not be positive (`Signals.RaisesIff`); `Signals.WildCandlesRaise` are candles on which
  it does. A replay raises if and only if that buy comes up after one of its bars
  (`ReplaySafety.ReplayRaisesIff`), as it does on `ReplaySafety.WildBarsRaise`.

## Model

| member | source | states |
|---|---|---|
| `Ledger.AlwaysSound` | backend/src/signalos_backend/execution/store.py:58-213 | After any sequence of transactions: row columns repeat their payload, orders, proposals and reviews match one to one, keys are unique, actions match their targets and reviews, position keys are unique. |
| `Ledger.TxnKeepsSound` | backend/src/signalos_backend/execution/store.py:229-851 | Every transaction, with any arguments, keeps those constraints. |
| `Ledger.ProposalLedgerAgrees` | backend/src/signalos_backend/proposals/store.py:120-141 | In every reachable state the status column equals the payload's, and an order exists for a proposal if and only if it is submitted or archived. |
| `Ledger.KeepBegin` | backend/src/signalos_backend/execution/store.py:466-587 | A submission keeps the database sound and its two inserts never break a unique constraint. |
| `Ledger.KeepAct` | backend/src/signalos_backend/execution/store.py:318-422 | Starting an action keeps the database sound and never breaks a unique constraint. |
| `Ledger.KeepReplace` | backend/src/signalos_backend/execution/store.py:760-851 | Replacing positions keeps the database sound, whatever the snapshots. |
| `History.TxnGrows` | backend/src/signalos_backend/execution/store.py:1125-1167 | No transaction loses or rebinds a row, and proposals move only from available to submitted, rejected or invalidated, and from submitted to archived. |
| `History.KeyBoundForever` | backend/src/signalos_backend/execution/store.py:473-492 | An idempotency key bound to an order is bound to that order, of that proposal, after any later transactions. |
| `History.OrdersInsertedActively` | backend/src/signalos_backend/execution/store.py:527-587 | An order appears only in a transaction where its connection is healthy, is its owner's active context and holds a key, its unexpired proposal moves from available to submitted, and one unused, unexpired review of its owner is consumed. |
| `Entries.InsertsOrderIff` | backend/src/signalos_backend/execution/store.py:466-587 | A transaction inserts an order if and only if it is a submission under a key its user has not used, whose confirmed review is that user's, of that proposal, unused, unexpired and of the confirmed hash, of an unexpired available proposal of theirs on their healthy active account with a key; the order then asks for exactly what the proposal fixes, that review is consumed, and nothing else changes. |
| `Entries.StepEntersIff` | backend/src/signalos_backend/execution/store.py:466-587 | In every run, a step of any call inserts an order if and only if it is the begin step of a submission that meets that condition. |
| `Entries.InsertsActionIff` | backend/src/signalos_backend/execution/store.py:318-422 | A transaction inserts an action if and only if it starts one under an unused key, on a target of the user with no action of theirs still waiting for the broker, confirmed by an unused, unexpired review of theirs with the same type, target and hash; only a close gets a link of its own, a cancel marks its order, nothing else changes. |
| `ProposalMoves.ProposalMovesIff` | backend/src/signalos_backend/execution/store.py:648-688 | The status of any proposal after any transaction: available becomes submitted exactly with its order, rejected exactly by its owner, invalidated exactly when its owner switches to another healthy synced account or revokes its own; submitted becomes archived exactly when its order is marked rejected, is reconciled as cancelled or rejected with nothing executed, or an open position of its account and symbol vanishes; nothing else moves. |
| `Isolation.ProposeIsolatesIff` | backend/src/signalos_backend/proposals/service.py:54-101 | Storing a proposal keeps context isolation if and only if its connection is its owner's active context at that moment. |
| `Isolation.CheckedCreateIsolates` | backend/src/signalos_backend/proposals/service.py:60-101 | With the check and the insert taken as one step, creating a proposal always keeps context isolation. |
| `Isolation.TxnIsolates` | backend/src/signalos_backend/brokers/context.py:38-143 | Switch, revoke, first sync, reject, submit and all others keep: each available proposal is on its owner's active context. |
| `Isolation.AlwaysIsolated` | backend/src/signalos_backend/brokers/context.py:38-143 | The same over whole runs in which each proposal was stored on the context that was active at that moment; a user without a context has no available proposal. |
| `Isolation.SwitchBetweenCheckAndInsert` | backend/src/signalos_backend/proposals/service.py:66-101 | A concrete run: a context switch between the check and the insert leaves an available proposal off its owner's active context. |
| `Proposing.StepIsolatesIff` | backend/src/signalos_backend/proposals/service.py:60-101 | At every step of every call, isolation is lost if and only if the step stores a checked proposal whose connection is no longer its owner's active context. |
| `Proposing.IsolatedUnlessOvertaken` | backend/src/signalos_backend/proposals/service.py:60-101 | Every run without such a step keeps each available proposal on its owner's active context. |
| `Proposing.StepDeactivatesIff` | backend/src/signalos_backend/brokers/context.py:38-118 | An active context ends by the revoke of its connection or by a valid switch of its owner to another one, and by no other step. |
| `AccountRules.ProposeOpensIff` | backend/src/signalos_backend/proposals/service.py:60-101 | A proposal goes on to be stored if and only if its connection is the user's healthy active account; it then carries that account's environment, as available. |
| `AccountRules.InsertsProposalIff` | backend/src/signalos_backend/proposals/store.py:56-60 | A transaction inserts a proposal if and only if it proposes one on an account that exists under a hash no other has; it is available and its columns are those of its payload. |
| `AccountRules.ReviewsInsert` | backend/src/signalos_backend/execution/store.py:233-295 | A new review is unused and has the user, target, hash and expiry it was asked for; one of an order needs its proposal. |
| `Proposing.RevokeBetweenCheckAndInsert` | backend/src/signalos_backend/proposals/service.py:60-101 | A concrete run from the empty system: a revoke between the checks and the insert leaves an available proposal on a revoked connection. |
| `Revocation.NoOrdersAfterRevoke` | backend/src/signalos_backend/brokers/context.py:86-118 | In every run, after the owner revoked a connection nothing that follows inserts an order on it, and `place_order` is only ever called for orders that were there before. |
| `Reviving.RevivesIff` | backend/src/signalos_backend/brokers/service.py:100-118 | For every run: once the owner revokes a connection, some continuation makes it healthy again if and only if a sync that has read its credential is in flight at that moment, and the same condition decides whether some continuation makes it active again. |
| `Reviving.HealthyIffSaved` | backend/src/signalos_backend/execution/reconciliation.py:156-188 | For every run and every continuation: the revoked connection is healthy at some point if and only if a sync saves its snapshot in it, and whoever saves one had read the credential before the revoke. |
| `Reviving.DownUntilSaved` | backend/src/signalos_backend/brokers/store.py:251-297 | Until such a save the revoked connection is neither healthy nor active in any continuation. |
| `Reviving.StepHealsIff` | backend/src/signalos_backend/brokers/store.py:251-297 | At every step, a connection becomes healthy if and only if a sync of its owner saves its snapshot. |
| `Reviving.StepActivatesIff` | backend/src/signalos_backend/brokers/store.py:280-291 | At every step, a connection becomes its owner's active context if and only if such a save finds no context, or the owner switches to it while it is healthy, synced and in that environment. |
| `Reviving.TxnActivatesIff` | backend/src/signalos_backend/brokers/context.py:38-84 | The same of one transaction with any arguments. |
| `Reviving.TxnStatus` | backend/src/signalos_backend/brokers/store.py:451-468 | The status of every connection after any transaction. |
| `AccountRules.SyncOpensIff` | backend/src/signalos_backend/brokers/service.py:100-118 | A sync opens if and only if the account is the user's and syncing, healthy or degraded; the worker's if and only if it is healthy and the active context. |
| `AccountRules.VerificationMarks` | backend/src/signalos_backend/brokers/service.py:68-98 | A verification ends with the account syncing when the broker accepts its key, and failed otherwise. |
| `Reviving.LeavesRevokedIff` | backend/src/signalos_backend/brokers/service.py:68-118 | At every step, a revoked status is overwritten if and only if a sync saves, a verification that had read the credential ends, or the owner starts a new verification. |
| `Reviving.VerifyForgetsRevoke` | backend/src/signalos_backend/brokers/service.py:68-75 | A verification started after the revoke leaves the connection verifying, and then raises for want of a credential. |
| `Reviving.LateSaveRevives` | backend/src/signalos_backend/execution/reconciliation.py:156-188 | A concrete run from the empty system: the worker reads the credential, the user revokes, the worker saves; the connection is healthy and active, proposals can be stored on it, and it cannot trade. |
| `Submissions.PlacedAtMostOnce` | backend/src/signalos_backend/execution/service.py:147-224 | In every interleaving of submissions, retries, crashes and lost answers, two `place_order` calls are for different orders and different proposals. |
| `Submissions.PlacedForSubmitted` | backend/src/signalos_backend/execution/service.py:147-224 | Every `place_order` call is for an order that exists, of a proposal that was submitted or since archived. |
| `Submissions.AlwaysPlacing` | backend/src/signalos_backend/execution/service.py:147-224 | The inductive invariant behind it: an order is placed by at most one call, and not yet sent while that call has not sent it. |
| `Submissions.RunsGrow` | backend/src/signalos_backend/execution/service.py:147-224 | However a run goes on, keys keep their orders and rows keep their bindings. |
| `Submissions.OneReviewEach` | backend/src/signalos_backend/execution/store.py:493-522 | Each order's proposal has exactly one consumed review. |
| `BrokerTruth.AlwaysTruthful` | backend/src/signalos_backend/execution/store.py:648-688 | In every run a terminal row repeats the broker's final record, final snapshots in flight are still the record, and refused orders are unknown to the broker. |
| `BrokerTruth.TerminalMeansFinal` | backend/src/signalos_backend/execution/store.py:625-688 | In every run an order row that says filled, cancelled or rejected agrees with the broker's final record, or was definitely refused; every other row is still polled. |
| `OrderStatuses.StatesSay` | backend/src/signalos_backend/execution/reconciliation.py:100-119 | In every run, in the broker's status strings: a filled row repeats a record that is Filled, a cancelled one Cancelled, PartiallyFilledCanceled or Deactivated, a rejected one Rejected unless the broker refused the order; a partially filled row was last told PartiallyFilled, and one awaiting reconciliation an unlisted status. |
| `OrderStatuses.StepOnOrder` | backend/src/signalos_backend/execution/store.py:648-688 | What any step does to the row of any order: it records an answer column by column, writes a snapshot in the state its status says, begins an accepted cancel, or leaves the row as it is. |
| `OrderStatuses.RecordStaysIff` | backend/src/signalos_backend/execution/reconciliation.py:100-119 | In every run, the broker's record of an order is the same in all continuations if and only if its status is Filled, Cancelled, PartiallyFilledCanceled, Deactivated or Rejected. |
| `Settling.StepQuiet` | backend/src/signalos_backend/execution/reconciliation.py:189-210 | Once the broker is done with an order and the calls that could write anything but its record have drained, every step of any call keeps it so, and keeps a settled row settled. |
| `Settling.PollSettles` | backend/src/signalos_backend/execution/reconciliation.py:189-210 | From there the row is settled or still polled, and one poll settles it whatever runs between its fetch and its write, unless the poll itself is abandoned. |
| `Settling.SettledForever` | backend/src/signalos_backend/execution/store.py:648-688 | A settled row stays settled under any further steps. |
| `Settling.EveryOrderConverges` | backend/src/signalos_backend/execution/reconciliation.py:189-210 | Both together: from every reachable system, for every interleaving inside the poll and every continuation after it. |
| `OrderStatuses.FinalSettles` | backend/src/signalos_backend/execution/reconciliation.py:189-210 | From every reachable system with such a final record and drained calls, one poll in any interleaving leaves the row filled, cancelled or rejected exactly as the status says, with the broker's quantities, in every continuation. |
| `Reopening.ReopensIff` | backend/src/signalos_backend/execution/store.py:648-954 | At every step of every sound system, an order row leaves its terminal state if and only if the step records an answer other than a refusal, writes a snapshot that is not final, or begins an accepted cancel of the order. |
| `Reopening.LateAcknowledgementReopens` | backend/src/signalos_backend/execution/store.py:910-954 | A concrete run from the empty system: the fill is polled first, and recording the acknowledgement moves the filled row back to acknowledged. |
| `PendingActions.OnePendingPerTarget` | backend/src/signalos_backend/execution/store.py:358-371 | In every interleaving at most one action per target is submitting, acknowledged or awaiting reconciliation. |
| `PendingActions.AlwaysActing` | backend/src/signalos_backend/execution/store.py:318-442 | The invariant behind it: each started action has one call to mark it, and that call finds it submitting. |
| `ActionCalls.MadeAtMostOnce` | backend/src/signalos_backend/execution/service.py:405-607 | In every run the broker call of a cancel, close or protection action is made at most once, whether or not it comes back. |
| `ActionCalls.CalledAtMostOnce` | backend/src/signalos_backend/execution/service.py:405-607 | The same of the answers: no action's broker call comes back twice. |
| `ActionCalls.NeverCalledAgain` | backend/src/signalos_backend/execution/service.py:627-642 | Once no call is making it, no continuation makes the broker call of an action again, retries of its key included. |
| `CallChecks.ConfirmOpensIff` | backend/src/signalos_backend/execution/service.py:627-664 | A confirmed request opens if and only if its key is unused, it confirms an unexpired review of the user for that kind, target and hash, and a cancelled order is theirs. |
| `CallChecks.AlwaysBacked` | backend/src/signalos_backend/execution/service.py:405-607 | In every run, the review and the proposal a call goes by are those of the database, of its user, kind and target. |
| `CallChecks.SubmitOpensIff` | backend/src/signalos_backend/execution/service.py:147-161 | A submission opens if and only if its user has no order under its key. |
| `CallChecks.LoadGoesOnIff` | backend/src/signalos_backend/execution/service.py:609-613 | It goes on with the proposal of its row if and only if that is the user's. |
| `CallChecks.PortfolioGoesOnIff` | backend/src/signalos_backend/execution/service.py:289-344 | It comes to begin its order if and only if positions were written, the portfolio read has the proposal's fingerprint, and the remaining checks permit it. |
| `CallChecks.LeverageFailsIff` | backend/src/signalos_backend/execution/service.py:177-209 | Only a linear order can fail at setting its leverage; a refusal there counts as refused, a lost call does not. |
| `CallChecks.FetchesGoOnIff` | backend/src/signalos_backend/execution/service.py:666-716 | A cancel goes on with the broker's record of its order, a change of a position with a row of its user only. |
| `CallChecks.CancelGoesOnIff` | backend/src/signalos_backend/execution/service.py:426-434 | In every run, a cancel goes on to its action if and only if the row it refreshed is the user's, acknowledged or partially filled, with exactly the broker status and remaining quantity of the confirmed review. |
| `CallChecks.ManageGoesOnIff` | backend/src/signalos_backend/execution/service.py:779-808 | In every run, a close or protection change goes on if and only if the refreshed row is the user's open position with the sequence, size and side of the confirmed review, and new boundaries stand on the protective sides of the mark price. |
| `CallChecks.PreflightGoesOnIff` | backend/src/signalos_backend/execution/service.py:226-270 | In every run, a submission comes to fetch its account if and only if its proposal was available when loaded, is unexpired, was sized against a portfolio, and is for the user's healthy active account with a key, in its environment. |
| `CallChecks.MarksVerdict` | backend/src/signalos_backend/execution/store.py:424-442 | Marking an action writes the verdict and error of its broker call, keeps a broker id it was not told again, and changes no other action. |
| `Evidence.FinishedForever` | backend/src/signalos_backend/execution/store.py:424-442 | At every step of every run: completed and rejected actions never change, a call marks its action only from submitting, and an action becomes completed only by a write of matching broker evidence. |
| `Evidence.TxnProves` | backend/src/signalos_backend/execution/store.py:1040-1105 | Outside starting and marking, an action changes only when a cancelled order, a vanished position or exactly the reviewed stop and target was written. |
| `Completions.CompletesIff` | backend/src/signalos_backend/execution/store.py:1040-1105 | Outside starting and marking, a transaction completes an action if and only if the action waits for the broker and the transaction carries its evidence: its order written as cancelled, its open position no longer listed, or its position listed with exactly the reviewed stop and target. |
| `Evidence.StepOnAction` | backend/src/signalos_backend/execution/store.py:1040-1105 | What one step of any call can do to one action. |
| `Evidence.ConsumedIffOneAction` | backend/src/signalos_backend/execution/store.py:372-422 | An action review is consumed if and only if exactly one action refers to it. |
| `Positions.ReplacementExact` | backend/src/signalos_backend/execution/store.py:760-851 | Whenever it does not raise: afterwards the open rows of the connection show, key by key, the last snapshot listed under each, vanished rows are closed with size 0, others are untouched, and no row is lost or re-identified. |
| `Positions.InsertedFresh` | backend/src/signalos_backend/execution/store.py:769-812 | Every row a replacement inserts is opened at the broker's time, in the environment of the account. |
| `Positions.ReplaceOkIff` | backend/src/signalos_backend/execution/store.py:760-851 | The replacement succeeds if and only if no key without a row is listed twice. |
| `Positions.TwiceListedRaises` | backend/src/signalos_backend/execution/store.py:769-812 | On every account, a list that shows one new position twice raises. |
| `Positions.UpsertsOkIff` | backend/src/signalos_backend/execution/store.py:769-812 | The same for the upsert loop alone. |
| `Repeating.ReplacingTwice` | backend/src/signalos_backend/execution/store.py:760-851 | After a replacement that did not raise, replacing again with the same snapshots does not raise and changes nothing in the whole database but reconciliation times and the checkpoint: no row is inserted or closed, no action completed, no proposal archived, no id drawn. |
| `Positions.RowsTwice` | backend/src/signalos_backend/execution/store.py:769-834 | The same of the position rows alone. |
| `Fingerprints.SameFingerprintIff` | backend/src/signalos_backend/execution/portfolio.py:9-32 | Two portfolios with distinct keys have the same fingerprint if and only if they hold the same risk terms. |
| `Fingerprints.FingerprintOrderFree` | backend/src/signalos_backend/execution/portfolio.py:26-30 | The order in which rows are read does not change the fingerprint. |
| `Fingerprints.ChangedTermsShow` | backend/src/signalos_backend/execution/portfolio.py:12-25 | A change of the risk terms filed under one key changes the fingerprint. |
| `Fingerprints.SameFieldsIff` | backend/src/signalos_backend/execution/portfolio.py:9-32 | Two portfolios have the same fingerprint if and only if their rows match one to one in key, side, size, average price, leverage, stop and target, whatever their marks, values, profits, times and owners. |
| `Portfolio.PreflightPassesIff` | backend/src/signalos_backend/execution/service.py:289-310 | In every run and interleaving, a submission that comes to its portfolio check passes if and only if the positions last written to its connection, by whichever call, have the risk terms its proposal was sized against. |
| `Portfolio.AlwaysDisplayed` | backend/src/signalos_backend/execution/store.py:760-851 | In every run a connection has a checkpoint if and only if its positions were written, and its open rows then show exactly the list written last. |
| `Portfolio.UndisturbedPreflight` | backend/src/signalos_backend/execution/service.py:289-310 | With no step between its write, when that does not raise, and its check, a submission passes if and only if the positions it fetched have those terms. |
| `Portfolio.OvertakenPreflight` | backend/src/signalos_backend/execution/service.py:289-310 | A concrete run: a poll written in between makes the check pass although the fetched positions differ. |
| `Portfolio.AlwaysOwning` | backend/src/signalos_backend/execution/service.py:692-716 | In every run position rows belong to the owner of their connection, in its environment, and so do the replacements in flight. |
| `Portfolio.PortfolioIsLive` | backend/src/signalos_backend/execution/store.py:888-908 | After a replacement the portfolio read holds exactly the terms listed, each key once. |
| `Stores.ExecutionStore.BeginSubmission` | backend/src/signalos_backend/execution/store.py:466-587 | The method leaves the database and returns the result of the transaction function, on new, repeated and refused submissions. |
| `Stores.ExecutionStore.BeginAction` | backend/src/signalos_backend/execution/store.py:318-422 | The same for starting an action. |
| `Stores.ExecutionStore.MarkAction` | backend/src/signalos_backend/execution/store.py:424-442 | The same for marking an action. |
| `Stores.ExecutionStore.SetState` | backend/src/signalos_backend/execution/store.py:910-954 | The same for marking an order; a rejection archives its proposal. |
| `Stores.ExecutionStore.ReconcileOrder` | backend/src/signalos_backend/execution/store.py:648-688 | The same for writing an order snapshot. |
| `Stores.ExecutionStore.ReplaceOpenPositions` | backend/src/signalos_backend/execution/store.py:760-851 | The two loops leave the database of the transaction function, or nothing changed when a key collides. |
| `Stores.ExecutionStore.ListReconcilableOrders` | backend/src/signalos_backend/execution/store.py:625-646 | Polling selects exactly the orders of the connection that are not filled, cancelled or rejected. |
| `Stores.CompleteEach` | backend/src/signalos_backend/execution/store.py:1040-1064 | The loop completes exactly the actions of the type on the targets that await evidence. |
| `Stores.CompleteProtected` | backend/src/signalos_backend/execution/store.py:1066-1105 | The loop completes exactly the protection actions whose reviewed boundaries the snapshot shows. |
| `Stores.InvalidateEach` | backend/src/signalos_backend/brokers/context.py:120-143 | The loop invalidates exactly the available proposals of the user, on one connection if given. |
| `Stores.ProposalStore.Create` | backend/src/signalos_backend/proposals/store.py:56-60 | Inserting a proposal, in whatever status, equals its transaction function, and keeps the database sound unless it claims to be submitted, archived or expired. |
| `Stores.ProposalStore.Reject` | backend/src/signalos_backend/proposals/store.py:120-141 | Rejecting a proposal equals its transaction function. |
| `Stores.BrokerContextService.Switch` | backend/src/signalos_backend/brokers/context.py:38-84 | Switching the context equals its transaction function. |
| `Stores.BrokerContextService.Revoke` | backend/src/signalos_backend/brokers/context.py:86-118 | Revoking a connection equals its transaction function. |
| `Stores.BrokerStore.SaveSnapshot` | backend/src/signalos_backend/brokers/store.py:251-297 | Saving an account snapshot equals its transaction function; it is the first context of a user without one. |
| `Fills.EveryFillStoredOnce` | backend/src/signalos_backend/execution/reconciliation.py:212-239 | If fills are visible within a minute less the skew of the two fetches, and cycles are at most a day (a week, once something is stored) less a minute apart, every fill executed no earlier than a day before the first cycle is stored by the first cycle that could see it, not before, and exactly once ever after. |
| `Fills.StoredIff` | backend/src/signalos_backend/execution/reconciliation.py:212-239 | With no assumption on the broker or the cycles: a fill is stored within m cycles if and only if one of them fetches when it is shown, with a window that reaches back to it. |
| `Fills.FirstCycleStoresIff` | backend/src/signalos_backend/execution/reconciliation.py:212-239 | The first cycle that could see the fill stores it if and only if its window reaches back to it. |
| `Fills.MissedForever` | backend/src/signalos_backend/execution/reconciliation.py:215-224 | A fill unknown when something more than a minute newer is stored is never stored. |
| `Fills.LateFillLost` | backend/src/signalos_backend/execution/reconciliation.py:212-239 | A concrete fill, shown three minutes late behind a prompt one: however polling goes on after the first cycle, it is never stored. |
| `Fills.LateFillShown` | backend/src/signalos_backend/execution/reconciliation.py:212-239 | Such a run of cycles exists, frequent and in order, and its second cycle is the first that could see the late fill. |
| `Fills.SaveOkIff` | backend/src/signalos_backend/execution/store.py:700-758 | A batch is stored if and only if no unknown execution id is listed twice. |
| `Fills.TwiceListedRaises` | backend/src/signalos_backend/execution/store.py:700-758 | A batch that lists one new execution twice raises. |
| `Fills.InsertSaves` | backend/src/signalos_backend/execution/store.py:731-758 | Saving appends rows: the ids known afterwards are exactly the old and the listed ones, each once, and each new row is linked to the order of its link id, if there is one. |
| `Fills.CycleStores` | backend/src/signalos_backend/execution/reconciliation.py:225-239 | One cycle keeps every row and stores exactly the fills shown in its two windows. |
| `Fills.LatestIsMaximum` | backend/src/signalos_backend/execution/store.py:690-698 | The latest execution time is attained and is the maximum. |
| `Fills.WindowInFields` | backend/src/signalos_backend/execution/reconciliation.py:212-224 | The window starts a day back when nothing is stored, else a minute before the newest stored fill and at most a week back, in whole milliseconds. |
| `Fills.ExecutionTable.SaveExecutions` | backend/src/signalos_backend/execution/store.py:700-758 | The loop stores the whole batch or, on a duplicate, nothing. |
| `Fills.ExecutionTable.LatestExecutionAt` | backend/src/signalos_backend/execution/store.py:690-698 | Returns the newest stored execution time. |
| `Fills.ExecutionTable.NextWindow` | backend/src/signalos_backend/execution/reconciliation.py:212-233 | Returns the window start in milliseconds. |
| `Sizing.SizeExact` | backend/src/signalos_backend/investment/sizing.py:77-164 | An accepted quantity is an orderable number of steps, and no larger number of steps fits the risk, margin, strategy and reserve budgets. |
| `Sizing.AcceptedIff` | backend/src/signalos_backend/investment/sizing.py:77-164 | An opportunity is accepted if and only if its input is valid, its reward pays for its risk, and some number of steps fits the budgets and the exchange minimums. |
| `SizingBudgets.AcceptedInFieldsIff` | backend/src/signalos_backend/investment/sizing.py:13-164 | In input fields only: an opportunity is accepted if and only if every field is in its range, the target gains after costs the required multiple of what the stop loses with costs, and some number of steps fits the risk, margin, strategy and reserve budgets and the exchange minimums. |
| `SizingBudgets.AcceptedInFields` | backend/src/signalos_backend/investment/sizing.py:77-164 | In input fields only: an accepted quantity is a number of steps; its reported loss is quantity times stop distance plus cost, within equity times loss limit times the confidence and correlation factors; its margin times its leverage is its notional, within the margin budget; its reward is as reported; and any larger number of steps breaks one of the four budgets. |
| `Sizing.NeverOverBudget` | backend/src/signalos_backend/investment/sizing.py:148-152 | The final budget check never fires. |
| `Sizing.AcceptedWithinPolicy` | backend/src/signalos_backend/investment/sizing.py:77-164 | Loss is within the risk budget and the mandate, margin within the margin cap, notional within the strategy cap, and gross exposure with the new order within the reserve floor. |
| `Sizing.AcceptedPassesLater` | backend/src/signalos_backend/proposals/service.py:71-79 | On the same equity the later leverage, loss and margin checks of the proposal and its submission cannot fire. |
| `Sizing.CapsNamed` | backend/src/signalos_backend/investment/sizing.py:81-140 | The reserve label stands if and only if the reserve is the smallest cap, without cap labels risk or margin binds, and no label is repeated. |
| `SizingBudgets.LabelsInFields` | backend/src/signalos_backend/investment/sizing.py:81-140 | Every other label stands if and only if the input has what it names: the leverage limit that held, correlation, exposure. |
| `Sizing.AdviceOnlyReduces` | backend/src/signalos_backend/investment/pipeline.py:627-656 | Whatever is accepted with portfolio advice is accepted with neutral advice, with no smaller quantity, notional, leverage or maximum loss. |
| `SizingBudgets.AdvisedInFields` | backend/src/signalos_backend/investment/pipeline.py:627-656 | Whatever is accepted with advice has no more leverage than asked for, suggested or allowed, and risks the budget of the confidence times the advice's multiplier. |
| `Sizing.CautionReduces` | backend/src/signalos_backend/investment/sizing.py:77-188 | The same for any lower confidence and requested leverage. |
| `Sizing.FloorIsLargest` | backend/src/signalos_backend/investment/sizing.py:186-188 | The floored value is the largest multiple of the step not above the value. |
| `SizingPolicy.SizeOpportunity` | backend/src/signalos_backend/investment/sizing.py:77-164 | The statements of the policy object compute the sizing function, labels included. |
| `SizingPolicy.LeverageOf` | backend/src/signalos_backend/investment/sizing.py:167-184 | The leverage and the labels appended for it. |
| `Signals.OnlyNewestMatter` | backend/src/signalos_backend/market/signals.py:35-108 | A signal depends only on the last max(slow window, 20) candles. |
| `SignalRules.BuysIff` | backend/src/signalos_backend/market/signals.py:35-108 | In candle and strategy fields: a buy if and only if a momentum strategy sees enough closed candles of its ticker, the price is above the fast mean and that above the slow one by at least 0.002 of the price, and the price exceeds the stop distance. |
| `SignalRules.SellsIff` | backend/src/signalos_backend/market/signals.py:35-108 | A sell if and only if the mirrored averages hold, the strategy is not long-only, and the price exceeds the target distance. |
| `SignalRules.SignalInFields` | backend/src/signalos_backend/market/signals.py:68-121 | Every number of a signal in those fields: levels at the larger of 1.5 mean spans and 0.005 of the price, reward 1.5 plus 50 times the strength up to 3, leverage, volatility and volume ratio. |
| `SignalRules.SumJoins` | backend/src/signalos_backend/market/signals.py:50-54 | What the means add up: one value is itself and two stretches add. |
| `Signals.SignalsAreSane` | backend/src/signalos_backend/market/signals.py:68-108 | Every signal has positive levels on their sides, a reward to risk in [1.5, 3], and leverage times stop fraction at most max(0.10, stop fraction). |
| `Signals.RaisesIff` | backend/src/signalos_backend/market/signals.py:35-108 | Evaluation raises if and only if a momentum strategy sees enough candles and one is foreign or open, or the averages call for a buy whose stop distance reaches the price. |
| `Signals.WildCandlesRaise` | backend/src/signalos_backend/market/signals.py:68-96 | Three closed candles of the ticker itself on which it raises. |
| `Signals.AverageTrueRange` | backend/src/signalos_backend/market/signals.py:110-121 | The loop computes the average of the true ranges. |
| `Signals.RoundedValidIff` | backend/src/signalos_backend/intelligence/laboratory.py:175-187 | On a wide enough signal rounding keeps the strict order, and the levels are valid if and only if a buy stop is at least one tick. |
| `Signals.TwoTicksSuffice` | backend/src/signalos_backend/investment/pipeline.py:771-785 | A stop distance of two ticks is wide enough on either side. |
| `Signals.RoundDownNear` | backend/src/signalos_backend/intelligence/laboratory.py:178-180 | Rounding down loses less than a tick, and is positive if and only if the price is at least a tick. |
| `SignalRules.LevelsOnTicks` | backend/src/signalos_backend/intelligence/laboratory.py:175-187 | Every rounded level is the tick just below it, the stop and target of a sell the tick just above. |
| `Replay.Run` | backend/src/signalos_backend/intelligence/laboratory.py:190-342 | The loop over local variables computes the fold of one step over the bars, or raises where it does. |
| `Replay.TradeBar` | backend/src/signalos_backend/intelligence/laboratory.py:215-300 | Entry, exit and costs of one bar, as the step says. |
| `ReplayReturns.TradeReturn` | backend/src/signalos_backend/intelligence/laboratory.py:215-307 | For every trade of every replay and each bar at which it is open: the return is its side's gain from the fill, or the last close, to the stop, target or close, times exposure, less funding on linear, less fee, spread and slippage on what is traded, no less than -0.999999; equity compounds it; and the trade closes exactly when stop or target is touched or at the last bar. |
| `ReplayReturns.IdleReturn` | backend/src/signalos_backend/intelligence/laboratory.py:257-307 | A bar at which no trade is open returns zero and leaves equity as it is. |
| `ReplayReturns.TradedInFields` | backend/src/signalos_backend/intelligence/laboratory.py:257-307 | The same of one bar from any state, with the gross equity. |
| `ReplayReturns.BarGainsIff` | backend/src/signalos_backend/intelligence/laboratory.py:257-307 | Equity rises over a bar of a trade if and only if the price's gain exceeds funding and fees. |
| `ReplayReturns.EntersIff` | backend/src/signalos_backend/intelligence/laboratory.py:217-262 | A pending signal opens a position if and only if nothing is held, the bar reaches its rounded entry and sizing accepts the order of these fields; it fills at the better of entry and open, and exposes the accepted notional. |
| `TradeOutcomes.LongTradePays` | backend/src/signalos_backend/intelligence/laboratory.py:257-307 | Before costs, every long trade that closes above its fill has made gross equity grow, and one that closes at it has not made it fall, whatever the price did in between. |
| `TradeOutcomes.LongTargetPays` | backend/src/signalos_backend/intelligence/laboratory.py:257-307 | So every long trade closed at its target pays before costs. |
| `TradeOutcomes.ShortTargetMayLose` | backend/src/signalos_backend/intelligence/laboratory.py:276-307 | A short filled at 100 and closed at its target of 99 loses when one bar between them closes at 180. |
| `PricePaths.PathPays` | backend/src/signalos_backend/intelligence/laboratory.py:281-307 | A fixed share brought back at every price of a path makes something of it whenever the path ends above its start. |
| `TradeOutcomes.SoughtIff` | backend/src/signalos_backend/intelligence/laboratory.py:309-342 | After any bar of any replay the engine is asked if and only if nothing is open, fifty bars are complete and every exit is at least cooldown plus one bars ago; it sees all bars so far, and its answer is the pending signal. |
| `ReplaySafety.NoLookAhead` | backend/src/signalos_backend/intelligence/laboratory.py:190-342 | Series that share their first k bars and go on have identical states, equity, returns and decisions after k bars. |
| `ReplaySafety.SharedBarsSharedResults` | backend/src/signalos_backend/intelligence/laboratory.py:302-342 | Whole replays of two series that share k bars list the same equity and returns for those bars. |
| `ReplaySafety.CutReplaysSame` | backend/src/signalos_backend/intelligence/laboratory.py:294-300 | A series cut after k bars replays them as the whole one does unless a position was open there. |
| `ReplaySafety.AlwaysBalanced` | backend/src/signalos_backend/intelligence/laboratory.py:209-307 | After every bar turnover is twice the closed exposure plus the open one, and costs are the cost rate on turnover plus funding. |
| `ReplaySafety.EndsFlat` | backend/src/signalos_backend/intelligence/laboratory.py:294-307 | At the end no position is open and turnover is exactly twice the opened exposure. |
| `ReplaySafety.AlwaysSolvent` | backend/src/signalos_backend/intelligence/laboratory.py:302-307 | Equity stays positive, and net equity never exceeds gross equity. |
| `ReplaySafety.TradesAreSpaced` | backend/src/signalos_backend/intelligence/laboratory.py:215-342 | Positions never overlap, an exit at bar i is followed by no entry before i + cooldown + 2, every entry at bar j comes from the signal on bars 0 to j - 1 and fills inside bar j within the exposure cap, and stops fill inside their bar. |
| `ReplaySafety.AlwaysHistory` | backend/src/signalos_backend/intelligence/laboratory.py:215-342 | The invariant behind it. |
| `ReplaySafety.EntrySound` | backend/src/signalos_backend/intelligence/laboratory.py:217-268 | An entry is priced inside its bar, at the rounded levels of its signal in strict order, and exposes at most min(maximum position, 1 - reserve floor) of equity. |
| `ReplaySafety.SignalsPassValidationIff` | backend/src/signalos_backend/investment/sizing.py:43-53 | Sizing accepts the input built from a wide enough signal if and only if costs with funding are at most 1000 basis points and a buy stop is at least one tick. |
| `ReplaySafety.ReplayRaisesIff` | backend/src/signalos_backend/intelligence/laboratory.py:309-342 | A replay of any number of bars raises if and only if after one of them the engine is asked and a buy stop would not be positive; its candles are never foreign. |
| `ReplaySafety.WildBarsRaise` | backend/src/signalos_backend/intelligence/laboratory.py:309-342 | Fifty valid bars on which it raises. |
| `ReplaySafety.Measure` | backend/src/signalos_backend/intelligence/laboratory.py:371-410 | The drawdown of a replay is the largest fall of its equity, in [0, 1). |
| `Drawdown.MaxDrawdown` | backend/src/signalos_backend/intelligence/laboratory.py:104-110 | One pass computes the maximum of 1 - equity[j] / equity[i] over all i <= j. |
| `AnalysisQueue.RequestStore.Claim` | backend/src/signalos_backend/market/store.py:568-604 | Claims the oldest claimable, unlocked requests up to the limit, in order, and starts exactly those. |
| `AnalysisQueue.RequestStore.Insert` | backend/src/signalos_backend/market/store.py:523-532 | The insert is refused if and only if an active request of the user and environment exists. |
| `AnalysisQueue.RequestStore.FindActive` | backend/src/signalos_backend/market/store.py:505-522 | Finds the one active request if there is one. |
| `AnalysisQueue.RequestStore.Finish` | backend/src/signalos_backend/market/store.py:636-665 | Finishes exactly the claimed requests that still run. |
| `AnalysisQueue.RoomyClaimTakesAll` | backend/src/signalos_backend/market/store.py:577-599 | A claim with room for every candidate takes every candidate. |
| `AnalysisWorkers.AlwaysHealthy` | backend/src/signalos_backend/market/store.py:125-136 | In every interleaving of requesters and workers: one active request per user and environment, every claim's requests have left the queue, every answer is a request of its asker. |
| `AnalysisWorkers.FinishedAtMostOnce` | backend/src/signalos_backend/market/store.py:636-665 | A finished request never changes again, whoever else holds it after its lease. |
| `AnalysisWorkers.AskAnswers` | backend/src/signalos_backend/market/store.py:505-522 | Asking answers with a waiting request of the user and environment if there is one, and else goes on to insert one. |
| `AnalysisWorkers.InsertAnswers` | backend/src/signalos_backend/market/store.py:523-549 | The insert adds one queued request as of when it was asked for, unless one of the user waits already. |
| `AnalysisWorkers.FinishWrites` | backend/src/signalos_backend/market/store.py:606-665 | A finish call completes or fails exactly the claimed requests that still run, with the scan or the failure code, and leaves the others. |
| `AnalysisWorkers.EndedFinishesAll` | backend/src/signalos_backend/market/worker.py:49-140 | A worker iteration that ended by a finish call leaves none of its claim unfinished. |
| `AnalysisLoop.RunScanLoop` | backend/src/signalos_backend/market/worker.py:37-141 | The whole loop, one worker alone on the queue: claim, scan, decide whether an analysis is due, analyse, complete the claim, fail it when anything raised, stop after one round or when even the failure report raised; any call may raise, a queue call also after its commit. |
| `AnalysisLoop.EveryHeldRequestAnswered` | backend/src/signalos_backend/market/worker.py:49-140 | Over all rounds of that loop, each request a round held ends as completed with the scan of that round, or as failed, exactly as the round went, and keeps that outcome, unless the round's failure report raised. |
| `AnalysisLoop.AnalysesIff` | backend/src/signalos_backend/market/worker.py:74-108 | In any run of the loop, a round analyses its scan if and only if it has a pipeline, its claim and scan got through, the analysis does, and it is due: the first one, an interval after the last one that analysed, at a sweep, or for a claim. |
| `AnalysisWorkers.UnfinishedIsClaimable` | backend/src/signalos_backend/market/service.py:136-148 | Every unfinished request is claimable exactly when it is queued or its claim is ten minutes old, and always ten minutes from now. |
| `AnalysisWorkers.NextClaimTakes` | backend/src/signalos_backend/market/store.py:568-604 | A lease later the next roomy claim takes every unfinished request of its environment. |
| `AnalysisProgress.TakenWithin` | backend/src/signalos_backend/market/store.py:568-604 | For every run with any number of workers, crashes and failures: within a lease, a waiting request has been claimed or finished once the claims that did not find it locked had room for every request of its environment made no later than it. |
| `AnalysisProgress.RoomTaken` | backend/src/signalos_backend/market/store.py:577-599 | Until then, all the room of those claims went to requests ahead of it, each counted once. |
| `AnalysisWorkers.RaisesOnlyAfterBlockerEnded` | backend/src/signalos_backend/market/store.py:533-549 | A request raises only when the request that blocked its insert has finished since. |
| `Ranking.TopOfTheMarket` | backend/src/signalos_backend/market/scanner.py:34-69 | The hot universe is the sorted top of all scored candidates, the shortlist is its prefix, nothing left out outranks what is kept, every score is in (0, 1], and limits are accepted if and only if 1 <= agents <= hot. |
| `Ranking.InputOrderFree` | backend/src/signalos_backend/market/scanner.py:18-69 | When no two eligible tickers tie on turnover, absolute move and symbol, the result does not depend on the order of the input, nor on ineligible tickers; one symbol may be listed in both categories. |
| `Ranking.TiesShowOrder` | backend/src/signalos_backend/market/scanner.py:29-33 | Two tickers that tie rank in the order in which they come. |
| `Ranking.DominantRanksAbove` | backend/src/signalos_backend/market/scanner.py:18-69 | A market with more turnover, no smaller absolute move and no wider a spread ranks above. |
| `Ranking.DominantMakesTheCut` | backend/src/signalos_backend/market/scanner.py:62-69 | A dominated market is on a list only if every market that dominates it is. |
| `Ranking.RankedExactly` | backend/src/signalos_backend/market/scanner.py:34-61 | The ranked candidates are exactly the eligible tickers with the score of their liquidity rank. |
| `Ranking.RankedInFields` | backend/src/signalos_backend/market/scanner.py:18-61 | In ticker fields: one candidate for each place of a list of exactly the tradable tickers by turnover, move and symbol, scored 0.6 for its place, 0.3 for the move up to a tenth, 0.1 for a spread below a hundred basis points. |
| `Ranking.RankedByScore` | backend/src/signalos_backend/market/scanner.py:62-69 | Candidates stand by score, then turnover, then symbol, descending. |
| `Sorting.TextBeforeIff` | backend/src/signalos_backend/market/scanner.py:29-33 | Symbols compare as texts do: a proper prefix first, else by the first character that differs. |
| `Ranking.LiquidExactly` | backend/src/signalos_backend/market/scanner.py:18-33 | The liquidity list holds exactly the eligible tickers, most liquid first. |
| `Ranking.RankMarketLoop` | backend/src/signalos_backend/market/scanner.py:8-69 | The filter and scoring loops compute the ranking. |

## Left out

- HTTP gateways, SQLAlchemy, migrations, routes, encryption, MFA, push messages, telemetry: only transaction boundaries and constraints remain.
- Agents and prompts: what models answer enters as arbitrary values in their declared ranges.
- `Decimal` and `float` rounding: money is exact; only step and tick rounding and the -0.999999 clamp are kept.
- Fingerprints.SameFingerprintIff: compares terms as numbers, where the program hashes `str(Decimal)`. Both places that take a fingerprint read rows from columns of fixed scale (`execution/store.py:133-163`), in which a number has one spelling; arbitrary `Decimal` values, where it may have several, are not modelled.
- Service methods are calls in flight (`Interleaving`), not methods. Reads that follow one another without a write or a broker call in between are one step: the review and the row of a cancel or a position action, the checks around an account fetch, the portfolio read with its comparison, and the connection and context of a new proposal.
- Database isolation: every transaction is one atomic step, as row locks and unique constraints make it; deadlocks and serialisation failures are raised exceptions.
- The preflight checks on profile, risk, mandate, strategy, ticker and fresh margin: one arbitrary `permitted` flag; the portfolio check is modelled.
- The other checks of a new proposal (gates, profile, risk, mandate, portfolio, expiry): a proposal that fails them is one that is never opened; the account checks are modelled.
- Expiry of proposals as a status: the code never writes it; the checks against expiry times are modelled.
- A claim of the queue whose reply is lost: among other workers it counts as a worker that is gone, and the lease returns its requests.
- AnalysisLoop.RunScanLoop: one worker without others; what several do to each other's requests is in `AnalysisWorkers`. Scanning, session sweeps and the analysis itself are arbitrary outcomes.
- Deleting a market scan, which clears the scan of a finished request.
- Several reconciliation workers on one connection: cycles run one after the other.
- The broker's execution pages beyond distinct ids: a page is the fills of its category, visible at the fetch, inside the window.
- The table of order links that stored fills are resolved with: given with each cycle.
- Sharpe ratio, the price-only simulation, promotion gates, drawdown gate, mandate derivation, notification and curriculum records, session calendars: short or library-bound.
- The mobile application.
