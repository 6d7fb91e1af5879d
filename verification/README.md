# A verified model of the boxing betting platform

This project models the parts of the platform where money and state must survive long runs, and proves
what those parts keep. It is written in Dafny 4.11; `dafny verify dfyconfig.toml` checks all of it.

The pieces, hardest first:

- **The market contract** (`Market*.dfy`). A market goes Open, Locked, Resolved and Disputed and back,
  or Cancelled, with three pools, one bet per bettor, oracle consensus and guarded payments.
  `MarketSpec` gives each entry point's checks, in the contract's order, then its writes, then the token
  transfers it asks for. `MarketMachine` runs calls as a stack of frames: while a call makes its
  transfers the token may call back into any entry point, and a frame that traps restores the state it
  was called in. Every theorem of `MarketRuns` is about all runs of that machine. `MarketPayouts` is
  about who gets how much, `MarketTransfers` about what the token really moved, recipient by recipient,
  and `MarketViews` about the read-only entry points and the web client's preview. `MarketHistory` tells
  the market from the calls it accepted: its rules are stated over those alone, and the contract accepts
  exactly what they allow, pays whom they name, and holds the state they make.
  `Market.dfy` is the contract as a class over its storage and a token ledger; each method is proved
  equal to the specified call, including the rollback of a failed one.
- **Treasury and factory** (`Treasury.dfy`, `Factory.dfy`). Fee ledger, daily cap and pruned day map;
  registry, open list, paging and admin handover, the last run together with real markets. `FeeFlow.dfy`
  runs markets and treasury together and follows the fees. `TreasuryControl.dfy` and `FactoryHistory.dfy`
  say, from the calls of a run, who can do what.
- **The Redis lock** (`DistributedLock.dfy`) and **sessions and password resets** (`Auth.dfy`): step
  models with time and expiry. `AuthHistory.dfy` tells passwords, second factors and live reset tokens from
  the operations alone, and who can sign in or reset. `ResetRace.dfy` interleaves the statements of concurrent logins, reset
  requests and resets of one user, with faults.
- **Indexers** (`InvoiceIndexer.dfy`, `InvoiceRecords.dfy`, `ChainIndexer.dfy`, `Delivery.dfy`). Tables built
  by folding an event log, under crashes, failed reads and saves and restarts; what a table says of each
  invoice; agreement of the indexed row with the contract's own pools; which events a backfill delivers,
  and how often.
- **The activity feed** (`RateLimiter.dfy`): the fixed-window limiter and the subscription map.
- **Integers and text** (`Isqrt.dfy`, `Csv.dfy`, `DecimalAmounts.dfy`): Newton square root, CSV rows
  against a reader for RFC 4180, token amounts printed and parsed.

`Common.dfy` holds the shared vocabulary: results, 128-bit range checks, sums over keys, floor division.

## Where the code and its own words differ

The model follows the code. Each of these is a lemma:

- The full fee is transferred on every winner's claim, not once per market. All winners can be paid
  exactly in the cases of `MarketPayouts.AllWinnersPayable`; `TwoWinnersCannotBothClaim` is an instance
  that fails.
- Session tombstones last seven days, said to be the lifetime of the longest-lived token, but token
  lifetimes come from the environment: `AuthRuns.SessionsSafeIff`.
- A reset token is a signature over whole seconds, so it is single-use exactly when a user's requests lie
  a second apart: `AuthRuns.SingleUseIff`. The row's own expiry check refuses only a reset that is under
  way while the row expires: `AuthRuns.RowRefusesIff`.
- "Single-use enforcement" of reset tokens is a lookup followed by a delete, so requests must not overlap
  either, and it is their signings that must lie a second apart, however far apart they arrive:
  `ResetRace.TokensSafeIff`. Overlap, or a fault after the password is written, also leaves older sessions
  alive, and a login under way during a reset signs a session of the old version: `ResetRace.SessionsSafeIff`.
- A lock's TTL "should be longer" than its job. Exclusion needs exactly that each job ends within the TTL,
  counted from the moment the server set the key: `LockProtocol.TimelyJobsExcludeIff`.
- The invoice poller skips events while no cursor is known; a crash or a failure while the cursor file is
  being rewritten loses the cursor; any failure to read the file counts as no cursor; and an upsert that
  fails is passed over: `InvoicePolling.CrashSafeIff`.
- A backfill's checkpoint passes a ledger whose events could not be fetched. Each visit asks for everything
  from its ledger on, so an event is delivered again for every earlier ledger within a page of it, and
  never when a full page of its own ledger's events comes before it: `Delivery.IndexedIff`,
  `Delivery.TimesInFull`. Pools count every delivery: `Delivery.PoolsCountDeliveries`.
- A withdrawal limit above a fifth of the largest 128-bit number lets nothing out, because the daily cap
  overflows: `TreasuryRuns.UsableIff`.
- The fees of claims reach the treasury's balance but not its ledger, so no withdrawal or drain can take
  them; the same becomes of what is withdrawn to the treasury itself: `FeeFlow.ClaimFeesStayOutside`.
- `create_market` refuses a minimum bet of zero and accepts negative ones: `FactorySpec.NegativeMinimumAccepted`.
  They let in stakes of zero, and a side with nothing else in its pool pays its winners nothing:
  `MarketRuns.SidesFundedIff`, `MarketPayouts.PayoutsShareNetPool`.
- The payout preview applies only the latest trade event, to whatever row it was last given:
  `MarketViews.LiveRowTracksIff`.
- `receive_fee` books a negative amount if an approved market reports one: `TreasuryRuns.ReceiptGuardExact`.
- The bet handler adds to the pool even when the insert was skipped as a duplicate: `BetTables.RowAgreesIff`.
- The feed's limiter is announced as a token bucket of at most 20 events a second. It is a fixed window,
  and a second around a window's edge can see 39: `RateLimiterRuns.AnySecondAdmitsAtMost39`, `BoundIsMet`.
- `list_market_ids` cuts its 64-bit offset to 32 bits: `FactorySpec.PageAsAskedIff`.
- `xlmToStroops` is given JavaScript numbers, which print in exponent form below a millionth and from 1e21
  on. It reads a number right exactly when it prints without an exponent: `TokenAmounts.ReadsRightIff`.

Besides, `create_market` uses the error `WasmHashNotSet` and `remove_oracle` uses `OracleNotWhitelisted`,
which the contracts' error enumeration does not declare; the model has both.

## Model

| member | source | states |
|---|---|---|
| MarketRuns.ReachableAccounts | contracts/market/src/lib.rs:199-575 | In every reachable state, nested callbacks and traps included, each pool is the sum of the stakes on its side, the total is the sum of the pools, the bettor list names each bettor once, and the balance (with transfers still due) is the total pool less refunds, payouts and one fee per claim |
| MarketRuns.PaidAtMostOnce | contracts/market/src/lib.rs:527-546 | In every run no bettor has two payments recorded, of winnings or refund, and the bettors with a claimed record are exactly those with a payment |
| MarketTransfers.ReceivedIsPaid | contracts/market/src/lib.rs:548-566 | In every run, nested calls and traps included, what the token has moved to each address, with what open calls still send it, is what the recorded payments give it: to a bettor other than the treasury its one payment if it has claimed and nothing otherwise, to the treasury every fee |
| MarketTransfers.EffectOwes | contracts/market/src/lib.rs:527-566 | Each call asks the token for exactly the transfers that the payments it records give to each address |
| MarketTransfers.IdleIsBetweenCalls | contracts/market/src/lib.rs:199-764 | Every reachable state with no call in flight satisfies the assumptions of the results on single calls, a non-negative balance included |
| MarketRuns.GuardExact | contracts/market/src/lib.rs:72-78 | The claiming flag is set exactly while a claim or refund frame is open, and then both claim entry points fail |
| MarketRuns.CommittedProgressIsKept | contracts/market/src/lib.rs:733-764 | From any state with no call in flight, no later event, dispute or trap reverts a claimed flag or forgets a payment, report or decision; stakes and pools never change once betting is over, and Cancelled is never left |
| MarketRuns.FailedCallChangesNothing | contracts/market/src/lib.rs:237-252 | A call that fails its checks changes nothing; a call that traps after any writes, transfers and nested calls puts back exactly the state it was called in |
| MarketRuns.FifthReportDecides | contracts/market/src/lib.rs:393-419 | Undecided reports have pairwise different outcomes, so there are at most four, and an accepted fifth resolves the market |
| MarketRuns.DecidedOnceByTwo | contracts/market/src/lib.rs:403-428 | In every run the oracles decide at most once, by two distinct oracles that named the same outcome and were each whitelisted when they reported |
| MarketRuns.ReportOutcome | contracts/market/src/lib.rs:331-437 | An accepted report resolves the market if and only if another oracle's stored report names the same outcome; otherwise it is only stored |
| MarketRuns.CancelledPaysOnlyRefunds | contracts/market/src/lib.rs:655-685 | In a cancelled market every payment so far is an exact refund, and the balance is the sum of the stakes not yet refunded |
| MarketRuns.SidesFundedIff | contracts/market/src/lib.rs:215-232 | In a market that takes bets at all, every side that was bet on has a positive pool in every run if and only if the minimum bet is positive |
| MarketHistory.StateIsHistory | contracts/market/src/lib.rs:199-764 | In every run, callbacks and traps included, each accepted call was allowed by those accepted before it, and pause, status, outcome and its time, pools, bet records, pending reports and payments are what the accepted calls alone make them |
| MarketHistory.AcceptedIff | contracts/market/src/lib.rs:199-764 | In every reachable state a call passes its checks if and only if the accepted calls allow it, by signer, time, whitelist, pause, status, own bet, own report and own claim; a stake also has to fit 128 bits beside the others, and a claim needs that no claim is in flight |
| MarketHistory.RefusalsTellWhy | contracts/market/src/lib.rs:199-764 | In every reachable state the error of a refused call is true of it and of the calls accepted before it |
| MarketHistory.WinningsFollowVerdict | contracts/market/src/lib.rs:478-525 | In every run each payment of winnings answers a claim by a bettor whose accepted bet was on the side that bears the name of the outcome decided last before the claim; each refund answers a claim after a cancellation |
| MarketHistory.PaymentsFromStakes | contracts/market/src/lib.rs:503-525 | In every run each payment of winnings is the formula applied to the accepted stakes, fee included, and each refund is the whole accepted stake |
| MarketHistory.DisputeDecides | contracts/market/src/lib.rs:724-764 | An accepted dispute resolution is signed by the factory address and puts its own outcome in force at once, with its time and status |
| MarketSteps.EffectsGood | contracts/market/src/lib.rs:199-764 | Whatever entry point is called, its writes keep every invariant, only extend the history, and change the backing by exactly the transfers it asks for |
| MarketMachine.StepOk | contracts/market/src/lib.rs:527-571 | Opening a call, making a transfer, returning and trapping each keep the invariant, of the present state and of everything that open calls could roll back to |
| MarketPayouts.PayoutsShareNetPool | contracts/market/src/lib.rs:503-525 | For one winning side, any distinct winners in any order are paid at most the net pool; from a pool that is not empty all of them together leave less than one unit each, and a sole winner gets the net pool, so fee plus payout is the total; from an empty one, which takes a minimum bet that is not positive, they get nothing |
| MarketPayouts.NoOverflowBelow63Bits | contracts/market/src/lib.rs:511-525 | With the total pool below 2^63 no checked operation of a claim fails, and the results are the exact fee, net pool and payout |
| MarketPayouts.ClaimPaysIff | contracts/market/src/lib.rs:453-575 | A claim of winnings succeeds if and only if it is signed, the market is resolved and not paused, the bettor's one record is on the side that bears the outcome's name (fighter A, fighter B or draw; none for no contest), it has not been claimed, and the contract holds the fee and the payout |
| MarketPayouts.RefundsInAnyOrder | contracts/market/src/lib.rs:587-645 | In a cancelled, unpaused market refunds succeed in every order, each returns the exact stake, and the last leaves zero |
| MarketPayouts.ClaimsNeedTotal | contracts/market/src/lib.rs:548-566 | Claims in a given order all succeed if and only if the balance covers the sum of the payouts and one full fee per claim |
| MarketPayouts.AllWinnersPayable | contracts/market/src/lib.rs:555-563 | Of an untouched resolved market whose winning pool is not empty all winners can be paid exactly when there is one winner, no fee, or a fee of one unit that the rounding dust covers; winners of an empty pool are owed nothing and can all claim exactly when the total covers one fee each |
| MarketPayouts.TwoWinnersCannotBothClaim | contracts/market/src/lib.rs:555-563 | A concrete market with two winners whose second claim cannot be paid |
| MarketPayouts.CallIsRun | contracts/market/src/lib.rs:527-571 | A call without callbacks is a run of the machine, so all that holds of runs holds of it |
| MarketContract.Market.PlaceBet | contracts/market/src/lib.rs:199-273 | The method over storage and ledger is the specified call: same error, same new state, and the stake moved, or nothing changed even though the pools are saved before the duplicate check |
| MarketContract.Market.LockMarket | contracts/market/src/lib.rs:284-318 | Is the specified call |
| MarketContract.Market.ResolveMarket | contracts/market/src/lib.rs:331-437 | Is the specified call, with the reports and the decision recorded |
| MarketContract.Market.CountMatching | contracts/market/src/lib.rs:403-416 | The loop counts this report and every other oracle's report with the same outcome, once each |
| MarketContract.Market.SumAndMark | contracts/market/src/lib.rs:487-540 | The two loops of a claim add up exactly the payable stakes and mark exactly those records |
| MarketContract.Market.ClaimWinnings | contracts/market/src/lib.rs:453-575 | Is the specified call; the treasury receives the fee and the bettor the payout, and an error leaves all balances alone |
| MarketContract.Market.Disburse | contracts/market/src/lib.rs:548-566 | Pays the fee to the treasury first, then the payout to the bettor, skipping amounts of zero; succeeds exactly when the contract can pay both |
| MarketContract.Market.ClaimRefund | contracts/market/src/lib.rs:587-645 | Is the specified call; the bettor receives the refund, and an error leaves all balances alone |
| MarketContract.Market.CancelMarket | contracts/market/src/lib.rs:655-685 | Is the specified call |
| MarketContract.Market.DisputeMarket | contracts/market/src/lib.rs:695-724 | Is the specified call |
| MarketContract.Market.ResolveDispute | contracts/market/src/lib.rs:733-764 | Is the specified call |
| MarketContract.Market.SetPaused | contracts/market/src/lib.rs:983-1010 | Pausing and unpausing are the specified calls |
| MarketViews.PreviewWithinOneStroop | frontend/src/hooks/useProjectedPayout.ts:127-158 | For all non-negative pools and fees up to 10000 basis points, and a row that mirrors them, the preview P and the contract's estimate E satisfy P <= E <= P + 1 |
| MarketViews.BooksGiveSoundPools | contracts/market/src/lib.rs:228-237 | The pools of any market whose books are good are such pools |
| MarketViews.EstimateIsPaid | contracts/market/src/lib.rs:805-830 | The estimate taken just before a bet is exactly what claiming later pays that bet if it wins and no other bet followed |
| MarketViews.EstimateAnswers | contracts/market/src/lib.rs:806-838 | With the total below 2^63 the estimate always answers, and once betting is over it is zero |
| MarketViews.PayoutFrozen | contracts/market/src/lib.rs:503-525 | Once no further bet is placed a bettor's payout never changes, through reports, disputes and other claims |
| MarketViews.TradeTracksBet | frontend/src/hooks/useProjectedPayout.ts:35-54 | A row that mirrors the contract still does after one bet is applied to both |
| MarketViews.LiveRowTracksIff | frontend/src/hooks/useProjectedPayout.ts:80-125 | After one or more trades, the hook's live row is the contract's if and only if the row it was given lacks the last trade and no other |
| MarketViews.OddsSumToWhole | contracts/market/src/lib.rs:790-803 | The three odds of a pool that is not empty are non-negative and together miss 10000 by at most two |
| MarketViews.OddsAreShares | contracts/market/src/lib.rs:790-803 | Each side's odds are the floor of its own pool's share of the total in basis points |
| MarketViews.OddsTrapIff | contracts/market/src/lib.rs:790-803 | The odds of an empty market are zero, and the call traps if and only if some pool times 10000 leaves 128 bits |
| MarketViews.GetAllBets | contracts/market/src/lib.rs:841-868 | The nested loops return the requested page, at most fifty long, of all records in bettor order |
| MarketViews.AllBetsExact | contracts/market/src/lib.rs:841-856 | With one record per bettor the listing is exactly each bettor's bet, in the order of the bettor list |
| TreasuryRuns.TreasuryBooks | contracts/treasury/src/lib.rs:38-64 | Over any run with non-decreasing time each token's fees are what came in less withdrawals and drains, today's counter is the sum of today's withdrawals despite pruning, each withdrawal was between the minimum and the limit then in force and left its day within five times that limit, which did not overflow, and the day map has at most two keys |
| TreasuryRuns.FeesNeverNegative | contracts/treasury/src/lib.rs:148-213 | With no negative reported receipt no token's fees are ever negative |
| TreasuryRuns.ReceiptGuardExact | contracts/treasury/src/lib.rs:181-213 | Runs whose reported receipts are all at least some bound keep all fees non-negative if and only if the bound is not negative |
| TreasuryRuns.UsableIff | contracts/treasury/src/lib.rs:238-260 | Whoever the admin and the factory are, some run under an unchanged limit makes a withdrawal if and only if the limit is at least the minimum and its fivefold fits 128 bits |
| TreasuryRuns.DailyCapExact | contracts/treasury/src/lib.rs:249-283 | With the limit changed at will below a ceiling, a bound holds for every day of every run if and only if it is at least five times the largest usable limit under the ceiling, or at least zero when there is none |
| TreasuryControl.LedgerIsHistory | contracts/treasury/src/lib.rs:95-213 | In every run the approved markets, the limit and the breakdown by market are what the signed calls alone make them, and admin, factory and the pause flag never change |
| TreasuryControl.AcceptedIff | contracts/treasury/src/lib.rs:148-377 | After any timed run a call is let through if and only if the calls and money movements so far allow it: a withdrawal exactly when the admin signs it, it lies between the minimum and the limit, fits into five times the limit with what left on its day, and is covered by the net receipts |
| TreasuryControl.RefusalsTellWhy | contracts/treasury/src/lib.rs:148-377 | After any timed run the error of a refused call is true of it and of the run |
| TreasuryControl.EntriesAreSigned | contracts/treasury/src/lib.rs:227-377 | Every entry of a run has a call behind it: withdrawals and drains one that the admin signed, with that token and amount, receipts one that a then approved market signed |
| TreasuryControl.WithoutAdmin | contracts/treasury/src/lib.rs:227-377 | In a run the admin never signs, with no negative receipt, nothing goes out, the limit stays, no market is put out and no token's fees ever fall |
| TreasuryControl.WithoutBoth | contracts/treasury/src/lib.rs:95-213 | In a run that neither the admin nor the factory signs, nothing is booked and no market is approved |
| FeeFlow.JointBooks | contracts/market/src/lib.rs:555-563 | In every run of a treasury with any number of markets, the treasury's balance is its ledger's entry, less what was credited without money, plus what was withdrawn to the treasury itself and every fee that claims ever sent |
| FeeFlow.CoveredIff | contracts/treasury/src/lib.rs:181-213 | In every such run the balance covers the ledger all along if and only if every receipt let through was, when reported, no more than what the treasury held beyond its ledger |
| FeeFlow.ClaimFeesStayOutside | contracts/treasury/src/lib.rs:227-283 | With no receipt reported, which no contract does, all fees of claims and all that was withdrawn to the treasury itself stay in the balance beside the ledger's entry, which is all that can be withdrawn or drained |
| TreasuryContract.Treasury.DepositFees | contracts/treasury/src/lib.rs:148-175 | Is the specified call, all or nothing |
| TreasuryContract.Treasury.ReceiveFee | contracts/treasury/src/lib.rs:181-213 | Is the specified call, on the token's total and on the market's breakdown |
| TreasuryContract.Treasury.PruneDailyWithdrawn | contracts/treasury/src/lib.rs:44-55 | Collecting and then removing the stale days keeps exactly the present day, the one before it and later ones |
| TreasuryContract.Treasury.WithdrawFees | contracts/treasury/src/lib.rs:227-283 | Is the specified call, all or nothing |
| TreasuryContract.Treasury.UpdateWithdrawalLimit | contracts/treasury/src/lib.rs:332-341 | Is the specified call |
| TreasuryContract.Treasury.EmergencyDrain | contracts/treasury/src/lib.rs:352-377 | Is the specified call, all or nothing |
| TreasuryContract.Treasury.RevokeMarket | contracts/treasury/src/lib.rs:119-137 | The filter loop leaves exactly the other approved markets |
| TreasuryContract.Treasury.RegisterMarket | contracts/treasury/src/lib.rs:286-304 | Is the specified call |
| FactoryRuns.FactoryBooks | contracts/market_factory/src/lib.rs:179-334 | In any run of the factory with its markets, registered ids are exactly 0..count-1 with pairwise different salts, the open list is strictly increasing, registered and misses no open market, a pending admin was nominated by the present admin, and every market keeps its own books |
| FactoryRuns.NeverReopens | contracts/market/src/lib.rs:284-318 | No call of a market opens it again or changes its configuration |
| FactoryHistory.StateIsHistory | contracts/market_factory/src/lib.rs:134-443 | In every run the admin, the candidate, the whitelist, the pause and code switches, the registry, the open list and the terms of every market are what the accepted calls alone make them |
| FactoryHistory.AcceptedIff | contracts/market_factory/src/lib.rs:134-443 | After any run a call is accepted if and only if the accepted calls allow it, and for a removal the market is not Open |
| FactoryHistory.RefusalsTellWhy | contracts/market_factory/src/lib.rs:134-443 | After any run the error of a refused call is true of it and of the accepted calls |
| FactoryHistory.HandoverIsNamed | contracts/market_factory/src/lib.rs:400-443 | The admin changes only by a signed acceptance of the candidate that the previous admin's latest signed proposal named |
| FactorySpec.AcceptedIsValid | contracts/market_factory/src/lib.rs:152-177 | A configuration that passes the checks is one under which a market's books are proved, with a minimum bet that is not zero and at most the maximum |
| FactorySpec.NegativeMinimumAccepted | contracts/market_factory/src/lib.rs:153-158 | Wherever some configuration passes, one with a negative minimum bet passes too, and its market has a run in which a side that was bet on is worth nothing |
| FactorySpec.SaltInjective | contracts/market_factory/src/lib.rs:196-201 | Different 64-bit ids give different deployment salts |
| FactorySpec.PageAsAskedIff | contracts/market_factory/src/lib.rs:246-258 | The page returned is the page asked for unless a non-empty request's offset, cut to 32 bits, lands on the list |
| FactorySpec.ReadPagesRebuild | contracts/market_factory/src/lib.rs:246-258 | Consecutive pages of any size up to 100 rebuild the open list |
| FactoryContract.MarketFactory.CreateMarket | contracts/market_factory/src/lib.rs:134-232 | Is the specified call, with its validation order, and returns the new id |
| FactoryContract.MarketFactory.RemoveOpenMarket | contracts/market_factory/src/lib.rs:304-334 | The filter loop is the specified call: only a market that is not Open is taken off the list |
| FactoryContract.MarketFactory.ListMarketIdsPage | contracts/market_factory/src/lib.rs:246-258 | The paging loop returns the specified page |
| FactoryContract.MarketFactory.ProposeAdmin | contracts/market_factory/src/lib.rs:400-411 | Is the specified call |
| FactoryContract.MarketFactory.AcceptAdmin | contracts/market_factory/src/lib.rs:420-443 | Is the specified call |
| IntegerSqrt.Isqrt | contracts/shared/src/amm.rs:29-44 | For 0 <= n < 2^127 - 1 the loop ends with the floor of the root and no intermediate value leaves 128 bits; negative input gives 0, and the largest input alone overflows |
| LockProtocol.OneLeaseHolder | backend/src/utils/distributedLock.ts:103-126 | In every run, with any processes, delays, expiries, lost replies and crashes, at most one process is in the job with an unexpired lease |
| LockProtocol.TimelyJobsExcludeIff | backend/src/utils/distributedLock.ts:96-126 | Every schedule with one TTL whose jobs all end in less than a given time has at most one process in the job, if and only if that time is at most the TTL; the time runs from the grant on the server, so a late reply uses it up too |
| LockProtocol.OverrunJobsOverlap | backend/src/utils/distributedLock.ts:96-102 | For every TTL and every longer time, a schedule whose jobs end in less than that time from their grants and yet overlap |
| LockProtocol.LateReleaseHarmless | backend/src/utils/distributedLock.ts:65-87 | A release, however late, deletes only a key that still carries its own identifier, so it never takes another process's lease |
| LockProtocol.LockIsRecoverable | backend/src/utils/distributedLock.ts:30-58 | Whatever was lost or crashed, one TTL later an idle process can take the lock |
| LockProtocol.ReleaseHandsOver | backend/src/utils/distributedLock.ts:65-87 | After a job that ended within its lease and was released, any idle process that asks gets the lock at once |
| LockKey.AcquireLock | backend/src/utils/distributedLock.ts:30-58 | Takes the key exactly when it is absent or expired; returns a lock only if the reply arrived |
| LockKey.ReleaseLock | backend/src/utils/distributedLock.ts:65-87 | Deletes the key exactly when it is live and owned by the lock's identifier |
| AuthRuns.SafeWhenShortLived | backend/src/services/auth.service.ts:106-123 | With token lifetimes of at most seven days, in every run of operations that complete each session token issued before its user's latest reset is expired or revoked, and none issued after it is revoked |
| AuthRuns.SessionsSafeIff | backend/src/services/auth.service.ts:55-123 | That promise holds in every run of operations that complete one after the other, with any number of users, if and only if both configured lifetimes are at most seven days |
| AuthRuns.ResetTokensSingleUse | backend/src/services/auth.service.ts:216-289 | In every run each user has at most one live reset token, and each token has changed the password at most as often as it was issued, and fewer times while it is live |
| AuthRuns.SingleUseIff | backend/src/services/auth.service.ts:77-81 | Every run in which requests for one user's token lie at least a given time apart uses each token at most once, if and only if that time is at least a second |
| AuthRuns.SameSecondTokenWorksTwice | backend/src/services/auth.service.ts:216-239 | For every wait of less than a second, a run with requests that far apart in which one token changes the password twice |
| AuthRuns.RowRefusesIff | backend/src/services/auth.service.ts:247-287 | Whatever the wait between verifying the token and checking its row, a reset whose token verifies and has a row starts no later than the row's expiry, is refused at the row exactly when that expiry falls within the wait, and takes the row out either way |
| AuthHistory.StateIsHistory | backend/src/services/auth.service.ts:134-390 | In every run the users with their passwords, versions and second factors, the reset rows and the temporary tokens are what the operations alone make them |
| AuthHistory.LoginIff | backend/src/services/auth.service.ts:184-204 | After any run a login is refused if and only if the password is not the user's, as first registered or as last reset; otherwise it gets a temporary token where a second factor is on, and else a session pair of the version that counts the user's resets |
| AuthHistory.CodeIff | backend/src/services/auth.service.ts:369-390 | After any run a code opens a session if and only if it is good, comes with the unexpired temporary token of a login that had the right password, and the second factor is still on |
| AuthHistory.ResetIff | backend/src/services/auth.service.ts:247-304 | After any run a reset goes through if and only if its token is the one of the user's latest request, not presented since, within its signed lifetime, and its row has not expired by the time it is checked |
| AuthHistory.SessionsAreEarned | backend/src/services/auth.service.ts:184-204 | Every session of a run was opened by a login with the password its user had then, or by the code that completed such a login |
| ResetRace.TokensSafeIff | backend/src/services/auth.service.ts:216-304 | With one user's logins, requests and resets interleaved statement by statement, and tokens fixed by the second of signing, every token works at most once, at most one row is live and each reset makes a new version in all runs, if and only if at most one request or reset is in flight and tokens are signed at least a second apart, or none is served; no gap between the arrivals of requests stands in for it |
| ResetRace.SessionsSafeIff | backend/src/services/auth.service.ts:292-304 | In the same interleavings, finished resets leave no older session alive and revoke no newer one in all runs, if and only if at most one request or reset is in flight, no login is between reading the user and signing while a reset writes, no fault falls between the password's write and the last tombstone, and sessions live at most seven days, or no request is served |
| ResetRace.OverlapResetsTwice | backend/src/services/auth.service.ts:264-300 | Two overlapping resets with one token both succeed to the same session version, and a session opened between them survives the second |
| ResetRace.QuickRequestReusesToken | backend/src/services/auth.service.ts:224-235 | With one request or reset at a time and less than a second between signings, however far apart requests must arrive, one token resets twice |
| ResetRace.SessionOutlivesReset | backend/src/services/auth.service.ts:292-304 | A fault among the tombstones, or a lifetime above seven days, leaves a session alive after its user's reset |
| ResetRace.LoginSpansReset | backend/src/services/auth.service.ts:184-204 | A login that read the user before a reset and signs after it opens a session that is revoked at once, though no reset follows it |
| ResetRace.AloneLogin | backend/src/services/auth.service.ts:184-204 | A login that nothing interrupts opens one session of the present version and changes nothing else |
| ResetRace.AloneRequest | backend/src/services/auth.service.ts:216-239 | A request that nothing interrupts leaves the row of its own token alone, for fifteen minutes |
| ResetRace.AloneReset | backend/src/services/auth.service.ts:247-304 | A reset that nothing interrupts changes the password if and only if its token was signed, is within its lifetime and has a row that has not expired when it is checked |
| AuthService.Auth.Login | backend/src/services/auth.service.ts:184-204 | Is the specified operation |
| AuthService.Auth.Verify2FA | backend/src/services/auth.service.ts:369-390 | Is the specified operation |
| AuthService.Auth.ForgotPassword | backend/src/services/auth.service.ts:216-239 | Is the specified operation: the user's old rows are replaced by one new row, unknown users change nothing |
| AuthService.Auth.BlockOldSessions | backend/src/services/auth.service.ts:106-113 | The loop writes a tombstone for every version up to the old one and no other |
| AuthService.Auth.ResetPassword | backend/src/services/auth.service.ts:247-304 | Is the specified operation, including which refusals consume the row |
| AuthService.Auth.IsSessionRevoked | backend/src/services/auth.service.ts:119-123 | True exactly for a tombstone that has not expired |
| InvoiceTable.ReprocessIff | indexer/src/poller.ts:205-213 | Processing an event twice equals processing it once, for every table and clock, if and only if the event carries its due date |
| InvoiceTable.ReplayAbsorbed | indexer/src/db.ts:75-86 | Processing any part of a dated event sequence before the whole sequence gives the table of the whole alone |
| InvoiceRecords.TableIsRecords | indexer/src/poller.ts:186-243 | The table of any log holds exactly the invoices some event is about; the status is Pending, Funded, Paid or Defaulted by the kind of the latest event; freelancer, payer, amount and due date are the latest that a submission gave, where an empty value or zero gives none |
| InvoiceRecords.PolledRecords | indexer/src/poller.ts:102-117 | So does the table of a caught-up poller that started from an empty one, through crashes, failed saves and restarts |
| InvoicePolling.CrashSafe | indexer/src/poller.ts:102-117 | From a saved cursor, however batches, crashes mid-batch, failed cursor saves and restarts fall, a poller that has caught up has the table of one crash-free pass, as long as every start can read the cursor file, no crash and no failed save leaves it unreadable, and no upsert fails |
| InvoicePolling.CrashSafeIff | indexer/src/db.ts:42-64 | Crash safety holds for every log and schedule if and only if a cursor had been saved before the first event, the cursor file is replaced as a whole or not at all, every start can read it, and no upsert fails |
| InvoicePolling.PollIsNext | indexer/src/poller.ts:102-118 | A poll of a run does to table and cursors what the process's poll of that slice of the log does |
| InvoicePolling.StartWithoutCursorSkips | indexer/src/poller.ts:90-100 | A run without a saved cursor that ends caught up and yet lacks an invoice |
| InvoicePolling.UnreadCursorSkips | indexer/src/db.ts:42-54 | With an intact cursor file that a start fails to read, at first or after a restart, runs that end caught up and yet lack an invoice |
| InvoicePolling.TornSaveSkips | indexer/src/db.ts:42-64 | With a cursor file that is not replaced as a whole, runs that end caught up and yet lack an invoice, one by a crash during the save and one by a save that fails |
| InvoicePolling.FailedUpsertLost | indexer/src/poller.ts:236-242 | A run without any crash or failed save that ends caught up and lacks the invoice whose upsert failed |
| InvoiceIndexer.Indexer.UpsertInvoice | indexer/src/db.ts:75-86 | Is the merge rule: the status is replaced, other fields only by non-empty values |
| InvoiceIndexer.Indexer.ProcessEvent | indexer/src/poller.ts:186-243 | Is the specified effect of each kind of event, and nothing when the upsert fails |
| InvoiceIndexer.Indexer.SaveCursor | indexer/src/db.ts:56-64 | The file holds the new cursor, or after a failure the old one or none that can be read |
| InvoiceIndexer.Indexer.PollOnce | indexer/src/poller.ts:106-118 | All events whose upsert works are applied in order, then the cursor advances in memory past the whole batch, then on disk by a save that may fail |
| Backfill.BackfillCovers | backend/src/indexer/StellarIndexer.ts:603-637 | A backfill visits each ledger of the range exactly once in ascending order, ends by checkpointing the last, and every checkpoint c comes right after all of [from, c] |
| Backfill.CutOffCovered | backend/src/indexer/StellarIndexer.ts:632-633 | Wherever a backfill is cut off, every ledger up to the checkpoint on record has been visited |
| Backfill.Indexer.BackfillLedgerRange | backend/src/indexer/StellarIndexer.ts:603-637 | The nested loops carry out the whole plan unless one of its checkpoints cannot be saved, and then exactly the plan up to that checkpoint |
| Backfill.Indexer.LoadCheckpoint | backend/src/indexer/StellarIndexer.ts:643-648 | Returns the last checkpoint written, if any |
| Delivery.IndexedIff | backend/src/indexer/StellarIndexer.ts:251-318 | Wherever a backfill is cut off and however its visits fail, an event of the range up to the checkpoint on record was delivered if and only if a visit of its ledger, or of an earlier one of the range, got as far as it within its page of 100 |
| Delivery.TimesInFull | backend/src/indexer/StellarIndexer.ts:253-262 | A backfill whose visits all succeed delivers an event exactly once for each ledger of the range up to its own whose page of 100 reaches it; within the range it is missed exactly when 100 events of its own ledger come before it |
| Delivery.PoolsCountDeliveries | backend/src/indexer/StellarIndexer.ts:416-453 | After any visits with any failures, each pool of a market is the sum of its bets' amounts, each times the number of its deliveries |
| BetTables.PoolsAreStoredPlusSkipped | backend/src/indexer/StellarIndexer.ts:416-453 | A market's row is, column by column and in total, its stored bets plus every bet that arrived again under a stored hash |
| BetTables.RowAgreesIff | backend/src/indexer/StellarIndexer.ts:421-445 | With positive amounts the row equals the sums of the stored bets if and only if none of the market's bets arrived twice |
| BetTables.DistinctStoredWhole | backend/src/indexer/StellarIndexer.ts:421-436 | A log without repeated hashes, for known markets, is stored whole and nothing is skipped |
| BetTables.StoredAreFirsts | backend/src/indexer/StellarIndexer.ts:416-436 | Of any log exactly the first bet of each hash is stored, among the bets of known markets |
| ChainAgreement.RowMatchesContract | backend/src/indexer/StellarIndexer.ts:437-445 | Indexing a contract's bets, each under its own hash and decoded to the side names the handler compares with, gives a row with the contract's own pools and total |
| ChainIndexer.Database.OnBetPlaced | backend/src/indexer/StellarIndexer.ts:416-453 | The transaction is the specified step, rolled back when the insert fails |
| Csv.RowsRoundTrip | backend/src/services/export.service.ts:11-16 | For rows of one or more arbitrary cells, a reader for rules 5 to 7 of section 2 of RFC 4180, with line-feed row ends, recovers exactly the rows' texts |
| Csv.PlainIff | backend/src/services/export.service.ts:11-16 | A text is written as it is if and only if it holds no comma, quote or line feed |
| Csv.EmptyRowIsAmbiguous | backend/src/services/export.service.ts:11-16 | A row without cells is written like a row with one empty cell, so the restriction is needed |
| CsvExport.PipeQueryToCsv | backend/src/services/export.service.ts:49-80 | Streaming in chunks of 500 writes the same text as the buffered build; a connection that fails after some fetches cuts it off after exactly the rows they brought, unless the last of them had found no more |
| CsvExport.ExportReadsBack | backend/src/services/export.service.ts:143-160 | The buffered build reads back as the header and the rows, no more and no less |
| TokenAmounts.ParseIsFloor | frontend/src/services/wallet.ts:419-423 | On any unsigned decimal text, with a fraction of any length or none, the parse is the floor of its value times 10^7 |
| TokenAmounts.FormatParseRoundTrip | frontend/lib/stellar.ts:95-101 | Parsing the printed amount gives the amount back, for every n |
| TokenAmounts.FormatIsShortest | frontend/lib/stellar.ts:95-101 | The printed amount has a point if and only if there is a fraction, no zero at the end of it, and none at the front of the whole part unless that is zero |
| TokenAmounts.FloorIsQuotient | frontend/src/services/wallet.ts:422-422 | The floor relation used by the parse theorem is the quotient of integer division and nothing else |
| TokenAmounts.ReadsRightIff | frontend/src/services/wallet.ts:419-423 | Of the texts JavaScript prints for a non-negative number, with an exponent of either sign or none, the parse gives the floor of the number in stroops if and only if there is no exponent |
| TokenAmounts.ExponentDroppedIffLong | frontend/src/services/wallet.ts:420-422 | On a mantissa with a fraction and an exponent of either sign the parse drops the exponent when the fraction has seven or more digits, and fails otherwise |
| TokenAmounts.WholeExponentFails | frontend/src/services/wallet.ts:420-422 | On a whole mantissa with an exponent of either sign the parse fails |
| RateLimiterRuns.WindowAdmitsAtMostLimit | backend/src/websocket/realtime.ts:31-41 | With non-decreasing time a counter window has let through exactly what its counter says, at most 20 |
| RateLimiterRuns.AnySecondAdmitsAtMost39 | backend/src/websocket/realtime.ts:24-41 | Any half-open second lets through at most 39 events of a market |
| RateLimiterRuns.BoundIsMet | backend/src/websocket/realtime.ts:24-41 | A run in which a second lets through 39 |
| RateLimiterRuns.RefusedOnlyWhenFull | backend/src/websocket/realtime.ts:38-38 | An event is refused only if the second that ends with it already let 20 of its market through |
| RateLimiterRuns.MarketsIndependent | backend/src/websocket/realtime.ts:29-41 | A market's counter and admitted events depend on its own events alone |
| SubscriptionRuns.SubscribedIffListening | backend/src/websocket/realtime.ts:83-108 | After any run a market's subscribers are exactly the sockets that were accepted, then asked for it, and did not close since; no market is kept without subscribers |
| ActivityFeedServer.MarketRateLimiter.Allow | backend/src/websocket/realtime.ts:31-41 | Is the specified step and verdict |
| ActivityFeedServer.ActivityFeed.OnConnection | backend/src/websocket/realtime.ts:57-70 | A socket is authenticated exactly when its token is good |
| ActivityFeedServer.ActivityFeed.HandleMessage | backend/src/websocket/realtime.ts:83-99 | Is the specified step |
| ActivityFeedServer.ActivityFeed.RemoveSocket | backend/src/websocket/realtime.ts:101-108 | The loop, which deletes from the map it walks, takes the socket out of every set, drops the sets left empty and changes nothing else |
| ActivityFeedServer.ActivityFeed.Publish | backend/src/websocket/realtime.ts:111-122 | An admitted event goes to exactly the market's subscribers whose connection is open, a refused one to nobody |

## Left out

- Signatures: authorisation is a set of signers per call, an Ed25519 check is a given verdict, and the market never signs for itself or serves as its own treasury.
- Several tokens: `place_bet` and the claims take the token from the caller; the model fixes one token per market. Tokens sent to a market outside `place_bet` are not modelled; they would add to its balance.
- Soroban details: TTL extension, upgrades, event emission, argument decoding, missing storage keys after `initialize`, second initialisation.
- Market configuration setters (`set_dispute_window`, `set_min_liquidity`), market ids, match ids, and the `oracle_used` field, which no modelled rule reads.
- MarketContract.Market: the class runs calls without callbacks; reentrant runs are covered by the step machine, and sums of one bettor's own records are unbounded because a bettor has one record.
- Constant-product odds, trade caps and liquidity-provider fees of the AMM module: the coded odds do not keep the documented product, and only minor bounds are true of them.
- TreasuryContract.Treasury: whether a transfer goes through is an input, so the balances of depositors and withdrawal destinations are not tracked there; `FeeFlow` tracks the treasury's own.
- FeeFlow.JointBooks: one token, a fixed set of markets with valid configurations, calls without callbacks, and a treasury contract that signs nothing. Tokens that anybody else sends to the treasury are not modelled; they would add to its balance. Neither is what a withdrawal to a market's address would add to that market.
- TreasuryContract.Treasury.AddMarket: approval by the admin and registration share it; the approved list is compared as a set.
- FactoryContract.MarketFactory: oracle, pause and code-hash operations exist in the specification and its runs only; `list_markets`, `get_user_positions_all` and `upgrade_all_markets` are not modelled, and fights are reduced to their time and names.
- LockProtocol.OneLeaseHolder: identifiers are assumed unique, leases are measured on the server's clock, and Redis is one server.
- AuthRuns.SafeWhenShortLived: operations are atomic and complete there; interleaving and faults are modelled in `ResetRace`, for one user without two-factor login, where sessions have one lifetime. Registration keeps only what sessions need; e-mail, hashing, one-time codes and roles are given verdicts or omitted.
- InvoicePolling.CrashSafe: positions are counts of log events, and a start at the latest ledger is a position given with the poll; health counters and backoff delays are not modelled.
- ChainAgreement.RowMatchesContract: the contract emits a side as an enumeration inside a struct; decoding it to the handler's spelling, such as `fighter_a`, is assumed, and the decoder is not modelled.
- InvoiceIndexer.Indexer.ProcessEvent: events whose payload cannot be decoded are logged and skipped by the code; here they are `Ignored`.
- Delivery.PoolsCountDeliveries: the stream holds the bets alone; other handlers of the chain indexer, the copy in the raw events table, events that fail inside their handler, and which contracts the query's filter names are not modelled.
- Csv.RowsRoundTrip: cells start as text or nothing, so the conversion of numbers and dates to text is not modelled; the reader ends rows at line feeds only, since the writer leaves a carriage return at the end of a field unquoted.
- TokenAmounts.FormatParseRoundTrip: negative amounts and the conversion of a JavaScript number to text are not modelled; signs are outside the parser's stated input.
- MarketViews.LiveRowTracksIff: the debounce timer is not modelled, and a trade event's amount in stroops is given, since the code rounds a floating-point product.
- ActivityFeedServer.ActivityFeed: socket input and output, JSON and token verification are inputs.
- External result fetching, cron jobs, MarketService and BetService helpers, user profiles, admin pages and React components.
