# Verified model of the Siakang API

A Dafny model of the parts of the API whose correctness is easiest to lose: the
marketplace money protocol, the approval chain, and five small stateful
algorithms. `dafny verify dfyconfig.toml` checks all of it.

## The marketplace money protocol

Orders and bids move money between wallets and an append-only ledger. Twelve
kinds of transaction run at the same time, held apart only by row locks
(`SELECT ... FOR UPDATE`), guarded updates and the order of their statements.

| file | role |
|---|---|
| `Common.dfy`, `MarketTables.dfy` | the tables, row writes, totals of an order's lines |
| `MarketDecisions.dfy` | what each request does when it runs alone |
| `MarketMeaning.dfy` | what each request means to its caller, in the rows themselves: every refusal with its exact condition, and the rows success leaves |
| `MarketInvariants.dfy` | what holds of the committed tables at any moment |
| `MarketPreservation.dfy`, `MarketOrderKeeps.dfy`, `MarketBidKeeps.dfy`, `MarketAtomic.dfy` | every request, run alone, keeps the invariants |
| `MarketMachine.dfy` | every request as a statement-by-statement program under locks, crashes included; a run is any list of events |
| `MarketTxInvariant.dfy`, `MarketSteps.dfy` | what a running transaction may rely on, kept by each of its statements |
| `MarketFrames.dfy`, `MarketStability.dfy` | what a commit may change, and that it disturbs no other transaction |
| `MarketSafety.dfy`, `MarketHistory.dfy` | safety of every run, and what can never be undone |
| `MarketOverlay.dfy`, `MarketAhead.dfy`, `MarketEffects.dfy`, `MarketSerial.dfy` | the serial order of a run |
| `MarketBooks.dfy`, `MarketMarks.dfy`, `MarketFees.dfy` | what the requests of a run add up to, and what each of them leaves for good |
| `MarketDeadlock.dfy` | lock order and deadlock freedom |
| `MarketOutcomes.dfy` | the machine refuses exactly when the request alone does, and can do all that requests decide |
| `MarketGuarantees.dfy` | the services' promises one by one, each for every run: where to start reading |
| `MarketSweep.dfy`, `MarketBacklog.dfy` | the auto-confirm sweeper, alone and among all the other transactions |
| `OrderTotals.dfy`, `MarketTransaction.dfy`, `MarketService.dfy` | the totals' loop, the repositories and the services as classes, tied to the decisions |

Statements see the committed rows with the transaction's own writes on top (READ
COMMITTED), locks last until commit or rollback, and a rollback may strike
anywhere. The unique indexes and check constraints that the schema adds as
backstops (non-negative wallets, one order per bid, one awarded offer per bid) are
not part of the machine: the theorems show they are never needed. Only the ban on
zero ledger amounts is modelled, because the code relies on it.

Assumptions: prices, budgets, offer amounts, fees and the confirmation window are
not negative; lapak profiles are fixed, so a user is a customer or a lapak for a
whole run; opening balances are given; uuids are new; the clock does not run
backwards.

## The approval chain

`ApprovalConfigs.dfy` and `ApprovalFlow.dfy`: which level lists are accepted, with
the 16-bit arithmetic written out, and the life of a request. The service takes no
row lock, so calls run one after the other here. The level check refuses a valid
chain of 32767 levels, because its counter wraps, and does not look at longer
lists at all; `AcceptsExactlyChains` says when it does what it is for. Submissions
read the stored configurations, and `EveryOfficeRunKeepsShape` is about both at once.

## Smaller algorithms

`RateLimit.dfy` (the cleanup forgets after ten minutes whatever the window is, so
the sliding bound and the invisibility of the cleanup hold exactly for windows up
to ten minutes; attempts are counted since the last pause, not within the last window,
and `AllowedIff` says when one is allowed), `Hub.dfy`, `CompanyTree.dfy`, `UserBranches.dfy` (which calls the
company tree's own query) and `Permissions.dfy` (claims are split at their first
colon, so the round trip holds exactly for resources without one).

## Model

| member | source | states |
|---|---|---|
| MarketGuarantees.EveryRunIsSerializable | internal/modules/market/order/service/order.service.go:205-314 | whatever the interleaving, waiting and crashing, the final tables are those left by the committed transactions run one at a time, each exactly once and each to its commit; Pay takes its place at its sum of unpaid lines, every other transaction at its commit |
| MarketGuarantees.EveryRunIsExplained | internal/modules/market/order/service/order.service.go:100-616 | the same without the machine's own terms: in that order every request does what it means to its caller, row by row, and a book kept of the requests alone agrees with the final tables on every budget, fee and offer and on what the lines of every order add up to |
| MarketGuarantees.OrderIsRealTime | internal/modules/market/order/service/order.service.go:205-616 | the serial order respects real time: a transaction that committed before another began comes before it |
| MarketGuarantees.EveryEndIsDecided | internal/modules/market/order/service/order.service.go:205-616 | in every run a transaction refuses, finds nothing to do, or (Pay apart, which is placed at its sum) commits exactly as its request would alone on the tables committed at that moment, error for error |
| MarketGuarantees.EveryEndIsMeant | internal/modules/market/order/service/order.service.go:205-616 | in every run, said of the table fields: each refusal of each of the twelve requests is given exactly when its own reason holds on the committed tables, and a commit (Pay apart) leaves exactly the rows, fields and ledger entries the request means |
| MarketGuarantees.PaymentRefusedExactly | internal/modules/market/order/service/order.service.go:219-243 | in every run a payment that fails answers not found exactly when the order is missing or another's, nothing outstanding exactly when its unpaid lines sum to zero, and the 402 exactly when they sum to more than the wallet holds (zero without a row); at its sum it fails exactly when one of these holds |
| MarketGuarantees.RequestAloneIsMeant | internal/modules/market/bid/service/bid.service.go:90-235 | any request begun when nothing else runs ends by its own statements with the answer and the rows it means |
| MarketOutcomes.RequestRunsAlone | internal/modules/market/bid/service/bid.service.go:149-179 | from a state of a run with nothing running, any request ends by its own statements with exactly its decision: a commit of what it decides, or, for a 402 and every other refusal, a rollback that leaves every table as it was |
| MarketSafety.EveryRunIsSafe | internal/modules/market/order/service/order.service.go:205-616 | from any opening balances every reachable state of the interleaved machine satisfies all table invariants (wallets, ledger, payments, payouts, bids, offers, conservation) |
| MarketGuarantees.EveryRunCanFinish | internal/modules/market/order/service/order.service.go:534-616 | after every run all running transactions can be brought to an end by steps of their own alone: no circle of lock waits exists |
| MarketDeadlock.AllCanFinish | internal/modules/market/order/service/order.service.go:534-616 | the same from any state that satisfies the run invariant, by the statements left |
| MarketDeadlock.SomeoneCanStep | internal/modules/market/bid/service/bid.service.go:471-580 | following who-waits-for-whom from any running transaction ends at one that can step |
| MarketDeadlock.LocksInOrder | internal/modules/market/bid/service/bid.service.go:480-505 | every statement that waits for a row lock holds only locks of lower rank: bid, customer wallet, order, lapak wallet |
| MarketGuarantees.MoneyIsConserved | internal/modules/market/order/service/order.service.go:246-286 | in every reachable state wallets + paid lines of unfinished orders + bid fees equal the opening total |
| MarketGuarantees.LedgerReplaysWallet | internal/modules/market/order/repository/order.repository.go:430-519 | in every reachable state each ledger chains from the opening balance, its last balance_after is the wallet, and no balance is negative |
| MarketGuarantees.NoDoubleCharge | internal/modules/market/order/service/order.service.go:219-286 | in every reachable state the payments of an order partition its paid lines, each amounts to exactly the lines pointing at it, together they are the paid total, and the customer's ledger shows exactly these charges |
| MarketGuarantees.PayoutExactlyOnce | internal/modules/market/order/service/order.service.go:534-616 | in every reachable state an order has one payout row, of its total, in the ledger of the user behind its lapak, exactly when it is completed |
| MarketGuarantees.NeverHalfPaidNeverEarly | internal/modules/market/order/service/order.service.go:403-477 | an order awaiting confirmation or completed has nothing outstanding; the deadline is there exactly in those states; auto_confirmed only with completed_at at or after it |
| MarketGuarantees.OneOrderPerBid | internal/modules/market/bid/service/bid.service.go:316-380 | a bid has a tracked order exactly when accepted or awarded, then exactly one, with one line at the budget or at the one awarded offer |
| MarketGuarantees.AcceptedOrderCostsBudget | internal/modules/market/bid/service/bid.service.go:172-179 | in every run the order tracked for a matched bid costs the budget its customer posted |
| MarketGuarantees.AwardedOrderCostsOffer | internal/modules/market/bid/service/bid.service.go:471-560 | in every run an awarded order costs what that lapak last offered in the serial order, and the customer's ledger shows the fee of that award, once |
| MarketGuarantees.EveryCommitLeavesItsMark | internal/modules/market/bid/service/bid.service.go:90-580 | in every run each committed request's own values stay on its rows: price times quantity on the first line, budget, mode, match and fee on the bid, deadline = start + window, completed_at = start with auto_confirmed only from the sweeper |
| MarketGuarantees.FeesMatchLedger | internal/modules/market/bid/service/bid.service.go:149-235 | the ledger amounts naming a bid sum to minus its fee_paid_idr for its customer and to zero for everyone else; the fee is zero exactly for open and no_match |
| MarketGuarantees.FeeRowsByKind | internal/modules/market/bid/service/bid.service.go:187-222 | in every run, by kind: one platform_fee row of minus the fee while the bid claims it, a platform_fee and an equal refund for no_match, neither while open and none on any other ledger |
| MarketGuarantees.PaymentsArePaid | internal/modules/market/order/domain/order.go:103-124 | payments that each equal their lines add up to the paid total |
| MarketHistory.EventMovesOneStep | internal/modules/market/order/repository/order.repository.go:710-831 | one event moves an order at most one step along pending_payment, paid, awaiting_confirmation, completed, and a bid at most one step along its path |
| MarketHistory.RunGoesOnward | internal/modules/market/order/service/order.service.go:403-616 | from any moment to any later one: ledgers only grow, deadlines and payments stay, lines keep their prices, a completed order and a settled bid with its offers are final |
| MarketHistory.TrackedForever | internal/modules/market/bid/service/bid.service.go:586-605 | a tracked order stays the only order of its bid, with its single line at its price |
| MarketHistory.OnlySweepAutoConfirms | internal/modules/market/order/service/order.service.go:627-645 | only the sweeper's transaction ever turns auto_confirmed on |
| MarketGuarantees.EveryBacklogIsWorkedOff | internal/modules/market/order/service/order.service.go:627-651 | in every run: n orders awaiting confirmation with a deadline at or before a cutoff that has passed, with m completions of work under way that will join them, are all completed once the batches of (n + m)/100 ticks, rounded up, have been worked off, whatever other transactions interleave with the sweeper's |
| MarketBacklog.RoundCompletes | internal/modules/market/order/service/order.service.go:534-616 | an order of a batch whose payout ended, and not by a crash, is completed, whoever completed it |
| MarketBacklog.CommitBacklog | internal/modules/market/order/repository/order.repository.go:710-729 | a commit adds to the backlog at most the one order whose completion sets a deadline that has passed |
| MarketBacklog.RoundWorksOff | internal/modules/market/order/repository/order.repository.go:843-874 | a tick worked off takes all of the backlog, or a whole batch off what is owed |
| MarketSweep.BacklogIsSwept | internal/modules/market/order/service/order.service.go:627-651 | without interleaving: orders awaiting confirmation with a deadline at or before a cutoff are all completed and auto-confirmed after ceil(n/100) ticks, even if later orders fall due meanwhile, and no order due then is left |
| MarketSweep.DueIsSwept | internal/modules/market/order/service/order.service.go:627-651 | when at most a hundred orders are due, the next tick completes exactly these, auto-confirmed, at or after its look, and leaves every other order as it was |
| MarketSweep.FewAreAllPicked | internal/modules/market/order/repository/order.repository.go:843-874 | with at most a hundred orders whose deadline is not in the future, a batch is exactly these |
| MarketSweep.SweepCompletes | internal/modules/market/order/service/order.service.go:636-645 | a tick completes every order it picks, once each, at the clock of its own transaction, touches no other and keeps every invariant |
| MarketSweep.SweepCountsAll | internal/modules/market/order/service/order.service.go:636-645 | a tick fails on none of the orders it picks |
| MarketSweep.BatchFromBacklog | internal/modules/market/order/repository/order.repository.go:843-874 | because the earliest deadlines are picked first, a tick takes a whole batch off the backlog, or all of it |
| MarketAtomic.DecisionKeeps | internal/modules/market/order/service/order.service.go:100-616 | each of the twelve requests, run alone to its commit, keeps every table invariant |
| MarketAtomic.AfterKeeps | internal/modules/market/bid/service/bid.service.go:149-179 | a request run alone, committed or refused, keeps every invariant |
| MarketMeaning.DecisionMeans | internal/modules/market/order/service/order.service.go:100-616 | each of the twelve requests run alone does what it means: every error exactly under its own condition on the rows, and on success exactly the new rows, spelled out field by field |
| MarketBooks.EntryAgrees | internal/modules/market/bid/service/bid.service.go:172-173 | a request that succeeds changes budgets, fees, offers and order totals exactly as an entry made from the request alone |
| MarketBooks.BooksAgree | internal/modules/market/order/service/order.service.go:100-390 | the books kept of a list of requests agree with the tables the requests lead to |
| MarketMarks.MarkMade | internal/modules/market/order/service/order.service.go:205-616 | every commit leaves the mark of its request |
| MarketMarks.MarkKept | internal/modules/market/order/service/order.service.go:205-616 | no other commit takes the mark away |
| MarketFees.CommitKeepsFees | internal/modules/market/bid/service/bid.service.go:187-222 | every commit keeps the fee and refund rows of every bid right, kind by kind |
| MarketSteps.PayStep | internal/modules/market/order/service/order.service.go:219-289 | every statement of Pay keeps what the payment rests on, and after the sum it cannot fail: the "items changed" and "no wallet" branches are dead |
| MarketSteps.PayoutStep | internal/modules/market/order/service/order.service.go:538-603 | every statement of the payout keeps what it rests on, and once the order is found awaiting it can only reach its commit: the zero payout and "status changed" branches are dead |
| MarketSteps.AddItemStep | internal/modules/market/order/service/order.service.go:329-390 | the locked status and gig are still the order's when the line is inserted |
| MarketSteps.CompleteStep | internal/modules/market/order/service/order.service.go:403-458 | nothing becomes outstanding between the check and the guarded update, which always finds the row |
| MarketSteps.PostAutoStep | internal/modules/market/bid/service/bid.service.go:149-235 | the fee is on the ledger before the match is used, and from then on the bid only goes on to its lapak or to its refund |
| MarketSteps.AcceptBidStep | internal/modules/market/bid/service/bid.service.go:316-358 | the bid stays customer_confirmed until it is advanced: the "bid changed" branch is dead |
| MarketSteps.AwardStep | internal/modules/market/bid/service/bid.service.go:471-560 | under the bid lock the offer, the fee and the bid are written as read; no failure is possible after the offer is taken |
| MarketSteps.ConfirmBidStep | internal/modules/market/bid/service/bid.service.go:262-290 | the guarded status change always finds the locked bid as it was read |
| MarketSteps.PlaceOfferStep | internal/modules/market/bid/service/bid.service.go:386-418 | an offer is written only while the locked bid is open and manual |
| MarketFrames.TxDecides | internal/modules/market/order/service/order.service.go:205-616 | at its commit every transaction but Pay writes exactly what its request does alone on the committed tables |
| MarketFrames.TxCommit | internal/modules/market/order/repository/order.repository.go:430-831 | every commit changes only rows under the locks it holds, adds no foreign ids, reprices nothing and undoes no payment |
| MarketFrames.CommitKeeps | internal/modules/market/order/service/order.service.go:205-616 | every commit, Pay with a possibly stale set of unpaid lines included, keeps every table invariant |
| MarketOutcomes.TxEnds | internal/modules/market/order/service/order.service.go:205-616 | the case analysis behind it: each error branch of each transaction, with the locks it holds |
| MarketOutcomes.BalanceStable | internal/modules/market/order/repository/order.repository.go:430-444 | a customer found without a wallet row holds no lock, and still the zero it read stays right until the check |
| MarketOutcomes.CommitOpensNoWallet | internal/modules/market/order/repository/order.repository.go:793-808 | only a payout opens a wallet row, and only for a lapak |
| MarketStability.TxStable | internal/modules/market/order/repository/order.repository.go:430-540 | what a running transaction has read and relies on survives the commit of any other, whose locks are disjoint |
| MarketSafety.ExecKeeps | internal/modules/market/order/service/order.service.go:205-616 | one event of the machine (begin, statement, crash, clock, sweeper look) keeps the run invariant |
| MarketSerial.RunReplays | internal/modules/market/order/service/order.service.go:205-314 | induction behind serializability: the tables ahead of all charges under way follow the serial order |
| MarketSerial.EachTakesEffectOnce | internal/modules/market/order/service/order.service.go:205-314 | the serial order lists each committed transaction exactly once and no other |
| MarketEffects.SumTakesEffect | internal/modules/market/order/repository/order.repository.go:453-467 | at its sum a payment decides, on the tables with all charges under way made, exactly what it found |
| MarketEffects.EffectSimulates | internal/modules/market/order/service/order.service.go:246-298 | where a transaction takes effect, the tables with all charges under way made move exactly as that request moves them alone |
| MarketEffects.QuietSimulates | internal/modules/market/order/service/order.service.go:205-616 | every other event, the commit of a payment and the rollback of any transaction included, leaves those tables where they are |
| MarketAhead.DecideAhead | internal/modules/market/order/service/order.service.go:329-616 | every other request decides and writes the same whether or not the charges under way are made |
| MarketOverlay.AheadCommit | internal/modules/market/order/service/order.service.go:283-298 | a payment's commit brings the committed tables to what was already counted, also when lines were added in between |
| MarketOverlay.AheadWrites | internal/modules/market/order/repository/order.repository.go:137-172 | writes off the charges under way commute with them; a line may join an order being charged |
| MarketOrderKeeps.PayKeeps | internal/modules/market/order/service/order.service.go:246-286 | charging any unpaid lines of the order keeps every invariant |
| MarketOrderKeeps.PayoutKeeps | internal/modules/market/order/service/order.service.go:567-592 | the payout keeps every invariant |
| MarketOrderKeeps.AddItemKeeps | internal/modules/market/order/service/order.service.go:329-390 | the upsell line keeps every invariant |
| MarketOrderKeeps.CompleteKeeps | internal/modules/market/order/service/order.service.go:403-458 | the move to awaiting_confirmation keeps every invariant |
| MarketBidKeeps.AcceptKeeps | internal/modules/market/bid/service/bid.service.go:316-358 | accepting with its tracked order keeps every invariant |
| MarketBidKeeps.AwardKeeps | internal/modules/market/bid/service/bid.service.go:519-555 | awarding with its fee and tracked order keeps every invariant |
| MarketBidKeeps.UnmatchedKeeps | internal/modules/market/bid/service/bid.service.go:196-222 | a fee charged and refunded in one transaction keeps every invariant |
| MarketBidKeeps.PlaceOfferKeeps | internal/modules/market/bid/service/bid.service.go:386-418 | placing or replacing an offer keeps every invariant |
| MarketTables.PaidPlusOutstanding | internal/modules/market/order/domain/order.go:103-114 | paid plus outstanding is the total |
| MarketTables.StampMovesMoney | internal/modules/market/order/repository/order.repository.go:524-536 | marking lines paid moves exactly their sum from outstanding to paid |
| OrderTotals.Sum | internal/modules/market/order/domain/order.go:116-124 | the loop sums exactly the lines keep accepts |
| OrderTotals.TotalOf | internal/modules/market/order/domain/order.go:103-103 | the total of all lines |
| OrderTotals.PaidOf | internal/modules/market/order/domain/order.go:106-108 | the total of the paid lines |
| OrderTotals.OutstandingOf | internal/modules/market/order/domain/order.go:112-114 | the total of the unpaid lines |
| MarketService.OrderService.Create | internal/modules/market/order/service/order.service.go:100-185 | ordering an unknown row or as a lapak is refused and changes nothing; otherwise one pending order of one unpaid line at price times quantity (at least one), or at a tier's price; statement by statement the tables and answer of the request PlaceOrder |
| MarketService.OrderService.PayOrder | internal/modules/market/order/service/order.service.go:205-314 | refused exactly when the order is missing or another's, has nothing unpaid, or costs more than the wallet holds, each with its own error and no change; otherwise one payment of the unpaid sum, its lines stamped, the wallet and ledger moved by it, the order paid and its thread open |
| MarketService.OrderService.AddOrderItem | internal/modules/market/order/service/order.service.go:329-390 | each of the five refusals exactly under its condition (the gig is that of the first line that has one); otherwise one unpaid line at the tier's price and nothing else |
| MarketService.OrderService.CompleteWork | internal/modules/market/order/service/order.service.go:403-477 | each refusal exactly under its condition; otherwise only the status and the deadline, now plus the window, change |
| MarketService.OrderService.ConfirmOrder | internal/modules/market/order/service/order.service.go:490-506 | only the customer's own order is paid out, not auto-confirmed; others are told not yours or not found, with no change |
| MarketService.OrderService.CompleteOrder | internal/modules/market/order/service/order.service.go:534-616 | for either caller: an awaiting order becomes completed now, with what was paid for it credited and listed for the user behind its lapak; a completed one is left as it is; anything else is refused |
| MarketService.OrderService.Sweep | internal/modules/market/order/service/order.service.go:627-651 | picks only orders awaiting confirmation at or past their deadline, earliest first, a hundred at most and none left out while there is room; in reachable tables completes every one of them, auto-confirmed at or after the look, counts them all and touches no other order |
| MarketService.FindOverdueOrders | internal/modules/market/order/repository/order.repository.go:843-874 | only orders awaiting confirmation with a deadline at or before now, up to 100, none twice, and none left out while there is room or for one with a later deadline |
| MarketTransaction.Transaction.LockWalletForUpdate | internal/modules/market/order/repository/order.repository.go:430-444 | the balance of the wallet row, zero without one |
| MarketTransaction.Transaction.SumUnpaid | internal/modules/market/order/repository/order.repository.go:453-467 | the outstanding amount and exactly the unpaid lines it covers |
| MarketTransaction.Transaction.MarkItemsPaid | internal/modules/market/order/repository/order.repository.go:524-536 | marks the still unpaid lines among the ids and counts them |
| MarketTransaction.Transaction.AdvanceOrder | internal/modules/market/order/repository/order.repository.go:545-556 | the guarded status update: no effect unless the row is in the expected status |
| MarketTransaction.Transaction.CreditWallet | internal/modules/market/order/repository/order.repository.go:793-808 | adds to the wallet, creating it when missing, and returns the new balance |
| MarketTransaction.Transaction.InsertLedgerEntry | internal/modules/market/order/repository/order.repository.go:509-520 | appends the row; a zero amount is refused |
| MarketTransaction.Transaction.MoveWallet | internal/modules/market/bid/repository/bid.repository.go:189-205 | a signed move of an existing wallet, returning the new balance |
| MarketTransaction.Transaction.AdvanceBid | internal/modules/market/bid/repository/bid.repository.go:373-385 | the guarded status update of a bid |
| MarketTransaction.Transaction.UpsertOffer | internal/modules/market/bid/repository/bid.repository.go:613-642 | one row per lapak and bid; posting again replaces the amount and resets to pending; tells whether the row is new |
| MarketTransaction.Transaction.MarkOfferAwarded | internal/modules/market/bid/repository/bid.repository.go:707-719 | flips a pending offer only |
| MarketService.BidService.CreateManual | internal/modules/market/bid/service/bid.service.go:90-132 | an open manual bid of the caller with the budget asked for and no fee, or the refusal |
| MarketService.BidService.CreateAuto | internal/modules/market/bid/service/bid.service.go:149-235 | each refusal, the 402 included, exactly under its condition and with no change; otherwise a bid of the caller with the budget asked for: proposed to the match with the fee kept from the wallet and listed, or no_match with fee 0, the wallet as before and the fee and its refund listed |
| MarketService.BidService.ConfirmProposal | internal/modules/market/bid/service/bid.service.go:262-300 | each refusal exactly under its condition, with 403 for those who may read the bid and 404 for the rest; otherwise only the status moves |
| MarketService.BidService.Accept | internal/modules/market/bid/service/bid.service.go:316-380 | each refusal exactly under its condition; otherwise the bid is accepted and an order of one line at its budget, with its thread, tracks it |
| MarketService.BidService.PlaceOfferOn | internal/modules/market/bid/service/bid.service.go:386-431 | each refusal exactly under its condition; otherwise the lapak's one offer on the bid is pending at the amount asked, telling a new one from a replaced one |
| MarketService.BidService.AwardOffer | internal/modules/market/bid/service/bid.service.go:471-580 | each refusal, the 402 included, exactly under its condition and with no change; otherwise fee, ledger row, offer, bid and the order at the offer's amount, as one |
| MarketService.BidService.CreateTrackedOrder | internal/modules/market/bid/service/bid.service.go:586-605 | the order, its one line and its thread |
| ApprovalFlow.EveryOfficeRunKeepsShape | internal/modules/core/approval/service/approval_request.service.go:79-409 | whatever configurations are created, changed and deleted while requests are submitted, approved, rejected and cancelled: every stored chain is a permutation of 1..N and every request has its chain shape |
| ApprovalFlow.EveryEndHasItsActor | internal/modules/core/approval/service/approval_request.service.go:208-409 | in every such run a cancelled request was ended by its submitter, a rejected one by the user on its rejected row, an approved one by the approver of its last level (its submitter without levels), all named by the snapshot; a waiting one by nobody |
| ApprovalFlow.ActMeant | internal/modules/core/approval/service/approval_request.service.go:79-409 | every act of such a run, said of the two tables: who may do it, what everybody else is told, and which fields change |
| ApprovalFlow.CallMeant | internal/modules/core/approval/service/approval_request.service.go:79-409 | every call does what it means, row by row, and is refused exactly under each error's own condition |
| ApprovalFlow.OfficeKeepsSnapshot | internal/modules/core/approval/service/approval_request.service.go:136-163 | changes to the configurations never reach a request already submitted |
| ApprovalFlow.ActKeeps | internal/modules/core/approval/service/approval_request.service.go:89-101 | each change and each call keeps both; what a submission snapshots is a valid chain; the missing-level branch is never taken |
| ApprovalFlow.EveryRunKeepsShape | internal/modules/core/approval/service/approval_request.service.go:79-409 | in every serial run every request keeps its chain shape (waiting at k, approved, rejected at k, cancelled at k) and a document waits on one request at most |
| ApprovalFlow.CallKeeps | internal/modules/core/approval/service/approval_request.service.go:208-284 | each call keeps the shape of every request |
| ApprovalFlow.CurrentRowExists | internal/modules/core/approval/service/approval_request.service.go:225-235 | the branch for a missing current-level row is dead |
| ApprovalFlow.AtMostNActions | internal/modules/core/approval/service/approval_request.service.go:252-270 | at most N calls ever act on a request of N levels |
| ApprovalFlow.FinalStays | internal/modules/core/approval/service/approval_request.service.go:215-217 | a request that no longer waits never changes again |
| ApprovalFlow.SnapshotStays | internal/modules/core/approval/service/approval_request.service.go:136-163 | levels and eligible users are those snapshotted at submission, for ever |
| ApprovalFlow.ApproveOk | internal/modules/core/approval/repository/approval_request.repository.go:288-319 | marking the level and advancing, or finishing, keeps the shape |
| ApprovalFlow.RejectOk | internal/modules/core/approval/service/approval_request.service.go:338-350 | rejecting gives an approved prefix, one rejected level and the rest skipped |
| ApprovalFlow.CancelOk | internal/modules/core/approval/service/approval_request.service.go:402-408 | cancelling gives an approved prefix and the rest skipped |
| ApprovalFlow.ApprovalService.SubmitRequest | internal/modules/core/approval/service/approval_request.service.go:79-175 | refused exactly when a request on the document waits; otherwise snapshots, level by level, the chain of the scope's active configuration, waiting at level 1, or is approved at once without levels |
| ApprovalFlow.ApprovalService.ApproveRequest | internal/modules/core/approval/service/approval_request.service.go:208-284 | refused with each error exactly under its condition; otherwise only the current level's row is approved by the caller, and the request moves on or, at the last level, is approved |
| ApprovalFlow.ApprovalService.RejectRequest | internal/modules/core/approval/service/approval_request.service.go:309-360 | refused with each error exactly under its condition; otherwise the current level is rejected by the caller, the pending ones skipped and the request rejected |
| ApprovalFlow.ApprovalService.CancelRequest | internal/modules/core/approval/service/approval_request.service.go:380-409 | the submitter cancels a waiting request, skipping its pending levels; anyone else, and any other status, is refused with its own error and both tables stay as they were |
| ApprovalFlow.ApprovalService.ContainsId | internal/modules/core/approval/service/approval_request.service.go:488-495 | found exactly when listed |
| ApprovalFlow.ApprovalService.CurrentRow | internal/modules/core/approval/service/approval_request.service.go:225-232 | the first row of the level, if any |
| ApprovalConfigs.AcceptsExactlyChains | internal/modules/core/approval/service/approval_config.service.go:178-193 | with levels of at least 1 the check accepts exactly the permutations of 1..N with N below 32767 |
| ApprovalConfigs.ValidateLevelInputs | internal/modules/core/approval/service/approval_config.service.go:178-193 | accepts and reports duplicates exactly as characterised, 16-bit wrap-around included |
| ApprovalConfigs.NoOtherLevel | internal/modules/core/approval/service/approval_config.service.go:187-191 | once all of 1..N are found no other level can be there: why a chain of 32767 is refused when the counter wraps |
| ApprovalConfigs.MissesLevel | internal/modules/core/approval/service/approval_config.service.go:187-191 | the second loop, with its 16-bit counter, for every list |
| ApprovalConfigs.ChangeKeeps | internal/modules/core/approval/service/approval_config.service.go:69-176 | every change keeps the stored configurations: valid chains, known features, one live configuration per scope |
| ApprovalConfigs.ChangeMeant | internal/modules/core/approval/service/approval_config.service.go:69-176 | every change is carried out exactly when its conditions on the rows hold and leaves exactly the row it means |
| ApprovalConfigs.ConfigStore.Create | internal/modules/core/approval/service/approval_config.service.go:69-112 | stores one of the nine features with a valid chain, one live configuration per scope, and exactly then; each refusal has its reason and stores nothing |
| ApprovalConfigs.ConfigStore.Update | internal/modules/core/approval/service/approval_config.service.go:114-163 | replaces only what is given, in a live configuration of the company, by valid chains only |
| ApprovalConfigs.ConfigStore.Delete | internal/modules/core/approval/repository/approval_config.repository.go:266-274 | marks a live configuration of the company deleted, keeping its levels |
| ApprovalConfigs.ConfigStore.FindActive | internal/modules/core/approval/repository/approval_config.repository.go:122-148 | the active configuration of the scope, the only one there is |
| ApprovalConfigs.ActiveChainStored | internal/modules/core/approval/service/approval_request.service.go:89-101 | the chain a submission finds is a stored one, that of the scope's active configuration, or empty |
| RateLimit.SlidingBound | internal/middleware/rate_limit.go:83-121 | over every trace with a clock that does not run backwards, an identifier is allowed at most rate times in any interval of window length |
| RateLimit.BoundWithCleanupIff | internal/middleware/rate_limit.go:47-62 | with cleanups at arbitrary times the bound holds of all traces exactly when the window is at most ten minutes (or the rate is not positive) |
| RateLimit.CleanupUnobservableIff | internal/middleware/rate_limit.go:47-62 | the answers never show that a cleanup ran, for any trace, exactly under the same condition |
| RateLimit.LockHolds | internal/middleware/rate_limit.go:100-103 | nothing is allowed before lockedUntil, cleanups included |
| RateLimit.RefusalLocks | internal/middleware/rate_limit.go:112-118 | an answer refused by count names the lockout, and nothing is allowed for that long |
| RateLimit.AllowedIff | internal/middleware/rate_limit.go:99-120 | an attempt is allowed exactly when the identifier is not locked and has made fewer than rate attempts since its last pause longer than the window |
| RateLimit.RateIsAllowed | internal/middleware/rate_limit.go:105-120 | after such a pause, or when new, the next rate attempts are all allowed, however they fall and whenever the cleanup runs |
| RateLimit.SteadyAttemptsRefused | internal/middleware/rate_limit.go:105-118 | fewer than rate attempts in the last window do not suffice: attempts are counted since the last pause, so a steady trickle is refused |
| RateLimit.RateLimiter.Allow | internal/middleware/rate_limit.go:83-121 | the new record and the answer, field by field: locked, over the rate (and then locked for the lockout), or allowed |
| RateLimit.RateLimiter.CleanupVisitors | internal/middleware/rate_limit.go:47-62 | removes exactly the unlocked identifiers not seen for more than ten minutes, and changes no other |
| RateLimit.RateLimiter.Reset | internal/middleware/rate_limit.go:124-132 | clears attempts and lock of a known identifier and nothing else |
| Hub.DeliveredInOrder | internal/modules/market/chat/service/hub.go:76-90 | for every interleaving, what a stream read and what waits for it is an in-order, duplicate-free subsequence of what was published on its thread while subscribed, missing exactly what found sixteen waiting |
| Hub.NothingLostWithRoom | internal/modules/market/chat/service/hub.go:76-90 | a stream that never has sixteen waiting at a publish misses nothing |
| Hub.SubscribersAreRight | internal/modules/market/chat/service/hub.go:37-70 | the subscriber map holds exactly the streams opened on the thread, by the events alone, and not closed there since |
| Hub.PublishedArrives | internal/modules/market/chat/service/hub.go:76-90 | a message published between a stream's opening and closing on its thread, with room in its channel, is read or waits, in its place |
| Hub.ClosedIsSilent | internal/modules/market/chat/service/hub.go:55-70 | after the closing nothing is offered to the stream any more |
| Hub.EveryRunIsGood | internal/modules/market/chat/service/hub.go:37-70 | no thread keeps an empty subscriber map and no channel exceeds its buffer |
| Hub.ChatHub.SubscribeStream | internal/modules/market/chat/service/hub.go:37-47 | a new, empty channel, registered on the thread beside those already there |
| Hub.ChatHub.UnsubscribeStream | internal/modules/market/chat/service/hub.go:55-65 | the stream leaves, the count is returned, an empty thread is dropped |
| Hub.ChatHub.PublishMessage | internal/modules/market/chat/service/hub.go:76-90 | appends to every channel registered on the thread with fewer than sixteen waiting and to no other; never waits |
| Hub.ChatHub.Receive | internal/modules/market/chat/service/hub.go:37-47 | a reader takes the oldest message waiting in its channel, or none |
| CompanyTree.EveryRunIsForest | internal/modules/core/company/service/company.service.go:152-300 | any sequence of create, delete, restore and owner transfer keeps a forest in which children have their parent's client |
| CompanyTree.VisibleIffAncestor | internal/modules/core/company/repository/company.repository.go:477-603 | a live company is visible from a live root exactly when it is the root or the root is among its ancestors |
| CompanyTree.DescendantIffAbove | internal/modules/core/company/repository/company.repository.go:523-570 | a live company is a descendant of any company, deleted ones included, exactly when that is the parent of it or of one of its ancestors |
| CompanyTree.VisibleIffDescendant | internal/modules/core/company/repository/company.repository.go:523-603 | a live root sees exactly itself and its descendants |
| CompanyTree.DeletedRootSeesNothing | internal/modules/core/company/repository/company.repository.go:574-603 | a deleted root sees nothing, although its live children are still its descendants |
| CompanyTree.DeleteHides | internal/modules/core/company/repository/company.repository.go:574-603 | deleting a company hides from any other live root exactly what that root saw through it, and shows nothing new |
| CompanyTree.RestoreShows | internal/modules/core/company/repository/company.repository.go:574-603 | restoring is the inverse |
| CompanyTree.OneClientPerTree | internal/modules/core/company/service/company.service.go:279-288 | everything visible from a root, and every descendant of a company, has its client |
| CompanyTree.OneRoundEach | internal/modules/core/company/repository/company.repository.go:574-603 | a downward query finds each member in one round only |
| CompanyTree.CompanyService.VisibleCompanyIds | internal/modules/core/company/repository/company.repository.go:574-603 | terminates and lists exactly the visible companies, each once |
| CompanyTree.CompanyService.GetDescendants | internal/modules/core/company/repository/company.repository.go:523-570 | terminates and lists exactly the descendants, each once |
| CompanyTree.CompanyService.GetAncestors | internal/modules/core/company/repository/company.repository.go:477-521 | terminates and lists the live parent, its live parent and so on to a company without one; nothing for an unknown id |
| CompanyTree.CompanyService.Create | internal/modules/core/company/service/company.service.go:152-259 | a new company hangs under a live parent with its client; without a parent its client is the named one, else that of the caller's live primary company, else the owned one; its owner becomes a member and it gets its default branch; or nothing changes |
| CompanyTree.CompanyService.InsertCompany | internal/modules/core/company/service/company.service.go:197-252 | the owner's membership is primary exactly when the owner had no primary company |
| CompanyTree.MemberJoins | internal/modules/core/company/service/company.service.go:211-236 | owners stay members of what they own, and nobody gets a second primary company |
| CompanyTree.CompanyService.ResolveClientId | internal/modules/core/company/service/company.service.go:279-311 | parent's client, then a super admin's choice, then the primary company's, then the owned one |
| CompanyTree.CompanyService.DeleteCompany | internal/modules/core/company/service/company.service.go:394-404 | only a live company is deleted; its children stay |
| CompanyTree.CompanyService.RestoreCompany | internal/modules/core/company/service/company.service.go:434-463 | only a deleted company is restored |
| CompanyTree.CompanyService.TransferOwner | internal/modules/core/company/service/company.service.go:341-376 | only a super admin changes the owner; the new owner becomes a member if it was none |
| UserBranches.UserBranchService.SyncUserBranches | internal/modules/core/branch/service/user_branch.service.go:96-191 | leaves exactly the requested branches plus, for a caller held to a scope, those outside its visible companies or unresolved; without a scope or a resolver exactly the requested ones; an invalid request changes nothing; a request for what is so changes nothing; other users keep theirs |
| UserBranches.UserBranchService.LeftMeans | internal/modules/core/branch/service/user_branch.service.go:96-191 | what a sync leaves, branch by branch: those asked for, and of those held the ones a scoped caller cannot see or that do not resolve |
| UserBranches.UserBranchService.SyncTwice | internal/modules/core/branch/service/user_branch.service.go:96-191 | a second identical sync changes no row |
| UserBranches.SyncedIsWanted | internal/modules/core/branch/service/user_branch.service.go:96-191 | granting the missing and taking the in-scope extras gives what is wanted, and does nothing when it is already so |
| UserBranches.WantedAgain | internal/modules/core/branch/service/user_branch.service.go:96-191 | a second identical sync wants what the first left |
| UserBranches.UserBranchService.ValidateBranches | internal/modules/core/branch/service/user_branch.service.go:215-246 | accepts exactly lists of existing branches in the caller's scope, which is enforced only with a resolver; otherwise names an offending branch and why |
| UserBranches.UserBranchService.RemoveExtras | internal/modules/core/branch/service/user_branch.service.go:169-188 | takes away exactly the held, unwanted, in-scope branches |
| UserBranches.UserBranchService.AddMissing | internal/modules/core/branch/service/user_branch.service.go:149-167 | grants exactly what is wanted and missing |
| UserBranches.Dedupe | internal/modules/core/branch/service/user_branch.service.go:248-259 | every id once, where it first occurred, in order |
| Permissions.GetUserPermissions | internal/modules/core/role/repository/role.repository.go:379-396 | a duplicate-free list of exactly the claims some active role grants alone |
| Permissions.MergedGrantUnion | internal/modules/core/role/repository/role.repository.go:386-393 | folding the merge over the active roles grants the union, unknown levels included |
| Permissions.MergeIsJoin | internal/modules/core/role/domain/role.go:60-73 | the merge grants exactly what either side grants |
| Permissions.OrderDoesNotMatter | internal/modules/core/role/repository/role.repository.go:386-393 | the order of the roles is irrelevant |
| Permissions.PermissionMap.Merge | internal/modules/core/role/domain/role.go:60-73 | takes over every higher level, whatever the iteration order |
| Permissions.PermissionMap.ToStringList | internal/modules/core/role/domain/role.go:47-56 | expands to exactly the granted claims, none twice |
| Permissions.PermissionMap.HasPermission | internal/modules/core/role/domain/role.go:12-18 | exactly the level's actions, listed |
| Permissions.RankDecides | internal/modules/core/role/domain/permission_levels.go:15-19 | a higher level allows everything a lower one does |
| Permissions.LevelActions | internal/modules/core/role/domain/permission_levels.go:15-19 | the actions of viewer, editor and admin one by one, and none of any other level |
| Permissions.ClaimInjective | internal/modules/core/role/domain/role.go:47-56 | a claim determines its resource and action |
| Permissions.SplitRoundTripsIff | internal/modules/core/role/domain/role.go:76-83 | splitting a claim gives back resource and action exactly when the resource has no colon |
| Permissions.SplitPermission | internal/modules/core/role/domain/role.go:76-83 | splits at the first colon; without one the whole claim is the resource |

## Left out

- Concurrent approval calls: the service reads without a lock, so nothing is claimed beyond serial runs.
- Foreign-key share locks: leaving them out lets the machine interleave more than the database does; the one that can wait, a payment's on its order, comes after the wallet in the same rank order.
- Row locks on order lines and offers: their writers already hold the customer's wallet or the bid, so nobody waits for them.
- 64-bit overflow of money: amounts are unbounded integers.
- HTTP handlers, DTO mapping and the read endpoints.
- The nearest-lapak query: only which lapak was found, or none, is carried by the request; the distance is dropped.
- Catalog, category and config reads: what they find, or that they find nothing, is a parameter of the request.
- created_at of ledger rows: it is the transaction's start and does not follow lock order, so chains are stated in append order.
- Payment and line uuids: a row's place in its order's list stands for its id.
- A failing database call inside a transaction is the machine's crash event; errors in the middle of a branch sync, which is not one transaction, are not modelled.
- RunSweeper's ticker, cancelled and rejected statuses that no code sets.
- MarketService.OrderService.Sweep: runs without interleaving; MarketBacklog has the sweeper among all the others.
- MarketTransaction.Transaction.UpsertOffer: the code tells a new row by equal timestamps, so a replacement in the very microsecond of the first offer would count as new.
- RateLimit.SlidingBound: Reset is modelled but excluded from the bound, because it is meant to clear the count.
- RateLimit.RateLimiter.Allow: one clock reading per call; the code reads it again for the remaining time.
- CompanyTree.CompanyService.TransferOwner: name, type, logo, order and active flag are not modelled.
- CompanyTree.CompanyService.Create: the member's role; a failed membership or branch insert, which the code only logs.
- CompanyTree.CompanyService.GetAncestors: the query sorts what it finds by sort and name; only which companies it finds is modelled, and likewise downwards.
- FindAllScoped: the same downward recursion from several starting rows, with filters and paging.
- UserBranches.UserBranchService.SyncUserBranches: access granted while creating a user is not modelled; it is the same loop without removals.
- SyncUserCompanies, the permission cache, JWT, mail, storage and the other modules: no hard invariant, or none the code keeps.
