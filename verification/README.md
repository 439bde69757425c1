# Verified model of the confidential alpha stack

This project models the accounting, execution and commitment code of the repository and proves properties of it for
all inputs, all runs and all reachable states. Source files are cited by path and line.

The amounts of the ledgers are exact integers, as the source's are; the investors' units, fees and claims are computed
with the source's own roundings. Every operation is a function on values. Where the source changes an object in place,
there is a class beside it whose methods are proved to compute those functions, so the laws about the functions are
laws about the object. For most operations one law says exactly when it is accepted and another exactly what it
then does, without the function's help: amounts are bracketed by inequalities, and what must stay is said to stay.

| file | what it models |
|---|---|
| `Prelude.dfy`, `Assoc.dfy`, `Division.dfy` | results and guards, objects used as dictionaries, truncating division |
| `Claims.dfy`, `Ledger.dfy`, `SleeveLedger.dfy` | `SleeveLedger` (src/sleeves/ledger.js): shares, claims, fills, fees, reconciliation |
| `BookLaws.dfy`, `ValuationLaws.dfy` | what every operation books, when it is accepted, and what a strategy is worth |
| `LedgerLaws.dfy`, `LedgerRuns.dfy`, `CapitalLaws.dfy`, `FeeLaws.dfy` | its invariant, whole histories, capital movements, high-water fees |
| `Reconciliation.dfy`, `CustodyLaws.dfy` | reconciliation of books and custody, and operations that move both |
| `Review.dfy`, `ReviewLaws.dfy` | `SleeveReview` (src/sleeves/review.js): custody in lockstep with the ledger |
| `Runtime.dfy`, `RuntimeLaws.dfy`, `RuntimeProgress.dfy`, `OmnibusRuntime.dfy` | `OmnibusRuntime` (src/sleeves/runtime.js): crash-safe execution, and when it can finish |
| `PlanLaws.dfy`, `SettlementLaws.dfy` | what a plan fixes, what a commit books, and which commands are accepted |
| `Journal.dfy`, `ReplayLaws.dfy`, `DurableChain.dfy` | the write-ahead journal (src/sleeves/chain.js) over the local chain (src/pilot/chain.js) |
| `DurableRuntime.dfy` | the runtime over the journal, end to end |
| `Coordinator.dfy`, `CoordinatorLaws.dfy`, `DraftLaws.dfy`, `ConfidentialCoordinator.dfy` | the signer (src/integration/coordinator.js) and the vault it is bound to |
| `Canonical.dfy`, `JsonReader.dfy`, `CanonicalLaws.dfy` | `canonicalJson` (src/shared/protocol.js), and a reader of JSON texts (RFC 8259) to hold it against |
| `Merkle.dfy`, `MerkleLaws.dfy` | leaf hashes, Merkle trees, inclusion proofs (src/server/crypto.js) |
| `Commitment.dfy`, `SubmissionLaws.dfy`, `CommitmentLaws.dfy`, `AlphaService.dfy` | submissions, the frozen epoch and its re-verification (src/server/service.js) |
| `Masks.dfy`, `Shapley.dfy`, `Attribution.dfy`, `AttributionLaws.dfy`, `AdmissionLaws.dfy` | signals, targets, Shapley attribution, rewards (src/pilot/policy.js) |
| `IntegerStream.dfy`, `IntegerStreamLaws.dfy`, `SignalLaws.dfy` | the integer indicator stream (research/adapter/replay.py) |
| `Counterexamples.dfy` | inputs on which the code does not do what one would like |

## Assumptions about the environment

- Durability is an atomic write of the whole state. A process may stop between any two awaits; a write that fails stops
  the process. The disk and the chain survive, memory does not.
- The sleeve vault lets a planned operation happen only with the amounts of `Runtime.Permitted`
  (contracts/sleeves/OmnibusVault.sol:131-163, 57-101); anything else reverts. `DurableRuntime.Faithful` says the same of the
  machine that runs the journaled transactions.
- The approved vault applies an approval only under `Coordinator.Applicable`: signed, next in sequence, built on the
  present checkpoint, in time and covered (contracts/integration/ApprovedVault.sol:74-110). Block times never go back.
  A block of the model holds at most one application; several in one block are blocks of equal time. Finalized
  blocks are never abandoned.
- A digest is represented by what it digests, so digests are equal exactly when their preimages are, and leaves and
  nodes never collide. A checkpoint is represented by the approvals it digests. Decryption, signatures and the virtual
  machine are parameters: functions of their inputs, of which only this is assumed, that an envelope opens to JSON
  (`CommitmentLaws.JsonKeys`) and that a failing transaction has an error text (`Journal.Speaks`).
- Fresh identifiers (`randomUUID`, the salts of missed leaves) are inputs; where the proof needs them different, that
  is a stated precondition.

## What turned out not to hold

Each of these has the exact condition under which the code does what one would expect, and an input on which it does not.

- The runtime can be held up for good. A pending plan can be committed exactly when its effect is on the chain, or no
  transaction of it has reverted and it does not withdraw nothing (`RuntimeProgress.CanCommitIff`); otherwise disk and
  custody never change again, for any strategy (`RuntimeProgress.StuckForGood`, `DurableRuntime.StuckOverRestarts`). The
  first deposit does it if its transaction reverts (`WedgedRuntime.RevertedDepositSticks`). A redemption is accepted with
  a payout of zero, which the vault refuses: that is so exactly when the owner's claim is zero
  (`RuntimeProgress.RedemptionSticksIff`, `WedgedRuntime.WorthlessRedemptionSticks`).
- Reconciliation counts lots and looks up each attributed one, and the ledger accepts one lot id in two strategies. A
  passing reconciliation says that custody holds no other lots exactly when no lot id is in two strategies
  (`Reconciliation.PassedLotsAreExact`, `SharedLots.SharedLotHidesAnother`). The runtime's own lot ids are digests of
  command ids and do not repeat.
- Recovery of the coordinator can refuse: it reads the finalized head twice, and an approval finalized in between makes
  its reconciliation fail (`CoordinatorLaws.RecoverIff`, `RefusedRecovery.RecoveryCanRefuse`). The next recovery at a
  settled head succeeds (`CoordinatorLaws.RefusalIsRepaired`).
- A restart on the journal fails exactly when the transaction under way at the stop reverts (`Journal.RestartIff`,
  `FailedRestart.RestartCanFail`); the next restart passes. Over a journal of any rows a completed restart vouches for
  each of them, except a reverted one whose recorded text is that of the replay's own check on the clock or on changed
  reverts (`ReplayLaws.ReplayPassesIff`, `ReplayLaws.ExcusedPasses`).
- A Merkle root does not determine the number of leaves (`MerkleLaws.OddTailIsAmbiguous`), only the depth of the tree
  (`MerkleLaws.SameRootSameDepth`); it does determine the leaves once the number is known.
- A hash does not tell a string from a document (`MerkleLaws.HashedAlikeIff`). What the service compares by hash are
  documents.
- The 128-bit check can trip for the on-balance volume: a stream runs to its end exactly when the balance after each
  bar fits (`IntegerStreamLaws.TrendExactly`, `IntegerStreamLaws.TrendCanOverflow`).

## Model

| member | source | states |
|---|---|---|
| `Claims.ClaimsSumToPool` | src/sleeves/ledger.js:32-41 | claims add up to the investor pool to the last unit, whenever the investors' units add up to all units |
| `Claims.ClaimIsNearest` | src/sleeves/ledger.js:36-40 | each claim is the floor or the ceiling of the exact pro-rata share |
| `Claims.LeftoverGoesInOrder` | src/sleeves/ledger.js:37-39 | leftover units go by larger remainder first, then by name: nobody rounded up is behind somebody rounded down |
| `Claims.MoreUnitsNeverLess` | src/sleeves/ledger.js:32-41 | an owner with more units never has the smaller claim |
| `Claims.ClaimsAreOfHolders` | src/sleeves/ledger.js:34-40 | exactly the owners with positive units have a claim, between zero and the pool |
| `LedgerLaws.FlatEquityIgnoresMarks` | src/sleeves/ledger.js:23-33 | a flat strategy's equity, pool and claims are the same at any two price tables that price its assets |
| `LedgerLaws.DepositKeeps` | src/sleeves/ledger.js:44-51 | an accepted deposit keeps the invariant (accrual within cash, units = sum of holdings, lot escrow = collateral + proceeds, no cost without quantity, nothing without owners), adds exactly the amount to the capital, and changes one holding |
| `LedgerLaws.WithdrawKeeps` | src/sleeves/ledger.js:52-60 | an accepted redemption keeps the invariant, takes exactly the amount out of the capital, at most the available cash, and burns exactly the units of one holding |
| `LedgerLaws.PayoutBounds` | src/sleeves/ledger.js:53-57 | the payout is the floor of the claim's part the units stand for; all of a holding pays the whole claim, all units pay the whole available cash |
| `LedgerLaws.ExecuteKeeps` | src/sleeves/ledger.js:61-84 | every accepted fill keeps the invariant, and changes cash + cost of positions + locked collateral by exactly the profit it realizes; holdings, accrual and high-water mark stay (the bookings themselves: `BookLaws.FillIsExact`) |
| `LedgerLaws.CrystallizeKeeps` | src/sleeves/ledger.js:85-92 | crystallizing moves a non-negative fee from the investors to the accrual, keeps the capital and never lowers the high-water mark |
| `LedgerLaws.PayKeeps` | src/sleeves/ledger.js:93 | the payout is the whole accrual, leaves it at zero and the investors' pool unchanged |
| `LedgerLaws.RedemptionIsAvailable` | src/sleeves/ledger.js:52-60 | a redemption from a flat strategy is accepted if and only if its assets are priced and the owner has the units: never refused for lack of cash |
| `LedgerLaws.PayoutIsAvailable` | src/sleeves/ledger.js:93 | the provider's accrual is always covered by cash |
| `BookLaws.FillIsExact` | src/sleeves/ledger.js:61-84 | what every accepted fill books, of whatever side: a purchase raises the quantity, and the cost by exactly the cash that left, fee included; a sale releases the sold part of the cost, rounded down, and realizes the cash received less it; an opened short puts collateral and proceeds aside in a new lot and realizes nothing; a close takes the lot away and realizes the change of cash less its collateral; the fee is recorded, and nothing else moves |
| `BookLaws.FillAcceptedIff` | src/sleeves/ledger.js:61-84 | a fill is accepted if and only if the strategy can bear it by itself: cash beyond the accrual, quantity held, a new lot with its margin, or a lot of its own that the fill closes exactly |
| `BookLaws.DepositIsExact` | src/sleeves/ledger.js:44-51 | units at par into a strategy without units, otherwise as many as the amount is worth at the present pool, rounded down; one holding grows by them, cash by the amount, nothing else moves |
| `BookLaws.RedemptionIsExact` | src/sleeves/ledger.js:52-60 | pays the part of the claim in proportion to the units, rounded down, takes the units out of one holding, and resets the high-water mark with the last unit |
| `BookLaws.FeeIsExact` | src/sleeves/ledger.js:85-92 | the fee is the provider's part of the pool beyond the rounded-up high-water value; it goes to the accrual, the mark rises to the unit price left if that is higher, and the track gets one row with unit price, equity and fee |
| `BookLaws.StepIsExact` | src/sleeves/ledger.js:16-93 | an accepted operation of any kind moves one book in exactly the way above (a new one is empty and named as asked), records its request or order, and leaves every other book alone |
| `BookLaws.StepAcceptedIff` | src/sleeves/ledger.js:16-93 | an operation is accepted if and only if its strategy as it stands can take it and its request or order id is new |
| `BookLaws.TradesAddUp` | src/sleeves/ledger.js:61-84 | after any history a strategy's execution fees are the sum of those of its accepted fills, and what it holds of an asset is what it bought less what it sold |
| `BookLaws.RoundTripRealizesCash` | src/sleeves/ledger.js:65-72 | buying what was not held and selling all of it realizes exactly what cash gained or lost, both fees included |
| `ValuationLaws.EquityIs` | src/sleeves/ledger.js:23-28 | a strategy is valued if and only if all it ever held or owes has a positive price; the equity is then cash, plus for each position a worth that is quantity times price rounded down, plus for each lot its escrow less such a worth of its debt |
| `ValuationLaws.EquityFollowsPrices` | src/sleeves/ledger.js:23-28 | when a price rises, a strategy that owes none of the asset never loses and one that holds none of it never gains |
| `ValuationLaws.FillAtMarkKeepsEquity` | src/sleeves/ledger.js:23-84 | an accepted fill of any side at its own mark moves the equity by its fee, and for a position by at most the rounding of one base unit |
| `LedgerRuns.StepIsEffect` | src/sleeves/ledger.js:16-93 | whether an operation is accepted, and what it does, depends on the targeted strategy and on whether its request or order id was seen, and on nothing else |
| `LedgerRuns.StepKeeps` | src/sleeves/ledger.js:44-93 | one operation, accepted or refused, keeps every book sound, accounts for the capital it moves, and leaves every other strategy as it is |
| `LedgerRuns.RunKeepsSound` | src/sleeves/ledger.js:44-93 | every ledger reachable by any operations is sound |
| `LedgerRuns.CapitalIsConserved` | src/sleeves/ledger.js:44-93 | after any history, cash + cost of open positions + open short collateral = deposits - redemptions - provider payouts + realized profit, strategy by strategy |
| `LedgerRuns.RequestMovesCapitalOnce` | src/sleeves/ledger.js:43-59 | a request id moves capital at most once in a whole history, in whatever strategy |
| `LedgerRuns.OtherStrategiesDoNotInterfere` | src/sleeves/ledger.js:44-93 | a strategy's books and totals after any history are those of its own operations alone |
| `CapitalLaws.IssuedAtValue` | src/sleeves/ledger.js:46-48 | the units issued are the largest whole number worth no more than what was paid |
| `CapitalLaws.NoGainByPassingThrough` | src/sleeves/ledger.js:44-60 | depositing and at once redeeming the issued units is always possible and never returns more than was put in |
| `CapitalLaws.LeavingMovesOthersByTwo` | src/sleeves/ledger.js:32-60 | one owner's full redemption moves any other owner's claim by at most two base units |
| `CapitalLaws.EnteringCostsOthersAtMostOne` | src/sleeves/ledger.js:32-51 | somebody else's deposit costs an owner at most one base unit of claim and no units |
| `FeeLaws.CrystallizedIsCovered` | src/sleeves/ledger.js:85-92 | after a crystallization the investors' pool is worth no more than the units at the high-water mark |
| `FeeLaws.SecondCrystallizationIsFree` | src/sleeves/ledger.js:85-92 | crystallizing again charges zero and keeps the mark, at whatever prices |
| `FeeLaws.RedemptionChargesNothing` | src/sleeves/ledger.js:52-92 | a redemption, partial or full, after a crystallization leaves nothing to charge |
| `FeeLaws.DepositIsNotPerformance` | src/sleeves/ledger.js:44-92 | a deposit after a crystallization leaves a fee basis strictly below highWater / 10^24 base units |
| `FeeLaws.FeeStaysAboveThreshold` | src/sleeves/ledger.js:88-90 | a charged fee leaves the pool at or above the threshold it was measured from, and raises the mark |
| `Reconciliation.RoundingBound` | src/sleeves/ledger.js:97-106 | merged valuation minus attributed valuation lies between 0 and 4 * (strategies - 1), so the last check never rejects |
| `Reconciliation.AttributeIff` | src/sleeves/ledger.js:101 | the claims of a sound strategy always add up: it is attributed if and only if its assets are priced and its pool is not negative |
| `ValuationLaws.ReportIs` | src/sleeves/ledger.js:94-108 | the report of a passing reconciliation: the vault is worth its cash, each whole quantity at its price rounded down, and every escrow less its debt at its price; each strategy is reported with its own equity, claims and accrual, in order; the excess of the merged valuation goes to the protocol |
| `Reconciliation.ReconcileIff` | src/sleeves/ledger.js:94-108 | while no lot id is in two strategies, reconciliation passes if and only if custody holds exactly the cash, the quantities and the map of lots the books attribute, every asset is priced, and every strategy is solvent |
| `Reconciliation.ReconcileTallies` | src/sleeves/ledger.js:94-108 | in general it passes if and only if cash and quantities agree, there are as many lots on both sides and each attributed one is as custody reports it, assets are priced and strategies solvent; the merged value is the attributed one, the accrual and a bounded rounding |
| `Reconciliation.PassedLotsAreExact` | src/sleeves/ledger.js:99-100 | when it has passed, custody holds the attributed lots and no others if and only if no lot id is in two strategies |
| `SharedLots.SharedLotHidesAnother` | src/sleeves/ledger.js:73-76 | two fills the ledger accepts give two strategies one lot id, and reconciliation (94-108) then passes over a lot in custody that no book knows |
| `CustodyLaws.FillMovesBoth` | src/sleeves/ledger.js:61-84 | a fill the ledger accepts, mirrored by custody, leaves custody equal to the books asset by asset and lot by lot |
| `CustodyLaws.CashMovesBoth` | src/sleeves/ledger.js:44-60 | a movement of the same cash on both sides leaves custody equal to the books |
| `CustodyLaws.TwinReconciles` | src/sleeves/ledger.js:94-108 | on custody equal to the books reconciliation passes if and only if every asset is priced and every strategy is solvent |
| `CustodyLaws.TwinNeverMismatches` | src/sleeves/ledger.js:94-108 | on custody equal to the books, reconciliation can fail only for a missing price or an insolvent strategy |
| `SleeveLedgers.SleeveLedger.CreateStrategy` | src/sleeves/ledger.js:17-22 | accepted exactly when the ledger function accepts; then one empty strategy is opened as asked and recorded, otherwise nothing changes |
| `SleeveLedgers.SleeveLedger.AllocateCapital` | src/sleeves/ledger.js:44-51 | likewise: units are issued at the value before the deposit; conservation of the object's whole history is kept as part of its validity |
| `SleeveLedgers.SleeveLedger.RedeemCapital` | src/sleeves/ledger.js:52-60 | likewise: the proportional part of the claim is paid and the units retired |
| `SleeveLedgers.SleeveLedger.Settle` | src/sleeves/ledger.js:61-84 | likewise for each side of a fill, in place: the recorded order, and the exact booking of `BookLaws.FillIsExact` (cost with the fee, released cost, lots, realized profit, fees) |
| `SleeveLedgers.SleeveLedger.CrystallizeFee` | src/sleeves/ledger.js:85-92 | likewise: fee, mark and track row of `BookLaws.FeeIsExact` |
| `SleeveLedgers.SleeveLedger.PayAccrual` | src/sleeves/ledger.js:93 | likewise: the whole accrual leaves with the cash |
| `SleeveLedgers.SleeveLedger.EquityOf` | src/sleeves/ledger.js:23-28 | the accumulating loop: refused exactly when something has no positive price; otherwise cash plus the rounded-down worth of each position plus each escrow less the worth of its debt |
| `SleeveLedgers.SleeveLedger.ClaimsFor` | src/sleeves/ledger.js:32-41 | rows, sort and the loop that hands out dust give the claims the laws are about |
| `SleeveLedgers.SleeveLedger.CheckCustody` | src/sleeves/ledger.js:94-108 | the passes over assets, lots and strategies give the verdict of the reconciliation function, and every figure of the report is the one it should be (`ValuationLaws.ReportIs`) |
| `SleeveLedgers.SleeveLedger.ValidConserves` | src/sleeves/ledger.js:14-93 | a valid object's books satisfy the conservation law for the whole history it has taken |
| `Review.AllocationIff` | src/sleeves/review.js:20-23 | a review deposit is accepted exactly when the wallet can pay and the ledger accepts it: its reconciliation never refuses |
| `Review.RedemptionIff` | src/sleeves/review.js:24-27 | a review redemption is accepted exactly when wallet and strategy are known, the request is new and units are owned |
| `Review.CycleNeverDrifts` | src/sleeves/review.js:28-54 | an accepted cycle ends flat with custody equal to the books; a refused one was refused for a price, a quantity or a loss, never because the two sides disagreed |
| `Review.FixtureIsLocked` | src/sleeves/review.js:8-14 | the fixture starts in lockstep |
| `Review.ReviewStaysLocked` | src/sleeves/review.js:16-54 | after any allocate, redeem and cycle calls custody equals the books asset by asset and lot by lot, every strategy is flat; each call gives the state it answers with, and a refused one leaves the state it found |
| `ReviewLaws.AllocationIsExact` | src/sleeves/review.js:20-23 | an accepted deposit takes exactly the amount from the investor's wallet and puts it into custody and, at the present value, into the strategy; nothing else moves |
| `ReviewLaws.RedemptionIsExact` | src/sleeves/review.js:24-27 | an accepted redemption redeems all units of the investor, and pays exactly what the strategy paid from custody into the wallet |
| `ReviewLaws.FillIsAtPrice` | src/sleeves/review.js:32-45 | a simulated fill is at the mark, rounded down, with a fee of one ten-thousandth of it |
| `ReviewLaws.PriceMoves` | src/sleeves/review.js:48 | the moved price is the old one times 10000 plus the move, divided by 10000 and rounded down, of the one asset only |
| `ReviewLaws.CycleIsExact` | src/sleeves/review.js:28-54 | an accepted cycle moves the price as asked and keeps it from falling below zero; each trading strategy enters with a quarter of its pool at the first price (a short for the hedge, a purchase for the others), leaves with the same quantity at the moved price, and is charged; the others are only charged; wallets stay and one cycle is counted |
| `Review.SleeveReview.Allocate` | src/sleeves/review.js:20-23 | clone, mutate, reconcile and swap in, or leave everything as it was: the state is that of the specification |
| `Review.SleeveReview.Redeem` | src/sleeves/review.js:24-27 | likewise for a redemption |
| `Review.SleeveReview.Cycle` | src/sleeves/review.js:28-54 | likewise for the loops of a cycle: entering, moving the price, closing, charging |
| `Runtime.ObserveTwin` | src/sleeves/runtime.js:54-59 | asking the venue only about the lots the ledger knows loses nothing when custody equals the books |
| `RuntimeLaws.OrderFits` | src/sleeves/runtime.js:111-131 | an order checked at submission can be booked when the vault reports any outcome its contract permits (contracts/sleeves/OmnibusVault.sol:145-163), and the receipt passes every attribution check |
| `PlanLaws.OrderIsExact` | src/sleeves/runtime.js:111-129 | the plan of an order: for the command's own asset; a purchase or a collateral is the command's amount, at most a quarter of the pool and what is not accrued; a short's quantity is what the collateral buys at the mark, rounded down; a sale is the whole holding, a close the whole debt of the only lot on the asset; limits are two percent off the quote, rounded down, a close's never above what the strategy owns |
| `PlanLaws.OrderPlannedIff` | src/sleeves/runtime.js:111-129 | an order is planned if and only if it is the provider's, for a listed asset, within the cap, on a free position or a unique lot, and not dust |
| `PlanLaws.PlanIsExact` | src/sleeves/runtime.js:98-131 | for every kind of command: a deposit plans its amount, a redemption the whole claim of all units, a payout the whole accrual, an order as above |
| `PlanLaws.PlannedIff` | src/sleeves/runtime.js:98-131 | a command gets a plan if and only if the ledger would take it and its signer may ask for it |
| `SettlementLaws.RegistrationIsExact` | src/sleeves/runtime.js:91-97 | a registration opens an empty strategy of the signer with the default fee of ten percent, uses the id up, and changes nothing else |
| `SettlementLaws.SubmittedIff` | src/sleeves/runtime.js:80-131 | in every reachable state a command is accepted if and only if nothing is pending, its id is new, prices are listed and strategies solvent, and it is well formed and plannable: custody never stops it |
| `PlanLaws.EffectIs` | contracts/sleeves/OmnibusVault.sol:131-163 | what an execution moves in custody: exactly the cash, the one asset and the one lot of the plan |
| `PlanLaws.FillReports` | src/sleeves/runtime.js:161-166 | the fill booked for an execution carries its quantity, price, lot and collateral, with no fee on top |
| `SettlementLaws.CommitIsExact` | src/sleeves/runtime.js:150-180 | a commit books the operation the command stands for with the amounts the chain reported, charges the fee after a sale or close that leaves the strategy flat, ends the plan and uses the id up |
| `SettlementLaws.OrdersAreAnchoredFirst` | src/sleeves/runtime.js:158-161 | in no run does an order take effect before a transaction of its own has anchored it, while it was pending |
| `RuntimeLaws.EffectFits` | src/sleeves/runtime.js:150-166 | what was fixed at submission can always be booked after the effect, and booking it makes the books equal custody again |
| `RuntimeLaws.NextKeeps` | src/sleeves/runtime.js:80-181 | every stretch between two awaits, and stopping after it, keeps: custody equals the durable books, or the books plus the effect of the one durable plan |
| `RuntimeLaws.CommitIff` | src/sleeves/runtime.js:150-181 | once the effect is on the chain, the commit succeeds if and only if the assets are priced and every strategy is solvent at the marks of the moment |
| `RuntimeLaws.CommitIgnoresMarks` | src/sleeves/runtime.js:147-181 | reprocessing after a crash commits the same ledger even if the marks moved in between |
| `RuntimeLaws.AlwaysAccounted` | src/sleeves/runtime.js:23-181 | in every reachable state custody is accounted for to the last unit and lot by the durable books and the durable plan |
| `RuntimeLaws.OnlyTheseChangeTheLedger` | src/sleeves/runtime.js:80-181 | the ledger changes only with the commit of the pending plan, or with an accepted registration |
| `RuntimeLaws.ExactlyOnce` | src/sleeves/runtime.js:80-181 | over every run with crashes, retries, reverts and restarts, a command moves assets at most once and changes the ledger at most once, registrations counted; except for registering an empty strategy, never the ledger without the assets |
| `RuntimeProgress.CanCommitIff` | src/sleeves/runtime.js:147-181 | a pending plan can be committed in some run if and only if its effect is on the chain, or no transaction of it has reverted and it does not withdraw nothing; given an execution the venue permits and marks at which all are solvent |
| `RuntimeProgress.StuckForGood` | src/sleeves/runtime.js:80-83 | otherwise, in every run, disk and custody never change again and every command of every strategy is refused |
| `RuntimeProgress.RedemptionSticksIff` | src/sleeves/runtime.js:107-108 | an accepted redemption not tried before is such a plan if and only if its owner's claim is zero: the guard of line 110 is missing, and contracts/sleeves/OmnibusVault.sol:136 refuses an amount of zero |
| `WedgedRuntime.RevertedDepositSticks` | src/sleeves/runtime.js:83 | from the first start, one deposit whose transaction reverts |
| `WedgedRuntime.WorthlessRedemptionSticks` | src/sleeves/runtime.js:107-108 | in a state of the invariant, a redemption of units that are worth nothing is accepted and sticks |
| `OmnibusRuntimes.OmnibusRuntime.Accept` | src/sleeves/runtime.js:83-131 | accepted if and only if `SettlementLaws.SubmittedIff` says so; the plan that is then durable is the one of `PlanLaws.PlanIsExact`, a registration is recorded as it should be, and a refusal changes nothing |
| `OmnibusRuntimes.OmnibusRuntime.Recheck` | src/sleeves/runtime.js:156-157 | a withdrawal is computed again on a copy and refused if it changed |
| `OmnibusRuntimes.OmnibusRuntime.Transact` | src/sleeves/runtime.js:150-160 | sends the pending plan: known effects are answered, reverts are remembered, custody moves at most once, and then by exactly the cash, asset and lot of the plan |
| `OmnibusRuntimes.OmnibusRuntime.Finish` | src/sleeves/runtime.js:150-180 | books what the plan stands for with the amounts of the chain (`SettlementLaws.CommitIsExact`), reconciles and writes ledger, used id and the end of the plan together, or changes nothing |
| `OmnibusRuntimes.OmnibusRuntime.Process` | src/sleeves/runtime.js:147-181 | processing from the beginning, as a command and a restart do, is a run of the steps; success uses the id up, failure leaves plan and ledger |
| `OmnibusRuntimes.OmnibusRuntime.SubmitLocked` | src/sleeves/runtime.js:80-131 | a retry of the pending command resumes it, another waits, a used one is refused, a new one is accepted and processed |
| `Journal.ReplayRefinesFold` | src/sleeves/chain.js:22-33 | replaying an honest journal builds the chain of one ordered run over it, with nonces and blocks reverts consumed; it fails only with the machine's own text for the transaction under way at the stop, so the clock, hash and changed-revert checks never fire |
| `Journal.RepeatedCallIsAnswered` | src/sleeves/chain.js:34-40 | a repeated call changes nothing and is answered with the recorded receipt or the recorded error |
| `Journal.AlwaysOneOrderedRun` | src/sleeves/chain.js:18-42 | after any calls, reverts, crashes, clock movements and restarts the live chain is that of one ordered run over the journal |
| `Journal.RestartIff` | src/sleeves/chain.js:33 | a restart completes if and only if the transaction under way at the stop does not revert; if it does, it is recorded and the next restart passes |
| `ReplayLaws.ReplayPassesIff` | src/sleeves/chain.js:22-33 | whatever journal is found: a restart completes if and only if every row in order agrees with the machine (recorded hash, recorded revert text, a clock that does not go back), except for a reverted row whose text is that of the check it fails |
| `ReplayLaws.RestartCertifies` | src/sleeves/chain.js:22-33 | a completed restart leaves an honest journal with every outcome, and the chain of one ordered run over the journal it found: nothing is assumed of the rows but different tags and that none has the text of a check |
| `ReplayLaws.ExcusedPasses` | src/sleeves/chain.js:33 | that exception is real: a row out of time passes, and the machine never runs, if its recorded error says that it is out of time |
| `ReplayLaws.TagKeepsIntent` | src/pilot/chain.js:75-90 | whatever is sent in between, a tag that has succeeded once changes nothing any more: the same intent is answered with the first receipt, another one is refused |
| `FailedRestart.RestartCanFail` | src/sleeves/chain.js:22-33 | a stop between intent and outcome, and a transaction that reverts: the restart fails and records the revert |
| `Journal.NoTagTwice` | src/pilot/chain.js:75-90 | in every history each tag has at most one transaction on the live chain |
| `DurableRuntime.HistoryIsRun` | src/sleeves/runtime.js:147-181 | the runtime over the journal (src/sleeves/chain.js:18-42): every history of commands, anchorings, transactions, commits, reverts, stops anywhere and restarts is a possible run of the abstract runtime on the replayed chain |
| `DurableRuntime.ExactlyOnceEndToEnd` | src/sleeves/runtime.js:22-181 | end to end over the journal: the vault is always accounted for by the disks, the running process reads that vault, each tag has at most one transaction, and each command moves assets and changes the ledger at most once |
| `DurableRuntime.StuckOverRestarts` | src/sleeves/runtime.js:80-83 | a stuck plan stays stuck whatever is stopped, restarted and retried |
| `DurableChains.DurableChain.SendTx` | src/pilot/chain.js:75-90 | answers a known tag, refuses another intent, and otherwise advances block and nonce, also when the call reverts |
| `DurableChains.DurableChain.PerformRow` | src/sleeves/chain.js:22-32 | performs a row in place: outcome, hash or error are written to it, and the three checks are made |
| `DurableChains.DurableChain.ReplayJournal` | src/sleeves/chain.js:33 | the loop over the journal is the replay function, failure included |
| `DurableChains.DurableChain.ExecuteCall` | src/sleeves/chain.js:34-40 | journals the intent before performing it, and answers known tags from the journal |
| `CoordinatorLaws.NeverDiverges` | src/integration/coordinator.js:44-105 | in every run with crashes, restarts, reorganizations and a moving head, the vault is where the stored books are or one approval further by exactly the stored pending one; the books stay non-negative and add up; and recovery never stops at checkpoint, sequence, receipt or binding |
| `CoordinatorLaws.RecoverIff` | src/integration/coordinator.js:38-65 | recovery succeeds if and only if no further approval was finalized between its two reads of the head; otherwise it refuses with a custody mismatch and nothing else |
| `RefusedRecovery.RecoveryCanRefuse` | src/integration/coordinator.js:38-65 | from a fresh system: one deposit approved, applied, and finalized between the two reads |
| `CoordinatorLaws.RefusalIsRepaired` | src/integration/coordinator.js:44-65 | if nothing more is finalized in between, the next recovery succeeds, from the memory the refused one left or, after a crash, from the store, and the books are an exact image of the vault |
| `CoordinatorLaws.TakeIs` | src/integration/coordinator.js:44-63 | what recovery does: keeps the books, drops the pending approval when the head is past its deadline, or books the pending approval from its only event |
| `CoordinatorLaws.TakeKeeps` | src/integration/coordinator.js:44-65 | the books recovery arrives at are sound and an exact image of the vault at the head it read |
| `CoordinatorLaws.TakeTwice` | src/integration/coordinator.js:44-65 | recovery is idempotent: a receipt booked in memory and not stored is not booked again |
| `CoordinatorLaws.LastEventIsUnique` | src/integration/coordinator.js:52-55 | the query for the applied approval finds exactly one event, with the vault's checkpoint |
| `CoordinatorLaws.StepKeeps` | src/integration/coordinator.js:44-105 | every event (a block, a reorganization, finality, a read, a store, a command, a crash, a start) keeps the invariant of books, vault and signatures |
| `CoordinatorLaws.EachRequestOnce` | src/integration/coordinator.js:60-105 | no client request takes effect on the vault twice, in any run |
| `CoordinatorLaws.DroppedIsNeverApplied` | src/integration/coordinator.js:46-50 | an approval recovery drops on expiry is never applied afterwards, whatever happens |
| `CoordinatorLaws.DraftFits` | src/integration/coordinator.js:81-102 | whatever is signed is positive, covered by the strategy it is signed on, numbered next and built on the stored checkpoint (the amounts themselves: `DraftLaws.DraftIsExact`) |
| `DraftLaws.DraftIsExact` | src/integration/coordinator.js:81-102 | an approval is drafted if and only if it is the requester's own and nothing comes out as dust; a deposit then gets the units its amount is worth at the cash before it, rounded down, a redemption the part of the cash its units are, a purchase the target part of the cash and a sale the whole asset, with the quoted minimum; actor, recipient, sequence, checkpoint and deadline are those of the request and the stored state |
| `DraftLaws.ReplyIsExact` | src/integration/coordinator.js:73-105 | the answer to a command: the pending approval if and only if it is a timely retry of that very command, a drafted one if nothing is pending, otherwise a refusal that changes nothing |
| `DraftLaws.ReceiptIsExact` | src/integration/coordinator.js:56-59 | a booked receipt moves cash, asset, units and the actor's holding of its strategy by exactly the approved amount and the reported output |
| `DraftLaws.RecoveryIsExact` | src/integration/coordinator.js:44-63 | recovery never stops in a reachable system; when the vault is ahead it books exactly the applied approval into its strategy, and sequence, checkpoint, history and used ids move with it |
| `DraftLaws.ReconciledIff` | src/integration/coordinator.js:38-43 | the books pass if and only if total cash and asset are the vault's and every strategy's holdings add up; custody is what is reported first |
| `CoordinatorLaws.BookingKeepsSound` | src/integration/coordinator.js:56-59 | an amount fixed at signing is still covered at booking: cash, asset and units stay non-negative and holdings add up to the units |
| `CoordinatorLaws.CapitalMovementsAreFair` | src/integration/coordinator.js:57-59 | booking a deposit or a redemption lowers the cash behind a unit in no strategy |
| `ConfidentialCoordinators.ConfidentialCoordinator.CheckBooks` | src/integration/coordinator.js:38-43 | totals and the loop over strategies give the verdict of the reconciliation function |
| `ConfidentialCoordinators.ConfidentialCoordinator.Book` | src/integration/coordinator.js:56-63 | the receipt is booked into a copy, field by field |
| `ConfidentialCoordinators.ConfidentialCoordinator.Recover` | src/integration/coordinator.js:44-65 | memory, store and outcome after every way recovery can end, refusals included; what is booked is exactly the applied approval |
| `ConfidentialCoordinators.ConfidentialCoordinator.Command` | src/integration/coordinator.js:73-105 | a refusal changes nothing; a retry is answered with the pending approval; a new approval has the amounts of `DraftLaws.DraftIsExact` and is stored before it is returned |
| `ConfidentialCoordinators.RecoveryIsReadAndSave` | src/integration/coordinator.js:44-65 | the object's recovery is the read and the store of the system the safety theorems are about |
| `ConfidentialCoordinators.RestartRecovers` | src/integration/coordinator.js:17-19 | reading the store of any reachable system is its start event, keeps the invariant, and the recovery (44-65) at a settled head succeeds with books that are an exact image of the vault |
| `CanonicalLaws.PrintsAlikeIff` | src/shared/protocol.js:3-12 | two values have the same canonical text if and only if they are the same but for the order of object keys |
| `CanonicalLaws.PrintsApart` | src/shared/protocol.js:3-12 | unique decoding: a canonical text followed by a delimiter determines the value and the rest |
| `CanonicalLaws.RefusesIff` | src/shared/protocol.js:4-11 | a value is refused exactly when something in it, at any depth, has no canonical text |
| `CanonicalLaws.ReadsBack` | src/shared/protocol.js:3-12 | round trip: a JSON reader (RFC 8259, without white space and fractions) reads a canonical text back as the value, with the keys of every object in order, and stops at its end |
| `CanonicalLaws.StringReads` | src/shared/protocol.js:4 | a printed string, escapes, control characters and lone surrogates included, reads back as the string |
| `CanonicalLaws.NumberReads` | src/shared/protocol.js:5-8 | a printed integer followed by anything but a digit reads back as the integer |
| `Merkle.MerkleTree` | src/server/crypto.js:50-67 | the loops over levels and leaves build the root and the proofs of the specification, or refuse an empty roster or an unprintable leaf |
| `Merkle.VerifyInclusion` | src/server/crypto.js:68-78 | the loop accepts exactly the well-formed proofs of at most 32 steps that climb to the root |
| `MerkleLaws.RoundTrip` | src/server/crypto.js:50-78 | a generated proof verifies if and only if the roster has at most 2^32 leaves |
| `MerkleLaws.VerifiedNamesLeaf` | src/server/crypto.js:68-78 | a proof that verifies has the depth of the tree and proves the very leaf at the position its sides spell |
| `MerkleLaws.VerifiesIff` | src/server/crypto.js:68-78 | for any leaf, proof and root: it verifies if and only if there is a path of at most 32 nodes from the leaf's hash to the root, each the digest of the one below and a well-formed sibling on the side it names |
| `MerkleLaws.RootReadsInOrder` | src/server/crypto.js:51-58 | the nodes of the tree digest the leaves from left to right: the path to position i, left and right by its bits, ends at leaf i |
| `MerkleLaws.SameRootSameLeaves` | src/server/crypto.js:48-67 | rosters of one length with one root have the same leaves, up to the order of keys |
| `MerkleLaws.OddTailIsAmbiguous` | src/server/crypto.js:50-57 | length matters: repeating the last leaf of any odd roster of more than one leaf keeps the root |
| `MerkleLaws.SameRootSameDepth` | src/server/crypto.js:50-57 | rosters of different lengths share a root only if their trees are equally deep |
| `MerkleLaws.LeafHashBinds` | src/server/crypto.js:49 | leaves with one hash are one leaf, up to the order of keys |
| `MerkleLaws.HashedAlikeIff` | src/server/crypto.js:4 | two documents share a hash if and only if they are one document up to the order of keys; a string, hashed as it stands, shares it exactly with the documents it is the canonical text of |
| `CommitmentLaws.FrozenCannotDrift` | src/server/service.js:38-164 | if a stored epoch has the manifest hash made at the freeze, then whatever else it holds and whatever its envelopes open to, reading it back is rejected or gives exactly the vectors and misses committed at the freeze |
| `CommitmentLaws.FrozenReadsBack` | src/server/service.js:38-164 | an untouched frozen epoch is never rejected and reads back exactly what was accepted |
| `CommitmentLaws.SubmitKeeps` | src/server/service.js:127-150 | an accepted submission keeps the epoch honest: every stored submission, its envelope and its leaf belong together, and none is replaced |
| `CommitmentLaws.SameManifest` | src/server/service.js:43-47 | equal manifest hashes force the same epoch, the same root and the same roster |
| `CommitmentLaws.FrozenSays` | src/server/service.js:156-164 | the frozen manifest says, field by field, what it should of the epoch: its id, workspace, policy, roster, weights, root, times, predecessor and clock; leaves and proofs are those of the tree with that root |
| `SubmissionLaws.PayloadIff` | src/server/service.js:59-67 | a payload passes the checks if and only if it is an object of exactly the seven fields of the protocol, each once, with version, nonce, universe and a vector of four integers from -10000 to 10000; the joined list of sorted keys, which is what the source compares, decides just that |
| `SubmissionLaws.SubmissionAcceptedIff` | src/server/service.js:127-150 | a submission is accepted if and only if its envelope opens to a whole payload of this epoch and policy, signed by a provider of the roster, in time or repeating the one already accepted |
| `SubmissionLaws.OfferIsTaken` | src/server/service.js:127-150 | what is stored for it: envelope, time, payload hash, the five-field leaf and its hash, after all that was there; a repetition changes nothing |
| `SubmissionLaws.ReadsBackIff` | src/server/service.js:38-76 | any stored epoch reads back, as these rows, if and only if its manifest seals what is stored (hashes, ids, root), the roster is of different providers with a leaf each and no submission of a stranger, and each row is the vector of an offer its provider has signed, kept with leaf and hashes, or a salted miss |
| `AlphaServices.AlphaService.Submit` | src/server/service.js:127-150 | checks in the source's order, each with its own refusal; a repeated submission is a duplicate and changes nothing |
| `AlphaServices.AlphaService.FreezeRoot` | src/server/service.js:156-164 | leaves, root, proofs, manifest and its hash become those of the specification, or there is no manifest hash |
| `AlphaServices.AlphaService.PayloadProviders` | src/server/service.js:38-76 | the pass over the roster gives every provider's row, or rejects at the first failed check |
| `Shapley.Efficiency` | src/pilot/policy.js:77-86 | for any number of actors and any value of coalitions the contributions add up to the grand coalition's value less the empty one's |
| `Shapley.NullActor` | src/pilot/policy.js:77-86 | an actor that changes no coalition's value gets nothing |
| `Shapley.EqualActors` | src/pilot/policy.js:77-86 | actors every coalition values alike get the same |
| `Shapley.WeightsBalance` | src/pilot/policy.js:83 | the factorial weights of joining and leaving cancel inside |
| `Masks.PairSum` | src/pilot/policy.js:79-84 | adding a bit pairs the masks without it with those that have it |
| `AttributionLaws.AttributionIsEfficient` | src/pilot/policy.js:64-88 | the attributed contributions add up to exactly what the capped portfolio of all actors (a target as `Attribution.TargetIs` says) earns, the empty coalition earning nothing |
| `Attribution.TargetIs` | src/pilot/policy.js:60-68 | for every coalition and asset: the target is the weighted sum of its vectors divided by 10000 and rounded toward zero whenever that is within the cap of 2500 either way, the nearer bound otherwise, and never against the sign of the sum |
| `Attribution.WorthIsEarned` | src/pilot/policy.js:76-79 | what a target earns is the sum of each position times its return, less twice the fee on its size |
| `AttributionLaws.EarningsFollowReturns` | src/pilot/policy.js:76-79 | earnings rise with the return of a held asset and fall with that of a shorted one |
| `AttributionLaws.ZeroVectorGetsNothing` | src/pilot/policy.js:56-88 | an actor with a zero vector or no weight gets zero |
| `AttributionLaws.EqualGetsEqual` | src/pilot/policy.js:56-88 | actors with equal weight and equal vector get equal contributions |
| `AttributionLaws.CloneChangesNothing` | src/pilot/policy.js:33-46 | a second key with a vector its actor already submitted changes no group |
| `AttributionLaws.UniqueIsDistinct` | src/pilot/policy.js:42 | the vectors averaged for an actor are all different, and all were submitted |
| `AttributionLaws.MeanIs` | src/pilot/policy.js:41-45 | a group's vector is the sum of its different vectors divided by their number and rounded toward zero, zero without any |
| `AttributionLaws.MeanWithin` | src/pilot/policy.js:41-45 | a group's vector lies between the smallest and the largest of its vectors, asset by asset |
| `AttributionLaws.RewardsFillPool` | src/pilot/policy.js:89-95 | rewards never exceed the pool and fall short of it by at most one unit per actor; without a positive contribution nothing is paid |
| `AttributionLaws.RewardIs` | src/pilot/policy.js:89-95 | a reward is the pool's part in proportion to the contribution rounded to eight decimals, rounded down |
| `AttributionLaws.MoreNeverGetsLess` | src/pilot/policy.js:89-95 | a larger contribution never gets the smaller reward |
| `AttributionLaws.GroupedIff` | src/pilot/policy.js:18-46 | signals are grouped if and only if the actors are admitted and every signal is a valid vector under a key of its own actor, no key twice; there are at most eight groups, all of different ids |
| `AdmissionLaws.AdmittedIff` | src/pilot/policy.js:18-28 | actors pass if and only if they are at most eight, with ids, payouts and subjects of their own whatever the case of letters, approved with evidence and a key, and no key is listed twice |
| `AdmissionLaws.SignalsGroupedIff` | src/pilot/policy.js:18-46 | signals are grouped if and only if the actors are so admitted, every signal is under a key its own actor lists and has four integers from -10000 to 10000, and no two are under one key |
| `AttributionLaws.KnownIff` | src/pilot/policy.js:30-35 | with no key shared, a key is known for exactly the actor that lists it |
| `Attribution.ValidateActors` | src/pilot/policy.js:18-32 | the passes over actors give the verdict of the specification: the first of the count, the three unique names, the admission and the shared keys that fails |
| `Attribution.GroupSignals` | src/pilot/policy.js:33-46 | the actors are validated first; then the pass with the set of keys seen accepts and groups as specified, refusing the first unapproved, repeated or malformed signal |
| `Attribution.AttributeActors` | src/pilot/policy.js:67-88 | succeeds if and only if returns are four and at least -1, weights are capped and three actors submitted; the rows are then the actors in order, each with its Shapley value of what the capped targets of the coalitions earn |
| `IntegerStreamLaws.EmaTrails` | research/adapter/replay.py:85-115 | for streams of any length the integer average never exceeds the exact rational recurrence and trails it by at most 4 (fast), 10 (slow) and 10 (trend) ticks |
| `IntegerStreamLaws.EmaInRange` | research/adapter/replay.py:85-115 | every average stays within the range of the prices seen |
| `IntegerStreamLaws.AveragesNeverOverflow` | research/adapter/replay.py:85-113 | every contiguous stream of candles within bounds runs to its end without tripping the 128-bit check, and every bar's signals are the crossings of the closed-form averages |
| `IntegerStreamLaws.TrendExactly` | research/adapter/replay.py:85-124 | a trend stream of acceptable candles of any length runs to its end, every bar its closed form, if and only if the balance after each of them fits in 128 bits; otherwise it stops with the overflow |
| `IntegerStreamLaws.AveragesRunIff` | research/adapter/replay.py:85-116 | for any rows: the crossing averages run to the end if and only if the schedule is contiguous and every price and volume is within bounds |
| `IntegerStreamLaws.TrendRunsIff` | research/adapter/replay.py:85-126 | for any rows: a trend runs to the end if and only if, besides, the balance stays within 128 bits |
| `SignalLaws.AverageSignals` | research/adapter/replay.py:98-116 | every bar of the crossing averages: each average is missing until its seed is complete, then the seed's mean, then one step on, all rounded down; enter and leave are exactly the crossings on bars with volume, never both |
| `SignalLaws.TrendSignals` | research/adapter/replay.py:117-126 | every bar of a trend: the line moves two twenty-firsts of the way to the close, rounded down; the balance moves by the volume with the sign of the price change; the four signals are exactly the breaks with and against it |
| `IntegerStreamLaws.TrendNeverOverflows` | research/adapter/replay.py:85-124 | in particular no stream of at most (2^127 - 1) / 10^20 bars overflows |
| `IntegerStreamLaws.TrendCanOverflow` | research/adapter/replay.py:66-69 | that length is the longest that is safe for all volumes: one bar more can trip the 128-bit check on candles that are all acceptable |
| `IntegerStreamLaws.QuantizeIff` | research/adapter/replay.py:72-82 | a number is accepted as n ticks exactly when it is finite, equals n ticks without rounding, and lies within the bounds |
| `IntegerStream.Run` | research/adapter/replay.py:85-124 | the loop over candles gives the bars of the specification, or stops at the first fault with its error |

## Left out

- Owners are represented by their rank in the collation order of `localeCompare`, and rank 0 stands for the empty name.
- The text side of numbers: the parsing of decimal amounts and of stored integers, and keys such as `__proto__`.
- Deposits broadcast from an external wallet (`prepare`, `complete`, `externalAwait`, src/sleeves/runtime.js:70-79 and
  138-146), the venue's fee records, the public track and the views: the runtime is modelled for commands it broadcasts.
- Quotes of the venue and the liquidity check before closing a short (src/sleeves/runtime.js:116-127): a quote is an
  input, and fills are what the vault contract permits.
- Authentication of commands and envelopes, encryption and attestation: a command that reaches the model is authentic.
- The promise queues: operations of one object do not interleave, as the source's queues ensure.
- The chain over RPC (src/pilot/chain.js:115 on, src/sleeves/chain.js:44-67) and deployments, which the journal treats
  like transactions.
- The coordinator's configuration checks (src/integration/coordinator.js:22-32), the read-only VIEW command, the salt
  and the intent hash of an approval: approvals are told apart without it.
- A store write of the coordinator that fails while the process goes on.
- The JSON reader accepts what canonical texts consist of: no white space between tokens, no fractions or exponents.
- Numbers that are not integers, in canonical printing and so in hashed documents: the printing of fractions is not
  modelled. Integers are those a double holds exactly.
- UTF-8 encoding before hashing: canonical texts have no unpaired surrogates, so the encoding loses nothing. A string
  hashed as it stands may have them, and may begin with the node prefix; the encoded bytes are not modelled.
- A roster entry whose id is not a text is refused by the model; the source would use it as a property name.
- AlphaServices.AlphaService.Submit: the signed receipt it returns beside the flag for a duplicate is not modelled; the
  clock is an input, as the time of acceptance and as whether the window is open.
- `expireOpen` and `sealInternal` around the freeze, and the float book and metrics of src/core/engine.js: they are
  computed in doubles.
- Rounding in src/pilot/policy.js: values are exact, so contributions are reals and means are exact before truncation.
  Weights are integers by type, returns are finite by type.
- Attribution.AttributeActors: masks are unbounded, where the source's `1 << n` is 32-bit and breaks from 31 groups on;
  groups that come from `groupSignals` are at most eight (`AttributionLaws.GroupedIff`).
- Attribution.ValidateActors: lower-casing is that of the letters A to Z, and the fields are texts by type.
- `chooseActorWeights` and `referenceQuality` of src/pilot/policy.js.
- IntegerStreamLaws.QuantizeIff: the product with the scale is exact, where Python's decimal context rounds it to 28
  significant digits; inputs of at most 28 digits are not affected.
- IntegerStream.Run: indicators stay in ticks, where the source divides them by the scale into floats.
- Registration names are checked for a character other than a space where the source trims all white space.
- The list of events kept by the review's custody.
