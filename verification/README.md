# Mining gateway: verified model of the money pipeline

A Dafny model of a mining-pool gateway: workers connect through it to an upstream pool, the pool pays
deposits, deposits are divided over the accepted work, and customers are paid out. The model covers

- the **money pipeline** as one state machine (`Protocol`): deposits, allocation, double-entry journal,
  destinations, planning, approval, signing, broadcast and confirmation, next to a ghost chain of relayed
  transactions. Every database transaction or single write is one step. A crash or an exception may come
  between any two awaits of an execution, transactions are relayed one at a time, and approvals, scans and
  confirmations write on reads that may be stale. `Safety` proves the invariant of all steps, `Guarantees`,
  `Recovery` and `Guards` what follows for every run, `Scenario` that runs get all
  the way, `EmptyItems`, `Overdraft` and `Reorgs` where it fails and
  exactly when. `Backend` holds the same services as a class with
  loops and overwritten rows; its ghost history makes every state of the object a run of the protocol.
- the **arithmetic** under it: `Apportionment` (largest remainder, exact and rounded), `WalletFees` (the fee
  loop), `Ledger`, `Deposits`, `Payouts`.
- the **gateway**: `Shares`, `Gateway`, `Sessions`, `ShareGuarantees` (ids, answers, counters and work over all
  interleavings of any number of sessions), `GatewaySession` (the objects), `Framing`; and `Joint`, both sides with
  the allocation transaction that spans them.
- three small pieces: `Canonical` and `Audit` (hash-chained log), `Totp` (base32 and codes), `Slots` (interval
  schedule).

`dafny verify dfyconfig.toml` checks everything.

## Findings

- apps/server/src/config/environment.ts:70-78 accepts a negative default for the payout minimum. With one a customer
  can be paid twice; nobody is ever overdrawn exactly when the minimum is not negative (`Overdraft.MinimumDecides`).
- apps/server/src/ledger/ledger.service.ts:89 refuses empty journal transactions. A customer batch in which the
  operator pays the fee may, with a minimum of zero, hold an item of no value; it is broadcast and then refused for
  ever (`EmptyItems.StuckRun`, `EmptyItems.NeverJournaled`), exactly for such an item
  (`Safety.CommitIsRefusedOnlyIfEmpty`), and never with positive effective minimums
  (`EmptyItems.PositiveMinimumsCommit`).
- apps/server/src/wallets/deposits.service.ts:68-106 flags an allocated deposit that loses its confirmations only while
  its row says ALLOCATED (`Reorgs.FlaggedExactly`); the next scan rewrites the flag, and later losses are not flagged
  (`Reorgs.SecondLossIsNotFlagged`, `Reorgs.StagesOnlyRise`).
- apps/server/src/payouts/payouts.service.ts:213-234 writes an approval on a read that may be stale, which can leave
  AUTO_APPROVED with a payload (`Scenario.StaleApprovalRun`). The check at line 340 never throws; the one at line 388
  throws exactly for a row read as AUTO_APPROVED (`Guards.GuardsExactly`), and the batch is recoverable
  (`Guards.TrippedGuardIsRecoverable`).
- apps/server/src/gateway/monero-gateway.session.ts:242 accepts a reply that has neither result nor error
  (`Shares.AcceptanceIsPositive`).
- apps/server/src/gateway/line-json-peer.ts:31 looks at raw bytes and line 39 at trimmed text, so a raw line longer
  than the limit passes or fails depending on how the network cuts it (`Framing.ChunkingMatters`,
  `Framing.ChunkingDecides` for exactly which streams). After a bad line later ones are still delivered (`Framing.GoodLineAfterBad`).
- apps/server/src/audit/audit.service.ts:21-23 sorts keys by a collation. The text of a value is independent of their
  order exactly when no two keys of one object compare equal (`Canonical.OrderBlindIffUntied`); otherwise the
  database may keep an order that breaks the row (`Audit.TiedTextsMayDiffer`).
- docs/OPERATIONS.fa.md:7 says that UNKNOWN shares are not settled automatically. An answer that arrives while a
  closing session waits still settles the share (`ShareGuarantees.LateAnswerSettles`), and so does one that arrives
  after the clean-up of apps/server/src/gateway/share-maintenance.service.ts:42-52
  (`ShareGuarantees.AnswerAfterCleanUpSettles`); in general exactly the recording of an answer being handled does
  (`ShareGuarantees.UnknownIsSettledExactly`).
- docs/ARCHITECTURE.md:28 speaks of work "for the same upstream"; the code takes all endpoints with the account key of
  the deposit's upstream (apps/server/src/ledger/ledger.service.ts:118-125), exactly these in every run
  (`Joint.CreditsFollowShares`). It is the same if and only if no other upstream has that key
  (`Joint.OwnUpstreamOnly`).

## Assumptions

- The execution lock is exclusive, and at most one allocation batch exists per deposit (a unique column).
- The wallet signs transactions that carry the outputs asked for and the quoted fee under ids never seen before,
  and only knows transactions that were relayed. Its quotes, failures, reported ids and confirmations are arbitrary;
  the stuck run of the findings needs one that funds an output of value zero.
- Receipts carry positive amounts. Where a result needs payout minimums that are not negative it says so.
- `localeCompare` is a total preorder, hashing is collision-free where stated, UTF-8 decoding and trimming never
  lengthen a line, and `toUpperCase` leaves the base32 alphabet alone.

## Model

| member | source | states |
|---|---|---|
| `Apportionment.LargestRemainder` | apps/server/src/ledger/allocation.ts:13-31 | negative totals and non-positive weights are refused, no items give an empty result; otherwise keys keep their order and the amounts are the largest-remainder apportionment of the exact quotas |
| `Apportionment.LargestRemainderIsUnique` | apps/server/src/ledger/allocation.ts:23-30 | the apportionment (all units handed out, floor or floor plus one, raised items win by remainder and then by lower index) determines every amount |
| `Apportionment.WithinOneUnit` | apps/server/src/ledger/allocation.ts:18-28 | each amount differs from its exact quota by strictly less than one unit |
| `Apportionment.Monotone` | apps/server/src/ledger/allocation.ts:18-30 | heavier items never get less; among equal weights the lower index gets the odd unit, and the difference is at most one |
| `Apportionment.Optimal` | apps/server/src/ledger/allocation.ts:18-30 | no integer allocation of the same total has a smaller sum of distances from the quotas |
| `Apportionment.NonNegativeAmounts` | apps/server/src/ledger/allocation.ts:13-31 | with non-negative weights nobody gets a negative amount |
| `Apportionment.Settle` | apps/server/src/ledger/allocation.ts:18-30 | for any quotas, exact or rounded: the result sums to the total exactly when the floors do not exceed it, and is the largest-remainder result when no more units are missing than there are items |
| `Apportionment.PayMissing` | apps/server/src/ledger/allocation.ts:25-28 | the loop hands out exactly the missing units, and one each to the front of the queue while they do not exceed its length |
| `Apportionment.QuotasAddUp` | apps/server/src/ledger/allocation.ts:16-19 | exact quotas sum to the total |
| `Apportionment.FloorsFit` | apps/server/src/ledger/allocation.ts:20-28 | their floors never exceed the total, and fewer units than items are missing, so the loop never wraps |
| `Apportionment.RoundedFloorsFit` | apps/server/src/ledger/allocation.ts:16-28 | with every decimal operation rounded by relative error at most u, whenever total * (1 + u)^2 < (total + 1) * (1 - n * u) the floors of n items still fit and at most n units are missing, so the total is handed out exactly, at most one unit to each, by the rounded remainders, and the loop never wraps |
| `Apportionment.RoundedAmountsAreClose` | apps/server/src/ledger/allocation.ts:16-28 | under the same condition rounding moves each quota by less than one unit, and every amount is within two units of the exact quota |
| `Apportionment.SplitBasisPoints` | apps/server/src/ledger/allocation.ts:33-42 | refused exactly outside 0..10000; the parts sum to the total, and for non-negative totals the customer part is the exact share rounded down |
| `WalletFees.Converge` | apps/server/src/wallets/bitcoin-wallet.adapter.ts:98-143 | returns only at a fixpoint: the quote returned is the wallet's answer to outputs that give every item's own address its net amount, and its fee is the fee that was charged; the first call asks for the gross amounts in the same way; giving up means four trials without a fixpoint, a wallet failure that some call threw, and any other error that the last fee admits no charge at all |
| `WalletFees.Charge` | apps/server/src/wallets/bitcoin-wallet.adapter.ts:112-128 | succeeds exactly when some charge of this fee exists: shares by largest remainder over gross, every deducted net positive |
| `WalletFees.ChargesIsUnique` | apps/server/src/wallets/monero-wallet.adapter.ts:105-121 | the charge of a fee is determined by the items |
| `WalletFees.ChargesConserve` | apps/server/src/wallets/monero-wallet.adapter.ts:105-121 | fee shares sum to the fee; net plus fee is gross when deducted, net is gross otherwise |
| `WalletFees.PrepareMonero` | apps/server/src/wallets/monero-wallet.adapter.ts:92-142 | a converged payout is accepted exactly with metadata and one id per transaction; its quote is the wallet's answer to each item's address with its net amount, and its fee the sum of the transaction fees; each error has its cause |
| `WalletFees.RelayAll` | apps/server/src/wallets/monero-wallet.adapter.ts:144-155 | what was relayed is a prefix of the payload, all of it on success, with the reported or expected id of each |
| `Ledger.Post` | apps/server/src/ledger/ledger.service.ts:71-103 | succeeds exactly for equal positive debit and credit totals under a reference not used before, and then appends that transaction |
| `Ledger.Totals` | apps/server/src/ledger/ledger.service.ts:83-88 | the two folds are the debit and credit totals |
| `Ledger.PayoutNet` | apps/server/src/ledger/ledger.service.ts:316-426 | what a payout's entries do to every account and group of accounts, for either fee payer |
| `Ledger.PartitionJournal` | apps/server/src/ledger/ledger.service.ts:39-69 | every entry falls on exactly one of treasury, clearing, revenue, fees and customer liabilities |
| `Deposits.ByAddress` | apps/server/src/wallets/deposits.service.ts:42-58 | refused exactly when two pool accounts share an address; otherwise every known address maps to a best-priority upstream of its account |
| `Deposits.Itemise` | apps/server/src/ledger/ledger.service.ts:121-165 | largest remainder over the groups with work, then the policy's split; or the first fault in the source's order of checks, exactly |
| `Deposits.FaultlessPolicies` | apps/server/src/ledger/ledger.service.ts:152-155 | no policy fault exactly when every group's policy is present and in range |
| `Deposits.ItemisedIsUnique` | apps/server/src/ledger/ledger.service.ts:148-165 | the division is a function of deposit, groups and policies |
| `Deposits.ItemisedConserves` | apps/server/src/ledger/ledger.service.ts:166-169 | customer and operator parts sum to the deposit and none is negative, so the allocation guard never fires |
| `Deposits.BuildLiabilities` | apps/server/src/ledger/ledger.service.ts:214-241 | the loops compute the entries of the positive customer totals |
| `Deposits.TotalsAreByCustomer` | apps/server/src/ledger/ledger.service.ts:214-220 | one total per customer, in the order of first appearance, each the sum of that customer's items |
| `Deposits.AllocationNet` | apps/server/src/ledger/ledger.service.ts:191-262 | what both journal transactions of an allocation do to every group of accounts; each of them balances at the deposit's amount |
| `Deposits.PostAllocationSucceeds` | apps/server/src/ledger/ledger.service.ts:191-262 | the journal accepts an allocation exactly when neither reference was used |
| `Payouts.TreasuryIsOutflow` | apps/server/src/payouts/payouts.service.ts:392-415 | for either fee payer, with or without a policy snapshot: the treasury credit of a journaled batch is the outflow of its signed payload |
| `Payouts.PostItemsBalance` | apps/server/src/payouts/payouts.service.ts:389-419 | journaling a batch moves each balance by the effect of exactly the items not journaled before |
| `Payouts.PostItemsUnique` | apps/server/src/payouts/payouts.service.ts:389-419 | journaling keeps references unique |
| `Payouts.PostItemsSucceeds` | apps/server/src/payouts/payouts.service.ts:389-419 | posting is refused exactly for an item of no value at all |
| `Payouts.PostItemsAppends` | apps/server/src/payouts/payouts.service.ts:389-419 | journaling appends exactly one transaction per item without one, in order, for the owner, gross, fee and fee payer of that item |
| `Payouts.SelectedIsDistinct` | apps/server/src/payouts/payouts.service.ts:80-90 | with one active destination per customer the selection holds every customer at most once |
| `Payouts.PlannedItems` | apps/server/src/payouts/payouts.service.ts:97-120 | every planned item pays one customer all that is available, at least the minimum |
| `Payouts.PlansTheRows` | apps/server/src/payouts/payouts.service.ts:80-120 | the plan as a whole: the first active and eligible rows, at most as many as asked for, and of them exactly those with enough available, in order, each with its own customer and address and all that is available |
| `Safety.NextKeeps` | apps/server/src/payouts/payouts.service.ts:74-485 | every step of the pipeline keeps the invariant: rows, executor, books, references, coverage, allocations, chain, automatic limit, destinations (minimums not negative; see Overdraft.MinimumDecides) |
| `Safety.EveryRun` | apps/server/src/payouts/payouts.service.ts:293-454 | the invariant holds after every run, with crashes and exceptions between any two awaits and stale approvals and confirmations |
| `Safety.CommitIsRefusedOnlyIfEmpty` | apps/server/src/payouts/payouts.service.ts:388-428 | once everything is relayed and the state allows it, the final transaction fails exactly for an item of no value |
| `EmptyItems.StuckRun` | apps/server/src/payouts/payouts.service.ts:388-428 | a run whose payload is on the chain and whose final transaction is refused: two customers, one without a balance, minimum zero, the operator paying the fee |
| `EmptyItems.NeverJournaled` | apps/server/src/payouts/payouts.service.ts:388-428 | a batch signed with an item of no value is never journaled and never becomes BROADCAST or CONFIRMED, whatever happens later |
| `EmptyItems.PositiveMinimumsCommit` | apps/server/src/payouts/payouts.service.ts:107-113 | with positive effective minimums the final transaction is never refused once everything is relayed and the state allows it |
| `Safety.PlanIsNeverRefused` | apps/server/src/payouts/payouts.service.ts:97-142 | no plan repeats a customer |
| `Guarantees.NoOverdraft` | apps/server/src/payouts/payouts.service.ts:97-120 | for every owner, customer or operator: 0 <= gross planned and not journaled <= ledger balance, in every reachable state of runs with minimums that are not negative |
| `Overdraft.MinimumDecides` | apps/server/src/payouts/payouts.service.ts:107-113 | nobody is overdrawn in any run with payout minimum m if and only if m >= 0 |
| `Overdraft.NegativeMinimumOverdraws` | apps/server/src/payouts/payouts.service.ts:97-120 | for every negative minimum a run from the empty system that pays one deposit twice and leaves the balance at that minimum |
| `Guarantees.ClosedIsJournaled` | apps/server/src/payouts/payouts.service.ts:31-38 | items leave the open set only once journaled |
| `Guarantees.AccountingIdentity` | apps/server/src/ledger/ledger.service.ts:83-90 | debits equal credits, clearing nets to zero, and treasury = customer liabilities + operator revenue - network fees kept by the operator |
| `Guarantees.LedgerAgreesWithChain` | apps/server/src/payouts/payouts.service.ts:375-428 | treasury = credited deposits - outflow of the payloads of journaled batches; these payloads are on the chain, and every transaction on the chain belongs to the payload of exactly one batch |
| `Guarantees.HistoryIsKept` | apps/server/src/payouts/payouts.service.ts:312-374 | no later step changes a stored payload, its fee split, a journal mark, a journal transaction, the chain, or the amount and upstream of a deposit |
| `Guarantees.JournaledAtMostOnce` | apps/server/src/payouts/payouts.service.ts:392-419 | an item is marked journaled exactly when its journal transaction exists, no reference occurs twice, and BROADCAST or CONFIRMED means journaled |
| `Guarantees.DepositsAreCreditedOnce` | apps/server/src/wallets/deposits.service.ts:66-127 | no deposit has two allocations, each allocation credits the amount first observed and splits it exactly, and ALLOCATED or REORGED deposits have theirs |
| `Reorgs.StagesOnlyRise` | apps/server/src/wallets/deposits.service.ts:68-106 | over runs with fresh reads an allocated deposit that has left ALLOCATED never is again, and one that has left REORGED never is again |
| `Reorgs.FlaggedExactly` | apps/server/src/wallets/deposits.service.ts:68-86 | a receipt flags a deposit if and only if it is locked and the row still says ALLOCATED |
| `Reorgs.SecondLossIsNotFlagged` | apps/server/src/wallets/deposits.service.ts:68-106 | a run in which an allocated deposit loses its confirmations a second time and nothing halts payouts |
| `Guarantees.AllocationRefusals` | apps/server/src/ledger/ledger.service.ts:105-172 | a division is refused exactly for a deposit that is not confirmed or already has its allocation |
| `Guarantees.ApprovedBeforeSigned` | apps/server/src/payouts/payouts.service.ts:213-234 | whatever is executable, signed, broadcast, confirmed, failed or holds a payload was within the automatic limit or has an approver; signed customer batches respect fee * 10000 <= gross * cap |
| `Guarantees.DailyAutomaticLimit` | apps/server/src/payouts/payouts.service.ts:536-557 | what was approved automatically on one local day never exceeds the limit in force at one of these approvals |
| `Recovery.RetryFinishes` | apps/server/src/payouts/payouts.service.ts:302-433 | from every reachable state one undisturbed retry of a signed batch broadcasts exactly its stored payload, journals every item that was not, and touches no other row |
| `Recovery.AttemptSigns` | apps/server/src/payouts/payouts.service.ts:312-368 | from every reachable state an approved batch gets signed by any wallet answer that charges the fee within the cap |
| `Scenario.PipelineRuns` | apps/server/src/payouts/payouts.service.ts:74-484 | for every positive deposit and every smaller fee there is a run that credits, plans, signs, broadcasts and confirms it |
| `Guards.GuardsAreDead` | apps/server/src/payouts/payout-state.ts:23-30 | without interleaved approvals or confirmations of the executed batch no transition check throws, AUTO_APPROVED means unsigned and SIGNED means signed |
| `Guards.GuardsExactly` | apps/server/src/payouts/payouts.service.ts:340-388 | over all runs, stale approvals included: the check before signing never throws, and the check before the final write throws if and only if the row was read as AUTO_APPROVED |
| `Guards.CalmStatesFollowTable` | apps/server/src/payouts/payout-state.ts:3-21 | in such runs every written state is allowed by the transition table |
| `Guards.StaleApprovalTripsGuard` | apps/server/src/payouts/payouts.service.ts:213-234 | an approval read before and written after signing leaves AUTO_APPROVED with a payload, which the check before the final write refuses |
| `Scenario.StaleApprovalRun` | apps/server/src/payouts/payouts.service.ts:213-234 | a run from the empty system, for every amount and fee, that ends there |
| `Guards.TrippedGuardIsRecoverable` | apps/server/src/payouts/payouts.service.ts:434-453 | the refusal leaves FAILED with the same payload, journal and chain, loadable for a broadcast the check allows |
| `Backend.Database.BalanceOf` | apps/server/src/ledger/ledger.service.ts:275-314 | one pass over the entries gives the owner's balance |
| `Backend.Database.AvailableTo` | apps/server/src/payouts/payouts.service.ts:31-106 | balance less the gross of the owner's items in batches that are planned, waiting, approved, signed, broadcast or failed |
| `Backend.Database.ActivateDueDestinations` | apps/server/src/customers/customers.service.ts:330-354 | afterwards a due row is active exactly when it is its customer's last due one, older active rows of such customers are revoked, nothing else changes, and nobody has two active destinations |
| `Backend.Database.BuildItems` | apps/server/src/payouts/payouts.service.ts:97-120 | exactly the destinations whose customer has at least the greater of both minimums get an item, in their order, each with that destination's customer and address and all that is available |
| `Backend.Database.Plan` | apps/server/src/payouts/payouts.service.ts:74-153 | activates due destinations, then appends at most one batch: its items pay, in order, exactly the first active and eligible destinations (at most as many as asked for) with enough available, each at its own address; without such a destination nothing is planned |
| `Backend.Database.PlanBatch` | apps/server/src/payouts/payouts.service.ts:77-143 | the planning transaction: the same of the batch, and that it is approved automatically exactly within the limit |
| `Backend.Database.PlanOperator` | apps/server/src/payouts/payouts.service.ts:155-211 | plans exactly when enough revenue is available, and only appends a batch with one item: the operator's, all that is available, to the configured address |
| `Backend.Database.CanAutoApprove` | apps/server/src/payouts/payouts.service.ts:536-557 | within the limit alone and together with the gross of the day's batches that were approved automatically and not cancelled |
| `Backend.Database.Approve` | apps/server/src/payouts/payouts.service.ts:213-243 | which batches can be approved, to which state, and that only state and approver change |
| `Backend.Database.Reconcile` | apps/server/src/payouts/payouts.service.ts:457-484 | exactly the broadcast batches whose transactions all have enough confirmations become confirmed |
| `Backend.Database.AllocateDeposit` | apps/server/src/ledger/ledger.service.ts:105-273 | exactly when it succeeds and which refusal comes out otherwise; then the division credited, both journal transactions and the status, or no change; the allocation and journal guards are dead |
| `Backend.Database.CreditDeposit` | apps/server/src/ledger/ledger.service.ts:170-262 | the writes of an allocation |
| `Backend.Database.ObserveReceipt` | apps/server/src/wallets/deposits.service.ts:63-115 | the status machine of one receipt; a new row has the receipt's amount and upstream, an existing one keeps both |
| `Backend.Database.ScanReceipt` | apps/server/src/wallets/deposits.service.ts:60-127 | the row follows the receipt and is credited exactly when confirmed, divisible and without an allocation; amount and upstream as above; no other row is touched |
| `Backend.Database.Scan` | apps/server/src/wallets/deposits.service.ts:42-127 | refused exactly for an ambiguous address; attributable receipts get rows and, if unlocked and divisible, allocations; a new row has the amount of a receipt and the upstream that speaks for the address it was paid to; rows keep amount and upstream, others stay as they are, nothing else is allocated |
| `Backend.Database.PreparePayout` | apps/server/src/payouts/payouts.service.ts:313-338 | what gets signed is the wallet's own quote for outputs that give each item's address its gross less the fee share it bears, at the fee that was charged, under the batch's fee rule and within the cap |
| `Backend.Database.SignBatch` | apps/server/src/payouts/payouts.service.ts:339-368 | fee split, payload, its ids and SIGNED in one write, read back; address, owner and gross of every item stay |
| `Backend.Database.BroadcastPayload` | apps/server/src/payouts/payouts.service.ts:370-387 | relays nothing but the stored payload, and nothing at all when the wallet knows every expected id |
| `Backend.Database.PostAll` | apps/server/src/payouts/payouts.service.ts:389-419 | appends exactly one transaction per item that has none, in order, under the reference of batch and owner, with the fee borne by whom the snapshot or else the deduction says |
| `Backend.Database.JournalBatch` | apps/server/src/payouts/payouts.service.ts:388-428 | commits exactly when the state allows it and every unposted item has a value; then these transactions are appended and every item is marked, nothing else of it changed |
| `Backend.Database.Execute` | apps/server/src/payouts/payouts.service.ts:293-454 | each refusal exactly, a flagged deposit halting all; success means BROADCAST, fully journaled and on the chain; a failure leaves FAILED and the journal untouched, or a complete batch if only reading it back failed; a stored payload is never replaced and nothing else reaches the chain |
| `Shares.AcceptanceIsPositive` | apps/server/src/gateway/monero-gateway.session.ts:242-242 | the Bitcoin rule accepts exactly a result of true with a null or missing error; the Monero rule refuses exactly a truthy error and a result that is null or false, so it accepts all success replies and beyond them exactly those without a result or with a falsy error |
| `ShareGuarantees.AcceptedExactly` | apps/server/src/gateway/bitcoin-gateway.session.ts:264-274 | over all runs, on the fields of the recorded reply: ACCEPTED behind a Bitcoin endpoint exactly for a result of true with a null or missing error, REJECTED behind a Monero endpoint exactly for a truthy error or a result that is null or false |
| `Shares.GroupedWork` | apps/server/src/ledger/ledger.service.ts:126-143 | one group per customer and policy, with exactly the work of its accepted, unassigned shares at these endpoints |
| `Shares.FilteredWork` | apps/server/src/ledger/ledger.service.ts:136-141 | groups with positive work keep it, others drop out |
| `Shares.GroupsCarryWork` | apps/server/src/ledger/ledger.service.ts:126-141 | grouped and filtered: distinct groups of positive work, each the whole work of its customer and policy at these endpoints |
| `Sessions.NextKeeps` | apps/server/src/gateway/bitcoin-gateway.session.ts:203-308 | every step of any session, clean-up or allocation keeps the invariant that ties shares, pending maps, answers and counters |
| `Sessions.EveryRun` | apps/server/src/gateway/bitcoin-gateway.session.ts:203-308 | the invariant holds after every interleaving |
| `ShareGuarantees.StatusIsTheAnswer` | apps/server/src/gateway/share-journal.service.ts:82-137 | a share's status is the recorded answer, or else PENDING or UNKNOWN; a recorded answer came under the id its request was sent with and has the verdict of the session's rule |
| `ShareGuarantees.UnknownIsSettledExactly` | apps/server/src/gateway/share-journal.service.ts:82-104 | over all runs a step gives an UNKNOWN share a verdict if and only if it records an answer being handled for that share, whose row is still there |
| `ShareGuarantees.LateAnswerSettles` | apps/server/src/gateway/bitcoin-gateway.session.ts:299-308 | a run in which an answer that arrives while close waits turns UNKNOWN into the pool's verdict |
| `ShareGuarantees.AnswerAfterCleanUpSettles` | apps/server/src/gateway/share-maintenance.service.ts:42-52 | a run in which the clean-up makes a share UNKNOWN in an open session and the later answer settles it |
| `ShareGuarantees.CountersAreVerdicts` | apps/server/src/gateway/share-journal.service.ts:99-102 | the connection's counters are the numbers of its shares with either verdict |
| `ShareGuarantees.VerdictsAreFinal` | apps/server/src/gateway/share-maintenance.service.ts:42-77 | no later step changes a verdict, an assignment or a deletion, and no accepted share is deleted before it is assigned |
| `ShareGuarantees.WorkIsConserved` | apps/server/src/ledger/ledger.service.ts:121-186 | accepted work = assigned work + stored waiting work in every run; each batch's items carry the work of exactly the shares marked for it |
| `ShareGuarantees.BatchTakesExactly` | apps/server/src/ledger/ledger.service.ts:121-186 | over all runs a batch has exactly the shares that were accepted, stored and unassigned at the endpoints of the allocation that made it, when it was made |
| `Joint.CreditsFollowShares` | apps/server/src/ledger/ledger.service.ts:105-267 | in every joint run of pipeline and gateway each allocation divides its deposit over the work of exactly the shares marked for it, and these are exactly the shares waiting, when it was made, at the upstreams with the account key of the deposit's upstream |
| `Joint.OwnUpstreamOnly` | apps/server/src/ledger/ledger.service.ts:118-133 | a deposit pays for the work of its own upstream only, whatever the shares, if and only if no other upstream has its account key |
| `Joint.Halves` | apps/server/src/ledger/ledger.service.ts:105-267 | both halves of a joint run are runs of their own, so all guarantees carry over |
| `Joint.AllocateOverBoth` | apps/server/src/ledger/ledger.service.ts:105-267 | one method over both tables, each refusal exactly: groups the accepted shares of the deposit's pool account, divides and credits the deposit, marks exactly those shares, or changes nothing; it is the joint step |
| `ShareGuarantees.IdsAreTranslated` | apps/server/src/gateway/bitcoin-gateway.session.ts:231-280 | the ids on the wire are 1, 2, 3, ...; pending ones are below nextId; a reply carries the original id and no request gets two |
| `ShareGuarantees.OneRequestPerShare` | apps/server/src/gateway/monero-gateway.session.ts:171-217 | no two requests of any sessions carry the same share |
| `ShareGuarantees.SubmitFollowsStore` | apps/server/src/gateway/bitcoin-gateway.session.ts:221-245 | over all runs every submit sent has its share's record, of the same session and past the submit handler, and the record was stored before the step that sent it |
| `ShareGuarantees.UnmatchedIsDropped` | apps/server/src/gateway/bitcoin-gateway.session.ts:261-263 | a reply under an id that is not pending changes nothing |
| `GatewaySession.MiningSession.ForwardRequest` | apps/server/src/gateway/bitcoin-gateway.session.ts:231-246 | is the forward step under a fresh id |
| `GatewaySession.MiningSession.Authorize` | apps/server/src/gateway/bitcoin-gateway.session.ts:149-201 | a refused worker gets nothing forwarded and its session closed; a granted one may submit |
| `GatewaySession.MiningSession.Submit` | apps/server/src/gateway/bitcoin-gateway.session.ts:203-229 | refused before authorisation; afterwards stores the share as PENDING with its session, endpoint, customer, policy and work, then forwards it under a fresh id |
| `GatewaySession.MiningSession.OnUpstream` | apps/server/src/gateway/bitcoin-gateway.session.ts:261-276 | ignores unmatched ids; otherwise records the verdict that the reply's fields say and replies under the original id, or neither if the write fails |
| `GatewaySession.MiningSession.RecordAnswer` | apps/server/src/gateway/share-journal.service.ts:82-104 | verdict, as the reply's fields say, and counter together, or nothing |
| `GatewaySession.MiningSession.Close` | apps/server/src/gateway/bitcoin-gateway.session.ts:299-308 | once only; exactly the shares of pending requests that are still PENDING become UNKNOWN, and the pending map is emptied |
| `GatewaySession.ShareTable.SetUnknown` | apps/server/src/gateway/share-journal.service.ts:116-129 | exactly the referenced shares that are stored and still PENDING become UNKNOWN |
| `GatewaySession.ShareTable.PruneRawShares` | apps/server/src/gateway/share-maintenance.service.ts:66-77 | of the old shares deletes exactly those that are accepted and assigned, rejected or unknown |
| `GatewaySession.ShareTable.GroupAccepted` | apps/server/src/ledger/ledger.service.ts:126-141 | distinct groups of positive work, each the whole accepted, unassigned work of its customer and policy at these endpoints |
| `GatewaySession.ShareTable.AssignAccepted` | apps/server/src/ledger/ledger.service.ts:179-186 | marks exactly the rows that are stored, accepted, unassigned and of one of these endpoints, and nothing without such work |
| `Framing.ChunksDeliver` | apps/server/src/gateway/line-json-peer.ts:29-62 | for every stream and chunking, errors or not: what is delivered and what is still buffered are together exactly the messages of the complete lines, in order; without an error all of it is delivered and the buffer is the unfinished line |
| `Framing.LinesRejoin` | apps/server/src/gateway/line-json-peer.ts:35-43 | the complete lines, each with its line feed, and the rest are the stream again, and none of them holds a line feed |
| `Framing.GoodLineAfterBad` | apps/server/src/gateway/line-json-peer.ts:43-59 | a bad line does not stop the stream: the next chunk lets good lines through |
| `Framing.EveryChunkingSucceeds` | apps/server/src/gateway/line-json-peer.ts:29-62 | every chunking of a stream succeeds if and only if all its raw lines fit the limit and none is bad |
| `Framing.ChunkingDecides` | apps/server/src/gateway/line-json-peer.ts:29-62 | all chunkings of a stream agree if and only if all succeed, or some line is bad, or it is one unfinished line over the limit |
| `Framing.BufferIsBounded` | apps/server/src/gateway/line-json-peer.ts:30-34 | the buffer holds no newline and is within the limit or shorter than the last chunk |
| `Framing.ChunkingMatters` | apps/server/src/gateway/line-json-peer.ts:31-42 | an oversized raw line that trims to a good one passes in one chunk and fails byte by byte |
| `Framing.FittingLinesFailToParse` | apps/server/src/gateway/line-json-peer.ts:37-47 | on a fitting line only the parser can object |
| `Framing.LineJsonPeer.Receive` | apps/server/src/gateway/line-json-peer.ts:29-62 | the loop does what the specification does to one chunk, also after an error |
| `Framing.LineJsonPeer.ReceiveAll` | apps/server/src/gateway/line-json-peer.ts:16-62 | a whole run of chunks, errors or not, delivers and buffers the messages of the stream |
| `Canonical.CanonicalText` | apps/server/src/audit/audit.service.ts:17-25 | two values print alike if and only if they are the same value up to key order, when no two keys of an object compare equal |
| `Canonical.PrintIsInjective` | apps/server/src/audit/audit.service.ts:17-25 | equal texts come from equal values, ties or not |
| `Canonical.PrintForgetsOrder` | apps/server/src/audit/audit.service.ts:21-24 | the text does not depend on the order of keys |
| `Canonical.TiesShowOrder` | apps/server/src/audit/audit.service.ts:21-23 | two keys of one object that tie, at any depth: a value with the same meaning and another text |
| `Canonical.OrderBlindIffUntied` | apps/server/src/audit/audit.service.ts:21-24 | the text of a value does not depend on the order of keys if and only if no two keys of one object in it compare equal |
| `Canonical.SortIsStable` | apps/server/src/audit/audit.service.ts:21-23 | sorting keeps the order of what does not compare greater |
| `Canonical.PrintSplits` | apps/server/src/audit/audit.service.ts:17-25 | printed values are self-delimiting |
| `Canonical.QuoteReads` | apps/server/src/audit/audit.service.ts:18-24 | printed strings and keys are JSON strings in the sense of section 7 of RFC 8259 that read back as what was printed |
| `Audit.AuditLog.Record` | apps/server/src/audit/audit.service.ts:34-70 | an intact log stays intact if the order the database keeps prints the same texts, always without tied keys, and with a collision-free hash only then |
| `Audit.PayloadShows` | apps/server/src/audit/audit.service.ts:44-54 | the payload's text changes exactly when the text of before or after does |
| `Audit.TiedTextsMayDiffer` | apps/server/src/audit/audit.service.ts:44-54 | with tied keys there is an order the database may keep that breaks the row |
| `Audit.AuditLog.Verify` | apps/server/src/audit/audit.service.ts:81-105 | valid exactly for intact logs, otherwise the first broken event |
| `Audit.LastHashPinsTheLog` | apps/server/src/audit/audit.service.ts:81-105 | with a collision-free hash two verifying logs with the same last hash have the same length and the same hashed fields |
| `Totp.EncodeBase32` | apps/server/src/auth/totp.ts:5-14 | the loops produce the encoding |
| `Totp.DecodeBase32` | apps/server/src/auth/totp.ts:16-29 | the loops produce the decoding, or fail exactly on a foreign character |
| `Totp.RoundTrip` | apps/server/src/auth/totp.ts:5-29 | decoding the encoder's output returns the same bytes, for every byte sequence |
| `Totp.LaidOutRoundTrip` | apps/server/src/auth/totp.ts:16-29 | the same with blanks before any letter and any padding at the end |
| `Totp.EncodesTheNumber` | apps/server/src/auth/totp.ts:5-14 | the letters are, in base 32 and most significant first, the number that the bytes are in base 256, filled with zero bits up to a whole letter |
| `Totp.WindowIsInside` | apps/server/src/auth/totp.ts:40-41 | the truncation window is inside all digests of a length exactly when it is at least 19, so inside every 20-byte digest |
| `Totp.CodesHaveSixDigits` | apps/server/src/auth/totp.ts:41-46 | every code consists of six digits |
| `Totp.CodeIsTruncation` | apps/server/src/auth/totp.ts:40-42 | for digests of any length: the window starts where the low four bits of the last byte say, and the code, read as a number, is its value, most significant byte first, modulo 2^31 modulo 10^6; without four bytes there is none |
| `Totp.CodesAreAcceptedNearby` | apps/server/src/auth/totp.ts:45-52 | a code is accepted up to thirty seconds before and after its making |
| `Totp.AcceptedCodes` | apps/server/src/auth/totp.ts:45-52 | accepted are exactly the codes of the current half minute, the one before and the one after |
| `Slots.LastActsLikeSet` | apps/server/src/settings/settings.service.ts:276-288 | from any stored slot, remembering the last acts like remembering all if and only if no slot returns after it was left |
| `Slots.SlotBounds` | apps/server/src/settings/settings.service.ts:251-259 | the index of a slot is the number of whole intervals since the offset |
| `Slots.EachSlotOnce` | apps/server/src/settings/settings.service.ts:251-259 | under one policy and a clock that does not go back, whatever was stored earlier, each slot is claimed by its first attempt only |
| `Slots.NextIsFirstFreeInstant` | apps/server/src/settings/settings.service.ts:110-114 | t < next <= t + interval, and next is exactly the first instant of another successful claim |
| `Slots.ClockSetBack` | apps/server/src/settings/settings.service.ts:276-288 | a clock set back over a boundary makes a slot be claimed twice |
| `Slots.SlotClaimer.Claim` | apps/server/src/settings/settings.service.ts:276-288 | succeeds exactly when the stored slot differs, and stores it |
| `Slots.SlotClaimer.ClaimAll` | apps/server/src/settings/settings.service.ts:276-288 | a run of claims gives the specified outcomes |

## Left out

- Safety.NextKeeps: excludes planning with a negative minimum, under which the invariant fails; `Overdraft.MinimumDecides` has the other half.
- Safety.EveryRun: excludes planning with a negative minimum, as above.
- Guarantees.NoOverdraft: excludes planning with a negative minimum, under which it is false.
- Backend.Database.Plan: the eligibility of destinations (effective time, customer status) is a parameter; negative minimums are excluded.
- Backend.Database.PlanBatch: negative minimums are excluded.
- Backend.Database.PlanOperator: negative minimums are excluded.
- Backend.Database.Scan: the work recorded by the time of each allocation is a parameter; `Joint.AllocateOverBoth` takes it from the share table.
- WalletFees.Converge: outputs are in atomic units; their conversion to floating-point coins for the Bitcoin wallet is not modelled.
- Deposits.Itemise: `toFixed(18)` of the stored work is not modelled; the work is exact.
- GatewaySession.MiningSession.OnUpstream: notifications, difficulty updates and closing after a failed authorisation are not modelled; a reply id is a number, so an id that is not the decimal text of one matches nothing.
- Framing.LineJsonPeer.Receive: handlers run from the queue are not part of it, nor is the moment at which a closing session destroys the socket.
- Totp.DecodeBase32: `toUpperCase` is a parameter.
- Canonical.CanonicalText: numbers are given by the text they print as; lone surrogates are not modelled.
- Two assets: one asset is modelled; the other has books, batches and plans of its own.
- Several clock readings in one planning run: the local day is a parameter of the run, one value per plan.
- The Redis lock itself: renewal, expiry and token checks; a lost lock only makes the check before a step throw.
- `scheduled` and `monitor`: they only call the operations modelled here.
- DAILY schedules and the operator's weekly schedule: calendar and timezone rules of a library.
- Read-committed races between concurrent activations of destinations: each database transaction is atomic.
- Connection admission, leases, statistics, alerts, events, proxies, sockets, encryption, controllers and the user interface: they would add only easy members, or are foreign code.
