# Z-float: a verified model of the money core

Z-float moves other people's money: payments out of wallets, collections into
them, approvals in front, fiscal documents behind, and a double-entry ledger
underneath. Its code is many small database transactions that are retried,
duplicated and reordered by queues, webhooks and pollers. This project models
those transactions in Dafny and proves what they keep together.

How the model is built:

- A database table is the sequence of its rows in insertion order and a row's id is its position. One
  `db.transaction` is one step: it maps the tables to new tables (`Ok`) or throws (`Err` with the source's code) and
  changes nothing. Unique indexes, CHECK constraints and triggers are guards of the step.
- A machine is a `State`, a `Command` (or `Step`) datatype, `Next` and `Run`. Theorems are about `Run` of any sequence
  of commands, so jobs, callbacks and polls may be duplicated and reordered at will. What lies outside (the provider,
  the tax authority, the handler, the clock, a crash) is a parameter of the command.
- What each operation leaves behind is stated row by row and told apart from how it is computed: `Movements` for the ledger,
  `PaymentOutcomes` and `PaymentDecisions` for payments, `Settlements` for collections, and a last section of `Policy`, `Tax`, `Fiscal`,
  `Approvals`, `Outbox`, `Phones`, `PaymentLinks` and `Money`.
- Code that updates tables in place is also given as classes (`LedgerDb`, `PaymentDb`, `ApprovalDb`, `FiscalDb`,
  `CollectionDb`, `Outbox.Relay`, `Batches.Driver`) whose methods are proved equal to the steps of the machines, or to
  be runs of them.

| file | contents |
|---|---|
| `Prelude.dfy` | options and results, sums over table rows, white space |
| `Ledger.dfy`, `Movements.dfy`, `LedgerDb.dfy` | wallets, reservations, the append-only wallet ledger, journals, what each movement leaves, the health check |
| `Policy.dfy`, `Approvals.dfy` | first-match policies, multi-level maker-checker requests |
| `Payments.dfy`, `PaymentInvariant.dfy`, `PaymentSteps.dfy`, `PaymentTheorems.dfy`, `PaymentGuarantees.dfy`, `ProviderCalls.dfy`, `StrandedFunds.dfy`, `PaymentOutcomes.dfy`, `PaymentDecisions.dfy`, `PaymentDb.dfy` | the payment machine, its invariant, the proof that every command keeps it, what follows, and what each command leaves row by row |
| `Outbox.dfy` | competing pollers, one lease, marks that commit or roll back with it |
| `Tax.dfy`, `Fiscal.dfy` | half-up VAT, gap-free numbering across a two-phase network call |
| `Collections.dfy`, `CollectionTheorems.dfy`, `Settlements.dfy`, `CollectionDb.dfy`, `PaymentLinks.dfy` | money coming in, invoices and receipts, concurrent link payers, all beside the payment machine |
| `Phones.dfy`, `Batches.dfy`, `BatchRuns.dfy` | bulk validation, the chunk driver, and batches beside the payment machine |
| `Base32.dfy`, `Money.dfy` | the two text codecs |

## What the proofs show about the code

- The journal account of a wallet and the wallet row differ, by exactly the fees of payments with a success journal plus
  the principals of payments with a reversal journal (`WalletGap`).
- Reserved money can be freed by some run exactly while its payment is QUEUED, or PROVIDER_PENDING with an attempt that a
  non-empty reference still leads to (`FreeableIff`). It is stranded in exactly four ways (`StrandedExactlyBy`): cancelling a QUEUED
  wallet payment; a webhook that reports REVERSED for a PROVIDER_PENDING one; a provider that leaves a payment pending under an
  empty reference, which no event can name; and a later attempt of another payment with the same reference, which then answers to
  every event. Runs from an empty wallet show each, for any amount and fee (`CancelledRunStrands`, `ReportedRunStrands`,
  `UnnamedRunStrands`, `ShadowedRunStrands`).
- An execution job can call the provider and roll back: exactly when the provider's reference does not fit the attempts
  table, when it answers REVERSED, or SUCCESS while the success journal cannot be posted. The payment is still QUEUED and the next job calls again (`RolledBackIff`).
- A provider reference is only ever stored together with SUCCESS, so the stuck-payment monitor, which skips payments
  without one, never acts (`MonitorHasNothingToPoll`, `MonitorStuckPayments`).
- Resubmitting a REJECTED or FAILED payment always throws, although the command lets both through
  (`ResubmissionThrows`); no command ever stores REJECTED, and FAILED to QUEUED is never taken.
- A reversal that the provider does not confirm at once always rolls back, because the table has no edge from SUCCESS to
  PROVIDER_PENDING (`UnconfirmedReversalCommitsNothing`).
- An approval request past its first level never expires, and a single level with several approvers is reported
  PARTIALLY_APPROVED while it is stored as PENDING (`ExpiryOnlyOnLevelOne`, `ReportedStatus`).
- Extracting VAT from an inclusive price and adding it back may differ by one minor unit: at 16% for totals that are 4, 11,
  18 or 25 above a multiple of 29, at 8% for those 7 or 20 above a multiple of 27, and for no others
  (`StandardRateRoundTrip`, `ReducedRateRoundTrip`; every other rate in `InclusiveRoundTripIff`).
- The phone normaliser accepts an inner plus sign (`InnerPlusAccepted`); when it does not is exact (`AcceptedIsE164Iff`).
- A payment-link key is cut off at 128 characters, so two payers of a link whose references agree on their first 100
  characters share one, and the second is answered with the first one's collection; otherwise they never do
  (`LinkKeysAgreeIff`, `SameCollectionIff`, `TakenForReplayIff`). The route sets a minimum length for the reference and no maximum.
- A batch can become COMPLETED exactly when no row was refused at upload and no row's key is already used by a payment
  (`BatchRuns.CompletableIff`, with the run that does it), and then every row has been journalled once (`CompletedMeansPaid`).
- A display string is not accepted as an amount until its currency is taken off (`DisplayIsNotAnAmount`).

## Model

| member | source | states |
|---|---|---|
| `Ledger.MoveReplays` | packages/ledger/src/wallet.ts:49-85 | recording a wallet movement keeps the append-only ledger replayable: summing deltas gives every recorded balance-after and the live row |
| `Ledger.FindReservation` | packages/payments-core/src/execute.ts:173-181 | the reservation found for a payment belongs to it, and none is found only when it has none |
| `Ledger.CreditSound` | packages/ledger/src/wallet.ts:405-422 | a credit is only ever for a positive amount, keeps the books sound and moves the journal account in step with the wallet row |
| `Ledger.ReserveSound` | packages/ledger/src/wallet.ts:179-261 | reserving, granted or denied, keeps available non-negative and reserved equal to what is held, and takes no money out of the wallet |
| `Ledger.SettleSound` | packages/ledger/src/wallet.ts:264-330 | releasing or applying a held reservation keeps the books sound; only what is applied leaves the wallet |
| `Ledger.PostSound` | packages/ledger/src/ledger.ts:128-182 | posting a journal moves each wallet's gap by the journal's net on its account and nothing else |
| `Ledger.SuccessNeedsFee` | packages/ledger/src/wallet.ts:339-373 | a success journal's debits are principal plus fee and its credits balance only for a non-negative fee |
| `Ledger.SuccessNet` | packages/ledger/src/wallet.ts:339-373 | net effect of a success journal per account: clearing gains everything, the funding account loses the principal only |
| `Ledger.ReversalNet` | packages/ledger/src/wallet.ts:376-402 | net effect of a reversal journal per account: the principal goes back from clearing to the funding account |
| `Movements.JournalAcceptedIff` | packages/ledger/src/ledger.ts:128-182 | a journal is accepted if and only if debits and credits have one positive total and each entry is on one side; it is appended as it is and nothing else changes |
| `Movements.SuccessJournal` | packages/ledger/src/wallet.ts:339-373 | the entries of a posted success journal: clearing debited principal plus fee, the funding account credited the principal, fee revenue the fee if there is one |
| `Movements.ReversalPostedIff` | packages/ledger/src/wallet.ts:376-402 | when a reversal journal can be posted, and that it moves the principal from clearing to the funding account |
| `Movements.CreditedIff` | packages/ledger/src/wallet.ts:152-167 | a wallet is credited if and only if it exists, the amount is positive and the accounts are there; the amount appears in the balance, the entry and the funding journal alike |
| `Movements.ReservedIff` | packages/ledger/src/wallet.ts:179-261 | funds are reserved if and only if the tenant's wallet has them and the payment has no reservation; available falls and reserved rises by the amount, a denial leaves an entry only |
| `Movements.EndedIff` | packages/ledger/src/wallet.ts:264-330 | a held reservation is released into the available balance or applied out of the wallet, for exactly its amount; any other is left alone |
| `LedgerDb.LedgerTables.PostJournal` | packages/ledger/src/ledger.ts:128-182 | sums by loop, refuses unbalanced, non-positive or impure journals and leaves no trace of a refused one |
| `LedgerDb.LedgerTables.GetWalletLedgerAccount` | packages/ledger/src/ledger.ts:94-125 | returns or creates the mirror account, only for the wallet's own tenant |
| `LedgerDb.LedgerTables.AppendWalletLedgerEntry` | packages/ledger/src/wallet.ts:49-85 | records the balances after the movement; a negative amount or an unknown wallet is refused |
| `LedgerDb.LedgerTables.CreditWallet` | packages/ledger/src/wallet.ts:152-167 | row, ledger entry and funding journal together or not at all |
| `LedgerDb.LedgerTables.ReserveFunds` | packages/ledger/src/wallet.ts:179-261 | guarded update, reservation row and entry; a denial is recorded on its own |
| `LedgerDb.LedgerTables.ReleaseReservation` | packages/ledger/src/wallet.ts:264-299 | releases exactly a held reservation, otherwise changes nothing |
| `LedgerDb.LedgerTables.ApplyReservation` | packages/ledger/src/wallet.ts:302-330 | applies exactly a held reservation, otherwise changes nothing |
| `LedgerDb.LedgerTables.PostPaymentSuccessJournal` | packages/ledger/src/wallet.ts:339-373 | builds the entries step by step and posts them, or leaves the tables as they were |
| `LedgerDb.LedgerTables.PostReversalJournal` | packages/ledger/src/wallet.ts:376-402 | likewise for the compensating journal |
| `LedgerDb.LedgerTables.PostFundingJournal` | packages/ledger/src/wallet.ts:405-422 | likewise for the funding journal |
| `LedgerDb.CheckLedgerHealth` | packages/ledger/src/health.ts:21-57 | one pass over the journals gives, per tenant, how many journals it has, how many of them do not balance, and by how much its debits exceed its credits |
| `LedgerDb.HealthyIffBalanced` | packages/ledger/src/health.ts:36-56 | a tenant is healthy if and only if each of its journals balances |
| `Policy.Selected` | packages/approvals/src/policy.ts:73-90 | the matching rule with the least (order, position), and none if and only if no rule matches |
| `Policy.EvaluatePolicy` | packages/approvals/src/policy.ts:73-90 | stable sort then first match: no steps if and only if every rule rules the context out by some column, otherwise the steps of the first rule that does not |
| `Policy.NothingDemandedIff` | packages/approvals/src/policy.ts:53-90 | nothing is demanded if and only if each rule is ruled out by an amount bound or a list |
| `Policy.DecidedByFirst` | packages/approvals/src/policy.ts:73-90 | otherwise the one rule with the least order and position decides, with one level per role if it is SEQUENTIAL with several roles and one level as it stands if not |
| `Policy.BandDemandsIff` | packages/approvals/src/policy.ts:53-56 | a rule limited to a band demands approval exactly inside the band, where a maximum of zero or none leaves it open above; a rule without limits always does |
| `Policy.ListsDemandIff` | packages/approvals/src/policy.ts:57-65 | what each list admits: listed products and channels, known and listed branches and departments, any shared risk flag |
| `Policy.LimitsConjoin` | packages/approvals/src/policy.ts:53-66 | a rule demands approval if and only if each of its limits alone would |
| `Policy.LargerAmountStillDemands` | packages/approvals/src/policy.ts:53-90 | without maxima a larger amount never drops a demand |
| `Policy.SortByOrder` | packages/approvals/src/policy.ts:74-74 | the sorted copy holds every rule, in order, equal orders keeping their positions |
| `Policy.ValidateRules` | packages/approvals/src/policy.ts:92-102 | accepts exactly rules with roles, at least one approver each, and no more approvers than roles in ANY mode |
| `Policy.LaterRuleIgnored` | packages/approvals/src/policy.ts:68-90 | a rule ordered after a match never changes the decision |
| `Policy.WatchlistHitNeedsApproval` | packages/payments-core/src/payments.ts:234-307 | with a watchlist flag at least one approval step is demanded, the rules' own steps if they demand any |
| `Approvals.CreateEstablishes` | packages/approvals/src/service.ts:48-91 | a created request has level 1 in progress, the rest waiting, and the required count of its steps |
| `Approvals.CreatedIs` | packages/approvals/src/service.ts:48-91 | refused rules, no steps, or a PENDING request on level 1 with creator, due date, mode, steps and number of approvals fixed by the deciding rule |
| `Approvals.AcceptedIff` | packages/approvals/src/service.ts:114-187 | exactly which votes are accepted and what they do; NO_ACTIONABLE_STEP never happens |
| `Approvals.VoteIs` | packages/approvals/src/service.ts:114-221 | every vote: resolved, maker-checker, already acted or role mismatch, in that order, otherwise its exact effect on actions, level, step statuses, stored and reported status |
| `Approvals.VoteKeepsInv` | packages/approvals/src/service.ts:168-219 | an accepted action keeps step statuses, level, action log and request status in lock-step |
| `Approvals.RunKeepsInv` | packages/approvals/src/service.ts:48-254 | the same for every request in every run of creations, votes and expiries |
| `Approvals.ApprovedMeansFullyApproved` | packages/approvals/src/service.ts:114-221 | APPROVED means exactly the required number of approvals by distinct people other than the creator, each with a role of the level acted on, exactly the threshold per level |
| `Approvals.OpenMeansActionable` | packages/approvals/src/service.ts:151-166 | an open request has one actionable step and approvals to come, and is stored PARTIALLY_APPROVED if and only if above level 1 |
| `Approvals.ApprovalProgress` | packages/approvals/src/service.ts:189-219 | an accepted approval leaves exactly one fewer to come and approves the request exactly when none is left |
| `Approvals.ReportedStatus` | packages/approvals/src/service.ts:195-219 | when the reported status differs from the stored one |
| `Approvals.EnoughApproversSuffice` | packages/approvals/src/service.ts:114-221 | the remaining number of votes approves an open request if and only if they are approvals by distinct people who have not acted and did not create it, each with a role of the level the vote lands on |
| `Approvals.FewerNeverSuffice` | packages/approvals/src/service.ts:114-221 | no sequence of fewer votes than remain approves it |
| `Approvals.ResolvedIsFinal` | packages/approvals/src/service.ts:122-124 | a resolved request never changes again |
| `Approvals.ExpiryOnlyOnLevelOne` | packages/approvals/src/service.ts:241-254 | expiry changes a request if and only if it is open, on level 1 and due |
| `ApprovalDb.ApprovalTables.CreateApprovalRequest` | packages/approvals/src/service.ts:48-91 | validates, evaluates, inserts the request and its steps one by one |
| `ApprovalDb.ApprovalTables.RecordApprovalAction` | packages/approvals/src/service.ts:114-221 | the row updates in sequence amount to one step of the machine, with the source's error codes |
| `ApprovalDb.ApprovalTables.ExpireDueApprovals` | packages/approvals/src/service.ts:241-254 | expires exactly the due requests and returns their number |
| `PaymentSteps.NextKeepsInv` | packages/payments-core/src/payments.ts:146-446 | every command, committed or thrown, keeps the invariant over payments, reservations, journals, attempts and keys |
| `PaymentSteps.ExecuteKeepsInv` | packages/payments-core/src/execute.ts:37-128 | an execution job keeps it, whatever the provider answers or throws |
| `PaymentSteps.ProcessKeepsInv` | packages/payments-core/src/webhooks.ts:131-182 | processing an event that no collection answers keeps it: a payment's outcome, the direct write of REVERSED, or a reconciliation orphan |
| `PaymentSteps.SubmitKeepsInv` | packages/payments-core/src/payments.ts:213-307 | submission keeps it on every branch |
| `PaymentSteps.ReverseKeepsInv` | packages/payments-core/src/reversal.ts:101-178 | a reversal keeps it, and one that changes anything is a confirmed reversal of a SUCCESS payment |
| `PaymentSteps.ReceiveKeepsInv` | packages/payments-core/src/collections.ts:237-256 | crediting a wallet for a collection keeps it |
| `PaymentDecisions.CreatedIff` | packages/payments-core/src/payments.ts:146-198 | a payment is created, as a DRAFT for amount plus fee, if and only if the wallet is the tenant's and active and the key is free; a recorded key is replayed |
| `PaymentDecisions.StoppedSubmission` | packages/payments-core/src/payments.ts:213-307 | a submission that a rule or a watchlist hit stops waits for approval under a request with exactly the steps of the deciding rule, and no money moves |
| `PaymentDecisions.FreeSubmission` | packages/payments-core/src/payments.ts:213-349 | one that nothing stops is QUEUED with its total set aside if the wallet has it, and FAILED with a denial on record if not |
| `PaymentDecisions.RefusedSubmissions` | packages/payments-core/src/payments.ts:213-232 | the submissions that are refused outright, with their codes |
| `PaymentDecisions.ApprovedIs` | packages/payments-core/src/payments.ts:355-373 | approval queues the payment exactly when its wallet has the total, and fails it otherwise |
| `PaymentDecisions.CancelledIff` | packages/payments-core/src/payments.ts:376-397 | exactly DRAFT, FAILED and QUEUED payments are cancelled, and no money moves |
| `PaymentDecisions.FundedIff` | packages/payments-core/src/payments.ts:399-446 | a wallet is funded if and only if it is the tenant's, the amount is positive and the float account exists, and by exactly that amount |
| `PaymentDecisions.MaterializedIff` | packages/payments-core/src/bulk.ts:233-283 | the payment of a batch row is QUEUED on the tenant's float, without a fee, under a free key |
| `PaymentDecisions.ChartIs` | packages/ledger/src/ledger.ts:58-81 | the system chart opens the tenant's four accounts and no other |
| `PaymentOutcomes.JobIs` | packages/payments-core/src/execute.ts:37-256 | an execution job records the attempt under the provider's reference or the platform's own; SUCCESS leaves the payment SUCCESS under that reference, its hold applied and its journal posted, FAILED gives the money back, anything else leaves it waiting |
| `PaymentOutcomes.SuccessReport` | packages/payments-core/src/webhooks.ts:161-182 | a SUCCESS event about a waiting payment commits if and only if its journal can be posted, and then leaves it SUCCESS under the event's reference with its hold applied; otherwise nothing changes |
| `PaymentOutcomes.FailureReport` | packages/payments-core/src/webhooks.ts:161-182 | a FAILURE event about it leaves it FAILED with its hold released and no journal |
| `PaymentOutcomes.OtherReports` | packages/payments-core/src/webhooks.ts:161-182 | UNKNOWN only marks the event, REVERSED overwrites the status and nothing else |
| `PaymentOutcomes.LateReports` | packages/payments-core/src/execute.ts:156-256 | reports about an ended payment: one that agrees only marks itself, one that disagrees is refused |
| `PaymentOutcomes.StrayEvent` | packages/payments-core/src/webhooks.ts:131-158 | an event nobody answers to is UNMATCHED and recorded as an orphan once; one without a reference is FAILED |
| `PaymentOutcomes.IngestedIff` | packages/payments-core/src/webhooks.ts:28-80 | an event is stored as received, once per id |
| `PaymentOutcomes.PollIs` | packages/payments-core/src/monitor.ts:38-58 | what a status poll commits for a waiting payment, per outcome |
| `PaymentDecisions.ReversedIff` | packages/payments-core/src/reversal.ts:84-178 | a confirmed reversal of a SUCCESS payment commits if and only if it has a provider reference and its journal can be posted; one reversal row, one journal for the principal, status REVERSED |
| `PaymentDecisions.ReportedSuccessCanBeReversed` | packages/payments-core/src/reversal.ts:84-178 | after a SUCCESS event that commits, a reversal the provider confirms commits too |
| `PaymentTheorems.WalletGap` | packages/ledger/src/wallet.ts:339-422 | in every reachable state the journal balance of a wallet's account minus its row is exactly fees booked plus principals reversed |
| `PaymentTheorems.WalletsBacked` | packages/ledger/src/wallet.ts:179-330 | available is never negative, reserved is the sum of held reservations, and the wallet ledger replays to every balance |
| `PaymentTheorems.JournalsBalance` | packages/ledger/src/ledger.ts:128-182 | every journal ever posted balances |
| `PaymentTheorems.EveryTenantHealthy` | packages/ledger/src/health.ts:36-56 | the health check finds every tenant healthy in every reachable state |
| `PaymentTheorems.InFlightIsHeld` | packages/payments-core/src/payments.ts:312-349 | a wallet-funded payment in QUEUED or PROVIDER_PENDING has exactly one reservation, held for its total |
| `PaymentTheorems.HoldFollowsStatus` | packages/payments-core/src/execute.ts:156-256 | SUCCESS implies APPLIED, FAILED implies nothing held, before queueing there is no reservation |
| `PaymentTheorems.OnceOnly` | packages/payments-core/src/execute.ts:37-256 | at most one provider call, one APPLY, one success journal and one success event per payment, however jobs and callbacks repeat |
| `ProviderCalls.RolledBackIff` | packages/payments-core/src/execute.ts:37-128 | a job that called the provider is rolled back if and only if the reference is longer than the 200 characters of its column, the answer is REVERSED, or it is SUCCESS and the success journal cannot be posted from the existing accounts and amounts |
| `ProviderCalls.PostsIff` | packages/ledger/src/wallet.ts:339-373 | a success journal can be posted if and only if its accounts exist or can be opened, the amount is positive and the fee not negative |
| `ProviderCalls.CallsAccounted` | packages/payments-core/src/execute.ts:37-128 | over any run the provider calls for a payment are its recorded attempts, at most one, plus exactly the calls whose answer could not be booked |
| `ProviderCalls.ReversedAnswersRepeat` | packages/payments-core/src/execute.ts:37-128 | every job answered REVERSED leaves the payment QUEUED and calls again, without bound |
| `PaymentTheorems.StoredStatuses` | packages/payments-core/src/state.ts:29-49 | which statuses are ever stored, and that the history follows the table |
| `PaymentTheorems.StepFollowsTable` | packages/payments-core/src/state.ts:29-49 | every command moves every payment along the table or to REVERSED, and FAILED to QUEUED is never taken |
| `PaymentTheorems.SuccessIsFinal` | packages/payments-core/src/state.ts:38-42 | over any run SUCCESS is left only for REVERSED |
| `PaymentGuarantees.SuccessIsInert` | packages/payments-core/src/execute.ts:37-256 | jobs, polls and webhook events about a SUCCESS payment change nothing but the event's own mark; a late failure rolls back, and only a REVERSED report gets through |
| `PaymentGuarantees.OrphanedOnce` | packages/payments-core/src/webhooks.ts:131-158 | however often events or paybill confirmations with an unknown reference are processed, it is recorded as an orphan once per source |
| `PaymentGuarantees.ReferenceMeansSuccess` | packages/payments-core/src/execute.ts:188-203 | a provider reference means the success journal exists and the payment is SUCCESS or REVERSED |
| `PaymentGuarantees.MonitorHasNothingToPoll` | packages/payments-core/src/monitor.ts:30-36 | in every reachable state no PROVIDER_PENDING payment has a reference, so the monitor skips them all |
| `PaymentGuarantees.UnconfirmedReversalCommitsNothing` | packages/payments-core/src/reversal.ts:101-178 | a reversal that does not succeed synchronously commits nothing |
| `PaymentGuarantees.ReversalAccounting` | packages/payments-core/src/reversal.ts:151-164 | a reversed payment has one success and one reversal journal; together the funding account is at net zero with exactly the fee in clearing |
| `PaymentGuarantees.ReversalFollowsSuccess` | packages/payments-core/src/reversal.ts:84-99 | each reversal journal comes after exactly one success journal of its payment |
| `PaymentGuarantees.OnePaymentPerKey` | packages/payments-core/src/payments.ts:86-121 | one payment per tenant and idempotency key, even after the record is gone |
| `PaymentGuarantees.CreateReplays` | packages/payments-core/src/payments.ts:86-198 | creating again with the same key, after any run in between, returns the first payment and changes nothing |
| `PaymentGuarantees.WatchlistHitIsNeverQueued` | packages/payments-core/src/payments.ts:234-307 | a submission with a watchlist hit that commits waits for an approval request with at least one step, and no money is reserved |
| `PaymentGuarantees.ResubmissionThrows` | packages/payments-core/src/payments.ts:213-232 | submitting a REJECTED or FAILED payment always throws |
| `StrandedFunds.DeadHoldIsStranded` | packages/payments-core/src/payments.ts:376-397 | the reservation of a CANCELLED or REVERSED payment is never touched again by any run |
| `StrandedFunds.CancelStrandsHold` | packages/payments-core/src/payments.ts:376-397 | cancelling commits if and only if the payment is DRAFT, FAILED or QUEUED, and then its money stays held for good if and only if it was QUEUED on a wallet |
| `StrandedFunds.WebhookReversalStrandsHold` | packages/payments-core/src/webhooks.ts:172-174 | after a REVERSED report the money stays held for good if and only if the payment was PROVIDER_PENDING on a wallet, or an earlier report had stranded it |
| `StrandedFunds.StuckHoldIsStranded` | packages/payments-core/src/webhooks.ts:97-112 | a PROVIDER_PENDING payment that no event can reach stays so with its money held, over every run whose polls go to payments with a reference, as the monitor's do |
| `StrandedFunds.FreeableIff` | packages/payments-core/src/webhooks.ts:97-182 | in a reachable state a held reservation can be freed by some such run if and only if its payment is QUEUED, or PROVIDER_PENDING with an attempt whose non-empty reference still leads to it |
| `StrandedFunds.StrandedExactlyBy` | packages/payments-core/src/execute.ts:69-124 | a command makes a freeable reservation unfreeable if and only if it cancels its QUEUED payment, processes a REVERSED report on it, leaves it pending under an empty reference, or commits an attempt of another payment with its reference |
| `StrandedFunds.DiesHoldingOnlyBy` | packages/payments-core/src/payments.ts:376-397 | a payment becomes CANCELLED or REVERSED with money held only by the first two |
| `StrandedFunds.CancelledRunStrands` | packages/payments-core/src/payments.ts:312-397 | fund, create, submit and cancel, for any amount and fee: the whole wallet stays reserved |
| `StrandedFunds.ReportedRunStrands` | packages/payments-core/src/webhooks.ts:161-182 | fund, create, submit, time out and be reported REVERSED: likewise |
| `StrandedFunds.UnnamedRunStrands` | packages/payments-core/src/execute.ts:99-124 | fund, create, submit and be left pending under an empty reference: likewise, and the payment never leaves PROVIDER_PENDING |
| `StrandedFunds.ShadowedRunStrands` | packages/payments-core/src/webhooks.ts:106-112 | fund, create, submit, be left pending, and a batch row's payment is left pending under the same reference: likewise |
| `PaymentDb.Database.TransitionPayment` | packages/payments-core/src/state.ts:71-100 | checks the table, appends the history, bumps the version |
| `PaymentDb.Database.CreatePayment` | packages/payments-core/src/payments.ts:146-198 | the create command in place, replay included |
| `PaymentDb.Database.QueuePaymentTx` | packages/payments-core/src/payments.ts:312-349 | reserve and queue, or fail on a denial |
| `PaymentDb.Database.SubmitPayment` | packages/payments-core/src/payments.ts:213-307 | the submit transaction in place; a throw undoes everything |
| `PaymentDb.Database.ApproveQueuedPayment` | packages/payments-core/src/payments.ts:355-373 | the approve transaction in place |
| `PaymentDb.Database.CancelPayment` | packages/payments-core/src/payments.ts:376-397 | the cancel transaction in place |
| `PaymentDb.Database.FundWallet` | packages/payments-core/src/payments.ts:399-446 | the fund transaction in place; a non-positive amount is refused by the journal and undone |
| `PaymentDb.Database.ApplyProviderSuccessTx` | packages/payments-core/src/execute.ts:156-212 | hold applied, status and reference set, journal posted, event emitted, or a throw |
| `PaymentDb.Database.ApplyProviderFailureTx` | packages/payments-core/src/execute.ts:215-256 | hold released and payment failed, or a throw |
| `PaymentDb.Database.ExecutePayment` | packages/payments-core/src/execute.ts:37-128 | the execution job in place |
| `PaymentDb.Database.IngestWebhook` | packages/payments-core/src/webhooks.ts:28-80 | stores an event once per provider event id |
| `PaymentDb.Database.ProcessWebhookEvent` | packages/payments-core/src/webhooks.ts:131-182 | the event of a payment or of an unknown reference, in place: outcome and mark together or not at all, an orphan once |
| `PaymentDb.Database.MonitorStuckPayments` | packages/payments-core/src/monitor.ts:12-61 | a pass is a run of status polls, and polls nobody when no pending payment has a reference |
| `PaymentDb.Database.RequestReversal` | packages/payments-core/src/reversal.ts:101-178 | the reversal transaction in place |
| `PaymentDb.Database.ExecuteApprovedReversal` | packages/payments-core/src/reversal.ts:72-81 | the approved reversal is the same transaction |
| `Outbox.PullFrom` | packages/payments-core/src/outbox.ts:46-54 | the first eligible events in order; an eligible event left out comes after all of a full batch |
| `Outbox.PulledIff` | packages/payments-core/src/outbox.ts:46-54 | an event is pulled if and only if it is unpublished with fewer than ten failures and fewer than limit such events come before it; its place in the batch is their number |
| `Outbox.MarkedAt` | packages/payments-core/src/outbox.ts:31-44 | each pulled event gets exactly its own verdict and no other event changes |
| `Outbox.CommitIs` | packages/payments-core/src/outbox-relay.ts:212-257 | a committed tick publishes what was handled, charges an attempt for what failed, leaves every other event and frees the lease |
| `Outbox.NextKeepsInv` | packages/payments-core/src/outbox-relay.ts:212-257 | every step of every poller keeps the lease exclusive and every handler success accounted for |
| `Outbox.OneDispatcher` | packages/payments-core/src/outbox-relay.ts:234-250 | at most one poller dispatches at any moment of any run |
| `Outbox.HandledOncePlusRollbacks` | packages/payments-core/src/outbox-relay.ts:212-257 | a published event was handled; it was handled at most once plus the rolled-back ticks that handled it; never more than ten committed failures |
| `Outbox.CommitPays` | packages/payments-core/src/outbox-relay.ts:216-230 | a committed tick lowers the remaining attempts by at least the number of events it pulled |
| `Outbox.WinningTickPulls` | packages/payments-core/src/outbox-relay.ts:239-257 | a winning tick with a positive limit pulls nothing if and only if nothing is eligible |
| `Outbox.QueueDrains` | packages/payments-core/src/outbox-relay.ts:212-257 | over any run, productive ticks are paid for by the initial remaining attempts and ten per new event |
| `Outbox.DrainedAfterEnoughTicks` | packages/payments-core/src/outbox-relay.ts:212-257 | without new events, that many productive ticks leave nothing eligible |
| `Outbox.Relay.ProcessOutboxBatch` | packages/payments-core/src/outbox-relay.ts:212-232 | the loop gives the i-th waiting event in order the i-th outcome, up to the limit: published, or one attempt charged; no other event changes, and the counts are those of the outcomes |
| `Outbox.UndisturbedTick` | packages/payments-core/src/outbox-relay.ts:239-257 | the loop is the protocol run without interference: the same table after the commit |
| `Tax.DivRoundBounds` | packages/etims/src/tax.ts:34-41 | the quotient is within half a divisor, a half counting upwards |
| `Tax.DivRoundUnique` | packages/etims/src/tax.ts:34-41 | no other integer is |
| `Tax.ExclusiveRoundTrip` | packages/etims/src/tax.ts:116-130 | adding tax to any net amount and extracting it again returns the same tax, at every rate |
| `Tax.LineRoundTrip` | packages/etims/src/tax.ts:111-154 | a line priced without tax, re-entered at its inclusive total, has the same tax, net and total |
| `Tax.InclusiveRoundTripIff` | packages/etims/src/tax.ts:123-129 | the opposite direction returns the same tax if and only if total x rate modulo (100 + rate) is below 50 or at least 50 + rate |
| `Tax.StandardRateRoundTrip` | packages/etims/src/tax.ts:123-129 | at 16%: if and only if the total modulo 29 is not 4, 11, 18 or 25 |
| `Tax.ReducedRateRoundTrip` | packages/etims/src/tax.ts:123-129 | at 8%: if and only if the total modulo 27 is not 7 or 20 |
| `Tax.InclusiveRoundTripWithinOne` | packages/etims/src/tax.ts:123-129 | up to a rate of 200% it is off by at most one minor unit |
| `Tax.InclusiveRoundTripFails` | packages/etims/src/tax.ts:123-129 | the smallest amounts for which it is off by one, at 16% and at 8% |
| `Tax.ComputeDocument` | packages/etims/src/tax.ts:101-157 | the accumulating loop gives the sums over all lines and buckets, or the first line's error; the priced side of every line, bucket and of the document is rounded price times quantity less the discount |
| `Tax.LineCharged` | packages/etims/src/tax.ts:111-143 | when a line is accepted, and what it is charged: supply rounded half up, discount off the priced side, 16% for B, 8% for E and none for A, C and D, tax rounded half up |
| `Tax.DocumentCharges` | packages/etims/src/tax.ts:101-157 | an accepted document charges each input, and subtotal (or total, priced with tax) and buckets are sums over the inputs of rounded supply less discount |
| `Tax.DocumentAcceptedIff` | packages/etims/src/tax.ts:101-157 | a document is accepted if and only if it has 1 to 200 lines, each acceptable, and some discount leaves something to pay |
| `Tax.DocumentBalances` | packages/etims/src/tax.ts:101-157 | total = subtotal + tax = sums over the buckets, 0 <= line tax <= line total, a bucket of k lines within k/2 units of its exact tax |
| `Fiscal.MaxIsCount` | packages/etims/src/service.ts:210-219 | the highest document number of a tenant and kind is the number of its documents |
| `Fiscal.PrepareKeepsInv` | packages/etims/src/service.ts:292-361 | allocating or reusing a number keeps numbers consecutive, payloads consistent and attempts counted |
| `Fiscal.AnswerKeepsInv` | packages/etims/src/service.ts:365-406 | so does any late, duplicate or failed answer |
| `Fiscal.PreparedIff` | packages/etims/src/service.ts:292-361 | exactly which documents are sent, signed already or refused; a sent one keeps its number or takes the device's next one |
| `Fiscal.AnsweredIs` | packages/etims/src/service.ts:365-406 | a signature signs, a failure leaves QUEUED or FAILED by whether it is retryable, and a signed document takes no other answer |
| `Fiscal.CreatedIs` | packages/etims/src/service.ts:234-270 | a new document is a draft for the computed total without a number; a receipt is paid in full, an invoice not at all |
| `Fiscal.CreditedIff` | packages/etims/src/service.ts:415-460 | a credit note is for the whole of a signed invoice or receipt of the tenant that no earlier note credits |
| `Fiscal.DeviceSetIs` | packages/etims/src/service.ts:99-175 | setting up a device again keeps its counter |
| `Fiscal.NumbersAreConsecutive` | packages/etims/src/service.ts:286-407 | in every run a tenant's invoice numbers are exactly 1 to lastInvoiceNo, each on one document |
| `Fiscal.PayloadsCarryOneNumber` | packages/etims/src/service.ts:311-355 | every payload of a document carries the same number, and no other document of the tenant was sent with it |
| `Fiscal.SerialsCountUp` | packages/etims/src/service.ts:210-219 | document numbers per tenant and kind count up from 1 without gaps or repeats |
| `Fiscal.SignedIsFinal` | packages/database/custom-migrations/019_identity_etims_collections.sql:177-205 | under the immutability trigger a SIGNED document never changes again, whatever answers arrive |
| `Fiscal.NumberIsForever` | packages/etims/src/service.ts:311-315 | a number once given to a document never changes |
| `FiscalDb.FiscalTables.PrepareTx` | packages/etims/src/service.ts:292-361 | the first transaction in place |
| `FiscalDb.FiscalTables.FiscaliseDocument` | packages/etims/src/service.ts:286-407 | both phases in place, as a run of the protocol: number, attempt, payload and final status of a sendable document; every other one is left alone |
| `FiscalDb.FiscalTables.RetryQueuedDocuments` | packages/etims/src/service.ts:658-682 | the sweep gives out no new number and keeps every number already given |
| `CollectionTheorems.SettleKeepsInv` | packages/payments-core/src/collections.ts:230-298 | a settlement keeps credits, invoices, receipts and unique keys consistent |
| `CollectionTheorems.EventKeepsInv` | packages/payments-core/src/webhooks.ts:88-183 | so does processing a stored webhook event, for a collection, a payment or an unknown reference, also when the worker dies before marking it |
| `CollectionTheorems.NextKeepsInv` | packages/payments-core/src/collections.ts:230-327 | so does every command of the system, payments and fiscal steps included |
| `Settlements.InsertedIff` | packages/payments-core/src/collections.ts:138-176 | when a collection is inserted, and that it starts PENDING without a receipt |
| `Settlements.SettlesIff` | packages/payments-core/src/collections.ts:230-298 | a collection that is neither SUCCESS nor CANCELLED settles if and only if the amount that counts can be credited and its receipt number is free; the provider's positive amount, or else the requested one, is what row, wallet, entry, journal and invoice all get |
| `Settlements.SettledOnlyOnce` | packages/payments-core/src/collections.ts:230-236 | a settled collection is left alone and a cancelled one refused |
| `Settlements.SuccessEventSettles` | packages/payments-core/src/webhooks.ts:113-130 | a success event settles the latest collection with its reference for that amount, and only marks itself when it was settled before |
| `Settlements.OtherEventsMoveNoMoney` | packages/payments-core/src/webhooks.ts:113-130 | a failure event fails a PENDING collection and no other; further outcomes only mark the event |
| `Settlements.ExpiryIs` | packages/payments-core/src/collections.ts:611-620 | expiry turns exactly stale pending STK prompts EXPIRED |
| `Settlements.ReceiptIssuedIff` | packages/etims/src/service.ts:497-602 | a receipt is issued if and only if the collection is settled, has none and the business's device is active and issues by itself; one document for the money received |
| `CollectionTheorems.CreditedExactlyOnce` | packages/payments-core/src/collections.ts:230-298 | collection credits in the wallet ledger and received events correspond one to one, each for its collection's wallet and amount; a collection has one if and only if it is SUCCESS |
| `CollectionTheorems.InvoicePaidIffCovered` | packages/etims/src/service.ts:464-480 | paid is the sum of the invoice's SUCCESS collections, and PAID holds if and only if that reaches the total |
| `CollectionTheorems.OneReceiptPerCollection` | packages/etims/src/service.ts:497-602 | at most one receipt per collection, for the money received; fiscal if and only if no invoice is paid |
| `CollectionTheorems.ReceiptTotal` | packages/etims/src/service.ts:566-577 | a fiscal receipt's total is the amount received, whatever the tax type |
| `CollectionTheorems.SuccessIsFinal` | packages/payments-core/src/collections.ts:300-327 | SUCCESS never reverts and its wallet, amount and invoice never change |
| `CollectionTheorems.RedeliveryCreditsNothing` | packages/payments-core/src/webhooks.ts:113-130 | a success event processed again, after any run in between and even if it was never marked, credits nothing more to its collection |
| `CollectionTheorems.OneCollectionPerProviderReceipt` | packages/payments-core/src/collections.ts:397-490 | a provider receipt belongs to one collection of its channel |
| `CollectionTheorems.PaymentUntouched` | packages/payments-core/src/payments.ts:146-446 | no payment command creates or alters a collection credit |
| `CollectionTheorems.PaymentsStayReachable` | packages/payments-core/src/collections.ts:237-256 | beside collections the payment tables stay reachable by payment commands, so every payment theorem holds there too |
| `CollectionTheorems.WalletGapBesideCollections` | packages/payments-core/src/collections.ts:237-256 | collections never widen the gap between journal and wallet row |
| `CollectionDb.CollectionTables.SettleCollection` | packages/payments-core/src/collections.ts:230-298 | credit, row, invoice and event in place, together or not at all; what is credited, stored and paid is the provider's positive amount, or else the requested one |
| `CollectionDb.CollectionTables.FailCollection` | packages/payments-core/src/collections.ts:300-327 | fails exactly a PENDING collection |
| `CollectionDb.CollectionTables.ProcessWebhookEvent` | packages/payments-core/src/webhooks.ts:88-183 | the whole dispatch in place: a payment's event, a collection's or an orphan, equal to the machine's command |
| `CollectionDb.CollectionTables.ExpireStaleCollections` | packages/payments-core/src/collections.ts:611-620 | expires exactly the stale pending STK prompts |
| `CollectionDb.CollectionTables.RecordC2BPayment` | packages/payments-core/src/collections.ts:397-490 | a known transaction is a DUPLICATE and changes nothing; a new one with an unknown account is UNMATCHED and recorded as an orphan once; SETTLED means one SUCCESS collection more, of the amount, in the tenant's first wallet, for the account's invoice unless that is paid |
| `CollectionDb.CollectionTables.RecordBankCollection` | packages/payments-core/src/collections.ts:496-550 | success means one SUCCESS collection more, of at least KES 1, in the tenant's first wallet and for the invoice, recorded under the first 40 characters of the trimmed, upper-cased reference; a reference recorded there before is refused before money moves |
| `CollectionDb.CollectionTables.CheckTransfer` | packages/payments-core/src/collections.ts:509-514 | a transfer passes if and only if the amount is at least KES 1, the trimmed reference has 4 to 120 characters, the invoice can be paid and the tenant's first wallet is active |
| `CollectionDb.CollectionTables.LoadInvoice` | packages/payments-core/src/collections.ts:74-85 | accepts exactly an invoice of the tenant that is neither cancelled nor paid, or none |
| `PaymentLinks.ClaimKeepsLinks` | packages/payments-core/src/payment-links.ts:163-174 | the guarded increment never hands out a use beyond the limit |
| `PaymentLinks.NextKeepsLinks` | packages/payments-core/src/payment-links.ts:125-207 | every interleaved step of every payer keeps collections plus pending claims within the use count |
| `PaymentLinks.NeverOverused` | packages/payments-core/src/payment-links.ts:125-207 | collections through a link never exceed its use count, which never exceeds its limit |
| `PaymentLinks.UndisturbedPayerPays` | packages/payments-core/src/payment-links.ts:125-207 | a payer nobody interferes with, at an active link with a use left, ends with one SUCCESS collection of the link's amount in the tenant's first wallet and one use more |
| `PaymentLinks.TurnedAway` | packages/payments-core/src/payment-links.ts:125-174 | payers of unknown, inactive or expired links and of links whose limit is reached are turned away |
| `PaymentLinks.RepeatedPayerPaysOnce` | packages/payments-core/src/payment-links.ts:138-153 | requests with the same token and payer end at one collection, credited at most once |
| `PaymentLinks.SameCollectionIff` | packages/payments-core/src/payment-links.ts:125-207 | in any run two requests that paid end at the same collection if and only if they name the same link and references that agree on their first 100 characters |
| `PaymentLinks.TakenForReplayIff` | packages/payments-core/src/payment-links.ts:138-153 | a later payer of an active link is answered with an earlier payer's collection if and only if their references agree on those characters |
| `PaymentLinks.KeysAgreeIff` | packages/payments-core/src/payment-links.ts:138-138 | for a token of up to 119 characters two references share a key if and only if they agree on the 119 minus its length that fit |
| `PaymentLinks.KeySeparates` | packages/payments-core/src/payment-links.ts:138-138 | colon-free tokens and any references share a key if and only if the tokens are equal and the references agree on what fits |
| `PaymentLinks.LinkKeysAgreeIff` | packages/payments-core/src/payment-links.ts:26-28 | the same for generated tokens, which leave room for 100 characters |
| `PaymentLinks.LongReferencesCollide` | packages/payments-core/src/payment-links.ts:138-138 | a generated token and two different references that share a key |
| `Phones.NormalizeIdempotent` | packages/validation/src/phone.ts:12-19 | normalising twice is normalising once |
| `Phones.NormalizesToIff` | packages/validation/src/phone.ts:12-19 | leaving out other characters, exactly 0t, 254t, +254t and +0t stand for +254 and t |
| `Phones.SubscriberAccepted` | packages/validation/src/phone.ts:12-19 | every number of nine digits is accepted with a leading zero, 254 or +254, with spaces or dashes anywhere |
| `Phones.AcceptedIsE164Iff` | packages/validation/src/phone.ts:12-19 | exactly when an accepted number is +254 and nine digits |
| `Phones.InnerPlusAccepted` | packages/validation/src/phone.ts:12-19 | an accepted number that is not |
| `Batches.CreateBatch` | packages/payments-core/src/bulk.ts:53-129 | refused exactly when empty, above 50,000 rows or with a repeated row number; a row with an accepted number, an amount of 1 to 500,000,000 and a name is stored VALID under +254 and nine digits unless an earlier row repeats it; total and counts are those of the distinct keys that pass |
| `Batches.PayableRowStored` | packages/payments-core/src/bulk.ts:84-113 | the same for a single row |
| `Batches.RefusedIff` | packages/payments-core/src/bulk.ts:84-113 | a row is refused if and only if its number, amount or name is no good or a stored row before it has its key |
| `Batches.ValidateRows` | packages/payments-core/src/bulk.ts:73-118 | the validation loop's total is the sum over the set of distinct (phone, amount) keys that pass |
| `Batches.ValidRowsDistinct` | packages/payments-core/src/bulk.ts:84-113 | VALID rows have pairwise distinct phone and amount |
| `Batches.OrderIrrelevant` | packages/payments-core/src/bulk.ts:73-118 | reordering the file changes neither total nor counts |
| `Batches.StepConserves` | packages/payments-core/src/bulk.ts:233-283 | a step moves money from open rows to payments or drops it, never the other way, and no row gets a second payment |
| `Batches.NeverMoreThanApproved` | packages/payments-core/src/bulk.ts:139-283 | however often drivers run and resume, one payment per row at most and never more than the total put up for approval |
| `Batches.SubmissionCovers` | packages/payments-core/src/bulk.ts:139-207 | the total, product and channel the policy is asked about are the batch's own and cover everything it ever pays; it is approved on the spot exactly when every rule rules that out, and otherwise by one approval |
| `Batches.AcceptedBatchFits` | services/worker/src/index.ts:98-125 | an accepted batch fits within 500 chunks of 200 |
| `Batches.Driver.DriveChunk` | services/worker/src/index.ts:103-122 | a chunk takes every pulled row out of VALID whatever happens, and a short chunk is the last |
| `Batches.Driver.Execute` | services/worker/src/index.ts:98-125 | one run leaves no VALID row in any batch of at most 100,000 of them, and exactly 100,000 fewer in a larger one |
| `Batches.CompletedIff` | packages/payments-core/src/bulk.ts:297-310 | COMPLETED holds if and only if every row is SUCCESS or SKIPPED |
| `Batches.StatusIs` | packages/payments-core/src/bulk.ts:297-310 | PROCESSING while any row is open, then PARTIALLY_FAILED or FAILED by whether any row succeeded |
| `Batches.BlockedRowBlocksCompletion` | packages/payments-core/src/bulk.ts:233-310 | a row without a payment that was refused, has failed or whose key is taken keeps the batch from COMPLETED over every run |
| `Batches.PayableCompletes` | packages/payments-core/src/bulk.ts:233-310 | when every row is VALID with a free key, driving the rows in order and resolving each payment ends at COMPLETED |
| `BatchRuns.DriveSimulates` | packages/payments-core/src/bulk.ts:233-283 | inserting a row's payment into the payment table under its unique key index is the batch machine's step on the keys |
| `BatchRuns.NextKeepsLink` | packages/payments-core/src/outbox-relay.ts:110-137 | rows, their payments and the events that resolve them stay linked under every interleaving |
| `BatchRuns.RunSimulates` | packages/payments-core/src/bulk.ts:233-293 | a run of the combined system is a run of the batch machine and leaves the payment tables reachable |
| `BatchRuns.RowsArePayments` | packages/payments-core/src/bulk.ts:233-283 | each batch payment is one float-funded payment of the payment machine with its row's amount and key, and no two rows share one |
| `BatchRuns.CompletableIff` | packages/payments-core/src/bulk.ts:53-310 | some run of batch, payments and events ends a freshly stored batch at COMPLETED if and only if no row was refused and no row's key is already used by a payment; the explicit run opens the accounts, drives every row, has each payment answered SUCCESS and delivers each event |
| `BatchRuns.CompletedMeansPaid` | packages/payments-core/src/bulk.ts:233-310 | the success journals of a batch never exceed the total put up for approval, and a COMPLETED batch has journalled exactly that total, one journal per row |
| `Base32.LowBitsOfKeep` | packages/auth/src/totp.ts:16-34 | cutting the accumulator off at 32 bits does not affect the bits that are read |
| `Base32.ShiftsDivide` | packages/auth/src/totp.ts:16-37 | the modelled shift and wrap are quotient and remainder by a power of two |
| `Base32.AlphabetIs` | packages/auth/src/totp.ts:11-11 | the modelled letters are the source's alphabet, in order |
| `Base32.Base32Encode` | packages/auth/src/totp.ts:10-25 | the loop with its wrapping accumulator computes the unpadded encoding of section 6 of RFC 4648 |
| `Base32.Base32Decode` | packages/auth/src/totp.ts:27-42 | the loop computes the regrouping of the letters' bits into octets |
| `Base32.RoundTrip` | packages/auth/src/totp.ts:10-42 | decoding an encoding gives back every byte sequence of every length |
| `Base32.EncodedLength` | packages/auth/src/totp.ts:10-25 | one character per five bits, rounded up |
| `Base32.DecodeIgnoresNoise` | packages/auth/src/totp.ts:29-29 | case and characters outside the alphabet do not matter |
| `Money.ShapesOverlapOnDigits` | packages/money/src/money.ts:64-71 | two shapes match the same string only when it is all digits |
| `Money.ShapesAgree` | packages/money/src/money.ts:64-78 | whatever shapes a string matches, they give the same value |
| `Money.SpellingsAgree` | packages/money/src/money.ts:38-79 | plain digits with either decimal mark, commas with a point and dots with a comma all read as the same amount, one decimal meaning tenths, with or without a minus sign |
| `Money.SpaceIgnored` | packages/money/src/money.ts:30-56 | white space anywhere makes no difference |
| `Money.DecimalRoundTrip` | packages/money/src/money.ts:38-89 | parsing a printed decimal string returns the amount, for every integer |
| `Money.DisplayRoundTrip` | packages/money/src/money.ts:117-129 | parsing a display string without its currency returns the amount, for every integer |
| `Money.DisplayIsNotAnAmount` | packages/money/src/money.ts:117-129 | with the currency left on it is refused |
| `Money.AmbiguousPointRefused` | packages/money/src/money.ts:58-71 | one point before exactly three digits is refused |

## Left out

- SQL, isolation levels and row locks: each transaction is one atomic step; nothing is claimed about the window in which `withIdempotency` cannot lock a record that does not exist yet.
- Provider adapters, queues, Redis, notifications and webhook signatures: their outcomes are parameters, and jobs may repeat arbitrarily.
- Balance snapshots, timestamps, the provider-status column, error texts and the optional expected version of a transition: carried by the source, read by nothing that is proved here.
- Payment numbers are any strings: their uniqueness and length are not modelled. Of the column widths only those of provider and bank references are, and amounts are unbounded where the database has 64 bits.
- Fee computation, KYC scoring and watchlist matching: the fee is any integer and the watchlist result a boolean.
- Reconciliation: an unknown webhook reference or paybill account is recorded as an orphan; matching and closing such items is not modelled. The mark UNMATCHED and the orphan are one step here, two statements in the source.
- Approval delegation lookup and listing: who may act for whom is the caller's choice; the creator's delegate is refused as in the source.
- Approval errors of a policy: the source's policy error carries no code, the model calls it INVALID_RULES.
- What becomes of a paybill confirmation whose worker dies between the insert and the settlement: its redelivery is answered DUPLICATE, and when someone settles it by hand is not modelled.
- The test in `createCreditNote` for an earlier credit note is a parameter of the step: its query names no order, so which earlier note it sees is up to the database.
- Catalogues, line texts and the sandbox flag of fiscal documents, and the number columns a signature brings: they do not affect numbering or amounts.
- Quantity parsing and the conversion of amounts to JSON numbers in the tax engine.
- `resumeInterruptedBatches`: it only enqueues driver runs again, which the theorems allow at any point.
- The duplicate key of a batch row is modelled as the pair of phone and amount instead of their concatenation; the phone has a fixed length and no separator, so nothing is lost.
- Upper-casing and white space in `Text` follow ASCII letters and the ECMAScript space characters; upper-casing of other letters is not modelled.
- Parsing amounts from JavaScript numbers: it goes through `toFixed`, which is floating point.
- Schedules, reports, platform configuration, reconciliation reports, identity, alerts, storage, cryptography, and all pages and services not named above: outside the money core this model covers.
