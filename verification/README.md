# DiddiPay and DiddiFund: the money-moving state machines, verified

This project models the three places where the platform moves money and proves what every run of them keeps.

- **Payments.** Payment intents and provider attempts, changed by creation, cancellation, webhooks, a reconciliation
  sweep, refunds and settlements; payouts; the double-entry journal; the leased outbox; the accounting projection.
- **Wallet.** The append-only ledger: transfers, deposits, withdrawals and their reversals, currency conversion.
- **Fund.** Campaigns, investments from wallets and through payment orders, the inbox of payment callbacks, loan
  schedules and repayments. The fund's state contains the wallet's, so pool balances are real ledger balances.

Each component has the same three layers. A *specification* says what one committed step does to the tables
(`PaymentStore`, `WalletLedger`, `WalletUseCases`, `FundStore`, ...). A *class* does the same imperatively, on
fields that its methods reassign in the source's order of checks, and every method is proved equal to its
specification. *Theorem* files then quantify over all runs: `PaymentTheorems`, `SuccessRows`,
`RefundOverlap`, `RefundReservations`, `RequestKeys`, `IntentAccounts`, `Outbox`, `IdempotencyBarrier`, `Payouts`,
`WalletTheorems`, `GatewayAnswers`, `LateWithdrawals`, `CurrencyExchange`, `FundTheorems`, `FundRepayments`.

What a call must bring before anything changes is told in the fields of rows, calls and answers, apart from the
specification's own guards: `PaymentGuards`, `RequestKeys`, `GatewayAnswers`, `ConversionGuards` and `FundGuards`.

The invariants are layered by what they need. `PaymentSafety` (statuses, refunds, journal) and the books and loans of
`FundSafety` hold in every run, whatever keys and answers occur. `PaymentEffects` counts captures and success rows and
needs event keys that name one payment; pool balances and currency positions need ledger keys that name one operation.
Where a promise fails, `PaymentExamples`, `FundExamples` and `ExchangeExamples` give the run from empty tables.

Tables are sequences in insertion order; a row's identifier is its position. A provider is an oracle: whatever it
answers is a parameter of the step.

## Assumptions

- A use case runs as atomic steps cut at its commits; a request that raises is rolled back
  (`payfund_app/core/database.py:33-43`). Confirmations of a wallet operation are serialised steps, and a
  reconciliation step acts on an attempt it has just read; `PaymentSafety.StaleSweepStaysCoupledIff` and
  `PaymentSafety.StaleSweepRaises` say what a sweep of a stale one does.
- Only to count effects: an adapter's first answer to a payment is never "succeeded", and a provider event key always
  names the same processor and reference. `PaymentTheorems.ExactlyOneEffect` uses this, no other payment result does.
- Only for pool balances and currency positions: over whole runs a ledger key names one operation. The iff rows below
  say exactly what a reused key breaks.
- A worker that is still alive reports on its batch within the lease; `Outbox.LateReportIsHarmlessIff` says when a
  later report does no harm.
- Decimal arithmetic is exact.

## Where the code and its promises part

- Two refunds of one intent that are in progress together and both succeed lose an update: each saves the intent as it
  read it (`RefundOverlap.OverlapLosesARefund`, `PaymentExamples.OverlapExample`). The refunded amount is exact if and
  only if every successful completion finds the row as its copy read it (`RefundOverlap.RefundedIsExactIff`).
- A success event with a new key that arrives after a refund records the payment's effect again: a second success row
  and a second capture (`PaymentTheorems.EffectRecordedIff`, `PaymentExamples.RepeatedSuccessExample`).
  `SuccessRows.SuccessRowsOfRun` counts the rows of any run.
- A cancellation accepted between the two commits of a creation is overwritten
  (`PaymentTheorems.CancelDuringCreationIsLost`, `PaymentExamples.CancelExample`).
- A sweep that read an attempt before it succeeded may save it as failed under a succeeded intent
  (`PaymentSafety.StaleSweepStaysCoupledIff`, `PaymentExamples.StaleSweepExample`).
- An outbox worker that reports after its lease may overwrite a delivered row (`Outbox.LateReportIsHarmlessIff`,
  `Outbox.LateReportExample`).
- A declined withdrawal whose reversal's key was taken before is not given back: the request is refused and the
  withdrawal stays pending (`GatewayAnswers.DeclinedAnswer`).
- Of two concurrent withdrawals with one key, the one that looks the key up too early asks the gateway again for the
  other's transaction (`LateWithdrawals.GatewayAskedAgainIff`) and writes its own amount on it
  (`LateWithdrawals.LateWithdrawalKeepsIff`).
- `retry_callback` keeps the failure count, so a retried row dies again at its next failure
  (`Outbox.RetriedRowDiesAtNextFailure`).
- A concurrent payment creation that loses the race for its key gets the raw store error, not the view.
- A conversion whose ledger keys are known writes its conversion row without moving money, so the same accepted request
  sent again always breaks the positions (`CurrencyExchange.PositionsHoldIffKeysNew`,
  `ExchangeExamples.RepeatBreaksPositions`, `ExchangeExamples.RepeatedConversionExample`).
- A repayment or investment under a known key books without moving money (`FundTheorems.RepaymentHoldsIffKeyNew`,
  `FundTheorems.InvestmentHoldsIffKeyFits`, `FundExamples.KnownKeyRepaysForNothing`,
  `FundExamples.KnownKeyInvestsForNothing`).
- A loan whose disbursement key was taken before counts as paid out without money moving
  (`FundTheorems.DisbursementHoldsIffKeyNew`).
- A callback that is not `payment.succeeded` may set an order's status to "succeeded"; the order's investment is then
  never made (`FundTheorems.OrderInvestedIff`, `FundExamples.StatusBeforeSuccessLosesInvestment`).
- A schedule of the monthly amount rounded half up could end in a negative installment
  (`LoanSchedule.RoundedLastPositiveIff`). The source never builds it: the rounded amount is only shown in a simulation,
  and `construire_echeancier` is called with the truncated amount alone. That one keeps all installments positive, but a
  total below one unit a month is refused by the store (`FundTheorems.DisburseRefusedIff`).
- A capture whose metadata declares the flow "payout" drops out of the accounting entries' outstanding amounts
  (`AccountingSummary.OutstandingAgainstDaily`).

## Model

| member | source | states |
|---|---|---|
| PaymentSafety.ApplyStatusKeepsCoupled | payfund_app/modules/payments/application/webhooks.py:126-157 | a reported status keeps coupled statuses coupled and decided attempts as they are, an undecided one takes exactly a success, a failure or a processing, and a success for a failed or cancelled attempt alone is refused |
| PaymentSafety.StaleSweepRaises | payfund_app/modules/payments/application/reconciliation.py:78-82 | a sweep of a stale candidate raises exactly when a success meets an intent that was refunded or cancelled meanwhile |
| PaymentSafety.StaleSweepStaysCoupledIff | payfund_app/modules/payments/application/reconciliation.py:70-92 | a sweep that saves an attempt as it was read earlier leaves the payment coupled exactly when what was read and reported fits the intent as it is now |
| PaymentSafety.NextKeeps | payfund_app/modules/payments/application/webhooks.py:45-124 | every committed step of create, cancel, webhook, sweep, refund and settlement, with any keys and answers, keeps coupled statuses, fitting refunds and a sound journal |
| PaymentEffects.NextKeeps | payfund_app/modules/payments/application/success.py:4-20 | where event keys name one payment each, every step keeps the number of captures and success rows and what each capture names |
| PaymentTheorems.CoupledAndSweepNeverRaises | payfund_app/modules/payments/application/reconciliation.py:38-105 | in every state of every run statuses are coupled and no sweep of a candidate raises, whatever keys and answers occur |
| PaymentTheorems.ExactlyOneEffect | payfund_app/modules/payments/application/success.py:4-20 | until a refund is applied, captures and `payment.succeeded` rows are exactly one each, for the intent's amount, if the attempt succeeded, and none otherwise |
| PaymentTheorems.EffectRecordedIff | payfund_app/modules/payments/application/webhooks.py:101-123 | a processed success adds a success row exactly when the attempt had not succeeded yet or a refund was already applied, and then a capture too unless the event's key was captured before |
| SuccessRows.SuccessRowsOfRun | payfund_app/modules/payments/application/webhooks.py:101-123 | over any run a payment has one success row if it succeeded otherwise than in the adapter's first answer, and one more for every success event that found a refund applied |
| PaymentTheorems.FirstTerminalResultDecides | payfund_app/modules/payments/application/webhooks.py:126-157 | over any run the first valid terminal result decides the attempt, and without one it stays undecided |
| PaymentTheorems.CancelledIff | payfund_app/modules/payments/application/use_cases.py:194-211 | a payment is cancelled exactly when it is the client's own, its attempt is pending and has no provider reference; intent and attempt change together and nothing else |
| PaymentGuards.UnpaidEventChangesNothing | payfund_app/modules/payments/application/webhooks.py:66-99 | a success event whose reference, amount or currency fits no payment changes no payment, refund, announcement or journal row, and ends ignored or rejected |
| PaymentGuards.UnpaidSweepChangesNothing | payfund_app/modules/payments/application/reconciliation.py:69-77 | a sweep told of a success for another reference, amount or currency changes nothing |
| PaymentGuards.SweepIsCounted | payfund_app/modules/payments/application/reconciliation.py:55-105 | how each answer is counted: success in full, mismatch, failure, or pending |
| PaymentGuards.SucceededIffPaid | payfund_app/modules/payments/application/webhooks.py:77-124 | over any run, a payment succeeded if and only if an event or a sweep told of its success in its own amount and currency while it had not failed or been cancelled, or the adapter's first answer did |
| PaymentGuards.SuccessIsRecorded | payfund_app/modules/payments/application/webhooks.py:101-124 | a first success in full sets both statuses, announces the payment's client, amount and currency, and books the amount and the fee |
| PaymentGuards.EventEnds | payfund_app/modules/payments/application/webhooks.py:45-124 | when an event ends ignored, rejected or processed, in terms of the rows |
| PaymentGuards.SameEventAgainChangesNothing | payfund_app/modules/payments/application/webhooks.py:45-76 | an event that was processed or ignored changes nothing when it comes again, whatever it carries then |
| PaymentGuards.StartedCarriesRequest | payfund_app/modules/payments/application/use_cases.py:125-173 | a started payment is pending under the request's client, key, fingerprint, amount, currency and processor |
| PaymentGuards.CreationTakesAnswer | payfund_app/modules/payments/application/use_cases.py:175-192 | the attempt takes the adapter's status and reference, unless another attempt has the reference |
| PaymentGuards.SettledIff | payfund_app/modules/payments/infra/backoffice_commands.py:106-140 | a settlement takes its amount off exactly when it is positive, not more than outstanding and its name is new |
| PaymentTheorems.RefundsNeverExceedCapture | payfund_app/modules/payments/application/refunds.py:61-114 | over any run, open and succeeded refunds never exceed the captured amount, and completing a reserved refund never raises |
| PaymentTheorems.SucceededRefundsAreJournalled | payfund_app/modules/payments/application/accounting.py:29-38 | over any run, the refunds journalled for an intent add up to its succeeded refunds, and its module payable to gross minus those |
| PaymentTheorems.JournalOfEveryRunIsSound | payfund_app/modules/payments/infra/repositories.py:551-598 | in every run journals balance, references are unique, and outstanding and payable equal the balances of the entries |
| PaymentTheorems.CancelDuringCreationIsLost | payfund_app/modules/payments/application/use_cases.py:100-211 | a cancellation between the two commits of any creation leaves no trace |
| RefundReservations.UncertainKeepsReservation | payfund_app/modules/payments/application/refunds.py:95-103 | an uncertain provider answer leaves the refund processing and every reservation as it was |
| RefundReservations.RefundIsWhatWasAnswered | payfund_app/modules/payments/application/refunds.py:91-114 | over any run, a refund failed if and only if its provider answered so, and succeeded if and only if it answered that |
| RefundReservations.HeldNeverExceedsCapture | payfund_app/modules/payments/application/refunds.py:61-114 | over any run, everything reserved of an intent that no provider answered to have failed, read from the steps, is at most the captured amount |
| RequestKeys.CreateAnsweredIff | payfund_app/modules/payments/application/use_cases.py:100-124 | over any run, a creation gets payment k exactly for k's own client, key and fingerprint, a conflict exactly for another fingerprint, and starts exactly with a new key and a positive amount |
| RequestKeys.RefundAnsweredIff | payfund_app/modules/payments/application/refunds.py:51-89 | over any run, a refund request gets refund r exactly for r's own client, key and fingerprint, a conflict for another fingerprint, and reserves exactly when the payment is the client's, captured, refundable by its provider and has the amount left |
| IntentAccounts.BalancesAreItsOwn | payfund_app/modules/payments/application/accounting.py:8-54 | over any run, what is outstanding of a payment is on its own processor's account, what is payable on its own client's, and all in its currency |
| RefundOverlap.RefundedIsSucceededRefunds | payfund_app/modules/payments/application/refunds.py:76-114 | when refunds of an intent do not overlap, its refunded amount is the sum of succeeded refunds and its status says none, part or all |
| RefundOverlap.CompletionUpToDateIff | payfund_app/modules/payments/application/refunds.py:91-114 | completing a refund leaves the intent exact if and only if the copy it saves was; of an exact row, if and only if the row still shows what the copy read |
| RefundOverlap.UpToDateIffSavesFresh | payfund_app/modules/payments/application/refunds.py:76-114 | for any run from a state in which the intent is exact, it is exact at the end if and only if every successful completion found the row as its copy had read it |
| RefundOverlap.RefundedIsExactIff | payfund_app/modules/payments/application/refunds.py:76-114 | over every run the refunded amount never exceeds the succeeded refunds, and equals them, with the matching status, if and only if every successful completion saved a fresh copy |
| RefundOverlap.OverlapLosesARefund | payfund_app/modules/payments/application/refunds.py:76-114 | two refunds in progress together that both succeed leave the intent showing less than was given back for good, whatever happens in between and afterwards |
| PaymentExamples.OverlapExample | payfund_app/modules/payments/application/refunds.py:76-114 | from empty tables, refunds of 40 and 60 that overlap leave the intent at 60 of 100 |
| PaymentExamples.RepeatedSuccessExample | payfund_app/modules/payments/application/webhooks.py:101-123 | from empty tables, a late success event after a partial refund gives a second `payment.succeeded` and a second capture |
| PaymentExamples.CancelExample | payfund_app/modules/payments/application/use_cases.py:100-211 | from empty tables, a payment cancelled during its creation ends in the same state as one that was not |
| PaymentExamples.StaleSweepExample | payfund_app/modules/payments/application/reconciliation.py:38-92 | from empty tables, a sweep that read the attempt before its success saves it as failed under a succeeded intent |
| PaymentEntities.DecidedIsFinal | payfund_app/modules/payments/domain/entities.py:120-149 | no transition leaves a decided attempt status |
| PaymentEntities.TransitionsAre | payfund_app/modules/payments/domain/entities.py:91-165 | the transition tables of intents, attempts and refunds, in one rule each |
| PaymentEntities.PaymentIntent.TransitionTo | payfund_app/modules/payments/domain/entities.py:179-185 | the intent moves exactly along its table; a refused transition changes nothing |
| PaymentEntities.PaymentIntent.ApplyRefund | payfund_app/modules/payments/domain/entities.py:187-203 | a refund that fits sets amount and status together; one that does not changes nothing |
| PaymentEntities.WithRefundShowsRefunded | payfund_app/modules/payments/domain/entities.py:187-203 | after a fitting refund the status still says whether none, part or all was given back |
| PaymentEntities.PaymentAttempt.TransitionTo | payfund_app/modules/payments/domain/entities.py:231-237 | the attempt moves exactly along its table |
| PaymentEntities.Refund.TransitionTo | payfund_app/modules/payments/domain/entities.py:255-261 | the refund moves exactly along its table |
| PaymentEntities.Payout.ApplyProviderStatus | payfund_app/modules/payments/domain/entities.py:284-300 | a payout takes any provider status until it is final and keeps a known reference |
| PaymentUseCases.ApplyReported | payfund_app/modules/payments/application/webhooks.py:126-157 | on the two mutable objects, a reported status leads to exactly the specified pair or is refused |
| PaymentUseCases.PaymentService.BeginCreate | payfund_app/modules/payments/application/use_cases.py:100-173 | first commit of a creation: replay, conflict, bad amount or a pending pair |
| PaymentUseCases.PaymentService.EndCreate | payfund_app/modules/payments/application/use_cases.py:175-180 | second commit: the provider's answer on the objects built before it |
| PaymentUseCases.PaymentService.CancelPayment | payfund_app/modules/payments/application/use_cases.py:194-211 | cancels exactly a payment without provider reference whose intent may be cancelled |
| PaymentUseCases.PaymentService.AcceptStatus | payfund_app/modules/payments/application/webhooks.py:101-124 | applies a status and records the effect under the guard of the source |
| PaymentUseCases.PaymentService.ProcessWebhook | payfund_app/modules/payments/application/webhooks.py:45-124 | a whole webhook: duplicate, ignored, rejected or processed |
| PaymentUseCases.PaymentService.SweepAttempt | payfund_app/modules/payments/application/reconciliation.py:55-92 | one attempt of a sweep, with its outcome |
| PaymentUseCases.PaymentService.RunSweep | payfund_app/modules/payments/application/reconciliation.py:38-105 | the whole loop: each candidate once, and counters that match the outcomes; where it stops at a refused transition, the tables and counters of the candidates before |
| PaymentUseCases.PaymentService.BeginRefund | payfund_app/modules/payments/application/refunds.py:51-89 | the reservation, with every refusal in the source's order |
| PaymentUseCases.PaymentService.EndRefund | payfund_app/modules/payments/application/refunds.py:91-115 | the completion on the copy of the intent that was read |
| PaymentUseCases.PaymentService.RecordSettlement | payfund_app/modules/payments/infra/backoffice_commands.py:106-140 | a settlement within what is outstanding, posted once per reference |
| FinancialLedger.EveryRunIsSound | payfund_app/modules/payments/infra/repositories.py:551-598 | any sequence of postings leaves balanced journals, unique references and reconciled totals |
| FinancialLedger.EveryAccountAddsUp | payfund_app/modules/payments/application/accounting.py:8-71 | over any sequence of postings, each processor's receivable and balance, each client's payable, the fees and the cash are what the booked postings make them |
| FinancialLedger.RepostChangesNothing | payfund_app/modules/payments/infra/repositories.py:551-598 | posting an event type and reference again, after any other postings, changes nothing |
| FinancialLedger.SettlementNeverOverdraws | payfund_app/modules/payments/application/accounting.py:40-54 | an accepted settlement leaves outstanding at least zero |
| FinancialLedger.LedgerTable.PostOnce | payfund_app/modules/payments/infra/repositories.py:551-598 | returns the posting's row, the one that was there or the one added with its two entries |
| FinancialLedger.LedgerTable.Summarise | payfund_app/modules/payments/infra/repositories.py:660-681 | the summary's five numbers are the journal totals of the intent |
| FinancialLedger.LedgerTable.RecordCapture | payfund_app/modules/payments/application/accounting.py:8-27 | a capture posts gross and, when positive, the fee |
| Outbox.OneHolderPerRow | payfund_app/modules/payments/infra/repositories.py:377-405 | with any number of workers, crashes and retries, a row has at most one live holder and is locked exactly while delivering |
| Outbox.FinalStatuses | payfund_app/modules/payments/infra/repositories.py:407-426 | delivered never changes, and only a back-office retry leaves the dead letters |
| Outbox.DiesAtTenthFailure | payfund_app/modules/payments/infra/repositories.py:414-426 | a never-retried row is dead exactly after its tenth failure, at least 1022 seconds after its first |
| Outbox.ClaimTakes | payfund_app/modules/payments/infra/repositories.py:377-405 | a claim whose limit does not bind locks exactly pending rows that are due and deliveries locked for five minutes or more |
| Outbox.ClaimableAgainIff | payfund_app/modules/payments/infra/repositories.py:414-426 | a row that failed is claimable again exactly after 2, 4, 8, ... 512 seconds, and never after its tenth failure |
| Outbox.RowChangesAre | payfund_app/modules/payments/infra/repositories.py:407-426 | what enqueuing, delivering and retrying do to a row |
| Outbox.RetriedRowDiesAtNextFailure | payfund_app/modules/payments/infra/backoffice_commands.py:86-104 | a retried row dies at its next failure |
| Outbox.PassReportsEachRowOnce | payfund_app/modules/payments/application/deliveries.py:35-62 | a pass gives every claimed row its own outcome, once |
| Outbox.OthersUntouched | payfund_app/modules/payments/application/deliveries.py:35-62 | a pass touches no row that it did not claim |
| Outbox.LateReportIsHarmlessIff | payfund_app/modules/payments/infra/repositories.py:407-426 | a report after the lease takes nothing from the others exactly when no live worker holds the row, a delivered row is reported sent, and a dead letter fails at its last attempt |
| Outbox.LateReportExample | payfund_app/modules/payments/infra/repositories.py:377-426 | from the empty table, a row that the second worker delivered is pending again after the first one's late failure report |
| Outbox.OutboxTable.ClaimBatch | payfund_app/modules/payments/infra/repositories.py:377-405 | locks exactly the oldest claimable rows, up to the limit |
| Outbox.OutboxTable.MarkFailed | payfund_app/modules/payments/infra/repositories.py:414-426 | back-off of 2^n seconds, dead at the tenth failure |
| Outbox.OutboxTable.RetryCallback | payfund_app/modules/payments/infra/backoffice_commands.py:86-104 | not found unless the row is the payment's own; puts back exactly its dead letters |
| Outbox.OutboxTable.RunDelivery | payfund_app/modules/payments/application/deliveries.py:35-62 | a worker pass: claim, report on each row, and counters that match |
| IdempotencyBarrier.AtMostOneCallPerKey | payfund_app/modules/payments/application/use_cases.py:100-173 | any interleaving of creations, with crashes, makes at most one provider call per client and key |
| IdempotencyBarrier.ViewsMatchFingerprint | payfund_app/modules/payments/application/payouts.py:96-157 | two requests with one key never both get a row unless they are the same request |
| IdempotencyBarrier.AnswerIs | payfund_app/modules/payments/application/use_cases.py:100-173 | over any run a taken key answers with its row for the same fingerprint and with a conflict for another one |
| Payouts.OneJournalIffSucceeded | payfund_app/modules/payments/infra/repositories.py:600-647 | a payout has exactly one journal, of its amount, and one announcement if and only if it succeeded |
| Payouts.FinalPayoutStays | payfund_app/modules/payments/application/payouts.py:231-272 | a final payout never changes again, whatever steps follow |
| Payouts.CreateAnsweredIff | payfund_app/modules/payments/application/payouts.py:96-142 | over any run, a request gets payout k exactly for k's own client, key and fingerprint, a conflict for another fingerprint, and starts exactly with a new key and a positive amount |
| Payouts.AnswerBecomesStatus | payfund_app/modules/payments/application/payouts.py:231-272 | an answer becomes the open payout's status and its reference, if given, unless that reference is taken; a change is announced |
| Payouts.PayoutIsBooked | payfund_app/modules/payments/infra/repositories.py:600-647 | a success debits the payout's own client and credits its own processor |
| Payouts.PayoutService.BeginCreate | payfund_app/modules/payments/application/payouts.py:96-142 | replay, conflict, bad amount or a pending payout |
| Payouts.PayoutService.EndCreate | payfund_app/modules/payments/application/payouts.py:144-157 | the provider's answer saved, journalled and announced, unless its reference is taken |
| Payouts.PayoutService.ReconcileOne | payfund_app/modules/payments/application/payouts.py:231-272 | one payout of a reconciliation pass, refused exactly by a forbidden transition or a taken reference |
| AccountingSummary.PayoutFlowIff | payfund_app/modules/payments/application/accounting_summary.py:72-86 | a payment is classified as a payout exactly when its metadata says so |
| AccountingSummary.FlowIs | payfund_app/modules/payments/application/accounting_summary.py:72-86 | a known declared flow counts; otherwise the reference decides, a top-up before a deposit, a withdrawal and a transfer |
| AccountingSummary.ServiceIff | payfund_app/modules/payments/application/accounting_summary.py:62-69 | a client belongs to the one service it names, alone or before a dash or underscore; else it is unknown |
| AccountingSummary.StripIs | payfund_app/modules/payments/application/accounting_summary.py:62-69 | stripping takes the blanks off both ends and nothing else |
| AccountingSummary.EntryAddsUp | payfund_app/modules/payments/application/accounting_summary.py:125-145 | gross is refunds, fees and net, and net is settled and outstanding; a payout entry has neither |
| AccountingSummary.GroupIsPerKeySums | payfund_app/modules/payments/application/accounting_summary.py:98-123 | grouping yields every key that occurs, with the sums over its own rows |
| AccountingSummary.TotalsAreConserved | payfund_app/modules/payments/application/accounting_summary.py:125-145 | refunds, fees, settlements and counts are conserved, and gross up to payouts hidden behind captures |
| AccountingSummary.OutstandingAgainstDaily | payfund_app/modules/payments/presentation/summary_router.py:195-246 | for all rows, the entries' outstanding is the daily route's value less what misdeclared payments leave owed |
| AccountingSummary.WellDeclaredRowsAgree | payfund_app/modules/payments/application/daily_summary.py:38-55 | when no payment declares itself a payout, gross is conserved and both routes agree |
| AccountingSummary.MisdeclaredExample | payfund_app/modules/payments/application/accounting_summary.py:72-86 | a capture of 100 declared a payout: 0 outstanding here, 100 there |
| AccountingSummary.GroupIgnoresOrder | payfund_app/modules/payments/application/accounting_summary.py:98-123 | the groups depend on the multiset of rows only |
| AccountingSummary.Summarise | payfund_app/modules/payments/application/accounting_summary.py:94-145 | each group once, with the entry its rows add up to |
| WalletLedger.AssertBalanced | payfund_app/modules/wallet/domain/entities.py:61-91 | accepts exactly lines of one currency, positive amounts and sum zero, at least two |
| WalletLedger.TransferMoves | payfund_app/modules/wallet/application/ledger.py:205-248 | a transfer is made exactly under a new key, between accounts of its currency, from an active one that covers it or may go negative to one not closed; what it does to every balance; otherwise nothing changes |
| WalletLedger.RefusalIs | payfund_app/modules/wallet/application/ledger.py:53-89 | which refusal a transfer gets: the source's before the destination's, the currencies next, the balance last |
| WalletLedger.LateKeyLookup | payfund_app/modules/wallet/application/ledger.py:93-142 | losing the race for a key never changes the state, and the answer exactly when a check refuses |
| WalletLedger.LedgerService.PostLines | payfund_app/modules/wallet/application/ledger.py:93-142 | replay, refusal or a new transaction with its lines |
| WalletLedger.LedgerService.ReverseTransaction | payfund_app/modules/wallet/application/ledger.py:163-203 | a new transaction with the opposite of every line, the original untouched |
| WalletLedger.LedgerService.TransferMoney | payfund_app/modules/wallet/application/ledger.py:205-248 | the checks in order, then the posting |
| WalletLedger.LedgerService.BalanceOf | payfund_app/modules/wallet/infra/repositories.py:98-110 | the balance is the signed sum of the account's entries |
| WalletLedger.LedgerService.EntriesOf | payfund_app/modules/wallet/infra/repositories.py:137-142 | the lines booked under a transaction |
| WalletUseCases.WalletService.MakeDeposit | payfund_app/modules/wallet/application/use_cases.py:573-632 | a deposit's initiation for every gateway reply, rolled back when it is refused |
| WalletUseCases.WalletService.MakeWithdrawal | payfund_app/modules/wallet/application/use_cases.py:634-696 | a withdrawal's booking and initiation for every gateway reply |
| WalletUseCases.WalletService.ConfirmOperation | payfund_app/modules/wallet/application/use_cases.py:698-736 | a pending deposit books its pair and completes; anything final is returned as it is |
| WalletUseCases.WalletService.FailOperation | payfund_app/modules/wallet/application/use_cases.py:738-756 | a pending withdrawal is reversed, a pending deposit fails |
| WalletUseCases.WalletService.ReconcileTransaction | payfund_app/modules/wallet/application/use_cases.py:760-819 | the report and the effect for every verifier reply |
| WalletUseCases.WalletService.SuspenseAccount | payfund_app/modules/wallet/application/use_cases.py:551-571 | one suspense account per gateway mode, opened on first use |
| WalletSafety.NextKeeps | payfund_app/modules/wallet/application/use_cases.py:573-756 | every step keeps the wallet's invariant, final transactions, inactive balances and accounts it does not name |
| WalletTheorems.DepositBookedIffCompleted | payfund_app/modules/wallet/application/use_cases.py:698-736 | over any run a deposit carries exactly one balanced pair if and only if it is completed |
| WalletTheorems.WithdrawalReversedIffOneReversal | payfund_app/modules/wallet/application/use_cases.py:738-756 | a withdrawal always carries its pair and is reversed if and only if exactly one transaction reverses it |
| WalletTheorems.ReversalNetsToZero | payfund_app/modules/wallet/application/ledger.py:163-203 | a withdrawal and its reversal cancel on every account |
| WalletTheorems.FinalTransactionsStay | payfund_app/modules/wallet/infra/repositories.py:172-177 | however a run goes on, entries are only appended and final transactions keep status and lines |
| WalletTheorems.TransactionSumsToZero | payfund_app/modules/wallet/domain/entities.py:61-91 | in every reachable state each transaction sums to zero in each currency |
| WalletTheorems.MoneyIsConserved | payfund_app/modules/wallet/application/ledger.py:93-161 | all entries together sum to zero in each currency |
| WalletTheorems.LinesKeepTheirCurrency | payfund_app/modules/wallet/application/ledger.py:222-233 | in every reachable state every line is on an account of its own currency |
| WalletTheorems.NeverOverdrawn | payfund_app/modules/wallet/application/ledger.py:84-89 | an account that may not go negative never does, concurrent transfers included |
| WalletTheorems.InactiveNeverDebited | payfund_app/modules/wallet/application/ledger.py:53-60 | while an account stays frozen or closed its balance never decreases |
| WalletTheorems.RepeatReturnsOriginal | payfund_app/modules/wallet/application/ledger.py:217-219 | after any steps, a succeeded key returns its own transaction and writes nothing |
| WalletTheorems.RetriesChangeNothing | payfund_app/modules/wallet/application/ledger.py:205-248 | a run leaves the same wallet as the run without the retries of succeeded keys |
| WalletTheorems.OneTransactionPerKey | payfund_app/modules/wallet/infra/repositories.py:179-208 | no key ever owns two transactions |
| GatewayAnswers.OpenedOnce | payfund_app/modules/wallet/application/use_cases.py:551-571 | a user's wallet and a gateway's suspense account are opened once and found again |
| GatewayAnswers.DeclinedAnswer | payfund_app/modules/wallet/application/use_cases.py:812-816 | a "failed" answer fails an open deposit without moving anything and reverses an open withdrawal, whose account gets its amount back |
| GatewayAnswers.CompletedAnswer | payfund_app/modules/wallet/application/use_cases.py:799-811 | a "completed" answer in another amount or currency changes nothing; one that agrees completes the operation and credits a deposit's account |
| GatewayAnswers.OtherAnswersChangeNothing | payfund_app/modules/wallet/application/use_cases.py:772-820 | every other verification changes nothing |
| GatewayAnswers.DepositAnswered | payfund_app/modules/wallet/application/use_cases.py:573-632 | a deposit answered at once: completed credits the user, failed and pending move nothing |
| GatewayAnswers.DepositRefusedIff | payfund_app/modules/wallet/application/use_cases.py:585-617 | when a deposit is refused, leaving nothing behind |
| GatewayAnswers.WithdrawalAnswered | payfund_app/modules/wallet/application/use_cases.py:634-696 | a withdrawal answered at once: completed or pending takes the amount, failed gives it back |
| GatewayAnswers.WithdrawalRefusedIff | payfund_app/modules/wallet/application/use_cases.py:645-685 | when a withdrawal is refused, leaving nothing behind |
| GatewayAnswers.StatusIsWhatWasTold | payfund_app/modules/wallet/application/use_cases.py:698-820 | over any run, an operation is completed if and only if it was confirmed or answered "completed" in agreement while open, and failed or reversed if and only if it was failed or answered "failed" while open and could be taken back |
| LateWithdrawals.GatewayAskedAgainIff | payfund_app/modules/wallet/application/use_cases.py:634-696 | after a kept withdrawal and any steps, a second request with its key asks the gateway again exactly when it missed its own lookup, is well-formed, and passes the transfer's checks if it missed that lookup too; it books nothing |
| LateWithdrawals.DescriptionKeepsIff | payfund_app/modules/wallet/application/use_cases.py:670-673 | writing a withdrawal's account and amount on a transaction keeps the invariant exactly when they are its own or nothing depends on them |
| LateWithdrawals.LateWithdrawalKeepsIff | payfund_app/modules/wallet/application/use_cases.py:634-696 | a second request that the gateway takes for processing keeps the wallet's invariant if and only if it names the first one's account and amount |
| WalletMoney.FromMajorIff | payfund_app/modules/wallet/domain/money.py:84-106 | a value in the usual unit is accepted exactly when it is what the minor amount is worth |
| WalletMoney.WholeUnitsAre | payfund_app/modules/wallet/domain/money.py:84-106 | a whole unit is one franc and a hundred cents or pence; less than a minor unit is refused |
| WalletMoney.ErrorAtMostHalf | payfund_app/modules/wallet/domain/money.py:134-146 | a conversion is off by at most half a minor unit |
| WalletMoney.ErrorAtMostHalfEach | payfund_app/modules/wallet/domain/money.py:134-146 | n conversions are off by at most n halves together |
| WalletMoney.RoundTripIff | payfund_app/modules/wallet/domain/money.py:134-146 | converting back at the reciprocal rate returns every amount if and only if the minor-unit rate is at least one |
| CurrencyExchange.PositionsHoldIffKeysNew | payfund_app/modules/wallet/application/exchange.py:87-157 | a conversion keeps every position exact if and only if both of its ledger keys are new |
| ConversionGuards.QuotedIff | payfund_app/modules/wallet/application/exchange.py:87-113 | a conversion is quoted exactly between different currencies, in the source's own, with a known positive rate and something to pay out |
| ConversionGuards.ConversionMoves | payfund_app/modules/wallet/application/exchange.py:87-157 | between ready customers, through ready positions and under new keys, a quotable conversion is made: the source gives its money and the target gets the converted amount |
| ConversionGuards.UnquotableIsRejected | payfund_app/modules/wallet/application/exchange.py:87-113 | a conversion that cannot be quoted changes nothing |
| ConversionGuards.UncoveredIsRejected | payfund_app/modules/wallet/application/exchange.py:121-157 | a conversion whose source cannot pay, or whose target is closed, changes nothing |
| ExchangeExamples.RepeatBreaksPositions | payfund_app/modules/wallet/application/exchange.py:87-157 | from any good state, an accepted conversion asked for again under its key is accepted, moves nothing and breaks the positions |
| ExchangeExamples.RepeatedConversionExample | payfund_app/modules/wallet/application/exchange.py:87-157 | from empty tables, a conversion of 500 sent twice counts 1000 taken in while the position holds 500 |
| CurrencyExchange.PositionsHoldOverRuns | payfund_app/modules/wallet/application/exchange.py:71-157 | mixed with any other wallet steps, each currency's position is what was taken in less what was paid out |
| CurrencyExchange.RoundingOverRuns | payfund_app/modules/wallet/application/exchange.py:115-119 | the rounding of all conversions of a run is at most half a unit each |
| CurrencyExchange.Exchanger.ConvertCurrency | payfund_app/modules/wallet/application/exchange.py:87-157 | the checks in order, both transfers and the row, or a full rollback |
| LoanSchedule.TermsAre | payfund_app/modules/fund/domain/loan.py:46-70 | terms are given exactly for a positive capital, 1 to 60 months and no negative rate; total and monthly amount are within half a unit of the exact ones, and the total is the same for every duration |
| LoanSchedule.TermsAreAtLeastPrincipal | payfund_app/modules/fund/domain/loan.py:46-70 | interest never shrinks a loan, and the documented example comes out |
| LoanSchedule.DaysAre | payfund_app/modules/fund/domain/loan.py:73-86 | the days of each month, leap years included |
| LoanSchedule.AddMonthsIs | payfund_app/modules/fund/domain/loan.py:73-86 | a valid date exactly so many months later, on the same day or the month's last |
| LoanSchedule.BuildSchedule | payfund_app/modules/fund/domain/loan.py:89-106 | the loop builds the schedule in which the last installment takes the rest |
| LoanSchedule.ScheduleSumsToTotal | payfund_app/modules/fund/domain/loan.py:89-106 | for every total, monthly amount and duration the schedule adds up to the total |
| LoanSchedule.DueDatesInOrder | payfund_app/modules/fund/domain/loan.py:73-106 | due dates are valid, k months after the start and strictly increasing |
| LoanSchedule.ChainedDatesDrift | payfund_app/modules/fund/domain/loan.py:73-82 | stepping month by month would lose days that stepping from the start keeps |
| LoanSchedule.TruncatedSchedule | payfund_app/modules/fund/application/use_cases.py:274-284 | with the truncated amount the last is that plus the remainder, and all are positive if and only if the total is at least the number of months |
| LoanSchedule.RoundedSchedule | payfund_app/modules/fund/domain/loan.py:58-63 | the rounded amount exceeds the truncated one by one exactly from half a remainder on, and the last differs by at most n/2 |
| LoanSchedule.RoundedLastPositiveIff | payfund_app/modules/fund/domain/loan.py:58-63 | a schedule of the rounded amount would end in a positive installment exactly when quotient and remainder outweigh what rounding up took before |
| LoanSchedule.RoundedLastCanBeNegative | payfund_app/modules/fund/domain/loan.py:61-63 | 90 over 60 months at the rounded 2 would leave -28 for the last |
| FundLoans.RepaymentPays | payfund_app/modules/fund/application/use_cases.py:349-385 | a repayment pays its amount on the next installment and keeps the loan's shape and status |
| FundLoans.DisbursementSetsSchedule | payfund_app/modules/fund/application/use_cases.py:274-292 | paying out sets a schedule of the total, refused by the store exactly below one unit a month |
| FundTheorems.RaisedIsInvested | payfund_app/modules/fund/application/use_cases.py:117-177 | over any run a campaign's raised amount is the sum of its investments |
| FundTheorems.OneInvestmentPerOrder | payfund_app/modules/fund/infra/models.py:82-84 | for any callbacks an order yields at most one investment, of its own campaign, amount and payer |
| FundGuards.StrangeEventChangesNothing | payfund_app/modules/fund/application/payment_use_cases.py:139-155 | a callback that no order matches in intent, reference, amount and currency changes nothing at all |
| FundGuards.EventRefusalIs | payfund_app/modules/fund/application/payment_use_cases.py:145-155 | which refusal it gets: unknown order, then reference, then amount or currency |
| FundGuards.AcceptedEventMarks | payfund_app/modules/fund/application/payment_use_cases.py:156-175 | an accepted callback marks its order with the status it tells of and keeps the rest |
| FundGuards.EventBehindInvestment | payfund_app/modules/fund/application/payment_use_cases.py:139-175 | over any run, an investment through an order is the order's in campaign, amount and payer, and a success event of the run named the order's reference, amount and currency |
| FundGuards.OwnersDoNotInvest | payfund_app/modules/fund/application/use_cases.py:117-240 | over any run, nobody invests or orders in a campaign of his own, and every loan is the owner's |
| FundGuards.InvestAcceptedIff | payfund_app/modules/fund/application/use_cases.py:117-177 | an investment under a new key is made exactly in an active campaign of somebody else below its goal, with a positive amount the wallet may pay |
| FundGuards.OrderPlacedIff | payfund_app/modules/fund/application/payment_use_cases.py:47-126 | when an order is placed, replayed or in conflict |
| FundGuards.LoanRequestedIff | payfund_app/modules/fund/application/use_cases.py:212-240 | a loan is requested exactly by the campaign's owner with terms in range |
| FundGuards.RepayAcceptedIff | payfund_app/modules/fund/application/use_cases.py:327-388 | a repayment is accepted exactly from the borrower, within the first open installment, under a known key or when the wallet may pay it |
| FundGuards.DisburseAcceptedIff | payfund_app/modules/fund/application/use_cases.py:244-294 | a pending loan is paid out exactly when the pool may pay its capital and the total is one unit a month or more |
| FundGuards.CampaignCreatedIff | payfund_app/modules/fund/application/use_cases.py:81-100 | a campaign is created exactly with a positive goal, with a pool of its own that may not go below zero |
| FundTheorems.SuccessInvestsIff | payfund_app/modules/fund/application/payment_use_cases.py:156-175 | an accepted success leaves the order with exactly one investment if and only if it was not already marked succeeded or had one |
| FundTheorems.OrderInvestedIff | payfund_app/modules/fund/application/payment_use_cases.py:139-175 | over any run, an order has its one investment if and only if some accepted success found it not marked succeeded |
| FundExamples.StatusBeforeSuccessLosesInvestment | payfund_app/modules/fund/application/payment_use_cases.py:156-160 | from empty tables, a status callback before the success event loses the investment |
| FundTheorems.RepeatsChangeNothing | payfund_app/modules/fund/infra/repositories.py:160-167 | a run equals the run without the repeats of accepted callbacks |
| FundTheorems.PoolIsExpected | payfund_app/modules/fund/application/use_cases.py:152-294 | a pool's wallet holds exactly wallet investments less loans paid out plus repayments, never less than nothing |
| FundTheorems.InvestmentHoldsIffKeyFits | payfund_app/modules/fund/application/use_cases.py:149-177 | a wallet investment keeps the pool exact if and only if its key is new or an earlier investment's |
| FundTheorems.RepaymentHoldsIffKeyNew | payfund_app/modules/fund/application/use_cases.py:363-385 | a repayment keeps the pool exact if and only if its key is new or it pays nothing |
| FundExamples.KnownKeyInvestsForNothing | payfund_app/modules/fund/application/use_cases.py:149-177 | from empty tables, an investment of 100 under a deposit's key counts in full while the pool holds nothing |
| FundExamples.KnownKeyRepaysForNothing | payfund_app/modules/fund/application/use_cases.py:363-385 | from empty tables, a loan repaid under a deposit's key is closed while the pool gets nothing back |
| FundTheorems.DisbursementHoldsIffKeyNew | payfund_app/modules/fund/application/use_cases.py:244-294 | paying out a loan keeps the pool exact if and only if its own ledger key is new |
| FundRepayments.PaidIsBroughtIff | payfund_app/modules/fund/application/use_cases.py:349-385 | over any run a loan's installments never show less than its repayments brought the pool, and exactly that if and only if no repayment of something was accepted under a known key |
| FundTheorems.LoansRepayInOrder | payfund_app/modules/fund/infra/repositories.py:241-280 | over any run installments are a paid prefix, at most one partial and untouched ones, what was paid never exceeds the total, and the status says how far the repayment is |
| FundTheorems.DisbursedIff | payfund_app/modules/fund/application/use_cases.py:376-385 | over any run a loan that was paid out still counts as disbursed if and only if nothing was paid and no repayment of nothing was accepted |
| FundTheorems.DisburseRefusedIff | payfund_app/modules/fund/infra/models.py:157 | once the money can move, paying out fails exactly when the total is below one unit a month, and nothing moves |
| FundSafety.BooksAndLoansAlways | payfund_app/modules/fund/application/use_cases.py:117-388 | every run, whatever keys are used, keeps raised amounts, unique investments of others than the owner, and the order of repayments |
| FundSafety.NextKeeps | payfund_app/modules/fund/application/use_cases.py:117-388 | every step of fund and wallet whose ledger key fits keeps books, loans and pools |
| FundUseCases.FundService.MoveMoney | payfund_app/modules/wallet/infra/wallet_service.py:34-78 | a debit or credit is one transfer in XOF whose amount is noted on the transaction |
| FundUseCases.FundService.MakeInvestment | payfund_app/modules/fund/application/use_cases.py:117-177 | the checks in order, the transfer, and the investment or its replay |
| FundUseCases.FundService.StartInvestment | payfund_app/modules/fund/application/payment_use_cases.py:47-126 | replay, conflict, refusal or a new order |
| FundUseCases.FundService.ReceiveEvent | payfund_app/modules/fund/application/payment_use_cases.py:139-175 | duplicate, refusal with the inbox rolled back, or the effect |
| FundUseCases.FundService.AskForLoan | payfund_app/modules/fund/application/use_cases.py:212-240 | a pending loan of the simulated terms for the campaign's owner only |
| FundUseCases.FundService.AddInstallments | payfund_app/modules/fund/infra/repositories.py:248-258 | one row per installment, refused when an amount is not positive |
| FundUseCases.FundService.PayOutLoan | payfund_app/modules/fund/application/use_cases.py:244-294 | the transfer, the schedule and the status, or a full rollback |
| FundUseCases.FundService.RepayLoan | payfund_app/modules/fund/application/use_cases.py:327-388 | the checks in order, the transfer, the installment and the status |

## Left out

- HTTP provider adapters, gateways, callback and message senders: their answers are parameters.
- Routers, schemas, configuration, logging, metrics: wiring around the use cases.
- Authentication, PINs, step-up proofs, callback signatures, QR codes: access control.
- Peer-to-peer and merchant payments beyond the ledger transfer they make; their extra idempotency comparison.
- Routing, history, listing and detail queries: easy members only.
- Failure texts, provider status texts, timestamps and `updated_at`; the age and limit filters of reconciliation
  candidates; the event rows that a reconciliation pass logs.
- The stale read of a payout sweep: a pass acts on a payout it has just read.
- The sort order of summary entries and Unicode case folding; blanks and ASCII letters are folded.
- `raised_amount` at most the goal, and outstanding never negative: not kept by the code, since orders are not
  rechecked at confirmation and a refund may follow a settlement.
- The upper bound of calendar years, and the widths of database columns.
- The wallet's event relay and its `payment.completed` outbox rows: no state that another property reads.
- The status history of loans, and references on ledger lines: written, never read by a property.
- CurrencyExchange.PositionsHoldOverRuns: a currency's rate is an exact number; the rates table keeps eight decimals.
- Outbox.OutboxTable.RunDelivery: no other worker acts between the claim and the reports; `Outbox.Step` interleaves them.
- AccountingSummary.Summarise: the order of the entries is not stated, only which entries there are.
- WalletUseCases.WalletService.MakeWithdrawal: one request at a time; `LateWithdrawals` says what a second one with the
  same key does when it misses a lookup.
- WalletLedger.AssertBalanced: the three refusals carry different texts in the source and are one refusal here.
