# Verified model of the payroll payment core

This project models, in Dafny, the parts of the payroll backend that move money or keep evidence about it, and
proves what they guarantee: the wallet and settlement protocol with its webhook, reconciliation and one-time-password
workers, the integrity scanner and the incident repair, the audit hash chain, the webhook inbox and payment
recovery leases, and four smaller algorithms (private file migration, bounded upload buffering, card number check,
paged queue purge). `dafny verify dfyconfig.toml` checks all of it.

## How it is built

- `Records`, `Wallets`, `Settlements` give the tables and every transaction as a function from one database to the
  next, with the branches and the errors of the code. `SettlementStore` runs the same transactions statement by
  statement on mutable tables, with rollback, and is proved to end exactly as those functions say.
- `SettlementInvariant`, `TransactionSafety`, `Obligations` hold the invariant of the tables and the proof that
  each transaction keeps it. `Effects` spells out for each transaction when it acts, what it writes and when it
  refuses, without using its own steps. The money phase of a settlement (untouched, held, released, debited,
  restored) is read from its reservation columns and its ledger rows, never from its status.
- `Protocol` is the concurrent system: any number of workers, each holding the row it once read, one database step
  at a time, in any order, crashing anywhere, with provider answers and webhook deliveries arriving late, twice or
  never; `WorkerEffects` says which row and which call every answer leads to. `ProtocolSafety` and `ProtocolRuns`
  carry the invariant through every run. `Guarantees` and `Verdicts` state what every run guarantees; `StaleWrites`
  and `SplitReversals` say exactly when a status or an obligation stops agreeing with the money, and `Scenarios`
  holds two runs from the beginning that get there.
- `IntegrityScanner` and `ScannerAgreement` prove the scanner exact and silent on every reachable wallet, and
  `ScannerFindings` says what each finding means for rows in any order. `IncidentRepair` is the one-off correction,
  `RepairConditions` when it runs and `RepairVerdicts` what the scanner says before and after it.
- `StableText`, `StableReading` and `AuditChain` are the canonical text, an independent reader that gets every value
  back from it, and the hash chain.
- `ProviderWords` follows each word of the provider from the raw response to the rows. `PaystackTransfers`,
  `WebhookInbox`, `InboxRecovery`, `InboundRecovery` and `Backoff` are the event front door, the inbox row with its
  workers, the recovery pass, the payment recovery leases and the retry delays.
- `FileMigration`, `BoundedUpload`, `CardNumber` and `QueuePurge` are the four smaller algorithms.

## What is assumed

- Transactions are serialised, a transaction commits entirely or not at all, and the unique keys of the settlement
  and ledger tables hold (src/scripts/verify-financial-test-database.ts:46-53).
- `createdAt` grows strictly with every ledger row, so ledger order is creation order and identifiers are positions.
- Money is integer minor units. A zero amount is positive for `isPositive()`, so amounts are at least zero.
- A manual takeover of a PREPARED row names the wallet and the amount of that row; the theorems about runs take only
  such takeovers. `Guarantees.TakeoverPaysItsRow` proves that this is exactly the condition under which the takeover
  pays its row.
- Money from outside (funding, other debits) is one abstract step that appends a well-formed row whose source type
  is not one of the two settlement source types.
- The scanner is proved silent on wallets that are well kept in the four points the protocol does not control: the
  currency is stored normalised, internal references are not empty, source types are plain words, and test credits
  stay in test tenants.
- The audit hash is injective, key order is a total order given as a parameter, and text is a sequence of Unicode
  scalar values. Changing case is ASCII, and text in database conditions is compared exactly.
- Claim tokens are fresh; clocks do not run backwards, but a recovery pass may use the moment it started.
- During a file migration one worker handles a row at a time (a live attempt is never declared stale), and writing an
  object replaces what its key held. Nobody adds queue jobs during the purge.

The proofs about money lean on no lease: the reconciliation lease is given back before the result is applied
(src/core/provider-settlement.ts:199-226), so the model lets any number of reconcilers and webhook handlers run at once.

## What the proofs found

Each of these is a theorem about the code as it is.

- Four writes do not look at the row they change (src/core/provider-settlement.ts:117, 146 and 218, 264-267, 270). A
  debited settlement reads SUCCEEDED exactly until the first of them hits it
  (`StaleWrites.DebitedReadsSucceededExactlyWhen`); from then on it can never be reversed
  (`Guarantees.OverwrittenSuccessIsForever`). `Scenarios.SuccessGetsOverwritten` is a run that does it.
- A crash between the two transactions of a reversal leaves the obligation PAID although its money was given back. It
  stays so for good exactly when no worker is left that read the row before the reversal and may still hear of it,
  because the repeated event returns early (src/core/provider-settlement.ts:111):
  `SplitReversals.SplitIsForeverExactlyWhen`. `Scenarios.ReversalGetsSplit` is a run that does it.
- A manual settlement from another wallet or for another amount takes over a PREPARED row without paying it:
  `Guarantees.TakeoverPaysItsRow`.
- The repaired incident wallet is reported again by the very next economic row, because the gap loop skips the
  correction (src/core/financial-integrity-scanner.ts:27): `RepairVerdicts.NextRowRaisesTheFindingAgain`.
- The recovery pass dead-letters one attempt early, since it reads the count after its own claim raised it
  (src/core/paystack-transfer-webhook.ts:61,95): `WebhookInbox.RecoveryGivesUpOneEarly`. A delivery with an outdated
  count can strand a row as FAILED with no attempt left: `WebhookInbox.OutdatedCountStrands`. A stored event with an
  undocumented status is claimed again for ever: `WebhookInbox.UnsupportedStatusNeverEnds`.
- An error in the last updates of a file migration makes the handler delete the object the owner already names
  (src/core/private-file-migration.ts:83-86): `FileMigration.LateErrorLosesTheFile`,
  `FileMigration.HandlerIsSafeExactlyWhen`.
- A wallet whose currency is stored in lower case is reported by the scanner although the protocol accepts it:
  `ScannerAgreement.UnnormalizedWalletIsReported`.
- An array holding only `undefined` has the audit text of the empty array: `StableReading.UndefinedElementIsLost`.

## Model

| member | source | states |
|---|---|---|
| Wallets.ReservationEndings | src/core/wallet-integrity.ts:30-64 | a reservation succeeds exactly when the immediate debit would; releasing it restores the wallet, consuming it equals that debit, and neither changes what the rest can spend |
| Wallets.NormalizeIdempotent | src/core/wallet-integrity.ts:6-15 | repeated currency normalisation in nested operations cannot change the verdict |
| Wallets.NormalizeIs | src/core/wallet-integrity.ts:6-6 | normalising takes away the blanks around a currency and raises its letters, and nothing else |
| Wallets.UpdatesLandExactlyWhen | src/core/wallet-integrity.ts:19-64 | the four updates land exactly for a nonnegative amount on the tenant's wallet, stored in the wanted currency without blanks, with the money spendable or held; and what each leaves |
| Wallets.RefusalsSay | src/core/wallet-integrity.ts:8-35 | which refusal the caller is told, in the order of the checks |
| SettlementStore.Store.ReserveWalletBalance | src/core/wallet-integrity.ts:30-36 | reserves exactly when amount, tenant, currency and spendable balance allow, and only moves the reserved balance |
| SettlementStore.Store.ConsumeWalletReservation | src/core/wallet-integrity.ts:48-56 | lowers balance and reservation together, or nothing |
| SettlementStore.Store.ReleaseWalletReservation | src/core/wallet-integrity.ts:58-64 | lowers only the reservation, and only when it is held |
| SettlementStore.Store.DebitUnreservedWallet | src/core/wallet-integrity.ts:38-46 | debits only spendable money |
| SettlementStore.Store.ReserveAndClaimProviderSettlement | src/core/provider-settlement.ts:32-47 | the statements with rollback end as the transaction function: hold and initiation claim together, or neither |
| SettlementStore.Store.FinalizeProviderSettlementSuccess | src/core/provider-settlement.ts:86-106 | wallet, debit row, obligation, payroll run and settlement change together, or nothing does |
| SettlementStore.Store.UpdatePayrollAggregate | src/core/provider-settlement.ts:75-84 | after a payment the run reads DISBURSED exactly when all its payslips are paid and DISBURSING otherwise; undoing one makes it disbursing again unless it was cancelled |
| SettlementStore.Store.ReverseBusinessObjects | src/core/provider-settlement.ts:123-130 | the second transaction of a reversal undoes only the settlement's own obligation |
| SettlementStore.Store.ApplyProviderTransferResult | src/core/provider-settlement.ts:108-118 | the handler run without interruption equals the handler steps of the concurrent system, and ends in an error exactly when specified |
| SettlementStore.ErrorsLeaveNoTrace | src/core/provider-settlement.ts:108-118 | when handling a result ends in an error, nothing was written |
| SettlementStore.EndedRowsAnswer | src/core/provider-settlement.ts:108-113 | news of a row that had ended changes nothing unless it reverses a success, and is an error exactly when it contradicts the ending |
| SettlementStore.Store.PrepareProviderSettlement | src/core/financial-settlement.ts:43-55 | a settlement exists once per obligation; a second preparation changes nothing |
| SettlementStore.Store.ReleaseSettlementReservation | src/core/financial-settlement.ts:57-72 | gives back a held reservation once, and is a no-op on a released failure |
| SettlementStore.Store.ReverseSucceededSettlement | src/core/financial-settlement.ts:74-126 | credits exactly the debited amount with a row pointing at the first debit; replays and key clashes change nothing |
| SettlementStore.Store.CompleteManualSettlement | src/core/financial-settlement.ts:16-41 | reserves, debits and completes in one transaction, taking over a PREPARED row or adding one |
| Effects.PreparingActsExactlyWhen | src/core/financial-settlement.ts:43-55 | a settlement is prepared exactly for an obligation without one, on its tenant's wallet in its currency, with unused keys |
| Effects.ClaimingActsExactlyWhen | src/core/provider-settlement.ts:32-47 | a claim is given exactly to an unclaimed row that is reserved, or prepared with its amount spendable; the row and the reservation it leaves |
| Effects.ClaimRefusals | src/core/provider-settlement.ts:33-40 | a prepared row on an open wallet is refused exactly when its amount is not spendable |
| Effects.FinalizingActsExactlyWhen | src/core/provider-settlement.ts:86-104 | a success is finalised exactly on a row under way that matches in reference, amount, currency and recipient, with the money held, the debit row new and the obligation payable |
| Effects.FinalizingWrites | src/core/provider-settlement.ts:75-106 | what a success writes: wallet, debit row, settlement row, obligation, and a run that reads DISBURSED exactly when all its payslips are paid and DISBURSING otherwise |
| Effects.ResultRefusals | src/core/provider-settlement.ts:88-92 | which refusal a success meets |
| Effects.ReleasingActsExactlyWhen | src/core/financial-settlement.ts:57-72 | a reservation is given back exactly on a row under way whose wallet holds it; only the reservation and the row change |
| Effects.ReversingActsExactlyWhen | src/core/financial-settlement.ts:82-116 | a reversal acts exactly on a row that reads SUCCEEDED, with a debit row, agreeing currencies and a reference new to ledger and settlements |
| Effects.ReversingWrites | src/core/financial-settlement.ts:87-116 | it puts the amount back with a credit row that points at the earliest debit row, and names that row on the settlement |
| Effects.UndoingBusinessWrites | src/core/provider-settlement.ts:75-130 | the business half always lands: a settled request reads approved, a paid payslip reads undone, its run disbursing unless cancelled; no money moves |
| Effects.CompletingNewActsExactlyWhen | src/core/financial-settlement.ts:16-36 | an obligation without a settlement is completed by hand exactly when its money is spendable and its keys are new; the rows it leaves |
| Effects.CompletingOldActsExactlyWhen | src/core/financial-settlement.ts:20-30 | with a settlement, the same completion again changes nothing and a takeover needs a prepared provider row, agreeing currency, spendable money and new keys |
| Effects.CompletingOldWrites | src/core/financial-settlement.ts:28-34 | the takeover rewrites that one row with its own wallet, amount and reference, and debits what the caller named |
| Effects.OutsideActsExactlyWhen | src/core/wallet-integrity.ts:38-46 | outside money lands exactly on its tenant's wallet in its currency, a debit only within what is spendable |
| TransactionSafety.ReserveAndClaimIsSafe | src/core/provider-settlement.ts:32-47 | keeps the invariant; a claim is given only to a row never claimed before, and only with its money held |
| TransactionSafety.FinalizeIsSafe | src/core/provider-settlement.ts:86-106 | keeps the invariant and moves money only from held to debited |
| TransactionSafety.ReleaseIsSafe | src/core/financial-settlement.ts:57-72 | keeps the invariant and moves money only from held to released |
| TransactionSafety.ReverseIsSafe | src/core/financial-settlement.ts:74-126 | keeps the invariant and moves money only from debited to restored |
| TransactionSafety.ManualIsSafe | src/core/financial-settlement.ts:16-41 | keeps the invariant and moves money only from untouched to debited, once |
| TransactionSafety.OverwriteIsSafe | src/core/provider-settlement.ts:117-117 | an unguarded status write changes no money phase, reservation or ledger row |
| SettlementInvariant.MovesKeepsSound | src/core/wallet-integrity.ts:30-64 | one settlement moving along an edge keeps balances, reservations, the running ledger and all unique keys |
| SettlementInvariant.ExternalKeepsSound | src/core/wallet-integrity.ts:38-46 | outside credits and spendable debits keep the invariant |
| Obligations.FinalizeAgrees | src/core/provider-settlement.ts:96-104 | a debit pays exactly its own obligation and keeps disbursed runs fully paid |
| Obligations.ReverseBusinessAgrees | src/core/provider-settlement.ts:120-132 | undoing a restored settlement's obligation leaves every other obligation as it was and reopens its run |
| Protocol.FindTransfer | src/core/paystack-transfer-webhook.ts:77-77 | the settlement found for a reference is a provider row carrying it, and none is found only when there is none |
| ProtocolSafety.ActEffect | src/core/provider-settlement.ts:134-279 | every step of every worker, on any stale row, keeps tables, calls and evidence sound; the rows below state which effect each step has |
| WorkerEffects.DefiniteErrorGivesBack | src/core/provider-settlement.ts:139-149 | a definite error at any stage of an initiation ends with the held reservation given back and the row FAILED |
| WorkerEffects.UnclearOutcomeIsUnknown | src/core/provider-settlement.ts:146-221 | an unclear outcome, or a missing transfer that may have been attempted, leaves the row UNKNOWN with its money where it was |
| WorkerEffects.InitiationCallsOnce | src/core/provider-settlement.ts:139-144 | an undisturbed initiation saves the recipient, marks the attempt before it calls, and calls once for the row's own reference, amount and currency |
| WorkerEffects.SecondCallExactlyWhen | src/core/provider-settlement.ts:199-213 | a verification ends in a second call exactly when the transfer is missing, a recipient is known and no attempt was marked |
| WorkerEffects.UnfitNewsLeavesNoTrace | src/core/provider-settlement.ts:108-113 | news of another transfer or of an ended row leaves no trace |
| WorkerEffects.OtpIsClaimedExactlyWhen | src/core/provider-settlement.ts:245-249 | a one-time password goes out exactly for a processing row that waits for one and is not released |
| WorkerEffects.OtpEnds | src/core/provider-settlement.ts:251-278 | the row every answer to a one-time password leaves |
| WorkerEffects.OtpStartsExactlyWhen | src/core/provider-settlement.ts:238-243 | which rows a submission is accepted for |
| WorkerEffects.InitiatorStartsExactlyWhen | src/core/provider-settlement.ts:134-138 | an initiator starts exactly on a row it may claim |
| WorkerEffects.DeliveryIsHandled | src/core/paystack-transfer-webhook.ts:77-91 | a delivered event is handled on the row it names, unless it reverses a row that does not read successful or reversed |
| ProtocolRuns.EventKeepsInv | src/core/provider-settlement.ts:32-279 | every event keeps the system invariant and moves each settlement along at most one edge |
| ProtocolRuns.RunsKeepInv | src/core/provider-settlement.ts:32-279 | so does every run |
| Guarantees.EveryRunTellsOneStory | src/core/provider-settlement.ts:86-150 | in every run the money follows one of three stories: held-debited-restored, held-released, or manually debited; so at most one debit, one reversal, and one end of each reservation |
| Guarantees.NetEffectIsThePhase | src/core/provider-settlement.ts:94-95 | the ledger effect of a settlement is minus its amount while debited and zero otherwise |
| Guarantees.MoneyIsConserved | src/core/wallet-integrity.ts:30-64 | balance equals outside money less the standing debits, the reserved balance equals the held amounts, and never exceeds the balance |
| Guarantees.EveryRunConservesMoney | src/core/financial-settlement.ts:57-117 | both hold after every run, for every wallet and settlement |
| Guarantees.NoDebitWithoutEvidence | src/core/provider-settlement.ts:70-92 | every provider debit was preceded by a webhook or verification of success with the settlement's reference, amount and currency, every reversal by a matching reversal, and every release by a matching failure or a definite initiation error |
| Verdicts.AcceptedExactlyWhen | src/core/provider-settlement.ts:86-116 | a result is accepted exactly when the row the worker read lets it through and row, wallet, unique keys and obligation are ready for it |
| Verdicts.RefusedNewsMovesNothing | src/core/provider-settlement.ts:108-118 | a result that is not accepted changes no wallet, ledger row or money column |
| Verdicts.LaterNewsIsRefused | src/core/provider-settlement.ts:110-118 | after the money moved, no success or failure is accepted, and a reversal only while it stands debited |
| Verdicts.FirstConclusiveResultDecides | src/core/paystack-transfer-webhook.ts:60-102 | in every run a provider settlement is decided by the first accepted conclusive result, followed by at most one reversal of a success; its ledger effect is exactly that |
| Guarantees.AtMostTwoCalls | src/core/provider-settlement.ts:139-213 | a settlement is handed to one initiator at most; the provider is called at most once by it and once by a reconciler, always with the same reference, amount and currency |
| Guarantees.BusinessAgrees | src/core/provider-settlement.ts:75-132 | a disbursed run has only paid payslips, success implies paid, and paid means debited unless a reversal was split |
| SplitReversals.PaidExactlyUntilUndone | src/core/provider-settlement.ts:86-132 | in every run an obligation reads as paid exactly from its debit until the business half of its reversal runs |
| SplitReversals.HealsExactlyWhen | src/core/provider-settlement.ts:108-122 | on a restored settlement the handler goes on to the business half exactly for a worker that read the row before the reversal and hears of that very reversal |
| SplitReversals.SplitIsForeverExactlyWhen | src/core/provider-settlement.ts:108-132 | a split reversal stays in every continuation exactly when no worker under way can still heal it; new workers never can |
| SplitReversals.SplitReversalIsForever | src/core/provider-settlement.ts:108-132 | then the obligation stays paid although its money was given back |
| SplitReversals.CrashAbandons | src/core/provider-settlement.ts:120-132 | a crash of the only worker under way between the two transactions makes it so |
| Scenarios.ReversalGetsSplit | src/core/provider-settlement.ts:120-132 | a run from the beginning that ends there |
| SplitReversals.SecondHalfHeals | src/core/provider-settlement.ts:123-130 | without the crash the same worker makes the obligation unpaid again |
| Guarantees.ReversalCommits | src/core/financial-settlement.ts:85-116 | a reversal commits exactly when the row reads SUCCEEDED, currencies agree and its unique keys are free |
| Guarantees.ReversalLandsExactlyAfterSuccess | src/core/provider-settlement.ts:108-122 | a reversal moves money exactly when the success has landed and is not hidden; before that it has no effect |
| StaleWrites.SuccessIsOverwrittenExactlyBy | src/core/provider-settlement.ts:117-270 | a worker step takes a row out of SUCCEEDED, other than by its reversal, exactly when it is one of the four unguarded writes to it |
| StaleWrites.StaleNewsOverwritesSuccess | src/core/provider-settlement.ts:117-270 | each of the four leaves the settlement debited and reading PROVIDER_PROCESSING or UNKNOWN, with wallets and ledger untouched |
| StaleWrites.SuccessIsLostExactlyWhen | src/core/provider-settlement.ts:117-270 | so does an event of the system, in every reachable state |
| StaleWrites.DebitedReadsSucceededExactlyWhen | src/core/provider-settlement.ts:86-270 | in every run a debited provider settlement reads SUCCEEDED exactly when no unguarded write hit it after its success |
| Scenarios.SuccessGetsOverwritten | src/core/provider-settlement.ts:185-200 | a run from the beginning in which a pending verification is written down after the webhook's success |
| Guarantees.OverwrittenSuccessIsForever | src/core/financial-settlement.ts:85-86 | such a settlement stays debited and can never be reversed, in every continuation |
| Guarantees.TakeoverPaysItsRow | src/core/financial-settlement.ts:20-34 | a manual takeover pays its row exactly when wallet and amount are that row's |
| IntegrityScanner.AnalyzeWalletIntegrity | src/core/financial-integrity-scanner.ts:14-42 | reports exactly the described findings of a wallet and nothing else |
| IntegrityScanner.SilentExactlyWhenHealthy | src/core/financial-integrity-scanner.ts:14-42 | silence is equivalent to balance, reservations, linked rows or corrected gaps, unique identities and sound settlements, all over the ordered rows |
| ScannerFindings.TotalFindings | src/core/financial-integrity-scanner.ts:17-26 | the balance and reservation findings in terms of what the rows and settlements are worth, in any order |
| ScannerFindings.RunningBalanceFinding | src/core/financial-integrity-scanner.ts:27-29 | the running-balance finding in terms of the jumps between rows and what corrections account for |
| ScannerFindings.SettlementFindings | src/core/financial-integrity-scanner.ts:31-39 | each settlement finding in terms of its row; a success needs exactly one debit row |
| ScannerFindings.EvidenceFindings | src/core/financial-integrity-scanner.ts:30-40 | duplicates are reported exactly when two rows are the same transfer, source or reference; test credits exactly outside test tenants |
| RepairVerdicts.CorrectionsExplainTheRest | src/core/financial-integrity-scanner.ts:17-29 | with corrections and upward gaps, sound totals mean that the corrections are what the closing balance holds beyond what the rows explain |
| IntegrityScanner.NoGapsMeansLinked | src/core/financial-integrity-scanner.ts:27-27 | the gap sum is zero exactly when every row starts where the previous one ended |
| IntegrityScanner.FindDuplicates | src/core/financial-integrity-scanner.ts:30-30 | the identity map finds a repetition exactly when two rows share an identity |
| IntegrityScanner.MeasureGaps | src/core/financial-integrity-scanner.ts:27-27 | the audit loop computes the sum of the gaps |
| ScannerAgreement.ReachableWalletsScanClean | src/core/financial-integrity-scanner.ts:12-42 | in every run of the protocol the scanner finds nothing on a well-kept wallet |
| ScannerAgreement.IdentitiesDiffer | src/core/financial-integrity-scanner.ts:30-30 | the identity text of two different protocol rows is never the same, although it joins fields with colons |
| ScannerAgreement.UnnormalizedWalletIsReported | src/core/financial-integrity-scanner.ts:34-34 | a settlement on a wallet draws the currency finding exactly when the stored currency is not normalised |
| IncidentRepair.InspectPayrollWalletIncident | src/core/payroll-wallet-incident-repair.ts:42-92 | looks at the first wallet with the profile's fingerprint; safe means nothing changed and nothing was repaired, otherwise the reasons are exactly the changed facts |
| IncidentRepair.IncidentDesk.ExecutePayrollWalletIncidentRepair | src/core/payroll-wallet-incident-repair.ts:94-107 | with a matching confirmation, corrects balance, ledger and audit together exactly on the recorded incident, and nothing otherwise |
| IncidentRepair.RepairedAtMostOnce | src/core/payroll-wallet-incident-repair.ts:54-107 | any run of repairs and wallet activity writes at most one correction |
| RepairConditions.RepairableExactlyWhen | src/core/payroll-wallet-incident-repair.ts:48-92 | for a profile that adds up, all checks of the inspection together come to: the columns and the rows are the recorded ones and nothing uses the wallet |
| RepairConditions.ForeignRowIsNamed | src/core/payroll-wallet-incident-repair.ts:60-83 | one row too many is refused with the reasons that describe it |
| RepairConditions.RepairIsRecognised | src/core/payroll-wallet-incident-repair.ts:102-106 | what the repair writes, and that the inspection recognises it from then on |
| RepairConditions.RecognisedExactlyWhen | src/core/payroll-wallet-incident-repair.ts:54-59 | a repaired wallet counts as repaired exactly while its balances stay corrected and one audit names the correction |
| IncidentRepair.GapsTelescope | src/core/payroll-wallet-incident-repair.ts:60-83 | for a ledger opening at zero with upward gaps, the gaps add up to what no row explains |
| RepairVerdicts.CorrectionSilencesExactlyWhen | src/core/financial-integrity-scanner.ts:17-29 | behind a ledger of upward gaps one correction makes the scanner silent exactly when it takes away the unexplained amount |
| RepairVerdicts.NextRowRaisesTheFindingAgain | src/core/financial-integrity-scanner.ts:27-29 | with the next economic row the scanner reports a running-balance break of twice the correction, exactly when the correction was not zero |
| RepairVerdicts.ProductionWalletIsReported | src/core/payroll-wallet-incident-repair.ts:19-33 | before the repair the scanner reports the unledgered value of every wallet that fits the production profile |
| RepairVerdicts.ProductionRepairSilences | src/core/payroll-wallet-incident-repair.ts:19-33 | after its repair the scanner has nothing to report on it |
| StableText.SortCommutes | src/modules/admin/admin.audit.ts:20-23 | rendering members and sorting them by key commute |
| StableReading.StringReads | src/modules/admin/admin.audit.ts:17-22 | an escaped string ends at its closing quote and nowhere else |
| StableReading.EscapedReads | src/modules/admin/admin.audit.ts:17-17 | an independent reader of string literals gets every escaped string back |
| StableReading.EscapesAreShortest | src/modules/admin/admin.audit.ts:17-17 | which of the readable escapes the text uses |
| StableReading.TextReadsBack | src/modules/admin/admin.audit.ts:16-24 | an independent reader of values gets from the text of a value exactly its meaning |
| StableReading.MembersStandInOrder | src/modules/admin/admin.audit.ts:20-23 | the members of an object stand in its text in ascending order of their keys, each once, with its value |
| StableReading.Reads | src/modules/admin/admin.audit.ts:16-24 | two values whose texts agree up to a delimiter mean the same, at every depth |
| StableReading.TextIsCanonical | src/modules/admin/admin.audit.ts:16-24 | the text reads as the meaning of the value, so equal text is equivalent to equal meaning: key order never matters and nothing else is lost |
| StableReading.KeyOrderIsIrrelevant | src/modules/admin/admin.audit.ts:20-23 | permuting the entries of an object keeps its text |
| StableReading.UndefinedElementIsLost | src/modules/admin/admin.audit.ts:17-18 | the one pair of arrays that the text confuses |
| AuditChain.MergedMetadata | src/modules/admin/admin.audit.ts:26-35 | the request's address and agent only fill values that are missing or falsy; all other metadata is kept |
| AuditChain.CallerComesFirst | src/modules/admin/admin.audit.ts:26-35 | the caller's address and agent are kept unless they are missing, undefined, null, false, empty or zero |
| AuditChain.HashedTextSays | src/modules/admin/admin.audit.ts:37-54 | reading the hashed text gives the ten named members with their values and the number in decimal |
| AuditChain.TextFixesEntry | src/modules/admin/admin.audit.ts:37-54 | the hashed text fixes every field of an entry, its number and its predecessor, and nothing else |
| AuditChain.EqualHeadsAgree | src/modules/admin/admin.audit.ts:37-93 | two chains have the same head exactly when they hold the same events in the same order |
| AuditChain.EditIsCaught | src/modules/admin/admin.audit.ts:37-93 | an entry edited in place breaks the chain or changes its head, whatever hash is written beside it |
| AuditChain.ChainedAt | src/modules/admin/admin.audit.ts:68-71 | numbers run from one and every entry names the hash before it |
| AuditChain.PersistedExtendsOneChain | src/modules/admin/admin.audit.ts:56-93 | a call fails only at the column limit; otherwise it appends its event to its tenant's chain and touches no other |
| AuditChain.EveryRunIsChained | src/modules/admin/admin.audit.ts:56-93 | after any calls of any tenants every chain is whole and its cursor row holds its head and length |
| AuditChain.AuditStore.PersistAuditLog | src/modules/admin/admin.audit.ts:56-93 | the statements, including the undone upsert, end as the specification says |
| PaystackTransfers.StatusIgnoresCase | src/core/paystack-transfer-provider.ts:10-17 | a status means the same in any case, and each of the four states has its own words |
| PaystackTransfers.ParsedExactlyWhen | src/core/paystack-transfer-provider.ts:19-26 | which responses are understood, malformed or unsupported, and what an understood one is passed on as |
| ProviderWords.PendingWordKeepsMoney | src/core/paystack-transfer-provider.ts:10-26 | from a raw response to the rows: pending, otp and received keep the money and leave PROVIDER_PROCESSING with that word |
| ProviderWords.FailureWordGivesBack | src/core/paystack-transfer-provider.ts:10-26 | failed, abandoned, blocked and rejected give held money back and leave FAILED with that word |
| ProviderWords.SuccessWordPays | src/core/paystack-transfer-provider.ts:10-26 | success pays the held money out when debit and obligation are ready |
| ProviderWords.ReversedWordPutsBack | src/core/paystack-transfer-provider.ts:10-26 | reversed puts the money of a succeeded row back when its reference is new |
| ProviderWords.OtherWordsAreRefused | src/core/paystack-transfer-provider.ts:10-26 | every other word is refused before the handler is asked |
| PaystackTransfers.AcknowledgementNeverDebits | src/core/paystack-transfer-provider.ts:51-68 | an initiation or one-time-password answer handed to the result handler never debits a settlement, whatever it says |
| PaystackTransfers.StoredEventReadsBack | src/core/paystack-transfer-webhook.ts:41-82 | an accepted event is never malformed later and reads back as the result its words would give in a verification |
| PaystackTransfers.EventTypeSpeaks | src/core/paystack-transfer-webhook.ts:48-48 | an event without a status is read as its type says |
| PaystackTransfers.EventIsStoredExactlyWhen | src/core/paystack-transfer-webhook.ts:42-51 | which events are kept |
| WebhookInbox.EveryClaimIsCounted | src/core/paystack-transfer-webhook.ts:14-101 | claims equal attempts plus deferrals, both stay nonnegative, and a row is processing exactly while a token and a lease are on it |
| WebhookInbox.ClaimIsAnswered | src/core/paystack-transfer-webhook.ts:65-101 | the row each finding leaves when the worker still holds its claim, with the waits, and no change otherwise |
| WebhookInbox.LeaseExcludesOthers | src/core/paystack-transfer-webhook.ts:14-39 | while a lease runs nobody but its holder changes the row |
| WebhookInbox.LostClaimsStayLost | src/core/paystack-transfer-webhook.ts:73-99 | a worker that lost its token never writes an outcome again |
| WebhookInbox.SettledIsForever | src/core/paystack-transfer-webhook.ts:19-27 | processed, ignored, dead-lettered and used-up rows are never touched again |
| WebhookInbox.FailedRowRests | src/core/paystack-transfer-webhook.ts:21-21 | a failed row is untouched until its next attempt is due |
| WebhookInbox.RecoveryGivesUpOneEarly | src/core/paystack-transfer-webhook.ts:61-98 | on the recovery path a failure is final exactly when one attempt would still be left |
| WebhookInbox.OneFailedRecoveryIsFinal | src/core/paystack-transfer-webhook.ts:104-136 | with a limit of two attempts a single failed recovery is final |
| WebhookInbox.FailedStaysBelowLimit | src/core/paystack-transfer-webhook.ts:60-101 | with current counts and no takeover at the limit, a failed row is always claimable and a delivery's failure is final exactly at the limit |
| WebhookInbox.StrandedExactlyWhen | src/core/paystack-transfer-webhook.ts:83-98 | exactly which outcomes leave a row failed with no attempt left |
| WebhookInbox.OutdatedCountStrands | src/core/paystack-transfer-webhook.ts:61-98 | a delivery with an outdated count that uses the last attempt strands its row |
| WebhookInbox.OutdatedCountHappens | src/core/paystack-transfer-webhook.ts:60-101 | two deliveries of one event reach the state in which that happens |
| WebhookInbox.UnsupportedStatusNeverEnds | src/core/paystack-transfer-webhook.ts:82-82 | an undocumented status never gets an answer; it is ignored only after handling found no settlement for it |
| InboxRecovery.RecoveredRowIsAnswered | src/core/paystack-transfer-webhook.ts:60-101 | what a row can look like after its claim was won and handled, and exactly when it stays claimed |
| InboxRecovery.RecoveredExactly | src/core/paystack-transfer-webhook.ts:123-135 | exactly the row each turn of a pass leaves |
| InboxRecovery.PickedAreOldestDue | src/core/paystack-transfer-webhook.ts:104-118 | a pass picks exactly the oldest due rows its quota allows |
| InboxRecovery.Inbox.Claim | src/core/paystack-transfer-webhook.ts:14-39 | a claim is given exactly to an eligible row and raises its count |
| InboxRecovery.Inbox.ProcessStored | src/core/paystack-transfer-webhook.ts:60-102 | handling under a claim ends as specified, and its report tells how |
| InboxRecovery.Inbox.RetryPending | src/core/paystack-transfer-webhook.ts:104-139 | whatever others did to the picked rows meanwhile, the pass recovers each whose claim it wins, touches no other row, and its totals count what became of its claims |
| InboxRecovery.AlonePassWinsAll | src/core/paystack-transfer-webhook.ts:123-126 | with nobody else at work every claim of a pass is won |
| InboundRecovery.EveryClaimIsCounted | src/core/inbound-payment-recovery.ts:9-39 | every claim is counted, and a given-up row carries none |
| InboundRecovery.ClaimableStatuses | src/core/inbound-payment-recovery.ts:14-25 | which statuses of each table are claimed, and from when |
| InboundRecovery.ClaimAndReport | src/core/inbound-payment-recovery.ts:15-39 | a claim that is given back leaves its report, one more attempt and nothing else |
| InboundRecovery.LeaseExcludesOthers | src/core/inbound-payment-recovery.ts:9-29 | while a lease runs nobody else claims or releases the row |
| InboundRecovery.LostClaimsStayLost | src/core/inbound-payment-recovery.ts:31-39 | the report of a lost claim is never stored |
| InboundRecovery.GivenUpIsForever | src/core/inbound-payment-recovery.ts:14-14 | a dead-lettered row is never claimed again, whatever its status does |
| InboundRecovery.RowRests | src/core/inbound-payment-recovery.ts:14-14 | an unclaimed row is untouched until it is due |
| InboundRecovery.CrashDelaysOneLease | src/core/inbound-payment-recovery.ts:7-29 | after a crash the row is claimable again exactly when the lease is over |
| InboundRecovery.RecoveryStore.ClaimRecovery | src/core/inbound-payment-recovery.ts:9-29 | a claim is given exactly to a row that is due, and changes only it |
| InboundRecovery.RecoveryStore.ReleaseRecovery | src/core/inbound-payment-recovery.ts:31-39 | only the current token releases, and its report is stored |
| Backoff.DelayGrows | src/core/paystack-transfer-webhook.ts:12-12 | a later attempt never waits less |
| Backoff.DelayDoubles | src/core/inbound-payment-recovery.ts:5-5 | each wait doubles the previous one until the cap |
| Backoff.CapReached | src/core/paystack-transfer-webhook.ts:12-12 | the cap is reached with the sixth webhook attempt and the tenth inbound attempt, not before |
| Backoff.FirstWaits | src/core/paystack-transfer-webhook.ts:12-12 | the waits of the first attempts in seconds, for events and for payments |
| FileMigration.OwnerNamesALiveObject | src/core/private-file-migration.ts:54-91 | unless one of two harmful faults strikes, the owner always names an existing object |
| FileMigration.CrashesLoseNothing | src/core/private-file-migration.ts:72-82 | crashes between awaits of the try block and failing deletions alone are harmless |
| FileMigration.RecordedIsNeverUploadedAgain | src/core/private-file-migration.ts:71-76 | no rerun uploads once the destination is recorded |
| FileMigration.CompletedMeansMoved | src/core/private-file-migration.ts:80-91 | whatever goes wrong, a row that reads COMPLETED has lost its source and is not owned by it |
| FileMigration.FailedDeletionIsFlagged | src/core/private-file-migration.ts:80-80 | a source that could not be deleted leaves the row for the cleanup pass |
| FileMigration.CaughtErrorEnds | src/core/private-file-migration.ts:83-88 | the row, the owner and the copy every caught error leaves |
| FileMigration.FaultFreeAttemptFinishes | src/core/private-file-migration.ts:67-82 | an attempt without faults completes from wherever earlier ones stopped, or leaves a changed owner alone |
| FileMigration.FaultFreeCleanupFinishes | src/core/private-file-migration.ts:90-91 | the cleanup pass completes what could not be deleted before |
| FileMigration.HandlerIsSafeExactlyWhen | src/core/private-file-migration.ts:83-86 | after a caught error the owner keeps a live object exactly when it does not name the destination |
| FileMigration.LateErrorLosesTheFile | src/core/private-file-migration.ts:80-86 | an error in the last update destroys both copies |
| FileMigration.CutShortHandlerIsSafeExactlyWhen | src/core/private-file-migration.ts:85-85 | a handler stopped between deleting and forgetting the destination loses the file on the next attempt, unless the owner changed |
| FileMigration.AttemptIsARun | src/core/private-file-migration.ts:67-88 | every attempt of the loop is a run of the step machine |
| FileMigration.Migrator.Await | src/core/private-file-migration.ts:72-91 | one awaited call updates rows and objects in place as its step says |
| FileMigration.Migrator.Migrate | src/core/private-file-migration.ts:67-88 | the claimed try block with its handler equals the specified attempt |
| BoundedUpload.MemoryIsBounded | src/core/bounded-memory-storage.ts:8-34 | at most one callback per file, and file and request limits hold for kept and stored bytes under every interleaving |
| BoundedUpload.StoredIsWhatWasSent | src/core/bounded-memory-storage.ts:29-33 | a stored file is exactly the chunks sent before its end, in order |
| BoundedUpload.SmallRequestsAreNeverRefused | src/core/bounded-memory-storage.ts:19-27 | a request within its limits is never refused |
| BoundedUpload.ChunkIsJudged | src/core/bounded-memory-storage.ts:19-27 | a chunk counts towards both limits and is refused with the first one it breaks, the file's before the request's; otherwise it is kept behind everything sent before |
| BoundedUpload.EndIsAnswered | src/core/bounded-memory-storage.ts:28-33 | the end answers with everything sent, an error with that error, and an answered file listens to nothing |
| BoundedUpload.FileHandler.HandleData | src/core/bounded-memory-storage.ts:19-27 | the data handler counts on the shared request and keeps or refuses the chunk |
| BoundedUpload.FileHandler.HandleError | src/core/bounded-memory-storage.ts:28-28 | a stream error is reported once, and only to an unsettled file |
| BoundedUpload.FileHandler.HandleEnd | src/core/bounded-memory-storage.ts:29-33 | the end handler answers once with the concatenated chunks |
| CardNumber.PassesLuhn | src/modules/billing/billing.rules.ts:15-20 | the loop accepts exactly the texts of 12 to 19 digits whose parts, by position from the end, add up to a multiple of ten |
| CardNumber.PassesExactlyWhen | src/modules/billing/billing.rules.ts:15-20 | a text passes exactly when, blanks aside, it has 12 to 19 digits and every second digit from the second-last counts by the digits of its double towards a multiple of ten |
| CardNumber.CheckDigitCompletes | src/modules/billing/billing.rules.ts:15-20 | 11 to 18 digits, with blanks anywhere, are completed to an accepted text by exactly their check digit |
| CardNumber.BlanksAreIgnored | src/modules/billing/billing.rules.ts:16-16 | blanks may stand anywhere |
| CardNumber.KnownNumberPasses | src/modules/billing/billing.rules.ts:15-20 | a well-known card number passes with its own last digit and no other |
| CardNumber.SingleErrorIsCaught | src/modules/billing/billing.rules.ts:17-19 | changing one digit of a string of any length changes the sum modulo ten |
| CardNumber.TranspositionIsCaughtExactlyWhen | src/modules/billing/billing.rules.ts:17-19 | exchanging neighbours is missed exactly for equal digits and for 0 and 9 |
| CardNumber.CheckDigitIsUnique | src/modules/billing/billing.rules.ts:17-19 | every prefix has exactly one completing digit |
| CardNumber.MistypedDigitIsRefused | src/modules/billing/billing.rules.ts:15-20 | one mistyped digit in an accepted text is refused, wherever its spaces are |
| QueuePurge.Queue.PurgeList | src/queues/index.ts:38-46 | the paging loop ends and leaves exactly the other jobs in their order, although it deletes from the list it reads |
| QueuePurge.Queue.PurgePage | src/queues/index.ts:40-43 | one page loses its legacy jobs; all else on every list stays in place |
| QueuePurge.Queue.RemovePendingLegacyJobs | src/queues/index.ts:36-48 | all three waiting lists end without legacy jobs and otherwise unchanged |
| QueuePurge.KeptMembers | src/queues/index.ts:42-43 | what remains is exactly what is not legacy |
| QueuePurge.LegacyJobsLiveElsewhere | src/queues/index.ts:10-34 | the purged names are exactly three jobs that are scheduled on other queues today; no job of the notification queue is among them |
| QueuePurge.PageRemoved | src/queues/index.ts:42-43 | removing a page's legacy jobs one by one moves nothing before or after the page |

## Left out

- Controllers, routing, validation schemas, environment, Redis and notifications: plumbing.
- The provider's network and response bodies beyond the fields read: answers and errors are chosen by the environment.
- Payslip and run changes by the payroll service, and the `finalize` callback of a manual settlement
  (src/core/financial-settlement.ts:35): not part of this model, so business agreement is stated for the provider path.
- The incident pause guard (src/core/payroll-wallet-incident-pause.ts): it only refuses transactions, and a refused
  transaction is a step that does not happen.
- The reconciliation lease itself and the reconciler's counters (src/core/provider-settlement.ts:152-183, 292-315): the
  protocol proofs allow more concurrency than the lease does.
- The scanner's pass over business objects, its stored findings and its severities
  (src/core/financial-integrity-scanner.ts:44-70); it looks for another source type than provider settlements use, so
  nothing is claimed about it.
- Failure texts, notes, timestamps kept only for display and the attempt's error messages.
- Candidate discovery, dry run, totals of the migration loop, and the rollback of local migrations
  (src/core/private-file-migration.ts:24-66, 95-108); the totals lower the failure count by every cleanup, also of
  older failures.
- The second inspection after a lost race of the incident repair (src/core/payroll-wallet-incident-repair.ts:108-112): it
  cannot happen when transactions are serialised.
- Isolation weaker than serialised transactions; lone surrogates in audit texts; locale collation beyond a total order.
- Subscription status, renewal reminders and delays of other queues: easy members.
- FileMigration.OwnerNamesALiveObject: does not hold under the two faults named by `Harmful`; their exact effect is stated by HandlerIsSafeExactlyWhen and CutShortHandlerIsSafeExactlyWhen.
- WebhookInbox.FailedStaysBelowLimit: restricted to careful steps, because outdated counts and takeovers at the limit break it; StrandedExactlyWhen says exactly how.
- Guarantees.BusinessAgrees: the equivalence of paid and debited excludes reversals whose second half is owed or lost; SplitReversals.PaidExactlyUntilUndone gives the exact condition.
- QueuePurge.Queue.PurgeList: reads the page and removes its jobs as one step each, with nobody else using the queue.
