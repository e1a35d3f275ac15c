# Kilo backend: a verified model

This project models the parts of the Kilo backend where money, drivers and tokens can be lost or doubled, and
proves what they keep. `dafny verify dfyconfig.toml` checks all of it.

* **Ledger.** Accounts with a stored balance, an append-only log, posts that are idempotent by reference, refunds.
  Amounts travel as exact decimals (`real`, in kobo) and are stored by money columns (`int`, in kobo), so every
  store rounds; `Money` is that rounding. `WalletSpec` says what each wallet operation does, `WalletService` is the
  service as it runs and is proved to do that. `Effects`, `Movements`, `Transfers`, `Conservation` and
  `Revenue` prove what operations move, `WalletOutcomes` when they commit and that repeats do nothing, `CashTrips`
  what becomes of the cash-trip count; `Drift` and `HalfKobo` say exactly when a balance leaves its entries;
  `ConcurrentPosting` interleaves posts statement by statement; `WalletHistory` is the wallet screen.
* **Payments.** Crediting a verified top-up with its commission deduction, withdrawals and the reports of how their
  transfers end (`PaymentsSpec`, `PaymentsService`, `TopUps`, `TopUpRequests`), what
  each withdrawal and report does (`WithdrawalOutcomes`), what the clearing account stands for (`Clearing`,
  `Withdrawals`, `HalfWithdrawals`), and when a withdrawal marked COMPLETED really left (`TransferReports`).
  `HalfKoboExamples` runs the amounts for which things go wrong.
* **Bookings.** A ride or delivery among its drivers, its customer, the expiry timer and an admin: statement by
  statement in `BookingRace`, operation by operation and together with the books in `BookingSpec`, `BookingSafety`,
  `BookingMoney` and `BookingService`; whom completion, cancellation and disputes charge in `BookingCharges`; who may
  do what, that bookings get to their end, and that the two descriptions agree in `BookingProgress`. `NearestDrivers` is the pickup estimate.
* **Prices.** `Pricing`, `Promos`, `Tariffs` and `Quotes`.
* **Referrals and password reset.** Overlapping calls and what survives them (`Referrals`, `PasswordReset`).
* **Algorithms.** `Activity` (a paged merge, over `Sorting`), `ColumnWidths` (water filling), `TimeBuckets` (over
  `Calendar`), `Csv`, and `SheetNames`.

Objects that the source updates in place are classes whose methods are proved equal to functions of the old state;
the lemmas are about those functions and about runs of them.

## What is assumed

A single-row conditional UPDATE, a database transaction and a unique key work as PostgreSQL says, and a row lock is
held to the end of its transaction. The payment gateway's answers, the clock, the results of the driver search and of
route estimates are inputs. Tokens are fresh, and a hash stands for its secret. Platform accounts are seeded where a
lemma says so. A source of the activity list returns rows of equal time in one order every time it is asked.
`BUSINESS_WALLET` has no funding operation, so runs start from any books that are already valid and
whose revenue is what credited it.

## Where the code and its comments differ

The model follows the code. These results are about such places:

* A cancellation fee's commission is not rounded before it is posted, unlike a fare's. When it ends in half a kobo
  both shares round up and the balances no longer sum to zero (`Conservation.SplitCreatesIff`); such a fee cannot be
  refunded, because its stored entries do not balance (`Conservation.RefundIsZeroSum`).
* A withdrawal amount is not limited to two decimals, and the commission settled out of it inherits its fraction. One of half a kobo that the wallet covers is debited as asked
  and recorded rounded up: the driver keeps a kobo too much for good (`HalfKobo.RunKeepsBooksIff`), more can be
  debited than there was (`ConcurrentPosting.CanOverdrawIff`), the clearing account can lose the kobo
  (`Withdrawals.RunMovesGap`), and the balances may no longer sum to zero (`Conservation.BalancesSumToZeroIff`). All
  other amounts are safe.
* A success report that arrives after a failure report marks a reversed withdrawal COMPLETED
  (`Clearing.SuccessAfterFailure`); nothing else does (`TransferReports.RunIsHonestIff`).
* Only one statement of dispatch is guarded. A cancelled ride can dispatch again when a dispatch start or a trip
  transition had already read the old status (`BookingRace.CancelledRideDispatchesAgain`), and an admin's assignment
  can replace a driver who accepted meanwhile (`BookingRace.AdminReplacesDriver`).
* A percentage promo may exceed 100; the preview's final amount can then be negative
  (`Promos.NeverOverdiscountsIff`), though the booked fare is not (`Pricing.BreakdownIsSound`).
* `updateTariff` does not look for a tariff with the same vehicle, area and service, as `createTariff` does
  (`Tariffs.WritesKeepOnePerKey`).
* The hourly range is described as ending now; it always covers the whole of today (`TimeBuckets.EndsNowIff`).

## Model

| member | source | states |
|---|---|---|
| `Ledger.PostCommitsIff` | src/wallet/wallet.service.ts:548-626 | for any amounts: a post under a fresh reference commits iff its entries balance, its accounts exist and every user-owned debit is covered at its turn; otherwise, and for a reference already posted, nothing changes; a commit takes each account through its own postings, by the sum of its entries where they land |
| `Ledger.ApplyIffCovered` | src/wallet/wallet.service.ts:571-600 | for any amounts, half-kobo debits included: the entry loop gets through exactly when no user-owned debit exceeds the balance it meets, and leaves each account as its own postings make it |
| `Ledger.RefundUndoes` | src/wallet/wallet.service.ts:485-522 | in any books, a refund takes back what the original moved, on every group of accounts |
| `Ledger.RefundKeepsValid` | src/wallet/wallet.service.ts:485-522 | a refund keeps the books valid, and a transaction is REVERSED iff its one mirrored refund is posted |
| `HalfKobo.StepKeepsBooksIff` | src/wallet/wallet.service.ts:62-522 | one wallet operation keeps every account reconciled, user balances non-negative, balanceAfter a running sum, references unique and revenue explained iff it does not post half a kobo: withdrawals of any fraction and the settlements out of them are covered |
| `HalfKobo.RunKeepsBooksIff` | src/wallet/wallet.service.ts:32-38 | over every run of wallet operations, unrounded cancellation commissions and withdrawals of any amount included, the books stay valid iff no withdrawal and no settlement that commits is half a kobo out; otherwise some user's balance exceeds its entries for good |
| `Effects.StepMovesHistory` | src/wallet/wallet.service.ts:548-626 | whatever the amounts, an operation adds exactly its own stored legs to the history of any group of accounts, or nothing |
| `Effects.StepLeavesGroup` | src/wallet/wallet.service.ts:548-626 | a group of accounts no leg of an operation is in stays as it is, whatever the amounts and the books |
| `HalfKobo.StepDriftsGroup` | src/wallet/wallet.service.ts:571-600 | while revenue is not negative, the balances of any group leave their entries by half-kobo slips alone: a kobo with the payer, less one with a payee that stays below zero |
| `WalletSpec.StepKeepsSturdy` | src/wallet/wallet.service.ts:62-522 | references, signs and reversals survive every operation a caller makes, half a kobo or not |
| `HalfKobo.OperationMovesUsers` | src/wallet/wallet.service.ts:62-482 | whom each operation debits and credits, and by how much: every user's balance moves by its own legs and a kobo more when half a kobo is debited; a refused or repeated operation moves nothing |
| `Drift.ApplyMovesUser` | src/wallet/wallet.service.ts:571-595 | what entries that get through make of a user's balance: the sum of the stored entries plus a kobo for every half-kobo debit |
| `Movements.SplitMoves` | src/wallet/wallet.service.ts:98-118 | payer loses the fare; driver, platform revenue and tax payable gain their shares, each stored rounded by itself, unrounded commissions included |
| `WalletOutcomes.CommitsIffCovered` | src/wallet/wallet.service.ts:62-482 | in seeded books an operation under a new reference commits iff its payer has the money: fares, withdrawals and Kilowatt payments out of a wallet, settlements out of the debt, invoices out of wallet and credit line; what platform accounts pay never fails |
| `WalletOutcomes.FirstCommitWrites` | src/wallet/wallet.service.ts:602-626 | a first commit writes one transaction, next in the log, of its operation's type and amount |
| `WalletOutcomes.RepeatsDoNothing` | src/wallet/wallet.service.ts:550-556 | idempotence: repeating an operation that has committed, after any run of others, changes nothing and returns the same transaction |
| `CashTrips.StepCountsTrips` | src/wallet/wallet.service.ts:186-196 | a first cash trip adds one to its driver's count, a settlement that leaves nothing owed resets it, and a partial, refused or repeated one, any other operation and any other driver leave it |
| `CashTrips.CountIsTripsSinceCleared` | prisma/schema.prisma:819-825 | over every run the count is the number of cash trips charged since the last settlement that left nothing owed |
| `Transfers.StepGrows` | src/wallet/wallet.service.ts:602-626 | the log only grows, a status only turns REVERSED, and only an operation's own references are added |
| `Transfers.RefundSucceeds` | src/wallet/wallet.service.ts:485-522 | a refund whose original credited only platform accounts is never refused |
| `Transfers.ReversalNetsToZero` | src/wallet/wallet.service.ts:498-519 | a reversed transaction and its refund cancel on every group of accounts, in any books |
| `Conservation.RunMovesTotal` | src/wallet/wallet.service.ts:89-121 | over every run of operations as callers make them, all balances together change by one kobo for every fee split whose unrounded commission is half a kobo out and every half kobo withdrawn or settled to an account that does not stay below zero |
| `Conservation.BalancesSumToZeroIff` | src/wallet/wallet.service.ts:552-560 | balances that sum to zero still do after such a run iff it commits neither of the two |
| `Conservation.SplitCreatesIff` | src/rides/cancellation.service.ts:62-70 | a cancellation fee split stores a kobo too many iff its commission ends in exactly half a kobo |
| `Conservation.HalfCommissionIff` | src/rides/cancellation.service.ts:62-63 | when that happens, from the fee in kobo and the rate in ten-thousandths |
| `HalfKoboExamples.CancellationFeeCreatesKobo` | src/rides/cancellation.service.ts:62-70 | run from seeded books: a fee of 100.25 at 18 percent leaves all balances together at one kobo, and its refund is refused |
| `HalfKoboExamples.HalfKoboSettlementCreatesKobo` | src/wallet/payments.service.ts:461-512 | run from seeded books, without any fee split: a driver in debt withdraws 100.005, the debt falls by 100.00, revenue gains 100.01, and all balances together hold a kobo |
| `Conservation.WithdrawalReconcilesIff` | src/wallet/wallet.service.ts:376-398 | a withdrawal keeps the driver's wallet reconciled iff its amount is not half a kobo out |
| `HalfKoboExamples.HalfKoboWithdrawalBreaks` | src/wallet/wallet.service.ts:376-398 | run from seeded books: 100.005 out of 200.00 leaves 100.00 in the wallet beside an entry of 100.01 |
| `WalletService.WalletService.ApplyEntries` | src/wallet/wallet.service.ts:571-600 | the loop of conditional debits and unconditional credits computes Ledger.Apply and each account's balance after |
| `WalletService.WalletService.PostTransactionEntries` | src/wallet/wallet.service.ts:548-626 | reference check, balance check, loop and log entry, up to the rollback of the enclosing transaction |
| `WalletService.WalletService.PostTransaction` | src/wallet/wallet.service.ts:544-546 | a throwing transaction leaves no trace |
| `WalletService.WalletService.Refund` | src/wallet/wallet.service.ts:485-522 | the service refunds as the specification says |
| `WalletService.WalletService.TopUp` | src/wallet/wallet.service.ts:62-85 | likewise for a top-up |
| `WalletService.WalletService.PayForRide` | src/wallet/wallet.service.ts:89-121 | likewise for a ride |
| `WalletService.WalletService.PayForDelivery` | src/wallet/wallet.service.ts:127-159 | likewise for a delivery |
| `WalletService.WalletService.SettleCommission` | src/wallet/wallet.service.ts:205-242 | likewise, with the cash-trip counter reset only when the debt is gone |
| `WalletService.WalletService.RecordCashRideCommission` | src/wallet/wallet.service.ts:251-284 | likewise, counting a cash trip once per reference |
| `WalletService.WalletService.ChargeBusinessForDelivery` | src/wallet/wallet.service.ts:292-315 | likewise for a business accrual |
| `WalletService.WalletService.PayInvoice` | src/wallet/wallet.service.ts:323-370 | both posts of an invoice payment, or neither |
| `WalletService.WalletService.GetOrCreateUserAccount` | src/wallet/wallet.service.ts:43-49 | an account is opened at zero once |
| `WalletService.WalletService.PayFare` | src/wallet/wallet.service.ts:98-120 | the shape both fare payments share |
| `WalletService.WalletService.RecordCashDeliveryCommission` | src/wallet/wallet.service.ts:166-200 | likewise for a cash delivery |
| `WalletService.WalletService.PayForKilowattService` | src/wallet/wallet.service.ts:403-424 | likewise for a Kilowatt payment |
| `WalletService.WalletService.RecordReferralAccrual` | src/wallet/wallet.service.ts:432-454 | likewise for a referral accrual |
| `WalletService.WalletService.PayReferralPayout` | src/wallet/wallet.service.ts:456-478 | likewise for a referral payout |
| `WalletService.WalletService.RequestWithdrawal` | src/wallet/wallet.service.ts:376-398 | likewise for a withdrawal |
| `WalletHistory.HistoryAddsUpToBalance` | src/wallet/wallet-history.service.ts:109-124 | the signed amounts shown for an account add up to its balance less what it has drifted, which is nothing in valid books |
| `WalletHistory.LinesAddUpToSnapshot` | src/wallet/wallet-history.service.ts:45-54 | and those up to any transaction to the balance recorded with it |
| `WalletHistory.RefundedLinesCancel` | src/wallet/wallet-history.service.ts:109-124 | a refunded transaction and its refund show opposite amounts |
| `WalletHistory.LinesAre` | src/wallet/wallet-history.service.ts:45-54 | the lines are the transactions that touch the account, each once, newest first, with the amount and direction of what it did in all |
| `Revenue.RevenueIsNotNegative` | src/wallet/wallet.service.ts:205-242 | platform revenue is never negative while its balance is what its history says: only refunds of what credited it debit it |
| `HalfWithdrawals.RevenueNeverNegative` | src/wallet/payments.service.ts:225-591 | so over every payment run, withdrawals of any amount included, it is never negative |
| `TopUps.FirstPassCredits` | src/wallet/payments.service.ts:273-300 | in any seeded books, the first pass settles min(commission owed, amount) and credits exactly the rest; valid books stay valid |
| `TopUps.LaterPassesAreErasable` | src/wallet/payments.service.ts:259-268 | after one pass, every further pass for the payment, anywhere in any run, can be struck out without changing the money |
| `TopUps.PaymentIsCreditedOnce` | src/wallet/payments.service.ts:225-301 | any number of complete passes with anything between them has exactly the effect of the first |
| `TopUps.CompletedStaysCredited` | src/wallet/payments.service.ts:303-357 | a COMPLETED request has a posted transaction and never leaves COMPLETED |
| `TopUps.RunKeepsCompleted` | src/wallet/payments.service.ts:303-357 | the same over every run |
| `TopUpRequests.PassMarksRequests` | src/wallet/payments.service.ts:225-301 | a request whose payment was collected is COMPLETED by a pass iff one of the payment's references is in the books by then, except when the pass throws between settling a debt and crediting the rest, for want of a clearing account; a terminal failure turns PENDING into FAILED; other requests stay |
| `TopUpRequests.RequestsChangeBy` | src/wallet/payments.service.ts:405-410 | a request is put on record as PENDING, and only its own payment's passes and a refused initiation change it |
| `TopUpRequests.PaidRequestsEndCompleted` | src/wallet/payments.service.ts:225-357 | over every run from seeded books, a request on record when a pass finds its payment collected ends COMPLETED, and so does every redelivery |
| `HalfWithdrawals.RunKeepsClearingIff` | src/wallet/payments.service.ts:225-591 | over every run whose callers owe only their prices, withdrawals of any amount included: clearing = sent by the gateway - collected - owed by drivers - owed by businesses - bonuses accrued, FAILED withdrawals are REVERSED together with their settlements, and the books are valid, iff no withdrawal the wallet covered was half a kobo out |
| `HalfWithdrawals.SeededRunKeepsClearingIff` | scripts/seed-platform-accounts.js:1-35 | and so over every such run from freshly seeded books |
| `Withdrawals.RunMovesGap` | src/wallet/payments.service.ts:225-591 | over every such run, half-kobo withdrawals and all: every withdrawal is on record together with its settlement and their refunds, and clearing leaves what it stands for by exactly the sum of the two slips of each covered half-kobo withdrawal |
| `HalfWithdrawals.WithdrawKeepsSoundIff` | src/wallet/payments.service.ts:461-555 | one withdrawal keeps all of that iff it is not half a kobo that the wallet covers |
| `Withdrawals.WithdrawKeepsIdentityIff` | src/wallet/payments.service.ts:454-555 | a withdrawal keeps the clearing identity by itself iff it is no such withdrawal, or its amount exceeds the debt exactly when clearing plus the amount is not negative, so that the two roundings cancel or do not arise |
| `HalfKoboExamples.HalfKoboWithdrawalLosesClearing` | src/wallet/payments.service.ts:524-532 | a withdrawal for which it does not: 100.005 moves clearing by 100.00 while 100.01 is sent |
| `Clearing.FailureReverses` | src/wallet/payments.service.ts:557-591 | in every state such runs reach, a failure report manages to reverse a standing withdrawal, and repeating it changes nothing |
| `WithdrawalOutcomes.CoveredIsSent` | src/wallet/payments.service.ts:461-541 | a withdrawal the wallet covers whose transfer is accepted, or that the debt takes whole: one row with what is settled of the debt, that much less sent, and the four balances moved by the stored amounts unless it is half a kobo out |
| `WithdrawalOutcomes.UncoveredIsRefused` | src/wallet/payments.service.ts:461-512 | one it does not cover posts nothing, leaves no row and moves nothing |
| `WithdrawalOutcomes.RefusedTransferGoesBack` | src/wallet/payments.service.ts:533-555 | when the gateway refuses the transfer the row is FAILED, its transactions are REVERSED, and no balance has moved |
| `WithdrawalOutcomes.ReportsAre` | src/wallet/payments.service.ts:557-591 | what each transfer report does: an unknown one nothing; success marks the row; failure of a standing withdrawal marks it and moves its money back, and after that nothing |
| `Clearing.ReversedWithdrawalNetsToZero` | src/wallet/payments.service.ts:572-588 | in every state such runs reach, a reversed withdrawal, its settlement and both refunds net to zero on every group of accounts |
| `TransferReports.StepPayIsHonestIff` | src/wallet/payments.service.ts:557-591 | while every COMPLETED withdrawal stands in the books, one operation keeps it so iff it is not a success report for a withdrawal already reversed, withdrawals of any amount included |
| `TransferReports.RunIsHonestIff` | src/wallet/payments.service.ts:557-591 | over every run, what is COMPLETED at the end really left iff no success report of the run came for a withdrawal already reversed |
| `Clearing.SuccessAfterFailure` | src/wallet/payments.service.ts:557-571 | two reports that do it to any withdrawal on record: a failure, then a success |
| `Clearing.SeededBooksAreSound` | scripts/seed-platform-accounts.js:1-35 | freshly seeded books satisfy the invariant |
| `PaymentsService.PaymentsService.ApplyVerifiedTopUp` | src/wallet/payments.service.ts:225-301 | the service's pass does what the protocol says |
| `PaymentsService.PaymentsService.InitiateWithdrawal` | src/wallet/payments.service.ts:461-555 | debit, settlement and, when the gateway refuses, reversal |
| `PaymentsService.PaymentsService.ProcessTransferWebhookEvent` | src/wallet/payments.service.ts:557-591 | the report of how a transfer ended |
| `PaymentsService.PaymentsService.Credit` | src/wallet/payments.service.ts:273-300 | the settlement and the credit of a first pass |
| `PaymentsService.PaymentsService.CompleteTopUpRequest` | src/wallet/payments.service.ts:303-357 | a request is completed once |
| `PaymentsService.PaymentsService.MarkTopUpFailed` | src/wallet/payments.service.ts:405-410 | only a pending request fails |
| `PaymentsService.PaymentsService.ReserveFunds` | src/wallet/payments.service.ts:461-520 | the debit and the settlement of a withdrawal |
| `ConcurrentPosting.ScheduleKeepsConsistent` | src/wallet/wallet.service.ts:32-38 | every interleaving of concurrent posts, statement by statement with row locks, unique keys and rollback, stays consistent |
| `ConcurrentPosting.AbortLeavesNothing` | src/wallet/wallet.service.ts:544-546 | a rollback, whenever it strikes, leaves no row version, lock or reserved reference of its session behind |
| `ConcurrentPosting.EveryScheduleIsSerial` | src/wallet/wallet.service.ts:548-626 | what is committed is what the committed posts give one after another |
| `ConcurrentPosting.SerialRunsAreSchedules` | src/wallet/wallet.service.ts:544-626 | and every sequence of posts that commits one after another is what some schedule commits |
| `ConcurrentPosting.CommittedReferencesAreDistinct` | src/wallet/wallet.service.ts:552-555 | under every schedule, of the posts sharing a reference at most one commits |
| `ConcurrentPosting.NeverOverdrawn` | src/wallet/wallet.service.ts:571-595 | under every schedule of posts of any non-negative amounts a user's committed balance is start + credits - debits + one kobo per half-kobo debit, and not negative; so debits never exceed start + credits by more than the half-kobo debits |
| `ConcurrentPosting.CanOverdrawIff` | src/wallet/wallet.service.ts:571-595 | after any schedule, a further post of whole kobo can take more from a user than there was and came in iff some committed debit of the account was half a kobo out |
| `ConcurrentPosting.NeverOverdrawnWithoutHalves` | src/wallet/wallet.service.ts:571-595 | under every schedule that begins no half-kobo debit of an account, accepted debits never exceed start plus accepted credits |
| `HalfKoboExamples.HalfKoboDebitsOverdraw` | src/wallet/wallet.service.ts:571-595 | a schedule in which they do: 100.005 and 100.00 out of 200.00 |
| `ConcurrentPosting.CommittedStaysValid` | src/wallet/wallet.service.ts:548-626 | committed books stay valid under every schedule whose committed posts land in their turn |
| `ConcurrentPosting.RowsNeverNegative` | src/wallet/wallet.service.ts:571-595 | under every schedule of posts of any non-negative amounts no user account is negative, not even uncommitted |
| `BookingRace.EveryScheduleIsSafe` | src/rides/dispatch.service.ts:169-298 | under every statement-level interleaving without an admin: statuses that need a driver have one, an ACCEPTED offer is the driver's, at most one acceptOffer succeeds |
| `BookingRace.DriverIsWrittenOnce` | src/rides/dispatch.service.ts:248-251 | driverId, once written, stays |
| `BookingRace.OneWinner` | src/rides/dispatch.service.ts:248-260 | two successful acceptOffer calls are one call |
| `BookingRace.LoserExpires` | src/rides/dispatch.service.ts:246-257 | a claim that loses expires its driver's own offer and changes nothing else |
| `BookingRace.EveryScheduleHasOneWinner` | src/logistics/logistics-dispatch.service.ts:107-140 | under every interleaving, admins included, a status that needs a driver has one and at most one acceptOffer succeeds |
| `BookingRace.DriverIsFinalIff` | src/logistics/admin-logistics.service.ts:234-264 | a driver can lose the booking under some schedule iff its status may still be assigned or is yet to be released, or a dispatch start or another driver's assignment had passed its check |
| `BookingRace.AdminReplacesDriver` | src/logistics/admin-logistics.service.ts:234-264 | a schedule from a new booking in which an admin's assignment replaces a driver whose acceptOffer succeeded from start to end |
| `BookingRace.CancellationIsFinalIff` | src/rides/cancellation.service.ts:93-102 | a cancelled booking stays cancelled under every schedule iff no call had passed its check before an unguarded write |
| `BookingRace.CancelledRideDispatchesAgain` | src/rides/dispatch.service.ts:169-178 | a schedule in which a cancelled ride dispatches again |
| `BookingRace.MovesNeverCancel` | src/rides/trip.service.ts:225-247 | trip transitions in flight only lead to statuses with a driver, in every reachable state: the hypothesis of both equivalences |
| `BookingSafety.EveryRunIsSound` | src/rides/dispatch.service.ts:300-395 | over every run of operations a booking is DISPATCHING iff it has a pending offer, has a driver exactly when its status needs one, and holds only the charge its status explains |
| `BookingSafety.DriverIsSetOnce` | src/logistics/logistics-dispatch.service.ts:107-140 | the driver is set at most once, admin assignment included |
| `BookingSafety.ChangesAreBounded` | src/logistics/logistics.service.ts:428-492 | every status change climbs, so a run of any length has at most eight |
| `BookingSafety.StatusOnlyClimbs` | src/logistics/logistics-trip.service.ts:248-270 | one operation never lowers the rank of a status |
| `BookingSafety.EndIsFinal` | src/rides/cancellation.service.ts:40-49 | COMPLETED and CANCELLED are final when operations do not overlap |
| `BookingSafety.AcceptSucceedsIff` | src/rides/dispatch.service.ts:223-260 | in every reachable state acceptOffer succeeds iff the offer is pending and live and the driver under the cash cap |
| `BookingSafety.FareIsPostedIffCompleted` | src/rides/trip.service.ts:92-129 | the fare's reference is in the books iff the booking completed |
| `BookingSafety.ChargedAtMostOnce` | src/rides/cancellation.service.ts:56-72 | of fare and cancellation fee at most one transaction ever exists |
| `BookingSafety.CancelChargesIff` | src/rides/cancellation.service.ts:51-72 | a cancellation posts a fee iff the customer cancels after a driver accepted |
| `BookingSafety.FareIsFixedOnceAccepted` | src/logistics/logistics.service.ts:326-337 | no operation changes the fare once a driver has accepted |
| `BookingProgress.OperationIsItsStatements` | src/rides/dispatch.service.ts:223-298 | run alone, every operation leaves the rows as its statements do one after the other in BookingRace: the two models agree |
| `BookingProgress.JourneysEnd` | src/rides/trip.service.ts:35-129 | from dispatch to completion every operation goes through for a driver under the cash cap and a customer who can pay, and the end is the completion's payment |
| `BookingProgress.StrangersChangeNothing` | src/rides/trip.service.ts:225-248 | nobody but the driver, the customer or an offer's driver gets anywhere, and neither service has the other's operations |
| `BookingProgress.DispatchOffersAll` | src/rides/dispatch.service.ts:169-221 | a dispatch offers the booking to every candidate and nobody else |
| `BookingProgress.AcceptTakes` | src/rides/dispatch.service.ts:255-298 | whoever accepts takes the booking, and every other open offer expires |
| `BookingProgress.DeclineIsOut` | src/rides/dispatch.service.ts:300-373 | a declined offer is out, and the round ends without a driver when it was the last |
| `BookingProgress.ExpiryEndsRound` | src/rides/dispatch.service.ts:375-395 | when the time is up every open offer expires and the round ends without a driver |
| `BookingProgress.AssignmentIs` | src/logistics/admin-logistics.service.ts:234-264 | an admin assigns only before there is a driver, and voids the open offers |
| `BookingProgress.StopsAreEditableIff` | src/logistics/logistics.service.ts:326-378 | the customer may reprice until a driver has accepted |
| `BookingProgress.ReportsSucceedIff` | src/logistics/logistics-trip.service.ts:38-111 | milestones and proof of delivery count in their own status only, and proof only when valid |
| `BookingMoney.CompletionIsClean` | src/rides/trip.service.ts:83-120 | completing a priced booking posts a request that keeps the books valid, however it is paid |
| `BookingCharges.CompletionPays` | src/rides/trip.service.ts:83-129 | a completion that goes through moves exactly these accounts: the customer pays the fare to driver, platform and tax office from the wallet, or the driver owes commission and tax, or the business owes the fare; the commission is the rate of the fare without tax to the nearest kobo, and the transaction is the one recorded |
| `BookingCharges.CompletionSucceedsIff` | src/rides/trip.service.ts:70-112 | it goes through iff the driver of a trip under way asks, with proof of a delivery, and the customer's wallet covers a wallet fare; otherwise no balance moves |
| `BookingCharges.CancellationPays` | src/rides/cancellation.service.ts:52-73 | a customer who backs out of a driver who had set out pays the fee, split at the commission rate; any other cancellation moves nothing |
| `BookingCharges.CancellationSucceedsIff` | src/rides/cancellation.service.ts:32-71 | who may cancel, when, and that a fee needs a tariff and the money |
| `BookingCharges.LiveIsUncharged` | src/rides/trip.service.ts:88-93 | what these ask of a booking holds of every one in a run that has neither completed nor been cancelled |
| `BookingCharges.DisputeUndoesPayment` | src/logistics/admin-logistics.service.ts:266-295 | a dispute resolved with a refund, whatever happened since completion, moves every account back by what completion moved; a refused one changes nothing |
| `BookingMoney.PricesAreFares` | src/pricing/pricing.service.ts:94-108 | every price a booking is created with is a fare in that sense |
| `BookingMoney.RunKeepsMoneyIff` | src/logistics/logistics-trip.service.ts:113-200 | bookings and all other wallet operations together keep the books valid, whatever the fees and withdrawals, iff no other caller's withdrawal or settlement that commits is half a kobo out |
| `BookingService.BookingService.StartDispatch` | src/rides/dispatch.service.ts:169-221 | the service dispatches as the specification says |
| `BookingService.BookingService.AcceptOffer` | src/rides/dispatch.service.ts:223-298 | offer check, cash cap, claim, and voiding of the other offers |
| `BookingService.BookingService.DeclineOffer` | src/rides/dispatch.service.ts:300-317 | a decline that leaves nothing pending ends the round |
| `BookingService.BookingService.ExpireRoundIfUnresolved` | src/rides/dispatch.service.ts:375-395 | the timer voids what is pending and ends the round |
| `BookingService.BookingService.ReleaseScheduledDelivery` | src/logistics/logistics.service.ts:315-324 | a scheduled delivery is released once |
| `BookingService.BookingService.Complete` | src/rides/trip.service.ts:70-129 | completion charges first and writes after |
| `BookingService.BookingService.Cancel` | src/rides/cancellation.service.ts:32-106 | cancellation charges the customer of a committed booking, voids offers, and writes |
| `BookingService.BookingService.SubmitProofOfDelivery` | src/logistics/logistics-trip.service.ts:64-111 | proof is accepted from the driver after pickup only |
| `BookingService.BookingService.RecordMilestone` | src/logistics/logistics-trip.service.ts:218-246 | a milestone is recorded by the driver in its status |
| `BookingService.BookingService.UpdateStops` | src/logistics/logistics.service.ts:326-378 | stops are repriced for the sender until somebody accepts |
| `BookingService.BookingService.AssignDriver` | src/logistics/admin-logistics.service.ts:234-264 | the admin's assignment |
| `BookingService.BookingService.ResolveDispute` | src/logistics/admin-logistics.service.ts:266-295 | the refund of a dispute |
| `BookingService.BookingService.MarkArrived` | src/rides/trip.service.ts:35-54 | the driver of an accepted ride arrives |
| `BookingService.BookingService.StartTrip` | src/rides/trip.service.ts:56-68 | and starts the trip |
| `BookingService.BookingService.ConfirmPickup` | src/logistics/logistics-trip.service.ts:42-51 | the driver of an accepted delivery picks up |
| `BookingService.BookingService.VoidPendingOffers` | src/logistics/logistics-dispatch.service.ts:198-209 | every pending offer expires, no other |
| `NearestDrivers.NearestDriverDistances` | src/rides/dispatch.service.ts:119-167 | each vehicle type gets the distance of its nearest available driver, or nothing; leaving the loop early loses nothing |
| `Pricing.BreakdownIsSound` | src/pricing/pricing.service.ts:94-108 | 0 <= discount <= subtotal, tax >= 0, parts add up, each rounding right to half a kobo |
| `Pricing.TotalGrowsWithSubtotal` | src/pricing/pricing.service.ts:94-108 | under one promo and tax rate the total never falls when the subtotal grows by any number of kobo |
| `Pricing.TotalFallsWithDiscount` | src/pricing/pricing.service.ts:99-107 | and never rises when the discount grows |
| `Pricing.FareIsMetered` | src/pricing/pricing.service.ts:145-150 | base fare and each kilometre and minute at its rate, to the nearest kobo, or the minimum fare when that is more |
| `Pricing.FareGrowsWithTrip` | src/pricing/pricing.service.ts:145-150 | a longer trip is never cheaper, none is below the minimum fare, and above it rates are charged to half a kobo |
| `Pricing.CompletionSplitsFare` | src/rides/trip.service.ts:85-90 | commission, driver share and tax add up to the fare, none is negative, commission within half a kobo of its rate |
| `Promos.DiscountGrowsWithFare` | src/promo/promo.service.ts:90-100 | a discount never shrinks as the fare grows and, up to 100 percent, never outgrows it |
| `Promos.DiscountIs` | src/promo/promo.service.ts:90-100 | a flat promo takes the lesser of its value and the fare, a percentage its share up to the cap |
| `Promos.AppliesIff` | src/promo/promo.service.ts:59-88 | a code applies while active and in its period, for its own lines, until its limits are used up |
| `Promos.NeverOverdiscountsIff` | src/promo/promo.service.ts:90-100 | the preview never goes below zero iff the promo is flat, at most 100 percent or capped at nothing, which nothing enforces |
| `Tariffs.ResolveIsBest` | src/pricing/pricing.service.ts:110-127 | a tariff is chosen iff one matches, and no match outscores it |
| `Tariffs.ResolveServesTrip` | src/pricing/pricing.service.ts:110-127 | stated by the tariffs alone: one without an area serves every area, one without a service every service, and naming the service outranks naming the area |
| `Tariffs.OrderIsIrrelevantIff` | src/pricing/pricing.service.ts:124-126 | storage order never changes the choice iff all best matches are one tariff |
| `Tariffs.OrderIsIrrelevant` | src/pricing/pricing.service.ts:110-127 | with one tariff per key the choice for a service does not depend on the order |
| `Tariffs.ServiceBeatsArea` | src/pricing/pricing.service.ts:42-44 | a service match beats an area match, and the area decides among equals |
| `Tariffs.WritesKeepOnePerKey` | src/pricing/pricing.service.ts:158-197 | creating tariffs keeps one per key; an update does iff no other tariff has the new key |
| `Tariffs.ListIsWhatResolves` | src/pricing/pricing.service.ts:64-80 | the list has each vehicle once, in sort order, and holds a tariff iff getActiveTariff would return it |
| `Quotes.QuoteVehicles` | src/pricing/quote.service.ts:43-87 | every bookable vehicle is quoted with the breakdown booking gives, and exactly one quote of a non-empty list, a cheapest, is recommended |
| `Quotes.QuoteIsBooking` | src/rides/rides.service.ts:167-194 | pricing a tariff in a quote is what booking its vehicle does |
| `Quotes.BookedFareIs` | src/pricing/pricing.service.ts:94-108 | a booking costs the metered fare or the minimum of the tariff it resolves to, less the promo, plus tax on the rest, each to the nearest kobo |
| `Quotes.MinutesCover` | src/pricing/pricing.service.ts:82-85 | the estimate is the least whole number of minutes, at least one, that covers the scaled driving time |
| `Quotes.Cheapest` | src/pricing/quote.service.ts:79-84 | the first of the cheapest |
| `Sorting.SortIsTheOnlyOne` | src/activity/activity.service.ts:77-79 | a sorted sequence that keeps equal keys in order is this one and no other |
| `Sorting.TakeMerge` | src/activity/activity.service.ts:67-75 | the first n of a merge need only the first n of each side |
| `Activity.PageIsSliceOfWhole` | src/activity/activity.service.ts:67-79 | a page cut from the first skip+take rows of each table is that page of the whole merged history, ties included |
| `Activity.PagesConcatenate` | src/activity/activity.service.ts:60-89 | consecutive pages concatenate to the history, with no loss or repeat |
| `Activity.WholeIsEverythingPast` | src/activity/activity.service.ts:180-197 | the history holds every past item once, newest first, and `total` counts it |
| `Activity.ListHoldsWhatTablesDo` | src/activity/activity.service.ts:60-89 | stated by the tables: the history holds each past item the filter shows as often as they do, and every page all the ongoing ones |
| `ColumnWidths.ColumnWidths` | src/common/export/pdf.renderer.ts:388-410 | widths fill the page: in proportion when the table fits, otherwise the lesser of need and one level |
| `ColumnWidths.ShareOut` | src/common/export/pdf.renderer.ts:394-410 | the rounds end with one level |
| `ColumnWidths.RoundStaysShort` | src/common/export/pdf.renderer.ts:397-407 | pending columns never run out, the room stays positive and short, and the share never shrinks; the early return and a division by zero are unreachable |
| `ColumnWidths.WidthsAreUnique` | src/common/export/pdf.renderer.ts:362-366 | any two levels that fill the page give the same widths |
| `TimeBuckets.BuildBuckets` | src/common/utils/time-bucket.util.ts:81-116 | the loops build the calendar's hours, days or months |
| `TimeBuckets.RangeWindow` | src/common/utils/time-bucket.util.ts:119-127 | the window of the SQL query is the buckets' first start and last end |
| `TimeBuckets.BucketsTile` | src/common/utils/time-bucket.util.ts:77-127 | buckets are non-empty, contiguous, distinctly keyed, cover exactly the window, and hold now |
| `TimeBuckets.EndsNowIff` | src/common/utils/time-bucket.util.ts:77-116 | the last bucket holds now iff the buckets are not hours or it is the last hour of the day; by the hour they cover all of today |
| `TimeBuckets.DayCovers` | src/common/utils/time-bucket.util.ts:22-28 | the day range is today in 24 hours |
| `TimeBuckets.DaysCover` | src/common/utils/time-bucket.util.ts:22-28 | seven or thirty days, the last of them today |
| `TimeBuckets.MonthsCover` | src/common/utils/time-bucket.util.ts:22-28 | six or twelve months, the last of them this one |
| `TimeBuckets.KeyIsDate` | src/common/utils/time-bucket.util.ts:61-68 | a key is the calendar date and hour of its time |
| `TimeBuckets.KeyIffInBucket` | src/common/utils/time-bucket.util.ts:61-68 | a time has a bucket's key iff it is in its half-open interval |
| `TimeBuckets.SqlKeyIsKeyFor` | src/common/utils/time-bucket.util.ts:54-59 | truncating first, as SQL does, gives the same key |
| `TimeBuckets.FoldSeries` | src/common/utils/time-bucket.util.ts:131-145 | the fold looks each bucket up in the grouped rows |
| `TimeBuckets.FoldIsDirectSum` | src/common/utils/time-bucket.util.ts:131-145 | grouping by truncated key and folding equals summing each interval directly |
| `TimeBuckets.FoldKeepsTotal` | src/common/utils/time-bucket.util.ts:119-127 | the series adds up to the window's total |
| `TimeBuckets.UserGrowth` | src/admin-ops/analytics.service.ts:137-151 | running totals over the buckets |
| `TimeBuckets.GrowthIsCount` | src/admin-ops/analytics.service.ts:112-151 | which count everyone created before each bucket's end |
| `Calendar.YearLength` | src/common/utils/time-bucket.util.ts:46-48 | years have 365 days, leap years 366 |
| `Calendar.MonthLength` | src/common/utils/time-bucket.util.ts:88-95 | months have their lengths, across year ends |
| `Calendar.YearIsLastBegun` | src/common/utils/time-bucket.util.ts:61-68 | the year of a day is the last one that has begun |
| `Calendar.MonthOfIs` | src/common/utils/time-bucket.util.ts:61-68 | a day is in the one month around it |
| `Csv.ToCsv` | src/common/utils/csv.util.ts:4-14 | the writer's loops produce the joined lines |
| `Csv.EscapeCsvCell` | src/common/utils/csv.util.ts:16-31 | one cell: neutralised, then quoted when it must be |
| `Csv.RoundTrip` | src/common/utils/csv.util.ts:4-31 | reading after RFC 4180, section 2, returns header and rows cell for cell |
| `Csv.CellsReadBack` | src/common/utils/csv.util.ts:4-31 | cell by cell: headers and free texts read back as they were or behind an apostrophe, typed values as they are, and nothing where a row has nothing |
| `Csv.QuotedIff` | src/common/utils/csv.util.ts:27-30 | a field is quoted iff it holds a quote, a comma, a CR or an LF |
| `Csv.TerminatedRoundTripIff` | src/common/utils/csv.util.ts:13-14 | a reader that takes a final line break for a terminator loses a record iff there is one column and its last cell is empty |
| `Csv.NoFormulas` | src/common/utils/csv.util.ts:21-26 | a reader of the file finds a formula in a cell, header included, iff the cell was a typed value or a numeric text that is one |
| `SheetNames.UniqueSheetNames` | src/common/export/excel.renderer.ts:404-417 | names are 1 to 31 allowed characters, distinct ignoring case, never the summary sheet, each the first free form of its base |
| `SheetNames.FreeName` | src/common/export/excel.renderer.ts:408-414 | the retry loop ends with the first free form |
| `SheetNames.BaseIs` | src/common/export/excel.renderer.ts:407-407 | a section's own name is its text with dashes for forbidden characters, without the blanks around it, cut at 31 characters, or Data |
| `SheetNames.AllowedIs` | src/common/export/excel.renderer.ts:403-403 | an allowed name has 1 to 31 characters, none of the seven |
| `SheetNames.NumberedIs` | src/common/export/excel.renderer.ts:411-412 | a numbered form is as much of the base as fits before a space and the number in brackets |
| `SheetNames.TriesAreBounded` | src/common/export/excel.renderer.ts:410-413 | it cannot try more forms than there are names taken |
| `SheetNames.SuffixesApart` | src/common/export/excel.renderer.ts:411-412 | two suffixed names agree only in the same number |
| `PasswordReset.EachTokenIsClaimedOnce` | src/accounts/otp.service.ts:107-119 | however calls overlap, at most one succeeds per link |
| `PasswordReset.FailureChangesNothing` | src/accounts/auth.service.ts:296-316 | a call that fails changes nothing; one succeeds iff its claim does and the database saves |
| `PasswordReset.SuccessLocks` | src/accounts/auth.service.ts:300-316 | right after a success every earlier link and session of the user is dead and the password is the new one |
| `PasswordReset.OlderLinksNeverSucceed` | src/accounts/auth.service.ts:313-316 | no link issued before a successful reset ever succeeds, no session from before is ever valid |
| `PasswordReset.ResetsIff` | src/accounts/auth.service.ts:273-319 | in any world, a call on its own succeeds iff its link is an unused, unexpired reset link of a user with a password; it then sets the password, and otherwise nothing changes |
| `PasswordReset.LinkIsIssuedIff` | src/accounts/auth.service.ts:230-243 | a link is only issued to a user with a password, unused and good for half an hour |
| `PasswordReset.LinksWorkForHalfAnHour` | src/accounts/otp.service.ts:95-106 | whatever happened since it was issued, an unused link works until half an hour after and not from then on |
| `PasswordReset.NobodyResetsAfterHalfAnHour` | src/accounts/otp.service.ts:113-119 | under every schedule no call succeeds on a link once its half hour is over |
| `PasswordReset.AuthService.ResetTransaction` | src/accounts/auth.service.ts:300-316 | the transaction, with its rollback |
| `PasswordReset.AuthService.ResetPassword` | src/accounts/auth.service.ts:273-319 | one call from start to end |
| `PasswordReset.AuthService.Claim` | src/accounts/otp.service.ts:113-119 | the guarded UPDATE |
| `Referrals.EveryScheduleIsSound` | src/partnerships/referrals.service.ts:76-168 | however redemptions and payout loops overlap with each other and with other wallet operations of any amounts, the referral account is what is accrued and not paid out |
| `Referrals.PayableIsQualifiedEarnings` | src/partnerships/referrals.service.ts:143-168 | whenever no call is in flight it is the sum of earnings over QUALIFIED redemptions |
| `Referrals.PaidAtMostOnce` | src/partnerships/referrals.service.ts:155-166 | each redemption has at most one payout, of exactly its earnings, to its referrer's wallet |
| `Referrals.PaidMeansPosted` | src/partnerships/referrals.service.ts:161-165 | a PAID redemption has its payout in the books |
| `Referrals.RedeemsIff` | src/partnerships/referrals.service.ts:76-114 | a code is redeemed iff it is someone else's and the user's first |
| `Referrals.EachUserRedeemsOnce` | prisma/schema.prisma:1766-1769 | under every schedule no user redeems twice, and none a code of their own |
| `Referrals.LoopPaysEveryone` | src/partnerships/referrals.service.ts:143-168 | one payout loop on its own pays every QUALIFIED redemption to its referrer's wallet and leaves none of them QUALIFIED |
| `Referrals.LoopIsItsStatements` | src/partnerships/referrals.service.ts:148-166 | run alone, the loop's interleaved statements do what the loop does |
| `Referrals.ReferralStep` | src/wallet/wallet.service.ts:432-482 | an accrual or payout moves its amount once and nothing when repeated |
| `Referrals.ReferralsService.Redeem` | src/partnerships/referrals.service.ts:76-114 | who may redeem, the row and its accrual |
| `Referrals.ReferralsService.ProcessPayouts` | src/partnerships/referrals.service.ts:143-168 | the loop over what was QUALIFIED when it started |

## Left out

- Decimal.js keeps 20 significant digits: amounts are exact here until a column stores them.
- Overflow of numeric(18,2) columns: balances are unbounded integers.
- Reference strings: a reference is a value with a subject and a suffix, so that two references are equal only when both are.
- `idempotencyKey`, metadata, currencies, public ids, saved cards, notifications, receipts and tracking events: nothing modelled depends on them.
- Process crashes between the statements of a composite operation, and overlapping passes of `applyVerifiedTopUp`: the code promises nothing there.
- `unsettledCashRideCount` after a refunded settlement: a refund does not touch the counter, and no invariant relates it to the debt.
- Driver availability: set along the way by dispatch, trips and cancellation, and read only when candidates are chosen.
- Invoice rows and their status: an invoice payment is modelled as the wallet operation it makes.
- Credit limits and the one-active-trip rule: checked at booking or offer time only, so no run keeps them.
- BookingService.BookingService.StartDispatch: the candidates are an input, so their search, filter and limit are not modelled.
- BookingSafety.EveryRunIsSound: a booking's own references are assumed unused by other callers, since they carry its id.
- BookingService.BookingService.UpdateStops: the repriced fare is an input; `BookingMoney.PricesAreFares` says what pricing makes of it.
- ConcurrentPosting.EveryScheduleIsSerial: a refund's post is a post like any other; marking the original REVERSED is not interleaved.
- Amounts below zero, and refunds of refunds: request validation refuses the former, and no caller makes the latter.
- Referrals.EveryScheduleIsSound: refunds of referral transactions are excluded, since no caller makes them.
- TimeBuckets.BuildBuckets: labels are not modelled, and a key is its fields instead of their fixed-width text.
- TimeBuckets.GrowthIsCount: one clock reading serves the window and the buckets; the source reads it twice.
- SheetNames.UniqueSheetNames: lower-casing is any function that leaves a numeric suffix alone.
- Csv.ToCsv: whether a text is a number is an input, and rows are maps of their own keys.
- Quotes.QuoteVehicles: display names, currency and the promo's message are not modelled.
- Commission rule lookup, the tariff cache, distance estimates, point-in-polygon, one-time codes, and every report or export query: inputs, or easy members only.
