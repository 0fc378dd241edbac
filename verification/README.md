# BookPoint: a verified model of scheduling, money and conversations

BookPoint takes appointments for service providers, charges for them, pays the providers out, and lets customers
book through a messaging channel. This project models the parts of its backend where rows of several tables must
stay consistent, and proves what those parts promise, over every input and every sequence of steps.

* **Booking** (`Calendar`, `Slots`, `SlotTheorems`, `Desk`, `DayHours`, `BookingChecks`, `DayChecks`, `BookingRuns`,
  `BufferedRuns`, `DayRuns`, `AloneRuns`, `MidnightRun`, `Windows`). Slot generation, the prefiltered conflict check,
  create, reschedule and cancel, and the maintenance of weekly windows and date overrides; `DayHours` and
  `BookingChecks` state the list and the checks on the rows of the tables. `BookingRuns` is the system of interleaved
  transactions: each locks, reads, decides and commits in separate steps while other transactions, cancellations,
  payment results and catalogue changes happen in between. `AloneRuns` ties it to the operations of `Desk`.
* **Money** (`Rounding`, `Commission`, `Earnings`, `Books`, `Ledger`, `Payments`, `MoneyRuns`, `MoneyTheorems`,
  `PaymentEffects`, `RefundEffects`, `PayoutEffects`, `EarningOrigins`, `LostAcceptance`, `PayoutPasses`,
  `MoneyServices`, `PaymentServices`). Payments, earnings, refunds and payouts as one machine with
  any number of payout workers that may crash. The services are classes over one database object; each method is
  proved against the function the run theorems use, and the worker's loop against a pass that
  `PayoutPasses.PassIsRun` shows to be the machine's own steps.
* **Protocols**. `RateStore` is the in-memory rate limiter, `Idempotency` the idempotency keys under concurrent
  clients.
* **Conversation** (`Texts`, `Dates`, `ActionIds`, `Conversation`, `Selections`, `ConversationRuns`, `ButtonRuns`,
  `ChannelBookings`, `NightSlot`). The ids of the buttons, the selection state behind them, the inbox in front of
  them, and what pressing buttons does over the slot lists and booking calls of the booking modules.
* `Options` and `Statuses` are shared types.

A row's id is its position where rows are never deleted, and a key otherwise. Instants are whole ticks
(microseconds); wall-clock to UTC conversion is any function that increases over the days queried. Percentages are
fractions of ten thousand. Row locks, reads of current rows and commits are atomic steps.

What the code does that its readers may not expect, each proved here:

* The conflict check prefilters with the largest buffers of the services *currently assigned*, so it misses booked
  services that were unassigned (`Calendar.CoverageIsNeeded`, `Calendar.UnassignedServiceIsMissed`). The slot check
  that follows sees every row of the local day whatever is assigned, so a create avoids a row if and only if that
  query sees it or its block does not reach the day (`DayChecks.AvoidedExactly`). Visible times never overlap
  whatever happens to the catalogue. Buffered blocks never overlap while the buffers in use are kept, assigned or
  not (`DayRuns.BlocksNeverOverlap`, for wall clocks that only run forward). Editing a buffer in use can make two
  present bookings collide (`BufferedRuns.BufferEditCollides`); where it does not, unassigning the service
  afterwards still lets a later create collide across midnight (`MidnightRun.UnassigningMatters`).
* Updating a weekly window or a date override reads the row before it takes the provider's lock. Windows stay
  disjoint if and only if the check also holds of the row as it is written, which a row unchanged since the read
  guarantees (`Windows.AvailabilityService.Update`, `Windows.StaleUpdateCollides`).
* Marking a payout completed conserves the ledger if and only if it had not failed before
  (`Ledger.CompletionConserves`); the payout worker never does that.
* A payout the external provider accepted ends FAILED when the commit that records the acceptance raises; its earnings
  are then paid out again (`LostAcceptance.PaidTwice`). Without such a fault no FAILED payout was accepted
  (`LostAcceptance.FailedWasNotAccepted`).
* A worker that crashes with a payout in hand leaves it in PROCESSING for good (`PayoutEffects.OrphansStay`).
* A payment reported REFUNDED before it succeeded can be refunded; if it succeeds later, its earning is not reduced by
  that refund (`RefundEffects.EarlyRefundIsForgotten`, exact condition in `RefundEffects.AllRefundsCounted`).
* A second expiry sweep is idle if and only if no item raised in the first (`Payments.SecondSweepIsIdle`).
* A request finalized with a null body stays "in progress" for every later client
  (`Idempotency.FinalizedReplays`).
* The rate limiter lets at most `2 * limit - 1` hits through in one window's length, and that is reached.
* The conversation remembers a chosen slot by its UTC date, so confirming it works if and only if that is the date
  the customer pressed (`ChannelBookings.ButtonsBookTheSlot`, `NightSlot.NightSlotIsNotBooked`).
* The seconds a rate-limited caller is told to wait are truncated and need not suffice (`RateStore.WaitingSuffices`).
* backend/README.md:32 says pending adjustments are netted against the next payout; no code does it, and the model
  follows the code.

`dafny verify dfyconfig.toml` checks everything.

## Model

| member | source | states |
|---|---|---|
| Rounding.HalfUp | backend/app/services/payments/earning_service.py:59-61 | the nearest whole unit, a tie going up, as two inequalities that leave one answer |
| Commission.PlatformFee | backend/app/utils/commission.py:8-53 | fails exactly for a positive amount with a broken configuration; a fixed fee is capped at the amount, a percentage fee is the exact share to the nearest unit, and no fee is negative or more than the amount |
| Commission.PercentageFee | backend/app/utils/commission.py:43-53 | a percentage fee is the rounded share itself; the clamp to the amount never bites |
| Commission.FeeMonotone | backend/app/utils/commission.py:32-53 | a larger payment never has a smaller fee and never leaves the provider with less |
| Earnings.NewEarning | backend/app/services/payments/earning_service.py:19-57 | a new earning belongs to the payment's provider and currency, splits the amount into fee and share, and satisfies the per-earning invariant |
| Earnings.RefundImpact | backend/app/services/payments/earning_service.py:63-80 | the impact is the provider's share of the refund to the nearest unit, at least one, and positive exactly when there is something to take and something to take it from |
| Earnings.ApplyRefundKeeps | backend/app/services/payments/earning_service.py:82-126 | a refund keeps the per-earning invariant; a paid-out earning's amount is frozen |
| Earnings.RefundsClampedSum | backend/app/services/payments/earning_service.py:63-126 | any refunds leave refunded = min(share, sum of the separate impacts), and change nothing else |
| Earnings.RefundClosedForm | backend/app/services/payments/earning_service.py:59-126 | that sum stays within half a unit a refund below and one unit a refund above exact proportion |
| Earnings.RefundOrderIrrelevant | backend/app/services/payments/earning_service.py:82-126 | permuted refunds leave equal earnings, every field |
| Earnings.FullRefundTakesWholeShare | backend/app/services/payments/earning_service.py:63-126 | one refund of the whole payment leaves the provider exactly nothing |
| Ledger.BalancedIsConserved | backend/app/services/payments/payout_service.py:37-80 | per provider and currency: gross = fees + refunded + ready + non-failed payouts, from the row-by-row invariant |
| Ledger.RefundEarningKeeps | backend/app/services/payments/earning_service.py:82-126 | a refund on any earning, linked or not, keeps the books balanced |
| Ledger.ReadyFor | backend/app/repositories/provider_earning_repository.py:49-60 | exactly the ready, unlinked, positive earnings of the provider, each once, in order |
| Ledger.PayoutCreated | backend/app/services/payments/payout_service.py:37-57 | a payout is created exactly for a known provider with ready earnings of one currency |
| PayoutEffects.PayoutAccepted | backend/app/services/payments/payout_service.py:37-57 | the same on the rows: a known provider, some waiting earning, one currency among them |
| PayoutEffects.PayoutCreatedEffect | backend/app/services/payments/payout_service.py:59-80 | the new payout is PENDING without a reference, of the provider's whole waiting total and currency, and in the workers' queue; exactly the waiting earnings are PAID_OUT into it |
| PayoutEffects.PayoutCompletedEffect | backend/app/services/payments/payout_service.py:110-128 | completing writes one payout's status and reference, once |
| PayoutEffects.PayoutFailedEffect | backend/app/services/payments/payout_service.py:153-179 | failing writes one payout and makes exactly its earnings READY and unlinked, once |
| Ledger.PayoutCreatedKeeps | backend/app/services/payments/payout_service.py:37-80 | collecting keeps the books balanced, and the total is positive |
| Ledger.PayoutFailedKeeps | backend/app/services/payments/payout_service.py:153-179 | a failed payout releases its earnings and keeps the books balanced |
| Ledger.CompletionConserves | backend/app/services/payments/payout_service.py:110-128 | marking completed conserves the books if and only if the payout had not failed |
| Payments.ExpireAllPayments | backend/app/services/payments/service.py:371-450 | a sweep cancels exactly the selected payments that did not raise and no other payment |
| Payments.SweepLeavesFaults | backend/app/services/payments/service.py:388-450 | what is still expired after a sweep is exactly what raised in it |
| Payments.SecondSweepIsIdle | backend/app/services/payments/service.py:371-450 | a second sweep at the same cutoff changes nothing if and only if nothing raised in the first |
| Payments.RefundCreated | backend/app/services/payments/refund_service.py:218-240 | a refund request is accepted exactly for zero, or for a paid payment within what is left |
| Payments.CancellationRefund | backend/app/services/payments/refund_service.py:88-89 | a cancellation never refunds more than what is left, and never a negative amount |
| Payments.CancellationAmounts | backend/app/services/payments/refund_service.py:52-89 | what each policy refunds of an untouched payment: everything, half to the nearest unit, all but the deposit or a fifth (at least one unit), or nothing |
| Payments.NothingToRefund | backend/app/services/payments/refund_service.py:60-65 | nothing is refunded of an unpaid payment, or without a service that asks for payment |
| Payments.EarlierRefundsCap | backend/app/services/payments/refund_service.py:48-89 | earlier refunds cap the policy's amount at the rest of the payment |
| Payments.EarlierNeverWorse | backend/app/services/payments/refund_service.py:52-89 | cancelling earlier never refunds less, under any policy |
| Payments.PoliciesOrdered | backend/app/services/payments/refund_service.py:52-89 | strict <= moderate <= flexible for one window |
| Payments.LatestPayment | backend/app/services/payments/service.py:54-56 | the last payment of the appointment, if any |
| PaymentEffects.SkippedWebhook | backend/app/services/payments/service.py:239-263 | a repeated status, or one that would take back a paid payment, changes nothing |
| PaymentEffects.AppliedWebhook | backend/app/services/payments/service.py:225-306 | any other webhook writes the payment's status, confirms or cancels its appointment by the statuses written out, adds the one earning a success must have, and nothing else; it fails exactly when that earning's fee has no valid configuration |
| PaymentEffects.SweepEffect | backend/app/services/payments/service.py:371-450 | a sweep makes CANCELED exactly the unpaid, old enough payments that did not raise, CANCELLED exactly their PENDING_PAYMENT appointments, and changes nothing else |
| PaymentEffects.CancellationAccepted | backend/app/services/appointment_service.py:210-238 | a cancellation fails exactly on unknown, completed and missed appointments |
| PaymentEffects.CancellationEffect | backend/app/services/appointment_service.py:210-266 | an open appointment becomes CANCELLED and its latest payment gets exactly the policy's refund, settled by the answer |
| PaymentEffects.StatusStepsOverAllRuns | backend/app/services/payments/service.py:193-306 | in every run an appointment is confirmed only by a step in which one of its payments becomes SUCCEEDED, and cancelled only by a payment lost or by its own cancellation; no step reopens it |
| PaymentEffects.PaymentStepsOverAllRuns | backend/app/services/payments/service.py:225-450 | in every run a payment changes status only by a webhook, by expiring, or by refunds that reach its amount |
| PaymentEffects.RowsAddedOverAllRuns | backend/app/services/payments/service.py:120-190 | in every run only bookings add appointments and only checkouts add payments, to be acted on |
| RefundEffects.RefundEffect | backend/app/services/payments/refund_service.py:218-291 | one refund adds its row, marks the payment REFUNDED exactly when the amount is reached, and reduces that payment's earning alone, by the rounded share or as an adjustment once paid out |
| RefundEffects.SettlementEffect | backend/app/services/payments/refund_service.py:97-137 | an acceptance reaches payment and earning once; repeated, it changes nothing |
| RefundEffects.DeclineEffect | backend/app/services/payments/refund_service.py:166-190 | a declined refund marks its row and nothing else |
| RefundEffects.FirstRefundTakesItsPart | backend/app/services/payments/earning_service.py:63-126 | the first refund on an untouched, unlinked earning takes min(share, max(half-up share of the refund, 1)) from it |
| RefundEffects.RefundsOverAllRuns | backend/app/services/payments/earning_service.py:63-126 | in every run, as long as no payout holds it, an earning has lost exactly min(share, sum of the impacts of its payment's succeeded refunds since), and nothing else of it changed |
| RefundEffects.AllRefundsCounted | backend/app/services/payments/refund_service.py:97-137 | it accounts for all refunds of its payment if and only if none was accepted before the earning existed, or it has no share |
| RefundEffects.EarlyRefundIsForgotten | backend/app/services/payments/refund_service.py:218-291 | a run in which a refund is accepted before the payment ever succeeds, and the later earning is not reduced by it |
| EarningOrigins.EarningsBelongOverAllRuns | backend/app/services/payments/earning_service.py:19-57 | in every run every earning belongs to a paid payment: same amount, currency and appointment, and that appointment's provider |
| MoneyRuns.StatusMarkedKeeps | backend/app/services/payments/service.py:225-306 | a status webhook keeps the joint invariant of payments, bookings, earnings and refunds |
| MoneyRuns.RefundCreatedKeeps | backend/app/services/payments/refund_service.py:97-291 | one refund moves one total by its amount, marks the payment refunded exactly when the amount is reached, and keeps the joint invariant |
| MoneyRuns.BookingCancelledKeeps | backend/app/services/appointment_service.py:210-266 | a cancellation with its refund keeps the joint invariant |
| MoneyRuns.SweepKeeps | backend/app/services/payments/service.py:371-450 | an expiry sweep keeps the joint invariant, whatever raises |
| MoneyRuns.BooksAfterKeeps | backend/app/services/payments/service.py:193-306 | every client and operator action keeps the joint invariant |
| MoneyTheorems.NextKeeps | backend/app/services/payments/payout_service.py:210-271 | every step, crashes of workers included, keeps the system invariant |
| MoneyTheorems.NextEvolves | backend/app/services/payments/payout_service.py:210-271 | across any step, statuses, totals and frozen rows only move forward |
| MoneyTheorems.ConservationOverAllRuns | backend/app/services/payments/payout_service.py:37-179 | the conservation law in every reachable state, for every provider and currency |
| MoneyTheorems.EarningsSoundOverAllRuns | backend/app/services/payments/earning_service.py:34-126 | fee + share + refunded = gross, all non-negative; pending iff share 0; paid out iff linked, in every reachable state |
| MoneyTheorems.SubmittedAtMostOnce | backend/app/services/payments/payout_service.py:210-263 | no payout is submitted to the external provider twice, by any workers with crashes anywhere |
| MoneyTheorems.PayoutPath | backend/app/services/payments/payout_service.py:210-263 | a payout moves only PENDING, PROCESSING, then COMPLETED or FAILED |
| PayoutEffects.PayoutStepsOverAllRuns | backend/app/services/payments/payout_service.py:210-263 | in every run a payout is claimed while PENDING and settled while PROCESSING by the answer its worker got: COMPLETED for an acceptance, FAILED otherwise, with the reference given |
| PayoutEffects.EndedWasSubmitted | backend/app/services/payments/payout_service.py:210-263 | in every reachable state a COMPLETED or FAILED payout was submitted to the external provider |
| PayoutEffects.CompletedWasAccepted | backend/app/services/payments/payout_service.py:228-245 | a COMPLETED payout carries a reference under which the provider accepted it |
| PayoutEffects.OrphansStay | backend/app/services/payments/payout_service.py:214-234 | a payout whose worker crashed with it in hand stays in PROCESSING in every continuation |
| LostAcceptance.FailedWasNotAccepted | backend/app/services/payments/payout_service.py:228-263 | in runs where no commit that records an acceptance raises, no FAILED payout was accepted |
| LostAcceptance.LostAcceptanceReleases | backend/app/services/payments/payout_service.py:253-263 | when such a commit raises, the accepted payout ends FAILED and exactly its earnings are ready again |
| LostAcceptance.PaidTwice | backend/app/services/payments/payout_service.py:228-263 | a run in which the provider accepts two payouts of the same single earning |
| MoneyTheorems.CompletedPayoutsKeepEarnings | backend/app/services/payments/payout_service.py:110-179 | an earning under a completed payout keeps its link, status and amount forever |
| MoneyTheorems.AbsorbingStatuses | backend/app/services/payments/service.py:239-306 | CANCELLED appointments and paid payments stay so in every continuation |
| MoneyTheorems.SettledPayments | backend/app/services/payments/service.py:193-306 | a settled payment never leaves its appointment waiting; a succeeded one has exactly one earning, of its amount |
| MoneyTheorems.RefundCap | backend/app/services/payments/refund_service.py:48-50 | succeeded refunds never exceed the payment; the step that reaches it marks the payment refunded |
| MoneyTheorems.FullyRefundedRejects | backend/app/services/payments/refund_service.py:218-240 | after a full refund every later positive refund is rejected |
| MoneyServices.EarningService.EnsureEarningForPayment | backend/app/services/payments/earning_service.py:19-57 | adds the one earning a payment must have, or finds it |
| MoneyServices.EarningService.ApplyRefundAdjustmentForPayment | backend/app/services/payments/earning_service.py:82-126 | updates only the payment's earning, as the refund specification says |
| MoneyServices.PayoutService.CreatePayout | backend/app/services/payments/payout_service.py:37-80 | the tables become those of PayoutEffects.PayoutCreatedEffect, or stay |
| MoneyServices.Totals | backend/app/services/payments/payout_service.py:52-57 | the loop's sum is the sum of the listed earnings, and its flag says whether one currency covers them |
| MoneyServices.PayoutService.TotalReady | backend/app/services/payments/payout_service.py:52-57 | the total over the whole table of what is collectable |
| MoneyServices.PayoutService.LinkReady | backend/app/services/payments/payout_service.py:70-76 | exactly the ready earnings are linked, and become paid out |
| MoneyServices.PayoutService.MarkPayoutCompleted | backend/app/services/payments/payout_service.py:110-128 | only the payout's status and reference change |
| MoneyServices.PayoutService.MarkPayoutFailed | backend/app/services/payments/payout_service.py:153-179 | the payout fails and exactly its earnings are released |
| MoneyServices.PayoutService.ProcessPendingPayouts | backend/app/services/payments/payout_service.py:210-271 | the loop is the specified pass for any answers and any raising commits, and its counters say how the payouts ended |
| MoneyServices.PayoutService.ProcessItem | backend/app/services/payments/payout_service.py:218-263 | one payout: claimed, submitted and settled, or skipped when its claim raises |
| MoneyServices.PayoutService.Settle | backend/app/services/payments/payout_service.py:228-263 | the answer is recorded; when that raises the payout is marked failed; when that raises too it stays in processing |
| PayoutPasses.PassOutcome | backend/app/services/payments/payout_service.py:210-263 | after a pass each claimed payout stands where its answer puts it, exactly the failed ones' earnings are released, and nothing else changed |
| PayoutPasses.PassSubmits | backend/app/services/payments/payout_service.py:210-263 | a pass submits each payout whose claim went through, once, and no other |
| PayoutPasses.PassIsRun | backend/app/services/payments/payout_service.py:210-271 | an idle worker's own steps, run undisturbed in the money machine, give exactly the pass: tables, submissions, and the worker idle |
| PaymentServices.RefundService.MarkRefundSucceeded | backend/app/services/payments/refund_service.py:97-137 | the tables become those of RefundEffects.SettlementEffect: refund, payment and earning together |
| PaymentServices.RefundService.MarkRefundFailed | backend/app/services/payments/refund_service.py:166-190 | only the refund's status changes |
| PaymentServices.RefundService.CreateRefund | backend/app/services/payments/refund_service.py:218-291 | the tables become those of RefundEffects.RefundEffect, or stay when the request is refused |
| PaymentServices.RefundService.ProcessRefundForCancellation | backend/app/services/payments/refund_service.py:293-302 | the policy's amount is refunded on the latest payment, or nothing changes |
| PaymentServices.PaymentService.MarkPaymentStatus | backend/app/services/payments/service.py:225-306 | the tables become those of PaymentEffects.AppliedWebhook, or stay when the webhook is skipped or raises |
| PaymentServices.PaymentService.CancelPendingPaymentAppointment | backend/app/services/payments/service.py:193-203 | a PENDING_PAYMENT appointment becomes CANCELLED, any other stays as it is |
| PaymentServices.PaymentService.ExpireItem | backend/app/services/payments/service.py:388-412 | one item's transaction, and whether it cancelled an appointment |
| PaymentServices.PaymentService.ExpirePendingPayments | backend/app/services/payments/service.py:371-450 | the loop is the sweep of PaymentEffects.SweepEffect, and its counters say what it did to the tables |
| PaymentServices.CancelAppointment | backend/app/services/appointment_service.py:210-266 | the cancellation is kept even when the refund raises |
| Calendar.HasBlockedOverlap | backend/app/services/scheduling_service.py:186-208 | true exactly when a prefiltered row's own block meets the interval |
| DayHours.ConflictWrittenOut | backend/app/services/scheduling_service.py:154-208 | while booked services stay assigned, the check finds exactly the PENDING, PENDING_PAYMENT and CONFIRMED rows whose time with their own buffers, in ticks, meets the interval |
| Calendar.AssignedIsCovered | backend/app/services/scheduling_service.py:124-130 | while booked services stay assigned, no booked buffer exceeds the largest assigned one |
| Calendar.PrefilterRefinesScan | backend/app/services/scheduling_service.py:168-208 | under that cover, the prefiltered check equals a scan of every appointment |
| Calendar.CoverageIsNeeded | backend/app/repositories/appointment_repository.py:79-97 | for one appointment, they agree on all intervals if and only if its buffers are covered |
| Calendar.VisibleOverlapFound | backend/app/services/scheduling_service.py:168-208 | an overlap of visible times is found whatever the catalogue says |
| Calendar.UnassignedServiceIsMissed | backend/app/services/scheduling_service.py:124-208 | a concrete unassigned service whose conflict the check misses |
| Calendar.MaxAttained | backend/app/services/scheduling_service.py:124-130 | the largest buffers are bounds that some assigned service attains, or zero |
| Calendar.ListBlocking | backend/app/repositories/appointment_repository.py:79-97 | exactly the blocking rows of the provider in the query window, but the excluded one |
| Slots.TimingExact | backend/app/services/scheduling_service.py:63-122 | a timing resolves exactly for a placed provider and a bookable service, to the assignment's or the service's duration and the service's buffers |
| Slots.WeeklyWindowsExact | backend/app/services/scheduling_service.py:287-300 | the weekly windows of a day are exactly those of the provider's active rows of the weekday |
| Slots.OverrideWindowsExact | backend/app/services/scheduling_service.py:243-262 | the overriding windows of a day are exactly those of its active rows with hours |
| DayHours.DayWindowsExact | backend/app/services/scheduling_service.py:287-300 | the hours of a day on the rows: none with an active closing override, the active overriding hours if there are any, else the active weekly rows of its weekday, counted from Monday |
| DayHours.ClosedDayListsNothing | backend/app/services/scheduling_service.py:288-291 | a closed day has no listed slot, whatever else is stored for it |
| DayHours.ClosedDayIsNotBooked | backend/app/services/appointment_service.py:65-88 | nothing can be booked onto a closed day |
| DayHours.QueryAnswers | backend/app/services/scheduling_service.py:219-240 | a query answers for 1 to 31 days and a known provider, with nothing for an inactive one, and fails otherwise or when no timing resolves |
| Slots.BlockedIntervals | backend/app/services/scheduling_service.py:269-284 | the list meets an interval exactly when the prefiltered tables block it |
| Slots.WalkWindow | backend/app/services/scheduling_service.py:302-320 | the moving cursor terminates and yields the specified slots of a window |
| Slots.WalkDay | backend/app/services/scheduling_service.py:287-320 | the slots of one day's windows |
| Slots.WalkDays | backend/app/services/scheduling_service.py:287-320 | the slots of the days, in order |
| Slots.GetAvailableSlots | backend/app/services/scheduling_service.py:210-323 | the whole query, with its errors and early answers, equals the specification |
| Slots.NoWindowsNoSlots | backend/app/services/scheduling_service.py:261-262 | the early empty answer is what the loops would give |
| Slots.PrefilterExact | backend/app/services/scheduling_service.py:264-284 | within the span, the prefiltered tables block what the whole tables block |
| SlotTheorems.SortAscends | backend/app/services/scheduling_service.py:322-323 | sorting gives an ascending list of exactly the same slots |
| SlotTheorems.SlotsFromAreStops | backend/app/services/scheduling_service.py:302-320 | membership: exactly the free stops start + k durations whose block ends within the window |
| SlotTheorems.ExactSlotSet | backend/app/services/scheduling_service.py:243-323 | a slot is listed exactly when it is such a stop of the day's chosen windows and meets nothing in the whole tables |
| DayHours.SlotsWrittenOut | backend/app/services/scheduling_service.py:210-323 | the whole list on the rows: a slot is listed if and only if it is a stop of duration and buffers, in ticks, within open hours of a day asked for, and its time with both buffers meets no time off and no open appointment |
| SlotTheorems.RangeListedIsDayListed | backend/app/services/scheduling_service.py:264-323 | range-listed implies day-listed, with no premise on the catalogue |
| SlotTheorems.SortConcat | backend/app/services/scheduling_service.py:322-323 | sorting a concatenation in order is concatenating the sorted parts |
| SlotTheorems.RangeIsConcatenationOfDays | backend/app/services/scheduling_service.py:264-323 | the range's list is the concatenation of the single days' lists |
| SlotTheorems.SlotsNeverOverlap | backend/app/services/scheduling_service.py:287-323 | with disjoint windows the list is strictly increasing and disjoint |
| Desk.BookingDesk.AssertSlotIsAvailable | backend/app/services/appointment_service.py:65-88 | passes exactly when the interval is in the day's slot list |
| Desk.ContainsSlot | backend/app/services/appointment_service.py:78-88 | the search finds the interval exactly when it is listed |
| Desk.BookingDesk.CreateAppointment | backend/app/services/appointment_service.py:90-179 | one row more, or nothing changes, by the checks in their order |
| Desk.BookingDesk.RescheduleAppointment | backend/app/services/appointment_service.py:268-324 | one row's visible time moves, or nothing changes |
| Desk.BookingDesk.CancelAppointment | backend/app/services/appointment_service.py:210-238 | one row's status changes, or nothing does |
| BookingChecks.AdmittedExact | backend/app/services/appointment_service.py:97-141 | what a create asks of the rows, in both directions: provider, status, organization, location, customer, service, assignment and offer |
| BookingChecks.CreateExact | backend/app/services/appointment_service.py:90-179 | a create is accepted if and only if the rows allow it and its local day's list has the slot; it stores exactly what was asked for |
| BookingChecks.RescheduleExact | backend/app/services/appointment_service.py:268-324 | the same for a reschedule, which changes the visible time of one open appointment alone |
| BookingChecks.CancelExact | backend/app/services/appointment_service.py:210-238 | a cancellation fails exactly on unknown, completed and missed appointments, and writes CANCELLED into one row alone |
| Desk.ListedIsFree | backend/app/services/appointment_service.py:65-88 | membership in a day's list alone rules out a conflict |
| Desk.ListedIsBookable | backend/app/services/appointment_service.py:142-178 | a slot listed for any range is accepted by a create on the same state |
| Desk.ListedIsReschedulable | backend/app/services/appointment_service.py:268-324 | a slot listed for a booking's own rows is accepted by a reschedule on the same state |
| Desk.BookedWasListed | backend/app/services/appointment_service.py:65-178 | every accepted create was in the list of its local day, with no premise on the catalogue |
| Desk.MovedWasListed | backend/app/services/appointment_service.py:268-324 | every accepted reschedule was in the list of its new local day |
| Desk.BookedWasFree | backend/app/services/appointment_service.py:142-178 | while booked services stay assigned, every accepted create is free in the whole tables |
| DayChecks.CreatedAvoids | backend/app/services/appointment_service.py:65-178 | an accepted create avoids the block of every row its day's query sees, assigned or not, and of every row that does not reach the day |
| DayChecks.MeetingSeenIsRefused | backend/app/services/appointment_service.py:65-178 | a create whose block meets a row the day's query sees is refused |
| DayChecks.RescheduledAvoids | backend/app/services/appointment_service.py:268-324 | the same for an accepted reschedule, its own old row included |
| DayChecks.AvoidedExactly | backend/app/services/scheduling_service.py:124-208 | on a day without a clock change, a row is avoided by every create the day can accept if and only if the day's query sees it or its block does not reach the day |
| DayChecks.CoveredIsAvoided | backend/app/services/scheduling_service.py:124-166 | a row whose buffers are covered meets that condition on every day |
| BookingRuns.CommitKeeps | backend/app/services/appointment_service.py:142-178 | a commit under the provider lock keeps every other transaction's knowledge true |
| BookingRuns.NextKeeps | backend/app/services/appointment_service.py:97-179 | every step of every transaction, status change and catalogue change keeps the invariant |
| BookingRuns.VisibleTimesNeverOverlap | backend/alembic/versions/20260312_0009_pending_payment_enforcement.py:29-39 | in every interleaving no two blocking appointments of a provider overlap: the exclusion constraint never fires |
| BookingRuns.StepsChangeRows | backend/app/services/appointment_service.py:90-324 | what one step of the interleaving may change: a status by a cancellation or a payment, a time by that row's own reschedule, one row by a create that passed its checks |
| BufferedRuns.NextBuffered | backend/app/services/scheduling_service.py:154-208 | every step that spares the services in use keeps the blocks disjoint |
| BufferedRuns.BlocksNeverOverlap | backend/app/services/scheduling_service.py:154-208 | in every such interleaving the buffered blocks of a provider are pairwise disjoint |
| BufferedRuns.BufferEditCollides | backend/app/api/routers/services.py:272 | any two neighbouring bookings collide after some edit of one buffer |
| DayRuns.NextInDay | backend/app/services/appointment_service.py:65-179 | every step keeps blocks disjoint and inside their own day, whatever is unassigned, while buffers in use are kept |
| DayRuns.BlocksNeverOverlap | backend/app/services/appointment_service.py:65-324 | in every interleaving that keeps the buffers in use, with no premise on assignments, the blocks of a provider are pairwise disjoint |
| MidnightRun.UnassigningMatters | backend/app/services/scheduling_service.py:124-208 | a run across midnight: after a buffer edit that collides with nothing, unassigning the service lets the next create overlap, and keeping it assigned does not |
| AloneRuns.AloneIsCreate | backend/app/services/appointment_service.py:90-179 | an undisturbed transaction is the create operation |
| AloneRuns.AloneIsReschedule | backend/app/services/appointment_service.py:268-324 | an undisturbed transaction is the reschedule operation |
| Windows.WeeklyCheckExact | backend/app/repositories/provider_availability_repository.py:43-61 | writing a row keeps the weekday disjoint if and only if the overlap check passes |
| Windows.AcceptsExact | backend/app/services/provider_availability_service.py:14-35 | the checks on the rows: a proper window, an existing weekday, no active row sharing time, no equal row; windows may touch |
| Windows.PatchedExact | backend/app/services/provider_availability_service.py:37-66 | an update sets the fields it gives and keeps the others |
| Windows.WrittenExact | backend/app/services/provider_availability_service.py:37-69 | a field is stored if it is given with another value than the one seen, else the current one stays |
| Windows.AvailabilityService.Create | backend/app/services/provider_availability_service.py:14-35 | accepts exactly proper rows that neither overlap nor duplicate, and keeps the table disjoint |
| Windows.AvailabilityService.Update | backend/app/services/provider_availability_service.py:37-69 | on a row nobody changed since it was read: the same as a create for the patched row; otherwise disjointness is kept if and only if the check also passes on the row as written |
| Windows.StaleUpdateCollides | backend/app/services/provider_availability_service.py:37-66 | two updates of one row, the second read before the first commits, leave overlapping windows |
| Windows.AvailabilityService.Delete | backend/app/api/routers/provider_availability.py:88-101 | removes that row only and keeps the table disjoint |
| Windows.OverrideCheckExact | backend/app/services/provider_date_override_service.py:14-59 | a payload validates if and only if it is well shaped and storing it keeps every day consistent |
| Windows.ValidatedExact | backend/app/services/provider_date_override_service.py:14-59 | validation on the rows: proper hours or none, and no active override of the day that closes it, that it would close, or that shares its time |
| Windows.PatchedPayloadExact | backend/app/services/provider_date_override_service.py:83-105 | an update sets the columns it gives, clears hours given as none, and keeps the others |
| Windows.PayloadOverExact | backend/app/services/provider_date_override_service.py:83-115 | a column is stored if it differs from the one seen, else the current one stays |
| Windows.ConsistentDay | backend/app/repositories/provider_date_override_repository.py:67-120 | a day has one closing row alone, or disjoint hours only |
| Windows.DateOverrideService.Create | backend/app/services/provider_date_override_service.py:61-81 | stores the validated row and keeps every day consistent |
| Windows.DateOverrideService.Update | backend/app/services/provider_date_override_service.py:83-115 | the same, with validation in place of the overlap check, for a fresh and for a stale read |
| Windows.DateOverrideService.Delete | backend/app/api/routers/provider_date_overrides.py:94-106 | removes that row only and keeps every day consistent |
| Windows.MaintainedWindowsGiveDisjointSlots | backend/app/services/scheduling_service.py:287-323 | over maintained tables every slot list is strictly increasing and disjoint |
| RateStore.MemoryRateStore.Cleanup | backend/app/services/rate_limiter.py:68-71 | removes exactly the expired entries |
| RateStore.MemoryRateStore.Record | backend/app/services/rate_limiter.py:47-62 | one hit: the new table, the decision, the seconds to wait and the remaining count |
| RateStore.WaitingSuffices | backend/app/services/rate_limiter.py:59-62 | waiting the seconds a denied caller is told suffices if and only if less than a second or a whole number of seconds was left; one second more always does |
| RateStore.StoreTracksKey | backend/app/services/rate_limiter.py:47-71 | the shared, swept table agrees with a lone counter per key, up to expired entries |
| RateStore.DecisionsIndependent | backend/app/services/rate_limiter.py:47-71 | decisions equal those of a store without sweeping and without other keys |
| RateStore.WindowStays | backend/app/services/rate_limiter.py:50-58 | no hit, allowed or denied, moves the end of an open window; each one on the key is counted |
| RateStore.NextWindowOpens | backend/app/services/rate_limiter.py:50-55 | the first hit at or after the end opens the next window |
| RateStore.AllowedWithinWindow | backend/app/services/rate_limiter.py:56-59 | within an open window a hit is allowed exactly while the limit is not reached |
| RateStore.AllowedPerWindow | backend/app/services/rate_limiter.py:42-71 | any window-long interval contains at most 2*limit - 1 allowed hits per key |
| RateStore.BoundIsTight | backend/app/services/rate_limiter.py:42-71 | for every limit and window some hits reach the bound |
| Idempotency.StripExact | backend/app/services/idempotency_service.py:45-54 | normalizing removes exactly the white space at both ends of a key |
| Idempotency.PaddingIsIgnored | backend/app/services/idempotency_service.py:45-54 | white space around a key makes no difference |
| Idempotency.IdempotencyService.StartRequest | backend/app/services/idempotency_service.py:45-128 | unprotected, rejected, or for a present record: another hash is a conflict, an unfinished one is in progress, a finished one replays; otherwise a fresh owned record |
| Idempotency.IdempotencyService.FinalizeSuccess | backend/app/services/idempotency_service.py:132-158 | stores status and body in the owner's record only |
| Idempotency.IdempotencyService.Abort | backend/app/services/idempotency_service.py:160-178 | removes the owner's record only |
| Idempotency.OneLiveOwner | backend/app/services/idempotency_service.py:95-130 | in any interleaving at most one client owns the live record of a key |
| Idempotency.OwnedIsInProgress | backend/app/services/idempotency_service.py:61-66 | while a client owns a key's live record, every other client that looks it up is told in progress or a conflict |
| Idempotency.LateInsertIsTurnedAway | backend/app/services/idempotency_service.py:113-128 | so is one that had looked before the owner inserted: its insert loses and it is told the same |
| Idempotency.GivenUpIsFree | backend/app/services/idempotency_service.py:160-178 | after an abort the next client that starts on the key owns it |
| Idempotency.FinalizeStores | backend/app/services/idempotency_service.py:132-158 | finalizing by the live owner stores exactly its status and body |
| Idempotency.CrashedKeyStaysInProgress | backend/app/services/idempotency_service.py:61-66 | a key whose owner crashed stays in progress until cleanup deletes it |
| Idempotency.CleanupFrees | backend/app/repositories/idempotency_repository.py:48-53 | cleanup frees exactly the expired keys |
| Idempotency.SettledForever | backend/app/services/idempotency_service.py:61-178 | a record nobody owns stays until cleanup deletes it |
| Idempotency.FinalizedReplays | backend/app/services/idempotency_service.py:61-158 | after finalizing, every later start replays exactly the response or conflicts; a null body never replays |
| Idempotency.RejectedLearnsTheSame | backend/app/services/idempotency_service.py:113-130 | the loser of the insert race learns what a lookup would tell |
| Texts.IntTextParses | backend/app/services/whatsapp/service.py:283-362 | every integer's text parses back and holds no colon |
| Texts.DateTextParses | backend/app/services/whatsapp/service.py:304-306 | every valid date's text parses back and holds no colon |
| Dates.OrdinalInjective | backend/app/services/whatsapp/service.py:304-306 | a date's day number belongs to that date alone |
| Texts.SplitJoin | backend/app/services/whatsapp/service.py:328-358 | colon-free fields come back from a split with enough cuts |
| ActionIds.EmittedIdsRoute | backend/app/services/whatsapp/service.py:283-362 | no emitted id is caught by an earlier test of the dispatcher |
| ActionIds.EmittedIdsDecode | backend/app/services/whatsapp/service.py:283-362 | every emitted id decodes to its handler and arguments, for all ids, timestamps and dates |
| ActionIds.EqualIdsEqualHandlers | backend/app/services/whatsapp/service.py:283-362 | buttons with the same id do the same thing |
| Conversation.LocationsOf | backend/app/services/discovery_service.py:85-89 | exactly the organization's active locations |
| Conversation.FindSlot | backend/app/services/whatsapp/service.py:1072-1079 | the first slot of the list in the named second, if there is one |
| Conversation.Chat.RenderOrganizationSelection | backend/app/services/whatsapp/service.py:384-414 | clears every selection when an organization can be offered, else nothing |
| Conversation.Chat.BeginBookingFlow | backend/app/services/whatsapp/service.py:434-475 | the three ways a booking starts |
| Conversation.Chat.RenderServiceSelection | backend/app/services/whatsapp/service.py:490-529 | selects the location and drops what hangs below it |
| Conversation.Chat.HandleLocationSelection | backend/app/services/whatsapp/service.py:477-488 | only a visible location of the selected organization is taken |
| Conversation.Chat.HandleServiceSelection | backend/app/services/whatsapp/service.py:531-572 | only an offered service with a provider is taken |
| Conversation.Chat.HandleProviderSelection | backend/app/services/whatsapp/service.py:574-594 | only an offered provider is taken, then the dates are shown |
| Conversation.Chat.RenderBookingDates | backend/app/services/whatsapp/service.py:596-621 | forgets the slot, or goes back to the organizations |
| Conversation.Chat.HandleDateSelection | backend/app/services/whatsapp/service.py:623-661 | remembers a date with slots |
| Conversation.Chat.HandleSlotSelection | backend/app/services/whatsapp/service.py:663-685 | remembers the slot and its UTC date |
| Conversation.Chat.ConfirmBooking | backend/app/services/whatsapp/service.py:687-750 | books the selected rows and clears them, or changes the screen only |
| Conversation.Chat.ShowUpcomingBookings | backend/app/services/whatsapp/service.py:752-792 | shows bookings, the menu or the organizations |
| Conversation.Chat.RenderBooking | backend/app/services/whatsapp/service.py:794-836 | remembers a manageable booking |
| Conversation.Chat.ConfirmCancel | backend/app/services/whatsapp/service.py:838-877 | cancels a manageable booking, keeps the screen when refused |
| Conversation.Chat.RenderRescheduleDates | backend/app/services/whatsapp/service.py:879-908 | remembers a manageable booking of a service |
| Conversation.Chat.HandleRescheduleDate | backend/app/services/whatsapp/service.py:910-955 | remembers the booking and a date with slots |
| Conversation.Chat.HandleRescheduleSlot | backend/app/services/whatsapp/service.py:957-1002 | remembers the booking's new slot |
| Conversation.Chat.ConfirmReschedule | backend/app/services/whatsapp/service.py:1004-1057 | moves the booking to the named slot, keeps the screen when refused |
| Conversation.Chat.HandleAction | backend/app/services/whatsapp/service.py:283-362 | each decoded command reaches its handler; anything else is stale |
| Conversation.Chat.RouteMessage | backend/app/services/whatsapp/service.py:226-267 | keywords first, then the action id, then the menu; keeps the chain of selections, and whatever it books, moves or cancels is justified |
| Conversation.EffectsJustified | backend/app/services/whatsapp/service.py:687-1057 | only a confirmation books, moves or cancels: the selected rows of one organization or the customer's own booking, and a slot free at that moment in the named second |
| Selections.AnswersChangeRight | backend/app/services/whatsapp/service.py:364-1002 | whatever a message changes among the selections comes from its own button while it was offered on the rows, and leaves nothing selected below it |
| Selections.OfferedIsTaken | backend/app/services/whatsapp/service.py:531-594 | an active, free service at the selected location with somebody to do it is taken, and so is such a provider |
| Selections.LocationIsTaken | backend/app/services/whatsapp/service.py:477-529 | a location with such a service is taken; without one the menu comes back |
| Selections.StaleAnswer | backend/app/services/whatsapp/service.py:226-267 | a stale button keeps the selections under an active organization, and otherwise starts over if anything can be offered |
| Selections.ManyToChooseFrom | backend/app/services/whatsapp/service.py:434-475 | with several locations the customer chooses |
| Selections.OneIsChosen | backend/app/services/whatsapp/service.py:434-475 | the only location is chosen for them |
| Selections.BookingScreens | backend/app/services/whatsapp/service.py:794-908 | a booking's buttons work for the customer's own booking of the selected organization, and are stale for any other |
| Selections.DateShown | backend/app/services/whatsapp/service.py:623-661 | a date with free slots is remembered, one without leads back to the dates |
| Selections.StateAfterEffect | backend/app/services/whatsapp/service.py:687-1057 | a booking clears what was selected for it; a reschedule and a cancellation leave the selections |
| Selections.RefusedChangesNothing | backend/app/services/whatsapp/service.py:687-1057 | a call that fails has no effect, and a refused cancellation or reschedule leaves the conversation where it was |
| ConversationRuns.NextKeepsChain | backend/app/services/whatsapp/service.py:364-594 | any message or organization deletion keeps the selections a chain of one organization's rows |
| ConversationRuns.ChainOverAllRuns | backend/app/services/whatsapp/service.py:434-594 | provider selected implies service implies location implies organization, all of that organization, over every run |
| ConversationRuns.OfferedOverAllRuns | backend/app/services/whatsapp/service.py:477-594 | every selection was offered, for the ones above it, while an earlier message was handled |
| ConversationRuns.EffectsOverAllRuns | backend/app/services/whatsapp/service.py:687-1057 | in every run, whatever is booked, moved or cancelled was confirmed for the right rows and a slot free at that message |
| ConversationRuns.BookedWasOffered | backend/app/services/whatsapp/service.py:687-722 | every booking of every run is for a location, service and provider each offered earlier for the ones above it |
| ConversationRuns.OneBookingPerChoice | backend/app/services/whatsapp/service.py:733-742 | between two bookings of a run a provider is chosen again, so a repeated confirmation books nothing |
| ConversationRuns.Inbox.ProcessMessages | backend/app/services/whatsapp/service.py:68-118 | a batch answers exactly its new messages, in order, and the counters add up |
| ConversationRuns.Inbox.Deliver | backend/app/services/whatsapp/service.py:120-136 | a delivery is recorded first; only a new one of a known sender within the limit reaches the conversation |
| ConversationRuns.FreshSplit | backend/app/services/whatsapp/service.py:68-136 | splitting deliveries into batches in any way answers the same messages |
| ConversationRuns.RedeliveryIsIdle | backend/app/services/whatsapp/service.py:120-136 | delivering a batch again changes nothing |
| ButtonRuns.RowsSelect | backend/app/services/whatsapp/service.py:364-594 | from any state the rows' buttons, sent as text, select exactly those rows |
| ChannelBookings.TablesInDates | backend/app/services/whatsapp/service.py:1059-1079 | a slot the service lists for a date starts a whole minute inside that local date |
| ChannelBookings.SameSecondSameDate | backend/app/services/whatsapp/service.py:1059-1079 | so no second names slots of two dates |
| ChannelBookings.ButtonsBookTheSlot | backend/app/services/whatsapp/service.py:623-722 | over the slot service's own lists and the booking call itself: pressing the offered buttons books exactly the slot pressed if and only if its UTC date is the date pressed, else nothing, and the call would accept it either way |
| ChannelBookings.ButtonsMoveTheBooking | backend/app/services/whatsapp/service.py:879-1057 | the same for the reschedule buttons and the reschedule call |
| ChannelBookings.ButtonsCancelTheBooking | backend/app/services/whatsapp/service.py:794-877 | a booking the conversation shows can always be cancelled, and the cancel buttons cancel exactly it |
| NightSlot.NightSlotIsNotBooked | backend/app/services/whatsapp/service.py:663-722 | a late slot five hours west of UTC that the conversation offers, the booking call accepts, and the buttons do not book |

## Left out

- HTTP, authentication, schemas, background dispatch, notifications, domain events, metrics and logging: they do nothing here; an exception they raise after a commit is not modelled.
- SQLAlchemy sessions and PostgreSQL internals: a locked read is a lock and the current row, a commit is atomic; creating a payout, creating a refund and a webhook's first read, which take no lock, are single steps.
- Time zones: the conversion is abstract and increasing (`DayRuns`, `ChannelBookings`: on every day), and `Slots.DaysAgree` ties an instant's day to it; gaps and folds of daylight saving are not modelled.
- PayoutEffects.CompletedWasAccepted: the external provider's answer always carries a reference in the model; the source also takes one without.
- Decimal contexts: rounding is exact half-up on integers.
- MoneyServices.PayoutService.CreatePayout: the source's last check, a total that is not positive, is not written out, because collected earnings are positive and the check cannot fire.
- MoneyTheorems.AbsorbingStatuses: SUCCEEDED and REFUNDED are absorbing as a set; the code lets a webhook turn REFUNDED back into SUCCEEDED.
- Earnings.ApplyRefundKeeps: after PAID_OUT only the invariant is stated, not proportionality; the base of later adjustments grows with each one.
- Desk.BookingDesk.RescheduleAppointment: moving onto a time that overlaps the booking's own old block is refused, as in the code, because the slot list does not leave the booking out.
- Conversation.Chat.RouteMessage: trimming and lower-casing the text and outbound messages are not modelled; current_flow and the texts shown are left out because nothing reads them.
- ConversationRuns.Inbox.ProcessMessages: the deliveries of one customer; whether the sender resolves to that customer and whether the rate limit allows the message are inputs.
- Conversation.Chat.ConfirmBooking: the booking call's outcome is an input here; `ChannelBookings.ButtonsBookTheSlot` takes it from the booking call itself.
- Conversation.Chat.ConfirmReschedule: the same; `ChannelBookings.ButtonsMoveTheBooking` takes it from the reschedule call.
- Conversation.Chat.ConfirmCancel: the same; `ChannelBookings.ButtonsCancelTheBooking` takes it from the cancel call.
- ChannelBookings.ButtonsBookTheSlot: (and ChannelBookings.ButtonsMoveTheBooking) the tables stay the same between the presses.
- Texts.IntTextParses: Python also accepts spaces, underscores and other digits in `int`, and other ISO forms of a date; ids with them are not emitted and the model's parser calls them malformed.
- The Redis limiter: the fallback store is modelled, with times as real numbers.
- Hashing of idempotency payloads: hashes are compared for equality.
- One table of appointments: money (`Books`) sees a booking's provider, start and status, the calendar its times and rows, the conversation the rows of upcoming ones; each reads its own view, and only `ChannelBookings` joins two of them.
- COMPLETED and NO_SHOW transitions: no code performs them.
- Catalogue editing, migrations, slugs, phone numbers, reminders and customer de-duplication: easy or unrelated.
