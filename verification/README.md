# Verification of the booking API

A model, in Dafny, of the transactions, protocols and algorithms of the booking API under
`booking-app/apps/api`, with proofs of what they are for. `dafny verify dfyconfig.toml` checks all of it.

## What is modelled

The database is a value of eight tables (`Records.Db`), and each service transaction is two things: a
function from the state it finds to the state it commits (or an error, which leaves nothing behind),
and a method of the same steps over a `Database` object, proved to do what the function says. On top
of the functions:

- **Operations** runs the transactions of reserving, paying, expiring, cancelling, rescheduling, refunding
  and closing out in any order and proves what every run keeps: status histories, one confirmation per
  booking, the refund ledger, and reschedule chains with their money on one root. **ManagementLinks** adds
  what becomes of the links customers are sent, by confirmations, moves and reminders. **Effects** says of each
  transaction, in terms of the tables, exactly when it commits and what it comes to, and **Journeys** that runs
  get where they should: every permitted transition, a payment that arrives, money that comes back.
- **StaleReads** takes approvals of reschedules and firings of reminders apart into a read and a late write, and
  **SettlementRaces** takes settlements apart into adding up and overwriting, any number of them at once.
- **RefundWorld** puts the ledger next to a payment provider. Messages stay on the wire for good, so lost
  answers, retries, duplicates and reordering are all runs of the model, and so are workers that give up.
  **RefundDelivery** is what the provider's word then does to a pending refund.
- **ExpiryWorld** splits the second phase of expiry into a read, a question and a decision, taken by any
  number of workers beside checkouts, payments and webhooks; **PaidSessions** is what a paid session's webhook does.
- **Calendar** and **CalendarLocks** take the per-employee lock, the check, the write and the commit apart,
  for any number of transactions and any lock hash. **CalendarExclusive** and **CalendarLeave** prove what that
  is worth for appointments, blocked time and leave, **CalendarWorks** says it by what was asked for rather than
  by what is stored, and **SnapshotWindow** shows that the check reads enough.
- **Csv**, **Keyset**, **LedgerMerge** and **LedgerExport** are the export: printing and parsing, paging, and
  the lazy merge; **LedgerContents** says what the file tells of the three tables. **Reminders**, **Keys** and **Notifications** are the bounded rebuild, the keys, and the
  claim protocol. **TenantGuard** is the query guard with a meaning for the filters it classifies, and
  **TenantAcceptance** what it lets through and what an accepted call does.
  **Sessions** and **AccountUpdates** are the revocation index and the timestamp-guarded account update.
- **RefundRuns**, **ExpiryRuns**, **CalendarRuns** and **LateRuns** are concrete runs that go wrong.

## What the model takes for granted

- Each transaction is atomic, but for the ones **StaleReads**, **SettlementRaces**, **ExpiryWorld**,
  **Calendar** and **Notifications** take apart. What is said of **Operations** and **RefundWorld** holds of the
  code where these say so: approvals land in time, and settlements of one payment count each other.
- The provider answers a repeated idempotency key with the original refund or the original rejection, a
  rejection creates nothing, and a refund leaves `pending` at most once. A checkout session is opened for
  one booking and only moves forward.
- Ids, idempotency keys and session ids are fresh where the code draws them at random. The uniqueness and
  CHECK constraints of the migrations are part of the transactions.
- Ids sort in the database as `localeCompare` sorts them, and the tables do not change while an export or a
  reminder rebuild reads them.
- Money is in integer cents of one currency, and time is one clock that does not run backwards.

## Where the code falls short of its own description

- `calendar-lock.ts` calls a hash collision slower but never wrong. Exclusivity does hold under any
  collision (`CalendarExclusive.TimeIsGivenOnce`), but sorted acquisition deadlocks when two ids share a key across
  one that sorts between them; `CalendarLocks.DeadlockFreeIffConvex` is the exact condition.
- `availability-admin.service.ts` says approving leave later goes through the same check. `updateTimeOff`
  decides whether to check from a status read before the lock. `CalendarLeave.LeaveIsRespectedIff` is the exact
  condition on a run, and `CalendarRuns.StaleDecisionOverbooks` a run that puts an appointment on approved leave.
- `refund.service.ts` recomputes a payment's total under a lock on the refund row only. When settlements of one
  payment overlap, the books balance if and only if the total written last counted every success
  (`SettlementRaces.TotalIsRightIff`, `SettlementRaces.RacesKeepLedgerIff`);
  `SettlementRaces.OverlappingSettlementsDrift` is a charge that drifts.
- `reschedule.service.ts` reads the booking it approves without a row lock, and the cancellations lock only the
  booking. `StaleReads.ApprovalsAreSafeIffInTime` is the exact condition on a run, and
  `LateRuns.LateApprovalUndoesCancellation` a customer's cancellation, fully refunded, that an approval
  rewrites and replaces with a confirmed booking.
- `management-token.service.ts` revokes every link to a booking that is moved. `reminder.service.ts` looks at the
  booking before the transaction that mints its link and does not look again.
  `StaleReads.LinksAreSafeIffInTime` is the exact condition, and `LateRuns.LateReminderLeavesALink` a run in
  which a link to the old appointment works.
- `execute` in `refund.service.ts` records an accepted answer inside the `try` whose `catch` fails the row for
  every error `isRetryableStripeError` (`providers/payment/stripe.errors.ts:45-60`) does not list: a database
  timeout while recording, or an error that is not recognised, fails a refund the provider has made or will make.
  `RefundWorld.GivingUpIsSafeIffDead` says exactly when that is harmless, `RefundWorld.NothingIsLostIffSound` when a
  run can no longer lose anything, `RefundWorld.NeverRefundsMoreThanPaid` bounds what it can lose, and
  `RefundRuns.GivingUpRefundsTwice` is a charge refunded twice.
- A booking can expire although a session of its own was paid, in three ways: `booking-checkout.service.ts`
  attaches a session whatever the status, `expiry.service.ts` does not ask about a session that was never
  attached, and it gives up one that completed unpaid. `ExpiryWorld.PaidSessionIsLostIff` and
  `ExpiryWorld.UnattachedIsLostIff` are the exact conditions, `ExpiryWorld.AttachingIsSafeIffInTime` the exact
  guard for attaching, and each way has a run that shows it. A check for PENDING_PAYMENT before attaching is
  enough for the first (`ExpiryWorld.ExpiredOnlyUnpaid`).
- `notification.service.ts` calls DELIVERED and FAILED terminal, and guards delivery reports accordingly; a
  sender records its outcome without a guard. `Notifications.SettledIsFinalIff` is the exact condition, and
  `Notifications.DeliveredIsOverwritten` a run that breaks it.
- `dedupe-key.ts` lets a discriminator `-` stand for an absent one (`Keys.DedupeKeyIsFaithful`).

## Model

| member | source | states |
|---|---|---|
| BookingStatuses.TransitionsDescend | booking-app/apps/api/src/booking/booking-status.machine.ts:16-91 | every permitted transition drops a rank, and the terminal statuses are exactly those with no way out and exactly those that free the employee |
| BookingStatuses.HistoryIsShort | booking-app/apps/api/src/booking/booking-status.machine.ts:41-81 | a status history is at most four rows: a booking moves at most three times after it was created, fewer the further along it is |
| BookingStatuses.HistoryNeverReturns | booking-app/apps/api/src/booking/booking-status.machine.ts:16-60 | along a history no status comes back, and everything but the last row was blocking: nothing leads from a non-blocking status to a blocking one |
| Refunds.ReserveInTransaction | booking-app/apps/api/src/payment/refund.service.ts:167-247 | reserving does to the tables exactly what `Reserve` says, and leaves them as they were on every refusal |
| Refunds.RecomputePaymentTotals | booking-app/apps/api/src/payment/refund.service.ts:473-499 | the payment's total becomes the sum of its settled refunds, and nothing else of any payment moves |
| Refunds.ApplySettlement | booking-app/apps/api/src/payment/refund.service.ts:402-465 | settling does exactly what `Settle` says: only a pending refund moves, its payment is recomputed, success is announced |
| Refunds.ApplyProviderUpdate | booking-app/apps/api/src/payment/refund.service.ts:369-392 | a webhook settles the row it matches by provider id or stored key, and one that matches nothing changes nothing |
| Refunds.PendingIsSettled | booking-app/apps/api/src/payment/refund.service.ts:402-499 | settling a pending refund gives its row the outcome and the provider's id, raises its payment's total by its amount if and only if it succeeded, with the status that total implies, and moves no other row or payment |
| Refunds.WebhookSettlesItsRow | booking-app/apps/api/src/payment/refund.service.ts:369-465 | a webhook whose handle leads to one row settles it by the reported outcome if it is pending, and otherwise changes nothing |
| Refunds.ReserveKeepsLedger | booking-app/apps/api/src/payment/refund.service.ts:167-247 | a reservation keeps settled plus pending refunds within the charge |
| Refunds.SettleKeepsLedger | booking-app/apps/api/src/payment/refund.service.ts:402-567 | a settlement keeps the refunded total equal to the settled refunds, within the charge, with the status those amounts imply |
| Refunds.TargetRaisesCommitted | booking-app/apps/api/src/payment/refund.service.ts:256-268 | a cumulative target raises the committed total to max(committed, min(target, amount)), moves exactly the difference, and touches no other payment |
| Refunds.TargetRepeats | booking-app/apps/api/src/payment/refund.service.ts:249-268 | stating the same target again moves nothing |
| Refunds.TargetsCommute | booking-app/apps/api/src/payment/refund.service.ts:249-268 | two targets reach the same total in either order |
| Refunds.AdditionalIsExact | booking-app/apps/api/src/payment/refund.service.ts:185-232 | an additional amount is accepted if and only if it is positive and fits the balance, and is then added exactly |
| SettlementRaces.TotalIsRightIff | booking-app/apps/api/src/payment/refund.service.ts:402-499 | after any number of settlements that overlap in any way, with reservations between them, a payment's refunded total is what went back if and only if the total written last counted every refund that has succeeded; it is never too high |
| SettlementRaces.RacesKeepLedgerIff | booking-app/apps/api/src/payment/refund.service.ts:402-499 | over a whole run of overlapping settlements and reservations the ledger balances at every step if and only if at every step the total written last counted every success |
| SettlementRaces.OverlappingSettlementsDrift | booking-app/apps/api/src/payment/refund.service.ts:402-499 | a run in which two refunds of one charge succeed, one is forgotten, and a third beyond the charge is accepted and set aside |
| Financials.LoadWithClient | booking-app/apps/api/src/payment/booking-financials.service.ts:138-146 | the single read answers with the money of the booking's root, or not found |
| Financials.ReadRoots | booking-app/apps/api/src/payment/booking-financials.service.ts:154-192 | one pass per table groups every row onto its root: each requested root gets exactly its payments, cash and refunds, in table order |
| Financials.LoadMany | booking-app/apps/api/src/payment/booking-financials.service.ts:104-135 | the batched read answers for each booking exactly what the single read would, and an unknown booking fails the page |
| Financials.LifetimeCountsEachMovementOnce | booking-app/apps/api/src/office/customers.service.ts:96-107 | a list of bookings is worth exactly the movements on the roots it reaches, each counted once |
| Financials.ChainAddsNothing | booking-app/apps/api/src/office/customers.service.ts:96-107 | naming another booking of a chain, or one twice, adds nothing |
| Financials.ChainReportsOneAccount | booking-app/apps/api/src/payment/booking-financials.service.ts:69-80 | a replacement and what it replaced report the same money, on a root without a root of its own |
| Financials.MoneyIsConserved | booking-app/apps/api/src/office/received.ts:37-65 | summed once per root, the books come to all received card rows plus all cash minus all settled refunds |
| Bookings.InsertReservation | booking-app/apps/api/src/booking/reservation.service.ts:525-636 | a reservation writes its row, its first history row and its outbox event as `ReserveSlot` says, for a customer and for the office |
| Bookings.AttachSession | booking-app/apps/api/src/booking/booking-checkout.service.ts:120-198 | attaching names the session and opens one payment row as `Attach` says, or changes nothing |
| Bookings.AttachIsRepeatable | booking-app/apps/api/src/booking/booking-checkout.service.ts:107-198 | attaching the same session again changes nothing; another one is refused |
| Effects.ReservationIsAsAsked | booking-app/apps/api/src/booking/reservation.service.ts:525-636 | a reservation is one new blocking booking on the asked terms, outside any chain: a customer's waits until its expiry, the office's is confirmed with one link; no money and no other booking or history moves |
| Effects.AttachOpensPayment | booking-app/apps/api/src/booking/booking-checkout.service.ts:120-198 | a session is attached if and only if it is free for the booking, and then the session has a payment of the booking's price on it, the one that was there or a pending one, and nothing else moved |
| Bookings.UpsertPayment | booking-app/apps/api/src/booking/booking-confirmation.service.ts:215-249 | the payment row of a session is brought up to date, or created if the session has none |
| Bookings.ConfirmOnce | booking-app/apps/api/src/booking/booking-confirmation.service.ts:103-205 | confirming does exactly what `Confirm` says, with all its side effects or none |
| Effects.ConfirmationAnswers | booking-app/apps/api/src/booking/booking-confirmation.service.ts:103-205 | a confirmation takes effect if and only if the booking still waits, the amount is positive, and session and charge are nobody else's; a confirmed or terminal booking is answered without a change |
| Effects.ConfirmationPaysItsSession | booking-app/apps/api/src/booking/booking-confirmation.service.ts:215-249 | after it the session's one payment row is SUCCEEDED with the reported amount and charge, updated if it was there and opened if not, and every other payment is as it was |
| Effects.ConfirmationBringsTheMoney | booking-app/apps/api/src/booking/booking-confirmation.service.ts:215-249 | what the booking's root received rises by exactly the amount, no other root's total moves, and a refund finds a payment there |
| Bookings.MarkPaymentFailed | booking-app/apps/api/src/booking/booking-confirmation.service.ts:258-326 | only a booking still waiting is failed, and only its payments that are still pending |
| Effects.FailureIsNarrow | booking-app/apps/api/src/booking/booking-confirmation.service.ts:258-326 | a failure is recorded if and only if the booking is still PENDING_PAYMENT: the booking has failed, so have exactly its pending payments, and nothing else moved |
| Bookings.BeginExpiry | booking-app/apps/api/src/booking/expiry.service.ts:63-119 | phase one moves a due reservation to EXPIRING and leaves everything else alone |
| Bookings.Release | booking-app/apps/api/src/booking/expiry.service.ts:190-233 | phase two's release moves a booking only while it is still EXPIRING |
| Bookings.SettleAttendance | booking-app/apps/api/src/booking/attendance.service.ts:91-170 | completing waits for the end and a no-show for the start of the appointment, and only a confirmed booking is closed out |
| Effects.LifecycleMovesIff | booking-app/apps/api/src/booking/expiry.service.ts:63-233 | expiry begins if and only if the booking is unpaid and due, the release ends exactly an expiring one, and a close-out commits if and only if the booking is confirmed and its time has come; each moves that booking alone, by one history row |
| Cancellations.CancelInTransaction | booking-app/apps/api/src/booking/cancellation.service.ts:138-208 | cancelling, reserving what goes back and announcing it commit together or not at all |
| Cancellations.ApprovalSettlesAccount | booking-app/apps/api/src/booking/cancellation.service.ts:382-450 | an approved cancellation raises the committed total to what was paid minus what is kept, capped by the charge; it is refused if and only if the retained amount is out of range, the booking is not confirmed, or money would move without the capability |
| Effects.BusinessCancelsIff | booking-app/apps/api/src/booking/cancellation.service.ts:459-552 | the business cancels if and only if the booking is confirmed and an amount above zero fits the balance and is allowed; exactly that amount becomes one pending refund, and none without it |
| Effects.CustomerCancelsIff | booking-app/apps/api/src/booking/cancellation.service.ts:138-208 | the customer cancels if and only if the booking is confirmed, and what was paid and is not on its way back becomes one pending refund, capped by the charge |
| Effects.RefundIsRequestedIff | booking-app/apps/api/src/payment/refund.service.ts:167-247 | a refund is asked for if and only if it is positive, within the balance and under a fresh key; it becomes one pending row of the root's first payment with a balance, and the job that sends it |
| Effects.RefundComesOutOfTheFirst | booking-app/apps/api/src/payment/refund.service.ts:502-540 | a refund comes out of the root's first payment whose money arrived and is not all gone back, and finds none if and only if there is none |
| Effects.SettlementPaysOut | booking-app/apps/api/src/payment/refund.service.ts:402-499 | a refund that settles as succeeded takes its amount from what its root kept, and from no other root |
| Cancellations.ApproveReschedule | booking-app/apps/api/src/booking/reschedule.service.ts:250-410 | approving a move inserts the replacement, cancels the original and rotates the link as `Reschedule` says, or changes nothing |
| Cancellations.MoveKeepsTerms | booking-app/apps/api/src/booking/reschedule.service.ts:291-434 | a move keeps length, price and money, leaves exactly one of the two blocking, and moves the link |
| Effects.MovesIff | booking-app/apps/api/src/booking/reschedule.service.ts:250-410 | a move commits if and only if the booking is confirmed and was not replaced; both histories tell it, and the replacement names the booking and its root |
| Cancellations.RecordManualPayment | booking-app/apps/api/src/payment/manual-payment.service.ts:43-118 | cash is recorded on the financial root, and refused for a booking that never became one |
| Cancellations.CashIsReceivedOnce | booking-app/apps/api/src/payment/manual-payment.service.ts:78-92 | cash recorded anywhere in a chain is received exactly once, on its root |
| Effects.CashIsRecordedIff | booking-app/apps/api/src/payment/manual-payment.service.ts:43-118 | cash is recorded if and only if it is not zero and the booking was not given up unpaid, and nothing else moves |
| Operations.ApplyKeeps | booking-app/apps/api/src/booking/cancellation.service.ts:459-552 | each of the seventeen transactions keeps ledger, histories, confirmations, sessions and chains at once |
| Operations.HistoryTellsTheStatus | booking-app/apps/api/src/booking/booking-confirmation.service.ts:153-187 | after any run each booking's history is a run of the status machine ending in its status, it has an expiry exactly while it waits for money, and it moved at most three times |
| Operations.ConfirmationHappensOnce | booking-app/apps/api/src/booking/booking-confirmation.service.ts:103-249 | after any run at most one announcement and one payment row per session; the management tokens of a booking are one if its history passed CONFIRMED, plus one for each firing of a reminder that queued a message; confirming again changes nothing |
| Operations.ConfirmationNeverRewritesPaid | booking-app/apps/api/src/booking/booking-confirmation.service.ts:215-249 | after any run no confirmation rewrites a payment whose money arrived or that has refunds |
| Operations.DecidedForGood | booking-app/apps/api/src/booking/booking-confirmation.service.ts:103-205 | however a run goes on, late payments, releases and second settlements included, a booking keeps its terminal status and a settled refund its row |
| Operations.NothingBeforeItsTime | booking-app/apps/api/src/booking/attendance.service.ts:52-155 | after any run whose clock has not passed a moment, by then a completed booking has ended, a no-show has begun and an expiring one has run out |
| Journeys.EveryTransitionIsTaken | booking-app/apps/api/src/booking/booking-status.machine.ts:16-60 | in every reachable state each transition the table permits is taken by some transaction |
| Journeys.PaidSessionArrives | booking-app/apps/api/src/booking/booking-confirmation.service.ts:103-249 | in every run, reporting the session a booking waits on as paid confirms it, and the reported amount is received on it and nowhere else |
| Journeys.MoneyComesBack | booking-app/apps/api/src/booking/cancellation.service.ts:138-208 | from every reachable state: paid, cancelled free of charge, refund reported; the payment is REFUNDED whole and every root has kept what it had before |
| Journeys.AppointmentMoves | booking-app/apps/api/src/booking/reschedule.service.ts:250-410 | a confirmed appointment can always be moved, at the same price, and no root gains or loses by it |
| Journeys.RequestIsApproved | booking-app/apps/api/src/booking/cancellation.service.ts:382-450 | as one of the transactions runs are made of, an approval sets aside what is owed, or changes nothing |
| Journeys.ReservationWaits | booking-app/apps/api/src/booking/reservation.service.ts:525-636 | and so for the other transactions: a customer's reservation waits to be paid at the asked price |
| Journeys.SessionIsAttached | booking-app/apps/api/src/booking/booking-checkout.service.ts:120-198 | a session nobody used is attached to a booking that waits, with a pending payment at its price |
| Journeys.CashCounts | booking-app/apps/api/src/payment/manual-payment.service.ts:43-118 | cash raises what the root of its booking kept, by exactly the amount, unless the booking was given up unpaid |
| Journeys.RefundIsAskedFor | booking-app/apps/api/src/payment/refund.service.ts:126-247 | a refund within the balance becomes one pending row under its key |
| Journeys.OutcomeSettles | booking-app/apps/api/src/payment/refund.service.ts:369-465 | a reported outcome settles a pending refund, whether a worker or a webhook brings it |
| Journeys.ReminderIsQueued | booking-app/apps/api/src/notification/reminder.service.ts:165-257 | a reminder whose appointment stands leaves its messages queued |
| Operations.BooksAlwaysBalance | booking-app/apps/api/src/payment/refund.service.ts:402-567 | after any run the refunded total is the sum of the settled refunds, settled plus pending stays within the amount, and the status is the one those sums imply |
| Operations.MoneyAlwaysConserved | booking-app/apps/api/src/office/customers.service.ts:96-107 | after any run money summed once per root is all the money there is |
| Operations.ChainsStayLinear | booking-app/apps/api/src/booking/reschedule.service.ts:291-334 | after any run chains are linear and flat, what was replaced is cancelled, and at most one booking of a chain is blocking |
| StaleReads.ApprovalsAreSafeIffInTime | booking-app/apps/api/src/booking/reschedule.service.ts:250-410 | approval reads its booking without a row lock and writes later: in every run the histories stay runs of the machine and what was decided stays decided at every step, if and only if each approval that lands finds its booking still CONFIRMED |
| StaleReads.InTimeKeepsAll | booking-app/apps/api/src/booking/reschedule.service.ts:250-410 | a run whose approvals land in time keeps ledger, histories, confirmations, sessions and chains, late reminders included |
| StaleReads.LateUndoesDecision | booking-app/apps/api/src/booking/reschedule.service.ts:324-334 | an approval that lands undoes what was decided about the booking if and only if that was terminal and not a cancellation by the business |
| LateRuns.LateApprovalUndoesCancellation | booking-app/apps/api/src/booking/reschedule.service.ts:259-358 | a run: the customer cancels and the full refund is set aside, then the approval lands, the cancellation is rewritten and a replacement is CONFIRMED |
| ManagementLinks.LinksWorkUntilMoved | booking-app/apps/api/src/manage/management-token.service.ts:87-112 | after any run of whole transactions a link is revoked if and only if its booking was replaced, whether a confirmation, a move or a reminder issued it |
| StaleReads.LinksAreSafeIffInTime | booking-app/apps/api/src/notification/reminder.service.ts:165-257 | a reminder looks at its booking before its transaction: in every run, late approvals included, no link ever works for a replaced booking if and only if each reminder that queues a message finds its booking not replaced since |
| LateRuns.LateReminderLeavesALink | booking-app/apps/api/src/notification/reminder.service.ts:165-257 | a run: the booking is moved after the reminder looked at it, and a link to the old appointment works |
| ReminderFiring.FireReminder | booking-app/apps/api/src/notification/reminder.service.ts:165-257 | firing does to the tables what `Fire` says: it skips what is no longer so, queues what is not queued yet with a new link, and leaves no link when nothing was queued |
| ReminderFiring.FiringQueuesWhatIsMissing | booking-app/apps/api/src/notification/reminder.service.ts:165-257 | a firing that finds the appointment as its job says leaves its email queued, and its text message if texts are sent; each new message is handed over once, with one link; any other firing changes nothing |
| ManagementLinks.RemindersAreQueuedOnce | booking-app/apps/api/src/notification/reminder.service.ts:198-254 | after any run each firing that is counted queued a message, and a booking, offset and time had at most one email and one text message |
| ManagementLinks.RedeliveryChangesNothing | booking-app/apps/api/src/notification/reminder.service.ts:245-251 | a firing that is delivered again after any continuation changes nothing, and leaves no link |
| RefundWorld.LiveRefundHasOneRow | booking-app/apps/api/src/payment/refund.service.ts:276-465 | in every interleaving with lost answers, retries, reordered webhooks and workers that give up, a provider refund carries the key of exactly one local refund with its amount and charge, and no row says SUCCEEDED unless the provider does; while nobody gave up on a refund that could still be made, the row of a live one is PENDING or SUCCEEDED |
| RefundWorld.NeverRefundsMoreThanPaid | booking-app/apps/api/src/payment/refund.service.ts:167-465 | in every interleaving: booked as refunded <= sent <= sent or on its way <= committed plus what giving up too early lost, and committed <= the payment's amount; nothing is lost unless somebody gave up on a refund that could still be made |
| RefundWorld.NothingIsLostIffSound | booking-app/apps/api/src/payment/refund.service.ts:309-358 | after any run, whoever gave up on what: no future in which nobody else gives up too early loses a refund, if and only if the provider is done with every refund recorded as failed |
| RefundWorld.GivingUpIsSafeIffDead | booking-app/apps/api/src/payment/refund.service.ts:309-358 | failing a pending refund whose call is out loses no refund in any future if and only if the provider rejected its key or failed its refund by then |
| RefundRuns.GivingUpRefundsTwice | booking-app/apps/api/src/payment/refund.service.ts:331-355 | the run that shows it: an accepted answer cannot be recorded, the catch fails the row, and two hundred go back on a charge of one hundred |
| RefundWorld.WebhookFindsOwner | booking-app/apps/api/src/payment/refund-webhook.handler.ts:54-85 | whichever handle a webhook matches by, it finds the row the refund was made for |
| RefundWorld.SettlementKeeps | booking-app/apps/api/src/payment/refund.service.ts:394-465 | settling with anything the provider reported, in any order, keeps the two sides in agreement |
| RefundWorld.AcceptKeeps | booking-app/apps/api/src/payment/refund.service.ts:310-342 | a call taken under a stored key makes a record owned by the row that called |
| RefundDelivery.ReportSettlesItsOwner | booking-app/apps/api/src/payment/refund.service.ts:369-465 | in every interleaving an answer or webhook that leads to a pending refund gives it the reported outcome and the provider's id, and nothing else moves |
| RefundDelivery.RoundSettles | booking-app/apps/api/src/payment/refund.service.ts:276-358 | in every run one undisturbed round settles a refund nobody called about by what the provider decides, by answer or by webhook, and as failed when it refuses or there is no charge |
| RefundDelivery.RetryFindsItsRecord | booking-app/apps/api/src/payment/refund.service.ts:309-342 | a retried call is answered for the record the first one made, and makes no second one |
| RefundDelivery.EarlyWebhookMovesNothing | booking-app/apps/api/src/payment/refund.service.ts:369-392 | a webhook without a key that comes before the row stores the provider's id moves nothing |
| RefundDelivery.IssuedByHandIsNobodys | booking-app/apps/api/src/payment/refund.service.ts:380-391 | a refund issued in the provider's own dashboard belongs to no row |
| ExpiryWorld.ExpiredOnlyUnpaid | booking-app/apps/api/src/booking/expiry.service.ts:132-187 | in every run, with any number of workers, that attaches sessions only to bookings still PENDING_PAYMENT, an EXPIRED booking with a session was closed or completed unpaid at the provider |
| ExpiryWorld.PaidSessionIsLostIff | booking-app/apps/api/src/booking/expiry.service.ts:145-187 | in every reachable state an EXPIRING booking whose attached session was paid can lose its appointment in a step if and only if some worker read it without a session or was told that the session completed unpaid |
| ExpiryWorld.UnattachedIsLostIff | booking-app/apps/api/src/booking/expiry.service.ts:145-151 | and one without an attached session, whatever was paid into another, if and only if some worker read just that |
| ExpiryWorld.AttachingIsSafeIffInTime | booking-app/apps/api/src/booking/booking-checkout.service.ts:120-198 | attaching an open session can lose a payment made in time, in some future, if and only if the booking is EXPIRED or some worker holds a read of it without a session; neither is so while it is PENDING_PAYMENT |
| ExpiryWorld.UnpaidIsNeverFinal | booking-app/apps/api/src/booking/expiry.service.ts:179-187 | a booking let go because its session completed unpaid can still be paid for afterwards |
| ExpiryWorld.BlockedUntilDecided | booking-app/apps/api/src/booking/expiry.service.ts:121-187 | an expiring booking stays blocking until a confirmation for a paid session of its own, or a decision from an answer that says unpaid or a read without a session |
| ExpiryWorld.RoundDecides | booking-app/apps/api/src/booking/expiry.service.ts:132-277 | from every reachable state one undisturbed round settles an expiring booking, CONFIRMED if and only if its session was paid |
| ExpiryWorld.ResolvesToOwner | booking-app/apps/api/src/booking/processors/stripe-event.processor.ts:331-350 | a session's event resolves to the booking the session was opened for |
| PaidSessions.PaidWebhookConfirms | booking-app/apps/api/src/booking/processors/stripe-event.processor.ts:331-350 | in every run the webhook about a paid session confirms and pays the open booking it was opened for, named yet or not, and one about an unpaid session moves nothing |
| ExpiryRuns.LateAttachLosesPaidBooking | booking-app/apps/api/src/booking/booking-checkout.service.ts:138-158 | a run in which a session attached late is paid and its booking expires |
| ExpiryRuns.NeverAttachedLosesPaidBooking | booking-app/apps/api/src/booking/expiry.service.ts:145-151 | a run in which a session is paid that was opened and never attached, and its booking expires |
| ExpiryRuns.AsynchronousPaymentLosesBooking | booking-app/apps/api/src/booking/expiry.service.ts:179-187 | a run in which a session completes unpaid, its booking is given up, and the payment arrives |
| ExpirySweeper.SweepOverdue | booking-app/apps/api/src/booking/expiry.sweeper.ts:60-88 | a sweep over a list that may be stale or repeat itself begins expiry for exactly the bookings still overdue, once each, and counts them |
| CalendarLocks.TakeAll | booking-app/apps/api/src/booking/calendar-lock.ts:24-43 | the acquisition loop gets through if and only if no other transaction holds any of the keys, and then holds them all |
| CalendarLocks.EndingFreesItsLocks | booking-app/apps/api/src/booking/calendar-lock.ts:24-43 | a transaction that ends gives back all of its locks and nobody else's |
| CalendarLocks.WaitedForGrows | booking-app/apps/api/src/booking/calendar-lock.ts:29-40 | along a chain of waiting transactions the id waited for grows, when ids that share a key share it with all in between |
| CalendarLocks.DeadlockFreeIffConvex | booking-app/apps/api/src/booking/calendar-lock.ts:24-43 | no run of any number of transactions has a wait cycle if and only if no two ids in play share a key across one that sorts between them |
| CalendarLocks.DistinctKeysNeverDeadlock | booking-app/apps/api/src/booking/calendar-lock.ts:19-43 | in particular with distinct keys there is never a wait cycle |
| CalendarLocks.SharedKeyDeadlocks | booking-app/apps/api/src/booking/calendar-lock.ts:33-38 | a collision across an id in between lets two transactions wait for each other |
| CalendarExclusive.TimeIsGivenOnce | booking-app/apps/api/src/booking/reservation.service.ts:506-581 | with lock, check, write and commit as separate steps of any number of transactions and any lock hash, blocking appointments of one employee never overlap each other or blocked time |
| CalendarWorks.WorksTakeTimeOnce | booking-app/apps/api/src/booking/reservation.service.ts:506-581 | in every interleaving, no instant lies in the time, buffers included, that two committed works asked for on one employee, as long as one still blocks and the other does or is blocked time not deleted |
| CalendarWorks.WorksAndRowsAgree | booking-app/apps/api/src/booking/reservation.service.ts:541-562 | in every interleaving each committed reservation, move, blocked time and leave has a row with its employee and the very times it asked for, and works and rows answer to each other one to one |
| CalendarWorks.CommitAnswers | booking-app/apps/api/src/booking/reservation.service.ts:541-562 | a commit writes its one row, with the status asked for, cancels what it replaces, and moves no other row |
| CalendarWorks.UndisturbedWorkCommitsIff | booking-app/apps/api/src/booking/reservation.service.ts:506-581 | a work whose locks are free and that nobody comes between commits if and only if the time it asks for meets nothing that was given away before |
| CalendarWorks.AbortLeavesNothing | booking-app/apps/api/src/booking/reservation.service.ts:506-581 | a transaction that gives up takes nothing and holds nothing, and one that is over stays as it is |
| CalendarWorks.ReleaseFreesItsTime | booking-app/apps/api/src/booking/booking-status.machine.ts:64-91 | an appointment that stops blocking, and blocked time that is deleted, free what they took and nothing else |
| CalendarLeave.LeaveIsRespectedIff | booking-app/apps/api/src/office/availability-admin.service.ts:258-305 | in every interleaving no blocking appointment ever starts on approved leave if and only if every approval judged as already approved found the leave still approved, or its days free, when it committed |
| CalendarLeave.EffectRespectsLeaveIff | booking-app/apps/api/src/office/availability-admin.service.ts:258-305 | a commit that was checked keeps leave free of appointments if and only if it is no such approval, or a sound one |
| CalendarExclusive.EffectKeepsExclusive | booking-app/apps/api/src/booking/reschedule.service.ts:209-334 | committing what was checked keeps the calendar exclusive, for reservations, moves, blocked time and leave |
| CalendarExclusive.CommitKeeps | booking-app/apps/api/src/office/availability-admin.service.ts:109-147 | a commit leaves every other transaction's check true: nobody else holds the employee's key |
| CalendarExclusive.StatusKeeps | booking-app/apps/api/src/booking/booking-status.machine.ts:41-60 | status changes without the calendar lock keep it exclusive, because none leads back to blocking |
| CalendarRuns.StaleDecisionOverbooks | booking-app/apps/api/src/office/availability-admin.service.ts:258-305 | the run that puts an appointment on approved leave, whatever the hash |
| SnapshotWindow.LoadBusy | booking-app/apps/api/src/public/availability-snapshot.service.ts:383-428 | for each employee the appointments that count and the blocked time in the window, in that order, and nobody else's |
| SnapshotWindow.WindowIsEnough | booking-app/apps/api/src/public/availability-snapshot.service.ts:186-210 | the padded window gives the same answer as everything, for every slot and whatever is booked, if and only if the buffers fit the slack beside the zone's offset |
| SnapshotWindow.ServicesFitTheWindow | booking-app/apps/api/src/public/availability-snapshot.service.ts:149-210 | the durations and buffers the database allows fit, for offsets from -12 to +14 hours |
| SnapshotWindow.SnapshotSeesTheCalendar | booking-app/apps/api/src/public/availability-snapshot.service.ts:383-428 | what is loaded finds a slot clear exactly when no blocking appointment and no blocked time overlaps its block |
| Csv.FileReadsBack | booking-app/apps/api/src/office/csv.ts:66-81 | reading the concatenated lines by section 2 of RFC 4180 gives the neutralised cells row by row, whatever they contain, if and only if every row has a cell; a row of none reads as one empty cell |
| Csv.FileIsInert | booking-app/apps/api/src/office/csv.ts:25-57 | every cell read back starts with none of the characters a spreadsheet evaluates, or is just a negative number |
| Csv.NeutralisedIsInert | booking-app/apps/api/src/office/csv.ts:53-57 | neutralising defuses every value, changes exactly those that need it, and once is enough |
| Csv.NeutraliseConfusesOnly | booking-app/apps/api/src/office/csv.ts:53-57 | two values come out the same if and only if they are the same, or one is the other's quoted form |
| Csv.AmountReadsBack | booking-app/apps/api/src/office/csv.ts:83-95 | a printed amount reads back as the same cents for every integer, and neutralising leaves it alone |
| Keyset.FilterIsStrictlyAfter | booking-app/apps/api/src/office/cursor.ts:67-89 | the two-branch filter is lexicographic "strictly after" in the order of the page |
| Keyset.WalkIsSorted | booking-app/apps/api/src/office/cursor.ts:91-112 | however the table changes between pages, a walk returns rows strictly in order, only rows that were there |
| Keyset.WalkMissesNothing | booking-app/apps/api/src/office/cursor.ts:60-112 | a finished walk returned every row present for all its pages exactly once |
| Keyset.WalkOfOneTable | booking-app/apps/api/src/office/cursor.ts:91-112 | on a table that stands still a long enough walk is exactly the rows after the cursor, and it ends |
| LedgerMerge.Pager.Next | booking-app/apps/api/src/office/exports.service.ts:210-268 | a pager yields the rows of its ordered source one by one, whatever the page size |
| LedgerMerge.Pager.Fetch | booking-app/apps/api/src/office/exports.service.ts:218-267 | a page takes the next rows after the cursor; a short page is the last |
| LedgerMerge.Earliest | booking-app/apps/api/src/office/exports.service.ts:476-488 | the scan of the heads finds the one no other comes before, the first of them on a tie |
| LedgerMerge.Merge | booking-app/apps/api/src/office/exports.service.ts:465-496 | the loop over heads and pagers yields `Merged` of the sources and ends |
| LedgerMerge.MergedIsEverything | booking-app/apps/api/src/office/exports.service.ts:465-496 | merging loses and adds nothing |
| LedgerMerge.MergedIsInOrder | booking-app/apps/api/src/office/exports.service.ts:465-504 | merging ordered sources is ordered by time, id and kind |
| LedgerExport.Payments | booking-app/apps/api/src/office/exports.service.ts:178-208 | the export is exactly the in-range card, cash and refund movements, each once, in order, for any page size |
| LedgerExport.OnlyOneLedger | booking-app/apps/api/src/office/exports.service.ts:465-504 | a range has exactly one ledger: two lists of its movements in order are the same list |
| LedgerExport.LedgerReadsBack | booking-app/apps/api/src/office/exports.service.ts:182-207 | it prints to a file that reads back as the header and one record of ten neutralised cells per movement |
| LedgerExport.PaymentsFile | booking-app/apps/api/src/office/exports.service.ts:177-208 | for every page size the streamed file is the same: a byte-order mark, then a text that reads back as the header and the range's ledger |
| LedgerContents.ExportListsEachRowOnce | booking-app/apps/api/src/office/exports.service.ts:210-410 | every card row paid in the range, cash row noted in it and refund settled, or pending and asked for, in it has exactly one entry, with its id, kind and instant and all ten columns under their titles, and there is no other entry |
| LedgerContents.ExportAddsUp | booking-app/apps/api/src/office/exports.service.ts:210-410 | the amounts of the file, read back, sum to cards plus cash minus the refunds sent and on their way |
| LedgerContents.KindsSortByName | booking-app/apps/api/src/office/exports.service.ts:465-504 | entries of one moment and id are in the order of their kinds' names |
| LedgerExport.AmountsKeepTheirSign | booking-app/apps/api/src/office/exports.service.ts:385-410 | a refund's amount cell reads back as exactly minus its cents |
| Reminders.GroupByOrganization | booking-app/apps/api/src/notification/reminder.reconciler.ts:23-35 | one group per organization in the order they are first named, holding all of its bookings in theirs, repeats included |
| Reminders.ReminderReconciler.RunOnce | booking-app/apps/api/src/notification/reminder.reconciler.ts:74-171 | a rebuild ends, enqueues exactly min(500, missing) distinct missing jobs, and below the budget leaves none missing, so a second run finds nothing |
| Reminders.ReminderReconciler.RebuildPage | booking-app/apps/api/src/notification/reminder.reconciler.ts:95-163 | one page, group by group, adds only missing reminders and covers its bookings unless the budget is spent |
| Reminders.CoveredMeansAdded | booking-app/apps/api/src/notification/reminder.reconciler.ts:124-160 | once every booking is covered, what was added is all that was missing |
| Reminders.MissingIsWanted | booking-app/apps/api/src/notification/reminder.reconciler.ts:124-160 | what a rebuild counts as missing is every reminder of a listed booking, at an offset of its organization that lies ahead, named by the appointment's second, that is neither handled nor queued |
| Keys.ReminderNamesAreFaithful | booking-app/apps/api/src/notification/reminder.service.ts:43-45 | a reminder's job id, and the key it is remembered by, name one offset, booking and time |
| Keys.DedupeKeyIsFaithful | booking-app/apps/api/src/notification/dedupe-key.ts:20-27 | two messages share a key if and only if kind, channel, booking and discriminator agree, an absent one counting as a dash |
| Notifications.NotificationTable.Queue | booking-app/apps/api/src/notification/notification.service.ts:106-164 | a row is inserted unless its key is taken, and the answer says which |
| Notifications.NotificationTable.Claim | booking-app/apps/api/src/notification/notification.service.ts:200-211 | the conditional update claims only a PENDING row |
| Notifications.NotificationTable.Send | booking-app/apps/api/src/notification/notification.service.ts:175-291 | an undisturbed delivery calls the provider if and only if the row is PENDING, and leaves it sent, pending again or failed for good, and thrown for a retry, exactly as the answer was accepted, transient or permanent |
| Notifications.SendIsFourSteps | booking-app/apps/api/src/notification/notification.service.ts:175-291 | an undisturbed delivery is one run of the four steps senders take among each other, with one provider call |
| Notifications.NotificationTable.ApplyDeliveryStatus | booking-app/apps/api/src/notification/notification.service.ts:300-344 | a delivery report moves a row only if it finds it by the provider's id and it has not settled |
| Notifications.NotificationTable.ReleaseAndEnqueue | booking-app/apps/api/src/notification/notification.reconciler.ts:85-117 | after a sweep over an older list exactly the rows listed and still SENDING went back to PENDING, and each listed row has one job per window however often it is swept |
| Notifications.OneCallPerReturn | booking-app/apps/api/src/notification/notification.service.ts:175-291 | for any senders, redeliveries and sweeps: one row per key, and at most one provider call more than the row was returned to PENDING |
| Notifications.SettledIsFinalIff | booking-app/apps/api/src/notification/notification.service.ts:213-344 | in every reachable state a DELIVERED or FAILED row keeps its status in all futures if and only if no sender is still at work on it that may record another, and none is while it was never given back to PENDING |
| Notifications.DeliveredIsOverwritten | booking-app/apps/api/src/notification/notification.service.ts:213-291 | a sweep takes a slow sender for dead: the run in which a DELIVERED row becomes SENT again, with a second copy sent |
| TenantGuard.MatchingFilterIsOwn | booking-app/apps/api/src/prisma/tenant.extension.ts:117-149 | a filter classified as matching, at any depth of AND, holds only of the organization's own rows |
| TenantGuard.MatchingUniqueIsOwn | booking-app/apps/api/src/prisma/tenant.extension.ts:151-173 | so does a unique selector with the organization in a compound key |
| TenantGuard.AcceptedCreateIsOwn | booking-app/apps/api/src/prisma/tenant.extension.ts:193-259 | an accepted created row is the organization's own, by its id or by a relation that connects to it, and writes through no relation but `organization` |
| TenantGuard.AcceptedUpdateStays | booking-app/apps/api/src/prisma/tenant.extension.ts:276-288 | an accepted update keeps a row where it is and writes through no relation |
| TenantGuard.CallsStayInside | booking-app/apps/api/src/prisma/tenant.extension.ts:290-340 | any sequence of calls reads only the organization's rows and leaves every other organization's rows exactly as they were |
| TenantGuard.OptionalScopeIsRefused | booking-app/apps/api/src/prisma/tenant.extension.ts:133-149 | an organization named only inside OR is refused |
| TenantAcceptance.GuardAcceptsIff | booking-app/apps/api/src/prisma/tenant.extension.ts:290-340 | the guard accepts exactly the queries that ask for the organization by equality, directly, inside AND at any depth or in a compound key, and write no other organization and no other table |
| TenantAcceptance.PlainFilterIsAccepted | booking-app/apps/api/src/prisma/tenant.extension.ts:117-149 | the organization, as text or `equals`, beside any other fields is accepted, and means the rest, of own rows |
| TenantAcceptance.ScopeReachesUp | booking-app/apps/api/src/prisma/tenant.extension.ts:133-173 | a scoped clause inside AND scopes whatever stands around it, and a compound key scopes a unique selector |
| TenantAcceptance.RefusalSaysWhy | booking-app/apps/api/src/prisma/tenant.extension.ts:175-220 | a filter is refused as unscoped if no place that counts names an organization, and as a mismatch if one does |
| TenantAcceptance.ProperCallDoes | booking-app/apps/api/src/prisma/tenant.extension.ts:193-340 | an accepted call returns, changes or deletes exactly the picked own rows that satisfy its filter, in order, and creates its rows with the organization filled in; an upsert creates exactly when it finds none; any other call does nothing |
| Sessions.SessionStore.Create | booking-app/apps/api/src/auth/session.store.ts:107-132 | a new session is readable at once and named by its user's index, which outlives it |
| Sessions.SessionStore.Read | booking-app/apps/api/src/auth/session.store.ts:141-170 | a session is returned exactly while it is neither idle too long nor too old, and reading lets its idle time begin again |
| Sessions.SessionStore.Destroy | booking-app/apps/api/src/auth/session.store.ts:173-181 | one session ends and no other does |
| Sessions.SessionStore.DestroySessionsOf | booking-app/apps/api/src/auth/session.store.ts:183-222 | afterwards none of the user's sessions but the kept one can be read, then or later; the count is of those that were still there |
| AccountUpdates.Organization.Handle | booking-app/apps/api/src/organization/organization-webhook.handler.ts:50-124 | an event is applied unless the row shows a newer one |
| AccountUpdates.EndsWithNewest | booking-app/apps/api/src/organization/organization-webhook.handler.ts:72-113 | whatever the order, the row ends up as a newest event says |
| AccountUpdates.EndsWithLastInTime | booking-app/apps/api/src/organization/organization-webhook.handler.ts:72-113 | with and without timestamps, the row shows the flags of the last event no newer one had overtaken, and remembers the newest time |
| AccountUpdates.DeliveriesConverge | booking-app/apps/api/src/organization/organization-webhook.handler.ts:72-113 | all deliveries of the same events, in any order and with repeats, leave the same row if and only if the newest of them carry the same flags |

## Left out

- Other organizations and currencies: every table but the tenant guard's is one organization's, in one currency.
- Cancellation and reschedule request rows, their notifications, and the audit log; the decisions about them are modelled.
- The idempotency-key claim and the resume of a reservation, and its retry loop over serialization failures and reference collisions.
- The availability engine beyond "the block is clear of what is busy and the day is not on leave": working hours, breaks, closed days, notice and horizon.
- The database's own exclusion constraints on the calendar: the exclusivity result does not lean on them.
- Deadlocks between row locks: only the calendar locks are shown free of wait cycles.
- The return value of `execute`, which says FAILED for a refund that is still pending; nothing rests on it.
- Money that arrives for a failed or cancelled booking: the code reports it, and so does the model, but what the office then does is not part of it.
- Which rows a notification sweep lists (older than fifteen minutes, two hundred at most), redaction, and which provider id a report names once a row was sent twice.
- `schedule` and `cancelFor` of the reminder service beyond the names they use, and bookings that change during a rebuild.
- When links expire, and who the reminders go to: a firing is told whether text messages are on.
- Provider ids and outbox events of overlapping settlements; on their own they are part of `Refunds.ApplySettlement`.
- TenantGuard.AcceptedCreateIsOwn: says nothing about a value under `organization` beside a matching organizationId, nor about keys other than `connect` in it, because the guard does not look at them.
- Bounds of JavaScript numbers and dates, the cursor's base64 encoding, and the formatting of instants in the export.
- Tenant models that are not scoped, and the Prisma engine's own validation of malformed arguments.
- Tokens and session ids are plain numbers: randomness, hashing and cookies are not part of this model.
- Table order stands for creation order, in which the first refundable payment is looked for.
- Financials.ReadRoots: keeps table order where the code sorts payments, cash and refunds by the time they were created, paid or asked for; no sum depends on it.
- Reminders.ReminderReconciler.RunOnce: takes one fixed list of bookings, so rows added or moved during a run are not captured.
- Sessions.SessionStore.Read: is one atomic step on one clock; single Redis commands are not told apart.
