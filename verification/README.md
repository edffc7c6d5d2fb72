# Bookings, credits and subscriptions: a verified model

This project models the engine behind a multi-tenant resource booking service and proves what it keeps true.

* **Booking engine.** One organization with a credit pool, members with personal credits, resources that can be
  occupied or under maintenance, bookings with an interval, a cost and a status, and a clock. `Store.Database` holds the
  tables as fields; each service call is a method that updates them step by step, and is proved equal to a function on the
  whole state (`Bookings`, `Scheduler`, `Maintenance`, `StaffCredits`). A refused call leaves the state as it was.
  `Invariants.Inv` collects what no single place in the code states: solvency, no double booking, honest occupancy, quiet
  maintenance, settled charges. `Engine` shows that every step of every run keeps it, and that no credit is made or lost.
  `BookingLaws` and `MaintenanceLaws` state, on the tables before and after, when a call is accepted and everything it
  writes; `Authority` says who can ever make a booking a paid one. `Sessions` says exactly which runs also keep bookings clear of sessions in progress, and `Seats` exactly which keep every
  checked-in booking in its resource's seat. `BookingRules` has the guards on plan and rules.
* **Slot listing.** The generator that lists free slots and the overlap query that bookings run (`Slots`), and the day it
  lists on the zone's clock (`SlotDays`).
* **Subscriptions.** Payments, trials, expiry with frozen credits, resets and administrators' changes over all
  organizations (`Subscriptions`, `SubscriptionServices`), their runs (`SubscriptionSafety`) and what those guarantee
  (`SubscriptionFacts`). `PlanLaws` states what each step writes and which plan any run ends on. `Plans` has prices and month addition.
* **Both together.** `Platform` runs bookings and subscriptions over one shared pool and clock.
* **Calendar.** Day numbers and civil dates as in sections 21.4.1.3 to 21.4.1.11 of ECMA-262 (`Calendar`), day bounds in a
  zone with a constant offset (`Timezones`), ISO weeks as in section 3.2.2 of ISO 8601:2004 (`WeekKeys`).
* **Revenue charts.** Daily and weekly trend (`RevenueTrend`) and the grouped analytics (`RevenueAnalytics`), both folds
  into buckets (`Buckets`).

Ghost state records history the tables do not keep: what each booking's user has paid net of refunds (`charges`), and per
organization the credits frozen and released, the trials started and the sessions granted (`Tally`).

Times are milliseconds. Credits, pool and costs are integers, as their columns are; prices and revenue are integers in
hundredths. Hourly rates are reals. Each service call is one atomic step.

The only hypothesis on callers of the booking engine is that manual status moves stay within `BookingSafety.SafeMove`,
because updateBookingStatus accepts any pair of statuses; `BookingFacts.SafeMovesExact` shows that this is exactly the set
of moves that keep the invariants.

## Where the code does not do what it is meant to do

The model follows the code. Each of these is proved, with the exact condition under which the intended behaviour holds.

* The end of a day is computed 998 ms late, because the offset is read from a formatter that drops milliseconds. Day
  ranges overlap; they agree with date keys exactly from 999 ms past midnight on (`Timezones.DayRangeExact`,
  `Timezones.KeysAndRangesAgreeExactly`).
* Rescheduling charges hours rounded to two decimals, creating charges exact hours. They agree exactly for lengths that are
  multiples of 36 seconds (`BookingFacts.PricesAgreeExactly`).
* For the same reason a rule's maximum length is checked against different hours; the two checks agree exactly outside the gap
  between the exact limit and the rounded one (`BookingFacts.LengthLimitsAgreeExactly`).
* A checked-in booking need not occupy its resource. Over a run every checked-in booking is the one its resource names
  exactly when nothing is checked in by hand and no check-in sweep meets two arrivals on one resource, or an arrival where a
  session goes on (`Seats.SeatedRunsExact`). Completions alone never break it. Two failing runs from an organization without
  bookings are `Seats.CheckedInByHand` and `Seats.CheckedInTogether`.
* A late cancellation of an odd cost is always refused, since half of it is no integer (`BookingFacts.CancelExact`).
* A booking that is checked in does not block its slot. A created or rescheduled booking is clear of the sessions under
  way exactly when each of them ends before it starts (`Sessions.CreateClearExact`, `Sessions.RescheduleClearExact`), and
  a run keeps pending, confirmed and checked-in bookings disjoint exactly when no step asks for a slot that a session
  overlaps or checks a completed booking in again over another (`Sessions.OverlapFreeRunsExact`). A run from an
  organization without bookings that overlaps is `Sessions.SessionsDoNotBlock`.
* A listed slot can be refused when a booking outside the working hours comes within the buffer of it
  (`Slots.ListedIsFreeExact`; an example is `Slots.ListedSlotIsRefused`). A caller can rely on
  `Slots.ClearHoursAgree`: it does not happen when such bookings keep the buffer to the hours themselves.
* The listing checks the weekday of the day before in zones west of Greenwich, because a bare date is read as midnight in
  UTC; it agrees with createBooking exactly in the others (`SlotDays.WeekdaysAgreeExactly`).
* One round of the three sweeps leaves nothing open exactly when it completes after checking in, or nothing was confirmed
  (`Quiescence.OneRoundExact`).
* Redelivering a payment session grants it again unless it is the last one granted; every session is granted only once
  exactly when repeats arrive before the next other session (`SubscriptionFacts.DeliveryExact`,
  `SubscriptionFacts.PaymentsExactlyOnce`).
* The trial end date that an administrator sets is never used by trial activation, since setting it marks the trial as
  used (`SubscriptionFacts.TrialExact`, `SubscriptionFacts.TrialAtMostOnce`); it does move the end of a running trial.
* Paid time can be lost. The end of a subscription moves back exactly when an administrator sets an earlier date, a trial
  shorter than what is left starts, or a payment switches a running plan for less time than is left
  (`SubscriptionFacts.EndMovesBackExact`); without these steps no run loses any (`SubscriptionFacts.PaidTimeIsNeverLost`).
* A reminder about a subscription that has ended puts its expiry off by exactly a day (`PlanLaws.ReminderDelaysExpiry`).
* Topping up an ended subscription is meant to reactivate it, but any date from the old end on is accepted; it stays ended
  exactly when that date is past (`SubscriptionFacts.TopUpExact`).
* Buying or renewing in two parts can cost more or end on another day than doing it at once
  (`Plans.SplitPurchase`, `Plans.SplitRenewalExact`).

## Model

| member | source | states |
|---|---|---|
| BookingsService.CreateBooking | src/modules/bookings/services/bookings.service.ts:62-300 | the guards in their order, each with its error (plan limit, times, resource and organization, maintenance, weekday, length and lead-time rules), the overlap query with the buffer, solvency against what is pending, and the new rows; a refused call changes nothing |
| BookingsService.RescheduleBooking | src/modules/bookings/services/bookings.service.ts:573-790 | the same for moving a booking, its length rounded to two decimals of an hour: it does not conflict with itself, and a confirmed one pays or gets back the difference |
| BookingsService.UpdateBookingStatus | src/modules/bookings/services/bookings.service.ts:342-509 | confirming charges, cancelling refunds all or half, completing frees the resource, any other pair of statuses just moves |
| SchedulerService.AutoCancelPendingBookings | src/modules/scheduler/scheduler.service.ts:25-50 | exactly the PENDING bookings whose start is past become CANCELLED |
| SchedulerService.AutoCheckInConfirmedBookings | src/modules/scheduler/scheduler.service.ts:78-115 | exactly the CONFIRMED bookings whose start is past are checked in, and each of their resources ends occupied by one of them, whichever write came last |
| SchedulerService.AutoCompleteCheckedInBookings | src/modules/scheduler/scheduler.service.ts:138-175 | exactly the CHECKED_IN bookings whose end is past are completed and their resources freed |
| ResourcesService.MarkResourceUnderMaintenance | src/modules/resources/services/resources.service.ts:221-356 | refused for an inactive organization or while occupied; switching on cancels and refunds every blocking booking not yet over, switching off changes the flag only |
| Maintenance.OrderIsIrrelevant | src/modules/resources/services/resources.service.ts:280-347 | the single writes of the concurrent per-booking cancellations, status and refund, end in the same state however they interleave |
| StaffService.ManageSingleStaffCredits | src/modules/staff/service/staff.service.ts:456-519 | a guarded transfer from the pool to one member |
| StaffService.RevokeStaffCredits | src/modules/staff/service/staff.service.ts:584-660 | a transfer back, refused when it would touch credits locked for pending bookings |
| StaffService.ManageMultipleStaffCredits | src/modules/staff/service/staff.service.ts:726-780 | the pool pays the sum of the list, each member gets the sum of their items in whatever order the increments run, one unknown member rolls everything back |
| StaffCredits.AllocateExact | src/modules/staff/service/staff.service.ts:488-519 | a single allocation is accepted exactly when the member exists and the pool can pay, and moves exactly the credits |
| StaffCredits.RevokeExact | src/modules/staff/service/staff.service.ts:606-660 | a revocation is accepted exactly when the credits are there besides what is pending, and moves exactly them back |
| StaffCredits.AllocateManyExact | src/modules/staff/service/staff.service.ts:750-779 | a bulk allocation is accepted exactly when all members exist and the pool can pay for all items; each gains what the items naming them give, together what the pool loses |
| StaffCredits.SpreadTotal | src/modules/staff/service/staff.service.ts:752-779 | members gain together exactly what the pool loses, repeated names included |
| StaffCredits.OrderIsIrrelevant | src/modules/staff/service/staff.service.ts:767-779 | the increments of a list end in the same balances in any order |
| BookingRules.RuleBrokenExact | src/modules/bookings/services/bookings.service.ts:149-184 | a slot passes the rules exactly when weekend, weekday, length and lead time allow it, and the refusal names the rule broken |
| BookingLaws.OfficeExact | src/modules/bookings/services/bookings.service.ts:84-136 | a free organization passes exactly with at most two resources and five members, and organizations are refused as they are read |
| BookingLaws.LengthGuardsExact | src/modules/bookings/services/bookings.service.ts:652-692 | the length past which creating and the length from which rescheduling is refused as too long |
| BookingLaws.CreatedExact | src/modules/bookings/services/bookings.service.ts:208-300 | a created booking is what was asked for at the exact price, CONFIRMED and paid at once exactly for an organization admin or an auto-confirming resource, else PENDING and unpaid; nothing else changes |
| BookingLaws.CreateAcceptedExact | src/modules/bookings/services/bookings.service.ts:96-284 | a request is accepted exactly when all guards pass, every other blocking booking is the buffer away, the price is whole and the balance covers it besides everything pending |
| BookingLaws.CreateRefusals | src/modules/bookings/services/bookings.service.ts:96-206 | the error of a refusal is that of the first check that fails |
| BookingLaws.RescheduledExact | src/modules/bookings/services/bookings.service.ts:727-790 | a rescheduled booking keeps user, resource and status and has the times asked for; a confirmed one pays exactly the difference of the prices, a pending one nothing |
| BookingLaws.RescheduledPrice | src/modules/bookings/services/bookings.service.ts:652-727 | its price is that of the new length in hundredths of an hour, within a two-hundredth of the rate of the exact price |
| BookingLaws.RescheduleAcceptedExact | src/modules/bookings/services/bookings.service.ts:594-760 | a reschedule is accepted exactly for a blocking booking and a future slot that passes all guards, at a whole price the user can pay besides everything else pending |
| BookingLaws.RescheduleRefusals | src/modules/bookings/services/bookings.service.ts:594-723 | the error of a refusal is that of the first check that fails |
| BookingLaws.MoveAcceptedExact | src/modules/bookings/services/bookings.service.ts:350-421 | a status move is refused exactly for an unknown booking, staff at another's booking, staff confirming, or half of an odd cost |
| BookingLaws.StaffIsRefused | src/modules/bookings/services/bookings.service.ts:352-366 | staff are refused at other people's bookings and at confirming |
| BookingLaws.MovedExact | src/modules/bookings/services/bookings.service.ts:357-508 | a move writes the status, charges a confirmation, refunds all or half of a cancellation by the hour before the start, frees the resource of a completed session, and changes nothing else |
| Authority.NewlyPaidExact | src/modules/bookings/services/bookings.service.ts:225-366 | a booking becomes a paid one exactly in an organization admin's creation or confirmation, or a creation on an auto-confirming resource |
| Authority.NobodyPaysUnasked | src/modules/bookings/services/bookings.service.ts:225-366 | over every run from an organization without bookings each paid booking was so authorized before |
| MaintenanceLaws.ToggleAcceptedExact | src/modules/resources/services/resources.service.ts:232-256 | the toggle is refused exactly for an unknown resource, an inactive organization or an occupied resource, each with its error |
| MaintenanceLaws.ToggledExact | src/modules/resources/services/resources.service.ts:266-400 | it negates the flag and nothing else of any resource; switched on it cancels exactly the blocking bookings not over, switched off none |
| MaintenanceLaws.MaintenanceHolds | src/modules/bookings/services/bookings.service.ts:134-136 | over every run, from switching on to the next accepted toggle, the resource stays shut and none of its bookings is created or moved in time |
| Scheduler.CancelSweepExact | src/modules/scheduler/scheduler.service.ts:30-50 | at any time the sweep cancels exactly the pending bookings whose start is past |
| Scheduler.CheckInSweepExact | src/modules/scheduler/scheduler.service.ts:83-115 | at any time the sweep checks in exactly the confirmed bookings whose start is past, and occupies exactly their resources |
| Scheduler.CompleteSweepExact | src/modules/scheduler/scheduler.service.ts:143-175 | at any time the sweep completes exactly the checked-in bookings whose end is past, and frees exactly their resources |
| Engine.EditedExact | src/modules/resources/services/resources-rule.service.ts:63-93 | editing rules replaces what is edited and leaves maintenance and occupancy |
| BookingSafety.CreateKeepsInv | src/modules/bookings/services/bookings.service.ts:187-300 | creating keeps solvency, no double booking, occupancy, maintenance and charges, and the organization's total worth |
| BookingSafety.RescheduleKeepsInv | src/modules/bookings/services/bookings.service.ts:703-790 | so does rescheduling, pending or confirmed, up or down |
| BookingSafety.SetStatusKeepsInv | src/modules/bookings/services/bookings.service.ts:357-508 | so does every safe manual move |
| BookingSafety.FreeSlotIsClear | src/modules/bookings/services/bookings.service.ts:187-206 | a slot the overlap query finds free is at least the buffer away from every blocking booking of the resource |
| SweepSafety.CheckInSweepKeepsInv | src/modules/scheduler/scheduler.service.ts:83-115 | the check-in sweep keeps the invariants whatever the order of its resource writes |
| SweepSafety.CompleteSweepKeepsInv | src/modules/scheduler/scheduler.service.ts:143-175 | the completion sweep keeps them |
| SweepSafety.ToggleKeepsInv | src/modules/resources/services/resources.service.ts:266-380 | the maintenance toggle keeps them and the total worth, refunds included |
| SweepSafety.RevokeKeepsInv | src/modules/staff/service/staff.service.ts:614-630 | revoking never leaves a member unable to pay for what they have pending |
| Engine.StepKeepsInv | src/modules/bookings/services/bookings.service.ts:62-836 | every step of the engine keeps every invariant and the sum of pool, personal credits and net charges |
| Engine.EveryRunIsSafe | src/modules/bookings/services/bookings.service.ts:62-836 | in every state of every run: solvency, no double booking, honest occupancy, quiet maintenance, settled charges, conservation |
| Engine.ReachableIsSafe | src/modules/bookings/services/bookings.service.ts:62-836 | the same for every state that a run reaches from an organization without bookings |
| Engine.BufferIsKept | src/modules/bookings/services/bookings.service.ts:187-206 | blocking bookings stay a gap apart over every run in which the rules never drop the buffer below it; gap 0 needs no condition |
| BookingFacts.ConfirmIsNeverRefused | src/modules/bookings/services/bookings.service.ts:357-388 | an organization admin confirming a PENDING booking never fails for lack of credits |
| BookingFacts.CancelExact | src/modules/bookings/services/bookings.service.ts:390-421 | cancelling a confirmed booking succeeds exactly when it is early or the cost is even, and refunds all or half |
| BookingFacts.MaintenanceRefundsExactly | src/modules/resources/services/resources.service.ts:266-347 | each member's balance rises by the sum of their own cancelled CONFIRMED costs |
| BookingFacts.PricesAgreeExactly | src/modules/bookings/services/bookings.service.ts:652-656 | rounded and exact price agree exactly for multiples of 36 seconds |
| BookingFacts.LengthLimitsAgreeExactly | src/modules/bookings/services/bookings.service.ts:652-690 | the maximum-length guards of booking and rescheduling agree exactly outside the gap between their two limits |
| BookingFacts.SafeMovesExact | src/modules/bookings/services/bookings.service.ts:342-509 | a manual move keeps the invariants from every state exactly when it is one of the safe ones |
| Sessions.CreateClearExact | src/modules/bookings/services/bookings.service.ts:187-206 | a created booking is clear of the resource's sessions under way exactly when each of them ends before it starts |
| Sessions.RescheduleClearExact | src/modules/bookings/services/bookings.service.ts:703-723 | so is a rescheduled one |
| Sessions.StepKeepsApartExact | src/modules/bookings/services/bookings.service.ts:187-206 | a step keeps pending, confirmed and checked-in bookings disjoint exactly when the slot it asks for overlaps no session, and it checks no completed booking in again over a live one |
| Sessions.OverlapFreeRunsExact | src/modules/bookings/services/bookings.service.ts:187-206 | a run is free of overlaps, sessions included, exactly when every step of it is such a step |
| Sessions.SessionsDoNotBlock | src/modules/bookings/services/bookings.service.ts:190-200 | a run from an organization without bookings in which createBooking accepts a slot inside a checked-in session |
| Seats.StepKeepsSeatsExact | src/modules/scheduler/scheduler.service.ts:94-115 | a step keeps every checked-in booking the current one of its resource exactly when it checks nothing in by hand and its check-in sweep finds each arrival alone on its resource |
| Seats.SeatedRunsExact | src/modules/scheduler/scheduler.service.ts:94-175 | over a run every checked-in booking is the one its resource names throughout exactly when every step is such a step |
| Seats.CheckedInByHand | src/modules/bookings/services/bookings.service.ts:423-508 | a run from an organization without bookings in which a booking is checked in by hand and its resource stays free |
| Seats.CheckedInTogether | src/modules/scheduler/scheduler.service.ts:94-115 | a run from there in which one sweep checks in two bookings of a resource, which can name only one |
| Quiescence.SweepsCloseExact | src/modules/scheduler/scheduler.service.ts:25-175 | once every end is past, sweeps in any number and order, while the clock goes on, close every booking exactly when they cancel what was pending, complete what was checked in, and complete after checking in what was confirmed; then no resource is occupied, and no credit ever moves |
| Quiescence.SweepsQuiesce | src/modules/scheduler/scheduler.service.ts:25-175 | once every end is past, sweeps that cancel, and complete after checking in, close every booking, free every resource and move no credit |
| Quiescence.TwoRoundsQuiesce | src/modules/scheduler/scheduler.service.ts:25-175 | two rounds of the three sweeps, each in any order and with pauses, are enough |
| Quiescence.OneRoundExact | src/modules/scheduler/scheduler.service.ts:25-175 | one round is enough exactly when it completes after checking in or nothing was confirmed |
| Quiescence.SweepsAreIdempotent | src/modules/scheduler/scheduler.service.ts:30-175 | at a fixed time a sweep repeated changes nothing |
| SlotsService.GetAvailableSlots | src/modules/bookings/services/bookings.service.ts:839-939 | refused for an unknown resource, a weekday not in the rules, or no opening hour; else the listing of the day's working hours on the zone's clock, with the defaults for closing hour and slot length |
| SlotsService.WalkSlots | src/modules/bookings/services/bookings.service.ts:896-936 | the slot loop ends and returns exactly the listing |
| Slots.ListingExact | src/modules/bookings/services/bookings.service.ts:896-936 | the listing holds exactly the fitting, non-past, conflict-free grid points, in order and disjoint |
| Slots.UnlistedIsRefused | src/modules/bookings/services/bookings.service.ts:886-936 | a future grid slot that is not listed is refused by createBooking |
| Slots.ListedIsFreeExact | src/modules/bookings/services/bookings.service.ts:886-936 | every listed slot passes the overlap query exactly when bookings outside the working hours keep the buffer to the first and last listed slot |
| Slots.ClearHoursAgree | src/modules/bookings/services/bookings.service.ts:886-936 | every listed slot passes it when bookings outside the working hours keep the buffer to the hours |
| Slots.ListedSlotIsRefused | src/modules/bookings/services/bookings.service.ts:886-936 | with an hour's buffer and a booking one millisecond after closing time the last listed slot is refused as already booked |
| SlotDays.HoursOnClock | src/modules/bookings/services/bookings.service.ts:874-883 | the window opens at the opening hour and closes at the closing hour, or 18, on the zone's clock, in steps of the rule's minutes, or 30 |
| SlotDays.ListedWithinHours | src/modules/bookings/services/bookings.service.ts:874-936 | every listed slot is one step long and lies between those hours |
| SlotDays.FreeDayExact | src/modules/bookings/services/bookings.service.ts:874-936 | on a day to come that is free with the buffer, as many slots are listed as whole steps fit between the hours |
| SlotDays.ListingWeekdayExact | src/shared/utils/timezone.util.ts:209-220 | the listing checks the weekday of the date asked for exactly in zones not west of Greenwich |
| SlotDays.WeekdaysAgreeExactly | src/modules/bookings/services/bookings.service.ts:866-870 | the listing and createBooking check the same weekday for a listed slot exactly there |
| Slots.NoBufferAlwaysAgrees | src/modules/bookings/services/bookings.service.ts:886-936 | without a buffer every listed slot passes it |
| Slots.ListedSlotBooks | src/modules/bookings/services/bookings.service.ts:104-300 | a listed slot can be booked by whoever passes the other guards and can pay |
| Slots.RelistingDropsConflicts | src/modules/bookings/services/bookings.service.ts:886-936 | after any booking is created, the listing is the old one filtered by conflict with it when it touches the hours, and unchanged otherwise |
| SubscriptionServices.RegisterOrganization | src/modules/auth/services/auth.service.ts:57-130 | a new organization starts on the free plan with its credits for 30 days, trial allowed and unused |
| SubscriptionServices.HandleStripeWebhook | src/modules/payments/payments.service.ts:118-313 | the idempotency check, then the transaction for the two settling events; other events change nothing |
| SubscriptionServices.HandleSslIpn | src/modules/payments/payments.service.ts:404-505 | the same transaction for a validated payment; an invalid one is answered as not received and changes nothing |
| SubscriptionServices.ApplyPayment | src/modules/payments/payments.service.ts:138-220 | plan credits and frozen credits go to the pool, the trial is used up, the end moves on from a running same plan or from now |
| SubscriptionServices.StartTrial | src/modules/payments/payments.service.ts:663-748 | refused unless allowed and unused; grants the trial credits and the PRO plan |
| SubscriptionServices.DowngradeExpired | src/modules/scheduler/scheduler.service.ts:430-502 | every due subscription goes to the free plan and its excess credits are frozen |
| SubscriptionServices.ResetFreeUserCredits | src/modules/scheduler/scheduler.service.ts:662-692 | the pools of active free subscriptions go back to the free allowance |
| SubscriptionServices.TopUpOrganizationCredits | src/modules/admin/service/admin.service.ts:543-628 | every branch of the top-up, refused for an expired subscription without a date or for a date before the current end |
| SubscriptionServices.UpdateOrganizationByAdmin | src/modules/admin/service/admin.service.ts:262-300 | setting a trial end date marks the trial used and moves the subscription's end |
| SubscriptionSafety.EveryRunIsSound | src/modules/payments/payments.service.ts:120-220 | in every state of every run the two stored plans agree, a recorded payment is completed and has used up the trial, credits frozen equal credits released plus credits still frozen |
| SubscriptionSafety.ReachableIsSound | src/modules/auth/services/auth.service.ts:57-130 | the same for everything reached from empty tables by registrations and later steps |
| SubscriptionSafety.ProcessedExact | src/modules/payments/payments.service.ts:120-131 | the idempotency check finds a session exactly when it is the last one granted to its own organization |
| SubscriptionFacts.RunGrows | src/modules/admin/service/admin.service.ts:278-284 | a used trial stays used over every run, and granted sessions are never forgotten |
| SubscriptionFacts.TrialExact | src/modules/payments/payments.service.ts:689-748 | a trial starts exactly when allowed and unused; no trial or payment came before, and it lasts seven days |
| SubscriptionFacts.TrialAtMostOnce | src/modules/payments/payments.service.ts:689-748 | after a trial, a payment or an administrator's date no run starts a trial again |
| SubscriptionFacts.DeliveryExact | src/modules/payments/payments.service.ts:120-220 | a settled delivery is never refused, and grants exactly unless the session is the last one granted |
| SubscriptionFacts.GrantedOverRuns | src/modules/payments/payments.service.ts:120-220 | over every run an organization is granted its settled sessions with immediate repeats dropped, and the plan credits are theirs |
| SubscriptionFacts.PaymentsExactlyOnce | src/modules/payments/payments.service.ts:120-131 | every settled session is granted, and only once each exactly when repeats come before the next other session |
| SubscriptionFacts.ExpiryExact | src/modules/scheduler/scheduler.service.ts:476-502 | expiry leaves the free allowance in the pool and keeps every credit, pool or frozen |
| SubscriptionFacts.ExpiryIsIdempotent | src/modules/scheduler/scheduler.service.ts:430-502 | sweeping again freezes nothing more |
| SubscriptionFacts.RenewalRestores | src/modules/payments/payments.service.ts:156-220 | expiry followed by renewal gives back every frozen credit on top of the plan grant |
| SubscriptionFacts.FrozenIsConserved | src/modules/scheduler/scheduler.service.ts:476-502 | over every run credits frozen equal credits released plus the change of what is frozen |
| SubscriptionFacts.OnlyPaymentsReleaseFrozen | src/modules/payments/payments.service.ts:208-220 | without a payment no run of other steps lowers the frozen credits |
| PlanLaws.RegisteredExact | src/modules/auth/services/auth.service.ts:57-130 | a newcomer is on the free plan with 100 credits for 30 days and may start a trial |
| PlanLaws.UnpaidChangesNothing | src/modules/payments/payments.service.ts:133-313 | failed, other and invalid deliveries change nothing |
| PlanLaws.PaidExact | src/modules/payments/payments.service.ts:138-220 | a granted payment puts both stored plans on the one paid for, completed and on record, ends the trial, releases what was frozen, and counts the months from the end of a running same plan, else from now |
| PlanLaws.TrialStartedExact | src/modules/payments/payments.service.ts:691-748 | a trial is PRO with 200 credits for a week, frozen credits untouched |
| PlanLaws.ExpiredExact | src/modules/scheduler/scheduler.service.ts:436-502 | the sweep takes exactly active subscriptions to a paid plan, past their end, with no reminder in the last day; they go free for 30 days, their excess frozen |
| PlanLaws.ReminderDelaysExpiry | src/modules/scheduler/scheduler.service.ts:436-456 | a reminder puts an expiry off by exactly a day |
| PlanLaws.ResetExact | src/modules/scheduler/scheduler.service.ts:662-692 | the reset sets exactly the pools of active free subscriptions to 100 |
| PlanLaws.ToppedUpExact | src/modules/admin/service/admin.service.ts:570-628 | an accepted top-up writes the plan it names into both places, activates the subscription and sets the date it gives |
| PlanLaws.UpdatedExact | src/modules/admin/service/admin.service.ts:262-300 | an update sets the trial permission; a trial end date marks the trial used whatever the update says, and moves the end |
| PlanLaws.NextPlan | src/modules/payments/payments.service.ts:192-220 | a step changes the plan exactly by a granted payment, a trial, an expiry or a top-up that names one |
| PlanLaws.PlanIsLastSet | src/modules/payments/payments.service.ts:192-220 | after any run the plan is the one set last by one of these |
| SubscriptionFacts.TopUpExact | src/modules/admin/service/admin.service.ts:570-628 | a top-up is refused exactly without a date for an ended subscription or for a date before its end; it adds its credits, never shortens, touches no other organization, and leaves the subscription ended exactly when its date is past |
| SubscriptionFacts.RenewalsAddUp | src/modules/payments/payments.service.ts:172-184 | over every run in which payments renew the running plan and nothing else sets the end, whatever other steps it has, the end moves on by exactly the paid months, one purchase after the other |
| SubscriptionFacts.RenewalsNeverLosePaidTime | src/modules/payments/payments.service.ts:464-476 | so each paid month adds 28 to 31 days to the end |
| SubscriptionFacts.EndMovesBackExact | src/modules/payments/payments.service.ts:172-184 | a step moves the end back exactly when an administrator's date is earlier, a trial shorter than what is left starts, or a payment switches a running plan for less time than is left |
| SubscriptionFacts.PaidTimeIsNeverLost | src/modules/payments/payments.service.ts:172-184 | over every run without those steps the end is at least 28 days later for every month granted, late payments, dated top-ups and expiries included |
| Platform.StepIsSafe | src/modules/payments/payments.service.ts:208-220 | a booking step or a subscription step on the shared pool keeps both machines' invariants and changes the organization's credits by exactly what it grants, tops up or adjusts to the free allowance |
| Platform.EveryRunIsSafe | src/modules/scheduler/scheduler.service.ts:476-502 | over every run of both machines on one pool all invariants hold, and pool, personal, paid and frozen credits are those at the start plus plan and trial grants, top-ups and what expiry and resets add or take |
| Platform.ReachableIsSafe | src/modules/scheduler/scheduler.service.ts:476-502 | the same over every run from an organization without bookings and books reached from empty tables |
| Plans.CheckoutPrice | src/modules/payments/payments.service.ts:51-66 | the three branches charge for n - 2 * floor(n / 12) months |
| Plans.Tariff | src/shared/constant/subscription.constant.ts:4-82 | the prices of a month and a year of each plan on sale in each currency, and each plan's credits |
| Plans.SplitPurchase | src/modules/payments/payments.service.ts:321-339 | two purchases cost two months more exactly when the remainders make up another year, else the same |
| Plans.PriceBounds | src/shared/constant/subscription.constant.ts:49-82 | the price lies between ten twelfths and all of the plain monthly price |
| Plans.AddMonthsExact | src/modules/payments/payments.service.ts:184-184 | setMonth moves a date on by exactly the lengths of the months from its own, day overflow included |
| Plans.RenewalsKeepPaidTime | src/modules/payments/payments.service.ts:172-184 | any sequence of extensions adds 28 to 31 days a month |
| Plans.SplitRenewalExact | src/modules/payments/payments.service.ts:184-184 | extending in two steps ends at the same time exactly when the day exists in the intermediate month or the traded months are equally long |
| Calendar.DateOfRoundTrip | src/shared/utils/timezone.util.ts:132-148 | the date of a day is a calendar date whose day number is that day |
| Calendar.DayNumberRoundTrip | src/shared/utils/timezone.util.ts:62-69 | every calendar date is the date of its day number |
| Calendar.YearStartIsJanuary | src/shared/utils/timezone.util.ts:262-262 | the closed form for the first day of a year counts the lengths of all months before it |
| Timezones.OffsetDropsMilliseconds | src/shared/utils/timezone.util.ts:45-70 | the computed offset is the zone's less the instant's milliseconds |
| Timezones.ZonedToUtcExact | src/shared/utils/timezone.util.ts:72-93 | a zoned time comes out late by its own milliseconds |
| Timezones.DayStart | src/shared/utils/timezone.util.ts:150-173 | the day starts at the zone's midnight |
| Timezones.DayEnd | src/shared/utils/timezone.util.ts:175-207 | the computed end lies 998 ms into the next day |
| Timezones.StartsTileTime | src/shared/utils/timezone.util.ts:150-173 | an instant has date key x exactly from the start of x up to the start of the next day |
| Timezones.DayRangeExact | src/shared/utils/timezone.util.ts:175-207 | the closed range of a day holds its instants and the first 999 ms of the next day |
| Timezones.KeysAndRangesAgreeExactly | src/shared/utils/timezone.util.ts:150-235 | ranges and date keys agree for every day exactly when the zone's clock is at least 999 ms past midnight |
| WeekKeys.FirstThursdayRule | src/shared/utils/timezone.util.ts:259-265 | the week's Thursday is the week-th Thursday of the key's year, and weeks number 1 to 53 |
| WeekKeys.SameKeyExact | src/shared/utils/timezone.util.ts:252-268 | two days share a key exactly when they share a Monday-to-Sunday week |
| WeekKeys.KeysAreMonotone | src/shared/utils/timezone.util.ts:252-268 | keys never go back as days go on |
| WeekKeys.TextOrderIsWeekOrder | src/shared/utils/timezone.util.ts:267-267 | sorting the printed keys sorts the weeks, for years of four digits |
| RevenueTrend.BuildRevenueTrend | src/modules/dashboard/dashboard.utils.ts:14-43 | one point for each of the last days, oldest first and today last, with the sum of that day's rows |
| RevenueTrend.WindowIsDistinct | src/modules/dashboard/dashboard.utils.ts:22-26 | the days of the trend are distinct |
| RevenueTrend.TrendConserves | src/modules/dashboard/dashboard.utils.ts:28-37 | the points add up to exactly what came in between the first day's midnight and the midnight after today |
| RevenueTrend.WindowBounds | src/modules/dashboard/dashboard.utils.ts:19-26 | those midnights are the computed starts of the first day and of tomorrow |
| RevenueTrend.PointExact | src/modules/dashboard/dashboard.utils.ts:22-42 | each point is its day of the window with exactly what came in between that day's midnights |
| RevenueTrend.WeekExact | src/modules/dashboard/dashboard.service.ts:1043-1050 | the weekly chart shows for the week of each point the sum of its Monday-to-Sunday days |
| RevenueTrend.WeeklyTrend | src/modules/dashboard/dashboard.service.ts:1043-1050 | the weekly fold is the sum of the points per week key, in the order of their first point |
| RevenueTrend.WeeklyTrendIsFaithful | src/modules/dashboard/dashboard.service.ts:1043-1054 | the weekly chart has the daily chart's total, and its weeks are already in strict order before the sort |
| RevenueAnalytics.GroupRevenue | src/modules/admin/service/admin.service.ts:966-1003 | one bucket for each period that has rows, with the revenue, count, organizations and plan parts of just its rows |
| RevenueAnalytics.SamePeriodExact | src/modules/admin/service/admin.service.ts:955-963 | two rows share a bucket exactly when they share the day, the Monday-to-Sunday week or the month |
| RevenueAnalytics.BucketExact | src/modules/admin/service/admin.service.ts:976-1003 | a bucket's PRO and ENTERPRISE parts are the amounts of its period's rows of organizations on those plans, the free part those of all others |
| RevenueAnalytics.CountExact | src/modules/admin/service/admin.service.ts:991-993 | it counts exactly the rows of its period |
| RevenueAnalytics.OrganizationsExact | src/modules/admin/service/admin.service.ts:991-993 | its organizations are exactly those with a row in its period |
| RevenueAnalytics.BucketsSplit | src/modules/admin/service/admin.service.ts:991-1003 | each bucket's revenue is the sum of its three parts, and it has at least one organization and no more than transactions |
| RevenueAnalytics.BucketsConserve | src/modules/admin/service/admin.service.ts:976-1003 | the buckets add up to all rows, by day, week or month |
| RevenueAnalytics.BucketsAreInOrder | src/modules/admin/service/admin.service.ts:950-1008 | rows by creation time leave the buckets in strict order of their periods |
| RevenueAnalytics.TextOrderIsPeriodOrder | src/modules/admin/service/admin.service.ts:1005-1006 | sorting the printed keys sorts the periods, for years of four digits |
| RevenueAnalytics.SortHasNothingToDo | src/modules/admin/service/admin.service.ts:950-1006 | for rows by creation time and years of four digits the printed periods of the buckets are in strict text order |
| RevenueTrend.SortHasNothingToDo | src/modules/dashboard/dashboard.service.ts:1052-1054 | for years of four digits the printed weeks of the weekly chart are in strict text order |
| Buckets.FirstSeenExact | src/modules/admin/service/admin.service.ts:981-989 | the Map has exactly the keys of the entries, each once |
| Buckets.FoldConserves | src/modules/dashboard/dashboard.service.ts:1043-1050 | adding amounts up per key neither loses nor invents any |
| Buckets.OrderIsKept | src/modules/dashboard/dashboard.service.ts:1052-1054 | entries that come in order leave the Map in strict order of its keys |

## Left out

- Notifications, e-mails, activity logs, credit transaction rows, controllers, guards and authentication: input, output and plumbing; the ghost charges replace the transaction log, which also records uncharged bookings.
- What the guards read about the caller's organization (plan, counts of resources and members, whether it is active, whether an unknown resource is another organization's) is an input of the call; the decisions on it are modelled.
- BookingsService.UpdateBookingStatus: the charge runs on another connection than the transaction; both are one atomic step here, and a request without a status is not modelled.
- Concurrency between service calls: each call is atomic; the concurrent writes inside the maintenance toggle, the check-in sweep and the bulk allocation are modelled in every order.
- Several organizations in the booking engine: one organization at a time, so a booking never names another organization's resource.
- Creating, editing and deleting resources, staff and organizations, updateResource setting the maintenance flag and deleteOrganization zeroing balances: outside the step relation; editing rates, rules and auto-confirmation is one step of `Engine`.
- Bookings.RoundedHours: rounding to two decimals takes ties up, while toFixed decides ties by the binary value of the quotient; fractional buffer milliseconds and 32-bit overflow of Int columns are not modelled either.
- SlotsService.WalkSlots: the printed form of the slots is not modelled.
- Timezones: the offset is constant, so daylight-saving changes are not modelled; a formatter that prints midnight as hour 24 is not either. Date.UTC maps years 0 to 99 to 1900 to 1999, so the day theorems ask for later years.
- WeekKeys.SameKeyExact, WeekKeys.KeysAreMonotone and WeekKeys.FirstThursdayRule: every year is taken at face value, while the code, through Date.UTC, gives the years 0 to 99 the weeks of 1900 to 1999.
- Plans.AddMonths: setMonth and setDate work in the server's local time, here UTC.
- Subscriptions: providers' session metadata is part of the session, so one session identifier always has the same organization, plan and months; currencies, amounts paid and conversion rates are left out, as are the reminder jobs beyond their timestamp and organizations created by an administrator.
- RevenueTrend.WeeklyTrend: stops before the final sort, which is shown to have nothing to do; printed keys are compared by code unit instead of by locale, which agrees for keys of one shape.
- RevenueAnalytics.GroupRevenue: stops before the final sort in the same way.
- Dashboards' other figures, averages, pagination, search and the community and sales modules: easy or cosmetic.
