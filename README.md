# Rentify booking core in Dafny

This project models the core of the Rentify rental marketplace backend, a TypeScript
service. It covers:

- the booking life cycle: a request on an active listing, then approve, decline, cancel,
  activate and complete, guarded by the booking state machine;
- rental pricing;
- the PayWay payment-gateway adapter and its mock, including the payment ledger (the
  `transactions` table) and the gateway callback;
- listings and their request schemas;
- reviews and message threads, with the notifications they emit;
- the fixed-window rate limiter and the error handler that turns every thrown error into a
  JSON envelope.

Each core file becomes one module. The data store is a `Database` class (`rows.dfy`) that
holds every table. Its value is `Tables`.

Every operation that writes to the store comes in two parts:

- a specification function over `Tables` that returns `Step(tables, result)`;
- a method on `Database` whose `ensures` states that the new store and the result are those
  of the specification function.

The properties are lemmas about the specification functions.

Some things are inputs rather than computations:

- what the store or the gateway did: a failing write or read is an `Option<string>` holding
  the error message; an adapter call either threw or returned;
- the clock, fresh row ids and profile display names;
- SHA-512 followed by base64, which is an uninterpreted function `h: string -> string`.

Times are integer milliseconds since the epoch. Money is integer cents.

Modules:

- `Errors`: the error classes and the Option/Result wrappers.
- `Text`: string helpers.
- `JsMath`: JavaScript's `Math.ceil`, `Math.floor`, `Math.round` and `%` on integers.
- `Rows`: the rows of the database types and the `Database` class.
- `Pricing`, `BookingMachine`, `Validators`, `Listings`, `Bookings`, `BookingLemmas`,
  `Payment`, `PaymentRoutes`, `MockPayment`, `MockPaymentRoutes`, `Reviews`, `Messages`,
  `RateLimit`, `ErrorHandler`.

## Model

| member | source | states |
|---|---|---|
| Errors.NewAppError | src/lib/errors.ts:1-10 | a plain application error keeps its message, status and code (default 500 / INTERNAL_ERROR) and is not a rate-limit error |
| Errors.ValidationError | src/lib/errors.ts:12-17 | status 400, code VALIDATION_ERROR, the given message |
| Errors.AuthenticationError | src/lib/errors.ts:19-24 | status 401, code AUTHENTICATION_REQUIRED, default message "Authentication required" |
| Errors.ForbiddenError | src/lib/errors.ts:26-31 | status 403, code FORBIDDEN, default message "Access denied" |
| Errors.NotFoundError | src/lib/errors.ts:33-38 | status 404, code NOT_FOUND, default message "Resource not found" |
| Errors.ConflictError | src/lib/errors.ts:40-45 | status 409, code CONFLICT |
| Errors.PaymentError | src/lib/errors.ts:47-52 | status 402, code PAYMENT_ERROR |
| Errors.BookingTransitionError | src/lib/errors.ts:54-59 | status 400, code INVALID_TRANSITION, message "Cannot transition booking from X to Y" |
| Errors.DatabaseError | tests/unit/errors.test.ts:180-196 | status 500, code DATABASE_ERROR, the given message; the original error is kept as a detail |
| Errors.RateLimitError | tests/unit/errors.test.ts:162-178 | status 429, code RATE_LIMIT_EXCEEDED; the retry-after detail is the given one |
| JsMath.CeilDiv | src/lib/pricing.ts:31-32 | `Math.ceil(a / b)` is the least q with a <= q * b |
| JsMath.FloorDiv | src/lib/pricing.ts:33 | `Math.floor(a / b)` is the greatest q with q * b <= a |
| JsMath.JsRem | src/lib/pricing.ts:34 | JavaScript's `%`: for a non-negative dividend it is the remainder after FloorDiv; otherwise it lies in (-b, 0] |
| JsMath.RoundPercent | src/lib/pricing.ts:58-71 | `Math.round(n * p / 100)` is the integer nearest n * p / 100, with ties rounded up |
| JsMath.RoundPercentBounds | src/lib/pricing.ts:64-71 | a rounded percentage of a non-negative amount lies between 0 and the amount |
| Text.NatToString | src/services/mock-payment.service.ts:30 | `n.toString()` is at least one decimal digit, with a leading zero only for 0 |
| Text.NatToStringRoundTrip | src/services/mock-payment.service.ts:30 | the printed digits read back as the number |
| Text.RemoveAll | src/services/payment.service.ts:10 | a global `replace` of a character class leaves none of those characters and never lengthens the string |
| Text.LastOfReversed | src/services/message.service.ts:140-153 | the first n rows of the newest-first order, reversed back, are the last n rows in their original order |
| Text.ReverseAppend | src/services/message.service.ts:153 | reversing a concatenation reverses and swaps the parts |
| Text.Take | src/services/message.service.ts:193 | `slice(0, n)` is the prefix of length min(n, length) |
| Text.RepeatChar | src/services/review.service.ts:140 | `c.repeat(n)` has length n and holds only c |
| Text.UpperAscii | src/services/mock-payment.service.ts:30 | `toUpperCase()` on ASCII keeps the length, turns each lower-case letter into its capital and leaves every other character as it is |
| Text.CentsToFixed | src/services/payment.service.ts:81 | `(cents / 100).toFixed(2)` has at least one digit before a dot and two after it, and starts with a minus sign exactly for a negative amount |
| Text.FixedDigits | src/services/payment.service.ts:81 | the unsigned form has no sign and a dot three characters from the end |
| Text.FixedDigitsRoundTrip | src/services/payment.service.ts:81 | the digits before and after the dot read back as the whole amount in cents |
| Rows.Database.constructor | src/types/database.ts:1-461 | a fresh store has every table empty |
| Rows.Single | src/services/booking.service.ts:45-53 | `.single()` yields a row exactly when one row matches |
| Rows.FirstLedgerRow | src/services/booking.service.ts:269 | `transactions?.[0]` is a ledger row of the booking, present exactly when the booking has one |
| Rows.LedgerOf | src/services/booking.service.ts:55-69 | the joined ledger holds exactly the rows whose booking id matches |
| Rows.WithTranId | src/routes/payments.routes.ts:18-22 | the query by gateway id selects exactly the rows carrying that id |
| Rows.WithId | src/routes/payments.routes.ts:49-53 | the query by primary key selects exactly the rows with that id |
| Pricing.DurationRounding | src/lib/pricing.ts:31-32 | hours round the interval up to whole hours; days round the hours up to whole days |
| Pricing.WeeksSplitDays | src/lib/pricing.ts:33-34 | weeks and the remaining days split the day count: days = 7 * weeks + remaining |
| Pricing.HourlyRateChosen | src/lib/pricing.ts:39-41 | the hourly rate applies exactly when the rental is under 8 hours and an hourly price is set, and then the subtotal is hours times that price |
| Pricing.WeeklyNeverExceedsDaily | src/lib/pricing.ts:42-51 | with a weekly price and at least 5 days, the subtotal is the lesser of the weekly offer and the daily total, so it never exceeds days times the daily price |
| Pricing.DailyRateFallback | src/lib/pricing.ts:52-55 | without an applicable hourly or weekly price, the daily price is charged per day |
| Pricing.FeeRules | src/lib/pricing.ts:58-67 | the delivery fee is charged only for delivery; protection is 5%, 10% or 0 of the subtotal by plan; the service fee is the rounded rate of the subtotal |
| Pricing.TotalIsSumOfParts | src/lib/pricing.ts:70-79 | the renter pays the subtotal, the fees and the deposit, and nothing else |
| Pricing.PayoutIgnoresRenterCharges | src/lib/pricing.ts:71 | the owner payout is the subtotal less a rounded 6%, and it does not depend on fees, protection or deposit |
| Pricing.PayoutWithinSubtotal | src/lib/pricing.ts:71 | for a non-negative subtotal the payout lies between 0 and the subtotal |
| Pricing.OneDayExample | tests/unit/pricing.test.ts:6-28 | one day at 1000 with a 12% fee is charged 1120 and pays out 940 |
| Pricing.FiveHourExample | src/lib/pricing.ts:39-41 | five hours at 200 per hour cost 1000, whatever the daily price |
| Pricing.TenHourExample | src/lib/pricing.ts:39-55 | ten hours use the daily price even when an hourly price is set |
| Pricing.WeeklyExamples | tests/unit/pricing.test.ts:97-177 | seven days with a weekly price of 6000 cost 6000; ten days cost 6000 plus three daily prices |
| BookingMachine.TransitionTable | src/lib/booking-machine.ts:15-29 | the table holds exactly its ten pairs, none of them a self-loop |
| BookingMachine.TerminalStates | src/lib/booking-machine.ts:15-25 | the terminal statuses are exactly those with an empty row |
| BookingMachine.CancelledReachableFrom | src/lib/booking-machine.ts:16-20 | cancelled is reachable in one step from requested, approved and active only |
| BookingMachine.StatusPredecessors | src/lib/booking-machine.ts:15-25 | only disputed leads to resolved, and only active leads to completed or disputed |
| BookingMachine.IllegalPairFailsFirst | src/lib/booking-machine.ts:37-39 | a pair outside the table fails with InvalidTransition naming both states, whoever the actor is |
| BookingMachine.OwnerOnlyApproveDecline | src/lib/booking-machine.ts:42-46 | a legal approve or decline passes exactly for the owner; anyone else gets Forbidden |
| BookingMachine.PartiesOnlyCancel | src/lib/booking-machine.ts:48-52 | a legal cancel passes exactly for the renter or the owner |
| BookingMachine.UnguardedTargets | src/lib/booking-machine.ts:41-52 | legal moves to any other status pass for every actor, "system" included |
| BookingMachine.IgnoresStoredStatus | src/lib/booking-machine.ts:31-36 | the verdict depends on the `from` argument, never on the booking's stored status |
| BookingMachine.TerminalRejectsAll | src/lib/booking-machine.ts:18-24 | a terminal status rejects every move with InvalidTransition |
| Errors.NumberIssueTexts | src/middleware/error-handler.ts:36-39 | the messages passed on for a missing key, a fraction and a failed lower bound read as Zod words them, e.g. "Required" and "Number must be greater than 0" |
| Errors.NegativeBoundText | src/middleware/error-handler.ts:36-39 | a negative bound is printed with its sign: "Number must be greater than or equal to -90" |
| Errors.LengthIssueText | src/middleware/error-handler.ts:36-39 | a too-short title reads "String must contain at least 5 character(s)" |
| Errors.TwoAlternativesText | src/middleware/error-handler.ts:36-39 | an enum message lists two options, each in single quotes, separated by a vertical bar |
| Validators.Check | src/lib/validators.ts:3-28 | one check yields no issue exactly when it passes |
| Validators.LengthFailures | src/lib/validators.ts:4 | `.min(lo).max(hi)` on a string yields no issue exactly when its length lies between the bounds |
| Validators.ExactLengthFailures | src/lib/validators.ts:12-15 | `.length(n)` yields no issue exactly for length n, and at most one issue otherwise |
| Validators.EnumFailures | src/lib/validators.ts:7-22 | `z.enum` yields no issue exactly for one of its options |
| Validators.PositiveIntFailures | src/lib/validators.ts:8-24 | `.int().positive()` yields no issue exactly for a positive integer, and two issues exactly for a non-integer that is not positive |
| Validators.NonNegativeIntFailures | src/lib/validators.ts:11-26 | `.int().min(0)` yields no issue exactly for a non-negative integer, and two issues exactly for a negative non-integer |
| Validators.RangeFailures | src/lib/validators.ts:18-19 | `.min(lo).max(hi)` on a number yields no issue exactly inside the closed range |
| Validators.StringFailures | src/lib/validators.ts:3-28 | a string field's checks yield no issue exactly when the string meets the field's constraint |
| Validators.NumberFailures | src/lib/validators.ts:8-26 | a number field's checks yield no issue exactly when the number meets the field's constraint |
| Validators.AtPath | src/lib/validators.ts:3-28 | each failing check becomes one issue at the field's path, in order |
| Validators.MissingIssues | src/lib/validators.ts:3-28 | an absent key gives one "Required" issue exactly when the schema requires it |
| Validators.StringIssues | src/lib/validators.ts:3-28 | a string key yields no issue exactly when it is present or optional, and its value, if any, passes |
| Validators.NumberIssues | src/lib/validators.ts:8-26 | a number key yields no issue exactly when it is present or optional, and its value, if any, passes |
| Validators.BoolIssues | src/lib/validators.ts:25-27 | a boolean key yields an issue only when it is required and absent |
| Validators.LocationIssues | src/lib/validators.ts:16-21 | a location yields no issue exactly when it is absent or both coordinates are in range |
| Validators.DescriptionIssues | src/lib/validators.ts:4-7 | title, description, category and type yield no issue exactly when they meet their constraints |
| Validators.PriceIssues | src/lib/validators.ts:8-12 | the price, deposit and currency keys yield no issue exactly when they meet their constraints |
| Validators.PlaceIssues | src/lib/validators.ts:13-21 | the address and location keys yield no issue exactly when the country code and the coordinates are valid |
| Validators.TermsIssues | src/lib/validators.ts:22-27 | the rental-terms keys yield no issue exactly when they meet their constraints |
| Validators.IssuesEmptyIff | src/lib/validators.ts:3-30 | a body gets no issue exactly when it meets every constraint |
| Validators.EveryFailingCheckReported | src/lib/validators.ts:4-19 | every failing check is reported: a daily price of -1.5 gives two issues, a 4-character title one, and an out-of-range location one per coordinate |
| Validators.IntOf | src/lib/validators.ts:8-26 | an integer field is present after parsing exactly when it was present in the body |
| Validators.ParseCreate | src/lib/validators.ts:3-28 | a rejected body is reported as a schema failure with at least one issue |
| Validators.CreateAcceptsIff | src/lib/validators.ts:3-28 | a body is accepted exactly when every field constraint holds |
| Validators.ParsedIsValid | src/lib/validators.ts:3-28 | whatever the create schema accepts meets the constraints on the typed values |
| Validators.CreateRoundTrip | src/lib/validators.ts:3-28 | every valid input, sent as a body and parsed back, is the same input |
| Validators.CreateDefaults | src/lib/validators.ts:7-27 | absent fields take the defaults: offer, deposit 0, USD, flexible, 1 hour minimum, no delivery, fee 0, pickup |
| Validators.CreateRequiresTitleAndDailyPrice | src/lib/validators.ts:4-9 | a body without a title or a daily price is always rejected |
| Validators.TitleLengthExamples | src/lib/validators.ts:4 | a 4-character title is rejected and a 5-character one accepted |
| Validators.ParseUpdate | src/lib/validators.ts:30 | a rejected update is reported as a schema failure with at least one issue |
| Validators.EmptyUpdateAccepted | src/lib/validators.ts:30 | the empty object is a valid update that sets no field |
| Validators.UpdateAcceptsIff | src/lib/validators.ts:30 | an update is accepted exactly when each field it holds meets the create constraint |
| Validators.UpdateNoDefaults | src/lib/validators.ts:30 | the partial schema fills in no default, so an absent field stays absent |
| Validators.ParseListingId | src/lib/validators.ts:32-34 | an id is accepted exactly when it is a UUID |
| Validators.DashedBlocksAreUuid | src/lib/validators.ts:33 | five hex blocks of lengths 8-4-4-4-12 joined by dashes form a UUID |
| Listings.PointOf | src/services/listing.service.ts:11 | a location is stored as a point with longitude first |
| Listings.GetListing | src/services/listing.service.ts:46-56 | the row is returned exactly when it exists and is not soft-deleted; otherwise NotFound |
| Listings.CreateListing | src/services/listing.service.ts:6-44 | the store and result are those of `CreateListingSpec` |
| Listings.UpdateListing | src/services/listing.service.ts:72-97 | the store and result are those of `UpdateListingSpec` |
| Listings.DeleteListing | src/services/listing.service.ts:99-114 | the store and result are those of `DeleteListingSpec` |
| Listings.PublishListing | src/services/listing.service.ts:116-135 | the store and result are those of `PublishListingSpec` |
| Listings.GetUserListings | src/services/listing.service.ts:137-153 | the owner's undeleted listings, narrowed by a non-empty status filter; a failing read is a DatabaseError |
| Listings.CreatedIsDraft | src/services/listing.service.ts:6-44 | a created listing is a visible draft of its owner, never published, located longitude first |
| Listings.FailuresChangeNothing | src/services/listing.service.ts:6-135 | every failing create, update, delete or publish leaves the store unchanged |
| Listings.OwnerOnly | src/services/listing.service.ts:79-84 | update, delete and publish of a visible listing by anyone but its owner fail with Forbidden |
| Listings.MissingIsNotFound | src/services/listing.service.ts:46-56 | every operation on a missing or deleted listing fails with NotFound before any other check |
| Listings.PublishOnlyDrafts | src/services/listing.service.ts:122-128 | publishing succeeds only on the owner's draft, and makes it active with a publication time |
| Listings.DeleteIsSoft | src/services/listing.service.ts:105-110 | deletion keeps the row with a deletion time, and reads no longer see it |
| Listings.UpdateAppliesPatch | src/services/listing.service.ts:82-93 | an update sets the fields the patch holds, keeps the rest, and never touches owner or status |
| Listings.OtherRowsUntouched | src/services/listing.service.ts:6-135 | each operation writes at most the one listing row it names |
| Bookings.FindBooking | src/services/booking.service.ts:45-69 | the row when it exists, otherwise NotFound "Booking not found" |
| Bookings.GetBooking | src/services/booking.service.ts:499-512 | a booking is returned exactly to its renter or owner; others get Forbidden and a missing one NotFound |
| Bookings.GetUserBookings | src/services/booking.service.ts:71-97 | the user's bookings on either side, narrowed by role; a failing read is "Failed to get bookings: ..." |
| Bookings.CreateBooking | src/services/booking.service.ts:100-256 | the store and result are those of `CreateBookingSpec`, whose conflict query joins the two date conditions with OR as the code does |
| Bookings.Settle | src/services/booking.service.ts:269-284 | the ledger becomes `SettleLedger` of the old one; nothing else changes |
| Bookings.Write | src/services/booking.service.ts:288-298 | the final booking update: the store and result are those of `WriteBooking` |
| Bookings.Approve | src/services/booking.service.ts:258-311 | the store and result are those of `ApproveSpec` |
| Bookings.Decline | src/services/booking.service.ts:313-358 | the store and result are those of `DeclineSpec` |
| Bookings.Cancel | src/services/booking.service.ts:360-427 | the store and result are those of `CancelSpec` |
| Bookings.Activate | src/services/booking.service.ts:429-460 | the store and result are those of `ActivateSpec` |
| Bookings.Complete | src/services/booking.service.ts:462-497 | the store and result are those of `CompleteSpec` |
| BookingLemmas.CreateSucceedsIff | src/services/booking.service.ts:106-188 | a booking is created exactly when the listing is bookable, no live booking on it meets the conflict query as written (it starts before the request ends or ends after the request starts) and the insert works; each failure has its own error and writes nothing |
| BookingLemmas.OnlyActiveListingsBookable | src/services/booking.service.ts:106-120 | a draft, paused, archived or soft-deleted listing is never bookable |
| BookingLemmas.NewBookingShape | src/services/booking.service.ts:145-184 | a new booking is requested and unpaid, belongs to the renter and the listing's owner, is priced in the listing's currency with the pricing computed at a 12% service fee, and its total is the sum of its parts; a delivery fee only for delivery from a listing that offers it |
| BookingLemmas.PreAuthNeverBlocksBooking | src/services/booking.service.ts:207-234 | a failed pre-auth still stores the booking, with an empty checkout URL and no ledger row; a successful one adds one pending pre-auth row for the booking's total |
| BookingLemmas.AsWrittenBlocksEveryLiveBooking | src/services/booking.service.ts:124-129 | the date condition as written holds for every live booking on the listing |
| BookingLemmas.AsWrittenRejectsDisjointDates | src/services/booking.service.ts:124-143 | a booking for hours 0-1 blocks a request for hours 5-6 as written, though the two do not overlap |
| BookingLemmas.OverlapIffSharedInstant | src/services/booking.service.ts:129 | two half-open intervals overlap exactly when some instant lies in both; overlap is symmetric |
| BookingLemmas.CreateRefusedByAnyLiveBooking | src/services/booking.service.ts:124-143 | as written, one live booking of positive length on the listing refuses every request of positive length with Conflict, and nothing is written |
| BookingLemmas.OverlapMeetsQuery | src/services/booking.service.ts:124-129 | every live booking that overlaps the requested dates also meets the query as written |
| BookingLemmas.IntendedCreateSucceedsIff | src/services/booking.service.ts:106-188 | with the two date conditions joined by AND, a booking is created exactly when the listing is bookable, no live booking on it overlaps the dates and the insert works; dates clear of every live booking are accepted |
| BookingLemmas.CreateKeepsNoDoubleBooking | src/services/booking.service.ts:124-184 | creating a booking as written, under a fresh id, keeps every listing free of overlapping live bookings, because the query refuses every overlap |
| BookingLemmas.IntendedCreateKeepsNoDoubleBooking | src/services/booking.service.ts:124-184 | the same holds with the conditions joined by AND |
| BookingLemmas.RewriteKeepsNoDoubleBooking | src/services/booking.service.ts:288-298 | rewriting a booking with the same listing and dates, live only if it was, keeps that invariant |
| BookingLemmas.ApproveKeepsNoDoubleBooking | src/services/booking.service.ts:258-311 | approval keeps the invariant |
| BookingLemmas.DeclineKeepsNoDoubleBooking | src/services/booking.service.ts:313-358 | declining keeps the invariant |
| BookingLemmas.CancelKeepsNoDoubleBooking | src/services/booking.service.ts:360-427 | cancelling keeps the invariant |
| BookingLemmas.ActivateKeepsNoDoubleBooking | src/services/booking.service.ts:429-460 | activation keeps the invariant |
| BookingLemmas.CompleteKeepsNoDoubleBooking | src/services/booking.service.ts:462-497 | completion keeps the invariant |
| BookingLemmas.ApproveOnlyOwnerFromRequested | src/services/booking.service.ts:258-311 | approval succeeds exactly for the owner of a requested booking whose write works; a failed guard writes nothing |
| BookingLemmas.DeclineOnlyOwnerFromRequested | src/services/booking.service.ts:313-358 | declining succeeds exactly for the owner of a requested booking whose write works; a failed guard writes nothing |
| BookingLemmas.CancelOnlyPartiesWhileLive | src/services/booking.service.ts:360-427 | cancelling succeeds exactly for a party to a requested, approved or active booking whose write works; a missing booking gives NotFound, a non-party on a live booking gets Forbidden, and neither they nor a booking that is not live cause a write |
| BookingLemmas.ActivateOnlyFromApproved | src/services/booking.service.ts:429-460 | activation needs an approved booking; otherwise it is a ValidationError and writes nothing |
| BookingLemmas.CompleteOnlyFromActive | src/services/booking.service.ts:462-497 | completion needs an active booking; the actor is "system", so anyone may trigger it |
| BookingLemmas.SettleOnlyAfterReturn | src/services/booking.service.ts:269-284 | settling touches only the rows that carry the first ledger row's gateway id, and only when the adapter call returned |
| BookingLemmas.ApprovalIndependentOfCapture | src/services/booking.service.ts:269-298 | once the guards pass, the stored booking and the result do not depend on what the capture did; a failed booking write still leaves the ledger settled |
| BookingLemmas.DeclineIndependentOfCancel | src/services/booking.service.ts:324-353 | once the guards pass, declining is not blocked by the pre-auth cancel |
| BookingLemmas.CancelChoosesRefundOrVoid | src/services/booking.service.ts:372-398 | cancelling an active booking refunds and marks the rows refunded; otherwise it voids the pre-auth and marks them cancelled |
| BookingLemmas.CancelRecordsActor | src/services/booking.service.ts:400-411 | a cancelled booking records when and by whom; an absent reason keeps the stored one |
| BookingLemmas.RolesPartitionUserBookings | src/services/booking.service.ts:71-97 | the renter-role and owner-role lists are within the user's full list, and together they cover it |
| Payment.FormatReqTime | src/services/payment.service.ts:8-11 | at most 14 characters, none of them a separator of the ISO timestamp |
| Payment.ReqTimeOfIsoTimestamp | src/services/payment.service.ts:8-11 | for `YYYY-MM-DDTHH:mm:ss.sssZ` the request time is `YYYYMMDDHHmmss` |
| Payment.TranId | src/services/payment.service.ts:40 | "RNT" followed by at most 12 characters, none of them a dash |
| Payment.TranIdOfUuid | src/services/payment.service.ts:40 | for a UUID the transaction id is "RNT" followed by its first two blocks |
| Payment.PreAuthBodyFixedFields | src/services/payment.service.ts:35-85 | the purchase request asks for a 30-minute USD pre-authorisation of the renter's total, signed over time, merchant, tran id, amount, items and "pre-auth"; its custom fields name the booking and its owner, and its one payout entry goes to the owner's beneficiary account; the payout amount does not change the signature |
| Payment.PreAuthPayoutAmount | src/services/payment.service.ts:77-84 | the payout amount is digits, a dot and two digits that read back as the owner payout in cents |
| Payment.MerchantCallsShareSignature | src/services/payment.service.ts:114-243 | capture, cancel, refund and check sign the same string for the same moment and transaction |
| Payment.PreAuthReadsReply | src/services/payment.service.ts:92-103 | a pre-auth throws exactly on a failed HTTP exchange; otherwise it reports the derived tran id twice and the page as checkout URL |
| Payment.CaptureNeverReportsFailure | src/services/payment.service.ts:133-147 | capture either throws or reports success, and it succeeds exactly when the exchange succeeds, the body is JSON and the status is "00" |
| Payment.CancelRefundReportFailure | src/services/payment.service.ts:176-224 | cancel and refund throw exactly when the exchange fails ("PayWay cancel failed: " or "PayWay refund failed: " and the status text) or the body is not JSON; a status other than "00" comes back as `success = false` |
| Payment.CheckDefaults | src/services/payment.service.ts:254-264 | a failed exchange throws "PayWay check transaction failed: " and the status text, a body that is not JSON throws; otherwise a truthy status, amount and currency are returned as given, and missing or empty ones read as "UNKNOWN", 0 and "USD" |
| Payment.DropKey | src/services/payment.service.ts:268 | the rest object holds exactly the entries not keyed "hash" |
| Payment.SortEntriesSorted | src/services/payment.service.ts:269-270 | sorting yields a sorted arrangement of the same entries |
| Payment.SortedUnique | src/services/payment.service.ts:269-270 | two sorted arrangements of the same entries are equal |
| Payment.DataStringOrderIndependent | src/services/payment.service.ts:269-272 | the signed string depends only on which entries the payload holds, not on their order |
| Payment.CallbackOrderIndependent | src/services/payment.service.ts:267-276 | any two arrangements of the same object verify alike |
| Payment.SignThenVerify | src/services/payment.service.ts:267-276 | data signed with the key and sent with that signature as "hash" verifies |
| Payment.UnsignedNeverVerifies | src/services/payment.service.ts:275 | a payload without a "hash" entry never verifies |
| PaymentRoutes.Reconcile | src/routes/payments.routes.ts:18-38 | the store becomes `ApplyCallback` of the old store |
| PaymentRoutes.Callback | src/routes/payments.routes.ts:7-42 | the store and result are those of `CallbackSpec` |
| PaymentRoutes.TransactionStatus | src/routes/payments.routes.ts:44-62 | 404 exactly when the row is missing or has no gateway id; otherwise the gateway's answer, or its error |
| PaymentRoutes.Refund | src/routes/payments.routes.ts:64-93 | the store and result are those of `RefundSpec` |
| PaymentRoutes.InvalidHashWritesNothing | src/routes/payments.routes.ts:12-14 | a callback with a bad signature is answered 400 and writes nothing |
| PaymentRoutes.CallbackAlwaysAnswers | src/routes/payments.routes.ts:7-42 | every callback gets an answer: 200 exactly when the signature verifies |
| PaymentRoutes.CallbackReconciles | src/routes/payments.routes.ts:18-38 | with exactly one row carrying the id, those rows become authorized or failed with the payload as metadata, other rows are untouched, and only an approval flags the booking |
| PaymentRoutes.CallbackNeverClearsAuthorization | src/routes/payments.routes.ts:33-38 | a callback never clears a booking's payment flag and changes nothing else in any booking |
| PaymentRoutes.UnknownTranIdWritesNothing | src/routes/payments.routes.ts:18-24 | an unknown or ambiguous gateway id writes nothing, and the callback still succeeds |
| PaymentRoutes.RefundGuards | src/routes/payments.routes.ts:69-90 | 404 for a missing row, 400 unless it is completed; the row becomes refunded exactly when the gateway reports success, and no other row changes |
| PaymentRoutes.StatusNeedsGatewayId | src/routes/payments.routes.ts:55-57 | a row without a gateway id is answered 404 whatever the gateway would say |
| MockPayment.RandomSuffix | src/services/mock-payment.service.ts:30 | at most six characters, those after the leading "0." |
| MockPayment.MockPreAuthShape | src/services/mock-payment.service.ts:25-37 | the mock id is "MOCK", then the clock's digits (which read back as the clock), then at most six upper-case characters; both ids agree, and the URL carries the id with status pending |
| MockPayment.MockNeverFails | src/services/mock-payment.service.ts:25-80 | no mock operation fails, and none depends on environment, booking or pricing |
| MockPayment.MockCancellationSettles | src/services/mock-payment.service.ts:50-69 | with the mock, every cancellation settles the first ledger row's gateway id |
| MockPaymentRoutes.Checkout | src/routes/mock-payment.routes.ts:45-71 | the checkout returns the mock transaction id and its pending URL |
| MockPaymentRoutes.ParseAction | src/routes/mock-payment.routes.ts:23-26 | an action parses only from its own name |
| MockPaymentRoutes.MockStatus | src/routes/mock-payment.routes.ts:140-152 | the status reply echoes the id asked about |
| MockPaymentRoutes.SimulateCallback | src/routes/mock-payment.routes.ts:172-199 | the store and result are those of `SimulateCallbackSpec` |
| MockPaymentRoutes.ActionNamesRoundTrip | src/routes/mock-payment.routes.ts:25 | each action name parses back to its action, and nothing else parses |
| MockPaymentRoutes.ActionRunsItsOperation | src/routes/mock-payment.routes.ts:96-117 | each action runs exactly its own mock operation and reports captured, cancelled or refunded, never "unknown" |
| MockPaymentRoutes.StatusMapOtherwiseUnknown | src/routes/mock-payment.routes.ts:115 | any other key maps to "unknown" |
| MockPaymentRoutes.MockStatusFixed | src/routes/mock-payment.routes.ts:140-152 | the status query always reports pending, 0 and USD |
| MockPaymentRoutes.SimulatedCallbackReconciles | src/routes/mock-payment.routes.ts:176-198 | with exactly one row carrying the id, those rows become authorized or failed with their metadata kept, and only APPROVED flags the booking |
| MockPaymentRoutes.SimulatedUnknownIdWritesNothing | src/routes/mock-payment.routes.ts:176-198 | an unknown id writes nothing, and the reply still reports success |
| MockPaymentRoutes.SimulatedMatchesSigned | src/routes/mock-payment.routes.ts:182-196 | an accepted signed callback and a simulated one differ only in the metadata they store |
| Reviews.ByBookingAndReviewer | src/services/review.service.ts:20-32 | exactly the reviews of that booking by that reviewer |
| Reviews.DisplayName | src/services/review.service.ts:139 | an absent or empty display name falls back to "Someone" |
| Reviews.CreateReview | src/services/review.service.ts:62-114 | the store and result are those of `CreateReviewSpec` |
| Reviews.NewestFirst | src/services/review.service.ts:34-60 | exactly the reviews matching the filter |
| Reviews.ListingReviews | src/services/review.service.ts:34-46 | exactly the listing's reviews; a failing read is "Failed to get reviews: ..." |
| Reviews.UserReviews | src/services/review.service.ts:48-60 | exactly the reviews about the user; a failing read is "Failed to get reviews: ..." |
| Reviews.CreateReviewGuards | src/services/review.service.ts:63-107 | the guards in source order: rating, booking found, completed, participant, not yet reviewed, insert works; the review is created exactly when all pass |
| Reviews.CreatedReviewShape | src/services/review.service.ts:85-142 | the stored review copies the booking's listing, targets the other party, and gives them one notification whose body is "Rating: " and that many stars |
| Reviews.NotificationTitle | src/services/review.service.ts:139 | the notification title names the reviewer, falling back to "Someone" |
| Reviews.AtMostOneMatch | src/services/review.service.ts:20-32 | without duplicates, the single-row lookup sees every existing review |
| Reviews.CreateReviewKeepsInvariants | src/services/review.service.ts:62-114 | creating a review keeps ratings within 1..5 and at most one review per reviewer and booking |
| Reviews.NewestFirstIsReversedInsertionOrder | src/services/review.service.ts:39 | the newest-first list, reversed, is the matching rows in insertion order |
| Messages.FindThread | src/services/message.service.ts:26-38 | the thread when it exists, otherwise NotFound "Thread not found" |
| Messages.CreateThread | src/services/message.service.ts:40-60 | the store and result are those of `CreateThreadSpec` |
| Messages.GetThread | src/services/message.service.ts:208-220 | a thread is returned exactly to its participants; others get Forbidden |
| Messages.UserThreads | src/services/message.service.ts:62-74 | exactly the threads listing the user; a failing read is "Failed to get threads: ..." |
| Messages.Others | src/services/message.service.ts:101 | exactly the participants other than the sender, never more entries than the participant list |
| Messages.MessageNotifications | src/services/message.service.ts:189-195 | one notification per recipient |
| Messages.SendMessage | src/services/message.service.ts:76-126 | the store and result are those of `SendMessageSpec` |
| Messages.InThread | src/services/message.service.ts:136-145 | the thread's messages the cursor selects, oldest first |
| Messages.FindMessages | src/services/message.service.ts:128-154 | NotFound for a missing thread, "Failed to get messages: ..." for a failing read, and a page otherwise |
| Messages.MarkRead | src/services/message.service.ts:159-164 | the update keeps every message in place, one for one |
| Messages.MarkAsRead | src/services/message.service.ts:156-165 | the store and result are those of `MarkAsReadSpec` |
| Messages.CreateThreadGuard | src/services/message.service.ts:40-60 | creating a thread requires the creator among the participants, and stores the thread as given |
| Messages.SendMessageGuard | src/services/message.service.ts:81-99 | only a participant of an existing thread can send to it; a refused message writes nothing |
| Messages.OthersCount | src/services/message.service.ts:101 | the filter keeps as many entries as there are occurrences of participants other than the sender, fewer than it was given when the sender is among them, and the same multiset with the sender removed |
| Messages.OthersMultiset | src/services/message.service.ts:101 | the filtered list is the participant multiset with every occurrence of the sender removed |
| Messages.OthersOccurrences | src/services/message.service.ts:101 | each participant other than the sender occurs as often after the filter as before, and the sender never |
| Messages.SendMessageFansOut | src/services/message.service.ts:87-102 | a sent message is appended unread, with one notification per other participant, none for the sender |
| Messages.FindMessagesIsNewestPage | src/services/message.service.ts:136-153 | the page is the newest `limit` selected messages (50 by default), oldest first |
| Messages.FindMessagesBounds | src/services/message.service.ts:141 | the page holds at most `limit` rows, exactly `limit` when at least that many rows are selected, and every selected row when there are no more than `limit`; each row belongs to the thread and lies before the cursor |
| Messages.InThreadChronological | src/services/message.service.ts:140 | a chronological table yields chronological selected rows |
| Messages.PagesAreChronological | src/services/message.service.ts:140-153 | a chronological table yields a chronological page |
| Messages.SendKeepsChronological | src/services/message.service.ts:87-95 | a message sent no earlier than every stored one keeps the table chronological |
| Messages.MarkAsReadEffect | src/services/message.service.ts:156-165 | exactly the thread's unread messages from other senders are stamped, and afterwards none of them is unread |
| Messages.MarkReadIdempotent | src/services/message.service.ts:164 | marking as read twice is marking once |
| Messages.ReadsSkipParticipation | src/services/message.service.ts:128-165 | reading a page and marking as read do not check participation |
| RateLimit.Swept | src/middleware/rate-limit.ts:26-31 | exactly the entries whose `resetTime` is not before the window start survive, unchanged |
| RateLimit.RateLimitStore.constructor | src/middleware/rate-limit.ts:11 | the store starts empty |
| RateLimit.RateLimitStore.Sweep | src/middleware/rate-limit.ts:27-31 | the loop over the keys leaves exactly `Swept` of the old store |
| RateLimit.RateLimitStore.Check | src/middleware/rate-limit.ts:18-60 | the new store and the decision are those of `LimitSpec` |
| RateLimit.RejectIffAtLimit | src/middleware/rate-limit.ts:33-49 | a request is rejected exactly when its count has reached the maximum; a rejection keeps the entry, an acceptance adds one; other keys keep their entries and stale keys are gone |
| RateLimit.RejectionError | src/middleware/rate-limit.ts:45 | the rejection is a plain 429 RATE_LIMIT_EXCEEDED application error with the fixed message |
| RateLimit.CountNeverExceedsMax | src/middleware/rate-limit.ts:42-49 | no count ever passes a non-negative maximum |
| RateLimit.RemainingHeader | src/middleware/rate-limit.ts:52-57 | an accepted request reports the limit, the non-negative requests left, and the window end |
| RateLimit.RetryAfterSeconds | src/middleware/rate-limit.ts:43 | Retry-After is the time to the window end, rounded up to whole seconds |
| RateLimit.CountResetsOnlyWhenSwept | src/middleware/rate-limit.ts:24-39 | a count restarts only when its entry is swept, one window after `resetTime` |
| RateLimit.StillLimitedAfterReset | src/middleware/rate-limit.ts:24-46 | a key at its limit whose window ended less than a window ago is still rejected, with Retry-After of zero or less |
| ErrorHandler.JoinPath | src/middleware/error-handler.ts:37 | joining no segment gives "", one segment gives itself |
| ErrorHandler.JoinPathAppend | src/middleware/error-handler.ts:37 | one more segment adds a dot and the segment |
| ErrorHandler.AppDetails | src/middleware/error-handler.ts:95-97 | an application error has details exactly when it is a database error with an original error or a rate-limit error with a retry-after |
| ErrorHandler.FieldIssues | src/middleware/error-handler.ts:36-39 | one detail per schema issue |
| ErrorHandler.SchemaFailureEnvelope | src/middleware/error-handler.ts:19-44 | a schema failure is 400 VALIDATION_ERROR "Validation failed", with one detail per issue: the dotted path and the message |
| ErrorHandler.RateLimitEnvelope | src/middleware/error-handler.ts:46-73 | a RateLimitError is 429 with its own code and message; retry_after appears only when it is set and non-zero |
| ErrorHandler.AppErrorEnvelope | src/middleware/error-handler.ts:75-100 | any other application error keeps its status, code and message, and has details only when it carries them |
| ErrorHandler.UnexpectedErrorEnvelope | src/middleware/error-handler.ts:102-126 | anything else is 500 INTERNAL_ERROR; production hides the message and the stack, and elsewhere both are the error's own |
| ErrorHandler.EnvelopeCarriesRequestId | src/middleware/error-handler.ts:17-126 | every envelope carries the request id, and no stack appears in production |
| ErrorHandler.MiddlewareLimitTakesGenericBranch | src/middleware/rate-limit.ts:45 | the limiter's rejection takes the generic application-error branch: 429 RATE_LIMIT_EXCEEDED with no retry_after member |

## Left out

- HTTP itself is not modelled: routing, request parsing, authentication middleware, response serialisation and header setting. Route handlers are functions from their parsed inputs to a reply value.
- SHA-512 and base64 are one uninterpreted function passed in. The base64 encoding of the pre-auth items and the callback URL is supplied already encoded.
- Logging and Sentry error reporting produce no observable effect in the model.
- These store writes have their errors ignored, and the model ignores them too: the pre-auth ledger insert, the ledger settlement updates, the callback updates, the refund route's ledger update (src/routes/payments.routes.ts:85-89), the notification inserts and the mark-as-read update.
- The conflict query's own error is ignored by the source, so a failing query counts as "no conflict". The model has no separate read error for it.
- Concurrency is not modelled. Each operation runs alone on the store, so the read-then-write race between two concurrent booking requests is not represented.
- The rate-limit store shared by all limiters is one `RateLimitStore`. The key generators, which read headers, the path or the user id, are represented by the key given as input.
- Fresh row ids, the clock and the random text behind mock ids are parameters. So are profile display names: the reviewer's, the sender's and the renter's name split into first and last name for PayWay.
- Pricing uses integers. `Math.round` of a fraction is exact for the whole-number percentages the source uses (12, 5, 10, 6). The mock checkout's `amount * 0.88` owner payout is ignored by the mock and not modelled.
- The schemas' numbers are reals; the rest of the model uses integers. Non-integer ratings are not modelled, since a review rating is an integer.
- Strings are sequences of characters. JavaScript's UTF-16 lengths, which `slice` and `repeat` use, are taken to be character counts. So the star in a review notification is one character.
- `created_at` and `last_message_at` orderings are taken to be insertion order. `findUserThreads` therefore returns a set, its order left out. The `before` cursor of `findMessages` is a timestamp compared as an integer.
- The notification `data` member (review, thread and message ids) is not modelled.
- `getListingWithMedia` and the profile join of listing and review queries are not modelled. Their data comes from tables that are not part of this model.
- `isAppError`, `DatabaseError` and `RateLimitError` are imported from src/lib/errors.ts, but that file does not define them. Their status, code and details follow tests/unit/errors.test.ts.
- PaymentRoutes.Callback: a payload without `tran_id` queries for the text "undefined", as the template string does. Only a row with that literal gateway id would match.
- Messages.FindMessages: takes the user id and ignores it, as the source does.
- Payment.TranId: the `.replace(/-/g, "")` of the booking id is modelled on characters. The id is not required to be a UUID, so the result may be shorter than 15 characters.
- Bookings.Write: the final update's `.select().single()` is taken to return the updated row. A missing row after a successful update is not modelled.
- Bookings.GetUserBookings: returns a set, so the `created_at` descending order of the query is not modelled. The tables are maps keyed by id and hold no insertion order.
- Listings.GetUserListings: returns a set, so the `created_at` descending order of the query is not modelled, for the same reason.
- Validators.Issues: Zod 3 behaviour is assumed. Every check of a chain runs and reports its own issue. `.partial()` makes each key optional and fills no default. `uuid()` accepts any 8-4-4-4-12 string of hexadecimal digits.
- Validators.Issues: a key whose JSON value has the wrong type, such as a number for `title`, cannot be expressed, because each key holds a value of its schema type. Zod's "Expected string, received number" issue is therefore not modelled. Nor is a `location` object that lacks `lat` or `lng`, or an unknown key.
- Text.CentsToFixed: computes `(cents / 100).toFixed(2)` exactly. JavaScript's floating-point division and rounding agree with it only while the amount is below about 10^15 cents.
- Payment.PreAuthBody: `custom_fields` and `payout` are kept as structured values. The text that `JSON.stringify` makes of them is not modelled.
- Payment.HttpReply: a body that is not JSON is one error message (`jsonError`), standing for what `response.json()` throws. The parser's own wording is an input.

## Behaviours worth knowing

- The conflict check of `createBooking` joins its two date conditions with OR (src/services/booking.service.ts:129). Any live booking of positive length therefore blocks every request on the listing. The model follows the code (`Bookings.CreateBookingSpec`) and keeps the interval-overlap version beside it (`Bookings.CreateBookingIntendedSpec`). This is recorded below as a finding.
- A second review of the same booking is refused with a ValidationError, status 400, "You have already reviewed this booking" (src/services/review.service.ts:89), not with a Conflict.
- The rate limiter keeps its counters in process memory. Two behaviours follow from the way it is written:
  - a key at its limit stays rejected after its `resetTime`, until the sweep one window later removes it (`RateLimit.StillLimitedAfterReset`);
  - the limiter throws a plain AppError, so the error handler's rate-limit branch never sees it (`ErrorHandler.MiddlewareLimitTakesGenericBranch`).

## Findings

| source | as written | input that shows it | evidently intended | confidence | as-written member | corrected member |
|---|---|---|---|---|---|---|
| src/services/booking.service.ts:129 | `.or("start_time.lt.END,end_time.gt.START")` treats a live booking as conflicting when it starts before the request ends OR ends after it starts. That holds for every live booking on the listing. | An existing requested booking for hours 0-1 and a request for hours 5-6 on the same listing: the request is rejected with Conflict. | Both conditions, so that a booking conflicts exactly when the intervals overlap. | high (not executed) | BookingLemmas.CreateRefusedByAnyLiveBooking | BookingLemmas.IntendedCreateSucceedsIff |
