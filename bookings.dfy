/**
 * The booking service (src/services/booking.service.ts): request a booking on
 * an active listing, then move it through the state machine (approve,
 * decline, cancel, activate, complete), settling the payment ledger through
 * the gateway on the way.
 *
 * As for listings, each operation is a specification function over the
 * store's value returning `Step(tables, result)`, and a method on a Database
 * proved to agree with it. What the gateway adapter did (returned or threw)
 * is an input, as are store write failures, generated ids and the clock.
 */
module Bookings {
  import opened Errors
  import opened Rows
  import opened Pricing
  import opened BookingMachine
  import opened Payment

  /** The request body of `POST /bookings`, times in milliseconds since the epoch. */
  datatype BookingRequest = BookingRequest(
    listingId: string,
    startTime: int,
    endTime: int,
    deliveryMethod: Option<DeliveryMethod>,
    deliveryAddress: Option<string>,
    protectionPlan: Option<ProtectionPlan>)

  /** What `createBooking` returns: the stored row and the checkout URL ("" when pre-auth failed). */
  datatype Created = Created(booking: Booking, checkoutUrl: string)

  /** The `role` filter of the bookings list. */
  datatype Role = AsRenter | AsOwner

  /** The service fee rate the booking service passes to pricing, in percent. */
  const ServiceFeePercent: int := 12

  // ---------------------------------------------------------------------------
  // Queries

  /** A listing a renter may book: it exists, is active and is not soft-deleted. */
  predicate Bookable(t: Tables, listingId: string)
  {
    listingId in t.listings
    && t.listings[listingId].status == ListingActive
    && t.listings[listingId].deletedAt.None?
  }

  /** A booking that still holds its dates: requested, approved or active. */
  predicate Live(b: Booking)
  {
    b.status == Requested || b.status == Approved || b.status == Active
  }

  /**
   * The conflict filter as the query states it: same listing, live, and
   * `start_time < end OR end_time > start`.
   */
  predicate ClashesAsWritten(b: Booking, req: BookingRequest)
  {
    b.listingId == req.listingId && Live(b)
    && (b.startTime < req.endTime || b.endTime > req.startTime)
  }

  /** Two half-open intervals [start, end) share an instant. */
  predicate Overlap(s1: int, e1: int, s2: int, e2: int)
  {
    s1 < e2 && s2 < e1
  }

  /** The conflict filter with the two date conditions joined by AND: the dates overlap. */
  predicate Clashes(b: Booking, req: BookingRequest)
  {
    b.listingId == req.listingId && Live(b)
    && Overlap(b.startTime, b.endTime, req.startTime, req.endTime)
  }

  /** The conflict query as `createBooking` runs it: some stored booking meets the `.or` filter. */
  predicate HasConflict(t: Tables, req: BookingRequest)
  {
    exists id :: id in t.bookings && ClashesAsWritten(t.bookings[id], req)
  }

  /** The conflict query with the conditions joined by AND: some live booking on the listing overlaps the dates. */
  predicate HasOverlap(t: Tables, req: BookingRequest)
  {
    exists id :: id in t.bookings && Clashes(t.bookings[id], req)
  }

  /** `findById` / `findByIdWithTransactions`: the row or NotFound. */
  function FindBooking(t: Tables, id: string): (r: Result<Booking>)
    ensures r.Ok? <==> id in t.bookings
    ensures r.Ok? ==> r.value == t.bookings[id]
    ensures r.Err? ==> r.error == App(NotFoundError("Booking not found"))
  {
    if id in t.bookings then Ok(t.bookings[id]) else Err(App(NotFoundError("Booking not found")))
  }

  /** `getBooking`: only the renter and the owner may read a booking. */
  function GetBooking(t: Tables, id: string, userId: string): (r: Result<Booking>)
    ensures r.Ok? <==> id in t.bookings && (t.bookings[id].renterId == userId || t.bookings[id].ownerId == userId)
    ensures r.Ok? ==> r.value == t.bookings[id]
    ensures id !in t.bookings ==> r == Err(App(NotFoundError("Booking not found")))
    ensures id in t.bookings && r.Err? ==> r == Err(App(ForbiddenError("You can only view your own bookings")))
  {
    match FindBooking(t, id)
    case Err(e) => Err(e)
    case Ok(b) =>
      if b.renterId != userId && b.ownerId != userId then Err(App(ForbiddenError("You can only view your own bookings")))
      else Ok(b)
  }

  predicate InRole(b: Booking, userId: string, role: Option<Role>)
  {
    (b.renterId == userId || b.ownerId == userId)
    && (role == Some(AsRenter) ==> b.renterId == userId)
    && (role == Some(AsOwner) ==> b.ownerId == userId)
  }

  /** `getUserBookings`: the user's bookings on either side, narrowed by role; `readError` is a failing query. */
  function GetUserBookings(t: Tables, userId: string, role: Option<Role>, readError: Option<string>): (r: Result<set<Booking>>)
    ensures readError.Some? <==> r.Err?
    ensures r.Err? ==> r.error == App(DatabaseError("Failed to get bookings: " + readError.value))
    ensures r.Ok? ==> forall b :: b in r.value <==> b in t.bookings.Values && InRole(b, userId, role)
  {
    if readError.Some? then Err(App(DatabaseError("Failed to get bookings: " + readError.value)))
    else Ok(set id | id in t.bookings && InRole(t.bookings[id], userId, role) :: t.bookings[id])
  }

  // ---------------------------------------------------------------------------
  // createBooking

  /** The pricing input built from the listing's rate card and the request. */
  function PricingFor(l: Listing, req: BookingRequest): PricingInput
  {
    PricingInput(
      req.startTime, req.endTime,
      l.details.priceHourly, l.details.priceDaily, l.details.priceWeekly, l.details.depositAmount,
      req.deliveryMethod.GetOr(Pickup),
      if l.details.deliveryAvailable && req.deliveryMethod == Some(Delivery) then l.details.deliveryFee else 0,
      req.protectionPlan.GetOr(NoProtection),
      ServiceFeePercent)
  }

  function NewBooking(id: string, renterId: string, l: Listing, req: BookingRequest, p: PricingResult): Booking
  {
    Booking(
      id := id, listingId := req.listingId, renterId := renterId, ownerId := l.ownerId,
      startTime := req.startTime, endTime := req.endTime,
      status := Requested, paymentAuthorized := false,
      subtotal := p.subtotal, serviceFee := p.serviceFee, deliveryFee := p.deliveryFee,
      protectionFee := p.protectionFee, depositAmount := p.depositAmount,
      totalAmount := p.totalRenterPays, ownerPayout := p.ownerPayout,
      currency := l.details.currency,
      deliveryMethod := req.deliveryMethod.GetOr(Pickup),
      deliveryAddress := req.deliveryAddress,
      protectionPlan := req.protectionPlan.GetOr(NoProtection),
      approvedAt := None, declinedAt := None, cancelledAt := None, cancelledBy := None,
      cancellationReason := None, startedAt := None, completedAt := None)
  }

  /** The pending pre-auth row recorded when the gateway accepted the pre-auth. */
  function PreAuthRow(txId: string, b: Booking, tranId: string): Transaction
  {
    Transaction(txId, b.id, PreAuth, TxPending, b.totalAmount, b.currency, Some(tranId), None, None)
  }

  /**
   * `createBooking`. `bookingId` and `txId` are the ids the store assigns,
   * `preAuth` is what `createPreAuth` did, `writeError` a failing booking insert.
   */
  function CreateBookingSpec(t: Tables, bookingId: string, txId: string, renterId: string, req: BookingRequest,
                             preAuth: PreAuthOutcome, writeError: Option<string>): Step<Created>
  {
    CreateChecked(t, HasConflict(t, req), bookingId, txId, renterId, req, preAuth, writeError)
  }

  /** `createBooking` with the conflict query's conditions joined by AND. */
  function CreateBookingIntendedSpec(t: Tables, bookingId: string, txId: string, renterId: string, req: BookingRequest,
                                     preAuth: PreAuthOutcome, writeError: Option<string>): Step<Created>
  {
    CreateChecked(t, HasOverlap(t, req), bookingId, txId, renterId, req, preAuth, writeError)
  }

  /** The body of `createBooking` once the conflict query has answered `conflict`. */
  function CreateChecked(t: Tables, conflict: bool, bookingId: string, txId: string, renterId: string, req: BookingRequest,
                         preAuth: PreAuthOutcome, writeError: Option<string>): Step<Created>
  {
    if !Bookable(t, req.listingId) then
      Step(t, Err(App(NotFoundError("Listing not found or not available"))))
    else if conflict then
      Step(t, Err(App(ConflictError("Listing is not available for the selected dates"))))
    else if writeError.Some? then
      Step(t, Err(App(DatabaseError("Failed to create booking: " + writeError.value))))
    else
      var l := t.listings[req.listingId];
      var b := NewBooking(bookingId, renterId, l, req, CalculatePricing(PricingFor(l, req)));
      var t1 := t.(bookings := t.bookings[bookingId := b]);
      match preAuth
      case PreAuthThrows(_) => Step(t1, Ok(Created(b, "")))
      case PreAuthReturns(_, tranId, url) =>
        Step(t1.(transactions := t1.transactions + [PreAuthRow(txId, b, tranId)]), Ok(Created(b, url)))
  }

  method CreateBooking(db: Database, bookingId: string, txId: string, renterId: string, req: BookingRequest,
                       preAuth: PreAuthOutcome, writeError: Option<string>) returns (r: Result<Created>)
    modifies db
    ensures (db.Snapshot(), r) == (CreateBookingSpec(old(db.Snapshot()), bookingId, txId, renterId, req, preAuth, writeError).tables,
                                   CreateBookingSpec(old(db.Snapshot()), bookingId, txId, renterId, req, preAuth, writeError).result)
  {
    ghost var t := db.Snapshot();
    if !(req.listingId in db.listings && db.listings[req.listingId].status == ListingActive
         && db.listings[req.listingId].deletedAt.None?) {
      return Err(App(NotFoundError("Listing not found or not available")));
    }
    var listing := db.listings[req.listingId];
    if exists id :: id in db.bookings && ClashesAsWritten(db.bookings[id], req) {
      return Err(App(ConflictError("Listing is not available for the selected dates")));
    }
    assert CreateBookingSpec(t, bookingId, txId, renterId, req, preAuth, writeError)
        == CreateChecked(t, false, bookingId, txId, renterId, req, preAuth, writeError);
    var pricing := CalculatePricing(PricingFor(listing, req));
    if writeError.Some? {
      return Err(App(DatabaseError("Failed to create booking: " + writeError.value)));
    }
    var booking := NewBooking(bookingId, renterId, listing, req, pricing);
    db.bookings := db.bookings[bookingId := booking];
    var checkoutUrl := "";
    if preAuth.PreAuthReturns? {
      checkoutUrl := preAuth.checkoutUrl;
      db.transactions := db.transactions + [PreAuthRow(txId, booking, preAuth.paywayTranId)];
    }
    return Ok(Created(booking, checkoutUrl));
  }

  // ---------------------------------------------------------------------------
  // Status changes

  /**
   * The ledger after an adapter call on the booking's first ledger row: when
   * that row has a gateway id and the call returned (whatever its success
   * flag), every row with that id takes `status` and `processed_at`; when the
   * call threw, nothing changes.
   */
  function SettleLedger(txs: seq<Transaction>, bookingId: string, call: CallOutcome, status: TxStatus, now: int): seq<Transaction>
  {
    var first := FirstLedgerRow(txs, bookingId);
    if first.Some? && Truthy(first.value.paywayTranId) && call.Returns? then
      MarkTranId(txs, first.value.paywayTranId.value, status, now)
    else txs
  }

  /** The final `update(...).eq("id", bookingId)`; a failure leaves the bookings table as it was. */
  function WriteBooking(t: Tables, bookingId: string, updated: Booking, failure: string, writeError: Option<string>): Step<Booking>
  {
    if writeError.Some? then
      Step(t, Err(App(DatabaseError(failure + writeError.value))))
    else
      Step(t.(bookings := t.bookings[bookingId := updated]), Ok(updated))
  }

  /** `approveBooking`: owner only, from requested; captures the pre-auth first. */
  function ApproveSpec(t: Tables, bookingId: string, userId: string, capture: CallOutcome, now: int,
                       writeError: Option<string>): Step<Booking>
  {
    match FindBooking(t, bookingId)
    case Err(e) => Step(t, Err(e))
    case Ok(b) =>
      match ValidateTransition(b.status, Approved, userId, b)
      case Fail(e) => Step(t, Err(App(e)))
      case Pass =>
        var t1 := t.(transactions := SettleLedger(t.transactions, bookingId, capture, TxCompleted, now));
        WriteBooking(t1, bookingId, b.(status := Approved, approvedAt := Some(now)), "Failed to approve booking: ", writeError)
  }

  /** `declineBooking`: owner only, from requested; cancels the pre-auth first. */
  function DeclineSpec(t: Tables, bookingId: string, userId: string, cancelPreAuth: CallOutcome, now: int,
                       writeError: Option<string>): Step<Booking>
  {
    match FindBooking(t, bookingId)
    case Err(e) => Step(t, Err(e))
    case Ok(b) =>
      match ValidateTransition(b.status, Declined, userId, b)
      case Fail(e) => Step(t, Err(App(e)))
      case Pass =>
        var t1 := t.(transactions := SettleLedger(t.transactions, bookingId, cancelPreAuth, TxCancelled, now));
        WriteBooking(t1, bookingId, b.(status := Declined, declinedAt := Some(now)), "Failed to decline booking: ", writeError)
  }

  /** The adapter call a cancellation makes: a refund for an active booking, otherwise a pre-auth cancel. */
  function CancelCall(from: BookingStatus, cancelPreAuth: CallOutcome, refund: CallOutcome): CallOutcome
  {
    if from == Active then refund else cancelPreAuth
  }

  function CancelledTxStatus(from: BookingStatus): TxStatus
  {
    if from == Active then TxRefunded else TxCancelled
  }

  /**
   * `cancelBooking`: either party, from requested, approved or active. An
   * absent reason is left out of the update, so the stored one stays.
   */
  function CancelSpec(t: Tables, bookingId: string, userId: string, reason: Option<string>,
                      cancelPreAuth: CallOutcome, refund: CallOutcome, now: int,
                      writeError: Option<string>): Step<Booking>
  {
    match FindBooking(t, bookingId)
    case Err(e) => Step(t, Err(e))
    case Ok(b) =>
      match ValidateTransition(b.status, Cancelled, userId, b)
      case Fail(e) => Step(t, Err(App(e)))
      case Pass =>
        var call := CancelCall(b.status, cancelPreAuth, refund);
        var t1 := t.(transactions := SettleLedger(t.transactions, bookingId, call, CancelledTxStatus(b.status), now));
        var updated := b.(status := Cancelled, cancelledAt := Some(now), cancelledBy := Some(userId),
                          cancellationReason := if reason.Some? then reason else b.cancellationReason);
        WriteBooking(t1, bookingId, updated, "Failed to cancel booking: ", writeError)
  }

  /** `activateBooking`: its own check (approved only), not the state machine. */
  function ActivateSpec(t: Tables, bookingId: string, now: int, writeError: Option<string>): Step<Booking>
  {
    match FindBooking(t, bookingId)
    case Err(e) => Step(t, Err(e))
    case Ok(b) =>
      if b.status != Approved then Step(t, Err(App(ValidationError("Can only activate approved bookings"))))
      else WriteBooking(t, bookingId, b.(status := Active, startedAt := Some(now)), "Failed to activate booking: ", writeError)
  }

  /** `completeBooking`: the state machine with the actor "system". */
  function CompleteSpec(t: Tables, bookingId: string, now: int, writeError: Option<string>): Step<Booking>
  {
    match FindBooking(t, bookingId)
    case Err(e) => Step(t, Err(e))
    case Ok(b) =>
      match ValidateTransition(b.status, Completed, "system", b)
      case Fail(e) => Step(t, Err(App(e)))
      case Pass => WriteBooking(t, bookingId, b.(status := Completed, completedAt := Some(now)), "Failed to complete booking: ", writeError)
  }

  // ---------------------------------------------------------------------------
  // The same operations on the store

  method Settle(db: Database, bookingId: string, call: CallOutcome, status: TxStatus, now: int)
    modifies db
    ensures db.Snapshot() == old(db.Snapshot()).(transactions := SettleLedger(old(db.transactions), bookingId, call, status, now))
  {
    var first := FirstLedgerRow(db.transactions, bookingId);
    if first.Some? && Truthy(first.value.paywayTranId) && call.Returns? {
      db.transactions := MarkTranId(db.transactions, first.value.paywayTranId.value, status, now);
    }
  }

  method Write(db: Database, bookingId: string, updated: Booking, failure: string, writeError: Option<string>)
    returns (r: Result<Booking>)
    modifies db
    ensures (db.Snapshot(), r) == (WriteBooking(old(db.Snapshot()), bookingId, updated, failure, writeError).tables,
                                   WriteBooking(old(db.Snapshot()), bookingId, updated, failure, writeError).result)
  {
    if writeError.Some? {
      return Err(App(DatabaseError(failure + writeError.value)));
    }
    db.bookings := db.bookings[bookingId := updated];
    return Ok(updated);
  }

  method Approve(db: Database, bookingId: string, userId: string, capture: CallOutcome, now: int,
                 writeError: Option<string>) returns (r: Result<Booking>)
    modifies db
    ensures (db.Snapshot(), r) == (ApproveSpec(old(db.Snapshot()), bookingId, userId, capture, now, writeError).tables,
                                   ApproveSpec(old(db.Snapshot()), bookingId, userId, capture, now, writeError).result)
  {
    if bookingId !in db.bookings {
      return Err(App(NotFoundError("Booking not found")));
    }
    var booking := db.bookings[bookingId];
    var verdict := ValidateTransition(booking.status, Approved, userId, booking);
    if verdict.Fail? {
      return Err(App(verdict.error));
    }
    Settle(db, bookingId, capture, TxCompleted, now);
    r := Write(db, bookingId, booking.(status := Approved, approvedAt := Some(now)), "Failed to approve booking: ", writeError);
  }

  method Decline(db: Database, bookingId: string, userId: string, cancelPreAuth: CallOutcome, now: int,
                 writeError: Option<string>) returns (r: Result<Booking>)
    modifies db
    ensures (db.Snapshot(), r) == (DeclineSpec(old(db.Snapshot()), bookingId, userId, cancelPreAuth, now, writeError).tables,
                                   DeclineSpec(old(db.Snapshot()), bookingId, userId, cancelPreAuth, now, writeError).result)
  {
    if bookingId !in db.bookings {
      return Err(App(NotFoundError("Booking not found")));
    }
    var booking := db.bookings[bookingId];
    var verdict := ValidateTransition(booking.status, Declined, userId, booking);
    if verdict.Fail? {
      return Err(App(verdict.error));
    }
    Settle(db, bookingId, cancelPreAuth, TxCancelled, now);
    r := Write(db, bookingId, booking.(status := Declined, declinedAt := Some(now)), "Failed to decline booking: ", writeError);
  }

  method Cancel(db: Database, bookingId: string, userId: string, reason: Option<string>,
                cancelPreAuth: CallOutcome, refund: CallOutcome, now: int,
                writeError: Option<string>) returns (r: Result<Booking>)
    modifies db
    ensures (db.Snapshot(), r) == (CancelSpec(old(db.Snapshot()), bookingId, userId, reason, cancelPreAuth, refund, now, writeError).tables,
                                   CancelSpec(old(db.Snapshot()), bookingId, userId, reason, cancelPreAuth, refund, now, writeError).result)
  {
    if bookingId !in db.bookings {
      return Err(App(NotFoundError("Booking not found")));
    }
    var booking := db.bookings[bookingId];
    var verdict := ValidateTransition(booking.status, Cancelled, userId, booking);
    if verdict.Fail? {
      return Err(App(verdict.error));
    }
    var call := cancelPreAuth;
    var txStatus := TxCancelled;
    if booking.status == Active {
      call, txStatus := refund, TxRefunded;
    }
    Settle(db, bookingId, call, txStatus, now);
    var storedReason := booking.cancellationReason;
    if reason.Some? {
      storedReason := reason;
    }
    var updated := booking.(status := Cancelled, cancelledAt := Some(now), cancelledBy := Some(userId),
                            cancellationReason := storedReason);
    r := Write(db, bookingId, updated, "Failed to cancel booking: ", writeError);
  }

  method Activate(db: Database, bookingId: string, now: int, writeError: Option<string>) returns (r: Result<Booking>)
    modifies db
    ensures (db.Snapshot(), r) == (ActivateSpec(old(db.Snapshot()), bookingId, now, writeError).tables,
                                   ActivateSpec(old(db.Snapshot()), bookingId, now, writeError).result)
  {
    if bookingId !in db.bookings {
      return Err(App(NotFoundError("Booking not found")));
    }
    var booking := db.bookings[bookingId];
    if booking.status != Approved {
      return Err(App(ValidationError("Can only activate approved bookings")));
    }
    r := Write(db, bookingId, booking.(status := Active, startedAt := Some(now)), "Failed to activate booking: ", writeError);
  }

  method Complete(db: Database, bookingId: string, now: int, writeError: Option<string>) returns (r: Result<Booking>)
    modifies db
    ensures (db.Snapshot(), r) == (CompleteSpec(old(db.Snapshot()), bookingId, now, writeError).tables,
                                   CompleteSpec(old(db.Snapshot()), bookingId, now, writeError).result)
  {
    if bookingId !in db.bookings {
      return Err(App(NotFoundError("Booking not found")));
    }
    var booking := db.bookings[bookingId];
    var verdict := ValidateTransition(booking.status, Completed, "system", booking);
    if verdict.Fail? {
      return Err(App(verdict.error));
    }
    r := Write(db, bookingId, booking.(status := Completed, completedAt := Some(now)), "Failed to complete booking: ", writeError);
  }
}
