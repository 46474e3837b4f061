/**
 * What the booking service promises: who may do what from which status,
 * that a payment failure never blocks a status change, which gateway call a
 * cancellation settles with, the shape of a new booking, and that no two
 * live bookings on one listing overlap.
 */
module BookingLemmas {
  import opened Errors
  import opened Rows
  import opened Pricing
  import opened BookingMachine
  import opened Payment
  import opened Bookings

  // ---------------------------------------------------------------------------
  // Creating a booking

  /**
   * A booking is created exactly when the listing is bookable, no stored
   * booking meets the conflict query and the insert works; otherwise nothing
   * is written.
   */
  lemma CreateSucceedsIff(t: Tables, bookingId: string, txId: string, renterId: string, req: BookingRequest,
                          preAuth: PreAuthOutcome, writeError: Option<string>)
    ensures var s := CreateBookingSpec(t, bookingId, txId, renterId, req, preAuth, writeError);
      && (s.result.Ok? <==> Bookable(t, req.listingId) && !HasConflict(t, req) && writeError.None?)
      && (s.result.Err? ==> s.tables == t)
      && (!Bookable(t, req.listingId) ==> s.result == Err(App(NotFoundError("Listing not found or not available"))))
      && (Bookable(t, req.listingId) && HasConflict(t, req) ==>
            s.result == Err(App(ConflictError("Listing is not available for the selected dates"))))
  {
  }

  /** A draft, paused, archived or soft-deleted listing is never bookable. */
  lemma OnlyActiveListingsBookable(t: Tables, listingId: string)
    requires listingId in t.listings
    ensures t.listings[listingId].status != ListingActive ==> !Bookable(t, listingId)
    ensures t.listings[listingId].deletedAt.Some? ==> !Bookable(t, listingId)
  {
  }

  /**
   * A new booking is requested and unpaid, belongs to the renter and the
   * listing's owner, is priced in the listing's currency, and charges the
   * renter exactly the sum of its parts; a delivery fee is charged only for a
   * delivery the listing offers.
   */
  lemma NewBookingShape(t: Tables, bookingId: string, txId: string, renterId: string, req: BookingRequest,
                        preAuth: PreAuthOutcome, writeError: Option<string>)
    requires CreateBookingSpec(t, bookingId, txId, renterId, req, preAuth, writeError).result.Ok?
    ensures var s := CreateBookingSpec(t, bookingId, txId, renterId, req, preAuth, writeError);
      var b := s.result.value.booking;
      var l := t.listings[req.listingId];
      && s.tables.bookings == t.bookings[bookingId := b]
      && b.id == bookingId && b.listingId == req.listingId
      && b.renterId == renterId && b.ownerId == l.ownerId
      && b.startTime == req.startTime && b.endTime == req.endTime
      && b.status == Requested && !b.paymentAuthorized
      && b.currency == l.details.currency
      && b.depositAmount == l.details.depositAmount
      && b.totalAmount == b.subtotal + b.serviceFee + b.deliveryFee + b.protectionFee + b.depositAmount
      && (b.deliveryFee != 0 ==> b.deliveryMethod == Delivery && l.details.deliveryAvailable)
      && b.serviceFee == CalculatePricing(PricingFor(l, req)).serviceFee
  {
    var l := t.listings[req.listingId];
    TotalIsSumOfParts(PricingFor(l, req));
    FeeRules(PricingFor(l, req));
  }

  /**
   * A failed pre-auth does not stop the booking: the same row is stored, the
   * checkout URL is empty and no ledger row is written. A successful one adds
   * one pending pre-auth row for the booking's total.
   */
  lemma PreAuthNeverBlocksBooking(t: Tables, bookingId: string, txId: string, renterId: string, req: BookingRequest,
                                  preAuth: PreAuthOutcome, writeError: Option<string>, message: string)
    requires CreateBookingSpec(t, bookingId, txId, renterId, req, preAuth, writeError).result.Ok?
    ensures var s := CreateBookingSpec(t, bookingId, txId, renterId, req, preAuth, writeError);
      var f := CreateBookingSpec(t, bookingId, txId, renterId, req, PreAuthThrows(message), writeError);
      && f.result == Ok(Created(s.result.value.booking, ""))
      && f.tables.bookings == s.tables.bookings
      && f.tables.transactions == t.transactions
    ensures var s := CreateBookingSpec(t, bookingId, txId, renterId, req, preAuth, writeError);
      var b := s.result.value.booking;
      preAuth.PreAuthReturns? ==>
        && s.result.value.checkoutUrl == preAuth.checkoutUrl
        && |s.tables.transactions| == |t.transactions| + 1
        && s.tables.transactions[..|t.transactions|] == t.transactions
        && var row := s.tables.transactions[|t.transactions|];
           row.bookingId == bookingId && row.kind == PreAuth && row.status == TxPending
           && row.amount == b.totalAmount && row.currency == b.currency
           && row.paywayTranId == Some(preAuth.paywayTranId)
  {
    var s := CreateBookingSpec(t, bookingId, txId, renterId, req, preAuth, writeError);
    if preAuth.PreAuthReturns? {
      assert s.tables.transactions == t.transactions + [PreAuthRow(txId, s.result.value.booking, preAuth.paywayTranId)];
    }
  }

  // ---------------------------------------------------------------------------
  // The conflict query

  /**
   * As written, the date condition is `start_time < end OR end_time > start`.
   * For well-formed intervals it holds for every live booking on the listing,
   * overlapping or not.
   */
  lemma AsWrittenBlocksEveryLiveBooking(b: Booking, req: BookingRequest)
    requires b.listingId == req.listingId && Live(b)
    requires b.startTime < b.endTime && req.startTime < req.endTime
    ensures ClashesAsWritten(b, req)
  {
  }

  /** A booking for hours 0-1 blocks a request for hours 5-6 under the query as written, but not under the overlap test. */
  lemma AsWrittenRejectsDisjointDates()
    ensures var b := Booking("b1", "l1", "r1", "o1", 0, MsPerHour, Requested, false, 0, 0, 0, 0, 0, 0, 0, "USD",
                             Pickup, None, NoProtection, None, None, None, None, None, None, None);
      var req := BookingRequest("l1", 5 * MsPerHour, 6 * MsPerHour, None, None, None);
      ClashesAsWritten(b, req) && !Clashes(b, req)
  {
  }

  /**
   * So, as written, `createBooking` refuses every request on a listing that
   * holds any live booking of positive length, with Conflict and no write.
   */
  lemma CreateRefusedByAnyLiveBooking(t: Tables, bookingId: string, txId: string, renterId: string, req: BookingRequest,
                                      preAuth: PreAuthOutcome, writeError: Option<string>, existing: string)
    requires Bookable(t, req.listingId)
    requires existing in t.bookings && t.bookings[existing].listingId == req.listingId && Live(t.bookings[existing])
    requires t.bookings[existing].startTime < t.bookings[existing].endTime && req.startTime < req.endTime
    ensures CreateBookingSpec(t, bookingId, txId, renterId, req, preAuth, writeError)
         == Step(t, Err(App(ConflictError("Listing is not available for the selected dates"))))
  {
    AsWrittenBlocksEveryLiveBooking(t.bookings[existing], req);
    assert HasConflict(t, req);
  }

  /** Every overlapping live booking also meets the query as written, so the query refuses at least what overlaps. */
  lemma OverlapMeetsQuery(t: Tables, req: BookingRequest)
    ensures HasOverlap(t, req) ==> HasConflict(t, req)
  {
    if HasOverlap(t, req) {
      var id :| id in t.bookings && Clashes(t.bookings[id], req);
      assert ClashesAsWritten(t.bookings[id], req);
    }
  }

  /**
   * With the conditions joined by AND, a booking is created exactly when the
   * listing is bookable, no live booking on it overlaps the requested dates
   * and the insert works; a request for dates after an existing booking ends
   * succeeds.
   */
  lemma IntendedCreateSucceedsIff(t: Tables, bookingId: string, txId: string, renterId: string, req: BookingRequest,
                                  preAuth: PreAuthOutcome, writeError: Option<string>)
    ensures var s := CreateBookingIntendedSpec(t, bookingId, txId, renterId, req, preAuth, writeError);
      && (s.result.Ok? <==> Bookable(t, req.listingId) && !HasOverlap(t, req) && writeError.None?)
      && (s.result.Err? ==> s.tables == t)
      && (Bookable(t, req.listingId) && writeError.None? &&
          (forall id :: id in t.bookings && t.bookings[id].listingId == req.listingId && Live(t.bookings[id]) ==>
             t.bookings[id].endTime <= req.startTime || req.endTime <= t.bookings[id].startTime)
          ==> s.result.Ok?)
  {
    var s := CreateBookingIntendedSpec(t, bookingId, txId, renterId, req, preAuth, writeError);
    if Bookable(t, req.listingId) && writeError.None? &&
       (forall id :: id in t.bookings && t.bookings[id].listingId == req.listingId && Live(t.bookings[id]) ==>
          t.bookings[id].endTime <= req.startTime || req.endTime <= t.bookings[id].startTime) {
      forall id | id in t.bookings
        ensures !Clashes(t.bookings[id], req)
      {
      }
    }
  }

  /** The instant x lies in the half-open interval [start, end). */
  predicate During(x: int, start: int, end: int) { start <= x < end }

  /** Two half-open intervals overlap exactly when some instant lies in both; the test is symmetric. */
  lemma OverlapIffSharedInstant(s1: int, e1: int, s2: int, e2: int)
    requires s1 < e1 && s2 < e2
    ensures Overlap(s1, e1, s2, e2) <==> exists x :: During(x, s1, e1) && During(x, s2, e2)
    ensures Overlap(s1, e1, s2, e2) <==> Overlap(s2, e2, s1, e1)
  {
    if Overlap(s1, e1, s2, e2) {
      var x := if s1 <= s2 then s2 else s1;
      assert During(x, s1, e1) && During(x, s2, e2);
    }
  }

  /** No two distinct live bookings on the same listing share an instant. */
  predicate NoDoubleBooking(t: Tables)
  {
    forall i, j ::
      i in t.bookings && j in t.bookings && i != j
      && t.bookings[i].listingId == t.bookings[j].listingId
      && Live(t.bookings[i]) && Live(t.bookings[j])
      ==> !Overlap(t.bookings[i].startTime, t.bookings[i].endTime, t.bookings[j].startTime, t.bookings[j].endTime)
  }

  /** Inserting a booking under a fresh id after a conflict answer that covers every overlap keeps the invariant. */
  lemma {:induction false} CheckedKeepsNoDoubleBooking(t: Tables, conflict: bool, bookingId: string, txId: string, renterId: string,
                                    req: BookingRequest, preAuth: PreAuthOutcome, writeError: Option<string>)
    requires NoDoubleBooking(t) && bookingId !in t.bookings
    requires HasOverlap(t, req) ==> conflict
    ensures NoDoubleBooking(CreateChecked(t, conflict, bookingId, txId, renterId, req, preAuth, writeError).tables)
  {
    var s := CreateChecked(t, conflict, bookingId, txId, renterId, req, preAuth, writeError);
    if s.result.Ok? {
      var b := s.result.value.booking;
      assert s.tables.bookings == t.bookings[bookingId := b];
      forall i, j |
        i in s.tables.bookings && j in s.tables.bookings && i != j
        && s.tables.bookings[i].listingId == s.tables.bookings[j].listingId
        && Live(s.tables.bookings[i]) && Live(s.tables.bookings[j])
        ensures !Overlap(s.tables.bookings[i].startTime, s.tables.bookings[i].endTime,
                         s.tables.bookings[j].startTime, s.tables.bookings[j].endTime)
      {
        if i == bookingId {
          assert !Clashes(t.bookings[j], req);
        } else if j == bookingId {
          assert !Clashes(t.bookings[i], req);
        }
      }
    }
  }

  /** Creating a booking under a fresh id, as written, keeps the listing free of double bookings: the query refuses every overlap. */
  lemma CreateKeepsNoDoubleBooking(t: Tables, bookingId: string, txId: string, renterId: string, req: BookingRequest,
                                   preAuth: PreAuthOutcome, writeError: Option<string>)
    requires NoDoubleBooking(t) && bookingId !in t.bookings
    ensures NoDoubleBooking(CreateBookingSpec(t, bookingId, txId, renterId, req, preAuth, writeError).tables)
  {
    OverlapMeetsQuery(t, req);
    CheckedKeepsNoDoubleBooking(t, HasConflict(t, req), bookingId, txId, renterId, req, preAuth, writeError);
  }

  /** The same holds with the conditions joined by AND. */
  lemma IntendedCreateKeepsNoDoubleBooking(t: Tables, bookingId: string, txId: string, renterId: string, req: BookingRequest,
                                           preAuth: PreAuthOutcome, writeError: Option<string>)
    requires NoDoubleBooking(t) && bookingId !in t.bookings
    ensures NoDoubleBooking(CreateBookingIntendedSpec(t, bookingId, txId, renterId, req, preAuth, writeError).tables)
  {
    CheckedKeepsNoDoubleBooking(t, HasOverlap(t, req), bookingId, txId, renterId, req, preAuth, writeError);
  }

  /** Rewriting one booking with the same listing and dates, live only if it was, keeps the invariant. */
  lemma RewriteKeepsNoDoubleBooking(t: Tables, id: string, nb: Booking, txs: seq<Transaction>)
    requires NoDoubleBooking(t) && id in t.bookings
    requires nb.listingId == t.bookings[id].listingId
    requires nb.startTime == t.bookings[id].startTime && nb.endTime == t.bookings[id].endTime
    requires Live(nb) ==> Live(t.bookings[id])
    ensures NoDoubleBooking(t.(bookings := t.bookings[id := nb], transactions := txs))
  {
    var u := t.(bookings := t.bookings[id := nb], transactions := txs);
    forall i, j |
      i in u.bookings && j in u.bookings && i != j
      && u.bookings[i].listingId == u.bookings[j].listingId
      && Live(u.bookings[i]) && Live(u.bookings[j])
      ensures !Overlap(u.bookings[i].startTime, u.bookings[i].endTime, u.bookings[j].startTime, u.bookings[j].endTime)
    {
      assert Live(t.bookings[i]) && Live(t.bookings[j]);
    }
  }

  /** Approval moves a requested booking to approved: both live, same dates. */
  lemma ApproveKeepsNoDoubleBooking(t: Tables, bookingId: string, userId: string, capture: CallOutcome, now: int,
                                    writeError: Option<string>)
    requires NoDoubleBooking(t)
    ensures NoDoubleBooking(ApproveSpec(t, bookingId, userId, capture, now, writeError).tables)
  {
    if bookingId in t.bookings {
      var b := t.bookings[bookingId];
      TransitionTable(b.status, Approved);
      if b.status == Requested {
        RewriteKeepsNoDoubleBooking(t, bookingId, b.(status := Approved, approvedAt := Some(now)),
                                    SettleLedger(t.transactions, bookingId, capture, TxCompleted, now));
      }
    }
  }

  /** Declining frees the dates. */
  lemma DeclineKeepsNoDoubleBooking(t: Tables, bookingId: string, userId: string, cancelPreAuth: CallOutcome, now: int,
                                    writeError: Option<string>)
    requires NoDoubleBooking(t)
    ensures NoDoubleBooking(DeclineSpec(t, bookingId, userId, cancelPreAuth, now, writeError).tables)
  {
    if bookingId in t.bookings {
      var b := t.bookings[bookingId];
      RewriteKeepsNoDoubleBooking(t, bookingId, b.(status := Declined, declinedAt := Some(now)),
                                  SettleLedger(t.transactions, bookingId, cancelPreAuth, TxCancelled, now));
    }
  }

  /** Cancelling frees the dates. */
  lemma CancelKeepsNoDoubleBooking(t: Tables, bookingId: string, userId: string, reason: Option<string>,
                                   cancelPreAuth: CallOutcome, refund: CallOutcome, now: int, writeError: Option<string>)
    requires NoDoubleBooking(t)
    ensures NoDoubleBooking(CancelSpec(t, bookingId, userId, reason, cancelPreAuth, refund, now, writeError).tables)
  {
    if bookingId in t.bookings {
      var b := t.bookings[bookingId];
      RewriteKeepsNoDoubleBooking(t, bookingId,
        b.(status := Cancelled, cancelledAt := Some(now), cancelledBy := Some(userId),
           cancellationReason := if reason.Some? then reason else b.cancellationReason),
        SettleLedger(t.transactions, bookingId, CancelCall(b.status, cancelPreAuth, refund), CancelledTxStatus(b.status), now));
    }
  }

  /** Activation moves an approved booking to active: both live, same dates. */
  lemma ActivateKeepsNoDoubleBooking(t: Tables, bookingId: string, now: int, writeError: Option<string>)
    requires NoDoubleBooking(t)
    ensures NoDoubleBooking(ActivateSpec(t, bookingId, now, writeError).tables)
  {
    if bookingId in t.bookings && t.bookings[bookingId].status == Approved {
      var b := t.bookings[bookingId];
      RewriteKeepsNoDoubleBooking(t, bookingId, b.(status := Active, startedAt := Some(now)), t.transactions);
      assert t.(bookings := t.bookings[bookingId := b.(status := Active, startedAt := Some(now))], transactions := t.transactions)
          == t.(bookings := t.bookings[bookingId := b.(status := Active, startedAt := Some(now))]);
    }
  }

  /** Completion frees the dates. */
  lemma CompleteKeepsNoDoubleBooking(t: Tables, bookingId: string, now: int, writeError: Option<string>)
    requires NoDoubleBooking(t)
    ensures NoDoubleBooking(CompleteSpec(t, bookingId, now, writeError).tables)
  {
    if bookingId in t.bookings {
      var b := t.bookings[bookingId];
      RewriteKeepsNoDoubleBooking(t, bookingId, b.(status := Completed, completedAt := Some(now)), t.transactions);
      assert t.(bookings := t.bookings[bookingId := b.(status := Completed, completedAt := Some(now))], transactions := t.transactions)
          == t.(bookings := t.bookings[bookingId := b.(status := Completed, completedAt := Some(now))]);
    }
  }

  // ---------------------------------------------------------------------------
  // Who may change a booking, and from which status

  /** Approval succeeds exactly for the owner of a requested booking whose write works; any failed guard writes nothing. */
  lemma ApproveOnlyOwnerFromRequested(t: Tables, bookingId: string, userId: string, capture: CallOutcome, now: int,
                                      writeError: Option<string>)
    ensures var s := ApproveSpec(t, bookingId, userId, capture, now, writeError);
      s.result.Ok? <==> bookingId in t.bookings && t.bookings[bookingId].status == Requested
                        && t.bookings[bookingId].ownerId == userId && writeError.None?
    ensures bookingId in t.bookings && (t.bookings[bookingId].status != Requested || t.bookings[bookingId].ownerId != userId)
      ==> ApproveSpec(t, bookingId, userId, capture, now, writeError).tables == t
    ensures var s := ApproveSpec(t, bookingId, userId, capture, now, writeError);
      s.result.Ok? ==> CanTransition(t.bookings[bookingId].status, s.result.value.status)
                       && s.tables.bookings[bookingId] == s.result.value
  {
    if bookingId in t.bookings {
      var b := t.bookings[bookingId];
      TransitionTable(b.status, Approved);
    }
  }

  /** Declining succeeds exactly for the owner of a requested booking whose write works; any failed guard writes nothing. */
  lemma DeclineOnlyOwnerFromRequested(t: Tables, bookingId: string, userId: string, cancelPreAuth: CallOutcome, now: int,
                                      writeError: Option<string>)
    ensures var s := DeclineSpec(t, bookingId, userId, cancelPreAuth, now, writeError);
      s.result.Ok? <==> bookingId in t.bookings && t.bookings[bookingId].status == Requested
                        && t.bookings[bookingId].ownerId == userId && writeError.None?
    ensures bookingId in t.bookings && (t.bookings[bookingId].status != Requested || t.bookings[bookingId].ownerId != userId)
      ==> DeclineSpec(t, bookingId, userId, cancelPreAuth, now, writeError).tables == t
    ensures var s := DeclineSpec(t, bookingId, userId, cancelPreAuth, now, writeError);
      s.result.Ok? ==> CanTransition(t.bookings[bookingId].status, s.result.value.status)
                       && s.tables.bookings[bookingId] == s.result.value
  {
    if bookingId in t.bookings {
      var b := t.bookings[bookingId];
      TransitionTable(b.status, Declined);
    }
  }

  /**
   * Cancelling succeeds exactly for a party to a requested, approved or active
   * booking whose write works; a missing booking, a caller who is not a party
   * and a booking that is not live are refused before anything is written.
   */
  lemma CancelOnlyPartiesWhileLive(t: Tables, bookingId: string, userId: string, reason: Option<string>,
                                   cancelPreAuth: CallOutcome, refund: CallOutcome, now: int, writeError: Option<string>)
    ensures var s := CancelSpec(t, bookingId, userId, reason, cancelPreAuth, refund, now, writeError);
      s.result.Ok? <==> bookingId in t.bookings && Live(t.bookings[bookingId])
                        && (t.bookings[bookingId].renterId == userId || t.bookings[bookingId].ownerId == userId)
                        && writeError.None?
    ensures bookingId in t.bookings && !Live(t.bookings[bookingId])
      ==> CancelSpec(t, bookingId, userId, reason, cancelPreAuth, refund, now, writeError).tables == t
    ensures (bookingId !in t.bookings
             || (t.bookings[bookingId].renterId != userId && t.bookings[bookingId].ownerId != userId))
      ==> CancelSpec(t, bookingId, userId, reason, cancelPreAuth, refund, now, writeError).tables == t
    ensures bookingId !in t.bookings
      ==> CancelSpec(t, bookingId, userId, reason, cancelPreAuth, refund, now, writeError).result
          == Err(App(NotFoundError("Booking not found")))
    ensures bookingId in t.bookings && Live(t.bookings[bookingId])
            && t.bookings[bookingId].renterId != userId && t.bookings[bookingId].ownerId != userId
      ==> CancelSpec(t, bookingId, userId, reason, cancelPreAuth, refund, now, writeError).result
          == Err(App(ForbiddenError("Only parties to this booking can cancel")))
    ensures var s := CancelSpec(t, bookingId, userId, reason, cancelPreAuth, refund, now, writeError);
      s.result.Ok? ==> CanTransition(t.bookings[bookingId].status, s.result.value.status)
                       && s.tables.bookings[bookingId] == s.result.value
  {
    if bookingId in t.bookings {
      CancelledReachableFrom(t.bookings[bookingId].status);
    }
  }

  /** Activation needs an approved booking; anything else is a validation error and writes nothing. */
  lemma ActivateOnlyFromApproved(t: Tables, bookingId: string, now: int, writeError: Option<string>)
    ensures var s := ActivateSpec(t, bookingId, now, writeError);
      s.result.Ok? <==> bookingId in t.bookings && t.bookings[bookingId].status == Approved && writeError.None?
    ensures bookingId in t.bookings && t.bookings[bookingId].status != Approved ==>
      ActivateSpec(t, bookingId, now, writeError) == Step(t, Err(App(ValidationError("Can only activate approved bookings"))))
    ensures var s := ActivateSpec(t, bookingId, now, writeError);
      s.result.Ok? ==> CanTransition(t.bookings[bookingId].status, s.result.value.status)
                       && s.tables.bookings[bookingId] == s.result.value
  {
  }

  /** Completion needs an active booking; anyone may trigger it, the actor being "system". */
  lemma CompleteOnlyFromActive(t: Tables, bookingId: string, now: int, writeError: Option<string>)
    ensures var s := CompleteSpec(t, bookingId, now, writeError);
      s.result.Ok? <==> bookingId in t.bookings && t.bookings[bookingId].status == Active && writeError.None?
    ensures bookingId in t.bookings && t.bookings[bookingId].status != Active ==>
      CompleteSpec(t, bookingId, now, writeError)
        == Step(t, Err(App(BookingTransitionError(StatusName(t.bookings[bookingId].status), "completed"))))
    ensures var s := CompleteSpec(t, bookingId, now, writeError);
      s.result.Ok? ==> CanTransition(t.bookings[bookingId].status, s.result.value.status)
                       && s.tables.bookings[bookingId] == s.result.value
  {
    if bookingId in t.bookings {
      var b := t.bookings[bookingId];
      StatusPredecessors(b.status);
      if CanTransition(b.status, Completed) {
        UnguardedTargets(b.status, Completed, "system", b);
      }
    }
  }

  // ---------------------------------------------------------------------------
  // Payment settlement

  /**
   * Settling touches only the rows carrying the first ledger row's gateway
   * id, and only when the adapter call returned; a success flag of false is
   * settled like true.
   */
  lemma SettleOnlyAfterReturn(txs: seq<Transaction>, bookingId: string, call: CallOutcome, status: TxStatus, now: int)
    ensures var r := SettleLedger(txs, bookingId, call, status, now);
      && |r| == |txs|
      && (call.Throws? ==> r == txs)
      && (FirstLedgerRow(txs, bookingId).None? ==> r == txs)
      && (call.Returns? && FirstLedgerRow(txs, bookingId).Some? && Truthy(FirstLedgerRow(txs, bookingId).value.paywayTranId) ==>
            var tranId := FirstLedgerRow(txs, bookingId).value.paywayTranId;
            forall i :: 0 <= i < |txs| ==>
              r[i] == if txs[i].paywayTranId == tranId then txs[i].(status := status, processedAt := Some(now)) else txs[i])
    ensures SettleLedger(txs, bookingId, Returns(false), status, now) == SettleLedger(txs, bookingId, Returns(true), status, now)
  {
  }

  /**
   * Once the guards pass, approval settles the ledger first and then writes
   * the booking: the stored booking and the returned row do not depend on
   * what the capture did, and a failing booking write still leaves the ledger
   * settled.
   */
  lemma ApprovalIndependentOfCapture(t: Tables, bookingId: string, userId: string, c1: CallOutcome, c2: CallOutcome,
                                     now: int, writeError: Option<string>)
    requires bookingId in t.bookings
    requires ValidateTransition(t.bookings[bookingId].status, Approved, userId, t.bookings[bookingId]) == Pass
    ensures ApproveSpec(t, bookingId, userId, c1, now, writeError).result == ApproveSpec(t, bookingId, userId, c2, now, writeError).result
    ensures ApproveSpec(t, bookingId, userId, c1, now, writeError).tables.bookings
         == ApproveSpec(t, bookingId, userId, c2, now, writeError).tables.bookings
    ensures var s := ApproveSpec(t, bookingId, userId, c1, now, writeError);
      && s.tables.transactions == SettleLedger(t.transactions, bookingId, c1, TxCompleted, now)
      && (writeError.Some? ==>
            s.tables.bookings == t.bookings
            && s.result == Err(App(DatabaseError("Failed to approve booking: " + writeError.value))))
      && (writeError.None? ==> s.result == Ok(t.bookings[bookingId].(status := Approved, approvedAt := Some(now))))
  {
  }

  /** Once the guards pass, declining settles with the pre-auth cancel and is not blocked by it. */
  lemma DeclineIndependentOfCancel(t: Tables, bookingId: string, userId: string, c1: CallOutcome, c2: CallOutcome,
                                   now: int, writeError: Option<string>)
    requires bookingId in t.bookings
    requires ValidateTransition(t.bookings[bookingId].status, Declined, userId, t.bookings[bookingId]) == Pass
    ensures DeclineSpec(t, bookingId, userId, c1, now, writeError).result == DeclineSpec(t, bookingId, userId, c2, now, writeError).result
    ensures var s := DeclineSpec(t, bookingId, userId, c1, now, writeError);
      && s.tables.transactions == SettleLedger(t.transactions, bookingId, c1, TxCancelled, now)
      && (writeError.None? ==> s.result == Ok(t.bookings[bookingId].(status := Declined, declinedAt := Some(now))))
  {
  }

  /**
   * Cancelling an active booking settles with the refund and marks the rows
   * refunded; cancelling a requested or approved one settles with the
   * pre-auth cancel and marks them cancelled. The call not made has no effect.
   */
  lemma CancelChoosesRefundOrVoid(t: Tables, bookingId: string, userId: string, reason: Option<string>,
                                  cancelPreAuth: CallOutcome, refund: CallOutcome, other: CallOutcome, now: int,
                                  writeError: Option<string>)
    requires bookingId in t.bookings
    requires ValidateTransition(t.bookings[bookingId].status, Cancelled, userId, t.bookings[bookingId]) == Pass
    ensures t.bookings[bookingId].status == Active ==>
      && CancelSpec(t, bookingId, userId, reason, cancelPreAuth, refund, now, writeError)
         == CancelSpec(t, bookingId, userId, reason, other, refund, now, writeError)
      && CancelSpec(t, bookingId, userId, reason, cancelPreAuth, refund, now, writeError).tables.transactions
         == SettleLedger(t.transactions, bookingId, refund, TxRefunded, now)
    ensures t.bookings[bookingId].status != Active ==>
      && CancelSpec(t, bookingId, userId, reason, cancelPreAuth, refund, now, writeError)
         == CancelSpec(t, bookingId, userId, reason, cancelPreAuth, other, now, writeError)
      && CancelSpec(t, bookingId, userId, reason, cancelPreAuth, refund, now, writeError).tables.transactions
         == SettleLedger(t.transactions, bookingId, cancelPreAuth, TxCancelled, now)
  {
  }

  /** A cancelled booking records when and by whom; an absent reason keeps the stored one. */
  lemma CancelRecordsActor(t: Tables, bookingId: string, userId: string, reason: Option<string>,
                           cancelPreAuth: CallOutcome, refund: CallOutcome, now: int)
    requires CancelSpec(t, bookingId, userId, reason, cancelPreAuth, refund, now, None).result.Ok?
    ensures var b := CancelSpec(t, bookingId, userId, reason, cancelPreAuth, refund, now, None).result.value;
      && b.status == Cancelled && b.cancelledAt == Some(now) && b.cancelledBy == Some(userId)
      && b.cancellationReason == (if reason.Some? then reason else t.bookings[bookingId].cancellationReason)
      && b.startTime == t.bookings[bookingId].startTime && b.totalAmount == t.bookings[bookingId].totalAmount
  {
  }

  // ---------------------------------------------------------------------------
  // Reading bookings

  /** A role narrows the list: the renter's or owner's bookings are among all of the user's bookings, and together make them up. */
  lemma RolesPartitionUserBookings(t: Tables, userId: string)
    ensures var all := GetUserBookings(t, userId, None, None).value;
      var asRenter := GetUserBookings(t, userId, Some(AsRenter), None).value;
      var asOwner := GetUserBookings(t, userId, Some(AsOwner), None).value;
      asRenter <= all && asOwner <= all && all == asRenter + asOwner
  {
    var all := GetUserBookings(t, userId, None, None).value;
    var asRenter := GetUserBookings(t, userId, Some(AsRenter), None).value;
    var asOwner := GetUserBookings(t, userId, Some(AsOwner), None).value;
    forall b | b in all ensures b in asRenter + asOwner {
      assert InRole(b, userId, None);
      if b.renterId == userId {
        assert InRole(b, userId, Some(AsRenter));
      } else {
        assert InRole(b, userId, Some(AsOwner));
      }
    }
  }
}
