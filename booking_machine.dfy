/**
 * The booking state machine (src/lib/booking-machine.ts): a fixed table of
 * legal status changes and the role guards applied on top of it.
 */
module BookingMachine {
  import opened Errors
  import opened Rows

  /** VALID_TRANSITIONS: the statuses each status may move to. */
  function AllowedTargets(from: BookingStatus): seq<BookingStatus>
  {
    match from
    case Requested => [Approved, Declined, AutoDeclined, Cancelled]
    case Approved => [Active, Cancelled]
    case Declined => []
    case AutoDeclined => []
    case Active => [Completed, Disputed, Cancelled]
    case Completed => []
    case Cancelled => []
    case Disputed => [Resolved]
    case Resolved => []
  }

  predicate CanTransition(from: BookingStatus, to: BookingStatus)
  {
    to in AllowedTargets(from)
  }

  /**
   * The table check first, then the role guards: approving or declining is
   * for the owner, cancelling for either party. Nothing else is consulted;
   * in particular the booking's own status is not.
   */
  function ValidateTransition(from: BookingStatus, to: BookingStatus, actorId: string, booking: Booking): Outcome
  {
    if !CanTransition(from, to) then
      Fail(BookingTransitionError(StatusName(from), StatusName(to)))
    else if (to == Approved || to == Declined) && actorId != booking.ownerId then
      Fail(ForbiddenError("Only the owner can approve/decline this booking"))
    else if to == Cancelled && actorId != booking.renterId && actorId != booking.ownerId then
      Fail(ForbiddenError("Only parties to this booking can cancel"))
    else
      Pass
  }

  predicate IsTerminal(s: BookingStatus)
  {
    s in {Declined, AutoDeclined, Completed, Cancelled, Resolved}
  }

  // ---------------------------------------------------------------------------
  // Properties of the table

  /** The table holds exactly these ten pairs, and none of them is a self-loop. */
  lemma TransitionTable(from: BookingStatus, to: BookingStatus)
    ensures CanTransition(from, to) <==>
      (from, to) in {(Requested, Approved), (Requested, Declined), (Requested, AutoDeclined),
                     (Requested, Cancelled), (Approved, Active), (Approved, Cancelled),
                     (Active, Completed), (Active, Disputed), (Active, Cancelled),
                     (Disputed, Resolved)}
    ensures !CanTransition(from, from)
  {
  }

  /** The terminal statuses are exactly those with no way out. */
  lemma TerminalStates(from: BookingStatus)
    ensures IsTerminal(from) <==> forall to :: !CanTransition(from, to)
  {
    if !IsTerminal(from) {
      assert CanTransition(from, AllowedTargets(from)[0]);
    }
  }

  /** A booking can be cancelled in one step from requested, approved and active only. */
  lemma CancelledReachableFrom(from: BookingStatus)
    ensures CanTransition(from, Cancelled) <==> from in {Requested, Approved, Active}
  {
  }

  /** Only a disputed booking can be resolved, and only an active one completed or disputed. */
  lemma StatusPredecessors(from: BookingStatus)
    ensures CanTransition(from, Resolved) <==> from == Disputed
    ensures CanTransition(from, Completed) <==> from == Active
    ensures CanTransition(from, Active) <==> from == Approved
  {
  }

  // ---------------------------------------------------------------------------
  // Properties of the guards

  /** An illegal pair fails with InvalidTransition naming both states, whoever asks. */
  lemma IllegalPairFailsFirst(from: BookingStatus, to: BookingStatus, actorId: string, booking: Booking)
    requires !CanTransition(from, to)
    ensures ValidateTransition(from, to, actorId, booking)
         == Fail(BookingTransitionError(StatusName(from), StatusName(to)))
    ensures ValidateTransition(from, to, actorId, booking).error.Code() == "INVALID_TRANSITION"
  {
  }

  /** Approving or declining a legal move succeeds exactly for the owner; others get Forbidden. */
  lemma OwnerOnlyApproveDecline(from: BookingStatus, to: BookingStatus, actorId: string, booking: Booking)
    requires CanTransition(from, to) && (to == Approved || to == Declined)
    ensures ValidateTransition(from, to, actorId, booking).Pass? <==> actorId == booking.ownerId
    ensures actorId != booking.ownerId ==> ValidateTransition(from, to, actorId, booking).error.StatusCode() == 403
  {
  }

  /** Cancelling a legal move succeeds exactly for the renter or the owner. */
  lemma PartiesOnlyCancel(from: BookingStatus, actorId: string, booking: Booking)
    requires CanTransition(from, Cancelled)
    ensures ValidateTransition(from, Cancelled, actorId, booking).Pass?
        <==> actorId == booking.renterId || actorId == booking.ownerId
    ensures !ValidateTransition(from, Cancelled, actorId, booking).Pass? ==>
      ValidateTransition(from, Cancelled, actorId, booking).error.StatusCode() == 403
  {
  }

  /** Legal moves to every other status pass for any actor, the "system" included. */
  lemma UnguardedTargets(from: BookingStatus, to: BookingStatus, actorId: string, booking: Booking)
    requires CanTransition(from, to)
    requires to != Approved && to != Declined && to != Cancelled
    ensures ValidateTransition(from, to, actorId, booking) == Pass
  {
  }

  /** The verdict depends on the `from` argument, never on the booking's stored status. */
  lemma IgnoresStoredStatus(from: BookingStatus, to: BookingStatus, actorId: string, booking: Booking, stored: BookingStatus)
    ensures ValidateTransition(from, to, actorId, booking) == ValidateTransition(from, to, actorId, booking.(status := stored))
  {
  }

  /** A terminal status rejects every move with InvalidTransition. */
  lemma TerminalRejectsAll(from: BookingStatus, to: BookingStatus, actorId: string, booking: Booking)
    requires IsTerminal(from)
    ensures ValidateTransition(from, to, actorId, booking).Fail?
    ensures ValidateTransition(from, to, actorId, booking).error.kind == BookingTransition
  {
  }
}
