/**
 * The review service (src/services/review.service.ts): a participant of a
 * completed booking reviews the other party once, which inserts a review row
 * and a "review.received" notification for the party reviewed; and the two
 * listing queries, newest first.
 *
 * The reviewer's display name (a profile lookup) and the generated review id
 * are inputs.
 */
module Reviews {
  import opened Errors
  import opened Text
  import opened Rows

  datatype ReviewInput = ReviewInput(bookingId: string, rating: int, comment: Option<string>)

  /** The star the notification body repeats once per rating point (U+2B50). */
  const Star: char := '⭐'

  /** The reviews of one booking written by one reviewer, in insertion order. */
  function ByBookingAndReviewer(rs: seq<Review>, bookingId: string, reviewerId: string): (r: seq<Review>)
    ensures forall x :: x in r <==> x in rs && x.bookingId == bookingId && x.reviewerId == reviewerId
    ensures |r| <= |rs|
  {
    if rs == [] then []
    else (if rs[0].bookingId == bookingId && rs[0].reviewerId == reviewerId then [rs[0]] else [])
         + ByBookingAndReviewer(rs[1..], bookingId, reviewerId)
  }

  /** `findByBookingAndReviewer`: a `.single()` lookup, so it finds a review only when exactly one matches. */
  predicate AlreadyReviewed(t: Tables, bookingId: string, reviewerId: string)
  {
    |ByBookingAndReviewer(t.reviews, bookingId, reviewerId)| == 1
  }

  /** The party reviewed: the owner when the renter reviews, otherwise the renter. */
  function TargetOf(b: Booking, reviewerId: string): string
  {
    if b.renterId == reviewerId then b.ownerId else b.renterId
  }

  /** `display_name || "Someone"`: an absent or empty name falls back. */
  function DisplayName(name: Option<string>): (r: string)
    ensures Truthy(name) ==> r == name.value
    ensures !Truthy(name) ==> r == "Someone"
  {
    if Truthy(name) then name.value else "Someone"
  }

  /** The notification for the party reviewed. */
  function ReviewNotification(targetId: string, reviewerName: Option<string>, rating: nat): Notification
  {
    Notification(targetId, "review.received", "New review from " + DisplayName(reviewerName), "Rating: " + RepeatChar(Star, rating))
  }

  /** `create`: the guard chain in source order, then the review and notification inserts. */
  function CreateReviewSpec(t: Tables, reviewId: string, reviewerId: string, input: ReviewInput,
                            reviewerName: Option<string>, writeError: Option<string>): Step<Review>
  {
    if input.rating < 1 || input.rating > 5 then
      Step(t, Err(App(ValidationError("Rating must be between 1 and 5"))))
    else if input.bookingId !in t.bookings then
      Step(t, Err(App(NotFoundError("Booking not found"))))
    else
      var b := t.bookings[input.bookingId];
      if b.status != Completed then
        Step(t, Err(App(ValidationError("Can only review completed bookings"))))
      else if b.renterId != reviewerId && b.ownerId != reviewerId then
        Step(t, Err(App(ForbiddenError("You can only review bookings you participated in"))))
      else if AlreadyReviewed(t, input.bookingId, reviewerId) then
        Step(t, Err(App(ValidationError("You have already reviewed this booking"))))
      else if writeError.Some? then
        Step(t, Err(App(DatabaseError("Failed to create review: " + writeError.value))))
      else
        var target := TargetOf(b, reviewerId);
        var review := Review(reviewId, input.bookingId, b.listingId, reviewerId, target, input.rating, input.comment);
        Step(t.(reviews := t.reviews + [review],
                notifications := t.notifications + [ReviewNotification(target, reviewerName, input.rating)]),
             Ok(review))
  }

  method CreateReview(db: Database, reviewId: string, reviewerId: string, input: ReviewInput,
                      reviewerName: Option<string>, writeError: Option<string>) returns (r: Result<Review>)
    modifies db
    ensures (db.Snapshot(), r) == (CreateReviewSpec(old(db.Snapshot()), reviewId, reviewerId, input, reviewerName, writeError).tables,
                                   CreateReviewSpec(old(db.Snapshot()), reviewId, reviewerId, input, reviewerName, writeError).result)
  {
    if input.rating < 1 || input.rating > 5 {
      return Err(App(ValidationError("Rating must be between 1 and 5")));
    }
    if input.bookingId !in db.bookings {
      return Err(App(NotFoundError("Booking not found")));
    }
    var booking := db.bookings[input.bookingId];
    if booking.status != Completed {
      return Err(App(ValidationError("Can only review completed bookings")));
    }
    if booking.renterId != reviewerId && booking.ownerId != reviewerId {
      return Err(App(ForbiddenError("You can only review bookings you participated in")));
    }
    var targetId := if booking.renterId == reviewerId then booking.ownerId else booking.renterId;
    var existing := ByBookingAndReviewer(db.reviews, input.bookingId, reviewerId);
    if |existing| == 1 {
      return Err(App(ValidationError("You have already reviewed this booking")));
    }
    if writeError.Some? {
      return Err(App(DatabaseError("Failed to create review: " + writeError.value)));
    }
    var review := Review(reviewId, input.bookingId, booking.listingId, reviewerId, targetId, input.rating, input.comment);
    db.reviews := db.reviews + [review];
    db.notifications := db.notifications + [ReviewNotification(targetId, reviewerName, input.rating)];
    return Ok(review);
  }

  // ---------------------------------------------------------------------------
  // Queries

  /** The column filter of the two queries: an optional listing and an optional target. */
  predicate Selected(x: Review, listingId: Option<string>, targetId: Option<string>)
  {
    (listingId.Some? ==> x.listingId == listingId.value) && (targetId.Some? ==> x.targetId == targetId.value)
  }

  /** The reviews satisfying a column filter, most recently inserted first. */
  function NewestFirst(rs: seq<Review>, listingId: Option<string>, targetId: Option<string>): (r: seq<Review>)
    ensures forall x :: x in r <==> x in rs && Selected(x, listingId, targetId)
  {
    if rs == [] then []
    else
      var last := rs[|rs| - 1];
      assert rs == rs[..|rs| - 1] + [last];
      (if Selected(last, listingId, targetId) then [last] else [])
      + NewestFirst(rs[..|rs| - 1], listingId, targetId)
  }

  /** `findByListing` */
  function ListingReviews(t: Tables, listingId: string, readError: Option<string>): (r: Result<seq<Review>>)
    ensures r.Err? <==> readError.Some?
    ensures r.Err? ==> r.error == App(DatabaseError("Failed to get reviews: " + readError.value))
    ensures r.Ok? ==> forall x :: x in r.value <==> x in t.reviews && x.listingId == listingId
  {
    if readError.Some? then Err(App(DatabaseError("Failed to get reviews: " + readError.value)))
    else Ok(NewestFirst(t.reviews, Some(listingId), None))
  }

  /** `findByTargetUser` */
  function UserReviews(t: Tables, userId: string, readError: Option<string>): (r: Result<seq<Review>>)
    ensures r.Err? <==> readError.Some?
    ensures r.Err? ==> r.error == App(DatabaseError("Failed to get reviews: " + readError.value))
    ensures r.Ok? ==> forall x :: x in r.value <==> x in t.reviews && x.targetId == userId
  {
    if readError.Some? then Err(App(DatabaseError("Failed to get reviews: " + readError.value)))
    else Ok(NewestFirst(t.reviews, None, Some(userId)))
  }

  // ---------------------------------------------------------------------------
  // Properties

  /**
   * The guards in order: a rating outside 1..5 is refused before the booking
   * is looked up; then a missing booking, a booking not completed and a
   * reviewer who is neither party; then a repeated review. A review is written
   * exactly when every guard passes and the insert succeeds.
   */
  lemma CreateReviewGuards(t: Tables, reviewId: string, reviewerId: string, input: ReviewInput,
                           reviewerName: Option<string>, writeError: Option<string>)
    ensures var s := CreateReviewSpec(t, reviewId, reviewerId, input, reviewerName, writeError);
      && (input.rating < 1 || input.rating > 5 ==>
            s == Step(t, Err(App(ValidationError("Rating must be between 1 and 5")))))
      && (1 <= input.rating <= 5 && input.bookingId !in t.bookings ==>
            s == Step(t, Err(App(NotFoundError("Booking not found")))))
      && (1 <= input.rating <= 5 && input.bookingId in t.bookings && t.bookings[input.bookingId].status != Completed ==>
            s == Step(t, Err(App(ValidationError("Can only review completed bookings")))))
      && (1 <= input.rating <= 5 && input.bookingId in t.bookings && t.bookings[input.bookingId].status == Completed
          && reviewerId != t.bookings[input.bookingId].renterId && reviewerId != t.bookings[input.bookingId].ownerId ==>
            s == Step(t, Err(App(ForbiddenError("You can only review bookings you participated in")))))
      && (s.result.Err? ==> s.tables == t)
      && (s.result.Ok? <==>
            && 1 <= input.rating <= 5
            && input.bookingId in t.bookings
            && t.bookings[input.bookingId].status == Completed
            && (reviewerId == t.bookings[input.bookingId].renterId || reviewerId == t.bookings[input.bookingId].ownerId)
            && !AlreadyReviewed(t, input.bookingId, reviewerId)
            && writeError.None?)
  {
  }

  /**
   * A stored review is the one returned: it copies the booking's listing, and
   * its target is the other party of the booking (never the reviewer, when
   * renter and owner differ). The party reviewed gets one notification whose
   * body shows one star per rating point.
   */
  lemma CreatedReviewShape(t: Tables, reviewId: string, reviewerId: string, input: ReviewInput,
                           reviewerName: Option<string>, writeError: Option<string>)
    requires CreateReviewSpec(t, reviewId, reviewerId, input, reviewerName, writeError).result.Ok?
    ensures var s := CreateReviewSpec(t, reviewId, reviewerId, input, reviewerName, writeError);
      var b := t.bookings[input.bookingId];
      var r := s.result.value;
      && s.tables.reviews == t.reviews + [r]
      && s.tables.bookings == t.bookings && s.tables.transactions == t.transactions
      && r.id == reviewId && r.bookingId == input.bookingId && r.listingId == b.listingId
      && r.reviewerId == reviewerId && r.rating == input.rating && r.comment == input.comment
      && (reviewerId == b.renterId ==> r.targetId == b.ownerId)
      && (reviewerId != b.renterId ==> r.targetId == b.renterId && reviewerId == b.ownerId)
      && (b.renterId != b.ownerId ==> r.targetId != reviewerId)
      && |s.tables.notifications| == |t.notifications| + 1
      && s.tables.notifications[..|t.notifications|] == t.notifications
      && var n := s.tables.notifications[|t.notifications|];
         && n.userId == r.targetId && n.kind == "review.received"
         && n.body[..8] == "Rating: " && |n.body| == 8 + r.rating
         && (forall i :: 8 <= i < |n.body| ==> n.body[i] == Star)
  {
    var s := CreateReviewSpec(t, reviewId, reviewerId, input, reviewerName, writeError);
    var r := s.result.value;
    var n := ReviewNotification(r.targetId, reviewerName, input.rating);
    assert s.tables.notifications == t.notifications + [n];
    assert n.body == "Rating: " + RepeatChar(Star, input.rating);
  }

  /** The notification title names the reviewer, falling back to "Someone". */
  lemma NotificationTitle(targetId: string, reviewerName: Option<string>, rating: nat)
    ensures Truthy(reviewerName) ==> ReviewNotification(targetId, reviewerName, rating).title == "New review from " + reviewerName.value
    ensures !Truthy(reviewerName) ==> ReviewNotification(targetId, reviewerName, rating).title == "New review from Someone"
  {
  }

  /** Every stored rating is between 1 and 5. */
  predicate RatingsInRange(t: Tables)
  {
    forall i :: 0 <= i < |t.reviews| ==> 1 <= t.reviews[i].rating <= 5
  }

  /** No reviewer has reviewed the same booking twice. */
  predicate OneReviewPerReviewer(t: Tables)
  {
    forall i, j :: 0 <= i < j < |t.reviews| ==>
      t.reviews[i].bookingId != t.reviews[j].bookingId || t.reviews[i].reviewerId != t.reviews[j].reviewerId
  }

  lemma {:induction false} NoneFound(rs: seq<Review>, bookingId: string, reviewerId: string)
    requires forall i :: 0 <= i < |rs| ==> rs[i].bookingId != bookingId || rs[i].reviewerId != reviewerId
    ensures ByBookingAndReviewer(rs, bookingId, reviewerId) == []
  {
    if rs != [] {
      NoneFound(rs[1..], bookingId, reviewerId);
    }
  }

  /** Without duplicates, the `.single()` lookup sees every existing review. */
  lemma {:induction false} AtMostOneMatch(rs: seq<Review>, bookingId: string, reviewerId: string)
    requires forall i, j :: 0 <= i < j < |rs| ==> rs[i].bookingId != rs[j].bookingId || rs[i].reviewerId != rs[j].reviewerId
    ensures |ByBookingAndReviewer(rs, bookingId, reviewerId)| <= 1
  {
    if rs != [] {
      if rs[0].bookingId == bookingId && rs[0].reviewerId == reviewerId {
        forall i | 0 <= i < |rs[1..]|
          ensures rs[1..][i].bookingId != bookingId || rs[1..][i].reviewerId != reviewerId
        {
          assert rs[1..][i] == rs[i + 1];
        }
        NoneFound(rs[1..], bookingId, reviewerId);
      } else {
        AtMostOneMatch(rs[1..], bookingId, reviewerId);
      }
    }
  }

  /** Creating a review keeps both table invariants: ratings in range and one review per reviewer and booking. */
  lemma CreateReviewKeepsInvariants(t: Tables, reviewId: string, reviewerId: string, input: ReviewInput,
                                    reviewerName: Option<string>, writeError: Option<string>)
    requires RatingsInRange(t) && OneReviewPerReviewer(t)
    ensures var u := CreateReviewSpec(t, reviewId, reviewerId, input, reviewerName, writeError).tables;
      RatingsInRange(u) && OneReviewPerReviewer(u)
  {
    var s := CreateReviewSpec(t, reviewId, reviewerId, input, reviewerName, writeError);
    if s.result.Ok? {
      var r := s.result.value;
      AtMostOneMatch(t.reviews, input.bookingId, reviewerId);
      assert |ByBookingAndReviewer(t.reviews, input.bookingId, reviewerId)| == 0;
      forall i | 0 <= i < |t.reviews|
        ensures t.reviews[i].bookingId != r.bookingId || t.reviews[i].reviewerId != r.reviewerId
      {
        assert t.reviews[i] in t.reviews;
      }
      assert s.tables.reviews == t.reviews + [r];
    }
  }

  /** Listing newest first takes the last row (when it matches), then the older rows newest first. */
  lemma NewestFirstUnfold(rs: seq<Review>, listingId: Option<string>, targetId: Option<string>)
    requires rs != []
    ensures NewestFirst(rs, listingId, targetId) ==
      (if Selected(rs[|rs| - 1], listingId, targetId) then [rs[|rs| - 1]] else [])
      + NewestFirst(rs[..|rs| - 1], listingId, targetId)
  {
  }

  /** The queries list newest first: reversed, they are the matching rows in insertion order. */
  lemma {:induction false} NewestFirstIsReversedInsertionOrder(rs: seq<Review>, listingId: Option<string>, targetId: Option<string>)
    ensures Reverse(NewestFirst(rs, listingId, targetId)) == InsertionOrder(rs, listingId, targetId)
  {
    if rs != [] {
      var init := rs[..|rs| - 1];
      var last := rs[|rs| - 1];
      NewestFirstIsReversedInsertionOrder(init, listingId, targetId);
      assert rs == init + [last];
      InsertionOrderAppend(init, last, listingId, targetId);
      NewestFirstUnfold(rs, listingId, targetId);
      var head := if Selected(last, listingId, targetId) then [last] else [];
      ReverseShortHead(head, NewestFirst(init, listingId, targetId));
    }
  }

  /** The matching rows in insertion order. */
  function InsertionOrder(rs: seq<Review>, listingId: Option<string>, targetId: Option<string>): (r: seq<Review>)
    ensures forall x :: x in r <==> x in rs && Selected(x, listingId, targetId)
  {
    if rs == [] then []
    else (if Selected(rs[0], listingId, targetId) then [rs[0]] else [])
         + InsertionOrder(rs[1..], listingId, targetId)
  }

  lemma {:induction false} InsertionOrderAppend(rs: seq<Review>, x: Review, listingId: Option<string>, targetId: Option<string>)
    ensures InsertionOrder(rs + [x], listingId, targetId) ==
      InsertionOrder(rs, listingId, targetId)
      + (if Selected(x, listingId, targetId) then [x] else [])
  {
    if rs == [] {
      assert [] + [x] == [x];
      assert [x][1..] == [];
    } else {
      assert (rs + [x])[0] == rs[0];
      assert (rs + [x])[1..] == rs[1..] + [x];
      InsertionOrderAppend(rs[1..], x, listingId, targetId);
    }
  }
}
