/**
 * The listing service (src/services/listing.service.ts): create as draft,
 * read while not soft-deleted, owner-only update, soft delete and publish.
 *
 * Each operation is a specification function over the store's value,
 * returning the new value and the result, and a method that performs the
 * same steps on a Database and is proved to agree with it. A failing write
 * is the input `writeError` (the store's error message, None when the write
 * succeeds); identifiers and times the store or the clock would supply are
 * inputs too.
 */
module Listings {
  import opened Errors
  import opened Rows
  import opened Validators

  /** The geography value for a coordinate pair: longitude first. */
  function PointOf(l: Location): (p: Point)
    ensures p.x == l.lng && p.y == l.lat
  {
    Point(l.lng, l.lat)
  }

  function ListingStatusName(s: ListingStatus): string
  {
    match s
    case ListingDraft => "draft"
    case ListingActive => "active"
    case ListingPaused => "paused"
    case ListingArchived => "archived"
  }

  /** A listing that exists and is not soft-deleted. */
  predicate Visible(t: Tables, id: string)
  {
    id in t.listings && t.listings[id].deletedAt.None?
  }

  /** `getListing`: the row, unless it is missing or soft-deleted. */
  function GetListing(t: Tables, id: string): (r: Result<Listing>)
    ensures r.Ok? <==> Visible(t, id)
    ensures r.Ok? ==> r.value == t.listings[id]
    ensures r.Err? ==> r.error == App(NotFoundError("Listing not found"))
  {
    if Visible(t, id) then Ok(t.listings[id]) else Err(App(NotFoundError("Listing not found")))
  }

  // ---------------------------------------------------------------------------
  // createListing

  function NewListing(id: string, ownerId: string, input: ListingInput): Listing
  {
    Listing(id, ownerId, ListingDraft, input.details,
            if input.location.Some? then Some(PointOf(input.location.value)) else None,
            None, None)
  }

  function CreateListingSpec(t: Tables, id: string, ownerId: string, input: ListingInput,
                             writeError: Option<string>): Step<Listing>
  {
    if writeError.Some? then
      Step(t, Err(App(DatabaseError("Failed to create listing: " + writeError.value))))
    else
      var l := NewListing(id, ownerId, input);
      Step(t.(listings := t.listings[id := l]), Ok(l))
  }

  method CreateListing(db: Database, id: string, ownerId: string, input: ListingInput,
                       writeError: Option<string>) returns (r: Result<Listing>)
    modifies db
    ensures (db.Snapshot(), r) == (CreateListingSpec(old(db.Snapshot()), id, ownerId, input, writeError).tables,
                                   CreateListingSpec(old(db.Snapshot()), id, ownerId, input, writeError).result)
  {
    if writeError.Some? {
      return Err(App(DatabaseError("Failed to create listing: " + writeError.value)));
    }
    var location: Option<Point> := None;
    if input.location.Some? {
      location := Some(PointOf(input.location.value));
    }
    var listing := Listing(id, ownerId, ListingDraft, input.details, location, None, None);
    db.listings := db.listings[id := listing];
    return Ok(listing);
  }

  // ---------------------------------------------------------------------------
  // updateListing

  /** Every field the patch holds replaces the listing's; every other field stays. */
  function ApplyPatch(d: ListingDetails, p: ListingPatch): ListingDetails
  {
    ListingDetails(
      title := p.title.GetOr(d.title),
      description := if p.description.Some? then p.description else d.description,
      categoryId := if p.categoryId.Some? then p.categoryId else d.categoryId,
      kind := p.kind.GetOr(d.kind),
      priceHourly := if p.priceHourly.Some? then p.priceHourly else d.priceHourly,
      priceDaily := p.priceDaily.GetOr(d.priceDaily),
      priceWeekly := if p.priceWeekly.Some? then p.priceWeekly else d.priceWeekly,
      depositAmount := p.depositAmount.GetOr(d.depositAmount),
      currency := p.currency.GetOr(d.currency),
      addressText := if p.addressText.Some? then p.addressText else d.addressText,
      addressCity := if p.addressCity.Some? then p.addressCity else d.addressCity,
      addressCountry := if p.addressCountry.Some? then p.addressCountry else d.addressCountry,
      availabilityType := p.availabilityType.GetOr(d.availabilityType),
      minRentalHours := p.minRentalHours.GetOr(d.minRentalHours),
      maxRentalDays := if p.maxRentalDays.Some? then p.maxRentalDays else d.maxRentalDays,
      deliveryAvailable := p.deliveryAvailable.GetOr(d.deliveryAvailable),
      deliveryFee := p.deliveryFee.GetOr(d.deliveryFee),
      pickupAvailable := p.pickupAvailable.GetOr(d.pickupAvailable))
  }

  function UpdateListingSpec(t: Tables, id: string, userId: string, patch: ListingPatch,
                             writeError: Option<string>): Step<Listing>
  {
    match GetListing(t, id)
    case Err(e) => Step(t, Err(e))
    case Ok(l) =>
      if l.ownerId != userId then
        Step(t, Err(App(ForbiddenError("You can only update your own listings"))))
      else if writeError.Some? then
        Step(t, Err(App(DatabaseError("Failed to update listing: " + writeError.value))))
      else
        var updated := l.(details := ApplyPatch(l.details, patch),
                          location := if patch.location.Some? then Some(PointOf(patch.location.value)) else l.location);
        Step(t.(listings := t.listings[id := updated]), Ok(updated))
  }

  method UpdateListing(db: Database, id: string, userId: string, patch: ListingPatch,
                       writeError: Option<string>) returns (r: Result<Listing>)
    modifies db
    ensures (db.Snapshot(), r) == (UpdateListingSpec(old(db.Snapshot()), id, userId, patch, writeError).tables,
                                   UpdateListingSpec(old(db.Snapshot()), id, userId, patch, writeError).result)
  {
    var found := GetListing(db.Snapshot(), id);
    if found.Err? {
      return Err(found.error);
    }
    var listing := found.value;
    if listing.ownerId != userId {
      return Err(App(ForbiddenError("You can only update your own listings")));
    }
    if writeError.Some? {
      return Err(App(DatabaseError("Failed to update listing: " + writeError.value)));
    }
    var updated := listing.(details := ApplyPatch(listing.details, patch));
    if patch.location.Some? {
      updated := updated.(location := Some(PointOf(patch.location.value)));
    }
    db.listings := db.listings[id := updated];
    return Ok(updated);
  }

  // ---------------------------------------------------------------------------
  // deleteListing

  function DeleteListingSpec(t: Tables, id: string, userId: string, now: int,
                             writeError: Option<string>): Step<()>
  {
    match GetListing(t, id)
    case Err(e) => Step(t, Err(e))
    case Ok(l) =>
      if l.ownerId != userId then
        Step(t, Err(App(ForbiddenError("You can only delete your own listings"))))
      else if writeError.Some? then
        Step(t, Err(App(DatabaseError("Failed to delete listing: " + writeError.value))))
      else
        Step(t.(listings := t.listings[id := l.(deletedAt := Some(now))]), Ok(()))
  }

  method DeleteListing(db: Database, id: string, userId: string, now: int,
                       writeError: Option<string>) returns (r: Result<()>)
    modifies db
    ensures (db.Snapshot(), r) == (DeleteListingSpec(old(db.Snapshot()), id, userId, now, writeError).tables,
                                   DeleteListingSpec(old(db.Snapshot()), id, userId, now, writeError).result)
  {
    var found := GetListing(db.Snapshot(), id);
    if found.Err? {
      return Err(found.error);
    }
    if found.value.ownerId != userId {
      return Err(App(ForbiddenError("You can only delete your own listings")));
    }
    if writeError.Some? {
      return Err(App(DatabaseError("Failed to delete listing: " + writeError.value)));
    }
    db.listings := db.listings[id := found.value.(deletedAt := Some(now))];
    return Ok(());
  }

  // ---------------------------------------------------------------------------
  // publishListing

  function PublishListingSpec(t: Tables, id: string, userId: string, now: int,
                              writeError: Option<string>): Step<Listing>
  {
    match GetListing(t, id)
    case Err(e) => Step(t, Err(e))
    case Ok(l) =>
      if l.ownerId != userId then
        Step(t, Err(App(ForbiddenError("You can only publish your own listings"))))
      else if l.status != ListingDraft then
        Step(t, Err(Plain("Only draft listings can be published")))
      else if writeError.Some? then
        Step(t, Err(App(DatabaseError("Failed to publish listing: " + writeError.value))))
      else
        var published := l.(status := ListingActive, publishedAt := Some(now));
        Step(t.(listings := t.listings[id := published]), Ok(published))
  }

  method PublishListing(db: Database, id: string, userId: string, now: int,
                        writeError: Option<string>) returns (r: Result<Listing>)
    modifies db
    ensures (db.Snapshot(), r) == (PublishListingSpec(old(db.Snapshot()), id, userId, now, writeError).tables,
                                   PublishListingSpec(old(db.Snapshot()), id, userId, now, writeError).result)
  {
    var found := GetListing(db.Snapshot(), id);
    if found.Err? {
      return Err(found.error);
    }
    var listing := found.value;
    if listing.ownerId != userId {
      return Err(App(ForbiddenError("You can only publish your own listings")));
    }
    if listing.status != ListingDraft {
      return Err(Plain("Only draft listings can be published"));
    }
    if writeError.Some? {
      return Err(App(DatabaseError("Failed to publish listing: " + writeError.value)));
    }
    var published := listing.(status := ListingActive, publishedAt := Some(now));
    db.listings := db.listings[id := published];
    return Ok(published);
  }

  // ---------------------------------------------------------------------------
  // getUserListings

  /** The owner's listings that are not deleted, optionally of one status (an empty filter is no filter). */
  function GetUserListings(t: Tables, userId: string, status: Option<string>, readError: Option<string>): (r: Result<set<Listing>>)
    ensures r.Err? <==> readError.Some?
    ensures r.Ok? ==> forall l :: l in r.value <==>
      && l in t.listings.Values && l.ownerId == userId && l.deletedAt.None?
      && (Truthy(status) ==> ListingStatusName(l.status) == status.value)
  {
    if readError.Some? then Err(App(DatabaseError("Failed to get listings: " + readError.value)))
    else Ok(set l | l in t.listings.Values && l.ownerId == userId && l.deletedAt.None?
                    && (Truthy(status) ==> ListingStatusName(l.status) == status.value))
  }

  // ---------------------------------------------------------------------------
  // Properties

  /** A created listing is a visible draft of its owner, never yet published, located longitude first. */
  lemma CreatedIsDraft(t: Tables, id: string, ownerId: string, input: ListingInput)
    ensures var s := CreateListingSpec(t, id, ownerId, input, None);
      && s.result.Ok?
      && s.result.value.status == ListingDraft
      && s.result.value.ownerId == ownerId
      && s.result.value.details == input.details
      && s.result.value.publishedAt.None?
      && (input.location.Some? <==> s.result.value.location.Some?)
      && (input.location.Some? ==> s.result.value.location.value == Point(input.location.value.lng, input.location.value.lat))
      && GetListing(s.tables, id) == Ok(s.result.value)
  {
  }

  /** Whatever fails leaves the store as it was. */
  lemma FailuresChangeNothing(t: Tables, id: string, userId: string, patch: ListingPatch, input: ListingInput,
                              now: int, writeError: Option<string>)
    ensures CreateListingSpec(t, id, userId, input, writeError).result.Err? ==> CreateListingSpec(t, id, userId, input, writeError).tables == t
    ensures UpdateListingSpec(t, id, userId, patch, writeError).result.Err? ==> UpdateListingSpec(t, id, userId, patch, writeError).tables == t
    ensures DeleteListingSpec(t, id, userId, now, writeError).result.Err? ==> DeleteListingSpec(t, id, userId, now, writeError).tables == t
    ensures PublishListingSpec(t, id, userId, now, writeError).result.Err? ==> PublishListingSpec(t, id, userId, now, writeError).tables == t
  {
  }

  /** Update, delete and publish of a visible listing by anyone but its owner fail with Forbidden. */
  lemma OwnerOnly(t: Tables, id: string, userId: string, patch: ListingPatch, now: int, writeError: Option<string>)
    requires Visible(t, id) && t.listings[id].ownerId != userId
    ensures UpdateListingSpec(t, id, userId, patch, writeError).result.error.error.Code() == "FORBIDDEN"
    ensures DeleteListingSpec(t, id, userId, now, writeError).result.error.error.Code() == "FORBIDDEN"
    ensures PublishListingSpec(t, id, userId, now, writeError).result.error.error.Code() == "FORBIDDEN"
  {
  }

  /** Any operation on a missing or deleted listing fails with NotFound before any other check. */
  lemma MissingIsNotFound(t: Tables, id: string, userId: string, patch: ListingPatch, now: int, writeError: Option<string>)
    requires !Visible(t, id)
    ensures UpdateListingSpec(t, id, userId, patch, writeError).result == Err(App(NotFoundError("Listing not found")))
    ensures DeleteListingSpec(t, id, userId, now, writeError).result == Err(App(NotFoundError("Listing not found")))
    ensures PublishListingSpec(t, id, userId, now, writeError).result == Err(App(NotFoundError("Listing not found")))
  {
  }

  /** Publishing succeeds only on an owner's draft and makes it active with a publication time. */
  lemma PublishOnlyDrafts(t: Tables, id: string, userId: string, now: int, writeError: Option<string>)
    ensures var s := PublishListingSpec(t, id, userId, now, writeError);
      s.result.Ok? <==> (Visible(t, id) && t.listings[id].ownerId == userId
                         && t.listings[id].status == ListingDraft && writeError.None?)
    ensures var s := PublishListingSpec(t, id, userId, now, writeError);
      s.result.Ok? ==> s.tables.listings[id] == s.result.value
                       && s.result.value.status == ListingActive && s.result.value.publishedAt == Some(now)
    ensures Visible(t, id) && t.listings[id].ownerId == userId && t.listings[id].status != ListingDraft ==>
      PublishListingSpec(t, id, userId, now, writeError).result == Err(Plain("Only draft listings can be published"))
  {
  }

  /** Deletion is soft: the row stays with a deletion time, and reads no longer see it. */
  lemma DeleteIsSoft(t: Tables, id: string, userId: string, now: int, status: Option<string>)
    requires DeleteListingSpec(t, id, userId, now, None).result.Ok?
    ensures var t' := DeleteListingSpec(t, id, userId, now, None).tables;
      && id in t'.listings
      && t'.listings[id] == t.listings[id].(deletedAt := Some(now))
      && GetListing(t', id).Err?
      && t'.listings[id] !in GetUserListings(t', userId, status, None).value
  {
  }

  /** An update sets the fields the patch holds, keeps the rest, and never touches owner or status. */
  lemma UpdateAppliesPatch(t: Tables, id: string, userId: string, patch: ListingPatch)
    requires UpdateListingSpec(t, id, userId, patch, None).result.Ok?
    ensures var l := t.listings[id];
      var u := UpdateListingSpec(t, id, userId, patch, None).result.value;
      && u.id == l.id && u.ownerId == l.ownerId && u.status == l.status
      && u.publishedAt == l.publishedAt && u.deletedAt == l.deletedAt
      && (patch.title.Some? ==> u.details.title == patch.title.value)
      && (patch.title.None? ==> u.details.title == l.details.title)
      && (patch.priceDaily.Some? ==> u.details.priceDaily == patch.priceDaily.value)
      && (patch.priceDaily.None? ==> u.details.priceDaily == l.details.priceDaily)
      && (patch.location.None? ==> u.location == l.location)
    ensures ApplyPatch(t.listings[id].details, ListingPatch(None, None, None, None, None, None, None, None, None, None,
                                                            None, None, None, None, None, None, None, None, None))
            == t.listings[id].details
  {
  }

  /** Each operation writes at most the one listing row it names. */
  lemma OtherRowsUntouched(t: Tables, id: string, other: string, userId: string, patch: ListingPatch, now: int,
                           writeError: Option<string>)
    requires other != id && other in t.listings
    ensures UpdateListingSpec(t, id, userId, patch, writeError).tables.listings[other] == t.listings[other]
    ensures DeleteListingSpec(t, id, userId, now, writeError).tables.listings[other] == t.listings[other]
    ensures PublishListingSpec(t, id, userId, now, writeError).tables.listings[other] == t.listings[other]
    ensures UpdateListingSpec(t, id, userId, patch, writeError).tables.bookings == t.bookings
  {
  }
}
