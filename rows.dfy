/**
 * The rows of the data store (src/types/database.ts) and an in-memory store
 * holding every table the core reads or writes.
 *
 * Tables keyed by a primary key are maps; the ledger (transactions), reviews,
 * messages and notifications are sequences in insertion order, because the
 * booking service consults "the first" ledger row of a booking.
 */
module Rows {
  import opened Errors
  import opened Pricing

  datatype BookingStatus =
    | Requested | Approved | Declined | AutoDeclined | Active
    | Completed | Cancelled | Disputed | Resolved

  /** The status as the data store spells it. */
  function StatusName(s: BookingStatus): string
  {
    match s
    case Requested => "requested"
    case Approved => "approved"
    case Declined => "declined"
    case AutoDeclined => "auto_declined"
    case Active => "active"
    case Completed => "completed"
    case Cancelled => "cancelled"
    case Disputed => "disputed"
    case Resolved => "resolved"
  }

  datatype TransactionType = PreAuth | Capture | Payout | Refund | PartialRefund

  /** Ledger status: pending, authorized, completed, failed, cancelled, refunded. */
  datatype TxStatus = TxPending | TxAuthorized | TxCompleted | TxFailed | TxCancelled | TxRefunded

  /** Listing status: draft, active, paused, archived. */
  datatype ListingStatus = ListingDraft | ListingActive | ListingPaused | ListingArchived

  datatype ListingKind = Offer | Request
  datatype Availability = Flexible | SpecificDates

  /** A JSON object with string values, keys in insertion order. */
  type Payload = seq<(string, string)>

  /** A coordinate pair as the client sends it. */
  datatype Location = Location(lat: real, lng: real)

  /** The geography column: a WKT `POINT(x y)` whose x is the longitude and y the latitude. */
  datatype Point = Point(x: real, y: real)

  /** The owner-editable columns of a listing. */
  datatype ListingDetails = ListingDetails(
    title: string,
    description: Option<string>,
    categoryId: Option<string>,
    kind: ListingKind,
    priceHourly: Option<int>,
    priceDaily: int,
    priceWeekly: Option<int>,
    depositAmount: int,
    currency: string,
    addressText: Option<string>,
    addressCity: Option<string>,
    addressCountry: Option<string>,
    availabilityType: Availability,
    minRentalHours: int,
    maxRentalDays: Option<int>,
    deliveryAvailable: bool,
    deliveryFee: int,
    pickupAvailable: bool)

  datatype Listing = Listing(
    id: string,
    ownerId: string,
    status: ListingStatus,
    details: ListingDetails,
    location: Option<Point>,
    publishedAt: Option<int>,
    deletedAt: Option<int>)

  datatype Booking = Booking(
    id: string,
    listingId: string,
    renterId: string,
    ownerId: string,
    startTime: int,
    endTime: int,
    status: BookingStatus,
    paymentAuthorized: bool,
    subtotal: int,
    serviceFee: int,
    deliveryFee: int,
    protectionFee: int,
    depositAmount: int,
    totalAmount: int,
    ownerPayout: int,
    currency: string,
    deliveryMethod: DeliveryMethod,
    deliveryAddress: Option<string>,
    protectionPlan: ProtectionPlan,
    approvedAt: Option<int>,
    declinedAt: Option<int>,
    cancelledAt: Option<int>,
    cancelledBy: Option<string>,
    cancellationReason: Option<string>,
    startedAt: Option<int>,
    completedAt: Option<int>)

  datatype Transaction = Transaction(
    id: string,
    bookingId: string,
    kind: TransactionType,
    status: TxStatus,
    amount: int,
    currency: string,
    paywayTranId: Option<string>,
    metadata: Option<Payload>,      // { payway_callback: payload }
    processedAt: Option<int>)

  datatype Review = Review(
    id: string,
    bookingId: string,
    listingId: string,
    reviewerId: string,
    targetId: string,
    rating: int,
    comment: Option<string>)

  datatype Thread = Thread(
    id: string,
    listingId: Option<string>,
    bookingId: Option<string>,
    participantIds: seq<string>)

  datatype Message = Message(
    id: string,
    threadId: string,
    senderId: string,
    content: string,
    readAt: Option<int>,
    createdAt: int)

  datatype Notification = Notification(userId: string, kind: string, title: string, body: string)

  /** The whole store as a value. */
  datatype Tables = Tables(
    listings: map<string, Listing>,
    bookings: map<string, Booking>,
    transactions: seq<Transaction>,
    reviews: seq<Review>,
    threads: map<string, Thread>,
    messages: seq<Message>,
    notifications: seq<Notification>)

  /** An operation's effect on the store together with what it returns or throws. */
  datatype Step<+T> = Step(tables: Tables, result: Result<T>)

  /** The store the services write to, updated in place. */
  class Database {
    var listings: map<string, Listing>
    var bookings: map<string, Booking>
    var transactions: seq<Transaction>
    var reviews: seq<Review>
    var threads: map<string, Thread>
    var messages: seq<Message>
    var notifications: seq<Notification>

    function Snapshot(): Tables
      reads this
    {
      Tables(listings, bookings, transactions, reviews, threads, messages, notifications)
    }

    constructor ()
      ensures Snapshot() == Tables(map[], map[], [], [], map[], [], [])
    {
      listings, bookings, transactions := map[], map[], [];
      reviews, threads, messages, notifications := [], map[], [], [];
    }
  }

  // ---------------------------------------------------------------------------
  // Ledger queries and updates

  /** The ledger rows of one booking, in insertion order. */
  function LedgerOf(txs: seq<Transaction>, bookingId: string): (r: seq<Transaction>)
    ensures forall t :: t in r <==> t in txs && t.bookingId == bookingId
  {
    if txs == [] then []
    else (if txs[0].bookingId == bookingId then [txs[0]] else []) + LedgerOf(txs[1..], bookingId)
  }

  /** The rows carrying a given gateway transaction id. */
  function WithTranId(txs: seq<Transaction>, tranId: string): (r: seq<Transaction>)
    ensures forall t :: t in r <==> t in txs && t.paywayTranId == Some(tranId)
  {
    if txs == [] then []
    else (if txs[0].paywayTranId == Some(tranId) then [txs[0]] else []) + WithTranId(txs[1..], tranId)
  }

  /** The rows with a given primary key. */
  function WithId(txs: seq<Transaction>, id: string): (r: seq<Transaction>)
    ensures forall t :: t in r <==> t in txs && t.id == id
  {
    if txs == [] then []
    else (if txs[0].id == id then [txs[0]] else []) + WithId(txs[1..], id)
  }

  /** `.single()`: the row when exactly one matches, otherwise nothing. */
  function Single(rows: seq<Transaction>): (r: Option<Transaction>)
    ensures r.Some? <==> |rows| == 1
    ensures r.Some? ==> r.value == rows[0]
  {
    if |rows| == 1 then Some(rows[0]) else None
  }

  /** `booking.transactions?.[0]` */
  function FirstLedgerRow(txs: seq<Transaction>, bookingId: string): (r: Option<Transaction>)
    ensures r.Some? <==> exists t :: t in txs && t.bookingId == bookingId
    ensures r.Some? ==> r.value in txs && r.value.bookingId == bookingId
  {
    var rows := LedgerOf(txs, bookingId);
    if rows == [] then None else assert rows[0] in rows; Some(rows[0])
  }

  /** A nullable string that JavaScript treats as true: present and non-empty. */
  predicate Truthy(s: Option<string>) { s.Some? && s.value != "" }

  /** `update({ status, processed_at: now }).eq("payway_tran_id", tranId)` */
  function MarkTranId(txs: seq<Transaction>, tranId: string, status: TxStatus, now: int): (r: seq<Transaction>)
    ensures |r| == |txs|
    ensures forall i :: 0 <= i < |txs| ==>
      r[i] == if txs[i].paywayTranId == Some(tranId) then txs[i].(status := status, processedAt := Some(now)) else txs[i]
  {
    seq(|txs|, i requires 0 <= i < |txs| =>
      if txs[i].paywayTranId == Some(tranId) then txs[i].(status := status, processedAt := Some(now)) else txs[i])
  }

  /** `update({ status, processed_at: now }).eq("id", id)` */
  function MarkId(txs: seq<Transaction>, id: string, status: TxStatus, now: int): (r: seq<Transaction>)
    ensures |r| == |txs|
    ensures forall i :: 0 <= i < |txs| ==>
      r[i] == if txs[i].id == id then txs[i].(status := status, processedAt := Some(now)) else txs[i]
  {
    seq(|txs|, i requires 0 <= i < |txs| =>
      if txs[i].id == id then txs[i].(status := status, processedAt := Some(now)) else txs[i])
  }

  /** A callback's update: status, and the payload as metadata when one is stored. */
  function RecordCallback(txs: seq<Transaction>, tranId: string, status: TxStatus, metadata: Option<Payload>): (r: seq<Transaction>)
    ensures |r| == |txs|
    ensures forall i :: 0 <= i < |txs| ==>
      r[i] == if txs[i].paywayTranId == Some(tranId)
              then txs[i].(status := status, metadata := if metadata.Some? then metadata else txs[i].metadata)
              else txs[i]
  {
    seq(|txs|, i requires 0 <= i < |txs| =>
      if txs[i].paywayTranId == Some(tranId)
      then txs[i].(status := status, metadata := if metadata.Some? then metadata else txs[i].metadata)
      else txs[i])
  }
}
