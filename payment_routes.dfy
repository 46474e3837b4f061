/**
 * The payment routes (src/routes/payments.routes.ts): the gateway's signed
 * callback, which reconciles the ledger and the booking's payment flag; the
 * status query; and the refund of a completed ledger row.
 */
module PaymentRoutes {
  import opened Errors
  import opened Rows
  import opened Payment

  /**
   * The reconciliation a callback performs once accepted. The ledger row is
   * looked up with `.single()`: when exactly one row carries `tranId`, every
   * row with that id takes status authorized (approved) or failed, plus the
   * payload as metadata when one is given, and an approval sets the linked
   * booking's `payment_authorized`. Otherwise nothing changes.
   */
  function ApplyCallback(t: Tables, tranId: string, approved: bool, metadata: Option<Payload>): Tables
  {
    match Single(WithTranId(t.transactions, tranId))
    case None => t
    case Some(row) =>
      var txs := RecordCallback(t.transactions, tranId, if approved then TxAuthorized else TxFailed, metadata);
      var bookings :=
        if approved && row.bookingId in t.bookings
        then t.bookings[row.bookingId := t.bookings[row.bookingId].(paymentAuthorized := true)]
        else t.bookings;
      t.(transactions := txs, bookings := bookings)
  }

  /** The same reconciliation on the store. */
  method Reconcile(db: Database, tranId: string, approved: bool, metadata: Option<Payload>)
    modifies db
    ensures db.Snapshot() == ApplyCallback(old(db.Snapshot()), tranId, approved, metadata)
  {
    var row := Single(WithTranId(db.transactions, tranId));
    if row.Some? {
      var status := TxFailed;
      if approved {
        status := TxAuthorized;
      }
      db.transactions := RecordCallback(db.transactions, tranId, status, metadata);
      if approved && row.value.bookingId in db.bookings {
        var b := db.bookings[row.value.bookingId];
        db.bookings := db.bookings[row.value.bookingId := b.(paymentAuthorized := true)];
      }
    }
  }

  // ---------------------------------------------------------------------------
  // POST /payway-callback

  datatype CallbackReply = InvalidHash | CallbackAccepted

  function CallbackStatusCode(r: CallbackReply): int
  {
    match r
    case InvalidHash => 400
    case CallbackAccepted => 200
  }

  /** `payload.tran_id` as the query receives it; an absent key is sent as the text "undefined". */
  function PayloadTranId(payload: Payload): string
  {
    Lookup(payload, "tran_id").GetOr("undefined")
  }

  predicate PayloadApproved(payload: Payload)
  {
    Lookup(payload, "status") == Some("APPROVED")
  }

  function CallbackSpec(t: Tables, h: Hasher, env: PaywayEnv, payload: Payload): Step<CallbackReply>
  {
    if !VerifyCallbackHash(h, env, payload) then Step(t, Ok(InvalidHash))
    else Step(ApplyCallback(t, PayloadTranId(payload), PayloadApproved(payload), Some(payload)), Ok(CallbackAccepted))
  }

  method Callback(db: Database, h: Hasher, env: PaywayEnv, payload: Payload) returns (r: Result<CallbackReply>)
    modifies db
    ensures (db.Snapshot(), r) == (CallbackSpec(old(db.Snapshot()), h, env, payload).tables,
                                   CallbackSpec(old(db.Snapshot()), h, env, payload).result)
  {
    if !VerifyCallbackHash(h, env, payload) {
      return Ok(InvalidHash);
    }
    Reconcile(db, PayloadTranId(payload), PayloadApproved(payload), Some(payload));
    return Ok(CallbackAccepted);
  }

  // ---------------------------------------------------------------------------
  // GET /:id/status

  datatype StatusReply = StatusNotFound | StatusData(paymentStatus: string, amount: int, currency: string)

  function StatusReplyCode(r: StatusReply): int
  {
    if r.StatusNotFound? then 404 else 200
  }

  /** The status query: 404 unless the row exists and has a gateway id; a failing check propagates. */
  function TransactionStatus(t: Tables, id: string, check: CheckOutcome): (r: Result<StatusReply>)
    ensures r == Ok(StatusNotFound) <==>
      Single(WithId(t.transactions, id)).None? || !Truthy(Single(WithId(t.transactions, id)).value.paywayTranId)
    ensures r.Ok? && r.value.StatusData? ==> check == CheckReturns(r.value.paymentStatus, r.value.amount, r.value.currency)
    ensures r.Err? ==> check.CheckThrows? && r.error == Plain(check.message)
  {
    match Single(WithId(t.transactions, id))
    case None => Ok(StatusNotFound)
    case Some(row) =>
      if !Truthy(row.paywayTranId) then Ok(StatusNotFound)
      else match check
        case CheckThrows(m) => Err(Plain(m))
        case CheckReturns(s, a, c) => Ok(StatusData(s, a, c))
  }

  // ---------------------------------------------------------------------------
  // POST /:id/refund

  datatype RefundReply = RefundNotFound | NotRefundable | RefundData(success: bool)

  function RefundReplyCode(r: RefundReply): int
  {
    match r
    case RefundNotFound => 404
    case NotRefundable => 400
    case RefundData(_) => 200
  }

  /** Refund a completed row; it becomes refunded only when the gateway reports success. */
  function RefundSpec(t: Tables, id: string, refund: CallOutcome, now: int): Step<RefundReply>
  {
    match Single(WithId(t.transactions, id))
    case None => Step(t, Ok(RefundNotFound))
    case Some(row) =>
      if row.status != TxCompleted then Step(t, Ok(NotRefundable))
      else match refund
        case Throws(m) => Step(t, Err(Plain(m)))
        case Returns(success) =>
          var t1 := if success then t.(transactions := MarkId(t.transactions, id, TxRefunded, now)) else t;
          Step(t1, Ok(RefundData(success)))
  }

  method Refund(db: Database, id: string, refund: CallOutcome, now: int) returns (r: Result<RefundReply>)
    modifies db
    ensures (db.Snapshot(), r) == (RefundSpec(old(db.Snapshot()), id, refund, now).tables,
                                   RefundSpec(old(db.Snapshot()), id, refund, now).result)
  {
    var row := Single(WithId(db.transactions, id));
    if row.None? {
      return Ok(RefundNotFound);
    }
    if row.value.status != TxCompleted {
      return Ok(NotRefundable);
    }
    if refund.Throws? {
      return Err(Plain(refund.message));
    }
    if refund.success {
      db.transactions := MarkId(db.transactions, id, TxRefunded, now);
    }
    return Ok(RefundData(refund.success));
  }

  // ---------------------------------------------------------------------------
  // Properties

  /** A callback whose signature does not check out is answered 400 and writes nothing. */
  lemma InvalidHashWritesNothing(t: Tables, h: Hasher, env: PaywayEnv, payload: Payload)
    requires !VerifyCallbackHash(h, env, payload)
    ensures CallbackSpec(t, h, env, payload) == Step(t, Ok(InvalidHash))
    ensures CallbackStatusCode(CallbackSpec(t, h, env, payload).result.value) == 400
  {
  }

  /** Every callback is answered: 400 for a bad signature, otherwise 200, whatever the ledger holds. */
  lemma CallbackAlwaysAnswers(t: Tables, h: Hasher, env: PaywayEnv, payload: Payload)
    ensures CallbackSpec(t, h, env, payload).result.Ok?
    ensures CallbackStatusCode(CallbackSpec(t, h, env, payload).result.value) == 200 <==> VerifyCallbackHash(h, env, payload)
  {
  }

  /**
   * When exactly one ledger row carries the id, every row with the id takes
   * authorized or failed and the payload as metadata, all other rows are
   * untouched, and only an approval flags the linked booking as authorized.
   */
  lemma CallbackReconciles(t: Tables, tranId: string, approved: bool, metadata: Option<Payload>)
    requires |WithTranId(t.transactions, tranId)| == 1
    ensures var u := ApplyCallback(t, tranId, approved, metadata);
      var row := WithTranId(t.transactions, tranId)[0];
      && |u.transactions| == |t.transactions|
      && (forall i :: 0 <= i < |t.transactions| && t.transactions[i].paywayTranId == Some(tranId) ==>
            u.transactions[i].status == (if approved then TxAuthorized else TxFailed)
            && (metadata.Some? ==> u.transactions[i].metadata == metadata)
            && u.transactions[i].id == t.transactions[i].id && u.transactions[i].amount == t.transactions[i].amount)
      && (forall i :: 0 <= i < |t.transactions| && t.transactions[i].paywayTranId != Some(tranId) ==>
            u.transactions[i] == t.transactions[i])
      && (approved && row.bookingId in t.bookings ==>
            u.bookings == t.bookings[row.bookingId := t.bookings[row.bookingId].(paymentAuthorized := true)])
      && (!approved ==> u.bookings == t.bookings)
  {
  }

  /**
   * A callback never clears a booking's payment flag: every booking authorized
   * before is authorized after, the set of bookings is the same, and only the
   * flag can change.
   */
  lemma CallbackNeverClearsAuthorization(t: Tables, tranId: string, approved: bool, metadata: Option<Payload>)
    ensures var u := ApplyCallback(t, tranId, approved, metadata);
      && u.bookings.Keys == t.bookings.Keys
      && (forall id :: id in t.bookings && t.bookings[id].paymentAuthorized ==> u.bookings[id].paymentAuthorized)
      && (forall id :: id in t.bookings ==> u.bookings[id].(paymentAuthorized := t.bookings[id].paymentAuthorized) == t.bookings[id])
      && (!approved ==> u.bookings == t.bookings)
  {
    match Single(WithTranId(t.transactions, tranId))
    case None =>
    case Some(row) =>
      var u := ApplyCallback(t, tranId, approved, metadata);
      if approved && row.bookingId in t.bookings {
        assert u.bookings == t.bookings[row.bookingId := t.bookings[row.bookingId].(paymentAuthorized := true)];
      } else {
        assert u.bookings == t.bookings;
      }
  }

  /** An unknown (or ambiguous) gateway id changes nothing; a valid callback carrying it still succeeds. */
  lemma UnknownTranIdWritesNothing(t: Tables, h: Hasher, env: PaywayEnv, payload: Payload)
    requires VerifyCallbackHash(h, env, payload)
    requires |WithTranId(t.transactions, PayloadTranId(payload))| != 1
    ensures CallbackSpec(t, h, env, payload) == Step(t, Ok(CallbackAccepted))
  {
  }

  /**
   * Refund: 404 for a missing row, 400 unless it is completed, and the row
   * turns refunded exactly when the gateway reports success; no other row changes.
   */
  lemma RefundGuards(t: Tables, id: string, refund: CallOutcome, now: int)
    ensures var s := RefundSpec(t, id, refund, now);
      && (Single(WithId(t.transactions, id)).None? ==> s == Step(t, Ok(RefundNotFound)))
      && (Single(WithId(t.transactions, id)).Some? && Single(WithId(t.transactions, id)).value.status != TxCompleted ==>
            s == Step(t, Ok(NotRefundable)))
      && (s.tables != t ==> refund == Returns(true) && Single(WithId(t.transactions, id)).value.status == TxCompleted)
    ensures var s := RefundSpec(t, id, refund, now);
      refund == Returns(true) && Single(WithId(t.transactions, id)).Some? && Single(WithId(t.transactions, id)).value.status == TxCompleted ==>
        && s.result == Ok(RefundData(true))
        && |s.tables.transactions| == |t.transactions|
        && forall i :: 0 <= i < |t.transactions| ==>
             s.tables.transactions[i] == if t.transactions[i].id == id
                                         then t.transactions[i].(status := TxRefunded, processedAt := Some(now))
                                         else t.transactions[i]
  {
  }

  /** The status query answers 404 for a row without a gateway id, before asking the gateway. */
  lemma StatusNeedsGatewayId(t: Tables, id: string, c1: CheckOutcome, c2: CheckOutcome)
    requires Single(WithId(t.transactions, id)).Some?
    requires !Truthy(Single(WithId(t.transactions, id)).value.paywayTranId)
    ensures TransactionStatus(t, id, c1) == TransactionStatus(t, id, c2) == Ok(StatusNotFound)
    ensures StatusReplyCode(TransactionStatus(t, id, c1).value) == 404
  {
  }
}
