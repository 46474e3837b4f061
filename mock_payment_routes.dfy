/**
 * The mock payment routes (src/routes/mock-payment.routes.ts): a checkout
 * that returns the mock pre-auth, an action endpoint dispatching to the mock
 * adapter, a status query, and a simulated callback that reconciles the
 * ledger like the real one but without a signature and without metadata.
 */
module MockPaymentRoutes {
  import opened Errors
  import opened Rows
  import opened Payment
  import opened PaymentRoutes
  import opened MockPayment

  // ---------------------------------------------------------------------------
  // POST /checkout

  datatype CheckoutInput = CheckoutInput(bookingId: string, amount: int, currency: Option<string>, listingTitle: string)
  datatype CheckoutReply = CheckoutReply(checkoutUrl: string, transactionId: string)

  /** The fixed booking details the checkout passes to the mock. */
  function CheckoutBooking(input: CheckoutInput): PaywayBooking
  {
    PaywayBooking(input.bookingId, input.listingTitle, "Test", "User", "test@example.com", "+85512345678", "", "")
  }

  function Checkout(env: PaywayEnv, input: CheckoutInput, nowMs: nat, random36: string): (r: CheckoutReply)
    ensures r.transactionId == MockTranId(nowMs, random36)
    ensures r.checkoutUrl == "/mock-payment?tran_id=" + r.transactionId + "&status=pending"
  {
    // the owner payout (amount * 0.88) is ignored by the mock and not modelled
    var result := MockCreatePreAuth(env, CheckoutBooking(input), MockPricing(input.amount, 0), nowMs, random36);
    CheckoutReply(result.checkoutUrl, result.transactionId)
  }

  // ---------------------------------------------------------------------------
  // POST /action

  datatype MockAction = CaptureAction | CancelAction | RefundAction

  function ActionName(a: MockAction): string
  {
    match a
    case CaptureAction => "capture"
    case CancelAction => "cancel"
    case RefundAction => "refund"
  }

  /** The request schema's enum: exactly the three action names. */
  function ParseAction(s: string): (r: Option<MockAction>)
    ensures r.Some? ==> ActionName(r.value) == s
  {
    if s == "capture" then Some(CaptureAction)
    else if s == "cancel" then Some(CancelAction)
    else if s == "refund" then Some(RefundAction)
    else None
  }

  /** `statusMap[action] || "unknown"`. */
  function StatusMap(action: string): string
  {
    if action == "capture" then "captured"
    else if action == "cancel" then "cancelled"
    else if action == "refund" then "refunded"
    else "unknown"
  }

  /** Which mock operation an action ran, with what it returned. */
  datatype MockCall = Captured(capture: MockCaptureReply) | Voided(cancel: MockCancelReply) | Refunded(refund: MockRefundReply)

  datatype ActionReply = ActionReply(success: bool, transactionId: string, action: string, status: string)

  function Dispatch(env: PaywayEnv, tranId: string, a: MockAction): MockCall
  {
    match a
    case CaptureAction => Captured(MockCapture(env, tranId))
    case CancelAction => Voided(MockCancel(env, tranId))
    case RefundAction => Refunded(MockRefund(env, tranId))
  }

  function Action(env: PaywayEnv, tranId: string, a: MockAction): (MockCall, ActionReply)
  {
    (Dispatch(env, tranId, a), ActionReply(true, tranId, ActionName(a), StatusMap(ActionName(a))))
  }

  // ---------------------------------------------------------------------------
  // GET /status/:transaction_id

  datatype MockStatusReply = MockStatusReply(transactionId: string, status: string, amount: int, currency: string)

  function MockStatus(env: PaywayEnv, tranId: string): (r: MockStatusReply)
    ensures r.transactionId == tranId
  {
    var c := MockCheck(env, tranId);
    MockStatusReply(tranId, c.paymentStatus, c.amount, c.currency)
  }

  // ---------------------------------------------------------------------------
  // POST /simulate-callback

  datatype SimulatedStatus = SimApproved | SimDeclined | SimPending | SimCancelled

  function SimulatedStatusName(s: SimulatedStatus): string
  {
    match s
    case SimApproved => "APPROVED"
    case SimDeclined => "DECLINED"
    case SimPending => "PENDING"
    case SimCancelled => "CANCELLED"
  }

  datatype SimulateReply = SimulateReply(success: bool, transactionId: string, status: string)

  function SimulateCallbackSpec(t: Tables, tranId: string, status: SimulatedStatus): Step<SimulateReply>
  {
    Step(ApplyCallback(t, tranId, status == SimApproved, None),
         Ok(SimulateReply(true, tranId, SimulatedStatusName(status))))
  }

  method SimulateCallback(db: Database, tranId: string, status: SimulatedStatus) returns (r: Result<SimulateReply>)
    modifies db
    ensures (db.Snapshot(), r) == (SimulateCallbackSpec(old(db.Snapshot()), tranId, status).tables,
                                   SimulateCallbackSpec(old(db.Snapshot()), tranId, status).result)
  {
    Reconcile(db, tranId, status == SimApproved, None);
    return Ok(SimulateReply(true, tranId, SimulatedStatusName(status)));
  }

  // ---------------------------------------------------------------------------
  // Properties

  /** Each action name parses back to its action, and nothing else parses. */
  lemma ActionNamesRoundTrip(a: MockAction, s: string)
    ensures ParseAction(ActionName(a)) == Some(a)
    ensures ParseAction(s).None? <==> s != "capture" && s != "cancel" && s != "refund"
  {
  }

  /**
   * The status map sends capture to captured, cancel to cancelled and refund
   * to refunded, so a parsed action never reports "unknown"; and each action
   * runs exactly its own mock operation.
   */
  lemma ActionRunsItsOperation(env: PaywayEnv, tranId: string, a: MockAction)
    ensures var (call, reply) := Action(env, tranId, a);
      && reply.success && reply.transactionId == tranId && reply.action == ActionName(a)
      && reply.status != "unknown"
      && (a == CaptureAction <==> call.Captured?) && (a == CancelAction <==> call.Voided?) && (a == RefundAction <==> call.Refunded?)
      && (call.Captured? ==> reply.status == "captured" == call.capture.transactionStatus)
      && (call.Voided? ==> reply.status == "cancelled" == call.cancel.transactionStatus)
      && (call.Refunded? ==> reply.status == "refunded" == call.refund.transactionStatus)
  {
  }

  /** Any other key maps to "unknown". */
  lemma StatusMapOtherwiseUnknown(action: string)
    ensures StatusMap(action) == "unknown" <==> ParseAction(action).None?
  {
  }

  /** The status query always reports pending, 0 and USD for the id asked about. */
  lemma MockStatusFixed(env: PaywayEnv, tranId: string)
    ensures MockStatus(env, tranId) == MockStatusReply(tranId, "pending", 0, "USD")
  {
  }

  /**
   * The simulated callback reconciles exactly as the signed callback does,
   * except that it keeps the ledger's metadata: with one row carrying the id,
   * those rows become authorized on APPROVED and failed otherwise, and only
   * APPROVED flags the booking.
   */
  lemma SimulatedCallbackReconciles(t: Tables, tranId: string, status: SimulatedStatus)
    requires |WithTranId(t.transactions, tranId)| == 1
    ensures var u := SimulateCallbackSpec(t, tranId, status).tables;
      var row := WithTranId(t.transactions, tranId)[0];
      && |u.transactions| == |t.transactions|
      && (forall i :: 0 <= i < |t.transactions| && t.transactions[i].paywayTranId == Some(tranId) ==>
            u.transactions[i] == t.transactions[i].(status := if status == SimApproved then TxAuthorized else TxFailed))
      && (forall i :: 0 <= i < |t.transactions| && t.transactions[i].paywayTranId != Some(tranId) ==>
            u.transactions[i] == t.transactions[i])
      && (status == SimApproved && row.bookingId in t.bookings ==>
            u.bookings == t.bookings[row.bookingId := t.bookings[row.bookingId].(paymentAuthorized := true)])
      && (status != SimApproved ==> u.bookings == t.bookings)
  {
  }

  /** An unknown transaction id writes nothing and still reports success. */
  lemma SimulatedUnknownIdWritesNothing(t: Tables, tranId: string, status: SimulatedStatus)
    requires |WithTranId(t.transactions, tranId)| != 1
    ensures SimulateCallbackSpec(t, tranId, status) == Step(t, Ok(SimulateReply(true, tranId, SimulatedStatusName(status))))
  {
  }

  /** The signed callback, once accepted, and the simulated one differ only in the metadata they store. */
  lemma SimulatedMatchesSigned(t: Tables, h: Hasher, env: PaywayEnv, payload: Payload, status: SimulatedStatus)
    requires VerifyCallbackHash(h, env, payload)
    requires PayloadApproved(payload) <==> status == SimApproved
    ensures var signed := CallbackSpec(t, h, env, payload).tables;
      var simulated := SimulateCallbackSpec(t, PayloadTranId(payload), status).tables;
      && signed.bookings == simulated.bookings
      && |signed.transactions| == |simulated.transactions|
      && forall i :: 0 <= i < |signed.transactions| ==>
           signed.transactions[i].(metadata := None) == simulated.transactions[i].(metadata := None)
  {
    var tranId := PayloadTranId(payload);
    var approved := status == SimApproved;
    assert CallbackSpec(t, h, env, payload).tables == ApplyCallback(t, tranId, approved, Some(payload));
    match Single(WithTranId(t.transactions, tranId))
    case None =>
    case Some(row) =>
      var txStatus := if approved then TxAuthorized else TxFailed;
      var signed := RecordCallback(t.transactions, tranId, txStatus, Some(payload));
      var simulated := RecordCallback(t.transactions, tranId, txStatus, None);
      forall i | 0 <= i < |signed|
        ensures signed[i].(metadata := None) == simulated[i].(metadata := None)
      {
      }
  }
}
