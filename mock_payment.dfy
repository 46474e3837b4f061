/**
 * The mock payment adapter (src/services/mock-payment.service.ts): the same
 * five operations as the real adapter, each returning a fixed record. The
 * clock (`Date.now()`) and the random text (`Math.random().toString(36)`)
 * behind the mock transaction id are inputs.
 */
module MockPayment {
  import opened Errors
  import opened Text
  import opened Rows
  import opened Payment
  import opened Bookings

  /** The pricing figures the mock accepts and ignores. */
  datatype MockPricing = MockPricing(totalRenterPays: int, ownerPayout: int)

  datatype MockCaptureReply = MockCaptureReply(success: bool, grandTotal: int, transactionStatus: string)
  datatype MockCancelReply = MockCancelReply(success: bool, transactionStatus: string)
  datatype MockRefundReply = MockRefundReply(success: bool, totalRefunded: int, transactionStatus: string)

  /** `Math.random().toString(36).slice(2, 8)`: up to six characters after the leading "0.". */
  function RandomSuffix(random36: string): (r: string)
    ensures |r| <= 6
    ensures |random36| >= 8 ==> r == random36[2..8]
  {
    Take(if |random36| >= 2 then random36[2..] else "", 6)
  }

  /** `MOCK` + the clock in decimal + the random suffix in upper case. */
  function MockTranId(nowMs: nat, random36: string): string
  {
    "MOCK" + NatToString(nowMs) + UpperAscii(RandomSuffix(random36))
  }

  function MockCreatePreAuth(env: PaywayEnv, booking: PaywayBooking, pricing: MockPricing, nowMs: nat, random36: string): PreAuthOutcome
  {
    var id := MockTranId(nowMs, random36);
    PreAuthReturns(id, id, "/mock-payment?tran_id=" + id + "&status=pending")
  }

  function MockCapture(env: PaywayEnv, tranId: string): MockCaptureReply
  {
    MockCaptureReply(true, 0, "captured")
  }

  function MockCancel(env: PaywayEnv, tranId: string): MockCancelReply
  {
    MockCancelReply(true, "cancelled")
  }

  function MockRefund(env: PaywayEnv, tranId: string): MockRefundReply
  {
    MockRefundReply(true, 0, "refunded")
  }

  function MockCheck(env: PaywayEnv, tranId: string): CheckOutcome
  {
    CheckReturns("pending", 0, "USD")
  }

  // ---------------------------------------------------------------------------
  // Properties

  /**
   * The mock id starts with "MOCK", is followed by the clock's decimal digits
   * (which read back as the clock) and at most six upper-case characters; the
   * transaction id and the gateway id are the same, and the checkout URL
   * carries it with status pending.
   */
  lemma MockPreAuthShape(env: PaywayEnv, booking: PaywayBooking, pricing: MockPricing, nowMs: nat, random36: string)
    ensures var r := MockCreatePreAuth(env, booking, pricing, nowMs, random36);
      var digits := NatToString(nowMs);
      && r.PreAuthReturns?
      && r.transactionId == r.paywayTranId
      && r.checkoutUrl == "/mock-payment?tran_id=" + r.transactionId + "&status=pending"
      && r.transactionId[..4] == "MOCK"
      && r.transactionId[4..4 + |digits|] == digits
      && DecimalValue(r.transactionId[4..4 + |digits|]) == nowMs
      && |r.transactionId| <= 4 + |digits| + 6
      && forall i :: 4 + |digits| <= i < |r.transactionId| ==> !('a' <= r.transactionId[i] <= 'z')
  {
    var digits := NatToString(nowMs);
    var suffix := UpperAscii(RandomSuffix(random36));
    var id := "MOCK" + digits + suffix;
    assert id[4..4 + |digits|] == digits;
    assert forall i :: 4 + |digits| <= i < |id| ==> id[i] == suffix[i - 4 - |digits|];
    NatToStringRoundTrip(nowMs);
  }

  /** No mock operation fails, and none depends on the environment, the booking or the pricing. */
  lemma MockNeverFails(e1: PaywayEnv, e2: PaywayEnv, b1: PaywayBooking, b2: PaywayBooking, p1: MockPricing, p2: MockPricing,
                       id1: string, id2: string, nowMs: nat, random36: string)
    ensures MockCreatePreAuth(e1, b1, p1, nowMs, random36) == MockCreatePreAuth(e2, b2, p2, nowMs, random36)
    ensures MockCreatePreAuth(e1, b1, p1, nowMs, random36).PreAuthReturns?
    ensures MockCapture(e1, id1) == MockCapture(e2, id2) == MockCaptureReply(true, 0, "captured")
    ensures MockCancel(e1, id1) == MockCancel(e2, id2) == MockCancelReply(true, "cancelled")
    ensures MockRefund(e1, id1) == MockRefund(e2, id2) == MockRefundReply(true, 0, "refunded")
    ensures MockCheck(e1, id1) == MockCheck(e2, id2) == CheckReturns("pending", 0, "USD")
  {
  }

  /**
   * Plugged into the booking service, the mock's cancel and refund report
   * success, so every cancellation whose first ledger row has a gateway id
   * settles that id's rows.
   */
  lemma MockCancellationSettles(t: Tables, bookingId: string, userId: string, reason: Option<string>,
                                env: PaywayEnv, tranId: string, now: int)
    requires bookingId in t.bookings
    requires CancelSpec(t, bookingId, userId, reason, Returns(MockCancel(env, tranId).success),
                        Returns(MockRefund(env, tranId).success), now, None).result.Ok?
    requires FirstLedgerRow(t.transactions, bookingId).Some?
    requires Truthy(FirstLedgerRow(t.transactions, bookingId).value.paywayTranId)
    ensures var s := CancelSpec(t, bookingId, userId, reason, Returns(MockCancel(env, tranId).success),
                                Returns(MockRefund(env, tranId).success), now, None);
      var gatewayId := FirstLedgerRow(t.transactions, bookingId).value.paywayTranId;
      forall i :: 0 <= i < |t.transactions| && t.transactions[i].paywayTranId == gatewayId ==>
        s.tables.transactions[i].status == CancelledTxStatus(t.bookings[bookingId].status)
        && s.tables.transactions[i].processedAt == Some(now)
  {
  }
}
