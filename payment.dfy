/**
 * The payment-gateway adapter (src/services/payment.service.ts): the strings
 * it derives (transaction id, request time, hash inputs), the requests it
 * builds, how it reads the gateway's replies, and the callback signature
 * check.
 *
 * SHA-512 followed by base64 is one uninterpreted function `h`, passed in;
 * the HTTP exchange is a reply value; the clock is an ISO timestamp string.
 */
module Payment {
  import opened Errors
  import opened Text
  import opened Rows

  /** SHA-512 of the UTF-8 input, base64-encoded. */
  type Hasher = string -> string

  datatype PaywayEnv = PaywayEnv(
    merchantId: string,
    merchantAuth: string,
    apiKey: string,
    baseUrl: string,
    appUrl: string,
    callbackUrl: string)

  /** The key is appended to the data before hashing. */
  function GenerateHash(h: Hasher, apiKey: string, data: string): string
  {
    h(data + apiKey)
  }

  // ---------------------------------------------------------------------------
  // Request time and transaction id

  const ReqTimeSeparators: set<char> := {'-', ':', 'T', '.', 'Z'}

  /** The ISO timestamp with `-`, `:`, `T`, `.` and `Z` deleted, cut to 14 characters. */
  function FormatReqTime(iso: string): (r: string)
    ensures |r| <= 14
    ensures forall i :: 0 <= i < |r| ==> r[i] !in ReqTimeSeparators
  {
    Take(RemoveAll(iso, ReqTimeSeparators), 14)
  }

  /** "RNT" and the first 12 characters of the booking id once its dashes are gone. */
  function TranId(bookingId: string): (r: string)
    ensures 3 <= |r| <= 15 && r[..3] == "RNT"
    ensures forall i :: 3 <= i < |r| ==> r[i] != '-'
  {
    "RNT" + Take(RemoveAll(bookingId, {'-'}), 12)
  }

  predicate NoDash(s: string) { forall i :: 0 <= i < |s| ==> s[i] != '-' }

  predicate DigitBlock(s: string, n: nat) { |s| == n && AllDigits(s) }

  lemma SeparatorsVanish(c: char, cs: set<char>)
    requires c in cs
    ensures RemoveAll([c], cs) == []
  {
  }

  lemma DigitsStay(s: string)
    requires AllDigits(s)
    ensures RemoveAll(s, ReqTimeSeparators) == s
  {
    RemoveAllKeeps(s, ReqTimeSeparators);
  }

  lemma StripSeparated(p: string, c: char, x: string)
    requires c in ReqTimeSeparators
    ensures RemoveAll(p + [c] + x, ReqTimeSeparators) == RemoveAll(p, ReqTimeSeparators) + RemoveAll(x, ReqTimeSeparators)
  {
    SeparatorsVanish(c, ReqTimeSeparators);
    RemoveAllConcat(p, [c], ReqTimeSeparators);
    RemoveAllConcat(p + [c], x, ReqTimeSeparators);
  }

  /** Deleting the separators from `YYYY-MM-DDTHH:mm:ss.sssZ` cleans each field and joins them. */
  lemma StripIsoSeparators(y: string, mo: string, d: string, hh: string, mi: string, ss: string, ms: string)
    ensures RemoveAll(y + "-" + mo + "-" + d + "T" + hh + ":" + mi + ":" + ss + "." + ms + "Z", ReqTimeSeparators)
         == RemoveAll(y, ReqTimeSeparators) + RemoveAll(mo, ReqTimeSeparators) + RemoveAll(d, ReqTimeSeparators)
            + RemoveAll(hh, ReqTimeSeparators) + RemoveAll(mi, ReqTimeSeparators) + RemoveAll(ss, ReqTimeSeparators)
            + RemoveAll(ms, ReqTimeSeparators)
  {
    StripSeparated(y, '-', mo);
    StripSeparated(y + "-" + mo, '-', d);
    StripSeparated(y + "-" + mo + "-" + d, 'T', hh);
    StripSeparated(y + "-" + mo + "-" + d + "T" + hh, ':', mi);
    StripSeparated(y + "-" + mo + "-" + d + "T" + hh + ":" + mi, ':', ss);
    StripSeparated(y + "-" + mo + "-" + d + "T" + hh + ":" + mi + ":" + ss, '.', ms);
    SeparatorsVanish('Z', ReqTimeSeparators);
    RemoveAllConcat(y + "-" + mo + "-" + d + "T" + hh + ":" + mi + ":" + ss + "." + ms, "Z", ReqTimeSeparators);
  }

  /** For `YYYY-MM-DDTHH:mm:ss.sssZ` the request time is `YYYYMMDDHHmmss`. */
  lemma ReqTimeOfIsoTimestamp(y: string, mo: string, d: string, hh: string, mi: string, ss: string, ms: string)
    requires DigitBlock(y, 4) && DigitBlock(mo, 2) && DigitBlock(d, 2)
    requires DigitBlock(hh, 2) && DigitBlock(mi, 2) && DigitBlock(ss, 2) && DigitBlock(ms, 3)
    ensures FormatReqTime(y + "-" + mo + "-" + d + "T" + hh + ":" + mi + ":" + ss + "." + ms + "Z")
         == y + mo + d + hh + mi + ss
  {
    StripIsoSeparators(y, mo, d, hh, mi, ss, ms);
    DigitsStay(y); DigitsStay(mo); DigitsStay(d); DigitsStay(hh); DigitsStay(mi); DigitsStay(ss); DigitsStay(ms);
    var digits := y + mo + d + hh + mi + ss;
    assert (digits + ms)[..14] == digits;
  }

  /** Removing dashes from `p-x` keeps x whole when x has none. */
  lemma StripOneDash(p: string, x: string)
    requires NoDash(x)
    ensures RemoveAll(p + "-" + x, {'-'}) == RemoveAll(p, {'-'}) + x
  {
    var cs: set<char> := {'-'};
    RemoveAllKeeps(x, cs);
    SeparatorsVanish('-', cs);
    RemoveAllConcat(p, "-", cs);
    RemoveAllConcat(p + "-", x, cs);
  }

  lemma StripDashes(a: string, b: string, c: string, d: string, e: string)
    requires NoDash(a) && NoDash(b) && NoDash(c) && NoDash(d) && NoDash(e)
    ensures RemoveAll(a + "-" + b + "-" + c + "-" + d + "-" + e, {'-'}) == a + b + c + d + e
  {
    RemoveAllKeeps(a, {'-'});
    StripOneDash(a, b);
    StripOneDash(a + "-" + b, c);
    StripOneDash(a + "-" + b + "-" + c, d);
    StripOneDash(a + "-" + b + "-" + c + "-" + d, e);
  }

  /** For a UUID `a-b-c-d-e` the transaction id is "RNT" followed by a and b: 12 hex digits. */
  lemma TranIdOfUuid(a: string, b: string, c: string, d: string, e: string)
    requires |a| == 8 && |b| == 4
    requires NoDash(a) && NoDash(b) && NoDash(c) && NoDash(d) && NoDash(e)
    ensures TranId(a + "-" + b + "-" + c + "-" + d + "-" + e) == "RNT" + a + b
  {
    StripDashes(a, b, c, d, e);
    var ab := a + b;
    assert a + b + c + d + e == ab + (c + d + e);
    assert (ab + (c + d + e))[..12] == ab;
  }

  // ---------------------------------------------------------------------------
  // Hash inputs and request bodies

  /** The pre-auth signature input: request time, merchant, tran id, amount, items, "pre-auth". */
  function PreAuthHashInput(reqTime: string, merchantId: string, tranId: string, amount: int, items: string): string
  {
    reqTime + merchantId + tranId + IntToString(amount) + items + "pre-auth"
  }

  /** The signature input of capture, cancel, refund and status checks. */
  function SimpleHashInput(reqTime: string, merchantId: string, tranId: string): string
  {
    reqTime + merchantId + tranId
  }

  datatype PaywayBooking = PaywayBooking(
    id: string,
    listingTitle: string,
    renterFirstName: string,
    renterLastName: string,
    renterEmail: string,
    renterPhone: string,
    ownerId: string,
    ownerBeneficiaryId: string)

  datatype PreAuthRequest = PreAuthRequest(
    reqTime: string,
    merchantId: string,
    tranId: string,
    firstname: string,
    lastname: string,
    email: string,
    phone: string,
    amount: int,
    currency: string,
    kind: string,
    paymentOption: string,
    items: string,
    callbackUrl: string,
    returnUrl: string,
    cancelUrl: string,
    lifetime: int,
    customFields: CustomFields,
    payout: seq<PayoutEntry>,
    hash: string)

  /** `custom_fields`: the booking and its owner, sent as a JSON object. */
  datatype CustomFields = CustomFields(bookingId: string, ownerId: string)

  /** One entry of `payout`: the beneficiary account and the amount in currency units, two decimals. */
  datatype PayoutEntry = PayoutEntry(acc: string, amt: string)

  /**
   * The purchase request. `items` and `callbackUrl` are the base64 encodings
   * of the items JSON and of the callback address, supplied already encoded;
   * `custom_fields` and `payout` are kept as the values JSON.stringify encodes.
   */
  function PreAuthBody(h: Hasher, env: PaywayEnv, booking: PaywayBooking, totalRenterPays: int, ownerPayout: int,
                       isoNow: string, items: string, callbackUrl: string): PreAuthRequest
  {
    var tranId := TranId(booking.id);
    var reqTime := FormatReqTime(isoNow);
    PreAuthRequest(
      reqTime, env.merchantId, tranId,
      booking.renterFirstName, booking.renterLastName, booking.renterEmail, booking.renterPhone,
      totalRenterPays, "USD", "pre-auth", "abapay_khqr", items, callbackUrl,
      env.appUrl + "/bookings/" + booking.id + "/payment-result",
      env.appUrl + "/bookings/" + booking.id,
      30,
      CustomFields(booking.id, booking.ownerId),
      [PayoutEntry(booking.ownerBeneficiaryId, CentsToFixed(ownerPayout))],
      GenerateHash(h, env.apiKey, PreAuthHashInput(reqTime, env.merchantId, tranId, totalRenterPays, items)))
  }

  /** Body of the capture, cancel and refund calls. */
  datatype MerchantRequest = MerchantRequest(requestTime: string, merchantId: string, merchantAuth: string,
                                             tranId: string, hash: string)

  function MerchantBody(h: Hasher, env: PaywayEnv, tranId: string, isoNow: string): MerchantRequest
  {
    var reqTime := FormatReqTime(isoNow);
    MerchantRequest(reqTime, env.merchantId, env.merchantAuth, tranId,
                    GenerateHash(h, env.apiKey, SimpleHashInput(reqTime, env.merchantId, tranId)))
  }

  /** Body of the status check: no merchant_auth, and the time key is req_time. */
  datatype CheckRequest = CheckRequest(reqTime: string, merchantId: string, tranId: string, hash: string)

  function CheckBody(h: Hasher, env: PaywayEnv, tranId: string, isoNow: string): CheckRequest
  {
    var reqTime := FormatReqTime(isoNow);
    CheckRequest(reqTime, env.merchantId, tranId, GenerateHash(h, env.apiKey, SimpleHashInput(reqTime, env.merchantId, tranId)))
  }

  /**
   * The purchase request always asks for a 30-minute USD pre-authorisation of
   * the renter's total, names the booking and its owner, and pays the whole
   * owner payout to the owner's beneficiary account; the payout is not part
   * of the signed string.
   */
  lemma PreAuthBodyFixedFields(h: Hasher, env: PaywayEnv, booking: PaywayBooking, total: int, payout: int,
                               isoNow: string, items: string, callbackUrl: string)
    ensures var b := PreAuthBody(h, env, booking, total, payout, isoNow, items, callbackUrl);
      && b.currency == "USD" && b.kind == "pre-auth" && b.lifetime == 30 && b.amount == total
      && b.tranId == TranId(booking.id) && b.reqTime == FormatReqTime(isoNow)
      && b.hash == h(b.reqTime + env.merchantId + b.tranId + IntToString(total) + items + "pre-auth" + env.apiKey)
      && b.customFields.bookingId == booking.id && b.customFields.ownerId == booking.ownerId
      && |b.payout| == 1 && b.payout[0].acc == booking.ownerBeneficiaryId
    ensures var b := PreAuthBody(h, env, booking, total, payout, isoNow, items, callbackUrl);
      forall other: int :: PreAuthBody(h, env, booking, total, other, isoNow, items, callbackUrl).hash == b.hash
  {
  }

  /** The payout amount, read back as cents, is the owner's payout. */
  lemma PreAuthPayoutAmount(h: Hasher, env: PaywayEnv, booking: PaywayBooking, total: int, payout: nat,
                            isoNow: string, items: string, callbackUrl: string)
    ensures var amt := PreAuthBody(h, env, booking, total, payout, isoNow, items, callbackUrl).payout[0].amt;
      && AllDigits(amt[..|amt| - 3]) && amt[|amt| - 3] == '.' && AllDigits(amt[|amt| - 2..])
      && 100 * DecimalValue(amt[..|amt| - 3]) + DecimalValue(amt[|amt| - 2..]) == payout
  {
    FixedDigitsRoundTrip(payout);
  }

  /** Capture, cancel, refund and check sign the same string for the same moment and transaction. */
  lemma MerchantCallsShareSignature(h: Hasher, env: PaywayEnv, tranId: string, isoNow: string)
    ensures MerchantBody(h, env, tranId, isoNow).hash == CheckBody(h, env, tranId, isoNow).hash
    ensures MerchantBody(h, env, tranId, isoNow).hash == h(FormatReqTime(isoNow) + env.merchantId + tranId + env.apiKey)
  {
  }

  // ---------------------------------------------------------------------------
  // Reading the gateway's replies

  /** What a call into a payment adapter did: threw, or returned with a success flag. */
  datatype CallOutcome = Throws(message: string) | Returns(success: bool)

  datatype PreAuthOutcome =
    | PreAuthThrows(message: string)
    | PreAuthReturns(transactionId: string, paywayTranId: string, checkoutUrl: string)

  datatype CheckOutcome =
    | CheckThrows(message: string)
    | CheckReturns(paymentStatus: string, amount: int, currency: string)

  /**
   * One HTTP reply of the gateway: `response.ok`, its status text, and the
   * JSON fields read. `jsonError` is the error `response.json()` throws when
   * the body is not JSON.
   */
  datatype HttpReply = HttpReply(
    ok: bool,
    statusText: string,
    text: string,                     // the body as text (the checkout page)
    jsonError: Option<string>,
    statusCode: Option<string>,       // data.status?.code
    statusMessage: Option<string>,    // data.status?.message
    paymentStatus: Option<string>,    // data.data?.payment_status
    amount: Option<int>,              // data.data?.amount
    currency: Option<string>)         // data.data?.currency

  function PreAuthResult(reply: HttpReply, bookingId: string): PreAuthOutcome
  {
    if !reply.ok then PreAuthThrows("PayWay pre-auth failed: " + reply.statusText)
    else PreAuthReturns(TranId(bookingId), TranId(bookingId), reply.text)
  }

  function CaptureResult(reply: HttpReply): CallOutcome
  {
    if !reply.ok then Throws("PayWay capture failed: " + reply.statusText)
    else if reply.jsonError.Some? then Throws(reply.jsonError.value)
    else if reply.statusCode != Some("00") then
      Throws("PayWay capture failed: " + (if Truthy(reply.statusMessage) then reply.statusMessage.value else "Unknown error"))
    else Returns(true)
  }

  function CancelResult(reply: HttpReply): CallOutcome
  {
    if !reply.ok then Throws("PayWay cancel failed: " + reply.statusText)
    else if reply.jsonError.Some? then Throws(reply.jsonError.value)
    else Returns(reply.statusCode == Some("00"))
  }

  function RefundResult(reply: HttpReply): CallOutcome
  {
    if !reply.ok then Throws("PayWay refund failed: " + reply.statusText)
    else if reply.jsonError.Some? then Throws(reply.jsonError.value)
    else Returns(reply.statusCode == Some("00"))
  }

  function CheckResult(reply: HttpReply): CheckOutcome
  {
    if !reply.ok then CheckThrows("PayWay check transaction failed: " + reply.statusText)
    else if reply.jsonError.Some? then CheckThrows(reply.jsonError.value)
    else CheckReturns(
      if Truthy(reply.paymentStatus) then reply.paymentStatus.value else "UNKNOWN",
      reply.amount.GetOr(0),
      if Truthy(reply.currency) then reply.currency.value else "USD")
  }

  /** A successful pre-auth reports the derived tran id twice and the reply body as checkout URL. */
  lemma PreAuthReadsReply(reply: HttpReply, bookingId: string)
    ensures PreAuthResult(reply, bookingId).PreAuthThrows? <==> !reply.ok
    ensures reply.ok ==> PreAuthResult(reply, bookingId)
                         == PreAuthReturns(TranId(bookingId), TranId(bookingId), reply.text)
  {
  }

  /** Capture either throws or reports success: it never returns `success = false`. */
  lemma CaptureNeverReportsFailure(reply: HttpReply)
    ensures CaptureResult(reply) != Returns(false)
    ensures CaptureResult(reply) == Returns(true) <==> reply.ok && reply.jsonError.None? && reply.statusCode == Some("00")
  {
  }

  /**
   * Cancel and refund throw only when the HTTP exchange failed or the body is
   * not JSON; a gateway status other than "00" comes back as `success = false`.
   */
  lemma CancelRefundReportFailure(reply: HttpReply)
    ensures CancelResult(reply).Throws? <==> !reply.ok || reply.jsonError.Some?
    ensures RefundResult(reply).Throws? <==> !reply.ok || reply.jsonError.Some?
    ensures CancelResult(reply) == Returns(false) <==> reply.ok && reply.jsonError.None? && reply.statusCode != Some("00")
    ensures RefundResult(reply) == Returns(false) <==> reply.ok && reply.jsonError.None? && reply.statusCode != Some("00")
    ensures !reply.ok ==> CancelResult(reply) == Throws("PayWay cancel failed: " + reply.statusText)
    ensures !reply.ok ==> RefundResult(reply) == Throws("PayWay refund failed: " + reply.statusText)
  {
  }

  /**
   * A status reply that is not ok throws with its status text; a JSON reply's
   * truthy status, amount and currency are returned as given, and missing or
   * empty ones read as "UNKNOWN", 0 and "USD".
   */
  lemma CheckDefaults(reply: HttpReply)
    ensures !reply.ok ==> CheckResult(reply) == CheckThrows("PayWay check transaction failed: " + reply.statusText)
    ensures reply.ok && reply.jsonError.Some? ==> CheckResult(reply) == CheckThrows(reply.jsonError.value)
    ensures var c := CheckResult(reply);
      reply.ok && reply.jsonError.None? ==>
      && c.CheckReturns?
      && (!Truthy(reply.paymentStatus) ==> c.paymentStatus == "UNKNOWN")
      && (Truthy(reply.paymentStatus) ==> c.paymentStatus == reply.paymentStatus.value)
      && (reply.amount.None? ==> c.amount == 0)
      && (reply.amount.Some? ==> c.amount == reply.amount.value)
      && (!Truthy(reply.currency) ==> c.currency == "USD")
      && (Truthy(reply.currency) ==> c.currency == reply.currency.value)
  {
  }

  // ---------------------------------------------------------------------------
  // Callback signature

  /** `payload[key]` for a JSON object, whose keys are distinct. */
  function Lookup(p: Payload, key: string): Option<string>
  {
    if p == [] then None else if p[0].0 == key then Some(p[0].1) else Lookup(p[1..], key)
  }

  predicate DistinctKeys(p: Payload)
  {
    forall i, j :: 0 <= i < j < |p| ==> p[i].0 != p[j].0
  }

  /** `const { hash, ...data } = payload`: every entry but the one keyed "hash". */
  function DropKey(p: Payload, key: string): (r: Payload)
    ensures forall e :: e in r <==> e in p && e.0 != key
  {
    if p == [] then [] else (if p[0].0 == key then [] else [p[0]]) + DropKey(p[1..], key)
  }

  /**
   * The order of `Object.keys(data).sort()`. Keys of an object are distinct, so
   * ordering entries by key and, for equal keys, by value orders them exactly
   * as the keys are sorted.
   */
  predicate EntryLess(a: (string, string), b: (string, string))
  {
    StrLess(a.0, b.0) || (a.0 == b.0 && StrLess(a.1, b.1))
  }

  predicate EntryLessEq(a: (string, string), b: (string, string)) { a == b || EntryLess(a, b) }

  predicate SortedEntries(p: Payload)
  {
    forall i, j :: 0 <= i < j < |p| ==> EntryLessEq(p[i], p[j])
  }

  function InsertEntry(e: (string, string), p: Payload): Payload
  {
    if p == [] then [e]
    else if EntryLessEq(e, p[0]) then [e] + p
    else [p[0]] + InsertEntry(e, p[1..])
  }

  function SortEntries(p: Payload): Payload
  {
    if p == [] then [] else InsertEntry(p[0], SortEntries(p[1..]))
  }

  /** `map((key) => String(data[key])).join("")` */
  function ConcatValues(p: Payload): string
  {
    if p == [] then "" else p[0].1 + ConcatValues(p[1..])
  }

  /** The string the gateway signed: the values of every non-hash entry, in key order. */
  function CallbackDataString(payload: Payload): string
  {
    ConcatValues(SortEntries(DropKey(payload, "hash")))
  }

  /** `verifyCallbackHash`: the payload's "hash" must equal the hash of the sorted values. */
  function VerifyCallbackHash(h: Hasher, env: PaywayEnv, payload: Payload): bool
  {
    Lookup(payload, "hash") == Some(GenerateHash(h, env.apiKey, CallbackDataString(payload)))
  }

  lemma EntryLessIrreflexive(a: (string, string))
    ensures !EntryLess(a, a)
  {
    StrLessIrreflexive(a.0);
    StrLessIrreflexive(a.1);
  }

  lemma EntryLessAsymmetric(a: (string, string), b: (string, string))
    requires EntryLess(a, b)
    ensures !EntryLess(b, a)
  {
    if StrLess(a.0, b.0) {
      StrLessAsymmetric(a.0, b.0);
      StrLessIrreflexive(a.0);
    } else {
      StrLessAsymmetric(a.1, b.1);
      StrLessIrreflexive(a.0);
    }
  }

  lemma EntryLessEqTransitive(a: (string, string), b: (string, string), c: (string, string))
    requires EntryLessEq(a, b) && EntryLessEq(b, c)
    ensures EntryLessEq(a, c)
  {
    if a != b && b != c {
      if StrLess(a.0, b.0) && StrLess(b.0, c.0) {
        StrLessTransitive(a.0, b.0, c.0);
      } else if a.0 == b.0 && b.0 == c.0 {
        StrLessTransitive(a.1, b.1, c.1);
      }
    }
  }

  lemma EntryLessTotal(a: (string, string), b: (string, string))
    ensures EntryLessEq(a, b) || EntryLessEq(b, a)
  {
    if a.0 != b.0 {
      StrLessTotal(a.0, b.0);
    } else if a.1 != b.1 {
      StrLessTotal(a.1, b.1);
    }
  }

  lemma {:induction false} InsertEntryMultiset(e: (string, string), p: Payload)
    ensures multiset(InsertEntry(e, p)) == multiset(p) + multiset{e}
  {
    if p != [] && !EntryLessEq(e, p[0]) {
      InsertEntryMultiset(e, p[1..]);
      assert p == [p[0]] + p[1..];
    }
  }

  lemma HeadBelowRest(p: Payload, x: (string, string))
    requires SortedEntries(p) && p != [] && x in p[1..]
    ensures EntryLessEq(p[0], x)
  {
    var k :| 0 <= k < |p[1..]| && p[1..][k] == x;
    assert p[k + 1] == x;
  }

  lemma PrependSorted(e: (string, string), p: Payload)
    requires SortedEntries(p)
    requires forall x :: x in p ==> EntryLessEq(e, x)
    ensures SortedEntries([e] + p)
  {
    var r := [e] + p;
    forall i, j | 0 <= i < j < |r|
      ensures EntryLessEq(r[i], r[j])
    {
      if i == 0 {
        assert r[j] == p[j - 1];
      } else {
        assert r[i] == p[i - 1] && r[j] == p[j - 1];
      }
    }
  }

  lemma {:induction false} InsertEntrySorted(e: (string, string), p: Payload)
    requires SortedEntries(p)
    ensures SortedEntries(InsertEntry(e, p))
    ensures multiset(InsertEntry(e, p)) == multiset(p) + multiset{e}
  {
    InsertEntryMultiset(e, p);
    if p == [] {
    } else if EntryLessEq(e, p[0]) {
      forall x | x in p
        ensures EntryLessEq(e, x)
      {
        if x != p[0] {
          assert x in p[1..] by { assert p == [p[0]] + p[1..]; }
          HeadBelowRest(p, x);
          EntryLessEqTransitive(e, p[0], x);
        }
      }
      PrependSorted(e, p);
    } else {
      EntryLessTotal(e, p[0]);
      assert SortedEntries(p[1..]);
      InsertEntrySorted(e, p[1..]);
      var rest := InsertEntry(e, p[1..]);
      forall x | x in rest
        ensures EntryLessEq(p[0], x)
      {
        assert x in multiset(rest);
        if x != e {
          assert x in multiset(p[1..]);
          HeadBelowRest(p, x);
        }
      }
      PrependSorted(p[0], rest);
    }
  }

  lemma {:induction false} SortEntriesSorted(p: Payload)
    ensures SortedEntries(SortEntries(p))
    ensures multiset(SortEntries(p)) == multiset(p)
  {
    if p != [] {
      SortEntriesSorted(p[1..]);
      InsertEntrySorted(p[0], SortEntries(p[1..]));
      assert p == [p[0]] + p[1..];
    }
  }

  /** The tail of a sorted arrangement is sorted. */
  lemma SortedTail(p: Payload)
    requires SortedEntries(p) && p != []
    ensures SortedEntries(p[1..])
  {
    forall i, j | 0 <= i < j < |p| - 1
      ensures EntryLessEq(p[1..][i], p[1..][j])
    {
      assert p[1..][i] == p[i + 1] && p[1..][j] == p[j + 1];
    }
  }

  /** Taking the same first entry off two arrangements of one multiset leaves arrangements of one multiset. */
  lemma SameTailEntries(a: Payload, b: Payload)
    requires a != [] && b != [] && a[0] == b[0]
    requires multiset(a) == multiset(b)
    ensures multiset(a[1..]) == multiset(b[1..])
  {
    assert a == [a[0]] + a[1..];
    assert b == [b[0]] + b[1..];
    assert multiset(a) == multiset{a[0]} + multiset(a[1..]);
    assert multiset(b) == multiset{a[0]} + multiset(b[1..]);
    forall x
      ensures multiset(a[1..])[x] == multiset(b[1..])[x]
    {
      assert multiset(a)[x] == multiset{a[0]}[x] + multiset(a[1..])[x];
      assert multiset(b)[x] == multiset{a[0]}[x] + multiset(b[1..])[x];
    }
  }

  /** Two sorted arrangements of the same entries start with the same entry. */
  lemma SortedSameHead(a: Payload, b: Payload)
    requires SortedEntries(a) && SortedEntries(b) && a != []
    requires multiset(a) == multiset(b)
    ensures b != [] && a[0] == b[0]
  {
    assert a[0] in multiset(b);
    assert b[0] in multiset(a);
    var i :| 0 <= i < |a| && a[i] == b[0];
    var j :| 0 <= j < |b| && b[j] == a[0];
    assert EntryLessEq(a[0], b[0]) by { if i > 0 { assert EntryLessEq(a[0], a[i]); } }
    assert EntryLessEq(b[0], a[0]) by { if j > 0 { assert EntryLessEq(b[0], b[j]); } }
    if a[0] != b[0] {
      EntryLessAsymmetric(a[0], b[0]);
    }
  }

  /** Two sorted arrangements of the same entries are the same sequence. */
  lemma {:induction false} SortedUnique(a: Payload, b: Payload)
    requires SortedEntries(a) && SortedEntries(b)
    requires multiset(a) == multiset(b)
    ensures a == b
  {
    if a != [] {
      SortedSameHead(a, b);
      SameTailEntries(a, b);
      SortedTail(a);
      SortedTail(b);
      SortedUnique(a[1..], b[1..]);
      assert a == [a[0]] + a[1..];
      assert b == [b[0]] + b[1..];
    }
  }

  lemma {:induction false} DropKeyMultiset(p: Payload, key: string)
    ensures forall e :: multiset(DropKey(p, key))[e] == if e.0 == key then 0 else multiset(p)[e]
  {
    if p != [] {
      DropKeyMultiset(p[1..], key);
      assert p == [p[0]] + p[1..];
    }
  }

  lemma {:induction false} LookupDistinct(p: Payload, key: string, value: string)
    requires DistinctKeys(p)
    ensures Lookup(p, key) == Some(value) <==> (key, value) in p
  {
    if p != [] {
      assert DistinctKeys(p[1..]) by {
        forall i, j | 0 <= i < j < |p[1..]| ensures p[1..][i].0 != p[1..][j].0 {
          assert p[1..][i] == p[i + 1] && p[1..][j] == p[j + 1];
        }
      }
      LookupDistinct(p[1..], key, value);
    }
  }

  /** The signed string depends only on which entries the payload holds, not on their order. */
  lemma DataStringOrderIndependent(p: Payload, q: Payload)
    requires multiset(p) == multiset(q)
    ensures CallbackDataString(p) == CallbackDataString(q)
  {
    DropKeyMultiset(p, "hash");
    DropKeyMultiset(q, "hash");
    var dp, dq := DropKey(p, "hash"), DropKey(q, "hash");
    assert multiset(dp) == multiset(dq);
    SortEntriesSorted(dp);
    SortEntriesSorted(dq);
    SortedUnique(SortEntries(dp), SortEntries(dq));
  }

  lemma LookupOrderIndependent(p: Payload, q: Payload, key: string)
    requires DistinctKeys(p) && DistinctKeys(q)
    requires multiset(p) == multiset(q)
    ensures Lookup(p, key) == Lookup(q, key)
  {
    if Lookup(p, key).Some? {
      LookupDistinct(p, key, Lookup(p, key).value);
      assert (key, Lookup(p, key).value) in multiset(q);
      LookupDistinct(q, key, Lookup(p, key).value);
    } else if Lookup(q, key).Some? {
      LookupDistinct(q, key, Lookup(q, key).value);
      assert (key, Lookup(q, key).value) in multiset(p);
      LookupDistinct(p, key, Lookup(q, key).value);
    }
  }

  /**
   * The check does not depend on the order in which the payload's keys
   * arrive: any two arrangements of the same object verify alike.
   */
  lemma CallbackOrderIndependent(h: Hasher, env: PaywayEnv, p: Payload, q: Payload)
    requires DistinctKeys(p) && DistinctKeys(q)
    requires multiset(p) == multiset(q)
    ensures VerifyCallbackHash(h, env, p) == VerifyCallbackHash(h, env, q)
  {
    DataStringOrderIndependent(p, q);
    LookupOrderIndependent(p, q, "hash");
  }

  /** Signing data with the key and appending the signature as "hash" yields a payload that verifies. */
  lemma SignThenVerify(h: Hasher, env: PaywayEnv, data: Payload)
    requires forall e :: e in data ==> e.0 != "hash"
    ensures var signed := data + [("hash", GenerateHash(h, env.apiKey, ConcatValues(SortEntries(data))))];
      VerifyCallbackHash(h, env, signed)
  {
    var sig := GenerateHash(h, env.apiKey, ConcatValues(SortEntries(data)));
    var signed := data + [("hash", sig)];
    DropKeyAppend(data, ("hash", sig), "hash");
    LookupAppend(data, "hash", sig);
  }

  lemma {:induction false} DropKeyAppend(data: Payload, e: (string, string), key: string)
    requires forall x :: x in data ==> x.0 != key
    requires e.0 == key
    ensures DropKey(data + [e], key) == data
  {
    if data == [] {
      assert data + [e] == [e];
    } else {
      assert (data + [e])[1..] == data[1..] + [e];
      DropKeyAppend(data[1..], e, key);
    }
  }

  lemma {:induction false} LookupAppend(data: Payload, key: string, value: string)
    requires forall x :: x in data ==> x.0 != key
    ensures Lookup(data + [(key, value)], key) == Some(value)
  {
    if data == [] {
      assert data + [(key, value)] == [(key, value)];
    } else {
      assert (data + [(key, value)])[1..] == data[1..] + [(key, value)];
      LookupAppend(data[1..], key, value);
    }
  }

  /** A payload without a "hash" entry never verifies. */
  lemma UnsignedNeverVerifies(h: Hasher, env: PaywayEnv, payload: Payload)
    requires forall e :: e in payload ==> e.0 != "hash"
    ensures !VerifyCallbackHash(h, env, payload)
  {
    LookupAbsent(payload, "hash");
  }

  lemma {:induction false} LookupAbsent(p: Payload, key: string)
    requires forall e :: e in p ==> e.0 != key
    ensures Lookup(p, key).None?
  {
    if p != [] {
      LookupAbsent(p[1..], key);
    }
  }
}
