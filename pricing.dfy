/**
 * The pricing engine (src/lib/pricing.ts): from a rental interval and a
 * listing's rate card to an integer breakdown in minor currency units.
 *
 * The service-fee rate is a whole-number percentage (the booking service
 * always passes 12); every `Math.round(x * rate)` is RoundPercent.
 */
module Pricing {
  import opened Errors
  import opened JsMath

  datatype DeliveryMethod = Pickup | Delivery
  datatype ProtectionPlan = NoProtection | Basic | Premium

  datatype PricingInput = PricingInput(
    startTime: int,               // milliseconds since the epoch
    endTime: int,
    priceHourly: Option<int>,
    priceDaily: int,
    priceWeekly: Option<int>,
    depositAmount: int,
    deliveryMethod: DeliveryMethod,
    deliveryFee: int,
    protectionPlan: ProtectionPlan,
    serviceFeePercent: int)

  datatype PricingResult = PricingResult(
    subtotal: int,
    serviceFee: int,
    deliveryFee: int,
    protectionFee: int,
    depositAmount: int,
    totalRenterPays: int,
    ownerPayout: int,
    rentalDays: int,
    rentalHours: int)

  const MsPerHour: int := 1000 * 60 * 60
  const HourlyThreshold: int := 8
  const BasicPercent: int := 5
  const PremiumPercent: int := 10
  const CommissionPercent: int := 6

  /** JavaScript truthiness of a nullable price: set and non-zero. */
  predicate IsSet(price: Option<int>) { price.Some? && price.value != 0 }

  function RentalHours(input: PricingInput): int { CeilDiv(input.endTime - input.startTime, MsPerHour) }

  function RentalDays(hours: int): int { CeilDiv(hours, 24) }

  /** Which rate card entry decides the subtotal, in the source's priority order. */
  datatype Rate = HourlyRate | WeeklyOrDaily | DailyRate

  function RateFor(input: PricingInput): Rate
  {
    var hours := RentalHours(input);
    if hours < HourlyThreshold && IsSet(input.priceHourly) then HourlyRate
    else if IsSet(input.priceWeekly) && RentalDays(hours) >= 5 then WeeklyOrDaily
    else DailyRate
  }

  function Min(a: int, b: int): int { if a <= b then a else b }

  function Subtotal(input: PricingInput): int
  {
    var hours := RentalHours(input);
    var days := RentalDays(hours);
    var weeks := FloorDiv(days, 7);
    var remainingDays := JsRem(days, 7);
    match RateFor(input)
    case HourlyRate => input.priceHourly.value * hours
    case WeeklyOrDaily =>
      var weeklyTotal := weeks * input.priceWeekly.value + remainingDays * input.priceDaily;
      var dailyTotal := days * input.priceDaily;
      var fullWeekTotal := input.priceWeekly.value;
      var comparisonTotal := if days >= 7 then weeklyTotal else fullWeekTotal;
      Min(comparisonTotal, dailyTotal)
    case DailyRate => input.priceDaily * days
  }

  function ProtectionFee(plan: ProtectionPlan, subtotal: int): int
  {
    match plan
    case Basic => RoundPercent(subtotal, BasicPercent)
    case Premium => RoundPercent(subtotal, PremiumPercent)
    case NoProtection => 0
  }

  function CalculatePricing(input: PricingInput): PricingResult
  {
    var hours := RentalHours(input);
    var days := RentalDays(hours);
    var subtotal := Subtotal(input);
    var serviceFee := RoundPercent(subtotal, input.serviceFeePercent);
    var deliveryFee := if input.deliveryMethod == Delivery then input.deliveryFee else 0;
    var protectionFee := ProtectionFee(input.protectionPlan, subtotal);
    var total := subtotal + serviceFee + deliveryFee + protectionFee;
    var ownerPayout := subtotal - RoundPercent(subtotal, CommissionPercent);
    PricingResult(subtotal, serviceFee, deliveryFee, protectionFee, input.depositAmount,
                  total + input.depositAmount, ownerPayout, days, hours)
  }

  // ---------------------------------------------------------------------------
  // Properties

  /** Hours round the interval up to whole hours, days round hours up to whole days. */
  lemma DurationRounding(input: PricingInput)
    ensures var r := CalculatePricing(input);
      && (r.rentalHours - 1) * MsPerHour < input.endTime - input.startTime <= r.rentalHours * MsPerHour
      && (r.rentalDays - 1) * 24 < r.rentalHours <= r.rentalDays * 24
  {
  }

  /** Weeks and leftover days split the day count: days == 7 * weeks + remaining. */
  lemma WeeksSplitDays(days: int)
    requires days >= 0
    ensures days == 7 * FloorDiv(days, 7) + JsRem(days, 7) && 0 <= JsRem(days, 7) < 7
  {
  }

  /** The hourly rate decides exactly when the rental is under 8 hours and an hourly price is set. */
  lemma HourlyRateChosen(input: PricingInput)
    ensures RateFor(input) == HourlyRate <==> RentalHours(input) < 8 && IsSet(input.priceHourly)
    ensures RateFor(input) == HourlyRate ==>
      CalculatePricing(input).subtotal == input.priceHourly.value * CalculatePricing(input).rentalHours
  {
  }

  /**
   * With a weekly price and at least five days, the subtotal is the cheaper of
   * the weekly offer and the plain daily total, so it never exceeds days * daily.
   */
  lemma WeeklyNeverExceedsDaily(input: PricingInput)
    requires RateFor(input) == WeeklyOrDaily
    ensures var r := CalculatePricing(input);
      var days := r.rentalDays;
      && days >= 5
      && r.subtotal <= days * input.priceDaily
      && (days >= 7 ==> r.subtotal == Min(FloorDiv(days, 7) * input.priceWeekly.value + JsRem(days, 7) * input.priceDaily,
                                         days * input.priceDaily))
      && (days < 7 ==> r.subtotal == Min(input.priceWeekly.value, days * input.priceDaily))
  {
  }

  /** Without an applicable hourly or weekly price the daily price is charged per day. */
  lemma DailyRateFallback(input: PricingInput)
    requires !(RentalHours(input) < 8 && IsSet(input.priceHourly))
    requires !(IsSet(input.priceWeekly) && RentalDays(RentalHours(input)) >= 5)
    ensures CalculatePricing(input).subtotal == input.priceDaily * CalculatePricing(input).rentalDays
  {
  }

  /** Fees: delivery only when delivered, protection 5% / 10% / 0 of the subtotal by plan. */
  lemma FeeRules(input: PricingInput)
    ensures var r := CalculatePricing(input);
      && r.deliveryFee == (if input.deliveryMethod == Delivery then input.deliveryFee else 0)
      && r.serviceFee == RoundPercent(r.subtotal, input.serviceFeePercent)
      && (input.protectionPlan == Basic ==> r.protectionFee == RoundPercent(r.subtotal, 5))
      && (input.protectionPlan == Premium ==> r.protectionFee == RoundPercent(r.subtotal, 10))
      && (input.protectionPlan == NoProtection ==> r.protectionFee == 0)
  {
  }

  /** The renter-facing total is exactly the sum of its parts, deposit included. */
  lemma TotalIsSumOfParts(input: PricingInput)
    ensures var r := CalculatePricing(input);
      r.totalRenterPays == r.subtotal + r.serviceFee + r.deliveryFee + r.protectionFee + r.depositAmount
    ensures CalculatePricing(input).depositAmount == input.depositAmount
  {
  }

  /**
   * The owner payout is the subtotal less a rounded 6% commission; it depends on
   * the interval and the rate card only, never on fees, protection or deposit.
   */
  lemma PayoutIgnoresRenterCharges(a: PricingInput, b: PricingInput)
    requires a.startTime == b.startTime && a.endTime == b.endTime
    requires a.priceHourly == b.priceHourly && a.priceDaily == b.priceDaily && a.priceWeekly == b.priceWeekly
    ensures CalculatePricing(a).ownerPayout == CalculatePricing(b).ownerPayout
    ensures CalculatePricing(a).ownerPayout == CalculatePricing(a).subtotal - RoundPercent(CalculatePricing(a).subtotal, 6)
  {
  }

  /** For a non-negative subtotal the payout lies between 0 and the subtotal. */
  lemma PayoutWithinSubtotal(input: PricingInput)
    requires CalculatePricing(input).subtotal >= 0
    ensures 0 <= CalculatePricing(input).ownerPayout <= CalculatePricing(input).subtotal
  {
    RoundPercentBounds(CalculatePricing(input).subtotal, 6);
  }

  /** One day at 1000 per day with a 12% fee: 1000 + 120 = 1120 charged, 940 paid out. */
  lemma OneDayExample()
    ensures var r := CalculatePricing(PricingInput(0, 24 * MsPerHour, None, 1000, None, 0, Pickup, 0, NoProtection, 12));
      r.subtotal == 1000 && r.serviceFee == 120 && r.totalRenterPays == 1120 && r.ownerPayout == 940 && r.rentalDays == 1
  {
  }

  /** Five hours at 200 per hour is 1000, ignoring the daily price. */
  lemma FiveHourExample()
    ensures var r := CalculatePricing(PricingInput(0, 5 * MsPerHour, Some(200), 1000, None, 0, Pickup, 0, NoProtection, 12));
      r.subtotal == 1000 && r.rentalHours == 5
  {
    var input := PricingInput(0, 5 * MsPerHour, Some(200), 1000, None, 0, Pickup, 0, NoProtection, 12);
    assert RentalHours(input) == 5;
  }

  /** Ten hours with an hourly price still uses the daily price: 8 hours or more. */
  lemma TenHourExample()
    ensures var r := CalculatePricing(PricingInput(0, 10 * MsPerHour, Some(200), 1000, None, 0, Pickup, 0, NoProtection, 12));
      r.subtotal == 1000 && r.rentalDays == 1
  {
    var input := PricingInput(0, 10 * MsPerHour, Some(200), 1000, None, 0, Pickup, 0, NoProtection, 12);
    assert RentalHours(input) == 10;
    assert RentalDays(10) == 1;
  }

  /** Seven days with weekly 6000 costs 6000; ten days costs 6000 + 3 * 1000. */
  lemma WeeklyExamples()
    ensures CalculatePricing(PricingInput(0, 7 * 24 * MsPerHour, None, 1000, Some(6000), 0, Pickup, 0, NoProtection, 12)).subtotal == 6000
    ensures CalculatePricing(PricingInput(0, 10 * 24 * MsPerHour, None, 1000, Some(6000), 0, Pickup, 0, NoProtection, 12)).subtotal == 9000
  {
  }
}
