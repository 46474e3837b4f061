/**
 * The listing request schemas (src/lib/validators.ts): which bodies the
 * create schema accepts, the defaults it fills in, the all-optional update
 * schema and the listing-id schema.
 *
 * A body is taken as already decoded from JSON, one Option per known key
 * (None for an absent key); JSON numbers are reals, so "is an integer" is a
 * real check.
 */
module Validators {
  import opened Errors
  import opened Text
  import opened Rows

  datatype RawListing = RawListing(
    title: Option<string>,
    description: Option<string>,
    categoryId: Option<string>,
    kind: Option<string>,
    priceHourly: Option<real>,
    priceDaily: Option<real>,
    priceWeekly: Option<real>,
    depositAmount: Option<real>,
    currency: Option<string>,
    addressText: Option<string>,
    addressCity: Option<string>,
    addressCountry: Option<string>,
    location: Option<Location>,
    availabilityType: Option<string>,
    minRentalHours: Option<real>,
    maxRentalDays: Option<real>,
    deliveryAvailable: Option<bool>,
    deliveryFee: Option<real>,
    pickupAvailable: Option<bool>)

  /** CreateListingInput: every defaulted field filled in. */
  datatype ListingInput = ListingInput(details: ListingDetails, location: Option<Location>)

  /** UpdateListingInput: any subset of the fields, nothing defaulted. */
  datatype ListingPatch = ListingPatch(
    title: Option<string>,
    description: Option<string>,
    categoryId: Option<string>,
    kind: Option<ListingKind>,
    priceHourly: Option<int>,
    priceDaily: Option<int>,
    priceWeekly: Option<int>,
    depositAmount: Option<int>,
    currency: Option<string>,
    addressText: Option<string>,
    addressCity: Option<string>,
    addressCountry: Option<string>,
    location: Option<Location>,
    availabilityType: Option<Availability>,
    minRentalHours: Option<int>,
    maxRentalDays: Option<int>,
    deliveryAvailable: Option<bool>,
    deliveryFee: Option<int>,
    pickupAvailable: Option<bool>)

  // ---------------------------------------------------------------------------
  // Field constraints

  predicate IsInt(x: real) { x.Floor as real == x }
  predicate PositiveInt(x: real) { IsInt(x) && x > 0.0 }
  predicate NonNegativeInt(x: real) { IsInt(x) && x >= 0.0 }

  predicate TitleOk(s: string) { 5 <= |s| <= 200 }
  predicate DescriptionOk(s: string) { |s| <= 2000 }
  predicate KindOk(s: string) { s == "offer" || s == "request" }
  predicate CurrencyOk(s: string) { |s| == 3 }
  predicate CountryOk(s: string) { |s| == 2 }
  predicate AvailabilityOk(s: string) { s == "flexible" || s == "specific_dates" }
  predicate LatOk(x: real) { -90.0 <= x <= 90.0 }
  predicate LngOk(x: real) { -180.0 <= x <= 180.0 }
  predicate LocationOk(l: Location) { LatOk(l.lat) && LngOk(l.lng) }

  /** Eight, four, four, four and twelve hexadecimal digits joined by dashes. */
  predicate IsUuid(s: string)
  {
    && |s| == 36
    && (forall i :: i in {8, 13, 18, 23} ==> s[i] == '-')
    && (forall i :: 0 <= i < 36 && i !in {8, 13, 18, 23} ==> IsHexDigit(s[i]))
  }

  /** An optional field passes when absent or when its value passes. */
  predicate OptOk<T>(v: Option<T>, ok: T -> bool) { v.None? || ok(v.value) }

  /**
   * Every constraint of the create schema; with `partial` (the update schema)
   * no field is required, the constraints on present fields are the same.
   */
  predicate Accepts(raw: RawListing, partial: bool)
  {
    && (partial || raw.title.Some?) && OptOk(raw.title, TitleOk)
    && OptOk(raw.description, DescriptionOk)
    && OptOk(raw.categoryId, IsUuid)
    && OptOk(raw.kind, KindOk)
    && OptOk(raw.priceHourly, PositiveInt)
    && (partial || raw.priceDaily.Some?) && OptOk(raw.priceDaily, PositiveInt)
    && OptOk(raw.priceWeekly, PositiveInt)
    && OptOk(raw.depositAmount, NonNegativeInt)
    && OptOk(raw.currency, CurrencyOk)
    && OptOk(raw.addressCountry, CountryOk)
    && OptOk(raw.location, LocationOk)
    && OptOk(raw.availabilityType, AvailabilityOk)
    && OptOk(raw.minRentalHours, PositiveInt)
    && OptOk(raw.maxRentalDays, PositiveInt)
    && OptOk(raw.deliveryFee, NonNegativeInt)
  }

  // ---------------------------------------------------------------------------
  // The issues of one value: one per failing check, in the order the checks
  // are chained on the field (Zod runs every check of a chain)

  /** The issue of one check, when it fails. */
  function Check(ok: bool, message: IssueMessage): (r: seq<IssueMessage>)
    ensures r == [] <==> ok
  {
    if ok then [] else [message]
  }

  /** `.min(lo)` then `.max(hi)` on a string. */
  function LengthFailures(s: string, lo: nat, hi: nat): (r: seq<IssueMessage>)
    ensures r == [] <==> lo <= |s| <= hi
  {
    Check(|s| >= lo, TooSmallString(lo, false)) + Check(|s| <= hi, TooBigString(hi, false))
  }

  /** `.length(n)`: one issue, too small or too big, worded "exactly". */
  function ExactLengthFailures(s: string, n: nat): (r: seq<IssueMessage>)
    ensures r == [] <==> |s| == n
    ensures |r| <= 1
  {
    if |s| < n then [TooSmallString(n, true)] else if |s| > n then [TooBigString(n, true)] else []
  }

  /** `z.enum(options)` */
  function EnumFailures(s: string, options: seq<string>): (r: seq<IssueMessage>)
    ensures r == [] <==> s in options
  {
    Check(s in options, InvalidEnum(options, s))
  }

  /** `.int()` then `.positive()`: both run, so -1.5 is reported twice. */
  function PositiveIntFailures(x: real): (r: seq<IssueMessage>)
    ensures r == [] <==> PositiveInt(x)
    ensures |r| == 2 <==> !IsInt(x) && x <= 0.0
  {
    Check(IsInt(x), NotInteger) + Check(x > 0.0, TooSmallNumber(0, false))
  }

  /** `.int()` then `.min(0)` */
  function NonNegativeIntFailures(x: real): (r: seq<IssueMessage>)
    ensures r == [] <==> NonNegativeInt(x)
    ensures |r| == 2 <==> !IsInt(x) && x < 0.0
  {
    Check(IsInt(x), NotInteger) + Check(x >= 0.0, TooSmallNumber(0, true))
  }

  /** `.min(lo).max(hi)` on a number. */
  function RangeFailures(x: real, lo: int, hi: int): (r: seq<IssueMessage>)
    ensures r == [] <==> lo as real <= x <= hi as real
  {
    Check(x >= lo as real, TooSmallNumber(lo, true)) + Check(x <= hi as real, TooBigNumber(hi, true))
  }

  /** The check chain on a string field. */
  datatype StringRule = TitleRule | DescriptionRule | UuidRule | KindRule | CurrencyRule | CountryRule
                      | AvailabilityRule | FreeText

  predicate StringOk(rule: StringRule, s: string)
  {
    match rule
    case TitleRule => TitleOk(s)
    case DescriptionRule => DescriptionOk(s)
    case UuidRule => IsUuid(s)
    case KindRule => KindOk(s)
    case CurrencyRule => CurrencyOk(s)
    case CountryRule => CountryOk(s)
    case AvailabilityRule => AvailabilityOk(s)
    case FreeText => true
  }

  function StringFailures(rule: StringRule, s: string): (r: seq<IssueMessage>)
    ensures r == [] <==> StringOk(rule, s)
  {
    match rule
    case TitleRule => LengthFailures(s, 5, 200)
    case DescriptionRule => Check(|s| <= 2000, TooBigString(2000, false))
    case UuidRule => Check(IsUuid(s), InvalidUuid)
    case KindRule => EnumFailures(s, ["offer", "request"])
    case CurrencyRule => ExactLengthFailures(s, 3)
    case CountryRule => ExactLengthFailures(s, 2)
    case AvailabilityRule => EnumFailures(s, ["flexible", "specific_dates"])
    case FreeText => []
  }

  /** The check chain on a number field. */
  datatype NumberRule = PositiveIntRule | NonNegativeIntRule

  predicate NumberOk(rule: NumberRule, x: real)
  {
    match rule
    case PositiveIntRule => PositiveInt(x)
    case NonNegativeIntRule => NonNegativeInt(x)
  }

  function NumberFailures(rule: NumberRule, x: real): (r: seq<IssueMessage>)
    ensures r == [] <==> NumberOk(rule, x)
  {
    match rule
    case PositiveIntRule => PositiveIntFailures(x)
    case NonNegativeIntRule => NonNegativeIntFailures(x)
  }

  // ---------------------------------------------------------------------------
  // Issue collection: every failing check of every field is reported, in
  // schema order

  /** One issue per message, all at the same path. */
  function AtPath(path: seq<string>, messages: seq<IssueMessage>): (r: seq<Issue>)
    ensures |r| == |messages|
    ensures forall i :: 0 <= i < |r| ==> r[i] == Issue(path, messages[i])
  {
    seq(|messages|, i requires 0 <= i < |messages| => Issue(path, messages[i]))
  }

  /** An absent key is one "Required" issue when the schema requires it, nothing otherwise. */
  function MissingIssues(field: string, required: bool): (r: seq<Issue>)
    ensures r == [] <==> !required
  {
    if required then [Issue([field], Required)] else []
  }

  function StringIssues(field: string, v: Option<string>, required: bool, rule: StringRule): (r: seq<Issue>)
    ensures r == [] <==> (v.Some? || !required) && (v.None? || StringOk(rule, v.value))
  {
    match v
    case None => MissingIssues(field, required)
    case Some(s) => AtPath([field], StringFailures(rule, s))
  }

  function NumberIssues(field: string, v: Option<real>, required: bool, rule: NumberRule): (r: seq<Issue>)
    ensures r == [] <==> (v.Some? || !required) && (v.None? || NumberOk(rule, v.value))
  {
    match v
    case None => MissingIssues(field, required)
    case Some(x) => AtPath([field], NumberFailures(rule, x))
  }

  /** A boolean key has no check beyond its presence. */
  function BoolIssues(field: string, v: Option<bool>, required: bool): (r: seq<Issue>)
    ensures r == [] <==> v.Some? || !required
  {
    if v.None? then MissingIssues(field, required) else []
  }

  function LocationIssues(v: Option<Location>): (r: seq<Issue>)
    ensures r == [] <==> OptOk(v, LocationOk)
  {
    match v
    case None => []
    case Some(l) =>
      AtPath(["location", "lat"], RangeFailures(l.lat, -90, 90))
      + AtPath(["location", "lng"], RangeFailures(l.lng, -180, 180))
  }

  /** The issues of the keys describing the listing, in schema order. */
  function DescriptionIssues(raw: RawListing, partial: bool): (r: seq<Issue>)
    ensures r == [] <==>
      && (partial || raw.title.Some?) && OptOk(raw.title, TitleOk)
      && OptOk(raw.description, DescriptionOk)
      && OptOk(raw.categoryId, IsUuid)
      && OptOk(raw.kind, KindOk)
  {
    StringIssues("title", raw.title, !partial, TitleRule)
    + StringIssues("description", raw.description, false, DescriptionRule)
    + StringIssues("category_id", raw.categoryId, false, UuidRule)
    + StringIssues("type", raw.kind, false, KindRule)
  }

  /** The issues of the price keys, in schema order. */
  function PriceIssues(raw: RawListing, partial: bool): (r: seq<Issue>)
    ensures r == [] <==>
      && OptOk(raw.priceHourly, PositiveInt)
      && (partial || raw.priceDaily.Some?) && OptOk(raw.priceDaily, PositiveInt)
      && OptOk(raw.priceWeekly, PositiveInt)
      && OptOk(raw.depositAmount, NonNegativeInt)
      && OptOk(raw.currency, CurrencyOk)
  {
    NumberIssues("price_hourly", raw.priceHourly, false, PositiveIntRule)
    + NumberIssues("price_daily", raw.priceDaily, !partial, PositiveIntRule)
    + NumberIssues("price_weekly", raw.priceWeekly, false, PositiveIntRule)
    + NumberIssues("deposit_amount", raw.depositAmount, false, NonNegativeIntRule)
    + StringIssues("currency", raw.currency, false, CurrencyRule)
  }

  /** The issues of the address and location keys, in schema order. */
  function PlaceIssues(raw: RawListing): (r: seq<Issue>)
    ensures r == [] <==> OptOk(raw.addressCountry, CountryOk) && OptOk(raw.location, LocationOk)
  {
    StringIssues("address_text", raw.addressText, false, FreeText)
    + StringIssues("address_city", raw.addressCity, false, FreeText)
    + StringIssues("address_country", raw.addressCountry, false, CountryRule)
    + LocationIssues(raw.location)
  }

  /** The issues of the rental-terms keys, in schema order. */
  function TermsIssues(raw: RawListing): (r: seq<Issue>)
    ensures r == [] <==>
      && OptOk(raw.availabilityType, AvailabilityOk)
      && OptOk(raw.minRentalHours, PositiveInt)
      && OptOk(raw.maxRentalDays, PositiveInt)
      && OptOk(raw.deliveryFee, NonNegativeInt)
  {
    StringIssues("availability_type", raw.availabilityType, false, AvailabilityRule)
    + NumberIssues("min_rental_hours", raw.minRentalHours, false, PositiveIntRule)
    + NumberIssues("max_rental_days", raw.maxRentalDays, false, PositiveIntRule)
    + BoolIssues("delivery_available", raw.deliveryAvailable, false)
    + NumberIssues("delivery_fee", raw.deliveryFee, false, NonNegativeIntRule)
    + BoolIssues("pickup_available", raw.pickupAvailable, false)
  }

  /** Every issue of a body, key by key in the order the schema declares them. */
  function Issues(raw: RawListing, partial: bool): seq<Issue>
  {
    DescriptionIssues(raw, partial) + PriceIssues(raw, partial) + PlaceIssues(raw) + TermsIssues(raw)
  }

  /** A body is reported with no issue exactly when every constraint holds. */
  lemma IssuesEmptyIff(raw: RawListing, partial: bool)
    ensures Issues(raw, partial) == [] <==> Accepts(raw, partial)
  {
  }

  /** Zod reports every failing check: -1.5 as a daily price fails both `.int()` and `.positive()`. */
  lemma EveryFailingCheckReported()
    ensures NumberIssues("price_daily", Some(-1.5), true, PositiveIntRule)
      == [Issue(["price_daily"], NotInteger), Issue(["price_daily"], TooSmallNumber(0, false))]
    ensures StringIssues("title", Some("Tent"), true, TitleRule) == [Issue(["title"], TooSmallString(5, false))]
    ensures StringIssues("currency", Some("EURO"), false, CurrencyRule) == [Issue(["currency"], TooBigString(3, true))]
    ensures LocationIssues(Some(Location(91.0, -181.0)))
      == [Issue(["location", "lat"], TooBigNumber(90, true)), Issue(["location", "lng"], TooSmallNumber(-180, true))]
  {
  }

  // ---------------------------------------------------------------------------
  // createListingSchema

  function IntOf(v: Option<real>): (r: Option<int>)
    ensures r.None? <==> v.None?
  {
    match v
    case None => None
    case Some(x) => Some(x.Floor)
  }

  function KindOf(s: string): ListingKind { if s == "request" then Request else Offer }
  function KindName(k: ListingKind): string { match k case Offer => "offer" case Request => "request" }
  function AvailabilityOf(s: string): Availability { if s == "specific_dates" then SpecificDates else Flexible }
  function AvailabilityName(a: Availability): string
  {
    match a case Flexible => "flexible" case SpecificDates => "specific_dates"
  }

  /** The parsed body with every `.default(...)` applied. */
  function Fill(raw: RawListing): ListingInput
    requires Accepts(raw, false)
  {
    ListingInput(
      ListingDetails(
        title := raw.title.value,
        description := raw.description,
        categoryId := raw.categoryId,
        kind := KindOf(raw.kind.GetOr("offer")),
        priceHourly := IntOf(raw.priceHourly),
        priceDaily := raw.priceDaily.value.Floor,
        priceWeekly := IntOf(raw.priceWeekly),
        depositAmount := raw.depositAmount.GetOr(0.0).Floor,
        currency := raw.currency.GetOr("USD"),
        addressText := raw.addressText,
        addressCity := raw.addressCity,
        addressCountry := raw.addressCountry,
        availabilityType := AvailabilityOf(raw.availabilityType.GetOr("flexible")),
        minRentalHours := raw.minRentalHours.GetOr(1.0).Floor,
        maxRentalDays := IntOf(raw.maxRentalDays),
        deliveryAvailable := raw.deliveryAvailable.GetOr(false),
        deliveryFee := raw.deliveryFee.GetOr(0.0).Floor,
        pickupAvailable := raw.pickupAvailable.GetOr(true)),
      raw.location)
  }

  /** `createListingSchema.parse(body)` */
  function ParseCreate(raw: RawListing): (r: Result<ListingInput>)
    ensures r.Err? ==> r.error.Invalid? && |r.error.issues| > 0
  {
    var issues := Issues(raw, false);
    if issues == [] then (IssuesEmptyIff(raw, false); Ok(Fill(raw))) else Err(Invalid(issues))
  }

  /** What every accepted listing satisfies, stated on the typed values. */
  predicate ValidInput(i: ListingInput)
  {
    var d := i.details;
    && TitleOk(d.title)
    && OptOk(d.description, DescriptionOk)
    && OptOk(d.categoryId, IsUuid)
    && (d.priceHourly.Some? ==> d.priceHourly.value > 0)
    && d.priceDaily > 0
    && (d.priceWeekly.Some? ==> d.priceWeekly.value > 0)
    && d.depositAmount >= 0
    && CurrencyOk(d.currency)
    && OptOk(d.addressCountry, CountryOk)
    && OptOk(i.location, LocationOk)
    && d.minRentalHours > 0
    && (d.maxRentalDays.Some? ==> d.maxRentalDays.value > 0)
    && d.deliveryFee >= 0
  }

  function RealOf(v: Option<int>): Option<real>
  {
    match v
    case None => None
    case Some(n) => Some(n as real)
  }

  /** The request body a client would send for a given input, every field spelled out. */
  function ToRaw(i: ListingInput): RawListing
  {
    var d := i.details;
    RawListing(
      Some(d.title), d.description, d.categoryId, Some(KindName(d.kind)),
      RealOf(d.priceHourly), Some(d.priceDaily as real), RealOf(d.priceWeekly),
      Some(d.depositAmount as real), Some(d.currency),
      d.addressText, d.addressCity, d.addressCountry, i.location,
      Some(AvailabilityName(d.availabilityType)), Some(d.minRentalHours as real),
      RealOf(d.maxRentalDays), Some(d.deliveryAvailable), Some(d.deliveryFee as real),
      Some(d.pickupAvailable))
  }

  /** A body is accepted exactly when it meets every field constraint. */
  lemma CreateAcceptsIff(raw: RawListing)
    ensures ParseCreate(raw).Ok? <==> Accepts(raw, false)
  {
    IssuesEmptyIff(raw, false);
  }

  /** Whatever the create schema accepts satisfies the constraints on typed values. */
  lemma ParsedIsValid(raw: RawListing)
    requires ParseCreate(raw).Ok?
    ensures ValidInput(ParseCreate(raw).value)
  {
    IssuesEmptyIff(raw, false);
  }

  /** Every valid input survives being sent as a body and parsed back. */
  lemma CreateRoundTrip(i: ListingInput)
    requires ValidInput(i)
    ensures ParseCreate(ToRaw(i)) == Ok(i)
  {
    var raw := ToRaw(i);
    assert Accepts(raw, false);
    IssuesEmptyIff(raw, false);
    assert Fill(raw).details == i.details;
  }

  /** Absent fields take the schema's defaults. */
  lemma CreateDefaults(raw: RawListing)
    requires ParseCreate(raw).Ok?
    ensures var d := ParseCreate(raw).value.details;
      && (raw.kind.None? ==> d.kind == Offer)
      && (raw.depositAmount.None? ==> d.depositAmount == 0)
      && (raw.currency.None? ==> d.currency == "USD")
      && (raw.availabilityType.None? ==> d.availabilityType == Flexible)
      && (raw.minRentalHours.None? ==> d.minRentalHours == 1)
      && (raw.deliveryAvailable.None? ==> !d.deliveryAvailable)
      && (raw.deliveryFee.None? ==> d.deliveryFee == 0)
      && (raw.pickupAvailable.None? ==> d.pickupAvailable)
  {
    IssuesEmptyIff(raw, false);
  }

  /** A missing title or daily price is always rejected, whatever else the body holds. */
  lemma CreateRequiresTitleAndDailyPrice(raw: RawListing)
    requires raw.title.None? || raw.priceDaily.None?
    ensures ParseCreate(raw).Err?
  {
    CreateAcceptsIff(raw);
  }

  /** A title of four characters is rejected, one of five accepted (other fields minimal). */
  lemma TitleLengthExamples()
    ensures ParseCreate(RawListing(Some("Tent"), None, None, None, None, Some(1000.0), None, None, None,
                                   None, None, None, None, None, None, None, None, None, None)).Err?
    ensures ParseCreate(RawListing(Some("Tents"), None, None, None, None, Some(1000.0), None, None, None,
                                   None, None, None, None, None, None, None, None, None, None)).Ok?
  {
    CreateAcceptsIff(RawListing(Some("Tent"), None, None, None, None, Some(1000.0), None, None, None,
                                None, None, None, None, None, None, None, None, None, None));
    CreateAcceptsIff(RawListing(Some("Tents"), None, None, None, None, Some(1000.0), None, None, None,
                                None, None, None, None, None, None, None, None, None, None));
  }

  // ---------------------------------------------------------------------------
  // updateListingSchema = createListingSchema.partial()

  function ToPatch(raw: RawListing): ListingPatch
  {
    ListingPatch(
      raw.title, raw.description, raw.categoryId,
      match raw.kind case None => None case Some(s) => Some(KindOf(s)),
      IntOf(raw.priceHourly), IntOf(raw.priceDaily), IntOf(raw.priceWeekly), IntOf(raw.depositAmount),
      raw.currency, raw.addressText, raw.addressCity, raw.addressCountry, raw.location,
      match raw.availabilityType case None => None case Some(s) => Some(AvailabilityOf(s)),
      IntOf(raw.minRentalHours), IntOf(raw.maxRentalDays), raw.deliveryAvailable,
      IntOf(raw.deliveryFee), raw.pickupAvailable)
  }

  /** `updateListingSchema.parse(body)` */
  function ParseUpdate(raw: RawListing): (r: Result<ListingPatch>)
    ensures r.Err? ==> r.error.Invalid? && |r.error.issues| > 0
  {
    var issues := Issues(raw, true);
    if issues == [] then Ok(ToPatch(raw)) else Err(Invalid(issues))
  }

  const EmptyBody := RawListing(None, None, None, None, None, None, None, None, None, None,
                                None, None, None, None, None, None, None, None, None)

  /** The empty object is a valid update and changes no field. */
  lemma EmptyUpdateAccepted()
    ensures ParseUpdate(EmptyBody) == Ok(ListingPatch(None, None, None, None, None, None, None, None, None, None,
                                                      None, None, None, None, None, None, None, None, None))
  {
  }

  /** An update body is accepted exactly when each field it holds meets the create constraint. */
  lemma UpdateAcceptsIff(raw: RawListing)
    ensures ParseUpdate(raw).Ok? <==> Accepts(raw, true)
    ensures ParseCreate(raw).Ok? ==> ParseUpdate(raw).Ok?
  {
    IssuesEmptyIff(raw, true);
    IssuesEmptyIff(raw, false);
  }

  /** The update schema fills in no default: an absent field stays absent. */
  lemma UpdateNoDefaults(raw: RawListing)
    requires ParseUpdate(raw).Ok?
    ensures var p := ParseUpdate(raw).value;
      && p.currency == raw.currency
      && (p.kind.None? <==> raw.kind.None?)
      && (p.depositAmount.None? <==> raw.depositAmount.None?)
      && (p.minRentalHours.None? <==> raw.minRentalHours.None?)
      && (p.availabilityType.None? <==> raw.availabilityType.None?)
      && p.deliveryAvailable == raw.deliveryAvailable
      && (p.deliveryFee.None? <==> raw.deliveryFee.None?)
      && p.pickupAvailable == raw.pickupAvailable
  {
  }

  // ---------------------------------------------------------------------------
  // listingIdSchema

  function ParseListingId(id: string): (r: Result<string>)
    ensures r.Ok? <==> IsUuid(id)
    ensures r.Ok? ==> r.value == id
  {
    if IsUuid(id) then Ok(id) else Err(Invalid([Issue(["id"], InvalidUuid)]))
  }

  predicate HexBlock(s: string, n: nat) { |s| == n && forall i :: 0 <= i < n ==> IsHexDigit(s[i]) }

  /** Five hexadecimal blocks of lengths 8-4-4-4-12 joined by dashes form a UUID. */
  lemma DashedBlocksAreUuid(a: string, b: string, c: string, d: string, e: string)
    requires HexBlock(a, 8) && HexBlock(b, 4) && HexBlock(c, 4) && HexBlock(d, 4) && HexBlock(e, 12)
    ensures IsUuid(a + "-" + b + "-" + c + "-" + d + "-" + e)
  {
    var s := a + "-" + b + "-" + c + "-" + d + "-" + e;
    assert s[8] == '-' && s[13] == '-' && s[18] == '-' && s[23] == '-';
    forall i | 0 <= i < 36 && i !in {8, 13, 18, 23}
      ensures IsHexDigit(s[i])
    {
      if i < 8 { assert s[i] == a[i]; }
      else if i < 13 { assert s[i] == b[i - 9]; }
      else if i < 18 { assert s[i] == c[i - 14]; }
      else if i < 23 { assert s[i] == d[i - 19]; }
      else { assert s[i] == e[i - 24]; }
    }
  }
}
