/**
 * The `mode="before"` model validators of pypaca/trading/requests.py and the
 * order subclasses' constructors, which overwrite the order type before
 * pydantic validates the keyword arguments.
 *
 * A before-validator sees the raw keyword dict; passing it along unchanged
 * means field validation then runs on that dict, which is not modelled.
 */
module TradingRequests {

  import opened PyValues

  const QTY_OR_PERCENTAGE_NONE := "qty or percentage must be given to the ClosePositionRequest, got None for both."
  const QTY_OR_PERCENTAGE_BOTH := "Only one of qty or percentage must be given to the ClosePositionRequest, got both."
  const NAME_OR_SYMBOLS := "One of 'name' or 'symbols' must be defined"
  const QTY_OR_NOTIONAL_NONE := "At least one of qty or notional must be provided"
  const QTY_OR_NOTIONAL_BOTH := "Both qty and notional can not be set."
  const TRAIL_NONE := "Either trail_percent or trail_price must be set for a trailing stop order."
  const TRAIL_BOTH := "Both trail_percent and trail_price cannot be set."
  const RANGE_TOO_LONG := "The date range is limited to 90 days."

  /** The longest range, in days, a corporate announcements query may span. */
  const MAX_RANGE_DAYS := 90

  /**
   * The shared shape of the exactly-one rules: fail with `none` when neither
   * key is set, with `both` when both are; otherwise hand the dict on.
   */
  function ExactlyOne(values: map<string, Json>, first: string, second: string, none: string, both: string)
    : (r: Result<map<string, Json>>)
    ensures r.Success? <==> IsSet(values, first) != IsSet(values, second)
    ensures r.Success? ==> r.value == values
    ensures !IsSet(values, first) && !IsSet(values, second) ==> r == Failure(ValidationError(none))
    ensures IsSet(values, first) && IsSet(values, second) ==> r == Failure(ValidationError(both))
  {
    if !IsSet(values, first) && !IsSet(values, second) then Failure(ValidationError(none))
    else if IsSet(values, first) && IsSet(values, second) then Failure(ValidationError(both))
    else Success(values)
  }

  /** `ClosePositionRequest.root_validator`: exactly one of `qty` and `percentage`. */
  function ValidateClosePosition(values: map<string, Json>): (r: Result<map<string, Json>>)
    ensures r.Success? <==> IsSet(values, "qty") != IsSet(values, "percentage")
    ensures r.Success? ==> r.value == values
  {
    // values.get(k, None) is None exactly when the key is missing or null: the IsSet test.
    ExactlyOne(values, "qty", "percentage", QTY_OR_PERCENTAGE_NONE, QTY_OR_PERCENTAGE_BOTH)
  }

  /** `UpdateWatchlistRequest.root_validator`: at least one of `name` and `symbols`. */
  function ValidateUpdateWatchlist(values: map<string, Json>): (r: Result<map<string, Json>>)
    ensures r.Success? <==> IsSet(values, "name") || IsSet(values, "symbols")
    ensures r.Success? ==> r.value == values
    ensures r.Failure? ==> r.error == ValidationError(NAME_OR_SYMBOLS)
  {
    if !IsSet(values, "name") && !IsSet(values, "symbols") then Failure(ValidationError(NAME_OR_SYMBOLS))
    else Success(values)
  }

  /** Both fields together pass, although the docstring says "but not both". */
  lemma WatchlistAcceptsBoth(name: string, symbols: seq<Json>)
    ensures ValidateUpdateWatchlist(map["name" := JStr(name), "symbols" := JArray(symbols)]).Success?
  {
    var values := map["name" := JStr(name), "symbols" := JArray(symbols)];
    assert IsSet(values, "name");
  }

  /** `OrderRequest.root_validator`: exactly one of `qty` and `notional`. */
  function ValidateOrder(values: map<string, Json>): (r: Result<map<string, Json>>)
    ensures r.Success? <==> IsSet(values, "qty") != IsSet(values, "notional")
    ensures r.Success? ==> r.value == values
  {
    ExactlyOne(values, "qty", "notional", QTY_OR_NOTIONAL_NONE, QTY_OR_NOTIONAL_BOTH)
  }

  /** `TrailingStopOrderRequest.root_validator`: exactly one of `trail_percent` and `trail_price`. */
  function ValidateTrailingStop(values: map<string, Json>): (r: Result<map<string, Json>>)
    ensures r.Success? <==> IsSet(values, "trail_percent") != IsSet(values, "trail_price")
    ensures r.Success? ==> r.value == values
  {
    ExactlyOne(values, "trail_percent", "trail_price", TRAIL_NONE, TRAIL_BOTH)
  }

  /** A missing key and an explicit `None` are the same to every exactly-one rule. */
  lemma MissingEqualsNull(values: map<string, Json>, key: string)
    requires key !in values
    ensures ValidateOrder(values[key := JNull]).Success? == ValidateOrder(values).Success?
    ensures ValidateClosePosition(values[key := JNull]).Success? == ValidateClosePosition(values).Success?
    ensures ValidateTrailingStop(values[key := JNull]).Success? == ValidateTrailingStop(values).Success?
  {
    var values' := values[key := JNull];
    assert forall k :: IsSet(values', k) == IsSet(values, k);
  }

  /** The order subclasses, each fixing its execution type. */
  datatype OrderKind = Market | Stop | Limit | StopLimit | TrailingStop {
    /** The `OrderType` member's value. */
    function TypeValue(): string {
      match this
      case Market => "market"
      case Stop => "stop"
      case Limit => "limit"
      case StopLimit => "stop_limit"
      case TrailingStop => "trailing_stop"
    }
  }

  /**
   * The before-validator that runs for a subclass. `TrailingStopOrderRequest`
   * declares one under the same name as `OrderRequest`'s, and a subclass
   * validator of the same name takes the inherited one's place, so for
   * trailing stops only the trail rule applies.
   */
  function BeforeValidator(kind: OrderKind, values: map<string, Json>): (r: Result<map<string, Json>>)
    ensures r.Success? ==> r.value == values
    ensures kind == TrailingStop ==> (r.Success? <==> IsSet(values, "trail_percent") != IsSet(values, "trail_price"))
    ensures kind != TrailingStop ==> (r.Success? <==> IsSet(values, "qty") != IsSet(values, "notional"))
  {
    if kind == TrailingStop then ValidateTrailingStop(values) else ValidateOrder(values)
  }

  /**
   * `MarketOrderRequest.__init__` and its siblings: overwrite `data["type"]`,
   * then construct, which runs the before-validator on the updated dict.
   */
  method OrderInit(kind: OrderKind, data: map<string, Json>) returns (r: Result<map<string, Json>>)
    ensures r == BeforeValidator(kind, data["type" := JStr(kind.TypeValue())])
    ensures r.Success? ==> r.value == data["type" := JStr(kind.TypeValue())]
    ensures r.Success? ==> r.value["type"] == JStr(kind.TypeValue())
    ensures r.Success? ==> forall k :: k in data && k != "type" ==> k in r.value && r.value[k] == data[k]
    ensures kind != TrailingStop ==> (r.Success? <==> IsSet(data, "qty") != IsSet(data, "notional"))
    ensures kind == TrailingStop ==> (r.Success? <==> IsSet(data, "trail_percent") != IsSet(data, "trail_price"))
  {
    var fields := data;
    fields := fields["type" := JStr(kind.TypeValue())];
    assert forall k :: k != "type" ==> IsSet(fields, k) == IsSet(data, k);
    r := BeforeValidator(kind, fields);
  }

  /** Whatever `type` the caller passes, the constructed order carries its class's type. */
  lemma CallerTypeIgnored(kind: OrderKind, data: map<string, Json>, given: Json)
    ensures var a := data["type" := given]["type" := JStr(kind.TypeValue())];
      a == data["type" := JStr(kind.TypeValue())]
    ensures forall k1: OrderKind, k2: OrderKind :: k1 != k2 ==> k1.TypeValue() != k2.TypeValue()
  {
  }

  /** A trailing stop with both `qty` and `notional` still passes its own rule. */
  lemma TrailingStopSkipsQuantityRule(data: map<string, Json>)
    requires IsSet(data, "qty") && IsSet(data, "notional")
    requires IsSet(data, "trail_price") && !IsSet(data, "trail_percent")
    ensures BeforeValidator(TrailingStop, data["type" := JStr("trailing_stop")]).Success?
    ensures BeforeValidator(Market, data["type" := JStr("market")]) == Failure(ValidationError(QTY_OR_NOTIONAL_BOTH))
  {
    var a := data["type" := JStr("trailing_stop")];
    var b := data["type" := JStr("market")];
    assert IsSet(a, "trail_price") && !IsSet(a, "trail_percent");
    assert IsSet(b, "qty") && IsSet(b, "notional");
  }

  /**
   * `pd.Timestamp(v).date()` as a day number: `None` for pandas' not-a-time
   * (which `None` and a missing key give), a failure for an unparsable value.
   */
  type DateParser = Json -> Result<Option<int>>

  /**
   * `GetCorporateAnnouncementsRequest.root_validator`: `since` is parsed
   * first, then `until`; the range is rejected only when both are dates
   * and `until` lies more than 90 days after `since`.
   */
  function ValidateCorporateAnnouncements(values: map<string, Json>, parseDate: DateParser)
    : (r: Result<map<string, Json>>)
    ensures r.Success? ==> r.value == values
    ensures r.Failure? ==>
      || parseDate(Get(values, "since")).Failure?
      || parseDate(Get(values, "until")).Failure?
      || r.error == ValidationError(RANGE_TOO_LONG)
    ensures parseDate(Get(values, "since")).Failure? ==> r == Failure(parseDate(Get(values, "since")).error)
    ensures parseDate(Get(values, "since")) == Success(None) && parseDate(Get(values, "until")).Success? ==>
      r == Success(values)
    ensures parseDate(Get(values, "since")).Success? && parseDate(Get(values, "until")) == Success(None) ==>
      r == Success(values)
  {
    match parseDate(Get(values, "since"))
    case Failure(e) => Failure(e)
    case Success(since) =>
      match parseDate(Get(values, "until"))
      case Failure(e) => Failure(e)
      case Success(until) =>
        // NaT compares false with every timedelta, so an unset end never rejects.
        if since.Some? && until.Some? && until.value - since.value > MAX_RANGE_DAYS
        then Failure(ValidationError(RANGE_TOO_LONG))
        else Success(values)
  }

  /** When both dates parse, the rule is exactly `until - since <= 90`, and a pass changes nothing. */
  lemma CorporateAnnouncementsWindow(values: map<string, Json>, parseDate: DateParser, since: int, until: int)
    requires parseDate(Get(values, "since")) == Success(Some(since))
    requires parseDate(Get(values, "until")) == Success(Some(until))
    ensures ValidateCorporateAnnouncements(values, parseDate).Success? <==> until - since <= MAX_RANGE_DAYS
    ensures ValidateCorporateAnnouncements(values, parseDate).Success? ==>
      ValidateCorporateAnnouncements(values, parseDate).value == values
    ensures until - since > MAX_RANGE_DAYS ==>
      ValidateCorporateAnnouncements(values, parseDate) == Failure(ValidationError(RANGE_TOO_LONG))
  {
  }

  /** The boundary cases: exactly 90 days passes, 91 does not, and a reversed range passes. */
  lemma CorporateAnnouncementsBoundaries(values: map<string, Json>, parseDate: DateParser, since: int)
    requires parseDate(Get(values, "since")) == Success(Some(since))
    ensures parseDate(Get(values, "until")) == Success(Some(since + 90)) ==>
      ValidateCorporateAnnouncements(values, parseDate).Success?
    ensures parseDate(Get(values, "until")) == Success(Some(since + 91)) ==>
      ValidateCorporateAnnouncements(values, parseDate).Failure?
    ensures forall d :: d < since && parseDate(Get(values, "until")) == Success(Some(d)) ==>
      ValidateCorporateAnnouncements(values, parseDate).Success?
  {
  }

  /** A side that is not a date never rejects, and a parse failure of `since` wins over `until`'s. */
  lemma CorporateAnnouncementsUnset(values: map<string, Json>, parseDate: DateParser)
    ensures parseDate(Get(values, "since")) == Success(None) && parseDate(Get(values, "until")).Success? ==>
      ValidateCorporateAnnouncements(values, parseDate) == Success(values)
    ensures parseDate(Get(values, "since")).Success? && parseDate(Get(values, "until")) == Success(None) ==>
      ValidateCorporateAnnouncements(values, parseDate) == Success(values)
    ensures parseDate(Get(values, "since")).Failure? ==>
      ValidateCorporateAnnouncements(values, parseDate) == Failure(parseDate(Get(values, "since")).error)
  {
  }
}
