/**
 * The pricing API's request models: the two enumerations and how a request
 * body is validated into a `MarketDataRequest` or an `OptionPricingRequest`.
 * A body is given field by field; `None` is a field the client left out.
 */
module PricerModel {
  import opened Wrappers

  // ---------------------------------------------------------------- enumerations

  datatype OptionType = European | American

  datatype ModelType = BlackScholes | MonteCarlo

  /** The string each member stands for on the wire. */
  function OptionTypeValue(t: OptionType): string {
    match t
    case European => "EUROPEAN"
    case American => "AMERICAN"
  }

  function ModelTypeValue(m: ModelType): string {
    match m
    case BlackScholes => "Black Scholes"
    case MonteCarlo => "Monte Carlo"
  }

  /** Accepts exactly the member values, spelled exactly. */
  function ParseOptionType(s: string): (r: Option<OptionType>)
    ensures r.Some? <==> s == "EUROPEAN" || s == "AMERICAN"
    ensures r.Some? ==> OptionTypeValue(r.value) == s
  {
    if s == "EUROPEAN" then Some(European)
    else if s == "AMERICAN" then Some(American)
    else None
  }

  function ParseModelType(s: string): (r: Option<ModelType>)
    ensures r.Some? <==> s == "Black Scholes" || s == "Monte Carlo"
    ensures r.Some? ==> ModelTypeValue(r.value) == s
  {
    if s == "Black Scholes" then Some(BlackScholes)
    else if s == "Monte Carlo" then Some(MonteCarlo)
    else None
  }

  /** Every member is read back from its own value. */
  lemma EnumRoundTrips(t: OptionType, m: ModelType)
    ensures ParseOptionType(OptionTypeValue(t)) == Some(t)
    ensures ParseModelType(ModelTypeValue(m)) == Some(m)
  {
  }

  // ---------------------------------------------------------------- validation errors

  datatype ErrorKind = Missing | GreaterThanEqual | EnumMismatch

  /** One entry of the validation error list: the field and what is wrong with it. */
  datatype FieldError = FieldError(field: string, kind: ErrorKind)

  /** A required number, at least zero. */
  function CheckNonNegative(field: string, x: Option<real>): (errors: seq<FieldError>)
    ensures errors == [] <==> x.Some? && x.value >= 0.0
    ensures |errors| <= 1 && forall e :: e in errors ==> e.field == field
  {
    match x
    case None => [FieldError(field, Missing)]
    case Some(v) => if v >= 0.0 then [] else [FieldError(field, GreaterThanEqual)]
  }

  /** A required number, any value. */
  function CheckPresent<T>(field: string, x: Option<T>): (errors: seq<FieldError>)
    ensures errors == [] <==> x.Some?
    ensures |errors| <= 1 && forall e :: e in errors ==> e.field == field && e.kind == Missing
  {
    if x.Some? then [] else [FieldError(field, Missing)]
  }

  /** A required enumeration member. */
  function CheckEnum<T>(field: string, x: Option<string>, parse: string -> Option<T>): (errors: seq<FieldError>)
    ensures errors == [] <==> x.Some? && parse(x.value).Some?
    ensures |errors| <= 1 && forall e :: e in errors ==> e.field == field
  {
    match x
    case None => [FieldError(field, Missing)]
    case Some(s) => if parse(s).Some? then [] else [FieldError(field, EnumMismatch)]
  }

  // ---------------------------------------------------------------- MarketDataRequest

  datatype MarketDataRequest = MarketDataRequest(
    underlyingPrice: real,
    volatility: real,
    riskFreeRate: real,
    dividendYield: real,
    strikePrice: real,
    maturity: real,
    optionType: OptionType,
    isCall: bool,
    modelType: ModelType)

  /** The six numbers are at least zero. */
  predicate ValidMarketData(m: MarketDataRequest) {
    && m.underlyingPrice >= 0.0 && m.volatility >= 0.0 && m.riskFreeRate >= 0.0
    && m.dividendYield >= 0.0 && m.strikePrice >= 0.0 && m.maturity >= 0.0
  }

  /** A market-data request body as sent, each field possibly left out. */
  datatype MarketDataBody = MarketDataBody(
    underlyingPrice: Option<real>,
    volatility: Option<real>,
    riskFreeRate: Option<real>,
    dividendYield: Option<real>,
    strikePrice: Option<real>,
    maturity: Option<real>,
    optionType: Option<string>,
    isCall: Option<bool>,
    modelType: Option<string>)

  /** Every field's errors, in the order the fields are declared. */
  function MarketDataErrors(b: MarketDataBody): seq<FieldError> {
    CheckNonNegative("underlyingPrice", b.underlyingPrice)
    + CheckNonNegative("volatility", b.volatility)
    + CheckNonNegative("riskFreeRate", b.riskFreeRate)
    + CheckNonNegative("dividendYield", b.dividendYield)
    + CheckNonNegative("strikePrice", b.strikePrice)
    + CheckNonNegative("maturity", b.maturity)
    + CheckEnum("optionType", b.optionType, ParseOptionType)
    + CheckEnum("modelType", b.modelType, ParseModelType)
  }

  /** The body is acceptable field by field: numbers present and at least zero, enumerations spelled exactly. */
  predicate AcceptableMarketData(b: MarketDataBody) {
    && b.underlyingPrice.Some? && b.underlyingPrice.value >= 0.0
    && b.volatility.Some? && b.volatility.value >= 0.0
    && b.riskFreeRate.Some? && b.riskFreeRate.value >= 0.0
    && b.dividendYield.Some? && b.dividendYield.value >= 0.0
    && b.strikePrice.Some? && b.strikePrice.value >= 0.0
    && b.maturity.Some? && b.maturity.value >= 0.0
    && b.optionType.Some? && ParseOptionType(b.optionType.value).Some?
    && b.modelType.Some? && ParseModelType(b.modelType.value).Some?
  }

  /**
   * Validates a body: a request carrying the body's values, `isCall` true when
   * left out, or every field error found.
   */
  function ParseMarketDataRequest(b: MarketDataBody): (r: Result<MarketDataRequest, seq<FieldError>>)
    ensures r.Success? <==> AcceptableMarketData(b)
    ensures r.Success? ==> ValidMarketData(r.value)
    ensures r.Success? ==>
              && Some(r.value.underlyingPrice) == b.underlyingPrice && Some(r.value.volatility) == b.volatility
              && Some(r.value.riskFreeRate) == b.riskFreeRate && Some(r.value.dividendYield) == b.dividendYield
              && Some(r.value.strikePrice) == b.strikePrice && Some(r.value.maturity) == b.maturity
              && Some(OptionTypeValue(r.value.optionType)) == b.optionType
              && Some(ModelTypeValue(r.value.modelType)) == b.modelType
              && r.value.isCall == b.isCall.GetOr(true)
    ensures r.Failure? ==> r.error != []
  {
    var errors := MarketDataErrors(b);
    if errors == [] then
      Success(MarketDataRequest(
        b.underlyingPrice.value, b.volatility.value, b.riskFreeRate.value,
        b.dividendYield.value, b.strikePrice.value, b.maturity.value,
        ParseOptionType(b.optionType.value).value,
        b.isCall.GetOr(true),
        ParseModelType(b.modelType.value).value))
    else
      Failure(errors)
  }

  /** The body a client sends for a request, optionally leaving `isCall` out. */
  function MarketDataBodyOf(m: MarketDataRequest, sendIsCall: bool): MarketDataBody {
    MarketDataBody(
      Some(m.underlyingPrice), Some(m.volatility), Some(m.riskFreeRate),
      Some(m.dividendYield), Some(m.strikePrice), Some(m.maturity),
      Some(OptionTypeValue(m.optionType)),
      if sendIsCall then Some(m.isCall) else None,
      Some(ModelTypeValue(m.modelType)))
  }

  /**
   * Sending a valid request and validating it gives it back; left out, `isCall`
   * comes back true. An invalid one is refused.
   */
  lemma MarketDataRoundTrip(m: MarketDataRequest, sendIsCall: bool)
    ensures ValidMarketData(m) && (sendIsCall || m.isCall) ==>
              ParseMarketDataRequest(MarketDataBodyOf(m, sendIsCall)) == Success(m)
    ensures ValidMarketData(m) && !sendIsCall ==>
              ParseMarketDataRequest(MarketDataBodyOf(m, sendIsCall)) == Success(m.(isCall := true))
    ensures !ValidMarketData(m) ==> ParseMarketDataRequest(MarketDataBodyOf(m, sendIsCall)).Failure?
  {
    EnumRoundTrips(m.optionType, m.modelType);
  }

  /** Some error of the list names `field`. */
  ghost predicate Reports(errors: seq<FieldError>, field: string) {
    exists e :: e in errors && e.field == field
  }

  lemma ReportsConcat(a: seq<FieldError>, b: seq<FieldError>, field: string)
    ensures Reports(a + b, field) <==> Reports(a, field) || Reports(b, field)
  {
    if Reports(a + b, field) {
      var e :| e in a + b && e.field == field;
      assert e in a || e in b;
    }
    if e :| e in a && e.field == field {
      assert e in a + b;
    }
    if e :| e in b && e.field == field {
      assert e in a + b;
    }
  }

  /** The error list names a field exactly when that field is missing or out of its bounds. */
  lemma MarketDataErrorsPerField(b: MarketDataBody, field: string)
    ensures Reports(MarketDataErrors(b), field) <==>
              || (field == "underlyingPrice" && !(b.underlyingPrice.Some? && b.underlyingPrice.value >= 0.0))
              || (field == "volatility" && !(b.volatility.Some? && b.volatility.value >= 0.0))
              || (field == "riskFreeRate" && !(b.riskFreeRate.Some? && b.riskFreeRate.value >= 0.0))
              || (field == "dividendYield" && !(b.dividendYield.Some? && b.dividendYield.value >= 0.0))
              || (field == "strikePrice" && !(b.strikePrice.Some? && b.strikePrice.value >= 0.0))
              || (field == "maturity" && !(b.maturity.Some? && b.maturity.value >= 0.0))
              || (field == "optionType" && !(b.optionType.Some? && ParseOptionType(b.optionType.value).Some?))
              || (field == "modelType" && !(b.modelType.Some? && ParseModelType(b.modelType.value).Some?))
  {
    var p0 := CheckNonNegative("underlyingPrice", b.underlyingPrice);
    var p1 := CheckNonNegative("volatility", b.volatility);
    var p2 := CheckNonNegative("riskFreeRate", b.riskFreeRate);
    var p3 := CheckNonNegative("dividendYield", b.dividendYield);
    var p4 := CheckNonNegative("strikePrice", b.strikePrice);
    var p5 := CheckNonNegative("maturity", b.maturity);
    var p6 := CheckEnum("optionType", b.optionType, ParseOptionType);
    var p7 := CheckEnum("modelType", b.modelType, ParseModelType);
    ReportsConcat(p0, p1, field);
    ReportsConcat(p0 + p1, p2, field);
    ReportsConcat(p0 + p1 + p2, p3, field);
    ReportsConcat(p0 + p1 + p2 + p3, p4, field);
    ReportsConcat(p0 + p1 + p2 + p3 + p4, p5, field);
    ReportsConcat(p0 + p1 + p2 + p3 + p4 + p5, p6, field);
    ReportsConcat(p0 + p1 + p2 + p3 + p4 + p5 + p6, p7, field);
    assert Reports(p0, field) <==> field == "underlyingPrice" && p0 != [];
    assert Reports(p1, field) <==> field == "volatility" && p1 != [];
    assert Reports(p2, field) <==> field == "riskFreeRate" && p2 != [];
    assert Reports(p3, field) <==> field == "dividendYield" && p3 != [];
    assert Reports(p4, field) <==> field == "strikePrice" && p4 != [];
    assert Reports(p5, field) <==> field == "maturity" && p5 != [];
    assert Reports(p6, field) <==> field == "optionType" && p6 != [];
    assert Reports(p7, field) <==> field == "modelType" && p7 != [];
  }

  // ---------------------------------------------------------------- OptionPricingRequest

  /** The request the pricing route takes: no bounds, and a free-form option type. */
  datatype OptionPricingRequest = OptionPricingRequest(
    underlyingPrice: real,
    volatility: real,
    riskFreeRate: real,
    dividendYield: real,
    optionType: string,
    modelType: ModelType,
    strikePrice: real,
    maturity: real)

  datatype OptionPricingBody = OptionPricingBody(
    underlyingPrice: Option<real>,
    volatility: Option<real>,
    riskFreeRate: Option<real>,
    dividendYield: Option<real>,
    optionType: Option<string>,
    modelType: Option<string>,
    strikePrice: Option<real>,
    maturity: Option<real>)

  function OptionPricingErrors(b: OptionPricingBody): seq<FieldError> {
    CheckPresent("underlyingPrice", b.underlyingPrice)
    + CheckPresent("volatility", b.volatility)
    + CheckPresent("riskFreeRate", b.riskFreeRate)
    + CheckPresent("dividendYield", b.dividendYield)
    + CheckPresent("optionType", b.optionType)
    + CheckEnum("modelType", b.modelType, ParseModelType)
    + CheckPresent("strikePrice", b.strikePrice)
    + CheckPresent("maturity", b.maturity)
  }

  /** Validates a body: every field must be present, and only the model type is checked further. */
  function ParseOptionPricingRequest(b: OptionPricingBody): (r: Result<OptionPricingRequest, seq<FieldError>>)
    ensures r.Success? <==>
              && b.underlyingPrice.Some? && b.volatility.Some? && b.riskFreeRate.Some? && b.dividendYield.Some?
              && b.optionType.Some? && b.strikePrice.Some? && b.maturity.Some?
              && b.modelType.Some? && ParseModelType(b.modelType.value).Some?
    ensures r.Success? ==>
              && Some(r.value.underlyingPrice) == b.underlyingPrice && Some(r.value.volatility) == b.volatility
              && Some(r.value.riskFreeRate) == b.riskFreeRate && Some(r.value.dividendYield) == b.dividendYield
              && Some(r.value.optionType) == b.optionType && Some(ModelTypeValue(r.value.modelType)) == b.modelType
              && Some(r.value.strikePrice) == b.strikePrice && Some(r.value.maturity) == b.maturity
    ensures r.Failure? ==> r.error != []
  {
    var errors := OptionPricingErrors(b);
    if errors == [] then
      Success(OptionPricingRequest(
        b.underlyingPrice.value, b.volatility.value, b.riskFreeRate.value, b.dividendYield.value,
        b.optionType.value, ParseModelType(b.modelType.value).value, b.strikePrice.value, b.maturity.value))
    else
      Failure(errors)
  }

  /**
   * Unlike a market-data request, a pricing request takes negative numbers
   * and any option type string; only its model type is enumerated.
   */
  lemma OptionPricingHasNoBounds(x: real, optionType: string, m: ModelType)
    ensures var b := OptionPricingBody(Some(x), Some(x), Some(x), Some(x), Some(optionType),
                                       Some(ModelTypeValue(m)), Some(x), Some(x));
            ParseOptionPricingRequest(b) == Success(OptionPricingRequest(x, x, x, x, optionType, m, x, x))
    ensures x < 0.0 ==> !ValidMarketData(MarketDataRequest(x, x, x, x, x, x, European, true, m))
  {
    EnumRoundTrips(European, m);
  }
}
