/**
 * The option pricer's form: its default values, the four field validators,
 * the preset market data per stock, and what selecting a stock does to the
 * form. Numbers are only compared and copied, so they are `real`.
 */
module PricerForm {
  import opened Wrappers
  import StockSearch

  /** The values the form holds and submits. */
  datatype FormValues = FormValues(
    spot: real,
    strike: real,
    riskFreeRate: real,
    volatility: real,
    optionFamily: string,
    payoffType: string,
    pricingEngine: string,
    modelType: string,
    optionType: string,
    dividendYield: real,
    maturity: real,
    stockSymbol: Option<string>)

  /** The values the form starts with. */
  const InitialValues := FormValues(
    spot := 100.0,
    strike := 100.0,
    riskFreeRate := 0.05,
    volatility := 0.2,
    optionFamily := "european",
    payoffType := "vanilla",
    pricingEngine := "analytical",
    modelType := "black_scholes",
    optionType := "CALL",
    dividendYield := 0.0,
    maturity := 1.0,
    stockSymbol := None)

  // ---------------------------------------------------------------- validation

  const SpotMessage := "Spot price must be positive"
  const StrikeMessage := "Strike price must be positive"
  const VolatilityMessage := "Volatility cannot be negative"
  const MaturityMessage := "Maturity must be positive"

  /**
   * The form's error record after validation: a message for each of the four
   * validated fields that fails, nothing for the fields without a validator.
   */
  datatype FormErrors = FormErrors(spot: Option<string>, strike: Option<string>,
                                   volatility: Option<string>, maturity: Option<string>)
  {
    predicate HasErrors() {
      spot.Some? || strike.Some? || volatility.Some? || maturity.Some?
    }
  }

  const NoErrors := FormErrors(None, None, None, None)

  function ValidateSpot(value: real): Option<string> {
    if value <= 0.0 then Some(SpotMessage) else None
  }

  function ValidateStrike(value: real): Option<string> {
    if value <= 0.0 then Some(StrikeMessage) else None
  }

  function ValidateVolatility(value: real): Option<string> {
    if value < 0.0 then Some(VolatilityMessage) else None
  }

  function ValidateMaturity(value: real): Option<string> {
    if value <= 0.0 then Some(MaturityMessage) else None
  }

  /** Runs the four validators; the form passes when none of them reports. */
  function Validate(v: FormValues): (errors: FormErrors)
    ensures errors.HasErrors() <==> !(v.spot > 0.0 && v.strike > 0.0 && v.volatility >= 0.0 && v.maturity > 0.0)
  {
    FormErrors(ValidateSpot(v.spot), ValidateStrike(v.strike),
               ValidateVolatility(v.volatility), ValidateMaturity(v.maturity))
  }

  /** Each validator rejects exactly its own bad values, with its own fixed message. */
  lemma ValidateFieldByField(v: FormValues)
    ensures Validate(v).spot == (if v.spot <= 0.0 then Some(SpotMessage) else None)
    ensures Validate(v).strike == (if v.strike <= 0.0 then Some(StrikeMessage) else None)
    ensures Validate(v).volatility == (if v.volatility < 0.0 then Some(VolatilityMessage) else None)
    ensures Validate(v).maturity == (if v.maturity <= 0.0 then Some(MaturityMessage) else None)
  {
  }

  /** Two forms that agree on spot, strike, volatility and maturity validate alike. */
  lemma ValidateIgnoresOtherFields(v: FormValues, w: FormValues)
    requires v.spot == w.spot && v.strike == w.strike && v.volatility == w.volatility && v.maturity == w.maturity
    ensures Validate(v) == Validate(w)
  {
  }

  /** The bounds: zero volatility is accepted, zero spot, strike or maturity is not. */
  lemma ValidateBoundaries(v: FormValues)
    requires v.spot > 0.0 && v.strike > 0.0 && v.maturity > 0.0
    ensures Validate(v.(volatility := 0.0)) == NoErrors
    ensures Validate(v.(spot := 0.0, volatility := 0.0)) == NoErrors.(spot := Some(SpotMessage))
    ensures Validate(v.(strike := 0.0, volatility := 0.0)) == NoErrors.(strike := Some(StrikeMessage))
    ensures Validate(v.(maturity := 0.0, volatility := 0.0)) == NoErrors.(maturity := Some(MaturityMessage))
  {
  }

  /** The default values pass every validator. */
  lemma InitialValuesValid()
    ensures Validate(InitialValues) == NoErrors
  {
  }

  // ---------------------------------------------------------------- presets

  /** The market data copied into the form when a stock is chosen. */
  datatype StockPreset = StockPreset(price: real, volatility: real, dividendYield: real)

  const StockData: map<string, StockPreset> := map[
    "AAPL" := StockPreset(175.23, 0.22, 0.0053),
    "MSFT" := StockPreset(327.89, 0.20, 0.0082),
    "AMZN" := StockPreset(142.56, 0.25, 0.0),
    "GOOGL" := StockPreset(132.45, 0.18, 0.0),
    "TSLA" := StockPreset(245.67, 0.35, 0.0),
    "META" := StockPreset(320.54, 0.28, 0.0),
    "NVDA" := StockPreset(450.32, 0.32, 0.0037),
    "JPM" := StockPreset(142.56, 0.15, 0.0245),
    "V" := StockPreset(230.45, 0.16, 0.0075),
    "JNJ" := StockPreset(155.67, 0.12, 0.0280)]

  /** The stocks offered in the pricer's dropdown. */
  const DropdownOptions: seq<StockSearch.ComboboxItem> := [
    StockSearch.ComboboxItem("AAPL", "Apple Inc. (AAPL)"),
    StockSearch.ComboboxItem("MSFT", "Microsoft Corporation (MSFT)"),
    StockSearch.ComboboxItem("AMZN", "Amazon.com Inc. (AMZN)"),
    StockSearch.ComboboxItem("GOOGL", "Alphabet Inc. (GOOGL)"),
    StockSearch.ComboboxItem("TSLA", "Tesla Inc. (TSLA)"),
    StockSearch.ComboboxItem("META", "Meta Platforms Inc. (META)"),
    StockSearch.ComboboxItem("NVDA", "NVIDIA Corporation (NVDA)"),
    StockSearch.ComboboxItem("JPM", "JPMorgan Chase & Co. (JPM)"),
    StockSearch.ComboboxItem("V", "Visa Inc. (V)"),
    StockSearch.ComboboxItem("JNJ", "Johnson & Johnson (JNJ)")]

  /** Every preset would pass the validators it feeds: positive price, non-negative volatility. */
  lemma PresetsWellFormed()
    ensures forall s :: s in StockData ==>
              StockData[s].price > 0.0 && StockData[s].volatility >= 0.0 && StockData[s].dividendYield >= 0.0
  {
  }

  /** Every stock the dropdown offers has a preset. */
  lemma DropdownStocksHavePresets()
    ensures forall i :: 0 <= i < |DropdownOptions| ==> DropdownOptions[i].value in StockData
  {
  }

  /** Every preset is offered by the dropdown. */
  lemma PresetsAreOffered()
    ensures forall s :: s in StockData ==> exists i :: 0 <= i < |DropdownOptions| && DropdownOptions[i].value == s
  {
    forall s | s in StockData
      ensures exists i :: 0 <= i < |DropdownOptions| && DropdownOptions[i].value == s
    {
      if s == "AAPL" {
        assert DropdownOptions[0].value == s;
      } else if s == "MSFT" {
        assert DropdownOptions[1].value == s;
      } else if s == "AMZN" {
        assert DropdownOptions[2].value == s;
      } else if s == "GOOGL" {
        assert DropdownOptions[3].value == s;
      } else if s == "TSLA" {
        assert DropdownOptions[4].value == s;
      } else if s == "META" {
        assert DropdownOptions[5].value == s;
      } else if s == "NVDA" {
        assert DropdownOptions[6].value == s;
      } else if s == "JPM" {
        assert DropdownOptions[7].value == s;
      } else if s == "V" {
        assert DropdownOptions[8].value == s;
      } else if s == "JNJ" {
        assert DropdownOptions[9].value == s;
      }
    }
  }

  /** No stock is offered twice. */
  lemma DropdownValuesDistinct()
    ensures forall i, j :: 0 <= i < j < |DropdownOptions| ==> DropdownOptions[i].value != DropdownOptions[j].value
  {
  }

  // ---------------------------------------------------------------- stock selection

  /**
   * The form after the dropdown reports `symbol`: a preset symbol overwrites
   * spot, volatility, dividend yield and the stock symbol; no symbol (null or
   * the empty string) or an unknown one leaves the form as it was.
   */
  function SelectStock(v: FormValues, symbol: Option<string>): (r: FormValues)
    ensures symbol.None? || symbol.value !in StockData ==> r == v
    ensures symbol.Some? && symbol.value in StockData ==>
              && r.spot == StockData[symbol.value].price
              && r.volatility == StockData[symbol.value].volatility
              && r.dividendYield == StockData[symbol.value].dividendYield
              && r.stockSymbol == symbol
  {
    match symbol
    case Some(s) =>
      if s != "" && s in StockData then
        var preset := StockData[s];
        v.(spot := preset.price, volatility := preset.volatility, dividendYield := preset.dividendYield,
           stockSymbol := Some(s))
      else
        v
    case None => v
  }

  /** Selecting a stock never touches strike, rate, maturity or the option choices. */
  lemma SelectStockKeepsOtherFields(v: FormValues, symbol: Option<string>)
    ensures var r := SelectStock(v, symbol);
            && r.strike == v.strike && r.riskFreeRate == v.riskFreeRate && r.maturity == v.maturity
            && r.optionFamily == v.optionFamily && r.payoffType == v.payoffType
            && r.pricingEngine == v.pricingEngine && r.modelType == v.modelType && r.optionType == v.optionType
  {
  }

  /** Every stock the dropdown offers is in the table, so choosing it always loads its preset. */
  lemma DropdownSelectionLoadsPreset(v: FormValues, i: int)
    requires 0 <= i < |DropdownOptions|
    ensures var s := DropdownOptions[i].value;
            && s in StockData
            && SelectStock(v, Some(s)).stockSymbol == Some(s)
            && SelectStock(v, Some(s)).spot == StockData[s].price
  {
    DropdownStocksHavePresets();
  }

  /** Selecting the same stock twice is the same as selecting it once. */
  lemma SelectStockIdempotent(v: FormValues, symbol: Option<string>)
    ensures SelectStock(SelectStock(v, symbol), symbol) == SelectStock(v, symbol)
  {
  }

  /** A form that passes validation still passes after a stock is selected. */
  lemma SelectStockPreservesValidity(v: FormValues, symbol: Option<string>)
    requires !Validate(v).HasErrors()
    ensures !Validate(SelectStock(v, symbol)).HasErrors()
  {
    PresetsWellFormed();
  }

  // ---------------------------------------------------------------- field edits

  /** A change made through one of the form's inputs. The stock symbol has no input of its own. */
  datatype FieldEdit =
    | SetSpot(spot: real)
    | SetStrike(strike: real)
    | SetRiskFreeRate(rate: real)
    | SetVolatility(volatility: real)
    | SetDividendYield(dividendYield: real)
    | SetMaturity(maturity: real)
    | SetOptionFamily(family: string)
    | SetPayoffType(payoff: string)
    | SetOptionType(optionType: string)
    | SetModelType(model: string)

  /** The form after one input reports a new value: that field changes, nothing else. */
  function ApplyEdit(v: FormValues, e: FieldEdit): (r: FormValues)
    ensures r.stockSymbol == v.stockSymbol && r.pricingEngine == v.pricingEngine
  {
    match e
    case SetSpot(x) => v.(spot := x)
    case SetStrike(x) => v.(strike := x)
    case SetRiskFreeRate(x) => v.(riskFreeRate := x)
    case SetVolatility(x) => v.(volatility := x)
    case SetDividendYield(x) => v.(dividendYield := x)
    case SetMaturity(x) => v.(maturity := x)
    case SetOptionFamily(s) => v.(optionFamily := s)
    case SetPayoffType(s) => v.(payoffType := s)
    case SetOptionType(s) => v.(optionType := s)
    case SetModelType(s) => v.(modelType := s)
  }
}
