/**
 * The option pricer page's state: the form record, the validation errors the
 * form shows, the last pricing result and the request error message. The
 * pricing request itself is outside the model: its outcome is an input.
 */
module PricerPage {
  import opened Wrappers
  import opened PricerForm

  datatype Greeks = Greeks(delta: real, gamma: real, theta: real, vega: real, rho: real)

  /** What the pricing endpoint answers. */
  datatype PricingResult = PricingResult(price: real, greeks: Greeks)

  /** How a pricing request settled. */
  datatype RequestOutcome = Succeeded(data: PricingResult) | Failed

  const PricingErrorMessage := "Error pricing option. Please try again."

  /** The form's errors once `edit` changed its input: that input's error is cleared. */
  function ClearEditedError(errors: FormErrors, edit: FieldEdit): (r: FormErrors)
    ensures r.HasErrors() ==> errors.HasErrors()
    ensures edit.SetSpot? ==> r == errors.(spot := None)
    ensures edit.SetStrike? ==> r == errors.(strike := None)
    ensures edit.SetVolatility? ==> r == errors.(volatility := None)
    ensures edit.SetMaturity? ==> r == errors.(maturity := None)
    ensures !(edit.SetSpot? || edit.SetStrike? || edit.SetVolatility? || edit.SetMaturity?) ==> r == errors
  {
    match edit
    case SetSpot(_) => errors.(spot := None)
    case SetStrike(_) => errors.(strike := None)
    case SetVolatility(_) => errors.(volatility := None)
    case SetMaturity(_) => errors.(maturity := None)
    case _ => errors
  }

  class Pricer {
    var form: FormValues
    var fieldErrors: FormErrors
    var result: Option<PricingResult>
    var error: Option<string>

    /**
     * The only error message ever shown is the fixed one, and the stock symbol
     * in the form is always null or one of the presets.
     */
    ghost predicate Valid()
      reads this
    {
      && (error.None? || error == Some(PricingErrorMessage))
      && (form.stockSymbol.None? || form.stockSymbol.value in StockData)
    }

    /** The page as first shown: default values, no errors, no result. */
    constructor ()
      ensures Valid()
      ensures form == InitialValues && fieldErrors == NoErrors && result == None && error == None
    {
      form := InitialValues;
      fieldErrors := NoErrors;
      result := None;
      error := None;
    }

    /**
     * The stock dropdown reports a choice (`None` when it is cleared). Loading a
     * preset replaces the form's values, which clears the errors shown.
     */
    method HandleStockSelect(symbol: Option<string>)
      requires Valid()
      modifies this
      ensures Valid()
      ensures form == SelectStock(old(form), symbol)
      ensures fieldErrors == if symbol.Some? && symbol.value in StockData then NoErrors else old(fieldErrors)
      ensures result == old(result) && error == old(error)
    {
      match symbol
      case Some(s) =>
        if s != "" && s in StockData {
          form := SelectStock(form, symbol);
          fieldErrors := NoErrors;
        }
      case None =>
    }

    /** One of the form's inputs reports a new value. */
    method EditField(edit: FieldEdit)
      requires Valid()
      modifies this
      ensures Valid()
      ensures form == ApplyEdit(old(form), edit)
      ensures fieldErrors == ClearEditedError(old(fieldErrors), edit)
      ensures result == old(result) && error == old(error)
    {
      form := ApplyEdit(form, edit);
      fieldErrors := ClearEditedError(fieldErrors, edit);
    }

    /**
     * The submit button: the validators run and their errors are shown; only a
     * form without errors reaches the submit handler, which clears the request
     * error and sends the form's values, returned here as `sent`.
     */
    method Submit() returns (sent: Result<FormValues, FormErrors>)
      requires Valid()
      modifies this
      ensures Valid()
      ensures fieldErrors == Validate(old(form))
      ensures fieldErrors.HasErrors() ==> sent == Failure(fieldErrors) && error == old(error)
      ensures !fieldErrors.HasErrors() ==> sent == Success(old(form)) && error == None
      ensures form == old(form) && result == old(result)
    {
      fieldErrors := Validate(form);
      if fieldErrors.HasErrors() {
        sent := Failure(fieldErrors);
      } else {
        error := None;
        sent := Success(form);
      }
    }

    /** The request succeeded: its answer becomes the result shown. */
    method OnSuccess(data: PricingResult)
      requires Valid()
      modifies this
      ensures Valid()
      ensures result == Some(data)
      ensures form == old(form) && fieldErrors == old(fieldErrors) && error == old(error)
    {
      result := Some(data);
    }

    /** The request failed: the fixed message is shown and any earlier result stays. */
    method OnError()
      requires Valid()
      modifies this
      ensures Valid()
      ensures error == Some(PricingErrorMessage)
      ensures form == old(form) && fieldErrors == old(fieldErrors) && result == old(result)
    {
      error := Some(PricingErrorMessage);
    }

    /** A submit whose request settles with `outcome` before anything else happens. */
    method SubmitAndSettle(outcome: RequestOutcome) returns (sent: Result<FormValues, FormErrors>)
      requires Valid()
      modifies this
      ensures Valid()
      ensures form == old(form) && fieldErrors == Validate(old(form))
      ensures sent.Failure? <==> Validate(old(form)).HasErrors()
      ensures sent.Success? ==> sent.value == old(form)
      ensures sent.Failure? ==> result == old(result) && error == old(error)
      ensures sent.Success? && outcome.Succeeded? ==> result == Some(outcome.data) && error == None
      ensures sent.Success? && outcome.Failed? ==> result == old(result) && error == Some(PricingErrorMessage)
    {
      sent := Submit();
      if sent.Success? {
        match outcome
        case Succeeded(data) => OnSuccess(data);
        case Failed => OnError();
      }
    }
  }

  /** A session: defaults submit, the request fails, a preset is chosen, and the retry succeeds. */
  method PricerSession(answer: PricingResult)
  {
    var page := new Pricer();
    InitialValuesValid();
    var sent := page.SubmitAndSettle(Failed);
    assert sent == Success(InitialValues);
    assert page.error == Some(PricingErrorMessage) && page.result == None;
    page.HandleStockSelect(Some("TSLA"));
    assert page.form.spot == 245.67 && page.form.strike == 100.0 && page.form.stockSymbol == Some("TSLA");
    sent := page.SubmitAndSettle(Succeeded(answer));
    assert sent.Success? && sent.value.spot == 245.67;
    assert page.result == Some(answer) && page.error == None;
    page.EditField(SetMaturity(0.0));
    sent := page.Submit();
    assert sent == Failure(NoErrors.(maturity := Some(MaturityMessage)));
    assert page.result == Some(answer);
  }
}
