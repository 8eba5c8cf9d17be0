/** The offer card's negotiation form. Its submit handler is a straight
    chain of guards ending in one call of the `onStartNegotiation` prop, so
    it is modelled as a function from the form's state to what the handler
    does. */
module OfferCard {
  import opened Wrappers
  import opened Strings
  import opened RateForm
  import MarketplaceService

  /** What one press of the form's submit button does. */
  datatype Submission =
    | Ignored                                                      // early `return`, no alert
    | Rejected(alert: string)                                      // a validation alert
    | Started(targetRate: nat, maxRate: nat, isAIEnabled: bool)    // `onStartNegotiation(...)`

  /** The card's form state; `isAIEnabled` starts checked. */
  datatype Form = Form(targetRate: string, maxRate: string, isAIEnabled: bool)

  function InitialForm(price: int): Form {
    Form(DefaultTarget(price), DefaultMax(price), true)
  }

  /** `handleSubmit`: nothing happens without a handler or while loading;
      otherwise the rates are validated and, only when every check passes,
      the handler receives them with the AI switch. */
  function Submit(form: Form, hasHandler: bool, isLoading: bool): (r: Submission)
    ensures r == Ignored <==> !hasHandler || isLoading
    ensures r.Rejected? <==>
      hasHandler && !isLoading && ValidateRates(form.targetRate, form.maxRate).Failure?
    ensures r.Rejected? ==> r.alert == AlertText(ValidateRates(form.targetRate, form.maxRate).error)
    ensures r.Started? ==>
      && ParseDigits(form.targetRate) == Some(r.targetRate) && ParseDigits(form.maxRate) == Some(r.maxRate)
      && 0 < r.targetRate <= r.maxRate
      && r.isAIEnabled == form.isAIEnabled
  {
    if !hasHandler || isLoading then Ignored
    else match ValidateRates(form.targetRate, form.maxRate)
      case Failure(e) => Rejected(AlertText(e))
      case Success((t, m)) => Started(t, m, form.isAIEnabled)
  }

  /** Submitting the untouched card of a positive-price offer starts an
      AI-assisted negotiation at the price less 10%, capped at the price
      less 5%. */
  lemma UntouchedFormStarts(price: int)
    requires price >= 1
    ensures Submit(InitialForm(price), true, false)
            == Started(MarketplaceService.Discounted(price, 10), MarketplaceService.Discounted(price, 5), true)
  {
    DefaultRatesValidate(price);
  }
}
