/** The offer details page's negotiation form: the same defaults and
    validation as the offer card, wrapped in an `isSubmitting` re-entrancy
    guard that is raised for the handler call and cleared in `finally`. */
module OfferDetails {
  import opened Wrappers
  import opened Types
  import opened RateForm
  import MarketplaceService

  const StartFailedAlert := "Failed to start negotiation. Please try again."

  /** The arguments the `onStartNegotiation` prop is called with. */
  datatype StartRequest = StartRequest(targetRate: nat, maxRate: nat, isAIEnabled: bool)

  /** The page's actions (the negotiation form and the payment wizard) are
      rendered only for an available offer, which is exactly when the
      service can open a negotiation on it. */
  lemma ActionsOnlyWhenNegotiable(offers: seq<Offer>, k: nat)
    requires k < |offers|
    requires MarketplaceService.FindOffer(offers, offers[k].id) == Some(k)
    ensures offers[k].status == Available <==> MarketplaceService.CanStartNegotiation(offers, offers[k].id)
  {
  }

  class OfferDetailsForm {
    var targetRate: string
    var maxRate: string
    var isAIEnabled: bool
    var isSubmitting: bool

    /** The initial form: the default rates of the offer's price, AI
        assistance checked, nothing in progress. */
    constructor (price: int)
      ensures targetRate == DefaultTarget(price) && maxRate == DefaultMax(price)
      ensures isAIEnabled && !isSubmitting
    {
      targetRate := DefaultTarget(price);
      maxRate := DefaultMax(price);
      isAIEnabled := true;
      isSubmitting := false;
    }

    /** `handleSubmit`. `hasHandler` says whether the prop is given and
        `handlerThrows` whether it throws; `call` is the handler invocation,
        if any, and `alert` the alert shown, if any. A submission in
        progress ignores the press; a form that fails validation shows that
        check's alert and calls nothing; a valid form is passed to the
        handler inside the guard, and a throwing handler shows the failure
        alert. The guard is down again afterwards in every case, and the
        fields are untouched. */
    method HandleSubmit(hasHandler: bool, handlerThrows: bool) returns (call: Option<StartRequest>, alert: Option<string>)
      modifies this
      ensures isSubmitting == old(isSubmitting)
      ensures targetRate == old(targetRate) && maxRate == old(maxRate) && isAIEnabled == old(isAIEnabled)
      ensures old(isSubmitting) ==> call.None? && alert.None?
      ensures !old(isSubmitting) ==>
        match ValidateRates(targetRate, maxRate)
        case Failure(e) => call.None? && alert == Some(AlertText(e))
        case Success((t, m)) =>
          && call == (if hasHandler then Some(StartRequest(t, m, isAIEnabled)) else None)
          && alert == (if hasHandler && handlerThrows then Some(StartFailedAlert) else None)
    {
      call, alert := None, None;
      if isSubmitting {
        return;
      }
      var v := ValidateRates(targetRate, maxRate);
      if v.Failure? {
        alert := Some(AlertText(v.error));
        return;
      }
      isSubmitting := true;
      if hasHandler {
        call := Some(StartRequest(v.value.0, v.value.1, isAIEnabled));
        if handlerThrows {
          alert := Some(StartFailedAlert);
        }
      }
      isSubmitting := false;
    }
  }
}
