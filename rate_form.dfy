/** The target/maximum rate form that the offer card and the offer details
    page both show before a negotiation starts: its default values, derived
    from the offer's price, and its three-step validation. */
module RateForm {
  import opened Wrappers
  import opened Strings
  import MarketplaceService

  /** The three validation alerts, in the order they are checked. */
  datatype RateError = InvalidTarget | InvalidMax | MaxBelowTarget

  function AlertText(e: RateError): string {
    match e
    case InvalidTarget => "Please enter a valid target rate"
    case InvalidMax => "Please enter a valid maximum rate"
    case MaxBelowTarget => "Maximum rate cannot be lower than target rate"
  }

  /** A field that reads as a positive number once its non-digits are
      deleted. */
  predicate PositiveField(text: string) {
    ParseDigits(text).Some? && ParseDigits(text).value > 0
  }

  /** The checks of the two `handleSubmit`s: the target must read as a
      positive number, then the maximum must, then the maximum must not be
      below the target. The first failing check decides the alert. */
  function ValidateRates(targetText: string, maxText: string): (r: Result<(nat, nat), RateError>)
    ensures r.Success? <==>
      PositiveField(targetText) && PositiveField(maxText)
      && ParseDigits(targetText).value <= ParseDigits(maxText).value
    ensures r.Success? ==>
      && ParseDigits(targetText) == Some(r.value.0) && ParseDigits(maxText) == Some(r.value.1)
      && 0 < r.value.0 <= r.value.1
    ensures r == Failure(InvalidTarget) <==> !PositiveField(targetText)
    ensures r == Failure(InvalidMax) <==> PositiveField(targetText) && !PositiveField(maxText)
  {
    var target := ParseDigits(targetText);
    var max := ParseDigits(maxText);
    if target.None? || target.value <= 0 then Failure(InvalidTarget)
    else if max.None? || max.value <= 0 then Failure(InvalidMax)
    else if max.value < target.value then Failure(MaxBelowTarget)
    else Success((target.value, max.value))
  }

  /** The initial target text: the price less 10%, rounded and written out
      by `toString`. */
  function DefaultTarget(price: int): string {
    IntToString(MarketplaceService.Round(price as real * 0.9))
  }

  /** The initial maximum text: the price less 5%, likewise. */
  function DefaultMax(price: int): string {
    IntToString(MarketplaceService.Round(price as real * 0.95))
  }

  /** The defaults of a positive price pass validation untouched: the form
      submits the price less 10% as target and less 5% as maximum, and
      target <= maximum <= price. */
  lemma DefaultRatesValidate(price: int)
    requires price >= 1
    ensures var t := MarketplaceService.Discounted(price, 10);
      var m := MarketplaceService.Discounted(price, 5);
      && ValidateRates(DefaultTarget(price), DefaultMax(price)) == Success((t, m))
      && 0 < t <= m <= price
  {
    var t := MarketplaceService.Discounted(price, 10);
    var m := MarketplaceService.Discounted(price, 5);
    DefaultRatesAreDiscounts(price);
    DiscountsOrdered(price);
    ParseRendered(t);
    ParseRendered(m);
  }

  /** The default texts are the price less 10% and less 5%. */
  lemma DefaultRatesAreDiscounts(price: int)
    ensures DefaultTarget(price) == IntToString(MarketplaceService.Discounted(price, 10))
    ensures DefaultMax(price) == IntToString(MarketplaceService.Discounted(price, 5))
  {
    MarketplaceService.PercentOff(price, 10, 0.9);
    MarketplaceService.PercentOff(price, 5, 0.95);
  }

  /** For a positive price, 0 < price less 10% <= price less 5% <= price. */
  lemma DiscountsOrdered(price: int)
    requires price >= 1
    ensures 0 < MarketplaceService.Discounted(price, 10)
    ensures MarketplaceService.Discounted(price, 10) <= MarketplaceService.Discounted(price, 5) <= price
  {
    MarketplaceService.DiscountedMonotone(price, 5, 10);
    MarketplaceService.DiscountedMonotone(price, 0, 5);
    MarketplaceService.RoundInteger(price);
    assert MarketplaceService.Discounted(price, 0) == price by {
      assert price as real * (100 - 0) as real / 100.0 == price as real;
    }
  }

  /** A zero price gives "0" in both fields, which the first check
      rejects. */
  lemma ZeroPriceDefaultsRejected()
    ensures ValidateRates(DefaultTarget(0), DefaultMax(0)) == Failure(InvalidTarget)
  {
    DefaultRatesAreDiscounts(0);
    MarketplaceService.RoundInteger(0);
    assert MarketplaceService.Discounted(0, 10) == 0 && MarketplaceService.Discounted(0, 5) == 0;
    ParseRendered(0);
  }
}
