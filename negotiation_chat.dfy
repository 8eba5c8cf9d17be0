/** The negotiation chat panel: the user's counter-offer form with its rate
    parser, the clamped automatic reply of the rate advisor, and the accept
    and decline buttons. React state becomes the fields of a
    `NegotiationChat` object; the parent's `onNegotiationUpdated` callback,
    which hands the updated negotiation back as the `negotiation` prop, is
    modelled by storing the returned negotiation in the `negotiation` field.
    The two-second timer of the automatic reply is an explicit event,
    `FireAiReply`, that may be taken once per scheduled reply. Each handler
    is one atomic step, so the `isSubmitting` flag that the handlers raise
    around their service call and clear in `finally` is back at its old
    value when the step ends; the guards that read it are kept. */
module NegotiationChat {
  import opened Wrappers
  import opened Strings
  import opened Types
  import MarketplaceService

  /** What the submit handler's guards make of the form. */
  datatype SubmitCheck =
    | Ignored              // the early `return` on an empty field or a pending submission
    | InvalidRate          // the "Please enter a valid rate" alert
    | Passed(rate: nat)    // the rate passed to `addCounterOffer`

  /** The guards of `handleSubmit`: both fields must be non-empty and no
      submission in progress; the rate is read by deleting every non-digit
      and parsing the rest, and must then be a positive number. */
  function CheckSubmission(message: string, rate: string, isSubmitting: bool): (r: SubmitCheck)
    ensures r == Ignored <==> message == [] || rate == [] || isSubmitting
    ensures r == InvalidRate <==>
      message != [] && rate != [] && !isSubmitting && (ParseDigits(rate).None? || ParseDigits(rate) == Some(0))
    ensures r.Passed? ==> r.rate > 0 && ParseDigits(rate) == Some(r.rate)
  {
    if message == [] || rate == [] || isSubmitting then Ignored
    else match ParseDigits(rate)
      case None => InvalidRate
      case Some(v) => if v <= 0 then InvalidRate else Passed(v)
  }

  /** A non-digit in the rate field, such as a thousands separator or a
      decimal point, is deleted rather than rejected: the form passes or
      fails exactly as it would without it, as long as something else was
      typed. */
  lemma SeparatorIgnored(message: string, a: string, c: char, b: string)
    requires !IsDigit(c) && a + b != []
    ensures CheckSubmission(message, a + [c] + b, false) == CheckSubmission(message, a + b, false)
  {
    ParseIgnoresNonDigit(a, c, b);
  }

  /** A positive rate written out by `toString`, as the suggestion button
      writes it into the rate field, passes the rate check unchanged. */
  lemma RenderedRateAccepted(message: string, n: int)
    requires message != [] && n > 0
    ensures CheckSubmission(message, IntToString(n), false) == Passed(n)
  {
    ParseRendered(n);
    assert IntToString(n) != [];
  }

  /** The automatic reply's rate, `Math.min(Math.max(s, targetRate), maxRate)`:
      the suggestion pulled into the configured band. */
  function Clamp(suggested: int, targetRate: int, maxRate: int): (r: int)
    ensures r <= maxRate
    ensures targetRate <= maxRate ==> targetRate <= r
    ensures targetRate <= suggested <= maxRate ==> r == suggested
    ensures suggested < targetRate <= maxRate ==> r == targetRate
    ensures suggested > maxRate ==> r == maxRate
  {
    var raised := if suggested < targetRate then targetRate else suggested;
    if raised < maxRate then raised else maxRate
  }

  /** With an inverted band (`maxRate < targetRate`) the maximum wins: the
      reply is `maxRate`, below the target. */
  lemma InvertedBandGivesMax(suggested: int, targetRate: int, maxRate: int)
    requires maxRate < targetRate
    ensures Clamp(suggested, targetRate, maxRate) == maxRate
  {
  }

  /** What a handler leaves for the user to see. */
  datatype Feedback =
    | NoChange                   // a guard returned early
    | Alert(text: string)        // `alert(...)` in a catch or a validation branch
    | Updated(n: Negotiation)    // `onNegotiationUpdated(...)` with the service's result

  const ValidRateAlert := "Please enter a valid rate"
  const SubmitFailedAlert := "Failed to submit your offer. Please try again."
  const AcceptFailedAlert := "Failed to accept the offer. Please try again."
  const RejectFailedAlert := "Failed to reject the offer. Please try again."
  const SuggestionFailedAlert := "Failed to get AI suggestion. Please try again."

  class NegotiationChat {
    const engine: MarketplaceService.NegotiationEngine
    const offerId: string
    const targetRate: int
    const maxRate: int
    var negotiation: Negotiation
    var message: string
    var rate: string
    var isSubmitting: bool
    var isAIEnabled: bool
    var aiSuggestion: Option<MarketplaceService.Suggestion>
    /** Automatic replies scheduled and not yet fired. */
    var pendingReplies: nat

    /** The initial state: empty fields, the negotiation's own AI switch, and
        the AI band taken once from the negotiation and never changed. */
    constructor (engine: MarketplaceService.NegotiationEngine, negotiation: Negotiation, offerId: string)
      ensures this.engine == engine && this.negotiation == negotiation && this.offerId == offerId
      ensures message == [] && rate == [] && !isSubmitting && aiSuggestion.None? && pendingReplies == 0
      ensures isAIEnabled == negotiation.isAIEnabled
      ensures targetRate == negotiation.targetRate && maxRate == negotiation.maxRate
    {
      this.engine := engine;
      this.negotiation := negotiation;
      this.offerId := offerId;
      targetRate, maxRate := negotiation.targetRate, negotiation.maxRate;
      message, rate, isSubmitting := [], [], false;
      isAIEnabled := negotiation.isAIEnabled;
      aiSuggestion := None;
      pendingReplies := 0;
    }

    /** The local copy is the ledger's entry for its id, as it is after
        every successful handler. */
    ghost predicate Synced()
      reads this, engine
    {
      var k := MarketplaceService.FindNegotiation(engine.negotiations, negotiation.id);
      k.Some? && engine.negotiations[k.value] == negotiation
    }

    /** The ledger holds an active negotiation under the local copy's id:
        exactly the case in which `addCounterOffer` accepts a counter-offer
        on it (see `SubmitCounterOffer`). */
    ghost predicate LedgerActive()
      reads this, engine
    {
      var k := MarketplaceService.FindNegotiation(engine.negotiations, negotiation.id);
      k.Some? && engine.negotiations[k.value].status == NegotiationStatus.Active
    }

    /** The counter-offer form is shown only while the negotiation is
        active. Read from the local copy, that is the service's own
        condition: with the copy in step with the ledger, the form is shown
        exactly when a submission from it would be accepted. */
    method CounterOfferInputShown() returns (shown: bool)
      requires Synced()
      ensures shown <==> LedgerActive()
    {
      shown := negotiation.status == NegotiationStatus.Active;
    }

    /** `handleSubmit`: validates the form, records the user's counter-offer
        (`fromAI` false), clears both fields and, when AI assistance is on,
        schedules one automatic reply. An ignored or invalid form calls no
        service; a failed call leaves the fields as typed and schedules
        nothing. */
    method HandleSubmit(now: Time) returns (f: Feedback)
      requires engine.Valid()
      modifies this, engine, engine.store
      ensures engine.Valid()
      ensures f.Updated? ==> Synced()
      ensures isSubmitting == old(isSubmitting)
      ensures isAIEnabled == old(isAIEnabled) && aiSuggestion == old(aiSuggestion)
      ensures CheckSubmission(old(message), old(rate), old(isSubmitting)) == Ignored ==> f == NoChange
      ensures CheckSubmission(old(message), old(rate), old(isSubmitting)) == InvalidRate ==>
        f == Alert(ValidRateAlert)
      ensures !CheckSubmission(old(message), old(rate), old(isSubmitting)).Passed? ==>
        && engine.negotiations == old(engine.negotiations) && engine.store.offers == old(engine.store.offers)
        && engine.nextId == old(engine.nextId)
        && message == old(message) && rate == old(rate) && negotiation == old(negotiation)
        && pendingReplies == old(pendingReplies)
      ensures var c := CheckSubmission(old(message), old(rate), old(isSubmitting));
        var k := MarketplaceService.FindNegotiation(old(engine.negotiations), old(negotiation).id);
        c.Passed? && k.Some? && old(engine.negotiations)[k.value].status == NegotiationStatus.Active ==>
          var n := old(engine.negotiations)[k.value];
          var co := CounterOffer(old(engine.nextId), old(negotiation).id, c.rate, old(message), false, now);
          && f == Updated(n.(counterOffers := n.counterOffers + [co], currentRate := c.rate, updatedAt := now))
          && negotiation == f.n
          && engine.negotiations == old(engine.negotiations)[k.value := f.n]
          && engine.store.offers == MarketplaceService.WithPrice(old(engine.store.offers), n.offerId, c.rate, now)
          && engine.nextId == old(engine.nextId) + 1
          && message == [] && rate == []
          && pendingReplies == old(pendingReplies) + (if old(isAIEnabled) then 1 else 0)
      ensures var c := CheckSubmission(old(message), old(rate), old(isSubmitting));
        var k := MarketplaceService.FindNegotiation(old(engine.negotiations), old(negotiation).id);
        c.Passed? && !(k.Some? && old(engine.negotiations)[k.value].status == NegotiationStatus.Active) ==>
          && f == Alert(SubmitFailedAlert)
          && engine.negotiations == old(engine.negotiations)
          && engine.store.offers == old(engine.store.offers)
          && engine.nextId == old(engine.nextId)
          && message == old(message) && rate == old(rate) && negotiation == old(negotiation)
          && pendingReplies == old(pendingReplies)
    {
      var c := CheckSubmission(message, rate, isSubmitting);
      if c == Ignored {
        return NoChange;
      }
      if c == InvalidRate {
        return Alert(ValidRateAlert);
      }
      f := SubmitCounterOffer(c.rate, now);
    }

    /** The part of `handleSubmit` after validation: the service call and
        the form reset on success. */
    method SubmitCounterOffer(v: nat, now: Time) returns (f: Feedback)
      requires engine.Valid()
      modifies this, engine, engine.store
      ensures engine.Valid()
      ensures f.Updated? ==> Synced()
      ensures isSubmitting == old(isSubmitting)
      ensures isAIEnabled == old(isAIEnabled) && aiSuggestion == old(aiSuggestion)
      ensures var k := MarketplaceService.FindNegotiation(old(engine.negotiations), old(negotiation).id);
        k.Some? && old(engine.negotiations)[k.value].status == NegotiationStatus.Active ==>
          var n := old(engine.negotiations)[k.value];
          var co := CounterOffer(old(engine.nextId), old(negotiation).id, v, old(message), false, now);
          && f == Updated(n.(counterOffers := n.counterOffers + [co], currentRate := v, updatedAt := now))
          && negotiation == f.n
          && engine.negotiations == old(engine.negotiations)[k.value := f.n]
          && engine.store.offers == MarketplaceService.WithPrice(old(engine.store.offers), n.offerId, v, now)
          && engine.nextId == old(engine.nextId) + 1
          && message == [] && rate == []
          && pendingReplies == old(pendingReplies) + (if old(isAIEnabled) then 1 else 0)
      ensures var k := MarketplaceService.FindNegotiation(old(engine.negotiations), old(negotiation).id);
        !(k.Some? && old(engine.negotiations)[k.value].status == NegotiationStatus.Active) ==>
          && f == Alert(SubmitFailedAlert)
          && engine.negotiations == old(engine.negotiations)
          && engine.store.offers == old(engine.store.offers)
          && engine.nextId == old(engine.nextId)
          && message == old(message) && rate == old(rate) && negotiation == old(negotiation)
          && pendingReplies == old(pendingReplies)
      ensures f.Updated? <==> old(LedgerActive())
    {
      ghost var k := MarketplaceService.FindNegotiation(engine.negotiations, negotiation.id);
      var r := engine.AddCounterOffer(negotiation.id, v, message, false, now);
      if r.Success? {
        MarketplaceService.FindNegotiationUpdate(old(engine.negotiations), negotiation.id, k.value, r.value);
        negotiation := r.value;
        message := [];
        rate := [];
        if isAIEnabled {
          pendingReplies := pendingReplies + 1;
        }
        f := Updated(r.value);
      } else {
        f := Alert(SubmitFailedAlert);
      }
    }

    /** The timer of a scheduled automatic reply fires: the advisor's
        suggestion for the offer, clamped into the AI band, is recorded as a
        counter-offer from the AI with the advisor's reasoning as its
        message. A rejected service call is not caught and changes nothing
        more. `draw` is the advisor's random number. */
    method FireAiReply(draw: real, now: Time) returns (f: Feedback)
      requires engine.Valid()
      requires pendingReplies > 0
      requires 0.0 <= draw < 1.0
      modifies this, engine, engine.store
      ensures engine.Valid()
      ensures f.Updated? ==> Synced()
      ensures pendingReplies == old(pendingReplies) - 1
      ensures message == old(message) && rate == old(rate) && isSubmitting == old(isSubmitting)
      ensures isAIEnabled == old(isAIEnabled) && aiSuggestion == old(aiSuggestion)
      ensures var s := MarketplaceService.AISuggestedRate(old(engine.store.offers), offerId, draw);
        var k := MarketplaceService.FindNegotiation(old(engine.negotiations), old(negotiation).id);
        if s.Success? && k.Some? && old(engine.negotiations)[k.value].status == NegotiationStatus.Active then
          var n := old(engine.negotiations)[k.value];
          var replyRate := Clamp(s.value.suggestedRate, targetRate, maxRate);
          var co := CounterOffer(old(engine.nextId), old(negotiation).id, replyRate, s.value.reasoning, true, now);
          && f == Updated(n.(counterOffers := n.counterOffers + [co], currentRate := replyRate, updatedAt := now))
          && negotiation == f.n
          && engine.negotiations == old(engine.negotiations)[k.value := f.n]
          && engine.store.offers == MarketplaceService.WithPrice(old(engine.store.offers), n.offerId, replyRate, now)
          && engine.nextId == old(engine.nextId) + 1
        else
          && f == NoChange
          && negotiation == old(negotiation)
          && engine.negotiations == old(engine.negotiations)
          && engine.store.offers == old(engine.store.offers)
          && engine.nextId == old(engine.nextId)
    {
      pendingReplies := pendingReplies - 1;
      var s := MarketplaceService.AISuggestedRate(engine.store.offers, offerId, draw);
      if s.Failure? {
        return NoChange;
      }
      var replyRate := Clamp(s.value.suggestedRate, targetRate, maxRate);
      ghost var k := MarketplaceService.FindNegotiation(engine.negotiations, negotiation.id);
      var r := engine.AddCounterOffer(negotiation.id, replyRate, s.value.reasoning, true, now);
      if r.Success? {
        MarketplaceService.FindNegotiationUpdate(old(engine.negotiations), negotiation.id, k.value, r.value);
        negotiation := r.value;
        f := Updated(r.value);
      } else {
        f := NoChange;
      }
    }

    /** `handleAcceptOffer` and `handleRejectOffer`: unless a submission is
        in progress, conclude the negotiation with the button's outcome. */
    method Conclude(outcome: Conclusion, failedAlert: string, now: Time) returns (f: Feedback)
      requires engine.Valid()
      modifies this, engine, engine.store
      ensures engine.Valid()
      ensures f.Updated? ==> Synced()
      ensures engine.nextId == old(engine.nextId) && isSubmitting == old(isSubmitting)
      ensures message == old(message) && rate == old(rate) && pendingReplies == old(pendingReplies)
      ensures isAIEnabled == old(isAIEnabled) && aiSuggestion == old(aiSuggestion)
      ensures old(isSubmitting) ==>
        f == NoChange && negotiation == old(negotiation)
        && engine.negotiations == old(engine.negotiations) && engine.store.offers == old(engine.store.offers)
      ensures !old(isSubmitting) ==>
        var k := MarketplaceService.FindNegotiation(old(engine.negotiations), old(negotiation).id);
        if k.Some? then
          var n := old(engine.negotiations)[k.value];
          && f == Updated(n.(status := outcome, updatedAt := now))
          && negotiation == f.n
          && engine.negotiations == old(engine.negotiations)[k.value := f.n]
          && engine.store.offers == MarketplaceService.WithStatus(old(engine.store.offers), n.offerId,
                                                                  if outcome == Accepted then Booked else Available, now)
        else
          && f == Alert(failedAlert)
          && negotiation == old(negotiation)
          && engine.negotiations == old(engine.negotiations)
          && engine.store.offers == old(engine.store.offers)
    {
      if isSubmitting {
        return NoChange;
      }
      ghost var k := MarketplaceService.FindNegotiation(engine.negotiations, negotiation.id);
      var r := engine.ConcludeNegotiation(negotiation.id, outcome, now);
      if r.Success? {
        MarketplaceService.FindNegotiationUpdate(old(engine.negotiations), negotiation.id, k.value, r.value);
        negotiation := r.value;
        f := Updated(r.value);
      } else {
        f := Alert(failedAlert);
      }
    }

    /** The Accept button concludes with `accepted`, which books the offer. */
    method HandleAcceptOffer(now: Time) returns (f: Feedback)
      requires engine.Valid()
      modifies this, engine, engine.store
      ensures engine.Valid()
      ensures f.Updated? ==> Synced()
      ensures engine.nextId == old(engine.nextId) && isSubmitting == old(isSubmitting)
      ensures message == old(message) && rate == old(rate) && pendingReplies == old(pendingReplies)
      ensures isAIEnabled == old(isAIEnabled) && aiSuggestion == old(aiSuggestion)
      ensures old(isSubmitting) ==>
        f == NoChange && negotiation == old(negotiation)
        && engine.negotiations == old(engine.negotiations) && engine.store.offers == old(engine.store.offers)
      ensures !old(isSubmitting) ==>
        var k := MarketplaceService.FindNegotiation(old(engine.negotiations), old(negotiation).id);
        if k.Some? then
          var n := old(engine.negotiations)[k.value];
          && f == Updated(n.(status := Accepted, updatedAt := now))
          && negotiation == f.n
          && engine.negotiations == old(engine.negotiations)[k.value := f.n]
          && engine.store.offers == MarketplaceService.WithStatus(old(engine.store.offers), n.offerId, Booked, now)
        else
          && f == Alert(AcceptFailedAlert)
          && negotiation == old(negotiation)
          && engine.negotiations == old(engine.negotiations)
          && engine.store.offers == old(engine.store.offers)
    {
      f := Conclude(Accepted, AcceptFailedAlert, now);
    }

    /** The Decline button concludes with `rejected`, which puts the offer
        back on the market. */
    method HandleRejectOffer(now: Time) returns (f: Feedback)
      requires engine.Valid()
      modifies this, engine, engine.store
      ensures engine.Valid()
      ensures f.Updated? ==> Synced()
      ensures engine.nextId == old(engine.nextId) && isSubmitting == old(isSubmitting)
      ensures message == old(message) && rate == old(rate) && pendingReplies == old(pendingReplies)
      ensures isAIEnabled == old(isAIEnabled) && aiSuggestion == old(aiSuggestion)
      ensures old(isSubmitting) ==>
        f == NoChange && negotiation == old(negotiation)
        && engine.negotiations == old(engine.negotiations) && engine.store.offers == old(engine.store.offers)
      ensures !old(isSubmitting) ==>
        var k := MarketplaceService.FindNegotiation(old(engine.negotiations), old(negotiation).id);
        if k.Some? then
          var n := old(engine.negotiations)[k.value];
          && f == Updated(n.(status := Rejected, updatedAt := now))
          && negotiation == f.n
          && engine.negotiations == old(engine.negotiations)[k.value := f.n]
          && engine.store.offers == MarketplaceService.WithStatus(old(engine.store.offers), n.offerId, Available, now)
        else
          && f == Alert(RejectFailedAlert)
          && negotiation == old(negotiation)
          && engine.negotiations == old(engine.negotiations)
          && engine.store.offers == old(engine.store.offers)
    {
      f := Conclude(Rejected, RejectFailedAlert, now);
    }

    /** `toggleAIControl`: flips the local switch only; the negotiation
        record keeps its own flag, and replies already scheduled still
        fire. */
    method ToggleAIControl()
      modifies this
      ensures isAIEnabled == !old(isAIEnabled)
      ensures negotiation == old(negotiation) && message == old(message) && rate == old(rate)
      ensures isSubmitting == old(isSubmitting) && pendingReplies == old(pendingReplies)
      ensures aiSuggestion == old(aiSuggestion)
    {
      isAIEnabled := !isAIEnabled;
    }

    /** `fetchAiSuggestion`: shows the advisor's suggestion and writes its
        rate into the rate field. */
    method FetchAiSuggestion(draw: real) returns (f: Feedback)
      requires 0.0 <= draw < 1.0
      modifies this
      ensures negotiation == old(negotiation) && message == old(message)
      ensures isSubmitting == old(isSubmitting) && pendingReplies == old(pendingReplies)
      ensures isAIEnabled == old(isAIEnabled)
      ensures var s := MarketplaceService.AISuggestedRate(engine.store.offers, offerId, draw);
        if s.Success? then
          f == NoChange && aiSuggestion == Some(s.value) && rate == IntToString(s.value.suggestedRate)
        else
          f == Alert(SuggestionFailedAlert) && aiSuggestion == old(aiSuggestion) && rate == old(rate)
    {
      var s := MarketplaceService.AISuggestedRate(engine.store.offers, offerId, draw);
      if s.Success? {
        aiSuggestion := Some(s.value);
        rate := IntToString(s.value.suggestedRate);
        f := NoChange;
      } else {
        f := Alert(SuggestionFailedAlert);
      }
    }
  }
}
