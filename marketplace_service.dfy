/** The marketplace service: the offer catalogue, the negotiation ledger that
    updates it, the read-only getters and the AI rate advisor. The module-level
    arrays of the service become the fields of two objects: `OfferStore` (the
    catalogue, shared with the team service) and `NegotiationEngine` (the
    negotiations). Each service call is one atomic step; its simulated latency
    is not modelled. */
module MarketplaceService {
  import opened Wrappers
  import opened Seqs
  import opened Strings
  import opened Types

  // ---------------------------------------------------------------------
  // Numbers

  /** `Math.round(x)` on an exact value: halves round up. */
  function Round(x: real): (r: int)
    ensures x - 0.5 < r as real <= x + 0.5
  {
    (x + 0.5).Floor
  }

  lemma RoundMonotone(x: real, y: real)
    requires x <= y
    ensures Round(x) <= Round(y)
  {
  }

  lemma RoundInteger(n: int)
    ensures Round(n as real) == n
  {
  }

  /** `getRandomInt(min, max)`, with `draw` the value of `Math.random()`. */
  function RandomInt(min: int, max: int, draw: real): (r: int)
    requires min <= max
    requires 0.0 <= draw < 1.0
    ensures min <= r <= max
  {
    var span := (max - min + 1) as real;
    assert 0.0 <= draw * span < span by {
      assert draw * span < 1.0 * span;
    }
    (draw * span).Floor + min
  }

  /** Every value of the range is drawn by some `Math.random()` value. */
  lemma RandomIntCovers(min: int, max: int, k: int)
    requires min <= k <= max
    ensures RandomInt(min, max, (k - min) as real / (max - min + 1) as real) == k
  {
    var span := (max - min + 1) as real;
    var draw := (k - min) as real / span;
    assert draw * span == (k - min) as real;
  }

  // ---------------------------------------------------------------------
  // The offer catalogue and its getters

  /** `mockOffers`: the one catalogue of offers, shared by the negotiation
      engine and the team engine. */
  class OfferStore {
    var offers: seq<Offer>

    constructor (seed: seq<Offer>)
      ensures offers == seed
    {
      offers := seed;
    }
  }

  /** `mockOffers.find(o => o.id === offerId)`, as a position. */
  function FindOffer(offers: seq<Offer>, offerId: string): Option<nat> {
    FirstIndex(offers, (o: Offer) => o.id == offerId)
  }

  /** `getOfferById`: a copy of the first offer with the id, or null. */
  function GetOfferById(offers: seq<Offer>, offerId: string): (r: Option<Offer>)
    ensures r.Some? ==> r.value in offers && r.value.id == offerId
    ensures r.None? <==> forall i :: 0 <= i < |offers| ==> offers[i].id != offerId
  {
    match FindOffer(offers, offerId)
    case None => None
    case Some(i) => Some(offers[i])
  }

  /** `getOffersByType`: the catalogue is the concatenation of the four
      per-type arrays, which hold the same objects, so the per-type array is
      the catalogue filtered by type. */
  function OffersByType(offers: seq<Offer>, t: OfferType): (r: seq<Offer>)
    ensures forall i :: 0 <= i < |r| ==> r[i] in offers && r[i].Type() == t
    ensures forall i :: 0 <= i < |offers| && offers[i].Type() == t ==> offers[i] in r
  {
    Filter(offers, (o: Offer) => o.Type() == t)
  }

  /** The four per-type lists partition the catalogue: together they hold
      exactly as many offers as `getAllOffers` returns. */
  lemma {:induction false} TypeListsPartition(offers: seq<Offer>)
    ensures |OffersByType(offers, Cargo)| + |OffersByType(offers, Vehicle)|
          + |OffersByType(offers, OfferType.Warehouse)| + |OffersByType(offers, Service)| == |offers|
  {
    if |offers| > 0 {
      TypeListsPartition(offers[1..]);
    }
  }

  /** The offer with the given id exists and is open for negotiation: the
      condition under which `createNegotiation` succeeds. */
  predicate CanStartNegotiation(offers: seq<Offer>, offerId: string) {
    var k := FindOffer(offers, offerId);
    k.Some? && offers[k.value].status == Available
  }

  // ---------------------------------------------------------------------
  // Negotiations

  /** The ledger keeps `currentRate` equal to the rate of the latest
      counter-offer, and no negotiation is without its opening offer. */
  predicate Coherent(n: Negotiation) {
    |n.counterOffers| > 0 && n.currentRate == n.counterOffers[|n.counterOffers| - 1].rate
  }

  /** `mockNegotiations.find(n => n.id === negotiationId)`, as a position. */
  function FindNegotiation(negotiations: seq<Negotiation>, negotiationId: nat): Option<nat> {
    FirstIndex(negotiations, (n: Negotiation) => n.id == negotiationId)
  }

  /** Writing a negotiation back under its own id keeps it findable at the
      same position. */
  lemma FindNegotiationUpdate(negotiations: seq<Negotiation>, negotiationId: nat, k: nat, n: Negotiation)
    requires FindNegotiation(negotiations, negotiationId) == Some(k) && n.id == negotiationId
    ensures FindNegotiation(negotiations[k := n], negotiationId) == Some(k)
  {
    FirstIndexUpdate(negotiations, (m: Negotiation) => m.id == negotiationId, k, n);
  }

  /** The text of the opening counter-offer. */
  function InitialOfferMessage(targetRate: int): string {
    "Initial offer: " + IntToString(targetRate)
  }

  /** The catalogue after `addCounterOffer` mirrors a rate into the linked
      offer: that offer, if it exists, takes the rate as its price. */
  function WithPrice(offers: seq<Offer>, offerId: string, rate: int, now: Time): (r: seq<Offer>)
    ensures |r| == |offers|
    ensures forall i :: 0 <= i < |offers| && (FindOffer(offers, offerId).None? || i != FindOffer(offers, offerId).value)
                        ==> r[i] == offers[i]
    ensures FindOffer(offers, offerId).Some? ==>
      r[FindOffer(offers, offerId).value] == offers[FindOffer(offers, offerId).value].(price := rate, updatedAt := now)
  {
    match FindOffer(offers, offerId)
    case None => offers
    case Some(j) => offers[j := offers[j].(price := rate, updatedAt := now)]
  }

  /** The catalogue after a status change of the offer with the id, if it
      exists. */
  function WithStatus(offers: seq<Offer>, offerId: string, status: OfferStatus, now: Time): (r: seq<Offer>)
    ensures |r| == |offers|
    ensures forall i :: 0 <= i < |offers| && (FindOffer(offers, offerId).None? || i != FindOffer(offers, offerId).value)
                        ==> r[i] == offers[i]
    ensures FindOffer(offers, offerId).Some? ==>
      r[FindOffer(offers, offerId).value] == offers[FindOffer(offers, offerId).value].(status := status, updatedAt := now)
  {
    match FindOffer(offers, offerId)
    case None => offers
    case Some(j) => offers[j := offers[j].(status := status, updatedAt := now)]
  }

  /** `mockNegotiations` and the `createNegotiation`, `addCounterOffer` and
      `concludeNegotiation` calls that update it and the shared catalogue.
      `nextId` is the fresh-id source standing for `Date.now()`. */
  class NegotiationEngine {
    const store: OfferStore
    var negotiations: seq<Negotiation>
    var nextId: nat

    ghost predicate Valid()
      reads this
    {
      forall i :: 0 <= i < |negotiations| ==>
        Coherent(negotiations[i]) && negotiations[i].id < nextId
    }

    constructor (store: OfferStore, seed: seq<Negotiation>, firstId: nat)
      requires forall i :: 0 <= i < |seed| ==> Coherent(seed[i]) && seed[i].id < firstId
      ensures Valid()
      ensures this.store == store && negotiations == seed && nextId == firstId
    {
      this.store := store;
      negotiations := seed;
      nextId := firstId;
    }

    /** `createNegotiation`: opens a negotiation on an available offer. It
        fails, before writing anything, when the offer is missing or not
        available; otherwise the offer, and only it, becomes `negotiating`
        and the new negotiation, whose only counter-offer is the opening ask
        at the target rate, is appended to the ledger. */
    method CreateNegotiation(offerId: string, offerType: OfferType, targetRate: int, maxRate: int,
                             isAIEnabled: bool, now: Time)
      returns (r: Result<Negotiation, Error>)
      requires Valid()
      modifies this, store
      ensures Valid()
      ensures r.Success? <==> CanStartNegotiation(old(store.offers), offerId)
      ensures FindOffer(old(store.offers), offerId).None? ==> r == Failure(OfferNotFound(offerId))
      ensures FindOffer(old(store.offers), offerId).Some? && r.Failure? ==> r.error == OfferNotAvailable
      ensures r.Failure? ==>
        store.offers == old(store.offers) && negotiations == old(negotiations) && nextId == old(nextId)
      ensures r.Success? ==>
        var i := FindOffer(old(store.offers), offerId).value;
        var o := old(store.offers)[i];
        var id := old(nextId);
        && store.offers == old(store.offers)[i := o.(status := Negotiating)]
        && r.value == Negotiation(id, offerId, offerType, o.price, targetRate,
                                  [CounterOffer(id + 1, id, targetRate, InitialOfferMessage(targetRate), false, now)],
                                  NegotiationStatus.Active, now, now, isAIEnabled, targetRate, maxRate)
        && negotiations == old(negotiations) + [r.value]
        && FindNegotiation(negotiations, id) == Some(|old(negotiations)|)
        && nextId == id + 2
    {
      var k := FindOffer(store.offers, offerId);
      if k.None? {
        return Failure(OfferNotFound(offerId));
      }
      var offer := store.offers[k.value];
      if offer.status != Available {
        return Failure(OfferNotAvailable);
      }

      store.offers := store.offers[k.value := offer.(status := Negotiating)];

      var id := nextId;
      var opening := CounterOffer(id + 1, id, targetRate, InitialOfferMessage(targetRate), false, now);
      var n := Negotiation(id, offerId, offerType, offer.price, targetRate, [opening],
                           NegotiationStatus.Active, now, now, isAIEnabled, targetRate, maxRate);
      FirstIndexAppended(negotiations, n, (m: Negotiation) => m.id == id);
      negotiations := negotiations + [n];
      nextId := nextId + 2;
      r := Success(n);
    }

    /** `addCounterOffer`: appends one counter-offer to an active
        negotiation, makes its rate the current rate and mirrors it into the
        linked offer's price. It fails, before writing anything, for an
        unknown id and for a negotiation that is no longer active. No bound
        is enforced on the rate. */
    method AddCounterOffer(negotiationId: nat, rate: int, message: string, fromAI: bool, now: Time)
      returns (r: Result<Negotiation, Error>)
      requires Valid()
      modifies this, store
      ensures Valid()
      ensures FindNegotiation(old(negotiations), negotiationId).None? ==>
        r == Failure(NegotiationNotFound(negotiationId))
      ensures FindNegotiation(old(negotiations), negotiationId).Some? ==>
        var n := old(negotiations)[FindNegotiation(old(negotiations), negotiationId).value];
        (r.Success? <==> n.status == NegotiationStatus.Active)
        && (r.Failure? ==> r.error == NegotiationNotActive)
      ensures r.Failure? ==>
        store.offers == old(store.offers) && negotiations == old(negotiations) && nextId == old(nextId)
      ensures r.Success? ==>
        var k := FindNegotiation(old(negotiations), negotiationId).value;
        var n := old(negotiations)[k];
        var c := CounterOffer(old(nextId), negotiationId, rate, message, fromAI, now);
        && r.value == n.(counterOffers := n.counterOffers + [c], currentRate := rate, updatedAt := now)
        && negotiations == old(negotiations)[k := r.value]
        && nextId == old(nextId) + 1
        && store.offers == WithPrice(old(store.offers), n.offerId, rate, now)
    {
      var k := FindNegotiation(negotiations, negotiationId);
      if k.None? {
        return Failure(NegotiationNotFound(negotiationId));
      }
      var n := negotiations[k.value];
      if n.status != NegotiationStatus.Active {
        return Failure(NegotiationNotActive);
      }

      var c := CounterOffer(nextId, negotiationId, rate, message, fromAI, now);
      nextId := nextId + 1;
      var updated := n.(counterOffers := n.counterOffers + [c], currentRate := rate, updatedAt := now);
      negotiations := negotiations[k.value := updated];

      var j := FindOffer(store.offers, n.offerId);
      if j.Some? {
        var offer := store.offers[j.value];
        store.offers := store.offers[j.value := offer.(price := rate, updatedAt := now)];
      }
      r := Success(updated);
    }

    /** `concludeNegotiation`: sets the outcome and puts the linked offer in
        `booked` when accepted and back in `available` otherwise. It fails
        only for an unknown id: a negotiation that is already concluded is
        concluded again. */
    method ConcludeNegotiation(negotiationId: nat, status: Conclusion, now: Time)
      returns (r: Result<Negotiation, Error>)
      requires Valid()
      modifies this, store
      ensures Valid()
      ensures nextId == old(nextId)
      ensures r.Success? <==> FindNegotiation(old(negotiations), negotiationId).Some?
      ensures r.Failure? ==>
        r == Failure(NegotiationNotFound(negotiationId))
        && store.offers == old(store.offers) && negotiations == old(negotiations)
      ensures r.Success? ==>
        var k := FindNegotiation(old(negotiations), negotiationId).value;
        var n := old(negotiations)[k];
        && r.value == n.(status := status, updatedAt := now)
        && negotiations == old(negotiations)[k := r.value]
        && store.offers == WithStatus(old(store.offers), n.offerId, if status == Accepted then Booked else Available, now)
    {
      var k := FindNegotiation(negotiations, negotiationId);
      if k.None? {
        return Failure(NegotiationNotFound(negotiationId));
      }
      var n := negotiations[k.value];
      var updated := n.(status := status, updatedAt := now);
      negotiations := negotiations[k.value := updated];

      var j := FindOffer(store.offers, n.offerId);
      if j.Some? {
        var offer := store.offers[j.value];
        store.offers := store.offers[j.value := offer.(
          status := if status == Accepted then Booked else Available,
          updatedAt := now)];
      }
      r := Success(updated);
    }
  }

  /** `getNegotiationById`: a copy of the first negotiation with the id. */
  function GetNegotiationById(negotiations: seq<Negotiation>, negotiationId: nat): (r: Option<Negotiation>)
    ensures r.Some? ==> r.value in negotiations && r.value.id == negotiationId
    ensures r.None? <==> forall i :: 0 <= i < |negotiations| ==> negotiations[i].id != negotiationId
  {
    match FindNegotiation(negotiations, negotiationId)
    case None => None
    case Some(i) => Some(negotiations[i])
  }

  /** Most recently updated first. */
  ghost predicate NewestFirst(s: seq<Negotiation>) {
    forall i, j :: 0 <= i < j < |s| ==> s[i].updatedAt >= s[j].updatedAt
  }

  /** Inserts `n` into a newest-first list, ahead of every entry that is not
      newer than it. */
  function InsertByUpdated(n: Negotiation, s: seq<Negotiation>): (r: seq<Negotiation>)
    ensures multiset(r) == multiset(s) + multiset{n}
  {
    if |s| == 0 then [n]
    else if s[0].updatedAt <= n.updatedAt then [n] + s
    else
      assert s == [s[0]] + s[1..];
      [s[0]] + InsertByUpdated(n, s[1..])
  }

  lemma {:induction false} InsertKeepsNewestFirst(n: Negotiation, s: seq<Negotiation>)
    requires NewestFirst(s)
    ensures NewestFirst(InsertByUpdated(n, s))
  {
    if |s| > 0 && n.updatedAt < s[0].updatedAt {
      var rest := InsertByUpdated(n, s[1..]);
      InsertKeepsNewestFirst(n, s[1..]);
      forall i | 0 <= i < |rest|
        ensures rest[i].updatedAt <= s[0].updatedAt
      {
        assert rest[i] in multiset(rest);
        assert rest[i] == n || rest[i] in multiset(s[1..]);
      }
    }
  }

  /** `getNegotiations`: every negotiation, most recently updated first. */
  function GetNegotiations(s: seq<Negotiation>): (r: seq<Negotiation>)
    ensures multiset(r) == multiset(s)
    ensures NewestFirst(r)
  {
    if |s| == 0 then []
    else
      assert s == [s[0]] + s[1..];
      var rest := GetNegotiations(s[1..]);
      InsertKeepsNewestFirst(s[0], rest);
      InsertByUpdated(s[0], rest)
  }

  // ---------------------------------------------------------------------
  // AI rate advisor

  datatype Confidence = High | Medium | Low

  datatype Suggestion = Suggestion(suggestedRate: int, confidence: Confidence, reasoning: string)

  /** The advisor's policy table: the range of the discount, in percent, and
      the confidence, per offer type. */
  function DiscountRange(t: OfferType): (int, int) {
    match t
    case Cargo => (5, 12)
    case Vehicle => (8, 8)
    case Warehouse => (15, 15)
    case Service => (10, 10)
  }

  function ConfidenceOf(t: OfferType): Confidence {
    match t
    case Cargo => High
    case Vehicle => Medium
    case Warehouse => High
    case Service => Low
  }

  /** The price less `percent` per cent, rounded. */
  function Discounted(price: int, percent: int): int {
    Round(price as real * (100 - percent) as real / 100.0)
  }

  /** `(num / den).toFixed(2)` on the exact quotient. */
  function FixedTwo(num: int, den: int): string {
    if den == 0 then (if num > 0 then "Infinity" else if num < 0 then "-Infinity" else "NaN")
    else
      var a: nat := if num < 0 then -num else num;
      var b: nat := if den < 0 then -den else den;
      var cents := Cents(a, b);
      var sign := if (num < 0) != (den < 0) && num != 0 then "-" else "";
      sign + NatToString(cents / 100) + "." + TwoDigits(cents % 100)
  }

  /** `a / b` in hundredths, rounded half up. */
  function Cents(a: nat, b: nat): nat
    requires b > 0
  {
    (200 * a + b) / (2 * b)
  }

  /** The two digits of a number below 100, with a leading zero. */
  function TwoDigits(c: nat): string
    requires c < 100
  {
    [DigitChar(c / 10), DigitChar(c % 10)]
  }

  /** The advisor's explanation; `percent` is the discount it applied. */
  function Reasoning(o: Offer, percent: int): string {
    match o.details
    case CargoDetails(cargoType, distance) =>
      "Based on current market conditions for " + cargoType + ", rates along this lane are trending "
      + IntToString(percent) + "% lower than listed prices. Historical data suggests $"
      + FixedTwo(o.price, distance) + "/mile is competitive."
    case VehicleDetails(vehicleType) =>
      "Current demand for " + vehicleType + " vehicles is moderate. You can negotiate a competitive "
      + "rate approximately 8% below asking price based on similar routes."
    case WarehouseDetails(warehouseType) =>
      warehouseType + " warehouse space in " + o.city + " currently has 15% vacancy rate. "
      + "Negotiate for a 15% discount for longer-term commitments."
    case ServiceDetails(serviceType) =>
      "The market for " + serviceType + " services is competitive but hard to predict. Suggest "
      + "starting with a 10% discount request with room for negotiation."
  }

  /** The rate, discount and confidence the advisor's `switch` picks for an
      offer: its type's discount from the policy table, applied to the
      offer's current price. */
  function Advice(offer: Offer, draw: real): (a: (int, int, Confidence))
    requires 0.0 <= draw < 1.0
    ensures var (lo, hi) := DiscountRange(offer.Type());
      && lo <= a.1 <= hi
      && a.0 == Discounted(offer.price, a.1)
      && a.2 == ConfidenceOf(offer.Type())
  {
    var baseRate := offer.price as real;
    match offer.details
    case CargoDetails(_, _) =>
      var percent := RandomInt(5, 12, draw);
      var discount := percent as real / 100.0;
      PercentOff(offer.price, percent, 1.0 - discount);
      (Round(baseRate * (1.0 - discount)), percent, High)
    case VehicleDetails(_) =>
      PercentOff(offer.price, 8, 0.92);
      (Round(baseRate * 0.92), 8, Medium)
    case WarehouseDetails(_) =>
      PercentOff(offer.price, 15, 0.85);
      (Round(baseRate * 0.85), 15, High)
    case ServiceDetails(_) =>
      PercentOff(offer.price, 10, 0.90);
      (Round(baseRate * 0.90), 10, Low)
  }

  /** `getAISuggestedRate`, with `draw` the `Math.random()` value behind the
      cargo discount. It reads the catalogue and changes nothing; it fails
      for an unknown offer, and otherwise applies its type's discount from
      the policy table to the offer's current price, with its confidence. */
  function AISuggestedRate(offers: seq<Offer>, offerId: string, draw: real): (r: Result<Suggestion, Error>)
    requires 0.0 <= draw < 1.0
    ensures r.Failure? <==> FindOffer(offers, offerId).None?
    ensures r.Failure? ==> r.error == OfferNotFound(offerId)
    ensures r.Success? ==>
      var o := offers[FindOffer(offers, offerId).value];
      var (lo, hi) := DiscountRange(o.Type());
      && r.value.confidence == ConfidenceOf(o.Type())
      && exists d :: lo <= d <= hi && r.value.suggestedRate == Discounted(o.price, d)
  {
    var k := FindOffer(offers, offerId);
    if k.None? then Failure(OfferNotFound(offerId))
    else
      var offer := offers[k.value];
      var (rate, percent, confidence) := Advice(offer, draw);
      Success(Suggestion(rate, confidence, Reasoning(offer, percent)))
  }

  /** Multiplying by `factor`, one less `percent` per cent, is taking
      `percent` per cent off, so the rounded results agree. */
  lemma PercentOff(price: int, percent: int, factor: real)
    requires factor == 1.0 - percent as real / 100.0
    ensures Round(price as real * factor) == Discounted(price, percent)
  {
    assert price as real * factor == price as real * (100 - percent) as real / 100.0;
  }

  /** A larger discount never gives a higher rate, for a non-negative price. */
  lemma DiscountedMonotone(price: int, p: int, q: int)
    requires 0 <= price && p <= q
    ensures Discounted(price, q) <= Discounted(price, p)
  {
    var x := price as real * (100 - q) as real / 100.0;
    var y := price as real * (100 - p) as real / 100.0;
    assert y - x == price as real * (q - p) as real / 100.0;
    assert 0.0 <= price as real * (q - p) as real;
    RoundMonotone(x, y);
  }

  /** For a non-negative price every suggestion is a discount: it lies
      between the price less 15% and the price less 5% (both rounded), so it
      never exceeds the price; a cargo suggestion lies between the price less
      12% and the price less 5%. */
  lemma SuggestionIsDiscount(offers: seq<Offer>, offerId: string, draw: real)
    requires 0.0 <= draw < 1.0
    requires AISuggestedRate(offers, offerId, draw).Success?
    requires 0 <= offers[FindOffer(offers, offerId).value].price
    ensures var o := offers[FindOffer(offers, offerId).value];
      var rate := AISuggestedRate(offers, offerId, draw).value.suggestedRate;
      && Discounted(o.price, 15) <= rate <= Discounted(o.price, 5) <= o.price
      && (o.Type() == Cargo ==> Discounted(o.price, 12) <= rate)
  {
    var o := offers[FindOffer(offers, offerId).value];
    var rate := AISuggestedRate(offers, offerId, draw).value.suggestedRate;
    var (lo, hi) := DiscountRange(o.Type());
    var d :| lo <= d <= hi && rate == Discounted(o.price, d);
    DiscountedMonotone(o.price, d, 15);
    DiscountedMonotone(o.price, 5, d);
    DiscountedMonotone(o.price, 0, 5);
    RoundInteger(o.price);
    assert Discounted(o.price, 0) == o.price by {
      assert o.price as real * (100 - 0) as real / 100.0 == o.price as real;
    }
    if o.Type() == Cargo {
      DiscountedMonotone(o.price, d, 12);
    }
  }
}
