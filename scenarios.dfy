/** Whole runs of the services on a one-offer catalogue: the negotiation
    life cycle from opening ask to booking, what a concluded negotiation
    still allows, and the one-way finalization of a team. */
module Scenarios {
  import opened Wrappers
  import opened Types
  import opened MarketplaceService
  import opened TeamService

  /** An available cargo load priced at 1000. */
  function SampleOffer(): Offer {
    Offer("cargo-1", "m1", Available, "Load", 1000, 0, "u1", "Ann", "Oslo", CargoDetails("Dry Van", 500))
  }

  /** Open a negotiation at 900 (ceiling 950), counter at 920, accept: the
      offer ends `booked` at 920, and a second negotiation on it is
      refused. */
  method NegotiateAndBook() returns (offerStatus: OfferStatus, price: int, outcome: NegotiationStatus,
                                     second: Result<Negotiation, Error>)
    ensures offerStatus == Booked && price == 920 && outcome == Accepted
    ensures second == Failure(OfferNotAvailable)
  {
    var store := new OfferStore([SampleOffer()]);
    var engine := new NegotiationEngine(store, [], 1);
    var started := engine.CreateNegotiation("cargo-1", Cargo, 900, 950, true, 1);
    assert store.offers == [SampleOffer().(status := Negotiating)];
    var countered := engine.AddCounterOffer(1, 920, "Can you do 920?", false, 2);
    assert store.offers == [SampleOffer().(status := Negotiating, price := 920, updatedAt := 2)];
    var concluded := engine.ConcludeNegotiation(1, Accepted, 3);
    assert store.offers == [SampleOffer().(status := Booked, price := 920, updatedAt := 3)];
    offerStatus, price, outcome := store.offers[0].status, store.offers[0].price, concluded.value.status;
    second := engine.CreateNegotiation("cargo-1", Cargo, 900, 950, true, 4);
  }

  /** After acceptance a late counter-offer (an AI reply, say) is refused,
      but concluding again is not: rejecting the accepted negotiation puts
      the booked offer back on the market. */
  method ConcludedNegotiation() returns (late: Result<Negotiation, Error>, again: Result<Negotiation, Error>,
                                         offerStatus: OfferStatus)
    ensures late == Failure(NegotiationNotActive)
    ensures again.Success? && again.value.status == Rejected
    ensures offerStatus == Available
  {
    var store := new OfferStore([SampleOffer()]);
    var engine := new NegotiationEngine(store, [], 1);
    var started := engine.CreateNegotiation("cargo-1", Cargo, 900, 950, true, 1);
    var concluded := engine.ConcludeNegotiation(1, Accepted, 2);
    assert engine.negotiations[0].status == Accepted;
    late := engine.AddCounterOffer(1, 930, "How about 930?", true, 3);
    again := engine.ConcludeNegotiation(1, Rejected, 4);
    assert store.offers == [SampleOffer().(status := Available, updatedAt := 4)];
    offerStatus := store.offers[0].status;
  }

  /** A team on the offer is finalized once; the second attempt fails
      because the team is no longer active, and the offer stays
      `finalized`. */
  method FinalizeTwice() returns (first: Result<Team, Error>, second: Result<Team, Error>,
                                  offerStatus: OfferStatus)
    ensures first.Success? && first.value.status == TeamStatus.Finalized
    ensures second == Failure(TeamNotActive(TeamStatus.Finalized))
    ensures offerStatus == OfferStatus.Finalized
  {
    var store := new OfferStore([SampleOffer()]);
    var teams := new TeamEngine(store, 1);
    var team := teams.CreateTeamCollaboration(SampleOffer(), "u2", "Bo", Shipper, 1);
    assert MarketplaceService.FindOffer(store.offers, team.offerId) == Some(0);
    first := teams.FinalizeTeam(1, "u2", "Delivered", 2);
    assert teams.teams[0].status == TeamStatus.Finalized;
    second := teams.FinalizeTeam(1, "u1", "Again", 3);
    assert store.offers == [SampleOffer().(status := OfferStatus.Finalized, updatedAt := 2)];
    offerStatus := store.offers[0].status;
  }
}
