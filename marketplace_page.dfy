/** The marketplace page: which offers it lists for the selected offer types
    and marketplaces. */
module MarketplacePage {
  import opened Seqs
  import opened Types
  import opened MarketplaceService
  import MarketplaceFilters

  /** The four tabs, in order. */
  const OfferTypes: seq<OfferType> := [Cargo, Vehicle, OfferType.Warehouse, Service]

  /** The type condition of `fetchOffers`: it applies only when between one
      and three types are selected. */
  predicate TypeOk(o: Offer, types: seq<OfferType>) {
    |types| == 0 || |types| >= |OfferTypes| || o.Type() in types
  }

  /** The marketplace condition of `fetchOffers`: it applies only when some
      but fewer than all marketplaces are selected (by count). */
  predicate MarketplaceOk(o: Offer, selected: seq<string>, total: nat) {
    |selected| == 0 || |selected| >= total || o.marketplaceId in selected
  }

  /** Whether the page lists an offer. */
  predicate Shown(o: Offer, types: seq<OfferType>, selected: seq<string>, total: nat) {
    TypeOk(o, types) && MarketplaceOk(o, selected, total)
  }

  /** The offers the page lists: the catalogue, in order, restricted to the
      offers that pass both conditions. */
  function Visible(offers: seq<Offer>, types: seq<OfferType>, selected: seq<string>, total: nat): (r: seq<Offer>)
    ensures forall i :: 0 <= i < |r| ==> r[i] in offers
    ensures forall i :: 0 <= i < |r| && 0 < |types| < |OfferTypes| ==> r[i].Type() in types
    ensures forall i :: 0 <= i < |r| && 0 < |selected| < total ==> r[i].marketplaceId in selected
    ensures forall i :: 0 <= i < |offers| && Shown(offers[i], types, selected, total) ==> offers[i] in r
  {
    Filter(offers, (o: Offer) => Shown(o, types, selected, total))
  }

  /** The offers of a single type are that type's list. */
  lemma SingleTypeStage(offers: seq<Offer>, t: OfferType, p: Offer -> bool)
    requires forall o :: p(o) == TypeOk(o, [t])
    ensures OffersByType(offers, t) == Filter(offers, p)
  {
    FilterExtensional(offers, (o: Offer) => o.Type() == t, p);
  }

  /** No type filter runs when none or all four types are selected. */
  lemma NoTypeStage(offers: seq<Offer>, types: seq<OfferType>, p: Offer -> bool)
    requires |types| == 0 || |types| >= |OfferTypes|
    requires forall o :: p(o) == TypeOk(o, types)
    ensures Filter(offers, p) == offers
  {
    FilterKeepsAll(offers, p);
  }

  /** The type filter for two or three selected types. */
  lemma SomeTypesStage(offers: seq<Offer>, types: seq<OfferType>, byType: Offer -> bool, p: Offer -> bool)
    requires 0 < |types| < |OfferTypes|
    requires forall o :: byType(o) == (o.Type() in types)
    requires forall o :: p(o) == TypeOk(o, types)
    ensures Filter(offers, byType) == Filter(offers, p)
  {
    FilterExtensional(offers, byType, p);
  }

  /** The marketplace stage of `fetchOffers` turns the type-filtered list
      into the listed offers. */
  lemma MarketplaceStage(offers: seq<Offer>, types: seq<OfferType>, selected: seq<string>, total: nat,
                         p: Offer -> bool, bySelection: Offer -> bool)
    requires forall o :: p(o) == TypeOk(o, types)
    requires forall o :: bySelection(o) == (o.marketplaceId in selected)
    ensures 0 < |selected| < total ==>
      Filter(Filter(offers, p), bySelection) == Visible(offers, types, selected, total)
    ensures !(0 < |selected| < total) ==>
      Filter(offers, p) == Visible(offers, types, selected, total)
  {
    if 0 < |selected| < total {
      FilterCompose(offers, p, bySelection, (o: Offer) => Shown(o, types, selected, total));
    } else {
      FilterExtensional(offers, p, (o: Offer) => Shown(o, types, selected, total));
    }
  }

  /** With none or all marketplaces selected (by count), the marketplace
      selection makes no difference. */
  lemma NoneOrAllShowsEveryMarketplace(offers: seq<Offer>, types: seq<OfferType>, selected: seq<string>, total: nat)
    requires |selected| == 0 || |selected| >= total
    ensures Visible(offers, types, selected, total) == Visible(offers, types, [], total)
  {
    FilterExtensional(offers, (o: Offer) => Shown(o, types, selected, total),
      (o: Offer) => Shown(o, types, [], total));
  }

  /** With no type filter and no marketplace filter, the whole catalogue is
      listed. */
  lemma UnfilteredShowsCatalogue(offers: seq<Offer>, types: seq<OfferType>, selected: seq<string>, total: nat)
    requires |types| == 0 || |types| >= |OfferTypes|
    requires |selected| == 0 || |selected| >= total
    ensures Visible(offers, types, selected, total) == offers
  {
    FilterKeepsAll(offers, (o: Offer) => Shown(o, types, selected, total));
  }

  /** With one type and every marketplace selected, the page lists that
      type's offers. */
  lemma SingleTypeShowsTypeList(offers: seq<Offer>, t: OfferType, selected: seq<string>, total: nat)
    requires |selected| == 0 || |selected| >= total
    ensures Visible(offers, [t], selected, total) == OffersByType(offers, t)
  {
    FilterExtensional(offers, (o: Offer) => Shown(o, [t], selected, total), (o: Offer) => o.Type() == t);
  }

  /** The first load lists the cargo offers; once the marketplaces arrive
      and all of them are selected, the refetch lists the same offers. */
  lemma InitialLoadAgrees(offers: seq<Offer>, marketplaces: seq<Marketplace>)
    ensures Visible(offers, [Cargo], MarketplaceFilters.Ids(marketplaces), |marketplaces|)
         == OffersByType(offers, Cargo)
    ensures Visible(offers, [Cargo], [], 0) == OffersByType(offers, Cargo)
  {
    SingleTypeShowsTypeList(offers, Cargo, MarketplaceFilters.Ids(marketplaces), |marketplaces|);
    SingleTypeShowsTypeList(offers, Cargo, [], 0);
  }

  /** The page state. Every change of the marketplace or type selection is
      followed by the `fetchOffers` effect, which these methods run at once. */
  class Page {
    const store: OfferStore
    var offers: seq<Offer>
    var marketplaces: seq<Marketplace>
    var selectedMarketplaces: seq<string>
    var selectedTypes: seq<OfferType>
    var isLoading: bool

    constructor (store: OfferStore)
      ensures this.store == store
      ensures offers == [] && marketplaces == [] && selectedMarketplaces == []
      ensures selectedTypes == [Cargo] && isLoading
    {
      this.store := store;
      offers := [];
      marketplaces := [];
      selectedMarketplaces := [];
      selectedTypes := [Cargo];
      isLoading := true;
    }

    /** `fetchInitialData`: the marketplaces (given, as they arrive from
        `getMarketplaces`) are stored and all selected, and the cargo offers
        are listed. */
    method FetchInitialData(fetched: seq<Marketplace>)
      modifies this
      ensures marketplaces == fetched && selectedMarketplaces == MarketplaceFilters.Ids(fetched)
      ensures offers == OffersByType(store.offers, Cargo) && !isLoading
      ensures selectedTypes == old(selectedTypes)
    {
      isLoading := true;
      marketplaces := fetched;
      selectedMarketplaces := MarketplaceFilters.Ids(fetched);
      offers := OffersByType(store.offers, Cargo);
      isLoading := false;
    }

    /** `fetchOffers`: one type is fetched by type; otherwise the whole
        catalogue is fetched and, for two or three types, filtered by type;
        then, for some but not all marketplaces, filtered by marketplace. */
    method FetchOffers()
      modifies this
      ensures offers == Visible(store.offers, selectedTypes, selectedMarketplaces, |marketplaces|)
      ensures !isLoading
      ensures marketplaces == old(marketplaces) && selectedMarketplaces == old(selectedMarketplaces)
      ensures selectedTypes == old(selectedTypes)
    {
      isLoading := true;
      var types := selectedTypes;
      var selected := selectedMarketplaces;
      var p := (o: Offer) => TypeOk(o, types);
      var fetched: seq<Offer>;
      if |types| == 1 {
        fetched := OffersByType(store.offers, types[0]);
        assert types == [types[0]];
        SingleTypeStage(store.offers, types[0], p);
      } else {
        fetched := store.offers;
        if 0 < |types| < |OfferTypes| {
          var byType := (o: Offer) => o.Type() in types;
          fetched := Filter(fetched, byType);
          SomeTypesStage(store.offers, types, byType, p);
        } else {
          NoTypeStage(store.offers, types, p);
        }
      }
      var bySelection := (o: Offer) => o.marketplaceId in selected;
      MarketplaceStage(store.offers, types, selected, |marketplaces|, p, bySelection);
      if 0 < |selected| < |marketplaces| {
        fetched := Filter(fetched, bySelection);
      }
      offers := fetched;
      isLoading := false;
    }

    /** `handleMarketplaceFilterChange`, then the refetch. */
    method HandleMarketplaceFilterChange(marketplaceIds: seq<string>)
      modifies this
      ensures selectedMarketplaces == marketplaceIds
      ensures offers == Visible(store.offers, selectedTypes, marketplaceIds, |marketplaces|)
      ensures marketplaces == old(marketplaces) && selectedTypes == old(selectedTypes)
    {
      selectedMarketplaces := marketplaceIds;
      FetchOffers();
    }

    /** `handleTypeChange`: the selection becomes the chosen type alone,
        then the refetch. */
    method HandleTypeChange(t: OfferType)
      modifies this
      ensures selectedTypes == [t]
      ensures offers == Visible(store.offers, [t], selectedMarketplaces, |marketplaces|)
      ensures marketplaces == old(marketplaces) && selectedMarketplaces == old(selectedMarketplaces)
    {
      selectedTypes := [t];
      FetchOffers();
    }
  }
}
