/** The records the marketplace and team services exchange with the pages.
    Only the fields some modelled operation reads or writes are kept; ids the
    services generate are fresh numbers and timestamps points of an abstract
    clock. */
module Types {
  import opened Wrappers

  /** A point of the abstract clock that stands for an ISO timestamp. */
  type Time = nat

  datatype OfferType = Cargo | Vehicle | Warehouse | Service

  datatype OfferStatus = Available | Negotiating | Booked | Completed | Cancelled | Finalized

  /** The kind-specific fields of an offer that the rate advisor reads. */
  datatype OfferDetails =
    | CargoDetails(cargoType: string, distance: int)
    | VehicleDetails(vehicleType: string)
    | WarehouseDetails(warehouseType: string)
    | ServiceDetails(serviceType: string)

  /** A listed offer: the identity fields, the mutable commercial state
      (`status`, `price`, `updatedAt`) and the kind-specific details, whose
      constructor is the offer's `type` tag. */
  datatype Offer = Offer(
    id: string,
    marketplaceId: string,
    status: OfferStatus,
    title: string,
    price: int,
    updatedAt: Time,
    userId: string,
    contactName: string,
    city: string,
    details: OfferDetails)
  {
    function Type(): OfferType {
      match details
      case CargoDetails(_, _) => Cargo
      case VehicleDetails(_) => Vehicle
      case WarehouseDetails(_) => OfferType.Warehouse
      case ServiceDetails(_) => Service
    }
  }

  datatype Marketplace = Marketplace(id: string, name: string)

  datatype CounterOffer = CounterOffer(
    id: nat,
    negotiationId: nat,
    rate: int,
    message: string,
    fromAI: bool,
    createdAt: Time)

  datatype NegotiationStatus = Active | Accepted | Rejected | Expired

  /** The statuses `concludeNegotiation` accepts. */
  type Conclusion = s: NegotiationStatus | !s.Active? witness Accepted

  datatype Negotiation = Negotiation(
    id: nat,
    offerId: string,
    offerType: OfferType,
    initialRate: int,
    currentRate: int,
    counterOffers: seq<CounterOffer>,
    status: NegotiationStatus,
    startedAt: Time,
    updatedAt: Time,
    isAIEnabled: bool,
    targetRate: int,
    maxRate: int)

  datatype Role = Carrier | Shipper | Broker | Warehouse

  datatype FileType = Document | Transport | Invoice | Customs | Other

  datatype TeamFile = TeamFile(
    id: nat,
    teamId: nat,
    name: string,
    fileType: FileType,
    url: string,
    uploadedBy: string,
    uploadedAt: Time,
    size: int,
    description: Option<string>)

  datatype TeamMessage = TeamMessage(
    id: nat,
    teamId: nat,
    userId: string,
    userName: string,
    content: string,
    createdAt: Time,
    attachments: Option<seq<TeamFile>>)

  datatype Participant = Participant(userId: string, name: string, role: Role, joinedAt: Time)

  datatype TeamStatus = Active | Completed | Cancelled | Finalized

  datatype Team = Team(
    id: nat,
    offerId: string,
    name: string,
    participants: seq<Participant>,
    messages: seq<TeamMessage>,
    files: seq<TeamFile>,
    createdAt: Time,
    updatedAt: Time,
    status: TeamStatus,
    finalizedAt: Option<Time>,
    finalizedBy: Option<string>,
    finalizedReason: Option<string>)

  /** The errors the services throw, one per `throw` site. */
  datatype Error =
    | OfferNotFound(offerId: string)
    | OfferNotAvailable
    | NegotiationNotFound(negotiationId: nat)
    | NegotiationNotActive
    | TeamNotFound(teamId: nat)
    | TeamNotActive(status: TeamStatus)
    | InviterNotParticipant
}
