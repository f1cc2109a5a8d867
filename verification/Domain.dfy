/** The values the simulator and the client exchange: bundles, offers,
    transactions, advertisements, rules, actions and snapshots. */
module Domain {
  datatype Option<+T> = None | Some(value: T)

  datatype StationId = StationId(name: string)
  datatype RequestId = RequestId(text: string)

  datatype Resource = Water | Food | Components

  const RESOURCES: seq<Resource> := [Water, Food, Components]

  /** A quantity of each of the three resources. */
  datatype Bundle = Bundle(water: nat, food: nat, components: nat) {
    static function Zero(): Bundle { Bundle(0, 0, 0) }

    static function Single(r: Resource, quantity: nat): Bundle {
      match r
      case Water => Bundle(quantity, 0, 0)
      case Food => Bundle(0, quantity, 0)
      case Components => Bundle(0, 0, quantity)
    }

    function Get(r: Resource): nat {
      match r
      case Water => water
      case Food => food
      case Components => components
    }

    function Plus(other: Bundle): Bundle {
      Bundle(water + other.water, food + other.food, components + other.components)
    }

    /** Strict subtraction; the original raises when a quantity would go negative. */
    function Minus(other: Bundle): Bundle
      requires Dominates(other)
    {
      Bundle(water - other.water, food - other.food, components - other.components)
    }

    /** Subtraction stopping at zero. */
    function Monus(other: Bundle): Bundle {
      Bundle(Less(water, other.water), Less(food, other.food), Less(components, other.components))
    }

    predicate Dominates(other: Bundle) {
      water >= other.water && food >= other.food && components >= other.components
    }

    predicate IsZero() { this == Zero() }

    function Total(): nat { water + food + components }

    function Scale(factor: nat): Bundle {
      Bundle(water * factor, food * factor, components * factor)
    }
  }

  function Less(a: nat, b: nat): nat { if a >= b then a - b else 0 }

  function Min(a: int, b: int): int { if a <= b then a else b }

  function Max(a: int, b: int): int { if a >= b then a else b }

  datatype Phase = Ready | Running | Paused | Finished | Aborted

  datatype OfferStatus = Open | Accepted | Withdrawn | Expired | RunEnded

  datatype PublicationStatus = Active | AdReplaced | AdWithdrawn | AdExpired | AdRunEnded

  datatype ResultCode =
    | Ok | RequestIdConflict | RunNotRunning | RateLimited | InvalidArgument | NotFound
    | OfferExpired | NotOpen | LimitReached | InsufficientResources | StationFailed

  datatype ControlCode =
    | BadMessage | RequestCapacityExceeded | UnsupportedVersion | RunMismatch
    | InvalidAuthentication | SessionFenced

  /** Server-issued ids share one counter; `OtherId` is any text a client may
      send that the server never issued. */
  datatype ObjectId =
    | AdId(number: nat) | OfferId(number: nat) | TransactionId(number: nat) | OtherId(text: string)

  datatype Rules = Rules(
    durationTicks: nat,
    maxHealth: nat,
    shortageDamage: nat,
    recovery: nat,
    maxPublicationTtl: nat,
    maxOfferTtl: nat,
    commandsPerTick: nat,
    maxRequestRecords: nat,
    maxOpenOffers: nat)

  /** `give` and `receive` are always the proposer's perspective. */
  datatype Offer = Offer(
    id: ObjectId, proposer: StationId, recipient: StationId, give: Bundle, receive: Bundle,
    createdTick: nat, createdVersion: nat, expires: int, status: OfferStatus,
    closedTick: Option<nat>, transaction: Option<ObjectId>)
  {
    predicate IsExpiredAt(tick: int) { tick >= expires }

    predicate IsOpenAt(tick: int) { status == Open && !IsExpiredAt(tick) }

    predicate HasParty(station: StationId) { station == proposer || station == recipient }

    function Pays(station: StationId): Bundle
      requires HasParty(station)
    {
      if station == proposer then give else receive
    }

    function Receives(station: StationId): Bundle
      requires HasParty(station)
    {
      if station == proposer then receive else give
    }
  }

  datatype Transaction = Transaction(
    id: ObjectId, offer: ObjectId, proposer: StationId, recipient: StationId,
    give: Bundle, receive: Bundle, settledTick: nat, settledVersion: nat)

  datatype Advertisement = Advertisement(
    id: ObjectId, station: StationId, selling: set<Resource>, seeking: set<Resource>,
    createdTick: nat, expires: int, createdVersion: nat, status: PublicationStatus)

  datatype Action =
    | Advertise(selling: set<Resource>, seeking: set<Resource>, expires: int)
    | MakeOffer(recipient: StationId, give: Bundle, receive: Bundle, expires: int)
    | Accept(offer: ObjectId)
    | Withdraw(target: ObjectId)
    | Sync

  datatype Outcome = Outcome(code: ResultCode, target: Option<ObjectId>, transaction: Option<ObjectId>)

  function Refused(code: ResultCode): Outcome { Outcome(code, None, None) }

  datatype CommandResult = CommandResult(
    request: RequestId, code: ResultCode, processedTick: nat, processedVersion: nat,
    target: Option<ObjectId>, transaction: Option<ObjectId>, retryAfter: Option<nat>)

  /** Everything a station may see about itself. */
  datatype Observation = Observation(
    inventory: Bundle, health: nat, failed: bool, firstFailure: Option<nat>,
    lastProduction: Bundle, lastUnmet: Bundle, suppliedTicks: nat, shortageTicks: nat,
    shortageStreak: nat, longestStreak: nat, produced: Bundle, consumed: Bundle, unmet: Bundle,
    imported: Bundle, exported: Bundle, upkeep: Bundle, specialty: Resource)

  /** A complete view of the world for one station; it replaces any earlier view. */
  datatype Snapshot = Snapshot(
    runId: string, sequence: nat, version: nat, tick: nat, phase: Phase, self: StationId,
    rules: Rules, directory: seq<StationId>, me: Observation, offers: seq<Offer>,
    advertisements: seq<Advertisement>, transactions: seq<Transaction>,
    results: seq<CommandResult>)
  {
    /** Open offers addressed to us: the only ones we may accept. */
    function IncomingOpen(): seq<Offer> { KeepOffers(offers, OpenTo(self, tick)) }

    /** Open offers we proposed: the only ones we may withdraw. */
    function OutgoingOpen(): seq<Offer> { KeepOffers(offers, OpenFrom(self, tick)) }

    function OwnAdvertisement(): Option<Advertisement> { FirstActiveAd(advertisements, self) }
  }

  datatype OfferFilter = Involving(party: StationId) | OpenTo(party: StationId, tick: int) | OpenFrom(party: StationId, tick: int) {
    predicate Keeps(o: Offer) {
      match this
      case Involving(party) => o.HasParty(party)
      case OpenTo(party, tick) => o.recipient == party && o.IsOpenAt(tick)
      case OpenFrom(party, tick) => o.proposer == party && o.IsOpenAt(tick)
    }
  }

  /** The offers a filter keeps, in order. */
  function KeepOffers(offers: seq<Offer>, filter: OfferFilter): (kept: seq<Offer>)
    ensures forall o :: o in kept <==> o in offers && filter.Keeps(o)
    ensures |kept| <= |offers|
  {
    if offers == [] then []
    else
      var front := KeepOffers(offers[..|offers| - 1], filter);
      var last := offers[|offers| - 1];
      assert offers == offers[..|offers| - 1] + [last];
      if filter.Keeps(last) then front + [last] else front
  }

  function FirstActiveAd(ads: seq<Advertisement>, station: StationId): (r: Option<Advertisement>)
    ensures r.Some? ==> r.value in ads && r.value.station == station && r.value.status == Active
    ensures r.None? ==> forall a | a in ads :: a.station != station || a.status != Active
  {
    if ads == [] then None
    else if ads[0].station == station && ads[0].status == Active then Some(ads[0])
    else
      assert ads == [ads[0]] + ads[1..];
      FirstActiveAd(ads[1..], station)
  }
}
