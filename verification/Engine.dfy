/** The economy's rules as functions from one world to the next. */
module Engine {
  import opened Domain
  import opened Stations

  datatype World = World(
    runId: string, rules: Rules, roster: seq<StationId>, stations: map<StationId, Station>,
    tick: nat, version: nat, offers: seq<Offer>, transactions: seq<Transaction>,
    ads: seq<Advertisement>, nextId: nat, counts: map<StationId, nat>)

  /** What the lookups of the rules rely on: parties exist and differ. */
  ghost predicate Sound(w: World) {
    && (forall s :: s in w.roster <==> s in w.stations)
    && (forall o :: o in w.offers ==>
          o.proposer in w.stations && o.recipient in w.stations && o.proposer != o.recipient)
  }

  function FindOffer(offers: seq<Offer>, id: ObjectId): (found: Option<Offer>)
    ensures found.Some? ==> found.value in offers && found.value.id == id
    ensures found.None? ==> forall o :: o in offers ==> o.id != id
  {
    if offers == [] then None
    else if offers[0].id == id then Some(offers[0])
    else
      assert offers == [offers[0]] + offers[1..];
      FindOffer(offers[1..], id)
  }

  function FindAd(ads: seq<Advertisement>, id: ObjectId): (found: Option<Advertisement>)
    ensures found.Some? ==> found.value in ads && found.value.id == id
    ensures found.None? ==> forall a :: a in ads ==> a.id != id
  {
    if ads == [] then None
    else if ads[0].id == id then Some(ads[0])
    else
      assert ads == [ads[0]] + ads[1..];
      FindAd(ads[1..], id)
  }

  /** What can be added up over a list of offers. */
  datatype Measure = OpenOffersOf(party: StationId) | AcceptedOffers | OpenGivesOf(party: StationId, resource: Resource) {
    function Of(o: Offer): nat {
      match this
      case OpenOffersOf(party) => if o.proposer == party && o.status == Open then 1 else 0
      case AcceptedOffers => if o.status == Accepted then 1 else 0
      case OpenGivesOf(party, r) => if o.proposer == party && o.status == Open then o.give.Get(r) else 0
    }
  }

  function Tally(offers: seq<Offer>, measure: Measure): nat {
    if offers == [] then 0
    else Tally(offers[..|offers| - 1], measure) + measure.Of(offers[|offers| - 1])
  }

  /** How many offers `station` has open. */
  function OpenCount(offers: seq<Offer>, station: StationId): nat { Tally(offers, OpenOffersOf(station)) }

  datatype AdFilter =
    | NotBy(station: StationId) | NotAd(ad: Advertisement) | LivePast(tick: int)
    | NotByAny(stations: set<StationId>)
  {
    predicate Keeps(a: Advertisement) {
      match this
      case NotBy(station) => a.station != station
      case NotAd(ad) => a != ad
      case LivePast(tick) => a.expires > tick
      case NotByAny(stations) => a.station !in stations
    }
  }

  function KeepAds(ads: seq<Advertisement>, filter: AdFilter): (kept: seq<Advertisement>)
    ensures forall a :: a in kept <==> a in ads && filter.Keeps(a)
  {
    if ads == [] then []
    else
      var front := KeepAds(ads[..|ads| - 1], filter);
      var last := ads[|ads| - 1];
      assert ads == ads[..|ads| - 1] + [last];
      if filter.Keeps(last) then front + [last] else front
  }

  /** Why open offers are closed all at once. */
  datatype Due = DeadlineBy(tick: int) | PartyIn(stations: set<StationId>) | AllOpen {
    predicate Hits(o: Offer) {
      match this
      case DeadlineBy(tick) => o.expires <= tick
      case PartyIn(stations) => o.proposer in stations || o.recipient in stations
      case AllOpen => true
    }
  }

  predicate HasFailed(stations: map<StationId, Station>, s: StationId) {
    s in stations && stations[s].failed
  }

  function Closed(o: Offer, status: OfferStatus, tick: nat, transaction: Option<ObjectId>): Offer {
    o.(status := status, closedTick := Some(tick), transaction := transaction)
  }

  function CloseById(offers: seq<Offer>, id: ObjectId, status: OfferStatus, tick: nat, transaction: Option<ObjectId>): seq<Offer> {
    seq(|offers|, i requires 0 <= i < |offers| =>
      if offers[i].id == id then Closed(offers[i], status, tick, transaction) else offers[i])
  }

  /** Close every open offer that satisfies `due`. */
  function CloseDue(offers: seq<Offer>, due: Due, status: OfferStatus, tick: nat): seq<Offer> {
    seq(|offers|, i requires 0 <= i < |offers| =>
      if offers[i].status == Open && due.Hits(offers[i]) then Closed(offers[i], status, tick, None) else offers[i])
  }

  function CountOf(counts: map<StationId, nat>, station: StationId): nat {
    if station in counts then counts[station] else 0
  }

  // ---- commands -------------------------------------------------------------

  function Precheck(w: World, station: StationId, action: Action): Option<ResultCode>
    requires station in w.stations
  {
    var me := w.stations[station];
    if me.failed then Some(StationFailed)
    else if w.tick >= w.rules.durationTicks then Some(RunNotRunning)
    else if CountOf(w.counts, station) >= w.rules.commandsPerTick then Some(RateLimited)
    else if action.Advertise? && !ValidExpiry(w, action.expires, w.rules.maxPublicationTtl) then
      Some(InvalidArgument)
    else if action.MakeOffer? then
      if !ValidExpiry(w, action.expires, w.rules.maxOfferTtl) then Some(InvalidArgument)
      else if action.recipient !in w.stations || action.recipient == station || action.give.IsZero() then
        Some(InvalidArgument)
      else if w.stations[action.recipient].failed then Some(StationFailed)
      else if !me.inventory.Dominates(action.give) then Some(InsufficientResources)
      else if OpenCount(w.offers, station) >= w.rules.maxOpenOffers then Some(LimitReached)
      else None
    else None
  }

  predicate ValidExpiry(w: World, expires: int, ttl: nat) {
    w.tick < expires <= Min(w.tick + ttl, w.rules.durationTicks)
  }

  function Counted(w: World, station: StationId): World {
    w.(counts := w.counts[station := CountOf(w.counts, station) + 1])
  }

  function AdFor(w: World, station: StationId, action: Action): Advertisement
    requires action.Advertise?
  {
    Advertisement(AdId(w.nextId), station, action.selling, action.seeking, w.tick, action.expires,
                  w.version, Active)
  }

  function Advertised(w: World, station: StationId, action: Action): (World, Outcome)
    requires action.Advertise?
  {
    var ad := AdFor(w, station, action);
    (w.(ads := KeepAds(w.ads, NotBy(station)) + [ad], nextId := w.nextId + 1),
     Outcome(Ok, Some(ad.id), None))
  }

  function OfferFor(w: World, station: StationId, action: Action): Offer
    requires action.MakeOffer?
  {
    Offer(OfferId(w.nextId), station, action.recipient, action.give, action.receive, w.tick,
          w.version, action.expires, Open, None, None)
  }

  function Posted(w: World, station: StationId, action: Action): (World, Outcome)
    requires action.MakeOffer?
  {
    var offer := OfferFor(w, station, action);
    (w.(offers := w.offers + [offer], nextId := w.nextId + 1), Outcome(Ok, Some(offer.id), None))
  }

  function Withdrew(w: World, station: StationId, target: ObjectId): (World, Outcome) {
    var ad := FindAd(w.ads, target);
    if ad.Some? then
      if ad.value.station != station then (w, Refused(InvalidArgument))
      else (w.(ads := KeepAds(w.ads, NotAd(ad.value))), Outcome(Ok, Some(target), None))
    else
      var offer := FindOffer(w.offers, target);
      if offer.None? then (w, Refused(NotFound))
      else if offer.value.proposer != station then (w, Refused(InvalidArgument))
      else if offer.value.status != Open then (w, Refused(NotOpen))
      else (w.(offers := CloseById(w.offers, target, Withdrawn, w.tick, None)), Outcome(Ok, Some(target), None))
  }

  /** A station after it hands over `pays` and takes in `gets`. */
  function Traded(s: Station, pays: Bundle, gets: Bundle): Station
    requires s.inventory.Dominates(pays)
  {
    s.(inventory := s.inventory.Minus(pays).Plus(gets), exported := s.exported.Plus(pays),
       imported := s.imported.Plus(gets))
  }

  /** Why `station` may not settle `offer`, if it may not. */
  function AcceptRefusal(w: World, station: StationId, found: Option<Offer>): Option<ResultCode>
    requires Sound(w)
    requires found.Some? ==> found.value in w.offers
  {
    if found.None? then Some(NotFound)
    else
      var offer := found.value;
      if offer.recipient != station then Some(InvalidArgument)
      else if offer.status != Open then Some(NotOpen)
      else if offer.IsExpiredAt(w.tick) then Some(OfferExpired)
      else if w.stations[offer.proposer].failed || w.stations[offer.recipient].failed then Some(StationFailed)
      else if !w.stations[offer.proposer].inventory.Dominates(offer.give)
           || !w.stations[offer.recipient].inventory.Dominates(offer.receive) then Some(InsufficientResources)
      else None
  }

  function TransactionFor(w: World, offer: Offer): Transaction {
    Transaction(TransactionId(w.nextId), offer.id, offer.proposer, offer.recipient, offer.give,
                offer.receive, w.tick, w.version)
  }

  function SettledOffer(w: World, offer: Offer): World
    requires Sound(w) && offer in w.offers
    requires w.stations[offer.proposer].inventory.Dominates(offer.give)
    requires w.stations[offer.recipient].inventory.Dominates(offer.receive)
  {
    var deal := TransactionFor(w, offer);
    w.(stations := w.stations[offer.proposer := Traded(w.stations[offer.proposer], offer.give, offer.receive)]
                             [offer.recipient := Traded(w.stations[offer.recipient], offer.receive, offer.give)],
       offers := CloseById(w.offers, offer.id, Accepted, w.tick, Some(deal.id)),
       transactions := w.transactions + [deal],
       nextId := w.nextId + 1)
  }

  function AcceptedOffer(w: World, station: StationId, id: ObjectId): (World, Outcome)
    requires Sound(w)
  {
    var found := FindOffer(w.offers, id);
    var refusal := AcceptRefusal(w, station, found);
    if refusal.Some? then (w, Refused(refusal.value))
    else (SettledOffer(w, found.value), Outcome(Ok, Some(id), Some(TransactionId(w.nextId))))
  }

  /** What a command that passed the pre-checks does. */
  function Processed(w: World, station: StationId, action: Action): (World, Outcome)
    requires Sound(w)
  {
    match action
    case Advertise(_, _, _) => Advertised(w, station, action)
    case MakeOffer(_, _, _, _) => Posted(w, station, action)
    case Accept(id) => AcceptedOffer(w, station, id)
    case Withdraw(id) => Withdrew(w, station, id)
    case Sync => (w, Refused(InvalidArgument))
  }

  /** One command; refused before it is processed, it uses no quota. */
  function Execute(w: World, station: StationId, action: Action): (World, Outcome)
    requires Sound(w) && station in w.stations
  {
    var refusal := Precheck(w, station, action);
    if refusal.Some? then (w, Refused(refusal.value)) else Processed(Counted(w, station), station, action)
  }

  // ---- time -------------------------------------------------------------------

  function Expire(w: World): World {
    var now := w.tick + 1;
    w.(tick := now, counts := map[], version := w.version + 1,
       offers := CloseDue(w.offers, DeadlineBy(now), Expired, now),
       ads := KeepAds(w.ads, LivePast(now)))
  }

  function SettleAll(w: World): World {
    w.(stations := map s | s in w.stations :: Settled(w.stations[s], w.rules, w.tick))
  }

  function FailedOf(stations: map<StationId, Station>): set<StationId> {
    set s | s in stations && stations[s].failed
  }

  function CloseFailed(w: World): World {
    var failed := FailedOf(w.stations);
    w.(ads := KeepAds(w.ads, NotByAny(failed)),
       offers := CloseDue(w.offers, PartyIn(failed), Withdrawn, w.tick))
  }

  /** One tick: expiry, production and upkeep, then the failed stop dealing. */
  function Advance(w: World): World { CloseFailed(SettleAll(Expire(w))) }

  /** Close what is still open once the run's duration is reached. */
  function EndRun(w: World): World {
    w.(offers := CloseDue(w.offers, AllOpen, RunEnded, w.tick), ads := [], version := w.version + 1)
  }

  predicate IsFinished(w: World) { w.tick >= w.rules.durationTicks }

  function Produce(w: World, output: map<StationId, nat>): World {
    w.(stations := map s | s in w.stations ::
         if s in output then w.stations[s].(production := output[s]) else w.stations[s])
  }

  // ---- observation --------------------------------------------------------------

  function DealsOf(transactions: seq<Transaction>, s: StationId): (mine: seq<Transaction>)
    ensures forall t :: t in mine <==> t in transactions && (t.proposer == s || t.recipient == s)
  {
    if transactions == [] then []
    else
      var front := DealsOf(transactions[..|transactions| - 1], s);
      var last := transactions[|transactions| - 1];
      assert transactions == transactions[..|transactions| - 1] + [last];
      if last.proposer == s || last.recipient == s then front + [last] else front
  }

  /** What `s` may see: itself, its own offers and trades, the roster and public ads. */
  function ObservationFor(w: World, s: StationId, sequence: nat, phase: Phase, results: seq<CommandResult>): Snapshot
    requires s in w.stations
  {
    Snapshot(w.runId, sequence, w.version, w.tick, phase, s, w.rules, w.roster,
             w.stations[s].Observe(), KeepOffers(w.offers, Involving(s)), w.ads,
             DealsOf(w.transactions, s), results)
  }
}
