/** What the client infers about the other planets from ads, offers and trades. */
module Counterparties {
  import opened Domain

  const ALL: set<Resource> := {Water, Food, Components}

  lemma AllListed()
    ensures forall r: Resource :: r in ALL
  {
    forall r: Resource ensures r in ALL {
      match r case Water => case Food => case Components =>
    }
  }

  datatype Stats = Stats(
    selling: set<Resource>, seeking: set<Resource>, streak: map<Resource, nat>, lastAdTick: int,
    sent: nat, accepted: nat, failed: bool, supplied: set<Resource>, everActive: bool,
    consecutiveExpired: nat, lastExpired: int, sizeLimit: Option<nat>)
  {
    /** No advertisement of this station is in force. */
    predicate IsSilent() { selling == {} && seeking == {} && streak == map[] }

    function Streak(r: Resource): nat { if r in streak then streak[r] else 0 }
  }

  function Unknown(): Stats { Stats({}, {}, map[], -1, 0, 0, false, {}, false, 0, -1, None) }

  datatype Model = Model(stations: map<StationId, Stats>, counted: set<ObjectId>) {
    function Of(p: StationId): Stats { if p in stations then stations[p] else Unknown() }

    /** The stations worth dealing with. */
    function Live(): set<StationId> { set p | p in stations && !stations[p].failed }
  }

  // ---- the directory --------------------------------------------------------------------------

  function Introduced(m: Model, self: StationId, id: StationId): Model {
    if id == self || id in m.stations then m else m.(stations := m.stations[id := Unknown()])
  }

  function WithDirectory(m: Model, self: StationId, directory: seq<StationId>): Model {
    if directory == [] then m
    else Introduced(WithDirectory(m, self, directory[..|directory| - 1]), self, directory[|directory| - 1])
  }

  // ---- advertisements --------------------------------------------------------------------------

  predicate Counts(ad: Advertisement, self: StationId, tick: int) {
    ad.station != self && ad.status == Active && tick < ad.expires
  }

  /** The last live advertisement of each other station. */
  function ActiveAds(ads: seq<Advertisement>, self: StationId, tick: int): map<StationId, Advertisement> {
    if ads == [] then map[]
    else
      var before, ad := ActiveAds(ads[..|ads| - 1], self, tick), ads[|ads| - 1];
      if Counts(ad, self, tick) then before[ad.station := ad] else before
  }

  /** Only a later tick counts as a need persisting; a need no longer sought is forgotten. */
  function StreakAfter(x: Stats, seeking: set<Resource>, tick: int): map<Resource, nat> {
    map r | r in ALL && r in seeking && (tick > x.lastAdTick || r in x.streak) ::
      if tick > x.lastAdTick then x.Streak(r) + 1 else x.Streak(r)
  }

  function Advertising(x: Stats, ad: Advertisement, tick: int): Stats {
    x.(selling := ad.selling, seeking := ad.seeking, streak := StreakAfter(x, ad.seeking, tick),
       lastAdTick := tick, everActive := true)
  }

  function Silenced(x: Stats): Stats { x.(selling := {}, seeking := {}, streak := map[]) }

  function WithAds(m: Model, active: map<StationId, Advertisement>, tick: int): Model {
    m.(stations := map p | p in m.stations.Keys + active.Keys ::
         if p in active then Advertising(m.Of(p), active[p], tick) else Silenced(m.Of(p)))
  }

  // ---- offers and trades -------------------------------------------------------------------------

  predicate RecipientDecided(status: OfferStatus) { status == Accepted || status == Expired }

  /** An offer of ours that its recipient settled: taken, or left to lapse. */
  function Resolved(x: Stats, o: Offer): Stats {
    if o.status == Accepted then
      x.(sent := x.sent + 1, accepted := x.accepted + 1, consecutiveExpired := 0,
         sizeLimit := if x.sizeLimit.Some? then Some(x.sizeLimit.value * 2) else None)
    else
      x.(sent := x.sent + 1, consecutiveExpired := x.consecutiveExpired + 1,
         lastExpired := Max(x.lastExpired, if o.closedTick.Some? then o.closedTick.value else o.expires),
         sizeLimit := if o.receive.Total() > 0 then Some(Max(1, o.receive.Total() / 2)) else x.sizeLimit)
  }

  function OfferSeen(m: Model, self: StationId, o: Offer): Model {
    if o.recipient == self then
      m.(stations := m.stations[o.proposer := m.Of(o.proposer).(everActive := true)])
    else if o.proposer != self || !RecipientDecided(o.status) || o.id in m.counted then m
    else
      Model(m.stations[o.recipient := Resolved(m.Of(o.recipient), o)], m.counted + {o.id})
  }

  function WithOffers(m: Model, self: StationId, offers: seq<Offer>): Model {
    if offers == [] then m
    else OfferSeen(WithOffers(m, self, offers[..|offers| - 1]), self, offers[|offers| - 1])
  }

  function Received(b: Bundle): set<Resource> { set r | r in ALL && b.Get(r) > 0 }

  function DealtWith(m: Model, partner: StationId, received: Bundle): Model {
    m.(stations := m.stations[partner :=
         m.Of(partner).(everActive := true, supplied := m.Of(partner).supplied + Received(received))])
  }

  function TradeSeen(m: Model, self: StationId, t: Transaction): Model {
    if self == t.recipient then DealtWith(m, t.proposer, t.give)
    else if self == t.proposer then DealtWith(m, t.recipient, t.receive)
    else m
  }

  function WithTrades(m: Model, self: StationId, deals: seq<Transaction>): Model {
    if deals == [] then m
    else TradeSeen(WithTrades(m, self, deals[..|deals| - 1]), self, deals[|deals| - 1])
  }

  function Updated(m: Model, s: Snapshot): Model {
    var listed := WithDirectory(m, s.self, s.directory);
    var heard := WithAds(listed, ActiveAds(s.advertisements, s.self, s.tick), s.tick);
    WithTrades(WithOffers(heard, s.self, s.offers), s.self, s.transactions)
  }

  // ---- repeating a snapshot changes nothing ---------------------------------------------------------

  predicate AdAbsorbed(x: Stats, ad: Advertisement, tick: int) {
    && x.selling == ad.selling && x.seeking == ad.seeking && x.lastAdTick == tick && x.everActive
    && forall r :: r in x.streak ==> r in ad.seeking
  }

  predicate OfferAbsorbed(m: Model, self: StationId, o: Offer) {
    if o.recipient == self then o.proposer in m.stations && m.stations[o.proposer].everActive
    else o.proposer == self && RecipientDecided(o.status) ==> o.id in m.counted
  }

  predicate PartnerKnown(m: Model, partner: StationId, received: Bundle) {
    partner in m.stations && m.stations[partner].everActive && Received(received) <= m.stations[partner].supplied
  }

  predicate TradeAbsorbed(m: Model, self: StationId, t: Transaction) {
    if self == t.recipient then PartnerKnown(m, t.proposer, t.give)
    else self == t.proposer ==> PartnerKnown(m, t.recipient, t.receive)
  }

  ghost predicate AdsAbsorbed(m: Model, active: map<StationId, Advertisement>, tick: int) {
    && (forall p :: p in active ==> p in m.stations && AdAbsorbed(m.stations[p], active[p], tick))
    && (forall p :: p in m.stations && p !in active ==> m.stations[p].IsSilent())
  }

  /** The model already holds everything the snapshot has to say. */
  ghost predicate Absorbed(m: Model, s: Snapshot) {
    && (forall id :: id in s.directory ==> id == s.self || id in m.stations)
    && AdsAbsorbed(m, ActiveAds(s.advertisements, s.self, s.tick), s.tick)
    && (forall o :: o in s.offers ==> OfferAbsorbed(m, s.self, o))
    && (forall t :: t in s.transactions ==> TradeAbsorbed(m, s.self, t))
  }

  ghost predicate SameAds(x: Stats, y: Stats) {
    && x.selling == y.selling && x.seeking == y.seeking && x.streak == y.streak && x.lastAdTick == y.lastAdTick
    && (x.everActive ==> y.everActive) && x.supplied <= y.supplied
  }

  ghost predicate LearnsOf(m: Model, n: Model, p: StationId) {
    if p in m.stations then p in n.stations && SameAds(m.stations[p], n.stations[p])
    else p in n.stations ==> n.stations[p].IsSilent()
  }

  /** What later evidence never takes back; stations it adds are silent. */
  ghost predicate Learns(m: Model, n: Model) {
    m.counted <= n.counted && forall p {:trigger LearnsOf(m, n, p)} :: LearnsOf(m, n, p)
  }

  lemma LearnsOn(m: Model, n: Model, k: Model)
    requires Learns(m, n) && Learns(n, k)
    ensures Learns(m, k)
  {
    forall p ensures LearnsOf(m, k, p) {
      assert LearnsOf(m, n, p) && LearnsOf(n, k, p);
    }
  }

  lemma OfferSeenLearns(m: Model, self: StationId, o: Offer)
    ensures Learns(m, OfferSeen(m, self, o)) && OfferAbsorbed(OfferSeen(m, self, o), self, o)
  {
  }

  lemma TradeSeenLearns(m: Model, self: StationId, t: Transaction)
    ensures Learns(m, TradeSeen(m, self, t)) && TradeAbsorbed(TradeSeen(m, self, t), self, t)
  {
  }

  lemma OfferStaysAbsorbed(m: Model, n: Model, self: StationId, o: Offer)
    requires Learns(m, n) && OfferAbsorbed(m, self, o)
    ensures OfferAbsorbed(n, self, o)
  {
    assert LearnsOf(m, n, o.proposer);
  }

  lemma TradeStaysAbsorbed(m: Model, n: Model, self: StationId, t: Transaction)
    requires Learns(m, n) && TradeAbsorbed(m, self, t)
    ensures TradeAbsorbed(n, self, t)
  {
    assert LearnsOf(m, n, t.proposer) && LearnsOf(m, n, t.recipient);
  }

  lemma AdsStayAbsorbed(m: Model, n: Model, active: map<StationId, Advertisement>, tick: int)
    requires Learns(m, n) && AdsAbsorbed(m, active, tick)
    ensures AdsAbsorbed(n, active, tick)
  {
    forall p | p in n.stations || p in active
      ensures p in n.stations && (if p in active then AdAbsorbed(n.stations[p], active[p], tick) else n.stations[p].IsSilent())
    {
      assert LearnsOf(m, n, p);
    }
  }

  lemma {:induction false} OffersLearn(m: Model, self: StationId, offers: seq<Offer>)
    ensures Learns(m, WithOffers(m, self, offers))
    ensures forall o :: o in offers ==> OfferAbsorbed(WithOffers(m, self, offers), self, o)
  {
    if offers != [] {
      var front, last := offers[..|offers| - 1], offers[|offers| - 1];
      var n := WithOffers(m, self, front);
      var k := OfferSeen(n, self, last);
      hide OfferSeen, OfferAbsorbed, Learns;
      OffersLearn(m, self, front);
      OfferSeenLearns(n, self, last);
      LearnsOn(m, n, k);
      forall o | o in offers ensures OfferAbsorbed(k, self, o) {
        if o in front { OfferStaysAbsorbed(n, k, self, o); }
      }
    }
  }

  lemma {:induction false} TradesLearn(m: Model, self: StationId, deals: seq<Transaction>)
    ensures Learns(m, WithTrades(m, self, deals))
    ensures forall t :: t in deals ==> TradeAbsorbed(WithTrades(m, self, deals), self, t)
  {
    if deals != [] {
      var front, last := deals[..|deals| - 1], deals[|deals| - 1];
      var n := WithTrades(m, self, front);
      var k := TradeSeen(n, self, last);
      hide TradeSeen, TradeAbsorbed, Learns;
      TradesLearn(m, self, front);
      TradeSeenLearns(n, self, last);
      LearnsOn(m, n, k);
      forall t | t in deals ensures TradeAbsorbed(k, self, t) {
        if t in front { TradeStaysAbsorbed(n, k, self, t); }
      }
    }
  }

  lemma {:induction false} DirectoryLists(m: Model, self: StationId, directory: seq<StationId>)
    ensures m.stations.Keys <= WithDirectory(m, self, directory).stations.Keys
    ensures forall id :: id in directory ==> id == self || id in WithDirectory(m, self, directory).stations
    ensures forall p :: p in WithDirectory(m, self, directory).stations ==> p in m.stations || (p in directory && p != self)
  {
    if directory != [] {
      DirectoryLists(m, self, directory[..|directory| - 1]);
      assert directory == directory[..|directory| - 1] + [directory[|directory| - 1]];
    }
  }

  lemma AdsAbsorb(m: Model, active: map<StationId, Advertisement>, tick: int)
    ensures AdsAbsorbed(WithAds(m, active, tick), active, tick)
  {
  }

  lemma UpdateAbsorbs(m: Model, s: Snapshot)
    ensures Absorbed(Updated(m, s), s)
  {
    var active := ActiveAds(s.advertisements, s.self, s.tick);
    var listed := WithDirectory(m, s.self, s.directory);
    var heard := WithAds(listed, active, s.tick);
    var offered := WithOffers(heard, s.self, s.offers);
    var n := Updated(m, s);
    hide ActiveAds, OfferAbsorbed, AdsAbsorbed;
    DirectoryLists(m, s.self, s.directory);
    AdsAbsorb(listed, active, s.tick);
    OffersLearn(heard, s.self, s.offers);
    TradesLearn(offered, s.self, s.transactions);
    LearnsOn(heard, offered, n);
    AdsStayAbsorbed(heard, n, active, s.tick);
    forall o | o in s.offers ensures OfferAbsorbed(n, s.self, o) {
      OfferStaysAbsorbed(offered, n, s.self, o);
    }
    forall id | id in s.directory ensures id == s.self || id in n.stations {
      if id != s.self {
        assert id in heard.stations;
        assert LearnsOf(heard, n, id);
      }
    }
  }

  lemma {:induction false} NothingNewInDirectory(m: Model, self: StationId, directory: seq<StationId>)
    requires forall id :: id in directory ==> id == self || id in m.stations
    ensures WithDirectory(m, self, directory) == m
  {
    if directory != [] {
      assert directory == directory[..|directory| - 1] + [directory[|directory| - 1]];
      NothingNewInDirectory(m, self, directory[..|directory| - 1]);
    }
  }

  lemma {:induction false} NothingNewInOffers(m: Model, self: StationId, offers: seq<Offer>)
    requires forall o :: o in offers ==> OfferAbsorbed(m, self, o)
    ensures WithOffers(m, self, offers) == m
  {
    if offers != [] {
      var front, last := offers[..|offers| - 1], offers[|offers| - 1];
      assert offers == front + [last];
      NothingNewInOffers(m, self, front);
      assert OfferAbsorbed(m, self, last);
      if last.recipient == self {
        assert m.stations[last.proposer := m.stations[last.proposer]] == m.stations;
      }
    }
  }

  lemma TradeAgain(m: Model, partner: StationId, received: Bundle)
    requires PartnerKnown(m, partner, received)
    ensures DealtWith(m, partner, received) == m
  {
    assert m.Of(partner).supplied + Received(received) == m.Of(partner).supplied;
    assert m.stations[partner := m.stations[partner]] == m.stations;
  }

  lemma {:induction false} NothingNewInTrades(m: Model, self: StationId, deals: seq<Transaction>)
    requires forall t :: t in deals ==> TradeAbsorbed(m, self, t)
    ensures WithTrades(m, self, deals) == m
  {
    if deals != [] {
      var front, last := deals[..|deals| - 1], deals[|deals| - 1];
      assert deals == front + [last];
      NothingNewInTrades(m, self, front);
      assert TradeAbsorbed(m, self, last);
      if self == last.recipient {
        TradeAgain(m, last.proposer, last.give);
      } else if self == last.proposer {
        TradeAgain(m, last.recipient, last.receive);
      }
    }
  }

  lemma NothingNewInAds(m: Model, active: map<StationId, Advertisement>, tick: int)
    requires AdsAbsorbed(m, active, tick)
    ensures WithAds(m, active, tick) == m
  {
    var n := WithAds(m, active, tick);
    forall p | p in n.stations ensures p in m.stations && n.stations[p] == m.stations[p] {
      if p in active {
        AllListed();
        assert StreakAfter(m.stations[p], active[p].seeking, tick) == m.stations[p].streak;
      }
    }
    assert n.stations == m.stations;
  }

  /** A repeated snapshot counts no offer, streak or trade a second time. */
  lemma UpdateIsIdempotent(m: Model, s: Snapshot)
    ensures Updated(Updated(m, s), s) == Updated(m, s)
  {
    var n := Updated(m, s);
    UpdateAbsorbs(m, s);
    NothingNewInDirectory(n, s.self, s.directory);
    NothingNewInAds(n, ActiveAds(s.advertisements, s.self, s.tick), s.tick);
    NothingNewInOffers(n, s.self, s.offers);
    NothingNewInTrades(n, s.self, s.transactions);
  }

  // ---- once only ---------------------------------------------------------------------------------------

  /** How often our offers to `p` were settled by it, over a list with unique ids. */
  function Settlements(offers: seq<Offer>, self: StationId, p: StationId, counted: set<ObjectId>): nat {
    if offers == [] then 0
    else
      var before, o := Settlements(offers[..|offers| - 1], self, p, counted), offers[|offers| - 1];
      if o.recipient == p && o.recipient != self && o.proposer == self && RecipientDecided(o.status) && o.id !in counted
      then before + 1 else before
  }

  predicate UniqueIds(offers: seq<Offer>) {
    forall i, j :: 0 <= i < j < |offers| ==> offers[i].id != offers[j].id
  }

  lemma {:induction false} CountedAre(m: Model, self: StationId, offers: seq<Offer>, id: ObjectId)
    ensures id in WithOffers(m, self, offers).counted <==>
              id in m.counted || exists o :: o in offers && o.id == id && o.recipient != self && o.proposer == self && RecipientDecided(o.status)
  {
    if offers != [] {
      var front, last := offers[..|offers| - 1], offers[|offers| - 1];
      assert offers == front + [last];
      CountedAre(m, self, front, id);
    }
  }

  /** Each settled offer raises its recipient's count exactly once, and nobody else's. */
  lemma {:induction false} CountsOnce(m: Model, self: StationId, offers: seq<Offer>, p: StationId)
    requires UniqueIds(offers)
    ensures WithOffers(m, self, offers).Of(p).sent == m.Of(p).sent + Settlements(offers, self, p, m.counted)
  {
    if offers != [] {
      var front, last := offers[..|offers| - 1], offers[|offers| - 1];
      assert offers == front + [last];
      CountsOnce(m, self, front, p);
      CountedAre(m, self, front, last.id);
    }
  }

  // ---- whom the model knows ------------------------------------------------------------------------------

  ghost predicate PartiesIn(s: Snapshot, others: set<StationId>) {
    && (forall id :: id in s.directory ==> id == s.self || id in others)
    && (forall ad :: ad in s.advertisements ==> ad.station == s.self || ad.station in others)
    && (forall o :: o in s.offers ==> OfferParties(o, s.self, others))
    && (forall t :: t in s.transactions ==> TradeParties(t, s.self, others))
  }

  predicate OfferParties(o: Offer, self: StationId, others: set<StationId>) {
    && (o.recipient == self ==> o.proposer in others)
    && (o.proposer == self ==> o.recipient in others)
  }

  predicate TradeParties(t: Transaction, self: StationId, others: set<StationId>) {
    && (t.recipient == self ==> t.proposer in others)
    && (t.proposer == self ==> t.recipient in others)
  }

  lemma {:induction false} ActiveStations(ads: seq<Advertisement>, self: StationId, tick: int, others: set<StationId>)
    requires forall ad :: ad in ads ==> ad.station == self || ad.station in others
    ensures ActiveAds(ads, self, tick).Keys <= others
  {
    if ads != [] {
      assert ads == ads[..|ads| - 1] + [ads[|ads| - 1]];
      ActiveStations(ads[..|ads| - 1], self, tick, others);
    }
  }

  lemma {:induction false} OfferStations(m: Model, self: StationId, offers: seq<Offer>, others: set<StationId>)
    requires m.stations.Keys <= others && forall o :: o in offers ==> OfferParties(o, self, others)
    ensures WithOffers(m, self, offers).stations.Keys <= others
  {
    if offers != [] {
      assert offers == offers[..|offers| - 1] + [offers[|offers| - 1]];
      OfferStations(m, self, offers[..|offers| - 1], others);
      assert OfferParties(offers[|offers| - 1], self, others);
    }
  }

  lemma {:induction false} TradeStations(m: Model, self: StationId, deals: seq<Transaction>, others: set<StationId>)
    requires m.stations.Keys <= others && forall t :: t in deals ==> TradeParties(t, self, others)
    ensures WithTrades(m, self, deals).stations.Keys <= others
  {
    if deals != [] {
      assert deals == deals[..|deals| - 1] + [deals[|deals| - 1]];
      TradeStations(m, self, deals[..|deals| - 1], others);
      assert TradeParties(deals[|deals| - 1], self, others);
    }
  }

  /** The model only ever lists stations that a snapshot named, and never ourselves. */
  lemma KnowsOnly(m: Model, s: Snapshot, others: set<StationId>)
    requires m.stations.Keys <= others && PartiesIn(s, others)
    ensures Updated(m, s).stations.Keys <= others
  {
    var active := ActiveAds(s.advertisements, s.self, s.tick);
    var listed := WithDirectory(m, s.self, s.directory);
    var heard := WithAds(listed, active, s.tick);
    hide OfferParties, TradeParties;
    DirectoryLists(m, s.self, s.directory);
    ActiveStations(s.advertisements, s.self, s.tick, others);
    OfferStations(heard, s.self, s.offers, others);
    TradeStations(WithOffers(heard, s.self, s.offers), s.self, s.transactions, others);
  }

  // ---- the mutable model -----------------------------------------------------------------------------------

  /** The stations once the ads of `done` have been read. */
  function Heard(m: Model, active: map<StationId, Advertisement>, done: set<StationId>, tick: int): map<StationId, Stats>
    requires done <= active.Keys
  {
    map p | p in m.stations.Keys + done :: if p in done then Advertising(m.Of(p), active[p], tick) else m.Of(p)
  }

  lemma HeardNext(m: Model, active: map<StationId, Advertisement>, done: set<StationId>, tick: int, p: StationId)
    requires done <= active.Keys && p in active && p !in done
    ensures var before := Model(Heard(m, active, done, tick), m.counted);
            Heard(m, active, done + {p}, tick) == before.stations[p := Advertising(before.Of(p), active[p], tick)]
  {
    hide Advertising;
    var before := Model(Heard(m, active, done, tick), m.counted);
    assert before.Of(p) == m.Of(p);
  }

  class CounterpartyModel {
    var stations: map<StationId, Stats>
    var counted: set<ObjectId>

    constructor ()
      ensures View() == Model(map[], {})
    {
      stations, counted := map[], {};
    }

    function View(): Model
      reads this
    {
      Model(stations, counted)
    }

    /** A station that lost trading eligibility never regains it. */
    method MarkFailed(id: StationId)
      modifies this
      ensures id !in View().Live() && View().Live() == old(View().Live()) - {id}
      ensures counted == old(counted) && stations.Keys == old(stations.Keys)
    {
      if id in stations {
        stations := stations[id := stations[id].(failed := true)];
      }
      assert View().Live() == old(View().Live()) - {id};
    }

    method Update(s: Snapshot)
      modifies this
      ensures View() == Updated(old(View()), s)
    {
      UpdateDirectory(s.self, s.directory);
      UpdateAdvertisements(s);
      UpdateOfferHistory(s.self, s.offers);
      UpdateSupply(s.self, s.transactions);
    }

    method UpdateDirectory(self: StationId, directory: seq<StationId>)
      modifies this
      ensures View() == WithDirectory(old(View()), self, directory)
    {
      for i := 0 to |directory|
        invariant View() == WithDirectory(old(View()), self, directory[..i])
      {
        assert directory[..i + 1][..i] == directory[..i];
        var id := directory[i];
        if id != self && id !in stations {
          stations := stations[id := Unknown()];
        }
      }
      assert directory[..|directory|] == directory;
    }

    method UpdateAdvertisements(s: Snapshot)
      modifies this
      ensures View() == WithAds(old(View()), ActiveAds(s.advertisements, s.self, s.tick), s.tick)
    {
      var active: map<StationId, Advertisement> := map[];
      for i := 0 to |s.advertisements|
        invariant active == ActiveAds(s.advertisements[..i], s.self, s.tick)
        invariant View() == old(View())
      {
        assert s.advertisements[..i + 1][..i] == s.advertisements[..i];
        var ad := s.advertisements[i];
        if ad.station != s.self && ad.status == Active && s.tick < ad.expires {
          active := active[ad.station := ad];
        }
      }
      assert s.advertisements[..|s.advertisements|] == s.advertisements;
      HearActive(active, s.tick);
      SilenceOthers(active);
      hide Advertising, Silenced, ActiveAds;
      assert stations == WithAds(old(View()), active, s.tick).stations;
    }

    method HearActive(active: map<StationId, Advertisement>, tick: int)
      modifies this`stations
      ensures stations == Heard(old(View()), active, active.Keys, tick)
    {
      ghost var before := View();
      var done: set<StationId> := {};
      assert stations == Heard(before, active, {}, tick);
      while done != active.Keys
        invariant done <= active.Keys && View() == Model(Heard(before, active, done, tick), before.counted)
        decreases active.Keys - done
      {
        assert exists p :: p in active.Keys && p !in done;
        var p :| p in active.Keys && p !in done;
        HeardNext(before, active, done, tick, p);
        hide Heard, Advertising;
        stations := stations[p := Advertising(View().Of(p), active[p], tick)];
        done := done + {p};
      }
    }

    method SilenceOthers(active: map<StationId, Advertisement>)
      modifies this`stations
      ensures stations.Keys == old(stations.Keys)
      ensures forall p :: p in stations ==>
                stations[p] == if p in active then old(stations)[p] else Silenced(old(stations)[p])
    {
      var todo := stations.Keys;
      while todo != {}
        invariant todo <= stations.Keys == old(stations.Keys)
        invariant forall p :: p in stations ==>
                    stations[p] == if p in active || p in todo then old(stations)[p] else Silenced(old(stations)[p])
        decreases |todo|
      {
        var p :| p in todo;
        todo := todo - {p};
        if p !in active {
          stations := stations[p := Silenced(stations[p])];
        }
      }
    }

    method UpdateOfferHistory(self: StationId, offers: seq<Offer>)
      modifies this
      ensures View() == WithOffers(old(View()), self, offers)
    {
      for i := 0 to |offers|
        invariant View() == WithOffers(old(View()), self, offers[..i])
      {
        assert offers[..i + 1][..i] == offers[..i];
        var o := offers[i];
        if o.recipient == self {
          stations := stations[o.proposer := View().Of(o.proposer).(everActive := true)];
        } else if o.proposer == self && RecipientDecided(o.status) && o.id !in counted {
          counted := counted + {o.id};
          stations := stations[o.recipient := Resolved(View().Of(o.recipient), o)];
        }
      }
      assert offers[..|offers|] == offers;
    }

    method UpdateSupply(self: StationId, deals: seq<Transaction>)
      modifies this
      ensures View() == WithTrades(old(View()), self, deals)
    {
      for i := 0 to |deals|
        invariant View() == WithTrades(old(View()), self, deals[..i])
      {
        assert deals[..i + 1][..i] == deals[..i];
        var t := deals[i];
        if self == t.recipient || self == t.proposer {
          var partner := if self == t.recipient then t.proposer else t.recipient;
          var received := if self == t.recipient then t.give else t.receive;
          var x := View().Of(partner);
          stations := stations[partner := x.(everActive := true, supplied := x.supplied + Received(received))];
        }
      }
      assert deals[..|deals|] == deals;
    }
  }
}
