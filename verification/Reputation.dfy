/** What a whole history of snapshots teaches about the other planets: how often each took our
    offers, and how long each has asked for what it lacks. */
module Reputation {
  import opened Domain
  import opened Counterparties
  import opened Engine
  import opened EngineInvariant
  import opened EngineRuns

  function LearnedFrom(history: seq<Snapshot>): Model {
    if history == [] then Model(map[], {}) else Updated(LearnedFrom(history[..|history| - 1]), history[|history| - 1])
  }

  ghost predicate AllOf(self: StationId, history: seq<Snapshot>) { forall s :: s in history ==> s.self == self }

  // ---- offers taken ------------------------------------------------------------------------------

  function OffersIn(history: seq<Snapshot>): set<Offer> { set s, o | s in history && o in s.offers :: o }

  /** An offer of ours that its recipient took, or let lapse. */
  predicate IsDecided(self: StationId, o: Offer) {
    o.proposer == self && o.recipient != self && (o.status == Accepted || o.status == Expired)
  }

  function DecidedBy(seen: set<Offer>, self: StationId, p: StationId): set<ObjectId> {
    set o | o in seen && IsDecided(self, o) && o.recipient == p :: o.id
  }

  function TakenBy(seen: set<Offer>, self: StationId, p: StationId): set<ObjectId> {
    set o | o in seen && IsDecided(self, o) && o.recipient == p && o.status == Accepted :: o.id
  }

  function AllDecided(seen: set<Offer>, self: StationId): set<ObjectId> { set o | o in seen && IsDecided(self, o) :: o.id }

  ghost predicate SameFate(self: StationId, a: Offer, b: Offer) {
    IsDecided(self, a) && IsDecided(self, b) && a.id == b.id ==> a.recipient == b.recipient && a.status == b.status
  }

  /** An id keeps its recipient and its fate. */
  ghost predicate Settled(self: StationId, seen: set<Offer>) {
    forall a, b {:trigger SameFate(self, a, b)} :: a in seen && b in seen ==> SameFate(self, a, b)
  }

  /** The record of each planet is the number of our offers it decided, and of those it took. */
  ghost predicate Reckons(m: Model, self: StationId, seen: set<Offer>) {
    && m.counted == AllDecided(seen, self)
    && forall p :: m.Of(p).sent == |DecidedBy(seen, self, p)| && m.Of(p).accepted == |TakenBy(seen, self, p)|
  }

  lemma MoreDecided(seen: set<Offer>, self: StationId, p: StationId, o: Offer)
    ensures AllDecided(seen + {o}, self) == AllDecided(seen, self) + if IsDecided(self, o) then {o.id} else {}
    ensures DecidedBy(seen + {o}, self, p) == DecidedBy(seen, self, p) + if IsDecided(self, o) && o.recipient == p then {o.id} else {}
    ensures TakenBy(seen + {o}, self, p)
         == TakenBy(seen, self, p) + if IsDecided(self, o) && o.recipient == p && o.status == Accepted then {o.id} else {}
  {
  }

  /** An offer decided before changes nothing by being seen again. */
  lemma SeenAgain(seen: set<Offer>, self: StationId, p: StationId, o: Offer)
    requires Settled(self, seen + {o}) && IsDecided(self, o) && o.id in AllDecided(seen, self)
    ensures o.recipient == p ==> o.id in DecidedBy(seen, self, p)
    ensures o.recipient == p && o.status == Accepted ==> o.id in TakenBy(seen, self, p)
  {
    var q :| q in seen && IsDecided(self, q) && q.id == o.id;
    assert SameFate(self, q, o);
  }

  lemma RecordAfter(m: Model, self: StationId, o: Offer, p: StationId)
    ensures var n, counts := OfferSeen(m, self, o), IsDecided(self, o) && o.id !in m.counted;
            && n.counted == m.counted + (if IsDecided(self, o) then {o.id} else {})
            && n.Of(p).sent == m.Of(p).sent + (if counts && o.recipient == p then 1 else 0)
            && n.Of(p).accepted == m.Of(p).accepted + (if counts && o.recipient == p && o.status == Accepted then 1 else 0)
  {
  }

  lemma KnownAlready(seen: set<Offer>, self: StationId, p: StationId, o: Offer)
    requires Settled(self, seen + {o}) && IsDecided(self, o) && o.recipient == p
    ensures o.id in DecidedBy(seen, self, p) <==> o.id in AllDecided(seen, self)
    ensures o.status == Accepted ==> (o.id in TakenBy(seen, self, p) <==> o.id in AllDecided(seen, self))
  {
    if o.id in AllDecided(seen, self) { SeenAgain(seen, self, p, o); }
  }

  lemma OneMore<T>(xs: set<T>, x: T)
    ensures |xs + {x}| == |xs| + if x in xs then 0 else 1
  {
    if x in xs { assert xs + {x} == xs; }
  }

  lemma DecidedOnce(seen: set<Offer>, self: StationId, p: StationId, o: Offer)
    requires Settled(self, seen + {o})
    ensures |DecidedBy(seen + {o}, self, p)|
         == |DecidedBy(seen, self, p)| + if IsDecided(self, o) && o.id !in AllDecided(seen, self) && o.recipient == p then 1 else 0
  {
    hide DecidedBy, AllDecided, Settled, IsDecided;
    MoreDecided(seen, self, p, o);
    if IsDecided(self, o) && o.recipient == p { KnownAlready(seen, self, p, o); }
    OneMore(DecidedBy(seen, self, p), o.id);
    assert DecidedBy(seen, self, p) + {} == DecidedBy(seen, self, p);
  }

  lemma TakenOnce(seen: set<Offer>, self: StationId, p: StationId, o: Offer)
    requires Settled(self, seen + {o})
    ensures |TakenBy(seen + {o}, self, p)|
         == |TakenBy(seen, self, p)|
            + if IsDecided(self, o) && o.id !in AllDecided(seen, self) && o.recipient == p && o.status == Accepted then 1 else 0
  {
    hide TakenBy, AllDecided, Settled, IsDecided;
    MoreDecided(seen, self, p, o);
    if IsDecided(self, o) && o.recipient == p { KnownAlready(seen, self, p, o); }
    OneMore(TakenBy(seen, self, p), o.id);
    assert TakenBy(seen, self, p) + {} == TakenBy(seen, self, p);
  }

  lemma OfferReckoned(m: Model, self: StationId, seen: set<Offer>, o: Offer)
    requires Reckons(m, self, seen) && Settled(self, seen + {o})
    ensures Reckons(OfferSeen(m, self, o), self, seen + {o})
  {
    var n := OfferSeen(m, self, o);
    MoreDecided(seen, self, self, o);
    hide OfferSeen, DecidedBy, TakenBy, AllDecided, Settled, IsDecided;
    RecordAfter(m, self, o, self);
    forall p ensures n.Of(p).sent == |DecidedBy(seen + {o}, self, p)| && n.Of(p).accepted == |TakenBy(seen + {o}, self, p)| {
      RecordAfter(m, self, o, p);
      DecidedOnce(seen, self, p, o);
      TakenOnce(seen, self, p, o);
    }
  }

  lemma FewerSettled(self: StationId, fewer: set<Offer>, seen: set<Offer>)
    requires Settled(self, seen) && fewer <= seen
    ensures Settled(self, fewer)
  {
    forall a, b | a in fewer && b in fewer ensures SameFate(self, a, b) {
      assert a in seen && b in seen;
    }
  }

  lemma {:induction false} OffersReckoned(m: Model, self: StationId, seen: set<Offer>, offers: seq<Offer>)
    requires Reckons(m, self, seen) && Settled(self, seen + set o | o in offers)
    ensures Reckons(WithOffers(m, self, offers), self, seen + set o | o in offers)
  {
    var now := seen + set o | o in offers;
    if offers == [] {
      assert now == seen;
    } else {
      var front, last := offers[..|offers| - 1], offers[|offers| - 1];
      var before := seen + set o | o in front;
      assert offers == front + [last];
      assert now == before + {last};
      FewerSettled(self, before, now);
      hide Reckons, Settled, OfferSeen;
      OffersReckoned(m, self, seen, front);
      OfferReckoned(WithOffers(m, self, front), self, before, last);
    }
  }

  ghost predicate SameRecord(m: Model, n: Model) {
    n.counted == m.counted && forall p :: n.Of(p).sent == m.Of(p).sent && n.Of(p).accepted == m.Of(p).accepted
  }

  lemma {:induction false} DirectoryKeepsRecord(m: Model, self: StationId, directory: seq<StationId>)
    ensures SameRecord(m, WithDirectory(m, self, directory))
  {
    if directory != [] { DirectoryKeepsRecord(m, self, directory[..|directory| - 1]); }
  }

  lemma AdsKeepRecord(m: Model, active: map<StationId, Advertisement>, tick: int)
    ensures SameRecord(m, WithAds(m, active, tick))
  {
    hide StreakAfter;
  }

  lemma {:induction false} TradesKeepRecord(m: Model, self: StationId, deals: seq<Transaction>)
    ensures SameRecord(m, WithTrades(m, self, deals))
  {
    if deals != [] { TradesKeepRecord(m, self, deals[..|deals| - 1]); }
  }

  lemma SnapshotReckoned(m: Model, seen: set<Offer>, s: Snapshot)
    requires Reckons(m, s.self, seen) && Settled(s.self, seen + set o | o in s.offers)
    ensures Reckons(Updated(m, s), s.self, seen + set o | o in s.offers)
  {
    var active := ActiveAds(s.advertisements, s.self, s.tick);
    var listed := WithDirectory(m, s.self, s.directory);
    var heard := WithAds(listed, active, s.tick);
    DirectoryKeepsRecord(m, s.self, s.directory);
    AdsKeepRecord(listed, active, s.tick);
    hide ActiveAds, WithDirectory, WithAds, WithOffers, WithTrades, AllDecided, DecidedBy, TakenBy;
    assert Reckons(heard, s.self, seen);
    OffersReckoned(heard, s.self, seen, s.offers);
    TradesKeepRecord(WithOffers(heard, s.self, s.offers), s.self, s.transactions);
  }

  /** Whatever history of snapshots was observed, repeats included: a planet's record is exactly how
      many different offers of ours it decided, and how many of those it took. */
  lemma {:induction false} ReputationIsEarned(self: StationId, history: seq<Snapshot>)
    requires AllOf(self, history) && Settled(self, OffersIn(history))
    ensures Reckons(LearnedFrom(history), self, OffersIn(history))
  {
    if history == [] {
      assert OffersIn(history) == {};
    } else {
      var front, last := history[..|history| - 1], history[|history| - 1];
      assert history == front + [last];
      assert OffersIn(history) == OffersIn(front) + set o | o in last.offers;
      FewerSettled(self, OffersIn(front), OffersIn(history));
      hide Reckons, Settled, Updated, OffersIn;
      ReputationIsEarned(self, front);
      SnapshotReckoned(LearnedFrom(front), OffersIn(front), last);
    }
  }

  /** One economy's snapshots agree about every offer once it is closed. */
  lemma FateIsFixed(w: World, f: Founding, events: seq<EngineRuns.Event>, self: StationId, a: Offer, b: Offer)
    requires Inv(w, f) && a in w.offers && b in Run(w, events).offers
    ensures SameFate(self, a, b)
  {
    if a.id == b.id && a.status != Open {
      var v := Run(w, events);
      RunKeeps(w, f, events);
      RunEvolves(w, f, events);
      var i :| 0 <= i < |w.offers| && w.offers[i] == a;
      assert v.offers[i] == a;
      OfferIdsUnique(v.offers, v.nextId, a, b);
    }
  }

  /** What one newly decided offer does to the rest of the record: an accepted one ends the run of
      lapsed offers and doubles the size the partner is trusted with, a lapsed one adds to the run,
      is dated, and halves the size it asked, one at least. */
  lemma OutcomeInNumbers(m: Model, self: StationId, o: Offer)
    requires IsDecided(self, o) && o.id !in m.counted
    ensures var x, y := m.Of(o.recipient), OfferSeen(m, self, o).Of(o.recipient);
            var asked := o.receive.water + o.receive.food + o.receive.components;
            && y.consecutiveExpired == (if o.status == Accepted then 0 else x.consecutiveExpired + 1)
            && y.sizeLimit == (if o.status == Accepted then (if x.sizeLimit.Some? then Some(2 * x.sizeLimit.value) else None)
                               else if asked > 0 then Some(Max(1, asked / 2)) else x.sizeLimit)
            && y.lastExpired == (if o.status == Accepted then x.lastExpired
                                 else Max(x.lastExpired, if o.closedTick.Some? then o.closedTick.value else o.expires))
            && y.failed == x.failed && y.supplied == x.supplied && SameNeeds(x, y)
  {
  }

  // ---- what each has handed us ----------------------------------------------------------------------

  /** The trade brought us some of `r` from `p`. */
  predicate Brings(self: StationId, t: Transaction, p: StationId, r: Resource) {
    || (t.recipient == self && t.proposer == p && t.give.Get(r) > 0)
    || (t.recipient != self && t.proposer == self && t.recipient == p && t.receive.Get(r) > 0)
  }

  lemma {:induction false} TradesSupply(m: Model, self: StationId, deals: seq<Transaction>, p: StationId, r: Resource)
    ensures r in WithTrades(m, self, deals).Of(p).supplied
       <==> r in m.Of(p).supplied || exists t :: t in deals && Brings(self, t, p, r)
  {
    if deals != [] {
      var front, last := deals[..|deals| - 1], deals[|deals| - 1];
      assert deals == front + [last];
      TradesSupply(m, self, front, p, r);
      TradeSupplies(WithTrades(m, self, front), self, last, p, r);
      hide TradeSeen, Brings;
    }
  }

  lemma TradeSupplies(m: Model, self: StationId, t: Transaction, p: StationId, r: Resource)
    ensures r in TradeSeen(m, self, t).Of(p).supplied <==> r in m.Of(p).supplied || Brings(self, t, p, r)
  {
    AllListed();
  }

  lemma {:induction false} DirectoryKeepsSupplies(m: Model, self: StationId, directory: seq<StationId>, p: StationId)
    ensures WithDirectory(m, self, directory).Of(p).supplied == m.Of(p).supplied
  {
    if directory != [] { DirectoryKeepsSupplies(m, self, directory[..|directory| - 1], p); }
  }

  lemma {:induction false} OffersKeepSupplies(m: Model, self: StationId, offers: seq<Offer>, p: StationId)
    ensures WithOffers(m, self, offers).Of(p).supplied == m.Of(p).supplied
  {
    if offers != [] { OffersKeepSupplies(m, self, offers[..|offers| - 1], p); }
  }

  lemma AdsKeepSupplies(m: Model, active: map<StationId, Advertisement>, tick: int, p: StationId)
    ensures WithAds(m, active, tick).Of(p).supplied == m.Of(p).supplied
  {
    hide StreakAfter;
  }

  /** A planet is known to supply exactly what it has handed us in some trade we were shown. */
  lemma {:induction false} SuppliesAreSeen(self: StationId, history: seq<Snapshot>, p: StationId, r: Resource)
    requires AllOf(self, history)
    ensures r in LearnedFrom(history).Of(p).supplied
       <==> exists s, t :: s in history && t in s.transactions && Brings(self, t, p, r)
  {
    if history != [] {
      var front, last := history[..|history| - 1], history[|history| - 1];
      assert history == front + [last];
      SuppliesAreSeen(self, front, p, r);
      var m, active := LearnedFrom(front), ActiveAds(last.advertisements, self, last.tick);
      var listed := WithDirectory(m, self, last.directory);
      var heard := WithAds(listed, active, last.tick);
      DirectoryKeepsSupplies(m, self, last.directory, p);
      AdsKeepSupplies(listed, active, last.tick, p);
      OffersKeepSupplies(heard, self, last.offers, p);
      TradesSupply(WithOffers(heard, self, last.offers), self, last.transactions, p, r);
      assert last in history && last.self == self;
      hide WithDirectory, WithAds, WithOffers, WithTrades, ActiveAds, Brings;
      assert (exists s, t :: s in history && t in s.transactions && Brings(self, t, p, r))
        <==> (exists s, t :: s in front && t in s.transactions && Brings(self, t, p, r)) || (exists t :: t in last.transactions && Brings(self, t, p, r));
    }
  }

  // ---- needs that persist -----------------------------------------------------------------------------

  /** The live advertisement of `p` in a snapshot, the last if there were several. */
  function HeardFrom(s: Snapshot, p: StationId): Option<Advertisement> { LastFrom(s.advertisements, s, p) }

  function LastFrom(ads: seq<Advertisement>, s: Snapshot, p: StationId): Option<Advertisement> {
    if ads == [] then None
    else
      var ad := ads[|ads| - 1];
      if ad.station == p && p != s.self && ad.status == Active && s.tick < ad.expires then Some(ad)
      else LastFrom(ads[..|ads| - 1], s, p)
  }

  lemma {:induction false} HeardIsActive(ads: seq<Advertisement>, s: Snapshot, p: StationId)
    ensures var active := ActiveAds(ads, s.self, s.tick);
            if p in active then LastFrom(ads, s, p) == Some(active[p]) else LastFrom(ads, s, p) == None
  {
    if ads != [] { HeardIsActive(ads[..|ads| - 1], s, p); }
  }

  /** Each snapshot of a later tick in which a planet advertises for a resource adds one to how
      long it has sought it, a snapshot of the same tick adds nothing, and one in which it does
      not ends the count. */
  lemma NeedInNumbers(m: Model, s: Snapshot, p: StationId, r: Resource)
    ensures var x, y, ad := m.Of(p), Updated(m, s).Of(p), HeardFrom(s, p);
            && y.Streak(r) == (if ad.Some? && r in ad.value.seeking
                               then x.Streak(r) + (if s.tick > x.lastAdTick then 1 else 0) else 0)
            && y.selling == (if ad.Some? then ad.value.selling else {})
            && y.seeking == (if ad.Some? then ad.value.seeking else {})
            && y.lastAdTick == (if ad.Some? then s.tick else x.lastAdTick)
  {
    var active := ActiveAds(s.advertisements, s.self, s.tick);
    var listed := WithDirectory(m, s.self, s.directory);
    var heard := WithAds(listed, active, s.tick);
    var offered := WithOffers(heard, s.self, s.offers);
    HeardIsActive(s.advertisements, s, p);
    DirectoryKeepsNeeds(m, s.self, s.directory, p);
    AdsTellNeeds(listed, active, s.tick, p, r);
    hide ActiveAds, WithDirectory, WithAds, LastFrom;
    OffersKeepNeeds(heard, s.self, s.offers, p);
    TradesKeepNeeds(offered, s.self, s.transactions, p);
  }

  predicate SameNeeds(x: Stats, y: Stats) {
    x.selling == y.selling && x.seeking == y.seeking && x.streak == y.streak && x.lastAdTick == y.lastAdTick
  }

  lemma {:induction false} DirectoryKeepsNeeds(m: Model, self: StationId, directory: seq<StationId>, p: StationId)
    ensures SameNeeds(m.Of(p), WithDirectory(m, self, directory).Of(p))
  {
    if directory != [] { DirectoryKeepsNeeds(m, self, directory[..|directory| - 1], p); }
  }

  lemma {:induction false} OffersKeepNeeds(m: Model, self: StationId, offers: seq<Offer>, p: StationId)
    ensures SameNeeds(m.Of(p), WithOffers(m, self, offers).Of(p))
  {
    if offers != [] { OffersKeepNeeds(m, self, offers[..|offers| - 1], p); }
  }

  lemma {:induction false} TradesKeepNeeds(m: Model, self: StationId, deals: seq<Transaction>, p: StationId)
    ensures SameNeeds(m.Of(p), WithTrades(m, self, deals).Of(p))
  {
    if deals != [] { TradesKeepNeeds(m, self, deals[..|deals| - 1], p); }
  }

  lemma AdsTellNeeds(m: Model, active: map<StationId, Advertisement>, tick: int, p: StationId, r: Resource)
    ensures var x, y := m.Of(p), WithAds(m, active, tick).Of(p);
            && (p in active ==>
                  && y.Streak(r) == (if r in active[p].seeking then x.Streak(r) + (if tick > x.lastAdTick then 1 else 0) else 0)
                  && y.selling == active[p].selling && y.seeking == active[p].seeking && y.lastAdTick == tick)
            && (p !in active ==> y.streak == map[] && y.selling == {} && y.seeking == {} && y.lastAdTick == x.lastAdTick)
  {
    AllListed();
  }
}
