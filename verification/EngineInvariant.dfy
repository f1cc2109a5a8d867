/** What every command and every tick keeps, and what follows over whole runs. */
module EngineInvariant {
  import opened Domain
  import opened Stations
  import opened Engine

  /** The stock and health each station was founded with. */
  datatype Founding = Founding(stock: map<StationId, Bundle>, health: map<StationId, nat>)

  // ---- the invariant ----------------------------------------------------------
  // The pairwise and matching clauses are instantiated only where a proof names them.

  ghost predicate OfferPrecedes(offers: seq<Offer>, i: nat, j: nat)
    requires i < |offers| && j < |offers|
  {
    offers[i].id.OfferId? && offers[j].id.OfferId? && offers[i].id.number < offers[j].id.number
  }

  /** Offer ids rise along the list and stay below the next id. */
  ghost predicate OffersNumbered(offers: seq<Offer>, nextId: nat) {
    && (forall i, j {:trigger OfferPrecedes(offers, i, j)} :: 0 <= i < j < |offers| ==> OfferPrecedes(offers, i, j))
    && (forall o :: o in offers ==> o.id.OfferId? && o.id.number < nextId)
  }

  ghost predicate DealPrecedes(deals: seq<Transaction>, i: nat, j: nat)
    requires i < |deals| && j < |deals|
  {
    deals[i].id.TransactionId? && deals[j].id.TransactionId? && deals[i].id.number < deals[j].id.number
  }

  ghost predicate DealsNumbered(deals: seq<Transaction>, nextId: nat) {
    && (forall i, j {:trigger DealPrecedes(deals, i, j)} :: 0 <= i < j < |deals| ==> DealPrecedes(deals, i, j))
    && (forall t :: t in deals ==> t.id.TransactionId? && t.id.number < nextId)
  }

  ghost predicate AdsDiffer(ads: seq<Advertisement>, i: nat, j: nat)
    requires i < |ads| && j < |ads|
  {
    ads[i].id != ads[j].id && ads[i].station != ads[j].station
  }

  /** Each station has at most one advertisement. */
  ghost predicate AdsNumbered(ads: seq<Advertisement>, nextId: nat) {
    && (forall i, j {:trigger AdsDiffer(ads, i, j)} :: 0 <= i < j < |ads| ==> AdsDiffer(ads, i, j))
    && (forall a :: a in ads ==> a.id.AdId? && a.id.number < nextId)
  }

  /** An open offer has time left and two unfailed parties. */
  ghost predicate Standing(o: Offer, stations: map<StationId, Station>, tick: nat, duration: nat) {
    && (o.status == Open ==>
          && tick < o.expires <= duration
          && !HasFailed(stations, o.proposer) && !HasFailed(stations, o.recipient)
          && o.closedTick.None?)
    && (o.status == Accepted <==> o.transaction.Some?)
    && o.status != RunEnded
  }

  ghost predicate OffersStand(offers: seq<Offer>, stations: map<StationId, Station>, tick: nat, duration: nat) {
    forall o :: o in offers ==> Standing(o, stations, tick, duration)
  }

  ghost predicate AdsStand(ads: seq<Advertisement>, stations: map<StationId, Station>, tick: nat, duration: nat) {
    forall a :: a in ads ==>
      a.station in stations && !HasFailed(stations, a.station) && tick < a.expires <= duration && a.status == Active
  }

  ghost predicate OpenWithin(offers: seq<Offer>, limit: nat) {
    forall s {:trigger OpenCount(offers, s)} :: OpenCount(offers, s) <= limit
  }

  ghost predicate CountsWithin(counts: map<StationId, nat>, limit: nat) {
    forall s {:trigger CountOf(counts, s)} :: CountOf(counts, s) <= limit
  }

  /** `o` is the settled offer that `t` records. */
  predicate Records(o: Offer, t: Transaction) {
    && o.id == t.offer && o.status == Accepted && o.transaction == Some(t.id)
    && o.proposer == t.proposer && o.recipient == t.recipient
    && o.give == t.give && o.receive == t.receive
  }

  ghost predicate DealBacked(offers: seq<Offer>, t: Transaction) {
    exists o :: o in offers && Records(o, t)
  }

  ghost predicate OfferBacked(deals: seq<Transaction>, o: Offer) {
    exists t :: t in deals && Records(o, t)
  }

  /** Accepted offers and transactions correspond one to one. */
  ghost predicate Matched(offers: seq<Offer>, deals: seq<Transaction>) {
    && (forall t {:trigger DealBacked(offers, t)} :: t in deals ==> DealBacked(offers, t))
    && (forall o {:trigger OfferBacked(deals, o)} :: o in offers && o.status == Accepted ==> OfferBacked(deals, o))
    && Tally(offers, AcceptedOffers) == |deals|
  }

  datatype Side = Inward | Outward

  /** What one trade moves into, or out of, one station. */
  function Moved(t: Transaction, s: StationId, side: Side): Bundle {
    var asProposer := if t.proposer != s then Bundle.Zero() else if side == Inward then t.receive else t.give;
    var asRecipient := if t.recipient != s then Bundle.Zero() else if side == Inward then t.give else t.receive;
    asProposer.Plus(asRecipient)
  }

  function FlowOf(deals: seq<Transaction>, s: StationId, side: Side): Bundle {
    if deals == [] then Bundle.Zero()
    else FlowOf(deals[..|deals| - 1], s, side).Plus(Moved(deals[|deals| - 1], s, side))
  }

  ghost predicate BookedFor(stations: map<StationId, Station>, deals: seq<Transaction>, s: StationId)
    requires s in stations
  {
    stations[s].imported == FlowOf(deals, s, Inward) && stations[s].exported == FlowOf(deals, s, Outward)
  }

  /** Each station's trade totals are the transaction list seen from its side. */
  ghost predicate Booked(stations: map<StationId, Station>, deals: seq<Transaction>) {
    forall s {:trigger BookedFor(stations, deals, s)} :: s in stations ==> BookedFor(stations, deals, s)
  }

  ghost predicate AccountedFor(stations: map<StationId, Station>, rules: Rules, tick: nat, f: Founding, s: StationId)
    requires s in stations && s in f.stock && s in f.health
  {
    Accounts(stations[s], rules, tick, f.stock[s], f.health[s])
  }

  ghost predicate Accounted(stations: map<StationId, Station>, rules: Rules, tick: nat, f: Founding) {
    && rules.maxHealth > 0
    && f.stock.Keys == f.health.Keys == stations.Keys
    && (forall s {:trigger AccountedFor(stations, rules, tick, f, s)} :: s in stations ==> AccountedFor(stations, rules, tick, f, s))
  }

  ghost predicate Differ<T(!new)>(xs: seq<T>, i: nat, j: nat)
    requires i < |xs| && j < |xs|
  {
    xs[i] != xs[j]
  }

  ghost predicate Distinct<T(!new)>(xs: seq<T>) {
    forall i, j {:trigger Differ(xs, i, j)} :: 0 <= i < j < |xs| ==> Differ(xs, i, j)
  }

  ghost predicate Inv(w: World, f: Founding) {
    && Sound(w) && Distinct(w.roster)
    && OffersNumbered(w.offers, w.nextId) && DealsNumbered(w.transactions, w.nextId) && AdsNumbered(w.ads, w.nextId)
    && OffersStand(w.offers, w.stations, w.tick, w.rules.durationTicks)
    && AdsStand(w.ads, w.stations, w.tick, w.rules.durationTicks)
    && OpenWithin(w.offers, w.rules.maxOpenOffers) && CountsWithin(w.counts, w.rules.commandsPerTick)
    && Matched(w.offers, w.transactions)
    && Booked(w.stations, w.transactions) && Accounted(w.stations, w.rules, w.tick, f)
  }

  // ---- tallies ------------------------------------------------------------------

  lemma TallyAppend(offers: seq<Offer>, o: Offer, m: Measure)
    ensures Tally(offers + [o], m) == Tally(offers, m) + m.Of(o)
  {
    assert (offers + [o])[..|offers|] == offers;
  }

  /** Changing one entry changes the tally by that entry alone. */
  lemma {:induction false} TallyUpdate(before: seq<Offer>, after: seq<Offer>, k: nat, m: Measure)
    requires |before| == |after| && k < |before|
    requires forall i :: 0 <= i < |before| && i != k ==> before[i] == after[i]
    ensures Tally(after, m) + m.Of(before[k]) == Tally(before, m) + m.Of(after[k])
  {
    var n := |before| - 1;
    if k == n {
      assert before[..n] == after[..n];
    } else {
      TallyUpdate(before[..n], after[..n], k, m);
    }
  }

  lemma {:induction false} TallyMonotone(before: seq<Offer>, after: seq<Offer>, m: Measure)
    requires |before| == |after|
    requires forall i :: 0 <= i < |before| ==> m.Of(after[i]) <= m.Of(before[i])
    ensures Tally(after, m) <= Tally(before, m)
  {
    if |before| > 0 {
      TallyMonotone(before[..|before| - 1], after[..|after| - 1], m);
    }
  }

  lemma {:induction false} TallySame(before: seq<Offer>, after: seq<Offer>, m: Measure)
    requires |before| == |after|
    requires forall i :: 0 <= i < |before| ==> m.Of(after[i]) == m.Of(before[i])
    ensures Tally(after, m) == Tally(before, m)
  {
    if |before| > 0 {
      TallySame(before[..|before| - 1], after[..|after| - 1], m);
    }
  }

  /** With distinct ids, closing by id changes exactly the offer that was found. */
  lemma CloseChangesOne(w: World, o: Offer, status: OfferStatus, transaction: Option<ObjectId>) returns (k: nat)
    requires OffersNumbered(w.offers, w.nextId) && o in w.offers
    ensures k < |w.offers| && w.offers[k] == o
    ensures var after := CloseById(w.offers, o.id, status, w.tick, transaction);
            && |after| == |w.offers| && after[k] == Closed(o, status, w.tick, transaction)
            && forall i :: 0 <= i < |after| && i != k ==> after[i] == w.offers[i]
  {
    k :| 0 <= k < |w.offers| && w.offers[k] == o;
    forall i | 0 <= i < |w.offers| && i != k
      ensures w.offers[i].id != o.id
    {
      assert if i < k then OfferPrecedes(w.offers, i, k) else OfferPrecedes(w.offers, k, i);
    }
  }

  lemma OfferIdsRise(offers: seq<Offer>, nextId: nat, i: nat, j: nat)
    requires OffersNumbered(offers, nextId) && i < j < |offers|
    ensures offers[i].id != offers[j].id
  {
    assert OfferPrecedes(offers, i, j);
  }

  lemma OfferIdsUnique(offers: seq<Offer>, nextId: nat, a: Offer, b: Offer)
    requires OffersNumbered(offers, nextId) && a in offers && b in offers && a.id == b.id
    ensures a == b
  {
    var i :| 0 <= i < |offers| && offers[i] == a;
    var j :| 0 <= j < |offers| && offers[j] == b;
    if i < j {
      OfferIdsRise(offers, nextId, i, j);
    } else if j < i {
      OfferIdsRise(offers, nextId, j, i);
    }
  }

  // ---- each command keeps the invariant ---------------------------------------------

  lemma CountedKeeps(w: World, f: Founding, s: StationId)
    requires Inv(w, f) && s in w.stations && CountOf(w.counts, s) < w.rules.commandsPerTick
    ensures Inv(Counted(w, s), f)
  {
    var next := Counted(w, s);
    forall p ensures CountOf(next.counts, p) <= w.rules.commandsPerTick {
      assert CountOf(w.counts, p) <= w.rules.commandsPerTick;
    }
  }

  lemma {:induction false} KeptAdsNumbered(ads: seq<Advertisement>, filter: AdFilter, nextId: nat)
    requires AdsNumbered(ads, nextId)
    ensures AdsNumbered(KeepAds(ads, filter), nextId)
  {
    if ads != [] {
      var n := |ads| - 1;
      var front := ads[..n];
      forall i, j | 0 <= i < j < n ensures AdsDiffer(front, i, j) {
        assert AdsDiffer(ads, i, j);
      }
      KeptAdsNumbered(front, filter, nextId);
      var kept, all := KeepAds(front, filter), KeepAds(ads, filter);
      forall i, j | 0 <= i < j < |all| ensures AdsDiffer(all, i, j) {
        if j < |kept| {
          assert AdsDiffer(kept, i, j);
        } else {
          assert kept[i] in front;
          var m :| 0 <= m < n && front[m] == kept[i];
          assert AdsDiffer(ads, m, n);
        }
      }
    }
  }

  lemma AdvertisedKeeps(w: World, f: Founding, s: StationId, a: Action)
    requires Inv(w, f) && s in w.stations && !w.stations[s].failed
    requires a.Advertise? && w.tick < a.expires <= w.rules.durationTicks
    ensures Inv(Advertised(w, s, a).0, f)
  {
    KeptAdsNumbered(w.ads, NotBy(s), w.nextId);
    var kept, all := KeepAds(w.ads, NotBy(s)), Advertised(w, s, a).0.ads;
    forall i, j | 0 <= i < j < |all| ensures AdsDiffer(all, i, j) {
      if j < |kept| {
        assert AdsDiffer(kept, i, j);
      } else {
        assert kept[i] in kept;
      }
    }
    assert AdsNumbered(all, w.nextId + 1);
  }

  lemma PostedMatches(offers: seq<Offer>, o: Offer, deals: seq<Transaction>)
    requires Matched(offers, deals) && o.status == Open
    ensures Matched(offers + [o], deals)
  {
    TallyAppend(offers, o, AcceptedOffers);
    forall t | t in deals ensures DealBacked(offers + [o], t) {
      assert DealBacked(offers, t);
      var p :| p in offers && Records(p, t);
      assert p in offers + [o];
    }
    forall p | p in offers + [o] && p.status == Accepted ensures OfferBacked(deals, p) {
      assert p in offers;
    }
  }

  lemma PostedNumbered(offers: seq<Offer>, o: Offer, nextId: nat)
    requires OffersNumbered(offers, nextId) && o.id == OfferId(nextId)
    ensures OffersNumbered(offers + [o], nextId + 1)
  {
    var all := offers + [o];
    forall i, j | 0 <= i < j < |all| ensures OfferPrecedes(all, i, j) {
      if j < |offers| {
        assert OfferPrecedes(offers, i, j);
      } else {
        assert offers[i] in offers;
      }
    }
  }

  lemma PostedKeeps(w: World, f: Founding, s: StationId, a: Action)
    requires Inv(w, f) && s in w.stations && !w.stations[s].failed
    requires a.MakeOffer? && w.tick < a.expires <= w.rules.durationTicks
    requires a.recipient in w.stations && a.recipient != s && !w.stations[a.recipient].failed
    requires OpenCount(w.offers, s) < w.rules.maxOpenOffers
    ensures Inv(Posted(w, s, a).0, f)
  {
    var o := OfferFor(w, s, a);
    forall p ensures OpenCount(w.offers + [o], p) <= w.rules.maxOpenOffers {
      TallyAppend(w.offers, o, OpenOffersOf(p));
      assert OpenCount(w.offers, p) <= w.rules.maxOpenOffers;
    }
    PostedMatches(w.offers, o, w.transactions);
    PostedNumbered(w.offers, o, w.nextId);
    forall p | p in w.offers + [o]
      ensures Standing(p, w.stations, w.tick, w.rules.durationTicks)
      ensures p.proposer in w.stations && p.recipient in w.stations && p.proposer != p.recipient
    {
      assert p != o ==> p in w.offers;
    }
    var next := Posted(w, s, a).0;
    assert Sound(next);
    assert OffersStand(next.offers, next.stations, next.tick, next.rules.durationTicks);
  }

  lemma WithdrewAdKeeps(w: World, f: Founding, ad: Advertisement)
    requires Inv(w, f)
    ensures Inv(w.(ads := KeepAds(w.ads, NotAd(ad))), f)
  {
    KeptAdsNumbered(w.ads, NotAd(ad), w.nextId);
  }

  /** What a list of offers keeps when some open ones are closed. */
  ghost predicate OnlyCloses(before: seq<Offer>, after: seq<Offer>) {
    && |before| == |after|
    && forall i :: 0 <= i < |before| ==>
         after[i] == before[i]
         || (before[i].status == Open && after[i].status != Open
             && after[i] == before[i].(status := after[i].status, closedTick := after[i].closedTick, transaction := after[i].transaction))
  }

  lemma ClosingKeepsNumbers(before: seq<Offer>, after: seq<Offer>, nextId: nat)
    requires OnlyCloses(before, after) && OffersNumbered(before, nextId)
    ensures OffersNumbered(after, nextId)
  {
    forall i, j | 0 <= i < j < |after| ensures OfferPrecedes(after, i, j) {
      assert OfferPrecedes(before, i, j);
    }
    forall o | o in after ensures o.id.OfferId? && o.id.number < nextId {
      var i :| 0 <= i < |after| && after[i] == o;
      assert before[i] in before;
    }
  }

  lemma ClosingKeepsNumbersAndLimits(before: seq<Offer>, after: seq<Offer>, nextId: nat, limit: nat)
    requires OnlyCloses(before, after) && OffersNumbered(before, nextId) && OpenWithin(before, limit)
    ensures OffersNumbered(after, nextId) && OpenWithin(after, limit)
  {
    ClosingKeepsNumbers(before, after, nextId);
    forall s ensures OpenCount(after, s) <= limit {
      TallyMonotone(before, after, OpenOffersOf(s));
      assert OpenCount(before, s) <= limit;
    }
  }

  /** Closing open offers without settling them leaves the settled ones matched. */
  lemma ClosingKeepsMatches(before: seq<Offer>, after: seq<Offer>, deals: seq<Transaction>)
    requires OnlyCloses(before, after) && Matched(before, deals)
    requires forall i :: 0 <= i < |after| && after[i] != before[i] ==> after[i].status != Accepted
    ensures Matched(after, deals)
  {
    TallySame(before, after, AcceptedOffers);
    forall t | t in deals ensures DealBacked(after, t) {
      assert DealBacked(before, t);
      var o :| o in before && Records(o, t);
      var i :| 0 <= i < |before| && before[i] == o;
      assert after[i] == o;
    }
    forall o | o in after && o.status == Accepted ensures OfferBacked(deals, o) {
      var i :| 0 <= i < |after| && after[i] == o;
      assert before[i] == o;
    }
  }

  lemma WithdrewOfferKeeps(w: World, f: Founding, o: Offer)
    requires Inv(w, f) && o in w.offers && o.status == Open
    ensures Inv(w.(offers := CloseById(w.offers, o.id, Withdrawn, w.tick, None)), f)
  {
    var after := CloseById(w.offers, o.id, Withdrawn, w.tick, None);
    var k := CloseChangesOne(w, o, Withdrawn, None);
    assert OnlyCloses(w.offers, after);
    ClosingKeepsNumbersAndLimits(w.offers, after, w.nextId, w.rules.maxOpenOffers);
    ClosingKeepsMatches(w.offers, after, w.transactions);
    forall p | p in after
      ensures Standing(p, w.stations, w.tick, w.rules.durationTicks)
      ensures p.proposer in w.stations && p.recipient in w.stations && p.proposer != p.recipient
    {
      var i :| 0 <= i < |after| && after[i] == p;
      assert w.offers[i] in w.offers;
    }
  }

  lemma SettledMatches(w: World, o: Offer, k: nat, deal: Transaction, after: seq<Offer>)
    requires Matched(w.offers, w.transactions)
    requires k < |w.offers| == |after| && w.offers[k] == o && o.status == Open
    requires after[k] == Closed(o, Accepted, w.tick, Some(deal.id)) && Records(after[k], deal)
    requires forall i :: 0 <= i < |after| && i != k ==> after[i] == w.offers[i]
    ensures Matched(after, w.transactions + [deal])
  {
    var deals := w.transactions + [deal];
    TallyUpdate(w.offers, after, k, AcceptedOffers);
    forall t | t in deals ensures DealBacked(after, t) {
      if t in w.transactions {
        assert DealBacked(w.offers, t);
        var p :| p in w.offers && Records(p, t);
        var i :| 0 <= i < |w.offers| && w.offers[i] == p;
        assert after[i] == p;
      } else {
        assert after[k] in after;
      }
    }
    forall p | p in after && p.status == Accepted ensures OfferBacked(deals, p) {
      var i :| 0 <= i < |after| && after[i] == p;
      if i == k {
        assert deal in deals;
      } else {
        assert OfferBacked(w.transactions, p);
        var t :| t in w.transactions && Records(p, t);
        assert t in deals;
      }
    }
  }

  lemma TradedAccounts(s: Station, rules: Rules, ticks: nat, stock0: Bundle, health0: nat, pays: Bundle, gets: Bundle)
    requires Accounts(s, rules, ticks, stock0, health0) && s.inventory.Dominates(pays)
    ensures Accounts(Traded(s, pays, gets), rules, ticks, stock0, health0)
  {
  }

  predicate CanSettle(w: World, o: Offer) {
    && o.proposer in w.stations && o.recipient in w.stations && o.proposer != o.recipient
    && w.stations[o.proposer].inventory.Dominates(o.give)
    && w.stations[o.recipient].inventory.Dominates(o.receive)
  }

  /** Settlement moves both bundles on both sides of the books. */
  lemma SettledBooks(w: World, o: Offer)
    requires Sound(w) && o in w.offers && CanSettle(w, o)
    requires Booked(w.stations, w.transactions)
    ensures var next := SettledOffer(w, o); Booked(next.stations, next.transactions)
  {
    var next := SettledOffer(w, o);
    assert next.transactions[..|w.transactions|] == w.transactions;
    forall s | s in next.stations
      ensures BookedFor(next.stations, next.transactions, s)
    {
      assert BookedFor(w.stations, w.transactions, s);
    }
  }

  lemma SettledAccounted(w: World, f: Founding, o: Offer)
    requires Sound(w) && o in w.offers && CanSettle(w, o)
    requires Accounted(w.stations, w.rules, w.tick, f)
    ensures var next := SettledOffer(w, o); Accounted(next.stations, next.rules, next.tick, f)
  {
    var next := SettledOffer(w, o);
    forall s | s in next.stations
      ensures AccountedFor(next.stations, next.rules, next.tick, f, s)
    {
      assert AccountedFor(w.stations, w.rules, w.tick, f, s);
      if s == o.proposer {
        TradedAccounts(w.stations[s], w.rules, w.tick, f.stock[s], f.health[s], o.give, o.receive);
      } else if s == o.recipient {
        TradedAccounts(w.stations[s], w.rules, w.tick, f.stock[s], f.health[s], o.receive, o.give);
      }
    }
  }

  lemma SettledStanding(w: World, f: Founding, o: Offer, k: nat, next: World)
    requires Inv(w, f) && o in w.offers && AcceptRefusal(w, o.recipient, Some(o)).None?
    requires next == SettledOffer(w, o)
    requires k < |w.offers| == |next.offers| && w.offers[k] == o
    requires next.offers[k] == Closed(o, Accepted, w.tick, Some(TransactionId(w.nextId)))
    requires forall i :: 0 <= i < |w.offers| && i != k ==> next.offers[i] == w.offers[i]
    ensures Sound(next)
    ensures OffersStand(next.offers, next.stations, next.tick, next.rules.durationTicks)
    ensures AdsStand(next.ads, next.stations, next.tick, next.rules.durationTicks)
  {
    assert forall s :: HasFailed(next.stations, s) == HasFailed(w.stations, s);
    forall p | p in next.offers
      ensures Standing(p, next.stations, w.tick, w.rules.durationTicks)
      ensures p.proposer in next.stations && p.recipient in next.stations && p.proposer != p.recipient
    {
      var i :| 0 <= i < |next.offers| && next.offers[i] == p;
      assert w.offers[i] in w.offers;
    }
  }

  lemma SettledKeeps(w: World, f: Founding, o: Offer)
    requires Inv(w, f) && o in w.offers && AcceptRefusal(w, o.recipient, Some(o)).None?
    ensures Inv(SettledOffer(w, o), f)
  {
    var deal := TransactionFor(w, o);
    var next := SettledOffer(w, o);
    var k := CloseChangesOne(w, o, Accepted, Some(deal.id));
    SettledMatches(w, o, k, deal, next.offers);
    SettledBooks(w, o);
    SettledAccounted(w, f, o);
    SettledStanding(w, f, o, k, next);
    assert OnlyCloses(w.offers, next.offers);
    ClosingKeepsNumbersAndLimits(w.offers, next.offers, w.nextId, w.rules.maxOpenOffers);
    forall i, j | 0 <= i < j < |next.transactions| ensures DealPrecedes(next.transactions, i, j) {
      if j < |w.transactions| {
        assert DealPrecedes(w.transactions, i, j);
      } else {
        assert w.transactions[i] in w.transactions;
      }
    }
  }

  lemma AcceptedKeeps(w: World, f: Founding, s: StationId, id: ObjectId)
    requires Inv(w, f)
    ensures Inv(AcceptedOffer(w, s, id).0, f)
  {
    var found := FindOffer(w.offers, id);
    if AcceptRefusal(w, s, found).None? { SettledKeeps(w, f, found.value); }
  }

  lemma WithdrewKeeps(w: World, f: Founding, s: StationId, id: ObjectId)
    requires Inv(w, f)
    ensures Inv(Withdrew(w, s, id).0, f)
  {
    var ad := FindAd(w.ads, id);
    if ad.Some? {
      WithdrewAdKeeps(w, f, ad.value);
    } else {
      var found := FindOffer(w.offers, id);
      if found.Some? && found.value.status == Open { WithdrewOfferKeeps(w, f, found.value); }
    }
  }

  /** The engine's main invariant: no command, accepted or refused, breaks it. */
  lemma ExecuteKeeps(w: World, f: Founding, s: StationId, a: Action)
    requires Inv(w, f) && s in w.stations
    ensures Inv(Execute(w, s, a).0, f)
  {
    if Precheck(w, s, a).None? {
      CountedKeeps(w, f, s);
      var c := Counted(w, s);
      match a
      case Advertise(_, _, _) => AdvertisedKeeps(c, f, s, a);
      case MakeOffer(_, _, _, _) => PostedKeeps(c, f, s, a);
      case Accept(id) => AcceptedKeeps(c, f, s, id);
      case Withdraw(id) => WithdrewKeeps(c, f, s, id);
      case Sync =>
    }
  }

  // ---- ticks keep the invariant ---------------------------------------------------------

  /** Offers as the clock leaves them: first the late are closed, then the failed. */
  function AdvancedOffers(offers: seq<Offer>, stations: map<StationId, Station>, now: nat): seq<Offer> {
    CloseDue(CloseDue(offers, DeadlineBy(now), Expired, now), PartyIn(FailedOf(stations)), Withdrawn, now)
  }

  /** What a tick does to each part of the world. */
  lemma AdvanceFields(w: World)
    ensures var next, now := Advance(w), w.tick + 1;
            && next.roster == w.roster && next.rules == w.rules && next.nextId == w.nextId && next.transactions == w.transactions
            && next.tick == now && next.counts == map[]
            && next.stations == SettleAll(w.(tick := now)).stations
            && next.offers == AdvancedOffers(w.offers, next.stations, now)
            && next.ads == KeepAds(KeepAds(w.ads, LivePast(now)), NotByAny(FailedOf(next.stations)))
  {
    hide KeepAds, CloseDue, Settled, FailedOf;
  }

  lemma SettlingKeepsTrade(s: Station, rules: Rules, tick: nat)
    ensures Settled(s, rules, tick).imported == s.imported && Settled(s, rules, tick).exported == s.exported
  {
  }

  lemma AdvanceAccounts(w: World, f: Founding)
    requires Booked(w.stations, w.transactions) && Accounted(w.stations, w.rules, w.tick, f)
    ensures var next := Advance(w);
            Booked(next.stations, next.transactions) && Accounted(next.stations, next.rules, next.tick, f)
  {
    var next := Advance(w);
    AdvanceFields(w);
    hide Advance, AdvancedOffers, Accounts, FlowOf;
    forall s | s in next.stations
      ensures BookedFor(next.stations, next.transactions, s)
    {
      assert BookedFor(w.stations, w.transactions, s);
      SettlingKeepsTrade(w.stations[s], w.rules, w.tick + 1);
    }
    hide Settled;
    forall s | s in next.stations
      ensures AccountedFor(next.stations, next.rules, next.tick, f, s)
    {
      assert AccountedFor(w.stations, w.rules, w.tick, f, s);
      SettledAccounts(w.stations[s], w.rules, w.tick, f.stock[s], f.health[s]);
    }
  }

  lemma CloseDueOnlyCloses(offers: seq<Offer>, due: Due, status: OfferStatus, tick: nat)
    requires status != Open && status != Accepted
    ensures var after := CloseDue(offers, due, status, tick);
            && OnlyCloses(offers, after)
            && (forall i :: 0 <= i < |after| && after[i] != offers[i] ==> after[i].status != Accepted)
            && (forall o :: o in after && o.status == Open ==> o in offers && !due.Hits(o))
  {
  }

  lemma CloseDueKeeps(offers: seq<Offer>, due: Due, status: OfferStatus, tick: nat, nextId: nat, limit: nat, deals: seq<Transaction>)
    requires status == Withdrawn || status == Expired
    requires OffersNumbered(offers, nextId) && OpenWithin(offers, limit) && Matched(offers, deals)
    ensures var after := CloseDue(offers, due, status, tick);
            OffersNumbered(after, nextId) && OpenWithin(after, limit) && Matched(after, deals)
  {
    CloseDueOnlyCloses(offers, due, status, tick);
    ClosingKeepsNumbersAndLimits(offers, CloseDue(offers, due, status, tick), nextId, limit);
    ClosingKeepsMatches(offers, CloseDue(offers, due, status, tick), deals);
  }

  lemma AdvanceCloses(w: World, f: Founding)
    requires Inv(w, f)
    ensures var next := Advance(w);
            && OffersNumbered(next.offers, next.nextId) && OpenWithin(next.offers, next.rules.maxOpenOffers)
            && Matched(next.offers, next.transactions)
  {
    AdvanceFields(w);
    assert OffersNumbered(w.offers, w.nextId) && OpenWithin(w.offers, w.rules.maxOpenOffers) && Matched(w.offers, w.transactions);
    hide Inv, Matched, OpenWithin, OffersNumbered, CloseDue, Advance, SettleAll, KeepAds, FailedOf;
    var now := w.tick + 1;
    var stations := Advance(w).stations;
    var middle := CloseDue(w.offers, DeadlineBy(now), Expired, now);
    CloseDueKeeps(w.offers, DeadlineBy(now), Expired, now, w.nextId, w.rules.maxOpenOffers, w.transactions);
    CloseDueKeeps(middle, PartyIn(FailedOf(stations)), Withdrawn, now, w.nextId, w.rules.maxOpenOffers, w.transactions);
  }

  lemma SweptAdsNumbered(ads: seq<Advertisement>, nextId: nat, now: int, failed: set<StationId>)
    requires AdsNumbered(ads, nextId)
    ensures AdsNumbered(KeepAds(KeepAds(ads, LivePast(now)), NotByAny(failed)), nextId)
  {
    KeptAdsNumbered(ads, LivePast(now), nextId);
    KeptAdsNumbered(KeepAds(ads, LivePast(now)), NotByAny(failed), nextId);
  }

  lemma ClosedOfferStands(o: Offer, due: Due, status: OfferStatus, tick: nat) returns (c: Offer)
    requires status == Withdrawn || status == Expired
    requires o.status == Accepted <==> o.transaction.Some?
    requires o.status == Open ==> o.closedTick.None?
    requires o.status != RunEnded
    ensures c == if o.status == Open && due.Hits(o) then Closed(o, status, tick, None) else o
    ensures c.status == Accepted <==> c.transaction.Some?
    ensures c.status == Open ==> c == o && !due.Hits(o) && c.closedTick.None?
    ensures c.proposer == o.proposer && c.recipient == o.recipient && c.status != RunEnded
  {
    c := if o.status == Open && due.Hits(o) then Closed(o, status, tick, None) else o;
  }

  lemma AdvancedOfferStands(w: World, stations: map<StationId, Station>, i: nat)
    requires Sound(w) && OffersStand(w.offers, w.stations, w.tick, w.rules.durationTicks)
    requires i < |w.offers| && stations.Keys == w.stations.Keys
    ensures var o := AdvancedOffers(w.offers, stations, w.tick + 1)[i];
            && Standing(o, stations, w.tick + 1, w.rules.durationTicks)
            && o.proposer in stations && o.recipient in stations && o.proposer != o.recipient
  {
    var now := w.tick + 1;
    assert w.offers[i] in w.offers;
    var first := ClosedOfferStands(w.offers[i], DeadlineBy(now), Expired, now);
    var second := ClosedOfferStands(first, PartyIn(FailedOf(stations)), Withdrawn, now);
  }

  lemma AdvancedLength(offers: seq<Offer>, stations: map<StationId, Station>, now: nat)
    ensures |AdvancedOffers(offers, stations, now)| == |offers|
  {
  }

  lemma AdvanceStands(w: World)
    requires Sound(w) && OffersStand(w.offers, w.stations, w.tick, w.rules.durationTicks)
    requires AdsStand(w.ads, w.stations, w.tick, w.rules.durationTicks)
    ensures var next := Advance(w);
            && Sound(next)
            && OffersStand(next.offers, next.stations, next.tick, next.rules.durationTicks)
            && AdsStand(next.ads, next.stations, next.tick, next.rules.durationTicks)
  {
    var now := w.tick + 1;
    var next := Advance(w);
    AdvanceFields(w);
    assert next.stations.Keys == w.stations.Keys;
    hide Advance, AdvancedOffers, Settled, SettleAll;
    assert |next.offers| == |w.offers| by { AdvancedLength(w.offers, next.stations, now); }
    forall o | o in next.offers
      ensures Standing(o, next.stations, now, w.rules.durationTicks)
      ensures o.proposer in next.stations && o.recipient in next.stations && o.proposer != o.recipient
    {
      var i :| 0 <= i < |next.offers| && next.offers[i] == o;
      AdvancedOfferStands(w, next.stations, i);
    }
    forall a | a in next.ads
      ensures a.station in next.stations && !HasFailed(next.stations, a.station)
      ensures now < a.expires <= w.rules.durationTicks && a.status == Active
    {
      assert a in KeepAds(w.ads, LivePast(now));
    }
  }

  lemma AdvanceKeeps(w: World, f: Founding)
    requires Inv(w, f)
    ensures Inv(Advance(w), f)
  {
    AdvanceFields(w);
    hide Advance, AdsNumbered, Matched, Booked, Accounted, OffersNumbered, OffersStand, AdsStand, OpenWithin, Distinct, Sound;
    AdvanceAccounts(w, f);
    AdvanceCloses(w, f);
    SweptAdsNumbered(w.ads, w.nextId, w.tick + 1, FailedOf(Advance(w).stations));
    AdvanceStands(w);
  }

  lemma ProduceKeeps(w: World, f: Founding, output: map<StationId, nat>)
    requires Inv(w, f)
    ensures Inv(Produce(w, output), f)
  {
    var next := Produce(w, output);
    assert next.stations.Keys == w.stations.Keys;
    assert forall s :: HasFailed(next.stations, s) == HasFailed(w.stations, s);
    forall s | s in next.stations
      ensures BookedFor(next.stations, next.transactions, s)
      ensures AccountedFor(next.stations, next.rules, next.tick, f, s)
    {
      assert BookedFor(w.stations, w.transactions, s);
      assert AccountedFor(w.stations, w.rules, w.tick, f, s);
    }
  }

  lemma NonEmptyHasMember<T(!new)>(xs: seq<T>)
    requires xs != []
    ensures exists x :: x in xs
  {
    assert xs[0] in xs;
  }

  /** Once the duration is reached nothing is open, so ending the run closes nothing. */
  lemma EndRunKeeps(w: World, f: Founding)
    requires Inv(w, f) && IsFinished(w)
    ensures Inv(EndRun(w), f)
    ensures EndRun(w).offers == w.offers && w.ads == []
  {
    var next := EndRun(w);
    forall i | 0 <= i < |w.offers| ensures next.offers[i] == w.offers[i] {
      assert w.offers[i] in w.offers;
    }
    assert next.offers == w.offers;
    if w.ads != [] {
      NonEmptyHasMember(w.ads);
    }
  }

  // ---- lookups by id ----------------------------------------------------------------------

  lemma FoundById(v: World, f: Founding, o: Offer)
    requires Inv(v, f) && o in v.offers
    ensures FindOffer(v.offers, o.id) == Some(o) && FindAd(v.ads, o.id) == None
  {
    OfferIdsUnique(v.offers, v.nextId, FindOffer(v.offers, o.id).value, o);
  }

  lemma AdFoundById(v: World, f: Founding, ad: Advertisement)
    requires Inv(v, f) && ad in v.ads
    ensures FindAd(v.ads, ad.id) == Some(ad)
  {
    var found := FindAd(v.ads, ad.id).value;
    var i :| 0 <= i < |v.ads| && v.ads[i] == ad;
    var j :| 0 <= j < |v.ads| && v.ads[j] == found;
    if i < j { AdIdsDiffer(v, f, i, j); } else if j < i { AdIdsDiffer(v, f, j, i); }
  }

  lemma AdIdsDiffer(v: World, f: Founding, i: nat, j: nat)
    requires Inv(v, f) && i < j < |v.ads|
    ensures v.ads[i].id != v.ads[j].id
  {
    assert AdsDiffer(v.ads, i, j);
  }
}
