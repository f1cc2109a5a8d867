/** What a client plans from what the economy shows it, the economy carries out. */
module Contract {
  import opened Domain
  import opened Stations
  import opened Engine
  import opened EngineInvariant
  import opened EngineRuns
  import Effects
  import opened Economy
  import opened Commitments
  import opened Planner
  import opened PlannerSafety
  import opened PlannerStages

  /** The decision was made from this world, as the station's first commands of a tick. */
  ghost predicate MadeFrom(c: Context, w: World, f: Founding) {
    var me := c.s.self;
    && Inv(w, f) && me in w.stations && !w.stations[me].failed && w.tick < w.rules.durationTicks
    && CountOf(w.counts, me) == 0
    && c.s == ObservationFor(w, me, c.s.sequence, Running, c.s.results)
    && c.opening == Available(c.s, [])
    && forall p :: p in c.known ==> p in w.stations && p != me
  }

  // ---- one command, seen from what it leaves alone -------------------------------------------------

  lemma OffersLeftAlone(v: World, f: Founding, me: StationId, a: Action, o: Offer)
    requires Inv(v, f) && me in v.stations && o in v.offers && a != Accept(o.id) && a != Withdraw(o.id)
    ensures o in Execute(v, me, a).0.offers
  {
    if Precheck(v, me, a).None? {
      match a
      case MakeOffer(_, _, _, _) => assert o in v.offers + [OfferFor(Counted(v, me), me, a)];
      case Accept(id) => ClosingLeavesOthers(v.offers, id, Accepted, v.tick, Some(TransactionId(v.nextId)), o);
      case Withdraw(id) => ClosingLeavesOthers(v.offers, id, Withdrawn, v.tick, None, o);
      case _ =>
    }
  }

  lemma ClosingLeavesOthers(offers: seq<Offer>, id: ObjectId, status: OfferStatus, tick: nat, transaction: Option<ObjectId>, o: Offer)
    requires o in offers && o.id != id
    ensures o in CloseById(offers, id, status, tick, transaction)
  {
    var i :| 0 <= i < |offers| && offers[i] == o;
    assert CloseById(offers, id, status, tick, transaction)[i] == o;
  }

  lemma ClosingCounts(offers: seq<Offer>, id: ObjectId, status: OfferStatus, tick: nat, transaction: Option<ObjectId>, me: StationId)
    requires status != Open
    ensures OpenCount(CloseById(offers, id, status, tick, transaction), me) <= OpenCount(offers, me)
  {
    TallyMonotone(offers, CloseById(offers, id, status, tick, transaction), OpenOffersOf(me));
  }

  lemma OpenCountGrows(v: World, me: StationId, a: Action)
    requires Sound(v) && me in v.stations
    ensures OpenCount(Execute(v, me, a).0.offers, me) <= OpenCount(v.offers, me) + if a.MakeOffer? then 1 else 0
  {
    hide CloseById, Tally;
    if Precheck(v, me, a).None? {
      match a
      case MakeOffer(_, _, _, _) => TallyAppend(v.offers, OfferFor(Counted(v, me), me, a), OpenOffersOf(me));
      case Accept(id) => ClosingCounts(v.offers, id, Accepted, v.tick, Some(TransactionId(v.nextId)), me);
      case Withdraw(id) => ClosingCounts(v.offers, id, Withdrawn, v.tick, None, me);
      case _ =>
    }
  }

  /** What any command leaves as it was. */
  lemma FrameKept(v: World, f: Founding, me: StationId, a: Action)
    requires Inv(v, f) && me in v.stations
    ensures var z := Execute(v, me, a).0;
            && z.rules == v.rules && z.tick == v.tick && z.stations.Keys == v.stations.Keys
            && (forall s :: s in v.stations ==> z.stations[s].failed == v.stations[s].failed)
  {
    SoundHolds(v, f);
    hide Inv;
    hide AcceptedOffer, KeepAds, CloseById, FindAd, FindOffer, Tally;
    if a.Accept? {
      AcceptFrame(Counted(v, me), me, a.offer);
    } else {
      assert Execute(v, me, a).0.stations == v.stations;
    }
  }

  lemma CountKept(v: World, f: Founding, me: StationId, a: Action)
    requires Inv(v, f) && me in v.stations
    ensures CountOf(Execute(v, me, a).0.counts, me) <= CountOf(v.counts, me) + 1
  {
    SoundHolds(v, f);
    hide Inv, KeepAds, CloseById, FindAd, FindOffer, Tally;
    assert Precheck(v, me, a).None? ==> Execute(v, me, a).0.counts == Counted(v, me).counts;
  }

  lemma AcceptFrame(v: World, me: StationId, id: ObjectId)
    requires Sound(v)
    ensures var z := AcceptedOffer(v, me, id).0;
            && z.rules == v.rules && z.tick == v.tick && z.stations.Keys == v.stations.Keys && z.counts == v.counts
            && (forall s :: s in v.stations ==> z.stations[s].failed == v.stations[s].failed)
  {
    hide CloseById;
  }

  /** Only an accept touches our stock, and at most by what it pays. */
  lemma StockKept(v: World, f: Founding, me: StationId, a: Action, o: Offer)
    requires Inv(v, f) && me in v.stations
    requires a.Accept? ==> o in v.offers && a.offer == o.id && o.recipient == me
    ensures me in Execute(v, me, a).0.stations
    ensures var pays := if a.Accept? then o.receive else Bundle.Zero();
            Execute(v, me, a).0.stations[me].inventory.Dominates(v.stations[me].inventory.Monus(pays))
  {
    SoundHolds(v, f);
    if a.Accept? { FoundById(v, f, o); }
    hide Inv, AcceptedOffer, KeepAds, CloseById, Tally;
    if a.Accept? {
      AcceptStock(Counted(v, me), me, o);
    } else {
      assert Execute(v, me, a).0.stations == v.stations;
    }
  }

  lemma AcceptStock(v: World, me: StationId, o: Offer)
    requires Sound(v) && o in v.offers && FindOffer(v.offers, o.id) == Some(o) && o.recipient == me && me in v.stations
    ensures var z := AcceptedOffer(v, me, o.id).0;
            me in z.stations && z.stations[me].inventory.Dominates(v.stations[me].inventory.Monus(o.receive))
  {
    hide CloseById;
  }

  lemma AdsLeftAlone(v: World, f: Founding, me: StationId, a: Action, ad: Advertisement)
    requires Inv(v, f) && me in v.stations && ad in v.ads && !a.Advertise? && a != Withdraw(ad.id)
    ensures ad in Execute(v, me, a).0.ads
  {
  }

  // ---- the world the batch runs in -----------------------------------------------------------------

  ghost predicate NoAdStep(steps: seq<Step>) { forall x :: x in steps ==> !x.PullAd? && !x.Announce? }

  ghost predicate StillOpen(c: Context, v: World, prefix: seq<Step>, o: Offer) {
    && (o.recipient == c.s.self && TakeOffer(o) !in prefix ==> o in v.offers)
    && (o.proposer == c.s.self && PullOffer(o) !in prefix ==> o in v.offers)
  }

  /** After part of the batch, what the rest of it relies on still holds. */
  ghost predicate Tracks(c: Context, w: World, f: Founding, v: World, prefix: seq<Step>) {
    var me := c.s.self;
    && Inv(v, f) && v.rules == w.rules && v.tick == w.tick && v.stations.Keys == w.stations.Keys && me in v.stations
    && (forall s :: s in w.stations ==> v.stations[s].failed == w.stations[s].failed)
    && CountOf(v.counts, me) <= |prefix|
    && v.stations[me].inventory.Dominates(Balance(c, prefix))
    && (forall o {:trigger StillOpen(c, v, prefix, o)} :: o in c.s.offers && o.IsOpenAt(w.tick) ==> StillOpen(c, v, prefix, o))
    && (NoAdStep(prefix) && c.s.OwnAdvertisement().Some? ==> c.s.OwnAdvertisement().value in v.ads)
    && OpenCount(v.offers, me) <= c.Outgoing() + Posts(prefix)
  }

  lemma {:induction false} OutgoingCounts(offers: seq<Offer>, me: StationId, tick: nat)
    requires forall o :: o in offers && o.status == Open ==> tick < o.expires
    ensures |KeepOffers(KeepOffers(offers, Involving(me)), OpenFrom(me, tick))| == OpenCount(offers, me)
  {
    if offers != [] {
      var n := |offers| - 1;
      assert offers == offers[..n] + [offers[n]];
      OutgoingCounts(offers[..n], me, tick);
      var kept := KeepOffers(offers[..n], Involving(me));
      assert (kept + [offers[n]])[..|kept|] == kept;
    }
  }

  lemma StartTracks(c: Context, w: World, f: Founding)
    requires MadeFrom(c, w, f)
    ensures Tracks(c, w, f, w, [])
  {
    forall o | o in w.offers && o.status == Open ensures w.tick < o.expires {
      assert Standing(o, w.stations, w.tick, w.rules.durationTicks);
    }
    OutgoingCounts(w.offers, c.s.self, w.tick);
    assert HeldIn([]) == Bundle.Zero();
  }

  lemma InSnapshot(c: Context, w: World, f: Founding, prefix: seq<Step>, step: Step)
    requires MadeFrom(c, w, f) && Justified(c, prefix, step)
    ensures step.TakeOffer? ==> step.offer in c.s.offers && step.offer.recipient == c.s.self && step.offer.IsOpenAt(w.tick)
    ensures step.PullOffer? ==> step.offer in c.s.offers && step.offer.proposer == c.s.self && step.offer.IsOpenAt(w.tick)
    ensures step.PullAd? ==> step.ad in c.s.advertisements && step.ad.station == c.s.self && c.s.OwnAdvertisement() == Some(step.ad)
    ensures c.s.offers == KeepOffers(w.offers, Involving(c.s.self)) && c.s.advertisements == w.ads && c.s.tick == w.tick
  {
  }

  lemma ListedOnce(c: Context, w: World, f: Founding)
    requires MadeFrom(c, w, f)
    ensures Distinct(c.s.offers)
  {
    forall i, j | 0 <= i < j < |w.offers| ensures Differ(w.offers, i, j) {
      assert OfferPrecedes(w.offers, i, j);
    }
    KeptAreDistinct(w.offers, Involving(c.s.self));
  }

  /** The planned offer is still there when its turn comes. */
  lemma TargetStands(c: Context, w: World, f: Founding, v: World, prefix: seq<Step>, step: Step)
    requires MadeFrom(c, w, f) && Tracks(c, w, f, v, prefix) && Justified(c, prefix, step)
    ensures step.TakeOffer? || step.PullOffer? ==> step.offer in v.offers
    ensures step.PullAd? ==> step.ad in v.ads
  {
    hide Inv, Distinct, Dangerous, ObservationFor, FirstActiveAd, Balance, Guarded, HasNormalOffers, KeepOffers, Tally, MadeFrom;
    InSnapshot(c, w, f, prefix, step);
    ListedOnce(c, w, f);
    if step.TakeOffer? || step.PullOffer? {
      assert StillOpen(c, v, prefix, step.offer);
    }
  }

  /** A step acts on no listed offer but its own. */
  lemma ActsOnItsOwn(c: Context, w: World, f: Founding, prefix: seq<Step>, step: Step, o: Offer)
    requires MadeFrom(c, w, f) && Justified(c, prefix, step) && o in c.s.offers
    requires o.recipient == c.s.self ==> step != TakeOffer(o)
    requires o.proposer == c.s.self ==> step != PullOffer(o)
    ensures step.ToAction() != Accept(o.id) && step.ToAction() != Withdraw(o.id)
  {
    InSnapshot(c, w, f, prefix, step);
    if (step.TakeOffer? || step.PullOffer?) && step.offer.id == o.id {
      OfferIdsUnique(w.offers, w.nextId, step.offer, o);
    }
  }

  lemma OffersTrack(c: Context, w: World, f: Founding, v: World, prefix: seq<Step>, step: Step, o: Offer)
    requires MadeFrom(c, w, f) && Tracks(c, w, f, v, prefix) && Justified(c, prefix, step)
    requires o in c.s.offers && o.IsOpenAt(w.tick)
    ensures StillOpen(c, Execute(v, c.s.self, step.ToAction()).0, prefix + [step], o)
  {
    assert StillOpen(c, v, prefix, o);
    hide Inv, Execute, ObservationFor, Justified;
    assert o.proposer != o.recipient by { PartiesDiffer(c, w, f, o); }
    if o.recipient == c.s.self && TakeOffer(o) !in prefix + [step] {
      ActsOnItsOwn(c, w, f, prefix, step, o);
      OffersLeftAlone(v, f, c.s.self, step.ToAction(), o);
    }
    if o.proposer == c.s.self && PullOffer(o) !in prefix + [step] {
      ActsOnItsOwn(c, w, f, prefix, step, o);
      OffersLeftAlone(v, f, c.s.self, step.ToAction(), o);
    }
  }

  lemma PartiesDiffer(c: Context, w: World, f: Founding, o: Offer)
    requires MadeFrom(c, w, f) && o in c.s.offers
    ensures o in w.offers && o.proposer != o.recipient
  {
  }

  lemma AdIsListed(c: Context, w: World, f: Founding, ad: Advertisement)
    requires MadeFrom(c, w, f) && ad in c.s.advertisements
    ensures ad in w.ads && ad.id.AdId?
  {
  }

  lemma OfferIsListed(c: Context, w: World, f: Founding, o: Offer)
    requires MadeFrom(c, w, f) && o in c.s.offers
    ensures o in w.offers && o.id.OfferId?
  {
  }

  lemma NotOnAd(step: Step, ad: Advertisement)
    requires !step.PullAd? && !step.Announce? && ad.id.AdId?
    requires step.TakeOffer? || step.PullOffer? ==> step.offer.id.OfferId?
    ensures !step.ToAction().Advertise? && step.ToAction() != Withdraw(ad.id)
  {
  }

  lemma ActsOffAd(c: Context, w: World, f: Founding, prefix: seq<Step>, step: Step, ad: Advertisement)
    requires MadeFrom(c, w, f) && Justified(c, prefix, step) && ad in c.s.advertisements
    requires !step.PullAd? && !step.Announce?
    ensures !step.ToAction().Advertise? && step.ToAction() != Withdraw(ad.id)
  {
    hide Inv, ObservationFor, Justified, FirstActiveAd, MadeFrom, KeepOffers;
    InSnapshot(c, w, f, prefix, step);
    AdIsListed(c, w, f, ad);
    if step.TakeOffer? || step.PullOffer? { OfferIsListed(c, w, f, step.offer); }
    NotOnAd(step, ad);
  }

  lemma OwnAdStands(c: Context, w: World, f: Founding, v: World, prefix: seq<Step>, step: Step)
    requires Tracks(c, w, f, v, prefix) && NoAdStep(prefix + [step]) && c.s.OwnAdvertisement().Some?
    ensures Inv(v, f) && c.s.self in v.stations && c.s.OwnAdvertisement().value in v.ads
    ensures !step.PullAd? && !step.Announce?
  {
    hide Inv, StillOpen, Balance, Tally, FirstActiveAd;
    assert forall x :: x in prefix ==> x in prefix + [step];
    assert step in prefix + [step];
  }

  lemma AdTracks(c: Context, w: World, f: Founding, v: World, prefix: seq<Step>, step: Step)
    requires MadeFrom(c, w, f) && Tracks(c, w, f, v, prefix) && Justified(c, prefix, step)
    requires NoAdStep(prefix + [step]) && c.s.OwnAdvertisement().Some?
    ensures c.s.OwnAdvertisement().value in Execute(v, c.s.self, step.ToAction()).0.ads
  {
    OwnAdStands(c, w, f, v, prefix, step);
    hide Inv, Execute, ObservationFor, Justified, FirstActiveAd, MadeFrom, Tracks, KeepOffers, NoAdStep;
    SoundHolds(v, f);
    ActsOffAd(c, w, f, prefix, step, c.s.OwnAdvertisement().value);
    AdsLeftAlone(v, f, c.s.self, step.ToAction(), c.s.OwnAdvertisement().value);
  }

  lemma Affordable(c: Context, w: World, f: Founding, prefix: seq<Step>, step: Step)
    requires MadeFrom(c, w, f) && Justified(c, prefix, step)
    ensures step.TakeOffer? ==>
              && step.offer.recipient == c.s.self && step.offer.proposer != c.s.self
              && Balance(c, prefix).Dominates(step.offer.receive)
    ensures Balance(c, prefix + [step])
         == Balance(c, prefix).Monus(if step.TakeOffer? then step.offer.receive else CostOf(c.s.self, step))
  {
    assert (prefix + [step])[..|prefix|] == prefix;
    InSnapshot(c, w, f, prefix, step);
    hide Balance;
    if step.TakeOffer? { PartiesDiffer(c, w, f, step.offer); }
  }

  lemma MonusBelow(stock: Bundle, balance: Bundle, pays: Bundle, costs: Bundle)
    requires stock.Dominates(balance) && costs.Dominates(pays)
    ensures stock.Monus(pays).Dominates(balance.Monus(costs))
  {
  }

  lemma StockTracks(c: Context, w: World, f: Founding, v: World, prefix: seq<Step>, step: Step)
    requires MadeFrom(c, w, f) && Tracks(c, w, f, v, prefix) && Justified(c, prefix, step)
    ensures c.s.self in Execute(v, c.s.self, step.ToAction()).0.stations
    ensures Execute(v, c.s.self, step.ToAction()).0.stations[c.s.self].inventory.Dominates(Balance(c, prefix + [step]))
  {
    hide Inv, Execute, ObservationFor, Justified, MadeFrom, StillOpen, Balance, FirstActiveAd, CostOf;
    TargetStands(c, w, f, v, prefix, step);
    Affordable(c, w, f, prefix, step);
    var o := if step.TakeOffer? then step.offer else AnyOffer();
    var pays := if step.TakeOffer? then o.receive else Bundle.Zero();
    var costs := if step.TakeOffer? then o.receive else CostOf(c.s.self, step);
    StockKept(v, f, c.s.self, step.ToAction(), o);
    MonusBelow(v.stations[c.s.self].inventory, Balance(c, prefix), pays, costs);
  }

  function AnyOffer(): Offer {
    Offer(OfferId(0), StationId(""), StationId(""), Bundle.Zero(), Bundle.Zero(), 0, 0, 0, Open, None, None)
  }

  lemma StillOpenOn(c: Context, w: World, f: Founding, v: World, prefix: seq<Step>, step: Step)
    requires MadeFrom(c, w, f) && Tracks(c, w, f, v, prefix) && Justified(c, prefix, step)
    ensures forall o {:trigger StillOpen(c, Execute(v, c.s.self, step.ToAction()).0, prefix + [step], o)} ::
              o in c.s.offers && o.IsOpenAt(w.tick) ==> StillOpen(c, Execute(v, c.s.self, step.ToAction()).0, prefix + [step], o)
  {
    SoundHolds(v, f);
    hide Execute, Inv, Justified;
    forall o | o in c.s.offers && o.IsOpenAt(w.tick)
      ensures StillOpen(c, Execute(v, c.s.self, step.ToAction()).0, prefix + [step], o)
    {
      OffersTrack(c, w, f, v, prefix, step, o);
    }
  }

  lemma StepTracks(c: Context, w: World, f: Founding, v: World, prefix: seq<Step>, step: Step)
    requires MadeFrom(c, w, f) && Tracks(c, w, f, v, prefix) && Justified(c, prefix, step)
    ensures Sound(v) && Tracks(c, w, f, Execute(v, c.s.self, step.ToAction()).0, prefix + [step])
  {
    hide Inv, Execute, Justified, MadeFrom, FirstActiveAd, StillOpen, Balance, Tally, CostOf, KeepOffers;
    var me, a := c.s.self, step.ToAction();
    SoundHolds(v, f);
    var z := Execute(v, me, a).0;
    ExecuteKeeps(v, f, me, a);
    FrameKept(v, f, me, a);
    CountKept(v, f, me, a);
    OpenCountGrows(v, me, a);
    StockTracks(c, w, f, v, prefix, step);
    StillOpenOn(c, w, f, v, prefix, step);
    if NoAdStep(prefix + [step]) && c.s.OwnAdvertisement().Some? {
      AdTracks(c, w, f, v, prefix, step);
      assert NoAdStep(prefix);
    }
    PostsSnoc(prefix, step);
  }

  lemma PostsSnoc(prefix: seq<Step>, step: Step)
    ensures Posts(prefix + [step]) == Posts(prefix) + if step.ToAction().MakeOffer? then 1 else 0
  {
    assert (prefix + [step])[..|prefix|] == prefix;
  }

  lemma SoundHolds(v: World, f: Founding)
    requires Inv(v, f)
    ensures Sound(v)
  {
  }

  // ---- what may still be refused -------------------------------------------------------------------------

  /** Gives a lot over the cap earlier in the batch. */
  predicate GaveLot(prefix: seq<Step>) { exists x :: x in prefix && x.Post? && x.purpose == Excess }

  /** The three refusals the planner does not control, each only when its cause holds. */
  ghost predicate Allowed(c: Context, v: World, prefix: seq<Step>, step: Step, code: ResultCode) {
    match step
    case TakeOffer(o) =>
      if o.proposer in v.stations && v.stations[o.proposer].inventory.Dominates(o.give) then code == Ok
      else code == InsufficientResources
    case Post(purpose, recipient, _, _, _, _, _) =>
      if HasFailed(v.stations, recipient) then code == StationFailed
      else if OpenCount(v.offers, c.s.self) < c.s.rules.maxOpenOffers then code == Ok
      else code == LimitReached && purpose == Priced && GaveLot(prefix)
    case _ => code == Ok
  }

  /** Our own station may act: the pre-checks that do not depend on the action pass. */
  ghost predicate MayAct(v: World, me: StationId) {
    && Sound(v) && me in v.stations && !v.stations[me].failed
    && v.tick < v.rules.durationTicks && CountOf(v.counts, me) < v.rules.commandsPerTick
  }

  lemma StaysReady(c: Context, w: World, f: Founding, v: World, prefix: seq<Step>)
    requires MadeFrom(c, w, f) && Tracks(c, w, f, v, prefix) && |prefix| < w.rules.commandsPerTick
    ensures MayAct(v, c.s.self)
  {
    SoundHolds(v, f);
    hide Inv, ObservationFor, StillOpen;
  }

  lemma TakeOutcome(v: World, me: StationId, o: Offer)
    requires MayAct(v, me) && o in v.offers && FindOffer(v.offers, o.id) == Some(o)
    requires o.recipient == me && o.IsOpenAt(v.tick) && !HasFailed(v.stations, o.proposer)
    requires v.stations[me].inventory.Dominates(o.receive)
    ensures Execute(v, me, Accept(o.id)).1.code
         == if v.stations[o.proposer].inventory.Dominates(o.give) then Ok else InsufficientResources
  {
  }

  lemma TakeIsAllowed(c: Context, w: World, f: Founding, v: World, prefix: seq<Step>, o: Offer)
    requires MadeFrom(c, w, f) && Tracks(c, w, f, v, prefix) && Justified(c, prefix, TakeOffer(o))
    requires |prefix| < w.rules.commandsPerTick
    ensures Allowed(c, v, prefix, TakeOffer(o), Execute(v, c.s.self, Accept(o.id)).1.code)
  {
    StaysReady(c, w, f, v, prefix);
    TargetStands(c, w, f, v, prefix, TakeOffer(o));
    InSnapshot(c, w, f, prefix, TakeOffer(o));
    Affordable(c, w, f, prefix, TakeOffer(o));
    FoundById(v, f, o);
    assert Standing(o, v.stations, v.tick, v.rules.durationTicks);
    hide Inv, Execute, Justified, MadeFrom, Balance, StillOpen, FirstActiveAd;
    TakeOutcome(v, c.s.self, o);
  }

  lemma PullOutcome(v: World, me: StationId, o: Offer)
    requires MayAct(v, me) && o in v.offers && FindOffer(v.offers, o.id) == Some(o) && FindAd(v.ads, o.id).None?
    requires o.proposer == me && o.status == Open
    ensures Execute(v, me, Withdraw(o.id)).1.code == Ok
  {
  }

  lemma PullAdOutcome(v: World, me: StationId, ad: Advertisement)
    requires MayAct(v, me) && FindAd(v.ads, ad.id) == Some(ad) && ad.station == me
    ensures Execute(v, me, Withdraw(ad.id)).1.code == Ok
  {
  }

  lemma PullIsAllowed(c: Context, w: World, f: Founding, v: World, prefix: seq<Step>, step: Step)
    requires MadeFrom(c, w, f) && Tracks(c, w, f, v, prefix) && Justified(c, prefix, step)
    requires |prefix| < w.rules.commandsPerTick && (step.PullOffer? || step.PullAd?)
    ensures Execute(v, c.s.self, step.ToAction()).1.code == Ok
  {
    StaysReady(c, w, f, v, prefix);
    TargetStands(c, w, f, v, prefix, step);
    InSnapshot(c, w, f, prefix, step);
    hide Inv, Execute, Justified, MadeFrom, Balance, StillOpen, FirstActiveAd;
    if step.PullOffer? {
      FoundById(v, f, step.offer);
      PullOutcome(v, c.s.self, step.offer);
    } else {
      AdFoundById(v, f, step.ad);
      PullAdOutcome(v, c.s.self, step.ad);
    }
  }

  lemma AnnounceIsAllowed(c: Context, w: World, f: Founding, v: World, prefix: seq<Step>, step: Step)
    requires MadeFrom(c, w, f) && Tracks(c, w, f, v, prefix) && Justified(c, prefix, step)
    requires |prefix| < w.rules.commandsPerTick && step.Announce?
    ensures Execute(v, c.s.self, step.ToAction()).1.code == Ok
  {
    hide Inv, Justified, Tracks, MadeFrom, Execute, ValidExpiry;
    StaysReady(c, w, f, v, prefix);
    AnnounceInTime(c, w, f, v, prefix, step);
    AnnounceOutcome(v, c.s.self, step.ToAction());
  }

  lemma AnnounceInTime(c: Context, w: World, f: Founding, v: World, prefix: seq<Step>, step: Step)
    requires MadeFrom(c, w, f) && Tracks(c, w, f, v, prefix) && Justified(c, prefix, step) && step.Announce?
    ensures ValidExpiry(v, step.expires, v.rules.maxPublicationTtl)
  {
    hide Inv, Balance, StillOpen, FirstActiveAd, Tally, KeepOffers, DealsOf, HeldIn;
    assert AdSound(c, prefix, step);
  }

  lemma AnnounceOutcome(v: World, me: StationId, a: Action)
    requires MayAct(v, me) && a.Advertise? && ValidExpiry(v, a.expires, v.rules.maxPublicationTtl)
    ensures Execute(v, me, a).1.code == Ok
  {
  }

  lemma {:induction false} PostsArePriced(c: Context, steps: seq<Step>)
    requires UpTo(steps, 4) && !GaveLot(steps)
    ensures Posts(steps) == PricedPosts(steps)
  {
    if steps != [] {
      var n := |steps| - 1;
      assert steps[n] in steps;
      assert forall x :: x in steps[..n] ==> x in steps;
      PostsArePriced(c, steps[..n]);
    }
  }

  lemma {:induction false} EarlierStages(c: Context, steps: seq<Step>, stage: nat)
    requires Planned(c, steps) && (steps != [] ==> steps[|steps| - 1].Stage() <= stage)
    ensures UpTo(steps, stage)
  {
    if steps != [] {
      var n := |steps| - 1;
      EarlierStages(c, steps[..n], stage);
      assert steps == steps[..n] + [steps[n]];
    }
  }

  lemma PostFacts(c: Context, prefix: seq<Step>, step: Step)
    requires Planned(c, prefix) && Justified(c, prefix, step) && step.Post?
    ensures step.recipient in c.known && step.give > 0 && Deadline(c, step.expires, c.s.rules.maxOfferTtl)
    ensures Balance(c, prefix).Dominates(Bundle.Single(step.pay, step.give))
    ensures (step.purpose == Priced && GaveLot(prefix)) || c.Outgoing() + Posts(prefix) < c.s.rules.maxOpenOffers
  {
    hide Balance, Guarded, GaveLot, Planned, Posts, PricedPosts;
    if step.purpose == Priced && !GaveLot(prefix) {
      EarlierStages(c, prefix, 4);
      PostsArePriced(c, prefix);
    }
  }

  lemma PostOutcome(v: World, me: StationId, a: Action)
    requires MayAct(v, me) && a.MakeOffer? && ValidExpiry(v, a.expires, v.rules.maxOfferTtl)
    requires a.recipient in v.stations && a.recipient != me && !a.give.IsZero() && v.stations[me].inventory.Dominates(a.give)
    ensures Execute(v, me, a).1.code
         == if v.stations[a.recipient].failed then StationFailed
            else if OpenCount(v.offers, me) < v.rules.maxOpenOffers then Ok
            else LimitReached
  {
  }

  lemma PostIsAllowed(c: Context, w: World, f: Founding, v: World, prefix: seq<Step>, step: Step)
    requires MadeFrom(c, w, f) && Planned(c, prefix) && Tracks(c, w, f, v, prefix) && Justified(c, prefix, step)
    requires |prefix| < w.rules.commandsPerTick && step.Post?
    ensures Allowed(c, v, prefix, step, Execute(v, c.s.self, step.ToAction()).1.code)
  {
    hide Inv, Planned, Balance, Posts, PricedPosts, GaveLot, Justified, Execute, StillOpen, FirstActiveAd, Tally;
    StaysReady(c, w, f, v, prefix);
    PostFacts(c, prefix, step);
    SingleOf(step.pay, step.give, step.pay);
    PostOutcome(v, c.s.self, step.ToAction());
  }

  // ---- the contract -------------------------------------------------------------------------------------------

  lemma {:induction false} ActionsPrefix(steps: seq<Step>, k: nat)
    requires k <= |steps|
    ensures Actions(steps)[..k] == Actions(steps[..k])
    ensures k < |steps| ==> Actions(steps)[k] == steps[k].ToAction()
  {
    if k < |steps| {
      ActionsPrefix(steps[..|steps| - 1], k);
      assert steps[..|steps| - 1][..k] == steps[..k];
    } else {
      assert steps[..k] == steps;
    }
  }

  lemma NoBatch(w: World, me: StationId)
    ensures Batch(w, me, Actions([])) == w
  {
  }

  lemma BatchLast(w: World, me: StationId, actions: seq<Action>)
    requires actions != []
    ensures var n := |actions| - 1;
            Batch(w, me, actions) == Try(Batch(w, me, actions[..n]), me, actions[n]).0
  {
  }

  lemma TracksSound(c: Context, w: World, f: Founding, v: World, prefix: seq<Step>)
    requires Tracks(c, w, f, v, prefix)
    ensures Sound(v) && c.s.self in v.stations
  {
    SoundHolds(v, f);
  }

  lemma {:induction false} BatchTracks(c: Context, w: World, f: Founding, steps: seq<Step>)
    requires MadeFrom(c, w, f) && Planned(c, steps)
    ensures Tracks(c, w, f, Batch(w, c.s.self, Actions(steps)), steps)
  {
    hide MadeFrom, Justified, Tracks, Execute, Inv, Batch;
    if steps == [] {
      StartTracks(c, w, f);
      NoBatch(w, c.s.self);
    } else {
      var n := |steps| - 1;
      BatchTracks(c, w, f, steps[..n]);
      var v := Batch(w, c.s.self, Actions(steps[..n]));
      TracksSound(c, w, f, v, steps[..n]);
      BatchLast(w, c.s.self, Actions(steps));
      assert steps == steps[..n] + [steps[n]];
      assert Actions(steps)[..n] == Actions(steps[..n]);
      StepTracks(c, w, f, v, steps[..n], steps[n]);
    }
  }

  /** Run as a station's first commands of a tick, each planned action succeeds unless the
      proposer of an accepted offer cannot pay, a recipient has failed, or a lot given
      earlier in the same batch has used up the open-offer limit. */
  lemma PlannerMeetsEngine(c: Context, w: World, f: Founding, steps: seq<Step>, k: nat)
    requires MadeFrom(c, w, f) && Planned(c, steps) && |steps| <= w.rules.commandsPerTick && k < |steps|
    ensures var v := Batch(w, c.s.self, Actions(steps)[..k]);
            && Inv(v, f) && Actions(steps)[k] == steps[k].ToAction()
            && Allowed(c, v, steps[..k], steps[k], Try(v, c.s.self, steps[k].ToAction()).1.code)
  {
    var prefix, step := steps[..k], steps[k];
    PlannedPrefix(c, steps, k);
    ActionsPrefix(steps, k);
    BatchTracks(c, w, f, prefix);
    var v := Batch(w, c.s.self, Actions(prefix));
    SoundHolds(v, f);
    hide Inv, Justified, MadeFrom, Execute, Planned, Batch, StillOpen;
    match step
    case TakeOffer(o) => TakeIsAllowed(c, w, f, v, prefix, o);
    case PullOffer(_) => PullIsAllowed(c, w, f, v, prefix, step);
    case PullAd(_) => PullIsAllowed(c, w, f, v, prefix, step);
    case Announce(_, _, _) => AnnounceIsAllowed(c, w, f, v, prefix, step);
    case Post(_, _, _, _, _, _, _) => PostIsAllowed(c, w, f, v, prefix, step);
  }

  // ---- what a planned step does -------------------------------------------------------------------------

  /** What a step says is what the economy does. */
  ghost predicate TakesEffect(v: World, z: World, me: StationId, step: Step) {
    match step
    case TakeOffer(o) => exists x :: x in z.offers && x.id == o.id && x.status == Accepted
    case PullOffer(o) => forall x :: x in z.offers && x.id == o.id ==> x.status == Withdrawn
    case PullAd(ad) => ad !in z.ads && z.offers == v.offers
    case Announce(selling, seeking, expires) =>
      && (exists ad :: ad in z.ads && ad.station == me)
      && forall ad :: ad in z.ads && ad.station == me ==> ad.selling == selling && ad.seeking == seeking && ad.expires == expires
    case Post(_, recipient, pay, give, want, receive, expires) =>
      |z.offers| == |v.offers| + 1
      && var o := z.offers[|v.offers|];
         && o.proposer == me && o.recipient == recipient && o.expires == expires && o.status == Open
         && (forall r :: o.give.Get(r) == (if r == pay then give else 0) && o.receive.Get(r) == if r == want then receive else 0)
  }

  lemma PostTakesEffect(v: World, me: StationId, step: Step)
    requires Sound(v) && me in v.stations && step.Post? && Execute(v, me, step.ToAction()).1.code == Ok
    ensures TakesEffect(v, Execute(v, me, step.ToAction()).0, me, step)
  {
    Effects.PostEffect(v, me, step.ToAction());
    forall r
      ensures Bundle.Single(step.pay, step.give).Get(r) == if r == step.pay then step.give else 0
      ensures Bundle.Single(step.want, step.receive).Get(r) == if r == step.want then step.receive else 0
    {
      SingleOf(step.pay, step.give, r);
      SingleOf(step.want, step.receive, r);
    }
    hide Execute;
  }

  lemma TakeTakesEffect(v: World, f: Founding, me: StationId, o: Offer)
    requires Inv(v, f) && me in v.stations && o in v.offers && o.status == Open && Execute(v, me, Accept(o.id)).1.code == Ok
    ensures TakesEffect(v, Execute(v, me, Accept(o.id)).0, me, TakeOffer(o))
  {
    var i :| 0 <= i < |v.offers| && v.offers[i] == o;
    var z := Execute(v, me, Accept(o.id)).0;
    Effects.SucceedsExactly(v, f, me, Accept(o.id));
    NamedOffers(v, f, o);
    hide Inv, Execute, Effects.MaySettle, Effects.MayCommand;
    Effects.OnlyOwnersChange(v, f, me, Accept(o.id), i);
    StepEvolves(v, f, EngineRuns.Command(me, Accept(o.id)));
    assert z.offers[i].status == Accepted && z.offers[i].id == o.id;
  }

  lemma NamedOffers(v: World, f: Founding, o: Offer)
    requires Inv(v, f) && o in v.offers
    ensures Sound(v) && forall x :: x in v.offers && Effects.IsNamed(o.id, x) ==> x == o
  {
    forall x | x in v.offers && Effects.IsNamed(o.id, x) ensures x == o {
      OfferIdsUnique(v.offers, v.nextId, x, o);
    }
  }

  lemma PullTakesEffect(v: World, f: Founding, me: StationId, step: Step)
    requires Inv(v, f) && me in v.stations && (step.PullOffer? || step.PullAd?) && Execute(v, me, step.ToAction()).1.code == Ok
    requires if step.PullOffer? then step.offer in v.offers else step.ad in v.ads
    ensures TakesEffect(v, Execute(v, me, step.ToAction()).0, me, step)
  {
    var id := if step.PullOffer? then step.offer.id else step.ad.id;
    Effects.WithdrawEffect(v, f, me, id);
    hide Inv, Execute;
    assert step.PullOffer? ==> forall x :: x in Execute(v, me, Withdraw(id)).0.offers && x.id == id ==> Effects.IsNamed(id, x);
  }

  lemma AnnounceTakesEffect(v: World, me: StationId, step: Step)
    requires Sound(v) && me in v.stations && step.Announce? && Execute(v, me, step.ToAction()).1.code == Ok
    ensures TakesEffect(v, Execute(v, me, step.ToAction()).0, me, step)
  {
    Effects.AdvertiseEffect(v, me, step.ToAction());
    hide Execute;
  }

  /** Each step of a planned batch that the economy carries out does there what it says. */
  lemma StepsTakeEffect(c: Context, w: World, f: Founding, steps: seq<Step>, k: nat)
    requires MadeFrom(c, w, f) && Planned(c, steps) && |steps| <= w.rules.commandsPerTick && k < |steps|
    requires var v := Batch(w, c.s.self, Actions(steps)[..k]); Try(v, c.s.self, Actions(steps)[k]).1.code == Ok
    ensures var v := Batch(w, c.s.self, Actions(steps)[..k]);
            TakesEffect(v, Try(v, c.s.self, Actions(steps)[k]).0, c.s.self, steps[k])
  {
    var prefix, step := steps[..k], steps[k];
    PlannedPrefix(c, steps, k);
    ActionsPrefix(steps, k);
    BatchTracks(c, w, f, prefix);
    PlannerMeetsEngine(c, w, f, steps, k);
    var v := Batch(w, c.s.self, Actions(prefix));
    SoundHolds(v, f);
    TargetStands(c, w, f, v, prefix, step);
    if step.TakeOffer? { InSnapshot(c, w, f, prefix, step); }
    hide Inv, Justified, MadeFrom, Execute, Planned, Batch, StillOpen, TakesEffect, Allowed;
    match step
    case TakeOffer(o) => TakeTakesEffect(v, f, c.s.self, o);
    case PullOffer(_) => PullTakesEffect(v, f, c.s.self, step);
    case PullAd(_) => PullTakesEffect(v, f, c.s.self, step);
    case Announce(_, _, _) => AnnounceTakesEffect(v, c.s.self, step);
    case Post(_, _, _, _, _, _, _) => PostTakesEffect(v, c.s.self, step);
  }

  /** One command at a time can never meet the open-offer limit. */
  lemma OneCommandNeverLimited(c: Context, w: World, f: Founding, steps: seq<Step>)
    requires MadeFrom(c, w, f) && Planned(c, steps) && |steps| == 1 <= w.rules.commandsPerTick
    ensures Try(w, c.s.self, steps[0].ToAction()).1.code in {Ok, InsufficientResources, StationFailed}
  {
    PlannerMeetsEngine(c, w, f, steps, 0);
  }
}
