/** Exactly when a planned batch meets the open-offer limit, from what is known before it runs. */
module OpenLimit {
  import opened Domain
  import opened Stations
  import opened Engine
  import opened EngineInvariant
  import opened EngineRuns
  import opened Economy
  import opened Memory
  import opened Reserves
  import opened Altruism
  import opened Targeting
  import opened Planner
  import opened PlannerSafety
  import opened PlannerStages
  import opened PlannerProof
  import opened Contract

  function Pulls(steps: seq<Step>): nat {
    if steps == [] then 0 else Pulls(steps[..|steps| - 1]) + if steps[|steps| - 1].PullOffer? then 1 else 0
  }

  predicate IsLivePost(w: World, step: Step) { step.Post? && !HasFailed(w.stations, step.recipient) }

  /** Offers posted to planets that have not failed. */
  function LivePosts(w: World, steps: seq<Step>): nat {
    if steps == [] then 0 else LivePosts(w, steps[..|steps| - 1]) + if IsLivePost(w, steps[|steps| - 1]) then 1 else 0
  }

  /** Our open offers in the snapshot, less those withdrawn, plus those posted to live planets. */
  function OpenAfter(c: Context, w: World, steps: seq<Step>): int { c.Outgoing() - Pulls(steps) + LivePosts(w, steps) }

  lemma OpenAfterSnoc(c: Context, w: World, prefix: seq<Step>, step: Step)
    ensures OpenAfter(c, w, prefix + [step])
         == OpenAfter(c, w, prefix) - (if step.PullOffer? then 1 else 0) + (if IsLivePost(w, step) then 1 else 0)
  {
    assert (prefix + [step])[..|prefix|] == prefix;
  }

  lemma {:induction false} NothingPosted(w: World, steps: seq<Step>)
    requires UpTo(steps, 1)
    ensures LivePosts(w, steps) == 0
  {
    if steps != [] {
      var n := |steps| - 1;
      assert steps[n] in steps;
      NothingPosted(w, steps[..n]);
    }
  }

  /** Before anything is posted the open offers are within the limit. */
  lemma StartsWithin(c: Context, w: World, f: Founding)
    requires MadeFrom(c, w, f)
    ensures OpenCount(w.offers, c.s.self) == c.Outgoing() <= w.rules.maxOpenOffers
    ensures c.s.rules == w.rules
  {
    forall o | o in w.offers && o.status == Open ensures w.tick < o.expires {
      assert Standing(o, w.stations, w.tick, w.rules.durationTicks);
    }
    OutgoingCounts(w.offers, c.s.self, w.tick);
  }

  // ---- what each command does to the number of open offers --------------------------------------------

  lemma ClosingCountsExactly(v: World, o: Offer, status: OfferStatus, transaction: Option<ObjectId>, me: StationId)
    requires OffersNumbered(v.offers, v.nextId) && o in v.offers && o.status == Open && status != Open
    ensures OpenCount(CloseById(v.offers, o.id, status, v.tick, transaction), me)
         == OpenCount(v.offers, me) - if o.proposer == me then 1 else 0
  {
    var k := CloseChangesOne(v, o, status, transaction);
    TallyUpdate(v.offers, CloseById(v.offers, o.id, status, v.tick, transaction), k, OpenOffersOf(me));
  }

  lemma AcceptCount(v: World, me: StationId, o: Offer)
    requires Sound(v) && OffersNumbered(v.offers, v.nextId) && me in v.stations
    requires o in v.offers && FindOffer(v.offers, o.id) == Some(o) && o.recipient == me
    ensures OpenCount(Execute(v, me, Accept(o.id)).0.offers, me) == OpenCount(v.offers, me)
  {
    hide Tally;
    if Precheck(v, me, Accept(o.id)).None? && AcceptRefusal(Counted(v, me), me, Some(o)).None? {
      ClosingCountsExactly(Counted(v, me), o, Accepted, Some(TransactionId(v.nextId)), me);
    }
  }

  lemma PullCount(v: World, me: StationId, o: Offer)
    requires MayAct(v, me) && OffersNumbered(v.offers, v.nextId)
    requires o in v.offers && FindOffer(v.offers, o.id) == Some(o) && FindAd(v.ads, o.id).None?
    requires o.proposer == me && o.status == Open
    ensures OpenCount(Execute(v, me, Withdraw(o.id)).0.offers, me) == OpenCount(v.offers, me) - 1
  {
    hide Tally;
    ClosingCountsExactly(Counted(v, me), o, Withdrawn, None, me);
  }

  lemma AdCount(v: World, me: StationId, a: Action)
    requires Sound(v) && me in v.stations
    requires a.Advertise? || (a.Withdraw? && FindAd(v.ads, a.target).Some?)
    ensures Execute(v, me, a).0.offers == v.offers
  {
  }

  lemma PostCount(v: World, me: StationId, a: Action)
    requires MayAct(v, me) && a.MakeOffer? && ValidExpiry(v, a.expires, v.rules.maxOfferTtl)
    requires a.recipient in v.stations && a.recipient != me && !a.give.IsZero() && v.stations[me].inventory.Dominates(a.give)
    ensures OpenCount(Execute(v, me, a).0.offers, me)
         == OpenCount(v.offers, me)
            + if !v.stations[a.recipient].failed && OpenCount(v.offers, me) < v.rules.maxOpenOffers then 1 else 0
  {
    TallyAppend(v.offers, OfferFor(Counted(v, me), me, a), OpenOffersOf(me));
    hide Tally;
  }

  // ---- over the batch ------------------------------------------------------------------------------------

  ghost predicate CountKnown(c: Context, w: World, v: World, prefix: seq<Step>) {
    OpenCount(v.offers, c.s.self) == Min(w.rules.maxOpenOffers, OpenAfter(c, w, prefix))
  }

  lemma TakeKeepsCount(c: Context, w: World, f: Founding, v: World, prefix: seq<Step>, step: Step)
    requires MadeFrom(c, w, f) && Tracks(c, w, f, v, prefix) && Justified(c, prefix, step) && step.TakeOffer?
    ensures Sound(v) && c.s.self in v.stations
    ensures OpenCount(Execute(v, c.s.self, step.ToAction()).0.offers, c.s.self) == OpenCount(v.offers, c.s.self)
  {
    TracksSound(c, w, f, v, prefix);
    TargetStands(c, w, f, v, prefix, step);
    InSnapshot(c, w, f, prefix, step);
    FoundById(v, f, step.offer);
    assert OffersNumbered(v.offers, v.nextId);
    hide Inv, Execute, Justified, MadeFrom, StillOpen, Tally, OffersNumbered;
    AcceptCount(v, c.s.self, step.offer);
  }

  lemma PullKeepsCount(c: Context, w: World, f: Founding, v: World, prefix: seq<Step>, step: Step)
    requires MadeFrom(c, w, f) && Tracks(c, w, f, v, prefix) && Justified(c, prefix, step) && step.PullOffer?
    requires |prefix| < w.rules.commandsPerTick
    ensures Sound(v) && c.s.self in v.stations
    ensures OpenCount(Execute(v, c.s.self, step.ToAction()).0.offers, c.s.self) == OpenCount(v.offers, c.s.self) - 1
  {
    StaysReady(c, w, f, v, prefix);
    TargetStands(c, w, f, v, prefix, step);
    InSnapshot(c, w, f, prefix, step);
    FoundById(v, f, step.offer);
    assert OffersNumbered(v.offers, v.nextId);
    hide Inv, Execute, Justified, MadeFrom, StillOpen, Tally, OffersNumbered;
    PullCount(v, c.s.self, step.offer);
  }

  lemma AdKeepsCount(c: Context, w: World, f: Founding, v: World, prefix: seq<Step>, step: Step)
    requires MadeFrom(c, w, f) && Tracks(c, w, f, v, prefix) && Justified(c, prefix, step) && (step.PullAd? || step.Announce?)
    ensures Sound(v) && c.s.self in v.stations
    ensures OpenCount(Execute(v, c.s.self, step.ToAction()).0.offers, c.s.self) == OpenCount(v.offers, c.s.self)
  {
    TracksSound(c, w, f, v, prefix);
    TargetStands(c, w, f, v, prefix, step);
    if step.PullAd? { AdFoundById(v, f, step.ad); }
    hide Inv, Execute, Justified, MadeFrom, StillOpen, Tally;
    AdCount(v, c.s.self, step.ToAction());
  }

  lemma PostKeepsCount(c: Context, w: World, f: Founding, v: World, prefix: seq<Step>, step: Step)
    requires MadeFrom(c, w, f) && Planned(c, prefix) && Tracks(c, w, f, v, prefix) && Justified(c, prefix, step) && step.Post?
    requires |prefix| < w.rules.commandsPerTick
    ensures Sound(v) && c.s.self in v.stations
    ensures OpenCount(Execute(v, c.s.self, step.ToAction()).0.offers, c.s.self)
         == OpenCount(v.offers, c.s.self) + if IsLivePost(w, step) && OpenCount(v.offers, c.s.self) < w.rules.maxOpenOffers then 1 else 0
  {
    hide Inv, Planned, Balance, Posts, PricedPosts, GaveLot, Justified, Execute, StillOpen, FirstActiveAd, Tally;
    StaysReady(c, w, f, v, prefix);
    PostFacts(c, prefix, step);
    SingleOf(step.pay, step.give, step.pay);
    PostCount(v, c.s.self, step.ToAction());
  }

  /** Withdrawals come before any post, so the count has not reached the limit by posting. */
  lemma StillWithin(c: Context, w: World, f: Founding, prefix: seq<Step>, step: Step)
    requires MadeFrom(c, w, f) && Planned(c, prefix) && Justified(c, prefix, step) && step.PullOffer?
    ensures OpenAfter(c, w, prefix) <= w.rules.maxOpenOffers
  {
    hide Inv, Planned, MadeFrom, KeepOffers, Tally, Dangerous, Balance;
    StartsWithin(c, w, f);
    EarlierStages(c, prefix, 1);
    NothingPosted(w, prefix);
  }

  lemma StepCount(c: Context, w: World, f: Founding, v: World, prefix: seq<Step>, step: Step)
    requires MadeFrom(c, w, f) && Planned(c, prefix) && Tracks(c, w, f, v, prefix) && Justified(c, prefix, step)
    requires |prefix| < w.rules.commandsPerTick && CountKnown(c, w, v, prefix)
    ensures Sound(v) && c.s.self in v.stations
    ensures CountKnown(c, w, Execute(v, c.s.self, step.ToAction()).0, prefix + [step])
  {
    hide Inv, Planned, Justified, Tracks, MadeFrom, Execute, OpenAfter, OpenCount;
    OpenAfterSnoc(c, w, prefix, step);
    if step.PullOffer? { StillWithin(c, w, f, prefix, step); }
    match step
    case TakeOffer(_) => TakeKeepsCount(c, w, f, v, prefix, step);
    case PullOffer(_) => PullKeepsCount(c, w, f, v, prefix, step);
    case PullAd(_) => AdKeepsCount(c, w, f, v, prefix, step);
    case Announce(_, _, _) => AdKeepsCount(c, w, f, v, prefix, step);
    case Post(_, _, _, _, _, _, _) => PostKeepsCount(c, w, f, v, prefix, step);
  }

  /** After any part of the batch the number of our open offers is known beforehand. */
  lemma {:induction false} BatchCount(c: Context, w: World, f: Founding, steps: seq<Step>)
    requires MadeFrom(c, w, f) && Planned(c, steps) && |steps| <= w.rules.commandsPerTick
    ensures CountKnown(c, w, Batch(w, c.s.self, Actions(steps)), steps)
  {
    hide Justified, Tracks, Execute, Inv, Batch, MadeFrom;
    if steps == [] {
      StartsWithin(c, w, f);
      NoBatch(w, c.s.self);
    } else {
      var n := |steps| - 1;
      BatchCount(c, w, f, steps[..n]);
      BatchTracks(c, w, f, steps[..n]);
      BatchLast(w, c.s.self, Actions(steps));
      assert steps == steps[..n] + [steps[n]];
      assert Actions(steps)[..n] == Actions(steps[..n]);
      StepCount(c, w, f, Batch(w, c.s.self, Actions(steps[..n])), steps[..n], steps[n]);
    }
  }

  // ---- the exact condition -------------------------------------------------------------------------------------

  /** A planned action meets the limit exactly when it is a post to a planet that has not failed,
      and the open offers in the snapshot, less the batch's withdrawals before it, plus its
      posts to live planets before it, already fill the limit. */
  lemma LimitExactly(c: Context, w: World, f: Founding, steps: seq<Step>, k: nat)
    requires MadeFrom(c, w, f) && Planned(c, steps) && |steps| <= w.rules.commandsPerTick && k < |steps|
    ensures var v := Batch(w, c.s.self, Actions(steps)[..k]);
            (Try(v, c.s.self, Actions(steps)[k]).1.code == LimitReached)
            <==> (IsLivePost(w, steps[k]) && OpenAfter(c, w, steps[..k]) >= c.s.rules.maxOpenOffers)
  {
    hide Inv, Planned, Batch, Try, MadeFrom, Allowed, CountKnown, OpenAfter, IsLivePost, Justified;
    PlannedPrefix(c, steps, k);
    ActionsPrefix(steps, k);
    StartsWithin(c, w, f);
    BatchCount(c, w, f, steps[..k]);
    PlannerMeetsEngine(c, w, f, steps, k);
    SameFailures(c, w, f, steps[..k]);
    var v := Batch(w, c.s.self, Actions(steps)[..k]);
    OutcomeKnown(c, w, v, steps[..k], steps[k], Try(v, c.s.self, Actions(steps)[k]).1.code);
  }

  lemma OutcomeKnown(c: Context, w: World, v: World, prefix: seq<Step>, step: Step, code: ResultCode)
    requires Allowed(c, v, prefix, step, code) && CountKnown(c, w, v, prefix) && c.s.rules == w.rules
    requires forall s :: HasFailed(v.stations, s) == HasFailed(w.stations, s)
    ensures (code == LimitReached) <==> (IsLivePost(w, step) && OpenAfter(c, w, prefix) >= c.s.rules.maxOpenOffers)
  {
    hide Tally, Pulls, LivePosts, GaveLot, KeepOffers, HasFailed;
  }

  lemma SameFailures(c: Context, w: World, f: Founding, steps: seq<Step>)
    requires MadeFrom(c, w, f) && Planned(c, steps)
    ensures forall s :: HasFailed(Batch(w, c.s.self, Actions(steps)).stations, s) == HasFailed(w.stations, s)
  {
    hide Inv, Planned, Batch, MadeFrom, StillOpen;
    BatchTracks(c, w, f, steps);
  }

  /** Without a lot over the cap the limit is never met. */
  lemma NeverLimitedWithoutLots(c: Context, w: World, f: Founding, steps: seq<Step>, k: nat)
    requires MadeFrom(c, w, f) && Planned(c, steps) && |steps| <= w.rules.commandsPerTick && k < |steps|
    requires !GaveLot(steps)
    ensures Try(Batch(w, c.s.self, Actions(steps)[..k]), c.s.self, Actions(steps)[k]).1.code != LimitReached
  {
    hide Inv, Planned, Batch, Try, MadeFrom;
    PlannerMeetsEngine(c, w, f, steps, k);
    assert forall x :: x in steps[..k] ==> x in steps;
  }

  // ---- when no lot is given -------------------------------------------------------------------------------------

  /** Nothing over the cap after the accepts is sought by a live planet out of cooldown. */
  ghost predicate NothingToGive(c: Context, n: Notes, budget: nat) {
    forall r, p :: ExcessAt(c, budget).Get(r) > 0 ==> !IsSeeker(n, r, c.s.tick, p)
  }

  lemma {:induction false} NoLotPassed(c: Context, n: Notes, d: Draft, excess: Bundle, order: seq<Resource>, picks: seq<Option<StationId>>)
    requires |picks| <= |order|
    requires forall k {:trigger PickFits(c, n, d, excess, order, picks, k)} :: 0 <= k < |picks| ==> PickFits(c, n, d, excess, order, picks, k)
    requires forall r, p :: excess.Get(r) > 0 ==> !IsSeeker(n, r, c.s.tick, p)
    ensures ExcessPass(c, d, excess, order, picks) == d
  {
    if picks != [] {
      var k := |picks| - 1;
      forall j | 0 <= j < k ensures PickFits(c, n, d, excess, order, picks[..k], j) {
        assert PickFits(c, n, d, excess, order, picks, j) && picks[..k][..j] == picks[..j];
      }
      NoLotPassed(c, n, d, excess, order, picks[..k]);
      assert PickFits(c, n, d, excess, order, picks, k);
      assert Picked(n, order[k], c.s.tick, picks[k]);
    }
  }

  predicate NoLot(steps: seq<Step>) { forall x :: x in steps ==> !(x.Post? && x.purpose == Excess) }

  lemma {:induction false} TradesAreNoLots(c: Context, d: Draft, u: Urgencies, wanted: Wanted, cs: seq<Candidate>)
    requires AllWanted(wanted, cs) && NoLot(d.steps)
    ensures NoLot(ProposePass(c, d, u, wanted, cs).steps)
  {
    if cs != [] {
      hide TermsFor;
      TradesAreNoLots(c, d, u, wanted, cs[..|cs| - 1]);
    }
  }

  lemma {:induction false} AcceptsAreNoLots(c: Context, d: Draft, hold: Option<Resource>, offers: seq<Offer>)
    requires AllOurs(c, offers) && AllOurs(c, d.deferred) && NoLot(d.steps)
    ensures NoLot(AcceptPass(c, d, hold, offers).steps)
  {
    if offers != [] {
      hide Acceptable, HeldBack;
      AcceptsAreNoLots(c, d, hold, offers[..|offers| - 1]);
    }
  }

  lemma AdIsNoLot(c: Context, d: Draft, excess: Bundle, deficit: Bundle, critical: set<Resource>)
    requires NoLot(d.steps)
    ensures NoLot(AdPass(c, d, excess, deficit, critical).steps)
  {
    hide WantedOf, AdvertisedNeed, AdvertisedSurplus, ComfortablySupplied, Balance, FirstActiveAd, Advertising.DecideAdvertisement;
  }

  lemma AidIsNoLot(c: Context, d: Draft, gift: Option<Gift>)
    requires NoLot(d.steps)
    ensures NoLot(ReliefPass(c, d, gift).steps)
  {
    hide Balance, PaymentLimitFor, Posts, KeepOffers;
  }

  /** So a decision gives no lot, and its batch never meets the limit, whenever nothing over the
      cap after the accepts is sought. */
  lemma NothingToGiveNoLots(c: Context, n: Notes, budget: nat, ch: Choices)
    requires ChoicesFit(c, n, budget, ch) && NothingToGive(c, n, budget)
    ensures !GaveLot(PlanOf(c, budget, ch).steps)
  {
    hide ChoicesFit, PullStage, ExcessAt, ExcessStage, AdStage, ProposeStage, LateStage, ReliefPass;
    UsableChoices(c, n, budget, ch);
    LotStage(c, n, budget, ch);
    TradeStage(c, budget, ch);
    LastStage(c, budget, ch);
    AidIsNoLot(c, LateStage(c, budget, ch), ch.gift);
  }

  lemma UsableChoices(c: Context, n: Notes, budget: nat, ch: Choices)
    requires ChoicesFit(c, n, budget, ch)
    ensures Usable(c, budget, ch)
    ensures PicksFit(c, n, PullStage(c, budget), ExcessAt(c, budget), ExcessOrder(ExcessAt(c, budget)), ch.picks)
  {
    hide PicksFit, CandidatesFit, GiftFits, AdStage, PullStage, ExcessAt;
  }

  lemma LotStage(c: Context, n: Notes, budget: nat, ch: Choices)
    requires |ch.picks| <= 3 && NothingToGive(c, n, budget)
    requires PicksFit(c, n, PullStage(c, budget), ExcessAt(c, budget), ExcessOrder(ExcessAt(c, budget)), ch.picks)
    ensures NoLot(ExcessStage(c, budget, ch.picks).steps)
  {
    PullStageKeeps(c, budget);
    hide PullStage, ExcessAt, Planned, ExcessPass, PickFits, ExcessOrder;
    NoLotPassed(c, n, PullStage(c, budget), ExcessAt(c, budget), ExcessOrder(ExcessAt(c, budget)), ch.picks);
  }

  lemma TradeStage(c: Context, budget: nat, ch: Choices)
    requires Usable(c, budget, ch) && NoLot(ExcessStage(c, budget, ch.picks).steps)
    ensures NoLot(ProposeStage(c, budget, ch).steps)
  {
    hide ExcessStage, ExcessAt, UrgencyAfterAccepts, DeficitAfterAccepts, AdPass, ProposePass;
    AdIsNoLot(c, ExcessStage(c, budget, ch.picks), ExcessAt(c, budget), DeficitAfterAccepts(c, budget), CriticalIn(UrgencyAfterAccepts(c, budget)));
    TradesAreNoLots(c, AdStage(c, budget, ch.picks), UrgencyAfterAccepts(c, budget), WantedAt(c, budget, ch.picks), ch.candidates);
  }

  lemma LastStage(c: Context, budget: nat, ch: Choices)
    requires Usable(c, budget, ch) && NoLot(ProposeStage(c, budget, ch).steps)
    ensures NoLot(LateStage(c, budget, ch).steps)
  {
    hide ProposeStage, AcceptPass, Usable;
    var offered := ProposeStage(c, budget, ch);
    AcceptsAreNoLots(c, offered.(deferred := []), None, offered.deferred);
  }
}
