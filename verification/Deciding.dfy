/** The decision itself: loops that spend one budget and one balance, stage by stage. */
module Deciding {
  import opened Domain
  import opened Counterparties
  import opened Memory
  import opened Commitments
  import opened Reserves
  import opened Pricing
  import opened Acceptance
  import opened Advertising
  import opened Altruism
  import opened Targeting
  import opened Planner
  import PlannerSafety
  import PlannerStages
  import PlannerProof
  import Completeness

  /** The chosen actions, each with what it was chosen for. */
  class Decision {
    var steps: seq<Step>
    var reserve: Bundle
    var available: Bundle

    constructor (reserve: Bundle, available: Bundle)
      ensures steps == [] && this.reserve == reserve && this.available == available
    {
      steps := [];
      this.reserve, this.available := reserve, available;
    }

    method Add(step: Step)
      modifies this`steps
      ensures steps == old(steps) + [step]
    {
      steps := steps + [step];
    }
  }

  lemma BalanceSnoc(c: Context, steps: seq<Step>, step: Step)
    ensures Balance(c, steps + [step]) == Balance(c, steps).Monus(CostOf(c.s.self, step))
    ensures Posts(steps + [step]) == Posts(steps) + (if step.Post? then 1 else 0)
    ensures PricedPosts(steps + [step]) == PricedPosts(steps) + (if step.IsPriced() then 1 else 0)
    ensures forall gifts, tick :: GiftLog(gifts, steps + [step], tick)
              == if step.Post? && step.purpose != Priced then GiftLog(gifts, steps, tick)[(step.recipient, step.pay) := tick]
                 else GiftLog(gifts, steps, tick)
  {
    assert (steps + [step])[..|steps|] == steps;
  }

  // ---- accepting -----------------------------------------------------------------------------

  lemma {:induction false} NothingLeftToAccept(c: Context, d: Draft, hold: Option<Resource>, offers: seq<Offer>, i: nat)
    requires AllOurs(c, offers) && AllOurs(c, d.deferred) && i <= |offers|
    requires AcceptPass(c, d, hold, offers[..i]).budget == 0
    ensures AcceptPass(c, d, hold, offers) == AcceptPass(c, d, hold, offers[..i])
  {
    if i < |offers| {
      var n := |offers| - 1;
      assert offers[..n][..i] == offers[..i];
      NothingLeftToAccept(c, d, hold, offers[..n], i);
    } else {
      assert offers[..i] == offers;
    }
  }

  /** One offer: take it, hold it back, or pass. */
  method ConsiderOffer(decision: Decision, c: Context, o: Offer, stock: Bundle, levels: Urgencies, commands: nat, held: seq<Offer>,
                       hold: Option<Resource>, preserveNormal: bool)
    returns (budget: nat, running: Bundle, urgency: Urgencies, deferred: seq<Offer>)
    requires stock == Balance(c, decision.steps) && levels == c.Urgent(stock) && o.HasParty(c.s.self) && commands > 0
    requires preserveNormal == HasNormalOffers(c.s)
    modifies decision`steps
    ensures Draft(decision.steps, budget, deferred) == Considered(c, Draft(old(decision.steps), commands, held), hold, o)
    ensures running == Balance(c, decision.steps) && urgency == c.Urgent(running)
  {
    hide WorthTaking, HasNormalOffers, PaymentLimitFor, UrgencyOf;
    budget, running, urgency, deferred := commands, stock, levels, held;
    var cost, gain := o.Pays(c.s.self), o.Receives(c.s.self);
    var limit := PaymentLimitFor(running.Monus(cost), c.s.me, c.TicksLeft());
    if !cost.IsZero() && preserveNormal && limit != Unlimited { return; }
    if !WorthTaking(cost, gain, running, c.reserve, urgency, c.s.me.specialty, limit, c.EndGame()) { return; }
    var lastChance := o.expires - c.s.tick <= 1;
    if budget <= 1 && (lastChance || (hold.Some? && gain.Get(hold.value) == 0)) {
      deferred := deferred + [o];
    } else {
      BalanceSnoc(c, decision.steps, TakeOffer(o));
      decision.Add(TakeOffer(o));
      budget := budget - 1;
      running := running.Monus(cost);
      urgency := ComputeUrgency(running, c.s.me.upkeep, c.reserve);
    }
  }

  method AcceptIncoming(decision: Decision, c: Context, offers: seq<Offer>, available: Bundle, commands: nat, hold: Option<Resource>)
    returns (budget: nat, running: Bundle, deferred: seq<Offer>)
    requires available == Balance(c, decision.steps) && AllOurs(c, offers)
    modifies decision`steps
    ensures Draft(decision.steps, budget, deferred) == AcceptPass(c, Draft(old(decision.steps), commands, []), hold, offers)
    ensures running == Balance(c, decision.steps)
  {
    hide Considered, HasNormalOffers, Balance, UrgencyOf;
    ghost var d := Draft(decision.steps, commands, []);
    budget, running, deferred := commands, available, [];
    var urgency := ComputeUrgency(running, c.s.me.upkeep, c.reserve);
    var preserveNormal := HasNormalOffers(c.s);
    for i := 0 to |offers|
      invariant Draft(decision.steps, budget, deferred) == AcceptPass(c, d, hold, offers[..i])
      invariant running == Balance(c, decision.steps) && urgency == c.Urgent(running)
    {
      if budget == 0 {
        NothingLeftToAccept(c, d, hold, offers, i);
        return;
      }
      assert offers[..i + 1][..i] == offers[..i];
      budget, running, urgency, deferred :=
        ConsiderOffer(decision, c, offers[i], running, urgency, budget, deferred, hold, preserveNormal);
    }
    assert offers[..|offers|] == offers;
  }

  // ---- withdrawing -------------------------------------------------------------------------------

  lemma {:induction false} NothingLeftToPull(c: Context, d: Draft, offers: seq<Offer>, i: nat)
    requires i <= |offers| && PullPass(c, d, offers[..i]).budget == 0
    ensures PullPass(c, d, offers) == PullPass(c, d, offers[..i])
  {
    if i < |offers| {
      var n := |offers| - 1;
      assert offers[..n][..i] == offers[..i];
      NothingLeftToPull(c, d, offers[..n], i);
    } else {
      assert offers[..i] == offers;
    }
  }

  method WithdrawDangerous(decision: Decision, c: Context, available: Bundle, commands: nat, ghost d: Draft)
    returns (budget: nat)
    requires d.steps == decision.steps && d.budget == commands && available == Balance(c, decision.steps)
    modifies decision`steps
    ensures Draft(decision.steps, budget, d.deferred) == PullPass(c, d, c.s.OutgoingOpen())
    ensures Balance(c, decision.steps) == available
  {
    hide Balance, PaymentLimitFor, KeepOffers, AtRisk;
    budget := commands;
    var offers := c.s.OutgoingOpen();
    for i := 0 to |offers|
      invariant Draft(decision.steps, budget, d.deferred) == PullPass(c, d, offers[..i])
      invariant Balance(c, decision.steps) == available
    {
      if budget == 0 {
        NothingLeftToPull(c, d, offers, i);
        return;
      }
      assert offers[..i + 1][..i] == offers[..i];
      var o := offers[i];
      var atRisk := exists r :: AtRisk(c, available, o, r);
      var limit := PaymentLimitFor(available, c.s.me, c.TicksLeft());
      var violatesGuard := limit != Unlimited
        && (o.receive.IsZero() || limit == NoPayment || 2 * o.give.Total() > o.receive.Total());
      if atRisk || violatesGuard {
        BalanceSnoc(c, decision.steps, PullOffer(o));
        assert available.Monus(Bundle.Zero()) == available;
        decision.Add(PullOffer(o));
        budget := budget - 1;
      }
    }
    assert offers[..|offers|] == offers;
  }

  // ---- giving away excess --------------------------------------------------------------------------

  lemma PickedAgain(n: Notes, gifts: map<(StationId, Resource), int>, r: Resource, tick: int, pick: Option<StationId>)
    requires Picked(n.(gifts := gifts), r, tick, pick)
    requires SameLog(gifts, n, r)
    ensures Picked(n, r, tick, pick)
  {
    var m := n.(gifts := gifts);
    assert forall p :: p in n.model.stations ==> m.TicksSinceGift(p, r, tick) == n.TicksSinceGift(p, r, tick);
    assert forall p :: p in n.model.stations ==> IsSeeker(m, r, tick, p) == IsSeeker(n, r, tick, p);
    assert forall p, q :: SeeksNoLonger(m, r, q, p) == SeeksNoLonger(n, r, q, p);
  }

  lemma PicksFitOn(c: Context, n: Notes, d: Draft, excess: Bundle, order: seq<Resource>, picks: seq<Option<StationId>>, pick: Option<StationId>)
    requires |picks| < |order|
    requires forall k {:trigger PickFits(c, n, d, excess, order, picks, k)} :: 0 <= k < |picks| ==> PickFits(c, n, d, excess, order, picks, k)
    requires CanGive(c, ExcessPass(c, d, excess, order, picks), excess, order[|picks|]) && Picked(n, order[|picks|], c.s.tick, pick)
    ensures forall k {:trigger PickFits(c, n, d, excess, order, picks + [pick], k)} ::
              0 <= k < |picks + [pick]| ==> PickFits(c, n, d, excess, order, picks + [pick], k)
  {
    var more := picks + [pick];
    forall k | 0 <= k < |more| ensures PickFits(c, n, d, excess, order, more, k) {
      if k < |picks| {
        assert more[..k] == picks[..k];
        assert PickFits(c, n, d, excess, order, picks, k);
      } else {
        assert more[..k] == picks;
      }
    }
  }

  ghost predicate SameLog(gifts: map<(StationId, Resource), int>, n: Notes, r: Resource) {
    && (forall p :: (p, r) in gifts <==> (p, r) in n.gifts)
    && (forall p :: (p, r) in gifts ==> gifts[(p, r)] == n.gifts[(p, r)])
  }

  lemma AllSameLog(n: Notes, order: seq<Resource>)
    ensures forall k :: 0 <= k < |order| ==> SameLog(n.gifts, n, order[k])
  {
  }

  lemma LogElsewhere(gifts: map<(StationId, Resource), int>, n: Notes, p: StationId, given: Resource, tick: int)
    ensures forall r :: r != given && SameLog(gifts, n, r) ==> SameLog(gifts[(p, given) := tick], n, r)
  {
  }

  /** Give one lot and log it. */
  method GiveLot(decision: Decision, c: Context, memory: PolicyMemory, r: Resource, p: StationId, excess: nat, ttl: int, ghost n: Notes)
    returns (quantity: nat)
    requires memory.View() == n.(gifts := GiftLog(n.gifts, decision.steps, c.s.tick)) && ttl == c.OfferLifetime()
    modifies decision`steps, memory`gifts
    ensures quantity == Min(excess, MAX_EXCESS_GIFT)
    ensures decision.steps == old(decision.steps) + [ExcessPost(c, r, p, excess)]
    ensures memory.View() == n.(gifts := GiftLog(n.gifts, decision.steps, c.s.tick))
    ensures memory.gifts == old(memory.gifts)[(p, r) := c.s.tick as int]
  {
    quantity := Min(excess, MAX_EXCESS_GIFT);
    var step := Post(Excess, p, r, quantity, r, 0, c.s.tick + ttl);
    BalanceSnoc(c, decision.steps, step);
    decision.Add(step);
    memory.RecordGift(p, r, c.s.tick);
  }

  method GiveExcess(decision: Decision, c: Context, memory: PolicyMemory, stock: Bundle, excess: Bundle, commands: nat,
                    ghost d: Draft, ghost n: Notes)
    returns (budget: nat, available: Bundle, ghost picks: seq<Option<StationId>>)
    requires d.steps == decision.steps && d.budget == commands && stock == Balance(c, decision.steps)
    requires memory.View() == n && GiftLog(n.gifts, d.steps, c.s.tick) == n.gifts
    modifies decision`steps, memory`gifts
    ensures |picks| <= 3 && PicksFit(c, n, d, excess, ExcessOrder(excess), picks)
    ensures Draft(decision.steps, budget, d.deferred) == ExcessPass(c, d, excess, ExcessOrder(excess), picks)
    ensures available == Balance(c, decision.steps)
    ensures memory.View() == n.(gifts := GiftLog(n.gifts, decision.steps, c.s.tick))
  {
    hide Balance, Posts, GiftLog, Picked, PickFits, SameLog;
    budget, available, picks := commands, stock, [];
    var room := c.s.rules.maxOpenOffers - |c.s.OutgoingOpen()| - Posts(decision.steps);
    var ttl := c.OfferLifetime();
    var order := ExcessOrder(excess);
    AllSameLog(n, order);
    for i := 0 to |order|
      invariant |picks| == i
      invariant forall k {:trigger PickFits(c, n, d, excess, order, picks, k)} :: 0 <= k < |picks| ==> PickFits(c, n, d, excess, order, picks, k)
      invariant Draft(decision.steps, budget, d.deferred) == ExcessPass(c, d, excess, order, picks)
      invariant available == Balance(c, decision.steps)
      invariant room == c.s.rules.maxOpenOffers - c.Outgoing() - Posts(decision.steps)
      invariant memory.View() == n.(gifts := GiftLog(n.gifts, decision.steps, c.s.tick))
      invariant forall k :: i <= k < 3 ==> SameLog(memory.gifts, n, order[k])
    {
      if budget == 0 || room <= 0 || ttl <= 0 { return; }
      var r := order[i];
      if excess.Get(r) <= 0 { return; }
      ghost var before := picks;
      var recipient := PickGiftRecipient(memory.View(), r, c.s.tick);
      PickedAgain(n, memory.gifts, r, c.s.tick, recipient);
      PicksFitOn(c, n, d, excess, order, before, recipient);
      picks := picks + [recipient];
      assert picks[..i] == before;
      if recipient.Some? {
        BalanceSnoc(c, decision.steps, ExcessPost(c, r, recipient.value, excess.Get(r)));
        LogElsewhere(memory.gifts, n, recipient.value, r, c.s.tick);
        var quantity := GiveLot(decision, c, memory, r, recipient.value, excess.Get(r), ttl, n);
        available := available.Monus(Bundle.Single(r, quantity));
        budget := budget - 1;
        room := room - 1;
      }
    }
  }

  // ---- advertising -------------------------------------------------------------------------------------

  method WantedQuantities(c: Context, available: Bundle, deficit: Bundle) returns (wanted: Wanted)
    ensures wanted == WantedOf(c, available, deficit)
  {
    hide WantedQuantity;
    wanted := map[];
    for i := 0 to |RESOURCES|
      invariant wanted == map r | r in RESOURCES[..i] && WantedQuantity(c, available, deficit, r) > 0 :: WantedQuantity(c, available, deficit, r)
    {
      var r := RESOURCES[i];
      assert RESOURCES[..i + 1] == RESOURCES[..i] + [r];
      var quantity := WantedQuantity(c, available, deficit, r);
      if quantity > 0 {
        wanted := wanted[r := quantity];
      }
    }
    AllListed();
    assert RESOURCES[0] == Water && RESOURCES[1] == Food && RESOURCES[2] == Components;
    forall r: Resource ensures r in RESOURCES[..3] {
      match r case Water => case Food => case Components =>
    }
  }

  method RefreshAdvertisement(decision: Decision, c: Context, available: Bundle, excess: Bundle, deficit: Bundle,
                              critical: set<Resource>, commands: nat, ghost d: Draft)
    returns (budget: nat)
    requires d.steps == decision.steps && d.budget == commands && available == Balance(c, decision.steps)
    modifies decision`steps
    ensures Draft(decision.steps, budget, d.deferred) == AdPass(c, d, excess, deficit, critical)
    ensures Balance(c, decision.steps) == available
    ensures forall gifts :: GiftLog(gifts, decision.steps, c.s.tick) == GiftLog(gifts, d.steps, c.s.tick)
  {
    hide DecideAdvertisement, Balance, WantedOf, AdvertisedNeed, AdvertisedSurplus, ComfortablySupplied, GiftLog, FirstActiveAd;
    budget := commands;
    if budget == 0 { return; }
    var current := c.s.OwnAdvertisement();
    var wanted := WantedQuantities(c, available, deficit);
    var chosen: Option<Step> := None;
    if ComfortablySupplied(available) {
      if current.Some? {
        chosen := Some(PullAd(current.value));
      }
    } else {
      var verdict := DecideAdvertisement(AdvertisedSurplus(c, available, wanted, excess), AdvertisedNeed(wanted, excess),
                                         critical, current, c.s.tick, c.s.rules);
      match verdict
      case Some(Advertise(selling, seeking, expires)) => chosen := Some(Announce(selling, seeking, expires));
      case Some(_) => if current.Some? { chosen := Some(PullAd(current.value)); }
      case None =>
    }
    if chosen.Some? {
      BalanceSnoc(c, decision.steps, chosen.value);
      decision.Add(chosen.value);
      budget := budget - 1;
      assert available.Monus(Bundle.Zero()) == available;
    }
  }

  // ---- proposing trades ------------------------------------------------------------------------------------

  lemma MonusSwaps(a: Bundle, b: Bundle, x: Bundle)
    ensures a.Monus(b).Monus(x) == a.Monus(x).Monus(b)
  {
  }

  lemma {:induction false} NothingLeftToPropose(c: Context, d: Draft, u: Urgencies, wanted: Wanted, cs: seq<Candidate>, i: nat)
    requires AllWanted(wanted, cs) && i <= |cs|
    requires var z := ProposePass(c, d, u, wanted, cs[..i]); !HasRoom(c, z, PricedPosts(z.steps))
    ensures ProposePass(c, d, u, wanted, cs) == ProposePass(c, d, u, wanted, cs[..i])
  {
    if i < |cs| {
      var n := |cs| - 1;
      assert cs[..n][..i] == cs[..i];
      hide TermsFor;
      NothingLeftToPropose(c, d, u, wanted, cs[..n], i);
    } else {
      assert cs[..i] == cs;
    }
  }

  /** Try the normal price, then half price. */
  method PriceCandidate(c: Context, x: Candidate, u: Urgencies, wanted: Wanted, available: Bundle, surplus: Bundle, preserveNormal: bool,
                        ghost steps: seq<Step>)
    returns (terms: Option<(Bundle, Bundle)>)
    requires x.want in wanted && available == Balance(c, steps) && surplus == available.Monus(c.reserve)
    requires preserveNormal == (HasNormalOffers(c.s) || NormalPlanned(steps))
    ensures terms == TermsFor(c, steps, u, wanted, x)
  {
    hide HasNormalOffers, NormalPlanned, Balance, ComputeTerms, DesiredQuantity, LotSize;
    var specialty := c.s.me.specialty;
    var limits := if c.EndGame() then [Unlimited] else [Unlimited, HalfPrice];
    terms := None;
    for i := 0 to |limits|
      invariant terms == None
      invariant forall k :: 0 <= k < i ==> TermsUnder(c, steps, u, wanted, x, limits[k]) == None
    {
      var limit := limits[i];
      var floor := if c.EndGame() then SpecialtyFloor(c.s.me, c.TicksLeft())
                   else (if limit == Unlimited || preserveNormal then NORMAL_TICKS else STOP_TICKS) * c.s.me.upkeep.Get(specialty);
      assert floor == TradeFloor(c, steps, limit);
      if available.Get(specialty) >= floor {
        var payable := Replaced(surplus, specialty, Min(surplus.Get(specialty), available.Get(specialty) - floor));
        terms := PricedFrom(c, available, payable, u, wanted[x.want], x, limit);
        if terms.Some? {
          assert terms == TermsUnder(c, steps, u, wanted, x, limit);
          assert i == 1 ==> TermsUnder(c, steps, u, wanted, x, limits[0]) == None;
          return;
        }
      }
    }
    assert limits[0] == Unlimited && (!c.EndGame() ==> limits[1] == HalfPrice);
  }

  lemma ProposeNext(c: Context, d: Draft, u: Urgencies, wanted: Wanted, cs: seq<Candidate>, i: nat)
    requires AllWanted(wanted, cs) && i < |cs|
    ensures ProposePass(c, d, u, wanted, cs[..i + 1]) == Proposed(c, ProposePass(c, d, u, wanted, cs[..i]), u, wanted, cs[i])
  {
    hide Proposed;
    assert cs[..i + 1][..i] == cs[..i];
  }

  /** What adding a priced trade does to everything the loop keeps. */
  lemma TradeTaken(c: Context, d: Draft, u: Urgencies, wanted: Wanted, x: Candidate, terms: (Bundle, Bundle))
    requires x.want in wanted && TermsFor(c, d.steps, u, wanted, x) == Some(terms) && HasRoom(c, d, PricedPosts(d.steps))
    ensures var step := TradePost(c, x, terms);
            && Proposed(c, d, u, wanted, x) == d.With(step)
            && Balance(c, d.steps + [step]) == Balance(c, d.steps).Monus(terms.0)
            && PricedPosts(d.steps + [step]) == PricedPosts(d.steps) + 1
            && NormalPlanned(d.steps + [step]) == (NormalPlanned(d.steps) || 2 * terms.0.Total() > terms.1.Total())
            && forall gifts :: GiftLog(gifts, d.steps + [step], c.s.tick) == GiftLog(gifts, d.steps, c.s.tick)
  {
    hide TermsFor, NormalPlanned, Balance, PricedPosts, GiftLog, KeepOffers;
    TermsAreSingle(c, d.steps, u, wanted, x);
    NormalSnoc(d.steps, TradePost(c, x, terms));
    BalanceSnoc(c, d.steps, TradePost(c, x, terms));
  }

  method ProposeOffers(decision: Decision, c: Context, n: Notes, stock: Bundle, spare: Bundle, deficit: Bundle, u: Urgencies,
                       commands: nat, ghost d: Draft)
    returns (budget: nat, surplus: Bundle, available: Bundle, ghost candidates: seq<Candidate>)
    requires d.steps == decision.steps && d.budget == commands && stock == Balance(c, decision.steps)
    requires spare == stock.Monus(c.reserve) && !NormalPlanned(d.steps) && PricedPosts(d.steps) == 0
    modifies decision`steps
    ensures var wanted := WantedOf(c, stock, deficit);
            && AllWanted(wanted, candidates)
            && (c.Outgoing() < c.s.rules.maxOpenOffers ==>
                  Ranked(n.model, u, wanted, spare, c.s.tick, Pending(c.s), c.s.me.specialty, candidates))
            && Draft(decision.steps, budget, d.deferred) == ProposePass(c, d, u, wanted, candidates)
    ensures available == Balance(c, decision.steps) && surplus == available.Monus(c.reserve)
    ensures forall gifts :: GiftLog(gifts, decision.steps, c.s.tick) == GiftLog(gifts, d.steps, c.s.tick)
  {
    hide Ranked, TermsFor, HasNormalOffers, NormalPlanned, Balance, PricedPosts, GiftLog, WantedOf, Pending, KeepOffers, ProposePass;
    budget, surplus, available, candidates := commands, spare, stock, [];
    var room := c.s.rules.maxOpenOffers - |c.s.OutgoingOpen()|;
    NoProposals(c, d, u, WantedOf(c, stock, deficit));
    if room <= 0 { return; }
    var wanted := WantedQuantities(c, stock, deficit);
    var ranked := RankCounterparties(n.model, u, wanted, surplus, c.s.tick, Pending(c.s), c.s.me.specialty);
    candidates := ranked;
    RankedAreWanted(n.model, u, wanted, surplus, c.s.tick, Pending(c.s), c.s.me.specialty, ranked);
    var preserveNormal := HasNormalOffers(c.s);
    var ttl := c.OfferLifetime();
    assert ranked[..0] == [];
    for i := 0 to |ranked|
      invariant Draft(decision.steps, budget, d.deferred) == ProposePass(c, d, u, wanted, ranked[..i])
      invariant available == Balance(c, decision.steps) && surplus == available.Monus(c.reserve)
      invariant room == c.s.rules.maxOpenOffers - c.Outgoing() - PricedPosts(decision.steps)
      invariant preserveNormal == (HasNormalOffers(c.s) || NormalPlanned(decision.steps))
      invariant forall gifts :: GiftLog(gifts, decision.steps, c.s.tick) == GiftLog(gifts, d.steps, c.s.tick)
    {
      if budget == 0 || room <= 0 || ttl <= 0 {
        NothingLeftToPropose(c, d, u, wanted, ranked, i);
        return;
      }
      ProposeNext(c, d, u, wanted, ranked, i);
      var x := ranked[i];
      var terms := PriceCandidate(c, x, u, wanted, available, surplus, preserveNormal, decision.steps);
      if terms.Some? {
        TradeTaken(c, Draft(decision.steps, budget, d.deferred), u, wanted, x, terms.value);
        MonusSwaps(available, c.reserve, terms.value.0);
        preserveNormal := preserveNormal || 2 * terms.value.0.Total() > terms.value.1.Total();
        decision.Add(Post(Priced, x.station, x.pay, terms.value.0.Get(x.pay), x.want, terms.value.1.Get(x.want), c.s.tick + ttl));
        surplus := surplus.Monus(terms.value.0);
        available := available.Monus(terms.value.0);
        budget := budget - 1;
        room := room - 1;
      }
    }
    assert ranked[..|ranked|] == ranked;
  }

  lemma NoProposals(c: Context, d: Draft, u: Urgencies, wanted: Wanted)
    ensures AllWanted(wanted, []) && ProposePass(c, d, u, wanted, []) == d
  {
  }

  lemma RankedAreWanted(
    m: Model, u: Urgencies, wanted: Wanted, surplus: Bundle, tick: int, pending: set<(StationId, Resource)>,
    preferred: Resource, cs: seq<Candidate>)
    requires Ranked(m, u, wanted, surplus, tick, pending, preferred, cs)
    ensures AllWanted(wanted, cs)
  {
    hide Best;
  }

  lemma NormalSnoc(steps: seq<Step>, step: Step)
    ensures NormalPlanned(steps + [step]) == (NormalPlanned(steps) || step.IsNormalTrade())
  {
    assert step in steps + [step];
  }

  lemma TermsAreSingle(c: Context, steps: seq<Step>, u: Urgencies, wanted: Wanted, x: Candidate)
    requires x.want in wanted && TermsFor(c, steps, u, wanted, x).Some?
    ensures var terms := TermsFor(c, steps, u, wanted, x).value;
            && terms.0 == Bundle.Single(x.pay, terms.0.Get(x.pay)) && terms.0.Total() == terms.0.Get(x.pay)
            && terms.1 == Bundle.Single(x.want, terms.1.Get(x.want)) && terms.1.Total() == terms.1.Get(x.want)
  {
    var limit := PlannerStages.TermsForFair(c, steps, u, wanted, x);
    hide TermsFor;
  }

  // ---- aid -------------------------------------------------------------------------------------------------

  method OfferAid(decision: Decision, c: Context, memory: PolicyMemory, surplus: Bundle, u: Urgencies, commands: nat,
                  ghost d: Draft, ghost n: Notes)
    returns (budget: nat, ghost found: Option<Gift>)
    requires d.steps == decision.steps && d.budget == commands && surplus == Balance(c, decision.steps).Monus(c.reserve)
    requires memory.View() == n.(gifts := GiftLog(n.gifts, d.steps, c.s.tick))
    modifies decision`steps, memory`gifts
    ensures Draft(decision.steps, budget, d.deferred) == ReliefPass(c, d, found)
    ensures if CanAid(c, d) then Scanned(n.(gifts := GiftLog(n.gifts, d.steps, c.s.tick)), surplus, u, c.s.tick, found) else found == None
    ensures memory.View() == n.(gifts := GiftLog(n.gifts, decision.steps, c.s.tick))
  {
    hide Scanned, Balance, GiftLog, Posts, PaymentLimitFor;
    budget, found := commands, None;
    if PaymentLimitFor(surplus.Plus(c.reserve), c.s.me, c.TicksLeft()) != Unlimited { return; }
    if budget == 0 || |c.s.OutgoingOpen()| + Posts(decision.steps) >= c.s.rules.maxOpenOffers { return; }
    var gift := ScanForDistress(memory.View(), surplus, u, c.s.tick);
    found := gift;
    if gift.None? { return; }
    var lot := Bundle.Single(gift.value.resource, gift.value.quantity);
    if PaymentLimitFor(surplus.Plus(c.reserve).Monus(lot), c.s.me, c.TicksLeft()) != Unlimited { return; }
    var ttl := c.OfferLifetime();
    if ttl <= 0 { return; }
    var step := Post(Relief, gift.value.station, gift.value.resource, gift.value.quantity, gift.value.resource, 0, c.s.tick + ttl);
    BalanceSnoc(c, decision.steps, step);
    decision.Add(step);
    memory.RecordGift(gift.value.station, gift.value.resource, c.s.tick);
    budget := budget - 1;
  }

  // ---- one decision -------------------------------------------------------------------------------------------

  function ContextFor(n: Notes, s: Snapshot, inflight: Ledger): Context {
    var seen, opening := Memory.Observed(n, s), Available(s, inflight);
    Context(s, ReserveOf(s.rules, s.me, seen, opening), opening, seen.model.Live())
  }

  predicate MayTrade(n: Notes, s: Snapshot) {
    s.phase == Running && !s.me.failed && n.blockedUntil <= s.tick < s.rules.durationTicks
  }

  /** The most commands that a tick and the caller both allow. */
  function BudgetFor(s: Snapshot, commandBudget: Option<int>): (budget: nat)
    ensures budget <= s.rules.commandsPerTick && (commandBudget.Some? ==> budget <= Max(0, commandBudget.value))
    ensures budget == s.rules.commandsPerTick || (commandBudget.Some? && budget == Max(0, commandBudget.value))
  {
    if commandBudget.None? then s.rules.commandsPerTick else Min(s.rules.commandsPerTick, Max(0, commandBudget.value))
  }

  lemma NothingPlanned(c: Context, gifts: map<(StationId, Resource), int>)
    ensures PlannerSafety.Planned(c, []) && GiftLog(gifts, [], c.s.tick) == gifts
  {
  }

  /** The steps are a plan the memory allows, with nothing due left out, or none when trading is off. */
  ghost predicate Follows(before: Notes, s: Snapshot, inflight: Ledger, commandBudget: Option<int>, steps: seq<Step>, ch: Choices) {
    var c, budget := ContextFor(before, s, inflight), BudgetFor(s, commandBudget);
    var n := Refreshed(before, s, c.opening);
    && (MayTrade(n, s) ==>
          ChoicesFit(c, n, budget, ch) && steps == PlanOf(c, budget, ch).steps && Completeness.Thorough(c, n, steps, budget))
    && (!MayTrade(n, s) ==> steps == [])
    && PlannerSafety.Planned(c, steps) && |steps| <= budget
  }

  method Decide(s: Snapshot, memory: PolicyMemory, commitments: CommitmentTracker, commandBudget: Option<int>)
    returns (decision: Decision, ghost ch: Choices)
    modifies memory, memory.counterparties
    ensures fresh(decision)
    ensures var before := old(memory.View());
            var c := ContextFor(before, s, commitments.inflight);
            var n := Refreshed(before, s, c.opening);
            && decision.reserve == c.reserve && decision.available == c.opening
            && memory.View() == n.(gifts := GiftLog(n.gifts, decision.steps, s.tick))
    ensures Follows(old(memory.View()), s, commitments.inflight, commandBudget, decision.steps, ch)
  {
    hide Memory.Observed, ReserveOf, StoredOf, Available, ChoicesFit, PlanOf, GiftLog, PlannerSafety.Planned, Completeness.Thorough;
    ghost var before := memory.View();
    memory.Observe(s);
    var available := commitments.AvailableToCommit(s);
    var reserve := ComputeReserve(s.rules, s.me, memory, available);
    decision := new Decision(reserve, available);
    ch := Choices([], [], None);
    var c := Context(s, reserve, available, memory.View().model.Live());
    ghost var n := Refreshed(before, s, available);
    assert c == ContextFor(before, s, commitments.inflight) && memory.View() == n;
    NothingPlanned(c, n.gifts);
    if s.phase != Running || s.me.failed || s.tick < memory.blockedUntil || s.tick >= s.rules.durationTicks { return; }
    var budget := s.rules.commandsPerTick;
    if commandBudget.Some? {
      budget := Min(budget, Max(0, commandBudget.value));
    }
    ch := RunStages(decision, c, memory, budget, n);
    ReserveShrinksWithStock(s.rules, s.me, Memory.Observed(before, s), available, available);
    PlannerProof.PlanIsJustified(c, n, budget, ch);
    Completeness.NothingDueIsSkipped(c, n, budget, ch);
  }

  lemma {:induction false} NoGiftsYet(steps: seq<Step>, gifts: map<(StationId, Resource), int>, tick: int)
    requires PlannerStages.UpTo(steps, 1)
    ensures GiftLog(gifts, steps, tick) == gifts
  {
    if steps != [] {
      assert steps[|steps| - 1] in steps;
      NoGiftsYet(steps[..|steps| - 1], gifts, tick);
    }
  }

  lemma {:induction false} NoTradesYet(steps: seq<Step>)
    requires PlannerStages.UpTo(steps, 3)
    ensures PricedPosts(steps) == 0 && !NormalPlanned(steps)
  {
    if steps != [] {
      assert steps[|steps| - 1] in steps;
      NoTradesYet(steps[..|steps| - 1]);
    }
  }

  lemma PicksAreKnown(c: Context, n: Notes, d: Draft, excess: Bundle, order: seq<Resource>, picks: seq<Option<StationId>>)
    requires c.known == n.model.Live() && |picks| <= |order| && PicksFit(c, n, d, excess, order, picks)
    ensures PlannerStages.AllKnown(c, picks)
  {
    forall k | 0 <= k < |picks| && picks[k].Some? ensures picks[k].value in c.known {
      assert PickFits(c, n, d, excess, order, picks, k);
    }
  }

  /** Accepts, withdrawals and lots over the cap: the stages before trades are priced. */
  method ProtectStages(decision: Decision, c: Context, memory: PolicyMemory, commands: nat, ghost n: Notes)
    returns (budget: nat, available: Bundle, deferred: seq<Offer>, excess: Bundle, deficit: Bundle, urgency: Urgencies,
             ghost picks: seq<Option<StationId>>)
    requires decision.steps == [] && memory.View() == n && c.known == n.model.Live()
    modifies decision`steps, memory`gifts
    ensures |picks| <= 3 && PicksFit(c, n, PullStage(c, commands), ExcessAt(c, commands), ExcessOrder(ExcessAt(c, commands)), picks)
    ensures Draft(decision.steps, budget, deferred) == ExcessStage(c, commands, picks)
    ensures available == Balance(c, decision.steps) && excess == ExcessAt(c, commands)
    ensures deficit == DeficitAfterAccepts(c, commands) && urgency == UrgencyAfterAccepts(c, commands)
    ensures memory.View() == n.(gifts := GiftLog(n.gifts, decision.steps, c.s.tick))
  {
    IncomingIsOurs(c);
    PlannerStages.PullStageKeeps(c, commands);
    hide AcceptPass, PullPass, ExcessPass, GiftLog, PicksFit, ScarceImportToChase, PlannerSafety.Planned, UrgencyOf, ExcessOverCap;
    var hold := ScarceImportToChase(c);
    assert c.opening == Balance(c, decision.steps);
    hide Balance;
    budget, available, deferred := AcceptIncoming(decision, c, c.s.IncomingOpen(), c.opening, commands, hold);
    ghost var accepted := Draft(decision.steps, budget, deferred);
    assert accepted == AcceptStage(c, commands);
    deficit := c.reserve.Monus(available);
    urgency := ComputeUrgency(available, c.s.me.upkeep, c.reserve);
    budget := WithdrawDangerous(decision, c, available, budget, accepted);
    ghost var pulled := Draft(decision.steps, budget, deferred);
    assert pulled == PullStage(c, commands);
    NoGiftsYet(decision.steps, n.gifts, c.s.tick);
    excess := ExcessOverCap(available);
    budget, available, picks := GiveExcess(decision, c, memory, available, excess, budget, pulled, n);
  }

  /** Deferred accepts, then aid. */
  method LateStages(decision: Decision, c: Context, memory: PolicyMemory, commands: nat, stock: Bundle, deferred: seq<Offer>,
                    levels: Urgencies, ghost d: Draft, ghost n: Notes)
    returns (ghost gift: Option<Gift>)
    requires d.steps == decision.steps && d.budget == commands && d.deferred == deferred && AllOurs(c, deferred)
    requires stock == Balance(c, decision.steps)
    requires memory.View() == n.(gifts := GiftLog(n.gifts, d.steps, c.s.tick))
    modifies decision`steps, memory`gifts
    ensures var late := DeferredStage(c, d);
            var u := if TakesDeferred(d) then c.Urgent(Balance(c, d.steps)) else levels;
            && decision.steps == ReliefPass(c, late, gift).steps
            && (if CanAid(c, late)
                then Scanned(n.(gifts := GiftLog(n.gifts, late.steps, c.s.tick)), Balance(c, late.steps).Monus(c.reserve), u, c.s.tick, gift)
                else gift == None)
    ensures memory.View() == n.(gifts := GiftLog(n.gifts, decision.steps, c.s.tick))
  {
    hide AcceptPass, Balance, GiftLog, Scanned, ReliefPass, CanAid, UrgencyOf;
    var budget, available, urgency := commands, stock, levels;
    ghost var late := d;
    if deferred != [] && budget > 0 {
      urgency := ComputeUrgency(available, c.s.me.upkeep, c.reserve);
      var again: seq<Offer>;
      budget, available, again := AcceptIncoming(decision, c, deferred, available, budget, None);
      late := Draft(decision.steps, budget, again);
      AcceptsLogNothing(c, d.(deferred := []), None, deferred, n.gifts);
    }
    var surplus := available.Monus(c.reserve);
    budget, gift := OfferAid(decision, c, memory, surplus, urgency, budget, late, n);
  }

  lemma {:induction false} AcceptsLogNothing(c: Context, d: Draft, hold: Option<Resource>, offers: seq<Offer>, gifts: map<(StationId, Resource), int>)
    requires AllOurs(c, offers) && AllOurs(c, d.deferred)
    ensures GiftLog(gifts, AcceptPass(c, d, hold, offers).steps, c.s.tick) == GiftLog(gifts, d.steps, c.s.tick)
  {
    if offers != [] {
      hide Acceptable, HeldBack, Balance;
      AcceptsLogNothing(c, d, hold, offers[..|offers| - 1], gifts);
      BalanceSnoc(c, AcceptPass(c, d, hold, offers[..|offers| - 1]).steps, TakeOffer(offers[|offers| - 1]));
    }
  }

  /** The stages in order, sharing the budget and the balance. */
  method RunStages(decision: Decision, c: Context, memory: PolicyMemory, commands: nat, ghost n: Notes)
    returns (ghost ch: Choices)
    requires decision.steps == [] && memory.View() == n && c.known == n.model.Live()
    modifies decision`steps, memory`gifts
    ensures ChoicesFit(c, n, commands, ch)
    ensures decision.steps == PlanOf(c, commands, ch).steps
    ensures memory.View() == n.(gifts := GiftLog(n.gifts, decision.steps, c.s.tick))
  {
    hide AcceptStage, PullStage, ExcessStage, ExcessAt, DeficitAfterAccepts, UrgencyAfterAccepts, AdPass, ProposePass, ReliefPass,
         Balance, GiftLog, PicksFit, Ranked, Scanned, WantedOf, PlannerSafety.Planned;
    var budget, available, deferred, excess, deficit, urgency;
    ghost var picks;
    budget, available, deferred, excess, deficit, urgency, picks := ProtectStages(decision, c, memory, commands, n);
    PicksAreKnown(c, n, PullStage(c, commands), ExcessAt(c, commands), ExcessOrder(ExcessAt(c, commands)), picks);
    PlannerProof.AdStageKeeps(c, commands, picks);
    ghost var d := Draft(decision.steps, budget, deferred);
    var critical := CriticalIn(urgency);
    budget := RefreshAdvertisement(decision, c, available, excess, deficit, critical, budget, d);
    d := Draft(decision.steps, budget, deferred);
    assert d == AdStage(c, commands, picks);
    NoTradesYet(decision.steps);
    var surplus := available.Monus(c.reserve);
    ghost var candidates;
    budget, surplus, available, candidates := ProposeOffers(decision, c, memory.View(), available, surplus, deficit, urgency, budget, d);
    ch := Choices(picks, candidates, None);
    d := Draft(decision.steps, budget, deferred);
    assert d == ProposeStage(c, commands, ch);
    ghost var gift := LateStages(decision, c, memory, budget, available, deferred, urgency, d, n);
    ch := Choices(picks, candidates, gift);
  }
}
