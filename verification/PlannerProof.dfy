/** The whole batch is justified, whatever its choices, and what that says about a decision. */
module PlannerProof {
  import opened Domain
  import opened Counterparties
  import opened EngineInvariant
  import opened Memory
  import opened Reserves
  import opened Pricing
  import opened Altruism
  import opened Targeting
  import opened Planner
  import opened PlannerSafety
  import opened PlannerStages

  // ---- choices name known stations --------------------------------------------------------------

  lemma PicksKnown(c: Context, n: Notes, budget: nat, ch: Choices)
    requires c.known == n.model.Live() && ChoicesFit(c, n, budget, ch)
    ensures AllKnown(c, ch.picks)
  {
    var d, excess := PullStage(c, budget), ExcessAt(c, budget);
    hide PullStage, ExcessAt, GiftFits, CandidatesFit, AdStage;
    forall k | 0 <= k < |ch.picks| && ch.picks[k].Some? ensures ch.picks[k].value in c.known {
      assert PickFits(c, n, d, excess, ExcessOrder(excess), ch.picks, k);
    }
  }

  lemma CandidatesApproachable(c: Context, n: Notes, budget: nat, ch: Choices)
    requires c.known == n.model.Live() && |ch.picks| <= 3 && CandidatesFit(c, n, budget, ch)
    ensures WantsDiffer(ch.candidates) && forall x :: x in ch.candidates ==> Approachable(c, x)
  {
    var u, wanted := UrgencyAfterAccepts(c, budget), WantedAt(c, budget, ch.picks);
    hide UrgencyAfterAccepts, WantedAt, AdStage;
    forall i, j | 0 <= i < j < |ch.candidates| ensures ch.candidates[i].want != ch.candidates[j].want {
      assert RanksBefore(u, wanted, ch.candidates, i, j);
    }
  }

  lemma {:induction false} NoRoomNoOffers(c: Context, d: Draft, u: Urgencies, wanted: Wanted, cs: seq<Candidate>)
    requires AllWanted(wanted, cs) && c.Outgoing() >= c.s.rules.maxOpenOffers
    ensures ProposePass(c, d, u, wanted, cs) == d
  {
    if cs != [] { NoRoomNoOffers(c, d, u, wanted, cs[..|cs| - 1]); }
  }

  lemma AdStageKeeps(c: Context, budget: nat, picks: seq<Option<StationId>>)
    requires |picks| <= 3 && AllKnown(c, picks)
    ensures Publishing(c, ExcessStage(c, budget, picks), AdStage(c, budget, picks))
  {
    ExcessStageKeeps(c, budget, picks);
    hide ExcessStage;
    AdPassKeeps(c, ExcessStage(c, budget, picks), ExcessAt(c, budget), DeficitAfterAccepts(c, budget), CriticalIn(UrgencyAfterAccepts(c, budget)));
  }

  lemma NothingProposed(c: Context, d: Draft, cs: seq<Candidate>)
    requires Planned(c, d.steps) && UpTo(d.steps, 3)
    ensures Proposing(c, d, d, cs)
  {
    hide Planned, Balance;
    assert forall y :: y in d.steps ==> !y.IsPriced();
  }

  lemma ProposeStageKeeps(c: Context, n: Notes, budget: nat, ch: Choices)
    requires c.known == n.model.Live() && ChoicesFit(c, n, budget, ch)
    ensures Proposing(c, AdStage(c, budget, ch.picks), ProposeStage(c, budget, ch), ch.candidates)
  {
    PicksKnown(c, n, budget, ch);
    AdStageKeeps(c, budget, ch.picks);
    var d, u, wanted := AdStage(c, budget, ch.picks), UrgencyAfterAccepts(c, budget), WantedAt(c, budget, ch.picks);
    hide AdStage, UrgencyAfterAccepts, WantedAt, GiftFits, PicksFit, Proposing, Planned, CandidatesFit, Approachable;
    if c.Outgoing() < c.s.rules.maxOpenOffers {
      CandidatesApproachable(c, n, budget, ch);
      ProposePassKeeps(c, d, u, wanted, ch.candidates);
    } else {
      NoRoomNoOffers(c, d, u, wanted, ch.candidates);
      NothingProposed(c, d, ch.candidates);
    }
  }

  // ---- the deferred accepts --------------------------------------------------------------------------

  /** Everything since the accepts only appended and shared their budget. */
  lemma SinceAccepts(c: Context, n: Notes, budget: nat, ch: Choices)
    requires c.known == n.model.Live() && ChoicesFit(c, n, budget, ch)
    ensures var z := ProposeStage(c, budget, ch);
            Continues(AcceptStage(c, budget), z) && z.deferred == AcceptStage(c, budget).deferred
  {
    PicksKnown(c, n, budget, ch);
    PullStageKeeps(c, budget);
    ExcessStageKeeps(c, budget, ch.picks);
    AdStageKeeps(c, budget, ch.picks);
    ProposeStageKeeps(c, n, budget, ch);
    hide ChoicesFit, Planned, AcceptStage, PullStage, ExcessStage, AdPass;
  }

  /** Offers held back are looked at again only when nothing else took the last command. */
  lemma DeferredOnlyWhenIdle(c: Context, n: Notes, budget: nat, ch: Choices)
    requires c.known == n.model.Live() && ChoicesFit(c, n, budget, ch)
    requires TakesDeferred(ProposeStage(c, budget, ch))
    ensures ProposeStage(c, budget, ch).steps == AcceptStage(c, budget).steps
    ensures ProposeStage(c, budget, ch).budget == 1
  {
    SinceAccepts(c, n, budget, ch);
    AcceptStageKeeps(c, budget);
    hide ChoicesFit, Planned, AcceptStage, ProposeStage;
  }

  lemma LateStageKeeps(c: Context, n: Notes, budget: nat, ch: Choices)
    requires c.known == n.model.Live() && ChoicesFit(c, n, budget, ch)
    ensures var d, z := ProposeStage(c, budget, ch), LateStage(c, budget, ch);
            && Planned(c, z.steps) && UpTo(z.steps, 4) && Continues(d, z)
            && (z.budget > 0 ==> z.steps == d.steps)
  {
    var d := ProposeStage(c, budget, ch);
    ProposeStageKeeps(c, n, budget, ch);
    if TakesDeferred(d) {
      DeferredOnlyWhenIdle(c, n, budget, ch);
      SinceAccepts(c, n, budget, ch);
      AcceptStageKeeps(c, budget);
      hide ChoicesFit, ProposeStage, AcceptStage, Distinct;
      AcceptPassKeeps(c, d.(deferred := []), None, d.deferred);
    }
  }

  // ---- aid ----------------------------------------------------------------------------------------------

  lemma ReserveCovered(c: Context, n: Notes, budget: nat, ch: Choices)
    requires c.known == n.model.Live() && ChoicesFit(c, n, budget, ch)
    requires forall r :: c.reserve.Get(r) <= MAX_RESERVE_UNITS
    requires AllCalm(UrgencyForAid(c, budget, ch))
    ensures Balance(c, ProposeStage(c, budget, ch).steps).Dominates(c.reserve)
  {
    assert Usable(c, budget, ch);
    hide ChoicesFit, Planned, Balance, AcceptStage, PullStage, ExcessStage, AdStage, ProposeStage, UrgencyOf, Usable;
    var d := ProposeStage(c, budget, ch);
    if TakesDeferred(d) {
      CalmCovers(Balance(c, d.steps), c.s.me.upkeep, c.reserve);
    } else {
      CalmCovers(Balance(c, AcceptStage(c, budget).steps), c.s.me.upkeep, c.reserve);
      BalanceSince(c, n, budget, ch);
      CoversBoth(Balance(c, AcceptStage(c, budget).steps), Balance(c, d.steps), c.reserve);
    }
  }

  lemma CoversBoth(before: Bundle, after: Bundle, reserve: Bundle)
    requires before.Dominates(reserve)
    requires forall r :: after.Get(r) >= Min(reserve.Get(r), Min(STOCK_CAP, before.Get(r)))
    requires forall r :: reserve.Get(r) <= MAX_RESERVE_UNITS
    ensures after.Dominates(reserve)
  {
    assert after.Get(Water) >= reserve.Get(Water) && after.Get(Food) >= reserve.Get(Food) && after.Get(Components) >= reserve.Get(Components);
  }

  /** From the accepts to the trades, stock falls below neither the cap nor the reserve. */
  lemma BalanceSince(c: Context, n: Notes, budget: nat, ch: Choices)
    requires c.known == n.model.Live() && ChoicesFit(c, n, budget, ch)
    ensures forall r :: Balance(c, ProposeStage(c, budget, ch).steps).Get(r)
                        >= Min(c.reserve.Get(r), Min(STOCK_CAP, Balance(c, AcceptStage(c, budget).steps).Get(r)))
  {
    hide Planned, Balance, AcceptStage, PullStage, ExcessStage, AdStage, ProposeStage;
    PicksKnown(c, n, budget, ch);
    PullStageKeeps(c, budget);
    ExcessStageKeeps(c, budget, ch.picks);
    AdStageKeeps(c, budget, ch.picks);
    ProposeStageKeeps(c, n, budget, ch);
    hide ChoicesFit;
    forall r ensures Balance(c, ProposeStage(c, budget, ch).steps).Get(r)
                       >= Min(c.reserve.Get(r), Min(STOCK_CAP, Balance(c, AcceptStage(c, budget).steps).Get(r))) {
      assert Spared(c, PullStage(c, budget), ExcessStage(c, budget, ch.picks), ExcessOrder(ExcessAt(c, budget))[..|ch.picks|], r);
    }
  }

  lemma CoveredHolding(available: Bundle, reserve: Bundle)
    requires available.Dominates(reserve)
    ensures available.Monus(reserve).Plus(reserve) == available
  {
  }

  lemma ReliefIsSound(c: Context, d: Draft, g: Gift)
    requires Planned(c, d.steps) && UpTo(d.steps, 4) && CanAid(c, d) && c.OfferLifetime() > 0
    requires Balance(c, d.steps).Dominates(c.reserve) && g.station in c.known
    requires Balance(c, d.steps).Monus(c.reserve).Get(g.resource) > 0
    requires g.quantity == DonationSize(Balance(c, d.steps).Monus(c.reserve).Get(g.resource))
    requires c.Limit(Holding(c, d.steps).Monus(Bundle.Single(g.resource, g.quantity))) == Unlimited
    ensures var z := d.With(Post(Relief, g.station, g.resource, g.quantity, g.resource, 0, c.s.tick + c.OfferLifetime()));
            Planned(c, z.steps) && Continues(d, z)
  {
    var available := Balance(c, d.steps);
    CoveredHolding(available, c.reserve);
    var step := Post(Relief, g.station, g.resource, g.quantity, g.resource, 0, c.s.tick + c.OfferLifetime());
    assert g.quantity <= available.Get(g.resource) - c.reserve.Get(g.resource);
    hide Planned, Balance, PaymentLimitFor;
    assert available.Dominates(c.reserve.Plus(Bundle.Single(g.resource, g.quantity)));
    Added(c, d, step);
  }

  lemma GiftIsAllowed(c: Context, n: Notes, budget: nat, ch: Choices)
    requires c.known == n.model.Live() && ChoicesFit(c, n, budget, ch) && ch.gift.Some?
    ensures var g, late := ch.gift.value, LateStage(c, budget, ch);
            && g.station in c.known && AllCalm(UrgencyForAid(c, budget, ch))
            && Balance(c, late.steps).Monus(c.reserve).Get(g.resource) > 0
            && g.quantity == DonationSize(Balance(c, late.steps).Monus(c.reserve).Get(g.resource))
  {
    hide PicksFit, CandidatesFit, LateStage, ProposeStage, UrgencyForAid, AdStage;
    assert GiftFits(c, n, budget, ch);
  }

  lemma ReliefPassKeeps(c: Context, d: Draft, gift: Option<Gift>)
    requires Planned(c, d.steps) && UpTo(d.steps, 4)
    requires gift.Some? && d.budget > 0 ==>
               && Balance(c, d.steps).Dominates(c.reserve) && gift.value.station in c.known
               && Balance(c, d.steps).Monus(c.reserve).Get(gift.value.resource) > 0
               && gift.value.quantity == DonationSize(Balance(c, d.steps).Monus(c.reserve).Get(gift.value.resource))
    ensures var z := ReliefPass(c, d, gift); Planned(c, z.steps) && Continues(d, z)
  {
    hide Planned, Balance, PaymentLimitFor, DonationSize, Posts;
    if ReliefPass(c, d, gift) != d {
      ReliefIsSound(c, d, gift.value);
    }
  }

  lemma ReliefKeeps(c: Context, n: Notes, budget: nat, ch: Choices)
    requires Usable(c, budget, ch)
    requires c.known == n.model.Live() && ChoicesFit(c, n, budget, ch)
    requires forall r :: c.reserve.Get(r) <= MAX_RESERVE_UNITS
    ensures var late, z := LateStage(c, budget, ch), PlanOf(c, budget, ch);
            Planned(c, z.steps) && Continues(late, z)
  {
    hide ChoicesFit, LateStage, ProposeStage, UrgencyForAid, Planned, Balance, ReliefPass, AdStage, WantedAt, DonationSize;
    var late := LateStage(c, budget, ch);
    LateStageKeeps(c, n, budget, ch);
    if ch.gift.Some? {
      GiftIsAllowed(c, n, budget, ch);
      ReserveCovered(c, n, budget, ch);
    }
    ReliefPassKeeps(c, late, ch.gift);
  }

  /** Whatever choices the memory allows, each step of the batch is justified by the balance
      its predecessors left, and the batch never exceeds the command budget. */
  lemma PlanIsJustified(c: Context, n: Notes, budget: nat, ch: Choices)
    requires c.known == n.model.Live() && ChoicesFit(c, n, budget, ch)
    requires forall r :: c.reserve.Get(r) <= MAX_RESERVE_UNITS
    ensures var z := PlanOf(c, budget, ch);
            Planned(c, z.steps) && |z.steps| + z.budget == budget
  {
    LateStageKeeps(c, n, budget, ch);
    SinceAccepts(c, n, budget, ch);
    AcceptStageKeeps(c, budget);
    ReliefKeeps(c, n, budget, ch);
    hide ChoicesFit, LateStage, ProposeStage, AcceptStage, PlanOf, Planned, Distinct;
  }

  // ---- nothing due is skipped ---------------------------------------------------------------------------

  /** With a command to spare, every offer that has become dangerous is withdrawn. */
  lemma {:induction false} DangerousAreWithdrawn(c: Context, d: Draft, offers: seq<Offer>, o: Offer)
    requires Planned(c, d.steps) && UpTo(d.steps, 0) && (Distinct(c.s.offers) ==> Distinct(offers))
    requires forall x :: x in offers ==> x in c.s.OutgoingOpen()
    requires o in offers && Dangerous(c, Balance(c, d.steps), o) && PullPass(c, d, offers).budget > 0
    ensures PullOffer(o) in PullPass(c, d, offers).steps
  {
    var front, last := offers[..|offers| - 1], offers[|offers| - 1];
    assert offers == front + [last];
    if Distinct(c.s.offers) { DistinctLast(offers); }
    PullPassKeeps(c, d, front);
    hide Dangerous, Planned, Balance, Distinct;
    if o in front {
      DangerousAreWithdrawn(c, d, front, o);
    }
  }

  /** With a command to spare, every offer worth taking at its turn is taken or held back. */
  lemma {:induction false} NothingGoodIsMissed(c: Context, d: Draft, hold: Option<Resource>, offers: seq<Offer>, k: nat)
    requires AllOurs(c, offers) && AllOurs(c, d.deferred) && k < |offers|
    requires Acceptable(c, Balance(c, AcceptPass(c, d, hold, offers[..k]).steps), offers[k])
    requires AcceptPass(c, d, hold, offers).budget > 0
    ensures var z := AcceptPass(c, d, hold, offers);
            TakeOffer(offers[k]) in z.steps || (offers[k] in z.deferred && z.budget == 1 && HeldBack(c, hold, offers[k]))
  {
    var n := |offers| - 1;
    hide Acceptable, HeldBack, Balance;
    if k < n {
      assert offers[..n][..k] == offers[..k];
      NothingGoodIsMissed(c, d, hold, offers[..n], k);
    }
  }

  // ---- what holding back really means --------------------------------------------------------------------

  /** Usable past this tick. */
  predicate Lasts(c: Context, o: Offer) { o.expires - c.s.tick > 1 }

  /** With a command left, an offer held back is one the pass would still take, and was held back
      for a cause that still stands. */
  lemma {:induction false} HeldBackStayAcceptable(c: Context, d: Draft, hold: Option<Resource>, offers: seq<Offer>)
    requires AllOurs(c, offers) && d.deferred == []
    ensures var z := AcceptPass(c, d, hold, offers);
            && (z.deferred != [] ==> z.budget <= 1)
            && forall o :: o in z.deferred ==> HeldBack(c, hold, o) && (z.budget > 0 ==> Acceptable(c, Balance(c, z.steps), o))
  {
    if offers != [] {
      hide Acceptable, HeldBack, Balance;
      HeldBackStayAcceptable(c, d, hold, offers[..|offers| - 1]);
    }
  }

  /** The first offer, in order, that is still usable next tick. */
  function FirstLasting(c: Context, offers: seq<Offer>): (found: Option<Offer>)
    ensures found.Some? ==> found.value in offers && Lasts(c, found.value)
    ensures found.None? ==> forall o :: o in offers ==> !Lasts(c, o)
  {
    if offers == [] then None
    else
      var n := |offers| - 1;
      assert offers == offers[..n] + [offers[n]];
      var front := FirstLasting(c, offers[..n]);
      if front.Some? then front else if Lasts(c, offers[n]) then Some(offers[n]) else None
  }

  /** Of offers that may also not be worth taking, the first that is and lasts. */
  function FirstTakable(c: Context, steps: seq<Step>, offers: seq<Offer>): (found: Option<Offer>)
    requires AllOurs(c, offers)
    ensures found.Some? ==> found.value in offers && Acceptable(c, Balance(c, steps), found.value) && Lasts(c, found.value)
    ensures found.None? ==> forall o :: o in offers ==> !(Acceptable(c, Balance(c, steps), o) && Lasts(c, o))
  {
    if offers == [] then None
    else
      var n := |offers| - 1;
      assert offers == offers[..n] + [offers[n]];
      var front := FirstTakable(c, steps, offers[..n]);
      if front.Some? then front
      else if Acceptable(c, Balance(c, steps), offers[n]) && Lasts(c, offers[n]) then Some(offers[n])
      else None
  }

  lemma {:induction false} TakableAreLasting(c: Context, steps: seq<Step>, offers: seq<Offer>)
    requires AllOurs(c, offers) && forall o :: o in offers ==> Acceptable(c, Balance(c, steps), o)
    ensures FirstTakable(c, steps, offers) == FirstLasting(c, offers)
  {
    if offers != [] {
      hide Acceptable, Balance, Lasts;
      TakableAreLasting(c, steps, offers[..|offers| - 1]);
    }
  }

  lemma LastCommandConsiders(c: Context, d: Draft, o: Offer)
    requires o.HasParty(c.s.self)
    ensures d.budget == 0 ==> Considered(c, d, None, o) == d
    ensures d.budget == 1 && Acceptable(c, Balance(c, d.steps), o) && Lasts(c, o) ==> Considered(c, d, None, o) == d.With(TakeOffer(o))
    ensures d.budget == 1 && !(Acceptable(c, Balance(c, d.steps), o) && Lasts(c, o)) ==>
              var z := Considered(c, d, None, o); z.steps == d.steps && z.budget == 1
  {
    hide Acceptable, Balance;
  }

  /** With one command left the pass takes exactly the first offer worth taking that lasts. */
  lemma {:induction false} LastCommandTakes(c: Context, d: Draft, offers: seq<Offer>)
    requires AllOurs(c, offers) && AllOurs(c, d.deferred) && d.budget == 1
    ensures var z, first := AcceptPass(c, d, None, offers), FirstTakable(c, d.steps, offers);
            && (first.None? ==> z.steps == d.steps && z.budget == 1)
            && (first.Some? ==> z.steps == d.steps + [TakeOffer(first.value)] && z.budget == 0)
  {
    hide Considered, Lasts, Acceptable;
    if offers != [] {
      var n := |offers| - 1;
      LastCommandTakes(c, d, offers[..n]);
      LastCommandConsiders(c, AcceptPass(c, d, None, offers[..n]), offers[n]);
    }
  }

  /** The second look takes something exactly when some offer held back is usable past this tick,
      and then it takes the first such: one held back because it expires now is never taken. */
  lemma ExpiringOffersAreLost(c: Context, n: Notes, budget: nat, ch: Choices)
    requires c.known == n.model.Live() && ChoicesFit(c, n, budget, ch) && TakesDeferred(ProposeStage(c, budget, ch))
    ensures var held := AcceptStage(c, budget).deferred;
            (LateStage(c, budget, ch).budget == 0 <==> exists o :: o in held && Lasts(c, o))
            && LateStage(c, budget, ch).steps
                 == ProposeStage(c, budget, ch).steps
                    + if FirstLasting(c, held).Some? then [TakeOffer(FirstLasting(c, held).value)] else []
  {
    var d := ProposeStage(c, budget, ch);
    DeferredOnlyWhenIdle(c, n, budget, ch);
    SinceAccepts(c, n, budget, ch);
    IncomingIsOurs(c);
    hide ChoicesFit, ProposeStage, Acceptable, AcceptPass, Balance, ScarceImportToChase, Lasts;
    HeldBackStayAcceptable(c, Draft([], budget, []), ScarceImportToChase(c), c.s.IncomingOpen());
    LastCommandTakes(c, d.(deferred := []), d.deferred);
    TakableAreLasting(c, d.steps, d.deferred);
  }

  /** Unless an import is chased, which is known before the decision, the second look is idle. */
  lemma NothingChasedNothingTaken(c: Context, n: Notes, budget: nat, ch: Choices)
    requires c.known == n.model.Live() && ChoicesFit(c, n, budget, ch) && ScarceImportToChase(c).None?
    ensures LateStage(c, budget, ch).steps == ProposeStage(c, budget, ch).steps
  {
    if TakesDeferred(ProposeStage(c, budget, ch)) {
      IncomingIsOurs(c);
      ExpiringOffersAreLost(c, n, budget, ch);
      hide ChoicesFit, ProposeStage, Acceptable, AcceptPass, Balance, ScarceImportToChase, LateStage;
      HeldBackStayAcceptable(c, Draft([], budget, []), ScarceImportToChase(c), c.s.IncomingOpen());
    }
  }
}
