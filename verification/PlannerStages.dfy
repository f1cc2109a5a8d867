/** Each stage of a decision only ever adds justified steps. */
module PlannerStages {
  import opened Arithmetic
  import opened Domain
  import opened Counterparties
  import opened EngineInvariant
  import EngineRuns
  import opened Memory
  import opened Reserves
  import opened Pricing
  import opened Acceptance
  import opened Advertising
  import opened Altruism
  import opened Targeting
  import opened Planner
  import opened PlannerSafety

  /** A pass appends steps, each for one command of the budget. */
  ghost predicate Continues(d: Draft, z: Draft) {
    d.steps <= z.steps && |d.steps| + d.budget == |z.steps| + z.budget
  }

  predicate UpTo(steps: seq<Step>, stage: nat) { forall x :: x in steps ==> x.Stage() <= stage }

  lemma Added(c: Context, d: Draft, step: Step)
    requires Planned(c, d.steps) && UpTo(d.steps, step.Stage()) && d.budget > 0
    requires Balance(c, d.steps).Dominates(CostOf(c.s.self, step)) && StepSound(c, d.steps, step)
    ensures var z := d.With(step);
            && Planned(c, z.steps) && UpTo(z.steps, step.Stage()) && Continues(d, z)
            && Balance(c, z.steps) == Balance(c, d.steps).Monus(CostOf(c.s.self, step))
            && Posts(z.steps) == Posts(d.steps) + (if step.Post? then 1 else 0)
            && PricedPosts(z.steps) == PricedPosts(d.steps) + (if step.IsPriced() then 1 else 0)
  {
    hide StepSound, Planned, Balance, CostOf, Posts, PricedPosts;
    if d.steps != [] { assert d.steps[|d.steps| - 1] in d.steps; }
    assert Justified(c, d.steps, step);
    PlannedSnoc(c, d.steps, step);
  }

  // ---- accepts ------------------------------------------------------------------------------------

  /** The paid offer leaves the guard's floor. */
  lemma LimitGuards(c: Context, left: Bundle, limit: PaymentLimit, normal: bool)
    requires limit == c.Limit(left) && limit != NoPayment && (normal ==> limit == Unlimited)
    ensures Guarded(c, left, normal)
  {
    var u := c.s.me.upkeep.Get(c.s.me.specialty);
    ScaleGrows(u, STOP_TICKS, NORMAL_TICKS);
  }

  lemma AcceptableIsSound(c: Context, prefix: seq<Step>, o: Offer)
    requires o in c.s.IncomingOpen() && Acceptable(c, Balance(c, prefix), o)
    requires Distinct(c.s.offers) ==> TakeOffer(o) !in prefix
    ensures Balance(c, prefix).Dominates(CostOf(c.s.self, TakeOffer(o)))
    ensures TakeSound(c, prefix, o)
  {
    var cost, gain := o.Pays(c.s.self), o.Receives(c.s.self);
    var running := Balance(c, prefix);
    var limit := c.Limit(running.Monus(cost));
    AcceptingIsSafe(cost, gain, running, c.reserve, c.Urgent(running), c.s.me.specialty, limit, c.EndGame());
    if !cost.IsZero() {
      AcceptedPriceIsBounded(cost, gain, running, c.reserve, c.Urgent(running), c.s.me.specialty, limit, c.EndGame());
      hide WorthTaking, HasNormalOffers;
      LimitGuards(c, running.Monus(cost), limit, 2 * cost.Total() > gain.Total() || HasNormalOffers(c.s));
    }
  }

  /** What an accept pass leaves: only accepts added, each offer taken or held back once. */
  ghost predicate Accepting(c: Context, d: Draft, z: Draft, offers: seq<Offer>) {
    && Planned(c, z.steps) && UpTo(z.steps, 0) && Continues(d, z)
    && (forall o :: TakeOffer(o) in z.steps ==> TakeOffer(o) in d.steps || o in offers)
    && (forall o :: o in z.deferred ==> o in d.deferred || o in offers)
    && (z.deferred != d.deferred ==> z.budget <= 1)
  }

  lemma DistinctLast<T(!new)>(xs: seq<T>)
    requires Distinct(xs) && xs != []
    ensures Distinct(xs[..|xs| - 1]) && xs[|xs| - 1] !in xs[..|xs| - 1]
  {
    EngineRuns.DistinctFront(xs);
    forall i | 0 <= i < |xs| - 1 ensures xs[i] != xs[|xs| - 1] {
      assert Differ(xs, i, |xs| - 1);
    }
  }

  lemma ConsideredKeeps(c: Context, d: Draft, hold: Option<Resource>, o: Offer)
    requires Planned(c, d.steps) && UpTo(d.steps, 0) && o in c.s.IncomingOpen()
    requires Distinct(c.s.offers) ==> TakeOffer(o) !in d.steps
    ensures o.HasParty(c.s.self)
    ensures Accepting(c, d, Considered(c, d, hold, o), [o])
  {
    hide Acceptable, HeldBack, Distinct;
    if d.budget > 0 && Acceptable(c, Balance(c, d.steps), o) && !(d.budget <= 1 && HeldBack(c, hold, o)) {
      AcceptableIsSound(c, d.steps, o);
      Added(c, d, TakeOffer(o));
    }
  }

  lemma AcceptingOn(c: Context, d: Draft, y: Draft, z: Draft, front: seq<Offer>, o: Offer)
    requires Accepting(c, d, y, front) && Accepting(c, y, z, [o])
    ensures Accepting(c, d, z, front + [o])
  {
  }

  lemma {:induction false} AcceptPassKeeps(c: Context, d: Draft, hold: Option<Resource>, offers: seq<Offer>)
    requires Planned(c, d.steps) && UpTo(d.steps, 0)
    requires AllOurs(c, d.deferred) && forall o :: o in offers ==> o in c.s.IncomingOpen()
    requires Distinct(c.s.offers) ==> Distinct(offers) && forall o :: o in offers ==> TakeOffer(o) !in d.steps
    ensures AllOurs(c, offers)
    ensures Accepting(c, d, AcceptPass(c, d, hold, offers), offers)
  {
    hide Planned, Considered;
    if offers != [] {
      var front, last := offers[..|offers| - 1], offers[|offers| - 1];
      if Distinct(c.s.offers) { DistinctLast(offers); }
      AcceptPassKeeps(c, d, hold, front);
      var y := AcceptPass(c, d, hold, front);
      assert offers == front + [last];
      ConsideredKeeps(c, y, hold, last);
      AcceptingOn(c, d, y, Considered(c, y, hold, last), front, last);
    }
  }

  /** An offer held back was not taken, and is held back once. */
  lemma {:induction false} HeldBackOnce(c: Context, d: Draft, hold: Option<Resource>, offers: seq<Offer>)
    requires AllOurs(c, offers) && Distinct(offers) && d.deferred == []
    requires forall o :: o in offers ==> TakeOffer(o) !in d.steps
    ensures var z := AcceptPass(c, d, hold, offers);
            && Distinct(z.deferred)
            && (forall o :: o in z.deferred ==> o in offers && TakeOffer(o) !in z.steps)
            && (forall o :: TakeOffer(o) in z.steps ==> TakeOffer(o) in d.steps || o in offers)
  {
    if offers != [] {
      var front, last := offers[..|offers| - 1], offers[|offers| - 1];
      DistinctLast(offers);
      assert offers == front + [last];
      hide Acceptable, HeldBack;
      HeldBackOnce(c, d, hold, front);
      var y := AcceptPass(c, d, hold, front);
      DistinctSnoc(y.deferred, last);
    }
  }

  lemma DistinctSnoc<T(!new)>(xs: seq<T>, x: T)
    requires Distinct(xs)
    ensures x !in xs ==> Distinct(xs + [x])
  {
    if x !in xs {
      forall i, j | 0 <= i < j < |xs + [x]| ensures Differ(xs + [x], i, j) {
        if j < |xs| { assert Differ(xs, i, j); }
      }
    }
  }

  lemma {:induction false} KeptAreDistinct(offers: seq<Offer>, filter: OfferFilter)
    requires Distinct(offers)
    ensures Distinct(KeepOffers(offers, filter))
  {
    if offers != [] {
      DistinctLast(offers);
      KeptAreDistinct(offers[..|offers| - 1], filter);
      DistinctSnoc(KeepOffers(offers[..|offers| - 1], filter), offers[|offers| - 1]);
    }
  }

  lemma AcceptStageKeeps(c: Context, budget: nat)
    ensures var z := AcceptStage(c, budget);
            && Accepting(c, Draft([], budget, []), z, c.s.IncomingOpen())
            && (Distinct(c.s.offers) ==> Distinct(z.deferred) && forall o :: o in z.deferred ==> TakeOffer(o) !in z.steps)
  {
    var d := Draft([], budget, []);
    var hold := ScarceImportToChase(c);
    hide ScarceImportToChase;
    IncomingIsOurs(c);
    if Distinct(c.s.offers) {
      KeptAreDistinct(c.s.offers, OpenTo(c.s.self, c.s.tick));
      HeldBackOnce(c, d, hold, c.s.IncomingOpen());
    }
    AcceptPassKeeps(c, d, hold, c.s.IncomingOpen());
  }

  // ---- withdrawals -----------------------------------------------------------------------------------

  ghost predicate Pulling(c: Context, d: Draft, z: Draft, offers: seq<Offer>) {
    && Planned(c, z.steps) && UpTo(z.steps, 1) && Continues(d, z) && z.deferred == d.deferred
    && Balance(c, z.steps) == Balance(c, d.steps)
    && (forall o :: PullOffer(o) in z.steps ==> o in offers)
  }

  lemma PulledKeeps(c: Context, d: Draft, o: Offer)
    requires Planned(c, d.steps) && UpTo(d.steps, 1) && o in c.s.OutgoingOpen()
    requires Distinct(c.s.offers) ==> PullOffer(o) !in d.steps
    ensures var z := Pulled(c, d, o);
            && Planned(c, z.steps) && UpTo(z.steps, 1) && Continues(d, z) && z.deferred == d.deferred
            && Balance(c, z.steps) == Balance(c, d.steps)
            && (forall p :: PullOffer(p) in z.steps ==> PullOffer(p) in d.steps || p == o)
  {
    hide Dangerous, Distinct, Planned, Balance;
    if Pulled(c, d, o) != d {
      Added(c, d, PullOffer(o));
    }
  }

  lemma PulledOn(c: Context, d: Draft, y: Draft, front: seq<Offer>, o: Offer)
    requires Pulling(c, d, y, front) && o in c.s.OutgoingOpen()
    requires Distinct(c.s.offers) ==> o !in front
    ensures Pulling(c, d, Pulled(c, y, o), front + [o])
  {
    hide Pulled, Planned, Balance, Distinct, KeepOffers;
    PulledKeeps(c, y, o);
  }

  lemma {:induction false} PullPassKeeps(c: Context, d: Draft, offers: seq<Offer>)
    requires Planned(c, d.steps) && UpTo(d.steps, 0)
    requires forall o :: o in offers ==> o in c.s.OutgoingOpen()
    requires Distinct(c.s.offers) ==> Distinct(offers)
    ensures Pulling(c, d, PullPass(c, d, offers), offers)
  {
    if offers == [] {
      assert forall o: Offer :: PullOffer(o).Stage() == 1;
    } else {
      var front, last := offers[..|offers| - 1], offers[|offers| - 1];
      if Distinct(c.s.offers) { DistinctLast(offers); }
      assert offers == front + [last];
      hide Pulled, Pulling, Distinct, Planned;
      PullPassKeeps(c, d, front);
      PulledOn(c, d, PullPass(c, d, front), front, last);
    }
  }

  lemma PullStageKeeps(c: Context, budget: nat)
    ensures Pulling(c, AcceptStage(c, budget), PullStage(c, budget), c.s.OutgoingOpen())
  {
    AcceptStageKeeps(c, budget);
    if Distinct(c.s.offers) { KeptAreDistinct(c.s.offers, OpenFrom(c.s.self, c.s.tick)); }
    hide AcceptStage;
    PullPassKeeps(c, AcceptStage(c, budget), c.s.OutgoingOpen());
  }

  // ---- stock above the cap -----------------------------------------------------------------------------

  ghost predicate Giving(c: Context, d: Draft, z: Draft, order: seq<Resource>) {
    && Planned(c, z.steps) && UpTo(z.steps, 2) && Continues(d, z) && z.deferred == d.deferred
    && (forall r {:trigger Spared(c, d, z, order, r)} :: Spared(c, d, z, order, r))
  }

  /** A resource not reached yet is untouched; any other keeps up to a full cap. */
  predicate Spared(c: Context, d: Draft, z: Draft, order: seq<Resource>, r: Resource) {
    && (r !in order ==> Balance(c, z.steps).Get(r) == Balance(c, d.steps).Get(r))
    && Balance(c, z.steps).Get(r) >= Min(STOCK_CAP, Balance(c, d.steps).Get(r))
  }

  predicate NoRepeats(order: seq<Resource>) { forall i, j :: 0 <= i < j < |order| ==> order[i] != order[j] }

  lemma ExcessPostIsSound(c: Context, d: Draft, r: Resource, p: StationId, excess: nat)
    requires Planned(c, d.steps) && UpTo(d.steps, 2) && d.budget > 0
    requires 0 < excess && Balance(c, d.steps).Get(r) == STOCK_CAP + excess
    requires p in c.known && c.OfferLifetime() > 0 && c.Outgoing() + Posts(d.steps) < c.s.rules.maxOpenOffers
    ensures var z := d.With(ExcessPost(c, r, p, excess));
            && Planned(c, z.steps) && UpTo(z.steps, 2) && Continues(d, z)
            && Balance(c, z.steps).Get(r) >= STOCK_CAP
            && forall q :: q != r ==> Balance(c, z.steps).Get(q) == Balance(c, d.steps).Get(q)
  {
    hide Planned, Balance, Posts;
    var step := ExcessPost(c, r, p, excess);
    SingleOf(r, step.give, r);
    Added(c, d, step);
    forall q ensures Bundle.Single(r, step.give).Get(q) == if q == r then step.give else 0 {
      SingleOf(r, step.give, q);
    }
  }

  predicate AllKnown(c: Context, picks: seq<Option<StationId>>) {
    forall k :: 0 <= k < |picks| && picks[k].Some? ==> picks[k].value in c.known
  }

  lemma NotYet(order: seq<Resource>, k: nat)
    requires NoRepeats(order) && k < |order|
    ensures order[k] !in order[..k]
  {
  }

  lemma CapLeaves(available: Bundle, r: Resource)
    ensures ExcessOverCap(available).Get(r) > 0 ==> available.Get(r) == STOCK_CAP + ExcessOverCap(available).Get(r)
  {
  }

  lemma GaveKeeps(c: Context, d: Draft, excess: Bundle, r: Resource, pick: Option<StationId>)
    requires Planned(c, d.steps) && UpTo(d.steps, 2) && (pick.Some? ==> pick.value in c.known)
    requires excess.Get(r) > 0 ==> Balance(c, d.steps).Get(r) == STOCK_CAP + excess.Get(r)
    ensures var z := GaveExcess(c, d, excess, r, pick);
            && Planned(c, z.steps) && UpTo(z.steps, 2) && Continues(d, z) && z.deferred == d.deferred
            && (forall q :: q != r ==> Balance(c, z.steps).Get(q) == Balance(c, d.steps).Get(q))
            && Balance(c, z.steps).Get(r) >= Min(STOCK_CAP, Balance(c, d.steps).Get(r))
  {
    hide Planned, Balance, Posts, ExcessPost;
    if CanGive(c, d, excess, r) && pick.Some? {
      ExcessPostIsSound(c, d, r, pick.value, excess.Get(r));
    }
  }

  lemma SparedOn(c: Context, d: Draft, y: Draft, z: Draft, order: seq<Resource>, q: Resource)
    requires forall r {:trigger Spared(c, d, y, order, r)} :: Spared(c, d, y, order, r)
    requires forall r :: r != q ==> Balance(c, z.steps).Get(r) == Balance(c, y.steps).Get(r)
    requires Balance(c, z.steps).Get(q) >= Min(STOCK_CAP, Balance(c, y.steps).Get(q))
    ensures forall r {:trigger Spared(c, d, z, order + [q], r)} :: Spared(c, d, z, order + [q], r)
  {
    hide Balance;
    forall r ensures Spared(c, d, z, order + [q], r) {
      assert Spared(c, d, y, order, r);
    }
  }

  lemma {:induction false} ExcessPassKeeps(c: Context, d: Draft, excess: Bundle, order: seq<Resource>, picks: seq<Option<StationId>>)
    requires Planned(c, d.steps) && UpTo(d.steps, 1) && NoRepeats(order) && |picks| <= |order|
    requires excess == ExcessOverCap(Balance(c, d.steps)) && AllKnown(c, picks)
    ensures Giving(c, d, ExcessPass(c, d, excess, order, picks), order[..|picks|])
  {
    if picks != [] {
      var k := |picks| - 1;
      hide Planned, Balance, GaveExcess, ExcessOverCap, NoRepeats;
      ExcessPassKeeps(c, d, excess, order, picks[..k]);
      var y := ExcessPass(c, d, excess, order, picks[..k]);
      var z := GaveExcess(c, y, excess, order[k], picks[k]);
      assert order[..|picks|] == order[..k] + [order[k]];
      NotYet(order, k);
      CapLeaves(Balance(c, d.steps), order[k]);
      assert Spared(c, d, y, order[..k], order[k]);
      GaveKeeps(c, y, excess, order[k], picks[k]);
      SparedOn(c, d, y, z, order[..k], order[k]);
    }
  }

  lemma ExcessStageKeeps(c: Context, budget: nat, picks: seq<Option<StationId>>)
    requires |picks| <= 3 && AllKnown(c, picks)
    ensures Giving(c, PullStage(c, budget), ExcessStage(c, budget, picks), ExcessOrder(ExcessAt(c, budget))[..|picks|])
  {
    PullStageKeeps(c, budget);
    hide PullStage;
    ExcessPassKeeps(c, PullStage(c, budget), ExcessAt(c, budget), ExcessOrder(ExcessAt(c, budget)), picks);
  }

  // ---- the advertisement ---------------------------------------------------------------------------------

  ghost predicate Publishing(c: Context, d: Draft, z: Draft) {
    && Planned(c, z.steps) && UpTo(z.steps, 3) && Continues(d, z) && z.deferred == d.deferred
    && Balance(c, z.steps) == Balance(c, d.steps) && PricedPosts(z.steps) == PricedPosts(d.steps)
  }

  lemma AdStepIsSound(c: Context, d: Draft, step: Step)
    requires Planned(c, d.steps) && UpTo(d.steps, 2) && d.budget > 0
    requires step.PullAd? || step.Announce?
    requires step.PullAd? ==> c.s.OwnAdvertisement() == Some(step.ad)
    requires step.Announce? ==> Deadline(c, step.expires, c.s.rules.maxPublicationTtl)
    ensures Publishing(c, d, d.With(step))
  {
    hide Planned, Balance, PricedPosts, FirstActiveAd;
    Added(c, d, step);
  }

  lemma AdPassKeeps(c: Context, d: Draft, excess: Bundle, deficit: Bundle, critical: set<Resource>)
    requires Planned(c, d.steps) && UpTo(d.steps, 2)
    ensures Publishing(c, d, AdPass(c, d, excess, deficit, critical))
  {
    var z := AdPass(c, d, excess, deficit, critical);
    hide Planned, WantedOf, AdvertisedNeed, AdvertisedSurplus, ComfortablySupplied, Selling, Seeking;
    if z != d {
      var step := z.steps[|d.steps|];
      assert z == d.With(step);
      AdStepIsSound(c, d, step);
    }
  }

  // ---- priced offers ----------------------------------------------------------------------------------------

  lemma SingleOf(r: Resource, q: nat, x: Resource)
    ensures Bundle.Single(r, q).Get(x) == if x == r then q else 0
    ensures Bundle.Single(r, q).Total() == q
  {
  }

  lemma TradeFloorGuards(c: Context, steps: seq<Step>, limit: PaymentLimit, left: Bundle, normal: bool)
    requires left.Get(c.s.me.specialty) >= TradeFloor(c, steps, limit)
    requires normal ==> limit == Unlimited || HasNormalOffers(c.s) || NormalPlanned(steps)
    ensures Guarded(c, left, normal)
  {
    ScaleGrows(c.s.me.upkeep.Get(c.s.me.specialty), STOP_TICKS, NORMAL_TICKS);
  }

  lemma PayableLeaves(running: Bundle, reserve: Bundle, specialty: Resource, floor: nat, pay: Resource, give: nat)
    requires running.Get(specialty) >= floor && 1 <= give <= Payable(running, reserve, specialty, floor).Get(pay)
    ensures running.Get(pay) >= reserve.Get(pay) + give
    ensures running.Monus(Bundle.Single(pay, give)).Get(specialty) >= floor
  {
  }

  /** Terms under a limit pay from surplus and leave the limit's floor. */
  ghost predicate FairTerms(c: Context, steps: seq<Step>, x: Candidate, limit: PaymentLimit, terms: (Bundle, Bundle)) {
    var (give, receive) := (terms.0.Get(x.pay), terms.1.Get(x.want));
    && x.pay != x.want && give >= 1 && 1 <= receive && give <= MAX_PREMIUM * receive
    && terms.0 == Bundle.Single(x.pay, give) && terms.1 == Bundle.Single(x.want, receive)
    && Balance(c, steps).Get(x.pay) >= c.reserve.Get(x.pay) + give
    && (limit == HalfPrice ==> 2 * give <= receive)
    && Balance(c, steps).Monus(Bundle.Single(x.pay, give)).Get(c.s.me.specialty) >= TradeFloor(c, steps, limit)
  }

  lemma PricedFromBounded(c: Context, running: Bundle, payable: Bundle, u: Urgencies, deficit: nat, x: Candidate, limit: PaymentLimit)
    requires PricedFrom(c, running, payable, u, deficit, x, limit).Some?
    ensures var terms := PricedFrom(c, running, payable, u, deficit, x, limit).value;
            var (give, receive) := (terms.0.Get(x.pay), terms.1.Get(x.want));
            && x.pay != x.want && 1 <= give <= payable.Get(x.pay) && 1 <= receive && give <= MAX_PREMIUM * receive
            && terms.0 == Bundle.Single(x.pay, give) && terms.1 == Bundle.Single(x.want, receive)
            && limit != NoPayment && (limit == HalfPrice ==> 2 * give <= receive)
  {
    hide ComputeTerms, DesiredQuantity, LotSize;
    var stock := Some(running.Get(x.want));
    var quantity := DesiredQuantity(deficit, stock, LotSize(c, running));
    TermsExist(x.want, quantity, x.pay, payable, Level(u, x.want), limit, stock, c.EndGame() && x.pay == c.s.me.specialty);
    TermsBounded(x.want, quantity, x.pay, payable, Level(u, x.want), limit, stock, c.EndGame() && x.pay == c.s.me.specialty);
  }

  lemma TermsUnderFair(c: Context, steps: seq<Step>, u: Urgencies, wanted: Wanted, x: Candidate, limit: PaymentLimit)
    requires x.want in wanted && TermsUnder(c, steps, u, wanted, x, limit).Some?
    ensures FairTerms(c, steps, x, limit, TermsUnder(c, steps, u, wanted, x, limit).value)
  {
    var running, floor := Balance(c, steps), TradeFloor(c, steps, limit);
    var payable := Payable(running, c.reserve, c.s.me.specialty, floor);
    hide PricedFrom, Payable, TradeFloor, Balance;
    PricedFromBounded(c, running, payable, u, wanted[x.want], x, limit);
    var terms := TermsUnder(c, steps, u, wanted, x, limit).value;
    PayableLeaves(running, c.reserve, c.s.me.specialty, floor, x.pay, terms.0.Get(x.pay));
  }

  /** A candidate the batch may still approach. */
  predicate Approachable(c: Context, x: Candidate) {
    x.station in c.known && (x.station, x.want) !in Pending(c.s)
  }

  lemma NotPending(c: Context, x: Candidate, o: Offer)
    requires Approachable(c, x) && o in c.s.OutgoingOpen() && o.recipient == x.station
    ensures o.receive.Get(x.want) == 0
  {
    AllListed();
    assert o.receive.Get(x.want) > 0 ==> (o.recipient, x.want) in Pending(c.s);
  }

  lemma TradePostIsSound(c: Context, d: Draft, x: Candidate, limit: PaymentLimit, terms: (Bundle, Bundle))
    requires FairTerms(c, d.steps, x, limit, terms) && limit != NoPayment && Approachable(c, x)
    requires forall y :: y in d.steps && y.IsPriced() ==> y.want != x.want
    requires HasRoom(c, d, PricedPosts(d.steps))
    ensures PostSound(c, d.steps, TradePost(c, x, terms))
    ensures Balance(c, d.steps).Dominates(CostOf(c.s.self, TradePost(c, x, terms)))
  {
    var give, receive := terms.0.Get(x.pay), terms.1.Get(x.want);
    var normal := 2 * give > receive || HasNormalOffers(c.s) || NormalPlanned(d.steps);
    forall o | o in c.s.OutgoingOpen() && o.recipient == x.station ensures o.receive.Get(x.want) == 0 {
      NotPending(c, x, o);
    }
    var left := Balance(c, d.steps).Monus(Bundle.Single(x.pay, give));
    hide TradeFloor, NormalPlanned, HasNormalOffers, Balance, Pending, Guarded;
    TradeFloorGuards(c, d.steps, limit, left, normal);
  }

  ghost predicate Proposing(c: Context, d: Draft, z: Draft, cs: seq<Candidate>) {
    && Planned(c, z.steps) && UpTo(z.steps, 4) && Continues(d, z)
    && (forall y :: y in z.steps && y.IsPriced() ==> Serves(cs, y.want))
    && (forall r :: Balance(c, z.steps).Get(r) >= Min(c.reserve.Get(r), Balance(c, d.steps).Get(r)))
  }

  lemma TermsForFair(c: Context, steps: seq<Step>, u: Urgencies, wanted: Wanted, x: Candidate) returns (limit: PaymentLimit)
    requires x.want in wanted && TermsFor(c, steps, u, wanted, x).Some?
    ensures limit != NoPayment && FairTerms(c, steps, x, limit, TermsFor(c, steps, u, wanted, x).value)
  {
    hide TermsUnder, FairTerms;
    limit := if TermsUnder(c, steps, u, wanted, x, Unlimited).Some? then Unlimited else HalfPrice;
    TermsUnderFair(c, steps, u, wanted, x, limit);
  }

  lemma TradeAdded(c: Context, d: Draft, step: Step)
    requires Planned(c, d.steps) && UpTo(d.steps, 4) && d.budget > 0 && step.IsPriced()
    requires PostSound(c, d.steps, step) && Balance(c, d.steps).Dominates(CostOf(c.s.self, step))
    ensures var z := d.With(step);
            && Planned(c, z.steps) && UpTo(z.steps, 4) && Continues(d, z)
            && (forall r :: Balance(c, z.steps).Get(r) >= Min(c.reserve.Get(r), Balance(c, d.steps).Get(r)))
  {
    assert Balance(c, d.steps).Get(step.pay) >= c.reserve.Get(step.pay) + step.give;
    hide Balance, PostSound, Planned, Posts, PricedPosts;
    Added(c, d, step);
    LeavesReserve(Balance(c, d.steps), c.reserve, step.pay, step.give);
  }

  lemma LeavesReserve(b: Bundle, reserve: Bundle, pay: Resource, give: nat)
    requires b.Get(pay) >= reserve.Get(pay) + give
    ensures forall r :: b.Monus(Bundle.Single(pay, give)).Get(r) >= Min(reserve.Get(r), b.Get(r))
  {
    match pay case Water => case Food => case Components =>
  }

  lemma ProposedKeeps(c: Context, d: Draft, u: Urgencies, wanted: Wanted, x: Candidate)
    requires Planned(c, d.steps) && UpTo(d.steps, 4) && x.want in wanted && Approachable(c, x)
    requires forall y :: y in d.steps && y.IsPriced() ==> y.want != x.want
    ensures var z := Proposed(c, d, u, wanted, x);
            && Planned(c, z.steps) && UpTo(z.steps, 4) && Continues(d, z)
            && (forall y :: y in z.steps && y.IsPriced() ==> y in d.steps || y.want == x.want)
            && (forall r :: Balance(c, z.steps).Get(r) >= Min(c.reserve.Get(r), Balance(c, d.steps).Get(r)))
  {
    var terms := TermsFor(c, d.steps, u, wanted, x);
    hide TermsFor, PostSound, Planned, Balance, FairTerms, Approachable;
    if HasRoom(c, d, PricedPosts(d.steps)) && terms.Some? {
      var limit := TermsForFair(c, d.steps, u, wanted, x);
      TradePostIsSound(c, d, x, limit, terms.value);
      TradeAdded(c, d, TradePost(c, x, terms.value));
    }
  }

  predicate WantsDiffer(cs: seq<Candidate>) { forall i, j :: 0 <= i < j < |cs| ==> cs[i].want != cs[j].want }

  lemma ServesMore(cs: seq<Candidate>, x: Candidate, r: Resource)
    requires Serves(cs, r)
    ensures Serves(cs + [x], r)
  {
    var k :| 0 <= k < |cs| && cs[k].want == r;
    assert (cs + [x])[k].want == r;
  }

  lemma ProposingOn(c: Context, d: Draft, y: Draft, u: Urgencies, wanted: Wanted, front: seq<Candidate>, x: Candidate)
    requires Proposing(c, d, y, front) && x.want in wanted && Approachable(c, x) && !Serves(front, x.want)
    ensures Proposing(c, d, Proposed(c, y, u, wanted, x), front + [x])
  {
    var z, cs := Proposed(c, y, u, wanted, x), front + [x];
    hide Proposed, Planned, Balance, Approachable, Serves;
    ProposedKeeps(c, y, u, wanted, x);
    forall s | s in z.steps && s.IsPriced() ensures Serves(cs, s.want) {
      ServesLast(front, x);
      if s in y.steps { ServesMore(front, x, s.want); }
    }
  }

  lemma ServesLast(front: seq<Candidate>, x: Candidate)
    ensures Serves(front + [x], x.want)
  {
    assert (front + [x])[|front|].want == x.want;
  }

  lemma {:induction false} ProposePassKeeps(c: Context, d: Draft, u: Urgencies, wanted: Wanted, cs: seq<Candidate>)
    requires Planned(c, d.steps) && UpTo(d.steps, 3) && AllWanted(wanted, cs) && WantsDiffer(cs)
    requires forall x :: x in cs ==> Approachable(c, x)
    ensures Proposing(c, d, ProposePass(c, d, u, wanted, cs), cs)
  {
    if cs != [] {
      var front, last := cs[..|cs| - 1], cs[|cs| - 1];
      assert cs == front + [last];
      ProposePassKeeps(c, d, u, wanted, front);
      hide Proposed, Proposing, Approachable;
      ProposingOn(c, d, ProposePass(c, d, u, wanted, front), u, wanted, front, last);
    }
  }
}
