/** Why every step of a planned batch is justified by what the batch has already spent. */
module PlannerSafety {
  import opened Arithmetic
  import opened Domain
  import opened Counterparties
  import opened EngineInvariant
  import opened Memory
  import opened Reserves
  import opened Pricing
  import opened Acceptance
  import opened Advertising
  import opened Altruism
  import opened Targeting
  import opened Planner

  // ---- what justifies a step ---------------------------------------------------------------------

  /** Enough of our own production stays uncommitted: ten ticks of it, twenty-five for a
      normal price, and what the run still needs in its last ticks. */
  predicate Guarded(c: Context, left: Bundle, normal: bool) {
    var stock, upkeep := left.Get(c.s.me.specialty), c.s.me.upkeep.Get(c.s.me.specialty);
    if c.EndGame() then stock >= Min(NORMAL_TICKS, c.TicksLeft() + 1) * upkeep
    else stock >= (if normal then NORMAL_TICKS else STOP_TICKS) * upkeep
  }

  predicate Deadline(c: Context, expires: int, ttl: nat) {
    c.s.tick < expires <= Min(c.s.tick + ttl, c.s.rules.durationTicks)
  }

  ghost predicate TakeSound(c: Context, prefix: seq<Step>, o: Offer) {
    && o in c.s.IncomingOpen() && (Distinct(c.s.offers) ==> TakeOffer(o) !in prefix)
    && var cost, gain := o.Pays(c.s.self), o.Receives(c.s.self);
       && (!cost.IsZero() ==>
             && Guarded(c, Balance(c, prefix).Monus(cost), 2 * cost.Total() > gain.Total() || HasNormalOffers(c.s))
             && 1 <= cost.Total() <= MAX_PREMIUM * gain.Total())
       && forall r :: Balance(c, prefix).Monus(cost).Plus(gain).Get(r) >= Min(Balance(c, prefix).Get(r), c.reserve.Get(r))
  }

  ghost predicate PullSound(c: Context, prefix: seq<Step>, o: Offer) {
    o in c.s.OutgoingOpen() && (Distinct(c.s.offers) ==> PullOffer(o) !in prefix) && Dangerous(c, Balance(c, prefix), o)
  }

  /** The advertisement slot is used at most once. */
  predicate AdSound(c: Context, prefix: seq<Step>, step: Step) {
    && (step.PullAd? || step.Announce?)
    && (forall x :: x in prefix ==> !x.PullAd? && !x.Announce?)
    && (step.PullAd? ==> c.s.OwnAdvertisement() == Some(step.ad))
    && (step.Announce? ==> Deadline(c, step.expires, c.s.rules.maxPublicationTtl))
  }

  predicate PostSound(c: Context, prefix: seq<Step>, p: Step) {
    && p.Post? && p.recipient in c.known && p.give > 0 && Deadline(c, p.expires, c.s.rules.maxOfferTtl)
    && match p.purpose
       case Excess => ExcessSound(c, prefix, p)
       case Priced => PricedSound(c, prefix, p)
       case Relief => ReliefSound(c, prefix, p)
  }

  /** A lot of at most twenty, leaving a full hundred. */
  predicate ExcessSound(c: Context, prefix: seq<Step>, p: Step)
    requires p.Post?
  {
    && p.receive == 0 && p.give <= MAX_EXCESS_GIFT && Balance(c, prefix).Get(p.pay) >= STOCK_CAP + p.give
    && c.Outgoing() + Posts(prefix) < c.s.rules.maxOpenOffers
  }

  /** Paid from surplus only, at most eight for one, guarded, and for a resource nobody else
      is being asked for in this batch. */
  predicate PricedSound(c: Context, prefix: seq<Step>, p: Step)
    requires p.Post?
  {
    && p.pay != p.want && 1 <= p.receive && p.give <= MAX_PREMIUM * p.receive
    && Balance(c, prefix).Get(p.pay) >= c.reserve.Get(p.pay) + p.give
    && Guarded(c, Balance(c, prefix).Monus(Bundle.Single(p.pay, p.give)),
               2 * p.give > p.receive || HasNormalOffers(c.s) || NormalPlanned(prefix))
    && (forall x :: x in prefix && x.IsPriced() ==> x.want != p.want)
    && (forall o :: o in c.s.OutgoingOpen() && o.recipient == p.recipient ==> o.receive.Get(p.want) == 0)
    && c.Outgoing() + PricedPosts(prefix) < c.s.rules.maxOpenOffers
  }

  /** One gift from a fifth of the surplus, with every reserve covered before and after. */
  predicate ReliefSound(c: Context, prefix: seq<Step>, p: Step)
    requires p.Post?
  {
    var available := Balance(c, prefix);
    && p.receive == 0 && available.Dominates(c.reserve.Plus(Bundle.Single(p.pay, p.give)))
    && (p.give == 1 || 5 * p.give <= available.Get(p.pay) - c.reserve.Get(p.pay))
    && c.Limit(available.Monus(Bundle.Single(p.pay, p.give))) == Unlimited
    && (forall x :: x in prefix ==> !(x.Post? && x.purpose == Relief))
    && c.Outgoing() + Posts(prefix) < c.s.rules.maxOpenOffers
  }

  /** What each kind of step needs of the batch before it. */
  ghost predicate StepSound(c: Context, prefix: seq<Step>, step: Step) {
    match step
    case TakeOffer(o) => TakeSound(c, prefix, o)
    case PullOffer(o) => PullSound(c, prefix, o)
    case PullAd(_) => AdSound(c, prefix, step)
    case Announce(_, _, _) => AdSound(c, prefix, step)
    case Post(_, _, _, _, _, _, _) => PostSound(c, prefix, step)
  }

  ghost predicate Justified(c: Context, prefix: seq<Step>, step: Step) {
    && (prefix != [] ==> prefix[|prefix| - 1].Stage() <= step.Stage())
    && Balance(c, prefix).Dominates(CostOf(c.s.self, step))
    && StepSound(c, prefix, step)
  }

  ghost predicate Planned(c: Context, steps: seq<Step>) {
    steps == [] || (Planned(c, steps[..|steps| - 1]) && Justified(c, steps[..|steps| - 1], steps[|steps| - 1]))
  }

  lemma PlannedSnoc(c: Context, steps: seq<Step>, step: Step)
    requires Planned(c, steps) && Justified(c, steps, step)
    ensures Planned(c, steps + [step])
    ensures Balance(c, steps + [step]) == Balance(c, steps).Monus(CostOf(c.s.self, step))
    ensures Posts(steps + [step]) == Posts(steps) + (if step.Post? then 1 else 0)
    ensures PricedPosts(steps + [step]) == PricedPosts(steps) + (if step.IsPriced() then 1 else 0)
  {
    assert (steps + [step])[..|steps|] == steps;
  }

  lemma {:induction false} PlannedPrefix(c: Context, steps: seq<Step>, k: nat)
    requires Planned(c, steps) && k <= |steps|
    ensures Planned(c, steps[..k])
    ensures k < |steps| ==> Justified(c, steps[..k], steps[k])
  {
    if k < |steps| {
      var n := |steps| - 1;
      if k < n {
        PlannedPrefix(c, steps[..n], k);
        assert steps[..n][..k] == steps[..k];
      }
    } else {
      assert steps[..k] == steps;
    }
  }

  // ---- main consequences ---------------------------------------------------------------------------

  function SpentOn(self: StationId, steps: seq<Step>): Bundle {
    if steps == [] then Bundle.Zero()
    else SpentOn(self, steps[..|steps| - 1]).Plus(CostOf(self, steps[|steps| - 1]))
  }

  /** Everything the batch promises or pays comes out of the one opening balance. */
  lemma {:induction false} SharedBalance(c: Context, steps: seq<Step>)
    requires Planned(c, steps)
    ensures c.opening.Dominates(SpentOn(c.s.self, steps))
    ensures Balance(c, steps) == c.opening.Minus(SpentOn(c.s.self, steps))
  {
    if steps != [] {
      SharedBalance(c, steps[..|steps| - 1]);
    }
  }

  /** Stages never interleave: accepts first, aid last. */
  lemma {:induction false} StagesRise(c: Context, steps: seq<Step>, i: nat, j: nat)
    requires Planned(c, steps) && i <= j < |steps|
    ensures steps[i].Stage() <= steps[j].Stage()
  {
    if i < j {
      PlannedPrefix(c, steps, j);
      StagesRise(c, steps[..j], i, j - 1);
    }
  }

  lemma {:induction false} BalanceFalls(c: Context, steps: seq<Step>, k: nat)
    requires Planned(c, steps) && k <= |steps|
    ensures Balance(c, steps[..k]).Dominates(Balance(c, steps))
  {
    if k < |steps| {
      BalanceFalls(c, steps[..|steps| - 1], k);
      assert steps[..|steps| - 1][..k] == steps[..k];
    } else {
      assert steps[..k] == steps;
    }
  }

  lemma UnlimitedGuards(c: Context, left: Bundle, normal: bool)
    requires c.Limit(left) == Unlimited
    ensures Guarded(c, left, normal)
  {
    ScaleGrows(c.s.me.upkeep.Get(c.s.me.specialty), STOP_TICKS, NORMAL_TICKS);
  }

  lemma GuardWeakens(c: Context, left: Bundle, normal: bool, other: bool)
    requires Guarded(c, left, normal) && (other ==> normal)
    ensures Guarded(c, left, other)
  {
    ScaleGrows(c.s.me.upkeep.Get(c.s.me.specialty), STOP_TICKS, NORMAL_TICKS);
  }

  /** The floor a priced offer was planned above is never broken by the rest of the batch. */
  lemma {:induction false} FloorKept(c: Context, steps: seq<Step>, k: nat)
    requires Planned(c, steps) && k < |steps| && steps[k].IsPriced()
    ensures Guarded(c, Balance(c, steps), steps[k].IsNormalTrade() || HasNormalOffers(c.s))
  {
    var n := |steps| - 1;
    var front, last := steps[..n], steps[n];
    var normal := steps[k].IsNormalTrade() || HasNormalOffers(c.s);
    StagesRise(c, steps, k, n);
    hide HasNormalOffers, Guarded;
    assert Balance(c, steps) == Balance(c, front).Monus(CostOf(c.s.self, last));
    if last.IsPriced() {
      if k < n && steps[k].IsNormalTrade() {
        assert front[k] == steps[k];
        assert NormalPlanned(front);
      }
      GuardWeakens(c, Balance(c, steps), 2 * last.give > last.receive || HasNormalOffers(c.s) || NormalPlanned(front), normal);
    } else {
      UnlimitedGuards(c, Balance(c, steps), normal);
    }
  }
}
