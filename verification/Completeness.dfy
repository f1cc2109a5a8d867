/** Nothing due is left out: what a batch must hold, said of its steps, the memory and the balance. */
module Completeness {
  import opened Arithmetic
  import opened Domain
  import opened Counterparties
  import opened EngineInvariant
  import opened Memory
  import opened Reserves
  import opened Pricing
  import opened Advertising
  import opened Altruism
  import opened Targeting
  import opened Planner
  import opened PlannerSafety
  import opened PlannerStages
  import opened PlannerProof
  import opened PolicyNumbers
  import opened PlanParts

  // ---- accepts -----------------------------------------------------------------------------------

  /** Acceptable, but kept from the last command for a cause that still stands. */
  predicate KeptBack(c: Context, turn: seq<Step>, budget: nat, o: Offer)
    requires o.HasParty(c.s.self)
  {
    |turn| + 1 == budget && Acceptable(c, Balance(c, turn), o) && HeldBack(c, ScarceImportToChase(c), o)
  }

  /** An offer's turn: it is taken if it is acceptable, a command is left and it is not kept back. */
  predicate TakesTurn(c: Context, turn: seq<Step>, next: seq<Step>, budget: nat, o: Offer)
    requires o.HasParty(c.s.self)
  {
    next == if |turn| < budget && Acceptable(c, Balance(c, turn), o) && !KeptBack(c, turn, budget, o) then turn + [TakeOffer(o)] else turn
  }

  /** The offers to us have their turns in the order listed. */
  ghost predicate InTurn(c: Context, turns: seq<seq<Step>>, offers: seq<Offer>, budget: nat) {
    && |turns| == |offers| + 1 && AllOurs(c, offers)
    && forall i :: 0 <= i < |offers| ==> TakesTurn(c, turns[i], turns[i + 1], budget, offers[i])
  }

  ghost predicate KeptAt(c: Context, turns: seq<seq<Step>>, offers: seq<Offer>, budget: nat, k: nat)
    requires InTurn(c, turns, offers, budget) && k < |offers|
  {
    KeptBack(c, turns[k], budget, offers[k]) && Lasts(c, offers[k])
  }

  /** The first offer kept back that outlasts the tick, if any. */
  ghost predicate FirstKept(c: Context, turns: seq<seq<Step>>, offers: seq<Offer>, budget: nat, found: Option<Offer>)
    requires InTurn(c, turns, offers, budget)
  {
    match found
    case None => forall k :: 0 <= k < |offers| ==> !KeptAt(c, turns, offers, budget, k)
    case Some(o) =>
      exists k :: 0 <= k < |offers| && offers[k] == o && KeptAt(c, turns, offers, budget, k)
                  && forall j :: 0 <= j < k ==> !KeptAt(c, turns, offers, budget, j)
  }

  lemma OneTurn(c: Context, d: Draft, o: Offer, budget: nat)
    requires o.HasParty(c.s.self) && |d.steps| + d.budget == budget
    ensures var z := Considered(c, d, ScarceImportToChase(c), o);
            && TakesTurn(c, d.steps, z.steps, budget, o) && |z.steps| + z.budget == budget
            && z.deferred == if KeptBack(c, d.steps, budget, o) then d.deferred + [o] else d.deferred
  {
    hide Acceptable, HeldBack, ScarceImportToChase, Balance;
  }

  lemma {:induction false} OffersHaveTurns(c: Context, d: Draft, offers: seq<Offer>, budget: nat) returns (turns: seq<seq<Step>>)
    requires AllOurs(c, offers) && d.deferred == [] && |d.steps| + d.budget == budget
    ensures var z := AcceptPass(c, d, ScarceImportToChase(c), offers);
            && InTurn(c, turns, offers, budget) && turns[0] == d.steps && turns[|offers|] == z.steps
            && |z.steps| + z.budget == budget && FirstKept(c, turns, offers, budget, FirstLasting(c, z.deferred))
  {
    if offers == [] {
      turns := [d.steps];
    } else {
      var front, last := offers[..|offers| - 1], offers[|offers| - 1];
      var y, z := AcceptPass(c, d, ScarceImportToChase(c), front), AcceptPass(c, d, ScarceImportToChase(c), offers);
      assert z == Considered(c, y, ScarceImportToChase(c), last) && offers == front + [last];
      var before := OffersHaveTurns(c, d, front, budget);
      OneTurn(c, y, last, budget);
      turns := before + [z.steps];
      hide Considered, AcceptPass, InTurn, TakesTurn, KeptBack, FirstKept, FirstLasting, ScarceImportToChase;
      TurnSnoc(c, before, front, budget, z.steps, last);
      KeptSnoc(c, before, front, budget, z.steps, last, y.deferred, z.deferred);
    }
  }

  lemma TurnSnoc(c: Context, before: seq<seq<Step>>, front: seq<Offer>, budget: nat, next: seq<Step>, last: Offer)
    requires InTurn(c, before, front, budget) && last.HasParty(c.s.self) && TakesTurn(c, before[|front|], next, budget, last)
    ensures InTurn(c, before + [next], front + [last], budget)
    ensures |before| == |front| + 1
  {
    var turns, offers := before + [next], front + [last];
    hide TakesTurn;
    forall i | 0 <= i < |offers| ensures offers[i].HasParty(c.s.self) && TakesTurn(c, turns[i], turns[i + 1], budget, offers[i]) {
      if i < |front| { assert TakesTurn(c, before[i], before[i + 1], budget, front[i]); }
    }
  }

  lemma KeptSnoc(c: Context, before: seq<seq<Step>>, front: seq<Offer>, budget: nat, next: seq<Step>, last: Offer, held: seq<Offer>, now: seq<Offer>)
    requires InTurn(c, before, front, budget) && last.HasParty(c.s.self) && InTurn(c, before + [next], front + [last], budget)
    requires FirstKept(c, before, front, budget, FirstLasting(c, held))
    requires now == if KeptBack(c, before[|front|], budget, last) then held + [last] else held
    ensures FirstKept(c, before + [next], front + [last], budget, FirstLasting(c, now))
  {
    var turns, offers, n := before + [next], front + [last], |front|;
    hide TakesTurn, KeptBack, Lasts;
    forall k | 0 <= k < n ensures KeptAt(c, turns, offers, budget, k) == KeptAt(c, before, front, budget, k) {
    }
    assert KeptAt(c, turns, offers, budget, n) == (KeptBack(c, before[n], budget, last) && Lasts(c, last));
    if KeptBack(c, before[n], budget, last) {
      assert now[..|held|] == held && now[|held|] == last;
    }
    var found := FirstLasting(c, held);
    if found.Some? {
      var k :| 0 <= k < n && front[k] == found.value && KeptAt(c, before, front, budget, k)
               && forall j :: 0 <= j < k ==> !KeptAt(c, before, front, budget, j);
      assert offers[k] == found.value && KeptAt(c, turns, offers, budget, k);
    } else if KeptBack(c, before[n], budget, last) && Lasts(c, last) {
      assert offers[n] == last;
    }
  }

  /** The offers to us had their turns in order; and if nothing better used the last command, it
      takes the first offer kept back that outlasts the tick. */
  ghost predicate TakesRightly(c: Context, steps: seq<Step>, budget: nat) {
    var offers := c.s.IncomingOpen();
    exists turns, found ::
      && InTurn(c, turns, offers, budget) && turns[0] == [] && FirstKept(c, turns, offers, budget, found)
      && var taken := turns[|offers|];
         || (Through(steps, 0) == taken && (Through(steps, 4) == taken && |taken| < budget ==> found == None))
         || (found.Some? && |taken| + 1 == budget && steps == taken + [TakeOffer(found.value)])
  }

  lemma TurnsTaken(c: Context, n: Notes, budget: nat, ch: Choices)
    requires c.known == n.model.Live() && ChoicesFit(c, n, budget, ch)
    ensures TakesRightly(c, PlanOf(c, budget, ch).steps, budget)
  {
    assert Usable(c, budget, ch);
    IncomingIsOurs(c);
    hide ChoicesFit, Usable, AcceptPass, ReliefPass, InTurn, FirstKept, Balance, ScarceImportToChase, Through, KeepOffers, FirstLasting, PlanOf;
    var turns := OffersHaveTurns(c, Draft([], budget, []), c.s.IncomingOpen(), budget);
    SecondLook(c, n, budget, ch);
  }

  /** What the second look does to the batch. */
  lemma SecondLook(c: Context, n: Notes, budget: nat, ch: Choices)
    requires c.known == n.model.Live() && ChoicesFit(c, n, budget, ch)
    ensures var steps, taken := PlanOf(c, budget, ch).steps, AcceptStage(c, budget).steps;
            var found := FirstLasting(c, AcceptStage(c, budget).deferred);
            || (Through(steps, 0) == taken && (Through(steps, 4) == taken && |taken| < budget ==> found == None))
            || (found.Some? && |taken| + 1 == budget && steps == taken + [TakeOffer(found.value)])
  {
    var d, late := ProposeStage(c, budget, ch), LateStage(c, budget, ch);
    StageSums(c, n, budget, ch);
    SinceAccepts(c, n, budget, ch);
    LateStageKeeps(c, n, budget, ch);
    if TakesDeferred(d) {
      DeferredOnlyWhenIdle(c, n, budget, ch);
      ExpiringOffersAreLost(c, n, budget, ch);
    }
    if TakesDeferred(d) && late.budget == 0 {
      NoAidAfter(c, late, ch.gift);
      hide ChoicesFit, AcceptStage, PullStage, ExcessStage, AdStage, ProposeStage, LateStage, ReliefPass, Through, UpTo, Planned, AcceptPass;
    } else {
      LateIsProposed(c, n, budget, ch);
      StagesAreParts(c, n, budget, ch);
      hide ChoicesFit, AcceptStage, PullStage, ExcessStage, AdStage, ProposeStage, LateStage, ReliefPass, Through, UpTo, Planned, AcceptPass, PlanOf, Usable;
    }
  }

  // ---- withdrawals -----------------------------------------------------------------------------

  /** An open offer's turn: it is withdrawn if a command is left and it endangers what the accepts left. */
  predicate PullsTurn(c: Context, stock: Bundle, budget: nat, turn: seq<Step>, next: seq<Step>, o: Offer) {
    next == if |turn| < budget && Endangers(c, stock, o) then turn + [PullOffer(o)] else turn
  }

  /** Our open offers have their turns in the order listed. */
  ghost predicate InPullOrder(c: Context, stock: Bundle, budget: nat, turns: seq<seq<Step>>, offers: seq<Offer>) {
    && |turns| == |offers| + 1
    && forall i :: 0 <= i < |offers| ==> PullsTurn(c, stock, budget, turns[i], turns[i + 1], offers[i])
  }

  /** Those of our open offers that endanger us are withdrawn, in order, as far as commands go. */
  ghost predicate WithdrawsRightly(c: Context, steps: seq<Step>, budget: nat) {
    var taken, offers := Through(steps, 0), c.s.OutgoingOpen();
    exists turns ::
      InPullOrder(c, Balance(c, taken), budget, turns, offers) && turns[0] == taken && turns[|offers|] == Through(steps, 1)
  }

  lemma {:induction false} PullsCostNothing(c: Context, d: Draft, offers: seq<Offer>)
    ensures Balance(c, PullPass(c, d, offers).steps) == Balance(c, d.steps)
  {
    if offers != [] {
      hide Dangerous;
      PullsCostNothing(c, d, offers[..|offers| - 1]);
      WithdrawsFree(c, PullPass(c, d, offers[..|offers| - 1]).steps, offers[|offers| - 1]);
    }
  }

  lemma WithdrawsFree(c: Context, steps: seq<Step>, o: Offer)
    ensures Balance(c, steps + [PullOffer(o)]) == Balance(c, steps)
  {
    assert (steps + [PullOffer(o)])[..|steps|] == steps;
  }

  lemma OnePull(c: Context, stock: Bundle, d: Draft, budget: nat, o: Offer)
    requires |d.steps| + d.budget == budget && Balance(c, d.steps) == stock
    ensures var z := Pulled(c, d, o);
            PullsTurn(c, stock, budget, d.steps, z.steps, o) && |z.steps| + z.budget == budget
  {
    DangerInNumbers(c, stock, o);
    hide Dangerous, Endangers, Balance;
  }

  lemma {:induction false} OffersHavePullTurns(c: Context, d: Draft, budget: nat, offers: seq<Offer>) returns (turns: seq<seq<Step>>)
    requires |d.steps| + d.budget == budget
    ensures var z := PullPass(c, d, offers);
            && InPullOrder(c, Balance(c, d.steps), budget, turns, offers) && turns[0] == d.steps && turns[|offers|] == z.steps
            && |z.steps| + z.budget == budget
  {
    if offers == [] {
      turns := [d.steps];
    } else {
      var n := |offers| - 1;
      var y, stock := PullPass(c, d, offers[..n]), Balance(c, d.steps);
      var before := OffersHavePullTurns(c, d, budget, offers[..n]);
      PullsCostNothing(c, d, offers[..n]);
      OnePull(c, stock, y, budget, offers[n]);
      turns := before + [Pulled(c, y, offers[n]).steps];
      hide Pulled, PullsTurn, Balance;
      forall i | 0 <= i < |offers| ensures PullsTurn(c, stock, budget, turns[i], turns[i + 1], offers[i]) {
        if i < n { assert PullsTurn(c, stock, budget, before[i], before[i + 1], offers[..n][i]); }
      }
    }
  }

  lemma PartsWithdrawRightly(c: Context, n: Notes, budget: nat, ch: Choices, steps: seq<Step>)
    requires c.known == n.model.Live() && ChoicesFit(c, n, budget, ch) && InParts(c, budget, ch, steps)
    ensures WithdrawsRightly(c, steps, budget)
  {
    hide ChoicesFit, AcceptStage, ExcessStage, AdStage, ProposeStage, LateStage, Balance, InPullOrder, KeepOffers, Through, PullPass;
    var turns := OffersHavePullTurns(c, AcceptStage(c, budget), budget, c.s.OutgoingOpen());
  }

  lemma NoTurnsLeft(c: Context, steps: seq<Step>, budget: nat)
    requires OnlyTakes(steps, budget)
    ensures WithdrawsRightly(c, steps, budget)
  {
    TakesAreTheirOwnPart(steps);
    hide Endangers, Balance, KeepOffers, Through;
    var offers := c.s.OutgoingOpen();
    var turns := seq(|offers| + 1, _ => steps);
    assert InPullOrder(c, Balance(c, Through(steps, 0)), budget, turns, offers);
  }

  // ---- lots over the cap ---------------------------------------------------------------------------

  function LongestStreak(n: Notes, p: StationId, r: Resource): nat
    requires p in n.model.stations
  {
    if r in n.model.stations[p].streak then n.model.stations[p].streak[r] else 0
  }

  /** A live planet that advertises for `r`, given nothing of it for two ticks. */
  predicate Seeks(c: Context, n: Notes, p: StationId, r: Resource) {
    && p in n.model.stations && !n.model.stations[p].failed && r in n.model.stations[p].seeking
    && ((p, r) in n.gifts ==> c.s.tick - n.gifts[(p, r)] >= 2)
  }

  /** None has sought it longer, or as long and more recently. */
  ghost predicate SeeksLongest(c: Context, n: Notes, p: StationId, r: Resource) {
    && Seeks(c, n, p, r)
    && forall q :: Seeks(c, n, q, r) ==>
         || LongestStreak(n, q, r) < LongestStreak(n, p, r)
         || (LongestStreak(n, q, r) == LongestStreak(n, p, r) && n.model.stations[q].lastAdTick <= n.model.stations[p].lastAdTick)
  }

  function Expiry(c: Context): int { c.s.tick + Min(5, Min(c.s.rules.maxOfferTtl, c.s.rules.durationTicks - c.s.tick)) }

  function LotFor(c: Context, p: StationId, r: Resource, have: nat): Step
    requires have > 100
  {
    Post(Excess, p, r, Min(20, have - 100), r, 0, Expiry(c))
  }

  function ExcessOf(stock: Bundle, r: Resource): nat { Less(stock.Get(r), 100) }

  /** Largest excess first, ties in the resources' own order. */
  predicate ByExcess(stock: Bundle, order: seq<Resource>) {
    && |order| == 3 && order[0] != order[1] && order[1] != order[2] && order[0] != order[2]
    && forall i, j :: 0 <= i < j < 3 ==>
         || ExcessOf(stock, order[i]) > ExcessOf(stock, order[j])
         || (ExcessOf(stock, order[i]) == ExcessOf(stock, order[j]) && RankOf(order[i]) < RankOf(order[j]))
  }

  /** A resource's turn: with a command, an open offer and some lifetime left, more than a hundred of
      it and anyone seeking it, a longest seeker is given up to twenty units. */
  ghost predicate LotsTurn(c: Context, n: Notes, stock: Bundle, budget: nat, turn: seq<Step>, next: seq<Step>, r: Resource) {
    if |turn| < budget && c.Outgoing() + Posts(turn) < c.s.rules.maxOpenOffers && Expiry(c) > c.s.tick && stock.Get(r) > 100
       && (exists p :: Seeks(c, n, p, r))
    then exists p :: SeeksLongest(c, n, p, r) && next == turn + [LotFor(c, p, r, stock.Get(r))]
    else next == turn
  }

  /** The resources have their turns, largest excess first. */
  ghost predicate GivesLots(c: Context, n: Notes, steps: seq<Step>, budget: nat) {
    var stock := Balance(c, Through(steps, 1));
    exists order, first, second ::
      && ByExcess(stock, order)
      && LotsTurn(c, n, stock, budget, Through(steps, 1), first, order[0])
      && LotsTurn(c, n, stock, budget, first, second, order[1])
      && LotsTurn(c, n, stock, budget, second, Through(steps, 2), order[2])
  }

  lemma SeekersAre(c: Context, n: Notes, r: Resource, pick: Option<StationId>)
    ensures forall p :: IsSeeker(n, r, c.s.tick, p) <==> Seeks(c, n, p, r)
    ensures Picked(n, r, c.s.tick, pick) ==>
              (pick.Some? ==> SeeksLongest(c, n, pick.value, r)) && (pick.None? ==> forall p :: !Seeks(c, n, p, r))
  {
  }

  lemma ExcessInNumbers(available: Bundle, r: Resource)
    ensures ExcessOverCap(available).Get(r) == Max(0, available.Get(r) - 100)
  {
  }

  lemma PostOfLot(c: Context, p: StationId, r: Resource, have: nat)
    requires have > 100
    ensures ExcessPost(c, r, p, have - 100) == LotFor(c, p, r, have)
  {
  }

  lemma OrderIs(stock: Bundle)
    ensures ByExcess(stock, ExcessOrder(ExcessOverCap(stock)))
  {
  }

  lemma LotsBudget(c: Context, d: Draft, excess: Bundle, r: Resource, pick: Option<StationId>)
    ensures var z := GaveExcess(c, d, excess, r, pick); |z.steps| + z.budget == |d.steps| + d.budget
  {
    RoomIsBudget(c);
    hide CanGive;
  }

  /** A turn for which a recipient was looked up. */
  lemma OneLot(c: Context, n: Notes, stock: Bundle, y: Draft, budget: nat, r: Resource, pick: Option<StationId>)
    requires |y.steps| + y.budget == budget && CanGive(c, y, ExcessOverCap(stock), r) && Picked(n, r, c.s.tick, pick)
    ensures LotsTurn(c, n, stock, budget, y.steps, GaveExcess(c, y, ExcessOverCap(stock), r, pick).steps, r)
  {
    ExcessInNumbers(stock, r);
    SeekersAre(c, n, r, pick);
    LifetimeIs(c);
    assert stock.Get(r) > 100;
    if pick.Some? { PostOfLot(c, pick.value, r, stock.Get(r)); }
    hide ExcessOverCap, LotFor, ExcessPost, Picked, KeepOffers, Posts;
    assert pick.Some? ==> SeeksLongest(c, n, pick.value, r) && Seeks(c, n, pick.value, r);
    hide SeeksLongest, Seeks;
  }

  /** A turn after the last look-up. */
  lemma NoLot(c: Context, n: Notes, stock: Bundle, y: Draft, budget: nat, r: Resource)
    requires |y.steps| + y.budget == budget && !CanGive(c, y, ExcessOverCap(stock), r)
    ensures LotsTurn(c, n, stock, budget, y.steps, y.steps, r)
  {
    ExcessInNumbers(stock, r);
    LifetimeIs(c);
    hide ExcessOverCap, SeeksLongest, Seeks, KeepOffers, Posts, LotFor;
  }

  /** The draft after the first `k` turns; beyond the last look-up nothing changes. */
  function LotDraft(c: Context, d: Draft, excess: Bundle, order: seq<Resource>, picks: seq<Option<StationId>>, k: nat): Draft
    requires |picks| <= |order|
  {
    ExcessPass(c, d, excess, order, if k <= |picks| then picks[..k] else picks)
  }

  lemma LotTurn(c: Context, n: Notes, d: Draft, stock: Bundle, budget: nat, picks: seq<Option<StationId>>, k: nat)
    requires |picks| <= 3 && k < 3
    requires var excess := ExcessOverCap(stock);
             var order := ExcessOrder(excess);
             && PicksFit(c, n, d, excess, order, picks)
             && var y := LotDraft(c, d, excess, order, picks, k); |y.steps| + y.budget == budget
    ensures var excess := ExcessOverCap(stock);
            var order := ExcessOrder(excess);
            var y, z := LotDraft(c, d, excess, order, picks, k), LotDraft(c, d, excess, order, picks, k + 1);
            && LotsTurn(c, n, stock, budget, y.steps, z.steps, order[k]) && |z.steps| + z.budget == budget
  {
    var excess := ExcessOverCap(stock);
    var order := ExcessOrder(excess);
    var y := LotDraft(c, d, excess, order, picks, k);
    if k < |picks| {
      assert PickFits(c, n, d, excess, order, picks, k);
      assert picks[..k + 1][..k] == picks[..k];
      OneLot(c, n, stock, y, budget, order[k], picks[k]);
      LotsBudget(c, y, excess, order[k], picks[k]);
    } else {
      assert picks[..|picks|] == picks;
      hide ExcessPass, ExcessOverCap;
      assert !CanGive(c, y, excess, order[|picks|]);
      assert excess.Get(order[k]) <= excess.Get(order[|picks|]);
      NoLot(c, n, stock, y, budget, order[k]);
    }
  }

  lemma LotsInPart(c: Context, n: Notes, d: Draft, picks: seq<Option<StationId>>, steps: seq<Step>, budget: nat)
    requires |picks| <= 3 && d.steps == Through(steps, 1) && |d.steps| + d.budget == budget
    requires var excess := ExcessOverCap(Balance(c, d.steps));
             var z := ExcessPass(c, d, excess, ExcessOrder(excess), picks);
             PicksFit(c, n, d, excess, ExcessOrder(excess), picks) && z.steps == Through(steps, 2)
    ensures GivesLots(c, n, steps, budget)
  {
    var stock := Balance(c, d.steps);
    var excess := ExcessOverCap(stock);
    var order := ExcessOrder(excess);
    OrderIs(stock);
    assert LotDraft(c, d, excess, order, picks, 0) == d;
    assert LotDraft(c, d, excess, order, picks, 3) == ExcessPass(c, d, excess, order, picks) by {
      assert picks[..|picks|] == picks;
    }
    hide Balance, ExcessOrder, ExcessOverCap, Through, PicksFit, ExcessPass, LotsTurn, LotDraft, ByExcess;
    LotTurn(c, n, d, stock, budget, picks, 0);
    LotTurn(c, n, d, stock, budget, picks, 1);
    LotTurn(c, n, d, stock, budget, picks, 2);
  }

  lemma NoLotsLeft(c: Context, n: Notes, steps: seq<Step>, budget: nat)
    requires OnlyTakes(steps, budget)
    ensures GivesLots(c, n, steps, budget)
  {
    TakesAreTheirOwnPart(steps);
    var stock := Balance(c, steps);
    OrderIs(stock);
    var order := ExcessOrder(ExcessOverCap(stock));
    hide Balance, Through, ExcessOrder, ExcessOverCap, ByExcess, SeeksLongest, Seeks, LotFor, Posts, KeepOffers;
    assert Through(steps, 1) == steps && Through(steps, 2) == steps;
    assert LotsTurn(c, n, stock, budget, steps, steps, order[0]);
    assert LotsTurn(c, n, stock, budget, steps, steps, order[1]);
    assert LotsTurn(c, n, stock, budget, steps, steps, order[2]);
  }

  lemma PartsGiveLots(c: Context, n: Notes, budget: nat, ch: Choices, steps: seq<Step>)
    requires c.known == n.model.Live() && ChoicesFit(c, n, budget, ch) && InParts(c, budget, ch, steps)
    ensures GivesLots(c, n, steps, budget)
  {
    hide PullStage, AcceptStage, AdStage, ProposeStage, LateStage, Balance, PicksFit, GiftFits, CandidatesFit, ExcessPass, Through, GivesLots;
    LotsInPart(c, n, PullStage(c, budget), ch.picks, steps, budget);
  }

  // ---- the advertisement -----------------------------------------------------------------------------

  /** Some payment is allowed at all. */
  predicate PaysAtAll(c: Context, stock: Bundle) {
    PaysFreely(c, stock) || (TicksToGo(c) > 10 && stock.Get(c.s.me.specialty) >= 10 * OwnUpkeep(c))
  }

  /** Below ten units, or a tick of upkeep, once the accepts were counted. */
  predicate RunsOut(c: Context, steps: seq<Step>, r: Resource) {
    Balance(c, Through(steps, 0)).Get(r) < Max(10, c.s.me.upkeep.Get(r))
  }

  predicate OnOffer(c: Context, steps: seq<Step>, wanted: Wanted, r: Resource) {
    var stock := Balance(c, Through(steps, 2));
    && PaysAtAll(c, stock) && (r in wanted ==> Balance(c, Through(steps, 1)).Get(r) > 100)
    && stock.Get(r) >= c.reserve.Get(r) + 2
  }

  predicate InDemand(c: Context, steps: seq<Step>, wanted: Wanted, r: Resource) {
    RunsOut(c, steps, r) || (r in wanted && wanted[r] > 0 && Balance(c, Through(steps, 1)).Get(r) <= 100)
  }

  predicate NeedsNewAd(c: Context, steps: seq<Step>, selling: set<Resource>, seeking: set<Resource>, ad: Advertisement) {
    || (exists r :: RunsOut(c, steps, r) && r !in ad.seeking)
    || ((selling != {} || seeking != {})
        && (ad.expires - c.s.tick <= 2 || ((selling != ad.selling || seeking != ad.seeking) && c.s.tick - ad.createdTick >= 3)))
  }

  function Lifetime(c: Context): int { Min(8, Min(c.s.rules.maxPublicationTtl, c.s.rules.durationTicks - c.s.tick)) }

  /** What `selling` and `seeking` ask of the slot: an ad when there is none or it must change,
      and no ad with nothing to say. */
  function NoticeFor(c: Context, steps: seq<Step>, selling: set<Resource>, seeking: set<Resource>): Option<Step> {
    var own, notice := c.s.OwnAdvertisement(), Announce(selling, seeking, c.s.tick + Lifetime(c));
    if Lifetime(c) <= 0 then None
    else if own.None? then (if selling == {} && seeking == {} then None else Some(notice))
    else if NeedsNewAd(c, steps, selling, seeking, own.value) then Some(notice)
    else if selling == {} && seeking == {} then Some(PullAd(own.value))
    else None
  }

  function SlotUse(c: Context, steps: seq<Step>, stock: Bundle, selling: set<Resource>, seeking: set<Resource>): Option<Step> {
    var own := c.s.OwnAdvertisement();
    if stock.water > 30 && stock.food > 30 && stock.components > 30 then (if own.Some? then Some(PullAd(own.value)) else None)
    else NoticeFor(c, steps, selling, seeking)
  }

  function OfferedBy(c: Context, steps: seq<Step>, wanted: Wanted): set<Resource> { set r | r in ALL && OnOffer(c, steps, wanted, r) }

  function DemandedBy(c: Context, steps: seq<Step>, wanted: Wanted): set<Resource> { set r | r in ALL && InDemand(c, steps, wanted, r) }

  /** The advertisement slot: with all above thirty our ad is cleared; otherwise the ad says
      exactly what is on offer and in demand whenever it is due. */
  ghost predicate Advertises(c: Context, steps: seq<Step>, budget: nat) {
    var before := Through(steps, 2);
    var stock := Balance(c, before);
    var wanted := WantedOf(c, stock, c.reserve.Monus(Balance(c, Through(steps, 0))));
    var use := SlotUse(c, steps, stock, OfferedBy(c, steps, wanted), DemandedBy(c, steps, wanted));
    Through(steps, 3) == if |before| >= budget || use.None? then before else before + [use.value]
  }

  lemma PaysAtAllIs(c: Context, stock: Bundle)
    ensures PaysAtAll(c, stock) <==> c.Limit(stock) != NoPayment
  {
    LimitInNumbers(c, stock);
    hide PaymentLimitFor;
  }

  lemma SellingIs(c: Context, steps: seq<Step>, wanted: Wanted, excess: Bundle)
    requires excess == ExcessOverCap(Balance(c, Through(steps, 1)))
    ensures Selling(AdvertisedSurplus(c, Balance(c, Through(steps, 2)), wanted, excess)) == OfferedBy(c, steps, wanted)
  {
    var stock := Balance(c, Through(steps, 2));
    PaysAtAllIs(c, stock);
    hide Balance, PaysAtAll, PaymentLimitFor;
    forall r ensures r in Selling(AdvertisedSurplus(c, stock, wanted, excess)) <==> OnOffer(c, steps, wanted, r) {
      AllListed();
      ExcessInNumbers(Balance(c, Through(steps, 1)), r);
      match r case Water => case Food => case Components =>
    }
  }

  lemma SeekingIs(c: Context, steps: seq<Step>, wanted: Wanted, excess: Bundle)
    requires excess == ExcessOverCap(Balance(c, Through(steps, 1)))
    ensures Seeking(AdvertisedNeed(wanted, excess), CriticalIn(LevelsFor(c, steps))) == DemandedBy(c, steps, wanted)
    ensures CriticalIn(LevelsFor(c, steps)) == set r | r in ALL && RunsOut(c, steps, r)
  {
    hide Balance, UrgencyOf;
    forall r
      ensures r in CriticalIn(LevelsFor(c, steps)) <==> RunsOut(c, steps, r)
      ensures r in Seeking(AdvertisedNeed(wanted, excess), CriticalIn(LevelsFor(c, steps))) <==> InDemand(c, steps, wanted, r)
    {
      AllListed();
      ExcessInNumbers(Balance(c, Through(steps, 1)), r);
      match r case Water => case Food => case Components =>
    }
  }

  lemma DecidedIs(c: Context, steps: seq<Step>, selling: set<Resource>, seeking: set<Resource>, critical: set<Resource>, surplus: Bundle, need: Bundle)
    requires Selling(surplus) == selling && Seeking(need, critical) == seeking
    requires critical == set r | r in ALL && RunsOut(c, steps, r)
    ensures var decided := DecideAdvertisement(surplus, need, critical, c.s.OwnAdvertisement(), c.s.tick, c.s.rules);
            match NoticeFor(c, steps, selling, seeking)
            case None => decided == None
            case Some(x) =>
              if x.PullAd? then c.s.OwnAdvertisement() == Some(x.ad) && decided == Some(Withdraw(x.ad.id))
              else x.Announce? && decided == Some(Advertise(x.selling, x.seeking, x.expires))
  {
    AllListed();
    hide Selling, Seeking, FirstActiveAd, RunsOut;
    var own := c.s.OwnAdvertisement();
    if own.Some? {
      assert critical - own.value.seeking != {} <==> exists r :: RunsOut(c, steps, r) && r !in own.value.seeking by {
        if critical - own.value.seeking != {} {
          var r :| r in critical - own.value.seeking;
          assert RunsOut(c, steps, r) && r !in own.value.seeking;
        }
        if r :| RunsOut(c, steps, r) && r !in own.value.seeking {
          assert r in critical - own.value.seeking;
        }
      }
      SeekingHolds(need, critical);
    }
  }

  lemma SeekingHolds(need: Bundle, critical: set<Resource>)
    requires critical <= ALL
    ensures critical <= Seeking(need, critical)
  {
  }

  lemma NoticeIsDecided(c: Context, steps: seq<Step>, wanted: Wanted, excess: Bundle)
    requires excess == ExcessOverCap(Balance(c, Through(steps, 1)))
    ensures var surplus := AdvertisedSurplus(c, Balance(c, Through(steps, 2)), wanted, excess);
            var decided := DecideAdvertisement(surplus, AdvertisedNeed(wanted, excess), CriticalIn(LevelsFor(c, steps)), c.s.OwnAdvertisement(), c.s.tick, c.s.rules);
            match NoticeFor(c, steps, OfferedBy(c, steps, wanted), DemandedBy(c, steps, wanted))
            case None => decided == None
            case Some(x) =>
              if x.PullAd? then c.s.OwnAdvertisement() == Some(x.ad) && decided == Some(Withdraw(x.ad.id))
              else x.Announce? && decided == Some(Advertise(x.selling, x.seeking, x.expires))
  {
    SellingIs(c, steps, wanted, excess);
    SeekingIs(c, steps, wanted, excess);
    hide Balance, WantedOf, CriticalIn, LevelsFor, NoticeFor, OfferedBy, DemandedBy, AdvertisedSurplus, AdvertisedNeed, DecideAdvertisement,
         ExcessOverCap, FirstActiveAd, Selling, Seeking, RunsOut, Through;
    DecidedIs(c, steps, OfferedBy(c, steps, wanted), DemandedBy(c, steps, wanted), CriticalIn(LevelsFor(c, steps)),
              AdvertisedSurplus(c, Balance(c, Through(steps, 2)), wanted, excess), AdvertisedNeed(wanted, excess));
  }

  lemma AdPassIs(c: Context, d: Draft, excess: Bundle, deficit: Bundle, steps: seq<Step>)
    requires d.steps == Through(steps, 2) && excess == ExcessOverCap(Balance(c, Through(steps, 1)))
    requires deficit == c.reserve.Monus(Balance(c, Through(steps, 0)))
    ensures var stock := Balance(c, d.steps);
            var wanted := WantedOf(c, stock, deficit);
            var use := SlotUse(c, steps, stock, OfferedBy(c, steps, wanted), DemandedBy(c, steps, wanted));
            AdPass(c, d, excess, deficit, CriticalIn(LevelsFor(c, steps))).steps
              == if d.budget == 0 || use.None? then d.steps else d.steps + [use.value]
  {
    var stock := Balance(c, d.steps);
    var wanted := WantedOf(c, stock, deficit);
    hide Balance, WantedOf, CriticalIn, LevelsFor, NoticeFor, OfferedBy, DemandedBy, AdvertisedSurplus, AdvertisedNeed, DecideAdvertisement,
         ExcessOverCap, FirstActiveAd, Selling, Seeking, RunsOut, Through;
    NoticeIsDecided(c, steps, wanted, excess);
  }

  lemma PartsAdvertise(c: Context, n: Notes, budget: nat, ch: Choices, steps: seq<Step>)
    requires c.known == n.model.Live() && ChoicesFit(c, n, budget, ch) && InParts(c, budget, ch, steps)
    ensures Advertises(c, steps, budget)
  {
    hide AcceptStage, PullStage, ExcessStage, ProposeStage, LateStage, Balance, WantedOf, PicksFit, GiftFits, CandidatesFit, CriticalIn, UrgencyOf,
         OfferedBy, DemandedBy, SlotUse, ExcessOverCap, Through, AdPass;
    AdPassIs(c, ExcessStage(c, budget, ch.picks), ExcessAt(c, budget), DeficitAfterAccepts(c, budget), steps);
  }

  // ---- trades ----------------------------------------------------------------------------------------

  /** A candidate's turn: with a command, an open offer and some lifetime left, and terms to be had,
      it is asked on those terms. */
  ghost predicate TradesTurn(c: Context, u: Urgencies, wanted: Wanted, budget: nat, turn: seq<Step>, next: seq<Step>, x: Candidate)
    requires x.want in wanted
  {
    var terms := TermsFor(c, turn, u, wanted, x);
    next == if |turn| < budget && c.Outgoing() + PricedPosts(turn) < c.s.rules.maxOpenOffers && Expiry(c) > c.s.tick && terms.Some?
            then turn + [Post(Priced, x.station, x.pay, terms.value.0.Get(x.pay), x.want, terms.value.1.Get(x.want), Expiry(c))]
            else turn
  }

  /** The candidates have their turns in the order ranked. */
  ghost predicate InRank(c: Context, u: Urgencies, wanted: Wanted, budget: nat, turns: seq<seq<Step>>, cs: seq<Candidate>) {
    && |turns| == |cs| + 1 && AllWanted(wanted, cs)
    && forall i :: 0 <= i < |cs| ==> TradesTurn(c, u, wanted, budget, turns[i], turns[i + 1], cs[i])
  }

  lemma OneTrade(c: Context, u: Urgencies, wanted: Wanted, d: Draft, budget: nat, x: Candidate)
    requires x.want in wanted && |d.steps| + d.budget == budget
    ensures var z := Proposed(c, d, u, wanted, x);
            TradesTurn(c, u, wanted, budget, d.steps, z.steps, x) && |z.steps| + z.budget == budget
  {
    LifetimeIs(c);
    hide TermsFor, PricedPosts, KeepOffers;
  }

  lemma {:induction false} CandidatesHaveTurns(c: Context, u: Urgencies, wanted: Wanted, d: Draft, budget: nat, cs: seq<Candidate>)
    returns (turns: seq<seq<Step>>)
    requires AllWanted(wanted, cs) && |d.steps| + d.budget == budget
    ensures var z := ProposePass(c, d, u, wanted, cs);
            InRank(c, u, wanted, budget, turns, cs) && turns[0] == d.steps && turns[|cs|] == z.steps && |z.steps| + z.budget == budget
  {
    if cs == [] {
      turns := [d.steps];
    } else {
      var n := |cs| - 1;
      var y := ProposePass(c, d, u, wanted, cs[..n]);
      var before := CandidatesHaveTurns(c, u, wanted, d, budget, cs[..n]);
      OneTrade(c, u, wanted, y, budget, cs[n]);
      turns := before + [Proposed(c, y, u, wanted, cs[n]).steps];
      hide Proposed, TradesTurn;
      forall i | 0 <= i < |cs| ensures TradesTurn(c, u, wanted, budget, turns[i], turns[i + 1], cs[i]) {
        if i < n { assert TradesTurn(c, u, wanted, budget, before[i], before[i + 1], cs[..n][i]); }
      }
    }
  }

  /** Levels and wants as measured for the trades. */
  function LevelsFor(c: Context, steps: seq<Step>): Urgencies { c.Urgent(Balance(c, Through(steps, 0))) }

  function WantsFor(c: Context, steps: seq<Step>): Wanted {
    WantedOf(c, Balance(c, Through(steps, 3)), c.reserve.Monus(Balance(c, Through(steps, 0))))
  }

  /** Every wanted resource that can be had is asked for in the order ranked, as far as commands,
      open offers and terms go; with no command left or every open offer in use, nothing is. */
  ghost predicate ProposesRightly(c: Context, n: Notes, steps: seq<Step>, budget: nat) {
    var published, traded := Through(steps, 3), Through(steps, 4);
    if c.Outgoing() >= c.s.rules.maxOpenOffers || |published| >= budget then traded == published
    else
      exists cs, turns ::
        && Ranked(n.model, LevelsFor(c, steps), WantsFor(c, steps), Balance(c, published).Monus(c.reserve), c.s.tick,
                  Pending(c.s), c.s.me.specialty, cs)
        && InRank(c, LevelsFor(c, steps), WantsFor(c, steps), budget, turns, cs)
        && turns[0] == published && turns[|cs|] == traded
  }

  lemma MeasuresAre(c: Context, n: Notes, budget: nat, ch: Choices, steps: seq<Step>)
    requires ChoicesFit(c, n, budget, ch) && InParts(c, budget, ch, steps)
    ensures LevelsFor(c, steps) == UrgencyAfterAccepts(c, budget)
    ensures WantsFor(c, steps) == WantedAt(c, budget, ch.picks)
    ensures AllWanted(WantedAt(c, budget, ch.picks), ch.candidates)
  {
    hide Balance, AcceptStage, AdStage, WantedOf, UrgencyOf, PullStage, ExcessStage, ProposeStage, LateStage, PicksFit, GiftFits, CandidatesFit;
  }

  lemma PartsProposeRightly(c: Context, n: Notes, budget: nat, ch: Choices, steps: seq<Step>)
    requires c.known == n.model.Live() && ChoicesFit(c, n, budget, ch) && InParts(c, budget, ch, steps)
    ensures ProposesRightly(c, n, steps, budget)
  {
    var d, u, wanted := AdStage(c, budget, ch.picks), UrgencyAfterAccepts(c, budget), WantedAt(c, budget, ch.picks);
    StageSums(c, n, budget, ch);
    MeasuresAre(c, n, budget, ch, steps);
    if c.Outgoing() >= c.s.rules.maxOpenOffers { NoRoomNoOffers(c, d, u, wanted, ch.candidates); }
    StageAdds(c, budget, ch);
    hide AcceptStage, PullStage, ExcessStage, AdStage, LateStage, WantedAt, UrgencyAfterAccepts, Balance, Ranked, PricedPosts, KeepOffers,
         ProposePass, PicksFit, GiftFits, LevelsFor, WantsFor, Pending, InRank, Through;
    if c.Outgoing() < c.s.rules.maxOpenOffers {
      var turns := CandidatesHaveTurns(c, u, wanted, d, budget, ch.candidates);
      assert CandidatesFit(c, n, budget, ch);
    }
  }

  // ---- aid -----------------------------------------------------------------------------------------------

  predicate IsRelief(x: Step) { x.Post? && x.purpose == Relief }

  predicate IsLotTo(x: Step, p: StationId, r: Resource) { x.Post? && x.purpose == Excess && x.recipient == p && x.pay == r }

  predicate HelpedLately(c: Context, n: Notes, batch: seq<Step>, p: StationId, r: Resource) {
    || (exists x :: x in batch && IsLotTo(x, p, r))
    || ((p, r) in n.gifts && c.s.tick - n.gifts[(p, r)] < 5)
  }

  /** A live planet that has sought `r` for four ticks, of which we have surplus and have given
      it none for five ticks. */
  predicate Suffers(c: Context, n: Notes, batch: seq<Step>, p: StationId, r: Resource) {
    && p in n.model.stations && !n.model.stations[p].failed && LongestStreak(n, p, r) >= 4
    && Balance(c, batch).Get(r) > c.reserve.Get(r) && !HelpedLately(c, n, batch, p, r)
  }

  ghost predicate SuffersMost(c: Context, n: Notes, batch: seq<Step>, p: StationId, r: Resource) {
    && Suffers(c, n, batch, p, r)
    && forall q, x {:trigger Suffers(c, n, batch, q, x)} :: Suffers(c, n, batch, q, x) ==> LongestStreak(n, q, x) <= LongestStreak(n, p, r)
  }

  /** After the accepts every resource was comfortably above what makes it urgent. */
  predicate NothingUrgent(c: Context, steps: seq<Step>) {
    forall r: Resource ::
      var have := Balance(c, Through(steps, 0)).Get(r);
      have >= 20 && have >= c.s.me.upkeep.Get(r) && have >= c.reserve.Get(r)
  }

  /** A command, an open offer and some lifetime to spare, nothing urgent, and production to spare. */
  predicate CanHelp(c: Context, batch: seq<Step>, budget: nat) {
    && |batch| < budget && c.Outgoing() + Posts(batch) < c.s.rules.maxOpenOffers && Expiry(c) > c.s.tick
    && NothingUrgent(c, batch) && PaysFreely(c, Balance(c, batch))
  }

  function AidFor(c: Context, batch: seq<Step>, p: StationId, r: Resource): Step {
    Post(Relief, p, r, Max(1, Less(Balance(c, batch).Get(r), c.reserve.Get(r)) / 5), r, 0, Expiry(c))
  }

  /** Production stays free of the guard after the gift. */
  predicate SparesAid(c: Context, batch: seq<Step>, p: StationId, r: Resource) {
    PaysFreely(c, Balance(c, batch).Monus(Bundle.Single(r, AidFor(c, batch, p, r).give)))
  }

  /** The last step is a gift to a planet that suffers most exactly when we can help one that the
      gift may go to: a gift is right in every detail, and none is withheld. */
  ghost predicate GivesAid(c: Context, n: Notes, steps: seq<Step>, budget: nat) {
    var batch := Through(steps, 4);
    && (forall x :: x in batch ==> !IsRelief(x))
    && (steps != batch ==>
          exists p, r ::
            && CanHelp(c, batch, budget) && SuffersMost(c, n, batch, p, r) && SparesAid(c, batch, p, r)
            && steps == batch + [AidFor(c, batch, p, r)])
    && (steps == batch ==>
          || !CanHelp(c, batch, budget) || (forall p, r :: !Suffers(c, n, batch, p, r))
          || (exists p, r :: SuffersMost(c, n, batch, p, r) && !SparesAid(c, batch, p, r)))
  }

  lemma {:induction false} LoggedInNumbers(c: Context, n: Notes, batch: seq<Step>, p: StationId, r: Resource)
    requires forall x :: x in batch ==> !IsRelief(x)
    ensures var log := GiftLog(n.gifts, batch, c.s.tick);
            HelpedLately(c, n, batch, p, r) <==> (p, r) in log && c.s.tick - log[(p, r)] < 5
  {
    if batch != [] {
      var front, last := batch[..|batch| - 1], batch[|batch| - 1];
      assert batch == front + [last];
      assert last in batch && !IsRelief(last);
      LoggedInNumbers(c, n, front, p, r);
      assert (exists x :: x in batch && IsLotTo(x, p, r)) <==> (exists x :: x in front && IsLotTo(x, p, r)) || IsLotTo(last, p, r);
    }
  }

  lemma SuffersIsDistress(c: Context, n: Notes, batch: seq<Step>, p: StationId, r: Resource)
    requires forall x :: x in batch ==> !IsRelief(x)
    ensures Suffers(c, n, batch, p, r)
       <==> InDistress(n.(gifts := GiftLog(n.gifts, batch, c.s.tick)), Balance(c, batch).Monus(c.reserve), c.s.tick, p, r)
  {
    LoggedInNumbers(c, n, batch, p, r);
    hide HelpedLately, GiftLog, Balance;
  }

  lemma CalmInNumbers(c: Context, steps: seq<Step>)
    ensures AllCalm(c.Urgent(Balance(c, Through(steps, 0)))) <==> NothingUrgent(c, steps)
  {
    var u := c.Urgent(Balance(c, Through(steps, 0)));
    hide Balance, UrgencyOf;
    assert forall r :: Level(u, r) == Calm <==> (var have := Balance(c, Through(steps, 0)).Get(r);
        have >= 20 && have >= c.s.me.upkeep.Get(r) && have >= c.reserve.Get(r));
    hide UrgencyAt;
    if AllCalm(u) {
      forall r: Resource ensures Level(u, r) == Calm { match r case Water => case Food => case Components => }
    }
  }

  lemma UrgencyIsMeasured(c: Context, n: Notes, budget: nat, ch: Choices, steps: seq<Step>)
    requires c.known == n.model.Live() && ChoicesFit(c, n, budget, ch) && InParts(c, budget, ch, steps)
    ensures AllCalm(UrgencyForAid(c, budget, ch)) <==> NothingUrgent(c, steps)
  {
    CalmInNumbers(c, steps);
    if TakesDeferred(ProposeStage(c, budget, ch)) { DeferredOnlyWhenIdle(c, n, budget, ch); }
    hide ChoicesFit, ProposeStage, AcceptStage, PullStage, ExcessStage, AdStage, LateStage, Balance, UrgencyOf, NothingUrgent, Planned;
  }

  /** The choice of a recipient, and what the reserve and the balance say of it. */
  lemma AidChosen(c: Context, n: Notes, batch: seq<Step>, u: Urgencies, gift: Option<Gift>)
    requires forall x :: x in batch ==> !IsRelief(x)
    requires Scanned(n.(gifts := GiftLog(n.gifts, batch, c.s.tick)), Balance(c, batch).Monus(c.reserve), u, c.s.tick, gift) && AllCalm(u)
    ensures gift.None? ==> forall p, r :: !Suffers(c, n, batch, p, r)
    ensures gift.Some? ==>
              var g := gift.value;
              SuffersMost(c, n, batch, g.station, g.resource)
              && g.quantity == AidFor(c, batch, g.station, g.resource).give
  {
    forall p, r
      ensures Suffers(c, n, batch, p, r)
         <==> InDistress(n.(gifts := GiftLog(n.gifts, batch, c.s.tick)), Balance(c, batch).Monus(c.reserve), c.s.tick, p, r)
    {
      SuffersIsDistress(c, n, batch, p, r);
    }
    hide GiftLog, Balance, HelpedLately;
    if gift.Some? {
      var g := gift.value;
      assert Suffers(c, n, batch, g.station, g.resource);
      SurplusIsLess(Balance(c, batch), c.reserve, g.resource);
    }
  }

  lemma SurplusIsLess(stock: Bundle, reserve: Bundle, r: Resource)
    ensures stock.Monus(reserve).Get(r) == Less(stock.Get(r), reserve.Get(r))
  {
  }

  lemma AidAllowed(c: Context, d: Draft)
    requires Balance(c, d.steps).Dominates(c.reserve) && c.OfferLifetime() == Expiry(c) - c.s.tick
    ensures CanAid(c, d) <==> PaysFreely(c, Balance(c, d.steps)) && d.budget > 0 && c.Outgoing() + Posts(d.steps) < c.s.rules.maxOpenOffers
  {
    CoveredHolding(Balance(c, d.steps), c.reserve);
    LimitInNumbers(c, Balance(c, d.steps));
    hide Balance, PaymentLimitFor, PaysFreely, Posts, KeepOffers;
  }

  lemma LifetimeIs(c: Context)
    ensures c.OfferLifetime() == Expiry(c) - c.s.tick
  {
  }

  lemma AidPosted(c: Context, d: Draft, g: Gift)
    requires CanAid(c, d) && Balance(c, d.steps).Dominates(c.reserve) && g.quantity == AidFor(c, d.steps, g.station, g.resource).give
    ensures ReliefPass(c, d, Some(g)).steps
         == if Expiry(c) > c.s.tick && SparesAid(c, d.steps, g.station, g.resource) then d.steps + [AidFor(c, d.steps, g.station, g.resource)]
            else d.steps
  {
    LifetimeIs(c);
    AidIsBudget(c, d);
    CoveredHolding(Balance(c, d.steps), c.reserve);
    LimitInNumbers(c, Balance(c, d.steps).Monus(Bundle.Single(g.resource, g.quantity)));
    hide Balance, PaymentLimitFor, PaysFreely, CanAid;
  }

  lemma PartsGiveAid(c: Context, n: Notes, budget: nat, ch: Choices)
    requires c.known == n.model.Live() && ChoicesFit(c, n, budget, ch) && (forall r :: c.reserve.Get(r) <= MAX_RESERVE_UNITS)
    requires InParts(c, budget, ch, PlanOf(c, budget, ch).steps)
    ensures GivesAid(c, n, PlanOf(c, budget, ch).steps, budget)
  {
    var steps, late := PlanOf(c, budget, ch).steps, LateStage(c, budget, ch);
    var batch := Through(steps, 4);
    LateStageKeeps(c, n, budget, ch);
    UrgencyIsMeasured(c, n, budget, ch, steps);
    NoReliefYet(late.steps);
    LifetimeIs(c);
    assert GiftFits(c, n, budget, ch);
    if NothingUrgent(c, steps) { ReserveCovered(c, n, budget, ch); }
    hide PicksFit, CandidatesFit, AcceptStage, PullStage, ExcessStage, AdStage, ProposeStage, LateStage, Planned, Balance, GiftLog, Usable,
         UrgencyForAid, CanAid, Posts, PaysFreely, KeepOffers, ReliefPass, Suffers, SparesAid, NothingUrgent, AidFor, SuffersMost;
    assert batch == late.steps;
    if NothingUrgent(c, steps) {
      AidAllowed(c, late);
      UrgencyUpTo(c, steps, batch);
      if CanAid(c, late) {
        AidChosen(c, n, batch, UrgencyForAid(c, budget, ch), ch.gift);
        if ch.gift.Some? { AidPosted(c, late, ch.gift.value); } else { NoGiftNoAid(c, late); }
      } else {
        NoGiftNoAid(c, late);
      }
    } else {
      UrgencyUpTo(c, steps, batch);
      NoGiftNoAid(c, late);
    }
  }

  lemma NoGiftNoAid(c: Context, d: Draft)
    ensures ReliefPass(c, d, None) == d
  {
  }

  lemma UrgencyUpTo(c: Context, steps: seq<Step>, batch: seq<Step>)
    requires batch == Through(steps, 4)
    ensures NothingUrgent(c, batch) <==> NothingUrgent(c, steps)
  {
    ThroughLess(steps, 0, 4);
  }

  lemma {:induction false} ThroughLess(steps: seq<Step>, low: nat, high: nat)
    requires low <= high
    ensures Through(Through(steps, high), low) == Through(steps, low)
  {
    if steps != [] && steps[|steps| - 1].Stage() > high { ThroughLess(steps[..|steps| - 1], low, high); }
  }

  lemma NoReliefYet(steps: seq<Step>)
    requires UpTo(steps, 4)
    ensures forall x :: x in steps ==> !IsRelief(x)
  {
  }

  // ---- the whole batch -----------------------------------------------------------------------------------

  /** Everything a decision should do with the commands it has, it does. */
  ghost predicate Thorough(c: Context, n: Notes, steps: seq<Step>, budget: nat) {
    && TakesRightly(c, steps, budget) && WithdrawsRightly(c, steps, budget) && GivesLots(c, n, steps, budget)
    && Advertises(c, steps, budget) && ProposesRightly(c, n, steps, budget) && GivesAid(c, n, steps, budget)
  }

  lemma OnlyTakesIsThorough(c: Context, n: Notes, steps: seq<Step>, budget: nat)
    requires OnlyTakes(steps, budget) && TakesRightly(c, steps, budget)
    ensures Thorough(c, n, steps, budget)
  {
    TakesAreTheirOwnPart(steps);
    NoTurnsLeft(c, steps, budget);
    NoLotsLeft(c, n, steps, budget);
    NoReliefYet(steps);
    hide Through, Balance, WithdrawsRightly, GivesLots, SlotUse, WantedOf, Ranked, Suffers, AidFor, TakesRightly;
  }

  /** Whatever choices the memory allows, nothing due is left out of the batch. */
  lemma NothingDueIsSkipped(c: Context, n: Notes, budget: nat, ch: Choices)
    requires c.known == n.model.Live() && ChoicesFit(c, n, budget, ch) && (forall r :: c.reserve.Get(r) <= MAX_RESERVE_UNITS)
    ensures Thorough(c, n, PlanOf(c, budget, ch).steps, budget)
  {
    PlanHasParts(c, n, budget, ch);
    TurnsTaken(c, n, budget, ch);
    var steps := PlanOf(c, budget, ch).steps;
    hide ChoicesFit, InParts, TakesRightly, WithdrawsRightly, GivesLots, Advertises, ProposesRightly, GivesAid;
    if InParts(c, budget, ch, steps) {
      PartsWithdrawRightly(c, n, budget, ch, steps);
      PartsGiveLots(c, n, budget, ch, steps);
      PartsAdvertise(c, n, budget, ch, steps);
      PartsProposeRightly(c, n, budget, ch, steps);
      PartsGiveAid(c, n, budget, ch);
    } else {
      OnlyTakesIsThorough(c, n, steps, budget);
    }
  }
}
