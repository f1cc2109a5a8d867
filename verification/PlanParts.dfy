/** A finished batch seen as its parts, one for each stage of the decision. */
module PlanParts {
  import opened Domain
  import opened Counterparties
  import opened EngineInvariant
  import opened Memory
  import opened Reserves
  import opened Advertising
  import opened Altruism
  import opened Targeting
  import opened Planner
  import opened PlannerSafety
  import opened PlannerStages
  import opened PlannerProof

  // ---- the parts of a batch --------------------------------------------------------------------

  /** The batch up to its last step of a stage. */
  function Through(steps: seq<Step>, stage: nat): (part: seq<Step>)
    ensures part <= steps
  {
    if steps == [] || steps[|steps| - 1].Stage() <= stage then steps else Through(steps[..|steps| - 1], stage)
  }

  /** A stage appends steps of its own. */
  ghost predicate AddsAt(a: seq<Step>, b: seq<Step>, stage: nat) {
    a <= b && forall i :: |a| <= i < |b| ==> b[i].Stage() == stage
  }

  lemma {:induction false} ThroughStops(a: seq<Step>, b: seq<Step>, stage: nat)
    requires UpTo(a, stage) && a <= b && forall i :: |a| <= i < |b| ==> b[i].Stage() > stage
    ensures Through(b, stage) == a
  {
    if |a| == |b| {
      assert a == b;
      if b != [] { assert b[|b| - 1] in a; }
    } else {
      ThroughStops(a, b[..|b| - 1], stage);
    }
  }

  lemma {:induction false} AcceptAdds(c: Context, d: Draft, hold: Option<Resource>, offers: seq<Offer>)
    requires AllOurs(c, offers) && AllOurs(c, d.deferred)
    ensures AddsAt(d.steps, AcceptPass(c, d, hold, offers).steps, 0)
  {
    if offers != [] {
      hide Acceptable, HeldBack;
      AcceptAdds(c, d, hold, offers[..|offers| - 1]);
    }
  }

  lemma {:induction false} PullAdds(c: Context, d: Draft, offers: seq<Offer>)
    ensures AddsAt(d.steps, PullPass(c, d, offers).steps, 1)
  {
    if offers != [] {
      hide Dangerous;
      PullAdds(c, d, offers[..|offers| - 1]);
    }
  }

  lemma {:induction false} LotAdds(c: Context, d: Draft, excess: Bundle, order: seq<Resource>, picks: seq<Option<StationId>>)
    requires |picks| <= |order|
    ensures AddsAt(d.steps, ExcessPass(c, d, excess, order, picks).steps, 2)
  {
    if picks != [] {
      hide CanGive;
      LotAdds(c, d, excess, order, picks[..|picks| - 1]);
      assert CanGive(c, ExcessPass(c, d, excess, order, picks[..|picks| - 1]), excess, order[|picks| - 1]) ==>
          ExcessPass(c, d, excess, order, picks[..|picks| - 1]).budget > 0 by { RoomIsBudget(c); }
    }
  }

  lemma RoomIsBudget(c: Context)
    ensures forall d, excess, r :: CanGive(c, d, excess, r) ==> d.budget > 0
  {
  }

  lemma AdAdds(c: Context, d: Draft, excess: Bundle, deficit: Bundle, critical: set<Resource>)
    ensures AddsAt(d.steps, AdPass(c, d, excess, deficit, critical).steps, 3)
  {
    hide WantedOf, Balance, ComfortablySupplied, DecideAdvertisement, AdvertisedSurplus, AdvertisedNeed;
  }

  lemma {:induction false} TradeAdds(c: Context, d: Draft, u: Urgencies, wanted: Wanted, cs: seq<Candidate>)
    requires AllWanted(wanted, cs)
    ensures AddsAt(d.steps, ProposePass(c, d, u, wanted, cs).steps, 4)
  {
    if cs != [] {
      var front, last := cs[..|cs| - 1], cs[|cs| - 1];
      TradeAdds(c, d, u, wanted, front);
      var y := ProposePass(c, d, u, wanted, front);
      TradeAddsOne(c, y, u, wanted, last);
      hide Proposed;
      AddsMore(d.steps, y.steps, Proposed(c, y, u, wanted, last).steps, 4);
    }
  }

  lemma TradeAddsOne(c: Context, d: Draft, u: Urgencies, wanted: Wanted, x: Candidate)
    requires x.want in wanted
    ensures AddsAt(d.steps, Proposed(c, d, u, wanted, x).steps, 4)
  {
    hide TermsFor, PricedPosts, KeepOffers;
  }

  lemma AddsMore(a: seq<Step>, b: seq<Step>, e: seq<Step>, stage: nat)
    requires AddsAt(a, b, stage) && AddsAt(b, e, stage)
    ensures AddsAt(a, e, stage)
  {
  }

  lemma ReliefAdds(c: Context, d: Draft, gift: Option<Gift>)
    ensures AddsAt(d.steps, ReliefPass(c, d, gift).steps, 5)
  {
    hide CanAid, PaymentLimitFor;
    assert CanAid(c, d) ==> d.budget > 0 by { AidIsBudget(c, d); }
  }

  lemma AidIsBudget(c: Context, d: Draft)
    ensures CanAid(c, d) ==> d.budget > 0
  {
  }

  /** Nothing is left of the budget, and nothing but accepts was planned. */
  predicate OnlyTakes(steps: seq<Step>, budget: nat) { |steps| == budget && UpTo(steps, 0) }

  /** The parts of the batch are what the stages left, and each command was paid from the budget. */
  ghost predicate InParts(c: Context, budget: nat, ch: Choices, steps: seq<Step>)
    requires Usable(c, budget, ch)
  {
    var d := ProposeStage(c, budget, ch);
    && d.steps <= steps && LateStage(c, budget, ch).steps == d.steps && |d.steps| + LateStage(c, budget, ch).budget == budget
    && Through(steps, 0) == AcceptStage(c, budget).steps && |Through(steps, 0)| + AcceptStage(c, budget).budget == budget
    && Through(steps, 1) == PullStage(c, budget).steps && |Through(steps, 1)| + PullStage(c, budget).budget == budget
    && Through(steps, 2) == ExcessStage(c, budget, ch.picks).steps && |Through(steps, 2)| + ExcessStage(c, budget, ch.picks).budget == budget
    && Through(steps, 3) == AdStage(c, budget, ch.picks).steps && |Through(steps, 3)| + AdStage(c, budget, ch.picks).budget == budget
    && Through(steps, 4) == d.steps
  }

  lemma StageSums(c: Context, n: Notes, budget: nat, ch: Choices)
    requires c.known == n.model.Live() && ChoicesFit(c, n, budget, ch)
    ensures |AcceptStage(c, budget).steps| + AcceptStage(c, budget).budget == budget && UpTo(AcceptStage(c, budget).steps, 0)
    ensures Continues(AcceptStage(c, budget), PullStage(c, budget))
    ensures Continues(PullStage(c, budget), ExcessStage(c, budget, ch.picks))
    ensures Continues(ExcessStage(c, budget, ch.picks), AdStage(c, budget, ch.picks))
    ensures Continues(AdStage(c, budget, ch.picks), ProposeStage(c, budget, ch))
    ensures Continues(ProposeStage(c, budget, ch), LateStage(c, budget, ch))
  {
    PicksKnown(c, n, budget, ch);
    AcceptStageKeeps(c, budget);
    PullStageKeeps(c, budget);
    ExcessStageKeeps(c, budget, ch.picks);
    AdStageKeeps(c, budget, ch.picks);
    ProposeStageKeeps(c, n, budget, ch);
    LateStageKeeps(c, n, budget, ch);
    hide ChoicesFit, Planned, AcceptPass, PullPass, ExcessPass, AdPass, ProposePass, LateStage, ExcessStage, AdStage, ProposeStage, PullStage, AcceptStage;
  }

  lemma StageAdds(c: Context, budget: nat, ch: Choices)
    requires Usable(c, budget, ch)
    ensures AddsAt(AcceptStage(c, budget).steps, PullStage(c, budget).steps, 1)
    ensures AddsAt(PullStage(c, budget).steps, ExcessStage(c, budget, ch.picks).steps, 2)
    ensures AddsAt(ExcessStage(c, budget, ch.picks).steps, AdStage(c, budget, ch.picks).steps, 3)
    ensures AddsAt(AdStage(c, budget, ch.picks).steps, ProposeStage(c, budget, ch).steps, 4)
    ensures AddsAt(LateStage(c, budget, ch).steps, PlanOf(c, budget, ch).steps, 5)
  {
    hide AcceptStage, AcceptPass, PullPass, ExcessPass, AdPass, ProposePass, ReliefPass, ExcessAt, DeficitAfterAccepts, UrgencyAfterAccepts, ExcessOrder, LateStage, AddsAt;
    PullAdds(c, AcceptStage(c, budget), c.s.OutgoingOpen());
    LotAdds(c, PullStage(c, budget), ExcessAt(c, budget), ExcessOrder(ExcessAt(c, budget)), ch.picks);
    AdAdds(c, ExcessStage(c, budget, ch.picks), ExcessAt(c, budget), DeficitAfterAccepts(c, budget), CriticalIn(UrgencyAfterAccepts(c, budget)));
    TradeAdds(c, AdStage(c, budget, ch.picks), UrgencyAfterAccepts(c, budget), WantedAt(c, budget, ch.picks), ch.candidates);
    ReliefAdds(c, LateStage(c, budget, ch), ch.gift);
  }

  lemma FiveParts(a: seq<Step>, b: seq<Step>, e: seq<Step>, f: seq<Step>, g: seq<Step>, h: seq<Step>)
    requires UpTo(a, 0) && AddsAt(a, b, 1) && AddsAt(b, e, 2) && AddsAt(e, f, 3) && AddsAt(f, g, 4) && AddsAt(g, h, 5)
    ensures g <= h && Through(h, 0) == a && Through(h, 1) == b && Through(h, 2) == e && Through(h, 3) == f && Through(h, 4) == g
  {
    Chain(a, b, 0);
    Chain(b, e, 1);
    Chain(e, f, 2);
    Chain(f, g, 3);
    forall i | |a| <= i < |h| ensures h[i].Stage() > 0 && (i >= |b| ==> h[i].Stage() > 1) && (i >= |e| ==> h[i].Stage() > 2)
      && (i >= |f| ==> h[i].Stage() > 3) && (i >= |g| ==> h[i].Stage() > 4)
    {
    }
    ThroughStops(a, h, 0);
    ThroughStops(b, h, 1);
    ThroughStops(e, h, 2);
    ThroughStops(f, h, 3);
    ThroughStops(g, h, 4);
  }

  lemma Chain(a: seq<Step>, b: seq<Step>, stage: nat)
    requires UpTo(a, stage) && AddsAt(a, b, stage + 1)
    ensures UpTo(b, stage + 1)
  {
    forall x | x in b ensures x.Stage() <= stage + 1 {
      var i :| 0 <= i < |b| && b[i] == x;
      if i < |a| { assert a[i] in a; }
    }
  }

  lemma TakesAreTheirOwnPart(steps: seq<Step>)
    requires UpTo(steps, 0)
    ensures forall j: nat :: Through(steps, j) == steps
  {
    if steps != [] { assert steps[|steps| - 1] in steps; }
  }

  lemma NoAidAfter(c: Context, d: Draft, gift: Option<Gift>)
    requires d.budget == 0
    ensures ReliefPass(c, d, gift) == d
  {
    AidIsBudget(c, d);
    hide CanAid;
  }

  lemma LookTookLast(c: Context, n: Notes, budget: nat, ch: Choices)
    requires c.known == n.model.Live() && ChoicesFit(c, n, budget, ch)
    requires TakesDeferred(ProposeStage(c, budget, ch)) && LateStage(c, budget, ch).budget == 0
    ensures OnlyTakes(PlanOf(c, budget, ch).steps, budget)
  {
    var d, late := ProposeStage(c, budget, ch), LateStage(c, budget, ch);
    StageSums(c, n, budget, ch);
    DeferredOnlyWhenIdle(c, n, budget, ch);
    LookAddsTakes(c, d);
    NoAidAfter(c, late, ch.gift);
    hide ChoicesFit, ProposeStage, AcceptStage, Planned, AcceptPass, ReliefPass, AdStage, ExcessStage, PullStage;
    Chain0(AcceptStage(c, budget).steps, late.steps);
  }

  /** Drafts that follow one another pay for every step from one budget. */
  lemma SharedBudget(a: Draft, b: Draft, e: Draft, f: Draft, g: Draft, h: Draft, budget: nat)
    requires |a.steps| + a.budget == budget
    requires Continues(a, b) && Continues(b, e) && Continues(e, f) && Continues(f, g) && Continues(g, h)
    ensures |b.steps| + b.budget == |e.steps| + e.budget == |f.steps| + f.budget == |g.steps| + g.budget == |h.steps| + h.budget == budget
  {
  }

  lemma LateIsProposed(c: Context, n: Notes, budget: nat, ch: Choices)
    requires c.known == n.model.Live() && ChoicesFit(c, n, budget, ch)
    requires !(TakesDeferred(ProposeStage(c, budget, ch)) && LateStage(c, budget, ch).budget == 0)
    ensures LateStage(c, budget, ch).steps == ProposeStage(c, budget, ch).steps
  {
    LateStageKeeps(c, n, budget, ch);
    hide ChoicesFit, ProposeStage, Planned, Continues, UpTo, AcceptPass;
  }

  lemma StagesAreParts(c: Context, n: Notes, budget: nat, ch: Choices)
    requires c.known == n.model.Live() && ChoicesFit(c, n, budget, ch)
    requires LateStage(c, budget, ch).steps == ProposeStage(c, budget, ch).steps
    ensures Usable(c, budget, ch) && InParts(c, budget, ch, PlanOf(c, budget, ch).steps)
  {
    assert Usable(c, budget, ch);
    hide ChoicesFit, Usable, AcceptStage, PullStage, ExcessStage, AdStage, ProposeStage, LateStage, PlanOf, AddsAt, Through, Continues, UpTo;
    StageSums(c, n, budget, ch);
    StageAdds(c, budget, ch);
    SharedBudget(AcceptStage(c, budget), PullStage(c, budget), ExcessStage(c, budget, ch.picks), AdStage(c, budget, ch.picks),
                 ProposeStage(c, budget, ch), LateStage(c, budget, ch), budget);
    FiveParts(AcceptStage(c, budget).steps, PullStage(c, budget).steps, ExcessStage(c, budget, ch.picks).steps,
              AdStage(c, budget, ch.picks).steps, ProposeStage(c, budget, ch).steps, PlanOf(c, budget, ch).steps);
  }

  /** Either the second look took the last command, or the parts are the stages'. */
  lemma PlanHasParts(c: Context, n: Notes, budget: nat, ch: Choices)
    requires c.known == n.model.Live() && ChoicesFit(c, n, budget, ch)
    ensures Usable(c, budget, ch)
    ensures InParts(c, budget, ch, PlanOf(c, budget, ch).steps) || OnlyTakes(PlanOf(c, budget, ch).steps, budget)
  {
    assert Usable(c, budget, ch);
    hide ChoicesFit, Usable, ProposeStage, LateStage, InParts, OnlyTakes, PlanOf;
    if TakesDeferred(ProposeStage(c, budget, ch)) && LateStage(c, budget, ch).budget == 0 {
      LookTookLast(c, n, budget, ch);
    } else {
      LateIsProposed(c, n, budget, ch);
      StagesAreParts(c, n, budget, ch);
    }
  }

  lemma LookAddsTakes(c: Context, d: Draft)
    requires AllOurs(c, d.deferred) && TakesDeferred(d)
    ensures AddsAt(d.steps, DeferredStage(c, d).steps, 0)
  {
    AcceptAdds(c, d.(deferred := []), None, d.deferred);
  }

  lemma Chain0(a: seq<Step>, b: seq<Step>)
    requires UpTo(a, 0) && AddsAt(a, b, 0)
    ensures UpTo(b, 0)
  {
    forall x | x in b ensures x.Stage() <= 0 {
      var i :| 0 <= i < |b| && b[i] == x;
      if i < |a| { assert a[i] in a; }
    }
  }
}
