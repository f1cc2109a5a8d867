/** A player's turn against the economy: observe, decide, apply. */
module Turns {
  import opened Domain
  import opened Stations
  import opened Counterparties
  import opened Memory
  import opened Reserves
  import opened Engine
  import opened EngineInvariant
  import opened EngineRuns
  import opened Economy
  import opened Commitments
  import opened Altruism
  import opened Targeting
  import opened Planner
  import opened PlannerSafety
  import opened Deciding
  import opened Contract

  function Others(w: World, me: StationId): set<StationId> { w.stations.Keys - {me} }

  /** Everything the economy shows a station concerns stations of its roster. */
  lemma ShownParties(w: World, f: Founding, me: StationId, sequence: nat, phase: Phase, results: seq<CommandResult>)
    requires Inv(w, f) && me in w.stations
    ensures PartiesIn(ObservationFor(w, me, sequence, phase, results), Others(w, me))
  {
    var s := ObservationFor(w, me, sequence, phase, results);
    forall t | t in s.transactions ensures TradeParties(t, me, Others(w, me)) {
      assert DealBacked(w.offers, t);
      var o :| o in w.offers && Records(o, t);
    }
    forall o | o in s.offers ensures OfferParties(o, me, Others(w, me)) {
      assert o in w.offers;
    }
  }

  lemma ObservedModel(n: Notes, s: Snapshot)
    ensures Memory.Observed(n, s).model == Updated(n.model, s)
  {
    RoundTripsMeasure(n.(model := Updated(n.model, s)), s, s.transactions);
  }

  /** A memory built from this roster's snapshots keeps naming only the others. */
  lemma MemoryStaysWithin(n: Notes, w: World, f: Founding, s: Snapshot)
    requires Inv(w, f) && s.self in w.stations && s == ObservationFor(w, s.self, s.sequence, s.phase, s.results)
    requires n.model.stations.Keys <= Others(w, s.self)
    ensures Memory.Observed(n, s).model.stations.Keys <= Others(w, s.self)
  {
    ShownParties(w, f, s.self, s.sequence, s.phase, s.results);
    KnowsOnly(n.model, s, Others(w, s.self));
    ObservedModel(n, s);
  }

  lemma DecisionMadeFrom(n: Notes, w: World, f: Founding, s: Snapshot)
    requires Inv(w, f) && s.self in w.stations && s == ObservationFor(w, s.self, s.sequence, Running, s.results)
    requires n.model.stations.Keys <= Others(w, s.self) && CountOf(w.counts, s.self) == 0
    requires !s.me.failed && s.tick < s.rules.durationTicks
    ensures MadeFrom(ContextFor(n, s, []), w, f)
  {
    MemoryStaysWithin(n, w, f, s);
  }

  predicate Excusable(code: ResultCode) { code == InsufficientResources || code == StationFailed || code == LimitReached }

  lemma {:induction false} OnlyExcusable(c: Context, w: World, f: Founding, steps: seq<Step>, k: nat)
    requires MadeFrom(c, w, f) && Planned(c, steps) && |steps| <= w.rules.commandsPerTick && k <= |steps|
    ensures forall x :: x in Rejected(w, c.s.self, Actions(steps)[..k]) ==>
              x.0 == c.s.self && Excusable(x.1) && (|steps| <= 1 ==> x.1 != LimitReached)
  {
    hide Inv, MadeFrom, Planned, Batch, Allowed, Try;
    if k > 0 {
      OnlyExcusable(c, w, f, steps, k - 1);
      PlannerMeetsEngine(c, w, f, steps, k - 1);
      var v := Batch(w, c.s.self, Actions(steps)[..k - 1]);
      if Try(v, c.s.self, steps[k - 1].ToAction()).1.code != Ok {
        AllowedIsExcusable(c, v, steps[..k - 1], steps[k - 1], Try(v, c.s.self, steps[k - 1].ToAction()).1.code);
      }
      BatchSnoc(w, c.s.self, Actions(steps), k - 1);
    }
  }

  lemma AllowedIsExcusable(c: Context, v: World, prefix: seq<Step>, step: Step, code: ResultCode)
    requires Allowed(c, v, prefix, step, code) && code != Ok
    ensures Excusable(code) && (prefix == [] ==> code != LimitReached)
  {
  }

  lemma RefreshedKeeps(n: Notes, s: Snapshot, available: Bundle)
    ensures Refreshed(n, s, available).blockedUntil == n.blockedUntil
    ensures Refreshed(n, s, available).model == Memory.Observed(n, s).model
    ensures MayTrade(Refreshed(n, s, available), s) == MayTrade(n, s)
  {
    RoundTripsMeasure(n.(model := Updated(n.model, s)), s, s.transactions);
  }

  predicate FromMe(refused: seq<(StationId, ResultCode)>, me: StationId, commands: nat) {
    forall x :: x in refused ==> x.0 == me && Excusable(x.1) && (commands <= 1 ==> x.1 != LimitReached)
  }

  lemma NothingRejected(w: World, me: StationId)
    ensures Rejected(w, me, Actions([])) == []
  {
  }

  lemma ContextShows(n: Notes, s: Snapshot)
    ensures ContextFor(n, s, []).s == s
  {
  }

  lemma TurnIsExcusable(c: Context, n: Notes, w: World, f: Founding, s: Snapshot, steps: seq<Step>)
    requires Inv(w, f) && s.self in w.stations && s == ObservationFor(w, s.self, s.sequence, Running, s.results)
    requires n.model.stations.Keys <= Others(w, s.self) && CountOf(w.counts, s.self) == 0
    requires c == ContextFor(n, s, []) && Planned(c, steps) && |steps| <= w.rules.commandsPerTick
    requires !MayTrade(n, s) ==> steps == []
    ensures FromMe(Rejected(w, s.self, Actions(steps)), s.self, |steps|)
  {
    hide Inv, Planned, ContextFor, MadeFrom, Rejected;
    if steps == [] {
      NothingRejected(w, s.self);
    } else {
      DecisionMadeFrom(n, w, f, s);
      assert c.s == s by { ContextShows(n, s); }
      OnlyExcusable(c, w, f, steps, |steps|);
      assert Actions(steps)[..|steps|] == Actions(steps);
    }
  }

  /** Look at the economy and decide. */
  method DecideTurn(economy: SimulatedEconomy, me: StationId, memory: PolicyMemory, commitments: CommitmentTracker, commandBudget: Option<int>)
    returns (decision: Decision, ghost choices: Choices)
    requires economy.Valid() && me in economy.stations && economy.CountFor(me) == 0 && commitments.inflight == []
    requires memory.View().model.stations.Keys <= Others(economy.View(), me)
    requires memory !in economy.Repr() && memory.counterparties !in economy.Repr()
    modifies memory, memory.counterparties
    ensures fresh(decision)
    ensures memory.View().model.stations.Keys <= Others(economy.View(), me)
    ensures Follows(old(memory.View()), Engine.ObservationFor(economy.View(), me, 1, Running, []), [], commandBudget, decision.steps, choices)
    ensures FromMe(Rejected(economy.View(), me, Actions(decision.steps)), me, |decision.steps|)
  {
    hide Inv, Planned, PlanOf, Rejected, ContextFor, ChoicesFit, FromMe, Refreshed, Memory.Observed, ReserveOf, Available;
    ghost var w, n, f := economy.View(), memory.View(), economy.founding;
    var s := economy.ObservationFor(me, 1, Running, []);
    decision, choices := Decide(s, memory, commitments, commandBudget);
    RefreshedKeeps(n, s, decision.available);
    TurnIsExcusable(ContextFor(n, s, []), n, w, f, s, decision.steps);
    MemoryStaysWithin(n, w, f, s);
  }

  /** Observe, decide and apply: what the planner controls is never refused, whatever the
      memory learned earlier from this run, and one command at a time never meets a limit. */
  method PlayTurn(economy: SimulatedEconomy, me: StationId, memory: PolicyMemory, commitments: CommitmentTracker, commandBudget: Option<int>)
    returns (decision: Decision, ghost choices: Choices, ghost refused: seq<(StationId, ResultCode)>)
    requires economy.Valid() && me in economy.stations && economy.CountFor(me) == 0 && commitments.inflight == []
    requires memory.View().model.stations.Keys <= Others(economy.View(), me)
    requires memory !in economy.Repr() && memory.counterparties !in economy.Repr()
    modifies economy, economy.Repr(), memory, memory.counterparties
    ensures economy.Valid() && memory.View().model.stations.Keys <= Others(economy.View(), me)
    ensures economy.View() == Bumped(Batch(old(economy.View()), me, Actions(decision.steps)))
    ensures economy.rejections == old(economy.rejections) + refused && FromMe(refused, me, |decision.steps|)
    ensures Follows(old(memory.View()), Engine.ObservationFor(old(economy.View()), me, 1, Running, []), [], commandBudget, decision.steps, choices)
  {
    hide Inv, Rejected, FromMe, Batch, Engine.ObservationFor, Follows;
    ghost var w := economy.View();
    decision, choices := DecideTurn(economy, me, memory, commitments, commandBudget);
    refused := Rejected(w, me, Actions(decision.steps));
    ghost var model := memory.View().model;
    economy.Apply(me, Actions(decision.steps));
    assert memory.View().model == model;
    assert economy.View().stations.Keys == w.stations.Keys;
  }

  // ---- a rate limit is honoured ------------------------------------------------------------------

  /** What happens to a memory: a decision, or word of a rate limit. */
  datatype Touch =
    | Decided(s: Snapshot, available: Bundle, steps: seq<Step>)
    | Limited(until: Option<int>)
  {
    predicate Forbids(tick: int) { Limited? && until.Some? && tick < until.value }
  }

  function Touched(n: Notes, t: Touch): Notes {
    match t
    case Decided(s, available, steps) =>
      var seen := Refreshed(n, s, available);
      seen.(gifts := GiftLog(seen.gifts, steps, s.tick))
    case Limited(until) => n.(blockedUntil := if until.Some? then Max(n.blockedUntil, until.value) else n.blockedUntil)
  }

  function TouchedBy(n: Notes, touches: seq<Touch>): Notes {
    if touches == [] then n else Touched(TouchedBy(n, touches[..|touches| - 1]), touches[|touches| - 1])
  }

  lemma TouchBlocks(n: Notes, t: Touch, tick: int)
    ensures tick < Touched(n, t).blockedUntil <==> tick < n.blockedUntil || t.Forbids(tick)
  {
    if t.Decided? { RefreshedKeeps(n, t.s, t.available); }
  }

  lemma {:induction false} BlockedByAny(n: Notes, touches: seq<Touch>, tick: int)
    ensures tick < TouchedBy(n, touches).blockedUntil <==> tick < n.blockedUntil || exists t :: t in touches && t.Forbids(tick)
  {
    if touches != [] {
      var front, last := touches[..|touches| - 1], touches[|touches| - 1];
      assert touches == front + [last];
      BlockedByAny(n, front, tick);
      TouchBlocks(TouchedBy(n, front), last, tick);
    }
  }

  /** After any decisions and any rate limits in any order, the next decision may trade exactly
      when the run is on, we have not failed, and no rate limit ever heard of forbids this tick. */
  lemma BlocksHold(n: Notes, touches: seq<Touch>, s: Snapshot, available: Bundle)
    requires n.blockedUntil <= 0
    ensures MayTrade(Refreshed(TouchedBy(n, touches), s, available), s) <==>
              && s.phase == Running && !s.me.failed && s.tick < s.rules.durationTicks
              && forall t :: t in touches ==> !t.Forbids(s.tick)
  {
    RefreshedKeeps(TouchedBy(n, touches), s, available);
    BlockedByAny(n, touches, s.tick);
  }
}
