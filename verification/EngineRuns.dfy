/** Whole runs of the economy: any commands by anyone, any production, any number of ticks. */
module EngineRuns {
  import opened Domain
  import opened Stations
  import opened Engine
  import opened EngineInvariant

  datatype Event =
    | Command(station: StationId, action: Action)
    | Revised
    | Tick
    | Outputs(output: map<StationId, nat>)
    | Ended

  /** A command as the server forwards it: from a known station, in a sound world. */
  ghost function Try(w: World, s: StationId, a: Action): (World, Outcome) {
    if Sound(w) && s in w.stations then Execute(w, s, a) else (w, Refused(NotFound))
  }

  /** One event; the run is only ever ended once its duration is reached. */
  ghost function Step(w: World, e: Event): World {
    match e
    case Command(s, a) => Try(w, s, a).0
    case Revised => w.(version := w.version + 1)
    case Tick => Advance(w)
    case Outputs(output) => Produce(w, output)
    case Ended => if IsFinished(w) then EndRun(w) else w
  }

  lemma StepKeeps(w: World, f: Founding, e: Event)
    requires Inv(w, f)
    ensures Inv(Step(w, e), f)
  {
    match e
    case Command(s, a) => if s in w.stations { ExecuteKeeps(w, f, s, a); }
    case Revised =>
    case Tick => AdvanceKeeps(w, f);
    case Outputs(output) => ProduceKeeps(w, f, output);
    case Ended => if IsFinished(w) { EndRunKeeps(w, f); }
  }

  /** The world after a list of events. */
  ghost function Run(w: World, events: seq<Event>): World {
    if events == [] then w
    else Step(Run(w, events[..|events| - 1]), events[|events| - 1])
  }

  /** The invariant holds in every state a run passes through. */
  lemma {:induction false} RunKeeps(w: World, f: Founding, events: seq<Event>)
    requires Inv(w, f)
    ensures Inv(Run(w, events), f)
  {
    if events != [] {
      var n := |events| - 1;
      RunKeeps(w, f, events[..n]);
      StepKeeps(Run(w, events[..n]), f, events[n]);
    }
  }

  /** A world before its first tick. */
  ghost predicate Fresh(w: World, f: Founding) {
    && Distinct(w.roster) && (forall s :: s in w.roster <==> s in w.stations)
    && w.tick == 0 && w.offers == [] && w.transactions == [] && w.ads == [] && w.counts == map[]
    && w.rules.maxHealth > 0
    && f.stock.Keys == f.health.Keys == w.stations.Keys
    && (forall s :: s in w.stations ==>
          var x := w.stations[s];
          && 0 < x.health <= w.rules.maxHealth
          && x == Founded(x.specialty, f.stock[s], x.production, x.upkeep, f.health[s]))
  }

  lemma FreshIsKept(w: World, f: Founding)
    requires Fresh(w, f)
    ensures Inv(w, f)
  {
    forall s | s in w.stations
      ensures BookedFor(w.stations, w.transactions, s)
      ensures AccountedFor(w.stations, w.rules, w.tick, f, s)
    {
      var x := w.stations[s];
      FoundedAccounts(x.specialty, f.stock[s], x.production, x.upkeep, f.health[s], w.rules);
    }
  }

  // ---- settlement ---------------------------------------------------------------

  predicate SameTerms(a: Offer, b: Offer) {
    a == b.(status := a.status, closedTick := a.closedTick, transaction := a.transaction)
  }

  /** Terms never change, a closed offer never changes again, trades are only added. */
  ghost predicate Evolves(w: World, v: World) {
    && |w.offers| <= |v.offers| && w.transactions <= v.transactions
    && w.tick <= v.tick && w.rules == v.rules && w.stations.Keys == v.stations.Keys
    && w.nextId <= v.nextId
    && forall i :: 0 <= i < |w.offers| ==>
         SameTerms(v.offers[i], w.offers[i]) && (w.offers[i].status != Open ==> v.offers[i] == w.offers[i])
  }

  lemma StepEvolves(w: World, f: Founding, e: Event)
    requires Inv(w, f)
    ensures Evolves(w, Step(w, e))
  {
    match e
    case Command(s, a) => if s in w.stations { ExecuteEvolves(w, f, s, a); }
    case Revised =>
    case Tick => AdvanceEvolves(w);
    case Outputs(output) =>
    case Ended =>
  }

  lemma AdvanceEvolves(w: World)
    ensures Evolves(w, Advance(w))
  {
    var v := Advance(w);
    assert v.offers == AdvancedOffers(w.offers, v.stations, w.tick + 1);
    assert v.stations.Keys == w.stations.Keys;
    forall i | 0 <= i < |w.offers|
      ensures SameTerms(v.offers[i], w.offers[i]) && (w.offers[i].status != Open ==> v.offers[i] == w.offers[i])
    {
    }
  }

  lemma AcceptEvolves(w: World, f: Founding, s: StationId, id: ObjectId)
    requires Inv(w, f)
    ensures Evolves(w, AcceptedOffer(w, s, id).0)
  {
    var found := FindOffer(w.offers, id);
    if AcceptRefusal(w, s, found).None? {
      var k := CloseChangesOne(w, found.value, Accepted, Some(TransactionId(w.nextId)));
    }
  }

  lemma WithdrawEvolves(w: World, f: Founding, s: StationId, id: ObjectId)
    requires Inv(w, f)
    ensures Evolves(w, Withdrew(w, s, id).0)
  {
    var found := FindOffer(w.offers, id);
    if FindAd(w.ads, id).None? && found.Some? && found.value.status == Open {
      var k := CloseChangesOne(w, found.value, Withdrawn, None);
      hide Inv, CloseById;
    }
  }

  lemma ExecuteEvolves(w: World, f: Founding, s: StationId, a: Action)
    requires Inv(w, f) && s in w.stations
    ensures Evolves(w, Execute(w, s, a).0)
  {
    var c := Counted(w, s);
    if Precheck(w, s, a).None? {
      CountedKeeps(w, f, s);
      if a.Accept? {
        AcceptEvolves(c, f, s, a.offer);
        assert Execute(w, s, a).0 == AcceptedOffer(c, s, a.offer).0;
      } else if a.Withdraw? {
        WithdrawEvolves(c, f, s, a.target);
        assert Execute(w, s, a).0 == Withdrew(c, s, a.target).0;
      }
    }
  }

  /** Over any stretch of a run terms stay, closed offers stay closed as they are,
      and each offer leaves the open state at most once. */
  lemma {:induction false} RunEvolves(w: World, f: Founding, events: seq<Event>)
    requires Inv(w, f)
    ensures Evolves(w, Run(w, events))
  {
    if events != [] {
      var n := |events| - 1;
      RunEvolves(w, f, events[..n]);
      RunKeeps(w, f, events[..n]);
      StepEvolves(Run(w, events[..n]), f, events[n]);
    }
  }

  /** Accepted offers and transactions pair off: each transaction records exactly one
      offer, each accepted offer has exactly one transaction, on identical terms. */
  lemma SettlementBijection(w: World, f: Founding, events: seq<Event>)
    requires Inv(w, f)
    ensures var r := Run(w, events);
            && (forall t :: t in r.transactions ==> exists o :: o in r.offers && Records(o, t))
            && (forall o :: o in r.offers && o.status == Accepted ==> exists t :: t in r.transactions && Records(o, t))
            && (forall t, u, o :: t in r.transactions && u in r.transactions && Records(o, t) && Records(o, u) ==> t == u)
            && (forall o, p, t :: o in r.offers && p in r.offers && Records(o, t) && Records(p, t) ==> o == p)
            && Tally(r.offers, AcceptedOffers) == |r.transactions|
  {
    var r := Run(w, events);
    RunKeeps(w, f, events);
    forall t | t in r.transactions ensures exists o :: o in r.offers && Records(o, t) {
      assert DealBacked(r.offers, t);
    }
    forall o | o in r.offers && o.status == Accepted ensures exists t :: t in r.transactions && Records(o, t) {
      assert OfferBacked(r.transactions, o);
    }
    forall t, u, o | t in r.transactions && u in r.transactions && Records(o, t) && Records(o, u) ensures t == u {
      DealIdsUnique(r.transactions, r.nextId, t, u);
    }
    forall o, p, t | o in r.offers && p in r.offers && Records(o, t) && Records(p, t) ensures o == p {
      OfferIdsUnique(r.offers, r.nextId, o, p);
    }
  }

  lemma DealIdsRise(deals: seq<Transaction>, nextId: nat, i: nat, j: nat)
    requires DealsNumbered(deals, nextId) && i < j < |deals|
    ensures deals[i].id != deals[j].id
  {
    assert DealPrecedes(deals, i, j);
  }

  lemma DealIdsUnique(deals: seq<Transaction>, nextId: nat, t: Transaction, u: Transaction)
    requires DealsNumbered(deals, nextId) && t in deals && u in deals && t.id == u.id
    ensures t == u
  {
    var i :| 0 <= i < |deals| && deals[i] == t;
    var j :| 0 <= j < |deals| && deals[j] == u;
    if i < j {
      DealIdsRise(deals, nextId, i, j);
    } else if j < i {
      DealIdsRise(deals, nextId, j, i);
    }
  }

  /** A refused command changes no stock, offer, advertisement or trade. */
  lemma RefusalMovesNothing(w: World, s: StationId, a: Action)
    requires Sound(w) && s in w.stations
    requires Execute(w, s, a).1.code != Ok
    ensures Execute(w, s, a).0.(counts := w.counts) == w
  {
  }

  /** In every reachable state an accept is never answered "expired", and never
      "failed" for the sake of either party: such offers are already closed. */
  lemma AcceptRefusals(w: World, f: Founding, s: StationId, id: ObjectId)
    requires Inv(w, f) && s in w.stations && Precheck(w, s, Accept(id)).None?
    ensures Execute(w, s, Accept(id)).1.code in {Ok, NotFound, InvalidArgument, NotOpen, InsufficientResources}
  {
    var found := FindOffer(w.offers, id);
    if found.Some? {
      assert Standing(found.value, w.stations, w.tick, w.rules.durationTicks);
    }
  }

  /** No reachable offer is ever closed by the end of the run itself. */
  lemma NeverRunEnded(w: World, f: Founding, events: seq<Event>)
    requires Fresh(w, f)
    ensures Inv(w, f) && forall o :: o in Run(w, events).offers ==> o.status != RunEnded
  {
    FreshIsKept(w, f);
    var r := Run(w, events);
    RunKeeps(w, f, events);
    forall o | o in r.offers ensures o.status != RunEnded {
      assert Standing(o, r.stations, r.tick, r.rules.durationTicks);
    }
  }

  // ---- the ledger ------------------------------------------------------------------

  /** What a list of trades moves of one resource, summed over a list of stations. */
  function TotalFlow(roster: seq<StationId>, deals: seq<Transaction>, side: Side, r: Resource): nat {
    if roster == [] then 0
    else TotalFlow(roster[..|roster| - 1], deals, side, r) + FlowOf(deals, roster[|roster| - 1], side).Get(r)
  }

  function TotalMoved(roster: seq<StationId>, t: Transaction, side: Side, r: Resource): nat {
    if roster == [] then 0
    else TotalMoved(roster[..|roster| - 1], t, side, r) + Moved(t, roster[|roster| - 1], side).Get(r)
  }

  lemma {:induction false} TotalFlowSplits(roster: seq<StationId>, deals: seq<Transaction>, side: Side, r: Resource)
    requires deals != []
    ensures TotalFlow(roster, deals, side, r)
         == TotalFlow(roster, deals[..|deals| - 1], side, r) + TotalMoved(roster, deals[|deals| - 1], side, r)
  {
    if roster != [] {
      TotalFlowSplits(roster[..|roster| - 1], deals, side, r);
    }
  }

  lemma DistinctFront<T(!new)>(xs: seq<T>)
    requires Distinct(xs) && xs != []
    ensures Distinct(xs[..|xs| - 1])
  {
    var n := |xs| - 1;
    forall i, j | 0 <= i < j < n ensures Differ(xs[..n], i, j) {
      assert Differ(xs, i, j);
    }
  }

  /** An entry of a list without repeats is its last one or an earlier one, not both. */
  lemma FrontOrLast<T(!new)>(xs: seq<T>, x: T)
    requires Distinct(xs) && xs != []
    ensures (x in xs) == (x in xs[..|xs| - 1] || x == xs[|xs| - 1])
    ensures !(x in xs[..|xs| - 1] && x == xs[|xs| - 1])
  {
    var n := |xs| - 1;
    forall i | 0 <= i < n ensures xs[i] != xs[n] {
      assert Differ(xs, i, n);
    }
  }

  /** One amount, counted once for each time `x` is listed. */
  function TotalFor(roster: seq<StationId>, x: StationId, amount: nat): nat {
    if roster == [] then 0
    else TotalFor(roster[..|roster| - 1], x, amount) + (if roster[|roster| - 1] == x then amount else 0)
  }

  lemma {:induction false} TotalForOnce(roster: seq<StationId>, x: StationId, amount: nat)
    requires Distinct(roster)
    ensures TotalFor(roster, x, amount) == if x in roster then amount else 0
  {
    if roster != [] {
      DistinctFront(roster);
      TotalForOnce(roster[..|roster| - 1], x, amount);
      FrontOrLast(roster, x);
    }
  }

  lemma {:induction false} TotalMovedIs(roster: seq<StationId>, t: Transaction, side: Side, r: Resource)
    ensures TotalMoved(roster, t, side, r)
         == TotalFor(roster, t.proposer, (if side == Inward then t.receive else t.give).Get(r))
          + TotalFor(roster, t.recipient, (if side == Inward then t.give else t.receive).Get(r))
  {
    if roster != [] {
      TotalMovedIs(roster[..|roster| - 1], t, side, r);
    }
  }

  lemma {:induction false} FlowsBalance(roster: seq<StationId>, deals: seq<Transaction>, r: Resource)
    requires Distinct(roster)
    requires forall t :: t in deals ==> t.proposer in roster && t.recipient in roster
    ensures TotalFlow(roster, deals, Inward, r) == TotalFlow(roster, deals, Outward, r)
  {
    if deals == [] {
      NoFlow(roster, deals, Inward, r);
      NoFlow(roster, deals, Outward, r);
    } else {
      var t := deals[|deals| - 1];
      FlowsBalance(roster, deals[..|deals| - 1], r);
      TotalFlowSplits(roster, deals, Inward, r);
      TotalFlowSplits(roster, deals, Outward, r);
      TotalMovedIs(roster, t, Inward, r);
      TotalMovedIs(roster, t, Outward, r);
      TotalForOnce(roster, t.proposer, t.receive.Get(r));
      TotalForOnce(roster, t.proposer, t.give.Get(r));
      TotalForOnce(roster, t.recipient, t.receive.Get(r));
      TotalForOnce(roster, t.recipient, t.give.Get(r));
    }
  }

  lemma {:induction false} NoFlow(roster: seq<StationId>, deals: seq<Transaction>, side: Side, r: Resource)
    requires deals == []
    ensures TotalFlow(roster, deals, side, r) == 0
  {
    if roster != [] {
      NoFlow(roster[..|roster| - 1], deals, side, r);
    }
  }

  function WorldImports(w: World, roster: seq<StationId>, r: Resource): nat
    requires forall s :: s in roster ==> s in w.stations
  {
    if roster == [] then 0
    else WorldImports(w, roster[..|roster| - 1], r) + w.stations[roster[|roster| - 1]].imported.Get(r)
  }

  function WorldExports(w: World, roster: seq<StationId>, r: Resource): nat
    requires forall s :: s in roster ==> s in w.stations
  {
    if roster == [] then 0
    else WorldExports(w, roster[..|roster| - 1], r) + w.stations[roster[|roster| - 1]].exported.Get(r)
  }

  lemma {:induction false} WorldFlows(w: World, roster: seq<StationId>, r: Resource)
    requires forall s :: s in roster ==> s in w.stations
    requires Booked(w.stations, w.transactions)
    ensures WorldImports(w, roster, r) == TotalFlow(roster, w.transactions, Inward, r)
    ensures WorldExports(w, roster, r) == TotalFlow(roster, w.transactions, Outward, r)
  {
    if roster != [] {
      WorldFlows(w, roster[..|roster| - 1], r);
      assert BookedFor(w.stations, w.transactions, roster[|roster| - 1]);
    }
  }

  /** Ledger conservation: each station's stock is what it began with, plus what it
      made and imported, less what it ate and exported; its trade totals are the
      transaction list seen from its side; and the world imports what it exports. */
  lemma LedgerConservation(w: World, f: Founding, events: seq<Event>)
    requires Inv(w, f)
    ensures var r := Run(w, events);
            && (forall s :: s in r.stations ==>
                  var x := r.stations[s];
                  && s in f.stock
                  && x.inventory.Plus(x.consumed).Plus(x.exported) == f.stock[s].Plus(x.produced).Plus(x.imported)
                  && x.imported == FlowOf(r.transactions, s, Inward)
                  && x.exported == FlowOf(r.transactions, s, Outward))
            && (forall s :: s in r.roster ==> s in r.stations)
            && (forall x :: WorldImports(r, r.roster, x) == WorldExports(r, r.roster, x))
  {
    var r := Run(w, events);
    RunKeeps(w, f, events);
    forall s | s in r.stations
      ensures var x := r.stations[s];
              && x.inventory.Plus(x.consumed).Plus(x.exported) == f.stock[s].Plus(x.produced).Plus(x.imported)
              && x.imported == FlowOf(r.transactions, s, Inward)
              && x.exported == FlowOf(r.transactions, s, Outward)
    {
      assert AccountedFor(r.stations, r.rules, r.tick, f, s);
      assert BookedFor(r.stations, r.transactions, s);
    }
    forall t | t in r.transactions ensures t.proposer in r.roster && t.recipient in r.roster {
      assert DealBacked(r.offers, t);
    }
    forall x ensures WorldImports(r, r.roster, x) == WorldExports(r, r.roster, x) {
      WorldFlows(r, r.roster, x);
      FlowsBalance(r.roster, r.transactions, x);
    }
  }

  /** Survival accounting over whole runs, up to the earliest tick a station can fail. */
  lemma SurvivalAccounting(w: World, f: Founding, events: seq<Event>, s: StationId)
    requires Inv(w, f) && s in w.stations
    ensures s in Run(w, events).stations && s in f.health
    ensures var r := Run(w, events);
            var x := r.stations[s];
            && x.suppliedTicks + x.shortageTicks == r.tick
            && x.consumed.Plus(x.unmet) == x.upkeep.Scale(r.tick)
            && x.health <= r.rules.maxHealth
            && (x.health == 0 ==> x.failed)
            && (x.failed ==>
                  && x.firstFailure.Some? && x.firstFailure.value <= r.tick
                  && r.rules.shortageDamage * x.upkeep.Total() * x.firstFailure.value >= f.health[s])
            && x.health + r.rules.shortageDamage * x.unmet.Total() >= f.health[s]
            && (!x.failed ==>
                  x.health + r.rules.shortageDamage * x.unmet.Total() <= f.health[s] + r.rules.recovery * x.suppliedTicks)
  {
    var r := Run(w, events);
    RunKeeps(w, f, events);
    RunEvolves(w, f, events);
    assert AccountedFor(r.stations, r.rules, r.tick, f, s);
  }

  /** A station whose shortages cost all it was founded with and all it can have recovered has failed. */
  lemma ShortEnoughFails(w: World, f: Founding, events: seq<Event>, s: StationId)
    requires Inv(w, f) && s in w.stations
    ensures s in Run(w, events).stations && s in f.health
    ensures var r := Run(w, events);
            var x := r.stations[s];
            r.rules.shortageDamage * x.unmet.Total() >= f.health[s] + r.rules.recovery * x.suppliedTicks ==> x.failed
  {
    SurvivalAccounting(w, f, events, s);
  }

  /** Failure is permanent, and its tick is never rewritten. */
  lemma {:induction false} FailureIsPermanent(w: World, events: seq<Event>, s: StationId)
    requires HasFailed(w.stations, s)
    ensures var r := Run(w, events);
            HasFailed(r.stations, s) && r.stations[s].firstFailure == w.stations[s].firstFailure
  {
    if events != [] {
      var n := |events| - 1;
      FailureIsPermanent(w, events[..n], s);
      StepKeepsFailure(Run(w, events[..n]), events[n], s);
    }
  }

  lemma StepKeepsFailure(w: World, e: Event, s: StationId)
    requires HasFailed(w.stations, s)
    ensures var r := Step(w, e);
            HasFailed(r.stations, s) && r.stations[s].firstFailure == w.stations[s].firstFailure
  {
    match e
    case Command(p, a) => if Sound(w) && p in w.stations { CommandKeepsFailure(w, p, a, s); }
    case Revised =>
    case Tick => assert Advance(w).stations[s] == Settled(w.stations[s], w.rules, w.tick + 1);
    case Outputs(output) =>
    case Ended =>
  }

  lemma CommandKeepsFailure(w: World, p: StationId, a: Action, s: StationId)
    requires Sound(w) && p in w.stations && HasFailed(w.stations, s)
    ensures var r := Execute(w, p, a).0;
            HasFailed(r.stations, s) && r.stations[s].firstFailure == w.stations[s].firstFailure
  {
    var c := Counted(w, p);
    if Precheck(w, p, a).None? && a.Accept? {
      assert Execute(w, p, a) == AcceptedOffer(c, p, a.offer);
    }
  }
}
