/** The rule engine as the mutable object the server and the benchmark drive. */
module Economy {
  import opened Domain
  import opened Stations
  import opened Engine
  import opened EngineInvariant
  import opened EngineRuns
  import Effects

  class SimulatedEconomy {
    const runId: string
    const rules: Rules
    const roster: seq<StationId>
    const stations: map<StationId, SimStation>
    ghost const founding: Founding
    var tick: nat
    var worldVersion: nat
    var offers: seq<Offer>
    var transactions: seq<Transaction>
    var advertisements: seq<Advertisement>
    var nextId: nat
    var commandCounts: map<StationId, nat>
    var rejections: seq<(StationId, ResultCode)>

    ghost function Repr(): set<object> { set s | s in stations :: stations[s] as object }

    ghost function StationViews(): map<StationId, Station>
      reads Repr()
    {
      map s | s in stations :: stations[s].View()
    }

    ghost function View(): World
      reads this, Repr()
    {
      World(runId, rules, roster, StationViews(), tick, worldVersion,
            offers, transactions, advertisements, nextId, commandCounts)
    }

    /** No two station ids share one record. */
    ghost predicate Separate() {
      forall s, t {:trigger stations[s], stations[t]} :: s in stations && t in stations && s != t ==> stations[s] != stations[t]
    }

    ghost predicate Valid()
      reads this, Repr()
    {
      && Separate()
      && Inv(View(), founding)
    }

    constructor (roster: seq<StationId>, stations: map<StationId, SimStation>, rules: Rules, runId: string)
      requires Distinct(roster) && (forall s :: s in roster <==> s in stations)
      requires forall s, t {:trigger stations[s], stations[t]} :: s in stations && t in stations && s != t ==> stations[s] != stations[t]
      requires rules.maxHealth > 0
      requires forall s :: s in stations ==>
                 var x := stations[s].View();
                 0 < x.health <= rules.maxHealth && x == Founded(x.specialty, x.inventory, x.production, x.upkeep, x.health)
      ensures Valid()
      ensures this.stations == stations && this.roster == roster && this.rules == rules
      ensures View() == World(runId, rules, roster, (map s | s in stations :: stations[s].View()), 0, 1, [], [], [], 1, map[])
    {
      this.roster, this.stations, this.rules, this.runId := roster, stations, rules, runId;
      tick, worldVersion, nextId := 0, 1, 1;
      offers, transactions, advertisements := [], [], [];
      commandCounts, rejections := map[], [];
      founding := Founding(map s | s in stations :: stations[s].inventory, map s | s in stations :: stations[s].health);
      new;
      FreshIsKept(View(), founding);
    }

    function CountFor(station: StationId): nat
      reads this
    {
      CountOf(commandCounts, station)
    }

    method OpenOffersOf(station: StationId) returns (n: nat)
      ensures n == OpenCount(offers, station)
    {
      n := 0;
      for i := 0 to |offers|
        invariant n == OpenCount(offers[..i], station)
      {
        assert offers[..i + 1][..i] == offers[..i];
        if offers[i].proposer == station && offers[i].status == Open {
          n := n + 1;
        }
      }
      assert offers[..|offers|] == offers;
    }

    /** Run a batch in order, keeping the rejections for inspection. */
    method Apply(station: StationId, actions: seq<Action>)
      requires Valid() && station in stations
      modifies this, Repr()
      ensures Valid()
      ensures View() == Bumped(Batch(old(View()), station, actions))
      ensures rejections == old(rejections) + Rejected(old(View()), station, actions)
    {
      hide Inv;
      ghost var before, log := View(), rejections;
      ghost var seen := Rejected(before, station, []);
      var i := 0;
      while i < |actions|
        invariant 0 <= i <= |actions|
        invariant Valid()
        invariant View() == Batch(before, station, actions[..i])
        invariant rejections == log + seen && seen == Rejected(before, station, actions[..i])
      {
        BatchSnoc(before, station, actions, i);
        ghost var refusal := RejectionOf(station, Try(View(), station, actions[i]).1);
        ApplyOne(station, actions[i]);
        assert (log + seen) + refusal == log + (seen + refusal);
        seen := seen + refusal;
        i := i + 1;
      }
      assert actions[..|actions|] == actions;
      Revise();
    }

    method Revise()
      requires Valid()
      modifies this`worldVersion
      ensures Valid() && View() == Bumped(old(View()))
    {
      worldVersion := worldVersion + 1;
      assert StationViews() == old(StationViews());
    }

    method ApplyOne(station: StationId, action: Action)
      requires Valid() && station in stations
      modifies this, Repr()
      ensures Valid()
      ensures View() == Try(old(View()), station, action).0
      ensures rejections == old(rejections) + RejectionOf(station, Try(old(View()), station, action).1)
    {
      hide Inv, Try, Engine.Execute;
      var outcome := Execute(station, action);
      assert StationViews() == View().stations;
      if outcome.code != Ok {
        rejections := rejections + [(station, outcome.code)];
      }
    }

    method Execute(station: StationId, action: Action) returns (outcome: Outcome)
      requires Valid() && station in stations
      modifies this`offers, this`transactions, this`advertisements, this`nextId, this`commandCounts, Repr()
      ensures Valid()
      ensures (View(), outcome) == Engine.Execute(old(View()), station, action)
      ensures (View(), outcome) == Try(old(View()), station, action)
      ensures outcome.code == Ok <==> Effects.Succeeds(old(View()), station, action)
      ensures Effects.LeavesOthers(old(View()), View(), station, action)
    {
      ExecuteKeeps(View(), founding, station, action);
      Effects.SucceedsExactly(View(), founding, station, action);
      Effects.OthersAreLeft(View(), founding, station, action);
      hide Effects.Succeeds, Effects.LeavesOthers;
      var refusal := Check(station, action);
      if refusal.Some? {
        outcome := Refused(refusal.value);
      } else {
        outcome := Process(station, action);
      }
    }

    method Process(station: StationId, action: Action) returns (outcome: Outcome)
      requires Separate() && Sound(View())
      modifies this`offers, this`transactions, this`advertisements, this`nextId, this`commandCounts, Repr()
      ensures (View(), outcome) == Processed(Counted(old(View()), station), station, action)
    {
      commandCounts := commandCounts[station := CountFor(station) + 1];
      assert StationViews() == old(StationViews());
      assert View() == Counted(old(View()), station);
      match action
      case Advertise(_, _, _) => outcome := Publish(station, action);
      case MakeOffer(_, _, _, _) => outcome := Post(station, action);
      case Accept(id) => outcome := Settle(station, id);
      case Withdraw(id) => outcome := TakeBack(station, id);
      case Sync => outcome := Refused(InvalidArgument);
    }

    method Check(station: StationId, action: Action) returns (refusal: Option<ResultCode>)
      requires station in stations
      ensures refusal == Precheck(View(), station, action)
    {
      var me := stations[station];
      if me.failedOnce { return Some(StationFailed); }
      if tick >= rules.durationTicks { return Some(RunNotRunning); }
      if CountFor(station) >= rules.commandsPerTick { return Some(RateLimited); }
      if action.MakeOffer? || action.Advertise? {
        var ttl := if action.MakeOffer? then rules.maxOfferTtl else rules.maxPublicationTtl;
        if !(tick < action.expires <= Min(tick + ttl, rules.durationTicks)) { return Some(InvalidArgument); }
      }
      if action.MakeOffer? {
        if action.recipient !in stations || action.recipient == station || action.give.IsZero() {
          return Some(InvalidArgument);
        }
        if stations[action.recipient].failedOnce { return Some(StationFailed); }
        if !me.inventory.Dominates(action.give) { return Some(InsufficientResources); }
        var open := OpenOffersOf(station);
        if open >= rules.maxOpenOffers { return Some(LimitReached); }
      }
      return None;
    }

    method Publish(station: StationId, action: Action) returns (outcome: Outcome)
      requires action.Advertise?
      modifies this`advertisements, this`nextId
      ensures (View(), outcome) == Advertised(old(View()), station, action)
    {
      var ad := Advertisement(AdId(nextId), station, action.selling, action.seeking, tick, action.expires, worldVersion, Active);
      advertisements := KeepAds(advertisements, NotBy(station)) + [ad];
      nextId := nextId + 1;
      outcome := Outcome(Ok, Some(ad.id), None);
      assert StationViews() == old(StationViews());
    }

    method Post(station: StationId, action: Action) returns (outcome: Outcome)
      requires action.MakeOffer?
      modifies this`offers, this`nextId
      ensures (View(), outcome) == Posted(old(View()), station, action)
    {
      var offer := Offer(OfferId(nextId), station, action.recipient, action.give, action.receive, tick,
                         worldVersion, action.expires, Open, None, None);
      offers := offers + [offer];
      nextId := nextId + 1;
      outcome := Outcome(Ok, Some(offer.id), None);
      assert StationViews() == old(StationViews());
    }

    method TakeBack(station: StationId, id: ObjectId) returns (outcome: Outcome)
      modifies this`offers, this`advertisements
      ensures (View(), outcome) == Withdrew(old(View()), station, id)
      ensures forall ad :: ad in old(advertisements) && ad.station != station ==> ad in advertisements
      ensures offers != old(offers) ==> exists o :: o in old(offers) && o.id == id && o.proposer == station && o.status == Open
    {
      var ad := FindAd(advertisements, id);
      if ad.Some? {
        if ad.value.station != station { return Refused(InvalidArgument); }
        advertisements := KeepAds(advertisements, NotAd(ad.value));
        assert StationViews() == old(StationViews());
        return Outcome(Ok, Some(id), None);
      }
      var offer := FindOffer(offers, id);
      if offer.None? { return Refused(NotFound); }
      if offer.value.proposer != station { return Refused(InvalidArgument); }
      if offer.value.status != Open { return Refused(NotOpen); }
      Close(id, Withdrawn, None);
      assert StationViews() == old(StationViews());
      outcome := Outcome(Ok, Some(id), None);
    }

    method Close(id: ObjectId, status: OfferStatus, transaction: Option<ObjectId>)
      modifies this`offers
      ensures offers == CloseById(old(offers), id, status, tick, transaction)
    {
      offers := CloseById(offers, id, status, tick, transaction);
    }

    method AcceptCheck(station: StationId, found: Option<Offer>) returns (refusal: Option<ResultCode>)
      requires Sound(View()) && (found.Some? ==> found.value in offers)
      ensures refusal == AcceptRefusal(View(), station, found)
    {
      if found.None? { return Some(NotFound); }
      var offer := found.value;
      assert offer in View().offers;
      if offer.recipient != station { return Some(InvalidArgument); }
      if offer.status != Open { return Some(NotOpen); }
      if offer.IsExpiredAt(tick) { return Some(OfferExpired); }

      var proposer := stations[offer.proposer];
      var recipient := stations[offer.recipient];
      if proposer.failedOnce || recipient.failedOnce { return Some(StationFailed); }
      if !proposer.inventory.Dominates(offer.give) || !recipient.inventory.Dominates(offer.receive) {
        return Some(InsufficientResources);
      }
      return None;
    }

    /** Atomic settlement: both bundles move together, or nothing moves. */
    method Settle(station: StationId, id: ObjectId) returns (outcome: Outcome)
      requires Separate() && Sound(View())
      modifies this`offers, this`transactions, this`nextId, Repr()
      ensures (View(), outcome) == AcceptedOffer(old(View()), station, id)
    {
      var found := FindOffer(offers, id);
      var refusal := AcceptCheck(station, found);
      if refusal.Some? { return Refused(refusal.value); }
      var offer := found.value;
      assert offer in View().offers;
      var transaction := SettleOffer(offer);
      outcome := Outcome(Ok, Some(id), Some(transaction));
    }

    method SettleOffer(offer: Offer) returns (transaction: ObjectId)
      requires Separate() && Sound(View()) && offer in offers && CanSettle(View(), offer)
      modifies this`offers, this`transactions, this`nextId, Repr()
      ensures offer in old(View()).offers
      ensures View() == SettledOffer(old(View()), offer)
      ensures transaction == TransactionId(old(nextId))
    {
      hide Separate, Traded, CloseById, SimStation.View;
      assert offer in View().offers;
      transaction := TransactionId(nextId);
      Trade(offer);
      RecordDeal(offer);
      assert StationViews() == SettledOffer(old(View()), offer).stations;
    }

    method RecordDeal(offer: Offer)
      modifies this`offers, this`transactions, this`nextId
      ensures transactions == old(transactions) + [TransactionFor(old(View()), offer)]
      ensures offers == CloseById(old(offers), offer.id, Accepted, tick, Some(TransactionId(old(nextId))))
      ensures nextId == old(nextId) + 1
    {
      var transaction := TransactionId(nextId);
      nextId := nextId + 1;
      Close(offer.id, Accepted, Some(transaction));
      transactions := transactions + [Transaction(transaction, offer.id, offer.proposer, offer.recipient,
                                                  offer.give, offer.receive, tick, worldVersion)];
    }

    method Trade(offer: Offer)
      requires Separate() && CanSettle(View(), offer)
      modifies Repr()
      ensures StationViews() == old(var ss := StationViews();
                ss[offer.proposer := Traded(ss[offer.proposer], offer.give, offer.receive)]
                  [offer.recipient := Traded(ss[offer.recipient], offer.receive, offer.give)])
    {
      Exchange(stations[offer.proposer], offer.give, offer.receive);
      Exchange(stations[offer.recipient], offer.receive, offer.give);
    }

    method Exchange(s: SimStation, pays: Bundle, gets: Bundle)
      requires s.inventory.Dominates(pays)
      modifies s
      ensures s.View() == Traded(old(s.View()), pays, gets)
    {
      s.inventory := s.inventory.Minus(pays).Plus(gets);
      s.exported := s.exported.Plus(pays);
      s.imported := s.imported.Plus(gets);
    }

    // ---- time -----------------------------------------------------------------

    method AdvanceTick()
      requires Valid()
      modifies this, Repr()
      ensures Valid() && View() == Advance(old(View())) && rejections == old(rejections)
    {
      AdvanceKeeps(View(), founding);
      StartTick();
      SettleStations();
      CloseForFailed();
    }

    method StartTick()
      requires OffersNumbered(offers, nextId)
      modifies this`tick, this`commandCounts, this`worldVersion, this`offers, this`advertisements
      ensures View() == Expire(old(View()))
      ensures OffersNumbered(offers, nextId)
    {
      tick := tick + 1;
      commandCounts := map[];
      worldVersion := worldVersion + 1;
      CloseAllDue(DeadlineBy(tick), Expired);
      advertisements := KeepAds(advertisements, LivePast(tick));
      assert StationViews() == old(StationViews());
    }

    method SettleStations()
      requires Separate() && Distinct(roster) && forall s :: s in roster <==> s in stations
      modifies Repr()
      ensures View() == SettleAll(old(View()))
    {
      hide Settled, Separate, Distinct;
      for i := 0 to |roster|
        invariant forall j :: 0 <= j < i ==> stations[roster[j]].View() == Settled(old(stations[roster[j]].View()), rules, tick)
        invariant forall j :: i <= j < |roster| ==> stations[roster[j]].View() == old(stations[roster[j]].View())
      {
        stations[roster[i]].SettleTick(rules, tick);
        RosterSeparates(i);
      }
      forall s | s in stations ensures stations[s].View() == Settled(old(stations[s].View()), rules, tick) {
        assert s in roster;
      }
      assert StationViews() == map s | s in stations :: Settled(old(stations[s].View()), rules, tick);
    }

    method CloseForFailed()
      requires OffersNumbered(offers, nextId)
      modifies this`offers, this`advertisements
      ensures View() == CloseFailed(old(View()))
    {
      var failed := set s | s in stations && stations[s].failedOnce;
      assert failed == FailedOf(StationViews());
      advertisements := KeepAds(advertisements, NotByAny(failed));
      CloseAllDue(PartyIn(failed), Withdrawn);
      assert StationViews() == old(StationViews());
    }

    /** Close, one at a time, the open offers that are due. */
    method CloseAllDue(due: Due, status: OfferStatus)
      requires OffersNumbered(offers, nextId)
      modifies this`offers
      ensures offers == CloseDue(old(offers), due, status, tick)
      ensures status != Open && status != Accepted ==> OffersNumbered(offers, nextId)
    {
      var all := offers;
      if status != Open && status != Accepted {
        CloseDueOnlyCloses(all, due, status, tick);
        ClosingKeepsNumbers(all, CloseDue(all, due, status, tick), nextId);
      }
      SweepEnds(all, due, status, tick);
      hide CloseDue;
      for i := 0 to |all|
        invariant offers == CloseDue(all[..i], due, status, tick) + all[i..]
      {
        SweepNext(all, nextId, i, due, status, tick);
        if all[i].status == Open && due.Hits(all[i]) {
          Close(all[i].id, status, None);
        }
      }
      assert all[..|all|] == all;
    }

    method EndRun()
      requires Valid() && IsFinished(View())
      modifies this`offers, this`advertisements, this`worldVersion
      ensures Valid() && View() == Engine.EndRun(old(View()))
    {
      EndRunKeeps(View(), founding);
      CloseRemaining();
    }

    method CloseRemaining()
      requires OffersNumbered(offers, nextId)
      modifies this`offers, this`advertisements, this`worldVersion
      ensures View() == Engine.EndRun(old(View()))
    {
      CloseAllDue(AllOpen, RunEnded);
      advertisements := [];
      worldVersion := worldVersion + 1;
      assert StationViews() == old(StationViews());
    }

    method SetProduction(output: map<StationId, nat>)
      requires Valid()
      modifies Repr()
      ensures Valid() && View() == Produce(old(View()), output)
    {
      ProduceKeeps(View(), founding, output);
      AssignProduction(output);
    }

    method AssignProduction(output: map<StationId, nat>)
      requires Separate() && Distinct(roster) && forall s :: s in roster <==> s in stations
      modifies Repr()
      ensures View() == Produce(old(View()), output)
    {
      hide Separate, Distinct;
      for i := 0 to |roster|
        invariant forall j :: 0 <= j < i ==> stations[roster[j]].View() == Produced(old(stations[roster[j]].View()), roster[j], output)
        invariant forall j :: i <= j < |roster| ==> stations[roster[j]].View() == old(stations[roster[j]].View())
      {
        if roster[i] in output {
          stations[roster[i]].production := output[roster[i]];
        }
        RosterSeparates(i);
      }
      forall s | s in stations ensures stations[s].View() == Produced(old(stations[s].View()), s, output) {
        assert s in roster;
      }
      assert StationViews() == Produce(old(View()), output).stations;
    }

    lemma RosterSeparates(i: nat)
      requires Separate() && Distinct(roster) && i < |roster| && forall s :: s in roster <==> s in stations
      ensures forall j :: 0 <= j < |roster| && j != i ==> stations[roster[j]] != stations[roster[i]]
    {
      forall j | 0 <= j < |roster| && j != i ensures stations[roster[j]] != stations[roster[i]] {
        assert j < i ==> Differ(roster, j, i);
        assert i < j ==> Differ(roster, i, j);
      }
    }

    method ObservationFor(station: StationId, sequence: nat, phase: Phase, results: seq<CommandResult>) returns (seen: Snapshot)
      requires station in stations
      ensures seen == Engine.ObservationFor(View(), station, sequence, phase, results)
    {
      var me := stations[station].Observe();
      seen := Snapshot(runId, sequence, worldVersion, tick, phase, station, rules, roster, me,
                       KeepOffers(offers, Involving(station)), advertisements,
                       DealsOf(transactions, station), results);
    }
  }

  function Produced(s: Station, id: StationId, output: map<StationId, nat>): Station {
    if id in output then s.(production := output[id]) else s
  }

  lemma SweepEnds(all: seq<Offer>, due: Due, status: OfferStatus, tick: nat)
    ensures CloseDue(all[..0], due, status, tick) + all[0..] == all
    ensures CloseDue(all[..|all|], due, status, tick) + all[|all|..] == CloseDue(all, due, status, tick)
  {
    assert all[..|all|] == all;
  }

  /** Closing the next offer by its id, if it is due, extends the part already swept. */
  lemma SweepNext(all: seq<Offer>, nextId: nat, i: nat, due: Due, status: OfferStatus, tick: nat)
    requires OffersNumbered(all, nextId) && i < |all|
    ensures var now := CloseDue(all[..i], due, status, tick) + all[i..];
            var next := CloseDue(all[..i + 1], due, status, tick) + all[i + 1..];
            next == if all[i].status == Open && due.Hits(all[i]) then CloseById(now, all[i].id, status, tick, None) else now
  {
    forall j | 0 <= j < |all| && j != i ensures all[j].id != all[i].id {
      if j < i { OfferIdsRise(all, nextId, j, i); } else { OfferIdsRise(all, nextId, i, j); }
    }
  }

  /** A batch by one station, command by command. */
  ghost function Batch(w: World, s: StationId, actions: seq<Action>): World {
    if actions == [] then w
    else Try(Batch(w, s, actions[..|actions| - 1]), s, actions[|actions| - 1]).0
  }

  function RejectionOf(s: StationId, outcome: Outcome): seq<(StationId, ResultCode)> {
    if outcome.code == Ok then [] else [(s, outcome.code)]
  }

  /** The refusals a batch earns, in order. */
  ghost function Rejected(w: World, s: StationId, actions: seq<Action>): seq<(StationId, ResultCode)> {
    if actions == [] then []
    else
      var n := |actions| - 1;
      Rejected(w, s, actions[..n]) + RejectionOf(s, Try(Batch(w, s, actions[..n]), s, actions[n]).1)
  }

  lemma BatchSnoc(w: World, s: StationId, actions: seq<Action>, i: nat)
    requires i < |actions|
    ensures var before := Batch(w, s, actions[..i]);
            && Batch(w, s, actions[..i + 1]) == Try(before, s, actions[i]).0
            && Rejected(w, s, actions[..i + 1])
                 == Rejected(w, s, actions[..i]) + RejectionOf(s, Try(before, s, actions[i]).1)
  {
    assert actions[..i + 1][..i] == actions[..i];
  }

  function Bumped(w: World): World { w.(version := w.version + 1) }
}
