/** Whole worlds: running a roster of players, and scoring how it went. */
module Scoring {
  import Arithmetic
  import opened Domain
  import opened Stations
  import opened Engine
  import opened EngineInvariant
  import opened EngineRuns
  import opened Economy
  import opened Server

  /** One tick of a world: what each planet produces, and what each player does. */
  datatype Round = Round(output: map<StationId, nat>, turns: seq<(StationId, seq<Action>)>)

  /** Players whose station has failed are skipped. */
  ghost function Played(w: World, turns: seq<(StationId, seq<Action>)>): World {
    if turns == [] then w
    else
      var before, turn := Played(w, turns[..|turns| - 1]), turns[|turns| - 1];
      if turn.0 !in before.stations || HasFailed(before.stations, turn.0) then before
      else Bumped(Batch(before, turn.0, turn.1))
  }

  ghost function AfterRound(w: World, r: Round): World { Advance(Played(Produce(w, r.output), r.turns)) }

  ghost function AfterRounds(w: World, rounds: seq<Round>): World {
    if rounds == [] then w else AfterRound(AfterRounds(w, rounds[..|rounds| - 1]), rounds[|rounds| - 1])
  }

  /** When each failed station first failed, by its own record. */
  function FirstFailures(stations: map<StationId, Station>): map<StationId, nat> {
    map s | s in stations && stations[s].failed && stations[s].firstFailure.Some? :: stations[s].firstFailure.value
  }

  // ---- the runner's own failure times ---------------------------------------------------------------

  lemma {:induction false} BatchKeeps(w: World, f: Founding, s: StationId, actions: seq<Action>)
    requires Inv(w, f)
    ensures var v := Batch(w, s, actions); Inv(v, f) && v.tick == w.tick && v.stations.Keys == w.stations.Keys
    ensures FirstFailures(Batch(w, s, actions).stations) == FirstFailures(w.stations)
  {
    if actions != [] {
      var n := |actions| - 1;
      BatchKeeps(w, f, s, actions[..n]);
      var v := Batch(w, s, actions[..n]);
      StepKeeps(v, f, Command(s, actions[n]));
      CommandKeepsRecords(v, s, actions[n]);
      hide Inv, Execute;
    }
  }

  predicate SameRecord(x: Station, y: Station) { x.failed == y.failed && x.firstFailure == y.firstFailure }

  lemma RecordsKept(v: World, s: StationId, a: Action)
    requires Sound(v) && s in v.stations
    ensures var z := Execute(v, s, a).0;
            && z.tick == v.tick && z.stations.Keys == v.stations.Keys
            && (forall p :: p in v.stations ==> SameRecord(z.stations[p], v.stations[p]))
  {
    hide KeepAds, CloseById, FindAd, FindOffer, Tally, AcceptedOffer;
    if a.Accept? {
      AcceptKeepsRecords(Counted(v, s), s, a.offer);
    } else {
      assert Execute(v, s, a).0.stations == v.stations;
    }
  }

  lemma AcceptKeepsRecords(v: World, s: StationId, id: ObjectId)
    requires Sound(v)
    ensures var z := AcceptedOffer(v, s, id).0;
            && z.tick == v.tick && z.stations.Keys == v.stations.Keys
            && (forall p :: p in v.stations ==> SameRecord(z.stations[p], v.stations[p]))
  {
    hide CloseById;
  }

  lemma CommandKeepsRecords(v: World, s: StationId, a: Action)
    ensures var z := Try(v, s, a).0;
            && z.tick == v.tick && z.stations.Keys == v.stations.Keys
            && FirstFailures(z.stations) == FirstFailures(v.stations)
  {
    var z := Try(v, s, a).0;
    hide Execute;
    if Sound(v) && s in v.stations {
      RecordsKept(v, s, a);
    }
    forall p | p in v.stations ensures p in z.stations && SameRecord(z.stations[p], v.stations[p]) {
    }
  }

  lemma {:induction false} PlayedKeeps(w: World, f: Founding, turns: seq<(StationId, seq<Action>)>)
    requires Inv(w, f)
    ensures var v := Played(w, turns); Inv(v, f) && v.tick == w.tick && v.stations.Keys == w.stations.Keys
    ensures FirstFailures(Played(w, turns).stations) == FirstFailures(w.stations)
  {
    if turns != [] {
      var n := |turns| - 1;
      PlayedKeeps(w, f, turns[..n]);
      var v := Played(w, turns[..n]);
      BatchKeeps(v, f, turns[n].0, turns[n].1);
      var z := Batch(v, turns[n].0, turns[n].1);
      StepKeeps(z, f, Revised);
      hide Inv, Batch;
    }
  }

  /** Failures noticed after a tick are stamped with it; earlier stamps stay. */
  function Noticed(failedAt: map<StationId, nat>, stations: map<StationId, Station>, tick: nat): map<StationId, nat> {
    map s | s in stations && (stations[s].failed || s in failedAt) :: if s in failedAt then failedAt[s] else tick
  }

  ghost predicate FailureRecorded(before: Station, after: Station, now: nat) {
    && (before.failed <==> before.firstFailure.Some?) && (after.failed <==> after.firstFailure.Some?)
    && (before.failed ==> after.failed && after.firstFailure == before.firstFailure)
    && (after.failed && !before.failed ==> after.firstFailure == Some(now))
  }

  lemma StationSettles(w: World, f: Founding, s: StationId)
    requires Accounted(w.stations, w.rules, w.tick, f) && s in w.stations
    ensures FailureRecorded(w.stations[s], Settled(w.stations[s], w.rules, w.tick + 1), w.tick + 1)
  {
    assert AccountedFor(w.stations, w.rules, w.tick, f, s);
    hide Supplied, Damage;
  }

  /** Stamping what newly failed by now is reading the first failures off the records. */
  lemma NoticedAreFirst(before: map<StationId, Station>, after: map<StationId, Station>, now: nat)
    requires before.Keys == after.Keys
    requires forall s {:trigger FailureRecorded(before[s], after[s], now)} :: s in before ==> FailureRecorded(before[s], after[s], now)
    ensures Noticed(FirstFailures(before), after, now) == FirstFailures(after)
  {
    forall s | s in before
      ensures s in FirstFailures(before) <==> before[s].failed
      ensures s in FirstFailures(after) <==> after[s].failed
    {
      assert FailureRecorded(before[s], after[s], now);
    }
    forall s | s in FirstFailures(after)
      ensures s in Noticed(FirstFailures(before), after, now) && Noticed(FirstFailures(before), after, now)[s] == FirstFailures(after)[s]
    {
      assert FailureRecorded(before[s], after[s], now);
    }
    forall s | s in Noticed(FirstFailures(before), after, now) ensures s in FirstFailures(after) {
      assert FailureRecorded(before[s], after[s], now);
    }
  }

  lemma AdvancedStations(w: World)
    ensures Advance(w).stations.Keys == w.stations.Keys && Advance(w).tick == w.tick + 1
    ensures forall s :: s in w.stations ==> Advance(w).stations[s] == Settled(w.stations[s], w.rules, w.tick + 1)
  {
    AdvanceFields(w);
    hide Advance, Settled, AdvancedOffers, KeepAds;
  }

  lemma AdvanceNotices(w: World, f: Founding)
    requires Inv(w, f)
    ensures Advance(w).stations.Keys == w.stations.Keys && Advance(w).tick == w.tick + 1
    ensures Noticed(FirstFailures(w.stations), Advance(w).stations, w.tick + 1) == FirstFailures(Advance(w).stations)
  {
    AdvancedStations(w);
    assert Accounted(w.stations, w.rules, w.tick, f);
    hide Inv, Advance, Settled, Accounted, Noticed, FirstFailures;
    forall s | s in w.stations ensures FailureRecorded(w.stations[s], Advance(w).stations[s], w.tick + 1) {
      StationSettles(w, f, s);
    }
    NoticedAreFirst(w.stations, Advance(w).stations, w.tick + 1);
  }

  lemma ProducedKeeps(w: World, f: Founding, output: map<StationId, nat>)
    requires Inv(w, f)
    ensures Inv(Produce(w, output), f) && Produce(w, output).tick == w.tick && Produce(w, output).stations.Keys == w.stations.Keys
    ensures FirstFailures(Produce(w, output).stations) == FirstFailures(w.stations)
  {
    ProduceKeeps(w, f, output);
    hide Inv;
  }

  lemma RoundKeeps(w: World, f: Founding, r: Round)
    requires Inv(w, f)
    ensures var v := AfterRound(w, r);
            && Inv(v, f) && v.tick == w.tick + 1 && v.stations.Keys == w.stations.Keys
            && Noticed(FirstFailures(w.stations), v.stations, v.tick) == FirstFailures(v.stations)
  {
    hide Inv, Produce, Played, Advance, FirstFailures, Noticed;
    var p := Produce(w, r.output);
    ProducedKeeps(w, f, r.output);
    PlayedKeeps(p, f, r.turns);
    var v := Played(p, r.turns);
    AdvanceKeeps(v, f);
    AdvanceNotices(v, f);
  }

  // ---- rounds as events of a run -----------------------------------------------------------------------

  function CommandsOf(s: StationId, actions: seq<Action>): seq<EngineRuns.Event> {
    seq(|actions|, i requires 0 <= i < |actions| => EngineRuns.Command(s, actions[i]))
  }

  /** The turns of the stations not among `failed`, one after the other, each ended by a revision. */
  function TurnEvents(roster: set<StationId>, failed: set<StationId>, turns: seq<(StationId, seq<Action>)>): seq<EngineRuns.Event> {
    if turns == [] then []
    else
      var turn := turns[|turns| - 1];
      TurnEvents(roster, failed, turns[..|turns| - 1])
        + if turn.0 in roster && turn.0 !in failed then CommandsOf(turn.0, turn.1) + [EngineRuns.Revised] else []
  }

  /** Outputs, every turn of a station that has not failed before the round, and a tick. */
  function RoundEvents(w: World, r: Round): seq<EngineRuns.Event> {
    [EngineRuns.Outputs(r.output)] + TurnEvents(w.stations.Keys, FailedOf(w.stations), r.turns) + [EngineRuns.Tick]
  }

  lemma {:induction false} RunJoins(w: World, a: seq<EngineRuns.Event>, b: seq<EngineRuns.Event>)
    ensures Run(w, a + b) == Run(Run(w, a), b)
  {
    hide Step;
    if b == [] {
      assert a + b == a;
    } else {
      var n := |b| - 1;
      RunJoins(w, a, b[..n]);
      assert (a + b)[..|a| + n] == a + b[..n];
    }
  }

  lemma OneEvent(w: World, e: EngineRuns.Event)
    ensures Run(w, [e]) == Step(w, e)
  {
    assert [e][..0] == [];
  }

  lemma {:induction false} BatchIsRun(w: World, s: StationId, actions: seq<Action>)
    ensures Run(w, CommandsOf(s, actions)) == Batch(w, s, actions)
  {
    if actions != [] {
      var n := |actions| - 1;
      BatchIsRun(w, s, actions[..n]);
      assert CommandsOf(s, actions)[..n] == CommandsOf(s, actions[..n]);
    }
  }

  ghost predicate SameFailed(w: World, v: World) {
    w.stations.Keys == v.stations.Keys && FailedOf(w.stations) == FailedOf(v.stations)
  }

  lemma RecordsTellFailed(w: World, f: Founding, v: World, g: Founding)
    requires Inv(w, f) && Inv(v, g) && w.stations.Keys == v.stations.Keys && FirstFailures(v.stations) == FirstFailures(w.stations)
    ensures SameFailed(w, v)
  {
    forall s | s in w.stations ensures w.stations[s].failed == v.stations[s].failed {
      assert AccountedFor(w.stations, w.rules, w.tick, f, s) && AccountedFor(v.stations, v.rules, v.tick, g, s);
      assert s in FirstFailures(w.stations) <==> s in FirstFailures(v.stations);
    }
  }

  lemma {:induction false} TurnsAreRun(w: World, f: Founding, turns: seq<(StationId, seq<Action>)>)
    requires Inv(w, f)
    ensures Run(w, TurnEvents(w.stations.Keys, FailedOf(w.stations), turns)) == Played(w, turns)
  {
    if turns != [] {
      var n := |turns| - 1;
      var before, turn := Played(w, turns[..n]), turns[n];
      var front := TurnEvents(w.stations.Keys, FailedOf(w.stations), turns[..n]);
      TurnsAreRun(w, f, turns[..n]);
      PlayedKeeps(w, f, turns[..n]);
      RecordsTellFailed(w, f, before, f);
      hide Inv, Batch, Run, FirstFailures;
      assert turn.0 in before.stations ==> (turn.0 in FailedOf(before.stations) <==> HasFailed(before.stations, turn.0));
      if turn.0 in w.stations && turn.0 !in FailedOf(w.stations) {
        var events := CommandsOf(turn.0, turn.1);
        RunJoins(w, front, events + [EngineRuns.Revised]);
        RunJoins(before, events, [EngineRuns.Revised]);
        BatchIsRun(before, turn.0, turn.1);
        OneEvent(Batch(before, turn.0, turn.1), EngineRuns.Revised);
      } else {
        assert front + [] == front;
      }
    }
  }

  lemma OutputsFailNobody(w: World, output: map<StationId, nat>)
    ensures SameFailed(w, Produce(w, output))
  {
  }

  lemma ThreeParts(w: World, a: EngineRuns.Event, b: seq<EngineRuns.Event>, e: EngineRuns.Event)
    ensures Run(w, [a] + b + [e]) == Step(Run(Step(w, a), b), e)
  {
    hide Step;
    RunJoins(w, [a] + b, [e]);
    RunJoins(w, [a], b);
    OneEvent(w, a);
    OneEvent(Run(Step(w, a), b), e);
  }

  /** A round is that run of events, so that everything proved of runs holds of worlds played in rounds. */
  lemma RoundIsRun(w: World, f: Founding, r: Round)
    requires Inv(w, f)
    ensures AfterRound(w, r) == Run(w, RoundEvents(w, r))
  {
    OutputsFailNobody(w, r.output);
    ProduceKeeps(w, f, r.output);
    TurnsAreRun(Produce(w, r.output), f, r.turns);
    hide Inv, Advance, Run, Played, Produce, TurnEvents, FailedOf;
    ThreeParts(w, EngineRuns.Outputs(r.output), TurnEvents(w.stations.Keys, FailedOf(w.stations), r.turns), EngineRuns.Tick);
  }

  // ---- scoring ---------------------------------------------------------------------------------------

  datatype Score = Score(
    planets: nat, collectiveSuccess: bool, survivors: int, aliveTicks: nat, shortageTicks: nat, unmetUnits: nat,
    subjectSurvived: Option<bool>, subjectHealth: Option<nat>)

  function AliveTicks(roster: seq<StationId>, failedAt: map<StationId, nat>, ticks: nat): nat {
    if roster == [] then 0
    else
      var s := roster[|roster| - 1];
      AliveTicks(roster[..|roster| - 1], failedAt, ticks) + if s in failedAt then failedAt[s] else ticks
  }

  datatype Figure = ShortageTicks | UnmetUnits {
    function Of(s: Station): nat { match this case ShortageTicks => s.shortageTicks case UnmetUnits => s.unmet.Total() }
  }

  function SumOver(roster: seq<StationId>, stations: map<StationId, Station>, figure: Figure): nat
    requires forall s :: s in roster ==> s in stations
  {
    if roster == [] then 0
    else SumOver(roster[..|roster| - 1], stations, figure) + figure.Of(stations[roster[|roster| - 1]])
  }

  /** Score a finished economy; without a runner's failure times its own records serve. */
  function ScoreEconomy(w: World, ticks: nat, subject: Option<StationId>, failedAt: Option<map<StationId, nat>>): Score
    requires forall s :: s in w.roster ==> s in w.stations
    requires subject.Some? ==> subject.value in w.stations
  {
    var failures := if failedAt.Some? then failedAt.value else FirstFailures(w.stations);
    Score(|w.roster|, failures == map[], |w.roster| - |failures|, AliveTicks(w.roster, failures, ticks),
          SumOver(w.roster, w.stations, ShortageTicks), SumOver(w.roster, w.stations, UnmetUnits),
          if subject.Some? then Some(subject.value !in failures) else None,
          if subject.Some? then Some(w.stations[subject.value].health) else None)
  }

  /** The failure times a runner notes after every round. */
  ghost function FailedAt(w: World, rounds: seq<Round>): map<StationId, nat> {
    if rounds == [] then map[]
    else
      var v := AfterRounds(w, rounds);
      Noticed(FailedAt(w, rounds[..|rounds| - 1]), v.stations, v.tick)
  }

  /** Whatever the players do, the runner's failure times are the stations' own first failures. */
  lemma {:induction false} FailureTimesMatch(w: World, f: Founding, rounds: seq<Round>)
    requires Fresh(w, f)
    ensures var v := AfterRounds(w, rounds);
            && Inv(v, f) && v.tick == |rounds| && v.stations.Keys == w.stations.Keys
            && FailedAt(w, rounds) == FirstFailures(v.stations)
  {
    if rounds == [] {
      FreshIsKept(w, f);
      assert FirstFailures(w.stations) == map[];
    } else {
      hide Inv, AfterRound, FirstFailures, Noticed, Fresh;
      FailureTimesMatch(w, f, rounds[..|rounds| - 1]);
      RoundKeeps(AfterRounds(w, rounds[..|rounds| - 1]), f, rounds[|rounds| - 1]);
    }
  }

  /** So scoring with the runner's failure times and with the economy's own records agree. */
  lemma BothScoresAgree(w: World, f: Founding, rounds: seq<Round>, subject: Option<StationId>)
    requires Fresh(w, f) && (subject.Some? ==> subject.value in w.stations)
    ensures var v := AfterRounds(w, rounds);
            && Sound(v) && (subject.Some? ==> subject.value in v.stations)
            && ScoreEconomy(v, |rounds|, subject, Some(FailedAt(w, rounds))) == ScoreEconomy(v, |rounds|, subject, None)
  {
    hide Fresh, AfterRounds, FirstFailures, FailedAt, SumOver, AliveTicks;
    FailureTimesMatch(w, f, rounds);
  }

  // ---- an economy that a server ran ------------------------------------------------------------------

  /** The failure times of an economy watched after every event the server handles. */
  ghost function FailedServing(s: ServerState, events: seq<ServerEvent>): map<StationId, nat> {
    if events == [] then map[]
    else
      var w := Serve(s, events).world;
      Noticed(FailedServing(s, events[..|events| - 1]), w.stations, w.tick)
  }

  lemma RecordsUnchanged(w: World, f: Founding, after: map<StationId, Station>, now: nat)
    requires Accounted(w.stations, w.rules, w.tick, f) && after.Keys == w.stations.Keys
    requires forall s :: s in w.stations ==> SameRecord(after[s], w.stations[s])
    ensures Noticed(FirstFailures(w.stations), after, now) == FirstFailures(after)
  {
    forall s | s in w.stations ensures FailureRecorded(w.stations[s], after[s], now) {
      assert AccountedFor(w.stations, w.rules, w.tick, f, s);
    }
    hide Noticed, FirstFailures;
    NoticedAreFirst(w.stations, after, now);
  }

  lemma MessageNotices(s: ServerState, f: Founding, m: Message)
    requires Inv(s.world, f) && m.station in s.results
    ensures var w := Handle(s, m).0.world;
            w.stations.Keys == s.world.stations.Keys && Noticed(FirstFailures(s.world.stations), w.stations, w.tick) == FirstFailures(w.stations)
  {
    assert Accounted(s.world.stations, s.world.rules, s.world.tick, f);
    if m.station in s.world.stations { RecordsKept(s.world, m.station, m.action); }
    hide Inv, Execute, Accounted, Noticed, FirstFailures, FindStored;
    RecordsUnchanged(s.world, f, Handle(s, m).0.world.stations, Handle(s, m).0.world.tick);
  }

  lemma ClockNotices(s: ServerState, f: Founding, output: map<StationId, nat>)
    requires Inv(s.world, f) && s.phase == Running
    ensures var w := Ticked(s, output).world;
            w.stations.Keys == s.world.stations.Keys && Noticed(FirstFailures(s.world.stations), w.stations, w.tick) == FirstFailures(w.stations)
  {
    AdvanceNotices(s.world, f);
    AdvanceKeeps(s.world, f);
    ProducedKeeps(Advance(s.world), f, output);
    OutputsUnnoticed(Advance(s.world).stations, output, FirstFailures(s.world.stations), s.world.tick + 1);
    hide Inv, Advance, FirstFailures, Noticed;
  }

  lemma OutputsUnnoticed(stations: map<StationId, Station>, output: map<StationId, nat>, before: map<StationId, nat>, now: nat)
    ensures var after := map s | s in stations :: if s in output then stations[s].(production := output[s]) else stations[s];
            Noticed(before, after, now) == Noticed(before, stations, now)
  {
  }

  lemma NextNotices(s: ServerState, f: Founding, e: ServerEvent)
    requires Inv(s.world, f)
    ensures var w := Next(s, e).world;
            w.stations.Keys == s.world.stations.Keys && Noticed(FirstFailures(s.world.stations), w.stations, w.tick) == FirstFailures(w.stations)
  {
    assert Accounted(s.world.stations, s.world.rules, s.world.tick, f);
    RecordsUnchanged(s.world, f, s.world.stations, s.world.tick);
    hide Inv, Accounted, Noticed, FirstFailures, Handle, Ticked;
    match e
    case Receive(m) => if m.station in s.results { MessageNotices(s, f, m); }
    case Start =>
    case Clock(output) => if s.phase == Running { ClockNotices(s, f, output); } else { NotTicked(s, output); }
  }

  lemma NotTicked(s: ServerState, output: map<StationId, nat>)
    requires s.phase != Running
    ensures Ticked(s, output) == s
  {
  }

  /** Whatever reaches a server, in whatever order, its economy's records hold the failure
      times a watcher would have noted. */
  lemma {:induction false} ServerFailuresMatch(s: ServerState, f: Founding, events: seq<ServerEvent>)
    requires Fresh(s.world, f)
    ensures var w := Serve(s, events).world;
            Inv(w, f) && w.stations.Keys == s.world.stations.Keys && FailedServing(s, events) == FirstFailures(w.stations)
  {
    if events == [] {
      FreshIsKept(s.world, f);
      assert FirstFailures(s.world.stations) == map[];
    } else {
      hide Inv, Next, FirstFailures, Noticed, Fresh;
      var n := |events| - 1;
      ServerFailuresMatch(s, f, events[..n]);
      NextNotices(Serve(s, events[..n]), f, events[n]);
      NextKeeps(Serve(s, events[..n]), f, events[n]);
    }
  }

  /** So the score a server writes at any length is the score from watched failure times. */
  lemma ServerScoresAgree(s: ServerState, f: Founding, events: seq<ServerEvent>, ticks: nat, subject: Option<StationId>)
    requires Fresh(s.world, f) && (subject.Some? ==> subject.value in s.world.stations)
    ensures var w := Serve(s, events).world;
            && Sound(w) && (subject.Some? ==> subject.value in w.stations)
            && ScoreEconomy(w, ticks, subject, Some(FailedServing(s, events))) == ScoreEconomy(w, ticks, subject, None)
  {
    hide Fresh, Serve, FirstFailures, FailedServing, SumOver, AliveTicks;
    ServerFailuresMatch(s, f, events);
  }

  lemma {:induction false} AliveTicksBound(roster: seq<StationId>, failedAt: map<StationId, nat>, ticks: nat)
    requires forall s :: s in failedAt ==> failedAt[s] <= ticks
    ensures AliveTicks(roster, failedAt, ticks) <= |roster| * ticks
    ensures (forall s :: s in roster ==> s !in failedAt) ==> AliveTicks(roster, failedAt, ticks) == |roster| * ticks
  {
    if roster != [] {
      var n := |roster| - 1;
      assert roster == roster[..n] + [roster[n]];
      AliveTicksBound(roster[..n], failedAt, ticks);
      assert |roster| * ticks == n * ticks + ticks;
    }
  }

  /** The collective score is at most every planet living every tick, and is exactly that when
      none fails. */
  lemma FullScore(w: World, f: Founding, rounds: seq<Round>)
    requires Fresh(w, f)
    ensures var v := AfterRounds(w, rounds);
            && Sound(v)
            && var score := ScoreEconomy(v, |rounds|, None, None);
               && score.aliveTicks <= |v.roster| * |rounds|
               && (score.collectiveSuccess ==> score.aliveTicks == |v.roster| * |rounds| && score.survivors == score.planets)
               && (score.collectiveSuccess <==> forall s :: s in v.stations ==> !v.stations[s].failed)
  {
    var v := AfterRounds(w, rounds);
    FailureTimesMatch(w, f, rounds);
    forall s | s in v.stations
      ensures v.stations[s].failed ==> s in FirstFailures(v.stations) && FirstFailures(v.stations)[s] <= |rounds|
    {
      assert AccountedFor(v.stations, v.rules, v.tick, f, s);
    }
    hide Inv, Fresh, AfterRounds, FailedAt, SumOver;
    AliveTicksBound(v.roster, FirstFailures(v.stations), |rounds|);
  }

  // ---- what the figures mean --------------------------------------------------------------------------

  function Unfailed(stations: map<StationId, Station>): set<StationId> { set s | s in stations && !stations[s].failed }

  lemma {:induction false} DistinctSize(roster: seq<StationId>)
    requires Distinct(roster)
    ensures |set s | s in roster| == |roster|
  {
    var all := set s | s in roster;
    if roster == [] {
      assert all == {};
    } else {
      var n := |roster| - 1;
      DistinctFront(roster);
      DistinctSize(roster[..n]);
      forall i | 0 <= i < n ensures roster[i] != roster[n] {
        assert Differ(roster, i, n);
      }
      assert all == (set s | s in roster[..n]) + {roster[n]};
    }
  }

  lemma FailuresLeaveRest(stations: map<StationId, Station>)
    requires forall s :: s in stations ==> (stations[s].failed <==> stations[s].firstFailure.Some?)
    ensures |FirstFailures(stations)| + |Unfailed(stations)| == |stations|
  {
    var failed, rest := FirstFailures(stations).Keys, Unfailed(stations);
    assert failed + rest == stations.Keys && failed !! rest;
    assert |failed + rest| == |failed| + |rest|;
    assert |failed| == |FirstFailures(stations)| && |stations.Keys| == |stations|;
  }

  /** Ticks the failed did not live to see. */
  function LostTicks(roster: seq<StationId>, failedAt: map<StationId, nat>, ticks: nat): int {
    if roster == [] then 0
    else
      var s := roster[|roster| - 1];
      LostTicks(roster[..|roster| - 1], failedAt, ticks) + if s in failedAt then ticks - failedAt[s] else 0
  }

  lemma {:induction false} AliveOrLost(roster: seq<StationId>, failedAt: map<StationId, nat>, ticks: nat)
    ensures AliveTicks(roster, failedAt, ticks) + LostTicks(roster, failedAt, ticks) == |roster| * ticks
  {
    if roster != [] {
      AliveOrLost(roster[..|roster| - 1], failedAt, ticks);
      assert |roster| * ticks == (|roster| - 1) * ticks + ticks;
    }
  }

  /** What the stations consumed, were due, and how long they were supplied. */
  function SuppliedOver(roster: seq<StationId>, stations: map<StationId, Station>): nat
    requires forall s :: s in roster ==> s in stations
  {
    if roster == [] then 0
    else SuppliedOver(roster[..|roster| - 1], stations) + stations[roster[|roster| - 1]].suppliedTicks
  }

  function ConsumedOver(roster: seq<StationId>, stations: map<StationId, Station>): nat
    requires forall s :: s in roster ==> s in stations
  {
    if roster == [] then 0
    else ConsumedOver(roster[..|roster| - 1], stations) + stations[roster[|roster| - 1]].consumed.Total()
  }

  function DueOver(roster: seq<StationId>, stations: map<StationId, Station>, ticks: nat): nat
    requires forall s :: s in roster ==> s in stations
  {
    if roster == [] then 0
    else DueOver(roster[..|roster| - 1], stations, ticks) + stations[roster[|roster| - 1]].upkeep.Total() * ticks
  }

  ghost predicate BalancedBooks(s: Station, ticks: nat) {
    s.suppliedTicks + s.shortageTicks == ticks && s.consumed.Total() + s.unmet.Total() == s.upkeep.Total() * ticks
  }

  lemma {:induction false} TicksBalance(roster: seq<StationId>, stations: map<StationId, Station>, ticks: nat)
    requires forall s :: s in roster ==> s in stations && BalancedBooks(stations[s], ticks)
    ensures SumOver(roster, stations, ShortageTicks) + SuppliedOver(roster, stations) == |roster| * ticks
  {
    if roster != [] {
      var n := |roster| - 1;
      assert roster[n] in roster && stations[roster[n]].suppliedTicks + stations[roster[n]].shortageTicks == ticks;
      TicksBalance(roster[..n], stations, ticks);
      Arithmetic.DistributeRight(n, 1, ticks);
      hide BalancedBooks;
    }
  }

  lemma {:induction false} UnitsBalance(roster: seq<StationId>, stations: map<StationId, Station>, ticks: nat)
    requires forall s :: s in roster ==> s in stations && BalancedBooks(stations[s], ticks)
    ensures SumOver(roster, stations, UnmetUnits) + ConsumedOver(roster, stations) == DueOver(roster, stations, ticks)
  {
    if roster != [] {
      var n := |roster| - 1;
      var x := stations[roster[n]];
      assert roster[n] in roster && x.consumed.Total() + x.unmet.Total() == x.upkeep.Total() * ticks;
      UnitsBalance(roster[..n], stations, ticks);
      hide BalancedBooks;
    }
  }

  lemma BooksBalance(w: World, f: Founding, s: StationId)
    requires Inv(w, f) && s in w.stations
    ensures BalancedBooks(w.stations[s], w.tick)
  {
    assert AccountedFor(w.stations, w.rules, w.tick, f, s);
    var x := w.stations[s];
    ScaleTotal(x.upkeep, w.tick);
    assert x.consumed.Plus(x.unmet).Total() == x.consumed.Total() + x.unmet.Total();
    hide Inv, AccountedFor;
  }

  lemma FailedIsRecorded(w: World, f: Founding)
    requires Inv(w, f)
    ensures forall s :: s in w.stations ==> (w.stations[s].failed <==> w.stations[s].firstFailure.Some?)
  {
    forall s | s in w.stations ensures w.stations[s].failed <==> w.stations[s].firstFailure.Some? {
      assert AccountedFor(w.stations, w.rules, w.tick, f, s);
    }
  }

  lemma NoFailures(stations: map<StationId, Station>)
    requires forall s :: s in stations ==> (stations[s].failed <==> stations[s].firstFailure.Some?)
    ensures FirstFailures(stations) == map[] <==> Unfailed(stations) == stations.Keys
  {
    assert forall s :: s in FirstFailures(stations) <==> s in stations && stations[s].failed;
    assert FirstFailures(stations) == map[] <==> forall s :: s !in FirstFailures(stations);
  }

  /** Of any economy in order: the survivors are the stations that have not failed; alive ticks and
      those the failed lost are every planet's every tick, as are shortage ticks and supplied ones;
      unmet units and those consumed are all the upkeep that fell due; and the subject survived
      exactly if it has not failed. */
  lemma ScoreInNumbers(w: World, f: Founding, subject: StationId)
    requires Inv(w, f) && subject in w.stations
    ensures var score := ScoreEconomy(w, w.tick, Some(subject), None);
            && score.planets == |w.stations| && score.survivors == |Unfailed(w.stations)|
            && (score.collectiveSuccess <==> Unfailed(w.stations) == w.stations.Keys)
            && score.aliveTicks + LostTicks(w.roster, FirstFailures(w.stations), w.tick) == |w.stations| * w.tick
            && score.shortageTicks + SuppliedOver(w.roster, w.stations) == |w.stations| * w.tick
            && score.unmetUnits + ConsumedOver(w.roster, w.stations) == DueOver(w.roster, w.stations, w.tick)
            && score.subjectSurvived == Some(!w.stations[subject].failed) && score.subjectHealth == Some(w.stations[subject].health)
  {
    FailedIsRecorded(w, f);
    FailuresLeaveRest(w.stations);
    DistinctSize(w.roster);
    assert (set s | s in w.roster) == w.stations.Keys;
    AliveOrLost(w.roster, FirstFailures(w.stations), w.tick);
    forall s | s in w.roster ensures s in w.stations && BalancedBooks(w.stations[s], w.tick) { BooksBalance(w, f, s); }
    TicksBalance(w.roster, w.stations, w.tick);
    UnitsBalance(w.roster, w.stations, w.tick);
    NoFailures(w.stations);
    hide Inv, Distinct, SumOver, AliveTicks, LostTicks, SuppliedOver, ConsumedOver, DueOver, BalancedBooks;
  }

  // ---- the runner ---------------------------------------------------------------------------------------

  method PlayRound(economy: SimulatedEconomy, turns: seq<(StationId, seq<Action>)>)
    requires economy.Valid() && forall t :: t in turns ==> t.0 in economy.stations
    modifies economy, economy.Repr()
    ensures economy.Valid() && economy.View() == Played(old(economy.View()), turns)
  {
    hide Inv, Batch;
    ghost var before := economy.View();
    for i := 0 to |turns|
      invariant economy.Valid() && economy.View() == Played(before, turns[..i])
    {
      assert turns[..i + 1][..i] == turns[..i];
      var (station, actions) := turns[i];
      assert turns[i] in turns;
      if !economy.stations[station].failedOnce {
        economy.Apply(station, actions);
      }
    }
    assert turns[..|turns|] == turns;
  }

  /** Note which stations have failed by now. */
  method NoticeFailures(economy: SimulatedEconomy, seen: map<StationId, nat>) returns (failedAt: map<StationId, nat>)
    requires economy.Valid() && seen.Keys <= economy.stations.Keys
    ensures failedAt == Noticed(seen, economy.View().stations, economy.tick)
  {
    hide Inv;
    var failed := set s | s in economy.stations && economy.stations[s].failedOnce;
    forall s | s in economy.stations ensures economy.View().stations[s].failed == economy.stations[s].failedOnce {}
    failedAt := StampFailures(failed, seen, economy.tick);
  }

  /** Stamp those not seen before. */
  method StampFailures(failed: set<StationId>, seen: map<StationId, nat>, tick: nat) returns (failedAt: map<StationId, nat>)
    ensures forall s :: s in failedAt <==> s in seen || s in failed
    ensures forall s :: s in failedAt ==> failedAt[s] == if s in seen then seen[s] else tick
  {
    failedAt := seen;
    var todo := failed;
    while todo != {}
      invariant todo <= failed
      invariant forall s :: s in failedAt <==> s in seen || (s in failed && s !in todo)
      invariant forall s :: s in failedAt ==> failedAt[s] == if s in seen then seen[s] else tick
      decreases |todo|
    {
      var s :| s in todo;
      todo := todo - {s};
      if s !in failedAt {
        failedAt := failedAt[s := tick];
      }
    }
  }

  method RunWorld(economy: SimulatedEconomy, rounds: seq<Round>) returns (failedAt: map<StationId, nat>)
    requires economy.Valid() && forall i, t :: 0 <= i < |rounds| && t in rounds[i].turns ==> t.0 in economy.stations
    modifies economy, economy.Repr()
    ensures economy.Valid() && economy.View() == AfterRounds(old(economy.View()), rounds)
    ensures failedAt == FailedAt(old(economy.View()), rounds)
  {
    hide Inv, Noticed, Played, Advance, Produce;
    ghost var before := economy.View();
    failedAt := map[];
    for i := 0 to |rounds|
      invariant economy.Valid() && economy.View() == AfterRounds(before, rounds[..i])
      invariant failedAt == FailedAt(before, rounds[..i]) && failedAt.Keys <= economy.stations.Keys
    {
      assert rounds[..i + 1][..i] == rounds[..i];
      economy.SetProduction(rounds[i].output);
      PlayRound(economy, rounds[i].turns);
      economy.AdvanceTick();
      NoticedWithin(failedAt, economy.View().stations, economy.tick);
      failedAt := NoticeFailures(economy, failedAt);
    }
    assert rounds[..|rounds|] == rounds;
  }

  lemma NoticedWithin(failedAt: map<StationId, nat>, stations: map<StationId, Station>, tick: nat)
    ensures Noticed(failedAt, stations, tick).Keys <= stations.Keys
  {
  }
}
