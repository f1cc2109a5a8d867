/** The server's command handling: every request id is processed at most once. */
module Server {
  import opened Domain
  import opened Stations
  import opened Engine
  import opened EngineInvariant
  import opened EngineRuns
  import opened Economy
  import Effects

  datatype Stored = Stored(fingerprint: string, result: CommandResult)

  datatype Reply = Answer(result: CommandResult) | Control(code: ControlCode)

  datatype ServerState = ServerState(world: World, phase: Phase, results: map<StationId, seq<Stored>>)

  datatype Message = Message(station: StationId, request: RequestId, fingerprint: string, action: Action)

  datatype ServerEvent = Receive(message: Message) | Start | Clock(output: map<StationId, nat>)

  function FindStored(stored: seq<Stored>, request: RequestId): (found: Option<Stored>)
    ensures found.Some? ==> found.value in stored && found.value.result.request == request
    ensures found.None? ==> forall x :: x in stored ==> x.result.request != request
  {
    if stored == [] then None
    else if stored[0].result.request == request then Some(stored[0])
    else
      assert stored == [stored[0]] + stored[1..];
      FindStored(stored[1..], request)
  }

  function ResultFor(w: World, request: RequestId, outcome: Outcome): CommandResult {
    CommandResult(request, outcome.code, w.tick, w.version, outcome.target, outcome.transaction,
                  if outcome.code == RateLimited then Some(w.tick + 1) else None)
  }

  /** The first time a request id is seen: execute it and store its result. */
  ghost function HandleNew(s: ServerState, m: Message): (ServerState, Reply)
    requires m.station in s.results
  {
    var (w, outcome) := if s.phase == Running then Try(s.world, m.station, m.action) else (s.world, Refused(RunNotRunning));
    var after := if outcome.code == Ok then Bumped(w) else w;
    var result := ResultFor(after, m.request, outcome);
    (s.(world := after, results := s.results[m.station := s.results[m.station] + [Stored(m.fingerprint, result)]]),
     Answer(result))
  }

  ghost function Handle(s: ServerState, m: Message): (ServerState, Reply)
    requires m.station in s.results
  {
    var previous := FindStored(s.results[m.station], m.request);
    if previous.Some? then
      if previous.value.fingerprint == m.fingerprint then (s, Answer(previous.value.result))
      else (s, Answer(ResultFor(s.world, m.request, Refused(RequestIdConflict))))
    else if |s.results[m.station]| >= s.world.rules.maxRequestRecords then (s, Control(RequestCapacityExceeded))
    else HandleNew(s, m)
  }

  function Started(s: ServerState): ServerState {
    if s.phase != Ready then s else s.(phase := Running, world := Bumped(s.world))
  }

  function Ticked(s: ServerState, output: map<StationId, nat>): ServerState {
    if s.phase != Running then s
    else
      var w := Produce(Advance(s.world), output);
      if IsFinished(w) then s.(world := Engine.EndRun(w), phase := Finished) else s.(world := w)
  }

  /** One thing that reaches the server; messages come from seated stations only. */
  ghost function Next(s: ServerState, e: ServerEvent): ServerState {
    match e
    case Receive(m) => if m.station in s.results then Handle(s, m).0 else s
    case Start => Started(s)
    case Clock(output) => Ticked(s, output)
  }

  ghost function Serve(s: ServerState, events: seq<ServerEvent>): ServerState {
    if events == [] then s
    else Next(Serve(s, events[..|events| - 1]), events[|events| - 1])
  }

  // ---- exactly once --------------------------------------------------------------

  /** Whether a stream already holds a message with this station and request id. */
  predicate SentBefore(events: seq<ServerEvent>, station: StationId, request: RequestId) {
    exists i :: 0 <= i < |events| && events[i].Receive?
      && events[i].message.station == station && events[i].message.request == request
  }

  /** The stream with every repeated (station, request id) after the first removed. */
  function FirstOnly(events: seq<ServerEvent>): seq<ServerEvent> {
    if events == [] then []
    else
      var front, e := events[..|events| - 1], events[|events| - 1];
      if e.Receive? && SentBefore(front, e.message.station, e.message.request) then FirstOnly(front)
      else FirstOnly(front) + [e]
  }

  /** A request id whose fate is sealed: handling it again changes nothing. */
  ghost predicate Sealed(s: ServerState, station: StationId, request: RequestId) {
    station in s.results ==>
      || FindStored(s.results[station], request).Some?
      || |s.results[station]| >= s.world.rules.maxRequestRecords
  }

  lemma HandledIsSealed(s: ServerState, m: Message)
    requires m.station in s.results
    ensures Sealed(Handle(s, m).0, m.station, m.request)
  {
    var stored := s.results[m.station];
    var after := Handle(s, m).0;
    if FindStored(stored, m.request).None? && |stored| < s.world.rules.maxRequestRecords {
      assert after.results[m.station][|stored|].result.request == m.request;
    }
  }

  lemma {:induction false} FindStoredKeeps(stored: seq<Stored>, more: seq<Stored>, request: RequestId)
    requires FindStored(stored, request).Some?
    ensures FindStored(stored + more, request) == FindStored(stored, request)
  {
    if stored[0].result.request != request {
      FindStoredKeeps(stored[1..], more, request);
      assert (stored + more)[1..] == stored[1..] + more;
    }
  }

  /** Results only accumulate, up to capacity, and the rules never change. */
  ghost predicate Grows(s: ServerState, t: ServerState) {
    && s.results.Keys == t.results.Keys && s.world.rules == t.world.rules
    && (forall p :: p in s.results ==> s.results[p] <= t.results[p])
    && (forall p :: p in s.results && |s.results[p]| >= s.world.rules.maxRequestRecords ==> t.results[p] == s.results[p])
  }

  lemma TryKeepsRules(w: World, s: StationId, a: Action)
    ensures Try(w, s, a).0.rules == w.rules
  {
  }

  lemma NextGrows(s: ServerState, e: ServerEvent)
    ensures Grows(s, Next(s, e))
  {
    if e.Receive? {
      TryKeepsRules(s.world, e.message.station, e.message.action);
    }
  }

  lemma {:induction false} ServeGrows(s: ServerState, events: seq<ServerEvent>)
    ensures Grows(s, Serve(s, events))
  {
    if events != [] {
      var n := |events| - 1;
      ServeGrows(s, events[..n]);
      NextGrows(Serve(s, events[..n]), events[n]);
    }
  }

  lemma StaysSealed(s: ServerState, t: ServerState, station: StationId, request: RequestId)
    requires Grows(s, t) && Sealed(s, station, request)
    ensures Sealed(t, station, request)
  {
    if station in s.results && FindStored(s.results[station], request).Some? {
      var stored := s.results[station];
      assert t.results[station] == stored + t.results[station][|stored|..];
      FindStoredKeeps(stored, t.results[station][|stored|..], request);
    }
  }

  lemma SealedIsIgnored(s: ServerState, m: Message)
    requires m.station in s.results && Sealed(s, m.station, m.request)
    ensures Handle(s, m).0 == s
  {
  }

  lemma {:induction false} SeenIsSealed(s: ServerState, events: seq<ServerEvent>, station: StationId, request: RequestId)
    requires SentBefore(events, station, request)
    ensures Sealed(Serve(s, events), station, request)
  {
    var n := |events| - 1;
    var before, e := Serve(s, events[..n]), events[n];
    if e.Receive? && e.message.station == station && e.message.request == request {
      if station in before.results { HandledIsSealed(before, e.message); }
    } else {
      var i :| 0 <= i < |events| && events[i].Receive?
        && events[i].message.station == station && events[i].message.request == request;
      assert events[..n][i] == events[i];
      SeenIsSealed(s, events[..n], station, request);
      NextGrows(before, e);
      StaysSealed(before, Next(before, e), station, request);
    }
  }

  /** Exactly once: the economy and the stored results end as if every repeat, exact,
      conflicting or refused for capacity, had never been sent. */
  lemma {:induction false} ExactlyOnce(s: ServerState, events: seq<ServerEvent>)
    ensures Serve(s, events) == Serve(s, FirstOnly(events))
  {
    if events != [] {
      var n := |events| - 1;
      var front, e := events[..n], events[n];
      ExactlyOnce(s, front);
      if e.Receive? && SentBefore(front, e.message.station, e.message.request) {
        SeenIsSealed(s, front, e.message.station, e.message.request);
        if e.message.station in Serve(s, front).results {
          SealedIsIgnored(Serve(s, front), e.message);
        }
      } else {
        assert FirstOnly(events)[..|FirstOnly(front)|] == FirstOnly(front);
      }
    }
  }

  /** Once a request has a stored result, an exact retry returns that very result after
      anything else has happened, and the same id with another body is a conflict. */
  lemma RetryReturnsOriginal(s: ServerState, m: Message, later: seq<ServerEvent>, retry: Message)
    requires m.station in s.results
    requires retry.station == m.station && retry.request == m.request
    requires FindStored(s.results[m.station], m.request).None?
    requires |s.results[m.station]| < s.world.rules.maxRequestRecords
    ensures var (first, reply) := Handle(s, m);
            var after := Serve(first, later);
            && m.station in after.results
            && (retry.fingerprint == m.fingerprint ==> Handle(after, retry) == (after, reply))
            && (retry.fingerprint != m.fingerprint ==>
                  Handle(after, retry) == (after, Answer(ResultFor(after.world, m.request, Refused(RequestIdConflict)))))
  {
    var (first, reply) := Handle(s, m);
    var after := Serve(first, later);
    var before, stored := s.results[m.station], first.results[m.station];
    assert stored == before + [stored[|before|]];
    FindStoredNew(before, stored[|before|], m.request);
    ServeGrows(first, later);
    assert after.results[m.station] == stored + after.results[m.station][|stored|..];
    FindStoredKeeps(stored, after.results[m.station][|stored|..], m.request);
  }

  lemma {:induction false} FindStoredNew(before: seq<Stored>, x: Stored, request: RequestId)
    requires FindStored(before, request).None? && x.result.request == request
    ensures FindStored(before + [x], request) == Some(x)
  {
    if before != [] {
      assert before == [before[0]] + before[1..];
      FindStoredNew(before[1..], x, request);
      assert (before + [x])[1..] == before[1..] + [x];
    }
  }

  // ---- what a message is answered, and does -----------------------------------------------------

  predicate IsNew(s: ServerState, m: Message)
    requires m.station in s.results
  {
    forall x :: x in s.results[m.station] ==> x.result.request != m.request
  }

  /** A new request is carried out while the run is on, and only then; the reply is stored. */
  ghost predicate AnsweredAs(s: ServerState, m: Message, t: ServerState, reply: Reply)
    requires m.station in s.results && Sound(s.world) && m.station in s.world.stations
  {
    && reply.Answer? && t.phase == s.phase
    && t.results == s.results[m.station := s.results[m.station] + [Stored(m.fingerprint, reply.result)]]
    && var r, (w, outcome) := reply.result, Execute(s.world, m.station, m.action);
    && (s.phase == Running ==>
          && r.code == outcome.code && r.target == outcome.target && r.transaction == outcome.transaction
          && t.world == if r.code == Ok then w.(version := w.version + 1) else w)
    && (s.phase != Running ==> r.code == RunNotRunning && r.target == None && r.transaction == None && t.world == s.world)
    && r.request == m.request && r.processedTick == t.world.tick && r.processedVersion == t.world.version
    && r.retryAfter == if r.code == RateLimited then Some(t.world.tick + 1) else None
  }

  lemma NewRequestAnswered(s: ServerState, m: Message)
    requires m.station in s.results && IsNew(s, m) && |s.results[m.station]| < s.world.rules.maxRequestRecords
    requires Sound(s.world) && m.station in s.world.stations
    ensures AnsweredAs(s, m, Handle(s, m).0, Handle(s, m).1)
  {
    hide Execute;
  }

  /** At capacity a new request is a protocol error and leaves nothing behind. */
  lemma FullStoreRefuses(s: ServerState, m: Message)
    requires m.station in s.results && IsNew(s, m) && |s.results[m.station]| >= s.world.rules.maxRequestRecords
    ensures Handle(s, m) == (s, Control(RequestCapacityExceeded))
  {
  }

  /** A clock event while running settles every station once and then sets its output for the next. */
  lemma ClockEffect(s: ServerState, output: map<StationId, nat>)
    ensures s.phase != Running ==> Ticked(s, output) == s
    ensures s.phase == Running ==>
              var t := Ticked(s, output);
              && t.results == s.results && t.world.transactions == s.world.transactions
              && t.world.stations.Keys == s.world.stations.Keys
              && (forall p :: p in s.world.stations ==>
                    var x := Settled(s.world.stations[p], s.world.rules, s.world.tick + 1);
                    t.world.stations[p] == if p in output then x.(production := output[p]) else x)
              && (t.phase == Finished ==> t.world.ads == [])
  {
    hide Settled, CloseDue, KeepAds;
  }

  // ---- when the run starts and ends ------------------------------------------------------------------

  /** Clock events since the run was started. */
  function Clocks(events: seq<ServerEvent>): nat {
    if events == [] then 0
    else
      var front, e := events[..|events| - 1], events[|events| - 1];
      Clocks(front) + if e.Clock? && Start in front then 1 else 0
  }

  lemma MessageKeepsTime(s: ServerState, m: Message)
    requires m.station in s.results
    ensures var t := Handle(s, m).0;
            t.phase == s.phase && t.world.tick == s.world.tick && t.world.rules == s.world.rules
  {
    TryKeepsTime(s.world, m.station, m.action);
    hide Try;
  }

  lemma TryKeepsTime(w: World, s: StationId, a: Action)
    ensures Try(w, s, a).0.tick == w.tick && Try(w, s, a).0.rules == w.rules
  {
    hide CloseById, KeepAds, Tally, FindAd, FindOffer;
  }

  /** The run is ready until started, then ticks with the clock, and finishes at its duration. */
  ghost predicate OnSchedule(s: ServerState, events: seq<ServerEvent>) {
    var t, last := Serve(s, events), Max(1, s.world.rules.durationTicks);
    && t.world.rules == s.world.rules
    && t.world.tick == Min(Clocks(events), last)
    && t.phase == if Start !in events then Ready else if Clocks(events) < last then Running else Finished
  }

  lemma {:induction false} ServerKeepsTime(s: ServerState, events: seq<ServerEvent>)
    requires s.phase == Ready && s.world.tick == 0
    ensures OnSchedule(s, events) && (Start !in events ==> Clocks(events) == 0)
  {
    if events != [] {
      var n := |events| - 1;
      var front, e := events[..n], events[n];
      assert events == front + [e];
      ServerKeepsTime(s, front);
      hide Handle, Settled, CloseDue, KeepAds;
      match e
      case Receive(m) => if m.station in Serve(s, front).results { MessageKeepsTime(Serve(s, front), m); }
      case Start =>
      case Clock(_) =>
    }
  }

  /** The engine's invariant holds at the server whatever clients send. */
  lemma NextKeeps(s: ServerState, f: Founding, e: ServerEvent)
    requires Inv(s.world, f)
    ensures Inv(Next(s, e).world, f)
  {
    match e
    case Receive(m) =>
      if m.station in s.world.stations {
        StepKeeps(s.world, f, Command(m.station, m.action));
      }
    case Start =>
    case Clock(output) =>
      var w := Advance(s.world);
      AdvanceKeeps(s.world, f);
      ProduceKeeps(w, f, output);
      if IsFinished(Produce(w, output)) { EndRunKeeps(Produce(w, output), f); }
  }

  lemma {:induction false} ServeKeeps(s: ServerState, f: Founding, events: seq<ServerEvent>)
    requires Inv(s.world, f)
    ensures Inv(Serve(s, events).world, f)
  {
    if events != [] {
      var n := |events| - 1;
      ServeKeeps(s, f, events[..n]);
      NextKeeps(Serve(s, events[..n]), f, events[n]);
    }
  }

  /** Whatever reaches the server, no offer is ever closed by the run's end: each has
      expired or been withdrawn, or settled, before then. */
  lemma ServerNeverEndsOffers(s: ServerState, f: Founding, events: seq<ServerEvent>)
    requires Fresh(s.world, f)
    ensures forall o :: o in Serve(s, events).world.offers ==> o.status != RunEnded
  {
    FreshIsKept(s.world, f);
    ServeKeeps(s, f, events);
    var w := Serve(s, events).world;
    forall o | o in w.offers ensures o.status != RunEnded {
      assert Standing(o, w.stations, w.tick, w.rules.durationTicks);
    }
  }

  class BazaarServer {
    const economy: SimulatedEconomy
    var phase: Phase
    var results: map<StationId, seq<Stored>>
    var sequences: map<StationId, nat>

    ghost predicate Valid()
      reads this, economy, economy.Repr()
    {
      && economy.Valid() && this !in economy.Repr()
      && results.Keys == economy.stations.Keys
    }

    ghost function View(): ServerState
      reads this, economy, economy.Repr()
    {
      ServerState(economy.View(), phase, results)
    }

    constructor (economy: SimulatedEconomy)
      requires economy.Valid()
      ensures Valid() && this.economy == economy && phase == Ready && sequences == map[]
      ensures View() == ServerState(economy.View(), Ready, map s | s in economy.stations :: [])
    {
      hide Inv;
      this.economy := economy;
      phase := Ready;
      results := map s | s in economy.stations :: [];
      sequences := map[];
      new;
      assert forall s :: s in economy.stations ==> old(allocated(economy.stations[s]));
      assert economy.View() == old(economy.View());
    }

    /** Look up, execute and store in one step; nothing runs in between. */
    method Command(m: Message) returns (reply: Reply)
      requires Valid() && m.station in results
      modifies this`results, economy, economy.Repr()
      ensures Valid()
      ensures (View(), reply) == Handle(old(View()), m)
      ensures IsNew(old(View()), m) && |old(results[m.station])| < economy.rules.maxRequestRecords ==>
                AnsweredAs(old(View()), m, View(), reply)
    {
      assert Sound(View().world);
      hide Inv, HandleNew, AnsweredAs;
      if IsNew(View(), m) && |results[m.station]| < economy.rules.maxRequestRecords { NewRequestAnswered(View(), m); }
      var stored := results[m.station];
      var previous := FindStored(stored, m.request);
      if previous.Some? {
        if previous.value.fingerprint == m.fingerprint {
          reply := Answer(previous.value.result);
        } else {
          reply := Reply(m.request, Refused(RequestIdConflict));
        }
      } else if |stored| >= economy.rules.maxRequestRecords {
        reply := Control(RequestCapacityExceeded);
      } else {
        reply := Process(m);
      }
    }

    method Process(m: Message) returns (reply: Reply)
      requires Valid() && m.station in results
      modifies this`results, economy, economy.Repr()
      ensures Valid()
      ensures (View(), reply) == HandleNew(old(View()), m)
    {
      hide Inv, Try, Engine.Execute, Effects.Succeeds, Effects.LeavesOthers;
      var outcome := Refused(RunNotRunning);
      if phase == Running {
        outcome := economy.Execute(m.station, m.action);
      }
      if outcome.code == Ok {
        economy.Revise();
      }
      reply := Reply(m.request, outcome);
      results := results[m.station := results[m.station] + [Stored(m.fingerprint, reply.result)]];
    }

    method Reply(request: RequestId, outcome: Outcome) returns (reply: Reply)
      ensures reply == Answer(ResultFor(economy.View(), request, outcome))
    {
      reply := Answer(CommandResult(request, outcome.code, economy.tick, economy.worldVersion, outcome.target,
                                    outcome.transaction,
                                    if outcome.code == RateLimited then Some(economy.tick + 1) else None));
    }

    method StartRun()
      requires Valid()
      modifies this`phase, economy`worldVersion
      ensures Valid() && View() == Started(old(View()))
    {
      hide Inv;
      if phase == Ready {
        phase := Running;
        economy.Revise();
      }
    }

    method Tick(output: map<StationId, nat>)
      requires Valid()
      modifies this`phase, economy, economy.Repr()
      ensures Valid() && View() == Ticked(old(View()), output)
    {
      hide Inv, Advance, Produce, Engine.EndRun;
      if phase == Running {
        economy.AdvanceTick();
        economy.SetProduction(output);
        if economy.tick >= economy.rules.durationTicks {
          economy.EndRun();
          phase := Finished;
        }
      }
    }

    /** A station's next state; its sequence rises by one each time. */
    method SnapshotFor(station: StationId) returns (seen: Snapshot)
      requires Valid() && station in results && station in sequences
      modifies this`sequences
      ensures Valid() && View() == old(View())
      ensures sequences == old(sequences)[station := old(sequences[station]) + 1]
      ensures seen == SnapshotOf(View(), station, sequences[station])
    {
      hide Inv;
      sequences := sequences[station := sequences[station] + 1];
      seen := economy.ObservationFor(station, sequences[station], phase, ResultsOf(results[station]));
    }
  }

  function ResultsOf(stored: seq<Stored>): (results: seq<CommandResult>)
    ensures |results| == |stored|
    ensures forall i :: 0 <= i < |stored| ==> results[i] == stored[i].result
  {
    seq(|stored|, i requires 0 <= i < |stored| => stored[i].result)
  }

  function SnapshotOf(s: ServerState, station: StationId, sequence: nat): Snapshot
    requires station in s.world.stations && station in s.results
  {
    Engine.ObservationFor(s.world, station, sequence, s.phase, ResultsOf(s.results[station]))
  }
}
