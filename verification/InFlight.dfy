/** Why the client never counts on stock it no longer has: sends, server steps, other
    players and snapshot delivery interleaved in any order within one session. */
module InFlight {
  import opened Arithmetic
  import opened Domain
  import opened Stations
  import opened Engine
  import opened EngineInvariant
  import opened EngineRuns
  import opened Economy
  import opened Server
  import opened Commitments
  import Session

  // ---- uncommitted stock at the server -----------------------------------------------------

  /** Our stock less what our open offers promise; negative when stock ran short since. */
  ghost function Slack(w: World, me: StationId, r: Resource): int
    requires me in w.stations
  {
    w.stations[me].inventory.Get(r) - Tally(w.offers, OpenGivesOf(me, r))
  }

  ghost function ShownSlack(s: Snapshot, r: Resource): int {
    s.me.inventory.Get(r) - Promised(s).Get(r)
  }

  lemma CloseFreesStock(w: World, o: Offer, status: OfferStatus, transaction: Option<ObjectId>, me: StationId, r: Resource)
    requires OffersNumbered(w.offers, w.nextId) && o in w.offers && o.status == Open && status != Open
    ensures Tally(CloseById(w.offers, o.id, status, w.tick, transaction), OpenGivesOf(me, r))
         == Tally(w.offers, OpenGivesOf(me, r)) - (if o.proposer == me then o.give.Get(r) else 0)
  {
    var after := CloseById(w.offers, o.id, status, w.tick, transaction);
    var k := CloseChangesOne(w, o, status, transaction);
    TallyUpdate(w.offers, after, k, OpenGivesOf(me, r));
  }

  /** A command by anyone else never lowers our slack. */
  lemma OthersOnlyRaiseSlack(w: World, f: Founding, s: StationId, a: Action, me: StationId, r: Resource)
    requires Inv(w, f) && s in w.stations && me in w.stations && s != me
    ensures me in Execute(w, s, a).0.stations
    ensures Slack(Execute(w, s, a).0, me, r) >= Slack(w, me, r)
  {
    assert Sound(w) && OffersNumbered(w.offers, w.nextId);
    hide Inv, AcceptedOffer, Withdrew, Tally, KeepAds, OffersNumbered;
    if Precheck(w, s, a).None? {
      match a
      case MakeOffer(_, _, _, _) => TallyAppend(w.offers, OfferFor(Counted(w, s), s, a), OpenGivesOf(me, r));
      case Accept(id) => AcceptMovesSlack(Counted(w, s), s, id, me, r);
      case Withdraw(id) => WithdrawMovesSlack(Counted(w, s), s, id, me, r);
      case _ =>
    }
  }

  lemma AcceptMovesSlack(w: World, s: StationId, id: ObjectId, me: StationId, r: Resource)
    requires Sound(w) && OffersNumbered(w.offers, w.nextId) && me in w.stations && s != me
    ensures me in AcceptedOffer(w, s, id).0.stations
    ensures Slack(AcceptedOffer(w, s, id).0, me, r) >= Slack(w, me, r)
  {
    var found := FindOffer(w.offers, id);
    if AcceptRefusal(w, s, found).None? {
      CloseFreesStock(w, found.value, Accepted, Some(TransactionId(w.nextId)), me, r);
    }
  }

  lemma WithdrawMovesSlack(w: World, s: StationId, id: ObjectId, me: StationId, r: Resource)
    requires OffersNumbered(w.offers, w.nextId) && me in w.stations
    ensures Slack(Withdrew(w, s, id).0, me, r) >= Slack(w, me, r)
  {
    var found := FindOffer(w.offers, id);
    if FindAd(w.ads, id).None? && found.Some? && found.value.status == Open {
      CloseFreesStock(w, found.value, Withdrawn, None, me, r);
    }
  }

  /** What one of our own commands can cost our slack; an accept is not bounded here. */
  function GiveOf(a: Action): Bundle { if a.MakeOffer? then a.give else Bundle.Zero() }

  lemma OwnRefusalSlack(w: World, a: Action, me: StationId, r: Resource)
    requires Sound(w) && me in w.stations && Execute(w, me, a).1.code != Ok
    ensures me in Execute(w, me, a).0.stations && Slack(Execute(w, me, a).0, me, r) == Slack(w, me, r)
  {
    RefusalMovesNothing(w, me, a);
    var v := Execute(w, me, a).0;
    assert v.stations == w.stations && v.offers == w.offers;
  }

  lemma OwnSuccessSlack(w: World, a: Action, me: StationId, r: Resource)
    requires Sound(w) && OffersNumbered(w.offers, w.nextId) && me in w.stations
    requires Execute(w, me, a).1.code == Ok && !a.Accept?
    ensures me in Execute(w, me, a).0.stations
    ensures Slack(Execute(w, me, a).0, me, r) >= Slack(w, me, r) - GiveOf(a).Get(r)
  {
    var c := Counted(w, me);
    if a.MakeOffer? {
      TallyAppend(w.offers, OfferFor(c, me, a), OpenGivesOf(me, r));
    } else if a.Withdraw? {
      WithdrawMovesSlack(c, me, a.target, me, r);
    }
  }

  /** A tick costs at most one round of upkeep. */
  lemma TickSlack(w: World, me: StationId, r: Resource)
    requires me in w.stations
    ensures me in Advance(w).stations
    ensures Slack(Advance(w), me, r) >= Slack(w, me, r) - w.stations[me].upkeep.Get(r)
    ensures Advance(w).stations[me].upkeep == w.stations[me].upkeep
  {
    var v := Advance(w);
    assert v.stations[me] == Settled(w.stations[me], w.rules, w.tick + 1);
    assert v.offers == AdvancedOffers(w.offers, v.stations, w.tick + 1);
    TallyMonotone(w.offers, v.offers, OpenGivesOf(me, r));
  }

  lemma {:induction false} PromisedIsTally(offers: seq<Offer>, me: StationId, tick: int, r: Resource)
    requires forall o :: o in offers && o.status == Open ==> tick < o.expires
    ensures PromisedIn(KeepOffers(offers, Involving(me)), me, tick).Get(r) == Tally(offers, OpenGivesOf(me, r))
  {
    if offers != [] {
      var n := |offers| - 1;
      assert offers == offers[..n] + [offers[n]];
      PromisedIsTally(offers[..n], me, tick, r);
      PromisedLast(KeepOffers(offers[..n], Involving(me)), offers[n], me, tick);
    }
  }

  lemma PromisedLast(offers: seq<Offer>, o: Offer, me: StationId, tick: int)
    ensures PromisedIn(offers + [o], me, tick)
         == if o.proposer == me && o.IsOpenAt(tick) then PromisedIn(offers, me, tick).Plus(o.give) else PromisedIn(offers, me, tick)
  {
    assert (offers + [o])[..|offers|] == offers;
  }

  // ---- one session, step by step -------------------------------------------------------------

  /** Where the executor stands with its one command. */
  datatype Stage = Idle | Awaiting(m: Message) | Confirming(m: Message, result: CommandResult) | Lost

  /** The server, everything it has sent us, what we have sent it, and the client. */
  datatype System = System(
    server: ServerState, published: seq<Snapshot>, replies: set<(RequestId, Reply)>, wire: set<Message>,
    latest: Option<Snapshot>, inflight: Ledger, stage: Stage)

  /** Fixed through the session: who we are, the engine's founding, our upkeep, and how
      many results were stored for us before it began. */
  datatype Frame = Frame(me: StationId, founding: Founding, upkeep: Bundle, base: nat)

  datatype Move =
    | Transmit(m: Message)
    | Block(m: Message)
    | Reach(m: Message)
    | Elsewhere(e: ServerEvent)
    | Publish
    | Show(i: nat)
    | Hear(request: RequestId, reply: Reply)
    | Confirm
    | Lose

  predicate HasResult(results: seq<CommandResult>, request: RequestId) {
    exists i :: 0 <= i < |results| && results[i].request == request
  }

  function ResultIn(results: seq<CommandResult>, request: RequestId): (r: CommandResult)
    requires HasResult(results, request)
    ensures r in results && r.request == request
  {
    if results[0].request == request then results[0] else ResultIn(results[1..], request)
  }

  ghost predicate Enabled(x: Frame, y: System, move: Move) {
    match move
    // The loop sends one command at a time; the tracker never lets an id name two bodies.
    case Transmit(m) =>
      && y.stage == Idle && m.station == x.me
      && forall n :: n in y.wire && n.request == m.request ==> n.fingerprint == m.fingerprint
    // The send gate may refuse any command, and then nothing is transmitted.
    case Block(m) => y.stage == Idle
    // The network may deliver a message any number of times.
    case Reach(m) => m in y.wire
    case Elsewhere(e) => e.Receive? ==> e.message.station != x.me
    case Publish => true
    case Show(i) => i < |y.published|
    case Hear(request, reply) => (request, reply) in y.replies
    case Confirm => y.stage.Confirming? && y.latest.Some? && y.stage.result in y.latest.value.results
    case Lose => true
  }

  function Held(inflight: Ledger, m: Message): Ledger {
    if m.action.MakeOffer? then With(inflight, m.request, m.action.give) else inflight
  }

  /** An outcome arrives: a rejection releases the hold at once. */
  function Resulted(y: System, m: Message, result: CommandResult): System {
    y.(stage := Confirming(m, result),
       inflight := if result.code != Ok then Without(y.inflight, m.request) else y.inflight)
  }

  ghost function Do(x: Frame, y: System, move: Move): System
    requires x.me in y.server.results && x.me in y.server.world.stations && Enabled(x, y, move)
  {
    match move
    case Transmit(m) => y.(wire := y.wire + {m}, inflight := Held(y.inflight, m), stage := Awaiting(m))
    case Block(m) => y.(inflight := Without(Held(y.inflight, m), m.request))
    case Reach(m) =>
      if m.station != x.me then y
      else
        var (server, reply) := Handle(y.server, m);
        y.(server := server, replies := y.replies + {(m.request, reply)})
    case Elsewhere(e) => y.(server := Next(y.server, e))
    case Publish => y.(published := y.published + [SnapshotOf(y.server, x.me, |y.published| + 1)])
    case Show(i) =>
      var s := y.published[i];
      if y.latest.Some? && s.sequence <= y.latest.value.sequence then y
      else
        var seen := y.(latest := Some(s));
        if y.stage.Awaiting? && HasResult(s.results, y.stage.m.request) then
          Resulted(seen, y.stage.m, ResultIn(s.results, y.stage.m.request))
        else seen
    case Hear(request, reply) =>
      if y.stage.Awaiting? && y.stage.m.request == request then
        if reply.Answer? then Resulted(y, y.stage.m, reply.result)
        else y.(stage := Idle, inflight := Without(y.inflight, request))
      else y
    case Confirm => y.(stage := Idle, inflight := Without(y.inflight, y.stage.m.request))
    case Lose => y.(stage := Lost)
  }

  // ---- what every interleaving keeps ------------------------------------------------------------

  ghost function LogOf(x: Frame, y: System): seq<Stored>
    requires x.me in y.server.results
  {
    y.server.results[x.me]
  }

  predicate Busy(y: System) { y.stage.Awaiting? || y.stage.Confirming? }

  /** Our current command succeeded at the server, but after this snapshot was taken. */
  ghost predicate Owing(x: Frame, y: System, s: Snapshot)
    requires x.me in y.server.results
  {
    && Busy(y) && !HasResult(s.results, y.stage.m.request)
    && FindStored(LogOf(x, y), y.stage.m.request).Some?
    && FindStored(LogOf(x, y), y.stage.m.request).value.result.code == Ok
  }

  ghost function Owed(x: Frame, y: System, s: Snapshot, r: Resource): nat
    requires x.me in y.server.results
  {
    if Owing(x, y, s) then GiveOf(y.stage.m.action).Get(r) else 0
  }

  /** What upkeep can have cost since a snapshot was taken. */
  function Decay(x: Frame, now: nat, since: nat, r: Resource): int {
    (now - since) * x.upkeep.Get(r)
  }

  ghost predicate Covered(x: Frame, y: System, s: Snapshot, r: Resource)
    requires x.me in y.server.results && x.me in y.server.world.stations
  {
    || (Owing(x, y, s) && y.stage.m.action.Accept?)
    || ShownSlack(s, r) <= Slack(y.server.world, x.me, r) + Owed(x, y, s, r) + Decay(x, y.server.world.tick, s.tick, r)
  }

  function LatestNumber(y: System): nat { if y.latest.Some? then y.latest.value.sequence else 0 }

  /** A sent snapshot carries a prefix of the results stored for us, its number and tick. */
  ghost predicate Faithful(x: Frame, y: System, i: nat)
    requires x.me in y.server.results && i < |y.published|
  {
    var s := y.published[i];
    && s.sequence == i + 1 && s.self == x.me && s.tick <= y.server.world.tick
    && x.base <= |s.results| <= |LogOf(x, y)|
    && (forall k :: 0 <= k < |s.results| ==> s.results[k] == LogOf(x, y)[k].result)
  }

  ghost predicate Ordered(y: System, i: nat, j: nat)
    requires i < |y.published| && j < |y.published|
  {
    |y.published[i].results| <= |y.published[j].results|
  }

  ghost predicate ServerSide(x: Frame, y: System) {
    && Inv(y.server.world, x.founding)
    && x.me in y.server.results && x.me in y.server.world.stations
    && y.server.world.stations[x.me].upkeep == x.upkeep
    && x.base <= |LogOf(x, y)|
  }

  ghost predicate Snapshots(x: Frame, y: System)
    requires x.me in y.server.results
  {
    && (forall i {:trigger Faithful(x, y, i)} :: 0 <= i < |y.published| ==> Faithful(x, y, i))
    && (forall i, j {:trigger Ordered(y, i, j)} :: 0 <= i <= j < |y.published| ==> Ordered(y, i, j))
    && (y.latest.Some? ==> 1 <= LatestNumber(y) <= |y.published| && y.latest.value == y.published[LatestNumber(y) - 1])
  }

  /** Only the command being awaited can still be new to the server. */
  ghost predicate Messages(x: Frame, y: System)
    requires x.me in y.server.results
  {
    && (forall m :: m in y.wire ==>
          m.station == x.me && (Sealed(y.server, x.me, m.request) || y.stage == Awaiting(m)))
    && (forall m, n :: m in y.wire && n in y.wire && m.request == n.request ==> m.fingerprint == n.fingerprint)
    && (Busy(y) ==> y.stage.m in y.wire)
  }

  /** Results stored this session answer messages sent this session. */
  ghost predicate AnswersSent(x: Frame, y: System, k: nat)
    requires x.me in y.server.results && k < |LogOf(x, y)|
  {
    exists m :: m in y.wire && m.request == LogOf(x, y)[k].result.request && m.fingerprint == LogOf(x, y)[k].fingerprint
  }

  /** The request already had a result before the session began. */
  ghost predicate Inherited(x: Frame, y: System, request: RequestId)
    requires x.me in y.server.results
  {
    exists k :: 0 <= k < x.base && k < |LogOf(x, y)| && LogOf(x, y)[k].result.request == request
  }

  /** A reply seals its request; a rejection means nothing of it will ever be owed. */
  ghost predicate Settles(x: Frame, y: System, request: RequestId, reply: Reply)
    requires x.me in y.server.results
  {
    && Sealed(y.server, x.me, request)
    && (reply.Answer? ==> reply.result.request == request)
    && (reply.Control? || reply.result.code != Ok ==> Unowed(x, y, request))
  }

  ghost predicate Unowed(x: Frame, y: System, request: RequestId)
    requires x.me in y.server.results
  {
    || Inherited(x, y, request)
    || (FindStored(LogOf(x, y), request).Some? && FindStored(LogOf(x, y), request).value.result.code != Ok)
    || (FindStored(LogOf(x, y), request).None? && |LogOf(x, y)| >= y.server.world.rules.maxRequestRecords)
  }

  ghost predicate Replies(x: Frame, y: System)
    requires x.me in y.server.results
  {
    && (forall request, reply {:trigger Settles(x, y, request, reply)} :: (request, reply) in y.replies ==> Settles(x, y, request, reply))
    && (forall k {:trigger AnswersSent(x, y, k)} :: x.base <= k < |LogOf(x, y)| ==> AnswersSent(x, y, k))
  }

  /** The ledger holds an offer's stock from before its send until it is rejected or a
      snapshot shows its result. */
  ghost predicate LedgerHolds(x: Frame, y: System) {
    match y.stage
    case Idle => y.inflight == []
    case Awaiting(m) => y.inflight == Held([], m)
    case Confirming(m, result) => if result.code == Ok then y.inflight == Held([], m) else y.inflight == []
    case Lost => true
  }

  ghost predicate Outcomes(x: Frame, y: System)
    requires x.me in y.server.results
  {
    y.stage.Confirming? ==>
      && Sealed(y.server, x.me, y.stage.m.request)
      && y.stage.result.request == y.stage.m.request
      && (y.stage.result.code != Ok ==>
            Unowed(x, y, y.stage.m.request)
            || (y.latest.Some? && HasResult(y.latest.value.results, y.stage.m.request)))
  }

  ghost predicate Current(y: System, i: nat) { LatestNumber(y) <= i + 1 }

  /** Every snapshot not older than the client's view is covered by the server's slack. */
  ghost predicate Coverage(x: Frame, y: System)
    requires x.me in y.server.results && x.me in y.server.world.stations
  {
    forall i, r {:trigger Covered(x, y, y.published[i], r)} :: 0 <= i < |y.published| && Current(y, i) ==> Covered(x, y, y.published[i], r)
  }

  ghost predicate Good(x: Frame, y: System) {
    && ServerSide(x, y)
    && Snapshots(x, y) && Messages(x, y) && Replies(x, y) && LedgerHolds(x, y) && Outcomes(x, y)
    && Coverage(x, y)
  }

  // ---- the server moves -----------------------------------------------------------------------------

  /** What any server step does to the part of it we look at. */
  ghost predicate Loses(x: Frame, y: System, z: System, cost: nat, ticks: nat, r: Resource)
    requires ServerSide(x, y) && ServerSide(x, z)
  {
    && Slack(z.server.world, x.me, r) >= Slack(y.server.world, x.me, r) - cost - ticks * x.upkeep.Get(r)
    && z.server.world.tick == y.server.world.tick + ticks
  }

  lemma ElsewhereKeepsServer(x: Frame, y: System, e: ServerEvent, r: Resource)
    requires ServerSide(x, y) && (e.Receive? ==> e.message.station != x.me)
    ensures var z := y.(server := Next(y.server, e));
            && ServerSide(x, z) && LogOf(x, z) == LogOf(x, y)
            && Grows(y.server, z.server)
            && (Loses(x, y, z, 0, 0, r) || Loses(x, y, z, 0, 1, r))
  {
    hide Inv, Slack, Handle, Grows, Advance, Produce, Engine.EndRun, IsFinished;
    NextKeeps(y.server, x.founding, e);
    NextGrows(y.server, e);
    LogStays(y.server, e, x.me);
    match e
    case Receive(m) =>
      if m.station in y.server.results { OthersMove(x, y, m, r); }
    case Start => BumpKeepsSlack(y.server.world, x.me, r);
    case Clock(output) =>
      if y.server.phase == Running { ClockMoves(x, y, output, r); }
  }

  lemma BumpKeepsSlack(w: World, me: StationId, r: Resource)
    requires me in w.stations
    ensures Slack(Bumped(w), me, r) == Slack(w, me, r)
  {
  }

  lemma LogStays(s: ServerState, e: ServerEvent, me: StationId)
    requires me in s.results && (e.Receive? ==> e.message.station != me)
    ensures Grows(s, Next(s, e)) && me in Next(s, e).results && Next(s, e).results[me] == s.results[me]
  {
    NextGrows(s, e);
    hide Try, Advance, Execute;
  }

  lemma OthersMove(x: Frame, y: System, m: Message, r: Resource)
    requires ServerSide(x, y) && m.station != x.me && m.station in y.server.results
    ensures var w := Handle(y.server, m).0.world;
            && x.me in w.stations && w.stations[x.me].upkeep == x.upkeep && w.tick == y.server.world.tick
            && Slack(w, x.me, r) >= Slack(y.server.world, x.me, r)
  {
    if m.station in y.server.world.stations {
      OthersOnlyRaiseSlack(y.server.world, x.founding, m.station, m.action, x.me, r);
      ExecuteKeepsUpkeep(y.server.world, m.station, m.action, x.me);
    }
  }

  lemma ExecuteKeepsUpkeep(w: World, s: StationId, a: Action, me: StationId)
    requires Sound(w) && s in w.stations && me in w.stations
    ensures var v := Execute(w, s, a).0;
            me in v.stations && v.stations[me].upkeep == w.stations[me].upkeep && v.tick == w.tick
  {
    if Precheck(w, s, a).None? && a.Accept? {
      assert Execute(w, s, a) == AcceptedOffer(Counted(w, s), s, a.offer);
    }
  }

  lemma ClockMoves(x: Frame, y: System, output: map<StationId, nat>, r: Resource)
    requires ServerSide(x, y) && y.server.phase == Running
    ensures var w := Ticked(y.server, output).world;
            && x.me in w.stations && w.stations[x.me].upkeep == x.upkeep && w.tick == y.server.world.tick + 1
            && Slack(w, x.me, r) >= Slack(y.server.world, x.me, r) - x.upkeep.Get(r)
  {
    var v := Advance(y.server.world);
    TickSlack(y.server.world, x.me, r);
    var p := Produce(v, output);
    assert Slack(p, x.me, r) == Slack(v, x.me, r);
    if IsFinished(p) {
      AdvanceKeeps(y.server.world, x.founding);
      ProduceKeeps(v, x.founding, output);
      EndRunKeeps(p, x.founding);
    }
  }

  lemma DecayGrows(x: Frame, now: nat, since: nat, ticks: nat, r: Resource)
    ensures Decay(x, now + ticks, since, r) == Decay(x, now, since, r) + ticks * x.upkeep.Get(r)
  {
    DistributeRight(now - since, ticks, x.upkeep.Get(r));
  }

  lemma CoveredAfter(x: Frame, y: System, z: System, s: Snapshot, ticks: nat, r: Resource)
    requires ServerSide(x, y) && ServerSide(x, z) && Covered(x, y, s, r)
    requires z == y.(server := z.server) && LogOf(x, z) == LogOf(x, y) && Loses(x, y, z, 0, ticks, r)
    ensures Covered(x, z, s, r)
  {
    assert Owing(x, y, s) == Owing(x, z, s);
    DecayGrows(x, y.server.world.tick, s.tick, ticks, r);
  }

  lemma ElsewhereKeepsCoverage(x: Frame, y: System, e: ServerEvent)
    requires ServerSide(x, y) && Coverage(x, y) && (e.Receive? ==> e.message.station != x.me)
    ensures var z := y.(server := Next(y.server, e)); ServerSide(x, z) && Coverage(x, z)
  {
    var z := y.(server := Next(y.server, e));
    ElsewhereKeepsServer(x, y, e, Water);
    hide Next, Inv, Covered, Loses;
    forall i, r | 0 <= i < |z.published| && Current(z, i)
      ensures Covered(x, z, z.published[i], r)
    {
      CurrentCovered(x, y, i, r);
      ElsewhereKeepsServer(x, y, e, r);
      CoveredAfter(x, y, z, z.published[i], if Loses(x, y, z, 0, 0, r) then 0 else 1, r);
    }
  }

  lemma CurrentCovered(x: Frame, y: System, i: nat, r: Resource)
    requires x.me in y.server.results && x.me in y.server.world.stations
    requires Coverage(x, y) && i < |y.published| && LatestNumber(y) <= i + 1
    ensures Covered(x, y, y.published[i], r)
  {
    assert Current(y, i);
  }

  lemma ServerMoveKeepsRest(x: Frame, y: System, z: System)
    requires Good(x, y) && z == y.(server := z.server) && ServerSide(x, z)
    requires Grows(y.server, z.server) && LogOf(x, z) == LogOf(x, y) && y.server.world.tick <= z.server.world.tick
    ensures Snapshots(x, z) && Messages(x, z) && Replies(x, z) && LedgerHolds(x, z) && Outcomes(x, z)
  {
    forall i | 0 <= i < |z.published| ensures Faithful(x, z, i) {
      assert Faithful(x, y, i);
    }
    forall i, j | 0 <= i <= j < |z.published| ensures Ordered(z, i, j) {
      assert Ordered(y, i, j);
    }
    forall request, reply | (request, reply) in z.replies ensures Settles(x, z, request, reply) {
      assert Settles(x, y, request, reply);
    }
    forall k | x.base <= k < |LogOf(x, z)| ensures AnswersSent(x, z, k) {
      assert AnswersSent(x, y, k);
    }
  }

  lemma ElsewhereKeeps(x: Frame, y: System, e: ServerEvent)
    requires Good(x, y) && (e.Receive? ==> e.message.station != x.me)
    ensures Good(x, y.(server := Next(y.server, e)))
  {
    var z := y.(server := Next(y.server, e));
    ElsewhereKeepsServer(x, y, e, Water);
    ElsewhereKeepsCoverage(x, y, e);
    ServerMoveKeepsRest(x, y, z);
  }

  // ---- our own messages reach the server ------------------------------------------------------------

  lemma UnowedStays(x: Frame, y: System, z: System, request: RequestId)
    requires x.me in y.server.results && Grows(y.server, z.server) && Unowed(x, y, request)
    ensures Unowed(x, z, request)
  {
    var log, more := LogOf(x, y), LogOf(x, z);
    assert more == log + more[|log|..];
    if Inherited(x, y, request) {
      var k :| 0 <= k < x.base && k < |log| && log[k].result.request == request;
      assert more[k] == log[k];
    } else if FindStored(log, request).Some? {
      FindStoredKeeps(log, more[|log|..], request);
    }
  }

  /** What survives any growth of the stored results. */
  lemma GrowthKeepsSnapshots(x: Frame, y: System, z: System)
    requires x.me in y.server.results && Grows(y.server, z.server) && Snapshots(x, y)
    requires y.server.world.tick <= z.server.world.tick
    requires z.published == y.published && z.latest == y.latest
    ensures Snapshots(x, z)
  {
    forall i | 0 <= i < |z.published| ensures Faithful(x, z, i) {
      assert Faithful(x, y, i);
    }
    forall i, j | 0 <= i <= j < |z.published| ensures Ordered(z, i, j) {
      assert Ordered(y, i, j);
    }
  }

  lemma SettlesStays(x: Frame, y: System, z: System, request: RequestId, reply: Reply)
    requires x.me in y.server.results && Grows(y.server, z.server) && Settles(x, y, request, reply)
    ensures Settles(x, z, request, reply)
  {
    StaysSealed(y.server, z.server, x.me, request);
    if reply.Control? || reply.result.code != Ok {
      UnowedStays(x, y, z, request);
    }
  }

  /** A result stored this session answers the one body its request id ever named. */
  lemma SameBody(x: Frame, y: System, m: Message, k: nat)
    requires x.me in y.server.results && Messages(x, y) && Replies(x, y) && m in y.wire
    requires x.base <= k < |LogOf(x, y)| && LogOf(x, y)[k].result.request == m.request
    ensures LogOf(x, y)[k].fingerprint == m.fingerprint
  {
    assert AnswersSent(x, y, k);
  }

  /** A reply to one of our messages settles its request. */
  lemma ReplySettles(x: Frame, y: System, m: Message)
    requires ServerSide(x, y) && Messages(x, y) && Replies(x, y) && m in y.wire && m.station == x.me
    ensures var (server, reply) := Handle(y.server, m);
            Settles(x, y.(server := server), m.request, reply)
  {
    var (server, reply) := Handle(y.server, m);
    var z := y.(server := server);
    var log := LogOf(x, y);
    HandledIsSealed(y.server, m);
    var previous := FindStored(log, m.request);
    if previous.Some? {
      if previous.value.fingerprint != m.fingerprint {
        var k :| 0 <= k < |log| && log[k] == previous.value;
        if k >= x.base {
          SameBody(x, y, m, k);
        }
        assert Inherited(x, z, m.request);
      }
    } else if |log| < y.server.world.rules.maxRequestRecords {
      FindStoredNew(log, LogOf(x, z)[|log|], m.request);
    }
  }

  lemma ReachKeepsReplies(x: Frame, y: System, m: Message)
    requires ServerSide(x, y) && Messages(x, y) && Replies(x, y) && m in y.wire && m.station == x.me
    ensures Replies(x, Do(x, y, Reach(m)))
  {
    var z := Do(x, y, Reach(m));
    NextGrows(y.server, Receive(m));
    ReplySettles(x, y, m);
    forall request, reply | (request, reply) in z.replies ensures Settles(x, z, request, reply) {
      if (request, reply) in y.replies {
        assert Settles(x, y, request, reply);
        SettlesStays(x, y, z, request, reply);
      } else {
        assert Settles(x, y.(server := z.server), request, reply);
      }
    }
    forall k | x.base <= k < |LogOf(x, z)| ensures AnswersSent(x, z, k) {
      if k < |LogOf(x, y)| {
        assert AnswersSent(x, y, k);
        var n :| n in y.wire && n.request == LogOf(x, y)[k].result.request && n.fingerprint == LogOf(x, y)[k].fingerprint;
        assert n in z.wire;
      } else {
        assert m in z.wire;
      }
    }
  }

  lemma ReachKeepsServer(x: Frame, y: System, m: Message)
    requires ServerSide(x, y) && m in y.wire && m.station == x.me
    ensures ServerSide(x, Do(x, y, Reach(m)))
    ensures Do(x, y, Reach(m)).server.world.tick == y.server.world.tick
  {
    NextKeeps(y.server, x.founding, Receive(m));
    NextGrows(y.server, Receive(m));
    ExecuteKeepsUpkeep(y.server.world, x.me, m.action, x.me);
  }

  lemma ReachMovesSlack(x: Frame, y: System, m: Message, r: Resource)
    requires ServerSide(x, y) && m in y.wire && m.station == x.me
    requires FindStored(LogOf(x, y), m.request).None? && |LogOf(x, y)| < y.server.world.rules.maxRequestRecords
    ensures var z := Do(x, y, Reach(m));
            && ServerSide(x, z) && |LogOf(x, z)| == |LogOf(x, y)| + 1
            && var result := LogOf(x, z)[|LogOf(x, y)|].result;
            && FindStored(LogOf(x, z), m.request) == Some(LogOf(x, z)[|LogOf(x, y)|])
            && (result.code != Ok ==> Slack(z.server.world, x.me, r) == Slack(y.server.world, x.me, r))
            && (result.code == Ok && !m.action.Accept? ==>
                  Slack(z.server.world, x.me, r) >= Slack(y.server.world, x.me, r) - GiveOf(m.action).Get(r))
  {
    var z := Do(x, y, Reach(m));
    ReachKeepsServer(x, y, m);
    FindStoredNew(LogOf(x, y), LogOf(x, z)[|LogOf(x, y)|], m.request);
    if y.server.phase == Running {
      if Execute(y.server.world, x.me, m.action).1.code != Ok {
        OwnRefusalSlack(y.server.world, m.action, x.me, r);
      } else if !m.action.Accept? {
        OwnSuccessSlack(y.server.world, m.action, x.me, r);
      }
    }
  }

  lemma UnstoredIsUnshown(x: Frame, y: System, i: nat, request: RequestId)
    requires x.me in y.server.results && Snapshots(x, y) && i < |y.published|
    requires FindStored(LogOf(x, y), request).None?
    ensures !HasResult(y.published[i].results, request)
  {
    assert Faithful(x, y, i);
    forall k | 0 <= k < |y.published[i].results| ensures y.published[i].results[k].request != request {
      assert LogOf(x, y)[k] in LogOf(x, y);
    }
  }

  /** The command the client is waiting on is processed: what it costs is now owed. */
  lemma NewCommandCovered(x: Frame, y: System, m: Message, i: nat, r: Resource)
    requires ServerSide(x, y) && Snapshots(x, y) && i < |y.published|
    requires m in y.wire && m.station == x.me && y.stage == Awaiting(m)
    requires FindStored(LogOf(x, y), m.request).None? && |LogOf(x, y)| < y.server.world.rules.maxRequestRecords
    requires Covered(x, y, y.published[i], r)
    ensures ServerSide(x, Do(x, y, Reach(m))) && Covered(x, Do(x, y, Reach(m)), y.published[i], r)
  {
    ReachMovesSlack(x, y, m, r);
    ReachKeepsServer(x, y, m);
    UnstoredIsUnshown(x, y, i, m.request);
  }

  lemma SealedReachChangesNothing(x: Frame, y: System, m: Message)
    requires ServerSide(x, y) && m in y.wire && m.station == x.me && Sealed(y.server, x.me, m.request)
    ensures Do(x, y, Reach(m)).server == y.server
  {
    SealedIsIgnored(y.server, m);
  }

  lemma ReachKeepsCoverage(x: Frame, y: System, m: Message)
    requires ServerSide(x, y) && Snapshots(x, y) && Messages(x, y) && Coverage(x, y) && m in y.wire
    ensures var z := Do(x, y, Reach(m)); ServerSide(x, z) && Coverage(x, z)
  {
    var z := Do(x, y, Reach(m));
    ReachKeepsServer(x, y, m);
    if Sealed(y.server, x.me, m.request) {
      SealedReachChangesNothing(x, y, m);
    }
    hide Inv, Slack, ShownSlack, Handle;
    forall i, r | 0 <= i < |z.published| && Current(z, i)
      ensures Covered(x, z, z.published[i], r)
    {
      CurrentCovered(x, y, i, r);
      if !Sealed(y.server, x.me, m.request) {
        NewCommandCovered(x, y, m, i, r);
      }
    }
  }

  lemma ReachKeepsMessages(x: Frame, y: System, m: Message)
    requires x.me in y.server.results && Messages(x, y) && Outcomes(x, y) && m in y.wire
    requires x.me in y.server.world.stations
    ensures Messages(x, Do(x, y, Reach(m))) && Outcomes(x, Do(x, y, Reach(m)))
  {
    var z := Do(x, y, Reach(m));
    NextGrows(y.server, Receive(m));
    forall n | n in z.wire ensures n.station == x.me && (Sealed(z.server, x.me, n.request) || z.stage == Awaiting(n)) {
      if Sealed(y.server, x.me, n.request) { StaysSealed(y.server, z.server, x.me, n.request); }
    }
    if z.stage.Confirming? {
      StaysSealed(y.server, z.server, x.me, z.stage.m.request);
      if Unowed(x, y, z.stage.m.request) { UnowedStays(x, y, z, z.stage.m.request); }
    }
  }

  lemma ReachKeeps(x: Frame, y: System, m: Message)
    requires Good(x, y) && m in y.wire
    ensures Good(x, Do(x, y, Reach(m)))
  {
    var z := Do(x, y, Reach(m));
    ReachKeepsServer(x, y, m);
    NextGrows(y.server, Receive(m));
    GrowthKeepsSnapshots(x, y, z);
    ReachKeepsReplies(x, y, m);
    ReachKeepsCoverage(x, y, m);
    ReachKeepsMessages(x, y, m);
  }

  // ---- snapshots and answers reach the client ----------------------------------------------------------

  lemma FreshSnapshotCovered(x: Frame, y: System, number: nat, r: Resource)
    requires ServerSide(x, y)
    ensures var s := SnapshotOf(y.server, x.me, number);
            ShownSlack(s, r) == Slack(y.server.world, x.me, r) && !Owing(x, y, s)
  {
    var w := y.server.world;
    var s := SnapshotOf(y.server, x.me, number);
    forall o | o in w.offers && o.status == Open ensures w.tick < o.expires {
      assert Standing(o, w.stations, w.tick, w.rules.durationTicks);
    }
    PromisedIsTally(w.offers, x.me, w.tick, r);
    if Busy(y) && FindStored(LogOf(x, y), y.stage.m.request).Some? {
      var entry := FindStored(LogOf(x, y), y.stage.m.request).value;
      var k :| 0 <= k < |LogOf(x, y)| && LogOf(x, y)[k] == entry;
      assert s.results[k].request == y.stage.m.request;
    }
  }

  lemma PublishKeeps(x: Frame, y: System)
    requires Good(x, y)
    ensures Good(x, Do(x, y, Publish))
  {
    var z := Do(x, y, Publish);
    var n := |y.published|;
    hide Inv;
    forall i | 0 <= i < n + 1 ensures Faithful(x, z, i) {
      if i < n { assert Faithful(x, y, i); }
    }
    forall i, j | 0 <= i <= j < n + 1 ensures Ordered(z, i, j) {
      if j < n { assert Ordered(y, i, j); } else if i < n { assert Faithful(x, y, i); }
    }
    forall request, reply | (request, reply) in z.replies ensures Settles(x, z, request, reply) {
      assert Settles(x, y, request, reply);
    }
    forall k | x.base <= k < |LogOf(x, z)| ensures AnswersSent(x, z, k) {
      assert AnswersSent(x, y, k);
    }
    forall i, r | 0 <= i < n + 1 && Current(z, i) ensures Covered(x, z, z.published[i], r) {
      if i < n {
        CurrentCovered(x, y, i, r);
      } else {
        FreshSnapshotCovered(x, y, n + 1, r);
      }
    }
  }

  /** A later snapshot shows every result an earlier one did. */
  lemma LaterShowsMore(x: Frame, y: System, i: nat, j: nat, request: RequestId)
    requires x.me in y.server.results && Snapshots(x, y) && i <= j < |y.published|
    requires HasResult(y.published[i].results, request)
    ensures HasResult(y.published[j].results, request)
  {
    assert Faithful(x, y, i) && Faithful(x, y, j) && Ordered(y, i, j);
    var k :| 0 <= k < |y.published[i].results| && y.published[i].results[k].request == request;
    assert y.published[j].results[k] == y.published[i].results[k];
  }

  lemma ShownIsSealed(x: Frame, y: System, i: nat, request: RequestId)
    requires x.me in y.server.results && Snapshots(x, y) && i < |y.published|
    requires HasResult(y.published[i].results, request)
    ensures Sealed(y.server, x.me, request)
  {
    assert Faithful(x, y, i);
    var k :| 0 <= k < |y.published[i].results| && y.published[i].results[k].request == request;
    assert LogOf(x, y)[k] in LogOf(x, y);
  }

  /** Changing only what the client knows keeps a snapshot covered, unless that drops a debt. */
  lemma ClientMoveCovered(x: Frame, y: System, z: System, i: nat, r: Resource)
    requires x.me in y.server.results && x.me in y.server.world.stations && z.server == y.server
    requires i < |y.published| && z.published == y.published
    requires Covered(x, y, y.published[i], r)
    requires Owing(x, y, y.published[i]) ==> Busy(z) && z.stage.m == y.stage.m
    ensures Covered(x, z, z.published[i], r)
  {
    if Busy(z) && Busy(y) && z.stage.m == y.stage.m {
      assert Owing(x, y, y.published[i]) == Owing(x, z, y.published[i]);
    }
  }

  lemma ClientMoveKeepsCoverage(x: Frame, y: System, z: System)
    requires x.me in y.server.results && x.me in y.server.world.stations && Coverage(x, y)
    requires z.server == y.server && z.published == y.published && LatestNumber(z) >= LatestNumber(y)
    requires forall i :: LatestNumber(z) <= i + 1 && 0 <= i < |y.published| && Owing(x, y, y.published[i]) ==> Busy(z) && z.stage.m == y.stage.m
    ensures Coverage(x, z)
  {
    forall i, r | 0 <= i < |z.published| && Current(z, i) ensures Covered(x, z, z.published[i], r) {
      CurrentCovered(x, y, i, r);
      ClientMoveCovered(x, y, z, i, r);
    }
  }

  lemma ClientMoveKeepsRest(x: Frame, y: System, z: System)
    requires x.me in y.server.results && Snapshots(x, y) && Replies(x, y)
    requires z.server == y.server && z.published == y.published && z.replies == y.replies && y.wire <= z.wire
    requires z.latest == y.latest || (z.latest.Some? && 1 <= LatestNumber(z) <= |z.published| && z.latest.value == z.published[LatestNumber(z) - 1])
    ensures Snapshots(x, z) && Replies(x, z)
  {
    forall i | 0 <= i < |z.published| ensures Faithful(x, z, i) {
      assert Faithful(x, y, i);
    }
    forall i, j | 0 <= i <= j < |z.published| ensures Ordered(z, i, j) {
      assert Ordered(y, i, j);
    }
    forall request, reply | (request, reply) in z.replies ensures Settles(x, z, request, reply) {
      assert Settles(x, y, request, reply);
    }
    forall k | x.base <= k < |LogOf(x, z)| ensures AnswersSent(x, z, k) {
      assert AnswersSent(x, y, k);
      var n :| n in y.wire && n.request == LogOf(x, y)[k].result.request && n.fingerprint == LogOf(x, y)[k].fingerprint;
      assert n in z.wire;
    }
  }

  lemma TransmitKeeps(x: Frame, y: System, m: Message)
    requires Good(x, y) && Enabled(x, y, Transmit(m))
    ensures Good(x, Do(x, y, Transmit(m)))
  {
    var z := Do(x, y, Transmit(m));
    ClientMoveKeepsRest(x, y, z);
    ClientMoveKeepsCoverage(x, y, z);
  }

  lemma WithoutOnly(request: RequestId, give: Bundle)
    ensures With([], request, give) == [(request, give)]
    ensures Without([(request, give)], request) == []
  {
    assert [(request, give)][..0] == [];
  }

  lemma ReleasedLedger(m: Message)
    ensures Without(Held([], m), m.request) == []
  {
    if m.action.MakeOffer? { WithoutOnly(m.request, m.action.give); }
  }

  lemma ShowKeeps(x: Frame, y: System, i: nat)
    requires Good(x, y) && i < |y.published|
    ensures Good(x, Do(x, y, Show(i)))
  {
    var z := Do(x, y, Show(i));
    assert Faithful(x, y, i);
    ClientMoveKeepsRest(x, y, z);
    ClientMoveKeepsCoverage(x, y, z);
    if z.stage != y.stage {
      ReleasedLedger(y.stage.m);
      ShownIsSealed(x, y, i, y.stage.m.request);
    } else if z.latest != y.latest && y.stage.Confirming? && y.latest.Some? && HasResult(y.latest.value.results, y.stage.m.request) {
      LaterShowsMore(x, y, LatestNumber(y) - 1, i, y.stage.m.request);
    }
  }

  /** Nothing that was refused for good is ever owed. */
  lemma UnowedOwesNothing(x: Frame, y: System, i: nat)
    requires x.me in y.server.results && Snapshots(x, y) && i < |y.published| && Busy(y)
    requires Unowed(x, y, y.stage.m.request)
    ensures !Owing(x, y, y.published[i])
  {
    assert Faithful(x, y, i);
    if Inherited(x, y, y.stage.m.request) {
      var k :| 0 <= k < x.base && k < |LogOf(x, y)| && LogOf(x, y)[k].result.request == y.stage.m.request;
      assert y.published[i].results[k].request == y.stage.m.request;
    }
  }

  lemma HearKeeps(x: Frame, y: System, request: RequestId, reply: Reply)
    requires Good(x, y) && (request, reply) in y.replies
    ensures Good(x, Do(x, y, Hear(request, reply)))
  {
    var z := Do(x, y, Hear(request, reply));
    assert Settles(x, y, request, reply);
    if y.stage.Awaiting? && y.stage.m.request == request {
      ReleasedLedger(y.stage.m);
      if reply.Control? {
        forall i | 0 <= i < |y.published| ensures !Owing(x, y, y.published[i]) {
          UnowedOwesNothing(x, y, i);
        }
      }
      ClientMoveKeepsRest(x, y, z);
      ClientMoveKeepsCoverage(x, y, z);
    }
  }

  lemma ConfirmKeeps(x: Frame, y: System)
    requires Good(x, y) && Enabled(x, y, Confirm)
    ensures Good(x, Do(x, y, Confirm))
  {
    var z := Do(x, y, Confirm);
    var n := LatestNumber(y) - 1;
    ReleasedLedger(y.stage.m);
    forall i | 0 <= i < |y.published| && LatestNumber(z) <= i + 1 ensures !Owing(x, y, y.published[i]) {
      LaterShowsMore(x, y, n, i, y.stage.m.request);
    }
    ClientMoveKeepsRest(x, y, z);
    ClientMoveKeepsCoverage(x, y, z);
    if y.stage.result.code != Ok {
      assert Without([], y.stage.m.request) == [];
    }
  }

  // ---- every run of the session ------------------------------------------------------------------------

  /** A session starts with nothing sent and nothing shown, on a server in any reachable state. */
  ghost predicate Begins(x: Frame, y: System) {
    && ServerSide(x, y) && x.base == |LogOf(x, y)|
    && y.published == [] && y.replies == {} && y.wire == {}
    && y.latest == None && y.inflight == [] && y.stage == Idle
  }

  /** A move that cannot happen changes nothing, and a lost session is discarded. */
  ghost function Attempted(x: Frame, y: System, move: Move): System {
    if !y.stage.Lost? && x.me in y.server.results && x.me in y.server.world.stations && Enabled(x, y, move)
    then Do(x, y, move) else y
  }

  ghost function AfterMoves(x: Frame, y: System, moves: seq<Move>): System {
    if moves == [] then y
    else Attempted(x, AfterMoves(x, y, moves[..|moves| - 1]), moves[|moves| - 1])
  }

  lemma MoveKeeps(x: Frame, y: System, move: Move)
    requires Good(x, y) && Enabled(x, y, move) && !move.Lose?
    ensures Good(x, Do(x, y, move))
  {
    match move
    case Transmit(m) => TransmitKeeps(x, y, m);
    case Block(m) => ReleasedLedger(m);
    case Reach(m) => ReachKeeps(x, y, m);
    case Elsewhere(e) => ElsewhereKeeps(x, y, e);
    case Publish => PublishKeeps(x, y);
    case Show(i) => ShowKeeps(x, y, i);
    case Hear(request, reply) => HearKeeps(x, y, request, reply);
    case Confirm => ConfirmKeeps(x, y);
  }

  lemma {:induction false} RunStaysGood(x: Frame, y: System, moves: seq<Move>)
    requires Begins(x, y)
    ensures AfterMoves(x, y, moves).stage.Lost? || Good(x, AfterMoves(x, y, moves))
  {
    if moves != [] {
      var before, move := AfterMoves(x, y, moves[..|moves| - 1]), moves[|moves| - 1];
      RunStaysGood(x, y, moves[..|moves| - 1]);
      if !before.stage.Lost? && Enabled(x, before, move) && !move.Lose? {
        MoveKeeps(x, before, move);
      }
    }
  }

  lemma IdleCounts(x: Frame, z: System, r: Resource)
    requires x.me in z.server.results && x.me in z.server.world.stations
    requires Snapshots(x, z) && Coverage(x, z) && LedgerHolds(x, z) && z.stage == Idle && z.latest.Some?
    ensures z.latest.value.tick <= z.server.world.tick
    ensures Available(z.latest.value, z.inflight).Get(r)
         <= Max(0, Slack(z.server.world, x.me, r) + Decay(x, z.server.world.tick, z.latest.value.tick, r))
    ensures z.latest.value.tick == z.server.world.tick ==>
              Available(z.latest.value, z.inflight).Get(r) <= Max(0, Slack(z.server.world, x.me, r))
  {
    hide Slack, Available, ShownSlack, Decay;
    var n := LatestNumber(z) - 1;
    assert Faithful(x, z, n);
    CurrentCovered(x, z, n, r);
    NothingHeld(z.latest.value, r);
    NoDecay(x, z.server.world.tick, r);
  }

  lemma NothingHeld(s: Snapshot, r: Resource)
    ensures Available(s, []).Get(r) == Max(0, ShownSlack(s, r))
  {
    assert HeldIn([]) == Bundle.Zero();
  }

  lemma NoDecay(x: Frame, now: nat, r: Resource)
    ensures Decay(x, now, now, r) == 0
  {
  }

  /** Whatever the interleaving, when the loop decides it counts on no more than the server
      leaves uncommitted, but for the upkeep of ticks its snapshot has not seen yet. */
  lemma NeverOvercounts(x: Frame, y: System, moves: seq<Move>, r: Resource)
    requires Begins(x, y)
    requires AfterMoves(x, y, moves).stage == Idle && AfterMoves(x, y, moves).latest.Some?
    ensures var z := AfterMoves(x, y, moves);
            && x.me in z.server.world.stations && z.latest.value.tick <= z.server.world.tick
            && Available(z.latest.value, z.inflight).Get(r)
                 <= Max(0, Slack(z.server.world, x.me, r) + Decay(x, z.server.world.tick, z.latest.value.tick, r))
            && (z.latest.value.tick == z.server.world.tick ==>
                  Available(z.latest.value, z.inflight).Get(r) <= Max(0, Slack(z.server.world, x.me, r)))
  {
    hide Inv, Replies, Messages, AfterMoves, Slack, Begins, Snapshots, Coverage, LedgerHolds, Decay, Available, Outcomes;
    var z := AfterMoves(x, y, moves);
    RunStaysGood(x, y, moves);
    IdleCounts(x, z, r);
  }

  lemma HeldCounts(s: Snapshot, m: Message, r: Resource)
    ensures Available(s, Held([], m)).Get(r) == Max(0, ShownSlack(s, r) - GiveOf(m.action).Get(r))
  {
    NothingHeld(s, r);
    if m.action.MakeOffer? {
      WithoutOnly(m.request, m.action.give);
      assert [(m.request, m.action.give)][..0] == [];
      assert HeldIn([]) == Bundle.Zero();
      assert HeldIn([(m.request, m.action.give)]) == m.action.give;
    }
    hide PromisedIn;
  }

  /** A refused command is owed nothing by the newest view. */
  lemma RefusedOwesNothing(x: Frame, z: System)
    requires x.me in z.server.results && Snapshots(x, z) && Outcomes(x, z) && z.latest.Some?
    requires z.stage.Confirming? && z.stage.result.code != Ok
    ensures !Owing(x, z, z.latest.value)
  {
    if Unowed(x, z, z.stage.m.request) { UnowedOwesNothing(x, z, LatestNumber(z) - 1); }
  }

  lemma BusyCounts(x: Frame, z: System, r: Resource)
    requires Good(x, z) && z.latest.Some? && Busy(z) && !z.stage.m.action.Accept?
    ensures z.latest.value.tick <= z.server.world.tick
    ensures Available(z.latest.value, z.inflight).Get(r)
         <= Max(0, Slack(z.server.world, x.me, r) + Decay(x, z.server.world.tick, z.latest.value.tick, r))
  {
    var n, s := LatestNumber(z) - 1, z.latest.value;
    assert Faithful(x, z, n);
    if z.stage.Confirming? && z.stage.result.code != Ok {
      RefusedOwesNothing(x, z);
      NothingHeld(s, r);
    } else {
      HeldCounts(s, z.stage.m, r);
    }
    hide Inv, Slack, Available, ShownSlack, Decay, Replies, Messages, HeldIn, Owing, Held;
    CurrentCovered(x, z, n, r);
  }

  /** Nor while a command of ours is under way, whatever became of it: what an offer gives is held
      from before its send until the view shows it. Only an accept in flight is not covered. */
  lemma NeverOvercountsBusy(x: Frame, y: System, moves: seq<Move>, r: Resource)
    requires Begins(x, y)
    requires var z := AfterMoves(x, y, moves); z.latest.Some? && Busy(z) && !z.stage.m.action.Accept?
    ensures var z := AfterMoves(x, y, moves);
            && x.me in z.server.world.stations && z.latest.value.tick <= z.server.world.tick
            && Available(z.latest.value, z.inflight).Get(r)
                 <= Max(0, Slack(z.server.world, x.me, r) + Decay(x, z.server.world.tick, z.latest.value.tick, r))
  {
    hide Inv, Replies, Messages, AfterMoves, Slack, Begins, Snapshots, Coverage, LedgerHolds, Decay, Available, Outcomes;
    var z := AfterMoves(x, y, moves);
    RunStaysGood(x, y, moves);
    BusyCounts(x, z, r);
  }

  /** Nor does it count on less: with nothing in flight, on a snapshot of the world as it stands, it
      counts on exactly what the server leaves uncommitted. */
  lemma FreshCountIsExact(s: ServerState, f: Founding, me: StationId, number: nat, r: Resource)
    requires Inv(s.world, f) && me in s.world.stations && me in s.results
    ensures Available(SnapshotOf(s, me, number), []).Get(r)
         == Max(0, s.world.stations[me].inventory.Get(r) - Tally(s.world.offers, OpenGivesOf(me, r)))
  {
    var w := s.world;
    forall o | o in w.offers && o.status == Open ensures w.tick < o.expires {
      assert Standing(o, w.stations, w.tick, w.rules.durationTicks);
    }
    PromisedIsTally(w.offers, me, w.tick, r);
    hide Inv, Tally, PromisedIn;
    NothingHeld(SnapshotOf(s, me, number), r);
  }

  // ---- the executor ------------------------------------------------------------------------------------

  /** The client's part of the system. */
  datatype Client = Client(stage: Stage, inflight: Ledger) {
    /** A command is handed to the session. */
    function Begun(m: Message): Client { Client(Awaiting(m), Held(inflight, m)) }

    function Released(next: Stage, request: RequestId): Client { Client(next, Without(inflight, request)) }

    /** The session's answer: blocked, a protocol error, or a result. */
    function Dropped(): Client
      requires stage.Awaiting?
    {
      Released(Idle, stage.m.request)
    }

    function Told(reply: Reply): Client
      requires stage.Awaiting?
    {
      if reply.Control? then Dropped()
      else if reply.result.code != Ok then Released(Confirming(stage.m, reply.result), stage.m.request)
      else Client(Confirming(stage.m, reply.result), inflight)
    }

    predicate ConfirmedBy(s: Snapshot)
      requires stage.Confirming?
    {
      stage.result in s.results
    }
  }

  function ClientOf(y: System): Client { Client(y.stage, y.inflight) }

  /** The session can go on, with the server knowing us. */
  ghost predicate Alive(x: Frame, y: System) {
    !y.stage.Lost? && x.me in y.server.results && x.me in y.server.world.stations
  }

  /** Handing over a command that is sent is the client's part of `Transmit`. */
  lemma BeginTransmits(x: Frame, y: System, m: Message)
    requires Alive(x, y) && Enabled(x, y, Transmit(m))
    ensures ClientOf(Attempted(x, y, Transmit(m))) == ClientOf(y).Begun(m)
  {
  }

  /** Handing over a command that is refused locally is `Block`, and changes no client in order. */
  lemma RefusalBlocks(x: Frame, y: System, m: Message)
    requires Alive(x, y) && Enabled(x, y, Block(m))
    ensures ClientOf(Attempted(x, y, Block(m))) == ClientOf(y).Begun(m).Dropped()
    ensures Good(x, y) ==> Attempted(x, y, Block(m)) == y
  {
    ReleasedLedger(m);
  }

  /** A reply to the awaited command is the client's part of `Hear`; any other changes nothing. */
  lemma AnswerIsHeard(x: Frame, y: System, request: RequestId, reply: Reply)
    requires Alive(x, y) && (request, reply) in y.replies
    ensures ClientOf(Attempted(x, y, Hear(request, reply)))
         == if y.stage.Awaiting? && y.stage.m.request == request then ClientOf(y).Told(reply) else ClientOf(y)
  {
  }

  /** A snapshot is adopted as the session adopts it, and its results are told like replies. */
  lemma ShownIsAdopted(x: Frame, y: System, i: nat)
    requires Alive(x, y) && i < |y.published|
    ensures var z, s := Attempted(x, y, Show(i)), y.published[i];
            && z.latest == Session.Adopted(y.latest, s)
            && ClientOf(z) == (if z.latest != y.latest && y.stage.Awaiting? && HasResult(s.results, y.stage.m.request)
                               then ClientOf(y).Told(Answer(ResultIn(s.results, y.stage.m.request))) else ClientOf(y))
  {
  }

  /** The check of the newest snapshot is `Confirm`, and waits exactly when `Confirm` cannot happen. */
  lemma ConfirmedIsConfirm(x: Frame, y: System)
    requires Alive(x, y) && y.stage.Confirming? && y.latest.Some?
    ensures Enabled(x, y, Confirm) <==> ClientOf(y).ConfirmedBy(y.latest.value)
    ensures ClientOf(Attempted(x, y, Confirm))
         == if ClientOf(y).ConfirmedBy(y.latest.value) then ClientOf(y).Released(Idle, y.stage.m.request) else ClientOf(y)
  {
  }

  /** One command at a time: the stock of an offer is held before its bytes leave. */
  class Executor {
    var stage: Stage
    const commitments: CommitmentTracker

    constructor (tracker: CommitmentTracker)
      ensures stage == Idle && commitments == tracker
    {
      stage := Idle;
      commitments := tracker;
    }

    function View(): Client
      reads this, commitments
    {
      Client(stage, commitments.inflight)
    }

    /** Before the send. */
    method Begin(m: Message)
      requires stage == Idle
      modifies this, commitments
      ensures stage == Awaiting(m) && commitments.inflight == Held(old(commitments.inflight), m)
      ensures View() == old(View()).Begun(m)
    {
      if m.action.MakeOffer? {
        commitments.RegisterInflight(m.request, m.action.give);
      }
      stage := Awaiting(m);
    }

    /** The send gate refused: nothing was transmitted, so the hold is released. */
    method Blocked()
      requires stage.Awaiting?
      modifies this, commitments
      ensures stage == Idle && commitments.inflight == Without(old(commitments.inflight), old(stage).m.request)
      ensures View() == old(View()).Dropped()
    {
      commitments.ResolveInflight(stage.m.request);
      stage := Idle;
    }

    /** A result or a protocol error came back. */
    method Answered(reply: Reply)
      requires stage.Awaiting?
      modifies this, commitments
      ensures reply.Answer? ==>
        && stage == Confirming(old(stage).m, reply.result)
        && commitments.inflight == (if reply.result.code != Ok
                                    then Without(old(commitments.inflight), old(stage).m.request)
                                    else old(commitments.inflight))
      ensures reply.Control? ==> stage == Idle && commitments.inflight == Without(old(commitments.inflight), old(stage).m.request)
      ensures View() == old(View()).Told(reply)
    {
      if reply.Control? || reply.result.code != Ok {
        commitments.ResolveInflight(stage.m.request);
      }
      if reply.Answer? {
        stage := Confirming(stage.m, reply.result);
      } else {
        stage := Idle;
      }
    }

    /** The newest snapshot is checked for the exact result; only then is the hold released. */
    method Confirmed(s: Snapshot) returns (done: bool)
      requires stage.Confirming?
      modifies this, commitments
      ensures done <==> old(View()).ConfirmedBy(s)
      ensures done ==> stage == Idle && View() == old(View()).Released(Idle, old(stage).m.request)
      ensures !done ==> View() == old(View())
    {
      done := stage.result in s.results;
      if done {
        commitments.ResolveInflight(stage.m.request);
        stage := Idle;
      }
    }
  }
}
