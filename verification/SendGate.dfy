/** What may be transmitted: the per-tick quota, retries, and request identity. */
module SendGate {
  import opened Domain

  datatype Throttle = Throttle(limit: nat, tick: nat, sent: nat, blockedUntil: nat)

  function Rolled(t: Throttle, tick: nat): Throttle {
    if tick != t.tick then t.(tick := tick, sent := 0) else t
  }

  /** Commands still allowed at `tick`, given a throttle already rolled to it. */
  function Remaining(t: Throttle, tick: nat): nat {
    if tick < t.blockedUntil then 0 else Less(t.limit, t.sent)
  }

  function Charged(t: Throttle, tick: nat): Throttle {
    var now := Rolled(t, tick);
    now.(sent := now.sent + 1)
  }

  function BlockedUntil(t: Throttle, tick: Option<nat>): Throttle {
    if tick.Some? then t.(blockedUntil := Max(t.blockedUntil, tick.value)) else t
  }

  class CommandThrottle {
    var limit: nat
    var tick: nat
    var sent: nat
    var blockedUntilTick: nat

    constructor (limitPerTick: nat)
      ensures View() == Throttle(limitPerTick, 0, 0, 0)
    {
      limit, tick, sent, blockedUntilTick := limitPerTick, 0, 0, 0;
    }

    function View(): Throttle
      reads this
    {
      Throttle(limit, tick, sent, blockedUntilTick)
    }

    method UpdateLimit(limitPerTick: nat)
      modifies this
      ensures View() == old(View()).(limit := limitPerTick)
    {
      limit := limitPerTick;
    }

    method RollTo(now: nat)
      modifies this
      ensures View() == Rolled(old(View()), now)
    {
      if now != tick { tick, sent := now, 0; }
    }

    method RemainingAt(now: nat) returns (n: nat)
      modifies this
      ensures View() == Rolled(old(View()), now) && n == Remaining(View(), now)
    {
      RollTo(now);
      n := if now < blockedUntilTick then 0 else Less(limit, sent);
    }

    method RecordSent(now: nat)
      modifies this
      ensures View() == Charged(old(View()), now)
    {
      RollTo(now);
      sent := sent + 1;
    }

    method BlockUntil(until: Option<nat>)
      modifies this
      ensures View() == BlockedUntil(old(View()), until)
    {
      if until.Some? { blockedUntilTick := Max(blockedUntilTick, until.value); }
    }
  }

  /** Remembers what each request id was used for. */
  class PendingRequestTracker {
    var sent: map<RequestId, string>
    var open: set<RequestId>

    constructor ()
      ensures sent == map[] && open == {}
    {
      sent, open := map[], {};
    }

    /** False is the original's conflict error: the id already names other content. */
    method Register(request: RequestId, fingerprint: string) returns (ok: bool)
      modifies this
      ensures ok <==> !(request in old(sent) && old(sent)[request] != fingerprint)
      ensures ok ==> sent == old(sent)[request := fingerprint] && open == old(open) + {request}
      ensures !ok ==> sent == old(sent) && open == old(open)
      ensures forall r :: r in old(sent) ==> r in sent && sent[r] == old(sent)[r]
    {
      ok := !(request in sent && sent[request] != fingerprint);
      if ok {
        sent := sent[request := fingerprint];
        open := open + {request};
      }
    }

    predicate IsExactRetry(request: RequestId, fingerprint: string)
      reads this
    {
      request in sent && sent[request] == fingerprint
    }

    method Resolve(request: RequestId)
      modifies this`open
      ensures open == old(open) - {request}
    {
      open := open - {request};
    }
  }

  // ---- one client over any number of connections ---------------------------------------

  /** What the newest accepted state says about sending. */
  datatype NewestView = NewestView(tick: nat, limit: nat, failed: bool, duration: nat)

  datatype Gate = Gate(
    throttle: Throttle, bound: map<RequestId, string>, waiting: set<RequestId>,
    newest: Option<NewestView>, mayTrade: bool)

  datatype Verdict = Sent(retry: bool) | Blocked | Conflict

  predicate Eligible(g: Gate) {
    g.mayTrade && g.newest.Some? && !g.newest.value.failed && g.newest.value.tick < g.newest.value.duration
  }

  predicate IsRetry(g: Gate, request: RequestId, fingerprint: string) {
    request in g.bound && g.bound[request] == fingerprint
  }

  function Attempt(g: Gate, request: RequestId, fingerprint: string): (Gate, Verdict) {
    if request in g.waiting || !Eligible(g) then (g, Blocked)
    else
      var tick := g.newest.value.tick;
      if IsRetry(g, request, fingerprint) then (g.(waiting := g.waiting + {request}), Sent(true))
      else
        var rolled := g.(throttle := Rolled(g.throttle, tick));
        if Remaining(rolled.throttle, tick) == 0 then (rolled, Blocked)
        else if request in g.bound then (rolled, Conflict)
        else (rolled.(throttle := Charged(rolled.throttle, tick), bound := g.bound[request := fingerprint],
                      waiting := g.waiting + {request}),
              Sent(false))
  }

  datatype GateEvent =
    | Observe(view: NewestView, mayTrade: bool)
    | AskBudget
    | Send(request: RequestId, fingerprint: string)
    | Answered(request: RequestId, retryAfter: Option<nat>)
    | GaveUp(request: RequestId)
    | NewSession

  function GateStep(g: Gate, e: GateEvent): Gate {
    match e
    case Observe(view, mayTrade) =>
      g.(newest := Some(view), mayTrade := mayTrade, throttle := g.throttle.(limit := view.limit))
    case AskBudget => if Eligible(g) then g.(throttle := Rolled(g.throttle, g.newest.value.tick)) else g
    case Send(request, fingerprint) => Attempt(g, request, fingerprint).0
    case Answered(request, retryAfter) =>
      g.(waiting := g.waiting - {request}, throttle := BlockedUntil(g.throttle, retryAfter))
    case GaveUp(request) => g.(waiting := g.waiting - {request})
    case NewSession => g.(bound := map[], waiting := {}, newest := None, mayTrade := false)
  }

  const CLOSED_GATE := Gate(Throttle(1, 0, 0, 0), map[], {}, None, false)

  function GateAfter(events: seq<GateEvent>): Gate {
    if events == [] then CLOSED_GATE else GateStep(GateAfter(events[..|events| - 1]), events[|events| - 1])
  }

  /** Whether the last event transmitted a command that was not an exact retry. */
  predicate SentNew(events: seq<GateEvent>) {
    events != [] &&
    var e := events[|events| - 1];
    e.Send? && Attempt(GateAfter(events[..|events| - 1]), e.request, e.fingerprint).1 == Sent(false)
  }

  /** New commands transmitted while the newest state showed `tick`. */
  function SentAt(events: seq<GateEvent>, tick: nat): nat {
    if events == [] then 0
    else
      SentAt(events[..|events| - 1], tick)
        + (if SentNew(events) && TickOf(GateAfter(events[..|events| - 1])) == tick then 1 else 0)
  }

  function TickOf(g: Gate): nat { if g.newest.Some? then g.newest.value.tick else 0 }

  /** The latest tick the server has shown, on any connection. */
  function LastTick(events: seq<GateEvent>): nat {
    if events == [] then 0
    else if events[|events| - 1].Observe? then events[|events| - 1].view.tick
    else LastTick(events[..|events| - 1])
  }

  /** The latest retry tick a rate-limited answer has named. */
  function LastBlock(events: seq<GateEvent>): nat {
    if events == [] then 0
    else
      var e, before := events[|events| - 1], LastBlock(events[..|events| - 1]);
      if e.Answered? && e.retryAfter.Some? then Max(before, e.retryAfter.value) else before
  }

  /** The server publishes one limit and its ticks never run backwards. */
  ghost predicate Orderly(events: seq<GateEvent>, limit: nat) {
    events == [] ||
    (&& Orderly(events[..|events| - 1], limit)
     && (events[|events| - 1].Observe? ==>
           && events[|events| - 1].view.limit == limit
           && events[|events| - 1].view.tick >= LastTick(events[..|events| - 1])))
  }

  ghost predicate QuotaKept(events: seq<GateEvent>, limit: nat) {
    var g := GateAfter(events);
    && g.throttle.tick <= LastTick(events)
    && (g.newest.Some? ==> g.throttle.limit == limit && g.newest.value.tick == LastTick(events))
    && g.throttle.sent == SentAt(events, g.throttle.tick)
    && (forall t :: t > g.throttle.tick ==> SentAt(events, t) == 0)
    && (forall t :: SentAt(events, t) <= limit)
    && g.throttle.blockedUntil == LastBlock(events)
  }

  /** Send quota: whatever the client does, over any number of connections sharing the
      throttle, no tick sees more new commands than the published limit. */
  lemma {:induction false} SendQuota(events: seq<GateEvent>, limit: nat)
    requires Orderly(events, limit)
    ensures QuotaKept(events, limit)
  {
    if events != [] {
      var front := events[..|events| - 1];
      SendQuota(front, limit);
      SendQuotaStep(events, limit);
    }
  }

  lemma SendQuotaStep(events: seq<GateEvent>, limit: nat)
    requires events != [] && Orderly(events, limit) && QuotaKept(events[..|events| - 1], limit)
    ensures QuotaKept(events, limit)
  {
    var front, e := events[..|events| - 1], events[|events| - 1];
    var g, h := GateAfter(front), GateAfter(events);
    forall t ensures SentAt(events, t) == SentAt(front, t) + (if SentNew(events) && TickOf(g) == t then 1 else 0) {
    }
    if SentNew(events) {
      assert h.throttle == Charged(Rolled(g.throttle, TickOf(g)), TickOf(g));
    }
  }

  /** A new command is never transmitted before the retry tick of an earlier refusal. */
  lemma NoSendWhileBlocked(events: seq<GateEvent>, limit: nat)
    requires Orderly(events, limit) && SentNew(events)
    ensures LastTick(events) >= LastBlock(events[..|events| - 1])
  {
    SendQuota(events[..|events| - 1], limit);
  }

  /** Nothing is held back either: while trading is on, a command under an unused id goes out
      exactly when fewer than the limit went out at this tick and no retry tick lies ahead, the
      budget found is the difference, and a used id goes out exactly for its own content. */
  lemma SendsExactly(events: seq<GateEvent>, limit: nat, request: RequestId, fingerprint: string)
    requires Orderly(events, limit)
    ensures var g, verdict := GateAfter(events), Attempt(GateAfter(events), request, fingerprint).1;
            && (Eligible(g) ==>
                  Remaining(GateStep(g, AskBudget).throttle, LastTick(events))
                    == if LastTick(events) < LastBlock(events) then 0 else limit - SentAt(events, LastTick(events)))
            && (verdict == Sent(false) <==>
                  && Eligible(g) && request !in g.waiting && request !in g.bound
                  && SentAt(events, LastTick(events)) < limit && LastTick(events) >= LastBlock(events))
            && (verdict == Sent(true) <==>
                  Eligible(g) && request !in g.waiting && request in g.bound && g.bound[request] == fingerprint)
  {
    SendQuota(events, limit);
    hide Orderly, LastTick, SentAt, LastBlock, GateAfter;
  }

  /** An exact retry is never charged against the quota. */
  lemma RetryIsFree(g: Gate, request: RequestId, fingerprint: string)
    requires IsRetry(g, request, fingerprint)
    ensures Attempt(g, request, fingerprint).0.throttle == g.throttle
    ensures Attempt(g, request, fingerprint).1 != Sent(false)
  {
  }

  /** Within a session a request id keeps the fingerprint it was first bound to, and
      everything transmitted under it carries that fingerprint. */
  lemma {:induction false} IdKeepsItsContent(events: seq<GateEvent>, later: seq<GateEvent>, request: RequestId)
    requires request in GateAfter(events).bound
    requires forall i :: 0 <= i < |later| ==> !later[i].NewSession?
    ensures request in GateAfter(events + later).bound
    ensures GateAfter(events + later).bound[request] == GateAfter(events).bound[request]
    ensures forall fingerprint :: Attempt(GateAfter(events + later), request, fingerprint).1.Sent?
              ==> fingerprint == GateAfter(events).bound[request]
  {
    if later == [] {
      assert events + later == events;
    } else {
      var n := |later| - 1;
      IdKeepsItsContent(events, later[..n], request);
      assert (events + later)[..|events| + n] == events + later[..n];
    }
  }
}
