/** The client's connection lifecycle: handshake, phase gate and reconnects. */
module Lifecycle {
  import opened Domain

  datatype SessionState = Disconnected | AwaitingFirstState | AwaitingReadiness | IsActive | IsClosed

  datatype Directive =
    | Nothing
    | SendReady(runId: string, sequence: nat)
    | Reconnect
    | Abort
    | RunIdChanged

  datatype Ack = Ack(runId: string, ready: bool, sequence: nat)

  datatype Event =
    | Connected
    | Dropped
    | Reset
    | State(runId: string, sequence: nat, phase: Phase)
    | Readiness(ack: Ack)
    | ProtocolError(code: ControlCode, closeSession: bool)
    | Result

  datatype Life = Life(
    state: SessionState, runId: Option<string>, phase: Option<Phase>, readySequence: Option<nat>, lastSequence: nat)

  const UNBORN := Life(Disconnected, None, None, None, 0)

  predicate IsFatal(code: ControlCode) {
    code == UnsupportedVersion || code == RunMismatch || code == InvalidAuthentication
  }

  /** Trading needs both a confirmed readiness and a running phase. */
  predicate MayTrade(l: Life) { l.state == IsActive && l.phase == Some(Running) }

  function OnState(l: Life, e: Event): (Life, Directive)
    requires e.State?
  {
    if l.runId.Some? && l.runId.value != e.runId then (l, RunIdChanged)
    else if e.sequence <= l.lastSequence then (l, Nothing)
    else
      var seen := l.(runId := Some(e.runId), phase := Some(e.phase), lastSequence := e.sequence);
      if l.state == AwaitingFirstState then
        (seen.(state := AwaitingReadiness, readySequence := Some(e.sequence)), SendReady(e.runId, e.sequence))
      else (seen, Nothing)
  }

  function OnReadiness(l: Life, ack: Ack): (Life, Directive) {
    if l.state != AwaitingReadiness then (l, Nothing)
    else if Some(ack.runId) != l.runId then (l, Abort)
    else if Some(ack.sequence) != l.readySequence then (l, Abort)
    else if !ack.ready then (l, Nothing)
    else (l.(state := IsActive), Nothing)
  }

  function OnError(l: Life, code: ControlCode, closeSession: bool): (Life, Directive) {
    if IsFatal(code) then (l.(state := IsClosed), Abort)
    else if closeSession then (l.(state := Disconnected), Reconnect)
    else (l, Nothing)
  }

  function Step(l: Life, e: Event): (Life, Directive) {
    match e
    case Connected => (l.(state := AwaitingFirstState, readySequence := None, lastSequence := 0), Nothing)
    case Dropped => (if l.state == IsClosed then l else l.(state := Disconnected), Nothing)
    case Reset => (l.(state := Disconnected, phase := None, readySequence := None, lastSequence := 0), Nothing)
    case State(_, _, _) => OnState(l, e)
    case Readiness(ack) => OnReadiness(l, ack)
    case ProtocolError(code, closeSession) => OnError(l, code, closeSession)
    case Result => (l, Nothing)
  }

  function After(events: seq<Event>): Life {
    if events == [] then UNBORN else Step(After(events[..|events| - 1]), events[|events| - 1]).0
  }

  // ---- the history, read off the events themselves ----------------------------------

  datatype Declared = Declared(runId: string, sequence: nat)
  datatype Seen = Seen(sequence: nat, phase: Phase)

  /** The directive the last event drew. */
  function LastDirective(events: seq<Event>): Directive
    requires events != []
  {
    Step(After(events[..|events| - 1]), events[|events| - 1]).1
  }

  /** The run of the first numbered state ever received. */
  function RunOf(events: seq<Event>): Option<string> {
    if events == [] then None
    else
      var front, e := events[..|events| - 1], events[|events| - 1];
      if RunOf(front).None? && e.State? && e.sequence > 0 then Some(e.runId) else RunOf(front)
  }

  /** The highest-numbered state of our run on this connection. */
  function Newest(events: seq<Event>): Option<Seen> {
    if events == [] then None
    else
      var front, e := events[..|events| - 1], events[|events| - 1];
      if e.Connected? || e.Reset? then None
      else if e.State? && Some(e.runId) == RunOf(events) && e.sequence > SequenceOf(Newest(front)) then
        Some(Seen(e.sequence, e.phase))
      else Newest(front)
  }

  function SequenceOf(seen: Option<Seen>): nat { if seen.Some? then seen.value.sequence else 0 }

  /** What we last declared ourselves ready for on this connection. */
  function LastDeclared(events: seq<Event>): Option<Declared> {
    if events == [] then None
    else
      var front, e := events[..|events| - 1], events[|events| - 1];
      if e.Connected? || e.Reset? then None
      else if LastDirective(events).SendReady? then
        Some(Declared(LastDirective(events).runId, LastDirective(events).sequence))
      else LastDeclared(front)
  }

  /** Whether a positive acknowledgement of exactly that declaration followed it. */
  predicate Acknowledged(events: seq<Event>) {
    events != [] &&
    var front, e := events[..|events| - 1], events[|events| - 1];
    !e.Connected? && !e.Reset? &&
    (Acknowledged(front)
     || (LastDeclared(front).Some?
         && e == Readiness(Ack(LastDeclared(front).value.runId, true, LastDeclared(front).value.sequence))))
  }

  /** How often readiness was declared since the last connect. */
  function Declarations(events: seq<Event>): nat {
    if events == [] || events[|events| - 1].Connected? then 0
    else Declarations(events[..|events| - 1]) + (if LastDirective(events).SendReady? then 1 else 0)
  }

  /** Whether a fatal or session-closing error arrived since the last connect. */
  predicate Barred(events: seq<Event>) {
    events != [] &&
    var e := events[|events| - 1];
    !e.Connected? && ((e.ProtocolError? && (IsFatal(e.code) || e.closeSession)) || Barred(events[..|events| - 1]))
  }

  // ---- handshake safety ---------------------------------------------------------------

  predicate InHandshake(l: Life) { l.state == AwaitingReadiness || l.state == IsActive }

  ghost predicate MatchesPast(events: seq<Event>) {
    var l := After(events);
    && l.runId == RunOf(events)
    && l.lastSequence == SequenceOf(Newest(events))
    && (Newest(events).Some? ==> l.phase == Some(Newest(events).value.phase) && Newest(events).value.sequence > 0)
    && (l.runId.None? ==> l.lastSequence == 0)
    && (InHandshake(l) ==>
          && Newest(events).Some?
          && LastDeclared(events).Some?
          && l.runId == Some(LastDeclared(events).value.runId)
          && l.readySequence == Some(LastDeclared(events).value.sequence))
    && (l.state == IsActive ==> Acknowledged(events))
    && Declarations(events) <= 1
    && (l.state == AwaitingFirstState ==> Declarations(events) == 0 && l.lastSequence == 0)
    && (Barred(events) ==> l.state == IsClosed || l.state == Disconnected)
  }

  lemma {:induction false} AlwaysMatchesPast(events: seq<Event>)
    ensures MatchesPast(events)
  {
    if events != [] {
      AlwaysMatchesPast(events[..|events| - 1]);
    }
  }

  /** Handshake safety after any events at all: readiness is declared at most once per
      connection; an active session holds the acknowledgement of exactly the run and
      sequence it declared; an error that is fatal or closes the session rules activity
      out until the next connect; and trading is allowed only while the newest state of
      this connection is running. */
  lemma HandshakeSafety(events: seq<Event>)
    ensures Declarations(events) <= 1
    ensures After(events).state == IsActive ==>
              && Acknowledged(events) && LastDeclared(events).Some?
              && After(events).runId == Some(LastDeclared(events).value.runId)
              && After(events).readySequence == Some(LastDeclared(events).value.sequence)
    ensures Barred(events) ==> After(events).state != IsActive
    ensures MayTrade(After(events)) ==> Newest(events).Some? && Newest(events).value.phase == Running
  {
    AlwaysMatchesPast(events);
  }

  /** The run id never changes once known. */
  lemma {:induction false} RunIdNeverChanges(events: seq<Event>, later: seq<Event>)
    requires After(events).runId.Some?
    ensures After(events + later).runId == After(events).runId
  {
    if later == [] {
      assert events + later == events;
    } else {
      var n := |later| - 1;
      RunIdNeverChanges(events, later[..n]);
      assert (events + later)[..|events| + n] == events + later[..n];
    }
  }

  /** No state of our run on this connection outranks the newest one. */
  lemma {:induction false} NewestIsHighest(events: seq<Event>, start: nat)
    requires start <= |events|
    requires forall i :: start <= i < |events| ==> !events[i].Connected? && !events[i].Reset?
    requires RunOf(events[..start]).Some?
    ensures forall i :: start <= i < |events| && events[i].State? && Some(events[i].runId) == RunOf(events)
              ==> events[i].sequence <= SequenceOf(Newest(events))
    ensures RunOf(events) == RunOf(events[..start])
    ensures SequenceOf(Newest(events[..start])) <= SequenceOf(Newest(events))
  {
    if start == |events| {
      assert events[..start] == events;
    } else {
      var n := |events| - 1;
      var front := events[..n];
      assert front[..start] == events[..start];
      NewestIsHighest(front, start);
      forall i | start <= i < |events| && events[i].State? && Some(events[i].runId) == RunOf(events)
        ensures events[i].sequence <= SequenceOf(Newest(events))
      {
        if i < n { assert front[i] == events[i]; }
      }
    }
  }

  // ---- the handshake completes ------------------------------------------------------------
  // Read off the events alone, without the machine.

  /** A connection ends, or its session is closed. */
  predicate Cuts(e: Event) {
    e.Dropped? || e.Reset? || (e.ProtocolError? && (IsFatal(e.code) || e.closeSession))
  }

  /** The last event is a state of our run newer than any on this connection. */
  predicate BringsNewer(events: seq<Event>) {
    events != [] &&
    var front, e := events[..|events| - 1], events[|events| - 1];
    e.State? && Some(e.runId) == RunOf(events) && e.sequence > SequenceOf(Newest(front))
  }

  /** Connected, and no first state yet. */
  predicate AwaitsState(events: seq<Event>) {
    events != [] &&
    var front, e := events[..|events| - 1], events[|events| - 1];
    e.Connected? || (AwaitsState(front) && !Cuts(e) && !BringsNewer(events))
  }

  /** The last event is the first newer state of our run after a connect. */
  predicate CallsForReadiness(events: seq<Event>) { BringsNewer(events) && AwaitsState(events[..|events| - 1]) }

  function DeclarationOf(e: Event): Declared
    requires e.State?
  {
    Declared(e.runId, e.sequence)
  }

  predicate Confirms(e: Event, d: Option<Declared>) {
    d.Some? && e == Readiness(Ack(d.value.runId, true, d.value.sequence))
  }

  /** The declaration still to be acknowledged, if any. */
  function Awaited(events: seq<Event>): Option<Declared> {
    if events == [] then None
    else
      var front, e := events[..|events| - 1], events[|events| - 1];
      if CallsForReadiness(events) then Some(DeclarationOf(e))
      else if e.Connected? || Cuts(e) || Confirms(e, Awaited(front)) then None
      else Awaited(front)
  }

  /** The awaited declaration was acknowledged positively and exactly, and nothing cut the session since. */
  predicate IsReady(events: seq<Event>) {
    events != [] &&
    var front, e := events[..|events| - 1], events[|events| - 1];
    Confirms(e, Awaited(front)) || (IsReady(front) && !e.Connected? && !Cuts(e))
  }

  /** What the last event calls for. */
  function CalledFor(events: seq<Event>): Directive
    requires events != []
  {
    var front, e := events[..|events| - 1], events[|events| - 1];
    match e
    case State(run, sequence, _) =>
      if RunOf(front).Some? && RunOf(front).value != run then RunIdChanged
      else if CallsForReadiness(events) then SendReady(run, sequence)
      else Nothing
    case Readiness(ack) =>
      if Awaited(front).Some? && Declared(ack.runId, ack.sequence) != Awaited(front).value then Abort else Nothing
    case ProtocolError(code, closeSession) => if IsFatal(code) then Abort else if closeSession then Reconnect else Nothing
    case _ => Nothing
  }

  ghost predicate InStep(events: seq<Event>) {
    var l := After(events);
    && (l.state == AwaitingFirstState <==> AwaitsState(events))
    && (l.state == AwaitingReadiness <==> Awaited(events).Some?)
    && (l.state == IsActive <==> IsReady(events))
    && (Awaited(events).Some? ==> l.runId == Some(Awaited(events).value.runId) && l.readySequence == Some(Awaited(events).value.sequence))
  }

  lemma {:induction false} AlwaysInStep(events: seq<Event>)
    ensures InStep(events)
  {
    if events != [] {
      var front := events[..|events| - 1];
      AlwaysInStep(front);
      AlwaysMatchesPast(front);
      AlwaysMatchesPast(events);
      hide Acknowledged, Declarations, Barred, LastDeclared;
    }
  }

  /** After any events at all: the session is active exactly when this connection's declaration
      was acknowledged positively, exactly and while awaited, and nothing cut it since; trading is
      allowed exactly when moreover the newest state is running; and every event draws exactly
      the directive it calls for, readiness with the run and number of the connection's first
      newer state. */
  lemma HandshakeCompletes(events: seq<Event>)
    ensures After(events).state == IsActive <==> IsReady(events)
    ensures MayTrade(After(events)) <==> IsReady(events) && Newest(events).Some? && Newest(events).value.phase == Running
    ensures events != [] ==> LastDirective(events) == CalledFor(events)
  {
    AlwaysInStep(events);
    AlwaysMatchesPast(events);
    if events != [] {
      AlwaysInStep(events[..|events| - 1]);
      AlwaysMatchesPast(events[..|events| - 1]);
    }
    hide Acknowledged, Declarations, Barred, LastDeclared;
  }

  class SessionLifecycle {
    var state: SessionState
    var runId: Option<string>
    var phase: Option<Phase>
    var readySequence: Option<nat>
    var lastSnapshotSequence: nat

    constructor ()
      ensures View() == UNBORN
    {
      state, runId, phase, readySequence, lastSnapshotSequence := Disconnected, None, None, None, 0;
    }

    function View(): Life
      reads this
    {
      Life(state, runId, phase, readySequence, lastSnapshotSequence)
    }

    method OnConnected()
      modifies this
      ensures View() == Step(old(View()), Connected).0
    {
      state, readySequence, lastSnapshotSequence := AwaitingFirstState, None, 0;
    }

    method OnDisconnected()
      modifies this
      ensures View() == Step(old(View()), Dropped).0
    {
      if state != IsClosed { state := Disconnected; }
    }

    method ResetForNewConnection()
      modifies this
      ensures View() == Step(old(View()), Reset).0
    {
      state, phase, readySequence, lastSnapshotSequence := Disconnected, None, None, 0;
    }

    method OnEvent(e: Event) returns (directive: Directive)
      requires e.State? || e.Readiness? || e.ProtocolError? || e.Result?
      modifies this
      ensures (View(), directive) == Step(old(View()), e)
      ensures state == IsActive <==>
                || (old(state) == IsActive && !(e.ProtocolError? && (IsFatal(e.code) || e.closeSession)))
                || (old(state) == AwaitingReadiness && e.Readiness? && e.ack.ready
                    && Some(e.ack.runId) == old(runId) && Some(e.ack.sequence) == old(readySequence))
    {
      match e
      case State(run, sequence, newPhase) =>
        if runId.Some? && runId.value != run { return RunIdChanged; }
        if sequence <= lastSnapshotSequence { return Nothing; }
        runId, phase, lastSnapshotSequence := Some(run), Some(newPhase), sequence;
        if state == AwaitingFirstState {
          state, readySequence := AwaitingReadiness, Some(sequence);
          return SendReady(run, sequence);
        }
        return Nothing;
      case Readiness(ack) =>
        if state != AwaitingReadiness { return Nothing; }
        if Some(ack.runId) != runId || Some(ack.sequence) != readySequence { return Abort; }
        if ack.ready { state := IsActive; }
        return Nothing;
      case ProtocolError(code, closeSession) =>
        if IsFatal(code) {
          state := IsClosed;
          return Abort;
        }
        if closeSession {
          state := Disconnected;
          return Reconnect;
        }
        return Nothing;
      case Result =>
        return Nothing;
    }
  }
}
