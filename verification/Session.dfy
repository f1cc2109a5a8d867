/** One connection's worth of client state: snapshots in, commands out. */
module Session {
  import opened Domain
  import L = Lifecycle
  import opened SendGate

  const SNAPSHOT_HISTORY := 128

  // ---- which snapshot is the view -------------------------------------------------------

  /** A snapshot replaces the view unless it is a duplicate or older. */
  function Adopted(view: Option<Snapshot>, s: Snapshot): Option<Snapshot> {
    if view.Some? && s.sequence <= view.value.sequence then view else Some(s)
  }

  function ViewOf(stream: seq<Snapshot>): Option<Snapshot> {
    if stream == [] then None else Adopted(ViewOf(stream[..|stream| - 1]), stream[|stream| - 1])
  }

  /** The snapshots that replaced the view, in order. */
  function AcceptedOf(stream: seq<Snapshot>): seq<Snapshot> {
    if stream == [] then []
    else
      var front, s := stream[..|stream| - 1], stream[|stream| - 1];
      if Adopted(ViewOf(front), s) != ViewOf(front) then AcceptedOf(front) + [s] else AcceptedOf(front)
  }

  /** One connection numbers its snapshots: equal numbers mean the same snapshot. */
  ghost predicate Numbered(stream: seq<Snapshot>) {
    forall s, t :: s in stream && t in stream && s.sequence == t.sequence ==> s == t
  }

  lemma {:induction false} ViewIsHighest(stream: seq<Snapshot>)
    requires stream != []
    ensures ViewOf(stream).Some? && ViewOf(stream).value in stream
    ensures forall s :: s in stream ==> s.sequence <= ViewOf(stream).value.sequence
  {
    var n := |stream| - 1;
    var front, last := stream[..n], stream[n];
    assert ViewOf(stream) == Adopted(ViewOf(front), last);
    hide ViewOf;
    assert forall s :: s in stream ==> s in front || s == last;
    if n > 0 {
      ViewIsHighest(front);
    } else {
      assert front == [] && ViewOf([]) == None by { NothingViewed(); }
    }
  }

  lemma NothingViewed()
    ensures ViewOf([]) == None
  {
  }

  /** Any reordering and duplication of one connection's snapshots ends on the same view. */
  lemma ViewIgnoresOrder(a: seq<Snapshot>, b: seq<Snapshot>)
    requires Numbered(a) && forall s :: s in a <==> s in b
    ensures ViewOf(a) == ViewOf(b)
  {
    if a == [] {
      if b != [] { ViewIsHighest(b); }
    } else {
      ViewIsHighest(a);
      if b != [] { ViewIsHighest(b); }
    }
  }

  function StateEvents(stream: seq<Snapshot>): seq<L.Event> {
    seq(|stream|, i requires 0 <= i < |stream| => L.State(stream[i].runId, stream[i].sequence, stream[i].phase))
  }

  /** View convergence: the lifecycle, fed the same stream on a fresh connection, has
      accepted exactly the snapshot the session and the world model hold. */
  lemma {:induction false} LifecycleAgrees(stream: seq<Snapshot>, runId: string)
    requires forall s :: s in stream ==> s.runId == runId && s.sequence >= 1
    ensures var l := L.After([L.Connected] + StateEvents(stream));
            match ViewOf(stream)
            case None => l.lastSequence == 0 && l.runId == None
            case Some(s) => l.lastSequence == s.sequence && l.phase == Some(s.phase) && l.runId == Some(runId)
  {
    var events := [L.Connected] + StateEvents(stream);
    if stream == [] {
      assert events == [L.Connected];
      assert events[..0] == [];
    } else {
      var n := |stream| - 1;
      LifecycleAgrees(stream[..n], runId);
      assert events[..|events| - 1] == [L.Connected] + StateEvents(stream[..n]);
      assert stream[n] in stream;
    }
  }

  lemma FedNext(fed: seq<Snapshot>, s: Snapshot)
    ensures ViewOf(fed + [s]) == Adopted(ViewOf(fed), s)
    ensures |AcceptedOf(fed + [s])| == |AcceptedOf(fed)| + if Adopted(ViewOf(fed), s) == ViewOf(fed) then 0 else 1
  {
    assert (fed + [s])[..|fed|] == fed;
  }

  /** The authoritative world view of the trading loop. */
  class WorldModel {
    var snapshot: Option<Snapshot>
    var lastSequence: nat
    var applied: nat
    var ignored: nat
    ghost var fed: seq<Snapshot>

    ghost predicate Valid()
      reads this
    {
      && snapshot == ViewOf(fed)
      && (snapshot.Some? ==> lastSequence == snapshot.value.sequence)
      && applied == |AcceptedOf(fed)| && applied + ignored == |fed|
    }

    constructor ()
      ensures Valid() && fed == []
    {
      snapshot, lastSequence, applied, ignored, fed := None, 0, 0, 0, [];
    }

    /** False for a duplicate or stale snapshot. */
    method Apply(s: Snapshot) returns (isNew: bool)
      requires Valid()
      modifies this
      ensures Valid() && fed == old(fed) + [s]
      ensures snapshot == Adopted(old(snapshot), s) && (isNew <==> snapshot != old(snapshot))
    {
      FedNext(fed, s);
      hide ViewOf, AcceptedOf;
      fed := fed + [s];
      if snapshot.Some? && s.sequence <= lastSequence {
        ignored := ignored + 1;
        return false;
      }
      snapshot, lastSequence, applied := Some(s), s.sequence, applied + 1;
      return true;
    }
  }

  // ---- snapshot history -------------------------------------------------------------------

  ghost predicate Newer(xs: seq<Snapshot>, i: nat, j: nat)
    requires i < |xs| && j < |xs|
  {
    xs[i].sequence < xs[j].sequence
  }

  ghost predicate Rising(xs: seq<Snapshot>) {
    forall i, j {:trigger Newer(xs, i, j)} :: 0 <= i < j < |xs| ==> Newer(xs, i, j)
  }

  function Recent(xs: seq<Snapshot>): seq<Snapshot> {
    if |xs| <= SNAPSHOT_HISTORY then xs else xs[|xs| - SNAPSHOT_HISTORY..]
  }

  /** `table` files each snapshot of `xs` under its own number, and nothing else. */
  ghost predicate Files(table: map<nat, Snapshot>, xs: seq<Snapshot>) {
    && |table| == |xs|
    && (forall i :: 0 <= i < |xs| ==> xs[i].sequence in table && table[xs[i].sequence] == xs[i])
    && (forall n :: n in table ==> table[n] in xs && table[n].sequence == n)
  }

  lemma RecentNext(accepted: seq<Snapshot>, s: Snapshot)
    ensures |Recent(accepted)| <= SNAPSHOT_HISTORY
    ensures Recent(accepted + [s])
         == if |Recent(accepted)| < SNAPSHOT_HISTORY then Recent(accepted) + [s] else (Recent(accepted) + [s])[1..]
  {
  }

  lemma FilesNext(table: map<nat, Snapshot>, xs: seq<Snapshot>, s: Snapshot)
    requires Files(table, xs) && Rising(xs)
    requires xs != [] ==> xs[|xs| - 1].sequence < s.sequence
    ensures Files(table[s.sequence := s], xs + [s]) && Rising(xs + [s])
    ensures |table[s.sequence := s]| == |xs| + 1
  {
    var n := |xs|;
    forall i | 0 <= i < n ensures xs[i].sequence < s.sequence {
      if i < n - 1 { assert Newer(xs, i, n - 1); }
    }
    forall i, j | 0 <= i < j < n + 1 ensures Newer(xs + [s], i, j) {
      if j < n { assert Newer(xs, i, j); }
    }
    assert s.sequence !in table;
    assert (xs + [s])[n] == s;
  }

  /** The smallest number filed is the oldest snapshot's. */
  lemma OldestIsLeast(table: map<nat, Snapshot>, xs: seq<Snapshot>, least: nat)
    requires Files(table, xs) && Rising(xs) && xs != []
    requires least in table && forall n :: n in table ==> least <= n
    ensures least == xs[0].sequence
  {
    var i :| 0 <= i < |xs| && xs[i] == table[least];
    if i > 0 { RisesFrom(xs, 0, i); }
  }

  lemma RisesFrom(xs: seq<Snapshot>, i: nat, j: nat)
    requires Rising(xs) && i < j < |xs|
    ensures xs[i].sequence < xs[j].sequence
  {
    assert Newer(xs, i, j);
  }

  lemma FilesRest(table: map<nat, Snapshot>, xs: seq<Snapshot>)
    requires Files(table, xs) && Rising(xs) && xs != []
    ensures Files(table - {xs[0].sequence}, xs[1..]) && Rising(xs[1..])
  {
    var rest, left := xs[1..], table - {xs[0].sequence};
    assert left.Keys == table.Keys - {xs[0].sequence};
    forall i | 0 <= i < |rest| ensures rest[i].sequence in left && left[rest[i].sequence] == rest[i] {
      assert Newer(xs, 0, i + 1);
    }
    forall n | n in left ensures left[n] in rest && left[n].sequence == n {
      var i :| 0 <= i < |xs| && xs[i] == table[n];
      assert rest[i - 1] == xs[i];
    }
    forall i, j | 0 <= i < j < |rest| ensures Newer(rest, i, j) {
      assert Newer(xs, i + 1, j + 1);
    }
  }

  lemma FiledSome(table: map<nat, Snapshot>, xs: seq<Snapshot>)
    requires Files(table, xs) && xs != []
    ensures table != map[]
  {
    assert xs[0].sequence in table;
  }

  method SmallestKey(table: map<nat, Snapshot>) returns (least: nat)
    requires table != map[]
    ensures least in table && forall n :: n in table ==> least <= n
  {
    least :| least in table;
    var left := table.Keys;
    while left != {}
      invariant left <= table.Keys && least in table
      invariant forall n :: n in table && n !in left ==> least <= n
    {
      var n :| n in left;
      if n < least { least := n; }
      left := left - {n};
    }
  }

  class BazaarSession {
    const lifecycle: L.SessionLifecycle
    const throttle: CommandThrottle
    const tracker: PendingRequestTracker
    var latest: Option<Snapshot>
    var bySequence: map<nat, Snapshot>
    var receivedAt: map<nat, nat>
    var commandWaiters: set<RequestId>
    /** Everything routed here on this connection. */
    ghost var fed: seq<Snapshot>

    ghost predicate Valid()
      reads this
    {
      latest == ViewOf(fed) && Filed(fed)
    }

    /** The tables hold exactly the newest accepted snapshots of what was fed. */
    ghost predicate Filed(stream: seq<Snapshot>)
      reads this
    {
      var accepted := AcceptedOf(stream);
      && latest == LastOf(accepted)
      && Rising(accepted)
      && Files(bySequence, Recent(accepted))
      && receivedAt.Keys == bySequence.Keys
    }

    function GateView(): Gate
      reads this, lifecycle, throttle, tracker
    {
      Gate(throttle.View(), tracker.sent, commandWaiters,
           if latest.None? then None else Some(NewestViewOf(latest.value)),
           L.MayTrade(lifecycle.View()))
    }

    constructor (throttle: CommandThrottle)
      ensures Valid() && fed == [] && latest == None && commandWaiters == {}
      ensures this.throttle == throttle && fresh(lifecycle) && fresh(tracker)
      ensures lifecycle.View() == L.UNBORN && tracker.sent == map[]
    {
      this.throttle := throttle;
      lifecycle := new L.SessionLifecycle();
      tracker := new PendingRequestTracker();
      latest, bySequence, receivedAt, commandWaiters, fed := None, map[], map[], {}, [];
    }

    /** Replace the view wholesale and keep the newest accepted snapshots at hand;
        results carried by the snapshot count as received. */
    method OnSnapshot(s: Snapshot, now: nat)
      requires Valid()
      modifies this, throttle, tracker`open
      ensures Valid() && fed == old(fed) + [s]
      ensures latest == Adopted(old(latest), s)
      ensures latest == old(latest) ==>
                throttle.View() == old(throttle.View()) && commandWaiters == old(commandWaiters)
      ensures latest != old(latest) ==>
                && throttle.limit == s.rules.commandsPerTick
                && throttle.tick == old(throttle.tick) && throttle.sent == old(throttle.sent)
                && throttle.blockedUntilTick >= old(throttle.blockedUntilTick)
                && (forall r :: r in s.results && r.code == RateLimited && r.retryAfter.Some? ==>
                      throttle.blockedUntilTick >= r.retryAfter.value)
                && (forall w :: w in commandWaiters <==>
                      w in old(commandWaiters) && forall r :: r in s.results ==> r.request != w)
    {
      hide Rising, Files, Recent;
      fed := fed + [s];
      assert fed[..|fed| - 1] == old(fed);
      if latest.Some? && s.sequence <= latest.value.sequence {
        return;
      }
      Remember(AcceptedOf(old(fed)), s, now);
      assert AcceptedOf(fed) == AcceptedOf(old(fed)) + [s];
      throttle.UpdateLimit(s.rules.commandsPerTick);
      ReadResults(s);
    }

    method ReadResults(s: Snapshot)
      modifies this`commandWaiters, throttle, tracker`open
      ensures throttle.limit == old(throttle.limit) && throttle.tick == old(throttle.tick) && throttle.sent == old(throttle.sent)
      ensures throttle.blockedUntilTick >= old(throttle.blockedUntilTick)
      ensures forall r :: r in s.results && r.code == RateLimited && r.retryAfter.Some? ==>
                throttle.blockedUntilTick >= r.retryAfter.value
      ensures forall w :: w in commandWaiters <==>
                w in old(commandWaiters) && forall r :: r in s.results ==> r.request != w
    {
      for i := 0 to |s.results|
        invariant throttle.limit == old(throttle.limit) && throttle.tick == old(throttle.tick) && throttle.sent == old(throttle.sent)
        invariant throttle.blockedUntilTick >= old(throttle.blockedUntilTick)
        invariant forall j :: 0 <= j < i && s.results[j].code == RateLimited && s.results[j].retryAfter.Some? ==>
                    throttle.blockedUntilTick >= s.results[j].retryAfter.value
        invariant forall w :: w in commandWaiters <==>
                    w in old(commandWaiters) && forall j :: 0 <= j < i ==> s.results[j].request != w
      {
        OnResult(s.results[i]);
      }
    }

    method Remember(ghost accepted: seq<Snapshot>, s: Snapshot, now: nat)
      requires latest == LastOf(accepted) && Rising(accepted)
      requires Files(bySequence, Recent(accepted)) && receivedAt.Keys == bySequence.Keys
      requires latest.Some? ==> s.sequence > latest.value.sequence
      modifies this`latest, this`bySequence, this`receivedAt
      ensures latest == Some(s) && Rising(accepted + [s])
      ensures Files(bySequence, Recent(accepted + [s])) && receivedAt.Keys == bySequence.Keys
    {
      ghost var kept := Recent(accepted);
      RecentNext(accepted, s);
      RecentRises(accepted, s);
      hide Rising, Files, Recent;
      latest := Some(s);
      FilesNext(bySequence, kept, s);
      bySequence := bySequence[s.sequence := s];
      receivedAt := receivedAt[s.sequence := now];
      if |bySequence| > SNAPSHOT_HISTORY {
        ForgetOldest(kept + [s]);
      }
    }

    method ForgetOldest(ghost kept: seq<Snapshot>)
      requires kept != [] && Rising(kept) && Files(bySequence, kept) && receivedAt.Keys == bySequence.Keys
      modifies this`bySequence, this`receivedAt
      ensures Files(bySequence, kept[1..]) && receivedAt.Keys == bySequence.Keys
    {
      FiledSome(bySequence, kept);
      hide Rising, Files;
      var stale := SmallestKey(bySequence);
      OldestIsLeast(bySequence, kept, stale);
      FilesRest(bySequence, kept);
      bySequence := bySequence - {stale};
      receivedAt := receivedAt - {stale};
    }

    method OnResult(result: CommandResult)
      modifies this`commandWaiters, throttle, tracker`open
      ensures commandWaiters == old(commandWaiters) - {result.request}
      ensures throttle.View() == BlockedUntil(old(throttle.View()),
                if result.code == RateLimited then result.retryAfter else None)
    {
      tracker.Resolve(result.request);
      if result.code == RateLimited {
        throttle.BlockUntil(result.retryAfter);
      }
      commandWaiters := commandWaiters - {result.request};
    }

    method RemainingCommandBudget() returns (n: nat)
      modifies throttle
      ensures !Eligible(old(GateView())) ==> n == 0 && GateView() == old(GateView())
      ensures Eligible(old(GateView())) ==>
                && GateView() == GateStep(old(GateView()), AskBudget)
                && n == Remaining(throttle.View(), latest.value.tick)
    {
      if latest.None? || !L.MayTrade(lifecycle.View()) || latest.value.me.failed
         || latest.value.tick >= latest.value.rules.durationTicks {
        return 0;
      }
      n := throttle.RemainingAt(latest.value.tick);
    }

    /** The checks before transmission, and the charge taken before yielding. */
    method SendCommand(request: RequestId, fingerprint: string) returns (verdict: Verdict)
      modifies this`commandWaiters, throttle, tracker
      ensures (GateView(), verdict) == Attempt(old(GateView()), request, fingerprint)
    {
      var retry := tracker.IsExactRetry(request, fingerprint);
      if request in commandWaiters { return Blocked; }
      if latest.None? || !L.MayTrade(lifecycle.View()) || latest.value.me.failed
         || latest.value.tick >= latest.value.rules.durationTicks {
        return Blocked;
      }
      if !retry {
        var budget := RemainingCommandBudget();
        if budget == 0 { return Blocked; }
      }
      var registered := tracker.Register(request, fingerprint);
      if !registered { return Conflict; }
      assert retry ==> tracker.sent == old(tracker.sent);
      commandWaiters := commandWaiters + {request};
      if !retry {
        throttle.RecordSent(latest.value.tick);
      }
      return Sent(retry);
    }
  }

  function LastOf(xs: seq<Snapshot>): Option<Snapshot> {
    if xs == [] then None else Some(xs[|xs| - 1])
  }

  lemma RecentRises(accepted: seq<Snapshot>, s: Snapshot)
    requires Rising(accepted) && (accepted != [] ==> accepted[|accepted| - 1].sequence < s.sequence)
    ensures Rising(Recent(accepted)) && Rising(accepted + [s])
    ensures LastOf(Recent(accepted)) == LastOf(accepted)
    ensures Recent(accepted + [s])
         == if |accepted| < SNAPSHOT_HISTORY then Recent(accepted) + [s] else (Recent(accepted) + [s])[1..]
  {
    var kept := Recent(accepted);
    var skipped := |accepted| - |kept|;
    forall i, j | 0 <= i < j < |kept| ensures Newer(kept, i, j) {
      assert Newer(accepted, skipped + i, skipped + j);
    }
    var n := |accepted|;
    forall i, j | 0 <= i < j < n + 1 ensures Newer(accepted + [s], i, j) {
      if j < n { assert Newer(accepted, i, j); } else if i < n - 1 { assert Newer(accepted, i, n - 1); }
    }
  }

  function NewestViewOf(s: Snapshot): NewestView {
    NewestView(s.tick, s.rules.commandsPerTick, s.me.failed, s.rules.durationTicks)
  }
}
