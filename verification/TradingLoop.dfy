/** One step of the trading loop: decide on the newest view with at most one command. */
module TradingLoop {
  import opened Domain
  import opened Memory
  import opened Commitments
  import opened SendGate
  import opened Session
  import opened Planner
  import opened Deciding

  /** A new command under a fresh request id goes out as soon as budget was found for it. */
  lemma BudgetIsSpendable(g: Gate, request: RequestId, fingerprint: string)
    requires Eligible(g) && request !in g.waiting && request !in g.bound
    requires Remaining(GateStep(g, AskBudget).throttle, g.newest.value.tick) > 0
    ensures Attempt(GateStep(g, AskBudget), request, fingerprint).1 == Sent(false)
  {
  }

  lemma FollowsWithin(before: Notes, s: Snapshot, inflight: Ledger, budget: int, steps: seq<Step>, choices: Choices)
    requires Follows(before, s, inflight, Some(budget), steps, choices)
    ensures |steps| <= Max(0, budget)
  {
    hide ContextFor, MayTrade, ChoicesFit, PlanOf;
  }

  /** The session's view, unless what woke the loop is newer. */
  function NewestOf(view: Option<Snapshot>, woken: Snapshot): Snapshot {
    if view.Some? && view.value.sequence > woken.sequence then view.value else woken
  }

  class TradingLoop {
    const session: BazaarSession
    const memory: PolicyMemory
    const commitments: CommitmentTracker

    constructor (session: BazaarSession, memory: PolicyMemory, commitments: CommitmentTracker)
      ensures this.session == session && this.memory == memory && this.commitments == commitments
    {
      this.session, this.memory, this.commitments := session, memory, commitments;
    }

    /** At most one action is planned, and only if the send gate would let it out right now. */
    method Step(snapshot: Snapshot) returns (decision: Decision, ghost choices: Choices)
      modifies session.throttle, memory, memory.counterparties
      ensures |decision.steps| <= 1
      ensures Follows(old(memory.View()), NewestOf(session.latest, snapshot), commitments.inflight,
                      Some(if Eligible(old(session.GateView()))
                           then Min(1, Remaining(GateStep(old(session.GateView()), AskBudget).throttle, session.latest.value.tick))
                           else 0), decision.steps, choices)
      ensures session.latest == old(session.latest)
      ensures decision.steps != [] ==>
                forall request, fingerprint | request !in session.GateView().waiting && request !in session.GateView().bound ::
                  Attempt(session.GateView(), request, fingerprint).1 == Sent(false)
    {
      hide Follows;
      var newest := if session.latest.Some? && session.latest.value.sequence > snapshot.sequence
                    then session.latest.value else snapshot;
      ghost var before := session.GateView();
      var remaining := session.RemainingCommandBudget();
      ghost var gate := session.GateView();
      var budget := Min(1, remaining);
      decision, choices := Decide(newest, memory, commitments, Some(budget));
      FollowsWithin(old(memory.View()), newest, commitments.inflight, budget, decision.steps, choices);
      assert session.GateView() == gate;
      if decision.steps != [] {
        assert remaining > 0;
        forall request, fingerprint | request !in gate.waiting && request !in gate.bound
          ensures Attempt(gate, request, fingerprint).1 == Sent(false)
        {
          BudgetIsSpendable(before, request, fingerprint);
        }
      }
    }
  }
}
