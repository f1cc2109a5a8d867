/** What the client can still promise: open offers in the snapshot, plus what is in flight. */
module Commitments {
  import opened Domain

  type Ledger = seq<(RequestId, Bundle)>

  function HeldIn(inflight: Ledger): Bundle {
    if inflight == [] then Bundle.Zero()
    else HeldIn(inflight[..|inflight| - 1]).Plus(inflight[|inflight| - 1].1)
  }

  /** The ledger without any entry for `request`. */
  function Without(inflight: Ledger, request: RequestId): Ledger {
    if inflight == [] then []
    else
      var front, last := inflight[..|inflight| - 1], inflight[|inflight| - 1];
      if last.0 == request then Without(front, request) else Without(front, request) + [last]
  }

  predicate HasEntry(inflight: Ledger, request: RequestId) {
    exists i :: 0 <= i < |inflight| && inflight[i].0 == request
  }

  /** A dictionary keeps the place of a key that is written again. */
  function With(inflight: Ledger, request: RequestId, give: Bundle): Ledger {
    if HasEntry(inflight, request) then
      seq(|inflight|, i requires 0 <= i < |inflight| => if inflight[i].0 == request then (request, give) else inflight[i])
    else inflight + [(request, give)]
  }

  /** What our still-open offers have promised away. */
  function PromisedIn(offers: seq<Offer>, self: StationId, tick: int): Bundle {
    if offers == [] then Bundle.Zero()
    else
      var before, o := PromisedIn(offers[..|offers| - 1], self, tick), offers[|offers| - 1];
      if o.proposer == self && o.IsOpenAt(tick) then before.Plus(o.give) else before
  }

  function Promised(s: Snapshot): Bundle { PromisedIn(s.offers, s.self, s.tick) }

  function Available(s: Snapshot, inflight: Ledger): Bundle {
    s.me.inventory.Monus(Promised(s)).Monus(HeldIn(inflight))
  }

  class CommitmentTracker {
    var inflight: Ledger

    constructor ()
      ensures inflight == []
    {
      inflight := [];
    }

    method RegisterInflight(request: RequestId, give: Bundle)
      modifies this
      ensures inflight == With(old(inflight), request, give)
    {
      inflight := With(inflight, request, give);
    }

    method ResolveInflight(request: RequestId)
      modifies this
      ensures inflight == Without(old(inflight), request)
    {
      inflight := Without(inflight, request);
    }

    method InflightTotal() returns (total: Bundle)
      ensures total == HeldIn(inflight)
    {
      total := Bundle.Zero();
      for i := 0 to |inflight|
        invariant total == HeldIn(inflight[..i])
      {
        assert inflight[..i + 1][..i] == inflight[..i];
        total := total.Plus(inflight[i].1);
      }
      assert inflight[..|inflight|] == inflight;
    }

    method OutstandingConfirmedGive(s: Snapshot) returns (total: Bundle)
      ensures total == Promised(s)
    {
      total := Bundle.Zero();
      for i := 0 to |s.offers|
        invariant total == PromisedIn(s.offers[..i], s.self, s.tick)
      {
        assert s.offers[..i + 1][..i] == s.offers[..i];
        var o := s.offers[i];
        if o.proposer == s.self && o.status == Open && !o.IsExpiredAt(s.tick) {
          total := total.Plus(o.give);
        }
      }
      assert s.offers[..|s.offers|] == s.offers;
    }

    method AvailableToCommit(s: Snapshot) returns (available: Bundle)
      ensures available == Available(s, inflight)
    {
      var committed := OutstandingConfirmedGive(s);
      var held := InflightTotal();
      available := s.me.inventory.Monus(committed).Monus(held);
    }
  }
}
