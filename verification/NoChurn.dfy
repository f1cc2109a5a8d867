/** Why a second look at the same tick never takes back the trades just offered. */
module NoChurn {
  import opened Domain
  import opened Counterparties
  import opened EngineInvariant
  import opened Memory
  import opened Reserves
  import opened Commitments
  import opened Planner
  import opened PlannerSafety
  import opened PlannerStages
  import opened Deciding
  import Contract

  /** The priced offers of a batch as the economy would list them, under the ids it gave them. */
  function PostedBy(s: Snapshot, steps: seq<Step>, ids: seq<ObjectId>): seq<Offer>
    requires |ids| == |steps|
  {
    if steps == [] then []
    else
      var n := |steps| - 1;
      var before, x := PostedBy(s, steps[..n], ids[..n]), steps[n];
      if x.IsPriced() then
        before + [Offer(ids[n], s.self, x.recipient, Bundle.Single(x.pay, x.give), Bundle.Single(x.want, x.receive),
                        s.tick, s.version, x.expires, Open, None, None)]
      else before
  }

  lemma {:induction false} PostedFrom(c: Context, steps: seq<Step>, ids: seq<ObjectId>, o: Offer) returns (k: nat)
    requires |ids| == |steps| && Planned(c, steps) && o in PostedBy(c.s, steps, ids)
    ensures k < |steps| && steps[k].IsPriced() && steps[k].recipient in c.known
    ensures o.id in ids && o.proposer == c.s.self && o.recipient == steps[k].recipient
    ensures o.give == Bundle.Single(steps[k].pay, steps[k].give) && o.receive == Bundle.Single(steps[k].want, steps[k].receive)
    ensures o.IsOpenAt(c.s.tick) && steps[k].receive >= 1
  {
    var n := |steps| - 1;
    assert ids == ids[..n] + [ids[n]];
    if o in PostedBy(c.s, steps[..n], ids[..n]) {
      k := PostedFrom(c, steps[..n], ids[..n], o);
    } else {
      k := n;
      assert PostSound(c, steps[..n], steps[n]);
    }
  }

  /** What those offers promise away. */
  function Promises(steps: seq<Step>): Bundle {
    if steps == [] then Bundle.Zero()
    else
      var n := |steps| - 1;
      Promises(steps[..n]).Plus(if steps[n].IsPriced() then Bundle.Single(steps[n].pay, steps[n].give) else Bundle.Zero())
  }

  lemma {:induction false} PromisesAreSpent(c: Context, steps: seq<Step>)
    ensures SpentOn(c.s.self, steps).Dominates(Promises(steps))
  {
    if steps != [] { PromisesAreSpent(c, steps[..|steps| - 1]); }
  }

  lemma {:induction false} PromisedAdds(offers: seq<Offer>, more: seq<Offer>, self: StationId, tick: int)
    ensures PromisedIn(offers + more, self, tick) == PromisedIn(offers, self, tick).Plus(PromisedIn(more, self, tick))
  {
    if more == [] {
      assert offers + more == offers;
    } else {
      var n := |more| - 1;
      assert (offers + more)[..|offers| + n] == offers + more[..n];
      PromisedAdds(offers, more[..n], self, tick);
    }
  }

  lemma {:induction false} PostedPromise(c: Context, steps: seq<Step>, ids: seq<ObjectId>)
    requires |ids| == |steps| && Planned(c, steps)
    ensures PromisedIn(PostedBy(c.s, steps, ids), c.s.self, c.s.tick) == Promises(steps)
  {
    if steps != [] {
      var n := |steps| - 1;
      PostedPromise(c, steps[..n], ids[..n]);
      var before := PostedBy(c.s, steps[..n], ids[..n]);
      if steps[n].IsPriced() {
        assert PostSound(c, steps[..n], steps[n]);
        var all := PostedBy(c.s, steps, ids);
        assert all[..|before|] == before;
      }
    }
  }

  /** The next snapshot of the same tick: only the priced offers are new, under fresh ids. */
  ghost predicate ListsTrades(s: Snapshot, t: Snapshot, steps: seq<Step>, ids: seq<ObjectId>) {
    && |ids| == |steps|
    && t.self == s.self && t.tick == s.tick && t.rules == s.rules && t.me == s.me && t.transactions == s.transactions
    && t.offers == s.offers + PostedBy(s, steps, ids)
    && forall d :: d in s.transactions ==> d.offer !in ids
  }

  lemma MonusTwice(a: Bundle, b: Bundle, x: Bundle)
    ensures a.Monus(b.Plus(x)) == a.Monus(b).Monus(x)
  {
  }

  /** The stock left for the second look covers whatever the first batch left. */
  lemma StockAfterPosting(n: Notes, s: Snapshot, t: Snapshot, c: Context, steps: seq<Step>, ids: seq<ObjectId>)
    requires c == ContextFor(n, s, []) && Planned(c, steps) && ListsTrades(s, t, steps, ids)
    ensures c.opening.Dominates(Available(t, [])) && Available(t, []).Dominates(Balance(c, steps))
  {
    PromisedAdds(s.offers, PostedBy(s, steps, ids), s.self, s.tick);
    PostedPromise(c, steps, ids);
    MonusTwice(s.me.inventory, Promised(s), Promises(steps));
    assert HeldIn([]) == Bundle.Zero();
    assert Available(t, []) == c.opening.Monus(Promises(steps));
    PromisesAreSpent(c, steps);
    SharedBalance(c, steps);
  }

  /** Where a priced offer pays from, the batch never goes below the reserve afterwards. */
  lemma {:induction false} PaidKeepsReserve(c: Context, steps: seq<Step>, k: nat)
    requires Planned(c, steps) && k < |steps| && steps[k].IsPriced()
    ensures Balance(c, steps).Get(steps[k].pay) >= c.reserve.Get(steps[k].pay)
  {
    var n := |steps| - 1;
    var front, last := steps[..n], steps[n];
    StagesRise(c, steps, k, n);
    assert last.Post? && PostSound(c, front, last);
    assert Balance(c, steps) == Balance(c, front).Monus(Bundle.Single(last.pay, last.give));
    hide Balance, Guarded, NormalPlanned, HasNormalOffers, Planned, PaymentLimitFor, Posts, PricedPosts, KeepOffers;
    if k < n {
      assert front[k] == steps[k];
      PaidKeepsReserve(c, front, k);
    }
    if last.purpose == Priced { LeavesReserve(Balance(c, front), c.reserve, last.pay, last.give); }
  }

  // ---- the second look measures nothing new ------------------------------------------------------------

  lemma {:induction false} CreatedAtAdds(offers: seq<Offer>, more: seq<Offer>, id: ObjectId)
    requires forall o :: o in more ==> o.id != id
    ensures CreatedAt(offers + more, id) == CreatedAt(offers, id)
  {
    if more == [] {
      assert offers + more == offers;
    } else {
      var n := |more| - 1;
      assert (offers + more)[..|offers| + n] == offers + more[..n];
      assert more[n] in more;
      CreatedAtAdds(offers, more[..n], id);
    }
  }

  lemma {:induction false} PostedIds(s: Snapshot, steps: seq<Step>, ids: seq<ObjectId>)
    requires |ids| == |steps|
    ensures forall o :: o in PostedBy(s, steps, ids) ==> o.id in ids
  {
    if steps != [] {
      PostedIds(s, steps[..|steps| - 1], ids[..|steps| - 1]);
    }
  }

  lemma SecondLookMeasures(
    n: Notes, s: Snapshot, t: Snapshot, stored: Bundle, gifts: map<(StationId, Resource), int>, steps: seq<Step>, ids: seq<ObjectId>)
    requires ListsTrades(s, t, steps, ids)
    ensures var first := Memory.Observed(n, s);
            var again := Memory.Observed(first.(stored := stored, gifts := gifts), t);
            again.roundTrips == first.roundTrips && again.productions == first.productions && again.stored == stored
  {
    var first := Memory.Observed(n, s);
    var base := first.(stored := stored, gifts := gifts);
    var m := base.(model := Updated(base.model, t));
    RoundTripsMeasure(n.(model := Updated(n.model, s)), s, s.transactions);
    PostedIds(s, steps, ids);
    forall d | d in t.transactions && Measurable(t, d) ensures d.id in m.measured {
      CreatedAtAdds(s.offers, PostedBy(s, steps, ids), d.offer);
      assert Measurable(s, d);
    }
    NothingToMeasure(m, t, t.transactions);
  }

  lemma ReserveReadsSamples(rules: Rules, me: Observation, m: Notes, k: Notes, available: Bundle)
    requires m.roundTrips == k.roundTrips && m.productions == k.productions && m.stored == k.stored
    ensures ReserveOf(rules, me, m, available) == ReserveOf(rules, me, k, available)
  {
    assert MedianRoundTrip(m) == MedianRoundTrip(k) && LowestProduction(m) == LowestProduction(k);
    forall r ensures SafetyTicks(r, rules, me, m) == SafetyTicks(r, rules, me, k) {}
    hide SafetyTicks;
  }

  /** Where the batch's trades pay from, the reserve computed again is the one computed before. */
  lemma SecondReserve(n: Notes, s: Snapshot, t: Snapshot, gifts: map<(StationId, Resource), int>, steps: seq<Step>, ids: seq<ObjectId>, k: nat)
    requires Planned(ContextFor(n, s, []), steps) && ListsTrades(s, t, steps, ids) && k < |steps| && steps[k].IsPriced()
    ensures var c := ContextFor(n, s, []);
            var d := ContextFor(Refreshed(n, s, c.opening).(gifts := gifts), t, []);
            d.reserve.Get(steps[k].pay) == c.reserve.Get(steps[k].pay) <= d.opening.Get(steps[k].pay)
  {
    var c := ContextFor(n, s, []);
    var r := steps[k].pay;
    var seen := Memory.Observed(n, s);
    var stored := StoredOf(s.rules, s.me, seen, c.opening);
    var now := Available(t, []);
    StockAfterPosting(n, s, t, c, steps, ids);
    PaidKeepsReserve(c, steps, k);
    SecondLookMeasures(n, s, t, stored, gifts, steps, ids);
    hide Planned, Memory.Observed, ListsTrades, Balance, Available, StoredOf, ReserveOf;
    ReserveSettles(s.rules, s.me, seen, c.opening, now, r);
    ReserveReadsSamples(s.rules, s.me, Memory.Observed(seen.(stored := stored, gifts := gifts), t), seen.(stored := stored), now);
  }

  // ---- the second look withdraws nothing ------------------------------------------------------------------

  lemma GuardedIsSafe(c: Context, left: Bundle, o: Offer, normal: bool)
    requires Guarded(c, left, normal) && (2 * o.give.Total() > o.receive.Total() ==> normal) && !o.receive.IsZero()
    ensures !ViolatesGuard(c, left, o)
  {
  }

  lemma GuardedMore(c: Context, d: Context, less: Bundle, more: Bundle, normal: bool)
    requires Guarded(c, less, normal) && more.Dominates(less)
    requires c.s.me == d.s.me && c.s.rules == d.s.rules && c.s.tick == d.s.tick
    ensures Guarded(d, more, normal)
  {
  }

  lemma PostedIsSafe(n: Notes, s: Snapshot, t: Snapshot, gifts: map<(StationId, Resource), int>, steps: seq<Step>, ids: seq<ObjectId>, o: Offer)
    requires Planned(ContextFor(n, s, []), steps) && ListsTrades(s, t, steps, ids) && o in PostedBy(s, steps, ids)
    ensures var c := ContextFor(n, s, []);
            var d := ContextFor(Refreshed(n, s, c.opening).(gifts := gifts), t, []);
            !Dangerous(d, d.opening, o)
  {
    var c := ContextFor(n, s, []);
    var d := ContextFor(Refreshed(n, s, c.opening).(gifts := gifts), t, []);
    var k := PostedFrom(c, steps, ids, o);
    var p := steps[k];
    SecondReserve(n, s, t, gifts, steps, ids, k);
    StockAfterPosting(n, s, t, c, steps, ids);
    FloorKept(c, steps, k);
    hide Planned, Memory.Observed, Balance, Available, StoredOf, ReserveOf, HasNormalOffers, Guarded, ViolatesGuard, Refreshed, PostedBy;
    GuardedMore(c, d, Balance(c, steps), d.opening, p.IsNormalTrade() || HasNormalOffers(s));
    SingleOf(p.pay, p.give, p.pay);
    SingleOf(p.want, p.receive, p.want);
    GuardedIsSafe(d, d.opening, o, p.IsNormalTrade() || HasNormalOffers(s));
    forall r ensures !AtRisk(d, d.opening, o, r) {
      SingleOf(p.pay, p.give, r);
    }
  }

  lemma {:induction false} NoAcceptsNoCost(c: Context, steps: seq<Step>)
    requires Planned(c, steps) && UpTo(steps, 1) && forall x :: x in steps ==> !x.TakeOffer?
    ensures Balance(c, steps) == c.opening
  {
    if steps != [] {
      var k := |steps| - 1;
      assert steps == steps[..k] + [steps[k]];
      NoAcceptsNoCost(c, steps[..k]);
    }
  }

  lemma {:induction false} NothingTaken(c: Context, steps: seq<Step>)
    requires Planned(c, steps) && c.s.IncomingOpen() == []
    ensures forall x :: x in steps ==> !x.TakeOffer?
  {
    if steps != [] {
      var k := |steps| - 1;
      assert steps == steps[..k] + [steps[k]];
      NothingTaken(c, steps[..k]);
    }
  }

  /** With nobody offering to us, only what the opening balance endangers is withdrawn. */
  lemma PulledIsDangerous(c: Context, steps: seq<Step>, o: Offer)
    requires Planned(c, steps) && c.s.IncomingOpen() == [] && PullOffer(o) in steps
    ensures Dangerous(c, c.opening, o)
  {
    hide Planned, Balance, Dangerous, KeepOffers;
    var k :| 0 <= k < |steps| && steps[k] == PullOffer(o);
    PlannedPrefix(c, steps, k);
    NothingTaken(c, steps);
    BeforePull(c, steps[..k], o);
    NoAcceptsNoCost(c, steps[..k]);
    assert PullSound(c, steps[..k], o);
  }

  lemma BeforePull(c: Context, prefix: seq<Step>, o: Offer)
    requires Planned(c, prefix) && Justified(c, prefix, PullOffer(o))
    ensures UpTo(prefix, 1)
  {
    Contract.EarlierStages(c, prefix, 1);
  }

  lemma KeepSnoc(offers: seq<Offer>, o: Offer, filter: OfferFilter)
    ensures KeepOffers(offers + [o], filter) == KeepOffers(offers, filter) + if filter.Keeps(o) then [o] else []
  {
    assert (offers + [o])[..|offers|] == offers;
  }

  lemma {:induction false} NobodyOffersUs(s: Snapshot, steps: seq<Step>, ids: seq<ObjectId>)
    requires |ids| == |steps| && forall x :: x in steps && x.IsPriced() ==> x.recipient != s.self
    ensures KeepOffers(s.offers + PostedBy(s, steps, ids), OpenTo(s.self, s.tick)) == KeepOffers(s.offers, OpenTo(s.self, s.tick))
  {
    if steps == [] {
      assert s.offers + [] == s.offers;
    } else {
      var n := |steps| - 1;
      assert steps == steps[..n] + [steps[n]];
      NobodyOffersUs(s, steps[..n], ids[..n]);
      var before, all := PostedBy(s, steps[..n], ids[..n]), PostedBy(s, steps, ids);
      if steps[n].IsPriced() {
        var o := all[|before|];
        assert all == before + [o] && o.recipient != s.self;
        assert s.offers + all == (s.offers + before) + [o];
        hide PostedBy, KeepOffers;
        KeepSnoc(s.offers + before, o, OpenTo(s.self, s.tick));
      }
    }
  }

  lemma {:induction false} RecipientsKnown(c: Context, steps: seq<Step>)
    requires Planned(c, steps)
    ensures forall x :: x in steps && x.IsPriced() ==> x.recipient in c.known
  {
    if steps != [] {
      var n := |steps| - 1;
      assert steps == steps[..n] + [steps[n]];
      RecipientsKnown(c, steps[..n]);
      assert steps[n].Post? ==> PostSound(c, steps[..n], steps[n]);
    }
  }

  /** With no incoming offers and nothing in flight, list the batch's trades in the snapshot
      and decide again at the same tick with the memory just left: whatever the second batch
      is, it withdraws none of them. */
  lemma TradesAreNotWithdrawn(
    n: Notes, s: Snapshot, t: Snapshot, gifts: map<(StationId, Resource), int>, steps: seq<Step>, ids: seq<ObjectId>, again: seq<Step>, o: Offer)
    requires s.IncomingOpen() == [] && s.self !in ContextFor(n, s, []).known
    requires Planned(ContextFor(n, s, []), steps) && ListsTrades(s, t, steps, ids) && o in PostedBy(s, steps, ids)
    requires Planned(ContextFor(Refreshed(n, s, Available(s, [])).(gifts := gifts), t, []), again)
    ensures PullOffer(o) !in again
  {
    var c := ContextFor(n, s, []);
    var d := ContextFor(Refreshed(n, s, c.opening).(gifts := gifts), t, []);
    RecipientsKnown(c, steps);
    NobodyOffersUs(s, steps, ids);
    PostedIsSafe(n, s, t, gifts, steps, ids, o);
    hide Planned, Dangerous, Memory.Observed, Refreshed, ReserveOf, Available, PostedBy, KeepOffers;
    if PullOffer(o) in again {
      PulledIsDangerous(d, again, o);
    }
  }
}
