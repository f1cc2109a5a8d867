/** Whom to help, and with how much. */
module Altruism {
  import opened Domain
  import opened Counterparties
  import opened Memory
  import opened Reserves

  const PERSISTENCE_TICKS: nat := 4
  const COOLDOWN_TICKS: nat := 5
  const MAX_EXCESS_GIFT: nat := 20
  const EXCESS_COOLDOWN_TICKS: nat := 2

  datatype Gift = Gift(station: StationId, resource: Resource, quantity: nat)

  /** A fifth of the idle surplus, and at least one unit. */
  function DonationSize(surplus: nat): (q: nat)
    ensures 1 <= q && (surplus > 0 ==> q <= surplus && 5 * q <= Max(5, surplus))
  {
    Max(1, surplus / 5)
  }

  // ---- stock above the cap ---------------------------------------------------------------------

  predicate IsSeeker(n: Notes, r: Resource, tick: int, p: StationId) {
    p in n.model.Live() && r in n.model.stations[p].seeking && n.TicksSinceGift(p, r, tick) >= EXCESS_COOLDOWN_TICKS
  }

  /** `q` has advertised for `r` no longer, and no later, than `p`. */
  predicate SeeksNoLonger(n: Notes, r: Resource, q: StationId, p: StationId) {
    var x, y := n.model.Of(q), n.model.Of(p);
    x.Streak(r) < y.Streak(r) || (x.Streak(r) == y.Streak(r) && x.lastAdTick <= y.lastAdTick)
  }

  ghost predicate Picked(n: Notes, r: Resource, tick: int, pick: Option<StationId>) {
    match pick
    case None => forall p :: p in n.model.stations ==> !IsSeeker(n, r, tick, p)
    case Some(p) =>
      IsSeeker(n, r, tick, p) && forall q :: q in n.model.stations && IsSeeker(n, r, tick, q) ==> SeeksNoLonger(n, r, q, p)
  }

  /** The live seeker of `r` that has been asking longest, if anybody is asking. */
  method PickGiftRecipient(n: Notes, r: Resource, tick: int) returns (pick: Option<StationId>)
    ensures Picked(n, r, tick, pick)
  {
    pick := None;
    var todo := n.model.stations.Keys;
    while todo != {}
      invariant todo <= n.model.stations.Keys
      invariant pick.Some? ==> pick.value in n.model.stations && pick.value !in todo && IsSeeker(n, r, tick, pick.value)
      invariant forall q :: q in n.model.stations && q !in todo && IsSeeker(n, r, tick, q) ==>
                  pick.Some? && SeeksNoLonger(n, r, q, pick.value)
      decreases |todo|
    {
      var p :| p in todo;
      todo := todo - {p};
      if IsSeeker(n, r, tick, p) && (pick.None? || SeeksNoLonger(n, r, pick.value, p)) {
        pick := Some(p);
      }
    }
  }

  // ---- a planet in distress ------------------------------------------------------------------------

  predicate InDistress(n: Notes, surplus: Bundle, tick: int, p: StationId, r: Resource) {
    && p in n.model.Live() && n.model.stations[p].Streak(r) >= PERSISTENCE_TICKS
    && surplus.Get(r) > 0 && n.TicksSinceGift(p, r, tick) >= COOLDOWN_TICKS
  }

  ghost predicate Scanned(n: Notes, surplus: Bundle, u: Urgencies, tick: int, found: Option<Gift>) {
    match found
    case None => AllCalm(u) ==> forall p, r :: p in n.model.stations ==> !InDistress(n, surplus, tick, p, r)
    case Some(g) =>
      && AllCalm(u) && InDistress(n, surplus, tick, g.station, g.resource)
      && g.quantity == DonationSize(surplus.Get(g.resource))
      && forall p, r :: p in n.model.stations && InDistress(n, surplus, tick, p, r) ==>
           n.model.stations[p].Streak(r) <= n.model.stations[g.station].Streak(g.resource)
  }

  /** The longest-standing need we can spare something for, once nothing of ours is urgent. */
  method ScanForDistress(n: Notes, surplus: Bundle, u: Urgencies, tick: int) returns (found: Option<Gift>)
    ensures Scanned(n, surplus, u, tick, found)
  {
    found := None;
    if !AllCalm(u) { return; }
    var todo := n.model.stations.Keys;
    while todo != {}
      invariant todo <= n.model.stations.Keys
      invariant found.Some? ==> InDistress(n, surplus, tick, found.value.station, found.value.resource)
                                && found.value.quantity == DonationSize(surplus.Get(found.value.resource))
      invariant forall p, r :: p in n.model.stations && p !in todo && InDistress(n, surplus, tick, p, r) ==>
                  found.Some? && n.model.stations[p].Streak(r) <= n.model.stations[found.value.station].Streak(found.value.resource)
      decreases |todo|
    {
      var p :| p in todo;
      todo := todo - {p};
      found := LongerNeed(n, surplus, tick, p, found);
    }
  }

  method LongerNeed(n: Notes, surplus: Bundle, tick: int, p: StationId, best: Option<Gift>) returns (found: Option<Gift>)
    requires p in n.model.stations
    requires best.Some? ==> InDistress(n, surplus, tick, best.value.station, best.value.resource)
                            && best.value.quantity == DonationSize(surplus.Get(best.value.resource))
    ensures found.Some? ==> InDistress(n, surplus, tick, found.value.station, found.value.resource)
                            && found.value.quantity == DonationSize(surplus.Get(found.value.resource))
    ensures best.Some? ==> found.Some? && n.model.stations[best.value.station].Streak(best.value.resource)
                                            <= n.model.stations[found.value.station].Streak(found.value.resource)
    ensures forall r :: InDistress(n, surplus, tick, p, r) ==>
              found.Some? && n.model.stations[p].Streak(r) <= n.model.stations[found.value.station].Streak(found.value.resource)
  {
    found := best;
    for i := 0 to |RESOURCES|
      invariant found.Some? ==> InDistress(n, surplus, tick, found.value.station, found.value.resource)
                                && found.value.quantity == DonationSize(surplus.Get(found.value.resource))
      invariant best.Some? ==> found.Some? && n.model.stations[best.value.station].Streak(best.value.resource)
                                                <= n.model.stations[found.value.station].Streak(found.value.resource)
      invariant forall k :: 0 <= k < i && InDistress(n, surplus, tick, p, RESOURCES[k]) ==>
                  found.Some? && n.model.stations[p].Streak(RESOURCES[k]) <= n.model.stations[found.value.station].Streak(found.value.resource)
    {
      var r := RESOURCES[i];
      if InDistress(n, surplus, tick, p, r)
         && (found.None? || n.model.stations[found.value.station].Streak(found.value.resource) < n.model.stations[p].Streak(r)) {
        found := Some(Gift(p, r, DonationSize(surplus.Get(r))));
      }
    }
    forall r | InDistress(n, surplus, tick, p, r)
      ensures found.Some? && n.model.stations[p].Streak(r) <= n.model.stations[found.value.station].Streak(found.value.resource)
    {
      assert RESOURCES[0] == Water && RESOURCES[1] == Food && RESOURCES[2] == Components;
      match r case Water => case Food => case Components =>
    }
  }
}
