/** How much stock the client refuses to trade away. */
module Reserves {
  import opened Arithmetic
  import opened Domain
  import opened Memory

  const MIN_SAFETY_TICKS: nat := 3
  const MAX_SAFETY_TICKS: nat := 10
  const LOW_HEALTH_EXTRA_TICKS: nat := 2
  const PRODUCTION_VARIANCE_EXTRA_TICKS: nat := 1
  const WATCH_STOCK: nat := 20
  const CRITICAL_STOCK: nat := 10
  const NORMAL_TICKS: nat := 25
  const STOP_TICKS: nat := 10
  const STORAGE_THRESHOLD: nat := 32
  const MAX_RESERVE_UNITS: nat := 15
  const BALANCE_GAP: nat := 10
  const IMPORT_CEILING_FLOOR: nat := 2 * WATCH_STOCK
  const END_GAME_TICKS: nat := 10
  const STOCK_CAP: nat := 100

  // ---- the reserve -------------------------------------------------------------------------

  function SafetyTicks(r: Resource, rules: Rules, me: Observation, n: Notes): nat {
    var median := MedianRoundTrip(n);
    var lowest := LowestProduction(n);
    var base := if median.None? then MIN_SAFETY_TICKS else Max(MIN_SAFETY_TICKS, median.value + 1);
    var weak := if me.health < rules.maxHealth / 2 then LOW_HEALTH_EXTRA_TICKS else 0;
    var dipped := if r == me.specialty && lowest.Some? && lowest.value < me.upkeep.Get(r)
                  then PRODUCTION_VARIANCE_EXTRA_TICKS else 0;
    Min(base + weak + dipped, MAX_SAFETY_TICKS)
  }

  function Buffer(r: Resource, rules: Rules, me: Observation, n: Notes): nat {
    Min(MAX_RESERVE_UNITS, me.upkeep.Get(r) * SafetyTicks(r, rules, me, n))
  }

  /** Stock banked on top of the buffer: kept from before, or above the threshold now. */
  function Saved(buffer: nat, stored: nat, have: nat): nat
    requires buffer <= MAX_RESERVE_UNITS
  {
    var kept := Min(stored, Min(have, MAX_RESERVE_UNITS - buffer));
    Min(MAX_RESERVE_UNITS - buffer, kept + Max(0, have - kept - STORAGE_THRESHOLD))
  }

  function SavedOf(r: Resource, rules: Rules, me: Observation, n: Notes, available: Bundle): nat {
    Saved(Buffer(r, rules, me, n), n.stored.Get(r), available.Get(r))
  }

  function StoredOf(rules: Rules, me: Observation, n: Notes, available: Bundle): Bundle {
    Bundle(SavedOf(Water, rules, me, n, available), SavedOf(Food, rules, me, n, available),
           SavedOf(Components, rules, me, n, available))
  }

  function ReserveOf(rules: Rules, me: Observation, n: Notes, available: Bundle): Bundle {
    Bundle(Buffer(Water, rules, me, n), Buffer(Food, rules, me, n), Buffer(Components, rules, me, n))
      .Plus(StoredOf(rules, me, n, available))
  }

  method ComputeReserve(rules: Rules, me: Observation, memory: PolicyMemory, available: Bundle) returns (reserve: Bundle)
    modifies memory`stored
    ensures reserve == ReserveOf(rules, me, old(memory.View()), available)
    ensures memory.stored == StoredOf(rules, me, old(memory.View()), available)
  {
    ghost var n := memory.View();
    var reserves: seq<nat> := [];
    var stored: seq<nat> := [];
    for i := 0 to |RESOURCES|
      invariant |reserves| == |stored| == i
      invariant memory.View() == n
      invariant forall k :: 0 <= k < i ==>
                  && stored[k] == SavedOf(RESOURCES[k], rules, me, n, available)
                  && reserves[k] == Buffer(RESOURCES[k], rules, me, n) + stored[k]
    {
      var r := RESOURCES[i];
      var buffer := Buffer(r, rules, me, memory.View());
      var have := available.Get(r);
      var saved := Min(memory.stored.Get(r), Min(have, MAX_RESERVE_UNITS - buffer));
      var excess := Max(0, have - saved - STORAGE_THRESHOLD);
      saved := Min(MAX_RESERVE_UNITS - buffer, saved + excess);
      stored := stored + [saved];
      reserves := reserves + [buffer + saved];
    }
    memory.stored := Bundle(stored[0], stored[1], stored[2]);
    reserve := Bundle(reserves[0], reserves[1], reserves[2]);
  }

  lemma SafetyBounds(r: Resource, rules: Rules, me: Observation, n: Notes)
    ensures MIN_SAFETY_TICKS <= SafetyTicks(r, rules, me, n) <= MAX_SAFETY_TICKS
    ensures Buffer(r, rules, me, n) >= Min(MAX_RESERVE_UNITS, me.upkeep.Get(r) * MIN_SAFETY_TICKS)
  {
    assert MIN_SAFETY_TICKS <= SafetyTicks(r, rules, me, n) <= MAX_SAFETY_TICKS;
    hide SafetyTicks;
    ScaleGrows(me.upkeep.Get(r), MIN_SAFETY_TICKS, SafetyTicks(r, rules, me, n));
  }

  /** The loop's two steps are one clamp, and never bank more than we have. */
  lemma SavedClamps(buffer: nat, stored: nat, have: nat)
    requires buffer <= MAX_RESERVE_UNITS
    ensures var cap := MAX_RESERVE_UNITS - buffer;
            && Saved(buffer, stored, have) == Min(cap, Max(Min(stored, have), have - STORAGE_THRESHOLD))
            && Saved(buffer, stored, have) <= Min(cap, have)
  {
  }

  /** Never above fifteen, and never more when less is available. */
  lemma ReserveShrinksWithStock(rules: Rules, me: Observation, n: Notes, more: Bundle, less: Bundle)
    requires more.Dominates(less)
    ensures ReserveOf(rules, me, n, more).Dominates(ReserveOf(rules, me, n, less))
    ensures forall r :: ReserveOf(rules, me, n, more).Get(r) <= MAX_RESERVE_UNITS
  {
    hide Buffer, Saved;
    BufferBounded(rules, me, n);
    forall r ensures SavedOf(r, rules, me, n, less) <= SavedOf(r, rules, me, n, more) <= MAX_RESERVE_UNITS - Buffer(r, rules, me, n) {
      SavedClamps(Buffer(r, rules, me, n), n.stored.Get(r), more.Get(r));
      SavedClamps(Buffer(r, rules, me, n), n.stored.Get(r), less.Get(r));
    }
  }

  lemma BufferBounded(rules: Rules, me: Observation, n: Notes)
    ensures forall r :: Buffer(r, rules, me, n) <= MAX_RESERVE_UNITS
  {
  }

  lemma BufferIgnoresStored(rules: Rules, me: Observation, n: Notes, stored: Bundle, r: Resource)
    ensures Buffer(r, rules, me, n.(stored := stored)) == Buffer(r, rules, me, n)
  {
    assert MedianRoundTrip(n.(stored := stored)) == MedianRoundTrip(n);
    assert LowestProduction(n.(stored := stored)) == LowestProduction(n);
    assert SafetyTicks(r, rules, me, n.(stored := stored)) == SafetyTicks(r, rules, me, n);
    hide SafetyTicks;
  }

  /** Banked stock is not banked twice: while stock stays between the reserve and what it
      was, computing again with the stock banked last time gives the same reserve. */
  lemma ReserveSettles(rules: Rules, me: Observation, n: Notes, before: Bundle, now: Bundle, r: Resource)
    requires now.Get(r) <= before.Get(r)
    requires ReserveOf(rules, me, n, before).Get(r) <= now.Get(r) || now.Get(r) == before.Get(r)
    ensures var again := n.(stored := StoredOf(rules, me, n, before));
            && ReserveOf(rules, me, again, now).Get(r) == ReserveOf(rules, me, n, before).Get(r)
            && StoredOf(rules, me, again, now).Get(r) == StoredOf(rules, me, n, before).Get(r)
  {
    var again := n.(stored := StoredOf(rules, me, n, before));
    BufferIgnoresStored(rules, me, n, again.stored, r);
    hide Buffer, Saved;
    BufferBounded(rules, me, n);
    SavedClamps(Buffer(r, rules, me, n), n.stored.Get(r), before.Get(r));
    SavedClamps(Buffer(r, rules, me, n), again.stored.Get(r), now.Get(r));
  }

  /** What observing a snapshot and computing the reserve leave in memory. */
  function Refreshed(n: Notes, s: Snapshot, available: Bundle): Notes {
    var seen := Observed(n, s);
    seen.(stored := StoredOf(s.rules, s.me, seen, available))
  }

  function RefreshedTimes(n: Notes, s: Snapshot, available: Bundle, times: nat): Notes {
    if times == 0 then n else Refreshed(RefreshedTimes(n, s, available, times - 1), s, available)
  }

  lemma ObservedKeepsStored(n: Notes, s: Snapshot, stored: Bundle)
    ensures Observed(n, s).stored == n.stored
    ensures Observed(n.(stored := stored), s) == Observed(n, s).(stored := stored)
  {
    var m := n.(model := Counterparties.Updated(n.model, s));
    RoundTripsMeasure(m, s, s.transactions);
    RoundTripsIgnoreStored(m, s, s.transactions, stored);
  }

  lemma {:induction false} RoundTripsIgnoreStored(n: Notes, s: Snapshot, deals: seq<Transaction>, stored: Bundle)
    ensures WithRoundTrips(n.(stored := stored), s, deals) == WithRoundTrips(n, s, deals).(stored := stored)
  {
    if deals != [] {
      RoundTripsIgnoreStored(n, s, deals[..|deals| - 1], stored);
    }
  }

  /** Deciding again on a repeated snapshot finds the same memory and the same reserve. */
  lemma {:induction false} DecidingAgain(n: Notes, s: Snapshot, available: Bundle, times: nat)
    requires times > 0
    ensures RefreshedTimes(n, s, available, times) == Refreshed(n, s, available)
    ensures ReserveOf(s.rules, s.me, Observed(RefreshedTimes(n, s, available, times), s), available)
         == ReserveOf(s.rules, s.me, Observed(n, s), available)
  {
    var seen := Observed(n, s);
    var stored := StoredOf(s.rules, s.me, seen, available);
    if times > 1 {
      DecidingAgain(n, s, available, times - 1);
    }
    ObserveIsIdempotent(n, s);
    ObservedKeepsStored(seen, s, stored);
    assert Observed(Refreshed(n, s, available), s) == seen.(stored := stored);
    ReserveSettles(s.rules, s.me, seen, available, available, Water);
    ReserveSettles(s.rules, s.me, seen, available, available, Food);
    ReserveSettles(s.rules, s.me, seen, available, available, Components);
  }

  // ---- the reserve in numbers ----------------------------------------------------------------------

  /** Three ticks of upkeep, one past the median round trip if that is more, two more in poor
      health, one more once our own output fell short of our upkeep, and ten at most. */
  lemma SafetyInNumbers(r: Resource, rules: Rules, me: Observation, n: Notes)
    ensures var usual := if |n.roundTrips| < 3 then 3 else Max(3, MedianRoundTrip(n).value + 1);
            var weak := if me.health < rules.maxHealth / 2 then 2 else 0;
            var dipped := if r == me.specialty && (exists x :: x in n.productions && x < me.upkeep.Get(r)) then 1 else 0;
            SafetyTicks(r, rules, me, n) == Min(10, usual + weak + dipped)
  {
    hide MedianRoundTrip;
  }

  /** What is kept of a resource: those ticks of upkeep, fifteen at most, and on top the stock above
      thirty-two, or what was banked before and is still held. */
  lemma ReserveInNumbers(r: Resource, rules: Rules, me: Observation, n: Notes, available: Bundle)
    ensures var buffer := Min(15, me.upkeep.Get(r) * SafetyTicks(r, rules, me, n));
            ReserveOf(rules, me, n, available).Get(r)
              == buffer + Min(15 - buffer, Max(Min(n.stored.Get(r), available.Get(r)), available.Get(r) - 32))
  {
    SavedClamps(Buffer(r, rules, me, n), n.stored.Get(r), available.Get(r));
    hide SafetyTicks, Saved;
  }

  // ---- urgency ----------------------------------------------------------------------------------

  datatype Urgency = Calm | Watch | Critical {
    function Rank(): nat { match this case Calm => 0 case Watch => 1 case Critical => 2 }
  }

  type Urgencies = u: map<Resource, Urgency> | Water in u && Food in u && Components in u
    witness map[Water := Calm, Food := Calm, Components := Calm]

  function Level(u: Urgencies, r: Resource): Urgency {
    match r case Water => u[Water] case Food => u[Food] case Components => u[Components]
  }

  function UrgencyAt(have: nat, upkeep: nat, reserve: nat): Urgency {
    if have < Max(CRITICAL_STOCK, upkeep) then Critical
    else if have < Max(WATCH_STOCK, reserve) then Watch
    else Calm
  }

  function UrgencyOf(available: Bundle, upkeep: Bundle, reserve: Bundle): (u: Urgencies)
    ensures forall r :: Level(u, r) == UrgencyAt(available.Get(r), upkeep.Get(r), reserve.Get(r))
  {
    map[Water := UrgencyAt(available.water, upkeep.water, reserve.water),
        Food := UrgencyAt(available.food, upkeep.food, reserve.food),
        Components := UrgencyAt(available.components, upkeep.components, reserve.components)]
  }

  method ComputeUrgency(available: Bundle, upkeep: Bundle, reserve: Bundle) returns (urgency: Urgencies)
    ensures urgency == UrgencyOf(available, upkeep, reserve)
  {
    var levels: map<Resource, Urgency> := map[];
    for i := 0 to |RESOURCES|
      invariant levels.Keys == set k | 0 <= k < i :: RESOURCES[k]
      invariant forall r :: r in levels ==> levels[r] == UrgencyAt(available.Get(r), upkeep.Get(r), reserve.Get(r))
    {
      var r := RESOURCES[i];
      var have := available.Get(r);
      if have < Max(CRITICAL_STOCK, upkeep.Get(r)) {
        levels := levels[r := Critical];
      } else if have < Max(WATCH_STOCK, reserve.Get(r)) {
        levels := levels[r := Watch];
      } else {
        levels := levels[r := Calm];
      }
    }
    assert RESOURCES[0] in levels && RESOURCES[1] in levels && RESOURCES[2] in levels;
    assert levels == UrgencyOf(available, upkeep, reserve);
    urgency := levels;
  }

  predicate AllCalm(u: Urgencies) { Level(u, Water) == Level(u, Food) == Level(u, Components) == Calm }

  /** Nothing urgent means every resource covers the reserve. */
  lemma CalmCovers(available: Bundle, upkeep: Bundle, reserve: Bundle)
    requires AllCalm(UrgencyOf(available, upkeep, reserve))
    ensures available.Dominates(reserve) && available.Dominates(upkeep)
  {
  }

  // ---- the production guard -------------------------------------------------------------------------

  /** How much of an exchange may be paid while our own production must be protected. */
  datatype PaymentLimit = Unlimited | HalfPrice | NoPayment

  predicate InEndGame(ticksLeft: nat) { ticksLeft <= END_GAME_TICKS }

  function SpecialtyFloor(me: Observation, ticksLeft: nat): nat {
    var upkeep := me.upkeep.Get(me.specialty);
    if InEndGame(ticksLeft) then Min(NORMAL_TICKS, ticksLeft + 1) * upkeep else NORMAL_TICKS * upkeep
  }

  function NormalFloor(me: Observation): nat { NORMAL_TICKS * me.upkeep.Get(me.specialty) }

  function PaymentLimitFor(available: Bundle, me: Observation, ticksLeft: nat): PaymentLimit {
    var upkeep := me.upkeep.Get(me.specialty);
    var stock := available.Get(me.specialty);
    if InEndGame(ticksLeft) then (if stock < SpecialtyFloor(me, ticksLeft) then NoPayment else Unlimited)
    else if stock < STOP_TICKS * upkeep then NoPayment
    else if stock < NORMAL_TICKS * upkeep then HalfPrice
    else Unlimited
  }

  // ---- ceilings and caps ------------------------------------------------------------------------------

  function OtherImport(r: Resource, specialty: Resource): (other: Resource)
    requires r != specialty
    ensures other != r && other != specialty
  {
    if Water != r && Water != specialty then Water
    else if Food != r && Food != specialty then Food
    else Components
  }

  function ImportCeiling(r: Resource, available: Bundle, specialty: Resource): Option<nat> {
    if r == specialty then None
    else Some(Max(IMPORT_CEILING_FLOOR, available.Get(OtherImport(r, specialty)) + BALANCE_GAP))
  }

  predicate OverCeiling(r: Resource, available: Bundle, specialty: Resource) {
    var ceiling := ImportCeiling(r, available, specialty);
    ceiling.Some? && available.Get(r) > ceiling.value
  }

  /** Two imports never both run ahead of each other. */
  lemma OneImportAhead(r: Resource, available: Bundle, specialty: Resource)
    requires r != specialty && OverCeiling(r, available, specialty)
    ensures !OverCeiling(OtherImport(r, specialty), available, specialty)
    ensures ScarcestImport(available, specialty) == OtherImport(r, specialty)
  {
  }

  function ScarcestImport(available: Bundle, specialty: Resource): (scarce: Resource)
    ensures scarce != specialty
    ensures forall r :: r != specialty ==> available.Get(scarce) <= available.Get(r)
  {
    match specialty
    case Water => if available.food <= available.components then Food else Components
    case Food => if available.water <= available.components then Water else Components
    case Components => if available.water <= available.food then Water else Food
  }

  function ExcessOverCap(available: Bundle): Bundle {
    available.Monus(Bundle(STOCK_CAP, STOCK_CAP, STOCK_CAP))
  }

  predicate ComfortablySupplied(available: Bundle) {
    available.water > 30 && available.food > 30 && available.components > 30
  }
}
