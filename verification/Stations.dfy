/** One planet's books: production, upkeep, health and permanent failure. */
module Stations {
  import opened Arithmetic
  import opened Domain

  datatype Station = Station(
    specialty: Resource, inventory: Bundle, production: nat, upkeep: Bundle, health: nat,
    failed: bool, firstFailure: Option<nat>, shortageTicks: nat, suppliedTicks: nat,
    streak: nat, longestStreak: nat, lastProduction: Bundle, lastUnmet: Bundle,
    produced: Bundle, consumed: Bundle, unmet: Bundle, imported: Bundle, exported: Bundle)
  {
    function Observe(): Observation {
      Observation(inventory, health, failed, firstFailure, lastProduction, lastUnmet,
                  suppliedTicks, shortageTicks, streak, longestStreak, produced, consumed, unmet,
                  imported, exported, upkeep, specialty)
    }
  }

  /** A station before its first tick. */
  function Founded(specialty: Resource, inventory: Bundle, production: nat, upkeep: Bundle, health: nat): Station {
    var none := Bundle.Zero();
    Station(specialty, inventory, production, upkeep, health, false, None, 0, 0, 0, 0,
            none, none, none, none, none, none, none)
  }

  function Damage(short: Bundle, rules: Rules): nat { short.Total() * rules.shortageDamage }

  /** Production arrives, then upkeep is paid as far as stock allows. */
  function Supplied(s: Station): Station {
    var output := Bundle.Single(s.specialty, s.production);
    var stock := s.inventory.Plus(output);
    var short := s.upkeep.Monus(stock);
    s.(inventory := stock.Monus(s.upkeep), lastProduction := output,
       produced := s.produced.Plus(output), lastUnmet := short,
       consumed := s.consumed.Plus(s.upkeep.Minus(short)), unmet := s.unmet.Plus(short))
  }

  /** The last shortage costs health, perhaps for good; a full tick restores some. */
  function Judged(s: Station, rules: Rules, tick: nat): Station {
    if s.lastUnmet.IsZero() then
      s.(health := Min(rules.maxHealth, s.health + rules.recovery),
         suppliedTicks := s.suppliedTicks + 1, streak := 0)
    else
      var health := Less(s.health, Damage(s.lastUnmet, rules));
      var first := health == 0 && !s.failed;
      s.(health := health, shortageTicks := s.shortageTicks + 1, streak := s.streak + 1,
         longestStreak := Max(s.longestStreak, s.streak + 1), failed := s.failed || first,
         firstFailure := if first then Some(tick) else s.firstFailure)
  }

  function Settled(s: Station, rules: Rules, tick: nat): Station {
    Judged(Supplied(s), rules, tick)
  }

  /** How a station's record relates to its founding stock after `ticks` settlements. */
  ghost predicate Accounts(s: Station, rules: Rules, ticks: nat, stock0: Bundle, health0: nat) {
    && s.suppliedTicks + s.shortageTicks == ticks
    && s.consumed.Plus(s.unmet) == s.upkeep.Scale(ticks)
    && s.inventory.Plus(s.consumed).Plus(s.exported) == stock0.Plus(s.produced).Plus(s.imported)
    && s.health <= rules.maxHealth
    && (s.health == 0 ==> s.failed)
    && (s.failed <==> s.firstFailure.Some?)
    && HealthBounded(s, rules, s.unmet.Total(), health0)
    && (s.firstFailure.Some? ==>
          && s.firstFailure.value <= ticks
          && rules.shortageDamage * s.upkeep.Total() * s.firstFailure.value >= health0)
    && s.streak <= s.longestStreak <= s.shortageTicks
  }

  lemma FoundedAccounts(specialty: Resource, stock: Bundle, production: nat, upkeep: Bundle, health: nat, rules: Rules)
    requires 0 < health <= rules.maxHealth
    ensures Accounts(Founded(specialty, stock, production, upkeep, health), rules, 0, stock, health)
  {
  }

  // ---- one settlement in numbers --------------------------------------------------------------------

  /** How much upkeep of `r` stock and output together leave unpaid. */
  function Missing(s: Station, r: Resource): nat {
    Max(0, s.upkeep.Get(r) - s.inventory.Get(r) - if r == s.specialty then s.production else 0)
  }

  function MissingUnits(s: Station): nat { Missing(s, Water) + Missing(s, Food) + Missing(s, Components) }

  lemma SupplyInNumbers(s: Station)
    ensures var z := Supplied(s);
            && (forall r :: z.lastUnmet.Get(r) == Missing(s, r)) && z.lastUnmet.Total() == MissingUnits(s)
            && (z.lastUnmet.IsZero() <==> MissingUnits(s) == 0)
            && (forall r :: z.inventory.Get(r)
                  == Max(0, s.inventory.Get(r) + (if r == s.specialty then s.production else 0) - s.upkeep.Get(r)))
            && (forall r :: z.unmet.Get(r) == s.unmet.Get(r) + Missing(s, r)
                            && z.consumed.Get(r) == s.consumed.Get(r) + s.upkeep.Get(r) - Missing(s, r)
                            && z.produced.Get(r) == s.produced.Get(r) + if r == s.specialty then s.production else 0)
            && z == s.(inventory := z.inventory, lastProduction := z.lastProduction, produced := z.produced,
                       lastUnmet := z.lastUnmet, consumed := z.consumed, unmet := z.unmet)
  {
  }

  /** Every missing unit costs its damage, a full tick restores, and a station fails exactly
      when its health runs out, at this tick. */
  ghost predicate SettledAs(s: Station, z: Station, rules: Rules, tick: nat) {
    var u := MissingUnits(s);
    && z.health == (if u == 0 then Min(rules.maxHealth, s.health + rules.recovery)
                    else Max(0, s.health - u * rules.shortageDamage))
    && (z.failed <==> s.failed || (u > 0 && z.health == 0))
    && (rules.maxHealth > 0 && (s.health == 0 ==> s.failed) ==> (z.failed <==> s.failed || z.health == 0))
    && z.firstFailure == (if z.failed && !s.failed then Some(tick) else s.firstFailure)
    && (forall r :: z.inventory.Get(r)
          == Max(0, s.inventory.Get(r) + (if r == s.specialty then s.production else 0) - s.upkeep.Get(r)))
    && (forall r :: z.unmet.Get(r) == s.unmet.Get(r) + Missing(s, r))
    && (z.suppliedTicks, z.shortageTicks, z.streak)
         == (if u == 0 then (s.suppliedTicks + 1, s.shortageTicks, 0) else (s.suppliedTicks, s.shortageTicks + 1, s.streak + 1))
    && z.specialty == s.specialty && z.production == s.production && z.upkeep == s.upkeep
    && z.imported == s.imported && z.exported == s.exported
  }

  lemma SettledInNumbers(s: Station, rules: Rules, tick: nat)
    ensures SettledAs(s, Settled(s, rules, tick), rules, tick)
  {
    SupplyInNumbers(s);
    hide Supplied, MissingUnits, Missing;
  }

  // ---- over many settlements --------------------------------------------------------------------------

  /** Damage taken so far is at most what a station that received nothing would take. */
  lemma DamageBound(d: nat, unmet: nat, upkeep: nat, ticks: nat)
    requires unmet <= upkeep * ticks
    ensures d * unmet <= d * upkeep * ticks
  {
    var most := upkeep * ticks;
    Distribute(d, unmet, most - unmet);
    assert d * most == d * upkeep * ticks by { Associate(d, upkeep, ticks); }
  }

  /** Stock leaves and enters a station's books in equal measure. */
  lemma SuppliedBalances(s: Station, ticks: nat, stock0: Bundle)
    requires s.consumed.Plus(s.unmet) == s.upkeep.Scale(ticks)
    requires s.inventory.Plus(s.consumed).Plus(s.exported) == stock0.Plus(s.produced).Plus(s.imported)
    ensures var next := Supplied(s);
            && next.consumed.Plus(next.unmet) == s.upkeep.Scale(ticks + 1)
            && next.inventory.Plus(next.consumed).Plus(next.exported)
                 == stock0.Plus(next.produced).Plus(next.imported)
  {
    assert s.upkeep.Scale(ticks + 1) == s.upkeep.Scale(ticks).Plus(s.upkeep);
  }

  /** Between what was lost and what can have been recovered. */
  ghost predicate HealthBounded(s: Station, rules: Rules, unmet: nat, health0: nat) {
    && s.health + rules.shortageDamage * unmet >= health0
    && (!s.failed ==> s.health + rules.shortageDamage * unmet <= health0 + rules.recovery * s.suppliedTicks)
  }

  lemma RestoredHealth(s: Station, rules: Rules, tick: nat, unmet: nat, health0: nat)
    requires s.health <= rules.maxHealth && s.lastUnmet.IsZero() && HealthBounded(s, rules, unmet, health0)
    ensures HealthBounded(Judged(s, rules, tick), rules, unmet, health0)
  {
    Distribute(rules.recovery, s.suppliedTicks, 1);
    assert rules.recovery * 1 == rules.recovery;
    hide Damage;
  }

  lemma LostHealth(s: Station, rules: Rules, tick: nat, before: nat, health0: nat)
    requires !s.lastUnmet.IsZero() && HealthBounded(s, rules, before, health0)
    ensures HealthBounded(Judged(s, rules, tick), rules, before + s.lastUnmet.Total(), health0)
  {
    Distribute(rules.shortageDamage, before, s.lastUnmet.Total());
    Commute(rules.shortageDamage, s.lastUnmet.Total());
    assert Damage(s.lastUnmet, rules) == rules.shortageDamage * s.lastUnmet.Total();
    hide Damage;
  }

  lemma JudgedHealth(s: Station, rules: Rules, tick: nat, before: nat, health0: nat)
    requires s.health <= rules.maxHealth && 0 < rules.maxHealth
    requires s.unmet.Total() == before + s.lastUnmet.Total()
    requires (s.health == 0 ==> s.failed) && HealthBounded(s, rules, before, health0)
    ensures var next := Judged(s, rules, tick);
            && next.health <= rules.maxHealth
            && (next.health == 0 ==> next.failed)
            && HealthBounded(next, rules, next.unmet.Total(), health0)
  {
    if s.lastUnmet.IsZero() {
      RestoredHealth(s, rules, tick, before, health0);
    } else {
      LostHealth(s, rules, tick, before, health0);
    }
    hide Damage, HealthBounded;
  }

  /** Survival accounting: one settlement keeps every balance, whatever the supply. */
  lemma SettledAccounts(s: Station, rules: Rules, ticks: nat, stock0: Bundle, health0: nat)
    requires Accounts(s, rules, ticks, stock0, health0)
    requires rules.maxHealth > 0
    ensures Accounts(Settled(s, rules, ticks + 1), rules, ticks + 1, stock0, health0)
    ensures s.failed ==> Settled(s, rules, ticks + 1).firstFailure == s.firstFailure
  {
    var middle := Supplied(s);
    var next := Judged(middle, rules, ticks + 1);
    SuppliedBalances(s, ticks, stock0);
    JudgedHealth(middle, rules, ticks + 1, s.unmet.Total(), health0);
    if next.firstFailure != s.firstFailure {
      assert next.unmet.Total() <= next.upkeep.Total() * (ticks + 1) by { ScaleTotal(next.upkeep, ticks + 1); }
      DamageBound(rules.shortageDamage, next.unmet.Total(), next.upkeep.Total(), ticks + 1);
    }
  }

  lemma ScaleTotal(b: Bundle, n: nat)
    ensures b.Scale(n).Total() == b.Total() * n
  {
  }

  class SimStation {
    const specialty: Resource
    const upkeep: Bundle
    var inventory: Bundle
    var production: nat
    var health: nat
    var failedOnce: bool
    var firstFailureTick: Option<nat>
    var shortageTicks: nat
    var fullySuppliedTicks: nat
    var currentStreak: nat
    var longestStreak: nat
    var lastProduction: Bundle
    var lastUnmet: Bundle
    var producedTotal: Bundle
    var consumedTotal: Bundle
    var unmetTotal: Bundle
    var imported: Bundle
    var exported: Bundle

    constructor (specialty: Resource, inventory: Bundle, production: nat, upkeep: Bundle, health: nat)
      ensures View() == Founded(specialty, inventory, production, upkeep, health)
    {
      this.specialty, this.upkeep, this.inventory := specialty, upkeep, inventory;
      this.production, this.health, failedOnce := production, health, false;
      firstFailureTick := None;
      shortageTicks, fullySuppliedTicks, currentStreak, longestStreak := 0, 0, 0, 0;
      lastProduction, lastUnmet := Bundle.Zero(), Bundle.Zero();
      producedTotal, consumedTotal, unmetTotal := Bundle.Zero(), Bundle.Zero(), Bundle.Zero();
      imported, exported := Bundle.Zero(), Bundle.Zero();
    }

    ghost function View(): Station
      reads this
    {
      Station(specialty, inventory, production, upkeep, health, failedOnce, firstFailureTick,
              shortageTicks, fullySuppliedTicks, currentStreak, longestStreak, lastProduction,
              lastUnmet, producedTotal, consumedTotal, unmetTotal, imported, exported)
    }

    method SettleTick(rules: Rules, tick: nat)
      modifies this
      ensures View() == Settled(old(View()), rules, tick)
      ensures SettledAs(old(View()), View(), rules, tick)
    {
      hide SettledAs, Supplied, Judged;
      SettledInNumbers(View(), rules, tick);
      Supply();
      Judge(rules, tick);
    }

    method Supply()
      modifies this
      ensures View() == Supplied(old(View()))
    {
      var output := Bundle.Single(specialty, production);
      inventory := inventory.Plus(output);
      lastProduction := output;
      producedTotal := producedTotal.Plus(output);

      var short := upkeep.Monus(inventory);
      inventory := inventory.Monus(upkeep);
      lastUnmet := short;
      consumedTotal := consumedTotal.Plus(upkeep.Minus(short));
      unmetTotal := unmetTotal.Plus(short);
    }

    method Judge(rules: Rules, tick: nat)
      modifies this
      ensures View() == Judged(old(View()), rules, tick)
    {
      if lastUnmet.IsZero() {
        health := Min(rules.maxHealth, health + rules.recovery);
        fullySuppliedTicks := fullySuppliedTicks + 1;
        currentStreak := 0;
      } else {
        health := Less(health, Damage(lastUnmet, rules));
        shortageTicks := shortageTicks + 1;
        currentStreak := currentStreak + 1;
        longestStreak := Max(longestStreak, currentStreak);
        if health == 0 && !failedOnce {
          failedOnce := true;
          firstFailureTick := Some(tick);
        }
      }
    }

    method Observe() returns (seen: Observation)
      ensures seen == View().Observe()
    {
      seen := Observation(inventory, health, failedOnce, firstFailureTick, lastProduction,
                          lastUnmet, fullySuppliedTicks, shortageTicks, currentStreak,
                          longestStreak, producedTotal, consumedTotal, unmetTotal, imported,
                          exported, upkeep, specialty);
    }
  }
}
