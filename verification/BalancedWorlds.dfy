/** Production schedules that exactly cover what a world consumes. */
module BalancedWorlds {
  import opened Arithmetic
  import opened Domain

  const PHASE_TICKS: nat := 12
  const CYCLE: nat := 36

  /** How many of `planets` planets make the resource with this index. */
  function Producers(planets: nat, kind: nat): nat
    requires kind < 3
  {
    (planets + 2 - kind) / 3
  }

  /** The `rank`-th producer of a resource is planet 3 * rank + kind. */
  function ShareOf(planets: nat, upkeep: nat, kind: nat, rank: nat): nat
    requires kind < 3 && planets >= 3
  {
    Portion(planets * upkeep, Producers(planets, kind), rank)
  }

  /** An even split whose remainder goes to the first takers, one unit each. */
  function Portion(need: nat, takers: nat, rank: nat): nat
    requires takers > 0
  {
    need / takers + if rank < need % takers then 1 else 0
  }

  function BaseOf(planets: nat, upkeep: nat, i: nat): nat
    requires planets >= 3
  {
    ShareOf(planets, upkeep, i % 3, i / 3)
  }

  /** Split each resource's need over its producers, planet by planet. */
  method ComputeBase(planets: nat, upkeep: nat) returns (base: map<nat, nat>)
    requires planets >= 3
    ensures forall i: nat :: i in base <==> i < planets
    ensures forall i :: i in base ==> base[i] == BaseOf(planets, upkeep, i)
  {
    hide BaseOf;
    base := map[];
    for kind := 0 to 3
      invariant forall i: nat :: i in base <==> i < planets && i % 3 < kind
      invariant forall i :: i in base ==> base[i] == BaseOf(planets, upkeep, i)
    {
      var producers := ListProducers(planets, kind);
      var shares := SplitNeed(planets, upkeep, kind, producers);
      base := base + shares;
    }
  }

  lemma ShareAt(planets: nat, upkeep: nat, kind: nat, rank: nat)
    requires planets >= 3 && kind < 3
    ensures BaseOf(planets, upkeep, 3 * rank + kind) == ShareOf(planets, upkeep, kind, rank)
  {
    assert (3 * rank + kind) % 3 == kind && (3 * rank + kind) / 3 == rank;
  }

  /** The planets among the first `rank` producers. */
  predicate Listed(i: nat, kind: nat, rank: nat) { i < 3 * rank && i % 3 == kind }

  lemma ListedNext(kind: nat, rank: nat)
    requires kind < 3
    ensures forall i: nat :: Listed(i, kind, rank + 1) <==> Listed(i, kind, rank) || i == 3 * rank + kind
  {
  }

  lemma ListedAreProducers(planets: nat, kind: nat)
    requires kind < 3
    ensures forall i: nat :: Listed(i, kind, Producers(planets, kind)) <==> i < planets && i % 3 == kind
  {
  }

  method SplitNeed(planets: nat, upkeep: nat, kind: nat, producers: seq<nat>) returns (shares: map<nat, nat>)
    requires planets >= 3 && kind < 3 && |producers| == Producers(planets, kind)
    requires forall rank :: 0 <= rank < |producers| ==> producers[rank] == 3 * rank + kind
    ensures forall i: nat :: i in shares <==> i < planets && i % 3 == kind
    ensures forall i :: i in shares ==> shares[i] == BaseOf(planets, upkeep, i)
  {
    var need := planets * upkeep;
    var share, extra := need / |producers|, need % |producers|;
    shares := map[];
    hide BaseOf, Listed, Producers;
    assert forall i: nat :: !Listed(i, kind, 0) by { NoneListed(kind); }
    for rank := 0 to |producers|
      invariant forall i: nat :: i in shares <==> Listed(i, kind, rank)
      invariant forall i :: i in shares ==> shares[i] == BaseOf(planets, upkeep, i)
    {
      ShareAt(planets, upkeep, kind, rank);
      ListedNext(kind, rank);
      shares := shares[producers[rank] := share + if rank < extra then 1 else 0];
    }
    ListedAreProducers(planets, kind);
  }

  lemma NoneListed(kind: nat)
    ensures forall i: nat :: !Listed(i, kind, 0)
  {
  }

  /** The planets whose index leaves `kind`, in order. */
  method ListProducers(planets: nat, kind: nat) returns (producers: seq<nat>)
    requires kind < 3 && planets >= 3
    ensures |producers| == Producers(planets, kind)
    ensures forall rank :: 0 <= rank < |producers| ==> producers[rank] == 3 * rank + kind
  {
    producers := [];
    for i := 0 to planets
      invariant |producers| == (i + 2 - kind) / 3
      invariant forall rank :: 0 <= rank < |producers| ==> producers[rank] == 3 * rank + kind
    {
      if i % 3 == kind {
        producers := producers + [i];
      }
    }
  }

  /** Truncation toward zero, as a conversion to an integer does. */
  function Truncated(x: real): int { if x >= 0.0 then x.Floor else -((-x).Floor) }

  function Swing(variation: nat, phase: nat): int
    requires phase < 3
  {
    if phase == 0 then 0 - variation as int else if phase == 1 then 0 else variation
  }

  function SwingAt(variation: nat, tick: nat, i: nat): int { Swing(variation, (tick / PHASE_TICKS + i) % 3) }

  /** The surplus due by the start of a tick, before truncation. */
  function SurplusDue(base: nat, tick: nat, surplus: real): real { tick as real * base as real * surplus }

  function Bonus(base: nat, tick: nat, surplus: real): int {
    Truncated(SurplusDue(base, tick + 1, surplus)) - Truncated(SurplusDue(base, tick, surplus))
  }

  /** What planet `i` makes of its specialty in a tick. */
  function Production(base: nat, i: nat, tick: nat, variation: nat, surplus: real): nat {
    Max(0, base + Bonus(base, tick, surplus) + SwingAt(variation, tick, i))
  }

  function PlanetTotal(base: nat, i: nat, start: nat, ticks: nat, variation: nat, surplus: real): nat {
    if ticks == 0 then 0
    else PlanetTotal(base, i, start, ticks - 1, variation, surplus) + Production(base, i, start + ticks - 1, variation, surplus)
  }

  /** What the first `count` producers of a resource make over a stretch of ticks. */
  function WorldTotal(planets: nat, upkeep: nat, kind: nat, count: nat, start: nat, ticks: nat, variation: nat): nat
    requires kind < 3 && planets >= 3
  {
    if count == 0 then 0
    else
      WorldTotal(planets, upkeep, kind, count - 1, start, ticks, variation)
      + PlanetTotal(BaseOf(planets, upkeep, 3 * (count - 1) + kind), 3 * (count - 1) + kind, start, ticks, variation, 0.0)
  }

  // ---- the shares cover the need ------------------------------------------------------------------

  function Shares(planets: nat, upkeep: nat, kind: nat, count: nat): nat
    requires kind < 3 && planets >= 3
  {
    if count == 0 then 0 else Shares(planets, upkeep, kind, count - 1) + ShareOf(planets, upkeep, kind, count - 1)
  }

  lemma {:induction false} SharesSplit(planets: nat, upkeep: nat, kind: nat, count: nat)
    requires kind < 3 && planets >= 3
    ensures var n := Producers(planets, kind);
            Shares(planets, upkeep, kind, count) == count * (planets * upkeep / n) + Min(count, planets * upkeep % n)
  {
    if count > 0 {
      var share := planets * upkeep / Producers(planets, kind);
      SharesSplit(planets, upkeep, kind, count - 1);
      assert count * share == (count - 1) * share + share;
    }
  }

  lemma SharesCover(planets: nat, upkeep: nat, kind: nat)
    requires kind < 3 && planets >= 3
    ensures Shares(planets, upkeep, kind, Producers(planets, kind)) == planets * upkeep
  {
    var n := Producers(planets, kind);
    SharesSplit(planets, upkeep, kind, n);
    Division(planets * upkeep, n);
  }

  /** Every producer makes at least twice the upkeep before any swing. */
  lemma ShareCoversSwing(planets: nat, upkeep: nat, kind: nat, rank: nat)
    requires kind < 3 && planets >= 3
    ensures ShareOf(planets, upkeep, kind, rank) >= 2 * upkeep
  {
    var n := Producers(planets, kind);
    assert planets >= 2 * n;
    Product(planets, 2 * n, upkeep);
    assert planets * upkeep >= n * (2 * upkeep) by { assert 2 * n * upkeep == n * (2 * upkeep); }
    Quotient(planets * upkeep, n, 2 * upkeep);
  }

  // ---- the swings cancel ----------------------------------------------------------------------------

  function Swings(variation: nat, i: nat, start: nat, ticks: nat): int {
    if ticks == 0 then 0 else Swings(variation, i, start, ticks - 1) + SwingAt(variation, start + ticks - 1, i)
  }

  lemma {:induction false} SwingsFromFront(variation: nat, i: nat, start: nat, ticks: nat)
    ensures Swings(variation, i, start, ticks + 1) == SwingAt(variation, start, i) + Swings(variation, i, start + 1, ticks)
  {
    if ticks > 0 { SwingsFromFront(variation, i, start, ticks - 1); }
  }

  lemma SwingRepeats(variation: nat, i: nat, tick: nat)
    ensures SwingAt(variation, tick + CYCLE, i) == SwingAt(variation, tick, i)
  {
    assert (tick + CYCLE) / PHASE_TICKS == tick / PHASE_TICKS + 3;
  }

  lemma {:induction false} PhaseSwings(variation: nat, i: nat, phase: nat, ticks: nat)
    requires ticks <= PHASE_TICKS
    ensures Swings(variation, i, phase * PHASE_TICKS, ticks) == ticks * Swing(variation, (phase + i) % 3)
  {
    if ticks > 0 {
      PhaseSwings(variation, i, phase, ticks - 1);
      var t := phase * PHASE_TICKS + ticks - 1;
      assert t / PHASE_TICKS == phase;
      var x := Swing(variation, (phase + i) % 3);
      assert ticks * x == (ticks - 1) * x + x;
    }
  }

  lemma {:induction false} SwingsJoin(variation: nat, i: nat, start: nat, first: nat, second: nat)
    ensures Swings(variation, i, start, first + second) == Swings(variation, i, start, first) + Swings(variation, i, start + first, second)
  {
    if second > 0 {
      SwingsJoin(variation, i, start, first, second - 1);
      assert start + first + second - 1 == start + (first + second) - 1;
    }
  }

  lemma PhasesCancel(variation: nat, i: nat)
    ensures Swing(variation, i % 3) + Swing(variation, (1 + i) % 3) + Swing(variation, (2 + i) % 3) == 0
  {
  }

  lemma FirstCycle(variation: nat, i: nat)
    ensures Swings(variation, i, 0, CYCLE) == 0
  {
    SwingsJoin(variation, i, 0, 12, 24);
    SwingsJoin(variation, i, 12, 12, 12);
    PhaseSwings(variation, i, 0, 12);
    PhaseSwings(variation, i, 1, 12);
    PhaseSwings(variation, i, 2, 12);
    PhasesCancel(variation, i);
    hide Swing, Swings;
  }

  lemma {:induction false} SwingsCancel(variation: nat, i: nat, start: nat)
    ensures Swings(variation, i, start, CYCLE) == 0
  {
    hide SwingAt;
    if start == 0 {
      FirstCycle(variation, i);
    } else {
      SwingsCancel(variation, i, start - 1);
      SwingsFromFront(variation, i, start - 1, CYCLE - 1);
      SwingRepeats(variation, i, start - 1);
      assert Swings(variation, i, start, CYCLE) == Swings(variation, i, start, CYCLE - 1) + SwingAt(variation, start + CYCLE - 1, i);
    }
  }

  // ---- main results -----------------------------------------------------------------------------------

  lemma NoBonus(base: nat, tick: nat)
    ensures Bonus(base, tick, 0.0) == 0
  {
  }

  lemma {:induction false} PlanetSwings(base: nat, i: nat, start: nat, ticks: nat, variation: nat)
    requires base >= variation
    ensures PlanetTotal(base, i, start, ticks, variation, 0.0) == ticks * base + Swings(variation, i, start, ticks)
  {
    if ticks > 0 {
      PlanetSwings(base, i, start, ticks - 1, variation);
      NoBonus(base, start + ticks - 1);
      assert ticks * base == (ticks - 1) * base + base;
    }
  }

  /** A full cycle of one producer is its share, swing or no swing. */
  lemma ProducerTotal(planets: nat, upkeep: nat, variation: nat, kind: nat, rank: nat, start: nat)
    requires planets >= 3 && kind < 3 && variation <= 2 * upkeep
    ensures BaseOf(planets, upkeep, 3 * rank + kind) == ShareOf(planets, upkeep, kind, rank)
    ensures PlanetTotal(ShareOf(planets, upkeep, kind, rank), 3 * rank + kind, start, CYCLE, variation, 0.0)
         == CYCLE * ShareOf(planets, upkeep, kind, rank)
  {
    var i := 3 * rank + kind;
    assert i % 3 == kind && i / 3 == rank;
    ShareCoversSwing(planets, upkeep, kind, rank);
    hide ShareOf, PlanetTotal, Swings;
    PlanetSwings(ShareOf(planets, upkeep, kind, rank), i, start, CYCLE, variation);
    SwingsCancel(variation, i, start);
  }

  lemma {:induction false} CountedTotal(planets: nat, upkeep: nat, variation: nat, kind: nat, count: nat, start: nat)
    requires planets >= 3 && kind < 3 && variation <= 2 * upkeep
    ensures WorldTotal(planets, upkeep, kind, count, start, CYCLE, variation) == CYCLE * Shares(planets, upkeep, kind, count)
  {
    hide ShareOf, BaseOf, PlanetTotal;
    if count > 0 {
      CountedTotal(planets, upkeep, variation, kind, count - 1, start);
      ProducerTotal(planets, upkeep, variation, kind, count - 1, start);
      Distribute(CYCLE, Shares(planets, upkeep, kind, count - 1), ShareOf(planets, upkeep, kind, count - 1));
    }
  }

  /** Over any 36 consecutive ticks the producers of a resource make exactly what the world
      consumes of it, whatever the number of planets and however the split leaves remainders. */
  lemma WorldIsBalanced(planets: nat, upkeep: nat, variation: nat, kind: nat, start: nat)
    requires planets >= 3 && kind < 3 && variation <= 2 * upkeep
    ensures WorldTotal(planets, upkeep, kind, Producers(planets, kind), start, CYCLE, variation) == CYCLE * (planets * upkeep)
  {
    CountedTotal(planets, upkeep, variation, kind, Producers(planets, kind), start);
    SharesCover(planets, upkeep, kind);
  }

  lemma DueGrows(base: nat, tick: nat, surplus: real)
    requires surplus >= 0.0
    ensures 0.0 <= SurplusDue(base, tick, surplus) <= SurplusDue(base, tick + 1, surplus) && SurplusDue(base, 0, surplus) == 0.0
  {
    var t, b := tick as real, base as real;
    NotNegative(t, b);
    NotNegative(t * b, surplus);
    NotNegative(b, surplus);
    assert (t + 1.0) * b == t * b + b;
    assert (t * b + b) * surplus == t * b * surplus + b * surplus;
  }

  lemma BonusIsDue(base: nat, i: nat, tick: nat, surplus: real)
    requires surplus >= 0.0
    ensures Production(base, i, tick, 0, surplus) == base + SurplusDue(base, tick + 1, surplus).Floor - SurplusDue(base, tick, surplus).Floor
  {
    DueGrows(base, tick, surplus);
    DueGrows(base, tick + 1, surplus);
    hide SurplusDue;
    assert SwingAt(0, tick, i) == 0;
  }

  /** Fractions are carried, never lost: the first ticks total the base rate plus the whole
      part of the surplus due so far. */
  lemma {:induction false} SurplusTelescopes(base: nat, i: nat, ticks: nat, surplus: real)
    requires surplus >= 0.0
    ensures PlanetTotal(base, i, 0, ticks, 0, surplus) == ticks * base + SurplusDue(base, ticks, surplus).Floor
  {
    if ticks == 0 {
      DueGrows(base, 0, surplus);
    } else {
      hide SurplusDue, Production;
      SurplusTelescopes(base, i, ticks - 1, surplus);
      BonusIsDue(base, i, ticks - 1, surplus);
      assert ticks * base == (ticks - 1) * base + base;
    }
  }
}
