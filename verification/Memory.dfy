/** What the policy carries between decisions: rolling estimates and the gift log. */
module Memory {
  import opened Domain
  import opened Counterparties

  const SAMPLES: nat := 8
  const NEVER: int := 1000000

  /** A bounded queue drops its oldest sample. */
  function Push(xs: seq<nat>, x: nat): (r: seq<nat>) {
    var ys := xs + [x];
    if |ys| > SAMPLES then ys[|ys| - SAMPLES..] else ys
  }

  datatype Notes = Notes(
    model: Model, roundTrips: seq<nat>, productions: seq<nat>, blockedUntil: int,
    gifts: map<(StationId, Resource), int>, stored: Bundle, measured: set<ObjectId>, lastTick: int)
  {
    function TicksSinceGift(p: StationId, r: Resource, tick: int): int {
      if (p, r) in gifts then tick - gifts[(p, r)] else NEVER
    }
  }

  // ---- how long our own offers take to settle --------------------------------------------------

  /** Of two offers with one id the later listed wins. */
  function CreatedAt(offers: seq<Offer>, id: ObjectId): Option<nat> {
    if offers == [] then None
    else if offers[|offers| - 1].id == id then Some(offers[|offers| - 1].createdTick)
    else CreatedAt(offers[..|offers| - 1], id)
  }

  predicate Measurable(s: Snapshot, t: Transaction) {
    t.proposer == s.self && CreatedAt(s.offers, t.offer).Some?
  }

  function Measured(n: Notes, s: Snapshot, t: Transaction): Notes {
    if !Measurable(s, t) || t.id in n.measured then n
    else
      n.(measured := n.measured + {t.id},
         roundTrips := Push(n.roundTrips, Max(0, t.settledTick - CreatedAt(s.offers, t.offer).value)))
  }

  function WithRoundTrips(n: Notes, s: Snapshot, deals: seq<Transaction>): Notes {
    if deals == [] then n
    else Measured(WithRoundTrips(n, s, deals[..|deals| - 1]), s, deals[|deals| - 1])
  }

  // ---- what our own production did --------------------------------------------------------------

  function WithProduction(n: Notes, s: Snapshot): Notes {
    if s.tick == n.lastTick || s.tick == 0 then n
    else n.(lastTick := s.tick, productions := Push(n.productions, s.me.lastProduction.Get(s.me.specialty)))
  }

  function Observed(n: Notes, s: Snapshot): Notes {
    var updated := n.(model := Updated(n.model, s));
    WithProduction(WithRoundTrips(updated, s, s.transactions), s)
  }

  // ---- what is sampled -------------------------------------------------------------------------------

  function LastEight(xs: seq<nat>): seq<nat> { if |xs| <= 8 then xs else xs[|xs| - 8..] }

  /** The offer of that id listed last. */
  ghost predicate ListedLast(offers: seq<Offer>, id: ObjectId, o: Offer) {
    exists k :: 0 <= k < |offers| && offers[k] == o && o.id == id && forall j :: k < j < |offers| ==> offers[j].id != id
  }

  lemma {:induction false} CreatedInNumbers(offers: seq<Offer>, id: ObjectId) returns (k: int)
    ensures -1 <= k < |offers| && forall j :: k < j < |offers| ==> offers[j].id != id
    ensures k == -1 ==> CreatedAt(offers, id) == None
    ensures k >= 0 ==> offers[k].id == id && CreatedAt(offers, id) == Some(offers[k].createdTick)
  {
    if offers == [] {
      k := -1;
    } else if offers[|offers| - 1].id == id {
      k := |offers| - 1;
    } else {
      k := CreatedInNumbers(offers[..|offers| - 1], id);
    }
  }

  /** A trade of ours is measured once, if its offer is still listed: the ticks from posting to
      settling join the last eight samples. */
  lemma TripInNumbers(n: Notes, s: Snapshot, t: Transaction)
    ensures var m := Measured(n, s, t);
            if t.proposer != s.self || t.id in n.measured || (forall o :: o in s.offers ==> o.id != t.offer) then m == n
            else exists o :: ListedLast(s.offers, t.offer, o)
                   && m == n.(measured := n.measured + {t.id}, roundTrips := LastEight(n.roundTrips + [Max(0, t.settledTick - o.createdTick)]))
  {
    var k := CreatedInNumbers(s.offers, t.offer);
    hide CreatedAt;
    if k >= 0 { assert ListedLast(s.offers, t.offer, s.offers[k]); }
    hide ListedLast;
  }

  /** Our output joins the last eight samples once a tick, from the first. */
  lemma OutputInNumbers(n: Notes, s: Snapshot)
    ensures var m := WithProduction(n, s);
            if s.tick == 0 || s.tick == n.lastTick then m == n
            else m == n.(lastTick := s.tick, productions := LastEight(n.productions + [s.me.lastProduction.Get(s.me.specialty)]))
  {
  }

  // ---- repeating a snapshot changes nothing --------------------------------------------------------

  lemma {:induction false} RoundTripsMeasure(n: Notes, s: Snapshot, deals: seq<Transaction>)
    ensures var m := WithRoundTrips(n, s, deals);
            && m == n.(measured := m.measured, roundTrips := m.roundTrips)
            && (forall t :: t in deals && Measurable(s, t) ==> t.id in m.measured)
  {
    if deals != [] {
      assert deals == deals[..|deals| - 1] + [deals[|deals| - 1]];
      RoundTripsMeasure(n, s, deals[..|deals| - 1]);
    }
  }

  lemma {:induction false} NothingToMeasure(n: Notes, s: Snapshot, deals: seq<Transaction>)
    requires forall t :: t in deals && Measurable(s, t) ==> t.id in n.measured
    ensures WithRoundTrips(n, s, deals) == n
  {
    if deals != [] {
      assert deals == deals[..|deals| - 1] + [deals[|deals| - 1]];
      NothingToMeasure(n, s, deals[..|deals| - 1]);
    }
  }

  lemma ObserveIsIdempotent(n: Notes, s: Snapshot)
    ensures Observed(Observed(n, s), s) == Observed(n, s)
  {
    var m := Observed(n, s);
    UpdateIsIdempotent(n.model, s);
    RoundTripsMeasure(n.(model := Updated(n.model, s)), s, s.transactions);
    NothingToMeasure(m.(model := Updated(m.model, s)), s, s.transactions);
  }

  /** Observing one snapshot `times` times in a row. */
  function ObservedTimes(n: Notes, s: Snapshot, times: nat): Notes {
    if times == 0 then n else Observed(ObservedTimes(n, s, times - 1), s)
  }

  lemma {:induction false} StutterInvariance(n: Notes, s: Snapshot, times: nat)
    requires times > 0
    ensures ObservedTimes(n, s, times) == Observed(n, s)
  {
    if times > 1 {
      StutterInvariance(n, s, times - 1);
      ObserveIsIdempotent(n, s);
    }
  }

  // ---- the median round trip -------------------------------------------------------------------------

  predicate Sorted(xs: seq<nat>) { forall i :: 0 < i < |xs| ==> xs[i - 1] <= xs[i] }

  function Inserted(x: nat, xs: seq<nat>): (r: seq<nat>)
    requires Sorted(xs)
    ensures Sorted(r) && multiset(r) == multiset(xs) + multiset{x}
    ensures r != [] && (r[0] == x || (xs != [] && r[0] == xs[0]))
  {
    if xs == [] || x <= xs[0] then [x] + xs
    else
      var rest := Inserted(x, xs[1..]);
      assert xs == [xs[0]] + xs[1..];
      [xs[0]] + rest
  }

  function InOrder(xs: seq<nat>): (r: seq<nat>)
    ensures Sorted(r) && multiset(r) == multiset(xs) && |r| == |xs|
  {
    if xs == [] then []
    else
      assert xs == [xs[0]] + xs[1..];
      Inserted(xs[0], InOrder(xs[1..]))
  }

  /** Half of a sum, rounding halves to even. */
  function HalfToEven(total: nat): nat {
    if total % 2 == 0 || (total / 2) % 2 == 0 then total / 2 else total / 2 + 1
  }

  function MedianRoundTrip(n: Notes): (m: Option<nat>)
    ensures m.None? <==> |n.roundTrips| < 3
  {
    if |n.roundTrips| < 3 then None
    else
      var xs := InOrder(n.roundTrips);
      var k := |xs| / 2;
      Some(if |xs| % 2 == 1 then xs[k] else HalfToEven(xs[k - 1] + xs[k]))
  }

  /** The median lies between samples actually measured. */
  lemma MedianWithinSamples(n: Notes)
    requires MedianRoundTrip(n).Some?
    ensures exists low, high :: low in n.roundTrips && high in n.roundTrips && low <= MedianRoundTrip(n).value <= high
  {
    var xs := InOrder(n.roundTrips);
    var k := |xs| / 2;
    var low := if |xs| % 2 == 1 then xs[k] else xs[k - 1];
    assert low in multiset(xs) && xs[k] in multiset(xs);
    assert low in n.roundTrips && xs[k] in n.roundTrips;
  }

  /** How many samples are at most `v`. */
  function AtMost(xs: seq<nat>, v: nat): (k: nat)
    ensures k <= |xs|
  {
    if xs == [] then 0 else (if xs[0] <= v then 1 else 0) + AtMost(xs[1..], v)
  }

  lemma {:induction false} InsertedCounts(x: nat, xs: seq<nat>, v: nat)
    requires Sorted(xs)
    ensures AtMost(Inserted(x, xs), v) == AtMost(xs, v) + if x <= v then 1 else 0
  {
    if xs == [] || x <= xs[0] {
      assert ([x] + xs)[1..] == xs;
    } else {
      InsertedCounts(x, xs[1..], v);
      assert ([xs[0]] + Inserted(x, xs[1..]))[1..] == Inserted(x, xs[1..]);
    }
  }

  lemma {:induction false} InOrderCounts(xs: seq<nat>, v: nat)
    ensures AtMost(InOrder(xs), v) == AtMost(xs, v)
  {
    if xs != [] {
      InOrderCounts(xs[1..], v);
      InsertedCounts(xs[0], InOrder(xs[1..]), v);
    }
  }

  lemma {:induction false} SortedRises(xs: seq<nat>, i: nat, j: nat)
    requires Sorted(xs) && i <= j < |xs|
    ensures xs[i] <= xs[j]
  {
    if i < j { SortedRises(xs, i, j - 1); }
  }

  lemma {:induction false} CountInOrder(xs: seq<nat>, k: nat, v: nat)
    requires Sorted(xs) && k <= |xs| && (k > 0 ==> xs[k - 1] <= v)
    ensures AtMost(xs, v) >= k
  {
    if k > 0 {
      SortedRises(xs, 0, k - 1);
      CountInOrder(xs[1..], k - 1, v);
    }
  }

  lemma {:induction false} CountAbove(xs: seq<nat>, k: nat, v: nat)
    requires Sorted(xs) && k < |xs| && v < xs[k]
    ensures AtMost(xs, v) <= k
  {
    if k > 0 {
      CountAbove(xs[1..], k - 1, v);
    } else {
      NoneBelow(xs, v);
    }
  }

  lemma {:induction false} NoneBelow(xs: seq<nat>, v: nat)
    requires Sorted(xs) && (xs != [] ==> v < xs[0])
    ensures AtMost(xs, v) == 0
  {
    if xs != [] { NoneBelow(xs[1..], v); }
  }

  /** At least half of the measured round trips are no longer than the median, and for any smaller
      value at most half are. */
  lemma MedianIsMiddle(n: Notes, v: nat)
    requires MedianRoundTrip(n).Some?
    ensures var m, all := MedianRoundTrip(n).value, n.roundTrips;
            && 2 * AtMost(all, m) >= |all|
            && (v < m ==> 2 * AtMost(all, v) <= |all|)
  {
    var all := n.roundTrips;
    var xs, m, k := InOrder(all), MedianRoundTrip(n).value, |all| / 2;
    InOrderCounts(all, m);
    InOrderCounts(all, v);
    if |xs| % 2 == 1 {
      CountInOrder(xs, k + 1, m);
      if v < m { CountAbove(xs, k, v); }
    } else {
      SortedRises(xs, k - 1, k);
      CountInOrder(xs, k, m);
      if v < m { CountAbove(xs, k, v); }
    }
  }

  function LowestOf(xs: seq<nat>): (least: nat)
    requires xs != []
    ensures least in xs && forall x :: x in xs ==> least <= x
  {
    if |xs| == 1 then xs[0]
    else
      assert xs == [xs[0]] + xs[1..];
      Min(xs[0], LowestOf(xs[1..]))
  }

  function LowestProduction(n: Notes): Option<nat> {
    if n.productions == [] then None else Some(LowestOf(n.productions))
  }

  // ---- the mutable memory --------------------------------------------------------------------------------

  class PolicyMemory {
    const counterparties: CounterpartyModel
    var roundTrips: seq<nat>
    var productions: seq<nat>
    var blockedUntil: int
    var gifts: map<(StationId, Resource), int>
    var stored: Bundle
    var measured: set<ObjectId>
    var lastTick: int

    constructor ()
      ensures fresh(counterparties)
      ensures View() == Notes(Model(map[], {}), [], [], 0, map[], Bundle.Zero(), {}, -1)
    {
      counterparties := new CounterpartyModel();
      roundTrips, productions, measured := [], [], {};
      blockedUntil, lastTick := 0, -1;
      gifts := map[];
      stored := Bundle.Zero();
    }

    function View(): Notes
      reads this, counterparties
    {
      Notes(counterparties.View(), roundTrips, productions, blockedUntil, gifts, stored, measured, lastTick)
    }

    method Observe(s: Snapshot)
      modifies this, counterparties
      ensures View() == Observed(old(View()), s)
    {
      counterparties.Update(s);
      MeasureRoundTrips(s);
      MeasureProduction(s);
    }

    method MeasureRoundTrips(s: Snapshot)
      modifies this
      ensures View() == WithRoundTrips(old(View()), s, s.transactions)
    {
      for i := 0 to |s.transactions|
        invariant View() == WithRoundTrips(old(View()), s, s.transactions[..i])
      {
        assert s.transactions[..i + 1][..i] == s.transactions[..i];
        var t := s.transactions[i];
        if t.proposer == s.self && t.id !in measured {
          var created := CreatedAt(s.offers, t.offer);
          if created.Some? {
            measured := measured + {t.id};
            roundTrips := Push(roundTrips, Max(0, t.settledTick - created.value));
          }
        }
      }
      assert s.transactions[..|s.transactions|] == s.transactions;
    }

    method MeasureProduction(s: Snapshot)
      modifies this
      ensures View() == WithProduction(old(View()), s)
    {
      if s.tick != lastTick && s.tick != 0 {
        lastTick := s.tick;
        productions := Push(productions, s.me.lastProduction.Get(s.me.specialty));
      }
    }

    method RecordGift(p: StationId, r: Resource, tick: int)
      modifies this`gifts
      ensures gifts == old(gifts)[(p, r) := tick]
    {
      gifts := gifts[(p, r) := tick];
    }

    method BlockUntil(tick: Option<int>)
      modifies this`blockedUntil
      ensures blockedUntil == if tick.Some? then Max(old(blockedUntil), tick.value) else old(blockedUntil)
    {
      if tick.Some? {
        blockedUntil := Max(blockedUntil, tick.value);
      }
    }
  }
}
