/** Whether to settle an offer addressed to us. */
module Acceptance {
  import opened Arithmetic
  import opened Domain
  import opened Reserves
  import opened Pricing

  /** Need weights, in tenths. */
  function Weight(level: Urgency): nat { match level case Critical => 30 case Watch => 13 case Calm => 10 }

  function WeightedValue(b: Bundle, u: Urgencies): nat {
    b.water * Weight(Level(u, Water)) + b.food * Weight(Level(u, Food)) + b.components * Weight(Level(u, Components))
  }

  /** What an import is worth in units of our production. */
  function ImportPrice(r: Resource, available: Bundle, u: Urgencies, endGame: bool): real {
    var premium := PremiumFor(Level(u, r), Some(available.Get(r)));
    if endGame && premium < END_GAME_RATIO as real then END_GAME_RATIO as real else premium
  }

  function ImportValue(gain: Bundle, r: Resource, specialty: Resource, available: Bundle, u: Urgencies, endGame: bool): real {
    if r == specialty then 0.0 else gain.Get(r) as real * ImportPrice(r, available, u, endGame)
  }

  function ImportsValue(gain: Bundle, specialty: Resource, available: Bundle, u: Urgencies, endGame: bool): real {
    ImportValue(gain, Water, specialty, available, u, endGame)
    + ImportValue(gain, Food, specialty, available, u, endGame)
    + ImportValue(gain, Components, specialty, available, u, endGame)
  }

  predicate PaysWithSpecialty(cost: Bundle, specialty: Resource) { cost.Total() == cost.Get(specialty) }

  /** Any resource would fall below both what we hold and what we protect. */
  predicate SpendsReserve(available: Bundle, remaining: Bundle, reserve: Bundle) {
    exists r :: remaining.Get(r) < Min(available.Get(r), reserve.Get(r))
  }

  predicate ImportsOnlyExcess(gain: Bundle, available: Bundle, specialty: Resource) {
    && (exists r :: r != specialty && gain.Get(r) > 0)
    && (forall r :: r != specialty && gain.Get(r) > 0 ==> OverCeiling(r, available, specialty))
  }

  predicate FillsNeed(gain: Bundle, u: Urgencies) {
    exists r :: gain.Get(r) > 0 && Level(u, r) != Calm
  }

  /** The branch for trades under the production guard. */
  predicate WithinGuard(cost: Bundle, gain: Bundle, available: Bundle, reserve: Bundle, limit: PaymentLimit) {
    && limit == HalfPrice && 2 * cost.Total() <= gain.Total()
    && forall r :: cost.Get(r) > 0 ==> available.Monus(cost).Plus(gain).Get(r) >= reserve.Get(r)
  }

  /** The branch that turns production into imports. */
  predicate ConvertsProduction(
    cost: Bundle, gain: Bundle, available: Bundle, reserve: Bundle, u: Urgencies, specialty: Resource, endGame: bool)
  {
    var value := ImportsValue(gain, specialty, available, u, endGame);
    var net := Max(0, cost.Get(specialty) - gain.Get(specialty));
    && available.Get(specialty) - net >= reserve.Get(specialty)
    && value >= net as real && value > 0.0
  }

  /** The branch for everything else: fills a need at four fifths, or is favourable outright. */
  predicate FavourableSwap(cost: Bundle, gain: Bundle, available: Bundle, reserve: Bundle, u: Urgencies) {
    var remaining := available.Monus(cost).Plus(gain);
    var breaches := exists r :: remaining.Get(r) < reserve.Get(r) < available.Get(r);
    var costValue, gainValue := WeightedValue(cost, u), WeightedValue(gain, u);
    && !(breaches && !FillsNeed(gain, u))
    && ((FillsNeed(gain, u) && 10 * gainValue >= 8 * costValue) || gainValue >= costValue)
  }

  predicate WorthTaking(
    cost: Bundle, gain: Bundle, available: Bundle, reserve: Bundle, u: Urgencies, specialty: Resource,
    limit: PaymentLimit, endGame: bool)
  {
    if ComfortablySupplied(available)
       && (gain.Get(specialty) > 0
           || (gain.Total() <= cost.Total() && !(endGame && PaysWithSpecialty(cost, specialty)))) then false
    else if cost.IsZero() then true
    else if ImportsOnlyExcess(gain, available, specialty) then false
    else if !available.Dominates(cost) then false
    else if SpendsReserve(available, available.Monus(cost).Plus(gain), reserve) then false
    else if limit != Unlimited then WithinGuard(cost, gain, available, reserve, limit)
    else if PaysWithSpecialty(cost, specialty) then
      ConvertsProduction(cost, gain, available, reserve, u, specialty, endGame)
    else FavourableSwap(cost, gain, available, reserve, u)
  }

  // ---- what acceptance promises ------------------------------------------------------------------

  /** Whatever branch accepts: we can pay, no resource falls below the smaller of the
      reserve and what we held, and a guarded trade costs at most half of what it brings. */
  lemma AcceptingIsSafe(
    cost: Bundle, gain: Bundle, available: Bundle, reserve: Bundle, u: Urgencies, specialty: Resource,
    limit: PaymentLimit, endGame: bool)
    requires WorthTaking(cost, gain, available, reserve, u, specialty, limit, endGame)
    ensures available.Dominates(cost)
    ensures forall r :: available.Minus(cost).Plus(gain).Get(r) >= Min(available.Get(r), reserve.Get(r))
    ensures !cost.IsZero() ==> limit != NoPayment && (limit == HalfPrice ==> 2 * cost.Total() <= gain.Total())
    ensures ComfortablySupplied(available) ==>
              gain.Get(specialty) == 0 && (gain.Total() > cost.Total() || (endGame && PaysWithSpecialty(cost, specialty)))
  {
  }

  lemma PriceAtMostEight(r: Resource, available: Bundle, u: Urgencies, endGame: bool)
    ensures 1.0 <= ImportPrice(r, available, u, endGame) <= MAX_PREMIUM as real
  {
    PremiumAtLeastOne(Level(u, r), Some(available.Get(r)));
  }

  lemma ImportValueBound(gain: Bundle, r: Resource, specialty: Resource, available: Bundle, u: Urgencies, endGame: bool)
    ensures 0.0 <= ImportValue(gain, r, specialty, available, u, endGame)
    ensures r != specialty ==> ImportValue(gain, r, specialty, available, u, endGame) <= (MAX_PREMIUM * gain.Get(r)) as real
  {
    PriceAtMostEight(r, available, u, endGame);
    hide ImportPrice;
    Worth(gain.Get(r), ImportPrice(r, available, u, endGame));
  }

  lemma ImportsValueBound(gain: Bundle, specialty: Resource, available: Bundle, u: Urgencies, endGame: bool)
    ensures ImportsValue(gain, specialty, available, u, endGame)
         <= (MAX_PREMIUM * (gain.Total() - gain.Get(specialty))) as real
  {
    ImportValueBound(gain, Water, specialty, available, u, endGame);
    ImportValueBound(gain, Food, specialty, available, u, endGame);
    ImportValueBound(gain, Components, specialty, available, u, endGame);
  }

  lemma WeightsBound(b: Bundle, u: Urgencies)
    ensures 10 * b.Total() <= WeightedValue(b, u) <= 30 * b.Total()
  {
    var x, y, z := Weight(Level(u, Water)), Weight(Level(u, Food)), Weight(Level(u, Components));
    WeightBound(b.water, x);
    WeightBound(b.food, y);
    WeightBound(b.components, z);
  }

  lemma WeightBound(n: nat, w: nat)
    requires 10 <= w <= 30
    ensures 10 * n <= n * w <= 30 * n
  {
  }

  lemma PaidIsPositive(b: Bundle)
    ensures b.IsZero() <==> b.Total() == 0
  {
  }

  /** No accepted trade is paid for nothing, or at more than eight for one. */
  lemma AcceptedPriceIsBounded(
    cost: Bundle, gain: Bundle, available: Bundle, reserve: Bundle, u: Urgencies, specialty: Resource,
    limit: PaymentLimit, endGame: bool)
    requires WorthTaking(cost, gain, available, reserve, u, specialty, limit, endGame) && !cost.IsZero()
    ensures gain.Total() > 0 && cost.Total() <= MAX_PREMIUM * gain.Total()
  {
    PaidIsPositive(cost);
    if limit == Unlimited {
      if PaysWithSpecialty(cost, specialty) {
        ImportsValueBound(gain, specialty, available, u, endGame);
        hide ImportsValue;
      } else {
        WeightsBound(cost, u);
        WeightsBound(gain, u);
        hide WeightedValue;
      }
    }
  }

  // ---- exactly which offers are taken -------------------------------------------------------------

  /** A gift is taken, unless we are above thirty of everything and it brings our own production,
      or, before the end game, nothing. */
  lemma GiftInNumbers(gain: Bundle, available: Bundle, reserve: Bundle, u: Urgencies, specialty: Resource, limit: PaymentLimit, endGame: bool)
    ensures WorthTaking(Bundle.Zero(), gain, available, reserve, u, specialty, limit, endGame)
       <==> !(available.water > 30 && available.food > 30 && available.components > 30
              && (gain.Get(specialty) > 0 || (gain.water == 0 && gain.food == 0 && gain.components == 0 && !endGame)))
  {
  }

  /** What a unit is worth to us, in tenths: more below twenty units, most below ten. */
  function NeedOf(have: nat, upkeep: nat, reserve: nat): nat {
    if have < 10 || have < upkeep then 30 else if have < 20 || have < reserve then 13 else 10
  }

  lemma NeedIsWeight(available: Bundle, upkeep: Bundle, reserve: Bundle, r: Resource)
    ensures Weight(Level(UrgencyOf(available, upkeep, reserve), r)) == NeedOf(available.Get(r), upkeep.Get(r), reserve.Get(r))
    ensures Level(UrgencyOf(available, upkeep, reserve), r) == Calm <==> NeedOf(available.Get(r), upkeep.Get(r), reserve.Get(r)) == 10
  {
  }

  /** `give` units of one resource for `get` of another. */
  datatype Deal = Deal(pay: Resource, give: nat, want: Resource, get: nat)

  /** What a unit of an import is worth in units of our own: its fair price, and two at the end. */
  function UnitPrice(stock: nat, endGame: bool): real {
    if endGame && FairPrice(stock) < 2.0 then 2.0 else FairPrice(stock)
  }

  function ValueAt(n: nat, price: real): real { n as real * price }

  /** The price rule of the branch a deal falls under. */
  predicate PricedWell(
    d: Deal, available: Bundle, upkeep: Bundle, reserve: Bundle, specialty: Resource, limit: PaymentLimit, endGame: bool)
  {
    match limit
    case NoPayment => false
    case HalfPrice => 2 * d.give <= d.get
    case Unlimited =>
      if d.pay == specialty then
        ValueAt(d.get, UnitPrice(available.Get(d.want), endGame)) >= d.give as real
      else
        var ours := NeedOf(available.Get(d.pay), upkeep.Get(d.pay), reserve.Get(d.pay));
        var theirs := NeedOf(available.Get(d.want), upkeep.Get(d.want), reserve.Get(d.want));
        if theirs > 10 then 10 * (d.get * theirs) >= 8 * (d.give * ours) else d.get * theirs >= d.give * ours
  }

  predicate GoodDeal(
    d: Deal, available: Bundle, upkeep: Bundle, reserve: Bundle, specialty: Resource, limit: PaymentLimit, endGame: bool)
  {
    && available.Get(d.pay) >= d.give + reserve.Get(d.pay)
    && (d.want != specialty ==> available.Get(d.want) <= Max(40, available.Get(OtherImport(d.want, specialty)) + 10))
    && (available.water > 30 && available.food > 30 && available.components > 30 ==>
          d.want != specialty && (d.get > d.give || (endGame && d.pay == specialty)))
    && PricedWell(d, available, upkeep, reserve, specialty, limit, endGame)
  }

  lemma SingleUnits(r: Resource, q: nat)
    ensures forall x :: Bundle.Single(r, q).Get(x) == if x == r then q else 0
    ensures Bundle.Single(r, q).Total() == q && (Bundle.Single(r, q).IsZero() <==> q == 0)
  {
  }

  lemma SingleWeighs(r: Resource, q: nat, u: Urgencies)
    ensures WeightedValue(Bundle.Single(r, q), u) == q * Weight(Level(u, r))
  {
    match r case Water => case Food => case Components =>
  }

  lemma ReserveSpent(d: Deal, available: Bundle, reserve: Bundle)
    requires d.pay != d.want && d.give > 0
    ensures var cost, gain := Bundle.Single(d.pay, d.give), Bundle.Single(d.want, d.get);
            (available.Dominates(cost) && !SpendsReserve(available, available.Monus(cost).Plus(gain), reserve))
            <==> available.Get(d.pay) >= d.give + reserve.Get(d.pay)
  {
    var cost, gain := Bundle.Single(d.pay, d.give), Bundle.Single(d.want, d.get);
    var remaining := available.Monus(cost).Plus(gain);
    match d.pay case Water => case Food => case Components =>
    if available.Get(d.pay) < d.give + reserve.Get(d.pay) && available.Dominates(cost) {
      assert remaining.Get(d.pay) < Min(available.Get(d.pay), reserve.Get(d.pay));
    }
  }

  lemma OnlyOneImport(d: Deal, available: Bundle, specialty: Resource)
    requires d.get > 0
    ensures ImportsOnlyExcess(Bundle.Single(d.want, d.get), available, specialty)
       <==> d.want != specialty && available.Get(d.want) > Max(40, available.Get(OtherImport(d.want, specialty)) + 10)
  {
    SingleUnits(d.want, d.get);
    if d.want != specialty { assert Bundle.Single(d.want, d.get).Get(d.want) > 0; }
  }

  lemma ConversionInNumbers(d: Deal, available: Bundle, upkeep: Bundle, reserve: Bundle, specialty: Resource, endGame: bool)
    requires d.pay == specialty && d.want != specialty && d.give > 0 && d.get > 0
    requires available.Get(d.pay) >= d.give + reserve.Get(d.pay)
    ensures ConvertsProduction(Bundle.Single(d.pay, d.give), Bundle.Single(d.want, d.get), available, reserve,
                               UrgencyOf(available, upkeep, reserve), specialty, endGame)
       <==> PricedWell(d, available, upkeep, reserve, specialty, Unlimited, endGame)
  {
    var u := UrgencyOf(available, upkeep, reserve);
    SingleUnits(d.pay, d.give);
    SingleUnits(d.want, d.get);
    PriceInNumbers(d.want, available, u, endGame);
    OneImportValue(d, available, u, specialty, endGame);
    ValueIsPositive(d.get, UnitPrice(available.Get(d.want), endGame));
    hide UnitPrice, UrgencyOf, ImportsValue, ImportPrice, ValueAt;
    assert Bundle.Single(d.pay, d.give).Get(specialty) == d.give && Bundle.Single(d.want, d.get).Get(specialty) == 0;
  }

  lemma PriceInNumbers(r: Resource, available: Bundle, u: Urgencies, endGame: bool)
    ensures ImportPrice(r, available, u, endGame) == UnitPrice(available.Get(r), endGame) >= 1.0
  {
    PremiumIsFair(Level(u, r), available.Get(r));
    hide PremiumFor;
  }

  lemma ValueIsPositive(n: nat, price: real)
    requires n > 0 && price >= 1.0
    ensures ValueAt(n, price) > 0.0
  {
    StrictProduct(n as real, price);
  }

  lemma OneImportValue(d: Deal, available: Bundle, u: Urgencies, specialty: Resource, endGame: bool)
    requires d.want != specialty
    ensures ImportsValue(Bundle.Single(d.want, d.get), specialty, available, u, endGame)
         == ValueAt(d.get, ImportPrice(d.want, available, u, endGame))
  {
    hide ImportPrice;
    match d.want case Water => case Food => case Components =>
  }

  lemma SwapInNumbers(d: Deal, available: Bundle, upkeep: Bundle, reserve: Bundle, specialty: Resource, endGame: bool)
    requires d.pay != specialty && d.pay != d.want && d.give > 0 && d.get > 0
    requires available.Get(d.pay) >= d.give + reserve.Get(d.pay)
    ensures FavourableSwap(Bundle.Single(d.pay, d.give), Bundle.Single(d.want, d.get), available, reserve, UrgencyOf(available, upkeep, reserve))
       <==> PricedWell(d, available, upkeep, reserve, specialty, Unlimited, endGame)
  {
    var u := UrgencyOf(available, upkeep, reserve);
    var cost, gain := Bundle.Single(d.pay, d.give), Bundle.Single(d.want, d.get);
    var remaining := available.Monus(cost).Plus(gain);
    SingleUnits(d.pay, d.give);
    SingleUnits(d.want, d.get);
    SingleWeighs(d.pay, d.give, u);
    SingleWeighs(d.want, d.get, u);
    NeedIsWeight(available, upkeep, reserve, d.pay);
    NeedIsWeight(available, upkeep, reserve, d.want);
    assert !exists r :: remaining.Get(r) < reserve.Get(r) < available.Get(r) by {
      match d.pay case Water => case Food => case Components =>
    }
    hide UrgencyOf, NeedOf, Weight, WeightedValue;
    assert gain.Get(d.want) > 0;
  }

  lemma GuardInNumbers(d: Deal, available: Bundle, reserve: Bundle, limit: PaymentLimit)
    requires d.pay != d.want && d.give > 0 && d.get > 0 && limit != Unlimited
    requires available.Get(d.pay) >= d.give + reserve.Get(d.pay)
    ensures WithinGuard(Bundle.Single(d.pay, d.give), Bundle.Single(d.want, d.get), available, reserve, limit)
       <==> limit == HalfPrice && 2 * d.give <= d.get
  {
    SingleUnits(d.pay, d.give);
    SingleUnits(d.want, d.get);
    match d.pay case Water => case Food => case Components =>
  }

  /** One resource for another is taken exactly when it is a good deal by these numbers: paid above
      the reserve, of an import not far ahead, a net gain once we are well supplied, at a price
      its stock justifies. */
  lemma DealInNumbers(
    d: Deal, available: Bundle, upkeep: Bundle, reserve: Bundle, specialty: Resource, limit: PaymentLimit, endGame: bool)
    requires d.pay != d.want && d.give > 0 && d.get > 0
    ensures WorthTaking(Bundle.Single(d.pay, d.give), Bundle.Single(d.want, d.get), available, reserve,
                        UrgencyOf(available, upkeep, reserve), specialty, limit, endGame)
       <==> GoodDeal(d, available, upkeep, reserve, specialty, limit, endGame)
  {
    SingleUnits(d.pay, d.give);
    SingleUnits(d.want, d.get);
    ReserveSpent(d, available, reserve);
    OnlyOneImport(d, available, specialty);
    hide UrgencyOf, SpendsReserve, ImportsOnlyExcess, ConvertsProduction, FavourableSwap, WithinGuard, PricedWell;
    if available.Get(d.pay) >= d.give + reserve.Get(d.pay) {
      if limit != Unlimited {
        GuardInNumbers(d, available, reserve, limit);
        GuardedPrice(d, available, upkeep, reserve, specialty, limit, endGame);
      } else if d.pay == specialty {
        ConversionInNumbers(d, available, upkeep, reserve, specialty, endGame);
      } else {
        SwapInNumbers(d, available, upkeep, reserve, specialty, endGame);
      }
    }
  }

  lemma GuardedPrice(d: Deal, available: Bundle, upkeep: Bundle, reserve: Bundle, specialty: Resource, limit: PaymentLimit, endGame: bool)
    requires limit != Unlimited
    ensures PricedWell(d, available, upkeep, reserve, specialty, limit, endGame) <==> limit == HalfPrice && 2 * d.give <= d.get
  {
  }

  // ---- bundles of several resources ---------------------------------------------------------------

  predicate AllAbove(available: Bundle, n: nat) { available.water > n && available.food > n && available.components > n }

  function TradeValue(gain: Bundle, available: Bundle, specialty: Resource, endGame: bool): real {
    (if specialty == Water then 0.0 else ValueAt(gain.water, UnitPrice(available.water, endGame)))
    + (if specialty == Food then 0.0 else ValueAt(gain.food, UnitPrice(available.food, endGame)))
    + (if specialty == Components then 0.0 else ValueAt(gain.components, UnitPrice(available.components, endGame)))
  }

  function NeedValue(b: Bundle, available: Bundle, upkeep: Bundle, reserve: Bundle): nat {
    b.water * NeedOf(available.water, upkeep.water, reserve.water) + b.food * NeedOf(available.food, upkeep.food, reserve.food)
    + b.components * NeedOf(available.components, upkeep.components, reserve.components)
  }

  /** An import that is not far ahead of the other is among what we get, or no import at all is. */
  predicate BringsRoom(gain: Bundle, available: Bundle, specialty: Resource) {
    (exists r :: r != specialty && gain.Get(r) > 0) ==>
      exists r :: r != specialty && gain.Get(r) > 0 && available.Get(r) <= Max(40, available.Get(OtherImport(r, specialty)) + 10)
  }

  /** What is left of `r` once the exchange is made. */
  function LeftOf(available: Bundle, cost: Bundle, gain: Bundle, r: Resource): int { available.Get(r) - cost.Get(r) + gain.Get(r) }

  predicate FairBundle(
    cost: Bundle, gain: Bundle, available: Bundle, upkeep: Bundle, reserve: Bundle, specialty: Resource, limit: PaymentLimit, endGame: bool)
  {
    match limit
    case NoPayment => false
    case HalfPrice => 2 * cost.Total() <= gain.Total() && forall r :: cost.Get(r) > 0 ==> LeftOf(available, cost, gain, r) >= reserve.Get(r)
    case Unlimited =>
      if cost.Total() == cost.Get(specialty) then
        var net, value := Max(0, cost.Get(specialty) - gain.Get(specialty)), TradeValue(gain, available, specialty, endGame);
        available.Get(specialty) - net >= reserve.Get(specialty) && value >= net as real && value > 0.0
      else
        var needed := exists r :: gain.Get(r) > 0 && NeedOf(available.Get(r), upkeep.Get(r), reserve.Get(r)) > 10;
        var paid, got := NeedValue(cost, available, upkeep, reserve), NeedValue(gain, available, upkeep, reserve);
        && (needed || forall r :: available.Get(r) > reserve.Get(r) ==> LeftOf(available, cost, gain, r) >= reserve.Get(r))
        && (got >= paid || (needed && 10 * got >= 8 * paid))
  }

  predicate GoodBundle(
    cost: Bundle, gain: Bundle, available: Bundle, upkeep: Bundle, reserve: Bundle, specialty: Resource, limit: PaymentLimit, endGame: bool)
  {
    && (AllAbove(available, 30) ==>
          gain.Get(specialty) == 0 && (gain.Total() > cost.Total() || (endGame && cost.Total() == cost.Get(specialty))))
    && BringsRoom(gain, available, specialty)
    && (forall r :: available.Get(r) >= cost.Get(r) && LeftOf(available, cost, gain, r) >= Min(available.Get(r), reserve.Get(r)))
    && FairBundle(cost, gain, available, upkeep, reserve, specialty, limit, endGame)
  }

  lemma LeftIs(available: Bundle, cost: Bundle, gain: Bundle)
    requires available.Dominates(cost)
    ensures forall r :: available.Monus(cost).Plus(gain).Get(r) == LeftOf(available, cost, gain, r)
  {
  }

  lemma ValueIs(gain: Bundle, available: Bundle, u: Urgencies, specialty: Resource, endGame: bool)
    ensures ImportsValue(gain, specialty, available, u, endGame) == TradeValue(gain, available, specialty, endGame)
  {
    PriceInNumbers(Water, available, u, endGame);
    PriceInNumbers(Food, available, u, endGame);
    PriceInNumbers(Components, available, u, endGame);
    hide ImportPrice, UnitPrice;
  }

  lemma NeedIs(b: Bundle, available: Bundle, upkeep: Bundle, reserve: Bundle)
    ensures WeightedValue(b, UrgencyOf(available, upkeep, reserve)) == NeedValue(b, available, upkeep, reserve)
  {
    NeedIsWeight(available, upkeep, reserve, Water);
    NeedIsWeight(available, upkeep, reserve, Food);
    NeedIsWeight(available, upkeep, reserve, Components);
    hide Weight, NeedOf, UrgencyOf;
  }

  lemma NeededIs(gain: Bundle, available: Bundle, upkeep: Bundle, reserve: Bundle)
    ensures FillsNeed(gain, UrgencyOf(available, upkeep, reserve))
       <==> exists r :: gain.Get(r) > 0 && NeedOf(available.Get(r), upkeep.Get(r), reserve.Get(r)) > 10
  {
    var u := UrgencyOf(available, upkeep, reserve);
    forall r ensures Level(u, r) != Calm <==> NeedOf(available.Get(r), upkeep.Get(r), reserve.Get(r)) > 10 {
      NeedIsWeight(available, upkeep, reserve, r);
    }
    hide NeedOf, UrgencyOf;
    if FillsNeed(gain, u) {
      var r :| gain.Get(r) > 0 && Level(u, r) != Calm;
      assert gain.Get(r) > 0 && NeedOf(available.Get(r), upkeep.Get(r), reserve.Get(r)) > 10;
    }
    if r :| gain.Get(r) > 0 && NeedOf(available.Get(r), upkeep.Get(r), reserve.Get(r)) > 10 {
      assert gain.Get(r) > 0 && Level(u, r) != Calm;
    }
  }

  lemma RoomIs(gain: Bundle, available: Bundle, specialty: Resource)
    ensures ImportsOnlyExcess(gain, available, specialty) <==> !BringsRoom(gain, available, specialty)
  {
    forall r | r != specialty
      ensures OverCeiling(r, available, specialty) <==> available.Get(r) > Max(40, available.Get(OtherImport(r, specialty)) + 10)
    {
    }
    hide OverCeiling, OtherImport;
  }

  lemma SwapIs(cost: Bundle, gain: Bundle, available: Bundle, upkeep: Bundle, reserve: Bundle)
    requires available.Dominates(cost)
    ensures FavourableSwap(cost, gain, available, reserve, UrgencyOf(available, upkeep, reserve)) <==>
              var needed := exists r :: gain.Get(r) > 0 && NeedOf(available.Get(r), upkeep.Get(r), reserve.Get(r)) > 10;
              var paid, got := NeedValue(cost, available, upkeep, reserve), NeedValue(gain, available, upkeep, reserve);
              && (needed || forall r :: available.Get(r) > reserve.Get(r) ==> LeftOf(available, cost, gain, r) >= reserve.Get(r))
              && (got >= paid || (needed && 10 * got >= 8 * paid))
  {
    LeftIs(available, cost, gain);
    NeedIs(cost, available, upkeep, reserve);
    NeedIs(gain, available, upkeep, reserve);
    NeededIs(gain, available, upkeep, reserve);
    hide NeedOf, UrgencyOf, NeedValue, WeightedValue, FillsNeed, LeftOf;
  }

  lemma PriceRuleIs(
    cost: Bundle, gain: Bundle, available: Bundle, upkeep: Bundle, reserve: Bundle, specialty: Resource, limit: PaymentLimit, endGame: bool)
    requires available.Dominates(cost)
    ensures FairBundle(cost, gain, available, upkeep, reserve, specialty, limit, endGame)
       <==> if limit != Unlimited then WithinGuard(cost, gain, available, reserve, limit)
            else if PaysWithSpecialty(cost, specialty) then
              ConvertsProduction(cost, gain, available, reserve, UrgencyOf(available, upkeep, reserve), specialty, endGame)
            else FavourableSwap(cost, gain, available, reserve, UrgencyOf(available, upkeep, reserve))
  {
    LeftIs(available, cost, gain);
    ValueIs(gain, available, UrgencyOf(available, upkeep, reserve), specialty, endGame);
    SwapIs(cost, gain, available, upkeep, reserve);
    hide UrgencyOf, ImportsValue, TradeValue, FavourableSwap, NeedValue, NeedOf, LeftOf;
  }

  lemma PaidFor(cost: Bundle, gain: Bundle, available: Bundle, reserve: Bundle)
    ensures (available.Dominates(cost) && !SpendsReserve(available, available.Monus(cost).Plus(gain), reserve))
       <==> forall r :: available.Get(r) >= cost.Get(r) && LeftOf(available, cost, gain, r) >= Min(available.Get(r), reserve.Get(r))
  {
    if available.Dominates(cost) { LeftIs(available, cost, gain); }
    hide LeftOf;
    if forall r :: available.Get(r) >= cost.Get(r) && LeftOf(available, cost, gain, r) >= Min(available.Get(r), reserve.Get(r)) {
      assert available.Get(Water) >= cost.Get(Water) && available.Get(Food) >= cost.Get(Food) && available.Get(Components) >= cost.Get(Components);
    }
  }

  /** Any bundle for any other is taken exactly when it is a good one by these numbers. */
  lemma BundleInNumbers(
    cost: Bundle, gain: Bundle, available: Bundle, upkeep: Bundle, reserve: Bundle, specialty: Resource, limit: PaymentLimit, endGame: bool)
    requires !cost.IsZero()
    ensures WorthTaking(cost, gain, available, reserve, UrgencyOf(available, upkeep, reserve), specialty, limit, endGame)
       <==> GoodBundle(cost, gain, available, upkeep, reserve, specialty, limit, endGame)
  {
    RoomIs(gain, available, specialty);
    PaidFor(cost, gain, available, reserve);
    if available.Dominates(cost) { PriceRuleIs(cost, gain, available, upkeep, reserve, specialty, limit, endGame); }
    hide UrgencyOf, SpendsReserve, ImportsOnlyExcess, BringsRoom, ConvertsProduction, FavourableSwap, WithinGuard, FairBundle, LeftOf;
    if forall r :: available.Get(r) >= cost.Get(r) && LeftOf(available, cost, gain, r) >= Min(available.Get(r), reserve.Get(r)) {
      assert available.Dominates(cost);
    }
  }
}
