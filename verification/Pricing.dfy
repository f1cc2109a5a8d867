/** What to ask for and what to pay; ratios are exact, rounding is the original's. */
module Pricing {
  import opened Arithmetic
  import opened Domain
  import opened Reserves

  const MAX_PREMIUM: nat := 8
  const MAX_TRADE_SIZE: nat := 4
  const MAX_BULK_TRADE_SIZE: nat := 12
  const SPARE_PER_BULK_UNIT: nat := 4
  const END_GAME_RATIO: nat := 2

  /** 2.5 compounded by a quarter, `steps` times. */
  function Compounded(steps: nat): (p: real)
    ensures p >= 2.5
  {
    if steps == 0 then 2.5 else 1.25 * Compounded(steps - 1)
  }

  function LeastReal(a: real, b: real): real { if a <= b then a else b }

  /** The premium tiers by stock; without a stock figure the urgency decides. */
  function PremiumFor(urgency: Urgency, stock: Option<nat>): real {
    if stock.None? then (match urgency case Calm => 1.0 case Watch => 1.2 case Critical => 2.0)
    else if stock.value >= 20 then 1.0
    else if stock.value >= 15 then 1.2
    else if stock.value >= 10 then 1.5
    else if stock.value >= 7 then 2.0 + 0.25 * (9 - stock.value) as real
    else LeastReal(Compounded(7 - stock.value), MAX_PREMIUM as real)
  }

  function FloorDiv(a: int, b: nat): int
    requires b > 0
  {
    a / b
  }

  function TradeSize(spare: int): nat {
    Max(MAX_TRADE_SIZE, Min(MAX_BULK_TRADE_SIZE, FloorDiv(spare, SPARE_PER_BULK_UNIT)))
  }

  function DesiredQuantity(deficit: nat, stock: Option<nat>, size: nat): (q: nat)
    ensures 1 <= q <= Max(1, deficit) && q <= Max(Max(MAX_TRADE_SIZE, 5), size)
  {
    var tier := if stock.Some? && 15 <= stock.value < 20 then 5 else MAX_TRADE_SIZE;
    var cap := if stock.None? || stock.value >= 20 then Max(tier, size) else tier;
    Max(1, Min(deficit, cap))
  }

  function HalfUp(x: real): int { (x + 0.5).Floor }

  /** `n` units at price `p`, rounded half up. */
  function Rounded(n: int, p: real): int { HalfUp(n as real * p) }

  /** `want` units at price `p`, rounded, at least one for one and at most eight. */
  function PricedGive(want: int, p: real): int {
    Max(want, Min(Rounded(want, p), want * MAX_PREMIUM))
  }

  /** How many units `a` pays for at price `p`. */
  function Afforded(a: nat, p: real): int
    requires p >= 1.0
  {
    Max(1, (a as real / p).Floor)
  }

  /** Quantities given and asked at price `p`, scaled down when the price cannot be paid. */
  function NormalTrade(quantity: int, affordable: nat, p: real): (int, int)
    requires p >= 1.0
  {
    if PricedGive(quantity, p) <= affordable then (PricedGive(quantity, p), quantity)
    else (Min(affordable, PricedGive(Afforded(affordable, p), p)), Afforded(affordable, p))
  }

  /** Terms as (give, receive), or none when the trade cannot be paid for. */
  function ComputeTerms(
    want: Resource, quantity: int, pay: Resource, available: Bundle, urgency: Urgency,
    limit: PaymentLimit, stock: Option<nat>, endGame: bool): Option<(Bundle, Bundle)>
  {
    var affordable := available.Get(pay);
    if want == pay || quantity <= 0 || affordable == 0 then None
    else if limit != Unlimited then
      var give := Min(affordable, if limit == NoPayment then 0 else quantity / 2);
      if give <= 0 then None else Some((Bundle.Single(pay, give), Bundle.Single(want, quantity)))
    else if endGame then
      var asked := Max(1, Min(quantity, affordable / END_GAME_RATIO));
      Some((Bundle.Single(pay, Min(affordable, asked * END_GAME_RATIO)), Bundle.Single(want, asked)))
    else
      PremiumAtLeastOne(urgency, stock);
      NormalTradeBounds(quantity, affordable, PremiumFor(urgency, stock));
      var (give, asked) := NormalTrade(quantity, affordable, PremiumFor(urgency, stock));
      Some((Bundle.Single(pay, give), Bundle.Single(want, asked)))
  }

  // ---- the premium curve ------------------------------------------------------------------------

  lemma PremiumAtLeastOne(urgency: Urgency, stock: Option<nat>)
    ensures 1.0 <= PremiumFor(urgency, stock) <= MAX_PREMIUM as real
  {
  }

  lemma {:induction false} CompoundingGrows(fewer: nat, more: nat)
    requires fewer <= more
    ensures Compounded(fewer) <= Compounded(more)
  {
    if fewer < more { CompoundingGrows(fewer, more - 1); }
  }

  /** Scarcer stock never lowers the price, across every tier boundary. */
  lemma PremiumNeverRises(urgency: Urgency, stock: nat, more: nat)
    requires stock <= more
    ensures PremiumFor(urgency, Some(more)) <= PremiumFor(urgency, Some(stock))
  {
    if more < 7 {
      CompoundingGrows(7 - more, 7 - stock);
    } else if stock < 7 {
      CompoundingGrows(1, 7 - stock);
      assert Compounded(1) == 1.25 * Compounded(0);
    }
  }

  // ---- what the terms promise ---------------------------------------------------------------------

  predicate Bounded(terms: (Bundle, Bundle), want: Resource, pay: Resource, quantity: int, affordable: nat) {
    var (give, receive) := terms;
    && give == Bundle.Single(pay, give.Get(pay)) && receive == Bundle.Single(want, receive.Get(want))
    && 1 <= give.Get(pay) <= affordable && 1 <= receive.Get(want) <= quantity
  }

  lemma Rounds(w: nat, p: real)
    requires 1.0 <= p <= MAX_PREMIUM as real
    ensures w <= Rounded(w, p) <= w * MAX_PREMIUM
  {
    Worth(w, p);
    FloorWithin(w as real * p, w, w * MAX_PREMIUM);
  }

  /** `n` units at a price from one to eight. */
  lemma Worth(n: nat, p: real)
    requires 1.0 <= p <= 8.0
    ensures n as real <= n as real * p <= (n * MAX_PREMIUM) as real
  {
    RealProduct(p, 1.0, n as real);
    RealProduct(8.0, p, n as real);
    EightTimes(n);
  }

  lemma EightTimes(n: nat)
    ensures (n * MAX_PREMIUM) as real == 8.0 * n as real
  {
  }

  lemma FloorWithin(x: real, low: int, high: int)
    requires low as real <= x <= high as real
    ensures low <= HalfUp(x) <= high
  {
  }

  lemma AffordedFits(a: nat, p: real)
    requires a > 0 && p >= 1.0
    ensures 1 <= Afforded(a, p) <= a
    ensures a as real >= p ==> Afforded(a, p) as real * p <= a as real
  {
    var x := a as real / p;
    assert x * p == a as real;
    Shrinks(a as real, p);
    assert x.Floor as real <= x;
    if a as real >= p {
      if x < 1.0 { RealProduct(1.0, x, p); }
      AtLeastOne(x, p, a as real);
      RealProduct(x, x.Floor as real, p);
    }
  }

  /** What we cannot afford at `q` we scale down to at most `q`. */
  lemma AffordedIsLess(a: nat, q: nat, p: real)
    requires a > 0 && q > 0 && p >= 1.0 && Rounded(q, p) > a
    ensures Afforded(a, p) <= q
  {
    var x := a as real / p;
    assert x * p == a as real;
    assert (q + 1) as real * p == q as real * p + p;
    SmallQuotient(x, (q + 1) as real, p);
  }

  /** Terms exist exactly when there is something to ask, to pay with and leave to pay. */
  lemma TermsExist(
    want: Resource, quantity: int, pay: Resource, available: Bundle, urgency: Urgency,
    limit: PaymentLimit, stock: Option<nat>, endGame: bool)
    ensures ComputeTerms(want, quantity, pay, available, urgency, limit, stock, endGame).Some? <==>
              && want != pay && quantity > 0 && available.Get(pay) > 0
              && limit != NoPayment && (limit == HalfPrice ==> quantity >= 2)
  {
  }

  /** Whatever the branch: at least one unit each way, within what is asked and held. */
  lemma TermsBounded(
    want: Resource, quantity: int, pay: Resource, available: Bundle, urgency: Urgency,
    limit: PaymentLimit, stock: Option<nat>, endGame: bool)
    requires ComputeTerms(want, quantity, pay, available, urgency, limit, stock, endGame).Some?
    ensures var terms := ComputeTerms(want, quantity, pay, available, urgency, limit, stock, endGame).value;
            var (give, receive) := (terms.0.Get(pay), terms.1.Get(want));
            && Bounded(terms, want, pay, quantity, available.Get(pay))
            && give <= MAX_PREMIUM * receive
            && (limit == HalfPrice ==> 2 * give <= receive == quantity)
            && (limit == Unlimited && endGame ==> give <= END_GAME_RATIO * receive)
            && (limit == Unlimited ==> receive <= give)
  {
    if limit == Unlimited && !endGame {
      PremiumAtLeastOne(urgency, stock);
      NormalTradeBounds(quantity, available.Get(pay), PremiumFor(urgency, stock));
    }
  }

  /** At any price from one to eight: one unit at least each way, no more asked than
      wanted, and the price exact but for a last unit that cannot be paid in full. */
  lemma NormalTradeBounds(quantity: int, affordable: nat, p: real)
    requires quantity > 0 && affordable > 0 && 1.0 <= p <= MAX_PREMIUM as real
    ensures var (give, asked) := NormalTrade(quantity, affordable, p);
            && 1 <= give <= affordable && 1 <= asked <= quantity && asked <= give <= MAX_PREMIUM * asked
            && (give == Rounded(asked, p) || (asked == 1 && give == affordable && give < Rounded(1, p)))
  {
    Rounds(quantity, p);
    if PricedGive(quantity, p) > affordable {
      AffordedFits(affordable, p);
      AffordedIsLess(affordable, quantity, p);
      Rounds(Afforded(affordable, p), p);
      ScaledDownPrice(affordable, p);
    }
  }

  lemma ScaledDownPrice(affordable: nat, p: real)
    requires affordable > 0 && p >= 1.0
    ensures affordable as real >= p ==> Rounded(Afforded(affordable, p), p) <= affordable
    ensures affordable as real < p ==> Afforded(affordable, p) == 1
  {
    AffordedFits(affordable, p);
    if affordable as real < p { OnlyOne(affordable, p); }
  }

  lemma OnlyOne(a: nat, p: real)
    requires a > 0 && p >= 1.0 && (a as real) < p
    ensures Afforded(a, p) == 1
  {
    var x := a as real / p;
    assert x * p == a as real;
    if x >= 2.0 { RealProduct(x, 2.0, p); }
  }

  lemma NormalTerms(want: Resource, quantity: int, pay: Resource, available: Bundle, urgency: Urgency, stock: Option<nat>)
    requires want != pay && quantity > 0 && available.Get(pay) > 0
    ensures PremiumFor(urgency, stock) >= 1.0
    ensures var (give, asked) := NormalTrade(quantity, available.Get(pay), PremiumFor(urgency, stock));
            && give > 0 && asked > 0
            && ComputeTerms(want, quantity, pay, available, urgency, Unlimited, stock, false)
                 == Some((Bundle.Single(pay, give), Bundle.Single(want, asked)))
  {
    PremiumAtLeastOne(urgency, stock);
    NormalTradeBounds(quantity, available.Get(pay), PremiumFor(urgency, stock));
  }

  /** The price is the premium rounded half up; only one last unit may go for less, when
      even its price cannot be paid. */
  lemma PriceIsThePremium(
    want: Resource, quantity: int, pay: Resource, available: Bundle, urgency: Urgency, stock: Option<nat>)
    requires want != pay && quantity > 0 && available.Get(pay) > 0
    ensures ComputeTerms(want, quantity, pay, available, urgency, Unlimited, stock, false).Some?
    ensures var terms := ComputeTerms(want, quantity, pay, available, urgency, Unlimited, stock, false).value;
            var (give, receive) := (terms.0.Get(pay), terms.1.Get(want));
            || give == Rounded(receive, PremiumFor(urgency, stock))
            || (receive == 1 && give == available.Get(pay) && give < Rounded(1, PremiumFor(urgency, stock)))
  {
    hide PremiumFor, NormalTrade, ComputeTerms, Rounded;
    NormalTerms(want, quantity, pay, available, urgency, stock);
    PremiumAtLeastOne(urgency, stock);
    NormalTradeBounds(quantity, available.Get(pay), PremiumFor(urgency, stock));
  }

  // ---- prices and quantities in numbers ------------------------------------------------------------

  /** Units of ours for one of theirs, by how much of it we hold. */
  function FairPrice(stock: nat): real {
    if stock >= 20 then 1.0
    else if stock >= 15 then 1.2
    else if stock >= 10 then 1.5
    else if stock == 9 then 2.0
    else if stock == 8 then 2.25
    else if stock == 7 then 2.5
    else if stock == 6 then 3.125
    else if stock == 5 then 3.90625
    else if stock == 4 then 4.8828125
    else if stock == 3 then 6.103515625
    else if stock == 2 then 7.62939453125
    else 8.0
  }

  lemma PremiumIsFair(urgency: Urgency, stock: nat)
    ensures PremiumFor(urgency, Some(stock)) == FairPrice(stock)
  {
    assert Compounded(1) == 3.125;
    assert Compounded(2) == 1.25 * Compounded(1) == 3.90625;
    assert Compounded(3) == 1.25 * Compounded(2) == 4.8828125;
    assert Compounded(4) == 1.25 * Compounded(3) == 6.103515625;
    assert Compounded(5) == 1.25 * Compounded(4) == 7.62939453125;
    assert Compounded(6) == 1.25 * Compounded(5) > 8.0;
    assert Compounded(7) == 1.25 * Compounded(6) > 8.0;
  }

  /** Lots grow with what is spare, four units to one, between four and twelve; below twenty
      units in stock they stay at four, or five at the six-for-five price. */
  lemma QuantityInNumbers(deficit: nat, stock: nat, spare: int)
    ensures DesiredQuantity(deficit, Some(stock), TradeSize(spare))
         == Max(1, Min(deficit, if stock < 15 then 4 else if stock < 20 then 5
                                else if spare < 20 then 4 else if spare >= 48 then 12 else spare / 4))
  {
  }

  /** `n` is `x` rounded half up. */
  predicate IsRounded(x: real, n: int) { n as real <= x + 0.5 < (n + 1) as real }

  lemma RoundedIs(n: int, p: real)
    ensures IsRounded(n as real * p, Rounded(n, p))
  {
  }

  /** The most units whose exact price fits. */
  predicate MostFor(asked: int, most: nat, p: real) { asked as real * p <= most as real < (asked + 1) as real * p }

  predicate PaidInFull(quantity: int, most: nat, p: real, give: int, asked: int) {
    if Rounded(quantity, p) <= most then asked == quantity && give == Rounded(quantity, p)
    else if most as real < p then asked == 1 && give == most
    else MostFor(asked, most, p) && give == Rounded(asked, p)
  }

  /** A price that can be paid buys all that was wanted; one that cannot buys the most units whose
      exact price fits. Under the guard half is paid, or all that is left if that is less; at the
      end two for one. */
  lemma TermsInFull(
    want: Resource, quantity: int, pay: Resource, available: Bundle, urgency: Urgency, limit: PaymentLimit, stock: nat, endGame: bool)
    requires ComputeTerms(want, quantity, pay, available, urgency, limit, Some(stock), endGame).Some?
    ensures var terms := ComputeTerms(want, quantity, pay, available, urgency, limit, Some(stock), endGame).value;
            var (give, asked, most, p) := (terms.0.Get(pay), terms.1.Get(want), available.Get(pay), FairPrice(stock));
            && (limit == HalfPrice ==> asked == quantity && give == Min(most, quantity / 2))
            && (limit == Unlimited && endGame ==> asked == Max(1, Min(quantity, most / 2)) && give == Min(most, 2 * asked))
            && (limit == Unlimited && !endGame ==> PaidInFull(quantity, most, p, give, asked))
  {
    hide PaidInFull;
    if limit == Unlimited && !endGame {
      PremiumIsFair(urgency, stock);
      PremiumAtLeastOne(urgency, Some(stock));
      NormalInFull(quantity, available.Get(pay), FairPrice(stock));
      NormalTradeBounds(quantity, available.Get(pay), FairPrice(stock));
      hide PremiumFor, FairPrice, NormalTrade, Rounded;
    }
  }

  lemma NormalInFull(quantity: int, most: nat, p: real)
    requires quantity > 0 && most > 0 && 1.0 <= p <= 8.0
    ensures var (give, asked) := NormalTrade(quantity, most, p);
            PaidInFull(quantity, most, p, give, asked)
  {
    Rounds(quantity, p);
    if Rounded(quantity, p) > most {
      ScaledInFull(quantity, most, p);
    } else {
      hide Rounded;
    }
  }

  lemma ScaledInFull(quantity: int, most: nat, p: real)
    requires quantity > 0 && most > 0 && 1.0 <= p <= 8.0 && Rounded(quantity, p) > most && PricedGive(quantity, p) > most
    ensures var (give, asked) := NormalTrade(quantity, most, p);
            PaidInFull(quantity, most, p, give, asked)
  {
    AffordedFits(most, p);
    Rounds(Afforded(most, p), p);
    ScaledDownPrice(most, p);
    if most as real < p { OneIsTooDear(most, p); } else { MostThatFits(most, p); }
    hide Afforded, Rounded, MostFor;
  }

  lemma OneIsTooDear(most: nat, p: real)
    requires most > 0 && (most as real) < p
    ensures Rounded(1, p) >= most
  {
  }

  lemma MoreCosts(x: real, y: real, p: real, a: real)
    requires x < y && p > 0.0 && x * p == a
    ensures a < y * p
  {
    StrictProduct(y - x, p);
    assert (y - x) * p == y * p - x * p;
  }

  lemma MostThatFits(most: nat, p: real)
    requires most > 0 && p >= 1.0 && most as real >= p
    ensures MostFor(Afforded(most, p), most, p)
  {
    AffordedFits(most, p);
    var x := most as real / p;
    assert x * p == most as real;
    AtLeastOne(x, p, most as real);
    var k := x.Floor;
    assert k >= 1 && Afforded(most, p) == k;
    var y := (k + 1) as real;
    assert y > x;
    MoreCosts(x, y, p, most as real);
    assert (Afforded(most, p) + 1) as real == y;
  }
}
