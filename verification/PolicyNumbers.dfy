/** The planner's rules in numbers: what is safe, acceptable, chased, wanted and paid. */
module PolicyNumbers {
  import opened Arithmetic
  import opened Domain
  import opened Counterparties
  import opened Reserves
  import opened Pricing
  import Acceptance
  import opened Targeting
  import opened Planner

  // ---- what is safe -------------------------------------------------------------------------------

  function TicksToGo(c: Context): nat { Max(0, c.s.rules.durationTicks - c.s.tick) }

  function OwnUpkeep(c: Context): nat { c.s.me.upkeep.Get(c.s.me.specialty) }

  /** Our own production leaves paying unrestricted. */
  predicate PaysFreely(c: Context, stock: Bundle) {
    var own := stock.Get(c.s.me.specialty);
    if TicksToGo(c) <= 10 then own >= Min(25, TicksToGo(c) + 1) * OwnUpkeep(c) else own >= 25 * OwnUpkeep(c)
  }

  /** It gives a resource already below its reserve, or more of our production than is safe now. */
  predicate Endangers(c: Context, stock: Bundle, o: Offer) {
    || (exists r :: o.give.Get(r) > 0 && stock.Get(r) < c.reserve.Get(r))
    || (!PaysFreely(c, stock)
        && (TicksToGo(c) <= 10 || o.receive.Total() == 0 || 2 * o.give.Total() > o.receive.Total()
            || stock.Get(c.s.me.specialty) < 10 * OwnUpkeep(c)))
  }

  lemma LimitInNumbers(c: Context, stock: Bundle)
    ensures c.Limit(stock) == Unlimited <==> PaysFreely(c, stock)
    ensures c.Limit(stock) == NoPayment <==>
              !PaysFreely(c, stock) && (TicksToGo(c) <= 10 || stock.Get(c.s.me.specialty) < 10 * OwnUpkeep(c))
    ensures c.EndGame() <==> TicksToGo(c) <= 10
  {
    ScaleGrows(OwnUpkeep(c), STOP_TICKS, NORMAL_TICKS);
  }

  lemma DangerInNumbers(c: Context, stock: Bundle, o: Offer)
    ensures Dangerous(c, stock, o) <==> Endangers(c, stock, o)
  {
    LimitInNumbers(c, stock);
    hide PaymentLimitFor, PaysFreely;
    assert (exists r :: AtRisk(c, stock, o, r)) <==> (exists r :: o.give.Get(r) > 0 && stock.Get(r) < c.reserve.Get(r)) by {
      if r :| AtRisk(c, stock, o, r) {
        assert o.give.Get(r) > 0 && stock.Get(r) < c.reserve.Get(r);
      }
      if r :| o.give.Get(r) > 0 && stock.Get(r) < c.reserve.Get(r) {
        assert AtRisk(c, stock, o, r);
      }
    }
  }

  // ---- what is acceptable, and what is chased, in numbers ------------------------------------------

  predicate AsksFairly(o: Offer) { o.receive.Total() == 0 || 2 * o.give.Total() > o.receive.Total() }

  /** An open offer of ours pays more than half of what it asks. */
  predicate OffersNormally(c: Context) { exists o :: o in c.s.OutgoingOpen() && AsksFairly(o) }

  function LimitOf(c: Context, stock: Bundle): PaymentLimit {
    if PaysFreely(c, stock) then Unlimited
    else if TicksToGo(c) > 10 && stock.Get(c.s.me.specialty) >= 10 * OwnUpkeep(c) then HalfPrice
    else NoPayment
  }

  lemma LimitIs(c: Context, stock: Bundle)
    ensures c.Limit(stock) == LimitOf(c, stock) && c.EndGame() == (TicksToGo(c) <= 10)
  {
    LimitInNumbers(c, stock);
    hide PaymentLimitFor;
  }

  lemma NormalOffersAre(c: Context)
    ensures HasNormalOffers(c.s) <==> OffersNormally(c)
  {
    forall o: Offer ensures IsNormalOffer(o) <==> AsksFairly(o) {
    }
    hide KeepOffers, IsNormalOffer, AsksFairly;
  }

  /** A gift is taken unless we are well supplied and it brings our own production or nothing; any other
      offer exactly when it is a good one, at the limit that what is left of our production sets, and
      while we ask normal prices ourselves, only at no limit at all. */
  lemma AcceptableInNumbers(c: Context, stock: Bundle, o: Offer)
    requires o.recipient == c.s.self && o.proposer != c.s.self
    ensures var left, endGame := stock.Monus(o.receive), TicksToGo(c) <= 10;
            Acceptable(c, stock, o)
            <==> if o.receive.IsZero() then
                   !(Acceptance.AllAbove(stock, 30) && (o.give.Get(c.s.me.specialty) > 0 || (o.give.IsZero() && !endGame)))
                 else
                   && (OffersNormally(c) ==> PaysFreely(c, left))
                   && Acceptance.GoodBundle(o.receive, o.give, stock, c.s.me.upkeep, c.reserve, c.s.me.specialty, LimitOf(c, left), endGame)
  {
    var limit := LimitOf(c, stock.Monus(o.receive));
    LimitIs(c, stock.Monus(o.receive));
    NormalOffersAre(c);
    Acceptance.GiftInNumbers(o.give, stock, c.reserve, c.Urgent(stock), c.s.me.specialty, limit, TicksToGo(c) <= 10);
    if !o.receive.IsZero() {
      Acceptance.BundleInNumbers(o.receive, o.give, stock, c.s.me.upkeep, c.reserve, c.s.me.specialty, limit, TicksToGo(c) <= 10);
    }
    hide Acceptance.WorthTaking, Acceptance.GoodBundle, PaymentLimitFor, UrgencyOf, OffersNormally, HasNormalOffers;
    assert o.receive.IsZero() ==> o.receive == Bundle.Zero();
  }

  /** The scarcer of our imports, ties in the resources' own order. */
  predicate IsScarcest(c: Context, r: Resource) {
    && r != c.s.me.specialty
    && var other := OtherImport(r, c.s.me.specialty);
       c.opening.Get(r) < c.opening.Get(other) || (c.opening.Get(r) == c.opening.Get(other) && RankOf(r) < RankOf(other))
  }

  function RankOf(r: Resource): nat { match r case Water => 0 case Food => 1 case Components => 2 }

  /** It runs low, or the other import is far ahead of it; we can pay, an offer is free, and none
      of ours asks for it yet. */
  predicate WorthChasing(c: Context, r: Resource)
    requires r != c.s.me.specialty
  {
    var have, other := c.opening.Get(r), c.opening.Get(OtherImport(r, c.s.me.specialty));
    && (have < 20 || have < c.s.me.upkeep.Get(r) || have < c.reserve.Get(r) || other > Max(40, have + 10))
    && LimitOf(c, c.opening) != NoPayment && c.Outgoing() < c.s.rules.maxOpenOffers
    && forall o :: o in c.s.OutgoingOpen() ==> o.receive.Get(r) == 0
  }

  lemma ScarcestIs(c: Context, r: Resource)
    ensures ScarcestImport(c.opening, c.s.me.specialty) == r <==> IsScarcest(c, r)
  {
  }

  lemma OthersThanScarcest(c: Context, r: Resource)
    requires r != c.s.me.specialty
    ensures (exists x :: x != r && x != c.s.me.specialty && OverCeiling(x, c.opening, c.s.me.specialty))
       <==> c.opening.Get(OtherImport(r, c.s.me.specialty)) > Max(40, c.opening.Get(r) + 10)
  {
    var other := OtherImport(r, c.s.me.specialty);
    assert OverCeiling(other, c.opening, c.s.me.specialty) <==> c.opening.Get(other) > Max(40, c.opening.Get(r) + 10);
  }

  /** A command is kept free exactly for the scarcest import, and only when it is worth chasing. */
  lemma ChaseInNumbers(c: Context, r: Resource)
    ensures ScarceImportToChase(c) == Some(r) <==> IsScarcest(c, r) && WorthChasing(c, r)
  {
    ScarcestIs(c, r);
    LimitIs(c, c.opening);
    if IsScarcest(c, r) { OthersThanScarcest(c, r); }
    hide PaymentLimitFor, LimitOf, KeepOffers, ScarcestImport, IsScarcest, OverCeiling;
  }

  // ---- what is wanted, and on which terms, in numbers ---------------------------------------------------

  /** The stock an import is bought up to: past its reserve twice over and twenty units, by five at
      least, and up to its ceiling with plenty of our own to pay in bulk; a hundred at most. */
  function BuysUpTo(c: Context, stock: Bundle, short: nat, r: Resource): nat
    requires r != c.s.me.specialty
  {
    var have, ceiling := stock.Get(r), Min(100, Max(40, stock.Get(OtherImport(r, c.s.me.specialty)) + 10));
    var bulk := stock.Get(c.s.me.specialty) >= 25 * OwnUpkeep(c) + 20;
    Min(100, Max(Max(20, 2 * c.reserve.Get(r)), Max(have + Max(5, short), if bulk then ceiling else 0)))
  }

  /** Our own production, a full hundred, or an import past its ceiling. */
  predicate HasPlenty(c: Context, stock: Bundle, r: Resource) {
    r == c.s.me.specialty || stock.Get(r) >= 100 || stock.Get(r) > Max(40, stock.Get(OtherImport(r, c.s.me.specialty)) + 10)
  }

  lemma BulkIs(c: Context, stock: Bundle)
    ensures TradeSize(stock.Get(c.s.me.specialty) - NormalFloor(c.s.me)) > MAX_TRADE_SIZE
       <==> stock.Get(c.s.me.specialty) >= 25 * OwnUpkeep(c) + 20
  {
  }

  lemma QuantityWanted(c: Context, stock: Bundle, deficit: Bundle, r: Resource)
    ensures WantedQuantity(c, stock, deficit, r)
         == if HasPlenty(c, stock, r) then deficit.Get(r) else BuysUpTo(c, stock, deficit.Get(r), r) - stock.Get(r)
    ensures !HasPlenty(c, stock, r) ==> WantedQuantity(c, stock, deficit, r) > 0
  {
    BulkIs(c, stock);
    hide TradeSize, NormalFloor, OwnUpkeep, OtherImport;
  }

  /** What we have plenty of is bought only to cover its reserve; any other import up to its mark. */
  lemma WantedInNumbers(c: Context, stock: Bundle, deficit: Bundle, r: Resource)
    ensures var wanted := WantedOf(c, stock, deficit);
            && (r in wanted <==> !HasPlenty(c, stock, r) || deficit.Get(r) > 0)
            && (r in wanted ==>
                  wanted[r] == if HasPlenty(c, stock, r) then deficit.Get(r) else BuysUpTo(c, stock, deficit.Get(r), r) - stock.Get(r))
  {
    AllListed();
    QuantityWanted(c, stock, deficit, r);
    hide WantedQuantity, HasPlenty, BuysUpTo;
  }

  /** The most of `pay` a trade may give: surplus, and of our own production only what the floor leaves. */
  function MostPaid(c: Context, stock: Bundle, pay: Resource, floor: nat): nat {
    var own, spare := stock.Get(c.s.me.specialty), Less(stock.Get(pay), c.reserve.Get(pay));
    if own < floor then 0 else if pay == c.s.me.specialty then Min(spare, own - floor) else spare
  }

  function UsualFloor(c: Context): nat { (if TicksToGo(c) <= 10 then Min(25, TicksToGo(c) + 1) else 25) * OwnUpkeep(c) }

  /** How much to ask for: what is wanted, in lots that grow with the stock there is to pay. */
  function AsksFor(c: Context, stock: Bundle, want: Resource, wanted: nat): nat {
    var have, spare := stock.Get(want), stock.Get(c.s.me.specialty) - UsualFloor(c);
    Max(1, Min(wanted, if have < 15 then 4 else if have < 20 then 5
                       else if TicksToGo(c) <= 10 then 12
                       else if spare < 20 then 4 else if spare >= 48 then 12 else spare / 4))
  }

  lemma AsksInNumbers(c: Context, stock: Bundle, want: Resource, wanted: nat)
    ensures DesiredQuantity(wanted, Some(stock.Get(want)), LotSize(c, stock)) == AsksFor(c, stock, want, wanted)
  {
    LimitIs(c, stock);
    assert SpecialtyFloor(c.s.me, c.TicksLeft()) == UsualFloor(c);
    QuantityInNumbers(wanted, stock.Get(want), stock.Get(c.s.me.specialty) - UsualFloor(c));
    hide SpecialtyFloor, UsualFloor, PaymentLimitFor, TradeSize;
  }

  lemma PayableIs(c: Context, stock: Bundle, pay: Resource, floor: nat)
    requires stock.Get(c.s.me.specialty) >= floor
    ensures Payable(stock, c.reserve, c.s.me.specialty, floor).Get(pay) == MostPaid(c, stock, pay, floor)
  {
  }

  /** Terms under a price rule exist when the floor is met and something is left to pay. */
  ghost predicate OnTerms(
    c: Context, stock: Bundle, wanted: nat, x: Candidate, limit: PaymentLimit, floor: nat, terms: Option<(Bundle, Bundle)>)
  {
    var quantity, most := AsksFor(c, stock, x.want, wanted), MostPaid(c, stock, x.pay, floor);
    match terms
    case None => x.want == x.pay || most == 0 || limit == NoPayment || (limit == HalfPrice && quantity < 2)
    case Some((give, receive)) =>
      && x.want != x.pay && most > 0
      && give == Bundle.Single(x.pay, give.Get(x.pay)) && receive == Bundle.Single(x.want, receive.Get(x.want))
      && var (paid, asked) := (give.Get(x.pay), receive.Get(x.want));
         match limit
         case NoPayment => false
         case HalfPrice => asked == quantity && quantity >= 2 && paid == Min(most, quantity / 2)
         case Unlimited =>
           if TicksToGo(c) <= 10 && x.pay == c.s.me.specialty then asked == Max(1, Min(quantity, most / 2)) && paid == Min(most, 2 * asked)
           else PaidInFull(quantity, most, FairPrice(stock.Get(x.want)), paid, asked)
  }

  lemma TermsUnderInNumbers(c: Context, steps: seq<Step>, u: Urgencies, wanted: Wanted, x: Candidate, limit: PaymentLimit)
    requires x.want in wanted
    ensures OnTerms(c, Balance(c, steps), wanted[x.want], x, limit, TradeFloor(c, steps, limit), TermsUnder(c, steps, u, wanted, x, limit))
  {
    var stock, floor := Balance(c, steps), TradeFloor(c, steps, limit);
    var terms := TermsUnder(c, steps, u, wanted, x, limit);
    if stock.Get(c.s.me.specialty) >= floor {
      var payable := Payable(stock, c.reserve, c.s.me.specialty, floor);
      var quantity := AsksFor(c, stock, x.want, wanted[x.want]);
      var endGame := c.EndGame() && x.pay == c.s.me.specialty;
      LimitIs(c, stock);
      AsksInNumbers(c, stock, x.want, wanted[x.want]);
      PayableIs(c, stock, x.pay, floor);
      assert terms == ComputeTerms(x.want, quantity, x.pay, payable, Level(u, x.want), limit, Some(stock.Get(x.want)), endGame);
      TermsExist(x.want, quantity, x.pay, payable, Level(u, x.want), limit, Some(stock.Get(x.want)), endGame);
      hide Balance, TradeFloor, Payable, MostPaid, AsksFor, ComputeTerms, TermsUnder, PaidInFull, FairPrice, PaymentLimitFor;
      if terms.Some? {
        TermsBounded(x.want, quantity, x.pay, payable, Level(u, x.want), limit, Some(stock.Get(x.want)), endGame);
        TermsInFull(x.want, quantity, x.pay, payable, Level(u, x.want), limit, stock.Get(x.want), endGame);
      }
    }
  }

  /** Half price is for the last ten ticks of production only while nothing pays more than half. */
  ghost function FallbackFloor(c: Context, turn: seq<Step>): nat {
    (if OffersNormally(c) || (exists x :: x in turn && x.Post? && x.purpose == Priced && 2 * x.give > x.receive) then 25 else 10) * OwnUpkeep(c)
  }

  lemma FloorsAre(c: Context, turn: seq<Step>)
    ensures TradeFloor(c, turn, Unlimited) == UsualFloor(c)
    ensures TicksToGo(c) > 10 ==> TradeFloor(c, turn, HalfPrice) == FallbackFloor(c, turn)
  {
    LimitIs(c, c.opening);
    NormalOffersAre(c);
    assert NormalPlanned(turn) <==> exists x :: x in turn && x.Post? && x.purpose == Priced && 2 * x.give > x.receive by {
      if x :| x in turn && x.IsNormalTrade() { assert x.Post? && x.purpose == Priced && 2 * x.give > x.receive; }
      if x :| x in turn && x.Post? && x.purpose == Priced && 2 * x.give > x.receive { assert x.IsNormalTrade(); }
    }
    hide PaymentLimitFor, HasNormalOffers, OffersNormally, NormalPlanned;
  }

  /** The full price above the usual floor; only if that gives no terms, and before the end game,
      half price above the fallback floor. */
  ghost predicate TradesOn(c: Context, turn: seq<Step>, wanted: nat, x: Candidate, terms: Option<(Bundle, Bundle)>) {
    var stock := Balance(c, turn);
    || (terms.Some? && OnTerms(c, stock, wanted, x, Unlimited, UsualFloor(c), terms))
    || (OnTerms(c, stock, wanted, x, Unlimited, UsualFloor(c), None)
        && (if TicksToGo(c) <= 10 then terms == None else OnTerms(c, stock, wanted, x, HalfPrice, FallbackFloor(c, turn), terms)))
  }

  lemma TermsInNumbers(c: Context, turn: seq<Step>, u: Urgencies, wanted: Wanted, x: Candidate)
    requires x.want in wanted
    ensures TradesOn(c, turn, wanted[x.want], x, TermsFor(c, turn, u, wanted, x))
  {
    TermsUnderInNumbers(c, turn, u, wanted, x, Unlimited);
    TermsUnderInNumbers(c, turn, u, wanted, x, HalfPrice);
    FloorsAre(c, turn);
    LimitIs(c, c.opening);
    hide Balance, OnTerms, TermsUnder, TradeFloor, UsualFloor, FallbackFloor, PaymentLimitFor;
  }
}
