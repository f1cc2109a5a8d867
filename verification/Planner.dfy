/** One decision as a sequence of stages that share a command budget and a spending balance. */
module Planner {
  import opened Domain
  import opened Counterparties
  import opened Memory
  import opened Reserves
  import opened Pricing
  import opened Acceptance
  import opened Advertising
  import opened Altruism
  import opened Targeting

  const OFFER_TTL: nat := 5
  const TARGET_BUFFER_MULTIPLE: nat := 2

  /** Why an offer is posted: stock over the cap, a trade, or aid in distress. */
  datatype Purpose = Excess | Priced | Relief

  /** A chosen action together with what it was chosen for. */
  datatype Step =
    | TakeOffer(offer: Offer)
    | PullOffer(offer: Offer)
    | PullAd(ad: Advertisement)
    | Announce(selling: set<Resource>, seeking: set<Resource>, expires: int)
    | Post(purpose: Purpose, recipient: StationId, pay: Resource, give: nat, want: Resource, receive: nat, expires: int)
  {
    function ToAction(): Action {
      match this
      case TakeOffer(o) => Accept(o.id)
      case PullOffer(o) => Withdraw(o.id)
      case PullAd(ad) => Withdraw(ad.id)
      case Announce(selling, seeking, expires) => Advertise(selling, seeking, expires)
      case Post(_, recipient, pay, give, want, receive, expires) =>
        MakeOffer(recipient, Bundle.Single(pay, give), Bundle.Single(want, receive), expires)
    }

    /** Stages in the order they may spend. */
    function Stage(): nat {
      match this
      case TakeOffer(_) => 0
      case PullOffer(_) => 1
      case Post(Excess, _, _, _, _, _, _) => 2
      case PullAd(_) => 3
      case Announce(_, _, _) => 3
      case Post(Priced, _, _, _, _, _, _) => 4
      case Post(Relief, _, _, _, _, _, _) => 5
    }

    predicate IsPriced() { Post? && purpose == Priced }

    /** A trade that pays more than half of what it asks. */
    predicate IsNormalTrade() { IsPriced() && 2 * give > receive }
  }

  function Actions(steps: seq<Step>): (actions: seq<Action>)
    ensures |actions| == |steps|
  {
    if steps == [] then [] else Actions(steps[..|steps| - 1]) + [steps[|steps| - 1].ToAction()]
  }

  /** What a decision is made from: the snapshot, the reserve, the stock it may commit, and
      the stations it may deal with. */
  datatype Context = Context(s: Snapshot, reserve: Bundle, opening: Bundle, known: set<StationId>) {
    function TicksLeft(): nat { Less(s.rules.durationTicks, s.tick) }

    function OfferLifetime(): int { Min(OFFER_TTL, Min(s.rules.maxOfferTtl, s.rules.durationTicks - s.tick)) }

    function Limit(available: Bundle): PaymentLimit { PaymentLimitFor(available, s.me, TicksLeft()) }

    predicate EndGame() { InEndGame(TicksLeft()) }

    function Urgent(available: Bundle): Urgencies { UrgencyOf(available, s.me.upkeep, reserve) }

    function Outgoing(): nat { |s.OutgoingOpen()| }
  }

  function CostOf(self: StationId, step: Step): Bundle {
    match step
    case TakeOffer(o) => if o.HasParty(self) then o.Pays(self) else Bundle.Zero()
    case Post(_, _, pay, give, _, _, _) => Bundle.Single(pay, give)
    case _ => Bundle.Zero()
  }

  /** What the batch so far leaves uncommitted; gains are not spendable yet. */
  function Balance(c: Context, steps: seq<Step>): Bundle {
    if steps == [] then c.opening
    else Balance(c, steps[..|steps| - 1]).Monus(CostOf(c.s.self, steps[|steps| - 1]))
  }

  function Posts(steps: seq<Step>): nat {
    if steps == [] then 0 else Posts(steps[..|steps| - 1]) + if steps[|steps| - 1].Post? then 1 else 0
  }

  function PricedPosts(steps: seq<Step>): nat {
    if steps == [] then 0 else PricedPosts(steps[..|steps| - 1]) + if steps[|steps| - 1].IsPriced() then 1 else 0
  }

  predicate NormalPlanned(steps: seq<Step>) { exists x :: x in steps && x.IsNormalTrade() }

  /** A batch in the making: its steps, the commands left, and the offers held back. */
  datatype Draft = Draft(steps: seq<Step>, budget: nat, deferred: seq<Offer>) {
    function With(step: Step): Draft
      requires budget > 0
    {
      this.(steps := steps + [step], budget := budget - 1)
    }
  }

  // ---- accepting --------------------------------------------------------------------------------

  predicate IsNormalOffer(o: Offer) { o.receive.IsZero() || 2 * o.give.Total() > o.receive.Total() }

  predicate HasNormalOffers(s: Snapshot) { exists o :: o in s.OutgoingOpen() && IsNormalOffer(o) }

  /** The import worth keeping a command free for, if accepting would starve it. */
  function ScarceImportToChase(c: Context): Option<Resource> {
    var me := c.s.me;
    var scarce := ScarcestImport(c.opening, me.specialty);
    var lagging := || Level(c.Urgent(c.opening), scarce) != Calm
                   || exists r :: r != scarce && r != me.specialty && OverCeiling(r, c.opening, me.specialty);
    if !lagging || c.Limit(c.opening) == NoPayment || c.Outgoing() >= c.s.rules.maxOpenOffers
       || (exists o :: o in c.s.OutgoingOpen() && o.receive.Get(scarce) > 0) then None
    else Some(scarce)
  }

  /** Whether the offer would be taken from this balance. */
  predicate Acceptable(c: Context, running: Bundle, o: Offer)
    requires o.HasParty(c.s.self)
  {
    var cost, gain := o.Pays(c.s.self), o.Receives(c.s.self);
    var limit := c.Limit(running.Monus(cost));
    && !(!cost.IsZero() && HasNormalOffers(c.s) && limit != Unlimited)
    && WorthTaking(cost, gain, running, c.reserve, c.Urgent(running), c.s.me.specialty, limit, c.EndGame())
  }

  /** Not worth the last command: it expires now, or it does not bring what we chase. */
  predicate HeldBack(c: Context, hold: Option<Resource>, o: Offer)
    requires o.HasParty(c.s.self)
  {
    o.expires - c.s.tick <= 1 || (hold.Some? && o.Receives(c.s.self).Get(hold.value) == 0)
  }

  function Considered(c: Context, d: Draft, hold: Option<Resource>, o: Offer): Draft
    requires o.HasParty(c.s.self)
  {
    if d.budget == 0 || !Acceptable(c, Balance(c, d.steps), o) then d
    else if d.budget <= 1 && HeldBack(c, hold, o) then d.(deferred := d.deferred + [o])
    else d.With(TakeOffer(o))
  }

  predicate AllOurs(c: Context, offers: seq<Offer>) { forall o :: o in offers ==> o.HasParty(c.s.self) }

  function AcceptPass(c: Context, d: Draft, hold: Option<Resource>, offers: seq<Offer>): (z: Draft)
    requires AllOurs(c, offers) && AllOurs(c, d.deferred)
    ensures AllOurs(c, z.deferred)
  {
    if offers == [] then d
    else Considered(c, AcceptPass(c, d, hold, offers[..|offers| - 1]), hold, offers[|offers| - 1])
  }

  // ---- withdrawing ---------------------------------------------------------------------------------

  predicate AtRisk(c: Context, available: Bundle, o: Offer, r: Resource) {
    o.give.Get(r) > 0 && available.Get(r) < c.reserve.Get(r)
  }

  predicate ViolatesGuard(c: Context, available: Bundle, o: Offer) {
    var limit := c.Limit(available);
    limit != Unlimited && (o.receive.IsZero() || limit == NoPayment || 2 * o.give.Total() > o.receive.Total())
  }

  /** Honouring the offer would hurt us now. */
  predicate Dangerous(c: Context, available: Bundle, o: Offer) {
    (exists r :: AtRisk(c, available, o, r)) || ViolatesGuard(c, available, o)
  }

  function Pulled(c: Context, d: Draft, o: Offer): Draft {
    if d.budget == 0 || !Dangerous(c, Balance(c, d.steps), o) then d else d.With(PullOffer(o))
  }

  function PullPass(c: Context, d: Draft, offers: seq<Offer>): (z: Draft)
    ensures z.deferred == d.deferred
  {
    if offers == [] then d
    else Pulled(c, PullPass(c, d, offers[..|offers| - 1]), offers[|offers| - 1])
  }

  // ---- giving away what is over the cap ---------------------------------------------------------------

  /** Largest excess first; ties in the resources' own order. */
  function ExcessOrder(x: Bundle): (order: seq<Resource>)
    ensures |order| == 3 && order[0] != order[1] && order[1] != order[2] && order[0] != order[2]
    ensures x.Get(order[0]) >= x.Get(order[1]) >= x.Get(order[2])
  {
    var (a, b) := if x.food > x.water then (Food, Water) else (Water, Food);
    if x.components <= x.Get(b) then [a, b, Components]
    else if x.components <= x.Get(a) then [a, Components, b]
    else [Components, a, b]
  }

  function ExcessPost(c: Context, r: Resource, p: StationId, excess: nat): Step {
    Post(Excess, p, r, Min(excess, MAX_EXCESS_GIFT), r, 0, c.s.tick + c.OfferLifetime())
  }

  predicate HasRoom(c: Context, d: Draft, standing: nat) {
    d.budget > 0 && c.Outgoing() + standing < c.s.rules.maxOpenOffers && c.OfferLifetime() > 0
  }

  predicate CanGive(c: Context, d: Draft, excess: Bundle, r: Resource) {
    HasRoom(c, d, Posts(d.steps)) && excess.Get(r) > 0
  }

  function GaveExcess(c: Context, d: Draft, excess: Bundle, r: Resource, pick: Option<StationId>): Draft {
    if !CanGive(c, d, excess, r) || pick.None? then d else d.With(ExcessPost(c, r, pick.value, excess.Get(r)))
  }

  /** The lots given while walking the order, as far as recipients were looked up. */
  function ExcessPass(c: Context, d: Draft, excess: Bundle, order: seq<Resource>, picks: seq<Option<StationId>>): (z: Draft)
    requires |picks| <= |order|
    ensures z.deferred == d.deferred
  {
    if picks == [] then d
    else
      var k := |picks| - 1;
      GaveExcess(c, ExcessPass(c, d, excess, order, picks[..k]), excess, order[k], picks[k])
  }

  // ---- what we want, and how we advertise it -----------------------------------------------------------

  /** What to ask for of one resource, before a shortage bites; none when zero. */
  function WantedQuantity(c: Context, available: Bundle, deficit: Bundle, r: Resource): nat {
    var specialty := c.s.me.specialty;
    if r == specialty then deficit.Get(r)
    else
      var have := available.Get(r);
      var ceiling := Min(ImportCeiling(r, available, specialty).value, STOCK_CAP);
      var bulk := TradeSize(available.Get(specialty) - NormalFloor(c.s.me)) > MAX_TRADE_SIZE;
      if have >= STOCK_CAP || have > ceiling then deficit.Get(r)
      else
        var target := Max(WATCH_STOCK, c.reserve.Get(r) * TARGET_BUFFER_MULTIPLE);
        var room := if bulk then ceiling - have else 0;
        Min(Max(Max(deficit.Get(r), target - have), Max(5, room)), STOCK_CAP - have)
  }

  function WantedOf(c: Context, available: Bundle, deficit: Bundle): Wanted {
    map r | r in ALL && WantedQuantity(c, available, deficit, r) > 0 :: WantedQuantity(c, available, deficit, r)
  }

  function AskedFor(wanted: Wanted, excess: Bundle, r: Resource): nat {
    if excess.Get(r) == 0 && r in wanted then wanted[r] else 0
  }

  function OnSale(wanted: Wanted, excess: Bundle, surplus: Bundle, r: Resource): nat {
    if r !in wanted || excess.Get(r) > 0 then surplus.Get(r) else 0
  }

  function AdvertisedNeed(wanted: Wanted, excess: Bundle): Bundle {
    Bundle(AskedFor(wanted, excess, Water), AskedFor(wanted, excess, Food), AskedFor(wanted, excess, Components))
  }

  function AdvertisedSurplus(c: Context, available: Bundle, wanted: Wanted, excess: Bundle): Bundle {
    var surplus := available.Monus(c.reserve);
    if c.Limit(available) == NoPayment then Bundle.Zero()
    else Bundle(OnSale(wanted, excess, surplus, Water), OnSale(wanted, excess, surplus, Food),
                OnSale(wanted, excess, surplus, Components))
  }

  function CriticalIn(u: Urgencies): set<Resource> { set r | r in ALL && Level(u, r) == Critical }

  function AdPass(c: Context, d: Draft, excess: Bundle, deficit: Bundle, critical: set<Resource>): (z: Draft)
    ensures z.deferred == d.deferred
  {
    var available := Balance(c, d.steps);
    var current := c.s.OwnAdvertisement();
    var wanted := WantedOf(c, available, deficit);
    if d.budget == 0 then d
    else if ComfortablySupplied(available) then (if current.Some? then d.With(PullAd(current.value)) else d)
    else
      match DecideAdvertisement(AdvertisedSurplus(c, available, wanted, excess), AdvertisedNeed(wanted, excess),
                                critical, current, c.s.tick, c.s.rules)
      case Some(Advertise(selling, seeking, expires)) => d.With(Announce(selling, seeking, expires))
      case Some(_) => if current.Some? then d.With(PullAd(current.value)) else d
      case None => d
  }

  // ---- proposing trades ----------------------------------------------------------------------------------

  function Replaced(b: Bundle, r: Resource, q: nat): Bundle {
    match r
    case Water => b.(water := q)
    case Food => b.(food := q)
    case Components => b.(components := q)
  }

  /** The specialty stock a trade under `limit` must leave. */
  function TradeFloor(c: Context, steps: seq<Step>, limit: PaymentLimit): nat {
    if c.EndGame() then SpecialtyFloor(c.s.me, c.TicksLeft())
    else if limit == Unlimited || HasNormalOffers(c.s) || NormalPlanned(steps) then NormalFloor(c.s.me)
    else STOP_TICKS * c.s.me.upkeep.Get(c.s.me.specialty)
  }

  /** Surplus, but of our own production only what the floor leaves. */
  function Payable(running: Bundle, reserve: Bundle, specialty: Resource, floor: nat): Bundle
    requires running.Get(specialty) >= floor
  {
    var surplus := running.Monus(reserve);
    Replaced(surplus, specialty, Min(surplus.Get(specialty), running.Get(specialty) - floor))
  }

  function LotSize(c: Context, running: Bundle): nat {
    if c.EndGame() then MAX_BULK_TRADE_SIZE
    else TradeSize(running.Get(c.s.me.specialty) - SpecialtyFloor(c.s.me, c.TicksLeft()))
  }

  function PricedFrom(
    c: Context, running: Bundle, payable: Bundle, u: Urgencies, deficit: nat, x: Candidate, limit: PaymentLimit): Option<(Bundle, Bundle)>
  {
    var stock := Some(running.Get(x.want));
    ComputeTerms(x.want, DesiredQuantity(deficit, stock, LotSize(c, running)), x.pay, payable, Level(u, x.want),
                 limit, stock, c.EndGame() && x.pay == c.s.me.specialty)
  }

  /** Price the trade from the balance left after reserving its payment. */
  function TermsUnder(c: Context, steps: seq<Step>, u: Urgencies, wanted: Wanted, x: Candidate, limit: PaymentLimit): Option<(Bundle, Bundle)>
    requires x.want in wanted
  {
    var running, floor := Balance(c, steps), TradeFloor(c, steps, limit);
    if running.Get(c.s.me.specialty) < floor then None
    else PricedFrom(c, running, Payable(running, c.reserve, c.s.me.specialty, floor), u, wanted[x.want], x, limit)
  }

  /** A normal price first; outside the end game, half price as a fallback. */
  function TermsFor(c: Context, steps: seq<Step>, u: Urgencies, wanted: Wanted, x: Candidate): Option<(Bundle, Bundle)>
    requires x.want in wanted
  {
    var normal := TermsUnder(c, steps, u, wanted, x, Unlimited);
    if normal.Some? || c.EndGame() then normal else TermsUnder(c, steps, u, wanted, x, HalfPrice)
  }

  function TradePost(c: Context, x: Candidate, terms: (Bundle, Bundle)): Step {
    Post(Priced, x.station, x.pay, terms.0.Get(x.pay), x.want, terms.1.Get(x.want), c.s.tick + c.OfferLifetime())
  }

  function Proposed(c: Context, d: Draft, u: Urgencies, wanted: Wanted, x: Candidate): Draft
    requires x.want in wanted
  {
    var terms := TermsFor(c, d.steps, u, wanted, x);
    if !HasRoom(c, d, PricedPosts(d.steps)) || terms.None? then d
    else d.With(TradePost(c, x, terms.value))
  }

  predicate AllWanted(wanted: Wanted, cs: seq<Candidate>) { forall x :: x in cs ==> x.want in wanted }

  function ProposePass(c: Context, d: Draft, u: Urgencies, wanted: Wanted, cs: seq<Candidate>): (z: Draft)
    requires AllWanted(wanted, cs)
    ensures z.deferred == d.deferred
  {
    if cs == [] then d
    else Proposed(c, ProposePass(c, d, u, wanted, cs[..|cs| - 1]), u, wanted, cs[|cs| - 1])
  }

  /** Trades a standing offer already asks for. */
  function Pending(s: Snapshot): set<(StationId, Resource)> {
    set o, r | o in s.OutgoingOpen() && r in ALL && o.receive.Get(r) > 0 :: (o.recipient, r)
  }

  // ---- aid ---------------------------------------------------------------------------------------------

  /** Surplus and reserve together: what aid may be given from. */
  function Holding(c: Context, steps: seq<Step>): Bundle { Balance(c, steps).Monus(c.reserve).Plus(c.reserve) }

  predicate CanAid(c: Context, d: Draft) {
    c.Limit(Holding(c, d.steps)) == Unlimited && d.budget > 0 && c.Outgoing() + Posts(d.steps) < c.s.rules.maxOpenOffers
  }

  function ReliefPass(c: Context, d: Draft, gift: Option<Gift>): Draft {
    if !CanAid(c, d) || gift.None? || c.OfferLifetime() <= 0 then d
    else
      var g := gift.value;
      if c.Limit(Holding(c, d.steps).Monus(Bundle.Single(g.resource, g.quantity))) != Unlimited then d
      else d.With(Post(Relief, g.station, g.resource, g.quantity, g.resource, 0, c.s.tick + c.OfferLifetime()))
  }

  // ---- the whole batch -----------------------------------------------------------------------------------

  lemma IncomingIsOurs(c: Context)
    ensures AllOurs(c, c.s.IncomingOpen())
  {
  }

  function AcceptStage(c: Context, budget: nat): (z: Draft)
    ensures AllOurs(c, z.deferred)
  {
    IncomingIsOurs(c);
    AcceptPass(c, Draft([], budget, []), ScarceImportToChase(c), c.s.IncomingOpen())
  }

  /** Urgency and deficit are measured once, after the accepts. */
  function UrgencyAfterAccepts(c: Context, budget: nat): Urgencies { c.Urgent(Balance(c, AcceptStage(c, budget).steps)) }

  function DeficitAfterAccepts(c: Context, budget: nat): Bundle { c.reserve.Monus(Balance(c, AcceptStage(c, budget).steps)) }

  function PullStage(c: Context, budget: nat): Draft { PullPass(c, AcceptStage(c, budget), c.s.OutgoingOpen()) }

  function ExcessAt(c: Context, budget: nat): Bundle { ExcessOverCap(Balance(c, PullStage(c, budget).steps)) }

  /** What the decision leaves open: whom excess goes to, the ranking, and whom to aid. */
  datatype Choices = Choices(picks: seq<Option<StationId>>, candidates: seq<Candidate>, gift: Option<Gift>)

  function ExcessStage(c: Context, budget: nat, picks: seq<Option<StationId>>): Draft
    requires |picks| <= 3
  {
    ExcessPass(c, PullStage(c, budget), ExcessAt(c, budget), ExcessOrder(ExcessAt(c, budget)), picks)
  }

  function AdStage(c: Context, budget: nat, picks: seq<Option<StationId>>): Draft
    requires |picks| <= 3
  {
    AdPass(c, ExcessStage(c, budget, picks), ExcessAt(c, budget), DeficitAfterAccepts(c, budget),
           CriticalIn(UrgencyAfterAccepts(c, budget)))
  }

  function WantedAt(c: Context, budget: nat, picks: seq<Option<StationId>>): Wanted
    requires |picks| <= 3
  {
    WantedOf(c, Balance(c, AdStage(c, budget, picks).steps), DeficitAfterAccepts(c, budget))
  }

  predicate Usable(c: Context, budget: nat, ch: Choices) {
    |ch.picks| <= 3 && AllWanted(WantedAt(c, budget, ch.picks), ch.candidates)
  }

  function ProposeStage(c: Context, budget: nat, ch: Choices): (z: Draft)
    requires Usable(c, budget, ch)
    ensures AllOurs(c, z.deferred)
  {
    ProposePass(c, AdStage(c, budget, ch.picks), UrgencyAfterAccepts(c, budget), WantedAt(c, budget, ch.picks), ch.candidates)
  }

  predicate TakesDeferred(d: Draft) { d.deferred != [] && d.budget > 0 }

  /** If nothing better used the command, take what was held back. */
  function DeferredStage(c: Context, d: Draft): Draft
    requires AllOurs(c, d.deferred)
  {
    if TakesDeferred(d) then AcceptPass(c, d.(deferred := []), None, d.deferred) else d
  }

  function LateStage(c: Context, budget: nat, ch: Choices): Draft
    requires Usable(c, budget, ch)
  {
    DeferredStage(c, ProposeStage(c, budget, ch))
  }

  function UrgencyForAid(c: Context, budget: nat, ch: Choices): Urgencies
    requires Usable(c, budget, ch)
  {
    var d := ProposeStage(c, budget, ch);
    if TakesDeferred(d) then c.Urgent(Balance(c, d.steps)) else UrgencyAfterAccepts(c, budget)
  }

  /** The whole decision, given its choices. */
  function PlanOf(c: Context, budget: nat, ch: Choices): Draft
    requires Usable(c, budget, ch)
  {
    ReliefPass(c, LateStage(c, budget, ch), ch.gift)
  }

  // ---- which choices the memory allows --------------------------------------------------------------------

  /** The gift log once the batch's gifts are recorded. */
  function GiftLog(gifts: map<(StationId, Resource), int>, steps: seq<Step>, tick: int): map<(StationId, Resource), int> {
    if steps == [] then gifts
    else
      var before, x := GiftLog(gifts, steps[..|steps| - 1], tick), steps[|steps| - 1];
      if x.Post? && x.purpose != Priced then before[(x.recipient, x.pay) := tick] else before
  }

  /** A recipient is looked up only while a lot could be given: the longest seeker, or nobody. */
  ghost predicate PickFits(c: Context, n: Notes, d: Draft, excess: Bundle, order: seq<Resource>, picks: seq<Option<StationId>>, k: nat)
    requires k < |picks| <= |order|
  {
    CanGive(c, ExcessPass(c, d, excess, order, picks[..k]), excess, order[k]) && Picked(n, order[k], c.s.tick, picks[k])
  }

  ghost predicate PicksFit(c: Context, n: Notes, d: Draft, excess: Bundle, order: seq<Resource>, picks: seq<Option<StationId>>)
    requires |picks| <= |order|
  {
    && (forall k {:trigger PickFits(c, n, d, excess, order, picks, k)} :: 0 <= k < |picks| ==> PickFits(c, n, d, excess, order, picks, k))
    && (|picks| < |order| ==> !CanGive(c, ExcessPass(c, d, excess, order, picks), excess, order[|picks|]))
  }

  ghost predicate CandidatesFit(c: Context, n: Notes, budget: nat, ch: Choices)
    requires |ch.picks| <= 3
  {
    Ranked(n.model, UrgencyAfterAccepts(c, budget), WantedAt(c, budget, ch.picks),
           Balance(c, AdStage(c, budget, ch.picks).steps).Monus(c.reserve), c.s.tick, Pending(c.s), c.s.me.specialty, ch.candidates)
  }

  ghost predicate GiftFits(c: Context, n: Notes, budget: nat, ch: Choices)
    requires Usable(c, budget, ch)
  {
    var late := LateStage(c, budget, ch);
    if CanAid(c, late) then
      Scanned(n.(gifts := GiftLog(n.gifts, late.steps, c.s.tick)), Balance(c, late.steps).Monus(c.reserve),
              UrgencyForAid(c, budget, ch), c.s.tick, ch.gift)
    else ch.gift == None
  }

  ghost predicate ChoicesFit(c: Context, n: Notes, budget: nat, ch: Choices) {
    && Usable(c, budget, ch)
    && PicksFit(c, n, PullStage(c, budget), ExcessAt(c, budget), ExcessOrder(ExcessAt(c, budget)), ch.picks)
    && (c.Outgoing() < c.s.rules.maxOpenOffers ==> CandidatesFit(c, n, budget, ch))
    && GiftFits(c, n, budget, ch)
  }
}
