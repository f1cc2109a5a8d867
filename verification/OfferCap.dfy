/** The open-offer limit is not kept by every batch: a run in which deciding overruns it, and
    the economy refuses the last command. */
module OfferCap {
  import opened Domain
  import opened Stations
  import opened Counterparties
  import opened Memory
  import opened Reserves
  import opened Pricing
  import opened Advertising
  import opened Altruism
  import opened Targeting
  import opened Engine
  import opened EngineInvariant
  import opened EngineRuns
  import opened Economy
  import opened Commitments
  import opened Planner
  import opened PlannerSafety
  import opened PlannerProof
  import opened Deciding
  import opened Contract
  import opened OpenLimit
  import opened Examples

  // ---- the world: plenty of our own water, and the other planet advertises for it ------------------

  const STOCK: Bundle := Bundle(150, 25, 25)

  function Plea(): Action { Advertise({}, {Water}, 8) }

  function PleaAd(): Advertisement { Advertisement(AdId(0), THEM, {}, {Water}, 0, 8, 0, Active) }

  function Pleading(): World { Start(STOCK).(ads := [PleaAd()], nextId := 1, counts := map[THEM := 1]) }

  function FirstLook(): Snapshot {
    Snapshot("run", 1, 0, 0, Running, US, Terms(), [US, THEM], Ours(STOCK).Observe(), [], [PleaAd()], [], [])
  }

  function Seeker(): Stats { Unknown().(seeking := {Water}, streak := map[Water := 1], lastAdTick := 0, everActive := true) }

  /** What the first decision is made from, and the memory it is made with. */
  function Rich(): Context { Context(FirstLook(), Bundle(15, 3, 3), STOCK, {THEM}) }

  function Learned(): Notes { Notes(Model(map[THEM := Seeker()], {}), [], [], 0, map[], Bundle(12, 0, 0), {}, -1) }

  lemma WorldShown()
    ensures AfterTheirs(STOCK, Plea()) == Pleading() && Inv(Pleading(), Beginnings(STOCK))
    ensures US in Pleading().stations && ObservationFor(Pleading(), US, 1, Running, []) == FirstLook()
  {
    AfterTheirsIs(STOCK, Plea());
    assert Precheck(Start(STOCK), THEM, Plea()).None?;
  }

  lemma TheyDiffer()
    ensures US != THEM
  {
    assert US.name[2] != THEM.name[2];
  }

  lemma AdHeard()
    ensures ActiveAds(FirstLook().advertisements, US, 0) == map[THEM := PleaAd()]
  {
    TheyDiffer();
    assert [PleaAd()][..0] == [];
  }

  lemma ModelHeard()
    ensures Updated(Blank().model, FirstLook()) == Model(map[THEM := Seeker()], {})
  {
    TheyDiffer();
    AdHeard();
    var m := Model(map[THEM := Unknown()], {});
    assert [US, THEM][..1] == [US] && [US][..0] == [];
    assert WithDirectory(Blank().model, US, [US]) == Blank().model;
    assert WithDirectory(Blank().model, US, [US, THEM]) == m;
    AllListed();
    assert StreakAfter(Unknown(), {Water}, 0) == map[Water := 1];
    assert WithAds(m, map[THEM := PleaAd()], 0) == Model(map[THEM := Seeker()], {});
  }

  function Listening(): Notes { Learned().(stored := Bundle.Zero()) }

  lemma MemoryHeard()
    ensures Memory.Observed(Blank(), FirstLook()) == Listening()
  {
    ModelHeard();
    hide Updated;
  }

  lemma ReserveHeard()
    ensures ReserveOf(Terms(), FirstLook().me, Listening(), STOCK) == Bundle(15, 3, 3)
    ensures StoredOf(Terms(), FirstLook().me, Listening(), STOCK) == Bundle(12, 0, 0)
  {
    assert MedianRoundTrip(Listening()).None? && LowestProduction(Listening()).None?;
    assert forall r :: Buffer(r, Terms(), FirstLook().me, Listening()) == 3;
  }

  lemma MemoryIs()
    ensures ContextFor(Blank(), FirstLook(), []) == Rich() && Refreshed(Blank(), FirstLook(), STOCK) == Learned()
  {
    MemoryHeard();
    ReserveHeard();
    assert Available(FirstLook(), []) == STOCK;
    assert Listening().model.Live() == {THEM};
    hide Memory.Observed, ReserveOf, StoredOf, Available;
  }

  // ---- before trades: one lot of water and one advertisement ------------------------------------------

  function Lot(): Step { Post(Excess, THEM, Water, 20, Water, 0, 5) }

  function Notice(): Step { Announce({Water}, {Food, Components}, 8) }

  function Ask(want: Resource): Step { Post(Priced, THEM, Water, 12, want, 12, 5) }

  function Wants(): Wanted { map[Food := 15, Components := 15] }

  lemma NothingOpen()
    ensures Rich().s.IncomingOpen() == [] && Rich().s.OutgoingOpen() == [] && Rich().Outgoing() == 0
  {
  }

  lemma NothingBeforeExcess()
    ensures var c := Rich();
            && AcceptStage(c, 3) == Draft([], 3, []) && PullStage(c, 3) == Draft([], 3, [])
            && ExcessAt(c, 3) == Bundle(50, 0, 0) && ExcessOrder(ExcessAt(c, 3)) == [Water, Food, Components]
            && DeficitAfterAccepts(c, 3) == Bundle.Zero()
            && Balance(c, []) == STOCK && c.OfferLifetime() == 5
  {
    NothingOpen();
    assert Balance(Rich(), []) == STOCK;
  }

  lemma LevelsAreCalm()
    ensures AllCalm(UrgencyAfterAccepts(Rich(), 3)) && CriticalIn(UrgencyAfterAccepts(Rich(), 3)) == {}
  {
    NothingBeforeExcess();
    hide AcceptStage, Balance;
    assert AllCalm(UrgencyAfterAccepts(Rich(), 3));
  }

  lemma FirstLot()
    ensures var c, d, excess := Rich(), Draft([], 3, []), Bundle(50, 0, 0);
            && CanGive(c, d, excess, Water) && !CanGive(c, Draft([Lot()], 2, []), excess, Food)
            && GaveExcess(c, d, excess, Water, Some(THEM)) == Draft([Lot()], 2, [])
  {
    NothingOpen();
    NothingBeforeExcess();
    hide KeepOffers;
    assert Posts([]) == 0;
  }

  /** The one lot goes to the one seeker. */
  lemma LotGiven(picks: seq<Option<StationId>>)
    requires |picks| <= 3
    ensures var c := Rich();
            PicksFit(c, Learned(), PullStage(c, 3), ExcessAt(c, 3), ExcessOrder(ExcessAt(c, 3)), picks) <==> picks == [Some(THEM)]
    ensures ExcessStage(Rich(), 3, [Some(THEM)]) == Draft([Lot()], 2, [])
  {
    var c, n, d, excess, order := Rich(), Learned(), Draft([], 3, []), Bundle(50, 0, 0), [Water, Food, Components];
    NothingBeforeExcess();
    FirstLot();
    var one := [Some(THEM)];
    assert one[..0] == [];
    hide PullStage, ExcessAt, ExcessOrder, CanGive, GaveExcess;
    assert ExcessPass(c, d, excess, order, []) == d;
    assert ExcessPass(c, d, excess, order, one) == Draft([Lot()], 2, []);
    hide ExcessPass;
    assert IsSeeker(n, Water, 0, THEM);
    if picks == one {
      assert PickFits(c, n, d, excess, order, picks, 0);
    }
    if PicksFit(c, n, d, excess, order, picks) {
      assert picks != [];
      assert picks[..0] == [];
      assert PickFits(c, n, d, excess, order, picks, 0);
      assert picks[0] == Some(THEM);
      assert picks[..1] == one;
      assert |picks| > 1 ==> PickFits(c, n, d, excess, order, picks, 1);
    }
  }

  lemma LeftAfterLot()
    ensures Balance(Rich(), [Lot()]) == Bundle(130, 25, 25) && Balance(Rich(), [Lot(), Notice()]) == Bundle(130, 25, 25)
    ensures PricedPosts([Lot(), Notice()]) == 0 && !NormalPlanned([Lot(), Notice()])
  {
    NothingBeforeExcess();
    assert [Lot()][..0] == [] && [Lot(), Notice()][..1] == [Lot()];
    assert PricedPosts([Lot()]) == 0;
  }

  lemma BothImportsWanted()
    ensures WantedOf(Rich(), Bundle(130, 25, 25), Bundle.Zero()) == Wants()
  {
    var c := Rich();
    AllListed();
    assert WantedQuantity(c, Bundle(130, 25, 25), Bundle.Zero(), Water) == 0;
    assert WantedQuantity(c, Bundle(130, 25, 25), Bundle.Zero(), Food) == 15;
    assert WantedQuantity(c, Bundle(130, 25, 25), Bundle.Zero(), Components) == 15;
  }

  lemma NoticeChosen()
    ensures var c, left, excess := Rich(), Bundle(130, 25, 25), Bundle(50, 0, 0);
            && !ComfortablySupplied(left) && c.s.OwnAdvertisement() == None
            && DecideAdvertisement(AdvertisedSurplus(c, left, Wants(), excess), AdvertisedNeed(Wants(), excess), {}, None, 0, Terms())
                 == Some(Advertise({Water}, {Food, Components}, 8))
  {
    var c, left, excess := Rich(), Bundle(130, 25, 25), Bundle(50, 0, 0);
    TheyDiffer();
    AllListed();
    assert AdvertisedSurplus(c, left, Wants(), excess) == Bundle(115, 0, 0);
    assert AdvertisedNeed(Wants(), excess) == Bundle(0, 15, 15);
    assert Selling(Bundle(115, 0, 0)) == {Water};
    assert Seeking(Bundle(0, 15, 15), {}) == {Food, Components};
  }

  lemma NoticePublished()
    ensures AdStage(Rich(), 3, [Some(THEM)]) == Draft([Lot(), Notice()], 1, [])
    ensures WantedAt(Rich(), 3, [Some(THEM)]) == Wants()
  {
    NothingBeforeExcess();
    LotGiven([Some(THEM)]);
    LeftAfterLot();
    BothImportsWanted();
    LevelsAreCalm();
    NoticeChosen();
    hide PullStage, ExcessAt, ExcessStage, AcceptStage, WantedOf, Balance, UrgencyAfterAccepts, DecideAdvertisement, PicksFit,
         ComfortablySupplied, DeficitAfterAccepts, FirstActiveAd, AdvertisedSurplus, AdvertisedNeed;
    assert [Lot()] + [Notice()] == [Lot(), Notice()];
  }

  // ---- the trade -------------------------------------------------------------------------------------------

  predicate IsImport(want: Resource) { want == Food || want == Components }

  lemma TradePriced(want: Resource)
    requires IsImport(want)
    ensures TermsFor(Rich(), [Lot(), Notice()], UrgencyAfterAccepts(Rich(), 3), Wants(), Candidate(THEM, want, Water))
              == Some((Bundle(12, 0, 0), Bundle.Single(want, 12)))
  {
    var c := Rich();
    LeftAfterLot();
    LevelsAreCalm();
    NothingOpen();
    assert !HasNormalOffers(c.s);
    hide Balance, UrgencyAfterAccepts, NormalPlanned, HasNormalOffers, KeepOffers;
    assert TradeFloor(c, [Lot(), Notice()], Unlimited) == 25;
    assert Payable(Bundle(130, 25, 25), c.reserve, Water, 25) == Bundle(105, 22, 22);
    assert LotSize(c, Bundle(130, 25, 25)) == 12;
    assert DesiredQuantity(15, Some(25), 12) == 12;
    assert PremiumFor(Calm, Some(25)) == 1.0;
    assert Rounded(12, 1.0) == 12;
    assert NormalTrade(12, 105, 1.0) == (12, 12);
  }

  lemma AskAdded(want: Resource)
    requires IsImport(want)
    ensures Proposed(Rich(), Draft([Lot(), Notice()], 1, []), UrgencyAfterAccepts(Rich(), 3), Wants(), Candidate(THEM, want, Water))
              == Draft([Lot(), Notice(), Ask(want)], 0, [])
  {
    TradePriced(want);
    LeftAfterLot();
    NothingOpen();
    NothingBeforeExcess();
    hide UrgencyAfterAccepts, TermsFor, PricedPosts, KeepOffers, Balance, NormalPlanned, AcceptStage, PullStage, ExcessAt;
    assert [Lot(), Notice()] + [Ask(want)] == [Lot(), Notice(), Ask(want)];
  }

  lemma {:induction false} SpentByFirst(c: Context, d: Draft, u: Urgencies, wanted: Wanted, cs: seq<Candidate>)
    requires cs != [] && AllWanted(wanted, cs) && Proposed(c, d, u, wanted, cs[0]).budget == 0
    ensures ProposePass(c, d, u, wanted, cs) == Proposed(c, d, u, wanted, cs[0])
  {
    var n := |cs| - 1;
    hide TermsFor;
    if n == 0 {
      assert cs[..0] == [];
    } else {
      SpentByFirst(c, d, u, wanted, cs[..n]);
    }
  }

  /** Our water pays, whichever import comes first. */
  lemma FirstCandidate(cs: seq<Candidate>)
    requires Ranked(Learned().model, UrgencyAfterAccepts(Rich(), 3), Wants(), Bundle(115, 22, 22), 0, {}, Water, cs)
    ensures cs != [] && IsImport(cs[0].want) && cs[0] == Candidate(THEM, cs[0].want, Water)
  {
    var m, surplus := Learned().model, Bundle(115, 22, 22);
    hide UrgencyAfterAccepts, PartnerScore;
    assert IsOption(m.Live(), surplus, {}, Candidate(THEM, Food, Water));
    assert Serves(cs, Food);
    assert cs[0] in cs;
    OwnProductionPays(m, surplus, 0, {}, Water, cs[0]);
  }

  lemma RankedFor(ch: Choices)
    requires ch.picks == [Some(THEM)]
    ensures CandidatesFit(Rich(), Learned(), 3, ch) <==>
              Ranked(Learned().model, UrgencyAfterAccepts(Rich(), 3), Wants(), Bundle(115, 22, 22), 0, {}, Water, ch.candidates)
  {
    NoticePublished();
    LeftAfterLot();
    NothingOpen();
    assert Pending(Rich().s) == {};
    hide AdStage, WantedAt, Balance, UrgencyAfterAccepts, Ranked, KeepOffers, Pending, PricedPosts, NormalPlanned;
  }

  lemma LimitStillFree()
    ensures Rich().Outgoing() < Rich().s.rules.maxOpenOffers
  {
    NothingOpen();
  }

  lemma NothingAfterTrade(want: Resource, gift: Option<Gift>)
    ensures var d := Draft([Lot(), Notice(), Ask(want)], 0, []);
            DeferredStage(Rich(), d) == d && !CanAid(Rich(), d) && ReliefPass(Rich(), d, gift) == d
  {
    hide Balance, KeepOffers, Posts;
  }

  lemma TradePlanned(ch: Choices)
    requires Usable(Rich(), 3, ch) && ch.picks == [Some(THEM)] && CandidatesFit(Rich(), Learned(), 3, ch)
    ensures ch.candidates != [] && IsImport(ch.candidates[0].want)
    ensures ProposeStage(Rich(), 3, ch) == Draft([Lot(), Notice(), Ask(ch.candidates[0].want)], 0, [])
  {
    NoticePublished();
    RankedFor(ch);
    FirstCandidate(ch.candidates);
    AskAdded(ch.candidates[0].want);
    hide AdStage, UrgencyAfterAccepts, WantedAt, Proposed, ProposePass, CandidatesFit, Ranked;
    SpentByFirst(Rich(), Draft([Lot(), Notice()], 1, []), UrgencyAfterAccepts(Rich(), 3), Wants(), ch.candidates);
  }

  /** Every choice the memory allows leads to the same batch, but for the import asked for. */
  lemma PlanKnown(ch: Choices)
    requires ChoicesFit(Rich(), Learned(), 3, ch)
    ensures ch.candidates != [] && IsImport(ch.candidates[0].want)
    ensures PlanOf(Rich(), 3, ch).steps == [Lot(), Notice(), Ask(ch.candidates[0].want)]
  {
    LotGiven(ch.picks);
    LimitStillFree();
    hide PicksFit, CandidatesFit, GiftFits, Usable, KeepOffers, PullStage, ExcessAt, ExcessStage, ProposeStage, ReliefPass, DeferredStage;
    TradePlanned(ch);
    NothingAfterTrade(ch.candidates[0].want, ch.gift);
  }

  // ---- such choices exist -----------------------------------------------------------------------------------

  function Chosen(): Choices {
    Choices([Some(THEM)], [Candidate(THEM, Food, Water), Candidate(THEM, Components, Water)], None)
  }

  lemma WaterIsBest(want: Resource)
    requires IsImport(want)
    ensures Best(Learned().model, Bundle(115, 22, 22), 0, {}, Water, Candidate(THEM, want, Water))
  {
    var m, surplus, c := Learned().model, Bundle(115, 22, 22), Candidate(THEM, want, Water);
    forall o: Candidate | o.want == want && IsOption(m.Live(), surplus, {}, o)
      ensures KeyOf(m, surplus, 0, Water, o).AtMost(KeyOf(m, surplus, 0, Water, c))
    {
      if o.pay == Water { assert o == c; }
    }
  }

  lemma RankingFits()
    ensures Ranked(Learned().model, UrgencyAfterAccepts(Rich(), 3), Wants(), Bundle(115, 22, 22), 0, {}, Water, Chosen().candidates)
  {
    var u, cs := UrgencyAfterAccepts(Rich(), 3), Chosen().candidates;
    LevelsAreCalm();
    WaterIsBest(Food);
    WaterIsBest(Components);
    hide UrgencyAfterAccepts, Best;
    assert cs[0].want == Food && cs[1].want == Components;
    assert Serves(cs, Food) && Serves(cs, Components);
    assert RanksBefore(u, Wants(), cs, 0, 1);
  }

  lemma ChosenFits()
    ensures ChoicesFit(Rich(), Learned(), 3, Chosen())
  {
    var ch := Chosen();
    NoticePublished();
    LotGiven(ch.picks);
    RankingFits();
    RankedFor(ch);
    assert Usable(Rich(), 3, ch) by {
      hide AdStage, WantedAt;
    }
    hide PicksFit, CandidatesFit, Usable, KeepOffers, PullStage, ExcessAt, ExcessStage, ProposeStage, ReliefPass, DeferredStage,
         CanAid, Ranked, AdStage, WantedAt;
    TradePlanned(ch);
    NothingAfterTrade(Food, None);
  }

  // ---- the economy's answer ----------------------------------------------------------------------------------

  lemma DecisionIsReal()
    ensures MadeFrom(Rich(), Pleading(), Beginnings(STOCK)) && MayTrade(Learned(), FirstLook())
  {
    WorldShown();
    TheyDiffer();
    MemoryIs();
    hide Inv, Memory.Observed, ObservationFor;
  }

  lemma OneLivePost()
    ensures OpenAfter(Rich(), Pleading(), [Lot(), Notice()]) == 1
    ensures IsLivePost(Pleading(), Ask(Food)) && IsLivePost(Pleading(), Ask(Components))
  {
    NothingOpen();
    assert [Lot(), Notice()][..1] == [Lot()] && [Lot()][..0] == [];
    assert Pulls([Lot()]) == 0 && LivePosts(Pleading(), [Lot()]) == 1;
  }

  lemma ThirdIsRefused(c: Context, w: World, f: Founding, x: Step, y: Step, z: Step)
    requires MadeFrom(c, w, f) && Planned(c, [x, y, z]) && w.rules.commandsPerTick == 3
    requires IsLivePost(w, z) && OpenAfter(c, w, [x, y]) >= c.s.rules.maxOpenOffers
    ensures var actions := Actions([x, y, z]);
            Try(Batch(w, c.s.self, actions[..2]), c.s.self, actions[2]).1.code == LimitReached
  {
    hide MadeFrom, Planned, Batch, Try, OpenAfter, IsLivePost;
    assert [x, y, z][..2] == [x, y];
    LimitExactly(c, w, f, [x, y, z], 2);
  }

  lemma LastIsRefused(want: Resource)
    requires IsImport(want) && Planned(Rich(), [Lot(), Notice(), Ask(want)])
    ensures var actions := Actions([Lot(), Notice(), Ask(want)]);
            Try(Batch(Pleading(), US, actions[..2]), US, actions[2]).1.code == LimitReached
  {
    DecisionIsReal();
    OneLivePost();
    hide MadeFrom, Planned, Batch, Try, OpenAfter, IsLivePost, MayTrade, Actions;
    ThirdIsRefused(Rich(), Pleading(), Beginnings(STOCK), Lot(), Notice(), Ask(want));
  }

  /** The other planet advertises for water and we, at our first snapshot and with an empty
      memory, decide. Whatever the decision leaves open, it plans one post too many, and the
      economy refuses the last command with the limit. */
  lemma CapCanBeOverrun()
    ensures var w := AfterTheirs(STOCK, Plea());
            && US in w.stations
            && var s := ObservationFor(w, US, 1, Running, []);
            var c := ContextFor(Blank(), s, []);
            var n := Refreshed(Blank(), s, c.opening);
            && MadeFrom(c, w, Beginnings(STOCK)) && MayTrade(n, s)
            && ChoicesFit(c, n, BudgetFor(s, None), Chosen())
            && forall ch :: ChoicesFit(c, n, BudgetFor(s, None), ch) ==>
                 var actions := Actions(PlanOf(c, BudgetFor(s, None), ch).steps);
                 |actions| == 3 && Try(Batch(w, US, actions[..2]), US, actions[2]).1.code == LimitReached
  {
    WorldShown();
    MemoryIs();
    DecisionIsReal();
    ChosenFits();
    hide AfterTheirs, Memory.Observed, MadeFrom, ContextFor, Refreshed, ObservationFor, PlanOf, Batch, Try, Inv, MayTrade, Usable, PicksFit,
         CandidatesFit, GiftFits;
    forall ch | ChoicesFit(Rich(), Learned(), 3, ch)
      ensures var actions := Actions(PlanOf(Rich(), 3, ch).steps);
              |actions| == 3 && Try(Batch(Pleading(), US, actions[..2]), US, actions[2]).1.code == LimitReached
    {
      PlanKnown(ch);
      PlanIsJustified(Rich(), Learned(), 3, ch);
      LastIsRefused(ch.candidates[0].want);
    }
  }
}
