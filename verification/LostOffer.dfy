/** An offer worth taking can be lost: a run in which the only command is kept back from a gift
    that expires on the next tick, and nothing is planned instead. */
module LostOffer {
  import opened Domain
  import opened Stations
  import opened Counterparties
  import opened Memory
  import opened Reserves
  import opened Altruism
  import opened Targeting
  import opened Engine
  import opened EngineInvariant
  import opened EngineRuns
  import opened Commitments
  import opened Planner
  import opened PlannerProof
  import opened Deciding
  import opened Contract
  import opened Examples

  // ---- the world: we lack nothing, and the other planet gives us food until the next tick --------------

  const STOCK: Bundle := Bundle(40, 100, 100)

  function Present(): Action { MakeOffer(US, Bundle(0, 5, 0), Bundle.Zero(), 1) }

  function Parcel(): Offer { Offer(OfferId(0), THEM, US, Bundle(0, 5, 0), Bundle.Zero(), 0, 0, 1, Open, None, None) }

  function Generous(): World { Start(STOCK).(offers := [Parcel()], nextId := 1, counts := map[THEM := 1]) }

  function FirstLook(): Snapshot {
    Snapshot("run", 1, 0, 0, Running, US, Terms(), [US, THEM], Ours(STOCK).Observe(), [Parcel()], [], [], [])
  }

  /** What the first decision is made from, and the memory it is made with. */
  function Content(): Context { Context(FirstLook(), Bundle(11, 15, 15), STOCK, {THEM}) }

  function Learned(): Notes {
    Notes(Model(map[THEM := Unknown().(everActive := true)], {}), [], [], 0, map[], Bundle(8, 12, 12), {}, -1)
  }

  function Listening(): Notes { Learned().(stored := Bundle.Zero()) }

  lemma TheyDiffer()
    ensures US != THEM
  {
    assert US.name[2] != THEM.name[2];
  }

  lemma WorldShown()
    ensures AfterTheirs(STOCK, Present()) == Generous() && Inv(Generous(), Beginnings(STOCK))
    ensures US in Generous().stations && ObservationFor(Generous(), US, 1, Running, []) == FirstLook()
  {
    AfterTheirsIs(STOCK, Present());
    TheyDiffer();
    assert OpenCount([], THEM) == 0;
    assert Precheck(Start(STOCK), THEM, Present()).None?;
    assert [Parcel()][..0] == [];
  }

  lemma ModelHeard()
    ensures Updated(Blank().model, FirstLook()) == Learned().model
  {
    TheyDiffer();
    var m := Model(map[THEM := Unknown()], {});
    assert [US, THEM][..1] == [US] && [US][..0] == [] && [Parcel()][..0] == [];
    assert WithDirectory(Blank().model, US, [US]) == Blank().model;
    assert WithDirectory(Blank().model, US, [US, THEM]) == m;
    assert WithAds(m, map[], 0) == m;
    assert WithOffers(m, US, [Parcel()]) == OfferSeen(m, US, Parcel());
  }

  lemma MemoryHeard()
    ensures Memory.Observed(Blank(), FirstLook()) == Listening()
  {
    ModelHeard();
    hide Updated;
  }

  lemma ReserveHeard()
    ensures ReserveOf(Terms(), FirstLook().me, Listening(), STOCK) == Bundle(11, 15, 15)
    ensures StoredOf(Terms(), FirstLook().me, Listening(), STOCK) == Bundle(8, 12, 12)
  {
    assert MedianRoundTrip(Listening()).None? && LowestProduction(Listening()).None?;
    assert forall r :: Buffer(r, Terms(), FirstLook().me, Listening()) == 3;
  }

  lemma MemoryIs()
    ensures ContextFor(Blank(), FirstLook(), []) == Content() && Refreshed(Blank(), FirstLook(), STOCK) == Learned()
  {
    MemoryHeard();
    ReserveHeard();
    TheyDiffer();
    assert [Parcel()][..0] == [];
    assert Available(FirstLook(), []) == STOCK;
    assert Listening().model.Live() == {THEM};
    hide Memory.Observed, ReserveOf, StoredOf, Available;
  }

  lemma DecisionIsReal()
    ensures MadeFrom(Content(), Generous(), Beginnings(STOCK)) && MayTrade(Learned(), FirstLook())
  {
    WorldShown();
    TheyDiffer();
    MemoryIs();
    hide Inv, Memory.Observed, ObservationFor;
  }

  // ---- the decision -----------------------------------------------------------------------------------------

  lemma OffersSeen()
    ensures Content().s.IncomingOpen() == [Parcel()] && Content().s.OutgoingOpen() == [] && Content().Outgoing() == 0
    ensures Parcel().HasParty(US) && Parcel().Pays(US) == Bundle.Zero() && Parcel().Receives(US) == Bundle(0, 5, 0)
    ensures Balance(Content(), []) == STOCK
  {
    TheyDiffer();
    assert [Parcel()][..0] == [];
  }

  lemma GiftIsWelcome()
    ensures Parcel().HasParty(US) && Acceptable(Content(), STOCK, Parcel())
  {
    OffersSeen();
    hide KeepOffers;
  }

  lemma NothingToChase()
    ensures ScarceImportToChase(Content()) == None
  {
    OffersSeen();
    hide KeepOffers, Balance;
  }

  lemma GiftIsHeldBack()
    ensures AcceptStage(Content(), 1) == Draft([], 1, [Parcel()]) && PullStage(Content(), 1) == Draft([], 1, [Parcel()])
    ensures ExcessAt(Content(), 1) == Bundle.Zero() && DeficitAfterAccepts(Content(), 1) == Bundle.Zero()
  {
    var c := Content();
    OffersSeen();
    GiftIsWelcome();
    NothingToChase();
    hide Acceptable, ScarceImportToChase, KeepOffers, Balance;
    assert [Parcel()][..0] == [] && [] + [Parcel()] == [Parcel()];
    assert AcceptPass(c, Draft([], 1, []), None, []) == Draft([], 1, []);
  }

  lemma NothingOverCap(c: Context, n: Notes, d: Draft, order: seq<Resource>, picks: seq<Option<StationId>>)
    requires |picks| <= |order|
    ensures PicksFit(c, n, d, Bundle.Zero(), order, picks) <==> picks == []
  {
    assert forall z, r :: !CanGive(c, z, Bundle.Zero(), r);
    hide CanGive, ExcessPass, Picked;
    if picks != [] {
      assert !PickFits(c, n, d, Bundle.Zero(), order, picks, 0);
    }
  }

  lemma NoPicks(picks: seq<Option<StationId>>)
    requires |picks| <= 3
    ensures var c := Content();
            PicksFit(c, Learned(), PullStage(c, 1), ExcessAt(c, 1), ExcessOrder(ExcessAt(c, 1)), picks) <==> picks == []
    ensures ExcessStage(Content(), 1, []) == Draft([], 1, [Parcel()])
  {
    GiftIsHeldBack();
    hide PullStage, ExcessAt, PicksFit;
    NothingOverCap(Content(), Learned(), Draft([], 1, [Parcel()]), ExcessOrder(Bundle.Zero()), picks);
  }

  lemma NothingWanted()
    ensures WantedOf(Content(), STOCK, Bundle.Zero()) == map[]
  {
    assert forall r :: WantedQuantity(Content(), STOCK, Bundle.Zero(), r) == 0;
  }

  lemma NothingAdvertised()
    ensures AdStage(Content(), 1, []) == Draft([], 1, [Parcel()]) && WantedAt(Content(), 1, []) == map[]
  {
    OffersSeen();
    GiftIsHeldBack();
    NoPicks([]);
    NothingWanted();
    assert ComfortablySupplied(STOCK) && Content().s.OwnAdvertisement() == None;
    hide PullStage, ExcessAt, ExcessStage, AcceptStage, WantedOf, Balance, DeficitAfterAccepts, FirstActiveAd, PicksFit, KeepOffers,
         ComfortablySupplied, UrgencyAfterAccepts;
  }

  lemma SecondLookIsIdle()
    ensures var d := Draft([], 1, [Parcel()]);
            AllOurs(Content(), d.deferred) && DeferredStage(Content(), d) == d
  {
    var c := Content();
    OffersSeen();
    GiftIsWelcome();
    hide Acceptable, KeepOffers, Balance;
    assert [Parcel()][..0] == [] && [] + [Parcel()] == [Parcel()];
    assert AcceptPass(c, Draft([], 1, []), None, []) == Draft([], 1, []);
  }

  lemma NobodyToAid(n: Notes, surplus: Bundle, u: Urgencies, gift: Option<Altruism.Gift>)
    requires n.model == Learned().model
    ensures Scanned(n, surplus, u, 0, gift) <==> gift == None
  {
  }

  lemma StaysIdle(ch: Choices)
    requires Usable(Content(), 1, ch) && ch.picks == [] && ch.candidates == []
    ensures ProposeStage(Content(), 1, ch) == LateStage(Content(), 1, ch) == Draft([], 1, [Parcel()])
    ensures GiftFits(Content(), Learned(), 1, ch) <==> ch.gift == None
    ensures ch.gift == None ==> PlanOf(Content(), 1, ch) == Draft([], 1, [Parcel()])
  {
    NothingAdvertised();
    SecondLookIsIdle();
    hide AdStage, WantedAt, UrgencyAfterAccepts, DeferredStage, KeepOffers, Balance, CanAid, Scanned;
    var c, late := Content(), LateStage(Content(), 1, ch);
    assert late == Draft([], 1, [Parcel()]);
    NobodyToAid(Learned().(gifts := GiftLog(Learned().gifts, late.steps, 0)), Balance(c, late.steps).Monus(c.reserve), UrgencyForAid(c, 1, ch), ch.gift);
  }

  lemma NoneWanted(cs: seq<Candidate>)
    ensures AllWanted(map[], cs) <==> cs == []
  {
    if cs != [] { assert cs[0] in cs; }
  }

  /** Whatever the decision leaves open, it plans nothing. */
  lemma PlanIsEmpty(ch: Choices)
    requires ChoicesFit(Content(), Learned(), 1, ch)
    ensures PlanOf(Content(), 1, ch).steps == []
  {
    NoPicks(ch.picks);
    NothingAdvertised();
    NoneWanted(ch.candidates);
    hide PicksFit, CandidatesFit, GiftFits, PullStage, ExcessAt, ProposeStage, WantedAt, AdStage;
    StaysIdle(ch);
  }

  lemma IdleFits()
    ensures ChoicesFit(Content(), Learned(), 1, Choices([], [], None))
  {
    NoPicks([]);
    NothingAdvertised();
    OffersSeen();
    assert CandidatesFit(Content(), Learned(), 1, Choices([], [], None)) by {
      hide AdStage, WantedAt, UrgencyAfterAccepts, Balance, KeepOffers, PicksFit;
    }
    hide PicksFit, CandidatesFit, GiftFits, PullStage, ExcessAt, ProposeStage, WantedAt, AdStage, PlanOf, LateStage, KeepOffers;
    StaysIdle(Choices([], [], None));
  }

  lemma GiftCouldBeTaken()
    ensures Try(Generous(), US, Accept(Parcel().id)).1.code == Ok
  {
    WorldShown();
    TheyDiffer();
    hide Inv;
    assert Sound(Generous());
  }

  /** At our first snapshot, with an empty memory and one command to spend, an acceptable gift
      that the economy would let us take is not taken, and nothing else is planned. */
  lemma AcceptableOfferIsLost()
    ensures var w := AfterTheirs(STOCK, Present());
            && US in w.stations
            && var s := ObservationFor(w, US, 1, Running, []);
            var c := ContextFor(Blank(), s, []);
            var n := Refreshed(Blank(), s, c.opening);
            && MadeFrom(c, w, Beginnings(STOCK)) && MayTrade(n, s)
            && s.IncomingOpen() == [Parcel()] && Parcel().HasParty(US) && Acceptable(c, c.opening, Parcel())
            && Try(w, US, Accept(Parcel().id)).1.code == Ok
            && ChoicesFit(c, n, BudgetFor(s, Some(1)), Choices([], [], None))
            && forall ch :: ChoicesFit(c, n, BudgetFor(s, Some(1)), ch) ==> PlanOf(c, BudgetFor(s, Some(1)), ch).steps == []
  {
    WorldShown();
    MemoryIs();
    DecisionIsReal();
    OffersSeen();
    GiftIsWelcome();
    GiftCouldBeTaken();
    IdleFits();
    hide AfterTheirs, Memory.Observed, MadeFrom, ContextFor, Refreshed, ObservationFor, PlanOf, Try, Inv, MayTrade, Usable, PicksFit,
         CandidatesFit, GiftFits, Acceptable, KeepOffers;
    forall ch | ChoicesFit(Content(), Learned(), 1, ch) ensures PlanOf(Content(), 1, ch).steps == [] {
      PlanIsEmpty(ch);
    }
  }
}
