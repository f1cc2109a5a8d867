/** What commands and ticks do to the world, said of the world alone. */
module Effects {
  import opened Domain
  import opened Stations
  import opened Engine
  import opened EngineInvariant
  import opened EngineRuns

  // ---- when a command succeeds ------------------------------------------------------------------

  /** An unfailed station with commands left, before the run's end. */
  predicate MayCommand(w: World, s: StationId)
    requires s in w.stations
  {
    !w.stations[s].failed && w.tick < w.rules.durationTicks && CountOf(w.counts, s) < w.rules.commandsPerTick
  }

  predicate InTime(w: World, expires: int, ttl: nat) {
    w.tick < expires && expires <= w.tick + ttl && expires <= w.rules.durationTicks
  }

  predicate Covers(stock: Bundle, b: Bundle) {
    stock.water >= b.water && stock.food >= b.food && stock.components >= b.components
  }

  predicate Empty(b: Bundle) { b.water == 0 && b.food == 0 && b.components == 0 }

  predicate IsNamed(id: ObjectId, o: Offer) { o.id == id }

  predicate MayPost(w: World, s: StationId, recipient: StationId, give: Bundle, expires: int)
    requires s in w.stations
  {
    && InTime(w, expires, w.rules.maxOfferTtl)
    && recipient in w.stations && recipient != s && !Empty(give)
    && !w.stations[recipient].failed && Covers(w.stations[s].inventory, give)
    && OpenCount(w.offers, s) < w.rules.maxOpenOffers
  }

  predicate MaySettle(w: World, s: StationId, o: Offer) {
    && o.recipient == s && o.status == Open
    && o.proposer in w.stations && Covers(w.stations[o.proposer].inventory, o.give)
    && o.recipient in w.stations && Covers(w.stations[o.recipient].inventory, o.receive)
  }

  ghost predicate Succeeds(w: World, s: StationId, a: Action)
    requires s in w.stations
  {
    && MayCommand(w, s)
    && match a
       case Advertise(_, _, expires) => InTime(w, expires, w.rules.maxPublicationTtl)
       case MakeOffer(recipient, give, _, expires) => MayPost(w, s, recipient, give, expires)
       case Accept(id) => exists o :: o in w.offers && IsNamed(id, o) && MaySettle(w, s, o)
       case Withdraw(id) =>
         || (exists ad :: ad in w.ads && ad.id == id && ad.station == s)
         || (exists o :: o in w.offers && IsNamed(id, o) && o.proposer == s && o.status == Open)
       case Sync => false
  }

  lemma PrecheckIsMayCommand(w: World, s: StationId, a: Action)
    requires s in w.stations
    ensures a.Accept? || a.Withdraw? || a.Sync? ==> (Precheck(w, s, a).None? <==> MayCommand(w, s))
    ensures a.Advertise? ==> (Precheck(w, s, a).None? <==> MayCommand(w, s) && InTime(w, a.expires, w.rules.maxPublicationTtl))
    ensures a.MakeOffer? ==> (Precheck(w, s, a).None? <==> MayCommand(w, s) && MayPost(w, s, a.recipient, a.give, a.expires))
  {
  }

  lemma FoundOffer(w: World, f: Founding, id: ObjectId)
    requires Inv(w, f)
    ensures FindOffer(w.offers, id).None? <==> forall o :: o in w.offers ==> !IsNamed(id, o)
    ensures forall o :: o in w.offers && IsNamed(id, o) ==> FindOffer(w.offers, id) == Some(o) && FindAd(w.ads, id).None?
  {
    forall o | o in w.offers && IsNamed(id, o) ensures FindOffer(w.offers, id) == Some(o) && FindAd(w.ads, id).None? {
      FoundById(w, f, o);
    }
  }

  lemma FoundAd(w: World, f: Founding, id: ObjectId)
    requires Inv(w, f)
    ensures forall ad :: ad in w.ads && ad.id == id ==> FindAd(w.ads, id) == Some(ad)
  {
    forall ad | ad in w.ads && ad.id == id ensures FindAd(w.ads, id) == Some(ad) {
      AdFoundById(w, f, ad);
    }
  }

  lemma StandingParties(w: World, f: Founding, o: Offer)
    requires Inv(w, f) && o in w.offers
    ensures o.proposer in w.stations && o.recipient in w.stations && o.proposer != o.recipient
    ensures o.status == Open ==> !o.IsExpiredAt(w.tick) && !w.stations[o.proposer].failed && !w.stations[o.recipient].failed
  {
    assert Standing(o, w.stations, w.tick, w.rules.durationTicks);
  }

  lemma AcceptSucceeds(w: World, f: Founding, s: StationId, id: ObjectId)
    requires Inv(w, f) && s in w.stations
    ensures Execute(w, s, Accept(id)).1.code == Ok <==> Succeeds(w, s, Accept(id))
  {
    PrecheckIsMayCommand(w, s, Accept(id));
    FoundOffer(w, f, id);
    var found := FindOffer(w.offers, id);
    if found.Some? { StandingParties(w, f, found.value); }
    hide Inv, Precheck, FindOffer, SettledOffer;
  }

  lemma WithdrawSucceeds(w: World, f: Founding, s: StationId, id: ObjectId)
    requires Inv(w, f) && s in w.stations
    ensures Execute(w, s, Withdraw(id)).1.code == Ok <==> Succeeds(w, s, Withdraw(id))
  {
    PrecheckIsMayCommand(w, s, Withdraw(id));
    FoundOffer(w, f, id);
    FoundAd(w, f, id);
    hide Inv, Precheck, FindOffer, FindAd, CloseById, KeepAds;
  }

  /** Which commands succeed. */
  lemma SucceedsExactly(w: World, f: Founding, s: StationId, a: Action)
    requires Inv(w, f) && s in w.stations
    ensures Execute(w, s, a).1.code == Ok <==> Succeeds(w, s, a)
  {
    PrecheckIsMayCommand(w, s, a);
    match a
    case Accept(id) => AcceptSucceeds(w, f, s, id);
    case Withdraw(id) => WithdrawSucceeds(w, f, s, id);
    case _ =>
  }

  // ---- what a refused command is answered ------------------------------------------------------------

  lemma SenderAnswers(w: World, s: StationId, a: Action)
    requires Sound(w) && s in w.stations
    ensures var me, code := w.stations[s], Execute(w, s, a).1.code;
            && (me.failed ==> code == StationFailed)
            && (!me.failed && w.tick >= w.rules.durationTicks ==> code == RunNotRunning)
            && (!me.failed && w.tick < w.rules.durationTicks && CountOf(w.counts, s) >= w.rules.commandsPerTick ==> code == RateLimited)
            && (MayCommand(w, s) && a.Advertise? && !InTime(w, a.expires, w.rules.maxPublicationTtl) ==> code == InvalidArgument)
            && (MayCommand(w, s) && a.Sync? ==> code == InvalidArgument)
  {
  }

  lemma PostAnswers(w: World, s: StationId, a: Action)
    requires Sound(w) && s in w.stations && a.MakeOffer? && MayCommand(w, s)
    ensures var p, code := a.recipient, Execute(w, s, a).1.code;
            if !InTime(w, a.expires, w.rules.maxOfferTtl) || p !in w.stations || p == s || Empty(a.give) then code == InvalidArgument
            else if w.stations[p].failed then code == StationFailed
            else if !Covers(w.stations[s].inventory, a.give) then code == InsufficientResources
            else if OpenCount(w.offers, s) >= w.rules.maxOpenOffers then code == LimitReached
            else code == Ok
  {
    hide Tally;
  }

  lemma WithdrawAnswers(w: World, f: Founding, s: StationId, id: ObjectId)
    requires Inv(w, f) && s in w.stations && MayCommand(w, s)
    ensures var code := Execute(w, s, Withdraw(id)).1.code;
            && (forall ad :: ad in w.ads && ad.id == id ==> code == if ad.station == s then Ok else InvalidArgument)
            && (forall o :: o in w.offers && IsNamed(id, o) ==>
                  code == if o.proposer != s then InvalidArgument else if o.status != Open then NotOpen else Ok)
            && ((forall ad :: ad in w.ads ==> ad.id != id) && (forall o :: o in w.offers ==> !IsNamed(id, o)) ==> code == NotFound)
  {
    PrecheckIsMayCommand(w, s, Withdraw(id));
    FoundOffer(w, f, id);
    FoundAd(w, f, id);
    hide Inv, Precheck, FindOffer, CloseById, KeepAds;
  }

  lemma AcceptAnswers(w: World, f: Founding, s: StationId, id: ObjectId)
    requires Inv(w, f) && s in w.stations && MayCommand(w, s)
    ensures var code := Execute(w, s, Accept(id)).1.code;
            && (forall o :: o in w.offers && IsNamed(id, o) ==>
                  code == if o.recipient != s then InvalidArgument else if o.status != Open then NotOpen
                          else if !MaySettle(w, s, o) then InsufficientResources else Ok)
            && ((forall o :: o in w.offers ==> !IsNamed(id, o)) ==> code == NotFound)
  {
    PrecheckIsMayCommand(w, s, Accept(id));
    FoundOffer(w, f, id);
    var found := FindOffer(w.offers, id);
    if found.Some? { StandingParties(w, f, found.value); }
    hide Inv, Precheck, FindOffer, SettledOffer;
  }

  // ---- what a command that succeeds does -----------------------------------------------------------

  /** Our only advertisement, saying what we asked; everybody else's untouched. */
  lemma AdvertiseEffect(w: World, s: StationId, a: Action)
    requires Sound(w) && s in w.stations && a.Advertise? && Execute(w, s, a).1.code == Ok
    ensures var v := Execute(w, s, a).0;
            && v == w.(ads := v.ads, nextId := v.nextId, counts := v.counts)
            && (exists ad :: ad in v.ads && ad.station == s)
            && (forall ad :: ad in v.ads && ad.station == s ==>
                  ad.selling == a.selling && ad.seeking == a.seeking && ad.expires == a.expires && ad.status == Active
                  && ad.createdTick == w.tick && Execute(w, s, a).1.target == Some(ad.id))
            && (forall ad: Advertisement :: ad.station != s ==> (ad in v.ads <==> ad in w.ads))
  {
    var v := Execute(w, s, a).0;
    var ad := AdFor(Counted(w, s), s, a);
    assert v.ads[|v.ads| - 1] == ad;
  }

  /** One more open offer on the terms asked, and no stock moves. */
  lemma PostEffect(w: World, s: StationId, a: Action)
    requires Sound(w) && s in w.stations && a.MakeOffer? && Execute(w, s, a).1.code == Ok
    ensures var v := Execute(w, s, a).0;
            && v == w.(offers := v.offers, nextId := v.nextId, counts := v.counts)
            && |v.offers| == |w.offers| + 1 && v.offers[..|w.offers|] == w.offers
            && var o := v.offers[|w.offers|];
               && o.proposer == s && o.recipient == a.recipient && o.give == a.give && o.receive == a.receive
               && o.expires == a.expires && o.status == Open && o.createdTick == w.tick
               && Execute(w, s, a).1.target == Some(o.id)
  {
    hide Tally;
  }

  /** Both bundles change hands, in full, and nobody else's stock moves. */
  lemma AcceptEffect(w: World, f: Founding, s: StationId, id: ObjectId, o: Offer)
    requires Inv(w, f) && s in w.stations && Execute(w, s, Accept(id)).1.code == Ok && o in w.offers && IsNamed(id, o)
    ensures var v := Execute(w, s, Accept(id)).0;
            && v == w.(stations := v.stations, offers := v.offers, transactions := v.transactions, nextId := v.nextId, counts := v.counts)
            && s == o.recipient && o.proposer in w.stations && v.stations.Keys == w.stations.Keys
            && (forall r ::
                  && v.stations[o.proposer].inventory.Get(r) == w.stations[o.proposer].inventory.Get(r) - o.give.Get(r) + o.receive.Get(r)
                  && v.stations[s].inventory.Get(r) == w.stations[s].inventory.Get(r) + o.give.Get(r) - o.receive.Get(r))
            && (forall p :: p in w.stations ==>
                  v.stations[p] == (if p == s || p == o.proposer
                                    then w.stations[p].(inventory := v.stations[p].inventory, imported := v.stations[p].imported,
                                                        exported := v.stations[p].exported)
                                    else w.stations[p]))
            && |v.transactions| == |w.transactions| + 1 && v.transactions[..|w.transactions|] == w.transactions
            && var t := v.transactions[|w.transactions|];
               && t.offer == id && t.proposer == o.proposer && t.recipient == s && t.give == o.give && t.receive == o.receive
               && t.settledTick == w.tick && Execute(w, s, Accept(id)).1.transaction == Some(t.id)
  {
    FoundById(w, f, o);
    StandingParties(w, f, o);
    assert Sound(w);
    hide Inv, FindOffer, CloseById;
    assert Execute(w, s, Accept(id)) == AcceptedOffer(Counted(w, s), s, id);
  }

  /** What was named is gone or withdrawn, and nothing but that. */
  lemma WithdrawEffect(w: World, f: Founding, s: StationId, id: ObjectId)
    requires Inv(w, f) && s in w.stations && Execute(w, s, Withdraw(id)).1.code == Ok
    ensures var v := Execute(w, s, Withdraw(id)).0;
            && v == w.(ads := v.ads, offers := v.offers, counts := v.counts)
            && (forall ad: Advertisement :: ad in v.ads <==> ad in w.ads && ad.id != id)
            && (forall o :: o in v.offers && IsNamed(id, o) ==> o.status == Withdrawn && o.closedTick == Some(w.tick))
            && ((exists ad :: ad in w.ads && ad.id == id) ==> v.offers == w.offers)
  {
    OffersAfterWithdrawal(w, f, s, id);
    WithdrawSucceeds(w, f, s, id);
    AdsAfterWithdrawal(w, f, s, id);
    NamedOffersClose(w, id);
    hide Inv, Execute, CloseById, MayCommand;
  }

  lemma NamedOffersClose(w: World, id: ObjectId)
    ensures forall o :: o in CloseById(w.offers, id, Withdrawn, w.tick, None) && IsNamed(id, o) ==>
              o.status == Withdrawn && o.closedTick == Some(w.tick)
  {
  }

  /** What a withdrawal that succeeds does to the rest of the world. */
  lemma AdsAfterWithdrawal(w: World, f: Founding, s: StationId, id: ObjectId)
    requires Inv(w, f) && s in w.stations && Execute(w, s, Withdraw(id)).1.code == Ok
    ensures var v := Execute(w, s, Withdraw(id)).0;
            && v == w.(ads := v.ads, offers := v.offers, counts := v.counts)
            && (forall ad: Advertisement :: ad in v.ads <==> ad in w.ads && ad.id != id)
            && ((exists ad :: ad in w.ads && ad.id == id) ==> v.offers == w.offers && forall o :: o in w.offers ==> !IsNamed(id, o))
  {
    PrecheckIsMayCommand(w, s, Withdraw(id));
    FoundOffer(w, f, id);
    FoundAd(w, f, id);
    AdIdsTell(w, f, id);
    hide Inv, Precheck, FindOffer, CloseById;
  }

  lemma AdIdsTell(w: World, f: Founding, id: ObjectId)
    requires Inv(w, f)
    ensures forall a, b :: a in w.ads && b in w.ads && a.id == id && b.id == id ==> a == b
  {
    forall a, b | a in w.ads && b in w.ads && a.id == id && b.id == id ensures a == b {
      AdFoundById(w, f, a);
      AdFoundById(w, f, b);
    }
  }

  // ---- who may close or clear what -------------------------------------------------------------------

  /** Nobody clears another station's advertisement. */
  lemma OthersAdsStay(w: World, s: StationId, a: Action, ad: Advertisement)
    requires Sound(w) && s in w.stations && ad in w.ads && ad.station != s
    ensures ad in Execute(w, s, a).0.ads
  {
    hide CloseById, Tally, AcceptedOffer;
    if a.Accept? { AcceptKeepsAds(Counted(w, s), s, a.offer); }
  }

  lemma AcceptKeepsAds(w: World, s: StationId, id: ObjectId)
    requires Sound(w)
    ensures AcceptedOffer(w, s, id).0.ads == w.ads
  {
  }

  /** A command by `s` withdraws an offer if and only if `s` proposed it and asks for that by id;
      settles it if and only if `s` is its recipient, asks for that and both can pay; and changes
      no other offer. */
  ghost predicate ChangedByOwners(w: World, v: World, s: StationId, a: Action, i: nat)
    requires s in w.stations && i < |w.offers| <= |v.offers|
  {
    var o, z := w.offers[i], v.offers[i];
    if o.status != Open then z == o
    else
      && (z.status == Withdrawn <==> s == o.proposer && MayCommand(w, s) && a == Withdraw(o.id))
      && (z.status == Accepted <==> MayCommand(w, s) && a == Accept(o.id) && MaySettle(w, s, o))
      && (z.status != Withdrawn && z.status != Accepted ==> z == o)
  }

  /** What a withdrawal does to the offer list. */
  lemma OffersAfterWithdrawal(w: World, f: Founding, s: StationId, id: ObjectId)
    requires Inv(w, f) && s in w.stations
    ensures var v := Execute(w, s, Withdraw(id)).0;
            && (!MayCommand(w, s) ==> v.offers == w.offers)
            && (MayCommand(w, s) ==>
                  v.offers == if (exists o :: o in w.offers && IsNamed(id, o) && o.proposer == s && o.status == Open)
                              then CloseById(w.offers, id, Withdrawn, w.tick, None) else w.offers)
  {
    PrecheckIsMayCommand(w, s, Withdraw(id));
    FoundOffer(w, f, id);
    hide Inv, Precheck, FindOffer, FindAd, KeepAds, CloseById;
  }

  /** What an accept does to the offer list. */
  lemma OffersAfterAccept(w: World, f: Founding, s: StationId, id: ObjectId)
    requires Inv(w, f) && s in w.stations
    ensures var v := Execute(w, s, Accept(id)).0;
            && (!MayCommand(w, s) ==> v.offers == w.offers)
            && (MayCommand(w, s) ==>
                  v.offers == if (exists o :: o in w.offers && IsNamed(id, o) && MaySettle(w, s, o))
                              then CloseById(w.offers, id, Accepted, w.tick, Some(TransactionId(w.nextId))) else w.offers)
  {
    PrecheckIsMayCommand(w, s, Accept(id));
    AcceptSucceeds(w, f, s, id);
    assert Sound(w);
    hide Inv, Precheck, MaySettle, AcceptedOffer, CloseById;
    if MayCommand(w, s) { AcceptCloses(Counted(w, s), s, id); }
  }

  lemma NamedOnce(w: World, f: Founding, i: nat)
    requires Inv(w, f) && i < |w.offers|
    ensures forall o :: o in w.offers && IsNamed(w.offers[i].id, o) ==> o == w.offers[i]
  {
    forall o | o in w.offers && IsNamed(w.offers[i].id, o) ensures o == w.offers[i] {
      OfferIdsUnique(w.offers, w.nextId, o, w.offers[i]);
    }
  }

  lemma NotNamed(w: World, i: nat, id: ObjectId, status: OfferStatus, transaction: Option<ObjectId>)
    requires i < |w.offers|
    ensures var after := CloseById(w.offers, id, status, w.tick, transaction);
            && |after| == |w.offers|
            && after[i] == if w.offers[i].id == id then Closed(w.offers[i], status, w.tick, transaction) else w.offers[i]
  {
  }

  lemma WithdrawChanges(w: World, f: Founding, s: StationId, id: ObjectId, i: nat)
    requires Inv(w, f) && s in w.stations && i < |w.offers|
    ensures var v := Execute(w, s, Withdraw(id)).0;
            |w.offers| <= |v.offers| && ChangedByOwners(w, v, s, Withdraw(id), i)
  {
    OffersAfterWithdrawal(w, f, s, id);
    NamedOnce(w, f, i);
    NotNamed(w, i, id, Withdrawn, None);
    hide Inv, Execute, CloseById, MayCommand;
    if w.offers[i].id == id { assert IsNamed(id, w.offers[i]); }
  }

  lemma AcceptChanges(w: World, f: Founding, s: StationId, id: ObjectId, i: nat)
    requires Inv(w, f) && s in w.stations && i < |w.offers|
    ensures var v := Execute(w, s, Accept(id)).0;
            |w.offers| <= |v.offers| && ChangedByOwners(w, v, s, Accept(id), i)
  {
    OffersAfterAccept(w, f, s, id);
    NamedOnce(w, f, i);
    NotNamed(w, i, id, Accepted, Some(TransactionId(w.nextId)));
    assert MaySettle(w, s, w.offers[i]) ==> w.offers[i].recipient == s && w.offers[i].status == Open;
    hide Inv, Execute, CloseById, MayCommand, MaySettle;
    if w.offers[i].id == id { assert IsNamed(id, w.offers[i]); }
  }

  lemma AcceptCloses(w: World, s: StationId, id: ObjectId)
    requires Sound(w)
    ensures AcceptedOffer(w, s, id).0.offers
         == if AcceptedOffer(w, s, id).1.code == Ok then CloseById(w.offers, id, Accepted, w.tick, Some(TransactionId(w.nextId))) else w.offers
  {
    hide CloseById;
  }

  lemma OnlyOwnersChange(w: World, f: Founding, s: StationId, a: Action, i: nat)
    requires Inv(w, f) && s in w.stations && i < |w.offers|
    ensures var v := Execute(w, s, a).0;
            |w.offers| <= |v.offers| && ChangedByOwners(w, v, s, a, i)
  {
    match a
    case Withdraw(id) => WithdrawChanges(w, f, s, id, i);
    case Accept(id) => AcceptChanges(w, f, s, id, i);
    case _ =>
  }

  /** Everything the command leaves as it was: other stations' ads, and every offer but one of its own. */
  ghost predicate LeavesOthers(w: World, v: World, s: StationId, a: Action)
    requires s in w.stations
  {
    && |w.offers| <= |v.offers|
    && (forall i {:trigger ChangedByOwners(w, v, s, a, i)} :: 0 <= i < |w.offers| ==> ChangedByOwners(w, v, s, a, i))
    && (forall ad :: ad in w.ads && ad.station != s ==> ad in v.ads)
  }

  lemma OthersAreLeft(w: World, f: Founding, s: StationId, a: Action)
    requires Inv(w, f) && s in w.stations
    ensures LeavesOthers(w, Execute(w, s, a).0, s, a)
  {
    var v := Execute(w, s, a).0;
    assert Sound(w);
    OffersOnlyGrow(w, f, s, a);
    hide Inv, Execute, ChangedByOwners;
    forall i | 0 <= i < |w.offers| ensures ChangedByOwners(w, v, s, a, i) {
      OnlyOwnersChange(w, f, s, a, i);
    }
    forall ad | ad in w.ads && ad.station != s ensures ad in v.ads {
      OthersAdsStay(w, s, a, ad);
    }
  }

  lemma OffersOnlyGrow(w: World, f: Founding, s: StationId, a: Action)
    requires Inv(w, f) && s in w.stations
    ensures |w.offers| <= |Execute(w, s, a).0.offers|
  {
    ExecuteEvolves(w, f, s, a);
  }

  // ---- what a tick does ----------------------------------------------------------------------------------

  /** What becomes of an offer when the tick turns to `now`. */
  predicate Turned(o: Offer, z: Offer, stations: map<StationId, Station>, now: nat) {
    if o.status != Open then z == o
    else if o.expires <= now then z == o.(status := Expired, closedTick := Some(now), transaction := None)
    else if HasFailed(stations, o.proposer) || HasFailed(stations, o.recipient) then
      z == o.(status := Withdrawn, closedTick := Some(now), transaction := None)
    else z == o
  }

  /** Every station settles once, the due and the failed are closed, everything else stands. */
  lemma TickEffect(w: World)
    ensures var v := Advance(w);
            && v == w.(tick := w.tick + 1, version := w.version + 1, counts := map[], stations := v.stations, offers := v.offers, ads := v.ads)
            && v.stations.Keys == w.stations.Keys
            && (forall s :: s in w.stations ==> v.stations[s] == Settled(w.stations[s], w.rules, w.tick + 1))
            && |v.offers| == |w.offers|
            && (forall i :: 0 <= i < |w.offers| ==> Turned(w.offers[i], v.offers[i], v.stations, w.tick + 1))
            && (forall ad: Advertisement :: ad in v.ads <==> ad in w.ads && ad.expires > w.tick + 1 && !HasFailed(v.stations, ad.station))
  {
    hide Settled;
  }

  // ---- what a station is shown -------------------------------------------------------------------------

  /** Its own books, the offers and trades it is party to and no others, every advertisement. */
  lemma ShownExactly(w: World, me: StationId, sequence: nat, phase: Phase, results: seq<CommandResult>)
    requires me in w.stations
    ensures var s, x := ObservationFor(w, me, sequence, phase, results), w.stations[me];
            && s.self == me && s.tick == w.tick && s.version == w.version && s.runId == w.runId && s.rules == w.rules
            && s.sequence == sequence && s.phase == phase && s.results == results
            && s.directory == w.roster && s.advertisements == w.ads
            && (forall o :: o in s.offers <==> o in w.offers && (o.proposer == me || o.recipient == me))
            && (forall t :: t in s.transactions <==> t in w.transactions && (t.proposer == me || t.recipient == me))
            && s.me.inventory == x.inventory && s.me.health == x.health && s.me.failed == x.failed
            && s.me.upkeep == x.upkeep && s.me.specialty == x.specialty && s.me.lastProduction == x.lastProduction
  {
  }

  // ---- over whole runs: every closing has its cause -----------------------------------------------------

  ghost predicate WithdrawnBy(w: World, events: seq<Event>, k: nat, o: Offer)
    requires k < |events|
  {
    || events[k] == Command(o.proposer, Withdraw(o.id))
    || (events[k].Tick? && var v := Run(w, events[..k + 1]); HasFailed(v.stations, o.proposer) || HasFailed(v.stations, o.recipient))
  }

  ghost predicate SettledBy(events: seq<Event>, k: nat, o: Offer)
    requires k < |events|
  {
    events[k] == Command(o.recipient, Accept(o.id))
  }

  ghost predicate ExpiredBy(w: World, events: seq<Event>, k: nat, o: Offer)
    requires k < |events|
  {
    events[k].Tick? && Run(w, events[..k + 1]).tick >= o.expires && o.closedTick == Some(Run(w, events[..k + 1]).tick)
  }

  /** An offer is withdrawn only by its proposer or for a failed party, settled only by its
      recipient, and expires only by the clock. */
  ghost predicate Caused(w: World, events: seq<Event>, o: Offer) {
    match o.status
    case Open => true
    case Withdrawn => exists k :: 0 <= k < |events| && WithdrawnBy(w, events, k, o)
    case Accepted => exists k :: 0 <= k < |events| && SettledBy(events, k, o)
    case Expired => exists k :: 0 <= k < |events| && ExpiredBy(w, events, k, o)
    case RunEnded => false
  }

  lemma CauseStays(w: World, events: seq<Event>, e: Event, o: Offer)
    requires Caused(w, events, o)
    ensures Caused(w, events + [e], o)
  {
    var more := events + [e];
    match o.status
    case Withdrawn =>
      var k :| 0 <= k < |events| && WithdrawnBy(w, events, k, o);
      assert more[..k + 1] == events[..k + 1];
      assert WithdrawnBy(w, more, k, o);
    case Accepted =>
      var k :| 0 <= k < |events| && SettledBy(events, k, o);
      assert SettledBy(more, k, o);
    case Expired =>
      var k :| 0 <= k < |events| && ExpiredBy(w, events, k, o);
      assert more[..k + 1] == events[..k + 1];
      assert ExpiredBy(w, more, k, o);
    case _ =>
  }

  lemma NewOffersOpen(w: World, f: Founding, e: Event)
    requires Inv(w, f)
    ensures forall i :: |w.offers| <= i < |Step(w, e).offers| ==> Step(w, e).offers[i].status == Open
  {
    match e
    case Command(s, a) =>
      if s in w.stations {
        hide Tally;
        if a.Accept? { AcceptCloses(Counted(w, s), s, a.offer); }
      }
    case Tick => TickEffect(w);
    case _ =>
  }

  lemma RunSnoc(w: World, events: seq<Event>, e: Event)
    ensures (events + [e])[..|events|] == events && (events + [e])[..|events| + 1] == events + [e]
    ensures Run(w, events + [e]) == Step(Run(w, events), e)
  {
    assert (events + [e])[..|events|] == events;
  }

  lemma CommandIsCause(w: World, f: Founding, events: seq<Event>, s: StationId, a: Action, i: nat)
    requires var before := Run(w, events);
             Inv(before, f) && s in before.stations && i < |before.offers| && before.offers[i].status == Open
    ensures var r := Run(w, events + [Command(s, a)]);
            i < |r.offers| && Caused(w, events + [Command(s, a)], r.offers[i])
  {
    var before, more := Run(w, events), events + [Command(s, a)];
    var after := Execute(before, s, a).0;
    RunSnoc(w, events, Command(s, a));
    OnlyOwnersChange(before, f, s, a, i);
    StepEvolves(before, f, Command(s, a));
    assert Step(before, Command(s, a)) == after;
    ClosedById(before, s, a, i, after);
    var z := after.offers[i];
    hide Inv, Run, Execute, Evolves, ChangedByOwners, HasFailed;
    assert z.status == Withdrawn ==> WithdrawnBy(w, more, |events|, z);
    assert z.status == Accepted ==> SettledBy(more, |events|, z);
  }

  lemma TickIsCause(w: World, events: seq<Event>, i: nat)
    requires var before := Run(w, events); i < |before.offers| && before.offers[i].status == Open
    ensures var r := Run(w, events + [Tick]);
            i < |r.offers| && Caused(w, events + [Tick], r.offers[i])
  {
    var before, more := Run(w, events), events + [Tick];
    var after := Advance(before);
    RunSnoc(w, events, Tick);
    TickEffect(before);
    var z := after.offers[i];
    assert Turned(before.offers[i], z, after.stations, before.tick + 1);
    hide Run, Advance;
    assert z.status == Withdrawn ==> WithdrawnBy(w, more, |events|, z);
    assert z.status == Expired ==> ExpiredBy(w, more, |events|, z);
  }

  lemma OthersCauseNothing(w: World, f: Founding, events: seq<Event>, e: Event, i: nat)
    requires var before := Run(w, events);
             && Inv(before, f) && i < |before.offers| && before.offers[i].status == Open
             && !e.Tick? && (e.Command? ==> e.station !in before.stations)
    ensures var r := Run(w, events + [e]);
            i < |r.offers| && Caused(w, events + [e], r.offers[i])
  {
    var before := Run(w, events);
    RunSnoc(w, events, e);
    if e.Ended? && IsFinished(before) { EndRunKeeps(before, f); }
    hide Inv, Run, EndRun;
    assert Step(before, e).offers == before.offers;
  }

  /** What one event does to an offer that stood before it. */
  lemma LastIsCause(w: World, f: Founding, events: seq<Event>, e: Event, i: nat)
    requires Inv(Run(w, events), f) && i < |Run(w, events).offers| && Run(w, events).offers[i].status == Open
    ensures i < |Run(w, events + [e]).offers| && Caused(w, events + [e], Run(w, events + [e]).offers[i])
  {
    hide Inv, Run, Caused;
    if e.Tick? {
      TickIsCause(w, events, i);
    } else if e.Command? && e.station in Run(w, events).stations {
      CommandIsCause(w, f, events, e.station, e.action, i);
    } else {
      OthersCauseNothing(w, f, events, e, i);
    }
  }

  lemma ClosedById(w: World, s: StationId, a: Action, i: nat, v: World)
    requires s in w.stations && i < |w.offers| <= |v.offers| && ChangedByOwners(w, v, s, a, i) && SameTerms(v.offers[i], w.offers[i])
    requires w.offers[i].status == Open
    ensures v.offers[i].status in {Open, Withdrawn, Accepted}
    ensures v.offers[i].status == Withdrawn ==> s == v.offers[i].proposer && a == Withdraw(v.offers[i].id)
    ensures v.offers[i].status == Accepted ==> s == v.offers[i].recipient && a == Accept(v.offers[i].id)
  {
  }

  /** In every state of every run from a fresh economy each closed offer has its cause. */
  lemma {:induction false} EveryClosingHasItsCause(w: World, f: Founding, events: seq<Event>)
    requires Fresh(w, f)
    ensures forall o :: o in Run(w, events).offers ==> Caused(w, events, o)
  {
    FreshIsKept(w, f);
    if events != [] {
      var n := |events| - 1;
      var front, e := events[..n], events[n];
      var before, after := Run(w, front), Run(w, events);
      assert events == front + [e];
      EveryClosingHasItsCause(w, f, front);
      RunKeeps(w, f, front);
      StepEvolves(before, f, e);
      NewOffersOpen(before, f, e);
      forall i | 0 <= i < |after.offers| ensures Caused(w, events, after.offers[i]) {
        if i < |before.offers| {
          if before.offers[i].status == Open {
            LastIsCause(w, f, front, e, i);
          } else {
            assert before.offers[i] in before.offers;
            CauseStays(w, front, e, before.offers[i]);
          }
        }
      }
    }
  }
}
