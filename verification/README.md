# Bazaar: the simulator, the client and what they promise each other

Planets trade three resources under a server's published rules. Every planet consumes all
three, makes one, and fails for good when its health runs out. There is no escrow: an open
offer promises stock that nothing reserves. This project models the four parts that decide
who may spend what, and proves what holds over every run.

- **The rule engine** (`Stations`, `Engine`, `EngineInvariant`, `EngineRuns`, `Effects`,
  `Economy`): production, upkeep, health, offers, atomic settlement, expiry and failure, as a
  mutable `SimulatedEconomy` proved against functions from one world to the next, with an
  invariant kept by every command and tick. `Effects` says what each command and tick does, to
  whom and when, of the world alone, and that every closed offer of a run has its cause.
- **Exactly-once commands and the client session** (`Server`, `Lifecycle`, `SendGate`,
  `Session`, `Commitments`, `InFlight`): stored results, the handshake, quotas and request
  ids, snapshot routing, the in-flight ledger and the loop's step (`TradingLoop`). `InFlight`
  lets sends, server steps, other players, ticks, duplicated and reordered snapshots and
  answers interleave freely, and ties each move of the client to the executor's methods.
- **The decision policy** (`Counterparties`, `Reputation`, `Memory`, `Reserves`, `Pricing`,
  `Acceptance`, `Advertising`, `Altruism`, `Targeting`, `Planner*`, `Deciding`): the seven
  planning stages that thread one command budget and one balance. Each stage is a loop proved equal to a fold
  over its input (`Planner`), and the folds are proved to add only justified steps
  (`PlannerSafety`, `PlannerStages`, `PlannerProof`). `Completeness` proves the converse on the
  finished batch: everything due is in it, in turn, and nothing else (`PlanParts` cuts the batch
  into its stages, `PolicyNumbers` says what each rule means in numbers). `Contract`,
  `OpenLimit` and `Turns` join planner and engine; `NoChurn` joins two decisions of one tick; `OfferCap` and `LostOffer` are
  counterexamples, each a run of the economy of `Examples` followed by a decision.
- **Worlds** (`BalancedWorlds`, `Scoring`): balanced production schedules and scoring.

`Domain` holds the shared values and `Arithmetic` the facts about products and quotients.

How to read the planner: a `Step` is an action with what it was chosen for, `Justified` says
what a step may rely on, given only the steps before it, and `Planned` says that of every step.
What exact ties and library sorting leave open is a `Choices` value that
`ChoicesFit` ties to the memory.

Where the code and its comments disagree, the model follows the code:

- Offers held back in their last usable tick are meant to be taken when nothing better used
  the command, but the second look holds them back again
  (bazaar_client/policy/decide.py:174-181 with line 243); see `LostOffer.AcceptableOfferIsLost`
  for a run in which that loses an acceptable gift, and `PlannerProof.ExpiringOffersAreLost` and
  `PlannerProof.NothingChasedNothingTaken` for exactly when the second look takes anything.
- The room counted for new trades does not count lots given earlier in the same batch
  (bazaar_client/policy/decide.py:373); see `OfferCap.CapCanBeOverrun` for a run in
  which the economy refuses the last command, `OpenLimit.LimitExactly` for exactly when that
  happens, and `OpenLimit.NothingToGiveNoLots` for when it cannot.
- The module comment of bazaar_client/policy/decide.py lists five stages; the function runs seven.

Floating-point ratios are exact: half price is twice the give compared with the receive, need
weights are in tenths, premiums and the production surplus are reals.

## Model

| member | source | states |
|---|---|---|
| Stations.SettledAccounts | bazaar_sim/economy.py:92-119 | One settlement, whatever arrives, keeps: supplied plus shortage ticks equal ticks run, consumed plus unmet equal ticks times upkeep, stock balances, health stays within its maximum and zero health means failed, and a first failure cannot come before the founding health is used up |
| Stations.DamageBound | bazaar_sim/economy.py:111-112 | Total damage is at most what a station that received nothing would take |
| Stations.SettledInNumbers | bazaar_sim/economy.py:92-119 | With u the units of upkeep that stock and output leave unpaid: health is the old plus recovery, up to its maximum, when u is zero and the old less u times the damage, down to zero, otherwise; a station is failed exactly if it was or its health just ran out, stamped with this tick; stock, unmet upkeep, streak and tick counts follow u |
| Stations.SimStation.SettleTick | bazaar_sim/economy.py:92-119 | The in-place settlement leaves the record of the settlement function, with the health, failure, stock and counts that the missing units dictate |
| EngineInvariant.ExecuteKeeps | bazaar_sim/economy.py:216-363 | Every command by anyone keeps the whole world invariant: ids, open offers with time left and two unfailed distinct parties, one ad a station, limits, matched deals, balanced books |
| EngineInvariant.AdvanceKeeps | bazaar_sim/economy.py:367-383 | Every tick keeps the same invariant, so whatever expires or fails is closed in that tick |
| EngineInvariant.EndRunKeeps | bazaar_sim/economy.py:389-395 | Ending a finished run finds nothing open: no offer changes |
| EngineInvariant.ProduceKeeps | bazaar_sim/server.py:351-355 | Setting production for the next tick keeps the invariant |
| EngineInvariant.CloseChangesOne | bazaar_sim/economy.py:316-321 | Closing by id closes exactly the one offer that id names |
| EngineRuns.RunKeeps | bazaar_sim/economy.py:206-395 | The invariant holds in every state any run passes through |
| EngineRuns.FreshIsKept | bazaar_sim/economy.py:147-159 | A newly built economy satisfies the invariant |
| EngineRuns.RunEvolves | bazaar_sim/economy.py:260-363 | Over any run offer terms never change, an offer leaves the open state at most once, trades are only added and the tick never falls |
| EngineRuns.SettlementBijection | bazaar_sim/economy.py:323-363 | In every reachable state accepted offers and transactions correspond one to one, with identical parties and terms |
| EngineRuns.RefusalMovesNothing | bazaar_sim/economy.py:216-258 | A command that is not answered with success changes nothing but the caller's command count |
| EngineRuns.AcceptRefusals | bazaar_sim/economy.py:323-340 | In a reachable state an accept is never refused as expired or for a failed party |
| EngineRuns.NeverRunEnded | bazaar_sim/economy.py:367-395 | No run ever closes an offer as ended with the run |
| EngineRuns.FlowsBalance | bazaar_sim/economy.py:342-347 | Over the roster, what the transaction list brings in equals what it takes out, resource by resource |
| EngineRuns.LedgerConservation | bazaar_sim/economy.py:92-104 | After any run: stock equals founding stock plus produced plus imported less consumed less exported, trade totals are the transaction list seen from each side, and world imports equal world exports |
| EngineRuns.SurvivalAccounting | bazaar_sim/economy.py:106-119 | After any run the tick, upkeep and health accounts hold, no station failed before its founding health allows, and an unfailed one has at most its founding health and what it recovered, less the damage of every unmet unit |
| EngineRuns.ShortEnoughFails | bazaar_sim/economy.py:106-119 | A station whose unmet units have cost its founding health and all it can have recovered has failed |
| EngineRuns.FailureIsPermanent | bazaar_sim/economy.py:117-119 | Once failed, a station stays failed with the same first failure tick |
| Effects.SucceedsExactly | bazaar_sim/economy.py:216-363 | A command succeeds if and only if its sender is unfailed with commands left before the run's end and: the ad's deadline is in time; or the offer's deadline is, its recipient is another unfailed station, it gives something its proposer holds and a slot is free; or the accepted offer is open, addressed to the sender and both can pay; or the withdrawn ad or open offer is the sender's |
| Effects.SenderAnswers | bazaar_sim/economy.py:232-247 | Failed, out of time and out of quota are answered in this order, then a bad ad deadline as an invalid argument |
| Effects.PostAnswers | bazaar_sim/economy.py:241-258 | An offer is answered in the order: invalid deadline, recipient or empty give; failed recipient; too little stock; limit; success |
| Effects.WithdrawAnswers | bazaar_sim/economy.py:299-314 | A withdrawal of another's ad or offer is an invalid argument, of a closed offer not open, of nothing known not found, else a success |
| Effects.AcceptAnswers | bazaar_sim/economy.py:323-340 | An accept of an offer addressed to another is an invalid argument, of a closed one not open, of one a party cannot pay a lack of resources, of nothing known not found, else a success |
| Effects.AdvertiseEffect | bazaar_sim/economy.py:263-277 | The sender's only ad says exactly what was asked; all other ads stay |
| Effects.PostEffect | bazaar_sim/economy.py:279-294 | One open offer on the terms asked is added and nothing else changes |
| Effects.AcceptEffect | bazaar_sim/economy.py:342-363 | Both bundles change hands in full, nobody else's books move, and one transaction on the offer's terms is added |
| Effects.WithdrawEffect | bazaar_sim/economy.py:299-321 | What the id names is gone or withdrawn at this tick, and nothing else changes |
| Effects.OthersAdsStay | bazaar_sim/economy.py:299-305 | No command clears another station's advertisement |
| Effects.OnlyOwnersChange | bazaar_sim/economy.py:299-340 | A command withdraws an open offer if and only if its sender proposed it and asks for that by id; settles it if and only if its sender is the recipient, asks for that and both can pay; and changes no other offer |
| Effects.TickEffect | bazaar_sim/economy.py:367-383 | A tick settles every station exactly once, expires exactly the open offers whose deadline has come, withdraws exactly the others with a failed party, clears exactly the ads due or of the failed, and leaves everything else |
| Effects.ShownExactly | bazaar_sim/economy.py:163-196 | A snapshot shows a station its own books, exactly the offers and trades it is party to, and every ad |
| Effects.EveryClosingHasItsCause | bazaar_sim/economy.py:299-383 | In every state of every run from a fresh economy, a withdrawn offer was withdrawn by its proposer's command or at a tick for a failed party, an accepted one by its recipient's command, and an expired one by a tick at or past its deadline |
| Economy.SimulatedEconomy.constructor | bazaar_sim/economy.py:147-159 | A roster of fresh stations makes a valid economy |
| Economy.SimulatedEconomy.Apply | bazaar_sim/economy.py:208-214 | A batch runs command by command; the log gains exactly its refusals in order and the version rises by one |
| Economy.SimulatedEconomy.Execute | bazaar_sim/economy.py:216-230 | The mutable command handler does what the rule function says and stays valid; it succeeds exactly for a command its sender may give, and changes no advertisement of another station and no offer but as its proposer or recipient |
| Economy.SimulatedEconomy.Settle | bazaar_sim/economy.py:323-363 | Settlement moves both bundles, closes the offer and records the deal together, or changes nothing |
| Economy.SimulatedEconomy.TakeBack | bazaar_sim/economy.py:299-314 | Withdrawing removes the caller's ad or closes the caller's open offer, else the exact refusal; nobody else's ad goes, and offers change only if one of the caller's own open offers was named |
| Economy.SimulatedEconomy.CloseAllDue | bazaar_sim/economy.py:371-383 | Closing one by one by id equals closing every due open offer at once |
| Economy.SimulatedEconomy.AdvanceTick | bazaar_sim/economy.py:367-383 | The tick loops together compute expiry, settlement and the closing of failed parties |
| Economy.SimulatedEconomy.EndRun | bazaar_sim/economy.py:389-395 | Ends the run as the specification says |
| Economy.SimulatedEconomy.ObservationFor | bazaar_sim/economy.py:163-196 | A station sees itself, its own offers and trades, the roster and all ads, and nothing else |
| Server.ExactlyOnce | bazaar_sim/server.py:251-278 | Any stream of commands, starts and ticks ends in the same world and stored results as the stream with every repeated request id after the first removed, whatever the repeated bodies |
| Server.RetryReturnsOriginal | bazaar_sim/server.py:251-260 | However much happens in between, an exact retry gets the first answer back and changes nothing; a different body under that id gets a conflict and changes nothing |
| Server.ServeKeeps | bazaar_sim/server.py:251-371 | Every state the server reaches keeps the economy's invariant |
| Server.ServerNeverEndsOffers | bazaar_sim/server.py:357-371 | No stream makes the server close an offer as ended with the run |
| Server.NextGrows | bazaar_sim/server.py:261-276 | Stored results are only appended, and not at all at capacity |
| Server.NewRequestAnswered | bazaar_sim/server.py:261-278 | A new request under capacity is carried out by the economy while the run is on, with its code, ids and world, the version one higher exactly on success; in any other phase it is answered as not running and the world is as before; the reply is stored |
| Server.FullStoreRefuses | bazaar_sim/server.py:257-260 | At capacity a new request is a protocol error and changes nothing |
| Server.ClockEffect | bazaar_sim/server.py:351-371 | A clock event while running settles every station once and then sets the outputs given |
| Server.ServerKeepsTime | bazaar_sim/server.py:335-371 | After any stream: ready until started, then as many ticks as clock events since, running until the duration is reached and finished from then on |
| Server.BazaarServer.Command | bazaar_sim/server.py:251-278 | The handler over the mutable economy and result store computes the specified reply and state, and a new request is carried out exactly while the run is on |
| Server.BazaarServer.StartRun | bazaar_sim/server.py:335-344 | Starts once, from the ready phase only |
| Server.BazaarServer.Tick | bazaar_sim/server.py:357-371 | Ticks only while running, applies production, finishes at the duration |
| Server.BazaarServer.SnapshotFor | bazaar_sim/server.py:305-313 | Numbers a seat's snapshots one by one and carries all its stored results |
| Lifecycle.HandshakeSafety | bazaar_client/connection/lifecycle.py:99-183 | After any events: readiness declared at most once a connection; active only after an acknowledgement of exactly that run and sequence; a fatal or closing error bars active until the next connect; trading only if the newest accepted snapshot is running |
| Lifecycle.HandshakeCompletes | bazaar_client/connection/lifecycle.py:99-183 | After any events, read off them alone: active if and only if this connection's declaration was acknowledged positively, exactly and while awaited, and no connect, drop, reset, fatal or closing error came since; trading if and only if moreover the newest state is running; every event draws exactly the directive it calls for, readiness at the first newer state of our run after a connect with its run and number |
| Lifecycle.RunIdNeverChanges | bazaar_client/connection/lifecycle.py:138-147 | Once known, the run id is the same after any further events |
| Lifecycle.NewestIsHighest | bazaar_client/connection/lifecycle.py:145-151 | Within a connection the accepted sequence is the highest one delivered |
| Lifecycle.SessionLifecycle.OnEvent | bazaar_client/connection/lifecycle.py:129-183 | The object's state after an event, and its directive, are those of the specification step; it is active after exactly if it was and no error closed it, or an exact positive acknowledgement was awaited and came |
| SendGate.SendQuota | bazaar_client/connection/throttle.py:24-42 | Over any run with non-decreasing ticks and one published limit, reconnects included, at most the limit of new commands goes out in each tick |
| SendGate.NoSendWhileBlocked | bazaar_client/connection/throttle.py:29-42 | No new command goes out before a rate-limited retry tick |
| SendGate.SendsExactly | bazaar_client/app.py:395-423 | While trading is on, a command under an unused id goes out if and only if fewer than the limit went out at this tick and no retry tick lies ahead, the budget found is that difference, and a used id goes out exactly for its own content |
| SendGate.RetryIsFree | bazaar_client/app.py:402-423 | An exact retry is never charged against the quota |
| SendGate.IdKeepsItsContent | bazaar_client/connection/requests.py:61-73 | Within a session a request id stays bound to the first fingerprint sent under it |
| SendGate.CommandThrottle.RecordSent | bazaar_client/connection/throttle.py:35-37 | Charging rolls to the tick first, then counts |
| SendGate.PendingRequestTracker.Register | bazaar_client/connection/requests.py:61-69 | Registers unless the id already names different content, in which case nothing changes |
| Session.ViewIsHighest | bazaar_client/app.py:224-234 | The adopted view is the highest-numbered snapshot of the stream |
| Session.ViewIgnoresOrder | bazaar_client/world/model.py:40-59 | Reordering and duplicating a connection's snapshots does not change the final view |
| Session.LifecycleAgrees | bazaar_client/connection/lifecycle.py:145-151 | Fed the same stream, lifecycle and view end on the same sequence number and phase |
| Session.WorldModel.Apply | bazaar_client/world/model.py:40-59 | Adopts exactly the newer snapshots and counts adopted and ignored ones |
| Session.BazaarSession.OnSnapshot | bazaar_client/app.py:224-254 | View, limit, history and the results carried are updated together; stale snapshots change nothing |
| Session.BazaarSession.Remember | bazaar_client/app.py:234-240 | Both history tables hold exactly the newest 128 accepted snapshots |
| Session.BazaarSession.RemainingCommandBudget | bazaar_client/app.py:354-360 | Zero unless trading is allowed for an unfailed station before the run's end, else what the throttle has left |
| Session.BazaarSession.SendCommand | bazaar_client/app.py:395-438 | Goes through exactly when the send gate lets it, charging and registering before the bytes leave |
| TradingLoop.BudgetIsSpendable | bazaar_client/app.py:395-423 | Where budget was found, a new command under a fresh id goes out |
| TradingLoop.TradingLoop.Step | bazaar_client/autonomous.py:200-213 | A step decides on the newest view with the lesser of one and the budget left, follows that decision, plans at most one action, and only one the send gate would let out right now |
| Commitments.CommitmentTracker.AvailableToCommit | bazaar_client/world/commitments.py:41-67 | Stock less open offers' gives less what is in flight, each step stopping at zero |
| Commitments.CommitmentTracker.OutstandingConfirmedGive | bazaar_client/world/commitments.py:48-59 | The loop sums the gives of our own open unexpired offers |
| InFlight.OthersOnlyRaiseSlack | bazaar_sim/economy.py:299-363 | No command by anyone else lowers our stock less our open promises |
| InFlight.TickSlack | bazaar_sim/economy.py:367-383 | A tick lowers it by at most one round of upkeep |
| InFlight.PromisedIsTally | bazaar_client/world/commitments.py:48-59 | What the client reads as promised in a snapshot is what the server's offer list promises |
| InFlight.ReachKeeps | bazaar_sim/server.py:251-278 | A message of ours arriving, once or again, keeps every snapshot covered: what it costs is owed until shown |
| InFlight.ShowKeeps | bazaar_client/app.py:224-254 | A snapshot arriving late, twice or out of order keeps the session's invariant |
| InFlight.ConfirmKeeps | bazaar_client/app.py:340-352 | Releasing the hold is safe once the newest view contains the exact result |
| InFlight.RunStaysGood | bazaar_client/execution/executor.py:93-126 | The session's invariant holds after every interleaving until the session is lost |
| InFlight.NeverOvercounts | bazaar_client/world/commitments.py:61-67 | Whenever the loop decides, the stock it may commit is at most the server's true stock less our open promises, but for upkeep of ticks the snapshot has not seen; within one tick the bound is exact |
| InFlight.NeverOvercountsBusy | bazaar_client/execution/executor.py:93-117 | Nor does it while a command of ours other than an accept is under way: from before an offer is sent until a snapshot shows its fate, its stock is held, and what may be committed stays within the server's true slack |
| InFlight.FreshCountIsExact | bazaar_client/world/commitments.py:61-67 | With nothing in flight, on a snapshot of the world as it stands, the stock that may be committed is exactly the server's stock less our open promises, or zero |
| InFlight.BeginTransmits | bazaar_client/execution/executor.py:93-102 | Handing over a command that is sent does to the executor's stage and ledger what the sending move does |
| InFlight.RefusalBlocks | bazaar_client/execution/executor.py:118-122 | A command refused before it is sent leaves an undisturbed session exactly as it was |
| InFlight.AnswerIsHeard | bazaar_client/execution/executor.py:100-107 | The reply to the awaited command does to stage and ledger what the hearing move does, and any other reply nothing |
| InFlight.ShownIsAdopted | bazaar_client/app.py:224-261 | A delivered snapshot is adopted exactly as the session adopts it, and a result it carries for the awaited command acts like its reply |
| InFlight.ConfirmedIsConfirm | bazaar_client/execution/executor.py:109-117 | The check of the newest snapshot releases the hold exactly when the confirming move can happen, and as it does |
| InFlight.Executor.Begin | bazaar_client/execution/executor.py:93-96 | An offer's stock is held before anything is sent |
| InFlight.Executor.Blocked | bazaar_client/execution/executor.py:118-122 | A command the send gate refused leaves no hold behind |
| InFlight.Executor.Answered | bazaar_client/execution/executor.py:98-116 | A refusal or protocol error releases the hold at once, a success keeps it |
| InFlight.Executor.Confirmed | bazaar_client/execution/executor.py:109-117 | The hold ends when a snapshot holds that exact result, not before |
| Counterparties.UpdateIsIdempotent | bazaar_client/world/counterparties.py:72-171 | Folding the same snapshot in again changes nothing: no streak, offer outcome or trade is counted twice |
| Counterparties.CountsOnce | bazaar_client/world/counterparties.py:122-157 | Each settled offer of ours raises its recipient's count exactly once and nobody else's |
| Counterparties.KnowsOnly | bazaar_client/world/counterparties.py:78-102 | The model lists only stations a snapshot named, and never ourselves |
| Reputation.ReputationIsEarned | bazaar_client/world/counterparties.py:122-157 | Over any history of snapshots, repeats included, a planet's record is exactly how many different offers of ours it decided and how many of those it took |
| Reputation.FateIsFixed | bazaar_sim/economy.py:316-321 | Snapshots of one economy agree about every offer once it is closed, which is what the count relies on |
| Reputation.NeedInNumbers | bazaar_client/world/counterparties.py:87-120 | A later tick in which a planet advertises for a resource adds one to how long it has sought it, the same tick adds nothing, and a snapshot in which it does not ends the count; what it sells and seeks is its live ad |
| Reputation.OutcomeInNumbers | bazaar_client/world/counterparties.py:140-157 | An accepted offer ends the count of lapsed ones and doubles the trade size trusted, a lapsed one adds to the count, is dated and halves the size it asked |
| Reputation.SuppliesAreSeen | bazaar_client/world/counterparties.py:159-171 | Over any history a planet is known to supply exactly what it handed us in some trade shown |
| Counterparties.CounterpartyModel.Update | bazaar_client/world/counterparties.py:72-76 | The four update loops over the mutable tables compute the specified model |
| Counterparties.CounterpartyModel.MarkFailed | bazaar_client/world/counterparties.py:66-70 | A failed station leaves the live ones and only it does |
| Memory.StutterInvariance | bazaar_client/policy/memory.py:35-60 | Observing one snapshot any number of times in a row leaves memory as after one |
| Memory.MedianWithinSamples | bazaar_client/policy/memory.py:62-65 | The median round trip lies between two samples actually measured, after rounding halves to even |
| Memory.MedianIsMiddle | bazaar_client/policy/memory.py:62-65 | At least half of the measured round trips are no longer than the median, and for any smaller value at most half are |
| Memory.TripInNumbers | bazaar_client/policy/memory.py:42-53 | Each trade of ours whose offer is still listed is measured once, as the ticks from posting to settling, among the last eight samples |
| Memory.OutputInNumbers | bazaar_client/policy/memory.py:55-60 | Our output joins the last eight samples once a tick |
| Memory.PolicyMemory.Observe | bazaar_client/policy/memory.py:35-60 | The loops over queues and sets compute the specified memory |
| Reserves.SafetyBounds | bazaar_client/policy/reserves.py:53-69 | Three to ten ticks of upkeep are kept whatever was measured, up to fifteen units |
| Reserves.SafetyInNumbers | bazaar_client/policy/reserves.py:53-69 | The ticks kept are three, or one past the median round trip, two more below half health, one more once our own output fell short of our upkeep, ten at most |
| Reserves.ReserveInNumbers | bazaar_client/policy/reserves.py:72-94 | The reserve is those ticks of upkeep and on top the stock above thirty-two or what was banked and is still held, fifteen in all |
| Reserves.SavedClamps | bazaar_client/policy/reserves.py:85-90 | The two banking steps are one clamp and never bank more than is held |
| Reserves.ReserveShrinksWithStock | bazaar_client/policy/reserves.py:72-94 | A reserve is at most fifteen a resource and never larger when less is available |
| Reserves.ReserveSettles | bazaar_client/policy/reserves.py:72-94 | Banked stock is not banked twice: while stock stays between the reserve and what it was, the reserve computed again is the same |
| Reserves.DecidingAgain | bazaar_client/policy/reserves.py:72-94 | Deciding any number of times on a repeated snapshot finds the same memory and the same reserve |
| Reserves.ComputeReserve | bazaar_client/policy/reserves.py:72-94 | The loop returns the specified reserve and stores the specified bank |
| Reserves.ComputeUrgency | bazaar_client/policy/reserves.py:97-110 | The loop fills in the specified level for every resource |
| Reserves.CalmCovers | bazaar_client/policy/reserves.py:97-110 | When nothing is urgent every resource covers its reserve and a tick of upkeep |
| Reserves.OneImportAhead | bazaar_client/policy/reserves.py:152-167 | Both imports are never past their ceiling at once, and the other one is the scarcest |
| Pricing.PremiumNeverRises | bazaar_client/policy/pricing.py:33-46 | More stock never raises the premium, across every tier boundary and the compounding tail |
| Pricing.PremiumIsFair | bazaar_client/policy/pricing.py:33-46 | The premium at every stock, unit by unit |
| Pricing.QuantityInNumbers | bazaar_client/policy/pricing.py:49-63 | Lots of four, five at the six-for-five price, and from twenty units on one for every four units spare up to twelve; never more than wanted, never none |
| Pricing.TermsExist | bazaar_client/policy/pricing.py:73-99 | Terms exist exactly when there is something to ask, a different resource to pay with, and the guard leaves something to pay |
| Pricing.TermsBounded | bazaar_client/policy/pricing.py:73-115 | Any terms give at least one unit within what is affordable, ask at least one within what was wanted, and pay at most eight for one; half under the guard, two in the end game |
| Pricing.PriceIsThePremium | bazaar_client/policy/pricing.py:66-115 | On the normal branch the price is the premium rounded half up, scaled down or not; only one last unit may go for less |
| Pricing.TermsInFull | bazaar_client/policy/pricing.py:73-115 | A price that can be paid buys all that was wanted; one that cannot buys the most units whose exact price fits; under the guard half is paid, in the end game two for one |
| Pricing.DesiredQuantity | bazaar_client/policy/pricing.py:54-63 | Asks for at least one, never beyond the shortfall or the lot size |
| Acceptance.AcceptingIsSafe | bazaar_client/policy/accept.py:48-128 | Whatever branch accepts, we can pay, no resource ends below the smaller of the reserve and what we held, a guarded trade costs at most half of what it brings, and a well supplied planet only takes a net gain |
| Acceptance.AcceptedPriceIsBounded | bazaar_client/policy/accept.py:48-128 | No accepted trade pays for nothing, or more than eight for one |
| Acceptance.GiftInNumbers | bazaar_client/policy/accept.py:65-75 | A gift is taken unless we are above thirty of everything and it brings our own production or, before the end game, nothing |
| Acceptance.BundleInNumbers | bazaar_client/policy/accept.py:48-128 | Any paid exchange of bundles is taken if and only if, in numbers: it is a net gain of imports once all is above thirty, not only of imports far ahead, payable, above the smaller of stock and reserve in every resource, and at the price its branch asks |
| Acceptance.DealInNumbers | bazaar_client/policy/accept.py:48-128 | One resource for another is taken if and only if it is paid above the reserve, the import is not far ahead, it is a net gain once all is above thirty, and its price is right: half under the guard, the fair price of its stock when our production pays, need weights of 1, 1.3 and 3 otherwise |
| Advertising.PublishingSettles | bazaar_client/policy/advertising.py:28-64 | Right after publishing, unchanged needs spend no second command until renewal is due, and then they do |
| Advertising.CriticalNeedIsHeard | bazaar_client/policy/advertising.py:48-50 | A critical need missing from the ad is published at once with a valid deadline |
| Altruism.DonationSize | bazaar_client/policy/altruism.py:45-47 | A gift is at least one unit, at most the surplus, and a fifth of it from five units on |
| Altruism.PickGiftRecipient | bazaar_client/policy/altruism.py:50-62 | Finds a seeker out of cooldown whose streak and recency no other seeker beats, or nobody when there is none |
| Altruism.ScanForDistress | bazaar_client/policy/altruism.py:65-92 | Nothing while anything of ours is urgent; else the longest persisting need out of cooldown, or nobody when there is none |
| Targeting.RankCounterparties | bazaar_client/policy/targeting.py:33-98 | One candidate for each wanted resource that can be had and for no other, most urgent first; each is an option no other station or payment beats on our own production first, then the score of advertisement, recency and reliability, then our surplus |
| Targeting.OwnProductionPays | bazaar_client/policy/targeting.py:84-93 | A best option pays with our own production whenever that can pay |
| Targeting.SellersFirst | bazaar_client/policy/targeting.py:33-48 | Whoever advertises what we need scores above anyone who does not, however recent or reliable, unless only the other wants what we pay with |
| Targeting.SeekersCount | bazaar_client/policy/targeting.py:33-48 | Wanting what we pay with counts as much as a perfect record heard this very tick |
| Targeting.RecentFirst | bazaar_client/policy/targeting.py:38-40 | All else equal, whoever was heard later within ten ticks scores higher |
| Targeting.ReliableFirst | bazaar_client/policy/targeting.py:42-48 | All else equal, whoever took more of the offers sent scores higher |
| PlannerSafety.SharedBalance | bazaar_client/policy/decide.py:130-184 | All accept costs and offer gives of a batch together stay within the one opening balance, and the running balance is exactly what is left |
| PlannerSafety.StagesRise | bazaar_client/policy/decide.py:134-182 | Steps come in stage order: accepts, withdrawals, excess, advertisement, trades, aid |
| PlannerSafety.FloorKept | bazaar_client/policy/decide.py:390-456 | The production floor a trade was planned above, ten, twenty-five or the end-game ticks, still holds after the rest of the batch |
| PlannerStages.AcceptableIsSound | bazaar_client/policy/decide.py:224-249 | A taken offer is affordable from the running balance and leaves the guard's floor |
| PlannerStages.AcceptPassKeeps | bazaar_client/policy/decide.py:213-250 | An accept pass adds only justified accepts, takes or holds back each offer at most once, and holds back only on the last command |
| PlannerStages.PullPassKeeps | bazaar_client/policy/decide.py:258-281 | A withdrawal pass withdraws only dangerous offers of ours, each once, and moves no stock |
| PlannerStages.ExcessPassKeeps | bazaar_client/policy/decide.py:284-316 | Lots above the cap leave a full hundred and touch only the resources reached |
| PlannerStages.AdPassKeeps | bazaar_client/policy/decide.py:158-169 | The advertisement takes at most one command and moves no stock |
| PlannerStages.TermsUnderFair | bazaar_client/policy/decide.py:411-438 | Terms are paid from surplus above the reserve and leave the specialty floor their price calls for |
| PlannerStages.ProposePassKeeps | bazaar_client/policy/decide.py:370-457 | Each trade asks a different resource of a station not already asked for it, within the room counted there, and never dips into the reserve |
| PlannerProof.PlanIsJustified | bazaar_client/policy/decide.py:87-184 | Whatever choices the memory allows, every step of the batch is justified by what its predecessors left and the batch stays within the command budget |
| PlannerProof.DeferredOnlyWhenIdle | bazaar_client/policy/decide.py:174-181 | Offers held back are looked at again only if nothing was planned since and one command is left |
| PlannerProof.HeldBackStayAcceptable | bazaar_client/policy/decide.py:213-250 | With a command left, every offer the accept pass held back is one it would still take, held back because it expires on the next tick or does not bring the import chased |
| PlannerProof.ExpiringOffersAreLost | bazaar_client/policy/decide.py:174-181 | The second look takes an offer exactly when one held back is usable past the next tick's deadline, and then the first such; one that expires now is never taken |
| PlannerProof.NothingChasedNothingTaken | bazaar_client/policy/decide.py:187-210 | When no import is chased, which is known before the decision, the second look never takes anything |
| LostOffer.AcceptableOfferIsLost | bazaar_client/policy/decide.py:243-246 | From a fresh economy, with an empty memory and one command, a gift the planner finds acceptable and the economy would let us take is not taken, and every decision the memory allows plans nothing at all |
| PlannerProof.LastCommandTakes | bazaar_client/policy/decide.py:213-250 | With one command the pass takes exactly the first lasting acceptable offer |
| PlannerProof.DangerousAreWithdrawn | bazaar_client/policy/decide.py:258-281 | With a command to spare every dangerous offer is withdrawn |
| PlannerProof.NothingGoodIsMissed | bazaar_client/policy/decide.py:213-250 | With a command to spare every offer worth taking at its turn is taken or held back for a stated cause |
| PlannerProof.ReserveCovered | bazaar_client/policy/decide.py:460-476 | When aid is considered, the balance covers every reserve |
| PolicyNumbers.LimitInNumbers | bazaar_client/policy/reserves.py:121-145 | Paying is free with twenty-five ticks of our production, or in the last ten ticks with what they still need; barred below ten ticks of it, or in the last ten below that |
| PolicyNumbers.DangerInNumbers | bazaar_client/policy/decide.py:258-281 | An offer of ours is dangerous if and only if it gives a resource below its reserve, or our production is guarded and it asks nothing, pays more than half, or nothing may be paid |
| PolicyNumbers.AcceptableInNumbers | bazaar_client/policy/decide.py:224-241 | An offer to us is acceptable if and only if it is a gift worth having, or a good exchange at the limit that what is left of our production sets, with no normal offer of ours standing while that limit is on |
| PolicyNumbers.ChaseInNumbers | bazaar_client/policy/decide.py:187-210 | A command is kept free for an import if and only if it is the scarcest, runs low or far behind the other, we can pay, a slot is free and no offer of ours asks for it |
| PolicyNumbers.WantedInNumbers | bazaar_client/policy/decide.py:336-367 | What we have plenty of is wanted only to cover its reserve; any other import up to twice its reserve and twenty, five at least, and to its ceiling when there is plenty to pay with, a hundred at most |
| PolicyNumbers.TermsInNumbers | bazaar_client/policy/decide.py:406-438 | A trade goes on the full price above the usual floor of our production; if that gives no terms, and before the end game, on half price above the fallback floor; how much is asked and paid, and when there are no terms, in numbers |
| Completeness.TurnsTaken | bazaar_client/policy/decide.py:174-250 | The offers to us have their turns in order, each taken exactly if acceptable with a command left and not kept back; and the last command, if nothing used it, goes to the first one kept back that outlasts the tick |
| Completeness.PartsWithdrawRightly | bazaar_client/policy/decide.py:258-281 | Our open offers that endanger what the accepts left, and only those, are withdrawn in order as far as commands go |
| Completeness.PartsGiveLots | bazaar_client/policy/decide.py:284-316 | Largest excess first, each resource over a hundred that a live planet out of cooldown seeks goes to a longest seeker, up to twenty units, while a command, a slot and lifetime are left; and no other lot is given |
| Completeness.PartsAdvertise | bazaar_client/policy/decide.py:150-169 | With all above thirty our ad is cleared; otherwise an ad of exactly what is on offer and in demand goes out when there is none, a resource running out is missing from it, it runs out, or it changed and is three ticks old; and one with nothing to say is cleared |
| Completeness.PartsProposeRightly | bazaar_client/policy/decide.py:370-457 | The ranked candidates have their turns in order, each asked on its terms while a command, a slot and lifetime are left |
| Completeness.PartsGiveAid | bazaar_client/policy/decide.py:460-492 | The last step is a gift of a fifth of the surplus, one unit at least, to a planet that has sought it longest, for four ticks or more and outside its cooldown, whenever a command, a slot and lifetime are left, nothing is urgent and paying is free before and after it; and there is none otherwise |
| Completeness.NothingDueIsSkipped | bazaar_client/policy/decide.py:87-184 | Whatever choices the memory allows, the batch holds everything the six stages above owe, in their order, and nothing else |
| Deciding.AcceptIncoming | bazaar_client/policy/decide.py:213-250 | The loop computes the specified pass over steps, budget, balance and deferred offers |
| Deciding.WithdrawDangerous | bazaar_client/policy/decide.py:258-281 | The loop computes the specified pass |
| Deciding.GiveExcess | bazaar_client/policy/decide.py:284-316 | The loop computes the specified pass, each lot to the longest seeker, and logs each gift |
| Deciding.WantedQuantities | bazaar_client/policy/decide.py:336-367 | The loop fills the specified quantities |
| Deciding.RefreshAdvertisement | bazaar_client/policy/decide.py:150-169 | Computes the specified use of the advertisement slot |
| Deciding.PriceCandidate | bazaar_client/policy/decide.py:406-438 | Tries the normal price, then half price outside the end game |
| Deciding.ProposeOffers | bazaar_client/policy/decide.py:370-457 | The loop over the ranked candidates computes the specified pass; its two running balances stay in step |
| Deciding.OfferAid | bazaar_client/policy/decide.py:460-492 | Gives the specified gift, logged, or nothing; Completeness.PartsGiveAid says when and to whom |
| Deciding.Decide | bazaar_client/policy/decide.py:87-184 | The batch is the specified plan for choices the memory allows, justified step by step, within the budget, with nothing due left out; nothing is planned when trading is off; memory ends observed, banked and with the batch's gifts logged |
| OfferCap.CapCanBeOverrun | bazaar_client/policy/decide.py:370-376 | From a fresh economy in which the other planet advertised for water, with an empty memory, every decision the memory allows plans a lot and a trade beyond the limit of one, and the economy answers the last command with the limit |
| Contract.StepTracks | bazaar_sim/economy.py:216-363 | After each planned command the stock, open offers, own ad, counts and open-offer number the rest relies on still hold |
| Contract.BatchTracks | bazaar_sim/economy.py:208-214 | They hold after every part of a batch |
| Contract.PlannerMeetsEngine | bazaar_client/policy/decide.py:87-184 | Run as a station's first commands of a tick, each planned action succeeds exactly unless an accepted offer's proposer cannot pay, a recipient has failed, or a lot given earlier in the batch used up the open-offer limit |
| Contract.OneCommandNeverLimited | bazaar_client/autonomous.py:200-213 | With one command a decision the limit is never met |
| Contract.StepsTakeEffect | bazaar_client/execution/executor.py:62-82 | Each planned step the economy carries out does there what the step says: the offer taken is accepted, the one pulled withdrawn, the ad gone, the notice our only ad with its words and deadline, the post one open offer on exactly its terms |
| OpenLimit.BatchCount | bazaar_sim/economy.py:256-258 | After any part of a planned batch our open offers number the smaller of the limit and those in the snapshot, less withdrawals, plus posts to live planets |
| OpenLimit.LimitExactly | bazaar_client/policy/decide.py:370-376 | A planned action is answered with the limit if and only if it posts to a planet that has not failed and the open offers of the snapshot, less the withdrawals before it, plus the posts to live planets before it, fill the limit |
| OpenLimit.NeverLimitedWithoutLots | bazaar_client/policy/decide.py:370-376 | A batch without a lot over the cap never meets the limit |
| OpenLimit.NothingToGiveNoLots | bazaar_client/policy/decide.py:284-316 | When no live planet out of cooldown seeks a resource that is over the cap after the accepts, the batch holds no such lot |
| Turns.MemoryStaysWithin | bazaar_client/world/counterparties.py:78-102 | A memory fed with this economy's snapshots names only the other stations of its roster |
| Turns.OnlyExcusable | bazaar_sim/economy.py:208-214 | Every logged refusal of such a batch is one of the three |
| Turns.PlayTurn | bazaar_sim/world.py:182-185 | Observe, decide and apply: the batch applied is the decision on what the economy showed, the log gains only those refusals and the memory stays fit for the next turn |
| Turns.BlocksHold | bazaar_client/policy/memory.py:77-79 | After any decisions and rate limits in any order, the next decision may trade exactly when the run is on, we have not failed and no retry tick ever heard lies ahead |
| NoChurn.StockAfterPosting | bazaar_client/world/commitments.py:61-67 | After the trades are listed, the stock that may be committed is at least what the batch left |
| NoChurn.SecondReserve | bazaar_client/policy/reserves.py:72-94 | Where the trades pay from, the reserve computed again equals the first and is covered |
| NoChurn.TradesAreNotWithdrawn | bazaar_client/policy/decide.py:258-281 | Deciding again at the same tick with the trades listed and the memory just left withdraws none of them |
| BalancedWorlds.ComputeBase | bazaar_sim/world.py:59-66 | The nested loops give every planet its share of its resource's need |
| BalancedWorlds.SharesCover | bazaar_sim/world.py:62-66 | The shares with their remainders add up to exactly the need |
| BalancedWorlds.SwingsCancel | bazaar_sim/world.py:67-71 | The staggered swings cancel over any 36 consecutive ticks |
| BalancedWorlds.WorldIsBalanced | bazaar_sim/world.py:45-73 | For three or more planets and a swing up to twice the upkeep, the producers of each resource make exactly 36 ticks of the world's need in any 36 consecutive ticks |
| BalancedWorlds.SurplusTelescopes | bazaar_sim/world.py:69-71 | Without swing the first ticks total the base rate plus the whole part of the surplus due; no fraction is lost |
| Scoring.FailureTimesMatch | bazaar_sim/world.py:178-190 | Whatever the players do, the runner's failure times are the stations' own first failure ticks |
| Scoring.BothScoresAgree | bazaar_sim/world.py:136-156 | Scoring with the runner's times and from the economy's own records gives the same score |
| Scoring.ServerScoresAgree | bazaar_sim/server.py:375-377 | For every stream of commands, starts and ticks, scoring the server's economy from its own records is scoring it with the failure times a watcher of every event would have noted |
| Scoring.FullScore | bazaar_sim/world.py:136-156 | Alive ticks are at most planets times ticks, exactly that on collective success, which means no station failed |
| Scoring.ScoreInNumbers | bazaar_sim/world.py:136-156 | Survivors are the stations that have not failed; alive ticks with those the failed lost, and shortage ticks with supplied ones, are every planet's every tick; unmet units with consumed ones are all upkeep due; the subject survived exactly if it has not failed |
| Scoring.RunWorld | bazaar_sim/world.py:178-190 | The runner's loops over the mutable economy compute the specified world and failure times |
| Scoring.RoundIsRun | bazaar_sim/world.py:178-190 | A round of a world is a run of the economy: the outputs, the commands of every player whose station had not failed in order, a revision after each player, and a tick |

## Left out

- Sockets, asyncio scheduling, timeouts, authentication and the websocket handshake: only the message and event steps are modelled, a pending command is a map entry.
- Protobuf encoding: a message carries its fingerprint as a text, equal exactly when the bodies are; that a digest may collide is not part of this model.
- Object ids are structured values sharing the server's one counter, instead of texts such as "offer-3"; any other text a client may send is `OtherId`.
- Request ids are compared as given; what the generator does at its 64-character cut is not claimed unique.
- A station the economy does not know makes the original raise; `EngineRuns.Try` answers it with not found and changes nothing.
- InFlight.NeverOvercounts: speaks of the moments the loop decides, one command outstanding at a time; an accept in flight is not held, so nothing is claimed between its send and its confirmation. After a timeout or lost connection the session is discarded and nothing more is claimed about it.
- InFlight.RunStaysGood: messages of an earlier session still on their way are not part of this model.
- NoChurn.TradesAreNotWithdrawn: the second snapshot lists the same stock, rules, trades and older offers, under fresh ids for the new ones; gifts are not covered, since they carry no return.
- Contract.PlannerMeetsEngine: says nothing about commands another station slips in between the observation and the batch.
- Contract.OneCommandNeverLimited: for larger budgets the open-offer limit can be met, as OfferCap shows; OpenLimit.LimitExactly says when.
- Deciding.GiveExcess: lots over the cap are not held to the production guard, because the code does not hold them to it.
- Acceptance.AcceptingIsSafe: counts what a trade brings in, as the code does, so a mixed bundle may leave the uncommitted stock of a resource below its reserve until the gain is confirmed.
- Targeting.RankCounterparties: among exact ties any option may be chosen, and resources as urgent and as wanted as each other may come in any order.
- Server.NewRequestAnswered: that a seat must declare readiness before its commands are looked at, and the parsing of messages, are not part of this model.
- Altruism.PickGiftRecipient: among exact ties any seeker may be picked.
- BalancedWorlds.SurplusTelescopes: for a surplus of zero or more, in exact arithmetic; rounding of floats is not modelled.
- BalancedWorlds.WorldIsBalanced: for zero surplus; the 2/5/6 schedule of an earlier run is not modelled.
- Scoring.RunWorld: players are any batches of actions, given per round; `rank_key` and the opponents' stand-ins are left out.
- Display names, reasons and log lines of decisions, evidence records, analyzers, dashboards, metrics, diagnostics, command line, configuration and orchestration.
- The hivemind bridge, the scripted walkthrough, random seeds and backoff jitter.
- Waiting for snapshots, the closing of waiters and task cancellation: event-loop behaviour.
- Sequence numbers of snapshots that in-process runs draw from the economy are given by the caller.
