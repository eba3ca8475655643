# Verified model of the prediction-market backtest core

This project models the deterministic core of an offline prediction-market simulator and proves that it
creates no cash, no shares and no liquidity, and exactly how far it is free of foreknowledge. Prices, shares and
collateral are integers in millionths; times are nanoseconds. It covers two simulators and what they share:

- **Books and tape** (`OrderBook.dfy`, `BookRules.dfy`, `Reconstructor.dfy`, `Tape.dfy`, `TapeRules.dfy`,
  `TapeLadders.dfy`): one outcome token's book with simulated consumption as an overlay, its reconstruction from a
  feed, and the tape of ladders with uncertainty spans that the fast simulator replays.
- **Taking liquidity** (`FixedPoint.dfy`, `Market.dfy`, `Ladders.dfy`, `TakerWalk.dfy`, `Affordability.dfy`,
  `Execution.dfy`, `ExecutionRules.dfy`): fees, the depth walk under five caps, the affordability search, the budget
  trim, and the orders of the reference simulator.
- **The fast simulator** (`SelfImpact.dfy`, `Sending.dfy`, `SendRules.dfy`, `OverlayRefinement.dfy`, `StaleRows.dfy`,
  `Policies.dfy`, `Session.dfy`, `ParentDriver.dfy`, `ParentRules.dfy`, `Episode.dfy`, `EpisodeShape.dfy`,
  `OrderRules.dfy`, `Pacing.dfy`, `ExitOverlap.dfy`, `TapeForesight.dfy`, `EntryRace.dfy`, `ParentRace.dfy`,
  `ForesightLimits.dfy`): sending orders against the tape, the lazily reconciled self-impact, the child-order
  policies, the execution session, the episode state machine, why it sends each order, and what it cannot know.
- **The reference engine** (`Engine.dfy`, `NoLookAhead.dfy`, `Resolution.dfy`, `DegradedTime.dfy`): the event
  loop with its queue of delayed orders, resolution under any strategy with memory, and the degraded-time figure.
- **Accounting** (`Portfolio.dfy`, `Wallet.dfy`, `Compound.dfy`, `ShortSale.dfy`, `OverlappingMarkets.dfy`): weighted-average cost,
  future-dated credits and the compounded run over many markets.
- **Maker queues** (`Maker.dfy`): queue position of a resting order under three assumptions.

Code that changes state in place is a class or a method, proved equal to a function of the old state; what the
code promises is then proved of those functions. The modules named `...Rules` say what an operation means without its
specification function: level by level, share by share, order by order. Latency is an arbitrary non-negative number per order, an
external cash source an arbitrary (possibly partial) function of time, a feed an arbitrary list of events. The
fee rate is a rational, the curve exponent a natural number, and Decimal arithmetic is exact. A raised
exception is a verdict value, a refused order a reason.

`dafny verify dfyconfig.toml` checks everything.

## Where the code and the expectation part

Each of these is a lemma with a concrete input, and its exact condition where there is one.

- *Stale events.* The reference book ignores an event older than the book, the tape still records a row for it,
  and the fast simulator then forgets consumption the reference remembers
  (`StaleRows.StaleUpdateSplitsFills`). The two give the same fills as long as no such row forgets consumption at a
  displayed price (`OverlayRefinement.LazyRefinesEager`); the first that does changes the fills of some next order
  (`StaleRows.StaleRunShowsIff`).
- *Foreknowledge in the fast simulator.* It settles an order when it is decided, not when it arrives, so a retry
  that comes before the arrival of the order it replaces knows how that order will end
  (`EntryRace.KnowsTheFuture`). For immediate entries it is decided exactly which latencies and cooldowns keep
  what arrives, and what is decided, by a time free of what comes later (`EntryRace.ArrivalsForeseeNothingIff`,
  `EntryRace.DecisionsForeseeNothingIff`). Children of a parent wait for each other, so neither depends on the future
  (`TapeForesight.NoForeknowledge`, `TapeForesight.DecisionsReadThePast`), except that a share-sized parent is
  sized from the wallet's cash at its deadline (`ForesightLimits.DeadlineCashIsForeseen`). The event engine never
  knows the future (`NoLookAhead.NoForeknowledge`).
- *Exits wait for fills and exit attempts, not for refused entries.* With immediate entries they wait for every
  order, on every market, exactly when entries arrive in turn: with ample cash no entry is slower than the next by
  more than the cooldown, and with any wallet no entry is slower than the next, because an entry stopped by cash is
  retried without a cooldown (`EntryRace.ExitsAlwaysWaitIff`). So a constant latency is enough, and so is a single
  entry with ample cash. With sequential entries it is enough that orders arrive at once
  (`ExitOverlap.ExitsWaitInTurn`); any delay of a second child decided at the deadline breaks it
  (`ParentRace.ChildIsOvertaken`).
- *Affordability.* The search range can be too short wherever the fee on the first size past it is zero, be the
  schedule free or its fee rounded down (`Affordability.SearchStopsShort`; exactly when:
  `Affordability.AffordableGloballyIff` and `Affordability.RangeEnd`).
- *The trim may stop one free unit short* (`Affordability.TrimCanStopShort`; exactly when:
  `Affordability.TrimMaximalIff`).
- *A sequential parent whose budget buys no share ends the run with an error* (exactly when:
  `Episodes.SequentialFailsIff`).
- *A dust sale can cost more than it brings in*, which ends the compounded run with an error
  (`ShortSale.RunStopsShort`; exactly when: `Compound.ApplyResult`). It never happens where the fee of any size is at
  most its notional at every displayed bid (`ShortSale.MildNeverShort`).
- *A market that overlaps an earlier one can ask the wallet about its past*, which ends the compounded run with an
  error (`OverlappingMarkets.RunAsksPast`; exactly when: `OverlappingMarkets.NextAsksPastIff`).
- *Proportional queues can overtake optimistic ones* when more is ahead than is displayed
  (`Maker.OvertakingHappens`; one step exactly when: `Maker.ShareDecidesOrder`).

## Model

| member | source | states |
|---|---|---|
| `FixedPoint.NotionalIsNearest` | src/polymarket_bt/backtest/realism.py:143-145 | the scaled notional is the one integer nearest to size times price, ties upward (if and only if) |
| `Fees.FeeMonotone` | src/polymarket_bt/backtest/fees.py:25-35 | under every schedule, more shares at one price never pay a smaller fee |
| `Fees.ChargedAtLeastOne` | src/polymarket_bt/backtest/fees.py:32-35 | a schedule with a positive curve and a minimum of one unit charges every positive size at least one unit |
| `Fees.DefaultAlwaysCharges` | src/polymarket_bt/backtest/realism.py:424-431 | the shipped schedule is such a schedule at every price inside (0, 1) |
| `Fees.FeeIsRoundedVariance` | src/polymarket_bt/backtest/fees.py:25-35 | the fee is the integer that the exact product of shares, rate and price variance rounds to under the schedule, raised to the minimum, and nothing for free schedules, makers and products that are not positive |
| `Fees.DefaultFee` | src/polymarket_bt/backtest/realism.py:424-431 | the shipped schedule spelled out: seven percent of shares times price times its complement, halves up, and at least one unit |
| `Fees.DustSaleLoses` | src/polymarket_bt/backtest/fees.py:28-35 | selling one share unit below one half costs more in minimum fee than it brings in |
| `TakerWalk.Execute` | src/polymarket_bt/backtest/realism.py:172-305 | the loop over the visible ladder, with its early exits, takes from every level within reach all that haircut, participation, request and volume cap allow, and nothing beyond any of them, or refuses for one of the four reasons |
| `TakerWalk.WalkTakesAllItMay` | src/polymarket_bt/backtest/realism.py:219-358 | each slice names its level, is at its price and within both dials on it, best level first; at every level within reach one more share would break a dial, the request or the volume cap |
| `TakerWalk.WalkClosedForm` | src/polymarket_bt/backtest/realism.py:219-305 | the filled size in closed form, with totals that are sums of correctly priced slices |
| `TakerWalk.EligibleIsEveryLevelWithin` | src/polymarket_bt/backtest/realism.py:307-337 | on a best-first ladder the levels walked are exactly the visible ones within the effective limit (if and only if) |
| `TakerWalk.WalkIsCheapest` | src/polymarket_bt/backtest/realism.py:242-277 | no other allocation of that size under the same allowances has a better total of price times size |
| `TakerWalk.VolumeCapIsShare` | src/polymarket_bt/backtest/realism.py:339-358 | at every rate, a size passes the volume cap exactly when the minimum covers it or it is at most the participation share of a tape that includes it; a rate of the whole tape or more caps at that multiple of the volume |
| `TakerWalk.PessimismMonotone` | src/polymarket_bt/backtest/realism.py:172-358 | turning any dial toward pessimism never fills more of the same order |
| `TakerWalk.PresetsOrdered` | src/polymarket_bt/backtest/realism.py:434-485 | pessimistic fills at most what base fills, and base at most what optimistic fills |
| `Affordability.MaxAffordableShares` | src/polymarket_bt/backtest/fastsim.py:407-430 | the binary search returns the largest size of its range whose cost fits |
| `Affordability.AffordableGlobally` | src/polymarket_bt/backtest/fastsim.py:407-430 | when every positive size is charged, a size fits the budget exactly when it is at most the result |
| `Affordability.AffordableGloballyIff` | src/polymarket_bt/backtest/fastsim.py:407-430 | under every schedule the result is globally largest exactly when the first size past the search range is not affordable |
| `Affordability.RangeEnd` | src/polymarket_bt/backtest/fastsim.py:416-430 | that size costs more than the budget exactly when twice the price less the division remainder reaches half a unit, or it is charged any fee |
| `Affordability.FreeAffordableGloballyIff` | src/polymarket_bt/backtest/fastsim.py:416-430 | for a free schedule, the remainder alone decides |
| `Affordability.SearchStopsShort` | src/polymarket_bt/backtest/fastsim.py:416-430 | a budget on which the search returns at most 11 although 14 units fit, for a free schedule and for one that charges but rounds to nothing |
| `Affordability.CapBuyToSpend` | src/polymarket_bt/backtest/fastsim.py:432-476 | the in-place trim loop computes the trimmed fill and reports exactly whether cash bound |
| `Affordability.TrimShape` | src/polymarket_bt/backtest/fastsim.py:446-466 | the trimmed fill is a prefix with only its last slice cut, at the same price and to a smaller size |
| `Affordability.TrimTotals` | src/polymarket_bt/backtest/fastsim.py:446-476 | it costs at most the budget, is no larger than before, and is cut exactly when the fill cost more than the budget |
| `Affordability.TrimMaximalIff` | src/polymarket_bt/backtest/fastsim.py:452-462 | one more unit at the cut level exceeds the budget exactly when money is left there or one unit costs anything |
| `Affordability.TrimCanStopShort` | src/polymarket_bt/backtest/fastsim.py:452-462 | a fill whose first slice costs exactly the budget, after which a free unit at the cut level would still fit |
| `Books.OrderBook.Replace` | src/polymarket_bt/orderbook/state.py:85-139 | a snapshot replaces both sides and clears the overlay, or is ignored as stale, or raises; the whole new state in each case |
| `Books.OrderBook.Apply` | src/polymarket_bt/orderbook/state.py:141-210 | an absolute-size update with pruning, crossing and top checks; the whole new state when it applies, is stale or raises part-way |
| `Books.OrderBook.Consume` | src/polymarket_bt/orderbook/state.py:80-83 | a fill adds to the overlay of one price on the resting side and changes nothing else |
| `Books.EveryRunKept` | src/polymarket_bt/orderbook/state.py:65-210 | over every run: levels positive and inside (0, 1), a valid book uncrossed with the top its last update reported, overlay within the displayed size at displayed prices |
| `BookRules.UpdatedByRule` | src/polymarket_bt/orderbook/state.py:141-210 | level by level: the named price shows the new size, prices the reported top denies show nothing, all others are as before, consumption is forgotten at the named price only; applied exactly when bids stay below asks and the reported tops are shown |
| `BookRules.ReplacedByRule` | src/polymarket_bt/orderbook/state.py:85-139 | a snapshot is loaded exactly when all its levels are on the grid, none repeats a positive one and they do not cross; the sides then show exactly its positive levels |
| `Books.AfterKept` | src/polymarket_bt/orderbook/state.py:80-210 | each operation keeps that invariant, tick changes and invalidation included |
| `Ladders.TakingStaysCovered` | src/polymarket_bt/orderbook/state.py:65-83 | fills taken from the available ladder never exceed what is displayed |
| `Ladders.NetExactly` | src/polymarket_bt/orderbook/state.py:65-78 | a level is available exactly when it is displayed with more than was taken there, and then with the rest |
| `Portfolios.Portfolio.ApplyFill` | src/polymarket_bt/backtest/portfolio.py:48-82 | a fill is refused exactly when it would overdraw cash or inventory; a buy adds its shares and notional; a sale leaves the rest at its average cost within one unit and realizes proceeds less the cost that went |
| `Portfolios.AverageStays` | src/polymarket_bt/backtest/portfolio.py:63-69 | the cost left after a sale is the old cost times the shares left over the shares held, rounded up |
| `Portfolios.Portfolio.SettleMarket` | src/polymarket_bt/backtest/portfolio.py:84-114 | settlement pays one unit per winning share and nothing for others, leaves every position of the market flat and without cost and no other touched, and realizes payout less the cleared cost basis |
| `Portfolios.AccountIdentity` | src/polymarket_bt/backtest/portfolio.py:48-114 | after any run, cash plus cost basis is starting cash plus realized profit less buy fees; no short position, no cost without shares |
| `Portfolios.PrefixOfPlan` | src/polymarket_bt/backtest/execution.py:75-122 | an order that passes the pre-check never fails part-way through its fills |
| `Execution.PlanOrder` | src/polymarket_bt/backtest/execution.py:43-73 | the planning loop yields the best-first plan against the available levels within the limit |
| `Execution.Execute` | src/polymarket_bt/backtest/execution.py:24-141 | an order is refused without any change or applied whole, to the book overlay and the portfolio alike |
| `ExecutionRules.PlanIsBestFirst` | src/polymarket_bt/backtest/execution.py:43-73 | a plan empties the available levels in order, the last one perhaps in part, and ends only when the size is met or the next level is empty or beyond the limit |
| `ExecutionRules.ExecutedByRule` | src/polymarket_bt/backtest/execution.py:24-141 | an order trades its whole best-first plan when the book is valid and cash or inventory covers all of it, and nothing otherwise; filled, partial and rejected say which |
| `Execution.FillsTake` | src/polymarket_bt/backtest/execution.py:43-122 | fills take at most the available size of each level, at distinct prices |
| `Execution.ExecutedBookSound` | src/polymarket_bt/backtest/execution.py:43-122 | an executed order leaves the book sound, so two orders never take the same displayed size |
| `Reconstruction.BookReconstructor.ApplySnapshot` | src/polymarket_bt/orderbook/reconstructor.py:34-51 | the effective tick, registration and replacement of one token; no other token changes |
| `Reconstruction.BookReconstructor.ApplyTickSizeChange` | src/polymarket_bt/orderbook/reconstructor.py:53-63 | a tick change on a known, unknown or mismatched book |
| `Reconstruction.BookReconstructor.ApplyChange` | src/polymarket_bt/orderbook/reconstructor.py:65-70 | an update needs a valid book; no other token changes |
| `Reconstruction.FedSound` | src/polymarket_bt/orderbook/reconstructor.py:34-70 | no event, accepted or refused, leaves an unsound book |
| `TapeRules.FedByRule` | src/polymarket_bt/orderbook/reconstructor.py:34-70 | which feed events are refused, what the refused ones leave alone, and the rule of books that the others follow |
| `TapeRules.TickStays` | src/polymarket_bt/orderbook/reconstructor.py:34-63 | a known tick size outlives every socket snapshot until a tick event or a REST snapshot, and each snapshot applied meanwhile is put on it |
| `Tapes.BuildTape` | src/polymarket_bt/backtest/tape.py:222-264 | the builder loop produces the rows and the uncertainty spans of the fold over the feed |
| `Tapes.BuiltMirrors` | src/polymarket_bt/backtest/tape.py:222-264 | outside open spans the last row shows the book, inside one the book is not valid |
| `Tapes.OpenSpanIsReported` | src/polymarket_bt/backtest/tape.py:227-264 | a span open at an instant is reported uncertain at that instant by the finished tape |
| `Tapes.TradeGateSound` | src/polymarket_bt/backtest/tape.py:740-747 | a valid last row outside every span shows exactly the book after all events up to then, and that book is valid |
| `TapeRules.SpansAreOutages` | src/polymarket_bt/backtest/tape.py:222-264 | conversely, every span reported begins when an event of its token raised, ends at the next snapshot that did not raise, and covers no moment in between at which the token had a valid book |
| `TapeLadders.BuiltWellFormed` | src/polymarket_bt/backtest/tape.py:337-383 | every tape built from a time-ordered feed has ordered rows with positive best-first ladders |
| `Sending.EpisodeReplay.Reconcile` | src/polymarket_bt/backtest/fastsim.py:479-512 | the cursor folds in exactly the unseen rows of the token and never moves back |
| `Sending.EpisodeReplay.Send` | src/polymarket_bt/backtest/fastsim.py:217-375 | the outcome, consumption record, cursor and latency draw of one order in every branch |
| `Sending.SentBounded` | src/polymarket_bt/backtest/fastsim.py:239-375 | no fill at or after the close or past the deadline, no buy beyond the cash or budget at its arrival, every slice correctly priced |
| `Sending.SentPrices` | src/polymarket_bt/backtest/fastsim.py:309-375 | fills happen at positive displayed prices |
| `SendRules.SentByRule` | src/polymarket_bt/backtest/fastsim.py:239-375 | which order is refused and changes nothing; any other meets the last trusted row by its arrival, takes from exactly what recorded consumption left of that row, pays as much of it as its money pays, and is remembered at its prices while restated ones are forgotten |
| `SendRules.VenueByRule` | src/polymarket_bt/backtest/fastsim.py:217-260 | an order arrives the next latency after its decision and follows that rule with the cash there is at its arrival |
| `SelfImpact.ReplayedOverlay` | src/polymarket_bt/backtest/fastsim.py:479-512 | replaying rows over the shared record is replaying them over the two overlays of the token |
| `OverlayRefinement.GreedyIsPlan` | src/polymarket_bt/backtest/realism.py:242-277 | with the realism stripped the depth walk is the plan of the reference simulator |
| `OverlayRefinement.LazyRefinesEager` | src/polymarket_bt/backtest/fastsim.py:309-375 | for every feed that never raises, stale events included, interleaved with orders in arrival order: the lazily reconciled overlay gives each order the fills the eager overlay gives it, unless the row of a stale event forgets consumption at a displayed price |
| `OverlayRefinement.StaleForgetsIff` | src/polymarket_bt/backtest/tape.py:222-261 | two overlays that agree at displayed prices still do after a stale event exactly when its row forgets nothing at one |
| `StaleRows.LossShowsIff` | src/polymarket_bt/backtest/fastsim.py:479-512 | forgetting what a row forgets changes the fills of some order exactly when it forgets consumption at a displayed price |
| `StaleRows.StaleRunShowsIff` | src/polymarket_bt/backtest/tape.py:222-261 | after a run that lost nothing visible, a stale event keeps the fills of every order that may come next equal in both simulators exactly when its row forgets nothing at a displayed price |
| `StaleRows.StaleUpdateSplitsFills` | src/polymarket_bt/backtest/tape.py:222-261 | a snapshot, a buy, a stale update and the same buy again, on which the two simulators give different fills |
| `Policies.ChildWithinSchedule` | src/polymarket_bt/backtest/optimal_execution.py:259-410 | a child is positive, at least the minimum, within what is left and within what the schedule allows by now |
| `Policies.TwapDecides` | src/polymarket_bt/backtest/optimal_execution.py:240-341 | before the deadline TWAP asks for the largest child within the equal slices up to now and every bound, or waits because not even the smallest fits |
| `Policies.PovDecides` | src/polymarket_bt/backtest/optimal_execution.py:378-410 | the adaptive policy asks for the largest child within the throttled part of what flow share and floor make due and every bound, or waits because not even the smallest fits |
| `Policies.DeadlineDecides` | src/polymarket_bt/backtest/optimal_execution.py:325-388 | at the deadline either policy asks for all that is left as far as the bounds allow |
| `Policies.ChildSizeIsBounds` | src/polymarket_bt/backtest/optimal_execution.py:259-310 | a child size is admitted exactly when it fits the rest, the largest child, the depth share, the inventory and the cash at the worst price with the fee reserve |
| `Policies.FloorIsShare` | src/polymarket_bt/backtest/optimal_execution.py:394-399 | the floor is a share of the target that elapsed time has made due |
| `Policies.ThrottleIs` | src/polymarket_bt/backtest/optimal_execution.py:403-410 | the throttle exactly: the adverse move in parts of the tolerance, faded by the elapsed share of the horizon and taken off the full rate down to the minimum, each step rounded as the code rounds |
| `Policies.ThrottleMeaning` | src/polymarket_bt/backtest/optimal_execution.py:403-410 | an adverse price throttles the more the worse it is and the earlier, down to the minimum, and no price better than the benchmark does |
| `Policies.CeilingMonotone` | src/polymarket_bt/backtest/optimal_execution.py:325-410 | the schedule ceiling rises with time and public volume and never exceeds the target |
| `Policies.TwapCompletes` | src/polymarket_bt/backtest/optimal_execution.py:325-341 | at the deadline the whole target is scheduled |
| `Policies.ParticipationShare` | src/polymarket_bt/backtest/optimal_execution.py:383-410 | with a zero floor, fills within the ceiling are at most the participation share of public volume plus own fills |
| `Sessions.CausalVolumeCursor.Advance` | src/polymarket_bt/backtest/optimal_execution.py:530-542 | incremental volume equals all prints of the token from the start through the asked instant, and time never moves back |
| `Sessions.VolumeIsPublic` | src/polymarket_bt/backtest/optimal_execution.py:504-542 | the index range between two bisections holds exactly the prints of the time range |
| `Sessions.SequentialExecutionSession.Decide` | src/polymarket_bt/backtest/optimal_execution.py:607-643 | when deciding is an error, when it waits, and otherwise the policy on exactly the causal state |
| `Sessions.SequentialExecutionSession.RecordOutcome` | src/polymarket_bt/backtest/optimal_execution.py:645-680 | an outcome is applied whole or refused without change |
| `Sessions.SequentialExecutionSession.EvaluateAt` | src/polymarket_bt/backtest/optimal_execution.py:703-717 | scoring is refused while a child is outstanding |
| `Sessions.OutcomeKeeps` | src/polymarket_bt/backtest/optimal_execution.py:645-760 | recording keeps fills within target and deadline, cash and inventory non-negative, and fills plus outstanding child within the schedule |
| `Sessions.LaterDecision` | src/polymarket_bt/backtest/optimal_execution.py:607-643 | time passing keeps the same |
| `Sessions.EvaluationSucceeds` | src/polymarket_bt/backtest/optimal_execution.py:444-501 | at the deadline scoring succeeds exactly when its mark is usable, and cash spent is benchmark cost plus raw shortfall |
| `ParentRules.RecordsAnswers` | src/polymarket_bt/backtest/optimal_execution.py:645-760 | a session records exactly the outcomes that answer its outstanding child, and moves shares and money by exactly their slices |
| `ParentRules.ScoresParent` | src/polymarket_bt/backtest/optimal_execution.py:444-501 | exactly when scoring succeeds; the shortfall against the benchmark, the unfilled rest and what fills lost by the mark, each weighted toward zero |
| `ParentRules.ScoresInFull` | src/polymarket_bt/backtest/fastsim.py:584-598 | a driven parent is scored with every weight at one |
| `ParentDriver.Turn` | src/polymarket_bt/backtest/fastsim.py:637-716 | one decision instant: what the policy sees, the child sent and the outcome recorded, as the turn specification says, with no guard tripped |
| `ParentDriver.ChildAccepted` | src/polymarket_bt/backtest/optimal_execution.py:645-680 | what the executor returns for the outstanding child trips no guard of the session |
| `ParentDriver.SequentialEntry` | src/polymarket_bt/backtest/fastsim.py:540-729 | the whole parent equals the fold of its turns, stays within target, budget, deadline and cash; each child asks within the schedule on top of all fills before it, under TWAP within the equal slices up to its instant, within the largest child and after the interval; cash spent is benchmark cost plus raw shortfall |
| `ParentDriver.ParentShare` | src/polymarket_bt/backtest/optimal_execution.py:383-410 | over a whole driven parent with a zero floor, all fills through any child decided before the deadline are at most the participation share of public volume plus those fills |
| `ParentRules.DecidesAt` | src/polymarket_bt/backtest/fastsim.py:619-640 | a parent decides exactly at its start, its deadline, every quarter of a second between and whenever a row or a trade of its token happens, once each and in order |
| `ParentRules.ActsOn` | src/polymarket_bt/backtest/fastsim.py:642-649 | it acts on the last row of its token so far, exactly when that may be trusted |
| `ParentRules.SeesOnly` | src/polymarket_bt/backtest/fastsim.py:650-694 | the policy sees what consumption left of both sides of that row, its own best ask and the public volume so far |
| `ParentRules.MarkIsLastAsk` | src/polymarket_bt/backtest/fastsim.py:717-729 | the mark is the best ask of the last row by the deadline, or the benchmark |
| `Episodes.MaybeExit` | src/polymarket_bt/backtest/fastsim.py:1147-1242 | one exit attempt as its specification says, keeping the position machine |
| `Episodes.ExitKept` | src/polymarket_bt/backtest/fastsim.py:854-909 | an exit attempt keeps the counters, the balance and the ordering of the run |
| `Episodes.EnterImmediate` | src/polymarket_bt/backtest/fastsim.py:950-994 | an immediate entry as its specification says, keeping the position machine |
| `Episodes.EnterSequential` | src/polymarket_bt/backtest/fastsim.py:995-1067 | a sequential entry as its specification says, keeping the position machine |
| `Episodes.EntryKept` | src/polymarket_bt/backtest/fastsim.py:950-1082 | an entry keeps every filled buy affordable at its arrival together with the buys before it, and one filled parent |
| `Episodes.SequentialFailsIff` | src/polymarket_bt/backtest/fastsim.py:564-584 | a sequential entry fails exactly when its dollar budget does not pay for one share unit at the displayed ask |
| `Episodes.RunEpisode` | src/polymarket_bt/backtest/fastsim.py:771-1112 | the main loop over the tape equals the fold of its rows, keeps the position machine on every tape, latency and cash source, and settles shares of the winning token at one each and of any other at nothing |
| `Episodes.ResultBalances` | src/polymarket_bt/backtest/fastsim.py:1084-1112 | told from the orders: entry shares are exit shares plus settled shares; the payout is the settled shares if the bought token won and nothing if not; notionals, fees, gross and net are their sums |
| `Episodes.ResultMachine` | src/polymarket_bt/backtest/fastsim.py:854-923 | at most the allowed stops, one take-profit, one flatten; no exit before an earlier fill or exit attempt arrived; no fill at or after the close; every filled buy in one block of successive orders, one order long for an immediate entry, with only exits after it |
| `OrderRules.OrdersAreJustified` | src/polymarket_bt/backtest/fastsim.py:847-1242 | every order of every run has its reason on the tape: an entry a row inside the window at an ask between trigger and limit, an exit a row of the held token that calls for its kind first, for its part of what is held, a retry its interval after the stop before it |
| `OrderRules.CalledExitIsSent` | src/polymarket_bt/backtest/fastsim.py:861-909 | conversely, a row of the held token that calls for an exit gets exactly the foremost one, unless the part to offer rounds to nothing |
| `OrderRules.TriggerIsTaken` | src/polymarket_bt/backtest/fastsim.py:923-994 | and a row that triggers an immediate entry gets it |
| `OrderRules.ReasonIsGiven` | src/polymarket_bt/backtest/fastsim.py:1084-1100 | the reason a result gives is that of its last order, with a stop that left shares named apart |
| `Episodes.SpendIs` | src/polymarket_bt/backtest/fastsim.py:940-948 | a dollar entry asks for what cash is left where that is less than it wants, and for all it wants where none is |
| `ExitOverlap.ExitsWaitInTurn` | src/polymarket_bt/backtest/fastsim.py:854-1082 | over every run, when immediate entries arrive in turn or the children of parents arrive at once, every exit is decided after the arrival of every order before it |
| `EntryRace.Overtaken` | src/polymarket_bt/backtest/fastsim.py:854-994 | for every pair of successive entries of which the later one may arrive first, a market on which the stop of its position is decided before the earlier, refused one arrives |
| `EntryRace.ExitsAlwaysWaitIff` | src/polymarket_bt/backtest/fastsim.py:854-994 | for every latency sequence, cooldown and entry limit: exits wait for all orders on every market exactly when, with ample cash, no entry is slower than the next by more than the cooldown; with any wallet, none is slower than the next |
| `ParentRace.ChildIsOvertaken` | src/polymarket_bt/backtest/fastsim.py:854-1082 | a parent whose second child is decided at the deadline: however little later it arrives, the stop at the deadline does not wait for it |
| `TapeForesight.ParentForesight` | src/polymarket_bt/backtest/fastsim.py:540-729 | on tapes and wallets that agree up to a time, a parent that ends by then is the same, and any other decides the same children by then and shares their outcomes up to the first that is still on its way |
| `TapeForesight.NoForeknowledge` | src/polymarket_bt/backtest/fastsim.py:771-1112 | two episodes whose tapes and wallets agree up to a time get the same outcomes up to some order, and all others arrive later; provided immediate entries arrive in turn and the wallets of share-sized parents agree at their deadlines |
| `TapeForesight.DecisionsReadThePast` | src/polymarket_bt/backtest/fastsim.py:771-1112 | where no immediate entry is retried before it arrives, they also decide the same orders by that time, children of parents included, and all others after it |
| `EntryRace.KnowsTheFuture` | src/polymarket_bt/backtest/fastsim.py:878-994 | for every such pair of entries, two markets that agree up to an instant and on which what is decided by then, and where the later entry has arrived also what arrives by then, differs |
| `EntryRace.ArrivalsForeseeNothingIff` | src/polymarket_bt/backtest/fastsim.py:878-994 | what arrives by a time depends on nothing later, on any two markets, exactly when entries arrive in turn, with ample cash and with any wallet |
| `EntryRace.DecisionsForeseeNothingIff` | src/polymarket_bt/backtest/fastsim.py:878-994 | what is decided by a time depends on nothing later, on any two markets, exactly when, with ample cash, the cooldown covers the latency of every entry another can follow; with any wallet, orders arrive at once |
| `ForesightLimits.EmptyAtDeadlineSendsNothing` | src/polymarket_bt/backtest/fastsim.py:605-617 | a share-sized parent whose wallet is empty at its deadline never sends a child, whatever the wallet holds before |
| `ForesightLimits.DeadlineCashIsForeseen` | src/polymarket_bt/backtest/fastsim.py:605-617 | two wallets that agree until the deadline, of which one parent sends nothing and the other sends at once |
| `Wallets.ReplayWallet.AdvanceTo` | src/polymarket_bt/backtest/wallet.py:84-100 | releases every credit due by the time, in order, and refuses to move back |
| `Wallets.ReplayWallet.Debit` | src/polymarket_bt/backtest/wallet.py:102-119 | advances, then debits or reports missing cash; the whole new state in each case |
| `Wallets.ReplayWallet.CreditAt` | src/polymarket_bt/backtest/wallet.py:121-134 | advances, then credits |
| `Wallets.ReplayWallet.ScheduleCredit` | src/polymarket_bt/backtest/wallet.py:136-152 | queues a later credit by time and sequence, applies a due one at once |
| `Wallets.ReplayWallet.PeekAvailableAt` | src/polymarket_bt/backtest/wallet.py:72-82 | the cash that would be available, without changing anything |
| `Wallets.LedgerKept` | src/polymarket_bt/backtest/wallet.py:42-157 | for every operation sequence: pending credits later than now, cash never negative, log ordered and replaying to the balance, peek equals advance, equity unchanged by advancing |
| `Compound.ApplyResult` | src/polymarket_bt/dashboard/backtest_service.py:601-665 | which error ends the application of a result, and the wallet after it otherwise |
| `Compound.ResultReconciles` | src/polymarket_bt/dashboard/backtest_service.py:614-665 | applying a simulated result to the wallet it traded from meets no missing cash, no time error and no mismatch, unless a sale is short; from then on the wallet has exactly what it had, less the buys, plus sales that arrived and a payout that is paid |
| `Compound.PurchasesDebited` | src/polymarket_bt/dashboard/backtest_service.py:626-646 | purchases payable at their arrivals debit without error and lower equity by their cost |
| `Compound.SalesScheduled` | src/polymarket_bt/dashboard/backtest_service.py:619-640 | the proceeds of a sale can be spent from its arrival on and not before |
| `Compound.AppliedInOrder` | src/polymarket_bt/dashboard/backtest_service.py:606-618 | cashflows are applied by arrival, sales before purchases at one instant, each exactly once |
| `Compound.StakesAllCash` | src/polymarket_bt/dashboard/backtest_service.py:540-552 | a market stakes all cash there is when it decides, and nothing that is only due later |
| `Compound.RunMarkets` | src/polymarket_bt/dashboard/backtest_service.py:506-598 | the compounded run over any markets, overlapping or not, equals the fold of its markets; at any time the wallet has the opening balance plus what results have brought by then, no sale before it arrived and no payout before it is paid; final equity is starting balance plus the sum of net profits; it trades only while money is left; the wallet is never asked about its past when markets do not overlap |
| `OverlappingMarkets.NextAsksPastIff` | src/polymarket_bt/dashboard/backtest_service.py:545-566 | the next market stops the run by asking the wallet about its past exactly when it may trigger an entry before the last purchase of the market before it arrived |
| `OverlappingMarkets.RunAsksPast` | src/polymarket_bt/dashboard/backtest_service.py:545-566 | a list of two overlapping markets on which it does |
| `Episodes.QuietUntilOpening` | src/polymarket_bt/backtest/fastsim.py:847-923 | before the first row that may trigger an entry a run sends nothing and asks no wallet |
| `ShortSale.MildNeverShort` | src/polymarket_bt/dashboard/backtest_service.py:619-640 | where at every displayed bid the fee of any size is at most its notional, no market list stops on a short sale |
| `ShortSale.MildWhen` | src/polymarket_bt/backtest/fees.py:25-35 | free schedules are so at every price, and at prices up to one every schedule with a curve, a rate of at most one and no minimum that does not round up |
| `ShortSale.RunStopsShort` | src/polymarket_bt/dashboard/backtest_service.py:619-640 | a market list under the shipped schedule that does |
| `Engine.QueueSorted` | src/polymarket_bt/backtest/engine.py:102-103 | a pushed order takes its place by arrival and counter; the queue gains exactly it |
| `Engine.BacktestEngine.Schedule` | src/polymarket_bt/backtest/engine.py:71-103 | each taker intent is queued once, arrives the next latency after its decision, with its own counter; maker intents use up a number |
| `Engine.OrdersArriveAfter` | src/polymarket_bt/backtest/engine.py:71-103 | over a whole trace the orders asked for are its taker intents in order, the n-th arriving the n-th latency after its decision |
| `Engine.BacktestEngine.ExecutePending` | src/polymarket_bt/backtest/engine.py:105-134 | exactly the orders due by the cutoff execute, in order, against the state at that moment |
| `Engine.BacktestEngine.Run` | src/polymarket_bt/backtest/engine.py:209-227 | a run that does not abort executes everything asked for, once, sorted by arrival and counter, each order in the state left by all events stamped at or before its arrival |
| `NoLookAhead.SameNextStep` | src/polymarket_bt/backtest/engine.py:105-227 | two complete runs that agree so far take the same next step of the shared past |
| `NoLookAhead.NoForeknowledge` | src/polymarket_bt/backtest/engine.py:209-227 | streams that agree up to a time give the same steps, the same orders asked for and the same state once all shared events are heard; whatever either run executes afterwards arrives later |
| `NoLookAhead.NoneBeforeItsLatency` | src/polymarket_bt/backtest/engine.py:71-227 | where no latency is below a bound, no order of a complete run executes before an event stamped earlier than that bound after its decision |
| `Resolution.EveryRunKept` | src/polymarket_bt/backtest/engine.py:105-180 | over every run of the engine, whatever the strategy remembers: books sound, resolved conditions flat, and cash plus cost basis exactly starting cash plus realized profit less buy fees |
| `Resolution.AccountIsLedger` | src/polymarket_bt/backtest/engine.py:105-162 | the account of a run is the fold of its fills and settlements in order |
| `Resolution.MeetsMarket` | src/polymarket_bt/backtest/engine.py:105-134 | an order of a resolved market or of a token without a book changes nothing; any other trades by its rule in account and overlay alike |
| `Resolution.ResolutionIsFinal` | src/polymarket_bt/backtest/engine.py:105-171 | in every possible run in which orders meet the events they should: orders arriving before a resolution executed before it, all others change nothing, and positions of the condition stay zero |
| `Resolution.StaysResolved` | src/polymarket_bt/backtest/engine.py:153-162 | a resolved condition stays resolved |
| `DegradedTime.Merge` | src/polymarket_bt/backtest/engine.py:198-205 | the merge loop yields separate spans covering the same instants |
| `DegradedTime.ClipsCover` | src/polymarket_bt/backtest/engine.py:191-197 | the sorted clipped spans cover exactly the instants of the replay inside some interval |
| `DegradedTime.SeparateLength` | src/polymarket_bt/backtest/engine.py:206 | separate spans measure what they cover |
| `DegradedTime.DegradedTimePpm` | src/polymarket_bt/backtest/engine.py:183-207 | the figure is the number of covered instants over the replay length, and the cap at one million never binds |
| `Maker.MakerQueueState.ObserveTrade` | src/polymarket_bt/backtest/maker.py:21-27 | a trade advances the queue first and fills the order with the rest |
| `Maker.MakerQueueState.ObserveDisplayedDecrease` | src/polymarket_bt/backtest/maker.py:29-38 | what each model takes off the queue on a displayed decrease |
| `Maker.SoundRun` | src/polymarket_bt/backtest/maker.py:13-38 | under every model the queue is never negative and fills never exceed the order |
| `Maker.ModelsOrdered` | src/polymarket_bt/backtest/maker.py:21-38 | over every run the conservative model fills at most what the other two do; the proportional one at most what the optimistic one does while every decrease is fair to its queue; none more than the order |
| `Maker.ShareDecidesOrder` | src/polymarket_bt/backtest/maker.py:29-38 | a decrease keeps proportional behind optimistic exactly when it is fair: its share does not exceed it or it clears the queue |
| `Maker.TakesShare` | src/polymarket_bt/backtest/maker.py:29-38 | the proportional model takes the share of a decrease that was ahead, rounded down, off the queue |
| `Maker.DisplayedIsFair` | src/polymarket_bt/backtest/maker.py:29-38 | every decrease is fair to a queue that was on display |
| `Maker.ProportionalOvertakes` | src/polymarket_bt/backtest/maker.py:21-38 | otherwise a trade fills the proportional order while the optimistic one still waits |
| `Maker.ConservativeClosedForm` | src/polymarket_bt/backtest/maker.py:21-31 | the conservative fill is the traded volume beyond the queue, up to the order size |

## Left out

- TakerWalk.Execute: reports one reason for an order that finds nothing to take, where the source names the rule that bound; these labels feed reports only.
- Execution.PlanOrder: plans share-sized orders only, like the execution it belongs to.
- Execution.Execute: models share-sized orders; the notional-sized variant of the engine's intents is not modelled.
- Episodes.RunEpisode: returns shares, notionals, fees, payout, profit and exit reason; average prices, slippage, peak adverse bid and per-entry execution scores are report fields and are not modelled.
- Resolution.EveryRunKept: a rejected quality interval ends a run like any raising event and is not modelled separately.
- Engine.BacktestEngine.Run: asks that a strategy stamps no intent earlier than the event it answers, as the shipped strategies do; what an earlier stamp would do is not modelled.
- Sessions.SequentialExecutionSession.RecordOutcome: the two narrower entry points for a single fill and for no fill are not modelled.
- Short selling and negative cash, which are switched off in every run modelled here; mark-to-market and equity reporting.
- Fixed sizing of the multi-market runner, which adds independent results, and ineligible episodes, which are skipped.
- Wallet `release_all`, identifiers, hashes, sources and details carried by events.
- Latency sampling and its random seeds, lognormal and calibration arithmetic: latency is arbitrary instead.
- Decimal precision: intermediate fee arithmetic is exact here.
- The finite depth of a stored tape row: rows carry whole ladders.
- The reconstructor's own uncertainty list, which only the live collector fills.
- Per-token row index lists and bisections over them: the model searches and folds the tape rows directly.
- The decision instants of a parent as a loop that ticks: the model takes the ordered set the loop builds.
- Dictionaries of books hold values in the reconstructor model, so aliasing between a book object and the dictionary is not captured.
- Tie-breaking when the event list is sorted: event lists are taken as already ordered.
- Ingestion, discovery, monitoring, storage, SQL, the command line, the dashboard server and report rendering.
