# A verified model of the trading engine

This project models the deterministic core of a C++ trading engine in Dafny and proves what its order books, its
ledgers, its random numbers, its factor graph, its execution algorithms, its live connection, its statistics and its
calendar promise. Prices, quantities and money are exact reals, timestamps and durations are integer nanoseconds, and
the tolerance of 1e-9 is one named constant. `dafny verify dfyconfig.toml` checks everything.

Classes stand where the engine updates objects in place: `OrderManager`, `BrokerSimulator`, `Engine`, `Position`,
`Portfolio`, `Journal`, `DeterministicRng`, `FactorGraph`, `Executor`, `LiveConnection`, `LiveBroker`,
`StatisticsAccumulator` and `DrawdownTracker`. Each of their methods is proved against a function on the abstract
state, and the results below are proved of those functions, so that they hold of every run of the classes.

## Main results

**Three books that agree (`OrderManagement`, `Venue`, `Agreement`, `Engines`, `EngineRuns`, `EngineFailures`,
`EngineOutcomes`, `EngineExamples`).** An engine run is any sequence of deliveries, each with any script of
submissions and cancels by a strategy and any answer of the risk gate. `EngineRuns.AgreementOverRuns` says that over
every run the venue's pending list and the order manager's records agree, so that no dispatched fill is ever refused
by the order manager; this matters because the order manager books a fill before its last legality check
(`OrderManagement.RefusedFillChangesTheBookOnlyInNew`). Where the agreement ends is stated exactly: the venue drops an
order within the tolerance of its quantity, the record does not complete, and such a record can be neither filled nor
cancelled again (`EngineFailures.StrandedRecordsAreResidues`); and an update that fails halfway gives none of the
fills it made to the book, the portfolio and the journal, so that venue and book then disagree exactly when one of
them was of a day or good-till-cancel order (`EngineFailures.FailedUpdateLosesFills`). Both happen in short runs from
the start (`EngineExamples`). `EngineOutcomes.RunFailsIff` says of every run exactly when it fails: a clock that would
move back, a split ratio that is not positive, or an update that attempts a trade with no positive price, a stale
acknowledgement, or a short position without permission. On sane data (positive prices and split ratios, no preset
acknowledgements), with short selling allowed and a clock that does not go back, what is left is a trade whose costs
take its whole price (`EngineOutcomes.SaneRunFailsIff`).

**What the venue trades (`VenueTrades`, `VenueTallies`).** Stated on bid, ask, limit and stop alone: which orders
rest, which are dropped, and that every fill of an update is of a due order, for the least of its rest, the displayed
size and the budget, and priced off its own side of the market against the trader. No due order waits where there is
plenty, a stop trades only once the market has reached it since the order arrived, over every run, and the budget of
an update is exceeded exactly when an order trades after it has been used up to the last share
(`VenueTrades.BudgetBrokenIff`). No order is lost: over every run the counters account for each of them
(`VenueTallies.OrdersAreAccountedFor`).

**Money is conserved (`Positions`, `Portfolios`, `PortfolioMarks`, `Journals`, `RoundTrips`, `Bookkeeping`,
`EngineLedgers`, `EngineRecords`).** Two independent average-cost matchers, the position's and the journal's, give the
same profit for any interleaving of fills, through reversals; every trade is the round trip of the fill that opened
its lot and the fill that closed it, at their prices and times. Costs of trades and of open lots add up to the costs
of all fills, and journal and portfolio agree on the cash. Equity obeys the profit identity over every engine run, and
without splits the position equals what the order book says was filled. Liquidation equity is the cash that closing
every marked position raises, half the spread below the equity at mids. Over every engine run the market shown, the
marks, the money traded and the price an order was decided at are those of the data taken in.

**Random numbers (`Rng`, `Images`, `Draws`).** Bounded draws are exactly uniform, over the draws and over the states
behind them, the hand-split 128-bit product is exact, state update and scrambler are bijections with explicit
inverses, and no seed ever reaches the all-zero state.

**Factor graph (`Names`, `FactorGraphs`, `FactorEvaluation`).** Ordering succeeds exactly on acyclic graphs and gives
the lexicographically least topological order. Incremental evaluation equals full evaluation.

**Execution (`Schedules`, `Algorithms`, `AlgorithmDecisions`, `Executors`, `ExecutorOrders`, `ExecutorRuns`,
`ExecutorOverfills`, `ExecutorTracking`).** A schedule's target equals the accrual of its slices at every instant. For
each of the six algorithms it is said exactly when a child is sent, how much of the parent it is and at what limit.
Every cap holds except where it is said exactly when it does not. No execution is overfilled as long as fills leave
nothing of their child working (`ExecutorRuns.NeverOverfilled`). Without that condition, a parent comes within reach
of overfilling at some point of a run exactly when some market event sends more for it than is neither filled nor with
a live child (`ExecutorOverfills.NeverOverfillableIff`).

**Live protocol (`Connections`, `ConnectionRuns`, `ConnectionClocks`, `LiveBrokers`, `LiveSubmissions`, `LiveRuns`,
`LiveOrders`, `LiveBatches`, `LiveFills`, `LiveExamples`).** Sequenced messages are accepted in strictly increasing
order over every run with reconnects, so that a sequenced fill is ingested at most once. As long as no id is submitted
while it is pending, what is ingested for an order since it was last sent never exceeds its size plus the tolerance,
failed sends and resubmissions included (`LiveOrders.NeverIngestsTooMuch`); a submission lets the venue exceed it
exactly when its id is pending (`LiveOrders.SubmitInvitesTooMuchIff`). Every ingested fill repeats its message and its
order, so that the cash of a poll is the cash its messages report (`LiveFills.PollReturnsWhatWasReported`). Silence
and the next attempt are read off the events of a run (`ConnectionClocks`), and after too long a silence nothing is
sent before a new open and a synchronization.

**Statistics (`Sums`, `Moments`, `RiskWindows`, `Drawdowns`, `DrawdownDetails`).** One-pass moments equal their
definitions, the sliding sorted window equals the sorted window, expected shortfall is never below value at risk, and
the online drawdown tracker equals the batch definitions.

**Time (`TimeChain`, `CivilDates`, `Timestamps`, `Holidays`, `Calendars`, `MarketDates`, `Sources`).** Printing and
parsing undo each other in the date-time form of section 5.6 of RFC 3339, and texts with any fraction or none parse to
their instant. Easter is the first Sunday after the Paschal full moon in every year, holidays and half days are
disjoint weekdays, and the session of every date follows from its month, day and weekday
(`MarketDates.UsSessionByDate`). Lookups by binary search equal scans, and merging streams succeeds exactly on
chronological input.

## Where the code differs from what it says

The model follows the code in each of these.

- The edge table checks adjacent stages only, so a chain with a gap may run backwards. Only a missing submission
  between decision and arrival hides nothing, because that pair is checked by itself
  (`TimeChain.OrderedExactlyWithoutGaps`).
- `OrderRecord::complete` has no tolerance while the venue has one (`EngineFailures.ResidueStrandsTheRecord`,
  `EngineExamples.StrandingRun`).
- A failing update keeps the fills it made from everyone but the venue (`EngineFailures.FailedUpdateLosesFills`,
  `EngineExamples.LostFillRun`).
- The book takes a transition to Filled of a record that is not complete
  (`OrderManagement.TransitionKeepsTheBookSoundIff`).
- The participation budget of an update stops binding once it has been used up exactly
  (`VenueTrades.BudgetBrokenIff`).
- A replacement that fails has already cancelled the original (`OrderManagement.FailedReplaceStillCancels`).
- The journal drops an entry that goes back in time and tells nobody (`Journals.EntriesCompleteIffInOrder`).
- A TWAP or VWAP target may already be positive at the beginning of a window with fewer nanoseconds than slices
  (`Schedules.StartsAtZeroIff`).
- The final residue is sent whole, above the participation and the display cap
  (`Algorithms.ParticipationCapBrokenIff`, `Algorithms.DisplayCapBrokenIff`,
  `Algorithms.ParticipationShareBrokenIff`), and an iceberg whose display is below one lot shows everything
  (`Algorithms.IcebergShowsTooMuchIff`).
- A scheduled execution sends only before its window ends and its target is reached only at the end, so its schedule
  alone never completes it: it is filled whole exactly when some event finds it behind with no more left than the
  minimum clip (`ExecutorTracking.FillsTheWholeIff`).
- A partial fill frees the working child, so resting children can overfill a parent
  (`ExecutorTracking.OverfillExample`; exactly when: `ExecutorOverfills.PartialFillInvitesIff`).
- The error for exhausted reconnect attempts cannot be reached, and the first wait is already multiplied
  (`ConnectionRuns.ExhaustionIsNeverReported`, `ConnectionRuns.WaitsGrow`).
- A message dated too far ahead raises the remembered sequence number before it is dropped and is lost for good
  (`ConnectionRuns.OfferedIsNeverAcceptedLater`).
- A message that fails turns a batch into an error though its earlier fills were ingested
  (`LiveBatches.PollLosesFillsIff`, `LiveExamples.LostFillRun`).
- Nothing stops an id from being submitted again while it is pending. It can then take twice its size
  (`LiveExamples.TwiceTheSize`), and when that second send fails, the undo cancels the first order and keeps the
  refused one (`LiveRuns.RefusedSubmitLeaves`).
- The timestamp parser accepts a negative hour (`Timestamps.NegativeHourExample`; the values a field can have:
  `Timestamps.FieldReadsIff`).
- With negative equity the running-peak drawdown is not the deepest pair (`Drawdowns.NegativeEquityExample`; exactly
  when: `Drawdowns.MissesADeeperPairIff`).

## Model

| member | source | states |
|---|---|---|
| TimeChain.ValidateChain | src/core/time.cpp:131-159 | a chain passes exactly when no adjacent pair of present stages goes backwards and the arrival is strictly after the decision; a same-bar fill is reported as its own strict violation, any other refusal names the first broken edge |
| TimeChain.GaplessChainIsOrdered | src/core/time.cpp:25-33 | when the stamped stages have no gap other than a missing submission between decision and arrival, a passing chain is ordered between any two of its stages, not only the compared ones |
| TimeChain.GapHidesDisorder | src/core/time.cpp:131-159 | every other gap can be passed by a chain whose stages run backwards over it: one is constructed for each pattern of stamps and each gap |
| TimeChain.OrderedExactlyWithoutGaps | src/core/time.cpp:131-159 | hence all passing chains with a given pattern of stamps are in order exactly when the pattern has no such gap |
| TimeChain.FillFollowsDecision | src/core/time.cpp:131-159 | in a passing chain the fill is strictly after the decision |
| Orders.Make | src/oms/order.cpp:48-97 | an order is made exactly when every field rule of its type holds, and a broken time chain is reported as such only when nothing before it failed |
| Orders.WithArrival | src/oms/order.cpp:131-141 | an order that received an arrival has it strictly after its decision |
| Orders.CashDeltaMovesShares | src/oms/order.cpp:171-175 | the cash a fill moves plus the value of the shares it moves is minus its total cost |
| OrderManagement.OrderManager.NextId | src/oms/order_manager.cpp:80-82 | hands out the counter and advances only the counter |
| OrderManagement.OrderManager.Submit | src/oms/order_manager.cpp:84-101 | the new book and the answer are those of the specification of submission, refusals included |
| OrderManagement.OrderManager.Transition | src/oms/order_manager.cpp:103-116 | the new book and the answer are those of the specification of transitions |
| OrderManagement.OrderManager.ApplyFill | src/oms/order_manager.cpp:118-159 | the new book and the answer are those of the specification of filling, including that the amounts are booked before the last legality check |
| OrderManagement.OrderManager.CancelReplace | src/oms/order_manager.cpp:161-179 | the new book and the answer are those of the specification of replacement, a cancelled original staying cancelled when the replacement is refused |
| OrderManagement.OrderManager.ExposureOf | src/oms/order_manager.cpp:202-213 | the loop over the records computes the sum of signed open quantities of the instrument |
| OrderManagement.TerminalIsFinal | src/oms/order_manager.cpp:38-73 | no operation whatever changes a record that has reached a terminal state |
| OrderManagement.RefusedFillChangesTheBookOnlyInNew | src/oms/order_manager.cpp:118-159 | a refused fill leaves the book untouched except in exactly one case, a record still New, where the quantities have already been booked when the transition is refused |
| OrderManagement.AcceptedFillIsBooked | src/oms/order_manager.cpp:118-159 | an accepted fill moves quantity, notional and cost by exactly its own, touches no other record, and makes the order Filled exactly when nothing remains |
| OrderManagement.ReplaceNeverLeavesBothLive | src/oms/order_manager.cpp:161-179 | a replacement that succeeds leaves the original cancelled and the new order New; one that fails adds no record |
| OrderManagement.FailedReplaceStillCancels | src/oms/order_manager.cpp:161-179 | a replacement that fails has nevertheless changed the book exactly when the original was live and the new id was taken or its parent unknown |
| OrderManagement.SubmitKeepsTheBookSound | src/oms/order_manager.cpp:84-101 | submission keeps every record filled between zero and its quantity, with a state that fits, and every id below the counter |
| OrderManagement.TransitionKeepsTheBookSoundIff | src/oms/order_manager.cpp:103-116 | a transition keeps the book sound exactly when it is not an accepted one to Filled of a record that is not complete |
| OrderManagement.FillKeepsTheBookSoundIff | src/oms/order_manager.cpp:118-159 | a fill keeps the book sound exactly when it is not one refused in New, whose quantities stay booked |
| OrderManagement.ReplaceKeepsTheBookSound | src/oms/order_manager.cpp:161-179 | replacements keep the book sound |
| OrderManagement.NextIdIsFree | src/oms/order_manager.cpp:80-82 | in a sound book the next id is not in use |
| OrderManagement.SubmitAddsExposure | src/oms/order_manager.cpp:202-213 | an accepted order adds its signed quantity to the exposure of its instrument and nothing to any other |
| OrderManagement.FillReducesExposure | src/oms/order_manager.cpp:202-213 | an accepted fill takes its signed quantity off the exposure, or the whole signed remainder when it ends the order |
| OrderManagement.EnteredFrom | src/oms/order_manager.cpp:43-73 | read by target: from which states each state can be entered |
| OrderManagement.LifeGoesForward | src/oms/order_manager.cpp:43-73 | every legal move takes an order further in its life, except that partly filled and being cancelled may alternate |
| OrderManagement.FillAcceptedIff | src/oms/order_manager.cpp:118-159 | a fill is accepted exactly when its order is pending, working, partly filled or being cancelled, instrument and side agree, the filled quantity stays within the order by 1e-9, and the fill is after the decision |
| Venue.BrokerSimulator.Submit | src/execution/broker.cpp:27-54 | the new venue state and the answer are those of the specification of acceptance |
| Venue.BrokerSimulator.Cancel | src/execution/broker.cpp:56-62 | the first pending order with the id leaves the book, or nothing changes |
| Venue.BrokerSimulator.Settle | src/execution/broker.cpp:201-305 | one visit to one pending order leaves in its place exactly what the visit says, before and after it untouched |
| Venue.BrokerSimulator.MatchPending | src/execution/broker.cpp:154-309 | the loop that iterates, erases and spends the budget in place computes the recursive matching of the pending list, including where it stops on an error |
| Venue.BrokerSimulator.OnMarket | src/execution/broker.cpp:154-309 | a market update is that matching, and on an error the fills made so far are dropped while the pending list keeps their quantities |
| Venue.BrokerSimulator.IngestExternalFill | src/execution/broker.cpp:94-152 | the new venue state and the answer are those of the specification of ingestion: every refusal, the residue rule and the fill |
| Venue.ResumeOne | src/execution/broker.cpp:154-309 | what the loop has done so far followed by matching the rest is the matching of the whole, across each of the four outcomes of a visit |
| VenueTrades.RestsIff | src/execution/broker.cpp:161-253 | a visit leaves an order resting exactly when it has not arrived, is of another instrument, waits for its stop or is away from its limit, or when nothing is displayed or traded for it; stated on bid, ask, limit and stop alone |
| VenueTrades.DiscardsIff | src/execution/broker.cpp:210-266 | a visit drops an order without a trade exactly when it is due and has nothing left, or must be filled whole and the market has less than that |
| VenueTrades.TradeIsADeal | src/execution/broker.cpp:268-305 | a trade is of a due order, for the least of its rest, the displayed size and the budget, at the ask for a buy and the bid for a sell, moved against the trader by impact and slippage, and by half the spread on a bar; the fill copies the order, its arrival price included |
| VenueTrades.QuotedTradeIsAtLimit | src/oms/order.cpp:143-156 | at a quote a limit order trades only with the ask at or below a buy limit and the bid at or above a sell limit, and a stop not yet triggered only at or through its stop |
| VenueTrades.NeverBetterThanTheQuote | src/execution/broker.cpp:268-280 | when impact and slippage together are not negative, the fill price is at or above the ask for a buy and at or below the bid for a sell |
| VenueTrades.FillsAreDeals | src/execution/broker.cpp:154-309 | the fills of a whole update, failed or not, are such trades of different pending orders in list order, each priced with a slippage draw of its own |
| VenueTrades.NoDueOrderWaits | src/execution/broker.cpp:154-309 | after an update that does not fail, every due order with a rest has a fill when size is displayed and volume traded, unless it must be filled whole |
| VenueTrades.BudgetBrokenIff | src/execution/broker.cpp:158-160 | the fills of one update exceed the participation budget exactly when one of them comes after the others have used it up to the last share, for zero left no longer caps |
| VenueTrades.TriggeredMeansReached | src/execution/broker.cpp:184-197 | over every run of the venue an order whose stop has triggered has seen an update at or through the stop since it arrived |
| VenueTrades.StopsTradeOnlyOnceReached | src/execution/broker.cpp:184-208 | hence over every run a fill of a stop order comes with or after such an update |
| VenueTallies.VisitAdds | src/execution/broker.cpp:255-305 | one visit counts a fill and its commission exactly for a trade, a partial fill exactly when more than 1e-9 is left, and a kill exactly for an open order that is dropped |
| VenueTallies.NothingIsLost | src/execution/broker.cpp:154-309 | over a whole update, failed or not, the counters account for every pending order: those kept, those killed and those filled to the end add up to those there were, except that immediate orders also leave after a partial fill |
| VenueTallies.OrdersAreAccountedFor | src/execution/broker.cpp:27-62 | over every run of the simulated venue each submission is counted as accepted or rejected, and the accepted orders are those pending, withdrawn, killed or filled |
| VenueTallies.IngestLeaves | src/execution/broker.cpp:94-152 | an accepted external fill takes its order off the list exactly when it leaves no more than 1e-9, otherwise adds to what is filled of it, changes no other order and counts one fill and its commission |
| Agreement.ChangeOne | src/execution/broker.cpp:154-309 | replacing one pending entry and its record keeps the agreement of the two books when the new entry is backed and, for day and good-till-cancel orders, present exactly when the record is outstanding |
| Agreement.RestKeepsAgreement | src/execution/broker.cpp:184-208 | an order that only rests, or whose stop triggers, keeps the books in agreement |
| Agreement.KillKeepsAgreement | src/execution/broker.cpp:261-266 | an all-or-none order dropped without telling the order manager keeps the one-way agreement |
| Agreement.BackedFillIsAccepted | src/oms/order_manager.cpp:118-159 | a fill of an order the venue holds is never refused by the order manager, and leaves its record Filled exactly when the quantities are equal |
| Agreement.FillKeepsAgreement | src/execution/broker.cpp:268-305 | a fill applied to both books leaves them in agreement |
| Agreement.SubmitKeepsAgreement | src/engine/engine.cpp:55-81 | a working order added to both books leaves them in agreement |
| Agreement.RejectKeepsAgreement | src/engine/engine.cpp:59-66 | an order the venue refuses, recorded as rejected, leaves them in agreement |
| Agreement.CancelKeepsAgreement | src/engine/engine.cpp:84-88 | a cancel the venue accepts is always accepted by the order manager |
| Agreement.PendingIsCancellable | src/oms/order_manager.cpp:43-73 | every order pending at the venue can legally be cancelled in the order manager |
| Engines.Engine.constructor | src/engine/engine.cpp:267-278 | a new engine is in the initial state with books of its own |
| Engines.Engine.SinkSubmit | src/engine/engine.cpp:20-82 | gate, journal, order manager and venue are driven in the source order, each refusal leaving what was already written |
| Engines.Engine.SinkCancel | src/engine/engine.cpp:84-88 | the order manager is told of a cancel only when the venue accepted it |
| Engines.Engine.RunScript | src/engine/engine.cpp:123-182 | the calls a strategy makes during one event are made in order |
| Engines.Engine.DispatchFill | src/engine/engine.cpp:109-121 | one fill reaches order manager, portfolio and journal in that order, stopping at the first refusal |
| Engines.Engine.DispatchFills | src/engine/engine.cpp:109-121 | the fills of an update are dispatched in order until one is refused |
| Engines.Engine.MatchAndDispatch | src/engine/engine.cpp:148-150 | an update is matched at the venue and its fills dispatched |
| Engines.Engine.HandleBar | src/engine/engine.cpp:123-160 | a bar updates the market, marks the portfolio, matches what rests and only then lets the strategy act |
| Engines.Engine.HandleQuote | src/engine/engine.cpp:162-182 | a quote updates the touch, marks the portfolio, matches what rests and only then lets the strategy act |
| Engines.Engine.Deliver | src/engine/engine.cpp:197-252 | one event moves the clock forward and is handled by its kind; a clock that would move back is refused |
| Engines.Run | src/engine/engine.cpp:267-278 | the run loop over a whole feed is the recursive run of the specification |
| Engines.FailedRunStops | src/engine/engine.cpp:267-278 | once an event has failed no later event changes anything |
| EngineRuns.TradeFillsItsOrder | src/execution/broker.cpp:154-309 | a visit trades only an order of the updated instrument that has arrived, for more than nothing and at most what remains, all of an all-or-none order, at the update time, in a valid time chain |
| EngineRuns.DispatchOneAgrees | src/engine/engine.cpp:109-121 | dispatching one venue fill from agreeing books is never refused by the order manager |
| EngineRuns.DispatchAgrees | src/engine/engine.cpp:109-121 | dispatching all fills of an update brings the order manager into agreement with the venue, though the venue finished first |
| EngineRuns.MatchingKeepsInvariant | src/engine/engine.cpp:148-150 | a market update keeps the whole invariant |
| EngineRuns.AcceptedOrderArrivesLater | src/execution/broker.cpp:27-54 | an accepted order reaches the venue strictly after both its submission and its decision |
| EngineRuns.SubmittingKeepsInvariant | src/engine/engine.cpp:20-82 | submission keeps the invariant whatever the gate and the venue answer, and succeeds exactly when all three accept |
| EngineRuns.SubmittingBooks | src/engine/engine.cpp:20-82 | after submission the record is Working when the venue accepted and Rejected when it did not |
| EngineRuns.CancellingKeepsInvariant | src/engine/engine.cpp:84-88 | a cancel succeeds exactly when the venue holds the order, keeps the invariant and otherwise changes nothing |
| EngineRuns.DeliveringKeepsInvariant | src/engine/engine.cpp:197-252 | every event keeps the invariant and is never refused by the order manager |
| EngineRuns.AgreementOverRuns | src/engine/engine.cpp:267-278 | over every run every order pending at the venue has a working or partly filled record with the same filled quantity (both ways for day and good-till-cancel orders), every fill is strictly after the decision and submission of its order, and no dispatched fill is ever refused by the order manager |
| EngineLedgers.LedgersAgreeOverRuns | src/engine/engine.cpp:109-121 | over every run without splits the position of each instrument equals the signed sum of filled quantities in the order book, and its realized profit the gross profit of the matched trades |
| EngineLedgers.BalancedOverEngineRuns | src/engine/engine.cpp:267-278 | the portfolio stays balanced over every run, failed ones and splits included |
| EngineLedgers.EquityIdentityOverEngineRuns | src/engine/engine.cpp:267-278 | over every run equity is initial cash plus realized plus unrealized profit less costs plus dividends |
| EngineRecords.MarketShowsData | src/engine/engine.cpp:123-182 | over every run the market of each instrument shows the touch and sizes of its last quote, or before any quote the close of its last bar, the volume and range of its last bar, and the portfolio marks it at what the last of them set, divided by the splits since |
| EngineRecords.AcceptedOrderIsPriced | src/engine/engine.cpp:28-81 | after every run an order the sink accepts stands as working in the book and last at the venue with the mid of the last quote, or else the last close, as its arrival price, and the journal gets an entry with that price when its time allows |
| EngineRecords.RefusedOrderIsNoted | src/engine/engine.cpp:44-51 | a submission that risk refuses leaves one rejection entry in the journal when its time allows and changes nothing else |
| EngineRecords.MoneyIsWhatWasTraded | src/engine/engine.cpp:109-121 | over every run cash, costs and turnover of the portfolio are those of the dispatched fills and the dividends, and the turnover of the engine is that of the fills since the session opened |
| EngineRecords.FillsAreOfTheEvent | src/engine/engine.cpp:148-182 | fills come with bars and quotes only, of their instrument, at the close time of the bar or the exchange time of the quote |
| EngineFailures.ResidueStrandsTheRecord | include/ptl/oms/order_manager.hpp:53-56 | the venue drops an order while its record stays live exactly when the fill leaves a positive rest within the tolerance, which only the venue applies |
| EngineFailures.StrandedRecordsAreResidues | src/execution/broker.cpp:295-304 | the live day and good-till-cancel records the venue no longer holds are exactly the partly filled ones whose rest is within the tolerance, and they can never be cancelled |
| EngineFailures.ImmediateRemaindersStayLive | src/execution/broker.cpp:299-301 | an immediate-or-cancel order leaves the venue with its first fill, and its record stays live exactly when something remains |
| EngineFailures.FillRefusedExactly | src/execution/broker.cpp:64-92 | a fill of a backed order fails exactly on a non-positive price or an acknowledgement before the fill |
| EngineFailures.FailedUpdateLosesFills | src/engine/engine.cpp:148-150 | when an update fails at the venue, book, portfolio and journal hear of none of the fills made before the failure; in every reachable state the venue still agrees with the book afterwards exactly when none of those fills was of a day or good-till-cancel order |
| EngineFailures.UnbookedFillsAgreeIff | src/execution/broker.cpp:154-309 | the same for any pending list and book in agreement, whether or not the matching fails: the list after matching agrees with the book before it exactly when no resting order was filled |
| EngineExamples.LostFillRun | src/engine/engine.cpp:267-278 | a run of two events from the start in which that happens: the venue has bought a share, the run has failed and the record shows nothing filled |
| EngineExamples.StrandingRun | src/engine/engine.cpp:267-278 | a run of three events from the start that succeeds and leaves a partly filled record that nothing can fill or cancel |
| EngineOutcomes.MatchingFailsIff | src/execution/broker.cpp:154-309 | the trades an update attempts are fixed by arrival, stop, limit, display, budget and time in force before any is priced; matching fails exactly when one of them has no positive price or an acknowledgement not before the fill, and otherwise fills exactly these |
| EngineOutcomes.UpdateFailsIff | src/engine/engine.cpp:148-150 | from every reachable state a market update fails exactly when one of its attempted trades has no positive price, a stale acknowledgement, or takes a position short without permission |
| EngineOutcomes.DeliveryFailsIff | src/engine/engine.cpp:197-252 | an event fails exactly when the clock would move back, a split ratio is not positive, or its update fails so |
| EngineOutcomes.RunFailsIff | src/engine/engine.cpp:267-278 | a run fails exactly when at some event, after all before it succeeded, one of these holds |
| EngineOutcomes.SaneRunFailsIff | src/engine/engine.cpp:267-278 | on positive prices and split ratios, orders without a preset acknowledgement, a clock that does not go back and short selling allowed, a run fails exactly when the costs of some attempted trade take the whole price, whatever the strategy and the gate do |
| Positions.Position.Apply | src/portfolio/position.cpp:8-56 | the new fields are those of the specification, and the value returned is the change in realized profit |
| Positions.Position.ApplySplit | src/portfolio/position.cpp:58-67 | a split multiplies the quantity and divides the average cost |
| Positions.TradeConservesValue | src/portfolio/position.cpp:21-54 | quantity times average cost moves by the traded value plus the profit realized, through increase, reduction, close and reversal alike |
| Positions.FillIdentity | src/portfolio/position.cpp:8-56 | one fill: cash moved plus change of basis is the realized profit less the cost |
| Positions.CashIdentityOverRuns | src/portfolio/position.cpp:8-67 | over any sequence of fills and splits, cash moved plus quantity times average cost is realized profit less costs, and a flat position has no average |
| Positions.MarkedIdentityOverRuns | src/portfolio/position.cpp:8-67 | the same with market value and unrealized profit, at every mark |
| Positions.QuantityIsBoughtLessSold | src/portfolio/position.cpp:8-67 | over any sequence the quantity is what was bought less what was sold, splits adjusting all three |
| Positions.ReversalResetsTheBasis | src/portfolio/position.cpp:36-54 | a fill through zero realizes on the whole old position, flips the sign and takes its own price as the new average |
| Portfolios.Portfolio.Apply | src/portfolio/portfolio.cpp:17-43 | cash, realized profit, costs, turnover and the position move as specified, or the short check refuses and nothing moves |
| Portfolios.Portfolio.ApplySplit | src/portfolio/portfolio.cpp:45-57 | a split adjusts position and marks, or a bad ratio is refused |
| Portfolios.Portfolio.ApplyDividend | src/portfolio/portfolio.cpp:59-65 | a dividend pays cash on the held quantity |
| Portfolios.Portfolio.Mark | src/portfolio/portfolio.cpp:67-69 | a mark changes only the marks |
| Portfolios.Portfolio.ComputeEquity | src/portfolio/portfolio.cpp:109-111 | the loop over positions computes cash plus the sum of marked values |
| Portfolios.BalancedOverRuns | src/portfolio/portfolio.cpp:17-69 | over any sequence of fills, splits, dividends and marks the cash, the basis and the realized profit of all positions stay in balance |
| Portfolios.EquityIdentityOverRuns | src/portfolio/portfolio.cpp:109-133 | over any such sequence equity is initial cash plus realized plus unrealized profit less costs plus dividends |
| Portfolios.ValueIsBasisPlusUnrealized | src/portfolio/portfolio.cpp:100-133 | the marked value of all positions is their basis plus the unrealized profit |
| Portfolios.SplitKeepsEquity | src/portfolio/portfolio.cpp:45-57 | a split never changes equity |
| Portfolios.NoShortWithoutPermission | src/portfolio/portfolio.cpp:17-57 | without permission no sequence of fills, splits, dividends and marks takes a position below zero by more than the tolerance, scaled by the splits it went through |
| PortfolioMarks.MidExceedsLiquidation | src/portfolio/portfolio.cpp:82-111 | equity at mids exceeds equity at liquidation by exactly half the spread times the absolute quantity, summed over the marked positions |
| PortfolioMarks.LastExceedsLiquidation | src/portfolio/portfolio.cpp:82-111 | equity at last marks, which are bids, exceeds it by exactly the whole spread times the quantity of the marked shorts |
| PortfolioMarks.CloseOutKeepsEquity | src/portfolio/portfolio.cpp:82-111 | closing a marked position free of cost at the bid for a long and at the ask for a short keeps the liquidation equity |
| PortfolioMarks.LiquidationRaisesItsEquity | src/portfolio/portfolio.cpp:82-111 | selling every marked long at its bid and buying back every marked short at its ask, free of cost and through the booking of fills, leaves as cash exactly the liquidation equity before |
| Journals.Journal.Append | src/accounting/journal.cpp:65-72 | an entry is appended exactly when it does not go back in time |
| Journals.Journal.RecordFill | src/accounting/journal.cpp:74-87 | a fill is always kept, its entry only when it is in order |
| Journals.Journal.MatchTrades | src/accounting/journal.cpp:98-157 | the loop with its per-instrument open lots computes the trades of the specification |
| Journals.OneFillAgrees | src/accounting/journal.cpp:98-157 | a fill moves an open lot and a position to the same quantity and average, and the trade it closes has the profit the position realizes |
| Journals.OneFillConservesCosts | src/accounting/journal.cpp:98-157 | the cost of a trade and the cost carried on make up the old carried cost plus that of the fill, across reversals |
| Journals.TradesSumToRealized | src/accounting/journal.cpp:98-157 | for any interleaving over instruments the gross profit of the trades of an instrument is the realized profit of a position fed with its fills |
| Journals.CostsAreConserved | src/accounting/journal.cpp:98-157 | trade costs plus the cost carried on the open lot are the total cost of all fills of the instrument |
| Journals.RoundTripClosesWhatWasOpen | src/accounting/journal.cpp:117-144 | a trade has the opposite direction of its closing fill, closes no more than was open or was traded, and closes it all exactly when the position ends or reverses |
| Journals.RecordingKeepsOrder | src/accounting/journal.cpp:65-87 | the entries stay in time order and no fill is lost, whatever the order of the fills |
| Journals.EntriesCompleteIffInOrder | src/accounting/journal.cpp:65-87 | every fill has its entry exactly when the fills came in time order; an entry that goes back is dropped silently |
| RoundTrips.LotWasOpened | src/accounting/journal.cpp:116-121 | whenever something of an instrument is held, its lot carries the time and the side of the fill that opened it: the last one that came upon nothing held or turned the position over |
| RoundTrips.TradeOfALot | src/accounting/journal.cpp:122-139 | a trade has the average of the lot as entry and the price of the fill as exit, closes the lesser of the two quantities, and its gross profit is exit less entry times quantity, negated for a short |
| RoundTrips.TradesAreRoundTrips | src/accounting/journal.cpp:98-157 | the trades of any list of fills are, one by one and in order, the round trips of the fills that trade against what is held: opening time and side of the fill that opened the lot, closing time and price of its own, entry price the average cost of the position accounting, gross profit (exit - entry) * quantity * direction |
| Bookkeeping.BookingIs | src/portfolio/portfolio.cpp:17-43 | a fill is booked exactly when it leaves no forbidden short position, and then cash, costs and turnover move by what it says, otherwise not at all |
| Bookkeeping.CashIsPaidIn | src/portfolio/portfolio.cpp:17-65 | over every run cash is the initial cash, what the booked fills paid in and the dividends on the shares then held; costs and turnover are the sums over those fills |
| Bookkeeping.EntriesCarryTheCash | src/accounting/journal.cpp:74-87 | of fills in time order every one has an entry with its order, side, quantity, price, signed cash and cost, and the entries add up to the cash paid in and the costs charged |
| Bookkeeping.JournalAgreesWithPortfolio | src/accounting/journal.cpp:65-87 | hence the cash and the costs in the journal are what the portfolio moved by on the same fills |
| Rng.DeterministicRng.constructor | src/core/rng.cpp:58-63 | the state is the splitmix64 expansion of the seed |
| Rng.DeterministicRng.NextU64 | src/core/rng.cpp:65-75 | the in-place update of the four words is the xoshiro256** step and its output |
| Rng.DeterministicRng.Bounded | src/core/rng.cpp:87-100 | the result is that of the first draw the exact rule accepts, the state is advanced by exactly the draws used, and the shortcut that skips the threshold accepts the same draws |
| Rng.DeterministicRng.Fork | src/core/rng.cpp:129-135 | a fork is a fresh generator seeded from seed and stream, leaving this one alone |
| Rng.MixIsInvertible | src/core/rng.cpp:8-13 | the splitmix64 finalizer loses nothing: an explicit inverse |
| Rng.UnstepAfterStep | src/core/rng.cpp:65-75 | the state update is injective: an explicit inverse undoes it |
| Rng.StepAfterUnstep | src/core/rng.cpp:65-75 | the state update is onto |
| Rng.IterateDiffers | src/core/rng.cpp:65-75 | two different states stay different for ever |
| Rng.SeededIsNotZero | src/core/rng.cpp:58-63 | no seed expands to the all-zero state |
| Rng.NeverReachesZero | src/core/rng.cpp:58-75 | from any seed no number of steps reaches the all-zero state |
| Rng.SeedsNeverCollide | src/core/rng.cpp:58-75 | different seeds are never in the same state after equally many steps |
| Rng.ForksNeverCollide | src/core/rng.cpp:129-135 | different streams of one seed are never in the same state after equally many steps |
| Rng.MulHiLoIsExact | src/core/rng.cpp:40-52 | the portable 128-bit product loses no carry: high times 2^64 plus low is the product |
| Rng.ThresholdIsRemainder | src/core/rng.cpp:87-100 | the threshold computed with wrap-around is 2^64 modulo the bound |
| Rng.EarlyAcceptanceIsAcceptance | src/core/rng.cpp:92-98 | a low word that is at least the bound is also at least the threshold |
| Rng.AcceptedExactly | src/core/rng.cpp:87-100 | a draw is accepted with a result exactly when its product lies in the tail of that block of 2^64 |
| Rng.ResultIsBelowBound | src/core/rng.cpp:87-100 | every result is below the bound |
| Rng.BoundedIsUniform | src/core/rng.cpp:87-100 | for every bound and every result exactly floor(2^64 / bound) of the 2^64 draws are accepted with it |
| Draws.OutputInIntegers | src/core/rng.cpp:65-66 | a draw in integer arithmetic: five times the second word modulo 2^64, rotated by seven places, times nine modulo 2^64 |
| Draws.AdvanceInIntegers | src/core/rng.cpp:58-63 | the seed counter advances by the golden-ratio constant modulo 2^64 |
| Draws.UnscrambleAfterScramble | src/core/rng.cpp:65-66 | the scrambler has an explicit left inverse |
| Draws.ScrambleAfterUnscramble | src/core/rng.cpp:65-66 | which is also its right inverse, so every 64-bit value is the scramble of exactly one word |
| Draws.DrawnFromOneWord | src/core/rng.cpp:65-66 | for any other three words each 64-bit value is the draw of exactly one second word |
| Draws.BoundedIsUniformOverStates | src/core/rng.cpp:87-100 | for any other three state words, each result below the bound is the first-draw answer of equally many second words |
| FactorGraphs.FactorGraph.Add | src/features/factor.cpp:33-46 | a factor is added exactly when its name is new and not empty, and the graph then needs ordering again |
| FactorGraphs.FactorGraph.CountEdges | src/features/factor.cpp:58-67 | the counts are the unmet in-graph dependencies with repetition, and each dependent is listed as often as it repeats the dependency |
| FactorGraphs.FactorGraph.CountOne | src/features/factor.cpp:58-67 | one factor contributes its own count and its own edges, dependencies outside the graph none |
| FactorGraphs.FactorGraph.FirstReady | src/features/factor.cpp:69-73 | the first ready list is exactly the factors with nothing to wait for, in name order |
| FactorGraphs.FactorGraph.Release | src/features/factor.cpp:75-90 | releasing the dependents of an emitted factor keeps the counts and the sorted ready list right |
| FactorGraphs.FactorGraph.StuckNames | src/features/factor.cpp:92-103 | the names reported are exactly the factors never emitted |
| FactorGraphs.FactorGraph.Finalize | src/features/factor.cpp:48-107 | succeeds exactly when the in-graph dependency relation has no cycle; the order is then topological and the lexicographically least of all topological orders; otherwise the graph stays unordered and the stuck factors are named |
| FactorGraphs.AfterEmit | src/features/factor.cpp:75-90 | removing the head of the ready list leaves counts that owe exactly its batch of dependents |
| FactorGraphs.EmitKeepsOrder | src/features/factor.cpp:75-90 | the head of the ready list may come next, and is the least factor that may |
| FactorGraphs.StuckMeansCycle | src/features/factor.cpp:92-103 | when nothing is ready and factors are left, there is a cycle |
| FactorGraphs.FindCycle | src/features/factor.cpp:92-103 | factors that all wait for one another contain a cycle, and it is constructed |
| FactorGraphs.TopologicalMeansAcyclic | src/features/factor.cpp:48-107 | a graph with a topological order has no cycle |
| FactorGraphs.GreedyIsLeast | src/features/factor.cpp:75-90 | always taking the least ready factor gives the lexicographically least order |
| FactorEvaluation.DependentsOf | src/features/factor.cpp:109-130 | the worklist finds exactly the factors reachable over declared dependencies, in name order, and terminates, cycles or not |
| FactorEvaluation.Expand | src/features/factor.cpp:109-130 | one expansion adds exactly the direct dependents not found before |
| FactorEvaluation.ClosedHoldsDownstream | src/features/factor.cpp:109-130 | a set closed under direct dependents holds everything downstream |
| FactorEvaluation.VisibleReadsTheSame | src/features/factor.cpp:15-31 | hiding every undeclared value changes no answer of a lookup |
| FactorEvaluation.OnlyDeclaredInputsMatter | src/features/factor.cpp:15-31 | inputs that agree on the declared names cannot be told apart by a factor |
| FactorEvaluation.Evaluate | src/features/factor.cpp:132-170 | the loop over the order computes the specified evaluation of what is due, and an unordered graph is refused |
| FactorEvaluation.FindDue | src/features/factor.cpp:141-151 | due are all factors on a full evaluation, else the dirty factors and everything downstream of a dirty name |
| FactorEvaluation.FullEvaluationSolves | src/features/factor.cpp:132-170 | a full evaluation succeeds with values exactly when these solve the equations of the graph over the base |
| FactorEvaluation.NotDueIsUntouched | src/features/factor.cpp:132-170 | a factor that is not due has no dependency that is dirty or due |
| FactorEvaluation.RunsStayInStep | src/features/factor.cpp:132-170 | an incremental and a full evaluation agree on all that has been passed, step by step, errors included |
| FactorEvaluation.IncrementalEqualsFull | src/features/factor.cpp:132-170 | after a full evaluation, changing base features and evaluating with those as dirty gives exactly a full evaluation on the new base, results and errors alike |
| Schedules.Twap | src/algo/schedule.cpp:194-229 | a schedule exists exactly for a positive quantity, a good window and some slices; its slices tile the window, carry equal shares and end with exactly the whole quantity |
| Schedules.Vwap | src/algo/schedule.cpp:231-274 | the same for a usable profile, each slice carrying its share of the profile |
| Schedules.MarksAscend | src/algo/schedule.cpp:194-229 | truncating slice widths still give ascending marks from begin to end |
| Schedules.TargetIsAccrued | src/algo/schedule.cpp:174-192 | finding the current slice and interpolating in it equals adding up, slice by slice, what each owes so far: at every instant |
| Schedules.TargetGrows | src/algo/schedule.cpp:174-192 | the target never falls, is nothing before the window and the whole quantity from its end on |
| Schedules.StartsAtZeroIff | src/algo/schedule.cpp:174-192 | the target at the beginning is zero exactly when the window has at least one nanosecond per slice or all slices before the last are empty |
| Schedules.TwapStartsAtZeroIff | src/algo/schedule.cpp:174-229 | for equal shares: exactly with one slice or a window of at least one nanosecond per slice |
| Algorithms.PlanSchedule | src/algo/algorithms.cpp:15-372 | planning succeeds exactly for a valid request with parameters the algorithm accepts and gives a schedule of the whole quantity over the window |
| Algorithms.CapsHold | src/algo/algorithms.cpp:74-113 | a clip is never negative nor more than remains, never below the minimum unless it is the whole rest, and outside the final residue within every cap |
| Algorithms.ParticipationCapBrokenIff | src/algo/algorithms.cpp:74-113 | the participation cap is exceeded exactly when the final residue is sent whole and is larger than the cap |
| Algorithms.DisplayCapBrokenIff | src/algo/algorithms.cpp:74-113 | the display cap is exceeded exactly when the final residue is sent whole and is larger than the cap |
| Algorithms.ParticipationCapExample | src/algo/algorithms.cpp:101-111 | a clip above the participation cap |
| Algorithms.ParticipationShareBrokenIff | src/algo/algorithms.cpp:273-307 | the participation algorithm sends more than its share of the volume exactly when what remains is at most the minimum clip, is worth less than one once rounded, and is more than the share |
| Algorithms.ResidueGoesOutWhole | src/algo/algorithms.cpp:101-111 | a rest within the minimum clip goes out in one piece, so no dust is left behind |
| Algorithms.CollarHolds | src/algo/algorithms.cpp:126-145 | a limit, where given, is within the collar of the touch and never on the wrong side of it |
| Algorithms.ChildFitsParent | src/algo/algorithms.cpp:157-408 | whatever the algorithm, a child has the side and instrument of its parent, a positive quantity and at most what remains |
| Algorithms.IcebergShowsTooMuchIff | src/algo/algorithms.cpp:273-307 | an iceberg shows more than its display size exactly when that is less than one lot and the rest is larger than it |
| Algorithms.NeverAheadOfSchedule | src/algo/algorithms.cpp:115-124 | a scheduled child takes the execution past its target only as a final residue |
| AlgorithmDecisions.ClipIs | src/algo/algorithms.cpp:74-113 | a clip is sent exactly when something is desired and the least of desire, rest, share of the volume and display holds a minimum clip of whole lots, or the rest is no more than a minimum clip; it is the most whole lots in that least quantity, or the rest |
| AlgorithmDecisions.ImmediateDecides | src/algo/algorithms.cpp:157-180 | the immediate algorithm sends a market child exactly when release is allowed and such a clip of the whole rest exists, of that quantity |
| AlgorithmDecisions.ScheduledDecides | src/algo/algorithms.cpp:197-214 | twap and vwap send a market child exactly when release is allowed, the target is ahead of the fills and such a clip of the difference exists |
| AlgorithmDecisions.ParticipationDecides | src/algo/algorithms.cpp:273-307 | the participation algorithm sends exactly when release is allowed, volume traded, and the least of volume times rate, volume times cap and rest is worth a clip or the rest is no more than one; the child is the most whole lots in that least quantity, and outside the final rest exceeds neither share of the volume |
| AlgorithmDecisions.LimitIs | src/algo/algorithms.cpp:126-145 | the limit is the touch moved away by the offset, or by the collar when that is nearer; there is none without a market or a positive touch |
| AlgorithmDecisions.IcebergDecides | src/algo/algorithms.cpp:326-358 | the iceberg sends a limit child at the touch exactly when release is allowed and something remains, of the most whole lots in display and rest, or of the rest when they hold none, with what is left recorded as hidden |
| AlgorithmDecisions.AdaptiveDecides | src/algo/algorithms.cpp:374-408 | the adaptive algorithm sends like a scheduled one, at the market once it is behind by the urgent share of the parent and otherwise at its offset limit, for which a market must exist |
| Executors.Executor.Submit | src/algo/executor.cpp:36-61 | admitted exactly when the id is real and new and a schedule can be planned, the plans staying in id order |
| Executors.Executor.EmitChild | src/algo/executor.cpp:63-130 | a child is recorded as working exactly when its order was well formed and accepted |
| Executors.Executor.OnMarket | src/algo/executor.cpp:132-167 | the loop over the plans computes the specified sweep: who may send, who waits, how many were sent |
| Executors.Executor.Visit | src/algo/executor.cpp:139-166 | the turn of one plan: it completes, waits for its child, or sends what its algorithm asks for |
| Executors.Executor.OnFill | src/algo/executor.cpp:169-212 | a fill is credited to the plan that owns the child or refused, and frees the child even when it was partial |
| Executors.Executor.Cancel | src/algo/executor.cpp:214-235 | the plan is cancelled together with its working child, or refused with nothing changed |
| Executors.Executor.ExpireStale | src/algo/executor.cpp:237-257 | exactly the unfinished plans past their window expire, each with its working child |
| ExecutorOrders.SentIsValidIff | src/algo/executor.cpp:63-100 | a proper child makes a well-formed order exactly when the clock is set and the id is not the null id |
| ExecutorOrders.SendsIff | src/algo/executor.cpp:132-167 | at a market event a plan sends exactly when it is unfinished, of the instrument and without a working child, its algorithm asks for a proper child (a positive quantity of a real instrument, at the market or at a positive limit), and the sink approves exactly the order with the parent id, arrival price and present decision time; it then has that one child working |
| ExecutorOrders.FillGoesToItsParent | src/algo/executor.cpp:169-212 | a fill that names its parent adds its quantity, notional and cost to that parent and no other, frees the child when it is its own, and completes the parent at the time of the fill exactly when no more than 1e-9 is left |
| ExecutorOrders.ExpiryIs | src/algo/executor.cpp:237-257 | expiry ends exactly the unfinished plans whose window has closed, at that time, and cancels exactly their working children |
| ExecutorRuns.NeverOverfilled | src/algo/executor.cpp:63-257 | over every possible run in which a reported fill leaves nothing of its child working, no plan is ever filled, or filled and working together, beyond its quantity |
| ExecutorRuns.FillKeepsSoundIff | src/algo/executor.cpp:169-212 | a fill leaves every live child with a plan that still waits for it if and only if it leaves nothing of its own child working |
| ExecutorRuns.StepKeepsSound | src/algo/executor.cpp:63-257 | every other step keeps the state sound whatever the market, the gate or the caller do |
| ExecutorRuns.ReportFindsOwner | src/algo/executor.cpp:169-212 | a possible report always finds the plan whose working child it fills |
| ExecutorOverfills.ReportCommits | src/algo/executor.cpp:169-212 | over any possible report, what is filled of a parent plus what all of its live children may still fill falls by exactly what the venue drops of the reported child |
| ExecutorOverfills.StepCommits | src/algo/executor.cpp:63-257 | a market event adds to that sum exactly what it sends; no other event raises it above the quantity of the parent |
| ExecutorOverfills.OvercommitsIff | src/algo/executor.cpp:132-167 | a step takes the sum above the quantity exactly when it is a market event that sends more than is neither filled nor live |
| ExecutorOverfills.CanBeOverfilledIff | src/algo/executor.cpp:169-212 | from any reachable world some sequence of possible fill reports overfills the parent exactly when the sum is above its quantity |
| ExecutorOverfills.NeverOverfillableIff | src/algo/executor.cpp:63-257 | over every possible run, at no point could the venue overfill the parent exactly when no market event sent more for it than was neither filled nor live |
| ExecutorOverfills.PartialFillInvitesIff | src/algo/executor.cpp:132-212 | after a fill that leaves part of a child working, the next market event lets the venue overfill the parent exactly when it sends more than remains beside that part |
| ExecutorTracking.TracksSchedule | src/algo/executor.cpp:132-212 | with no cap binding and every child filled whole before the next event, the filled quantity equals the target of the schedule at the last event, or the execution completed within the tolerance of it |
| ExecutorTracking.TurnCatchesUp | src/algo/algorithms.cpp:197-255 | one event brings an execution that was on track to the target of that event |
| ExecutorTracking.TurnIsTwoEvents | src/algo/executor.cpp:132-212 | a turn of the tracked plan is a market event of the executor followed, when a child was sent, by a possible report of its fill at a later instant |
| ExecutorTracking.TakesTheRestIff | src/algo/algorithms.cpp:74-113 | before the schedule is due in full a clip takes all that remains exactly when something is due and no more remains than the minimum clip |
| ExecutorTracking.TurnFillsTheWholeIff | src/algo/algorithms.cpp:41-113 | one event fills the whole parent exactly when it was filled, or is behind its schedule with no more left than the minimum clip |
| ExecutorTracking.UnfinishedBeforeEnd | src/algo/schedule.cpp:174-192 | before the end of the window the target is short of the whole when the last slice is not empty |
| ExecutorTracking.FillsTheWholeIff | src/algo/algorithms.cpp:41-113 | whatever the policy and the volumes, a scheduled execution whose children are filled whole fills its whole parent exactly when some event finds it behind its schedule with no more left than the minimum clip: never by the schedule alone |
| ExecutorTracking.OverfillExample | src/algo/executor.cpp:202 | a run with partial fills of day children that fills 160 of 100 |
| Connections.LiveConnection.Connect | src/live/connection.cpp:192-213 | opening leads to Synchronizing and a fresh heartbeat, failing to Reconnecting with a later next attempt |
| Connections.LiveConnection.Disconnect | src/live/connection.cpp:215-220 | the connection is down and remembers all else |
| Connections.LiveConnection.MaybeReconnect | src/live/connection.cpp:222-239 | attempts only when due, from the states that reconnect |
| Connections.LiveConnection.MarkSynchronized | src/live/connection.cpp:241-247 | only a synchronizing connection becomes ready |
| Connections.LiveConnection.Send | src/live/connection.cpp:249-254 | a send passes exactly in the states that permit trading and when the transport takes it |
| Connections.LiveConnection.Tick | src/live/connection.cpp:256-273 | a late heartbeat degrades, a dead one starts reconnecting, a live one restores |
| Connections.LiveConnection.Poll | src/live/connection.cpp:275-330 | the drain loop accepts exactly the messages the sieve of the specification lets through, in order |
| ConnectionRuns.AcceptedClimb | src/live/connection.cpp:275-330 | from any state the accepted sequence numbers of any run climb between the old and the new highest number |
| ConnectionRuns.SequencesIncrease | src/live/connection.cpp:192-330 | over every run with disconnects and reconnects accepted nonzero sequence numbers strictly increase |
| ConnectionRuns.RemembersTheHighest | src/live/connection.cpp:275-330 | the number remembered is the highest ever offered, accepted or not |
| ConnectionRuns.AcceptedIffRecord | src/live/connection.cpp:275-330 | after any run, a sequenced message anywhere in a polled inbox is accepted exactly when its number is above all offered before it, in the run and in the inbox, and its venue time is not too far ahead |
| ConnectionRuns.OfferedIsNeverAcceptedLater | src/live/connection.cpp:275-330 | a sequenced message once offered is never accepted later, so one refused as future-dated is lost |
| ConnectionRuns.IdsAreFarApart | src/live/connection.cpp:275-330 | the ids remembered are the last 4096 noted, and equal ids are noted at least that far apart |
| ConnectionRuns.AcceptedIdsAreNoted | src/live/connection.cpp:275-330 | every accepted fill id was noted, as often as it was accepted |
| ConnectionRuns.AtMostOnceWithinTheWindow | src/live/connection.cpp:275-330 | while no more than 4096 ids were noted, no fill id is accepted twice |
| ConnectionRuns.DownUntilResynchronized | src/live/connection.cpp:192-273 | a connection that is down stays down until an open, and is not ready before a later synchronization mark |
| ConnectionRuns.NoSendAfterDeadHeartbeat | src/live/connection.cpp:249-273 | after a dead heartbeat no send succeeds until a new open and, after it, a synchronization mark have happened |
| ConnectionRuns.ExhaustionIsNeverReported | src/live/connection.cpp:222-239 | the error for exhausted attempts is never returned: an exhausted supervisor just does nothing |
| ConnectionRuns.BackoffIsCapped | src/live/connection.cpp:141-171 | the backoff after any number of failures lies between its first value and its cap and never shrinks |
| ConnectionRuns.WaitsGrow | src/live/connection.cpp:141-171 | after a run of failures the next attempt is the last one plus the backoff of that many failures: the first wait is already multiplied |
| ConnectionRuns.BackoffIsExponential | src/live/connection.cpp:147-156 | with a whole multiplier the backoff after n failures is the first backoff times the n-th power of the multiplier, up to the cap |
| ConnectionClocks.SupervisorFollowsTries | src/live/connection.cpp:141-171 | over every run the supervisor counts the failed tries since the last opening, and the next try is due the backoff after that many failures later than the last failure |
| ConnectionClocks.ReconnectsIff | src/live/connection.cpp:222-239 | a reconnect is tried exactly when the failures since the last opening leave an attempt and that time has come, and ends up synchronizing or failed |
| ConnectionClocks.ActivityIsHeard | src/live/connection.cpp:97-135 | over every run the time of last activity is the last opening or the last poll that brought any message, whatever its kind |
| ConnectionClocks.TickGoesBySilence | src/live/connection.cpp:256-273 | a tick of a link that is ready or degraded makes it reconnecting, degraded or ready by the length of that silence alone |
| ConnectionClocks.SilenceStopsTrading | src/live/connection.cpp:249-273 | after a tick has met a silence beyond the dead limit nothing is sent until the link has been opened and marked synchronized again |
| LiveBrokers.DecimalIsInjective | src/live/translator.cpp:111-116 | decimal numerals are never shared |
| LiveBrokers.ClientIdsAreDistinct | src/live/translator.cpp:111-116 | no two orders share a client id |
| LiveBrokers.LiveBroker.Track | src/live/translator.cpp:260-273 | an order is tracked or refused for its empty id, bad order or a taken id, the table then unchanged |
| LiveBrokers.LiveBroker.Submit | src/live/broker.cpp:77-129 | the checks, the simulator, the tracking and the send happen in the source order, with the simulator order cancelled again when the send fails |
| LiveBrokers.LiveBroker.Handle | src/live/translator.cpp:290-346 | one venue message is interpreted and ingested as specified |
| LiveBrokers.LiveBroker.Poll | src/live/broker.cpp:153-230 | all accepted messages are handled until one fails |
| LiveBrokers.StoppedBatch | src/live/broker.cpp:153-230 | after a failing message nothing more of the batch is looked at |
| LiveBrokers.Reconcile | src/live/broker.cpp:236-278 | the two loops report exactly the instruments held on either side whose difference exceeds the tolerance, each with that difference, and the cash drift |
| LiveBrokers.CompareOurs | src/live/broker.cpp:254-263 | the first loop reports exactly the drifts among our instruments |
| LiveBrokers.AddTheirs | src/live/broker.cpp:264-276 | the second loop adds exactly those the venue alone holds |
| LiveSubmissions.SubmitSucceedsIff | src/live/broker.cpp:77-129 | after every run a submission succeeds exactly when the link is ready and the transport takes it, the order is within the notional limit, expressible (a whole number of shares to 1e-9 unless fractions are allowed, no immediate market order, a known symbol), decided by now and able to arrive in order |
| LiveSubmissions.NameIsTheLatest | src/live/broker.cpp:176-194 | after a batch that does not fail, the venue id of an order is the one in its latest acknowledgement or replacement |
| LiveSubmissions.WorkedIsAttributed | src/live/broker.cpp:77-230 | over every run that submits no order while its id is being worked, the orders being worked are exactly those whose client ids are still attributed, each to itself |
| LiveRuns.CoveredOverRuns | src/live/broker.cpp:77-230 | over every run, resubmissions included, what was ingested for an id plus the room its pending entries leave stays within the budget of all its registrations |
| LiveRuns.SequencedFillsIngestedOnce | src/live/broker.cpp:153-230 | over every run with reconnects the sequenced messages behind ingested fills have strictly increasing numbers: each is ingested at most once |
| LiveRuns.TrackingNeverRefuses | src/live/broker.cpp:77-129 | over every run the tracking step of a submission never fails |
| LiveRuns.RefusedSubmitLeaves | src/live/broker.cpp:77-129 | after every run a refused submission leaves no working order; it changes the simulator only when the send failed, and then exactly when the id was already pending: that order is gone and the refused one is pending instead, no longer listened for |
| LiveOrders.OwnBoundOverRuns | src/live/broker.cpp:77-230 | over every run that never submits an id pending at that moment, no id is pending twice and what was ingested since its last successful submission plus the room of its pending entry stays within its own size plus the tolerance |
| LiveOrders.NeverIngestsTooMuch | src/execution/broker.cpp:94-152 | over every such run, with drops, reconnects, failed sends and resubmissions, the quantity ingested for an order since it was last sent never exceeds its size plus the tolerance |
| LiveOrders.SubmitInvitesTooMuchIff | src/live/broker.cpp:77-129 | after such a run a submission that succeeds lets some sequence of venue reports exceed the size exactly when its id was pending |
| LiveBatches.HandleFailsIff | src/live/translator.cpp:290-346 | a message is refused exactly when it is about an order that is not tracked, or is a fill that is not positive, exceeds what is pending or breaks the time chain; otherwise it gives a fill exactly when it is one |
| LiveBatches.BatchSucceedsIff | src/live/broker.cpp:153-230 | a batch succeeds exactly when no message of it fails so in its turn |
| LiveBatches.PollLosesFillsIff | src/live/broker.cpp:153-230 | a poll returns an error after it has ingested fills exactly when the first message that fails so comes after a fill |
| LiveFills.HandledFill | src/live/broker.cpp:196-217 | a fill that a message produces carries the price, quantity, commission, fee and venue time (the clock when there is none) of the message, and side, instrument, parent and arrival price of the tracked order |
| LiveFills.BatchIsFaithful | src/live/broker.cpp:153-230 | the fills of a batch match its fill messages one by one and in order, all of them when the batch does not fail |
| LiveFills.FillsAreFaithful | src/live/broker.cpp:153-230 | over every run with drops, reconnects and failed polls, the ingested fills match the messages they came from one by one, each under the client id of its order and of an order that was submitted |
| LiveFills.PollReturnsWhatWasReported | src/live/broker.cpp:153-230 | a successful poll returns one such fill for each fill message it accepted, in order, and the cash they move is the sum over the messages of minus signed price times quantity less the reported costs |
| LiveFills.ClosingRemoves | src/live/broker.cpp:182-188 | a cancel or reject of a tracked order takes its pending entry away |
| LiveFills.IdsDifferOverRuns | src/live/broker.cpp:77-129 | over every run that submits no pending id, no id is pending twice |
| LiveFills.ClosedIsGone | src/live/broker.cpp:182-188 | hence over such runs the order is no longer pending after the message |
| LiveExamples.TwiceTheSize | src/live/broker.cpp:77-129 | a run that submits an order of one share twice with success and ingests two shares for it |
| LiveExamples.LostFillRun | src/live/broker.cpp:153-230 | a poll after a run from the start in which the venue state has absorbed a fill and the caller gets only the error |
| Moments.StatisticsAccumulator.Update | src/analytics/drawdown.cpp:140-172 | the fields after an observation are those of the specification |
| Moments.StatisticsAccumulator.Variance | src/analytics/drawdown.cpp:174-177 | the variance of the state, zero with fewer than two observations |
| Moments.CentreMoves | src/analytics/drawdown.cpp:140-172 | the second, third and fourth power sums about a moved centre, from those about the old one |
| Moments.OnePass | src/analytics/drawdown.cpp:140-172 | the one-pass update terms are exactly what the definition of the power sums about the new mean requires |
| Moments.UpdateIsExact | src/analytics/drawdown.cpp:140-172 | an update keeps mean and power sums exact |
| Moments.MomentsAreExact | src/analytics/drawdown.cpp:140-172 | after any run of updates the fields equal the mean and the sums of second, third and fourth central powers of all observations |
| Moments.ExtremesAreExact | src/analytics/drawdown.cpp:140-172 | minimum and maximum are attained and bound all observations |
| Moments.CheckShape | src/analytics/rolling.cpp:16-33 | a series is accepted exactly with a window of at least two, as many times as values and times that never go back |
| Moments.SumsGiveVariance | src/analytics/rolling.cpp:73-95 | the variance from running sums is the sample variance and never negative, so the clamp at zero never bites in exact arithmetic |
| Moments.RollingVariance | src/analytics/rolling.cpp:59-97 | the running sums give at every full index the sample variance of the last window |
| Moments.RollingEqualsAccumulated | src/analytics/rolling.cpp:73-95 | the rolling formula and the one-pass accumulator agree on every window |
| RiskWindows.WindowStaysSorted | src/analytics/rolling.cpp:242-250 | inserting and erasing by binary search keeps exactly the sorted last window |
| RiskWindows.InsertSorts | src/analytics/rolling.cpp:243-244 | an insertion keeps a sorted permutation |
| RiskWindows.EraseSorts | src/analytics/rolling.cpp:246-250 | erasing the leaving value keeps a sorted permutation of the rest |
| RiskWindows.QuantileIsValueAtRisk | src/analytics/rolling.cpp:253-266 | the negated nearest-rank element is the value at risk: at least ceil(q n) returns are at or below it, fewer below anything lower |
| RiskWindows.ValueAtRisk | src/analytics/rolling.cpp:222-268 | at every full index the value at risk of the last window; a confidence outside (0, 1) is refused |
| RiskWindows.ValueAtRiskIsUnique | src/analytics/rolling.cpp:222-268 | the definition fixes the value |
| RiskWindows.ConditionalVar | src/analytics/rolling.cpp:270-304 | at every full index the negated mean of the worst floor(q n) returns, at least one, of the last window |
| RiskWindows.ShortfallIsUnique | src/analytics/rolling.cpp:270-304 | the definition does not depend on how the window was sorted |
| RiskWindows.ShortfallExceedsValueAtRisk | src/analytics/rolling.cpp:222-304 | at the same confidence the expected shortfall is never below the value at risk |
| Drawdowns.MaxDrawdown | src/analytics/metrics.cpp:55-64 | the loop computes the deepest fall |
| Drawdowns.RollingMaxDrawdown | src/analytics/drawdown.cpp:110-134 | at every index the deepest fall of the last window |
| Drawdowns.DeepestBoundsPairs | src/analytics/drawdown.cpp:110-134 | for equity that is never negative no later value is further below an earlier positive one than the deepest fall |
| Drawdowns.DeepestIsAPair | src/analytics/drawdown.cpp:110-134 | a deepest fall other than zero is attained by such a pair |
| Drawdowns.NegativeEquityExample | src/analytics/drawdown.cpp:110-134 | with negative equity a deeper pair can be missed |
| Drawdowns.MissesADeeperPairIff | src/analytics/drawdown.cpp:110-134 | the fall measured at an instant is less than that from an earlier positive value exactly when the equity there is below zero and the running peak is above that value |
| Drawdowns.DrawdownTracker.Update | src/analytics/drawdown.cpp:32-91 | the in-place update of all fields and episodes is that of the specification, an observation that goes back being refused |
| Drawdowns.TrackerDescribes | src/analytics/drawdown.cpp:32-91 | after any chronological run the tracker describes the series: peak, its time, time under water, deepest fall and the episodes with their peak, trough and recovery |
| Drawdowns.TrackerMaximumIsDeepest | src/analytics/drawdown.cpp:32-91 | the maximum of the tracker is the deepest fall of the whole series: an upper bound for all pairs and attained |
| Drawdowns.CoveringWindowSeesAll | src/analytics/drawdown.cpp:110-134 | with a window that covers the series the last rolling value is the deepest fall of the whole series |
| Drawdowns.SpansAreRecoveries | src/analytics/rolling.cpp:327-357 | the closed spans are exactly the pairs of a last peak and its first recovery with something under water between |
| Drawdowns.DrawdownDurations | src/analytics/rolling.cpp:327-357 | the scan gives the durations of exactly these spans in order |
| Drawdowns.TrackerDurationsAgree | src/analytics/drawdown.cpp:19-91 | the closed episodes of the tracker have the same durations, one by one |
| Drawdowns.RefusedLeaveNoTrace | src/analytics/drawdown.cpp:32-91 | whatever is observed, the tracker is in the state that the observations with a time not before the last one that counts lead to, and these are chronological |
| DrawdownDetails.TrackerDetails | src/analytics/drawdown.cpp:32-91 | on a chronological series every episode, closed or going on, names its earliest lowest observation with time, equity and depth below the peak, the dates of the deepest fall are those of a peak and of an observation that deep below it, and the longest stay is the most observations any one comes after its peak |
| CivilDates.NextDayIsNext | src/core/types.cpp:105-137 | day numbers count calendar days: the next date has the next number, over month and year ends and leap years |
| CivilDates.PreviousDayIsPrevious | src/core/types.cpp:105-137 | and backwards |
| CivilDates.DateOf | src/core/types.cpp:105-132 | every day number, negative ones included, has a valid date with that number |
| CivilDates.DayIsInjective | src/core/types.cpp:21-84 | no two dates share a number |
| CivilDates.DateRoundTrip | src/core/types.cpp:21-132 | dates and day numbers are inverse to each other |
| CivilDates.YearOfDay | src/market/calendar.cpp:24-27 | a day belongs to a year exactly when its number lies between the first days of that year and the next |
| Timestamps.ParseTimestamp | src/core/types.cpp:21-77 | the cursor walk returns what the specification of the grammar gives |
| Timestamps.ReadFraction | src/core/types.cpp:55-72 | the digit loops read up to nine digits, scale them to nanoseconds, skip the rest and demand the final Z |
| Timestamps.RepresentableYears | src/core/types.cpp:105-132 | every instant whose day start is representable has a four-digit year |
| Timestamps.TextParses | src/core/types.cpp:21-77 | the text of any valid date and time parses to exactly that instant |
| Timestamps.ParseAfterPrint | src/core/types.cpp:21-123 | parsing what was printed gives back the instant, negative epochs and leap years included |
| Timestamps.ParseDateAfterPrint | src/core/types.cpp:79-137 | parsing a printed date gives the start of its day |
| Timestamps.PrintIsInjective | src/core/types.cpp:105-123 | no two instants are printed alike |
| Timestamps.NegativeHourExample | src/core/types.cpp:11-17 | the parser is not strict: a negative hour is accepted |
| Timestamps.FieldReadsIff | src/core/types.cpp:11-17 | the values that a field of a given width can be read as: all of at most that many digits and the negative ones of one digit less |
| Timestamps.WholeSecondsParse | src/core/types.cpp:21-77 | a date and whole seconds under either separator parse to their instant exactly when nothing follows or what follows begins with the letter Z |
| Timestamps.FractionsParse | src/core/types.cpp:21-77 | with a fraction of any width they parse exactly when it has a digit and is followed by nothing or the letter Z, and the first nine digits count, missing ones as zeros |
| Timestamps.InstantIsNoDate | src/core/types.cpp:79-84 | the bare-date parser refuses every printed instant |
| Holidays.EasterRange | src/market/calendar.cpp:51-69 | the intermediate values of the algorithm stay in range |
| Holidays.EasterIsASunday | src/market/calendar.cpp:51-69 | Easter is always a Sunday from March 22 to April 25, in every year |
| Holidays.NthIsTheNth | src/market/calendar.cpp:71-86 | the n-th such weekday: it is one, and counting from the first of the month it is the n-th |
| Holidays.NthFromTheBack | src/market/calendar.cpp:71-86 | the same counting from the end of the month |
| Holidays.ObservedIsAWeekday | src/market/calendar.cpp:88-93 | a holiday is observed Monday to Friday, at most a day away |
| Holidays.ListFullHolidays | src/market/calendar.cpp:113-134 | the pushes give the specified list |
| Holidays.ListHalfDays | src/market/calendar.cpp:137-161 | the pushes give the specified list |
| Holidays.HolidaysAreWorkdays | src/market/calendar.cpp:113-134 | every full holiday falls Monday to Friday, in every year |
| Holidays.HalfDaysAreWorkdays | src/market/calendar.cpp:137-161 | every half day falls Monday to Friday |
| Holidays.BlackFridayIsOpen | src/market/calendar.cpp:137-161 | the day after Thanksgiving, pushed without a check, is never a full holiday |
| Holidays.HalfDaysAreNotHolidays | src/market/calendar.cpp:113-161 | the two lists are disjoint in every year |
| Holidays.NewYearOnSaturday | src/market/calendar.cpp:113-134 | December 31 is a holiday exactly when the next New Year falls on a Saturday |
| Calendars.Build | src/market/calendar.cpp:183-246 | a calendar is built exactly for a usable range and specification; it has one session for each day of the range, in order, and lists the open ones |
| Calendars.AddYear | src/market/calendar.cpp:206-244 | one year appends exactly the sessions of its days |
| Calendars.UsSessionsAreWithinTheDay | src/market/calendar.cpp:165-181 | United States sessions open and close within their UTC day under both offsets |
| Calendars.BuiltSessionsAreDisjoint | src/market/calendar.cpp:183-246 | for such a specification and any range the open sessions are sorted and pairwise disjoint |
| Calendars.SessionContaining | src/market/calendar.cpp:269-278 | the loop over the neighbouring dates is the specified lookup |
| Calendars.ContainingIsTheScan | src/market/calendar.cpp:254-278 | binary search over three dates finds a session exactly when a scan of all open sessions does |
| Calendars.NextIsTheScan | src/market/calendar.cpp:289-294 | the earliest open session on a later date, or none when there is none |
| Calendars.PreviousIsTheScan | src/market/calendar.cpp:296-301 | the latest open session on an earlier date, or none when there is none |
| MarketDates.EasterFollowsTheFullMoon | src/market/calendar.cpp:51-69 | in every year Easter is the first Sunday after the Paschal full moon, given by the lunar cycle and the century corrections in their usual form |
| MarketDates.HolidayByDate | src/market/calendar.cpp:113-134 | a date is a full holiday exactly when its month, day and weekday say so: fixed holidays on their weekday or the nearest one, the new year of the coming year on a Friday December 31, and third, last, first and fourth weekdays as ranges of dates |
| MarketDates.EarlyCloseByDate | src/market/calendar.cpp:137-161 | a date is an early close exactly when it is July 3 or December 24 from Monday to Thursday, or a Friday from November 23 to 29 |
| MarketDates.DaylightByDate | src/market/calendar.cpp:95-104 | daylight time holds exactly from April to October, in March from the second Sunday on and in November before the first |
| MarketDates.FirstExceptionDecides | src/market/calendar.cpp:200-229 | the first exception listed for a date decides its kind |
| MarketDates.UsSessionByDate | src/market/calendar.cpp:165-243 | the US session of every date: its kind by month, day, weekday and the two days of mourning, and 13:30 to 20:00 UTC in summer, 14:30 to 21:00 in winter, three hours shorter on half days |
| MarketDates.SummerAndWinterOpens | src/market/calendar.cpp:231-239 | in every year open sessions from April to October open at 13:30 UTC and from December to February at 14:30 |
| Sources.ChooseNext | src/market/source.cpp:124-145 | the scan of the cursors picks the least waiting head by time, then instrument, then stream |
| Sources.MergeSorted | src/market/source.cpp:115-158 | succeeds exactly when every stream is chronological; the result is a chronological merge that exhausts every stream in order by that choice |
| Sources.MergeIsSortedIff | src/market/source.cpp:115-158 | a merge of streams is chronological exactly when every stream is, so checking the result checks the inputs |
| Sources.MergeIsUnique | src/market/source.cpp:115-158 | the choice rule admits only one merge |
| Sources.WithSessionEvents | src/market/source.cpp:68-113 | succeeds exactly when every event lies in an open session; the result brackets each run of events of one day |
| Sources.BracketingErases | src/market/source.cpp:68-113 | taking the marks out gives back the input |
| Sources.GroupsAreBracketed | src/market/source.cpp:68-113 | for chronological input each day appears once, with its own session around its events |
| Sources.BracketingIsChronological | src/market/source.cpp:68-113 | the bracketed stream is chronological |
| Sources.ChoiceIs | src/market/source.cpp:124-145 | at each step of a merge no waiting head is earlier than the one taken; at one instant data come before session marks, smaller instruments before larger ones, and equals by the order of the streams |

## Left out

- Rng.DeterministicRng.Bounded: the rejection loop has no bound of its own and ends only with probability one, so the
  method takes a `patience`; what is proved for it holds for every patience, and running out of it is a separate
  result.
- RiskWindows.ConditionalVar: the source does not check its confidence and would convert a negative count or read past
  the window outside `TailInWindow`; behaviour that is undefined there is not modelled.
- Holidays.NthIsTheNth: speaks of the n-th weekday counted from the month; an n so large that the day leaves the
  month, or n equal to zero, which no caller uses, is not given the narrowing the calendar library would do.
- ExecutorTracking.TracksSchedule: an execution within the tolerance of its whole quantity counts as complete and
  stops, so the equality is up to that tolerance in that one case.
- ExecutorTracking.FillsTheWholeIff: speaks of executions whose children are filled whole before the next event; with
  partial fills what is left of a child is outside its plan, which is what `ExecutorOverfills` is about.
- LiveOrders.SubmitInvitesTooMuchIff: speaks of orders that carry no acknowledgement stamp of their own, since a stale
  one makes the venue's fills fail instead.
- Overflow of 64-bit times, durations and of the products in truncated slice widths; the words of the random numbers
  are modelled at their width.
- IEEE rounding, NaN and infinity: every finiteness branch is skipped, and accumulated rounding is not modelled.
- `sqrt`, `log`, `exp` and what needs them: annualised volatility, Sharpe, beta, alpha, normal draws; skewness and
  kurtosis as ratios of the moments that are modelled.
- The risk gate is an arbitrary approve or reject answer; commission, spread, impact, slippage and latency are
  arbitrary functions, so their models and the advance of the slippage and latency generators are not part of this
  model.
- VenueTallies.OrdersAreAccountedFor: speaks of a venue that simulates its fills, since reported ones are counted
  without telling partial from whole, and gives a bound instead of an equality when immediate orders are sent.
- Statistics counters other than those of accepted, rejected, filled, partly filled and killed orders and the
  commission; error texts, run summaries, portfolio snapshots and the peak equity.
- Cancelled and expired executions as final: a late fill may still complete one in the source, and does in the model.
- The order sink of the executor is a venue that accepts or refuses at will and reports fills of what it accepted; it
  is not the engine's own sink.
- Restart and recovery of the live broker, session orchestration, the market-data reader of the same connection, and
  encoded payloads: cancel and replace requests change no local state before the venue answers.
- `ReplaySource`: it orders by exchange time but moves the clock to receive times, so its clock is not monotone for
  mixed latencies.
- The timestamp parser as a recogniser of one grammar: the signed fields it accepts beyond
  `Timestamps.WholeSecondsParse` and `Timestamps.FractionsParse` are stated field by field.
- The volume profile builder, `parse_time_of_day`, registries, report and description texts, configuration and
  storage.
- Calendars before 2008, which the source refuses.
