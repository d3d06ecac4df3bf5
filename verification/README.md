# kickex-bot, verified

A Dafny model of a trading bot for one exchange: the spread strategy and the buy strategy as concurrent
protocols, the order book cache, re-pricing, the message broker, decimal arithmetic, the arbitrage
chain, the clean-up of the order store, restart from a dump and the refresh of order states.

The heart is the spread session. Three kinds of processes, a decider, a listener and one watcher per
live order, share a record of about fifteen fields behind per-setter locks, and an order store that
the exchange feeds. Nothing in the code says why they do not trip over each other. The model makes the
reason explicit: one side of a session is a *lane* that is owned by a need flag, a request id or one
watcher, and every path hands the ownership on with its last write. From this invariant, proved for
every step of any number of sessions against an exchange that may do anything its contract allows,
follow the theorems over all runs: a single owner, no missing orders, one-way phases, a budget, no
overselling, an exact profit ledger, and where a session stalls.

## Files

| file | content |
|---|---|
| Totals, Rounding, Decimals, Ticks | sums over sets, rounding, decimal texts, the price step |
| Exchange, Lanes, Budgets | the exchange and the order store, one side of a session, what it may spend |
| SpreadSession, SpreadProtocol | the session record as value and class, the processes and the world |
| SpreadInvariant, SpreadSteps, SpreadRuns | the invariant, its preservation, all runs |
| SpreadDeeds, SpreadLookups, BuyDeeds | what every step does to the whole world and why, and which orders it needs to find |
| SpreadTheorems, SpreadStalls, SpreadAnchors, SpreadWitnesses | the theorems, when a session stops for good and what it then looks like, concrete runs |
| SpreadBooking | sums read after a side is complete |
| SpreadAtomicity, BuyAtomicity | every setter as a step of its own |
| SpreadReplies | replies before their request's id is stored |
| SpreadServices | the services as methods over objects, against the protocol |
| BuySession, BuyProtocol, BuyInvariant, BuyTheorems, BuyServices | the same for the buy strategy |
| Books, BookSubscriber, Chase | the order book cache, its subscriber, re-pricing |
| BrokerStreams, Brokers | subscriber streams, the broker's loop |
| Arbitrage, Storages, Recovery, Refresh | the three legs, the clean-up, restart, refresh and cancel round trips |

`dafny verify dfyconfig.toml` checks everything.

## Reading the main model

A *run* is a sequence of steps of a world: a session opens, a decider, listener or watcher is
activated, the exchange accepts or refuses a request or lets an order evolve, the store hears of an
order, the store is cleaned up, or the bot fails. An activation yields the writes it makes in order,
the orders it starts to watch, its effect on store and exchange, and what it books. *Drift* is the
filled cost (or volume) that a session already had when an order opened beyond what the bot had seen
when it chose the volume. *Exposure* is all a session has filled on one side plus all it can still fill.

Where code and comments or the two twins of an operation differ, the model follows the code: completing
the buy side of a spread session returns after a successful cancel (service/spread/order.go:230-251)
while the sell side and the buy strategy go on.

## Model

| member | source | states |
|---|---|---|
| `SpreadTheorems.SingleOwner` | service/spread/watch.go:145-464 | in every reachable state of every run, each session that has not been cleaned up has exactly one owner among need-buy flag, buy request id, need-sell flag, sell request id, one watcher and done; a watcher watches the active order of the side at work |
| `SpreadTheorems.OneOwner` | service/spread/decider.go:92-120 | the session invariant alone already gives the single owner |
| `SpreadTheorems.NeverPanics` | service/spread/session.go:19-83 | no run ever dereferences an order that the store does not have, in the sums or in the look-ups of previous orders, although the listener adds ids before the store knows them |
| `SpreadLookups.PanicsExactly` | service/spread/decider.go:122-209 | from any world, reachable or not, a step runs into a missing order if and only if the store lacks one of the orders it reads without asking: the side's orders for sizing, for the spread or for booking, and the previous order behind its guard |
| `SpreadLookups.FindsWhatItReads` | service/spread/session.go:19-83 | whatever step comes next in a run, every order it reads is in the store |
| `SpreadTheorems.OneWayPhases` | storage/spread/session.go:253-304 | in the buy phase all sell fields are empty, in the sell phase the previous buy id is 0 and the active buy id is one of the session's orders, all of them final; counters stay in {0, 1}; a set previous id is in the store and at least active, so the loose guards on previous ids are safe |
| `SpreadTheorems.BudgetHolds` | service/spread/order.go:334-342 | filled cost plus what can still fill never exceeds the total by more than half a quantity unit at one order's limit price plus that order's drift (fills unseen when it was sized), over any moves, cancels and partial fills |
| `SpreadTheorems.BudgetWhenCurrent` | service/spread/session.go:35-50 | with all fills seen when sizing, the excess is at most half a quantity unit at the highest limit price used |
| `SpreadTheorems.OverspendsExactlyByDrift` | service/spread/order.go:157-163 | when a buy order opens, the exposure is total plus drift up to half a unit at its price either way, so the budget is broken beyond rounding by exactly the unseen fills |
| `SpreadTheorems.ExposureSplits` | service/spread/session.go:35-50 | the exposure is the filled cost (or volume) plus the remainder of live orders |
| `SpreadTheorems.NeverOversells` | service/spread/order.go:344-354 | sold volume plus live remainder never exceeds the sell volume plus one order's unseen fills, and the sell volume is exactly what the exchange filled on the buy side |
| `SpreadTheorems.OversellsExactlyByDrift` | service/spread/order.go:344-354 | when a sell order opens, sold volume plus remainder equals the sell volume plus its drift: it oversells if and only if fills were unseen |
| `SpreadTheorems.ProfitIsLedger` | storage/book.go:264-276 | at every moment the book's profit is the sold cost of all sessions whose sell side completed minus the bought cost of all whose buy side completed, at the exchange's figures, cleaned-up sessions included |
| `SpreadBooking.SumsAreFrozen` | service/spread/order.go:253-255 | however long a process waits between completing a side and reading the sums to book, and whatever happens meanwhile, it reads the same orders, cost and volume, unless the session is cleaned up |
| `SpreadBooking.CleanUpOvertakes` | service/spread/order.go:286-291 | a clean-up between the done flag and the reading takes the orders of any done session away, the bought ones in any case, so the reading runs into a missing order |
| `SpreadBooking.NextKeepsFinal` | storage/storage.go:118-123 | no step of any process or of the exchange changes a final order or gives a side without a pending request a new one |
| `SpreadBooking.LateCancelBooksShort` | service/spread/order.go:263-291 | were the answer to a cancel to arrive before the accounting message about the order, the sell side would be booked short by exactly price times the fills not heard of: booked right if and only if there are none, or they cost nothing |
| `SpreadStalls.StallsExactly` | service/spread/order.go:230-251 | a set request id keeps its answer outstanding through every step except exactly one: a too-small reply to a buy request whose previous order is active and gets cancelled; the sell side never stalls in the step |
| `SpreadStalls.StallsIffForgotten` | service/spread/order.go:230-251 | over whole runs: in every reachable running state a session is stalled if and only if somewhere in its run that step was taken |
| `SpreadAnchors.AnchoredInRun` | service/spread/order.go:157-163 | in every reachable running state an outstanding buy alter is aimed at the active order, a stalled session's active order is its previous one and cancelled in the store, and an active sell order is one of the session's |
| `SpreadStalls.StalledStays` | strategy/spread.go:398-429 | no step of any process changes a stalled session |
| `SpreadStalls.StalledForever` | strategy/spread.go:398-429 | a stalled session is never done in any run |
| `SpreadStalls.SellSideNeverStalls` | service/spread/order.go:263-286 | in every reachable state a set sell request id has its answer outstanding |
| `SpreadWitnesses.ASessionStalls` | service/spread/order.go:230-251 | a concrete run that ends in a stalled session |
| `SpreadWitnesses.UnseenFillsBreakTheBudget` | service/spread/order.go:157-163 | a concrete run at prices of 1 with a total of 10 and an exposure of 16, because fills arrived between sizing and acceptance |
| `SpreadWitnesses.ACleanUpOvertakes` | storage/storage.go:146-177 | a concrete run from the start to a done session with a sold order, whose sums cannot be read any more once the clean-up has come |
| `SpreadWitnesses.ARestartBooksTwice` | strategy/spread.go:214-228 | a concrete run from the start to a session that waits to sell, whose restart watches the done buy order and books its cost a second time |
| `SpreadWitnesses.ARestartForgetsTheSale` | strategy/spread.go:214-228 | a concrete run to a session with its first sell request in flight, whose restart has a single owner and books the buy side a second time all the same |
| `SpreadWitnesses.ARestartBuysAgain` | strategy/spread.go:214-228 | a concrete run to a buy side completed by a cancelled order, whose restart opens the buy side again beside the sell side |
| `SpreadWitnesses.ARestartLosesTheOrder` | strategy/spread.go:229-245 | a concrete run to a session whose first order is done but its reply unread: restarted, it completes its buy side with nothing bought at no cost |
| `SpreadWitnesses.ALateCancel` | service/order.go:230-281 | a concrete run to a cancel of a sell order with three fills unheard of: with the answer first, 6 would never reach the profit |
| `SpreadAtomicity.FineRunsAreAtomic` | service/spread/watch.go:222-224 | with every locked setter as its own step, and a decider that clears the flag before it sizes and sends, at most one process is ever inside a writing section of a session, and every such run ends where a run of whole activations does |
| `SpreadAtomicity.FineNeverPanics` | service/spread/session.go:19-83 | also between two setters no process runs into a missing order |
| `SpreadAtomicity.StepSimulates` | service/spread/order.go:108-109 | each begin, cleared flag, sent order or single write looks like one whole activation or nothing, and keeps the sections disjoint |
| `SpreadAtomicity.BeginLocks` | strategy/spread.go:366-380 | whoever starts to write holds the only right to act, and all its writes but the last keep everybody else out |
| `SpreadAtomicity.LockedOut` | service/spread/watch.go:337-339 | a process that looks at a session somebody else is writing to does nothing |
| `SpreadAtomicity.WriteRollsForward` | storage/spread/session.go:253-304 | a single write changes neither the session its section will leave nor, with what it books, the profit to come |
| `SpreadAtomicity.DecideReleasesLast` | service/spread/order.go:108-109 | the decider's first write clears its flag, and of the writes after it only the last entitles another process |
| `SpreadAtomicity.ListenReleasesLast` | strategy/spread.go:366-380 | only the listener's last write entitles another process |
| `SpreadAtomicity.WatchReleasesLast` | service/spread/watch.go:248-250 | only the watcher's last write entitles another process |
| `SpreadAtomicity.ClearSimulates` | service/spread/order.go:72-73 | a cleared flag changes nothing from afar and shuts everybody out of the session |
| `SpreadAtomicity.CreateSimulates` | service/spread/order.go:77-109 | sizing and sending after the flag was cleared, or setting it again when funds are short, is a whole decider round at the moment of sending, and no order it looks up is missing |
| `SpreadAtomicity.ReadingCommutes` | service/spread/order.go:72-96 | from the moment a decider has cleared its flag until it sends, whatever the other steps are, the session stays as it is and its sums in the store stay the same, so it does not matter when they are read |
| `SpreadAtomicity.CleaningSimulates` | storage/storage.go:146-177 | kept out of sessions being marked done, the clean-up sees exactly the sessions that are done |
| `SpreadReplies.HeardExactly` | strategy/spread.go:337-339 | in every reachable state of the single-setter runs, a reply that the session waits for or will wait for finds its id there if and only if no process has still to store it |
| `SpreadReplies.PassedOverStalls` | service/spread/order.go:96-109 | were such a reply read before, and so passed over, the side that waits for it would be stalled, and an order that it announces unknown to the session |
| `SpreadReplies.AReplyComesEarly` | service/spread/order.go:96-109 | a concrete single-setter run to that moment |
| `SpreadSteps.DecideIsSound` | service/spread/decider.go:92-185 | a decider round keeps the session invariant, leaves every other session alone, books nothing and never misses an order |
| `SpreadSteps.ListenIsSound` | strategy/spread.go:345-512 | so does the listener for every reply, and it books exactly the change of the session's contribution |
| `SpreadSteps.WatchIsSound` | service/spread/watch.go:145-464 | so does a watcher for every verdict of the market and every answer to a cancel |
| `SpreadDeeds.EveryStepExplained` | strategy/spread.go:388-516 | over all steps from every reachable state: a side completes if and only if its watched order is done, its alter is refused as done with the order done, or as too small with the order over (or for a sell cancelled on the spot); a need flag rises if and only if the watched order is cancelled, rejected or withdrawn, or the alter is refused with the order cancelled (and for the sell side also when the buy side completes), and falls if and only if the order is placed; a new request id is stored if and only if an order is placed or moved |
| `SpreadDeeds.BooksExactly` | service/spread/order.go:230-298 | whatever a process does, the profit moves exactly by the cost of the side that completes, and the bot stops exactly on a cancel that comes back with an error, a refusal of another kind, without a known previous order, or with one in an unexpected state |
| `SpreadDeeds.DecidesExactly` | service/spread/decider.go:92-120 | the whole world after a round: the order that is needed is sent with exactly what is left, or nothing has changed |
| `SpreadDeeds.WatchesBuyExactly` | service/spread/watch.go:176-342 | the whole world after a look at a watched buy order, by the order's state and what the market makes of it |
| `SpreadDeeds.WatchesSellExactly` | service/spread/watch.go:179-383 | the same for a sell order |
| `SpreadDeeds.HearsCreatedExactly` | strategy/spread.go:366-380 | the whole world after a created order: active, counted among its side's orders, ids cleared, watched |
| `SpreadDeeds.HearsBuyRefusedExactly` | strategy/spread.go:388-453 | the whole world after a refused buy request, by its kind and the previous order's state |
| `SpreadDeeds.HearsSellRefusedExactly` | strategy/spread.go:418-506 | the same for a sell request |
| `SpreadDeeds.CleansExactly` | storage/storage.go:146-177 | the clean-up removes exactly the done sessions and takes exactly their orders from the store |
| `SpreadSteps.BuyRequestAffordable` | service/spread/order.go:334-342 | the rounded volume at the limit price costs what is left of the total up to half a price |
| `SpreadSteps.SellRequestAffordable` | service/spread/order.go:344-354 | the volume asked for is exactly what is left of the sell volume |
| `SpreadRuns.NextKeeps` | strategy/spread.go:299-386 | every step of every process, of the exchange, of the store and of the clean-up keeps the invariant of all sessions and the ledger |
| `SpreadRuns.RunKeeps` | strategy/spread.go:276-297 | every legal run from a state with the invariant keeps it |
| `SpreadRuns.SweepKeeps` | storage/storage.go:146-177 | the clean-up keeps every surviving session's invariant and the ledger |
| `SpreadInvariant.BuyDoneStep` | storage/spread/session.go:253-271 | completing the buy side opens the sell side on exactly the bought volume and books minus the bought cost |
| `SpreadInvariant.SellDoneStep` | storage/spread/session.go:273-286 | completing the sell side ends the session and books the sold cost |
| `Lanes.CreateKeepsOpen` | service/spread/order.go:72-112 | the need flag becomes a request id and nothing else owns the side |
| `Lanes.MoveKeepsOpen` | service/spread/watch.go:259-276 | the watcher of the altered order becomes a request id, and the altered order is the previous one |
| `Lanes.OpenedKeepsOpen` | strategy/spread.go:366-380 | the request id becomes one watcher of the new order, all earlier orders final in the store |
| `Lanes.ReleaseKeepsOpen` | service/spread/watch.go:430-437 | the watcher of a final order becomes the need flag |
| `Lanes.FinishCloses` | service/spread/watch.go:415-430 | the watcher of a done order leaves a closed side |
| `Lanes.RefusedReopens` | storage/spread/session.go:288-304 | a refused alter of a cancelled order becomes the need flag |
| `Lanes.RefusedCloses` | strategy/spread.go:399-436 | a refused request with a final previous order closes the side |
| `Lanes.AcceptKeepsOpen` | strategy/spread.go:366-380 | an accepted request leaves the side waiting for exactly one reply |
| `Budgets.ExposureAtAcceptance` | service/spread/order.go:334-354 | the exposure right after an order opens is what was seen filled plus its drift plus its own weight, because every earlier order is final by then |
| `Budgets.AcceptKeepsBudgeted` | service/spread/order.go:334-354 | opening an affordable order keeps the side within its cap, one rounding and one drift |
| `Rounding.RoundedQuotient` | service/spread/order.go:334-342 | a total divided by a price and rounded misses the total by at most half a price |
| `SpreadServices.SessionSums.GetSessTotalBoughtVolume` | service/spread/session.go:19-33 | the loop returns the sum of fills over the buy orders in whatever order they are visited, and fails exactly when one is not in the store |
| `SpreadServices.SessionSums.GetSessTotalBoughtCost` | service/spread/session.go:35-50 | the same for price times fills |
| `SpreadServices.SessionSums.GetSessTotalSoldVolume` | service/spread/session.go:52-66 | the sum of fills over the sell orders |
| `SpreadServices.SessionSums.GetSessTotalSoldCost` | service/spread/session.go:68-83 | the sum of price times fills over the sell orders |
| `SpreadServices.OrderService.CreateBuyOrder` | service/spread/order.go:72-112 | setter by setter, in this order and none else, what the protocol's creation does, with the need flag restored when funds are short |
| `SpreadServices.OrderService.CreateSellOrder` | service/spread/order.go:114-152 | the same for the sell side |
| `SpreadServices.OrderService.CalculateBuyOrder` | service/spread/order.go:334-342 | the request sized from the sums, as the budget lemmas take it |
| `SpreadServices.OrderService.CalculateSellOrder` | service/spread/order.go:344-354 | the request for the unsold volume |
| `SpreadServices.OrderService.SetBuyOrderExecutedFlags` | service/spread/order.go:230-261 | an active order is cancelled and nothing else; otherwise the done flags are set and the cost booked |
| `SpreadServices.OrderService.SetSellOrderExecutedFlags` | service/spread/order.go:263-298 | an active order is cancelled first, then the done flags are set and the cost booked |
| `SpreadServices.Decider.Decide` | service/spread/decider.go:92-120 | one round of the decider is the protocol's step; it stops exactly when the session is done |
| `SpreadServices.Decider.IsSellOrderCreationAvailable` | service/spread/decider.go:146-185 | without the need flag nothing is looked up; with it the sums are looked up exactly when the spread guard lets it, and the previous sell order when its guard does, and only then is a missing one a fault |
| `SpreadServices.Listener.Listen` | strategy/spread.go:345-380 | one reply is the protocol's step, and the watcher started is the one it names |
| `SpreadServices.Listener.CheckListenOrderErrors` | strategy/spread.go:388-516 | every error branch is the protocol's refusal |
| `SpreadServices.Listener.TakeOrder` | strategy/spread.go:366-378 | the four setters per matching request id, written in order |
| `SpreadServices.Watcher.CheckOrderState` | service/spread/watch.go:145-209 | one look at the order is the protocol's step, and the watcher is finished exactly when it has written |
| `SpreadServices.Watcher.CancelBuyOrder` | service/spread/watch.go:306-342 | previous id, active id and need flag are set, in this order, only after a confirmed cancel |
| `SpreadServices.Watcher.CancelSellOrder` | service/spread/watch.go:344-383 | the same for the sell side |
| `SpreadServices.Watcher.MoveBuyOrder` | service/spread/watch.go:259-276 | the alter request names the active order; previous id, external id and, last, the request id are stored |
| `SpreadServices.Watcher.MoveSellOrder` | service/spread/watch.go:211-228 | the alter request names the watched order; previous id, external id and, last, the request id are stored |
| `SpreadServices.Watcher.BuyOrderExecuted` | service/spread/watch.go:415-441 | done completes the side, cancelled or rejected asks for a new order |
| `SpreadServices.Watcher.SellOrderExecuted` | service/spread/watch.go:443-464 | the same for the sell side, without a previous id |
| `SpreadServices.Wire.CancelOrder` | service/order.go:230-299 | a confirmed cancel brings the order's last version to the store; a done order and an error are told apart and change nothing |
| `SpreadSession.Session.constructor` | storage/spread/session.go:54-76 | a new session only needs a buy order |
| `SpreadSession.Session.SetBuyOrderDoneFlags` | storage/spread/session.go:253-271 | the whole locked write, against its abstract form |
| `SpreadSession.Session.SetSellOrderDoneFlags` | storage/spread/session.go:273-286 | the whole locked write, against its abstract form |
| `SpreadSession.Session.SetBuyOrderCancelledFlags` | storage/spread/session.go:288-295 | the whole locked write, against its abstract form |
| `SpreadSession.Session.SetSellOrderCancelledFlags` | storage/spread/session.go:297-304 | the whole locked write, against its abstract form |
| `BuyTheorems.NeverStalls` | strategy/buy.go:341-414 | in every reachable state a session is done or has exactly one owner, and a set request id always has its answer outstanding: the buy strategy never stalls |
| `BuyDeeds.PanicsExactly` | service/buy/session.go:19-50 | from any world, reachable or not, a step runs into a missing order if and only if the store lacks one that it reads |
| `BuyDeeds.FindsWhatItReads` | service/buy/session.go:19-50 | whatever step comes next in a run, every order it reads is in the store |
| `BuyTheorems.NeverPanics` | service/buy/session.go:19-50 | no run dereferences a missing order |
| `BuyTheorems.BudgetHolds` | strategy/buy.go:800-808 | the budget with one rounding and one drift, as for the spread strategy |
| `BuyTheorems.OverspendsExactlyByDrift` | strategy/buy.go:800-808 | when a buy order opens, the exposure is total plus drift up to half a unit at its price either way |
| `BuyTheorems.BookIsLedger` | storage/book.go:285-304 | the book's bought cost and volume are at every moment exactly those of the completed sessions' orders |
| `BuyTheorems.NextKeeps` | strategy/buy.go:259-339 | every step keeps the invariant of all sessions and both ledgers |
| `BuyAtomicity.FineRunsAreAtomic` | strategy/buy.go:416-456 | with every locked setter as its own step at most one process is ever writing to a session, no process misses an order, and every such run ends where a run of whole activations does |
| `BuyAtomicity.StepSimulates` | strategy/buy.go:416-456 | each begin, cleared flag, sent order or single write looks like one whole activation or nothing |
| `BuyAtomicity.LockedOut` | strategy/buy.go:382-384 | a process that looks at a session somebody else is writing to does nothing |
| `BuyAtomicity.DecideReleasesLast` | strategy/buy.go:417-453 | the decider clears its flag first, and of the writes after it only the last entitles another process |
| `BuyAtomicity.ListenReleasesLast` | strategy/buy.go:326-384 | only the listener's last write entitles another process |
| `BuyAtomicity.WatchReleasesLast` | strategy/buy.go:568-661 | only the watcher's last write entitles another process |
| `BuyInvariant.DecideIsSound` | strategy/buy.go:195-257 | a decider round keeps the session invariant and leaves the others alone |
| `BuyInvariant.ListenIsSound` | strategy/buy.go:299-414 | every reply keeps the session invariant; a too-small reply always completes the session or fails |
| `BuyInvariant.WatchIsSound` | strategy/buy.go:514-670 | every look of a watcher keeps the session invariant |
| `BuyDeeds.EveryStepExplained` | strategy/buy.go:341-414 | from every reachable state: a session completes if and only if its watched order is done, its alter is refused as done with the order done, or as too small with the order over or cancelled on the spot; its flag rises if and only if the watched order is cancelled, rejected or withdrawn, or the alter is refused with the order cancelled, and falls if and only if the order is placed; cost and volume are booked if and only if it completes; the bot stops exactly in the remaining cases |
| `BuyDeeds.ActivatesExactly` | strategy/buy.go:514-670 | the whole world after any activation, read off the session, the store and the exchange |
| `BuyServices.Buy.Decide` | strategy/buy.go:195-233 | one round is the protocol's step |
| `BuyServices.Buy.CreateBuyOrder` | strategy/buy.go:416-456 | setter by setter, in this order and none else, the protocol's creation |
| `BuyServices.Buy.Listen` | strategy/buy.go:299-339 | one reply is the protocol's step |
| `BuyServices.Buy.CheckListenOrderErrors` | strategy/buy.go:341-414 | every error branch is the protocol's refusal |
| `BuyServices.Buy.CheckOrderState` | strategy/buy.go:514-670 | one look is the protocol's step; finished exactly when written |
| `BuyServices.Buy.SetBuyOrderExecutedFlags` | strategy/buy.go:724-756 | an active order is cancelled first, then the flags are set and cost and volume booked |
| `BuyServices.Buy.GetSessTotalBoughtVolume` | service/buy/session.go:19-33 | the sum of fills, in whatever order the orders are visited |
| `BuyServices.Buy.GetSessTotalBoughtCost` | service/buy/session.go:35-50 | the sum of price times fills |
| `BuySession.Session.SetBuyOrderExecutedFlags` | storage/buy/session.go:155-168 | the whole locked write, against its abstract form |
| `Books.BestIsFoundAgain` | storage/book.go:134-144 | the cached best price printed again is the key of the best entry and of no other |
| `Books.Book.GetMaxBid` | storage/book.go:134-144 | in whatever state the book is, the entry under the printed cached price; in a consistent one nothing exactly when there is no bid, else the entry whose price is above all others |
| `Books.Book.GetMinAsk` | storage/book.go:172-182 | the same for the asks: below all others |
| `Books.Book.UpdateMaxBidPrice` | storage/book.go:191-222 | succeeds exactly when all keys are readable, and then caches the highest price or 0 |
| `Books.Book.UpdateMinAskPrice` | storage/book.go:224-255 | succeeds exactly when all keys are readable, and then caches the lowest price or 0 |
| `Books.SpreadPositive` | subscriber/orderbook.go:243-269 | the spread is positive if and only if 0 < bid < ask |
| `Books.PositiveSpreadFindsBid` | service/spread/decider.go:127-141 | with a positive spread the look-up of the best bid by its printed price finds an entry |
| `BookSubscriber.OrderBook.Start` | subscriber/orderbook.go:52-136 | any sequence of messages succeeds exactly when all are readable, and then both maps are what the last writer per price said, with empty totals deleting, cached prices and spread are current, and the spread is positive iff 0 < bid < ask |
| `BookSubscriber.OrderBook.UpdateMaxBids` | subscriber/orderbook.go:138-173 | one message's bids: last writer wins, and the best bid is current again |
| `BookSubscriber.OrderBook.UpdateAsks` | subscriber/orderbook.go:175-213 | one message's asks: last writer wins, and the best ask is current again |
| `BookSubscriber.OrderBook.UpdateSpread` | subscriber/orderbook.go:243-269 | the cached spread is the formula on the cached prices, or 0 |
| `BookSubscriber.LastWriterAppend` | subscriber/orderbook.go:138-213 | patching with two streams in turn is patching with their concatenation |
| `BookSubscriber.LastEntryDecides` | subscriber/orderbook.go:139-162 | the last entry that names a price decides: without a total the price is gone, with one the book has exactly its price, amount and total |
| `BookSubscriber.UnnamedStays` | subscriber/orderbook.go:139-162 | a price that no entry names stays as it was |
| `Chase.BuyPlacementIsStable` | service/spread/watch.go:466-476 | an order placed one tick above the best bid and folded into the unchanged book is not to be moved |
| `Chase.SellPlacementIsStable` | service/spread/watch.go:505-515 | the same one tick below the best ask |
| `Chase.BuyMoveIsStable` | service/spread/watch.go:255-278 | a bid moved to one tick above the best is not to be moved again if and only if the price it was put above keeps an entry: another bid has it, or it was not the bot's own |
| `Chase.SellMoveIsStable` | service/spread/watch.go:211-228 | the same for an ask |
| `Chase.ChasesItself` | service/spread/watch.go:466-503 | with nobody else one tick behind its own best bid, the bot outbids itself tick by tick as long as the start spread lets it |
| `Chase.SelfChaseMeetsTheBound` | service/spread/decider.go:127-141 | such a chase of every length up to the ceiling of the start spread occurs, so the bound on consecutive moves is met |
| `Chase.BuyChaseEnds` | service/spread/watch.go:255-278 | with the asks fixed and the own bid in the book, consecutive moves number at most ask(1 - start/100) - limit + 1 in ticks |
| `Chase.MoveRaisesLimit` | service/spread/decider.go:127-141 | each move raises the limit by at least a tick, from a limit within the start-spread bound |
| `Chase.SellChaseEnds` | service/spread/watch.go:211-228 | consecutive moves of a sell order are bounded by the ticks down to the price that keeps the start spread, plus one |
| `Chase.IsMoveBuyOrderRequired` | service/spread/watch.go:466-503 | on a consistent book: required if and only if some bid is above the limit or none is one tick below it; on a book read in the middle of a patch the cached best price stands for the bids above |
| `Chase.IsMoveSellOrderRequired` | service/spread/watch.go:505-531 | the same on the ask side; with no ask at all a move is required |
| `BrokerStreams.StreamsAreSelections` | broker/broker.go:33-62 | after any trace, what each subscriber has received and has queued is an order-preserving, duplicate-free selection of the handled messages, within 1024 queued ones, and a channel is closed exactly when removed |
| `BrokerStreams.DeliveredExactly` | broker/broker.go:48-59 | a message reaches a channel if and only if the channel was registered then and its queue was not full, whatever happens later |
| `BrokerStreams.ClosedExactly` | broker/broker.go:36-46 | after any trace a registered channel is closed if and only if a removal of it was handled after its registration: removals handled before are lost |
| `BrokerStreams.EarlyRemovalIsLost` | broker/broker.go:36-46 | the smallest such trace, with the two events in either order |
| `Brokers.Broker.Deliver` | broker/broker.go:48-59 | one publication does to every subscriber's channel what the stream model says; sending needs room and an open channel, so it never blocks or hits a closed one |
| `Brokers.Broker.Remove` | broker/broker.go:38-46 | an unknown channel is left alone, a known one is forgotten and closed once |
| `Brokers.Channel.Send` | broker/broker.go:59 | needs an open channel with room, and appends |
| `Decimals.ParsePrint` | storage/book.go:134-144 | reading a printed number gives it back, decimals and all |
| `Decimals.TextIsStable` | storage/book.go:134-144 | a printed price read and printed again is the same text |
| `Decimals.PreparedAmount` | strategy/arbitrage.go:746-757 | the prepared amount is within [a - 0.95u, a + 0.05u] and is plain truncation for amounts with at most one decimal too many |
| `Decimals.PrepareAmount` | strategy/arbitrage.go:746-757 | printing, splitting at the dot and cutting gives the number of the previous row as a text |
| `Ticks.StepDenotesOneTick` | cmd/spread.go:148-149 | the constructed step text denotes one unit of the last decimal |
| `Ticks.StepPrintsNextTick` | cmd/spread.go:151 | rounded to as many bits as the scale, the step still makes every price plus step print as exactly the next tick |
| `Ticks.StepPrintsPreviousTick` | service/spread/order.go:344-354 | and every price minus step as the previous tick |
| `Ticks.ExponentExists` | cmd/spread.go:151 | such a rounding exists at every scale |
| `Arbitrage.CheckBuyBaseOption` | strategy/arbitrage.go:227-322 | an order is sent if and only if the three totals suffice and what comes back at the three prices exceeds the start by the percentage; the next one if and only if the previous leg completes, which the store then knows as done, with an amount cut from what it brought in; a leg that is not completed is cancelled |
| `Arbitrage.WatchOrder` | strategy/arbitrage.go:634-719 | the first deciding event decides, which the three equivalences below spell out |
| `Arbitrage.CompletedExactly` | strategy/arbitrage.go:663-704 | a watch completes if and only if the first event that decides anything shows the order done |
| `Arbitrage.FailedExactly` | strategy/arbitrage.go:656-684 | it fails if and only if first the channel is closed, or the order is late and still not there |
| `Arbitrage.NotCompletedExactly` | strategy/arbitrage.go:706-716 | it ends uncompleted if and only if first the time is up, the bot is stopped, or the order is cancelled or rejected, or nothing decides |
| `Arbitrage.SpreadExceeds` | strategy/arbitrage.go:243-272 | the announced spread exceeds the percentage if and only if what comes back exceeds the start by it |
| `Arbitrage.CompletedIsDone` | strategy/arbitrage.go:510-536 | a completed leg's order is done in the store |
| `Arbitrage.ChainProfit` | strategy/arbitrage.go:246-318 | if all legs fill at their limits without fees, received minus spent USDT exceeds start times percent / 100 less an explicit loss built from the three quantity units |
| `Arbitrage.CutIsPrepared` | strategy/arbitrage.go:746-757 | the cut on numbers used in the bound is the cut on texts |
| `Arbitrage.CutNear` | strategy/arbitrage.go:746-757 | a cut amount is within [a - 0.95u, a + 0.05u] for every real a |
| `Storages.Storage.CleanUpOldOrders` | storage/storage.go:146-177 | exactly the done sessions of all books and exactly their orders go, and the result is the sum of their order-set sizes |
| `Storages.SurvivorSums` | storage/storage.go:146-177 | with separate order sets every surviving session keeps its orders and its four sums |
| `Storages.Storage.CleanUpTwice` | storage/storage.go:146-177 | a second call right after the first returns 0 and leaves the orders as the first did |
| `Storages.NothingLeft` | storage/storage.go:146-177 | what a clean-up leaves holds no done session |
| `Storages.ShelvedAfter` | storage/storage.go:146-177 | what is left is again a set of books with separate sessions, so the method can be called again |
| `Recovery.WatchedIsRestored` | strategy/spread.go:198-228 | a session dumped while an order is watched comes back as it was: one watcher on that order and the invariant intact |
| `Recovery.RestartedOwner` | strategy/spread.go:198-263 | what the owner count alone says: a session that is not done comes back with a single owner if and only if it either has an order to watch or asks for a new one, but not both; that is necessary, not sufficient, for coming back sound (next row) |
| `Recovery.RestoredExactly` | strategy/spread.go:175-263 | from every reachable running state, a session that is not done comes back with its invariant intact if and only if no request of it is in flight and it either has an order to watch or asks for a new one, but not both |
| `Recovery.RestartHeals` | strategy/spread.go:214-228 | a stalled session comes back sound: its dead request id is gone, and the first look at the cancelled order asks for a new one |
| `Recovery.BooksTwiceExactly` | strategy/spread.go:198-228 | from every reachable running state, a restart may book a completed buy side again if and only if the session has no sell order and its bought order is done |
| `Recovery.SellingBooksTwice` | strategy/spread.go:214-228 | any session in its sell phase comes back watching its sell order, or without one its completed buy order; whatever the market says, the first look at that one books the whole buy side a second time if and only if the order is done, and opens the buy side again if and only if it is not |
| `Recovery.AdoptedIsNotCounted` | strategy/spread.go:229-245 | an order taken up by its external id never joins the session's orders, so when it is done the booking leaves out exactly its fills and its cost |
| `Recovery.Spread.ProcessOldSession` | strategy/spread.go:175-263 | which order is watched again and what becomes of the fields, branch by branch; the exchange is asked exactly for an order to be watched that the store does not have, or for the one behind an external id, and its answer is stored; a vanished external id is a missing order |
| `Recovery.Spread.AdoptBuyOrder` | strategy/spread.go:241-243 | an order found by its external id: active id, external id and request id, in this order |
| `Recovery.Spread.AdoptSellOrder` | strategy/spread.go:258-260 | the same for the sell side |
| `Refresh.RefreshedMeansAllAnswered` | service/order.go:50-109 | when the refresh ends well there was at least one request, and every request has been answered if and only if none was answered twice up to then |
| `Refresh.NothingToRefresh` | service/order.go:50-109 | with no order to refresh it never ends well |
| `Refresh.DoubleAnswerEndsEarly` | service/order.go:98-106 | a concrete stream: two answers to one request end the wait with another request still open |
| `Refresh.EndsExactly` | service/order.go:70-118 | the wait ends well, fails or is given up if and only if the first event that decides anything completes the count, breaks the wait (closed, a minute of silence, an erroneous answer) or stops it, or nothing decides |
| `Refresh.UpsertedIsRefreshed` | service/order.go:198-224 | after any answers every order that one of them names is as the last such answer says, and every other order as it was |
| `Refresh.ConfirmedExactly` | service/order.go:230-299 | a cancel counts as confirmed if and only if the first event that is not an answer to another request is the exchange's word that the order is cancelled |
| `Refresh.CantCancelDoneExactly` | service/order.go:266-271 | it ends in the done-order error if and only if that first event is the exchange's word that the order is done |
| `Refresh.CancelFailedExactly` | service/order.go:245-277 | it ends in an error of its own if and only if that first event is another refusal or a message that cannot be read |
| `Refresh.NilErrorExactly` | service/order.go:293-295 | it dereferences a nil error if and only if the time is up with nothing but answers to other requests having come: in exactly these cases a cancel that is not confirmed returns no error |
| `Refresh.TimeOutRunsIntoNil` | service/order.go:293-295 | a concrete stream that ends there: one answer to another request, then silence |
| `Refresh.CancelOrder` | service/order.go:230-299 | the loop over the messages ends as the first deciding one says, which the four equivalences above spell out |
| `Refresh.OrderService.UpdateOrdersStates` | service/order.go:41-119 | as many requests as orders that are not final; afterwards every order named by an answer heard is stored as the last such answer says, every other one as it was; a good end means that all were answered if and only if none was twice |
| `Refresh.OrderService.SendRequests` | service/order.go:50-66 | one fresh request per order that is not final, and none else |
| `SpreadServices.OrderStore.GetUserOrder` | storage/storage.go:99-109 | the stored order, or the fault that dereferencing nil would be |
| `SpreadServices.OrderStore.UpsertUserOrder` | storage/storage.go:118-123 | the newest version replaces the stored one and no other order changes |
| `SpreadServices.Wire.Post` | service/spread/order.go:96-101 | a request gets the next number and is pending at the exchange |
| `SpreadServices.Wire.Take` | strategy/spread.go:317-320 | a reply is consumed once |
| `SpreadServices.Decider.IsBuyOrderCreationAvailable` | service/spread/decider.go:122-144 | without the need flag nothing is looked up; with it a missing order is a fault exactly when the spread guard lets the sums be looked up |
| `SpreadServices.Listener.PreviousIsExecuted` | strategy/spread.go:399-436 | the too-small branch is the protocol's refusal |
| `SpreadServices.Listener.AlteredIsOver` | strategy/spread.go:437-506 | the done-order branch is the protocol's refusal: a cancelled order reopens its side, a done one completes it, any other is an error (SpreadDeeds.HearsBuyRefusedExactly, SpreadDeeds.HearsSellRefusedExactly) |
| `SpreadServices.Listener.TakeBuyOrder` | strategy/spread.go:366-371 | active id, external id, request id and order set, written in this order |
| `SpreadServices.Listener.TakeSellOrder` | strategy/spread.go:373-378 | the same for the sell side |
| `SpreadServices.Watcher.CheckBuyOrder` | service/spread/watch.go:176-195 | an order that is at least active is completed, reopened, kept, withdrawn or moved as the protocol says |
| `SpreadServices.Watcher.CheckSellOrder` | service/spread/watch.go:179-206 | the same for a sell order |
| `SpreadServices.Watcher.PriceSellOrder` | service/spread/watch.go:211-213 | before a move the sums and the previous order are looked up exactly behind their guards, and only then is a missing one a fault |
| `SpreadServices.Watcher.ReopenBuy` | service/spread/watch.go:299-301 | previous id, active id and, last, the need flag are written |
| `SpreadSession.Session.SetIsNeedToCreateBuyOrder` | storage/spread/session.go:99-104 | one field written, all others kept, and the write recorded in order |
| `SpreadSession.Session.SetIsNeedToCreateSellOrder` | storage/spread/session.go:85-90 | one field written, all others kept, and the write recorded in order |
| `SpreadSession.Session.SetActiveBuyExtOrderID` | storage/spread/session.go:169-174 | one field written, all others kept, and the write recorded in order |
| `SpreadSession.Session.SetActiveSellExtOrderID` | storage/spread/session.go:197-202 | one field written, all others kept, and the write recorded in order |
| `SpreadSession.Session.SetActiveBuyOrderRequestID` | storage/spread/session.go:183-188 | one field written, all others kept, and the write recorded in order |
| `SpreadSession.Session.SetActiveSellOrderRequestID` | storage/spread/session.go:211-216 | one field written, all others kept, and the write recorded in order |
| `SpreadSession.Session.SetPrevBuyOrderID` | storage/spread/session.go:113-118 | one field written, all others kept, and the write recorded in order |
| `SpreadSession.Session.SetPrevSellOrderID` | storage/spread/session.go:127-132 | one field written, all others kept, and the write recorded in order |
| `SpreadSession.Session.SetActiveBuyOrderID` | storage/spread/session.go:141-146 | one field written, all others kept, and the write recorded in order |
| `SpreadSession.Session.SetActiveSellOrderID` | storage/spread/session.go:155-160 | one field written, all others kept, and the write recorded in order |
| `SpreadSession.Session.AddBuyOrder` | storage/spread/session.go:306-311 | one id added to the buy orders, all else kept |
| `SpreadSession.Session.AddSellOrder` | storage/spread/session.go:313-318 | one id added to the sell orders, all else kept |
| `BuyServices.Buy.CalculateBuyOrder` | strategy/buy.go:800-808 | the request sized from the sums, as the budget lemmas take it |
| `BuyServices.Buy.IsBuyOrderCreationAvailable` | strategy/buy.go:235-257 | without the need flag nothing is looked up; with it a missing order is a fault exactly when the spread guard lets the sums be looked up |
| `BuyServices.Buy.Reopen` | strategy/buy.go:382-384 | external id, request id and, last, the need flag are written |
| `BuyServices.Buy.TakeOrder` | strategy/buy.go:326-331 | active id, external id, request id and order set, written in this order |
| `BuyServices.Buy.Release` | strategy/buy.go:568-574 | previous id, active id and, last, the need flag are written |
| `BuyServices.Buy.CancelBuyOrder` | strategy/buy.go:589-617 | the session changes only after a confirmed cancel |
| `BuyServices.Buy.MoveBuyOrder` | strategy/buy.go:620-638 | the alter request names the active order; previous id, external id and, last, the request id are stored |
| `BuySession.Session.constructor` | storage/buy/session.go:34-48 | a new session only needs a buy order |
| `BuySession.Session.SetIsNeedToCreateBuyOrder` | storage/buy/session.go:64-69 | one field written, all others kept, and the write recorded in order |
| `BuySession.Session.SetActiveBuyExtOrderID` | storage/buy/session.go:106-111 | one field written, all others kept, and the write recorded in order |
| `BuySession.Session.SetActiveBuyOrderRequestID` | storage/buy/session.go:120-125 | one field written, all others kept, and the write recorded in order |
| `BuySession.Session.SetPrevBuyOrderID` | storage/buy/session.go:78-83 | one field written, all others kept, and the write recorded in order |
| `BuySession.Session.SetActiveBuyOrderID` | storage/buy/session.go:92-97 | one field written, all others kept, and the write recorded in order |
| `BuySession.Session.AddBuyOrder` | storage/buy/session.go:170-175 | one id added to the orders, all else kept |
| `Books.Book.constructor` | storage/book.go:44-64 | an empty book with consistent caches |
| `Books.Book.AddBid` | storage/book.go:115-120 | one key set, all others kept |
| `Books.Book.DeleteBid` | storage/book.go:146-151 | one key removed, all others kept |
| `Books.Book.AddAsk` | storage/book.go:153-158 | one key set, all others kept |
| `Books.Book.DeleteAsk` | storage/book.go:184-189 | one key removed, all others kept |
| `Books.Book.GetBid` | storage/book.go:122-132 | the entry under a key, or none |
| `Books.Book.GetAsk` | storage/book.go:160-170 | the entry under a key, or none |
| `Books.Book.AddProfit` | storage/book.go:271-276 | the profit grows by the value, nothing else changes |
| `Books.Book.SubProfit` | storage/book.go:264-269 | the profit shrinks by the value, nothing else changes |
| `Books.Book.AddBoughtCost` | storage/book.go:285-290 | the bought cost grows by the value, nothing else changes |
| `Books.Book.AddBoughtVolume` | storage/book.go:299-304 | the bought volume grows by the value, nothing else changes |
| `Books.Book.CollectPrices` | storage/book.go:196-207 | succeeds exactly when all keys are readable, with every price listed and traced back to its key |
| `Books.PrintedIn` | storage/book.go:122-132 | a price is in the book exactly when its printed form is a key |
| `BookSubscriber.OrderBook.CreateBookOrder` | subscriber/orderbook.go:215-241 | an entry exactly when amount and total are readable |
| `BookSubscriber.OrderBook.PatchBids` | subscriber/orderbook.go:139-162 | succeeds exactly when all entries are readable; last writer wins and keys stay printed prices |
| `BookSubscriber.OrderBook.PatchAsks` | subscriber/orderbook.go:176-202 | the same for the asks |
| `BookSubscriber.OrderBook.Process` | subscriber/orderbook.go:106-129 | one message: both sides, then the spread |
| `Brokers.Broker.Register` | broker/broker.go:36-37 | one more subscriber, all channels untouched |
| `Brokers.Channel.Close` | broker/broker.go:43-44 | needs an open channel |
| `Brokers.Channel.Receive` | broker/broker.go:64-73 | the reader gets the oldest queued message |
| `Arbitrage.CreateAndWaitExecOrder` | strategy/arbitrage.go:510-536 | failed, completed or not completed exactly as the answer and the watch of the order say; stopped before the answer, it watches order 0 |
| `Storages.Storage.DeleteOrders` | storage/storage.go:159-163 | exactly the given orders go, and they are counted |
| `Storages.Storage.RetireSession` | storage/storage.go:154-171 | one done session goes with its orders |
| `Storages.Storage.CleanUpBook` | storage/storage.go:153-172 | the done sessions of one book go with their orders, in any order of visiting |
| `Recovery.Spread.UpdateOrderStateByID` | service/spread/order.go:300-318 | the looked-up order is stored; only an error is a failure |
| `Refresh.OrderService.Await` | service/order.go:70-118 | the wait ends as the events say, and afterwards every order named by an answer heard is stored as the last such answer says, every other one as it was |

## Left out

- SpreadStalls.StallsExactly: the code does not keep "a set request id has its answer outstanding"; the lemma names the one step that breaks it, and the sell side and the buy strategy keep it.
- SpreadTheorems.BudgetHolds: stated with the drift term, because without it the bound is false (SpreadWitnesses.UnseenFillsBreakTheBudget).
- BuyTheorems.BudgetHolds: the same; BuyTheorems.OverspendsExactlyByDrift says by how much, both ways.
- SpreadServices.Wire.CancelOrder: the store gets the order's last version with the answer, and there is no time-out. The code leaves the store to the accounting stream; that its message comes no later than the answer is assumed, as it is for alters, and SpreadBooking.LateCancelBooksShort says what a booking loses otherwise. The wait with its time-out is modelled in Refresh.
- BookSubscriber.OrderBook.Start: price texts with a sign, an exponent, a base prefix or an infinity count as unreadable, while the big-float parser takes them.
- SpreadAtomicity.FineRunsAreAtomic: reading the sums, checking the balance and sending are one step, placed at the sending. For a decider this loses nothing (SpreadAtomicity.ReadingCommutes). A watcher that reprices reads, sends and only then writes; fills that the store hears of between its reading and its sending count as heard of afterwards.
- BuyAtomicity.FineRunsAreAtomic: the same.
- Recovery.RestoredExactly: the restart is looked at up to the first activation; runs that go on from an unsound restart are not followed further.
- The exchange's contract is assumed, not derived: request ids are fresh and never 0, order ids are fresh and never 0, a request is answered at most once, fills stay within the volume, final orders are frozen, an accepted alter ends its target, and a reply is delivered only after the store has heard of the altered target.
- Sending a request and storing its id: in whole activations one step; in the single-setter model a reply is read only once the id is stored. SpreadReplies says exactly when the code could read one earlier (service/spread/order.go:96-109) and what follows at once; runs that go on from there are not followed further.
- In the session protocols a cancel round trip is one step; a time-out, which dereferences a nil error (Refresh.NilErrorExactly), is one of the ways in which the bot fails.
- Profit is booked with the last write of a completing activation. The code reads the sums after that write (service/spread/order.go:253-255, 286-288); SpreadBooking shows that it reads the same sums, except after a clean-up.
- In the single-setter model the clean-up starts only while no session is being marked done.
- Prices count ticks, volumes count quantity units, costs are their products, and quotients are exact: the rounding of 53-bit floats is left out, except for the very short price step.
- Market conditions are choices of the environment in the session protocol: which creation guard is open, whether funds suffice, when a watched order is to be moved or withdrawn. The guards themselves are modelled in Chase and Books, except the one on the best entry's amount.
- Errors of the connection and of unreadable messages end the bot at any moment (the failing step of the protocols).
- Timers and clocks: the ten seconds of order creation, cancel timeouts, the hour after which a new session may start, the creation interval.
- The active session id of the book, Telegram messages, forced checks and logging, which change no session field.
- A zero ask price in the sell-side spread, which the code divides by.
- Message parsing, the websocket client, authentication, balances and pairs subscribers, conversion to USDT, dump files, commands.
- The accounting subscriber: the store hears of an order's newest version at any time or never.
- Arbitrage option 2 only notifies (strategy/arbitrage.go:465-508); fees and partial fills in the arbitrage profit.
- The shutdown clean-up; the one of the buy strategy walks over the spread sessions instead of its own (strategy/buy.go:758-783).
- Sessions of the buy strategy are never collected by the store's clean-up, and so not here either.
- Order books are kept in a set instead of a two-level map by currency, and a session's order map of an id to itself is a set.
- Go's map iteration order is a choice of the loop in every summing, collecting and delivering method.
