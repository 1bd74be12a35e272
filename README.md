# typedb-donuts exchange core, modelled in Dafny

The donut exchange lets outlets trade donuts with each other. The model covers
these parts of its backend:

- **The matching engine: a continuous double auction with one order book per donut type.**
  - An incoming BUY walks the asks in book order, and an incoming SELL walks the bids.
  - Each fill is `min(remaining, resting quantity)` at the resting order's price.
  - Each fill is settled by `executeTrade`. It always writes a trade record. It moves cash and notifies the trade callbacks only when both outlets exist.
  - Both orders then have their quantity and status rewritten.
  - A background sweep re-checks the best bid and best ask of the books `glazed`, `chocolate` and `jelly`.
- **The order store (`OrderRepository`) and the inventory ledger (`InventoryRepository`).** Both are held in memory as maps.
- **`ExchangeService.createOrder`.** It checks the outlet, then the donut type, creates the order, matches it and re-reads it.
- **The purchasing agent's tiered restocking strategies.**
- **The customer simulator's two shopping behaviours.**
  - First-find customers buy from the first outlet that sells.
  - Price hunters buy from the outlet with the lowest retail price.
- **The request checks of the HTTP routes.**

Money in the engine and the agent is in integer cents, and order quantities are whole numbers. Margins and retail prices are `real`.

Each module follows one source file:

| module | file | models |
|---|---|---|
| `Types` | `types.dfy` | `models/types.ts` |
| `Orders` | `order_repository.dfy` | `OrderRepository.ts` |
| `Inventory` | `inventory_repository.dfy` | `InventoryRepository.ts` |
| `Engine` | `matching_engine.dfy` | `MatchingEngine.ts` |
| `Exchange` | `exchange_service.dfy` | `ExchangeService.ts` |
| `Purchasing` | `purchasing_agent.dfy` | `PurchasingAgent.ts` |
| `Customers` | `customer_simulator.dfy` | `CustomerSimulator.ts` |
| `Routes` | `routes.dfy` | `api/routes.ts` |

Three small modules support them:

- `Decimal` (`decimal.dfy`): template-string printing of numbers and `parseInt`.
- `Wrappers` (`wrappers.dfy`): `Option` and `Result`.
- `Seqs` (`seqs.dfy`): one sequence lemma.

The engine is modelled against a specification. Each imperative method of the `MatchingEngine` class (the match loop, `executeTrade`, the sweep) is proved equal to a function on a `Ledger` value. A `Ledger` holds the order store, the outlet balances, the trade records and the callback deliveries. The properties of matching are then proved as lemmas about those functions (`Walk`, `Step`, `Fill`, `Settle`, `SweepFrom`).

The engine does not rely on the repository stubs of this revision. It reads whatever order store and book view it is given. A separate lemma shows what the stubbed empty book gives.

The agent and the simulator follow the same pattern:

- The purchasing agent's loops are proved equal to `Attempts`, `OutletAttempts` and `AllAttempts`.
- The customer simulator's loops are proved equal to `FirstFindItem`, `FirstFindTrail`, `CheapestIndex` and `PriceHunterTrail`.

## Model

| member | source | states |
|---|---|---|
| Types.ParseStatus | backend/src/models/types.ts:5-11 | a stored string read as a status is that status's stored name |
| Types.ParseStatusIff | backend/src/models/types.ts:5-11 | a string denotes a status exactly when it is that status's name, so the five names are distinct and each status reads back |
| Types.ParseSide | backend/src/models/types.ts:13-16 | a string read as a side is that side's name |
| Types.ParseSideIff | backend/src/models/types.ts:13-16 | a string denotes a side exactly when it is "buy" or "sell" for that side |
| Types.BestOfBook | backend/src/models/types.ts:79-80 | in a book sorted bids-descending and asks-ascending, the first bid is the highest bid and the first ask the lowest ask |
| Orders.NewOrder | backend/src/repositories/OrderRepository.ts:31-47 | a created order is ACTIVE, carries the request's side, type, quantity, price and outlet unchanged, the given id, and createdAt == updatedAt |
| Orders.WithStatus | backend/src/repositories/OrderRepository.ts:66-73 | updateStatus changes only the named order's status and update stamp; every other field and order is unchanged, and a missing id changes nothing |
| Orders.WithQuantity | backend/src/repositories/OrderRepository.ts:75-82 | updateQuantity changes only the named order's quantity and update stamp; nothing else changes |
| Orders.BookIn | backend/src/repositories/OrderRepository.ts:56-64 | the book of a type is tagged with that type, and a type with no entry has two empty sides |
| Orders.StubIsEmptyView | backend/src/repositories/OrderRepository.ts:56-64 | this revision's getOrderBook, which returns a book tagged with the type and with both sides empty, is the book of the view that holds no resting orders |
| Orders.OrderRepository.constructor | backend/src/repositories/OrderRepository.ts:12-14 | a new repository stores no orders |
| Orders.OrderRepository.Create | backend/src/repositories/OrderRepository.ts:25-48 | create stores the new ACTIVE order under its id and returns it; no other order changes |
| Orders.OrderRepository.FindById | backend/src/repositories/OrderRepository.ts:50-54 | an order is found exactly when the store holds its id, and it is the stored order |
| Orders.OrderRepository.GetOrderBook | backend/src/repositories/OrderRepository.ts:56-64 | the returned book is tagged with the requested type |
| Orders.OrderRepository.UpdateStatus | backend/src/repositories/OrderRepository.ts:66-73 | the store afterwards is the store with only that order's status and stamp rewritten |
| Orders.OrderRepository.UpdateQuantity | backend/src/repositories/OrderRepository.ts:75-82 | the store afterwards is the store with only that order's quantity and stamp rewritten |
| Inventory.Quantity | backend/src/repositories/InventoryRepository.ts:39-48 | the stock of a pair is its stored quantity, 0 when it has no record |
| Inventory.WithInventory | backend/src/repositories/InventoryRepository.ts:81-110 | setInventory updates the quantity of an existing record and keeps its cost basis; it inserts a missing one only when the outlet exists; other pairs are untouched |
| Inventory.WithInventoryKeepsNonNegative | backend/src/repositories/InventoryRepository.ts:81-110 | setting a non-negative quantity keeps every stored quantity non-negative |
| Inventory.RemovalKeepsNonNegative | backend/src/repositories/InventoryRepository.ts:136-143 | a removal the stock covers never makes a quantity negative |
| Inventory.SetThenGet | backend/src/repositories/InventoryRepository.ts:81-110 | after a set that stores a record, getInventory reads the quantity just set |
| Inventory.RowsToMapMeaning | backend/src/repositories/InventoryRepository.ts:63-74 | a type is in the per-outlet map exactly when some row with a non-empty id and a quantity names it, and it maps to the last such row's quantity |
| Inventory.InventoryRepository.constructor | backend/src/repositories/InventoryRepository.ts:15-17 | a new ledger holds no records |
| Inventory.InventoryRepository.GetInventory | backend/src/repositories/InventoryRepository.ts:28-49 | the stock is the stored quantity, or 0 without a record |
| Inventory.InventoryRepository.SetInventory | backend/src/repositories/InventoryRepository.ts:81-110 | the records afterwards are the records after the set |
| Inventory.InventoryRepository.AddInventory | backend/src/repositories/InventoryRepository.ts:131-134 | the stock becomes the previous stock plus the added quantity, whenever a record or the outlet exists |
| Inventory.InventoryRepository.RemoveInventory | backend/src/repositories/InventoryRepository.ts:136-143 | it succeeds exactly when the stock covers the quantity; on failure nothing changes; on success the stock becomes the difference |
| Inventory.InventoryRepository.GetAllInventoryForOutlet | backend/src/repositories/InventoryRepository.ts:51-79 | the map holds each usable row's type and quantity; a failed query gives an empty map |
| Inventory.InventoryRepository.GetAllInventory | backend/src/repositories/InventoryRepository.ts:145-176 | one entry per answer row in row order, a missing quantity or cost basis reading as 0; a failed query gives no entries |
| Engine.SettleBalances | backend/src/engine/MatchingEngine.ts:214-217 | the buyer pays the total and the seller receives it; no other balance moves; a self-trade leaves the balance unchanged |
| Engine.AsWrittenAgreesBetweenDistinctOutlets | backend/src/engine/MatchingEngine.ts:214-217 | between two different outlets the source's balance writes equal the intended settlement |
| Engine.SelfTradeAsWrittenCreditsOutlet | backend/src/engine/MatchingEngine.ts:214-217 | a self-trade of 2 units at 100 cents settled as written leaves the outlet 200 cents richer; settled as intended, unchanged |
| Engine.SettleBalancesAsWritten | backend/src/engine/MatchingEngine.ts:204-217 | the source's balance writes: both balances are read first, the buyer's is written as its read less the total, then the seller's as its read plus the total |
| Engine.SettleAsWrittenBetweenDistinctOutlets | backend/src/engine/MatchingEngine.ts:204-217 | when buyer and seller are different known outlets, the engine's settlement moves the balances exactly as the source's stale-read writes do |
| Engine.Settle | backend/src/engine/MatchingEngine.ts:185-239 | a settlement appends exactly one trade record and never changes the order store or which outlets exist |
| Engine.SettleEffect | backend/src/engine/MatchingEngine.ts:185-239 | the new record carries quantity, price, total = quantity × price, both order ids and both outlets; only the two outlets' balances move, and only when both exist; the trade callbacks are called only then; there is no solvency check |
| Engine.TakerUpdate | backend/src/engine/MatchingEngine.ts:96-102 | after a fill the taker is FILLED exactly when nothing is left, otherwise PARTIALLY_FILLED with the remainder as its quantity; no other order changes |
| Engine.MakerUpdate | backend/src/engine/MatchingEngine.ts:105-111 | the maker is FILLED exactly when the fill took its whole quantity, otherwise PARTIALLY_FILLED with its quantity less the fill; no other order changes |
| Engine.Fill | backend/src/engine/MatchingEngine.ts:85-111 | a fill never adds or removes an order or an outlet |
| Engine.Step | backend/src/engine/MatchingEngine.ts:79-111 | one loop iteration never adds or removes an order or an outlet |
| Engine.StepSkipsUnmatchable | backend/src/engine/MatchingEngine.ts:79-82 | a resting entry absent from the store or not ACTIVE/PARTIALLY_FILLED yields no trade and no change |
| Engine.StepFill | backend/src/engine/MatchingEngine.ts:85-111 | the fill is min(remaining, maker quantity) at the maker's price with the taker on its own side of the record; taker and maker each lose exactly the fill, with FILLED exactly when nothing of them is left |
| Engine.Walk | backend/src/engine/MatchingEngine.ts:67-112 | the match loop over the opposite side: it stops at the end of the book, when nothing is left, or at the first entry that does not cross, and otherwise takes one Step and goes on with the rest |
| Engine.Process | backend/src/engine/MatchingEngine.ts:52-60 | processOrder walks the opposite side of the order's own book, starting from the order's quantity |
| Engine.FillConserves | backend/src/engine/MatchingEngine.ts:85-93 | a fill appends one trade whose quantity is exactly what remaining drops by, remaining stays non-negative and strictly decreases, and the store stays valid |
| Engine.StepConserves | backend/src/engine/MatchingEngine.ts:79-111 | an iteration either changes nothing or makes one trade of exactly the quantity by which remaining drops |
| Engine.WalkConserves | backend/src/engine/MatchingEngine.ts:67-112 | the match loop ends with 0 <= remaining <= the taker's quantity and the quantities of its trades add up to exactly what it filled, so it never fills more than the taker asked for |
| Engine.TakerUpdateKeepsStoreValid | backend/src/engine/MatchingEngine.ts:96-102 | rewriting the taker keeps every stored order under its id and every matchable order with a positive quantity |
| Engine.MakerUpdateKeepsStoreValid | backend/src/engine/MatchingEngine.ts:105-111 | rewriting the maker keeps the store valid in the same sense |
| Engine.SettleGrows | backend/src/engine/MatchingEngine.ts:185-239 | settling only appends trade records and trade deliveries and keeps every order and outlet |
| Engine.FillGrows | backend/src/engine/MatchingEngine.ts:85-111 | a fill only appends, and no order changes id, side, type, price, outlet or creation time |
| Engine.StepGrows | backend/src/engine/MatchingEngine.ts:79-111 | one iteration only appends and keeps every order's identity |
| Engine.WalkGrows | backend/src/engine/MatchingEngine.ts:70-112 | the whole loop only appends and keeps every order's identity and every outlet |
| Engine.StepTrade | backend/src/engine/MatchingEngine.ts:85-91 | a trade an iteration makes is at the stored maker's price, with the taker as buyer on the buy side and as seller on the sell side |
| Engine.WalkPriceBound | backend/src/engine/MatchingEngine.ts:70-76 | when the book agrees with the store on prices, a buyer never trades above its limit and a seller never below it, and the taker is on its own side of every record |
| Engine.WalkStopsAtNonCrossing | backend/src/engine/MatchingEngine.ts:74-76 | the loop never looks past the first entry that does not cross |
| Engine.EarlyExitIsSound | backend/src/engine/MatchingEngine.ts:74-76 | in a book kept best first, no entry after one that does not cross crosses either, so the early stop loses no match |
| Engine.WalkBalancesFrame | backend/src/engine/MatchingEngine.ts:214-217 | only the taker's outlet and the outlets of the resting orders it meets can see their balance change |
| Engine.ProcessAgainstStubBook | backend/src/engine/MatchingEngine.ts:52-60 | over a book view that answers every type as this revision's stubbed getOrderBook does, processing an order changes nothing |
| Engine.SweepBook | backend/src/engine/MatchingEngine.ts:295-308 | the sweep of one type: when its book triggers, the stored order of the best bid is matched as a buy against its type's asks; otherwise nothing changes |
| Engine.SweepFrom | backend/src/engine/MatchingEngine.ts:291-316 | the sweep over the types in order from the i-th; a fault ends it with one report to the error callbacks, and the sweep itself returns normally |
| Engine.SweepBookIdle | backend/src/engine/MatchingEngine.ts:298-308 | a type is swept only when both sides are non-empty, the best bid is at least the best ask and the best bid's order is matchable; otherwise nothing changes |
| Engine.SweepBookGrows | backend/src/engine/MatchingEngine.ts:298-308 | sweeping one type only appends trades and trade deliveries |
| Engine.SweepReportsFaultOnce | backend/src/engine/MatchingEngine.ts:312-316 | a faulting sweep ends with exactly one report to each error callback, in order, tagged MatchingEngine.sweep, after trade deliveries only; without a fault it emits no error |
| Engine.MatchingEngine.constructor | backend/src/engine/MatchingEngine.ts:18-29 | a new engine has no callbacks, no trades, no deliveries and no flag set |
| Engine.MatchingEngine.OnTradeExecuted | backend/src/engine/MatchingEngine.ts:31-33 | the callback is added after those already registered |
| Engine.MatchingEngine.OnError | backend/src/engine/MatchingEngine.ts:35-37 | the error callback is added after those already registered |
| Engine.MatchingEngine.EmitError | backend/src/engine/MatchingEngine.ts:39-47 | every error callback is called once in registration order, a throwing one not stopping the rest |
| Engine.MatchingEngine.EmitTrade | backend/src/engine/MatchingEngine.ts:230-236 | every trade callback receives the trade event once, in registration order, a throwing one not stopping the rest |
| Engine.MatchingEngine.ExecuteTrade | backend/src/engine/MatchingEngine.ts:179-240 | the engine's state afterwards is the settled ledger |
| Engine.MatchingEngine.RewriteTaker | backend/src/engine/MatchingEngine.ts:96-102 | the store afterwards is the taker-rewritten store |
| Engine.MatchingEngine.RewriteMaker | backend/src/engine/MatchingEngine.ts:105-111 | the store afterwards is the maker-rewritten store |
| Engine.MatchingEngine.MatchEntry | backend/src/engine/MatchingEngine.ts:79-111 | one iteration of the loop leaves the state and the remainder of one Step |
| Engine.MatchingEngine.MatchAgainst | backend/src/engine/MatchingEngine.ts:67-112 | the loop leaves the state and the remainder of the Walk over the entries |
| Engine.MatchingEngine.MatchBuyOrder | backend/src/engine/MatchingEngine.ts:65-117 | a buy walks the asks of its type's book from its own quantity |
| Engine.MatchingEngine.MatchSellOrder | backend/src/engine/MatchingEngine.ts:122-174 | a sell walks the bids of its type's book from its own quantity |
| Engine.MatchingEngine.ProcessOrder | backend/src/engine/MatchingEngine.ts:52-60 | the order is matched by its side |
| Engine.MatchingEngine.SweepForMatches | backend/src/engine/MatchingEngine.ts:289-317 | one sweep over glazed, chocolate and jelly in order, a fault being reported and the sweep returning normally |
| Engine.MatchingEngine.ScheduleSweep | backend/src/engine/MatchingEngine.ts:258-275 | a timer is armed unless a stop was requested |
| Engine.MatchingEngine.Start | backend/src/engine/MatchingEngine.ts:250-256 | start clears the stop request and arms the sweep timer |
| Engine.MatchingEngine.Stop | backend/src/engine/MatchingEngine.ts:277-284 | after stop no timer is armed and none is armed again |
| Engine.MatchingEngine.Tick | backend/src/engine/MatchingEngine.ts:261-274 | a tick that finds a sweep running or a stop requested changes nothing; otherwise it sweeps once; it re-arms the timer exactly when no stop was requested |
| Exchange.Placed | backend/src/services/ExchangeService.ts:49 | creating the order stores it under its id, adds no other key, and changes no other order, balance, trade or delivery |
| Exchange.ProcessKeepsOrderIdentity | backend/src/services/ExchangeService.ts:52-55 | matching never removes the new order nor changes its id, side, type, price or outlet |
| Exchange.ExchangeService.constructor | backend/src/services/ExchangeService.ts:15-21 | the service and its engine share one order store |
| Exchange.ExchangeService.CreateOrder | backend/src/services/ExchangeService.ts:35-56 | an unknown outlet fails first and an unknown type next, both changing nothing; otherwise the ACTIVE order is stored, processed exactly once and returned as the store holds it afterwards |
| Exchange.ExchangeService.GetOrderBook | backend/src/services/ExchangeService.ts:62-64 | the repository's book of the type |
| Exchange.ExchangeService.Start | backend/src/services/ExchangeService.ts:23-25 | delegates to the engine's start |
| Exchange.ExchangeService.Stop | backend/src/services/ExchangeService.ts:27-29 | delegates to the engine's stop |
| Purchasing.Round | backend/src/services/PurchasingAgent.ts:80 | Math.round gives the nearest integer, halves rounding up |
| Purchasing.BaseStock | backend/src/services/PurchasingAgent.ts:77-80 | the base stock of a margin: Math.round(30 − margin / 5), from the margin factor 1 − margin / 100 |
| Purchasing.CreateDefaultStrategy | backend/src/services/PurchasingAgent.ts:73-95 | four tiers at 1.60, 2.00, 2.40 and 3.00 with targets base+20, base+10, base and max(5, base−10) |
| Purchasing.DefaultStrategyIsLadder | backend/src/services/PurchasingAgent.ts:77-93 | for a margin in [0, 100] the base lies in [10, 30], prices strictly rise and targets strictly fall from tier to tier |
| Purchasing.BaseStockFallsWithMargin | backend/src/services/PurchasingAgent.ts:77-80 | a higher margin never asks for more base stock |
| Purchasing.BaseStockValues | backend/src/services/PurchasingAgent.ts:80 | the base is 30 at 0%, 20 at 50% and 10 at 100% |
| Purchasing.Affordable | backend/src/services/PurchasingAgent.ts:187-189 | the affordable supply is no longer than the asks |
| Purchasing.AffordableMeaning | backend/src/services/PurchasingAgent.ts:187-189 | the affordable supply holds exactly the asks at or below the tier's maximum price |
| Purchasing.FirstAffordableIsCheapest | backend/src/services/PurchasingAgent.ts:200 | in asks kept best first, the first affordable ask is the best ask |
| Purchasing.FloorDivIsFloor | backend/src/services/PurchasingAgent.ts:201 | the quotient is Math.floor of the exact quotient for either sign of the divisor |
| Purchasing.MaxAffordable | backend/src/services/PurchasingAgent.ts:200-201 | Math.floor(balance / best price), +Infinity for a positive balance over a zero price |
| Purchasing.BuyQuantity | backend/src/services/PurchasingAgent.ts:209-210 | Math.min of the need, the available quantity and the affordable quantity, an infinite cap dropping out |
| Purchasing.TierOrder | backend/src/services/PurchasingAgent.ts:177-222 | a tier's order is a BUY of the strategy's type for the outlet at the tier's maximum price for a positive quantity |
| Purchasing.TierOrderWhen | backend/src/services/PurchasingAgent.ts:178-212 | a tier orders exactly when stock is below target, some ask is affordable, the balance pays for a unit at the best affordable price and the quantity is positive |
| Purchasing.TierOrderBounds | backend/src/services/PurchasingAgent.ts:197-212 | the quantity never exceeds the need or the affordable supply, and at a positive best price never costs more than the balance |
| Purchasing.TierOrderQuantity | backend/src/services/PurchasingAgent.ts:197-210 | the order's quantity is min(need, affordable total, floor(balance / best affordable price)), and min(need, affordable total) when that price is 0 and the balance positive (no cap: +Infinity) |
| Purchasing.Attempts | backend/src/services/PurchasingAgent.ts:177-231 | the orders one strategy tries from a tier on: a tier with no order is skipped, a placed order ends the scan, a failed one moves on |
| Purchasing.OutletAttempts | backend/src/services/PurchasingAgent.ts:161-168 | the orders an outlet's configuration tries: none for a missing or closed outlet, otherwise each strategy's in order, against its type's asks and the outlet's stock |
| Purchasing.AllAttempts | backend/src/services/PurchasingAgent.ts:146-156 | the orders one cycle tries: every enabled configuration's, in insertion order, each over one outlet read (under one snapshot of outlets for the cycle) |
| Purchasing.AttemptsMeaning | backend/src/services/PurchasingAgent.ts:177-231 | at most one order per tier is tried, each from one of the tiers, and every order but the last failed, so at most one is placed per strategy |
| Purchasing.AttemptsAreBuys | backend/src/services/PurchasingAgent.ts:216-222 | every tried order is a BUY of the strategy's type for the outlet |
| Purchasing.WellStockedStrategyIsIdle | backend/src/services/PurchasingAgent.ts:178-181 | a stock at or above every tier's target places nothing |
| Purchasing.ClosedOutletIsIdle | backend/src/services/PurchasingAgent.ts:162-163 | a missing or closed outlet tries no order |
| Purchasing.AllAttemptsComeFromEnabledOpenOutlets | backend/src/services/PurchasingAgent.ts:146-156 | a cycle tries orders only for enabled configurations of open outlets |
| Purchasing.OutletAttemptsBelongToOutlet | backend/src/services/PurchasingAgent.ts:161-168 | every order a configuration tries is a BUY for that outlet |
| Purchasing.DefaultConfig | backend/src/services/PurchasingAgent.ts:60-66 | an enabled configuration with one default strategy per donut type, in order |
| Purchasing.InitializedConfigs | backend/src/services/PurchasingAgent.ts:53-67 | the configurations after initialization: every listed outlet but supplier-factory gets its default configuration, a later entry for the same id winning |
| Purchasing.InitializedOrder | backend/src/services/PurchasingAgent.ts:34-37 | the iteration order after initialization: an outlet configured for the first time joins the end, one already configured keeps its place |
| Purchasing.InitializationSkipsFactory | backend/src/services/PurchasingAgent.ts:53-67 | supplier-factory's configuration is never touched and every other listed outlet ends up configured and enabled |
| Purchasing.InitializedKeepsKeys | backend/src/services/PurchasingAgent.ts:53-67 | initialization never removes a configuration |
| Purchasing.InitializedKeepsEnabled | backend/src/services/PurchasingAgent.ts:53-67 | an enabled configuration stays enabled through initialization |
| Purchasing.PurchasingAgent.constructor | backend/src/services/PurchasingAgent.ts:27-29 | a new agent has no configurations and no flag set |
| Purchasing.PurchasingAgent.SetConfig | backend/src/services/PurchasingAgent.ts:34-37 | the configuration overwrites the one with its outlet id; a new id joins the iteration order at its end |
| Purchasing.PurchasingAgent.GetConfig | backend/src/services/PurchasingAgent.ts:42-44 | the stored configuration of the outlet, if any |
| Purchasing.PurchasingAgent.InitializeDefaultStrategies | backend/src/services/PurchasingAgent.ts:49-68 | the configurations afterwards are the defaults installed over the listed outlets, and the iteration order grows by each newly configured outlet in list order |
| Purchasing.PurchasingAgent.ExecuteStrategy | backend/src/services/PurchasingAgent.ts:173-232 | the tier loop tries exactly the orders of Attempts and places one exactly when the last attempt succeeded |
| Purchasing.PurchasingAgent.ExecuteAllStrategies | backend/src/services/PurchasingAgent.ts:146-156 | the orders tried are exactly AllAttempts: those of every enabled configuration in insertion order, over one snapshot of outlets for the cycle |
| Purchasing.PurchasingAgent.ExecuteOutletStrategies | backend/src/services/PurchasingAgent.ts:161-168 | the orders tried are those of the outlet's strategies in order, none for a missing or closed outlet |
| Purchasing.PurchasingAgent.Start | backend/src/services/PurchasingAgent.ts:97-112 | a running agent ignores start: it stays running and its configurations, iteration order, stop request and timer are unchanged; otherwise it runs, defaults are installed and the first check is armed |
| Purchasing.PurchasingAgent.ScheduleExecution | backend/src/services/PurchasingAgent.ts:114-131 | a timer is armed unless a stop was requested |
| Purchasing.PurchasingAgent.Stop | backend/src/services/PurchasingAgent.ts:133-141 | after stop no check is armed and the agent is not running |
| Purchasing.PurchasingAgent.Tick | backend/src/services/PurchasingAgent.ts:117-130 | a tick during a cycle or after a stop tries nothing; otherwise it runs one cycle; it re-arms exactly when no stop was requested |
| Customers.CalculatePrice | backend/src/services/CustomerSimulator.ts:152-154 | the retail price is 2.00 at zero margin and at least 2.00 exactly for a non-negative margin |
| Customers.CheaperIffLowerMargin | backend/src/services/CustomerSimulator.ts:229-233 | one outlet is cheaper than another exactly when its margin is lower |
| Customers.OneToThree | backend/src/services/CustomerSimulator.ts:135 | a draw in [0, 1) gives 1, 2 or 3 |
| Customers.ShoppingList | backend/src/services/CustomerSimulator.ts:137-141 | the ids of the first numItems donut types of the shuffled order |
| Customers.ShoppingListMeaning | backend/src/services/CustomerSimulator.ts:134-141 | the list has min(numItems, #types) entries, each a known type id, with no duplicates when the ids are distinct |
| Customers.CustomerId | backend/src/services/CustomerSimulator.ts:144 | the id customer-<counter>, the counter printed in decimal |
| Customers.CustomerIdsDistinct | backend/src/services/CustomerSimulator.ts:144 | different counter values name different customers |
| Customers.OpenOutlets | backend/src/services/CustomerSimulator.ts:96 | the filtered outlets are all open |
| Customers.OpenOutletsMeaning | backend/src/services/CustomerSimulator.ts:96-99 | an outlet is kept exactly when it is open, and none is kept exactly when no outlet is open |
| Customers.OpenOutletsIdempotent | backend/src/services/CustomerSimulator.ts:212 | filtering already-open outlets again changes nothing |
| Customers.FirstFindItem | backend/src/services/CustomerSimulator.ts:165-201 | every position a first-find customer visits is one of the outlets |
| Customers.FirstFindStopsAtFirstSale | backend/src/services/CustomerSimulator.ts:165-201 | every visit but the last was refused, and a sale was made exactly when the last visit sold |
| Customers.FirstFindSkipsNoOpenOutlet | backend/src/services/CustomerSimulator.ts:165-168 | no open outlet before the one that sold is passed by without a visit |
| Customers.FirstFindVisitsInOrder | backend/src/services/CustomerSimulator.ts:165-168 | only open outlets are visited, in the shuffled order, each once |
| Customers.FirstFindTrail | backend/src/services/CustomerSimulator.ts:161-202 | a first-find customer's visits and purchases: for each list item in order, the outlets FirstFindItem visits and its sale, if any |
| Customers.CheapestIndex | backend/src/services/CustomerSimulator.ts:216-234 | there is a choice exactly when some open outlet exists |
| Customers.CheapestIsEarliestMinimum | backend/src/services/CustomerSimulator.ts:229-233 | the chosen outlet has the lowest price, and every earlier outlet is strictly dearer |
| Customers.PriceHunterSale | backend/src/services/CustomerSimulator.ts:229-258 | a price hunter's sale for one item: the one the exchange makes at CheapestIndex, none when no outlet is open |
| Customers.PriceHunterTrail | backend/src/services/CustomerSimulator.ts:214-259 | a price hunter's visits and purchases: for each list item, every open outlet, then at most the sale at the cheapest |
| Customers.FirstFindPurchasesAreSales | backend/src/services/CustomerSimulator.ts:186 | purchases grow only by sales the exchange made, at most one per item |
| Customers.PriceHunterPurchasesAreSales | backend/src/services/CustomerSimulator.ts:246 | purchases grow only by sales the exchange made at the cheapest open outlet (CheapestIndex), at most one per item |
| Customers.SimulatedCustomer.constructor | backend/src/services/CustomerSimulator.ts:143-149 | a new customer has the given id, type and list and no visits or purchases |
| Customers.CustomerSimulator.constructor | backend/src/services/CustomerSimulator.ts:28-40 | a new simulator is stopped with counter 0 |
| Customers.CustomerSimulator.Start | backend/src/services/CustomerSimulator.ts:56-77 | the simulator is running afterwards |
| Customers.CustomerSimulator.Stop | backend/src/services/CustomerSimulator.ts:79-86 | the simulator is stopped afterwards |
| Customers.CustomerSimulator.GetStats | backend/src/services/CustomerSimulator.ts:262-267 | the report says whether the simulator runs and gives the counter that CreateCustomer advances by one per customer, so the number of customers spawned |
| Customers.CustomerSimulator.CreateCustomer | backend/src/services/CustomerSimulator.ts:128-150 | the counter grows by exactly one and names the new customer customer-<counter>; the type and the list follow the draws |
| Customers.CustomerSimulator.ShopFirstFind | backend/src/services/CustomerSimulator.ts:165-202 | visits and purchases grow by exactly the walk of FirstFindItem |
| Customers.CustomerSimulator.VisitOutlet | backend/src/services/CustomerSimulator.ts:168-201 | the outlet is recorded, and the sale is recorded exactly when it is made |
| Customers.CustomerSimulator.ProcessFirstFindCustomer | backend/src/services/CustomerSimulator.ts:156-208 | visits and purchases grow by exactly the first-find trail over the shuffled outlets |
| Customers.CustomerSimulator.ShopPriceHunter | backend/src/services/CustomerSimulator.ts:214-259 | every open outlet is recorded, then at most the sale at the cheapest is |
| Customers.CustomerSimulator.ProcessPriceHunterCustomer | backend/src/services/CustomerSimulator.ts:210-260 | visits and purchases grow by exactly the price-hunter trail over the open outlets |
| Customers.CustomerSimulator.SpawnCustomer | backend/src/services/CustomerSimulator.ts:88-126 | with no open outlet or no donut type nothing happens; otherwise one new customer is created and shops by its type among the open outlets |
| Decimal.DecimalString | backend/src/services/CustomerSimulator.ts:144 | a number prints as a non-empty string of digits, one digit exactly below 10 |
| Decimal.DigitsValueOfDecimalString | backend/src/services/CustomerSimulator.ts:144 | reading the printed digits back gives the number |
| Decimal.DecimalStringInjective | backend/src/services/CustomerSimulator.ts:144 | different numbers print differently |
| Decimal.LeadingDigits | backend/src/api/routes.ts:310 | the longest all-digit prefix, followed by a non-digit or the end |
| Decimal.IsSpace | backend/src/api/routes.ts:310 | the ECMAScript white space and line terminators that parseInt and Number skip |
| Decimal.ParseInt | backend/src/api/routes.ts:310 | parseInt with no radix: skip white space, take a sign, read base sixteen after 0x or 0X and base ten otherwise, NaN without a digit |
| Decimal.ParseIntExamples | backend/src/api/routes.ts:310 | parseInt reads 0x10 as 16 and a limit after a vertical tab as its digits, and 0x alone as NaN |
| Decimal.ParseIntOfDecimalString | backend/src/api/routes.ts:310 | parseInt reads a printed number back as that number |
| Routes.Trim | backend/src/api/routes.ts:251 | trimming never lengthens a string and leaves no ECMAScript white space at either end |
| Routes.Truthy | backend/src/api/routes.ts:245 | JavaScript truthiness: undefined, null, false, 0 and the empty string are falsy |
| Routes.AtMostZero | backend/src/api/routes.ts:251 | `v <= 0` in JavaScript: the converted number is at most 0, false when it converts to NaN |
| Routes.CheckOrderRequestAsWritten | backend/src/api/routes.ts:245-259 | the three checks as the source writes them, in their order, an absent amount passing the second |
| Routes.StringToNumber | backend/src/api/routes.ts:251 | a blank string converts to 0 |
| Routes.ToNumber | backend/src/api/routes.ts:251 | a number compares as itself and an absent field as NaN |
| Routes.MissingAmountsPassAsWritten | backend/src/api/routes.ts:251-254 | a request with no quantity and no price passes the checks as written |
| Routes.ValidateOrderRequest | backend/src/api/routes.ts:246-261 | an accepted request has a positive quantity and price and a side named "buy" or "sell" |
| Routes.ValidateOrderRequestIff | backend/src/api/routes.ts:246-261 | a request is accepted exactly when the three fields are truthy, both amounts are positive numbers and the side is known; missing fields are reported first, bad amounts next |
| Routes.CorrectedIsStricter | backend/src/api/routes.ts:251-254 | the corrected checks accept only what the checks as written accept, and agree on missing fields and on amounts refused as written |
| Routes.AsWrittenAgreesOnNumbers | backend/src/api/routes.ts:251-254 | when both amounts are numbers the two versions give the same verdict |
| Routes.MissingAmountsRefusedCorrected | backend/src/api/routes.ts:251-254 | the corrected checks refuse the request with no quantity or price |
| Routes.CheckMargin | backend/src/api/routes.ts:98-101 | a margin is accepted exactly when it is a number in [0, 100] |
| Routes.AcceptedMarginBounds | backend/src/api/routes.ts:98-101 | an accepted margin prices donuts between 2.00 and 4.00 and gives a base stock in [10, 30] |
| Routes.CheckToggle | backend/src/api/routes.ts:166-169 | a toggle is accepted exactly when isOpen is a boolean |
| Routes.TransactionLimit | backend/src/api/routes.ts:310 | an absent or empty limit is 100 |
| Routes.TransactionLimitOfDecimal | backend/src/api/routes.ts:321 | a limit written in decimal is read back as that number |

## Left out

- TypeDB I/O is not modelled: the query strings, the transaction helper, and failed queries. The repositories are in-memory maps. A failed read appears only where it is a parameter (`GetAllInventoryForOutlet`, `GetAllInventory`).
- Timers and concurrency are not modelled. A timer is a `pending` flag and a firing is a `Tick` call. Interleavings of async calls are not modelled.
- Engine.MatchingEngine.Start: the source's `start()` is not guarded. A second start arms a second timer and overwrites the stored timeout id, so `stop` clears only the last one. The flag cannot show the orphan timer. That timer fires once, finds the stop request set, and does nothing, so no sweep is lost or added.
- Console logging and the message texts formatted with `toFixed` are not modelled.
- The code of callbacks is foreign. A callback is only an id. Every callback is called, since a throw is caught and changes nothing the engine sees.
- The customer simulator's event callbacks (`onCustomerEvent`, `emitEvent`) are not modelled. They carry messages only and change no simulator state.
- `getOutletInventory` and `sellToCustomer` are not defined in `ExchangeService.ts`. They appear as parameters:
  - the stock function, and `accepts` (whether `createOrder` succeeds) in the agent;
  - a sale outcome keyed by (item, outlet position, request) in the simulator.
- Random draws are parameters in the customer simulator: the customer type, the item count, the two shuffles and the quantities. The per-second spawn count and delays are left out.
- The outlet and donut-type repositories are not modelled; outlets are a balance map and a set of known types. The transaction repository is not modelled either, and trade ids are positions in the trade sequence. `DonutSupplier` and the other context files are not part of this model.
- The remaining `ExchangeService` and route handlers are not modelled: transactions, outlets, donut types, and everything beyond the request checks. They are repository delegations and HTTP responses.
- `PurchasingAgent.getStats` is not modelled. It is a read-only report of two fields.
- `Order`, `Outlet` and the purchasing types are taken from how the core uses them:
  - The shown `types.ts` declares `Outlet` without `marginPercent` and `isOpen`.
  - It does not declare `CustomerSale` or the purchasing configuration types.
- Engine.MatchingEngine.SweepForMatches: a fault is modelled only at the start of a type's book read. A throw in the middle of a match, after some writes, is not modelled.
- Engine.MatchingEngine.MatchBuyOrder: the book view is a fixed map that matching does not rewrite. A repository that re-sorts or drops filled entries between reads is not modelled.
- Exchange.ExchangeService.CreateOrder: the order id and the clock are inputs in place of the generated id and `new Date()`. This revision's `findById` is a stub that finds nothing, so the source always returns the order as created. The model re-reads the in-memory store instead (Orders.OrderRepository.FindById).
- Purchasing.TierOrder: the source's prices are dollars ($1.60 …) and are modelled as cents (160 …). A zero balance over a zero best price is `NaN` in the source: it passes both `<= 0` checks and places an order for `NaN` units. The model skips that tier instead.
- Purchasing.BaseStockValues: the source's comment gives 10 for a 50% margin. The code computes 20, and the model follows the code.
- Routes.StringToNumber: only blank strings and optionally signed digit strings convert. Decimals, exponents, hex and `Infinity` are `NaN` here.
- Routes.ToNumber: a JSON array is treated as an object (`NaN`), although JavaScript converts `[]` to 0.
- Engine.Settle: a self-trade leaves the balance unchanged, as intended, where the source credits the outlet with the total. This is the corrected settlement of the first Findings row. Between two different outlets it equals the source's (Engine.SettleAsWrittenBetweenDistinctOutlets).
- Engine.SettleEffect: its self-trade clause states the corrected settlement, not the source's; see Engine.Settle.
- Engine.MatchingEngine.ExecuteTrade: it writes the corrected settlement, so a self-trade leaves the balance unchanged. The source's stale reads would add the total. Engine.SettleBalancesAsWritten models those writes.
- Purchasing.AllAttempts: one snapshot of the outlets (and of the stock and `accepts` parameters) serves the whole cycle. The source re-reads each outlet with `getOutlet` (PurchasingAgent.ts:162) after the earlier configurations' orders may already have matched and moved balances, so a later outlet's `maxAffordable` can see a balance the model does not. The agent's orders are not run through the engine here.
- Purchasing.PurchasingAgent.ExecuteAllStrategies: it is proved equal to Purchasing.AllAttempts and shares its single snapshot of outlets for the cycle.
- Quantities are whole numbers (`int`) in orders, requests, book entries and trades. The source's quantities are JavaScript numbers, and only the HTTP route can supply a fractional one (`Routes.OrderFields.quantity` is `real`). Fractional quantities are not modelled, nor the float rounding of the subtraction at MatchingEngine.ts:93 and the `remainingQuantity === 0` test at :96 (a 0.3 buy against asks of 0.1 and 0.2 leaves a tiny remainder).
- Engine.TakerUpdate: the source does not rewrite a FILLED order's stored quantity, so the model keeps it. `Outstanding` treats that quantity as zero.

## Findings

| source | as written | input that shows it | evidently intended | confidence | as-written member | corrected member |
|---|---|---|---|---|---|---|
| backend/src/engine/MatchingEngine.ts:214-217 | both balances are read before either write, so the seller's write overwrites the buyer's debit when buyer and seller are the same outlet | a self-trade of 2 units at 100 cents by an outlet holding 1000 ends at 1200 | a self-trade leaves the balance unchanged (buyer pays, seller receives) | not executed | Engine.SettleBalancesAsWritten, Engine.SelfTradeAsWrittenCreditsOutlet | Engine.SettleBalances, Engine.AsWrittenAgreesBetweenDistinctOutlets |
| backend/src/api/routes.ts:251-254 | `quantity <= 0 \|\| pricePerUnit <= 0` is false for an absent field (`undefined <= 0`), so a request without quantity or price reaches `createOrder` | `{side: "buy", donutTypeId: "glazed", outletId: "outlet-1"}` | "Quantity and price must be positive" for a missing or non-numeric amount | not executed | Routes.CheckOrderRequestAsWritten, Routes.MissingAmountsPassAsWritten | Routes.ValidateOrderRequest, Routes.MissingAmountsRefusedCorrected |
