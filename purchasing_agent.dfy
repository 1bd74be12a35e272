/** The purchasing agent: for every enabled outlet configuration it runs
    the outlet's restocking strategies, each a list of price tiers, and
    places at most one buy order per strategy per cycle. Prices and
    balances are in cents. */
module Purchasing {
  import opened Wrappers
  import opened Types
  import Seqs
  import Orders

  /** One price tier: buy up to `targetStock` when asks at or below
      `maxPrice` exist. */
  datatype Threshold = Threshold(maxPrice: int, targetStock: int)

  /** The tiers of one donut type, tried in order. */
  datatype Strategy = Strategy(donutTypeId: string, thresholds: seq<Threshold>)

  datatype OutletConfig = OutletConfig(outletId: string, strategies: seq<Strategy>, enabled: bool)

  /** The outlet the default configuration leaves out. */
  const SupplierFactoryId: string := "supplier-factory"

  // ---------------------------------------------------------------------
  // Default strategy
  // ---------------------------------------------------------------------

  /** `Math.round`: the nearest integer, halves rounding up. */
  function Round(x: real): (n: int)
    ensures n as real - 0.5 <= x < n as real + 0.5
  {
    (x + 0.5).Floor
  }

  /** The base stock level for a margin: 30 at 0% falling to 10 at 100%. */
  function BaseStock(marginPercent: real): int {
    Round(30.0 - marginPercent / 100.0 * 20.0)
  }

  function Max(a: int, b: int): int {
    if a >= b then a else b
  }

  /** `createDefaultStrategy`: four tiers at 1.60, 2.00, 2.40 and 3.00 with
      targets base+20, base+10, base and max(5, base-10). */
  function CreateDefaultStrategy(donutTypeId: string, outlet: Outlet): (s: Strategy)
    ensures s.donutTypeId == donutTypeId && |s.thresholds| == 4
    ensures var base := BaseStock(outlet.marginPercent);
            && s.thresholds[0] == Threshold(160, base + 20)
            && s.thresholds[1] == Threshold(200, base + 10)
            && s.thresholds[2] == Threshold(240, base)
            && s.thresholds[3] == Threshold(300, Max(5, base - 10))
  {
    var base := BaseStock(outlet.marginPercent);
    Strategy(donutTypeId, [Threshold(160, base + 20), Threshold(200, base + 10),
                           Threshold(240, base), Threshold(300, Max(5, base - 10))])
  }

  /** For a margin between 0% and 100% the base stock lies in [10, 30]; the
      default tiers are tried from the cheapest to the dearest, and the
      dearer a tier, the lower the stock it buys up to. */
  lemma DefaultStrategyIsLadder(donutTypeId: string, outlet: Outlet)
    requires 0.0 <= outlet.marginPercent <= 100.0
    ensures 10 <= BaseStock(outlet.marginPercent) <= 30
    ensures var ts := CreateDefaultStrategy(donutTypeId, outlet).thresholds;
            forall i, j :: 0 <= i < j < |ts| ==>
              ts[i].maxPrice < ts[j].maxPrice && ts[i].targetStock > ts[j].targetStock
  {
  }

  /** A higher margin never asks for more base stock. */
  lemma BaseStockFallsWithMargin(m1: real, m2: real)
    requires m1 <= m2
    ensures BaseStock(m2) <= BaseStock(m1)
  {
  }

  /** The base stock at the end points and at 50%: 30, 10 and 20 (the
      source's comment says 10 for 50%, which is the value at 100%). */
  lemma BaseStockValues()
    ensures BaseStock(0.0) == 30 && BaseStock(100.0) == 10 && BaseStock(50.0) == 20
  {
  }

  // ---------------------------------------------------------------------
  // One tier
  // ---------------------------------------------------------------------

  /** The asks at or below `maxPrice`, in book order. */
  function Affordable(asks: seq<OrderBookEntry>, maxPrice: int): (r: seq<OrderBookEntry>)
    ensures |r| <= |asks|
  {
    if |asks| == 0 then []
    else if asks[0].pricePerUnit <= maxPrice then [asks[0]] + Affordable(asks[1..], maxPrice)
    else Affordable(asks[1..], maxPrice)
  }

  /** The affordable asks are exactly the asks at or below `maxPrice`. */
  lemma {:induction false} AffordableMeaning(asks: seq<OrderBookEntry>, maxPrice: int)
    ensures forall i :: 0 <= i < |Affordable(asks, maxPrice)| ==> Affordable(asks, maxPrice)[i].pricePerUnit <= maxPrice
    ensures forall e :: e in Affordable(asks, maxPrice) ==> e in asks
    ensures forall e :: e in asks && e.pricePerUnit <= maxPrice ==> e in Affordable(asks, maxPrice)
    decreases |asks|
  {
    if |asks| > 0 {
      AffordableMeaning(asks[1..], maxPrice);
      var rest := Affordable(asks[1..], maxPrice);
      forall e | e in asks && e.pricePerUnit <= maxPrice
        ensures e in Affordable(asks, maxPrice)
      {
        if e != asks[0] {
          var k :| 0 <= k < |asks| && asks[k] == e;
          assert asks[1..][k - 1] == e;
        }
      }
    }
  }

  /** In a book kept best first, the first affordable ask is the cheapest
      ask of all. */
  lemma {:induction false} FirstAffordableIsCheapest(asks: seq<OrderBookEntry>, maxPrice: int)
    requires AsksBestFirst(asks)
    requires |Affordable(asks, maxPrice)| > 0
    ensures |asks| > 0 && Affordable(asks, maxPrice)[0] == asks[0]
  {
    AffordableMeaning(asks, maxPrice);
    var first := Affordable(asks, maxPrice)[0];
    assert first in Affordable(asks, maxPrice);
    var k :| 0 <= k < |asks| && asks[k] == first;
    assert asks[0].pricePerUnit <= first.pricePerUnit <= maxPrice;
  }

  /** The summed quantity of some asks. */
  function TotalQuantity(asks: seq<OrderBookEntry>): int {
    if |asks| == 0 then 0 else asks[0].quantity + TotalQuantity(asks[1..])
  }

  /** `Math.floor(a / b)` for a non-zero divisor. */
  function FloorDiv(a: int, b: int): int
    requires b != 0
  {
    if b > 0 then a / b else (-a) / (-b)
  }

  /** The quotient is the floor of the exact quotient, for either sign of
      the divisor. */
  lemma FloorDivIsFloor(a: int, b: int)
    requires b != 0
    ensures b > 0 ==> FloorDiv(a, b) * b <= a < (FloorDiv(a, b) + 1) * b
    ensures b < 0 ==> FloorDiv(a, b) * b >= a > (FloorDiv(a, b) + 1) * b
  {
    if b < 0 {
      var q := (-a) / (-b);
      assert q * (-b) <= -a < (q + 1) * (-b);
    }
  }

  /** `Math.floor(balance / bestPrice)`; `None` stands for +Infinity (a
      positive balance over a zero price). */
  function MaxAffordable(balance: int, bestPrice: int): Option<int> {
    if bestPrice != 0 then Some(FloorDiv(balance, bestPrice))
    else if balance > 0 then None
    else Some(0)
  }

  /** The buy quantity: what is needed, capped by what is on offer and by
      what the balance affords. */
  function BuyQuantity(needed: int, available: int, affordable: Option<int>): int {
    var q := Min(needed, available);
    if affordable.Some? then Min(q, affordable.value) else q
  }

  /** The order one tier places, if any. The tier is skipped when the
      stock already reaches its target, when no ask is affordable, when the
      balance affords nothing at the first affordable ask's price, or when
      the buy quantity is not positive. The order is a BUY for the whole
      strategy's donut type at the tier's maximum price. */
  function TierOrder(outlet: Outlet, donutTypeId: string, stock: int, asks: seq<OrderBookEntry>,
                     tier: Threshold): (r: Option<CreateOrderRequest>)
    ensures r.Some? ==>
              && r.value.side == Buy && r.value.donutTypeId == donutTypeId
              && r.value.pricePerUnit == tier.maxPrice && r.value.outletId == outlet.outletId
              && 0 < r.value.quantity
  {
    if stock >= tier.targetStock then None
    else
      var affordable := Affordable(asks, tier.maxPrice);
      if |affordable| == 0 then None
      else
        var needed := tier.targetStock - stock;
        var cap := MaxAffordable(outlet.balance, affordable[0].pricePerUnit);
        if cap.Some? && cap.value <= 0 then None
        else
          var quantity := BuyQuantity(needed, TotalQuantity(affordable), cap);
          if quantity <= 0 then None
          else Some(CreateOrderRequest(Buy, donutTypeId, quantity, tier.maxPrice, outlet.outletId))
  }

  /** A tier places an order exactly when the stock is below its target,
      some ask is affordable, the balance pays for at least one unit at the
      best affordable price, and the quantity it works out is positive. */
  lemma TierOrderWhen(outlet: Outlet, donutTypeId: string, stock: int, asks: seq<OrderBookEntry>, tier: Threshold)
    ensures TierOrder(outlet, donutTypeId, stock, asks, tier).Some? <==>
              var affordable := Affordable(asks, tier.maxPrice);
              && stock < tier.targetStock
              && |affordable| > 0
              && var cap := MaxAffordable(outlet.balance, affordable[0].pricePerUnit);
                 && (cap.None? || cap.value > 0)
                 && BuyQuantity(tier.targetStock - stock, TotalQuantity(affordable), cap) > 0
  {
  }

  /** A tier never buys more than it needs to reach its target, more than
      the affordable asks offer in total, or, at a positive best price, more
      than the balance pays for at that price. */
  lemma TierOrderBounds(outlet: Outlet, donutTypeId: string, stock: int, asks: seq<OrderBookEntry>, tier: Threshold)
    ensures var r := TierOrder(outlet, donutTypeId, stock, asks, tier);
            r.Some? ==>
              var affordable := Affordable(asks, tier.maxPrice);
              var best := affordable[0].pricePerUnit;
              && r.value.quantity <= tier.targetStock - stock
              && r.value.quantity <= TotalQuantity(affordable)
              && (best > 0 ==> r.value.quantity * best <= outlet.balance)
  {
    var r := TierOrder(outlet, donutTypeId, stock, asks, tier);
    if r.Some? {
      var affordable := Affordable(asks, tier.maxPrice);
      var best := affordable[0].pricePerUnit;
      if best > 0 {
        FloorDivIsFloor(outlet.balance, best);
        var cap := FloorDiv(outlet.balance, best);
        assert r.value.quantity <= cap;
        assert r.value.quantity * best <= cap * best;
      }
    }
  }

  /** The quantity a tier buys is `Math.min(needed, available,
      maxAffordable)`: the shortfall to the target, the affordable asks'
      total, and the whole units the balance pays for at the best affordable
      price, the last being +Infinity (no cap) when that price is 0. */
  lemma TierOrderQuantity(outlet: Outlet, donutTypeId: string, stock: int, asks: seq<OrderBookEntry>, tier: Threshold)
    ensures var r := TierOrder(outlet, donutTypeId, stock, asks, tier);
            r.Some? ==>
              var affordable := Affordable(asks, tier.maxPrice);
              var best := affordable[0].pricePerUnit;
              var q := Min(tier.targetStock - stock, TotalQuantity(affordable));
              && (best != 0 ==> r.value.quantity == Min(q, FloorDiv(outlet.balance, best)))
              && (best == 0 ==> outlet.balance > 0 && r.value.quantity == q)
  {
  }

  // ---------------------------------------------------------------------
  // One strategy
  // ---------------------------------------------------------------------

  /** The orders one strategy tries to place, from tier `i` on: a tier's
      order whose placement succeeds ends the scan; one that fails moves on
      to the next tier. */
  function Attempts(outlet: Outlet, strategy: Strategy, stock: int, asks: seq<OrderBookEntry>,
                    accepts: CreateOrderRequest -> bool, i: nat): seq<CreateOrderRequest>
    decreases |strategy.thresholds| - i
  {
    if i >= |strategy.thresholds| then []
    else
      var r := TierOrder(outlet, strategy.donutTypeId, stock, asks, strategy.thresholds[i]);
      if r.Some? && accepts(r.value) then [r.value]
      else if r.Some? then [r.value] + Attempts(outlet, strategy, stock, asks, accepts, i + 1)
      else Attempts(outlet, strategy, stock, asks, accepts, i + 1)
  }

  /** One tier's contribution to the attempts. */
  lemma AttemptsUnfold(outlet: Outlet, strategy: Strategy, stock: int, asks: seq<OrderBookEntry>,
                       accepts: CreateOrderRequest -> bool, i: nat, r: Option<CreateOrderRequest>)
    requires i < |strategy.thresholds|
    requires r == TierOrder(outlet, strategy.donutTypeId, stock, asks, strategy.thresholds[i])
    ensures r.Some? && accepts(r.value) ==> Attempts(outlet, strategy, stock, asks, accepts, i) == [r.value]
    ensures r.Some? && !accepts(r.value) ==>
              Attempts(outlet, strategy, stock, asks, accepts, i)
              == [r.value] + Attempts(outlet, strategy, stock, asks, accepts, i + 1)
    ensures r.None? ==> Attempts(outlet, strategy, stock, asks, accepts, i)
                        == Attempts(outlet, strategy, stock, asks, accepts, i + 1)
  {
  }

  /** `request` is the order some tier from `i` on works out. */
  predicate FromTier(request: CreateOrderRequest, outlet: Outlet, strategy: Strategy, stock: int,
                     asks: seq<OrderBookEntry>, i: nat) {
    exists j :: i <= j < |strategy.thresholds| &&
      TierOrder(outlet, strategy.donutTypeId, stock, asks, strategy.thresholds[j]) == Some(request)
  }

  /** At most one order per tier is tried, each is the order of one of the
      remaining tiers, and every attempt but the last failed, so at most one
      order is placed. */
  lemma {:induction false} AttemptsMeaning(outlet: Outlet, strategy: Strategy, stock: int, asks: seq<OrderBookEntry>,
                                           accepts: CreateOrderRequest -> bool, i: nat)
    requires i <= |strategy.thresholds|
    ensures |Attempts(outlet, strategy, stock, asks, accepts, i)| <= |strategy.thresholds| - i
    ensures forall k :: 0 <= k < |Attempts(outlet, strategy, stock, asks, accepts, i)| - 1 ==>
              !accepts(Attempts(outlet, strategy, stock, asks, accepts, i)[k])
    ensures forall k :: 0 <= k < |Attempts(outlet, strategy, stock, asks, accepts, i)| ==>
              FromTier(Attempts(outlet, strategy, stock, asks, accepts, i)[k], outlet, strategy, stock, asks, i)
    decreases |strategy.thresholds| - i
  {
    if i < |strategy.thresholds| {
      var r := TierOrder(outlet, strategy.donutTypeId, stock, asks, strategy.thresholds[i]);
      var rest := Attempts(outlet, strategy, stock, asks, accepts, i + 1);
      AttemptsMeaning(outlet, strategy, stock, asks, accepts, i + 1);
      AttemptsUnfold(outlet, strategy, stock, asks, accepts, i, r);
      if r.Some? {
        assert FromTier(r.value, outlet, strategy, stock, asks, i);
      }
      if r.Some? && !accepts(r.value) {
        var a := [r.value] + rest;
        forall k | 0 <= k < |a|
          ensures FromTier(a[k], outlet, strategy, stock, asks, i)
        {
          if k > 0 {
            assert a[k] == rest[k - 1];
            var j :| i + 1 <= j < |strategy.thresholds| &&
              TierOrder(outlet, strategy.donutTypeId, stock, asks, strategy.thresholds[j]) == Some(rest[k - 1]);
          }
        }
        forall k | 0 <= k < |a| - 1
          ensures !accepts(a[k])
        {
          if k > 0 {
            assert a[k] == rest[k - 1];
          }
        }
      }
    }
  }

  /** `request` is a BUY of the strategy's donut type for the outlet, for
      a positive quantity. */
  predicate TriedBuy(request: CreateOrderRequest, outlet: Outlet, strategy: Strategy) {
    && request.side == Buy && request.outletId == outlet.outletId
    && request.donutTypeId == strategy.donutTypeId && request.quantity > 0
  }

  /** Every order a strategy tries is a BUY of the strategy's donut type
      for the outlet, for a positive quantity. */
  lemma {:induction false} AttemptsAreBuys(outlet: Outlet, strategy: Strategy, stock: int, asks: seq<OrderBookEntry>,
                                           accepts: CreateOrderRequest -> bool, i: nat)
    ensures forall k :: 0 <= k < |Attempts(outlet, strategy, stock, asks, accepts, i)| ==>
              TriedBuy(Attempts(outlet, strategy, stock, asks, accepts, i)[k], outlet, strategy)
    decreases |strategy.thresholds| - i
  {
    if i < |strategy.thresholds| {
      var r := TierOrder(outlet, strategy.donutTypeId, stock, asks, strategy.thresholds[i]);
      var rest := Attempts(outlet, strategy, stock, asks, accepts, i + 1);
      AttemptsAreBuys(outlet, strategy, stock, asks, accepts, i + 1);
      if r.Some? && !accepts(r.value) {
        var a := [r.value] + rest;
        assert Attempts(outlet, strategy, stock, asks, accepts, i) == a;
        forall k | 0 <= k < |a|
          ensures TriedBuy(a[k], outlet, strategy)
        {
          if k > 0 {
            assert a[k] == rest[k - 1];
          }
        }
      }
    }
  }

  /** A strategy whose stock reaches every tier's target places nothing. */
  lemma {:induction false} WellStockedStrategyIsIdle(outlet: Outlet, strategy: Strategy, stock: int,
                                                      asks: seq<OrderBookEntry>, accepts: CreateOrderRequest -> bool, i: nat)
    requires forall j :: 0 <= j < |strategy.thresholds| ==> strategy.thresholds[j].targetStock <= stock
    ensures Attempts(outlet, strategy, stock, asks, accepts, i) == []
    decreases |strategy.thresholds| - i
  {
    if i < |strategy.thresholds| {
      WellStockedStrategyIsIdle(outlet, strategy, stock, asks, accepts, i + 1);
    }
  }

  /** The orders a configuration tries, strategy after strategy, when the
      outlet exists and is open; stock and asks are read per strategy. */
  function OutletAttempts(outlets: map<string, Outlet>, config: OutletConfig, stock: (string, string) -> int,
                          books: map<string, OrderBook>, accepts: CreateOrderRequest -> bool, k: nat): seq<CreateOrderRequest>
    decreases |config.strategies| - k
  {
    if config.outletId !in outlets || !outlets[config.outletId].isOpen || k >= |config.strategies| then []
    else
      var outlet := outlets[config.outletId];
      var strategy := config.strategies[k];
      Attempts(outlet, strategy, stock(outlet.outletId, strategy.donutTypeId),
               Orders.BookIn(books, strategy.donutTypeId).sellOrders, accepts, 0)
      + OutletAttempts(outlets, config, stock, books, accepts, k + 1)
  }

  /** An outlet that is missing or closed tries no order at all. */
  lemma ClosedOutletIsIdle(outlets: map<string, Outlet>, config: OutletConfig, stock: (string, string) -> int,
                           books: map<string, OrderBook>, accepts: CreateOrderRequest -> bool, k: nat)
    requires config.outletId !in outlets || !outlets[config.outletId].isOpen
    ensures OutletAttempts(outlets, config, stock, books, accepts, k) == []
  {
  }

  /** The orders a whole cycle tries, configuration after configuration in
      insertion order, skipping disabled configurations. */
  function AllAttempts(order: seq<string>, configs: map<string, OutletConfig>, outlets: map<string, Outlet>,
                       stock: (string, string) -> int, books: map<string, OrderBook>,
                       accepts: CreateOrderRequest -> bool): seq<CreateOrderRequest>
    decreases |order|
  {
    if |order| == 0 then []
    else
      var rest := AllAttempts(order[1..], configs, outlets, stock, books, accepts);
      if order[0] in configs && configs[order[0]].enabled then
        OutletAttempts(outlets, configs[order[0]], stock, books, accepts, 0) + rest
      else rest
  }

  /** `request` is a BUY of an outlet that is open and has an enabled
      configuration. */
  predicate FromEnabledOpenOutlet(request: CreateOrderRequest, configs: map<string, OutletConfig>,
                                  outlets: map<string, Outlet>) {
    && request.outletId in configs && configs[request.outletId].enabled
    && request.outletId in outlets && outlets[request.outletId].isOpen
    && request.side == Buy
  }

  /** A cycle tries orders only for enabled configurations of open outlets,
      and only orders of those outlets. */
  lemma {:induction false} AllAttemptsComeFromEnabledOpenOutlets(
    order: seq<string>, configs: map<string, OutletConfig>, outlets: map<string, Outlet>,
    stock: (string, string) -> int, books: map<string, OrderBook>, accepts: CreateOrderRequest -> bool)
    requires forall id :: id in configs ==> configs[id].outletId == id
    requires forall id :: id in outlets ==> outlets[id].outletId == id
    ensures forall k :: 0 <= k < |AllAttempts(order, configs, outlets, stock, books, accepts)| ==>
              FromEnabledOpenOutlet(AllAttempts(order, configs, outlets, stock, books, accepts)[k], configs, outlets)
    decreases |order|
  {
    if |order| > 0 {
      AllAttemptsComeFromEnabledOpenOutlets(order[1..], configs, outlets, stock, books, accepts);
      var rest := AllAttempts(order[1..], configs, outlets, stock, books, accepts);
      if order[0] in configs && configs[order[0]].enabled {
        var first := OutletAttempts(outlets, configs[order[0]], stock, books, accepts, 0);
        OutletAttemptsBelongToOutlet(outlets, configs[order[0]], stock, books, accepts, 0);
        var a := AllAttempts(order, configs, outlets, stock, books, accepts);
        assert a == first + rest;
        forall k | 0 <= k < |a|
          ensures FromEnabledOpenOutlet(a[k], configs, outlets)
        {
          if k < |first| {
            assert a[k] == first[k];
          } else {
            assert a[k] == rest[k - |first|];
          }
        }
      }
    }
  }

  /** Every order a configuration tries is a BUY for that outlet, and it
      tries some only when the outlet exists and is open. */
  lemma {:induction false} OutletAttemptsBelongToOutlet(outlets: map<string, Outlet>, config: OutletConfig,
                                                        stock: (string, string) -> int, books: map<string, OrderBook>,
                                                        accepts: CreateOrderRequest -> bool, k: nat)
    requires forall id :: id in outlets ==> outlets[id].outletId == id
    ensures forall n :: 0 <= n < |OutletAttempts(outlets, config, stock, books, accepts, k)| ==>
              OutletAttempts(outlets, config, stock, books, accepts, k)[n].outletId == config.outletId
              && OutletAttempts(outlets, config, stock, books, accepts, k)[n].side == Buy
    ensures |OutletAttempts(outlets, config, stock, books, accepts, k)| > 0 ==>
              config.outletId in outlets && outlets[config.outletId].isOpen
    decreases |config.strategies| - k
  {
    if config.outletId in outlets && outlets[config.outletId].isOpen && k < |config.strategies| {
      var outlet := outlets[config.outletId];
      var strategy := config.strategies[k];
      var first := Attempts(outlet, strategy, stock(outlet.outletId, strategy.donutTypeId),
                            Orders.BookIn(books, strategy.donutTypeId).sellOrders, accepts, 0);
      AttemptsAreBuys(outlet, strategy, stock(outlet.outletId, strategy.donutTypeId),
                      Orders.BookIn(books, strategy.donutTypeId).sellOrders, accepts, 0);
      var rest := OutletAttempts(outlets, config, stock, books, accepts, k + 1);
      OutletAttemptsBelongToOutlet(outlets, config, stock, books, accepts, k + 1);
      var a := OutletAttempts(outlets, config, stock, books, accepts, k);
      assert a == first + rest;
      forall n | 0 <= n < |a|
        ensures a[n].outletId == config.outletId && a[n].side == Buy
      {
        if n < |first| {
          assert a[n] == first[n];
          assert TriedBuy(first[n], outlet, strategy);
        } else {
          assert a[n] == rest[n - |first|];
        }
      }
    }
  }

  // ---------------------------------------------------------------------
  // Configurations
  // ---------------------------------------------------------------------

  /** The default configuration of an outlet: one default strategy per
      donut type, enabled. */
  function DefaultConfig(outlet: Outlet, donutTypes: seq<string>): (c: OutletConfig)
    ensures c.outletId == outlet.outletId && c.enabled && |c.strategies| == |donutTypes|
    ensures forall i :: 0 <= i < |donutTypes| ==> c.strategies[i] == CreateDefaultStrategy(donutTypes[i], outlet)
  {
    OutletConfig(outlet.outletId,
                 seq(|donutTypes|, i requires 0 <= i < |donutTypes| => CreateDefaultStrategy(donutTypes[i], outlet)),
                 true)
  }

  /** The configurations after `initializeDefaultStrategies` over the outlets
      from index `i` on: every outlet but the supplier factory gets its
      default configuration, a later outlet overriding an earlier one with
      the same id. */
  function InitializedConfigs(configs: map<string, OutletConfig>, outlets: seq<Outlet>, donutTypes: seq<string>, i: nat)
    : map<string, OutletConfig>
    decreases |outlets| - i
  {
    if i >= |outlets| then configs
    else if outlets[i].outletId == SupplierFactoryId then InitializedConfigs(configs, outlets, donutTypes, i + 1)
    else InitializedConfigs(configs[outlets[i].outletId := DefaultConfig(outlets[i], donutTypes)], outlets, donutTypes, i + 1)
  }

  /** The iteration order after `initializeDefaultStrategies` over the
      outlets from index `i` on, `keys` being the outlets configured so far:
      an outlet configured for the first time joins the end of the order. */
  function InitializedOrder(order: seq<string>, keys: set<string>, outlets: seq<Outlet>, i: nat): seq<string>
    decreases |outlets| - i
  {
    if i >= |outlets| then order
    else if outlets[i].outletId == SupplierFactoryId then InitializedOrder(order, keys, outlets, i + 1)
    else
      var id := outlets[i].outletId;
      InitializedOrder(if id in keys then order else order + [id], keys + {id}, outlets, i + 1)
  }

  /** The supplier factory's configuration is never touched by the
      defaults, and every other outlet in the list ends up configured. */
  lemma {:induction false} InitializationSkipsFactory(configs: map<string, OutletConfig>, outlets: seq<Outlet>,
                                                      donutTypes: seq<string>, i: nat)
    ensures var r := InitializedConfigs(configs, outlets, donutTypes, i);
            && (SupplierFactoryId in r <==> SupplierFactoryId in configs)
            && (SupplierFactoryId in configs ==> r[SupplierFactoryId] == configs[SupplierFactoryId])
            && (forall j :: i <= j < |outlets| && outlets[j].outletId != SupplierFactoryId ==>
                  outlets[j].outletId in r && r[outlets[j].outletId].enabled)
            && r.Keys <= configs.Keys + (set j | i <= j < |outlets| :: outlets[j].outletId)
    decreases |outlets| - i
  {
    if i < |outlets| {
      if outlets[i].outletId == SupplierFactoryId {
        InitializationSkipsFactory(configs, outlets, donutTypes, i + 1);
      } else {
        var next := configs[outlets[i].outletId := DefaultConfig(outlets[i], donutTypes)];
        InitializationSkipsFactory(next, outlets, donutTypes, i + 1);
        InitializedKeepsKeys(next, outlets, donutTypes, i + 1, outlets[i].outletId);
        InitializedKeepsEnabled(next, outlets, donutTypes, i + 1, outlets[i].outletId);
      }
    }
  }

  /** Initialization never removes a configuration. */
  lemma {:induction false} InitializedKeepsKeys(configs: map<string, OutletConfig>, outlets: seq<Outlet>,
                                                donutTypes: seq<string>, i: nat, id: string)
    requires id in configs
    ensures id in InitializedConfigs(configs, outlets, donutTypes, i)
    decreases |outlets| - i
  {
    if i < |outlets| {
      if outlets[i].outletId == SupplierFactoryId {
        InitializedKeepsKeys(configs, outlets, donutTypes, i + 1, id);
      } else {
        InitializedKeepsKeys(configs[outlets[i].outletId := DefaultConfig(outlets[i], donutTypes)],
                             outlets, donutTypes, i + 1, id);
      }
    }
  }

  /** An enabled configuration stays enabled through initialization. */
  lemma {:induction false} InitializedKeepsEnabled(configs: map<string, OutletConfig>, outlets: seq<Outlet>,
                                                   donutTypes: seq<string>, i: nat, id: string)
    requires id in configs && configs[id].enabled
    ensures id in InitializedConfigs(configs, outlets, donutTypes, i)
    ensures InitializedConfigs(configs, outlets, donutTypes, i)[id].enabled
    decreases |outlets| - i
  {
    if i < |outlets| {
      if outlets[i].outletId == SupplierFactoryId {
        InitializedKeepsEnabled(configs, outlets, donutTypes, i + 1, id);
      } else {
        InitializedKeepsEnabled(configs[outlets[i].outletId := DefaultConfig(outlets[i], donutTypes)],
                                outlets, donutTypes, i + 1, id);
      }
    }
  }

  // ---------------------------------------------------------------------
  // The agent object
  // ---------------------------------------------------------------------

  class PurchasingAgent {
    /** The configurations by outlet id, and the ids in insertion order
        (the iteration order of the source's map). */
    var configs: map<string, OutletConfig>
    var configOrder: seq<string>
    var isRunning: bool
    var isExecuting: bool
    var shouldStop: bool
    /** Whether a check timer is armed and has not yet fired. */
    var timerPending: bool

    /** The insertion order lists every configured outlet exactly once. */
    ghost predicate Valid()
      reads this
    {
      && (forall i, j :: 0 <= i < j < |configOrder| ==> configOrder[i] != configOrder[j])
      && (forall id :: id in configs.Keys <==> id in configOrder)
    }

    constructor ()
      ensures Valid() && configs == map[] && configOrder == []
      ensures !isRunning && !isExecuting && !shouldStop && !timerPending
    {
      configs := map[];
      configOrder := [];
      isRunning := false;
      isExecuting := false;
      shouldStop := false;
      timerPending := false;
    }

    /** `setConfig`: replaces the outlet's configuration; a new outlet goes
        to the end of the iteration order, a known one keeps its place. */
    method SetConfig(config: OutletConfig)
      requires Valid()
      modifies this`configs, this`configOrder
      ensures Valid()
      ensures configs == old(configs)[config.outletId := config]
      ensures configOrder == if config.outletId in old(configs) then old(configOrder)
                             else old(configOrder) + [config.outletId]
    {
      if config.outletId !in configs {
        configOrder := configOrder + [config.outletId];
      }
      configs := configs[config.outletId := config];
    }

    function GetConfig(outletId: string): (c: Option<OutletConfig>)
      reads this
      ensures c.Some? <==> outletId in configs
      ensures c.Some? ==> c.value == configs[outletId]
    {
      if outletId in configs then Some(configs[outletId]) else None
    }

    /** `initializeDefaultStrategies`, over the outlets and donut types the
        exchange lists. */
    method InitializeDefaultStrategies(outlets: seq<Outlet>, donutTypes: seq<string>)
      requires Valid()
      modifies this`configs, this`configOrder
      ensures Valid()
      ensures configs == InitializedConfigs(old(configs), outlets, donutTypes, 0)
      ensures configOrder == InitializedOrder(old(configOrder), old(configs).Keys, outlets, 0)
    {
      var i := 0;
      while i < |outlets|
        invariant 0 <= i <= |outlets| && Valid()
        invariant InitializedConfigs(configs, outlets, donutTypes, i) == InitializedConfigs(old(configs), outlets, donutTypes, 0)
        invariant InitializedOrder(configOrder, configs.Keys, outlets, i)
               == InitializedOrder(old(configOrder), old(configs).Keys, outlets, 0)
      {
        var outlet := outlets[i];
        if outlet.outletId != SupplierFactoryId {
          var strategies := seq(|donutTypes|, k requires 0 <= k < |donutTypes| => CreateDefaultStrategy(donutTypes[k], outlet));
          ghost var order, keys := configOrder, configs.Keys;
          SetConfig(OutletConfig(outlet.outletId, strategies, true));
          assert configs.Keys == keys + {outlet.outletId};
          assert configOrder == if outlet.outletId in keys then order else order + [outlet.outletId];
        }
        i := i + 1;
      }
    }

    /** `executeStrategy` for one strategy of an open outlet, with the stock
        and the asks it reads; `accepts` says whether `createOrder` succeeds
        for a request. Returns the requests tried and the one placed. */
    method ExecuteStrategy(outlet: Outlet, strategy: Strategy, stock: int, asks: seq<OrderBookEntry>,
                           accepts: CreateOrderRequest -> bool)
      returns (attempts: seq<CreateOrderRequest>, placed: Option<CreateOrderRequest>)
      ensures attempts == Attempts(outlet, strategy, stock, asks, accepts, 0)
      ensures placed.Some? <==> |attempts| > 0 && accepts(attempts[|attempts| - 1])
      ensures placed.Some? ==> placed.value == attempts[|attempts| - 1]
    {
      attempts := [];
      placed := None;
      var i := 0;
      while i < |strategy.thresholds|
        invariant 0 <= i <= |strategy.thresholds|
        invariant |attempts| > 0 ==> !accepts(attempts[|attempts| - 1])
        invariant attempts + Attempts(outlet, strategy, stock, asks, accepts, i)
               == Attempts(outlet, strategy, stock, asks, accepts, 0)
        invariant placed.None?
      {
        var order := TierOrder(outlet, strategy.donutTypeId, stock, asks, strategy.thresholds[i]);
        AttemptsUnfold(outlet, strategy, stock, asks, accepts, i, order);
        if order.Some? {
          Seqs.ConcatAssoc(attempts, [order.value], Attempts(outlet, strategy, stock, asks, accepts, i + 1));
          attempts := attempts + [order.value];
          if accepts(order.value) {
            placed := order;
            break;
          }
        }
        i := i + 1;
      }
    }

    /** `executeAllStrategies`: every enabled configuration in insertion
        order, every strategy of an existing open outlet in order. */
    method ExecuteAllStrategies(outlets: map<string, Outlet>, stock: (string, string) -> int,
                                books: map<string, OrderBook>, accepts: CreateOrderRequest -> bool)
      returns (attempts: seq<CreateOrderRequest>)
      ensures attempts == AllAttempts(configOrder, configs, outlets, stock, books, accepts)
    {
      attempts := [];
      var i := 0;
      while i < |configOrder|
        invariant 0 <= i <= |configOrder|
        invariant attempts + AllAttempts(configOrder[i..], configs, outlets, stock, books, accepts)
               == AllAttempts(configOrder, configs, outlets, stock, books, accepts)
      {
        var outletId := configOrder[i];
        assert configOrder[i..][1..] == configOrder[i + 1..];
        if outletId in configs && configs[outletId].enabled {
          var tried := ExecuteOutletStrategies(outlets, configs[outletId], stock, books, accepts);
          Seqs.ConcatAssoc(attempts, tried, AllAttempts(configOrder[i + 1..], configs, outlets, stock, books, accepts));
          attempts := attempts + tried;
        }
        i := i + 1;
      }
      assert attempts + [] == attempts;
    }

    /** `executeOutletStrategies`: nothing for a missing or closed outlet. */
    method ExecuteOutletStrategies(outlets: map<string, Outlet>, config: OutletConfig, stock: (string, string) -> int,
                                   books: map<string, OrderBook>, accepts: CreateOrderRequest -> bool)
      returns (attempts: seq<CreateOrderRequest>)
      ensures attempts == OutletAttempts(outlets, config, stock, books, accepts, 0)
    {
      attempts := [];
      if config.outletId !in outlets || !outlets[config.outletId].isOpen {
        return;
      }
      var outlet := outlets[config.outletId];
      var k := 0;
      while k < |config.strategies|
        invariant 0 <= k <= |config.strategies|
        invariant attempts + OutletAttempts(outlets, config, stock, books, accepts, k)
               == OutletAttempts(outlets, config, stock, books, accepts, 0)
      {
        var strategy := config.strategies[k];
        assert OutletAttempts(outlets, config, stock, books, accepts, k)
            == Attempts(outlet, strategy, stock(outlet.outletId, strategy.donutTypeId),
                        Orders.BookIn(books, strategy.donutTypeId).sellOrders, accepts, 0)
               + OutletAttempts(outlets, config, stock, books, accepts, k + 1);
        var tried, placed := ExecuteStrategy(outlet, strategy, stock(outlet.outletId, strategy.donutTypeId),
                                             Orders.BookIn(books, strategy.donutTypeId).sellOrders, accepts);
        Seqs.ConcatAssoc(attempts, tried, OutletAttempts(outlets, config, stock, books, accepts, k + 1));
        attempts := attempts + tried;
        k := k + 1;
      }
      assert attempts + [] == attempts;
    }

    /** `start`: a running agent ignores it; otherwise the defaults are
        installed and the first check is armed. */
    method Start(outlets: seq<Outlet>, donutTypes: seq<string>)
      requires Valid()
      modifies this`configs, this`configOrder, this`isRunning, this`shouldStop, this`timerPending
      ensures Valid()
      ensures old(isRunning) ==> && isRunning && configs == old(configs) && configOrder == old(configOrder)
                                  && shouldStop == old(shouldStop) && timerPending == old(timerPending)
      ensures !old(isRunning) ==> && isRunning && !shouldStop && timerPending
                                   && configs == InitializedConfigs(old(configs), outlets, donutTypes, 0)
                                   && configOrder == InitializedOrder(old(configOrder), old(configs).Keys, outlets, 0)
    {
      if isRunning {
        return;
      }
      isRunning := true;
      shouldStop := false;
      InitializeDefaultStrategies(outlets, donutTypes);
      ScheduleExecution();
    }

    method ScheduleExecution()
      modifies this`timerPending
      ensures timerPending == (old(timerPending) || !shouldStop)
    {
      if shouldStop {
        return;
      }
      timerPending := true;
    }

    /** After `stop` no check is armed and none can be armed again. */
    method Stop()
      modifies this`shouldStop, this`timerPending, this`isRunning
      ensures shouldStop && !timerPending && !isRunning
    {
      shouldStop := true;
      timerPending := false;
      isRunning := false;
    }

    /** The armed timer fires: a cycle runs unless one is already running
        or a stop was requested; the timer is re-armed unless stopped. */
    method Tick(outlets: map<string, Outlet>, stock: (string, string) -> int,
                books: map<string, OrderBook>, accepts: CreateOrderRequest -> bool)
      returns (attempts: seq<CreateOrderRequest>)
      requires timerPending
      modifies this`isExecuting, this`timerPending
      ensures isExecuting == old(isExecuting)
      ensures timerPending == !shouldStop
      ensures old(isExecuting) || shouldStop ==> attempts == []
      ensures !old(isExecuting) && !shouldStop ==>
                attempts == AllAttempts(configOrder, configs, outlets, stock, books, accepts)
    {
      timerPending := false;
      attempts := [];
      if isExecuting || shouldStop {
        ScheduleExecution();
        return;
      }
      isExecuting := true;
      attempts := ExecuteAllStrategies(outlets, stock, books, accepts);
      isExecuting := false;
      ScheduleExecution();
    }
  }
}
