/** The exchange service: the entry point that validates a new order,
    stores it, hands it to the matching engine and returns it as it stands
    after matching. */
module Exchange {
  import opened Wrappers
  import opened Types
  import Orders
  import Engine

  /** The ledger right after `create` stored the new order. */
  function Placed(l: Engine.Ledger, order: Order): (r: Engine.Ledger)
    ensures order.orderId in r.orders && r.orders[order.orderId] == order
    ensures r.orders.Keys == l.orders.Keys + {order.orderId}
    ensures forall id :: id in l.orders && id != order.orderId ==> id in r.orders && r.orders[id] == l.orders[id]
    ensures r.balances == l.balances && r.trades == l.trades && r.deliveries == l.deliveries
  {
    l.(orders := l.orders[order.orderId := order])
  }

  /** Matching never changes which orders exist nor what an order is (its
      id, side, type, price and outlet); so the order `createOrder` returns
      is always the one it stored, as matching left it. */
  lemma ProcessKeepsOrderIdentity(l: Engine.Ledger, books: map<string, OrderBook>, order: Order,
                                  callbacks: seq<Engine.Callback>, now: Instant)
    requires order.orderId in l.orders && l.orders[order.orderId] == order
    ensures var r := Engine.Process(l, books, order, callbacks, now);
            && order.orderId in r.orders
            && Orders.SameOrderIdentity(order, r.orders[order.orderId])
  {
    var entries := Engine.OppositeEntries(Orders.BookIn(books, order.donutTypeId), order.side);
    Engine.WalkGrows(l, order.side, order, order.quantity, entries, callbacks, now);
  }

  class ExchangeService {
    const orderRepo: Orders.OrderRepository
    const matchingEngine: Engine.MatchingEngine
    /** The donut types the donut-type repository knows. */
    var donutTypes: set<string>

    /** The service and its engine work on the same order store. */
    predicate Valid()
      reads this, matchingEngine
    {
      matchingEngine.orderRepo == orderRepo
    }

    constructor (matchingEngine: Engine.MatchingEngine, donutTypes: set<string>)
      ensures this.matchingEngine == matchingEngine && this.orderRepo == matchingEngine.orderRepo
      ensures this.donutTypes == donutTypes
      ensures Valid()
    {
      this.orderRepo := matchingEngine.orderRepo;
      this.matchingEngine := matchingEngine;
      this.donutTypes := donutTypes;
    }

    /** `createOrder`. The outlet is checked first, then the donut type;
        either failure leaves everything unchanged. Otherwise the order is
        stored ACTIVE with the request's fields, processed by the engine
        exactly once, and re-read from the store. The order id and the clock
        are inputs, standing for the repository's generated id and time. */
    method CreateOrder(request: CreateOrderRequest, orderId: string, now: Instant)
      returns (result: Result<Order, string>)
      requires Valid()
      modifies matchingEngine`balances, matchingEngine`trades, matchingEngine`deliveries, orderRepo`orders
      ensures request.outletId !in old(matchingEngine.balances) ==>
                && result == Failure("Outlet not found: " + request.outletId)
                && matchingEngine.Snapshot() == old(matchingEngine.Snapshot())
      ensures request.outletId in old(matchingEngine.balances) && request.donutTypeId !in donutTypes ==>
                && result == Failure("Donut type not found: " + request.donutTypeId)
                && matchingEngine.Snapshot() == old(matchingEngine.Snapshot())
      ensures request.outletId in old(matchingEngine.balances) && request.donutTypeId in donutTypes ==>
                var created := Orders.NewOrder(request, orderId, now);
                && matchingEngine.Snapshot()
                   == Engine.Process(Placed(old(matchingEngine.Snapshot()), created), orderRepo.books, created,
                                     matchingEngine.tradeCallbacks, now)
                && result.Success?
                && orderId in orderRepo.orders && result.value == orderRepo.orders[orderId]
                && Orders.SameOrderIdentity(created, result.value)
    {
      if request.outletId !in matchingEngine.balances {
        return Failure("Outlet not found: " + request.outletId);
      }
      if request.donutTypeId !in donutTypes {
        return Failure("Donut type not found: " + request.donutTypeId);
      }
      ghost var before := matchingEngine.Snapshot();
      var order := orderRepo.Create(request, orderId, now);
      assert matchingEngine.Snapshot() == Placed(before, order);
      ProcessKeepsOrderIdentity(matchingEngine.Snapshot(), orderRepo.books, order, matchingEngine.tradeCallbacks, now);
      matchingEngine.ProcessOrder(order, now);
      var updated := orderRepo.FindById(order.orderId);
      if updated.Some? {
        result := Success(updated.value);
      } else {
        result := Success(order);
      }
    }

    /** `getOrderBook` reads the repository's book for the type. */
    function GetOrderBook(donutTypeId: string): (book: OrderBook)
      reads this, orderRepo
      ensures book.donutTypeId == donutTypeId
      ensures donutTypeId !in orderRepo.books ==> book.buyOrders == [] && book.sellOrders == []
    {
      orderRepo.GetOrderBook(donutTypeId)
    }

    method Start()
      requires Valid()
      modifies matchingEngine`shouldStop, matchingEngine`sweepPending
      ensures !matchingEngine.shouldStop && matchingEngine.sweepPending
    {
      matchingEngine.Start();
    }

    method Stop()
      requires Valid()
      modifies matchingEngine`shouldStop, matchingEngine`sweepPending
      ensures matchingEngine.shouldStop && !matchingEngine.sweepPending
    {
      matchingEngine.Stop();
    }
  }
}
