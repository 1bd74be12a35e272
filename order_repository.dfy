/** The order store behind the order repository: orders keyed by id, and
    the order-book view the engine reads, keyed by donut type. */
module Orders {
  import opened Wrappers
  import opened Types

  /** The request an order was placed with. */
  function RequestOf(o: Order): CreateOrderRequest {
    CreateOrderRequest(o.side, o.donutTypeId, o.quantity, o.pricePerUnit, o.outletId)
  }

  /** The order `create` stores and returns for `request`, given the id and
      the clock reading the source draws itself. */
  function NewOrder(request: CreateOrderRequest, orderId: string, now: Instant): (o: Order)
    ensures RequestOf(o) == request
    ensures o.orderId == orderId && o.status == Active
    ensures o.createdAt == now && o.updatedAt == o.createdAt
  {
    Order(orderId, request.side, request.donutTypeId, request.quantity, request.pricePerUnit,
          Active, request.outletId, now, now)
  }

  /** `o2` differs from `o1` at most in status, quantity and update stamp. */
  predicate SameOrderIdentity(o1: Order, o2: Order) {
    o1.orderId == o2.orderId && o1.side == o2.side && o1.donutTypeId == o2.donutTypeId
    && o1.pricePerUnit == o2.pricePerUnit && o1.outletId == o2.outletId && o1.createdAt == o2.createdAt
  }

  /** The store after `updateStatus(id, status)`. A missing id matches
      nothing, so nothing changes. */
  function WithStatus(orders: map<string, Order>, id: string, status: OrderStatus, now: Instant): (r: map<string, Order>)
    ensures r.Keys == orders.Keys
    ensures forall k :: k in orders && k != id ==> r[k] == orders[k]
    ensures id in orders ==>
              && r[id].status == status && r[id].updatedAt == now
              && r[id].quantity == orders[id].quantity && SameOrderIdentity(orders[id], r[id])
  {
    if id in orders then orders[id := orders[id].(status := status, updatedAt := now)] else orders
  }

  /** The store after `updateQuantity(id, quantity)`. */
  function WithQuantity(orders: map<string, Order>, id: string, quantity: int, now: Instant): (r: map<string, Order>)
    ensures r.Keys == orders.Keys
    ensures forall k :: k in orders && k != id ==> r[k] == orders[k]
    ensures id in orders ==>
              && r[id].quantity == quantity && r[id].updatedAt == now
              && r[id].status == orders[id].status && SameOrderIdentity(orders[id], r[id])
  {
    if id in orders then orders[id := orders[id].(quantity := quantity, updatedAt := now)] else orders
  }

  /** The book of donut type `t` in the book view; a type with no entry has
      an empty book. */
  function BookIn(books: map<string, OrderBook>, t: string): (b: OrderBook)
    ensures b.donutTypeId == t
    ensures t !in books ==> b.buyOrders == [] && b.sellOrders == []
    ensures t in books ==> b.buyOrders == books[t].buyOrders && b.sellOrders == books[t].sellOrders
  {
    if t in books then OrderBook(t, books[t].buyOrders, books[t].sellOrders) else OrderBook(t, [], [])
  }

  /** `getOrderBook` as this revision of the repository implements it. */
  function StubGetOrderBook(t: string): OrderBook {
    OrderBook(t, [], [])
  }

  /** The stubbed book is the view with no resting orders at all. */
  lemma StubIsEmptyView(t: string)
    ensures StubGetOrderBook(t) == BookIn(map[], t)
  {
  }

  class OrderRepository {
    var orders: map<string, Order>
    var books: map<string, OrderBook>

    constructor (books: map<string, OrderBook>)
      ensures this.orders == map[] && this.books == books
    {
      this.orders := map[];
      this.books := books;
    }

    /** Stores a new ACTIVE order under `orderId` and returns it. */
    method Create(request: CreateOrderRequest, orderId: string, now: Instant) returns (order: Order)
      modifies this`orders
      ensures order == NewOrder(request, orderId, now)
      ensures orders == old(orders)[orderId := order]
    {
      order := Order(orderId, request.side, request.donutTypeId, request.quantity, request.pricePerUnit,
                     Active, request.outletId, now, now);
      orders := orders[orderId := order];
    }

    function FindById(orderId: string): (r: Option<Order>)
      reads this
      ensures r.Some? <==> orderId in orders
      ensures r.Some? ==> r.value == orders[orderId]
    {
      if orderId in orders then Some(orders[orderId]) else None
    }

    function GetOrderBook(t: string): (b: OrderBook)
      reads this
      ensures b.donutTypeId == t
    {
      BookIn(books, t)
    }

    method UpdateStatus(orderId: string, status: OrderStatus, now: Instant)
      modifies this`orders
      ensures orders == WithStatus(old(orders), orderId, status, now)
    {
      if orderId in orders {
        orders := orders[orderId := orders[orderId].(status := status, updatedAt := now)];
      }
    }

    method UpdateQuantity(orderId: string, quantity: int, now: Instant)
      modifies this`orders
      ensures orders == WithQuantity(old(orders), orderId, quantity, now)
    {
      if orderId in orders {
        orders := orders[orderId := orders[orderId].(quantity := quantity, updatedAt := now)];
      }
    }
  }
}
