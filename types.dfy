/** The exchange's shared vocabulary: order status and side, orders, trades,
    order books and outlets. Money is held as integer cents and quantities as
    whole numbers; margins and retail prices, which the source computes with
    fractions, as reals. */
module Types {
  import opened Wrappers

  /** The smaller of two integers, as `Math.min`. */
  function Min(a: int, b: int): int {
    if a <= b then a else b
  }

  /** Lifecycle state of an order. */
  datatype OrderStatus = Active | PartiallyFilled | Filled | Cancelled | Expired

  /** The string each status is stored as. */
  function StatusName(s: OrderStatus): string {
    match s
    case Active => "active"
    case PartiallyFilled => "partially_filled"
    case Filled => "filled"
    case Cancelled => "cancelled"
    case Expired => "expired"
  }

  /** The status a stored string denotes, if any. */
  function ParseStatus(name: string): (r: Option<OrderStatus>)
    ensures r.Some? ==> StatusName(r.value) == name
  {
    if name == "active" then Some(Active)
    else if name == "partially_filled" then Some(PartiallyFilled)
    else if name == "filled" then Some(Filled)
    else if name == "cancelled" then Some(Cancelled)
    else if name == "expired" then Some(Expired)
    else None
  }

  /** A stored string denotes a status exactly when it is that status's name,
      so the five names are distinct and every status can be read back. */
  lemma ParseStatusIff(name: string, s: OrderStatus)
    ensures ParseStatus(name) == Some(s) <==> StatusName(s) == name
  {
  }

  /** Only these two states may still trade. */
  predicate IsMatchable(s: OrderStatus) {
    s == Active || s == PartiallyFilled
  }

  datatype OrderSide = Buy | Sell

  function SideName(side: OrderSide): string {
    match side
    case Buy => "buy"
    case Sell => "sell"
  }

  function ParseSide(name: string): (r: Option<OrderSide>)
    ensures r.Some? ==> SideName(r.value) == name
  {
    if name == "buy" then Some(Buy) else if name == "sell" then Some(Sell) else None
  }

  lemma ParseSideIff(name: string, side: OrderSide)
    ensures ParseSide(name) == Some(side) <==> SideName(side) == name
  {
  }

  /** Timestamps are abstract instants (milliseconds). */
  type Instant = int

  datatype Order = Order(
    orderId: string,
    side: OrderSide,
    donutTypeId: string,
    quantity: int,
    pricePerUnit: int,
    status: OrderStatus,
    outletId: string,
    createdAt: Instant,
    updatedAt: Instant)

  /** What a client asks for when placing an order. */
  datatype CreateOrderRequest = CreateOrderRequest(
    side: OrderSide,
    donutTypeId: string,
    quantity: int,
    pricePerUnit: int,
    outletId: string)

  /** The settlement record of one fill. */
  datatype Transaction = Transaction(
    transactionId: nat,
    donutTypeId: string,
    quantity: int,
    pricePerUnit: int,
    totalAmount: int,
    buyerOutletId: string,
    sellerOutletId: string,
    buyOrderId: string,
    sellOrderId: string,
    executedAt: Instant)

  datatype OrderBookEntry = OrderBookEntry(
    orderId: string,
    outletId: string,
    quantity: int,
    pricePerUnit: int,
    createdAt: Instant)

  /** The resting orders of one donut type. */
  datatype OrderBook = OrderBook(
    donutTypeId: string,
    buyOrders: seq<OrderBookEntry>,
    sellOrders: seq<OrderBookEntry>)

  /** Bids are kept best first: price descending. */
  predicate BidsBestFirst(bids: seq<OrderBookEntry>) {
    forall i, j :: 0 <= i < j < |bids| ==> bids[i].pricePerUnit >= bids[j].pricePerUnit
  }

  /** Asks are kept best first: price ascending. */
  predicate AsksBestFirst(asks: seq<OrderBookEntry>) {
    forall i, j :: 0 <= i < j < |asks| ==> asks[i].pricePerUnit <= asks[j].pricePerUnit
  }

  predicate WellOrdered(book: OrderBook) {
    BidsBestFirst(book.buyOrders) && AsksBestFirst(book.sellOrders)
  }

  /** In a well-ordered book the first entries are the best bid and the best ask. */
  lemma BestOfBook(book: OrderBook)
    requires WellOrdered(book)
    ensures forall e :: e in book.buyOrders ==> e.pricePerUnit <= book.buyOrders[0].pricePerUnit
    ensures forall e :: e in book.sellOrders ==> e.pricePerUnit >= book.sellOrders[0].pricePerUnit
  {
    forall e | e in book.buyOrders
      ensures e.pricePerUnit <= book.buyOrders[0].pricePerUnit
    {
      var j :| 0 <= j < |book.buyOrders| && book.buyOrders[j] == e;
      if j > 0 { assert BidsBestFirst(book.buyOrders); }
    }
    forall e | e in book.sellOrders
      ensures e.pricePerUnit >= book.sellOrders[0].pricePerUnit
    {
      var j :| 0 <= j < |book.sellOrders| && book.sellOrders[j] == e;
      if j > 0 { assert AsksBestFirst(book.sellOrders); }
    }
  }

  datatype PriceLevel = PriceLevel(price: int, quantity: int, orderCount: nat)

  datatype MarketDepth = MarketDepth(donutTypeId: string, bids: seq<PriceLevel>, asks: seq<PriceLevel>)

  datatype TradeMatch = TradeMatch(buyOrder: Order, sellOrder: Order, matchQuantity: int, matchPrice: int)

  /** A trading participant. The margin is a percentage; `isOpen` gates both
      the restocking agent and retail customers. */
  datatype Outlet = Outlet(
    outletId: string,
    outletName: string,
    balance: int,
    marginPercent: real,
    isOpen: bool)

  datatype DonutType = DonutType(donutTypeId: string, donutName: string, description: string)
}
