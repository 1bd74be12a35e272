/** The order-matching engine: a continuous double auction over one order
    book per donut type. An incoming order walks the opposite side of its
    book in book order, fills against each matchable resting order at the
    resting order's price, settles each fill between two outlet balances and
    notifies the registered trade callbacks. A background sweep re-checks
    the books of a fixed list of donut types for a crossed best bid and ask. */
module Engine {
  import opened Wrappers
  import opened Types
  import Orders

  /** A registered callback, known by its registration. Its code is foreign:
      the engine calls it and catches whatever it throws, so a throw changes
      nothing the engine can see. */
  datatype Callback = Callback(id: nat)

  datatype TradeExecutedEvent = TradeExecutedEvent(
    buyerOutletId: string,
    sellerOutletId: string,
    donutTypeId: string,
    quantity: int,
    price: int,
    totalAmount: int)

  /** One invocation of a callback, as the engine makes it. */
  datatype Delivery =
    | TradeDelivery(callback: Callback, event: TradeExecutedEvent)
    | ErrorDelivery(callback: Callback, message: string, source: string)

  /** Emitting a trade event calls every trade callback once, in
      registration order; a callback that throws is caught and the next one
      is still called. */
  function TradeDeliveries(callbacks: seq<Callback>, event: TradeExecutedEvent): seq<Delivery> {
    seq(|callbacks|, i requires 0 <= i < |callbacks| => TradeDelivery(callbacks[i], event))
  }

  /** The same delivery discipline for error callbacks. */
  function ErrorDeliveries(callbacks: seq<Callback>, message: string, source: string): seq<Delivery> {
    seq(|callbacks|, i requires 0 <= i < |callbacks| => ErrorDelivery(callbacks[i], message, source))
  }

  /** Everything a match can change: the order store, the outlet balances
      (in cents), the trade records and the callback deliveries. */
  datatype Ledger = Ledger(
    orders: map<string, Order>,
    balances: map<string, int>,
    trades: seq<Transaction>,
    deliveries: seq<Delivery>)

  // ---------------------------------------------------------------------
  // Settlement
  // ---------------------------------------------------------------------

  /** Balances after the buyer pays `total` and the seller receives it, the
      seller's leg reading the balance as the buyer's leg left it. */
  function SettleBalances(balances: map<string, int>, buyer: string, seller: string, total: int): (r: map<string, int>)
    requires buyer in balances && seller in balances
    ensures r.Keys == balances.Keys
    ensures buyer != seller ==> r[buyer] == balances[buyer] - total && r[seller] == balances[seller] + total
    ensures buyer == seller ==> r == balances
    ensures forall o :: o in balances && o != buyer && o != seller ==> r[o] == balances[o]
  {
    var paid := balances[buyer := balances[buyer] - total];
    paid[seller := paid[seller] + total]
  }

  /** Balances as the source's settlement writes them: both balances are
      read before either is written. */
  function SettleBalancesAsWritten(balances: map<string, int>, buyer: string, seller: string, total: int): map<string, int>
    requires buyer in balances && seller in balances
  {
    balances[buyer := balances[buyer] - total][seller := balances[seller] + total]
  }

  /** Between two different outlets the source's settlement is the intended one. */
  lemma AsWrittenAgreesBetweenDistinctOutlets(balances: map<string, int>, buyer: string, seller: string, total: int)
    requires buyer in balances && seller in balances && buyer != seller
    ensures SettleBalancesAsWritten(balances, buyer, seller, total) == SettleBalances(balances, buyer, seller, total)
  {
  }

  /** A self-trade of 2 units at 100 cents, settled as the source writes it,
      leaves the outlet 200 cents richer instead of unchanged. */
  lemma SelfTradeAsWrittenCreditsOutlet()
    ensures SettleBalancesAsWritten(map["outlet-a" := 1000], "outlet-a", "outlet-a", 2 * 100)["outlet-a"] == 1200
    ensures SettleBalances(map["outlet-a" := 1000], "outlet-a", "outlet-a", 2 * 100)["outlet-a"] == 1000
  {
  }

  /** The record `executeTrade` creates; its id is its position among all
      trades. */
  function TradeRecord(id: nat, buy: Order, sell: Order, quantity: int, price: int, now: Instant): Transaction {
    Transaction(id, buy.donutTypeId, quantity, price, quantity * price,
                buy.outletId, sell.outletId, buy.orderId, sell.orderId, now)
  }

  function TradeEvent(buy: Order, sell: Order, quantity: int, price: int): TradeExecutedEvent {
    TradeExecutedEvent(buy.outletId, sell.outletId, buy.donutTypeId, quantity, price, quantity * price)
  }

  predicate BothOutletsKnown(l: Ledger, buy: Order, sell: Order) {
    buy.outletId in l.balances && sell.outletId in l.balances
  }

  /** `executeTrade(buy, sell, quantity, price)`: a trade record is always
      created; the balances move and the event is emitted only when both
      outlets exist. There is no solvency check, and the order store is not
      touched (neither is any inventory: the engine has none). */
  function Settle(l: Ledger, buy: Order, sell: Order, quantity: int, price: int,
                  callbacks: seq<Callback>, now: Instant): (r: Ledger)
    ensures r.orders == l.orders && r.balances.Keys == l.balances.Keys
    ensures |r.trades| == |l.trades| + 1 && r.trades[..|l.trades|] == l.trades
  {
    var recorded := l.(trades := l.trades + [TradeRecord(|l.trades|, buy, sell, quantity, price, now)]);
    if BothOutletsKnown(l, buy, sell) then
      recorded.(balances := SettleBalances(l.balances, buy.outletId, sell.outletId, quantity * price),
                deliveries := l.deliveries + TradeDeliveries(callbacks, TradeEvent(buy, sell, quantity, price)))
    else
      recorded
  }

  /** What `executeTrade` does: one trade record with the given quantity,
      price, total and parties is appended; only the two outlets' balances
      can move, the buyer paying the total and the seller receiving it; a
      self-trade leaves the balance as it was; and the trade callbacks see
      the event only when both outlets exist. */
  lemma SettleEffect(l: Ledger, buy: Order, sell: Order, quantity: int, price: int,
                     callbacks: seq<Callback>, now: Instant)
    ensures var r := Settle(l, buy, sell, quantity, price, callbacks, now);
            var t := r.trades[|l.trades|];
            && t.quantity == quantity && t.pricePerUnit == price && t.totalAmount == quantity * price
            && t.buyOrderId == buy.orderId && t.sellOrderId == sell.orderId
            && t.buyerOutletId == buy.outletId && t.sellerOutletId == sell.outletId
            && t.donutTypeId == buy.donutTypeId
            && (forall o :: o in l.balances && o != buy.outletId && o != sell.outletId ==> r.balances[o] == l.balances[o])
            && (BothOutletsKnown(l, buy, sell) && buy.outletId != sell.outletId ==>
                  && r.balances[buy.outletId] == l.balances[buy.outletId] - quantity * price
                  && r.balances[sell.outletId] == l.balances[sell.outletId] + quantity * price)
            && (BothOutletsKnown(l, buy, sell) && buy.outletId == sell.outletId ==> r.balances == l.balances)
            && (BothOutletsKnown(l, buy, sell) ==>
                  r.deliveries == l.deliveries + TradeDeliveries(callbacks, TradeEvent(buy, sell, quantity, price)))
            && (!BothOutletsKnown(l, buy, sell) ==> r.balances == l.balances && r.deliveries == l.deliveries)
  {
  }

  /** Between two different outlets, the settlement the engine uses moves
      the balances exactly as the source's stale-read writes do. */
  lemma SettleAsWrittenBetweenDistinctOutlets(l: Ledger, buy: Order, sell: Order, quantity: int, price: int,
                                              callbacks: seq<Callback>, now: Instant)
    requires BothOutletsKnown(l, buy, sell) && buy.outletId != sell.outletId
    ensures Settle(l, buy, sell, quantity, price, callbacks, now).balances
            == SettleBalancesAsWritten(l.balances, buy.outletId, sell.outletId, quantity * price)
  {
    AsWrittenAgreesBetweenDistinctOutlets(l.balances, buy.outletId, sell.outletId, quantity * price);
  }

  /** The fields of the new trade record the walk relies on. */
  lemma SettleRecord(l: Ledger, buy: Order, sell: Order, quantity: int, price: int,
                     callbacks: seq<Callback>, now: Instant)
    ensures var t := Settle(l, buy, sell, quantity, price, callbacks, now).trades[|l.trades|];
            && t.quantity == quantity && t.pricePerUnit == price
            && t.buyOrderId == buy.orderId && t.sellOrderId == sell.orderId
  {
  }

  // ---------------------------------------------------------------------
  // Matching
  // ---------------------------------------------------------------------

  /** Whether a resting order at `restingPrice` still crosses a taker on
      `side` limited at `limit`: an ask at or below a buyer's limit, a bid at
      or above a seller's limit. */
  predicate Crosses(side: OrderSide, restingPrice: int, limit: int) {
    match side
    case Buy => restingPrice <= limit
    case Sell => restingPrice >= limit
  }

  /** Order-store writes for the taker after a fill, with `left` still to
      fill: FILLED when nothing is left (the stored quantity is not
      rewritten), otherwise quantity `left` and PARTIALLY_FILLED. */
  function TakerUpdate(orders: map<string, Order>, taker: Order, left: int, now: Instant): (r: map<string, Order>)
    ensures r.Keys == orders.Keys
    ensures forall id :: id in orders && id != taker.orderId ==> r[id] == orders[id]
    ensures taker.orderId in orders ==>
              && Orders.SameOrderIdentity(orders[taker.orderId], r[taker.orderId])
              && (r[taker.orderId].status == Filled <==> left == 0)
              && (left != 0 ==> r[taker.orderId].status == PartiallyFilled && r[taker.orderId].quantity == left)
  {
    if left == 0 then Orders.WithStatus(orders, taker.orderId, Filled, now)
    else Orders.WithStatus(Orders.WithQuantity(orders, taker.orderId, left, now), taker.orderId, PartiallyFilled, now)
  }

  /** Order-store writes for the maker after a fill of `fill`. */
  function MakerUpdate(orders: map<string, Order>, maker: Order, fill: int, now: Instant): (r: map<string, Order>)
    ensures r.Keys == orders.Keys
    ensures forall id :: id in orders && id != maker.orderId ==> r[id] == orders[id]
    ensures maker.orderId in orders ==>
              && Orders.SameOrderIdentity(orders[maker.orderId], r[maker.orderId])
              && (r[maker.orderId].status == Filled <==> fill == maker.quantity)
              && (fill != maker.quantity ==>
                    r[maker.orderId].status == PartiallyFilled && r[maker.orderId].quantity == maker.quantity - fill)
  {
    if fill == maker.quantity then Orders.WithStatus(orders, maker.orderId, Filled, now)
    else Orders.WithStatus(Orders.WithQuantity(orders, maker.orderId, maker.quantity - fill, now),
                           maker.orderId, PartiallyFilled, now)
  }

  datatype Progress = Progress(ledger: Ledger, remaining: int)

  /** One fill of the taker against a matchable maker: the fill is
      min(remaining, maker quantity) at the maker's price, the trade is
      settled, then the taker and the maker are rewritten. */
  function Fill(l: Ledger, side: OrderSide, taker: Order, remaining: int, maker: Order,
                callbacks: seq<Callback>, now: Instant): (p: Progress)
    ensures p.ledger.orders.Keys == l.orders.Keys && p.ledger.balances.Keys == l.balances.Keys
  {
    var fill := Min(remaining, maker.quantity);
    var settled := Settle(l, if side == Buy then taker else maker, if side == Buy then maker else taker,
                          fill, maker.pricePerUnit, callbacks, now);
    Progress(settled.(orders := MakerUpdate(TakerUpdate(settled.orders, taker, remaining - fill, now), maker, fill, now)),
             remaining - fill)
  }

  /** One iteration of the walk, for a resting entry that still crosses:
      an entry whose order is missing or not matchable is skipped; otherwise
      the taker fills against it. */
  function Step(l: Ledger, side: OrderSide, taker: Order, remaining: int, entry: OrderBookEntry,
                callbacks: seq<Callback>, now: Instant): (p: Progress)
    ensures p.ledger.orders.Keys == l.orders.Keys && p.ledger.balances.Keys == l.balances.Keys
  {
    if entry.orderId !in l.orders || !IsMatchable(l.orders[entry.orderId].status) then
      Progress(l, remaining)
    else
      Fill(l, side, taker, remaining, l.orders[entry.orderId], callbacks, now)
  }

  /** `matchBuyOrder` (side Buy, over the asks) and `matchSellOrder` (side
      Sell, over the bids): visit the entries in book order, stopping once
      nothing remains or at the first entry that no longer crosses. */
  function Walk(l: Ledger, side: OrderSide, taker: Order, remaining: int, entries: seq<OrderBookEntry>,
                callbacks: seq<Callback>, now: Instant): Progress
    decreases |entries|
  {
    if |entries| == 0 || remaining <= 0 || !Crosses(side, entries[0].pricePerUnit, taker.pricePerUnit) then
      Progress(l, remaining)
    else
      var p := Step(l, side, taker, remaining, entries[0], callbacks, now);
      Walk(p.ledger, side, taker, p.remaining, entries[1..], callbacks, now)
  }

  /** The side of the book an order of `side` walks. */
  function OppositeEntries(book: OrderBook, side: OrderSide): seq<OrderBookEntry> {
    if side == Buy then book.sellOrders else book.buyOrders
  }

  /** `processOrder(order)`: dispatch on the side and walk the opposite side
      of the order's book; the walk starts from the order's own quantity. */
  function Process(l: Ledger, books: map<string, OrderBook>, order: Order,
                   callbacks: seq<Callback>, now: Instant): Ledger
  {
    Walk(l, order.side, order, order.quantity,
         OppositeEntries(Orders.BookIn(books, order.donutTypeId), order.side), callbacks, now).ledger
  }

  // ---------------------------------------------------------------------
  // Properties of the walk
  // ---------------------------------------------------------------------

  /** Every stored order sits under its own id, and matchable orders have
      something left to trade. */
  predicate StoreValid(orders: map<string, Order>) {
    forall id :: id in orders ==>
      orders[id].orderId == id && (IsMatchable(orders[id].status) ==> orders[id].quantity > 0)
  }

  /** What is left to trade of an order: a FILLED order keeps its last
      stored quantity, but nothing of it is left. */
  function Outstanding(o: Order): int {
    if o.status == Filled then 0 else o.quantity
  }

  /** The total quantity of a sequence of trades. */
  function FilledQuantity(trades: seq<Transaction>): int {
    if |trades| == 0 then 0 else trades[0].quantity + FilledQuantity(trades[1..])
  }

  lemma {:induction false} FilledQuantityAppend(a: seq<Transaction>, b: seq<Transaction>)
    ensures FilledQuantity(a + b) == FilledQuantity(a) + FilledQuantity(b)
  {
    if |a| > 0 {
      assert (a + b)[1..] == a[1..] + b;
      FilledQuantityAppend(a[1..], b);
    } else {
      assert a + b == b;
    }
  }

  /** The quantity traded after position `n` of `b`, when `b` extends `a`,
      splits at the end of `a`. */
  lemma FilledQuantityExtend(a: seq<Transaction>, b: seq<Transaction>, n: nat)
    requires n <= |a| <= |b| && b[..|a|] == a
    ensures FilledQuantity(b[n..]) == FilledQuantity(a[n..]) + FilledQuantity(b[|a|..])
  {
    assert b[n..] == a[n..] + b[|a|..];
    FilledQuantityAppend(a[n..], b[|a|..]);
  }

  /** `r` is `l` after appending trades and trade deliveries only, with the
      same orders (up to status, quantity and stamps) and the same outlets. */
  predicate Grows(l: Ledger, r: Ledger) {
    && |r.trades| >= |l.trades| && r.trades[..|l.trades|] == l.trades
    && |r.deliveries| >= |l.deliveries| && r.deliveries[..|l.deliveries|] == l.deliveries
    && (forall i :: |l.deliveries| <= i < |r.deliveries| ==> r.deliveries[i].TradeDelivery?)
    && r.orders.Keys == l.orders.Keys
    && (forall id :: id in l.orders ==> Orders.SameOrderIdentity(l.orders[id], r.orders[id]))
    && r.balances.Keys == l.balances.Keys
  }

  lemma GrowsTransitive(a: Ledger, b: Ledger, c: Ledger)
    requires Grows(a, b) && Grows(b, c)
    ensures Grows(a, c)
  {
    assert c.trades[..|a.trades|] == c.trades[..|b.trades|][..|a.trades|];
    assert c.deliveries[..|a.deliveries|] == c.deliveries[..|b.deliveries|][..|a.deliveries|];
    forall i | |a.deliveries| <= i < |c.deliveries|
      ensures c.deliveries[i].TradeDelivery?
    {
      if i < |b.deliveries| {
        assert c.deliveries[i] == c.deliveries[..|b.deliveries|][i];
      }
    }
  }

  /** Settling a trade only appends; it keeps the store and every outlet. */
  lemma SettleGrows(l: Ledger, buy: Order, sell: Order, quantity: int, price: int,
                    callbacks: seq<Callback>, now: Instant)
    ensures Grows(l, Settle(l, buy, sell, quantity, price, callbacks, now))
  {
    var r := Settle(l, buy, sell, quantity, price, callbacks, now);
    if BothOutletsKnown(l, buy, sell) {
      var added := TradeDeliveries(callbacks, TradeEvent(buy, sell, quantity, price));
      assert r.deliveries == l.deliveries + added;
      forall i | |l.deliveries| <= i < |r.deliveries|
        ensures r.deliveries[i].TradeDelivery?
      {
        assert r.deliveries[i] == added[i - |l.deliveries|];
      }
    }
  }

  /** Rewriting the taker and then the maker keeps every order's identity. */
  lemma UpdatesKeepIdentity(orders: map<string, Order>, taker: Order, left: int, maker: Order, fill: int,
                            now: Instant)
    ensures MakerUpdate(TakerUpdate(orders, taker, left, now), maker, fill, now).Keys == orders.Keys
    ensures forall id :: id in orders ==>
              Orders.SameOrderIdentity(orders[id], MakerUpdate(TakerUpdate(orders, taker, left, now), maker, fill, now)[id])
  {
    var o1 := TakerUpdate(orders, taker, left, now);
    var o2 := MakerUpdate(o1, maker, fill, now);
    forall id | id in orders
      ensures Orders.SameOrderIdentity(orders[id], o2[id])
    {
      assert Orders.SameOrderIdentity(orders[id], o1[id]);
      assert Orders.SameOrderIdentity(o1[id], o2[id]);
    }
  }

  /** A fill only appends; it keeps every order's identity and every outlet. */
  lemma FillGrows(l: Ledger, side: OrderSide, taker: Order, remaining: int, maker: Order,
                  callbacks: seq<Callback>, now: Instant)
    ensures Grows(l, Fill(l, side, taker, remaining, maker, callbacks, now).ledger)
  {
    var fill := Min(remaining, maker.quantity);
    var buy := if side == Buy then taker else maker;
    var sell := if side == Buy then maker else taker;
    var settled := Settle(l, buy, sell, fill, maker.pricePerUnit, callbacks, now);
    FillParts(l, side, taker, remaining, maker, callbacks, now, fill, settled);
    SettleGrows(l, buy, sell, fill, maker.pricePerUnit, callbacks, now);
    UpdatesKeepIdentity(settled.orders, taker, remaining - fill, maker, fill, now);
  }

  /** A step only appends; it keeps every order's identity and every outlet. */
  lemma StepGrows(l: Ledger, side: OrderSide, taker: Order, remaining: int, entry: OrderBookEntry,
                  callbacks: seq<Callback>, now: Instant)
    ensures Grows(l, Step(l, side, taker, remaining, entry, callbacks, now).ledger)
  {
    if entry.orderId in l.orders && IsMatchable(l.orders[entry.orderId].status) {
      FillGrows(l, side, taker, remaining, l.orders[entry.orderId], callbacks, now);
    }
  }

  /** A walk only appends; it keeps every order's identity and every outlet. */
  lemma {:induction false} WalkGrows(l: Ledger, side: OrderSide, taker: Order, remaining: int,
                                     entries: seq<OrderBookEntry>, callbacks: seq<Callback>, now: Instant)
    ensures Grows(l, Walk(l, side, taker, remaining, entries, callbacks, now).ledger)
    decreases |entries|
  {
    if |entries| > 0 && remaining > 0 && Crosses(side, entries[0].pricePerUnit, taker.pricePerUnit) {
      var p := Step(l, side, taker, remaining, entries[0], callbacks, now);
      StepGrows(l, side, taker, remaining, entries[0], callbacks, now);
      WalkGrows(p.ledger, side, taker, p.remaining, entries[1..], callbacks, now);
      GrowsTransitive(l, p.ledger, Walk(p.ledger, side, taker, p.remaining, entries[1..], callbacks, now).ledger);
    }
  }

  /** A resting entry that is absent from the store, or whose order is not
      ACTIVE or PARTIALLY_FILLED, is skipped: no trade and no change. */
  lemma StepSkipsUnmatchable(l: Ledger, side: OrderSide, taker: Order, remaining: int, entry: OrderBookEntry,
                             callbacks: seq<Callback>, now: Instant)
    requires entry.orderId !in l.orders || !IsMatchable(l.orders[entry.orderId].status)
    ensures Step(l, side, taker, remaining, entry, callbacks, now) == Progress(l, remaining)
  {
  }

  /** One fill against a matchable maker, for a taker with `remaining > 0`.
      The fill is min(remaining, maker quantity) at the maker's price, with
      the taker on its own side of the record, and it strictly reduces what
      remains. Afterwards the taker is FILLED exactly when nothing remains and
      otherwise has the remainder outstanding; the maker is FILLED exactly
      when the fill took its whole quantity and otherwise has exactly the fill
      less outstanding. So taker and maker each lose exactly the fill. */
  lemma StepFill(l: Ledger, side: OrderSide, taker: Order, remaining: int, entry: OrderBookEntry,
                 callbacks: seq<Callback>, now: Instant)
    requires StoreValid(l.orders) && remaining > 0
    requires entry.orderId in l.orders && IsMatchable(l.orders[entry.orderId].status)
    requires entry.orderId != taker.orderId
    ensures var maker := l.orders[entry.orderId];
            var p := Step(l, side, taker, remaining, entry, callbacks, now);
            var fill := remaining - p.remaining;
            && fill == Min(remaining, maker.quantity) && 0 < fill <= remaining
            && |p.ledger.trades| == |l.trades| + 1
            && p.ledger.trades[|l.trades|].quantity == fill
            && p.ledger.trades[|l.trades|].pricePerUnit == maker.pricePerUnit
            && (side == Buy ==> p.ledger.trades[|l.trades|].sellOrderId == maker.orderId
                                && p.ledger.trades[|l.trades|].buyOrderId == taker.orderId)
            && (side == Sell ==> p.ledger.trades[|l.trades|].buyOrderId == maker.orderId
                                 && p.ledger.trades[|l.trades|].sellOrderId == taker.orderId)
            && (p.ledger.orders[maker.orderId].status == Filled <==> fill == maker.quantity)
            && Outstanding(p.ledger.orders[maker.orderId]) == Outstanding(maker) - fill
            && (taker.orderId in l.orders ==>
                  && (p.ledger.orders[taker.orderId].status == Filled <==> p.remaining == 0)
                  && Outstanding(p.ledger.orders[taker.orderId]) == p.remaining)
  {
    var maker := l.orders[entry.orderId];
    var fill := Min(remaining, maker.quantity);
    var buy := if side == Buy then taker else maker;
    var sell := if side == Buy then maker else taker;
    var settled := Settle(l, buy, sell, fill, maker.pricePerUnit, callbacks, now);
    var o1 := TakerUpdate(settled.orders, taker, remaining - fill, now);
    assert Step(l, side, taker, remaining, entry, callbacks, now) == Fill(l, side, taker, remaining, maker, callbacks, now);
    FillParts(l, side, taker, remaining, maker, callbacks, now, fill, settled);
    SettleRecord(l, buy, sell, fill, maker.pricePerUnit, callbacks, now);
    assert o1[maker.orderId] == maker;
    if taker.orderId in l.orders {
      assert MakerUpdate(o1, maker, fill, now)[taker.orderId] == o1[taker.orderId];
    }
  }

  /** Rewriting the taker with `left >= 0` still to fill keeps the store
      valid. */
  lemma TakerUpdateKeepsStoreValid(orders: map<string, Order>, taker: Order, left: int, now: Instant)
    requires StoreValid(orders) && left >= 0
    ensures StoreValid(TakerUpdate(orders, taker, left, now))
  {
    var r := TakerUpdate(orders, taker, left, now);
    forall id | id in r
      ensures r[id].orderId == id && (IsMatchable(r[id].status) ==> r[id].quantity > 0)
    {
      if id != taker.orderId { assert r[id] == orders[id]; }
    }
  }

  /** Rewriting the maker after a fill of at most its quantity keeps the
      store valid. */
  lemma MakerUpdateKeepsStoreValid(orders: map<string, Order>, maker: Order, fill: int, now: Instant)
    requires StoreValid(orders) && 0 <= fill <= maker.quantity
    ensures StoreValid(MakerUpdate(orders, maker, fill, now))
  {
    var r := MakerUpdate(orders, maker, fill, now);
    forall id | id in r
      ensures r[id].orderId == id && (IsMatchable(r[id].status) ==> r[id].quantity > 0)
    {
      if id != maker.orderId { assert r[id] == orders[id]; }
    }
  }

  /** The parts of a fill: the orders are the settled store with the taker
      and then the maker rewritten, the trades are the settled ones, and the
      remainder drops by the fill. */
  lemma FillParts(l: Ledger, side: OrderSide, taker: Order, remaining: int, maker: Order,
                  callbacks: seq<Callback>, now: Instant, fill: int, settled: Ledger)
    requires fill == Min(remaining, maker.quantity)
    requires settled == Settle(l, if side == Buy then taker else maker, if side == Buy then maker else taker,
                               fill, maker.pricePerUnit, callbacks, now)
    ensures Fill(l, side, taker, remaining, maker, callbacks, now).ledger.orders
            == MakerUpdate(TakerUpdate(settled.orders, taker, remaining - fill, now), maker, fill, now)
    ensures Fill(l, side, taker, remaining, maker, callbacks, now).ledger.trades == settled.trades
    ensures Fill(l, side, taker, remaining, maker, callbacks, now).ledger.deliveries == settled.deliveries
    ensures Fill(l, side, taker, remaining, maker, callbacks, now).ledger.balances == settled.balances
    ensures Fill(l, side, taker, remaining, maker, callbacks, now).remaining == remaining - fill
  {
  }

  /** A fill of a taker with `remaining > 0` against a matchable maker
      keeps the store valid and records exactly one trade whose quantity is
      the (positive) drop in what remains. */
  lemma FillConserves(l: Ledger, side: OrderSide, taker: Order, remaining: int, maker: Order,
                      callbacks: seq<Callback>, now: Instant)
    requires StoreValid(l.orders) && remaining > 0
    requires maker.orderId in l.orders && l.orders[maker.orderId] == maker && IsMatchable(maker.status)
    ensures StoreValid(Fill(l, side, taker, remaining, maker, callbacks, now).ledger.orders)
    ensures |Fill(l, side, taker, remaining, maker, callbacks, now).ledger.trades| == |l.trades| + 1
    ensures 0 <= Fill(l, side, taker, remaining, maker, callbacks, now).remaining < remaining
    ensures Fill(l, side, taker, remaining, maker, callbacks, now).ledger.trades[|l.trades|].quantity
            == remaining - Fill(l, side, taker, remaining, maker, callbacks, now).remaining
  {
    var fill := Min(remaining, maker.quantity);
    var buy := if side == Buy then taker else maker;
    var sell := if side == Buy then maker else taker;
    var settled := Settle(l, buy, sell, fill, maker.pricePerUnit, callbacks, now);
    var o1 := TakerUpdate(settled.orders, taker, remaining - fill, now);
    FillParts(l, side, taker, remaining, maker, callbacks, now, fill, settled);
    assert StoreValid(MakerUpdate(o1, maker, fill, now)) by {
      TakerUpdateKeepsStoreValid(settled.orders, taker, remaining - fill, now);
      MakerUpdateKeepsStoreValid(o1, maker, fill, now);
    }
    assert settled.trades[|l.trades|].quantity == fill by {
      SettleRecord(l, buy, sell, fill, maker.pricePerUnit, callbacks, now);
    }
  }

  /** A step with `remaining > 0` keeps the store valid and either changes
      nothing or records exactly one trade whose quantity is the (positive)
      drop in what remains. */
  lemma StepConserves(l: Ledger, side: OrderSide, taker: Order, remaining: int, entry: OrderBookEntry,
                      callbacks: seq<Callback>, now: Instant)
    requires StoreValid(l.orders) && remaining > 0
    ensures var p := Step(l, side, taker, remaining, entry, callbacks, now);
            && StoreValid(p.ledger.orders)
            && 0 <= p.remaining <= remaining
            && (|p.ledger.trades| == |l.trades| ==> p == Progress(l, remaining))
            && (|p.ledger.trades| != |l.trades| ==>
                  && |p.ledger.trades| == |l.trades| + 1
                  && p.ledger.trades[|l.trades|].quantity == remaining - p.remaining > 0)
            && |p.ledger.trades| >= |l.trades|
            && FilledQuantity(p.ledger.trades[|l.trades|..]) == remaining - p.remaining
  {
    var p := Step(l, side, taker, remaining, entry, callbacks, now);
    if entry.orderId in l.orders && IsMatchable(l.orders[entry.orderId].status) {
      var maker := l.orders[entry.orderId];
      assert p == Fill(l, side, taker, remaining, maker, callbacks, now);
      FillConserves(l, side, taker, remaining, maker, callbacks, now);
      assert p.ledger.trades[|l.trades|..] == [p.ledger.trades[|l.trades|]];
    } else {
      assert l.trades[|l.trades|..] == [];
    }
  }

  /** The walk terminates with 0 <= remaining <= the quantity it started
      with, keeps the store valid, and the new trades add up to exactly what
      it filled; so the taker never trades more than it asked for. */
  lemma {:induction false} WalkConserves(l: Ledger, side: OrderSide, taker: Order, remaining: int,
                                         entries: seq<OrderBookEntry>, callbacks: seq<Callback>, now: Instant)
    requires StoreValid(l.orders) && remaining >= 0
    ensures var p := Walk(l, side, taker, remaining, entries, callbacks, now);
            && 0 <= p.remaining <= remaining
            && StoreValid(p.ledger.orders)
            && |p.ledger.trades| >= |l.trades|
            && FilledQuantity(p.ledger.trades[|l.trades|..]) == remaining - p.remaining
    decreases |entries|
  {
    if |entries| == 0 || remaining <= 0 || !Crosses(side, entries[0].pricePerUnit, taker.pricePerUnit) {
      assert l.trades[|l.trades|..] == [];
    } else {
      var s := Step(l, side, taker, remaining, entries[0], callbacks, now);
      StepConserves(l, side, taker, remaining, entries[0], callbacks, now);
      var p := Walk(s.ledger, side, taker, s.remaining, entries[1..], callbacks, now);
      assert Walk(l, side, taker, remaining, entries, callbacks, now) == p;
      WalkConserves(s.ledger, side, taker, s.remaining, entries[1..], callbacks, now);
      WalkGrows(s.ledger, side, taker, s.remaining, entries[1..], callbacks, now);
      FilledQuantityExtend(s.ledger.trades, p.ledger.trades, |l.trades|);
    }
  }

  /** Every book entry's price is the price of the stored order it names. */
  predicate BookConsistent(orders: map<string, Order>, entries: seq<OrderBookEntry>) {
    forall i :: 0 <= i < |entries| && entries[i].orderId in orders ==>
      orders[entries[i].orderId].pricePerUnit == entries[i].pricePerUnit
  }

  /** When the book agrees with the store on prices, every trade of a walk
      is at a price that crosses the taker's limit (at or below a buyer's,
      at or above a seller's), and the taker is on its own side of every
      trade record. */
  lemma {:induction false} WalkPriceBound(l: Ledger, side: OrderSide, taker: Order, remaining: int,
                                          entries: seq<OrderBookEntry>, callbacks: seq<Callback>, now: Instant)
    requires BookConsistent(l.orders, entries)
    ensures |Walk(l, side, taker, remaining, entries, callbacks, now).ledger.trades| >= |l.trades|
    ensures TakerTradesCross(Walk(l, side, taker, remaining, entries, callbacks, now).ledger.trades,
                             |l.trades|, side, taker)
    decreases |entries|
  {
    var p := Walk(l, side, taker, remaining, entries, callbacks, now);
    WalkGrows(l, side, taker, remaining, entries, callbacks, now);
    if |entries| > 0 && remaining > 0 && Crosses(side, entries[0].pricePerUnit, taker.pricePerUnit) {
      var s := Step(l, side, taker, remaining, entries[0], callbacks, now);
      StepGrows(l, side, taker, remaining, entries[0], callbacks, now);
      StepTakerTrades(l, side, taker, remaining, entries[0], callbacks, now);
      BookConsistentTail(l.orders, s.ledger.orders, entries);
      assert p == Walk(s.ledger, side, taker, s.remaining, entries[1..], callbacks, now);
      WalkPriceBound(s.ledger, side, taker, s.remaining, entries[1..], callbacks, now);
      WalkGrows(s.ledger, side, taker, s.remaining, entries[1..], callbacks, now);
      TakerTradesCrossExtend(s.ledger.trades, p.ledger.trades, |l.trades|, side, taker);
    }
  }

  /** A step on an entry that crosses the taker's limit, at the price the
      store holds for it, adds only taker trades. */
  lemma StepTakerTrades(l: Ledger, side: OrderSide, taker: Order, remaining: int, entry: OrderBookEntry,
                        callbacks: seq<Callback>, now: Instant)
    requires Crosses(side, entry.pricePerUnit, taker.pricePerUnit)
    requires entry.orderId in l.orders ==> l.orders[entry.orderId].pricePerUnit == entry.pricePerUnit
    ensures TakerTradesCross(Step(l, side, taker, remaining, entry, callbacks, now).ledger.trades,
                             |l.trades|, side, taker)
  {
    StepTrade(l, side, taker, remaining, entry, callbacks, now);
  }

  /** Dropping the first entry keeps the book consistent with a store that
      has the same keys and the same order prices. */
  lemma BookConsistentTail(orders: map<string, Order>, orders': map<string, Order>, entries: seq<OrderBookEntry>)
    requires BookConsistent(orders, entries) && |entries| > 0
    requires orders'.Keys == orders.Keys
    requires forall id :: id in orders ==> Orders.SameOrderIdentity(orders[id], orders'[id])
    ensures BookConsistent(orders', entries[1..])
  {
    forall i | 0 <= i < |entries[1..]| && entries[1..][i].orderId in orders'
      ensures orders'[entries[1..][i].orderId].pricePerUnit == entries[1..][i].pricePerUnit
    {
      assert entries[1..][i] == entries[i + 1];
    }
  }

  /** Taker trades from `from` on in a prefix, and from the prefix's end on
      in the extension, make taker trades from `from` on in the extension. */
  lemma TakerTradesCrossExtend(a: seq<Transaction>, b: seq<Transaction>, from: nat, side: OrderSide, taker: Order)
    requires from <= |a| <= |b| && b[..|a|] == a
    requires TakerTradesCross(a, from, side, taker) && TakerTradesCross(b, |a|, side, taker)
    ensures TakerTradesCross(b, from, side, taker)
  {
    forall i | from <= i < |b|
      ensures TakerTrade(b[i], side, taker)
    {
      if i < |a| {
        assert b[i] == b[..|a|][i];
      }
    }
  }

  /** A trade crossing the taker's limit, with the taker on its own side. */
  predicate TakerTrade(t: Transaction, side: OrderSide, taker: Order) {
    && Crosses(side, t.pricePerUnit, taker.pricePerUnit)
    && (side == Buy ==> t.buyOrderId == taker.orderId)
    && (side == Sell ==> t.sellOrderId == taker.orderId)
  }

  /** Every trade from position `from` on is a taker trade. */
  predicate TakerTradesCross(trades: seq<Transaction>, from: nat, side: OrderSide, taker: Order) {
    forall i :: from <= i < |trades| ==> TakerTrade(trades[i], side, taker)
  }

  /** A step that trades records one trade at the resting order's price,
      with the taker on its own side. */
  lemma StepTrade(l: Ledger, side: OrderSide, taker: Order, remaining: int, entry: OrderBookEntry,
                  callbacks: seq<Callback>, now: Instant)
    ensures |Step(l, side, taker, remaining, entry, callbacks, now).ledger.trades| > |l.trades| ==>
              && entry.orderId in l.orders
              && |Step(l, side, taker, remaining, entry, callbacks, now).ledger.trades| == |l.trades| + 1
              && Step(l, side, taker, remaining, entry, callbacks, now).ledger.trades[|l.trades|].pricePerUnit
                 == l.orders[entry.orderId].pricePerUnit
              && (side == Buy ==>
                    Step(l, side, taker, remaining, entry, callbacks, now).ledger.trades[|l.trades|].buyOrderId
                    == taker.orderId)
              && (side == Sell ==>
                    Step(l, side, taker, remaining, entry, callbacks, now).ledger.trades[|l.trades|].sellOrderId
                    == taker.orderId)
  {
    if entry.orderId in l.orders && IsMatchable(l.orders[entry.orderId].status) {
      var maker := l.orders[entry.orderId];
      var fill := Min(remaining, maker.quantity);
      if side == Buy {
        SettleRecord(l, taker, maker, fill, maker.pricePerUnit, callbacks, now);
      } else {
        SettleRecord(l, maker, taker, fill, maker.pricePerUnit, callbacks, now);
      }
    }
  }

  /** The walk never looks past the first entry that no longer crosses:
      whatever follows it has no effect. */
  lemma {:induction false} WalkStopsAtNonCrossing(l: Ledger, side: OrderSide, taker: Order, remaining: int,
                                                  entries: seq<OrderBookEntry>, k: nat,
                                                  callbacks: seq<Callback>, now: Instant)
    requires k < |entries| && !Crosses(side, entries[k].pricePerUnit, taker.pricePerUnit)
    ensures Walk(l, side, taker, remaining, entries, callbacks, now)
         == Walk(l, side, taker, remaining, entries[..k], callbacks, now)
    decreases k
  {
    if k > 0 && remaining > 0 && Crosses(side, entries[0].pricePerUnit, taker.pricePerUnit) {
      var s := Step(l, side, taker, remaining, entries[0], callbacks, now);
      assert entries[..k][0] == entries[0];
      assert entries[..k][1..] == entries[1..][..k - 1];
      WalkStopsAtNonCrossing(s.ledger, side, taker, s.remaining, entries[1..], k - 1, callbacks, now);
    }
  }

  /** In a book kept best first, once an entry does not cross neither does
      any later one, so stopping there loses no match. */
  lemma EarlyExitIsSound(book: OrderBook, side: OrderSide, limit: int, k: nat)
    requires WellOrdered(book)
    requires k < |OppositeEntries(book, side)|
    requires !Crosses(side, OppositeEntries(book, side)[k].pricePerUnit, limit)
    ensures forall j :: k <= j < |OppositeEntries(book, side)| ==>
              !Crosses(side, OppositeEntries(book, side)[j].pricePerUnit, limit)
  {
    var es := OppositeEntries(book, side);
    forall j | k <= j < |es|
      ensures !Crosses(side, es[j].pricePerUnit, limit)
    {
      if j > k {
        if side == Buy { assert AsksBestFirst(book.sellOrders); } else { assert BidsBestFirst(book.buyOrders); }
      }
    }
  }

  /** Only the taker's outlet and the outlets of the orders the entries name
      can see their balance change. */
  lemma {:induction false} WalkBalancesFrame(l: Ledger, side: OrderSide, taker: Order, remaining: int,
                                             entries: seq<OrderBookEntry>, callbacks: seq<Callback>,
                                             now: Instant, outlet: string)
    requires outlet in l.balances && outlet != taker.outletId
    requires forall i :: 0 <= i < |entries| && entries[i].orderId in l.orders ==>
               l.orders[entries[i].orderId].outletId != outlet
    ensures var p := Walk(l, side, taker, remaining, entries, callbacks, now);
            outlet in p.ledger.balances && p.ledger.balances[outlet] == l.balances[outlet]
    decreases |entries|
  {
    WalkGrows(l, side, taker, remaining, entries, callbacks, now);
    if |entries| > 0 && remaining > 0 && Crosses(side, entries[0].pricePerUnit, taker.pricePerUnit) {
      var s := Step(l, side, taker, remaining, entries[0], callbacks, now);
      StepGrows(l, side, taker, remaining, entries[0], callbacks, now);
      assert s.ledger.balances[outlet] == l.balances[outlet];
      forall i | 0 <= i < |entries[1..]| && entries[1..][i].orderId in s.ledger.orders
        ensures s.ledger.orders[entries[1..][i].orderId].outletId != outlet
      {
        assert entries[1..][i] == entries[i + 1];
      }
      WalkBalancesFrame(s.ledger, side, taker, s.remaining, entries[1..], callbacks, now, outlet);
    }
  }

  /** With this revision's stubbed `getOrderBook`, which returns an empty
      book for every type, processing an order changes nothing. */
  lemma ProcessAgainstStubBook(l: Ledger, books: map<string, OrderBook>, order: Order,
                               callbacks: seq<Callback>, now: Instant)
    requires forall t :: Orders.BookIn(books, t) == Orders.StubGetOrderBook(t)
    ensures Process(l, books, order, callbacks, now) == l
  {
    assert Orders.BookIn(books, order.donutTypeId) == Orders.StubGetOrderBook(order.donutTypeId);
    Orders.StubIsEmptyView(order.donutTypeId);
  }

  // ---------------------------------------------------------------------
  // Sweep
  // ---------------------------------------------------------------------

  /** The donut types the sweep visits: a fixed list in this revision. */
  const SweepDonutTypes: seq<string> := ["glazed", "chocolate", "jelly"]

  /** The source tag a sweep failure is reported with. */
  const SweepErrorSource: string := "MatchingEngine.sweep"

  /** A failure of the repository while the sweep reads the book of the
      `atType`-th donut type, with its message. */
  datatype SweepFault = SweepFault(atType: nat, message: string)

  /** The sweep acts on a book when both sides are non-empty, the best bid
      is at or above the best ask, and the best bid's order is matchable. */
  predicate SweepTriggers(book: OrderBook, orders: map<string, Order>) {
    && |book.sellOrders| > 0 && |book.buyOrders| > 0
    && book.buyOrders[0].pricePerUnit >= book.sellOrders[0].pricePerUnit
    && book.buyOrders[0].orderId in orders
    && IsMatchable(orders[book.buyOrders[0].orderId].status)
  }

  /** The sweep of one donut type: at most one buy-side match, for the
      stored order of the best bid. */
  function SweepBook(l: Ledger, books: map<string, OrderBook>, t: string,
                     callbacks: seq<Callback>, now: Instant): Ledger
  {
    var book := Orders.BookIn(books, t);
    if SweepTriggers(book, l.orders) then
      var bid := l.orders[book.buyOrders[0].orderId];
      Walk(l, Buy, bid, bid.quantity, Orders.BookIn(books, bid.donutTypeId).sellOrders, callbacks, now).ledger
    else
      l
  }

  /** The sweep from the `i`-th donut type on. A fault ends the sweep with
      one report to the error callbacks; the sweep itself returns normally. */
  function SweepFrom(l: Ledger, books: map<string, OrderBook>, types: seq<string>, i: nat,
                     fault: Option<SweepFault>, callbacks: seq<Callback>, errorCallbacks: seq<Callback>,
                     now: Instant): Ledger
    decreases |types| - i
  {
    if i >= |types| then l
    else if fault.Some? && fault.value.atType == i then
      l.(deliveries := l.deliveries + ErrorDeliveries(errorCallbacks, fault.value.message, SweepErrorSource))
    else
      SweepFrom(SweepBook(l, books, types[i], callbacks, now), books, types, i + 1, fault,
                callbacks, errorCallbacks, now)
  }

  /** A book that does not trigger the sweep is left alone. */
  lemma SweepBookIdle(l: Ledger, books: map<string, OrderBook>, t: string, callbacks: seq<Callback>, now: Instant)
    requires !SweepTriggers(Orders.BookIn(books, t), l.orders)
    ensures SweepBook(l, books, t, callbacks, now) == l
  {
  }

  /** The deliveries a sweep from the `i`-th type on ends with: one report
      of the fault to each error callback when the fault lies ahead, none
      otherwise. */
  function SweepErrors(types: seq<string>, i: nat, fault: Option<SweepFault>, errorCallbacks: seq<Callback>)
    : seq<Delivery>
  {
    if fault.Some? && i <= fault.value.atType < |types| then
      ErrorDeliveries(errorCallbacks, fault.value.message, SweepErrorSource)
    else []
  }

  /** `after` is `before` followed by trade deliveries only and then by
      exactly `errors`. */
  predicate TradesThenErrors(before: seq<Delivery>, after: seq<Delivery>, errors: seq<Delivery>) {
    && |after| >= |before| + |errors|
    && after[..|before|] == before
    && (forall j :: |before| <= j < |after| - |errors| ==> after[j].TradeDelivery?)
    && after[|after| - |errors|..] == errors
  }

  /** Trade deliveries in front of a trades-then-errors tail still make one. */
  lemma TradesThenErrorsExtend(a: seq<Delivery>, b: seq<Delivery>, c: seq<Delivery>, errors: seq<Delivery>)
    requires |b| >= |a| && b[..|a|] == a && (forall j :: |a| <= j < |b| ==> b[j].TradeDelivery?)
    requires TradesThenErrors(b, c, errors)
    ensures TradesThenErrors(a, c, errors)
  {
    assert c[..|a|] == c[..|b|][..|a|];
    forall j | |a| <= j < |c| - |errors|
      ensures c[j].TradeDelivery?
    {
      if j < |b| {
        assert c[j] == c[..|b|][j];
      }
    }
  }

  /** The sweep of one book only appends; it keeps the store and the outlets. */
  lemma SweepBookGrows(l: Ledger, books: map<string, OrderBook>, t: string, callbacks: seq<Callback>, now: Instant)
    ensures Grows(l, SweepBook(l, books, t, callbacks, now))
  {
    var book := Orders.BookIn(books, t);
    if SweepTriggers(book, l.orders) {
      var bid := l.orders[book.buyOrders[0].orderId];
      WalkGrows(l, Buy, bid, bid.quantity, Orders.BookIn(books, bid.donutTypeId).sellOrders, callbacks, now);
    }
  }

  /** A sweep that meets a fault reports it exactly once: its new deliveries
      are trade deliveries followed by one delivery of the fault to each
      error callback, in registration order, tagged with the sweep's source.
      A sweep without a fault makes trade deliveries only. */
  lemma {:induction false} SweepReportsFaultOnce(l: Ledger, books: map<string, OrderBook>, types: seq<string>, i: nat,
                                                 fault: Option<SweepFault>, callbacks: seq<Callback>,
                                                 errorCallbacks: seq<Callback>, now: Instant)
    ensures TradesThenErrors(l.deliveries, SweepFrom(l, books, types, i, fault, callbacks, errorCallbacks, now).deliveries,
                             SweepErrors(types, i, fault, errorCallbacks))
    decreases |types| - i
  {
    var r := SweepFrom(l, books, types, i, fault, callbacks, errorCallbacks, now);
    if i >= |types| {
      assert r.deliveries[..|l.deliveries|] == l.deliveries;
    } else if fault.Some? && fault.value.atType == i {
      assert r.deliveries[..|l.deliveries|] == l.deliveries;
    } else {
      var s := SweepBook(l, books, types[i], callbacks, now);
      SweepBookGrows(l, books, types[i], callbacks, now);
      SweepReportsFaultOnce(s, books, types, i + 1, fault, callbacks, errorCallbacks, now);
      assert SweepErrors(types, i + 1, fault, errorCallbacks) == SweepErrors(types, i, fault, errorCallbacks);
      TradesThenErrorsExtend(l.deliveries, s.deliveries, r.deliveries, SweepErrors(types, i, fault, errorCallbacks));
    }
  }

  // ---------------------------------------------------------------------
  // The engine object
  // ---------------------------------------------------------------------

  class MatchingEngine {
    /** The order repository the engine reads books from and writes orders to. */
    const orderRepo: Orders.OrderRepository
    /** Outlet balances in cents, keyed by outlet id; an absent key is an
        outlet the outlet repository does not find. */
    var balances: map<string, int>
    var trades: seq<Transaction>
    var deliveries: seq<Delivery>
    var tradeCallbacks: seq<Callback>
    var errorCallbacks: seq<Callback>
    var isSweeping: bool
    var shouldStop: bool
    /** Whether a sweep timer is armed and has not yet fired. */
    var sweepPending: bool

    constructor (orderRepo: Orders.OrderRepository, balances: map<string, int>)
      ensures this.orderRepo == orderRepo && this.balances == balances
      ensures trades == [] && deliveries == [] && tradeCallbacks == [] && errorCallbacks == []
      ensures !isSweeping && !shouldStop && !sweepPending
    {
      this.orderRepo := orderRepo;
      this.balances := balances;
      trades := [];
      deliveries := [];
      tradeCallbacks := [];
      errorCallbacks := [];
      isSweeping := false;
      shouldStop := false;
      sweepPending := false;
    }

    function Snapshot(): Ledger
      reads this, orderRepo
    {
      Ledger(orderRepo.orders, balances, trades, deliveries)
    }

    method OnTradeExecuted(callback: Callback)
      modifies this`tradeCallbacks
      ensures tradeCallbacks == old(tradeCallbacks) + [callback]
    {
      tradeCallbacks := tradeCallbacks + [callback];
    }

    method OnError(callback: Callback)
      modifies this`errorCallbacks
      ensures errorCallbacks == old(errorCallbacks) + [callback]
    {
      errorCallbacks := errorCallbacks + [callback];
    }

    /** Calls every error callback in registration order; one that throws
        does not stop the rest. */
    method EmitError(message: string, source: string)
      modifies this`deliveries
      ensures deliveries == old(deliveries) + ErrorDeliveries(errorCallbacks, message, source)
    {
      var i := 0;
      while i < |errorCallbacks|
        invariant 0 <= i <= |errorCallbacks|
        invariant deliveries == old(deliveries) + ErrorDeliveries(errorCallbacks[..i], message, source)
      {
        var callback := errorCallbacks[i];
        // A throwing callback is caught here and the loop goes on.
        deliveries := deliveries + [ErrorDelivery(callback, message, source)];
        i := i + 1;
      }
      assert errorCallbacks[..i] == errorCallbacks;
    }

    /** Calls every trade callback in registration order; one that throws
        does not stop the rest. */
    method EmitTrade(event: TradeExecutedEvent)
      modifies this`deliveries
      ensures deliveries == old(deliveries) + TradeDeliveries(tradeCallbacks, event)
    {
      var i := 0;
      while i < |tradeCallbacks|
        invariant 0 <= i <= |tradeCallbacks|
        invariant deliveries == old(deliveries) + TradeDeliveries(tradeCallbacks[..i], event)
      {
        var callback := tradeCallbacks[i];
        deliveries := deliveries + [TradeDelivery(callback, event)];
        i := i + 1;
      }
      assert tradeCallbacks[..i] == tradeCallbacks;
    }

    /** `executeTrade`: records the trade, then moves the money and emits the
        event when both outlets exist. The seller's leg reads the balance the
        buyer's leg left (see SettleBalancesAsWritten for the source's
        stale read). */
    method ExecuteTrade(buyOrder: Order, sellOrder: Order, quantity: int, price: int, now: Instant)
      modifies this`balances, this`trades, this`deliveries
      ensures Snapshot() == Settle(old(Snapshot()), buyOrder, sellOrder, quantity, price, tradeCallbacks, now)
    {
      var totalAmount := quantity * price;
      trades := trades + [TradeRecord(|trades|, buyOrder, sellOrder, quantity, price, now)];
      var buyerFound := buyOrder.outletId in balances;
      var sellerFound := sellOrder.outletId in balances;
      if buyerFound && sellerFound {
        balances := balances[buyOrder.outletId := balances[buyOrder.outletId] - totalAmount];
        balances := balances[sellOrder.outletId := balances[sellOrder.outletId] + totalAmount];
        EmitTrade(TradeEvent(buyOrder, sellOrder, quantity, price));
      }
    }

    /** The order-store writes for the taker after a fill. */
    method RewriteTaker(taker: Order, left: int, now: Instant)
      modifies orderRepo`orders
      ensures orderRepo.orders == TakerUpdate(old(orderRepo.orders), taker, left, now)
    {
      if left == 0 {
        orderRepo.UpdateStatus(taker.orderId, Filled, now);
      } else {
        orderRepo.UpdateQuantity(taker.orderId, left, now);
        orderRepo.UpdateStatus(taker.orderId, PartiallyFilled, now);
      }
    }

    /** The order-store writes for the maker after a fill. */
    method RewriteMaker(maker: Order, fill: int, now: Instant)
      modifies orderRepo`orders
      ensures orderRepo.orders == MakerUpdate(old(orderRepo.orders), maker, fill, now)
    {
      if fill == maker.quantity {
        orderRepo.UpdateStatus(maker.orderId, Filled, now);
      } else {
        orderRepo.UpdateQuantity(maker.orderId, maker.quantity - fill, now);
        orderRepo.UpdateStatus(maker.orderId, PartiallyFilled, now);
      }
    }

    /** One iteration of the matching loop, for an entry that crosses. */
    method MatchEntry(taker: Order, side: OrderSide, remaining: int, entry: OrderBookEntry, now: Instant)
      returns (left: int)
      modifies this`balances, this`trades, this`deliveries, orderRepo`orders
      ensures Progress(Snapshot(), left) == Step(old(Snapshot()), side, taker, remaining, entry, tradeCallbacks, now)
    {
      var found := orderRepo.FindById(entry.orderId);
      if found.None? || !IsMatchable(found.value.status) {
        return remaining;
      }
      var maker := found.value;
      var matchQuantity := Min(remaining, maker.quantity);
      var matchPrice := maker.pricePerUnit;
      if side == Buy {
        ExecuteTrade(taker, maker, matchQuantity, matchPrice, now);
      } else {
        ExecuteTrade(maker, taker, matchQuantity, matchPrice, now);
      }
      left := remaining - matchQuantity;
      RewriteTaker(taker, left, now);
      RewriteMaker(maker, matchQuantity, now);
    }

    /** The loop shared by `matchBuyOrder` and `matchSellOrder`. */
    method MatchAgainst(taker: Order, side: OrderSide, entries: seq<OrderBookEntry>, now: Instant)
      returns (remaining: int)
      modifies this`balances, this`trades, this`deliveries, orderRepo`orders
      ensures Progress(Snapshot(), remaining) == Walk(old(Snapshot()), side, taker, taker.quantity, entries, tradeCallbacks, now)
    {
      remaining := taker.quantity;
      var i := 0;
      while i < |entries|
        invariant 0 <= i <= |entries|
        invariant Walk(Snapshot(), side, taker, remaining, entries[i..], tradeCallbacks, now)
               == Walk(old(Snapshot()), side, taker, taker.quantity, entries, tradeCallbacks, now)
      {
        if remaining <= 0 {
          break;
        }
        var entry := entries[i];
        if !Crosses(side, entry.pricePerUnit, taker.pricePerUnit) {
          break;
        }
        assert entries[i..][1..] == entries[i + 1..];
        remaining := MatchEntry(taker, side, remaining, entry, now);
        i := i + 1;
      }
    }

    method MatchBuyOrder(buyOrder: Order, now: Instant)
      modifies this`balances, this`trades, this`deliveries, orderRepo`orders
      ensures Snapshot() == Walk(old(Snapshot()), Buy, buyOrder, buyOrder.quantity,
                                 orderRepo.GetOrderBook(buyOrder.donutTypeId).sellOrders, tradeCallbacks, now).ledger
    {
      var orderBook := orderRepo.GetOrderBook(buyOrder.donutTypeId);
      var remaining := MatchAgainst(buyOrder, Buy, orderBook.sellOrders, now);
    }

    method MatchSellOrder(sellOrder: Order, now: Instant)
      modifies this`balances, this`trades, this`deliveries, orderRepo`orders
      ensures Snapshot() == Walk(old(Snapshot()), Sell, sellOrder, sellOrder.quantity,
                                 orderRepo.GetOrderBook(sellOrder.donutTypeId).buyOrders, tradeCallbacks, now).ledger
    {
      var orderBook := orderRepo.GetOrderBook(sellOrder.donutTypeId);
      var remaining := MatchAgainst(sellOrder, Sell, orderBook.buyOrders, now);
    }

    method ProcessOrder(order: Order, now: Instant)
      modifies this`balances, this`trades, this`deliveries, orderRepo`orders
      ensures Snapshot() == Process(old(Snapshot()), orderRepo.books, order, tradeCallbacks, now)
    {
      if order.side == Buy {
        MatchBuyOrder(order, now);
      } else {
        MatchSellOrder(order, now);
      }
    }

    /** One sweep over the fixed donut types. A fault is reported once, with
        the sweep's source tag, and the sweep returns normally. */
    method SweepForMatches(now: Instant, fault: Option<SweepFault>)
      modifies this`balances, this`trades, this`deliveries, orderRepo`orders
      ensures Snapshot() == SweepFrom(old(Snapshot()), orderRepo.books, SweepDonutTypes, 0, fault,
                                      tradeCallbacks, errorCallbacks, now)
    {
      var donutTypes := SweepDonutTypes;
      var i := 0;
      while i < |donutTypes|
        invariant 0 <= i <= |donutTypes|
        invariant SweepFrom(Snapshot(), orderRepo.books, donutTypes, i, fault, tradeCallbacks, errorCallbacks, now)
               == SweepFrom(old(Snapshot()), orderRepo.books, donutTypes, 0, fault, tradeCallbacks, errorCallbacks, now)
      {
        if fault.Some? && fault.value.atType == i {
          EmitError(fault.value.message, SweepErrorSource);
          return;
        }
        var orderBook := orderRepo.GetOrderBook(donutTypes[i]);
        if |orderBook.sellOrders| > 0 && |orderBook.buyOrders| > 0 {
          var bestSell := orderBook.sellOrders[0];
          var bestBuy := orderBook.buyOrders[0];
          if bestBuy.pricePerUnit >= bestSell.pricePerUnit {
            var found := orderRepo.FindById(bestBuy.orderId);
            if found.Some? && IsMatchable(found.value.status) {
              MatchBuyOrder(found.value, now);
            }
          }
        }
        i := i + 1;
      }
    }

    method ScheduleSweep()
      modifies this`sweepPending
      ensures sweepPending == (old(sweepPending) || !shouldStop)
    {
      if shouldStop {
        return;
      }
      sweepPending := true;
    }

    method Start()
      modifies this`shouldStop, this`sweepPending
      ensures !shouldStop && sweepPending
    {
      shouldStop := false;
      ScheduleSweep();
    }

    /** After `stop` no timer is armed, and since `shouldStop` stays set no
        later tick can arm one. */
    method Stop()
      modifies this`shouldStop, this`sweepPending
      ensures shouldStop && !sweepPending
    {
      shouldStop := true;
      if sweepPending {
        sweepPending := false;
      }
    }

    /** The armed timer fires. A tick that finds a sweep running or a stop
        requested does not sweep; otherwise it sweeps once with the
        `isSweeping` guard held. Either way it re-arms the timer unless a
        stop was requested. */
    method Tick(now: Instant, fault: Option<SweepFault>)
      requires sweepPending
      modifies this`balances, this`trades, this`deliveries, this`isSweeping, this`sweepPending, orderRepo`orders
      ensures isSweeping == old(isSweeping)
      ensures sweepPending == !shouldStop
      ensures old(isSweeping) || shouldStop ==> Snapshot() == old(Snapshot())
      ensures !old(isSweeping) && !shouldStop ==>
                Snapshot() == SweepFrom(old(Snapshot()), orderRepo.books, SweepDonutTypes, 0, fault,
                                        tradeCallbacks, errorCallbacks, now)
    {
      sweepPending := false;
      if isSweeping || shouldStop {
        ScheduleSweep();
        return;
      }
      isSweeping := true;
      SweepForMatches(now, fault);
      isSweeping := false;
      ScheduleSweep();
    }
  }
}
