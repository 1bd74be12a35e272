/** The retail customer simulator: customers arrive with a short shopping
    list and buy from outlets, either from the first outlet that can sell
    (first-find customers) or from the outlet with the lowest retail price
    (price hunters). Every random draw is an input, and so is the outcome of
    each sale the exchange is asked for. */
module Customers {
  import opened Wrappers
  import opened Types
  import Decimal
  import Seqs

  datatype CustomerType = FirstFind | PriceHunter

  /** A completed retail sale, as the exchange reports it. */
  datatype CustomerSale = CustomerSale(
    saleId: string,
    outletId: string,
    donutTypeId: string,
    quantity: int,
    costBasis: int,
    revenue: int,
    profit: int,
    executedAt: Instant)

  /** One call to `sellToCustomer(outletId, donutTypeId, quantity)`. */
  datatype SaleRequest = SaleRequest(outletId: string, donutTypeId: string, quantity: int)

  /** The outcome of a sale: `sell(item, position, request)` is the sale the
      exchange makes when the customer asks, for shopping-list item `item`,
      the outlet at `position` of the visiting order; `None` is a sale that
      throws. */
  type SaleOutcome = (nat, nat, SaleRequest) -> Option<CustomerSale>

  /** The draw behind the quantity asked for at (item, position), a number
      in [0, 1). */
  type QuantityDraws = (nat, nat) -> real

  /** The retail price before an outlet's margin. */
  const BaseDonutPrice: real := 2.0

  /** The retail price at an outlet: the base price raised by the outlet's
      margin percentage. */
  function CalculatePrice(outlet: Outlet): (p: real)
    ensures outlet.marginPercent == 0.0 ==> p == BaseDonutPrice
    ensures outlet.marginPercent >= 0.0 <==> p >= BaseDonutPrice
  {
    BaseDonutPrice * (1.0 + outlet.marginPercent / 100.0)
  }

  /** Prices order outlets exactly as margins do, so the cheapest outlet is
      the one with the lowest margin. */
  lemma CheaperIffLowerMargin(a: Outlet, b: Outlet)
    ensures CalculatePrice(a) < CalculatePrice(b) <==> a.marginPercent < b.marginPercent
    ensures CalculatePrice(a) == CalculatePrice(b) <==> a.marginPercent == b.marginPercent
  {
  }

  /** `Math.floor(draw * 3) + 1`: a draw in [0, 1) gives 1, 2 or 3. */
  function OneToThree(draw: real): (n: int)
    ensures 0.0 <= draw < 1.0 ==> 1 <= n <= 3
    ensures 0.0 <= draw < 1.0 / 3.0 ==> n == 1
    ensures 2.0 / 3.0 <= draw < 1.0 ==> n == 3
  {
    (draw * 3.0).Floor + 1
  }

  /** `order` lists each index below `n` exactly once: the result of
      shuffling a list of length `n`. */
  predicate IsPermutation(order: seq<nat>, n: nat) {
    && |order| == n
    && (forall i :: 0 <= i < n ==> order[i] < n)
    && (forall i, j :: 0 <= i < j < n ==> order[i] != order[j])
  }

  /** `xs` rearranged by `order`. */
  function Shuffled<T>(xs: seq<T>, order: seq<nat>): (r: seq<T>)
    requires IsPermutation(order, |xs|)
  {
    seq(|xs|, i requires 0 <= i < |xs| => xs[order[i]])
  }

  /** The shopping list: the ids of the first `numItems` shuffled donut
      types, or of all of them when there are fewer. */
  function ShoppingList(donutTypes: seq<DonutType>, order: seq<nat>, numItems: nat): seq<string>
    requires IsPermutation(order, |donutTypes|)
  {
    var shuffled := Shuffled(donutTypes, order);
    seq(Min(numItems, |shuffled|), i requires 0 <= i < Min(numItems, |shuffled|) => shuffled[i].donutTypeId)
  }

  /** The donut types are told apart by their ids. */
  predicate DistinctIds(donutTypes: seq<DonutType>) {
    forall i, j :: 0 <= i < j < |donutTypes| ==> donutTypes[i].donutTypeId != donutTypes[j].donutTypeId
  }

  /** `t` is the id of one of the donut types. */
  predicate IsTypeId(t: string, donutTypes: seq<DonutType>) {
    exists m :: 0 <= m < |donutTypes| && donutTypes[m].donutTypeId == t
  }

  /** The list has min(numItems, #types) entries, each the id of a known
      type, and since it is drawn from a permutation no type appears twice. */
  lemma ShoppingListMeaning(donutTypes: seq<DonutType>, order: seq<nat>, numItems: nat)
    requires IsPermutation(order, |donutTypes|)
    ensures |ShoppingList(donutTypes, order, numItems)| == Min(numItems, |donutTypes|)
    ensures forall i :: 0 <= i < |ShoppingList(donutTypes, order, numItems)| ==>
              IsTypeId(ShoppingList(donutTypes, order, numItems)[i], donutTypes)
    ensures DistinctIds(donutTypes) ==>
              forall i, j :: 0 <= i < j < |ShoppingList(donutTypes, order, numItems)| ==>
                ShoppingList(donutTypes, order, numItems)[i] != ShoppingList(donutTypes, order, numItems)[j]
  {
    var list := ShoppingList(donutTypes, order, numItems);
    forall i | 0 <= i < |list|
      ensures IsTypeId(list[i], donutTypes)
    {
      assert donutTypes[order[i]].donutTypeId == list[i];
    }
    if DistinctIds(donutTypes) {
      forall i, j | 0 <= i < j < |list|
        ensures list[i] != list[j]
      {
        var a, b := order[i], order[j];
        assert a != b;
        if a < b {
          assert donutTypes[a].donutTypeId != donutTypes[b].donutTypeId;
        } else {
          assert donutTypes[b].donutTypeId != donutTypes[a].donutTypeId;
        }
      }
    }
  }

  /** The id of the `n`-th customer. */
  function CustomerId(n: nat): string {
    "customer-" + Decimal.DecimalString(n)
  }

  /** Different counter values name different customers. */
  lemma CustomerIdsDistinct(m: nat, n: nat)
    requires m != n
    ensures CustomerId(m) != CustomerId(n)
  {
    Decimal.DecimalStringInjective(m, n);
    assert CustomerId(m)[9..] == Decimal.DecimalString(m);
    assert CustomerId(n)[9..] == Decimal.DecimalString(n);
  }

  /** The open outlets, in their order. */
  function OpenOutlets(outlets: seq<Outlet>): (r: seq<Outlet>)
    ensures |r| <= |outlets|
    ensures forall i :: 0 <= i < |r| ==> r[i].isOpen
  {
    if |outlets| == 0 then []
    else (if outlets[0].isOpen then [outlets[0]] else []) + OpenOutlets(outlets[1..])
  }

  /** An outlet is kept exactly when it is one of the outlets and open;
      there is none exactly when no outlet is open. */
  lemma {:induction false} OpenOutletsMeaning(outlets: seq<Outlet>)
    ensures forall o :: o in OpenOutlets(outlets) <==> o in outlets && o.isOpen
    ensures |OpenOutlets(outlets)| == 0 <==> forall i :: 0 <= i < |outlets| ==> !outlets[i].isOpen
  {
    if |outlets| > 0 {
      OpenOutletsMeaning(outlets[1..]);
      assert outlets == [outlets[0]] + outlets[1..];
      if |OpenOutlets(outlets)| == 0 {
        forall i | 0 <= i < |outlets|
          ensures !outlets[i].isOpen
        {
          if i > 0 {
            assert outlets[i] == outlets[1..][i - 1];
          }
        }
      }
    }
  }

  /** Filtering the open outlets again changes nothing. */
  lemma {:induction false} OpenOutletsIdempotent(outlets: seq<Outlet>)
    ensures OpenOutlets(OpenOutlets(outlets)) == OpenOutlets(outlets)
  {
    if |outlets| > 0 {
      OpenOutletsIdempotent(outlets[1..]);
      var rest := OpenOutlets(outlets[1..]);
      if outlets[0].isOpen {
        assert OpenOutlets(outlets) == [outlets[0]] + rest;
        assert ([outlets[0]] + rest)[1..] == rest;
      } else {
        assert OpenOutlets(outlets) == rest;
      }
    }
  }

  /** The visits for one item: the positions of the visiting order the
      customer walked into, and the sale made there, if any. */
  datatype Visit = Visit(visited: seq<nat>, sale: Option<CustomerSale>)

  /** What a customer asks the outlet at `p` for. */
  function RequestAt(outlets: seq<Outlet>, item: nat, donutTypeId: string, draws: QuantityDraws, p: nat): SaleRequest
    requires p < |outlets|
  {
    SaleRequest(outlets[p].outletId, donutTypeId, OneToThree(draws(item, p)))
  }

  /** Whether the exchange sells at the outlet at `p`. */
  predicate Sells(outlets: seq<Outlet>, item: nat, donutTypeId: string, draws: QuantityDraws,
                  sell: SaleOutcome, p: nat)
    requires p < |outlets|
  {
    sell(item, p, RequestAt(outlets, item, donutTypeId, draws, p)).Some?
  }

  /** A first-find customer's walk for one item from position `j` on:
      closed outlets are passed by without a visit, an open one is visited
      and asked for a sale, and the first sale ends the walk. */
  function FirstFindItem(outlets: seq<Outlet>, item: nat, donutTypeId: string, draws: QuantityDraws,
                         sell: SaleOutcome, j: nat): (r: Visit)
    ensures InRange(r.visited, |outlets|)
    decreases |outlets| - j
  {
    if j >= |outlets| then Visit([], None)
    else if !outlets[j].isOpen then FirstFindItem(outlets, item, donutTypeId, draws, sell, j + 1)
    else
      var sale := sell(item, j, RequestAt(outlets, item, donutTypeId, draws, j));
      if sale.Some? then Visit([j], sale)
      else
        var rest := FirstFindItem(outlets, item, donutTypeId, draws, sell, j + 1);
        Visit([j] + rest.visited, rest.sale)
  }

  /** Every position in `positions` is one of the outlets'. */
  predicate InRange(positions: seq<nat>, n: nat) {
    forall i :: 0 <= i < |positions| ==> positions[i] < n
  }

  /** Every visit but the last was refused a sale. */
  predicate FailedBeforeLast(outlets: seq<Outlet>, item: nat, donutTypeId: string, draws: QuantityDraws,
                             sell: SaleOutcome, v: Visit)
    requires InRange(v.visited, |outlets|)
  {
    forall i :: 0 <= i < |v.visited| - 1 ==> !Sells(outlets, item, donutTypeId, draws, sell, v.visited[i])
  }

  /** A sale was made exactly when the last visit sold, and it is that
      visit's sale. */
  predicate SaleAtLast(outlets: seq<Outlet>, item: nat, donutTypeId: string, draws: QuantityDraws,
                       sell: SaleOutcome, v: Visit)
    requires InRange(v.visited, |outlets|)
  {
    && (v.sale.Some? <==> |v.visited| > 0 && Sells(outlets, item, donutTypeId, draws, sell, Last(v.visited)))
    && (v.sale.Some? ==>
          v.sale == sell(item, Last(v.visited), RequestAt(outlets, item, donutTypeId, draws, Last(v.visited))))
  }

  /** The walk stops at the first outlet that sells: every visit but the
      last failed, and a sale was made exactly when the last visit sold. */
  lemma {:induction false} FirstFindStopsAtFirstSale(outlets: seq<Outlet>, item: nat, donutTypeId: string,
                                                     draws: QuantityDraws, sell: SaleOutcome, j: nat)
    ensures InRange(FirstFindItem(outlets, item, donutTypeId, draws, sell, j).visited, |outlets|)
    ensures FailedBeforeLast(outlets, item, donutTypeId, draws, sell, FirstFindItem(outlets, item, donutTypeId, draws, sell, j))
    ensures SaleAtLast(outlets, item, donutTypeId, draws, sell, FirstFindItem(outlets, item, donutTypeId, draws, sell, j))
    decreases |outlets| - j
  {
    if j < |outlets| {
      FirstFindStopsAtFirstSale(outlets, item, donutTypeId, draws, sell, j + 1);
      var rest := FirstFindItem(outlets, item, donutTypeId, draws, sell, j + 1);
      if outlets[j].isOpen && !Sells(outlets, item, donutTypeId, draws, sell, j) {
        var v := [j] + rest.visited;
        assert FirstFindItem(outlets, item, donutTypeId, draws, sell, j) == Visit(v, rest.sale);
        forall i | 0 <= i < |v| - 1
          ensures !Sells(outlets, item, donutTypeId, draws, sell, v[i])
        {
          if i > 0 { assert v[i] == rest.visited[i - 1]; }
        }
        if |rest.visited| > 0 {
          assert Last(v) == Last(rest.visited);
        }
      }
    }
  }

  /** No open outlet from `j` on is passed by before the outlet that sold,
      nor at all when nothing was bought. */
  lemma {:induction false} FirstFindSkipsNoOpenOutlet(outlets: seq<Outlet>, item: nat, donutTypeId: string,
                                                      draws: QuantityDraws, sell: SaleOutcome, j: nat, p: nat)
    requires j <= p < |outlets| && outlets[p].isOpen
    requires Before(p, FirstFindItem(outlets, item, donutTypeId, draws, sell, j))
    ensures p in FirstFindItem(outlets, item, donutTypeId, draws, sell, j).visited
    decreases |outlets| - j
  {
    var rest := FirstFindItem(outlets, item, donutTypeId, draws, sell, j + 1);
    if p > j {
      if !outlets[j].isOpen {
        FirstFindSkipsNoOpenOutlet(outlets, item, donutTypeId, draws, sell, j + 1, p);
      } else if !Sells(outlets, item, donutTypeId, draws, sell, j) {
        var v := [j] + rest.visited;
        assert FirstFindItem(outlets, item, donutTypeId, draws, sell, j) == Visit(v, rest.sale);
        if |rest.visited| > 0 {
          assert Last(v) == Last(rest.visited);
        }
        FirstFindSkipsNoOpenOutlet(outlets, item, donutTypeId, draws, sell, j + 1, p);
        assert p in v;
      }
    }
  }

  /** Only open outlets from `j` on are visited, in the shuffled order, each
      at most once. */
  lemma {:induction false} FirstFindVisitsInOrder(outlets: seq<Outlet>, item: nat, donutTypeId: string,
                                                  draws: QuantityDraws, sell: SaleOutcome, j: nat)
    ensures forall i :: 0 <= i < |FirstFindItem(outlets, item, donutTypeId, draws, sell, j).visited| ==>
              && j <= FirstFindItem(outlets, item, donutTypeId, draws, sell, j).visited[i]
              && outlets[FirstFindItem(outlets, item, donutTypeId, draws, sell, j).visited[i]].isOpen
    ensures forall i, i' :: 0 <= i < i' < |FirstFindItem(outlets, item, donutTypeId, draws, sell, j).visited| ==>
              FirstFindItem(outlets, item, donutTypeId, draws, sell, j).visited[i]
              < FirstFindItem(outlets, item, donutTypeId, draws, sell, j).visited[i']
    decreases |outlets| - j
  {
    if j < |outlets| {
      FirstFindVisitsInOrder(outlets, item, donutTypeId, draws, sell, j + 1);
      var rest := FirstFindItem(outlets, item, donutTypeId, draws, sell, j + 1);
      if outlets[j].isOpen && !Sells(outlets, item, donutTypeId, draws, sell, j) {
        var v := [j] + rest.visited;
        assert FirstFindItem(outlets, item, donutTypeId, draws, sell, j) == Visit(v, rest.sale);
        forall i | 0 <= i < |v|
          ensures j <= v[i] && outlets[v[i]].isOpen
        {
          if i > 0 { assert v[i] == rest.visited[i - 1]; }
        }
        forall i, i' | 0 <= i < i' < |v|
          ensures v[i] < v[i']
        {
          assert v[i'] == rest.visited[i' - 1];
          if i > 0 { assert v[i] == rest.visited[i - 1]; }
        }
      }
    }
  }

  /** One step of the walk at an outlet of the visiting order. */
  lemma FirstFindUnfold(outlets: seq<Outlet>, item: nat, donutTypeId: string, draws: QuantityDraws,
                        sell: SaleOutcome, j: nat)
    requires j < |outlets|
    ensures !outlets[j].isOpen ==>
              FirstFindItem(outlets, item, donutTypeId, draws, sell, j)
              == FirstFindItem(outlets, item, donutTypeId, draws, sell, j + 1)
    ensures outlets[j].isOpen && Sells(outlets, item, donutTypeId, draws, sell, j) ==>
              FirstFindItem(outlets, item, donutTypeId, draws, sell, j)
              == Visit([j], sell(item, j, RequestAt(outlets, item, donutTypeId, draws, j)))
    ensures outlets[j].isOpen && !Sells(outlets, item, donutTypeId, draws, sell, j) ==>
              FirstFindItem(outlets, item, donutTypeId, draws, sell, j)
              == Visit([j] + FirstFindItem(outlets, item, donutTypeId, draws, sell, j + 1).visited,
                       FirstFindItem(outlets, item, donutTypeId, draws, sell, j + 1).sale)
  {
  }

  /** The last element of a non-empty sequence. */
  function Last(s: seq<nat>): nat
    requires |s| > 0
  {
    s[|s| - 1]
  }

  /** Position `p` comes before the end of the walk: nothing was bought, or
      `p` precedes the outlet that sold. */
  predicate Before(p: nat, v: Visit) {
    v.sale.None? || (|v.visited| > 0 && p < Last(v.visited))
  }

  /** The outlet ids at the given positions. */
  function OutletIds(outlets: seq<Outlet>, positions: seq<nat>): seq<string>
    requires forall i :: 0 <= i < |positions| ==> positions[i] < |outlets|
  {
    seq(|positions|, i requires 0 <= i < |positions| => outlets[positions[i]].outletId)
  }

  /** The ids of the outlets, in order. */
  function Ids(outlets: seq<Outlet>): seq<string> {
    seq(|outlets|, i requires 0 <= i < |outlets| => outlets[i].outletId)
  }

  /** The ids of one more position. */
  lemma OutletIdsSnoc(outlets: seq<Outlet>, positions: seq<nat>, j: nat)
    requires InRange(positions, |outlets|) && j < |outlets|
    ensures OutletIds(outlets, positions + [j]) == OutletIds(outlets, positions) + [outlets[j].outletId]
  {
  }

  function SaleList(sale: Option<CustomerSale>): seq<CustomerSale> {
    if sale.Some? then [sale.value] else []
  }

  /** What a customer's shopping adds to its record: the outlets visited
      and the purchases made. */
  datatype Trail = Trail(visited: seq<string>, purchases: seq<CustomerSale>)

  /** A first-find customer's shopping from list item `k` on. */
  function FirstFindTrail(outlets: seq<Outlet>, list: seq<string>, draws: QuantityDraws, sell: SaleOutcome,
                          k: nat): Trail
    decreases |list| - k
  {
    if k >= |list| then Trail([], [])
    else
      var v := FirstFindItem(outlets, k, list[k], draws, sell, 0);
      var rest := FirstFindTrail(outlets, list, draws, sell, k + 1);
      Trail(OutletIds(outlets, v.visited) + rest.visited, SaleList(v.sale) + rest.purchases)
  }

  /** The position of the cheapest of the first `n` outlets: a later outlet
      replaces the current choice only when strictly cheaper. `None` stands
      for the initial `Infinity`. */
  function CheapestIndex(outlets: seq<Outlet>, n: nat): (r: Option<nat>)
    requires n <= |outlets|
    ensures r.None? <==> n == 0
    ensures r.Some? ==> r.value < n
  {
    if n == 0 then None
    else
      var prev := CheapestIndex(outlets, n - 1);
      if prev.None? || CalculatePrice(outlets[n - 1]) < CalculatePrice(outlets[prev.value]) then Some(n - 1)
      else prev
  }

  /** The choice is a cheapest outlet, and the earliest one at that price. */
  lemma {:induction false} CheapestIsEarliestMinimum(outlets: seq<Outlet>, n: nat)
    requires n <= |outlets|
    ensures CheapestIndex(outlets, n).Some? ==>
              forall j :: 0 <= j < n ==> CalculatePrice(outlets[CheapestIndex(outlets, n).value]) <= CalculatePrice(outlets[j])
    ensures CheapestIndex(outlets, n).Some? ==>
              forall j :: 0 <= j < CheapestIndex(outlets, n).value ==>
                CalculatePrice(outlets[CheapestIndex(outlets, n).value]) < CalculatePrice(outlets[j])
  {
    if n > 0 {
      CheapestIsEarliestMinimum(outlets, n - 1);
    }
  }

  /** The sale a price hunter makes for one item: at the cheapest open
      outlet, if there is one. */
  function PriceHunterSale(open: seq<Outlet>, item: nat, donutTypeId: string, draws: QuantityDraws,
                           sell: SaleOutcome): Option<CustomerSale>
  {
    var cheapest := CheapestIndex(open, |open|);
    if cheapest.None? then None
    else sell(item, cheapest.value, RequestAt(open, item, donutTypeId, draws, cheapest.value))
  }

  /** A price hunter's shopping from list item `k` on: every open outlet is
      visited for every item. */
  function PriceHunterTrail(open: seq<Outlet>, list: seq<string>, draws: QuantityDraws, sell: SaleOutcome,
                            k: nat): Trail
    decreases |list| - k
  {
    if k >= |list| then Trail([], [])
    else
      var rest := PriceHunterTrail(open, list, draws, sell, k + 1);
      Trail(Ids(open) + rest.visited, SaleList(PriceHunterSale(open, k, list[k], draws, sell)) + rest.purchases)
  }

  /** `p` is a sale the exchange made for one of the list items from `k` on,
      at some outlet of the visiting order. */
  ghost predicate SoldFor(p: CustomerSale, outlets: seq<Outlet>, list: seq<string>, draws: QuantityDraws,
                    sell: SaleOutcome, k: nat) {
    exists item: nat, pos: nat :: k <= item < |list| && pos < |outlets| &&
      sell(item, pos, RequestAt(outlets, item, list[item], draws, pos)) == Some(p)
  }

  /** A first-find customer's purchases grow only by sales the exchange
      made, at most one per item. */
  lemma {:induction false} FirstFindPurchasesAreSales(outlets: seq<Outlet>, list: seq<string>, draws: QuantityDraws,
                                                      sell: SaleOutcome, k: nat)
    requires k <= |list|
    ensures |FirstFindTrail(outlets, list, draws, sell, k).purchases| <= |list| - k
    ensures forall m :: 0 <= m < |FirstFindTrail(outlets, list, draws, sell, k).purchases| ==>
              SoldFor(FirstFindTrail(outlets, list, draws, sell, k).purchases[m], outlets, list, draws, sell, k)
    decreases |list| - k
  {
    if k < |list| {
      FirstFindPurchasesAreSales(outlets, list, draws, sell, k + 1);
      var v := FirstFindItem(outlets, k, list[k], draws, sell, 0);
      var rest := FirstFindTrail(outlets, list, draws, sell, k + 1);
      var ps := SaleList(v.sale) + rest.purchases;
      FirstFindStopsAtFirstSale(outlets, k, list[k], draws, sell, 0);
      forall m | 0 <= m < |ps|
        ensures SoldFor(ps[m], outlets, list, draws, sell, k)
      {
        if v.sale.Some? && m == 0 {
          var pos := Last(v.visited);
          assert sell(k, pos, RequestAt(outlets, k, list[k], draws, pos)) == Some(ps[m]);
        } else {
          assert ps[m] == rest.purchases[m - |SaleList(v.sale)|];
        }
      }
    }
  }

  /** `p` is a sale the exchange made for one of the list items from `k` on,
      at the cheapest of the open outlets. */
  ghost predicate SoldAtCheapestFor(p: CustomerSale, open: seq<Outlet>, list: seq<string>, draws: QuantityDraws,
                                    sell: SaleOutcome, k: nat) {
    && CheapestIndex(open, |open|).Some?
    && var pos := CheapestIndex(open, |open|).value;
       exists item: nat :: k <= item < |list| &&
         sell(item, pos, RequestAt(open, item, list[item], draws, pos)) == Some(p)
  }

  /** A price hunter's purchases grow only by sales the exchange made at
      the cheapest open outlet, at most one per item. */
  lemma {:induction false} PriceHunterPurchasesAreSales(open: seq<Outlet>, list: seq<string>, draws: QuantityDraws,
                                                        sell: SaleOutcome, k: nat)
    requires k <= |list|
    ensures |PriceHunterTrail(open, list, draws, sell, k).purchases| <= |list| - k
    ensures forall m :: 0 <= m < |PriceHunterTrail(open, list, draws, sell, k).purchases| ==>
              SoldAtCheapestFor(PriceHunterTrail(open, list, draws, sell, k).purchases[m], open, list, draws, sell, k)
    decreases |list| - k
  {
    if k < |list| {
      PriceHunterPurchasesAreSales(open, list, draws, sell, k + 1);
      var sale := PriceHunterSale(open, k, list[k], draws, sell);
      var rest := PriceHunterTrail(open, list, draws, sell, k + 1);
      var ps := SaleList(sale) + rest.purchases;
      forall m | 0 <= m < |ps|
        ensures SoldAtCheapestFor(ps[m], open, list, draws, sell, k)
      {
        if sale.Some? && m == 0 {
          var pos := CheapestIndex(open, |open|).value;
          assert sell(k, pos, RequestAt(open, k, list[k], draws, pos)) == Some(ps[m]);
        } else {
          assert ps[m] == rest.purchases[m - |SaleList(sale)|];
        }
      }
    }
  }

  /** One item of a price hunter's shopping. */
  lemma PriceHunterTrailUnfold(open: seq<Outlet>, list: seq<string>, draws: QuantityDraws, sell: SaleOutcome, k: nat)
    requires k < |list|
    ensures PriceHunterTrail(open, list, draws, sell, k)
            == Trail(Ids(open) + PriceHunterTrail(open, list, draws, sell, k + 1).visited,
                     SaleList(PriceHunterSale(open, k, list[k], draws, sell))
                     + PriceHunterTrail(open, list, draws, sell, k + 1).purchases)
  {
  }

  /** A simulated customer. The id, behaviour and shopping list are fixed
      at creation; the visits and purchases grow while it shops. */
  class SimulatedCustomer {
    const customerId: string
    const customerType: CustomerType
    const shoppingList: seq<string>
    var visitedOutlets: seq<string>
    var purchases: seq<CustomerSale>

    constructor (customerId: string, customerType: CustomerType, shoppingList: seq<string>)
      ensures this.customerId == customerId && this.customerType == customerType
      ensures this.shoppingList == shoppingList
      ensures visitedOutlets == [] && purchases == []
    {
      this.customerId := customerId;
      this.customerType := customerType;
      this.shoppingList := shoppingList;
      visitedOutlets := [];
      purchases := [];
    }
  }

  class CustomerSimulator {
    var isRunning: bool
    var customerCounter: nat

    constructor ()
      ensures !isRunning && customerCounter == 0
    {
      isRunning := false;
      customerCounter := 0;
    }

    /** `start`: a second start while running changes nothing. */
    method Start()
      modifies this`isRunning
      ensures isRunning
    {
      if isRunning {
        return;
      }
      isRunning := true;
    }

    method Stop()
      modifies this`isRunning
      ensures !isRunning
    {
      isRunning := false;
    }

    /** `createCustomer`: advances the counter by one and names the customer
        after it; `typeDraw` and `itemsDraw` are the two draws and `order`
        the shuffle of the donut types. */
    method CreateCustomer(donutTypes: seq<DonutType>, typeDraw: real, itemsDraw: real, order: seq<nat>)
      returns (customer: SimulatedCustomer)
      requires IsPermutation(order, |donutTypes|)
      requires 0.0 <= itemsDraw < 1.0
      modifies this`customerCounter
      ensures customerCounter == old(customerCounter) + 1
      ensures fresh(customer)
      ensures customer.customerId == CustomerId(customerCounter)
      ensures customer.customerType == if typeDraw < 0.5 then FirstFind else PriceHunter
      ensures customer.shoppingList == ShoppingList(donutTypes, order, OneToThree(itemsDraw))
      ensures customer.visitedOutlets == [] && customer.purchases == []
    {
      customerCounter := customerCounter + 1;
      var customerType := if typeDraw < 0.5 then FirstFind else PriceHunter;
      var numItems := OneToThree(itemsDraw);
      var shoppingList: seq<string> := [];
      var shuffledTypes := Shuffled(donutTypes, order);
      var i := 0;
      while i < Min(numItems, |shuffledTypes|)
        invariant 0 <= i <= Min(numItems, |shuffledTypes|)
        invariant |shoppingList| == i
        invariant forall m :: 0 <= m < i ==> shoppingList[m] == shuffledTypes[m].donutTypeId
      {
        shoppingList := shoppingList + [shuffledTypes[i].donutTypeId];
        i := i + 1;
      }
      customer := new SimulatedCustomer(CustomerId(customerCounter), customerType, shoppingList);
    }

    /** The inner loop of `processFirstFindCustomer` for one item: walk the
        visiting order, record each open outlet, stop at the first sale. */
    method ShopFirstFind(customer: SimulatedCustomer, outlets: seq<Outlet>, item: nat, donutTypeId: string,
                         draws: QuantityDraws, sell: SaleOutcome)
      modifies customer`visitedOutlets, customer`purchases
      ensures customer.visitedOutlets
              == old(customer.visitedOutlets)
                 + OutletIds(outlets, FirstFindItem(outlets, item, donutTypeId, draws, sell, 0).visited)
      ensures customer.purchases
              == old(customer.purchases) + SaleList(FirstFindItem(outlets, item, donutTypeId, draws, sell, 0).sale)
    {
      ghost var whole := FirstFindItem(outlets, item, donutTypeId, draws, sell, 0);
      ghost var start := customer.visitedOutlets;
      ghost var seen: seq<nat> := [];
      var j := 0;
      while j < |outlets|
        invariant 0 <= j <= |outlets| && InRange(seen, |outlets|)
        invariant customer.visitedOutlets == start + OutletIds(outlets, seen)
        invariant customer.purchases == old(customer.purchases)
        invariant seen + FirstFindItem(outlets, item, donutTypeId, draws, sell, j).visited == whole.visited
        invariant FirstFindItem(outlets, item, donutTypeId, draws, sell, j).sale == whole.sale
      {
        FirstFindUnfold(outlets, item, donutTypeId, draws, sell, j);
        if outlets[j].isOpen {
          ghost var rest := FirstFindItem(outlets, item, donutTypeId, draws, sell, j + 1).visited;
          var sold := VisitOutlet(customer, outlets, item, donutTypeId, draws, sell, j);
          OutletIdsSnoc(outlets, seen, j);
          Seqs.ConcatAssoc(seen, [j], rest);
          seen := seen + [j];
          if sold {
            return;
          }
        }
        j := j + 1;
      }
      assert seen == whole.visited;
    }

    /** One visit of a first-find customer: record the outlet, ask it for
        the drawn quantity, and record the sale if it is made. */
    method VisitOutlet(customer: SimulatedCustomer, outlets: seq<Outlet>, item: nat, donutTypeId: string,
                       draws: QuantityDraws, sell: SaleOutcome, j: nat) returns (sold: bool)
      requires j < |outlets|
      modifies customer`visitedOutlets, customer`purchases
      ensures sold == Sells(outlets, item, donutTypeId, draws, sell, j)
      ensures customer.visitedOutlets == old(customer.visitedOutlets) + [outlets[j].outletId]
      ensures customer.purchases
              == old(customer.purchases) + SaleList(sell(item, j, RequestAt(outlets, item, donutTypeId, draws, j)))
    {
      customer.visitedOutlets := customer.visitedOutlets + [outlets[j].outletId];
      var quantity := OneToThree(draws(item, j));
      var sale := sell(item, j, SaleRequest(outlets[j].outletId, donutTypeId, quantity));
      if sale.Some? {
        customer.purchases := customer.purchases + [sale.value];
      }
      sold := sale.Some?;
    }

    /** `processFirstFindCustomer`: `order` is the shuffle of the outlets. */
    method ProcessFirstFindCustomer(customer: SimulatedCustomer, outlets: seq<Outlet>, order: seq<nat>,
                                    draws: QuantityDraws, sell: SaleOutcome)
      requires IsPermutation(order, |outlets|)
      modifies customer`visitedOutlets, customer`purchases
      ensures customer.visitedOutlets
              == old(customer.visitedOutlets)
                 + FirstFindTrail(Shuffled(outlets, order), customer.shoppingList, draws, sell, 0).visited
      ensures customer.purchases
              == old(customer.purchases)
                 + FirstFindTrail(Shuffled(outlets, order), customer.shoppingList, draws, sell, 0).purchases
    {
      var shuffledOutlets := Shuffled(outlets, order);
      var list := customer.shoppingList;
      var k := 0;
      while k < |list|
        invariant 0 <= k <= |list|
        invariant customer.visitedOutlets + FirstFindTrail(shuffledOutlets, list, draws, sell, k).visited
                  == old(customer.visitedOutlets) + FirstFindTrail(shuffledOutlets, list, draws, sell, 0).visited
        invariant customer.purchases + FirstFindTrail(shuffledOutlets, list, draws, sell, k).purchases
                  == old(customer.purchases) + FirstFindTrail(shuffledOutlets, list, draws, sell, 0).purchases
      {
        ghost var rest := FirstFindTrail(shuffledOutlets, list, draws, sell, k + 1);
        ghost var v := FirstFindItem(shuffledOutlets, k, list[k], draws, sell, 0);
        ghost var visited, purchases := customer.visitedOutlets, customer.purchases;
        assert FirstFindTrail(shuffledOutlets, list, draws, sell, k)
               == Trail(OutletIds(shuffledOutlets, v.visited) + rest.visited, SaleList(v.sale) + rest.purchases);
        ShopFirstFind(customer, shuffledOutlets, k, list[k], draws, sell);
        Seqs.ConcatAssoc(visited, OutletIds(shuffledOutlets, v.visited), rest.visited);
        Seqs.ConcatAssoc(purchases, SaleList(v.sale), rest.purchases);
        k := k + 1;
      }
    }

    /** The inner loop of `processPriceHunterCustomer` for one item: visit
        every open outlet keeping the cheapest, then try to buy there. */
    method ShopPriceHunter(customer: SimulatedCustomer, open: seq<Outlet>, item: nat, donutTypeId: string,
                           draws: QuantityDraws, sell: SaleOutcome)
      modifies customer`visitedOutlets, customer`purchases
      ensures customer.visitedOutlets == old(customer.visitedOutlets) + Ids(open)
      ensures customer.purchases
              == old(customer.purchases) + SaleList(PriceHunterSale(open, item, donutTypeId, draws, sell))
    {
      var cheapestOutlet: Option<nat> := None;
      var cheapestPrice: Option<real> := None;
      var j := 0;
      while j < |open|
        invariant 0 <= j <= |open|
        invariant customer.visitedOutlets == old(customer.visitedOutlets) + Ids(open[..j])
        invariant customer.purchases == old(customer.purchases)
        invariant cheapestOutlet == CheapestIndex(open, j)
        invariant cheapestOutlet.None? <==> cheapestPrice.None?
        invariant cheapestOutlet.Some? ==> cheapestPrice.value == CalculatePrice(open[cheapestOutlet.value])
      {
        customer.visitedOutlets := customer.visitedOutlets + [open[j].outletId];
        assert Ids(open[..j + 1]) == Ids(open[..j]) + [open[j].outletId];
        var price := CalculatePrice(open[j]);
        if cheapestPrice.None? || price < cheapestPrice.value {
          cheapestPrice := Some(price);
          cheapestOutlet := Some(j);
        }
        j := j + 1;
      }
      assert open[..j] == open;
      if cheapestOutlet.Some? {
        var p := cheapestOutlet.value;
        var quantity := OneToThree(draws(item, p));
        var sale := sell(item, p, SaleRequest(open[p].outletId, donutTypeId, quantity));
        if sale.Some? {
          customer.purchases := customer.purchases + [sale.value];
        }
      }
    }

    /** `processPriceHunterCustomer`. */
    method ProcessPriceHunterCustomer(customer: SimulatedCustomer, outlets: seq<Outlet>,
                                      draws: QuantityDraws, sell: SaleOutcome)
      modifies customer`visitedOutlets, customer`purchases
      ensures customer.visitedOutlets
              == old(customer.visitedOutlets)
                 + PriceHunterTrail(OpenOutlets(outlets), customer.shoppingList, draws, sell, 0).visited
      ensures customer.purchases
              == old(customer.purchases)
                 + PriceHunterTrail(OpenOutlets(outlets), customer.shoppingList, draws, sell, 0).purchases
    {
      var open := OpenOutlets(outlets);
      var list := customer.shoppingList;
      var k := 0;
      while k < |list|
        invariant 0 <= k <= |list|
        invariant customer.visitedOutlets + PriceHunterTrail(open, list, draws, sell, k).visited
                  == old(customer.visitedOutlets) + PriceHunterTrail(open, list, draws, sell, 0).visited
        invariant customer.purchases + PriceHunterTrail(open, list, draws, sell, k).purchases
                  == old(customer.purchases) + PriceHunterTrail(open, list, draws, sell, 0).purchases
      {
        ghost var rest := PriceHunterTrail(open, list, draws, sell, k + 1);
        ghost var sale := PriceHunterSale(open, k, list[k], draws, sell);
        ghost var visited, purchases := customer.visitedOutlets, customer.purchases;
        PriceHunterTrailUnfold(open, list, draws, sell, k);
        ShopPriceHunter(customer, open, k, list[k], draws, sell);
        Seqs.ConcatAssoc(visited, Ids(open), rest.visited);
        Seqs.ConcatAssoc(purchases, SaleList(sale), rest.purchases);
        k := k + 1;
      }
    }

    /** `spawnCustomer`, over the outlets and donut types it reads: nothing
        happens when no outlet is open or there is no donut type; otherwise a
        new customer is created and shops by its behaviour among the open
        outlets. `outletOrder` is the first-find customer's shuffle. */
    method SpawnCustomer(outlets: seq<Outlet>, donutTypes: seq<DonutType>, typeDraw: real, itemsDraw: real,
                         typeOrder: seq<nat>, outletOrder: seq<nat>, draws: QuantityDraws, sell: SaleOutcome)
      returns (spawned: Option<SimulatedCustomer>)
      requires IsPermutation(typeOrder, |donutTypes|)
      requires 0.0 <= itemsDraw < 1.0
      requires IsPermutation(outletOrder, |OpenOutlets(outlets)|)
      modifies this`customerCounter
      ensures |OpenOutlets(outlets)| == 0 || |donutTypes| == 0 ==>
                spawned.None? && customerCounter == old(customerCounter)
      ensures |OpenOutlets(outlets)| > 0 && |donutTypes| > 0 ==>
                && spawned.Some? && fresh(spawned.value)
                && customerCounter == old(customerCounter) + 1
                && spawned.value.customerId == CustomerId(customerCounter)
                && spawned.value.shoppingList == ShoppingList(donutTypes, typeOrder, OneToThree(itemsDraw))
                && spawned.value.customerType == (if typeDraw < 0.5 then FirstFind else PriceHunter)
                && (spawned.value.customerType == FirstFind ==>
                      var trail := FirstFindTrail(Shuffled(OpenOutlets(outlets), outletOrder),
                                                  spawned.value.shoppingList, draws, sell, 0);
                      spawned.value.visitedOutlets == trail.visited && spawned.value.purchases == trail.purchases)
                && (spawned.value.customerType == PriceHunter ==>
                      var trail := PriceHunterTrail(OpenOutlets(outlets), spawned.value.shoppingList, draws, sell, 0);
                      spawned.value.visitedOutlets == trail.visited && spawned.value.purchases == trail.purchases)
    {
      var openOutlets := OpenOutlets(outlets);
      if |openOutlets| == 0 || |donutTypes| == 0 {
        return None;
      }
      var customer := CreateCustomer(donutTypes, typeDraw, itemsDraw, typeOrder);
      if customer.customerType == FirstFind {
        ProcessFirstFindCustomer(customer, openOutlets, outletOrder, draws, sell);
      } else {
        ProcessPriceHunterCustomer(customer, openOutlets, draws, sell);
        OpenOutletsIdempotent(outlets);
      }
      spawned := Some(customer);
    }

    /** `getStats`: whether the simulator runs, and how many customers it
        has created (each `CreateCustomer` adds one). */
    function GetStats(): (stats: (bool, nat))
      reads this
      ensures stats.0 <==> isRunning
      ensures stats.1 == customerCounter
    {
      (isRunning, customerCounter)
    }
  }
}
