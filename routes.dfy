/** The request checks of the HTTP routes: the body of POST /orders, the
    margin of PATCH /outlets/:id/margin, the `isOpen` flag of the toggle
    routes and the `limit` query parameter of the transaction lists. Each
    body field is a JSON value, or absent. */
module Routes {
  import opened Wrappers
  import opened Types
  import Decimal
  import Customers
  import Purchasing

  /** A JSON value as a request body carries it; the inside of objects and
      arrays is not looked into. */
  datatype Json = JNull | JBool(b: bool) | JNumber(n: real) | JString(s: string) | JObject

  /** A body field: `None` when the field is absent (`undefined`). */
  type Field = Option<Json>

  /** JavaScript truthiness: `undefined`, `null`, `false`, `0` and `""` are
      falsy, everything else truthy. */
  predicate Truthy(v: Field) {
    match v
    case None => false
    case Some(j) =>
      match j
      case JNull => false
      case JBool(b) => b
      case JNumber(n) => n != 0.0
      case JString(s) => s != ""
      case JObject => true
  }

  /** Drops blanks at both ends. */
  function Trim(s: string): (t: string)
    ensures |t| <= |s|
    ensures |t| > 0 ==> !Decimal.IsSpace(t[0]) && !Decimal.IsSpace(t[|t| - 1])
    decreases |s|
  {
    if |s| > 0 && Decimal.IsSpace(s[0]) then Trim(s[1..])
    else if |s| > 0 && Decimal.IsSpace(s[|s| - 1]) then Trim(s[..|s| - 1])
    else s
  }

  /** The number a string converts to, `None` standing for `NaN`: a blank
      string is 0, an optionally signed run of digits its value. */
  function StringToNumber(s: string): (r: Option<int>)
    ensures Trim(s) == "" ==> r == Some(0)
  {
    var t := Trim(s);
    if t == "" then Some(0)
    else
      var signed := t[0] == '-' || t[0] == '+';
      var body := if signed then t[1..] else t;
      if |body| == 0 || !Decimal.AllDigits(body) then None
      else
        var magnitude: int := Decimal.DigitsValue(body);
        Some(if t[0] == '-' then -magnitude else magnitude)
  }

  /** The number `v` converts to when compared (`None` for `NaN`). */
  function ToNumber(v: Field): (r: Option<real>)
    ensures v.Some? && v.value.JNumber? ==> r == Some(v.value.n)
    ensures v.None? ==> r.None?
  {
    match v
    case None => None
    case Some(j) =>
      match j
      case JNull => Some(0.0)
      case JBool(b) => Some(if b then 1.0 else 0.0)
      case JNumber(n) => Some(n)
      case JString(s) =>
        var k := StringToNumber(s);
        if k.Some? then Some(k.value as real) else None
      case JObject => None
  }

  /** `v <= 0` in JavaScript: false whenever `v` converts to `NaN`. */
  predicate AtMostZero(v: Field) {
    ToNumber(v).Some? && ToNumber(v).value <= 0.0
  }

  /** The body of POST /orders. */
  datatype OrderBody = OrderBody(side: Field, donutTypeId: Field, quantity: Field, pricePerUnit: Field,
                                 outletId: Field)

  /** Why an order request is refused with status 400. */
  datatype Rejection = MissingFields | NonPositiveAmounts | InvalidSide

  function RejectionMessage(r: Rejection): string {
    match r
    case MissingFields => "Missing required fields"
    case NonPositiveAmounts => "Quantity and price must be positive"
    case InvalidSide => "Invalid order side"
  }

  /** The side is exactly one of the two side names. */
  predicate KnownSide(v: Field) {
    v == Some(JString("buy")) || v == Some(JString("sell"))
  }

  /** The three checks of POST /orders, as written: `None` means the body
      goes on to `createOrder`. An absent quantity or price passes the
      second check, since `undefined <= 0` is false. */
  function CheckOrderRequestAsWritten(body: OrderBody): Option<Rejection> {
    if !Truthy(body.side) || !Truthy(body.donutTypeId) || !Truthy(body.outletId) then Some(MissingFields)
    else if AtMostZero(body.quantity) || AtMostZero(body.pricePerUnit) then Some(NonPositiveAmounts)
    else if !KnownSide(body.side) then Some(InvalidSide)
    else None
  }

  /** Both the quantity and the price are absent, and the checks let the
      request through. */
  lemma MissingAmountsPassAsWritten()
    ensures var body := OrderBody(Some(JString("buy")), Some(JString("glazed")), None, None, Some(JString("outlet-1")));
            CheckOrderRequestAsWritten(body) == None
  {
  }

  /** `v` is a number greater than zero. */
  predicate PositiveNumber(v: Field) {
    v.Some? && v.value.JNumber? && v.value.n > 0.0
  }

  /** What reaches `createOrder` once the checks pass. */
  datatype OrderFields = OrderFields(side: OrderSide, donutTypeId: Json, outletId: Json,
                                     quantity: real, pricePerUnit: real)

  /** The checks of POST /orders as evidently intended: the quantity and
      the price must be positive numbers, so an absent or non-numeric one is
      refused. */
  function ValidateOrderRequest(body: OrderBody): (r: Result<OrderFields, Rejection>)
    ensures r.Success? ==> r.value.quantity > 0.0 && r.value.pricePerUnit > 0.0
    ensures r.Success? ==> body.side == Some(JString(SideName(r.value.side)))
  {
    if !Truthy(body.side) || !Truthy(body.donutTypeId) || !Truthy(body.outletId) then Failure(MissingFields)
    else if !PositiveNumber(body.quantity) || !PositiveNumber(body.pricePerUnit) then Failure(NonPositiveAmounts)
    else if !KnownSide(body.side) then Failure(InvalidSide)
    else
      var side := if body.side == Some(JString("buy")) then Buy else Sell;
      Success(OrderFields(side, body.donutTypeId.value, body.outletId.value,
                          body.quantity.value.n, body.pricePerUnit.value.n))
  }

  /** A request is accepted exactly when the three required fields are
      truthy, the quantity and the price are positive numbers and the side
      is "buy" or "sell"; a missing field is reported first, whatever else
      is wrong, and a bad amount before a bad side. */
  lemma ValidateOrderRequestIff(body: OrderBody)
    ensures ValidateOrderRequest(body).Success? <==>
              && Truthy(body.side) && Truthy(body.donutTypeId) && Truthy(body.outletId)
              && PositiveNumber(body.quantity) && PositiveNumber(body.pricePerUnit)
              && KnownSide(body.side)
    ensures !Truthy(body.side) || !Truthy(body.donutTypeId) || !Truthy(body.outletId) ==>
              ValidateOrderRequest(body) == Failure(MissingFields)
    ensures && Truthy(body.side) && Truthy(body.donutTypeId) && Truthy(body.outletId)
            && !(PositiveNumber(body.quantity) && PositiveNumber(body.pricePerUnit)) ==>
              ValidateOrderRequest(body) == Failure(NonPositiveAmounts)
    ensures ValidateOrderRequest(body).Success? ==>
              && body.donutTypeId == Some(ValidateOrderRequest(body).value.donutTypeId)
              && body.outletId == Some(ValidateOrderRequest(body).value.outletId)
              && body.quantity == Some(JNumber(ValidateOrderRequest(body).value.quantity))
              && body.pricePerUnit == Some(JNumber(ValidateOrderRequest(body).value.pricePerUnit))
  {
  }

  /** The corrected checks only refuse more: anything they accept the
      checks as written accept too, the missing-field check is the same,
      and an amount refused as written is refused for the same reason. */
  lemma CorrectedIsStricter(body: OrderBody)
    ensures ValidateOrderRequest(body).Success? ==> CheckOrderRequestAsWritten(body) == None
    ensures CheckOrderRequestAsWritten(body) == Some(MissingFields) <==>
              ValidateOrderRequest(body) == Failure(MissingFields)
    ensures CheckOrderRequestAsWritten(body) == Some(NonPositiveAmounts) ==>
              ValidateOrderRequest(body) == Failure(NonPositiveAmounts)
  {
  }

  /** When the quantity and the price are numbers, the two versions agree. */
  lemma AsWrittenAgreesOnNumbers(body: OrderBody)
    requires body.quantity.Some? && body.quantity.value.JNumber?
    requires body.pricePerUnit.Some? && body.pricePerUnit.value.JNumber?
    ensures CheckOrderRequestAsWritten(body) == None <==> ValidateOrderRequest(body).Success?
    ensures CheckOrderRequestAsWritten(body).Some? ==>
              ValidateOrderRequest(body) == Failure(CheckOrderRequestAsWritten(body).value)
  {
  }

  /** The corrected checks refuse the request the checks as written let
      through. */
  lemma MissingAmountsRefusedCorrected()
    ensures var body := OrderBody(Some(JString("buy")), Some(JString("glazed")), None, None, Some(JString("outlet-1")));
            ValidateOrderRequest(body) == Failure(NonPositiveAmounts)
  {
  }

  /** PATCH /outlets/:outletId/margin: the margin, when it is a number
      from 0 to 100 inclusive. */
  function CheckMargin(v: Field): (m: Option<real>)
    ensures m.Some? <==> v.Some? && v.value.JNumber? && 0.0 <= v.value.n <= 100.0
    ensures m.Some? ==> v == Some(JNumber(m.value))
  {
    if v.Some? && v.value.JNumber? && 0.0 <= v.value.n && v.value.n <= 100.0 then Some(v.value.n) else None
  }

  /** An accepted margin puts the retail price between the base price and
      twice it, and meets what the default restocking ladder assumes. */
  lemma AcceptedMarginBounds(v: Field, outlet: Outlet)
    requires CheckMargin(v).Some? && outlet.marginPercent == CheckMargin(v).value
    ensures Customers.BaseDonutPrice <= Customers.CalculatePrice(outlet) <= 2.0 * Customers.BaseDonutPrice
    ensures 10 <= Purchasing.BaseStock(outlet.marginPercent) <= 30
  {
    Purchasing.DefaultStrategyIsLadder("", outlet);
  }

  /** The toggle routes: the flag, when it is a boolean. */
  function CheckToggle(v: Field): (b: Option<bool>)
    ensures b.Some? <==> v.Some? && v.value.JBool?
    ensures b.Some? ==> v == Some(JBool(b.value))
  {
    if v.Some? && v.value.JBool? then Some(v.value.b) else None
  }

  /** The default of the transaction lists. */
  const DefaultTransactionLimit := 100

  /** The `limit` of GET /transactions: 100 when the parameter is absent or
      empty, otherwise what `parseInt` makes of it (`None` for `NaN`). */
  function TransactionLimit(query: Option<string>): (limit: Option<int>)
    ensures query.None? || query == Some("") ==> limit == Some(DefaultTransactionLimit)
  {
    if query.None? || query.value == "" then Some(DefaultTransactionLimit) else Decimal.ParseInt(query.value)
  }

  /** A limit written in decimal is read back as that number. */
  lemma TransactionLimitOfDecimal(n: nat)
    ensures TransactionLimit(Some(Decimal.DecimalString(n))) == Some(n)
  {
    Decimal.ParseIntOfDecimalString(n);
  }
}
