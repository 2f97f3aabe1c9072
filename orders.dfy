/** The simulation request models: an order with an optional bracket
    (stop loss and take profit) around its entry price, and a request that
    places a list of orders inside a time window.

    Acceptance follows the model library's checks: each field's own
    constraint and validator, then the cross-field checks of an order, which
    run only when every field was accepted.  The errors are listed field by
    field; the library may report an omitted entry price of a limit order
    later, with the cross-field checks, which changes only the listing.  Prices are exact integers in a fixed smallest unit; times are
    UTC seconds. */
module Orders {
  import opened Wrappers
  import opened Text
  import PriceData

  datatype OrderType = Market | Limit
  datatype OrderSide = Buy | Sell

  datatype Order = Order(
    entryTime: int,
    entryType: OrderType,
    entryPrice: Option<int>,
    side: OrderSide,
    stopLoss: Option<int>,
    takeProfit: Option<int>)

  datatype OrderError =
    | EntryPriceNotPositive
    | EntryPriceRequired
    | StopLossNotPositive
    | TakeProfitNotPositive
    | StopLossNotBelowEntry
    | TakeProfitNotAboveEntry
    | StopLossNotAboveEntry
    | TakeProfitNotBelowEntry

  function OrderErrorMessage(e: OrderError): string
  {
    match e
    case EntryPriceNotPositive => "entry_price must be greater than 0"
    case EntryPriceRequired => "entry_price is required for limit orders"
    case StopLossNotPositive => "stop_loss must be greater than 0"
    case TakeProfitNotPositive => "take_profit must be greater than 0"
    case StopLossNotBelowEntry => "Stop loss must be below entry price for buy orders"
    case TakeProfitNotAboveEntry => "Take profit must be above entry price for buy orders"
    case StopLossNotAboveEntry => "Stop loss must be above entry price for sell orders"
    case TakeProfitNotBelowEntry => "Take profit must be below entry price for sell orders"
  }

  predicate PositiveIfPresent(p: Option<int>)
  {
    p.Some? ==> p.value > 0
  }

  /** The bracket rule: for a buy the stop is under and the target over the
      entry; for a sell the other way round.  Without an entry price nothing
      is related. */
  predicate BracketConsistent(o: Order)
  {
    o.entryPrice.Some? ==>
      var e := o.entryPrice.value;
      match o.side
      case Buy => (o.stopLoss.Some? ==> o.stopLoss.value < e) && (o.takeProfit.Some? ==> o.takeProfit.value > e)
      case Sell => (o.stopLoss.Some? ==> o.stopLoss.value > e) && (o.takeProfit.Some? ==> o.takeProfit.value < e)
  }

  /** Every order that construction accepts. */
  predicate ValidOrder(o: Order)
  {
    PositiveIfPresent(o.entryPrice) && PositiveIfPresent(o.stopLoss) && PositiveIfPresent(o.takeProfit)
    && (o.entryType == Limit ==> o.entryPrice.Some?)
    && BracketConsistent(o)
  }

  /** The per-field errors, in field order: entry price (positivity, then the
      limit-order requirement), stop loss, take profit. */
  function FieldErrors(o: Order): (errs: seq<OrderError>)
    ensures |errs| == 0 <==>
      PositiveIfPresent(o.entryPrice) && PositiveIfPresent(o.stopLoss) && PositiveIfPresent(o.takeProfit)
      && (o.entryType == Limit ==> o.entryPrice.Some?)
  {
    (if !PositiveIfPresent(o.entryPrice) then [EntryPriceNotPositive]
     else if o.entryType == Limit && o.entryPrice.None? then [EntryPriceRequired]
     else [])
    + (if !PositiveIfPresent(o.stopLoss) then [StopLossNotPositive] else [])
    + (if !PositiveIfPresent(o.takeProfit) then [TakeProfitNotPositive] else [])
  }

  /** The post-construction check: the first broken bracket relation, stop
      loss before take profit. */
  function BracketError(o: Order): (r: Option<OrderError>)
    ensures r.None? <==> BracketConsistent(o)
    ensures r.Some? ==> o.entryPrice.Some?
  {
    if o.entryPrice.None? then None
    else
      var e := o.entryPrice.value;
      match o.side
      case Buy =>
        if o.stopLoss.Some? && o.stopLoss.value >= e then Some(StopLossNotBelowEntry)
        else if o.takeProfit.Some? && o.takeProfit.value <= e then Some(TakeProfitNotAboveEntry)
        else None
      case Sell =>
        if o.stopLoss.Some? && o.stopLoss.value <= e then Some(StopLossNotAboveEntry)
        else if o.takeProfit.Some? && o.takeProfit.value >= e then Some(TakeProfitNotBelowEntry)
        else None
  }

  /** `Order(...)`: the order itself, or the errors that reject it. */
  function NewOrder(o: Order): (r: Result<Order, seq<OrderError>>)
    ensures r.Ok? <==> ValidOrder(o)
    ensures r.Ok? ==> r.value == o
    ensures r.Err? ==> |r.error| > 0
  {
    var errs := FieldErrors(o);
    if |errs| > 0 then Err(errs)
    else match BracketError(o)
      case Some(e) => Err([e])
      case None => Ok(o)
  }

  /** A limit order without an entry price is always rejected, and for that reason. */
  lemma LimitNeedsEntryPrice(o: Order)
    requires o.entryType == Limit && o.entryPrice.None?
    ensures NewOrder(o).Err? && EntryPriceRequired in NewOrder(o).error
  {
  }

  /** A buy whose stop is at or above a valid entry is rejected with the
      stop-loss message first. */
  lemma BuyStopAtOrAboveEntry(o: Order)
    requires o.side == Buy && o.entryPrice.Some? && o.stopLoss.Some?
    requires o.entryPrice.value > 0 && o.stopLoss.value >= o.entryPrice.value
    requires PositiveIfPresent(o.takeProfit)
    ensures NewOrder(o) == Err([StopLossNotBelowEntry])
  {
  }

  /** A sell whose stop is at or below a valid entry is rejected with the
      stop-loss message first. */
  lemma SellStopAtOrBelowEntry(o: Order)
    requires o.side == Sell && o.entryPrice.Some? && o.stopLoss.Some?
    requires o.stopLoss.value > 0 && o.stopLoss.value <= o.entryPrice.value
    requires PositiveIfPresent(o.takeProfit)
    ensures NewOrder(o) == Err([StopLossNotAboveEntry])
  {
  }

  /** A market order without an entry price is accepted whatever its side,
      as long as the levels it carries are positive. */
  lemma MarketWithoutEntryUnbracketed(o: Order)
    requires o.entryType == Market && o.entryPrice.None?
    ensures NewOrder(o).Ok? <==> PositiveIfPresent(o.stopLoss) && PositiveIfPresent(o.takeProfit)
  {
  }

  /** Flipping the side of a fully bracketed order never keeps it valid: the
      two sides demand opposite relations. */
  lemma SidesExclusive(o: Order)
    requires o.entryPrice.Some? && (o.stopLoss.Some? || o.takeProfit.Some?)
    ensures !(BracketConsistent(o.(side := Buy)) && BracketConsistent(o.(side := Sell)))
  {
  }

  const MaxSymbolLength: nat := 20

  datatype SimulationRequest = SimulationRequest(
    symbol: string,
    timeframe: PriceData.Timeframe,
    start: int,
    end: int,
    orders: seq<Order>)

  datatype RequestError =
    | SymbolLength
    | SymbolNotAlphanumeric
    | EndNotAfterStart
    | NoOrders
    | OrderOutsideWindow(index: nat)

  function RequestErrorMessage(e: RequestError): string
  {
    match e
    case SymbolLength => "symbol must have between 1 and 20 characters"
    case SymbolNotAlphanumeric => "Symbol must contain only alphanumeric characters"
    case EndNotAfterStart => "End time must be after start time"
    case NoOrders => "orders must have at least 1 item"
    case OrderOutsideWindow(_) => "Order entry time is outside simulation window"
  }

  predicate InWindow(o: Order, start: int, end: int)
  {
    start <= o.entryTime <= end
  }

  /** The position of the first order outside [start, end], if any. */
  function FirstOutsideWindow(orders: seq<Order>, start: int, end: int): (r: Option<nat>)
    ensures r.None? <==> forall i :: 0 <= i < |orders| ==> InWindow(orders[i], start, end)
    ensures r.Some? ==> r.value < |orders| && !InWindow(orders[r.value], start, end)
    ensures r.Some? ==> forall i :: 0 <= i < r.value ==> InWindow(orders[i], start, end)
  {
    if |orders| == 0 then None
    else if !InWindow(orders[0], start, end) then Some(0)
    else
      match FirstOutsideWindow(orders[1..], start, end)
      case None => None
      case Some(k) => Some(k + 1)
  }

  /** The errors of each field, in field order.  The window check of the
      orders runs only when `end` was itself accepted, as the validator sees
      only fields validated before it. */
  function RequestErrors(symbol: string, start: int, end: int, orders: seq<Order>): seq<RequestError>
  {
    (if |symbol| < 1 || |symbol| > MaxSymbolLength then [SymbolLength]
     else if !IsAlnum(symbol) then [SymbolNotAlphanumeric]
     else [])
    + (if end <= start then [EndNotAfterStart] else [])
    + (if |orders| == 0 then [NoOrders]
       else if end <= start then []
       else match FirstOutsideWindow(orders, start, end)
         case Some(k) => [OrderOutsideWindow(k)]
         case None => [])
  }

  /** What an accepted request satisfies. */
  predicate ValidRequest(r: SimulationRequest)
  {
    1 <= |r.symbol| <= MaxSymbolLength && IsAlnum(r.symbol)
    && (forall i :: 0 <= i < |r.symbol| ==> !IsAsciiLower(r.symbol[i]))
    && r.start < r.end
    && |r.orders| >= 1
    && forall i :: 0 <= i < |r.orders| ==> InWindow(r.orders[i], r.start, r.end)
  }

  /** `SimulationRequest(...)`: the request with its symbol upper-cased, or
      the errors that reject it. */
  function NewSimulationRequest(symbol: string, timeframe: PriceData.Timeframe, start: int, end: int,
                                orders: seq<Order>): (r: Result<SimulationRequest, seq<RequestError>>)
    ensures r.Ok? <==>
      1 <= |symbol| <= MaxSymbolLength && IsAlnum(symbol) && start < end && |orders| >= 1
      && forall i :: 0 <= i < |orders| ==> InWindow(orders[i], start, end)
    ensures r.Ok? ==> ValidRequest(r.value)
    ensures r.Ok? ==> r.value == SimulationRequest(Upper(symbol), timeframe, start, end, orders)
    ensures r.Err? ==> |r.error| > 0
  {
    var errs := RequestErrors(symbol, start, end, orders);
    if |errs| > 0 then Err(errs)
    else
      UpperKeepsAlnum(symbol);
      Ok(SimulationRequest(Upper(symbol), timeframe, start, end, orders))
  }

  /** Upper-casing keeps a symbol alphanumeric and leaves no lower-case letter. */
  lemma UpperKeepsAlnum(s: string)
    requires IsAlnum(s)
    ensures IsAlnum(Upper(s))
    ensures forall i :: 0 <= i < |s| ==> !IsAsciiLower(Upper(s)[i])
  {
    forall i | 0 <= i < |s|
      ensures IsAsciiUpper(Upper(s)[i]) || IsAsciiLower(Upper(s)[i]) || '0' <= Upper(s)[i] <= '9'
    {
      assert Upper(s)[i] == UpperChar(s[i]);
    }
  }

  /** The symbol's case does not decide acceptance, and the accepted symbol
      is the same whichever case it was written in. */
  lemma RequestIgnoresSymbolCase(symbol: string, tf: PriceData.Timeframe, start: int, end: int, orders: seq<Order>)
    requires IsAlnum(symbol)
    ensures NewSimulationRequest(Lower(symbol), tf, start, end, orders).Ok? <==>
            NewSimulationRequest(symbol, tf, start, end, orders).Ok?
    ensures NewSimulationRequest(symbol, tf, start, end, orders).Ok? ==>
            NewSimulationRequest(Lower(symbol), tf, start, end, orders).value ==
            NewSimulationRequest(symbol, tf, start, end, orders).value
  {
    LowerKeepsAlnum(symbol);
    UpperOfLower(symbol);
  }

  lemma LowerKeepsAlnum(s: string)
    requires IsAlnum(s)
    ensures IsAlnum(Lower(s))
  {
    forall i | 0 <= i < |s|
      ensures IsAsciiUpper(Lower(s)[i]) || IsAsciiLower(Lower(s)[i]) || '0' <= Lower(s)[i] <= '9'
    {
      assert Lower(s)[i] == LowerChar(s[i]);
    }
  }

  /** An order placed exactly at either end of the window is inside it. */
  lemma WindowEndsInclusive(o: Order, start: int, end: int)
    requires start < end && (o.entryTime == start || o.entryTime == end)
    ensures NewSimulationRequest("A", PriceData.OneMin, start, end, [o]).Ok?
  {
    assert IsAlnum("A");
  }
}
