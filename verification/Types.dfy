/** The vocabulary of the matching core: commands, events, orders and symbol configuration. */
module Types {

  datatype Option<+T> = None | Some(value: T)

  datatype Side = Buy | Sell {
    function Opposite(): Side {
      if this == Buy then Sell else Buy
    }
  }

  datatype OrderType = Limit | Market

  datatype TimeInForce = GTC | IOC | FOK | PO

  datatype RejectReason =
    | InvalidSymbol
    | InvalidPrice
    | InvalidQuantity
    | DuplicateCommand
    | DuplicateOrder
    | OrderNotFound
    | MarketClosed
    | InsufficientBalanceLiquidity

  datatype SymbolConfig = SymbolConfig(
    symbolId: nat,
    tickSize: int,
    lotSize: nat,
    minQuantity: nat,
    maxQuantity: nat,
    minPrice: int,
    maxPrice: int,
    ringCapacityTicks: nat,
    initialBaseTick: int,
    tradingEnabled: bool)

  /** An order's value: what the book knows about it apart from its links. */
  datatype OrderSnapshot = OrderSnapshot(
    orderId: nat,
    clientOrderId: nat,
    userId: nat,
    symbolId: nat,
    side: Side,
    price: int,
    original: nat,
    remaining: nat,
    sequenceAccepted: nat)

  datatype PlaceOrderCommand = PlaceOrderCommand(
    commandId: nat,
    clientOrderId: nat,
    orderId: nat,
    userId: nat,
    symbolId: nat,
    side: Side,
    orderType: OrderType,
    timeInForce: TimeInForce,
    price: int,
    quantity: nat)

  datatype CancelOrderCommand = CancelOrderCommand(
    commandId: nat,
    userId: nat,
    symbolId: nat,
    orderId: nat,
    clientOrderId: nat)

  /** `Malformed` is a command whose kind comes without its payload. */
  datatype EngineCommand = Place(place: PlaceOrderCommand) | Cancel(cancel: CancelOrderCommand) | Malformed

  datatype EngineEvent =
    | OrderAccepted(eventId: nat, sequence: nat, orderId: nat, clientOrderId: nat, userId: nat,
                    symbolId: nat, side: Side, price: int, quantity: nat)
    | OrderRejected(eventId: nat, sequence: nat, commandId: nat, rejectedOrderId: Option<nat>, userId: nat,
                    symbolId: nat, reason: RejectReason)
    | TradeExecuted(eventId: nat, sequence: nat, tradeId: nat, symbolId: nat, makerOrderId: nat,
                    takerOrderId: nat, price: int, quantity: nat)
    | OrderPartial(eventId: nat, sequence: nat, orderId: nat, filledQuantity: nat, remainingQuantity: nat)
    | OrderFilled(eventId: nat, sequence: nat, orderId: nat)
    | OrderCancelled(eventId: nat, sequence: nat, orderId: nat, releasedQuantity: nat)
    | OrderBookDelta(eventId: nat, sequence: nat, symbolId: nat, side: Side, price: int, totalQuantityAtPrice: nat)

  datatype SequenceState = SequenceState(nextSequence: nat, nextTradeId: nat, nextEventId: nat)

  /** `Price::max` and `Price::min`: the limits a market order matches at. */
  const PRICE_MAX: int := 0x7FFF_FFFF_FFFF_FFFF
  const PRICE_MIN: int := -0x8000_0000_0000_0000

  const LOTS_LIMIT: nat := 0x1_0000_0000_0000_0000

  function Min(a: int, b: int): int {
    if a < b then a else b
  }

  function Max(a: int, b: int): int {
    if a < b then b else a
  }

  function Abs(a: int): nat {
    if a < 0 then -a else a
  }

  /** Integer division that truncates toward zero. */
  function TruncDiv(a: int, b: int): (q: int)
    requires b != 0
  {
    if a >= 0 then a / b else -((-a) / b)
  }

  predicate ValidSymbolPrice(price: int, config: SymbolConfig) {
    price > 0 && config.tickSize > 0 && config.minPrice <= price <= config.maxPrice && price % config.tickSize == 0
  }

  predicate ValidSymbolQuantity(quantity: nat, config: SymbolConfig) {
    quantity > 0 && config.lotSize > 0 && config.minQuantity <= quantity <= config.maxQuantity
    && quantity % config.lotSize == 0
  }
}
