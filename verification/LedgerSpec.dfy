/** The ledger of positions, risks and order metadata, and how the core's events change it. */
module LedgerSpec {
  import opened Types
  import opened Accounting

  datatype Key = Key(userId: nat, marketId: nat)

  /** `pending` is the metadata of the order being processed; it is looked up before the stored metadata. */
  datatype Ledger = Ledger(
    metadata: map<nat, Metadata>,
    pending: Option<Metadata>,
    positions: map<Key, Position>,
    risks: map<Key, Risk>)

  type Marks = map<nat, int>

  datatype CommandKind = PlaceKind | CancelKind | LiquidationKind | AdlKind

  datatype Settlement = Settlement(orderId: nat, amount: int)

  /** What the runtime announces, without the decoration of its payloads. */
  datatype Output =
    | TradeOutput(makerOrderId: nat, takerOrderId: nat, price: int, quantity: nat, settlements: seq<Settlement>)
    | AccountDelta(key: Key, amount: int)
    | PositionChanged(key: Key, position: Position, realized: int)
    | ReservationReleased(orderId: nat, amount: int)
    | CancelReleased(orderId: nat, amount: int)
    | OrderExpired(orderId: nat, expired: int, amount: int)
    | LiquidationStarted(key: Key)
    | LiquidationCompleted(key: Key, remaining: nat)
    | FundingPaid(marketId: nat, interval: string, payments: map<Key, int>)
    | MarkUpdated(marketId: nat, mark: int)
    | RateUpdated(marketId: nat, interval: string)

  datatype Booked = Booked(ledger: Ledger, outputs: seq<Output>)

  function Find(l: Ledger, orderId: nat): Option<Metadata> {
    if l.pending.Some? && l.pending.value.orderId == orderId then l.pending
    else if orderId in l.metadata then Some(l.metadata[orderId])
    else None
  }

  /** Write metadata back to where it was found. */
  function Store(l: Ledger, orderId: nat, md: Metadata): Ledger {
    if l.pending.Some? && l.pending.value.orderId == orderId then l.(pending := Some(md))
    else l.(metadata := l.metadata[orderId := md])
  }

  function PositionAt(positions: map<Key, Position>, key: Key): Position {
    if key in positions then positions[key] else NoPosition
  }

  function MarkFor(marks: Marks, marketId: nat, otherwise: int): int {
    if marketId in marks then marks[marketId] else otherwise
  }

  /** Book one side of a trade: take margin from the reservation, change the position, recompute its risk. */
  function BookSide(l: Ledger, orderId: nat, fill: nat, price: int, marks: Marks): Booked {
    var found := Find(l, orderId);
    if found.None? then Booked(l, [])
    else
      var md := found.value;
      var key := Key(md.userId, md.marketId);
      var (taken, md') := AllocateMargin(md, fill, price);
      var p, signed := PositionAt(l.positions, key), SignedFill(md.side, fill);
      var p' := ApplyFill(p, md.leverage, signed, price, taken);
      var realized := RealizedPnl(p, signed, price);
      Booked(Store(l, orderId, md').(positions := l.positions[key := p'],
                                     risks := l.risks[key := RiskOf(p', MarkFor(marks, md.marketId, price), 0)]),
             (if realized != 0 then [AccountDelta(key, realized)] else []) + [PositionChanged(key, p', realized)])
  }

  function SettlementFor(found: Option<Metadata>, fill: nat, price: int): seq<Settlement> {
    if found.None? || found.value.reduceOnly then []
    else
      var margin := PreviewMargin(found.value, fill, price);
      if margin <= 0 then [] else [Settlement(found.value.orderId, margin)]
  }

  function Settlements(l: Ledger, makerId: nat, takerId: nat, fill: nat, price: int, kind: CommandKind): seq<Settlement> {
    match kind
    case AdlKind => []
    case LiquidationKind =>
      var maker := Find(l, makerId);
      if maker.None? then [] else [Settlement(maker.value.orderId, PreviewMargin(maker.value, fill, price))]
    case _ => SettlementFor(Find(l, makerId), fill, price) + SettlementFor(Find(l, takerId), fill, price)
  }

  /**
    Book a trade: announce it with its settlements, then the maker's side, then the taker's.  The made-up order of a
    deleveraging trade is announced without its id.
   */
  function BookTrade(l: Ledger, makerId: nat, takerId: nat, fill: nat, price: int, marks: Marks, kind: CommandKind)
    : Booked
  {
    var trade := TradeOutput(if kind == AdlKind then 0 else makerId, takerId, price, fill,
                             Settlements(l, makerId, takerId, fill, price, kind));
    var maker := BookSide(l, makerId, fill, price, marks);
    var taker := BookSide(maker.ledger, takerId, fill, price, marks);
    Booked(taker.ledger, [trade] + maker.outputs + taker.outputs)
  }

  function BookEvent(l: Ledger, e: EngineEvent, marks: Marks, kind: CommandKind): Booked {
    match e
    case TradeExecuted(_, _, _, _, makerId, takerId, price, quantity) =>
      BookTrade(l, makerId, takerId, quantity, price, marks, kind)
    case OrderRejected(_, _, _, rejectedId, _, _, _) =>
      var found := if rejectedId.Some? then Find(l, rejectedId.value) else l.pending;
      Booked(l, if kind == PlaceKind && found.Some? && found.value.remainingReserved > 0
                then [ReservationReleased(found.value.orderId, found.value.remainingReserved)] else [])
    case OrderCancelled(_, _, orderId, _) =>
      var found := Find(l, orderId);
      Booked(l, [CancelReleased(orderId, if found.Some? then found.value.remainingReserved else 0)])
    case _ => Booked(l, [])
  }

  /** Translate the core's events in order. */
  function BookAll(l: Ledger, events: seq<EngineEvent>, marks: Marks, kind: CommandKind): Booked
    decreases |events|
  {
    if events == [] then Booked(l, [])
    else
      var first := BookEvent(l, events[0], marks, kind);
      var rest := BookAll(first.ledger, events[1..], marks, kind);
      Booked(rest.ledger, first.outputs + rest.outputs)
  }

  /** The ids of the orders that an event list completes. */
  function Completed(events: seq<EngineEvent>): set<nat> {
    if events == [] then {}
    else (if events[0].OrderFilled? || events[0].OrderCancelled? then {events[0].orderId} else {}) + Completed(events[1..])
  }

  /** Forget the metadata of completed orders. */
  function Cleanup(metadata: map<nat, Metadata>, events: seq<EngineEvent>): map<nat, Metadata> {
    metadata - Completed(events)
  }
}
