/**
  The order book as a reference: each side is one queue of orders, best price first and, within a
  price, earliest arrival first.  The matching rules are stated on these queues; the fast book in
  OrderBook.dfy is proved to compute exactly what is defined here.
 */
module BookSpec {
  import opened Types

  type Queue = seq<OrderSnapshot>

  datatype Book = Book(config: SymbolConfig, bids: Queue, asks: Queue, lastTradePrice: Option<int>) {
    function SideQueue(side: Side): Queue {
      if side == Buy then bids else asks
    }

    function WithSide(side: Side, queue: Queue): Book {
      if side == Buy then this.(bids := queue) else this.(asks := queue)
    }
  }

  function EmptyBook(config: SymbolConfig): Book {
    Book(config, [], [], None)
  }

  predicate Better(side: Side, candidate: int, current: int) {
    if side == Buy then candidate > current else candidate < current
  }

  /** Whether an incoming limit reaches a resting price on the given resting side. */
  predicate Crosses(restingSide: Side, incoming: int, resting: int) {
    if restingSide == Sell then incoming >= resting else incoming <= resting
  }

  // ---------- Queues ----------

  /** Place o behind every order whose price is at least as good. */
  function Insert(side: Side, q: Queue, o: OrderSnapshot): Queue {
    if q == [] then [o]
    else if Better(side, o.price, q[0].price) then [o] + q
    else [q[0]] + Insert(side, q[1..], o)
  }

  function RemoveId(q: Queue, id: nat): Queue {
    if q == [] then []
    else if q[0].orderId == id then RemoveId(q[1..], id)
    else [q[0]] + RemoveId(q[1..], id)
  }

  /** The FIFO at one price. */
  function AtPrice(q: Queue, price: int): Queue {
    if q == [] then []
    else if q[0].price == price then [q[0]] + AtPrice(q[1..], price)
    else AtPrice(q[1..], price)
  }

  function Lots(q: Queue): nat {
    if q == [] then 0 else q[0].remaining + Lots(q[1..])
  }

  /** Total lots resting at a price: the level total. */
  function LevelLots(q: Queue, price: int): nat {
    Lots(AtPrice(q, price))
  }

  predicate HasId(q: Queue, id: nat) {
    exists i :: 0 <= i < |q| && q[i].orderId == id
  }

  predicate HasClient(q: Queue, client: nat) {
    exists i :: 0 <= i < |q| && q[i].clientOrderId == client
  }

  function FindId(q: Queue, id: nat): (r: Option<OrderSnapshot>)
    ensures r.Some? <==> HasId(q, id)
    ensures r.Some? ==> r.value in q && r.value.orderId == id
  {
    if q == [] then None
    else if q[0].orderId == id then Some(q[0])
    else assert forall i :: 1 <= i < |q| ==> q[i] == q[1..][i - 1]; FindId(q[1..], id)
  }

  function FindClient(q: Queue, client: nat): (r: Option<OrderSnapshot>)
    ensures r.Some? <==> HasClient(q, client)
    ensures r.Some? ==> r.value in q && r.value.clientOrderId == client
  {
    if q == [] then None
    else if q[0].clientOrderId == client then Some(q[0])
    else assert forall i :: 1 <= i < |q| ==> q[i] == q[1..][i - 1]; FindClient(q[1..], client)
  }

  // ---------- Matching ----------

  datatype Taker = Taker(orderId: nat, limit: int, original: nat, remaining: nat)

  datatype MatchResult = MatchResult(
    queue: Queue, taker: Taker, sequences: SequenceState, events: seq<EngineEvent>, lastTradePrice: Option<int>)

  /** The events of one fill: the trade, the maker's new state, the taker's new state, the level's new total. */
  function FillEvents(symbolId: nat, maker: OrderSnapshot, taker: Taker, fill: nat, levelTotal: nat, s: SequenceState)
    : (events: seq<EngineEvent>)
    requires fill <= maker.remaining && fill <= taker.remaining
    requires maker.remaining <= maker.original && taker.remaining <= taker.original
    ensures |events| == 4
  {
    [ TradeExecuted(s.nextEventId, s.nextSequence, s.nextTradeId, symbolId, maker.orderId, taker.orderId,
                    maker.price, fill),
      ProgressEvent(s.nextEventId + 1, s.nextSequence + 1, maker.orderId, maker.original, maker.remaining - fill),
      ProgressEvent(s.nextEventId + 2, s.nextSequence + 2, taker.orderId, taker.original, taker.remaining - fill),
      OrderBookDelta(s.nextEventId + 3, s.nextSequence + 3, symbolId, maker.side, maker.price, levelTotal) ]
  }

  function ProgressEvent(eventId: nat, sequence: nat, orderId: nat, original: nat, remaining: nat): EngineEvent
    requires remaining <= original
  {
    if remaining == 0 then OrderFilled(eventId, sequence, orderId)
    else OrderPartial(eventId, sequence, orderId, original - remaining, remaining)
  }

  function AfterFill(s: SequenceState): SequenceState {
    SequenceState(s.nextSequence + 4, s.nextTradeId + 1, s.nextEventId + 4)
  }

  predicate Matchable(side: Side, q: Queue, taker: Taker) {
    taker.remaining > 0 && q != [] && Crosses(side, taker.limit, q[0].price)
  }

  predicate SaneQuantities(q: Queue) {
    forall o <- q :: 0 < o.remaining <= o.original
  }

  /** The queue after its best order gave up `fill` lots. */
  function ConsumeFront(q: Queue, fill: nat): Queue
    requires q != [] && fill <= q[0].remaining
  {
    if fill == q[0].remaining then q[1..]
    else [q[0].(remaining := q[0].remaining - fill)] + q[1..]
  }

  /** Fill the taker against the best order again and again. */
  function Match(symbolId: nat, side: Side, q: Queue, taker: Taker, s: SequenceState, last: Option<int>)
    : MatchResult
    requires SaneQuantities(q) && taker.remaining <= taker.original
    decreases |q| + taker.remaining
  {
    if !Matchable(side, q, taker) then MatchResult(q, taker, s, [], last)
    else
      var maker := q[0];
      var fill: nat := Min(taker.remaining, maker.remaining);
      FrontLots(q);
      var events := FillEvents(symbolId, maker, taker, fill, LevelLots(q, maker.price) - fill, s);
      var rest := Match(symbolId, side, ConsumeFront(q, fill), taker.(remaining := taker.remaining - fill),
                        AfterFill(s), Some(maker.price));
      rest.(events := events + rest.events)
  }

  lemma FrontLots(q: Queue)
    requires q != []
    ensures LevelLots(q, q[0].price) >= q[0].remaining
  {
  }

  // ---------- Commands ----------

  datatype BookResult = BookResult(book: Book, sequences: SequenceState, events: seq<EngineEvent>)

  function OptionalOrderId(id: nat): Option<nat> {
    if id == 0 then None else Some(id)
  }

  function NextEvent(s: SequenceState): SequenceState {
    s.(nextSequence := s.nextSequence + 1, nextEventId := s.nextEventId + 1)
  }

  function Rejection(s: SequenceState, commandId: nat, orderId: nat, userId: nat, symbolId: nat, reason: RejectReason)
    : EngineEvent
  {
    OrderRejected(s.nextEventId, s.nextSequence, commandId, OptionalOrderId(orderId), userId, symbolId, reason)
  }

  function Reject(book: Book, s: SequenceState, c: PlaceOrderCommand, reason: RejectReason): BookResult {
    BookResult(book, NextEvent(s), [Rejection(s, c.commandId, c.orderId, c.userId, c.symbolId, reason)])
  }

  function MatchLimit(c: PlaceOrderCommand): int {
    if c.orderType == Market then (if c.side == Buy then PRICE_MAX else PRICE_MIN) else c.price
  }

  /** Lots the opposing side offers at prices the limit reaches. */
  function CrossingLots(side: Side, q: Queue, limit: int): nat {
    if q == [] || !Crosses(side, limit, q[0].price) then 0
    else q[0].remaining + CrossingLots(side, q[1..], limit)
  }

  function CanRest(c: PlaceOrderCommand): bool {
    c.orderType == Limit && (c.timeInForce == GTC || c.timeInForce == PO)
  }

  /** Why a placement is turned away, if it is. */
  function PlaceRejection(book: Book, c: PlaceOrderCommand): Option<RejectReason> {
    var opposite := book.SideQueue(c.side.Opposite());
    if HasId(book.bids + book.asks, c.orderId) || HasClient(book.bids + book.asks, c.clientOrderId) then
      Some(DuplicateOrder)
    else if !book.config.tradingEnabled then Some(MarketClosed)
    else if !ValidSymbolQuantity(c.quantity, book.config) then Some(InvalidQuantity)
    else if c.orderType == Limit && !ValidSymbolPrice(c.price, book.config) then Some(InvalidPrice)
    else if c.timeInForce == PO && opposite != [] && Crosses(c.side.Opposite(), c.price, opposite[0].price) then
      Some(InvalidPrice)
    else if c.timeInForce == FOK && CrossingLots(c.side.Opposite(), opposite, MatchLimit(c)) < c.quantity then
      Some(InsufficientBalanceLiquidity)
    else None
  }

  function RestingSnapshot(c: PlaceOrderCommand, remaining: nat, sequenceAccepted: nat): OrderSnapshot {
    OrderSnapshot(c.orderId, c.clientOrderId, c.userId, c.symbolId, c.side, c.price, c.quantity, remaining,
                  sequenceAccepted)
  }

  function MatchOf(book: Book, s: SequenceState, c: PlaceOrderCommand): MatchResult
    requires SaneQuantities(book.SideQueue(c.side.Opposite()))
  {
    Match(book.config.symbolId, c.side.Opposite(), book.SideQueue(c.side.Opposite()),
          Taker(c.orderId, MatchLimit(c), c.quantity, c.quantity), NextEvent(s), book.lastTradePrice)
  }

  function ProcessPlace(book: Book, s: SequenceState, c: PlaceOrderCommand): BookResult
    requires SaneQuantities(book.bids) && SaneQuantities(book.asks)
  {
    var rejection := PlaceRejection(book, c);
    if rejection.Some? then Reject(book, s, c, rejection.value)
    else
      var accepted := OrderAccepted(s.nextEventId, s.nextSequence, c.orderId, c.clientOrderId, c.userId, c.symbolId,
                                    c.side, c.price, c.quantity);
      var m := MatchOf(book, s, c);
      var matched := book.WithSide(c.side.Opposite(), m.queue).(lastTradePrice := m.lastTradePrice);
      if CanRest(c) && m.taker.remaining > 0 then
        var resting := RestingSnapshot(c, m.taker.remaining, s.nextSequence);
        var own := Insert(c.side, matched.SideQueue(c.side), resting);
        BookResult(matched.WithSide(c.side, own), NextEvent(m.sequences),
                   [accepted] + m.events + [OrderBookDelta(m.sequences.nextEventId, m.sequences.nextSequence,
                                                           c.symbolId, c.side, c.price, LevelLots(own, c.price))])
      else
        BookResult(matched, m.sequences, [accepted] + m.events)
  }

  function CancelTarget(book: Book, c: CancelOrderCommand): nat {
    if c.orderId != 0 then c.orderId
    else
      var byClient := FindClient(book.bids + book.asks, c.clientOrderId);
      if byClient.Some? then byClient.value.orderId else c.orderId
  }

  function ProcessCancel(book: Book, s: SequenceState, c: CancelOrderCommand): BookResult {
    var id := CancelTarget(book, c);
    var found := FindId(book.bids + book.asks, id);
    if found.None? || found.value.userId != c.userId then
      BookResult(book, NextEvent(s), [Rejection(s, c.commandId, id, c.userId, c.symbolId, OrderNotFound)])
    else
      var o := found.value;
      var own := RemoveId(book.SideQueue(o.side), id);
      BookResult(book.WithSide(o.side, own), NextEvent(NextEvent(s)),
                 [OrderCancelled(s.nextEventId, s.nextSequence, id, o.remaining),
                  OrderBookDelta(s.nextEventId + 1, s.nextSequence + 1, book.config.symbolId, o.side, o.price,
                                 LevelLots(own, o.price))])
  }
}
