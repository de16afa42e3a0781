/** The engine core as a value: one book per symbol, the idempotency index and the sequence counters. */
module CoreSpec {
  import opened Types
  import opened BookSpec

  datatype CommandSummary = CommandSummary(
    commandId: nat, accepted: bool, orderId: Option<nat>, rejectReason: Option<RejectReason>, sequence: nat)

  datatype Idempotency = Idempotency(
    commands: map<nat, CommandSummary>, clientOrders: map<nat, nat>, orderIds: set<nat>)

  datatype Core = Core(books: map<nat, Book>, sequences: SequenceState, idempotency: Idempotency)

  datatype CoreResult = CoreResult(core: Core, events: seq<EngineEvent>)

  ghost predicate SaneBooks(books: map<nat, Book>) {
    forall id <- books :: SaneQuantities(books[id].bids) && SaneQuantities(books[id].asks)
  }

  function Summary(commandId: nat, accepted: bool, orderId: nat, reason: Option<RejectReason>, sequence: nat)
    : CommandSummary
  {
    CommandSummary(commandId, accepted, OptionalOrderId(orderId), reason, sequence)
  }

  function Record(i: Idempotency, commandId: nat, summary: CommandSummary): Idempotency {
    i.(commands := i.commands[commandId := summary])
  }

  /** Turn a command away with one event, remembering the outcome unless the command itself is a repeat. */
  function Refuse(core: Core, commandId: nat, orderId: nat, userId: nat, symbolId: nat, reason: RejectReason)
    : CoreResult
  {
    var s := core.sequences;
    var idempotency := if reason == DuplicateCommand then core.idempotency
                       else Record(core.idempotency, commandId,
                                   Summary(commandId, false, orderId, Some(reason), s.nextSequence));
    CoreResult(core.(sequences := NextEvent(s), idempotency := idempotency),
               [Rejection(s, commandId, orderId, userId, symbolId, reason)])
  }

  function ValidatePlace(c: PlaceOrderCommand, config: SymbolConfig, i: Idempotency): Option<RejectReason> {
    if c.orderId in i.orderIds || c.clientOrderId in i.clientOrders then Some(DuplicateOrder)
    else if !config.tradingEnabled then Some(MarketClosed)
    else if !ValidSymbolQuantity(c.quantity, config) then Some(InvalidQuantity)
    else if c.orderType == Limit && !ValidSymbolPrice(c.price, config) then Some(InvalidPrice)
    else None
  }

  predicate IsAccepted(events: seq<EngineEvent>) {
    exists i :: 0 <= i < |events| && events[i].OrderAccepted?
  }

  predicate IsCancelled(events: seq<EngineEvent>) {
    exists i :: 0 <= i < |events| && events[i].OrderCancelled?
  }

  /** The reason of the first rejection among the events. */
  function RejectionIn(events: seq<EngineEvent>): Option<RejectReason> {
    if events == [] then None
    else if events[0].OrderRejected? then Some(events[0].reason)
    else RejectionIn(events[1..])
  }

  function FirstSequence(events: seq<EngineEvent>): nat {
    if events == [] then 0 else events[0].sequence
  }

  function AfterPlace(core: Core, c: PlaceOrderCommand, r: BookResult): Core {
    var accepted := IsAccepted(r.events);
    var i := core.idempotency;
    var i' := if accepted then i.(orderIds := i.orderIds + {c.orderId},
                                  clientOrders := i.clientOrders[c.clientOrderId := c.orderId])
              else i;
    Core(core.books[c.symbolId := r.book], r.sequences,
         Record(i', c.commandId, Summary(c.commandId, accepted, c.orderId, RejectionIn(r.events), FirstSequence(r.events))))
  }

  function AfterCancel(core: Core, c: CancelOrderCommand, r: BookResult): Core {
    Core(core.books[c.symbolId := r.book], r.sequences,
         Record(core.idempotency, c.commandId,
                Summary(c.commandId, IsCancelled(r.events), c.orderId, RejectionIn(r.events),
                        FirstSequence(r.events))))
  }

  function Process(core: Core, command: EngineCommand): CoreResult
    requires SaneBooks(core.books)
  {
    match command
    case Place(c) =>
      if c.commandId in core.idempotency.commands then
        Refuse(core, c.commandId, c.orderId, c.userId, c.symbolId, DuplicateCommand)
      else if c.symbolId !in core.books then
        Refuse(core, c.commandId, c.orderId, c.userId, c.symbolId, InvalidSymbol)
      else
        var invalid := ValidatePlace(c, core.books[c.symbolId].config, core.idempotency);
        if invalid.Some? then
          Refuse(core, c.commandId, c.orderId, c.userId, c.symbolId, invalid.value)
        else
          var r := ProcessPlace(core.books[c.symbolId], core.sequences, c);
          CoreResult(AfterPlace(core, c, r), r.events)
    case Cancel(c) =>
      if c.commandId in core.idempotency.commands then
        Refuse(core, c.commandId, c.orderId, c.userId, c.symbolId, DuplicateCommand)
      else if c.symbolId !in core.books then
        Refuse(core, c.commandId, c.orderId, c.userId, c.symbolId, InvalidSymbol)
      else
        var r := ProcessCancel(core.books[c.symbolId], core.sequences, c);
        CoreResult(AfterCancel(core, c, r), r.events)
    case Malformed =>
      CoreResult(core.(sequences := NextEvent(core.sequences)),
                 [Rejection(core.sequences, 0, 0, 0, 0, InvalidSymbol)])
  }

  // ---------- Snapshot and restore ----------

  datatype BookSnapshot = BookSnapshot(config: SymbolConfig, activeOrders: Queue, clientIds: map<nat, nat>)

  datatype CoreSnapshot = CoreSnapshot(books: map<nat, BookSnapshot>, sequences: SequenceState, idempotency: Idempotency)

  function InsertById(q: Queue, o: OrderSnapshot): Queue {
    if q == [] || o.orderId <= q[0].orderId then [o] + q else [q[0]] + InsertById(q[1..], o)
  }

  /** The orders in ascending id order. */
  function SortById(q: Queue): Queue {
    if q == [] then [] else InsertById(SortById(q[1..]), q[0])
  }

  /** The client-id index over the orders. */
  function ClientIds(q: Queue): map<nat, nat> {
    if q == [] then map[] else ClientIds(q[1..])[q[0].clientOrderId := q[0].orderId]
  }

  function SnapshotBook(book: Book): BookSnapshot {
    BookSnapshot(book.config, SortById(book.bids + book.asks), ClientIds(book.bids + book.asks))
  }

  function Snapshot(core: Core): CoreSnapshot {
    CoreSnapshot(map id | id in core.books :: SnapshotBook(core.books[id]), core.sequences, core.idempotency)
  }

  function Rest(book: Book, o: OrderSnapshot): Book {
    book.WithSide(o.side, Insert(o.side, book.SideQueue(o.side), o))
  }

  /** Re-insert the orders one by one, in the order given. */
  function RestAll(book: Book, orders: Queue): Book
    decreases |orders|
  {
    if orders == [] then book else RestAll(Rest(book, orders[0]), orders[1..])
  }

  function RestoreBook(snapshot: BookSnapshot): Book {
    RestAll(EmptyBook(snapshot.config), snapshot.activeOrders)
  }

  function Restore(snapshot: CoreSnapshot): Core {
    Core(map id | id in snapshot.books :: RestoreBook(snapshot.books[id]), snapshot.sequences, snapshot.idempotency)
  }
}
