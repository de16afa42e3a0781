/** What every run of the core keeps true, and what its event stream tells a consumer. */
module CoreLaws {
  import opened Types
  import opened BookSpec
  import opened Queues
  import opened MatchLaws
  import opened BookLaws
  import opened CoreSpec

  /** Every resting id and client id is remembered, so that no later order can reuse it. */
  ghost predicate Remembered(q: Queue, symbolId: nat, i: Idempotency) {
    forall o <- q :: o.symbolId == symbolId && o.orderId in i.orderIds && o.clientOrderId in i.clientOrders
  }

  ghost predicate BookOk(book: Book, symbolId: nat, i: Idempotency) {
    && book.config.symbolId == symbolId
    && BookInv(book)
    && Remembered(book.bids, symbolId, i) && Remembered(book.asks, symbolId, i)
  }

  ghost predicate CoreInv(core: Core) {
    forall id <- core.books :: BookOk(core.books[id], id, core.idempotency)
  }

  /** Every queue stands in arrival order within each price. */
  ghost predicate InArrivalOrder(core: Core) {
    forall id <- core.books :: BookArrivals(core.books[id], core.sequences.nextSequence)
  }

  ghost predicate BookArrivals(book: Book, next: nat) {
    Arrivals(book.bids, next) && Arrivals(book.asks, next)
  }

  lemma CoreSane(core: Core)
    requires CoreInv(core)
    ensures SaneBooks(core.books)
  {
  }

  /** A core with empty books satisfies both. */
  lemma FreshCore(core: Core)
    requires forall id <- core.books :: core.books[id] == EmptyBook(core.books[id].config)
                                        && core.books[id].config.symbolId == id
    ensures CoreInv(core) && InArrivalOrder(core)
  {
  }

  ghost predicate Grows(i: Idempotency, i': Idempotency) {
    i.orderIds <= i'.orderIds && i.clientOrders.Keys <= i'.clientOrders.Keys
  }

  /** More remembered ids leave a book in order. */
  lemma BookOkLater(book: Book, symbolId: nat, i: Idempotency, i': Idempotency)
    requires BookOk(book, symbolId, i) && Grows(i, i')
    ensures BookOk(book, symbolId, i')
  {
    hide BookInv;
  }

  lemma SuffixRemembered(left: Queue, q: Queue, symbolId: nat, i: Idempotency)
    requires Suffix(left, q) && Remembered(q, symbolId, i)
    ensures Remembered(left, symbolId, i)
  {
    hide Suffix;
    SuffixAt(left, q);
  }

  /** The book a placement leaves, under the index that has recorded it. */
  lemma PlaceBookOk(core: Core, c: PlaceOrderCommand)
    requires CoreInv(core) && c.symbolId in core.books
    ensures var r := ProcessPlace(core.books[c.symbolId], core.sequences, c);
            BookOk(r.book, c.symbolId, AfterPlace(core, c, r).idempotency)
  {
    hide BookInv, Suffix, MatchOf, Insert, LevelLots, PlaceRejection, Remembered, RejectionIn;
    var book, s := core.books[c.symbolId], core.sequences;
    BookSane(book);
    var r := ProcessPlace(book, s, c);
    PlaceKeepsInvariant(book, s, c);
    MatchKeeps(book, s, c);
    var i, i' := core.idempotency, AfterPlace(core, c, r).idempotency;
    var m, opp := MatchOf(book, s, c), c.side.Opposite();
    RememberedLater(book.bids, c.symbolId, i, i');
    RememberedLater(book.asks, c.symbolId, i, i');
    SuffixRemembered(m.queue, book.SideQueue(opp), c.symbolId, i');
    if PlaceRejection(book, c).None? {
      InsertRemembered(c.side, book.SideQueue(c.side), RestingSnapshot(c, m.taker.remaining, s.nextSequence),
                       c.symbolId, i');
    }
  }

  lemma BookSane(book: Book)
    requires BookInv(book)
    ensures SaneQuantities(book.bids) && SaneQuantities(book.asks)
  {
  }

  lemma RememberedLater(q: Queue, symbolId: nat, i: Idempotency, i': Idempotency)
    requires Remembered(q, symbolId, i) && Grows(i, i')
    ensures Remembered(q, symbolId, i')
  {
  }

  lemma InsertRemembered(side: Side, q: Queue, o: OrderSnapshot, symbolId: nat, i: Idempotency)
    requires Remembered(q, symbolId, i) && Remembered([o], symbolId, i)
    ensures Remembered(Insert(side, q, o), symbolId, i)
  {
    forall x <- Insert(side, q, o)
      ensures x.symbolId == symbolId && x.orderId in i.orderIds && x.clientOrderId in i.clientOrders
    {
      InsertMember(side, q, o, x);
      assert o in [o];
    }
  }

  lemma CancelBookOk(core: Core, c: CancelOrderCommand)
    requires CoreInv(core) && c.symbolId in core.books
    ensures BookOk(ProcessCancel(core.books[c.symbolId], core.sequences, c).book, c.symbolId, core.idempotency)
  {
    hide BookInv, RemoveId, FindId, CancelTarget, Remembered;
    var book, s := core.books[c.symbolId], core.sequences;
    CancelKeepsInvariant(book, s, c);
    var id := CancelTarget(book, c);
    RemoveRemembered(book.bids, id, c.symbolId, core.idempotency);
    RemoveRemembered(book.asks, id, c.symbolId, core.idempotency);
  }

  lemma RemoveRemembered(q: Queue, id: nat, symbolId: nat, i: Idempotency)
    requires Remembered(q, symbolId, i)
    ensures Remembered(RemoveId(q, id), symbolId, i)
  {
    forall x <- RemoveId(q, id)
      ensures x.symbolId == symbolId && x.orderId in i.orderIds && x.clientOrderId in i.clientOrders
    {
      RemoveMember(q, id, x);
    }
  }

  /** Replacing one book, with the index only growing. */
  lemma OneBookOk(core: Core, core': Core, id: nat)
    requires CoreInv(core) && Grows(core.idempotency, core'.idempotency)
    requires forall k <- core'.books :: k != id ==> k in core.books && core'.books[k] == core.books[k]
    requires id in core'.books ==> BookOk(core'.books[id], id, core'.idempotency)
    ensures CoreInv(core')
  {
    hide BookOk, Grows;
    forall k <- core'.books | k != id ensures BookOk(core'.books[k], k, core'.idempotency) {
      BookOkLater(core.books[k], k, core.idempotency, core'.idempotency);
    }
  }

  lemma SameBooks(core: Core, core': Core)
    requires CoreInv(core) && core'.books == core.books && Grows(core.idempotency, core'.idempotency)
    ensures CoreInv(core')
  {
    hide BookOk, Grows;
    forall k <- core'.books ensures BookOk(core'.books[k], k, core'.idempotency) {
      BookOkLater(core.books[k], k, core.idempotency, core'.idempotency);
    }
  }

  lemma RefuseKeeps(core: Core, commandId: nat, orderId: nat, userId: nat, symbolId: nat)
    requires CoreInv(core)
    ensures forall reason: RejectReason :: CoreInv(Refuse(core, commandId, orderId, userId, symbolId, reason).core)
  {
    hide CoreInv;
    forall reason: RejectReason ensures CoreInv(Refuse(core, commandId, orderId, userId, symbolId, reason).core) {
      SameBooks(core, Refuse(core, commandId, orderId, userId, symbolId, reason).core);
    }
  }

  lemma PlaceKeeps(core: Core, c: PlaceOrderCommand)
    requires CoreInv(core) && c.symbolId in core.books
    requires SaneQuantities(core.books[c.symbolId].bids) && SaneQuantities(core.books[c.symbolId].asks)
    ensures CoreInv(AfterPlace(core, c, ProcessPlace(core.books[c.symbolId], core.sequences, c)))
  {
    hide BookOk, ProcessPlace, SaneQuantities, IsAccepted, RejectionIn, FirstSequence, Summary;
    PlaceBookOk(core, c);
    var r := ProcessPlace(core.books[c.symbolId], core.sequences, c);
    OneBookOk(core, AfterPlace(core, c, r), c.symbolId);
  }

  lemma CancelKeeps(core: Core, c: CancelOrderCommand)
    requires CoreInv(core) && c.symbolId in core.books
    ensures CoreInv(AfterCancel(core, c, ProcessCancel(core.books[c.symbolId], core.sequences, c)))
  {
    hide BookOk, ProcessCancel, RejectionIn, FirstSequence, Summary;
    CancelBookOk(core, c);
    var r := ProcessCancel(core.books[c.symbolId], core.sequences, c);
    BookOkLater(r.book, c.symbolId, core.idempotency, AfterCancel(core, c, r).idempotency);
    OneBookOk(core, AfterCancel(core, c, r), c.symbolId);
  }

  /** Every command keeps the core invariant: well-formed, uncrossed books in price-time order. */
  lemma ProcessKeeps(core: Core, command: EngineCommand)
    requires CoreInv(core)
    ensures SaneBooks(core.books) && CoreInv(Process(core, command).core)
  {
    CoreSane(core);
    hide CoreInv, ProcessPlace, ProcessCancel, SaneQuantities, Refuse, AfterPlace, AfterCancel, ValidatePlace;
    match command
    case Place(c) =>
      RefuseKeeps(core, c.commandId, c.orderId, c.userId, c.symbolId);
      if c.symbolId in core.books { PlaceKeeps(core, c); }
    case Cancel(c) =>
      RefuseKeeps(core, c.commandId, c.orderId, c.userId, c.symbolId);
      if c.symbolId in core.books { CancelKeeps(core, c); }
    case Malformed =>
      SameBooks(core, Process(core, command).core);
  }

  // ---------- Time priority ----------

  lemma PlaceAdvances(book: Book, s: SequenceState, c: PlaceOrderCommand)
    requires SaneQuantities(book.bids) && SaneQuantities(book.asks)
    ensures ProcessPlace(book, s, c).sequences.nextSequence > s.nextSequence
  {
    hide Match, PlaceRejection, Insert, LevelLots;
    var opp := c.side.Opposite();
    MatchAdvances(book.config.symbolId, opp, book.SideQueue(opp), Taker(c.orderId, MatchLimit(c), c.quantity, c.quantity),
                  NextEvent(s), book.lastTradePrice);
  }

  lemma LaterBookArrivals(core: Core, next: nat)
    requires InArrivalOrder(core) && next >= core.sequences.nextSequence
    ensures forall k <- core.books :: BookArrivals(core.books[k], next)
  {
    hide Arrivals;
    forall k <- core.books ensures BookArrivals(core.books[k], next) {
      LaterArrivals(core.books[k].bids, core.sequences.nextSequence, next);
      LaterArrivals(core.books[k].asks, core.sequences.nextSequence, next);
    }
  }

  lemma PlaceOrderKept(core: Core, c: PlaceOrderCommand)
    requires CoreInv(core) && InArrivalOrder(core) && c.symbolId in core.books
    ensures SaneBooks(core.books)
    ensures InArrivalOrder(AfterPlace(core, c, ProcessPlace(core.books[c.symbolId], core.sequences, c)))
  {
    hide BookInv, ProcessPlace, Arrivals, Record, Remembered;
    CoreSane(core);
    var book := core.books[c.symbolId];
    PlaceAdvances(book, core.sequences, c);
    PlaceKeepsArrivals(book, core.sequences, c);
    LaterBookArrivals(core, ProcessPlace(book, core.sequences, c).sequences.nextSequence);
  }

  lemma CancelOrderKept(core: Core, c: CancelOrderCommand)
    requires InArrivalOrder(core) && c.symbolId in core.books
    ensures InArrivalOrder(AfterCancel(core, c, ProcessCancel(core.books[c.symbolId], core.sequences, c)))
  {
    hide Arrivals, Record, RemoveId, FindId, CancelTarget, LevelLots;
    var book := core.books[c.symbolId];
    CancelKeepsArrivals(book, core.sequences, c);
    LaterBookArrivals(core, ProcessCancel(book, core.sequences, c).sequences.nextSequence);
  }

  /** Every command keeps every queue in arrival order. */
  lemma ProcessKeepsArrivals(core: Core, command: EngineCommand)
    requires CoreInv(core) && InArrivalOrder(core)
    ensures SaneBooks(core.books) && InArrivalOrder(Process(core, command).core)
  {
    hide CoreInv, BookArrivals, ProcessPlace, ProcessCancel, SaneQuantities, AfterPlace, AfterCancel, ValidatePlace, Record;
    CoreSane(core);
    LaterBookArrivals(core, core.sequences.nextSequence + 1);
    match command
    case Place(c) =>
      if c.symbolId in core.books { PlaceOrderKept(core, c); }
    case Cancel(c) =>
      if c.symbolId in core.books { CancelOrderKept(core, c); }
    case Malformed =>
  }
}
