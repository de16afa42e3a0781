/** Whole runs of the core: any command sequence, from any well-formed core. */
module CoreRuns {
  import opened Types
  import opened BookSpec
  import opened MatchLaws
  import opened BookLaws
  import opened DepthLaws
  import opened CoreSpec
  import opened CoreLaws

  /** Process the commands in order, collecting the events. */
  ghost function Run(core: Core, commands: seq<EngineCommand>): (r: CoreResult)
    requires CoreInv(core)
    ensures CoreInv(r.core)
    ensures InArrivalOrder(core) ==> InArrivalOrder(r.core)
    decreases |commands|
  {
    if commands == [] then CoreResult(core, [])
    else
      ProcessKeeps(core, commands[0]);
      assert InArrivalOrder(core) ==> InArrivalOrder(Process(core, commands[0]).core) by {
        if InArrivalOrder(core) { ProcessKeepsArrivals(core, commands[0]); }
      }
      var first := Process(core, commands[0]);
      var rest := Run(first.core, commands[1..]);
      CoreResult(rest.core, first.events + rest.events)
  }

  /** No run leaves a crossed book: whenever both sides are non-empty, the best bid is below the best ask. */
  lemma NeverCrossed(core: Core, commands: seq<EngineCommand>, id: nat, bid: OrderSnapshot, ask: OrderSnapshot)
    requires CoreInv(core)
    requires var books := Run(core, commands).core.books;
             id in books && bid in books[id].bids && ask in books[id].asks
    ensures bid.price < ask.price
  {
    var book := Run(core, commands).core.books[id];
    assert BookOk(book, id, Run(core, commands).core.idempotency);
    hide Run, CoreInv, Remembered, Distinct, SaneQuantities, ValidSymbolPrice;
    assert !Better(Buy, bid.price, book.bids[0].price);
    assert !Better(Sell, ask.price, book.asks[0].price);
  }

  // ---------- The feed of book deltas ----------

  /** The deltas of one symbol, as its consumer receives them. */
  function Feed(events: seq<EngineEvent>, id: nat): seq<EngineEvent> {
    if events == [] then []
    else if events[0].OrderBookDelta? && events[0].symbolId == id then [events[0]] + Feed(events[1..], id)
    else Feed(events[1..], id)
  }

  ghost predicate DeltasOf(events: seq<EngineEvent>, id: nat) {
    forall e <- events :: e.OrderBookDelta? ==> e.symbolId == id
  }

  lemma {:induction false} FeedAppend(a: seq<EngineEvent>, b: seq<EngineEvent>, id: nat)
    ensures Feed(a + b, id) == Feed(a, id) + Feed(b, id)
  {
    if a == [] {
      assert a + b == b;
    } else {
      assert (a + b)[1..] == a[1..] + b;
      FeedAppend(a[1..], b, id);
    }
  }

  /** A symbol's own events reach its consumer whole; another symbol's not at all. */
  lemma {:induction false} FeedOwn(d: Depth, events: seq<EngineEvent>, own: nat, id: nat)
    requires DeltasOf(events, own)
    ensures ApplyAll(d, Feed(events, id)) == if id == own then ApplyAll(d, events) else d
    decreases |events|
  {
    if events != [] {
      var e := events[0];
      assert e in events;
      FeedOwn(ApplyDelta(d, e), events[1..], own, id);
      FeedOwn(d, events[1..], own, id);
      if e.OrderBookDelta? && e.symbolId == id { assert ([e] + Feed(events[1..], id))[1..] == Feed(events[1..], id); }
    }
  }

  lemma {:induction false} MatchDeltas(symbolId: nat, side: Side, q: Queue, taker: Taker, s: SequenceState,
                                       last: Option<int>)
    requires SaneQuantities(q) && taker.remaining <= taker.original
    ensures DeltasOf(Match(symbolId, side, q, taker, s, last).events, symbolId)
    decreases |q| + taker.remaining
  {
    hide LevelLots, AfterFill;
    if Matchable(side, q, taker) {
      var fill: nat := Min(taker.remaining, q[0].remaining);
      SaneRest(q, fill);
      FrontLots(q);
      MatchDeltas(symbolId, side, ConsumeFront(q, fill), taker.(remaining := taker.remaining - fill), AfterFill(s),
                  Some(q[0].price));
    }
  }

  lemma PlaceDeltas(book: Book, s: SequenceState, c: PlaceOrderCommand)
    requires BookInv(book) && book.config.symbolId == c.symbolId
    ensures DeltasOf(ProcessPlace(book, s, c).events, c.symbolId)
  {
    hide Match, LevelLots, PlaceRejection, Insert;
    var opp := c.side.Opposite();
    MatchDeltas(book.config.symbolId, opp, book.SideQueue(opp), Taker(c.orderId, MatchLimit(c), c.quantity, c.quantity),
                NextEvent(s), book.lastTradePrice);
  }

  lemma CancelDeltas(book: Book, s: SequenceState, c: CancelOrderCommand)
    requires book.config.symbolId == c.symbolId
    ensures DeltasOf(ProcessCancel(book, s, c).events, c.symbolId)
  {
    hide LevelLots, RemoveId, FindId, CancelTarget;
  }

  lemma QuietFeed(d: Depth, e: EngineEvent, id: nat)
    requires !e.OrderBookDelta?
    ensures ApplyAll(d, Feed([e], id)) == d
  {
    assert [e][1..] == [];
  }

  lemma PlaceFeed(book: Book, s: SequenceState, c: PlaceOrderCommand, d: Depth, id: nat)
    requires BookInv(book) && book.config.symbolId == c.symbolId && (id == c.symbolId ==> Shows(d, book))
    ensures var r := ProcessPlace(book, s, c);
            var d' := ApplyAll(d, Feed(r.events, id));
            if id == c.symbolId then Shows(d', r.book) else d' == d
  {
    hide Shows, ApplyAll, Feed, DeltasOf;
    BookSane(book);
    PlaceDeltas(book, s, c);
    FeedOwn(d, ProcessPlace(book, s, c).events, c.symbolId, id);
    if id == c.symbolId { PlaceShows(d, book, s, c); }
  }

  lemma CancelFeed(book: Book, s: SequenceState, c: CancelOrderCommand, d: Depth, id: nat)
    requires BookInv(book) && book.config.symbolId == c.symbolId && (id == c.symbolId ==> Shows(d, book))
    ensures var r := ProcessCancel(book, s, c);
            var d' := ApplyAll(d, Feed(r.events, id));
            if id == c.symbolId then Shows(d', r.book) else d' == d
  {
    hide Shows, ApplyAll, Feed, DeltasOf;
    CancelDeltas(book, s, c);
    FeedOwn(d, ProcessCancel(book, s, c).events, c.symbolId, id);
    if id == c.symbolId { CancelShows(d, book, s, c); }
  }

  /** One command: the consumer of any symbol stays in step. */
  lemma ProcessShows(core: Core, command: EngineCommand, d: Depth, id: nat)
    requires CoreInv(core) && id in core.books && Shows(d, core.books[id])
    ensures SaneBooks(core.books)
    ensures var r := Process(core, command);
            id in r.core.books && Shows(ApplyAll(d, Feed(r.events, id)), r.core.books[id])
  {
    hide CoreInv, ProcessPlace, ProcessCancel, SaneQuantities, ValidatePlace, Shows, ApplyAll, Feed, BookInv, Record;
    CoreSane(core);
    CoreBooks(core);
    match command
    case Place(c) =>
      RefusalFeed(d, id);
      if c.symbolId in core.books { PlaceFeed(core.books[c.symbolId], core.sequences, c, d, id); }
    case Cancel(c) =>
      RefusalFeed(d, id);
      if c.symbolId in core.books { CancelFeed(core.books[c.symbolId], core.sequences, c, d, id); }
    case Malformed =>
      RefusalFeed(d, id);
  }

  lemma CoreBooks(core: Core)
    requires CoreInv(core)
    ensures forall k <- core.books :: BookInv(core.books[k]) && core.books[k].config.symbolId == k
  {
  }

  lemma RefusalFeed(d: Depth, id: nat)
    ensures forall s, a, b, u, k, reason :: ApplyAll(d, Feed([Rejection(s, a, b, u, k, reason)], id)) == d
  {
    forall s, a, b, u, k, reason ensures ApplyAll(d, Feed([Rejection(s, a, b, u, k, reason)], id)) == d {
      QuietFeed(d, Rejection(s, a, b, u, k, reason), id);
    }
  }

  /** A consumer that starts in step with a book and applies its deltas holds its level totals after every run. */
  lemma {:induction false} RunShows(core: Core, commands: seq<EngineCommand>, d: Depth, id: nat)
    requires CoreInv(core) && id in core.books && Shows(d, core.books[id])
    ensures var r := Run(core, commands);
            id in r.core.books && Shows(ApplyAll(d, Feed(r.events, id)), r.core.books[id])
    decreases |commands|
  {
    hide CoreInv, Process, Shows, ApplyDelta;
    if commands != [] {
      ProcessKeeps(core, commands[0]);
      ProcessShows(core, commands[0], d, id);
      var first := Process(core, commands[0]);
      var rest := Run(first.core, commands[1..]);
      var d' := ApplyAll(d, Feed(first.events, id));
      RunShows(first.core, commands[1..], d', id);
      FeedAppend(first.events, rest.events, id);
      ApplyAppend(d, Feed(first.events, id), Feed(rest.events, id));
    }
  }
}
