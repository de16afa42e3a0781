/** What every command keeps true of a book, and what its events tell a consumer. */
module BookLaws {
  import opened Types
  import opened BookSpec
  import opened Queues
  import opened MatchLaws

  // ---------- The book invariant ----------

  ghost predicate SideInv(side: Side, q: Queue, config: SymbolConfig) {
    && Sorted(side, q)
    && SaneQuantities(q)
    && forall o <- q :: o.side == side && ValidSymbolPrice(o.price, config)
  }

  /** The best bid is strictly below the best ask. */
  ghost predicate Uncrossed(bids: Queue, asks: Queue) {
    bids != [] && asks != [] ==> bids[0].price < asks[0].price
  }

  /** No two orders of the two queues share an id or a client id. */
  ghost predicate Distinct(a: Queue, b: Queue) {
    && UniqueIds(a) && UniqueIds(b) && UniqueClients(a) && UniqueClients(b)
    && forall x <- a, y <- b :: x.orderId != y.orderId && x.clientOrderId != y.clientOrderId
  }

  ghost predicate BookInv(book: Book) {
    && SideInv(Buy, book.bids, book.config)
    && SideInv(Sell, book.asks, book.config)
    && Distinct(book.bids, book.asks)
    && Uncrossed(book.bids, book.asks)
  }

  /** Within a price, earlier accepted orders stand in front; and all were accepted before `next`. */
  ghost predicate Arrivals(q: Queue, next: nat) {
    && (forall i, j :: 0 <= i < j < |q| && q[i].price == q[j].price ==> q[i].sequenceAccepted < q[j].sequenceAccepted)
    && (forall o <- q :: o.sequenceAccepted < next)
  }

  // ---------- Matching keeps the invariant of the side it eats ----------

  lemma SuffixAt(left: Queue, q: Queue)
    requires Suffix(left, q)
    ensures |left| <= |q|
    ensures var k := |q| - |left|;
            forall i :: 0 <= i < |left| ==> left[i] == q[i + k].(remaining := left[i].remaining) && q[i + k] in q
  {
    var k := |q| - |left|;
    forall i | 0 <= i < |left| ensures left[i] == q[i + k].(remaining := left[i].remaining) && q[i + k] in q {
      if i > 0 { assert left[i] == left[1..][i - 1]; }
    }
  }

  lemma SuffixSideInv(side: Side, left: Queue, q: Queue, config: SymbolConfig)
    requires Suffix(left, q) && SideInv(side, q, config) && SaneQuantities(left)
    ensures SideInv(side, left, config)
  {
    hide Suffix, ValidSymbolPrice;
    SuffixAt(left, q);
  }

  lemma SuffixDistinct(left: Queue, q: Queue, other: Queue)
    requires Suffix(left, q) && Distinct(q, other)
    ensures Distinct(left, other) && Distinct(other, left)
  {
    hide Suffix;
    SuffixAt(left, q);
  }

  lemma SuffixArrivals(left: Queue, q: Queue, next: nat)
    requires Suffix(left, q) && Arrivals(q, next)
    ensures Arrivals(left, next)
  {
    hide Suffix;
    SuffixAt(left, q);
  }

  // ---------- Resting keeps the invariant of the side it joins ----------

  lemma {:induction false} InsertAt(side: Side, q: Queue, o: OrderSnapshot) returns (k: nat)
    ensures k <= |q| && Insert(side, q, o) == q[..k] + [o] + q[k..]
    ensures forall i :: k <= i < |q| ==> Sorted(side, q) ==> Better(side, o.price, q[i].price)
  {
    if q == [] || Better(side, o.price, q[0].price) {
      k := 0;
    } else {
      var j := InsertAt(side, q[1..], o);
      k := j + 1;
      assert q[..k] == [q[0]] + q[1..][..j];
      forall i | k <= i < |q| ensures Sorted(side, q) ==> Better(side, o.price, q[i].price) {
        assert q[i] == q[1..][i - 1];
      }
    }
  }

  /** Where everything stands after an insertion at k. */
  lemma Spliced(q: Queue, k: nat, o: OrderSnapshot)
    requires k <= |q|
    ensures var r := q[..k] + [o] + q[k..];
            && |r| == |q| + 1 && r[k] == o
            && (forall i :: 0 <= i < k ==> r[i] == q[i])
            && (forall i :: k < i < |r| ==> r[i] == q[i - 1])
  {
  }

  lemma InsertDistinct(side: Side, own: Queue, other: Queue, o: OrderSnapshot)
    requires Distinct(own, other)
    requires !HasId(own + other, o.orderId) && !HasClient(own + other, o.clientOrderId)
    ensures Distinct(Insert(side, own, o), other) && Distinct(other, Insert(side, own, o))
  {
    var k := InsertAt(side, own, o);
    Spliced(own, k, o);
    hide Insert;
    var r := Insert(side, own, o);
    forall i | 0 <= i < |own| ensures own[i].orderId != o.orderId && own[i].clientOrderId != o.clientOrderId {
      assert (own + other)[i] == own[i];
    }
    forall i | 0 <= i < |other| ensures other[i].orderId != o.orderId && other[i].clientOrderId != o.clientOrderId {
      assert (own + other)[|own| + i] == other[i];
    }
  }

  lemma InsertSideInv(side: Side, q: Queue, o: OrderSnapshot, config: SymbolConfig)
    requires SideInv(side, q, config) && o.side == side && ValidSymbolPrice(o.price, config)
    requires 0 < o.remaining <= o.original
    ensures SideInv(side, Insert(side, q, o), config)
  {
    hide ValidSymbolPrice, Insert;
    InsertSorted(side, q, o);
    forall x <- Insert(side, q, o) ensures x in q || x == o { InsertMember(side, q, o, x); }
  }

  lemma InsertArrivals(side: Side, q: Queue, o: OrderSnapshot, next: nat)
    requires Sorted(side, q) && Arrivals(q, o.sequenceAccepted) && o.sequenceAccepted < next
    ensures Arrivals(Insert(side, q, o), next)
  {
    var k := InsertAt(side, q, o);
    Spliced(q, k, o);
    hide Insert, Sorted;
    var r := Insert(side, q, o);
    forall i, j | 0 <= i < j < |r| && r[i].price == r[j].price ensures r[i].sequenceAccepted < r[j].sequenceAccepted {
      if i != k && j != k {
        var a, b := if i < k then i else i - 1, if j < k then j else j - 1;
        assert r[i] == q[a] && r[j] == q[b];
      }
    }
  }

  // ---------- Commands keep the invariant ----------

  lemma InsertFront(side: Side, q: Queue, o: OrderSnapshot)
    ensures Insert(side, q, o)[0] == o || (q != [] && Insert(side, q, o)[0] == q[0])
  {
  }

  /** A suffix of a sorted side has a front no better than the whole side's. */
  lemma SuffixFront(side: Side, left: Queue, q: Queue)
    requires Suffix(left, q) && Sorted(side, q) && left != []
    ensures !Better(side, left[0].price, q[0].price)
  {
  }

  lemma MatchKeeps(book: Book, s: SequenceState, c: PlaceOrderCommand)
    requires BookInv(book)
    ensures var m := MatchOf(book, s, c);
            var matched := book.WithSide(c.side.Opposite(), m.queue).(lastTradePrice := m.lastTradePrice);
            && Suffix(m.queue, book.SideQueue(c.side.Opposite()))
            && m.taker.remaining <= c.quantity
            && BookInv(matched)
            && (m.taker.remaining > 0 && c.orderType == Limit && m.queue != [] ==>
                  !Crosses(c.side.Opposite(), c.price, m.queue[0].price))
  {
    hide Match, Suffix, SideInv, Distinct, Sorted;
    var opp := c.side.Opposite();
    var q := book.SideQueue(opp);
    var taker := Taker(c.orderId, MatchLimit(c), c.quantity, c.quantity);
    SideInvParts(opp, q, book.config);
    MatchLeavesSuffix(book.config.symbolId, opp, q, taker, NextEvent(s), book.lastTradePrice);
    MatchEnds(book.config.symbolId, opp, q, taker, NextEvent(s), book.lastTradePrice);
    var m := MatchOf(book, s, c);
    SuffixSideInv(opp, m.queue, q, book.config);
    if c.side == Buy { SwapDistinct(book.bids, book.asks); }
    SuffixDistinct(m.queue, q, book.SideQueue(c.side));
    if m.queue != [] { SuffixFront(opp, m.queue, q); SuffixNonEmpty(m.queue, q); }
  }

  lemma SideInvParts(side: Side, q: Queue, config: SymbolConfig)
    requires SideInv(side, q, config)
    ensures Sorted(side, q) && SaneQuantities(q)
  {
  }

  lemma SwapDistinct(a: Queue, b: Queue)
    requires Distinct(a, b)
    ensures Distinct(b, a)
  {
  }

  lemma SuffixNonEmpty(left: Queue, q: Queue)
    requires Suffix(left, q) && left != []
    ensures q != []
  {
  }

  lemma FreeAfterMatch(book: Book, c: PlaceOrderCommand, left: Queue)
    requires PlaceRejection(book, c).None? && Suffix(left, book.SideQueue(c.side.Opposite()))
    ensures !HasId(book.SideQueue(c.side) + left, c.orderId)
    ensures !HasClient(book.SideQueue(c.side) + left, c.clientOrderId)
  {
    hide Suffix;
    PassedChecks(book, c);
    NoId(book.bids, book.asks, c.orderId);
    NoClient(book.bids, book.asks, c.clientOrderId);
    SuffixIds(left, book.SideQueue(c.side.Opposite()), c.orderId);
    SuffixIds(left, book.SideQueue(c.side.Opposite()), c.clientOrderId);
    NoIdBoth(book.SideQueue(c.side), left, c.orderId);
    NoClientBoth(book.SideQueue(c.side), left, c.clientOrderId);
  }

  /** Sorted, sane, distinctly indexed and uncrossed before a placement: so after it, whatever its kind. */
  lemma PlaceKeepsInvariant(book: Book, s: SequenceState, c: PlaceOrderCommand)
    requires BookInv(book)
    ensures BookInv(ProcessPlace(book, s, c).book)
  {
    hide MatchOf, Suffix, SideInv, Distinct, Sorted, PlaceRejection, Insert, LevelLots, CrossingLots, HasId, HasClient;
    SideInvParts(c.side.Opposite(), book.SideQueue(c.side.Opposite()), book.config);
    MatchKeeps(book, s, c);
    var m := MatchOf(book, s, c);
    if PlaceRejection(book, c).None? && CanRest(c) && m.taker.remaining > 0 {
      PassedChecks(book, c);
      FreeAfterMatch(book, c, m.queue);
      var own := book.SideQueue(c.side);
      var o := RestingSnapshot(c, m.taker.remaining, s.nextSequence);
      InsertSideInv(c.side, own, o, book.config);
      if c.side == Sell { SwapDistinct(m.queue, own); }
      InsertDistinct(c.side, own, m.queue, o);
      InsertFront(c.side, own, o);
    }
  }

  /** Cancelling keeps it too. */
  lemma CancelKeepsInvariant(book: Book, s: SequenceState, c: CancelOrderCommand)
    requires BookInv(book)
    ensures BookInv(ProcessCancel(book, s, c).book)
  {
    var id := CancelTarget(book, c);
    RemoveKeeps(Buy, book.bids, book.asks, book.config, id);
    RemoveKeeps(Sell, book.asks, book.bids, book.config, id);
  }

  lemma RemoveKeeps(side: Side, own: Queue, other: Queue, config: SymbolConfig, id: nat)
    requires SideInv(side, own, config) && Distinct(own, other)
    ensures var r := RemoveId(own, id);
            && SideInv(side, r, config)
            && Distinct(r, other) && Distinct(other, r)
            && (r != [] ==> own != [] && !Better(side, r[0].price, own[0].price))
  {
    hide ValidSymbolPrice, RemoveId;
    var r := RemoveId(own, id);
    RemoveSorted(side, own, id);
    RemoveUnique(own, id);
    RemoveClients(own, id);
    forall x <- r ensures x in own { RemoveMember(own, id, x); }
    if r != [] { assert r[0] in own; }
  }

  lemma {:induction false} RemoveClients(q: Queue, id: nat)
    requires UniqueClients(q)
    ensures UniqueClients(RemoveId(q, id))
  {
    if q != [] {
      RemoveClients(q[1..], id);
      var r := RemoveId(q[1..], id);
      forall j | 0 <= j < |r| ensures r[j].clientOrderId != q[0].clientOrderId { RemoveMember(q[1..], id, r[j]); }
    }
  }

  // ---------- Arrival order ----------

  lemma {:induction false} MatchAdvances(symbolId: nat, side: Side, q: Queue, taker: Taker, s: SequenceState,
                                         last: Option<int>)
    requires SaneQuantities(q) && taker.remaining <= taker.original
    ensures Match(symbolId, side, q, taker, s, last).sequences.nextSequence >= s.nextSequence
    decreases |q| + taker.remaining
  {
    hide FillEvents, LevelLots;
    if Matchable(side, q, taker) {
      var fill: nat := Min(taker.remaining, q[0].remaining);
      SaneRest(q, fill);
      MatchAdvances(symbolId, side, ConsumeFront(q, fill), taker.(remaining := taker.remaining - fill), AfterFill(s),
                    Some(q[0].price));
    }
  }

  /** Time priority: a placement joins the back of its price, behind everything accepted before it. */
  lemma PlaceKeepsArrivals(book: Book, s: SequenceState, c: PlaceOrderCommand)
    requires BookInv(book) && Arrivals(book.bids, s.nextSequence) && Arrivals(book.asks, s.nextSequence)
    ensures var r := ProcessPlace(book, s, c);
            Arrivals(r.book.bids, r.sequences.nextSequence) && Arrivals(r.book.asks, r.sequences.nextSequence)
  {
    hide Suffix, Match, Sorted, Distinct, PlaceRejection, Insert, LevelLots, CrossingLots, Arrivals;
    MatchKeeps(book, s, c);
    var opp := c.side.Opposite();
    MatchAdvances(book.config.symbolId, opp, book.SideQueue(opp), Taker(c.orderId, MatchLimit(c), c.quantity, c.quantity),
                  NextEvent(s), book.lastTradePrice);
    var m, r := MatchOf(book, s, c), ProcessPlace(book, s, c);
    var next := r.sequences.nextSequence;
    assert next > s.nextSequence;
    SuffixArrivals(m.queue, book.SideQueue(opp), s.nextSequence);
    LaterArrivals(m.queue, s.nextSequence, next);
    LaterArrivals(book.bids, s.nextSequence, next);
    LaterArrivals(book.asks, s.nextSequence, next);
    InsertArrivals(c.side, book.SideQueue(c.side), RestingSnapshot(c, m.taker.remaining, s.nextSequence), next);
  }

  lemma LaterArrivals(q: Queue, a: nat, b: nat)
    requires Arrivals(q, a) && a <= b
    ensures Arrivals(q, b)
  {
  }

  lemma {:induction false} RemoveArrivals(q: Queue, id: nat, next: nat)
    requires Arrivals(q, next)
    ensures Arrivals(RemoveId(q, id), next)
  {
    if q != [] {
      RemoveArrivals(q[1..], id, next);
      var r := RemoveId(q[1..], id);
      forall j | 0 <= j < |r| && r[j].price == q[0].price
        ensures r[j].sequenceAccepted > q[0].sequenceAccepted
      {
        RemoveMember(q[1..], id, r[j]);
        var i :| 0 <= i < |q[1..]| && q[1..][i] == r[j];
        assert q[i + 1] == r[j];
      }
    }
  }

  lemma CancelKeepsArrivals(book: Book, s: SequenceState, c: CancelOrderCommand)
    requires Arrivals(book.bids, s.nextSequence) && Arrivals(book.asks, s.nextSequence)
    ensures var r := ProcessCancel(book, s, c);
            Arrivals(r.book.bids, r.sequences.nextSequence) && Arrivals(r.book.asks, r.sequences.nextSequence)
  {
    hide Arrivals, RemoveId, FindId, FindClient;
    var id := CancelTarget(book, c);
    RemoveArrivals(book.bids, id, s.nextSequence);
    RemoveArrivals(book.asks, id, s.nextSequence);
    var next := ProcessCancel(book, s, c).sequences.nextSequence;
    LaterArrivals(RemoveId(book.bids, id), s.nextSequence, next);
    LaterArrivals(RemoveId(book.asks, id), s.nextSequence, next);
    LaterArrivals(book.bids, s.nextSequence, next);
    LaterArrivals(book.asks, s.nextSequence, next);
  }

  // ---------- Fill-or-kill and post-only ----------

  /**
    Fill or kill is all or nothing: either the whole quantity trades and nothing rests, or the book is as it was and
    the one event is a rejection; and past the common checks, which of the two is decided by the lots within reach.
   */
  lemma FillOrKill(book: Book, s: SequenceState, c: PlaceOrderCommand)
    requires BookInv(book) && c.timeInForce == FOK
    ensures var r, opp := ProcessPlace(book, s, c), c.side.Opposite();
            if PlaceRejection(book, c).None? then
              && Traded(Trades(r.events)) == c.quantity
              && r.book.SideQueue(c.side) == book.SideQueue(c.side)
              && Lots(r.book.SideQueue(opp)) == Lots(book.SideQueue(opp)) - c.quantity
            else
              r.book == book && Trades(r.events) == [] && |r.events| == 1 && r.events[0].OrderRejected?
    ensures PlaceRejection(book, c) == Some(InsufficientBalanceLiquidity) ==>
              CrossingLots(c.side.Opposite(), book.SideQueue(c.side.Opposite()), MatchLimit(c)) < c.quantity
    ensures PlaceRejection(book, c.(timeInForce := IOC)).None? ==>
              (PlaceRejection(book, c).None? <==>
               CrossingLots(c.side.Opposite(), book.SideQueue(c.side.Opposite()), MatchLimit(c)) >= c.quantity)
  {
    hide Match, Sorted, Distinct, LevelLots, Insert, Lots, Traded;
    var opp := c.side.Opposite();
    MatchConserves(book.config.symbolId, opp, book.SideQueue(opp), Taker(c.orderId, MatchLimit(c), c.quantity, c.quantity),
                   NextEvent(s), book.lastTradePrice);
    var r := ProcessPlace(book, s, c);
    if PlaceRejection(book, c).None? {
      AcceptedTrades(r.events[0], MatchOf(book, s, c).events);
    } else {
      assert r.events[1..] == [];
    }
  }

  lemma AcceptedTrades(accepted: EngineEvent, events: seq<EngineEvent>)
    requires !accepted.TradeExecuted?
    ensures Trades([accepted] + events) == Trades(events)
  {
    assert ([accepted] + events)[1..] == events;
  }

  /** A post-only limit order never takes: it is turned away, or it rests whole. */
  lemma PostOnlyLimitNeverTakes(book: Book, s: SequenceState, c: PlaceOrderCommand)
    requires BookInv(book) && c.timeInForce == PO && c.orderType == Limit
    ensures var r := ProcessPlace(book, s, c);
            && Trades(r.events) == []
            && r.book.SideQueue(c.side.Opposite()) == book.SideQueue(c.side.Opposite())
            && (PlaceRejection(book, c).None? ==>
                  r.book.SideQueue(c.side)
                  == Insert(c.side, book.SideQueue(c.side), RestingSnapshot(c, c.quantity, s.nextSequence)))
            && (PlaceRejection(book, c).Some? ==> r.book == book)
  {
    hide Sorted, Distinct, LevelLots, Insert, CrossingLots, HasId, HasClient;
    var r := ProcessPlace(book, s, c);
    if PlaceRejection(book, c).None? {
      assert MatchOf(book, s, c).events == [];
      assert r.events == [r.events[0], r.events[1]];
      assert r.events[1..] == [r.events[1]] && [r.events[1]][1..] == [];
      assert Trades([r.events[1]]) == [];
    } else {
      assert r.events[1..] == [];
    }
  }

  /**
    A post-only market order can take: the check looks at the command's price, the match at the widest limit.  An
    accepted post-only order trades exactly when it is a market order and an opposing order is within that limit.
   */
  lemma PostOnlyTakesIff(book: Book, s: SequenceState, c: PlaceOrderCommand)
    requires BookInv(book) && c.timeInForce == PO && PlaceRejection(book, c).None?
    ensures var opposite := book.SideQueue(c.side.Opposite());
            Trades(ProcessPlace(book, s, c).events) != [] <==>
            c.orderType == Market && opposite != [] && Crosses(c.side.Opposite(), MatchLimit(c), opposite[0].price)
  {
    if c.orderType == Limit {
      PostOnlyLimitNeverTakes(book, s, c);
    } else {
      hide Match, Sorted, Distinct, LevelLots, Insert, CrossingLots, HasId, HasClient, Trades;
      var opp := c.side.Opposite();
      MatchTrades(book.config.symbolId, opp, book.SideQueue(opp), Taker(c.orderId, MatchLimit(c), c.quantity, c.quantity),
                  NextEvent(s), book.lastTradePrice);
      AcceptedTrades(ProcessPlace(book, s, c).events[0], MatchOf(book, s, c).events);
    }
  }

  lemma SoloAsk(ask: OrderSnapshot, config: SymbolConfig)
    requires ask.side == Sell && 0 < ask.remaining <= ask.original && ValidSymbolPrice(ask.price, config)
    ensures BookInv(Book(config, [], [ask], None))
    ensures forall id: nat :: id != ask.orderId ==> !HasId([] + [ask], id)
    ensures forall id: nat :: id != ask.clientOrderId ==> !HasClient([] + [ask], id)
  {
    hide ValidSymbolPrice;
    assert [] + [ask] == [ask];
  }

  lemma OneAsk() returns (book: Book, c: PlaceOrderCommand)
    ensures BookInv(book) && book.asks != [] && book.asks[0].price == 5
    ensures c.timeInForce == PO && c.orderType == Market && c.side == Buy && PlaceRejection(book, c).None?
  {
    var ask := OrderSnapshot(1, 1, 7, 1, Sell, 5, 3, 3, 1);
    book := Book(SymbolConfig(1, 1, 1, 1, 10, 1, 10, 64, 0, true), [], [ask], None);
    c := PlaceOrderCommand(2, 2, 2, 8, 1, Buy, Market, PO, 0, 3);
    SoloAsk(ask, book.config);
    hide BookInv, HasId, HasClient, CrossingLots;
  }

  /** For instance: a post-only market buy against one ask. */
  lemma PostOnlyMarketBuy() returns (book: Book, s: SequenceState, c: PlaceOrderCommand)
    ensures BookInv(book) && c.timeInForce == PO && PlaceRejection(book, c).None?
    ensures Trades(ProcessPlace(book, s, c).events) != []
  {
    hide ProcessPlace, Trades, PlaceRejection, SideInv, Distinct;
    book, c := OneAsk();
    s := SequenceState(2, 1, 2);
    SideInvParts(Sell, book.asks, book.config);
    SideInvParts(Buy, book.bids, book.config);
    PostOnlyTakesIff(book, s, c);
  }
}
