/** A consumer that applies every book delta in order always holds the book's level totals. */
module DepthLaws {
  import opened Types
  import opened BookSpec
  import opened Queues
  import opened MatchLaws
  import opened BookLaws

  /** Aggregated depth as a consumer keeps it: lots by side and price, no zero entries. */
  type Depth = map<(Side, int), nat>

  function ApplyDelta(d: Depth, e: EngineEvent): Depth {
    if !e.OrderBookDelta? then d
    else if e.totalQuantityAtPrice == 0 then d - {(e.side, e.price)}
    else d[(e.side, e.price) := e.totalQuantityAtPrice]
  }

  function ApplyAll(d: Depth, events: seq<EngineEvent>): Depth
    decreases |events|
  {
    if events == [] then d else ApplyAll(ApplyDelta(d, events[0]), events[1..])
  }

  /** The consumer's view of one side is that side's level totals, and nothing else. */
  ghost predicate ShowsSide(d: Depth, side: Side, q: Queue) {
    forall p: int :: ShowsLevel(d, side, p, LevelLots(q, p))
  }

  ghost predicate ShowsLevel(d: Depth, side: Side, p: int, lots: nat) {
    if lots == 0 then (side, p) !in d else (side, p) in d && d[(side, p)] == lots
  }

  ghost predicate Shows(d: Depth, book: Book) {
    ShowsSide(d, Buy, book.bids) && ShowsSide(d, Sell, book.asks)
  }

  ghost predicate SameOnSide(d: Depth, d': Depth, side: Side) {
    forall p: int :: ((side, p) in d <==> (side, p) in d') && ((side, p) in d ==> d[(side, p)] == d'[(side, p)])
  }

  lemma {:induction false} ApplyAppend(d: Depth, a: seq<EngineEvent>, b: seq<EngineEvent>)
    ensures ApplyAll(d, a + b) == ApplyAll(ApplyAll(d, a), b)
    decreases |a|
  {
    if a == [] {
      assert a + b == b;
    } else {
      assert (a + b)[1..] == a[1..] + b;
      ApplyAppend(ApplyDelta(d, a[0]), a[1..], b);
    }
  }

  /** One delta that reports a side's new total at one price, when nothing else on that side changed. */
  lemma DeltaShows(d: Depth, e: EngineEvent, q: Queue, q': Queue)
    requires e.OrderBookDelta? && ShowsSide(d, e.side, q)
    requires e.totalQuantityAtPrice == LevelLots(q', e.price)
    requires forall p: int :: p != e.price ==> LevelLots(q', p) == LevelLots(q, p)
    ensures ShowsSide(ApplyDelta(d, e), e.side, q')
    ensures SameOnSide(d, ApplyDelta(d, e), e.side.Opposite())
  {
    hide LevelLots;
    forall p: int ensures ShowsLevel(ApplyDelta(d, e), e.side, p, LevelLots(q', p)) {
      assert ShowsLevel(d, e.side, p, LevelLots(q, p));
    }
  }

  lemma OtherSide(d: Depth, d': Depth, side: Side, q: Queue)
    requires ShowsSide(d, side, q) && SameOnSide(d, d', side)
    ensures ShowsSide(d', side, q)
  {
    hide LevelLots;
    forall p: int ensures ShowsLevel(d', side, p, LevelLots(q, p)) {
      assert ShowsLevel(d, side, p, LevelLots(q, p));
    }
  }

  lemma FillApplies(d: Depth, symbolId: nat, maker: OrderSnapshot, taker: Taker, fill: nat, total: nat, s: SequenceState)
    requires fill <= maker.remaining <= maker.original && fill <= taker.remaining <= taker.original
    ensures ApplyAll(d, FillEvents(symbolId, maker, taker, fill, total, s))
            == ApplyDelta(d, FillEvents(symbolId, maker, taker, fill, total, s)[3])
  {
    var e := FillEvents(symbolId, maker, taker, fill, total, s);
    assert e[1..] == [e[1], e[2], e[3]] && [e[1], e[2], e[3]][1..] == [e[2], e[3]] && [e[2], e[3]][1..] == [e[3]];
    assert ApplyAll(d, [e[3]]) == ApplyDelta(d, e[3]);
    assert ApplyAll(d, [e[2], e[3]]) == ApplyAll(d, [e[3]]);
    assert ApplyAll(d, [e[1], e[2], e[3]]) == ApplyAll(d, [e[2], e[3]]);
  }

  /** A fill changes the total at the maker's price by the fill, and no other. */
  lemma ConsumeLevels(q: Queue, fill: nat, p: int)
    requires q != [] && fill <= q[0].remaining
    ensures LevelLots(ConsumeFront(q, fill), p) == LevelLots(q, p) - if p == q[0].price then fill else 0
  {
    if fill < q[0].remaining { assert ConsumeFront(q, fill)[1..] == q[1..]; }
  }

  lemma {:induction false} MatchShows(d: Depth, symbolId: nat, side: Side, q: Queue, taker: Taker, s: SequenceState,
                                      last: Option<int>)
    requires SaneQuantities(q) && taker.remaining <= taker.original
    requires (forall o <- q :: o.side == side) && ShowsSide(d, side, q)
    ensures var m := Match(symbolId, side, q, taker, s, last);
            && ShowsSide(ApplyAll(d, m.events), side, m.queue)
            && SameOnSide(d, ApplyAll(d, m.events), side.Opposite())
    decreases |q| + taker.remaining
  {
    hide LevelLots, AfterFill, ShowsSide, ApplyDelta, ApplyAll, SaneQuantities, SameOnSide;
    if Matchable(side, q, taker) {
      var q', taker', fill := FrontQueue(q, taker), FrontTaker(q, taker), FrontFill(q, taker);
      MatchUnfolds(symbolId, side, q, taker, s, last);
      FrontShows(d, symbolId, side, q, taker, s);
      var e := FillEvents(symbolId, q[0], taker, fill, LevelLots(q, q[0].price) - fill, s);
      MatchShows(ApplyAll(d, e), symbolId, side, q', taker', AfterFill(s), Some(q[0].price));
      ApplyAppend(d, e, Match(symbolId, side, q', taker', AfterFill(s), Some(q[0].price)).events);
      SameTwice(d, ApplyAll(d, e), ApplyAll(d, Match(symbolId, side, q, taker, s, last).events), side.Opposite());
    } else {
      ApplyNothing(d);
      SameItself(d, side.Opposite());
    }
  }

  /** The deltas of one fill show the queue after it. */
  lemma FrontShows(d: Depth, symbolId: nat, side: Side, q: Queue, taker: Taker, s: SequenceState)
    requires SaneQuantities(q) && taker.remaining <= taker.original && Matchable(side, q, taker)
    requires (forall o <- q :: o.side == side) && ShowsSide(d, side, q)
    requires FrontFill(q, taker) <= LevelLots(q, q[0].price)
    ensures var e := FillEvents(symbolId, q[0], taker, FrontFill(q, taker), LevelLots(q, q[0].price) - FrontFill(q, taker), s);
            && ShowsSide(ApplyAll(d, e), side, FrontQueue(q, taker)) && SameOnSide(d, ApplyAll(d, e), side.Opposite())
            && forall o <- FrontQueue(q, taker) :: o.side == side
  {
    hide LevelLots, ShowsSide, ApplyDelta;
    var q', fill := FrontQueue(q, taker), FrontFill(q, taker);
    SaneFront(q);
    var e := FillEvents(symbolId, q[0], taker, fill, LevelLots(q, q[0].price) - fill, s);
    FillApplies(d, symbolId, q[0], taker, fill, LevelLots(q, q[0].price) - fill, s);
    forall p: int ensures LevelLots(q', p) == LevelLots(q, p) - if p == q[0].price then fill else 0 {
      ConsumeLevels(q, fill, p);
    }
    assert q[0] in q;
    DeltaShows(d, e[3], q, q');
  }

  lemma SameTwice(a: Depth, b: Depth, c: Depth, side: Side)
    requires SameOnSide(a, b, side) && SameOnSide(b, c, side)
    ensures SameOnSide(a, c, side)
  {
  }

  lemma SameItself(d: Depth, side: Side)
    ensures SameOnSide(d, d, side)
  {
  }

  lemma InsertLevels(side: Side, q: Queue, o: OrderSnapshot, p: int)
    requires Sorted(side, q)
    ensures LevelLots(Insert(side, q, o), p) == LevelLots(q, p) + if p == o.price then o.remaining else 0
  {
    AtPriceInsert(side, q, o, p);
    LotsAppend(AtPrice(q, p), if p == o.price then [o] else []);
  }

  lemma RemoveLevels(q: Queue, o: OrderSnapshot, p: int)
    requires UniqueIds(q) && o in q && p != o.price
    ensures LevelLots(RemoveId(q, o.orderId), p) == LevelLots(q, p)
  {
    AtPriceRemove(q, o.orderId, p);
    AtPriceLacks(q, o, p);
    RemoveAbsent(AtPrice(q, p), o.orderId);
  }

  lemma ApplyQuiet(d: Depth, e: EngineEvent, events: seq<EngineEvent>)
    requires !e.OrderBookDelta?
    ensures ApplyAll(d, [e] + events) == ApplyAll(d, events)
  {
    assert ([e] + events)[1..] == events;
  }

  lemma ApplyLast(d: Depth, events: seq<EngineEvent>, e: EngineEvent)
    ensures ApplyAll(d, events + [e]) == ApplyDelta(ApplyAll(d, events), e)
  {
    ApplyAppend(d, events, [e]);
    assert [e][1..] == [];
  }

  /** After a placement, the consumer's depth is the new book's, if it was the old book's. */
  lemma PlaceShows(d: Depth, book: Book, s: SequenceState, c: PlaceOrderCommand)
    requires BookInv(book) && Shows(d, book)
    ensures Shows(ApplyAll(d, ProcessPlace(book, s, c).events), ProcessPlace(book, s, c).book)
  {
    hide Match, LevelLots, ShowsSide, SameOnSide, Insert, PlaceRejection, Distinct, ApplyDelta, ApplyAll;
    var r, opp := ProcessPlace(book, s, c), c.side.Opposite();
    if PlaceRejection(book, c).Some? {
      ApplyQuiet(d, r.events[0], []);
      assert [r.events[0]] + [] == r.events;
      ApplyNothing(d);
    } else {
      var m := MatchOf(book, s, c);
      MatchShows(d, book.config.symbolId, opp, book.SideQueue(opp), Taker(c.orderId, MatchLimit(c), c.quantity, c.quantity),
                 NextEvent(s), book.lastTradePrice);
      var d' := ApplyAll(d, m.events);
      OtherSide(d, d', c.side, book.SideQueue(c.side));
      ApplyQuiet(d, r.events[0], m.events);
      if CanRest(c) && m.taker.remaining > 0 {
        var o := RestingSnapshot(c, m.taker.remaining, s.nextSequence);
        var own := book.SideQueue(c.side);
        forall p: int ensures LevelLots(Insert(c.side, own, o), p)
                              == LevelLots(own, p) + if p == c.price then o.remaining else 0 {
          InsertLevels(c.side, own, o, p);
        }
        var last := r.events[|r.events| - 1];
        assert r.events == ([r.events[0]] + m.events) + [last];
        ApplyLast(d, [r.events[0]] + m.events, last);
        DeltaShows(d', last, own, Insert(c.side, own, o));
        OtherSide(d', ApplyDelta(d', last), opp, m.queue);
      }
    }
  }

  lemma ApplyNothing(d: Depth)
    ensures ApplyAll(d, []) == d
  {
  }

  /** After a cancel, likewise. */
  lemma CancelShows(d: Depth, book: Book, s: SequenceState, c: CancelOrderCommand)
    requires BookInv(book) && Shows(d, book)
    ensures Shows(ApplyAll(d, ProcessCancel(book, s, c).events), ProcessCancel(book, s, c).book)
  {
    hide LevelLots, ShowsSide, SameOnSide, RemoveId, FindId, CancelTarget, ApplyDelta, ApplyAll;
    var r, id := ProcessCancel(book, s, c), CancelTarget(book, c);
    var found := FindId(book.bids + book.asks, id);
    if |r.events| == 1 {
      ApplyQuiet(d, r.events[0], []);
      assert [r.events[0]] + [] == r.events;
      ApplyNothing(d);
    } else {
      var o := found.value;
      var own := book.SideQueue(o.side);
      assert o in own;
      assert r.events == [r.events[0]] + [r.events[1]];
      ApplyQuiet(d, r.events[0], [r.events[1]]);
      ApplyLast(d, [], r.events[1]);
      assert [] + [r.events[1]] == [r.events[1]];
      ApplyNothing(d);
      forall p: int | p != o.price ensures LevelLots(RemoveId(own, id), p) == LevelLots(own, p) {
        RemoveLevels(own, o, p);
      }
      DeltaShows(d, r.events[1], own, RemoveId(own, id));
      OtherSide(d, ApplyDelta(d, r.events[1]), o.side.Opposite(), book.SideQueue(o.side.Opposite()));
    }
  }
}
