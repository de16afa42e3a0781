/** The order book: two sides, the indexes over their orders, and the matching loop. */
module OrderBooks {
  import opened Types
  import opened BookSpec
  import opened Queues
  import opened PriceLevels
  import opened SideBooks
  import opened CrossingDepth
  import opened MatchLaws

  /** The two indexes list exactly the given orders. */
  ghost predicate Indexed(byId: map<nat, Order>, byClient: map<nat, nat>, orders: set<Order>) {
    && (forall id :: id in byId ==> byId[id].orderId == id && byId[id] in orders)
    && (forall o :: o in orders ==> o.orderId in byId && byId[o.orderId] == o)
    && (forall c :: c in byClient ==> byClient[c] in byId && byId[byClient[c]].clientOrderId == c)
    && (forall id :: id in byId ==> byId[id].clientOrderId in byClient && byClient[byId[id].clientOrderId] == id)
  }

  lemma RemoveIndexed(byId: map<nat, Order>, byClient: map<nat, nat>, orders: set<Order>, o: Order)
    requires Indexed(byId, byClient, orders) && o in orders
    ensures Indexed(byId - {o.orderId}, byClient - {o.clientOrderId}, orders - {o})
  {
  }

  lemma AddIndexed(byId: map<nat, Order>, byClient: map<nat, nat>, orders: set<Order>, o: Order)
    requires Indexed(byId, byClient, orders) && o.orderId !in byId && o.clientOrderId !in byClient
    ensures Indexed(byId[o.orderId := o], byClient[o.clientOrderId := o.orderId], orders + {o})
  {
  }

  method NewSides(config: SymbolConfig) returns (bids: SideBook, asks: SideBook)
    ensures bids.Valid() && asks.Valid() && bids.Repr() !! asks.Repr() && fresh(bids.Repr()) && fresh(asks.Repr())
    ensures bids.side == Buy && bids.ring.tickSize == config.tickSize && bids.view == [] && bids.orders == {}
    ensures asks.side == Sell && asks.ring.tickSize == config.tickSize && asks.view == [] && asks.orders == {}
  {
    hide SideBook.Valid;
    bids := new SideBook(Buy, config.tickSize, config.initialBaseTick, config.ringCapacityTicks);
    asks := new SideBook(Sell, config.tickSize, config.initialBaseTick, config.ringCapacityTicks);
  }

  class OrderBook {
    const config: SymbolConfig
    const bids: SideBook
    const asks: SideBook
    var orderById: map<nat, Order>
    var clientOrderIdToOrderId: map<nat, nat>
    var lastTradePrice: Option<int>

    ghost function Repr(): set<object>
      reads this, bids`levels, bids`orders, asks`levels, asks`orders
    {
      {this} + bids.Repr() + asks.Repr()
    }

    ghost predicate Paired()
      reads bids`levels, bids`orders, asks`levels, asks`orders
    {
      && bids.side == Buy && asks.side == Sell
      && bids.ring.tickSize == config.tickSize && asks.ring.tickSize == config.tickSize
      && bids.Repr() !! asks.Repr() && this !in bids.Repr() && this !in asks.Repr()
    }

    ghost predicate Sides()
      reads bids.Repr(), asks.Repr()
    {
      Paired() && bids.Valid() && asks.Valid()
    }

    /** Everything but the last trade price. */
    ghost predicate Whole()
      reads this`orderById, this`clientOrderIdToOrderId, bids.Repr(), asks.Repr()
    {
      && bids != asks
      && Sides()
      && SaneQuantities(bids.view) && SaneQuantities(asks.view)
      && Indexed(orderById, clientOrderIdToOrderId, bids.orders + asks.orders)
    }

    ghost predicate Valid()
      reads Repr()
    {
      Whole()
    }

    /** The book as the reference sees it. */
    ghost function View(): Book
      reads this, bids`view, asks`view
    {
      Book(config, bids.view, asks.view, lastTradePrice)
    }

    function SideOf(side: Side): SideBook {
      if side == Buy then bids else asks
    }

    constructor (config: SymbolConfig)
      ensures Valid() && fresh(Repr())
      ensures View() == EmptyBook(config)
    {
      hide SideBook.Valid, Whole;
      var b, a := NewSides(config);
      this.config, bids, asks := config, b, a;
      orderById, clientOrderIdToOrderId, lastTradePrice := map[], map[], None;
      new;
      BareValid();
    }

    lemma BareValid()
      requires bids != asks && bids.Valid() && asks.Valid() && bids.Repr() !! asks.Repr()
      requires this !in bids.Repr() && this !in asks.Repr() && orderById == map[] && clientOrderIdToOrderId == map[]
      requires bids.side == Buy && bids.ring.tickSize == config.tickSize && bids.view == [] && bids.orders == {}
      requires asks.side == Sell && asks.ring.tickSize == config.tickSize && asks.view == [] && asks.orders == {}
      ensures Valid()
    {
      hide SideBook.Valid, SideBook.Repr;
    }

    lemma Apart()
      requires Valid()
      ensures this !in bids.Repr() && this !in asks.Repr()
    {
      hide SideBook.Valid, SideBook.Repr;
    }

    /** Each side is part of its own representation, with its orders. */
    lemma SideParts()
      ensures bids in bids.Repr() && bids.orders <= bids.Repr() && asks in asks.Repr() && asks.orders <= asks.Repr()
    {
    }

    /** Take an order off its side; the other side is untouched. */
    method RemoveFrom(side: SideBook, order: Order)
      requires Sides()
      requires side == bids || side == asks
      requires order in side.orders
      requires forall o <- side.view :: o.remaining > 0 || o.orderId == order.orderId
      modifies side.Repr()
      ensures Sides() && unchanged(this)
      ensures side.view == RemoveId(old(side.view), order.orderId)
      ensures bids.view == old(bids.view) || side == bids
      ensures asks.view == old(asks.view) || side == asks
      ensures bids.orders + asks.orders == old(bids.orders + asks.orders) - {order}
      ensures bids.Repr() <= old(bids.Repr()) && asks.Repr() <= old(asks.Repr())
    {
      hide SideBook.Valid, RemoveId;
      SideParts();
      side.RemoveOrder(order);
    }

    /** Take a filled or cancelled order out of the indexes and off its side. */
    method Discard(side: SideBook, order: Order)
      requires Sides()
      requires side == bids || side == asks
      requires order in side.orders
      requires forall o <- side.view :: o.remaining > 0 || o.orderId == order.orderId
      requires Indexed(orderById, clientOrderIdToOrderId, bids.orders + asks.orders)
      modifies this`orderById, this`clientOrderIdToOrderId, side.Repr()
      ensures Sides() && lastTradePrice == old(lastTradePrice)
      ensures side.view == RemoveId(old(side.view), order.orderId)
      ensures bids.view == old(bids.view) || side == bids
      ensures asks.view == old(asks.view) || side == asks
      ensures Indexed(orderById, clientOrderIdToOrderId, bids.orders + asks.orders)
      ensures bids.Repr() <= old(bids.Repr()) && asks.Repr() <= old(asks.Repr())
    {
      hide SideBook.Valid, RemoveId, Indexed;
      RemoveIndexed(orderById, clientOrderIdToOrderId, bids.orders + asks.orders, order);
      orderById := orderById - {order.orderId};
      clientOrderIdToOrderId := clientOrderIdToOrderId - {order.clientOrderId};
      RemoveFrom(side, order);
    }

    /** The maker gives up lots; returns its level's new total. */
    method ReduceBest(side: SideBook, maker: Order, fill: nat) returns (totalAtPrice: nat)
      requires Sides()
      requires side == bids || side == asks
      requires side.IsFront(maker) && fill <= maker.remaining
      modifies side.Repr()
      ensures Sides() && unchanged(this)
      ensures side.view == [old(side.view)[0].(remaining := old(side.view)[0].remaining - fill)] + old(side.view)[1..]
      ensures side.view[0] == maker.Snapshot()
      ensures bids.view == old(bids.view) || side == bids
      ensures asks.view == old(asks.view) || side == asks
      ensures bids.levels == old(bids.levels) && asks.levels == old(asks.levels)
      ensures bids.orders == old(bids.orders) && asks.orders == old(asks.orders)
      ensures bids.Repr() == old(bids.Repr()) && asks.Repr() == old(asks.Repr())
      ensures totalAtPrice == LevelLots(old(side.view), maker.price) - fill
    {
      hide SideBook.Valid, LevelLots, SideBook.IsFront;
      SideParts();
      totalAtPrice := side.ReduceBest(maker, fill);
    }

    /** After a partial fill the level is looked at again; nothing changes but the caches. */
    method RefreshAfterFill(side: SideBook, level: PriceLevel)
      requires Sides()
      requires side == bids || side == asks
      requires side.view != [] && side.view[0].price in side.levels && level == side.levels[side.view[0].price]
      requires forall o <- side.view :: o.remaining > 0
      modifies side.Repr()
      ensures Sides() && unchanged(this)
      ensures bids.view == old(bids.view) && asks.view == old(asks.view)
      ensures bids.levels == old(bids.levels) && asks.levels == old(asks.levels)
      ensures bids.orders == old(bids.orders) && asks.orders == old(asks.orders)
      ensures bids.Repr() == old(bids.Repr()) && asks.Repr() == old(asks.Repr())
    {
      hide SideBook.Valid;
      SideParts();
      side.UpdateFront(level);
    }

    lemma RemoveFront(side: SideBook)
      requires Sides() && (side == bids || side == asks) && side.view != []
      ensures RemoveId(side.view, side.view[0].orderId) == side.view[1..]
    {
      hide SideBook.Shelved;
      if side == bids { bids.UniqueView(); } else { asks.UniqueView(); }
      RemoveAt(side.view, 0);
    }

    /** The best order gives up `fill` lots and leaves the book if none are left. */
    method ConsumeBest(side: SideBook, maker: Order, fill: nat) returns (totalAtPrice: nat)
      requires Valid() && side.IsFront(maker) && fill <= maker.remaining
      requires side == bids || side == asks
      modifies this`orderById, this`clientOrderIdToOrderId, side.Repr()
      ensures Valid()
      ensures side.view == ConsumeFront(old(side.view), fill)
      ensures bids.view == old(bids.view) || side == bids
      ensures asks.view == old(asks.view) || side == asks
      ensures totalAtPrice == LevelLots(old(side.view), maker.price) - fill
      ensures bids.Repr() <= old(bids.Repr()) && asks.Repr() <= old(asks.Repr())
    {
      hide Sides, AtPrice, Lots, RemoveId, Indexed, SideBook.Repr;
      var level := maker.priceLevel;
      totalAtPrice := ReduceBest(side, maker, fill);
      if maker.remaining == 0 {
        RemoveFront(side);
        Discard(side, maker);
      } else {
        RefreshAfterFill(side, level);
      }
    }

    /** One fill of the best order, with its four events; the generator's counters go in and come out. */
    method FillBest(side: SideBook, maker: Order, taker: Taker, s: SequenceState)
      returns (fill: nat, events: seq<EngineEvent>, next: SequenceState)
      requires Valid() && side.IsFront(maker)
      requires side == bids || side == asks
      requires SaneQuantities(side.view) && side.view != []
      requires 0 < taker.remaining <= taker.original
      modifies this, side.Repr()
      ensures Valid()
      ensures FillOf(config.symbolId, old(side.view), taker, s, fill, events, side.view, next, lastTradePrice)
      ensures bids.view == old(bids.view) || side == bids
      ensures asks.view == old(asks.view) || side == asks
      ensures 0 < fill <= taker.remaining
      ensures bids.Repr() <= old(bids.Repr()) && asks.Repr() <= old(asks.Repr())
    {
      hide Whole, LevelLots, ConsumeFront, FillEvents, FillOf, SideBook.Repr;
      fill := Min(taker.remaining, maker.remaining);
      var before := maker.Snapshot();
      var totalAtPrice := ConsumeBest(side, maker, fill);
      Apart();
      lastTradePrice := Some(before.price);
      events := FillEvents(config.symbolId, before, taker, fill, totalAtPrice, s);
      next := AfterFill(s);
      MakeFill(config.symbolId, old(side.view), taker, s, fill, before, totalAtPrice, side.view);
    }

    /** The best order of a side, if the limit reaches it. */
    method NextMaker(side: SideBook, restingSide: Side, limit: int) returns (maker: Order?)
      requires Sides() && side == SideOf(restingSide)
      ensures maker != null <==> side.view != [] && Crosses(restingSide, limit, side.view[0].price)
      ensures maker != null ==> side.IsFront(maker)
      ensures Sides()
    {
      hide SideBook.Valid, SideBook.IsFront;
      maker := side.CrossingOrder(limit);
    }

    /** The matching loop. */
    method MatchIncomingOrder(restingSide: Side, taker: Taker, s: SequenceState)
      returns (remaining: nat, events: seq<EngineEvent>, next: SequenceState)
      requires Valid() && taker.remaining <= taker.original
      modifies Repr()
      ensures Valid()
      ensures bids.Repr() <= old(bids.Repr()) && asks.Repr() <= old(asks.Repr())
      ensures SideOf(restingSide.Opposite()).view == old(SideOf(restingSide.Opposite()).view)
      ensures MatchResult(SideOf(restingSide).view, taker.(remaining := remaining), next, events, lastTradePrice)
              == Match(config.symbolId, restingSide, old(SideOf(restingSide).view), taker, s, old(lastTradePrice))
    {
      hide Sides, FillOf, Indexed, Match, Continues, SideBook.IsFront;
      var side := SideOf(restingSide);
      var incoming := taker;
      events, next := [], s;
      ghost var goal := Match(config.symbolId, restingSide, side.view, taker, s, lastTradePrice);
      Start(goal);
      while incoming.remaining != 0
        invariant Valid()
        invariant bids.Repr() <= old(bids.Repr()) && asks.Repr() <= old(asks.Repr())
        invariant incoming == taker.(remaining := incoming.remaining) && incoming.remaining <= taker.remaining
        invariant SideOf(restingSide.Opposite()).view == old(SideOf(restingSide.Opposite()).view)
        invariant Continues(goal, events, Match(config.symbolId, restingSide, side.view, incoming, next, lastTradePrice))
        decreases incoming.remaining
      {
        var maker := NextMaker(side, restingSide, incoming.limit);
        if maker == null {
          break;
        }
        ghost var q, last := side.view, lastTradePrice;
        var fill, emitted, after := FillBest(side, maker, incoming, next);
        Continue(goal, events, config.symbolId, restingSide, q, incoming, next, last, fill, emitted, side.view, after,
                 lastTradePrice);
        incoming := incoming.(remaining := incoming.remaining - fill);
        events, next := events + emitted, after;
      }
      MatchStop(config.symbolId, restingSide, side.view, incoming, next, lastTradePrice);
      Finish(goal, events, Match(config.symbolId, restingSide, side.view, incoming, next, lastTradePrice));
      remaining := incoming.remaining;
    }

    // ---------- The indexes against the queues ----------

    lemma SideObjects(side: SideBook)
      requires side.Valid()
      ensures forall o <- side.orders :: o.Snapshot() in side.view && o.side == side.side
      ensures forall v <- side.view :: exists o :: o in side.orders && o.Snapshot() == v
    {
      hide SideBook.Housed, SideBook.NoEmptyLevel;
      forall o <- side.orders ensures o.Snapshot() in side.view && o.side == side.side {
        var k := side.Standing(o);
      }
      forall v <- side.view ensures exists o :: o in side.orders && o.Snapshot() == v {
        var o := side.OrderFor(v);
      }
    }

    /** An id is in the index exactly when an order with it rests, and then the index leads to that order. */
    lemma IndexById(id: nat)
      requires Valid()
      ensures id in orderById <==> HasId(bids.view + asks.view, id)
      ensures id in orderById ==> FindId(bids.view + asks.view, id) == Some(orderById[id].Snapshot())
    {
      hide SideBook.Valid, FindId;
      var all := bids.view + asks.view;
      SideObjects(bids);
      SideObjects(asks);
      if id in orderById {
        var v := orderById[id].Snapshot();
        assert v in all;
        var k :| 0 <= k < |all| && all[k] == v;
        assert all[k].orderId == id;
      }
      if HasId(all, id) {
        var v := FindId(all, id).value;
        assert v in all;
        assert v in bids.view || v in asks.view;
      }
    }

    lemma IndexByClient(client: nat)
      requires Valid()
      ensures client in clientOrderIdToOrderId <==> HasClient(bids.view + asks.view, client)
      ensures client in clientOrderIdToOrderId ==>
                var found := FindClient(bids.view + asks.view, client);
                found.Some? && found.value.orderId == clientOrderIdToOrderId[client]
    {
      hide SideBook.Valid, FindClient;
      var all := bids.view + asks.view;
      SideObjects(bids);
      SideObjects(asks);
      if client in clientOrderIdToOrderId {
        var v := orderById[clientOrderIdToOrderId[client]].Snapshot();
        assert v in all;
        var k :| 0 <= k < |all| && all[k] == v;
        assert all[k].clientOrderId == client;
      }
      if HasClient(all, client) {
        var v := FindClient(all, client).value;
        assert v in all;
        assert v in bids.view || v in asks.view;
      }
    }

    // ---------- Commands ----------

    /** Every level holds few enough lots for its 64-bit total, with `extra` more lots in it. */
    ghost predicate Fits(extra: nat)
      reads bids`view, asks`view
    {
      forall p: int :: LevelLots(bids.view, p) + extra < LOTS_LIMIT && LevelLots(asks.view, p) + extra < LOTS_LIMIT
    }

    method FillOrKillLots(side: SideBook, limit: int, quantity: nat) returns (lots: nat)
      requires Sides() && Fits(quantity) && (side == bids || side == asks)
      ensures lots >= quantity <==> CrossingLots(side.side, side.view, limit) >= quantity
      ensures Sides()
    {
      hide SideBook.Shelved, SideBook.NoEmptyLevel, Lots, CrossingLots;
      LevelsFit(side);
      lots := AvailableCrossingLots(side, limit, quantity);
    }

    lemma LevelsFit(side: SideBook)
      requires side.Valid() && forall p: int :: LevelLots(side.view, p) < LOTS_LIMIT
      ensures forall p <- side.levels :: side.levels[p].totalQuantity < LOTS_LIMIT
    {
      hide SideBook.Kept, SideBook.Spelled, SideBook.Housed, SideBook.NoEmptyLevel;
      forall p <- side.levels ensures side.levels[p].totalQuantity < LOTS_LIMIT {
        side.LevelTotal(p);
      }
    }

    /** The checks a placement must pass, in order. */
    method CheckPlace(c: PlaceOrderCommand) returns (rejection: Option<RejectReason>)
      requires Valid() && Fits(c.quantity)
      ensures rejection == PlaceRejection(View(), c)
      ensures Sides()
    {
      hide Sides, CrossingLots, Lots, HasId, HasClient, Indexed;
      IndexById(c.orderId);
      IndexByClient(c.clientOrderId);
      if c.orderId in orderById || c.clientOrderId in clientOrderIdToOrderId {
        return Some(DuplicateOrder);
      }
      if !config.tradingEnabled {
        return Some(MarketClosed);
      }
      if !ValidSymbolQuantity(c.quantity, config) {
        return Some(InvalidQuantity);
      }
      if c.orderType == Limit && !ValidSymbolPrice(c.price, config) {
        return Some(InvalidPrice);
      }
      var opposite := SideOf(c.side.Opposite());
      if c.timeInForce == PO {
        var maker := NextMaker(opposite, c.side.Opposite(), c.price);
        if maker != null {
          return Some(InvalidPrice);
        }
      }
      if c.timeInForce == FOK {
        SideNames();
        var available := FillOrKillLots(opposite, MatchLimit(c), c.quantity);
        if available < c.quantity {
          return Some(InsufficientBalanceLiquidity);
        }
      }
      return None;
    }

    lemma SideNames()
      requires Sides()
      ensures bids.side == Buy && asks.side == Sell
    {
    }

    /** Put an order on its side; the other side is untouched. */
    method RestIn(side: SideBook, order: Order)
      requires Sides() && (side == bids || side == asks)
      requires order !in bids.Repr() && order !in asks.Repr()
      requires side.GoodPrice(order.price) && order.side == side.side && !HasId(side.view, order.orderId)
      modifies side.Repr(), order`nextOrder, order`previousOrder, order`priceLevel
      ensures Sides() && unchanged(this)
      ensures side.view == Insert(side.side, old(side.view), order.Snapshot())
      ensures bids.view == old(bids.view) || side == bids
      ensures asks.view == old(asks.view) || side == asks
      ensures bids.orders + asks.orders == old(bids.orders + asks.orders) + {order}
      ensures order in side.orders
      ensures forall x :: x in bids.Repr() ==> x in old(bids.Repr()) || x == order || fresh(x)
      ensures forall x :: x in asks.Repr() ==> x in old(asks.Repr()) || x == order || fresh(x)
    {
      hide SideBook.Valid, Insert, HasId, SideBook.Repr;
      InsertApart(side, if side == bids then asks else bids, order);
    }

    /** Index an order and put it on its side. */
    method InsertRemainingAsResting(order: Order)
      requires Valid() && order !in Repr()
      requires ValidSymbolPrice(order.price, config) && 0 < order.remaining <= order.original
      requires order.orderId !in orderById && order.clientOrderId !in clientOrderIdToOrderId
      modifies Repr(), order`nextOrder, order`previousOrder, order`priceLevel
      ensures Valid() && lastTradePrice == old(lastTradePrice)
      ensures SideOf(order.side).view == Insert(order.side, old(SideOf(order.side).view), order.Snapshot())
      ensures SideOf(order.side.Opposite()).view == old(SideOf(order.side.Opposite()).view)
      ensures order in SideOf(order.side).orders
      ensures forall x :: x in bids.Repr() ==> x in old(bids.Repr()) || x == order || fresh(x)
      ensures forall x :: x in asks.Repr() ==> x in old(asks.Repr()) || x == order || fresh(x)
    {
      hide SideBook.Valid, Insert, Indexed, SideBook.Repr;
      IndexById(order.orderId);
      NoId(bids.view, asks.view, order.orderId);
      AddIndexed(orderById, clientOrderIdToOrderId, bids.orders + asks.orders, order);
      RestIn(SideOf(order.side), order);
      orderById := orderById[order.orderId := order];
      clientOrderIdToOrderId := clientOrderIdToOrderId[order.clientOrderId := order.orderId];
      SaneInsert(order.side, old(SideOf(order.side).view), order.Snapshot());
    }

    /** The total at a resting order's price. */
    method TotalAt(order: Order) returns (total: nat)
      requires Valid() && order in SideOf(order.side).orders
      ensures total == LevelLots(SideOf(order.side).view, order.price)
      ensures Valid()
    {
      hide SideBook.Housed, SideBook.Kept, SideBook.Spelled, SideBook.NoEmptyLevel, Lots, AtPrice, Indexed;
      ghost var k := SideOf(order.side).Standing(order);
      SideOf(order.side).LevelTotal(order.price);
      var level := order.priceLevel;
      return level.totalQuantity;
    }

    /** Allocate an order and let it rest; returns its level's new total. */
    method RestRemaining(o: OrderSnapshot) returns (total: nat)
      requires Valid() && ValidSymbolPrice(o.price, config) && 0 < o.remaining <= o.original
      requires o.orderId !in orderById && o.clientOrderId !in clientOrderIdToOrderId
      modifies Repr()
      ensures Valid() && lastTradePrice == old(lastTradePrice)
      ensures SideOf(o.side).view == Insert(o.side, old(SideOf(o.side).view), o)
      ensures SideOf(o.side.Opposite()).view == old(SideOf(o.side.Opposite()).view)
      ensures total == LevelLots(SideOf(o.side).view, o.price)
      ensures forall x :: x in bids.Repr() ==> x in old(bids.Repr()) || fresh(x)
      ensures forall x :: x in asks.Repr() ==> x in old(asks.Repr()) || fresh(x)
    {
      hide SideBook.Valid, Indexed, Insert, LevelLots;
      var order := new Order(o);
      InsertRemainingAsResting(order);
      total := TotalAt(order);
    }

    /** An accepted order's ids are still free after it has matched. */
    lemma StillFree(c: PlaceOrderCommand, was: Book, m: MatchResult)
      requires Valid() && Suffix(m.queue, was.SideQueue(c.side.Opposite()))
      requires bids.view == was.WithSide(c.side.Opposite(), m.queue).bids
      requires asks.view == was.WithSide(c.side.Opposite(), m.queue).asks
      requires !HasId(was.bids + was.asks, c.orderId) && !HasClient(was.bids + was.asks, c.clientOrderId)
      ensures c.orderId !in orderById && c.clientOrderId !in clientOrderIdToOrderId
    {
      hide Sides, Indexed, Suffix;
      IndexById(c.orderId);
      IndexByClient(c.clientOrderId);
      var old', new' := was.SideQueue(c.side.Opposite()), m.queue;
      SuffixIds(new', old', c.orderId);
      SuffixIds(new', old', c.clientOrderId);
      NoId(was.bids, was.asks, c.orderId);
      NoIdBoth(bids.view, asks.view, c.orderId);
      NoClient(was.bids, was.asks, c.clientOrderId);
      NoClientBoth(bids.view, asks.view, c.clientOrderId);
    }

    /** Accept, match, and let the remainder rest if the order may. */
    method AcceptPlace(c: PlaceOrderCommand, s: SequenceState) returns (events: seq<EngineEvent>, next: SequenceState)
      requires Valid() && PlaceRejection(View(), c).None?
      modifies Repr()
      ensures Valid()
      ensures BookResult(View(), next, events) == BookSpec.ProcessPlace(old(View()), s, c)
      ensures forall x :: x in bids.Repr() ==> x in old(bids.Repr()) || fresh(x)
      ensures forall x :: x in asks.Repr() ==> x in old(asks.Repr()) || fresh(x)
    {
      hide Sides, Indexed, PlaceRejection, Match, Suffix, Insert, LevelLots, SideBook.Repr;
      events := [OrderAccepted(s.nextEventId, s.nextSequence, c.orderId, c.clientOrderId, c.userId, c.symbolId, c.side,
                               c.price, c.quantity)];
      var taker := Taker(c.orderId, MatchLimit(c), c.quantity, c.quantity);
      ghost var was := View();
      var remaining, matched, after := MatchIncomingOrder(c.side.Opposite(), taker, NextEvent(s));
      events, next := events + matched, after;
      if CanRest(c) && remaining != 0 {
        PassedChecks(was, c);
        MatchLeavesSuffix(config.symbolId, c.side.Opposite(), was.SideQueue(c.side.Opposite()), taker, NextEvent(s),
                          was.lastTradePrice);
        StillFree(c, was, MatchOf(was, s, c));
        var total := RestRemaining(RestingSnapshot(c, remaining, s.nextSequence));
        events := events + [OrderBookDelta(next.nextEventId, next.nextSequence, c.symbolId, c.side, c.price, total)];
        next := NextEvent(next);
      }
    }

    method ProcessPlace(c: PlaceOrderCommand, s: SequenceState) returns (events: seq<EngineEvent>, next: SequenceState)
      requires Valid() && Fits(c.quantity)
      modifies Repr()
      ensures Valid()
      ensures BookResult(View(), next, events) == BookSpec.ProcessPlace(old(View()), s, c)
      ensures forall x :: x in bids.Repr() ==> x in old(bids.Repr()) || fresh(x)
      ensures forall x :: x in asks.Repr() ==> x in old(asks.Repr()) || fresh(x)
    {
      hide Sides, Indexed, PlaceRejection, MatchOf, Insert, LevelLots, SideBook.Repr;
      var rejection := CheckPlace(c);
      if rejection.Some? {
        events := [Rejection(s, c.commandId, c.orderId, c.userId, c.symbolId, rejection.value)];
        next := NextEvent(s);
      } else {
        events, next := AcceptPlace(c, s);
      }
    }

    /** The indexed order, on its side. */
    lemma Located(id: nat)
      requires Valid() && id in orderById
      ensures orderById[id].orderId == id
      ensures orderById[id] in SideOf(orderById[id].side).orders
      ensures orderById[id].Snapshot() in SideOf(orderById[id].side).view
      ensures UniqueIds(SideOf(orderById[id].side).view)
    {
      hide SideBook.Shelved, SideBook.NoEmptyLevel;
      SideObjects(bids);
      SideObjects(asks);
      bids.UniqueView();
      asks.UniqueView();
    }

    /** Cancel a resting order: its lots are released and leave its level. */
    method CancelExistingOrder(id: nat, s: SequenceState) returns (events: seq<EngineEvent>, next: SequenceState)
      requires Valid() && id in orderById
      modifies Repr()
      ensures Valid() && lastTradePrice == old(lastTradePrice)
      ensures var o := old(orderById[id].Snapshot());
              && SideOf(o.side).view == RemoveId(old(SideOf(o.side).view), id)
              && SideOf(o.side.Opposite()).view == old(SideOf(o.side.Opposite()).view)
              && events == [OrderCancelled(s.nextEventId, s.nextSequence, id, o.remaining),
                            OrderBookDelta(s.nextEventId + 1, s.nextSequence + 1, config.symbolId, o.side, o.price,
                                           LevelLots(SideOf(o.side).view, o.price))]
      ensures next == NextEvent(NextEvent(s))
      ensures bids.Repr() <= old(bids.Repr()) && asks.Repr() <= old(asks.Repr())
    {
      hide Sides, Indexed, RemoveId, LevelLots, SideBook.Repr, UniqueIds;
      Located(id);
      var order := orderById[id];
      var before := order.Snapshot();
      var total := TotalAt(order);
      RemoveLots(SideOf(before.side).view, before);
      var totalAfterCancel := if total > before.remaining then total - before.remaining else 0;
      SaneRemove(SideOf(before.side).view, id);
      Discard(SideOf(before.side), order);
      events := [OrderCancelled(s.nextEventId, s.nextSequence, id, before.remaining),
                 OrderBookDelta(s.nextEventId + 1, s.nextSequence + 1, config.symbolId, before.side, before.price,
                                totalAfterCancel)];
      next := NextEvent(NextEvent(s));
    }

    method ProcessCancel(c: CancelOrderCommand, s: SequenceState) returns (events: seq<EngineEvent>, next: SequenceState)
      requires Valid()
      modifies Repr()
      ensures Valid()
      ensures BookResult(View(), next, events) == BookSpec.ProcessCancel(old(View()), s, c)
      ensures bids.Repr() <= old(bids.Repr()) && asks.Repr() <= old(asks.Repr())
    {
      hide Sides, Indexed, RemoveId, LevelLots, SideBook.Repr, FindId, FindClient;
      var target := c.orderId;
      if target == 0 {
        IndexByClient(c.clientOrderId);
        if c.clientOrderId in clientOrderIdToOrderId {
          target := clientOrderIdToOrderId[c.clientOrderId];
        }
      }
      IndexById(target);
      if target !in orderById || orderById[target].userId != c.userId {
        events := [Rejection(s, c.commandId, target, c.userId, c.symbolId, OrderNotFound)];
        next := NextEvent(s);
        return;
      }
      events, next := CancelExistingOrder(target, s);
    }
  }

  /** `goal` is `rest` with the events so far in front. */
  ghost predicate Continues(goal: MatchResult, events: seq<EngineEvent>, rest: MatchResult) {
    goal == rest.(events := events + rest.events)
  }

  lemma Start(goal: MatchResult)
    ensures Continues(goal, [], goal)
  {
  }

  /** What one fill of a queue's best order does, as a relation. */
  ghost predicate FillOf(symbolId: nat, q: Queue, taker: Taker, s: SequenceState, fill: nat, events: seq<EngineEvent>,
                         q': Queue, s': SequenceState, last': Option<int>)
    requires SaneQuantities(q) && q != [] && taker.remaining <= taker.original
  {
    && fill == Min(taker.remaining, q[0].remaining)
    && LevelLots(q, q[0].price) >= fill
    && events == FillEvents(symbolId, q[0], taker, fill, LevelLots(q, q[0].price) - fill, s)
    && q' == ConsumeFront(q, fill)
    && s' == AfterFill(s)
    && last' == Some(q[0].price)
  }

  lemma MakeFill(symbolId: nat, q: Queue, taker: Taker, s: SequenceState, fill: nat, maker: OrderSnapshot, total: int,
                 q': Queue)
    requires SaneQuantities(q) && q != [] && taker.remaining <= taker.original
    requires maker == q[0] && fill == Min(taker.remaining, maker.remaining)
    requires total == LevelLots(q, maker.price) - fill && q' == ConsumeFront(q, fill)
    ensures total >= 0
    ensures FillOf(symbolId, q, taker, s, fill, FillEvents(symbolId, maker, taker, fill, total, s), q', AfterFill(s),
                   Some(maker.price))
  {
    FrontLots(q);
  }

  /** One more fill leaves one fill less to do. */
  lemma Continue(goal: MatchResult, events: seq<EngineEvent>, symbolId: nat, side: Side, q: Queue, taker: Taker,
                 s: SequenceState, last: Option<int>, fill: nat, emitted: seq<EngineEvent>,
                 q': Queue, s': SequenceState, last': Option<int>)
    requires SaneQuantities(q) && SaneQuantities(q') && taker.remaining <= taker.original && Matchable(side, q, taker)
    requires Continues(goal, events, Match(symbolId, side, q, taker, s, last))
    requires FillOf(symbolId, q, taker, s, fill, emitted, q', s', last')
    ensures Continues(goal, events + emitted,
                      Match(symbolId, side, q', taker.(remaining := taker.remaining - fill), s', last'))
  {
    hide FillEvents, LevelLots, SaneQuantities, ConsumeFront, Crosses;
    var rest := Match(symbolId, side, q', taker.(remaining := taker.remaining - fill), s', last');
    assert Match(symbolId, side, q, taker, s, last) == rest.(events := emitted + rest.events);
    assert events + (emitted + rest.events) == (events + emitted) + rest.events;
  }

  lemma Finish(goal: MatchResult, events: seq<EngineEvent>, rest: MatchResult)
    requires Continues(goal, events, rest) && rest.events == []
    ensures goal == rest.(events := events)
  {
  }

  lemma MatchStop(symbolId: nat, side: Side, q: Queue, taker: Taker, s: SequenceState, last: Option<int>)
    requires SaneQuantities(q) && taker.remaining <= taker.original && !Matchable(side, q, taker)
    ensures Match(symbolId, side, q, taker, s, last) == MatchResult(q, taker, s, [], last)
  {
  }
}
