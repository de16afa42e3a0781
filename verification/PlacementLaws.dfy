/**
  What becomes of an order, told from the command and the core it meets: whether it is accepted, what it trades, at which
  prices, and whether it then rests.  Times in force, prices and limits are spelled out here.
 */
module PlacementLaws {
  import opened Types
  import opened BookSpec
  import opened Queues
  import opened MatchLaws
  import opened BookLaws
  import opened CoreSpec
  import opened CoreLaws
  import RuntimeSpec
  import opened StoreLaws

  // ---------- What an order may trade ----------

  /** A price that an order may trade at: its limit or better; for a market order, whatever fits the width of a price. */
  predicate Agrees(c: PlaceOrderCommand, price: int) {
    match c.orderType
    case Limit => if c.side == Buy then price <= c.price else price >= c.price
    case Market => if c.side == Buy then price <= 0x7FFF_FFFF_FFFF_FFFF else price >= -0x8000_0000_0000_0000
  }

  /** The lots of a queue at such prices, wherever they stand. */
  function LotsFor(c: PlaceOrderCommand, q: Queue): nat {
    if q == [] then 0 else (if Agrees(c, q[0].price) then q[0].remaining else 0) + LotsFor(c, q[1..])
  }

  /** The orders that an order meets. */
  function Opponents(core: Core, c: PlaceOrderCommand): Queue
    requires c.symbolId in core.books
  {
    if c.side == Buy then core.books[c.symbolId].asks else core.books[c.symbolId].bids
  }

  /** The orders that it would join. */
  function Peers(core: Core, c: PlaceOrderCommand): Queue
    requires c.symbolId in core.books
  {
    if c.side == Buy then core.books[c.symbolId].bids else core.books[c.symbolId].asks
  }

  lemma AgreesCrosses(c: PlaceOrderCommand, price: int)
    ensures Agrees(c, price) <==> Crosses(c.side.Opposite(), MatchLimit(c), price)
  {
  }

  lemma {:induction false} NoneAgrees(c: PlaceOrderCommand, q: Queue)
    requires forall o <- q :: !Agrees(c, o.price)
    ensures LotsFor(c, q) == 0
  {
    if q != [] {
      assert q[0] in q;
      NoneAgrees(c, q[1..]);
    }
  }

  /** In a sorted queue the reachable lots stand in front. */
  lemma {:induction false} CrossingIsAgreeing(c: PlaceOrderCommand, q: Queue)
    requires Sorted(c.side.Opposite(), q)
    ensures CrossingLots(c.side.Opposite(), q, MatchLimit(c)) == LotsFor(c, q)
  {
    if q != [] {
      AgreesCrosses(c, q[0].price);
      if Agrees(c, q[0].price) {
        CrossingIsAgreeing(c, q[1..]);
      } else {
        NoneAgrees(c, q);
      }
    }
  }

  lemma OpponentsSorted(core: Core, c: PlaceOrderCommand)
    requires CoreInv(core) && c.symbolId in core.books
    ensures var q := Opponents(core, c);
            Sorted(c.side.Opposite(), q) && SaneQuantities(q) && q == core.books[c.symbolId].SideQueue(c.side.Opposite())
  {
    hide Distinct, ValidSymbolPrice, Remembered, Uncrossed;
  }

  /** What an accepted order takes: what it wants, or all that agrees with it. */
  lemma TakenAgrees(core: Core, c: PlaceOrderCommand)
    requires CoreInv(core) && Acceptable(core, c)
    ensures Taken(core, c) == Min(c.quantity, LotsFor(c, Opponents(core, c)))
  {
    hide CoreInv, ValidatePlace, PlaceRejection, CrossingLots, Sorted;
    OpponentsSorted(core, c);
    CrossingIsAgreeing(c, Opponents(core, c));
  }

  // ---------- Acceptance ----------

  /** A size that the market allows. */
  predicate SizeAllowed(quantity: nat, config: SymbolConfig) {
    quantity > 0 && config.lotSize > 0 && quantity % config.lotSize == 0 && config.minQuantity <= quantity <= config.maxQuantity
  }

  /** A price on the market's grid and within its bounds. */
  predicate PriceAllowed(price: int, config: SymbolConfig) {
    price > 0 && config.tickSize > 0 && price % config.tickSize == 0 && config.minPrice <= price <= config.maxPrice
  }

  /** Some opposing order stands at the command's price or better. */
  ghost predicate WouldTake(core: Core, c: PlaceOrderCommand)
    requires c.symbolId in core.books
  {
    exists o <- Opponents(core, c) :: if c.side == Buy then o.price <= c.price else o.price >= c.price
  }

  /** The reason for which an order is turned away, if any, in the order in which reasons count. */
  ghost function Verdict(core: Core, c: PlaceOrderCommand): Option<RejectReason> {
    if c.commandId in core.idempotency.commands then Some(DuplicateCommand)
    else if c.symbolId !in core.books then Some(InvalidSymbol)
    else
      var config := core.books[c.symbolId].config;
      if c.orderId in core.idempotency.orderIds || c.clientOrderId in core.idempotency.clientOrders then Some(DuplicateOrder)
      else if !config.tradingEnabled then Some(MarketClosed)
      else if !SizeAllowed(c.quantity, config) then Some(InvalidQuantity)
      else if c.orderType == Limit && !PriceAllowed(c.price, config) then Some(InvalidPrice)
      else if c.timeInForce == PO && WouldTake(core, c) then Some(InvalidPrice)
      else if c.timeInForce == FOK && LotsFor(c, Opponents(core, c)) < c.quantity then Some(InsufficientBalanceLiquidity)
      else None
  }

  /** Ids that were never used do not rest. */
  lemma NewIdsAbsent(core: Core, c: PlaceOrderCommand)
    requires CoreInv(core) && c.symbolId in core.books
    requires c.orderId !in core.idempotency.orderIds && c.clientOrderId !in core.idempotency.clientOrders
    ensures var all := core.books[c.symbolId].bids + core.books[c.symbolId].asks;
            !HasId(all, c.orderId) && !HasClient(all, c.clientOrderId)
  {
    hide BookInv;
    var book := core.books[c.symbolId];
    assert BookOk(book, c.symbolId, core.idempotency);
    var all := book.bids + book.asks;
    forall i | 0 <= i < |all| ensures all[i].orderId != c.orderId && all[i].clientOrderId != c.clientOrderId {
      assert all[i] in book.bids || all[i] in book.asks;
    }
  }

  /** The post-only check looks at the front, which stands for the whole queue. */
  lemma FrontWouldTake(core: Core, c: PlaceOrderCommand)
    requires CoreInv(core) && c.symbolId in core.books
    ensures var q := Opponents(core, c); WouldTake(core, c) <==> q != [] && Crosses(c.side.Opposite(), c.price, q[0].price)
  {
    hide CoreInv;
    OpponentsSorted(core, c);
    var q := Opponents(core, c);
    if WouldTake(core, c) {
      var o :| o in q && if c.side == Buy then o.price <= c.price else o.price >= c.price;
      var i :| 0 <= i < |q| && q[i] == o;
      assert i > 0 ==> !Better(c.side.Opposite(), q[i].price, q[0].price);
    } else if q != [] {
      assert q[0] in q;
    }
  }

  lemma BookVerdict(core: Core, c: PlaceOrderCommand)
    requires CoreInv(core) && c.commandId !in core.idempotency.commands && c.symbolId in core.books
    ensures var book := core.books[c.symbolId];
            var invalid := ValidatePlace(c, book.config, core.idempotency);
            Verdict(core, c) == if invalid.Some? then invalid else PlaceRejection(book, c)
  {
    hide CoreInv, Sorted, HasId, HasClient, CrossingLots, LotsFor, WouldTake;
    var book := core.books[c.symbolId];
    if c.orderId !in core.idempotency.orderIds && c.clientOrderId !in core.idempotency.clientOrders { NewIdsAbsent(core, c); }
    OpponentsSorted(core, c);
    FrontWouldTake(core, c);
    CrossingIsAgreeing(c, Opponents(core, c));
  }

  lemma AcceptableIff(core: Core, c: PlaceOrderCommand)
    requires CoreInv(core)
    ensures Acceptable(core, c) <==> Verdict(core, c).None?
  {
    hide CoreInv, PlaceRejection, ValidatePlace;
    if c.commandId !in core.idempotency.commands && c.symbolId in core.books {
      BookVerdict(core, c);
    } else {
      assert Verdict(core, c).Some?;
    }
  }

  /** The one event that turns an order away. */
  function Refusal(core: Core, c: PlaceOrderCommand, reason: RejectReason): EngineEvent {
    OrderRejected(core.sequences.nextEventId, core.sequences.nextSequence, c.commandId,
                  if c.orderId == 0 then None else Some(c.orderId), c.userId, c.symbolId, reason)
  }

  /**
    An order is accepted exactly if there is no reason against it, and then its acceptance is announced first; otherwise that
    reason is the one answer, and no book changes.
   */
  lemma Decided(core: Core, c: PlaceOrderCommand)
    requires CoreInv(core)
    ensures var v, r, s := Verdict(core, c), RuntimeSpec.CoreStep(core, Place(c)), core.sequences;
            && (v.None? <==> IsAccepted(r.events))
            && (v.Some? ==> r.core.books == core.books && r.events == [Refusal(core, c, v.value)])
            && (v.None? ==> r.events != [] && r.events[0] == OrderAccepted(s.nextEventId, s.nextSequence, c.orderId, c.clientOrderId,
                                                                         c.userId, c.symbolId, c.side, c.price, c.quantity))
  {
    hide CoreInv, Verdict, MatchOf, Insert, LevelLots, PlaceRejection, SaneQuantities, ValidatePlace, RejectionIn, Summary;
    AcceptableIff(core, c);
    AcceptedIff(core, c);
    if c.commandId in core.idempotency.commands || c.symbolId !in core.books {
      Unmet(core, c);
    } else {
      BookVerdict(core, c);
      BookSaneAt(core, c.symbolId);
      assert core.books[c.symbolId := core.books[c.symbolId]] == core.books;
    }
  }

  lemma Unmet(core: Core, c: PlaceOrderCommand)
    requires c.commandId in core.idempotency.commands || c.symbolId !in core.books
    ensures Verdict(core, c) == Some(if c.commandId in core.idempotency.commands then DuplicateCommand else InvalidSymbol)
  {
  }

  /** What is remembered: the command and its outcome, unless it is a repeat, and the ids of an accepted order. */
  lemma Remembering(core: Core, c: PlaceOrderCommand)
    requires CoreInv(core)
    ensures var v, r := Verdict(core, c), RuntimeSpec.CoreStep(core, Place(c));
            var before, after := core.idempotency, r.core.idempotency;
            && after.orderIds == (if v.None? then before.orderIds + {c.orderId} else before.orderIds)
            && after.clientOrders == (if v.None? then before.clientOrders[c.clientOrderId := c.orderId] else before.clientOrders)
            && after.commands == (if v == Some(DuplicateCommand) then before.commands
                                  else before.commands[c.commandId := CommandSummary(c.commandId, v.None?,
                                    if c.orderId == 0 then None else Some(c.orderId), v, core.sequences.nextSequence)])
  {
    hide CoreInv, Verdict, MatchOf, Insert, LevelLots, PlaceRejection, SaneQuantities, ValidatePlace, IsAccepted, ProcessPlace;
    AcceptableIff(core, c);
    Decided(core, c);
    if c.commandId in core.idempotency.commands || c.symbolId !in core.books {
      Unmet(core, c);
    } else {
      BookVerdict(core, c);
      VerdictNew(core, c);
      if Verdict(core, c).None? { AcceptedUnrejected(core, c); }
    }
  }

  lemma VerdictNew(core: Core, c: PlaceOrderCommand)
    requires c.commandId !in core.idempotency.commands
    ensures Verdict(core, c) != Some(DuplicateCommand)
  {
  }

  lemma {:induction false} MatchUnrejected(symbolId: nat, side: Side, q: Queue, taker: Taker, s: SequenceState, last: Option<int>)
    requires SaneQuantities(q) && taker.remaining <= taker.original
    ensures forall e <- Match(symbolId, side, q, taker, s, last).events :: !e.OrderRejected?
    decreases |q| + taker.remaining
  {
    hide LevelLots, SaneQuantities, ConsumeFront;
    if Matchable(side, q, taker) {
      MatchUnfolds(symbolId, side, q, taker, s, last);
      MatchUnrejected(symbolId, side, FrontQueue(q, taker), FrontTaker(q, taker), AfterFill(s), Some(q[0].price));
    } else {
      MatchStops(symbolId, side, q, taker, s, last);
    }
  }

  lemma {:induction false} NoRejection(events: seq<EngineEvent>)
    requires forall e <- events :: !e.OrderRejected?
    ensures RejectionIn(events) == None
  {
    if events != [] {
      assert events[0] in events;
      NoRejection(events[1..]);
    }
  }

  lemma AcceptedUnrejected(core: Core, c: PlaceOrderCommand)
    requires CoreInv(core) && Acceptable(core, c)
    ensures var book := core.books[c.symbolId];
            && SaneQuantities(book.bids) && SaneQuantities(book.asks)
            && RejectionIn(ProcessPlace(book, core.sequences, c).events) == None
  {
    hide CoreInv, Match, Insert, LevelLots, PlaceRejection, SaneQuantities, ValidatePlace, RejectionIn;
    BookSaneAt(core, c.symbolId);
    var book, opp := core.books[c.symbolId], c.side.Opposite();
    MatchUnrejected(book.config.symbolId, opp, book.SideQueue(opp), Taker(c.orderId, MatchLimit(c), c.quantity, c.quantity),
                    NextEvent(core.sequences), book.lastTradePrice);
    NoRejection(ProcessPlace(book, core.sequences, c).events);
  }

  // ---------- Trades ----------

  /** A trade with the k-th opposing order, at its price, for as much as it has or the orders ahead of it left wanted. */
  ghost predicate TradesWith(c: PlaceOrderCommand, q: Queue, k: nat, f: Fill)
    requires k < |q|
  {
    && Agrees(c, q[k].price)
    && f.makerOrderId == q[k].orderId && f.takerOrderId == c.orderId && f.price == q[k].price
    && f.quantity == Min(q[k].remaining, c.quantity - Lots(q[..k]))
  }

  /** The trades of an order with a queue: from its front, never beyond the limit, all that is wanted or all that agrees. */
  ghost predicate TradesThrough(c: PlaceOrderCommand, q: Queue, t: seq<Fill>) {
    && |t| <= |q|
    && (forall k :: 0 <= k < |t| ==> TradesWith(c, q, k, t[k]))
    && Traded(t) == Min(c.quantity, LotsFor(c, q))
  }

  lemma PriorityTrades(c: PlaceOrderCommand, q: Queue, t: seq<Fill>)
    requires FillsInPriority(c.side.Opposite(), q, Taker(c.orderId, MatchLimit(c), c.quantity, c.quantity), t)
    requires Traded(t) == Min(c.quantity, LotsFor(c, q))
    ensures TradesThrough(c, q, t)
  {
    hide Agrees, LotsFor, MatchLimit, Traded, Crosses, Lots;
    var taker := Taker(c.orderId, MatchLimit(c), c.quantity, c.quantity);
    forall k | 0 <= k < |t| ensures TradesWith(c, q, k, t[k]) {
      assert FillAt(c.side.Opposite(), q, taker, k, t[k]);
      AgreesCrosses(c, q[k].price);
    }
  }

  /**
    An accepted order trades with the opposing queue from its front, at each resting order's price, as much as that order has
    or is still wanted; never at a price beyond its limit; and in all what it wants, or everything within its limit.
   */
  lemma TradesAsked(core: Core, c: PlaceOrderCommand)
    requires CoreInv(core) && Verdict(core, c).None?
    ensures c.symbolId in core.books && TradesThrough(c, Opponents(core, c), Trades(RuntimeSpec.CoreStep(core, Place(c)).events))
  {
    hide CoreInv, Verdict, PlaceRejection, SaneQuantities, ValidatePlace, Match, Trades, Agrees, LotsFor, MatchLimit, Traded,
      FillsInPriority, TradesThrough, CrossingLots, ProcessPlace, Sorted;
    AcceptableIff(core, c);
    AcceptedIff(core, c);
    OpponentsSorted(core, c);
    var book, opp, q := core.books[c.symbolId], c.side.Opposite(), Opponents(core, c);
    var taker := Taker(c.orderId, MatchLimit(c), c.quantity, c.quantity);
    BookSaneAt(core, c.symbolId);
    PlaceTrades(book, core.sequences, c);
    PriceTimePriority(book.config.symbolId, opp, q, taker, NextEvent(core.sequences), book.lastTradePrice);
    MatchConserves(book.config.symbolId, opp, q, taker, NextEvent(core.sequences), book.lastTradePrice);
    CrossingIsAgreeing(c, q);
    PriorityTrades(c, q, Trades(MatchOf(book, core.sequences, c).events));
  }

  lemma PlaceTrades(book: Book, s: SequenceState, c: PlaceOrderCommand)
    requires SaneQuantities(book.bids) && SaneQuantities(book.asks) && PlaceRejection(book, c).None?
    ensures Trades(ProcessPlace(book, s, c).events) == Trades(MatchOf(book, s, c).events)
  {
    hide MatchOf, PlaceRejection, SaneQuantities, Insert, LevelLots, Trades;
    var events, m := ProcessPlace(book, s, c).events, MatchOf(book, s, c);
    var tail := events[1 + |m.events|..];
    assert events == [events[0]] + (m.events + tail);
    AcceptedTrades(events[0], m.events + tail);
    TradesAppend(m.events, tail);
    TailTrades(tail);
    assert Trades(m.events) + [] == Trades(m.events);
  }

  lemma TailTrades(tail: seq<EngineEvent>)
    requires |tail| <= 1 && forall e <- tail :: !e.TradeExecuted?
    ensures Trades(tail) == []
  {
    if tail != [] { assert tail[1..] == []; }
  }

  // ---------- Resting ----------

  /** Whether an accepted order rests: a limit order that is good till cancelled or post-only, with a shortfall. */
  predicate Stays(core: Core, c: PlaceOrderCommand)
    requires c.symbolId in core.books
  {
    && c.orderType == Limit && (c.timeInForce == GTC || c.timeInForce == PO)
    && LotsFor(c, Opponents(core, c)) < c.quantity
  }

  /** The order as it rests: the command's own fields, with the shortfall left open. */
  function Stayed(core: Core, c: PlaceOrderCommand): OrderSnapshot
    requires c.symbolId in core.books && Stays(core, c)
  {
    OrderSnapshot(c.orderId, c.clientOrderId, c.userId, c.symbolId, c.side, c.price, c.quantity,
                  c.quantity - LotsFor(c, Opponents(core, c)), core.sequences.nextSequence)
  }

  /** How an accepted order leaves its own side of the book. */
  ghost predicate Joined(core: Core, c: PlaceOrderCommand, after: Core)
    requires c.symbolId in core.books && c.symbolId in after.books
  {
    && (HasId(Peers(after, c) + Opponents(after, c), c.orderId) <==> Stays(core, c))
    && (Stays(core, c) ==> Stayed(core, c) in Peers(after, c))
    && RemoveId(Peers(after, c), c.orderId) == Peers(core, c)
  }

  lemma {:induction false} InsertedRemoved(side: Side, q: Queue, o: OrderSnapshot)
    requires !HasId(q, o.orderId)
    ensures RemoveId(Insert(side, q, o), o.orderId) == q && HasId(Insert(side, q, o), o.orderId)
  {
    var k := InsertAt(side, q, o);
    hide Insert;
    assert q == q[..k] + q[k..];
    RemoveIdAppend(q[..k] + [o], q[k..], o.orderId);
    RemoveIdAppend(q[..k], [o], o.orderId);
    NoId(q[..k], q[k..], o.orderId);
    RemoveAbsent(q[..k], o.orderId);
    RemoveAbsent(q[k..], o.orderId);
    JustRemoved(o);
    assert (q[..k] + [o] + q[k..])[k] == o;
  }

  lemma JustRemoved(o: OrderSnapshot)
    ensures RemoveId([o], o.orderId) == []
  {
    assert [o][1..] == [];
  }

  /** The book that an accepted order leaves. */
  lemma PlacedSides(core: Core, c: PlaceOrderCommand)
    requires CoreInv(core) && Acceptable(core, c)
    ensures var book, r := core.books[c.symbolId], RuntimeSpec.CoreStep(core, Place(c));
            && c.symbolId in r.core.books && SaneQuantities(book.bids) && SaneQuantities(book.asks)
            && var m := MatchOf(book, core.sequences, c);
               && Suffix(m.queue, Opponents(core, c)) && Opponents(r.core, c) == m.queue
               && m.taker.remaining == c.quantity - Taken(core, c)
               && Peers(r.core, c) == if CanRest(c) && m.taker.remaining > 0
                                      then Insert(c.side, Peers(core, c), RestingSnapshot(c, m.taker.remaining, core.sequences.nextSequence))
                                      else Peers(core, c)
  {
    hide CoreInv, PlaceRejection, SaneQuantities, ValidatePlace, MatchOf, Insert, LevelLots, Taken, Suffix, CanRest;
    AcceptedIff(core, c);
    BookSaneAt(core, c.symbolId);
    LeftOver(core, c);
    BookInvAt(core, c.symbolId);
    MatchKeeps(core.books[c.symbolId], core.sequences, c);
  }

  lemma BookInvAt(core: Core, id: nat)
    requires CoreInv(core) && id in core.books
    ensures BookInv(core.books[id])
  {
  }

  /**
    An accepted order rests if and only if it is a limit order, good till cancelled or post-only, and the lots within its limit
    fall short of its size; it then rests with the command's price, owner and ids and exactly the shortfall open.  Nobody else
    on its side is touched.
   */
  lemma RestsIff(core: Core, c: PlaceOrderCommand)
    requires CoreInv(core) && Verdict(core, c).None?
    ensures var r := RuntimeSpec.CoreStep(core, Place(c));
            c.symbolId in core.books && c.symbolId in r.core.books && Joined(core, c, r.core)
  {
    hide CoreInv, Verdict, PlaceRejection, ValidatePlace, SaneQuantities, MatchOf, Insert, HasId, HasClient, LotsFor, Taken, Suffix;
    AcceptableIff(core, c);
    PlacedSides(core, c);
    TakenAgrees(core, c);
    NeverResting(core, c);
    var after := RuntimeSpec.CoreStep(core, Place(c)).core;
    var left := Opponents(after, c);
    SuffixIds(left, Opponents(core, c), c.orderId);
    if Stays(core, c) {
      var o := Stayed(core, c);
      InsertedRemoved(c.side, Peers(core, c), o);
      InsertMember(c.side, Peers(core, c), o, o);
      IdInFront(Peers(after, c), left, c.orderId);
    } else {
      RemoveAbsent(Peers(core, c), c.orderId);
      NoIdBoth(Peers(core, c), left, c.orderId);
    }
  }

  lemma IdInFront(a: Queue, b: Queue, id: nat)
    requires HasId(a, id)
    ensures HasId(a + b, id)
  {
    var i :| 0 <= i < |a| && a[i].orderId == id;
    assert (a + b)[i] == a[i];
  }

  lemma NeverResting(core: Core, c: PlaceOrderCommand)
    requires CoreInv(core) && Acceptable(core, c)
    ensures !HasId(Peers(core, c), c.orderId) && !HasId(Opponents(core, c), c.orderId)
  {
    hide CoreInv, PlaceRejection, HasId, HasClient;
    NewIdsAbsent(core, c);
    var book := core.books[c.symbolId];
    NoId(book.bids, book.asks, c.orderId);
  }
}
