/**
  Who may take a resting order out of the book: its owner, by a cancel that names it, and otherwise only trades.
 */
module CancelLaws {
  import opened Types
  import opened BookSpec
  import opened Queues
  import opened MatchLaws
  import opened BookLaws
  import opened CoreSpec
  import opened CoreLaws
  import RuntimeSpec
  import opened StoreLaws
  import opened PlacementLaws
  import CoreRuns

  // ---------- What a cancel does ----------

  function Resting(book: Book): Queue {
    book.bids + book.asks
  }

  /** An order of the user's that the cancel names: by its id, or by its client id where the command carries no order id. */
  ghost predicate Named(all: Queue, c: CancelOrderCommand, o: OrderSnapshot) {
    && o in all && o.userId == c.userId
    && if c.orderId != 0 then o.orderId == c.orderId
       else if exists x <- all :: x.clientOrderId == c.clientOrderId then o.clientOrderId == c.clientOrderId
       else o.orderId == 0
  }

  /** A cancel by the order's own user that asks for it: by its id, or with no order id. */
  predicate Asks(c: CancelOrderCommand, o: OrderSnapshot) {
    c.userId == o.userId && (c.orderId == o.orderId || (c.orderId == 0 && (c.clientOrderId == o.clientOrderId || o.orderId == 0)))
  }

  /** The order is out, alone, and what it left open is announced as released. */
  ghost predicate TakenOut(core: Core, c: CancelOrderCommand, r: CoreResult, o: OrderSnapshot)
    requires c.symbolId in core.books
  {
    var book := core.books[c.symbolId];
    && r.core.books == core.books[c.symbolId :=
         book.(bids := if o.side == Buy then RemoveId(book.bids, o.orderId) else book.bids,
               asks := if o.side == Sell then RemoveId(book.asks, o.orderId) else book.asks)]
    && (forall x :: x in Resting(r.core.books[c.symbolId]) <==> x in Resting(book) && x != o)
    && |r.events| == 2
    && r.events[0] == OrderCancelled(core.sequences.nextEventId, core.sequences.nextSequence, o.orderId, o.remaining)
    && r.events[1].OrderBookDelta?
  }

  /** A cancel that was turned away: no book changes, and the answer gives the reason. */
  ghost predicate TurnedAway(core: Core, r: CoreResult, c: CancelOrderCommand, reason: RejectReason) {
    && r.core.books == core.books && |r.events| == 1 && r.events[0].OrderRejected?
    && r.events[0].commandId == c.commandId && r.events[0].userId == c.userId && r.events[0].reason == reason
  }

  ghost predicate MayCancel(core: Core, c: CancelOrderCommand) {
    && c.commandId !in core.idempotency.commands && c.symbolId in core.books
    && exists o :: Named(Resting(core.books[c.symbolId]), c, o)
  }

  /** No two resting orders share an id or a client id. */
  lemma RestingDistinct(book: Book)
    requires BookInv(book)
    ensures UniqueIds(Resting(book)) && UniqueClients(Resting(book))
  {
    hide SideInv, Uncrossed;
    var all, n := Resting(book), |book.bids|;
    forall i, j | 0 <= i < j < |all| ensures all[i].orderId != all[j].orderId && all[i].clientOrderId != all[j].clientOrderId {
      assert all[i] == if i < n then book.bids[i] else book.asks[i - n];
      assert all[j] == if j < n then book.bids[j] else book.asks[j - n];
    }
  }

  lemma TheOneWithId(q: Queue, o: OrderSnapshot, x: OrderSnapshot)
    requires UniqueIds(q) && o in q && x in q && x.orderId == o.orderId
    ensures x == o
  {
    var i :| 0 <= i < |q| && q[i] == o;
    var j :| 0 <= j < |q| && q[j] == x;
  }

  lemma TheOneWithClient(q: Queue, o: OrderSnapshot, x: OrderSnapshot)
    requires UniqueClients(q) && o in q && x in q && x.clientOrderId == o.clientOrderId
    ensures x == o
  {
    var i :| 0 <= i < |q| && q[i] == o;
    var j :| 0 <= j < |q| && q[j] == x;
  }

  lemma IdIn(q: Queue, o: OrderSnapshot)
    requires o in q
    ensures HasId(q, o.orderId) && HasClient(q, o.clientOrderId)
  {
    var i :| 0 <= i < |q| && q[i] == o;
  }

  /** The order that a cancel resolves to is the user's exactly if it is one that the cancel names. */
  lemma TargetNamed(book: Book, c: CancelOrderCommand)
    requires BookInv(book)
    ensures var all := Resting(book);
            var found := FindId(all, CancelTarget(book, c));
            && (found.Some? && found.value.userId == c.userId ==> Named(all, c, found.value))
            && (forall o :: Named(all, c, o) ==> found == Some(o))
  {
    hide FindId, FindClient, BookInv, UniqueIds, UniqueClients, HasId, HasClient;
    RestingDistinct(book);
    var all := Resting(book);
    var target := CancelTarget(book, c);
    var found, byClient := FindId(all, target), FindClient(all, c.clientOrderId);
    if c.orderId == 0 {
      if x :| x in all && x.clientOrderId == c.clientOrderId {
        IdIn(all, x);
        if found.Some? { TheOneWithId(all, byClient.value, found.value); }
      } else {
        assert byClient.None?;
      }
    }
    forall o | Named(all, c, o) ensures found == Some(o) {
      IdIn(all, o);
      if c.orderId == 0 && byClient.Some? { TheOneWithClient(all, o, byClient.value); }
      assert target == o.orderId;
      TheOneWithId(all, o, found.value);
    }
  }

  /**
    A cancel takes an order out if and only if the command is new, its market exists, and the user has a resting order that it
    names; that order alone goes, and what it left open is released.  Otherwise no book changes and the answer is that the
    command is a repeat, the market unknown or the order not found.
   */
  lemma CancelsIff(core: Core, c: CancelOrderCommand)
    requires CoreInv(core)
    ensures var r := RuntimeSpec.CoreStep(core, Cancel(c));
            && (IsCancelled(r.events) <==> MayCancel(core, c))
            && (MayCancel(core, c) ==> exists o :: Named(Resting(core.books[c.symbolId]), c, o) && TakenOut(core, c, r, o))
            && (!MayCancel(core, c) ==>
                  TurnedAway(core, r, c, if c.commandId in core.idempotency.commands then DuplicateCommand
                                         else if c.symbolId !in core.books then InvalidSymbol else OrderNotFound))
  {
    hide CoreInv, RemoveId, LevelLots, RejectionIn, Summary, CancelTarget, FindId, Named, BookInv;
    CoreSane(core);
    var r := RuntimeSpec.CoreStep(core, Cancel(c));
    if c.commandId !in core.idempotency.commands && c.symbolId in core.books {
      var book := core.books[c.symbolId];
      BookInvAt(core, c.symbolId);
      TargetNamed(book, c);
      var found := FindId(book.bids + book.asks, CancelTarget(book, c));
      if found.None? || found.value.userId != c.userId {
        assert core.books[c.symbolId := book] == core.books;
        forall o | Named(Resting(book), c, o) ensures false { NamedOwner(Resting(book), c, o); }
      } else {
        var o := found.value;
        assert Named(Resting(book), c, o);
        SideOf(book, o);
        OthersStay(book, o);
        assert r.events[0].OrderCancelled?;
        assert TakenOut(core, c, r, o);
      }
    }
  }

  /** What is remembered of a cancel: the command and its outcome, unless it is a repeat; never an order's ids. */
  lemma CancelRemembered(core: Core, c: CancelOrderCommand)
    requires CoreInv(core)
    ensures var before, after := core.idempotency, RuntimeSpec.CoreStep(core, Cancel(c)).core.idempotency;
            var done := MayCancel(core, c);
            && after.orderIds == before.orderIds && after.clientOrders == before.clientOrders
            && after.commands == if c.commandId in before.commands then before.commands
                                 else before.commands[c.commandId := CommandSummary(c.commandId, done,
                                   if c.orderId == 0 then None else Some(c.orderId),
                                   if done then None else Some(if c.symbolId !in core.books then InvalidSymbol else OrderNotFound),
                                   core.sequences.nextSequence)]
  {
    hide CoreInv, RemoveId, LevelLots, CancelTarget, FindId, Named, MayCancel;
    CoreSane(core);
    CancelsIff(core, c);
    var r := RuntimeSpec.CoreStep(core, Cancel(c));
    if c.commandId !in core.idempotency.commands && c.symbolId in core.books { CancelReason(core.books[c.symbolId], core.sequences, c); }
  }

  lemma CancelReason(book: Book, s: SequenceState, c: CancelOrderCommand)
    ensures var events := ProcessCancel(book, s, c).events;
            && RejectionIn(events) == (if IsCancelled(events) then None else Some(OrderNotFound))
            && FirstSequence(events) == s.nextSequence
  {
    hide RemoveId, LevelLots, CancelTarget, FindId;
    var events := ProcessCancel(book, s, c).events;
    if |events| == 2 {
      assert events[0].OrderCancelled?;
      assert events[1..] == [events[1]] && [events[1]][1..] == [];
      assert RejectionIn([events[1]]) == RejectionIn([]);
    }
  }

  lemma SideOf(book: Book, o: OrderSnapshot)
    requires BookInv(book) && o in Resting(book)
    ensures o in book.SideQueue(o.side) && (o.side == Buy <==> o in book.bids) && (o.side == Sell <==> o in book.asks)
  {
    hide Sorted, SaneQuantities, ValidSymbolPrice, Uncrossed, Distinct;
  }

  lemma OthersStay(book: Book, o: OrderSnapshot)
    requires BookInv(book) && o in Resting(book)
    ensures forall x :: x in Resting(book.WithSide(o.side, RemoveId(book.SideQueue(o.side), o.orderId))) <==> x in Resting(book) && x != o
  {
    hide RemoveId, BookInv, UniqueIds, UniqueClients;
    SideOf(book, o);
    RestingDistinct(book);
    var after := book.WithSide(o.side, RemoveId(book.SideQueue(o.side), o.orderId));
    forall x ensures x in Resting(after) <==> x in Resting(book) && x != o {
      RemoveMember(book.SideQueue(o.side), o.orderId, x);
      if x in Resting(book) && x.orderId == o.orderId { TheOneWithId(Resting(book), o, x); }
      if x in Resting(book) { SideOf(book, x); }
    }
  }

  // ---------- The lots of one order ----------

  /** The open lots of an id in a queue. */
  function OpenOf(q: Queue, id: nat): nat {
    if q == [] then 0 else (if q[0].orderId == id then q[0].remaining else 0) + OpenOf(q[1..], id)
  }

  ghost function OpenIn(core: Core, market: nat, id: nat): nat
    requires market in core.books
  {
    OpenOf(Resting(core.books[market]), id)
  }

  /** The lots that trades of a market took from a resting order. */
  function MakerFilled(events: seq<EngineEvent>, market: nat, id: nat): nat {
    if events == [] then 0
    else (if events[0].TradeExecuted? && events[0].symbolId == market && events[0].makerOrderId == id then events[0].quantity else 0)
         + MakerFilled(events[1..], market, id)
  }

  lemma {:induction false} MakerAppend(a: seq<EngineEvent>, b: seq<EngineEvent>, market: nat, id: nat)
    ensures MakerFilled(a + b, market, id) == MakerFilled(a, market, id) + MakerFilled(b, market, id)
  {
    if a == [] {
      assert a + b == b;
    } else {
      assert (a + b)[1..] == a[1..] + b;
      MakerAppend(a[1..], b, market, id);
    }
  }

  lemma {:induction false} NoMaker(events: seq<EngineEvent>, market: nat, id: nat)
    requires forall e <- events :: e.TradeExecuted? ==> e.symbolId != market
    ensures MakerFilled(events, market, id) == 0
  {
    if events != [] {
      assert events[0] in events;
      NoMaker(events[1..], market, id);
    }
  }

  lemma {:induction false} OpenAppend(a: Queue, b: Queue, id: nat)
    ensures OpenOf(a + b, id) == OpenOf(a, id) + OpenOf(b, id)
  {
    if a == [] {
      assert a + b == b;
    } else {
      assert (a + b)[1..] == a[1..] + b;
      OpenAppend(a[1..], b, id);
    }
  }

  lemma {:induction false} NoneOpen(q: Queue, id: nat)
    requires !HasId(q, id)
    ensures OpenOf(q, id) == 0
  {
    if q != [] {
      assert q[0].orderId != id;
      assert forall i :: 0 <= i < |q[1..]| ==> q[1..][i] == q[i + 1];
      NoneOpen(q[1..], id);
    }
  }

  /** With ids unique, they are the order's remaining lots. */
  lemma {:induction false} OpenIs(q: Queue, o: OrderSnapshot)
    requires UniqueIds(q) && o in q
    ensures OpenOf(q, o.orderId) == o.remaining
  {
    if q[0] == o {
      assert !HasId(q[1..], o.orderId) by { assert forall i :: 0 <= i < |q[1..]| ==> q[1..][i] == q[i + 1]; }
      NoneOpen(q[1..], o.orderId);
    } else {
      var k :| 0 <= k < |q| && q[k] == o;
      assert q[0].orderId != o.orderId && q[1..][k - 1] == o;
      assert forall i :: 0 <= i < |q[1..]| ==> q[1..][i] == q[i + 1];
      OpenIs(q[1..], o);
    }
  }

  lemma {:induction false} OpenInserted(side: Side, q: Queue, o: OrderSnapshot, id: nat)
    requires o.orderId != id
    ensures OpenOf(Insert(side, q, o), id) == OpenOf(q, id)
  {
    if q == [] {
      assert [o][1..] == [];
    } else if Better(side, o.price, q[0].price) {
      assert ([o] + q)[1..] == q;
    } else {
      OpenInserted(side, q[1..], o, id);
    }
  }

  lemma FillTakes(symbolId: nat, maker: OrderSnapshot, taker: Taker, fill: nat, total: nat, s: SequenceState, id: nat)
    requires fill <= maker.remaining <= maker.original && fill <= taker.remaining <= taker.original
    ensures MakerFilled(FillEvents(symbolId, maker, taker, fill, total, s), symbolId, id) == if maker.orderId == id then fill else 0
  {
    var e := FillEvents(symbolId, maker, taker, fill, total, s);
    assert e == [e[0]] + e[1..];
    MakerAppend([e[0]], e[1..], symbolId, id);
    assert [e[0]][1..] == [];
    NoTradeNoMaker(e[1..], symbolId, id);
  }

  lemma {:induction false} NoTradeNoMaker(events: seq<EngineEvent>, market: nat, id: nat)
    requires forall e <- events :: !e.TradeExecuted?
    ensures MakerFilled(events, market, id) == 0
  {
    NoMaker(events, market, id);
  }

  lemma FrontOpen(q: Queue, fill: nat, id: nat)
    requires q != [] && fill <= q[0].remaining
    ensures OpenOf(ConsumeFront(q, fill), id) + (if q[0].orderId == id then fill else 0) == OpenOf(q, id)
  {
    if fill < q[0].remaining { assert ConsumeFront(q, fill)[1..] == q[1..]; }
  }

  /** A match takes from each order exactly what the trades with it say. */
  lemma {:induction false} MatchTakes(symbolId: nat, side: Side, q: Queue, taker: Taker, s: SequenceState, last: Option<int>, id: nat)
    requires SaneQuantities(q) && taker.remaining <= taker.original
    ensures var m := Match(symbolId, side, q, taker, s, last);
            OpenOf(m.queue, id) + MakerFilled(m.events, symbolId, id) == OpenOf(q, id)
    decreases |q| + taker.remaining
  {
    hide LevelLots, SaneQuantities, ConsumeFront, FillEvents, OpenOf, MakerFilled;
    if Matchable(side, q, taker) {
      var fill := FrontFill(q, taker);
      MatchUnfolds(symbolId, side, q, taker, s, last);
      MatchTakes(symbolId, side, FrontQueue(q, taker), FrontTaker(q, taker), AfterFill(s), Some(q[0].price), id);
      FillTakes(symbolId, q[0], taker, fill, LevelLots(q, q[0].price) - fill, s, id);
      FrontOpen(q, fill, id);
      MakerAppend(FillEvents(symbolId, q[0], taker, fill, LevelLots(q, q[0].price) - fill, s),
                  Match(symbolId, side, FrontQueue(q, taker), FrontTaker(q, taker), AfterFill(s), Some(q[0].price)).events, symbolId, id);
    } else {
      MatchStops(symbolId, side, q, taker, s, last);
      NoTradeNoMaker([], symbolId, id);
    }
  }

  // ---------- One command ----------

  lemma PlaceMakers(book: Book, s: SequenceState, c: PlaceOrderCommand, market: nat, id: nat)
    requires SaneQuantities(book.bids) && SaneQuantities(book.asks) && PlaceRejection(book, c).None?
    ensures MakerFilled(ProcessPlace(book, s, c).events, market, id) == MakerFilled(MatchOf(book, s, c).events, market, id)
  {
    hide MatchOf, PlaceRejection, SaneQuantities, Insert, LevelLots, MakerFilled;
    var events, m := ProcessPlace(book, s, c).events, MatchOf(book, s, c);
    var tail := events[1 + |m.events|..];
    assert events == [events[0]] + (m.events + tail);
    MakerAppend([events[0]], m.events + tail, market, id);
    MakerAppend(m.events, tail, market, id);
    NoTradeNoMaker([events[0]], market, id);
    NoTradeNoMaker(tail, market, id);
  }

  lemma {:induction false} MatchMarket(symbolId: nat, side: Side, q: Queue, taker: Taker, s: SequenceState, last: Option<int>)
    requires SaneQuantities(q) && taker.remaining <= taker.original
    ensures forall e <- Match(symbolId, side, q, taker, s, last).events :: e.TradeExecuted? ==> e.symbolId == symbolId
    decreases |q| + taker.remaining
  {
    hide LevelLots, SaneQuantities, ConsumeFront;
    if Matchable(side, q, taker) {
      MatchUnfolds(symbolId, side, q, taker, s, last);
      MatchMarket(symbolId, side, FrontQueue(q, taker), FrontTaker(q, taker), AfterFill(s), Some(q[0].price));
    } else {
      MatchStops(symbolId, side, q, taker, s, last);
    }
  }

  /** The open lots of an order on the two sides of a book. */
  lemma SidesOpen(book: Book, c: PlaceOrderCommand, id: nat)
    ensures OpenOf(Resting(book), id) == OpenOf(book.SideQueue(c.side), id) + OpenOf(book.SideQueue(c.side.Opposite()), id)
  {
    OpenAppend(book.bids, book.asks, id);
  }

  /** An accepted order takes from each resting order what its trades say, and changes nothing else about it. */
  lemma PlaceTakes(core: Core, c: PlaceOrderCommand, id: nat)
    requires CoreInv(core) && Acceptable(core, c) && id != c.orderId
    ensures var r := RuntimeSpec.CoreStep(core, Place(c));
            && c.symbolId in r.core.books
            && OpenIn(r.core, c.symbolId, id) + MakerFilled(r.events, c.symbolId, id) == OpenIn(core, c.symbolId, id)
            && (forall market :: market != c.symbolId ==> MakerFilled(r.events, market, id) == 0)
            && (forall x :: x in Resting(r.core.books[c.symbolId]) && x.orderId == id ==>
                  exists o :: o in Resting(core.books[c.symbolId]) && x == o.(remaining := x.remaining))
  {
    hide CoreInv, SaneQuantities, PlaceRejection, ValidatePlace, Match, OpenOf, MakerFilled, Insert, Suffix, Taken;
    AcceptedIff(core, c);
    PlacedSides(core, c);
    var book, s, opp := core.books[c.symbolId], core.sequences, c.side.Opposite();
    var r, m := RuntimeSpec.CoreStep(core, Place(c)), MatchOf(book, s, c);
    ConfigOf(core, c.symbolId);
    var taker := Taker(c.orderId, MatchLimit(c), c.quantity, c.quantity);
    MatchTakes(c.symbolId, opp, Opponents(core, c), taker, NextEvent(s), book.lastTradePrice, id);
    MatchMarket(c.symbolId, opp, Opponents(core, c), taker, NextEvent(s), book.lastTradePrice);
    PlaceMakers(book, s, c, c.symbolId, id);
    SidesOpen(book, c, id);
    SidesOpen(r.core.books[c.symbolId], c, id);
    var o := RestingSnapshot(c, m.taker.remaining, s.nextSequence);
    OpenInserted(c.side, Peers(core, c), o, id);
    forall market | market != c.symbolId ensures MakerFilled(r.events, market, id) == 0 {
      PlaceMakers(book, s, c, market, id);
      NoMaker(m.events, market, id);
    }
    forall x | x in Resting(r.core.books[c.symbolId]) && x.orderId == id
      ensures exists o :: o in Resting(book) && x == o.(remaining := x.remaining)
    {
      InsertMember(c.side, Peers(core, c), o, x);
      LeftFrom(m.queue, Opponents(core, c), x);
      if x in Peers(core, c) { assert x == x.(remaining := x.remaining) && x in Resting(book); }
    }
  }

  lemma LeftFrom(left: Queue, q: Queue, x: OrderSnapshot)
    requires Suffix(left, q)
    ensures x in left ==> exists o :: o in q && x == o.(remaining := x.remaining)
  {
    hide Suffix;
    SuffixAt(left, q);
    if x in left {
      var i :| 0 <= i < |left| && left[i] == x;
      assert q[i + |q| - |left|] in q;
    }
  }

  ghost predicate ReleasedBy(commands: seq<EngineCommand>, events: seq<EngineEvent>, market: nat, o: OrderSnapshot, lots: nat) {
    && (exists c :: Cancel(c) in commands && c.symbolId == market && Asks(c, o))
    && (exists e <- events :: e.OrderCancelled? && e.orderId == o.orderId && e.releasedQuantity == lots)
  }

  /** It rests with what trades left of it, or trades took all of it, or its owner took out what they had left. */
  ghost predicate Accounted(core: Core, commands: seq<EngineCommand>, r: CoreResult, market: nat, o: OrderSnapshot)
    requires market in r.core.books
  {
    var left, filled := OpenIn(r.core, market, o.orderId), MakerFilled(r.events, market, o.orderId);
    && filled + left <= o.remaining
    && (left > 0 ==> o.(remaining := left) in Resting(r.core.books[market]) && filled + left == o.remaining)
    && (left == 0 ==> !HasId(Resting(r.core.books[market]), o.orderId))
    && (left == 0 && filled < o.remaining ==> ReleasedBy(commands, r.events, market, o, o.remaining - filled))
  }

  lemma RestingFacts(core: Core, market: nat)
    requires CoreInv(core) && market in core.books
    ensures var all := Resting(core.books[market]);
            UniqueIds(all) && (forall o <- all :: o.remaining > 0 && o.orderId in core.idempotency.orderIds)
  {
    hide Sorted, Distinct, ValidSymbolPrice, Uncrossed, UniqueIds;
    BookInvAt(core, market);
    RestingDistinct(core.books[market]);
    assert BookOk(core.books[market], market, core.idempotency);
  }

  /** An id has open lots exactly if an order with it rests, and they are that order's. */
  lemma OpenMeans(core: Core, market: nat, id: nat)
    requires CoreInv(core) && market in core.books
    ensures var all := Resting(core.books[market]);
            && (OpenIn(core, market, id) == 0 <==> !HasId(all, id))
            && (forall o <- all :: o.orderId == id ==> OpenIn(core, market, id) == o.remaining)
            && (HasId(all, id) ==> exists o :: o in all && o.orderId == id)
  {
    hide CoreInv, OpenOf, UniqueIds;
    RestingFacts(core, market);
    var all := Resting(core.books[market]);
    forall o | o in all && o.orderId == id ensures OpenOf(all, id) == o.remaining { OpenIs(all, o); }
    if HasId(all, id) {
      var i :| 0 <= i < |all| && all[i].orderId == id;
      assert all[i] in all;
    } else {
      NoneOpen(all, id);
    }
  }

  /** Across a command: a known id keeps its lots, but for what trades and a cancel by its owner take. */
  ghost predicate Drawn(core: Core, command: EngineCommand, r: CoreResult, market: nat, id: nat)
    requires market in core.books && market in r.core.books
  {
    var before, after, filled := OpenIn(core, market, id), OpenIn(r.core, market, id), MakerFilled(r.events, market, id);
    && after + filled <= before
    && (forall x <- Resting(r.core.books[market]) :: x.orderId == id ==>
          exists o :: o in Resting(core.books[market]) && x == o.(remaining := x.remaining))
    && (after + filled < before ==>
          && after == 0 && filled == 0 && command.Cancel? && command.cancel.symbolId == market
          && (forall o <- Resting(core.books[market]) :: o.orderId == id ==> Asks(command.cancel, o))
          && (exists e <- r.events :: e.OrderCancelled? && e.orderId == id && e.releasedQuantity == before))
  }

  lemma QuietDraws(core: Core, command: EngineCommand, r: CoreResult, market: nat, id: nat)
    requires market in core.books && market in r.core.books && r.core.books[market] == core.books[market]
    requires MakerFilled(r.events, market, id) == 0
    ensures Drawn(core, command, r, market, id)
  {
    hide OpenOf;
    forall x | x in Resting(core.books[market]) ensures exists o :: o in Resting(core.books[market]) && x == o.(remaining := x.remaining) {
      assert x == x.(remaining := x.remaining);
    }
  }

  lemma PlaceDraws(core: Core, c: PlaceOrderCommand, market: nat, id: nat)
    requires CoreInv(core) && market in core.books && id in core.idempotency.orderIds
    ensures var r := RuntimeSpec.CoreStep(core, Place(c)); market in r.core.books && Drawn(core, Place(c), r, market, id)
  {
    hide CoreInv, CoreSpec.Process, OpenOf, MakerFilled, PlaceRejection, SaneQuantities, ProcessPlace, ValidatePlace, Drawn;
    PlaceCases(core, c);
    AcceptedIff(core, c);
    var r := RuntimeSpec.CoreStep(core, Place(c));
    if Acceptable(core, c) {
      PlaceTakes(core, c, id);
      if market == c.symbolId { PlaceDrawn(core, c, id); } else { QuietDraws(core, Place(c), r, market, id); }
    } else {
      NoTradeNoMaker(r.events, market, id);
      QuietDraws(core, Place(c), r, market, id);
    }
  }

  lemma PlaceDrawn(core: Core, c: PlaceOrderCommand, id: nat)
    requires CoreInv(core) && Acceptable(core, c) && id != c.orderId
    ensures var r := RuntimeSpec.CoreStep(core, Place(c)); c.symbolId in r.core.books && Drawn(core, Place(c), r, c.symbolId, id)
  {
    hide CoreInv, CoreSpec.Process, OpenOf, MakerFilled, Acceptable;
    PlaceTakes(core, c, id);
  }

  lemma CancelDraws(core: Core, c: CancelOrderCommand, market: nat, id: nat)
    requires CoreInv(core) && market in core.books
    ensures var r := RuntimeSpec.CoreStep(core, Cancel(c)); market in r.core.books && Drawn(core, Cancel(c), r, market, id)
  {
    hide CoreInv, CoreSpec.Process, OpenOf, MakerFilled, HasId, Named, RemoveId;
    CancelsIff(core, c);
    var r := RuntimeSpec.CoreStep(core, Cancel(c));
    NoTradeNoMaker(r.events, market, id);
    if MayCancel(core, c) && market == c.symbolId {
      var o :| Named(Resting(core.books[market]), c, o) && TakenOut(core, c, r, o);
      NamedOwner(Resting(core.books[market]), c, o);
      OutDraws(core, c, r, o, id);
    } else {
      QuietDraws(core, Cancel(c), r, market, id);
    }
  }

  lemma NamedOwner(all: Queue, c: CancelOrderCommand, o: OrderSnapshot)
    requires Named(all, c, o)
    ensures o in all && Asks(c, o)
  {
  }

  lemma OutDraws(core: Core, c: CancelOrderCommand, r: CoreResult, o: OrderSnapshot, id: nat)
    requires CoreInv(core) && CoreInv(r.core) && c.symbolId in core.books && TakenOut(core, c, r, o)
    requires o in Resting(core.books[c.symbolId]) && Asks(c, o) && MakerFilled(r.events, c.symbolId, id) == 0
    ensures Drawn(core, Cancel(c), r, c.symbolId, id)
  {
    hide CoreInv, CoreSpec.Process, OpenOf, MakerFilled, HasId, RemoveId, UniqueIds;
    var all, left := Resting(core.books[c.symbolId]), Resting(r.core.books[c.symbolId]);
    OpenMeans(core, c.symbolId, id);
    OpenMeans(r.core, c.symbolId, id);
    RestingFacts(core, c.symbolId);
    forall x | x in left && x.orderId == id ensures exists o :: o in all && x == o.(remaining := x.remaining) {
      assert x in all && x == x.(remaining := x.remaining);
    }
    if id == o.orderId {
      forall x | x in all && x.orderId == id ensures x == o { TheOneWithId(all, o, x); }
      GoneFrom(left, id);
      assert r.events[0] in r.events;
    } else {
      SameOpen(core, r.core, c.symbolId, id, o);
    }
  }

  lemma GoneFrom(q: Queue, id: nat)
    requires forall x <- q :: x.orderId != id
    ensures !HasId(q, id)
  {
  }

  lemma SameOpen(core: Core, after: Core, market: nat, id: nat, o: OrderSnapshot)
    requires CoreInv(core) && CoreInv(after) && market in core.books && market in after.books && o.orderId != id
    requires forall x :: x in Resting(after.books[market]) <==> x in Resting(core.books[market]) && x != o
    ensures OpenIn(after, market, id) == OpenIn(core, market, id)
  {
    hide CoreInv, OpenOf, HasId;
    OpenMeans(core, market, id);
    OpenMeans(after, market, id);
    if x :| x in Resting(core.books[market]) && x.orderId == id {
      assert x in Resting(after.books[market]);
    } else {
      GoneFrom(Resting(after.books[market]), id);
      GoneFrom(Resting(core.books[market]), id);
    }
  }

  lemma StepDraws(core: Core, command: EngineCommand, market: nat, id: nat)
    requires CoreInv(core) && market in core.books && id in core.idempotency.orderIds
    ensures var r := RuntimeSpec.CoreStep(core, command);
            market in r.core.books && Drawn(core, command, r, market, id) && id in r.core.idempotency.orderIds
  {
    hide CoreInv, OpenOf, MakerFilled, ProcessPlace, ProcessCancel, ValidatePlace, Drawn, SaneQuantities;
    CoreSane(core);
    match command
    case Place(c) => PlaceDraws(core, c, market, id);
    case Cancel(c) => CancelDraws(core, c, market, id);
    case Malformed =>
      var r := RuntimeSpec.CoreStep(core, command);
      NoTradeNoMaker(r.events, market, id);
      QuietDraws(core, command, r, market, id);
  }

  // ---------- Whole runs ----------

  /** A known id that does not rest never trades as a maker and never rests again. */
  lemma {:induction false} GoneForGood(core: Core, commands: seq<EngineCommand>, market: nat, id: nat)
    requires CoreInv(core) && market in core.books && id in core.idempotency.orderIds && OpenIn(core, market, id) == 0
    ensures var r := CoreRuns.Run(core, commands);
            market in r.core.books && OpenIn(r.core, market, id) == 0 && MakerFilled(r.events, market, id) == 0
    decreases |commands|
  {
    hide CoreInv, CoreSpec.Process, OpenIn, MakerFilled;
    if commands != [] {
      StepDraws(core, commands[0], market, id);
      var first := RuntimeSpec.CoreStep(core, commands[0]);
      GoneForGood(first.core, commands[1..], market, id);
      MakerAppend(first.events, CoreRuns.Run(first.core, commands[1..]).events, market, id);
    } else {
      NoTradeNoMaker([], market, id);
    }
  }

  /**
    Over any run: of a resting order, what trades took, what is still open, and what its own user's cancel released are all
    there ever was.  It keeps its price, owner, ids and arrival; and it is gone only if trades took all of it or its own user
    cancelled it.
   */
  lemma {:induction false} OnlyOwnerCancels(core: Core, commands: seq<EngineCommand>, market: nat, o: OrderSnapshot)
    requires CoreInv(core) && market in core.books && o in Resting(core.books[market])
    ensures var r := CoreRuns.Run(core, commands);
            market in r.core.books && Accounted(core, commands, r, market, o)
    decreases |commands|
  {
    hide CoreInv, CoreSpec.Process, OpenIn, MakerFilled, UniqueIds, HasId;
    RestingFacts(core, market);
    OpenMeans(core, market, o.orderId);
    var id := o.orderId;
    if commands == [] {
      NoTradeNoMaker([], market, id);
      IdIn(Resting(core.books[market]), o);
      assert o == o.(remaining := o.remaining);
    } else {
      StepDraws(core, commands[0], market, id);
      var first := RuntimeSpec.CoreStep(core, commands[0]);
      var rest := CoreRuns.Run(first.core, commands[1..]);
      MakerAppend(first.events, rest.events, market, id);
      OpenMeans(first.core, market, id);
      if OpenIn(first.core, market, id) == 0 {
        GoneForGood(first.core, commands[1..], market, id);
        OpenMeans(rest.core, market, id);
        GoneAtOnce(core, commands, first, rest, market, o);
      } else {
        var x :| x in Resting(first.core.books[market]) && x.orderId == id;
        StillHere(core, first, market, o, x, commands[0]);
        OnlyOwnerCancels(first.core, commands[1..], market, x);
        LaterAccounted(core, commands, first, rest, market, o, x);
      }
    }
  }

  lemma StillHere(core: Core, first: CoreResult, market: nat, o: OrderSnapshot, x: OrderSnapshot, command: EngineCommand)
    requires CoreInv(core) && CoreInv(first.core) && market in core.books && market in first.core.books
    requires o in Resting(core.books[market]) && x in Resting(first.core.books[market]) && x.orderId == o.orderId
    requires Drawn(core, command, first, market, o.orderId)
    ensures x == o.(remaining := x.remaining)
    ensures MakerFilled(first.events, market, o.orderId) + x.remaining == o.remaining
  {
    hide CoreInv, OpenIn, MakerFilled, UniqueIds, HasId;
    RestingFacts(core, market);
    RestingFacts(first.core, market);
    OpenMeans(core, market, o.orderId);
    OpenMeans(first.core, market, o.orderId);
    var y :| y in Resting(core.books[market]) && x == y.(remaining := x.remaining);
    TheOneWithId(Resting(core.books[market]), o, y);
  }

  lemma GoneAtOnce(core: Core, commands: seq<EngineCommand>, first: CoreResult, rest: CoreResult, market: nat, o: OrderSnapshot)
    requires market in core.books && market in first.core.books && market in rest.core.books && commands != []
    requires o in Resting(core.books[market]) && OpenIn(core, market, o.orderId) == o.remaining
    requires Drawn(core, commands[0], first, market, o.orderId) && OpenIn(first.core, market, o.orderId) == 0
    requires OpenIn(rest.core, market, o.orderId) == 0 && MakerFilled(rest.events, market, o.orderId) == 0
    requires !HasId(Resting(rest.core.books[market]), o.orderId)
    ensures Accounted(core, commands, CoreResult(rest.core, first.events + rest.events), market, o)
  {
    hide OpenIn, MakerFilled, HasId;
    MakerAppend(first.events, rest.events, market, o.orderId);
    if MakerFilled(first.events, market, o.orderId) < o.remaining {
      var e :| e in first.events && e.OrderCancelled? && e.orderId == o.orderId && e.releasedQuantity == o.remaining;
      assert e in first.events + rest.events;
      assert commands[0] in commands && Cancel(commands[0].cancel) in commands;
    }
  }

  lemma LaterAccounted(core: Core, commands: seq<EngineCommand>, first: CoreResult, rest: CoreResult, market: nat, o: OrderSnapshot,
                       x: OrderSnapshot)
    requires market in first.core.books && market in rest.core.books && commands != []
    requires x == o.(remaining := x.remaining) && MakerFilled(first.events, market, o.orderId) + x.remaining == o.remaining
    requires Accounted(first.core, commands[1..], rest, market, x)
    ensures Accounted(core, commands, CoreResult(rest.core, first.events + rest.events), market, o)
  {
    hide OpenIn, MakerFilled, HasId;
    MakerAppend(first.events, rest.events, market, o.orderId);
    var left := OpenIn(rest.core, market, o.orderId);
    assert x.(remaining := left) == o.(remaining := left);
    var filled := MakerFilled(rest.events, market, o.orderId);
    if left == 0 && filled < x.remaining {
      var e :| e in rest.events && e.OrderCancelled? && e.orderId == x.orderId && e.releasedQuantity == x.remaining - filled;
      assert e in first.events + rest.events;
      var c :| Cancel(c) in commands[1..] && c.symbolId == market && Asks(c, x);
      assert Cancel(c) in commands;
    }
  }
}
