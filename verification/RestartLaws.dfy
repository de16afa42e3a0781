/**
  A runtime restored from its checkpoint.  The checkpoint keeps the metadata of active orders only, and the restored core
  has its queues in id order and no last trade prices; where the queues were in id order, nobody can tell.
 */
module RestartLaws {
  import opened Types
  import opened BookSpec
  import opened Queues
  import opened MatchLaws
  import opened BookLaws
  import opened CoreSpec
  import opened CoreLaws
  import opened CoreRuns
  import opened RestoreLaws
  import opened Accounting
  import opened LedgerSpec
  import opened LedgerLaws
  import opened RuntimeSpec
  import opened StoreLaws
  import opened RuntimeLaws
  import opened RuntimeRuns

  // ---------- Alike ----------

  /** An order with this id rests in some book. */
  ghost predicate Rests(books: map<nat, Book>, id: nat) {
    exists m :: m in books && (HasId(books[m].bids, id) || HasId(books[m].asks, id))
  }

  ghost predicate Agree(a: map<nat, Metadata>, b: map<nat, Metadata>, id: nat) {
    (id in a <==> id in b) && (id in a ==> a[id] == b[id])
  }

  /** Two states that differ at most in last trade prices and in the metadata of orders that do not rest. */
  ghost predicate Alike(a: State, b: State) {
    && a == b.(core := a.core, metadata := a.metadata)
    && Forgetful(a.core) == Forgetful(b.core)
    && forall id :: Rests(a.core.books, id) ==> Agree(a.metadata, b.metadata, id)
  }

  /** The state that a checkpoint carries over. */
  ghost function Checkpointed(st: State): State {
    st.(core := Restore(Snapshot(st.core)), metadata := map id | id in st.metadata && Rests(st.core.books, id) :: st.metadata[id])
  }

  // ---------- Booking alike ledgers ----------

  /** Ledgers that differ at most in metadata nobody refers to. */
  ghost predicate Same(a: Ledger, b: Ledger, known: set<nat>) {
    a == b.(metadata := a.metadata) && forall id <- known :: Agree(a.metadata, b.metadata, id)
  }

  ghost predicate Known(l: Ledger, known: set<nat>, id: nat) {
    id in known || (l.pending.Some? && l.pending.value.orderId == id)
  }

  lemma SideSame(a: Ledger, b: Ledger, known: set<nat>, id: nat, fill: nat, price: int, marks: Marks)
    requires Same(a, b, known) && Known(a, known, id)
    ensures var x, y := BookSide(a, id, fill, price, marks), BookSide(b, id, fill, price, marks);
            Same(x.ledger, y.ledger, known) && x.outputs == y.outputs && SamePending(a, x.ledger)
  {
    hide ApplyFill, RiskOf, RealizedPnl, FallbackMargin, TruncDiv;
  }

  ghost predicate SamePending(a: Ledger, b: Ledger) {
    a.pending.Some? == b.pending.Some? && (a.pending.Some? ==> a.pending.value.orderId == b.pending.value.orderId)
  }

  lemma TradeSame(a: Ledger, b: Ledger, known: set<nat>, maker: nat, taker: nat, fill: nat, price: int, marks: Marks,
                  kind: CommandKind)
    requires Same(a, b, known) && Known(a, known, maker) && Known(a, known, taker)
    ensures var x, y := BookTrade(a, maker, taker, fill, price, marks, kind), BookTrade(b, maker, taker, fill, price, marks, kind);
            Same(x.ledger, y.ledger, known) && x.outputs == y.outputs && SamePending(a, x.ledger)
  {
    hide BookSide, PreviewMargin;
    SideSame(a, b, known, maker, fill, price, marks);
    var a1, b1 := BookSide(a, maker, fill, price, marks).ledger, BookSide(b, maker, fill, price, marks).ledger;
    SideSame(a1, b1, known, taker, fill, price, marks);
  }

  /** The orders that an event refers to are known. */
  ghost predicate Refers(l: Ledger, known: set<nat>, e: EngineEvent, kind: CommandKind) {
    && (e.TradeExecuted? ==> Known(l, known, e.makerOrderId) && Known(l, known, e.takerOrderId))
    && (e.OrderCancelled? ==> Known(l, known, e.orderId))
    && (e.OrderRejected? && kind == PlaceKind && e.rejectedOrderId.Some? ==> Known(l, known, e.rejectedOrderId.value))
  }

  lemma EventSame(a: Ledger, b: Ledger, known: set<nat>, e: EngineEvent, marks: Marks, kind: CommandKind)
    requires Same(a, b, known) && Refers(a, known, e, kind)
    ensures var x, y := BookEvent(a, e, marks, kind), BookEvent(b, e, marks, kind);
            Same(x.ledger, y.ledger, known) && x.outputs == y.outputs && SamePending(a, x.ledger)
  {
    hide BookTrade;
    if e.TradeExecuted? {
      TradeSame(a, b, known, e.makerOrderId, e.takerOrderId, e.quantity, e.price, marks, kind);
    }
  }

  lemma {:induction false} BookSame(a: Ledger, b: Ledger, known: set<nat>, events: seq<EngineEvent>, marks: Marks,
                                    kind: CommandKind)
    requires Same(a, b, known) && forall e <- events :: Refers(a, known, e, kind)
    ensures var x, y := BookAll(a, events, marks, kind), BookAll(b, events, marks, kind);
            Same(x.ledger, y.ledger, known) && x.outputs == y.outputs && SamePending(a, x.ledger)
    decreases |events|
  {
    hide BookEvent, Same;
    if events != [] {
      assert events[0] in events;
      EventSame(a, b, known, events[0], marks, kind);
      var x, y := BookEvent(a, events[0], marks, kind).ledger, BookEvent(b, events[0], marks, kind).ledger;
      forall e <- events[1..] ensures Refers(x, known, e, kind) { assert Refers(a, known, e, kind); }
      BookSame(x, y, known, events[1..], marks, kind);
    }
  }

  // ---------- What the core's events refer to ----------

  /** An event of a match names a maker of the queue and the taker. */
  ghost predicate Between(e: EngineEvent, q: Queue, takerId: nat) {
    (e.TradeExecuted? ==> HasId(q, e.makerOrderId) && e.takerOrderId == takerId) && !e.OrderCancelled? && !e.OrderRejected?
  }

  lemma FillBetween(symbolId: nat, q: Queue, taker: Taker, fill: nat, total: nat, s: SequenceState)
    requires q != [] && fill <= q[0].remaining <= q[0].original && fill <= taker.remaining <= taker.original
    ensures forall e <- FillEvents(symbolId, q[0], taker, fill, total, s) :: Between(e, q, taker.orderId)
  {
    hide HasId;
    FrontHere(q);
  }

  lemma {:induction false} MatchRefers(symbolId: nat, side: Side, q: Queue, taker: Taker, s: SequenceState,
                                       last: Option<int>)
    requires SaneQuantities(q) && taker.remaining <= taker.original
    ensures forall e <- Match(symbolId, side, q, taker, s, last).events :: Between(e, q, taker.orderId)
    decreases |q| + taker.remaining
  {
    hide LevelLots, AfterFill, Between, FillEvents, SaneQuantities;
    if Matchable(side, q, taker) {
      var fill: nat := Min(taker.remaining, q[0].remaining);
      SaneFront(q);
      SaneRest(q, fill);
      FrontLots(q);
      var total: nat := LevelLots(q, q[0].price) - fill;
      FillBetween(symbolId, q, taker, fill, total, s);
      MatchRefers(symbolId, side, ConsumeFront(q, fill), taker.(remaining := taker.remaining - fill), AfterFill(s),
                  Some(q[0].price));
      BetweenFront(q, fill, taker.orderId);
    }
  }

  lemma BetweenFront(q: Queue, fill: nat, takerId: nat)
    requires q != [] && fill <= q[0].remaining
    ensures forall e :: Between(e, ConsumeFront(q, fill), takerId) ==> Between(e, q, takerId)
  {
    hide HasId;
    forall id ensures HasId(ConsumeFront(q, fill), id) ==> HasId(q, id) { ConsumedIds(q, fill, id); }
  }

  /** The ids that rest, as a set. */
  ghost function Resting(books: map<nat, Book>): set<nat> {
    set m, i | m in books && 0 <= i < |books[m].bids + books[m].asks| :: (books[m].bids + books[m].asks)[i].orderId
  }

  lemma RestingLaw(books: map<nat, Book>, id: nat)
    ensures id in Resting(books) <==> Rests(books, id)
  {
    if Rests(books, id) {
      var m :| m in books && (HasId(books[m].bids, id) || HasId(books[m].asks, id));
      var q := books[m].bids + books[m].asks;
      if HasId(books[m].bids, id) {
        var i :| 0 <= i < |books[m].bids| && books[m].bids[i].orderId == id;
        assert q[i].orderId == id;
      } else {
        var i :| 0 <= i < |books[m].asks| && books[m].asks[i].orderId == id;
        assert q[|books[m].bids| + i].orderId == id;
      }
    }
    if id in Resting(books) {
      var m, i :| m in books && 0 <= i < |books[m].bids + books[m].asks| && (books[m].bids + books[m].asks)[i].orderId == id;
      if i < |books[m].bids| {
        assert books[m].bids[i].orderId == id;
      } else {
        assert books[m].asks[i - |books[m].bids|].orderId == id;
      }
    }
  }

  lemma PlaceRefers(core: Core, c: PlaceOrderCommand, l: Ledger, kind: CommandKind)
    requires CoreInv(core) && l.pending.Some? && l.pending.value.orderId == c.orderId
    ensures forall e <- CoreStep(core, Place(c)).events :: Refers(l, Resting(core.books), e, kind)
  {
    hide CoreSpec.Process, CoreInv, Resting, Match, SaneQuantities, PlaceRejection, Insert, LevelLots, HasId, ProcessPlace;
    var r := CoreStep(core, Place(c));
    PlaceCases(core, c);
    if Accepting(core, c, r) {
      var book, opp := core.books[c.symbolId], c.side.Opposite();
      var m := MatchOf(book, core.sequences, c);
      MatchRefers(book.config.symbolId, opp, book.SideQueue(opp), Taker(c.orderId, MatchLimit(c), c.quantity, c.quantity),
                  NextEvent(core.sequences), book.lastTradePrice);
      forall id | HasId(book.SideQueue(opp), id) ensures id in Resting(core.books) { RestingLaw(core.books, id); }
      PlaceEventKinds(book, core.sequences, c);
      forall e <- r.events ensures Refers(l, Resting(core.books), e, kind) {
        if e in m.events { assert Between(e, book.SideQueue(opp), c.orderId); }
      }
    } else {
      RejectedId(core, c);
      assert forall e <- r.events :: e == r.events[0];
    }
  }

  lemma PlaceEventKinds(book: Book, s: SequenceState, c: PlaceOrderCommand)
    requires SaneQuantities(book.bids) && SaneQuantities(book.asks) && PlaceRejection(book, c).None?
    ensures forall e <- ProcessPlace(book, s, c).events :: e in MatchOf(book, s, c).events || e.OrderAccepted? || e.OrderBookDelta?
  {
    hide MatchOf, PlaceRejection, SaneQuantities, Insert, LevelLots;
  }

  lemma RejectedId(core: Core, c: PlaceOrderCommand)
    requires CoreInv(core)
    ensures forall e <- CoreStep(core, Place(c)).events :: e.OrderRejected? && e.rejectedOrderId.Some? ==>
              e.rejectedOrderId.value == c.orderId
  {
    hide CoreInv, ValidSymbolPrice, ValidSymbolQuantity, Match, Insert, LevelLots, PlaceRejection, SaneQuantities,
      RejectionIn, Summary, HasId, HasClient;
    CoreSane(core);
    if c.symbolId in core.books {
      BookSaneAt(core, c.symbolId);
      var book, opp := core.books[c.symbolId], c.side.Opposite();
      MatchRefers(book.config.symbolId, opp, book.SideQueue(opp), Taker(c.orderId, MatchLimit(c), c.quantity, c.quantity),
                  NextEvent(core.sequences), book.lastTradePrice);
    }
  }

  // ---------- Orders ----------

  lemma SameRests(a: Core, b: Core)
    requires Forgetful(a) == Forgetful(b)
    ensures forall id :: Rests(a.books, id) <==> Rests(b.books, id)
    ensures Resting(a.books) == Resting(b.books)
  {
    SameBooksForgotten(a, b);
    forall m <- a.books ensures a.books[m].bids == b.books[m].bids && a.books[m].asks == b.books[m].asks {
      ForgetSides(a.books[m]);
      ForgetSides(b.books[m]);
    }
    hide HasId, Forget, Forgetful;
    forall id ensures Rests(a.books, id) <==> Rests(b.books, id) {
      if Rests(a.books, id) {
        var m :| m in a.books && (HasId(a.books[m].bids, id) || HasId(a.books[m].asks, id));
        assert m in b.books;
      }
      if Rests(b.books, id) {
        var m :| m in b.books && (HasId(b.books[m].bids, id) || HasId(b.books[m].asks, id));
        assert m in a.books;
      }
    }
    forall id ensures id in Resting(a.books) <==> id in Resting(b.books) {
      RestingLaw(a.books, id);
      RestingLaw(b.books, id);
    }
  }

  lemma AlikeLedgers(a: State, b: State, pending: Option<Metadata>)
    requires Alike(a, b)
    ensures Same(LedgerOf(a, pending), LedgerOf(b, pending), Resting(a.core.books))
  {
    hide Agree, Forgetful, Rests;
    forall id <- Resting(a.core.books) ensures Agree(a.metadata, b.metadata, id) { RestingLaw(a.core.books, id); }
  }

  /** After a placement nothing rests that did not rest before, except the order itself. */
  lemma PlaceRests(core: Core, c: PlaceOrderCommand, id: nat)
    requires CoreInv(core) && Rests(CoreStep(core, Place(c)).core.books, id)
    ensures Rests(core.books, id) || (id == c.orderId && IsAccepted(CoreStep(core, Place(c)).events))
  {
    hide CoreSpec.Process, CoreInv, HasId, MatchOf, SaneQuantities, PlaceRejection, Insert, LevelLots, Suffix, IsAccepted;
    var r := CoreStep(core, Place(c));
    PlaceCases(core, c);
    if Accepting(core, c, r) {
      var m :| m in r.core.books && (HasId(r.core.books[m].bids, id) || HasId(r.core.books[m].asks, id));
      if m == c.symbolId {
        var book, opp := core.books[m], c.side.Opposite();
        BookInvAt(core, m);
        MatchKeeps(book, core.sequences, c);
        var match' := MatchOf(book, core.sequences, c);
        SuffixIds(match'.queue, book.SideQueue(opp), id);
        InsertIds(c.side, book.SideQueue(c.side), RestingSnapshot(c, match'.taker.remaining, core.sequences.nextSequence), id);
      }
    }
  }

  lemma BookInvAt(core: Core, id: nat)
    requires CoreInv(core) && id in core.books
    ensures BookInv(core.books[id])
  {
    hide BookInv;
  }

  lemma InsertIds(side: Side, q: Queue, o: OrderSnapshot, id: nat)
    ensures HasId(Insert(side, q, o), id) ==> HasId(q, id) || id == o.orderId
  {
    var r := Insert(side, q, o);
    if HasId(r, id) {
      var i :| 0 <= i < |r| && r[i].orderId == id;
      InsertMember(side, q, o, r[i]);
    }
  }

  lemma AgreeMinus(a: map<nat, Metadata>, b: map<nat, Metadata>, id: nat, gone: set<nat>)
    requires Agree(a, b, id)
    ensures Agree(a - gone, b - gone, id)
  {
  }

  /** Alike states run an order alike. */
  lemma RunOrderAlike(a: State, b: State, i: Input, c: PlaceOrderCommand)
    requires RuntimeInv(a) && RuntimeInv(b) && CoreInv(a.core) && CoreInv(b.core) && Alike(a, b)
    requires i.PlaceInput? && c.orderId == i.order.orderId
    requires RunOrder(a, i, c).Some? && RunOrder(b, i, c).Some?
    ensures var x, y := RunOrder(a, i, c).value, RunOrder(b, i, c).value;
            x.outputs == y.outputs && Alike(x.state, y.state)
  {
    hide CoreSpec.Process, CoreInv, RuntimeInv, BookAll, Completed, IsAccepted, Agree, Forgetful, Rests, Refers, Resting, RunOrder,
      OrderStore, OrderReport;
    ProcessForgets(a.core, b.core, Place(c));
    var ra := CoreStep(a.core, Place(c));
    var pending := Some(PlaceMetadata(i));
    var la, lb := LedgerOf(a, pending), LedgerOf(b, pending);
    AlikeLedgers(a, b, pending);
    PlaceRefers(a.core, c, la, PlaceKind);
    BookSame(la, lb, Resting(a.core.books), ra.events, a.marks, PlaceKind);
    OrderShape(a, i, c);
    OrderShape(b, i, c);
    var xa, xb := BookAll(la, ra.events, a.marks, PlaceKind).ledger, BookAll(lb, ra.events, b.marks, PlaceKind).ledger;
    ReportSame(i, xa, xb, c.orderId, ra.events);
    forall id | Rests(ra.core.books, id)
      ensures Agree(OrderStore(xa, c.orderId, i.reduceOnly, IsAccepted(ra.events), Completed(ra.events)),
                    OrderStore(xb, c.orderId, i.reduceOnly, IsAccepted(ra.events), Completed(ra.events)), id)
    {
      PlaceRests(a.core, c, id);
      RestingLaw(a.core.books, id);
      StoreAgrees(xa, xb, c.orderId, i.reduceOnly, IsAccepted(ra.events), Completed(ra.events), id);
    }
  }

  lemma ReportSame(i: Input, a: Ledger, b: Ledger, orderId: nat, events: seq<EngineEvent>)
    requires i.PlaceInput? && a.pending == b.pending
    ensures OrderReport(i, a, orderId, events) == OrderReport(i, b, orderId, events)
  {
    hide IsAccepted, FilledBy;
  }

  /** The stores after an order agree on what the ledgers agreed on, and on the order itself. */
  lemma StoreAgrees(a: Ledger, b: Ledger, orderId: nat, reduceOnly: bool, accepted: bool, gone: set<nat>, id: nat)
    requires a.pending == b.pending && (Agree(a.metadata, b.metadata, id) || (id == orderId && accepted && a.pending.Some?))
    ensures Agree(OrderStore(a, orderId, reduceOnly, accepted, gone), OrderStore(b, orderId, reduceOnly, accepted, gone), id)
  {
  }

  // ---------- Cancels ----------

  lemma CancelRefers(core: Core, c: CancelOrderCommand, l: Ledger)
    requires CoreInv(core)
    ensures forall e <- CoreStep(core, Cancel(c)).events :: Refers(l, Resting(core.books), e, CancelKind)
  {
    hide CoreSpec.Process, CoreInv, Resting, HasId, RemoveId;
    var r := CoreStep(core, Cancel(c));
    CancelCases(core, c);
    if Refusing(core, r) {
      assert forall e <- r.events :: e == r.events[0];
    } else {
      var o :| Cancelling(core, c, r, o);
      RestsHere(core.books, c.symbolId, o);
      RestingLaw(core.books, o.orderId);
      assert forall e <- r.events :: e == r.events[0] || e == r.events[1];
    }
  }

  lemma RestsHere(books: map<nat, Book>, m: nat, o: OrderSnapshot)
    requires m in books && o in books[m].SideQueue(o.side)
    ensures Rests(books, o.orderId)
  {
    var q := books[m].SideQueue(o.side);
    var i :| 0 <= i < |q| && q[i] == o;
    assert HasId(q, o.orderId);
  }

  lemma CancelRests(core: Core, c: CancelOrderCommand, id: nat)
    requires CoreInv(core) && Rests(CoreStep(core, Cancel(c)).core.books, id)
    ensures Rests(core.books, id)
  {
    hide CoreSpec.Process, CoreInv, HasId, RemoveId;
    var r := CoreStep(core, Cancel(c));
    CancelCases(core, c);
    if !Refusing(core, r) {
      var o :| Cancelling(core, c, r, o);
      var m :| m in r.core.books && (HasId(r.core.books[m].bids, id) || HasId(r.core.books[m].asks, id));
      if m == c.symbolId { RemoveIds(core.books[m].SideQueue(o.side), o.orderId, id); }
    }
  }

  lemma RemoveIds(q: Queue, gone: nat, id: nat)
    ensures HasId(RemoveId(q, gone), id) ==> HasId(q, id)
  {
    var r := RemoveId(q, gone);
    if HasId(r, id) {
      var i :| 0 <= i < |r| && r[i].orderId == id;
      RemoveMember(q, gone, r[i]);
    }
  }

  lemma CancelAlike(a: State, b: State, c: CancelOrderCommand)
    requires CoreInv(a.core) && CoreInv(b.core) && Alike(a, b)
    ensures var x, y := CancelOrder(a, c), CancelOrder(b, c); x.outputs == y.outputs && Alike(x.state, y.state)
  {
    hide CoreSpec.Process, CoreInv, BookAll, Completed, Agree, Forgetful, Rests, Refers, Resting;
    ProcessForgets(a.core, b.core, Cancel(c));
    var ra := CoreStep(a.core, Cancel(c));
    var la, lb := LedgerOf(a, None), LedgerOf(b, None);
    AlikeLedgers(a, b, None);
    CancelRefers(a.core, c, la);
    BookSame(la, lb, Resting(a.core.books), ra.events, a.marks, CancelKind);
    var x, y := CancelOrder(a, c).state, CancelOrder(b, c).state;
    forall id | Rests(x.core.books, id) ensures Agree(x.metadata, y.metadata, id) {
      CancelRests(a.core, c, id);
      RestingLaw(a.core.books, id);
      AgreeMinus(BookAll(la, ra.events, a.marks, CancelKind).ledger.metadata,
                 BookAll(lb, ra.events, a.marks, CancelKind).ledger.metadata, id, Completed(ra.events));
    }
  }

  // ---------- Liquidations ----------

  /** A deleveraging fill does not depend on the id of the order it makes up, and leaves the store alone. */
  lemma AdlFillLaw(l: Ledger, c: Candidate, fill: nat, price: int, marks: Marks)
    requires l.pending.Some?
    ensures var x := AdlFill(l, c, fill, price, marks);
            && x.ledger.metadata == l.metadata
            && x.ledger.pending.Some?
            && forall l2: Ledger :: l2 == l.(metadata := l2.metadata) ==>
                 var y := AdlFill(l2, c, fill, price, marks);
                 y.outputs == x.outputs && y.ledger == x.ledger.(metadata := l2.metadata)
  {
    hide ApplyFill, RiskOf, RealizedPnl, FreeId, TruncDiv, FallbackMargin;
    AdlFillShape(l, c, fill, price, marks);
    forall l2: Ledger | l2 == l.(metadata := l2.metadata)
      ensures var x, y := AdlFill(l, c, fill, price, marks), AdlFill(l2, c, fill, price, marks);
              y.outputs == x.outputs && y.ledger == x.ledger.(metadata := l2.metadata)
    {
      AdlFillShape(l2, c, fill, price, marks);
    }
  }

  /** What a deleveraging fill computes, without its made-up order. */
  ghost function AdlEffect(l: Ledger, c: Candidate, fill: nat, price: int, marks: Marks): Booked
    requires l.pending.Some?
  {
    var md := Metadata(0, c.key.marketId, c.key.userId, CloseSide(c.position.signed), fill, fill, true, 0, 0,
                       c.position.leverage);
    var trade := TradeOutput(0, l.pending.value.orderId, price, fill, []);
    var maker := BookMaker(l, md, fill, price, marks);
    var taker := BookSide(maker.ledger, l.pending.value.orderId, fill, price, marks);
    Booked(taker.ledger, [trade] + maker.outputs + taker.outputs)
  }

  /** Book a side for given metadata, without storing it. */
  ghost function BookMaker(l: Ledger, md: Metadata, fill: nat, price: int, marks: Marks): Booked {
    var key := Key(md.userId, md.marketId);
    var taken := AllocateMargin(md, fill, price).0;
    var p, signed := PositionAt(l.positions, key), SignedFill(md.side, fill);
    var p' := ApplyFill(p, md.leverage, signed, price, taken);
    var realized := RealizedPnl(p, signed, price);
    Booked(l.(positions := l.positions[key := p'], risks := l.risks[key := RiskOf(p', MarkFor(marks, md.marketId, price), 0)]),
           (if realized != 0 then [AccountDelta(key, realized)] else []) + [PositionChanged(key, p', realized)])
  }

  lemma AdlFillShape(l: Ledger, c: Candidate, fill: nat, price: int, marks: Marks)
    requires l.pending.Some?
    ensures AdlFill(l, c, fill, price, marks) == AdlEffect(l, c, fill, price, marks)
    ensures AdlEffect(l, c, fill, price, marks).ledger.metadata == l.metadata
    ensures AdlEffect(l, c, fill, price, marks).ledger.pending.Some?
  {
    hide ApplyFill, RiskOf, RealizedPnl, FreeId, TruncDiv;
    var id := FreeId(1, l.metadata.Keys + {l.pending.value.orderId});
    var md := Metadata(id, c.key.marketId, c.key.userId, CloseSide(c.position.signed), fill, fill, true, 0, 0,
                       c.position.leverage);
    var l1 := l.(metadata := l.metadata[id := md]);
    var l2 := BookSide(l1, id, fill, price, marks).ledger;
    var maker := BookMaker(l, md.(orderId := 0), fill, price, marks).ledger;
    assert l2 == maker.(metadata := l2.metadata) && l2.metadata - {id} == l.metadata;
  }

  lemma {:induction false} AdlFillsSame(a: Ledger, b: Ledger, cs: seq<Candidate>, remaining: nat, price: int, marks: Marks)
    requires a == b.(metadata := a.metadata)
    ensures var x, y := AdlFills(a, cs, remaining, price, marks), AdlFills(b, cs, remaining, price, marks);
            && x.outputs == y.outputs && x.ledger == y.ledger.(metadata := x.ledger.metadata)
            && x.ledger.metadata == a.metadata && y.ledger.metadata == b.metadata
    decreases |cs|
  {
    hide AdlFill;
    if cs != [] && remaining > 0 && a.pending.Some? {
      var fill: nat := Min(remaining, Abs(cs[0].position.signed));
      if fill == 0 {
        AdlFillsSame(a, b, cs[1..], remaining, price, marks);
      } else {
        AdlFillLaw(b, cs[0], fill, price, marks);
        AdlFillsSame(AdlFill(a, cs[0], fill, price, marks).ledger, AdlFill(b, cs[0], fill, price, marks).ledger, cs[1..],
                     remaining - fill, price, marks);
      }
    }
  }

  lemma DeleverageAlike(a: State, b: State, la: Ledger, lb: Ledger, q: Liquidation, price: int, before: seq<Output>)
    requires Alike(a, b) && la == lb.(metadata := la.metadata) && la.metadata == a.metadata && lb.metadata == b.metadata
    ensures var x, y := Deleverage(a, la, q, price, before), Deleverage(b, lb, q, price, before);
            x.outputs == y.outputs && Alike(x.state, y.state)
  {
    hide AdlFills, AdlCandidates, Alike;
    var open := if la.pending.Some? && q.key in la.positions
                then Min(la.pending.value.remaining, Abs(la.positions[q.key].signed)) else 0;
    var cs := AdlCandidates(q.key, PositionAt(la.positions, q.key).signed, la.positions, la.risks);
    SameMarks(a, b);
    if open > 0 { AdlFillsSame(la, lb, cs, open, price, a.marks); }
    var x, y := Deleverage(a, la, q, price, before).state, Deleverage(b, lb, q, price, before).state;
    RebookedAlike(a, b, x, y);
  }

  lemma SameMarks(a: State, b: State)
    requires Alike(a, b)
    ensures a.marks == b.marks
  {
    hide Agree, Forgetful, Rests;
  }

  lemma RebookedAlike(a: State, b: State, x: State, y: State)
    requires Alike(a, b) && x == a.(positions := x.positions, risks := x.risks)
    requires y == b.(positions := x.positions, risks := x.risks)
    ensures Alike(x, y)
  {
    hide Agree, Forgetful, Rests;
  }

  lemma SameCrossing(a: Core, b: Core, marketId: nat, side: Side, price: int)
    requires Forgetful(a) == Forgetful(b)
    ensures CrossingLiquidity(a, marketId, side, price) == CrossingLiquidity(b, marketId, side, price)
  {
    hide LevelLots;
    SameBooksForgotten(a, b);
    if marketId in a.books {
      ForgetSides(a.books[marketId]);
      ForgetSides(b.books[marketId]);
    }
  }

  /** An order that cannot rest leaves alike states alike. */
  lemma TakenAlike(a: State, b: State, c: PlaceOrderCommand, md: Metadata)
    requires CoreInv(a.core) && CoreInv(b.core) && Alike(a, b) && md.orderId == c.orderId && !CanRest(c)
    ensures var ra, rb := CoreStep(a.core, Place(c)), CoreStep(b.core, Place(c));
            var x := BookAll(LedgerOf(a, Some(md)), ra.events, a.marks, LiquidationKind);
            var y := BookAll(LedgerOf(b, Some(md)), rb.events, b.marks, LiquidationKind);
            && ra.events == rb.events && x.outputs == y.outputs && x.ledger == y.ledger.(metadata := x.ledger.metadata)
            && Alike(Settle(a, ra.core, x.ledger, ra.events), Settle(b, rb.core, y.ledger, rb.events))
            && Alike(a.(core := ra.core), b.(core := rb.core))
  {
    hide CoreSpec.Process, CoreInv, BookAll, Completed, Agree, Forgetful, Rests, Refers, Resting, CanRest;
    ProcessForgets(a.core, b.core, Place(c));
    var ra := CoreStep(a.core, Place(c));
    var la, lb := LedgerOf(a, Some(md)), LedgerOf(b, Some(md));
    AlikeLedgers(a, b, Some(md));
    PlaceRefers(a.core, c, la, LiquidationKind);
    BookSame(la, lb, Resting(a.core.books), ra.events, a.marks, LiquidationKind);
    var x := BookAll(la, ra.events, a.marks, LiquidationKind).ledger;
    var y := BookAll(lb, ra.events, a.marks, LiquidationKind).ledger;
    forall id | Rests(ra.core.books, id)
      ensures Agree(x.metadata - Completed(ra.events), y.metadata - Completed(ra.events), id)
      ensures Agree(a.metadata, b.metadata, id)
    {
      TakerRests(a.core, c, id);
      RestingLaw(a.core.books, id);
      AgreeMinus(x.metadata, y.metadata, id, Completed(ra.events));
    }
  }

  lemma TakerRests(core: Core, c: PlaceOrderCommand, id: nat)
    requires CoreInv(core) && Rests(CoreStep(core, Place(c)).core.books, id) && !CanRest(c)
    ensures Rests(core.books, id)
  {
    hide CoreSpec.Process, CoreInv, HasId, MatchOf, SaneQuantities, PlaceRejection, Insert, LevelLots, Suffix;
    var r := CoreStep(core, Place(c));
    PlaceCases(core, c);
    if Accepting(core, c, r) {
      var m :| m in r.core.books && (HasId(r.core.books[m].bids, id) || HasId(r.core.books[m].asks, id));
      if m == c.symbolId {
        var book, opp := core.books[m], c.side.Opposite();
        BookInvAt(core, m);
        MatchKeeps(book, core.sequences, c);
        SuffixIds(MatchOf(book, core.sequences, c).queue, book.SideQueue(opp), id);
      }
    }
  }

  /** Alike states liquidate alike. */
  lemma LiquidateAlike(a: State, b: State, q: Liquidation)
    requires CoreInv(a.core) && CoreInv(b.core) && Alike(a, b)
    ensures var x, y := Liquidate(a, q), Liquidate(b, q); x.outputs == y.outputs && Alike(x.state, y.state)
  {
    hide CoreSpec.Process, CoreInv, BookAll, Deleverage, CrossingLiquidity, AvailableLots, AdlCandidates, Agree, Forgetful,
      Rests, HasTrade, LiquidationPrice;
    if MayLiquidate(a, q) {
      var p := a.positions[q.key];
      var price, md := LiquidationPrice(q, p, a.marks), LiquidationMetadata(q, p);
      var c := LiquidationOrder(q, p.signed, price);
      SameCrossing(a.core, b.core, q.key.marketId, CloseSide(p.signed), price);
      DeleverageAlike(a, b, LedgerOf(a, Some(md)), LedgerOf(b, Some(md)), q, price, [LiquidationStarted(q.key)]);
      TakenAlike(a, b, c, md);
      var ra, rb := CoreStep(a.core, Place(c)), CoreStep(b.core, Place(c));
      var x := BookAll(LedgerOf(a, Some(md)), ra.events, a.marks, LiquidationKind);
      var y := BookAll(LedgerOf(b, Some(md)), rb.events, b.marks, LiquidationKind);
      var sa, sb := Settle(a, ra.core, x.ledger, ra.events), Settle(b, rb.core, y.ledger, rb.events);
      DeleverageAlike(sa, sb, LedgerOf(sa, x.ledger.pending), LedgerOf(sb, y.ledger.pending), q, price,
                      [LiquidationStarted(q.key)] + x.outputs);
    }
  }

  lemma {:induction false} ScanAlike(a: State, b: State, marketId: nat, ids: IdSource, tried: seq<Attempt>, also: seq<Attempt>)
    requires CoreInv(a.core) && CoreInv(b.core) && Alike(a, b) && SameTries(tried, also)
    ensures var x, y := Scan(a, marketId, ids, tried), Scan(b, marketId, ids, also);
            x.outputs == y.outputs && Alike(x.state, y.state)
    decreases MAX_ATTEMPTS - |tried|, 1
  {
    hide CoreInv, TryAll, Ranked, Agree, Forgetful, Rests;
    SameAttempted(tried, also);
    if |tried| < MAX_ATTEMPTS {
      assert AutoKeys(a, marketId, Attempted(tried)) == AutoKeys(b, marketId, Attempted(also));
      KeysListed(a, marketId, Attempted(tried));
      TryAlike(a, b, Ranked(AutoBefore, AutoKeys(a, marketId, Attempted(tried)), a.positions, a.risks), marketId, ids, tried,
               also);
    }
  }

  /** Attempts on the same positions. */
  ghost predicate SameTries(a: seq<Attempt>, b: seq<Attempt>) {
    |a| == |b| && forall i :: 0 <= i < |a| ==> a[i].key == b[i].key
  }

  lemma SameAttempted(a: seq<Attempt>, b: seq<Attempt>)
    requires SameTries(a, b)
    ensures Attempted(a) == Attempted(b)
  {
    forall k ensures k in Attempted(a) <==> k in Attempted(b) {
      if k in Attempted(a) {
        var x :| x in a && x.key == k;
        var i :| 0 <= i < |a| && a[i] == x;
        assert b[i] in b && b[i].key == k;
      }
      if k in Attempted(b) {
        var x :| x in b && x.key == k;
        var i :| 0 <= i < |b| && b[i] == x;
        assert a[i] in a && a[i].key == k;
      }
    }
  }

  lemma {:induction false} TryAlike(a: State, b: State, cs: seq<Candidate>, marketId: nat, ids: IdSource,
                                    tried: seq<Attempt>, also: seq<Attempt>)
    requires CoreInv(a.core) && CoreInv(b.core) && Alike(a, b) && SameTries(tried, also)
    ensures var x, y := TryAll(a, cs, marketId, ids, tried), TryAll(b, cs, marketId, ids, also);
            x.outputs == y.outputs && Alike(x.state, y.state)
    decreases MAX_ATTEMPTS - |tried|, 0
  {
    hide CoreInv, Scan, Liquidate, AutoRequest, Alike;
    if cs != [] && |tried| < MAX_ATTEMPTS {
      var ta, tb := tried + [Attempt(cs[0].key, a)], also + [Attempt(cs[0].key, b)];
      var q := AutoRequest(cs[0], ids(cs[0].key, |ta|));
      LiquidateAlike(a, b, q);
      var x, y := Liquidate(a, q), Liquidate(b, q);
      if x.outputs != [] {
        ScanAlike(x.state, y.state, marketId, ids, ta, tb);
      } else {
        TryAlike(x.state, y.state, cs[1..], marketId, ids, ta, tb);
      }
    }
  }

  lemma AutoAlike(a: State, b: State, marketId: nat, ids: IdSource)
    requires CoreInv(a.core) && CoreInv(b.core) && Alike(a, b)
    ensures var x, y := AutoLiquidate(a, marketId, ids), AutoLiquidate(b, marketId, ids);
            x.outputs == y.outputs && Alike(x.state, y.state)
  {
    hide CoreInv, Scan, Alike;
    ScanAlike(a, b, marketId, ids, [], []);
  }

  // ---------- Records ----------

  lemma PlaceAlike(a: State, b: State, i: Input, ids: IdSource)
    requires RuntimeInv(a) && RuntimeInv(b) && CoreInv(a.core) && CoreInv(b.core) && Alike(a, b) && i.PlaceInput?
    ensures var x, y := PlaceOrder(a, i, ids), PlaceOrder(b, i, ids);
            x.Some? == y.Some? && (x.Some? ==> x.value.outputs == y.value.outputs && Alike(x.value.state, y.value.state))
  {
    hide RuntimeInv, CoreInv, RunOrder, AutoLiquidate, Mappable, CoreSpec.Process, HasTrade, Agree, Forgetful, Rests, FairAttempts,
      Moved;
    PlaceLaw(a, i, ids);
    PlaceLaw(b, i, ids);
    var c := CoreOrder(a, i);
    if c.Some? && Mappable(c.value) {
      RunOrderLaw(a, i, c.value);
      RunOrderLaw(b, i, c.value);
      RunOrderAlike(a, b, i, c.value);
      ProcessForgets(a.core, b.core, Place(c.value));
      AutoAlike(RunOrder(a, i, c.value).value.state, RunOrder(b, i, c.value).value.state, c.value.symbolId, ids);
    }
  }

  lemma MarkAlike(a: State, b: State, marketId: nat, mark: int, ids: IdSource)
    requires CoreInv(a.core) && CoreInv(b.core) && Alike(a, b)
    ensures var x, y := UpdateMark(a, marketId, mark, ids), UpdateMark(b, marketId, mark, ids);
            x.outputs == y.outputs && Alike(x.state, y.state)
  {
    hide CoreInv, AutoLiquidate, Agree, Forgetful, Rests, RiskOf, Adjustment;
    assert Remark(a, marketId, mark) == Remark(b, marketId, mark);
    AutoAlike(a.(marks := a.marks[marketId := mark], risks := Remark(a, marketId, mark)),
              b.(marks := b.marks[marketId := mark], risks := Remark(b, marketId, mark)), marketId, ids);
  }

  lemma FundingAlike(a: State, b: State, marketId: nat, interval: string, rate: FundingRate, ids: IdSource)
    requires CoreInv(a.core) && CoreInv(b.core) && Alike(a, b) && rate.scale > 0
    ensures var x, y := SettleFunding(a, marketId, interval, rate, ids), SettleFunding(b, marketId, interval, rate, ids);
            x.outputs == y.outputs && Alike(x.state, y.state)
  {
    hide CoreInv, AutoLiquidate, Agree, Forgetful, Rests, PaidRisk, Payment, Adjustment;
    var payments := Payments(a, marketId, rate);
    assert payments == Payments(b, marketId, rate);
    assert PayRisks(a, marketId, payments) == PayRisks(b, marketId, payments);
    AutoAlike(a.(risks := PayRisks(a, marketId, payments), settled := a.settled + {(marketId, interval)}),
              b.(risks := PayRisks(b, marketId, payments), settled := b.settled + {(marketId, interval)}), marketId, ids);
  }

  lemma DoneAlike(a: State, b: State, r: Record)
    requires Alike(a, b)
    ensures Alike(MarkInputDone(a, r), MarkInputDone(b, r))
    ensures r.input.PlaceInput? || r.input.CancelInput? || r.input.LiquidateInput? ==> Alike(MarkDone(a, r), MarkDone(b, r))
  {
    hide Agree, Forgetful, Rests, Remember;
  }

  lemma AnyDoneAlike(r: Record)
    ensures forall a, b :: Alike(a, b) ==> Alike(MarkInputDone(a, r), MarkInputDone(b, r))
    ensures r.input.PlaceInput? || r.input.CancelInput? || r.input.LiquidateInput? ==>
              forall a, b :: Alike(a, b) ==> Alike(MarkDone(a, r), MarkDone(b, r))
  {
    hide Alike, MarkInputDone, MarkDone;
    forall a, b | Alike(a, b) ensures Alike(MarkInputDone(a, r), MarkInputDone(b, r)) { DoneAlike(a, b, r); }
    if r.input.PlaceInput? || r.input.CancelInput? || r.input.LiquidateInput? {
      forall a, b | Alike(a, b) ensures Alike(MarkDone(a, r), MarkDone(b, r)) { DoneAlike(a, b, r); }
    }
  }

  lemma SameOutside(a: State, b: State)
    requires Alike(a, b)
    ensures a.rates == b.rates && a.settled == b.settled && a.inputIds == b.inputIds && a.requestKeys == b.requestKeys
  {
    hide Agree, Forgetful, Rests;
  }

  lemma RateAlike(a: State, b: State, m: nat, rate: FundingRate)
    requires Alike(a, b)
    ensures Alike(a.(rates := a.rates[m := rate]), b.(rates := b.rates[m := rate]))
  {
    hide Agree, Forgetful, Rests;
  }

  lemma TickAlike(a: State, b: State, r: Record, ids: IdSource)
    requires CoreInv(a.core) && CoreInv(b.core) && Alike(a, b) && r.input.TickInput?
    requires (forall m <- a.rates :: a.rates[m].scale > 0) && (forall m <- b.rates :: b.rates[m].scale > 0)
    ensures var x, y := Tick(a, r, ids), Tick(b, r, ids);
            x.status == y.status && x.outputs == y.outputs && Alike(x.state, y.state)
  {
    hide CoreInv, Alike, SettleFunding, MarkInputDone;
    AnyDoneAlike(r);
    SameOutside(a, b);
    var m := r.input.marketId;
    if m in a.rates { FundingAlike(a, b, m, r.input.interval, a.rates[m], ids); }
  }

  lemma DuplicatesAlike(a: State, b: State, i: Input)
    requires Alike(a, b)
    ensures DuplicateOf(a, i) == DuplicateOf(b, i)
  {
  }

  /** Alike states answer every record alike, and stay alike. */
  lemma ProcessAlike(a: State, b: State, r: Record, ids: IdSource)
    requires RuntimeInv(a) && RuntimeInv(b) && Alike(a, b)
    ensures CoreInv(a.core) && CoreInv(b.core)
    ensures (forall m <- a.rates :: a.rates[m].scale > 0) && (forall m <- b.rates :: b.rates[m].scale > 0)
    ensures var x, y := RuntimeSpec.Process(a, r, ids), RuntimeSpec.Process(b, r, ids);
            x.status == y.status && x.outputs == y.outputs && Alike(x.state, y.state)
  {
    hide CoreInv, RuntimeInv, Alike, PlaceOrder, CancelOrder, Liquidate, UpdateMark, Tick, MarkDone, MarkInputDone, DuplicateOf;
    InvParts(a);
    InvParts(b);
    DuplicatesAlike(a, b, r.input);
    AnyDoneAlike(r);
    SameOutside(a, b);
    match r.input
    case PlaceInput(_, _, _, _, _, _) => PlaceAlike(a, b, r.input, ids);
    case CancelInput(_, _, c) => CancelAlike(a, b, c);
    case LiquidateInput(_, _, q) => LiquidateAlike(a, b, q);
    case MarkInput(_, marketId, mark) => MarkAlike(a, b, marketId, mark, ids);
    case RateInput(_, marketId, rate) => RateAlike(a, b, marketId, rate);
    case TickInput(_, _, _) => TickAlike(a, b, r, ids);
  }

  lemma {:induction false} RunAlike(a: State, b: State, records: seq<Record>, ids: Record -> IdSource)
    requires RuntimeInv(a) && RuntimeInv(b) && Alike(a, b)
    ensures var x, y := RuntimeRuns.Run(a, records, ids), RuntimeRuns.Run(b, records, ids);
            x.outputs == y.outputs && Alike(x.state, y.state)
    decreases |records|
  {
    hide RuntimeInv, RuntimeSpec.Process, Alike, CoreInv;
    if records != [] {
      var r := records[0];
      ProcessLaw(a, r, ids(r));
      ProcessLaw(b, r, ids(r));
      ProcessAlike(a, b, r, ids(r));
      RunAlike(RuntimeSpec.Process(a, r, ids(r)).state, RuntimeSpec.Process(b, r, ids(r)).state, records[1..], ids);
    }
  }

  // ---------- Restarting from a checkpoint ----------

  lemma RestoredMembers(core: Core)
    requires CoreInv(core)
    ensures Restore(Snapshot(core)).books.Keys == core.books.Keys
    ensures forall m <- core.books ::
              var r := Restore(Snapshot(core)).books[m];
              (forall x :: x in r.bids <==> x in core.books[m].bids) && (forall x :: x in r.asks <==> x in core.books[m].asks)
  {
    hide RestoreBook, SnapshotBook, BookInv, PriceThenId, LevelsById;
    CoreBooks(core);
    forall m <- core.books
      ensures var r := RestoreBook(SnapshotBook(core.books[m]));
              (forall x :: x in r.bids <==> x in core.books[m].bids) && (forall x :: x in r.asks <==> x in core.books[m].asks)
    {
      RestoredBook(core.books[m]);
    }
  }

  lemma MemberHasId(q: Queue, o: OrderSnapshot)
    requires o in q
    ensures HasId(q, o.orderId)
  {
    var i :| 0 <= i < |q| && q[i] == o;
  }

  /** The checkpoint keeps the metadata of every resting order. */
  lemma CheckpointCovered(st: State, books: map<nat, Book>)
    requires Covered(st.core.books, st.metadata) && books.Keys == st.core.books.Keys
    requires forall m <- books :: (forall x :: x in books[m].bids <==> x in st.core.books[m].bids)
                                  && (forall x :: x in books[m].asks <==> x in st.core.books[m].asks)
    ensures Covered(books, Checkpointed(st).metadata)
  {
    hide Describes, HasId, Restore, Snapshot;
    var md := Checkpointed(st).metadata;
    forall m <- books ensures Covers(md, books[m].bids, m) && Covers(md, books[m].asks, m) {
      forall o <- st.core.books[m].bids ensures Rests(st.core.books, o.orderId) { MemberHasId(st.core.books[m].bids, o); }
      forall o <- st.core.books[m].asks ensures Rests(st.core.books, o.orderId) { MemberHasId(st.core.books[m].asks, o); }
    }
  }

  /** Restarting from a checkpoint keeps the invariant, whatever the ids. */
  lemma CheckpointKeeps(st: State)
    requires RuntimeInv(st)
    ensures RuntimeInv(Checkpointed(st))
  {
    hide CoreInv, Covered, ZeroSum, RisksOk, Restore, Snapshot, Rests, Standing;
    RestoreKeeps(st.core);
    RestoredMembers(st.core);
    CheckpointCovered(st, Restore(Snapshot(st.core)).books);
    SameIndex(st.core);
  }

  lemma SameIndex(core: Core)
    ensures Restore(Snapshot(core)).idempotency == core.idempotency
  {
    hide RestoreBook, SnapshotBook;
  }

  lemma CheckpointAlike(st: State)
    requires RuntimeInv(st) && CoreInv(st.core) && QueuesById(st.core)
    ensures Alike(Checkpointed(st), st)
  {
    hide CoreInv, Covered, ZeroSum, RisksOk, Restore, Snapshot, Rests, QueuesById, Forgetful;
    RestoreIff(st.core);
    ForgetTwice(st.core);
    SameRests(Restore(Snapshot(st.core)), st.core);
  }

  /**
    Where ids ascend within every price level, a runtime restarted from its checkpoint produces, for every later sequence
    of records, exactly the outputs the original would have produced.
   */
  lemma RestartedFuture(st: State, records: seq<Record>, ids: Record -> IdSource)
    requires RuntimeInv(st) && QueuesById(st.core)
    ensures RuntimeInv(Checkpointed(st))
    ensures RuntimeRuns.Run(Checkpointed(st), records, ids).outputs == RuntimeRuns.Run(st, records, ids).outputs
  {
    hide RuntimeInv, QueuesById, Alike, Checkpointed, RuntimeRuns.Run, CoreInv;
    InvParts(st);
    CheckpointKeeps(st);
    CheckpointAlike(st);
    RunAlike(Checkpointed(st), st, records, ids);
  }
}
