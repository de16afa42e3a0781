/** The stored metadata stays in step with the books through every order. */
module StoreLaws {
  import opened Types
  import opened BookSpec
  import opened Queues
  import opened MatchLaws
  import opened BookLaws
  import opened CoreSpec
  import opened CoreLaws
  import opened Accounting
  import opened LedgerSpec
  import opened LedgerLaws
  import opened RuntimeSpec

  // ---------- The invariant ----------

  /** Every resting order has metadata with the same owner, side, market and open quantity. */
  ghost predicate Covered(books: map<nat, Book>, metadata: map<nat, Metadata>) {
    forall m <- books :: Covers(metadata, books[m].bids, m) && Covers(metadata, books[m].asks, m)
  }

  /** What is stored can only belong to orders the core has accepted. */
  ghost predicate StoreOk(core: Core, metadata: map<nat, Metadata>) {
    && CoreInv(core)
    && Covered(core.books, metadata)
    && metadata.Keys <= core.idempotency.orderIds
    && MetadataOk(metadata)
  }

  ghost predicate RuntimeInv(st: State) {
    && StoreOk(st.core, st.metadata)
    && ZeroSum(st.positions)
    && RisksOk(st.positions, st.risks)
    && (forall m <- st.rates :: st.rates[m].scale > 0)
  }

  // ---------- What a placement does in the core ----------

  /** The core accepted the order and matched it. */
  ghost predicate Accepting(core: Core, c: PlaceOrderCommand, r: CoreResult)
    requires CoreInv(core)
  {
    && c.symbolId in core.books && c.orderId !in core.idempotency.orderIds
    && PlaceRejection(core.books[c.symbolId], c).None?
    && SaneQuantities(core.books[c.symbolId].bids) && SaneQuantities(core.books[c.symbolId].asks)
    && var placed := ProcessPlace(core.books[c.symbolId], core.sequences, c);
       && r.events == placed.events
       && r.core.books == core.books[c.symbolId := placed.book]
       && r.core.idempotency.orderIds == core.idempotency.orderIds + {c.orderId}
  }

  /** The core turned the order away. */
  ghost predicate Refusing(core: Core, r: CoreResult) {
    && |r.events| == 1 && r.events[0].OrderRejected?
    && r.core.books == core.books && r.core.idempotency.orderIds == core.idempotency.orderIds
  }

  lemma PlaceCases(core: Core, c: PlaceOrderCommand)
    requires CoreInv(core)
    ensures var r := CoreStep(core, Place(c));
            && Accepting(core, c, r) == IsAccepted(r.events)
            && (Accepting(core, c, r) || Refusing(core, r))
  {
    hide CoreInv, ValidSymbolPrice, ValidSymbolQuantity, MatchOf, Insert, LevelLots, PlaceRejection, SaneQuantities,
      RejectionIn, Summary;
    CoreSane(core);
    var r := CoreStep(core, Place(c));
    if c.commandId !in core.idempotency.commands && c.symbolId in core.books
       && ValidatePlace(c, core.books[c.symbolId].config, core.idempotency).None? {
      BookSaneAt(core, c.symbolId);
      PlaceEvents(core.books[c.symbolId], core.sequences, c);
      if PlaceRejection(core.books[c.symbolId], c).Some? {
        assert core.books[c.symbolId := core.books[c.symbolId]] == core.books;
      }
    }
  }

  /** What makes the core accept an order, checked on the core and the command alone. */
  ghost predicate Acceptable(core: Core, c: PlaceOrderCommand) {
    && c.commandId !in core.idempotency.commands && c.symbolId in core.books
    && ValidatePlace(c, core.books[c.symbolId].config, core.idempotency).None?
    && PlaceRejection(core.books[c.symbolId], c).None?
  }

  lemma AcceptedIff(core: Core, c: PlaceOrderCommand)
    requires CoreInv(core)
    ensures Acceptable(core, c) <==> IsAccepted(CoreStep(core, Place(c)).events)
    ensures Acceptable(core, c) <==> Accepting(core, c, CoreStep(core, Place(c)))
  {
    hide CoreInv, ValidSymbolPrice, ValidSymbolQuantity, MatchOf, Insert, LevelLots, PlaceRejection, SaneQuantities,
      RejectionIn, Summary, ProcessPlace;
    PlaceCases(core, c);
    CoreSane(core);
    if c.symbolId in core.books {
      BookSaneAt(core, c.symbolId);
      PlaceEvents(core.books[c.symbolId], core.sequences, c);
    }
  }

  /** The lots that an order can reach in the book when it arrives. */
  ghost function Reachable(core: Core, c: PlaceOrderCommand): nat
    requires c.symbolId in core.books
  {
    CrossingLots(c.side.Opposite(), core.books[c.symbolId].SideQueue(c.side.Opposite()), MatchLimit(c))
  }

  /** The lots that an order takes: as many as it wants and can reach, if it is accepted. */
  ghost function Taken(core: Core, c: PlaceOrderCommand): nat {
    if Acceptable(core, c) then Min(c.quantity, Reachable(core, c)) else 0
  }

  /** Those of them that its own user offers. */
  ghost function OwnTaken(core: Core, c: PlaceOrderCommand): (own: nat)
    ensures own <= Taken(core, c)
  {
    if Acceptable(core, c) then OwnLots(core.books[c.symbolId].SideQueue(c.side.Opposite()), Taken(core, c), c.userId) else 0
  }

  lemma LeftOver(core: Core, c: PlaceOrderCommand)
    requires CoreInv(core) && Accepting(core, c, CoreStep(core, Place(c)))
    ensures Taken(core, c) == Min(c.quantity, Reachable(core, c))
    ensures MatchOf(core.books[c.symbolId], core.sequences, c).taker.remaining == c.quantity - Taken(core, c)
  {
    hide CoreSpec.Process, CoreInv, SaneQuantities, PlaceRejection, ProcessPlace, Match, CrossingLots, ValidatePlace;
    AcceptedIff(core, c);
    var book, opp := core.books[c.symbolId], c.side.Opposite();
    MatchConserves(book.config.symbolId, opp, book.SideQueue(opp), Taker(c.orderId, MatchLimit(c), c.quantity, c.quantity),
                   NextEvent(core.sequences), book.lastTradePrice);
  }

  lemma BookSaneAt(core: Core, id: nat)
    requires CoreInv(core) && id in core.books
    ensures SaneQuantities(core.books[id].bids) && SaneQuantities(core.books[id].asks)
  {
    CoreSane(core);
  }

  lemma PlaceEvents(book: Book, s: SequenceState, c: PlaceOrderCommand)
    requires SaneQuantities(book.bids) && SaneQuantities(book.asks)
    ensures var r := ProcessPlace(book, s, c);
            if PlaceRejection(book, c).Some? then r.book == book && |r.events| == 1 && r.events[0].OrderRejected?
                                                  && !IsAccepted(r.events)
            else IsAccepted(r.events)
  {
    hide MatchOf, Insert, LevelLots, PlaceRejection, SaneQuantities;
    var r := ProcessPlace(book, s, c);
    if PlaceRejection(book, c).None? { assert r.events[0].OrderAccepted?; }
  }

  // ---------- Booking an accepted order ----------

  /** The pending metadata stands for the command: same owner, side and market, and at least its quantity open. */
  ghost predicate StandsFor(md: Metadata, c: PlaceOrderCommand) {
    && md.orderId == c.orderId && md.marketId == c.symbolId && md.userId == c.userId && md.side == c.side
    && c.quantity <= md.remaining && Standing(md)
  }

  lemma FacingBook(core: Core, c: PlaceOrderCommand, l: Ledger)
    requires StoreOk(core, l.metadata) && LedgerOk(l) && l.pending.Some? && StandsFor(l.pending.value, c)
    requires c.symbolId in core.books && c.orderId !in core.idempotency.orderIds
    ensures Facing(l, core.books[c.symbolId].SideQueue(c.side.Opposite()), c.side.Opposite(), c.symbolId, c.quantity)
  {
    hide LedgerOk, Standing, Covers, Sorted, SaneQuantities, ValidSymbolPrice;
    var book, opp := core.books[c.symbolId], c.side.Opposite();
    assert BookOk(book, c.symbolId, core.idempotency);
    var q := book.SideQueue(opp);
    forall i | 0 <= i < |q| ensures q[i].orderId != c.orderId { assert q[i] in q; }
  }

  /** Acceptance and book deltas leave the ledger alone. */
  lemma BookFramed(l: Ledger, accepted: EngineEvent, events: seq<EngineEvent>, tail: seq<EngineEvent>, marks: Marks,
                   kind: CommandKind)
    requires accepted.OrderAccepted? && (tail == [] || (|tail| == 1 && tail[0].OrderBookDelta?))
    ensures BookAll(l, [accepted] + events + tail, marks, kind).ledger == BookAll(l, events, marks, kind).ledger
  {
    hide BookTrade;
    assert ([accepted] + events + tail)[1..] == events + tail;
    BookAppend(l, events, tail, marks, kind);
    if tail != [] { assert tail[1..] == []; }
  }

  lemma MatchFramed(book: Book, s: SequenceState, c: PlaceOrderCommand, l: Ledger, marks: Marks, kind: CommandKind)
    requires SaneQuantities(book.bids) && SaneQuantities(book.asks) && PlaceRejection(book, c).None?
    ensures BookAll(l, ProcessPlace(book, s, c).events, marks, kind).ledger
            == BookAll(l, MatchOf(book, s, c).events, marks, kind).ledger
  {
    hide BookAll, MatchOf, PlaceRejection, SaneQuantities, Insert, LevelLots;
    var events, m := ProcessPlace(book, s, c).events, MatchOf(book, s, c);
    var tail := events[1 + |m.events|..];
    assert events == [events[0]] + m.events + tail;
    BookFramed(l, events[0], m.events, tail, marks, kind);
  }

  /** The ledger follows an accepted order's match. */
  lemma AcceptedBooked(core: Core, c: PlaceOrderCommand, l: Ledger, marks: Marks, kind: CommandKind)
    requires StoreOk(core, l.metadata) && LedgerOk(l) && l.pending.Some? && StandsFor(l.pending.value, c)
    requires Accepting(core, c, CoreStep(core, Place(c)))
    ensures var book, opp := core.books[c.symbolId], c.side.Opposite();
            var m := MatchOf(book, core.sequences, c);
            && m.taker.remaining <= c.quantity
            && Follows(l, BookAll(l, CoreStep(core, Place(c)).events, marks, kind).ledger, book.SideQueue(opp), m.queue,
                       c.symbolId, c.quantity - m.taker.remaining)
  {
    hide CoreInv, Covered, MetadataOk, LedgerOk, Follows, Match, BookAll, ProcessPlace, PlaceRejection, SaneQuantities, CoreSpec.Process;
    var book, opp := core.books[c.symbolId], c.side.Opposite();
    FacingBook(core, c, l);
    MatchFramed(book, core.sequences, c, l, marks, kind);
    ConfigOf(core, c.symbolId);
    MatchBooked(l, c.symbolId, opp, book.SideQueue(opp), Taker(c.orderId, MatchLimit(c), c.quantity, c.quantity),
                NextEvent(core.sequences), book.lastTradePrice, marks, kind);
  }

  lemma ConfigOf(core: Core, id: nat)
    requires CoreInv(core) && id in core.books
    ensures core.books[id].config.symbolId == id
  {
  }

  // ---------- Completed orders ----------

  lemma {:induction false} CompletedAppend(a: seq<EngineEvent>, b: seq<EngineEvent>)
    ensures Completed(a + b) == Completed(a) + Completed(b)
  {
    if a == [] {
      assert a + b == b;
    } else {
      assert (a + b)[1..] == a[1..] + b;
      CompletedAppend(a[1..], b);
    }
  }

  lemma FillCompletes(symbolId: nat, maker: OrderSnapshot, taker: Taker, fill: nat, total: nat, s: SequenceState)
    requires fill <= maker.remaining <= maker.original && fill <= taker.remaining <= taker.original
    ensures Completed(FillEvents(symbolId, maker, taker, fill, total, s))
            == (if fill == maker.remaining then {maker.orderId} else {})
               + (if fill == taker.remaining then {taker.orderId} else {})
  {
    var e := FillEvents(symbolId, maker, taker, fill, total, s);
    assert e == [e[0]] + ([e[1]] + ([e[2]] + ([e[3]] + [])));
    CompletedAppend([e[0]], [e[1]] + ([e[2]] + ([e[3]] + [])));
    CompletedAppend([e[1]], [e[2]] + ([e[3]] + []));
    CompletedAppend([e[2]], [e[3]] + []);
    CompletedAppend([e[3]], []);
    OneCompleted(e[0]);
    OneCompleted(e[1]);
    OneCompleted(e[2]);
    OneCompleted(e[3]);
  }

  lemma OneCompleted(e: EngineEvent)
    ensures Completed([e]) == if e.OrderFilled? || e.OrderCancelled? then {e.orderId} else {}
    ensures Completed([]) == {}
  {
    assert [e][1..] == [];
  }

  /** A match completes exactly the makers that are gone from the queue, and the taker exactly if nothing of it is left. */
  lemma {:induction false} MatchCompletes(symbolId: nat, side: Side, q: Queue, taker: Taker, s: SequenceState,
                                          last: Option<int>)
    requires SaneQuantities(q) && taker.remaining <= taker.original && UniqueIds(q) && !HasId(q, taker.orderId)
    ensures var m := Match(symbolId, side, q, taker, s, last);
            && (forall id <- Completed(m.events) :: !HasId(m.queue, id) && (HasId(q, id) || id == taker.orderId))
            && (forall id :: HasId(q, id) && !HasId(m.queue, id) ==> id in Completed(m.events))
            && (taker.orderId in Completed(m.events) <==> taker.remaining > 0 && m.taker.remaining == 0)
    decreases |q| + taker.remaining
  {
    hide LevelLots, FillEvents, SaneQuantities, Suffix, UniqueIds, HasId, Completed, ConsumeFront;
    if Matchable(side, q, taker) {
      var q', taker', fill := FrontQueue(q, taker), FrontTaker(q, taker), FrontFill(q, taker);
      MatchUnfolds(symbolId, side, q, taker, s, last);
      var e := FillEvents(symbolId, q[0], taker, fill, LevelLots(q, q[0].price) - fill, s);
      var rest := Match(symbolId, side, q', taker', AfterFill(s), Some(q[0].price));
      FrontIds(q, fill);
      MatchCompletes(symbolId, side, q', taker', AfterFill(s), Some(q[0].price));
      MatchLeavesSuffix(symbolId, side, q', taker', AfterFill(s), Some(q[0].price));
      FillCompletes(symbolId, q[0], taker, fill, LevelLots(q, q[0].price) - fill, s);
      CompletedAppend(e, rest.events);
      SuffixIds(rest.queue, q', taker.orderId);
      SuffixIds(rest.queue, q', q[0].orderId);
    } else {
      OneCompleted(OrderFilled(0, 0, 0));
    }
  }

  /** The ids in a queue after its front was filled. */
  lemma FrontIds(q: Queue, fill: nat)
    requires q != [] && fill <= q[0].remaining && UniqueIds(q)
    ensures HasId(q, q[0].orderId) && UniqueIds(ConsumeFront(q, fill))
    ensures fill == q[0].remaining ==> !HasId(ConsumeFront(q, fill), q[0].orderId)
    ensures forall id :: HasId(ConsumeFront(q, fill), id) ==> HasId(q, id)
    ensures forall id :: HasId(q, id) ==> HasId(ConsumeFront(q, fill), id) || (fill == q[0].remaining && id == q[0].orderId)
  {
    hide HasId, UniqueIds;
    ConsumedUnique(q, fill);
    FrontHere(q);
    if fill == q[0].remaining { FrontGone(q); }
    forall id ensures HasId(ConsumeFront(q, fill), id) ==> HasId(q, id) { ConsumedIds(q, fill, id); }
    forall id | HasId(q, id) ensures HasId(ConsumeFront(q, fill), id) || (fill == q[0].remaining && id == q[0].orderId) {
      KeptIds(q, fill, id);
    }
  }

  /** Filling the front leaves every order in the queue but, if it is filled up, the front. */
  lemma KeptIds(q: Queue, fill: nat, id: nat)
    requires q != [] && fill <= q[0].remaining && HasId(q, id)
    ensures HasId(ConsumeFront(q, fill), id) || (fill == q[0].remaining && id == q[0].orderId)
  {
    var q' := ConsumeFront(q, fill);
    var i :| 0 <= i < |q| && q[i].orderId == id;
    if fill < q[0].remaining { assert q'[i].orderId == id; } else if i > 0 { assert q'[i - 1].orderId == id; }
  }

  lemma FrontHere(q: Queue)
    requires q != []
    ensures HasId(q, q[0].orderId)
  {
  }

  lemma FrontGone(q: Queue)
    requires q != [] && UniqueIds(q)
    ensures !HasId(q[1..], q[0].orderId)
  {
  }

  lemma PlaceCompletes(book: Book, s: SequenceState, c: PlaceOrderCommand)
    requires SaneQuantities(book.bids) && SaneQuantities(book.asks) && PlaceRejection(book, c).None?
    ensures Completed(ProcessPlace(book, s, c).events) == Completed(MatchOf(book, s, c).events)
  {
    hide MatchOf, PlaceRejection, SaneQuantities, Insert, LevelLots, Completed;
    var events, m := ProcessPlace(book, s, c).events, MatchOf(book, s, c);
    var tail := events[1 + |m.events|..];
    assert events == [events[0]] + m.events + tail;
    CompletedAppend([events[0]] + m.events, tail);
    CompletedAppend([events[0]], m.events);
    OneCompleted(events[0]);
    if tail != [] { assert tail == [tail[0]]; OneCompleted(tail[0]); }
  }

  // ---------- The store after an accepted order ----------

  /** What the steps around an accepted order establish, as facts about queues and maps. */
  ghost predicate Matched(core: Core, c: PlaceOrderCommand, before: map<nat, Metadata>, after: map<nat, Metadata>,
                          q: Queue, left: Queue, gone: set<nat>)
  {
    && Covers(before, q, c.symbolId) && Covers(after, left, c.symbolId)
    && after.Keys == before.Keys && before.Keys <= core.idempotency.orderIds && c.orderId !in core.idempotency.orderIds
    && (forall id <- before :: !HasId(q, id) ==> after[id] == before[id])
    && (forall id <- gone :: !HasId(left, id) && (HasId(q, id) || id == c.orderId))
  }

  /** The opposing queue stays covered. */
  lemma LeftCovered(core: Core, c: PlaceOrderCommand, before: map<nat, Metadata>, after: map<nat, Metadata>, q: Queue,
                    left: Queue, gone: set<nat>, stored: map<nat, Metadata>)
    requires Matched(core, c, before, after, q, left, gone)
    requires stored == after || (c.orderId in stored && stored == after[c.orderId := stored[c.orderId]])
    ensures Covers(stored - gone, left, c.symbolId)
  {
    hide Describes;
    forall o <- left ensures o.orderId in stored - gone && (stored - gone)[o.orderId] == after[o.orderId] {
      var i :| 0 <= i < |left| && left[i] == o;
      assert HasId(left, o.orderId);
    }
  }

  /** A queue none of whose ids are in the opposing queue stays covered. */
  lemma ApartCovered(core: Core, c: PlaceOrderCommand, before: map<nat, Metadata>, after: map<nat, Metadata>, q: Queue,
                     left: Queue, gone: set<nat>, stored: map<nat, Metadata>, other: Queue, marketId: nat)
    requires Matched(core, c, before, after, q, left, gone) && Covers(before, other, marketId)
    requires stored == after || (c.orderId in stored && stored == after[c.orderId := stored[c.orderId]])
    requires forall o <- other :: !HasId(q, o.orderId)
    ensures Covers(stored - gone, other, marketId)
  {
    hide Describes, HasId;
    forall o <- other ensures o.orderId in stored - gone && (stored - gone)[o.orderId] == before[o.orderId] {
      assert o.orderId in before && o.orderId != c.orderId;
    }
  }

  /** Covered queues of different markets share no ids. */
  lemma MarketsApart(metadata: map<nat, Metadata>, a: Queue, m: nat, b: Queue, n: nat)
    requires Covers(metadata, a, m) && Covers(metadata, b, n) && m != n
    ensures forall o <- b :: !HasId(a, o.orderId)
  {
    forall o <- b ensures !HasId(a, o.orderId) {
      forall i | 0 <= i < |a| ensures a[i].orderId != o.orderId { assert a[i] in a; }
    }
  }

  /** A new order covered by its own metadata joins a covered queue. */
  lemma InsertCovered(metadata: map<nat, Metadata>, side: Side, q: Queue, o: OrderSnapshot, marketId: nat)
    requires Covers(metadata, q, marketId) && Covers(metadata, [o], marketId)
    ensures Covers(metadata, Insert(side, q, o), marketId)
  {
    hide Describes;
    assert o in [o];
    forall x <- Insert(side, q, o) ensures x.orderId in metadata && Describes(metadata[x.orderId], x, marketId) {
      InsertMember(side, q, o, x);
    }
  }

  lemma SidesApart(core: Core, id: nat, side: Side)
    requires CoreInv(core) && id in core.books
    ensures var book := core.books[id];
            && UniqueIds(book.SideQueue(side.Opposite()))
            && forall o <- book.SideQueue(side) :: !HasId(book.SideQueue(side.Opposite()), o.orderId)
  {
    hide Sorted, SaneQuantities, ValidSymbolPrice, Remembered;
    var book := core.books[id];
    assert BookOk(book, id, core.idempotency);
    var a, b := book.SideQueue(side), book.SideQueue(side.Opposite());
    forall o <- a ensures !HasId(b, o.orderId) {
      forall i | 0 <= i < |b| ensures b[i].orderId != o.orderId { assert b[i] in b; }
    }
  }

  /** What the match of an accepted order leaves, with what its events complete. */
  lemma AcceptedMatched(core: Core, c: PlaceOrderCommand, l: Ledger, l': Ledger)
    requires StoreOk(core, l.metadata) && Accepting(core, c, CoreStep(core, Place(c)))
    requires var book, m := core.books[c.symbolId], MatchOf(core.books[c.symbolId], core.sequences, c);
             m.taker.remaining <= c.quantity
             && Follows(l, l', book.SideQueue(c.side.Opposite()), m.queue, c.symbolId, c.quantity - m.taker.remaining)
    ensures var book, m := core.books[c.symbolId], MatchOf(core.books[c.symbolId], core.sequences, c);
            var gone := Completed(CoreStep(core, Place(c)).events);
            && Matched(core, c, l.metadata, l'.metadata, book.SideQueue(c.side.Opposite()), m.queue, gone)
            && (c.orderId in gone <==> c.quantity > 0 && m.taker.remaining == 0)
            && (forall id :: HasId(book.SideQueue(c.side.Opposite()), id) && !HasId(m.queue, id) ==> id in gone)
  {
    hide CoreInv, Covers, MetadataOk, LedgerOk, Match, ProcessPlace, PlaceRejection, SaneQuantities, CoreSpec.Process, Net,
      Completed, HasId;
    var book, opp := core.books[c.symbolId], c.side.Opposite();
    SidesApart(core, c.symbolId, c.side);
    FreshId(core, c.symbolId, opp, c.orderId);
    PlaceCompletes(book, core.sequences, c);
    MatchCompletes(book.config.symbolId, opp, book.SideQueue(opp), Taker(c.orderId, MatchLimit(c), c.quantity, c.quantity),
                   NextEvent(core.sequences), book.lastTradePrice);
  }

  lemma FreshId(core: Core, id: nat, side: Side, orderId: nat)
    requires CoreInv(core) && id in core.books && orderId !in core.idempotency.orderIds
    ensures !HasId(core.books[id].SideQueue(side), orderId)
  {
    hide BookInv;
    var q := core.books[id].SideQueue(side);
    assert BookOk(core.books[id], id, core.idempotency);
    forall i | 0 <= i < |q| ensures q[i].orderId != orderId { assert q[i] in q; }
  }

  /** The pending metadata is what a resting remainder needs. */
  ghost predicate WholeOrder(md: Metadata, c: PlaceOrderCommand) {
    md.original == c.quantity && md.remaining == c.quantity && !md.reduceOnly
  }

  /** How metadata is stored after an accepted order: with the order's own entry if the order can rest. */
  ghost predicate StoredFor(c: PlaceOrderCommand, l: Ledger, l': Ledger, stored: map<nat, Metadata>) {
    && l.pending.Some? && l'.pending.Some?
    && (stored == l'.metadata || stored == l'.metadata[c.orderId := l'.pending.value])
    && (CanRest(c) ==> stored == l'.metadata[c.orderId := l'.pending.value] && WholeOrder(l.pending.value, c))
  }

  /** Every queue of the addressed book stays covered. */
  lemma BookCovered(core: Core, c: PlaceOrderCommand, l: Ledger, l': Ledger, stored: map<nat, Metadata>)
    requires StoreOk(core, l.metadata) && Accepting(core, c, CoreStep(core, Place(c)))
    requires l.pending.Some? && StandsFor(l.pending.value, c) && StoredFor(c, l, l', stored)
    requires var book, m := core.books[c.symbolId], MatchOf(core.books[c.symbolId], core.sequences, c);
             m.taker.remaining <= c.quantity
             && Follows(l, l', book.SideQueue(c.side.Opposite()), m.queue, c.symbolId, c.quantity - m.taker.remaining)
    ensures var r := CoreStep(core, Place(c));
            && Covers(stored - Completed(r.events), r.core.books[c.symbolId].bids, c.symbolId)
            && Covers(stored - Completed(r.events), r.core.books[c.symbolId].asks, c.symbolId)
  {
    hide CoreInv, Covers, MetadataOk, LedgerOk, MatchOf, PlaceRejection, SaneQuantities, CoreSpec.Process, Net,
      Completed, HasId, Matched, Standing, Insert, LevelLots;
    var book, opp := core.books[c.symbolId], c.side.Opposite();
    var m, r := MatchOf(book, core.sequences, c), CoreStep(core, Place(c));
    var q, own, gone := book.SideQueue(opp), book.SideQueue(c.side), Completed(r.events);
    AcceptedMatched(core, c, l, l');
    LeftCovered(core, c, l.metadata, l'.metadata, q, m.queue, gone, stored);
    SidesApart(core, c.symbolId, c.side);
    ApartCovered(core, c, l.metadata, l'.metadata, q, m.queue, gone, stored, own, c.symbolId);
    if CanRest(c) && m.taker.remaining > 0 {
      var o := RestingSnapshot(c, m.taker.remaining, core.sequences.nextSequence);
      RestingCovered(stored - gone, o, c.symbolId);
      InsertCovered(stored - gone, c.side, own, o, c.symbolId);
    }
  }

  lemma RestingCovered(metadata: map<nat, Metadata>, o: OrderSnapshot, marketId: nat)
    requires o.orderId in metadata && Describes(metadata[o.orderId], o, marketId)
    ensures Covers(metadata, [o], marketId)
  {
  }

  /** The store stays in step with the core through an accepted order. */
  lemma StoreKept(core: Core, c: PlaceOrderCommand, l: Ledger, l': Ledger, stored: map<nat, Metadata>)
    requires StoreOk(core, l.metadata) && Accepting(core, c, CoreStep(core, Place(c)))
    requires l.pending.Some? && StandsFor(l.pending.value, c) && StoredFor(c, l, l', stored)
    requires var book, m := core.books[c.symbolId], MatchOf(core.books[c.symbolId], core.sequences, c);
             m.taker.remaining <= c.quantity
             && Follows(l, l', book.SideQueue(c.side.Opposite()), m.queue, c.symbolId, c.quantity - m.taker.remaining)
    ensures var r := CoreStep(core, Place(c));
            StoreOk(r.core, stored - Completed(r.events))
  {
    hide CoreInv, Covers, MatchOf, PlaceRejection, SaneQuantities, CoreSpec.Process, Net, ProcessPlace, RisksOk,
      Completed, HasId, Matched, Standing, Insert, LevelLots;
    var book, opp := core.books[c.symbolId], c.side.Opposite();
    var m, r := MatchOf(book, core.sequences, c), CoreStep(core, Place(c));
    BookCovered(core, c, l, l', stored);
    AcceptedMatched(core, c, l, l');
    forall k <- r.core.books
      ensures Covers(stored - Completed(r.events), r.core.books[k].bids, k)
              && Covers(stored - Completed(r.events), r.core.books[k].asks, k)
    {
      if k != c.symbolId {
        var other := core.books[k];
        MarketsApart(l.metadata, book.SideQueue(opp), c.symbolId, other.bids, k);
        MarketsApart(l.metadata, book.SideQueue(opp), c.symbolId, other.asks, k);
        ApartCovered(core, c, l.metadata, l'.metadata, book.SideQueue(opp), m.queue, Completed(r.events), stored,
                     other.bids, k);
        ApartCovered(core, c, l.metadata, l'.metadata, book.SideQueue(opp), m.queue, Completed(r.events), stored,
                     other.asks, k);
      }
    }
  }
}
