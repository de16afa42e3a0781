/**
  Relations between accounts before and after, and the outputs between them, that hold across everything that books trades:
  a relation that composes and holds across single trades holds across matches, deleveraging, liquidations and orders.
 */
module Bookings {
  import opened Types
  import opened BookSpec
  import opened MatchLaws
  import opened Queues
  import BookLaws
  import opened CoreSpec
  import opened CoreLaws
  import opened Accounting
  import opened LedgerSpec
  import opened LedgerLaws
  import opened RuntimeSpec
  import opened StoreLaws
  import opened LiquidationLaws
  import opened RuntimeLaws
  import opened RuntimeSteps
  import opened ReservationLaws

  // ---------- Relations between accounts ----------

  datatype Accounts = Accounts(positions: map<Key, Position>, risks: map<Key, Risk>, marks: Marks)

  type Bearing = (Accounts, Accounts, seq<Output>) -> bool

  function AccountsOf(l: Ledger, marks: Marks): Accounts {
    Accounts(l.positions, l.risks, marks)
  }

  function AccountsIn(st: State): Accounts {
    Accounts(st.positions, st.risks, st.marks)
  }

  ghost predicate Joins(rel: Bearing) {
    forall a, b, c, x, y :: rel(a, b, x) && rel(b, c, y) ==> rel(a, c, x + y)
  }

  /** Outputs that tell of no change to any account. */
  predicate Quiet(o: Output) {
    o.ReservationReleased? || o.CancelReleased? || o.OrderExpired? || o.LiquidationStarted? || o.LiquidationCompleted?
    || o.RateUpdated?
  }

  ghost predicate AcrossQuiet(rel: Bearing) {
    forall a, x :: (forall o <- x :: Quiet(o)) ==> rel(a, a, x)
  }

  /** A reservation never owes. */
  ghost predicate Solvent(md: Metadata) {
    md.reserved > 0 ==> md.remainingReserved >= 0
  }

  /** A trade that the ledger can book: a known order and the pending one, on opposite sides of a market, at a positive price. */
  ghost predicate Tradable(l: Ledger, o: OrderSnapshot, fill: nat, price: int, marketId: nat) {
    && LedgerOk(l) && l.pending.Some? && l.pending.value.orderId != o.orderId
    && o.orderId in l.metadata && Names(l.metadata[o.orderId], o, marketId)
    && l.pending.value.marketId == marketId && l.pending.value.side == o.side.Opposite()
    && 0 < fill <= o.remaining && fill <= l.pending.value.remaining
    && price > 0 && Solvent(l.metadata[o.orderId]) && Solvent(l.pending.value)
  }

  lemma TradableParts(l: Ledger, o: OrderSnapshot, fill: nat, price: int, marketId: nat)
    requires Tradable(l, o, fill, price, marketId)
    ensures l.pending.Some? && l.pending.value.orderId != o.orderId
    ensures o.orderId in l.metadata && Names(l.metadata[o.orderId], o, marketId)
    ensures l.pending.value.marketId == marketId && l.pending.value.side == o.side.Opposite()
  {
    hide LedgerOk, Solvent, Names;
  }

  ghost predicate TradeBears(rel: Bearing, l: Ledger, o: OrderSnapshot, fill: nat, price: int, marks: Marks, kind: CommandKind)
  {
    l.pending.Some? ==>
      var b := BookTrade(l, o.orderId, l.pending.value.orderId, fill, price, marks, kind);
      rel(AccountsOf(l, marks), AccountsOf(b.ledger, marks), b.outputs)
  }

  ghost predicate AcrossTrades(rel: Bearing) {
    forall l: Ledger, o: OrderSnapshot, fill: nat, price: int, marketId: nat, marks: Marks, kind: CommandKind ::
      Tradable(l, o, fill, price, marketId) ==> TradeBears(rel, l, o, fill, price, marks, kind)
  }

  ghost predicate Bears(rel: Bearing) {
    Joins(rel) && AcrossQuiet(rel) && AcrossTrades(rel)
  }

  lemma JoinsUp(rel: Bearing, a: Accounts, b: Accounts, c: Accounts, x: seq<Output>, y: seq<Output>)
    requires Bears(rel) && rel(a, b, x) && rel(b, c, y)
    ensures rel(a, c, x + y)
  {
    hide AcrossQuiet, AcrossTrades;
  }

  lemma StaysQuiet(rel: Bearing, a: Accounts, x: seq<Output>)
    requires Bears(rel) && forall o <- x :: Quiet(o)
    ensures rel(a, a, x)
  {
    hide Joins, AcrossTrades;
  }

  lemma Traded(rel: Bearing, l: Ledger, o: OrderSnapshot, fill: nat, price: int, marketId: nat, marks: Marks, kind: CommandKind)
    requires Bears(rel) && Tradable(l, o, fill, price, marketId)
    ensures TradeBears(rel, l, o, fill, price, marks, kind)
  {
    hide Joins, AcrossQuiet, TradeBears;
  }

  // ---------- A match ----------

  ghost predicate Priced(q: Queue) {
    forall o <- q :: o.price > 0
  }

  /** The pending order may trade against the queue. */
  ghost predicate Ready(l: Ledger, q: Queue, side: Side, marketId: nat, open: nat) {
    Facing(l, q, side, marketId, open) && Priced(q) && Solvent(l.pending.value)
  }

  lemma FrontTradable(l: Ledger, q: Queue, side: Side, marketId: nat, open: nat, fill: nat)
    requires Ready(l, q, side, marketId, open) && q != [] && 0 < fill <= q[0].remaining && fill <= open
    ensures Tradable(l, q[0], fill, q[0].price, marketId)
  {
    hide RisksOk;
    var o := q[0];
    assert o in q;
    assert o.orderId != l.pending.value.orderId;
  }

  lemma PendingSolvent(l: Ledger, makerId: nat, fill: nat, price: int, marks: Marks, kind: CommandKind)
    requires l.pending.Some? && makerId != l.pending.value.orderId
    ensures var p := BookTrade(l, makerId, l.pending.value.orderId, fill, price, marks, kind).ledger.pending;
            p.Some? && Solvent(p.value)
  {
    hide ApplyFill, RiskOf, RealizedPnl, Settlements;
    MakerAside(l, makerId, fill, price, marks);
  }

  lemma MakerAside(l: Ledger, orderId: nat, fill: nat, price: int, marks: Marks)
    requires l.pending.Some? && l.pending.value.orderId != orderId
    ensures BookSide(l, orderId, fill, price, marks).ledger.pending == l.pending
  {
    hide ApplyFill, RiskOf, AllocateMargin, RealizedPnl;
  }

  lemma FrontReady(l: Ledger, symbolId: nat, side: Side, q: Queue, taker: Taker, marks: Marks, kind: CommandKind)
    requires SaneQuantities(q) && taker.remaining <= taker.original && Matchable(side, q, taker)
    requires Ready(l, q, side, symbolId, taker.remaining) && l.pending.value.orderId == taker.orderId
    ensures var q', taker', l' := FrontQueue(q, taker), FrontTaker(q, taker), BookFront(l, q, taker, marks, kind).ledger;
            Ready(l', q', side, symbolId, taker'.remaining) && l'.pending.value.orderId == taker.orderId
  {
    hide BookTrade, Follows, Facing, SaneQuantities;
    FrontFollows(l, symbolId, side, q, taker, marks, kind);
    NotPending(l, q, side, symbolId, taker.remaining);
    PendingSolvent(l, q[0].orderId, FrontFill(q, taker), q[0].price, marks, kind);
    forall o <- FrontQueue(q, taker) ensures o.price > 0 { assert o in q || o.price == q[0].price; }
  }

  lemma NotPending(l: Ledger, q: Queue, side: Side, marketId: nat, open: nat)
    requires Facing(l, q, side, marketId, open)
    ensures l.pending.Some? && LedgerOk(l) && open <= l.pending.value.remaining && forall o <- q :: o.orderId != l.pending.value.orderId
  {
    hide LedgerOk, Covers, UniqueIds;
    forall o | o in q ensures o.orderId != l.pending.value.orderId { var i :| 0 <= i < |q| && q[i] == o; }
  }

  lemma {:induction false} MatchBears(rel: Bearing, l: Ledger, symbolId: nat, side: Side, q: Queue, taker: Taker, s: SequenceState,
                                      last: Option<int>, marks: Marks, kind: CommandKind)
    requires Bears(rel) && SaneQuantities(q) && taker.remaining <= taker.original
    requires Ready(l, q, side, symbolId, taker.remaining) && l.pending.value.orderId == taker.orderId
    ensures var b := BookAll(l, Match(symbolId, side, q, taker, s, last).events, marks, kind);
            rel(AccountsOf(l, marks), AccountsOf(b.ledger, marks), b.outputs)
    decreases |q| + taker.remaining
  {
    hide LevelLots, BookTrade, Ready, SaneQuantities, BookAll, Bears, Tradable;
    if Matchable(side, q, taker) {
      var q', taker', b := FrontQueue(q, taker), FrontTaker(q, taker), BookFront(l, q, taker, marks, kind);
      MatchUnfolds(symbolId, side, q, taker, s, last);
      BookUnfolds(l, symbolId, side, q, taker, s, last, marks, kind);
      FrontTradable(l, q, side, symbolId, taker.remaining, FrontFill(q, taker));
      ReadyPending(l, q, side, symbolId, taker.remaining);
      Traded(rel, l, q[0], FrontFill(q, taker), q[0].price, symbolId, marks, kind);
      FrontReady(l, symbolId, side, q, taker, marks, kind);
      ReadyPending(b.ledger, q', side, symbolId, taker'.remaining);
      MatchBears(rel, b.ledger, symbolId, side, q', taker', AfterFill(s), Some(q[0].price), marks, kind);
      var c := BookAll(b.ledger, Match(symbolId, side, q', taker', AfterFill(s), Some(q[0].price)).events, marks, kind);
      JoinsUp(rel, AccountsOf(l, marks), AccountsOf(b.ledger, marks), AccountsOf(c.ledger, marks), b.outputs, c.outputs);
    } else {
      StaysQuiet(rel, AccountsOf(l, marks), []);
      NoBooking(l, marks, kind);
    }
  }

  lemma ReadyPending(l: Ledger, q: Queue, side: Side, marketId: nat, open: nat)
    requires Ready(l, q, side, marketId, open)
    ensures l.pending.Some?
  {
    hide LedgerOk, Covers, UniqueIds;
  }

  lemma ReadyBook(core: Core, c: PlaceOrderCommand, l: Ledger)
    requires StoreOk(core, l.metadata) && LedgerOk(l) && l.pending.Some? && StandsFor(l.pending.value, c) && Solvent(l.pending.value)
    requires c.symbolId in core.books && c.orderId !in core.idempotency.orderIds
    ensures Ready(l, core.books[c.symbolId].SideQueue(c.side.Opposite()), c.side.Opposite(), c.symbolId, c.quantity)
  {
    hide Facing, LedgerOk, Covered, MetadataOk, StandsFor;
    FacingBook(core, c, l);
    PricesPositive(core, c.symbolId);
  }

  lemma PricesPositive(core: Core, id: nat)
    requires CoreInv(core) && id in core.books
    ensures Priced(core.books[id].bids) && Priced(core.books[id].asks)
  {
    assert BookLaws.BookInv(core.books[id]);
  }

  /** Across the booking of whatever the core answers to an order. */
  lemma BookedBears(rel: Bearing, core: Core, c: PlaceOrderCommand, l: Ledger, marks: Marks, kind: CommandKind)
    requires Bears(rel) && StoreOk(core, l.metadata) && CoreInv(core) && LedgerOk(l)
    requires l.pending.Some? && StandsFor(l.pending.value, c) && Solvent(l.pending.value)
    ensures var b := BookAll(l, CoreStep(core, Place(c)).events, marks, kind);
            rel(AccountsOf(l, marks), AccountsOf(b.ledger, marks), b.outputs)
  {
    hide CoreInv, Covered, MetadataOk, LedgerOk, Match, BookAll, PlaceRejection, SaneQuantities, CoreSpec.Process, Insert,
      LevelLots, ProcessPlace, Standing, Bears, Ready;
    PlaceCases(core, c);
    if Accepting(core, c, CoreStep(core, Place(c))) {
      var book, opp := core.books[c.symbolId], c.side.Opposite();
      ReadyBook(core, c, l);
      ConfigOf(core, c.symbolId);
      MatchBears(rel, l, c.symbolId, opp, book.SideQueue(opp), Taker(c.orderId, MatchLimit(c), c.quantity, c.quantity),
                 NextEvent(core.sequences), book.lastTradePrice, marks, kind);
      FramedWhole(book, core.sequences, c, l, marks, kind);
    } else {
      RefusedBooks(core, CoreStep(core, Place(c)), l, marks, kind);
      RefusedBears(rel, l, CoreStep(core, Place(c)).events, marks, kind);
    }
  }

  lemma RefusedBears(rel: Bearing, l: Ledger, events: seq<EngineEvent>, marks: Marks, kind: CommandKind)
    requires Bears(rel) && |events| == 1 && events[0].OrderRejected?
    ensures rel(AccountsOf(l, marks), AccountsOf(l, marks), BookAll(l, events, marks, kind).outputs)
  {
    hide Find, Bears;
    assert events[1..] == [];
    NoBooking(BookEvent(l, events[0], marks, kind).ledger, marks, kind);
    StaysQuiet(rel, AccountsOf(l, marks), BookAll(l, events, marks, kind).outputs);
  }

  // ---------- Deleveraging ----------

  lemma AdlFillBears(rel: Bearing, l: Ledger, c: Candidate, fill: nat, price: int, marks: Marks)
    requires Bears(rel) && LedgerOk(l) && l.pending.Some? && 0 < fill <= l.pending.value.remaining && price > 0
    requires Solvent(l.pending.value) && l.pending.value.marketId == c.key.marketId
    requires l.pending.value.side == CloseSide(c.position.signed).Opposite()
    ensures var b := AdlFill(l, c, fill, price, marks);
            && rel(AccountsOf(l, marks), AccountsOf(b.ledger, marks), b.outputs)
            && b.ledger.pending.Some? && Solvent(b.ledger.pending.value)
  {
    hide Bears, BookTrade, FreeId, RisksOk, Solvent;
    var taker, side := l.pending.value, CloseSide(c.position.signed);
    var id := FreeId(1, l.metadata.Keys + {taker.orderId});
    var md := Metadata(id, c.key.marketId, c.key.userId, side, fill, fill, true, 0, 0, c.position.leverage);
    var o := OrderSnapshot(id, 0, c.key.userId, c.key.marketId, side, price, fill, fill, 0);
    var l1 := l.(metadata := l.metadata[id := md]);
    NoReservation(md);
    assert Solvent(md) by { Unreserved(md); }
    Traded(rel, l1, o, fill, price, c.key.marketId, marks, AdlKind);
    PendingSolvent(l1, id, fill, price, marks, AdlKind);
  }

  lemma Unreserved(md: Metadata)
    requires md.reserved == 0
    ensures Solvent(md)
  {
  }

  lemma {:induction false} AdlBears(rel: Bearing, l: Ledger, cs: seq<Candidate>, remaining: nat, price: int, marks: Marks)
    requires Bears(rel) && LedgerOk(l) && Lined(l, cs) && remaining <= l.pending.value.remaining
    requires price > 0 && Solvent(l.pending.value)
    ensures var b := AdlFills(l, cs, remaining, price, marks); rel(AccountsOf(l, marks), AccountsOf(b.ledger, marks), b.outputs)
    decreases |cs|
  {
    hide LedgerOk, AdlFill, Net, Bears, Solvent;
    StaysQuiet(rel, AccountsOf(l, marks), []);
    if cs != [] && remaining > 0 {
      var fill: nat := Min(remaining, Abs(cs[0].position.signed));
      assert Opposes(l, cs[0]);
      AdlFilled(l, cs[0], fill, price, marks);
      AdlFillBears(rel, l, cs[0], fill, price, marks);
      var one := AdlFill(l, cs[0], fill, price, marks);
      LinedTail(l, one.ledger, cs, fill);
      AdlBears(rel, one.ledger, cs[1..], remaining - fill, price, marks);
      var rest := AdlFills(one.ledger, cs[1..], remaining - fill, price, marks);
      JoinsUp(rel, AccountsOf(l, marks), AccountsOf(one.ledger, marks), AccountsOf(rest.ledger, marks), one.outputs, rest.outputs);
    }
  }

  lemma DeleverageBears(rel: Bearing, st: State, l: Ledger, q: Liquidation, price: int, before: seq<Output>, was: Accounts)
    requires Bears(rel) && LedgerOk(l) && l.pending.Some? && KeyOf(l.pending.value) == q.key && l.pending.value.remaining >= 0
    requires var signed := PositionAt(l.positions, q.key).signed; signed != 0 ==> l.pending.value.side == CloseSide(signed)
    requires rel(was, AccountsOf(l, st.marks), before) && price > 0 && Solvent(l.pending.value)
    ensures var r := Deleverage(st, l, q, price, before); rel(was, AccountsIn(r.state), r.outputs)
  {
    hide MetadataOk, Standing, Net, AdlFills, AdlCandidates, AvailableLots, Lined, RisksOk, Bears, Solvent;
    var signed := PositionAt(l.positions, q.key).signed;
    var open := if q.key in l.positions then Min(l.pending.value.remaining, Abs(signed)) else 0;
    var cs := AdlCandidates(q.key, signed, l.positions, l.risks);
    var adl := if open > 0 then AdlFills(l, cs, open, price, st.marks) else Booked(l, []);
    var mid, end := AccountsOf(l, st.marks), AccountsOf(adl.ledger, st.marks);
    if open > 0 {
      CandidatesLined(l, q.key, signed);
      AdlBears(rel, l, cs, open, price, st.marks);
    } else {
      StaysQuiet(rel, mid, []);
    }
    var last := [LiquidationCompleted(q.key, Abs(PositionAt(adl.ledger.positions, q.key).signed))];
    StaysQuiet(rel, end, last);
    JoinsUp(rel, was, mid, end, before, adl.outputs);
    JoinsUp(rel, was, end, end, before + adl.outputs, last);
  }

  // ---------- Liquidations, orders, cancels ----------

  lemma DirectBears(rel: Bearing, st: State, q: Liquidation, price: int)
    requires Bears(rel) && RuntimeInv(st) && q.key in st.positions && st.positions[q.key].signed != 0 && price > 0
    ensures var l := LedgerOf(st, Some(LiquidationMetadata(q, st.positions[q.key])));
            var r := Deleverage(st, l, q, price, [LiquidationStarted(q.key)]);
            rel(AccountsIn(st), AccountsIn(r.state), r.outputs)
  {
    hide StoreOk, LedgerOk, Net, StandsFor, Deleverage, Standing, RisksOk, ZeroSum, LiquidationQuantity, Bears, Solvent;
    var p := st.positions[q.key];
    var md := LiquidationMetadata(q, p);
    LiquidationStands(q, p, price);
    StandsStanding(md, LiquidationOrder(q, p.signed, price));
    Unreserved(md);
    PendingLedger(st, md);
    StaysQuiet(rel, AccountsIn(st), [LiquidationStarted(q.key)]);
    DeleverageBears(rel, st, LedgerOf(st, Some(md)), q, price, [LiquidationStarted(q.key)], AccountsIn(st));
  }

  /** Booking an order leaves its metadata without reservation as it was in that respect. */
  lemma StillUnreserved(core: Core, c: PlaceOrderCommand, l: Ledger, marks: Marks, kind: CommandKind)
    requires StoreOk(core, l.metadata) && LedgerOk(l) && l.pending.Some? && StandsFor(l.pending.value, c) && l.pending.value.reserved == 0
    ensures var p := BookAll(l, CoreStep(core, Place(c)).events, marks, kind).ledger.pending; p.Some? && Solvent(p.value)
  {
    hide CoreSpec.Process, StoreOk, LedgerOk, BookAll, StandsFor, Taken, OwnTaken, Net;
    BookedExactly(core, c, l, marks, kind);
  }

  lemma CrossedBears(rel: Bearing, st: State, q: Liquidation, price: int)
    requires Bears(rel) && RuntimeInv(st) && CoreInv(st.core) && q.key in st.positions && st.positions[q.key].signed != 0 && price > 0
    ensures var p := st.positions[q.key];
            var core := CoreStep(st.core, Place(LiquidationOrder(q, p.signed, price)));
            var booked := BookAll(LedgerOf(st, Some(LiquidationMetadata(q, p))), core.events, st.marks, LiquidationKind);
            var settled := Settle(st, core.core, booked.ledger, core.events);
            var r := Deleverage(settled, LedgerOf(settled, booked.ledger.pending), q, price,
                                [LiquidationStarted(q.key)] + booked.outputs);
            rel(AccountsIn(st), AccountsIn(r.state), r.outputs)
  {
    hide CoreSpec.Process, StoreOk, LedgerOk, Net, BookAll, Completed, StandsFor, Deleverage, CoreInv, Standing, RisksOk,
      ZeroSum, LiquidationQuantity, Bears, Solvent, Taken, OwnTaken;
    var p := st.positions[q.key];
    var c, md := LiquidationOrder(q, p.signed, price), LiquidationMetadata(q, p);
    LiquidationStands(q, p, price);
    StandsStanding(md, c);
    Unreserved(md);
    PendingLedger(st, md);
    var l := LedgerOf(st, Some(md));
    var core := CoreStep(st.core, Place(c));
    var booked := BookAll(l, core.events, st.marks, LiquidationKind);
    LiquidationBooked(st.core, c, l, st.marks, LiquidationQuantity(q, p.signed));
    BookedBears(rel, st.core, c, l, st.marks, LiquidationKind);
    StillUnreserved(st.core, c, l, st.marks, LiquidationKind);
    var settled := Settle(st, core.core, booked.ledger, core.events);
    SettledLedger(booked.ledger, Completed(core.events));
    BookShrinks(p.signed, PositionAt(booked.ledger.positions, q.key).signed, Taken(st.core, c) - OwnTaken(st.core, c));
    StaysQuiet(rel, AccountsIn(st), [LiquidationStarted(q.key)]);
    JoinsUp(rel, AccountsIn(st), AccountsIn(st), AccountsIn(settled), [LiquidationStarted(q.key)], booked.outputs);
    DeleverageBears(rel, settled, LedgerOf(settled, booked.ledger.pending), q, price, [LiquidationStarted(q.key)] + booked.outputs,
                    AccountsIn(st));
  }

  lemma LiquidateBears(rel: Bearing, st: State, q: Liquidation)
    requires Bears(rel) && RuntimeInv(st) && CoreInv(st.core)
    ensures rel(AccountsIn(st), AccountsIn(Liquidate(st, q).state), Liquidate(st, q).outputs)
  {
    hide CoreSpec.Process, RuntimeInv, BookAll, Settle, Deleverage, CoreInv, CrossingLiquidity, AvailableLots,
      AdlCandidates, LiquidationPrice, HasTrade, LiquidationMetadata, LiquidationOrder, Bears;
    StaysQuiet(rel, AccountsIn(st), []);
    if MayLiquidate(st, q) {
      var price := LiquidationPrice(q, st.positions[q.key], st.marks);
      if price > 0 {
        DirectBears(rel, st, q, price);
        CrossedBears(rel, st, q, price);
      }
    }
  }

  lemma OrderBears(rel: Bearing, st: State, i: Input, c: PlaceOrderCommand)
    requires Bears(rel) && RuntimeInv(st) && CoreInv(st.core) && i.PlaceInput? && CoreOrder(st, i) == Some(c) && Mappable(c)
    requires RunOrder(st, i, c).Some?
    ensures var r := RunOrder(st, i, c).value; rel(AccountsIn(st), AccountsIn(r.state), r.outputs)
  {
    hide CoreSpec.Process, CoreInv, BookAll, Completed, RuntimeInv, IsAccepted, FilledBy, Mappable, CoreOrder, StandsFor, Bears,
      LedgerOk, StoreOk, RunOrder, OrderStore;
    PlaceStands(st, i, c);
    var md := PlaceMetadata(i);
    StandsStanding(md, c);
    PendingLedger(st, md);
    InvStore(st);
    BookedBears(rel, st.core, c, LedgerOf(st, Some(md)), st.marks, PlaceKind);
    OrderShape(st, i, c);
    var core := CoreStep(st.core, Place(c));
    var b, r := BookAll(LedgerOf(st, Some(md)), core.events, st.marks, PlaceKind), RunOrder(st, i, c).value;
    var report := OrderReport(i, b.ledger, c.orderId, core.events);
    StaysQuiet(rel, AccountsOf(b.ledger, st.marks), report);
    JoinsUp(rel, AccountsIn(st), AccountsOf(b.ledger, st.marks), AccountsOf(b.ledger, st.marks), b.outputs, report);
  }

  lemma CancelBears(rel: Bearing, st: State, c: CancelOrderCommand)
    requires Bears(rel) && RuntimeInv(st) && CoreInv(st.core)
    ensures rel(AccountsIn(st), AccountsIn(CancelOrder(st, c).state), CancelOrder(st, c).outputs)
  {
    hide CoreSpec.Process, CoreInv, RuntimeInv, BookAll, Completed, Bears;
    CancelLaw(st, c);
    CancelCases(st.core, c);
    var core := CoreStep(st.core, Cancel(c));
    if Refusing(st.core, core) {
      RefusedBears(rel, LedgerOf(st, None), core.events, st.marks, CancelKind);
    } else {
      assert core.events[0].OrderCancelled?;
      StaysQuiet(rel, AccountsIn(st), CancelOrder(st, c).outputs);
    }
  }

  // ---------- Everywhere ----------

  ghost predicate AcrossClericalAccounts(rel: Bearing) {
    forall a, b, x :: Clerical(a, b, x) ==> rel(AccountsIn(a), AccountsIn(b), x)
  }

  ghost function Lifted(rel: Bearing): Relation {
    (a: State, b: State, x: seq<Output>) => rel(AccountsIn(a), AccountsIn(b), x)
  }

  lemma Unlifted(rel: Bearing, a: State, b: State, x: seq<Output>)
    ensures Lifted(rel)(a, b, x) <==> rel(AccountsIn(a), AccountsIn(b), x)
  {
  }

  /** A relation that holds across trades and clerical changes holds everywhere. */
  lemma BearsEverywhere(rel: Bearing)
    requires Bears(rel) && AcrossClericalAccounts(rel)
    ensures Everywhere(Lifted(rel))
  {
    hide RuntimeInv, CoreInv, Liquidate, CancelOrder, RunOrder, CoreOrder, Mappable, Bears, Clerical, AccountsIn;
    var up := Lifted(rel);
    forall st ensures up(st, st, []) { StaysQuiet(rel, AccountsIn(st), []); }
    forall a, b, c, x, y | up(a, b, x) && up(b, c, y) ensures up(a, c, x + y) {
      JoinsUp(rel, AccountsIn(a), AccountsIn(b), AccountsIn(c), x, y);
    }
    forall st, q | RuntimeInv(st) && CoreInv(st.core) ensures up(st, Liquidate(st, q).state, Liquidate(st, q).outputs) {
      LiquidateBears(rel, st, q);
    }
    forall st, c | RuntimeInv(st) && CoreInv(st.core) ensures up(st, CancelOrder(st, c).state, CancelOrder(st, c).outputs) {
      CancelBears(rel, st, c);
    }
    forall st, i: Input, c | RuntimeInv(st) && CoreInv(st.core) && i.PlaceInput? && CoreOrder(st, i) == Some(c) && Mappable(c)
      ensures OrderRelated(up, st, i, c)
    {
      if RunOrder(st, i, c).Some? { OrderBears(rel, st, i, c); }
    }
  }
}
