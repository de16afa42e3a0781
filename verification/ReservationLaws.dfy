/** Over any run, every margin reservation is accounted for: settled by trades, released by a cancel, or still held. */
module ReservationLaws {
  import opened Types
  import opened BookSpec
  import opened Queues
  import opened MatchLaws
  import opened CoreSpec
  import opened CoreLaws
  import opened Accounting
  import opened LedgerSpec
  import opened LedgerLaws
  import opened RuntimeSpec
  import opened StoreLaws
  import opened LiquidationLaws
  import opened RuntimeLaws
  import opened RuntimeRuns
  import opened RuntimeSteps
  import RestartLaws

  // ---------- What outputs settle and release ----------

  function SettledBy(settlements: seq<Settlement>, id: nat): int {
    if settlements == [] then 0
    else (if settlements[0].orderId == id then settlements[0].amount else 0) + SettledBy(settlements[1..], id)
  }

  function SettledIn(o: Output, id: nat): int {
    if o.TradeOutput? then SettledBy(o.settlements, id) else 0
  }

  /** The margin that trades settle from an order's reservation. */
  function Settled(outputs: seq<Output>, id: nat): int {
    if outputs == [] then 0 else SettledIn(outputs[0], id) + Settled(outputs[1..], id)
  }

  /** The margin that a cancel releases. */
  function Released(outputs: seq<Output>, id: nat): int {
    if outputs == [] then 0
    else (if outputs[0].CancelReleased? && outputs[0].orderId == id then outputs[0].amount else 0)
         + Released(outputs[1..], id)
  }

  lemma {:induction false} Additive(a: seq<Output>, b: seq<Output>, id: nat)
    ensures Settled(a + b, id) == Settled(a, id) + Settled(b, id)
    ensures Released(a + b, id) == Released(a, id) + Released(b, id)
  {
    if a == [] {
      assert a + b == b;
    } else {
      assert (a + b)[1..] == a[1..] + b;
      Additive(a[1..], b, id);
    }
  }

  /** Outputs that neither settle nor release anything. */
  ghost predicate Still(outputs: seq<Output>) {
    forall id :: Settled(outputs, id) == 0 && Released(outputs, id) == 0
  }

  lemma NoSettlement(id: nat)
    ensures SettledBy([], id) == 0
  {
  }

  lemma {:induction false} StillOutputs(outputs: seq<Output>)
    requires forall o <- outputs :: !o.CancelReleased? && (o.TradeOutput? ==> o.settlements == [])
    ensures Still(outputs)
  {
    hide SettledBy;
    if outputs != [] {
      assert outputs[0] in outputs;
      StillOutputs(outputs[1..]);
      forall id ensures Settled(outputs, id) == 0 && Released(outputs, id) == 0 {
        assert Settled(outputs[1..], id) == 0 && Released(outputs[1..], id) == 0;
        NoSettlement(id);
      }
    }
  }

  lemma StillBoth(a: seq<Output>, b: seq<Output>)
    requires Still(a) && Still(b)
    ensures Still(a + b)
  {
    hide Settled, Released;
    forall id ensures Settled(a + b, id) == 0 && Released(a + b, id) == 0 { Additive(a, b, id); }
  }

  // ---------- One trade ----------

  /** A reservation that trades draw on. */
  ghost predicate Claims(md: Metadata) {
    md.reserved > 0 && !md.reduceOnly
  }

  /** What was settled came out of the margin left. */
  ghost predicate Drawn(md: Metadata, md': Metadata, outputs: seq<Output>) {
    && Claims(md) == Claims(md') && md'.reserved == md.reserved
    && (Claims(md) ==> Settled(outputs, md.orderId) + md'.remainingReserved == md.remainingReserved)
  }

  /** A ledger and its outputs draw on reservations consistently, those of the pending order too. */
  ghost predicate Draws(l: Ledger, l': Ledger, outputs: seq<Output>, kind: CommandKind) {
    && l'.metadata.Keys == l.metadata.Keys && l.pending.Some? && l'.pending.Some?
    && (forall id <- l.metadata :: id != l.pending.value.orderId ==> Drawn(l.metadata[id], l'.metadata[id], outputs))
    && Drawn(l.pending.value, l'.pending.value, outputs)
    && (forall id :: id !in l.metadata && id != l.pending.value.orderId ==> Settled(outputs, id) == 0)
    && (forall id :: Released(outputs, id) == 0)
    && (kind == LiquidationKind ==> Settled(outputs, l.pending.value.orderId) == 0)
  }

  lemma DrawnTwice(a: Metadata, b: Metadata, c: Metadata, x: seq<Output>, y: seq<Output>)
    requires Drawn(a, b, x) && Drawn(b, c, y) && a.orderId == b.orderId
    ensures Drawn(a, c, x + y)
  {
    hide Settled;
    Additive(x, y, a.orderId);
  }

  lemma DrawsTwice(a: Ledger, b: Ledger, c: Ledger, x: seq<Output>, y: seq<Output>, kind: CommandKind)
    requires Draws(a, b, x, kind) && Draws(b, c, y, kind) && MetadataOk(a.metadata) && MetadataOk(b.metadata)
    requires a.pending.value.orderId == b.pending.value.orderId
    ensures Draws(a, c, x + y, kind)
  {
    hide Settled, Released, Drawn, Standing;
    forall id ensures Settled(x + y, id) == Settled(x, id) + Settled(y, id) && Released(x + y, id) == 0 { Additive(x, y, id); }
    forall id <- a.metadata | id != a.pending.value.orderId ensures Drawn(a.metadata[id], c.metadata[id], x + y) {
      DrawnTwice(a.metadata[id], b.metadata[id], c.metadata[id], x, y);
    }
    DrawnTwice(a.pending.value, b.pending.value, c.pending.value, x, y);
  }

  lemma DrawsNothing(l: Ledger, kind: CommandKind)
    requires l.pending.Some?
    ensures Draws(l, l, [], kind)
  {
  }

  lemma OneSettlement(found: Option<Metadata>, fill: nat, price: int, id: nat)
    ensures SettledBy(SettlementFor(found, fill, price), id)
            == if found.Some? && !found.value.reduceOnly && found.value.orderId == id
               then Max(0, PreviewMargin(found.value, fill, price)) else 0
  {
    hide PreviewMargin;
    var s := SettlementFor(found, fill, price);
    if s != [] { assert s[1..] == []; }
  }

  lemma {:induction false} SettledByAppend(a: seq<Settlement>, b: seq<Settlement>, id: nat)
    ensures SettledBy(a + b, id) == SettledBy(a, id) + SettledBy(b, id)
  {
    if a == [] {
      assert a + b == b;
    } else {
      assert (a + b)[1..] == a[1..] + b;
      SettledByAppend(a[1..], b, id);
    }
  }

  lemma TradeSettled(l: Ledger, makerId: nat, takerId: nat, fill: nat, price: int, marks: Marks, kind: CommandKind, id: nat)
    ensures var b := BookTrade(l, makerId, takerId, fill, price, marks, kind);
            Settled(b.outputs, id) == SettledBy(Settlements(l, makerId, takerId, fill, price, kind), id)
            && Released(b.outputs, id) == 0
  {
    hide Settlements, ApplyFill, RiskOf, AllocateMargin, RealizedPnl, Find, Store, Settled, Released, SettledBy;
    var b := BookTrade(l, makerId, takerId, fill, price, marks, kind);
    var trade := b.outputs[0];
    var rest := b.outputs[1..];
    assert b.outputs == [trade] + rest;
    Additive([trade], rest, id);
    StillOutputs(rest);
    OneTrade(trade, id);
  }

  lemma OneTrade(o: Output, id: nat)
    requires o.TradeOutput?
    ensures Settled([o], id) == SettledBy(o.settlements, id) && Released([o], id) == 0
  {
    hide SettledBy;
    assert [o][1..] == [];
  }

  lemma AllocationDrawn(md: Metadata, fill: nat, price: int, outputs: seq<Output>)
    requires Standing(md) && 0 < fill <= md.remaining
    requires Claims(md) ==> Settled(outputs, md.orderId) == Max(0, PreviewMargin(md, fill, price))
    ensures Drawn(md, AllocateMargin(md, fill, price).1, outputs)
  {
    hide Settled;
    if Claims(md) { AllocateStep(md, fill, price); }
  }

  /** A trade settles from each reservation exactly what booking it takes. */
  lemma TradeDraws(l: Ledger, o: OrderSnapshot, fill: nat, price: int, marketId: nat, marks: Marks, kind: CommandKind)
    requires LedgerOk(l) && l.pending.Some? && l.pending.value.orderId != o.orderId
    requires o.orderId in l.metadata && Describes(l.metadata[o.orderId], o, marketId)
    requires l.pending.value.marketId == marketId && l.pending.value.side == o.side.Opposite()
    requires 0 < fill <= o.remaining && fill <= l.pending.value.remaining
    requires kind == PlaceKind || (kind == LiquidationKind && !Claims(l.pending.value))
    ensures var b := BookTrade(l, o.orderId, l.pending.value.orderId, fill, price, marks, kind);
            Draws(l, b.ledger, b.outputs, kind)
  {
    hide RisksOk, Standing, Net, ApplyFill, RiskOf, AllocateMargin, RealizedPnl, Settled, Released, SettledBy, PreviewMargin,
      BookTrade, FallbackMargin;
    var md, taker := l.metadata[o.orderId], l.pending.value;
    TradeBooked(l, o, fill, price, marketId, marks, kind);
    var b := BookTrade(l, o.orderId, taker.orderId, fill, price, marks, kind);
    forall id ensures Settled(b.outputs, id) == SettledBy(Settlements(l, o.orderId, taker.orderId, fill, price, kind), id)
                      && Released(b.outputs, id) == 0
    {
      TradeSettled(l, o.orderId, taker.orderId, fill, price, marks, kind, id);
    }
    TradeTakers(l, o, fill, price, marks, kind);
    forall id ensures SettledBy(Settlements(l, o.orderId, taker.orderId, fill, price, kind), id)
                      == (if id == o.orderId then MakerShare(md, fill, price, kind) else 0)
                         + (if id == taker.orderId && kind == PlaceKind && !taker.reduceOnly
                            then Max(0, PreviewMargin(taker, fill, price)) else 0)
    {
      SettlementShares(l, o.orderId, fill, price, kind, id);
    }
    StandingOf(l, o.orderId);
    PreviewPositive(md, fill, price);
    AllocationDrawn(md, fill, price, b.outputs);
    AllocationDrawn(taker, fill, price, b.outputs);
    forall id <- l.metadata | id != taker.orderId ensures Drawn(l.metadata[id], b.ledger.metadata[id], b.outputs) {
      if id != o.orderId { Untouched(l.metadata[id], b.outputs); }
    }
  }

  function MakerShare(md: Metadata, fill: nat, price: int, kind: CommandKind): int {
    if kind == LiquidationKind then PreviewMargin(md, fill, price)
    else if md.reduceOnly then 0 else Max(0, PreviewMargin(md, fill, price))
  }

  lemma SettlementShares(l: Ledger, makerId: nat, fill: nat, price: int, kind: CommandKind, id: nat)
    requires l.pending.Some? && l.pending.value.orderId != makerId && makerId in l.metadata && l.metadata[makerId].orderId == makerId
    requires kind == PlaceKind || kind == LiquidationKind
    ensures var md, taker := l.metadata[makerId], l.pending.value;
            SettledBy(Settlements(l, makerId, taker.orderId, fill, price, kind), id)
            == (if id == makerId then MakerShare(md, fill, price, kind) else 0)
               + (if id == taker.orderId && kind == PlaceKind && !taker.reduceOnly
                  then Max(0, PreviewMargin(taker, fill, price)) else 0)
  {
    hide PreviewMargin;
    var md, taker := l.metadata[makerId], l.pending.value;
    if kind == PlaceKind {
      OneSettlement(Some(md), fill, price, id);
      OneSettlement(Some(taker), fill, price, id);
      SettledByAppend(SettlementFor(Some(md), fill, price), SettlementFor(Some(taker), fill, price), id);
    } else {
      assert [Settlement(makerId, PreviewMargin(md, fill, price))][1..] == [];
    }
  }

  lemma StandingOf(l: Ledger, id: nat)
    requires LedgerOk(l) && l.pending.Some? && id in l.metadata
    ensures Standing(l.metadata[id]) && l.metadata[id].orderId == id && Standing(l.pending.value)
  {
    hide RisksOk, Standing;
  }

  lemma PreviewPositive(md: Metadata, fill: nat, price: int)
    requires Standing(md) && 0 < fill <= md.remaining
    ensures Claims(md) ==> PreviewMargin(md, fill, price) >= 0
  {
    if Claims(md) { AllocateStep(md, fill, price); }
  }

  lemma Untouched(md: Metadata, outputs: seq<Output>)
    requires Settled(outputs, md.orderId) == 0
    ensures Drawn(md, md, outputs)
  {
  }

  /** The pending order's metadata after a trade is its allocation. */
  lemma TradeTakers(l: Ledger, o: OrderSnapshot, fill: nat, price: int, marks: Marks, kind: CommandKind)
    requires l.pending.Some? && l.pending.value.orderId != o.orderId && o.orderId in l.metadata
    ensures var b := BookTrade(l, o.orderId, l.pending.value.orderId, fill, price, marks, kind);
            b.ledger.pending == Some(AllocateMargin(l.pending.value, fill, price).1)
  {
    hide ApplyFill, RiskOf, AllocateMargin, RealizedPnl, Settlements;
  }

  // ---------- A match ----------

  ghost predicate Chargeable(l: Ledger, kind: CommandKind) {
    l.pending.Some? && (kind == PlaceKind || (kind == LiquidationKind && !Claims(l.pending.value)))
  }

  lemma FrontDraws(l: Ledger, q: Queue, side: Side, marketId: nat, open: nat, fill: nat, marks: Marks, kind: CommandKind)
    requires Facing(l, q, side, marketId, open) && q != [] && 0 < fill <= q[0].remaining && fill <= open
    requires Chargeable(l, kind)
    ensures var b := BookTrade(l, q[0].orderId, l.pending.value.orderId, fill, q[0].price, marks, kind);
            Draws(l, b.ledger, b.outputs, kind) && Chargeable(b.ledger, kind)
  {
    hide LedgerOk, BookTrade;
    var o := q[0];
    assert o in q;
    assert o.orderId != l.pending.value.orderId;
    TradeDraws(l, o, fill, o.price, marketId, marks, kind);
  }

  /** Every match settles what it takes. */
  lemma {:induction false} MatchDraws(l: Ledger, symbolId: nat, side: Side, q: Queue, taker: Taker, s: SequenceState,
                                      last: Option<int>, marks: Marks, kind: CommandKind)
    requires SaneQuantities(q) && taker.remaining <= taker.original
    requires Facing(l, q, side, symbolId, taker.remaining) && l.pending.value.orderId == taker.orderId
    requires Chargeable(l, kind)
    ensures var b := BookAll(l, Match(symbolId, side, q, taker, s, last).events, marks, kind);
            Draws(l, b.ledger, b.outputs, kind)
    decreases |q| + taker.remaining
  {
    hide LevelLots, BookTrade, Follows, Facing, SaneQuantities, Draws, Chargeable, BookAll;
    FacingPending(l, q, side, symbolId, taker.remaining);
    if Matchable(side, q, taker) {
      var q', taker', b := FrontQueue(q, taker), FrontTaker(q, taker), BookFront(l, q, taker, marks, kind);
      MatchUnfolds(symbolId, side, q, taker, s, last);
      BookUnfolds(l, symbolId, side, q, taker, s, last, marks, kind);
      FrontFollows(l, symbolId, side, q, taker, marks, kind);
      FrontDraws(l, q, side, symbolId, taker.remaining, FrontFill(q, taker), marks, kind);
      FacingPending(b.ledger, q', side, symbolId, taker'.remaining);
      MatchDraws(b.ledger, symbolId, side, q', taker', AfterFill(s), Some(q[0].price), marks, kind);
      var c := BookAll(b.ledger, Match(symbolId, side, q', taker', AfterFill(s), Some(q[0].price)).events, marks, kind);
      LedgersOk(l, b.ledger);
      DrawsTwice(l, b.ledger, c.ledger, b.outputs, c.outputs, kind);
    } else {
      DrawsNothing(l, kind);
      NoBooking(l, marks, kind);
    }
  }

  lemma LedgersOk(l: Ledger, l': Ledger)
    requires LedgerOk(l) && LedgerOk(l')
    ensures MetadataOk(l.metadata) && MetadataOk(l'.metadata)
  {
    hide RisksOk, MetadataOk, Standing;
  }

  /** So does every order the core accepts. */
  lemma AcceptedDraws(core: Core, c: PlaceOrderCommand, l: Ledger, marks: Marks, kind: CommandKind)
    requires StoreOk(core, l.metadata) && LedgerOk(l) && l.pending.Some? && StandsFor(l.pending.value, c)
    requires Accepting(core, c, CoreStep(core, Place(c))) && Chargeable(l, kind)
    ensures var b := BookAll(l, CoreStep(core, Place(c)).events, marks, kind);
            Draws(l, b.ledger, b.outputs, kind)
  {
    hide CoreInv, Covered, MetadataOk, LedgerOk, Draws, Match, BookAll, PlaceRejection, SaneQuantities, CoreSpec.Process, Insert,
      LevelLots, ProcessPlace;
    var book, opp := core.books[c.symbolId], c.side.Opposite();
    FacingBook(core, c, l);
    ConfigOf(core, c.symbolId);
    MatchDraws(l, c.symbolId, opp, book.SideQueue(opp), Taker(c.orderId, MatchLimit(c), c.quantity, c.quantity),
               NextEvent(core.sequences), book.lastTradePrice, marks, kind);
    FramedWhole(book, core.sequences, c, l, marks, kind);
  }

  lemma FramedWhole(book: Book, s: SequenceState, c: PlaceOrderCommand, l: Ledger, marks: Marks, kind: CommandKind)
    requires SaneQuantities(book.bids) && SaneQuantities(book.asks) && PlaceRejection(book, c).None?
    ensures BookAll(l, ProcessPlace(book, s, c).events, marks, kind) == BookAll(l, MatchOf(book, s, c).events, marks, kind)
  {
    hide BookAll, MatchOf, PlaceRejection, SaneQuantities, Insert, LevelLots;
    var events, m := ProcessPlace(book, s, c).events, MatchOf(book, s, c);
    var tail := events[1 + |m.events|..];
    assert events == [events[0]] + (m.events + tail);
    BookQuietly(l, events[0], m.events + tail, marks, kind);
    BookAppend(l, m.events, tail, marks, kind);
    var b := BookAll(l, m.events, marks, kind);
    NoBooking(b.ledger, marks, kind);
    if tail != [] {
      assert tail == [tail[0]] + [];
      BookQuietly(b.ledger, tail[0], [], marks, kind);
    }
    assert b.outputs + [] == b.outputs;
  }

  // ---------- Completed orders have nothing left ----------

  /** Metadata of the completed makers shows no open quantity. */
  ghost predicate Emptied(metadata: map<nat, Metadata>, gone: set<nat>, takerId: nat) {
    forall id <- gone :: id != takerId ==> id in metadata && metadata[id].remaining == 0
  }

  lemma FrontEmptied(l: Ledger, q: Queue, side: Side, marketId: nat, open: nat, fill: nat, marks: Marks, kind: CommandKind)
    requires Facing(l, q, side, marketId, open) && q != [] && 0 < fill <= q[0].remaining && fill <= open
    ensures var l' := BookTrade(l, q[0].orderId, l.pending.value.orderId, fill, q[0].price, marks, kind).ledger;
            q[0].orderId in l'.metadata && (fill == q[0].remaining ==> l'.metadata[q[0].orderId].remaining == 0)
  {
    hide LedgerOk, BookTrade, Net, AllocateMargin;
    var o := q[0];
    assert o in q;
    assert o.orderId != l.pending.value.orderId;
    TradeBooked(l, o, fill, o.price, marketId, marks, kind);
  }

  lemma {:induction false} MatchEmpties(l: Ledger, symbolId: nat, side: Side, q: Queue, taker: Taker, s: SequenceState,
                                        last: Option<int>, marks: Marks, kind: CommandKind)
    requires SaneQuantities(q) && taker.remaining <= taker.original
    requires Facing(l, q, side, symbolId, taker.remaining) && l.pending.value.orderId == taker.orderId
    ensures var m := Match(symbolId, side, q, taker, s, last);
            Emptied(BookAll(l, m.events, marks, kind).ledger.metadata, Completed(m.events), taker.orderId)
    decreases |q| + taker.remaining
  {
    hide LevelLots, FillEvents, BookTrade, Facing, SaneQuantities, BookAll, Follows, HasId, Completed, Emptied, UniqueIds, Crosses;
    if Matchable(side, q, taker) {
      var q', taker', fill, l' := FrontQueue(q, taker), FrontTaker(q, taker), FrontFill(q, taker), BookFront(l, q, taker, marks, kind).ledger;
      MatchUnfolds(symbolId, side, q, taker, s, last);
      BookUnfolds(l, symbolId, side, q, taker, s, last, marks, kind);
      FacingPending(l, q, side, symbolId, taker.remaining);
      FrontFollows(l, symbolId, side, q, taker, marks, kind);
      FrontEmptied(l, q, side, symbolId, taker.remaining, fill, marks, kind);
      MatchEmpties(l', symbolId, side, q', taker', AfterFill(s), Some(q[0].price), marks, kind);
      MatchBooked(l', symbolId, side, q', taker', AfterFill(s), Some(q[0].price), marks, kind);
      var rest := Match(symbolId, side, q', taker', AfterFill(s), Some(q[0].price));
      var total: nat := LevelLots(q, q[0].price) - fill;
      var e := FillEvents(symbolId, q[0], taker, fill, total, s);
      FillCompletes(symbolId, q[0], taker, fill, total, s);
      CompletedAppend(e, rest.events);
      if fill == q[0].remaining { FacingUnique(l, q, side, symbolId, taker.remaining); FrontGone(q); }
      EmptiedStep(l', BookAll(l', rest.events, marks, kind).ledger, q', rest.queue, symbolId,
                  taker'.remaining - rest.taker.remaining, q[0].orderId, taker.orderId, Completed(e), Completed(rest.events));
    } else {
      NoBooking(l, marks, kind);
      NothingCompleted();
      EmptiedNone(l.metadata, taker.orderId);
    }
  }

  lemma EmptiedNone(metadata: map<nat, Metadata>, takerId: nat)
    ensures Emptied(metadata, {}, takerId)
  {
  }

  lemma EmptiedStep(l: Ledger, l': Ledger, q: Queue, q': Queue, marketId: nat, filled: nat, makerId: nat, takerId: nat,
                    first: set<nat>, rest: set<nat>)
    requires Follows(l, l', q, q', marketId, filled) && Emptied(l'.metadata, rest, takerId)
    requires first <= {makerId, takerId}
    requires makerId in first && makerId != takerId ==>
               makerId in l.metadata && l.metadata[makerId].remaining == 0 && !HasId(q, makerId)
    ensures Emptied(l'.metadata, first + rest, takerId)
  {
    hide LedgerOk, Net, Covers, HasId, Moved;
  }

  lemma NothingCompleted()
    ensures Completed([]) == {}
  {
  }

  lemma FacingUnique(l: Ledger, q: Queue, side: Side, marketId: nat, open: nat)
    requires Facing(l, q, side, marketId, open)
    ensures UniqueIds(q)
  {
    hide LedgerOk, UniqueIds, Covers, HasId;
  }

  lemma AcceptedEmpties(core: Core, c: PlaceOrderCommand, l: Ledger, marks: Marks, kind: CommandKind)
    requires StoreOk(core, l.metadata) && LedgerOk(l) && l.pending.Some? && StandsFor(l.pending.value, c)
    requires Accepting(core, c, CoreStep(core, Place(c)))
    ensures var r := CoreStep(core, Place(c));
            Emptied(BookAll(l, r.events, marks, kind).ledger.metadata, Completed(r.events), c.orderId)
  {
    hide CoreInv, Covered, MetadataOk, LedgerOk, Match, BookAll, PlaceRejection, SaneQuantities, CoreSpec.Process, Insert,
      LevelLots, ProcessPlace, Completed, Emptied;
    var book, opp := core.books[c.symbolId], c.side.Opposite();
    FacingBook(core, c, l);
    ConfigOf(core, c.symbolId);
    MatchEmpties(l, c.symbolId, opp, book.SideQueue(opp), Taker(c.orderId, MatchLimit(c), c.quantity, c.quantity),
                 NextEvent(core.sequences), book.lastTradePrice, marks, kind);
    MatchFramed(book, core.sequences, c, l, marks, kind);
    PlaceCompletes(book, core.sequences, c);
  }

  // ---------- Stored reservations ----------

  /** How one order's reservation fares between two stores. */
  ghost predicate FlowsAt(a: map<nat, Metadata>, b: map<nat, Metadata>, outputs: seq<Output>, id: nat) {
    if id !in a then id !in b && Settled(outputs, id) == 0 && Released(outputs, id) == 0
    else if !Claims(a[id]) then id in b ==> !Claims(b[id])
    else if id in b then
      && Claims(b[id]) && b[id].reserved == a[id].reserved
      && Settled(outputs, id) + b[id].remainingReserved == a[id].remainingReserved && Released(outputs, id) == 0
    else Settled(outputs, id) + Released(outputs, id) == a[id].remainingReserved
  }

  ghost predicate Flows(a: State, b: State, outputs: seq<Output>) {
    && a.core.idempotency.orderIds <= b.core.idempotency.orderIds
    && forall id :: FlowsAt(a.metadata, b.metadata, outputs, id)
  }

  lemma FlowsTwice(a: State, b: State, c: State, x: seq<Output>, y: seq<Output>)
    requires Flows(a, b, x) && Flows(b, c, y)
    ensures Flows(a, c, x + y)
  {
    hide Settled, Released;
    forall id ensures FlowsAt(a.metadata, c.metadata, x + y, id) {
      assert FlowsAt(a.metadata, b.metadata, x, id) && FlowsAt(b.metadata, c.metadata, y, id);
      Additive(x, y, id);
    }
  }

  lemma StillFlows(a: State, b: State, outputs: seq<Output>)
    requires Still(outputs) && b.metadata == a.metadata && a.core.idempotency.orderIds <= b.core.idempotency.orderIds
    ensures Flows(a, b, outputs)
  {
    hide Settled, Released;
  }

  /** A completed reservation in good standing has nothing left. */
  lemma FilledSpent(md: Metadata)
    requires Standing(md) && Claims(md) && md.remaining == 0
    ensures md.remainingReserved == 0
  {
  }

  /** The store after the trades of an accepted order, for every other order. */
  lemma DrawsFlow(l: Ledger, l': Ledger, outputs: seq<Output>, kind: CommandKind, gone: set<nat>, stored: map<nat, Metadata>,
                  id: nat)
    requires Draws(l, l', outputs, kind) && MetadataOk(l.metadata) && MetadataOk(l'.metadata)
    requires Emptied(l'.metadata, gone, l.pending.value.orderId)
    requires id != l.pending.value.orderId
    requires id in stored <==> id in l'.metadata && id !in gone
    requires id in stored ==> stored[id] == l'.metadata[id]
    ensures FlowsAt(l.metadata, stored, outputs, id)
  {
    hide Settled, Released, Standing;
    if id in l.metadata && Claims(l.metadata[id]) && id in gone { FilledSpent(l'.metadata[id]); }
  }

  // ---------- Orders ----------

  /** A reservation is accounted for: settled and still held, or settled and released, in all what was reserved. */
  ghost predicate Accounted(b: map<nat, Metadata>, outputs: seq<Output>, id: nat, reserved: int) {
    if id in b then
      && Claims(b[id]) && b[id].reserved == reserved
      && Settled(outputs, id) + b[id].remainingReserved == reserved && Released(outputs, id) == 0
    else Settled(outputs, id) + Released(outputs, id) == reserved
  }

  /** What running an order does to every reservation, its own and others. */
  ghost predicate OrderFlows(st: State, i: Input, c: PlaceOrderCommand, r: Step)
    requires CoreInv(st.core) && i.PlaceInput?
  {
    && st.core.idempotency.orderIds <= r.state.core.idempotency.orderIds
    && (forall id :: id != c.orderId ==> FlowsAt(st.metadata, r.state.metadata, r.outputs, id))
    && if IsAccepted(CoreStep(st.core, Place(c)).events) then
         && c.orderId !in st.core.idempotency.orderIds && c.orderId in r.state.core.idempotency.orderIds
         && (i.reserved > 0 && !i.reduceOnly ==> Accounted(r.state.metadata, r.outputs, c.orderId, i.reserved))
         && (c.orderId in r.state.metadata && Claims(r.state.metadata[c.orderId]) ==> i.reserved > 0 && !i.reduceOnly)
       else FlowsAt(st.metadata, r.state.metadata, r.outputs, c.orderId)
  }

  lemma RefusedFlows(st: State, i: Input, c: PlaceOrderCommand)
    requires RuntimeInv(st) && i.PlaceInput? && CoreInv(st.core) && Refusing(st.core, CoreStep(st.core, Place(c)))
    requires !IsAccepted(CoreStep(st.core, Place(c)).events)
    ensures RunOrder(st, i, c).Some? && OrderFlows(st, i, c, RunOrder(st, i, c).value)
  {
    hide CoreSpec.Process, CoreInv, BookAll, Completed, StoreOk, Net, RisksOk, ZeroSum, IsAccepted, Settled, Released;
    InvStore(st);
    var core := CoreStep(st.core, Place(c));
    var l := LedgerOf(st, Some(PlaceMetadata(i)));
    RefusedBooks(st.core, core, l, st.marks, PlaceKind);
    RefusedOutputs(l, core.events, st.marks, PlaceKind);
    assert l.metadata - {} == l.metadata;
    StillFlows(st, RunOrder(st, i, c).value.state, RunOrder(st, i, c).value.outputs);
  }

  lemma RefusedOutputs(l: Ledger, events: seq<EngineEvent>, marks: Marks, kind: CommandKind)
    requires |events| == 1 && events[0].OrderRejected?
    ensures Still(BookAll(l, events, marks, kind).outputs)
  {
    hide Find;
    assert events[1..] == [];
    var first := BookEvent(l, events[0], marks, kind);
    NoBooking(first.ledger, marks, kind);
    assert BookAll(l, events, marks, kind).outputs == first.outputs + [] == first.outputs;
    StillOutputs(first.outputs);
  }

  /** The facts about the ledger after an accepted order that its reservations depend on. */
  lemma AcceptedFacts(st: State, i: Input, c: PlaceOrderCommand)
    requires RuntimeInv(st) && i.PlaceInput? && CoreOrder(st, i) == Some(c) && Mappable(c) && CoreInv(st.core)
    requires Accepting(st.core, c, CoreStep(st.core, Place(c)))
    ensures var l, core := LedgerOf(st, Some(PlaceMetadata(i))), CoreStep(st.core, Place(c));
            var b := BookAll(l, core.events, st.marks, PlaceKind);
            && Draws(l, b.ledger, b.outputs, PlaceKind) && MetadataOk(l.metadata) && LedgerOk(b.ledger)
            && Emptied(b.ledger.metadata, Completed(core.events), c.orderId)
            && c.orderId !in l.metadata && c.orderId !in b.ledger.metadata
            && (c.orderId in Completed(core.events) && !i.reduceOnly ==> b.ledger.pending.value.remaining == 0)
  {
    hide CoreSpec.Process, CoreInv, BookAll, Completed, MetadataOk, Covered, Net, RisksOk, ZeroSum, MatchOf, Draws, Emptied,
      Covers, Standing, Mappable, SaneQuantities, PlaceRejection, ProcessPlace, Moved;
    PlaceStands(st, i, c);
    var md := PlaceMetadata(i);
    var l := LedgerOf(st, Some(md));
    StandsStanding(md, c);
    PendingLedger(st, md);
    AcceptedDraws(st.core, c, l, st.marks, PlaceKind);
    AcceptedEmpties(st.core, c, l, st.marks, PlaceKind);
    AcceptedBooked(st.core, c, l, st.marks, PlaceKind);
    AcceptedMatched(st.core, c, l, BookAll(l, CoreStep(st.core, Place(c)).events, st.marks, PlaceKind).ledger);
  }

  lemma OwnAccounted(pending: Metadata, pending': Metadata, outputs: seq<Output>, b: map<nat, Metadata>, filled: bool)
    requires Drawn(pending, pending', outputs) && Claims(pending) && pending.remainingReserved == pending.reserved
    requires Standing(pending') && Released(outputs, pending.orderId) == 0
    requires filled ==> pending'.remaining == 0
    requires pending.orderId in b <==> !filled
    requires pending.orderId in b ==> b[pending.orderId] == pending'
    ensures Accounted(b, outputs, pending.orderId, pending.reserved)
  {
    hide Settled, Released, Standing;
    if filled { FilledSpent(pending'); }
  }

  lemma AcceptedFlows(st: State, i: Input, c: PlaceOrderCommand)
    requires RuntimeInv(st) && i.PlaceInput? && CoreOrder(st, i) == Some(c) && Mappable(c) && CoreInv(st.core)
    requires Accepting(st.core, c, CoreStep(st.core, Place(c))) && IsAccepted(CoreStep(st.core, Place(c)).events)
    ensures RunOrder(st, i, c).Some? && OrderFlows(st, i, c, RunOrder(st, i, c).value)
  {
    hide CoreSpec.Process, CoreInv, BookAll, Completed, Net, RisksOk, RuntimeInv, IsAccepted, Settled, Released, ProcessPlace,
      PlaceRejection, SaneQuantities, Mappable, FilledBy, Emptied, Standing, CoreOrder, Claims, RunOrder;
    RunOrderLaw(st, i, c);
    OrderShape(st, i, c);
    AcceptedFacts(st, i, c);
    SameOrderId(st, i, c);
    var md, core := PlaceMetadata(i), CoreStep(st.core, Place(c));
    var l := LedgerOf(st, Some(md));
    var b := BookAll(l, core.events, st.marks, PlaceKind);
    var r := RunOrder(st, i, c).value;
    var gone := Completed(core.events);
    assert b.outputs + [] == b.outputs;
    ExpiredStill(b.outputs, r.outputs);
    forall id | id != c.orderId ensures FlowsAt(st.metadata, r.state.metadata, r.outputs, id) {
      DrawsFlow(l, b.ledger, b.outputs, PlaceKind, gone, r.state.metadata, id);
      FlowsSame(st.metadata, r.state.metadata, b.outputs, r.outputs, id);
    }
    ClaimsOf(i);
    if Claims(md) {
      OwnAccounted(md, b.ledger.pending.value, b.outputs, r.state.metadata, c.orderId in gone);
    }
  }

  lemma ClaimsOf(i: Input)
    requires i.PlaceInput?
    ensures Claims(PlaceMetadata(i)) <==> i.reserved > 0 && !i.reduceOnly
  {
  }

  lemma SameOrderId(st: State, i: Input, c: PlaceOrderCommand)
    requires i.PlaceInput? && CoreOrder(st, i) == Some(c)
    ensures c.orderId == i.order.orderId
  {
  }

  /** A report of expiry settles and releases nothing. */
  lemma ExpiredStill(a: seq<Output>, b: seq<Output>)
    requires b == a || (|b| == |a| + 1 && b[..|a|] == a && b[|a|].OrderExpired?)
    ensures forall id :: Settled(b, id) == Settled(a, id) && Released(b, id) == Released(a, id)
  {
    hide Settled, Released;
    if b != a {
      var last := [b[|a|]];
      assert b == a + last;
      StillOutputs(last);
      forall id ensures Settled(b, id) == Settled(a, id) && Released(b, id) == Released(a, id) { Additive(a, last, id); }
    }
  }

  lemma FlowsSame(a: map<nat, Metadata>, b: map<nat, Metadata>, x: seq<Output>, y: seq<Output>, id: nat)
    requires FlowsAt(a, b, x, id) && Settled(y, id) == Settled(x, id) && Released(y, id) == Released(x, id)
    ensures FlowsAt(a, b, y, id)
  {
    hide Settled, Released;
  }

  lemma RunOrderFlows(st: State, i: Input, c: PlaceOrderCommand)
    requires RuntimeInv(st) && i.PlaceInput? && CoreOrder(st, i) == Some(c) && Mappable(c) && CoreInv(st.core)
    ensures RunOrder(st, i, c).Some? && OrderFlows(st, i, c, RunOrder(st, i, c).value)
  {
    hide CoreSpec.Process, CoreInv, Accepting, Refusing, RuntimeInv, RunOrder, IsAccepted, OrderFlows;
    PlaceCases(st.core, c);
    if Accepting(st.core, c, CoreStep(st.core, Place(c))) {
      AcceptedFlows(st, i, c);
    } else {
      RefusedFlows(st, i, c);
    }
  }

  // ---------- Cancels and liquidations ----------

  lemma CancelFlows(st: State, c: CancelOrderCommand)
    requires RuntimeInv(st) && CoreInv(st.core)
    ensures Flows(st, CancelOrder(st, c).state, CancelOrder(st, c).outputs)
  {
    hide CoreSpec.Process, CoreInv, Net, RisksOk, ZeroSum, Covered, BookAll, Completed, Settled, Released, StoreOk, Standing;
    CancelLaw(st, c);
    CancelCases(st.core, c);
    var core, r := CoreStep(st.core, Cancel(c)), CancelOrder(st, c);
    if Refusing(st.core, core) {
      InvStore(st);
      RefusedBooks(st.core, core, LedgerOf(st, None), st.marks, CancelKind);
      RefusedOutputs(LedgerOf(st, None), core.events, st.marks, CancelKind);
      assert st.metadata - {} == st.metadata;
      StillFlows(st, r.state, r.outputs);
    } else {
      var o :| Cancelling(st.core, c, core, o);
      assert core.events[0].OrderCancelled?;
      forall id ensures FlowsAt(st.metadata, r.state.metadata, r.outputs, id) { OneRelease(r.outputs[0], id); }
    }
  }

  lemma OneRelease(o: Output, id: nat)
    requires o.CancelReleased?
    ensures Settled([o], id) == 0 && Released([o], id) == if o.orderId == id then o.amount else 0
  {
    assert [o][1..] == [];
  }

  lemma {:induction false} AdlStill(l: Ledger, cs: seq<Candidate>, remaining: nat, price: int, marks: Marks)
    ensures Still(AdlFills(l, cs, remaining, price, marks).outputs)
    decreases |cs|
  {
    hide Still, AdlFill;
    StillOutputs([]);
    if cs != [] && remaining > 0 && l.pending.Some? {
      var fill: nat := Min(remaining, Abs(cs[0].position.signed));
      if fill == 0 {
        AdlStill(l, cs[1..], remaining, price, marks);
      } else {
        var one := AdlFill(l, cs[0], fill, price, marks);
        AdlFillStill(l, cs[0], fill, price, marks);
        AdlStill(one.ledger, cs[1..], remaining - fill, price, marks);
        StillBoth(one.outputs, AdlFills(one.ledger, cs[1..], remaining - fill, price, marks).outputs);
      }
    }
  }

  lemma AdlFillStill(l: Ledger, c: Candidate, fill: nat, price: int, marks: Marks)
    requires l.pending.Some?
    ensures Still(AdlFill(l, c, fill, price, marks).outputs)
  {
    hide ApplyFill, RiskOf, AllocateMargin, RealizedPnl, Find, Store, FreeId, Still;
    StillOutputs(AdlFill(l, c, fill, price, marks).outputs);
  }

  lemma DeleverageStill(st: State, l: Ledger, q: Liquidation, price: int, before: seq<Output>)
    requires l.metadata == st.metadata
    ensures exists after :: Still(after) && Deleverage(st, l, q, price, before).outputs == before + after
    ensures Deleverage(st, l, q, price, before).state.metadata == st.metadata
    ensures Deleverage(st, l, q, price, before).state.core == st.core
  {
    hide AdlFills, AdlCandidates, Still;
    var open := if l.pending.Some? && q.key in l.positions
                then Min(l.pending.value.remaining, Abs(l.positions[q.key].signed)) else 0;
    var cs := AdlCandidates(q.key, PositionAt(l.positions, q.key).signed, l.positions, l.risks);
    var adl := if open > 0 then AdlFills(l, cs, open, price, st.marks) else Booked(l, []);
    StillOutputs([]);
    if open > 0 {
      AdlStill(l, cs, open, price, st.marks);
      RestartLaws.AdlFillsSame(l, l, cs, open, price, st.marks);
    }
    var last := [LiquidationCompleted(q.key, Abs(PositionAt(adl.ledger.positions, q.key).signed))];
    StillOutputs(last);
    StillBoth(adl.outputs, last);
    assert before + adl.outputs + last == before + (adl.outputs + last);
  }

  lemma StillAround(a: State, b: State, before: seq<Output>, x: seq<Output>, after: seq<Output>)
    requires Still(before) && Still(after) && Flows(a, b, x)
    ensures Flows(a, b, before + x + after)
  {
    hide Settled, Released;
    forall id ensures FlowsAt(a.metadata, b.metadata, before + x + after, id) {
      assert FlowsAt(a.metadata, b.metadata, x, id);
      Additive(before + x, after, id);
      Additive(before, x, id);
    }
  }

  /** What the book does for a liquidation draws on the makers' reservations only. */
  lemma TakenFlows(st: State, c: PlaceOrderCommand, md: Metadata)
    requires RuntimeInv(st) && CoreInv(st.core) && StandsFor(md, c) && !Claims(md)
    ensures var core := CoreStep(st.core, Place(c));
            var b := BookAll(LedgerOf(st, Some(md)), core.events, st.marks, LiquidationKind);
            Flows(st, Settle(st, core.core, b.ledger, core.events), b.outputs)
  {
    hide CoreSpec.Process, CoreInv, BookAll, Completed, Net, ZeroSum, RisksOk, Covered, Settled, Released, MetadataOk, Draws,
      Emptied, Standing, SaneQuantities, PlaceRejection, ProcessPlace, Claims;
    StandsStanding(md, c);
    PendingLedger(st, md);
    PlaceCases(st.core, c);
    var l, core := LedgerOf(st, Some(md)), CoreStep(st.core, Place(c));
    var b := BookAll(l, core.events, st.marks, LiquidationKind);
    var settled := Settle(st, core.core, b.ledger, core.events);
    if Accepting(st.core, c, core) {
      AcceptedDraws(st.core, c, l, st.marks, LiquidationKind);
      AcceptedEmpties(st.core, c, l, st.marks, LiquidationKind);
      AcceptedBooked(st.core, c, l, st.marks, LiquidationKind);
      FollowsOk(l, b.ledger, st.core.books[c.symbolId].SideQueue(c.side.Opposite()),
                MatchOf(st.core.books[c.symbolId], st.core.sequences, c).queue, c.symbolId,
                c.quantity - MatchOf(st.core.books[c.symbolId], st.core.sequences, c).taker.remaining);
      forall id ensures FlowsAt(st.metadata, settled.metadata, b.outputs, id) {
        if id != c.orderId {
          DrawsFlow(l, b.ledger, b.outputs, LiquidationKind, Completed(core.events), settled.metadata, id);
        } else {
          TakerQuiet(l, b.ledger, b.outputs, settled.metadata);
        }
      }
    } else {
      RefusedBooks(st.core, core, l, st.marks, LiquidationKind);
      RefusedOutputs(l, core.events, st.marks, LiquidationKind);
      assert l.metadata - {} == l.metadata;
      StillFlows(st, settled, b.outputs);
    }
  }

  lemma FollowsOk(l: Ledger, l': Ledger, q: Queue, q': Queue, marketId: nat, filled: nat)
    requires Follows(l, l', q, q', marketId, filled) && LedgerOk(l)
    ensures MetadataOk(l.metadata) && MetadataOk(l'.metadata) && l'.metadata.Keys == l.metadata.Keys
  {
    hide RisksOk, Net, Covers, Moved, Standing;
  }

  lemma TakerQuiet(l: Ledger, l': Ledger, outputs: seq<Output>, stored: map<nat, Metadata>)
    requires Draws(l, l', outputs, LiquidationKind) && l.pending.value.orderId !in l.metadata && l.pending.value.orderId !in stored
    ensures FlowsAt(l.metadata, stored, outputs, l.pending.value.orderId)
  {
    hide Settled, Released;
  }

  lemma NoClaim(q: Liquidation, p: Position)
    ensures !Claims(LiquidationMetadata(q, p))
  {
  }

  lemma CoreOnlyFlows(st: State, core: Core)
    requires st.core.idempotency.orderIds <= core.idempotency.orderIds
    ensures Flows(st, st.(core := core), [])
  {
    hide Settled, Released;
    StillOutputs([]);
    StillFlows(st, st.(core := core), []);
  }

  lemma OrderIdsGrow(core: Core, c: PlaceOrderCommand)
    requires CoreInv(core)
    ensures core.idempotency.orderIds <= CoreStep(core, Place(c)).core.idempotency.orderIds
  {
    hide CoreSpec.Process, CoreInv, ProcessPlace, PlaceRejection, SaneQuantities;
    PlaceCases(core, c);
  }

  lemma LiquidateFlows(st: State, q: Liquidation)
    requires RuntimeInv(st) && CoreInv(st.core)
    ensures Flows(st, Liquidate(st, q).state, Liquidate(st, q).outputs)
  {
    hide CoreSpec.Process, RuntimeInv, BookAll, Deleverage, CoreInv, CrossingLiquidity, AvailableLots, AdlCandidates,
      LiquidationPrice, HasTrade, LiquidationMetadata, LiquidationOrder, Completed, Flows, Still, LiquidationQuantity;
    CoreOnlyFlows(st, st.core);
    assert st.(core := st.core) == st;
    if MayLiquidate(st, q) {
      var p := st.positions[q.key];
      var price, md := LiquidationPrice(q, p, st.marks), LiquidationMetadata(q, p);
      var c := LiquidationOrder(q, p.signed, price);
      var started := [LiquidationStarted(q.key)];
      StillOutputs(started);
      DirectFlows(st, q, price, started);
      LiquidationStands(q, p, price);
      NoClaim(q, p);
      OrderIdsGrow(st.core, c);
      CoreOnlyFlows(st, CoreStep(st.core, Place(c)).core);
      TakenFlows(st, c, md);
      CrossedFlows(st, q, price, started);
    }
  }

  lemma DirectFlows(st: State, q: Liquidation, price: int, started: seq<Output>)
    requires Still(started) && q.key in st.positions
    ensures var r := Deleverage(st, LedgerOf(st, Some(LiquidationMetadata(q, st.positions[q.key]))), q, price, started);
            Flows(st, r.state, r.outputs)
  {
    hide Deleverage, Still, LiquidationMetadata, Settled, Released;
    var l := LedgerOf(st, Some(LiquidationMetadata(q, st.positions[q.key])));
    DeleverageStill(st, l, q, price, started);
    var r := Deleverage(st, l, q, price, started);
    var after :| Still(after) && r.outputs == started + after;
    StillBoth(started, after);
    StillFlows(st, r.state, r.outputs);
  }

  lemma CrossedFlows(st: State, q: Liquidation, price: int, started: seq<Output>)
    requires CoreInv(st.core) && q.key in st.positions && Still(started)
    requires var p := st.positions[q.key];
             var core := CoreStep(st.core, Place(LiquidationOrder(q, p.signed, price)));
             var b := BookAll(LedgerOf(st, Some(LiquidationMetadata(q, p))), core.events, st.marks, LiquidationKind);
             Flows(st, Settle(st, core.core, b.ledger, core.events), b.outputs)
    ensures var p := st.positions[q.key];
            var core := CoreStep(st.core, Place(LiquidationOrder(q, p.signed, price)));
            var b := BookAll(LedgerOf(st, Some(LiquidationMetadata(q, p))), core.events, st.marks, LiquidationKind);
            var settled := Settle(st, core.core, b.ledger, core.events);
            var r := Deleverage(settled, LedgerOf(settled, b.ledger.pending), q, price, started + b.outputs);
            Flows(st, r.state, r.outputs)
  {
    hide Deleverage, Still, LiquidationMetadata, LiquidationOrder, CoreSpec.Process, CoreInv, BookAll, Completed, FlowsAt;
    var p := st.positions[q.key];
    var core := CoreStep(st.core, Place(LiquidationOrder(q, p.signed, price)));
    var b := BookAll(LedgerOf(st, Some(LiquidationMetadata(q, p))), core.events, st.marks, LiquidationKind);
    var settled := Settle(st, core.core, b.ledger, core.events);
    var l := LedgerOf(settled, b.ledger.pending);
    DeleverageStill(settled, l, q, price, started + b.outputs);
    var r := Deleverage(settled, l, q, price, started + b.outputs);
    var after :| Still(after) && r.outputs == (started + b.outputs) + after;
    StillAround(st, settled, started, b.outputs, after);
  }

  ghost function Flowing(): Relation {
    (a, b, x) => Flows(a, b, x)
  }

  lemma FlowsCompose()
    ensures Composes(Flowing()) && AcrossLiquidations(Flowing())
  {
    hide CoreInv, Liquidate, Flows, RuntimeInv;
    var rel := Flowing();
    forall s ensures rel(s, s, []) {
      CoreOnlyFlows(s, s.core);
      assert s.(core := s.core) == s;
    }
    forall a, b, c, x, y | rel(a, b, x) && rel(b, c, y) ensures rel(a, c, x + y) { FlowsTwice(a, b, c, x, y); }
    forall s, q | RuntimeInv(s) && CoreInv(s.core) ensures rel(s, Liquidate(s, q).state, Liquidate(s, q).outputs) {
      LiquidateFlows(s, q);
    }
  }

  lemma AutoFlows(st: State, marketId: nat, ids: IdSource)
    requires RuntimeInv(st) && CoreInv(st.core)
    ensures var r := AutoLiquidate(st, marketId, ids); Flows(st, r.state, r.outputs)
  {
    hide CoreInv, AutoLiquidate, Flows, RuntimeInv, Composes, AcrossLiquidations;
    FlowsCompose();
    AutoRelated(Flowing(), st, marketId, ids);
  }

  // ---------- Records and runs ----------

  /** The reservation that a record opens: that of an accepted order that is not reduce-only. */
  ghost function Opened(st: State, r: Record): map<nat, int>
    requires CoreInv(st.core)
  {
    if !r.input.PlaceInput? || DuplicateOf(st, r.input).Some? || r.input.reserved <= 0 || r.input.reduceOnly
       || !Mappable(r.input.order) || !IsAccepted(CoreStep(st.core, Place(r.input.order)).events) then map[]
    else map[r.input.order.orderId := r.input.reserved]
  }

  /** What one record does to all reservations, old and new. */
  ghost predicate RecordFlows(st: State, st': State, outputs: seq<Output>, granted: map<nat, int>) {
    && st.core.idempotency.orderIds <= st'.core.idempotency.orderIds
    && (forall id <- granted ::
          && id !in st.core.idempotency.orderIds && id in st'.core.idempotency.orderIds
          && Accounted(st'.metadata, outputs, id, granted[id]))
    && (forall id :: id !in granted ==>
          FlowsAt(st.metadata, st'.metadata, outputs, id)
          || (id !in st.core.idempotency.orderIds && id in st'.core.idempotency.orderIds
              && (id in st'.metadata ==> !Claims(st'.metadata[id]))))
  }

  lemma FlowsRecord(st: State, st': State, outputs: seq<Output>)
    requires Flows(st, st', outputs)
    ensures RecordFlows(st, st', outputs, map[])
  {
    hide FlowsAt;
  }

  lemma AccountedFlows(a: State, b: State, x: seq<Output>, y: seq<Output>, id: nat, reserved: int)
    requires Accounted(a.metadata, x, id, reserved) && Flows(a, b, y)
    ensures Accounted(b.metadata, x + y, id, reserved)
  {
    hide Settled, Released;
    assert FlowsAt(a.metadata, b.metadata, y, id);
    Additive(x, y, id);
  }

  /** An order, and then whatever it triggers. */
  lemma OrderThen(st: State, i: Input, c: PlaceOrderCommand, r: Step, st': State, y: seq<Output>)
    requires CoreInv(st.core) && i.PlaceInput? && OrderFlows(st, i, c, r) && Flows(r.state, st', y)
    ensures var granted := if IsAccepted(CoreStep(st.core, Place(c)).events) && i.reserved > 0 && !i.reduceOnly
                          then map[c.orderId := i.reserved] else map[];
            RecordFlows(st, st', r.outputs + y, granted)
  {
    hide CoreSpec.Process, CoreInv, IsAccepted, FlowsAt, Accounted, Claims;
    var granted := if IsAccepted(CoreStep(st.core, Place(c)).events) && i.reserved > 0 && !i.reduceOnly
                  then map[c.orderId := i.reserved] else map[];
    if c.orderId in granted { AccountedFlows(r.state, st', r.outputs, y, c.orderId, i.reserved); }
    forall id | id !in granted
      ensures FlowsAt(st.metadata, st'.metadata, r.outputs + y, id)
              || (id !in st.core.idempotency.orderIds && id in st'.core.idempotency.orderIds
                  && (id in st'.metadata ==> !Claims(st'.metadata[id])))
    {
      assert FlowsAt(r.state.metadata, st'.metadata, y, id);
      if id == c.orderId && IsAccepted(CoreStep(st.core, Place(c)).events) {
        NeverClaims(r.state.metadata, st'.metadata, y, id);
      } else {
        FlowsAtTwice(st.metadata, r.state.metadata, st'.metadata, r.outputs, y, id);
      }
    }
  }

  lemma NeverClaims(a: map<nat, Metadata>, b: map<nat, Metadata>, outputs: seq<Output>, id: nat)
    requires FlowsAt(a, b, outputs, id) && (id in a ==> !Claims(a[id]))
    ensures id in b ==> !Claims(b[id])
  {
    hide Settled, Released;
  }

  lemma FlowsAtTwice(a: map<nat, Metadata>, b: map<nat, Metadata>, c: map<nat, Metadata>, x: seq<Output>, y: seq<Output>,
                     id: nat)
    requires FlowsAt(a, b, x, id) && FlowsAt(b, c, y, id)
    ensures FlowsAt(a, c, x + y, id)
  {
    hide Settled, Released;
    Additive(x, y, id);
  }

  lemma PlaceFlows(st: State, r: Record, ids: IdSource)
    requires RuntimeInv(st) && CoreInv(st.core) && r.input.PlaceInput? && DuplicateOf(st, r.input).None?
    requires PlaceOrder(st, r.input, ids).Some?
    ensures var p := PlaceOrder(st, r.input, ids).value; RecordFlows(st, p.state, p.outputs, Opened(st, r))
  {
    hide CoreInv, RuntimeInv, Mappable, RunOrder, AutoLiquidate, RuntimeSpec.Traded, CoreSpec.Process, IsAccepted, Flows, OrderFlows,
      RecordFlows, DuplicateOf, FairAttempts, Moved;
    var i := r.input;
    var c := CoreOrder(st, i);
    PlaceLaw(st, i, ids);
    var p := PlaceOrder(st, i, ids).value;
    if c.None? {
      RejectedStill(i);
      StillFlows(st, st, p.outputs);
      FlowsRecord(st, st, p.outputs);
    } else {
      RunOrderFlows(st, i, c.value);
      RunOrderLaw(st, i, c.value);
      var placed := RunOrder(st, i, c.value).value;
      InvCore(placed.state);
      AutoFlows(placed.state, c.value.symbolId, ids);
      CoreOnlyFlows(placed.state, placed.state.core);
      assert placed.state.(core := placed.state.core) == placed.state && placed.outputs + [] == placed.outputs;
      if RuntimeSpec.Traded(st, c.value) {
        var auto := AutoLiquidate(placed.state, c.value.symbolId, ids);
        OrderThen(st, i, c.value, placed, auto.state, auto.outputs);
      } else {
        OrderThen(st, i, c.value, placed, placed.state, []);
      }
    }
  }

  lemma RejectedStill(i: Input)
    requires i.PlaceInput?
    ensures Still(if i.reserved > 0 then [ReservationReleased(i.order.orderId, i.reserved)] else [])
  {
    hide Still;
    StillOutputs(if i.reserved > 0 then [ReservationReleased(i.order.orderId, i.reserved)] else []);
  }

  /** A step that leaves the store alone, announces something, and then liquidates automatically. */
  lemma AnnouncedFlows(st: State, st1: State, first: Output, marketId: nat, ids: IdSource)
    requires RuntimeInv(st1) && CoreInv(st1.core) && st1.metadata == st.metadata && st1.core == st.core
    requires !first.CancelReleased? && !first.TradeOutput?
    ensures var auto := AutoLiquidate(st1, marketId, ids);
            RecordFlows(st, auto.state, [first] + auto.outputs, map[])
  {
    hide RuntimeInv, CoreInv, AutoLiquidate, Flows, RecordFlows, Still;
    AutoFlows(st1, marketId, ids);
    StillOutputs([first]);
    StillFlows(st, st1, [first]);
    var auto := AutoLiquidate(st1, marketId, ids);
    FlowsTwice(st, st1, auto.state, [first], auto.outputs);
    FlowsRecord(st, auto.state, [first] + auto.outputs);
  }

  lemma UnchangedFlows(st: State, st': State, outputs: seq<Output>)
    requires st'.metadata == st.metadata && st'.core == st.core
    requires forall o <- outputs :: !o.CancelReleased? && !o.TradeOutput?
    ensures RecordFlows(st, st', outputs, map[])
  {
    hide RecordFlows, Still, Flows;
    StillOutputs(outputs);
    StillFlows(st, st', outputs);
    FlowsRecord(st, st', outputs);
  }

  lemma MarkedFlows(st: State, st': State, r: Record, outputs: seq<Output>, granted: map<nat, int>)
    requires RecordFlows(st, st', outputs, granted)
    ensures RecordFlows(st, MarkInputDone(st', r), outputs, granted)
    ensures r.input.PlaceInput? || r.input.CancelInput? || r.input.LiquidateInput? ==>
              RecordFlows(st, MarkDone(st', r), outputs, granted)
  {
    hide FlowsAt, Accounted, Claims, Remember;
  }

  lemma TickFlows(st: State, r: Record, ids: IdSource)
    requires RuntimeInv(st) && r.input.TickInput? && CoreInv(st.core) && (forall m <- st.rates :: st.rates[m].scale > 0)
    ensures var o := Tick(st, r, ids); RecordFlows(st, o.state, o.outputs, map[])
  {
    hide CoreInv, RuntimeInv, AutoLiquidate, PayRisks, Payments, RecordFlows;
    var marketId, interval := r.input.marketId, r.input.interval;
    UnchangedFlows(st, MarkInputDone(st, r), []);
    if marketId in st.rates && (marketId, interval) !in st.settled {
      var rate := st.rates[marketId];
      PaidInv(st, marketId, interval, rate);
      var payments := Payments(st, marketId, rate);
      var paid := st.(risks := PayRisks(st, marketId, payments), settled := st.settled + {(marketId, interval)});
      AnnouncedFlows(st, paid, FundingPaid(marketId, interval, payments), marketId, ids);
      var auto := AutoLiquidate(paid, marketId, ids);
      MarkedFlows(st, auto.state, r, [FundingPaid(marketId, interval, payments)] + auto.outputs, map[]);
    }
  }

  lemma MarkFlows(st: State, r: Record, ids: IdSource)
    requires RuntimeInv(st) && r.input.MarkInput? && CoreInv(st.core)
    ensures var d := UpdateMark(st, r.input.marketId, r.input.mark, ids);
            RecordFlows(st, MarkInputDone(d.state, r), d.outputs, map[])
  {
    hide CoreInv, RuntimeInv, AutoLiquidate, Remark, RecordFlows, MarkInputDone;
    var marketId, mark := r.input.marketId, r.input.mark;
    MarkedInv(st, marketId, mark);
    var marked := st.(marks := st.marks[marketId := mark], risks := Remark(st, marketId, mark));
    AnnouncedFlows(st, marked, MarkUpdated(marketId, mark), marketId, ids);
    var auto := AutoLiquidate(marked, marketId, ids);
    MarkedFlows(st, auto.state, r, [MarkUpdated(marketId, mark)] + auto.outputs, map[]);
  }

  lemma ProcessFlows(st: State, r: Record, ids: IdSource)
    requires RuntimeInv(st)
    ensures CoreInv(st.core) && (forall m <- st.rates :: st.rates[m].scale > 0)
    ensures var o := RuntimeSpec.Process(st, r, ids); RecordFlows(st, o.state, o.outputs, Opened(st, r)) || o.status == Failed
  {
    hide CoreInv, RuntimeInv, PlaceOrder, CancelOrder, Liquidate, UpdateMark, Tick, MarkDone, MarkInputDone, CoreSpec.Process,
      IsAccepted, RecordFlows, DuplicateOf, Flows, Mappable;
    InvParts(st);
    UnchangedFlows(st, st, []);
    if DuplicateOf(st, r.input).None? {
      match r.input
      case PlaceInput(_, _, _, _, _, _) =>
        var p := PlaceOrder(st, r.input, ids);
        if p.Some? {
          PlaceFlows(st, r, ids);
          MarkedFlows(st, p.value.state, r, p.value.outputs, Opened(st, r));
        }
      case CancelInput(_, _, c) =>
        CancelFlows(st, c);
        var d := CancelOrder(st, c);
        FlowsRecord(st, d.state, d.outputs);
        MarkedFlows(st, d.state, r, d.outputs, map[]);
      case LiquidateInput(_, _, q) =>
        LiquidateFlows(st, q);
        var d := Liquidate(st, q);
        FlowsRecord(st, d.state, d.outputs);
        MarkedFlows(st, d.state, r, d.outputs, map[]);
      case MarkInput(_, _, _) => MarkFlows(st, r, ids);
      case RateInput(_, marketId, rate) =>
        UnchangedFlows(st, st.(rates := st.rates[marketId := rate]), [RateUpdated(marketId, rate.interval)]);
        MarkedFlows(st, st.(rates := st.rates[marketId := rate]), r, [RateUpdated(marketId, rate.interval)], map[]);
      case TickInput(_, _, _) => TickFlows(st, r, ids);
    }
  }

  /** All reservations opened so far are accounted for by all outputs so far. */
  ghost predicate Balanced(st: State, granted: map<nat, int>, outputs: seq<Output>) {
    && (forall id <- granted :: id in st.core.idempotency.orderIds && Accounted(st.metadata, outputs, id, granted[id]))
    && (forall id <- st.metadata :: Claims(st.metadata[id]) ==> id in granted)
    && st.metadata.Keys <= st.core.idempotency.orderIds
    && (forall id :: id !in st.core.idempotency.orderIds ==> Settled(outputs, id) == 0 && Released(outputs, id) == 0)
  }

  lemma BalancedStep(st: State, st': State, granted: map<nat, int>, more: map<nat, int>, x: seq<Output>, y: seq<Output>)
    requires Balanced(st, granted, x) && RecordFlows(st, st', y, more)
    requires st'.metadata.Keys <= st'.core.idempotency.orderIds
    ensures Balanced(st', granted + more, x + y)
  {
    hide Settled, Released, Claims;
    forall id ensures Settled(x + y, id) == Settled(x, id) + Settled(y, id) && Released(x + y, id) == Released(x, id) + Released(y, id) {
      Additive(x, y, id);
    }
    forall id <- granted + more ensures Accounted(st'.metadata, x + y, id, (granted + more)[id]) {
      if id !in more { assert FlowsAt(st.metadata, st'.metadata, y, id); }
    }
    forall id <- st'.metadata | Claims(st'.metadata[id]) ensures id in granted + more {
      if id !in more { assert FlowsAt(st.metadata, st'.metadata, y, id); }
    }
  }

  /** The reservations that a run opens. */
  ghost function RunOpened(st: State, records: seq<Record>, ids: Record -> IdSource): map<nat, int>
    requires RuntimeInv(st)
    decreases |records|
  {
    if records == [] then map[]
    else
      ProcessLaw(st, records[0], ids(records[0]));
      var o := RuntimeSpec.Process(st, records[0], ids(records[0]));
      (if o.status == Failed then map[] else Opened(st, records[0])) + RunOpened(o.state, records[1..], ids)
  }

  lemma FailedNothing(st: State, r: Record, ids: IdSource)
    requires RuntimeInv(st) && CoreInv(st.core) && (forall m <- st.rates :: st.rates[m].scale > 0)
    ensures var o := RuntimeSpec.Process(st, r, ids); o.status == Failed ==> o.state == st && o.outputs == []
  {
    hide CoreInv, RuntimeInv, PlaceOrder, CancelOrder, Liquidate, UpdateMark, SettleFunding, MarkDone, MarkInputDone, DuplicateOf;
  }

  lemma StoreKeys(st: State)
    requires RuntimeInv(st)
    ensures st.metadata.Keys <= st.core.idempotency.orderIds
  {
    hide CoreInv, Covered, MetadataOk, ZeroSum, RisksOk;
  }

  lemma {:induction false} RunBalanced(st: State, records: seq<Record>, ids: Record -> IdSource, granted: map<nat, int>,
                                       before: seq<Output>)
    requires RuntimeInv(st) && Balanced(st, granted, before)
    ensures var r := RuntimeRuns.Run(st, records, ids);
            Balanced(r.state, granted + RunOpened(st, records, ids), before + r.outputs)
    decreases |records|
  {
    hide RuntimeInv, RuntimeSpec.Process, Balanced, CoreInv, Opened, RecordFlows;
    if records == [] {
      assert granted + map[] == granted && before + [] == before;
    } else {
      var r := records[0];
      ProcessLaw(st, r, ids(r));
      ProcessFlows(st, r, ids(r));
      FailedNothing(st, r, ids(r));
      var o := RuntimeSpec.Process(st, r, ids(r));
      StoreKeys(o.state);
      var more := if o.status == Failed then map[] else Opened(st, r);
      if o.status == Failed { UnchangedFlows(st, o.state, o.outputs); }
      BalancedStep(st, o.state, granted, more, before, o.outputs);
      RunBalanced(o.state, records[1..], ids, granted + more, before + o.outputs);
      var rest := RuntimeRuns.Run(o.state, records[1..], ids);
      Regrouped(granted, more, RunOpened(o.state, records[1..], ids), before, o.outputs, rest.outputs);
    }
  }

  lemma Regrouped(a: map<nat, int>, b: map<nat, int>, c: map<nat, int>, x: seq<Output>, y: seq<Output>, z: seq<Output>)
    ensures (a + b) + c == a + (b + c) && (x + y) + z == x + (y + z)
  {
  }

  /**
    Over any run from a fresh runtime, every reservation of an accepted order is accounted for by what was announced: what
    its trades settled, plus what a cancel released or what is still held, is exactly what was reserved.
   */
  lemma ReservationsAccounted(st: State, records: seq<Record>, ids: Record -> IdSource, id: nat)
    requires RuntimeInv(st) && st.metadata == map[]
    requires id in RunOpened(st, records, ids)
    ensures var r := RuntimeRuns.Run(st, records, ids);
            Accounted(r.state.metadata, r.outputs, id, RunOpened(st, records, ids)[id])
  {
    hide RuntimeInv, RunOpened, RuntimeRuns.Run, Accounted;
    assert Balanced(st, map[], []) by {
      assert forall k :: Settled([], k) == 0 && Released([], k) == 0;
    }
    RunBalanced(st, records, ids, map[], []);
    var r := RuntimeRuns.Run(st, records, ids);
    assert [] + r.outputs == r.outputs;
    assert map[] + RunOpened(st, records, ids) == RunOpened(st, records, ids);
  }
}
