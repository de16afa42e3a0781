/**
  What each kind of record does to the runtime and announces: orders, cancels, marks, rates and settlements, each followed by
  automatic liquidation where it can have made a position liquidatable.
 */
module EffectLaws {
  import opened Types
  import opened BookSpec
  import opened Queues
  import opened MatchLaws
  import opened CoreSpec
  import opened CoreLaws
  import opened Accounting
  import opened LedgerSpec
  import opened LedgerLaws
  import opened RuntimeSpec
  import opened StoreLaws
  import opened LiquidationLaws
  import opened FundingLaws
  import opened RuntimeLaws
  import opened RuntimeRuns
  import opened RiskLaws
  import opened PlacementLaws
  import opened CancelLaws
  import opened AttemptLaws
  import opened LiquidationTerms
  import RecordLaws

  /** Only the tables of handled inputs and requests may differ. */
  ghost predicate Filed(end: State, after: State) {
    after == end.(inputIds := after.inputIds, requestKeys := after.requestKeys)
  }

  lemma DoneFiles(end: State, r: Record)
    ensures Filed(end, MarkInputDone(end, r))
    ensures RecordLaws.Keyed(r.input) ==> Filed(end, MarkDone(end, r))
  {
  }

  // ---------- Marks ----------

  /** What funding left in an entry's equity. */
  function Funding(r: Risk): int {
    r.equity - r.margin - r.unrealized
  }

  /** Every open position of the market is valued at the mark with its funding kept; no other entry changes. */
  ghost predicate Revalued(st: State, m: nat, mark: int, risks: map<Key, Risk>) {
    && risks.Keys == st.risks.Keys
    && forall k <- st.risks ::
         if k.marketId == m && k in st.positions && st.positions[k].signed != 0
         then Sound(st.positions[k], risks[k], Funding(st.risks[k])) && risks[k].mark == mark
         else risks[k] == st.risks[k]
  }

  lemma RemarkRevalues(st: State, m: nat, mark: int)
    requires RisksOk(st.positions, st.risks)
    ensures Revalued(st, m, mark, Remark(st, m, mark))
  {
    hide RiskAgrees, RiskOf, Sound, Adjustment;
    var risks := Remark(st, m, mark);
    MarkLaw(st, m, mark);
    assert risks.Keys == st.risks.Keys;
    forall k <- st.risks | k.marketId == m && st.positions[k].signed != 0
      ensures Sound(st.positions[k], risks[k], Funding(st.risks[k])) && risks[k].mark == mark
    {
      SoundEntry(st.positions[k], risks[k]);
      FundingIs(st.risks[k]);
    }
  }

  lemma FundingIs(r: Risk)
    ensures Funding(r) == Adjustment(r)
  {
  }

  /** A new mark revalues its market, is announced, and has the market's due positions liquidated. */
  ghost predicate MarkDoes(st: State, m: nat, mark: int, ids: IdSource, o: Outcome) {
    exists risks: map<Key, Risk>, end: State, x: seq<Output> ::
      && Revalued(st, m, mark, risks)
      && Swept(st.(marks := st.marks[m := mark], risks := risks), m, ids, end, x)
      && o.outputs == [MarkUpdated(m, mark)] + x && Filed(end, o.state)
  }

  lemma MarkEffect(st: State, r: Record, ids: IdSource)
    requires RuntimeInv(st) && r.input.MarkInput? && !RecordLaws.Known(st, r.input)
    ensures CoreInv(st.core) && (forall m <- st.rates :: st.rates[m].scale > 0)
    ensures MarkDoes(st, r.input.marketId, r.input.mark, ids, RuntimeSpec.Process(st, r, ids))
  {
    hide RuntimeInv, CoreInv, AutoLiquidate, Revalued, Swept, MarkInputDone, Filed, Remark;
    var m, mark := r.input.marketId, r.input.mark;
    InvParts(st);
    RisksOf(st);
    RecordLaws.DuplicateMeans(st, r.input);
    RemarkRevalues(st, m, mark);
    MarkedInv(st, m, mark);
    var marked := st.(marks := st.marks[m := mark], risks := Remark(st, m, mark));
    AutoSwept(marked, m, ids);
    DoneFiles(AutoLiquidate(marked, m, ids).state, r);
  }

  // ---------- Rates and settlements ----------

  lemma RateEffect(st: State, r: Record, ids: IdSource)
    requires RuntimeInv(st) && r.input.RateInput? && !RecordLaws.Known(st, r.input) && r.input.rate.scale > 0
    ensures CoreInv(st.core) && (forall m <- st.rates :: st.rates[m].scale > 0)
    ensures var o, i := RuntimeSpec.Process(st, r, ids), r.input;
            && o.outputs == [RateUpdated(i.marketId, i.rate.interval)]
            && Filed(st.(rates := st.rates[i.marketId := i.rate]), o.state)
  {
    hide RuntimeInv, CoreInv, MarkInputDone, Filed;
    InvParts(st);
    RecordLaws.DuplicateMeans(st, r.input);
    DoneFiles(st.(rates := st.rates[r.input.marketId := r.input.rate]), r);
  }

  /** Every paid position's entry carries the payment in its equity, at the settlement's mark; no other entry changes. */
  ghost predicate PaidInto(st: State, payments: map<Key, int>, risks: map<Key, Risk>) {
    && risks.Keys == st.risks.Keys
    && forall k <- st.risks ::
         if k in payments && k in st.positions
         then Sound(st.positions[k], risks[k], Funding(st.risks[k]) + payments[k]) && risks[k].mark == RecordLaws.SettledAt(st, k)
         else risks[k] == st.risks[k]
  }

  lemma PayRisksPays(st: State, m: nat, payments: map<Key, int>)
    requires RisksOk(st.positions, st.risks) && payments.Keys <= st.positions.Keys && forall k <- payments :: k.marketId == m
    ensures PaidInto(st, payments, PayRisks(st, m, payments))
  {
    hide RiskAgrees, PaidRisk, Sound, Adjustment;
    var risks := PayRisks(st, m, payments);
    PayLaw(st, m, payments);
    assert risks.Keys == st.risks.Keys;
    forall k <- st.risks | k in payments
      ensures Sound(st.positions[k], risks[k], Funding(st.risks[k]) + payments[k]) && risks[k].mark == RecordLaws.SettledAt(st, k)
    {
      SoundEntry(st.positions[k], risks[k]);
      FundingIs(st.risks[k]);
      PaidMark(st.positions[k], SettlementMark(st.positions[k], st.marks, m), Carried(st.risks, k), payments[k]);
    }
  }

  /** A due settlement pays every open position of its market, books it, and has the market's due positions liquidated. */
  ghost predicate TickDoes(st: State, m: nat, interval: string, ids: IdSource, o: Outcome) {
    m in st.rates &&
    exists payments: map<Key, int>, risks: map<Key, Risk>, end: State, x: seq<Output> ::
      && RecordLaws.PaysAll(st, m, st.rates[m], payments) && PaidInto(st, payments, risks)
      && Swept(st.(risks := risks, settled := st.settled + {(m, interval)}), m, ids, end, x)
      && o.outputs == [FundingPaid(m, interval, payments)] + x && Filed(end, o.state)
  }

  lemma TickEffect(st: State, r: Record, ids: IdSource)
    requires RuntimeInv(st) && r.input.TickInput? && !RecordLaws.Known(st, r.input)
    requires (r.input.marketId, r.input.interval) !in st.settled
    requires r.input.marketId in st.rates && st.rates[r.input.marketId].interval == r.input.interval
    ensures CoreInv(st.core) && (forall m <- st.rates :: st.rates[m].scale > 0)
    ensures TickDoes(st, r.input.marketId, r.input.interval, ids, RuntimeSpec.Process(st, r, ids))
  {
    hide RuntimeInv, CoreInv, AutoLiquidate, PaidInto, Swept, MarkInputDone, Filed, PayRisks, Payments, RecordLaws.PaysAll;
    var m, interval := r.input.marketId, r.input.interval;
    InvParts(st);
    RisksOf(st);
    RecordLaws.DuplicateMeans(st, r.input);
    var rate := st.rates[m];
    var payments := Payments(st, m, rate);
    RecordLaws.PaymentsDue(st, m, rate);
    PaysOwn(st, m, rate, payments);
    PayRisksPays(st, m, payments);
    PaidInv(st, m, interval, rate);
    var paid := st.(risks := PayRisks(st, m, payments), settled := st.settled + {(m, interval)});
    AutoSwept(paid, m, ids);
    DoneFiles(AutoLiquidate(paid, m, ids).state, r);
  }

  lemma PaysOwn(st: State, m: nat, rate: FundingRate, payments: map<Key, int>)
    requires RecordLaws.PaysAll(st, m, rate, payments)
    ensures payments.Keys <= st.positions.Keys && forall k <- payments :: k.marketId == m
  {
  }

  // ---------- Cancels ----------

  /** A cancel releases what is left of the order's reservation and forgets it, or changes nothing but the core's counters. */
  ghost predicate CancelDoes(st: State, c: CancelOrderCommand, r: Step)
    requires CoreInv(st.core)
  {
    && r.state == st.(core := CoreStep(st.core, Cancel(c)).core, metadata := r.state.metadata)
    && if MayCancel(st.core, c)
       then exists o :: && Named(Resting(st.core.books[c.symbolId]), c, o) && o.orderId in st.metadata
                        && r.outputs == [CancelReleased(o.orderId, st.metadata[o.orderId].remainingReserved)]
                        && r.state.metadata == st.metadata - {o.orderId}
       else r.outputs == [] && r.state.metadata == st.metadata
  }

  /** A cancel record that is new and names its order does what its cancel does. */
  lemma CancelEffect(st: State, r: Record, ids: IdSource)
    requires RuntimeInv(st) && r.input.CancelInput? && !RecordLaws.Known(st, r.input) && !RecordLaws.Unusable(st, r.input)
    ensures CoreInv(st.core) && (forall m <- st.rates :: st.rates[m].scale > 0)
    ensures var o := RuntimeSpec.Process(st, r, ids);
            exists end :: CancelDoes(st, r.input.cancel, Step(end, o.outputs)) && Filed(end, o.state)
  {
    hide RuntimeInv, CoreInv, MarkDone, MarkInputDone, Filed, CancelOrder, CancelDoes;
    InvParts(st);
    RecordLaws.DuplicateMeans(st, r.input);
    CancelDone(st, r.input.cancel);
    var done, o := CancelOrder(st, r.input.cancel), RuntimeSpec.Process(st, r, ids);
    assert done == Step(done.state, o.outputs);
    DoneFiles(done.state, r);
    assert CancelDoes(st, r.input.cancel, Step(done.state, o.outputs)) && Filed(done.state, o.state);
  }

  /** A new liquidation record is answered by carrying out the liquidation. */
  lemma LiquidationEffect(st: State, r: Record, ids: IdSource)
    requires RuntimeInv(st) && r.input.LiquidateInput? && !RecordLaws.Known(st, r.input)
    ensures CoreInv(st.core) && (forall m <- st.rates :: st.rates[m].scale > 0)
    ensures var o, done := RuntimeSpec.Process(st, r, ids), Liquidate(st, r.input.liquidation);
            o.outputs == done.outputs && Filed(done.state, o.state)
  {
    hide RuntimeInv, CoreInv, MarkDone, MarkInputDone, Filed, Liquidate;
    InvParts(st);
    RecordLaws.DuplicateMeans(st, r.input);
    DoneFiles(Liquidate(st, r.input.liquidation).state, r);
  }

  lemma CancelDone(st: State, c: CancelOrderCommand)
    requires RuntimeInv(st)
    ensures CoreInv(st.core) && CancelDoes(st, c, CancelOrder(st, c))
  {
    hide CoreSpec.Process, CoreInv, RuntimeInv, Named, BookAll, Completed;
    InvCore(st);
    InvStore(st);
    CancelsIff(st.core, c);
    CancelLaw(st, c);
    var core := CoreStep(st.core, Cancel(c));
    if MayCancel(st.core, c) {
      var o :| Named(Resting(st.core.books[c.symbolId]), c, o) && TakenOut(st.core, c, core, o);
    } else {
      RefusedCancel(LedgerOf(st, None), core.events, st.marks);
      assert st.metadata - {} == st.metadata;
    }
  }

  lemma RefusedCancel(l: Ledger, events: seq<EngineEvent>, marks: Marks)
    requires |events| == 1 && events[0].OrderRejected?
    ensures BookAll(l, events, marks, CancelKind) == Booked(l, []) && Completed(events) == {}
  {
    hide Find;
    assert events[1..] == [];
    assert BookAll(l, [], marks, CancelKind) == Booked(l, []);
    assert Completed([]) == {};
  }

  // ---------- Orders ----------

  /** The order as it is sent to the book: a reduce-only order for no more than the position, immediate or cancel. */
  function Sent(st: State, i: Input): PlaceOrderCommand
    requires i.PlaceInput?
  {
    var signed := PositionAt(st.positions, Key(i.order.userId, i.order.symbolId)).signed;
    var held: nat := if signed < 0 then -signed else signed;
    if i.reduceOnly then i.order.(quantity := if held < i.order.quantity then held else i.order.quantity, timeInForce := IOC)
    else i.order
  }

  lemma SentIs(st: State, i: Input)
    requires i.PlaceInput?
    ensures CoreOrder(st, i) == if RecordLaws.Idle(st, i) then None else Some(Sent(st, i))
  {
  }

  /** The lots that an accepted order takes. */
  ghost function Takes(core: Core, c: PlaceOrderCommand): nat
    requires c.symbolId in core.books
  {
    var within := LotsFor(c, Opponents(core, c)); if within < c.quantity then within else c.quantity
  }

  /** Metadata that says of an order what its input said, with some of it open. */
  predicate Recalls(i: Input, md: Metadata, open: int)
    requires i.PlaceInput?
  {
    && md.orderId == i.order.orderId && md.marketId == i.order.symbolId && md.userId == i.order.userId && md.side == i.order.side
    && md.original == i.order.quantity && md.remaining == open && !md.reduceOnly && md.reserved == i.reserved
    && md.leverage == i.leverage
  }

  /** What an order that is turned away does: nothing, but its whole reservation is announced as released. */
  ghost predicate Dismissed(st: State, i: Input, mid: State, x: seq<Output>)
    requires i.PlaceInput?
  {
    && mid.positions == st.positions && mid.risks == st.risks && mid.metadata == st.metadata
    && x == if i.reserved > 0 then [ReservationReleased(i.order.orderId, i.reserved)] else []
  }

  /**
    What an accepted order does beyond its trades: it is remembered exactly while some of it is open; a reduce-only order is
    never remembered, and what it did not fill is announced as expired.
   */
  ghost predicate Fulfilled(st: State, i: Input, c: PlaceOrderCommand, mid: State, x: seq<Output>)
    requires i.PlaceInput? && c.symbolId in st.core.books
  {
    var taken := Takes(st.core, c);
    && (forall o <- x :: !o.ReservationReleased? && !o.CancelReleased?)
    && (i.reduceOnly ==>
          && c.orderId !in mid.metadata
          && (taken < i.order.quantity ==>
                x != [] && x[|x| - 1].OrderExpired? && x[|x| - 1].orderId == c.orderId && x[|x| - 1].expired == i.order.quantity - taken))
    && (!i.reduceOnly ==>
          && (c.orderId in mid.metadata <==> taken < c.quantity)
          && (taken < c.quantity ==> Recalls(i, mid.metadata[c.orderId], c.quantity - taken)))
  }

  /** The order alone, before any automatic liquidation: the core processes it, and the core's trades are reported. */
  ghost predicate Ordered(st: State, i: Input, c: PlaceOrderCommand, mid: State, x: seq<Output>)
    requires i.PlaceInput? && CoreInv(st.core)
  {
    var core := CoreStep(st.core, Place(c));
    && mid == st.(core := core.core, metadata := mid.metadata, positions := mid.positions, risks := mid.risks)
    && Reported(x) == Trades(core.events)
    && if Verdict(st.core, c).Some? then Dismissed(st, i, mid, x)
       else c.symbolId in st.core.books && Fulfilled(st, i, c, mid, x)
  }

  lemma DismissedOrder(st: State, i: Input, c: PlaceOrderCommand)
    requires RuntimeInv(st) && i.PlaceInput? && CoreOrder(st, i) == Some(c) && Mappable(c) && CoreInv(st.core)
    requires Verdict(st.core, c).Some?
    ensures RunOrder(st, i, c).Some? && Ordered(st, i, c, RunOrder(st, i, c).value.state, RunOrder(st, i, c).value.outputs)
  {
    hide CoreSpec.Process, CoreInv, RuntimeInv, BookAll, Completed, Verdict;
    Decided(st.core, c);
    InvStore(st);
    var core, l := CoreStep(st.core, Place(c)), LedgerOf(st, Some(PlaceMetadata(i)));
    RefusedOutputs(l, core.events, st.marks, c.orderId);
    OrderMetadata(st, i, c);
    BookReports(l, core.events, st.marks, PlaceKind);
    assert st.metadata - {} == st.metadata;
  }

  lemma OrderMetadata(st: State, i: Input, c: PlaceOrderCommand)
    requires i.PlaceInput? && CoreOrder(st, i) == Some(c) && Mappable(c)
    ensures PlaceMetadata(i).orderId == c.orderId == i.order.orderId > 0 && PlaceMetadata(i).remainingReserved == i.reserved
  {
  }

  lemma RefusedOutputs(l: Ledger, events: seq<EngineEvent>, marks: Marks, id: nat)
    requires |events| == 1 && events[0].OrderRejected? && id > 0 && events[0].rejectedOrderId == Some(id)
    requires l.pending.Some? && l.pending.value.orderId == id
    ensures var left := l.pending.value.remainingReserved;
            BookAll(l, events, marks, PlaceKind) == Booked(l, if left > 0 then [ReservationReleased(id, left)] else [])
    ensures Completed(events) == {}
  {
    assert events[1..] == [];
    NoBooking(l, marks, PlaceKind);
    assert BookEvent(l, events[0], marks, PlaceKind).outputs + [] == BookEvent(l, events[0], marks, PlaceKind).outputs;
    assert Completed([]) == {};
  }

  /** Booking trades announces no release. */
  lemma {:induction false} NothingReleased(l: Ledger, events: seq<EngineEvent>, marks: Marks, kind: CommandKind)
    requires forall e <- events :: !e.OrderRejected? && !e.OrderCancelled?
    ensures forall o <- BookAll(l, events, marks, kind).outputs :: o.TradeOutput? || o.AccountDelta? || o.PositionChanged?
    decreases |events|
  {
    hide ApplyFill, RiskOf, AllocateMargin, RealizedPnl, Settlements, Find, Store;
    if events != [] {
      assert events[0] in events;
      NothingReleased(BookEvent(l, events[0], marks, kind).ledger, events[1..], marks, kind);
    }
  }

  lemma {:induction false} MatchUncancelled(symbolId: nat, side: Side, q: Queue, taker: Taker, s: SequenceState, last: Option<int>)
    requires SaneQuantities(q) && taker.remaining <= taker.original
    ensures forall e <- Match(symbolId, side, q, taker, s, last).events :: !e.OrderRejected? && !e.OrderCancelled?
    decreases |q| + taker.remaining
  {
    hide LevelLots, SaneQuantities, ConsumeFront;
    if Matchable(side, q, taker) {
      MatchUnfolds(symbolId, side, q, taker, s, last);
      MatchUncancelled(symbolId, side, FrontQueue(q, taker), FrontTaker(q, taker), AfterFill(s), Some(q[0].price));
    } else {
      MatchStops(symbolId, side, q, taker, s, last);
    }
  }

  lemma AcceptedUncancelled(core: Core, c: PlaceOrderCommand)
    requires CoreInv(core) && Acceptable(core, c)
    ensures forall e <- CoreStep(core, Place(c)).events :: !e.OrderRejected? && !e.OrderCancelled?
  {
    hide CoreInv, Match, Insert, LevelLots, PlaceRejection, SaneQuantities, ValidatePlace, CoreSpec.Process;
    BookSaneAt(core, c.symbolId);
    AcceptedIff(core, c);
    var book, opp := core.books[c.symbolId], c.side.Opposite();
    MatchUncancelled(book.config.symbolId, opp, book.SideQueue(opp), Taker(c.orderId, MatchLimit(c), c.quantity, c.quantity),
                     NextEvent(core.sequences), book.lastTradePrice);
  }

  /** An accepted order is among the completed ones exactly if all of it was taken. */
  lemma CompletedIff(core: Core, c: PlaceOrderCommand)
    requires CoreInv(core) && Acceptable(core, c) && c.quantity > 0
    ensures c.orderId in Completed(CoreStep(core, Place(c)).events) <==> Taken(core, c) == c.quantity
  {
    hide CoreInv, Match, PlaceRejection, SaneQuantities, ValidatePlace, CoreSpec.Process, Completed, ProcessPlace, Taken, UniqueIds, HasId;
    AcceptedIff(core, c);
    BookSaneAt(core, c.symbolId);
    NeverResting(core, c);
    OpponentsSorted(core, c);
    OpponentsUnique(core, c);
    LeftOver(core, c);
    var book, opp := core.books[c.symbolId], c.side.Opposite();
    PlaceCompletes(book, core.sequences, c);
    MatchCompletes(book.config.symbolId, opp, book.SideQueue(opp), Taker(c.orderId, MatchLimit(c), c.quantity, c.quantity),
                   NextEvent(core.sequences), book.lastTradePrice);
  }

  lemma OpponentsUnique(core: Core, c: PlaceOrderCommand)
    requires CoreInv(core) && c.symbolId in core.books
    ensures UniqueIds(Opponents(core, c))
  {
    hide Sorted, SaneQuantities, ValidSymbolPrice;
  }

  /** The ledger after an accepted order: its own metadata is as its input said, with what it took gone. */
  lemma OwnLedger(st: State, i: Input, c: PlaceOrderCommand)
    requires RuntimeInv(st) && i.PlaceInput? && CoreOrder(st, i) == Some(c) && Mappable(c) && CoreInv(st.core)
    ensures var p := After(st, i, c).pending;
            && p.Some? && SameOrder(PlaceMetadata(i), p.value) && p.value.remaining == i.order.quantity - Taken(st.core, c)
  {
    hide CoreSpec.Process, CoreInv, BookAll, StoreOk, LedgerOk, StandsFor, Taken, OwnTaken, Net, Mappable;
    PlaceStands(st, i, c);
    var md := PlaceMetadata(i);
    StandsStanding(md, c);
    PendingLedger(st, md);
    InvStore(st);
    BookedExactly(st.core, c, LedgerOf(st, Some(md)), st.marks, PlaceKind);
  }

  lemma FulfilledOrder(st: State, i: Input, c: PlaceOrderCommand)
    requires RuntimeInv(st) && i.PlaceInput? && CoreOrder(st, i) == Some(c) && Mappable(c) && CoreInv(st.core)
    requires Verdict(st.core, c).None?
    ensures RunOrder(st, i, c).Some? && Ordered(st, i, c, RunOrder(st, i, c).value.state, RunOrder(st, i, c).value.outputs)
  {
    hide CoreSpec.Process, CoreInv, RuntimeInv, BookAll, Completed, Verdict, RunOrder, Taken, Mappable, CoreOrder, Fulfilled, FilledBy,
      PlaceRejection, ValidatePlace, StoreOk, OrderReport, OrderStore;
    AcceptableIff(st.core, c);
    Decided(st.core, c);
    RunOrderLaw(st, i, c);
    OrderShape(st, i, c);
    var core, l := CoreStep(st.core, Place(c)), LedgerOf(st, Some(PlaceMetadata(i)));
    var b, r := BookAll(l, core.events, st.marks, PlaceKind), RunOrder(st, i, c).value;
    BookReports(l, core.events, st.marks, PlaceKind);
    var report := OrderReport(i, b.ledger, c.orderId, core.events);
    ReportShape(i, b.ledger, c.orderId, core.events);
    NoneReported(report);
    ReportedAppend(b.outputs, report);
    assert Reported(b.outputs) + [] == Reported(b.outputs);
    AcceptedUncancelled(st.core, c);
    NothingReleased(l, core.events, st.marks, PlaceKind);
    FulfilledStore(st, i, c, r.state, r.outputs);
  }

  lemma ReportShape(i: Input, l: Ledger, orderId: nat, events: seq<EngineEvent>)
    requires i.PlaceInput?
    ensures forall o <- OrderReport(i, l, orderId, events) :: o.OrderExpired?
  {
  }

  lemma SizesMatch(st: State, i: Input, c: PlaceOrderCommand)
    requires i.PlaceInput? && CoreOrder(st, i) == Some(c) && Mappable(c)
    ensures c.orderId == i.order.orderId && c.quantity > 0 && (!i.reduceOnly ==> c == i.order)
  {
  }

  lemma FulfilledStore(st: State, i: Input, c: PlaceOrderCommand, mid: State, x: seq<Output>)
    requires RuntimeInv(st) && i.PlaceInput? && CoreOrder(st, i) == Some(c) && Mappable(c) && CoreInv(st.core)
    requires Acceptable(st.core, c) && IsAccepted(CoreStep(st.core, Place(c)).events)
    requires var events, b := CoreStep(st.core, Place(c)).events, BookAll(LedgerOf(st, Some(PlaceMetadata(i))),
                                                                        CoreStep(st.core, Place(c)).events, st.marks, PlaceKind);
             && mid.metadata == OrderStore(b.ledger, c.orderId, i.reduceOnly, true, Completed(events))
             && x == b.outputs + OrderReport(i, b.ledger, c.orderId, events)
             && forall o <- b.outputs :: o.TradeOutput? || o.AccountDelta? || o.PositionChanged?
    ensures Fulfilled(st, i, c, mid, x)
  {
    hide CoreSpec.Process, CoreInv, RuntimeInv, BookAll, Completed, Taken, Mappable, CoreOrder, FilledBy, PlaceRejection, ValidatePlace,
      LotsFor;
    OwnLedger(st, i, c);
    SizesMatch(st, i, c);
    FilledIsTaken(st.core, c);
    TakenAgrees(st.core, c);
    CompletedIff(st.core, c);
    AcceptedIff(st.core, c);
    NotStored(st, i, c);
  }

  lemma NotStored(st: State, i: Input, c: PlaceOrderCommand)
    requires RuntimeInv(st) && i.PlaceInput? && CoreOrder(st, i) == Some(c) && Mappable(c) && CoreInv(st.core)
    requires Accepting(st.core, c, CoreStep(st.core, Place(c))) && IsAccepted(CoreStep(st.core, Place(c)).events)
    ensures c.orderId !in After(st, i, c).metadata
  {
    hide CoreSpec.Process, CoreInv, RuntimeInv, BookAll, Completed, Accepting, Mappable, CoreOrder, WellBooked, StoreOk, OrderStore;
    AcceptedStore(st, i, c);
  }

  /** What an order record does: a reduce-only order with nothing to reduce is dismissed; any other reaches the core. */
  ghost predicate PlaceDoes(st: State, i: Input, ids: IdSource, o: Outcome)
    requires i.PlaceInput? && CoreInv(st.core)
  {
    if RecordLaws.Idle(st, i) then exists mid :: Dismissed(st, i, mid, o.outputs) && mid == st && Filed(mid, o.state)
    else
      exists mid: State, x: seq<Output>, end: State, y: seq<Output> ::
        && Ordered(st, i, Sent(st, i), mid, x) && o.outputs == x + y && Filed(end, o.state)
        && if Reported(x) != [] then Swept(mid, i.order.symbolId, ids, end, y) else end == mid && y == []
  }

  /**
    An order record that is new and usable sends the order to the core, reports the core's trades, keeps or releases its
    reservation, and if anything traded has the market's due positions liquidated.
   */
  lemma PlaceEffect(st: State, r: Record, ids: IdSource)
    requires RuntimeInv(st) && r.input.PlaceInput? && !RecordLaws.Known(st, r.input) && !RecordLaws.Unusable(st, r.input)
    ensures CoreInv(st.core) && (forall m <- st.rates :: st.rates[m].scale > 0)
    ensures PlaceDoes(st, r.input, ids, RuntimeSpec.Process(st, r, ids))
  {
    hide RuntimeInv, CoreInv, AutoLiquidate, Swept, MarkDone, MarkInputDone, Filed, RunOrder, Ordered, Mappable, CoreOrder, Reported, Sent,
      RecordLaws.Unusable, RecordLaws.Idle, RuntimeSpec.Traded;
    InvParts(st);
    RecordLaws.DuplicateMeans(st, r.input);
    RecordLaws.PlaceUnusable(st, r.input);
    SentIs(st, r.input);
    var i := r.input;
    var o := RuntimeSpec.Process(st, r, ids);
    if RecordLaws.Idle(st, i) {
      DoneFiles(st, r);
      assert Dismissed(st, i, st, o.outputs);
    } else {
      var c := Sent(st, i);
      OrderSwept(st, i, c, ids);
      SentMarket(st, i);
      DoneFiles(PlaceOrder(st, i, ids).value.state, r);
    }
  }

  lemma SentMarket(st: State, i: Input)
    requires i.PlaceInput?
    ensures Sent(st, i).symbolId == i.order.symbolId
  {
  }

  lemma OrderSwept(st: State, i: Input, c: PlaceOrderCommand, ids: IdSource)
    requires RuntimeInv(st) && i.PlaceInput? && CoreOrder(st, i) == Some(c) && Mappable(c) && CoreInv(st.core)
    ensures var p := PlaceOrder(st, i, ids);
            p.Some? && exists mid: State, x: seq<Output>, y: seq<Output> ::
              && Ordered(st, i, c, mid, x) && p.value.outputs == x + y
              && if Reported(x) != [] then Swept(mid, c.symbolId, ids, p.value.state, y) else p.value.state == mid && y == []
  {
    hide RuntimeInv, CoreInv, AutoLiquidate, Swept, RunOrder, Mappable, CoreOrder, Reported, Verdict, Moved, CoreSpec.Process,
      Dismissed, Fulfilled;
    if Verdict(st.core, c).Some? { DismissedOrder(st, i, c); } else { FulfilledOrder(st, i, c); }
    RunOrderLaw(st, i, c);
    var placed := RunOrder(st, i, c).value;
    HasTradeIff(CoreStep(st.core, Place(c)).events);
    InvCore(placed.state);
    AutoSwept(placed.state, c.symbolId, ids);
    assert placed.outputs + [] == placed.outputs;
  }
}
