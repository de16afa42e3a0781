/**
  The terms of a liquidation, from the request, the position, the stored mark, the book and the counterparties: when it does
  anything, what order it sends, and at which prices it closes.
 */
module LiquidationTerms {
  import opened Types
  import opened BookSpec
  import opened Queues
  import opened MatchLaws
  import opened CoreSpec
  import opened CoreLaws
  import opened Accounting
  import opened LedgerSpec
  import opened RuntimeSpec
  import opened StoreLaws
  import opened LiquidationLaws
  import opened PlacementLaws
  import opened AttemptLaws

  // ---------- The trades that outputs report ----------

  function ReportedOne(o: Output): seq<MatchLaws.Fill> {
    if o.TradeOutput? then [MatchLaws.Fill(o.makerOrderId, o.takerOrderId, o.price, o.quantity)] else []
  }

  /** The reported trades, in order. */
  function Reported(outputs: seq<Output>): seq<MatchLaws.Fill> {
    if outputs == [] then [] else ReportedOne(outputs[0]) + Reported(outputs[1..])
  }

  lemma {:induction false} ReportedAppend(a: seq<Output>, b: seq<Output>)
    ensures Reported(a + b) == Reported(a) + Reported(b)
  {
    hide ReportedOne;
    if a == [] {
      assert a + b == b;
    } else {
      assert (a + b)[1..] == a[1..] + b;
      ReportedAppend(a[1..], b);
    }
  }

  lemma {:induction false} NoneReported(outputs: seq<Output>)
    requires forall o <- outputs :: !o.TradeOutput?
    ensures Reported(outputs) == []
  {
    if outputs != [] {
      assert outputs[0] in outputs;
      NoneReported(outputs[1..]);
    }
  }

  lemma SideUnreported(l: Ledger, orderId: nat, fill: nat, price: int, marks: Marks)
    ensures Reported(BookSide(l, orderId, fill, price, marks).outputs) == []
  {
    hide ApplyFill, RiskOf, AllocateMargin, RealizedPnl, Find, Store, Reported;
    NoneReported(BookSide(l, orderId, fill, price, marks).outputs);
  }

  lemma TradeReported(l: Ledger, makerId: nat, takerId: nat, fill: nat, price: int, marks: Marks, kind: CommandKind)
    ensures Reported(BookTrade(l, makerId, takerId, fill, price, marks, kind).outputs)
            == [MatchLaws.Fill(if kind == AdlKind then 0 else makerId, takerId, price, fill)]
  {
    hide BookSide, Settlements;
    var x := BookSide(l, makerId, fill, price, marks);
    var y := BookSide(x.ledger, takerId, fill, price, marks);
    var b := BookTrade(l, makerId, takerId, fill, price, marks, kind);
    SideUnreported(l, makerId, fill, price, marks);
    SideUnreported(x.ledger, takerId, fill, price, marks);
    ReportedAppend(x.outputs, y.outputs);
    assert b.outputs[1..] == x.outputs + y.outputs;
  }

  /** What booking the core's events reports is what the core traded. */
  lemma {:induction false} BookReports(l: Ledger, events: seq<EngineEvent>, marks: Marks, kind: CommandKind)
    requires kind != AdlKind
    ensures Reported(BookAll(l, events, marks, kind).outputs) == Trades(events)
    decreases |events|
  {
    hide BookTrade, Find;
    if events != [] {
      var e, first := events[0], BookEvent(l, events[0], marks, kind);
      if e.TradeExecuted? {
        TradeReported(l, e.makerOrderId, e.takerOrderId, e.quantity, e.price, marks, kind);
      } else {
        NoneReported(first.outputs);
      }
      BookReports(first.ledger, events[1..], marks, kind);
      ReportedAppend(first.outputs, BookAll(first.ledger, events[1..], marks, kind).outputs);
    }
  }

  ghost predicate AllAt(fills: seq<MatchLaws.Fill>, price: int) {
    forall f <- fills :: f.price == price
  }

  /** Deleveraging trades at the liquidation's price. */
  lemma {:induction false} AdlReports(l: Ledger, cs: seq<Candidate>, remaining: nat, price: int, marks: Marks)
    ensures AllAt(Reported(AdlFills(l, cs, remaining, price, marks).outputs), price)
    decreases |cs|
  {
    hide BookTrade, FreeId;
    if cs != [] && remaining > 0 && l.pending.Some? {
      var fill: nat := Min(remaining, Abs(cs[0].position.signed));
      if fill == 0 {
        AdlReports(l, cs[1..], remaining, price, marks);
      } else {
        var one := AdlFill(l, cs[0], fill, price, marks);
        var id := FreeId(1, l.metadata.Keys + {l.pending.value.orderId});
        var md := Metadata(id, cs[0].key.marketId, cs[0].key.userId, CloseSide(cs[0].position.signed), fill, fill, true, 0, 0,
                           cs[0].position.leverage);
        TradeReported(l.(metadata := l.metadata[id := md]), id, l.pending.value.orderId, fill, price, marks, AdlKind);
        AdlReports(one.ledger, cs[1..], remaining - fill, price, marks);
        ReportedAppend(one.outputs, AdlFills(one.ledger, cs[1..], remaining - fill, price, marks).outputs);
      }
    }
  }

  // ---------- What is asked ----------

  /** The position may be liquidated: open on the side the request names, and liquidatable. */
  ghost predicate Ripe(st: State, q: Liquidation) {
    && q.key in st.positions && q.key in st.risks
    && (if q.side == Buy then st.positions[q.key].signed > 0 else st.positions[q.key].signed < 0)
    && (st.risks[q.key].status == Liquidatable || st.risks[q.key].equity <= st.risks[q.key].maintenance)
  }

  /** The price of the request; without one the stored mark; without a positive mark the position's average. */
  ghost predicate Asking(st: State, q: Liquidation, price: int)
    requires q.key in st.positions
  {
    var m := q.key.marketId;
    && (q.price > 0 ==> price == q.price)
    && (q.price <= 0 && m in st.marks && st.marks[m] > 0 ==> price == st.marks[m])
    && (q.price <= 0 && (m !in st.marks || st.marks[m] <= 0) ==> price == st.positions[q.key].average)
  }

  /** The size of the request, capped at the position; the whole position without one. */
  function Size(q: Liquidation, signed: int): nat {
    var held: nat := if signed < 0 then -signed else signed;
    if 0 < q.quantity < held then q.quantity else held
  }

  /** The order against the book: immediate or cancel, for the size asked, at the price asked, on the closing side. */
  function Closing(q: Liquidation, signed: int, price: int): PlaceOrderCommand {
    PlaceOrderCommand(q.commandId, q.clientOrderId, q.orderId, q.key.userId, q.key.marketId, if signed > 0 then Sell else Buy, Limit,
                      IOC, price, Size(q, signed))
  }

  /** The book would take some of it. */
  ghost predicate Takeable(core: Core, c: PlaceOrderCommand) {
    c.symbolId > 0 && Verdict(core, c).None? && c.symbolId in core.books && LotsFor(c, Opponents(core, c)) > 0
  }

  lemma AskedPrice(st: State, q: Liquidation)
    requires q.key in st.positions
    ensures Asking(st, q, LiquidationPrice(q, st.positions[q.key], st.marks))
    ensures forall price: int :: Asking(st, q, price) ==> price == LiquidationPrice(q, st.positions[q.key], st.marks)
  {
  }

  lemma ClosingOrder(q: Liquidation, signed: int, price: int)
    requires signed != 0
    ensures Closing(q, signed, price) == LiquidationOrder(q, signed, price) && Size(q, signed) > 0
  {
  }

  lemma {:induction false} SomeLots(c: PlaceOrderCommand, q: Queue)
    requires SaneQuantities(q) && Sorted(c.side.Opposite(), q)
    ensures LotsFor(c, q) > 0 <==> q != [] && Agrees(c, q[0].price)
  {
    if q != [] {
      AgreesCrosses(c, q[0].price);
      CrossingIsAgreeing(c, q);
      assert q[0] in q;
    }
  }

  lemma FrontLevel(q: Queue)
    requires SaneQuantities(q) && q != []
    ensures LevelLots(q, q[0].price) > 0
  {
    assert q[0] in q;
    FrontLots(q);
  }

  /** The look at the book's front, taken before the order is sent, says what the whole side says. */
  lemma CrossingMeans(core: Core, c: PlaceOrderCommand)
    requires CoreInv(core) && c.orderType == Limit && c.price > 0
    ensures CrossingLiquidity(core, c.symbolId, c.side, c.price)
            <==> c.symbolId > 0 && c.symbolId in core.books && LotsFor(c, Opponents(core, c)) > 0
  {
    hide CoreInv, LevelLots, SaneQuantities, Sorted, LotsFor;
    if c.symbolId in core.books {
      OpponentsSorted(core, c);
      var q := Opponents(core, c);
      SomeLots(c, q);
      if q != [] {
        FrontLevel(q);
        AgreesCrosses(c, q[0].price);
      }
    }
  }

  /** The core trades exactly if the order is not turned away and something agrees with it. */
  lemma TradesIff(core: Core, c: PlaceOrderCommand)
    requires CoreInv(core) && c.quantity > 0
    ensures HasTrade(CoreStep(core, Place(c)).events)
            <==> Verdict(core, c).None? && c.symbolId in core.books && LotsFor(c, Opponents(core, c)) > 0
  {
    hide CoreInv, Verdict, CoreSpec.Process, LotsFor, Agrees, RuntimeSpec.Traded;
    Decided(core, c);
    var events := CoreStep(core, Place(c)).events;
    HasTradeIff(events);
    if Verdict(core, c).None? {
      TradesAsked(core, c);
      var t, q := Trades(events), Opponents(core, c);
      if t != [] {
        assert TradesWith(c, q, 0, t[0]);
        OpponentsSorted(core, c);
        assert q[..0] == [];
        assert q[0] in q;
      }
    }
  }

  lemma {:induction false} HasTradeIff(events: seq<EngineEvent>)
    ensures HasTrade(events) <==> Trades(events) != []
  {
    if events != [] {
      HasTradeIff(events[1..]);
      assert forall i :: 0 <= i < |events[1..]| ==> events[1..][i] == events[i + 1];
      if HasTrade(events[1..]) {
        var i :| 0 <= i < |events[1..]| && events[1..][i].TradeExecuted?;
        assert events[i + 1].TradeExecuted?;
      }
    }
  }

  lemma {:induction false} SomeAvailable(cs: seq<Candidate>)
    requires forall c <- cs :: c.position.signed != 0
    ensures AvailableLots(cs) > 0 <==> cs != []
  {
    if cs != [] { assert cs[0] in cs; }
  }

  /** Something is offered exactly if there is a counterparty. */
  lemma OfferedIff(l: Ledger, key: Key)
    ensures Offered(l, key) > 0 <==> exists k :: Counterparty(l, key, k)
  {
    hide AdlCandidates, Preferred;
    var cs := AdlCandidates(key, PositionAt(l.positions, key).signed, l.positions, l.risks);
    CandidatesPreferred(l, key);
    forall c <- cs ensures c.position.signed != 0 { assert Counterparty(l, key, c.key); }
    SomeAvailable(cs);
    if cs != [] { assert cs[0] in cs && Counterparty(l, key, cs[0].key); }
  }

  /**
    A liquidation does something if and only if the position is ripe for it, the price is positive, and either a counterparty
    stands ready or the book takes some of the closing order.
   */
  lemma LiquidatesIff(st: State, q: Liquidation, price: int)
    requires RuntimeInv(st) && CoreInv(st.core)
    requires q.key in st.positions ==> Asking(st, q, price)
    ensures Liquidate(st, q).outputs != []
            <==> && Ripe(st, q) && price > 0
                 && ((exists k :: Counterparty(LedgerOf(st, None), q.key, k))
                     || Takeable(st.core, Closing(q, st.positions[q.key].signed, price)))
  {
    hide CoreSpec.Process, RuntimeInv, BookAll, Settle, Deleverage, CoreInv, CrossingLiquidity, AvailableLots, Verdict, LotsFor,
      AdlCandidates, LiquidationPrice, HasTrade, LiquidationMetadata, LiquidationOrder, Counterparty, Closing;
    if q.key in st.positions {
      AskedPrice(st, q);
      if Ripe(st, q) && price > 0 {
        var signed := st.positions[q.key].signed;
        var c := Closing(q, signed, price);
        ClosingFields(q, signed, price);
        ClosingOrder(q, signed, price);
        CrossingMeans(st.core, c);
        TradesIff(st.core, c);
        OfferedIff(LedgerOf(st, None), q.key);
        RipeShape(st, q, price);
      } else {
        UnripeShape(st, q);
      }
    }
  }

  lemma ClosingFields(q: Liquidation, signed: int, price: int)
    requires signed != 0
    ensures var c := Closing(q, signed, price);
            && c.orderType == Limit && c.price == price && c.symbolId == q.key.marketId && c.side == CloseSide(signed) && c.quantity > 0
  {
  }

  lemma UnripeShape(st: State, q: Liquidation)
    requires CoreInv(st.core) && q.key in st.positions
    requires !Ripe(st, q) || LiquidationPrice(q, st.positions[q.key], st.marks) <= 0
    ensures Liquidate(st, q).outputs == []
  {
    hide CoreSpec.Process, BookAll, Settle, Deleverage, CoreInv, CrossingLiquidity, AvailableLots,
      AdlCandidates, LiquidationPrice, HasTrade, LiquidationMetadata, LiquidationOrder;
  }

  lemma RipeShape(st: State, q: Liquidation, price: int)
    requires CoreInv(st.core) && Ripe(st, q) && price == LiquidationPrice(q, st.positions[q.key], st.marks) > 0
    ensures var signed := st.positions[q.key].signed;
            var crossing := CrossingLiquidity(st.core, q.key.marketId, CloseSide(signed), price);
            var events := CoreStep(st.core, Place(LiquidationOrder(q, signed, price))).events;
            var offered := Offered(LedgerOf(st, None), q.key);
            Liquidate(st, q).outputs != [] <==> offered > 0 || (crossing && HasTrade(events))
  {
    hide CoreSpec.Process, BookAll, Settle, Deleverage, CoreInv, CrossingLiquidity, AvailableLots,
      AdlCandidates, LiquidationPrice, HasTrade, LiquidationMetadata, LiquidationOrder;
    var p := st.positions[q.key];
    var l, started := LedgerOf(st, Some(LiquidationMetadata(q, p))), [LiquidationStarted(q.key)];
    CompletedLast(st, l, q, price, started);
    var core := CoreStep(st.core, Place(LiquidationOrder(q, p.signed, price)));
    var booked := BookAll(l, core.events, st.marks, LiquidationKind);
    var settled := Settle(st, core.core, booked.ledger, core.events);
    CompletedLast(settled, LedgerOf(settled, booked.ledger.pending), q, price, started + booked.outputs);
  }

  // ---------- What it closes at ----------

  /** No worse for the closed position's taker than the price asked. */
  ghost predicate NoWorse(fills: seq<MatchLaws.Fill>, signed: int, price: int) {
    forall f <- fills :: if signed > 0 then f.price >= price else f.price <= price
  }

  /** Announced from beginning to end; first trades with the book within the price asked, then trades at exactly that price. */
  ghost predicate Conducted(st: State, q: Liquidation, price: int, r: Step)
    requires q.key in st.positions
  {
    && r.outputs != [] && r.outputs[0] == LiquidationStarted(q.key)
    && r.outputs[|r.outputs| - 1] == LiquidationCompleted(q.key, Abs(PositionAt(r.state.positions, q.key).signed))
    && exists book: seq<MatchLaws.Fill>, rest: seq<MatchLaws.Fill> ::
         && Reported(r.outputs) == book + rest
         && NoWorse(book, st.positions[q.key].signed, price) && AllAt(rest, price)
  }

  lemma DeleverageReports(st: State, l: Ledger, q: Liquidation, price: int, before: seq<Output>, fills: seq<MatchLaws.Fill>)
    requires before != [] && Reported(before) == fills
    ensures var r := Deleverage(st, l, q, price, before);
            && r.outputs != [] && r.outputs[0] == before[0]
            && r.outputs[|r.outputs| - 1] == LiquidationCompleted(q.key, Abs(PositionAt(r.state.positions, q.key).signed))
            && exists rest: seq<MatchLaws.Fill> :: Reported(r.outputs) == fills + rest && AllAt(rest, price)
  {
    hide AdlFills, AdlCandidates, Reported;
    var open := if l.pending.Some? && q.key in l.positions
                then Min(l.pending.value.remaining, Abs(l.positions[q.key].signed)) else 0;
    var cs := AdlCandidates(q.key, PositionAt(l.positions, q.key).signed, l.positions, l.risks);
    var adl := if open > 0 then AdlFills(l, cs, open, price, st.marks) else Booked(l, []);
    if open > 0 { AdlReports(l, cs, open, price, st.marks); } else { NoneReported([]); }
    var last := [LiquidationCompleted(q.key, Abs(PositionAt(adl.ledger.positions, q.key).signed))];
    NoneReported(last);
    ReportedAppend(before + adl.outputs, last);
    ReportedAppend(before, adl.outputs);
    assert fills + Reported(adl.outputs) + [] == fills + Reported(adl.outputs);
  }

  lemma BookTerms(core: Core, c: PlaceOrderCommand, signed: int)
    requires CoreInv(core) && c.orderType == Limit && c.side == CloseSide(signed)
    ensures NoWorse(Trades(CoreStep(core, Place(c)).events), signed, c.price)
  {
    hide CoreInv, Verdict, CoreSpec.Process, LotsFor, RuntimeSpec.Traded;
    Decided(core, c);
    var t := Trades(CoreStep(core, Place(c)).events);
    if Verdict(core, c).None? {
      TradesAsked(core, c);
      forall f <- t ensures if signed > 0 then f.price >= c.price else f.price <= c.price {
        var k :| 0 <= k < |t| && t[k] == f;
        assert TradesWith(c, Opponents(core, c), k, t[k]);
      }
    } else {
      TailTrades(CoreStep(core, Place(c)).events);
    }
  }

  /**
    A liquidation that does something is announced, trades with the book no worse than the price asked, closes what the book
    leaves at exactly that price, and ends with what is left of the position.
   */
  lemma LiquidationConducted(st: State, q: Liquidation, price: int)
    requires CoreInv(st.core) && q.key in st.positions && Asking(st, q, price) && Liquidate(st, q).outputs != []
    ensures Conducted(st, q, price, Liquidate(st, q))
  {
    hide CoreSpec.Process, BookAll, Settle, Deleverage, CoreInv, CrossingLiquidity, AvailableLots, Reported, NoWorse, AllAt, Asking,
      AdlCandidates, LiquidationPrice, HasTrade, LiquidationMetadata, Completed;
    AskedPrice(st, q);
    var p := st.positions[q.key];
    var l, started := LedgerOf(st, Some(LiquidationMetadata(q, p))), [LiquidationStarted(q.key)];
    NoneReported(started);
    DeleverageReports(st, l, q, price, started, []);
    var c := LiquidationOrder(q, p.signed, price);
    var core := CoreStep(st.core, Place(c));
    var booked := BookAll(l, core.events, st.marks, LiquidationKind);
    BookReports(l, core.events, st.marks, LiquidationKind);
    BookTerms(st.core, c, p.signed);
    ReportedAppend(started, booked.outputs);
    assert [] + Trades(core.events) == Trades(core.events);
    var settled := Settle(st, core.core, booked.ledger, core.events);
    DeleverageReports(settled, LedgerOf(settled, booked.ledger.pending), q, price, started + booked.outputs, Trades(core.events));
    NothingWorse(p.signed, price);
  }

  lemma NothingWorse(signed: int, price: int)
    ensures NoWorse([], signed, price)
  {
  }
}
