/** Whole runs of the runtime. */
module RuntimeRuns {
  import opened Types
  import opened BookSpec
  import opened CoreSpec
  import opened CoreLaws
  import opened Sums
  import opened Accounting
  import opened LedgerSpec
  import opened LedgerLaws
  import opened RuntimeSpec
  import opened StoreLaws
  import opened LiquidationLaws
  import opened FundingLaws
  import opened RuntimeLaws

  // ---------- One record ----------

  lemma PlaceLaw(st: State, i: Input, ids: IdSource)
    requires RuntimeInv(st) && CoreInv(st.core) && i.PlaceInput?
    ensures var r := PlaceOrder(st, i, ids);
            && (r.Some? ==> RuntimeInv(r.value.state) && SameElsewhere(st, r.value.state))
            && (r.None? <==> CoreOrder(st, i).Some? && !Mappable(CoreOrder(st, i).value))
  {
    hide CoreInv, RuntimeInv, Mappable, CoreOrder, RunOrder, AutoLiquidate, Traded, FairAttempts;
    var c := CoreOrder(st, i);
    if c.Some? && Mappable(c.value) {
      RunOrderLaw(st, i, c.value);
      var placed := RunOrder(st, i, c.value).value.state;
      InvCore(placed);
      AutoLaw(placed, c.value.symbolId, ids);
    }
  }

  lemma MarkedInv(st: State, marketId: nat, mark: int)
    requires RuntimeInv(st)
    ensures RuntimeInv(st.(marks := st.marks[marketId := mark], risks := Remark(st, marketId, mark)))
  {
    hide StoreOk, ZeroSum, RisksOk, Remark;
    MarkLaw(st, marketId, mark);
  }

  lemma PaidInv(st: State, marketId: nat, interval: string, rate: FundingRate)
    requires RuntimeInv(st) && rate.scale > 0
    ensures RuntimeInv(st.(risks := PayRisks(st, marketId, Payments(st, marketId, rate)),
                           settled := st.settled + {(marketId, interval)}))
  {
    hide StoreOk, ZeroSum, RisksOk, PayRisks, Payment;
    PayLaw(st, marketId, Payments(st, marketId, rate));
  }

  lemma Remembered(st: State, r: Record)
    requires RuntimeInv(st)
    ensures RuntimeInv(MarkInputDone(st, r))
    ensures r.input.PlaceInput? || r.input.CancelInput? || r.input.LiquidateInput? ==> RuntimeInv(MarkDone(st, r))
  {
    hide StoreOk, ZeroSum, RisksOk, Remember;
  }

  lemma AnyRemembered(r: Record)
    ensures forall st :: RuntimeInv(st) ==> RuntimeInv(MarkInputDone(st, r))
    ensures r.input.PlaceInput? || r.input.CancelInput? || r.input.LiquidateInput? ==>
              forall st :: RuntimeInv(st) ==> RuntimeInv(MarkDone(st, r))
  {
    hide RuntimeInv, MarkInputDone, MarkDone;
    forall st | RuntimeInv(st) ensures RuntimeInv(MarkInputDone(st, r)) { Remembered(st, r); }
    if r.input.PlaceInput? || r.input.CancelInput? || r.input.LiquidateInput? {
      forall st | RuntimeInv(st) ensures RuntimeInv(MarkDone(st, r)) { Remembered(st, r); }
    }
  }

  lemma InvParts(st: State)
    requires RuntimeInv(st)
    ensures CoreInv(st.core) && forall m <- st.rates :: st.rates[m].scale > 0
  {
    hide CoreInv, MetadataOk, Covered, ZeroSum, RisksOk;
  }

  lemma TickLaw(st: State, r: Record, ids: IdSource)
    requires RuntimeInv(st) && r.input.TickInput? && CoreInv(st.core) && (forall m <- st.rates :: st.rates[m].scale > 0)
    ensures RuntimeInv(Tick(st, r, ids).state)
  {
    hide CoreInv, RuntimeInv, AutoLiquidate, FairAttempts, MarkInputDone, PayRisks, Payments;
    AnyRemembered(r);
    var marketId, interval := r.input.marketId, r.input.interval;
    if marketId in st.rates {
      PaidInv(st, marketId, interval, st.rates[marketId]);
      AutoLaw(st.(risks := PayRisks(st, marketId, Payments(st, marketId, st.rates[marketId])),
                  settled := st.settled + {(marketId, interval)}), marketId, ids);
    }
  }

  lemma MarkInputLaw(st: State, marketId: nat, mark: int, ids: IdSource)
    requires RuntimeInv(st) && CoreInv(st.core)
    ensures RuntimeInv(UpdateMark(st, marketId, mark, ids).state)
  {
    hide CoreInv, RuntimeInv, AutoLiquidate, FairAttempts, Remark;
    MarkedInv(st, marketId, mark);
    AutoLaw(st.(marks := st.marks[marketId := mark], risks := Remark(st, marketId, mark)), marketId, ids);
  }

  lemma RateLaw(st: State, marketId: nat, rate: FundingRate)
    requires RuntimeInv(st) && rate.scale > 0
    ensures RuntimeInv(st.(rates := st.rates[marketId := rate]))
  {
    hide StoreOk, ZeroSum, RisksOk;
  }

  /**
    Every input keeps the invariant: in every market positions sum to zero, every resting order has metadata of the same
    owner, side, market and open quantity, and risks agree with positions.
   */
  lemma ProcessLaw(st: State, r: Record, ids: IdSource)
    requires RuntimeInv(st)
    ensures CoreInv(st.core) && (forall m <- st.rates :: st.rates[m].scale > 0)
    ensures RuntimeInv(RuntimeSpec.Process(st, r, ids).state)
  {
    hide CoreInv, RuntimeInv, PlaceOrder, CancelOrder, Liquidate, UpdateMark, Tick, MarkDone, MarkInputDone, Mappable,
      CoreOrder, DuplicateOf;
    InvParts(st);
    AnyRemembered(r);
    match r.input
    case PlaceInput(_, _, _, _, _, _) => PlaceLaw(st, r.input, ids);
    case CancelInput(_, _, c) => CancelLaw(st, c);
    case LiquidateInput(_, _, q) => LiquidateKeeps(st, q);
    case MarkInput(_, marketId, mark) => MarkInputLaw(st, marketId, mark, ids);
    case RateInput(_, marketId, rate) => if rate.scale > 0 { RateLaw(st, marketId, rate); }
    case TickInput(_, _, _) => TickLaw(st, r, ids);
  }

  // ---------- Runs ----------

  datatype RunResult = RunResult(state: State, outputs: seq<Output>)

  /** Process records in order, collecting outputs. */
  ghost function Run(st: State, records: seq<Record>, ids: Record -> IdSource): (r: RunResult)
    requires RuntimeInv(st)
    ensures RuntimeInv(r.state)
    decreases |records|
  {
    if records == [] then RunResult(st, [])
    else
      ProcessLaw(st, records[0], ids(records[0]));
      var first := RuntimeSpec.Process(st, records[0], ids(records[0]));
      var rest := Run(first.state, records[1..], ids);
      RunResult(rest.state, first.outputs + rest.outputs)
  }

  /** A runtime with empty books and no positions satisfies the invariant. */
  lemma FreshRuntime(st: State)
    requires forall id <- st.core.books :: st.core.books[id] == EmptyBook(st.core.books[id].config)
                                           && st.core.books[id].config.symbolId == id
    requires st.metadata == map[] && st.positions == map[] && st.risks == map[] && st.rates == map[]
    ensures RuntimeInv(st)
  {
    FreshCore(st.core);
    forall m: nat ensures Net(st.positions, m) == 0 { assert Holdings(st.positions, m) == map[]; }
  }

  /** In every reachable state the signed positions of each market sum to zero. */
  lemma PositionsSumToZero(st: State, records: seq<Record>, ids: Record -> IdSource, marketId: nat)
    requires RuntimeInv(st)
    ensures Sum(Holdings(Run(st, records, ids).state.positions, marketId)) == 0
  {
    var r := Run(st, records, ids).state;
    assert Net(r.positions, marketId) == 0 by { hide Run; }
  }

  // ---------- Funding is paid once ----------

  /** The market intervals the outputs pay, in order. */
  function Paid(outputs: seq<Output>): seq<(nat, string)> {
    if outputs == [] then []
    else (if outputs[0].FundingPaid? then [(outputs[0].marketId, outputs[0].interval)] else []) + Paid(outputs[1..])
  }

  lemma {:induction false} PaidAppend(a: seq<Output>, b: seq<Output>)
    ensures Paid(a + b) == Paid(a) + Paid(b)
  {
    if a == [] {
      assert a + b == b;
    } else {
      assert (a + b)[1..] == a[1..] + b;
      PaidAppend(a[1..], b);
    }
  }

  lemma {:induction false} BookPaysNothing(l: Ledger, events: seq<EngineEvent>, marks: Marks, kind: CommandKind)
    ensures Paid(BookAll(l, events, marks, kind).outputs) == []
    decreases |events|
  {
    if events != [] {
      var first := BookEvent(l, events[0], marks, kind);
      EventPaysNothing(l, events[0], marks, kind);
      BookPaysNothing(first.ledger, events[1..], marks, kind);
      PaidAppend(first.outputs, BookAll(first.ledger, events[1..], marks, kind).outputs);
    }
  }

  lemma NothingPaid(outputs: seq<Output>)
    requires forall o <- outputs :: !o.FundingPaid?
    ensures Paid(outputs) == []
  {
  }

  lemma TradePaysNothing(l: Ledger, makerId: nat, takerId: nat, fill: nat, price: int, marks: Marks, kind: CommandKind)
    ensures Paid(BookTrade(l, makerId, takerId, fill, price, marks, kind).outputs) == []
  {
    hide Settlements, ApplyFill, RiskOf, AllocateMargin, RealizedPnl, Find, Store;
    NothingPaid(BookTrade(l, makerId, takerId, fill, price, marks, kind).outputs);
  }

  lemma EventPaysNothing(l: Ledger, e: EngineEvent, marks: Marks, kind: CommandKind)
    ensures Paid(BookEvent(l, e, marks, kind).outputs) == []
  {
    hide BookTrade, Find;
    if e.TradeExecuted? {
      TradePaysNothing(l, e.makerOrderId, e.takerOrderId, e.quantity, e.price, marks, kind);
    } else {
      NothingPaid(BookEvent(l, e, marks, kind).outputs);
    }
  }

  lemma {:induction false} AdlPaysNothing(l: Ledger, cs: seq<Candidate>, remaining: nat, price: int, marks: Marks)
    ensures Paid(AdlFills(l, cs, remaining, price, marks).outputs) == []
    decreases |cs|
  {
    hide BookTrade, AvailableLots;
    if cs != [] && remaining > 0 && l.pending.Some? {
      var fill: nat := Min(remaining, Abs(cs[0].position.signed));
      if fill == 0 {
        AdlPaysNothing(l, cs[1..], remaining, price, marks);
      } else {
        var one := AdlFill(l, cs[0], fill, price, marks);
        AdlFillPaysNothing(l, cs[0], fill, price, marks);
        AdlPaysNothing(one.ledger, cs[1..], remaining - fill, price, marks);
        PaidAppend(one.outputs, AdlFills(one.ledger, cs[1..], remaining - fill, price, marks).outputs);
      }
    }
  }

  lemma AdlFillPaysNothing(l: Ledger, c: Candidate, fill: nat, price: int, marks: Marks)
    requires l.pending.Some?
    ensures Paid(AdlFill(l, c, fill, price, marks).outputs) == []
  {
    hide BookTrade, FreeId;
    var id := FreeId(1, l.metadata.Keys + {l.pending.value.orderId});
    var md := Metadata(id, c.key.marketId, c.key.userId, CloseSide(c.position.signed), fill, fill, true, 0, 0,
                       c.position.leverage);
    TradePaysNothing(l.(metadata := l.metadata[id := md]), id, l.pending.value.orderId, fill, price, marks, AdlKind);
  }

  lemma DeleveragePaysNothing(st: State, l: Ledger, q: Liquidation, price: int, before: seq<Output>)
    requires Paid(before) == []
    ensures Paid(Deleverage(st, l, q, price, before).outputs) == []
  {
    hide AdlFills, AdlCandidates, Paid;
    var open := if l.pending.Some? && q.key in l.positions
                then Min(l.pending.value.remaining, Abs(l.positions[q.key].signed)) else 0;
    var cs := AdlCandidates(q.key, PositionAt(l.positions, q.key).signed, l.positions, l.risks);
    var adl := if open > 0 then AdlFills(l, cs, open, price, st.marks) else Booked(l, []);
    if open > 0 { AdlPaysNothing(l, cs, open, price, st.marks); }
    var last := LiquidationCompleted(q.key, Abs(PositionAt(adl.ledger.positions, q.key).signed));
    NothingPaid([last]);
    NothingPaid([]);
    PaidAppend(before + adl.outputs, [last]);
    PaidAppend(before, adl.outputs);
  }

  lemma LiquidatePaysNothing(st: State, q: Liquidation)
    requires CoreInv(st.core)
    ensures Paid(Liquidate(st, q).outputs) == []
  {
    hide CoreSpec.Process, BookAll, Deleverage, CoreInv, CrossingLiquidity, AvailableLots, AdlCandidates, LiquidationPrice,
      HasTrade, LiquidationMetadata, LiquidationOrder, Paid, Completed;
    NothingPaid([]);
    if MayLiquidate(st, q) {
      var p := st.positions[q.key];
      var price := LiquidationPrice(q, p, st.marks);
      var l := LedgerOf(st, Some(LiquidationMetadata(q, p)));
      var started := [LiquidationStarted(q.key)];
      NothingPaid(started);
      DeleveragePaysNothing(st, l, q, price, started);
      var core := CoreStep(st.core, Place(LiquidationOrder(q, p.signed, price)));
      var booked := BookAll(l, core.events, st.marks, LiquidationKind);
      BookPaysNothing(l, core.events, st.marks, LiquidationKind);
      PaidAppend(started, booked.outputs);
      var settled := Settle(st, core.core, booked.ledger, core.events);
      DeleveragePaysNothing(settled, LedgerOf(settled, booked.ledger.pending), q, price, started + booked.outputs);
    }
  }

  lemma {:induction false} ScanPaysNothing(st: State, marketId: nat, ids: IdSource, attempts: seq<Attempt>)
    requires CoreInv(st.core)
    ensures Paid(Scan(st, marketId, ids, attempts).outputs) == []
    decreases MAX_ATTEMPTS - |attempts|, 1
  {
    hide CoreInv, TryAll, Ranked, AutoKeys;
    if |attempts| < MAX_ATTEMPTS {
      KeysListed(st, marketId, Attempted(attempts));
      TryAllPaysNothing(st, Ranked(AutoBefore, AutoKeys(st, marketId, Attempted(attempts)), st.positions, st.risks),
                        marketId, ids, attempts);
    }
  }

  lemma {:induction false} TryAllPaysNothing(st: State, cs: seq<Candidate>, marketId: nat, ids: IdSource,
                                             attempts: seq<Attempt>)
    requires CoreInv(st.core)
    ensures Paid(TryAll(st, cs, marketId, ids, attempts).outputs) == []
    decreases MAX_ATTEMPTS - |attempts|, 0
  {
    hide CoreInv, Scan, Liquidate, AutoRequest;
    if cs != [] && |attempts| < MAX_ATTEMPTS {
      var tried := attempts + [Attempt(cs[0].key, st)];
      var q := AutoRequest(cs[0], ids(cs[0].key, |tried|));
      LiquidatePaysNothing(st, q);
      var done := Liquidate(st, q);
      if done.outputs != [] {
        ScanPaysNothing(done.state, marketId, ids, tried);
        PaidAppend(done.outputs, Scan(done.state, marketId, ids, tried).outputs);
      } else {
        TryAllPaysNothing(done.state, cs[1..], marketId, ids, tried);
        PaidAppend(done.outputs, TryAll(done.state, cs[1..], marketId, ids, tried).outputs);
      }
    }
  }

  /** One record pays at most one interval, only if it was not settled, and then settles it. */
  ghost predicate PaysFairly(st: State, outputs: seq<Output>, after: State) {
    && st.settled <= after.settled
    && (Paid(outputs) == []
        || (|Paid(outputs)| == 1 && Paid(outputs)[0] !in st.settled && Paid(outputs)[0] in after.settled))
  }

  lemma AutoPays(st: State, marketId: nat, ids: IdSource)
    requires RuntimeInv(st) && CoreInv(st.core)
    ensures var r := AutoLiquidate(st, marketId, ids);
            Paid(r.outputs) == [] && r.state.settled == st.settled
  {
    hide RuntimeInv, CoreInv, Scan, FairAttempts;
    ScanPaysNothing(st, marketId, ids, []);
    ScanLaw(st, marketId, ids, []) by { EmptyFair(marketId); }
  }

  lemma EmptyFair(marketId: nat)
    ensures FairAttempts([], marketId)
  {
  }

  lemma PlacePays(st: State, i: Input, ids: IdSource)
    requires RuntimeInv(st) && CoreInv(st.core) && i.PlaceInput?
    ensures var r := PlaceOrder(st, i, ids);
            r.Some? ==> Paid(r.value.outputs) == [] && r.value.state.settled == st.settled
  {
    hide CoreInv, RuntimeInv, Mappable, CoreOrder, RunOrder, AutoLiquidate, Traded, Paid, FairAttempts;
    PlaceLaw(st, i, ids);
    NothingPaid([]);
    NothingPaid([ReservationReleased(i.order.orderId, i.reserved)]);
    var c := CoreOrder(st, i);
    if c.Some? && Mappable(c.value) {
      RunOrderLaw(st, i, c.value);
      RunOrderPays(st, i, c.value);
      var placed := RunOrder(st, i, c.value).value;
      InvCore(placed.state);
      AutoPays(placed.state, c.value.symbolId, ids);
      PaidAppend(placed.outputs, AutoLiquidate(placed.state, c.value.symbolId, ids).outputs);
    }
  }

  lemma RunOrderPays(st: State, i: Input, c: PlaceOrderCommand)
    requires CoreInv(st.core) && i.PlaceInput?
    ensures var r := RunOrder(st, i, c); r.Some? ==> Paid(r.value.outputs) == []
  {
    hide CoreSpec.Process, CoreInv, BookAll, Completed, Paid, IsAccepted, FilledBy;
    var core := CoreStep(st.core, Place(c));
    var l := LedgerOf(st, Some(PlaceMetadata(i)));
    var booked := BookAll(l, core.events, st.marks, PlaceKind);
    BookPaysNothing(l, core.events, st.marks, PlaceKind);
    NothingPaid([]);
    if booked.ledger.pending.Some? {
      var expired := [OrderExpired(c.orderId, i.order.quantity - FilledBy(core.events, c.orderId),
                                   booked.ledger.pending.value.remainingReserved)];
      NothingPaid(expired);
      PaidAppend(booked.outputs, expired);
      PaidAppend(booked.outputs, []);
    }
  }

  lemma CancelPays(st: State, c: CancelOrderCommand)
    requires CoreInv(st.core)
    ensures Paid(CancelOrder(st, c).outputs) == [] && CancelOrder(st, c).state.settled == st.settled
  {
    hide CoreSpec.Process, CoreInv, BookAll, Completed, Paid;
    BookPaysNothing(LedgerOf(st, None), CoreStep(st.core, Cancel(c)).events, st.marks, CancelKind);
  }

  lemma MarkPays(st: State, marketId: nat, mark: int, ids: IdSource)
    requires RuntimeInv(st) && CoreInv(st.core)
    ensures var r := UpdateMark(st, marketId, mark, ids); Paid(r.outputs) == [] && r.state.settled == st.settled
  {
    hide RuntimeInv, CoreInv, AutoLiquidate, Remark, Paid;
    MarkedInv(st, marketId, mark);
    var marked := st.(marks := st.marks[marketId := mark], risks := Remark(st, marketId, mark));
    AutoPays(marked, marketId, ids);
    NothingPaid([MarkUpdated(marketId, mark)]);
    PaidAppend([MarkUpdated(marketId, mark)], AutoLiquidate(marked, marketId, ids).outputs);
  }

  lemma TickPays(st: State, r: Record, ids: IdSource)
    requires RuntimeInv(st) && r.input.TickInput? && CoreInv(st.core) && (forall m <- st.rates :: st.rates[m].scale > 0)
    ensures PaysFairly(st, Tick(st, r, ids).outputs, Tick(st, r, ids).state)
  {
    hide CoreInv, RuntimeInv, AutoLiquidate, PayRisks, Payments, Paid;
    NothingPaid([]);
    var marketId, interval := r.input.marketId, r.input.interval;
    if marketId in st.rates && (marketId, interval) !in st.settled {
      var rate := st.rates[marketId];
      PaidInv(st, marketId, interval, rate);
      var payments := Payments(st, marketId, rate);
      var paid := st.(risks := PayRisks(st, marketId, payments), settled := st.settled + {(marketId, interval)});
      AutoPays(paid, marketId, ids);
      OnePaid(FundingPaid(marketId, interval, payments));
      PaidAppend([FundingPaid(marketId, interval, payments)], AutoLiquidate(paid, marketId, ids).outputs);
    }
  }

  lemma OnePaid(o: Output)
    requires o.FundingPaid?
    ensures Paid([o]) == [(o.marketId, o.interval)]
  {
    assert [o][1..] == [];
  }

  lemma ProcessPays(st: State, r: Record, ids: IdSource)
    requires RuntimeInv(st)
    ensures CoreInv(st.core) && (forall m <- st.rates :: st.rates[m].scale > 0)
    ensures var o := RuntimeSpec.Process(st, r, ids); PaysFairly(st, o.outputs, o.state)
  {
    hide CoreInv, RuntimeInv, PlaceOrder, CancelOrder, Liquidate, UpdateMark, Tick, Mappable, CoreOrder, DuplicateOf,
      Paid;
    InvParts(st);
    NothingPaid([]);
    match r.input
    case PlaceInput(_, _, _, _, _, _) => PlacePays(st, r.input, ids);
    case CancelInput(_, _, c) => CancelPays(st, c);
    case LiquidateInput(_, _, q) =>
      LiquidateKeeps(st, q);
      LiquidatePaysNothing(st, q);
    case MarkInput(_, marketId, mark) => MarkPays(st, marketId, mark, ids);
    case RateInput(_, marketId, rate) => NothingPaid([RateUpdated(marketId, rate.interval)]);
    case TickInput(_, _, _) => TickPays(st, r, ids);
  }

  ghost predicate EachOnce(paid: seq<(nat, string)>, settled: set<(nat, string)>) {
    && (forall i, j :: 0 <= i < j < |paid| ==> paid[i] != paid[j])
    && (forall i :: 0 <= i < |paid| ==> paid[i] !in settled)
  }

  /** Over any run, each market and interval is paid at most once, and never one that was settled before. */
  lemma {:induction false} FundingPaidOnce(st: State, records: seq<Record>, ids: Record -> IdSource)
    requires RuntimeInv(st)
    ensures EachOnce(Paid(Run(st, records, ids).outputs), st.settled)
    decreases |records|
  {
    hide RuntimeInv, RuntimeSpec.Process, Paid, CoreInv;
    NothingPaid([]);
    if records != [] {
      var r := records[0];
      ProcessLaw(st, r, ids(r));
      ProcessPays(st, r, ids(r));
      var first := RuntimeSpec.Process(st, r, ids(r));
      FundingPaidOnce(first.state, records[1..], ids);
      var rest := Run(first.state, records[1..], ids).outputs;
      PaidAppend(first.outputs, rest);
      OnceMore(Paid(first.outputs), Paid(rest), st.settled, first.state.settled);
      assert Paid(Run(st, records, ids).outputs) == Paid(first.outputs) + Paid(rest);
    }
  }

  lemma OnceMore(a: seq<(nat, string)>, b: seq<(nat, string)>, before: set<(nat, string)>, after: set<(nat, string)>)
    requires before <= after && (a == [] || (|a| == 1 && a[0] !in before && a[0] in after))
    requires EachOnce(b, after)
    ensures EachOnce(a + b, before)
  {
  }
}
