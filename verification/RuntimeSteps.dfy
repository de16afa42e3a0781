/**
  Relations that hold across whatever the runtime does.  A relation between two states and the outputs between them that
  composes, and that holds across every liquidation, order, cancel and clerical change, holds across every record.
 */
module RuntimeSteps {
  import opened Types
  import opened CoreSpec
  import opened CoreLaws
  import opened LedgerSpec
  import LedgerLaws
  import opened RuntimeSpec
  import opened StoreLaws
  import opened LiquidationLaws
  import opened RuntimeLaws
  import opened RuntimeRuns

  type Relation = (State, State, seq<Output>) -> bool

  ghost predicate Composes(rel: Relation) {
    && (forall st :: rel(st, st, []))
    && (forall a, b, c, x, y :: rel(a, b, x) && rel(b, c, y) ==> rel(a, c, x + y))
  }

  ghost predicate AcrossLiquidations(rel: Relation) {
    forall st, q :: RuntimeInv(st) && CoreInv(st.core) ==> rel(st, Liquidate(st, q).state, Liquidate(st, q).outputs)
  }

  /** Risks were paid out to, and that is what was announced. */
  ghost predicate PaidOut(a: State, b: State, outputs: seq<Output>, m: nat, interval: string, payments: map<Key, int>) {
    && payments.Keys <= a.positions.Keys && (forall k <- payments :: k.marketId == m) && b.risks == PayRisks(a, m, payments)
    && outputs == [FundingPaid(m, interval, payments)]
  }

  /** Risks and marks as they were, a market marked and its risks with it, or risks paid out to. */
  ghost predicate Rerisked(a: State, b: State, outputs: seq<Output>) {
    || (b.risks == a.risks && b.marks == a.marks && forall o <- outputs :: !o.FundingPaid?)
    || ((exists m: nat, mark: int :: Marked(a, b, m, mark)) && forall o <- outputs :: !o.FundingPaid?)
    || (b.marks == a.marks && exists m: nat, interval: string, payments: map<Key, int> :: PaidOut(a, b, outputs, m, interval, payments))
  }

  ghost predicate Marked(a: State, b: State, m: nat, mark: int) {
    b.risks == Remark(a, m, mark) && b.marks == a.marks[m := mark]
  }

  /** A change that leaves books, positions and metadata alone and announces no trade or cancel. */
  ghost predicate Clerical(a: State, b: State, outputs: seq<Output>) {
    && b.core == a.core && b.metadata == a.metadata && b.positions == a.positions && Rerisked(a, b, outputs)
    && forall o <- outputs :: o.MarkUpdated? || o.RateUpdated? || o.FundingPaid? || o.ReservationReleased?
  }

  ghost predicate AcrossClerical(rel: Relation) {
    forall a, b, x :: Clerical(a, b, x) ==> rel(a, b, x)
  }

  ghost predicate AcrossCancels(rel: Relation) {
    forall st, c :: RuntimeInv(st) && CoreInv(st.core) ==> rel(st, CancelOrder(st, c).state, CancelOrder(st, c).outputs)
  }

  ghost predicate AcrossOrders(rel: Relation) {
    forall st, i: Input, c :: RuntimeInv(st) && CoreInv(st.core) && i.PlaceInput? && CoreOrder(st, i) == Some(c) && Mappable(c) ==>
      OrderRelated(rel, st, i, c)
  }

  ghost predicate OrderRelated(rel: Relation, st: State, i: Input, c: PlaceOrderCommand)
    requires CoreInv(st.core) && i.PlaceInput?
  {
    var r := RunOrder(st, i, c); r.Some? ==> rel(st, r.value.state, r.value.outputs)
  }

  /** Across everything but orders. */
  ghost predicate Elsewhere(rel: Relation) {
    Composes(rel) && AcrossLiquidations(rel) && AcrossClerical(rel) && AcrossCancels(rel)
  }

  ghost predicate Everywhere(rel: Relation) {
    Elsewhere(rel) && AcrossOrders(rel)
  }

  // ---------- Automatic liquidation ----------

  lemma Same(rel: Relation, st: State)
    requires Composes(rel)
    ensures rel(st, st, [])
  {
  }

  lemma Then(rel: Relation, a: State, b: State, c: State, x: seq<Output>, y: seq<Output>)
    requires Composes(rel) && rel(a, b, x) && rel(b, c, y)
    ensures rel(a, c, x + y)
  {
  }

  lemma Liquidated(rel: Relation, st: State, q: Liquidation)
    requires AcrossLiquidations(rel) && RuntimeInv(st) && CoreInv(st.core)
    ensures rel(st, Liquidate(st, q).state, Liquidate(st, q).outputs)
  {
  }

  lemma {:induction false} ScanRelated(rel: Relation, st: State, marketId: nat, ids: IdSource, attempts: seq<Attempt>)
    requires Composes(rel) && AcrossLiquidations(rel) && RuntimeInv(st) && CoreInv(st.core)
    ensures var r := Scan(st, marketId, ids, attempts); rel(st, r.state, r.outputs)
    decreases MAX_ATTEMPTS - |attempts|, 1
  {
    hide CoreInv, TryAll, Ranked, AutoKeys, RuntimeInv, Composes, AcrossLiquidations;
    Same(rel, st);
    if |attempts| < MAX_ATTEMPTS {
      KeysListed(st, marketId, Attempted(attempts));
      TryRelated(rel, st, Ranked(AutoBefore, AutoKeys(st, marketId, Attempted(attempts)), st.positions, st.risks), marketId,
                 ids, attempts);
    }
  }

  lemma {:induction false} TryRelated(rel: Relation, st: State, cs: seq<Candidate>, marketId: nat, ids: IdSource,
                                      attempts: seq<Attempt>)
    requires Composes(rel) && AcrossLiquidations(rel) && RuntimeInv(st) && CoreInv(st.core)
    ensures var r := TryAll(st, cs, marketId, ids, attempts); rel(st, r.state, r.outputs)
    decreases MAX_ATTEMPTS - |attempts|, 0
  {
    hide CoreInv, Scan, Liquidate, AutoRequest, RuntimeInv, Composes, AcrossLiquidations;
    Same(rel, st);
    if cs != [] && |attempts| < MAX_ATTEMPTS {
      var tried := attempts + [Attempt(cs[0].key, st)];
      var q := AutoRequest(cs[0], ids(cs[0].key, |tried|));
      LiquidateKeeps(st, q);
      Liquidated(rel, st, q);
      var done := Liquidate(st, q);
      if done.outputs != [] {
        ScanRelated(rel, done.state, marketId, ids, tried);
        var rest := Scan(done.state, marketId, ids, tried);
        Then(rel, st, done.state, rest.state, done.outputs, rest.outputs);
      } else {
        TryRelated(rel, done.state, cs[1..], marketId, ids, tried);
        var rest := TryAll(done.state, cs[1..], marketId, ids, tried);
        Then(rel, st, done.state, rest.state, done.outputs, rest.outputs);
      }
    }
  }

  lemma AutoRelated(rel: Relation, st: State, marketId: nat, ids: IdSource)
    requires Composes(rel) && AcrossLiquidations(rel) && RuntimeInv(st) && CoreInv(st.core)
    ensures var r := AutoLiquidate(st, marketId, ids); rel(st, r.state, r.outputs)
  {
    hide CoreInv, Scan, RuntimeInv, Composes, AcrossLiquidations;
    ScanRelated(rel, st, marketId, ids, []);
  }

  lemma {:induction false} MarketsRelated(rel: Relation, st: State, markets: set<nat>, ids: IdSource)
    requires Composes(rel) && AcrossLiquidations(rel) && RuntimeInv(st) && CoreInv(st.core)
    ensures var r := ScanMarkets(st, markets, ids); rel(st, r.state, r.outputs) && RuntimeInv(r.state) && SameElsewhere(st, r.state)
    decreases |markets|
  {
    hide CoreInv, AutoLiquidate, RuntimeInv, Composes, AcrossLiquidations, Least, FairAttempts;
    Same(rel, st);
    if markets != {} {
      var m := Least(markets);
      var auto := AutoLiquidate(st, m, ids);
      AutoLaw(st, m, ids);
      AutoRelated(rel, st, m, ids);
      MarketsRelated(rel, auto.state, markets - {m}, ids);
      var rest := ScanMarkets(auto.state, markets - {m}, ids);
      Then(rel, st, auto.state, rest.state, auto.outputs, rest.outputs);
    }
  }

  // ---------- Records ----------

  /** A clerical change, automatic liquidation, and another clerical change that announces nothing. */
  lemma AnnouncedRelated(rel: Relation, st: State, st1: State, first: Output, marketId: nat, ids: IdSource, last: State)
    requires Composes(rel) && AcrossLiquidations(rel) && AcrossClerical(rel) && RuntimeInv(st1) && CoreInv(st1.core)
    requires Clerical(st, st1, [first]) && Clerical(AutoLiquidate(st1, marketId, ids).state, last, [])
    ensures rel(st, last, [first] + AutoLiquidate(st1, marketId, ids).outputs)
  {
    hide CoreInv, AutoLiquidate, RuntimeInv, Composes, AcrossLiquidations, Clerical;
    AutoRelated(rel, st1, marketId, ids);
    var auto := AutoLiquidate(st1, marketId, ids);
    Then(rel, st, st1, auto.state, [first], auto.outputs);
    Then(rel, st, auto.state, last, [first] + auto.outputs, []);
    assert [first] + auto.outputs + [] == [first] + auto.outputs;
  }

  lemma PlaceRelated(rel: Relation, st: State, i: Input, ids: IdSource)
    requires Everywhere(rel) && RuntimeInv(st) && CoreInv(st.core) && i.PlaceInput?
    ensures var r := PlaceOrder(st, i, ids); r.Some? ==> rel(st, r.value.state, r.value.outputs)
  {
    hide CoreInv, RuntimeInv, Mappable, CoreOrder, RunOrder, AutoLiquidate, Traded, Composes, AcrossLiquidations, AcrossCancels,
      LedgerLaws.Moved;
    var c := CoreOrder(st, i);
    if c.None? {
      assert Clerical(st, st, if i.reserved > 0 then [ReservationReleased(i.order.orderId, i.reserved)] else []);
    } else if Mappable(c.value) {
      assert OrderRelated(rel, st, i, c.value);
      RunOrderLaw(st, i, c.value);
      var placed := RunOrder(st, i, c.value).value;
      InvCore(placed.state);
      AutoRelated(rel, placed.state, c.value.symbolId, ids);
      var auto := AutoLiquidate(placed.state, c.value.symbolId, ids);
      Then(rel, st, placed.state, auto.state, placed.outputs, auto.outputs);
    }
  }

  lemma DoneClerical(st: State, r: Record)
    ensures Clerical(st, MarkInputDone(st, r), [])
    ensures r.input.PlaceInput? || r.input.CancelInput? || r.input.LiquidateInput? ==> Clerical(st, MarkDone(st, r), [])
  {
    hide Marked, PaidOut;
  }

  lemma DoneRelated(rel: Relation, a: State, b: State, x: seq<Output>, r: Record)
    requires Composes(rel) && AcrossClerical(rel) && rel(a, b, x)
    ensures rel(a, MarkInputDone(b, r), x)
    ensures r.input.PlaceInput? || r.input.CancelInput? || r.input.LiquidateInput? ==> rel(a, MarkDone(b, r), x)
  {
    hide MarkInputDone, MarkDone, Composes, Clerical;
    DoneClerical(b, r);
    assert x + [] == x;
    Then(rel, a, b, MarkInputDone(b, r), x, []);
    if r.input.PlaceInput? || r.input.CancelInput? || r.input.LiquidateInput? { Then(rel, a, b, MarkDone(b, r), x, []); }
  }

  lemma TickRelated(rel: Relation, st: State, r: Record, ids: IdSource)
    requires Elsewhere(rel) && RuntimeInv(st) && r.input.TickInput? && CoreInv(st.core)
    requires forall m <- st.rates :: st.rates[m].scale > 0
    ensures var o := Tick(st, r, ids); rel(st, o.state, o.outputs)
  {
    hide CoreInv, RuntimeInv, AutoLiquidate, PayRisks, Payments, Composes, AcrossLiquidations, AcrossCancels,
      MarkInputDone;
    DoneClerical(st, r);
    var marketId, interval := r.input.marketId, r.input.interval;
    if marketId in st.rates && (marketId, interval) !in st.settled {
      var rate := st.rates[marketId];
      PaidInv(st, marketId, interval, rate);
      var payments := Payments(st, marketId, rate);
      var paid := st.(risks := PayRisks(st, marketId, payments), settled := st.settled + {(marketId, interval)});
      DoneClerical(AutoLiquidate(paid, marketId, ids).state, r);
      PaymentsHeld(st, marketId, rate);
      assert PaidOut(st, paid, [FundingPaid(marketId, interval, payments)], marketId, interval, payments);
      AnnouncedRelated(rel, st, paid, FundingPaid(marketId, interval, payments), marketId, ids,
                       MarkInputDone(AutoLiquidate(paid, marketId, ids).state, r));
    }
  }

  lemma PaymentsHeld(st: State, marketId: nat, rate: FundingRate)
    requires rate.scale > 0
    ensures Payments(st, marketId, rate).Keys <= st.positions.Keys
    ensures forall k <- Payments(st, marketId, rate) :: k.marketId == marketId
  {
    hide Payment;
  }

  lemma MarkRelated(rel: Relation, st: State, r: Record, ids: IdSource)
    requires Elsewhere(rel) && RuntimeInv(st) && r.input.MarkInput? && CoreInv(st.core)
    ensures var d := UpdateMark(st, r.input.marketId, r.input.mark, ids); rel(st, MarkInputDone(d.state, r), d.outputs)
  {
    hide CoreInv, RuntimeInv, AutoLiquidate, Remark, Composes, AcrossLiquidations, AcrossCancels, MarkInputDone;
    var marketId, mark := r.input.marketId, r.input.mark;
    MarkedInv(st, marketId, mark);
    var marked := st.(marks := st.marks[marketId := mark], risks := Remark(st, marketId, mark));
    DoneClerical(AutoLiquidate(marked, marketId, ids).state, r);
    assert Marked(st, marked, marketId, mark);
    AnnouncedRelated(rel, st, marked, MarkUpdated(marketId, mark), marketId, ids,
                     MarkInputDone(AutoLiquidate(marked, marketId, ids).state, r));
  }

  /** A relation that holds everywhere holds across every record; for records that place no order, elsewhere is enough. */
  lemma ProcessRelated(rel: Relation, st: State, r: Record, ids: IdSource)
    requires Elsewhere(rel) && RuntimeInv(st) && (r.input.PlaceInput? ==> AcrossOrders(rel))
    ensures CoreInv(st.core) && (forall m <- st.rates :: st.rates[m].scale > 0)
    ensures var o := RuntimeSpec.Process(st, r, ids); rel(st, o.state, o.outputs)
  {
    hide CoreInv, RuntimeInv, PlaceOrder, CancelOrder, Liquidate, UpdateMark, Tick, MarkDone, MarkInputDone, AcrossOrders,
      DuplicateOf, Composes;
    InvParts(st);
    Same(rel, st);
    if DuplicateOf(st, r.input).None? {
      match r.input
      case PlaceInput(_, _, _, _, _, _) =>
        PlaceRelated(rel, st, r.input, ids);
        var p := PlaceOrder(st, r.input, ids);
        if p.Some? { DoneRelated(rel, st, p.value.state, p.value.outputs, r); }
      case CancelInput(_, _, c) => DoneRelated(rel, st, CancelOrder(st, c).state, CancelOrder(st, c).outputs, r);
      case LiquidateInput(_, _, q) => DoneRelated(rel, st, Liquidate(st, q).state, Liquidate(st, q).outputs, r);
      case MarkInput(_, _, _) => MarkRelated(rel, st, r, ids);
      case RateInput(_, m, rate) =>
        var changed := st.(rates := st.rates[m := rate]);
        assert Clerical(st, changed, [RateUpdated(m, rate.interval)]);
        DoneRelated(rel, st, changed, [RateUpdated(m, rate.interval)], r);
      case TickInput(_, _, _) => TickRelated(rel, st, r, ids);
    }
  }

  lemma {:induction false} RunRelated(rel: Relation, st: State, records: seq<Record>, ids: Record -> IdSource)
    requires Everywhere(rel) && RuntimeInv(st)
    ensures var r := RuntimeRuns.Run(st, records, ids); rel(st, r.state, r.outputs)
    decreases |records|
  {
    hide RuntimeInv, RuntimeSpec.Process, CoreInv, AcrossLiquidations, AcrossClerical, AcrossCancels, AcrossOrders, Composes;
    Same(rel, st);
    if records != [] {
      var r := records[0];
      ProcessLaw(st, r, ids(r));
      ProcessRelated(rel, st, r, ids(r));
      var first := RuntimeSpec.Process(st, r, ids(r));
      RunRelated(rel, first.state, records[1..], ids);
      var rest := RuntimeRuns.Run(first.state, records[1..], ids);
      Then(rel, st, first.state, rest.state, first.outputs, rest.outputs);
    }
  }
}
