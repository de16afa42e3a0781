/**
  Where the ids of orders that may rest ascend, every queue of the runtime stays in id order, through orders, cancels,
  liquidations and restarts; so a restart at any moment of any run goes unnoticed.
 */
module AscendingIds {
  import opened Types
  import opened BookSpec
  import opened CoreSpec
  import opened CoreLaws
  import opened RestoreLaws
  import opened LedgerSpec
  import LedgerLaws
  import opened RuntimeSpec
  import opened StoreLaws
  import opened LiquidationLaws
  import opened RuntimeLaws
  import opened RuntimeRuns
  import opened RuntimeSteps
  import opened RestartLaws

  // ---------- Liquidations and cancels ----------

  /** Queues in id order, with ids up to `last`, stay so. */
  ghost function StaysById(last: nat): Relation {
    (a: State, b: State, x: seq<Output>) => CoreById(a.core, last) ==> CoreById(b.core, last)
  }

  lemma TakenById(core: Core, c: PlaceOrderCommand, last: nat)
    requires CoreInv(core) && CoreById(core, last) && !CanRest(c)
    ensures CoreById(CoreStep(core, Place(c)).core, last)
  {
    hide CoreInv, CoreById, CoreSpec.Process;
    ProcessById(core, Place(c), last);
  }

  lemma LiquidateById(st: State, q: Liquidation, last: nat)
    requires CoreInv(st.core) && CoreById(st.core, last)
    ensures CoreById(Liquidate(st, q).state.core, last)
  {
    hide CoreInv, CoreById, CoreSpec.Process, BookAll, AdlFills, AdlCandidates, AvailableLots, CrossingLiquidity, HasTrade,
      LiquidationPrice, LiquidationMetadata, Completed;
    if MayLiquidate(st, q) {
      var p := st.positions[q.key];
      TakenById(st.core, LiquidationOrder(q, p.signed, LiquidationPrice(q, p, st.marks)), last);
    }
  }

  lemma CancelledById(st: State, c: CancelOrderCommand, last: nat)
    requires CoreInv(st.core) && CoreById(st.core, last)
    ensures CoreById(CancelOrder(st, c).state.core, last)
  {
    hide CoreInv, CoreById, CoreSpec.Process, BookAll, Completed;
    ProcessById(st.core, Cancel(c), last);
  }

  lemma ByIdElsewhere(last: nat)
    ensures Elsewhere(StaysById(last))
  {
    hide CoreInv, CoreById, RuntimeInv, Liquidate, CancelOrder;
    var rel := StaysById(last);
    forall st, q | RuntimeInv(st) && CoreInv(st.core) ensures rel(st, Liquidate(st, q).state, Liquidate(st, q).outputs) {
      if CoreById(st.core, last) { LiquidateById(st, q, last); }
    }
    forall st, c | RuntimeInv(st) && CoreInv(st.core) ensures rel(st, CancelOrder(st, c).state, CancelOrder(st, c).outputs) {
      if CoreById(st.core, last) { CancelledById(st, c, last); }
    }
  }

  // ---------- Orders ----------

  /** An input that may put an order into a book. */
  predicate RestingInput(i: Input) {
    i.PlaceInput? && !i.reduceOnly && CanRest(i.order)
  }

  /** The highest id of an order that may rest, among inputs. */
  function Highest(h: seq<Input>): nat {
    if h == [] then 0
    else
      var last, rest := h[|h| - 1], Highest(h[..|h| - 1]);
      if RestingInput(last) then Max(rest, last.order.orderId) else rest
  }

  lemma OrderCore(st: State, i: Input, c: PlaceOrderCommand)
    requires CoreInv(st.core) && i.PlaceInput? && RunOrder(st, i, c).Some?
    ensures RunOrder(st, i, c).value.state.core == CoreStep(st.core, Place(c)).core
  {
    hide CoreInv, CoreSpec.Process, BookAll, Completed, FilledBy, IsAccepted;
  }

  lemma OrderById(st: State, i: Input, ids: IdSource, last: nat)
    requires RuntimeInv(st) && CoreInv(st.core) && i.PlaceInput? && CoreById(st.core, last)
    requires RestingInput(i) && Mappable(i.order) ==> last < i.order.orderId
    ensures var r := PlaceOrder(st, i, ids);
            r.Some? ==> CoreById(r.value.state.core, if RestingInput(i) then Max(last, i.order.orderId) else last)
  {
    hide CoreInv, CoreById, RuntimeInv, RunOrder, AutoLiquidate, RuntimeSpec.Traded, Elsewhere, LedgerLaws.Moved, Mappable;
    var c, next := CoreOrder(st, i), if RestingInput(i) then Max(last, i.order.orderId) else last;
    CoreByIdMore(st.core, last, next);
    if c.Some? && Mappable(c.value) {
      ProcessById(st.core, Place(c.value), last);
      RunOrderLaw(st, i, c.value);
      OrderCore(st, i, c.value);
      var placed := RunOrder(st, i, c.value).value.state;
      InvCore(placed);
      AutoById(placed, c.value.symbolId, ids, next);
    }
  }

  lemma AutoById(st: State, marketId: nat, ids: IdSource, last: nat)
    requires RuntimeInv(st) && CoreInv(st.core) && CoreById(st.core, last)
    ensures CoreById(AutoLiquidate(st, marketId, ids).state.core, last)
  {
    hide CoreInv, CoreById, RuntimeInv, AutoLiquidate, Composes, AcrossLiquidations, AcrossCancels, AcrossClerical;
    ByIdElsewhere(last);
    AutoRelated(StaysById(last), st, marketId, ids);
  }

  // ---------- Records ----------

  /** An order that may rest, and passes the runtime's own checks, has been processed and would now be a duplicate. */
  ghost predicate Spent(st: State, i: Input) {
    RestingInput(i) && Mappable(i.order) ==> DuplicateOf(st, i).Some?
  }

  /** The state is in good order after the inputs so far. */
  ghost predicate InGoodOrder(h: seq<Input>, st: State) {
    RuntimeInv(st) && CoreById(st.core, Highest(h)) && forall i <- h :: Spent(st, i)
  }

  /** An input that repeats an earlier one, or carries a higher id than every order before it that may rest, or may not rest. */
  ghost predicate Fresh(h: seq<Input>, i: Input) {
    i in h || (RestingInput(i) ==> forall x <- h :: RestingInput(x) ==> x.order.orderId < i.order.orderId)
  }

  ghost predicate KeysGrow(a: State, b: State) {
    a.inputIds.Keys <= b.inputIds.Keys && a.requestKeys.Keys <= b.requestKeys.Keys
  }

  lemma {:induction false} HighestBelow(h: seq<Input>, id: nat)
    requires forall x <- h :: RestingInput(x) ==> x.order.orderId < id
    requires 0 < id
    ensures Highest(h) < id
  {
    if h != [] {
      assert h[|h| - 1] in h;
      HighestBelow(h[..|h| - 1], id);
    }
  }

  lemma MarkKeys(st: State, m: nat, mark: int, ids: IdSource)
    requires RuntimeInv(st) && CoreInv(st.core)
    ensures KeysGrow(st, UpdateMark(st, m, mark, ids).state)
  {
    hide CoreInv, RuntimeInv, AutoLiquidate, Remark, FairAttempts;
    MarkedInv(st, m, mark);
    AutoLaw(st.(marks := st.marks[m := mark], risks := Remark(st, m, mark)), m, ids);
  }

  lemma TickKeys(st: State, r: Record, ids: IdSource)
    requires RuntimeInv(st) && r.input.TickInput? && CoreInv(st.core) && (forall m <- st.rates :: st.rates[m].scale > 0)
    ensures KeysGrow(st, Tick(st, r, ids).state)
  {
    hide CoreInv, RuntimeInv, SettleFunding, MarkInputDone;
    var m, interval := r.input.marketId, r.input.interval;
    DoneKeys(st, r);
    if m in st.rates { SettleKeys(st, m, interval, st.rates[m], ids); }
  }

  lemma SettleKeys(st: State, m: nat, interval: string, rate: FundingRate, ids: IdSource)
    requires RuntimeInv(st) && CoreInv(st.core) && rate.scale > 0
    ensures KeysGrow(st, SettleFunding(st, m, interval, rate, ids).state)
  {
    hide CoreInv, RuntimeInv, AutoLiquidate, PayRisks, Payments, FairAttempts;
    PaidInv(st, m, interval, rate);
    AutoLaw(st.(risks := PayRisks(st, m, Payments(st, m, rate)), settled := st.settled + {(m, interval)}), m, ids);
  }

  lemma DoneKeys(st: State, r: Record)
    ensures forall a :: (SameElsewhere(st, a) || KeysGrow(st, a)) ==> KeysGrow(st, MarkInputDone(a, r))
    ensures r.input.PlaceInput? || r.input.CancelInput? || r.input.LiquidateInput? ==>
              forall a :: (SameElsewhere(st, a) || KeysGrow(st, a)) ==> KeysGrow(st, MarkDone(a, r))
  {
  }

  /** Processed inputs are never forgotten. */
  lemma ProcessKeys(st: State, r: Record, ids: IdSource)
    requires RuntimeInv(st)
    ensures CoreInv(st.core) && (forall m <- st.rates :: st.rates[m].scale > 0)
    ensures KeysGrow(st, RuntimeSpec.Process(st, r, ids).state)
  {
    hide CoreInv, RuntimeInv, PlaceOrder, CancelOrder, Liquidate, Mappable, UpdateMark, Tick, DuplicateOf, CoreOrder,
      MarkDone, MarkInputDone, SameElsewhere;
    InvParts(st);
    DoneKeys(st, r);
    match r.input
    case PlaceInput(_, _, _, _, _, _) => PlaceLaw(st, r.input, ids);
    case CancelInput(_, _, c) => CancelLaw(st, c);
    case LiquidateInput(_, _, q) => LiquidateKeeps(st, q);
    case MarkInput(_, m, mark) => MarkKeys(st, m, mark, ids);
    case RateInput(_, m, rate) => assert KeysGrow(st, st.(rates := st.rates[m := rate]));
    case TickInput(_, _, _) => TickKeys(st, r, ids);
  }

  lemma ProcessSpends(st: State, r: Record, ids: IdSource)
    requires RuntimeInv(st)
    ensures CoreInv(st.core) && (forall m <- st.rates :: st.rates[m].scale > 0)
    ensures Spent(RuntimeSpec.Process(st, r, ids).state, r.input)
  {
    hide CoreInv, RuntimeInv, PlaceOrder, Mappable, CancelOrder, Liquidate, UpdateMark, Tick;
    InvParts(st);
    if RestingInput(r.input) { PlaceLaw(st, r.input, ids); }
  }

  lemma SpentLater(a: State, b: State, i: Input)
    requires Spent(a, i) && KeysGrow(a, b)
    ensures Spent(b, i)
  {
  }

  lemma RecordById(st: State, r: Record, ids: IdSource, last: nat)
    requires RuntimeInv(st) && CoreById(st.core, last)
    requires RestingInput(r.input) && Mappable(r.input.order) && DuplicateOf(st, r.input).None? ==> last < r.input.order.orderId
    ensures CoreInv(st.core) && (forall m <- st.rates :: st.rates[m].scale > 0)
    ensures CoreById(RuntimeSpec.Process(st, r, ids).state.core,
                     if RestingInput(r.input) then Max(last, r.input.order.orderId) else last)
  {
    hide CoreInv, CoreById, RuntimeInv, PlaceOrder, DuplicateOf, Composes, AcrossLiquidations, AcrossCancels, AcrossClerical,
      Mappable, CancelOrder, Liquidate, UpdateMark, Tick;
    InvParts(st);
    CoreByIdMore(st.core, last, if RestingInput(r.input) then Max(last, r.input.order.orderId) else last);
    if r.input.PlaceInput? {
      if DuplicateOf(st, r.input).None? { OrderById(st, r.input, ids, last); }
    } else {
      ByIdElsewhere(last);
      ProcessRelated(StaysById(last), st, r, ids);
    }
  }

  /** Every record keeps the runtime in good order, if it is fresh. */
  lemma GoodStep(h: seq<Input>, st: State, r: Record, ids: IdSource)
    requires InGoodOrder(h, st) && Fresh(h, r.input)
    ensures CoreInv(st.core) && (forall m <- st.rates :: st.rates[m].scale > 0)
    ensures InGoodOrder(h + [r.input], RuntimeSpec.Process(st, r, ids).state)
  {
    hide CoreInv, CoreById, RuntimeInv, RuntimeSpec.Process, Mappable, DuplicateOf, KeysGrow;
    ProcessLaw(st, r, ids);
    ProcessKeys(st, r, ids);
    ProcessSpends(st, r, ids);
    var st' := RuntimeSpec.Process(st, r, ids).state;
    var i := r.input;
    if RestingInput(i) && Mappable(i.order) && DuplicateOf(st, i).None? {
      assert i !in h;
      MappableId(i.order);
      HighestBelow(h, i.order.orderId);
    }
    RecordById(st, r, ids, Highest(h));
    assert (h + [i])[..|h|] == h;
    forall x <- h + [i] ensures Spent(st', x) { if x in h { SpentLater(st, st', x); } }
  }

  lemma MappableId(c: PlaceOrderCommand)
    requires Mappable(c)
    ensures c.orderId > 0
  {
  }

  // ---------- Runs ----------

  function InputsOf(records: seq<Record>): seq<Input> {
    seq(|records|, i requires 0 <= i < |records| => records[i].input)
  }

  /** Every record is fresh after the inputs before it. */
  ghost predicate AllFresh(h: seq<Input>, records: seq<Record>)
    decreases |records|
  {
    records == [] || (Fresh(h, records[0].input) && AllFresh(h + [records[0].input], records[1..]))
  }

  lemma {:induction false} RunInGoodOrder(h: seq<Input>, st: State, records: seq<Record>, ids: Record -> IdSource)
    requires InGoodOrder(h, st) && AllFresh(h, records)
    ensures RuntimeInv(st) && InGoodOrder(h + InputsOf(records), RuntimeRuns.Run(st, records, ids).state)
    decreases |records|
  {
    hide CoreInv, CoreById, RuntimeInv, RuntimeSpec.Process, Spent, Fresh, Highest;
    if records == [] {
      assert h + InputsOf(records) == h;
    } else {
      var r := records[0];
      ProcessLaw(st, r, ids(r));
      GoodStep(h, st, r, ids(r));
      RunInGoodOrder(h + [r.input], RuntimeSpec.Process(st, r, ids(r)).state, records[1..], ids);
      assert h + [r.input] + InputsOf(records[1..]) == h + InputsOf(records);
    }
  }

  /**
    Where orders that may rest carry ascending ids, repeats aside, a runtime restarted from a checkpoint at any moment of
    any run produces, for every later sequence of records, exactly the outputs the original would have produced.
   */
  lemma AscendingIdsRestart(h: seq<Input>, st: State, records: seq<Record>, later: seq<Record>, ids: Record -> IdSource)
    requires InGoodOrder(h, st) && AllFresh(h, records)
    ensures RuntimeInv(st)
    ensures var now := RuntimeRuns.Run(st, records, ids).state;
            && RuntimeInv(now) && RuntimeInv(Checkpointed(now))
            && RuntimeRuns.Run(Checkpointed(now), later, ids).outputs == RuntimeRuns.Run(now, later, ids).outputs
  {
    hide RuntimeInv, CoreById, RuntimeRuns.Run, Spent, AllFresh, Highest, Checkpointed, QueuesById;
    RunInGoodOrder(h, st, records, ids);
    var now := RuntimeRuns.Run(st, records, ids).state;
    ByIdQueues(now.core, Highest(h + InputsOf(records)));
    RestartedFuture(now, later, ids);
  }

  lemma ByIdQueues(core: Core, last: nat)
    requires CoreById(core, last)
    ensures QueuesById(core)
  {
    hide LevelsById, IdsUpTo;
  }
}
