/**
  What each record does, and what a run remembers of its records: marks, rates, settled intervals and handled requests are
  told from the list of records and answers alone.
 */
module RecordLaws {
  import opened Types
  import opened BookSpec
  import opened CoreSpec
  import opened CoreLaws
  import opened Accounting
  import opened LedgerSpec
  import opened RuntimeSpec
  import opened StoreLaws
  import opened LiquidationLaws
  import opened RuntimeLaws
  import opened RuntimeRuns
  import opened MarginLaws

  // ---------- One record's answer ----------

  /** Orders, cancels and liquidations carry a request key. */
  predicate Keyed(i: Input) {
    i.PlaceInput? || i.CancelInput? || i.LiquidateInput?
  }

  /** The input was handled before. */
  ghost predicate Known(st: State, i: Input) {
    || (i.inputId.Some? && i.inputId.value in st.inputIds)
    || (Keyed(i) && i.requestKey in st.requestKeys)
  }

  /** A reduce-only order without a position on the other side to reduce. */
  ghost predicate Idle(st: State, i: Input)
    requires i.PlaceInput?
  {
    var signed := PositionAt(st.positions, Key(i.order.userId, i.order.symbolId)).signed;
    i.reduceOnly && !(if i.order.side == Buy then signed < 0 else signed > 0)
  }

  /** An input that cannot be used: an order or cancel without its ids, size or price, a rate without a scale. */
  ghost predicate Unusable(st: State, i: Input) {
    match i
    case PlaceInput(_, _, c, _, _, _) =>
      && !Idle(st, i)
      && !(c.orderId > 0 && c.symbolId > 0 && c.quantity > 0 && (c.price > 0 || (c.price == 0 && c.orderType == Market)))
    case CancelInput(_, _, c) => c.orderId == 0 || c.symbolId == 0
    case RateInput(_, _, rate) => rate.scale <= 0
    case _ => false
  }

  /** A settlement tick for an interval that the market's rate is not for. */
  ghost predicate Unscheduled(st: State, i: Input) {
    i.TickInput? && (i.marketId, i.interval) !in st.settled && !(i.marketId in st.rates && st.rates[i.marketId].interval == i.interval)
  }

  /** What an answer means: a repeat names the offset of what it repeats, and only accepted and rejected records are handled. */
  ghost predicate Answered(st: State, r: Record, s: Status) {
    && (s.Duplicate? <==> Known(st, r.input))
    && (s.Duplicate? ==> || (r.input.inputId.Some? && r.input.inputId.value in st.inputIds
                             && st.inputIds[r.input.inputId.value] == s.originalOffset)
                         || (Keyed(r.input) && r.input.requestKey in st.requestKeys
                             && st.requestKeys[r.input.requestKey] == s.originalOffset))
    && (s.Failed? <==> !Known(st, r.input) && Unusable(st, r.input))
    && (s.Rejected? <==> !Known(st, r.input) && Unscheduled(st, r.input))
  }

  predicate Handled(s: Status) {
    s.Accepted? || s.Rejected?
  }

  /** What a record leaves in the tables: marks, rates, settled intervals, handled inputs and requests. */
  ghost predicate Noted(st: State, r: Record, o: Outcome) {
    var i, end := r.input, o.state;
    && end.rates == (if i.RateInput? && o.status.Accepted? then st.rates[i.marketId := i.rate] else st.rates)
    && end.marks == (if i.MarkInput? && o.status.Accepted? then st.marks[i.marketId := i.mark] else st.marks)
    && (forall x :: x in end.settled <==> x in st.settled || x in Paid(o.outputs))
    && end.inputIds == (if Handled(o.status) && i.inputId.Some? then st.inputIds[i.inputId.value := r.offset] else st.inputIds)
    && end.requestKeys == (if Handled(o.status) && Keyed(i) then st.requestKeys[i.requestKey := r.offset] else st.requestKeys)
    && (!Handled(o.status) ==> end == st && o.outputs == [])
  }

  /** A tick pays exactly if the input is new, the interval is not settled, and the market's rate is for it. */
  ghost predicate PaysWhenDue(st: State, r: Record, o: Outcome) {
    Paid(o.outputs) == if r.input.TickInput? && o.status.Accepted? && (r.input.marketId, r.input.interval) !in st.settled
                       then [(r.input.marketId, r.input.interval)] else []
  }

  lemma DuplicateMeans(st: State, i: Input)
    ensures DuplicateOf(st, i).Some? <==> Known(st, i)
  {
  }

  lemma PlaceUnusable(st: State, i: Input)
    requires i.PlaceInput?
    ensures CoreOrder(st, i).Some? && !Mappable(CoreOrder(st, i).value) <==> Unusable(st, i)
  {
  }

  /** Remembering a new input. */
  lemma DoneNotes(st: State, end: State, r: Record)
    requires !Known(st, r.input) && end.inputIds == st.inputIds && end.requestKeys == st.requestKeys
    ensures MarkInputDone(end, r) == end.(inputIds := if r.input.inputId.Some? then st.inputIds[r.input.inputId.value := r.offset]
                                                     else st.inputIds)
    ensures Keyed(r.input) ==>
              MarkDone(end, r) == MarkInputDone(end, r).(requestKeys := st.requestKeys[r.input.requestKey := r.offset])
  {
  }

  lemma PlaceStep(st: State, i: Input, ids: IdSource)
    requires RuntimeInv(st) && CoreInv(st.core) && i.PlaceInput?
    ensures var p := PlaceOrder(st, i, ids);
            && (p.None? <==> Unusable(st, i))
            && (p.Some? ==> SameElsewhere(st, p.value.state) && Paid(p.value.outputs) == [])
  {
    hide RuntimeInv, CoreInv, PlaceOrder, Mappable, CoreOrder, Unusable, Paid;
    PlaceLaw(st, i, ids);
    PlacePays(st, i, ids);
    PlaceUnusable(st, i);
  }

  lemma MarkStep(st: State, m: nat, mark: int, ids: IdSource)
    requires RuntimeInv(st) && CoreInv(st.core)
    ensures var u := UpdateMark(st, m, mark, ids); SameElsewhere(st.(marks := st.marks[m := mark]), u.state) && Paid(u.outputs) == []
  {
    hide RuntimeInv, CoreInv, AutoLiquidate, FairAttempts, Remark, Paid;
    MarkPays(st, m, mark, ids);
    MarkedInv(st, m, mark);
    AutoLaw(st.(marks := st.marks[m := mark], risks := Remark(st, m, mark)), m, ids);
  }

  lemma SettleStep(st: State, m: nat, interval: string, rate: FundingRate, ids: IdSource)
    requires RuntimeInv(st) && CoreInv(st.core) && rate.scale > 0
    ensures var s := SettleFunding(st, m, interval, rate, ids);
            SameElsewhere(st.(settled := st.settled + {(m, interval)}), s.state) && Paid(s.outputs) == [(m, interval)]
  {
    hide RuntimeInv, CoreInv, AutoLiquidate, FairAttempts, PayRisks, Payments, Paid;
    PaidInv(st, m, interval, rate);
    var paid := st.(risks := PayRisks(st, m, Payments(st, m, rate)), settled := st.settled + {(m, interval)});
    InvCore(paid);
    AutoLaw(paid, m, ids);
    AutoPays(paid, m, ids);
    OnePaid(FundingPaid(m, interval, Payments(st, m, rate)));
    PaidAppend([FundingPaid(m, interval, Payments(st, m, rate))], AutoLiquidate(paid, m, ids).outputs);
  }

  /** What an outcome with given answer, state before its record was noted, and outputs amounts to. */
  lemma NotedSo(st: State, end: State, r: Record, o: Outcome)
    requires !Known(st, r.input) && Handled(o.status) && SameElsewhere(end.(core := end.core), end)
    requires end.inputIds == st.inputIds && end.requestKeys == st.requestKeys
    requires o.state == if Keyed(r.input) then MarkDone(end, r) else MarkInputDone(end, r)
    requires end.rates == if r.input.RateInput? && o.status.Accepted? then st.rates[r.input.marketId := r.input.rate] else st.rates
    requires end.marks == if r.input.MarkInput? && o.status.Accepted? then st.marks[r.input.marketId := r.input.mark] else st.marks
    requires forall x :: x in end.settled <==> x in st.settled || x in Paid(o.outputs)
    ensures Noted(st, r, o)
  {
    hide MarkDone, MarkInputDone, Known, Paid;
    DoneNotes(st, end, r);
  }

  lemma TickStep(st: State, r: Record, ids: IdSource)
    requires RuntimeInv(st) && CoreInv(st.core) && (forall m <- st.rates :: st.rates[m].scale > 0)
    requires r.input.TickInput? && !Known(st, r.input)
    ensures var o := Tick(st, r, ids); Answered(st, r, o.status) && Noted(st, r, o) && PaysWhenDue(st, r, o)
  {
    hide RuntimeInv, CoreInv, SettleFunding, MarkInputDone, Paid, Known, Noted;
    NothingPaid([]);
    var o, m, interval := Tick(st, r, ids), r.input.marketId, r.input.interval;
    if (m, interval) !in st.settled && m in st.rates && st.rates[m].interval == interval {
      SettleStep(st, m, interval, st.rates[m], ids);
      NotedSo(st, SettleFunding(st, m, interval, st.rates[m], ids).state, r, o);
    } else {
      NotedSo(st, st, r, o);
    }
  }

  /** Every record is answered by what it is and what the tables hold, and leaves in the tables what it should. */
  lemma RecordStep(st: State, r: Record, ids: IdSource)
    requires RuntimeInv(st)
    ensures CoreInv(st.core) && (forall m <- st.rates :: st.rates[m].scale > 0)
    ensures var o := RuntimeSpec.Process(st, r, ids); Answered(st, r, o.status) && Noted(st, r, o) && PaysWhenDue(st, r, o)
  {
    hide RuntimeInv, CoreInv, PlaceOrder, CancelOrder, Liquidate, UpdateMark, Tick, MarkDone, MarkInputDone, Mappable, CoreOrder,
      Paid, Known, Noted, Idle, Unusable;
    InvParts(st);
    DuplicateMeans(st, r.input);
    NothingPaid([]);
    var o := RuntimeSpec.Process(st, r, ids);
    if Known(st, r.input) {
      KnownStep(st, r, o);
    } else if r.input.TickInput? {
      TickStep(st, r, ids);
    } else {
      NewStep(st, r, ids);
    }
  }

  lemma KnownStep(st: State, r: Record, o: Outcome)
    requires Known(st, r.input) && DuplicateOf(st, r.input).Some? && o == Outcome(st, Duplicate(DuplicateOf(st, r.input).value), [])
    ensures Answered(st, r, o.status) && Noted(st, r, o) && PaysWhenDue(st, r, o)
  {
    hide Unusable;
    NothingPaid([]);
  }

  lemma NewStep(st: State, r: Record, ids: IdSource)
    requires RuntimeInv(st) && CoreInv(st.core) && (forall m <- st.rates :: st.rates[m].scale > 0)
    requires !Known(st, r.input) && DuplicateOf(st, r.input).None? && !r.input.TickInput?
    ensures var o := RuntimeSpec.Process(st, r, ids); Answered(st, r, o.status) && Noted(st, r, o) && PaysWhenDue(st, r, o)
  {
    hide RuntimeInv, CoreInv, RuntimeSpec.Process, Answered, Noted, PaysWhenDue, Known, DuplicateOf;
    match r.input
    case PlaceInput(_, _, _, _, _, _) => NewPlace(st, r, ids);
    case CancelInput(_, _, _) => NewCancel(st, r, ids);
    case LiquidateInput(_, _, _) => NewLiquidation(st, r, ids);
    case MarkInput(_, _, _) => NewMark(st, r, ids);
    case RateInput(_, _, _) => NewRate(st, r, ids);
  }

  lemma NewPlace(st: State, r: Record, ids: IdSource)
    requires RuntimeInv(st) && CoreInv(st.core) && (forall m <- st.rates :: st.rates[m].scale > 0)
    requires !Known(st, r.input) && DuplicateOf(st, r.input).None? && r.input.PlaceInput?
    ensures var o := RuntimeSpec.Process(st, r, ids); Answered(st, r, o.status) && Noted(st, r, o) && PaysWhenDue(st, r, o)
  {
    hide RuntimeInv, CoreInv, PlaceOrder, CancelOrder, Liquidate, UpdateMark, Tick, MarkDone, MarkInputDone, Mappable, CoreOrder,
      Paid, Known, Noted, Idle, DuplicateOf;
    NothingPaid([]);
    var o, i := RuntimeSpec.Process(st, r, ids), r.input;
    PlaceStep(st, i, ids);
    var p := PlaceOrder(st, i, ids);
    if p.Some? { NotedSo(st, p.value.state, r, o); } else { FailedNoted(st, r, o); }
  }

  lemma NewCancel(st: State, r: Record, ids: IdSource)
    requires RuntimeInv(st) && CoreInv(st.core) && (forall m <- st.rates :: st.rates[m].scale > 0)
    requires !Known(st, r.input) && DuplicateOf(st, r.input).None? && r.input.CancelInput?
    ensures var o := RuntimeSpec.Process(st, r, ids); Answered(st, r, o.status) && Noted(st, r, o) && PaysWhenDue(st, r, o)
  {
    hide RuntimeInv, CoreInv, PlaceOrder, CancelOrder, Liquidate, UpdateMark, Tick, MarkDone, MarkInputDone, Mappable, CoreOrder,
      Paid, Known, Noted, Idle, DuplicateOf;
    NothingPaid([]);
    var o, i := RuntimeSpec.Process(st, r, ids), r.input;
    var c := i.cancel;
    CancelPays(st, c);
    CancelLaw(st, c);
    if c.orderId == 0 || c.symbolId == 0 { FailedNoted(st, r, o); } else { NotedSo(st, CancelOrder(st, c).state, r, o); }
  }

  lemma NewLiquidation(st: State, r: Record, ids: IdSource)
    requires RuntimeInv(st) && CoreInv(st.core) && (forall m <- st.rates :: st.rates[m].scale > 0)
    requires !Known(st, r.input) && DuplicateOf(st, r.input).None? && r.input.LiquidateInput?
    ensures var o := RuntimeSpec.Process(st, r, ids); Answered(st, r, o.status) && Noted(st, r, o) && PaysWhenDue(st, r, o)
  {
    hide RuntimeInv, CoreInv, PlaceOrder, CancelOrder, Liquidate, UpdateMark, Tick, MarkDone, MarkInputDone, Mappable, CoreOrder,
      Paid, Known, Noted, Idle, DuplicateOf;
    NothingPaid([]);
    var o, i := RuntimeSpec.Process(st, r, ids), r.input;
    LiquidatePaysNothing(st, i.liquidation);
    LiquidateKeeps(st, i.liquidation);
    NotedSo(st, Liquidate(st, i.liquidation).state, r, o);
  }

  lemma NewMark(st: State, r: Record, ids: IdSource)
    requires RuntimeInv(st) && CoreInv(st.core) && (forall m <- st.rates :: st.rates[m].scale > 0)
    requires !Known(st, r.input) && DuplicateOf(st, r.input).None? && r.input.MarkInput?
    ensures var o := RuntimeSpec.Process(st, r, ids); Answered(st, r, o.status) && Noted(st, r, o) && PaysWhenDue(st, r, o)
  {
    hide RuntimeInv, CoreInv, PlaceOrder, CancelOrder, Liquidate, UpdateMark, Tick, MarkDone, MarkInputDone, Mappable, CoreOrder,
      Paid, Known, Noted, Idle, DuplicateOf;
    NothingPaid([]);
    var o, i := RuntimeSpec.Process(st, r, ids), r.input;
    MarkStep(st, i.marketId, i.mark, ids);
    NotedSo(st, UpdateMark(st, i.marketId, i.mark, ids).state, r, o);
  }

  lemma NewRate(st: State, r: Record, ids: IdSource)
    requires RuntimeInv(st) && CoreInv(st.core) && (forall m <- st.rates :: st.rates[m].scale > 0)
    requires !Known(st, r.input) && DuplicateOf(st, r.input).None? && r.input.RateInput?
    ensures var o := RuntimeSpec.Process(st, r, ids); Answered(st, r, o.status) && Noted(st, r, o) && PaysWhenDue(st, r, o)
  {
    hide RuntimeInv, CoreInv, PlaceOrder, CancelOrder, Liquidate, UpdateMark, Tick, MarkDone, MarkInputDone, Mappable, CoreOrder,
      Paid, Known, Noted, Idle, DuplicateOf;
    NothingPaid([]);
    var o, i := RuntimeSpec.Process(st, r, ids), r.input;
    NothingPaid([RateUpdated(i.marketId, i.rate.interval)]);
    if i.rate.scale <= 0 { FailedNoted(st, r, o); } else { NotedSo(st, st.(rates := st.rates[i.marketId := i.rate]), r, o); }
  }

  lemma FailedNoted(st: State, r: Record, o: Outcome)
    requires o == Outcome(st, Failed, [])
    ensures Noted(st, r, o)
  {
    NothingPaid([]);
  }

  // ---------- What a run remembers ----------

  /** A record with the answer it got. */
  datatype Entry = Entry(record: Record, status: Status)

  ghost function Log(st: State, records: seq<Record>, ids: Record -> IdSource): (log: seq<Entry>)
    requires RuntimeInv(st)
    ensures |log| == |records| && forall j :: 0 <= j < |log| ==> log[j].record == records[j]
    decreases |records|
  {
    if records == [] then []
    else
      ProcessLaw(st, records[0], ids(records[0]));
      var first := RuntimeSpec.Process(st, records[0], ids(records[0]));
      [Entry(records[0], first.status)] + Log(first.state, records[1..], ids)
  }

  /** The rate of the last accepted rate record of a market. */
  function LastRate(log: seq<Entry>, m: nat): Option<FundingRate> {
    if log == [] then None
    else
      var last := log[|log| - 1];
      if last.status.Accepted? && last.record.input.RateInput? && last.record.input.marketId == m then Some(last.record.input.rate)
      else LastRate(log[..|log| - 1], m)
  }

  /** The mark of the last accepted mark record of a market. */
  function LastMark(log: seq<Entry>, m: nat): Option<int> {
    if log == [] then None
    else
      var last := log[|log| - 1];
      if last.status.Accepted? && last.record.input.MarkInput? && last.record.input.marketId == m then Some(last.record.input.mark)
      else LastMark(log[..|log| - 1], m)
  }

  function Or<T>(a: Option<T>, b: Option<T>): Option<T> {
    if a.Some? then a else b
  }

  function At<T>(table: map<nat, T>, m: nat): Option<T> {
    if m in table then Some(table[m]) else None
  }

  lemma {:induction false} LastOf(e: Entry, log: seq<Entry>, m: nat)
    ensures LastRate([e] + log, m) == Or(LastRate(log, m), LastRate([e], m))
    ensures LastMark([e] + log, m) == Or(LastMark(log, m), LastMark([e], m))
  {
    if log == [] {
      assert [e] + log == [e];
    } else {
      var front := log[..|log| - 1];
      assert ([e] + log)[..|log|] == [e] + front;
      LastOf(e, front, m);
    }
  }

  lemma JustLast(e: Entry, m: nat)
    ensures LastRate([e], m) == if e.status.Accepted? && e.record.input.RateInput? && e.record.input.marketId == m
                                then Some(e.record.input.rate) else None
    ensures LastMark([e], m) == if e.status.Accepted? && e.record.input.MarkInput? && e.record.input.marketId == m
                                then Some(e.record.input.mark) else None
  {
    assert [e][..0] == [];
  }

  /** A handled record with that input id. */
  predicate WithId(e: Entry, id: string) {
    Handled(e.status) && e.record.input.inputId == Some(id)
  }

  /** A handled order, cancel or liquidation with that request key. */
  predicate WithKey(e: Entry, key: string) {
    Handled(e.status) && Keyed(e.record.input) && e.record.input.requestKey == key
  }

  /** The tables after a run, told from the records, their answers and what was paid. */
  ghost predicate Tabled(st: State, log: seq<Entry>, outputs: seq<Output>, end: State) {
    && (forall m: nat :: At(end.rates, m) == Or(LastRate(log, m), At(st.rates, m)))
    && (forall m: nat :: At(end.marks, m) == Or(LastMark(log, m), At(st.marks, m)))
    && (forall x :: x in end.settled <==> x in st.settled || x in Paid(outputs))
    && (forall id :: id in end.inputIds <==> id in st.inputIds || exists e <- log :: WithId(e, id))
    && (forall key :: key in end.requestKeys <==> key in st.requestKeys || exists e <- log :: WithKey(e, key))
    && (forall e <- log, id :: WithId(e, id) ==> id !in st.inputIds && id in end.inputIds && end.inputIds[id] == e.record.offset)
    && (forall e <- log, key :: WithKey(e, key) ==>
          key !in st.requestKeys && key in end.requestKeys && end.requestKeys[key] == e.record.offset)
    && (forall id <- st.inputIds :: id in end.inputIds && end.inputIds[id] == st.inputIds[id])
    && (forall key <- st.requestKeys :: key in end.requestKeys && end.requestKeys[key] == st.requestKeys[key])
  }

  lemma NothingTabled(st: State)
    ensures Tabled(st, [], [], st)
  {
    NothingPaid([]);
  }

  lemma TabledOn(st: State, r: Record, o: Outcome, log: seq<Entry>, outputs: seq<Output>, end: State)
    requires Answered(st, r, o.status) && Noted(st, r, o) && Tabled(o.state, log, outputs, end)
    ensures Tabled(st, [Entry(r, o.status)] + log, o.outputs + outputs, end)
  {
    hide LastRate, LastMark, Paid, Unusable, Unscheduled;
    var e := Entry(r, o.status);
    var whole := [e] + log;
    PaidAppend(o.outputs, outputs);
    RatesOn(st, r, o, log, outputs, end);
    IdsOn(st, r, o, log, outputs, end);
    KeysOn(st, r, o, log, outputs, end);
  }

  lemma RatesOn(st: State, r: Record, o: Outcome, log: seq<Entry>, outputs: seq<Output>, end: State)
    requires Noted(st, r, o) && Tabled(o.state, log, outputs, end)
    ensures var whole := [Entry(r, o.status)] + log;
            && (forall m: nat :: At(end.rates, m) == Or(LastRate(whole, m), At(st.rates, m)))
            && (forall m: nat :: At(end.marks, m) == Or(LastMark(whole, m), At(st.marks, m)))
  {
    hide LastRate, LastMark, Paid, WithId, WithKey;
    var e := Entry(r, o.status);
    forall m: nat
      ensures At(end.rates, m) == Or(LastRate([e] + log, m), At(st.rates, m))
      ensures At(end.marks, m) == Or(LastMark([e] + log, m), At(st.marks, m))
    {
      LastOf(e, log, m);
      JustLast(e, m);
    }
  }

  lemma IdsOn(st: State, r: Record, o: Outcome, log: seq<Entry>, outputs: seq<Output>, end: State)
    requires Answered(st, r, o.status) && Noted(st, r, o) && Tabled(o.state, log, outputs, end)
    ensures var whole := [Entry(r, o.status)] + log;
            && (forall id :: id in end.inputIds <==> id in st.inputIds || exists e <- whole :: WithId(e, id))
            && (forall e <- whole, id :: WithId(e, id) ==> id !in st.inputIds && id in end.inputIds && end.inputIds[id] == e.record.offset)
            && (forall id <- st.inputIds :: id in end.inputIds && end.inputIds[id] == st.inputIds[id])
  {
    hide LastRate, LastMark, Paid, WithKey, Unusable, Unscheduled;
    var e := Entry(r, o.status);
    var whole := [e] + log;
    forall id ensures id in end.inputIds <==> id in st.inputIds || exists x <- whole :: WithId(x, id) {
      if id in end.inputIds && id !in st.inputIds {
        if id in o.state.inputIds { assert e in whole && WithId(e, id); } else {
          var x :| x in log && WithId(x, id);
          assert x in whole;
        }
      }
    }
  }

  lemma KeysOn(st: State, r: Record, o: Outcome, log: seq<Entry>, outputs: seq<Output>, end: State)
    requires Answered(st, r, o.status) && Noted(st, r, o) && Tabled(o.state, log, outputs, end)
    ensures var whole := [Entry(r, o.status)] + log;
            && (forall key :: key in end.requestKeys <==> key in st.requestKeys || exists e <- whole :: WithKey(e, key))
            && (forall e <- whole, key :: WithKey(e, key) ==>
                  key !in st.requestKeys && key in end.requestKeys && end.requestKeys[key] == e.record.offset)
            && (forall key <- st.requestKeys :: key in end.requestKeys && end.requestKeys[key] == st.requestKeys[key])
  {
    hide LastRate, LastMark, Paid, WithId, Unusable, Unscheduled;
    var e := Entry(r, o.status);
    var whole := [e] + log;
    forall key ensures key in end.requestKeys <==> key in st.requestKeys || exists x <- whole :: WithKey(x, key) {
      if key in end.requestKeys && key !in st.requestKeys {
        if key in o.state.requestKeys { assert e in whole && WithKey(e, key); } else {
          var x :| x in log && WithKey(x, key);
          assert x in whole;
        }
      }
    }
  }

  /**
    After any run: each market's rate and mark are those of its last accepted rate and mark record, the settled intervals are
    those that were paid, and an input id or request key is remembered, with its offset, exactly if a record with it was handled.
   */
  lemma {:induction false} RunTabled(st: State, records: seq<Record>, ids: Record -> IdSource)
    requires RuntimeInv(st)
    ensures var r := RuntimeRuns.Run(st, records, ids); Tabled(st, Log(st, records, ids), r.outputs, r.state)
    decreases |records|
  {
    hide RuntimeInv, RuntimeSpec.Process, CoreInv, Tabled, Answered, Noted;
    if records == [] {
      NothingTabled(st);
    } else {
      var r := records[0];
      ProcessLaw(st, r, ids(r));
      RecordStep(st, r, ids(r));
      var first := RuntimeSpec.Process(st, r, ids(r));
      RunTabled(first.state, records[1..], ids);
      var rest := RuntimeRuns.Run(first.state, records[1..], ids);
      TabledOn(st, r, first, Log(first.state, records[1..], ids), rest.outputs, rest.state);
    }
  }

  /** An earlier record that was handled and carries the same input id or the same request key. */
  predicate Repeats(e: Entry, i: Input) {
    || (i.inputId.Some? && WithId(e, i.inputId.value))
    || (Keyed(i) && WithKey(e, i.requestKey))
  }

  /**
    A record is answered as a repeat if and only if an earlier record of the run was handled and has its input id or, for orders,
    cancels and liquidations, its request key; the answer names the offset of such a record, and nothing changes.
   */
  lemma RepeatsIff(st: State, records: seq<Record>, ids: Record -> IdSource, r: Record)
    requires RuntimeInv(st) && st.inputIds == map[] && st.requestKeys == map[]
    ensures var log, run := Log(st, records, ids), RuntimeRuns.Run(st, records, ids);
            && CoreInv(run.state.core) && (forall m <- run.state.rates :: run.state.rates[m].scale > 0)
            && var o := RuntimeSpec.Process(run.state, r, ids(r));
               && (o.status.Duplicate? <==> exists e <- log :: Repeats(e, r.input))
               && (o.status.Duplicate? ==> o.state == run.state && o.outputs == []
                                           && exists e <- log :: Repeats(e, r.input) && e.record.offset == o.status.originalOffset)
  {
    hide RuntimeInv, RuntimeSpec.Process, CoreInv, RuntimeRuns.Run, Log, LastRate, LastMark, Unusable, Unscheduled, Paid;
    RunTabled(st, records, ids);
    var run := RuntimeRuns.Run(st, records, ids);
    RecordStep(run.state, r, ids(r));
  }

  /**
    A tick settles its interval if and only if it repeats no handled record, the interval was not paid before in the run, and
    the market's last accepted rate record is for that interval.
   */
  lemma SettlesIff(st: State, records: seq<Record>, ids: Record -> IdSource, r: Record)
    requires RuntimeInv(st) && st.inputIds == map[] && st.requestKeys == map[] && st.rates == map[] && st.settled == {}
    requires r.input.TickInput?
    ensures var log, run := Log(st, records, ids), RuntimeRuns.Run(st, records, ids);
            var m, interval := r.input.marketId, r.input.interval;
            && CoreInv(run.state.core) && (forall m <- run.state.rates :: run.state.rates[m].scale > 0)
            && var o := RuntimeSpec.Process(run.state, r, ids(r));
               Paid(o.outputs) == if && (forall e <- log :: !Repeats(e, r.input)) && (m, interval) !in Paid(run.outputs)
                                     && LastRate(log, m).Some? && LastRate(log, m).value.interval == interval
                                  then [(m, interval)] else []
  {
    hide RuntimeInv, RuntimeSpec.Process, CoreInv, RuntimeRuns.Run, Log, LastRate, LastMark, Paid, Repeats, Known;
    RepeatsIff(st, records, ids, r);
    RunTabled(st, records, ids);
    var run := RuntimeRuns.Run(st, records, ids);
    RecordStep(run.state, r, ids(r));
    RateAt(st, Log(st, records, ids), run.outputs, run.state, r.input.marketId);
  }

  lemma RateAt(st: State, log: seq<Entry>, outputs: seq<Output>, end: State, m: nat)
    requires Tabled(st, log, outputs, end) && st.rates == map[] && st.settled == {}
    ensures LastRate(log, m).Some? <==> m in end.rates
    ensures m in end.rates ==> LastRate(log, m) == Some(end.rates[m])
    ensures forall x :: x in end.settled <==> x in Paid(outputs)
  {
    hide LastRate, LastMark, WithId, WithKey, Paid;
    assert At(end.rates, m) == Or(LastRate(log, m), At(st.rates, m));
  }

  // ---------- What a settlement pays ----------

  /**
    A position's payment: its size times the mark times the rate, divided by the rate's scale and rounded toward zero; at a
    positive rate longs pay and shorts receive.
   */
  predicate Owed(signed: int, mark: int, rate: FundingRate, amount: int) {
    var exposure := signed * mark * rate.rate;
    && (exposure >= 0 ==> amount <= 0 && Share(-amount, exposure, rate.scale))
    && (exposure <= 0 ==> amount >= 0 && Share(amount, -exposure, rate.scale))
  }

  /** The mark that a settlement uses: the market's, or the position's own average. */
  function SettledAt(st: State, k: Key): int
    requires k in st.positions
  {
    if k.marketId in st.marks then st.marks[k.marketId] else st.positions[k].average
  }

  /** The announced payments are those of every open position of the market, but for amounts that round to nothing. */
  ghost predicate PaysAll(st: State, m: nat, rate: FundingRate, payments: map<Key, int>) {
    && (forall k <- payments :: k in st.positions && k.marketId == m && payments[k] != 0
                                && Owed(st.positions[k].signed, SettledAt(st, k), rate, payments[k]))
    && (forall k <- st.positions :: k.marketId == m && k !in payments ==> Owed(st.positions[k].signed, SettledAt(st, k), rate, 0))
  }

  lemma PaymentDue(p: Position, mark: int, rate: FundingRate)
    requires rate.scale > 0
    ensures Owed(p.signed, mark, rate, Payment(p, mark, rate))
  {
    hide Share;
    var exposure := p.signed * mark * rate.rate;
    if exposure >= 0 { SharedOut(exposure, rate.scale); }
    if exposure <= 0 {
      SharedOut(-exposure, rate.scale);
      Negatived(exposure, rate.scale);
    }
  }

  lemma Negatived(a: int, b: int)
    requires b > 0
    ensures TruncDiv(-a, b) == -TruncDiv(a, b)
  {
  }

  lemma FlatDue(mark: int, rate: FundingRate)
    requires rate.scale > 0
    ensures Owed(0, mark, rate, 0)
  {
    assert 0 * mark * rate.rate == 0;
  }

  /** A settlement pays every open position of its market what is due, and nobody else. */
  lemma PaymentsDue(st: State, m: nat, rate: FundingRate)
    requires rate.scale > 0
    ensures PaysAll(st, m, rate, Payments(st, m, rate))
  {
    hide Payment, Owed;
    var payments := Payments(st, m, rate);
    forall k <- st.positions | k.marketId == m
      ensures Owed(st.positions[k].signed, SettledAt(st, k), rate, if k in payments then payments[k] else 0)
    {
      PaymentDue(st.positions[k], SettledAt(st, k), rate);
      FlatDue(SettledAt(st, k), rate);
    }
  }
}
