/**
  Reservations over runs with restarts.  A restart drops the metadata of stranded orders, and with it what they still held;
  everything else stays accounted for.
 */
module RestartedReservations {
  import opened Types
  import opened BookSpec
  import opened CoreSpec
  import opened CoreLaws
  import opened LedgerSpec
  import opened RuntimeSpec
  import opened StoreLaws
  import opened LiquidationLaws
  import opened RuntimeRuns
  import opened RuntimeSteps
  import opened RestartLaws
  import opened ReservationLaws
  import opened StrandedReservations

  // ---------- One restart ----------

  /** What a restart drops: what stranded reservations still hold. */
  ghost function Dropped(st: State): map<nat, int> {
    map id | id in st.metadata && Stranded(st, id) && Claims(st.metadata[id]) :: st.metadata[id].remainingReserved
  }

  /** A reservation stays accounted for through a restart exactly if its order is not stranded or holds nothing. */
  lemma AccountedIff(st: State, outputs: seq<Output>, id: nat, reserved: int)
    requires Accounted(st.metadata, outputs, id, reserved)
    ensures Accounted(Checkpointed(st).metadata, outputs, id, reserved)
            <==> !Stranded(st, id) || st.metadata[id].remainingReserved == 0
  {
    hide Settled, Released, Rests, Restore, Snapshot;
  }

  /**
    A record that places an order with a reservation, and any run after it: a restart then drops the reservation exactly if
    the order may not rest and the book held fewer lots within its limit than it asked for.
   */
  lemma DroppedIff(st: State, r: Record, later: seq<Record>, ids: Record -> IdSource)
    requires r.input.PlaceInput? && Opens(st, r)
    ensures var c, end := r.input.order, RuntimeRuns.Run(st, [r] + later, ids).state;
            && c.symbolId in st.core.books
            && (c.orderId in Dropped(end) <==> FallsShort(st.core, c))
            && (c.orderId in Dropped(end) ==> Dropped(end)[c.orderId] > 0)
            && c.orderId !in Dropped(Checkpointed(end))
  {
    hide RuntimeRuns.Run, FallsShort, Opened, RuntimeInv, Restore, Snapshot, Claims;
    StrandedIff(st, r, later, ids);
    NoneStranded(RuntimeRuns.Run(st, [r] + later, ids).state, r.input.order.orderId);
  }

  /** Right after a restart nobody is stranded. */
  lemma NoneStranded(st: State, id: nat)
    requires RuntimeInv(st)
    ensures !Stranded(Checkpointed(st), id)
  {
    hide RuntimeInv, Restore, Snapshot, Rests;
    InvCore(st);
    if Rests(st.core.books, id) { RestsAfterwards(st.core, id); }
  }

  lemma RestsAfterwards(core: Core, id: nat)
    requires CoreInv(core) && Rests(core.books, id)
    ensures Rests(Restore(Snapshot(core)).books, id)
  {
    hide Restore, Snapshot, HasId, CoreInv;
    RestoredMembers(core);
    var m :| m in core.books && (HasId(core.books[m].bids, id) || HasId(core.books[m].asks, id));
    SameIds(core.books[m].bids, Restore(Snapshot(core)).books[m].bids, id);
    SameIds(core.books[m].asks, Restore(Snapshot(core)).books[m].asks, id);
  }

  lemma SameIds(a: Queue, b: Queue, id: nat)
    requires forall x :: x in b <==> x in a
    ensures HasId(a, id) ==> HasId(b, id)
  {
    if HasId(a, id) {
      var i :| 0 <= i < |a| && a[i].orderId == id;
      assert a[i] in a;
      MemberHasId(b, a[i]);
    }
  }

  // ---------- Balance through runs, scans and restarts ----------

  /** A dropped reservation: what was settled and what was dropped make up what was reserved. */
  ghost predicate LostFor(st: State, outputs: seq<Output>, id: nat, reserved: int, dropped: int) {
    && id in st.core.idempotency.orderIds && id !in st.metadata
    && Settled(outputs, id) + dropped == reserved && Released(outputs, id) == 0
  }

  /** All reservations are accounted for, except that restarts dropped some of what stranded ones held. */
  ghost predicate BalancedBut(st: State, granted: map<nat, int>, lost: map<nat, int>, outputs: seq<Output>) {
    && Balanced(st, granted - lost.Keys, outputs)
    && lost.Keys <= granted.Keys
    && forall id <- lost :: LostFor(st, outputs, id, granted[id], lost[id])
  }

  lemma {:induction false} OpenedAnew(st: State, records: seq<Record>, ids: Record -> IdSource)
    requires RuntimeInv(st)
    ensures RunOpened(st, records, ids).Keys !! st.core.idempotency.orderIds
    decreases |records|
  {
    hide RuntimeInv, RuntimeSpec.Process, CoreInv, Opened, Accounted, FlowsAt;
    if records != [] {
      var r := records[0];
      ProcessLaw(st, r, ids(r));
      ProcessFlows(st, r, ids(r));
      FailedNothing(st, r, ids(r));
      OpenedAnew(RuntimeSpec.Process(st, r, ids(r)).state, records[1..], ids);
    }
  }

  lemma LostLater(st: State, records: seq<Record>, ids: Record -> IdSource, before: seq<Output>, id: nat, reserved: int, dropped: int)
    requires RuntimeInv(st) && LostFor(st, before, id, reserved, dropped)
    ensures var r := RuntimeRuns.Run(st, records, ids); LostFor(r.state, before + r.outputs, id, reserved, dropped)
  {
    hide RuntimeInv, RuntimeRuns.Run, Elsewhere, AcrossOrders, LostFor, FlowsOn;
    FlowsEverywhere(id);
    RunRelated(FlowsFor(id), st, records, ids);
    var r := RuntimeRuns.Run(st, records, ids);
    LostOn(st, r.state, before, r.outputs, id, reserved, dropped);
  }

  lemma RunBalancedBut(st: State, records: seq<Record>, ids: Record -> IdSource, granted: map<nat, int>, lost: map<nat, int>,
                       before: seq<Output>)
    requires RuntimeInv(st) && BalancedBut(st, granted, lost, before)
    ensures var r := RuntimeRuns.Run(st, records, ids);
            BalancedBut(r.state, granted + RunOpened(st, records, ids), lost, before + r.outputs)
  {
    hide RuntimeInv, RuntimeRuns.Run, RunOpened, Balanced;
    var r, added := RuntimeRuns.Run(st, records, ids), RunOpened(st, records, ids);
    RunBalanced(st, records, ids, granted - lost.Keys, before);
    OpenedAnew(st, records, ids);
    forall id <- lost ensures id !in added && LostFor(r.state, before + r.outputs, id, granted[id], lost[id]) {
      assert LostFor(st, before, id, granted[id], lost[id]);
      LostLater(st, records, ids, before, id, granted[id], lost[id]);
    }
    assert (granted - lost.Keys) + added == (granted + added) - lost.Keys;
  }

  /** A restart keeps or drops one reservation. */
  lemma RestartOne(st: State, outputs: seq<Output>, id: nat, reserved: int)
    requires Accounted(st.metadata, outputs, id, reserved) && id in st.core.idempotency.orderIds
    ensures id !in Dropped(st) ==> Accounted(Checkpointed(st).metadata, outputs, id, reserved)
    ensures id in Dropped(st) ==> LostFor(Checkpointed(st), outputs, id, reserved, Dropped(st)[id])
  {
    hide Settled, Released, Rests, Restore, Snapshot, Claims;
    SameIndex(st.core);
  }

  lemma RestartKeys(st: State, id: nat)
    ensures id in Checkpointed(st).metadata ==> id in st.metadata && Checkpointed(st).metadata[id] == st.metadata[id] && id !in Dropped(st)
    ensures id in Dropped(st) ==> id in st.metadata && Claims(st.metadata[id])
    ensures Checkpointed(st).core.idempotency == st.core.idempotency
  {
    hide Rests, Restore, Snapshot, Claims;
    SameIndex(st.core);
  }

  lemma RestartBalanced(st: State, granted: map<nat, int>, outputs: seq<Output>)
    requires Balanced(st, granted, outputs)
    ensures Dropped(st).Keys <= granted.Keys && Balanced(Checkpointed(st), granted - Dropped(st).Keys, outputs)
    ensures forall id <- Dropped(st) :: LostFor(Checkpointed(st), outputs, id, granted[id], Dropped(st)[id])
  {
    hide Settled, Released, Accounted, LostFor, Dropped, Checkpointed, Claims;
    forall id ensures id in Checkpointed(st).metadata ==> id in st.metadata && Checkpointed(st).metadata[id] == st.metadata[id] && id !in Dropped(st)
              ensures id in Dropped(st) ==> id in st.metadata && Claims(st.metadata[id])
    {
      RestartKeys(st, id);
    }
    RestartKeys(st, 0);
    forall id <- granted - Dropped(st).Keys ensures Accounted(Checkpointed(st).metadata, outputs, id, granted[id]) {
      RestartOne(st, outputs, id, granted[id]);
    }
    forall id <- Dropped(st) ensures LostFor(Checkpointed(st), outputs, id, granted[id], Dropped(st)[id]) {
      RestartOne(st, outputs, id, granted[id]);
    }
  }

  lemma RestartBalancedBut(st: State, granted: map<nat, int>, lost: map<nat, int>, outputs: seq<Output>)
    requires BalancedBut(st, granted, lost, outputs)
    ensures BalancedBut(Checkpointed(st), granted, lost + Dropped(st), outputs)
  {
    hide Settled, Released, Balanced, Restore, Snapshot, Rests, Claims;
    SameIndex(st.core);
    RestartBalanced(st, granted - lost.Keys, outputs);
    assert (granted - lost.Keys) - Dropped(st).Keys == granted - (lost + Dropped(st)).Keys;
    forall id <- lost ensures id !in Dropped(st) && LostFor(Checkpointed(st), outputs, id, granted[id], lost[id]) { }
  }

  /** Automatic liquidation of any markets keeps the balance. */
  lemma ScanBalancedBut(st: State, markets: set<nat>, ids: IdSource, granted: map<nat, int>, lost: map<nat, int>,
                        before: seq<Output>)
    requires RuntimeInv(st) && CoreInv(st.core) && BalancedBut(st, granted, lost, before)
    ensures var r := ScanMarkets(st, markets, ids); BalancedBut(r.state, granted, lost, before + r.outputs)
  {
    hide RuntimeInv, CoreInv, ScanMarkets, Balanced, RecordFlows, Settled, Released, Composes, AcrossLiquidations;
    var r := ScanMarkets(st, markets, ids);
    FlowsCompose();
    MarketsRelated(Flowing(), st, markets, ids);
    FlowsRecord(st, r.state, r.outputs);
    StoreKeys(r.state);
    BalancedStep(st, r.state, granted - lost.Keys, map[], before, r.outputs);
    assert (granted - lost.Keys) + map[] == granted - lost.Keys;
    forall id <- lost ensures LostFor(r.state, before + r.outputs, id, granted[id], lost[id]) {
      assert LostFor(st, before, id, granted[id], lost[id]);
      FlowsAreOn(st, r.state, r.outputs, id);
      LostOn(st, r.state, before, r.outputs, id, granted[id], lost[id]);
    }
  }

  lemma LostOn(a: State, b: State, before: seq<Output>, x: seq<Output>, id: nat, reserved: int, dropped: int)
    requires LostFor(a, before, id, reserved, dropped) && FlowsOn(a, b, x, id)
    ensures LostFor(b, before + x, id, reserved, dropped)
  {
    hide Settled, Released;
    Additive(before, x, id);
  }

  // ---------- For instance ----------

  /** A market with an empty book. */
  function EmptyMarket(): State {
    var config := SymbolConfig(1, 1, 1, 1, 10, 1, 10, 64, 0, true);
    State(Core(map[1 := EmptyBook(config)], SequenceState(1, 1, 1), Idempotency(map[], map[], {})), map[], map[], map[], map[],
          map[], {}, map[], map[])
  }

  /** An immediate-or-cancel order with a reservation of 10. */
  function ImmediateBuy(): Record {
    Record(0, PlaceInput(None, "key", PlaceOrderCommand(1, 1, 1, 7, 1, Buy, Limit, IOC, 5, 1), false, 10, 1))
  }

  lemma EmptyMarketRuns()
    ensures RuntimeInv(EmptyMarket()) && CoreInv(EmptyMarket().core)
  {
    FreshRuntime(EmptyMarket());
    InvCore(EmptyMarket());
  }

  /** The order is accepted, and that is all. */
  lemma ImmediateBuyAccepted()
    ensures CoreInv(EmptyMarket().core)
    ensures var r := CoreStep(EmptyMarket().core, Place(ImmediateBuy().input.order)); |r.events| == 1 && r.events[0].OrderAccepted?
  {
    hide RuntimeInv, CoreInv;
    EmptyMarketRuns();
    var c, book := ImmediateBuy().input.order, EmptyMarket().core.books[1];
    assert PlaceRejection(book, c).None? by { assert !HasId([] + [], 1) && !HasClient([] + [], 1); }
    assert MatchOf(book, EmptyMarket().core.sequences, c).events == [];
  }

  /** Booking an acceptance changes nothing, and the order's metadata is stored whole. */
  lemma AcceptedOnly(st: State, i: Input, c: PlaceOrderCommand)
    requires CoreInv(st.core) && i.PlaceInput? && !i.reduceOnly && c.orderId !in st.metadata
    requires var r := CoreStep(st.core, Place(c)); |r.events| == 1 && r.events[0].OrderAccepted?
    ensures var r := RunOrder(st, i, c);
            r.Some? && r.value.outputs == [] && r.value.state.metadata == st.metadata[c.orderId := PlaceMetadata(i)]
    ensures !RuntimeSpec.Traded(st, c)
  {
    hide CoreInv, CoreSpec.Process;
    var r := CoreStep(st.core, Place(c));
    assert r.events[1..] == [];
    var l := LedgerOf(st, Some(PlaceMetadata(i)));
    assert BookAll(l, r.events, st.marks, PlaceKind) == Booked(l, []);
    assert Completed(r.events) == {};
    var stored := st.metadata[c.orderId := PlaceMetadata(i)];
    assert stored - {} == stored;
  }

  /** Processing the order announces nothing and stores its metadata whole. */
  lemma ImmediateBuyProcessed(ids: IdSource)
    ensures RuntimeInv(EmptyMarket()) && Opens(EmptyMarket(), ImmediateBuy()) && CoreInv(EmptyMarket().core)
    ensures var o := RuntimeSpec.Process(EmptyMarket(), ImmediateBuy(), ids);
            o.outputs == [] && o.state.metadata == map[1 := PlaceMetadata(ImmediateBuy().input)]
  {
    hide CoreInv, RuntimeInv, CoreSpec.Process, RunOrder, AutoLiquidate;
    EmptyMarketRuns();
    ImmediateBuyAccepted();
    AcceptedOnly(EmptyMarket(), ImmediateBuy().input, ImmediateBuy().input.order);
  }

  /**
    For instance: an immediate-or-cancel buy with a reservation of 10 reaches an empty book.  It is accepted and trades
    nothing, nothing is announced, and it holds its 10 until a restart drops them.
   */
  lemma ImmediateBuyStranded(ids: Record -> IdSource)
    ensures RuntimeInv(EmptyMarket()) && Opens(EmptyMarket(), ImmediateBuy())
    ensures var r := RuntimeRuns.Run(EmptyMarket(), [ImmediateBuy()], ids);
            Stranded(r.state, 1) && r.outputs == [] && Dropped(r.state) == map[1 := 10]
  {
    hide CoreInv, RuntimeInv, RuntimeSpec.Process, Rests, Opens;
    var st, r := EmptyMarket(), ImmediateBuy();
    ImmediateBuyProcessed(ids(r));
    StrandedIff(st, r, [], ids);
    assert FallsShort(st.core, r.input.order);
    assert [r] + [] == [r] && [r][1..] == [];
    var done := RuntimeSpec.Process(st, r, ids(r));
    assert RuntimeRuns.Run(st, [r], ids) == RunResult(done.state, []);
  }
}
