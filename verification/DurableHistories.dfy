/**
  The laws of the runtime over the histories of the durable runtime, with their startup scans and restores: conservation of
  value, funding in equity, and the account of every reservation.
 */
module DurableHistories {
  import opened Types
  import opened CoreSpec
  import opened CoreLaws
  import opened Accounting
  import opened LedgerSpec
  import opened RuntimeSpec
  import opened StoreLaws
  import opened RuntimeRuns
  import opened RuntimeSteps
  import opened RestartLaws
  import opened Bookings
  import opened ValueLaws
  import opened MarginLaws
  import opened RiskLaws
  import opened AdjustmentLaws
  import opened ReservationLaws
  import opened RestartedReservations
  import opened Protocol
  import P = ProtocolRuns
  import opened DurableRuntime

  // ---------- What a history puts out ----------

  ghost function MoveOutputs(ids: IdSources, log: seq<Input>, s: State, m: P.Move): seq<Output> {
    match m
    case Scan => ScanOf(ids, s).outputs
    case Restore => []
    case Rec(offset) => if offset < |log| then OutputsOf(StepOf(ids, s, offset, log[offset]).status) else []
  }

  ghost function HistoryOutputs(e: P.Engine<State, Input, Output>, ids: IdSources, log: seq<Input>, moves: seq<P.Move>): seq<Output> {
    if moves == [] then []
    else
      var front := moves[..|moves| - 1];
      HistoryOutputs(e, ids, log, front) + MoveOutputs(ids, log, P.Apply(e, log, front), moves[|moves| - 1])
  }

  /** Only accepted records put anything out. */
  lemma OnlyAcceptedSpeak(st: State, r: Record, ids: IdSource)
    requires CoreInv(st.core) && (forall m <- st.rates :: st.rates[m].scale > 0)
    ensures OutputsOf(StatusOf(RuntimeSpec.Process(st, r, ids))) == RuntimeSpec.Process(st, r, ids).outputs
  {
    hide CoreInv, PlaceOrder, CancelOrder, Liquidate, UpdateMark, SettleFunding, MarkDone, MarkInputDone, DuplicateOf;
  }

  // ---------- Relations over histories ----------

  ghost predicate AcrossRestores(rel: Relation) {
    forall st :: RuntimeInv(st) ==> rel(st, Checkpointed(st), [])
  }

  lemma MoveRelated(rel: Relation, initial: State, low: nat, ids: IdSources, log: seq<Input>, s: State, m: P.Move)
    requires Everywhere(rel) && AcrossRestores(rel) && RuntimeInv(s)
    ensures rel(s, P.Perform(RuntimeEngine(initial, low, ids), log, s, m), MoveOutputs(ids, log, s, m))
  {
    hide RuntimeInv, CoreInv, RuntimeSpec.Process, ScanMarkets, LiquidatableMarkets, Checkpointed, Composes, AcrossLiquidations,
      AcrossCancels, AcrossClerical, AcrossOrders;
    InvParts(s);
    match m
    case Scan => MarketsRelated(rel, s, LiquidatableMarkets(s), ids.ofStartup);
    case Restore =>
    case Rec(o) =>
      if o < |log| {
        var r := Record(o, log[o]);
        ProcessRelated(rel, s, r, ids.ofRecord(r));
        OnlyAcceptedSpeak(s, r, ids.ofRecord(r));
      } else {
        RuntimeSteps.Same(rel, s);
      }
  }

  /** A relation that holds everywhere, restores included, holds across every history. */
  lemma {:induction false} HistoryRelated(rel: Relation, initial: State, low: nat, ids: IdSources, log: seq<Input>, moves: seq<P.Move>)
    requires Everywhere(rel) && AcrossRestores(rel) && RuntimeInv(initial)
    ensures var e := RuntimeEngine(initial, low, ids); rel(initial, P.Apply(e, log, moves), HistoryOutputs(e, ids, log, moves))
  {
    hide RuntimeInv, RuntimeEngine, P.Perform, MoveOutputs, AcrossRestores, Elsewhere, AcrossOrders;
    var e := RuntimeEngine(initial, low, ids);
    EverywhereComposes(rel);
    if moves == [] {
      InitialOf(initial, low, ids);
      RuntimeSteps.Same(rel, initial);
    } else {
      var front, last := moves[..|moves| - 1], moves[|moves| - 1];
      var s := P.Apply(e, log, front);
      HistoryKeeps(initial, low, ids, log, front);
      HistoryRelated(rel, initial, low, ids, log, front);
      MoveRelated(rel, initial, low, ids, log, s, last);
      Then(rel, initial, s, P.Perform(e, log, s, last), HistoryOutputs(e, ids, log, front), MoveOutputs(ids, log, s, last));
    }
  }

  lemma EverywhereComposes(rel: Relation)
    requires Everywhere(rel)
    ensures Composes(rel)
  {
    hide Composes, AcrossLiquidations, AcrossClerical, AcrossCancels, AcrossOrders;
  }

  /**
    Over any history of the durable runtime, scans and restores included: value is conserved up to the rounding of growing
    positions, and the announced changes lead to exactly the positions held.
   */
  lemma HistoryConservesValue(initial: State, low: nat, ids: IdSources, log: seq<Input>, moves: seq<P.Move>, marketId: nat, mark: int)
    requires RuntimeInv(initial)
    ensures var e := RuntimeEngine(initial, low, ids);
            var s, x := P.Apply(e, log, moves), HistoryOutputs(e, ids, log, moves);
            && Applied(initial.positions, x) == s.positions
            && Abs(Value(s.positions, marketId, mark) + Credited(x, marketId) - Value(initial.positions, marketId, mark))
               <= Slack(initial.positions, x, marketId)
  {
    hide RuntimeInv, RuntimeEngine, P.Apply, HistoryOutputs, Elsewhere, AcrossOrders, Value, Credited, Slack, Applied;
    ConservedEverywhere();
    ConservedByRestores();
    HistoryRelated(Lifted(Conserves()), initial, low, ids, log, moves);
    var e := RuntimeEngine(initial, low, ids);
    Unlifted(Conserves(), initial, P.Apply(e, log, moves), HistoryOutputs(e, ids, log, moves));
    assert MovedBy(initial.positions, P.Apply(e, log, moves).positions, HistoryOutputs(e, ids, log, moves), marketId, mark, 0);
  }

  lemma ConservedByRestores()
    ensures AcrossRestores(Lifted(Conserves()))
  {
    hide RuntimeInv, Conserved, Restore, Snapshot, Rests;
    forall st | RuntimeInv(st) ensures Lifted(Conserves())(st, Checkpointed(st), []) {
      ConservedStill(st.positions, []);
      Unlifted(Conserves(), st, Checkpointed(st), []);
    }
  }

  /** Over any history, what is neither margin nor unrealized profit in equity is what funding paid since the last fill. */
  lemma HistoryAdjustments(initial: State, low: nat, ids: IdSources, log: seq<Input>, moves: seq<P.Move>, k: Key)
    requires RuntimeInv(initial)
    ensures var e := RuntimeEngine(initial, low, ids);
            var s := P.Apply(e, log, moves);
            k in s.risks ==>
              Adjustment(s.risks[k]) == PaidSinceFill(Carried(initial.risks, k), HistoryOutputs(e, ids, log, moves), k)
  {
    hide RuntimeInv, RuntimeEngine, P.Apply, HistoryOutputs, Elsewhere, AcrossOrders, PaidSinceFill, Adjustment;
    AdjustsEverywhere();
    AdjustsByRestores();
    HistoryRelated(Lifted(Adjusting()), initial, low, ids, log, moves);
    var e := RuntimeEngine(initial, low, ids);
    Unlifted(Adjusting(), initial, P.Apply(e, log, moves), HistoryOutputs(e, ids, log, moves));
    assert Carried(P.Apply(e, log, moves).risks, k)
           == PaidSinceFill(Carried(initial.risks, k), HistoryOutputs(e, ids, log, moves), k);
  }

  lemma AdjustsByRestores()
    ensures AcrossRestores(Lifted(Adjusting()))
  {
    hide RuntimeInv, Adjusts, Restore, Snapshot, Rests;
    forall st | RuntimeInv(st) ensures Lifted(Adjusting())(st, Checkpointed(st), []) {
      AdjustsStill(st.risks, []);
      Unlifted(Adjusting(), st, Checkpointed(st), []);
    }
  }

  /**
    Over any history: every announced change of a position is a fill of the trade announced before it, at its price and of its
    size; and every position has a sound risk entry, at its market's mark where it is open and the market has one.
   */
  lemma HistoryFillsAndRisks(initial: State, low: nat, ids: IdSources, log: seq<Input>, moves: seq<P.Move>, k: Key)
    requires RuntimeInv(initial) && Current(AccountsIn(initial))
    ensures var e := RuntimeEngine(initial, low, ids);
            var s, x := P.Apply(e, log, moves), HistoryOutputs(e, ids, log, moves);
            && Explained(initial.positions, Tape(0, 0, None), x)
            && (k in s.positions ==>
                  && k in s.risks && Sound(s.positions[k], s.risks[k], PaidSinceFill(Carried(initial.risks, k), x, k))
                  && (s.positions[k].signed != 0 && k.marketId in s.marks ==> s.risks[k].mark == s.marks[k.marketId]))
  {
    hide RuntimeInv, RuntimeEngine, P.Apply, HistoryOutputs, Elsewhere, AcrossOrders, Explained, Sound, RiskAgrees, PaidSinceFill,
      Adjustment, Applied;
    var e := RuntimeEngine(initial, low, ids);
    var s, x := P.Apply(e, log, moves), HistoryOutputs(e, ids, log, moves);
    ExplainedEverywhere();
    CurrentEverywhere();
    PlainRestores();
    HistoryRelated(Lifted(Explains()), initial, low, ids, log, moves);
    HistoryRelated(Lifted(KeepsCurrent()), initial, low, ids, log, moves);
    Unlifted(Explains(), initial, s, x);
    Unlifted(KeepsCurrent(), initial, s, x);
    assert AllExplained(initial.positions, s.positions, x) && Current(AccountsIn(s));
    HistoryAdjustments(initial, low, ids, log, moves, k);
    HistoryKeeps(initial, low, ids, log, moves);
    RisksOf(s);
    if k in s.positions { SoundEntry(s.positions[k], s.risks[k]); }
  }

  lemma PlainRestores()
    ensures AcrossRestores(Lifted(Explains())) && AcrossRestores(Lifted(KeepsCurrent()))
  {
    hide RuntimeInv, AllExplained, Current, Restore, Snapshot, Rests;
    forall st | RuntimeInv(st) ensures Lifted(Explains())(st, Checkpointed(st), []) && Lifted(KeepsCurrent())(st, Checkpointed(st), []) {
      ExplainedStill(st.positions, []);
      Unlifted(Explains(), st, Checkpointed(st), []);
      Unlifted(KeepsCurrent(), st, Checkpointed(st), []);
      assert AccountsIn(Checkpointed(st)) == AccountsIn(st);
    }
  }

  // ---------- Reservations over histories ----------

  /** The reservations that a move opens, and those that it drops. */
  ghost function MoveOpens(ids: IdSources, log: seq<Input>, s: State, m: P.Move): map<nat, int> {
    if m.Rec? && m.offset < |log| && RuntimeInv(s) then RunOpened(s, [Record(m.offset, log[m.offset])], ids.ofRecord) else map[]
  }

  ghost function MoveDrops(s: State, m: P.Move): map<nat, int> {
    if m.Restore? then Dropped(s) else map[]
  }

  ghost function HistoryOpens(e: P.Engine<State, Input, Output>, ids: IdSources, log: seq<Input>, moves: seq<P.Move>): map<nat, int> {
    if moves == [] then map[]
    else
      var front := moves[..|moves| - 1];
      HistoryOpens(e, ids, log, front) + MoveOpens(ids, log, P.Apply(e, log, front), moves[|moves| - 1])
  }

  ghost function HistoryDrops(e: P.Engine<State, Input, Output>, log: seq<Input>, moves: seq<P.Move>): map<nat, int> {
    if moves == [] then map[]
    else
      var front := moves[..|moves| - 1];
      HistoryDrops(e, log, front) + MoveDrops(P.Apply(e, log, front), moves[|moves| - 1])
  }

  lemma OneRecord(st: State, r: Record, ids: Record -> IdSource)
    requires RuntimeInv(st)
    ensures CoreInv(st.core) && (forall m <- st.rates :: st.rates[m].scale > 0)
    ensures var o := RuntimeSpec.Process(st, r, ids(r)); RuntimeRuns.Run(st, [r], ids) == RunResult(o.state, o.outputs)
  {
    hide RuntimeInv, RuntimeSpec.Process, CoreInv;
    ProcessLaw(st, r, ids(r));
    var o := RuntimeSpec.Process(st, r, ids(r));
    assert [r][1..] == [];
    assert RuntimeRuns.Run(o.state, [], ids) == RunResult(o.state, []);
    assert o.outputs + [] == o.outputs;
  }

  lemma MoveBalanced(initial: State, low: nat, ids: IdSources, log: seq<Input>, s: State, m: P.Move, granted: map<nat, int>,
                     lost: map<nat, int>, before: seq<Output>)
    requires RuntimeInv(s) && BalancedBut(s, granted, lost, before)
    ensures BalancedBut(P.Perform(RuntimeEngine(initial, low, ids), log, s, m), granted + MoveOpens(ids, log, s, m),
                        lost + MoveDrops(s, m), before + MoveOutputs(ids, log, s, m))
  {
    hide RuntimeInv, CoreInv, RuntimeSpec.Process, ScanMarkets, LiquidatableMarkets, Checkpointed, BalancedBut, RunOpened, Dropped,
      RuntimeRuns.Run;
    InvParts(s);
    assert granted + map[] == granted && lost + map[] == lost && before + [] == before;
    match m
    case Scan => ScanBalancedBut(s, LiquidatableMarkets(s), ids.ofStartup, granted, lost, before);
    case Restore => RestartBalancedBut(s, granted, lost, before);
    case Rec(o) =>
      if o < |log| {
        var r := Record(o, log[o]);
        RunBalancedBut(s, [r], ids.ofRecord, granted, lost, before);
        OneRecord(s, r, ids.ofRecord);
        OnlyAcceptedSpeak(s, r, ids.ofRecord(r));
      }
  }

  lemma {:induction false} HistoryBalanced(initial: State, low: nat, ids: IdSources, log: seq<Input>, moves: seq<P.Move>)
    requires RuntimeInv(initial) && initial.metadata == map[]
    ensures var e := RuntimeEngine(initial, low, ids);
            BalancedBut(P.Apply(e, log, moves), HistoryOpens(e, ids, log, moves), HistoryDrops(e, log, moves),
                        HistoryOutputs(e, ids, log, moves))
  {
    hide RuntimeInv, RuntimeEngine, P.Perform, MoveOutputs, MoveOpens, MoveDrops, BalancedBut;
    var e := RuntimeEngine(initial, low, ids);
    if moves == [] {
      InitialOf(initial, low, ids);
      NothingYet(initial);
    } else {
      var front := moves[..|moves| - 1];
      HistoryKeeps(initial, low, ids, log, front);
      HistoryBalanced(initial, low, ids, log, front);
      MoveBalanced(initial, low, ids, log, P.Apply(e, log, front), moves[|moves| - 1], HistoryOpens(e, ids, log, front),
                   HistoryDrops(e, log, front), HistoryOutputs(e, ids, log, front));
    }
  }

  lemma NothingYet(st: State)
    requires st.metadata == map[]
    ensures BalancedBut(st, map[], map[], [])
  {
    var none: map<nat, int> := map[];
    assert none - none.Keys == none;
    assert forall k :: ReservationLaws.Settled([], k) == 0 && Released([], k) == 0;
  }

  /**
    Over any history of the durable runtime from a fresh state, scans and restores included: for every accepted order with a
    reservation, what its trades settled, plus what a cancel released, what is still held or what a restore dropped, is
    exactly what was reserved.
   */
  lemma RestartsAccounted(initial: State, low: nat, ids: IdSources, log: seq<Input>, moves: seq<P.Move>, id: nat)
    requires RuntimeInv(initial) && initial.metadata == map[]
    requires id in HistoryOpens(RuntimeEngine(initial, low, ids), ids, log, moves)
    ensures var e := RuntimeEngine(initial, low, ids);
            var s, x := P.Apply(e, log, moves), HistoryOutputs(e, ids, log, moves);
            var granted, lost := HistoryOpens(e, ids, log, moves), HistoryDrops(e, log, moves);
            if id in lost then LostFor(s, x, id, granted[id], lost[id]) else Accounted(s.metadata, x, id, granted[id])
  {
    hide RuntimeInv, RuntimeEngine, P.Apply, HistoryOutputs, HistoryOpens, HistoryDrops, Accounted, LostFor;
    HistoryBalanced(initial, low, ids, log, moves);
    var e := RuntimeEngine(initial, low, ids);
    var granted, lost := HistoryOpens(e, ids, log, moves), HistoryDrops(e, log, moves);
    if id !in lost { assert id in granted - lost.Keys; }
  }
}
