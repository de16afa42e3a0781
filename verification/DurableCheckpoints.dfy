/** The restore that the durable runtime is taken to perform is what writing, reading and restoring a checkpoint does. */
module DurableCheckpoints {
  import opened Types
  import opened BookSpec
  import opened CoreSpec
  import opened CoreLaws
  import opened LedgerSpec
  import opened RuntimeSpec
  import opened StoreLaws
  import opened LiquidationLaws
  import opened RuntimeSteps
  import opened RestartLaws
  import AscendingIds
  import P = ProtocolRuns
  import opened DurableRuntime
  import CheckpointSpec
  import opened StateCodec

  // ---------- Command summaries are kept under their own ids ----------

  lemma ProcessNames(core: Core, command: EngineCommand)
    requires CoreInv(core) && SummariesNamed(core)
    ensures SummariesNamed(CoreStep(core, command).core)
  {
    hide CoreInv, ProcessPlace, ProcessCancel, ValidatePlace, RejectionIn, FirstSequence, IsAccepted, IsCancelled, SaneQuantities;
  }

  lemma LiquidateNames(st: State, q: Liquidation)
    requires CoreInv(st.core) && SummariesNamed(st.core)
    ensures SummariesNamed(Liquidate(st, q).state.core)
  {
    hide CoreInv, SummariesNamed, CoreSpec.Process, BookAll, AdlFills, AdlCandidates, AvailableLots, CrossingLiquidity, HasTrade,
      LiquidationPrice, LiquidationMetadata, Completed;
    if MayLiquidate(st, q) {
      var p := st.positions[q.key];
      ProcessNames(st.core, Place(LiquidationOrder(q, p.signed, LiquidationPrice(q, p, st.marks))));
    }
  }

  lemma OrderNames(st: State, i: Input, c: PlaceOrderCommand)
    requires CoreInv(st.core) && SummariesNamed(st.core) && i.PlaceInput?
    ensures RunOrder(st, i, c).Some? ==> SummariesNamed(RunOrder(st, i, c).value.state.core)
  {
    hide CoreInv, SummariesNamed, RunOrder;
    if RunOrder(st, i, c).Some? { AscendingIds.OrderCore(st, i, c); }
    ProcessNames(st.core, Place(c));
  }

  lemma CancelNames(st: State, c: CancelOrderCommand)
    requires CoreInv(st.core) && SummariesNamed(st.core)
    ensures SummariesNamed(CancelOrder(st, c).state.core)
  {
    hide CoreInv, SummariesNamed, CoreSpec.Process, BookAll, Completed;
    ProcessNames(st.core, Cancel(c));
  }

  ghost function Names(): Relation {
    (a: State, b: State, x: seq<Output>) => SummariesNamed(a.core) ==> SummariesNamed(b.core)
  }

  lemma NamedEverywhere()
    ensures Everywhere(Names())
  {
    hide RuntimeInv, CoreInv, Liquidate, CancelOrder, RunOrder, CoreOrder, Mappable, SummariesNamed;
    var rel := Names();
    forall st, q | RuntimeInv(st) && CoreInv(st.core) ensures rel(st, Liquidate(st, q).state, Liquidate(st, q).outputs) {
      if SummariesNamed(st.core) { LiquidateNames(st, q); }
    }
    forall st, c | RuntimeInv(st) && CoreInv(st.core) ensures rel(st, CancelOrder(st, c).state, CancelOrder(st, c).outputs) {
      if SummariesNamed(st.core) { CancelNames(st, c); }
    }
    forall st, i: Input, c | RuntimeInv(st) && CoreInv(st.core) && i.PlaceInput? && CoreOrder(st, i) == Some(c) && Mappable(c)
      ensures OrderRelated(rel, st, i, c)
    {
      if SummariesNamed(st.core) { OrderNames(st, i, c); }
    }
  }

  lemma MoveNames(initial: State, low: nat, ids: IdSources, log: seq<Input>, s: State, m: P.Move)
    requires RuntimeInv(s) && SummariesNamed(s.core)
    ensures SummariesNamed(P.Perform(RuntimeEngine(initial, low, ids), log, s, m).core)
  {
    hide RuntimeInv, CoreInv, RuntimeSpec.Process, ScanMarkets, LiquidatableMarkets, SummariesNamed, Composes, AcrossLiquidations,
      AcrossCancels, AcrossClerical, AcrossOrders, Restore, Snapshot;
    InvCore(s);
    NamedEverywhere();
    match m
    case Scan => MarketsRelated(Names(), s, LiquidatableMarkets(s), ids.ofStartup);
    case Restore => RestoreNames(s);
    case Rec(o) =>
      if o < |log| {
        var r := Record(o, log[o]);
        ProcessRelated(Names(), s, r, ids.ofRecord(r));
      }
  }

  lemma RestoreNames(s: State)
    requires SummariesNamed(s.core)
    ensures SummariesNamed(Checkpointed(s).core)
  {
    hide Rests;
    SameIndex(s.core);
  }

  lemma {:induction false} HistoryNames(initial: State, low: nat, ids: IdSources, log: seq<Input>, moves: seq<P.Move>)
    requires RuntimeInv(initial) && SummariesNamed(initial.core)
    ensures var s := P.Apply(RuntimeEngine(initial, low, ids), log, moves); RuntimeInv(s) && SummariesNamed(s.core)
  {
    hide RuntimeInv, RuntimeEngine, P.Perform, SummariesNamed;
    HistoryKeeps(initial, low, ids, log, moves);
    if moves == [] {
      InitialOf(initial, low, ids);
    } else {
      var front := moves[..|moves| - 1];
      HistoryNames(initial, low, ids, log, front);
      MoveNames(initial, low, ids, log, P.Apply(RuntimeEngine(initial, low, ids), log, front), moves[|moves| - 1]);
    }
  }

  // ---------- Checkpoints of the durable runtime ----------

  /** The state has a snapshot, and each one, as written, is read and restored as the engine restores the state. */
  ghost predicate ReadBack(e: P.Engine<State, Input, Output>, s: State) {
    && (exists c :: Represents(c, s))
    && (forall c :: Represents(c, s) ==> RestoredFrom(e, s, CheckpointSpec.Serialize(c)))
  }

  ghost predicate RestoredFrom(e: P.Engine<State, Input, Output>, s: State, text: string) {
    var read := CheckpointSpec.Deserialize(text); read.Some? && e.restore(s) == Some(StateFrom(read.value))
  }

  ghost predicate CheckpointReadBack(e: P.Engine<State, Input, Output>, w: P.World<State, Input, Output>) {
    w.checkpoint.Some? ==> ReadBack(e, w.checkpoint.value.state)
  }

  /**
    Over any run of the durable runtime, with failures, crashes and restarts anywhere: the surviving checkpoint's state has a
    snapshot, and every text written for it is read and restored as exactly the state from which recovery continues.
   */
  lemma CheckpointsReadBack(initial: State, low: nat, ids: IdSources, log: seq<Input>, actions: seq<P.Action<Input>>)
    requires RuntimeInv(initial) && SummariesNamed(initial.core) && low <= |log|
    ensures var e := RuntimeEngine(initial, low, ids); CheckpointReadBack(e, P.Run(e, P.Empty(log), actions))
  {
    hide RuntimeInv, P.Run, P.Exact, P.Apply, SummariesNamed, Represents, CheckpointSpec.Serialize, CheckpointSpec.Deserialize,
      StateFrom, Checkpointed, Encode;
    var e := RuntimeEngine(initial, low, ids);
    EmptyWorld(initial, low, ids, log);
    P.RecordsApplyOnce(e, P.Empty(log), actions);
    var w := P.Run(e, P.Empty(log), actions);
    if w.checkpoint.Some? {
      var s := w.checkpoint.value.state;
      var moves :| P.Exact(e, w.log, w.checkpoint.value.next, moves) && s == P.Apply(e, w.log, moves);
      HistoryNames(initial, low, ids, w.log, moves);
      Encodable(s, "", "", 0, 0);
      forall c | Represents(c, s) ensures RestoredFrom(e, s, CheckpointSpec.Serialize(c)) { SavedAndRestored(s, c); }
    }
  }
}
