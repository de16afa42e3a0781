/**
  The runtime under the checkpoint, commit and recovery protocol: an engine whose step is the runtime's, whose restore is
  that of a checkpoint, and whose scan at startup is automatic liquidation of every market.
 */
module DurableRuntime {
  import opened Types
  import opened BookSpec
  import opened CoreSpec
  import opened CoreLaws
  import opened RestoreLaws
  import opened LedgerSpec
  import opened RuntimeSpec
  import opened StoreLaws
  import opened LiquidationLaws
  import opened RuntimeLaws
  import opened RuntimeRuns
  import opened RuntimeSteps
  import opened RestartLaws
  import opened AscendingIds
  import opened Protocol
  import P = ProtocolRuns
  import opened Publications
  import opened Seamless

  /** Where the ids of automatic liquidations come from: the record that triggers them, or the startup scan. */
  datatype IdSources = IdSources(ofRecord: Record -> IdSource, ofStartup: IdSource)

  function StatusOf(o: Outcome): StepStatus<Output> {
    match o.status
    case Accepted => Done(o.outputs)
    case Duplicate(offset) => Repeated(offset)
    case Rejected => Refused
    case Failed => Threw
  }

  /** One record; states outside the invariant, which are never reached, count as throwing. */
  ghost function StepOf(ids: IdSources, st: State, offset: nat, i: Input): Processed<State, Output> {
    if !RuntimeInv(st) then Processed(st, Threw)
    else
      InvParts(st);
      var r := Record(offset, i);
      var o := RuntimeSpec.Process(st, r, ids.ofRecord(r));
      Processed(o.state, StatusOf(o))
  }

  ghost function ScanOf(ids: IdSources, st: State): P.Scanned<State, Output> {
    if !RuntimeInv(st) then P.Scanned(st, [])
    else
      InvCore(st);
      var r := StartupScan(st, ids.ofStartup);
      P.Scanned(r.state, r.outputs)
  }

  ghost function RuntimeEngine(initial: State, low: nat, ids: IdSources): P.Engine<State, Input, Output> {
    P.Engine((s, o, i) => StepOf(ids, s, o, i), initial, s => Some(Checkpointed(s)), s => ScanOf(ids, s), low)
  }

  // ---------- Likeness ----------

  lemma AlikeItself(a: State)
    ensures Alike(a, a)
  {
    hide Rests;
  }

  lemma AlikeTwice(a: State, b: State, c: State)
    requires Alike(a, b) && Alike(b, c)
    ensures Alike(a, c)
  {
    hide Rests, Forgetful;
    SameRests(a.core, b.core);
  }

  // ---------- The scan at startup ----------

  lemma {:induction false} MarketsAlike(a: State, b: State, markets: set<nat>, ids: IdSource)
    requires RuntimeInv(a) && RuntimeInv(b) && CoreInv(a.core) && CoreInv(b.core) && Alike(a, b)
    ensures var x, y := ScanMarkets(a, markets, ids), ScanMarkets(b, markets, ids);
            x.outputs == y.outputs && Alike(x.state, y.state)
    decreases |markets|
  {
    hide RuntimeInv, CoreInv, Alike, AutoLiquidate, Least, FairAttempts;
    if markets != {} {
      var m := Least(markets);
      AutoLaw(a, m, ids);
      AutoLaw(b, m, ids);
      AutoAlike(a, b, m, ids);
      MarketsAlike(AutoLiquidate(a, m, ids).state, AutoLiquidate(b, m, ids).state, markets - {m}, ids);
    }
  }

  lemma SameMarkets(a: State, b: State)
    requires Alike(a, b)
    ensures LiquidatableMarkets(a) == LiquidatableMarkets(b)
  {
    hide Agree, Forgetful, Rests;
  }

  lemma ScanAlikeStates(ids: IdSources, a: State, b: State)
    requires RuntimeInv(a) && RuntimeInv(b) && Alike(a, b)
    ensures var x, y := ScanOf(ids, a), ScanOf(ids, b); x.outputs == y.outputs && Alike(x.state, y.state)
  {
    hide RuntimeInv, CoreInv, Alike, ScanMarkets, LiquidatableMarkets;
    InvCore(a);
    InvCore(b);
    SameMarkets(a, b);
    MarketsAlike(a, b, LiquidatableMarkets(a), ids.ofStartup);
  }

  lemma ScanInGoodOrder(ids: IdSources, h: seq<Input>, st: State)
    requires InGoodOrder(h, st)
    ensures InGoodOrder(h, ScanOf(ids, st).state)
  {
    hide RuntimeInv, CoreInv, ScanMarkets, LiquidatableMarkets, CoreById, Composes, AcrossLiquidations, AcrossCancels, AcrossClerical,
      Highest, Mappable;
    InvCore(st);
    ByIdElsewhere(Highest(h));
    MarketsRelated(StaysById(Highest(h)), st, LiquidatableMarkets(st), ids.ofStartup);
    var st' := ScanOf(ids, st).state;
    forall i <- h ensures Spent(st', i) { SpentLater(st, st', i); }
  }

  /** The scan at startup finds nothing to do where no open position is marked liquidatable. */
  lemma CalmScan(ids: IdSources, st: State)
    requires LiquidatableMarkets(st) == {}
    ensures ScanOf(ids, st) == P.Scanned(st, [])
  {
    hide RuntimeInv, CoreInv, AutoLiquidate, LiquidatableMarkets;
    if RuntimeInv(st) { InvCore(st); }
  }

  // ---------- Restoring ----------

  lemma RestoredById(core: Core, last: nat)
    requires CoreInv(core) && CoreById(core, last)
    ensures CoreById(Restore(Snapshot(core)), last)
  {
    hide CoreInv, Restore, Snapshot, LevelsById, IdsUpTo;
    ByIdQueues(core, last);
    RestoreIff(core);
    var r := Forgetful(core);
    forall m <- r.books ensures BookById(r.books[m], last) { ForgetSides(core.books[m]); }
  }

  lemma RestoredInGoodOrder(h: seq<Input>, st: State)
    requires InGoodOrder(h, st)
    ensures Alike(Checkpointed(st), st) && InGoodOrder(h, Checkpointed(st))
  {
    hide RuntimeInv, CoreInv, CoreById, Restore, Snapshot, Alike, QueuesById, Highest, Mappable, Rests;
    InvCore(st);
    ByIdQueues(st.core, Highest(h));
    CheckpointKeeps(st);
    CheckpointAlike(st);
    RestoredById(st.core, Highest(h));
    forall i <- h ensures Spent(Checkpointed(st), i) { SpentLater(st, Checkpointed(st), i); }
  }

  // ---------- The runtime is seamless ----------

  ghost function Likely(): Likeness<State> {
    (a, b) => Alike(a, b)
  }

  ghost function Orderly(): Invariant<State, Input> {
    (h, s) => InGoodOrder(h, s)
  }

  ghost function Ascends(): Admission<Input> {
    (h, i) => Fresh(h, i)
  }

  lemma StepsAlikeHere(initial: State, low: nat, ids: IdSources, h: seq<Input>, i: Input, a: State, b: State)
    requires InGoodOrder(h, a) && InGoodOrder(h, b) && Alike(a, b) && Fresh(h, i)
    ensures StepsAlike(RuntimeEngine(initial, low, ids), Likely(), Orderly(), h, i, a, b)
  {
    hide RuntimeInv, CoreById, RuntimeSpec.Process, Alike, Fresh, Highest, Spent;
    var r := Record(low + |h|, i);
    ProcessAlike(a, b, r, ids.ofRecord(r));
    GoodStep(h, a, r, ids.ofRecord(r));
    GoodStep(h, b, r, ids.ofRecord(r));
  }

  /**
    The runtime is seamless over every log in which orders that may rest carry ascending ids, repeats aside: restored
    states are like the saved ones, and like states answer records and startup scans alike.
   */
  lemma RuntimeSeamless(initial: State, low: nat, ids: IdSources)
    requires InGoodOrder([], initial)
    ensures SeamlessFor(RuntimeEngine(initial, low, ids), Likely(), Orderly(), Ascends())
  {
    hide InGoodOrder, Alike, Fresh, StepsAlike, ScansAlike, RestoresAlike, RuntimeInv;
    var e := RuntimeEngine(initial, low, ids);
    forall a ensures Alike(a, a) { AlikeItself(a); }
    forall a, b, c | Alike(a, b) && Alike(b, c) ensures Alike(a, c) { AlikeTwice(a, b, c); }
    forall h, i, a, b | InGoodOrder(h, a) && InGoodOrder(h, b) && Alike(a, b) && Fresh(h, i)
      ensures StepsAlike(e, Likely(), Orderly(), h, i, a, b)
    {
      StepsAlikeHere(initial, low, ids, h, i, a, b);
    }
    forall h, a, b | InGoodOrder(h, a) && InGoodOrder(h, b) && Alike(a, b)
      ensures ScansAlike(e, Likely(), Orderly(), h, a, b)
    {
      ScansAlikeHere(initial, low, ids, h, a, b);
    }
    forall h, a | InGoodOrder(h, a) ensures RestoresAlike(e, Likely(), Orderly(), h, a) {
      RestoresAlikeHere(initial, low, ids, h, a);
    }
  }

  lemma ScansAlikeHere(initial: State, low: nat, ids: IdSources, h: seq<Input>, a: State, b: State)
    requires InGoodOrder(h, a) && InGoodOrder(h, b) && Alike(a, b)
    ensures ScansAlike(RuntimeEngine(initial, low, ids), Likely(), Orderly(), h, a, b)
  {
    hide RuntimeInv, CoreById, Alike, Highest, Spent, ScanOf;
    ScanAlikeStates(ids, a, b);
    ScanInGoodOrder(ids, h, a);
    ScanInGoodOrder(ids, h, b);
  }

  lemma RestoresAlikeHere(initial: State, low: nat, ids: IdSources, h: seq<Input>, a: State)
    requires InGoodOrder(h, a)
    ensures RestoresAlike(RuntimeEngine(initial, low, ids), Likely(), Orderly(), h, a)
  {
    hide InGoodOrder, Alike, Checkpointed;
    RestoredInGoodOrder(h, a);
  }

  /** A runtime with empty books, no positions and nothing processed starts in good order. */
  lemma FreshInGoodOrder(st: State)
    requires forall id <- st.core.books :: st.core.books[id] == EmptyBook(st.core.books[id].config)
                                           && st.core.books[id].config.symbolId == id
    requires st.metadata == map[] && st.positions == map[] && st.risks == map[] && st.rates == map[]
    ensures InGoodOrder([], st)
  {
    hide RuntimeInv;
    FreshRuntime(st);
  }

  // ---------- Whole runs of the durable runtime ----------

  /** Orders that may rest carry ascending ids in the log, repeats aside. */
  ghost predicate AscendingLog(low: nat, log: seq<Input>) {
    low <= |log| && forall i :: low <= i < |log| ==> Fresh(log[low..i], log[i])
  }

  /** In the uninterrupted run up to an offset, no open position is marked liquidatable between records. */
  ghost predicate Calm(e: P.Engine<State, Input, Output>, log: seq<Input>, next: nat) {
    forall i :: e.low <= i <= next && i <= |log| ==> LiquidatableMarkets(LiveState(e, log, i)) == {}
  }

  lemma CalmIsQuiet(initial: State, low: nat, ids: IdSources, log: seq<Input>, next: nat)
    requires Calm(RuntimeEngine(initial, low, ids), log, next)
    ensures ScansQuiet(RuntimeEngine(initial, low, ids), log, next)
  {
    hide LiquidatableMarkets, ScanOf, LiveState, Fold;
    var e := RuntimeEngine(initial, low, ids);
    forall i | e.low <= i <= next && i <= |log| ensures e.scan(LiveState(e, log, i)).state == LiveState(e, log, i) {
      CalmScan(ids, LiveState(e, log, i));
    }
  }

  lemma LogAdmitted(initial: State, low: nat, ids: IdSources, log: seq<Input>)
    requires AscendingLog(low, log)
    ensures Admitted(RuntimeEngine(initial, low, ids), Ascends(), log)
  {
    hide Fresh;
  }

  lemma EmptyWorld(initial: State, low: nat, ids: IdSources, log: seq<Input>)
    requires low <= |log|
    ensures var w := P.Empty<State, Input, Output>(log); P.WorldInv(RuntimeEngine(initial, low, ids), w) && Behind(w)
  {
  }

  lemma MoveKeeps(initial: State, low: nat, ids: IdSources, log: seq<Input>, s: State, m: P.Move)
    requires RuntimeInv(s)
    ensures RuntimeInv(P.Perform(RuntimeEngine(initial, low, ids), log, s, m))
  {
    hide RuntimeInv, CoreInv, RuntimeSpec.Process, Checkpointed, ScanMarkets, LiquidatableMarkets, Composes, AcrossLiquidations;
    InvCore(s);
    match m
    case Scan => ScanKeeps(s, LiquidatableMarkets(s), ids.ofStartup);
    case Restore => CheckpointKeeps(s);
    case Rec(o) =>
      if o < |log| {
        var r := Record(o, log[o]);
        ProcessLaw(s, r, ids.ofRecord(r));
      }
  }

  lemma ScanKeeps(st: State, markets: set<nat>, ids: IdSource)
    requires RuntimeInv(st) && CoreInv(st.core)
    ensures RuntimeInv(ScanMarkets(st, markets, ids).state)
  {
    hide RuntimeInv, CoreInv, ScanMarkets, Liquidate;
    MarketsRelated((a, b, x) => true, st, markets, ids);
  }

  lemma {:induction false} HistoryKeeps(initial: State, low: nat, ids: IdSources, log: seq<Input>, moves: seq<P.Move>)
    requires RuntimeInv(initial)
    ensures RuntimeInv(P.Apply(RuntimeEngine(initial, low, ids), log, moves))
  {
    hide RuntimeInv, RuntimeEngine, P.Perform;
    if moves == [] {
      InitialOf(initial, low, ids);
    } else {
      var front := moves[..|moves| - 1];
      HistoryKeeps(initial, low, ids, log, front);
      MoveKeeps(initial, low, ids, log, P.Apply(RuntimeEngine(initial, low, ids), log, front), moves[|moves| - 1]);
    }
  }

  lemma InitialOf(initial: State, low: nat, ids: IdSources)
    ensures RuntimeEngine(initial, low, ids).initial == initial && RuntimeEngine(initial, low, ids).low == low
  {
  }

  /**
    Over any run of the durable runtime, with failures, crashes and restarts anywhere and whatever the ids: the worker's and
    the checkpoint's states satisfy the runtime's invariant, so in each of them the positions of every market sum to zero.
   */
  lemma InvariantSurvives(initial: State, low: nat, ids: IdSources, log: seq<Input>, actions: seq<P.Action<Input>>)
    requires RuntimeInv(initial) && low <= |log|
    ensures var w := P.Run(RuntimeEngine(initial, low, ids), P.Empty(log), actions);
            && (w.worker.Some? ==> RuntimeInv(w.worker.value.state))
            && (w.checkpoint.Some? ==> RuntimeInv(w.checkpoint.value.state))
  {
    hide RuntimeInv, P.Run, P.Exact, P.Apply, RuntimeEngine;
    var e := RuntimeEngine(initial, low, ids);
    EmptyWorld(initial, low, ids, log);
    P.RecordsApplyOnce(e, P.Empty(log), actions);
    var w := P.Run(e, P.Empty(log), actions);
    if w.worker.Some? {
      var moves :| P.Exact(e, w.log, w.worker.value.next, moves) && w.worker.value.state == P.Apply(e, w.log, moves);
      HistoryKeeps(initial, low, ids, w.log, moves);
    }
    if w.checkpoint.Some? {
      var moves :| P.Exact(e, w.log, w.checkpoint.value.next, moves) && w.checkpoint.value.state == P.Apply(e, w.log, moves);
      HistoryKeeps(initial, low, ids, w.log, moves);
    }
  }

  /** A history of records and startup scans without any restore, as if the process had never been restarted. */
  ghost predicate AsIfNeverRestored(e: P.Engine<State, Input, Output>, log: seq<Input>, next: nat, s: State) {
    exists moves :: P.Exact(e, log, next, moves) && P.Restore !in moves && Alike(s, P.Apply(e, log, moves))
  }

  lemma LineageUnrestored(initial: State, low: nat, ids: IdSources, log: seq<Input>, next: nat, s: State)
    requires InGoodOrder([], initial) && AscendingLog(low, log) && P.Lineage(RuntimeEngine(initial, low, ids), log, next, s)
    ensures AsIfNeverRestored(RuntimeEngine(initial, low, ids), log, next, s) && RuntimeInv(s)
  {
    hide InGoodOrder, SeamlessFor, P.Legal, P.Offsets, P.Apply, AscendingLog, Admitted, Seamless.Before, Alike;
    var e := RuntimeEngine(initial, low, ids);
    var moves :| P.Exact(e, log, next, moves) && s == P.Apply(e, log, moves);
    RuntimeSeamless(initial, low, ids);
    LogAdmitted(initial, low, ids, log);
    RestoresUnseen(e, Likely(), Orderly(), Ascends(), log, next, moves);
    NoRestores(moves);
    OrderlyInv(Seamless.Before(e, log, next), s);
  }

  lemma OrderlyInv(h: seq<Input>, s: State)
    requires InGoodOrder(h, s)
    ensures RuntimeInv(s)
  {
    hide RuntimeInv, CoreById;
  }

  lemma {:induction false} NoRestores(moves: seq<P.Move>)
    ensures P.Restore !in Unrestored(moves)
  {
    if moves != [] { NoRestores(moves[..|moves| - 1]); }
  }

  /**
    Over any run of the durable runtime, with failures, crashes and restarts anywhere: the worker and the checkpoint are in
    states, satisfying the runtime's invariant, that nothing tells apart from those of a process that was never restored.
   */
  lemma RestartsUnseen(initial: State, low: nat, ids: IdSources, log: seq<Input>, actions: seq<P.Action<Input>>)
    requires InGoodOrder([], initial) && low <= |log|
    requires AscendingLog(low, P.Run(RuntimeEngine(initial, low, ids), P.Empty(log), actions).log)
    ensures var e := RuntimeEngine(initial, low, ids);
            var w := P.Run(e, P.Empty(log), actions);
            && (w.worker.Some? ==> AsIfNeverRestored(e, w.log, w.worker.value.next, w.worker.value.state)
                                   && RuntimeInv(w.worker.value.state))
            && (w.checkpoint.Some? ==> AsIfNeverRestored(e, w.log, w.checkpoint.value.next, w.checkpoint.value.state)
                                       && RuntimeInv(w.checkpoint.value.state))
  {
    hide InGoodOrder, AscendingLog, P.Lineage, AsIfNeverRestored, RuntimeInv, P.Run;
    var e := RuntimeEngine(initial, low, ids);
    EmptyWorld(initial, low, ids, log);
    P.RecordsApplyOnce(e, P.Empty(log), actions);
    var w := P.Run(e, P.Empty(log), actions);
    if w.worker.Some? { LineageUnrestored(initial, low, ids, w.log, w.worker.value.next, w.worker.value.state); }
    if w.checkpoint.Some? {
      LineageUnrestored(initial, low, ids, w.log, w.checkpoint.value.next, w.checkpoint.value.state);
    }
  }

  /**
    Over any run of the durable runtime on a calm log, with failures, crashes and restarts anywhere: the worker and the
    checkpoint are in states like those of one uninterrupted live run.
   */
  lemma CalmRunUnbroken(initial: State, low: nat, ids: IdSources, log: seq<Input>, actions: seq<P.Action<Input>>)
    requires InGoodOrder([], initial) && low <= |log|
    requires AscendingLog(low, P.Run(RuntimeEngine(initial, low, ids), P.Empty(log), actions).log)
    ensures var e := RuntimeEngine(initial, low, ids);
            var w := P.Run(e, P.Empty(log), actions);
            && (w.worker.Some? && Calm(e, w.log, w.worker.value.next) ==>
                  Unbroken(e, Likely(), w.log, w.worker.value.next, w.worker.value.state))
            && (w.checkpoint.Some? && Calm(e, w.log, w.checkpoint.value.next) ==>
                  Unbroken(e, Likely(), w.log, w.checkpoint.value.next, w.checkpoint.value.state))
  {
    hide InGoodOrder, AscendingLog, SeamlessFor, P.WorldInv, Calm, ScansQuiet, Unbroken, Admitted, P.Run;
    var e := RuntimeEngine(initial, low, ids);
    var w := P.Run(e, P.Empty(log), actions);
    EmptyWorld(initial, low, ids, log);
    RuntimeSeamless(initial, low, ids);
    LogAdmitted(initial, low, ids, w.log);
    RunUnbroken(e, Likely(), Orderly(), Ascends(), P.Empty(log), actions);
    if w.worker.Some? && Calm(e, w.log, w.worker.value.next) { CalmIsQuiet(initial, low, ids, w.log, w.worker.value.next); }
    if w.checkpoint.Some? && Calm(e, w.log, w.checkpoint.value.next) {
      CalmIsQuiet(initial, low, ids, w.log, w.checkpoint.value.next);
    }
  }

  /**
    Over any run of the durable runtime on a calm log: what is published for a record is some of the outputs that one
    uninterrupted live run gives for it, and all of them exactly when there are none or when a worker consumed it live and
    every publication succeeded.
   */
  lemma CalmRunDelivers(initial: State, low: nat, ids: IdSources, log: seq<Input>, actions: seq<P.Action<Input>>, offset: nat)
    requires InGoodOrder([], initial) && low <= |log|
    requires var w := P.Run(RuntimeEngine(initial, low, ids), P.Empty(log), actions);
             AscendingLog(low, w.log) && low <= offset < |w.log| && Calm(RuntimeEngine(initial, low, ids), w.log, offset)
    ensures var e := RuntimeEngine(initial, low, ids);
            var w := P.Run(e, P.Empty(log), actions);
            var outputs, published := LiveOutputs(e, w.log, offset), Productions(w.effects, offset);
            && Among(published, offset, outputs)
            && (published == P.AllProduced(offset, outputs) <==> outputs == [] || FullyPublished(e, P.Empty(log), actions, offset))
  {
    hide InGoodOrder, AscendingLog, SeamlessFor, P.WorldInv, Behind, Calm, ScansQuiet, Admitted, P.Run, Productions, LiveState, Fold,
      FullyPublished, Among;
    var e := RuntimeEngine(initial, low, ids);
    var w := P.Run(e, P.Empty(log), actions);
    EmptyWorld(initial, low, ids, log);
    RuntimeSeamless(initial, low, ids);
    LogAdmitted(initial, low, ids, w.log);
    CalmIsQuiet(initial, low, ids, w.log, offset);
    DeliveredIff(e, Likely(), Orderly(), Ascends(), P.Empty(log), actions, offset);
  }

  // ---------- A run that loses outputs ----------

  /** A mark price that reaches a runtime without positions is announced, and liquidates nobody. */
  lemma MarkAnnounced(ids: IdSources, st: State, offset: nat, m: nat, mark: int)
    requires RuntimeInv(st) && st.positions == map[] && st.risks == map[]
    ensures StepOf(ids, st, offset, MarkInput(None, m, mark))
            == Processed(st.(marks := st.marks[m := mark]), Done([MarkUpdated(m, mark)]))
  {
    hide RuntimeInv, CoreInv;
    InvParts(st);
    var marked := st.(marks := st.marks[m := mark], risks := Remark(st, m, mark));
    assert Remark(st, m, mark) == map[];
    assert AutoKeys(marked, m, Attempted([])) == {};
    NobodyTried(marked, m, ids.ofRecord(Record(offset, MarkInput(None, m, mark))));
    assert [MarkUpdated(m, mark)] + [] == [MarkUpdated(m, mark)];
  }

  lemma NobodyTried(st: State, m: nat, ids: IdSource)
    requires CoreInv(st.core) && AutoKeys(st, m, Attempted([])) == {}
    ensures AutoLiquidate(st, m, ids) == AutoResult(st, [], [])
  {
    hide CoreInv, AutoKeys;
  }

  /**
    For instance: a mark price arrives, its publication fails, the worker is restarted.  The next worker has the mark, and
    its announcement is never published, whatever happens later.
   */
  lemma MarkLost(initial: State, low: nat, ids: IdSources, log: seq<Input>, m: nat, mark: int, later: seq<P.Action<Input>>)
    requires RuntimeInv(initial) && initial.positions == map[] && initial.risks == map[] && |log| == low
    ensures var e := RuntimeEngine(initial, low, ids);
            var w := P.Run(e, P.Empty(log), LosingRun(low, MarkInput(None, m, mark)));
            && w.worker == Some(P.Worker(initial.(marks := initial.marks[m := mark]), low + 1, []))
            && Productions(P.Run(e, w, later).effects, low) == []
  {
    hide RuntimeInv, P.Run, Productions, StepOf, ScanOf;
    MarkAnnounced(ids, initial, low, m, mark);
    NobodyLiquidatable(initial);
    NobodyLiquidatable(initial.(marks := initial.marks[m := mark]));
    CalmScan(ids, initial);
    CalmScan(ids, initial.(marks := initial.marks[m := mark]));
    LosesOutputs(RuntimeEngine(initial, low, ids), log, MarkInput(None, m, mark), later);
  }

  lemma NobodyLiquidatable(st: State)
    requires st.risks == map[]
    ensures LiquidatableMarkets(st) == {}
  {
  }
}
