/**
  When restarts cannot be seen.  An engine is seamless, over logs it admits, if a restored state is like the saved one and
  like states behave alike; only states that satisfy an invariant of the history so far have to.
 */
module Seamless {
  import opened Protocol
  import opened ProtocolRuns
  import opened Publications

  type Likeness<!S> = (S, S) -> bool

  /** An invariant of a state, given the records applied to it so far. */
  type Invariant<!S, !R> = (seq<R>, S) -> bool

  /** Whether a record may follow the records before it. */
  type Admission<!R> = (seq<R>, R) -> bool

  ghost predicate Reflects<S(!new)>(alike: Likeness<S>) {
    && (forall s :: alike(s, s))
    && (forall s, t, u :: alike(s, t) && alike(t, u) ==> alike(s, u))
  }

  /** Alike states in good order take the record alike, and stay in good order. */
  ghost predicate StepsAlike<S, R, O>(e: Engine<S, R, O>, alike: Likeness<S>, good: Invariant<S, R>, h: seq<R>, r: R, s: S, t: S) {
    var p, q := e.step(s, e.low + |h|, r), e.step(t, e.low + |h|, r);
    p.status == q.status && alike(p.state, q.state) && (!p.status.Threw? ==> good(h + [r], p.state) && good(h + [r], q.state))
  }

  ghost predicate ScansAlike<S, R, O>(e: Engine<S, R, O>, alike: Likeness<S>, good: Invariant<S, R>, h: seq<R>, s: S, t: S) {
    alike(e.scan(s).state, e.scan(t).state) && good(h, e.scan(s).state) && good(h, e.scan(t).state)
  }

  ghost predicate RestoresAlike<S, R, O>(e: Engine<S, R, O>, alike: Likeness<S>, good: Invariant<S, R>, h: seq<R>, s: S) {
    e.restore(s).Some? ==> alike(e.restore(s).value, s) && good(h, e.restore(s).value)
  }

  ghost predicate SeamlessFor<S(!new), R(!new), O>(e: Engine<S, R, O>, alike: Likeness<S>, good: Invariant<S, R>,
                                                   admits: Admission<R>)
  {
    && Reflects(alike)
    && good([], e.initial)
    && (forall h, r, s, t :: good(h, s) && good(h, t) && alike(s, t) && admits(h, r) ==> StepsAlike(e, alike, good, h, r, s, t))
    && (forall h, s, t :: good(h, s) && good(h, t) && alike(s, t) ==> ScansAlike(e, alike, good, h, s, t))
    && (forall h, s :: good(h, s) ==> RestoresAlike(e, alike, good, h, s))
  }

  /** The records from the low offset up to an offset. */
  function Before<S, R, O>(e: Engine<S, R, O>, log: seq<R>, next: nat): seq<R>
    requires e.low <= next <= |log|
  {
    log[e.low..next]
  }

  ghost predicate Admitted<S, R, O>(e: Engine<S, R, O>, admits: Admission<R>, log: seq<R>) {
    e.low <= |log| && forall i :: e.low <= i < |log| ==> admits(Before(e, log, i), log[i])
  }

  /** The moves without the restores. */
  function Unrestored(moves: seq<Move>): seq<Move> {
    if moves == [] then []
    else
      var last := moves[|moves| - 1];
      Unrestored(moves[..|moves| - 1]) + if last.Restore? then [] else [last]
  }

  /** Two states in good order, alike. */
  ghost predicate Twins<S, R, O>(e: Engine<S, R, O>, alike: Likeness<S>, good: Invariant<S, R>, h: seq<R>, s: S, t: S) {
    good(h, s) && good(h, t) && alike(s, t)
  }

  lemma TwinsStep<S(!new), R(!new), O>(e: Engine<S, R, O>, alike: Likeness<S>, good: Invariant<S, R>, admits: Admission<R>,
                                       log: seq<R>, next: nat, s: S, t: S)
    requires SeamlessFor(e, alike, good, admits) && Admitted(e, admits, log) && e.low <= next < |log|
    requires Twins(e, alike, good, Before(e, log, next), s, t)
    ensures var p, q := e.step(s, next, log[next]), e.step(t, next, log[next]);
            p.status == q.status && (!p.status.Threw? ==> Twins(e, alike, good, Before(e, log, next + 1), p.state, q.state))
  {
    var h := Before(e, log, next);
    assert StepsAlike(e, alike, good, h, log[next], s, t);
    assert h + [log[next]] == Before(e, log, next + 1);
  }

  lemma TwinsScan<S(!new), R(!new), O>(e: Engine<S, R, O>, alike: Likeness<S>, good: Invariant<S, R>, admits: Admission<R>,
                                       h: seq<R>, s: S, t: S)
    requires SeamlessFor(e, alike, good, admits) && Twins(e, alike, good, h, s, t)
    ensures Twins(e, alike, good, h, e.scan(s).state, e.scan(t).state)
  {
    assert ScansAlike(e, alike, good, h, s, t);
  }

  lemma TwinsRestore<S(!new), R(!new), O>(e: Engine<S, R, O>, alike: Likeness<S>, good: Invariant<S, R>, admits: Admission<R>,
                                          h: seq<R>, s: S, t: S)
    requires SeamlessFor(e, alike, good, admits) && Twins(e, alike, good, h, s, t) && e.restore(s).Some?
    ensures Twins(e, alike, good, h, e.restore(s).value, t)
  {
    assert RestoresAlike(e, alike, good, h, s);
  }

  lemma TwinsFresh<S(!new), R(!new), O>(e: Engine<S, R, O>, alike: Likeness<S>, good: Invariant<S, R>, admits: Admission<R>)
    requires SeamlessFor(e, alike, good, admits)
    ensures Twins(e, alike, good, [], e.initial, e.initial)
  {
  }

  /** The start of an exact history and its last move. */
  lemma Peeled<S, R, O>(e: Engine<S, R, O>, log: seq<R>, next: nat, front: seq<Move>, last: Move)
    requires Exact(e, log, next, front + [last])
    ensures Possible(e, log, Apply(e, log, front), last)
    ensures Apply(e, log, front + [last]) == Perform(e, log, Apply(e, log, front), last)
    ensures if last.Rec? then e.low < next && last.offset == next - 1 && Exact(e, log, next - 1, front)
            else Exact(e, log, next, front)
  {
    hide Legal, Apply, Possible, Perform;
    AppendMove(e, log, front, last);
    if last.Rec? { LastRecord(e, log, next, front, last); }
  }

  /**
    Restores cannot be seen: the state of any exact history is like the one with the restores left out, which applies the
    same records and scans.
   */
  lemma {:induction false} RestoresUnseen<S(!new), R(!new), O>(e: Engine<S, R, O>, alike: Likeness<S>, good: Invariant<S, R>,
                                                             admits: Admission<R>, log: seq<R>, next: nat, moves: seq<Move>)
    requires SeamlessFor(e, alike, good, admits) && Admitted(e, admits, log) && Exact(e, log, next, moves)
    ensures Exact(e, log, next, Unrestored(moves))
    ensures Twins(e, alike, good, Before(e, log, next), Apply(e, log, moves), Apply(e, log, Unrestored(moves)))
    decreases |moves|
  {
    hide SeamlessFor, Twins, Legal, Offsets, Admitted;
    if moves == [] {
      NoMoves(e, log, next);
      TwinsFresh(e, alike, good, admits);
    } else {
      var front, last := moves[..|moves| - 1], moves[|moves| - 1];
      assert moves == front + [last];
      Peeled(e, log, next, front, last);
      var before := if last.Rec? then next - 1 else next;
      RestoresUnseen(e, alike, good, admits, log, before, front);
      var s, rest := Apply(e, log, front), Unrestored(front);
      var t := Apply(e, log, rest);
      AppendMove(e, log, rest, last);
      match last
      case Scan => TwinsScan(e, alike, good, admits, Before(e, log, next), s, t);
      case Restore =>
        assert rest + [] == rest;
        TwinsRestore(e, alike, good, admits, Before(e, log, next), s, t);
      case Rec(_) =>
        TwinsStep(e, alike, good, admits, log, before, s, t);
        RangeNext(e.low, before);
    }
  }

  lemma NoMoves<S, R, O>(e: Engine<S, R, O>, log: seq<R>, next: nat)
    requires Exact(e, log, next, [])
    ensures next == e.low && Before(e, log, next) == [] && Apply(e, log, []) == e.initial
  {
    assert |Range(e.low, next)| == next - e.low;
  }

  lemma RangeNext(from: nat, end: nat)
    requires from <= end
    ensures Range(from, end + 1) == Range(from, end) + [end]
  {
  }

  /** The state of one uninterrupted live run, without restarts or scans. */
  function LiveState<S, R, O>(e: Engine<S, R, O>, log: seq<R>, next: nat): S
    requires e.low <= next <= |log|
  {
    Fold(e.step, e.initial, log, e.low, next)
  }

  lemma LiveStart<S, R, O>(e: Engine<S, R, O>, log: seq<R>)
    requires e.low <= |log|
    ensures LiveState(e, log, e.low) == e.initial
  {
  }

  /** At no moment of the uninterrupted run, up to an offset, would a startup scan change anything. */
  ghost predicate ScansQuiet<S, R, O>(e: Engine<S, R, O>, log: seq<R>, next: nat) {
    forall i :: e.low <= i <= next && i <= |log| ==> e.scan(LiveState(e, log, i)).state == LiveState(e, log, i)
  }

  /** Where scans find nothing to do, the state of any exact history is like that of one uninterrupted live run. */
  lemma {:induction false} Uninterrupted<S(!new), R(!new), O>(e: Engine<S, R, O>, alike: Likeness<S>, good: Invariant<S, R>,
                                                            admits: Admission<R>, log: seq<R>, next: nat, moves: seq<Move>)
    requires SeamlessFor(e, alike, good, admits) && Admitted(e, admits, log) && Exact(e, log, next, moves)
    requires ScansQuiet(e, log, next)
    ensures Twins(e, alike, good, Before(e, log, next), Apply(e, log, moves), LiveState(e, log, next))
    decreases |moves|
  {
    hide SeamlessFor, Twins, Legal, Offsets, Admitted, Fold;
    if moves == [] {
      NoMoves(e, log, next);
      TwinsFresh(e, alike, good, admits);
      LiveStart(e, log);
    } else {
      var front, last := moves[..|moves| - 1], moves[|moves| - 1];
      assert moves == front + [last];
      Peeled(e, log, next, front, last);
      var before := if last.Rec? then next - 1 else next;
      Uninterrupted(e, alike, good, admits, log, before, front);
      var s, t := Apply(e, log, front), LiveState(e, log, before);
      match last
      case Scan => TwinsScan(e, alike, good, admits, Before(e, log, next), s, t);
      case Restore => TwinsRestore(e, alike, good, admits, Before(e, log, next), s, t);
      case Rec(_) =>
        TwinsStep(e, alike, good, admits, log, before, s, t);
        FoldNext(e.step, e.initial, log, e.low, before);
    }
  }

  // ---------- Whole runs ----------

  /** The state is like that of the uninterrupted live run up to the same offset. */
  ghost predicate Unbroken<S, R, O>(e: Engine<S, R, O>, alike: Likeness<S>, log: seq<R>, next: nat, s: S) {
    e.low <= next <= |log| && alike(s, LiveState(e, log, next))
  }

  lemma LineageUnbroken<S(!new), R(!new), O>(e: Engine<S, R, O>, alike: Likeness<S>, good: Invariant<S, R>, admits: Admission<R>,
                                             log: seq<R>, next: nat, s: S)
    requires SeamlessFor(e, alike, good, admits) && Admitted(e, admits, log) && Lineage(e, log, next, s)
    requires e.low <= next <= |log| && ScansQuiet(e, log, next)
    ensures Unbroken(e, alike, log, next, s)
    ensures next < |log| ==> e.step(s, next, log[next]).status == e.step(LiveState(e, log, next), next, log[next]).status
  {
    hide SeamlessFor, Exact, Admitted, ScansQuiet, Fold, Apply;
    var moves :| Exact(e, log, next, moves) && s == Apply(e, log, moves);
    Uninterrupted(e, alike, good, admits, log, next, moves);
    if next < |log| { TwinsStep(e, alike, good, admits, log, next, s, LiveState(e, log, next)); }
  }

  /**
    Over any run with failures and crashes anywhere, the worker and the checkpoint are in states like those of one
    uninterrupted live run, if startup scans would find nothing to do there.
   */
  lemma RunUnbroken<S(!new), R(!new), O>(e: Engine<S, R, O>, alike: Likeness<S>, good: Invariant<S, R>, admits: Admission<R>,
                                         w: World<S, R, O>, actions: seq<Action<R>>)
    requires SeamlessFor(e, alike, good, admits) && WorldInv(e, w) && Admitted(e, admits, Run(e, w, actions).log)
    ensures var r := Run(e, w, actions);
            && (r.worker.Some? && ScansQuiet(e, r.log, r.worker.value.next) ==>
                  Unbroken(e, alike, r.log, r.worker.value.next, r.worker.value.state))
            && (r.checkpoint.Some? && ScansQuiet(e, r.log, r.checkpoint.value.next) ==>
                  Unbroken(e, alike, r.log, r.checkpoint.value.next, r.checkpoint.value.state))
  {
    hide SeamlessFor, Admitted, Run, Fold, Unbroken;
    RecordsApplyOnce(e, w, actions);
    var r := Run(e, w, actions);
    if r.worker.Some? && ScansQuiet(e, r.log, r.worker.value.next) {
      LineageUnbroken(e, alike, good, admits, r.log, r.worker.value.next, r.worker.value.state);
    }
    if r.checkpoint.Some? && ScansQuiet(e, r.log, r.checkpoint.value.next) {
      LineageUnbroken(e, alike, good, admits, r.log, r.checkpoint.value.next, r.checkpoint.value.state);
    }
  }

  /** Records stay where they are in the log, and histories stay exact, however a run goes on. */
  lemma {:induction false} RunKeepsLog<S, R, O>(e: Engine<S, R, O>, w: World<S, R, O>, actions: seq<Action<R>>, next: nat, s: S)
    requires Lineage(e, w.log, next, s)
    ensures var log := Run(e, w, actions).log; |w.log| <= |log| && log[..|w.log|] == w.log && Lineage(e, log, next, s)
    decreases |actions|
  {
    hide Lineage, GapFree, Recover, Consume, GoLive;
    if actions != [] {
      var w' := Next(e, w, actions[0]);
      match actions[0]
      case Append(record) =>
        LineageLonger(e, w.log, record, next, s);
        RunKeepsLog(e, w', actions[1..], next, s);
      case Start(x) =>
        GoLiveLog(e, w, RecoveryOf(e, w, x), x.weather);
        RunKeepsLog(e, w', actions[1..], next, s);
      case _ => RunKeepsLog(e, w', actions[1..], next, s);
    }
  }

  /** A live consumption processes its record in a state with an exact history. */
  ghost predicate Faithful<S, R, O>(e: Engine<S, R, O>, log: seq<R>, live: Live<S, O>) {
    && e.low <= live.offset < |log| && Lineage(e, log, live.offset, live.state)
    && live.outputs == OutputsOf(e.step(live.state, live.offset, log[live.offset]).status)
  }

  lemma {:induction false} LivesFaithful<S, R, O>(e: Engine<S, R, O>, w: World<S, R, O>, actions: seq<Action<R>>)
    requires WorldInv(e, w)
    ensures forall live <- Lives(e, w, actions) :: Faithful(e, Run(e, w, actions).log, live)
    decreases |actions|
  {
    hide WorldInv, Next, Faithful, LiveIn;
    if actions != [] {
      var w', log := Next(e, w, actions[0]), Run(e, w, actions).log;
      StepInv(e, w, actions[0]);
      LivesFaithful(e, w', actions[1..]);
      forall live <- LiveIn(e, w, actions[0]) ensures Faithful(e, log, live) { FirstFaithful(e, w, actions, live); }
    }
  }

  lemma FirstFaithful<S, R, O>(e: Engine<S, R, O>, w: World<S, R, O>, actions: seq<Action<R>>, live: Live<S, O>)
    requires WorldInv(e, w) && actions != [] && live in LiveIn(e, w, actions[0])
    ensures Faithful(e, Run(e, w, actions).log, live)
  {
    hide Run, Legal, Offsets;
    var k := w.worker.value;
    RunKeepsLog(e, w, actions, k.next, k.state);
    var log := Run(e, w, actions).log;
    assert log[..|w.log|][k.next] == w.log[k.next];
  }

  /** What an uninterrupted live run gives for a record. */
  function LiveOutputs<S, R, O>(e: Engine<S, R, O>, log: seq<R>, offset: nat): seq<O>
    requires e.low <= offset < |log|
  {
    OutputsOf(e.step(LiveState(e, log, offset), offset, log[offset]).status)
  }

  /** The publications of some of the outputs, in order. */
  ghost predicate Among<S, O>(published: seq<Effect<S, O>>, offset: nat, outputs: seq<O>) {
    exists publish: nat -> bool :: published == Published(offset, outputs, publish, 0)
  }

  lemma AmongBy<S, O>(published: seq<Effect<S, O>>, offset: nat, outputs: seq<O>, publish: nat -> bool)
    requires published == Published(offset, outputs, publish, 0)
    ensures Among(published, offset, outputs)
  {
    hide Published;
  }

  /** Some worker of the run consumed the record live, and every publication succeeded. */
  ghost predicate FullyPublished<S, R, O>(e: Engine<S, R, O>, w: World<S, R, O>, actions: seq<Action<R>>, offset: nat) {
    exists live <- Lives(e, w, actions) :: live.offset == offset && AllPublished(|live.outputs|, live.publish)
  }

  /**
    Over any run with failures and crashes anywhere: what is published for a record is, in order, some of the outputs that
    an uninterrupted live run gives for it; it is all of them exactly when a worker consumed the record live and every
    publication succeeded, or there are none.
   */
  lemma DeliveredIff<S(!new), R(!new), O>(e: Engine<S, R, O>, alike: Likeness<S>, good: Invariant<S, R>, admits: Admission<R>,
                                          w: World<S, R, O>, actions: seq<Action<R>>, offset: nat)
    requires SeamlessFor(e, alike, good, admits) && WorldInv(e, w) && Behind(w) && w.effects == []
    requires Admitted(e, admits, Run(e, w, actions).log) && e.low <= offset < |Run(e, w, actions).log|
    requires ScansQuiet(e, Run(e, w, actions).log, offset)
    ensures var outputs := LiveOutputs(e, Run(e, w, actions).log, offset);
            var published := Productions(Run(e, w, actions).effects, offset);
            && Among(published, offset, outputs)
            && (published == AllProduced(offset, outputs) <==> outputs == [] || FullyPublished(e, w, actions, offset))
  {
    hide SeamlessFor, WorldInv, Admitted, ScansQuiet, Run, Productions, Lives, Fold, Behind, Published, AllPublished,
      Among, Conditions;
    var r, lives := Run(e, w, actions), Lives(e, w, actions);
    NoProductions(w.effects, offset);
    LivesFaithful(e, w, actions);
    if exists k :: 0 <= k < |lives| && lives[k].offset == offset {
      var k :| 0 <= k < |lives| && lives[k].offset == offset;
      assert lives[k] in lives;
      LineageUnbroken(e, alike, good, admits, r.log, offset, lives[k].state);
      PublishedIff(e, w, actions, k);
      OnlyLive(e, w, actions, k);
      AmongBy(Productions(r.effects, offset), offset, lives[k].outputs, lives[k].publish);
      if lives[k].outputs == [] { PublishedNone<S, O>(offset, lives[k].publish); }
    } else {
      NeverLive(e, w, actions, offset);
      NothingPublished<S, O>(offset, LiveOutputs(e, r.log, offset), 0);
      AmongBy(Productions(r.effects, offset), offset, LiveOutputs(e, r.log, offset), Conditions(false).publish);
    }
  }

  lemma PublishedNone<S, O>(offset: nat, publish: nat -> bool)
    ensures Published<S, O>(offset, [], publish, 0) == [] && AllPublished(0, publish)
  {
  }

  lemma OnlyLive<S, R, O>(e: Engine<S, R, O>, w: World<S, R, O>, actions: seq<Action<R>>, k: nat)
    requires Behind(w) && k < |Lives(e, w, actions)|
    ensures forall live <- Lives(e, w, actions) :: live.offset == Lives(e, w, actions)[k].offset ==> live == Lives(e, w, actions)[k]
  {
    hide Behind, Lives, Frontier;
    LiveOnce(e, w, actions);
    var lives := Lives(e, w, actions);
    forall live <- lives | live.offset == lives[k].offset ensures live == lives[k] {
      var j :| 0 <= j < |lives| && lives[j] == live;
    }
  }
}
