/**
  Workers that start, recover, consume, fail and crash, over any run: what was committed, and what state the surviving
  checkpoint and worker are in.
 */
module ProtocolRuns {
  import opened Types
  import opened Protocol

  datatype Scanned<S, O> = Scanned(state: S, outputs: seq<O>)

  /** An engine: its step, its fresh state, how a saved state is restored, and its scan at startup. */
  datatype Engine<!S, !R, !O> = Engine(
    step: Stepper<S, R, O>, initial: S, restore: S -> Option<S>, scan: S -> Scanned<S, O>, low: nat)

  datatype Checkpoint<S> = Checkpoint(next: nat, state: S)

  datatype Worker<S> = Worker(state: S, next: nat, committed: seq<nat>)

  /** The log from its first offset, the latest checkpoint, all effects so far, and the worker if one is running. */
  datatype World<S, R, O> = World(
    log: seq<R>, checkpoint: Option<Checkpoint<S>>, effects: seq<Effect<S, O>>, worker: Option<Worker<S>>)

  /** Outside conditions at a start: what can be loaded, reached and polled, and how the startup scan's steps go. */
  datatype Startup<R> = Startup(loads: bool, watermark: bool, seek: bool, polls: seq<Poll<R>>, weather: Weather)

  datatype Action<R> = Append(record: R) | Start(startup: Startup<R>) | Poll(admitted: bool, weather: Weather) | Crash

  function LoadOf<S>(checkpoint: Option<Checkpoint<S>>, loads: bool): Load<S> {
    if !loads then LoadError
    else if checkpoint.None? then Nothing
    else Loaded(true, checkpoint.value.next, checkpoint.value.state)
  }

  function StartAt<S>(low: nat, checkpoint: Option<Checkpoint<S>>): nat {
    if checkpoint.Some? then checkpoint.value.next else low
  }

  /** The recovery that a start attempts. */
  function RecoveryOf<S, R, O>(e: Engine<S, R, O>, w: World<S, R, O>, s: Startup<R>): Recovered<S> {
    Recover(e.step, e.initial, LoadOf(w.checkpoint, s.loads), if s.watermark then Some(Watermark(e.low, |w.log|)) else None,
            e.restore, s.seek, s.polls)
  }

  /** After recovery: scan for automatic liquidations, publish and checkpoint what it did, then go live. */
  function GoLive<S, R, O>(e: Engine<S, R, O>, w: World<S, R, O>, r: Recovered<S>, weather: Weather): World<S, R, O> {
    var scanned := e.scan(r.state);
    var ready := Some(Worker(scanned.state, r.next, []));
    if scanned.outputs == [] then w.(worker := ready)
    else
      var announced := w.(effects := w.effects + Announcements(scanned.outputs, weather.publish, 0), worker := None);
      if !AllPublished(|scanned.outputs|, weather.publish) || !weather.save then announced
      else announced.(effects := announced.effects + [Saved(r.next, scanned.state)],
                      checkpoint := Some(Checkpoint(r.next, scanned.state)), worker := ready)
  }

  function Announcements<S, O>(outputs: seq<O>, publish: nat -> bool, i: nat): seq<Effect<S, O>>
    decreases |outputs| - i
  {
    if i >= |outputs| then []
    else (if publish(i) then [Announced(outputs[i])] else []) + Announcements(outputs, publish, i + 1)
  }

  /** One step of the world.  The consumer is taken to hand out the log without gaps. */
  ghost function Next<S, R, O>(e: Engine<S, R, O>, w: World<S, R, O>, a: Action<R>): World<S, R, O> {
    match a
    case Append(record) => w.(log := w.log + [record])
    case Crash => w.(worker := None)
    case Start(s) =>
      if w.worker.Some? || !GapFree(s.polls, w.log, StartAt(e.low, w.checkpoint)) then w
      else
        var r := RecoveryOf(e, w, s);
        if !Fit(r.status) || !r.caughtUp then w else GoLive(e, w, r, s.weather)
    case Poll(admitted, weather) =>
      if w.worker.None? || w.worker.value.next >= |w.log| then w
      else
        var k := w.worker.value;
        var c := Consume(e.step, k.state, k.committed, k.next, w.log[k.next], admitted, weather);
        World(w.log,
              if c.status == ProcessedOk || c.status == CommitFailed then Some(Checkpoint(k.next + 1, c.state))
              else w.checkpoint,
              w.effects + c.effects,
              if c.status == ProcessedOk then Some(Worker(c.state, k.next + 1, c.committed)) else None)
  }

  ghost function Run<S, R, O>(e: Engine<S, R, O>, w: World<S, R, O>, actions: seq<Action<R>>): World<S, R, O>
    decreases |actions|
  {
    if actions == [] then w else Run(e, Next(e, w, actions[0]), actions[1..])
  }

  function Empty<S, R, O>(log: seq<R>): World<S, R, O> {
    World(log, None, [], None)
  }

  // ---------- Commit comes last ----------

  /** The publication of all of a record's outputs. */
  function AllProduced<S, O>(offset: nat, outputs: seq<O>): seq<Effect<S, O>> {
    seq(|outputs|, i requires 0 <= i < |outputs| => Produced(offset, outputs[i]))
  }

  /** The effects end with: all outputs of the record published, the checkpoint after it saved, its offset committed. */
  ghost predicate EndsCommitted<S, R, O>(e: Engine<S, R, O>, log: seq<R>, effects: seq<Effect<S, O>>,
                                                     offset: nat, s: S)
  {
    && offset < |log|
    && var p := e.step(s, offset, log[offset]);
       && !p.status.Threw?
       && var tail := AllProduced(offset, OutputsOf(p.status)) + [Saved(offset + 1, p.state), Committed(offset)];
          |tail| <= |effects| && effects[|effects| - |tail|..] == tail
  }

  ghost predicate Justified<S(!new), R, O>(e: Engine<S, R, O>, log: seq<R>, effects: seq<Effect<S, O>>, offset: nat) {
    exists s: S :: EndsCommitted(e, log, effects, offset, s)
  }

  /** Every commit is preceded by the publication of its outputs and by a checkpoint one past it. */
  ghost predicate CommitsJustified<S(!new), R, O>(e: Engine<S, R, O>, log: seq<R>, effects: seq<Effect<S, O>>) {
    forall i :: 0 <= i < |effects| && effects[i].Committed? ==>
      Justified(e, log, effects[..i + 1], effects[i].offset)
  }

  lemma {:induction false} PublishedAll<S, O>(offset: nat, outputs: seq<O>, publish: nat -> bool, i: nat)
    requires i <= |outputs| && AllPublished(|outputs|, publish)
    ensures Published<S, O>(offset, outputs, publish, i) == AllProduced<S, O>(offset, outputs)[i..]
    decreases |outputs| - i
  {
    if i < |outputs| { PublishedAll<S, O>(offset, outputs, publish, i + 1); }
  }

  lemma {:induction false} PublishedQuiet<S, O>(offset: nat, outputs: seq<O>, publish: nat -> bool, i: nat)
    ensures forall x <- Published<S, O>(offset, outputs, publish, i) :: x.Produced? && x.offset == offset
    decreases |outputs| - i
  {
    if i < |outputs| { PublishedQuiet<S, O>(offset, outputs, publish, i + 1); }
  }

  lemma {:induction false} AnnouncedQuiet<S, O>(outputs: seq<O>, publish: nat -> bool, i: nat)
    ensures forall x <- Announcements<S, O>(outputs, publish, i) :: x.Announced?
    decreases |outputs| - i
  {
    if i < |outputs| { AnnouncedQuiet<S, O>(outputs, publish, i + 1); }
  }

  lemma JustifiedAppend<S(!new), R, O>(e: Engine<S, R, O>, log: seq<R>, a: seq<Effect<S, O>>, b: seq<Effect<S, O>>)
    requires CommitsJustified(e, log, a)
    requires forall i :: 0 <= i < |b| && b[i].Committed? ==>
               Justified(e, log, a + b[..i + 1], b[i].offset)
    ensures CommitsJustified(e, log, a + b)
  {
    hide Justified;
    var c := a + b;
    forall i | 0 <= i < |c| && c[i].Committed?
      ensures Justified(e, log, c[..i + 1], c[i].offset)
    {
      if i < |a| {
        assert c[..i + 1] == a[..i + 1];
      } else {
        assert c[..i + 1] == a + b[..i - |a| + 1];
      }
    }
  }

  lemma LongerLog<S(!new), R, O>(e: Engine<S, R, O>, log: seq<R>, effects: seq<Effect<S, O>>, record: R)
    requires CommitsJustified(e, log, effects)
    ensures CommitsJustified(e, log + [record], effects)
  {
    forall i | 0 <= i < |effects| && effects[i].Committed?
      ensures Justified(e, log + [record], effects[..i + 1], effects[i].offset)
    {
      assert Justified(e, log, effects[..i + 1], effects[i].offset);
      var s: S :| EndsCommitted(e, log, effects[..i + 1], effects[i].offset, s);
      assert (log + [record])[effects[i].offset] == log[effects[i].offset];
      assert EndsCommitted(e, log + [record], effects[..i + 1], effects[i].offset, s);
    }
  }

  /** The effects of one commit justify it, whatever came before. */
  lemma TailJustified<S(!new), R, O>(e: Engine<S, R, O>, log: seq<R>, before: seq<Effect<S, O>>, s: S, offset: nat)
    requires offset < |log| && !e.step(s, offset, log[offset]).status.Threw?
    ensures var p := e.step(s, offset, log[offset]);
            Justified(e, log, before + (AllProduced(offset, OutputsOf(p.status)) + [Saved(offset + 1, p.state), Committed(offset)]),
                      offset)
  {
    hide AllProduced;
    var p := e.step(s, offset, log[offset]);
    var tail := AllProduced(offset, OutputsOf(p.status)) + [Saved(offset + 1, p.state), Committed(offset)];
    var all := before + tail;
    assert all[|all| - |tail|..] == tail;
    assert EndsCommitted(e, log, all, offset, s);
  }

  /** Consuming a record commits at its very end, after everything else succeeded, or not at all. */
  lemma ConsumeCommits<S, R, O>(step: Stepper<S, R, O>, s: S, committed: seq<nat>, offset: nat, record: R,
                                admitted: bool, weather: Weather, i: nat)
    requires var c := Consume(step, s, committed, offset, record, admitted, weather);
             i < |c.effects| && c.effects[i].Committed?
    ensures var p := step(s, offset, record);
            var c := Consume(step, s, committed, offset, record, admitted, weather);
            && !p.status.Threw? && i == |c.effects| - 1 && c.effects[i].offset == offset
            && c.effects == AllProduced(offset, OutputsOf(p.status)) + [Saved(offset + 1, p.state), Committed(offset)]
  {
    var outputs := OutputsOf(step(s, offset, record).status);
    PublishedQuiet<S, O>(offset, outputs, weather.publish, 0);
    if AllPublished(|outputs|, weather.publish) {
      PublishedAll<S, O>(offset, outputs, weather.publish, 0);
    }
  }

  lemma ConsumeJustified<S(!new), R, O>(e: Engine<S, R, O>, log: seq<R>, before: seq<Effect<S, O>>, s: S, committed: seq<nat>,
                                  offset: nat, admitted: bool, weather: Weather)
    requires CommitsJustified(e, log, before) && offset < |log|
    ensures CommitsJustified(e, log, before + Consume(e.step, s, committed, offset, log[offset], admitted, weather).effects)
  {
    hide Consume, CommitsJustified, Justified, AllProduced;
    var effects := Consume(e.step, s, committed, offset, log[offset], admitted, weather).effects;
    forall i | 0 <= i < |effects| && effects[i].Committed?
      ensures Justified(e, log, before + effects[..i + 1], effects[i].offset)
    {
      ConsumeCommits(e.step, s, committed, offset, log[offset], admitted, weather, i);
      TailJustified(e, log, before, s, offset);
      assert effects[..i + 1] == effects;
    }
    JustifiedAppend(e, log, before, effects);
  }

  lemma StepJustified<S(!new), R, O>(e: Engine<S, R, O>, w: World<S, R, O>, a: Action<R>)
    requires CommitsJustified(e, w.log, w.effects)
    ensures var w' := Next(e, w, a); CommitsJustified(e, w'.log, w'.effects)
  {
    hide CommitsJustified, Consume, Recover, GapFree;
    match a
    case Append(record) => LongerLog(e, w.log, w.effects, record);
    case Crash =>
    case Start(s) =>
      GoLiveJustified(e, w, RecoveryOf(e, w, s), s.weather);
    case Poll(admitted, weather) =>
      if w.worker.Some? && w.worker.value.next < |w.log| {
        ConsumeJustified(e, w.log, w.effects, w.worker.value.state, w.worker.value.committed, w.worker.value.next, admitted,
                         weather);
      }
  }

  lemma GoLiveJustified<S(!new), R, O>(e: Engine<S, R, O>, w: World<S, R, O>, r: Recovered<S>, weather: Weather)
    requires CommitsJustified(e, w.log, w.effects)
    ensures var w' := GoLive(e, w, r, weather); w'.log == w.log && CommitsJustified(e, w.log, w'.effects)
  {
    hide Justified;
    var scanned := e.scan(r.state);
    var announced := Announcements<S, O>(scanned.outputs, weather.publish, 0);
    AnnouncedQuiet<S, O>(scanned.outputs, weather.publish, 0);
    assert forall i :: 0 <= i < |announced| ==> announced[i] in announced;
    JustifiedAppend(e, w.log, w.effects, announced);
    JustifiedAppend(e, w.log, w.effects + announced, [Saved(r.next, scanned.state)]);
  }

  /**
    In every run, with failures and crashes anywhere: an offset is committed only right after a checkpoint one past it
    was saved, itself right after every output of that record was published.
   */
  lemma {:induction false} CommitsComeLast<S(!new), R, O>(e: Engine<S, R, O>, w: World<S, R, O>, actions: seq<Action<R>>)
    requires CommitsJustified(e, w.log, w.effects)
    ensures CommitsJustified(e, Run(e, w, actions).log, Run(e, w, actions).effects)
    decreases |actions|
  {
    hide CommitsJustified, Next;
    if actions != [] {
      StepJustified(e, w, actions[0]);
      CommitsComeLast(e, Next(e, w, actions[0]), actions[1..]);
    }
  }

  // ---------- Every record once, in order ----------

  /** What a state's history is made of: records, startup scans, and restores from a checkpoint. */
  datatype Move = Rec(offset: nat) | Scan | Restore

  ghost function Perform<S, R, O>(e: Engine<S, R, O>, log: seq<R>, s: S, m: Move): S {
    match m
    case Scan => e.scan(s).state
    case Restore => if e.restore(s).Some? then e.restore(s).value else s
    case Rec(offset) => if offset < |log| then e.step(s, offset, log[offset]).state else s
  }

  /** The move can be made: the record is in the log and does not throw, the restore succeeds. */
  ghost predicate Possible<S, R, O>(e: Engine<S, R, O>, log: seq<R>, s: S, m: Move) {
    && (m.Rec? ==> m.offset < |log| && !e.step(s, m.offset, log[m.offset]).status.Threw?)
    && (m.Restore? ==> e.restore(s).Some?)
  }

  ghost function Apply<S, R, O>(e: Engine<S, R, O>, log: seq<R>, moves: seq<Move>): S {
    if moves == [] then e.initial
    else Perform(e, log, Apply(e, log, moves[..|moves| - 1]), moves[|moves| - 1])
  }

  ghost predicate Legal<S, R, O>(e: Engine<S, R, O>, log: seq<R>, moves: seq<Move>) {
    moves == []
    || var front := moves[..|moves| - 1];
       Legal(e, log, front) && Possible(e, log, Apply(e, log, front), moves[|moves| - 1])
  }

  ghost function Offsets(moves: seq<Move>): seq<nat> {
    if moves == [] then []
    else
      var last := moves[|moves| - 1];
      Offsets(moves[..|moves| - 1]) + if last.Rec? then [last.offset] else []
  }

  function Range(from: nat, end: nat): seq<nat>
    requires from <= end
  {
    seq(end - from, i requires 0 <= i => from + i)
  }

  /** The moves apply exactly the records from the low offset up to `next`, each once and in order. */
  ghost predicate Exact<S, R, O>(e: Engine<S, R, O>, log: seq<R>, next: nat, moves: seq<Move>) {
    e.low <= next <= |log| && Offsets(moves) == Range(e.low, next) && Legal(e, log, moves)
  }

  /** A state reached by an exact history up to `next`. */
  ghost predicate Lineage<S, R, O>(e: Engine<S, R, O>, log: seq<R>, next: nat, s: S) {
    exists moves :: Exact(e, log, next, moves) && s == Apply(e, log, moves)
  }

  lemma AppendMove<S, R, O>(e: Engine<S, R, O>, log: seq<R>, moves: seq<Move>, m: Move)
    ensures Offsets(moves + [m]) == Offsets(moves) + if m.Rec? then [m.offset] else []
    ensures Apply(e, log, moves + [m]) == Perform(e, log, Apply(e, log, moves), m)
    ensures Legal(e, log, moves + [m]) <==> Legal(e, log, moves) && Possible(e, log, Apply(e, log, moves), m)
  {
    hide Perform, Possible;
    assert (moves + [m])[..|moves|] == moves;
  }

  lemma StartLineage<S, R, O>(e: Engine<S, R, O>, log: seq<R>)
    requires e.low <= |log|
    ensures Lineage(e, log, e.low, e.initial)
  {
    assert Exact(e, log, e.low, []);
    assert Apply(e, log, []) == e.initial;
  }

  lemma StepLineage<S, R, O>(e: Engine<S, R, O>, log: seq<R>, next: nat, s: S)
    requires Lineage(e, log, next, s) && next < |log| && !e.step(s, next, log[next]).status.Threw?
    ensures Lineage(e, log, next + 1, e.step(s, next, log[next]).state)
  {
    hide Legal, Offsets, Apply;
    var moves :| Exact(e, log, next, moves) && s == Apply(e, log, moves);
    AppendMove(e, log, moves, Rec(next));
    assert Exact(e, log, next + 1, moves + [Rec(next)]);
  }

  /** A scan or a restore lengthens a history without applying a record. */
  lemma QuietLineage<S, R, O>(e: Engine<S, R, O>, log: seq<R>, next: nat, s: S, m: Move)
    requires Lineage(e, log, next, s) && !m.Rec? && Possible(e, log, s, m)
    ensures Lineage(e, log, next, Perform(e, log, s, m))
  {
    hide Legal, Offsets, Apply, Perform, Possible;
    var moves :| Exact(e, log, next, moves) && s == Apply(e, log, moves);
    AppendMove(e, log, moves, m);
    assert Exact(e, log, next, moves + [m]);
  }

  lemma {:induction false} FoldLineage<S, R, O>(e: Engine<S, R, O>, log: seq<R>, from: nat, end: nat, s: S)
    requires Lineage(e, log, from, s) && from <= end <= |log| && NoneThrows(e.step, s, log, from, end)
    ensures Lineage(e, log, end, Fold(e.step, s, log, from, end))
    decreases end - from
  {
    hide Lineage;
    if from < end {
      StepLineage(e, log, from, s);
      FoldLineage(e, log, from + 1, end, e.step(s, from, log[from]).state);
    }
  }

  lemma {:induction false} ApplyLonger<S, R, O>(e: Engine<S, R, O>, log: seq<R>, record: R, moves: seq<Move>)
    requires Legal(e, log, moves)
    ensures Apply(e, log + [record], moves) == Apply(e, log, moves) && Legal(e, log + [record], moves)
  {
    if moves != [] {
      var front, last := moves[..|moves| - 1], moves[|moves| - 1];
      ApplyLonger(e, log, record, front);
      if last.Rec? { assert (log + [record])[last.offset] == log[last.offset]; }
    }
  }

  lemma LineageLonger<S, R, O>(e: Engine<S, R, O>, log: seq<R>, record: R, next: nat, s: S)
    requires Lineage(e, log, next, s)
    ensures Lineage(e, log + [record], next, s)
  {
    hide Legal, Apply;
    var moves :| Exact(e, log, next, moves) && s == Apply(e, log, moves);
    ApplyLonger(e, log, record, moves);
    assert Exact(e, log + [record], next, moves);
  }

  /** The checkpoint and the running worker were both reached by exact histories. */
  ghost predicate WorldInv<S, R, O>(e: Engine<S, R, O>, w: World<S, R, O>) {
    && e.low <= |w.log|
    && (w.checkpoint.Some? ==> Lineage(e, w.log, w.checkpoint.value.next, w.checkpoint.value.state))
    && (w.worker.Some? ==> Lineage(e, w.log, w.worker.value.next, w.worker.value.state))
  }

  /** A start that goes live has caught up with the whole log, by live processing from where it started. */
  lemma RecoveryReaches<S, R, O>(e: Engine<S, R, O>, w: World<S, R, O>, s: Startup<R>)
    requires GapFree(s.polls, w.log, StartAt(e.low, w.checkpoint)) && RecoveryOf(e, w, s).caughtUp
    ensures var r, load := RecoveryOf(e, w, s), LoadOf(w.checkpoint, s.loads);
            var start, base := StartAt(e.low, w.checkpoint), Base(e.initial, load, e.restore);
            && Fit(r.status) && s.loads && r.next == |w.log| && start <= |w.log|
            && (load.Loaded? ==> e.restore(load.state).Some?)
            && r.state == Fold(e.step, base, w.log, start, |w.log|) && NoneThrows(e.step, base, w.log, start, |w.log|)
  {
    hide GapFree, Replay;
    var load := LoadOf(w.checkpoint, s.loads);
    var watermark := if s.watermark then Some(Watermark(e.low, |w.log|)) else None;
    RecoveryFolds(e.step, e.initial, load, watermark, e.restore, s.seek, s.polls, w.log);
    CaughtUpIff(e.step, Base(e.initial, load, e.restore), w.log, StartAt(e.low, w.checkpoint), |w.log|, s.polls, 0);
  }

  lemma RecoverLineage<S, R, O>(e: Engine<S, R, O>, w: World<S, R, O>, s: Startup<R>)
    requires WorldInv(e, w) && GapFree(s.polls, w.log, StartAt(e.low, w.checkpoint)) && RecoveryOf(e, w, s).caughtUp
    ensures Lineage(e, w.log, RecoveryOf(e, w, s).next, RecoveryOf(e, w, s).state)
  {
    hide Lineage, GapFree, Recover, Fold, NoneThrows;
    RecoveryReaches(e, w, s);
    StartLineage(e, w.log);
    if w.checkpoint.Some? { QuietLineage(e, w.log, w.checkpoint.value.next, w.checkpoint.value.state, Restore); }
    FoldLineage(e, w.log, StartAt(e.low, w.checkpoint), |w.log|, Base(e.initial, LoadOf(w.checkpoint, s.loads), e.restore));
  }

  lemma StepInv<S, R, O>(e: Engine<S, R, O>, w: World<S, R, O>, a: Action<R>)
    requires WorldInv(e, w)
    ensures WorldInv(e, Next(e, w, a))
  {
    hide Lineage, GapFree, Recover, Published, Announcements, AllPublished;
    match a
    case Append(record) =>
      if w.checkpoint.Some? { LineageLonger(e, w.log, record, w.checkpoint.value.next, w.checkpoint.value.state); }
      if w.worker.Some? { LineageLonger(e, w.log, record, w.worker.value.next, w.worker.value.state); }
    case Crash =>
    case Start(s) =>
      if w.worker.None? && GapFree(s.polls, w.log, StartAt(e.low, w.checkpoint)) {
        var r := RecoveryOf(e, w, s);
        if Fit(r.status) && r.caughtUp {
          RecoverLineage(e, w, s);
          QuietLineage(e, w.log, r.next, r.state, Scan);
        }
      }
    case Poll(admitted, weather) =>
      if w.worker.Some? && w.worker.value.next < |w.log| {
        var k := w.worker.value;
        if !e.step(k.state, k.next, w.log[k.next]).status.Threw? { StepLineage(e, w.log, k.next, k.state); }
      }
  }

  /**
    In every run, whatever failed in between, the checkpoint and the worker are in states reached by histories of records,
    scans and restores that applied every record of the log, from its first offset up to theirs, exactly once and in order.
   */
  lemma {:induction false} RecordsApplyOnce<S, R, O>(e: Engine<S, R, O>, w: World<S, R, O>, actions: seq<Action<R>>)
    requires WorldInv(e, w)
    ensures WorldInv(e, Run(e, w, actions))
    decreases |actions|
  {
    hide WorldInv, Next;
    if actions != [] {
      StepInv(e, w, actions[0]);
      RecordsApplyOnce(e, Next(e, w, actions[0]), actions[1..]);
    }
  }

  lemma LastRecord<S, R, O>(e: Engine<S, R, O>, log: seq<R>, next: nat, front: seq<Move>, last: Move)
    requires last.Rec? && Exact(e, log, next, front + [last])
    ensures next > e.low && last.offset == next - 1 && Exact(e, log, next - 1, front)
  {
    AppendMove(e, log, front, last);
    var all := Range(e.low, next);
    assert |all| == next - e.low && |Offsets(front)| == |all| - 1;
    assert all[|all| - 1] == last.offset;
    assert Offsets(front) == all[..|all| - 1] == Range(e.low, next - 1);
  }

  // ---------- What is published ----------

  /** The output belongs to the record: processing it, in a state with an exact history before it, gives it. */
  ghost predicate Belongs<S(!new), R, O>(e: Engine<S, R, O>, log: seq<R>, offset: nat, output: O) {
    offset < |log| && exists t: S :: Lineage(e, log, offset, t) && output in OutputsOf(e.step(t, offset, log[offset]).status)
  }

  ghost predicate AllBelong<S(!new), R, O>(e: Engine<S, R, O>, log: seq<R>, effects: seq<Effect<S, O>>) {
    forall x <- effects :: x.Produced? ==> Belongs(e, log, x.offset, x.output)
  }

  lemma {:induction false} PublishedFrom<S, O>(offset: nat, outputs: seq<O>, publish: nat -> bool, i: nat)
    ensures forall x <- Published<S, O>(offset, outputs, publish, i) :: x.Produced? && x.offset == offset && x.output in outputs
    decreases |outputs| - i
  {
    if i < |outputs| { PublishedFrom<S, O>(offset, outputs, publish, i + 1); }
  }

  lemma ConsumeBelongs<S(!new), R, O>(e: Engine<S, R, O>, log: seq<R>, s: S, committed: seq<nat>, offset: nat, admitted: bool,
                                      weather: Weather)
    requires offset < |log| && Lineage(e, log, offset, s)
    ensures AllBelong(e, log, Consume(e.step, s, committed, offset, log[offset], admitted, weather).effects)
  {
    hide Lineage, Published, AllPublished;
    var outputs := OutputsOf(e.step(s, offset, log[offset]).status);
    PublishedFrom<S, O>(offset, outputs, weather.publish, 0);
    forall output <- outputs ensures Belongs(e, log, offset, output) { }
  }

  lemma BelongsLonger<S(!new), R, O>(e: Engine<S, R, O>, log: seq<R>, record: R, effects: seq<Effect<S, O>>)
    requires AllBelong(e, log, effects)
    ensures AllBelong(e, log + [record], effects)
  {
    hide Lineage;
    forall x <- effects | x.Produced? ensures Belongs(e, log + [record], x.offset, x.output) {
      var t: S :| Lineage(e, log, x.offset, t) && x.output in OutputsOf(e.step(t, x.offset, log[x.offset]).status);
      LineageLonger(e, log, record, x.offset, t);
      assert (log + [record])[x.offset] == log[x.offset];
    }
  }

  lemma GoLiveBelongs<S(!new), R, O>(e: Engine<S, R, O>, w: World<S, R, O>, r: Recovered<S>, weather: Weather)
    requires AllBelong(e, w.log, w.effects)
    ensures AllBelong(e, w.log, GoLive(e, w, r, weather).effects)
  {
    hide Belongs;
    AnnouncedQuiet<S, O>(e.scan(r.state).outputs, weather.publish, 0);
  }

  lemma StepBelongs<S(!new), R, O>(e: Engine<S, R, O>, w: World<S, R, O>, a: Action<R>)
    requires WorldInv(e, w) && AllBelong(e, w.log, w.effects)
    ensures AllBelong(e, Next(e, w, a).log, Next(e, w, a).effects)
  {
    hide Lineage, GapFree, Recover, Consume, GoLive, Belongs;
    match a
    case Append(record) => BelongsLonger(e, w.log, record, w.effects);
    case Crash =>
    case Start(s) =>
      GoLiveBelongs(e, w, RecoveryOf(e, w, s), s.weather);
      GoLiveLog(e, w, RecoveryOf(e, w, s), s.weather);
    case Poll(admitted, weather) =>
      if w.worker.Some? && w.worker.value.next < |w.log| {
        ConsumeBelongs(e, w.log, w.worker.value.state, w.worker.value.committed, w.worker.value.next, admitted, weather);
      }
  }

  lemma GoLiveLog<S, R, O>(e: Engine<S, R, O>, w: World<S, R, O>, r: Recovered<S>, weather: Weather)
    ensures GoLive(e, w, r, weather).log == w.log
  {
  }

  /** In every run, whatever is published for a record is what processing it after an exact history gives. */
  lemma {:induction false} OutputsBelong<S(!new), R, O>(e: Engine<S, R, O>, w: World<S, R, O>, actions: seq<Action<R>>)
    requires WorldInv(e, w) && AllBelong(e, w.log, w.effects)
    ensures AllBelong(e, Run(e, w, actions).log, Run(e, w, actions).effects)
    decreases |actions|
  {
    hide WorldInv, Next, AllBelong;
    if actions != [] {
      StepInv(e, w, actions[0]);
      StepBelongs(e, w, actions[0]);
      OutputsBelong(e, Next(e, w, actions[0]), actions[1..]);
    }
  }
}
