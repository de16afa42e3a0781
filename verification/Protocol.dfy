/**
  Checkpoint, commit and recovery as a step protocol with failures.  The engine is any state with a step function; the
  consumer, producer, committer and checkpoint store are steps that may fail.
 */
module Protocol {
  import opened Types

  /** What processing one record came to; `Threw` is an exception. */
  datatype StepStatus<O> = Done(outputs: seq<O>) | Repeated(originalOffset: int) | Refused | Threw

  datatype Processed<S, O> = Processed(state: S, status: StepStatus<O>)

  type Stepper<!S, !R, !O> = (S, nat, R) -> Processed<S, O>

  /** Live processing of the records from one offset up to another. */
  function Fold<S, R, O>(step: Stepper<S, R, O>, s: S, log: seq<R>, from: nat, end: nat): S
    requires from <= end <= |log|
    decreases end - from
  {
    if from == end then s else Fold(step, step(s, from, log[from]).state, log, from + 1, end)
  }

  lemma {:induction false} FoldSplit<S, R, O>(step: Stepper<S, R, O>, s: S, log: seq<R>, from: nat, mid: nat, end: nat)
    requires from <= mid <= end <= |log|
    ensures Fold(step, s, log, from, end) == Fold(step, Fold(step, s, log, from, mid), log, mid, end)
    decreases mid - from
  {
    if from < mid { FoldSplit(step, step(s, from, log[from]).state, log, from + 1, mid, end); }
  }

  lemma FoldNext<S, R, O>(step: Stepper<S, R, O>, s: S, log: seq<R>, from: nat, end: nat)
    requires from <= end < |log|
    ensures Fold(step, s, log, from, end + 1) == step(Fold(step, s, log, from, end), end, log[end]).state
  {
    FoldSplit(step, s, log, from, end, end + 1);
    var t := Fold(step, s, log, from, end);
    assert Fold(step, t, log, end, end + 1) == Fold(step, step(t, end, log[end]).state, log, end + 1, end + 1);
  }

  // ---------- Consuming one record ----------

  /** The durable effects of the worker, in the order they happened. */
  datatype Effect<S, O> = Produced(offset: nat, output: O) | Announced(output: O) | Saved(next: nat, state: S) | Committed(offset: nat)

  /** Which outside steps succeed: each output's publication, the checkpoint, the commit. */
  datatype Weather = Weather(publish: nat -> bool, save: bool, commit: bool)

  datatype AppStatus = ProcessedOk | ProcessingFailed | RejectedInput | PublishFailed | UnsafeDuplicate | CheckpointFailed
                     | CommitFailed

  /** The outputs that were published: all whose publication succeeds, past failures too. */
  function Published<S, O>(offset: nat, outputs: seq<O>, publish: nat -> bool, i: nat): seq<Effect<S, O>>
    decreases |outputs| - i
  {
    if i >= |outputs| then []
    else (if publish(i) then [Produced(offset, outputs[i])] else []) + Published(offset, outputs, publish, i + 1)
  }

  predicate AllPublished(count: nat, publish: nat -> bool) {
    forall i :: 0 <= i < count ==> publish(i)
  }

  function OutputsOf<O>(status: StepStatus<O>): seq<O> {
    if status.Done? then status.outputs else []
  }

  datatype Consumed<S, O> = Consumed(state: S, committed: seq<nat>, effects: seq<Effect<S, O>>, status: AppStatus)

  function Remembered(committed: seq<nat>, offset: nat): seq<nat> {
    if offset in committed then committed else committed + [offset]
  }

  /** Process, publish, check a duplicate's source, checkpoint, commit; stop at the first failure. */
  function Consume<S, R, O>(step: Stepper<S, R, O>, s: S, committed: seq<nat>, offset: nat, record: R, admitted: bool,
                            weather: Weather)
    : Consumed<S, O>
  {
    if !admitted then Consumed(s, committed, [], RejectedInput)
    else
      var p := step(s, offset, record);
      if p.status.Threw? then Consumed(p.state, committed, [], ProcessingFailed)
      else
        var outputs := OutputsOf(p.status);
        var produced := Published(offset, outputs, weather.publish, 0);
        if !AllPublished(|outputs|, weather.publish) then Consumed(p.state, committed, produced, PublishFailed)
        else if p.status.Repeated? && !(0 <= p.status.originalOffset && p.status.originalOffset in committed) then
          Consumed(p.state, committed, produced, UnsafeDuplicate)
        else if !weather.save then Consumed(p.state, committed, produced, CheckpointFailed)
        else
          var saved := produced + [Saved(offset + 1, p.state)];
          if !weather.commit then Consumed(p.state, committed, saved, CommitFailed)
          else Consumed(p.state, Remembered(committed, offset), saved + [Committed(offset)], ProcessedOk)
  }

  /** The worker object: its runtime state, the offsets it has committed, and what it did to the outside. */
  class RedpandaEngineApp<S(0), R, O> {
    const step: Stepper<S, R, O>
    var runtime: S
    var committedOffsets: seq<nat>
    var effects: seq<Effect<S, O>>

    constructor (step: Stepper<S, R, O>, runtime: S)
      ensures this.step == step && this.runtime == runtime && committedOffsets == [] && effects == []
    {
      this.step, this.runtime := step, runtime;
      committedOffsets, effects := [], [];
    }

    /** Publish outputs one by one, going on past failures; true if none failed. */
    method Publish(offset: nat, outputs: seq<O>, publish: nat -> bool) returns (ok: bool)
      modifies this`effects
      ensures ok == AllPublished(|outputs|, publish)
      ensures effects == old(effects) + Published(offset, outputs, publish, 0)
    {
      ok := true;
      var i := 0;
      while i < |outputs|
        invariant 0 <= i <= |outputs| && ok == AllPublished(i, publish)
        invariant effects + Published(offset, outputs, publish, i) == old(effects) + Published(offset, outputs, publish, 0)
      {
        if publish(i) {
          effects := effects + [Produced(offset, outputs[i])];
        } else {
          ok := false;
        }
        i := i + 1;
      }
    }

    /** Whether the record that a duplicate repeats was committed by this worker. */
    method DuplicateSourceIsSafe(original: int) returns (safe: bool)
      ensures safe == (0 <= original && original in committedOffsets)
    {
      for i := 0 to |committedOffsets|
        invariant forall j :: 0 <= j < i ==> committedOffsets[j] != original
      {
        if committedOffsets[i] == original { return true; }
      }
      return false;
    }

    method MarkCommitted(offset: nat)
      modifies this`committedOffsets
      ensures committedOffsets == Remembered(old(committedOffsets), offset)
    {
      for i := 0 to |committedOffsets|
        invariant committedOffsets == old(committedOffsets)
        invariant forall j :: 0 <= j < i ==> committedOffsets[j] != offset
      {
        if committedOffsets[i] == offset { return; }
      }
      committedOffsets := committedOffsets + [offset];
    }

    method ConsumeRecord(offset: nat, record: R, admitted: bool, weather: Weather) returns (status: AppStatus)
      modifies this
      ensures var c := Consume(step, old(runtime), old(committedOffsets), offset, record, admitted, weather);
              && runtime == c.state && committedOffsets == c.committed && status == c.status
              && effects == old(effects) + c.effects
    {
      if !admitted { return RejectedInput; }
      var p := step(runtime, offset, record);
      runtime := p.state;
      if p.status.Threw? { return ProcessingFailed; }
      var ok := Publish(offset, OutputsOf(p.status), weather.publish);
      if !ok { return PublishFailed; }
      if p.status.Repeated? {
        var safe := DuplicateSourceIsSafe(p.status.originalOffset);
        if !safe { return UnsafeDuplicate; }
      }
      if !weather.save { return CheckpointFailed; }
      effects := effects + [Saved(offset + 1, runtime)];
      if !weather.commit { return CommitFailed; }
      effects := effects + [Committed(offset)];
      MarkCommitted(offset);
      return ProcessedOk;
    }
  }

  // ---------- Replay ----------

  /** What polling the consumer gave. */
  datatype Poll<R> = NoRecord | PollError | Got(sameSource: bool, offset: nat, record: R)

  datatype ReplayStatus = Replayed | ReplayFailed

  datatype ReplayResult<S> = ReplayResult(status: ReplayStatus, state: S, next: nat, replayed: nat, caughtUp: bool)

  /** Replay polled records, silently, until the high watermark; the polls are consumed one by one. */
  function Replay<S, R, O>(step: Stepper<S, R, O>, s: S, next: nat, high: nat, polls: seq<Poll<R>>, count: nat)
    : ReplayResult<S>
    decreases |polls|
  {
    if next >= high then ReplayResult(Replayed, s, next, count, true)
    else if polls == [] || polls[0].NoRecord? then ReplayResult(Replayed, s, next, count, false)
    else if polls[0].PollError? || !polls[0].sameSource then ReplayResult(ReplayFailed, s, next, count, false)
    else if polls[0].offset >= high then ReplayResult(Replayed, s, next, count, true)
    else
      var p := step(s, polls[0].offset, polls[0].record);
      if p.status.Threw? then ReplayResult(ReplayFailed, p.state, next, count, false)
      else Replay(step, p.state, polls[0].offset + 1, high, polls[1..], count + 1)
  }

  /** The consumer hands out the log's records in order, without a gap, as long as it hands out records at all. */
  ghost predicate GapFree<R>(polls: seq<Poll<R>>, log: seq<R>, next: nat)
    decreases |polls|
  {
    polls == [] || !polls[0].Got?
    || (next < |log| && polls[0] == Got(true, next, log[next]) && GapFree(polls[1..], log, next + 1))
  }

  /**
    Over a gap-free log, whatever happens, replay has applied the records from `next` up to where it stopped, each once
    and in order; it reports having caught up exactly when that is the high watermark.
   */
  lemma {:induction false} ReplayFolds<S, R, O>(step: Stepper<S, R, O>, s: S, log: seq<R>, next: nat, high: nat,
                                                      polls: seq<Poll<R>>, count: nat)
    requires next <= high <= |log| && GapFree(polls, log, next)
    ensures var r := Replay(step, s, next, high, polls, count);
            && next <= r.next <= high && r.replayed == count + (r.next - next)
            && (r.status == Replayed ==> r.state == Fold(step, s, log, next, r.next))
            && (r.caughtUp <==> r.status == Replayed && r.next == high)
    decreases |polls|
  {
    if next < high && polls != [] && polls[0].Got? {
      var p := step(s, next, log[next]);
      if !p.status.Threw? { ReplayFolds(step, p.state, log, next + 1, high, polls[1..], count + 1); }
    }
  }

  /** Live processing of the records from one offset up to another throws on none of them. */
  ghost predicate NoneThrows<S, R, O>(step: Stepper<S, R, O>, s: S, log: seq<R>, from: nat, end: nat)
    requires from <= end <= |log|
    decreases end - from
  {
    from == end
    || (!step(s, from, log[from]).status.Threw? && NoneThrows(step, step(s, from, log[from]).state, log, from + 1, end))
  }

  /** The first n polls all give records. */
  ghost predicate HandsOut<R>(polls: seq<Poll<R>>, n: nat)
    decreases n
  {
    n == 0 || (polls != [] && polls[0].Got? && HandsOut(polls[1..], n - 1))
  }

  /** Replay catches up exactly when the consumer hands out every record below the watermark and none of them throws. */
  lemma {:induction false} CaughtUpIff<S, R, O>(step: Stepper<S, R, O>, s: S, log: seq<R>, next: nat, high: nat,
                                                polls: seq<Poll<R>>, count: nat)
    requires next <= high <= |log| && GapFree(polls, log, next)
    ensures Replay(step, s, next, high, polls, count).caughtUp <==>
            HandsOut(polls, high - next) && NoneThrows(step, s, log, next, high)
    decreases |polls|
  {
    if next < high && polls != [] && polls[0].Got? && !step(s, next, log[next]).status.Threw? {
      CaughtUpIff(step, step(s, next, log[next]).state, log, next + 1, high, polls[1..], count + 1);
    }
  }

  // ---------- Recovery ----------

  datatype RecoveryStatus = NoCheckpoint | Restored | CaughtUp | SourceMismatch | LoadFailed | WatermarkUnavailable
                          | InvalidWatermark | BelowLow | AboveHigh | RestoreFailed | SeekFailed | Broken

  /** What loading the latest checkpoint gave. */
  datatype Load<S> = LoadError | Nothing | Loaded(sameSource: bool, next: int, state: S)

  datatype Watermark = Watermark(low: int, high: int)

  datatype Recovered<S> = Recovered(status: RecoveryStatus, state: S, next: nat, caughtUp: bool)

  predicate Fit(status: RecoveryStatus) {
    status == NoCheckpoint || status == Restored || status == CaughtUp
  }

  /** The status of a finished replay. */
  function AfterReplay<S>(r: ReplayResult<S>): Recovered<S> {
    if r.status == Replayed then Recovered(CaughtUp, r.state, r.next, r.caughtUp)
    else Recovered(Broken, r.state, r.next, false)
  }

  /**
    Load, validate the offset against the watermark, restore, seek, replay.  `restore` is None where restoring throws;
    `initial` is the state of a new runtime.
   */
  function Recover<S, R, O>(step: Stepper<S, R, O>, initial: S, load: Load<S>, watermark: Option<Watermark>,
                            restore: S -> Option<S>, seek: bool, polls: seq<Poll<R>>)
    : Recovered<S>
  {
    match load
    case LoadError => Recovered(LoadFailed, initial, 0, false)
    case Nothing =>
      if watermark.None? then Recovered(WatermarkUnavailable, initial, 0, false)
      else
        var w := watermark.value;
        if w.low < 0 || w.high < 0 || w.low > w.high then Recovered(InvalidWatermark, initial, 0, false)
        else if !seek then Recovered(SeekFailed, initial, w.low, false)
        else if w.low >= w.high then Recovered(NoCheckpoint, initial, w.low, true)
        else AfterReplay(Replay(step, initial, w.low, w.high, polls, 0))
    case Loaded(sameSource, next, state) =>
      if !sameSource then Recovered(SourceMismatch, initial, 0, false)
      else if watermark.None? then Recovered(WatermarkUnavailable, initial, 0, false)
      else
        var w := watermark.value;
        if w.low < 0 || w.high < 0 || w.low > w.high then Recovered(InvalidWatermark, initial, 0, false)
        else if next < w.low then Recovered(BelowLow, initial, 0, false)
        else if next > w.high then Recovered(AboveHigh, initial, 0, false)
        else
          var restored := restore(state);
          if restored.None? then Recovered(RestoreFailed, initial, next, false)
          else if !seek then Recovered(SeekFailed, restored.value, next, false)
          else AfterReplay(Replay(step, restored.value, next, w.high, polls, 0))
  }

  /** The recovery object: it owns the runtime while it replays, and drains the consumer. */
  class RecoveryCoordinator<S(0), R(0), O> {
    const step: Stepper<S, R, O>
    var runtime: S
    var consumer: seq<Poll<R>>

    constructor (step: Stepper<S, R, O>, runtime: S, consumer: seq<Poll<R>>)
      ensures this.step == step && this.runtime == runtime && this.consumer == consumer
    {
      this.step, this.runtime, this.consumer := step, runtime, consumer;
    }

    /** Poll and apply records until the watermark is reached, or nothing more comes. */
    method ReplayUntilCaughtUp(start: nat, high: nat) returns (r: ReplayResult<S>)
      modifies this`runtime, this`consumer
      ensures r == Replay(step, old(runtime), start, high, old(consumer), 0) && runtime == r.state
    {
      ghost var goal := Replay(step, runtime, start, high, consumer, 0);
      var next: nat, replayed: nat := start, 0;
      while next < high
        invariant goal == Replay(step, runtime, next, high, consumer, replayed)
        decreases |consumer|, high - next
      {
        if consumer == [] { return ReplayResult(Replayed, runtime, next, replayed, false); }
        var poll := consumer[0];
        consumer := consumer[1..];
        if poll.NoRecord? { return ReplayResult(Replayed, runtime, next, replayed, false); }
        if poll.PollError? || !poll.sameSource { return ReplayResult(ReplayFailed, runtime, next, replayed, false); }
        if poll.offset >= high { return ReplayResult(Replayed, runtime, next, replayed, true); }
        var p := step(runtime, poll.offset, poll.record);
        runtime := p.state;
        if p.status.Threw? { return ReplayResult(ReplayFailed, runtime, next, replayed, false); }
        replayed := replayed + 1;
        next := poll.offset + 1;
      }
      return ReplayResult(Replayed, runtime, next, replayed, true);
    }

    method RecoverAndReplay(load: Load<S>, watermark: Option<Watermark>, restore: S -> Option<S>, seek: bool)
      returns (r: Recovered<S>)
      modifies this`runtime, this`consumer
      ensures r == Recover(step, old(runtime), load, watermark, restore, seek, old(consumer)) && runtime == r.state
    {
      if load.LoadError? { return Recovered(LoadFailed, runtime, 0, false); }
      if load.Loaded? && !load.sameSource { return Recovered(SourceMismatch, runtime, 0, false); }
      if watermark.None? { return Recovered(WatermarkUnavailable, runtime, 0, false); }
      var w := watermark.value;
      if w.low < 0 || w.high < 0 || w.low > w.high { return Recovered(InvalidWatermark, runtime, 0, false); }
      var start: nat := w.low;
      if load.Loaded? {
        if load.next < w.low { return Recovered(BelowLow, runtime, 0, false); }
        if load.next > w.high { return Recovered(AboveHigh, runtime, 0, false); }
        start := load.next;
        var restored := restore(load.state);
        if restored.None? { return Recovered(RestoreFailed, runtime, start, false); }
        runtime := restored.value;
      }
      if !seek { return Recovered(SeekFailed, runtime, start, false); }
      if load.Nothing? && start >= w.high { return Recovered(NoCheckpoint, runtime, start, true); }
      var replay := ReplayUntilCaughtUp(start, w.high);
      return AfterReplay(replay);
    }
  }

  /** Where recovery starts from: the restored checkpoint, or a fresh runtime at the low watermark. */
  function Base<S>(initial: S, load: Load<S>, restore: S -> Option<S>): S {
    if load.Loaded? && restore(load.state).Some? then restore(load.state).value else initial
  }

  function StartOffset<S>(load: Load<S>, low: int): int {
    if load.Loaded? then load.next else low
  }

  /**
    A recovery that reports having caught up, over a gap-free log, ends in exactly the state that live processing of the
    records from the checkpoint's offset up to the high watermark reaches from the checkpoint, each applied once and in
    order.
   */
  lemma RecoveryFolds<S, R, O>(step: Stepper<S, R, O>, initial: S, load: Load<S>, watermark: Option<Watermark>,
                               restore: S -> Option<S>, seek: bool, polls: seq<Poll<R>>, log: seq<R>)
    requires watermark.Some? ==> watermark.value.high <= |log|
    requires watermark.Some? && 0 <= StartOffset(load, watermark.value.low) ==>
               GapFree(polls, log, StartOffset(load, watermark.value.low))
    requires Recover(step, initial, load, watermark, restore, seek, polls).caughtUp
    ensures var r := Recover(step, initial, load, watermark, restore, seek, polls);
            && Fit(r.status) && watermark.Some?
            && var start, high := StartOffset(load, watermark.value.low), watermark.value.high;
               && 0 <= start <= high && r.next == high
               && r.state == Fold(step, Base(initial, load, restore), log, start, high)
  {
    var w := watermark.value;
    var start := StartOffset(load, w.low);
    ReplayFolds(step, Base(initial, load, restore), log, start, w.high, polls, 0);
  }
}
