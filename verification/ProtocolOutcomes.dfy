/**
  When things get saved, committed and recovered: a checkpoint only after everything it covers was published, a repeat only if
  its original was committed, a recovery exactly under the conditions that make it safe.
 */
module ProtocolOutcomes {
  import opened Types
  import opened Protocol
  import opened ProtocolRuns

  // ---------- Checkpoints come after what they cover ----------

  function AllAnnounced<S, O>(outputs: seq<O>): seq<Effect<S, O>> {
    seq(|outputs|, i requires 0 <= i < |outputs| => Announced(outputs[i]))
  }

  ghost predicate WasCommitted<S, O>(effects: seq<Effect<S, O>>, offset: int) {
    exists j :: 0 <= j < |effects| && effects[j].Committed? && effects[j].offset == offset
  }

  ghost predicate EndsWith<S, O>(effects: seq<Effect<S, O>>, tail: seq<Effect<S, O>>) {
    |tail| <= |effects| && effects[|effects| - |tail|..] == tail
  }

  /** The last effect saves the state after a record, right after all of its outputs; a repeat's original was committed. */
  ghost predicate SavedRecord<S(!new), R, O>(e: Engine<S, R, O>, log: seq<R>, effects: seq<Effect<S, O>>, offset: nat, s: S) {
    && offset < |log|
    && var p := e.step(s, offset, log[offset]);
       && !p.status.Threw?
       && EndsWith(effects, AllProduced(offset, OutputsOf(p.status)) + [Saved(offset + 1, p.state)])
       && (p.status.Repeated? ==> WasCommitted(effects, p.status.originalOffset))
  }

  /** Or the state after a startup scan that did something, right after all of what it announces. */
  ghost predicate SavedScan<S(!new), R, O>(e: Engine<S, R, O>, effects: seq<Effect<S, O>>, next: nat, s: S) {
    && e.scan(s).outputs != []
    && EndsWith(effects, AllAnnounced(e.scan(s).outputs) + [Saved(next, e.scan(s).state)])
  }

  ghost predicate RecordSaved<S(!new), R, O>(e: Engine<S, R, O>, log: seq<R>, effects: seq<Effect<S, O>>) {
    exists offset: nat, s: S :: SavedRecord(e, log, effects, offset, s)
  }

  ghost predicate ScanSaved<S(!new), R, O>(e: Engine<S, R, O>, effects: seq<Effect<S, O>>) {
    exists next: nat, s: S :: SavedScan(e, effects, next, s)
  }

  ghost predicate Covered<S(!new), R, O>(e: Engine<S, R, O>, log: seq<R>, effects: seq<Effect<S, O>>) {
    forall i :: 0 <= i < |effects| && effects[i].Saved? ==>
      RecordSaved(e, log, effects[..i + 1]) || ScanSaved(e, effects[..i + 1])
  }

  /** What the worker holds as committed was committed. */
  ghost predicate Honest<S, R, O>(w: World<S, R, O>) {
    w.worker.Some? ==> forall o <- w.worker.value.committed :: WasCommitted(w.effects, o)
  }

  lemma CommittedStill<S, O>(a: seq<Effect<S, O>>, b: seq<Effect<S, O>>, offset: int)
    requires WasCommitted(a, offset)
    ensures WasCommitted(a + b, offset)
  {
    var j :| 0 <= j < |a| && a[j].Committed? && a[j].offset == offset;
    assert (a + b)[j] == a[j];
  }

  lemma LaterCovered<S(!new), R, O>(e: Engine<S, R, O>, log: seq<R>, a: seq<Effect<S, O>>, b: seq<Effect<S, O>>)
    requires Covered(e, log, a)
    requires forall i :: 0 <= i < |b| && b[i].Saved? ==> RecordSaved(e, log, a + b[..i + 1]) || ScanSaved(e, a + b[..i + 1])
    ensures Covered(e, log, a + b)
  {
    hide RecordSaved, ScanSaved;
    var c := a + b;
    forall i | 0 <= i < |c| && c[i].Saved? ensures RecordSaved(e, log, c[..i + 1]) || ScanSaved(e, c[..i + 1]) {
      if i < |a| { assert c[..i + 1] == a[..i + 1]; } else { assert c[..i + 1] == a + b[..i - |a| + 1]; }
    }
  }

  lemma RecordLater<S(!new), R, O>(e: Engine<S, R, O>, log: seq<R>, effects: seq<Effect<S, O>>, record: R)
    requires RecordSaved(e, log, effects)
    ensures RecordSaved(e, log + [record], effects)
  {
    var offset: nat, s: S :| SavedRecord(e, log, effects, offset, s);
    assert (log + [record])[offset] == log[offset];
    assert SavedRecord(e, log + [record], effects, offset, s);
  }

  lemma LongerCovered<S(!new), R, O>(e: Engine<S, R, O>, log: seq<R>, effects: seq<Effect<S, O>>, record: R)
    requires Covered(e, log, effects)
    ensures Covered(e, log + [record], effects)
  {
    hide RecordSaved, ScanSaved;
    forall i | 0 <= i < |effects| && effects[i].Saved?
      ensures RecordSaved(e, log + [record], effects[..i + 1]) || ScanSaved(e, effects[..i + 1])
    {
      if RecordSaved(e, log, effects[..i + 1]) { RecordLater(e, log, effects[..i + 1], record); }
    }
  }

  /** What consuming a record saves: only at the end of its outputs, and a repeat only if it is safe. */
  lemma ConsumeSaved<S, R, O>(step: Stepper<S, R, O>, s: S, committed: seq<nat>, offset: nat, record: R, admitted: bool,
                              weather: Weather, i: nat)
    requires var c := Consume(step, s, committed, offset, record, admitted, weather); i < |c.effects| && c.effects[i].Saved?
    ensures var p, c := step(s, offset, record), Consume(step, s, committed, offset, record, admitted, weather);
            && !p.status.Threw?
            && c.effects[..i + 1] == AllProduced(offset, OutputsOf(p.status)) + [Saved(offset + 1, p.state)]
            && (p.status.Repeated? ==> 0 <= p.status.originalOffset && p.status.originalOffset in committed)
  {
    var outputs := OutputsOf(step(s, offset, record).status);
    PublishedQuiet<S, O>(offset, outputs, weather.publish, 0);
    var all := Consume(step, s, committed, offset, record, admitted, weather).effects;
    assert all[i] in all;
    if AllPublished(|outputs|, weather.publish) {
      PublishedAll<S, O>(offset, outputs, weather.publish, 0);
      var produced := AllProduced<S, O>(offset, outputs);
      assert produced[0..] == produced;
      var saved := produced + [Saved(offset + 1, step(s, offset, record).state)];
      var effects := Consume(step, s, committed, offset, record, admitted, weather).effects;
      assert effects == saved || effects == saved + [Committed(offset)];
      assert forall k :: 0 <= k < |produced| ==> effects[k] == produced[k] && produced[k].Produced?;
      assert i == |produced| && effects[..i + 1] == saved;
    }
  }

  lemma SavedAfter<S(!new), R, O>(e: Engine<S, R, O>, log: seq<R>, before: seq<Effect<S, O>>, s: S, offset: nat)
    requires offset < |log| && !e.step(s, offset, log[offset]).status.Threw?
    requires var status := e.step(s, offset, log[offset]).status; status.Repeated? ==> WasCommitted(before, status.originalOffset)
    ensures var p := e.step(s, offset, log[offset]);
            RecordSaved(e, log, before + (AllProduced(offset, OutputsOf(p.status)) + [Saved(offset + 1, p.state)]))
  {
    hide AllProduced, WasCommitted;
    var p := e.step(s, offset, log[offset]);
    var tail := AllProduced(offset, OutputsOf(p.status)) + [Saved(offset + 1, p.state)];
    assert (before + tail)[|before + tail| - |tail|..] == tail;
    if p.status.Repeated? { CommittedStill(before, tail, p.status.originalOffset); }
    assert SavedRecord(e, log, before + tail, offset, s);
  }

  lemma ConsumeCovered<S(!new), R, O>(e: Engine<S, R, O>, log: seq<R>, before: seq<Effect<S, O>>, s: S, committed: seq<nat>,
                                      offset: nat, admitted: bool, weather: Weather)
    requires Covered(e, log, before) && offset < |log| && forall o <- committed :: WasCommitted(before, o)
    ensures Covered(e, log, before + Consume(e.step, s, committed, offset, log[offset], admitted, weather).effects)
  {
    hide Consume, Covered, RecordSaved, ScanSaved, AllProduced, WasCommitted;
    var effects := Consume(e.step, s, committed, offset, log[offset], admitted, weather).effects;
    forall i | 0 <= i < |effects| && effects[i].Saved? ensures RecordSaved(e, log, before + effects[..i + 1]) {
      ConsumeSaved(e.step, s, committed, offset, log[offset], admitted, weather, i);
      SavedAfter(e, log, before, s, offset);
    }
    LaterCovered(e, log, before, effects);
  }

  /** What is newly held as committed was committed last. */
  lemma ConsumeHonest<S, R, O>(step: Stepper<S, R, O>, before: seq<Effect<S, O>>, s: S, committed: seq<nat>, offset: nat, record: R,
                               admitted: bool, weather: Weather)
    requires forall o <- committed :: WasCommitted(before, o)
    ensures var c := Consume(step, s, committed, offset, record, admitted, weather);
            forall o <- c.committed :: WasCommitted(before + c.effects, o)
  {
    hide Published, AllPublished, WasCommitted;
    var c := Consume(step, s, committed, offset, record, admitted, weather);
    forall o <- c.committed ensures WasCommitted(before + c.effects, o) {
      if o in committed {
        CommittedStill(before, c.effects, o);
      } else {
        LastCommitted(before + c.effects[..|c.effects| - 1], o);
        assert before + c.effects == before + c.effects[..|c.effects| - 1] + [Committed(o)];
      }
    }
  }

  lemma LastCommitted<S, O>(a: seq<Effect<S, O>>, offset: nat)
    ensures WasCommitted(a + [Committed(offset)], offset)
  {
    assert (a + [Committed(offset)])[|a|].Committed?;
  }

  lemma {:induction false} AnnouncedWhole<S, O>(outputs: seq<O>, publish: nat -> bool, i: nat)
    requires i <= |outputs| && AllPublished(|outputs|, publish)
    ensures Announcements<S, O>(outputs, publish, i) == AllAnnounced<S, O>(outputs)[i..]
    decreases |outputs| - i
  {
    if i < |outputs| { AnnouncedWhole<S, O>(outputs, publish, i + 1); }
  }

  lemma GoLiveCovered<S(!new), R, O>(e: Engine<S, R, O>, w: World<S, R, O>, r: Recovered<S>, weather: Weather)
    requires Covered(e, w.log, w.effects)
    ensures var w' := GoLive(e, w, r, weather); w'.log == w.log && Covered(e, w.log, w'.effects) && Honest(w')
  {
    hide RecordSaved, ScanSaved;
    var scanned := e.scan(r.state);
    var announced := Announcements<S, O>(scanned.outputs, weather.publish, 0);
    AnnouncedQuiet<S, O>(scanned.outputs, weather.publish, 0);
    assert forall i :: 0 <= i < |announced| ==> announced[i] in announced;
    LaterCovered(e, w.log, w.effects, announced);
    if scanned.outputs != [] && AllPublished(|scanned.outputs|, weather.publish) {
      AnnouncedWhole<S, O>(scanned.outputs, weather.publish, 0);
      ScanCovered(e, w.effects, r.state, r.next);
      var all := w.effects + announced;
      var last: seq<Effect<S, O>> := [Saved(r.next, scanned.state)];
      assert last[..1] == last;
      LaterCovered(e, w.log, all, last);
    }
  }

  lemma ScanCovered<S(!new), R, O>(e: Engine<S, R, O>, before: seq<Effect<S, O>>, s: S, next: nat)
    requires e.scan(s).outputs != []
    ensures ScanSaved(e, before + AllAnnounced(e.scan(s).outputs) + [Saved(next, e.scan(s).state)])
  {
    hide AllAnnounced;
    var tail := AllAnnounced(e.scan(s).outputs) + [Saved(next, e.scan(s).state)];
    var all := before + AllAnnounced(e.scan(s).outputs) + [Saved(next, e.scan(s).state)];
    assert all == before + tail && all[|all| - |tail|..] == tail;
    assert SavedScan(e, all, next, s);
  }

  lemma StepCovered<S(!new), R, O>(e: Engine<S, R, O>, w: World<S, R, O>, a: Action<R>)
    requires Covered(e, w.log, w.effects) && Honest(w)
    ensures var w' := Next(e, w, a); Covered(e, w'.log, w'.effects) && Honest(w')
  {
    hide Covered, Consume, Recover, GapFree, GoLive, WasCommitted;
    match a
    case Append(record) => LongerCovered(e, w.log, w.effects, record);
    case Crash =>
    case Start(s) => GoLiveCovered(e, w, RecoveryOf(e, w, s), s.weather);
    case Poll(admitted, weather) =>
      if w.worker.Some? && w.worker.value.next < |w.log| {
        var k := w.worker.value;
        ConsumeCovered(e, w.log, w.effects, k.state, k.committed, k.next, admitted, weather);
        ConsumeHonest(e.step, w.effects, k.state, k.committed, k.next, w.log[k.next], admitted, weather);
      }
  }

  /**
    In every run, with failures and crashes anywhere: a checkpoint is saved only right after every output it covers was
    published, those of a record or those of a startup scan; and past a repeat only if the repeated record was committed.
   */
  lemma {:induction false} SavesComeAfter<S(!new), R, O>(e: Engine<S, R, O>, w: World<S, R, O>, actions: seq<Action<R>>)
    requires Covered(e, w.log, w.effects) && Honest(w)
    ensures Covered(e, Run(e, w, actions).log, Run(e, w, actions).effects)
    decreases |actions|
  {
    hide Covered, Next, Honest;
    if actions != [] {
      StepCovered(e, w, actions[0]);
      SavesComeAfter(e, Next(e, w, actions[0]), actions[1..]);
    }
  }

  // ---------- Consuming ----------

  /** Nothing stands in the way of checkpointing a record: it is processed, published, and no repeat of something uncommitted. */
  ghost predicate Covers<S, R, O>(step: Stepper<S, R, O>, s: S, committed: seq<nat>, offset: nat, record: R, admitted: bool,
                                  weather: Weather)
  {
    var status := step(s, offset, record).status;
    && admitted && !status.Threw? && (forall i :: 0 <= i < |OutputsOf(status)| ==> weather.publish(i))
    && (status.Repeated? ==> 0 <= status.originalOffset && status.originalOffset in committed)
  }

  /** A record is checkpointed, and then committed and remembered as such, exactly if nothing stands in the way. */
  lemma ConsumesIff<S, R, O>(step: Stepper<S, R, O>, s: S, committed: seq<nat>, offset: nat, record: R, admitted: bool, weather: Weather)
    ensures var c := Consume(step, s, committed, offset, record, admitted, weather);
            var covers := Covers(step, s, committed, offset, record, admitted, weather);
            && ((exists x <- c.effects :: x.Saved?) <==> covers && weather.save)
            && ((exists x <- c.effects :: x.Committed?) <==> covers && weather.save && weather.commit)
            && (c.status == ProcessedOk <==> covers && weather.save && weather.commit)
            && (forall o :: o in c.committed <==> o in committed || (o == offset && c.status == ProcessedOk))
            && c.state == if admitted then step(s, offset, record).state else s
  {
    hide Published;
    var outputs := OutputsOf(step(s, offset, record).status);
    PublishedQuiet<S, O>(offset, outputs, weather.publish, 0);
    var c := Consume(step, s, committed, offset, record, admitted, weather);
    if Covers(step, s, committed, offset, record, admitted, weather) && weather.save {
      var n := |Published<S, O>(offset, outputs, weather.publish, 0)|;
      assert c.effects[n].Saved? && c.effects[n] in c.effects;
      if weather.commit { assert c.effects[n + 1].Committed? && c.effects[n + 1] in c.effects; }
    }
  }

  // ---------- Replaying any polls ----------

  /** The state after applying some polled records. */
  function Applied<S, R, O>(step: Stepper<S, R, O>, s: S, polls: seq<Poll<R>>): S
    requires forall p <- polls :: p.Got?
    decreases |polls|
  {
    if polls == [] then s
    else
      assert polls[0] in polls;
      Applied(step, step(s, polls[0].offset, polls[0].record).state, polls[1..])
  }

  /** Why replay stopped at a poll, if it did not fail by an exception: out of records, or at the watermark. */
  ghost predicate Stopped<S, R>(r: ReplayResult<S>, high: nat, polls: seq<Poll<R>>, n: nat) {
    && n <= |polls| && (forall i :: 0 <= i < n ==> polls[i].Got? && polls[i].sameSource && polls[i].offset < high)
    && (r.status == Replayed && !r.caughtUp ==> r.next < high && (n == |polls| || polls[n].NoRecord?))
    && (r.status == Replayed && r.caughtUp ==>
          r.next >= high || (n < |polls| && polls[n].Got? && polls[n].sameSource && polls[n].offset >= high))
    && (r.caughtUp ==> r.status == Replayed)
  }

  ghost predicate Failed<S, R, O>(step: Stepper<S, R, O>, s: S, p: Poll<R>) {
    p.PollError? || (p.Got? && (!p.sameSource || step(s, p.offset, p.record).status.Threw?))
  }

  ghost predicate Consumes<S, R, O>(step: Stepper<S, R, O>, s: S, high: nat, polls: seq<Poll<R>>, r: ReplayResult<S>, n: nat) {
    && Stopped(r, high, polls, n)
    && (forall p <- polls[..n] :: p.Got?)
    && (r.status == Replayed ==> r.state == Applied(step, s, polls[..n]))
    && (r.status == ReplayFailed ==> n < |polls| && Failed(step, Applied(step, s, polls[..n]), polls[n]))
  }

  /**
    Whatever the consumer gives: replay applies a front part of it, records of its own source below the watermark only, each
    once and in order, and stops where records end or the watermark is reached, or fails on an error, on a foreign record or
    on an exception.
   */
  lemma {:induction false} ReplayConsumes<S, R, O>(step: Stepper<S, R, O>, s: S, next: nat, high: nat, polls: seq<Poll<R>>, count: nat)
    ensures var r := Replay(step, s, next, high, polls, count);
            r.replayed >= count && Consumes(step, s, high, polls, r, r.replayed - count)
    decreases |polls|
  {
    var r := Replay(step, s, next, high, polls, count);
    assert polls[..0] == [];
    if next < high && polls != [] && polls[0].Got? && polls[0].sameSource && polls[0].offset < high {
      var p := step(s, polls[0].offset, polls[0].record);
      if !p.status.Threw? {
        ReplayConsumes(step, p.state, polls[0].offset + 1, high, polls[1..], count + 1);
        ConsumesOne(step, s, high, polls, r, r.replayed - count);
      }
    }
  }

  lemma ConsumesOne<S, R, O>(step: Stepper<S, R, O>, s: S, high: nat, polls: seq<Poll<R>>, r: ReplayResult<S>, n: nat)
    requires polls != [] && polls[0].Got? && polls[0].sameSource && polls[0].offset < high && n > 0
    requires Consumes(step, step(s, polls[0].offset, polls[0].record).state, high, polls[1..], r, n - 1)
    ensures Consumes(step, s, high, polls, r, n)
  {
    var rest := polls[1..];
    assert polls[..n] == [polls[0]] + rest[..n - 1];
    assert polls[..n][1..] == rest[..n - 1];
    assert forall i :: 0 < i < |polls| ==> polls[i] == rest[i - 1];
    assert n < |polls| ==> polls[n] == rest[n - 1];
  }

  // ---------- Recovering ----------

  /** The conditions before replay: something loadable of the same source, a sane watermark around it, a restore, a seek. */
  ghost predicate Ready<S(!new)>(load: Load<S>, watermark: Option<Watermark>, restore: S -> Option<S>, seek: bool) {
    && !load.LoadError? && (load.Loaded? ==> load.sameSource)
    && watermark.Some? && 0 <= watermark.value.low <= watermark.value.high
    && (load.Loaded? ==> watermark.value.low <= load.next <= watermark.value.high && restore(load.state).Some?)
    && seek
  }

  /**
    Over a gap-free log, recovery goes live exactly if what it needs is ready, and the consumer hands out every record from the
    start up to the watermark and none of them throws.
   */
  lemma RecoversIff<S(!new), R, O>(step: Stepper<S, R, O>, initial: S, load: Load<S>, watermark: Option<Watermark>,
                                   restore: S -> Option<S>, seek: bool, polls: seq<Poll<R>>, log: seq<R>)
    requires watermark.Some? ==> watermark.value.high <= |log|
    requires watermark.Some? && 0 <= StartOffset(load, watermark.value.low) ==>
               GapFree(polls, log, StartOffset(load, watermark.value.low))
    ensures var r := Recover(step, initial, load, watermark, restore, seek, polls);
            Fit(r.status) && r.caughtUp <==>
              && Ready(load, watermark, restore, seek)
              && var start, high := StartOffset(load, watermark.value.low), watermark.value.high;
                 HandsOut(polls, high - start) && NoneThrows(step, Base(initial, load, restore), log, start, high)
  {
    hide Replay, GapFree, HandsOut, NoneThrows;
    if Ready(load, watermark, restore, seek) {
      var start, high := StartOffset(load, watermark.value.low), watermark.value.high;
      var s := Base(initial, load, restore);
      CaughtUpIff(step, s, log, start, high, polls, 0);
      ReplayFolds(step, s, log, start, high, polls, 0);
      NothingToDo(step, s, log, start, polls);
    }
  }

  lemma NothingToDo<S, R, O>(step: Stepper<S, R, O>, s: S, log: seq<R>, at: nat, polls: seq<Poll<R>>)
    requires at <= |log|
    ensures HandsOut(polls, 0) && NoneThrows(step, s, log, at, at)
  {
  }

  /** Each condition that fails is reported as what it is, the first of them in the order in which they are looked at. */
  lemma FailureNamed<S(!new), R, O>(step: Stepper<S, R, O>, initial: S, load: Load<S>, watermark: Option<Watermark>,
                                    restore: S -> Option<S>, seek: bool, polls: seq<Poll<R>>)
    ensures var s := Recover(step, initial, load, watermark, restore, seek, polls).status;
            && (s == LoadFailed <==> load.LoadError?)
            && (s == SourceMismatch <==> load.Loaded? && !load.sameSource)
            && (s == LoadFailed || s == SourceMismatch || (s == WatermarkUnavailable <==> watermark.None?))
            && (watermark.Some? && s != LoadFailed && s != SourceMismatch ==>
                  && (s == InvalidWatermark <==> !(0 <= watermark.value.low <= watermark.value.high))
                  && (s != InvalidWatermark ==>
                        && (s == BelowLow <==> load.Loaded? && load.next < watermark.value.low)
                        && (s == AboveHigh <==> load.Loaded? && load.next > watermark.value.high)
                        && (s != BelowLow && s != AboveHigh ==>
                              && (s == RestoreFailed <==> load.Loaded? && restore(load.state).None?)
                              && (s != RestoreFailed ==> (s == SeekFailed <==> !seek)))))
  {
    hide Replay;
  }
}
