/**
  What gets published over a whole run: a record is consumed live at most once, replay is silent, and so the publications
  of a record are those of its one live consumption, or none at all.
 */
module Publications {
  import opened Types
  import opened Protocol
  import opened ProtocolRuns

  /** A record that a worker processed live: its offset, its outputs, and which of their publications succeed. */
  datatype Live<S, O> = Live(offset: nat, state: S, outputs: seq<O>, publish: nat -> bool)

  /** The live consumption that an action brings about, if any. */
  ghost function LiveIn<S, R, O>(e: Engine<S, R, O>, w: World<S, R, O>, a: Action<R>): seq<Live<S, O>> {
    if !a.Poll? || !a.admitted || w.worker.None? || w.worker.value.next >= |w.log| then []
    else
      var k := w.worker.value;
      var status := e.step(k.state, k.next, w.log[k.next]).status;
      if status.Threw? then [] else [Live(k.next, k.state, OutputsOf(status), a.weather.publish)]
  }

  /** All live consumptions of a run, in order. */
  ghost function Lives<S, R, O>(e: Engine<S, R, O>, w: World<S, R, O>, actions: seq<Action<R>>): seq<Live<S, O>>
    decreases |actions|
  {
    if actions == [] then [] else LiveIn(e, w, actions[0]) + Lives(e, Next(e, w, actions[0]), actions[1..])
  }

  /** What was published for a record, in order. */
  ghost function Productions<S, O>(effects: seq<Effect<S, O>>, offset: nat): seq<Effect<S, O>> {
    if effects == [] then []
    else (if effects[0].Produced? && effects[0].offset == offset then [effects[0]] else []) + Productions(effects[1..], offset)
  }

  /** What the live consumptions of a record publish. */
  ghost function FromLives<S, O>(lives: seq<Live<S, O>>, offset: nat): seq<Effect<S, O>> {
    if lives == [] then []
    else (if lives[0].offset == offset then Published(offset, lives[0].outputs, lives[0].publish, 0) else [])
         + FromLives(lives[1..], offset)
  }

  lemma {:induction false} ProductionsAppend<S, O>(a: seq<Effect<S, O>>, b: seq<Effect<S, O>>, offset: nat)
    ensures Productions(a + b, offset) == Productions(a, offset) + Productions(b, offset)
  {
    if a == [] {
      assert a + b == b;
    } else {
      assert (a + b)[1..] == a[1..] + b;
      ProductionsAppend(a[1..], b, offset);
    }
  }

  lemma {:induction false} NoProductions<S, O>(effects: seq<Effect<S, O>>, offset: nat)
    requires forall x <- effects :: x.Produced? ==> x.offset != offset
    ensures Productions(effects, offset) == []
  {
    if effects != [] {
      assert effects[0] in effects;
      NoProductions(effects[1..], offset);
    }
  }

  lemma {:induction false} OnlyProductions<S, O>(effects: seq<Effect<S, O>>, offset: nat)
    requires forall x <- effects :: x.Produced? && x.offset == offset
    ensures Productions(effects, offset) == effects
  {
    if effects != [] {
      assert effects[0] in effects;
      OnlyProductions(effects[1..], offset);
      assert effects == [effects[0]] + effects[1..];
    }
  }

  lemma {:induction false} FromLivesAppend<S, O>(a: seq<Live<S, O>>, b: seq<Live<S, O>>, offset: nat)
    ensures FromLives(a + b, offset) == FromLives(a, offset) + FromLives(b, offset)
  {
    if a == [] {
      assert a + b == b;
    } else {
      assert (a + b)[1..] == a[1..] + b;
      FromLivesAppend(a[1..], b, offset);
    }
  }

  // ---------- One action ----------

  /** Consuming publishes exactly the successes among the outputs, and then at most saves and commits. */
  lemma ConsumeShape<S, R, O>(step: Stepper<S, R, O>, s: S, committed: seq<nat>, offset: nat, record: R, admitted: bool,
                              weather: Weather)
    returns (tail: seq<Effect<S, O>>)
    ensures var status := step(s, offset, record).status;
            var effects := Consume(step, s, committed, offset, record, admitted, weather).effects;
            && (forall x <- tail :: !x.Produced?)
            && effects == (if !admitted || status.Threw? then []
                           else Published<S, O>(offset, OutputsOf(status), weather.publish, 0)) + tail
  {
    hide Published, AllPublished;
    var p := step(s, offset, record);
    var status := Consume(step, s, committed, offset, record, admitted, weather).status;
    tail := if status == ProcessedOk then [Saved(offset + 1, p.state), Committed(offset)]
            else if status == CommitFailed then [Saved(offset + 1, p.state)] else [];
  }

  lemma ConsumeProductions<S, R, O>(step: Stepper<S, R, O>, s: S, committed: seq<nat>, at: nat, record: R, admitted: bool,
                                    weather: Weather, offset: nat)
    ensures var status := step(s, at, record).status;
            Productions(Consume(step, s, committed, at, record, admitted, weather).effects, offset)
            == if admitted && !status.Threw? && at == offset
               then Published<S, O>(at, OutputsOf(status), weather.publish, 0) else []
  {
    hide Consume, Published, Productions;
    var tail := ConsumeShape(step, s, committed, at, record, admitted, weather);
    NoProductions(tail, offset);
    var status := step(s, at, record).status;
    var effects := Consume(step, s, committed, at, record, admitted, weather).effects;
    if admitted && !status.Threw? {
      var produced := Published<S, O>(at, OutputsOf(status), weather.publish, 0);
      PublishedQuiet<S, O>(at, OutputsOf(status), weather.publish, 0);
      ProductionsAppend(produced, tail, offset);
      if at == offset { OnlyProductions(produced, offset); } else { NoProductions(produced, offset); }
    } else {
      assert [] + tail == tail;
    }
  }

  lemma GoLiveProductions<S, R, O>(e: Engine<S, R, O>, w: World<S, R, O>, r: Recovered<S>, weather: Weather, offset: nat)
    ensures Productions(GoLive(e, w, r, weather).effects, offset) == Productions(w.effects, offset)
  {
    hide Productions, Announcements, AllPublished;
    var scanned := e.scan(r.state);
    var announced := Announcements<S, O>(scanned.outputs, weather.publish, 0);
    AnnouncedQuiet<S, O>(scanned.outputs, weather.publish, 0);
    NoProductions(announced, offset);
    ProductionsAppend(w.effects, announced, offset);
    var saved: seq<Effect<S, O>> := [Saved(r.next, scanned.state)];
    NoProductions(saved, offset);
    ProductionsAppend(w.effects + announced, saved, offset);
  }

  lemma StepProductions<S, R, O>(e: Engine<S, R, O>, w: World<S, R, O>, a: Action<R>, offset: nat)
    ensures Productions(Next(e, w, a).effects, offset) == Productions(w.effects, offset) + FromLives(LiveIn(e, w, a), offset)
  {
    hide Productions, Consume, Recover, GapFree, GoLive, Published;
    OneLive(e, w, a, offset);
    match a
    case Append(_) =>
    case Crash =>
    case Start(s) => GoLiveProductions(e, w, RecoveryOf(e, w, s), s.weather, offset);
    case Poll(admitted, weather) =>
      if w.worker.Some? && w.worker.value.next < |w.log| {
        var k := w.worker.value;
        ConsumeProductions(e.step, k.state, k.committed, k.next, w.log[k.next], admitted, weather, offset);
        ProductionsAppend(w.effects, Consume(e.step, k.state, k.committed, k.next, w.log[k.next], admitted, weather).effects,
                          offset);
      }
  }

  lemma OneLive<S, R, O>(e: Engine<S, R, O>, w: World<S, R, O>, a: Action<R>, offset: nat)
    ensures var lives := LiveIn(e, w, a);
            FromLives(lives, offset)
            == if lives != [] && lives[0].offset == offset then Published(offset, lives[0].outputs, lives[0].publish, 0) else []
  {
    hide Published;
    var lives := LiveIn(e, w, a);
    if lives != [] { assert lives[1..] == []; }
  }

  /** Over any run, a record's publications are those of its live consumptions: recovery and replay publish nothing for it. */
  lemma {:induction false} RunProductions<S, R, O>(e: Engine<S, R, O>, w: World<S, R, O>, actions: seq<Action<R>>, offset: nat)
    ensures Productions(Run(e, w, actions).effects, offset)
            == Productions(w.effects, offset) + FromLives(Lives(e, w, actions), offset)
    decreases |actions|
  {
    hide Productions, FromLives, Next, LiveIn;
    if actions == [] {
      assert FromLives<S, O>([], offset) == [] by { NoLives<S, O>(offset); }
    } else {
      StepProductions(e, w, actions[0], offset);
      var w' := Next(e, w, actions[0]);
      RunProductions(e, w', actions[1..], offset);
      FromLivesAppend(LiveIn(e, w, actions[0]), Lives(e, w', actions[1..]), offset);
    }
  }

  lemma NoLives<S, O>(offset: nat)
    ensures FromLives<S, O>([], offset) == []
  {
  }

  // ---------- Live at most once ----------

  /** Where the next live consumption can be, at the earliest. */
  function Frontier<S, R, O>(w: World<S, R, O>): nat {
    if w.worker.Some? then w.worker.value.next else |w.log|
  }

  predicate Behind<S, R, O>(w: World<S, R, O>) {
    Frontier(w) <= |w.log|
  }

  lemma StepAdvances<S, R, O>(e: Engine<S, R, O>, w: World<S, R, O>, a: Action<R>)
    requires Behind(w)
    ensures var w' := Next(e, w, a); Behind(w') && Frontier(w) <= Frontier(w')
    ensures LiveIn(e, w, a) != [] ==> LiveIn(e, w, a)[0].offset == Frontier(w) < Frontier(Next(e, w, a))
  {
    hide GapFree, Recover, Published, Announcements, AllPublished;
    match a
    case Append(_) =>
    case Crash =>
    case Start(s) =>
      if w.worker.None? && GapFree(s.polls, w.log, StartAt(e.low, w.checkpoint)) && RecoveryOf(e, w, s).caughtUp {
        RecoveryReaches(e, w, s);
      }
    case Poll(_, _) =>
  }

  ghost predicate Ascend<S, O>(lives: seq<Live<S, O>>, from: nat) {
    && (forall i :: 0 <= i < |lives| ==> from <= lives[i].offset)
    && (forall i, j :: 0 <= i < j < |lives| ==> lives[i].offset < lives[j].offset)
  }

  /** Over any run, with crashes and restarts anywhere, records are consumed live in ascending order, each at most once. */
  lemma {:induction false} LiveOnce<S, R, O>(e: Engine<S, R, O>, w: World<S, R, O>, actions: seq<Action<R>>)
    requires Behind(w)
    ensures Ascend(Lives(e, w, actions), Frontier(w))
    decreases |actions|
  {
    hide Next, Frontier, Behind;
    if actions != [] {
      StepAdvances(e, w, actions[0]);
      LiveOnce(e, Next(e, w, actions[0]), actions[1..]);
    }
  }

  lemma {:induction false} NotAmong<S, O>(lives: seq<Live<S, O>>, offset: nat)
    requires forall i :: 0 <= i < |lives| ==> lives[i].offset != offset
    ensures FromLives(lives, offset) == []
  {
    if lives != [] { NotAmong(lives[1..], offset); }
  }

  lemma FromMiddle<S, O>(before: seq<Live<S, O>>, live: Live<S, O>, after: seq<Live<S, O>>)
    requires FromLives(before, live.offset) == [] && FromLives(after, live.offset) == []
    ensures FromLives(before + ([live] + after), live.offset) == Published(live.offset, live.outputs, live.publish, 0)
  {
    hide FromLives, Published;
    FromLivesAppend(before, [live] + after, live.offset);
    FromLivesAppend([live], after, live.offset);
    JustOne(live);
  }

  lemma FromTheOne<S, O>(lives: seq<Live<S, O>>, from: nat, k: nat)
    requires Ascend(lives, from) && k < |lives|
    ensures FromLives(lives, lives[k].offset) == Published(lives[k].offset, lives[k].outputs, lives[k].publish, 0)
  {
    hide FromLives, Published, Ascend;
    Apart(lives, from, k);
    FromMiddle(lives[..k], lives[k], lives[k + 1..]);
    assert lives == lives[..k] + ([lives[k]] + lives[k + 1..]);
  }

  /** Nothing before or after a live consumption publishes for its offset. */
  lemma Apart<S, O>(lives: seq<Live<S, O>>, from: nat, k: nat)
    requires Ascend(lives, from) && k < |lives|
    ensures FromLives(lives[..k], lives[k].offset) == [] && FromLives(lives[k + 1..], lives[k].offset) == []
  {
    hide FromLives;
    NotAmong(lives[..k], lives[k].offset);
    NotAmong(lives[k + 1..], lives[k].offset);
  }

  lemma JustOne<S, O>(live: Live<S, O>)
    ensures FromLives([live], live.offset) == Published(live.offset, live.outputs, live.publish, 0)
  {
    hide Published;
    assert [live][1..] == [];
  }

  lemma {:induction false} PublishedCount<S, O>(offset: nat, outputs: seq<O>, publish: nat -> bool, i: nat)
    requires i <= |outputs|
    ensures |Published<S, O>(offset, outputs, publish, i)| <= |outputs| - i
    ensures |Published<S, O>(offset, outputs, publish, i)| == |outputs| - i ==> forall j :: i <= j < |outputs| ==> publish(j)
    decreases |outputs| - i
  {
    if i < |outputs| { PublishedCount<S, O>(offset, outputs, publish, i + 1); }
  }

  /**
    Over any run: if a worker consumed the record live, then its publications are exactly the successes of that one
    consumption, and they are all of its outputs if and only if every publication succeeded.
   */
  lemma PublishedIff<S, R, O>(e: Engine<S, R, O>, w: World<S, R, O>, actions: seq<Action<R>>, k: nat)
    requires Behind(w) && k < |Lives(e, w, actions)|
    requires Productions(w.effects, Lives(e, w, actions)[k].offset) == []
    ensures var live := Lives(e, w, actions)[k];
            var published := Productions(Run(e, w, actions).effects, live.offset);
            && published == Published(live.offset, live.outputs, live.publish, 0)
            && (published == AllProduced(live.offset, live.outputs) <==> AllPublished(|live.outputs|, live.publish))
  {
    hide Productions, FromLives, Next, Frontier, Behind;
    var lives := Lives(e, w, actions);
    var live := lives[k];
    RunProductions(e, w, actions, live.offset);
    LiveOnce(e, w, actions);
    FromTheOne(lives, Frontier(w), k);
    if AllPublished(|live.outputs|, live.publish) {
      PublishedAll<S, O>(live.offset, live.outputs, live.publish, 0);
    }
    PublishedCount<S, O>(live.offset, live.outputs, live.publish, 0);
  }

  /** Over any run: a record that no worker consumed live has nothing published for it, replayed or not. */
  lemma NeverLive<S, R, O>(e: Engine<S, R, O>, w: World<S, R, O>, actions: seq<Action<R>>, offset: nat)
    requires forall k :: 0 <= k < |Lives(e, w, actions)| ==> Lives(e, w, actions)[k].offset != offset
    ensures Productions(Run(e, w, actions).effects, offset) == Productions(w.effects, offset)
  {
    hide Productions, FromLives, Next;
    RunProductions(e, w, actions, offset);
    NotAmong(Lives(e, w, actions), offset);
  }

  /** Once the frontier has passed a record, nothing is ever published for it again. */
  lemma NothingMore<S, R, O>(e: Engine<S, R, O>, w: World<S, R, O>, actions: seq<Action<R>>, offset: nat)
    requires Behind(w) && offset < Frontier(w)
    ensures Productions(Run(e, w, actions).effects, offset) == Productions(w.effects, offset)
  {
    hide Productions, Next, Frontier, Behind;
    LiveOnce(e, w, actions);
    NeverLive(e, w, actions, offset);
  }

  /**
    A recovery that goes live has passed every record below its watermark: neither it nor anything later publishes
    anything for the records it replayed.
   */
  lemma ReplayIsSilent<S, R, O>(e: Engine<S, R, O>, w: World<S, R, O>, s: Startup<R>, later: seq<Action<R>>, offset: nat)
    requires w.worker.None? && offset < |w.log|
    requires Next(e, w, Start(s)).worker.Some?
    ensures var live := Next(e, w, Start(s));
            && offset < live.worker.value.next == |w.log|
            && Productions(Run(e, live, later).effects, offset) == Productions(w.effects, offset)
  {
    hide Productions, Recover, GapFree, Run;
    var live := Next(e, w, Start(s));
    RecoveryReaches(e, w, s);
    StepProductions(e, w, Start(s), offset);
    NoLives<S, O>(offset);
    NothingMore(e, live, later, offset);
  }

  // ---------- Outputs that are lost ----------

  /** All outside steps succeed, except publications where `publish` is false. */
  function Conditions(publish: bool): Weather {
    Weather(_ => publish, true, true)
  }

  function Begin<R>(polls: seq<Poll<R>>): Action<R> {
    Start(Startup(true, true, true, polls, Conditions(true)))
  }

  /** A worker starts on an empty log, a record arrives, its publication fails, the worker dies, and another recovers. */
  function LosingRun<R>(low: nat, record: R): seq<Action<R>> {
    [Begin([]), Append(record), Poll(true, Conditions(false)), Crash, Begin([Got(true, low, record)])]
  }

  /**
    For every engine and record: if the publication of a record's outputs fails and the worker is restarted, the record is
    applied by the next worker and its outputs are never published, whatever happens later.
   */
  lemma LosesOutputs<S, R, O>(e: Engine<S, R, O>, log: seq<R>, record: R, later: seq<Action<R>>)
    requires |log| == e.low && e.scan(e.initial) == Scanned(e.initial, [])
    requires var p := e.step(e.initial, e.low, record);
             p.status.Done? && p.status.outputs != [] && e.scan(p.state) == Scanned(p.state, [])
    ensures var w := Run(e, Empty(log), LosingRun(e.low, record));
            && w.worker == Some(Worker(e.step(e.initial, e.low, record).state, e.low + 1, []))
            && Productions(Run(e, w, later).effects, e.low) == []
  {
    var p := e.step(e.initial, e.low, record);
    var w0: World<S, R, O> := Empty(log);
    var w1 := Next(e, w0, Begin([]));
    assert w1 == w0.(worker := Some(Worker(e.initial, e.low, [])));
    var w2 := Next(e, w1, Append(record));
    var w3 := Next(e, w2, Poll(true, Conditions(false)));
    NothingPublished<S, O>(e.low, p.status.outputs, 0);
    assert !Conditions(false).publish(0);
    assert w3 == World(log + [record], None, [], None);
    var polls := [Got(true, e.low, record)];
    assert polls[1..] == [];
    assert GapFree(polls, w3.log, e.low);
    var w4 := Next(e, w3, Begin(polls));
    var r := Replay(e.step, p.state, e.low + 1, e.low + 1, polls[1..], 1);
    assert w4 == w3.(worker := Some(Worker(p.state, e.low + 1, [])));
    RunLosing(e, w0, record);
    NothingMore(e, w4, later, e.low);
  }

  lemma {:induction false} NothingPublished<S, O>(offset: nat, outputs: seq<O>, i: nat)
    ensures Published<S, O>(offset, outputs, Conditions(false).publish, i) == []
    decreases |outputs| - i
  {
    if i < |outputs| { NothingPublished<S, O>(offset, outputs, i + 1); }
  }

  /** The five actions one by one. */
  lemma RunLosing<S, R, O>(e: Engine<S, R, O>, w: World<S, R, O>, record: R)
    ensures Run(e, w, LosingRun(e.low, record))
            == Next(e, Next(e, Next(e, Next(e, Next(e, w, Begin([])), Append(record)), Poll(true, Conditions(false))), Crash),
                    Begin([Got(true, e.low, record)]))
  {
    hide Next;
    var a := LosingRun(e.low, record);
    var w1 := Next(e, w, a[0]);
    var w2 := Next(e, w1, a[1]);
    var w3 := Next(e, w2, a[2]);
    var w4 := Next(e, w3, a[3]);
    RunFirst(e, w, a[0], a[1..]);
    RunFirst(e, w1, a[1], a[2..]);
    RunFirst(e, w2, a[2], a[3..]);
    RunFirst(e, w3, a[3], a[4..]);
    RunFirst(e, w4, a[4], []);
    assert a == [a[0]] + a[1..] && a[1..] == [a[1]] + a[2..] && a[2..] == [a[2]] + a[3..];
    assert a[3..] == [a[3]] + a[4..] && a[4..] == [a[4]] + [];
  }

  lemma RunFirst<S, R, O>(e: Engine<S, R, O>, w: World<S, R, O>, a: Action<R>, rest: seq<Action<R>>)
    ensures Run(e, w, [a] + rest) == Run(e, Next(e, w, a), rest)
    ensures Run(e, w, []) == w && Run(e, Next(e, w, a), []) == Next(e, w, a)
  {
    hide Next;
    assert ([a] + rest)[1..] == rest;
  }
}
