/**
  The checkpoint that is loaded is the one that was saved last.  The store keeps one file per checkpointed offset and loads
  the greatest name; over any run, saved offsets never decrease, so the two agree.
 */
module CheckpointFiles {
  import opened Types
  import opened Protocol
  import opened ProtocolRuns
  import opened Publications
  import opened JsonSpec
  import opened FileNames

  /** The last checkpoint that was saved. */
  ghost function LastSaved<S, O>(effects: seq<Effect<S, O>>): Option<Checkpoint<S>> {
    if effects == [] then None
    else
      var last := effects[|effects| - 1];
      if last.Saved? then Some(Checkpoint(last.next, last.state)) else LastSaved(effects[..|effects| - 1])
  }

  /** Saved offsets never decrease. */
  ghost predicate SavesAscend<S, O>(effects: seq<Effect<S, O>>) {
    forall i, j :: 0 <= i < j < |effects| && effects[i].Saved? && effects[j].Saved? ==> effects[i].next <= effects[j].next
  }

  lemma {:induction false} LastSavedAppend<S, O>(a: seq<Effect<S, O>>, b: seq<Effect<S, O>>)
    ensures LastSaved(a + b) == if LastSaved(b).Some? then LastSaved(b) else LastSaved(a)
  {
    if b == [] {
      assert a + b == a;
    } else {
      var front := b[..|b| - 1];
      LastSavedAppend(a, front);
      assert (a + b)[..|a + b| - 1] == a + front;
    }
  }

  lemma {:induction false} NoneSaved<S, O>(effects: seq<Effect<S, O>>)
    requires forall x <- effects :: !x.Saved?
    ensures LastSaved(effects) == None
  {
    if effects != [] {
      assert effects[|effects| - 1] in effects;
      NoneSaved(effects[..|effects| - 1]);
    }
  }

  // ---------- Over a run ----------

  /** Everything saved is at or below the checkpoint, which was saved last and is not ahead of the next live record. */
  ghost predicate Tidy<S, R, O>(w: World<S, R, O>) {
    && Behind(w) && SavesAscend(w.effects) && LastSaved(w.effects) == w.checkpoint
    && (forall x <- w.effects :: x.Saved? ==> w.checkpoint.Some? && x.next <= w.checkpoint.value.next)
    && (w.checkpoint.Some? ==> w.checkpoint.value.next <= Frontier(w))
  }

  /** New effects that save at most one offset, not below the checkpoint. */
  lemma SavedMore<S, O>(a: seq<Effect<S, O>>, b: seq<Effect<S, O>>, before: Option<Checkpoint<S>>, n: nat)
    requires SavesAscend(a) && LastSaved(a) == before
    requires forall x <- a :: x.Saved? ==> before.Some? && x.next <= before.value.next
    requires forall x <- b :: x.Saved? ==> x.next == n
    requires before.Some? ==> before.value.next <= n
    ensures SavesAscend(a + b) && LastSaved(a + b) == if LastSaved(b).Some? then LastSaved(b) else before
    ensures forall x <- a + b :: x.Saved? ==> x.next <= n
  {
    hide LastSaved;
    LastSavedAppend(a, b);
    var c := a + b;
    forall i, j | 0 <= i < j < |c| && c[i].Saved? && c[j].Saved? ensures c[i].next <= c[j].next {
      assert c[j] in (if j < |a| then a else b) && c[i] in (if i < |a| then a else b);
    }
  }

  lemma {:induction false} SavedIn<S, O>(effects: seq<Effect<S, O>>, n: nat)
    requires forall x <- effects :: x.Saved? ==> x.next == n
    ensures LastSaved(effects).Some? ==> LastSaved(effects).value.next == n
    ensures LastSaved(effects).None? ==> forall x <- effects :: !x.Saved?
  {
    if effects != [] {
      var front, last := effects[..|effects| - 1], effects[|effects| - 1];
      assert effects == front + [last] && last in effects;
      SavedIn(front, n);
    }
  }

  lemma ConsumeSaves<S, R, O>(step: Stepper<S, R, O>, s: S, committed: seq<nat>, offset: nat, record: R, admitted: bool,
                              weather: Weather)
    ensures var c := Consume(step, s, committed, offset, record, admitted, weather);
            && (forall x <- c.effects :: x.Saved? ==> x.next == offset + 1)
            && LastSaved(c.effects) == if c.status == ProcessedOk || c.status == CommitFailed
                                       then Some(Checkpoint(offset + 1, c.state)) else None
  {
    hide Published, AllPublished, LastSaved;
    var p := step(s, offset, record);
    var produced := Published<S, O>(offset, OutputsOf(p.status), weather.publish, 0);
    PublishedQuiet<S, O>(offset, OutputsOf(p.status), weather.publish, 0);
    NoneSaved(produced);
    NoneSaved<S, O>([]);
    var saved: seq<Effect<S, O>> := [Saved(offset + 1, p.state)];
    var committed': seq<Effect<S, O>> := [Committed(offset)];
    OneSaved<S, O>(offset + 1, p.state);
    NoneSaved(committed');
    LastSavedAppend(produced, saved);
    LastSavedAppend(produced + saved, committed');
  }

  lemma OneSaved<S, O>(next: nat, s: S)
    ensures LastSaved<S, O>([Saved(next, s)]) == Some(Checkpoint(next, s))
  {
  }

  lemma GoLiveTidy<S, R, O>(e: Engine<S, R, O>, w: World<S, R, O>, r: Recovered<S>, weather: Weather)
    requires Tidy(w) && w.worker.None? && r.next == |w.log|
    ensures Tidy(GoLive(e, w, r, weather))
  {
    hide LastSaved, SavesAscend, Announcements, AllPublished;
    var scanned := e.scan(r.state);
    var announced := Announcements<S, O>(scanned.outputs, weather.publish, 0);
    AnnouncedQuiet<S, O>(scanned.outputs, weather.publish, 0);
    NoneSaved(announced);
    SavedMore(w.effects, announced, w.checkpoint, |w.log|);
    QuietStays(w.effects, announced, w.checkpoint);
    OneSaved<S, O>(r.next, scanned.state);
    SavedMore(w.effects + announced, [Saved(r.next, scanned.state)], w.checkpoint, |w.log|);
  }

  lemma QuietStays<S, O>(a: seq<Effect<S, O>>, b: seq<Effect<S, O>>, before: Option<Checkpoint<S>>)
    requires forall x <- a :: x.Saved? ==> before.Some? && x.next <= before.value.next
    requires forall x <- b :: !x.Saved?
    ensures forall x <- a + b :: x.Saved? ==> before.Some? && x.next <= before.value.next
  {
  }

  lemma StepTidy<S, R, O>(e: Engine<S, R, O>, w: World<S, R, O>, a: Action<R>)
    requires Tidy(w)
    ensures Tidy(Next(e, w, a))
  {
    hide GapFree, Recover, LastSaved, SavesAscend, Consume, GoLive;
    match a
    case Append(_) =>
    case Crash =>
    case Start(s) =>
      if w.worker.None? && GapFree(s.polls, w.log, StartAt(e.low, w.checkpoint)) && RecoveryOf(e, w, s).caughtUp {
        RecoveryReaches(e, w, s);
        GoLiveTidy(e, w, RecoveryOf(e, w, s), s.weather);
      }
    case Poll(admitted, weather) =>
      if w.worker.Some? && w.worker.value.next < |w.log| { PollTidy(e, w, admitted, weather); }
  }

  lemma PollTidy<S, R, O>(e: Engine<S, R, O>, w: World<S, R, O>, admitted: bool, weather: Weather)
    requires Tidy(w) && w.worker.Some? && w.worker.value.next < |w.log|
    ensures Tidy(Next(e, w, Poll(admitted, weather)))
  {
    hide LastSaved, SavesAscend, Consume;
    var k := w.worker.value;
    var c := Consume(e.step, k.state, k.committed, k.next, w.log[k.next], admitted, weather);
    ConsumeSaves(e.step, k.state, k.committed, k.next, w.log[k.next], admitted, weather);
    SavedMore(w.effects, c.effects, w.checkpoint, k.next + 1);
    SavedIn(c.effects, k.next + 1);
    if LastSaved(c.effects).None? { QuietStays(w.effects, c.effects, w.checkpoint); }
  }

  lemma {:induction false} RunTidy<S, R, O>(e: Engine<S, R, O>, w: World<S, R, O>, actions: seq<Action<R>>)
    requires Tidy(w)
    ensures Tidy(Run(e, w, actions))
    decreases |actions|
  {
    hide Tidy, Next;
    if actions != [] {
      StepTidy(e, w, actions[0]);
      RunTidy(e, Next(e, w, actions[0]), actions[1..]);
    }
  }

  // ---------- Files ----------

  function NameFor(source: string, next: nat): string {
    FileName(CheckpointId(source, next))
  }

  /** The directory after some effects: a save replaces the file of its name. */
  ghost function Files<S, O>(source: string, effects: seq<Effect<S, O>>): map<string, Checkpoint<S>> {
    if effects == [] then map[]
    else
      var last, files := effects[|effects| - 1], Files(source, effects[..|effects| - 1]);
      if last.Saved? then files[NameFor(source, last.next) := Checkpoint(last.next, last.state)] else files
  }

  /** The file that is loaded: the one with the greatest name. */
  ghost predicate Latest<S>(files: map<string, Checkpoint<S>>, name: string) {
    name in files && forall other <- files :: other == name || Less(other, name)
  }

  lemma {:induction false} FilesOfSaves<S, O>(source: string, effects: seq<Effect<S, O>>)
    ensures forall name <- Files(source, effects) ::
              exists x <- effects :: x.Saved? && NameFor(source, x.next) == name
    ensures LastSaved(effects).Some? ==>
              var c := LastSaved(effects).value;
              NameFor(source, c.next) in Files(source, effects) && Files(source, effects)[NameFor(source, c.next)] == c
    ensures LastSaved(effects).None? ==> Files(source, effects) == map[]
  {
    hide NameFor;
    if effects != [] {
      var front, last := effects[..|effects| - 1], effects[|effects| - 1];
      assert effects == front + [last];
      FilesOfSaves(source, front);
    }
  }

  /**
    Over any run, with failures, crashes and restarts anywhere: saved offsets never decrease, and the file with the greatest
    name in the directory is the checkpoint from which the next worker recovers; there is none exactly if nothing was saved.
   */
  lemma LatestIsLast<S, R, O>(e: Engine<S, R, O>, log: seq<R>, actions: seq<Action<R>>, source: string)
    requires |Run(e, Empty(log), actions).log| < Pow10(20)
    ensures var w := Run(e, Empty(log), actions);
            var files := Files(source, w.effects);
            && SavesAscend(w.effects)
            && (w.checkpoint.None? ==> files == map[])
            && (w.checkpoint.Some? ==>
                  var name := NameFor(source, w.checkpoint.value.next);
                  Latest(files, name) && files[name] == w.checkpoint.value)
  {
    hide Run, LastSaved, SavesAscend, Files, Less, NameFor, Pow10;
    NothingSaved<S, R, O>(log);
    RunTidy(e, Empty(log), actions);
    var w := Run(e, Empty(log), actions);
    var files := Files(source, w.effects);
    FilesOfSaves(source, w.effects);
    if w.checkpoint.Some? {
      var next := w.checkpoint.value.next;
      forall other <- files ensures other == NameFor(source, next) || Less(other, NameFor(source, next)) {
        var x :| x in w.effects && x.Saved? && NameFor(source, x.next) == other;
        if x.next < next { NamesLess(source, x.next, next); }
      }
    }
  }

  lemma NothingSaved<S, R, O>(log: seq<R>)
    ensures Tidy(Empty<S, R, O>(log))
  {
  }

  lemma NamesLess(source: string, a: nat, b: nat)
    requires a < b < Pow10(20)
    ensures Less(NameFor(source, a), NameFor(source, b))
  {
    hide Less, FileName, CheckpointId, Pow10;
    NamesInOffsetOrder(source, a, b);
  }
}
