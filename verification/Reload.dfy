/**
 The game container around its configuration file (internal/quake/server/server.go, Start, reload
 and watchAndReload; pkg/exec/exec.go, Restart): the file's editor, the watcher's goroutine and the
 main loop as three processes. The debounce of the watcher is a timer that is armed or not; the
 Debounce module says when it fires.
 */
module Reload {
  import opened Wrappers

  /**
   What a reload makes of the contents of the configuration file: the server.cfg text, an error, or
   a panic that ends the program and with it the container.
   */
  datatype Outcome = Script(text: string) | Rejected | Panics

  type Compiler = string -> Outcome

  /** A file that cannot be read is an error like one that does not parse. */
  function Compile(compile: Compiler, file: Option<string>): Outcome {
    if file.Some? then compile(file.value) else Rejected
  }

  /** server.cfg as it lies on disk: a failed write may leave anything. */
  datatype Cfg = Absent | Text(text: string) | Torn(rest: string)

  // ---- reload ----

  /** How the file system answers one reload. `left` is what a failing write leaves behind. */
  datatype Disk = Disk(made: bool, written: bool, left: Cfg)

  class Host {
    var file: Option<string>
    var cfg: Cfg

    constructor (file: Option<string>)
      ensures this.file == file && cfg == Absent
    {
      this.file, cfg := file, Absent;
    }

    /**
     A reload that succeeds leaves the compiled file. One that fails to read, to parse or to make
     the directory, or that panics, leaves server.cfg as it was; only a failing write can damage it.
     */
    method Reload(compile: Compiler, disk: Disk) returns (ok: bool, panicked: bool)
      modifies this`cfg
      ensures panicked <==> Compile(compile, old(file)).Panics?
      ensures ok <==> Compile(compile, old(file)).Script? && disk.made && disk.written
      ensures ok ==> cfg == Text(Compile(compile, old(file)).text)
      ensures !ok ==> cfg == old(cfg) || (disk.made && !disk.written && cfg == disk.left)
    {
      ok, panicked := false, false;
      if file.None? {
        return;
      }
      match compile(file.value) {
        case Panics => panicked := true;
        case Rejected =>
        case Script(text) =>
          if disk.made && disk.written {
            cfg := Text(text);
            ok := true;
          } else if disk.made {
            cfg := disk.left;
          }
      }
    }
  }

  // ---- The three processes ----

  /** Where the main loop is. `first` marks the reload that Start makes before anything runs. */
  datatype Phase =
    | Reading(first: bool)
    | Making(first: bool, text: string)
    | Writing(first: bool, text: string)
    | Starting
    | Registering
    | Waiting
    | Killing
    | Respawning
    | Stopped
    | Panicked

  /**
   `version` is how often server.cfg had been touched when the process was started. `Exiting` has
   exited and not been waited for; it can still be killed, which `Exited` cannot.
   */
  datatype Process = Down | Up(version: nat, cfg: Cfg) | Exiting | Exited

  datatype Watcher = Watcher(watching: bool, events: nat, armed: bool)

  /**
   What has happened. `seen` is the contents that the last reload read. `edited`: the file has been
   edited since then; `dropped`: and a tick has been dropped after such an edit; `early`: and such
   an edit came before the watch; `failed`: that reload failed although the file parses; `torn`: a
   failing write has touched server.cfg since the process was started.
   */
  datatype Past = Past(seen: Option<Option<string>>, edited: bool, dropped: bool, early: bool, failed: bool,
                       torn: bool)

  /** `touched` counts the writes to server.cfg. */
  datatype State = State(compile: Compiler, file: Option<string>, watcher: Watcher, phase: Phase, cfg: Cfg,
                         touched: nat, process: Process, past: Past)

  function Init(compile: Compiler, file: Option<string>): State {
    State(compile, file, Watcher(false, 0, false), Reading(true), Absent, 0, Down,
          Past(None, false, false, false, false, false))
  }

  datatype Action =
    | Edit(contents: Option<string>)
    | HandleEvent
    | Tick
    | Exit
    | Reap
    | Main(ok: bool, left: Cfg)

  /** A reload that fails ends Start, but only costs the loop this one notification. */
  function GivenUp(first: bool): Phase { if first then Stopped else Waiting }

  /** A panic takes the game with it. */
  function Read(st: State, first: bool): State {
    var read := st.(past := Past(Some(st.file), false, false, false, false, st.past.torn));
    match Compile(st.compile, st.file)
    case Script(text) => read.(phase := Making(first, text))
    case Rejected => read.(phase := GivenUp(first))
    case Panics => read.(phase := Panicked, process := Down)
  }

  function Make(st: State, first: bool, text: string, ok: bool): State {
    if ok then st.(phase := Writing(first, text))
    else st.(phase := GivenUp(first), past := st.past.(failed := true))
  }

  function Write(st: State, first: bool, text: string, ok: bool, left: Cfg): State {
    if ok then
      st.(cfg := Text(text), touched := st.touched + 1, phase := if first then Starting else Killing)
    else if left == st.cfg then st.(phase := GivenUp(first), past := st.past.(failed := true))
    else st.(cfg := left, touched := st.touched + 1, phase := GivenUp(first),
             past := st.past.(failed := true, torn := true))
  }

  function Launch(st: State, next: Phase, ok: bool): State {
    if ok then st.(process := Up(st.touched, st.cfg), past := st.past.(torn := false), phase := next)
    else st.(phase := Stopped)
  }

  /** A process that has been waited for cannot be killed, and then the loop ends. */
  function Kill(st: State, ok: bool): State {
    if ok && (st.process.Up? || st.process.Exiting?) then st.(process := Down, phase := Respawning)
    else st.(phase := Stopped)
  }

  function MainStep(st: State, ok: bool, left: Cfg): State {
    match st.phase
    case Reading(first) => Read(st, first)
    case Making(first, text) => Make(st, first, text, ok)
    case Writing(first, text) => Write(st, first, text, ok, left)
    case Starting => Launch(st, Registering, ok)
    case Registering =>
      if ok then st.(watcher := st.watcher.(watching := true), phase := Waiting) else st.(phase := Stopped)
    case Waiting => st
    case Killing => Kill(st, ok)
    case Respawning => Launch(st, Waiting, ok)
    case Stopped => st
    case Panicked => st
  }

  /** An edit is an event when the file is watched, and goes unnoticed before. */
  function Edited(st: State, contents: Option<string>): State {
    var past := st.past.(edited := st.past.seen.Some?);
    if st.watcher.watching then
      st.(file := contents, past := past, watcher := st.watcher.(events := st.watcher.events + 1))
    else st.(file := contents, past := past.(early := st.past.early || st.past.seen.Some?))
  }

  function Handled(w: Watcher): Watcher { if w.events > 0 then Watcher(w.watching, w.events - 1, true) else w }

  /** The tick is taken by a loop that waits, and dropped by one that is busy. */
  function Ticked(st: State): State {
    var watcher := st.watcher.(armed := false);
    if !st.watcher.armed then st
    else if st.phase.Waiting? then st.(watcher := watcher, phase := Reading(false))
    else st.(watcher := watcher, past := st.past.(dropped := st.past.dropped || st.past.edited))
  }

  function Step(st: State, a: Action): State {
    match a
    case Edit(contents) => Edited(st, contents)
    case HandleEvent => st.(watcher := Handled(st.watcher))
    case Tick => Ticked(st)
    case Exit => if st.process.Up? then st.(process := Exiting) else st
    case Reap => if st.process.Exiting? then st.(process := Exited) else st
    case Main(ok, left) => MainStep(st, ok, left)
  }

  function Run(st: State, actions: seq<Action>): State
    decreases |actions|
  {
    if |actions| == 0 then st else Run(Step(st, actions[0]), actions[1..])
  }

  // ---- A failed reload ----

  predicate Reloading(p: Phase) { p.Reading? || p.Making? || p.Writing? }

  /** All along this run the reload is under way; at its end it need not be. */
  ghost predicate DuringReload(st: State, actions: seq<Action>)
    decreases |actions|
  {
    |actions| == 0 || (Reloading(st.phase) && DuringReload(Step(st, actions[0]), actions[1..]))
  }

  /** The same process; it may have exited by itself, and have been waited for. */
  predicate SameProcess(before: Process, after: Process) {
    after == before || (before.Up? && (after.Exiting? || after.Exited?)) || (before.Exiting? && after.Exited?)
  }

  /** What a reload leaves alone until its write. */
  predicate Untouched(before: State, after: State) {
    after.cfg == before.cfg && after.touched == before.touched && SameProcess(before.process, after.process)
  }

  lemma ReloadStep(start: State, st: State, a: Action)
    requires Reloading(st.phase) && Untouched(start, st)
    ensures var st' := Step(st, a);
            && (Reloading(st'.phase) ==> Untouched(start, st') && st'.phase.first == st.phase.first)
            && (st'.phase.Waiting? || st'.phase.Stopped? ==>
                  && SameProcess(start.process, st'.process) && (st'.phase.Stopped? <==> st.phase.first)
                  && (Untouched(start, st')
                      || (st.phase.Writing? && a == Main(false, st'.cfg) && st'.touched == start.touched + 1)))
  {
  }

  lemma {:induction false} FailedReloadFrom(start: State, st: State, actions: seq<Action>)
    requires Reloading(st.phase) && Untouched(start, st) && DuringReload(st, actions)
    requires var end := Run(st, actions); end.phase.Waiting? || end.phase.Stopped?
    ensures var end := Run(st, actions);
            && SameProcess(start.process, end.process) && (end.phase.Stopped? <==> st.phase.first)
            && |actions| > 0
            && (end.touched == start.touched ==> end.cfg == start.cfg)
            && (end.touched != start.touched ==>
                  end.touched == start.touched + 1 && actions[|actions| - 1] == Main(false, end.cfg))
    decreases |actions|
  {
    var next := Step(st, actions[0]);
    ReloadStep(start, st, actions[0]);
    if |actions| > 1 {
      FailedReloadFrom(start, next, actions[1..]);
    }
  }

  /**
   In every run, whatever comes in between: a reload that is given up leaves the process as it was
   when the reload started, except that it may have exited by itself; and it leaves server.cfg as
   it was, except when its last step was a failing write, and then as that left it.
   */
  lemma FailedReloadIsHarmless(start: State, actions: seq<Action>)
    requires start.phase.Reading? && DuringReload(start, actions)
    requires var end := Run(start, actions); end.phase.Waiting? || end.phase.Stopped?
    ensures var end := Run(start, actions);
            && SameProcess(start.process, end.process) && (end.phase.Stopped? <==> start.phase.first)
            && (end.cfg != start.cfg ==>
                  |actions| > 0 && actions[|actions| - 1] == Main(false, end.cfg) && end.touched == start.touched + 1)
  {
    FailedReloadFrom(start, start, actions);
  }

  // ---- A reload that succeeds ----

  /** How the steps of the main loop went. */
  function MainSteps(actions: seq<Action>): seq<bool> {
    if |actions| == 0 then []
    else (if actions[0].Main? then [actions[0].ok] else []) + MainSteps(actions[1..])
  }

  /** The file that was read last compiles to what is in server.cfg. */
  predicate HoldsWhatWasRead(st: State) {
    && st.past.seen.Some? && st.cfg.Text?
    && Compile(st.compile, st.past.seen.value) == Script(st.cfg.text)
  }

  /** Two of the three steps of the main loop have to go well for a reload to succeed. */
  lemma SuccessStep(st: State, a: Action)
    requires Reloading(st.phase)
    ensures var st' := Step(st, a);
            && st'.compile == st.compile
            && (st'.phase.Reading? ==> st.phase.Reading? && !a.Main?)
            && (st'.phase.Making? ==>
                  if a.Main? then st.phase.Reading? && Compile(st.compile, st.file) == Script(st'.phase.text)
                                  && st'.past.seen == Some(st.file)
                  else st'.phase == st.phase && st'.past.seen == st.past.seen)
            && (st'.phase.Writing? ==>
                  && st'.past.seen == st.past.seen
                  && if a.Main? then st.phase.Making? && a.ok && st'.phase.text == st.phase.text
                     else st'.phase == st.phase)
            && (st'.phase.Starting? || st'.phase.Killing? ==>
                  && st.phase.Writing? && a.Main? && a.ok
                  && st'.cfg == Text(st.phase.text) && st'.past.seen == st.past.seen)
  {
  }

  lemma {:induction false} SuccessFrom(st: State, actions: seq<Action>)
    requires Reloading(st.phase) && DuringReload(st, actions)
    requires var end := Run(st, actions); end.phase.Starting? || end.phase.Killing?
    ensures var end, went := Run(st, actions), MainSteps(actions);
            && end.compile == st.compile
            && (st.phase.Reading? ==> |went| == 3 && went[1..] == [true, true] && HoldsWhatWasRead(end))
            && (st.phase.Making? ==> went == [true, true])
            && (st.phase.Writing? ==> went == [true])
            && (!st.phase.Reading? ==> end.past.seen == st.past.seen && end.cfg == Text(st.phase.text))
    decreases |actions|
  {
    var next := Step(st, actions[0]);
    SuccessStep(st, actions[0]);
    if |actions| > 1 {
      SuccessFrom(next, actions[1..]);
    }
  }

  /**
   In every run, whatever comes in between: a reload gets as far as starting or restarting the game
   only when the directory has been made and the file written, and then server.cfg is what the file
   that it read compiles to.
   */
  lemma SuccessfulReload(start: State, actions: seq<Action>)
    requires start.phase.Reading? && DuringReload(start, actions)
    requires var end := Run(start, actions); end.phase.Starting? || end.phase.Killing?
    ensures |MainSteps(actions)| == 3 && MainSteps(actions)[1..] == [true, true]
    ensures HoldsWhatWasRead(Run(start, actions))
  {
    SuccessFrom(start, actions);
  }

  // ---- A restart ----

  predicate Restarting(p: Phase) { p.Killing? || p.Respawning? }

  /** All along this run the game is being restarted; at its end it need not be. */
  ghost predicate DuringRestart(st: State, actions: seq<Action>)
    decreases |actions|
  {
    |actions| == 0 || (Restarting(st.phase) && DuringRestart(Step(st, actions[0]), actions[1..]))
  }

  /**
   In every run, whatever comes in between: the loop waits again only when the old process has been
   killed and the new one started, and that one runs on the server.cfg that was there all along.
   */
  lemma {:induction false} RestartReplaces(st: State, actions: seq<Action>)
    requires Restarting(st.phase) && DuringRestart(st, actions) && Run(st, actions).phase.Waiting?
    ensures MainSteps(actions) == if st.phase.Killing? then [true, true] else [true]
    ensures var end := Run(st, actions);
            && end.cfg == st.cfg && end.touched == st.touched && end.process == Up(st.touched, st.cfg)
    ensures st.phase.Killing? ==> !st.process.Exited? && !st.process.Down?
    decreases |actions|
  {
    if |actions| > 1 {
      RestartReplaces(Step(st, actions[0]), actions[1..]);
    }
  }

  // ---- The process and server.cfg ----

  /** Between a write and the restart the process is old; otherwise it was started after the last write. */
  predicate UpToDate(st: State) {
    && (st.process.Up? ==> st.process.version <= st.touched)
    && (st.process.Up? && !st.phase.Killing? && !st.phase.Stopped? && !st.phase.Panicked? ==>
          && (st.process.version == st.touched <==> !st.past.torn)
          && (st.process.version == st.touched ==> st.process.cfg == st.cfg))
    && (st.process.Up? && st.phase.Killing? ==> st.process.version < st.touched)
    && ((Reloading(st.phase) && !st.phase.first) || st.phase.Waiting? || st.phase.Registering? || st.phase.Killing? ==>
          !st.process.Down?)
    && ((Reloading(st.phase) && st.phase.first) || st.phase.Starting? ==> st.process.Down?)
    && (st.phase.Respawning? ==> st.process.Down?)
  }

  lemma StepUpToDate(st: State, a: Action)
    requires UpToDate(st)
    ensures UpToDate(Step(st, a))
  {
  }

  lemma {:induction false} RunUpToDate(st: State, actions: seq<Action>)
    requires UpToDate(st)
    ensures UpToDate(Run(st, actions))
    decreases |actions|
  {
    if |actions| > 0 {
      StepUpToDate(st, actions[0]);
      RunUpToDate(Step(st, actions[0]), actions[1..]);
    }
  }

  /**
   Whenever the loop waits, a process has been started, and if it still runs it was started after
   the last write of server.cfg, from the very text that is there now, exactly unless a failing
   write has touched the file since.
   */
  lemma WaitingMeansCurrent(compile: Compiler, file: Option<string>, actions: seq<Action>)
    requires Run(Init(compile, file), actions).phase.Waiting?
    ensures var st := Run(Init(compile, file), actions);
            && !st.process.Down?
            && (st.process.Up? ==>
                  && (st.process.version == st.touched <==> !st.past.torn)
                  && (!st.past.torn ==> st.process.cfg == st.cfg))
  {
    RunUpToDate(Init(compile, file), actions);
  }

  // ---- Panics ----

  /** The program panics only on a file that makes it, and then it has just read it. */
  predicate PanicExplained(st: State) {
    st.phase.Panicked? ==> st.past.seen.Some? && Compile(st.compile, st.past.seen.value).Panics? && st.process.Down?
  }

  lemma StepPanicExplained(st: State, a: Action)
    requires PanicExplained(st)
    ensures PanicExplained(Step(st, a)) && Step(st, a).compile == st.compile
  {
  }

  lemma {:induction false} RunPanicExplained(st: State, actions: seq<Action>)
    requires PanicExplained(st)
    ensures PanicExplained(Run(st, actions)) && Run(st, actions).compile == st.compile
    decreases |actions|
  {
    if |actions| > 0 {
      StepPanicExplained(st, actions[0]);
      RunPanicExplained(Step(st, actions[0]), actions[1..]);
    }
  }

  /** A panic is for ever. */
  lemma {:induction false} PanicIsFinal(st: State, actions: seq<Action>)
    requires st.phase.Panicked? && st.process.Down?
    ensures Run(st, actions).phase.Panicked? && Run(st, actions).process.Down?
    decreases |actions|
  {
    if |actions| > 0 {
      PanicIsFinal(Step(st, actions[0]), actions[1..]);
    }
  }

  /** The main loop reads a file that makes the program panic. */
  predicate ReadsPanic(st: State, a: Action) {
    st.phase.Reading? && a.Main? && Compile(st.compile, st.file).Panics?
  }

  lemma StepPanics(st: State, a: Action)
    requires !st.phase.Panicked?
    ensures Step(st, a).phase.Panicked? <==> ReadsPanic(st, a)
    ensures Step(st, a).phase.Panicked? ==> Step(st, a).process.Down?
  {
  }

  ghost predicate SomeReadPanics(st: State, actions: seq<Action>) {
    exists i :: 0 <= i < |actions| && ReadsPanic(Run(st, actions[..i]), actions[i])
  }

  lemma FirstOrLater(st: State, actions: seq<Action>)
    requires |actions| > 0
    ensures SomeReadPanics(st, actions)
            <==> ReadsPanic(st, actions[0]) || SomeReadPanics(Step(st, actions[0]), actions[1..])
  {
    var next, rest := Step(st, actions[0]), actions[1..];
    assert actions[..0] == [] && Run(st, []) == st;
    forall i | 0 <= i < |rest| ensures Run(st, actions[..i + 1]) == Run(next, rest[..i]) {
      assert actions[..i + 1][1..] == rest[..i];
    }
    if SomeReadPanics(st, actions) {
      var i :| 0 <= i < |actions| && ReadsPanic(Run(st, actions[..i]), actions[i]);
      assert i > 0 ==> Run(st, actions[..i]) == Run(next, rest[..i - 1]) && actions[i] == rest[i - 1];
    }
    if SomeReadPanics(next, rest) {
      var i :| 0 <= i < |rest| && ReadsPanic(Run(next, rest[..i]), rest[i]);
      assert ReadsPanic(Run(st, actions[..i + 1]), actions[i + 1]);
    }
  }

  /** A whole run ends in a panic exactly when somewhere along it a file is read that makes the program panic. */
  lemma {:induction false} PanicsExactly(st: State, actions: seq<Action>)
    requires !st.phase.Panicked?
    ensures Run(st, actions).phase.Panicked? <==> SomeReadPanics(st, actions)
    decreases |actions|
  {
    if |actions| > 0 {
      StepPanics(st, actions[0]);
      FirstOrLater(st, actions);
      if ReadsPanic(st, actions[0]) {
        PanicIsFinal(Step(st, actions[0]), actions[1..]);
      } else {
        PanicsExactly(Step(st, actions[0]), actions[1..]);
      }
    }
  }

  // ---- Freshness ----

  predicate Ended(p: Phase) { p.Stopped? || p.Panicked? }

  /** An edit that has not been read is on its way, or has been lost in one of two ways. */
  predicate Tracked(st: State) {
    && (st.past.seen.None? ==> st.phase.Reading? && st.phase.first && !st.past.edited)
    && (st.watcher.watching ==>
          !(Reloading(st.phase) && st.phase.first) && !st.phase.Starting? && !st.phase.Registering?)
    && (st.phase.Waiting? || st.phase.Killing? || st.phase.Respawning? || (Reloading(st.phase) && !st.phase.first) ==>
          st.watcher.watching)
    && (st.watcher.events > 0 || st.watcher.armed ==> st.watcher.watching)
    && (st.past.dropped || st.past.early ==> st.past.edited)
    && (st.past.edited ==>
          st.watcher.events > 0 || st.watcher.armed || st.phase.Reading? || st.past.dropped || st.past.early
          || Ended(st.phase))
    && (st.past.seen.Some? && !st.past.edited ==> st.past.seen == Some(st.file))
  }

  /** The text that is being or has been written is the compiled form of what was read. */
  predicate Compiled(st: State) {
    var outcome := if st.past.seen.Some? then Compile(st.compile, st.past.seen.value) else Rejected;
    && (st.phase.Making? || st.phase.Writing? ==> outcome == Script(st.phase.text) && !st.past.failed)
    && (st.phase.Starting? || st.phase.Registering? || st.phase.Killing? || st.phase.Respawning? ==>
          outcome.Script? && st.cfg == Text(outcome.text) && !st.past.failed)
    && (st.phase.Waiting? && outcome.Script? && !st.past.failed ==> st.cfg == Text(outcome.text))
  }

  lemma StepTracked(st: State, a: Action)
    requires Tracked(st)
    ensures Tracked(Step(st, a))
  {
    if a.Main? {
      MainTracked(st, a.ok, a.left);
    }
  }

  lemma MainTracked(st: State, ok: bool, left: Cfg)
    requires Tracked(st)
    ensures Tracked(Step(st, Main(ok, left)))
  {
    if st.phase.Reading? {
      ReadTracked(st, ok, left);
    }
  }

  lemma ReadTracked(st: State, ok: bool, left: Cfg)
    requires Tracked(st) && st.phase.Reading?
    ensures Tracked(Step(st, Main(ok, left)))
  {
  }

  lemma StepCompiled(st: State, a: Action)
    requires Compiled(st)
    ensures Compiled(Step(st, a)) && Step(st, a).compile == st.compile
  {
  }

  lemma {:induction false} RunTracked(st: State, actions: seq<Action>)
    requires Tracked(st) && Compiled(st)
    ensures Tracked(Run(st, actions)) && Compiled(Run(st, actions)) && Run(st, actions).compile == st.compile
    decreases |actions|
  {
    if |actions| > 0 {
      StepTracked(st, actions[0]);
      StepCompiled(st, actions[0]);
      RunTracked(Step(st, actions[0]), actions[1..]);
    }
  }

  predicate Quiet(st: State) { st.phase.Waiting? && st.watcher.events == 0 && !st.watcher.armed }

  /**
   At rest, an edit is still unread exactly if a tick was dropped after an edit since the last read,
   or an edit came before the watch. If the last reload succeeded, server.cfg is the compiled form of
   the latest file unless there is such an edit and it makes a difference, and exactly then.
   */
  lemma QuietMeansFresh(compile: Compiler, file: Option<string>, actions: seq<Action>)
    requires Quiet(Run(Init(compile, file), actions))
    ensures var st := Run(Init(compile, file), actions);
            && (st.past.edited <==> st.past.dropped || st.past.early)
            && st.past.seen.Some? && (!st.past.edited ==> st.past.seen.value == st.file)
            && var read, latest := Compile(compile, st.past.seen.value), Compile(compile, st.file);
               (read.Script? && !st.past.failed && latest.Script? ==>
                  (st.cfg == Text(latest.text) <==> !((st.past.dropped || st.past.early) && read != latest)))
  {
    RunTracked(Init(compile, file), actions);
  }

  // ---- Edits that are lost, and a file that is damaged ----

  lemma {:induction false} RunSnoc(st: State, actions: seq<Action>, a: Action)
    ensures Run(st, actions + [a]) == Step(Run(st, actions), a)
    decreases |actions|
  {
    if |actions| == 0 {
      assert (actions + [a])[1..] == [];
      assert Run(Step(st, a), []) == Step(st, a);
    } else {
      assert (actions + [a])[1..] == actions[1..] + [a];
      RunSnoc(Step(st, actions[0]), actions[1..], a);
    }
  }

  /** Start, on a file that compiles. */
  lemma Started(compile: Compiler, a: string) returns (actions: seq<Action>)
    requires compile(a).Script?
    ensures var st := Run(Init(compile, Some(a)), actions);
            && Quiet(st) && st.watcher.watching && st.file == Some(a) && st.process.Up? && st.compile == compile
            && st.past.seen == Some(Some(a)) && st.cfg == Text(compile(a).text)
            && st.process.cfg == st.cfg
  {
    var st := Init(compile, Some(a));
    var go := Main(true, Absent);
    RunSnoc(st, [], go);
    RunSnoc(st, [go], go);
    RunSnoc(st, [go, go], go);
    RunSnoc(st, [go, go, go], go);
    RunSnoc(st, [go, go, go, go], go);
    assert [] + [go] == [go] && [go] + [go] == [go, go] && [go, go] + [go] == [go, go, go];
    assert [go, go, go] + [go] == [go, go, go, go];
    actions := [go, go, go, go] + [go];
  }

  /** An edit between the first read and the start of the watch is never noticed. */
  lemma EarlyEditStays(compile: Compiler, a: string, b: string) returns (actions: seq<Action>)
    requires compile(a).Script? && compile(b).Script? && compile(a) != compile(b)
    ensures var st := Run(Init(compile, Some(a)), actions);
            Quiet(st) && !st.past.dropped && !st.past.failed && st.file == Some(b) && st.cfg != Text(compile(b).text)
  {
    var st := Init(compile, Some(a));
    var go, edit := Main(true, Absent), Edit(Some(b));
    var early := MoreActions(st, [], [go, go, go, edit]);
    assert Run(st, []) == st;
    RunSnoc(st, early, go);
    RunSnoc(st, early + [go], go);
    actions := early + [go] + [go];
  }

  /** An edit whose tick falls into a reload that has already read the file is lost as well. */
  lemma DroppedTickStays(compile: Compiler, a: string, b: string) returns (actions: seq<Action>)
    requires compile(a).Script? && compile(b).Script? && compile(a) != compile(b)
    ensures var st := Run(Init(compile, Some(a)), actions);
            Quiet(st) && !st.past.early && !st.past.failed && st.file == Some(b) && st.cfg != Text(compile(b).text)
  {
    var init := Init(compile, Some(a));
    var start := Started(compile, a);
    var again := MoreActions(init, start, [Edit(Some(a)), HandleEvent, Tick, Main(true, Absent)]);
    var st := Run(init, again);
    assert st.phase == Making(false, compile(a).text) && st.watcher.watching && st.watcher.events == 0;
    var edited := MoreActions(init, again, [Edit(Some(b)), HandleEvent, Tick, Main(true, Absent)]);
    var go := Main(true, Absent);
    actions := MoreActions(init, edited, [go, go, go, HandleEvent]);
  }

  lemma MoreActions(init: State, before: seq<Action>, more: seq<Action>) returns (actions: seq<Action>)
    requires |more| == 4
    ensures Run(init, actions) == Step(Step(Step(Step(Run(init, before), more[0]), more[1]), more[2]), more[3])
  {
    RunSnoc(init, before, more[0]);
    RunSnoc(init, before + [more[0]], more[1]);
    RunSnoc(init, before + [more[0]] + [more[1]], more[2]);
    RunSnoc(init, before + [more[0]] + [more[1]] + [more[2]], more[3]);
    actions := before + [more[0]] + [more[1]] + [more[2]] + [more[3]];
  }

  /** A write that fails leaves the loop waiting, the old game running, and server.cfg damaged. */
  lemma TornStays(compile: Compiler, a: string, b: string, rest: string) returns (actions: seq<Action>)
    requires compile(a).Script? && compile(b).Script?
    ensures var st := Run(Init(compile, Some(a)), actions);
            && Quiet(st) && !st.past.edited && st.file == Some(b) && st.cfg == Torn(rest)
            && st.process.Up? && st.process.cfg == Text(compile(a).text)
  {
    var init, go := Init(compile, Some(a)), Main(true, Absent);
    var start := Started(compile, a);
    var read := MoreActions(init, start, [Edit(Some(b)), HandleEvent, Tick, go]);
    actions := MoreActions(init, read, [go, Main(false, Torn(rest)), HandleEvent, HandleEvent]);
  }

  /** The game has been waited for and can only be left behind. */
  predicate Crashed(st: State) {
    st.process.Exited? || (Ended(st.phase) && !st.process.Up?)
  }

  /** A game that has exited and been waited for is not started again: the reload that wants to ends the loop. */
  lemma {:induction false} CrashIsFinal(st: State, actions: seq<Action>)
    requires UpToDate(st) && st.process.Exited?
    ensures var end := Run(st, actions);
            && Crashed(end) && !end.process.Up? && !end.phase.Respawning?
            && (end.phase.Killing? ==> forall ok, left :: Step(end, Main(ok, left)).phase.Stopped?)
  {
    RunUpToDate(st, actions);
    StaysCrashed(st, actions);
  }

  lemma {:induction false} StaysCrashed(st: State, actions: seq<Action>)
    requires UpToDate(st) && Crashed(st)
    ensures Crashed(Run(st, actions))
    decreases |actions|
  {
    if |actions| > 0 {
      StepUpToDate(st, actions[0]);
      StaysCrashed(Step(st, actions[0]), actions[1..]);
    }
  }
}
