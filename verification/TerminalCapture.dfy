/**
 Captured terminal commands: each is raced by an abort signal, the shell's execution markers, the
 end of the terminal, two timers and the completion of `listen` and of the write.

 A `Capture` is one activation of `runTerminalCommandAndCapture`; its callbacks are functions on
 `Capture`.  A `State` is all activations with the set of channels marked as running a capture.
 */
module TerminalCapture {
  import opened Prelude
  import opened JsString
  import opened TerminalOutput

  type Chan = string

  /** Where the activation itself is: awaiting `listen`, the write, the result, or returned. */
  datatype Stage = Listening | Writing | Awaiting | Returned

  datatype Timer = Unset | Armed | Cleared | Fired

  /** The last two are given to commands that were not run. */
  datatype Status = CompletedStatus | ClosedStatus | StreamingStatus | TimeoutStatus | UnsupportedStatus | DeniedStatus | BlockedStatus

  /** What the promise `result` was given. */
  datatype Settlement =
    | Finished(status: Status, exitCode: Option<int>, out: Output)
    | Sampled(status: Status, out: Output)
    | Aborted
    | Failed

  datatype What = What(chan: Chan, command: string, streaming: bool)
  datatype Life = Life(stage: Stage, aborted: bool, watching: bool, writes: nat)
  datatype Flags = Flags(delivered: bool, started: bool, lingering: bool, released: bool)
  /** `alive` while the backend calls the listener; `unlisten` is the handle the capture holds. */
  datatype Hook = Hook(alive: bool, unlisten: bool, pending: bool, unlistened: nat)
  datatype Timers = Timers(start: Timer, completion: Timer)
  datatype Text = Text(out: Output, heard: string)

  datatype Capture = Capture(what: What, life: Life, flags: Flags, hook: Hook, timers: Timers, text: Text, settled: seq<Settlement>)

  datatype Marker = Marker(
    text: Option<string>,       // decoded bytes
    closed: bool,
    execStart: bool,
    execEnd: bool,
    command: Option<string>,
    exitCode: Option<int>)

  function Begin(what: What): Capture
  {
    Capture(what, Life(Listening, false, true, 0), Flags(false, false, false, false),
            Hook(true, false, false, 0), Timers(Unset, Unset), Text(SILENT, ""), [])
  }

  // ---- The closures ----

  function ClearTimer(t: Timer): Timer
  {
    if t == Armed then Cleared else t
  }

  function ClearWaiters(c: Capture): Capture
  {
    c.(timers := Timers(ClearTimer(c.timers.start), ClearTimer(c.timers.completion)),
       life := c.life.(watching := false))
  }

  function Unhook(h: Hook): Hook
  {
    if h.unlisten then Hook(false, false, h.pending, h.unlistened + 1) else h.(pending := true)
  }

  function Release(c: Capture): Capture
  {
    if c.flags.released then c
    else ClearWaiters(c.(flags := c.flags.(released := true), hook := Unhook(c.hook)))
  }

  function Hear(c: Capture, v: string): Capture
  {
    c.(text := Text(Append(c.text.out, v), c.text.heard + v))
  }

  function Settle(c: Capture, s: Settlement): Capture
  {
    c.(settled := c.settled + [s])
  }

  /** `flush` is what the decoder still held back. */
  function Finish(c: Capture, status: Status, exitCode: Option<int>, flush: string): Capture
  {
    if c.flags.delivered then c
    else
      var c1 := Hear(c.(flags := c.flags.(delivered := true)), flush);
      Settle(Release(c1), Finished(status, exitCode, c1.text.out))
  }

  function Snapshot(c: Capture, status: Status, flush: string): Capture
  {
    if c.flags.delivered then c
    else
      var c1 := Hear(c.(flags := c.flags.(delivered := true, lingering := true)), flush);
      Settle(ClearWaiters(c1), Sampled(status, c1.text.out))
  }

  function Fail(c: Capture, error: Settlement): Capture
  {
    if c.flags.delivered then c
    else
      var c1 := c.(flags := c.flags.(delivered := true));
      Settle(if c.flags.started then ClearWaiters(c1.(flags := c1.flags.(lingering := true))) else Release(c1), error)
  }

  // ---- The callbacks ----

  predicate OwnEnd(c: Capture, m: Marker)
  {
    m.execEnd && m.command.Some? && Trim(m.command.value) == Trim(c.what.command)
  }

  function Listen(c: Capture, m: Marker): Capture
  {
    if !c.flags.delivered && c.flags.started && m.text.Some? then Hear(c, m.text.value) else c
  }

  function Start(c: Capture, m: Marker): Capture
  {
    if m.execStart && c.timers.completion.Unset?
    then c.(flags := c.flags.(started := true), timers := Timers(ClearTimer(c.timers.start), Armed))
    else c
  }

  function OnMarker(c: Capture, m: Marker, flush: string): Capture
  {
    var c1 := Listen(c, m);
    if m.closed then
      if c1.flags.lingering then Release(c1) else Finish(c1, ClosedStatus, None, flush)
    else
      var c2 := Start(c1, m);
      if OwnEnd(c2, m) then
        if c2.flags.lingering then Release(c2) else Finish(c2, CompletedStatus, m.exitCode, flush)
      else c2
  }

  /** `listen` resolved: keep or use the handle, then start the timer and write the command. */
  function OnListening(c: Capture): Capture
  {
    var h := if c.hook.pending then c.hook.(alive := false, unlisten := false, unlistened := c.hook.unlistened + 1)
             else c.hook.(unlisten := true);
    var c1 := c.(hook := h);
    if c1.flags.delivered && !c1.flags.lingering then c1.(life := c1.life.(stage := Awaiting))
    else if c1.life.aborted then
      var c2 := Fail(c1, Aborted);
      c2.(life := c2.life.(stage := Awaiting))
    else
      c1.(timers := c1.timers.(start := Armed), life := c1.life.(stage := Writing, writes := c1.life.writes + 1))
  }

  function OnListenError(c: Capture): Capture
  {
    var c1 := Fail(c.(hook := c.hook.(alive := false)), Failed);
    c1.(life := c1.life.(stage := Awaiting))
  }

  function OnWritten(c: Capture, ok: bool): Capture
  {
    var c1 := if ok then c else Fail(c, Failed);
    c1.(life := c1.life.(stage := Awaiting))
  }

  function OnStartTimer(c: Capture, flush: string): Capture
  {
    Finish(c.(timers := c.timers.(start := Fired)), UnsupportedStatus, None, flush)
  }

  function OnCompletionTimer(c: Capture, flush: string): Capture
  {
    Snapshot(c.(timers := c.timers.(completion := Fired)), if c.what.streaming then StreamingStatus else TimeoutStatus, flush)
  }

  function OnAbort(c: Capture): Capture
  {
    var c1 := c.(life := c.life.(aborted := true, watching := false));
    if c.life.watching then Fail(c1, Aborted) else c1
  }

  function OnReturn(c: Capture): Capture
  {
    c.(life := c.life.(stage := Returned))
  }

  datatype Action =
    | Listened
    | ListenFailed
    | Written(ok: bool)
    | Marked(marker: Marker, flush: string)
    | StartTimerFires(flush: string)
    | CompletionTimerFires(flush: string)
    | AbortSignalled
    | Returns

  /** When the runtime can make the callback. */
  predicate Possible(c: Capture, a: Action)
  {
    match a
    case Listened => c.life.stage.Listening?
    case ListenFailed => c.life.stage.Listening?
    case Written(_) => c.life.stage.Writing?
    case Marked(_, _) => c.hook.alive
    case StartTimerFires(_) => c.timers.start.Armed?
    case CompletionTimerFires(_) => c.timers.completion.Armed?
    case AbortSignalled => !c.life.aborted
    case Returns => c.life.stage.Awaiting? && c.settled != []
  }

  function Act(c: Capture, a: Action): Capture
  {
    match a
    case Listened => OnListening(c)
    case ListenFailed => OnListenError(c)
    case Written(ok) => OnWritten(c, ok)
    case Marked(m, flush) => OnMarker(c, m, flush)
    case StartTimerFires(flush) => OnStartTimer(c, flush)
    case CompletionTimerFires(flush) => OnCompletionTimer(c, flush)
    case AbortSignalled => OnAbort(c)
    case Returns => OnReturn(c)
  }

  // ---- One capture ----

  /** One settlement when delivered, none before; released once delivered, unless lingering. */
  ghost predicate Consistent(c: Capture)
  {
    && |c.settled| == (if c.flags.delivered then 1 else 0)
    && (c.flags.released || c.flags.lingering ==> c.flags.delivered)
    && (c.flags.delivered && !c.flags.lingering ==> c.flags.released)
    && (c.life.stage.Returned? ==> c.flags.delivered)
    && c.life.writes <= 1
    && (c.life.stage.Listening? ==> c.life.writes == 0)
    && (c.life.watching <==> !c.life.aborted && !c.flags.delivered)
    && (c.life.aborted ==> c.flags.delivered)
  }

  /** The listener is dropped once, at the later of the release and the completion of `listen`. */
  ghost predicate HookConsistent(c: Capture)
  {
    && c.hook.unlistened <= 1
    && (c.hook.alive ==> c.hook.unlistened == 0)
    && if c.life.stage.Listening? then c.hook.alive && !c.hook.unlisten && (c.hook.pending <==> c.flags.released)
       else if c.hook.alive then c.hook.unlisten && !c.flags.released
       else !c.hook.unlisten && (c.hook.unlistened == 1 ==> c.flags.released)
  }

  /** Once `listen` has succeeded, a timer is armed until the result is settled. */
  ghost predicate TimersConsistent(c: Capture)
  {
    && (c.flags.started <==> !c.timers.completion.Unset?)
    && (c.life.stage.Listening? ==> c.timers.start.Unset?)
    && (!c.flags.delivered ==>
          && (c.timers.completion.Unset? || c.timers.completion.Armed?)
          && (c.timers.start.Cleared? || c.timers.start.Fired? ==> c.timers.completion.Armed?)
          && (!c.life.stage.Listening? ==> !c.timers.start.Unset?))
  }

  /** The buffers are the windows of what was heard, and a settled result carries them. */
  ghost predicate TextConsistent(c: Capture)
  {
    && c.text.out == Windows(c.text.heard)
    && (c.settled != [] && (c.settled[0].Finished? || c.settled[0].Sampled?) ==> c.settled[0].out == c.text.out)
    && (!c.flags.started && !c.flags.delivered ==> c.text.heard == "")
  }

  ghost predicate Sound(c: Capture)
  {
    Consistent(c) && HookConsistent(c) && TimersConsistent(c) && TextConsistent(c)
  }

  lemma BeginIsSound(what: What)
    ensures Sound(Begin(what))
  {
  }

  lemma ActKeepsConsistent(c: Capture, a: Action)
    requires Consistent(c) && Possible(c, a)
    ensures Consistent(Act(c, a))
  {
    hide Trim, Append, ClearTimer, Unhook;
    if a.Marked? {
      MarkerKeepsConsistent(c, a.marker, a.flush);
      hide OnMarker;
    }
  }

  lemma MarkerKeepsConsistent(c: Capture, m: Marker, flush: string)
    requires Consistent(c) && c.hook.alive
    ensures Consistent(OnMarker(c, m, flush))
  {
    hide Append, OwnEnd, ClearTimer, Unhook, ClearWaiters;
    var c1 := Listen(c, m);
    var c2 := Start(c1, m);
    assert Consistent(c1) && Consistent(c2);
    ConcludeKeepsConsistent(c1, ClosedStatus, None, flush);
    ConcludeKeepsConsistent(c2, CompletedStatus, m.exitCode, flush);
    hide Release, Finish, Listen, Start, Consistent;
  }

  lemma ConcludeKeepsConsistent(c: Capture, status: Status, exitCode: Option<int>, flush: string)
    requires Consistent(c)
    ensures c.flags.lingering ==> Consistent(Release(c))
    ensures Consistent(Finish(c, status, exitCode, flush))
  {
    hide Append, ClearTimer, Unhook;
  }

  lemma ActKeepsHook(c: Capture, a: Action)
    requires Consistent(c) && HookConsistent(c) && Possible(c, a)
    ensures HookConsistent(Act(c, a))
  {
    hide Trim, Append, ClearTimer;
    if a.Marked? {
      MarkerKeepsHook(c, a.marker, a.flush);
      hide OnMarker;
    }
  }

  lemma MarkerKeepsHook(c: Capture, m: Marker, flush: string)
    requires Consistent(c) && HookConsistent(c) && c.hook.alive
    ensures HookConsistent(OnMarker(c, m, flush))
  {
    hide Append, OwnEnd, ClearTimer, Unhook, ClearWaiters;
    var c1 := Listen(c, m);
    var c2 := Start(c1, m);
    assert HookConsistent(c1) && HookConsistent(c2) && c1.hook.alive && c2.hook.alive;
    ConcludeKeepsHook(c1, ClosedStatus, None, flush);
    ConcludeKeepsHook(c2, CompletedStatus, m.exitCode, flush);
    hide Release, Finish, Listen, Start, HookConsistent, Consistent;
  }

  lemma ConcludeKeepsHook(c: Capture, status: Status, exitCode: Option<int>, flush: string)
    requires HookConsistent(c) && c.hook.alive
    ensures HookConsistent(Release(c)) && HookConsistent(Finish(c, status, exitCode, flush))
  {
    hide Append, ClearTimer;
  }

  lemma ActKeepsTimers(c: Capture, a: Action)
    requires Consistent(c) && TimersConsistent(c) && Possible(c, a)
    ensures TimersConsistent(Act(c, a))
  {
    hide Trim, Append, Unhook;
    if a.Marked? {
      MarkerKeepsTimers(c, a.marker, a.flush);
      hide OnMarker;
    }
  }

  lemma MarkerKeepsTimers(c: Capture, m: Marker, flush: string)
    requires Consistent(c) && TimersConsistent(c) && c.hook.alive
    ensures TimersConsistent(OnMarker(c, m, flush))
  {
    hide Trim, Append, OwnEnd, Unhook;
  }

  lemma HearKeepsWindows(c: Capture, v: string)
    requires c.text.out == Windows(c.text.heard)
    ensures Hear(c, v).text.out == Windows(Hear(c, v).text.heard)
  {
    hide Append, Windows;
    AppendToWindows(c.text.heard, v);
  }

  /** Whatever is heard in one action is one chunk, or a chunk and then what the decoder held back. */
  lemma ActKeepsText(c: Capture, a: Action)
    requires Consistent(c) && TextConsistent(c) && Possible(c, a)
    ensures TextConsistent(Act(c, a))
  {
    hide Trim, Append, Windows, LastN, FirstN;
    match a
    case Marked(m, flush) =>
      if m.text.Some? {
        HearKeepsWindows(c, m.text.value);
      }
      var c1 := Listen(c, m);
      HearKeepsWindows(c1, flush);
    case StartTimerFires(flush) => HearKeepsWindows(c, flush);
    case CompletionTimerFires(flush) => HearKeepsWindows(c, flush);
    case _ =>
  }

  lemma ActKeepsSound(c: Capture, a: Action)
    requires Sound(c) && Possible(c, a)
    ensures Sound(Act(c, a))
  {
    hide Act, Possible, Consistent, HookConsistent, TimersConsistent, TextConsistent;
    ActKeepsConsistent(c, a);
    ActKeepsHook(c, a);
    ActKeepsTimers(c, a);
    ActKeepsText(c, a);
  }

  /** What never goes back in the course of a run. */
  ghost predicate Later(c: Capture, c1: Capture)
  {
    && c1.what == c.what
    && c.settled <= c1.settled
    && (c.flags.released ==> c1.flags.released)
    && (c.flags.lingering ==> c1.flags.lingering)
    && (c.life.stage.Returned? ==> c1.life.stage.Returned?)
    && (c.life.aborted ==> c1.life.aborted && c1.life.writes == c.life.writes)
    && c.life.writes <= c1.life.writes
    && (c.settled != [] ==> c1.text == c.text && c1.flags.lingering == c.flags.lingering)
  }

  /** A settlement is final, an aborted capture writes nothing any more, and nothing goes back. */
  lemma ActIsMonotone(c: Capture, a: Action)
    requires Consistent(c) && Possible(c, a)
    ensures Later(c, Act(c, a))
  {
    hide Trim, Append;
    if a.Marked? {
      MarkerIsMonotone(c, a.marker, a.flush);
      hide OnMarker;
    }
  }

  lemma MarkerIsMonotone(c: Capture, m: Marker, flush: string)
    requires Consistent(c)
    ensures Later(c, OnMarker(c, m, flush))
  {
    hide Trim, Append, OwnEnd, Unhook, ClearTimer;
  }

  /** A lingering capture is released by nothing but the end of the terminal or of its own command. */
  lemma LingeringReleases(c: Capture, a: Action)
    requires c.flags.lingering && !c.flags.released && c.flags.delivered
    ensures Act(c, a).flags.released <==> a.Marked? && (a.marker.closed || OwnEnd(c, a.marker))
  {
    hide Trim, Append;
  }

  /** Which event settles a capture, and how. */
  ghost predicate SettlesWith(c: Capture, a: Action, s: Settlement)
  {
    match s
    case Finished(status, exitCode, _) =>
      if status.UnsupportedStatus? then a.StartTimerFires? && exitCode == None
      else a.Marked? && if a.marker.closed then status.ClosedStatus? && exitCode == None
                        else status.CompletedStatus? && OwnEnd(c, a.marker) && exitCode == a.marker.exitCode
    case Sampled(status, _) =>
      a.CompletionTimerFires? && status == if c.what.streaming then StreamingStatus else TimeoutStatus
    case Aborted => a.AbortSignalled?
    case Failed => a.ListenFailed? || a == Written(false)
  }

  /** An unsettled capture is settled by exactly these actions, and by each with the result it stands for. */
  lemma WhatSettles(c: Capture, a: Action)
    requires Consistent(c) && Possible(c, a) && !c.flags.delivered
    ensures Act(c, a).settled != [] <==>
              a.ListenFailed? || a == Written(false) || a.StartTimerFires? || a.CompletionTimerFires? || a.AbortSignalled? ||
              (a.Marked? && (a.marker.closed || OwnEnd(c, a.marker)))
    ensures Act(c, a).settled != [] ==> SettlesWith(c, a, Act(c, a).settled[0])
  {
    hide Trim, Append;
  }

  /** The command is written exactly when listening succeeds, the signal is not aborted, and no result but a lingering one's is out. */
  lemma WhatWrites(c: Capture, a: Action)
    requires Consistent(c) && Possible(c, a)
    ensures Act(c, a).life.writes == c.life.writes + (
              if a.Listened? && !c.life.aborted && (!c.flags.delivered || c.flags.lingering) then 1 else 0)
  {
    hide Trim, Append;
  }

  // ---- All captures ----

  datatype State = State(running: set<Chan>, caps: seq<Capture>)

  const IDLE := State({}, [])

  datatype Step = Launch(what: What, alreadyAborted: bool) | Do(i: nat, action: Action)

  predicate Enabled(s: State, step: Step)
  {
    step.Do? ==> step.i < |s.caps| && Possible(s.caps[step.i], step.action)
  }

  /** A launch on a marked channel, or with a signal already aborted, is refused before anything is done. */
  predicate Refused(s: State, step: Step)
  {
    step.Launch? && (step.what.chan in s.running || step.alreadyAborted)
  }

  /** `release` takes the mark away, and so does `finally` unless the capture lingers. */
  function Unmarked(running: set<Chan>, c: Capture, a: Action): set<Chan>
  {
    if (!c.flags.released && Act(c, a).flags.released) || (a.Returns? && !c.flags.lingering)
    then running - {c.what.chan} else running
  }

  function Apply(s: State, step: Step): State
    requires Enabled(s, step)
  {
    if Refused(s, step) then s
    else if step.Launch? then State(s.running + {step.what.chan}, s.caps + [Begin(step.what)])
    else
      var c := s.caps[step.i];
      State(Unmarked(s.running, c, step.action), s.caps[step.i := Act(c, step.action)])
  }

  ghost predicate IsRun(steps: seq<Step>)
    decreases |steps|, 0
  {
    steps == [] || (IsRun(steps[..|steps| - 1]) && Enabled(After(steps[..|steps| - 1]), steps[|steps| - 1]))
  }

  ghost function After(steps: seq<Step>): State
    requires IsRun(steps)
    decreases |steps|, 1
  {
    if steps == [] then IDLE else Apply(After(steps[..|steps| - 1]), steps[|steps| - 1])
  }

  ghost predicate AllSound(s: State)
  {
    forall i | 0 <= i < |s.caps| :: Sound(s.caps[i])
  }

  lemma StepKeepsSound(s: State, step: Step)
    requires AllSound(s) && Enabled(s, step)
    ensures AllSound(Apply(s, step))
  {
    hide Sound, Act, Possible;
    if step.Launch? {
      BeginIsSound(step.what);
    } else {
      ActKeepsSound(s.caps[step.i], step.action);
    }
  }

  lemma NothingIsSound()
    ensures AllSound(IDLE)
  {
  }

  lemma {:induction false} RunKeepsSound(steps: seq<Step>)
    requires IsRun(steps)
    ensures AllSound(After(steps))
    decreases |steps|
  {
    hide AllSound, Apply, Enabled;
    if steps == [] {
      NothingIsSound();
    } else {
      RunKeepsSound(steps[..|steps| - 1]);
      StepKeepsSound(After(steps[..|steps| - 1]), steps[|steps| - 1]);
    }
  }

  // ---- Settling once ----

  /** In every run a capture has settled at most once, has written at most once, and has returned only when settled. */
  lemma SettlesAtMostOnce(steps: seq<Step>, i: nat)
    requires IsRun(steps) && i < |After(steps).caps|
    ensures var c := After(steps).caps[i];
            && |c.settled| <= 1
            && c.life.writes <= 1
            && (c.life.stage.Returned? ==> |c.settled| == 1)
            && (c.life.aborted ==> |c.settled| == 1)
            && (|c.settled| == 1 <==> c.flags.released || c.flags.lingering)
  {
    RunKeepsSound(steps);
  }

  /** Once `listen` has succeeded, whatever is still unsettled will be settled by an armed timer. */
  lemma UnsettledIsTimed(steps: seq<Step>, i: nat, flush: string)
    requires IsRun(steps) && i < |After(steps).caps|
    requires !After(steps).caps[i].life.stage.Listening? && After(steps).caps[i].settled == []
    ensures exists a | a in {StartTimerFires(flush), CompletionTimerFires(flush)} ::
              Possible(After(steps).caps[i], a) && Act(After(steps).caps[i], a).settled != []
  {
    RunKeepsSound(steps);
    var c := After(steps).caps[i];
    var a := if c.timers.start.Armed? then StartTimerFires(flush) else CompletionTimerFires(flush);
    assert Possible(c, a) && Act(c, a).settled != [];
  }

  // ---- Unsupported although started ----

  /** The step starts the execution for capture `i` before its `listen` has completed. */
  ghost predicate StartsEarly(s: State, step: Step, i: nat)
  {
    && step.Do? && step.i == i && i < |s.caps| && s.caps[i].life.stage.Listening?
    && step.action.Marked? && step.action.marker.execStart && !step.action.marker.closed
  }

  /** The start timer fires for capture `i`, which is not settled. */
  ghost predicate GivesUp(s: State, step: Step, i: nat)
  {
    step.Do? && step.i == i && i < |s.caps| && s.caps[i].settled == [] && step.action.StartTimerFires?
  }

  ghost predicate StartedEarly(steps: seq<Step>, i: nat)
    requires IsRun(steps)
    decreases |steps|
  {
    steps != [] &&
    (StartedEarly(steps[..|steps| - 1], i) || StartsEarly(After(steps[..|steps| - 1]), steps[|steps| - 1], i))
  }

  ghost predicate GaveUp(steps: seq<Step>, i: nat)
    requires IsRun(steps)
    decreases |steps|
  {
    steps != [] && (GaveUp(steps[..|steps| - 1], i) || GivesUp(After(steps[..|steps| - 1]), steps[|steps| - 1], i))
  }

  predicate Unsupported(c: Capture)
  {
    c.settled != [] && c.settled[0].Finished? && c.settled[0].status.UnsupportedStatus?
  }

  /** `early` and `gaveUp` say what has happened: a timer armed after the start marker is never cleared. */
  ghost predicate Told(c: Capture, early: bool, gaveUp: bool)
  {
    && (early ==> c.flags.started)
    && (!c.flags.delivered && c.flags.started && (c.life.stage.Listening? || c.timers.start.Armed?) ==> early)
    && (Unsupported(c) <==> gaveUp)
    && (gaveUp ==> c.flags.released && !c.life.stage.Listening? && (c.flags.started ==> early))
  }

  lemma ActKeepsTold(c: Capture, a: Action, early: bool, gaveUp: bool)
    requires Sound(c) && Possible(c, a) && Told(c, early, gaveUp)
    ensures Told(Act(c, a),
              early || (c.life.stage.Listening? && a.Marked? && a.marker.execStart && !a.marker.closed),
              gaveUp || (c.settled == [] && a.StartTimerFires?))
  {
    hide Trim, Append, Windows, Unhook;
  }

  lemma StepKeepsTold(s: State, step: Step, i: nat, early: bool, gaveUp: bool)
    requires AllSound(s) && Enabled(s, step)
    requires if i < |s.caps| then Told(s.caps[i], early, gaveUp) else !early && !gaveUp
    ensures var s1 := Apply(s, step);
            var early1, gaveUp1 := early || StartsEarly(s, step, i), gaveUp || GivesUp(s, step, i);
            if i < |s1.caps| then Told(s1.caps[i], early1, gaveUp1) else !early1 && !gaveUp1
  {
    hide Sound, Act, Possible;
    if step.Do? && step.i == i {
      ActKeepsTold(s.caps[i], step.action, early, gaveUp);
    }
  }

  lemma {:induction false} RunKeepsTold(steps: seq<Step>, i: nat)
    requires IsRun(steps)
    ensures if i < |After(steps).caps| then Told(After(steps).caps[i], StartedEarly(steps, i), GaveUp(steps, i))
            else !StartedEarly(steps, i) && !GaveUp(steps, i)
    decreases |steps|
  {
    hide AllSound, Apply, Enabled, Told, StartsEarly, GivesUp;
    if steps != [] {
      var front := steps[..|steps| - 1];
      RunKeepsTold(front, i);
      RunKeepsSound(front);
      StepKeepsTold(After(front), steps[|steps| - 1], i, StartedEarly(front, i), GaveUp(front, i));
    }
  }

  /**
   A capture is reported as unsupported exactly when its start timer fires before it is settled, and
   with the execution started exactly when, besides, the start marker was heard before `listen` had
   completed: the timer is armed afterwards and nothing clears it.
   */
  lemma UnsupportedAfterStartExactly(steps: seq<Step>, i: nat)
    requires IsRun(steps) && i < |After(steps).caps|
    ensures var c := After(steps).caps[i];
            && (Unsupported(c) <==> GaveUp(steps, i))
            && (Unsupported(c) && c.flags.started <==> StartedEarly(steps, i) && GaveUp(steps, i))
  {
    RunKeepsTold(steps, i);
  }

  /** Such a run. */
  lemma UnsupportedAlthoughStarted(what: What)
    ensures var steps := [Launch(what, false), Do(0, Marked(STARTED, "")), Do(0, Listened), Do(0, StartTimerFires(""))];
            IsRun(steps) && |After(steps).caps| == 1 && Unsupported(After(steps).caps[0]) && After(steps).caps[0].flags.started
  {
    hide Act, Possible, Apply, Enabled, Begin, Unsupported;
    var s1, s2, s3, s4 := Launch(what, false), Do(0, Marked(STARTED, "")), Do(0, Listened), Do(0, StartTimerFires(""));
    LateListening(what);
    LateListeningStates(what);
    ExtendRun([], s1);
    assert [] + [s1] == [s1];
    ExtendRun([s1], s2);
    assert [s1] + [s2] == [s1, s2];
    ExtendRun([s1, s2], s3);
    assert [s1, s2] + [s3] == [s1, s2, s3];
    ExtendRun([s1, s2, s3], s4);
    assert [s1, s2, s3] + [s4] == [s1, s2, s3, s4];
  }

  const STARTED := Marker(None, false, true, false, None, None)

  lemma LateListeningStates(what: What)
    ensures var ch, c0 := what.chan, Begin(what);
            var c1 := Act(c0, Marked(STARTED, ""));
            var c2 := Act(c1, Listened);
            var c3 := Act(c2, StartTimerFires(""));
            && Enabled(IDLE, Launch(what, false)) && Apply(IDLE, Launch(what, false)) == State({ch}, [c0])
            && Enabled(State({ch}, [c0]), Do(0, Marked(STARTED, ""))) && Apply(State({ch}, [c0]), Do(0, Marked(STARTED, ""))) == State({ch}, [c1])
            && Enabled(State({ch}, [c1]), Do(0, Listened)) && Apply(State({ch}, [c1]), Do(0, Listened)) == State({ch}, [c2])
            && Enabled(State({ch}, [c2]), Do(0, StartTimerFires("")))
            && Apply(State({ch}, [c2]), Do(0, StartTimerFires(""))) == State({}, [c3])
  {
    LateListening(what);
    hide Act, Possible;
  }

  /** The three callbacks. */
  lemma LateListening(what: What)
    ensures var c0 := Begin(what);
            var c1 := Act(c0, Marked(STARTED, ""));
            var c2 := Act(c1, Listened);
            var c3 := Act(c2, StartTimerFires(""));
            && Possible(c0, Marked(STARTED, "")) && Possible(c1, Listened) && Possible(c2, StartTimerFires(""))
            && !c0.flags.released && !c1.flags.released && !c2.flags.released && c3.flags.released
            && c1.what == c2.what == c3.what == what
            && Unsupported(c3) && c3.flags.started
  {
  }

  /** The listener of a capture whose `listen` succeeded is dropped once, exactly when the capture is released. */
  lemma ListenerIsDroppedOnce(steps: seq<Step>, i: nat)
    requires IsRun(steps) && i < |After(steps).caps|
    requires var c := After(steps).caps[i]; !c.life.stage.Listening? && (c.hook.alive || c.hook.unlistened > 0)
    ensures var c := After(steps).caps[i]; c.hook.unlistened == (if c.flags.released then 1 else 0) && c.hook.alive == !c.flags.released
  {
    RunKeepsSound(steps);
  }

  /** The report of a finished or sampled capture is made of the windows of all it heard. */
  lemma SettledWithWindows(steps: seq<Step>, i: nat)
    requires IsRun(steps) && i < |After(steps).caps|
    requires var c := After(steps).caps[i]; c.settled != [] && (c.settled[0].Finished? || c.settled[0].Sampled?)
    ensures var c := After(steps).caps[i]; c.settled[0].out == Windows(c.text.heard)
  {
    hide Windows;
    RunKeepsSound(steps);
  }

  lemma IsRunPrefix(steps: seq<Step>, more: seq<Step>)
    requires IsRun(steps + more)
    ensures IsRun(steps)
    decreases |more|
  {
    if more == [] {
      assert steps + more == steps;
    } else {
      assert (steps + more)[..|steps + more| - 1] == steps + more[..|more| - 1];
      IsRunPrefix(steps, more[..|more| - 1]);
    }
  }

  lemma StepIsMonotone(s: State, step: Step, i: nat)
    requires AllSound(s) && Enabled(s, step) && i < |s.caps|
    ensures i < |Apply(s, step).caps| && Later(s.caps[i], Apply(s, step).caps[i])
  {
    hide Act;
    if step.Do? && step.i == i {
      ActIsMonotone(s.caps[i], step.action);
    }
  }

  lemma LaterTwice(a: Capture, b: Capture, c: Capture)
    requires Later(a, b) && Later(b, c)
    ensures Later(a, c)
  {
  }

  /** A settlement is never replaced and an aborted capture that has not written never will. */
  lemma {:induction false} RunsAreMonotone(steps: seq<Step>, more: seq<Step>, i: nat)
    requires IsRun(steps + more)
    ensures IsRun(steps)
    ensures i < |After(steps).caps| ==> i < |After(steps + more).caps| && Later(After(steps).caps[i], After(steps + more).caps[i])
    decreases |more|
  {
    hide AllSound, Apply, Enabled, Later;
    IsRunPrefix(steps, more);
    if more == [] {
      assert steps + more == steps;
      if i < |After(steps).caps| {
        LaterAtOnce(After(steps).caps[i]);
      }
    } else {
      var front, last := more[..|more| - 1], more[|more| - 1];
      assert (steps + more)[..|steps + more| - 1] == steps + front && (steps + more)[|steps + more| - 1] == last;
      RunsAreMonotone(steps, front, i);
      if i < |After(steps).caps| {
        RunKeepsSound(steps + front);
        StepIsMonotone(After(steps + front), last, i);
        LaterTwice(After(steps).caps[i], After(steps + front).caps[i], After(steps + more).caps[i]);
      }
    }
  }

  lemma LaterAtOnce(c: Capture)
    ensures Later(c, c)
  {
  }

  // ---- Busy marks ----

  /** Every capture not yet released has its channel marked. */
  ghost predicate Marks(s: State)
  {
    forall i | 0 <= i < |s.caps| && !s.caps[i].flags.released :: s.caps[i].what.chan in s.running
  }

  /** Nothing is marked without reason, and no two captures hold the same channel. */
  ghost predicate Exclusive(s: State)
  {
    && (forall ch | ch in s.running :: exists i | 0 <= i < |s.caps| :: !s.caps[i].flags.released && s.caps[i].what.chan == ch)
    && (forall i, j | 0 <= i < |s.caps| && 0 <= j < |s.caps| && i != j && !s.caps[i].flags.released && !s.caps[j].flags.released ::
          s.caps[i].what.chan != s.caps[j].what.chan)
  }

  /** A `finally` that would take away the mark of another capture. */
  ghost predicate Robs(s: State, step: Step)
  {
    && step.Do? && step.action.Returns? && step.i < |s.caps| && !s.caps[step.i].flags.lingering
    && exists j | 0 <= j < |s.caps| && j != step.i :: !s.caps[j].flags.released && s.caps[j].what.chan == s.caps[step.i].what.chan
  }

  /** One step keeps the marks right unless it is a `finally` that robs; that one never does. */
  lemma StepMarks(s: State, step: Step)
    requires AllSound(s) && Marks(s) && Exclusive(s) && Enabled(s, step)
    ensures Marks(Apply(s, step)) <==> !Robs(s, step)
    ensures Marks(Apply(s, step)) ==> Exclusive(Apply(s, step))
  {
    if Refused(s, step) {
    } else if step.Launch? {
      LaunchMarks(s, step.what);
    } else {
      DoMarks(s, step.i, step.action);
    }
  }

  lemma LaunchMarks(s: State, what: What)
    requires Marks(s) && Exclusive(s) && what.chan !in s.running
    ensures Marks(Apply(s, Launch(what, false))) && Exclusive(Apply(s, Launch(what, false)))
  {
    hide Act, Possible;
    var s1 := Apply(s, Launch(what, false));
    forall ch | ch in s1.running
      ensures exists i | 0 <= i < |s1.caps| :: !s1.caps[i].flags.released && s1.caps[i].what.chan == ch
    {
      if ch in s.running {
        var i :| 0 <= i < |s.caps| && !s.caps[i].flags.released && s.caps[i].what.chan == ch;
        assert s1.caps[i] == s.caps[i];
      } else {
        assert s1.caps[|s.caps|] == Begin(what);
      }
    }
  }

  lemma DoMarks(s: State, i: nat, a: Action)
    requires AllSound(s) && Marks(s) && Exclusive(s) && Enabled(s, Do(i, a))
    ensures Marks(Apply(s, Do(i, a))) <==> !Robs(s, Do(i, a))
    ensures Marks(Apply(s, Do(i, a))) ==> Exclusive(Apply(s, Do(i, a)))
  {
    var c := s.caps[i];
    var s1 := Apply(s, Do(i, a));
    ActIsMonotone(c, a);
    assert a.Returns? ==> c.flags.delivered && Act(c, a).flags == c.flags;
    assert Sound(c);
    hide Act, Possible, Sound, Enabled;
    assert s1.caps[i] == Act(c, a) && forall j | 0 <= j < |s.caps| && j != i :: s1.caps[j] == s.caps[j];
    if Robs(s, Do(i, a)) {
      var j :| 0 <= j < |s.caps| && j != i && !s.caps[j].flags.released && s.caps[j].what.chan == c.what.chan;
      assert s1.caps[j] == s.caps[j];
    } else {
      assert Marks(s1);
      forall ch | ch in s1.running
        ensures exists k | 0 <= k < |s1.caps| :: !s1.caps[k].flags.released && s1.caps[k].what.chan == ch
      {
        var k :| 0 <= k < |s.caps| && !s.caps[k].flags.released && s.caps[k].what.chan == ch;
        assert k == i ==> !s1.caps[i].flags.released;
        assert !s1.caps[k].flags.released && s1.caps[k].what.chan == ch;
      }
    }
  }

  /** In every state of the run, a capture that is not released has its channel marked. */
  ghost predicate AlwaysMarked(steps: seq<Step>)
    requires IsRun(steps)
    decreases |steps|
  {
    Marks(After(steps)) && (steps == [] || AlwaysMarked(steps[..|steps| - 1]))
  }

  /** No activation returns while another, unreleased one has its channel, unless the returning one lingers. */
  ghost predicate NeverRobbed(steps: seq<Step>)
    requires IsRun(steps)
    decreases |steps|
  {
    steps == [] || (NeverRobbed(steps[..|steps| - 1]) && !Robs(After(steps[..|steps| - 1]), steps[|steps| - 1]))
  }

  /** Every accepted launch finds all earlier captures of its channel returned or lingering. */
  ghost predicate LaunchesWait(steps: seq<Step>)
    requires IsRun(steps)
    decreases |steps|
  {
    steps == [] ||
    (LaunchesWait(steps[..|steps| - 1]) &&
     (steps[|steps| - 1].Launch? && !Refused(After(steps[..|steps| - 1]), steps[|steps| - 1]) ==>
        OthersDone(After(steps[..|steps| - 1]), |After(steps[..|steps| - 1]).caps|, steps[|steps| - 1].what.chan)))
  }

  /** Captures of channel `ch` other than number `j` have returned or linger. */
  ghost predicate OthersDone(s: State, j: nat, ch: Chan)
  {
    forall i | 0 <= i < |s.caps| && i != j && s.caps[i].what.chan == ch ::
      s.caps[i].life.stage.Returned? || s.caps[i].flags.lingering
  }

  lemma NothingMarked()
    ensures Marks(IDLE) && Exclusive(IDLE)
  {
  }

  /** The busy marks are right throughout a run exactly when no return robs another capture of its mark. */
  lemma {:induction false} BusyMarksHoldExactly(steps: seq<Step>)
    requires IsRun(steps)
    ensures AlwaysMarked(steps) <==> NeverRobbed(steps)
    ensures AlwaysMarked(steps) ==> Exclusive(After(steps))
    decreases |steps|
  {
    hide Marks, Exclusive, AllSound, Apply, Enabled, Robs;
    if steps == [] {
      NothingMarked();
    } else {
      var front, last := steps[..|steps| - 1], steps[|steps| - 1];
      BusyMarksHoldExactly(front);
      RunKeepsSound(front);
      if AlwaysMarked(front) {
        assert Marks(After(front));
        StepMarks(After(front), last);
      }
    }
  }

  /** Whoever holds a channel holds it alone: the others on it have returned or linger. */
  ghost predicate Alone(s: State)
  {
    forall j | 0 <= j < |s.caps| && !s.caps[j].flags.released :: OthersDone(s, j, s.caps[j].what.chan)
  }

  lemma AloneIsNotRobbed(s: State, step: Step)
    requires Alone(s) && Enabled(s, step)
    ensures !Robs(s, step)
  {
    if step.Do? && step.action.Returns? {
      var c := s.caps[step.i];
      forall j | 0 <= j < |s.caps| && j != step.i && !s.caps[j].flags.released && s.caps[j].what.chan == c.what.chan
        ensures c.flags.lingering
      {
        assert OthersDone(s, j, c.what.chan);
      }
    }
  }

  lemma LaunchKeepsAlone(s: State, what: What)
    requires Marks(s) && Alone(s) && what.chan !in s.running && OthersDone(s, |s.caps|, what.chan)
    ensures Alone(Apply(s, Launch(what, false)))
  {
    hide Act, Possible;
    forall j | 0 <= j < |s.caps| && !s.caps[j].flags.released
      ensures OthersDone(Apply(s, Launch(what, false)), j, s.caps[j].what.chan)
    {
      assert s.caps[j].what.chan != what.chan;
      assert OthersDone(s, j, s.caps[j].what.chan);
    }
  }

  lemma DoKeepsAlone(s: State, i: nat, a: Action)
    requires AllSound(s) && Alone(s) && Enabled(s, Do(i, a))
    ensures Alone(Apply(s, Do(i, a)))
  {
    ActIsMonotone(s.caps[i], a);
    hide Act, Possible, Sound;
    var s1 := Apply(s, Do(i, a));
    forall j | 0 <= j < |s1.caps| && !s1.caps[j].flags.released
      ensures OthersDone(s1, j, s1.caps[j].what.chan)
    {
      assert OthersDone(s, j, s.caps[j].what.chan);
    }
  }

  lemma StepKeepsAlone(s: State, step: Step)
    requires AllSound(s) && Marks(s) && Alone(s) && Enabled(s, step)
    requires step.Launch? && !Refused(s, step) ==> OthersDone(s, |s.caps|, step.what.chan)
    ensures Alone(Apply(s, step)) && !Robs(s, step)
  {
    hide Alone, AllSound, Marks, OthersDone, Robs, Possible, Act;
    AloneIsNotRobbed(s, step);
    if step.Do? {
      DoKeepsAlone(s, step.i, step.action);
    } else if !Refused(s, step) {
      LaunchKeepsAlone(s, step.what);
    }
  }

  lemma NothingAlone()
    ensures Alone(IDLE)
  {
  }

  /** If a channel is used again only after the earlier activation has returned, every mark holds until its own release. */
  lemma {:induction false} WaitingKeepsMarks(steps: seq<Step>)
    requires IsRun(steps) && LaunchesWait(steps)
    ensures AlwaysMarked(steps) && Exclusive(After(steps)) && Alone(After(steps))
    decreases |steps|
  {
    hide Marks, Exclusive, AllSound, Apply, Enabled, Robs, Refused, Alone, OthersDone;
    if steps == [] {
      NothingMarked();
      NothingAlone();
    } else {
      var front, last := steps[..|steps| - 1], steps[|steps| - 1];
      WaitingKeepsMarks(front);
      RunKeepsSound(front);
      StepKeepsAlone(After(front), last);
      BusyMarksHoldExactly(front);
      BusyMarksHoldExactly(steps);
    }
  }

  /**
   Without that, a mark can be lost.  An abort during the write releases the channel, another capture
   takes it, and when the write of the first one completes its `finally` unmarks the second.
   */
  lemma LateReturnRobsTheNext(what: What)
    ensures var steps := [Launch(what, false), Do(0, Listened), Do(0, AbortSignalled), Launch(what, false), Do(0, Written(true)), Do(0, Returns)];
            IsRun(steps) && !AlwaysMarked(steps) && !Refused(After(steps), Launch(what, false))
  {
    hide Act, Possible, Apply, Enabled, AlwaysMarked, Begin;
    var s1, s2, s3, s4, s5 := Launch(what, false), Do(0, Listened), Do(0, AbortSignalled), Do(0, Written(true)), Do(0, Returns);
    RobberyStates(what);
    ExtendRun([], s1);
    assert [] + [s1] == [s1];
    ExtendRun([s1], s2);
    assert [s1] + [s2] == [s1, s2];
    ExtendRun([s1, s2], s3);
    assert [s1, s2] + [s3] == [s1, s2, s3];
    ExtendRun([s1, s2, s3], s1);
    assert [s1, s2, s3] + [s1] == [s1, s2, s3, s1];
    ExtendRun([s1, s2, s3, s1], s4);
    assert [s1, s2, s3, s1] + [s4] == [s1, s2, s3, s1, s4];
    ExtendRun([s1, s2, s3, s1, s4], s5);
    assert [s1, s2, s3, s1, s4] + [s5] == [s1, s2, s3, s1, s4, s5];
    NotMarked([s1, s2, s3, s1, s4, s5], 1);
  }

  /** The states of that run, one after the other. */
  lemma RobberyStates(what: What)
    ensures var launch, ch := Launch(what, false), what.chan;
            var c0 := Begin(what);
            var c1 := Act(c0, Listened);
            var c2 := Act(c1, AbortSignalled);
            var c3 := Act(c2, Written(true));
            var c4 := Act(c3, Returns);
            && !c0.flags.released && c0.what.chan == ch
            && Enabled(IDLE, launch) && Apply(IDLE, launch) == State({ch}, [c0])
            && Enabled(State({ch}, [c0]), Do(0, Listened)) && Apply(State({ch}, [c0]), Do(0, Listened)) == State({ch}, [c1])
            && Enabled(State({ch}, [c1]), Do(0, AbortSignalled)) && Apply(State({ch}, [c1]), Do(0, AbortSignalled)) == State({}, [c2])
            && Enabled(State({}, [c2]), launch) && Apply(State({}, [c2]), launch) == State({ch}, [c2, c0])
            && Enabled(State({ch}, [c2, c0]), Do(0, Written(true)))
            && Apply(State({ch}, [c2, c0]), Do(0, Written(true))) == State({ch}, [c3, c0])
            && Enabled(State({ch}, [c3, c0]), Do(0, Returns)) && Apply(State({ch}, [c3, c0]), Do(0, Returns)) == State({}, [c4, c0])
  {
    AbortDuringWrite(what);
    hide Act, Possible;
  }

  /** The four callbacks of the first capture. */
  lemma AbortDuringWrite(what: What)
    ensures var c0 := Begin(what);
            var c1 := Act(c0, Listened);
            var c2 := Act(c1, AbortSignalled);
            var c3 := Act(c2, Written(true));
            var c4 := Act(c3, Returns);
            && Possible(c0, Listened) && Possible(c1, AbortSignalled) && Possible(c2, Written(true)) && Possible(c3, Returns)
            && !c1.flags.released && c2.flags.released && c3.flags.released && c4.flags.released
            && !c3.flags.lingering
            && c1.what == c2.what == c3.what == c4.what == what
  {
  }

  lemma NotMarked(steps: seq<Step>, i: nat)
    requires IsRun(steps) && i < |After(steps).caps| && !After(steps).caps[i].flags.released
    requires After(steps).caps[i].what.chan !in After(steps).running
    ensures !AlwaysMarked(steps)
  {
  }

  lemma ExtendRun(steps: seq<Step>, step: Step)
    requires IsRun(steps) && Enabled(After(steps), step)
    ensures IsRun(steps + [step]) && After(steps + [step]) == Apply(After(steps), step)
  {
    assert (steps + [step])[..|steps|] == steps;
  }

  // ---- What the agent is told ----

  datatype Outcome = Succeeded | FailedOutcome | OutcomeUnknown | UnsupportedOutcome | Blocked

  /** The outcome of a delivered result; the activation that threw has none. */
  function OutcomeOf(status: Status, exitCode: Option<int>): Outcome
  {
    match status
    case CompletedStatus => if exitCode == Some(0) then Succeeded else if exitCode.None? then OutcomeUnknown else FailedOutcome
    case TimeoutStatus => OutcomeUnknown
    case StreamingStatus => OutcomeUnknown
    case ClosedStatus => OutcomeUnknown
    case UnsupportedStatus => UnsupportedOutcome
    case DeniedStatus => Blocked
    case BlockedStatus => Blocked
  }

  /** The outcome of a result that a capture settled with. */
  function Reported(s: Settlement): Option<Outcome>
  {
    match s
    case Finished(status, exitCode, _) => Some(OutcomeOf(status, exitCode))
    case Sampled(status, _) => Some(OutcomeOf(status, None))
    case _ => None
  }

  lemma SettlesUnblocked(c: Capture, a: Action, s: Settlement)
    requires SettlesWith(c, a, s)
    ensures Reported(s) != Some(Blocked)
  {
    hide OwnEnd;
  }

  lemma ActIsNotBlocked(c: Capture, a: Action)
    requires Consistent(c) && Possible(c, a)
    requires forall s | s in c.settled :: Reported(s) != Some(Blocked)
    ensures forall s | s in Act(c, a).settled :: Reported(s) != Some(Blocked)
  {
    hide Act, Possible, Reported, SettlesWith, OwnEnd;
    ActKeepsConsistent(c, a);
    ActIsMonotone(c, a);
    if !c.flags.delivered {
      WhatSettles(c, a);
    }
    if c.settled == [] && Act(c, a).settled != [] {
      SettlesUnblocked(c, a, Act(c, a).settled[0]);
    }
  }

  /** No capture is reported as blocked: that outcome is for commands that were not run. */
  lemma {:induction false} NoCaptureIsBlocked(steps: seq<Step>)
    requires IsRun(steps)
    ensures forall c, s | c in After(steps).caps && s in c.settled :: Reported(s) != Some(Blocked)
    decreases |steps|
  {
    hide Act, Possible, Reported, Sound;
    if steps != [] {
      var front, last := steps[..|steps| - 1], steps[|steps| - 1];
      NoCaptureIsBlocked(front);
      RunKeepsSound(front);
      if last.Do? {
        SoundIsConsistent(After(front).caps[last.i]);
        ActIsNotBlocked(After(front).caps[last.i], last.action);
      }
    }
  }

  lemma SoundIsConsistent(c: Capture)
    requires Sound(c)
    ensures Consistent(c)
  {
  }

  /** A command is reported as succeeded or failed only after the shell announced the end of this very command, with its exit code. */
  lemma VerdictsAreObserved(c: Capture, a: Action)
    requires Consistent(c) && Possible(c, a) && !c.flags.delivered
    requires Act(c, a).settled != [] && Act(c, a).settled[0].Finished?
    requires OutcomeOf(Act(c, a).settled[0].status, Act(c, a).settled[0].exitCode) in {Succeeded, FailedOutcome}
    ensures a.Marked? && OwnEnd(c, a.marker) && a.marker.exitCode.Some?
    ensures OutcomeOf(Act(c, a).settled[0].status, Act(c, a).settled[0].exitCode) == Succeeded <==> a.marker.exitCode == Some(0)
  {
    hide Act, OwnEnd, Possible;
    WhatSettles(c, a);
  }
}
