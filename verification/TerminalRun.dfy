/**
 `runTerminalCommandAndCapture` on mutable variables: the two channel sets of the module, and the
 variables and closures of one activation.  Every method is proved against the function of the same
 callback in `TerminalCapture`.
 */
module TerminalRun {
  import opened Prelude
  import opened JsString
  import opened TerminalOutput
  import opened TerminalCapture

  /** `runningChannels` and `activeTerminalChannels`. */
  class Channels {
    var running: set<Chan>
    var active: set<Chan>

    constructor ()
      ensures running == {} && active == {}
    {
      running, active := {}, {};
    }

    method MarkExecution(ch: Chan, on: bool)
      modifies this`active
      ensures active == if on then old(active) + {ch} else old(active) - {ch}
    {
      if on {
        active := active + {ch};
      } else {
        active := active - {ch};
      }
    }

    method IsBusy(ch: Chan) returns (busy: bool)
      ensures busy <==> Busy(running, active, ch)
    {
      var capture, shell := ch in running, ch in active;
      busy := capture || shell;
    }
  }

  predicate Busy(running: set<Chan>, active: set<Chan>, ch: Chan)
  {
    ch in running || ch in active
  }

  /**
   While no return has robbed a capture, a channel is busy exactly when the shell runs something there
   or a capture of it has not been released.
   */
  lemma BusyExactly(steps: seq<Step>, active: set<Chan>, ch: Chan)
    requires IsRun(steps) && NeverRobbed(steps)
    ensures Busy(After(steps).running, active, ch) <==>
              ch in active || exists c | c in After(steps).caps :: !c.flags.released && c.what.chan == ch
  {
    BusyMarksHoldExactly(steps);
    var s := After(steps);
    assert Marks(s) && Exclusive(s);
    if c :| c in s.caps && !c.flags.released && c.what.chan == ch {
      var i :| 0 <= i < |s.caps| && s.caps[i] == c;
    }
  }

  /** What is left of the channel marks after `c` became `c1` without returning. */
  ghost function AfterRelease(running: set<Chan>, c: Capture, c1: Capture): set<Chan>
  {
    if !c.flags.released && c1.flags.released then running - {c.what.chan} else running
  }

  lemma ListenKeepsFlags(c: Capture, m: Marker)
    ensures Listen(c, m).flags == c.flags && Listen(c, m).what == c.what
  {
  }

  lemma StartKeepsRelease(c: Capture, m: Marker)
    ensures Start(c, m).flags.released == c.flags.released && Start(c, m).flags.lingering == c.flags.lingering
    ensures Start(c, m).what == c.what
  {
  }

  class Run {
    const channels: Channels
    const buffers: Buffers
    const what: What
    var life: Life
    var flags: Flags
    var hook: Hook
    var timers: Timers
    var heard: string
    var settled: seq<Settlement>

    ghost function Abs(): Capture
      reads this, buffers
    {
      Capture(what, life, flags, hook, timers, Text(buffers.Abs(), heard), settled)
    }

    /** Only a capture whose launch was not refused has variables. */
    constructor (shared: Channels, w: What)
      requires w.chan !in shared.running
      modifies shared`running
      ensures channels == shared && Abs() == Begin(w) && fresh(buffers)
      ensures shared.running == old(shared.running) + {w.chan}
    {
      channels, what := shared, w;
      buffers := new Buffers();
      life := Life(Listening, false, true, 0);
      flags := Flags(false, false, false, false);
      hook := Hook(true, false, false, 0);
      timers := Timers(Unset, Unset);
      heard, settled := "", [];
      new;
      shared.running := shared.running + {w.chan};
    }

    method ClearAll()
      modifies this`timers, this`life
      ensures Abs() == ClearWaiters(old(Abs()))
    {
      if timers.start.Armed? {
        timers := timers.(start := Cleared);
      }
      if timers.completion.Armed? {
        timers := timers.(completion := Cleared);
      }
      life := life.(watching := false);
    }

    method ReleaseChannel()
      modifies this, channels`running
      ensures Abs() == Release(old(Abs()))
      ensures channels.running == AfterRelease(old(channels.running), old(Abs()), Abs())
    {
      if flags.released {
        return;
      }
      flags := flags.(released := true);
      ClearAll();
      channels.running := channels.running - {what.chan};
      if hook.unlisten {
        hook := Hook(false, false, hook.pending, hook.unlistened + 1);
      } else {
        hook := hook.(pending := true);
      }
    }

    method Note(v: string)
      modifies this`heard, buffers
      ensures Abs() == Hear(old(Abs()), v)
    {
      buffers.AppendOutput(v);
      heard := heard + v;
    }

    method FinishWith(status: Status, exitCode: Option<int>, flush: string)
      modifies this, buffers, channels`running
      ensures Abs() == Finish(old(Abs()), status, exitCode, flush)
      ensures channels.running == AfterRelease(old(channels.running), old(Abs()), Abs())
    {
      hide ClearWaiters, Append, Unhook;
      if flags.delivered {
        return;
      }
      flags := flags.(delivered := true);
      Note(flush);
      var out := Output(buffers.rawOutput, buffers.headOutput, buffers.tailOutput, buffers.totalOutputChars);
      ReleaseChannel();
      settled := settled + [Finished(status, exitCode, out)];
    }

    method SnapshotAndMonitor(status: Status, flush: string)
      modifies this, buffers
      ensures Abs() == Snapshot(old(Abs()), status, flush)
    {
      hide Append;
      if flags.delivered {
        return;
      }
      flags := flags.(delivered := true, lingering := true);
      Note(flush);
      ClearAll();
      var out := Output(buffers.rawOutput, buffers.headOutput, buffers.tailOutput, buffers.totalOutputChars);
      settled := settled + [Sampled(status, out)];
    }

    method FailWith(error: Settlement)
      modifies this, channels`running
      ensures Abs() == Fail(old(Abs()), error)
      ensures channels.running == AfterRelease(old(channels.running), old(Abs()), Abs())
    {
      hide Unhook;
      if flags.delivered {
        return;
      }
      flags := flags.(delivered := true);
      if flags.started {
        flags := flags.(lingering := true);
        ClearAll();
      } else {
        ReleaseChannel();
      }
      settled := settled + [error];
    }

    method HearMarker(m: Marker)
      modifies this`heard, buffers
      ensures Abs() == Listen(old(Abs()), m)
    {
      if !flags.delivered && flags.started && m.text.Some? {
        Note(m.text.value);
      }
    }

    method StartMarked(m: Marker)
      modifies this`flags, this`timers
      ensures Abs() == Start(old(Abs()), m)
    {
      if m.execStart && timers.completion.Unset? {
        flags := flags.(started := true);
        timers := Timers(if timers.start.Armed? then Cleared else timers.start, Armed);
      }
    }

    method ReleaseOrFinish(status: Status, exitCode: Option<int>, flush: string)
      modifies this, buffers, channels`running
      ensures Abs() == if old(flags.lingering) then Release(old(Abs())) else Finish(old(Abs()), status, exitCode, flush)
      ensures channels.running == AfterRelease(old(channels.running), old(Abs()), Abs())
    {
      hide Release, Finish;
      if flags.lingering {
        ReleaseChannel();
      } else {
        FinishWith(status, exitCode, flush);
      }
    }

    method HandleMarker(m: Marker, flush: string)
      modifies this, buffers, channels`running
      ensures Abs() == OnMarker(old(Abs()), m, flush)
      ensures channels.running == AfterRelease(old(channels.running), old(Abs()), Abs())
    {
      hide Release, Finish, Trim, Listen, Start;
      ghost var c := Abs();
      HearMarker(m);
      ghost var c1 := Abs();
      ListenKeepsFlags(c, m);
      if m.closed {
        ReleaseOrFinish(ClosedStatus, None, flush);
        return;
      }
      StartMarked(m);
      StartKeepsRelease(c1, m);
      if m.execEnd && m.command.Some? && Trim(m.command.value) == Trim(what.command) {
        ReleaseOrFinish(CompletedStatus, m.exitCode, flush);
      }
    }

    method HandleListening()
      modifies this, channels`running
      ensures Abs() == OnListening(old(Abs()))
      ensures channels.running == AfterRelease(old(channels.running), old(Abs()), Abs())
    {
      hide Fail;
      if hook.pending {
        hook := hook.(alive := false, unlisten := false, unlistened := hook.unlistened + 1);
      } else {
        hook := hook.(unlisten := true);
      }
      if flags.delivered && !flags.lingering {
        life := life.(stage := Awaiting);
      } else if life.aborted {
        FailWith(Aborted);
        life := life.(stage := Awaiting);
      } else {
        timers := timers.(start := Armed);
        life := life.(stage := Writing, writes := life.writes + 1);
      }
    }

    method HandleListenError()
      modifies this, channels`running
      ensures Abs() == OnListenError(old(Abs()))
      ensures channels.running == AfterRelease(old(channels.running), old(Abs()), Abs())
    {
      hide Fail;
      hook := hook.(alive := false);
      FailWith(Failed);
      life := life.(stage := Awaiting);
    }

    method HandleWritten(ok: bool)
      modifies this, channels`running
      ensures Abs() == OnWritten(old(Abs()), ok)
      ensures channels.running == AfterRelease(old(channels.running), old(Abs()), Abs())
    {
      hide Fail;
      if !ok {
        FailWith(Failed);
      }
      life := life.(stage := Awaiting);
    }

    method HandleStartTimer(flush: string)
      modifies this, buffers, channels`running
      ensures Abs() == OnStartTimer(old(Abs()), flush)
      ensures channels.running == AfterRelease(old(channels.running), old(Abs()), Abs())
    {
      hide Finish;
      timers := timers.(start := Fired);
      FinishWith(UnsupportedStatus, None, flush);
    }

    method HandleCompletionTimer(flush: string)
      modifies this, buffers
      ensures Abs() == OnCompletionTimer(old(Abs()), flush)
    {
      hide Snapshot;
      timers := timers.(completion := Fired);
      SnapshotAndMonitor(if what.streaming then StreamingStatus else TimeoutStatus, flush);
    }

    method HandleAbort()
      modifies this, channels`running
      ensures Abs() == OnAbort(old(Abs()))
      ensures channels.running == AfterRelease(old(channels.running), old(Abs()), Abs())
    {
      hide Fail;
      var watching := life.watching;
      life := life.(aborted := true, watching := false);
      if watching {
        FailWith(Aborted);
      }
    }

    /** `finally`: the second deletion. */
    method Return()
      modifies this, channels`running
      ensures Abs() == OnReturn(old(Abs()))
      ensures channels.running == if old(flags.lingering) then old(channels.running) else old(channels.running) - {what.chan}
    {
      if !flags.lingering {
        channels.running := channels.running - {what.chan};
      }
      life := life.(stage := Returned);
    }
  }
}
