/**
 Task and registry ordering of a VNC connection.  The connecting task spawns a writer, a ticker and
 a reader and then registers the session; the reader cleans up after itself when the server
 disconnects.  The server head holds the reader back until the session is registered, the desktop
 head does not.  Steps of the connecting task, the reader and any number of close requests may
 interleave in every way.
 */
module VncSessions {

  datatype Reader = Held | Pumping | CleaningUp | Exited | Aborted

  datatype Session = Session(
    inserted: bool,     // the connecting task has registered the session
    signalled: bool,    // ... and let the reader go
    registered: bool,   // the session is in the registry now
    reader: Reader,
    siblings: bool,     // writer and ticker have not been aborted
    closedEvents: nat)

  datatype Step =
    | Insert
    | Signal
    | Release      // the held reader notices the signal
    | PumpEnds     // the server disconnects: siblings aborted, `vnc-closed` emitted
    | Deregister   // the reader's last statement
    | Close        // `vnc_close_core`: remove the entry and abort its three tasks

  function Spawned(gated: bool): Session
  {
    Session(false, false, false, if gated then Held else Pumping, true, 0)
  }

  predicate Enabled(s: Session, step: Step, gated: bool)
  {
    match step
    case Insert => !s.inserted
    case Signal => gated && s.inserted && !s.signalled
    case Release => s.reader == Held && s.signalled
    case PumpEnds => s.reader == Pumping
    case Deregister => s.reader == CleaningUp
    case Close => true
  }

  function Next(s: Session, step: Step): Session
  {
    match step
    case Insert => s.(inserted := true, registered := true)
    case Signal => s.(signalled := true)
    case Release => s.(reader := Pumping)
    case PumpEnds => s.(reader := CleaningUp, siblings := false, closedEvents := s.closedEvents + 1)
    case Deregister => s.(reader := Exited, registered := false)
    case Close =>
      if !s.registered then s
      // A reader that is cleaning up awaits nothing any more, so an abort no longer stops it.
      else s.(registered := false, siblings := false,
              reader := if s.reader == Held || s.reader == Pumping then Aborted else s.reader)
  }

  predicate IsRun(s: Session, steps: seq<Step>, gated: bool)
    decreases |steps|
  {
    steps == [] || (Enabled(s, steps[0], gated) && IsRun(Next(s, steps[0]), steps[1..], gated))
  }

  function After(s: Session, steps: seq<Step>): Session
    decreases |steps|
  {
    if steps == [] then s else After(Next(s, steps[0]), steps[1..])
  }

  /** A registry entry whose reader has gone: nothing will ever remove it again. */
  predicate Stale(s: Session)
  {
    s.registered && s.reader == Exited
  }

  /** Writer and ticker still run although nothing refers to them. */
  predicate Leaked(s: Session)
  {
    s.inserted && !s.registered && s.siblings
  }

  predicate Ordered(s: Session, gated: bool)
  {
    && (s.signalled ==> s.inserted)
    && (s.registered ==> s.inserted)
    && (gated && !s.signalled ==> s.reader == Held || s.reader == Aborted)
    && (s.inserted && !s.registered ==> !s.siblings)
    && (s.closedEvents == if s.reader == CleaningUp || s.reader == Exited then 1 else 0)
    && (s.reader == CleaningUp || s.reader == Exited || s.reader == Aborted ==> !s.siblings)
    && (gated ==> !Stale(s))
  }

  lemma {:induction false} OrderIsKept(s: Session, steps: seq<Step>, gated: bool)
    requires Ordered(s, gated) && IsRun(s, steps, gated)
    ensures Ordered(After(s, steps), gated)
    decreases |steps|
  {
    if steps != [] {
      OrderIsKept(Next(s, steps[0]), steps[1..], gated);
    }
  }

  /**
   * In every run of the server head: no stale entry, no leaked task, and `vnc-closed` is emitted
   * once when the reader ends by itself and never when it was closed.
   */
  lemma GatedRunsLeaveNothingBehind(steps: seq<Step>)
    requires IsRun(Spawned(true), steps, true)
    ensures var s := After(Spawned(true), steps);
            !Stale(s) && !Leaked(s)
            && (s.reader == Exited ==> !s.registered && !s.siblings && s.closedEvents == 1)
            && (s.reader == Aborted ==> s.closedEvents == 0)
  {
    OrderIsKept(Spawned(true), steps, true);
  }

  /** The desktop head lets a reader finish before the entry exists, and then the entry stays. */
  lemma UngatedRunLeavesStaleEntry()
    ensures exists steps :: IsRun(Spawned(false), steps, false) && Stale(After(Spawned(false), steps))
  {
    var steps := [PumpEnds, Deregister, Insert];
    var s1 := Next(Spawned(false), PumpEnds);
    var s2 := Next(s1, Deregister);
    assert steps[1..] == [Deregister, Insert] && steps[1..][1..] == [Insert] && steps[1..][1..][1..] == [];
    assert IsRun(s2, [Insert], false) && After(s2, [Insert]) == Next(s2, Insert);
    assert IsRun(s1, steps[1..], false) && After(s1, steps[1..]) == Next(s2, Insert);
    assert IsRun(Spawned(false), steps, false);
  }

  /** The entry was inserted behind the reader's cleanup, and not closed since. */
  predicate InsertedTooLate(s: Session, steps: seq<Step>)
    decreases |steps|
  {
    steps != []
    && ((steps[0] == Insert && s.reader == Exited && Close !in steps[1..])
        || InsertedTooLate(Next(s, steps[0]), steps[1..]))
  }

  /** In either head an entry is stale exactly when it was inserted too late and never closed. */
  lemma {:induction false} StaleExactlyWhenInsertedTooLate(s: Session, steps: seq<Step>, gated: bool)
    requires Ordered(s, gated) && IsRun(s, steps, gated) && !Stale(s)
    ensures Stale(After(s, steps)) <==> InsertedTooLate(s, steps)
    decreases |steps|
  {
    if steps != [] {
      var t, rest := Next(s, steps[0]), steps[1..];
      if steps[0] == Insert && s.reader == Exited {
        StaleUntilClosed(t, rest, gated);
      } else {
        StaleExactlyWhenInsertedTooLate(t, rest, gated);
      }
    }
  }

  lemma {:induction false} StaleUntilClosed(s: Session, steps: seq<Step>, gated: bool)
    requires s.inserted && s.reader == Exited && IsRun(s, steps, gated)
    ensures Stale(After(s, steps)) <==> s.registered && Close !in steps
    ensures !InsertedTooLate(s, steps)
    decreases |steps|
  {
    if steps != [] {
      StaleUntilClosed(Next(s, steps[0]), steps[1..], gated);
    }
  }
}
