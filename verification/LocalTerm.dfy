/**
 The local terminal's read loop: the visible bytes of a chunk are cut at the shell's lifecycle events
 and sent in order, each event between the bytes before and after it.
 */
module LocalTerm {
  import opened Prelude

  type Bytes = seq<bv8>

  datatype OscEvent =
    | InputStart
    | CommandLine(command: string)
    | ExecStart
    | ExecEnd(code: Option<int>)
    | Other                        // directory, ready

  datatype Positioned = Positioned(offset: nat, event: OscEvent)

  /** What is emitted: terminal frames, and an entry of the command history. */
  datatype Frame =
    | Output(bytes: Bytes, inputStart: bool)
    | InputStarts
    | ExecStarts
    | ExecEnds(command: string, code: Option<int>)
    | History(command: string, code: Option<int>)

  function At(visible: Bytes, p: Positioned): nat
  {
    if p.offset < |visible| then p.offset else |visible|
  }

  /** The bytes up to an event; a frame of its own for an input start without any. */
  function Before(before: Bytes, e: OscEvent): seq<Frame>
  {
    if before != [] then [Output(before, e.InputStart?)] else if e.InputStart? then [InputStarts] else []
  }

  function Announce(e: OscEvent, cmd: Option<string>): seq<Frame>
  {
    match e
    case ExecStart => [ExecStarts]
    case ExecEnd(code) => if cmd.Some? then [ExecEnds(cmd.value, code), History(cmd.value, code)] else []
    case _ => []
  }

  function NextCommand(e: OscEvent, cmd: Option<string>): Option<string>
  {
    match e
    case CommandLine(c) => Some(c)
    case ExecEnd(_) => None
    case _ => cmd
  }

  /** The scanner's offsets never fall; the slices of the source would panic otherwise. */
  ghost predicate Ordered(visible: Bytes, pos: nat, events: seq<Positioned>)
  {
    && pos <= |visible|
    && (forall k | 0 <= k < |events| :: pos <= At(visible, events[k]))
    && (forall j, k | 0 <= j < k < |events| :: At(visible, events[j]) <= At(visible, events[k]))
  }

  function Emitted(visible: Bytes, pos: nat, events: seq<Positioned>, cmd: Option<string>): seq<Frame>
    requires Ordered(visible, pos, events)
    decreases |events|
  {
    if events == [] then if pos < |visible| then [Output(visible[pos..], false)] else []
    else
      var at, e := At(visible, events[0]), events[0].event;
      OrderedRest(visible, pos, events);
      Before(visible[pos..at], e) + Announce(e, cmd) + Emitted(visible, at, events[1..], NextCommand(e, cmd))
  }

  function CommandAfter(events: seq<Positioned>, cmd: Option<string>): Option<string>
  {
    if events == [] then cmd else CommandAfter(events[1..], NextCommand(events[0].event, cmd))
  }

  lemma OrderedRest(visible: Bytes, pos: nat, events: seq<Positioned>)
    requires Ordered(visible, pos, events) && events != []
    ensures Ordered(visible, At(visible, events[0]), events[1..])
  {
    assert forall k | 0 <= k < |events[1..]| :: events[1..][k] == events[k + 1];
  }

  /** `emit_local_scanned` after the scanner has been fed. */
  method EmitLocalScanned(visible: Bytes, events: seq<Positioned>, curCmd: Option<string>) returns (frames: seq<Frame>, cmd: Option<string>)
    requires Ordered(visible, 0, events)
    ensures frames == Emitted(visible, 0, events, curCmd)
    ensures cmd == CommandAfter(events, curCmd)
  {
    hide Before, Announce, NextCommand;
    frames, cmd := [], curCmd;
    var pos, i := 0, 0;
    assert events[0..] == events;
    while i < |events|
      invariant 0 <= i <= |events| && Ordered(visible, pos, events[i..])
      invariant frames + Emitted(visible, pos, events[i..], cmd) == Emitted(visible, 0, events, curCmd)
      invariant CommandAfter(events[i..], cmd) == CommandAfter(events, curCmd)
    {
      var at, e := At(visible, events[i]), events[i].event;
      assert events[i..][0] == events[i] && events[i..][1..] == events[i + 1..];
      OrderedRest(visible, pos, events[i..]);
      ghost var rest := Emitted(visible, at, events[i + 1..], NextCommand(e, cmd));
      frames := frames + Before(visible[pos..at], e);
      frames := frames + Announce(e, cmd);
      cmd := NextCommand(e, cmd);
      pos, i := at, i + 1;
    }
    assert events[i..] == [];
    if pos < |visible| {
      frames := frames + [Output(visible[pos..], false)];
    }
  }

  // ---- The bytes are partitioned ----

  function BytesOf(frames: seq<Frame>): Bytes
  {
    if frames == [] then [] else (if frames[0].Output? then frames[0].bytes else []) + BytesOf(frames[1..])
  }

  lemma BytesConcat(a: seq<Frame>, b: seq<Frame>)
    ensures BytesOf(a + b) == BytesOf(a) + BytesOf(b)
  {
    if a == [] {
      assert a + b == b;
    } else {
      assert (a + b)[1..] == a[1..] + b;
    }
  }

  lemma BytesOfEvent(before: Bytes, e: OscEvent, cmd: Option<string>)
    ensures BytesOf(Before(before, e) + Announce(e, cmd)) == before
  {
    BytesConcat(Before(before, e), Announce(e, cmd));
    if before != [] {
      assert BytesOf([Output(before, e.InputStart?)]) == before + BytesOf([]);
    }
    if e.ExecEnd? && cmd.Some? {
      assert Announce(e, cmd)[1..] == [History(cmd.value, e.code)];
      assert [History(cmd.value, e.code)][1..] == [];
    }
  }

  /** Every visible byte is sent once and in order. */
  lemma {:induction false} NoByteIsLost(visible: Bytes, pos: nat, events: seq<Positioned>, cmd: Option<string>)
    requires Ordered(visible, pos, events)
    ensures BytesOf(Emitted(visible, pos, events, cmd)) == visible[pos..]
    decreases |events|
  {
    hide Before, Announce, NextCommand;
    if events == [] {
      if pos < |visible| {
        assert [Output(visible[pos..], false)][1..] == [];
      }
    } else {
      var at, e := At(visible, events[0]), events[0].event;
      OrderedRest(visible, pos, events);
      NoByteIsLost(visible, at, events[1..], NextCommand(e, cmd));
      BytesOfEvent(visible[pos..at], e, cmd);
      BytesConcat(Before(visible[pos..at], e) + Announce(e, cmd), Emitted(visible, at, events[1..], NextCommand(e, cmd)));
      assert visible[pos..at] + visible[at..] == visible[pos..];
    }
  }

  /** The frames sent before those of event `k`. */
  function SentBefore(visible: Bytes, pos: nat, events: seq<Positioned>, cmd: Option<string>, k: nat): seq<Frame>
    requires Ordered(visible, pos, events) && k < |events|
    decreases k
  {
    var at, e := At(visible, events[0]), events[0].event;
    OrderedRest(visible, pos, events);
    if k == 0 then Before(visible[pos..at], e)
    else Before(visible[pos..at], e) + Announce(e, cmd) + SentBefore(visible, at, events[1..], NextCommand(e, cmd), k - 1)
  }

  /**
   Events are announced exactly at their place: first the bytes before the offset, then the event with
   the command pending at that point, then the rest as if the chunk began there.
   */
  lemma {:induction false} EventsSitAtTheirOffsets(visible: Bytes, pos: nat, events: seq<Positioned>, cmd: Option<string>, k: nat)
    requires Ordered(visible, pos, events) && k < |events|
    ensures Ordered(visible, At(visible, events[k]), events[k + 1..])
    ensures Emitted(visible, pos, events, cmd) ==
            SentBefore(visible, pos, events, cmd, k) + Announce(events[k].event, CommandAfter(events[..k], cmd))
            + Emitted(visible, At(visible, events[k]), events[k + 1..], CommandAfter(events[..k + 1], cmd))
    ensures BytesOf(SentBefore(visible, pos, events, cmd, k)) == visible[pos..At(visible, events[k])]
    decreases k
  {
    hide Announce, NextCommand, Before;
    var at, e := At(visible, events[0]), events[0].event;
    var next := NextCommand(e, cmd);
    OrderedRest(visible, pos, events);
    BytesOfBefore(visible[pos..at], e);
    if k == 0 {
      assert events[..1][1..] == [];
    } else {
      EventsSitAtTheirOffsets(visible, at, events[1..], next, k - 1);
      Prefixes(events, k);
      BytesOfEvent(visible[pos..at], e, cmd);
      BytesConcat(Before(visible[pos..at], e) + Announce(e, cmd), SentBefore(visible, at, events[1..], next, k - 1));
      Slices(visible, pos, at, At(visible, events[k]));
      Unfold(visible, pos, events, cmd);
      CommandsUnfold(events, cmd, k);
      var now := Before(visible[pos..at], e) + Announce(e, cmd);
      var sent := SentBefore(visible, at, events[1..], next, k - 1);
      assert SentBefore(visible, pos, events, cmd, k) == now + sent;
      var said := Announce(events[k].event, CommandAfter(events[..k], cmd));
      var rest := Emitted(visible, At(visible, events[k]), events[k + 1..], CommandAfter(events[..k + 1], cmd));
      hide Emitted, SentBefore, CommandAfter, BytesOf;
      assert Emitted(visible, at, events[1..], next) == sent + said + rest;
      Assoc(now, sent, said);
      Assoc(now, sent + said, rest);
    }
  }

  lemma Prefixes(events: seq<Positioned>, k: nat)
    requires 0 < k < |events|
    ensures events[1..][k - 1] == events[k] && events[1..][k..] == events[k + 1..]
    ensures events[1..][..k - 1] == events[..k][1..] && events[1..][..k] == events[..k + 1][1..]
  {
  }

  lemma CommandsUnfold(events: seq<Positioned>, cmd: Option<string>, k: nat)
    requires 0 < k < |events|
    ensures CommandAfter(events[..k], cmd) == CommandAfter(events[1..][..k - 1], NextCommand(events[0].event, cmd))
    ensures CommandAfter(events[..k + 1], cmd) == CommandAfter(events[1..][..k], NextCommand(events[0].event, cmd))
  {
    Prefixes(events, k);
  }

  lemma Unfold(visible: Bytes, pos: nat, events: seq<Positioned>, cmd: Option<string>)
    requires Ordered(visible, pos, events) && events != []
    ensures Ordered(visible, At(visible, events[0]), events[1..])
    ensures var at, e := At(visible, events[0]), events[0].event;
            Emitted(visible, pos, events, cmd) ==
            Before(visible[pos..at], e) + Announce(e, cmd) + Emitted(visible, at, events[1..], NextCommand(e, cmd))
  {
    OrderedRest(visible, pos, events);
  }

  lemma BytesOfBefore(before: Bytes, e: OscEvent)
    ensures BytesOf(Before(before, e)) == before
  {
    BytesOfEvent(before, e, None);
    BytesConcat(Before(before, e), Announce(e, None));
    if before != [] {
      assert Before(before, e)[1..] == [];
    }
  }

  // ---- The command history ----

  /** A command is reported at the next end of execution after its line, and only once. */
  function Reported(events: seq<Positioned>, cmd: Option<string>): seq<(string, Option<int>)>
  {
    if events == [] then []
    else
      var e := events[0].event;
      (if e.ExecEnd? && cmd.Some? then [(cmd.value, e.code)] else []) + Reported(events[1..], NextCommand(e, cmd))
  }

  function HistoryOf(frames: seq<Frame>): seq<(string, Option<int>)>
  {
    if frames == [] then [] else (if frames[0].History? then [(frames[0].command, frames[0].code)] else []) + HistoryOf(frames[1..])
  }

  lemma HistoryConcat(a: seq<Frame>, b: seq<Frame>)
    ensures HistoryOf(a + b) == HistoryOf(a) + HistoryOf(b)
  {
    if a == [] {
      assert a + b == b;
    } else {
      assert (a + b)[1..] == a[1..] + b;
    }
  }

  lemma HistoryOfEvent(before: Bytes, e: OscEvent, cmd: Option<string>)
    ensures HistoryOf(Before(before, e) + Announce(e, cmd)) == if e.ExecEnd? && cmd.Some? then [(cmd.value, e.code)] else []
  {
    var now, say := Before(before, e), Announce(e, cmd);
    HistoryConcat(now, say);
    assert HistoryOf(now) == [] by {
      if now != [] { assert now[1..] == []; }
    }
    if say != [] {
      assert HistoryOf(say[1..]) == if |say| == 2 then [(cmd.value, e.code)] else [] by {
        if |say| == 2 { assert say[1..] == [History(cmd.value, e.code)] && say[1..][1..] == []; }
      }
    }
  }

  /** What goes to the command history is what was to be reported, in order. */
  lemma {:induction false} HistoryIsReported(visible: Bytes, pos: nat, events: seq<Positioned>, cmd: Option<string>)
    requires Ordered(visible, pos, events)
    ensures HistoryOf(Emitted(visible, pos, events, cmd)) == Reported(events, cmd)
    decreases |events|
  {
    hide Before, Announce, NextCommand;
    if events != [] {
      var at, e := At(visible, events[0]), events[0].event;
      OrderedRest(visible, pos, events);
      HistoryIsReported(visible, at, events[1..], NextCommand(e, cmd));
      HistoryOfEvent(visible[pos..at], e, cmd);
      HistoryConcat(Before(visible[pos..at], e) + Announce(e, cmd), Emitted(visible, at, events[1..], NextCommand(e, cmd)));
    } else if pos < |visible| {
      assert [Output(visible[pos..], false)][1..] == [];
    }
  }

  lemma {:induction false} ReportsConcat(a: seq<Positioned>, b: seq<Positioned>, cmd: Option<string>)
    ensures Reported(a + b, cmd) == Reported(a, cmd) + Reported(b, CommandAfter(a, cmd))
    decreases |a|
  {
    hide NextCommand;
    if a == [] {
      assert a + b == b;
    } else {
      assert (a + b)[1..] == a[1..] + b && (a + b)[0] == a[0];
      var e := a[0].event;
      var next := NextCommand(e, cmd);
      ReportsConcat(a[1..], b, next);
      Assoc(if e.ExecEnd? && cmd.Some? then [(cmd.value, e.code)] else [], Reported(a[1..], next), Reported(b, CommandAfter(a, cmd)));
    }
  }

  lemma {:induction false} CommandsConcat(a: seq<Positioned>, b: seq<Positioned>, cmd: Option<string>)
    ensures CommandAfter(a + b, cmd) == CommandAfter(b, CommandAfter(a, cmd))
    decreases |a|
  {
    if a == [] {
      assert a + b == b;
    } else {
      assert (a + b)[1..] == a[1..] + b && (a + b)[0] == a[0];
      CommandsConcat(a[1..], b, NextCommand(a[0].event, cmd));
    }
  }

  // ---- Chunk after chunk ----

  /** What the scanner makes of one chunk. */
  datatype Chunk = Chunk(visible: Bytes, events: seq<Positioned>)

  ghost predicate AllOrdered(chunks: seq<Chunk>)
  {
    forall c | c in chunks :: Ordered(c.visible, 0, c.events)
  }

  /** The frames of the read loop: each chunk begins with the command pending behind the one before it. */
  function FramesOf(chunks: seq<Chunk>, cmd: Option<string>): seq<Frame>
    requires AllOrdered(chunks)
  {
    if chunks == [] then []
    else
      assert chunks[0] in chunks;
      Emitted(chunks[0].visible, 0, chunks[0].events, cmd) + FramesOf(chunks[1..], CommandAfter(chunks[0].events, cmd))
  }

  function EventsOf(chunks: seq<Chunk>): seq<Positioned>
  {
    if chunks == [] then [] else chunks[0].events + EventsOf(chunks[1..])
  }

  function VisibleOf(chunks: seq<Chunk>): Bytes
  {
    if chunks == [] then [] else chunks[0].visible + VisibleOf(chunks[1..])
  }

  /** The read loop, one `emit_local_scanned` for each chunk. */
  method EmitChunks(chunks: seq<Chunk>, curCmd: Option<string>) returns (frames: seq<Frame>, cmd: Option<string>)
    requires AllOrdered(chunks)
    ensures frames == FramesOf(chunks, curCmd)
    ensures cmd == CommandAfter(EventsOf(chunks), curCmd)
  {
    hide NextCommand, Emitted;
    frames, cmd := [], curCmd;
    assert chunks[0..] == chunks;
    var i := 0;
    while i < |chunks|
      invariant 0 <= i <= |chunks|
      invariant frames + FramesOf(chunks[i..], cmd) == FramesOf(chunks, curCmd)
      invariant CommandAfter(EventsOf(chunks[i..]), cmd) == CommandAfter(EventsOf(chunks), curCmd)
    {
      var c := chunks[i];
      assert chunks[i..][0] == c && chunks[i..][1..] == chunks[i + 1..];
      assert c in chunks;
      var more, next := EmitLocalScanned(c.visible, c.events, cmd);
      Assoc(frames, more, FramesOf(chunks[i + 1..], next));
      CommandsConcat(c.events, EventsOf(chunks[i + 1..]), cmd);
      frames, cmd := frames + more, next;
      i := i + 1;
    }
    assert chunks[i..] == [];
  }

  /**
   Over all chunks the frames hold every visible byte once and in order, and the history gets each
   command line once, at the next end of execution, also when that is in a later chunk.
   */
  lemma {:induction false} ReportsCarryOver(chunks: seq<Chunk>, cmd: Option<string>)
    requires AllOrdered(chunks)
    ensures HistoryOf(FramesOf(chunks, cmd)) == Reported(EventsOf(chunks), cmd)
    ensures BytesOf(FramesOf(chunks, cmd)) == VisibleOf(chunks)
  {
    hide Emitted, CommandAfter;
    if chunks != [] {
      var c := chunks[0];
      assert c in chunks;
      var next := CommandAfter(c.events, cmd);
      var now, later := Emitted(c.visible, 0, c.events, cmd), FramesOf(chunks[1..], next);
      HistoryIsReported(c.visible, 0, c.events, cmd);
      NoByteIsLost(c.visible, 0, c.events, cmd);
      assert c.visible[0..] == c.visible;
      ReportsCarryOver(chunks[1..], next);
      HistoryConcat(now, later);
      BytesConcat(now, later);
      ReportsConcat(c.events, EventsOf(chunks[1..]), cmd);
    }
  }
}
