/**
 The rotating diagnostics log: a current file and one backup.  An append may fail at any of its file
 operations; a failed write may have written part of the line.
 */
module Diagnostics {
  import opened Prelude

  type Bytes = seq<bv8>

  const U64_MAX := 0xFFFF_FFFF_FFFF_FFFF

  datatype Files = Files(current: Option<Bytes>, backup: Option<Bytes>)

  const NONE := Files(None, None)

  /** Where an append ended. */
  datatype Ending = Done | RemoveFails | RenameFails | OpenFails | WriteFails(written: nat)

  function Content(f: Option<Bytes>): Bytes
  {
    if f.None? then [] else f.value
  }

  function SaturatingAdd(a: nat, b: nat): nat
  {
    if a + b > U64_MAX then U64_MAX else a + b
  }

  predicate Rotates(f: Files, line: Bytes, max: nat)
  {
    |Content(f.current)| > 0 && SaturatingAdd(|Content(f.current)|, |line|) > max
  }

  /** `append_rotating`: the files afterwards and whether it succeeded. */
  function Append(f: Files, line: Bytes, max: nat, ending: Ending): (Files, bool)
  {
    var rotates := Rotates(f, line, max);
    if rotates && f.backup.Some? && ending.RemoveFails? then (f, false)
    else if rotates && ending.RenameFails? then (Files(f.current, None), false)
    else
      var f1 := if rotates then Files(None, f.current) else f;
      match ending
      case OpenFails => (f1, false)
      case WriteFails(n) => (Files(Some(Content(f1.current) + FirstN(line, n)), f1.backup), false)
      case _ => (Files(Some(Content(f1.current) + line), f1.backup), true)
  }

  /** What an append put into the log: the line, part of it, or nothing. */
  function Piece(f: Files, line: Bytes, max: nat, ending: Ending): Bytes
  {
    var rotates := Rotates(f, line, max);
    if (rotates && f.backup.Some? && ending.RemoveFails?) || (rotates && ending.RenameFails?) then []
    else match ending
      case OpenFails => []
      case WriteFails(n) => FirstN(line, n)
      case _ => line
  }

  datatype Call = Call(line: Bytes, ending: Ending)

  function After(f: Files, calls: seq<Call>, max: nat): Files
    decreases |calls|
  {
    if calls == [] then f else After(Append(f, calls[0].line, max, calls[0].ending).0, calls[1..], max)
  }

  function Pieces(f: Files, calls: seq<Call>, max: nat): seq<Bytes>
    decreases |calls|
  {
    if calls == [] then []
    else [Piece(f, calls[0].line, max, calls[0].ending)] + Pieces(Append(f, calls[0].line, max, calls[0].ending).0, calls[1..], max)
  }

  function Join(pieces: seq<Bytes>): Bytes
  {
    if pieces == [] then [] else pieces[0] + Join(pieces[1..])
  }

  lemma JoinSnoc(pieces: seq<Bytes>, p: Bytes)
    ensures Join(pieces + [p]) == Join(pieces) + p
  {
    if pieces == [] {
      assert [] + [p] == [p] && [p][1..] == [] && p + [] == p;
    } else {
      assert (pieces + [p])[1..] == pieces[1..] + [p];
      JoinSnoc(pieces[1..], p);
      assert pieces[0] + (Join(pieces[1..]) + p) == pieces[0] + Join(pieces[1..]) + p;
    }
  }

  /** The backup holds pieces `i` to `j` and the current file those from `j` on. */
  ghost predicate Holds(f: Files, pieces: seq<Bytes>, i: nat, j: nat)
  {
    i <= j <= |pieces| && Content(f.backup) == Join(pieces[i..j]) && Content(f.current) == Join(pieces[j..])
  }

  /** Neither file is larger than `max`, unless it holds a single line. */
  ghost predicate Sized(f: Files, pieces: seq<Bytes>, max: nat)
  {
    && (|Content(f.current)| <= max || exists k | 0 <= k < |pieces| :: Content(f.current) == pieces[k])
    && (|Content(f.backup)| <= max || exists k | 0 <= k < |pieces| :: Content(f.backup) == pieces[k])
  }

  ghost predicate Good(f: Files, pieces: seq<Bytes>, max: nat)
  {
    (exists i: nat, j: nat :: Holds(f, pieces, i, j)) && Sized(f, pieces, max)
  }

  lemma AppendHolds(f: Files, pieces: seq<Bytes>, i: nat, j: nat, c: Call, max: nat)
    requires Holds(f, pieces, i, j)
    ensures exists i1: nat, j1: nat :: Holds(Append(f, c.line, max, c.ending).0, pieces + [Piece(f, c.line, max, c.ending)], i1, j1)
  {
    var f1, p := Append(f, c.line, max, c.ending).0, Piece(f, c.line, max, c.ending);
    var all, n := pieces + [p], |pieces|;
    assert all[i..j] == pieces[i..j] && all[j..] == pieces[j..] + [p];
    assert all[j..n] == pieces[j..] && all[n..] == [p];
    JoinSnoc(pieces[j..], p);
    assert Join([p]) == p by { assert [p][1..] == [] && p + [] == p; }
    if Rotates(f, c.line, max) && f.backup.Some? && c.ending.RemoveFails? {
      assert Join(pieces[j..]) + [] == Join(pieces[j..]);
      assert Holds(f1, all, i, j);
    } else if Rotates(f, c.line, max) && c.ending.RenameFails? {
      assert Join(pieces[j..]) + [] == Join(pieces[j..]);
      assert all[j..j] == [];
      assert Holds(f1, all, j, j);
    } else if Rotates(f, c.line, max) {
      assert [] + p == p;
      assert Holds(f1, all, j, n);
    } else {
      assert Join(pieces[j..]) + [] == Join(pieces[j..]);
      assert Holds(f1, all, i, j);
    }
  }

  lemma AppendSized(f: Files, pieces: seq<Bytes>, c: Call, max: nat)
    requires Sized(f, pieces, max) && |c.line| + |Content(f.current)| <= U64_MAX
    ensures Sized(Append(f, c.line, max, c.ending).0, pieces + [Piece(f, c.line, max, c.ending)], max)
  {
    var f1, p := Append(f, c.line, max, c.ending).0, Piece(f, c.line, max, c.ending);
    var all := pieces + [p];
    assert all[|pieces|] == p && [] + p == p;
    assert forall k | 0 <= k < |pieces| :: all[k] == pieces[k];
  }

  /** What every append keeps: the two files together are the last pieces of the log, cut only between pieces. */
  lemma {:induction false} RunKeepsGood(f: Files, past: seq<Bytes>, calls: seq<Call>, max: nat)
    requires Good(f, past, max)
    requires SmallEnough(f, calls, max)
    ensures Good(After(f, calls, max), past + Pieces(f, calls, max), max)
    decreases |calls|
  {
    hide Append, Piece, Sized, Holds;
    if calls == [] {
      assert past + [] == past;
    } else {
      var c := calls[0];
      var p := Piece(f, c.line, max, c.ending);
      var i: nat, j: nat :| Holds(f, past, i, j);
      AppendHolds(f, past, i, j, c, max);
      AppendSized(f, past, c, max);
      RunKeepsGood(Append(f, c.line, max, c.ending).0, past + [p], calls[1..], max);
      assert (past + [p]) + Pieces(Append(f, c.line, max, c.ending).0, calls[1..], max) == past + Pieces(f, calls, max);
    }
  }

  /** No file comes near the end of a 64-bit length. */
  ghost predicate SmallEnough(f: Files, calls: seq<Call>, max: nat)
    decreases |calls|
  {
    calls == [] ||
    (|calls[0].line| + |Content(f.current)| <= U64_MAX && SmallEnough(Append(f, calls[0].line, max, calls[0].ending).0, calls[1..], max))
  }

  /** Backup and current file are together a suffix of all that was written, cut at the start of a record; both are bounded. */
  lemma LogIsARecordAlignedSuffix(calls: seq<Call>, max: nat)
    requires SmallEnough(NONE, calls, max)
    ensures var f, pieces := After(NONE, calls, max), Pieces(NONE, calls, max);
            && (exists i: nat | i <= |pieces| :: Content(f.backup) + Content(f.current) == Join(pieces[i..]))
            && Sized(f, pieces, max)
  {
    hide Append, Piece, Sized, After, Pieces;
    var f, pieces := After(NONE, calls, max), Pieces(NONE, calls, max);
    assert Holds(NONE, [], 0, 0);
    NothingSized(max);
    RunKeepsGood(NONE, [], calls, max);
    assert [] + pieces == pieces;
    hide SmallEnough, Holds;
    var i: nat, j: nat :| Holds(f, pieces, i, j);
    HeldTogether(f, pieces, i, j);
  }

  lemma HeldTogether(f: Files, pieces: seq<Bytes>, i: nat, j: nat)
    requires Holds(f, pieces, i, j)
    ensures i <= |pieces| && Content(f.backup) + Content(f.current) == Join(pieces[i..])
  {
    JoinConcat(pieces[i..j], pieces[j..]);
    Slices(pieces, i, j, |pieces|);
    assert pieces[j..|pieces|] == pieces[j..] && pieces[i..|pieces|] == pieces[i..];
  }

  lemma NothingSized(max: nat)
    ensures Sized(NONE, [], max)
  {
  }

  lemma JoinConcat(a: seq<Bytes>, b: seq<Bytes>)
    ensures Join(a + b) == Join(a) + Join(b)
  {
    if a == [] {
      assert a + b == b;
    } else {
      assert (a + b)[1..] == a[1..] + b;
      assert a[0] + (Join(a[1..]) + Join(b)) == a[0] + Join(a[1..]) + Join(b);
    }
  }

  /** When all appends succeed the pieces are the lines themselves, and the last line is always there. */
  lemma {:induction false} SuccessfulAppendsKeepLines(f: Files, calls: seq<Call>, max: nat)
    requires forall k | 0 <= k < |calls| :: calls[k].ending.Done?
    ensures |Pieces(f, calls, max)| == |calls|
    ensures forall k | 0 <= k < |calls| :: Pieces(f, calls, max)[k] == calls[k].line
    ensures calls != [] ==> var end := Content(After(f, calls, max).current); var last := calls[|calls| - 1].line;
                            |last| <= |end| && end[|end| - |last|..] == last
    decreases |calls|
  {
    if calls != [] {
      SuccessfulAppendsKeepLines(Append(f, calls[0].line, max, Done).0, calls[1..], max);
      assert calls[0].ending == Done;
      assert forall k | 0 <= k < |calls[1..]| :: calls[1..][k] == calls[k + 1];
    }
  }

  /** Either nothing was dropped or what is kept exceeds the limit of one file. */
  ghost predicate Ample(f: Files, pieces: seq<Bytes>, max: nat)
  {
    Content(f.backup) + Content(f.current) == Join(pieces) || |Content(f.backup)| + |Content(f.current)| > max
  }

  lemma AppendKeepsAmple(f: Files, pieces: seq<Bytes>, line: Bytes, max: nat)
    requires Ample(f, pieces, max) && |line| + |Content(f.current)| <= U64_MAX
    requires f.backup.Some? ==> f.current.Some?
    ensures Ample(Append(f, line, max, Done).0, pieces + [line], max)
    ensures Append(f, line, max, Done).0.current.Some?
  {
    JoinSnoc(pieces, line);
    Assoc(Content(f.backup), Content(f.current), line);
    assert [] + line == line;
    if Rotates(f, line, max) {
      assert Append(f, line, max, Done).0 == Files(Some(line), f.current) by { assert [] + line == line; }
    }
  }

  /** When all appends succeed, old records are dropped only for more than `max` bytes of newer ones. */
  lemma {:induction false} RotationKeepsEnough(f: Files, past: seq<Bytes>, calls: seq<Call>, max: nat)
    requires forall k | 0 <= k < |calls| :: calls[k].ending.Done?
    requires SmallEnough(f, calls, max) && Ample(f, past, max) && (f.backup.Some? ==> f.current.Some?)
    ensures Ample(After(f, calls, max), past + Pieces(f, calls, max), max)
    decreases |calls|
  {
    hide Append, Ample;
    if calls == [] {
      assert past + [] == past;
    } else {
      var line := calls[0].line;
      assert calls[0].ending == Done;
      AppendKeepsAmple(f, past, line, max);
      assert Piece(f, line, max, Done) == line;
      RotationKeepsEnough(Append(f, line, max, Done).0, past + [line], calls[1..], max);
      Assoc(past, [line], Pieces(Append(f, line, max, Done).0, calls[1..], max));
    }
  }

  /** The two files; each operation on them succeeds or is where the append ends. */
  class LogFiles {
    var current: Option<Bytes>
    var backup: Option<Bytes>

    ghost function Abs(): Files
      reads this
    {
      Files(current, backup)
    }

    constructor ()
      ensures Abs() == NONE
    {
      current, backup := None, None;
    }

    method AppendRotating(line: Bytes, max: nat, ending: Ending) returns (ok: bool)
      modifies this
      ensures (Abs(), ok) == Append(old(Abs()), line, max, ending)
    {
      var size := if current.Some? then |current.value| else 0;
      if size > 0 && SaturatingAdd(size, |line|) > max {
        if backup.Some? {
          if ending.RemoveFails? { return false; }
          backup := None;
        }
        if ending.RenameFails? { return false; }
        current, backup := None, current;
      }
      if ending.OpenFails? { return false; }
      var content := if current.Some? then current.value else [];
      if ending.WriteFails? {
        current := Some(content + FirstN(line, ending.written));
        return false;
      }
      current := Some(content + line);
      ok := true;
    }
  }
}
