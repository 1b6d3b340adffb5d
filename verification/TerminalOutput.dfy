/**
 What a terminal capture keeps of the output it hears, and what it reports: the first and last
 `SAMPLE_EDGE_CHARS` and the last `MAX_OUTPUT_CHARS` UTF-16 units of the decoded stream.

 The removal of control sequences is a parameter `clean`; nothing is assumed of it.
 */
module TerminalOutput {
  import opened Prelude
  import opened JsString

  const MAX_OUTPUT_CHARS := 32_000
  const SAMPLE_EDGE_CHARS := 16_000
  const SAMPLE_EDGE_LINES := 50
  const OMITTED: string := "\U{2026} output between samples omitted \U{2026}"

  datatype Output = Output(raw: string, head: string, tail: string, total: nat)

  const SILENT := Output("", "", "", 0)

  /** `appendOutput`. */
  function Append(o: Output, v: string): Output
  {
    Output(LastN(o.raw + v, MAX_OUTPUT_CHARS),
           if |o.head| < SAMPLE_EDGE_CHARS then o.head + FirstN(v, SAMPLE_EDGE_CHARS - |o.head|) else o.head,
           LastN(o.tail + v, SAMPLE_EDGE_CHARS),
           o.total + |v|)
  }

  function AppendAll(o: Output, chunks: seq<string>): Output
    decreases |chunks|
  {
    if chunks == [] then o else AppendAll(Append(o, chunks[0]), chunks[1..])
  }

  function Concat(chunks: seq<string>): string
  {
    if chunks == [] then "" else chunks[0] + Concat(chunks[1..])
  }

  /** The windows of a whole stream, without regard to how it came in. */
  function Windows(stream: string): Output
  {
    Output(LastN(stream, MAX_OUTPUT_CHARS), FirstN(stream, SAMPLE_EDGE_CHARS),
           LastN(stream, SAMPLE_EDGE_CHARS), |stream|)
  }

  lemma AppendToWindows(stream: string, v: string)
    ensures Append(Windows(stream), v) == Windows(stream + v)
  {
    LastNOfAppend(stream, v, MAX_OUTPUT_CHARS);
    LastNOfAppend(stream, v, SAMPLE_EDGE_CHARS);
    FirstNOfAppend(stream, v, SAMPLE_EDGE_CHARS);
  }

  lemma LastNOfAppend(s: string, v: string, n: nat)
    ensures LastN(LastN(s, n) + v, n) == LastN(s + v, n)
  {
    if |s| > n {
      assert s == s[..|s| - n] + s[|s| - n..];
      assert s + v == s[..|s| - n] + (LastN(s, n) + v);
    }
  }

  lemma FirstNOfAppend(s: string, v: string, n: nat)
    ensures FirstN(s + v, n) == if |FirstN(s, n)| < n then FirstN(s, n) + FirstN(v, n - |FirstN(s, n)|) else FirstN(s, n)
  {
  }

  /** After any chunks the buffers are the windows of everything that was heard. */
  lemma {:induction false} WindowsOfChunks(stream: string, chunks: seq<string>)
    ensures AppendAll(Windows(stream), chunks) == Windows(stream + Concat(chunks))
    decreases |chunks|
  {
    if chunks == [] {
      assert stream + "" == stream;
    } else {
      AppendToWindows(stream, chunks[0]);
      WindowsOfChunks(stream + chunks[0], chunks[1..]);
      assert (stream + chunks[0]) + Concat(chunks[1..]) == stream + Concat(chunks);
    }
  }

  /** The three buffers as the variables that `appendOutput` updates. */
  class Buffers {
    var rawOutput: string
    var headOutput: string
    var tailOutput: string
    var totalOutputChars: nat

    ghost function Abs(): Output
      reads this
    {
      Output(rawOutput, headOutput, tailOutput, totalOutputChars)
    }

    constructor ()
      ensures Abs() == SILENT
    {
      rawOutput, headOutput, tailOutput, totalOutputChars := "", "", "", 0;
    }

    method AppendOutput(v: string)
      modifies this
      ensures Abs() == Append(old(Abs()), v)
      ensures forall stream | old(Abs()) == Windows(stream) :: Abs() == Windows(stream + v)
    {
      totalOutputChars := totalOutputChars + |v|;
      if |headOutput| < SAMPLE_EDGE_CHARS {
        headOutput := headOutput + FirstN(v, SAMPLE_EDGE_CHARS - |headOutput|);
      }
      tailOutput := LastN(tailOutput + v, SAMPLE_EDGE_CHARS);
      rawOutput := LastN(rawOutput + v, MAX_OUTPUT_CHARS);
      forall stream | old(Abs()) == Windows(stream)
        ensures Abs() == Windows(stream + v)
      {
        AppendToWindows(stream, v);
      }
    }
  }

  // ---- Lines ----

  /** `split('\n')`: always at least one line. */
  function Lines(s: string): (ls: seq<string>)
    ensures |ls| > 0
    ensures |ls| == Newlines(s) + 1
    ensures forall l | l in ls :: '\n' !in l
  {
    if s == "" then [""]
    else if s[0] == '\n' then [""] + Lines(s[1..])
    else var rest := Lines(s[1..]); [[s[0]] + rest[0]] + rest[1..]
  }

  /** `join('\n')`. */
  function Joined(ls: seq<string>): string
  {
    if ls == [] then "" else if |ls| == 1 then ls[0] else ls[0] + "\n" + Joined(ls[1..])
  }

  function Newlines(s: string): nat
  {
    if s == "" then 0 else (if s[0] == '\n' then 1 else 0) + Newlines(s[1..])
  }

  lemma NewlinesConcat(a: string, b: string)
    ensures Newlines(a + b) == Newlines(a) + Newlines(b)
  {
    if a == "" {
      assert a + b == b;
    } else {
      assert (a + b)[1..] == a[1..] + b;
    }
  }

  lemma NewlinesFree(s: string)
    requires '\n' !in s
    ensures Newlines(s) == 0
  {
  }

  lemma {:induction false} NewlinesOfJoined(ls: seq<string>)
    requires ls != [] && forall l | l in ls :: '\n' !in l
    ensures Newlines(Joined(ls)) == |ls| - 1
  {
    NewlinesFree(ls[0]);
    if |ls| > 1 {
      NewlinesOfJoined(ls[1..]);
      NewlinesConcat(ls[0] + "\n", Joined(ls[1..]));
      NewlinesConcat(ls[0], "\n");
    }
  }

  lemma TrimStartNewlines(s: string)
    ensures Newlines(TrimStart(s)) <= Newlines(s)
  {
  }

  lemma TrimEndNewlines(s: string)
    ensures Newlines(TrimEnd(s)) <= Newlines(s)
  {
    if s != "" && IsSpace(s[|s| - 1]) {
      TrimEndNewlines(s[..|s| - 1]);
      assert s == s[..|s| - 1] + [s[|s| - 1]];
      NewlinesConcat(s[..|s| - 1], [s[|s| - 1]]);
    }
  }

  /** Splitting undoes joining. */
  lemma {:induction false} LinesOfJoined(ls: seq<string>)
    requires ls != [] && forall l | l in ls :: '\n' !in l
    ensures Lines(Joined(ls)) == ls
    decreases |ls|, |ls[0]|
  {
    if ls[0] == "" {
      if |ls| > 1 {
        assert Joined(ls) == "\n" + Joined(ls[1..]);
        assert Joined(ls)[1..] == Joined(ls[1..]);
        LinesOfJoined(ls[1..]);
      }
    } else {
      var shorter := [ls[0][1..]] + ls[1..];
      assert shorter[1..] == ls[1..];
      assert Joined(ls)[1..] == Joined(shorter);
      forall l | l in shorter
        ensures '\n' !in l
      {
        if l == ls[0][1..] {
          assert ls[0] in ls;
        } else {
          assert l in ls;
        }
      }
      assert ls[0] in ls && ls[0][0] in ls[0];
      LinesOfJoined(shorter);
      assert [ls[0][0]] + shorter[0] == ls[0];
    }
  }

  // ---- Reports ----

  function FirstLines(s: string): seq<string>
  {
    FirstN(Lines(s), SAMPLE_EDGE_LINES)
  }

  function LastLines(s: string): seq<string>
  {
    LastN(Lines(s), SAMPLE_EDGE_LINES)
  }

  function Sample(o: Output, clean: string -> string): string
  {
    Trim(Joined(FirstLines(clean(o.head)) + [OMITTED] + LastLines(clean(o.tail))))
  }

  /** `sampledOutput`. */
  function SampledOutput(o: Output, clean: string -> string): string
  {
    var full := if o.total <= SAMPLE_EDGE_CHARS then clean(o.head) else "";
    var lines := if full != "" then Lines(full) else [];
    if 0 < |lines| <= 2 * SAMPLE_EDGE_LINES then full else Sample(o, clean)
  }

  function FinishedTruncated(o: Output): bool
  {
    o.total > MAX_OUTPUT_CHARS
  }

  function SampledTruncated(o: Output, clean: string -> string): bool
  {
    o.total > SAMPLE_EDGE_CHARS || |Lines(clean(o.head))| > 2 * SAMPLE_EDGE_LINES
  }

  /** A finished command's window dropped characters exactly when the result says so; otherwise it is the whole stream. */
  lemma FinishedTruncation(stream: string)
    ensures FinishedTruncated(Windows(stream)) <==> Windows(stream).raw != stream
    ensures exists dropped :: dropped + Windows(stream).raw == stream && (|dropped| > 0 <==> FinishedTruncated(Windows(stream)))
  {
    if |stream| > MAX_OUTPUT_CHARS {
      var dropped := stream[..|stream| - MAX_OUTPUT_CHARS];
      assert dropped + Windows(stream).raw == stream;
    } else {
      assert "" + Windows(stream).raw == stream;
    }
  }

  lemma MarkerIsTrimmed()
    ensures TrimEnd(TrimStart("\n" + OMITTED + "\n")) == OMITTED
    ensures '\n' !in OMITTED
  {
    var s := "\n" + OMITTED + "\n";
    assert s[0] == '\n' && s[1..] == OMITTED + "\n";
    assert IsSpace('\n') && !IsSpace('\U{2026}');
    assert TrimStart(s) == TrimStart(OMITTED + "\n") == OMITTED + "\n";
    assert (OMITTED + "\n")[..|OMITTED| + 1 - 1] == OMITTED;
    assert TrimEnd(OMITTED + "\n") == TrimEnd(OMITTED);
  }

  /**
   An untruncated sample is the whole cleaned stream exactly when that is not empty: a silent
   command is reported as if something had been left out.  A truncated one is the first lines of
   the head and the last ones of the tail.
   */
  lemma SampledTruncation(stream: string, clean: string -> string)
    ensures var o := Windows(stream);
            var full := clean(stream);
            && (!SampledTruncated(o, clean) && full != "" ==> SampledOutput(o, clean) == full)
            && (!SampledTruncated(o, clean) && full == "" ==> SampledOutput(o, clean) == OMITTED)
            && (SampledTruncated(o, clean) ==> SampledOutput(o, clean) == Sample(o, clean))
    ensures SampledTruncated(Windows(stream), clean) <==>
            |stream| > SAMPLE_EDGE_CHARS || |Lines(clean(stream))| > 2 * SAMPLE_EDGE_LINES
  {
    hide TrimStart, TrimEnd;
    var o := Windows(stream);
    if |stream| <= SAMPLE_EDGE_CHARS {
      assert o.head == stream && o.tail == stream;
      if clean(stream) == "" {
        assert Lines("") == [""];
        assert [""] + [OMITTED] + [""] == ["", OMITTED, ""];
        assert ["", OMITTED, ""][1..] == [OMITTED, ""] && [OMITTED, ""][1..] == [""];
        assert Joined([OMITTED, ""]) == OMITTED + "\n" + "";
        assert Joined(["", OMITTED, ""]) == "" + "\n" + (OMITTED + "\n" + "");
        assert "" + "\n" + (OMITTED + "\n" + "") == "\n" + OMITTED + "\n";
        MarkerIsTrimmed();
      }
    }
  }

  /** Such a stream: nothing was heard and nothing is marked as dropped, yet the report says that something is left out. */
  lemma SilenceReadsAsOmission(clean: string -> string)
    requires clean("") == ""
    ensures SampledOutput(Windows(""), clean) == OMITTED && !SampledTruncated(Windows(""), clean)
  {
    SampledTruncation("", clean);
    hide SampledOutput;
    assert Lines("") == [""];
  }

  /** Whatever is sampled, the report has at most fifty lines of each end and the marker. */
  lemma SampledOutputIsShort(o: Output, clean: string -> string)
    ensures |Lines(SampledOutput(o, clean))| <= 2 * SAMPLE_EDGE_LINES + 1
  {
    hide TrimStart, TrimEnd;
    var head, tail := Lines(clean(o.head)), Lines(clean(o.tail));
    var ls := FirstLines(clean(o.head)) + [OMITTED] + LastLines(clean(o.tail));
    forall l | l in ls
      ensures '\n' !in l
    {
      MarkerIsTrimmed();
      assert l in head || l == OMITTED || l in tail;
    }
    NewlinesOfJoined(ls);
    TrimStartNewlines(Joined(ls));
    TrimEndNewlines(TrimStart(Joined(ls)));
  }
}
