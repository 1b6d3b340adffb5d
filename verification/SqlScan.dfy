/**
 The scanner that prepares SQL for classification: one pass from left to right that replaces every
 literal by a placeholder and every comment by a space.

 `Strip` is the scanner as a function of the text that is left; `Scan` is an independent definition,
 an automaton that sees one character at a time.
 */
module SqlScan {
  import opened Prelude

  const PLACEHOLDER: string := "'x'"

  predicate IsQuote(c: char)
  {
    c == '\'' || c == '"' || c == '`'
  }

  predicate Starts(s: string, a: char, b: char)
  {
    |s| > 1 && s[0] == a && s[1] == b
  }

  /** The text after a literal whose opening quote `q` has been read; a doubled quote does not close it. */
  function AfterLiteral(s: string, q: char): (r: string)
    ensures |r| <= |s|
  {
    if s == "" then ""
    else if s[0] != q then AfterLiteral(s[1..], q)
    else if Starts(s, q, q) then AfterLiteral(s[2..], q)
    else s[1..]
  }

  function AfterBlock(s: string): (r: string)
    ensures |r| <= |s|
  {
    if s == "" then "" else if Starts(s, '*', '/') then s[2..] else AfterBlock(s[1..])
  }

  /** A line comment ends before its newline. */
  function AfterLine(s: string): (r: string)
    ensures |r| <= |s|
  {
    if s == "" || s[0] == '\n' then s else AfterLine(s[1..])
  }

  function Strip(s: string): string
    decreases |s|
  {
    if s == "" then ""
    else if IsQuote(s[0]) then PLACEHOLDER + Strip(AfterLiteral(s[1..], s[0]))
    else if Starts(s, '/', '*') then " " + Strip(AfterBlock(s[2..]))
    else if Starts(s, '-', '-') || s[0] == '#' then " " + Strip(AfterLine(s[1..]))
    else [s[0]] + Strip(s[1..])
  }

  method SkipLiteral(sql: string, start: nat, q: char) returns (i: nat)
    requires start <= |sql|
    ensures start <= i <= |sql| && sql[i..] == AfterLiteral(sql[start..], q)
  {
    i := start;
    while i < |sql|
      invariant start <= i <= |sql|
      invariant AfterLiteral(sql[i..], q) == AfterLiteral(sql[start..], q)
    {
      assert sql[i..][1..] == sql[i + 1..];
      if sql[i] == q {
        if i + 1 < |sql| && sql[i + 1] == q {
          assert sql[i..][2..] == sql[i + 2..];
          i := i + 2;
          continue;
        }
        i := i + 1;
        return;
      }
      i := i + 1;
    }
  }

  method SkipBlock(sql: string, start: nat) returns (i: nat)
    requires start <= |sql|
    ensures start <= i <= |sql| && sql[i..] == AfterBlock(sql[start..])
  {
    i := start;
    while i < |sql| && !(sql[i] == '*' && i + 1 < |sql| && sql[i + 1] == '/')
      invariant start <= i <= |sql|
      invariant AfterBlock(sql[i..]) == AfterBlock(sql[start..])
    {
      assert sql[i..][1..] == sql[i + 1..];
      i := i + 1;
    }
    if i < |sql| {
      assert sql[i..][2..] == sql[i + 2..];
    }
    i := if i + 2 <= |sql| then i + 2 else |sql|;      // the source may step past the end, where its loop stops
  }

  method SkipLine(sql: string, start: nat) returns (i: nat)
    requires start <= |sql|
    ensures start <= i <= |sql| && sql[i..] == AfterLine(sql[start..])
  {
    i := start;
    while i < |sql| && sql[i] != '\n'
      invariant start <= i <= |sql|
      invariant AfterLine(sql[i..]) == AfterLine(sql[start..])
    {
      assert sql[i..][1..] == sql[i + 1..];
      i := i + 1;
    }
  }

  /** `stripAiSqlComments`. */
  method StripAiSqlComments(sql: string) returns (out: string)
    ensures out == Strip(sql)
  {
    out := "";
    var i, n := 0, |sql|;
    assert sql[0..] == sql && out + Strip(sql) == Strip(sql);
    while i < n
      invariant 0 <= i <= n
      invariant out + Strip(sql[i..]) == Strip(sql)
      decreases n - i
    {
      var ch, piece, next := sql[i], "", i;
      assert sql[i..][1..] == sql[i + 1..];
      if IsQuote(ch) {
        next := SkipLiteral(sql, i + 1, ch);
        piece := PLACEHOLDER;
      } else if ch == '/' && i + 1 < n && sql[i + 1] == '*' {
        assert sql[i..][2..] == sql[i + 2..];
        next := SkipBlock(sql, i + 2);
        piece := " ";
      } else if (ch == '-' && i + 1 < n && sql[i + 1] == '-') || ch == '#' {
        next := SkipLine(sql, i + 1);
        piece := " ";
      } else {
        next := i + 1;
        piece := [ch];
      }
      assert Strip(sql[i..]) == piece + Strip(sql[next..]);
      Assoc(out, piece, Strip(sql[next..]));
      out := out + piece;
      i := next;
    }
    assert sql[i..] == "";
  }

  // ---- The automaton ----

  type Quote = c: char | IsQuote(c) witness '\''

  /** `Slash` and `Dash` hold one character back; `Closing` has seen a quote that may be the first of two. */
  datatype Mode = Code | Slash | Dash | Literal(q: Quote) | Closing(q: Quote) | Block | Star | Line

  datatype Move = Move(mode: Mode, out: string)

  function CodeMove(c: char): Move
  {
    if IsQuote(c) then Move(Literal(c), PLACEHOLDER)
    else if c == '/' then Move(Slash, "")
    else if c == '-' then Move(Dash, "")
    else if c == '#' then Move(Line, " ")
    else Move(Code, [c])
  }

  function Next(m: Mode, c: char): Move
  {
    match m
    case Code => CodeMove(c)
    case Slash => if c == '*' then Move(Block, " ") else Move(CodeMove(c).mode, "/" + CodeMove(c).out)
    case Dash => if c == '-' then Move(Line, " ") else Move(CodeMove(c).mode, "-" + CodeMove(c).out)
    case Literal(q) => Move(if c == q then Closing(q) else m, "")
    case Closing(q) => if c == q then Move(Literal(q), "") else CodeMove(c)
    case Block => Move(if c == '*' then Star else Block, "")
    case Star => Move(if c == '/' then Code else if c == '*' then Star else Block, "")
    case Line => if c == '\n' then Move(Code, [c]) else Move(Line, "")
  }

  /** What is still held back at the end. */
  function Held(m: Mode): string
  {
    if m.Slash? then "/" else if m.Dash? then "-" else ""
  }

  function Scan(m: Mode, s: string): string
    decreases |s|
  {
    if s == "" then Held(m) else Next(m, s[0]).out + Scan(Next(m, s[0]).mode, s[1..])
  }

  function ModeAfter(m: Mode, s: string): Mode
    decreases |s|
  {
    if s == "" then m else ModeAfter(Next(m, s[0]).mode, s[1..])
  }

  /** Where a statement may end: in code, after what was held back, or after a closing quote. */
  predicate InCode(m: Mode)
  {
    m.Code? || m.Slash? || m.Dash? || m.Closing?
  }

  /** The two definitions agree, in every mode of the automaton. */
  lemma {:induction false} StripIsScan(s: string)
    ensures Strip(s) == Scan(Code, s)
    decreases |s|, 1
  {
    if s != "" {
      var c := s[0];
      if IsQuote(c) {
        LiteralIsScan(s[1..], c);
      } else if c == '/' || c == '-' {
        HeldIsScan(s);
      } else if c == '#' {
        LineIsScan(s[1..]);
      } else {
        StripIsScan(s[1..]);
      }
    }
  }

  /** A slash or dash, seen with what follows it. */
  lemma {:induction false} HeldIsScan(s: string)
    requires s != "" && (s[0] == '/' || s[0] == '-')
    ensures Strip(s) == Scan(if s[0] == '/' then Slash else Dash, s[1..])
    decreases |s|, 0
  {
    var m := if s[0] == '/' then Slash else Dash;
    var rest := s[1..];
    if rest == "" {
      assert Strip(s) == [s[0]] + Strip("");
    } else if Starts(s, '/', '*') {
      assert s[2..] == rest[1..];
      BlockIsScan(s[2..]);
    } else if Starts(s, '-', '-') {
      assert s[2..] == rest[1..];
      assert AfterLine(s[1..]) == AfterLine(s[2..]);
      LineIsScan(s[2..]);
    } else {
      StripIsScan(rest);
      var move := CodeMove(rest[0]);
      assert Scan(m, rest) == ([s[0]] + move.out) + Scan(move.mode, rest[1..]);
      Assoc([s[0]], move.out, Scan(move.mode, rest[1..]));
    }
  }

  lemma {:induction false} LiteralIsScan(s: string, q: char)
    requires IsQuote(q)
    ensures Strip(AfterLiteral(s, q)) == Scan(Literal(q), s)
    decreases |s|, 2
  {
    if s != "" {
      if s[0] != q {
        LiteralIsScan(s[1..], q);
      } else if Starts(s, q, q) {
        assert s[1..][1..] == s[2..];
        LiteralIsScan(s[2..], q);
      } else {
        ClosingIsScan(s[1..], q);
      }
    }
  }

  lemma {:induction false} ClosingIsScan(s: string, q: char)
    requires IsQuote(q) && (s == "" || s[0] != q)
    ensures Strip(s) == Scan(Closing(q), s)
    decreases |s|, 2
  {
    StripIsScan(s);
  }

  lemma {:induction false} BlockIsScan(s: string)
    ensures Strip(AfterBlock(s)) == Scan(Block, s)
    ensures Scan(Star, s) == if s != "" && s[0] == '/' then Strip(s[1..]) else Strip(AfterBlock(s))
    decreases |s|, 2
  {
    if s != "" {
      BlockIsScan(s[1..]);
      StripIsScan(s[1..]);
      if Starts(s, '*', '/') {
        assert s[1..][1..] == s[2..];
      }
    }
  }

  lemma {:induction false} LineIsScan(s: string)
    ensures Strip(AfterLine(s)) == Scan(Line, s)
    decreases |s|, 2
  {
    if s != "" {
      if s[0] == '\n' {
        StripIsScan(s[1..]);
      } else {
        LineIsScan(s[1..]);
      }
    }
  }

  // ---- Texts put together ----

  /** The output without what is held back at the end. */
  function Emitted(m: Mode, s: string): string
    decreases |s|
  {
    if s == "" then "" else Next(m, s[0]).out + Emitted(Next(m, s[0]).mode, s[1..])
  }

  lemma {:induction false} ScanInParts(m: Mode, a: string, b: string)
    ensures Scan(m, a + b) == Emitted(m, a) + Scan(ModeAfter(m, a), b)
    ensures ModeAfter(m, a + b) == ModeAfter(ModeAfter(m, a), b)
    decreases |a|
  {
    if a == "" {
      assert a + b == b;
    } else {
      assert (a + b)[1..] == a[1..] + b;
      var move := Next(m, a[0]);
      ScanInParts(move.mode, a[1..], b);
      Assoc(move.out, Emitted(move.mode, a[1..]), Scan(ModeAfter(m, a), b));
    }
  }

  lemma ScanIsEmitted(m: Mode, a: string)
    ensures Scan(m, a) == Emitted(m, a) + Held(ModeAfter(m, a))
  {
    ScanInParts(m, a, "");
    assert a + "" == a;
  }

  /** Whether a text ends where a statement may end. */
  predicate EndsInCode(a: string)
  {
    InCode(ModeAfter(Code, a))
  }

  lemma SemicolonInCode(m: Mode, b: string)
    ensures InCode(m) ==> Scan(m, ";" + b) == Held(m) + ";" + Scan(Code, b)
    ensures !InCode(m) ==> Scan(m, ";") == Held(m) == ""
  {
    assert (";" + b)[1..] == b;
    assert ";"[1..] == "";
    if InCode(m) {
      assert Scan(m, ";" + b) == Next(m, ';').out + Scan(Code, b);
    }
  }

  /** Stripping distributes over a semicolon if the first text ends in code. */
  lemma StripDistributes(a: string, b: string)
    requires EndsInCode(a)
    ensures Strip(a + ";" + b) == Strip(a) + ";" + Strip(b)
  {
    var m := ModeAfter(Code, a);
    StripIsScan(a + ";" + b);
    StripIsScan(a);
    StripIsScan(b);
    Assoc(a, ";", b);
    ScanInParts(Code, a, ";" + b);
    ScanIsEmitted(Code, a);
    SemicolonInCode(m, b);
    Assoc(Emitted(Code, a), Held(m), ";");
    Assoc(Emitted(Code, a), Held(m) + ";", Scan(Code, b));
  }

  /** And only then: otherwise the semicolon is swallowed. */
  lemma StripDistributesExactly(a: string)
    ensures (forall b :: Strip(a + ";" + b) == Strip(a) + ";" + Strip(b)) <==> EndsInCode(a)
  {
    if EndsInCode(a) {
      forall b ensures Strip(a + ";" + b) == Strip(a) + ";" + Strip(b) { StripDistributes(a, b); }
    } else {
      var m := ModeAfter(Code, a);
      StripIsScan(a + ";" + "");
      StripIsScan(a);
      assert a + ";" + "" == a + ";";
      ScanInParts(Code, a, ";");
      ScanIsEmitted(Code, a);
      SemicolonInCode(m, "");
      assert Strip(a + ";" + "") == Strip(a);
      assert |Strip(a) + ";" + Strip("")| == |Strip(a)| + 1;
    }
  }

  // ---- Semicolons ----

  function Semicolons(s: string): nat
  {
    if s == "" then 0 else (if s[0] == ';' then 1 else 0) + Semicolons(s[1..])
  }

  /** Those that the automaton meets in code. */
  function CodeSemicolons(m: Mode, s: string): nat
    decreases |s|
  {
    if s == "" then 0 else (if s[0] == ';' && InCode(m) then 1 else 0) + CodeSemicolons(Next(m, s[0]).mode, s[1..])
  }

  lemma SemicolonsConcat(a: string, b: string)
    ensures Semicolons(a + b) == Semicolons(a) + Semicolons(b)
  {
    if a == "" {
      assert a + b == b;
    } else {
      assert (a + b)[1..] == a[1..] + b;
    }
  }

  lemma SemicolonsOfMove(m: Mode, c: char)
    ensures Semicolons(Next(m, c).out) == if c == ';' && InCode(m) then 1 else 0
    ensures Semicolons(Held(m)) == 0
  {
    assert Semicolons([c]) == if c == ';' then 1 else 0 by { assert [c][1..] == ""; }
    assert Semicolons(PLACEHOLDER) == 0 by { assert PLACEHOLDER[1..][1..][1..] == ""; }
    assert Semicolons(" ") == 0 by { assert " "[1..] == ""; }
    assert Semicolons("/") == 0 && Semicolons("-") == 0 by { assert "/"[1..] == "" && "-"[1..] == ""; }
    SemicolonsConcat("/", CodeMove(c).out);
    SemicolonsConcat("-", CodeMove(c).out);
  }

  lemma {:induction false} SemicolonsOfScan(m: Mode, s: string)
    ensures Semicolons(Scan(m, s)) == CodeSemicolons(m, s)
    decreases |s|
  {
    hide Next, Held, InCode;
    if s == "" {
      SemicolonsOfMove(m, ' ');
    } else {
      SemicolonsOfMove(m, s[0]);
      SemicolonsConcat(Next(m, s[0]).out, Scan(Next(m, s[0]).mode, s[1..]));
      SemicolonsOfScan(Next(m, s[0]).mode, s[1..]);
    }
  }

  /** `split(';')`. */
  function Split(s: string): (r: seq<string>)
    ensures |r| > 0
  {
    if s == "" then [""]
    else if s[0] == ';' then [""] + Split(s[1..])
    else var rest := Split(s[1..]); [[s[0]] + rest[0]] + rest[1..]
  }

  /** The source cut at its semicolons in code. */
  function Segments(m: Mode, s: string): (r: seq<string>)
    ensures |r| > 0
    decreases |s|
  {
    if s == "" then [""]
    else if s[0] == ';' && InCode(m) then [""] + Segments(Code, s[1..])
    else var rest := Segments(Next(m, s[0]).mode, s[1..]); [[s[0]] + rest[0]] + rest[1..]
  }

  /** `join(';')`. */
  function Rejoined(parts: seq<string>): string
    requires parts != []
  {
    if |parts| == 1 then parts[0] else parts[0] + ";" + Rejoined(parts[1..])
  }

  function Stripped(parts: seq<string>): (r: seq<string>)
    ensures |r| == |parts|
  {
    seq(|parts|, k requires 0 <= k < |parts| => Strip(parts[k]))
  }

  /** The first segment is scanned in the mode it begins in. */
  function SegmentsScanned(m: Mode, parts: seq<string>): seq<string>
    requires parts != []
  {
    [Scan(m, parts[0])] + Stripped(parts[1..])
  }

  /** No semicolon in code, and all but the last segment end in code. */
  ghost predicate AreSegments(m: Mode, parts: seq<string>)
    requires parts != []
  {
    && CodeSemicolons(m, parts[0]) == 0
    && (|parts| > 1 ==> InCode(ModeAfter(m, parts[0])))
    && (forall k | 1 <= k < |parts| :: CodeSemicolons(Code, parts[k]) == 0 && (k < |parts| - 1 ==> EndsInCode(parts[k])))
  }

  lemma SplitOnce(c: char, t: string)
    ensures Split([c] + t) == if c == ';' then [""] + Split(t) else [[c] + Split(t)[0]] + Split(t)[1..]
  {
    assert ([c] + t)[1..] == t;
  }

  lemma {:induction false} SplitBehind(out: string, t: string)
    requires Semicolons(out) == 0
    ensures Split(out + t) == [out + Split(t)[0]] + Split(t)[1..]
  {
    var parts := Split(t);
    if out == "" {
      assert out + t == t && out + parts[0] == parts[0];
      assert parts == [parts[0]] + parts[1..];
    } else {
      var c, more := out[0], out[1..];
      SplitBehind(more, t);
      SplitOnce(c, more + t);
      hide Split;
      assert out + t == [c] + (more + t);
      assert [c] + (more + parts[0]) == out + parts[0];
      assert Split(more + t)[1..] == parts[1..];
    }
  }

  lemma {:induction false} ScanSplits(m: Mode, s: string)
    ensures Split(Scan(m, s)) == SegmentsScanned(m, Segments(m, s))
    decreases |s|
  {
    if s == "" {
      SemicolonsOfMove(m, ' ');
      SplitBehind(Held(m), "");
      assert Held(m) + "" == Held(m);
    } else {
      ScanSplits(Next(m, s[0]).mode, s[1..]);
      hide Scan, Split, Segments, SegmentsScanned;
      if s[0] == ';' && InCode(m) {
        assert Next(m, s[0]).mode == Code;
        hide Next;
        SemicolonScans(m, s);
      } else {
        hide Next;
        SemicolonsOfMove(m, s[0]);
        SplitBehind(Next(m, s[0]).out, Scan(Next(m, s[0]).mode, s[1..]));
        OtherScans(m, s);
      }
    }
  }

  lemma SplitAtHeld(m: Mode, t: string)
    ensures Split(Held(m) + ";" + t) == [Held(m)] + Split(t)
  {
    SemicolonsOfMove(m, ' ');
    hide Held;
    Assoc(Held(m), ";", t);
    SplitBehind(Held(m), ";" + t);
    SplitOnce(';', t);
    assert Held(m) + "" == Held(m) && ([""] + Split(t))[1..] == Split(t);
  }

  lemma StripsOf(parts: seq<string>)
    requires parts != []
    ensures Stripped(parts) == SegmentsScanned(Code, parts)
  {
    StripIsScan(parts[0]);
    hide Strip, Scan;
  }

  lemma ScanOfNothing(m: Mode)
    ensures Scan(m, "") == Held(m)
  {
  }

  lemma SemicolonScans(m: Mode, s: string)
    requires s != "" && s[0] == ';' && InCode(m)
    requires Split(Scan(Code, s[1..])) == SegmentsScanned(Code, Segments(Code, s[1..]))
    ensures Split(Scan(m, s)) == SegmentsScanned(m, Segments(m, s))
  {
    var rest, t := Segments(Code, s[1..]), Scan(Code, s[1..]);
    assert s == ";" + s[1..] && Segments(m, s) == [""] + rest;
    SemicolonInCode(m, s[1..]);
    hide Scan, Strip, Segments, Held, InCode, Split;
    SplitAtHeld(m, t);
    ScanOfNothing(m);
    StripsOf(rest);
    assert ([""] + rest)[1..] == rest;
  }

  lemma OtherScans(m: Mode, s: string)
    requires s != "" && !(s[0] == ';' && InCode(m))
    requires var t := Scan(Next(m, s[0]).mode, s[1..]);
             && Split(Next(m, s[0]).out + t) == [Next(m, s[0]).out + Split(t)[0]] + Split(t)[1..]
             && Split(t) == SegmentsScanned(Next(m, s[0]).mode, Segments(Next(m, s[0]).mode, s[1..]))
    ensures Split(Scan(m, s)) == SegmentsScanned(m, Segments(m, s))
  {
    hide Next, InCode, Split, Strip;
    var move, rest := Next(m, s[0]), Segments(Next(m, s[0]).mode, s[1..]);
    var first := [s[0]] + rest[0];
    assert Segments(m, s) == [first] + rest[1..];
    assert first[1..] == rest[0];
    assert Scan(m, first) == move.out + Scan(move.mode, rest[0]);
  }

  lemma {:induction false} SegmentsAreCuts(m: Mode, s: string)
    ensures Rejoined(Segments(m, s)) == s
    ensures AreSegments(m, Segments(m, s))
    decreases |s|
  {
    if s == "" {
      assert CodeSemicolons(m, "") == 0;
    } else {
      SegmentsAreCuts(Next(m, s[0]).mode, s[1..]);
      var rest := Segments(Next(m, s[0]).mode, s[1..]);
      assert [s[0]] + s[1..] == s;
      if s[0] == ';' && InCode(m) {
        FirstIsEmpty(m, rest);
      } else {
        FirstGrows(m, s[0], rest);
      }
    }
  }

  lemma FirstIsEmpty(m: Mode, rest: seq<string>)
    requires rest != [] && AreSegments(Code, rest) && InCode(m)
    ensures AreSegments(m, [""] + rest) && Rejoined([""] + rest) == ";" + Rejoined(rest)
  {
    hide InCode, Next;
    assert ([""] + rest)[1..] == rest;
    assert "" + ";" == ";";
    assert CodeSemicolons(m, "") == 0 && ModeAfter(m, "") == m;
    forall k | 1 <= k < |[""] + rest|
      ensures CodeSemicolons(Code, ([""] + rest)[k]) == 0 && (k < |rest| ==> EndsInCode(([""] + rest)[k]))
    {
      assert ([""] + rest)[k] == rest[k - 1];
    }
  }

  lemma FirstGrows(m: Mode, c: char, rest: seq<string>)
    requires rest != [] && AreSegments(Next(m, c).mode, rest) && !(c == ';' && InCode(m))
    ensures AreSegments(m, [[c] + rest[0]] + rest[1..])
    ensures Rejoined([[c] + rest[0]] + rest[1..]) == [c] + Rejoined(rest)
  {
    hide InCode, Next;
    var first := [c] + rest[0];
    assert first[1..] == rest[0];
    assert ([first] + rest[1..])[1..] == rest[1..];
    if |rest| > 1 {
      Assoc([c], rest[0], ";" + Rejoined(rest[1..]));
    }
  }

  /**
   The semicolons of the output are exactly those of the source that are in code, each in its place:
   what stands between two of them is what the scanner makes of the text between them, by itself.
   */
  lemma CodeSemicolonsSurvive(s: string)
    ensures Semicolons(Strip(s)) == CodeSemicolons(Code, s)
    ensures Rejoined(Segments(Code, s)) == s && AreSegments(Code, Segments(Code, s))
    ensures Split(Strip(s)) == Stripped(Segments(Code, s))
  {
    StripIsScan(s);
    SemicolonsOfScan(Code, s);
    SegmentsAreCuts(Code, s);
    ScanSplits(Code, s);
    StripsOf(Segments(Code, s));
  }

  // ---- The shape of the output ----

  /** Placeholders, and other characters that open neither a literal nor a comment. */
  predicate Plain(t: string)
    decreases |t|
  {
    || t == ""
    || (PLACEHOLDER <= t && Plain(t[3..]))
    || (!IsQuote(t[0]) && t[0] != '#' && !Starts(t, '/', '*') && !Starts(t, '-', '-') && Plain(t[1..]))
  }

  /** The output has no comment opener, and no quote outside a placeholder. */
  lemma {:induction false} StripIsPlain(s: string)
    ensures Plain(Strip(s))
    decreases |s|
  {
    if s != "" {
      var t := Strip(s);
      if IsQuote(s[0]) {
        var rest := AfterLiteral(s[1..], s[0]);
        StripIsPlain(rest);
        assert t[3..] == Strip(rest);
      } else if Starts(s, '/', '*') {
        StripIsPlain(AfterBlock(s[2..]));
        assert t[1..] == Strip(AfterBlock(s[2..]));
      } else if Starts(s, '-', '-') || s[0] == '#' {
        StripIsPlain(AfterLine(s[1..]));
        assert t[1..] == Strip(AfterLine(s[1..]));
      } else {
        StripIsPlain(s[1..]);
        assert t[1..] == Strip(s[1..]);
        FirstOfStrip(s[1..]);
      }
    }
  }

  lemma FirstOfStrip(s: string)
    ensures s == "" ==> Strip(s) == ""
    ensures s != "" ==> Strip(s) != "" && (Strip(s)[0] == s[0] || Strip(s)[0] == '\'' || Strip(s)[0] == ' ')
  {
  }

  /** Adjacent placeholders run together: their quotes read as doubled ones. */
  function Collapsed(t: string): (r: string)
    ensures |r| <= |t|
    decreases |t|
  {
    if t == "" then ""
    else if PLACEHOLDER <= t then
      if PLACEHOLDER <= t[3..] then Collapsed(t[3..]) else PLACEHOLDER + Collapsed(t[3..])
    else [t[0]] + Collapsed(t[1..])
  }

  /** After the first placeholder of a run, the literal ends with the run. */
  lemma {:induction false} RunEnds(t: string)
    requires Plain(t) && PLACEHOLDER <= t
    ensures Strip(t) == Collapsed(t)
    decreases |t|, 0
  {
    var r := t[3..];
    assert t[0] == '\'' && t[1] == 'x' && t[2] == '\'';
    assert t[1..][1..] == t[2..] && t[2..][1..] == r;
    assert AfterLiteral(t[1..], '\'') == AfterLiteral(t[2..], '\'');
    if PLACEHOLDER <= r {
      RunEnds(r);
      assert r[0] == '\'' && t[2..][1] == r[0];
      assert t[2..][2..] == r[1..];
      assert AfterLiteral(t[2..], '\'') == AfterLiteral(r[1..], '\'');
    } else {
      StripOfPlain(r);
      assert r == "" || !IsQuote(r[0]);
      assert AfterLiteral(t[2..], '\'') == r;
    }
  }

  lemma {:induction false} StripOfPlain(t: string)
    requires Plain(t)
    ensures Strip(t) == Collapsed(t)
    decreases |t|, 1
  {
    if t != "" {
      if PLACEHOLDER <= t {
        RunEnds(t);
      } else {
        StripOfPlain(t[1..]);
      }
    }
  }

  /** Stripping twice collapses runs of literals, so it is the same as once exactly when no two literals touch. */
  lemma StrippingTwice(s: string)
    ensures Strip(Strip(s)) == Collapsed(Strip(s))
    ensures Strip(Strip(s)) == Strip(s) <==> !Touching(Strip(s))
  {
    StripIsPlain(s);
    StripOfPlain(Strip(s));
    CollapsedExactly(Strip(s));
  }

  /** An input: two empty literals of different quotes become two placeholders, and those become one. */
  lemma TouchingLiteralsCollapse()
    ensures Strip("''``") == PLACEHOLDER + PLACEHOLDER
    ensures Strip(Strip("''``")) == PLACEHOLDER
  {
    var s := "''``";
    assert s[1..] == "'``" && "'``"[1..] == "``" && "``"[1..] == "`" && "`"[1..] == "";
    assert AfterLiteral("'``", '\'') == "``";
    assert AfterLiteral("`", '`') == "";
    assert Strip("``") == PLACEHOLDER + Strip("");
    var t := PLACEHOLDER + PLACEHOLDER;
    assert t[3..] == PLACEHOLDER && PLACEHOLDER[3..] == "";
    assert Collapsed(PLACEHOLDER) == PLACEHOLDER + "";
    StrippingTwice(s);
  }

  /** Two quotes in a row. */
  predicate Touching(t: string)
  {
    exists k | 0 <= k < |t| - 1 :: t[k] == '\'' && t[k + 1] == '\''
  }

  lemma {:induction false} CollapsedExactly(t: string)
    requires Plain(t)
    ensures Collapsed(t) == t <==> !Touching(t)
    decreases |t|
  {
    if t != "" {
      if PLACEHOLDER <= t {
        var r := t[3..];
        CollapsedExactly(r);
        assert t == PLACEHOLDER + r;
        assert t[2] == '\'';
        if PLACEHOLDER <= r {
          assert t[3] == r[0] == '\'';
          assert |Collapsed(t)| < |t|;
          assert Touching(t);
        } else {
          TouchingLater(PLACEHOLDER, r);
          assert Collapsed(t)[3..] == Collapsed(r);
        }
      } else {
        var r := t[1..];
        CollapsedExactly(r);
        assert t == [t[0]] + r;
        TouchingLater([t[0]], r);
        assert Collapsed(t)[1..] == Collapsed(r);
      }
    }
  }

  lemma TouchingLater(a: string, r: string)
    requires !Touching(a) && (a == "" || r == "" || a[|a| - 1] != '\'' || r[0] != '\'')
    ensures Touching(a + r) <==> Touching(r)
  {
    var t := a + r;
    if Touching(r) {
      var k :| 0 <= k < |r| - 1 && r[k] == '\'' && r[k + 1] == '\'';
      assert t[|a| + k] == '\'' && t[|a| + k + 1] == '\'';
    }
    assert forall k | 0 <= k < |a| :: t[k] == a[k];
    assert forall k | 0 <= k < |r| :: t[|a| + k] == r[k];
    if Touching(t) {
      var k :| 0 <= k < |t| - 1 && t[k] == '\'' && t[k + 1] == '\'';
      assert k >= |a|;
      assert r[k - |a|] == '\'' && r[k - |a| + 1] == '\'';
    }
  }
}
