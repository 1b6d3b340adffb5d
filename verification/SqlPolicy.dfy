/**
 What may be done with SQL that an assistant wrote: each statement is classified by its leading
 keyword, and the script is executed, put to the user or blocked.

 The two pattern tests inside an UPDATE and inside a WITH are parameters; the leading-keyword tests
 and the peeling of EXPLAIN are written out.
 */
module SqlPolicy {
  import opened Prelude
  import opened JsString
  import opened SqlScan

  datatype Environment = Production | NonProduction | UnknownEnvironment
  datatype Action = AutoExecute | Confirm | Blocked
  datatype Category = Read | LowRiskWrite | Write | SchemaChange | Dangerous | Unknown

  datatype Decision = Decision(action: Action, category: Category, multiple: bool)

  // ---- Statements ----

  function TrimmedNonEmpty(parts: seq<string>): seq<string>
  {
    if parts == [] then [] else (if Trim(parts[0]) != "" then [Trim(parts[0])] else []) + TrimmedNonEmpty(parts[1..])
  }

  /** `sqlStatements`. */
  function Statements(sql: string): seq<string>
  {
    TrimmedNonEmpty(Split(Strip(sql)))
  }

  lemma {:induction false} SplitDistributes(a: string, b: string)
    ensures Split(a + ";" + b) == Split(a) + Split(b)
    decreases |a|
  {
    if a == "" {
      assert ("" + ";" + b)[1..] == b;
    } else {
      var rest := Split(a[1..]);
      assert (a + ";" + b)[1..] == a[1..] + ";" + b && (a + ";" + b)[0] == a[0];
      SplitDistributes(a[1..], b);
      hide Split;
      PutInFront([a[0]], rest, Split(b));
      Assoc([""], rest, Split(b));
    }
  }

  lemma PutInFront(c: string, rest: seq<string>, more: seq<string>)
    requires |rest| > 0
    ensures [c + (rest + more)[0]] + (rest + more)[1..] == [c + rest[0]] + rest[1..] + more
  {
    assert (rest + more)[1..] == rest[1..] + more;
  }

  lemma TrimmedConcat(a: seq<string>, b: seq<string>)
    ensures TrimmedNonEmpty(a + b) == TrimmedNonEmpty(a) + TrimmedNonEmpty(b)
  {
    hide Trim;
    if a == [] {
      assert a + b == b;
    } else {
      assert (a + b)[1..] == a[1..] + b;
      TrimmedConcat(a[1..], b);
    }
  }

  /** A script that ends in code, a semicolon and another script: the statements of both, in order. */
  lemma StatementsDistribute(a: string, b: string)
    requires EndsInCode(a)
    ensures Statements(a + ";" + b) == Statements(a) + Statements(b)
  {
    hide Trim, Strip;
    StripDistributes(a, b);
    SplitDistributes(Strip(a), Strip(b));
    TrimmedConcat(Split(Strip(a)), Split(Strip(b)));
  }

  // ---- Classification ----

  function Upper(c: char): char
  {
    if 'a' <= c <= 'z' then (c as int - 32) as char else c
  }

  predicate IsWordChar(c: char)
  {
    'a' <= c <= 'z' || 'A' <= c <= 'Z' || '0' <= c <= '9' || c == '_'
  }

  /** `/^WORD\b/i`. */
  predicate Leads(s: string, word: string)
  {
    && |word| <= |s|
    && (forall k | 0 <= k < |word| :: Upper(s[k]) == word[k])
    && (|s| == |word| || !IsWordChar(s[|word|]))
  }

  function SkipSpace(s: string): (r: string)
    ensures |r| <= |s|
  {
    if s != "" && IsSpace(s[0]) then SkipSpace(s[1..]) else s
  }

  /** The text after the first closing parenthesis, if there is one. */
  function AfterParen(s: string): (r: Option<string>)
    ensures r.Some? ==> |r.value| < |s|
  {
    if s == "" then None else if s[0] == ')' then Some(s[1..]) else AfterParen(s[1..])
  }

  /** The options of EXPLAIN: parenthesized lists and the words that may follow it. */
  function AfterOptions(s: string): (r: string)
    ensures |r| <= |s|
    decreases |s|
  {
    if s != "" && s[0] == '(' && AfterParen(s[1..]).Some? then AfterOptions(SkipSpace(AfterParen(s[1..]).value))
    else if Leads(s, "ANALYZE") || Leads(s, "VERBOSE") || Leads(s, "ANALYSE") then AfterOptions(SkipSpace(s[7..]))
    else s
  }

  lemma TrimIsShorter(s: string)
    ensures |Trim(s)| <= |s|
  {
    TrimStartShorter(s);
    TrimEndShorter(TrimStart(s));
  }

  lemma TrimStartShorter(s: string)
    ensures |TrimStart(s)| <= |s|
  {
  }

  lemma TrimEndShorter(s: string)
    ensures |TrimEnd(s)| <= |s|
  {
  }

  /** The two pattern tests: an UPDATE limited by a key, and a WITH that modifies data. */
  datatype Patterns = Patterns(scopedUpdate: string -> bool, modifiesData: string -> bool)

  /** `classifyStatement`. */
  function Classify(s: string, p: Patterns): Category
    decreases |s|
  {
    if Leads(s, "EXPLAIN") then
      TrimIsShorter(AfterOptions(SkipSpace(s[7..])));
      var inner := Trim(AfterOptions(SkipSpace(s[7..])));
      if inner != "" then Classify(inner, p) else Read
    else if Leads(s, "SELECT") || Leads(s, "WITH") || Leads(s, "SHOW") || Leads(s, "DESCRIBE") || Leads(s, "DESC") then
      if Leads(s, "WITH") && p.modifiesData(s) then Dangerous else Read
    else if Leads(s, "DROP") || Leads(s, "TRUNCATE") || Leads(s, "ALTER") || Leads(s, "RENAME") then Dangerous
    else if Leads(s, "CREATE") then SchemaChange
    else if Leads(s, "INSERT") then LowRiskWrite
    else if Leads(s, "UPDATE") then if p.scopedUpdate(s) then LowRiskWrite else Dangerous
    else if Leads(s, "DELETE") || Leads(s, "MERGE") || Leads(s, "REPLACE") then Write
    else Unknown
  }

  function Categories(ss: seq<string>, p: Patterns): (r: seq<Category>)
    ensures |r| == |ss|
    ensures forall k | 0 <= k < |ss| :: r[k] == Classify(ss[k], p)
  {
    seq(|ss|, k requires 0 <= k < |ss| => Classify(ss[k], p))
  }

  // ---- The decision ----

  function Decide(cs: seq<Category>, env: Environment): Decision
  {
    var multiple := |cs| > 1;
    if cs == [] then Decision(Blocked, Unknown, false)
    else if Dangerous in cs then Decision(Blocked, Dangerous, multiple)
    else if Unknown in cs then Decision(Confirm, Unknown, multiple)
    else if forall k | 0 <= k < |cs| :: cs[k] == Read then Decision(AutoExecute, Read, multiple)
    else if SchemaChange in cs then Decision(Confirm, SchemaChange, multiple)
    else if multiple then Decision(Confirm, Write, multiple)
    else if cs[0] == LowRiskWrite then Decision(if env == NonProduction then AutoExecute else Confirm, LowRiskWrite, multiple)
    else Decision(Confirm, cs[0], multiple)
  }

  function DecideSql(sql: string, p: Patterns, env: Environment): Decision
  {
    Decide(Categories(Statements(sql), p), env)
  }

  function Strictness(a: Action): nat
  {
    match a case AutoExecute => 0 case Confirm => 1 case Blocked => 2
  }

  /** When each action is taken. */
  lemma ActionExactly(cs: seq<Category>, env: Environment)
    ensures Decide(cs, env).action == Blocked <==> cs == [] || Dangerous in cs
    ensures Decide(cs, env).action == AutoExecute <==>
              cs != [] && ((forall c | c in cs :: c == Read) || (cs == [LowRiskWrite] && env == NonProduction))
  {
    assert forall k | 0 <= k < |cs| :: cs[k] in cs;
    if |cs| == 1 {
      assert cs == [cs[0]];
    }
  }

  /** Statements put together are never treated more lightly than either part. */
  lemma MoreIsStricter(a: seq<Category>, b: seq<Category>, env: Environment)
    requires a != [] && b != []
    ensures Strictness(Decide(a + b, env).action) >= Strictness(Decide(a, env).action)
    ensures Strictness(Decide(a + b, env).action) >= Strictness(Decide(b, env).action)
  {
    ActionExactly(a, env);
    ActionExactly(b, env);
    ActionExactly(a + b, env);
    hide Decide;
    assert |a + b| > 1;
    assert forall c | c in a :: c in a + b;
    assert forall c | c in b :: c in a + b;
  }

  /**
   Appending a script that has a statement to one that has one and ends in code never weakens the
   decision of either.
   */
  lemma AppendingNeverWeakens(a: string, b: string, p: Patterns, env: Environment)
    requires EndsInCode(a) && Statements(a) != [] && Statements(b) != []
    ensures Strictness(DecideSql(a + ";" + b, p, env).action) >= Strictness(DecideSql(a, p, env).action)
    ensures Strictness(DecideSql(a + ";" + b, p, env).action) >= Strictness(DecideSql(b, p, env).action)
  {
    hide Statements, Decide, Classify, EndsInCode;
    StatementsDistribute(a, b);
    var ca, cb := Categories(Statements(a), p), Categories(Statements(b), p);
    assert Categories(Statements(a) + Statements(b), p) == ca + cb;
    MoreIsStricter(ca, cb, env);
  }

  /** Such a script runs by itself exactly when every statement of both only reads. */
  lemma AppendedRunsExactlyWhenBothRead(a: string, b: string, p: Patterns, env: Environment)
    requires EndsInCode(a) && Statements(a) != [] && Statements(b) != []
    ensures DecideSql(a + ";" + b, p, env).action == AutoExecute <==>
              forall s | s in Statements(a) + Statements(b) :: Classify(s, p) == Read
  {
    hide Decide, Statements, EndsInCode, Classify;
    StatementsDistribute(a, b);
    var ss := Statements(a) + Statements(b);
    var cs := Categories(ss, p);
    ActionExactly(cs, env);
    assert |cs| > 1;
    assert forall k | 0 <= k < |ss| :: ss[k] in ss && cs[k] in cs;
  }

  // ---- EXPLAIN ----

  /** Neither an option of EXPLAIN nor white space comes first. */
  predicate NoOption(s: string)
  {
    s != "" && s[0] != '(' && !IsSpace(s[0]) && !Leads(s, "ANALYZE") && !Leads(s, "VERBOSE") && !Leads(s, "ANALYSE")
  }

  /** Explaining a statement, with or without running it, is judged as the statement. */
  lemma ExplainIsJudgedByItsStatement(s: string, p: Patterns)
    requires Trim(s) == s && NoOption(s)
    ensures Classify("EXPLAIN " + s, p) == Classify(s, p)
    ensures Classify("EXPLAIN ANALYZE " + s, p) == Classify(s, p)
  {
    AnalyzeIsOption(s);
    hide Trim, Classify, AfterOptions, Leads, IsSpace;
    assert !IsSpace('A') by { LettersAreNoSpace(); }
    assert "EXPLAIN ANALYZE " + s == "EXPLAIN " + ("ANALYZE " + s);
    ExplainOf(s, p);
    ExplainOf("ANALYZE " + s, p);
  }

  lemma LettersAreNoSpace()
    ensures !IsSpace('A')
  {
  }

  lemma ExplainOf(t: string, p: Patterns)
    requires t != "" && !IsSpace(t[0])
    ensures var inner := Trim(AfterOptions(t));
            Classify("EXPLAIN " + t, p) == if inner != "" then Classify(inner, p) else Read
  {
    hide Trim, Classify, AfterOptions, Leads, SkipSpace, IsSpace;
    assert "EXPLAIN " + t == "EXPLAIN" + (" " + t);
    assert ("EXPLAIN " + t)[7..] == " " + t;
    ExplainLeads(" " + t);
    SkipOne(t);
    ClassifyExplain("EXPLAIN " + t, p);
  }

  lemma ClassifyExplain(t: string, p: Patterns)
    requires Leads(t, "EXPLAIN")
    ensures |t| >= 7
    ensures var inner := Trim(AfterOptions(SkipSpace(t[7..])));
            Classify(t, p) == if inner != "" then Classify(inner, p) else Read
  {
    hide Trim, AfterOptions, SkipSpace;
  }

  lemma ExplainLeads(rest: string)
    requires rest != "" && rest[0] == ' '
    ensures Leads("EXPLAIN" + rest, "EXPLAIN")
  {
    assert ("EXPLAIN" + rest)[7] == ' ';
  }

  lemma SkipOne(s: string)
    requires s != "" && !IsSpace(s[0])
    ensures SkipSpace(" " + s) == s
  {
    assert (" " + s)[1..] == s;
  }

  lemma AnalyzeIsOption(s: string)
    requires NoOption(s)
    ensures AfterOptions("ANALYZE " + s) == s == AfterOptions(s)
  {
    var t := "ANALYZE " + s;
    assert t[7..] == " " + s;
    assert Leads(t, "ANALYZE") by { assert t[7] == ' '; }
    SkipOne(s);
  }

  // ---- Unfinished text ----

  /** Outside code a semicolon and a statement behind it are swallowed. */
  lemma OpenTextSwallows(m: Mode)
    requires !InCode(m)
    ensures Scan(m, ";DROP") == "" == Held(m)
  {
    assert ";DROP"[1..] == "DROP" && "DROP"[1..] == "ROP" && "ROP"[1..] == "OP" && "OP"[1..] == "P" && "P"[1..] == "";
    var n := if m.Star? then Block else m;
    assert Scan(n, "P") == "";
    assert Scan(n, "OP") == "";
    assert Scan(n, "ROP") == "";
    assert Scan(n, "DROP") == "";
  }

  lemma StripOfDrop()
    ensures Strip("DROP") == "DROP"
  {
    assert "DROP"[1..] == "ROP" && "ROP"[1..] == "OP" && "OP"[1..] == "P" && "P"[1..] == "";
    assert Strip("P") == "P";
    assert Strip("OP") == "OP";
    assert Strip("ROP") == "ROP";
  }

  lemma SplitOfOne(s: string)
    requires ';' !in s
    ensures Split(s) == [s]
  {
    if s != "" {
      SplitOfOne(s[1..]);
      assert [s[0]] + s[1..] == s;
    }
  }

  lemma DropIsBlocked(p: Patterns, env: Environment)
    ensures Statements("DROP") == ["DROP"]
    ensures DecideSql("DROP", p, env).action == Blocked
  {
    hide Strip, Split, Classify;
    StripOfDrop();
    SplitOfOne("DROP");
    assert Trim("DROP") == "DROP";
    assert ["DROP"][1..] == [];
    assert TrimmedNonEmpty(["DROP"]) == ["DROP"];
    DropIsDangerous(p);
    hide Statements, TrimmedNonEmpty, Trim;
    assert Categories(["DROP"], p) == [Dangerous];
  }

  lemma DropIsDangerous(p: Patterns)
    ensures Classify("DROP", p) == Dangerous
  {
    var s := "DROP";
    assert s[0] == 'D' && s[1] == 'R' && s[2] == 'O' && s[3] == 'P' && |s| == 4;
    assert !Leads(s, "EXPLAIN") && !Leads(s, "SELECT") && !Leads(s, "DESCRIBE");
    assert !Leads(s, "WITH") by { assert "WITH"[0] == 'W'; }
    assert !Leads(s, "SHOW") by { assert "SHOW"[0] == 'S'; }
    assert !Leads(s, "DESC") by { assert "DESC"[1] == 'E'; }
    assert Leads(s, "DROP");
  }

  /** A script that does not end in code hides the statement appended to it: the decision is its own. */
  lemma OpenTextHidesTheRest(a: string, p: Patterns, env: Environment)
    requires !EndsInCode(a)
    ensures DecideSql(a + ";" + "DROP", p, env) == DecideSql(a, p, env)
  {
    var m := ModeAfter(Code, a);
    assert a + ";" + "DROP" == a + ";DROP";
    ScanInParts(Code, a, ";DROP");
    ScanIsEmitted(Code, a);
    OpenTextSwallows(m);
    StripIsScan(a);
    StripIsScan(a + ";DROP");
    hide Strip, Scan;
    assert Strip(a + ";DROP") == Strip(a);
  }

  /** No script appended to `a` gets a lighter decision for the two together than for either. */
  ghost predicate NeverWeakens(a: string, p: Patterns, env: Environment)
  {
    forall b: string | Statements(b) != [] ::
      && Strictness(DecideSql(a + ";" + b, p, env).action) >= Strictness(DecideSql(a, p, env).action)
      && Strictness(DecideSql(a + ";" + b, p, env).action) >= Strictness(DecideSql(b, p, env).action)
  }

  /**
   For a script with a statement that is not blocked by itself: whatever is appended, the decision is
   never weaker than for either part, exactly when the script ends in code.
   */
  lemma AppendingIsSafeExactly(a: string, p: Patterns, env: Environment)
    requires Statements(a) != [] && DecideSql(a, p, env).action != Blocked
    ensures NeverWeakens(a, p, env) <==> EndsInCode(a)
  {
    hide DecideSql, Statements, EndsInCode;
    if EndsInCode(a) {
      forall b: string | Statements(b) != []
        ensures Strictness(DecideSql(a + ";" + b, p, env).action) >= Strictness(DecideSql(a, p, env).action)
        ensures Strictness(DecideSql(a + ";" + b, p, env).action) >= Strictness(DecideSql(b, p, env).action)
      {
        AppendingNeverWeakens(a, b, p, env);
      }
    } else {
      OpenTextHidesTheRest(a, p, env);
      DropIsBlocked(p, env);
    }
  }

  /**
   A line comment left open swallows the semicolon, and what stands on the next line becomes part of
   the first script's last statement.
   */
  lemma OpenCommentsMergeStatements(a: string, b: string)
    requires ModeAfter(Code, a) == Code
    ensures !EndsInCode(a + "--")
    ensures Statements(a + "--" + ";" + ("\n" + b)) == Statements(a + " \n" + b)
  {
    hide Trim, Split;
    var tail := "--;\n";
    var t := a + "--" + ";" + ("\n" + b);
    assert t == a + (tail + b);
    assert a + " \n" + b == a + (" \n" + b);
    DashesOpenALine(b);
    ScanInParts(Code, a, tail + b);
    ScanInParts(Code, a, " \n" + b);
    ScanInParts(Code, a, "--");
    StripIsScan(t);
    StripIsScan(a + " \n" + b);
    hide Strip, Scan;
    assert Strip(t) == Strip(a + " \n" + b);
  }

  lemma DashesOpenALine(b: string)
    ensures Scan(Code, "--;\n" + b) == Scan(Code, " \n" + b)
    ensures ModeAfter(Code, "--") == Line
  {
    ScanInParts(Code, "--;\n", b);
    ScanInParts(Code, " \n", b);
    CommentOut();
  }

  lemma CommentOut()
    ensures Emitted(Code, "--;\n") == Emitted(Code, " \n") == " \n"
    ensures ModeAfter(Code, "--;\n") == ModeAfter(Code, " \n") == Code && ModeAfter(Code, "--") == Line
  {
  }
}
