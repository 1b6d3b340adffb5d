/**
 What appending a script can do to the decision about one that is already blocked: nothing, unless
 the script is left open in a literal or comment and only its last statement is dangerous, and that
 only by a pattern test, which sees the longer text.
 */
module SqlAppend {
  import opened Prelude
  import opened JsString
  import opened SqlScan
  import opened SqlPolicy

  /** What is left of danger when the pattern tests find nothing: the keywords. */
  const LENIENT := Patterns((s: string) => true, (s: string) => false)

  predicate DangerousByKeyword(s: string)
  {
    Classify(s, LENIENT) == Dangerous
  }

  /** The part that an open literal or comment is in, and the statements before it. */
  function LastPart(a: string): string
  {
    Split(Strip(a))[|Split(Strip(a))| - 1]
  }

  function StatementsBefore(a: string): seq<string>
  {
    TrimmedNonEmpty(Split(Strip(a))[..|Split(Strip(a))| - 1])
  }

  lemma StatementsInTwo(a: string)
    ensures Statements(a) == StatementsBefore(a) + (if Trim(LastPart(a)) != "" then [Trim(LastPart(a))] else [])
  {
    hide Trim, Strip, Split;
    var parts := Split(Strip(a));
    assert parts == parts[..|parts| - 1] + [LastPart(a)];
    TrimmedConcat(parts[..|parts| - 1], [LastPart(a)]);
    assert [LastPart(a)][1..] == [];
    assert TrimmedNonEmpty([LastPart(a)]) == if Trim(LastPart(a)) != "" then [Trim(LastPart(a))] else [];
  }

  // ---- A text is made longer ----

  /** No word can run from the end of `u` into `z`. */
  predicate Boundary(u: string, z: string)
  {
    u == "" || z == "" || !IsWordChar(u[|u| - 1]) || !IsWordChar(z[0])
  }

  predicate IsWord(w: string)
  {
    w != "" && forall k | 0 <= k < |w| :: 'A' <= w[k] <= 'Z'
  }

  lemma LeadsStays(u: string, z: string, w: string)
    requires u != "" && Boundary(u, z) && IsWord(w)
    ensures Leads(u + z, w) <==> Leads(u, w)
  {
    if |w| <= |u| {
      assert forall k | 0 <= k < |w| :: (u + z)[k] == u[k];
    } else if z != "" {
      var k := if IsWordChar(u[|u| - 1]) then |u| else |u| - 1;
      assert !IsWordChar((u + z)[k]);
      assert Upper((u + z)[k]) != w[k];
    }
  }

  lemma SkipSpaceStays(s: string, z: string)
    requires SkipSpace(s) != ""
    ensures SkipSpace(s + z) == SkipSpace(s) + z
  {
    if IsSpace(s[0]) {
      assert (s + z)[1..] == s[1..] + z;
      SkipSpaceStays(s[1..], z);
    }
  }

  lemma AfterParenStays(s: string, z: string)
    requires AfterParen(s).Some?
    ensures AfterParen(s + z) == Some(AfterParen(s).value + z)
  {
    if s[0] == ')' {
      assert (s + z)[1..] == s[1..] + z;
    } else {
      assert (s + z)[1..] == s[1..] + z;
      AfterParenStays(s[1..], z);
    }
  }

  /** `t` is the end of `s`. */
  ghost predicate EndOf(t: string, s: string)
  {
    |t| <= |s| && s[|s| - |t|..] == t
  }

  lemma SkipSpaceIsEnd(s: string)
    ensures EndOf(SkipSpace(s), s)
    ensures SkipSpace(s) != "" ==> !IsSpace(SkipSpace(s)[0])
  {
  }

  lemma AfterParenIsEnd(s: string)
    requires AfterParen(s).Some?
    ensures EndOf(AfterParen(s).value, s)
  {
  }

  lemma EndsMeet(t: string, s: string, z: string)
    requires EndOf(t, s) && Boundary(s, z)
    ensures Boundary(t, z)
    ensures t != "" ==> t[|t| - 1] == s[|s| - 1]
  {
    if t != "" {
      assert t[|t| - 1] == s[|s| - |t|..][|t| - 1];
    }
  }

  lemma EndOfEnd(r: string, t: string, s: string)
    requires EndOf(r, t) && EndOf(t, s)
    ensures EndOf(r, s)
  {
  }

  predicate IsOption(s: string)
  {
    Leads(s, "ANALYZE") || Leads(s, "VERBOSE") || Leads(s, "ANALYSE")
  }

  lemma IsOptionStays(u: string, z: string)
    requires u != "" && Boundary(u, z)
    ensures IsOption(u + z) <==> IsOption(u)
    ensures IsOption(u) ==> |u| >= 7
  {
    hide Boundary;
    LeadsStays(u, z, "ANALYZE");
    LeadsStays(u, z, "VERBOSE");
    LeadsStays(u, z, "ANALYSE");
  }

  /** The options of EXPLAIN are the same in the longer text, if something follows them. */
  lemma {:induction false} OptionsStay(s: string, z: string)
    requires s != "" && !IsSpace(s[0]) && Boundary(s, z)
    requires AfterOptions(s) != "" && AfterOptions(s)[0] != '('
    ensures AfterOptions(s + z) == AfterOptions(s) + z
    ensures EndOf(AfterOptions(s), s) && !IsSpace(AfterOptions(s)[0])
    decreases |s|, 0
  {
    hide Boundary, Leads, IsSpace;
    IsOptionStays(s, z);
    if s[0] == '(' && AfterParen(s[1..]).Some? {
      var t := AfterParen(s[1..]).value;
      AfterParenStays(s[1..], z);
      AfterParenIsEnd(s[1..]);
      assert (s + z)[1..] == s[1..] + z;
      EndOfEnd(t, s[1..], s);
      OptionsStayBehind(s, t, z);
    } else if IsOption(s) {
      assert (s + z)[7..] == s[7..] + z;
      assert s[0] != '(' && (s + z)[0] == s[0] by { OptionIsALetter(s); }
      OptionsStayBehind(s, s[7..], z);
    } else {
      assert s[0] != '(';
    }
  }

  lemma OptionIsALetter(s: string)
    requires IsOption(s)
    ensures s[0] != '('
  {
  }

  lemma NoOptions()
    ensures AfterOptions("") == ""
  {
  }

  lemma OptionsStayBehind(s: string, t: string, z: string)
    requires EndOf(t, s) && |t| < |s| && Boundary(s, z)
    requires AfterOptions(SkipSpace(t)) != "" && AfterOptions(SkipSpace(t))[0] != '('
    ensures AfterOptions(SkipSpace(t + z)) == AfterOptions(SkipSpace(t)) + z
    ensures EndOf(AfterOptions(SkipSpace(t)), s) && !IsSpace(AfterOptions(SkipSpace(t))[0])
    decreases |SkipSpace(t)|, 1
  {
    hide Boundary, Leads, IsSpace;
    var r := SkipSpace(t);
    assert r != "" by { NoOptions(); }
    hide AfterOptions, SkipSpace;
    SkipSpaceStays(t, z);
    SkipSpaceIsEnd(t);
    EndOfEnd(r, t, s);
    EndsMeet(r, s, z);
    OptionsStay(r, z);
    EndOfEnd(AfterOptions(r), r, s);
  }

  // ---- The category of a longer text ----

  /** `z` is what a text has more than `u`, whose last word it does not go on with. */
  predicate GoesOn(u: string, z: string)
  {
    Boundary(u, z) && (z != "" ==> !IsSpace(z[|z| - 1]))
  }

  ghost predicate SameWords(u: string, v: string)
  {
    && (Leads(u, "EXPLAIN") <==> Leads(v, "EXPLAIN"))
    && (Leads(u, "SELECT") <==> Leads(v, "SELECT"))
    && (Leads(u, "WITH") <==> Leads(v, "WITH"))
    && (Leads(u, "SHOW") <==> Leads(v, "SHOW"))
    && (Leads(u, "DESCRIBE") <==> Leads(v, "DESCRIBE"))
    && (Leads(u, "DESC") <==> Leads(v, "DESC"))
    && (Leads(u, "DROP") <==> Leads(v, "DROP"))
    && (Leads(u, "TRUNCATE") <==> Leads(v, "TRUNCATE"))
    && (Leads(u, "ALTER") <==> Leads(v, "ALTER"))
    && (Leads(u, "RENAME") <==> Leads(v, "RENAME"))
    && (Leads(u, "CREATE") <==> Leads(v, "CREATE"))
    && (Leads(u, "INSERT") <==> Leads(v, "INSERT"))
    && (Leads(u, "UPDATE") <==> Leads(v, "UPDATE"))
  }

  lemma WordsStay(u: string, z: string)
    requires u != "" && Boundary(u, z)
    ensures SameWords(u, u + z)
  {
    hide Boundary, Leads;
    LeadsStays(u, z, "EXPLAIN");
    LeadsStays(u, z, "SELECT");
    LeadsStays(u, z, "WITH");
    LeadsStays(u, z, "SHOW");
    LeadsStays(u, z, "DESCRIBE");
    LeadsStays(u, z, "DESC");
    LeadsStays(u, z, "DROP");
    LeadsStays(u, z, "TRUNCATE");
    LeadsStays(u, z, "ALTER");
    LeadsStays(u, z, "RENAME");
    LeadsStays(u, z, "CREATE");
    LeadsStays(u, z, "INSERT");
    LeadsStays(u, z, "UPDATE");
  }

  /** What the pattern tests say of texts of some length: every UPDATE is scoped, no WITH modifies. */
  ghost predicate LenientFrom(p: Patterns, n: nat)
  {
    forall s: string | |s| >= n :: p.scopedUpdate(s) && !p.modifiesData(s)
  }

  lemma PlainStays(u: string, v: string, p: Patterns, q: Patterns)
    requires SameWords(u, v) && !Leads(u, "EXPLAIN") && Classify(u, p) == Dangerous
    ensures DangerousByKeyword(u) ==> Classify(v, q) == Dangerous
    ensures !DangerousByKeyword(u) && LenientFrom(q, |v|) ==> Classify(v, q) != Dangerous
  {
    hide Leads;
  }

  lemma NoWordLeads(w: string, word: string)
    requires (w == "" || w[0] == '(') && IsWord(word)
    ensures !Leads(w, word)
  {
  }

  lemma NoDangerInParens(w: string, p: Patterns)
    requires w == "" || w[0] == '('
    ensures Classify(w, p) == Unknown
  {
    hide Leads;
    NoWordLeads(w, "EXPLAIN");
    NoWordLeads(w, "SELECT");
    NoWordLeads(w, "WITH");
    NoWordLeads(w, "SHOW");
    NoWordLeads(w, "DESCRIBE");
    NoWordLeads(w, "DESC");
    NoWordLeads(w, "DROP");
    NoWordLeads(w, "TRUNCATE");
    NoWordLeads(w, "ALTER");
    NoWordLeads(w, "RENAME");
    NoWordLeads(w, "CREATE");
    NoWordLeads(w, "INSERT");
    NoWordLeads(w, "UPDATE");
    NoWordLeads(w, "DELETE");
    NoWordLeads(w, "MERGE");
    NoWordLeads(w, "REPLACE");
  }

  lemma {:induction false} OptionsAreFront(s: string)
    requires s == "" || !IsSpace(s[0])
    ensures EndOf(AfterOptions(s), s)
    ensures AfterOptions(s) != "" ==> !IsSpace(AfterOptions(s)[0])
    decreases |s|
  {
    hide IsSpace, Leads;
    var t := if s != "" && s[0] == '(' && AfterParen(s[1..]).Some? then AfterParen(s[1..]).value
             else if IsOption(s) then OptionIsLong(s); s[7..] else s;
    if s != "" && s[0] == '(' && AfterParen(s[1..]).Some? {
      AfterParenIsEnd(s[1..]);
      EndOfEnd(t, s[1..], s);
    }
    if |t| < |s| {
      SkipSpaceIsEnd(t);
      OptionsAreFront(SkipSpace(t));
      EndOfEnd(SkipSpace(t), t, s);
      EndOfEnd(AfterOptions(SkipSpace(t)), SkipSpace(t), s);
    }
  }

  lemma OptionIsLong(s: string)
    ensures IsOption(s) ==> |s| >= 7
  {
  }

  lemma TrimOfTrimmed(s: string)
    requires s != "" ==> !IsSpace(s[0]) && !IsSpace(s[|s| - 1])
    ensures Trim(s) == s
  {
  }

  /** The statement that EXPLAIN explains. */
  function Explained(u: string): string
    requires |u| >= 7
  {
    AfterOptions(SkipSpace(u[7..]))
  }

  lemma ExplainedOf(u: string, p: Patterns)
    requires Leads(u, "EXPLAIN") && !IsSpace(u[|u| - 1])
    ensures |u| >= 7
    ensures var w := Explained(u);
            && EndOf(w, u)
            && (w != "" ==> !IsSpace(w[0]) && !IsSpace(w[|w| - 1]))
            && Classify(u, p) == if w != "" then Classify(w, p) else Read
  {
    ClassifyExplain(u, p);
    hide Leads, IsSpace, Trim, Classify;
    SkipSpaceIsEnd(u[7..]);
    var r := SkipSpace(u[7..]);
    OptionsAreFront(r);
    var w := AfterOptions(r);
    EndOfEnd(r, u[7..], u);
    EndOfEnd(w, r, u);
    EndsMeet(w, u, "");
    TrimOfTrimmed(w);
  }

  lemma ExplainedStays(u: string, z: string)
    requires Leads(u, "EXPLAIN") && |u| >= 7 && Boundary(u, z)
    requires Explained(u) != "" && Explained(u)[0] != '('
    ensures Explained(u + z) == Explained(u) + z
  {
    hide Leads, IsSpace, Boundary;
    assert (u + z)[7..] == u[7..] + z;
    OptionsStayBehind(u, u[7..], z);
  }

  /**
   A dangerous statement that is made longer: dangerous by its keyword, it stays so whatever the
   patterns say; otherwise patterns that are lenient with the longer text let it pass.
   */
  lemma {:induction false} ClassifyStays(u: string, z: string, p: Patterns, q: Patterns)
    requires u != "" && !IsSpace(u[|u| - 1]) && GoesOn(u, z)
    requires Classify(u, p) == Dangerous
    ensures DangerousByKeyword(u) ==> Classify(u + z, q) == Dangerous
    ensures !DangerousByKeyword(u) && LenientFrom(q, |z|) ==> Classify(u + z, q) != Dangerous
    decreases |u|
  {
    WordsStay(u, z);
    hide Leads, IsSpace, Boundary, Explained;
    assert (u + z)[|u + z| - 1] == if z == "" then u[|u| - 1] else z[|z| - 1];
    if Leads(u, "EXPLAIN") {
      ExplainedOf(u, p);
      ExplainedOf(u, LENIENT);
      ExplainedOf(u + z, q);
      hide Classify;
      var w := Explained(u);
      if w[0] == '(' {
        NoDangerInParens(w, p);
      } else {
        assert |w| < |u|;
        EndsMeet(w, u, z);
        ExplainedStays(u, z);
        ClassifyStays(w, z, p, q);
      }
    } else {
      hide Classify;
      PlainStays(u, u + z, p, q);
    }
  }

  // ---- An open script ----

  /** What an open script emits ends with the space or the placeholder of what is open. */
  lemma {:induction false} OpenEnds(m: Mode, s: string)
    requires !InCode(ModeAfter(m, s))
    ensures var e := Emitted(m, s);
            if e == "" then !InCode(m) || m.Closing? else e[|e| - 1] == ' ' || e[|e| - 1] == '\''
    decreases |s|
  {
    if s != "" {
      OpenEnds(Next(m, s[0]).mode, s[1..]);
      if Emitted(Next(m, s[0]).mode, s[1..]) == "" {
        MoveEnds(m, s[0]);
      }
    }
  }

  lemma MoveEnds(m: Mode, c: char)
    requires !InCode(Next(m, c).mode) || Next(m, c).mode.Closing?
    ensures var e := Next(m, c).out;
            if e == "" then !InCode(m) || m.Closing? else e[|e| - 1] == ' ' || e[|e| - 1] == '\''
  {
  }

  /** What a character in front makes of the parts. */
  function InFront(c: char, parts: seq<string>): (r: seq<string>)
    requires parts != []
    ensures |r| >= 1
  {
    if c == ';' then [""] + parts else [[c] + parts[0]] + parts[1..]
  }

  lemma SplitInFront(c: char, t: string)
    ensures Split([c] + t) == InFront(c, Split(t))
  {
    SplitOnce(c, t);
  }

  lemma {:induction false} SplitOfLonger(e: string, t: string)
    ensures var k := |Split(e)| - 1;
            Split(e + t) == Split(e)[..k] + [Split(e)[k] + Split(t)[0]] + Split(t)[1..]
    decreases |e|
  {
    if e == "" {
      assert e + t == t && "" + Split(t)[0] == Split(t)[0];
      assert Split(t) == [Split(t)[0]] + Split(t)[1..];
      assert Split(e)[..0] == [] && Split(e)[0] == "";
    } else {
      var c, more := e[0], e[1..];
      hide Split, InFront;
      SplitOfLonger(more, t);
      SplitInFront(c, more + t);
      SplitInFront(c, more);
      assert e + t == [c] + (more + t) && e == [c] + more;
      SplitTwo(c, Split(more), Split(t)[0], Split(t)[1..], Split(more + t));
    }
  }

  lemma SplitTwo(c: char, parts: seq<string>, t: string, rest: seq<string>, whole: seq<string>)
    requires parts != [] && whole == parts[..|parts| - 1] + [parts[|parts| - 1] + t] + rest
    ensures var r, k := InFront(c, parts), |InFront(c, parts)| - 1;
            InFront(c, whole) == r[..k] + [r[k] + t] + rest
  {
    if c != ';' && |parts| == 1 {
      assert whole == [parts[0] + t] + rest;
      assert [c] + (parts[0] + t) == [c] + parts[0] + t;
    }
  }

  lemma {:induction false} LastOfSplit(e: string)
    requires e != "" && e[|e| - 1] != ';'
    ensures var last := Split(e)[|Split(e)| - 1];
            last != "" && last[|last| - 1] == e[|e| - 1]
    decreases |e|
  {
    var c, more := e[0], e[1..];
    assert e == [c] + more;
    SplitInFront(c, more);
    if more == "" {
      assert Split(more) == [""];
    } else {
      LastOfSplit(more);
      assert more[|more| - 1] == e[|e| - 1];
    }
    hide Split;
  }

  // ---- The last statement made longer ----

  lemma TrimEndKeeps(s: string)
    ensures |TrimEnd(s)| <= |s| && TrimEnd(s) == s[..|TrimEnd(s)|]
    ensures forall k | |TrimEnd(s)| <= k < |s| :: IsSpace(s[k])
    ensures TrimEnd(s) != "" ==> !IsSpace(TrimEnd(s)[|TrimEnd(s)| - 1])
  {
    hide IsSpace;
  }

  lemma TrimStartOfLonger(s: string, x: string)
    requires TrimStart(s) != ""
    ensures TrimStart(s + x) == TrimStart(s) + x
  {
    if IsSpace(s[0]) {
      assert (s + x)[1..] == s[1..] + x;
      TrimStartOfLonger(s[1..], x);
    }
  }

  lemma TrimStartIsEnd(s: string)
    ensures EndOf(TrimStart(s), s)
  {
    hide IsSpace;
  }

  lemma TrimEndOfLonger(r: string, x: string)
    requires TrimEnd(r) != "" && !IsWordChar(r[|r| - 1])
    ensures TrimEnd(r) <= TrimEnd(r + x)
    ensures GoesOn(TrimEnd(r), TrimEnd(r + x)[|TrimEnd(r)|..])
    ensures !IsSpace(TrimEnd(r)[|TrimEnd(r)| - 1])
  {
    TrimEndKeeps(r);
    TrimEndKeeps(r + x);
    SpaceIsNoWord();
    hide TrimEnd, IsSpace, IsWordChar;
    var u, v := TrimEnd(r), TrimEnd(r + x);
    assert u[|u| - 1] == (r + x)[|u| - 1];
    assert |v| >= |u|;
    assert v[|u|..] != "" && |u| < |r| ==> v[|u|..][0] == r[|u|];
  }

  lemma TrimEndOfEnded(r: string, x: string)
    requires x != "" && !IsSpace(x[|x| - 1])
    ensures TrimEnd(r + x) == r + x
  {
    assert (r + x)[|r + x| - 1] == x[|x| - 1];
  }

  /** A trimmed text made longer begins with the same trimmed text, and no word runs across. */
  lemma TrimOfLonger(s: string, x: string)
    requires Trim(s) != "" && !IsWordChar(s[|s| - 1])
    ensures Trim(s) <= Trim(s + x) && GoesOn(Trim(s), Trim(s + x)[|Trim(s)|..])
    ensures x != "" && !IsSpace(x[|x| - 1]) ==> |Trim(s + x)| >= |Trim(s)| + |x|
    ensures !IsSpace(Trim(s)[|Trim(s)| - 1])
  {
    var r := TrimStart(s);
    TrimStartOfLonger(s, x);
    TrimStartIsEnd(s);
    TrimEndKeeps(r);
    hide TrimStart, TrimEnd, IsSpace, IsWordChar, GoesOn;
    assert r[|r| - 1] == s[|s| - 1];
    TrimEndOfLonger(r, x);
    if x != "" && !IsSpace(x[|x| - 1]) {
      TrimEndOfEnded(r, x);
    }
  }

  lemma SpaceIsNoWord()
    ensures forall c: char | IsSpace(c) :: !IsWordChar(c)
  {
  }

  /** The statements of an open script with another one appended. */
  lemma AppendedToOpen(a: string, b: string)
    requires !EndsInCode(a)
    ensures var t := Split(Scan(ModeAfter(Code, a), ";" + b));
            Statements(a + ";" + b) == StatementsBefore(a) + TrimmedNonEmpty([LastPart(a) + t[0]]) + TrimmedNonEmpty(t[1..])
    ensures LastPart(a) != "" && !IsWordChar(LastPart(a)[|LastPart(a)| - 1])
  {
    var m := ModeAfter(Code, a);
    StripIsScan(a);
    StripIsScan(a + ";" + b);
    assert a + ";" + b == a + (";" + b);
    ScanInParts(Code, a, ";" + b);
    ScanIsEmitted(Code, a);
    OpenEnds(Code, a);
    assert Held(m) == "";
    hide ModeAfter, Scan, Emitted, Strip, Held;
    var e, t := Strip(a), Split(Scan(m, ";" + b));
    assert e == Emitted(Code, a);
    LastOfSplit(e);
    SplitOfLonger(e, Scan(m, ";" + b));
    hide Split, Trim;
    var front := Split(e)[..|Split(e)| - 1];
    TrimmedConcat(front + [LastPart(a) + t[0]], t[1..]);
    TrimmedConcat(front, [LastPart(a) + t[0]]);
  }

  // ---- Blocked for good ----

  ghost predicate HasDanger(ss: seq<string>, p: Patterns)
  {
    exists s | s in ss :: Classify(s, p) == Dangerous
  }

  lemma BlockedByDanger(a: string, p: Patterns, env: Environment)
    requires Statements(a) != []
    ensures DecideSql(a, p, env).action == Blocked <==> HasDanger(Statements(a), p)
  {
    hide Statements, Classify, Decide;
    var ss := Statements(a);
    var cs := Categories(ss, p);
    ActionExactly(cs, env);
    assert forall k | 0 <= k < |ss| :: ss[k] in ss && cs[k] in cs;
  }

  /** Patterns that answer alike for texts of up to `n` characters. */
  ghost predicate AlikeTo(p: Patterns, q: Patterns, n: nat)
  {
    forall s: string | |s| <= n :: q.scopedUpdate(s) == p.scopedUpdate(s) && q.modifiesData(s) == p.modifiesData(s)
  }

  lemma PlainAlike(s: string, p: Patterns, q: Patterns)
    requires !Leads(s, "EXPLAIN") && q.scopedUpdate(s) == p.scopedUpdate(s) && q.modifiesData(s) == p.modifiesData(s)
    ensures Classify(s, p) == Classify(s, q)
  {
    hide Leads;
  }

  lemma {:induction false} ClassifiedAlike(s: string, p: Patterns, q: Patterns, n: nat)
    requires AlikeTo(p, q, n) && |s| <= n
    ensures Classify(s, p) == Classify(s, q)
    decreases |s|
  {
    if Leads(s, "EXPLAIN") {
      ClassifyExplain(s, p);
      ClassifyExplain(s, q);
      TrimIsShorter(AfterOptions(SkipSpace(s[7..])));
      hide Trim, AfterOptions, SkipSpace, Leads, Classify;
      var inner := Trim(AfterOptions(SkipSpace(s[7..])));
      if inner != "" {
        ClassifiedAlike(inner, p, q, n);
      }
    } else {
      hide Leads, Classify;
      PlainAlike(s, p, q);
    }
  }

  lemma {:induction false} StatementsAreShort(parts: seq<string>, n: nat)
    requires forall part | part in parts :: |part| <= n
    ensures forall s | s in TrimmedNonEmpty(parts) :: |s| <= n
    decreases |parts|
  {
    hide Trim;
    if parts != [] {
      TrimIsShorter(parts[0]);
      assert parts[0] in parts;
      StatementsAreShort(parts[1..], n);
    }
  }

  lemma PartsAreShort(s: string)
    ensures forall part | part in Split(s) :: |part| <= |s|
  {
  }

  lemma AllAreShort(a: string)
    ensures forall s | s in Statements(a) :: |s| <= |Strip(a)|
  {
    hide Strip, Split;
    PartsAreShort(Strip(a));
    StatementsAreShort(Split(Strip(a)), |Strip(a)|);
  }

  /** Blocked whatever is appended, and whatever the patterns say of texts that are longer than the script. */
  ghost predicate StaysBlocked(a: string, p: Patterns, env: Environment)
  {
    forall q, b | AlikeTo(p, q, |Strip(a)|) :: DecideSql(a + ";" + b, q, env).action == Blocked
  }

  /** Danger that is out of reach: closed off, in an earlier statement, or in the keyword of the last. */
  ghost predicate DangerIsFixed(a: string, p: Patterns)
  {
    EndsInCode(a) || HasDanger(StatementsBefore(a), p) || DangerousByKeyword(Trim(LastPart(a)))
  }

  lemma DangerStays(ss: seq<string>, more: seq<string>, p: Patterns, q: Patterns, n: nat)
    requires HasDanger(ss, p) && AlikeTo(p, q, n) && forall s | s in ss :: |s| <= n
    ensures HasDanger(ss + more, q)
  {
    hide Classify, AlikeTo;
    var s :| s in ss && Classify(s, p) == Dangerous;
    ClassifiedAlike(s, p, q, n);
    assert s in ss + more;
  }

  lemma OneStatement(s: string)
    ensures TrimmedNonEmpty([s]) == if Trim(s) != "" then [Trim(s)] else []
  {
    hide Trim;
    assert [s][1..] == [];
  }

  lemma KeywordStays(tail: string, x: string, q: Patterns)
    requires DangerousByKeyword(Trim(tail)) && tail != "" && !IsWordChar(tail[|tail| - 1])
    ensures HasDanger(TrimmedNonEmpty([tail + x]), q)
  {
    var u := Trim(tail);
    if u == "" {
      NoDangerInParens(u, LENIENT);
    }
    TrimOfLonger(tail, x);
    OneStatement(tail + x);
    hide Trim, Classify, GoesOn;
    var v := Trim(tail + x);
    ClassifyStays(u, v[|u|..], LENIENT, q);
    assert v == u + v[|u|..];
    assert v in [v];
  }

  lemma DangerOfParts(a: seq<string>, b: seq<string>, c: seq<string>, p: Patterns)
    ensures HasDanger(a + b + c, p) <==> HasDanger(a, p) || HasDanger(b, p) || HasDanger(c, p)
  {
    hide Classify;
    assert forall s :: s in a + b + c <==> s in a || s in b || s in c;
  }

  lemma FixedWhenClosed(a: string, b: string, p: Patterns, q: Patterns)
    requires HasDanger(Statements(a), p) && EndsInCode(a) && AlikeTo(p, q, |Strip(a)|)
    ensures HasDanger(Statements(a + ";" + b), q)
  {
    AllAreShort(a);
    hide Statements, HasDanger, AlikeTo, EndsInCode, Strip;
    StatementsDistribute(a, b);
    DangerStays(Statements(a), Statements(b), p, q, |Strip(a)|);
  }

  lemma FixedBefore(a: string, p: Patterns, q: Patterns)
    requires HasDanger(StatementsBefore(a), p) && AlikeTo(p, q, |Strip(a)|)
    ensures HasDanger(StatementsBefore(a), q)
  {
    AllAreShort(a);
    StatementsInTwo(a);
    hide Statements, HasDanger, AlikeTo, Strip, StatementsBefore;
    DangerStays(StatementsBefore(a), [], p, q, |Strip(a)|);
    assert StatementsBefore(a) + [] == StatementsBefore(a);
  }

  /** Dangerous statements of an open script, before and after another one is appended. */
  lemma DangerInOpen(a: string, b: string, p: Patterns)
    requires !EndsInCode(a)
    ensures var t := Split(Scan(ModeAfter(Code, a), ";" + b));
            HasDanger(Statements(a + ";" + b), p) <==>
            || HasDanger(StatementsBefore(a), p)
            || HasDanger(TrimmedNonEmpty([LastPart(a) + t[0]]), p)
            || HasDanger(TrimmedNonEmpty(t[1..]), p)
  {
    AppendedToOpen(a, b);
    hide Statements, HasDanger, EndsInCode, StatementsBefore, LastPart, TrimmedNonEmpty, Scan, Split;
    var t := Split(Scan(ModeAfter(Code, a), ";" + b));
    DangerOfParts(StatementsBefore(a), TrimmedNonEmpty([LastPart(a) + t[0]]), TrimmedNonEmpty(t[1..]), p);
  }

  lemma FixedDangerStays(a: string, b: string, p: Patterns, q: Patterns)
    requires HasDanger(Statements(a), p) && DangerIsFixed(a, p) && AlikeTo(p, q, |Strip(a)|)
    ensures HasDanger(Statements(a + ";" + b), q)
  {
    hide Statements, HasDanger, AlikeTo, DangerousByKeyword, EndsInCode, StatementsBefore, LastPart, Trim, TrimmedNonEmpty;
    if EndsInCode(a) {
      FixedWhenClosed(a, b, p, q);
    } else {
      AppendedToOpen(a, b);
      DangerInOpen(a, b, q);
      if HasDanger(StatementsBefore(a), p) {
        FixedBefore(a, p, q);
      } else {
        KeywordStays(LastPart(a), Split(Scan(ModeAfter(Code, a), ";" + b))[0], q);
      }
    }
  }

  // ---- A way out ----

  /** What closes an open literal or comment. */
  function Closer(m: Mode): string
    requires !InCode(m)
  {
    match m
    case Line => "\n"
    case Literal(q) => [q]
    case _ => "*/"
  }

  function Filler(n: nat): string
  {
    seq(n, k requires 0 <= k < n => 'x')
  }

  lemma TwoMoves(m: Mode, c: char, d: char)
    ensures var n := Next(m, c);
            && Emitted(m, [c] + [d]) == n.out + Next(n.mode, d).out
            && ModeAfter(m, [c] + [d]) == Next(n.mode, d).mode
  {
    assert ([c] + [d])[1..] == [d] && [d][1..] == "";
    hide Next;
    assert Emitted(Next(m, c).mode, [d]) == Next(Next(m, c).mode, d).out + "";
    assert ModeAfter(Next(m, c).mode, [d]) == Next(Next(m, c).mode, d).mode;
  }

  lemma CloserCloses(m: Mode)
    requires !InCode(m)
    ensures Emitted(m, ";" + Closer(m)) == (if m.Line? then "\n" else "")
    ensures ModeAfter(m, ";" + Closer(m)).Code? || ModeAfter(m, ";" + Closer(m)).Closing?
  {
    var n := Next(m, ';');
    assert n.out == "" && (n.mode == m || (m.Star? && n.mode.Block?));
    assert (";" + Closer(m))[1..] == Closer(m);
    if m.Line? || m.Literal? {
      TwoMoves(m, ';', Closer(m)[0]);
      hide Emitted, ModeAfter;
      assert ";" + Closer(m) == [';'] + [Closer(m)[0]];
    } else {
      TwoMoves(Block, '*', '/');
      assert Closer(m) == ['*'] + ['/'];
    }
  }

  lemma {:induction false} FillerIsKept(m: Mode, n: nat)
    requires m.Code? || m.Closing?
    ensures Scan(m, Filler(n)) == Filler(n)
    decreases n
  {
    if n > 0 {
      assert Filler(n)[1..] == Filler(n - 1);
      assert Next(m, 'x') == Move(Code, "x");
      FillerIsKept(Code, n - 1);
      assert "x" + Filler(n - 1) == Filler(n);
    }
  }

  /** What the scanner makes of a closer and a filler behind an open script: one part that ends with the filler. */
  lemma WayOut(m: Mode, n: nat)
    requires !InCode(m) && n > 0
    ensures var t := Scan(m, ";" + (Closer(m) + Filler(n)));
            Split(t) == [t] && |t| >= n && !IsSpace(t[|t| - 1])
  {
    CloserCloses(m);
    var closing := ";" + Closer(m);
    assert ";" + (Closer(m) + Filler(n)) == closing + Filler(n);
    ScanInParts(m, closing, Filler(n));
    FillerIsKept(ModeAfter(m, closing), n);
    hide Scan, Split, Emitted, ModeAfter, Closer;
    FillerIsOnePart(if m.Line? then "\n" else "", n);
  }

  lemma FillerIsOnePart(front: string, n: nat)
    requires ';' !in front && n > 0
    ensures Split(front + Filler(n)) == [front + Filler(n)] && !IsSpace((front + Filler(n))[|front| + n - 1])
  {
    assert (front + Filler(n))[|front| + n - 1] == 'x';
    hide Split;
    SplitOfOne(front + Filler(n));
  }

  /** As `p`, but lenient with texts of more than `n` characters. */
  function Lenient(p: Patterns, n: nat): Patterns
  {
    Patterns(s => |s| > n || p.scopedUpdate(s), s => |s| <= n && p.modifiesData(s))
  }

  lemma LenientIsAlike(p: Patterns, n: nat)
    ensures AlikeTo(p, Lenient(p, n), n) && AlikeTo(Lenient(p, n), p, n) && LenientFrom(Lenient(p, n), n + 1)
  {
  }

  lemma LastIsSaved(tail: string, t: string, p: Patterns, q: Patterns, n: nat)
    requires tail != "" && !IsWordChar(tail[|tail| - 1])
    requires Trim(tail) != "" && Classify(Trim(tail), p) == Dangerous && !DangerousByKeyword(Trim(tail))
    requires |t| >= n > 0 && !IsSpace(t[|t| - 1]) && LenientFrom(q, n)
    ensures TrimmedNonEmpty([tail + t]) == [Trim(tail + t)] && Classify(Trim(tail + t), q) != Dangerous
  {
    TrimOfLonger(tail, t);
    OneStatement(tail + t);
    hide Trim, Classify, GoesOn, IsSpace, IsWordChar;
    var u, v := Trim(tail), Trim(tail + t);
    ClassifyStays(u, v[|u|..], p, q);
    assert v == u + v[|u|..];
  }

  /** An appended text that makes the last statement long. */
  function Rescue(a: string): string
    requires !EndsInCode(a)
  {
    Closer(ModeAfter(Code, a)) + Filler(|Strip(a)| + 1)
  }

  lemma LastIsTheDanger(a: string, p: Patterns)
    requires HasDanger(Statements(a), p) && !DangerIsFixed(a, p)
    ensures Trim(LastPart(a)) != "" && Classify(Trim(LastPart(a)), p) == Dangerous
  {
    StatementsInTwo(a);
    hide Statements, StatementsBefore, LastPart, Classify, Trim, EndsInCode;
  }

  lemma NoDangerInOne(s: string, p: Patterns)
    requires Classify(s, p) != Dangerous
    ensures !HasDanger([s], p)
  {
    hide Classify;
  }

  lemma NoDangerInNone(p: Patterns)
    ensures !HasDanger([], p)
  {
  }

  lemma NothingTrimmed()
    ensures TrimmedNonEmpty([]) == []
  {
  }

  lemma OpenTail(a: string)
    requires !EndsInCode(a)
    ensures LastPart(a) != "" && !IsWordChar(LastPart(a)[|LastPart(a)| - 1])
  {
    AppendedToOpen(a, "");
  }

  /** What the scanner makes of the rescue. */
  function Tail(a: string): string
    requires !EndsInCode(a)
  {
    Scan(ModeAfter(Code, a), ";" + Rescue(a))
  }

  lemma TailIsOnePart(a: string)
    requires !EndsInCode(a)
    ensures Split(Tail(a)) == [Tail(a)] && |Tail(a)| > |Strip(a)| && !IsSpace(Tail(a)[|Tail(a)| - 1])
  {
    WayOut(ModeAfter(Code, a), |Strip(a)| + 1);
    hide Scan, Split, ModeAfter, Strip, Closer, Filler;
  }

  lemma LastIsRescued(a: string, p: Patterns)
    requires !EndsInCode(a) && Trim(LastPart(a)) != ""
    requires Classify(Trim(LastPart(a)), p) == Dangerous && !DangerousByKeyword(Trim(LastPart(a)))
    ensures var saved := TrimmedNonEmpty([LastPart(a) + Tail(a)]);
            saved != [] && !HasDanger(saved, Lenient(p, |Strip(a)|))
  {
    hide Tail, Strip, Split, LastPart, Classify, Lenient, LenientFrom, Trim, IsWordChar, IsSpace, HasDanger, AlikeTo;
    hide TrimmedNonEmpty, DangerousByKeyword, EndsInCode;
    LenientIsAlike(p, |Strip(a)|);
    TailIsOnePart(a);
    OpenTail(a);
    LastIsSaved(LastPart(a), Tail(a), p, Lenient(p, |Strip(a)|), |Strip(a)| + 1);
    NoDangerInOne(Trim(LastPart(a) + Tail(a)), Lenient(p, |Strip(a)|));
  }

  /** Danger that is not fixed can be appended away. */
  lemma Unblocked(a: string, p: Patterns, env: Environment)
    requires HasDanger(Statements(a), p) && !DangerIsFixed(a, p)
    ensures !StaysBlocked(a, p, env)
  {
    var q, b := Lenient(p, |Strip(a)|), Rescue(a);
    LenientIsAlike(p, |Strip(a)|);
    LastIsTheDanger(a, p);
    LastIsRescued(a, p);
    TailIsOnePart(a);
    NothingTrimmed();
    NoDangerInNone(q);
    AppendedToOpen(a, b);
    DangerInOpen(a, b, q);
    assert [Tail(a)][1..] == [];
    hide Tail, Strip, Scan, Split, Statements, StatementsBefore, LastPart, Classify, TrimmedNonEmpty, AlikeTo, Lenient, LenientFrom;
    hide Trim, IsWordChar, EndsInCode, Rescue, DecideSql, HasDanger, DangerousByKeyword;
    if HasDanger(StatementsBefore(a), q) {
      FixedBefore(a, q, p);
      assert false;
    }
    BlockedByDanger(a + ";" + b, q, env);
  }

  /**
   A blocked script with a statement: it stays blocked whatever is appended, exactly when it ends in
   code, or a statement before the open one is dangerous, or the open one is so by its keyword.
   Otherwise, an UPDATE or a WITH in open text, what is appended is taken for part of it.
   */
  lemma BlockedStaysExactly(a: string, p: Patterns, env: Environment)
    requires Statements(a) != [] && DecideSql(a, p, env).action == Blocked
    ensures StaysBlocked(a, p, env) <==> DangerIsFixed(a, p)
  {
    BlockedByDanger(a, p, env);
    hide Statements, DecideSql, HasDanger, DangerIsFixed, Strip, AlikeTo;
    if DangerIsFixed(a, p) {
      forall q, b | AlikeTo(p, q, |Strip(a)|)
        ensures DecideSql(a + ";" + b, q, env).action == Blocked
      {
        FixedDangerStays(a, b, p, q);
        DangerIsAStatement(a + ";" + b, q);
        BlockedByDanger(a + ";" + b, q, env);
      }
    } else {
      Unblocked(a, p, env);
    }
  }

  lemma DangerIsAStatement(a: string, p: Patterns)
    requires HasDanger(Statements(a), p)
    ensures Statements(a) != []
  {
    hide Statements, Classify;
  }

  // ---- An input ----

  /** Text without quotes, comment signs or semicolons. */
  predicate IsText(s: string)
  {
    forall k | 0 <= k < |s| :: !IsQuote(s[k]) && s[k] !in "#-/;"
  }

  lemma {:induction false} TextIsKept(s: string)
    requires IsText(s)
    ensures Emitted(Code, s) == s && ModeAfter(Code, s) == Code && ';' !in s
    decreases |s|
  {
    if s != "" {
      TextIsKept(s[1..]);
      assert Next(Code, s[0]) == Move(Code, [s[0]]);
      assert [s[0]] + s[1..] == s;
    }
  }

  lemma OneText(s: string)
    requires s != "" && ';' !in s && !IsSpace(s[0]) && !IsSpace(s[|s| - 1])
    ensures TrimmedNonEmpty(Split(s)) == [s] && TrimmedNonEmpty(Split(s + " ")) == [s]
  {
    SplitOfOne(s);
    SplitOfOne(s + " ");
    OneStatement(s);
    OneStatement(s + " ");
    TrimOfTrimmed(s);
    assert (s + " ")[0] == s[0] && (s + " ")[..|s|] == s;
    assert TrimStart(s + " ") == s + " ";
  }

  lemma TextIsOneStatement(u: string)
    requires u != "" && IsText(u) && !IsSpace(u[0]) && !IsSpace(u[|u| - 1])
    ensures Statements(u) == [u] && Statements(u + "--") == [u]
  {
    TextIsKept(u);
    OneText(u);
    StripIsScan(u);
    StripIsScan(u + "--");
    ScanInParts(Code, u, "--");
    ScanIsEmitted(Code, u);
    DashesAreASpace();
    hide Trim, Split, Strip, Scan, Emitted, ModeAfter, TrimmedNonEmpty;
    assert u + "" == u;
  }

  lemma DashesAreASpace()
    ensures Scan(Code, "--") == " "
  {
    assert "--"[1..] == "-" && "-"[1..] == "";
  }

  /** A text that is one UPDATE is decided by the pattern. */
  lemma OneUpdate(u: string, p: Patterns)
    requires IsText(u) && Leads(u, "UPDATE") && !IsSpace(u[|u| - 1])
    ensures Statements(u) == [u] == Statements(u + "--")
    ensures Decide(Categories([u], p), NonProduction).action == if p.scopedUpdate(u) then AutoExecute else Blocked
  {
    hide Statements, Classify, Leads, IsText, IsSpace, Decide;
    UpdateIsNoSpace(u);
    TextIsOneStatement(u);
    UpdateIsJudgedByPattern(u, p);
    DecideOneUpdate(p.scopedUpdate(u));
    assert Categories([u], p) == [if p.scopedUpdate(u) then LowRiskWrite else Dangerous];
  }

  lemma UpdateIsNoSpace(u: string)
    requires Leads(u, "UPDATE")
    ensures u != "" && !IsSpace(u[0])
  {
    assert Upper(u[0]) == 'U';
  }

  lemma DecideOneUpdate(scoped: bool)
    ensures Decide([if scoped then LowRiskWrite else Dangerous], NonProduction).action == if scoped then AutoExecute else Blocked
  {
  }

  lemma UpdateIsJudgedByPattern(u: string, p: Patterns)
    requires Leads(u, "UPDATE")
    ensures Classify(u, p) == if p.scopedUpdate(u) then LowRiskWrite else Dangerous
  {
    assert Upper(u[0]) == 'U' && Upper(u[1]) == 'P';
    hide Leads;
    NotLedBy(u, "EXPLAIN");
    NotLedBy(u, "SELECT");
    NotLedBy(u, "WITH");
    NotLedBy(u, "SHOW");
    NotLedBy(u, "DESCRIBE");
    NotLedBy(u, "DESC");
    NotLedBy(u, "DROP");
    NotLedBy(u, "TRUNCATE");
    NotLedBy(u, "ALTER");
    NotLedBy(u, "RENAME");
    NotLedBy(u, "CREATE");
    NotLedBy(u, "INSERT");
  }

  lemma NotLedBy(u: string, word: string)
    requires u != "" && word != "" && Upper(u[0]) != word[0]
    ensures !Leads(u, word)
  {
  }

  lemma TwoLines(u: string, w: string)
    requires IsText(u) && IsText(w) && Leads(u, "UPDATE") && w != "" && !IsSpace(w[|w| - 1])
    ensures var v := u + " \n" + w; IsText(v) && Leads(v, "UPDATE") && v != "" && !IsSpace(v[|v| - 1])
  {
    var v := u + " \n" + w;
    assert v == u + (" \n" + w) && v[|v| - 1] == w[|w| - 1];
    LeadsStays(u, " \n" + w, "UPDATE");
  }

  /**
   Such an input: an UPDATE without a condition and a comment left open behind it is blocked; with a
   next line that the pattern takes for a condition it is a scoped UPDATE, and may run by itself.
   */
  lemma OpenCommentUnblocks(u: string, w: string, p: Patterns)
    requires IsText(u) && IsText(w) && Leads(u, "UPDATE") && !IsSpace(u[|u| - 1]) && w != "" && !IsSpace(w[|w| - 1])
    requires !p.scopedUpdate(u) && p.scopedUpdate(u + " \n" + w)
    ensures DecideSql(u + "--", p, NonProduction).action == Blocked
    ensures DecideSql(u + "--" + ";" + ("\n" + w), p, NonProduction).action == AutoExecute
  {
    TextIsKept(u);
    OpenCommentsMergeStatements(u, w);
    TwoLines(u, w);
    hide Statements, Decide, Leads, IsText, ModeAfter;
    OneUpdate(u, p);
    OneUpdate(u + " \n" + w, p);
  }
}
