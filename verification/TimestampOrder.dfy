/**
 Exactly when the timestamps of an interval of epochs sort as strings.  Two things put them out of
 order: a year that needs one digit more, and the years before -1, whose digits grow into the past.
 */
module TimestampOrder {
  import opened Calendar

  function YearAt(epoch: int): int
  {
    CivilFromDays(epoch / SECONDS_PER_DAY).year
  }

  /** The first second of year `y`. */
  function NewYear(y: int): int
  {
    DayNumber(Date(y, 1, 1)) * SECONDS_PER_DAY
  }

  lemma YearsGrowWithTime(a: int, b: int)
    requires a <= b
    ensures YearAt(a) <= YearAt(b)
  {
    hide CivilFromDays;
    if a / SECONDS_PER_DAY < b / SECONDS_PER_DAY {
      CivilIsMonotone(a / SECONDS_PER_DAY, b / SECONDS_PER_DAY);
    }
  }

  lemma NewYearIs(y: int)
    ensures YearAt(NewYear(y)) == y && YearAt(NewYear(y) - 1) == y - 1
  {
    hide CivilFromDays, DayNumber;
    var n := DayNumber(Date(y, 1, 1));
    CivilOfDayNumber(Date(y, 1, 1));
    CivilSuccessor(n - 1);
    CivilIsDate(n - 1);
    assert NewYear(y) / SECONDS_PER_DAY == n && (NewYear(y) - 1) / SECONDS_PER_DAY == n - 1;
  }

  /** A year that begins between two epochs begins behind the one and not behind the other. */
  lemma NewYearIsBetween(lo: int, hi: int, y: int)
    requires YearAt(lo) < y <= YearAt(hi)
    ensures lo < NewYear(y) <= hi
  {
    hide YearAt, NewYear;
    NewYearIs(y);
    if NewYear(y) <= lo {
      YearsGrowWithTime(NewYear(y), lo);
    }
    if hi < NewYear(y) {
      YearsGrowWithTime(hi, NewYear(y) - 1);
    }
  }

  // ---- The year and the rest ----

  /** The fields with the year left out. */
  function Yearless(epoch: int): seq<int>
  {
    [0] + Fields(epoch)[1..]
  }

  lemma YearlessFits(epoch: int)
    ensures FieldsFit(Yearless(epoch), WIDTHS)
  {
    hide CivilFromDays;
    CivilIsDate(epoch / SECONDS_PER_DAY);
    TimeOfDay(epoch % SECONDS_PER_DAY);
    PowersOfTen();
  }

  function Tail(epoch: int): string
  {
    YearlessFits(epoch);
    Render(Yearless(epoch), WIDTHS, SEPARATORS, 1)
  }

  /** For every epoch the timestamp is its padded year followed by fixed-width fields. */
  lemma YearAndTail(epoch: int)
    ensures FmtDatetime(epoch) == Padded(YearAt(epoch), 4) + ("-" + Tail(epoch))
  {
    hide CivilFromDays, Padded, Fixed, Pow10, Render;
    var f := Yearless(epoch);
    YearlessFits(epoch);
    forall i | 1 <= i < 6
      ensures Padded(f[i], 2) == Fixed(f[i], 2)
    {
      PaddedToWidth(f[i], 2);
    }
    RenderSix(f);
    RenderFirst(f);
    FixedLength(0, 4);
    var rest := "-" + (Fixed(f[1], 2) + ("-" + (Fixed(f[2], 2) + ("T"
            + (Fixed(f[3], 2) + (":" + (Fixed(f[4], 2) + (":" + (Fixed(f[5], 2) + "Z")))))))));
    assert (Fixed(0, 4) + rest)[4..] == rest;
    assert (Fixed(0, 4) + ("-" + Tail(epoch)))[4..] == "-" + Tail(epoch);
  }

  lemma RenderFirst(f: seq<int>)
    requires |f| == 6 && FieldsFit(f, WIDTHS)
    ensures Render(f, WIDTHS, SEPARATORS, 0) == Fixed(f[0], 4) + ("-" + Render(f, WIDTHS, SEPARATORS, 1))
  {
    hide Fixed, Pow10;
  }

  lemma {:induction false} LessFrom(a: seq<int>, b: seq<int>, x: seq<int>, y: seq<int>, i: nat)
    requires |a| == |b| == |x| == |y| && 1 <= i <= |a|
    requires a[1..] == x[1..] && b[1..] == y[1..]
    ensures FieldsLess(a, b, i) <==> FieldsLess(x, y, i)
    decreases |a| - i
  {
    if i < |a| {
      assert a[i] == a[1..][i - 1] == x[i] && b[i] == b[1..][i - 1] == y[i];
      LessFrom(a, b, x, y, i + 1);
    }
  }

  /** Within a year, negative or of any length, the timestamps sort. */
  lemma SameYearSorts(a: int, b: int)
    requires a < b && YearAt(a) == YearAt(b)
    ensures LexLess(FmtDatetime(a), FmtDatetime(b))
  {
    hide CivilFromDays, FmtDatetime, Render, Padded;
    FieldsKeepOrder(a, b);
    LessFrom(Fields(a), Fields(b), Yearless(a), Yearless(b), 1);
    YearlessFits(a);
    YearlessFits(b);
    RenderKeepsOrder(Yearless(a), Yearless(b), WIDTHS, SEPARATORS, 1);
    YearAndTail(a);
    YearAndTail(b);
    LexBehindPrefix("-", Tail(a), Tail(b));
    LexBehindPrefix(Padded(YearAt(a), 4), "-" + Tail(a), "-" + Tail(b));
  }

  /** Years of one length decide by their own order. */
  lemma YearsDecide(a: int, b: int)
    requires |Padded(YearAt(a), 4)| == |Padded(YearAt(b), 4)|
    requires LexLess(Padded(YearAt(a), 4), Padded(YearAt(b), 4))
    ensures LexLess(FmtDatetime(a), FmtDatetime(b))
  {
    hide FmtDatetime, Padded, YearAt, Tail, LexLess;
    YearAndTail(a);
    YearAndTail(b);
    LexDecidedByPrefix(Padded(YearAt(a), 4), Padded(YearAt(b), 4), "-" + Tail(a), "-" + Tail(b));
  }

  /** So does a difference in the first character, or in the second behind equal ones. */
  lemma FirstCharacters(a: string, b: string, x: string, y: string)
    requires |a| > 0 && |b| > 0
    requires a[0] < b[0] || (a[0] == b[0] && |a| > 1 && |b| > 1 && a[1] < b[1])
    ensures LexLess(a + x, b + y)
  {
    assert (a + x)[0] == a[0] && (b + y)[0] == b[0];
    if a[0] == b[0] {
      assert (a + x)[1..][0] == a[1] && (b + y)[1..][0] == b[1];
    }
  }

  lemma FirstCharactersDecide(a: int, b: int)
    requires var p, q := Padded(YearAt(a), 4), Padded(YearAt(b), 4);
             && |p| > 0 && |q| > 0
             && (p[0] < q[0] || (p[0] == q[0] && |p| > 1 && |q| > 1 && p[1] < q[1]))
    ensures LexLess(FmtDatetime(a), FmtDatetime(b))
  {
    hide FmtDatetime, Padded, YearAt, Tail, LexLess;
    YearAndTail(a);
    YearAndTail(b);
    FirstCharacters(Padded(YearAt(a), 4), Padded(YearAt(b), 4), "-" + Tail(a), "-" + Tail(b));
  }

  // ---- How many digits ----

  lemma Pow10Grows(a: nat, b: nat)
    requires a < b
    ensures 10 * Pow10(a) <= Pow10(b) && Pow10(a) >= 1
  {
  }

  lemma {:induction false} DigitsBracket(n: nat)
    requires n >= 1
    ensures |Decimal(n)| >= 1 && Pow10(|Decimal(n)| - 1) <= n < Pow10(|Decimal(n)|)
  {
    if n < 10 {
      assert Pow10(0) == 1 && Pow10(1) == 10;
    } else {
      DigitsBracket(n / 10);
    }
  }

  lemma {:induction false} PowerDigits(k: nat)
    ensures |Decimal(Pow10(k))| == k + 1 && Decimal(Pow10(k))[0] == '1'
    ensures k >= 1 ==> |Decimal(Pow10(k) - 1)| == k && Decimal(Pow10(k) - 1)[0] == '9'
  {
    if k == 1 {
      PowerDigits(0);
      assert Pow10(1) == 10 && Decimal(9) == "9" && Decimal(10) == Decimal(1) + [Digit(0)];
    } else if k > 1 {
      PowerDigits(k - 1);
      Pow10Grows(0, k);
      Pow10Grows(0, k - 1);
      assert Pow10(k) == 10 * Pow10(k - 1);
      assert (Pow10(k) - 1) / 10 == Pow10(k - 1) - 1;
      assert Decimal(Pow10(k) - 1) == Decimal(Pow10(k - 1) - 1) + [Digit((Pow10(k) - 1) % 10)];
    }
  }

  function Max(a: nat, b: nat): nat
  {
    if a < b then b else a
  }

  lemma FitsItsWidth(n: nat, least: nat)
    requires least > 0
    ensures n < Pow10(Max(least, |Decimal(n)|))
  {
    hide Decimal, Pow10;
    if n >= 1 {
      DigitsBracket(n);
      if |Decimal(n)| < least {
        Pow10Grows(|Decimal(n)|, least);
      }
    } else {
      PowerIsPositive(Max(least, |Decimal(n)|));
    }
  }

  lemma PowerIsPositive(k: nat)
    ensures Pow10(k) > 0
  {
  }

  /** The digits of a padded year. */
  lemma PaddedYear(y: int)
    ensures y >= 0 ==> Padded(y, 4) == Fixed(y, Max(4, |Decimal(y)|)) && y < Pow10(Max(4, |Decimal(y)|))
    ensures y < 0 ==> Padded(y, 4) == "-" + Fixed(-y, Max(3, |Decimal(-y)|)) && -y < Pow10(Max(3, |Decimal(-y)|))
  {
    hide Decimal, Fixed, Pow10;
    var n: nat := if y < 0 then -y else y;
    var least := if y < 0 then 3 else 4;
    var width := Max(least, |Decimal(n)|);
    FitsItsWidth(n, least);
    PaddedIsFixed(n, width);
    if |Decimal(n)| >= least {
      assert Zeros(0) == "" && Zeros(0) + Decimal(n) == Decimal(n);
    }
    assert "" + Zeros(width - |Decimal(n)|) == Zeros(width - |Decimal(n)|);
  }

  // ---- Where the order turns ----

  ghost predicate IsPower(n: int, least: nat)
  {
    exists k: nat | least <= k :: n == Pow10(k)
  }

  /** Between year `y` and the next the strings turn round. */
  ghost predicate Turns(y: int)
  {
    (y <= -2 && !IsPower(-y, 3)) || IsPower(y + 1, 4)
  }

  /** Two numbers of which the second is not behind a power of ten are of one length. */
  lemma SameDigits(m: nat, n: nat, least: nat)
    requires 1 <= m < n && least >= 1
    requires forall k: nat | least <= k :: !(m < Pow10(k) <= n)
    ensures Max(least, |Decimal(m)|) == Max(least, |Decimal(n)|)
  {
    DigitsBracket(m);
    DigitsBracket(n);
    var i, j := |Decimal(m)|, |Decimal(n)|;
    if i < j - 1 { Pow10Grows(i, j - 1); }
    assert i < j ==> m < Pow10(j - 1) <= n;
    if j < i - 1 { Pow10Grows(j, i - 1); }
  }

  lemma NegativeTurn(y: int)
    requires y <= -2 && !IsPower(-y, 3)
    ensures LexLess(Padded(y + 1, 4), Padded(y, 4)) && |Padded(y + 1, 4)| == |Padded(y, 4)|
  {
    var m, n := -(y + 1), -y;
    assert forall k: nat | 3 <= k :: !(m < Pow10(k) <= n);
    SameDigits(m, n, 3);
    PaddedYear(y);
    PaddedYear(y + 1);
    var w := Max(3, |Decimal(n)|);
    FixedKeepsOrder(m, n, w);
    FixedLength(m, w);
    FixedLength(n, w);
    LexBehindPrefix("-", Fixed(m, w), Fixed(n, w));
  }

  /** Where it turns, the new year's first second sorts before the second that precedes it. */
  lemma TurnReverses(y: int)
    requires Turns(y)
    ensures LexLess(FmtDatetime(NewYear(y + 1)), FmtDatetime(NewYear(y + 1) - 1))
  {
    hide FmtDatetime, YearAt, NewYear, LexLess;
    NewYearIs(y + 1);
    var e := NewYear(y + 1);
    if IsPower(y + 1, 4) {
      var k: nat :| 4 <= k && y + 1 == Pow10(k);
      PowerDigits(k);
      Pow10Grows(0, k);
      PaddedPower(k);
      FirstCharactersDecide(e, e - 1);
    } else {
      NegativeTurn(y);
      YearsDecide(e, e - 1);
    }
  }

  /** A long year is printed as it is. */
  lemma PaddedPower(k: nat)
    requires k >= 3
    ensures Padded(0 - Pow10(k), 4) == "-" + Decimal(Pow10(k)) && Padded(1 - Pow10(k), 4) == "-" + Decimal(Pow10(k) - 1)
    ensures k >= 4 ==> Padded(Pow10(k), 4) == Decimal(Pow10(k)) && Padded(Pow10(k) - 1, 4) == Decimal(Pow10(k) - 1)
  {
    hide Decimal;
    PowerDigits(k);
    Pow10Grows(0, k);
    hide Pow10;
    assert "-" + "" == "-";
  }

  /** Years of one side and one length sort. */
  lemma StraightYears(a: int, b: int)
    requires YearAt(a) < YearAt(b) && 0 <= YearAt(a)
    requires forall y | YearAt(a) <= y < YearAt(b) :: !Turns(y)
    ensures LexLess(FmtDatetime(a), FmtDatetime(b))
  {
    hide FmtDatetime, YearAt, LexLess;
    var m, n := YearAt(a), YearAt(b);
    forall k: nat | 4 <= k
      ensures !(m < Pow10(k) <= n)
    {
      var y := Pow10(k) - 1;
      assert Turns(y) by { assert IsPower(y + 1, 4); }
    }
    PaddedYear(m);
    PaddedYear(n);
    if m >= 1 {
      SameDigits(m, n, 4);
    } else {
      OneToFour(n);
    }
    var w := Max(4, |Decimal(n)|);
    FixedKeepsOrder(m, n, w);
    FixedLength(m, w);
    FixedLength(n, w);
    YearsDecide(a, b);
  }

  lemma OneToFour(n: nat)
    requires n >= 1 && forall k: nat | 4 <= k :: !(0 < Pow10(k) <= n)
    ensures Max(4, |Decimal(n)|) == 4 == Max(4, |Decimal(0)|)
  {
    DigitsBracket(n);
    if |Decimal(n)| > 4 {
      assert 0 < Pow10(|Decimal(n)| - 1) <= n;
    }
  }

  lemma FixedIsDigits(n: nat, width: nat)
    requires width > 0
    ensures |Fixed(n, width)| == width && '0' <= Fixed(n, width)[0] <= '9'
  {
    FixedLength(n, width);
    if width > 1 {
      FixedIsDigits(n / 10, width - 1);
    }
  }

  /** Where no year between them turns, the earlier of two epochs has the earlier timestamp. */
  lemma StraightSorts(a: int, b: int)
    requires a < b
    requires forall y | YearAt(a) <= y < YearAt(b) :: !Turns(y)
    ensures LexLess(FmtDatetime(a), FmtDatetime(b))
  {
    hide FmtDatetime, YearAt, LexLess, Padded;
    var y, z := YearAt(a), YearAt(b);
    YearsGrowWithTime(a, b);
    if y == z {
      SameYearSorts(a, b);
    } else if y >= 0 {
      StraightYears(a, b);
    } else if y == -1 && z >= 0 {
      PaddedYear(y);
      PaddedYear(z);
      FixedIsDigits(z, Max(4, |Decimal(z)|));
      FirstCharactersDecide(a, b);
    } else {
      assert !Turns(y);
      var k: nat :| 3 <= k && -y == Pow10(k);
      OnlyOneStep(y, z, k);
      PowerDigits(k);
      PaddedPower(k);
      FirstCharactersDecide(a, b);
    }
  }

  /** Behind minus a power of ten the next year turns. */
  lemma OnlyOneStep(y: int, z: int, k: nat)
    requires y < z && k >= 3 && -y == Pow10(k)
    requires forall x | y <= x < z :: !Turns(x)
    ensures z == y + 1
  {
    Pow10Grows(2, k);
    PowersOfTen();
    if z > y + 1 {
      assert !Turns(y + 1);
      var j: nat :| 3 <= j && -(y + 1) == Pow10(j);
      if j < k { Pow10Grows(j, k); } else if k < j { Pow10Grows(k, j); }
      assert false;
    }
  }

  /**
   The timestamps of an interval sort as its epochs do exactly when no year but the last of it turns:
   it stays within the years of one length from 0 on, with the year -1 before those of four digits, or
   within one year, or within two whose earlier one is minus a power of ten of four digits or more.
   */
  lemma TimestampsSortExactly(lo: int, hi: int)
    requires lo <= hi
    ensures (forall a, b | lo <= a <= hi && lo <= b <= hi :: LexLess(FmtDatetime(a), FmtDatetime(b)) <==> a < b) <==>
            (forall y | YearAt(lo) <= y < YearAt(hi) :: !Turns(y))
  {
    hide FmtDatetime, YearAt, NewYear, LexLess, Turns;
    if forall y | YearAt(lo) <= y < YearAt(hi) :: !Turns(y) {
      forall a, b | lo <= a <= hi && lo <= b <= hi
        ensures LexLess(FmtDatetime(a), FmtDatetime(b)) <==> a < b
      {
        YearsGrowWithTime(lo, a);
        YearsGrowWithTime(lo, b);
        YearsGrowWithTime(a, hi);
        YearsGrowWithTime(b, hi);
        if a < b {
          StraightSorts(a, b);
        } else if b < a {
          StraightSorts(b, a);
          LexAsymmetric(FmtDatetime(b), FmtDatetime(a));
        } else {
          LexIrreflexive(FmtDatetime(a));
        }
      }
    } else {
      var y :| YearAt(lo) <= y < YearAt(hi) && Turns(y);
      NewYearIsBetween(lo, hi, y + 1);
      TurnReverses(y);
      var e := NewYear(y + 1);
      assert lo <= e <= hi && lo <= e - 1 <= hi;
    }
  }

  /** The years 0 to 9999 are the longest such interval that begins with the year 0. */
  lemma FourDigitsDoNotTurn(y: int)
    requires -1 <= y < 9999
    ensures !Turns(y) && Turns(9999)
  {
    PowersOfTen();
    assert 9999 + 1 == Pow10(4);
    forall k: nat | 4 <= k
      ensures y + 1 != Pow10(k)
    {
      if 4 < k { Pow10Grows(4, k); }
    }
  }
}
