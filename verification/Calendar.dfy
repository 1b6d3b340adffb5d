/**
 The UTC timestamp of the realtime log: days-to-civil conversion over all integers and its
 `YYYY-MM-DDTHH:MM:SSZ` rendering.  The reference is the Gregorian calendar itself: the rule for
 leap years, the length of each month and the successor of a date.
 */
module Calendar {

  datatype Date = Date(year: int, month: int, day: int)

  // ---- The program ----

  /** Rust's `/` on signed integers: truncation toward zero (Dafny's is Euclidean). */
  function Quot(a: int, b: int): int
    requires b > 0
  {
    if a >= 0 then a / b else -((-a) / b)
  }

  function CivilFromDays(days: int): Date
  {
    var z := days + 719_468;
    var era := Quot(if z >= 0 then z else z - 146_096, 146_097);
    CivilOfEra(era, z - era * 146_097)
  }

  /** The rest of the same computation: day `doe` of a 400-year era. */
  function CivilOfEra(era: int, doe: int): Date
  {
    var yoe := Quot(doe - Quot(doe, 1460) + Quot(doe, 36_524) - Quot(doe, 146_096), 365);
    var y := yoe + era * 400;
    var doy := doe - (365 * yoe + Quot(yoe, 4) - Quot(yoe, 100));
    var mp := Quot(5 * doy + 2, 153);
    var d := doy - Quot(153 * mp + 2, 5) + 1;
    var m := if mp < 10 then mp + 3 else mp - 9;
    Date(if m <= 2 then y + 1 else y, m, d)
  }

  // ---- The reference calendar ----

  predicate IsLeap(y: int)
  {
    y % 4 == 0 && (y % 100 != 0 || y % 400 == 0)
  }

  function DaysInMonth(y: int, m: int): int
  {
    if m == 2 then (if IsLeap(y) then 29 else 28)
    else if m == 4 || m == 6 || m == 9 || m == 11 then 30
    else 31
  }

  predicate IsDate(d: Date)
  {
    1 <= d.month <= 12 && 1 <= d.day <= DaysInMonth(d.year, d.month)
  }

  function NextDay(d: Date): Date
  {
    if d.day < DaysInMonth(d.year, d.month) then Date(d.year, d.month, d.day + 1)
    else if d.month < 12 then Date(d.year, d.month + 1, 1)
    else Date(d.year + 1, 1, 1)
  }

  predicate Before(a: Date, b: Date)
  {
    a.year < b.year
    || (a.year == b.year && (a.month < b.month || (a.month == b.month && a.day < b.day)))
  }

  // ---- Arithmetic of one 400-year era, whose years start in March ----

  /** First day of March-based year `y` of an era. */
  function YearStart(y: int): int
  {
    365 * y + y / 4 - y / 100
  }

  function YearOfEra(doe: int): int
  {
    (doe - doe / 1460 + doe / 36_524 - doe / 146_096) / 365
  }

  /** Day `k` of year `100c + 4u + v`: the four divisions of the algorithm recover the year. */
  lemma YearOfEraFromParts(c: int, u: int, v: int, k: int)
    requires 0 <= c <= 3 && 0 <= u <= 24 && 0 <= v <= 3 && 0 <= k <= 365
    requires k == 365 ==> v == 3 && (u == 24 ==> c == 3)
    ensures var doe := 36_524 * c + 1461 * u + 365 * v + k;
            YearOfEra(doe) == 100 * c + 4 * u + v && YearStart(100 * c + 4 * u + v) == doe - k
  {
    var doe := 36_524 * c + 1461 * u + 365 * v + k;
    var t := 24 * c + u + 365 * v + k;
    var carry := if t >= 1460 then 1 else 0;
    assert doe / 1460 == 25 * c + u + carry;
    var last := if c == 3 && u == 24 && v == 3 && k == 365 then 1 else 0;
    assert doe / 146_096 == last;
    assert doe / 36_524 == c + last;
    assert doe - doe / 1460 + doe / 36_524 - doe / 146_096
        == 365 * (100 * c + 4 * u + v) + (k - carry);
    assert 0 <= k - carry < 365;
    assert (365 * (100 * c + 4 * u + v) + (k - carry)) / 365 == 100 * c + 4 * u + v;
    assert (100 * c + 4 * u + v) / 4 == 25 * c + u;
    assert (100 * c + 4 * u + v) / 100 == c;
  }

  /** Every day of an era is day `k` of some year `100c + 4u + v`. */
  lemma Parts(doe: int) returns (c: int, u: int, v: int, k: int)
    requires 0 <= doe <= 146_096
    ensures 0 <= c <= 3 && 0 <= u <= 24 && 0 <= v <= 3 && 0 <= k <= 365
    ensures k == 365 ==> v == 3 && (u == 24 ==> c == 3)
    ensures doe == 36_524 * c + 1461 * u + 365 * v + k
  {
    c := if doe == 146_096 then 3 else doe / 36_524;
    var r := doe - 36_524 * c;
    u := if r == 36_524 then 24 else r / 1461;
    var s := r - 1461 * u;
    v := if s == 1460 then 3 else s / 365;
    k := s - 365 * v;
  }

  predicate MarchYearIsLong(yoe: int)
  {
    yoe % 4 == 3 && (yoe % 100 != 99 || yoe == 399)
  }

  /** The last day of a March-based year, counted from 0. */
  function LastDay(yoe: int): nat
  {
    if MarchYearIsLong(yoe) then 365 else 364
  }

  /** The year found for a day of the era is the one that contains it. */
  lemma YearOfEraBrackets(doe: int)
    requires 0 <= doe <= 146_096
    ensures 0 <= YearOfEra(doe) <= 399
    ensures 0 <= doe - YearStart(YearOfEra(doe)) <= LastDay(YearOfEra(doe))
  {
    hide YearOfEra, YearStart;
    var c, u, v, k := Parts(doe);
    YearOfEraFromParts(c, u, v, k);
    DivisionIsUnique(100 * c + 4 * u + v, 4, 25 * c + u, v);
    DivisionIsUnique(100 * c + 4 * u + v, 100, c, 4 * u + v);
  }

  /** Conversely a day inside a year is assigned to that year. */
  lemma YearOfEraInside(yoe: int, doy: int)
    requires 0 <= yoe <= 399
    requires 0 <= doy <= LastDay(yoe)
    ensures 0 <= YearStart(yoe) + doy <= 146_096
    ensures YearOfEra(YearStart(yoe) + doy) == yoe
  {
    var c := yoe / 100;
    var u := (yoe % 100) / 4;
    var v := yoe % 4;
    assert yoe == 100 * c + 4 * u + v;
    YearOfEraFromParts(c, u, v, doy);
  }

  // ---- Months counted from March ----

  function MonthStart(mp: int): int
  {
    (153 * mp + 2) / 5
  }

  /** The month formula splits the March-based day of year into month and day. */
  lemma MonthBrackets(doy: int)
    requires 0 <= doy <= 365
    ensures var mp := (5 * doy + 2) / 153; 0 <= mp <= 11 && MonthStart(mp) <= doy < MonthStart(mp + 1)
  {
  }

  lemma MonthInside(mp: int, doy: int)
    requires 0 <= mp <= 11 && MonthStart(mp) <= doy < MonthStart(mp + 1)
    ensures (5 * doy + 2) / 153 == mp
  {
  }

  /** The date of day `doy` of March-based year `y`. */
  function DateOf(y: int, doy: int): Date
  {
    var mp := (5 * doy + 2) / 153;
    var m := if mp < 10 then mp + 3 else mp - 9;
    Date(if m <= 2 then y + 1 else y, m, doy - MonthStart(mp) + 1)
  }

  /** The two branches of the era computation are one floor division. */
  lemma EraIsFloor(z: int, era: int, doe: int)
    requires z == 146_097 * era + doe && 0 <= doe <= 146_096
    ensures Quot(if z >= 0 then z else z - 146_096, 146_097) == era
  {
    if z < 0 {
      assert -(z - 146_096) == 146_097 * (-era) + (146_096 - doe);
    }
  }

  /** The truncating divisions of the program agree with the floor divisions used here. */
  lemma CivilOfEraIsDateOf(era: int, doe: int)
    requires 0 <= doe <= 146_096
    ensures CivilOfEra(era, doe) == DateOf(400 * era + YearOfEra(doe), doe - YearStart(YearOfEra(doe)))
  {
    YearOfEraBrackets(doe);
    MonthBrackets(doe - YearStart(YearOfEra(doe)));
    assert Quot(doe - Quot(doe, 1460) + Quot(doe, 36_524) - Quot(doe, 146_096), 365) == YearOfEra(doe);
  }

  lemma CivilByEra(days: int, era: int, doe: int)
    requires 0 <= doe <= 146_096 && days + 719_468 == 146_097 * era + doe
    ensures CivilFromDays(days) == CivilOfEra(era, doe)
  {
    EraIsFloor(days + 719_468, era, doe);
  }

  lemma DivisionIsUnique(a: int, b: int, q: int, r: int)
    requires b == 4 || b == 100 || b == 400
    requires a == b * q + r && 0 <= r < b
    ensures a / b == q && a % b == r
  {
    if b == 4 {
    } else if b == 100 {
    } else {
    }
  }

  lemma LeapByEra(era: int, yoe: int)
    requires 0 <= yoe <= 399
    ensures IsLeap(400 * era + yoe + 1) <==> MarchYearIsLong(yoe)
  {
    var y := 400 * era + yoe + 1;
    DivisionIsUnique(y, 4, 100 * era + (yoe + 1) / 4, (yoe + 1) % 4);
    DivisionIsUnique(y, 100, 4 * era + (yoe + 1) / 100, (yoe + 1) % 100);
    DivisionIsUnique(y, 400, era + (yoe + 1) / 400, (yoe + 1) % 400);
  }

  /** The month formula gives every month its calendar length, up to the end of February. */
  lemma MonthLengths(y: int, mp: int)
    requires 0 <= mp <= 11
    ensures var m := if mp < 10 then mp + 3 else mp - 9;
            var length := DaysInMonth(if m <= 2 then y + 1 else y, m);
            if mp == 11 then length == (if IsLeap(y + 1) then 29 else 28) && MonthStart(mp) == 337
            else length == MonthStart(mp + 1) - MonthStart(mp)
  {
    hide IsLeap;
  }

  /** Inside a March-based year the formula produces dates, one after the other. */
  lemma DateOfSteps(y: int, doy: int)
    requires 0 <= doy <= if IsLeap(y + 1) then 365 else 364
    ensures IsDate(DateOf(y, doy))
    ensures doy < (if IsLeap(y + 1) then 365 else 364) ==> DateOf(y, doy + 1) == NextDay(DateOf(y, doy))
    ensures doy == (if IsLeap(y + 1) then 365 else 364) ==> DateOf(y + 1, 0) == NextDay(DateOf(y, doy))
  {
    hide IsLeap, DaysInMonth, MonthStart;
    MonthBrackets(doy);
    var mp := (5 * doy + 2) / 153;
    MonthLengths(y, mp);
    MonthBrackets(0);
    FirstOfMonth();
    if mp < 11 {
      if doy + 1 < MonthStart(mp + 1) {
        MonthInside(mp, doy + 1);
      } else {
        MonthGrows(mp + 1);
        MonthInside(mp + 1, doy + 1);
      }
    } else if doy < 365 {
      MonthInside(mp, doy + 1);
    }
  }

  lemma MonthGrows(mp: int)
    requires 0 <= mp <= 11
    ensures MonthStart(mp) < MonthStart(mp + 1)
  {
  }

  lemma FirstOfMonth()
    ensures MonthStart(0) == 0 && MonthStart(12) == 367
  {
  }

  lemma EraOf(z: int) returns (era: int, doe: int)
    ensures 0 <= doe <= 146_096 && z == 146_097 * era + doe
  {
    era, doe := z / 146_097, z % 146_097;
  }

  /** Where day `days` lies: era, March-based year of the era, day of that year. */
  lemma Locate(days: int) returns (era: int, yoe: int, doy: int)
    ensures 0 <= yoe <= 399 && 0 <= doy <= LastDay(yoe)
    ensures days + 719_468 == 146_097 * era + YearStart(yoe) + doy
    ensures CivilFromDays(days) == DateOf(400 * era + yoe, doy)
  {
    hide *;
    var doe;
    era, doe := EraOf(days + 719_468);
    YearOfEraBrackets(doe);
    yoe, doy := YearOfEra(doe), doe - YearStart(YearOfEra(doe));
    CivilByEra(days, era, doe);
    CivilOfEraIsDateOf(era, doe);
  }

  /** The date of a day given by its place. */
  lemma CivilAt(days: int, era: int, yoe: int, doy: int)
    requires 0 <= yoe <= 399 && 0 <= doy <= LastDay(yoe)
    requires days + 719_468 == 146_097 * era + YearStart(yoe) + doy
    ensures CivilFromDays(days) == DateOf(400 * era + yoe, doy)
  {
    hide *;
    YearOfEraInside(yoe, doy);
    CivilByEra(days, era, YearStart(yoe) + doy);
    CivilOfEraIsDateOf(era, YearStart(yoe) + doy);
  }

  lemma YearStartStep(yoe: int)
    requires 0 <= yoe <= 399
    ensures (if yoe < 399 then YearStart(yoe + 1) else 146_097) == YearStart(yoe) + LastDay(yoe) + 1
    ensures YearStart(0) == 0
  {
  }

  // ---- Main results about the conversion ----

  /** Every integer is converted to a real Gregorian date. */
  lemma CivilIsDate(days: int)
    ensures IsDate(CivilFromDays(days))
  {
    var era, yoe, doy := Locate(days);
    LeapByEra(era, yoe);
    DateOfSteps(400 * era + yoe, doy);
  }

  lemma DayAfter(days: int, era: int, yoe: int, doy: int)
    requires 0 <= yoe <= 399 && 0 <= doy <= LastDay(yoe)
    requires days + 719_468 == 146_097 * era + YearStart(yoe) + doy
    ensures CivilFromDays(days + 1)
         == if doy < LastDay(yoe) then DateOf(400 * era + yoe, doy + 1) else DateOf(400 * era + yoe + 1, 0)
  {
    hide *;
    YearStartStep(yoe);
    if doy < LastDay(yoe) {
      CivilAt(days + 1, era, yoe, doy + 1);
    } else if yoe < 399 {
      CivilAt(days + 1, era, yoe + 1, 0);
    } else {
      CivilAt(days + 1, era + 1, 0, 0);
    }
  }

  /** The next integer is converted to the next calendar day. */
  lemma CivilSuccessor(days: int)
    ensures CivilFromDays(days + 1) == NextDay(CivilFromDays(days))
  {
    hide CivilFromDays, DateOf;
    var era, yoe, doy := Locate(days);
    DayAfter(days, era, yoe, doy);
    LeapByEra(era, yoe);
    DateOfSteps(400 * era + yoe, doy);
  }

  /** The epoch: day 0 is 1 January 1970. */
  lemma CivilEpoch()
    ensures CivilFromDays(0) == Date(1970, 1, 1)
  {
  }

  // ---- Counting days, independently of the algorithm ----

  function YearLength(y: int): int
  {
    if IsLeap(y) then 366 else 365
  }

  /** Days between 1 January 1970 and 1 January of `y`: 365 a year plus the leap days between. */
  function DaysBeforeYear(y: int): int
  {
    365 * (y - 1970) + ((y - 1) / 4 - (y - 1) / 100 + (y - 1) / 400) - 477
  }

  function DaysBeforeMonth(y: int, m: int): int
    requires 1 <= m <= 12
  {
    if m == 1 then 0 else DaysBeforeMonth(y, m - 1) + DaysInMonth(y, m - 1)
  }

  /** The number of days from 1 January 1970 to `d`, negative for earlier dates. */
  function DayNumber(d: Date): int
    requires IsDate(d)
  {
    DaysBeforeYear(d.year) + DaysBeforeMonth(d.year, d.month) + d.day - 1
  }

  lemma FloorStep(y: int, b: int)
    requires b == 4 || b == 100 || b == 400
    ensures y / b == (y - 1) / b + if y % b == 0 then 1 else 0
  {
    if b == 4 {
    } else if b == 100 {
    } else {
    }
  }

  lemma CenturiesAreMultiplesOfFour(y: int)
    ensures y % 100 == 0 ==> y % 4 == 0
    ensures y % 400 == 0 ==> y % 100 == 0
  {
  }

  lemma YearsFollow(y: int)
    ensures DaysBeforeYear(y + 1) == DaysBeforeYear(y) + YearLength(y)
  {
    FloorStep(y, 4);
    FloorStep(y, 100);
    FloorStep(y, 400);
    CenturiesAreMultiplesOfFour(y);
  }

  lemma MonthsAddUp(y: int)
    ensures DaysBeforeMonth(y, 12) + 31 == YearLength(y)
  {
    assert DaysBeforeMonth(y, 1) == 0;
    assert DaysBeforeMonth(y, 3) == DaysBeforeMonth(y, 2) + DaysInMonth(y, 2);
    assert DaysBeforeMonth(y, 5) == DaysBeforeMonth(y, 3) + 61;
    assert DaysBeforeMonth(y, 7) == DaysBeforeMonth(y, 5) + 61;
    assert DaysBeforeMonth(y, 9) == DaysBeforeMonth(y, 7) + 62;
    assert DaysBeforeMonth(y, 11) == DaysBeforeMonth(y, 9) + 61;
  }

  lemma DayNumberSuccessor(d: Date)
    requires IsDate(d)
    ensures IsDate(NextDay(d)) && DayNumber(NextDay(d)) == DayNumber(d) + 1
  {
    YearsFollow(d.year);
    MonthsAddUp(d.year);
  }

  lemma {:induction false} YearsGrow(a: int, b: int)
    requires a < b
    ensures DaysBeforeYear(a) + YearLength(a) <= DaysBeforeYear(b)
    decreases b - a
  {
    YearsFollow(a);
    if a + 1 < b {
      YearsGrow(a + 1, b);
    }
  }

  lemma {:induction false} MonthsGrow(y: int, a: int, b: int)
    requires 1 <= a < b <= 12
    ensures DaysBeforeMonth(y, a) + DaysInMonth(y, a) <= DaysBeforeMonth(y, b)
    decreases b - a
  {
    if a + 1 < b {
      MonthsGrow(y, a, b - 1);
    }
  }

  lemma DayInYear(d: Date)
    requires IsDate(d)
    ensures 0 <= DaysBeforeMonth(d.year, d.month) + d.day - 1 < YearLength(d.year)
  {
    MonthsAddUp(d.year);
    if d.month < 12 {
      MonthsGrow(d.year, d.month, 12);
    }
    if d.month > 1 {
      MonthsGrow(d.year, 1, d.month);
    }
  }

  /** Day numbers order dates as the calendar does. */
  lemma DayNumberIsMonotone(a: Date, b: Date)
    requires IsDate(a) && IsDate(b)
    ensures DayNumber(a) < DayNumber(b) <==> Before(a, b)
  {
    DayInYear(a);
    DayInYear(b);
    if a.year < b.year {
      YearsGrow(a.year, b.year);
    } else if b.year < a.year {
      YearsGrow(b.year, a.year);
    } else if a.month < b.month {
      MonthsGrow(a.year, a.month, b.month);
    } else if b.month < a.month {
      MonthsGrow(a.year, b.month, a.month);
    }
  }

  lemma EpochIsDayZero()
    ensures IsDate(Date(1970, 1, 1)) && DayNumber(Date(1970, 1, 1)) == 0
  {
  }

  /** Counting the days of the date found for `days` gives `days` back. */
  lemma {:induction false} DayNumberOfCivil(days: int)
    ensures IsDate(CivilFromDays(days)) && DayNumber(CivilFromDays(days)) == days
    decreases if days < 0 then -days else days
  {
    hide CivilFromDays, IsDate, NextDay, DayNumber;
    CivilIsDate(days);
    if days == 0 {
      CivilEpoch();
      EpochIsDayZero();
    } else if days > 0 {
      DayNumberOfCivil(days - 1);
      CivilSuccessor(days - 1);
      DayNumberSuccessor(CivilFromDays(days - 1));
    } else {
      DayNumberOfCivil(days + 1);
      CivilSuccessor(days);
      DayNumberSuccessor(CivilFromDays(days));
    }
  }

  /** Conversely every date is the date of its day number: the conversion is a bijection. */
  lemma CivilOfDayNumber(d: Date)
    requires IsDate(d)
    ensures CivilFromDays(DayNumber(d)) == d
  {
    var c := CivilFromDays(DayNumber(d));
    DayNumberOfCivil(DayNumber(d));
    DayNumberIsMonotone(c, d);
    DayNumberIsMonotone(d, c);
  }

  /** The conversion keeps order, so earlier days have earlier dates and only they do. */
  lemma CivilIsMonotone(a: int, b: int)
    ensures a < b <==> Before(CivilFromDays(a), CivilFromDays(b))
  {
    DayNumberOfCivil(a);
    DayNumberOfCivil(b);
    DayNumberIsMonotone(CivilFromDays(a), CivilFromDays(b));
  }

  // ---- Rendering ----

  const SECONDS_PER_DAY := 86_400

  function Digit(n: int): char
    requires 0 <= n <= 9
  {
    '0' + n as char
  }

  function Decimal(n: nat): string
  {
    if n < 10 then [Digit(n)] else Decimal(n / 10) + [Digit(n % 10)]
  }

  function Zeros(n: nat): string
  {
    seq(n, _ => '0')
  }

  /** Rust's `{:0w}`: the sign counts toward the width and comes before the zeros. */
  function Padded(n: int, width: nat): string
  {
    var sign := if n < 0 then "-" else "";
    var digits := Decimal(if n < 0 then -n else n);
    var used := |sign| + |digits|;
    sign + (if used < width then Zeros(width - used) else "") + digits
  }

  function FmtDatetime(epoch: int): string
  {
    // `div_euclid` and `rem_euclid` are Dafny's own division and remainder.
    var c := CivilFromDays(epoch / SECONDS_PER_DAY);
    var s := epoch % SECONDS_PER_DAY;
    Padded(c.year, 4) + ("-" + (Padded(c.month, 2) + ("-" + (Padded(c.day, 2) + ("T"
    + (Padded(s / 3600, 2) + (":" + (Padded(s % 3600 / 60, 2) + (":" + (Padded(s % 60, 2) + "Z"))))))))))
  }

  /** Lexicographic order of strings. */
  predicate LexLess(a: string, b: string)
  {
    b != [] && (a == [] || a[0] < b[0] || (a[0] == b[0] && LexLess(a[1..], b[1..])))
  }

  lemma {:induction false} LexIrreflexive(a: string)
    ensures !LexLess(a, a)
  {
    if a != [] {
      LexIrreflexive(a[1..]);
    }
  }

  lemma {:induction false} LexAsymmetric(a: string, b: string)
    requires LexLess(a, b)
    ensures !LexLess(b, a)
  {
    if a != [] && a[0] == b[0] {
      LexAsymmetric(a[1..], b[1..]);
    }
  }

  /** A difference inside two prefixes of equal length decides, whatever follows. */
  lemma {:induction false} LexDecidedByPrefix(a: string, b: string, x: string, y: string)
    requires |a| == |b| && LexLess(a, b)
    ensures LexLess(a + x, b + y)
  {
    if a[0] == b[0] {
      LexDecidedByPrefix(a[1..], b[1..], x, y);
      assert (a + x)[1..] == a[1..] + x;
      assert (b + y)[1..] == b[1..] + y;
    }
  }

  /** Behind a common prefix the rest decides. */
  lemma {:induction false} LexBehindPrefix(p: string, a: string, b: string)
    requires LexLess(a, b)
    ensures LexLess(p + a, p + b)
  {
    if p == [] {
      assert p + a == a;
      assert p + b == b;
    } else {
      LexBehindPrefix(p[1..], a, b);
      assert (p + a)[1..] == p[1..] + a;
      assert (p + b)[1..] == p[1..] + b;
    }
  }

  function Pow10(n: nat): nat
  {
    if n == 0 then 1 else 10 * Pow10(n - 1)
  }

  /** Exactly `width` decimal digits of `n`. */
  function Fixed(n: nat, width: nat): string
  {
    if width == 0 then [] else Fixed(n / 10, width - 1) + [Digit(n % 10)]
  }

  lemma {:induction false} DecimalLength(n: nat, width: nat)
    requires width > 0 && n < Pow10(width)
    ensures 1 <= |Decimal(n)| <= width
  {
    if n >= 10 {
      assert width > 1;
      DecimalLength(n / 10, width - 1);
    }
  }

  lemma {:induction false} PaddedIsFixed(n: nat, width: nat)
    requires width > 0 && n < Pow10(width)
    ensures |Decimal(n)| <= width && Zeros(width - |Decimal(n)|) + Decimal(n) == Fixed(n, width)
  {
    DecimalLength(n, width);
    if n < 10 {
      FixedZero(width - 1);
      assert Fixed(n, width) == Fixed(0, width - 1) + [Digit(n)];
    } else {
      assert width > 1;
      PaddedIsFixed(n / 10, width - 1);
      var pad := Zeros(width - |Decimal(n)|);
      assert pad + Decimal(n) == (pad + Decimal(n / 10)) + [Digit(n % 10)];
    }
  }

  lemma {:induction false} FixedZero(width: nat)
    ensures Fixed(0, width) == Zeros(width)
  {
    if width > 0 {
      FixedZero(width - 1);
    }
  }

  lemma {:induction false} FixedLength(n: nat, width: nat)
    ensures |Fixed(n, width)| == width
  {
    if width > 0 {
      FixedLength(n / 10, width - 1);
    }
  }

  lemma {:induction false} FixedKeepsOrder(a: nat, b: nat, width: nat)
    requires a < b < Pow10(width)
    ensures LexLess(Fixed(a, width), Fixed(b, width))
  {
    FixedLength(a / 10, width - 1);
    FixedLength(b / 10, width - 1);
    if a / 10 < b / 10 {
      FixedKeepsOrder(a / 10, b / 10, width - 1);
      LexDecidedByPrefix(Fixed(a / 10, width - 1), Fixed(b / 10, width - 1), [Digit(a % 10)], [Digit(b % 10)]);
    } else {
      LexBehindPrefix(Fixed(a / 10, width - 1), [Digit(a % 10)], [Digit(b % 10)]);
    }
  }

  /** The six numbers of a timestamp. */
  function Fields(epoch: int): seq<int>
  {
    var c := CivilFromDays(epoch / SECONDS_PER_DAY);
    var s := epoch % SECONDS_PER_DAY;
    [c.year, c.month, c.day, s / 3600, s % 3600 / 60, s % 60]
  }

  const WIDTHS := [4, 2, 2, 2, 2, 2]
  const SEPARATORS := "--T::Z"

  predicate FieldsFit(fields: seq<int>, widths: seq<nat>)
  {
    |fields| == |widths| && forall i | 0 <= i < |fields| :: 0 <= fields[i] < Pow10(widths[i])
  }

  /** Fixed-width fields from number `i` on, each followed by its separator. */
  function Render(fields: seq<int>, widths: seq<nat>, separators: string, i: nat): string
    requires FieldsFit(fields, widths) && |separators| == |fields| && i <= |fields|
    decreases |fields| - i
  {
    if i == |fields| then []
    else Fixed(fields[i], widths[i]) + ([separators[i]] + Render(fields, widths, separators, i + 1))
  }

  /** The fields from number `i` on compare lexicographically. */
  predicate FieldsLess(a: seq<int>, b: seq<int>, i: nat)
    requires |a| == |b| && i <= |a|
    decreases |a| - i
  {
    i < |a| && (a[i] < b[i] || (a[i] == b[i] && FieldsLess(a, b, i + 1)))
  }

  lemma {:induction false} RenderKeepsOrder(a: seq<int>, b: seq<int>, widths: seq<nat>, separators: string, i: nat)
    requires FieldsFit(a, widths) && FieldsFit(b, widths) && |separators| == |a| && i <= |a|
    requires FieldsLess(a, b, i)
    ensures LexLess(Render(a, widths, separators, i), Render(b, widths, separators, i))
    decreases |a| - i
  {
    var x, y := Render(a, widths, separators, i + 1), Render(b, widths, separators, i + 1);
    var sep := [separators[i]];
    if a[i] < b[i] {
      FixedKeepsOrder(a[i], b[i], widths[i]);
      FixedLength(a[i], widths[i]);
      FixedLength(b[i], widths[i]);
      LexDecidedByPrefix(Fixed(a[i], widths[i]), Fixed(b[i], widths[i]), sep + x, sep + y);
    } else {
      RenderKeepsOrder(a, b, widths, separators, i + 1);
      LexBehindPrefix(sep, x, y);
      LexBehindPrefix(Fixed(a[i], widths[i]), sep + x, sep + y);
    }
  }

  /** The seconds of the years 0 to 9999. */
  predicate FourDigitYear(epoch: int)
  {
    -62_167_219_200 <= epoch < 253_402_300_800
  }

  lemma FourDigitYears(epoch: int)
    ensures FourDigitYear(epoch) <==> 0 <= CivilFromDays(epoch / SECONDS_PER_DAY).year <= 9999
  {
    hide CivilFromDays;
    var days := epoch / SECONDS_PER_DAY;
    var first, after := Date(0, 1, 1), Date(10_000, 1, 1);
    assert DayNumber(first) == -719_528 && DayNumber(after) == 2_932_897;
    CivilOfDayNumber(first);
    CivilOfDayNumber(after);
    CivilIsMonotone(days, -719_528);
    CivilIsMonotone(days, 2_932_897);
    CivilIsDate(days);
  }

  lemma TimeOfDay(s: int)
    requires 0 <= s < SECONDS_PER_DAY
    ensures 0 <= s / 3600 < 24 && 0 <= s % 3600 / 60 < 60 && 0 <= s % 60 < 60
  {
  }

  lemma TimeOfDayOrder(s: int, t: int)
    requires 0 <= s < t < SECONDS_PER_DAY
    ensures s / 3600 < t / 3600
         || (s / 3600 == t / 3600
             && (s % 3600 / 60 < t % 3600 / 60 || (s % 3600 / 60 == t % 3600 / 60 && s % 60 < t % 60)))
  {
    HoursOrder(s, t);
    SecondsOfHour(s);
    SecondsOfHour(t);
    if s / 3600 == t / 3600 {
      MinutesOrder(s % 3600, t % 3600);
    }
  }

  lemma HoursOrder(a: int, b: int)
    requires a < b
    ensures a / 3600 < b / 3600 || (a / 3600 == b / 3600 && a % 3600 < b % 3600)
  {
  }

  lemma MinutesOrder(a: int, b: int)
    requires a < b
    ensures a / 60 < b / 60 || (a / 60 == b / 60 && a % 60 < b % 60)
  {
  }

  lemma SecondsOfHour(s: int)
    ensures s % 3600 % 60 == s % 60
  {
    assert s == 60 * (60 * (s / 3600)) + s % 3600;
  }

  lemma PowersOfTen()
    ensures Pow10(2) == 100 && Pow10(4) == 10_000
  {
    assert Pow10(1) == 10;
    assert Pow10(3) == 1000;
  }

  lemma FieldsFitWidths(epoch: int)
    requires FourDigitYear(epoch)
    ensures FieldsFit(Fields(epoch), WIDTHS)
  {
    hide CivilFromDays;
    FourDigitYears(epoch);
    CivilIsDate(epoch / SECONDS_PER_DAY);
    TimeOfDay(epoch % SECONDS_PER_DAY);
    PowersOfTen();
  }

  /** For the years 0 to 9999 a timestamp is six fixed-width fields with their separators. */
  lemma FmtDatetimeIsFixedWidth(epoch: int)
    requires FourDigitYear(epoch)
    ensures FieldsFit(Fields(epoch), WIDTHS)
    ensures FmtDatetime(epoch) == Render(Fields(epoch), WIDTHS, SEPARATORS, 0)
  {
    hide CivilFromDays, Padded, Fixed, Pow10, Render, FourDigitYear;
    var f := Fields(epoch);
    FieldsFitWidths(epoch);
    PaddedToWidth(f[0], 4);
    forall i | 1 <= i < 6
      ensures Padded(f[i], 2) == Fixed(f[i], 2)
    {
      PaddedToWidth(f[i], 2);
    }
    RenderSix(f);
  }

  lemma PaddedToWidth(n: nat, width: nat)
    requires width > 0 && n < Pow10(width)
    ensures Padded(n, width) == Fixed(n, width)
  {
    PaddedIsFixed(n, width);
  }

  lemma RenderSix(f: seq<int>)
    requires |f| == 6 && FieldsFit(f, WIDTHS)
    ensures Render(f, WIDTHS, SEPARATORS, 0)
         == Fixed(f[0], 4) + ("-" + (Fixed(f[1], 2) + ("-" + (Fixed(f[2], 2) + ("T"
            + (Fixed(f[3], 2) + (":" + (Fixed(f[4], 2) + (":" + (Fixed(f[5], 2) + "Z"))))))))))
  {
    hide Fixed, Pow10;
    assert Render(f, WIDTHS, SEPARATORS, 5) == Fixed(f[5], 2) + "Z";
    assert Render(f, WIDTHS, SEPARATORS, 4) == Fixed(f[4], 2) + (":" + Render(f, WIDTHS, SEPARATORS, 5));
    assert Render(f, WIDTHS, SEPARATORS, 3) == Fixed(f[3], 2) + (":" + Render(f, WIDTHS, SEPARATORS, 4));
    assert Render(f, WIDTHS, SEPARATORS, 2) == Fixed(f[2], 2) + ("T" + Render(f, WIDTHS, SEPARATORS, 3));
    assert Render(f, WIDTHS, SEPARATORS, 1) == Fixed(f[1], 2) + ("-" + Render(f, WIDTHS, SEPARATORS, 2));
  }

  lemma FieldsKeepOrder(a: int, b: int)
    requires a < b
    ensures FieldsLess(Fields(a), Fields(b), 0)
  {
    hide CivilFromDays;
    var f, g := Fields(a), Fields(b);
    CivilIsMonotone(a / SECONDS_PER_DAY, b / SECONDS_PER_DAY);
    if a / SECONDS_PER_DAY == b / SECONDS_PER_DAY {
      TimeOfDayOrder(a % SECONDS_PER_DAY, b % SECONDS_PER_DAY);
      assert FieldsLess(f, g, 5) <==> f[5] < g[5];
      assert FieldsLess(f, g, 3);
      assert FieldsLess(f, g, 2);
      assert FieldsLess(f, g, 1);
    } else {
      assert FieldsLess(f, g, 2) <==> f[2] < g[2] || (f[2] == g[2] && FieldsLess(f, g, 3));
    }
  }

  lemma FmtDatetimeKeepsOrder(a: int, b: int)
    requires FourDigitYear(a) && FourDigitYear(b) && a < b
    ensures LexLess(FmtDatetime(a), FmtDatetime(b))
  {
    hide FmtDatetime, Fields;
    FmtDatetimeIsFixedWidth(a);
    FmtDatetimeIsFixedWidth(b);
    FieldsKeepOrder(a, b);
    RenderKeepsOrder(Fields(a), Fields(b), WIDTHS, SEPARATORS, 0);
  }

  /** Timestamps of the years 0 to 9999 sort as strings exactly as their instants do. */
  lemma FmtDatetimeSorts(a: int, b: int)
    requires FourDigitYear(a) && FourDigitYear(b)
    ensures LexLess(FmtDatetime(a), FmtDatetime(b)) <==> a < b
  {
    hide FmtDatetime;
    if a < b {
      FmtDatetimeKeepsOrder(a, b);
    } else if b < a {
      FmtDatetimeKeepsOrder(b, a);
      LexAsymmetric(FmtDatetime(b), FmtDatetime(a));
    } else {
      LexIrreflexive(FmtDatetime(a));
    }
  }

  /** The first second of the year 10000 sorts before the second that precedes it. */
  lemma FmtDatetimeStopsSorting()
    ensures LexLess(FmtDatetime(253_402_300_800), FmtDatetime(253_402_300_799))
  {
    hide CivilFromDays;
    CivilOfDayNumber(Date(10_000, 1, 1));
    assert CivilFromDays(2_932_897) == Date(10_000, 1, 1);
    CivilOfDayNumber(Date(9999, 12, 31));
    assert CivilFromDays(2_932_896) == Date(9999, 12, 31);
    assert Decimal(10) == "10" && Decimal(100) == "100" && Decimal(1000) == "1000";
    assert Decimal(10_000) == "10000" == Padded(10_000, 4);
    assert Decimal(99) == "99" && Decimal(999) == "999";
    assert Decimal(9999) == "9999" == Padded(9999, 4);
    assert FmtDatetime(253_402_300_800)[0] == '1' && FmtDatetime(253_402_300_799)[0] == '9';
  }
}
