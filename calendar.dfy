/** The proleptic Gregorian calendar the source relies on through JavaScript's
    Date: leap years, month lengths, a day ordinal for 'YYYY-MM-DD' dates, and
    calendar-month arithmetic.  The ordinal counts days from 0001-01-01. */
module Calendar {
  import opened Ledger

  predicate IsLeap(y: int)
  {
    y % 4 == 0 && (y % 100 != 0 || y % 400 == 0)
  }

  function DaysInYear(y: int): int
  {
    if IsLeap(y) then 366 else 365
  }

  /** Length of month `m` (1..12) of year `y`. */
  function DaysInMonth(y: int, m: int): (r: int)
    requires 1 <= m <= 12
    ensures 28 <= r <= 31
  {
    if m == 2 then (if IsLeap(y) then 29 else 28)
    else if m == 4 || m == 6 || m == 9 || m == 11 then 30
    else 31
  }

  /** A date that names a real calendar day. */
  predicate ValidDate(d: Date)
  {
    1 <= d.month <= 12 && 1 <= d.day <= DaysInMonth(d.year, d.month)
  }

  /** Days in the years before `y`. */
  function DaysBeforeYear(y: int): int
  {
    var x := y - 1;
    365 * x + x / 4 - x / 100 + x / 400
  }

  /** Days in the months of year `y` before month `m` (1..13). */
  function DaysBeforeMonth(y: int, m: int): int
    requires 1 <= m <= 13
  {
    if m == 1 then 0 else DaysBeforeMonth(y, m - 1) + DaysInMonth(y, m - 1)
  }

  /** Stepping y - 1 to y moves y / 4 exactly when y is a multiple of 4;
      likewise for 100 and 400. */
  lemma DivStep4(y: int)
    ensures y / 4 - (y - 1) / 4 == if y % 4 == 0 then 1 else 0
  {
  }

  lemma DivStep100(y: int)
    ensures y / 100 - (y - 1) / 100 == if y % 100 == 0 then 1 else 0
  {
  }

  lemma DivStep400(y: int)
    ensures y / 400 - (y - 1) / 400 == if y % 400 == 0 then 1 else 0
  {
  }

  /** A multiple of 400 is a multiple of 100, and one of 100 a multiple of 4. */
  lemma MultipleOf400(y: int)
    requires y % 400 == 0
    ensures y % 100 == 0
  {
    var k := y / 400;
    assert y == 400 * k;
    var m := 4 * k;
    assert y == 100 * m;
  }

  lemma MultipleOf100(y: int)
    requires y % 100 == 0
    ensures y % 4 == 0
  {
    var k := y / 100;
    assert y == 100 * k;
    var m := 25 * k;
    assert y == 4 * m;
  }

  /** A year contributes exactly its own length to the ordinal. */
  lemma YearStep(y: int)
    ensures DaysBeforeYear(y + 1) == DaysBeforeYear(y) + DaysInYear(y)
  {
    DivStep4(y);
    DivStep100(y);
    DivStep400(y);
    if y % 400 == 0 {
      MultipleOf400(y);
    }
    if y % 100 == 0 {
      MultipleOf100(y);
    }
    assert DaysBeforeYear(y + 1) == 365 * y + y / 4 - y / 100 + y / 400;
    assert DaysBeforeYear(y) == 365 * (y - 1) + (y - 1) / 4 - (y - 1) / 100 + (y - 1) / 400;
  }

  /** The twelve months make up the year. */
  lemma MonthsMakeYear(y: int)
    ensures DaysBeforeMonth(y, 13) == DaysInYear(y)
  {
    var feb := DaysInMonth(y, 2);
    assert DaysBeforeMonth(y, 2) == 31;
    assert DaysBeforeMonth(y, 3) == 31 + feb;
    assert DaysBeforeMonth(y, 4) == 62 + feb;
    assert DaysBeforeMonth(y, 5) == 92 + feb;
    assert DaysBeforeMonth(y, 6) == 123 + feb;
    assert DaysBeforeMonth(y, 7) == 153 + feb;
    assert DaysBeforeMonth(y, 8) == 184 + feb;
    assert DaysBeforeMonth(y, 9) == 215 + feb;
    assert DaysBeforeMonth(y, 10) == 245 + feb;
    assert DaysBeforeMonth(y, 11) == 276 + feb;
    assert DaysBeforeMonth(y, 12) == 306 + feb;
    assert DaysBeforeMonth(y, 13) == 337 + feb;
  }

  /** Calendar months numbered consecutively: index 12*y + (m - 1). */
  datatype YearMonth = YearMonth(year: int, month: int)

  predicate ValidMonth(ym: YearMonth) { 1 <= ym.month <= 12 }

  function MonthIndex(ym: YearMonth): int { 12 * ym.year + (ym.month - 1) }

  function MonthOfIndex(k: int): (ym: YearMonth)
    ensures ValidMonth(ym) && MonthIndex(ym) == k
  {
    YearMonth(k / 12, k % 12 + 1)
  }

  lemma MonthIndexInjective(a: YearMonth, b: YearMonth)
    requires ValidMonth(a) && ValidMonth(b)
    ensures MonthIndex(a) == MonthIndex(b) <==> a == b
  {
  }

  /** The calendar month `delta` months away from `ym` (JavaScript's
      `new Date(y, m + delta, 1)`). */
  function ShiftMonth(ym: YearMonth, delta: int): (r: YearMonth)
    ensures ValidMonth(r) && MonthIndex(r) == MonthIndex(ym) + delta
  {
    MonthOfIndex(MonthIndex(ym) + delta)
  }

  /** The month after `ym`. */
  function NextMonth(ym: YearMonth): YearMonth { ShiftMonth(ym, 1) }

  function MonthOf(d: Date): YearMonth { YearMonth(d.year, d.month) }

  function Days(ym: YearMonth): int
    requires ValidMonth(ym)
  {
    DaysInMonth(ym.year, ym.month)
  }

  /** Ordinal of the first day of a month. */
  function FirstDay(ym: YearMonth): int
    requires ValidMonth(ym)
  {
    DaysBeforeYear(ym.year) + DaysBeforeMonth(ym.year, ym.month)
  }

  /** Ordinal of the last day of a month (JavaScript's `new Date(y, m + 1, 0)`). */
  function LastDay(ym: YearMonth): int
    requires ValidMonth(ym)
  {
    FirstDay(ym) + Days(ym) - 1
  }

  /** Day ordinal of a date; for a valid date, consecutive days get consecutive
      ordinals (see DayNumberInjective and MonthWindow). */
  function DayNumber(d: Date): int
  {
    if 1 <= d.month <= 12 then FirstDay(MonthOf(d)) + d.day - 1
    else DaysBeforeYear(d.year) + d.day - 1
  }

  /** A month ends the day before the next month begins. */
  lemma {:induction false} MonthStep(ym: YearMonth)
    requires ValidMonth(ym)
    ensures FirstDay(NextMonth(ym)) == FirstDay(ym) + Days(ym)
  {
    if ym.month == 12 {
      assert NextMonth(ym) == YearMonth(ym.year + 1, 1);
      YearStep(ym.year);
      MonthsMakeYear(ym.year);
    } else {
      assert NextMonth(ym) == YearMonth(ym.year, ym.month + 1);
    }
  }

  /** Months are laid out in order without overlap. */
  lemma {:induction false} MonthsOrdered(a: YearMonth, b: YearMonth)
    requires ValidMonth(a) && ValidMonth(b) && MonthIndex(a) < MonthIndex(b)
    ensures LastDay(a) < FirstDay(b)
    decreases MonthIndex(b) - MonthIndex(a)
  {
    MonthStep(a);
    var n := NextMonth(a);
    if MonthIndex(n) < MonthIndex(b) {
      MonthsOrdered(n, b);
      assert FirstDay(n) <= LastDay(n);
    } else {
      MonthIndexInjective(n, b);
    }
  }

  /** The window [FirstDay, LastDay] of a month holds exactly that month's dates. */
  lemma MonthWindow(d: Date, ym: YearMonth)
    requires ValidDate(d) && ValidMonth(ym)
    ensures FirstDay(ym) <= DayNumber(d) <= LastDay(ym) <==> MonthOf(d) == ym
  {
    var own := MonthOf(d);
    assert FirstDay(own) <= DayNumber(d) <= LastDay(own);
    if MonthIndex(own) < MonthIndex(ym) {
      MonthsOrdered(own, ym);
    } else if MonthIndex(ym) < MonthIndex(own) {
      MonthsOrdered(ym, own);
    } else {
      MonthIndexInjective(own, ym);
    }
  }

  /** Distinct valid dates have distinct ordinals. */
  lemma DayNumberInjective(a: Date, b: Date)
    requires ValidDate(a) && ValidDate(b)
    ensures DayNumber(a) == DayNumber(b) <==> a == b
  {
    if DayNumber(a) == DayNumber(b) {
      MonthWindow(a, MonthOf(b));
    }
  }

  /** JavaScript's `setFullYear(year - 1)`: the same month and day a year
      earlier, where 29 February rolls over to 1 March. */
  function YearEarlier(d: Date): (r: Date)
    requires ValidDate(d)
    ensures ValidDate(r)
  {
    if d.month == 2 && d.day == 29 && !IsLeap(d.year - 1) then Date(d.year - 1, 3, 1)
    else Date(d.year - 1, d.month, d.day)
  }

  /** Two years' months differ in length only in February, so the days
      before a month differ by the leap day once February is past. */
  lemma {:induction false} DaysBeforeMonthYears(a: int, b: int, m: int)
    requires 1 <= m <= 13
    ensures DaysBeforeMonth(a, m) - DaysBeforeMonth(b, m) ==
      if m >= 3 then (if IsLeap(a) then 1 else 0) - (if IsLeap(b) then 1 else 0) else 0
  {
    if m > 1 {
      DaysBeforeMonthYears(a, b, m - 1);
    }
  }

  /** A year earlier keeps the month and day whenever that date exists, and
      only 29 February, in a year after a common one, moves to 1 March; either
      way the date lies 365 or 366 days back. */
  lemma YearEarlierMeaning(d: Date)
    requires ValidDate(d)
    ensures ValidDate(Date(d.year - 1, d.month, d.day)) ==>
      YearEarlier(d) == Date(d.year - 1, d.month, d.day)
    ensures !ValidDate(Date(d.year - 1, d.month, d.day)) ==>
      d.month == 2 && d.day == 29 && YearEarlier(d) == Date(d.year - 1, 3, 1)
    ensures DayNumber(d) - DayNumber(YearEarlier(d)) == 365 ||
            DayNumber(d) - DayNumber(YearEarlier(d)) == 366
  {
    FirstDayYearBack(d.year, d.month);
    if d.month == 2 && d.day == 29 && !IsLeap(d.year - 1) {
      MonthStep(YearMonth(d.year - 1, 2));
      assert NextMonth(YearMonth(d.year - 1, 2)) == YearMonth(d.year - 1, 3);
    }
  }

  /** A month begins a year's length, plus or minus the leap day once
      February is past, after the same month a year earlier. */
  lemma FirstDayYearBack(y: int, m: int)
    requires 1 <= m <= 12
    ensures FirstDay(YearMonth(y, m)) - FirstDay(YearMonth(y - 1, m)) ==
      DaysInYear(y - 1) + if m >= 3 then (if IsLeap(y) then 1 else 0) - (if IsLeap(y - 1) then 1 else 0) else 0
  {
    YearStep(y - 1);
    DaysBeforeMonthYears(y, y - 1, m);
  }
}
