/** The dashboard charts' aggregation: the look-back filter, the daily,
    weekly and monthly spending series, the per-category totals, the
    "no data" checks and the chart state that the period selector drives.
    Dates are day ordinals (Calendar.DayNumber); `today` is the clock's date. */
module Charts {
  import opened Ledger
  import opened Calendar

  // ---------------------------------------------------------------------
  // Look-back filter
  // ---------------------------------------------------------------------

  /** First day of the look-back window for a period name; an unknown name
      behaves like "7days". */
  function PeriodStart(period: string, today: Date): int
    requires ValidDate(today)
  {
    if period == "30days" then DayNumber(today) - 30
    else if period == "90days" then DayNumber(today) - 90
    else if period == "1year" then DayNumber(YearEarlier(today))
    else DayNumber(today) - 7
  }

  /** The filter's test: an expense dated between the window start and today. */
  predicate InPeriod(t: Transaction, period: string, today: Date)
    requires ValidDate(today)
  {
    PeriodStart(period, today) <= DayNumber(t.date) <= DayNumber(today) && t.kind == Expense
  }

  /** `filterTransactionsByPeriod` */
  function FilterByPeriod(txs: seq<Transaction>, period: string, today: Date): (r: seq<Transaction>)
    requires ValidDate(today)
  {
    Filter(txs, (t: Transaction) => InPeriod(t, period, today))
  }

  /** The filter keeps exactly the expenses dated in the window, in order; an
      unrecognised period is the 7-day window; the one-year window starts on
      the same calendar day a year back. */
  lemma FilterByPeriodCorrect(txs: seq<Transaction>, period: string, today: Date)
    requires ValidDate(today)
    ensures forall t :: t in FilterByPeriod(txs, period, today) <==>
      t in txs && t.kind == Expense && PeriodStart(period, today) <= DayNumber(t.date) <= DayNumber(today)
    ensures period !in {"7days", "30days", "90days", "1year"} ==>
      FilterByPeriod(txs, period, today) == FilterByPeriod(txs, "7days", today)
    ensures PeriodStart("1year", today) == DayNumber(YearEarlier(today)) && YearEarlier(today).year == today.year - 1
    ensures forall a, b ::
      (FilterByPeriod(a + b, period, today) == FilterByPeriod(a, period, today) + FilterByPeriod(b, period, today))
  {
    FilterCorrect(txs, (t: Transaction) => InPeriod(t, period, today));
    forall a, b ensures FilterByPeriod(a + b, period, today) ==
      FilterByPeriod(a, period, today) + FilterByPeriod(b, period, today)
    {
      FilterAppend(a, b, (t: Transaction) => InPeriod(t, period, today));
    }
    if period !in {"7days", "30days", "90days", "1year"} {
      FilterSamePredicate(txs, (t: Transaction) => InPeriod(t, period, today),
                               (t: Transaction) => InPeriod(t, "7days", today));
    }
  }

  lemma {:induction false} FilterSamePredicate(txs: seq<Transaction>, p: Transaction -> bool, q: Transaction -> bool)
    requires forall t :: p(t) == q(t)
    ensures Filter(txs, p) == Filter(txs, q)
  {
    if txs != [] {
      FilterSamePredicate(txs[1..], p, q);
    }
  }

  // ---------------------------------------------------------------------
  // Buckets
  // ---------------------------------------------------------------------

  /** A bucket's span of days, both ends included. */
  datatype Window = Window(first: int, last: int)

  /** What a bucket's label describes (the source formats these as text). */
  datatype Label = DayLabel(day: int) | WeekLabel(first: int, last: int) | MonthLabel(month: YearMonth)

  /** The amounts of the transactions dated in [first, last]. */
  function WindowSum(txs: seq<Transaction>, first: int, last: int): int
  {
    Sum(txs, (t: Transaction) => first <= DayNumber(t.date) <= last)
  }

  function Sums(txs: seq<Transaction>, ws: seq<Window>): (r: seq<int>)
    ensures |r| == |ws|
    ensures forall j :: 0 <= j < |ws| ==> r[j] == WindowSum(txs, ws[j].first, ws[j].last)
  {
    seq(|ws|, j requires 0 <= j < |ws| => WindowSum(txs, ws[j].first, ws[j].last))
  }

  /** `days` one-day windows ending today, oldest first. */
  function DailyWindows(today: int, days: nat): (ws: seq<Window>)
    ensures |ws| == days
    ensures forall j :: 0 <= j < days ==> ws[j].first == ws[j].last
    ensures forall j :: 0 <= j < days - 1 ==> ws[j + 1].first == ws[j].last + 1
    ensures days > 0 ==> ws[days - 1].last == today
  {
    seq(days, j requires 0 <= j < days => Window(today - (days - 1 - j), today - (days - 1 - j)))
  }

  /** `weeks` seven-day windows, the newest ending today, oldest first:
      bucket i back covers [today - 7i - 6, today - 7i]. */
  function WeeklyWindows(today: int, weeks: nat): (ws: seq<Window>)
    ensures |ws| == weeks
    ensures forall j :: 0 <= j < weeks ==> ws[j].last - ws[j].first == 6
    ensures forall j :: 0 <= j < weeks - 1 ==> ws[j + 1].first == ws[j].last + 1
    ensures weeks > 0 ==> ws[weeks - 1].last == today
  {
    seq(weeks, j requires 0 <= j < weeks => Window(today - 7 * (weeks - 1 - j) - 6, today - 7 * (weeks - 1 - j)))
  }

  /** The calendar months of the monthly series, oldest first, ending with
      today's month. */
  function Months(today: Date, months: nat): (ms: seq<YearMonth>)
    ensures |ms| == months
    ensures forall j :: 0 <= j < months ==> ms[j] == ShiftMonth(MonthOf(today), -(months - 1 - j))
  {
    seq(months, j requires 0 <= j < months => ShiftMonth(MonthOf(today), -(months - 1 - j)))
  }

  /** Each month's window runs from its first to its last day. */
  function MonthWindows(ms: seq<YearMonth>): (ws: seq<Window>)
    requires forall j :: 0 <= j < |ms| ==> ValidMonth(ms[j])
    ensures |ws| == |ms|
    ensures forall j :: 0 <= j < |ms| ==> ws[j] == Window(FirstDay(ms[j]), LastDay(ms[j]))
  {
    seq(|ms|, j requires 0 <= j < |ms| => Window(FirstDay(ms[j]), LastDay(ms[j])))
  }

  // ---------------------------------------------------------------------
  // The monthly series as written
  // ---------------------------------------------------------------------

  /** The month the source lands on for bucket `i` back: `setMonth(month - i)`
      keeps today's day of the month, and a day past the end of the target
      month rolls over into the next one. */
  function MonthOfBucketAsWritten(today: Date, i: int): YearMonth
    requires ValidDate(today)
  {
    var target := ShiftMonth(MonthOf(today), -i);
    if today.day <= Days(target) then target else NextMonth(target)
  }

  /** On 31 October the buckets for this month and one month back are both
      October ... */
  lemma MonthlyBucketRepeatsAsWritten()
    ensures MonthOfBucketAsWritten(Date(2026, 10, 31), 1) == YearMonth(2026, 10)
    ensures MonthOfBucketAsWritten(Date(2026, 10, 31), 0) == YearMonth(2026, 10)
  {
    var today := Date(2026, 10, 31);
    assert ValidDate(today);
    assert MonthIndex(MonthOf(today)) == 24321;
    var same := ShiftMonth(MonthOf(today), 0);
    MonthIndexInjective(same, YearMonth(2026, 10));
    var back := ShiftMonth(MonthOf(today), -1);
    MonthIndexInjective(back, YearMonth(2026, 9));
    assert Days(back) == 30;
    var next := NextMonth(back);
    assert MonthIndex(next) == 24321;
    MonthIndexInjective(next, YearMonth(2026, 10));
  }

  /** The month a bucket lands on is at most one past its target. */
  lemma BucketIndexAsWritten(today: Date, i: int)
    requires ValidDate(today)
    ensures MonthIndex(MonthOfBucketAsWritten(today, i)) <= MonthIndex(MonthOf(today)) - i + 1
  {
  }

  /** Two months back from 31 October is August, which has 31 days. */
  lemma AugustBucketAsWritten()
    ensures MonthOfBucketAsWritten(Date(2026, 10, 31), 2) == YearMonth(2026, 8)
  {
    var today := Date(2026, 10, 31);
    assert ValidDate(today);
    assert MonthIndex(MonthOf(today)) == 24321;
    var target := ShiftMonth(MonthOf(today), -2);
    MonthIndexInjective(target, YearMonth(2026, 8));
    assert Days(target) == 31;
  }

  /** From three months back on, a bucket lands before September. */
  lemma LaterBucketBeforeSeptember(i: int)
    requires 3 <= i
    ensures MonthOfBucketAsWritten(Date(2026, 10, 31), i) != YearMonth(2026, 9)
  {
    var today := Date(2026, 10, 31);
    assert ValidDate(today);
    assert MonthIndex(MonthOf(today)) == 24321;
    BucketIndexAsWritten(today, i);
  }

  /** ... and none of the twelve buckets covers September. */
  lemma MonthlyBucketSkippedAsWritten()
    ensures forall i :: 0 <= i < 12 ==> MonthOfBucketAsWritten(Date(2026, 10, 31), i) != YearMonth(2026, 9)
  {
    forall i | 0 <= i < 12 ensures MonthOfBucketAsWritten(Date(2026, 10, 31), i) != YearMonth(2026, 9) {
      if i == 0 || i == 1 {
        MonthlyBucketRepeatsAsWritten();
      } else if i == 2 {
        AugustBucketAsWritten();
      } else {
        LaterBucketBeforeSeptember(i);
      }
    }
  }

  /** The corrected months are twelve consecutive distinct calendar months
      ending with today's. */
  lemma MonthsConsecutive(today: Date, months: nat)
    requires ValidDate(today) && months > 0
    ensures Months(today, months)[months - 1] == MonthOf(today)
    ensures forall j :: 0 <= j < months - 1 ==> Months(today, months)[j + 1] == NextMonth(Months(today, months)[j])
    ensures forall a, b :: 0 <= a < b < months ==> Months(today, months)[a] != Months(today, months)[b]
  {
    var ms := Months(today, months);
    assert ms[months - 1] == ShiftMonth(MonthOf(today), 0);
    MonthIndexInjective(ms[months - 1], MonthOf(today));
    forall j | 0 <= j < months - 1 ensures ms[j + 1] == NextMonth(ms[j]) {
      MonthIndexInjective(ms[j + 1], NextMonth(ms[j]));
    }
  }

  // ---------------------------------------------------------------------
  // Windows tile the range they span
  // ---------------------------------------------------------------------

  /** Each window starts the day after the previous one ends. */
  predicate Tiles(ws: seq<Window>)
  {
    (forall j :: 0 <= j < |ws| ==> ws[j].first <= ws[j].last + 1) &&
    (forall j :: 0 <= j < |ws| - 1 ==> ws[j + 1].first == ws[j].last + 1)
  }

  function Total(xs: seq<int>): int
  {
    if xs == [] then 0 else Total(xs[..|xs| - 1]) + xs[|xs| - 1]
  }

  /** Two adjacent windows sum to the window they make together. */
  lemma WindowSumSplit(txs: seq<Transaction>, first: int, mid: int, last: int)
    requires first <= mid + 1 && mid <= last
    ensures WindowSum(txs, first, last) == WindowSum(txs, first, mid) + WindowSum(txs, mid + 1, last)
  {
    SumDisjoint(txs, (t: Transaction) => first <= DayNumber(t.date) <= mid,
                     (t: Transaction) => mid + 1 <= DayNumber(t.date) <= last,
                     (t: Transaction) => first <= DayNumber(t.date) <= last);
  }

  /** The buckets of tiling windows add up to the sum over their whole span:
      no transaction in the span is counted twice or missed. */
  lemma {:induction false} TilesTotal(txs: seq<Transaction>, ws: seq<Window>)
    requires |ws| > 0 && Tiles(ws)
    ensures Total(Sums(txs, ws)) == WindowSum(txs, ws[0].first, ws[|ws| - 1].last)
    ensures ws[0].first <= ws[|ws| - 1].last + 1
  {
    var n := |ws|;
    var s := Sums(txs, ws);
    if n == 1 {
      assert s[..0] == [];
    } else {
      var pre := ws[..n - 1];
      assert Tiles(pre);
      TilesTotal(txs, pre);
      assert s[..n - 1] == Sums(txs, pre);
      WindowSumSplit(txs, ws[0].first, ws[n - 2].last, ws[n - 1].last);
    }
  }

  lemma DailyTiles(today: int, days: nat)
    ensures Tiles(DailyWindows(today, days))
  {
  }

  lemma WeeklyTiles(today: int, weeks: nat)
    ensures Tiles(WeeklyWindows(today, weeks))
  {
  }

  lemma MonthlyTiles(today: Date, months: nat)
    requires ValidDate(today) && months > 0
    ensures Tiles(MonthWindows(Months(today, months)))
  {
    var ms := Months(today, months);
    var ws := MonthWindows(ms);
    MonthsConsecutive(today, months);
    forall j | 0 <= j < months - 1 ensures ws[j + 1].first == ws[j].last + 1 {
      MonthStep(ms[j]);
    }
  }

  /** A month's bucket holds exactly the transactions dated in that month. */
  lemma MonthBucketIsMonth(txs: seq<Transaction>, ym: YearMonth)
    requires ValidMonth(ym)
    requires forall t :: t in txs ==> ValidDate(t.date)
    ensures WindowSum(txs, FirstDay(ym), LastDay(ym)) == Sum(txs, (t: Transaction) => MonthOf(t.date) == ym)
  {
    forall t | t in txs
      ensures (FirstDay(ym) <= DayNumber(t.date) <= LastDay(ym)) == (MonthOf(t.date) == ym)
    {
      MonthWindow(t.date, ym);
    }
    SumCongruent(txs, (t: Transaction) => FirstDay(ym) <= DayNumber(t.date) <= LastDay(ym),
                      (t: Transaction) => MonthOf(t.date) == ym);
  }

  // ---------------------------------------------------------------------
  // The series
  // ---------------------------------------------------------------------

  /** Daily buckets for "30days", else seven. */
  function DaysToShow(period: string): nat
  {
    if period == "30days" then 30 else 7
  }

  /** The windows `getSpendingData` uses for a period. */
  function SeriesWindows(period: string, today: Date): seq<Window>
    requires ValidDate(today)
  {
    if period == "90days" then WeeklyWindows(DayNumber(today), 12)
    else if period == "1year" then MonthWindows(Months(today, 12))
    else DailyWindows(DayNumber(today), DaysToShow(period))
  }

  /** Whatever the period, the series windows tile the span from the oldest
      bucket's first day to the newest bucket's last day; that span ends
      today for the daily and weekly series, and on the last day of today's
      month for the monthly one. */
  lemma SeriesWindowsTile(period: string, today: Date)
    requires ValidDate(today)
    ensures |SeriesWindows(period, today)| == (if period == "90days" || period == "1year" then 12 else DaysToShow(period))
    ensures Tiles(SeriesWindows(period, today))
    ensures var ws := SeriesWindows(period, today);
      ws[|ws| - 1].last == (if period == "1year" then LastDay(MonthOf(today)) else DayNumber(today))
  {
    if period == "90days" {
      WeeklyTiles(DayNumber(today), 12);
    } else if period == "1year" {
      MonthlyTiles(today, 12);
      MonthsConsecutive(today, 12);
    } else {
      DailyTiles(DayNumber(today), DaysToShow(period));
    }
  }

  /** Spending over the whole span of a series is the sum of its buckets. */
  lemma SeriesTotal(txs: seq<Transaction>, period: string, today: Date)
    requires ValidDate(today)
    ensures var ws := SeriesWindows(period, today);
      Total(Sums(txs, ws)) == WindowSum(txs, ws[0].first, ws[|ws| - 1].last)
  {
    SeriesWindowsTile(period, today);
    TilesTotal(txs, SeriesWindows(period, today));
  }

  /** `getSpendingData`'s daily loop, oldest day first. */
  method GetDailySpendingData(txs: seq<Transaction>, today: Date, days: nat) returns (labels: seq<Label>, data: seq<int>)
    requires ValidDate(today)
    ensures |labels| == days && data == Sums(txs, DailyWindows(DayNumber(today), days))
    ensures forall j :: 0 <= j < days ==> labels[j] == DayLabel(DayNumber(today) - (days - 1 - j))
  {
    var ws := DailyWindows(DayNumber(today), days);
    labels, data := [], [];
    var i: int := days - 1;
    while i >= 0
      invariant -1 <= i <= days - 1
      invariant |labels| == |data| == days - 1 - i
      invariant forall j :: 0 <= j < |data| ==> data[j] == WindowSum(txs, ws[j].first, ws[j].last)
      invariant forall j :: 0 <= j < |labels| ==> labels[j] == DayLabel(DayNumber(today) - (days - 1 - j))
    {
      var day := DayNumber(today) - i;
      assert ws[|data|] == Window(day, day);
      labels := labels + [DayLabel(day)];
      data := data + [WindowSum(txs, day, day)];
      i := i - 1;
    }
  }

  /** `getWeeklySpendingData(transactions, weeks)` */
  method GetWeeklySpendingData(txs: seq<Transaction>, today: Date, weeks: nat) returns (labels: seq<Label>, data: seq<int>)
    requires ValidDate(today)
    ensures |labels| == weeks && data == Sums(txs, WeeklyWindows(DayNumber(today), weeks))
    ensures forall j :: 0 <= j < weeks ==>
      labels[j] == WeekLabel(WeeklyWindows(DayNumber(today), weeks)[j].first, WeeklyWindows(DayNumber(today), weeks)[j].last)
  {
    var ws := WeeklyWindows(DayNumber(today), weeks);
    labels, data := [], [];
    var i: int := weeks - 1;
    while i >= 0
      invariant -1 <= i <= weeks - 1
      invariant |labels| == |data| == weeks - 1 - i
      invariant forall j :: 0 <= j < |data| ==> data[j] == WindowSum(txs, ws[j].first, ws[j].last)
      invariant forall j :: 0 <= j < |labels| ==> labels[j] == WeekLabel(ws[j].first, ws[j].last)
    {
      var weekEnd := DayNumber(today) - i * 7;
      var weekStart := weekEnd - 6;
      assert ws[|data|] == Window(weekStart, weekEnd);
      labels := labels + [WeekLabel(weekStart, weekEnd)];
      data := data + [WindowSum(txs, weekStart, weekEnd)];
      i := i - 1;
    }
  }

  /** `getMonthlySpendingData(transactions, months)`, corrected to step by
      calendar month (see MonthOfBucketAsWritten). */
  method GetMonthlySpendingData(txs: seq<Transaction>, today: Date, months: nat) returns (labels: seq<Label>, data: seq<int>)
    requires ValidDate(today)
    ensures |labels| == months && data == Sums(txs, MonthWindows(Months(today, months)))
    ensures forall j :: 0 <= j < months ==> labels[j] == MonthLabel(Months(today, months)[j])
  {
    var ms := Months(today, months);
    var ws := MonthWindows(ms);
    labels, data := [], [];
    var i: int := months - 1;
    while i >= 0
      invariant -1 <= i <= months - 1
      invariant |labels| == |data| == months - 1 - i
      invariant forall j :: 0 <= j < |data| ==> data[j] == WindowSum(txs, ws[j].first, ws[j].last)
      invariant forall j :: 0 <= j < |labels| ==> labels[j] == MonthLabel(ms[j])
    {
      var month := ShiftMonth(MonthOf(today), -i);
      var monthStart := FirstDay(month);
      var monthEnd := LastDay(month);
      assert ms[|data|] == month && ws[|data|] == Window(monthStart, monthEnd);
      labels := labels + [MonthLabel(month)];
      data := data + [WindowSum(txs, monthStart, monthEnd)];
      i := i - 1;
    }
  }

  /** The labels drawn under the buckets: the day, the week's first and last
      day, or the month. */
  function SeriesLabels(period: string, today: Date): seq<Label>
    requires ValidDate(today)
  {
    if period == "90days" then
      var ws := WeeklyWindows(DayNumber(today), 12);
      seq(12, j requires 0 <= j < 12 => WeekLabel(ws[j].first, ws[j].last))
    else if period == "1year" then
      var ms := Months(today, 12);
      seq(12, j requires 0 <= j < 12 => MonthLabel(ms[j]))
    else
      var days := DaysToShow(period);
      seq(days, j requires 0 <= j < days => DayLabel(DayNumber(today) - (days - 1 - j)))
  }

  /** `getSpendingData(transactions, period)` */
  method GetSpendingData(txs: seq<Transaction>, period: string, today: Date) returns (labels: seq<Label>, data: seq<int>)
    requires ValidDate(today)
    ensures |labels| == |data| == |SeriesWindows(period, today)|
    ensures labels == SeriesLabels(period, today)
    ensures data == Sums(txs, SeriesWindows(period, today))
  {
    if period == "90days" {
      labels, data := GetWeeklySpendingData(txs, today, 12);
    } else if period == "1year" {
      labels, data := GetMonthlySpendingData(txs, today, 12);
    } else {
      labels, data := GetDailySpendingData(txs, today, DaysToShow(period));
    }
  }

  // ---------------------------------------------------------------------
  // Per-category totals and the "no data" checks
  // ---------------------------------------------------------------------

  /** The expense categories in the order they first occur. */
  function CategoryLabels(txs: seq<Transaction>): seq<string>
  {
    var gs := GroupTotals(ExpenseItems(txs));
    seq(|gs|, i requires 0 <= i < |gs| => gs[i].category)
  }

  /** Each expense category's total, in the order of CategoryLabels. */
  function CategoryData(txs: seq<Transaction>): seq<int>
  {
    var gs := GroupTotals(ExpenseItems(txs));
    seq(|gs|, i requires 0 <= i < |gs| => gs[i].amount)
  }

  /** The category series names every expense category once, in first-seen
      order, next to the sum of that category's expenses. */
  lemma CategorySpendingCorrect(txs: seq<Transaction>)
    ensures |CategoryLabels(txs)| == |CategoryData(txs)|
    ensures forall i, j :: 0 <= i < j < |CategoryLabels(txs)| ==> CategoryLabels(txs)[i] != CategoryLabels(txs)[j]
    ensures (set c | c in CategoryLabels(txs)) == (set t | t in txs && t.kind == Expense :: t.category)
    ensures forall i :: 0 <= i < |CategoryLabels(txs)| ==> CategoryData(txs)[i] == ExpensesIn(txs, CategoryLabels(txs)[i])
    ensures forall i, j :: 0 <= i < j < |CategoryLabels(txs)| ==>
      FirstSeen(ExpenseItems(txs), CategoryLabels(txs)[i]) < FirstSeen(ExpenseItems(txs), CategoryLabels(txs)[j])
  {
    var items := ExpenseItems(txs);
    var groups := GroupTotals(items);
    var labels, data := CategoryLabels(txs), CategoryData(txs);
    GroupTotalsCorrect(items);
    ExpenseItemsCategories(txs);
    forall i | 0 <= i < |labels| ensures data[i] == ExpensesIn(txs, labels[i]) {
      ExpenseItemsSums(txs, labels[i]);
    }
    LabelsOfGroups(groups, labels);
  }

  /** `getCategorySpending`: expense categories in first-seen order with
      their totals. */
  method GetCategorySpending(txs: seq<Transaction>) returns (labels: seq<string>, data: seq<int>)
    ensures labels == CategoryLabels(txs) && data == CategoryData(txs)
    ensures |labels| == |data|
    ensures forall i, j :: 0 <= i < j < |labels| ==> labels[i] != labels[j]
    ensures (set c | c in labels) == (set t | t in txs && t.kind == Expense :: t.category)
    ensures forall i :: 0 <= i < |labels| ==> data[i] == ExpensesIn(txs, labels[i])
    ensures forall i, j :: 0 <= i < j < |labels| ==>
      FirstSeen(ExpenseItems(txs), labels[i]) < FirstSeen(ExpenseItems(txs), labels[j])
  {
    var items := ExpenseItems(txs);
    var groups := GroupByCategory(items);
    labels := seq(|groups|, i requires 0 <= i < |groups| => groups[i].category);
    data := seq(|groups|, i requires 0 <= i < |groups| => groups[i].amount);
    CategorySpendingCorrect(txs);
  }

  /** The labels read off a grouping are its categories. */
  lemma LabelsOfGroups(groups: seq<Group>, labels: seq<string>)
    requires |labels| == |groups|
    requires forall i :: 0 <= i < |groups| ==> labels[i] == groups[i].category
    ensures (set c | c in labels) == GroupCategories(groups)
  {
    forall c | c in GroupCategories(groups) ensures c in labels {
      var g :| g in groups && g.category == c;
      var i :| 0 <= i < |groups| && groups[i] == g;
      assert labels[i] == c;
    }
  }

  /** `data.every(value => value === 0)` */
  predicate AllZero(data: seq<int>)
  {
    forall j :: 0 <= j < |data| ==> data[j] == 0
  }

  /** With positive amounts, the spending chart shows "no data" exactly when
      no transaction falls in any bucket. */
  lemma NoDataMeansNoTransactions(txs: seq<Transaction>, ws: seq<Window>)
    requires forall t :: t in txs ==> t.amount > 0
    ensures AllZero(Sums(txs, ws)) <==>
      forall t, j :: t in txs && 0 <= j < |ws| ==> !(ws[j].first <= DayNumber(t.date) <= ws[j].last)
  {
    forall j | 0 <= j < |ws|
      ensures WindowSum(txs, ws[j].first, ws[j].last) == 0 <==>
        forall t :: t in txs ==> !(ws[j].first <= DayNumber(t.date) <= ws[j].last)
    {
      PositiveSumZero(txs, (t: Transaction) => ws[j].first <= DayNumber(t.date) <= ws[j].last);
    }
  }

  /** A sum of positive amounts is zero exactly when nothing is selected. */
  lemma {:induction false} PositiveSumZero(txs: seq<Transaction>, p: Transaction -> bool)
    requires forall t :: t in txs ==> t.amount > 0
    ensures Sum(txs, p) >= 0
    ensures Sum(txs, p) == 0 <==> forall t :: t in txs ==> !p(t)
  {
    if txs != [] {
      assert forall t :: t in txs[1..] ==> t in txs;
      PositiveSumZero(txs[1..], p);
      assert txs == [txs[0]] + txs[1..];
    }
  }

  // ---------------------------------------------------------------------
  // Chart state
  // ---------------------------------------------------------------------

  /** What the spending chart's container shows. */
  datatype SpendingView = SpendingNotDrawn | SpendingEmptyState | NoSpendingForPeriod
                        | SpendingChart(labels: seq<Label>, data: seq<int>)

  /** What the category chart's container shows. */
  datatype CategoryView = CategoryNotDrawn | CategoryEmptyState | NoCategoriesForPeriod
                        | CategoryChart(labels: seq<string>, data: seq<int>)

  /** What `createSpendingChart` draws for a list, a period and a day. */
  function SpendingChartOf(txs: seq<Transaction>, period: string, today: Date): SpendingView
    requires ValidDate(today)
  {
    var data := Sums(FilterByPeriod(txs, period, today), SeriesWindows(period, today));
    if AllZero(data) then NoSpendingForPeriod else SpendingChart(SeriesLabels(period, today), data)
  }

  /** What `createCategoryChart` draws for a list, a period and a day. */
  function CategoryChartOf(txs: seq<Transaction>, period: string, today: Date): CategoryView
    requires ValidDate(today)
  {
    var filtered := FilterByPeriod(txs, period, today);
    var data := CategoryData(filtered);
    if |data| == 0 || AllZero(data) then NoCategoriesForPeriod else CategoryChart(CategoryLabels(filtered), data)
  }

  /** A total of values none of which is negative is zero exactly when
      every value is. */
  lemma {:induction false} TotalZero(xs: seq<int>)
    requires forall j :: 0 <= j < |xs| ==> xs[j] >= 0
    ensures Total(xs) >= 0
    ensures Total(xs) == 0 <==> AllZero(xs)
  {
    if xs != [] {
      var pre := xs[..|xs| - 1];
      TotalZero(pre);
      if Total(xs) == 0 {
        forall j | 0 <= j < |xs| ensures xs[j] == 0 {
          if j < |xs| - 1 { assert xs[j] == pre[j]; }
        }
      }
      if AllZero(xs) {
        assert AllZero(pre) by {
          forall j | 0 <= j < |pre| ensures pre[j] == 0 { assert pre[j] == xs[j]; }
        }
      }
    }
  }

  /** With positive amounts, the spending chart says "no data for the
      period" exactly when no expense of the period is dated inside the span
      its buckets cover; otherwise it draws one value per bucket, and the
      values add up to the spending over that span. */
  lemma SpendingChartMeaning(txs: seq<Transaction>, period: string, today: Date)
    requires ValidDate(today)
    requires forall t :: t in txs ==> t.amount > 0
    ensures var ws := SeriesWindows(period, today);
      var filtered := FilterByPeriod(txs, period, today);
      && (SpendingChartOf(txs, period, today) == NoSpendingForPeriod <==>
            forall t :: t in filtered ==> !(ws[0].first <= DayNumber(t.date) <= ws[|ws| - 1].last))
      && (SpendingChartOf(txs, period, today).SpendingChart? ==>
            && SpendingChartOf(txs, period, today).labels == SeriesLabels(period, today)
            && |SpendingChartOf(txs, period, today).data| == |ws|
            && Total(SpendingChartOf(txs, period, today).data) == WindowSum(filtered, ws[0].first, ws[|ws| - 1].last))
  {
    var ws := SeriesWindows(period, today);
    var filtered := FilterByPeriod(txs, period, today);
    var data := Sums(filtered, ws);
    FilterCorrect(txs, (t: Transaction) => InPeriod(t, period, today));
    assert forall t :: t in filtered ==> t.amount > 0;
    forall j | 0 <= j < |data| ensures data[j] >= 0 {
      PositiveSumZero(filtered, (t: Transaction) => ws[j].first <= DayNumber(t.date) <= ws[j].last);
    }
    TotalZero(data);
    SeriesTotal(filtered, period, today);
    PositiveSumZero(filtered, (t: Transaction) => ws[0].first <= DayNumber(t.date) <= ws[|ws| - 1].last);
  }

  /** The category chart says "no category data for the period" exactly
      when every category's expenses in the period sum to zero; otherwise it
      names each expense category of the period once, next to its sum. */
  lemma CategoryChartMeaning(txs: seq<Transaction>, period: string, today: Date)
    requires ValidDate(today)
    ensures var filtered := FilterByPeriod(txs, period, today);
      var v := CategoryChartOf(txs, period, today);
      && (v == NoCategoriesForPeriod <==> forall c :: ExpensesIn(filtered, c) == 0)
      && (v.CategoryChart? ==>
            && |v.labels| == |v.data| > 0
            && !AllZero(v.data)
            && (forall i, j :: 0 <= i < j < |v.labels| ==> v.labels[i] != v.labels[j])
            && (set c | c in v.labels) == (set t | t in filtered && t.kind == Expense :: t.category)
            && forall i :: 0 <= i < |v.labels| ==> v.data[i] == ExpensesIn(filtered, v.labels[i]))
  {
    var filtered := FilterByPeriod(txs, period, today);
    var labels, data := CategoryLabels(filtered), CategoryData(filtered);
    CategorySpendingCorrect(filtered);
    if |data| == 0 || AllZero(data) {
      forall c ensures ExpensesIn(filtered, c) == 0 {
        if c in labels {
          var i :| 0 <= i < |labels| && labels[i] == c;
        } else {
          ExpenseItemsCategories(filtered);
          ExpenseItemsSums(filtered, c);
          ItemSumAbsent(ExpenseItems(filtered), c);
        }
      }
    } else {
      var j :| 0 <= j < |data| && data[j] != 0;
      assert ExpensesIn(filtered, labels[j]) != 0;
    }
  }

  /** The module state of the charts script and what it has drawn. */
  class ChartState {
    var currentTimePeriod: string
    var allTransactions: seq<Transaction>
    var spendingView: SpendingView
    var categoryView: CategoryView

    constructor ()
      ensures currentTimePeriod == "7days" && allTransactions == []
      ensures spendingView == SpendingNotDrawn && categoryView == CategoryNotDrawn
    {
      currentTimePeriod := "7days";
      allTransactions := [];
      spendingView := SpendingNotDrawn;
      categoryView := CategoryNotDrawn;
    }

    /** `createSpendingChart` */
    method CreateSpendingChart(txs: seq<Transaction>, today: Date)
      requires ValidDate(today)
      modifies this
      ensures currentTimePeriod == old(currentTimePeriod) && allTransactions == old(allTransactions)
      ensures categoryView == old(categoryView)
      ensures spendingView == SpendingChartOf(txs, currentTimePeriod, today)
    {
      var filtered := FilterByPeriod(txs, currentTimePeriod, today);
      var labels, data := GetSpendingData(filtered, currentTimePeriod, today);
      if forall j :: 0 <= j < |data| ==> data[j] == 0 {
        spendingView := NoSpendingForPeriod;
      } else {
        spendingView := SpendingChart(labels, data);
      }
    }

    /** `createCategoryChart` */
    method CreateCategoryChart(txs: seq<Transaction>, today: Date)
      requires ValidDate(today)
      modifies this
      ensures currentTimePeriod == old(currentTimePeriod) && allTransactions == old(allTransactions)
      ensures spendingView == old(spendingView)
      ensures categoryView == CategoryChartOf(txs, currentTimePeriod, today)
    {
      var filtered := FilterByPeriod(txs, currentTimePeriod, today);
      var labels, data := GetCategorySpending(filtered);
      if |data| == 0 || forall j :: 0 <= j < |data| ==> data[j] == 0 {
        categoryView := NoCategoriesForPeriod;
      } else {
        categoryView := CategoryChart(labels, data);
      }
    }

    /** `initCharts(transactions)`: the empty state for an empty list, else
        both charts for the current period. */
    method InitCharts(txs: seq<Transaction>, today: Date)
      requires ValidDate(today)
      modifies this
      ensures currentTimePeriod == old(currentTimePeriod) && allTransactions == old(allTransactions)
      ensures |txs| == 0 ==> spendingView == SpendingEmptyState && categoryView == CategoryEmptyState
      ensures |txs| > 0 ==>
        spendingView == SpendingChartOf(txs, currentTimePeriod, today) &&
        categoryView == CategoryChartOf(txs, currentTimePeriod, today)
    {
      if |txs| == 0 {
        spendingView := SpendingEmptyState;
        categoryView := CategoryEmptyState;
        return;
      }
      CreateSpendingChart(txs, today);
      CreateCategoryChart(txs, today);
    }

    /** `loadChartData`: the dashboard's list when it has entries, else the
        API's answer. `fetched` is that answer: `Some(list)` when the request
        succeeded (a missing list read as empty), `None` when it failed or
        threw. The list returned is stored, except after a failed request,
        which returns the empty list and keeps the stored one. */
    method LoadChartData(globalTransactions: seq<Transaction>, fetched: Option<seq<Transaction>>)
      returns (txs: seq<Transaction>)
      modifies this
      ensures txs == if |globalTransactions| > 0 then globalTransactions
                     else if fetched.Some? then fetched.value else []
      ensures allTransactions == if |globalTransactions| > 0 then globalTransactions
                                 else if fetched.Some? then fetched.value else old(allTransactions)
      ensures currentTimePeriod == old(currentTimePeriod)
      ensures spendingView == old(spendingView) && categoryView == old(categoryView)
    {
      if |globalTransactions| > 0 {
        allTransactions := globalTransactions;
        return globalTransactions;
      }
      if fetched.Some? {
        allTransactions := fetched.value;
        return allTransactions;
      }
      return [];
    }

    /** `updateCharts`: draw from the dashboard's list when it has entries
        (and store it), else from what `loadChartData` returns. */
    method UpdateCharts(globalTransactions: seq<Transaction>, fetched: Option<seq<Transaction>>, today: Date)
      requires ValidDate(today)
      modifies this
      ensures currentTimePeriod == old(currentTimePeriod)
      ensures allTransactions ==
        if |globalTransactions| > 0 then globalTransactions
        else if fetched.Some? then fetched.value
        else old(allTransactions)
      ensures var drawn := if |globalTransactions| > 0 then globalTransactions
                           else if fetched.Some? then fetched.value else [];
        && (|drawn| == 0 ==> spendingView == SpendingEmptyState && categoryView == CategoryEmptyState)
        && (|drawn| > 0 ==> spendingView == SpendingChartOf(drawn, currentTimePeriod, today) &&
                            categoryView == CategoryChartOf(drawn, currentTimePeriod, today))
    {
      if |globalTransactions| > 0 {
        allTransactions := globalTransactions;
        InitCharts(allTransactions, today);
      } else {
        var transactions := LoadChartData(globalTransactions, fetched);
        InitCharts(transactions, today);
      }
    }

    /** `changeTimePeriod(period)`: remember the period and redraw from the
        stored transactions, if there are any. */
    method ChangeTimePeriod(period: string, today: Date)
      requires ValidDate(today)
      modifies this
      ensures currentTimePeriod == period && allTransactions == old(allTransactions)
      ensures |allTransactions| == 0 ==> spendingView == old(spendingView) && categoryView == old(categoryView)
      ensures |allTransactions| > 0 ==>
        spendingView == SpendingChartOf(allTransactions, period, today) &&
        categoryView == CategoryChartOf(allTransactions, period, today)
    {
      currentTimePeriod := period;
      if |allTransactions| > 0 {
        InitCharts(allTransactions, today);
      }
    }
  }
}
