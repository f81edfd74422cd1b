/** The figures the AI report is built from: the current month's totals and
    savings rate, the per-category expense breakdown, the budget analysis and
    the three-month trend. Entries arrive as loosely typed records: an entry
    may be missing altogether, a date may be missing, an amount may be
    undefined or NaN, a category may be empty. */
module Reports {
  import opened Ledger
  import opened Calendar

  /** A transaction as the report sees it. `amount == None` is an undefined
      or NaN amount (the stored amounts are numbers, so null and strings do
      not arise); a missing category is the empty string. */
  datatype Record = Record(date: Option<Date>, kind: string, category: string, amount: Option<int>)

  /** A budget as the report sees it; `None` is a missing or non-numeric field. */
  datatype BudgetRecord = BudgetRecord(category: string, limit: Option<int>, spent: Option<int>)

  // ---------------------------------------------------------------------
  // Month filter
  // ---------------------------------------------------------------------

  /** A present entry with a date in month `ym`. */
  predicate InMonth(e: Option<Record>, ym: YearMonth)
  {
    e.Some? && e.value.date.Some? && MonthOf(e.value.date.value) == ym
  }

  /** The records of month `ym`, in order; missing entries and entries
      without a date are skipped. */
  function MonthRecords(entries: seq<Option<Record>>, ym: YearMonth): seq<Record>
  {
    if entries == [] then []
    else
      var pre := MonthRecords(entries[..|entries| - 1], ym);
      var e := entries[|entries| - 1];
      if InMonth(e, ym) then pre + [e.value] else pre
  }

  /** The month filter keeps exactly the present, dated records of that month. */
  lemma {:induction false} MonthRecordsCorrect(entries: seq<Option<Record>>, ym: YearMonth)
    ensures forall r :: r in MonthRecords(entries, ym) <==>
      Some(r) in entries && r.date.Some? && MonthOf(r.date.value) == ym
    ensures |MonthRecords(entries, ym)| <= |entries|
  {
    if entries != [] {
      var pre := entries[..|entries| - 1];
      MonthRecordsCorrect(pre, ym);
      assert entries == pre + [entries[|entries| - 1]];
    }
  }

  // ---------------------------------------------------------------------
  // Totals and overview
  // ---------------------------------------------------------------------

  /** `parseFloat(amount) || 0` */
  function Numeric(r: Record): int
  {
    if r.amount.Some? then r.amount.value else 0
  }

  /** Sum of the numeric amounts of the records of one type. */
  function KindTotal(rs: seq<Record>, kind: string): int
  {
    if rs == [] then 0
    else KindTotal(rs[..|rs| - 1], kind) + (if rs[|rs| - 1].kind == kind then Numeric(rs[|rs| - 1]) else 0)
  }

  /** Records with an undefined or NaN amount add nothing: the total is the
      same as over the records whose amount is a number. */
  lemma {:induction false} NonNumericCountsZero(rs: seq<Record>, kind: string)
    ensures KindTotal(rs, kind) == KindTotal(NumericOnly(rs), kind)
  {
    if rs != [] {
      NonNumericCountsZero(rs[..|rs| - 1], kind);
    }
  }

  function NumericOnly(rs: seq<Record>): (r: seq<Record>)
    ensures forall x :: x in r ==> x.amount.Some?
  {
    if rs == [] then []
    else if rs[|rs| - 1].amount.Some? then NumericOnly(rs[..|rs| - 1]) + [rs[|rs| - 1]]
    else NumericOnly(rs[..|rs| - 1])
  }

  datatype Overview = Overview(totalIncome: int, totalExpenses: int, netSavings: int, savingsRate: real)

  /** The overview block: net savings and the savings rate, which is 0 when
      there is no income. */
  function MakeOverview(income: int, expenses: int): Overview
  {
    Overview(income, expenses, income - expenses,
             if income > 0 then (income - expenses) as real / income as real * 100.0 else 0.0)
  }

  /** Multiplying by a positive number keeps order and equality. */
  lemma ScaleOrder(a: real, b: real, l: real)
    requires l > 0.0
    ensures a < b <==> a * l < b * l
    ensures a == b <==> a * l == b * l
  {
    if a < b {
      assert (b - a) * l > 0.0;
    } else if b < a {
      assert (a - b) * l > 0.0;
    }
  }

  /** A percentage `part / whole * 100` scales back to a hundred times the
      part. */
  lemma PercentageScales(part: real, whole: real)
    requires whole > 0.0
    ensures (part / whole * 100.0) * whole == 100.0 * part
  {
    var q := part / whole;
    assert q * whole == part;
    assert (q * 100.0) * whole == (q * whole) * 100.0;
  }

  /** The savings rate is the share of income kept, as a percentage: positive
      exactly when income exceeds expenses, 100 exactly when nothing was spent,
      never above 100 when expenses are not negative; without income it is 0. */
  lemma SavingsRateMeaning(income: int, expenses: int)
    ensures var o := MakeOverview(income, expenses);
      && o.netSavings == income - expenses
      && (income <= 0 ==> o.savingsRate == 0.0)
      && (income > 0 ==>
            && o.savingsRate * income as real == 100.0 * (income - expenses) as real
            && (o.savingsRate > 0.0 <==> income > expenses)
            && (o.savingsRate == 100.0 <==> expenses == 0)
            && (expenses >= 0 ==> o.savingsRate <= 100.0))
  {
    if income > 0 {
      var l := income as real;
      var rate := (income - expenses) as real / l * 100.0;
      assert MakeOverview(income, expenses).savingsRate == rate;
      PercentageScales((income - expenses) as real, l);
      ScaleOrder(0.0, rate, l);
      ScaleOrder(rate, 100.0, l);
    }
  }

  // ---------------------------------------------------------------------
  // Category breakdown
  // ---------------------------------------------------------------------

  /** A missing category is reported as 'Uncategorized'. */
  function CategoryName(r: Record): string
  {
    if r.category == "" then "Uncategorized" else r.category
  }

  /** The expense records as (category, numeric amount) items, in order. */
  function BreakdownItems(rs: seq<Record>): seq<Item>
  {
    if rs == [] then []
    else
      var pre := BreakdownItems(rs[..|rs| - 1]);
      var r := rs[|rs| - 1];
      if r.kind == "expense" then pre + [Item(CategoryName(r), Numeric(r))] else pre
  }

  /** Number of expense records reported under category `c`. */
  function ExpenseCount(rs: seq<Record>, c: string): nat
  {
    if rs == [] then 0
    else
      var r := rs[|rs| - 1];
      ExpenseCount(rs[..|rs| - 1], c) + (if r.kind == "expense" && CategoryName(r) == c then 1 else 0)
  }

  /** Numeric total of the expense records reported under category `c`. */
  function ExpenseSum(rs: seq<Record>, c: string): int
  {
    if rs == [] then 0
    else
      var r := rs[|rs| - 1];
      ExpenseSum(rs[..|rs| - 1], c) + (if r.kind == "expense" && CategoryName(r) == c then Numeric(r) else 0)
  }

  /** The items carry each expense's count and amount to its category, and
      all of them together add up to the expense total. */
  lemma {:induction false} BreakdownItemsCorrect(rs: seq<Record>, c: string)
    ensures ItemCount(BreakdownItems(rs), c) == ExpenseCount(rs, c)
    ensures ItemSum(BreakdownItems(rs), c) == ExpenseSum(rs, c)
    ensures ItemTotal(BreakdownItems(rs)) == KindTotal(rs, "expense")
  {
    if rs != [] {
      var pre := rs[..|rs| - 1];
      var r := rs[|rs| - 1];
      BreakdownItemsCorrect(pre, c);
      var items := BreakdownItems(rs);
      if r.kind == "expense" {
        var it := Item(CategoryName(r), Numeric(r));
        assert items == BreakdownItems(pre) + [it];
        assert items[..|items| - 1] == BreakdownItems(pre) && items[|items| - 1] == it;
        assert ItemCount(items, c) == ItemCount(BreakdownItems(pre), c) + (if it.category == c then 1 else 0);
        assert ItemSum(items, c) == ItemSum(BreakdownItems(pre), c) + (if it.category == c then it.amount else 0);
        assert ItemTotal(items) == ItemTotal(BreakdownItems(pre)) + it.amount;
      } else {
        assert items == BreakdownItems(pre);
      }
    }
  }

  /** The categories of the breakdown are the reported names of the expenses. */
  lemma {:induction false} BreakdownItemsCategories(rs: seq<Record>)
    ensures ItemCategories(BreakdownItems(rs)) == set r | r in rs && r.kind == "expense" :: CategoryName(r)
  {
    if rs != [] {
      var pre := rs[..|rs| - 1];
      BreakdownItemsCategories(pre);
      assert rs == pre + [rs[|rs| - 1]];
      var items := BreakdownItems(rs);
      if rs[|rs| - 1].kind == "expense" {
        assert items == BreakdownItems(pre) + [Item(CategoryName(rs[|rs| - 1]), Numeric(rs[|rs| - 1]))];
        assert ItemCategories(items) == ItemCategories(BreakdownItems(pre)) + {CategoryName(rs[|rs| - 1])};
      }
    }
  }

  /** The `forEach` that fills `categoryBreakdown`: one group per reported
      category, in first-seen order, with the count and numeric total of its
      expenses; the groups together hold the whole expense total. */
  method CategoryBreakdown(rs: seq<Record>) returns (groups: seq<Group>)
    ensures DistinctCategories(groups)
    ensures GroupCategories(groups) == set r | r in rs && r.kind == "expense" :: CategoryName(r)
    ensures forall i :: 0 <= i < |groups| ==>
      groups[i].count == ExpenseCount(rs, groups[i].category) &&
      groups[i].amount == ExpenseSum(rs, groups[i].category)
    ensures GroupAmountTotal(groups) == KindTotal(rs, "expense")
  {
    var items := BreakdownItems(rs);
    groups := GroupByCategory(items);
    BreakdownItemsCategories(rs);
    forall i | 0 <= i < |groups|
      ensures groups[i].count == ExpenseCount(rs, groups[i].category)
      ensures groups[i].amount == ExpenseSum(rs, groups[i].category)
    {
      BreakdownItemsCorrect(rs, groups[i].category);
    }
    GroupTotalsConserve(items);
    BreakdownItemsCorrect(rs, "");
  }

  // ---------------------------------------------------------------------
  // Budget analysis
  // ---------------------------------------------------------------------

  datatype BudgetEntry = BudgetEntry(category: string, limit: int, spent: int, remaining: int, percentageUsed: real)

  function AnalyseBudget(b: BudgetRecord): BudgetEntry
  {
    var spent := if b.spent.Some? then b.spent.value else 0;
    var limit := if b.limit.Some? then b.limit.value else 0;
    BudgetEntry(b.category, limit, spent, limit - spent,
                if limit > 0 then spent as real / limit as real * 100.0 else 0.0)
  }

  /** `budgets.map(...)` */
  function BudgetAnalysis(bs: seq<BudgetRecord>): (r: seq<BudgetEntry>)
    ensures |r| == |bs|
  {
    seq(|bs|, i requires 0 <= i < |bs| => AnalyseBudget(bs[i]))
  }

  /** One entry per budget in input order: non-numeric fields count as 0,
      what remains is limit minus spent, and the percentage used is 0 without
      a positive limit; otherwise it is spent over limit, and reaches 100
      exactly when the budget is used up. */
  lemma BudgetAnalysisMeaning(bs: seq<BudgetRecord>, i: int)
    requires 0 <= i < |bs|
    ensures var e := BudgetAnalysis(bs)[i];
      && e.category == bs[i].category
      && e.limit == (if bs[i].limit.Some? then bs[i].limit.value else 0)
      && e.spent == (if bs[i].spent.Some? then bs[i].spent.value else 0)
      && e.remaining == e.limit - e.spent
      && (e.limit <= 0 ==> e.percentageUsed == 0.0)
      && (e.limit > 0 ==>
            && e.percentageUsed * e.limit as real == 100.0 * e.spent as real
            && (e.percentageUsed >= 100.0 <==> e.remaining <= 0))
  {
    var e := BudgetAnalysis(bs)[i];
    assert e == AnalyseBudget(bs[i]);
    if e.limit > 0 {
      var l := e.limit as real;
      var p := e.spent as real / l * 100.0;
      assert e.percentageUsed == p;
      PercentageScales(e.spent as real, l);
      ScaleOrder(p, 100.0, l);
      assert 100.0 * l == 100.0 * e.limit as real;
    }
  }

  // ---------------------------------------------------------------------
  // Three-month trend
  // ---------------------------------------------------------------------

  /** A month of the trend; `None` stands for NaN, which the raw `+` of an
      undefined or NaN amount produces and which then spreads to the savings. */
  datatype Trend = Trend(month: YearMonth, expenses: Option<int>, income: Option<int>, savings: Option<int>)

  /** `reduce((sum, tx) => sum + tx.amount, 0)` over the records of one type:
      NaN as soon as one of them has an undefined or NaN amount. */
  function RawTotal(rs: seq<Record>, kind: string): Option<int>
  {
    if rs == [] then Some(0)
    else
      var pre := RawTotal(rs[..|rs| - 1], kind);
      var r := rs[|rs| - 1];
      if r.kind != kind then pre
      else if pre.Some? && r.amount.Some? then Some(pre.value + r.amount.value)
      else None
  }

  /** The raw total is NaN exactly when some record of that type has an
      undefined or NaN amount, and otherwise agrees with the guarded total. */
  lemma {:induction false} RawTotalMeaning(rs: seq<Record>, kind: string)
    ensures RawTotal(rs, kind).None? <==> exists r :: r in rs && r.kind == kind && r.amount.None?
    ensures RawTotal(rs, kind).Some? ==> RawTotal(rs, kind).value == KindTotal(rs, kind)
  {
    if rs != [] {
      var pre := rs[..|rs| - 1];
      RawTotalMeaning(pre, kind);
      assert rs == pre + [rs[|rs| - 1]];
    }
  }

  function Difference(income: Option<int>, expenses: Option<int>): Option<int>
  {
    if income.Some? && expenses.Some? then Some(income.value - expenses.value) else None
  }

  /** The trend entry for month `ym`. */
  function TrendFor(entries: seq<Option<Record>>, ym: YearMonth): Trend
  {
    var rs := MonthRecords(entries, ym);
    var expenses := RawTotal(rs, "expense");
    var income := RawTotal(rs, "income");
    Trend(ym, expenses, income, Difference(income, expenses))
  }

  /** `calculateSpendingTrends`: the month two back, the month before and this
      month, each from the first of the month (`new Date(y, m - i, 1)`). */
  method CalculateSpendingTrends(entries: seq<Option<Record>>, now: Date) returns (trends: seq<Trend>)
    ensures |trends| == 3
    ensures forall j :: 0 <= j < 3 ==> trends[j] == TrendFor(entries, ShiftMonth(MonthOf(now), j - 2))
  {
    trends := [];
    var i := 2;
    while i >= 0
      invariant -1 <= i <= 2
      invariant |trends| == 2 - i
      invariant forall j :: 0 <= j < |trends| ==> trends[j] == TrendFor(entries, ShiftMonth(MonthOf(now), j - 2))
    {
      var month := ShiftMonth(MonthOf(now), -i);
      var monthTx := MonthRecords(entries, month);
      var expenses := RawTotal(monthTx, "expense");
      var income := RawTotal(monthTx, "income");
      trends := trends + [Trend(month, expenses, income, Difference(income, expenses))];
      i := i - 1;
    }
  }

  /** The trend covers three consecutive months ending with `now`'s; each
      month's savings are its income minus its expenses; and when every
      amount is a number, the last entry agrees with the overview's totals. */
  lemma TrendMeaning(entries: seq<Option<Record>>, now: Date, j: int)
    requires ValidDate(now) && 0 <= j < 3
    ensures var t := TrendFor(entries, ShiftMonth(MonthOf(now), j - 2));
      && ValidMonth(t.month)
      && (j == 2 ==> t.month == MonthOf(now))
      && (j < 2 ==> NextMonth(t.month) == ShiftMonth(MonthOf(now), j - 1))
      && (t.savings.Some? <==> t.income.Some? && t.expenses.Some?)
      && (t.savings.Some? ==> t.savings.value == t.income.value - t.expenses.value)
      && ((forall r :: r in MonthRecords(entries, t.month) ==> r.amount.Some?) ==>
            t.income == Some(KindTotal(MonthRecords(entries, t.month), "income")) &&
            t.expenses == Some(KindTotal(MonthRecords(entries, t.month), "expense")))
  {
    var ym := ShiftMonth(MonthOf(now), j - 2);
    var rs := MonthRecords(entries, ym);
    RawTotalMeaning(rs, "income");
    RawTotalMeaning(rs, "expense");
    if j == 2 {
      MonthIndexInjective(ym, MonthOf(now));
    } else {
      MonthIndexInjective(NextMonth(ym), ShiftMonth(MonthOf(now), j - 1));
    }
  }

  /** As written, the trend's month filter reads `tx.date` without the
      missing-entry guard the current-month filter has, so one missing entry
      makes the whole report fail; `None` is that failure. */
  function SpendingTrendsAsWritten(entries: seq<Option<Record>>, now: Date): Option<seq<Trend>>
  {
    if None in entries then None
    else Some(seq(3, j requires 0 <= j < 3 => TrendFor(entries, ShiftMonth(MonthOf(now), j - 2))))
  }

  /** A list holding one missing entry: the current-month filter skips it,
      yet the trend fails on it. */
  lemma MissingEntryFailsAsWritten(now: Date, r: Record)
    ensures MonthRecords([None, Some(r)], MonthOf(now)) == MonthRecords([Some(r)], MonthOf(now))
    ensures SpendingTrendsAsWritten([None, Some(r)], now).None?
  {
    var es: seq<Option<Record>> := [None, Some(r)];
    var one: seq<Option<Record>> := [Some(r)];
    assert es[..1] == [None] && es[..1][..0] == [];
    assert one[..0] == [];
  }

  /** Where no entry is missing the corrected trend is what the source computes. */
  lemma TrendsAgreeWithoutMissingEntries(entries: seq<Option<Record>>, now: Date)
    requires None !in entries
    ensures SpendingTrendsAsWritten(entries, now).Some?
    ensures forall j :: 0 <= j < 3 ==>
      SpendingTrendsAsWritten(entries, now).value[j] == TrendFor(entries, ShiftMonth(MonthOf(now), j - 2))
  {
  }

  // ---------------------------------------------------------------------
  // The summary
  // ---------------------------------------------------------------------

  datatype Summary = Summary(month: YearMonth, overview: Overview, categoryBreakdown: seq<Group>,
                             budgetAnalysis: seq<BudgetEntry>, spendingTrends: seq<Trend>,
                             transactionCount: nat)

  /** `prepareFinancialSummary(transactions, budgets)` at date `now`, with the
      trend skipping missing entries. */
  method PrepareFinancialSummary(entries: seq<Option<Record>>, budgets: seq<BudgetRecord>, now: Date)
    returns (s: Summary)
    ensures var cm := MonthRecords(entries, MonthOf(now));
      && s.month == MonthOf(now)
      && s.transactionCount == |cm|
      && s.overview == MakeOverview(KindTotal(cm, "income"), KindTotal(cm, "expense"))
      && DistinctCategories(s.categoryBreakdown)
      && GroupCategories(s.categoryBreakdown) == (set r | r in cm && r.kind == "expense" :: CategoryName(r))
      && (forall i :: 0 <= i < |s.categoryBreakdown| ==>
            s.categoryBreakdown[i].count == ExpenseCount(cm, s.categoryBreakdown[i].category) &&
            s.categoryBreakdown[i].amount == ExpenseSum(cm, s.categoryBreakdown[i].category))
      && GroupAmountTotal(s.categoryBreakdown) == s.overview.totalExpenses
      && s.budgetAnalysis == BudgetAnalysis(budgets)
      && |s.spendingTrends| == 3
      && (forall j :: 0 <= j < 3 ==> s.spendingTrends[j] == TrendFor(entries, ShiftMonth(MonthOf(now), j - 2)))
  {
    var cm := MonthRecords(entries, MonthOf(now));
    var totalIncome := KindTotal(cm, "income");
    var totalExpenses := KindTotal(cm, "expense");
    var breakdown := CategoryBreakdown(cm);
    var trends := CalculateSpendingTrends(entries, now);
    s := Summary(MonthOf(now), MakeOverview(totalIncome, totalExpenses), breakdown,
                 BudgetAnalysis(budgets), trends, |cm|);
  }
}
