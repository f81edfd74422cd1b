/** The browser dashboard's ledger: the budget reconciler, the two expense
    gates, the add/delete handlers that chain them, the statistics cards, the
    budget status thresholds and the expense breakdown. */
module Dashboard {
  import opened Ledger

  // ---------------------------------------------------------------------
  // Budget reconciler
  // ---------------------------------------------------------------------

  /** The category mapping table the dashboard carries: every key maps to itself. */
  const CategoryMapping: map<string, string> :=
    map["Food & Dining" := "Food & Dining",
        "Transportation" := "Transportation",
        "Bills & Utilities" := "Bills & Utilities"]

  /** The reconciler's filter: an expense whose category matches the budget's
      directly or through the mapping table. */
  predicate CountsToward(tx: Transaction, category: string)
  {
    tx.kind == Expense &&
    (tx.category == category || (tx.category in CategoryMapping && CategoryMapping[tx.category] == category))
  }

  /** The mapping adds nothing: the filter is exact category equality. */
  lemma MappingIsIdentity(tx: Transaction, category: string)
    ensures CountsToward(tx, category) <==> tx.kind == Expense && tx.category == category
  {
  }

  /** What `updateAllBudgetsSpending` assigns to a budget of `category`. */
  function SpentFor(txs: seq<Transaction>, category: string): int
  {
    Sum(txs, (t: Transaction) => CountsToward(t, category))
  }

  /** The reconciled amount is the sum of the expenses of exactly that category. */
  lemma SpentForIsExpenseSum(txs: seq<Transaction>, category: string)
    ensures SpentFor(txs, category) == ExpensesIn(txs, category)
  {
    forall t | t in txs ensures CountsToward(t, category) == (t.kind == Expense && t.category == category) {
      MappingIsIdentity(t, category);
    }
    SumCongruent(txs, (t: Transaction) => CountsToward(t, category),
                 (t: Transaction) => t.kind == Expense && t.category == category);
  }

  /** The budget list after reconciliation. */
  function Reconciled(bs: seq<Budget>, txs: seq<Transaction>): seq<Budget>
  {
    seq(|bs|, i requires 0 <= i < |bs| => bs[i].(spent := SpentFor(txs, bs[i].category)))
  }

  /** Every budget's `spent` is the sum of its category's expenses. */
  ghost predicate Consistent(bs: seq<Budget>, txs: seq<Transaction>)
  {
    forall i :: 0 <= i < |bs| ==> bs[i].spent == ExpensesIn(txs, bs[i].category)
  }

  /** After reconciliation every budget is consistent with the transactions and
      nothing but `spent` has changed. */
  lemma ReconciledCorrect(bs: seq<Budget>, txs: seq<Transaction>)
    ensures |Reconciled(bs, txs)| == |bs|
    ensures Consistent(Reconciled(bs, txs), txs)
    ensures forall i :: 0 <= i < |bs| ==> Reconciled(bs, txs)[i] == bs[i].(spent := Reconciled(bs, txs)[i].spent)
  {
    forall i | 0 <= i < |bs| ensures Reconciled(bs, txs)[i].spent == ExpensesIn(txs, bs[i].category) {
      SpentForIsExpenseSum(txs, bs[i].category);
    }
  }

  /** Reconciling twice gives the same budgets as reconciling once. */
  lemma ReconcileIdempotent(bs: seq<Budget>, txs: seq<Transaction>)
    ensures Reconciled(Reconciled(bs, txs), txs) == Reconciled(bs, txs)
  {
  }

  /** Reconciling consistent budgets changes nothing. */
  lemma ReconcileConsistentIsNoOp(bs: seq<Budget>, txs: seq<Transaction>)
    requires Consistent(bs, txs)
    ensures Reconciled(bs, txs) == bs
  {
    forall i | 0 <= i < |bs| ensures Reconciled(bs, txs)[i] == bs[i] {
      SpentForIsExpenseSum(txs, bs[i].category);
    }
  }

  // ---------------------------------------------------------------------
  // Expense gates
  // ---------------------------------------------------------------------

  /** `canAddExpense(expenseAmount)`: the balance may not go negative. */
  function CanAddExpense(txs: seq<Transaction>, amount: int): (r: bool)
    ensures r <==> Balance(txs) - amount >= 0 && Balance(txs) >= 0
  {
    var balance := IncomeTotal(txs) - ExpenseTotal(txs);
    if balance - amount < 0 then false else balance >= 0
  }

  /** With the default amount 0 the gate is "the balance is non-negative";
      for a non-negative amount it is "the balance covers the amount". */
  lemma CanAddExpenseReading(txs: seq<Transaction>, amount: int)
    requires amount >= 0
    ensures CanAddExpense(txs, 0) <==> Balance(txs) >= 0
    ensures CanAddExpense(txs, amount) <==> Balance(txs) >= amount
  {
  }

  /** An expense the balance gate accepts leaves a non-negative balance. */
  lemma AcceptedExpenseKeepsBalance(txs: seq<Transaction>, tx: Transaction)
    requires tx.kind == Expense && CanAddExpense(txs, tx.amount)
    ensures Balance([tx] + txs) >= 0
  {
    SumAppend([tx], txs, IsIncome);
    SumAppend([tx], txs, IsExpense);
  }

  /** `categoryMapping[category] || category` */
  function MapCategory(category: string): (r: string)
    ensures r == category
  {
    if category in CategoryMapping && CategoryMapping[category] != "" then CategoryMapping[category] else category
  }

  /** Index of the first budget of `category` (`budgets.find`). */
  function FindBudget(bs: seq<Budget>, category: string): (r: Option<nat>)
    ensures r.Some? ==> r.value < |bs| && bs[r.value].category == category
    ensures r.Some? ==> forall j :: 0 <= j < r.value ==> bs[j].category != category
    ensures r.None? ==> forall j :: 0 <= j < |bs| ==> bs[j].category != category
  {
    if bs == [] then None
    else if bs[0].category == category then Some(0)
    else match FindBudget(bs[1..], category)
      case None => None
      case Some(k) => Some(k + 1)
  }

  /** What the rejection message interpolates: the category, the limit and the
      current spend. */
  datatype LimitNotice = LimitNotice(category: string, limit: int, spent: int)

  /** `{allowed, message, remaining}`; an empty message is None. */
  datatype BudgetCheck = BudgetCheck(allowed: bool, message: Option<LimitNotice>, remaining: int)

  /** `checkBudgetLimit(category, expenseAmount)` */
  function CheckBudgetLimit(bs: seq<Budget>, category: string, amount: int): (r: BudgetCheck)
    ensures FindBudget(bs, category).None? ==> r == BudgetCheck(true, None, 0)
    ensures FindBudget(bs, category).Some? ==>
      var b := bs[FindBudget(bs, category).value];
      && (r.allowed <==> b.spent + amount <= b.limit)
      && r.remaining == b.limit - b.spent
      && (r.message.Some? <==> !r.allowed)
      && (r.message.Some? ==> r.message.value == LimitNotice(category, b.limit, b.spent))
  {
    var budgetCategory := MapCategory(category);
    match FindBudget(bs, budgetCategory)
    case None => BudgetCheck(true, None, 0)
    case Some(k) =>
      var b := bs[k];
      var currentSpent := b.spent;
      var wouldExceed := currentSpent + amount > b.limit;
      BudgetCheck(!wouldExceed,
                  if wouldExceed then Some(LimitNotice(budgetCategory, b.limit, currentSpent)) else None,
                  b.limit - currentSpent)
  }

  /** The remaining headroom does not depend on the amount asked for. */
  lemma RemainingIndependentOfAmount(bs: seq<Budget>, category: string, a1: int, a2: int)
    ensures CheckBudgetLimit(bs, category, a1).remaining == CheckBudgetLimit(bs, category, a2).remaining
  {
  }

  /** Allowing is monotone: a smaller expense is allowed whenever a larger one is. */
  lemma CheckBudgetLimitMonotone(bs: seq<Budget>, category: string, small: int, large: int)
    requires small <= large && CheckBudgetLimit(bs, category, large).allowed
    ensures CheckBudgetLimit(bs, category, small).allowed
  {
  }

  // ---------------------------------------------------------------------
  // Statistics cards and budget status
  // ---------------------------------------------------------------------

  datatype Stats = Stats(totalIncome: int, totalExpenses: int, balance: int, budgetRemaining: int)

  /** The arithmetic of `updateStats`. */
  function ComputeStats(txs: seq<Transaction>): (s: Stats)
    ensures s.totalIncome == Amounts(Filter(txs, IsIncome))
    ensures s.totalExpenses == Amounts(Filter(txs, IsExpense))
    ensures s.balance == s.totalIncome - s.totalExpenses == s.budgetRemaining
    ensures s.balance < 0 <==> !CanAddExpense(txs, 0)
  {
    var income := IncomeTotal(txs);
    var expenses := ExpenseTotal(txs);
    AmountsOfFilter(txs, IsIncome);
    AmountsOfFilter(txs, IsExpense);
    Stats(income, expenses, income - expenses, income - expenses)
  }

  /** The cards of an empty list all read zero. */
  lemma StatsEmpty()
    ensures ComputeStats([]) == Stats(0, 0, 0, 0)
  {
  }

  /** Putting one transaction at the head of the list (as adding one does)
      moves exactly its own type's total by its amount, and the balance and
      the remaining budget up for income and down for an expense. */
  lemma StatsPrepend(tx: Transaction, txs: seq<Transaction>)
    ensures var before, after := ComputeStats(txs), ComputeStats([tx] + txs);
      && after.totalIncome == before.totalIncome + (if tx.kind == Income then tx.amount else 0)
      && after.totalExpenses == before.totalExpenses + (if tx.kind == Expense then tx.amount else 0)
      && after.balance == before.balance + (if tx.kind == Income then tx.amount else -tx.amount)
      && after.budgetRemaining == after.balance
  {
    assert ([tx] + txs)[0] == tx;
    assert ([tx] + txs)[1..] == txs;
  }

  /** Number of transactions of any type in `category`
      (`getTransactionCountByCategory`). */
  function TransactionCountByCategory(txs: seq<Transaction>, category: string): (r: nat)
    ensures r <= |txs|
    ensures r == 0 <==> forall i :: 0 <= i < |txs| ==> txs[i].category != category
    ensures r == |txs| <==> forall i :: 0 <= i < |txs| ==> txs[i].category == category
    ensures r == |Filter(txs, (t: Transaction) => t.category == category)|
  {
    if txs == [] then 0
    else
      var rest := TransactionCountByCategory(txs[1..], category);
      assert forall i :: 1 <= i < |txs| ==> txs[i] == txs[1..][i - 1];
      (if txs[0].category == category then 1 else 0) + rest
  }

  /** The highlight `updateBudgetsList` gives a budget. */
  datatype Status = Exceeded | Critical | Warning | Normal

  /** Thresholds on `spent / limit * 100` (100, 90, 75), with JavaScript's
      division by zero: a positive spend over a zero limit is +Infinity, zero
      over zero is NaN and fails every comparison. */
  function BudgetStatus(spent: int, limit: int): Status
  {
    if limit == 0 then (if spent > 0 then Exceeded else Normal)
    else
      var percentage := (spent as real) / (limit as real) * 100.0;
      if percentage >= 100.0 then Exceeded
      else if percentage >= 90.0 then Critical
      else if percentage >= 75.0 then Warning
      else Normal
  }

  /** For a positive limit the thresholds are plain comparisons of the spend
      with 100%, 90% and 75% of the limit. */
  lemma BudgetStatusThresholds(spent: int, limit: int)
    requires limit > 0
    ensures BudgetStatus(spent, limit) == Exceeded <==> spent >= limit
    ensures BudgetStatus(spent, limit) == Critical <==> 10 * spent >= 9 * limit && spent < limit
    ensures BudgetStatus(spent, limit) == Warning <==> 4 * spent >= 3 * limit && 10 * spent < 9 * limit
    ensures BudgetStatus(spent, limit) == Normal <==> 4 * spent < 3 * limit
  {
    var s, l := spent as real, limit as real;
    var q := s / l;
    assert q * l == s;
    var p := q * 100.0;
    assert p * l == 100.0 * s by {
      assert p * l == (q * l) * 100.0;
    }
    ScaleCompare(p, 100.0, l, 100.0 * s);
    ScaleCompare(p, 90.0, l, 100.0 * s);
    ScaleCompare(p, 75.0, l, 100.0 * s);
  }

  /** Multiplying both sides by a positive number keeps a comparison. */
  lemma ScaleCompare(a: real, b: real, l: real, product: real)
    requires l > 0.0 && a * l == product
    ensures a >= b <==> product >= b * l
  {
    if a >= b {
      assert (a - b) * l >= 0.0;
    } else {
      assert (b - a) * l > 0.0;
    }
  }

  // ---------------------------------------------------------------------
  // Expense breakdown
  // ---------------------------------------------------------------------

  /** The fixed colour table of `getBudgetColor`; None where the source picks a
      random palette colour. */
  function CategoryColor(category: string): Option<string>
  {
    if category == "Food & Dining" then Some("#f59e0b")
    else if category == "Transportation" then Some("#3b82f6")
    else if category == "Shopping" then Some("#ec4899")
    else if category == "Entertainment" then Some("#8b5cf6")
    else if category == "Bills & Utilities" then Some("#10b981")
    else if category == "Healthcare" then Some("#ef4444")
    else if category == "Other" then Some("#6b7280")
    else None
  }

  datatype BreakdownEntry = BreakdownEntry(category: string, amount: int, percentage: real, color: Option<string>)

  function Percentage(amount: int, total: int): real
    requires total != 0
  {
    (amount as real) / (total as real) * 100.0
  }

  function ToEntries(gs: seq<Group>, total: int): (es: seq<BreakdownEntry>)
    requires total != 0
    ensures |es| == |gs|
    ensures forall i :: 0 <= i < |gs| ==>
      es[i] == BreakdownEntry(gs[i].category, gs[i].amount, Percentage(gs[i].amount, total), CategoryColor(gs[i].category))
  {
    seq(|gs|, i requires 0 <= i < |gs| =>
      BreakdownEntry(gs[i].category, gs[i].amount, Percentage(gs[i].amount, total), CategoryColor(gs[i].category)))
  }

  predicate SortedByAmountDesc(es: seq<BreakdownEntry>)
  {
    forall i, j :: 0 <= i < j < |es| ==> es[i].amount >= es[j].amount
  }

  /** Places `e` before the first entry whose amount is not larger, so that
      among equal amounts earlier entries stay first. */
  function InsertByAmount(e: BreakdownEntry, es: seq<BreakdownEntry>): seq<BreakdownEntry>
  {
    if es == [] then [e]
    else if es[0].amount > e.amount then [es[0]] + InsertByAmount(e, es[1..])
    else [e] + es
  }

  /** `sort((a, b) => b.amount - a.amount)`, stably. */
  function SortByAmountDesc(es: seq<BreakdownEntry>): seq<BreakdownEntry>
  {
    if es == [] then [] else InsertByAmount(es[0], SortByAmountDesc(es[1..]))
  }

  lemma {:induction false} InsertByAmountMultiset(e: BreakdownEntry, es: seq<BreakdownEntry>)
    ensures multiset(InsertByAmount(e, es)) == multiset(es) + multiset{e}
  {
    if es != [] && es[0].amount > e.amount {
      var rest := InsertByAmount(e, es[1..]);
      InsertByAmountMultiset(e, es[1..]);
      assert InsertByAmount(e, es) == [es[0]] + rest;
      assert multiset([es[0]] + rest) == multiset{es[0]} + multiset(rest);
      assert es == [es[0]] + es[1..];
      assert multiset(es) == multiset{es[0]} + multiset(es[1..]);
    }
  }

  lemma {:induction false} InsertByAmountSorted(e: BreakdownEntry, es: seq<BreakdownEntry>)
    requires SortedByAmountDesc(es)
    ensures SortedByAmountDesc(InsertByAmount(e, es))
    ensures |InsertByAmount(e, es)| == |es| + 1
    ensures InsertByAmount(e, es)[0] == e || (es != [] && InsertByAmount(e, es)[0] == es[0])
  {
    if es != [] && es[0].amount > e.amount {
      var tail := es[1..];
      InsertByAmountSorted(e, tail);
      var r := InsertByAmount(e, tail);
      assert tail != [] ==> es[0].amount >= tail[0].amount;
      assert es[0].amount >= r[0].amount;
      var out := [es[0]] + r;
      forall i, j | 0 <= i < j < |out| ensures out[i].amount >= out[j].amount {
        if i == 0 {
          assert out[j] == r[j - 1];
          assert r[0].amount >= r[j - 1].amount || j - 1 == 0;
        } else {
          assert out[i] == r[i - 1] && out[j] == r[j - 1];
        }
      }
    }
  }

  lemma {:induction false} SortByAmountDescCorrect(es: seq<BreakdownEntry>)
    ensures SortedByAmountDesc(SortByAmountDesc(es))
    ensures multiset(SortByAmountDesc(es)) == multiset(es)
  {
    if es != [] {
      SortByAmountDescCorrect(es[1..]);
      InsertByAmountSorted(es[0], SortByAmountDesc(es[1..]));
      InsertByAmountMultiset(es[0], SortByAmountDesc(es[1..]));
      assert es == [es[0]] + es[1..];
    }
  }

  /** The unsorted breakdown: one entry per expense category with that
      category's expense sum, share and colour. */
  lemma BreakdownEntriesCorrect(txs: seq<Transaction>, gs: seq<Group>, total: int)
    requires total == ExpenseTotal(txs) && total != 0
    requires GroupsOf(gs, ExpenseItems(txs))
    ensures forall e :: e in ToEntries(gs, total) ==>
      e.amount == ExpensesIn(txs, e.category) &&
      e.percentage == Percentage(e.amount, total) &&
      e.color == CategoryColor(e.category)
    ensures (set e | e in ToEntries(gs, total) :: e.category) == (set t | t in txs && t.kind == Expense :: t.category)
  {
    var es := ToEntries(gs, total);
    forall e | e in es
      ensures e.amount == ExpensesIn(txs, e.category)
    {
      var i :| 0 <= i < |es| && es[i] == e;
      ExpenseItemsSums(txs, e.category);
    }
    ExpenseItemsCategories(txs);
    assert (set e | e in es :: e.category) == GroupCategories(gs) by {
      forall c | c in GroupCategories(gs) ensures c in (set e | e in es :: e.category) {
        var g :| g in gs && g.category == c;
        var i :| 0 <= i < |gs| && gs[i] == g;
        assert es[i] in es;
      }
    }
  }

  /** An element occurring twice in a sequence sits at two different indices. */
  lemma MultiplicityTwo(s: seq<BreakdownEntry>, x: BreakdownEntry)
    requires multiset(s)[x] >= 2
    ensures exists a, b :: 0 <= a < b < |s| && s[a] == x && s[b] == x
  {
    var a :| 0 <= a < |s| && s[a] == x;
    assert s == s[..a] + [x] + s[a + 1..];
    assert multiset(s[..a] + s[a + 1..])[x] >= 1;
    assert x in s[..a] || x in s[a + 1..];
    if x in s[..a] {
      var b :| 0 <= b < a && s[..a][b] == x;
      assert s[b] == x;
    } else {
      var b :| 0 <= b < |s| - a - 1 && s[a + 1..][b] == x;
      assert s[a + 1 + b] == x;
    }
  }

  /** A permutation of entries with distinct categories has distinct categories. */
  lemma DistinctAfterSort(unsorted: seq<BreakdownEntry>, sorted: seq<BreakdownEntry>, i: nat, j: nat)
    requires multiset(sorted) == multiset(unsorted)
    requires forall a, b :: 0 <= a < b < |unsorted| ==> unsorted[a].category != unsorted[b].category
    requires i < j < |sorted|
    ensures sorted[i].category != sorted[j].category
  {
    if sorted[i].category == sorted[j].category {
      var x, y := sorted[i], sorted[j];
      assert x in multiset(unsorted) && y in multiset(unsorted);
      var a :| 0 <= a < |unsorted| && unsorted[a] == x;
      var b :| 0 <= b < |unsorted| && unsorted[b] == y;
      if a == b {
        assert multiset(sorted)[x] >= 2 by {
          assert sorted == sorted[..i] + [x] + sorted[i + 1..j] + [x] + sorted[j + 1..];
        }
        MultiplicityTwo(unsorted, x);
      }
    }
  }

  /** `getExpenseBreakdown`: per-category expense totals with their share of
      all expenses, largest first; nothing when the expenses sum to zero. */
  method GetExpenseBreakdown(txs: seq<Transaction>) returns (entries: seq<BreakdownEntry>)
    ensures ExpenseTotal(txs) == 0 ==> entries == []
    ensures ExpenseTotal(txs) != 0 ==>
      && SortedByAmountDesc(entries)
      && (set e | e in entries :: e.category) == (set t | t in txs && t.kind == Expense :: t.category)
      && (forall i, j :: 0 <= i < j < |entries| ==> entries[i].category != entries[j].category)
      && (forall e :: e in entries ==>
            e.amount == ExpensesIn(txs, e.category) &&
            e.percentage == Percentage(e.amount, ExpenseTotal(txs)) &&
            e.color == CategoryColor(e.category))
  {
    var total := ExpenseTotal(txs);
    if total == 0 {
      return [];
    }
    var items := ExpenseItems(txs);
    var groups := GroupByCategory(items);
    var unsorted := ToEntries(groups, total);
    entries := SortByAmountDesc(unsorted);

    SortByAmountDescCorrect(unsorted);
    BreakdownEntriesCorrect(txs, groups, total);
    assert forall e :: e in entries <==> e in unsorted by {
      assert forall e :: e in entries <==> e in multiset(entries);
      assert forall e :: e in unsorted <==> e in multiset(unsorted);
    }
    assert (set e | e in entries :: e.category) == (set e | e in unsorted :: e.category);
    forall i, j | 0 <= i < j < |entries| ensures entries[i].category != entries[j].category {
      DistinctAfterSort(unsorted, entries, i, j);
    }
  }

  // ---------------------------------------------------------------------
  // The dashboard's ledger and its handlers
  // ---------------------------------------------------------------------

  /** Outcome of `handleAddBudget`. */
  datatype BudgetOutcome =
    | LimitNotPositive
    | AlreadyExceeded(existing: int, limit: int)
    | NotConfirmed
    | BudgetAdded(askedToConfirm: bool)

  /** The validation chain of `handleAddBudget`: a positive limit, existing
      expenses not above it, and a confirmation when they are above 90%. */
  function BudgetGate(txs: seq<Transaction>, category: string, limit: int, confirmed: bool): (r: BudgetOutcome)
    ensures r.BudgetAdded? <==>
      limit > 0 && ExpensesIn(txs, category) <= limit && (10 * ExpensesIn(txs, category) <= 9 * limit || confirmed)
    ensures r.AlreadyExceeded? <==> limit > 0 && ExpensesIn(txs, category) > limit
    ensures r.BudgetAdded? ==> (r.askedToConfirm <==> 10 * ExpensesIn(txs, category) > 9 * limit)
  {
    var existing := ExpensesIn(txs, category);
    if limit <= 0 then LimitNotPositive
    else if existing > limit then AlreadyExceeded(existing, limit)
    else if 10 * existing > 9 * limit && !confirmed then NotConfirmed
    else BudgetAdded(10 * existing > 9 * limit)
  }

  /** Outcome of `handleAddTransaction`. */
  datatype TransactionOutcome =
    | InsufficientFunds
    | OverBudget(notice: LimitNotice)
    | TransactionAdded(warned: bool)

  /** The validation chain of `handleAddTransaction`: an expense passes the
      balance gate, then the budget gate; income passes unchecked.  The
      warning fires when under 20% of the remaining headroom would be left. */
  function TransactionGate(txs: seq<Transaction>, bs: seq<Budget>, tx: Transaction): TransactionOutcome
  {
    if tx.kind == Expense then
      if !CanAddExpense(txs, tx.amount) then InsufficientFunds
      else
        var check := CheckBudgetLimit(bs, tx.category, tx.amount);
        if !check.allowed then OverBudget(check.message.value)
        else TransactionAdded(check.remaining != 0 && 5 * (check.remaining - tx.amount) < check.remaining)
    else TransactionAdded(false)
  }

  /** What the two gates guarantee about an accepted expense: the balance
      stays non-negative and, when the budgets were reconciled, the first
      budget of its category stays within its limit after reconciliation. */
  lemma TransactionGateSound(txs: seq<Transaction>, bs: seq<Budget>, tx: Transaction)
    requires Consistent(bs, txs)
    requires tx.kind == Expense && TransactionGate(txs, bs, tx).TransactionAdded?
    ensures Balance([tx] + txs) >= 0
    ensures FindBudget(bs, tx.category).Some? ==>
      var k := FindBudget(bs, tx.category).value;
      Reconciled(bs, [tx] + txs)[k].spent <= bs[k].limit
  {
    AcceptedExpenseKeepsBalance(txs, tx);
    if FindBudget(bs, tx.category).Some? {
      var k := FindBudget(bs, tx.category).value;
      SpentForIsExpenseSum([tx] + txs, tx.category);
      ExpensesInAppend([tx], txs, tx.category);
    }
  }

  /** The gates pass income through and reject an expense that the balance
      cannot cover, whatever the budgets. */
  lemma TransactionGateCases(txs: seq<Transaction>, bs: seq<Budget>, tx: Transaction)
    ensures tx.kind == Income ==> TransactionGate(txs, bs, tx) == TransactionAdded(false)
    ensures tx.kind == Expense && Balance(txs) < tx.amount && tx.amount >= 0 ==>
      TransactionGate(txs, bs, tx) == InsufficientFunds
  {
  }

  /** `transactions.filter(tx => (tx.id || tx._id) != transactionId)` */
  function WithoutId(txs: seq<Transaction>, id: string): seq<Transaction>
  {
    if txs == [] then []
    else (if txs[0].id != id then [txs[0]] else []) + WithoutId(txs[1..], id)
  }

  /** Delete keeps exactly the other transactions, in their original order. */
  lemma {:induction false} WithoutIdCorrect(txs: seq<Transaction>, id: string)
    ensures forall t :: t in WithoutId(txs, id) <==> t in txs && t.id != id
    ensures forall a, b :: WithoutId(a + b, id) == WithoutId(a, id) + WithoutId(b, id)
    ensures WithoutId(WithoutId(txs, id), id) == WithoutId(txs, id)
  {
    forall a, b ensures WithoutId(a + b, id) == WithoutId(a, id) + WithoutId(b, id) {
      WithoutIdAppend(a, b, id);
    }
    WithoutIdMembers(txs, id);
    WithoutIdIdempotent(txs, id);
  }

  lemma {:induction false} WithoutIdAppend(a: seq<Transaction>, b: seq<Transaction>, id: string)
    ensures WithoutId(a + b, id) == WithoutId(a, id) + WithoutId(b, id)
  {
    if a == [] {
      assert a + b == b;
    } else {
      assert (a + b)[1..] == a[1..] + b;
      WithoutIdAppend(a[1..], b, id);
    }
  }

  lemma {:induction false} WithoutIdMembers(txs: seq<Transaction>, id: string)
    ensures forall t :: t in WithoutId(txs, id) <==> t in txs && t.id != id
  {
    if txs != [] {
      WithoutIdMembers(txs[1..], id);
      assert txs == [txs[0]] + txs[1..];
    }
  }

  lemma {:induction false} WithoutIdIdempotent(txs: seq<Transaction>, id: string)
    ensures WithoutId(WithoutId(txs, id), id) == WithoutId(txs, id)
  {
    if txs != [] {
      WithoutIdIdempotent(txs[1..], id);
      var head := if txs[0].id != id then [txs[0]] else [];
      WithoutIdAppend(head, WithoutId(txs[1..], id), id);
    }
  }

  /** The dashboard's in-memory state: the transaction list (newest first) and
      the budget array whose `spent` fields the reconciler rewrites in place. */
  class ClientLedger {
    var transactions: seq<Transaction>
    var budgets: array<Budget>

    /** `loadDashboardData`: take the fetched lists and reconcile. */
    constructor Load(txs: seq<Transaction>, bs: seq<Budget>)
      ensures transactions == txs
      ensures budgets[..] == Reconciled(bs, txs)
      ensures fresh(budgets)
    {
      transactions := txs;
      budgets := new Budget[|bs|](i requires 0 <= i < |bs| => bs[i]);
      new;
      UpdateAllBudgetsSpending();
    }

    /** `updateAllBudgetsSpending`: reset and recompute every budget's `spent`. */
    method UpdateAllBudgetsSpending()
      modifies budgets
      ensures budgets[..] == Reconciled(old(budgets[..]), transactions)
    {
      var i := 0;
      while i < budgets.Length
        invariant 0 <= i <= budgets.Length
        invariant forall k :: 0 <= k < i ==>
          budgets[k] == old(budgets[k]).(spent := SpentFor(transactions, old(budgets[k]).category))
        invariant forall k :: i <= k < budgets.Length ==> budgets[k] == old(budgets[k])
      {
        var budget := budgets[i];
        budgets[i] := budget.(spent := 0);
        budgets[i] := budget.(spent := SpentFor(transactions, budget.category));
        i := i + 1;
      }
    }

    /** `handleAddBudget`: validate, push the new budget seeded with the
        existing spend, and reconcile.  The budget is pushed whether or not the
        server accepts it (a refusal is an HTTP error, which falls through to
        the offline path). */
    method AddBudget(id: string, category: string, limit: int, color: string, confirmed: bool)
      returns (outcome: BudgetOutcome)
      modifies this
      ensures outcome == BudgetGate(transactions, category, limit, confirmed)
      ensures transactions == old(transactions)
      ensures outcome.BudgetAdded? ==>
        fresh(budgets) &&
        budgets[..] == Reconciled(old(budgets[..]) + [Budget(id, category, limit, ExpensesIn(transactions, category), color)], transactions)
      ensures !outcome.BudgetAdded? ==> budgets == old(budgets) && budgets[..] == old(budgets[..])
    {
      if limit <= 0 {
        return LimitNotPositive;
      }
      var existing := ExpensesIn(transactions, category);
      if existing > limit {
        return AlreadyExceeded(existing, limit);
      }
      var asked := 10 * existing > 9 * limit;
      if asked && !confirmed {
        return NotConfirmed;
      }
      var s := budgets[..] + [Budget(id, category, limit, existing, color)];
      budgets := new Budget[|s|](i requires 0 <= i < |s| => s[i]);
      UpdateAllBudgetsSpending();
      outcome := BudgetAdded(asked);
    }

    /** `handleAddTransaction`: run the gates, put the record first, reconcile. */
    method AddTransaction(tx: Transaction) returns (outcome: TransactionOutcome)
      modifies this, budgets
      ensures outcome == TransactionGate(old(transactions), old(budgets[..]), tx)
      ensures budgets == old(budgets)
      ensures outcome.TransactionAdded? ==>
        transactions == [tx] + old(transactions) && budgets[..] == Reconciled(old(budgets[..]), transactions)
      ensures !outcome.TransactionAdded? ==>
        transactions == old(transactions) && budgets[..] == old(budgets[..])
    {
      var warned := false;
      if tx.kind == Expense {
        if !CanAddExpense(transactions, tx.amount) {
          return InsufficientFunds;
        }
        var check := CheckBudgetLimit(budgets[..], tx.category, tx.amount);
        if !check.allowed {
          return OverBudget(check.message.value);
        }
        warned := check.remaining != 0 && 5 * (check.remaining - tx.amount) < check.remaining;
      }
      transactions := [tx] + transactions;
      UpdateAllBudgetsSpending();
      outcome := TransactionAdded(warned);
    }

    /** `handleDeleteTransaction`: once confirmed, drop every record with the
        id and reconcile (the offline path does the same). */
    method DeleteTransaction(id: string, confirmed: bool)
      modifies this, budgets
      ensures budgets == old(budgets)
      ensures confirmed ==>
        transactions == WithoutId(old(transactions), id) && budgets[..] == Reconciled(old(budgets[..]), transactions)
      ensures !confirmed ==> transactions == old(transactions) && budgets[..] == old(budgets[..])
    {
      if !confirmed {
        return;
      }
      transactions := WithoutId(transactions, id);
      UpdateAllBudgetsSpending();
    }
  }
}
