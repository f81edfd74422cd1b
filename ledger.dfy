/** Shared data model of the budgeting application: transactions, budgets,
    the sums every component takes over them, and the "group by category in
    first-seen order" accumulation that the dashboard, the charts and the
    report all perform.  Amounts are whole paise. */
module Ledger {

  datatype Option<T> = None | Some(value: T)

  function Min(a: int, b: int): int { if a <= b then a else b }

  /** A transaction is either income or an expense. */
  datatype Kind = Income | Expense

  /** A calendar date as the source stores it ('YYYY-MM-DD'): month 1..12. */
  datatype Date = Date(year: int, month: int, day: int)

  /** A transaction record as the browser holds it.  The source reads the
      identifier as `id || _id`; here it is one canonical field. */
  datatype Transaction = Transaction(
    id: string, kind: Kind, category: string, amount: int, date: Date, description: string)

  /** A budget record: `spent` is derived from the transactions. */
  datatype Budget = Budget(id: string, category: string, limit: int, spent: int, color: string)

  /** Sum of the amounts of the transactions that satisfy `p`, left to right. */
  function Sum(txs: seq<Transaction>, p: Transaction -> bool): int
  {
    if txs == [] then 0
    else (if p(txs[0]) then txs[0].amount else 0) + Sum(txs[1..], p)
  }

  lemma {:induction false} SumAppend(a: seq<Transaction>, b: seq<Transaction>, p: Transaction -> bool)
    ensures Sum(a + b, p) == Sum(a, p) + Sum(b, p)
  {
    if a == [] {
      assert a + b == b;
    } else {
      assert (a + b)[1..] == a[1..] + b;
      SumAppend(a[1..], b, p);
    }
  }

  /** Sums agree on lists whose elements agree on the predicate and amount. */
  lemma {:induction false} SumCongruent(txs: seq<Transaction>, p: Transaction -> bool, q: Transaction -> bool)
    requires forall t :: t in txs ==> p(t) == q(t)
    ensures Sum(txs, p) == Sum(txs, q)
  {
    if txs != [] {
      SumCongruent(txs[1..], p, q);
    }
  }

  /** A sum over a predicate that splits into two disjoint ones splits too. */
  lemma {:induction false} SumDisjoint(txs: seq<Transaction>, p: Transaction -> bool, q: Transaction -> bool, r: Transaction -> bool)
    requires forall t :: t in txs ==> (r(t) <==> p(t) || q(t)) && !(p(t) && q(t))
    ensures Sum(txs, r) == Sum(txs, p) + Sum(txs, q)
  {
    if txs != [] {
      assert txs[0] in txs;
      assert forall t :: t in txs[1..] ==> t in txs;
      SumDisjoint(txs[1..], p, q, r);
    }
  }

  /** The transactions satisfying `p`, in list order (`Array.prototype.filter`). */
  function Filter(txs: seq<Transaction>, p: Transaction -> bool): seq<Transaction>
  {
    if txs == [] then [] else (if p(txs[0]) then [txs[0]] else []) + Filter(txs[1..], p)
  }

  /** The filter keeps exactly the satisfying elements and distributes over
      concatenation, so their order is kept. */
  lemma {:induction false} FilterCorrect(txs: seq<Transaction>, p: Transaction -> bool)
    ensures forall t :: t in Filter(txs, p) <==> t in txs && p(t)
    ensures |Filter(txs, p)| <= |txs|
  {
    if txs != [] {
      FilterCorrect(txs[1..], p);
      assert txs == [txs[0]] + txs[1..];
    }
  }

  lemma {:induction false} FilterAppend(a: seq<Transaction>, b: seq<Transaction>, p: Transaction -> bool)
    ensures Filter(a + b, p) == Filter(a, p) + Filter(b, p)
  {
    if a == [] {
      assert a + b == b;
    } else {
      var head := if p(a[0]) then [a[0]] else [];
      assert (a + b)[0] == a[0];
      assert (a + b)[1..] == a[1..] + b;
      assert Filter(a + b, p) == head + Filter(a[1..] + b, p);
      FilterAppend(a[1..], b, p);
      assert Filter(a, p) == head + Filter(a[1..], p);
      assert head + (Filter(a[1..], p) + Filter(b, p)) == (head + Filter(a[1..], p)) + Filter(b, p);
    }
  }

  /** Summing after filtering by `p` is summing over `p`. */
  lemma {:induction false} SumFilter(txs: seq<Transaction>, p: Transaction -> bool, q: Transaction -> bool)
    ensures Sum(Filter(txs, p), q) == Sum(txs, (t: Transaction) => p(t) && q(t))
  {
    if txs != [] {
      var head := if p(txs[0]) then [txs[0]] else [];
      SumFilter(txs[1..], p, q);
      SumAppend(head, Filter(txs[1..], p), q);
    }
  }

  /** `reduce((sum, t) => sum + t.amount, 0)` over a whole list. */
  function Amounts(txs: seq<Transaction>): int
  {
    if txs == [] then 0 else txs[0].amount + Amounts(txs[1..])
  }

  /** Filtering by `p` and then adding up every amount is the sum over `p`. */
  lemma {:induction false} AmountsOfFilter(txs: seq<Transaction>, p: Transaction -> bool)
    ensures Amounts(Filter(txs, p)) == Sum(txs, p)
  {
    if txs != [] {
      AmountsOfFilter(txs[1..], p);
      var rest := Filter(txs[1..], p);
      if p(txs[0]) {
        assert Filter(txs, p) == [txs[0]] + rest;
        assert ([txs[0]] + rest)[1..] == rest;
      } else {
        assert Filter(txs, p) == [] + rest;
        assert [] + rest == rest;
      }
    }
  }

  predicate IsIncome(t: Transaction) { t.kind == Income }
  predicate IsExpense(t: Transaction) { t.kind == Expense }

  /** `transactions.filter(type === 'income').reduce(+ amount)` */
  function IncomeTotal(txs: seq<Transaction>): int { Sum(txs, IsIncome) }

  /** `transactions.filter(type === 'expense').reduce(+ amount)` */
  function ExpenseTotal(txs: seq<Transaction>): int { Sum(txs, IsExpense) }

  /** Income minus expenses over the whole list. */
  function Balance(txs: seq<Transaction>): int { IncomeTotal(txs) - ExpenseTotal(txs) }

  /** Sum of the expense amounts whose category is exactly `category`. */
  function ExpensesIn(txs: seq<Transaction>, category: string): int
  {
    Sum(txs, (t: Transaction) => t.kind == Expense && t.category == category)
  }

  lemma ExpensesInAppend(a: seq<Transaction>, b: seq<Transaction>, category: string)
    ensures ExpensesIn(a + b, category) == ExpensesIn(a, category) + ExpensesIn(b, category)
  {
    SumAppend(a, b, (t: Transaction) => t.kind == Expense && t.category == category);
  }

  // ---------------------------------------------------------------------
  // Grouping by category, in first-seen order
  // ---------------------------------------------------------------------

  /** One (category, amount) contribution to a grouping. */
  datatype Item = Item(category: string, amount: int)

  /** A running group: the summed amount and the number of contributions. */
  datatype Group = Group(category: string, amount: int, count: nat)

  /** Index of the group for `c`, if any (first match). */
  function FindGroup(gs: seq<Group>, c: string): (r: Option<nat>)
    ensures r.Some? ==> r.value < |gs| && gs[r.value].category == c
    ensures r.Some? ==> forall j :: 0 <= j < r.value ==> gs[j].category != c
    ensures r.None? ==> forall j :: 0 <= j < |gs| ==> gs[j].category != c
  {
    if gs == [] then None
    else if gs[0].category == c then Some(0)
    else match FindGroup(gs[1..], c)
      case None => None
      case Some(k) => Some(k + 1)
  }

  /** One step of the source's `if (!map[c]) map[c] = 0; map[c] += amount`:
      the existing group grows in place, a new category is appended. */
  function AddItem(gs: seq<Group>, it: Item): seq<Group>
  {
    match FindGroup(gs, it.category)
    case Some(k) => gs[k := Group(it.category, gs[k].amount + it.amount, gs[k].count + 1)]
    case None => gs + [Group(it.category, it.amount, 1)]
  }

  /** The grouping of `items`, folded left to right. */
  function GroupTotals(items: seq<Item>): seq<Group>
  {
    if items == [] then [] else AddItem(GroupTotals(items[..|items| - 1]), items[|items| - 1])
  }

  /** Sum of the amounts of the items in category `c`. */
  function ItemSum(items: seq<Item>, c: string): int
  {
    if items == [] then 0
    else ItemSum(items[..|items| - 1], c) + (if items[|items| - 1].category == c then items[|items| - 1].amount else 0)
  }

  /** Number of items in category `c`. */
  function ItemCount(items: seq<Item>, c: string): nat
  {
    if items == [] then 0
    else ItemCount(items[..|items| - 1], c) + (if items[|items| - 1].category == c then 1 else 0)
  }

  /** Index of the first item in category `c`; |items| when there is none. */
  function FirstSeen(items: seq<Item>, c: string): (r: nat)
    ensures r <= |items|
  {
    if items == [] then 0
    else if items[0].category == c then 0
    else 1 + FirstSeen(items[1..], c)
  }

  function GroupCategories(gs: seq<Group>): set<string>
  {
    set g | g in gs :: g.category
  }

  function ItemCategories(items: seq<Item>): set<string>
  {
    set it | it in items :: it.category
  }

  lemma {:induction false} FirstSeenFound(items: seq<Item>, c: string)
    ensures FirstSeen(items, c) < |items| <==> c in ItemCategories(items)
    ensures FirstSeen(items, c) < |items| ==> items[FirstSeen(items, c)].category == c
  {
    if items != [] && items[0].category != c {
      FirstSeenFound(items[1..], c);
      assert ItemCategories(items) == {items[0].category} + ItemCategories(items[1..]) by {
        assert items == [items[0]] + items[1..];
      }
    }
  }

  lemma {:induction false} FirstSeenSnoc(pre: seq<Item>, it: Item, c: string)
    ensures FirstSeen(pre + [it], c) ==
      if FirstSeen(pre, c) < |pre| then FirstSeen(pre, c)
      else if it.category == c then |pre| else |pre| + 1
  {
    if pre == [] {
    } else {
      assert (pre + [it])[1..] == pre[1..] + [it];
      FirstSeenSnoc(pre[1..], it, c);
    }
  }

  lemma ItemCategoriesSnoc(pre: seq<Item>, it: Item)
    ensures ItemCategories(pre + [it]) == ItemCategories(pre) + {it.category}
  {
    assert forall x :: x in pre + [it] <==> x in pre || x == it;
  }

  predicate DistinctCategories(gs: seq<Group>)
  {
    forall i, j :: 0 <= i < j < |gs| ==> gs[i].category != gs[j].category
  }

  /** What the grouping means: categories are distinct and are exactly the
      categories of the items; each group holds its category's sum and count;
      and the groups appear in the order their categories were first seen. */
  ghost predicate GroupsOf(gs: seq<Group>, items: seq<Item>)
  {
    && DistinctCategories(gs)
    && GroupCategories(gs) == ItemCategories(items)
    && (forall i :: 0 <= i < |gs| ==> gs[i].amount == ItemSum(items, gs[i].category))
    && (forall i :: 0 <= i < |gs| ==> gs[i].count == ItemCount(items, gs[i].category))
    && (forall i, j :: 0 <= i < j < |gs| ==> FirstSeen(items, gs[i].category) < FirstSeen(items, gs[j].category))
  }

  lemma {:induction false} ItemSumAbsent(items: seq<Item>, c: string)
    requires c !in ItemCategories(items)
    ensures ItemSum(items, c) == 0 && ItemCount(items, c) == 0
  {
    if items != [] {
      var pre := items[..|items| - 1];
      assert items == pre + [items[|items| - 1]];
      ItemCategoriesSnoc(pre, items[|items| - 1]);
      ItemSumAbsent(pre, c);
    }
  }

  lemma GroupCategoriesUpdate(gs: seq<Group>, k: nat, g: Group)
    requires k < |gs| && g.category == gs[k].category
    ensures GroupCategories(gs[k := g]) == GroupCategories(gs)
  {
    forall x | x in GroupCategories(gs) ensures x in GroupCategories(gs[k := g]) {
      var h :| h in gs && h.category == x;
      var i :| 0 <= i < |gs| && gs[i] == h;
      assert gs[k := g][i].category == x;
    }
    forall x | x in GroupCategories(gs[k := g]) ensures x in GroupCategories(gs) {
      var h :| h in gs[k := g] && h.category == x;
      var i :| 0 <= i < |gs| && gs[k := g][i] == h;
      assert gs[i].category == x;
    }
  }

  lemma GroupCategoriesSnoc(gs: seq<Group>, g: Group)
    ensures GroupCategories(gs + [g]) == GroupCategories(gs) + {g.category}
  {
    assert forall x :: x in gs + [g] <==> x in gs || x == g;
  }

  lemma FindGroupAbsent(gs: seq<Group>, c: string)
    requires FindGroup(gs, c).None?
    ensures c !in GroupCategories(gs)
  {
    forall g | g in gs ensures g.category != c {
      var i :| 0 <= i < |gs| && gs[i] == g;
    }
  }

  /** Adding an item adds its category to the groups' categories. */
  lemma AddItemCategories(gs: seq<Group>, it: Item)
    ensures GroupCategories(AddItem(gs, it)) == GroupCategories(gs) + {it.category}
  {
    match FindGroup(gs, it.category)
    case Some(k) =>
      GroupCategoriesUpdate(gs, k, Group(it.category, gs[k].amount + it.amount, gs[k].count + 1));
      assert gs[k] in gs;
    case None =>
      GroupCategoriesSnoc(gs, Group(it.category, it.amount, 1));
  }

  /** The categories of the groups are those of the items. */
  lemma {:induction false} GroupTotalsCategories(items: seq<Item>)
    ensures GroupCategories(GroupTotals(items)) == ItemCategories(items)
  {
    if items != [] {
      var n := |items| - 1;
      var pre, it := items[..n], items[n];
      assert items == pre + [it];
      assert GroupTotals(items) == AddItem(GroupTotals(pre), it);
      GroupTotalsCategories(pre);
      ItemCategoriesSnoc(pre, it);
      AddItemCategories(GroupTotals(pre), it);
    }
  }

  /** No category is grouped twice. */
  lemma {:induction false} GroupTotalsDistinct(items: seq<Item>)
    ensures DistinctCategories(GroupTotals(items))
  {
    if items != [] {
      var n := |items| - 1;
      GroupTotalsDistinct(items[..n]);
    }
  }

  /** Each group holds its category's sum and count. */
  lemma {:induction false} GroupTotalsSums(items: seq<Item>)
    ensures forall i :: 0 <= i < |GroupTotals(items)| ==>
      GroupTotals(items)[i].amount == ItemSum(items, GroupTotals(items)[i].category) &&
      GroupTotals(items)[i].count == ItemCount(items, GroupTotals(items)[i].category)
  {
    if items != [] {
      var n := |items| - 1;
      var pre, it := items[..n], items[n];
      assert items == pre + [it];
      var gs := GroupTotals(pre);
      var gs' := GroupTotals(items);
      GroupTotalsSums(pre);
      GroupTotalsDistinct(pre);
      forall c ensures ItemSum(items, c) == ItemSum(pre, c) + (if it.category == c then it.amount else 0)
                    && ItemCount(items, c) == ItemCount(pre, c) + (if it.category == c then 1 else 0) {
      }
      match FindGroup(gs, it.category)
      case Some(k) => {
        assert gs' == gs[k := Group(it.category, gs[k].amount + it.amount, gs[k].count + 1)];
        forall i | 0 <= i < |gs'|
          ensures gs'[i].amount == ItemSum(items, gs'[i].category) && gs'[i].count == ItemCount(items, gs'[i].category)
        {
          if i != k { assert gs'[i] == gs[i] && gs[i].category != it.category; }
        }
      }
      case None => {
        assert gs' == gs + [Group(it.category, it.amount, 1)];
        GroupTotalsCategories(pre);
        FindGroupAbsent(gs, it.category);
        ItemSumAbsent(pre, it.category);
        forall i | 0 <= i < |gs'|
          ensures gs'[i].amount == ItemSum(items, gs'[i].category) && gs'[i].count == ItemCount(items, gs'[i].category)
        {
          if i < |gs| { assert gs'[i] == gs[i] && gs[i].category != it.category; }
        }
      }
    }
  }

  /** The groups of `gs` appear in the order their categories were first
      seen in `items`. */
  predicate FirstSeenOrdered(gs: seq<Group>, items: seq<Item>)
  {
    forall i, j :: 0 <= i < j < |gs| ==> FirstSeen(items, gs[i].category) < FirstSeen(items, gs[j].category)
  }

  /** Adding an item keeps the groups in first-seen order. */
  lemma AddItemOrder(gs: seq<Group>, pre: seq<Item>, it: Item)
    requires FirstSeenOrdered(gs, pre)
    requires GroupCategories(gs) == ItemCategories(pre)
    ensures FirstSeenOrdered(AddItem(gs, it), pre + [it])
  {
    var items := pre + [it];
    var gs' := AddItem(gs, it);
    forall i | 0 <= i < |gs| ensures FirstSeen(items, gs[i].category) == FirstSeen(pre, gs[i].category) < |pre| {
      assert gs[i] in gs;
      FirstSeenFound(pre, gs[i].category);
      FirstSeenSnoc(pre, it, gs[i].category);
    }
    match FindGroup(gs, it.category)
    case None =>
      FindGroupAbsent(gs, it.category);
      FirstSeenFound(pre, it.category);
      FirstSeenSnoc(pre, it, it.category);
      assert gs' == gs + [Group(it.category, it.amount, 1)];
      assert FirstSeen(items, gs'[|gs|].category) == |pre|;
    case Some(k) =>
      assert gs' == gs[k := Group(it.category, gs[k].amount + it.amount, gs[k].count + 1)];
      assert forall i :: 0 <= i < |gs| ==> gs'[i].category == gs[i].category;
  }

  /** Groups appear in the order in which their categories were first seen. */
  lemma {:induction false} GroupTotalsOrder(items: seq<Item>)
    ensures forall i, j :: 0 <= i < j < |GroupTotals(items)| ==>
      FirstSeen(items, GroupTotals(items)[i].category) < FirstSeen(items, GroupTotals(items)[j].category)
  {
    if items != [] {
      var n := |items| - 1;
      var pre, it := items[..n], items[n];
      assert items == pre + [it];
      assert GroupTotals(items) == AddItem(GroupTotals(pre), it);
      GroupTotalsOrder(pre);
      GroupTotalsCategories(pre);
      AddItemOrder(GroupTotals(pre), pre, it);
    }
  }

  /** The left fold builds exactly the grouping described by GroupsOf. */
  lemma GroupTotalsCorrect(items: seq<Item>)
    ensures GroupsOf(GroupTotals(items), items)
  {
    GroupTotalsCategories(items);
    GroupTotalsDistinct(items);
    GroupTotalsSums(items);
    GroupTotalsOrder(items);
  }

  /** The sum of all group amounts is the sum of all item amounts. */
  function GroupAmountTotal(gs: seq<Group>): int
  {
    if gs == [] then 0 else gs[0].amount + GroupAmountTotal(gs[1..])
  }

  function ItemTotal(items: seq<Item>): int
  {
    if items == [] then 0 else ItemTotal(items[..|items| - 1]) + items[|items| - 1].amount
  }

  lemma {:induction false} GroupAmountTotalUpdate(gs: seq<Group>, k: nat, g: Group)
    requires k < |gs|
    ensures GroupAmountTotal(gs[k := g]) == GroupAmountTotal(gs) - gs[k].amount + g.amount
  {
    if k > 0 {
      assert gs[k := g][1..] == gs[1..][k - 1 := g];
      GroupAmountTotalUpdate(gs[1..], k - 1, g);
    }
  }

  lemma {:induction false} GroupAmountTotalAppend(gs: seq<Group>, g: Group)
    ensures GroupAmountTotal(gs + [g]) == GroupAmountTotal(gs) + g.amount
  {
    if gs != [] {
      assert (gs + [g])[1..] == gs[1..] + [g];
      GroupAmountTotalAppend(gs[1..], g);
    }
  }

  /** Grouping loses no amount: the groups add up to the items' total. */
  lemma {:induction false} GroupTotalsConserve(items: seq<Item>)
    ensures GroupAmountTotal(GroupTotals(items)) == ItemTotal(items)
  {
    if items != [] {
      var pre := items[..|items| - 1];
      var it := items[|items| - 1];
      GroupTotalsConserve(pre);
      var gs := GroupTotals(pre);
      match FindGroup(gs, it.category)
      case Some(k) => GroupAmountTotalUpdate(gs, k, Group(it.category, gs[k].amount + it.amount, gs[k].count + 1));
      case None => GroupAmountTotalAppend(gs, Group(it.category, it.amount, 1));
    }
  }
  /** The accumulation loop the source runs over its expenses. */
  method GroupByCategory(items: seq<Item>) returns (groups: seq<Group>)
    ensures groups == GroupTotals(items)
    ensures GroupsOf(groups, items)
  {
    groups := [];
    var i := 0;
    while i < |items|
      invariant 0 <= i <= |items|
      invariant groups == GroupTotals(items[..i])
    {
      var it := items[i];
      assert items[..i + 1][..i] == items[..i];
      var k := FindGroup(groups, it.category);
      if k.Some? {
        var g := groups[k.value];
        groups := groups[k.value := Group(it.category, g.amount + it.amount, g.count + 1)];
      } else {
        groups := groups + [Group(it.category, it.amount, 1)];
      }
      i := i + 1;
    }
    assert items[..i] == items;
    GroupTotalsCorrect(items);
  }

  /** The expenses as (category, amount) items, in list order. */
  function ExpenseItems(txs: seq<Transaction>): seq<Item>
  {
    if txs == [] then []
    else (if txs[0].kind == Expense then [Item(txs[0].category, txs[0].amount)] else []) + ExpenseItems(txs[1..])
  }

  lemma {:induction false} ItemSumAppend(a: seq<Item>, b: seq<Item>, c: string)
    ensures ItemSum(a + b, c) == ItemSum(a, c) + ItemSum(b, c)
    ensures ItemTotal(a + b) == ItemTotal(a) + ItemTotal(b)
    decreases |b|
  {
    if b != [] {
      var b' := b[..|b| - 1];
      assert (a + b)[..|a + b| - 1] == a + b';
      ItemSumAppend(a, b', c);
    } else {
      assert a + b == a;
    }
  }

  /** Item sums over the expenses are the ledger's expense sums. */
  lemma {:induction false} ExpenseItemsSums(txs: seq<Transaction>, c: string)
    ensures ItemSum(ExpenseItems(txs), c) == ExpensesIn(txs, c)
    ensures ItemTotal(ExpenseItems(txs)) == ExpenseTotal(txs)
  {
    if txs != [] {
      var head := if txs[0].kind == Expense then [Item(txs[0].category, txs[0].amount)] else [];
      ExpenseItemsSums(txs[1..], c);
      ItemSumAppend(head, ExpenseItems(txs[1..]), c);
    }
  }

  lemma {:induction false} ExpenseItemsMembers(txs: seq<Transaction>)
    ensures forall it :: it in ExpenseItems(txs) ==>
      exists t :: t in txs && t.kind == Expense && it == Item(t.category, t.amount)
    ensures forall t :: t in txs && t.kind == Expense ==> Item(t.category, t.amount) in ExpenseItems(txs)
  {
    if txs != [] {
      ExpenseItemsMembers(txs[1..]);
      assert txs == [txs[0]] + txs[1..];
    }
  }

  lemma ExpenseItemsCategories(txs: seq<Transaction>)
    ensures ItemCategories(ExpenseItems(txs)) == set t | t in txs && t.kind == Expense :: t.category
  {
    var items := ExpenseItems(txs);
    ExpenseItemsMembers(txs);
    forall c | c in ItemCategories(items) ensures c in set t | t in txs && t.kind == Expense :: t.category {
      var it :| it in items && it.category == c;
      var t :| t in txs && t.kind == Expense && it == Item(t.category, t.amount);
    }
    forall c | c in (set t | t in txs && t.kind == Expense :: t.category) ensures c in ItemCategories(items) {
      var t :| t in txs && t.kind == Expense && t.category == c;
      assert Item(t.category, t.amount) in items;
    }
  }
}
