/** The dashboard's derived figures: monthly totals, savings, the recent list, icons and goal progress. */
module DashboardView {
  import opened Optional
  import opened Seqs
  import opened Types
  import opened Finance
  import Categories

  /** `monthlyTransactions`: chosen by calendar month and year, not by effective month. */
  function MonthlyTransactions(transactions: seq<Transaction>, month: int, year: int): (r: seq<Transaction>)
    ensures forall t :: t in r <==> t in transactions && t.date.month == month && t.date.year == year
  {
    Filter(transactions, (t: Transaction) => t.date.month == month && t.date.year == year)
  }

  /** `t` is of type `kind` and dated in `month` of `year`. */
  predicate InMonthOfKind(t: Transaction, month: int, year: int, kind: TransactionType) {
    t.date.month == month && t.date.year == year && t.kind == kind
  }

  /**
   * The sum of amounts of the month's transactions of one type: the two filters
   * in a row select the same transactions as one filter on both conditions.
   */
  function TotalOfType(transactions: seq<Transaction>, month: int, year: int, kind: TransactionType): (r: real)
    ensures r == SumOf(Filter(transactions, (t: Transaction) => InMonthOfKind(t, month, year, kind)), Amount)
    ensures (forall t :: t in transactions ==> t.amount >= 0.0) ==> r >= 0.0
  {
    FilterFilter(transactions,
      (t: Transaction) => t.date.month == month && t.date.year == year,
      (t: Transaction) => t.kind == kind,
      (t: Transaction) => InMonthOfKind(t, month, year, kind));
    SumOfNonNegative(Filter(transactions, (t: Transaction) => InMonthOfKind(t, month, year, kind)), Amount);
    SumOf(Filter(MonthlyTransactions(transactions, month, year), (t: Transaction) => t.kind == kind), Amount)
  }

  /** `totalIncome`: the amounts of the month's income. */
  function TotalIncome(transactions: seq<Transaction>, month: int, year: int): (r: real)
    ensures r == SumOf(Filter(transactions, (t: Transaction) => InMonthOfKind(t, month, year, Income)), Amount)
    ensures (forall t :: t in transactions ==> t.amount >= 0.0) ==> r >= 0.0
  {
    TotalOfType(transactions, month, year, Income)
  }

  /** `totalExpenses`: the amounts of the month's expenses. */
  function TotalExpenses(transactions: seq<Transaction>, month: int, year: int): (r: real)
    ensures r == SumOf(Filter(transactions, (t: Transaction) => InMonthOfKind(t, month, year, Expense)), Amount)
    ensures (forall t :: t in transactions ==> t.amount >= 0.0) ==> r >= 0.0
  {
    TotalOfType(transactions, month, year, Expense)
  }

  /** `Math.max(0, totalIncome - totalExpenses)`. */
  function Savings(totalIncome: real, totalExpenses: real): (s: real)
    ensures s >= 0.0 && s >= totalIncome - totalExpenses
    ensures s == 0.0 || s == totalIncome - totalExpenses
  {
    if totalIncome - totalExpenses > 0.0 then totalIncome - totalExpenses else 0.0
  }

  /** One more transaction adds its amount to its type's total when it falls in the calendar month. */
  lemma TotalOfTypeSnoc(transactions: seq<Transaction>, t: Transaction, month: int, year: int, kind: TransactionType)
    ensures TotalOfType(transactions + [t], month, year, kind)
            == TotalOfType(transactions, month, year, kind)
               + (if t.date.month == month && t.date.year == year && t.kind == kind then t.amount else 0.0)
  {
    var inMonth := (t: Transaction) => t.date.month == month && t.date.year == year;
    var ofKind := (t: Transaction) => t.kind == kind;
    FilterAppend(transactions, [t], inMonth);
    var monthly := Filter(transactions, inMonth);
    var tail := Filter([t], inMonth);
    FilterAppend(monthly, tail, ofKind);
    SumOfAppend(Filter(monthly, ofKind), Filter(tail, ofKind), Amount);
    if inMonth(t) && ofKind(t) {
      assert Filter(tail, ofKind) == [t];
      SumOfSingleton(t, Amount);
    } else {
      FilterNone(tail, ofKind);
    }
  }

  /** Income and expenses together account for every transaction of the month. */
  lemma {:induction false} TotalsCoverMonth(transactions: seq<Transaction>, month: int, year: int)
    ensures TotalIncome(transactions, month, year) + TotalExpenses(transactions, month, year)
            == SumOf(MonthlyTransactions(transactions, month, year), Amount)
  {
    var monthly := MonthlyTransactions(transactions, month, year);
    var any := (t: Transaction) => true;
    SumFilterSplit(monthly, any, (t: Transaction) => t.kind == Income, (t: Transaction) => t.kind == Expense, Amount);
    FilterAll(monthly, any);
  }

  /** A late-month income counts in its calendar month here, although the budget assigns it to the next month. */
  lemma DashboardUsesCalendarMonth(t: Transaction)
    requires t.kind == Income && t.date.day >= SALARY_DAY_THRESHOLD
    ensures TotalIncome([t], t.date.month, t.date.year) == t.amount
    ensures GetEffectiveMonth(t) != MonthYear(t.date.month, t.date.year)
  {
    TotalOfTypeSnoc([], t, t.date.month, t.date.year, Income);
    assert [] + [t] == [t];
  }

  /** `transactions.slice(-5).reverse()`: the last five, most recently appended first. */
  function RecentTransactions(transactions: seq<Transaction>): (r: seq<Transaction>)
    ensures |r| == if |transactions| < 5 then |transactions| else 5
    ensures forall i :: 0 <= i < |r| ==> r[i] == transactions[|transactions| - 1 - i]
  {
    var start := if |transactions| < 5 then 0 else |transactions| - 5;
    Reverse(transactions[start..])
  }

  /** The transaction just added heads the recent list, followed by the previous head entries. */
  lemma RecentAfterAdd(transactions: seq<Transaction>, t: Transaction)
    ensures RecentTransactions(transactions + [t])[0] == t
    ensures forall i :: 0 < i < |RecentTransactions(transactions + [t])| ==>
              RecentTransactions(transactions + [t])[i] == RecentTransactions(transactions)[i - 1]
  {
  }

  /** The literal map of `getCategoryIcon`. */
  const CategoryIcons: map<string, string> := map[
    "vivienda" := "\U{1F3E0}",
    "telecomunicaciones" := "\U{1F4F1}",
    "seguros" := "\U{1F6E1}\U{FE0F}",
    "suscripciones" := "\U{1F4FA}",
    "alimentacion" := "\U{1F6D2}",
    "transporte" := "\U{1F697}",
    "suministros" := "\U{1F4A1}",
    "salud" := "\U{1F3E5}",
    "ocio" := "\U{1F37D}\U{FE0F}",
    "entretenimiento" := "\U{1F3AC}",
    "compras" := "\U{1F6CD}\U{FE0F}",
    "viajes" := "\U{2708}\U{FE0F}",
    "salario" := "\U{1F4BC}",
    "freelance" := "\U{1F4BB}",
    "inversiones" := "\U{1F4C8}",
    "otros_ingresos" := "\U{1F4B0}",
    "hogar" := "\U{1F3E0}",
    "educacion" := "\U{1F393}"
  ]

  /** The money bag shown for any category the map does not name. */
  const DefaultIcon: string := "\U{1F4B0}"

  /** `icons[category] || '💰'`: an empty icon would also fall back, though the map holds none. */
  function GetCategoryIcon(category: string): (icon: string)
    ensures category in CategoryIcons ==> icon == CategoryIcons[category]
    ensures category !in CategoryIcons ==> icon == DefaultIcon
    ensures icon != ""
  {
    if category in CategoryIcons && CategoryIcons[category] != "" then CategoryIcons[category] else DefaultIcon
  }

  /** Every income and expense item of the taxonomy has its own entry; the savings items fall back. */
  lemma IconsCoverIncomeAndExpenseItems()
    ensures forall id :: id in Categories.IncomeIds + Categories.ExpenseIds ==> id in CategoryIcons
    ensures forall id :: id in Categories.SavingsIds ==> GetCategoryIcon(id) == DefaultIcon
  {
  }

  /**
   * The width of the goal bar, `Math.min(100, savings / monthlyGoal * 100)`, as
   * a percentage; `None` stands for NaN, the result of 0/0.
   */
  function GoalProgress(totalIncome: real, totalExpenses: real, monthlyGoal: real): (w: Option<real>)
    ensures w.None? <==> monthlyGoal == 0.0 && Savings(totalIncome, totalExpenses) == 0.0
    ensures w.Some? ==> w.value <= 100.0
    ensures monthlyGoal > 0.0 ==> w.Some? && w.value >= 0.0
    ensures monthlyGoal > 0.0 ==> (w.value == 100.0 <==> Savings(totalIncome, totalExpenses) >= monthlyGoal)
    ensures monthlyGoal > 0.0 && Savings(totalIncome, totalExpenses) < monthlyGoal ==>
              w.value * monthlyGoal == Savings(totalIncome, totalExpenses) * 100.0
  {
    var savings := Savings(totalIncome, totalExpenses);
    if monthlyGoal == 0.0 then
      (if savings == 0.0 then None else Some(100.0))
    else
      var ratio := savings / monthlyGoal * 100.0;
      Some(if ratio < 100.0 then ratio else 100.0)
  }
}
