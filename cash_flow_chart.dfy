/** The per-day bars of the cash-flow chart for the current month. */
module CashFlowChart {
  import opened Seqs
  import opened Calendar
  import opened Types
  import DashboardView

  /** What one transaction adds to the bar of `day` of `month` of `year` for one type. */
  function Contribution(t: Transaction, month: int, year: int, day: int, kind: TransactionType): real {
    if t.date.month == month && t.date.year == year && t.date.day == day && t.kind == kind then t.amount else 0.0
  }

  /** The amounts of one type booked on `day` of `month` of `year`, added up in ledger order. */
  function DayTotal(transactions: seq<Transaction>, month: int, year: int, day: int, kind: TransactionType): real {
    if transactions == [] then 0.0
    else
      DayTotal(transactions[..|transactions| - 1], month, year, day, kind)
      + Contribution(transactions[|transactions| - 1], month, year, day, kind)
  }

  /** The bars of days `1..n` for one type. */
  function Column(transactions: seq<Transaction>, month: int, year: int, n: nat, kind: TransactionType): (c: seq<real>)
    ensures |c| == n
  {
    if n == 0 then [] else Column(transactions, month, year, n - 1, kind) + [DayTotal(transactions, month, year, n, kind)]
  }

  /** Bar `i` is the total of day `i + 1`. */
  lemma ColumnAt(transactions: seq<Transaction>, month: int, year: int, n: nat, kind: TransactionType)
    ensures forall i :: 0 <= i < n ==> Column(transactions, month, year, n, kind)[i] == DayTotal(transactions, month, year, i + 1, kind)
  {
    forall i | 0 <= i < n {
      ColumnIndex(transactions, month, year, n, kind, i);
    }
  }

  lemma {:induction false} ColumnIndex(transactions: seq<Transaction>, month: int, year: int, n: nat, kind: TransactionType, i: nat)
    requires i < n
    ensures Column(transactions, month, year, n, kind)[i] == DayTotal(transactions, month, year, i + 1, kind)
  {
    if i < n - 1 {
      ColumnIndex(transactions, month, year, n - 1, kind, i);
    }
  }

  function Identity(x: real): real {
    x
  }

  /**
   * The `useMemo` body: three zero-filled arrays, one per day of the month; each
   * transaction of the calendar month adds its amount to its day's income or
   * expense bar, and each savings bar is the day's non-negative surplus.
   */
  method BuildChartData(transactions: seq<Transaction>, month: int, year: int)
    returns (incomeData: array<real>, expenseData: array<real>, savingsData: array<real>)
    requires 0 <= month < 12
    requires forall t :: t in transactions ==> ValidDate(t.date)
    ensures fresh(incomeData) && fresh(expenseData) && fresh(savingsData)
    ensures incomeData.Length == expenseData.Length == savingsData.Length == DaysInMonth(year, month)
    ensures incomeData[..] == Column(transactions, month, year, DaysInMonth(year, month), Income)
    ensures expenseData[..] == Column(transactions, month, year, DaysInMonth(year, month), Expense)
    ensures forall i :: 0 <= i < savingsData.Length ==> savingsData[i] == DashboardView.Savings(incomeData[i], expenseData[i])
  {
    var daysInMonth := DaysInMonth(year, month);
    incomeData := new real[daysInMonth](_ => 0.0);
    expenseData := new real[daysInMonth](_ => 0.0);
    savingsData := new real[daysInMonth](_ => 0.0);

    AddTransactions(transactions, month, year, incomeData, expenseData);
    FillSavings(incomeData, expenseData, savingsData);
  }

  /** The closing loop: each day's savings bar is its non-negative surplus. */
  method FillSavings(incomeData: array<real>, expenseData: array<real>, savingsData: array<real>)
    requires savingsData != incomeData && savingsData != expenseData
    requires incomeData.Length == expenseData.Length == savingsData.Length
    modifies savingsData
    ensures forall i :: 0 <= i < savingsData.Length ==> savingsData[i] == DashboardView.Savings(incomeData[i], expenseData[i])
  {
    var i := 0;
    while i < savingsData.Length
      invariant 0 <= i <= savingsData.Length
      invariant forall j :: 0 <= j < i ==> savingsData[j] == DashboardView.Savings(incomeData[j], expenseData[j])
    {
      savingsData[i] := DashboardView.Savings(incomeData[i], expenseData[i]);
      i := i + 1;
    }
  }

  /** The `forEach` over the ledger: adds each amount of the month to its day's bar. */
  method AddTransactions(transactions: seq<Transaction>, month: int, year: int, incomeData: array<real>, expenseData: array<real>)
    requires 0 <= month < 12
    requires forall t :: t in transactions ==> ValidDate(t.date)
    requires incomeData != expenseData
    requires incomeData[..] == seq(incomeData.Length, _ => 0.0) && incomeData.Length == DaysInMonth(year, month)
    requires expenseData[..] == seq(expenseData.Length, _ => 0.0) && expenseData.Length == DaysInMonth(year, month)
    modifies incomeData, expenseData
    ensures incomeData[..] == Column(transactions, month, year, incomeData.Length, Income)
    ensures expenseData[..] == Column(transactions, month, year, expenseData.Length, Expense)
  {
    var n := incomeData.Length;
    ColumnOfNothingIsZero(month, year, n, Income);
    ColumnOfNothingIsZero(month, year, n, Expense);
    assert transactions[..0] == [];
    assert incomeData[..] == Column(transactions[..0], month, year, n, Income);
    assert expenseData[..] == Column(transactions[..0], month, year, n, Expense);
    var k := 0;
    while k < |transactions|
      invariant 0 <= k <= |transactions|
      invariant incomeData[..] == Column(transactions[..k], month, year, n, Income)
      invariant expenseData[..] == Column(transactions[..k], month, year, n, Expense)
    {
      assert transactions[k] in transactions;
      AddTransaction(transactions[..k], transactions[k], month, year, incomeData, expenseData);
      assert transactions[..k + 1] == transactions[..k] + [transactions[k]];
      k := k + 1;
    }
    assert transactions[..k] == transactions;
  }

  /** One step of the `forEach`: `incomeData[day] += t.amount` or `expenseData[day] += t.amount`. */
  method AddTransaction(ghost done: seq<Transaction>, t: Transaction, month: int, year: int, incomeData: array<real>, expenseData: array<real>)
    requires 0 <= month < 12 && ValidDate(t.date)
    requires incomeData != expenseData
    requires incomeData.Length == expenseData.Length == DaysInMonth(year, month)
    requires incomeData[..] == Column(done, month, year, incomeData.Length, Income)
    requires expenseData[..] == Column(done, month, year, expenseData.Length, Expense)
    modifies incomeData, expenseData
    ensures incomeData[..] == Column(done + [t], month, year, incomeData.Length, Income)
    ensures expenseData[..] == Column(done + [t], month, year, expenseData.Length, Expense)
  {
    var n := incomeData.Length;
    if t.date.month == month && t.date.year == year {
      if t.kind == Income {
        AddToBar(done, t, month, year, incomeData, Income);
        ColumnSnoc(done, t, month, year, n, Expense);
      } else {
        AddToBar(done, t, month, year, expenseData, Expense);
        ColumnSnoc(done, t, month, year, n, Income);
      }
    } else {
      OtherMonthsDoNotContribute(done, t, month, year, n, Income);
      OtherMonthsDoNotContribute(done, t, month, year, n, Expense);
    }
  }

  /** `bars[day] += t.amount` for a transaction of the column's month, year and type. */
  method AddToBar(ghost done: seq<Transaction>, t: Transaction, month: int, year: int, bars: array<real>, kind: TransactionType)
    requires 0 <= month < 12 && ValidDate(t.date)
    requires t.date.month == month && t.date.year == year && t.kind == kind
    requires bars.Length == DaysInMonth(year, month)
    requires bars[..] == Column(done, month, year, bars.Length, kind)
    modifies bars
    ensures bars[..] == Column(done + [t], month, year, bars.Length, kind)
  {
    ColumnSnoc(done, t, month, year, bars.Length, kind);
    var day := t.date.day - 1;
    bars[day] := bars[day] + t.amount;
  }

  /** One more transaction adds its amount to the total of its own day and of no other. */
  lemma DayTotalSnoc(transactions: seq<Transaction>, t: Transaction, month: int, year: int, day: int, kind: TransactionType)
    ensures DayTotal(transactions + [t], month, year, day, kind)
            == DayTotal(transactions, month, year, day, kind) + Contribution(t, month, year, day, kind)
  {
    assert (transactions + [t])[..|transactions|] == transactions;
  }

  /** One more transaction adds its amount to the bar of its day when it is of the column's month, year and type. */
  lemma ColumnSnoc(transactions: seq<Transaction>, t: Transaction, month: int, year: int, n: nat, kind: TransactionType)
    ensures var before := Column(transactions, month, year, n, kind);
            Column(transactions + [t], month, year, n, kind)
            == if t.date.month == month && t.date.year == year && t.kind == kind && 1 <= t.date.day <= n
               then before[t.date.day - 1 := before[t.date.day - 1] + t.amount]
               else before
  {
    var before := Column(transactions, month, year, n, kind);
    var after := Column(transactions + [t], month, year, n, kind);
    if t.date.month == month && t.date.year == year && t.kind == kind && 1 <= t.date.day <= n {
      var d := t.date.day - 1;
      forall i | 0 <= i < n ensures after[i] == before[d := before[d] + t.amount][i] {
        ColumnIndex(transactions, month, year, n, kind, i);
        ColumnIndex(transactions + [t], month, year, n, kind, i);
        DayTotalSnoc(transactions, t, month, year, i + 1, kind);
      }
      assert after == before[d := before[d] + t.amount];
    } else {
      forall i | 0 <= i < n ensures after[i] == before[i] {
        ColumnIndex(transactions, month, year, n, kind, i);
        ColumnIndex(transactions + [t], month, year, n, kind, i);
        DayTotalSnoc(transactions, t, month, year, i + 1, kind);
      }
      assert after == before;
    }
  }

  /** Without transactions every bar is 0, as the zero-filled arrays start. */
  lemma ColumnOfNothingIsZero(month: int, year: int, n: nat, kind: TransactionType)
    ensures Column([], month, year, n, kind) == seq(n, _ => 0.0)
  {
    ColumnAt([], month, year, n, kind);
  }

  /** One more transaction raises the sum of the first `n` bars by its amount when its day is among them. */
  lemma {:induction false} ColumnSumSnoc(transactions: seq<Transaction>, t: Transaction, month: int, year: int, n: nat, kind: TransactionType)
    ensures SumOf(Column(transactions + [t], month, year, n, kind), Identity)
            == SumOf(Column(transactions, month, year, n, kind), Identity)
               + (if t.date.month == month && t.date.year == year && 1 <= t.date.day <= n && t.kind == kind then t.amount else 0.0)
  {
    if n > 0 {
      ColumnSumSnoc(transactions, t, month, year, n - 1, kind);
      DayTotalSnoc(transactions, t, month, year, n, kind);
      var d := DayTotal(transactions, month, year, n, kind);
      var d' := DayTotal(transactions + [t], month, year, n, kind);
      var before := Column(transactions, month, year, n - 1, kind);
      var after := Column(transactions + [t], month, year, n - 1, kind);
      assert Column(transactions, month, year, n, kind) == before + [d];
      assert Column(transactions + [t], month, year, n, kind) == after + [d'];
      SumOfAppend(after, [d'], Identity);
      SumOfAppend(before, [d], Identity);
      SumOfSingleton(d', Identity);
      SumOfSingleton(d, Identity);
    }
  }

  /** Over a month of valid dates, a type's bars add up to the dashboard's total for that type. */
  lemma {:induction false} ColumnSumIsMonthlyTotal(transactions: seq<Transaction>, month: int, year: int, kind: TransactionType)
    requires 0 <= month < 12
    requires forall t :: t in transactions ==> ValidDate(t.date)
    ensures SumOf(Column(transactions, month, year, DaysInMonth(year, month), kind), Identity)
            == DashboardView.TotalOfType(transactions, month, year, kind)
    decreases |transactions|
  {
    var n := DaysInMonth(year, month);
    if transactions == [] {
      ColumnOfNothing(month, year, n, kind);
    } else {
      var init := transactions[..|transactions| - 1];
      var t := transactions[|transactions| - 1];
      assert transactions == init + [t];
      ColumnSumIsMonthlyTotal(init, month, year, kind);
      ColumnSumSnoc(init, t, month, year, n, kind);
      DashboardView.TotalOfTypeSnoc(init, t, month, year, kind);
    }
  }

  /** Without transactions every bar is 0. */
  lemma {:induction false} ColumnOfNothing(month: int, year: int, n: nat, kind: TransactionType)
    ensures SumOf(Column([], month, year, n, kind), Identity) == 0.0
  {
    if n > 0 {
      ColumnOfNothing(month, year, n - 1, kind);
      SumOfAppend(Column([], month, year, n - 1, kind), [DayTotal([], month, year, n, kind)], Identity);
    }
  }

  /** The chart's income bars sum to `totalIncome` and its expense bars to `totalExpenses`. */
  lemma ChartMatchesDashboard(transactions: seq<Transaction>, month: int, year: int)
    requires 0 <= month < 12
    requires forall t :: t in transactions ==> ValidDate(t.date)
    ensures SumOf(Column(transactions, month, year, DaysInMonth(year, month), Income), Identity)
            == DashboardView.TotalIncome(transactions, month, year)
    ensures SumOf(Column(transactions, month, year, DaysInMonth(year, month), Expense), Identity)
            == DashboardView.TotalExpenses(transactions, month, year)
  {
    ColumnSumIsMonthlyTotal(transactions, month, year, Income);
    ColumnSumIsMonthlyTotal(transactions, month, year, Expense);
  }

  /** With non-negative amounts every bar is non-negative. */
  lemma BarsNonNegative(transactions: seq<Transaction>, month: int, year: int, n: nat, kind: TransactionType)
    requires forall t :: t in transactions ==> t.amount >= 0.0
    ensures forall i :: 0 <= i < n ==> Column(transactions, month, year, n, kind)[i] >= 0.0
  {
    ColumnAt(transactions, month, year, n, kind);
    forall i | 0 <= i < n ensures Column(transactions, month, year, n, kind)[i] >= 0.0 {
      DayTotalNonNegative(transactions, month, year, i + 1, kind);
    }
  }

  lemma {:induction false} DayTotalNonNegative(transactions: seq<Transaction>, month: int, year: int, day: int, kind: TransactionType)
    requires forall t :: t in transactions ==> t.amount >= 0.0
    ensures DayTotal(transactions, month, year, day, kind) >= 0.0
  {
    if transactions != [] {
      DayTotalNonNegative(transactions[..|transactions| - 1], month, year, day, kind);
    }
  }

  /** Only transactions of the chart's calendar month and year reach the bars. */
  lemma OtherMonthsDoNotContribute(transactions: seq<Transaction>, t: Transaction, month: int, year: int, n: nat, kind: TransactionType)
    requires t.date.month != month || t.date.year != year
    ensures Column(transactions + [t], month, year, n, kind) == Column(transactions, month, year, n, kind)
  {
    ColumnSnoc(transactions, t, month, year, n, kind);
  }
}
