/** The effective-month rule: late-month income counts toward the next month. */
module Finance {
  import opened Seqs
  import opened Types

  /** Income dated on or after this day of the month belongs to the next month. */
  const SALARY_DAY_THRESHOLD: int := 25

  datatype MonthYear = MonthYear(month: int, year: int)

  /** Income on or after the salary day. */
  predicate IsLateIncome(t: Transaction) {
    t.kind == Income && t.date.day >= SALARY_DAY_THRESHOLD
  }

  /**
   * The budgeting month a transaction counts toward. For a real calendar month
   * it is a real month, and it is the calendar month or the one right after it,
   * never earlier; it is the one after exactly for late income.
   */
  function GetEffectiveMonth(t: Transaction): (e: MonthYear)
    ensures 0 <= t.date.month <= 11 ==> 0 <= e.month <= 11
    ensures 0 <= t.date.month <= 11 ==>
              MonthNumber(e) == MonthNumber(MonthYear(t.date.month, t.date.year)) + (if IsLateIncome(t) then 1 else 0)
  {
    var month := t.date.month;
    var year := t.date.year;
    if t.kind == Income && t.date.day >= SALARY_DAY_THRESHOLD then
      (if month + 1 > 11 then MonthYear(0, year + 1) else MonthYear(month + 1, year))
    else
      MonthYear(month, year)
  }

  /** The transactions whose effective month is `month` of `year`, in their order. */
  function FilterTransactionsByMonth(transactions: seq<Transaction>, month: int, year: int): (r: seq<Transaction>)
    ensures forall t :: t in r <==> t in transactions && GetEffectiveMonth(t) == MonthYear(month, year)
  {
    Filter(transactions, (t: Transaction) => GetEffectiveMonth(t).month == month && GetEffectiveMonth(t).year == year)
  }

  /** Months counted from year 0: consecutive months differ by exactly one. */
  function MonthNumber(e: MonthYear): int {
    e.year * 12 + e.month
  }

  /** Expenses keep their calendar month whatever the day. */
  lemma ExpenseKeepsCalendarMonth(t: Transaction)
    requires t.kind == Expense
    ensures GetEffectiveMonth(t) == MonthYear(t.date.month, t.date.year)
  {
  }

  /** Income before the salary day keeps its calendar month. */
  lemma EarlyIncomeKeepsCalendarMonth(t: Transaction)
    requires t.kind == Income && t.date.day < SALARY_DAY_THRESHOLD
    ensures GetEffectiveMonth(t) == MonthYear(t.date.month, t.date.year)
  {
  }

  /** Income on or after the salary day in January..November moves to the next month of the same year. */
  lemma LateIncomeMovesToNextMonth(t: Transaction)
    requires t.kind == Income && t.date.day >= SALARY_DAY_THRESHOLD
    requires t.date.month <= 10
    ensures GetEffectiveMonth(t) == MonthYear(t.date.month + 1, t.date.year)
  {
  }

  /** Late December income moves to January of the next year. */
  lemma LateDecemberIncomeRollsOver(t: Transaction)
    requires t.kind == Income && t.date.day >= SALARY_DAY_THRESHOLD
    requires t.date.month == 11
    ensures GetEffectiveMonth(t) == MonthYear(0, t.date.year + 1)
  {
  }

  /** The month filter keeps the list order. */
  lemma FilterByMonthIsSubsequence(transactions: seq<Transaction>, month: int, year: int)
    ensures SubsequenceOf(FilterTransactionsByMonth(transactions, month, year), transactions)
  {
    FilterIsSubsequence(transactions, (t: Transaction) => GetEffectiveMonth(t).month == month && GetEffectiveMonth(t).year == year);
  }

  /** Every transaction is listed under exactly one (month, year): its effective one. */
  lemma EachTransactionInExactlyOneMonth(transactions: seq<Transaction>, t: Transaction)
    requires t in transactions
    ensures t in FilterTransactionsByMonth(transactions, GetEffectiveMonth(t).month, GetEffectiveMonth(t).year)
    ensures forall month, year :: t in FilterTransactionsByMonth(transactions, month, year) ==>
              MonthYear(month, year) == GetEffectiveMonth(t)
  {
  }
}
