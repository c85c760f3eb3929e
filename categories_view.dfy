/** The category drill-down: the selected item's transactions for the current month. */
module CategoriesView {
  import opened Optional
  import opened Seqs
  import opened Types
  import opened Finance
  import opened Categories
  import opened BudgetView

  /**
   * `getCategoryTransactions`: nothing while no item is selected, otherwise the
   * transactions of the selected item whose effective month is the current one.
   */
  function GetCategoryTransactions(transactions: seq<Transaction>, selected: Option<CategoryItem>, month: int, year: int): (r: seq<Transaction>)
    ensures selected.None? ==> r == []
    ensures forall t :: t in r <==>
              selected.Some? && t in transactions && t.category == selected.value.id
              && GetEffectiveMonth(t) == MonthYear(month, year)
  {
    if selected.None? then []
    else Filter(transactions, (t: Transaction) => CountsToward(t, selected.value.id, month, year))
  }

  /** `totalAmount`: the amounts of the listed transactions, income and expense alike. */
  function TotalAmount(listed: seq<Transaction>): (r: real)
    ensures listed == [] ==> r == 0.0
    ensures (forall t :: t in listed ==> t.amount >= 0.0) ==> r >= 0.0
  {
    SumOfNonNegative(listed, Amount);
    SumOf(listed, Amount)
  }

  /** With no selection the list is empty and the total is 0. */
  lemma NothingSelectedIsEmpty(transactions: seq<Transaction>, month: int, year: int)
    ensures GetCategoryTransactions(transactions, None, month, year) == []
    ensures TotalAmount(GetCategoryTransactions(transactions, None, month, year)) == 0.0
  {
  }

  /** The list keeps the order of the ledger. */
  lemma ListIsSubsequence(transactions: seq<Transaction>, selected: Option<CategoryItem>, month: int, year: int)
    ensures SubsequenceOf(GetCategoryTransactions(transactions, selected, month, year), transactions)
  {
    if selected.Some? {
      FilterIsSubsequence(transactions, (t: Transaction) => CountsToward(t, selected.value.id, month, year));
    } else {
      FilterIsSubsequence(transactions, (t: Transaction) => false);
      FilterNone(transactions, (t: Transaction) => false);
    }
  }

  /** The list is the month filter of the ledger, further restricted to the selected item. */
  lemma ListRefinesMonthFilter(transactions: seq<Transaction>, item: CategoryItem, month: int, year: int)
    ensures GetCategoryTransactions(transactions, Some(item), month, year)
            == Filter(FilterTransactionsByMonth(transactions, month, year), (t: Transaction) => t.category == item.id)
  {
    FilterFilter(transactions,
      (t: Transaction) => GetEffectiveMonth(t).month == month && GetEffectiveMonth(t).year == year,
      (t: Transaction) => t.category == item.id,
      (t: Transaction) => CountsToward(t, item.id, month, year));
  }

  /** The drill-down total is the spending the budget view shows for the same item. */
  lemma TotalIsBudgetSpending(transactions: seq<Transaction>, item: CategoryItem, month: int, year: int)
    ensures TotalAmount(GetCategoryTransactions(transactions, Some(item), month, year))
            == GetCurrentSpending(transactions, item.id, month, year)
  {
  }
}
