/** The budget view: editing per-category ceilings and comparing them with this month's spending. */
module BudgetView {
  import opened Optional
  import opened Seqs
  import opened Types
  import opened Finance
  import opened Categories
  import FinanceHook

  /**
   * `{ ...prev, [categoryId]: value }`: replace the property in place, or append
   * it. The new property is present and the object grows by at most one
   * property; `SetBudgetLookup`, `SetBudgetKeys` and
   * `SetBudgetSize` state the rest.
   */
  function SetBudget(b: CategoryBudget, categoryId: string, value: real): (r: CategoryBudget)
    ensures BudgetEntry(categoryId, value) in r
    ensures |b| <= |r| <= |b| + 1
  {
    if b == [] then [BudgetEntry(categoryId, value)]
    else if b[0].category == categoryId then [BudgetEntry(categoryId, value)] + b[1..]
    else [b[0]] + SetBudget(b[1..], categoryId, value)
  }

  /** After the update the key reads back the new value and every other key reads as before. */
  lemma {:induction false} SetBudgetLookup(b: CategoryBudget, categoryId: string, value: real)
    ensures BudgetLookup(SetBudget(b, categoryId, value), categoryId) == Some(value)
    ensures forall k :: k != categoryId ==> BudgetLookup(SetBudget(b, categoryId, value), k) == BudgetLookup(b, k)
  {
    var r := SetBudget(b, categoryId, value);
    if b == [] {
      assert r[1..] == [];
    } else if b[0].category == categoryId {
      assert r[1..] == b[1..];
    } else {
      SetBudgetLookup(b[1..], categoryId, value);
      assert r[1..] == SetBudget(b[1..], categoryId, value);
    }
  }

  /** The update adds the key to the keys and removes none. */
  lemma {:induction false} SetBudgetKeys(b: CategoryBudget, categoryId: string, value: real)
    ensures forall k :: k in BudgetKeys(SetBudget(b, categoryId, value)) <==> k in BudgetKeys(b) || k == categoryId
  {
    var r := SetBudget(b, categoryId, value);
    BudgetKeysCons(r);
    if b == [] {
      assert r[1..] == [];
    } else {
      BudgetKeysCons(b);
      if b[0].category == categoryId {
        assert r[1..] == b[1..];
      } else {
        SetBudgetKeys(b[1..], categoryId, value);
        assert r[1..] == SetBudget(b[1..], categoryId, value);
      }
    }
  }

  /** The object grows by one property exactly when the key is new. */
  lemma {:induction false} SetBudgetSize(b: CategoryBudget, categoryId: string, value: real)
    ensures |SetBudget(b, categoryId, value)| == if categoryId in BudgetKeys(b) then |b| else |b| + 1
  {
    if b != [] {
      BudgetKeysCons(b);
      if b[0].category != categoryId {
        SetBudgetSize(b[1..], categoryId, value);
      }
    }
  }

  predicate NonNegativeBudget(b: CategoryBudget) {
    forall e :: e in b ==> e.limit >= 0.0
  }

  /** The check of `handleBudgetChange`: `parseFloat` yields a number (`Some`) that is not negative. */
  predicate AcceptsInput(parsed: Option<real>) {
    parsed.Some? && parsed.value >= 0.0
  }

  /** The editor's local state: the edited ceilings and whether they differ from the saved ones. */
  class BudgetEditor {
    var localBudgets: CategoryBudget
    var hasChanges: bool

    constructor ()
      ensures localBudgets == [] && !hasChanges
    {
      localBudgets := [];
      hasChanges := false;
    }

    /** The effect that copies the saved ceilings into the editor. */
    method SyncFromData(categoryBudgets: CategoryBudget)
      modifies this
      ensures localBudgets == categoryBudgets && hasChanges == old(hasChanges)
    {
      localBudgets := categoryBudgets;
    }

    /** `handleBudgetChange`, given what `parseFloat` made of the typed text (`None` for NaN). */
    method HandleBudgetChange(categoryId: string, parsed: Option<real>)
      modifies this
      ensures !AcceptsInput(parsed) ==> localBudgets == old(localBudgets) && hasChanges == old(hasChanges)
      ensures AcceptsInput(parsed) ==> localBudgets == SetBudget(old(localBudgets), categoryId, parsed.value) && hasChanges
      ensures old(NonNegativeBudget(localBudgets)) ==> NonNegativeBudget(localBudgets)
    {
      if !AcceptsInput(parsed) {
        return;
      }
      SetBudgetKeepsNonNegative(localBudgets, categoryId, parsed.value);
      localBudgets := SetBudget(localBudgets, categoryId, parsed.value);
      hasChanges := true;
    }

    /** `handleSave`: store the edited ceilings through `updateSettings`; nothing is pending afterwards. */
    method HandleSave(provider: FinanceHook.FinanceProvider)
      modifies this, provider
      ensures provider.data == FinanceHook.MergeSettings(old(provider.data), SaveBudgetsPatch(old(localBudgets)))
      ensures localBudgets == old(localBudgets) && !hasChanges
    {
      provider.UpdateSettings(SaveBudgetsPatch(localBudgets));
      hasChanges := false;
    }
  }

  /** The patch `{ categoryBudgets: localBudgets }`. */
  function SaveBudgetsPatch(b: CategoryBudget): FinanceHook.SettingsPatch {
    FinanceHook.SettingsPatch(None, None, None, None, None, Some(b), None)
  }

  /** Ceilings written through the editor are never negative. */
  lemma {:induction false} SetBudgetKeepsNonNegative(b: CategoryBudget, categoryId: string, value: real)
    requires value >= 0.0
    ensures NonNegativeBudget(b) ==> NonNegativeBudget(SetBudget(b, categoryId, value))
  {
    if b != [] && b[0].category != categoryId {
      SetBudgetKeepsNonNegative(b[1..], categoryId, value);
    }
  }

  /** Editing keeps the object free of repeated properties. */
  lemma {:induction false} SetBudgetKeepsWellFormed(b: CategoryBudget, categoryId: string, value: real)
    requires WellFormedBudget(b)
    ensures WellFormedBudget(SetBudget(b, categoryId, value))
  {
    if b != [] {
      var rest := b[1..];
      var r := SetBudget(b, categoryId, value);
      BudgetKeysCons(b);
      BudgetKeysCons(r);
      NoDuplicatesCons(b[0].category, BudgetKeys(rest));
      if b[0].category == categoryId {
        assert r == [BudgetEntry(categoryId, value)] + rest;
        assert r[1..] == rest;
        NoDuplicatesCons(categoryId, BudgetKeys(rest));
      } else {
        var tail := SetBudget(rest, categoryId, value);
        SetBudgetKeepsWellFormed(rest, categoryId, value);
        SetBudgetKeys(rest, categoryId, value);
        assert r == [b[0]] + tail;
        assert r[1..] == tail;
        NoDuplicatesCons(b[0].category, BudgetKeys(tail));
      }
    }
  }

  /** `totalBudget`: the sum of the ceilings, never negative when no ceiling is. */
  function TotalBudget(localBudgets: CategoryBudget): (r: real)
    ensures NonNegativeBudget(localBudgets) ==> r >= 0.0
  {
    SumOfNonNegative(localBudgets, (e: BudgetEntry) => e.limit);
    BudgetTotal(localBudgets)
  }

  /** Setting one ceiling moves the total by the difference between the new and the old value. */
  lemma {:induction false} SetBudgetTotal(b: CategoryBudget, categoryId: string, value: real)
    requires WellFormedBudget(b)
    ensures TotalBudget(SetBudget(b, categoryId, value))
            == TotalBudget(b) - BudgetLookup(b, categoryId).GetOr(0.0) + value
  {
    var f := (e: BudgetEntry) => e.limit;
    if b == [] {
      SumOfSingleton(BudgetEntry(categoryId, value), f);
    } else {
      var rest := b[1..];
      assert BudgetKeys(b) == [b[0].category] + BudgetKeys(rest);
      if b[0].category == categoryId {
        SumOfAppend([BudgetEntry(categoryId, value)], rest, f);
        SumOfSingleton(BudgetEntry(categoryId, value), f);
      } else {
        assert WellFormedBudget(rest) by {
          var ks := BudgetKeys(rest);
          forall i, j | 0 <= i < j < |ks| ensures ks[i] != ks[j] {
            assert ks[i] == BudgetKeys(b)[i + 1] && ks[j] == BudgetKeys(b)[j + 1];
          }
        }
        SetBudgetTotal(rest, categoryId, value);
        SumOfAppend([b[0]], SetBudget(rest, categoryId, value), f);
        SumOfSingleton(b[0], f);
      }
    }
  }

  /** Whether a transaction counts toward `categoryId` in the given effective month. */
  predicate CountsToward(t: Transaction, categoryId: string, month: int, year: int) {
    t.category == categoryId && GetEffectiveMonth(t).month == month && GetEffectiveMonth(t).year == year
  }

  /**
   * `getCurrentSpending`: the amounts, income and expense alike, of the category
   * in the month. It is 0 when no transaction counts toward the category, and
   * never negative when the amounts that count are not.
   */
  function GetCurrentSpending(transactions: seq<Transaction>, categoryId: string, month: int, year: int): (r: real)
    ensures (forall t :: t in transactions ==> !CountsToward(t, categoryId, month, year)) ==> r == 0.0
    ensures (forall t :: t in transactions && CountsToward(t, categoryId, month, year) ==> t.amount >= 0.0) ==> r >= 0.0
  {
    var counted := Filter(transactions, (t: Transaction) => CountsToward(t, categoryId, month, year));
    assert counted != [] ==> counted[0] in counted;
    SumOfNonNegative(counted, Amount);
    SumOf(counted, Amount)
  }

  /** One more transaction adds its full amount when it counts toward the category, whatever its type. */
  lemma SpendingAppend(transactions: seq<Transaction>, t: Transaction, categoryId: string, month: int, year: int)
    ensures GetCurrentSpending(transactions + [t], categoryId, month, year)
            == GetCurrentSpending(transactions, categoryId, month, year)
               + (if t.category == categoryId && GetEffectiveMonth(t) == MonthYear(month, year) then t.amount else 0.0)
  {
    SumFilterSnoc(transactions, t, (x: Transaction) => CountsToward(x, categoryId, month, year), Amount);
  }

  /** The groups the view lists: the expense group, then the savings group; the income group is left out. */
  function GroupsToDisplay(): (r: seq<CategoryGroup>)
    ensures r == [CATEGORY_GROUPS[1], CATEGORY_GROUPS[2]]
    ensures r[0].id == "expense" && r[1].id == "savings"
  {
    DisplayedGroups();
    Filter(CATEGORY_GROUPS, (g: CategoryGroup) => g.id == "expense" || g.id == "savings")
  }

  lemma DisplayedGroups()
    ensures Filter(CATEGORY_GROUPS, (g: CategoryGroup) => g.id == "expense" || g.id == "savings")
            == [CATEGORY_GROUPS[1], CATEGORY_GROUPS[2]]
  {
    var gs := CATEGORY_GROUPS;
    var p := (g: CategoryGroup) => g.id == "expense" || g.id == "savings";
    assert gs[1..][1..] == gs[2..];
    assert gs[2..][1..] == [];
    assert Filter(gs[2..], p) == [gs[2]];
    assert Filter(gs[1..], p) == [gs[1]] + [gs[2]];
  }

  /** The spending of each item of `items`, summed. */
  function SpendingOver(items: seq<CategoryItem>, transactions: seq<Transaction>, month: int, year: int): real {
    if items == [] then 0.0
    else GetCurrentSpending(transactions, items[0].id, month, year) + SpendingOver(items[1..], transactions, month, year)
  }

  /** Counted in `totalSpent`: an expense or savings item, in the current effective month. */
  predicate CountsTowardDisplayed(t: Transaction, month: int, year: int) {
    t.category in ExpenseIds + SavingsIds && GetEffectiveMonth(t) == MonthYear(month, year)
  }

  /**
   * `totalSpent`: spending summed over the items of the displayed groups. It
   * equals one sum over the ledger of the amounts of the transactions of the
   * month whose category is an expense or savings item, each counted once.
   */
  function TotalSpent(transactions: seq<Transaction>, month: int, year: int): (r: real)
    ensures r == SumOf(Filter(transactions, (t: Transaction) => CountsTowardDisplayed(t, month, year)), Amount)
  {
    DisplayedItems();
    DisplayedIds();
    DisplayedIdsDistinct();
    SpendingOverIsFilteredSum(ExpenseItems + SavingsItems, transactions, month, year);
    FilterCongruent(transactions,
      (t: Transaction) => t.category in Ids(ExpenseItems + SavingsItems) && GetEffectiveMonth(t) == MonthYear(month, year),
      (t: Transaction) => CountsTowardDisplayed(t, month, year));
    SpendingOver(AllItems(GroupsToDisplay()), transactions, month, year)
  }

  /** The displayed items are the expense items followed by the savings items. */
  lemma DisplayedItems()
    ensures AllItems(GroupsToDisplay()) == ExpenseItems + SavingsItems
  {
    var gs := CATEGORY_GROUPS;
    assert [gs[1], gs[2]][1..] == [gs[2]];
    assert [gs[2]][1..] == [];
  }

  /** With no transactions every item's spending is 0. */
  lemma {:induction false} SpendingOverNothing(items: seq<CategoryItem>, month: int, year: int)
    ensures SpendingOver(items, [], month, year) == 0.0
  {
    if items != [] {
      SpendingOverNothing(items[1..], month, year);
    }
  }

  /** Over items with distinct ids, the per-item spending adds up to one sum over the ledger. */
  lemma {:induction false} SpendingOverIsFilteredSum(items: seq<CategoryItem>, transactions: seq<Transaction>, month: int, year: int)
    requires NoDuplicates(Ids(items))
    ensures SpendingOver(items, transactions, month, year)
            == SumOf(Filter(transactions, (t: Transaction) => t.category in Ids(items) && GetEffectiveMonth(t) == MonthYear(month, year)), Amount)
  {
    if transactions == [] {
      SpendingOverNothing(items, month, year);
    } else {
      var init := transactions[..|transactions| - 1];
      var last := transactions[|transactions| - 1];
      assert transactions == init + [last];
      SpendingOverIsFilteredSum(items, init, month, year);
      SpendingOverAppend(items, init, last, month, year);
      SumFilterSnoc(init, last, (t: Transaction) => t.category in Ids(items) && GetEffectiveMonth(t) == MonthYear(month, year), Amount);
    }
  }

  /** Over items with distinct ids, one more transaction adds its amount once if its category is among them. */
  lemma {:induction false} SpendingOverAppend(items: seq<CategoryItem>, transactions: seq<Transaction>, t: Transaction, month: int, year: int)
    requires NoDuplicates(Ids(items))
    ensures SpendingOver(items, transactions + [t], month, year)
            == SpendingOver(items, transactions, month, year)
               + (if t.category in Ids(items) && GetEffectiveMonth(t) == MonthYear(month, year) then t.amount else 0.0)
  {
    if items != [] {
      var rest := items[1..];
      assert Ids(items) == [items[0].id] + Ids(rest);
      assert NoDuplicates(Ids(rest)) by {
        forall i, j | 0 <= i < j < |Ids(rest)| ensures Ids(rest)[i] != Ids(rest)[j] {
          assert Ids(rest)[i] == Ids(items)[i + 1] && Ids(rest)[j] == Ids(items)[j + 1];
        }
      }
      assert items[0].id !in Ids(rest);
      SpendingAppend(transactions, t, items[0].id, month, year);
      SpendingOverAppend(rest, transactions, t, month, year);
    }
  }

  /**
   * `totalSpent` grows by a transaction's amount exactly when its category is an
   * expense or savings item and its effective month is the current one.
   */
  lemma TotalSpentAppend(transactions: seq<Transaction>, t: Transaction, month: int, year: int)
    ensures TotalSpent(transactions + [t], month, year)
            == TotalSpent(transactions, month, year)
               + (if t.category in ExpenseIds + SavingsIds && GetEffectiveMonth(t) == MonthYear(month, year) then t.amount else 0.0)
  {
    DisplayedItems();
    DisplayedIds();
    DisplayedIdsDistinct();
    SpendingOverAppend(ExpenseItems + SavingsItems, transactions, t, month, year);
  }

  lemma DisplayedIds()
    ensures Ids(ExpenseItems + SavingsItems) == ExpenseIds + SavingsIds
  {
    IdsAppend(ExpenseItems, SavingsItems);
    ExpenseIdsListed();
    SavingsIdsListed();
  }

  lemma DisplayedIdsDistinct()
    ensures NoDuplicates(ExpenseIds + SavingsIds)
  {
    AllCategoryIdsDistinct();
    assert AllCategoryIds == IncomeIds + (ExpenseIds + SavingsIds);
    NoDuplicatesRight(IncomeIds, ExpenseIds + SavingsIds);
  }

  /** What each item row shows. */
  datatype ItemProgress = ItemProgress(
    budget: real,
    spent: real,
    rawPercentage: real,
    barPercentage: real,
    isOverBudget: bool)

  /** The row of one item: `localBudgets[id] || 0`, the percentage, the bar capped at 100, the over-budget flag. */
  function GetItemProgress(localBudgets: CategoryBudget, categoryId: string, spent: real): (p: ItemProgress)
    ensures p.budget == BudgetLookup(localBudgets, categoryId).GetOr(0.0)
    ensures p.budget <= 0.0 ==> p.rawPercentage == 0.0
    ensures p.barPercentage <= 100.0
    ensures spent >= 0.0 ==> p.barPercentage >= 0.0
    ensures p.budget > 0.0 ==> (p.barPercentage == 100.0 <==> spent >= p.budget)
    ensures p.isOverBudget <==> spent > p.budget
    ensures p.budget > 0.0 ==> p.rawPercentage * p.budget == spent * 100.0
    ensures p.barPercentage == if p.rawPercentage < 100.0 then p.rawPercentage else 100.0
  {
    var budget := match BudgetLookup(localBudgets, categoryId)
      case Some(v) => (if v != 0.0 then v else 0.0)
      case None => 0.0;
    var rawPercentage := if budget > 0.0 then (spent / budget) * 100.0 else 0.0;
    var barPercentage := if rawPercentage < 100.0 then rawPercentage else 100.0;
    assert budget > 0.0 ==> (rawPercentage >= 100.0 <==> spent >= budget) by {
      if budget > 0.0 {
        RatioAtLeastOne(spent, budget);
      }
    }
    ItemProgress(budget, spent, rawPercentage, barPercentage, spent > budget)
  }

  /** For a positive ceiling, the percentage reaches 100 exactly when spending reaches the ceiling. */
  lemma RatioAtLeastOne(spent: real, budget: real)
    requires budget > 0.0
    ensures (spent / budget) * 100.0 >= 100.0 <==> spent >= budget
  {
    var q := spent / budget;
    assert q * budget == spent;
    if q >= 1.0 {
      assert (q - 1.0) * budget >= 0.0;
    } else {
      assert (1.0 - q) * budget > 0.0;
    }
  }
}
