/** The record types of the application and its initial state. */
module Types {
  import opened Optional
  import opened Seqs
  import opened Calendar

  datatype TransactionType = Income | Expense

  datatype CardType = Debit | Credit | Cash | Savings

  /** A funding source; `balance` is a plain amount, never updated by the ledger. */
  datatype Card = Card(
    id: string,
    userId: string,
    name: string,
    last4: Option<string>,
    color: string,
    balance: real,
    kind: CardType)

  /** One income or expense; `date` stands for the ISO date string as the getters read it. */
  datatype Transaction = Transaction(
    id: string,
    userId: string,
    cardId: Option<string>,
    kind: TransactionType,
    amount: real,
    description: string,
    category: string,
    date: Date,
    createdAt: string)

  /** The value a transaction contributes to a plain (unsigned) sum of amounts. */
  function Amount(t: Transaction): real {
    t.amount
  }

  /**
   * One own property of a `CategoryBudget` object. The object is kept as its
   * list of properties in insertion order. That is the order `Object.values`
   * reports for keys that are not integer-like (integer-like keys such as "12"
   * come first, ascending); no category id is integer-like, and the only use of
   * the order is a sum, which does not depend on it.
   */
  datatype BudgetEntry = BudgetEntry(category: string, limit: real)

  type CategoryBudget = seq<BudgetEntry>

  datatype FinanceData = FinanceData(
    userName: string,
    currentAccountBalance: real,
    monthlyGoal: real,
    monthlyBudget: real,
    transactions: seq<Transaction>,
    categoryBudgets: CategoryBudget,
    cards: seq<Card>)

  /** The property names of a budget object, in order. */
  function BudgetKeys(b: CategoryBudget): (keys: seq<string>)
    ensures |keys| == |b|
    ensures forall i :: 0 <= i < |b| ==> keys[i] == b[i].category
  {
    seq(|b|, i requires 0 <= i < |b| => b[i].category)
  }

  /** The keys of a non-empty object: its first property, then the keys of the rest. */
  lemma BudgetKeysCons(b: CategoryBudget)
    requires b != []
    ensures BudgetKeys(b) == [b[0].category] + BudgetKeys(b[1..])
  {
  }

  /** An object never holds the same property twice. */
  predicate WellFormedBudget(b: CategoryBudget) {
    NoDuplicates(BudgetKeys(b))
  }

  /** `b[key]`: the value stored under `key`, if any. */
  function BudgetLookup(b: CategoryBudget, key: string): (r: Option<real>)
    ensures r.None? <==> key !in BudgetKeys(b)
    ensures r.Some? ==> BudgetEntry(key, r.value) in b
  {
    if b == [] then None
    else
      BudgetKeysCons(b);
      if b[0].category == key then Some(b[0].limit)
      else BudgetLookup(b[1..], key)
  }

  /** `Object.values(b).reduce((sum, val) => sum + val, 0)`. */
  function BudgetTotal(b: CategoryBudget): real {
    SumOf(b, (e: BudgetEntry) => e.limit)
  }

  const DefaultCategoryBudgets: CategoryBudget := [
    BudgetEntry("vivienda", 500.0),
    BudgetEntry("alimentacion", 300.0),
    BudgetEntry("transporte", 200.0),
    BudgetEntry("ocio", 150.0),
    BudgetEntry("suscripciones", 100.0),
    BudgetEntry("salud", 100.0),
    BudgetEntry("suministros", 150.0),
    BudgetEntry("telecomunicaciones", 50.0),
    BudgetEntry("compras", 200.0),
    BudgetEntry("entretenimiento", 100.0),
    BudgetEntry("viajes", 100.0),
    BudgetEntry("seguros", 50.0)
  ]

  const InitialFinanceData: FinanceData := FinanceData(
    userName := "Usuario",
    currentAccountBalance := 0.0,
    monthlyGoal := 500.0,
    monthlyBudget := 2000.0,
    transactions := [],
    categoryBudgets := DefaultCategoryBudgets,
    cards := [])

  /** The property names of the default budget object, in order. */
  const DefaultBudgetCategories: seq<string> := [
    "vivienda", "alimentacion", "transporte", "ocio", "suscripciones", "salud",
    "suministros", "telecomunicaciones", "compras", "entretenimiento", "viajes", "seguros"
  ]

  lemma DefaultBudgetKeys()
    ensures BudgetKeys(DefaultCategoryBudgets) == DefaultBudgetCategories
  {
  }

  /** The default per-category ceilings add up to the default monthly budget. */
  lemma DefaultBudgetsMatchMonthlyBudget()
    ensures BudgetTotal(InitialFinanceData.categoryBudgets) == InitialFinanceData.monthlyBudget == 2000.0
  {
    var b := DefaultCategoryBudgets;
    assert b == b[..4] + b[4..8] + b[8..];
    SumOfAppend(b[..4] + b[4..8], b[8..], (e: BudgetEntry) => e.limit);
    SumOfAppend(b[..4], b[4..8], (e: BudgetEntry) => e.limit);
    DefaultBudgetChunks();
  }

  /** The default ceilings, four at a time. */
  lemma DefaultBudgetChunks()
    ensures BudgetTotal(DefaultCategoryBudgets[..4]) == 1150.0
    ensures BudgetTotal(DefaultCategoryBudgets[4..8]) == 400.0
    ensures BudgetTotal(DefaultCategoryBudgets[8..]) == 450.0
  {
    var b := DefaultCategoryBudgets;
    SumOfFour(b[..4], (e: BudgetEntry) => e.limit);
    SumOfFour(b[4..8], (e: BudgetEntry) => e.limit);
    SumOfFour(b[8..], (e: BudgetEntry) => e.limit);
  }

  /** No category appears twice among the default ceilings. */
  lemma DefaultBudgetsDistinct()
    ensures WellFormedBudget(InitialFinanceData.categoryBudgets)
  {
    DefaultBudgetKeys();
    DefaultCategoryNamesDistinct();
  }

  lemma DefaultCategoryNamesDistinct()
    ensures NoDuplicates(DefaultBudgetCategories)
  {
  }

  /** Every default ceiling is strictly positive. */
  lemma DefaultBudgetsPositive()
    ensures forall e :: e in InitialFinanceData.categoryBudgets ==> e.limit > 0.0
  {
  }
}
