/** The fixed category taxonomy and the lookup of a category by id. */
module Categories {
  import opened Optional
  import opened Seqs
  import Types

  /** The icon components the taxonomy refers to. */
  datatype Icon =
    | Home | Smartphone | Shield | Tv | ShoppingCart | Car | Lightbulb | HeartPulse
    | Utensils | Clapperboard | ShoppingBag | Plane | Briefcase | Laptop | TrendingUp
    | PiggyBank | Wallet

  datatype CategoryItem = CategoryItem(id: string, name: string, icon: Icon)  // `name` is the source's `label`

  datatype CategoryGroup = CategoryGroup(
    id: string,
    title: string,
    color: string,
    bgColor: string,
    icon: Icon,
    items: seq<CategoryItem>)

  const IncomeItems: seq<CategoryItem> := [
    CategoryItem("salario", "Salario", Briefcase),
    CategoryItem("freelance", "Freelance", Laptop),
    CategoryItem("inversiones", "Inversiones", TrendingUp),
    CategoryItem("otros_ingresos", "Otros Ingresos", Wallet)
  ]

  const ExpenseItems: seq<CategoryItem> := [
    CategoryItem("vivienda", "Vivienda", Home),
    CategoryItem("alimentacion", "Alimentación", ShoppingCart),
    CategoryItem("transporte", "Transporte", Car),
    CategoryItem("suministros", "Suministros", Lightbulb),
    CategoryItem("telecomunicaciones", "Telecomunicaciones", Smartphone),
    CategoryItem("salud", "Salud", HeartPulse),
    CategoryItem("seguros", "Seguros", Shield),
    CategoryItem("suscripciones", "Suscripciones", Tv),
    CategoryItem("ocio", "Ocio y Restaurantes", Utensils),
    CategoryItem("entretenimiento", "Entretenimiento", Clapperboard),
    CategoryItem("compras", "Compras Personales", ShoppingBag),
    CategoryItem("viajes", "Viajes", Plane)
  ]

  const SavingsItems: seq<CategoryItem> := [
    CategoryItem("ahorro", "Ahorro General", PiggyBank),
    CategoryItem("fondo_emergencia", "Fondo de Emergencia", Shield),
    CategoryItem("inversion_largo_plazo", "Inversión a Largo Plazo", TrendingUp),
    CategoryItem("objetivo_especifico", "Objetivo Específico", Plane)
  ]

  const CATEGORY_GROUPS: seq<CategoryGroup> := [
    CategoryGroup("income", "Ingresos", "text-[#9AD93D]", "bg-[#9AD93D]/10", TrendingUp, IncomeItems),
    CategoryGroup("expense", "Gastos", "text-[#9AD93D]", "bg-[#9AD93D]/10", ShoppingCart, ExpenseItems),
    CategoryGroup("savings", "Ahorros e Inversión", "text-[#9AD93D]", "bg-[#9AD93D]/10", PiggyBank, SavingsItems)
  ]

  /** All items of `groups`, group after group. */
  function AllItems(groups: seq<CategoryGroup>): (items: seq<CategoryItem>)
    ensures forall g, i :: g in groups && i in g.items ==> i in items
    ensures forall i :: i in items ==> exists g :: g in groups && i in g.items
  {
    if groups == [] then [] else groups[0].items + AllItems(groups[1..])
  }

  function Ids(items: seq<CategoryItem>): (ids: seq<string>)
    ensures |ids| == |items|
    ensures forall k :: 0 <= k < |items| ==> ids[k] == items[k].id
  {
    seq(|items|, k requires 0 <= k < |items| => items[k].id)
  }

  /** `items.find(i => i.id === categoryId)`. */
  function FindItem(items: seq<CategoryItem>, categoryId: string): Option<CategoryItem> {
    Find(items, (i: CategoryItem) => i.id == categoryId)
  }

  /** The search of `getCategoryInfo`: group by group, the first item with the id. */
  function LookupInGroups(groups: seq<CategoryGroup>, categoryId: string): (r: Option<CategoryItem>)
    ensures r.Some? ==> r.value.id == categoryId
  {
    if groups == [] then None
    else match FindItem(groups[0].items, categoryId)
      case Some(item) => Some(item)
      case None => LookupInGroups(groups[1..], categoryId)
  }

  /** What `getCategoryInfo` returns: the listed item, or a fallback named after the id. */
  function CategoryInfo(categoryId: string): CategoryItem {
    LookupInGroups(CATEGORY_GROUPS, categoryId).GetOr(CategoryItem(categoryId, categoryId, Wallet))
  }

  method GetCategoryInfo(categoryId: string) returns (info: CategoryItem)
    ensures info == CategoryInfo(categoryId)
    ensures info.id == categoryId
  {
    var groups := CATEGORY_GROUPS;
    var i := 0;
    while i < |groups|
      invariant 0 <= i <= |groups|
      invariant LookupInGroups(groups[i..], categoryId) == LookupInGroups(groups, categoryId)
    {
      assert groups[i..][1..] == groups[i + 1..];
      var item := FindItem(groups[i].items, categoryId);
      if item.Some? {
        return item.value;
      }
      i := i + 1;
    }
    return CategoryItem(categoryId, categoryId, Wallet);
  }

  /** Searching groups in order and stopping at the first hit is searching the concatenated items. */
  lemma {:induction false} LookupIsFirstMatch(groups: seq<CategoryGroup>, categoryId: string)
    ensures LookupInGroups(groups, categoryId) == FindItem(AllItems(groups), categoryId)
  {
    if groups != [] {
      LookupIsFirstMatch(groups[1..], categoryId);
      FindAppend(groups[0].items, AllItems(groups[1..]), (i: CategoryItem) => i.id == categoryId);
    }
  }

  /** Three groups, income, expense and savings, of 4, 12 and 4 items. */
  lemma GroupLayout()
    ensures |CATEGORY_GROUPS| == 3
    ensures CATEGORY_GROUPS[0].id == "income" && |CATEGORY_GROUPS[0].items| == 4
    ensures CATEGORY_GROUPS[1].id == "expense" && |CATEGORY_GROUPS[1].items| == 12
    ensures CATEGORY_GROUPS[2].id == "savings" && |CATEGORY_GROUPS[2].items| == 4
  {
  }

  const IncomeIds: seq<string> := ["salario", "freelance", "inversiones", "otros_ingresos"]

  const ExpenseIds: seq<string> := [
    "vivienda", "alimentacion", "transporte", "suministros", "telecomunicaciones", "salud",
    "seguros", "suscripciones", "ocio", "entretenimiento", "compras", "viajes"
  ]

  const SavingsIds: seq<string> := ["ahorro", "fondo_emergencia", "inversion_largo_plazo", "objetivo_especifico"]

  const AllCategoryIds: seq<string> := IncomeIds + ExpenseIds + SavingsIds

  lemma IdsAppend(a: seq<CategoryItem>, b: seq<CategoryItem>)
    ensures Ids(a + b) == Ids(a) + Ids(b)
  {
  }

  lemma GroupsFlatten()
    ensures AllItems(CATEGORY_GROUPS) == IncomeItems + ExpenseItems + SavingsItems
  {
    assert CATEGORY_GROUPS[2..][1..] == [];
    assert CATEGORY_GROUPS[1..][1..] == CATEGORY_GROUPS[2..];
    assert AllItems(CATEGORY_GROUPS[2..]) == SavingsItems;
    assert AllItems(CATEGORY_GROUPS[1..]) == ExpenseItems + SavingsItems;
  }

  lemma IncomeIdsListed()
    ensures Ids(IncomeItems) == IncomeIds
  {
    var ids := Ids(IncomeItems);
    assert ids[0] == IncomeItems[0].id && ids[1] == IncomeItems[1].id;
    assert ids[2] == IncomeItems[2].id && ids[3] == IncomeItems[3].id;
  }

  lemma ExpenseIdsListed()
    ensures Ids(ExpenseItems) == ExpenseIds
  {
    var ids := Ids(ExpenseItems);
    var e := ExpenseItems;
    assert ids[0] == e[0].id && ids[1] == e[1].id && ids[2] == e[2].id && ids[3] == e[3].id;
    assert ids[4] == e[4].id && ids[5] == e[5].id && ids[6] == e[6].id && ids[7] == e[7].id;
    assert ids[8] == e[8].id && ids[9] == e[9].id && ids[10] == e[10].id && ids[11] == e[11].id;
  }

  lemma SavingsIdsListed()
    ensures Ids(SavingsItems) == SavingsIds
  {
    var ids := Ids(SavingsItems);
    assert ids[0] == SavingsItems[0].id && ids[1] == SavingsItems[1].id;
    assert ids[2] == SavingsItems[2].id && ids[3] == SavingsItems[3].id;
  }

  lemma AllCategoryIdsListed()
    ensures Ids(AllItems(CATEGORY_GROUPS)) == AllCategoryIds
  {
    GroupsFlatten();
    IdsAppend(IncomeItems + ExpenseItems, SavingsItems);
    IdsAppend(IncomeItems, ExpenseItems);
    IncomeIdsListed();
    ExpenseIdsListed();
    SavingsIdsListed();
  }

  lemma AllCategoryIdsDistinct()
    ensures NoDuplicates(AllCategoryIds)
  {
  }

  /** No id occurs twice across the three groups, so the lookup is unambiguous. */
  lemma CategoryIdsUnique()
    ensures NoDuplicates(Ids(AllItems(CATEGORY_GROUPS)))
  {
    AllCategoryIdsListed();
    AllCategoryIdsDistinct();
  }

  /** A listed id is found, and the item found carries that id. */
  lemma ListedIdFound(categoryId: string)
    requires categoryId in AllCategoryIds
    ensures CategoryInfo(categoryId) in AllItems(CATEGORY_GROUPS)
    ensures CategoryInfo(categoryId).id == categoryId
  {
    var all := AllItems(CATEGORY_GROUPS);
    AllCategoryIdsListed();
    LookupIsFirstMatch(CATEGORY_GROUPS, categoryId);
    var k :| 0 <= k < |all| && Ids(all)[k] == categoryId;
    assert all[k] in all;
  }

  /** An unlisted id gets the fallback item whose id and label are the id itself. */
  lemma UnlistedIdFallsBack(categoryId: string)
    requires categoryId !in AllCategoryIds
    ensures CategoryInfo(categoryId) == CategoryItem(categoryId, categoryId, Wallet)
  {
    var all := AllItems(CATEGORY_GROUPS);
    AllCategoryIdsListed();
    forall x | x in all ensures x.id != categoryId {
      var k :| 0 <= k < |all| && all[k] == x;
      assert Ids(all)[k] == x.id;
    }
    assert FindItem(all, categoryId) == None;
    LookupIsFirstMatch(CATEGORY_GROUPS, categoryId);
  }

  lemma DefaultNamesAreExpenseIds()
    ensures forall k :: k in Types.DefaultBudgetCategories <==> k in ExpenseIds
  {
    var d := Types.DefaultBudgetCategories;
    var e := ExpenseIds;
    assert d == [e[0], e[1], e[2], e[8], e[7], e[5], e[3], e[4], e[10], e[9], e[11], e[6]];
  }

  /** The default budget object has one entry per expense category and no other. */
  lemma DefaultBudgetsCoverExpenseCategories()
    ensures forall k :: k in Types.BudgetKeys(Types.InitialFinanceData.categoryBudgets) <==> k in Ids(CATEGORY_GROUPS[1].items)
    ensures |Types.InitialFinanceData.categoryBudgets| == |CATEGORY_GROUPS[1].items|
    ensures Types.WellFormedBudget(Types.InitialFinanceData.categoryBudgets)
  {
    Types.DefaultBudgetKeys();
    Types.DefaultBudgetsDistinct();
    ExpenseIdsListed();
    DefaultNamesAreExpenseIds();
  }
}
