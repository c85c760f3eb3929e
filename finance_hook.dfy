/**
 * The ledger held by the finance provider: one `FinanceData` record that each
 * operation replaces. Each updater is a pure function of the previous record;
 * the `FinanceProvider` class holds the current record and applies them.
 */
module FinanceHook {
  import opened Optional
  import opened Seqs
  import opened Types

  /** The effect of a transaction on the account balance: income adds, anything else subtracts. */
  function SignedAmount(t: Transaction): real {
    if t.kind == Income then t.amount else -t.amount
  }

  function SignedSum(transactions: seq<Transaction>): real {
    SumOf(transactions, SignedAmount)
  }

  /** The ledger invariant: the balance is the signed sum of the recorded transactions. */
  predicate Balanced(d: FinanceData) {
    d.currentAccountBalance == SignedSum(d.transactions)
  }

  predicate UniqueIds(transactions: seq<Transaction>) {
    forall i, j :: 0 <= i < j < |transactions| ==> transactions[i].id != transactions[j].id
  }

  predicate IdAbsent(transactions: seq<Transaction>, id: string) {
    forall t :: t in transactions ==> t.id != id
  }

  /** The updater of `addTransaction`. */
  function WithTransaction(prev: FinanceData, t: Transaction): (next: FinanceData)
    ensures next.transactions == prev.transactions + [t]
    ensures next.currentAccountBalance == prev.currentAccountBalance + SignedAmount(t)
    ensures next == prev.(currentAccountBalance := next.currentAccountBalance, transactions := next.transactions)
  {
    var newBalance := if t.kind == Income
      then prev.currentAccountBalance + t.amount
      else prev.currentAccountBalance - t.amount;
    prev.(currentAccountBalance := newBalance, transactions := prev.transactions + [t])
  }

  /**
   * The updater of `deleteTransaction`: the transactions without the id stay,
   * in their order and with their multiplicity.
   */
  function WithoutTransaction(prev: FinanceData, id: string): (next: FinanceData)
    ensures forall x :: x in next.transactions <==> x in prev.transactions && x.id != id
    ensures forall x :: multiset(next.transactions)[x] == if x.id != id then multiset(prev.transactions)[x] else 0
    ensures SubsequenceOf(next.transactions, prev.transactions)
    ensures IdAbsent(prev.transactions, id) ==> next == prev
    ensures !IdAbsent(prev.transactions, id) ==>
              var first := prev.transactions[FindIndex(prev.transactions, (x: Transaction) => x.id == id)];
              next.currentAccountBalance == prev.currentAccountBalance - SignedAmount(first)
    ensures next == prev.(currentAccountBalance := next.currentAccountBalance, transactions := next.transactions)
  {
    match Find(prev.transactions, (x: Transaction) => x.id == id)
    case None =>
      SubsequenceOfSelf(prev.transactions);
      prev
    case Some(transaction) =>
      FilterIsSubsequence(prev.transactions, (x: Transaction) => x.id != id);
      FilterMultiplicity(prev.transactions, (x: Transaction) => x.id != id);
      var newBalance := if transaction.kind == Income
        then prev.currentAccountBalance - transaction.amount
        else prev.currentAccountBalance + transaction.amount;
      prev.(currentAccountBalance := newBalance,
            transactions := Filter(prev.transactions, (x: Transaction) => x.id != id))
  }

  /** A `Partial<FinanceData>`: each field is either given or absent. */
  datatype SettingsPatch = SettingsPatch(
    userName: Option<string>,
    currentAccountBalance: Option<real>,
    monthlyGoal: Option<real>,
    monthlyBudget: Option<real>,
    transactions: Option<seq<Transaction>>,
    categoryBudgets: Option<CategoryBudget>,
    cards: Option<seq<Card>>)

  /**
   * The updater of `updateSettings`: `{ ...prev, ...settings }`. A field given
   * in the patch is overwritten; an absent one is kept.
   */
  function MergeSettings(prev: FinanceData, patch: SettingsPatch): (next: FinanceData)
    ensures patch.userName.Some? ==> next.userName == patch.userName.value
    ensures patch.userName.None? ==> next.userName == prev.userName
    ensures patch.currentAccountBalance.Some? ==> next.currentAccountBalance == patch.currentAccountBalance.value
    ensures patch.currentAccountBalance.None? ==> next.currentAccountBalance == prev.currentAccountBalance
    ensures patch.monthlyGoal.Some? ==> next.monthlyGoal == patch.monthlyGoal.value
    ensures patch.monthlyGoal.None? ==> next.monthlyGoal == prev.monthlyGoal
    ensures patch.monthlyBudget.Some? ==> next.monthlyBudget == patch.monthlyBudget.value
    ensures patch.monthlyBudget.None? ==> next.monthlyBudget == prev.monthlyBudget
    ensures patch.transactions.Some? ==> next.transactions == patch.transactions.value
    ensures patch.transactions.None? ==> next.transactions == prev.transactions
    ensures patch.categoryBudgets.Some? ==> next.categoryBudgets == patch.categoryBudgets.value
    ensures patch.categoryBudgets.None? ==> next.categoryBudgets == prev.categoryBudgets
    ensures patch.cards.Some? ==> next.cards == patch.cards.value
    ensures patch.cards.None? ==> next.cards == prev.cards
  {
    FinanceData(
      userName := patch.userName.GetOr(prev.userName),
      currentAccountBalance := patch.currentAccountBalance.GetOr(prev.currentAccountBalance),
      monthlyGoal := patch.monthlyGoal.GetOr(prev.monthlyGoal),
      monthlyBudget := patch.monthlyBudget.GetOr(prev.monthlyBudget),
      transactions := patch.transactions.GetOr(prev.transactions),
      categoryBudgets := patch.categoryBudgets.GetOr(prev.categoryBudgets),
      cards := patch.cards.GetOr(prev.cards))
  }

  /** The state a `FinanceProvider` holds. */
  class FinanceProvider {
    var data: FinanceData

    constructor ()
      ensures data == InitialFinanceData
    {
      data := InitialFinanceData;
    }

    method AddTransaction(transaction: Transaction)
      modifies this
      ensures data == WithTransaction(old(data), transaction)
      ensures old(Balanced(data)) ==> Balanced(data)
    {
      AddKeepsBalanced(data, transaction);
      data := WithTransaction(data, transaction);
    }

    method DeleteTransaction(id: string)
      modifies this
      ensures data == WithoutTransaction(old(data), id)
      ensures old(Balanced(data) && UniqueIds(data.transactions)) ==> Balanced(data) && UniqueIds(data.transactions)
    {
      if Balanced(data) && UniqueIds(data.transactions) {
        DeleteKeepsBalanced(data, id);
      }
      data := WithoutTransaction(data, id);
    }

    method UpdateSettings(settings: SettingsPatch)
      modifies this
      ensures data == MergeSettings(old(data), settings)
    {
      data := MergeSettings(data, settings);
    }

    method ResetData()
      modifies this
      ensures data == InitialFinanceData
    {
      data := InitialFinanceData;
    }
  }

  /** The initial record satisfies the ledger invariant: balance 0 and no transactions. */
  lemma InitialIsBalanced()
    ensures InitialFinanceData.currentAccountBalance == 0.0
    ensures InitialFinanceData.transactions == [] && InitialFinanceData.cards == []
    ensures Balanced(InitialFinanceData) && UniqueIds(InitialFinanceData.transactions)
  {
  }

  lemma AddKeepsBalanced(d: FinanceData, t: Transaction)
    ensures Balanced(d) ==> Balanced(WithTransaction(d, t))
  {
    SumOfAppend(d.transactions, [t], SignedAmount);
  }

  /** Adding a transaction with a new id keeps the ids unique. */
  lemma AddKeepsUniqueIds(d: FinanceData, t: Transaction)
    requires UniqueIds(d.transactions) && IdAbsent(d.transactions, t.id)
    ensures UniqueIds(WithTransaction(d, t).transactions)
  {
    var ts := WithTransaction(d, t).transactions;
    forall i, j | 0 <= i < j < |ts| ensures ts[i].id != ts[j].id {
      if j == |ts| - 1 {
        assert ts[i] in d.transactions;
      }
    }
  }

  /** The signed sum splits into the transactions with a given id and the others. */
  lemma SignedSumSplit(transactions: seq<Transaction>, id: string)
    ensures SignedSum(transactions)
            == SignedSum(Filter(transactions, (x: Transaction) => x.id != id))
             + SignedSum(Filter(transactions, (x: Transaction) => x.id == id))
  {
    var all := (x: Transaction) => true;
    FilterAll(transactions, all);
    SumFilterSplit(transactions, all, (x: Transaction) => x.id != id, (x: Transaction) => x.id == id, SignedAmount);
  }

  /**
   * How far a delete moves the ledger off its invariant: every transaction
   * carrying the id is removed, but only the first one's amount is reversed.
   */
  lemma DeleteDrift(d: FinanceData, id: string)
    ensures var next := WithoutTransaction(d, id);
            next.currentAccountBalance - SignedSum(next.transactions)
            == d.currentAccountBalance - SignedSum(d.transactions)
             + (if IdAbsent(d.transactions, id) then 0.0 else
                  SignedSum(Filter(d.transactions, (x: Transaction) => x.id == id))
                  - SignedAmount(d.transactions[FindIndex(d.transactions, (x: Transaction) => x.id == id)]))
  {
    if IdAbsent(d.transactions, id) {
    } else {
      SignedSumSplit(d.transactions, id);
    }
  }

  /** With unique ids, the transactions carrying an id are the single first match. */
  lemma {:induction false} UniqueMatch(transactions: seq<Transaction>, id: string)
    requires UniqueIds(transactions) && !IdAbsent(transactions, id)
    ensures Filter(transactions, (x: Transaction) => x.id == id)
            == [transactions[FindIndex(transactions, (x: Transaction) => x.id == id)]]
  {
    var p := (x: Transaction) => x.id == id;
    var rest := transactions[1..];
    assert UniqueIds(rest) by {
      forall i, j | 0 <= i < j < |rest| ensures rest[i].id != rest[j].id {
        assert rest[i] == transactions[i + 1] && rest[j] == transactions[j + 1];
      }
    }
    if transactions[0].id == id {
      forall x | x in rest ensures !p(x) {
        var k :| 0 <= k < |rest| && rest[k] == x;
        assert transactions[k + 1] == x;
      }
      FilterNone(rest, p);
    } else {
      assert transactions[0] !in Filter(transactions, p);
      var x :| x in transactions && x.id == id;
      assert x in rest;
      UniqueMatch(rest, id);
      var k := FindIndex(rest, p);
      assert FindIndex(transactions, p) == k + 1 by {
        assert p(transactions[k + 1]);
        forall j | 0 <= j < k + 1 ensures !p(transactions[j]) {
          if j > 0 { assert transactions[j] == rest[j - 1]; }
        }
      }
    }
  }

  /** With unique ids, deleting keeps the ledger invariant and the uniqueness. */
  lemma DeleteKeepsBalanced(d: FinanceData, id: string)
    requires Balanced(d) && UniqueIds(d.transactions)
    ensures Balanced(WithoutTransaction(d, id))
    ensures UniqueIds(WithoutTransaction(d, id).transactions)
  {
    DeleteDrift(d, id);
    if !IdAbsent(d.transactions, id) {
      UniqueMatch(d.transactions, id);
      var first := d.transactions[FindIndex(d.transactions, (x: Transaction) => x.id == id)];
      assert Filter(d.transactions, (x: Transaction) => x.id == id) == [first];
      SumOfSingleton(first, SignedAmount);
      FilterKeepsUniqueIds(d.transactions, (x: Transaction) => x.id != id);
    }
  }

  lemma {:induction false} FilterKeepsUniqueIds(transactions: seq<Transaction>, p: Transaction -> bool)
    requires UniqueIds(transactions)
    ensures UniqueIds(Filter(transactions, p))
  {
    if transactions != [] {
      var rest := transactions[1..];
      assert UniqueIds(rest) by {
        forall i, j | 0 <= i < j < |rest| ensures rest[i].id != rest[j].id {
          assert rest[i] == transactions[i + 1] && rest[j] == transactions[j + 1];
        }
      }
      FilterKeepsUniqueIds(rest, p);
      var f := Filter(transactions, p);
      var fr := Filter(rest, p);
      if p(transactions[0]) {
        assert f == [transactions[0]] + fr;
        forall i, j | 0 <= i < j < |f| ensures f[i].id != f[j].id {
          assert f[j] == fr[j - 1];
          if i == 0 {
            assert fr[j - 1] in fr;
            var k :| 0 <= k < |rest| && rest[k] == f[j];
            assert transactions[k + 1] == f[j];
          } else {
            assert f[i] == fr[i - 1];
          }
        }
      } else {
        assert f == fr;
      }
    }
  }

  /**
   * Two transactions sharing an id (the transaction form submits none, so all
   * of its transactions share the missing id): deleting the id removes both
   * but reverses only the first, and the ledger no longer balances.
   */
  lemma SharedIdDeleteBreaksBalance(d: FinanceData, id: string)
    requires Balanced(d)
    requires |d.transactions| == 2
    requires d.transactions[0].id == id && d.transactions[1].id == id
    requires SignedAmount(d.transactions[1]) != 0.0
    ensures !Balanced(WithoutTransaction(d, id))
  {
    DeleteDrift(d, id);
    SharedPair(d.transactions, id);
  }

  /** Two transactions sharing `id`: the first is the first match, and both are matches. */
  lemma SharedPair(ts: seq<Transaction>, id: string)
    requires |ts| == 2 && ts[0].id == id && ts[1].id == id
    ensures !IdAbsent(ts, id)
    ensures FindIndex(ts, (x: Transaction) => x.id == id) == 0
    ensures SignedSum(Filter(ts, (x: Transaction) => x.id == id)) == SignedAmount(ts[0]) + SignedAmount(ts[1])
  {
    var p := (x: Transaction) => x.id == id;
    assert ts[0] in ts;
    FilterAll(ts, p);
    assert ts == [ts[0]] + [ts[1]];
    SumOfAppend([ts[0]], [ts[1]], SignedAmount);
  }

  /** Adding a transaction with a new id and deleting that id restores the previous record. */
  lemma AddThenDeleteRestores(d: FinanceData, t: Transaction)
    requires IdAbsent(d.transactions, t.id)
    ensures WithoutTransaction(WithTransaction(d, t), t.id) == d
  {
    var ts := d.transactions;
    var p := (x: Transaction) => x.id == t.id;
    FindAppend(ts, [t], p);
    assert Find([t], p) == Some(t);
    FilterAppend(ts, [t], (x: Transaction) => x.id != t.id);
    FilterAll(ts, (x: Transaction) => x.id != t.id);
    assert Filter([t], (x: Transaction) => x.id != t.id) == [];
  }

  /** Applying the same patch twice is applying it once. */
  lemma MergeIdempotent(prev: FinanceData, patch: SettingsPatch)
    ensures MergeSettings(MergeSettings(prev, patch), patch) == MergeSettings(prev, patch)
  {
  }
}
