/**
 * The two summary panels. Each builds a category -> spend map with the same
 * loop over the transactions, then shows one row per category of the list.
 */
module Summaries {
  import opened Wrappers
  import opened Expenses
  import opened Aggregation

  /** `m` is the per-category map of `txs`: keyed by exactly the categories that
      occur, each holding that category's spend. */
  predicate IsTally(txs: seq<Transaction>, m: map<string, real>)
  {
    && m.Keys == CategoriesOf(txs)
    && forall c :: c in m ==> m[c] == CategorySum(txs, c)
  }

  /** The `forEach` loop that fills `categoryExpenses`: each transaction adds
      its amount to its category's entry, which starts from `?? 0`. */
  method TallyByCategory(txs: seq<Transaction>) returns (m: map<string, real>)
    ensures IsTally(txs, m)
    ensures forall c :: Lookup(m, c) == CategorySum(txs, c)
  {
    m := map[];
    for i := 0 to |txs|
      invariant IsTally(txs[..i], m)
    {
      var t := txs[i];
      ghost var done := txs[..i];
      assert Lookup(m, t.category) == CategorySum(done, t.category);
      m := m[t.category := Lookup(m, t.category) + t.amount];
      assert txs[..i + 1] == done + [t];
      assert (done + [t])[..i] == done;
    }
    assert txs[..|txs|] == txs;
    forall c ensures Lookup(m, c) == CategorySum(txs, c) {
      assert c in m || CategorySum(txs, c) == 0.0;
    }
  }

  /** The per-category map is determined by the transactions alone, so the
      expense summary and the budget summary, which each run the loop, build
      the same map. */
  lemma TallyDeterministic(txs: seq<Transaction>, m1: map<string, real>, m2: map<string, real>)
    requires IsTally(txs, m1) && IsTally(txs, m2)
    ensures m1 == m2
  {
  }

  datatype ExpenseRow = ExpenseRow(category: string, spent: real)

  /** `ExpenseSummary.build`: one row per listed category with its spend, zero
      when the category has no transactions. */
  method ExpenseSummaryRows(txs: seq<Transaction>, categories: seq<string>) returns (rows: seq<ExpenseRow>)
    ensures |rows| == |categories|
    ensures forall i :: 0 <= i < |rows| ==> rows[i] == ExpenseRow(categories[i], CategorySum(txs, categories[i]))
  {
    var categoryExpenses := TallyByCategory(txs);
    rows := seq(|categories|, i requires 0 <= i < |categories| =>
      ExpenseRow(categories[i], Lookup(categoryExpenses, categories[i])));
  }

  datatype BudgetRow = BudgetRow(category: string, budget: real, spent: real, overspent: Option<real>)

  /** `BudgetSummary.build`: one row per listed category with its budget, its
      spend and, when the spend is strictly above the budget, the excess. */
  method BudgetSummaryRows(txs: seq<Transaction>, categories: seq<string>, budgets: map<string, real>)
    returns (rows: seq<BudgetRow>)
    ensures |rows| == |categories|
    ensures forall i :: 0 <= i < |rows| ==>
      && rows[i].category == categories[i]
      && rows[i].budget == Lookup(budgets, categories[i])
      && rows[i].spent == CategorySum(txs, categories[i])
      && (rows[i].overspent.Some? <==> rows[i].spent > rows[i].budget)
      && (rows[i].overspent.Some? ==> rows[i].overspent.value == rows[i].spent - rows[i].budget)
  {
    var categoryExpenses := TallyByCategory(txs);
    rows := seq(|categories|, i requires 0 <= i < |categories| =>
      var budget := Lookup(budgets, categories[i]);
      var spent := Lookup(categoryExpenses, categories[i]);
      BudgetRow(categories[i], budget, spent, Overspend(spent, budget)));
  }

  /** A worked ledger under the real configuration. */
  const WorkedLedger: seq<Transaction> := [
    Transaction("1", "groceries", 400.0, "Food", 0),
    Transaction("2", "dinner", 700.0, "Food", 1),
    Transaction("3", "bus pass", 300.0, "Transport", 2),
    Transaction("4", "gift", 5.0, "Miscellaneous", 3)]

  /** The total and the category spends of the worked ledger, fold step by fold step. */
  lemma WorkedLedgerSpends()
    ensures TotalSpent(WorkedLedger) == 1405.0
    ensures CategorySum(WorkedLedger, "Food") == 1100.0
    ensures CategorySum(WorkedLedger, "Transport") == 300.0
    ensures CategorySum(WorkedLedger, "Miscellaneous") == 5.0
    ensures CategorySum(WorkedLedger, "Shopping") == 0.0
  {
    var txs := WorkedLedger;
    var t1, t2, t3, t4 := txs[0], txs[1], txs[2], txs[3];
    assert txs[..3] == [t1, t2, t3] && [t1, t2, t3][..2] == [t1, t2] && [t1, t2][..1] == [t1];
    assert [t1][..0] == [];
    assert TotalSpent([t1]) == 400.0;
    assert TotalSpent([t1, t2]) == 1100.0;
    assert TotalSpent([t1, t2, t3]) == 1400.0;
    assert CategorySum([t1], "Food") == 400.0;
    assert CategorySum([t1, t2], "Food") == 1100.0;
    assert CategorySum([t1, t2, t3], "Food") == 1100.0;
    assert CategorySum([t1], "Transport") == 0.0;
    assert CategorySum([t1, t2], "Transport") == 0.0;
    assert CategorySum([t1], "Miscellaneous") == 0.0 && CategorySum([t1, t2], "Miscellaneous") == 0.0;
    assert CategorySum([t1], "Shopping") == 0.0 && CategorySum([t1, t2], "Shopping") == 0.0;
    assert CategorySum([t1, t2, t3], "Transport") == 300.0;
    assert CategorySum([t1, t2, t3], "Miscellaneous") == 0.0;
    assert CategorySum([t1, t2, t3], "Shopping") == 0.0;
  }

  /** Every category of the worked ledger is listed, so its category spends add up to its total. */
  lemma WorkedLedgerAddsUp()
    ensures CategoryTotals(WorkedLedger, Categories) == TotalSpent(WorkedLedger)
  {
    assert KnownCategories(WorkedLedger) by {
      assert Categories[0] == "Food" && Categories[2] == "Transport" && Categories[5] == "Miscellaneous";
      forall i | 0 <= i < |WorkedLedger| ensures WorkedLedger[i].category in Categories {
        assert WorkedLedger[i].category in {"Food", "Transport", "Miscellaneous"};
      }
    }
    RegistryTotalsMatchTotal(WorkedLedger);
  }

  /** Against the real budget table: Food at 400 + 700 is 100 over its 1000
      budget, Transport at exactly its 300 budget is not flagged, Miscellaneous,
      budgeted at 0, is flagged for any positive spend, an unused category is
      not flagged, and the category spends add up to the total of 1405. */
  lemma WorkedExample()
    ensures Overspend(CategorySum(WorkedLedger, "Food"), Lookup(Budgets, "Food")) == Some(100.0)
    ensures Overspend(CategorySum(WorkedLedger, "Transport"), Lookup(Budgets, "Transport")) == None
    ensures Overspend(CategorySum(WorkedLedger, "Miscellaneous"), Lookup(Budgets, "Miscellaneous")) == Some(5.0)
    ensures Overspend(CategorySum(WorkedLedger, "Shopping"), Lookup(Budgets, "Shopping")) == None
    ensures CategoryTotals(WorkedLedger, Categories) == TotalSpent(WorkedLedger) == 1405.0
  {
    WorkedLedgerSpends();
    assert Lookup(Budgets, "Food") == 1000.0 && Lookup(Budgets, "Transport") == 300.0;
    assert Lookup(Budgets, "Miscellaneous") == 0.0 && Lookup(Budgets, "Shopping") == 500.0;
    WorkedLedgerAddsUp();
  }
}
