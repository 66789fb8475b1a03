/**
 * The transaction record and the fixed configuration of the expense tracker:
 * the category list offered by the form's dropdown and the monthly budget table.
 */
module Expenses {

  /** An instant, in microseconds since the epoch (the resolution of a Dart `DateTime`). */
  type Timestamp = int

  /** `Duration(days: 7)` in microseconds. */
  const WeekMicros: int := 7 * 24 * 60 * 60 * 1_000_000

  /** One recorded expense. Immutable: every field is final in the source. */
  datatype Transaction = Transaction(
    id: string,
    title: string,
    amount: real,
    category: string,
    date: Timestamp)

  /** The category list, in display order. */
  const Categories: seq<string> :=
    ["Food", "Shopping", "Transport", "Utilities", "Entertainment", "Miscellaneous"]

  /** The monthly budget of each category. */
  const Budgets: map<string, real> :=
    map[
      "Food" := 1000.0,
      "Shopping" := 500.0,
      "Transport" := 300.0,
      "Utilities" := 200.0,
      "Entertainment" := 400.0,
      "Miscellaneous" := 0.0
    ]

  /** No category name occurs twice in `cats`. */
  predicate Distinct(cats: seq<string>)
  {
    forall i, j :: 0 <= i < j < |cats| ==> cats[i] != cats[j]
  }

  /** Every transaction of `txs` carries a category of the category list. */
  predicate KnownCategories(txs: seq<Transaction>)
  {
    forall i :: 0 <= i < |txs| ==> txs[i].category in Categories
  }

  /** The configuration is consistent: the list has no duplicates, every listed
      category has a budget and no budget belongs to an unlisted category, and
      every budget is non-negative. */
  lemma ConfigurationConsistent()
    ensures Distinct(Categories)
    ensures Budgets.Keys == set c | c in Categories
    ensures forall c :: c in Budgets ==> Budgets[c] >= 0.0
  {
  }
}
