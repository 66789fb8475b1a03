/**
 * The home screen's transaction list and the form that feeds it.
 */
module Tracker {
  import opened Wrappers
  import opened Expenses
  import opened Aggregation

  /** The transaction list the home screen owns. It only ever grows at the end. */
  class Ledger {
    var transactions: seq<Transaction>

    /** Every recorded transaction carries a category of the category list. */
    predicate AllKnown()
      reads this
    {
      KnownCategories(transactions)
    }

    constructor ()
      ensures transactions == []
      ensures AllKnown()
    {
      transactions := [];
    }

    /** `_addTransaction`: builds a record with `id` (the clock's reading, as
        text) and appends it. Neither the amount's sign nor the category is
        checked here. */
    method Add(title: string, amount: real, category: string, date: Timestamp, id: string)
      modifies this
      ensures transactions == old(transactions) + [Transaction(id, title, amount, category, date)]
      ensures |transactions| == |old(transactions)| + 1
      ensures forall i :: 0 <= i < |old(transactions)| ==> transactions[i] == old(transactions)[i]
      ensures TotalSpent(transactions) == TotalSpent(old(transactions)) + amount
      ensures forall now: Timestamp ::
                (Recent(transactions, now) == Recent(old(transactions), now) + (if date > now - WeekMicros then [transactions[|transactions| - 1]] else []))
      ensures AllKnown() <==> old(AllKnown()) && category in Categories
    {
      var newTransaction := Transaction(id, title, amount, category, date);
      TotalSpentAppend(transactions, newTransaction);
      forall now: Timestamp
        ensures Recent(transactions + [newTransaction], now) ==
          Recent(transactions, now) + (if IsRecent(newTransaction, now) then [newTransaction] else [])
      {
        RecentAppend(transactions, newTransaction, now);
      }
      transactions := transactions + [newTransaction];
    }
  }

  /** What the form holds when "Add Transaction" is pressed: the two text
      fields, the dropdown's selection (none until one is picked) and the date. */
  datatype Form = Form(
    titleText: string,
    amountText: string,
    selectedCategory: Option<string>,
    selectedDate: Timestamp)

  /** The arguments `_submitData` hands to `addTransaction`. */
  datatype Entry = Entry(title: string, amount: real, category: string, date: Timestamp)

  /** The dropdown lists exactly the category list, so a selection is one of them. */
  predicate SelectionFromDropdown(form: Form)
  {
    form.selectedCategory.Some? ==> form.selectedCategory.value in Categories
  }

  /** The guard of `_submitData`. `parse` stands for `double.tryParse`. The
      entry is produced iff the title is non-empty, the amount parses and a
      category is selected, and it carries exactly what was entered: a negative
      amount passes. */
  function Validate(form: Form, parse: string -> Option<real>): (r: Option<Entry>)
    ensures r.None? <==> form.titleText == [] || parse(form.amountText).None? || form.selectedCategory.None?
    ensures r.Some? ==> && r.value.title == form.titleText
                        && Some(r.value.amount) == parse(form.amountText)
                        && Some(r.value.category) == form.selectedCategory
                        && r.value.date == form.selectedDate
  {
    var enteredAmount := parse(form.amountText);
    if form.titleText == [] || enteredAmount.None? || form.selectedCategory.None? then None
    else Some(Entry(form.titleText, enteredAmount.value, form.selectedCategory.value, form.selectedDate))
  }

  /** `_submitData`: appends the entered transaction when the guard lets it
      through and leaves the ledger as it was otherwise. Because the selection
      comes from the category list, the ledger keeps only known categories. */
  method Submit(ledger: Ledger, form: Form, parse: string -> Option<real>, id: string) returns (added: bool)
    requires SelectionFromDropdown(form)
    modifies ledger
    ensures added <==> Validate(form, parse).Some?
    ensures added ==>
      var e := Validate(form, parse).value;
      ledger.transactions == old(ledger.transactions) + [Transaction(id, e.title, e.amount, e.category, e.date)]
    ensures !added ==> ledger.transactions == old(ledger.transactions)
    ensures old(ledger.AllKnown()) ==> ledger.AllKnown()
  {
    var entry := Validate(form, parse);
    if entry.None? {
      return false;
    }
    ledger.Add(entry.value.title, entry.value.amount, entry.value.category, entry.value.date, id);
    added := true;
  }
}
