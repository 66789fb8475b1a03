/**
 * The aggregations the home screen recomputes from the transaction list on
 * every build: the total spent, the transactions of the last seven days, the
 * spend of each category and the overspend of a category against its budget.
 */
module Aggregation {
  import opened Wrappers
  import opened Expenses

  // ---------------------------------------------------------------- total spent

  /** `transactions.fold(0.0, (sum, item) => sum + item.amount)`: a left fold
      from zero, so the last transaction is added last. When no amount is
      negative the total is non-negative and bounds every single amount; the
      form accepts negative amounts, so nothing guarantees that premise. */
  function TotalSpent(txs: seq<Transaction>): (r: real)
    ensures (forall i :: 0 <= i < |txs| ==> txs[i].amount >= 0.0) ==>
              r >= 0.0 && forall i :: 0 <= i < |txs| ==> txs[i].amount <= r
  {
    if txs == [] then 0.0 else TotalSpent(txs[..|txs| - 1]) + txs[|txs| - 1].amount
  }

  /** Appending a transaction adds exactly its amount to the total. */
  lemma TotalSpentAppend(txs: seq<Transaction>, t: Transaction)
    ensures TotalSpent([]) == 0.0
    ensures TotalSpent(txs + [t]) == TotalSpent(txs) + t.amount
  {
  }

  /** The total is the sum of the totals of the two halves of any split. */
  lemma {:induction false} TotalSpentConcat(a: seq<Transaction>, b: seq<Transaction>)
    ensures TotalSpent(a + b) == TotalSpent(a) + TotalSpent(b)
  {
    if b == [] {
      assert a + b == a;
    } else {
      var b' := b[..|b| - 1];
      var t := b[|b| - 1];
      assert b == b' + [t];
      assert a + b == (a + b') + [t];
      TotalSpentConcat(a, b');
      TotalSpentAppend(a + b', t);
      TotalSpentAppend(b', t);
    }
  }

  // ------------------------------------------------------- recent transactions

  /** `tx.date.isAfter(now.subtract(Duration(days: 7)))`: strictly after the cutoff. */
  predicate IsRecent(t: Transaction, now: Timestamp)
  {
    t.date > now - WeekMicros
  }

  /** `transactions.where(...).toList()`, scanned front to back. */
  function Recent(txs: seq<Transaction>, now: Timestamp): (r: seq<Transaction>)
    ensures |r| <= |txs|
    ensures forall i :: 0 <= i < |r| ==> r[i] in txs && IsRecent(r[i], now)
  {
    if txs == [] then []
    else (if IsRecent(txs[0], now) then [txs[0]] else []) + Recent(txs[1..], now)
  }

  /** `sub` is `full` with some elements left out and the rest kept in order. */
  predicate IsSubsequence(sub: seq<Transaction>, full: seq<Transaction>)
  {
    if sub == [] then true
    else if full == [] then false
    else (sub[0] == full[0] && IsSubsequence(sub[1..], full[1..])) || IsSubsequence(sub, full[1..])
  }

  /** A transaction is in the recent list iff it is in the ledger and dated
      strictly after the cutoff. */
  lemma {:induction false} RecentMembers(txs: seq<Transaction>, now: Timestamp, t: Transaction)
    ensures t in Recent(txs, now) <==> t in txs && IsRecent(t, now)
  {
    if txs != [] {
      RecentMembers(txs[1..], now, t);
      assert txs == [txs[0]] + txs[1..];
    }
  }

  /** The recent list keeps the ledger's order. */
  lemma {:induction false} RecentIsSubsequence(txs: seq<Transaction>, now: Timestamp)
    ensures IsSubsequence(Recent(txs, now), txs)
  {
    if txs != [] {
      RecentIsSubsequence(txs[1..], now);
      var rest := Recent(txs[1..], now);
      if IsRecent(txs[0], now) {
        assert Recent(txs, now) == [txs[0]] + rest;
        assert ([txs[0]] + rest)[1..] == rest;
      } else {
        assert Recent(txs, now) == rest;
        if rest != [] {
          assert IsSubsequence(rest, txs[1..]);
        }
      }
    }
  }

  /** Appending a transaction extends the recent list by that transaction when
      it is recent, and leaves it as it was otherwise. With `Recent([]) == []`
      this determines the recent list of every ledger. */
  lemma {:induction false} RecentAppend(txs: seq<Transaction>, t: Transaction, now: Timestamp)
    ensures Recent([], now) == []
    ensures Recent(txs + [t], now) == Recent(txs, now) + (if IsRecent(t, now) then [t] else [])
  {
    var tail := if IsRecent(t, now) then [t] else [];
    if txs == [] {
      assert [] + [t] == [t];
      assert Recent([t], now) == tail + Recent([], now);
      assert tail + [] == tail;
    } else {
      var head := if IsRecent(txs[0], now) then [txs[0]] else [];
      assert (txs + [t])[0] == txs[0];
      assert (txs + [t])[1..] == txs[1..] + [t];
      RecentAppend(txs[1..], t, now);
      calc {
        Recent(txs + [t], now);
        head + Recent(txs[1..] + [t], now);
        head + (Recent(txs[1..], now) + tail);
        (head + Recent(txs[1..], now)) + tail;
        Recent(txs, now) + tail;
      }
    }
  }

  /** A transaction dated exactly seven days before `now` is not recent, one
      dated a microsecond later is. */
  lemma RecentBoundary(txs: seq<Transaction>, t: Transaction, now: Timestamp)
    ensures t.date == now - WeekMicros ==> Recent(txs + [t], now) == Recent(txs, now)
    ensures t.date == now - WeekMicros + 1 ==> Recent(txs + [t], now) == Recent(txs, now) + [t]
  {
    RecentAppend(txs, t, now);
    assert Recent(txs, now) + [] == Recent(txs, now);
  }

  // ------------------------------------------------------ per-category spend

  /** The spend of category `c`: the amounts of its transactions, added in ledger order. */
  function CategorySum(txs: seq<Transaction>, c: string): (r: real)
    ensures c !in CategoriesOf(txs) ==> r == 0.0
    ensures (forall i :: 0 <= i < |txs| ==> txs[i].amount >= 0.0) ==> 0.0 <= r <= TotalSpent(txs)
  {
    if txs == [] then 0.0
    else if txs[|txs| - 1].category == c then CategorySum(txs[..|txs| - 1], c) + txs[|txs| - 1].amount
    else CategorySum(txs[..|txs| - 1], c)
  }

  /** The categories that occur in `txs`: the keys the per-category map acquires. */
  function CategoriesOf(txs: seq<Transaction>): (r: set<string>)
    ensures forall i :: 0 <= i < |txs| ==> txs[i].category in r
  {
    if txs == [] then {} else CategoriesOf(txs[..|txs| - 1]) + {txs[|txs| - 1].category}
  }

  /** A category is a key iff some transaction carries it. */
  lemma {:induction false} CategoriesOfMembers(txs: seq<Transaction>, c: string)
    ensures c in CategoriesOf(txs) <==> exists i :: 0 <= i < |txs| && txs[i].category == c
  {
    if txs != [] {
      var p := txs[..|txs| - 1];
      CategoriesOfMembers(p, c);
      if c in CategoriesOf(p) {
        var i :| 0 <= i < |p| && p[i].category == c;
        assert txs[i].category == c;
      }
      if i :| 0 <= i < |txs| && txs[i].category == c {
        if i < |p| { assert p[i].category == c; }
      }
    }
  }

  /** `m[c] ?? 0`: the map entry, or zero for a category without one. Both the
      per-category spend and the budget are read this way. */
  function Lookup(m: map<string, real>, c: string): (r: real)
    ensures c in m ==> r == m[c]
    ensures c !in m ==> r == 0.0
  {
    if c in m then m[c] else 0.0
  }

  /** The sum of the spends of the categories `cats`. */
  function CategoryTotals(txs: seq<Transaction>, cats: seq<string>): real
  {
    if cats == [] then 0.0 else CategorySum(txs, cats[0]) + CategoryTotals(txs, cats[1..])
  }

  lemma {:induction false} CategoryTotalsEmpty(cats: seq<string>)
    ensures CategoryTotals([], cats) == 0.0
  {
    if cats != [] {
      CategoryTotalsEmpty(cats[1..]);
    }
  }

  /** Appending a transaction adds its amount to the category totals over a list
      without duplicates exactly when its category is in the list. */
  lemma {:induction false} CategoryTotalsAppend(txs: seq<Transaction>, t: Transaction, cats: seq<string>)
    requires Distinct(cats)
    ensures CategoryTotals(txs + [t], cats)
            == CategoryTotals(txs, cats) + (if t.category in cats then t.amount else 0.0)
  {
    if cats != [] {
      assert Distinct(cats[1..]) by {
        forall i, j | 0 <= i < j < |cats[1..]| ensures cats[1..][i] != cats[1..][j] {
          assert cats[1..][i] == cats[i + 1] && cats[1..][j] == cats[j + 1];
        }
      }
      CategoryTotalsAppend(txs, t, cats[1..]);
      assert (txs + [t])[..|txs|] == txs;
      assert t.category in cats <==> t.category == cats[0] || t.category in cats[1..] by {
        assert cats == [cats[0]] + cats[1..];
      }
      if t.category == cats[0] {
        assert t.category !in cats[1..] by {
          forall k | 0 <= k < |cats[1..]| ensures cats[1..][k] != t.category {
            assert cats[1..][k] == cats[k + 1];
          }
        }
      }
    }
  }

  /** When every transaction's category is in a list without duplicates, the
      spends of the listed categories add up to the total spent. */
  lemma {:induction false} CategoryTotalsMatchTotal(txs: seq<Transaction>, cats: seq<string>)
    requires Distinct(cats)
    requires forall i :: 0 <= i < |txs| ==> txs[i].category in cats
    ensures CategoryTotals(txs, cats) == TotalSpent(txs)
  {
    if txs == [] {
      CategoryTotalsEmpty(cats);
    } else {
      var p := txs[..|txs| - 1];
      var t := txs[|txs| - 1];
      assert txs == p + [t];
      CategoryTotalsMatchTotal(p, cats);
      CategoryTotalsAppend(p, t, cats);
      TotalSpentAppend(p, t);
    }
  }

  /** For a ledger whose categories all come from the category list, the
      per-category spends over that list add up to the total spent. */
  lemma RegistryTotalsMatchTotal(txs: seq<Transaction>)
    requires KnownCategories(txs)
    ensures CategoryTotals(txs, Categories) == TotalSpent(txs)
  {
    ConfigurationConsistent();
    CategoryTotalsMatchTotal(txs, Categories);
  }

  // --------------------------------------------------------------- overspend

  /** The overspend flag of a category: present exactly when the spend is
      strictly above the budget, and then equal to the excess. */
  function Overspend(spent: real, budget: real): (r: Option<real>)
    ensures r.Some? <==> spent > budget
    ensures r.Some? ==> r.value > 0.0 && budget + r.value == spent
  {
    if spent > budget then Some(spent - budget) else None
  }
}
