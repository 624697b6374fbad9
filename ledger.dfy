/** The ledger's values: expense records, their total, the remaining budget
    and the category list with its no-duplicate discipline. */
module Ledger {
  import opened Text

  datatype Option<T> = None | Some(value: T)

  /** One row of the ledger: an ISO `YYYY-MM-DD` date, a free-text category
      (not checked against the category list) and an amount. */
  datatype Expense = Expense(date: string, category: string, amount: real)

  /** The categories a new dashboard starts with, and the default for a save
      file without a "categories" key. */
  const StarterCategories: seq<string> := ["Rent", "Food", "Entertainment", "Car", "Credit Cards"]

  /** Sum of all record amounts. */
  function Total(es: seq<Expense>): real {
    if es == [] then 0.0 else Total(es[..|es| - 1]) + es[|es| - 1].amount
  }

  /** The total of two ledgers placed one after the other is the sum of
      their totals. */
  lemma {:induction false} TotalConcat(xs: seq<Expense>, ys: seq<Expense>)
    ensures Total(xs + ys) == Total(xs) + Total(ys)
  {
    if ys == [] {
      assert xs + ys == xs;
    } else {
      var init := ys[..|ys| - 1];
      assert (xs + ys)[..|xs + ys| - 1] == xs + init;
      TotalConcat(xs, init);
    }
  }

  /** Appending one record raises the total by exactly its amount. */
  lemma TotalAppend(es: seq<Expense>, e: Expense)
    ensures Total(es + [e]) == Total(es) + e.amount
  {
    assert (es + [e])[..|es|] == es;
  }

  predicate AllPositive(es: seq<Expense>) {
    forall i :: 0 <= i < |es| ==> es[i].amount > 0.0
  }

  /** Records that were all accepted by add_expense (amount > 0) have a
      non-negative total, positive as soon as there is one record. */
  lemma {:induction false} TotalPositive(es: seq<Expense>)
    requires AllPositive(es)
    ensures Total(es) >= 0.0
    ensures es != [] ==> Total(es) > 0.0
  {
    if es != [] {
      TotalPositive(es[..|es| - 1]);
    }
  }

  /** The remaining budget shown by update_budget_info: never clamped, so it
      goes negative exactly when the total exceeds the budget, and positive
      spending can only lower it below the budget. */
  function RemainingBudget(budget: real, es: seq<Expense>): (r: real)
    ensures r < 0.0 <==> Total(es) > budget
    ensures r + Total(es) == budget
    ensures AllPositive(es) && es != [] ==> r < budget
  {
    assert AllPositive(es) ==> Total(es) >= 0.0 && (es != [] ==> Total(es) > 0.0) by {
      if AllPositive(es) { TotalPositive(es); }
    }
    budget - Total(es)
  }

  predicate NoDuplicates(s: seq<string>) {
    forall i, j :: 0 <= i < j < |s| ==> s[i] != s[j]
  }

  /** The category list after add_category with the raw entry text: the
      stripped name is appended only when it is non-empty and not already in
      the list (exact match). */
  function WithCategory(cats: seq<string>, entry: string): (r: seq<string>)
    ensures cats <= r && |r| <= |cats| + 1
    ensures |r| == |cats| + 1 <==> Strip(entry) != [] && Strip(entry) !in cats
    ensures |r| == |cats| + 1 ==> r[|cats|] == Strip(entry)
    ensures Strip(entry) != [] ==> Strip(entry) in r
    ensures NoDuplicates(cats) ==> NoDuplicates(r)
  {
    var name := Strip(entry);
    if name != [] && name !in cats then cats + [name] else cats
  }

  /** Adding the same category twice leaves the list as after the first. */
  lemma WithCategoryIdempotent(cats: seq<string>, entry: string)
    ensures WithCategory(WithCategory(cats, entry), entry) == WithCategory(cats, entry)
  {
  }
}
