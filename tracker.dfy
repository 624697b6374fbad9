/** The application object: the ledger state the handlers of the expense
    tracker window update in place. Dialog answers, entry-field text and the
    outcome of file access are parameters; widgets are represented only by
    the rows of the expense table (`view`). */
module Tracker {
  import opened Text
  import opened Ledger
  import opened SortEngine
  import opened Aggregator
  import opened Persistence

  /** The message box a handler shows when it refuses its input. */
  datatype Warning = InvalidBudget | InvalidCurrencySymbol | InvalidCategory | InvalidAmount | NoData

  /** How a handler ends. */
  datatype Status =
    | Ok
    | Warned(warning: Warning)  // a warning or error box was shown
    | Cancelled                 // a file dialog was dismissed
    | Raised                    // an exception escaped the handler

  /** A file written by save_data: where, and the document in it. */
  datatype SavedFile = SavedFile(path: string, document: Document)

  /** Every field of the application object, as one value. */
  datatype AppState = AppState(
    expenses: seq<Expense>,
    categories: seq<string>,
    monthlyBudget: real,
    currencySymbol: string,
    unsavedChanges: bool,
    dataLoaded: bool,
    loadedFilePath: Option<string>,
    sortColumn: Option<Column>,
    sortOrder: int,
    view: seq<Expense>)

  /** Python's truth value of an optional path: present and non-empty. */
  predicate HasPath(p: Option<string>) {
    p.Some? && p.value != ""
  }

  class ExpenseTracker {
    var expenses: seq<Expense>
    var categories: seq<string>
    var monthlyBudget: real
    var currencySymbol: string
    var unsavedChanges: bool
    var dataLoaded: bool
    var loadedFilePath: Option<string>
    var sortColumn: Option<Column>
    var sortOrder: int
    /** The rows of the expense table, top to bottom. */
    var view: seq<Expense>

    /** The sort order is always 1 (ascending) or -1 (descending). */
    ghost predicate Valid()
      reads this
    {
      sortOrder == 1 || sortOrder == -1
    }

    function State(): AppState
      reads this
    {
      AppState(expenses, categories, monthlyBudget, currencySymbol, unsavedChanges,
               dataLoaded, loadedFilePath, sortColumn, sortOrder, view)
    }

    /** The four fields a save file holds. */
    function Snapshot(): Fields
      reads this
    {
      Fields(monthlyBudget, currencySymbol, expenses, categories)
    }

    /** __init__, followed by the reset_data of the home screen it opens. */
    constructor ()
      ensures Valid()
      ensures State() == AppState([], [], 0.0, "", false, false, None, None, 1, [])
    {
      expenses := [];
      categories := StarterCategories;
      monthlyBudget := 0.0;
      currencySymbol := "";
      unsavedChanges := false;
      dataLoaded := false;
      loadedFilePath := None;
      sortColumn := None;
      sortOrder := 1;
      view := [];
      new;
      ResetData();
    }

    /** reset_data: empty ledger, zero budget, no file, nothing unsaved. */
    method ResetData()
      modifies this
      ensures State() == old(State()).(expenses := [], categories := [], monthlyBudget := 0.0,
                                       dataLoaded := false, unsavedChanges := false, loadedFilePath := None)
    {
      expenses := [];
      categories := [];
      monthlyBudget := 0.0;
      dataLoaded := false;
      unsavedChanges := false;
      loadedFilePath := None;
    }

    /** confirm_new_dashboard with the two entry texts; `budgetValue` is what
        `float(budgetText)` gives, None when it raises. The budget is stored
        before the currency symbol is checked, so an empty symbol leaves the
        new budget in place. On success the fresh main window has an empty
        table and an unset sort state. */
    method ConfirmNewDashboard(budgetText: string, budgetValue: Option<real>, symbolText: string)
      returns (s: Status)
      requires Valid()
      modifies this
      ensures Valid()
      ensures budgetText == "" ==> s == Warned(InvalidBudget) && State() == old(State())
      ensures budgetText != "" && budgetValue.None? ==> s == Raised && State() == old(State())
      ensures budgetText != "" && budgetValue.Some? && symbolText == "" ==>
                s == Warned(InvalidCurrencySymbol)
                && State() == old(State()).(monthlyBudget := budgetValue.value)
      ensures budgetText != "" && budgetValue.Some? && symbolText != "" ==>
                s == Ok
                && State() == old(State()).(monthlyBudget := budgetValue.value, currencySymbol := symbolText,
                                            categories := StarterCategories,
                                            sortColumn := None, sortOrder := 1, view := [])
    {
      if budgetText == "" {
        return Warned(InvalidBudget);
      }
      if budgetValue.None? {
        return Raised;
      }
      monthlyBudget := budgetValue.value;
      if symbolText == "" {
        return Warned(InvalidCurrencySymbol);
      }
      currencySymbol := symbolText;
      categories := StarterCategories;
      // create_widgets: a new, empty expense table and a fresh sort state
      view := [];
      sortColumn := None;
      sortOrder := 1;
      s := Ok;
    }

    /** change_currency_symbol with the dialog's answer (None when
        cancelled). Any answer, even the empty text, replaces the symbol and
        the table is refilled from the ledger. */
    method ChangeCurrencySymbol(answer: Option<string>)
      modifies this
      ensures answer.None? ==> State() == old(State())
      ensures answer.Some? ==> State() == old(State()).(currencySymbol := answer.value, view := expenses)
    {
      if answer.Some? {
        currencySymbol := answer.value;
        view := expenses;
      }
    }

    /** add_category with the raw entry text. */
    method AddCategory(entry: string) returns (s: Status)
      modifies this
      ensures State() == old(State()).(categories := WithCategory(old(categories), entry))
      ensures s == Ok <==> Strip(entry) != [] && Strip(entry) !in old(categories)
      ensures s == Ok ==> categories == old(categories) + [Strip(entry)]
      ensures s != Ok ==> s == Warned(InvalidCategory) && categories == old(categories)
      ensures NoDuplicates(old(categories)) ==> NoDuplicates(categories)
    {
      var name := Strip(entry);
      if name != [] && name !in categories {
        categories := categories + [name];
        s := Ok;
      } else {
        s := Warned(InvalidCategory);
      }
    }

    /** add_expense with the date picked, the category text and `amount`,
        what `float()` gives for the amount text (None when it raises). */
    method AddExpense(date: string, category: string, amount: Option<real>) returns (s: Status)
      modifies this
      ensures amount.None? || amount.value <= 0.0 ==> s == Warned(InvalidAmount) && State() == old(State())
      ensures amount.Some? && amount.value > 0.0 ==>
                s == Ok
                && expenses == old(expenses) + [Expense(date, category, amount.value)]
                && State() == old(State()).(expenses := expenses, view := expenses, unsavedChanges := true)
      ensures Total(expenses) == Total(old(expenses)) + (if s == Ok then amount.value else 0.0)
      ensures AllPositive(old(expenses)) ==> AllPositive(expenses)
    {
      if amount.None? || amount.value <= 0.0 {
        return Warned(InvalidAmount);
      }
      TotalAppend(expenses, Expense(date, category, amount.value));
      expenses := expenses + [Expense(date, category, amount.value)];
      view := expenses;
      unsavedChanges := true;
      s := Ok;
    }

    /** The data preparation of generate_chart: nothing on an empty ledger,
        otherwise the per-category and per-date sums. */
    method GenerateChart() returns (r: Option<ChartData>)
      ensures r.None? <==> expenses == []
      ensures r.Some? ==> r.value.byCategory == Tabulate(ByCategory, expenses)
                          && r.value.byDate == Tabulate(ByDate, expenses)
      ensures r.Some? ==> var d := r.value;
        && FirstAppearanceOrder(ByCategory, expenses, d.byCategory.keys)
        && (forall k :: k in d.byCategory.keys ==> k in d.byCategory.sums
                                                   && d.byCategory.sums[k] == GroupSum(ByCategory, expenses, k))
        && SumValues(d.byCategory.keys, d.byCategory.sums) == Total(expenses)
      ensures r.Some? ==> var d := r.value;
        && StrictlyAscending(d.dates)
        && (forall k :: k in d.dates <==> FirstIndex(ByDate, expenses, k) < |expenses|)
        && |d.dateSums| == |d.dates|
        && (forall i :: 0 <= i < |d.dates| ==> d.dateSums[i] == GroupSum(ByDate, expenses, d.dates[i]))
      ensures r.Some? ==> var d := r.value;
        && (forall k :: k in d.dates ==> k in d.byDate.sums)
        && SumValues(d.dates, d.byDate.sums) == Total(expenses)
    {
      r := GroupExpenses(expenses);
    }

    /** sort_by_column: the table rows are sorted stably by the column, in
        the direction the stored order has BEFORE this click; then the same
        column flips the stored order and another column becomes the sort
        column with order 1. The ledger itself is not touched. */
    method SortByColumn(col: Column)
      requires Valid()
      modifies this
      ensures Valid()
      ensures view == StableSort(col, old(sortOrder) == -1, old(view))
      ensures SortState(sortColumn, sortOrder) == Toggle(SortState(old(sortColumn), old(sortOrder)), col)
      ensures State() == old(State()).(view := view, sortColumn := sortColumn, sortOrder := sortOrder)
      ensures multiset(view) == multiset(old(view))
      ensures Ordered(col, old(sortOrder) == -1, view)
      ensures forall k :: WithKey(col, k, view) == WithKey(col, k, old(view))
    {
      var sorted := SortRows(col, sortOrder == -1, view);
      // the move loop puts the table rows in the sorted order
      view := sorted;
      if sortColumn == Some(col) {
        sortOrder := sortOrder * -1;
      } else {
        sortColumn := Some(col);
        sortOrder := 1;
      }
    }

    /** save_data. `chosenPath` is the save dialog's answer, asked only when
        no file is associated yet; `writeOk` says whether opening and writing
        the file succeeds. */
    method SaveData(chosenPath: Option<string>, writeOk: bool) returns (s: Status, file: Option<SavedFile>)
      modifies this
      ensures expenses == old(expenses)
      ensures expenses == [] ==> s == Warned(NoData) && file.None? && State() == old(State())
      ensures expenses != [] && !HasPath(old(loadedFilePath)) && !HasPath(chosenPath) ==>
                s == Cancelled && file.None? && State() == old(State())
      ensures expenses != [] && (HasPath(old(loadedFilePath)) || HasPath(chosenPath)) ==>
                loadedFilePath == (if HasPath(old(loadedFilePath)) then old(loadedFilePath) else chosenPath)
                && s == (if writeOk then Ok else Raised)
      ensures s == Ok <==> file.Some?
      ensures file.Some? ==>
                && loadedFilePath == Some(file.value.path)
                && file.value.document == Encode(Snapshot())
                && State() == old(State()).(loadedFilePath := loadedFilePath, unsavedChanges := false)
      ensures s == Raised ==> State() == old(State()).(loadedFilePath := loadedFilePath)
    {
      file := None;
      if expenses == [] {
        return Warned(NoData), None;
      }
      if !HasPath(loadedFilePath) {
        if !HasPath(chosenPath) {
          return Cancelled, None;
        }
        loadedFilePath := chosenPath;
      }
      if !writeOk {
        return Raised, None;
      }
      file := Some(SavedFile(loadedFilePath.value, Encode(Snapshot())));
      unsavedChanges := false;
      s := Ok;
    }

    /** load_data. `chosenPath` is the open dialog's answer; `content` is the
        parsed file, None when reading or parsing it raises. The fields come
        from the document with their defaults, then the main window is
        rebuilt and its table filled from the ledger. The dirty flag is left
        as it was. */
    method LoadData(chosenPath: Option<string>, content: Option<Document>) returns (s: Status)
      requires Valid()
      modifies this
      ensures Valid()
      ensures !HasPath(chosenPath) ==> s == Cancelled && State() == old(State())
      ensures HasPath(chosenPath) && content.None? ==> s == Raised && State() == old(State())
      ensures HasPath(chosenPath) && content.Some? ==>
                && s == Ok
                && Snapshot() == Decode(content.value)
                && State() == old(State()).(monthlyBudget := monthlyBudget, currencySymbol := currencySymbol,
                                            expenses := expenses, categories := categories,
                                            loadedFilePath := chosenPath, dataLoaded := true,
                                            sortColumn := None, sortOrder := 1, view := expenses)
    {
      if !HasPath(chosenPath) {
        return Cancelled;
      }
      if content.None? {
        return Raised;
      }
      var f := Decode(content.value);
      monthlyBudget := f.budget;
      currencySymbol := f.symbol;
      expenses := f.expenses;
      categories := f.categories;
      loadedFilePath := chosenPath;
      dataLoaded := true;
      // create_widgets, then update_expense_list
      sortColumn := None;
      sortOrder := 1;
      view := expenses;
      s := Ok;
    }
  }

  /** Saving a non-empty ledger to a writable file and loading that file
      back restores budget, symbol, expenses and categories. */
  method SaveThenLoad(t: ExpenseTracker, path: string)
    requires t.Valid() && t.expenses != [] && path != ""
    modifies t
    ensures t.Snapshot() == old(t.Snapshot())
    ensures !t.unsavedChanges
  {
    var s, file := t.SaveData(Some(path), true);
    DecodeEncode(t.Snapshot());
    var s2 := t.LoadData(Some(file.value.path), Some(file.value.document));
  }

  /** A new dashboard with a budget of 1000 and three records: 880 spent,
      120 left, Food summed over two records, dates in ascending order. */
  method ThreeRecordDashboard() returns (total: real, remaining: real, chart: Option<ChartData>)
    ensures total == 880.0 && remaining == 120.0
    ensures chart.Some?
    ensures chart.value.byCategory == Tally(["Food", "Rent"], map["Food" := 80.0, "Rent" := 800.0])
    ensures chart.value.dates == ThreeDates
    ensures chart.value.dateSums == [50.0, 800.0, 30.0]
  {
    var t := ThreeRecordLedger();
    ThreeRecordTotal();
    total := Total(t.expenses);
    remaining := RemainingBudget(t.monthlyBudget, t.expenses);
    chart := t.GenerateChart();
    ThreeRecordCategories();
    ThreeRecordDates(chart.value.dates);
    var sums := chart.value.dateSums;
    ThreeRecordDateSums();
    assert sums[0] == 50.0 && sums[1] == 800.0 && sums[2] == 30.0;
  }

  /** A new dashboard with budget 1000 and symbol "$", then the three
      records entered through add_expense. */
  method ThreeRecordLedger() returns (t: ExpenseTracker)
    ensures fresh(t)
    ensures t.expenses == ThreeRecords && t.monthlyBudget == 1000.0
    ensures t.currencySymbol == "$" && t.unsavedChanges
  {
    t := new ExpenseTracker();
    var s := t.ConfirmNewDashboard("1000", Some(1000.0), "$");
    s := t.AddExpense(January + "05", "Food", Some(50.0));
    s := t.AddExpense(January + "10", "Rent", Some(800.0));
    s := t.AddExpense(January + "12", "Food", Some(30.0));
  }

  lemma ThreeRecordTotal()
    ensures Total(ThreeRecords) == 880.0
  {
    var es := ThreeRecords;
    var e1, e2 := es[0], es[1];
    assert es[..2] == [e1, e2] && [e1, e2][..1] == [e1] && [e1][..0] == [];
    assert Total([e1]) == 50.0;
    assert Total([e1, e2]) == 850.0;
  }

  /** The records of the worked example above. */
  const ThreeRecords: seq<Expense> :=
    [Expense(January + "05", "Food", 50.0), Expense(January + "10", "Rent", 800.0), Expense(January + "12", "Food", 30.0)]

  const ThreeDates: seq<string> := [January + "05", January + "10", January + "12"]

  /** The common prefix of the three ISO dates. */
  const January: string := "2024-01-"

  /** Three days of one month, written as two-digit day numbers, in
      ascending order. */
  lemma {:induction false} DaysAscending(month: string)
    ensures StrictlyAscending([month + "05", month + "10", month + "12"])
  {
    var a, b, c := month + "05", month + "10", month + "12";
    LessAfterPrefix(month, "05", "10");
    assert b == (month + "1") + "0" && c == (month + "1") + "2";
    LessAfterPrefix(month + "1", "0", "2");
    LessTransitive(a, b, c);
  }

  lemma ThreeDatesAscending()
    ensures StrictlyAscending(ThreeDates)
  {
    DaysAscending(January);
  }

  lemma ThreeRecordDates(dates: seq<string>)
    requires StrictlyAscending(dates)
    requires forall k :: k in dates <==> FirstIndex(ByDate, ThreeRecords, k) < |ThreeRecords|
    ensures dates == ThreeDates
  {
    var es := ThreeRecords;
    assert forall i :: 0 <= i < 3 ==> es[i].date == ThreeDates[i];
    forall k ensures k in dates <==> k in ThreeDates {
      FirstIndexMeaning(ByDate, es, k);
      if k in ThreeDates {
        var i :| 0 <= i < 3 && ThreeDates[i] == k;
        assert GroupKey(ByDate, es[i]) == k;
      }
      var f := FirstIndex(ByDate, es, k);
      if f < |es| {
        assert GroupKey(ByDate, es[f]) == k;
      }
    }
    ThreeDatesAscending();
    AscendingUnique(dates, ThreeDates);
  }

  lemma ThreeRecordDateSums()
    ensures GroupSum(ByDate, ThreeRecords, ThreeDates[0]) == 50.0
    ensures GroupSum(ByDate, ThreeRecords, ThreeDates[1]) == 800.0
    ensures GroupSum(ByDate, ThreeRecords, ThreeDates[2]) == 30.0
  {
    var es := ThreeRecords;
    var e1, e2, e3 := es[0], es[1], es[2];
    assert es[..2] == [e1, e2] && [e1, e2][..1] == [e1] && [e1][..0] == [];
    assert e1.date != e2.date by { assert e1.date[9] != e2.date[9]; }
    assert e1.date != e3.date by { assert e1.date[9] != e3.date[9]; }
    assert e2.date != e3.date by { assert e2.date[9] != e3.date[9]; }
    assert ThreeDates == [e1.date, e2.date, e3.date];
    forall k | k in ThreeDates
      ensures GroupSum(ByDate, es, k)
           == (if k == e1.date then 50.0 else 0.0) + (if k == e2.date then 800.0 else 0.0)
            + (if k == e3.date then 30.0 else 0.0)
    {
      assert GroupSum(ByDate, [e1], k) == (if k == e1.date then 50.0 else 0.0);
      assert GroupSum(ByDate, [e1, e2], k) == GroupSum(ByDate, [e1], k) + (if k == e2.date then 800.0 else 0.0);
    }
  }

  lemma ThreeRecordCategories()
    ensures Tabulate(ByCategory, ThreeRecords) == Tally(["Food", "Rent"], map["Food" := 80.0, "Rent" := 800.0])
  {
    var es := ThreeRecords;
    var one, two := es[..1], es[..2];
    assert one[..0] == [] && two[..1] == one && es[..2] == two;
    assert Tabulate(ByCategory, one[..0]) == Tally([], map[]);
    var t1 := Tabulate(ByCategory, one);
    assert t1 == Step(Tally([], map[]), "Food", 50.0);
    assert t1.keys == ["Food"];
    assert t1.sums == map["Food" := 50.0];
    var t2 := Tabulate(ByCategory, two);
    assert t2 == Tally(["Food", "Rent"], map["Food" := 50.0, "Rent" := 800.0]);
  }
}
