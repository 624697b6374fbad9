# Expense tracker ledger, modelled in Dafny

This project models the state machine behind the expense tracker window in
`expense_tracker.py` (class `ExpenseTrackerApp`). That state is:

- the list of expense records: date text, category text and a positive amount;
- the category list;
- the monthly budget and the currency symbol;
- the unsaved-changes and data-loaded flags;
- the path of the file the ledger belongs to;
- the sort state of the expense table.

The handlers are modelled one by one as methods of the class
`Tracker.ExpenseTracker`, which updates those fields in place:

- reset the data;
- confirm a new dashboard;
- change the currency symbol;
- add a category;
- add an expense;
- the budget arithmetic;
- the data preparation of the chart;
- sort the table by a column;
- save and load.

Dialog answers, entry texts and the outcome of file access are parameters of
these methods. The on-disk JSON file is replaced by an in-memory `Document`.

Modules:

- `Text`: Python whitespace, `str.strip()` and the order `<` on `str`.
- `Ledger`: expense records, the total, the remaining budget and the
  category list update.
- `SortEngine`: the stable sort the table header click performs, specified by
  an insertion-sort function. Also the ascending/descending toggle.
- `Aggregator`: the two dicts generate_chart fills (by category, by date), the
  sorted date list and its sums.
- `Persistence`: the save file as a value, and the defaults load_data applies.
- `Tracker`: the application object. Also a save-then-load round trip and a
  worked three-record example.

Amounts are modelled as Dafny `real`, so sums are exact.

## Model

| member | source | states |
|---|---|---|
| Tracker.ExpenseTracker.constructor | expense_tracker.py:10-23 | the window starts on the home screen, whose reset_data leaves no expenses, no categories, budget 0, no file, nothing unsaved, sort state unset with order 1 |
| Tracker.ExpenseTracker.ResetData | expense_tracker.py:128-138 | expenses and categories emptied, budget 0, both flags false, no file; every other field unchanged |
| Tracker.ExpenseTracker.ConfirmNewDashboard | expense_tracker.py:98-116 | empty budget text: warning, nothing changes; unparsable budget: the exception escapes, nothing changes; empty symbol: warning, but the budget is already stored; otherwise the budget, symbol and five starter categories are set, the table is empty and the sort state fresh |
| Tracker.ExpenseTracker.ChangeCurrencySymbol | expense_tracker.py:151-158 | a cancelled dialog changes nothing; any answer, the empty text included, becomes the symbol and the table is refilled from the ledger |
| Tracker.ExpenseTracker.AddCategory | expense_tracker.py:294-302 | success exactly when the stripped entry is non-empty and not yet listed, in which case it is appended; otherwise a warning and nothing changes; a duplicate-free list stays duplicate-free |
| Tracker.ExpenseTracker.AddExpense | expense_tracker.py:304-324 | a missing or non-positive amount gives a warning and changes nothing; otherwise exactly one record is appended, the table shows the ledger, the dirty flag is set and the total grows by the amount; all-positive ledgers stay all-positive |
| Tracker.ExpenseTracker.GenerateChart | expense_tracker.py:345-372 | no chart data exactly when the ledger is empty; otherwise the category sums in first-appearance order partition the total; the dates are strictly ascending and are exactly the dates that occur; each date's value is the sum of that date's amounts |
| Tracker.ExpenseTracker.SortByColumn | expense_tracker.py:269-291 | the table becomes the stable sort of its rows on the column, in the direction stored before the click; it is a permutation, ordered, and keeps equal-key rows in their order; the sort state toggles (same column flips, new column resets to 1) and stays ±1; the ledger is untouched |
| Tracker.ExpenseTracker.SaveData | expense_tracker.py:403-424 | an empty ledger gives a warning and nothing changes; with no file and a cancelled dialog nothing changes; otherwise the path is fixed (the chosen one is kept even when writing fails) and a successful write stores exactly the four fields and clears the dirty flag |
| Tracker.ExpenseTracker.LoadData | expense_tracker.py:426-445 | a cancelled dialog changes nothing; an unreadable file raises and changes nothing; otherwise the four fields are the document's with defaults, the path is recorded, data_loaded set, the table shows the ledger and the sort state is fresh; the dirty flag is left as it was |
| Tracker.SaveThenLoad | expense_tracker.py:403-445 | saving a non-empty ledger to a writable path and loading it back restores budget, symbol, expenses and categories, and leaves nothing unsaved |
| Tracker.ThreeRecordLedger | expense_tracker.py:98-116 | a new dashboard with budget 1000 and three records entered through add_expense holds exactly those records, dirty |
| Tracker.ThreeRecordDashboard | expense_tracker.py:326-372 | for those three records: total 880, remaining 120, Food 80 before Rent 800, dates ascending with sums 50, 800, 30 |
| Tracker.ThreeRecordTotal | expense_tracker.py:328 | the three records total 880 |
| Tracker.ThreeDatesAscending | expense_tracker.py:371 | the three ISO dates are in Python string order |
| Tracker.ThreeRecordDates | expense_tracker.py:371 | any strictly ascending list holding exactly the occurring dates is the three dates in order |
| Tracker.ThreeRecordDateSums | expense_tracker.py:366-368 | each date's sum for the three records |
| Tracker.ThreeRecordCategories | expense_tracker.py:362-364 | the category dict for the three records is Food 80, then Rent 800 |
| Ledger.TotalConcat | expense_tracker.py:328 | the total of two ledgers one after the other is the sum of their totals |
| Ledger.TotalAppend | expense_tracker.py:316-320 | appending a record adds its amount to the total |
| Ledger.TotalPositive | expense_tracker.py:310-311 | records accepted by add_expense have a non-negative total, positive when there is at least one |
| Ledger.RemainingBudget | expense_tracker.py:328-329 | remaining plus total is the budget; remaining is negative exactly when spending exceeds the budget, and not clamped; it is below the budget once a positive record exists |
| Ledger.WithCategory | expense_tracker.py:296-298 | the list grows by at most one, keeps its prefix, grows exactly when the stripped entry is non-empty and new, then ends with it; a non-empty stripped entry is listed afterwards; duplicate-freedom is kept |
| Ledger.WithCategoryIdempotent | expense_tracker.py:296-298 | adding the same entry a second time changes nothing |
| Text.Strip | expense_tracker.py:296 | the result is the window of the input between its leading and trailing whitespace; it neither starts nor ends with whitespace and everything cut off is whitespace |
| Text.StripEmptyIffBlank | expense_tracker.py:297 | the stripped entry is empty exactly when the entry is all whitespace |
| Text.LessAtFirstDifference | expense_tracker.py:277 | strings with a common prefix compare by the first differing character |
| Text.LessIrreflexive | expense_tracker.py:277 | no string is below itself |
| Text.LessTransitive | expense_tracker.py:277 | string order is transitive |
| Text.LessTotal | expense_tracker.py:277 | two different strings are ordered one way or the other |
| Text.LessAsymmetric | expense_tracker.py:277 | string order is asymmetric |
| SortEngine.PrecedesIrreflexive | expense_tracker.py:274-277 | no key strictly precedes itself in either direction |
| SortEngine.PrecedesTransitive | expense_tracker.py:274-277 | strict precedence on column keys is transitive |
| SortEngine.PrecedesAsymmetric | expense_tracker.py:274-277 | strict precedence is asymmetric |
| SortEngine.PrecedesTotal | expense_tracker.py:274-277 | two different keys are ordered one way or the other |
| SortEngine.WithKeyConcat | expense_tracker.py:274-277 | the rows with a given key of two concatenated lists are those of each, in order |
| SortEngine.WithKeyNone | expense_tracker.py:274-277 | a list without the key has no rows with it |
| SortEngine.InsertionPointSpec | expense_tracker.py:274-277 | a stable insertion goes after every row the new one may follow and before the first row it must precede |
| SortEngine.InsertSplit | expense_tracker.py:274-277 | insertion splits the rows at the insertion point |
| SortEngine.InsertAt | expense_tracker.py:274-277 | any position with only rows that may be followed before it and a row that must be preceded at it is the insertion point |
| SortEngine.PrecedesRest | expense_tracker.py:274-277 | in an ordered list, preceding one row means preceding every later row |
| SortEngine.InsertOrdered | expense_tracker.py:274-277 | inserting into an ordered list keeps it ordered |
| SortEngine.InsertPermutes | expense_tracker.py:274-277 | insertion adds exactly the new row |
| SortEngine.NoEqualKeyAfterPoint | expense_tracker.py:274-277 | no row with the new row's key comes after its insertion point |
| SortEngine.WithKeySplice | expense_tracker.py:274-277 | the rows with a key of a spliced list are those of its parts, in order |
| SortEngine.WithKeyInsertedAt | expense_tracker.py:274-277 | inserting where no equal key follows appends the new row to its key's rows |
| SortEngine.InsertWithKey | expense_tracker.py:274-277 | insertion puts a row after all earlier rows with an equal key |
| SortEngine.StableSortOrdered | expense_tracker.py:274-277 | the sorted table is ordered by the column in the requested direction |
| SortEngine.StableSortPermutes | expense_tracker.py:274-277 | the sorted table holds exactly the rows it had |
| SortEngine.StableSortStable | expense_tracker.py:274-277 | rows with equal keys keep their relative order, as Python's `list.sort` guarantees |
| SortEngine.StableSortOfOrdered | expense_tracker.py:274-277 | sorting rows already in order leaves them as they are |
| SortEngine.StableSortExtend | expense_tracker.py:274-277 | sorting one more row inserts it into the sorted prefix |
| SortEngine.SortRows | expense_tracker.py:271-281 | the loop computes the stable sort of the rows: a permutation, ordered, with equal keys in their original order |
| SortEngine.Toggle | expense_tracker.py:283-288 | after a click the column is the sort column; the same column negates the order, another resets it to 1; orders stay ±1 |
| SortEngine.SecondClickStillAscending | expense_tracker.py:275-288 | because the direction is read before the toggle, the first two clicks on a new column both sort ascending and the third sorts descending |
| SortEngine.SwitchWhileDescending | expense_tracker.py:275-288 | clicking a new column while the order is -1 sorts it descending and resets the order to 1 |
| Aggregator.FirstIndexMeaning | expense_tracker.py:362-368 | the first-index function finds a record with the key exactly when one exists, it finds the first such, and no earlier record has the key |
| Aggregator.FirstIndexAppend | expense_tracker.py:357-368 | appending a record leaves earlier first indices alone and gives a new key the new position |
| Aggregator.StepWellFormed | expense_tracker.py:362-368 | one dict update keeps the key list duplicate-free and equal to the dict's keys |
| Aggregator.TabulateWellFormed | expense_tracker.py:352-368 | the dict after the loop has distinct keys that are exactly its mapped keys |
| Aggregator.FirstAppearanceStep | expense_tracker.py:362-368 | one update keeps the keys in first-appearance order |
| Aggregator.TabulateKeys | expense_tracker.py:352-368 | the dict's keys are the occurring keys, ordered by first appearance |
| Aggregator.TabulateSums | expense_tracker.py:352-368 | each key maps to the sum of the amounts of its records; an absent key has none |
| Aggregator.SumValuesConcat | expense_tracker.py:352-368 | the value sum over two key lists is the sum of the two |
| Aggregator.SumValuesOtherKey | expense_tracker.py:362-368 | changing a key outside the list does not change the value sum |
| Aggregator.SumValuesBump | expense_tracker.py:364 | adding to one listed key adds the same to the value sum |
| Aggregator.StepShape | expense_tracker.py:362-368 | an update appends a new key with its amount, or adds the amount to an existing key |
| Aggregator.StepSum | expense_tracker.py:362-368 | each update adds its amount to the sum of the dict's values |
| Aggregator.TabulatePartition | expense_tracker.py:352-368 | the dict's values add up to the ledger total |
| Aggregator.SumValuesRemove | expense_tracker.py:372 | dropping one key from the list subtracts its value |
| Aggregator.RemoveMatching | expense_tracker.py:371 | removing matching elements from two permutations leaves permutations |
| Aggregator.SumValuesPermutation | expense_tracker.py:371-372 | reordering the keys keeps the value sum |
| Aggregator.AscendingUnique | expense_tracker.py:371 | two strictly ascending lists with the same elements are equal |
| Aggregator.InsertStringPermutes | expense_tracker.py:371 | inserting a string adds exactly that string |
| Aggregator.InsertStringAscending | expense_tracker.py:371 | inserting a new string into an ascending list keeps it strictly ascending |
| Aggregator.SortStringsCorrect | expense_tracker.py:371 | `sorted` keeps the elements and makes distinct keys strictly ascending |
| Aggregator.SortedDatesCorrect | expense_tracker.py:366-371 | the sorted date keys are strictly ascending and are the date keys |
| Aggregator.TabulateExtend | expense_tracker.py:357-368 | one more record is one more update of each dict |
| Aggregator.ChartFacts | expense_tracker.py:352-372 | category keys in first-appearance order and summing to the total; sorted dates ascending, exactly the occurring ones, each mapping to its records' sum, all summing to the total |
| Aggregator.DateSumsMatch | expense_tracker.py:372 | the amount list reads each sorted date's sum |
| Aggregator.AddTo | expense_tracker.py:362-368 | `if key not in d: d[key] = 0` then `d[key] += amount` is one update step |
| Aggregator.GroupExpenses | expense_tracker.py:347-372 | no data exactly for an empty ledger; the loop's dicts equal the reference tabulation, with all properties of ChartFacts and the amount list reading each date's sum |
| Ledger.Total | expense_tracker.py:328 | defines `sum(expense['amount'] for expense in self.expenses)`: the amounts added up in ledger order, 0 for no records |
| Text.IsSpace | expense_tracker.py:296 | defines the characters `strip()` removes: the 29 characters `str.isspace()` accepts (ASCII tab to carriage return, the four information separators, space, U+0085, U+00A0, U+1680, U+2000-U+200A, U+2028, U+2029, U+202F, U+205F, U+3000) |
| Text.Less | expense_tracker.py:277 | defines Python's `<` on `str`: the first differing code point decides, and a proper prefix comes first |
| Text.LessAfterPrefix | expense_tracker.py:371 | two texts with a common prefix are ordered by the first characters after it |
| SortEngine.KeyOf | expense_tracker.py:274-277 | defines the sort key of a row: its date or category text for those columns, its amount as a number for the Amount column |
| SortEngine.StableSort | expense_tracker.py:274-277 | defines the reference stable sort, by insertion; the lemmas below prove it ordered, a permutation and stable |
| Aggregator.GroupSum | expense_tracker.py:357-368 | defines the sum of the amounts of the records whose category (or date) is the given key |
| Aggregator.Step | expense_tracker.py:362-368 | defines one dict update: a new key is appended with the amount, an existing key has the amount added |
| Aggregator.Tabulate | expense_tracker.py:352-368 | defines the dict the loop leaves: Step applied to every record in ledger order, from an empty dict |
| Aggregator.FirstIndex | expense_tracker.py:362-368 | defines the position of the first record with a key (the record count when none has it); its result never exceeds that count |
| Aggregator.SortStrings | expense_tracker.py:371 | defines `sorted()` on the date keys, as an insertion sort under Python's string order |
| Persistence.Decode | expense_tracker.py:434-437 | defines the fields load_data takes from a document: each key's value when present, otherwise 0, "$", no expenses or the five starter categories |
| Tracker.HasPath | expense_tracker.py:409-411 | defines Python's truth value of a path: present and non-empty, as lines 409, 411 and 429 test it |
| Tracker.DaysAscending | expense_tracker.py:371 | days 05, 10 and 12 of any one month are in ascending string order |
| Persistence.Encode | expense_tracker.py:416-421 | save writes all four keys |
| Persistence.DecodeEncode | expense_tracker.py:416-437 | loading a saved document restores the four fields exactly |
| Persistence.EncodeDecode | expense_tracker.py:416-437 | a document with all four keys is what saving its loaded fields writes |
| Persistence.DecodeDefaults | expense_tracker.py:434-437 | each missing key falls back to 0, "$", no expenses or the five starter categories, independently; present keys are taken as they are |

## Left out

- Widgets, layout, message boxes and the home screen (show_home_screen,
  create_new_dashboard, create_widgets). Their only effects on the ledger
  are modelled: create_widgets resets the sort state and empties the table.
  Dialog answers and entry texts are parameters.
- The save prompt on returning to the home screen, get_initial_budget and
  get_currency_symbol. They are dialog flows with no ledger logic beyond
  calls that are modelled.
- `float()` parsing: the parsed value is a parameter, None when `float()`
  raises. Python floats are modelled as exact reals, so NaN, infinities and
  rounding are not modelled, and neither is the `:.2f` formatting of the labels.
- The Amount column re-parse in sort_by_column: the model sorts by the
  record's amount itself. It does not model stripping the currency symbol
  and commas from the displayed text, which gives the amount rounded to two
  decimals, or a wrong number or an error when the symbol itself contains
  digits or ".".
- `date.strftime` and `datetime.strptime`: dates are kept as the ISO text
  that add_expense stores.
- The plotting and chart-type dispatch of generate_chart. The model covers its
  data preparation up to the sorted dates and their amounts.
- JSON encoding and decoding, and the file system: the saved file is a
  `Document` value. Its outcome "raises" covers only a file that cannot be
  opened or parsed (lines 432-433), which fails before anything is assigned.
- Documents whose values have the wrong type or whose records lack a key
  are not modelled: a `Document` holds only well-typed values. The source
  does not fail cleanly on them. load_data assigns the four fields, the
  path and data_loaded (lines 434-440) before anything raises. A
  non-numeric budget then raises at the `:.2f` in create_widgets (line
  187). A record without "amount" raises in update_budget_info (line 328),
  after create_widgets has reset the sort state and built an empty table. A
  `null` currency symbol raises nothing: the symbol becomes None.
- Python's Timsort: it is replaced by an insertion sort. Both are stable
  sorts, so both give the same result.
- The Treeview move loop: modelled by its net effect on the row order.
- `additional_fields`, set by reset_data and never read, is not modelled.
- `currency_symbol`, `sort_column` and `sort_order` do not exist in the
  source until they are first assigned. The constructor gives them "", None
  and 1.
- Tracker.ExpenseTracker.SortByColumn: requires the stored order to be ±1,
  which every reachable state satisfies.
- Tracker.ExpenseTracker.GenerateChart: `sorted_amounts` is stated through
  GroupSum. The model keeps exact sums, not float sums.

Three behaviours of the code worth noting:

- The direction used by a header click is read before the toggle, so a
  second click on the same column still sorts ascending.
- confirm_new_dashboard stores the budget before it rejects an empty currency
  symbol.
- load_data does not clear the unsaved-changes flag.
