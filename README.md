# Expense tracker ledger in Dafny

This project models the `ExpenseTracker` class of a single-user expense tracker. The tracker keeps
an ordered in-memory list of expense records: date, amount, category and description. Each new
record goes at the end of the list, and the whole list is then written to the data file. The
tracker also groups the records by category into an insertion-ordered dictionary of totals, shows
the grand total of that summary, and lists every record with its position.

Files:

- `wrappers.dfy`: module `Wrappers`, the `Option` type.
- `expense_spec.dfy`: module `ExpenseSpec`. It holds the `Expense` record, the `Summary` (an
  insertion-ordered dictionary), and the pure definitions the tracker is specified by:
  - `Total`: the sum of all amounts.
  - `OfCategory` and `CategoryTotal`: the records of one category and the sum of their amounts.
  - `Categories`: the categories, each once, in order of first appearance.
  - `FirstIndex`: where a category first appears.
  - The lemmas about these definitions.
- `expense_tracker.dfy`: module `Tracker`, class `ExpenseTracker`. The list is the field
  `expenses`. The data file is the field `storage`: `None` means there is no file, and
  `Some(records)` holds the file's records. The methods change these fields in place.

Inputs from outside the program are parameters:

- the current time is the `now` string that stamps a new record;
- the conversion `float(amount)` is a function `parse: string -> Option<real>`, where `None` means
  the conversion raises;
- whether the file system accepts a write is the flag `writable`;
- the data file found at start-up is the constructor's argument.

Amounts are `real`, so every sum is exact.

Two behaviours of the code are kept as written:

- No check rejects a negative amount or an empty category.
- When the write fails, `add_expense` has already appended the record. The record stays in
  memory while the file keeps its previous contents. `AddExpense` reports this case as
  `WriteFailed`.

`GetSummary`, `SummaryTotal` and `ViewAllExpenses` have no `modifies` clause, so they cannot change
the list or the file.

## Model

| member | source | states |
|---|---|---|
| `Tracker.ExpenseTracker.constructor` | main.py:7-9 | The tracker opens on the data file it is given. If the file exists, the list is that file's records; if it does not, the list is empty. The file is left as it was. |
| `Tracker.ExpenseTracker.LoadExpenses` | main.py:11-16 | Loading returns the file's records when the file exists and an empty list otherwise. Loading changes nothing. |
| `Tracker.ExpenseTracker.SaveExpenses` | main.py:18-21 | A successful save makes the file hold the whole current list, not just the newest record, so a later load returns exactly that list. A failed save leaves the file as it was. |
| `Tracker.ExpenseTracker.AddExpense` | main.py:23-32 | A bad amount is rejected before the append, so neither the list nor the file changes. Otherwise the list grows by exactly one record at the end, and every earlier record stays unchanged. That record holds the given date, the converted amount, the category and the description (default `""`). After a successful write the file equals the whole list. A failed write keeps the appended record in memory, and the file keeps its old contents. |
| `Tracker.SaveAndReload` | main.py:11-21 | A successful save followed by opening a new tracker on the written file gives back exactly the list that was saved, and the saving tracker's list is unchanged. |
| `Tracker.ExpenseTracker.GetSummary` | main.py:35-41 | The summary's keys are exactly the categories that occur in the list, each once, in order of first appearance. Each key's value is the sum of the amounts of all records with that category. |
| `Tracker.ExpenseTracker.SummaryTotal` | main.py:45-49 | The grand total, the sum of the summary's values in key order, equals the sum of all record amounts. It is 0 for an empty list. |
| `Tracker.ExpenseTracker.ViewAllExpenses` | main.py:51-56 | The listing has one entry per record, in insertion order. Entry i holds the number i+1 and the i-th record. |
| `ExpenseSpec.CategoriesExact` | main.py:37-40 | A category is a summary key exactly when some record has that category. |
| `ExpenseSpec.CategoriesDistinct` | main.py:37-40 | No category is a summary key twice. |
| `ExpenseSpec.FirstIndex` | main.py:38-40 | For a category that occurs, this is the position of a record with that category, and no earlier record has it. |
| `ExpenseSpec.CategoriesInFirstAppearanceOrder` | main.py:37-40 | An earlier summary key first appears at an earlier record than any later key. The key order is first-appearance order, not alphabetical order or order by total. |
| `ExpenseSpec.SummaryStep` | main.py:38-40 | One turn of the grouping loop keeps the summary correct. The loop adds the next record's amount to the value under its category, a missing key counting as 0 and a new key going last. This turns the summary of a list into the summary of that list plus the record. |
| `ExpenseSpec.CategoryTotalAbsent` | main.py:40 | A category that no record has totals 0, the default that `summary.get(category, 0)` gives. |
| `ExpenseSpec.CategoryTotalAppend` | main.py:31 | Appending a record adds its amount to its own category's total. Every other category's total stays the same. |
| `ExpenseSpec.CategoriesAppend` | main.py:31 | Appending a record adds its category as the last key when that category is new. Otherwise the key order stays the same. |
| `ExpenseSpec.TotalAppend` | main.py:31 | Appending a record adds its amount to the grand total. |
| `ExpenseSpec.FirstIndexAppend` | main.py:31 | Appending a record does not move the first appearance of a category that is already present. |
| `ExpenseSpec.SumTotalsAppend` | main.py:49 | Appending a record to the list changes a sum over distinct keys by that record's amount if its category is one of the keys. Otherwise the sum stays the same. |
| `ExpenseSpec.SummaryTotalIsTotal` | main.py:49 | Summing the per-category totals over the summary keys gives the sum of all amounts. Grouping neither loses a record nor counts one twice. |
| `ExpenseSpec.ThreeExpenseCategories` | main.py:37-40 | Take records of 12.50 and 5 in one category and 20 in another. The summary keys are the first category, then the second. |
| `ExpenseSpec.ThreeExpenseTotals` | main.py:38-40 | For the same three records, the first category totals 17.50 and the second 20.00. The sum of all amounts is 37.50. |

## Left out

- JSON encoding of the data file: field names, `indent=4` and the file path (`data_file`, by default `expenses.json`). The file is modelled by the records it holds. A file that does not parse as JSON raises in `json.load`, and nothing in the code handles that, so the model has no such case. A write that fails partway, leaving a truncated file, is not modelled: a write either replaces the whole contents or changes nothing.
- The clock: `datetime.now().strftime(...)` becomes the `now` parameter. Its format is not checked.
- Floating point: `float(amount)` becomes the `parse` parameter, and amounts are exact reals. The model therefore does not capture rounding in the sums, the order-dependence of float addition, or `nan`/`inf` inputs.
- All printed output is left out: the confirmation after an add, the `:.2f` formatting of amounts, and the text of the summary and listing lines. `ViewAllExpenses` returns the numbered records that those lines would show.
- The interactive `main()` menu loop and its `input()` calls. It only calls the methods modelled here. An exception from a bad amount ends that loop, since nothing catches it; the model returns `InvalidAmount` instead.
- A failed write likewise raises out of `save_expenses` (main.py:20-21) and `add_expense`, and ends that loop. The model returns `ok == false` from `SaveExpenses` and `WriteFailed` from `AddExpense` instead, and does not model the program stopping.
