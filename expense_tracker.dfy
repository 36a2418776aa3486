/**
 * The expense tracker: an in-memory list of expense records, mirrored to a data
 * file after every addition, with the per-category summary, its grand total and
 * the numbered listing of all records.
 *
 * The data file is modelled by its contents: `None` when no file exists, and
 * `Some(records)` once one has been written. The clock reading, the conversion of
 * the amount text to a number and the success of the write are parameters.
 */
module Tracker {
  import opened Wrappers
  import opened ExpenseSpec

  /** How an addition ends: the record was appended and written, or why not. */
  datatype AddOutcome =
    | Added(record: Expense)
    | InvalidAmount  // the amount could not be converted; nothing was appended
    | WriteFailed    // the record was appended, but the data file could not be written

  class ExpenseTracker {
    /** The records in insertion order, oldest first. */
    var expenses: seq<Expense>
    /** The contents of the data file; `None` when there is no such file. */
    var storage: Option<seq<Expense>>

    /** Opens the tracker on the data file `file` and loads its records. */
    constructor (file: Option<seq<Expense>>)
      ensures storage == file
      ensures file.Some? ==> expenses == file.value
      ensures file.None? ==> expenses == []
    {
      storage := file;
      new;
      expenses := LoadExpenses();
    }

    /** Reads the data file: its records when it exists, no records otherwise. */
    method LoadExpenses() returns (xs: seq<Expense>)
      ensures storage.Some? ==> xs == storage.value
      ensures storage.None? ==> xs == []
    {
      if storage.Some? {
        xs := storage.value;
      } else {
        xs := [];
      }
    }

    /**
     * Overwrites the data file with the whole list; `writable` says whether the
     * file system accepts the write. A failed write leaves the file as it was.
     */
    method SaveExpenses(writable: bool) returns (ok: bool)
      modifies this`storage
      ensures ok == writable
      ensures ok ==> storage == Some(expenses)
      ensures !ok ==> storage == old(storage)
    {
      ok := writable;
      if ok {
        storage := Some(expenses);
      }
    }

    /**
     * Converts `amount` with `parse`, stamps the record with `now`, appends it and
     * writes the whole list to the data file. The conversion comes first, so a bad
     * amount changes nothing; a failed write comes after the append, so the record
     * stays in memory while the file keeps its previous contents.
     */
    method AddExpense(amount: string, category: string, now: string,
                      parse: string -> Option<real>, writable: bool,
                      description: string := "")
      returns (r: AddOutcome)
      modifies this
      ensures r.InvalidAmount? <==> parse(amount).None?
      ensures r.Added? <==> parse(amount).Some? && writable
      ensures r.InvalidAmount? ==> expenses == old(expenses) && storage == old(storage)
      ensures !r.InvalidAmount? ==>
                expenses == old(expenses) + [Expense(now, parse(amount).value, category, description)]
      ensures r.Added? ==> r.record == expenses[|expenses| - 1] && storage == Some(expenses)
      ensures r.WriteFailed? ==> storage == old(storage)
    {
      var value := parse(amount);
      if value.None? {
        return InvalidAmount;
      }
      var e := Expense(now, value.value, category, description);
      expenses := expenses + [e];
      var ok := SaveExpenses(writable);
      r := if ok then Added(e) else WriteFailed;
    }

    /**
     * Groups the records by category: the keys are the categories present, each
     * once, in order of first appearance, and each value is the sum of the amounts
     * of that category's records.
     */
    method GetSummary() returns (s: Summary)
      ensures s.categories == Categories(expenses)
      ensures forall c :: c in s.totals <==> Occurs(expenses, c)
      ensures forall c :: c in s.totals ==> s.totals[c] == CategoryTotal(expenses, c)
    {
      var keys: seq<string> := [];
      var totals: map<string, real> := map[];
      for i := 0 to |expenses|
        invariant IsSummaryOf(keys, totals, expenses[..i])
      {
        var e := expenses[i];
        var previous := if e.category in totals then totals[e.category] else 0.0;
        var keys' := if e.category in totals then keys else keys + [e.category];
        var totals' := totals[e.category := previous + e.amount];
        assert expenses[..i + 1] == expenses[..i] + [e];
        SummaryStep(keys, totals, expenses[..i], e, keys', totals', expenses[..i + 1]);
        keys, totals := keys', totals';
      }
      assert expenses[..|expenses|] == expenses;
      assert IsSummaryOf(keys, totals, expenses);
      assert forall c :: c in totals <==> Occurs(expenses, c) by {
        CategoriesExact(expenses);
      }
      s := Summary(keys, totals);
    }

    /** The grand total shown under the summary: the sum of the summary's values. */
    method SummaryTotal() returns (total: real)
      ensures total == Total(expenses)
    {
      var s := GetSummary();
      assert forall c :: c in s.categories ==> c in s.totals by {
        CategoriesExact(expenses);
      }
      total := 0.0;
      for i := 0 to |s.categories|
        invariant total == SumTotals(s.categories[..i], expenses)
      {
        assert s.categories[..i + 1][..i] == s.categories[..i];
        total := total + s.totals[s.categories[i]];
      }
      assert s.categories[..|s.categories|] == s.categories;
      SummaryTotalIsTotal(expenses);
    }

    /** The listing of all records: each paired with its 1-based position. */
    method ViewAllExpenses() returns (lines: seq<(nat, Expense)>)
      ensures |lines| == |expenses|
      ensures forall i :: 0 <= i < |lines| ==> lines[i] == (i + 1, expenses[i])
    {
      lines := [];
      for i := 0 to |expenses|
        invariant |lines| == i
        invariant forall k :: 0 <= k < i ==> lines[k] == (k + 1, expenses[k])
      {
        lines := lines + [(i + 1, expenses[i])];
      }
    }
  }

  /**
   * Saving and then opening a new tracker on the written file gives back the
   * same list: the data file is a faithful copy of the records.
   */
  method SaveAndReload(t: ExpenseTracker) returns (u: ExpenseTracker)
    modifies t
    ensures t.expenses == old(t.expenses)
    ensures t.storage == Some(t.expenses)
    ensures u.expenses == t.expenses && u.storage == t.storage
  {
    var ok := t.SaveExpenses(true);
    u := new ExpenseTracker(t.storage);
  }
}
