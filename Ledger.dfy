/**
 * TransactionManager: the in-memory transaction ledger, its monthly totals and
 * its per-category breakdowns.
 */
module Ledger {
  import opened Dates
  import opened Transactions
  import opened Seqs
  import opened Grouping

  /** isInMonth: both the month and the year of the date match. */
  predicate InMonth(d: Date, month: int, year: int) {
    d.month == month && d.year == year
  }

  /** "a transaction of this kind dated in (month, year)" */
  function InPeriod(k: Kind, month: int, year: int): Transaction -> bool {
    t => OfKind(t, k) && InMonth(t.date, month, year)
  }

  /** The transactions of one kind in one month, in ledger order. */
  function InPeriodOf(ts: seq<Transaction>, k: Kind, month: int, year: int): seq<Transaction> {
    Filter(ts, InPeriod(k, month, year))
  }

  /** getTotalIncome (IncomeKind) and getTotalExpenses (ExpenseKind). */
  function Total(ts: seq<Transaction>, k: Kind, month: int, year: int): int {
    Sum(InPeriodOf(ts, k, month, year), AmountOf)
  }

  /** getIncomeByCategory (IncomeKind) and getExpensesByCategory (ExpenseKind). */
  function ByCategory(ts: seq<Transaction>, k: Kind, month: int, year: int): map<string, int> {
    GroupSum(InPeriodOf(ts, k, month, year), CategoryOf, AmountOf)
  }

  class TransactionManager {
    var transactions: seq<Transaction>

    constructor ()
      ensures transactions == []
    {
      transactions := [];
    }

    method AddTransaction(t: Transaction)
      modifies this
      ensures transactions == old(transactions) + [t]
    {
      transactions := transactions + [t];
    }

    /** The accessor the startup reconciler reads the ledger through. */
    function GetAllTransactions(): seq<Transaction>
      reads this
    {
      transactions
    }

    function GetTotalIncome(month: int, year: int): int
      reads this
    {
      Total(transactions, IncomeKind, month, year)
    }

    function GetTotalExpenses(month: int, year: int): int
      reads this
    {
      Total(transactions, ExpenseKind, month, year)
    }

    function GetExpensesByCategory(month: int, year: int): map<string, int>
      reads this
    {
      ByCategory(transactions, ExpenseKind, month, year)
    }

    function GetIncomeByCategory(month: int, year: int): map<string, int>
      reads this
    {
      ByCategory(transactions, IncomeKind, month, year)
    }
  }

  lemma InPeriodAppend(ts: seq<Transaction>, t: Transaction, k: Kind, month: int, year: int)
    ensures InPeriodOf(ts + [t], k, month, year)
         == InPeriodOf(ts, k, month, year) + (if InPeriod(k, month, year)(t) then [t] else [])
  {
    FilterAppend(ts, [t], InPeriod(k, month, year));
  }

  /** Appending a transaction dated outside (month, year) changes no total and no breakdown for it. */
  lemma AppendOutsidePeriod(ts: seq<Transaction>, t: Transaction, month: int, year: int)
    requires !InMonth(t.date, month, year)
    ensures Total(ts + [t], IncomeKind, month, year) == Total(ts, IncomeKind, month, year)
    ensures Total(ts + [t], ExpenseKind, month, year) == Total(ts, ExpenseKind, month, year)
    ensures ByCategory(ts + [t], IncomeKind, month, year) == ByCategory(ts, IncomeKind, month, year)
    ensures ByCategory(ts + [t], ExpenseKind, month, year) == ByCategory(ts, ExpenseKind, month, year)
  {
    InPeriodAppend(ts, t, IncomeKind, month, year);
    InPeriodAppend(ts, t, ExpenseKind, month, year);
    assert InPeriodOf(ts, IncomeKind, month, year) + [] == InPeriodOf(ts, IncomeKind, month, year);
    assert InPeriodOf(ts, ExpenseKind, month, year) + [] == InPeriodOf(ts, ExpenseKind, month, year);
  }

  /** Appending an expense dated in (month, year) raises that month's expenses by its amount only. */
  lemma AppendExpenseInPeriod(ts: seq<Transaction>, t: Transaction, month: int, year: int)
    requires t.Expense? && InMonth(t.date, month, year)
    ensures Total(ts + [t], ExpenseKind, month, year) == Total(ts, ExpenseKind, month, year) + t.amount
    ensures Total(ts + [t], IncomeKind, month, year) == Total(ts, IncomeKind, month, year)
  {
    InPeriodAppend(ts, t, IncomeKind, month, year);
    InPeriodAppend(ts, t, ExpenseKind, month, year);
    assert InPeriodOf(ts, IncomeKind, month, year) + [] == InPeriodOf(ts, IncomeKind, month, year);
    SumAppend(InPeriodOf(ts, ExpenseKind, month, year), [t], AmountOf);
  }

  /** Appending an income dated in (month, year) raises that month's income by its amount only. */
  lemma AppendIncomeInPeriod(ts: seq<Transaction>, t: Transaction, month: int, year: int)
    requires t.Income? && InMonth(t.date, month, year)
    ensures Total(ts + [t], IncomeKind, month, year) == Total(ts, IncomeKind, month, year) + t.amount
    ensures Total(ts + [t], ExpenseKind, month, year) == Total(ts, ExpenseKind, month, year)
  {
    InPeriodAppend(ts, t, IncomeKind, month, year);
    InPeriodAppend(ts, t, ExpenseKind, month, year);
    assert InPeriodOf(ts, ExpenseKind, month, year) + [] == InPeriodOf(ts, ExpenseKind, month, year);
    SumAppend(InPeriodOf(ts, IncomeKind, month, year), [t], AmountOf);
  }

  /**
   * The breakdown's keys are exactly the categories of the transactions of
   * that kind in (month, year), and each value is the sum of their amounts.
   */
  lemma ByCategoryCharacterised(ts: seq<Transaction>, k: Kind, month: int, year: int, c: string)
    ensures c in ByCategory(ts, k, month, year) <==>
      exists i :: 0 <= i < |ts| && OfKind(ts[i], k) && InMonth(ts[i].date, month, year) && ts[i].category == c
    ensures c in ByCategory(ts, k, month, year) ==>
      ByCategory(ts, k, month, year)[c] == Sum(Filter(InPeriodOf(ts, k, month, year), KeyEq(CategoryOf, c)), AmountOf)
  {
    var sel := InPeriodOf(ts, k, month, year);
    GroupSumKeys(sel, CategoryOf, AmountOf);
    GroupSumValue(sel, CategoryOf, AmountOf, c);
    FilterMembers(ts, InPeriod(k, month, year));
    if c in ByCategory(ts, k, month, year) {
      var j :| 0 <= j < |sel| && CategoryOf(sel[j]) == c;
      assert sel[j] in ts;
    }
    if exists i :: 0 <= i < |ts| && OfKind(ts[i], k) && InMonth(ts[i].date, month, year) && ts[i].category == c {
      var i :| 0 <= i < |ts| && OfKind(ts[i], k) && InMonth(ts[i].date, month, year) && ts[i].category == c;
      assert ts[i] in sel;
      var j :| 0 <= j < |sel| && sel[j] == ts[i];
      assert CategoryOf(sel[j]) == c;
    }
  }

  /** The breakdown's values add up to the month's total. */
  lemma ByCategorySumsToTotal(ts: seq<Transaction>, k: Kind, month: int, year: int)
    ensures MapSum(ByCategory(ts, k, month, year)) == Total(ts, k, month, year)
  {
    GroupSumTotal(InPeriodOf(ts, k, month, year), CategoryOf, AmountOf);
  }

  /** A month outside 1..12 matches no date: its totals are zero and its breakdowns empty. */
  lemma MonthOutOfRange(ts: seq<Transaction>, k: Kind, month: int, year: int)
    requires month < 1 || month > 12
    ensures Total(ts, k, month, year) == 0
    ensures ByCategory(ts, k, month, year) == map[]
  {
    FilterNone(ts, InPeriod(k, month, year));
  }
}
