/**
 * The category lists of Expense and Income. In the Java code each is a static
 * list shared by all transactions of that kind; here each is an explicit
 * registry object, and setCategory on a transaction is a method of the
 * registry of its kind.
 */
module Categories {
  import opened Transactions

  const DefaultExpenseCategories: seq<string> :=
    ["Groceries", "Transport", "Entertainment", "Utilities",
     "Healthcare", "Clothing", "Restaurants", "Education"]

  const DefaultIncomeCategories: seq<string> :=
    ["Salary", "Freelance", "Investment", "Gift", "Allowance"]

  predicate Distinct(s: seq<string>) {
    forall i, j :: 0 <= i < j < |s| ==> s[i] != s[j]
  }

  /** addExpenseCategory / addIncomeCategory: append the name only when it is absent. */
  function Ensure(names: seq<string>, c: string): seq<string> {
    if c in names then names else names + [c]
  }

  /** After Ensure the name is registered, every earlier entry is kept in place, and at most one entry is added. */
  lemma EnsureExtends(names: seq<string>, c: string)
    ensures c in Ensure(names, c)
    ensures names <= Ensure(names, c)
    ensures |Ensure(names, c)| <= |names| + 1
    ensures Ensure(names, c) == names <==> c in names
  {
  }

  /** Ensure keeps a duplicate-free list duplicate-free. */
  lemma EnsurePreservesDistinct(names: seq<string>, c: string)
    requires Distinct(names)
    ensures Distinct(Ensure(names, c))
  {
  }

  /** Ensuring the same name twice is the same as ensuring it once. */
  lemma EnsureIdempotent(names: seq<string>, c: string)
    ensures Ensure(Ensure(names, c), c) == Ensure(names, c)
  {
    EnsureExtends(names, c);
  }

  lemma DefaultsDistinct()
    ensures |DefaultExpenseCategories| == 8 && Distinct(DefaultExpenseCategories)
    ensures |DefaultIncomeCategories| == 5 && Distinct(DefaultIncomeCategories)
  {
  }

  class CategoryRegistry {
    var names: seq<string>

    /** The initial Expense.expenseCategories. */
    constructor ForExpenses()
      ensures names == DefaultExpenseCategories
    {
      names := DefaultExpenseCategories;
    }

    /** The initial Income.incomeCategories. */
    constructor ForIncome()
      ensures names == DefaultIncomeCategories
    {
      names := DefaultIncomeCategories;
    }

    /** addExpenseCategory / addIncomeCategory (a present name only prints a notice). */
    method AddCategory(c: string)
      modifies this
      ensures names == Ensure(old(names), c)
    {
      if c !in names {
        names := names + [c];
      }
    }

    /** Expense.setCategory / Income.setCategory on transaction t. */
    method SetCategory(t: Transaction, c: string) returns (u: Transaction)
      modifies this
      ensures u == t.(category := c)
      ensures c in names && old(names) <= names && |names| <= |old(names)| + 1
      ensures names == Ensure(old(names), c)
    {
      if c !in names {
        AddCategory(c);
      }
      u := t.(category := c);
    }

    /** getCategories / getAvailableCategories return a copy of the list. */
    method GetCategories() returns (r: seq<string>)
      ensures r == names
    {
      r := names;
    }

    /** setCategories replaces the list wholesale by a copy of l. */
    method SetCategories(l: seq<string>)
      modifies this
      ensures names == l
    {
      names := l;
    }
  }
}
