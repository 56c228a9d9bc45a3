/**
 * The ledger record. Transaction, Income and Expense are a record class
 * hierarchy with getters and setters; here they are one tagged datatype, the
 * kind of transaction being its constructor instead of an instanceof test.
 */
module Transactions {
  import opened Wrappers
  import opened Dates

  datatype Transaction =
    | Income(id: string, amount: int, date: Date, description: string, category: string)
      /** originalRecurringId is Some(template id) for an expense generated from a recurring template. */
    | Expense(id: string, amount: int, date: Date, description: string, category: string,
              originalRecurringId: Option<string>)

  datatype Kind = IncomeKind | ExpenseKind

  predicate OfKind(t: Transaction, k: Kind) {
    match k
    case IncomeKind => t.Income?
    case ExpenseKind => t.Expense?
  }

  function AmountOf(t: Transaction): int { t.amount }

  function CategoryOf(t: Transaction): string { t.category }
}
