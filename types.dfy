// Record shapes and fixed category vocabularies of the finance tracker
// (types/index.ts). Amounts are integer cents; a date is the
// (year, month, day) triple read from its "YYYY-MM-DD" text.
module Types {

  datatype Option<T> = None | Some(value: T)

  /** The `type` field of a transaction. */
  datatype TxType = Income | Expense

  /** The `period` field of a budget. */
  datatype Period = Monthly | Yearly

  /** A calendar date with a 1-based month, as written in "YYYY-MM-DD". */
  datatype Date = Date(year: nat, month: nat, day: nat)

  predicate ValidDate(d: Date)
  {
    1 <= d.month <= 12 && 1 <= d.day <= 31
  }

  datatype Transaction = Transaction(
    id: string,
    kind: TxType,
    amount: int,
    category: string,
    description: string,
    date: Date)

  datatype Budget = Budget(
    id: string,
    category: string,
    amount: int,
    period: Period)

  /** A transaction before an id is assigned (`Omit<Transaction, 'id'>`). */
  datatype TransactionDraft = TransactionDraft(
    kind: TxType,
    amount: int,
    category: string,
    description: string,
    date: Date)

  /** A budget before an id is assigned (`Omit<Budget, 'id'>`). */
  datatype BudgetDraft = BudgetDraft(
    category: string,
    amount: int,
    period: Period)

  function TxId(t: Transaction): string { t.id }

  function BudgetId(b: Budget): string { b.id }

  const ExpenseCategories: seq<string> := [
    "Food & Dining",
    "Transportation",
    "Shopping",
    "Entertainment",
    "Bills & Utilities",
    "Healthcare",
    "Education",
    "Travel",
    "Other"
  ]

  const IncomeCategories: seq<string> := [
    "Salary",
    "Freelance",
    "Investment",
    "Business",
    "Gift",
    "Other"
  ]
}
