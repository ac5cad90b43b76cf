/**
 * The records the expense hooks and views exchange: a transaction
 * (`Expense`), the draft the entry form submits (`Omit<Expense, 'id'>`), a
 * row of the monthly series (`MonthlyData`) and an entry of the category
 * breakdown (`CategoryData`).
 */
module Ledger {
  import opened Calendar

  /** The `type` tag of a record: `'income'` or `'expense'`. */
  datatype Kind = Income | Expense

  /**
   * A stored transaction. `amount` is a JavaScript number in the source; here
   * it is an integer count of the smallest currency unit, and the store does
   * not require it to be positive.
   */
  datatype Transaction = Transaction(
    id: string,
    amount: int,
    category: string,
    description: string,
    date: CalendarDate,
    kind: Kind)

  /** What the entry form hands to `addExpense`: a transaction without its id. */
  datatype Draft = Draft(
    amount: int,
    category: string,
    description: string,
    date: CalendarDate,
    kind: Kind)
  {
    /** `{ ...expense, id }`: the stored record carrying the new id. */
    function WithId(id: string): Transaction {
      Transaction(id, amount, category, description, date, kind)
    }
  }

  /** One row of the monthly series; `month` is the bucket its "MMM yyyy" label names. */
  datatype MonthlyRow = MonthlyRow(month: CalendarMonth, income: int, expenses: int, savings: int)

  /** One entry of the category breakdown. */
  datatype CategoryRow = CategoryRow(name: string, amount: int, color: string)
}
