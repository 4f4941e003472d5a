/**
 * The records the backend returns and the views aggregate. Amounts and
 * balances are whole cents; the `type` property of a record is `kind` here.
 */
module Records {
  import opened Common

  /** A transaction: `type` is the raw string the backend sends ("INCOME", "EXPENSE", ...). */
  datatype Transaction = Transaction(amount: int, kind: string, categoryId: int, dateTime: string)

  datatype Account = Account(id: int, name: string, kind: Option<string>, balance: int)

  /** A category; `parentId` is absent for a top-level category. */
  datatype Category = Category(id: int, name: string, parentId: Option<int>)

  datatype Budget = Budget(id: int, categoryId: int, limit: int, currentAmount: int)

  datatype Notification = Notification(id: int, kind: Option<string>, message: string, read: bool)

  const INCOME := "INCOME"
  const EXPENSE := "EXPENSE"

  /** The sum of all amounts. */
  function TotalAmount(txs: seq<Transaction>): int
  {
    if txs == [] then 0 else TotalAmount(txs[..|txs| - 1]) + txs[|txs| - 1].amount
  }

  /** The sum of the amounts of the transactions typed exactly "INCOME". */
  function IncomeTotal(txs: seq<Transaction>): int
  {
    if txs == [] then 0
    else IncomeTotal(txs[..|txs| - 1]) + (if txs[|txs| - 1].kind == INCOME then txs[|txs| - 1].amount else 0)
  }

  /** The sum of the amounts of the transactions typed exactly "EXPENSE". */
  function ExpenseTotal(txs: seq<Transaction>): int
  {
    if txs == [] then 0
    else ExpenseTotal(txs[..|txs| - 1]) + (if txs[|txs| - 1].kind == EXPENSE then txs[|txs| - 1].amount else 0)
  }
}
