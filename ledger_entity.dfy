/**
 * The `transactions` table row of the local ledger (Room entity `Transaction`).
 * Amounts are exact reals and dates are milliseconds since the epoch.
 */
module LedgerEntity {
  import opened Wrappers

  /** The primary key column (a Kotlin `Long`). */
  type Id = int
  /** A `java.util.Date`, as milliseconds since the epoch. */
  type Millis = int

  /** The id a new record carries so that the store assigns one (autoGenerate). */
  const UnassignedId: Id := 0

  /**
   * One row. The amount is an unsigned magnitude; only `isIncome` gives the direction.
   */
  datatype Transaction = Transaction(
    id: Id,
    title: string,
    amount: real,
    isIncome: bool,
    category: string,
    date: Millis,
    description: Option<string>,
    syncedWithCloud: bool)

  /**
   * The record built with the constructor's defaults: no id yet, not synced; the caller
   * decides whether a description is given (its default is null).
   */
  function NewTransaction(title: string, amount: real, isIncome: bool, category: string,
                          date: Millis, description: Option<string>): (t: Transaction)
    ensures t.id == UnassignedId && !t.syncedWithCloud
    ensures t.title == title && t.amount == amount && t.isIncome == isIncome
    ensures t.category == category && t.date == date && t.description == description
  {
    Transaction(UnassignedId, title, amount, isIncome, category, date, description, false)
  }

  /** The signed contribution of a row to the balance. */
  function SignedAmount(t: Transaction): (r: real)
    ensures t.isIncome ==> r == t.amount
    ensures !t.isIncome ==> r == -t.amount
  {
    if t.isIncome then t.amount else -t.amount
  }
}
