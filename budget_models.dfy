/**
 * The records of the budget screens' cloud-backed store. Ids are strings (random UUIDs in
 * the source), dates are milliseconds since the epoch; the fresh UUID and the current time
 * that the Kotlin default arguments produce are parameters of the `New…` functions.
 */
module BudgetModels {
  import opened Wrappers

  type Uuid = string
  type Millis = int

  datatype TransactionType = INCOME | EXPENSE | TRANSFER

  /** A movement of money on one account. (`type` in the source, a Dafny keyword.) */
  datatype Transaction = Transaction(
    id: Uuid,
    amount: real,
    description: string,
    categoryId: string,
    date: Millis,
    kind: TransactionType,
    accountId: string,
    createdAt: Millis,
    updatedAt: Millis)

  datatype Category = Category(
    id: Uuid,
    name: string,
    kind: TransactionType,
    iconName: string,
    color: string)

  datatype Account = Account(
    id: Uuid,
    name: string,
    balance: real,
    currency: string,
    iconName: string,
    isDefault: bool)

  /** `period` is free text such as MONTHLY or WEEKLY; an open-ended budget has no end date. */
  datatype Budget = Budget(
    id: Uuid,
    categoryId: string,
    amount: real,
    period: string,
    startDate: Millis,
    endDate: Option<Millis>)

  const DefaultIconName: string := "default_icon"
  const DefaultColor: string := "#000000"
  const DefaultCurrency: string := "RUB"

  /** A transaction built with the defaults: a fresh id and the current time for all three dates. */
  function NewTransaction(uuid: Uuid, now: Millis, amount: real, description: string,
                          categoryId: string, kind: TransactionType, accountId: string): (t: Transaction)
    ensures t.id == uuid && t.date == now && t.createdAt == now && t.updatedAt == now
    ensures t.amount == amount && t.description == description && t.categoryId == categoryId
    ensures t.kind == kind && t.accountId == accountId
  {
    Transaction(uuid, amount, description, categoryId, now, kind, accountId, now, now)
  }

  /** A category built with the defaults. */
  function NewCategory(uuid: Uuid, name: string, kind: TransactionType): (c: Category)
    ensures c.id == uuid && c.name == name && c.kind == kind
    ensures c.iconName == DefaultIconName && c.color == DefaultColor
  {
    Category(uuid, name, kind, DefaultIconName, DefaultColor)
  }

  /** An account built with the defaults: roubles, the default icon, not the default account. */
  function NewAccount(uuid: Uuid, name: string, balance: real): (a: Account)
    ensures a.id == uuid && a.name == name && a.balance == balance
    ensures a.currency == DefaultCurrency && a.iconName == DefaultIconName && !a.isDefault
  {
    Account(uuid, name, balance, DefaultCurrency, DefaultIconName, false)
  }

  /** A budget built with the defaults: starting now, with no end date. */
  function NewBudget(uuid: Uuid, now: Millis, categoryId: string, amount: real, period: string): (b: Budget)
    ensures b.id == uuid && b.categoryId == categoryId && b.amount == amount && b.period == period
    ensures b.startDate == now && b.endDate.None?
  {
    Budget(uuid, categoryId, amount, period, now, None)
  }
}
