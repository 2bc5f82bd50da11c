/**
 * `TransactionViewModel`: the exposed transaction list and the three totals.
 *
 * Each collector of the source becomes a method that performs one emission: it reads
 * the current table through the repository and assigns the exposed fields.
 */
module LedgerViewModel {
  import opened Wrappers
  import opened LedgerEntity
  import LedgerDao
  import opened LedgerRepository

  class TransactionViewModel {
    const repository: TransactionRepository
    var transactions: seq<Transaction>
    var totalIncome: real
    var totalExpense: real
    var balance: real

    /** The balance always equals income minus expense. */
    ghost predicate Valid()
      reads this, repository, repository.dao
    {
      repository.dao.Valid() && balance == totalIncome - totalExpense
    }

    /** Before any collector has run: an empty list and all totals 0. */
    constructor (repository: TransactionRepository)
      requires repository.dao.Valid()
      ensures Valid() && this.repository == repository
      ensures transactions == [] && totalIncome == 0.0 && totalExpense == 0.0 && balance == 0.0
    {
      this.repository := repository;
      transactions := [];
      totalIncome := 0.0;
      totalExpense := 0.0;
      balance := 0.0;
    }

    /**
     * One step of the `combine` of the two sums: a null sum counts as 0, and all three
     * totals are assigned from the same pair.
     */
    method Combine(income: Option<real>, expense: Option<real>)
      requires Valid()
      modifies this
      ensures Valid()
      ensures totalIncome == income.GetOr(0.0) && totalExpense == expense.GetOr(0.0)
      ensures income.None? ==> totalIncome == 0.0
      ensures expense.None? ==> totalExpense == 0.0
      ensures transactions == old(transactions)
    {
      var ti := income.GetOr(0.0);
      var te := expense.GetOr(0.0);
      var b := ti - te;
      totalIncome := ti;
      totalExpense := te;
      balance := b;
    }

    /**
     * The combine collector receiving the current sums: the totals are the sums over the
     * current table and the balance is the signed sum over all its rows.
     */
    method CollectTotals()
      requires Valid()
      modifies this
      ensures Valid()
      ensures totalIncome == LedgerDao.TypeTotal(repository.dao.rows, true)
      ensures totalExpense == LedgerDao.TypeTotal(repository.dao.rows, false)
      ensures balance == LedgerDao.SumSigned(repository.GetAllTransactions())
      ensures transactions == old(transactions)
    {
      var income := repository.GetTotalIncome();
      var expense := repository.GetTotalExpense();
      Combine(income, expense);
      LedgerDao.BalanceIsSignedSum(repository.dao.rows);
    }

    /** `getAllTransactions` (and the collector started by `init`): one emission of the full list. */
    method GetAllTransactions()
      requires Valid()
      modifies this
      ensures Valid()
      ensures transactions == repository.GetAllTransactions()
      ensures totalIncome == old(totalIncome) && totalExpense == old(totalExpense) && balance == old(balance)
    {
      transactions := repository.GetAllTransactions();
    }

    /** `getTransactionsByType`: the exposed list becomes only the rows of that type. */
    method GetTransactionsByType(isIncome: bool)
      requires Valid()
      modifies this
      ensures Valid()
      ensures transactions == repository.GetTransactionsByType(isIncome)
      ensures forall t | t in transactions :: t.isIncome == isIncome
      ensures totalIncome == old(totalIncome) && totalExpense == old(totalExpense) && balance == old(balance)
    {
      transactions := repository.GetTransactionsByType(isIncome);
    }

    /**
     * `insertTransaction`: stores a new record with the given fields, id 0 (so the store
     * assigns the next id) and `syncedWithCloud` false. The caller passes the date and the
     * description explicitly; the source's defaults are `Date()` and null.
     */
    method InsertTransaction(title: string, amount: real, isIncome: bool, category: string,
                             date: Millis, description: Option<string>)
      requires Valid()
      modifies repository.dao
      ensures Valid()
      ensures repository.dao.rows == old(repository.dao.rows)[old(repository.dao.nextId) :=
        Transaction(old(repository.dao.nextId), title, amount, isIncome, category, date, description, false)]
      ensures old(repository.dao.nextId) !in old(repository.dao.rows)
      ensures repository.dao.nextId == old(repository.dao.nextId) + 1
    {
      var transaction := NewTransaction(title, amount, isIncome, category, date, description);
      var _ := repository.InsertTransaction(transaction);
    }

    method UpdateTransaction(transaction: Transaction)
      requires Valid()
      modifies repository.dao
      ensures Valid()
      ensures repository.dao.rows == if transaction.id in old(repository.dao.rows)
        then old(repository.dao.rows)[transaction.id := transaction] else old(repository.dao.rows)
      ensures repository.dao.nextId == old(repository.dao.nextId)
    {
      repository.UpdateTransaction(transaction);
    }

    method DeleteTransaction(transaction: Transaction)
      requires Valid()
      modifies repository.dao
      ensures Valid()
      ensures repository.dao.rows == old(repository.dao.rows) - {transaction.id}
      ensures repository.dao.nextId == old(repository.dao.nextId)
    {
      repository.DeleteTransaction(transaction);
    }
  }
}
