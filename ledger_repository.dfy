/**
 * `TransactionRepository`: each operation forwards to the DAO unchanged, so queries
 * return exactly the DAO's results and writes have exactly the DAO's effect.
 */
module LedgerRepository {
  import opened Wrappers
  import opened LedgerEntity
  import LedgerDao

  class TransactionRepository {
    const dao: LedgerDao.TransactionDao

    constructor (dao: LedgerDao.TransactionDao)
      ensures this.dao == dao
    {
      this.dao := dao;
    }

    function GetAllTransactions(): (r: seq<Transaction>)
      reads dao
      requires dao.Valid()
      ensures r == LedgerDao.GetAllTransactions(dao.rows)
    {
      LedgerDao.GetAllTransactions(dao.rows)
    }

    function GetTransactionById(id: Id): (r: Option<Transaction>)
      reads dao
      requires dao.Valid()
      ensures r == LedgerDao.GetTransactionById(dao.rows, id)
    {
      LedgerDao.GetTransactionById(dao.rows, id)
    }

    /** Returns the id the DAO assigned, unchanged. */
    method InsertTransaction(transaction: Transaction) returns (id: Id)
      requires dao.Valid()
      modifies dao
      ensures dao.Valid()
      ensures transaction.id == UnassignedId ==> id == old(dao.nextId) && id !in old(dao.rows)
      ensures transaction.id != UnassignedId ==> id == transaction.id
      ensures dao.rows == old(dao.rows)[id := transaction.(id := id)]
      ensures dao.nextId == if id < old(dao.nextId) then old(dao.nextId) else id + 1
    {
      id := dao.InsertTransaction(transaction);
    }

    method UpdateTransaction(transaction: Transaction)
      requires dao.Valid()
      modifies dao
      ensures dao.Valid()
      ensures dao.rows == if transaction.id in old(dao.rows) then old(dao.rows)[transaction.id := transaction] else old(dao.rows)
      ensures dao.nextId == old(dao.nextId)
    {
      dao.UpdateTransaction(transaction);
    }

    method DeleteTransaction(transaction: Transaction)
      requires dao.Valid()
      modifies dao
      ensures dao.Valid()
      ensures dao.rows == old(dao.rows) - {transaction.id}
      ensures dao.nextId == old(dao.nextId)
    {
      dao.DeleteTransaction(transaction);
    }

    /** The bounds reach the DAO unchanged. */
    function GetTransactionsByDateRange(startDate: Millis, endDate: Millis): (r: seq<Transaction>)
      reads dao
      requires dao.Valid()
      ensures r == LedgerDao.GetTransactionsByDateRange(dao.rows, startDate, endDate)
    {
      LedgerDao.GetTransactionsByDateRange(dao.rows, startDate, endDate)
    }

    function GetTransactionsByType(isIncome: bool): (r: seq<Transaction>)
      reads dao
      requires dao.Valid()
      ensures r == LedgerDao.GetTransactionsByType(dao.rows, isIncome)
    {
      LedgerDao.GetTransactionsByType(dao.rows, isIncome)
    }

    function GetUnsyncedTransactions(): (r: seq<Transaction>)
      reads dao
      requires dao.Valid()
      ensures r == LedgerDao.GetUnsyncedTransactions(dao.rows)
    {
      LedgerDao.GetUnsyncedTransactions(dao.rows)
    }

    /** Still nullable: no null-to-zero conversion at this layer. */
    function GetTotalIncome(): (r: Option<real>)
      reads dao
      requires dao.Valid()
      ensures r == LedgerDao.GetTotalIncome(dao.rows)
      ensures r.None? <==> forall k | k in dao.rows :: !dao.rows[k].isIncome
    {
      LedgerDao.GetTotalIncome(dao.rows)
    }

    /** Still nullable: no null-to-zero conversion at this layer. */
    function GetTotalExpense(): (r: Option<real>)
      reads dao
      requires dao.Valid()
      ensures r == LedgerDao.GetTotalExpense(dao.rows)
      ensures r.None? <==> forall k | k in dao.rows :: dao.rows[k].isIncome
    {
      LedgerDao.GetTotalExpense(dao.rows)
    }
  }
}
