/**
 * `CloudBudgetRepository`: an in-memory store emulating a cloud backend. Its four lists are
 * fields that the methods reassign; adding a transaction moves the balance of its account,
 * deleting it moves the balance back.
 */
module BudgetRepository {
  import opened Wrappers
  import opened Sequences
  import opened BudgetModels

  function HasAccountId(id: string): Account -> bool
  {
    (a: Account) => a.id == id
  }

  function HasTransactionId(id: string): Transaction -> bool
  {
    (t: Transaction) => t.id == id
  }

  function LacksTransactionId(id: string): Transaction -> bool
  {
    (t: Transaction) => t.id != id
  }

  /** `accounts.indexOfFirst { it.id == id }`. */
  function AccountIndex(accounts: seq<Account>, id: string): (i: int)
    ensures -1 <= i < |accounts|
    ensures i == -1 <==> forall j | 0 <= j < |accounts| :: accounts[j].id != id
    ensures i >= 0 ==> accounts[i].id == id && forall j | 0 <= j < i :: accounts[j].id != id
  {
    IndexOfFirst(accounts, HasAccountId(id))
  }

  /** `transactions.indexOfFirst { it.id == id }`. */
  function TransactionIndex(transactions: seq<Transaction>, id: string): (i: int)
    ensures -1 <= i < |transactions|
    ensures i == -1 <==> forall j | 0 <= j < |transactions| :: transactions[j].id != id
    ensures i >= 0 ==> transactions[i].id == id && forall j | 0 <= j < i :: transactions[j].id != id
  {
    IndexOfFirst(transactions, HasTransactionId(id))
  }

  /** The balance after `t` is booked: income adds, expense subtracts, a transfer leaves it. */
  function Applied(balance: real, t: Transaction): (r: real)
    ensures t.kind == INCOME ==> r == balance + t.amount
    ensures t.kind == EXPENSE ==> r == balance - t.amount
    ensures t.kind == TRANSFER ==> r == balance
  {
    match t.kind
    case INCOME => balance + t.amount
    case EXPENSE => balance - t.amount
    case TRANSFER => balance
  }

  /** The balance after the booking of `t` is cancelled. */
  function Reversed(balance: real, t: Transaction): (r: real)
    ensures t.kind == INCOME ==> r == balance - t.amount
    ensures t.kind == EXPENSE ==> r == balance + t.amount
    ensures t.kind == TRANSFER ==> r == balance
  {
    match t.kind
    case INCOME => balance - t.amount
    case EXPENSE => balance + t.amount
    case TRANSFER => balance
  }

  /** Cancelling a booking gives the balance back, in either order. */
  lemma ReversedUndoesApplied(balance: real, t: Transaction)
    ensures Reversed(Applied(balance, t), t) == balance
    ensures Applied(Reversed(balance, t), t) == balance
  {
  }

  /**
   * `updateAccountBalance`'s effect: the first account with that id gets the new balance, and
   * nothing else changes; with no such account the list is unchanged.
   */
  function WithBalance(accounts: seq<Account>, accountId: string, newBalance: real): (r: seq<Account>)
    ensures |r| == |accounts|
    ensures forall j | 0 <= j < |r| :: r[j] == accounts[j].(balance := r[j].balance)
    ensures forall j | 0 <= j < |r| && j != AccountIndex(accounts, accountId) :: r[j] == accounts[j]
    ensures AccountIndex(accounts, accountId) >= 0 ==> r[AccountIndex(accounts, accountId)].balance == newBalance
    ensures AccountIndex(r, accountId) == AccountIndex(accounts, accountId)
  {
    var i := AccountIndex(accounts, accountId);
    if i == -1 then accounts
    else
      var r := accounts[i := accounts[i].(balance := newBalance)];
      assert forall j | 0 <= j < |r| :: r[j].id == accounts[j].id;
      r
  }

  /** The accounts after `t` is booked on its account (unchanged when the account is unknown). */
  function Credit(accounts: seq<Account>, t: Transaction): (r: seq<Account>)
    ensures var i := AccountIndex(accounts, t.accountId);
      i >= 0 ==> r == WithBalance(accounts, t.accountId, Applied(accounts[i].balance, t))
    ensures AccountIndex(accounts, t.accountId) == -1 ==> r == accounts
  {
    var i := AccountIndex(accounts, t.accountId);
    if i == -1 then accounts else WithBalance(accounts, t.accountId, Applied(accounts[i].balance, t))
  }

  /** The accounts after the booking of `t` is cancelled on its account. */
  function Debit(accounts: seq<Account>, t: Transaction): (r: seq<Account>)
    ensures var i := AccountIndex(accounts, t.accountId);
      i >= 0 ==> r == WithBalance(accounts, t.accountId, Reversed(accounts[i].balance, t))
    ensures AccountIndex(accounts, t.accountId) == -1 ==> r == accounts
  {
    var i := AccountIndex(accounts, t.accountId);
    if i == -1 then accounts else WithBalance(accounts, t.accountId, Reversed(accounts[i].balance, t))
  }

  /** `removeIf { it.id == id }`: every transaction with that id goes, the rest keep their order. */
  function WithoutId(transactions: seq<Transaction>, id: string): (r: seq<Transaction>)
    ensures forall j | 0 <= j < |r| :: r[j].id != id
    ensures forall j | 0 <= j < |transactions| && transactions[j].id != id :: transactions[j] in r
    ensures forall j | 0 <= j < |r| :: r[j] in transactions
    ensures IsSubsequence(r, transactions)
    ensures forall t {:trigger multiset(r)[t]} :: multiset(r)[t] == if t.id != id then multiset(transactions)[t] else 0
  {
    Filter(transactions, LacksTransactionId(id))
  }

  /** The sum of all account balances. */
  function TotalBalance(accounts: seq<Account>): real
  {
    if accounts == [] then 0.0 else accounts[0].balance + TotalBalance(accounts[1..])
  }

  /** Changing one balance changes the total by the same amount. */
  lemma {:induction false} TotalBalanceUpdate(accounts: seq<Account>, i: nat, newBalance: real)
    requires i < |accounts|
    ensures TotalBalance(accounts[i := accounts[i].(balance := newBalance)])
      == TotalBalance(accounts) - accounts[i].balance + newBalance
    decreases |accounts|
  {
    var r := accounts[i := accounts[i].(balance := newBalance)];
    if i == 0 {
      assert r[1..] == accounts[1..];
    } else {
      assert r[1..] == accounts[1..][i - 1 := accounts[i].(balance := newBalance)];
      TotalBalanceUpdate(accounts[1..], i - 1, newBalance);
    }
  }

  /**
   * Booking a transaction on a known account changes the money held in all accounts by
   * exactly its signed amount.
   */
  lemma CreditChangesTotalBySignedAmount(accounts: seq<Account>, t: Transaction)
    requires AccountIndex(accounts, t.accountId) >= 0
    ensures TotalBalance(Credit(accounts, t)) == Applied(TotalBalance(accounts), t)
  {
    var i := AccountIndex(accounts, t.accountId);
    TotalBalanceUpdate(accounts, i, Applied(accounts[i].balance, t));
    assert Credit(accounts, t) == accounts[i := accounts[i].(balance := Applied(accounts[i].balance, t))];
  }

  /** Cancelling a booking restores every account exactly. */
  lemma DebitUndoesCredit(accounts: seq<Account>, t: Transaction)
    ensures Debit(Credit(accounts, t), t) == accounts
  {
    var i := AccountIndex(accounts, t.accountId);
    if i >= 0 {
      var c := Credit(accounts, t);
      assert AccountIndex(c, t.accountId) == i;
      assert c[i].balance == Applied(accounts[i].balance, t);
      var d := Debit(c, t);
      assert d[i].balance == accounts[i].balance;
      assert forall j | 0 <= j < |d| :: d[j] == accounts[j];
    }
  }

  /** Filtering an appended element out. */
  lemma WithoutIdAppend(transactions: seq<Transaction>, t: Transaction)
    requires forall j | 0 <= j < |transactions| :: transactions[j].id != t.id
    ensures WithoutId(transactions + [t], t.id) == transactions
  {
    FilterAppendDropped(transactions, t, LacksTransactionId(t.id));
  }

  /** The four categories that a new repository starts with. */
  function InitialCategories(): (r: seq<Category>)
    ensures |r| == 4
    ensures r[0].kind == INCOME && r[1].kind == EXPENSE && r[2].kind == EXPENSE && r[3].kind == EXPENSE
    ensures forall j | 0 <= j < 4 :: r[j].iconName == DefaultIconName && r[j].color == DefaultColor
  {
    [NewCategory("1", "Зарплата", INCOME),
     NewCategory("2", "Продукты", EXPENSE),
     NewCategory("3", "Транспорт", EXPENSE),
     NewCategory("4", "Развлечения", EXPENSE)]
  }

  /** The two accounts that a new repository starts with; "1" is the default one. */
  function InitialAccounts(): (r: seq<Account>)
    ensures |r| == 2
    ensures r[0].id == "1" && r[0].balance == 10000.0 && r[0].isDefault
    ensures r[1].id == "2" && r[1].balance == 25000.0 && !r[1].isDefault
  {
    [NewAccount("1", "Наличные", 10000.0).(isDefault := true),
     NewAccount("2", "Дебетовая карта", 25000.0)]
  }

  /** The initial accounts hold 35000 in total. */
  lemma InitialTotalBalance()
    ensures TotalBalance(InitialAccounts()) == 35000.0
  {
    var r := InitialAccounts();
    assert r[1..][1..] == [];
  }

  class CloudBudgetRepository {
    var transactions: seq<Transaction>
    var categories: seq<Category>
    var accounts: seq<Account>
    var budgets: seq<Budget>

    /** A new repository: no transactions or budgets, the initial categories and accounts. */
    constructor ()
      ensures transactions == [] && budgets == []
      ensures categories == InitialCategories() && accounts == InitialAccounts()
    {
      transactions := [];
      categories := InitialCategories();
      accounts := InitialAccounts();
      budgets := [];
    }

    function GetTransactions(): (r: seq<Transaction>)
      reads this
      ensures r == transactions
    {
      transactions
    }

    function GetCategories(): (r: seq<Category>)
      reads this
      ensures r == categories
    {
      categories
    }

    function GetAccounts(): (r: seq<Account>)
      reads this
      ensures r == accounts
    {
      accounts
    }

    function GetBudgets(): (r: seq<Budget>)
      reads this
      ensures r == budgets
    {
      budgets
    }

    /**
     * `updateAccountBalance`: sets the balance of the first account with that id; false when
     * there is none.
     */
    method UpdateAccountBalance(accountId: string, newBalance: real) returns (ok: bool)
      modifies this
      ensures ok <==> AccountIndex(old(accounts), accountId) >= 0
      ensures accounts == WithBalance(old(accounts), accountId, newBalance)
      ensures transactions == old(transactions) && categories == old(categories) && budgets == old(budgets)
    {
      var index := IndexOfFirst(accounts, HasAccountId(accountId));
      if index != -1 {
        accounts := accounts[index := accounts[index].(balance := newBalance)];
        return true;
      }
      return false;
    }

    /**
     * `addTransaction`: appends the transaction first; then books it on its account, or
     * returns false, keeping the appended transaction, when the account is unknown.
     */
    method AddTransaction(transaction: Transaction) returns (ok: bool)
      modifies this
      ensures transactions == old(transactions) + [transaction]
      ensures ok <==> AccountIndex(old(accounts), transaction.accountId) >= 0
      ensures accounts == Credit(old(accounts), transaction)
      ensures categories == old(categories) && budgets == old(budgets)
    {
      transactions := transactions + [transaction];
      var account := Find(accounts, HasAccountId(transaction.accountId));
      if account.None? {
        return false;
      }
      assert account.value == accounts[AccountIndex(accounts, transaction.accountId)];
      var newBalance := match transaction.kind
        case INCOME => account.value.balance + transaction.amount
        case EXPENSE => account.value.balance - transaction.amount
        case TRANSFER => account.value.balance;
      assert newBalance == Applied(account.value.balance, transaction);
      var _ := UpdateAccountBalance(account.value.id, newBalance);
      return true;
    }

    /** `updateTransaction`: replaces the first transaction with that id; false when there is none. */
    method UpdateTransaction(transaction: Transaction) returns (ok: bool)
      modifies this
      ensures ok <==> TransactionIndex(old(transactions), transaction.id) >= 0
      ensures ok ==>
                transactions == old(transactions)[TransactionIndex(old(transactions), transaction.id) := transaction]
      ensures !ok ==> transactions == old(transactions)
      ensures accounts == old(accounts) && categories == old(categories) && budgets == old(budgets)
    {
      var index := IndexOfFirst(transactions, HasTransactionId(transaction.id));
      if index != -1 {
        transactions := transactions[index := transaction];
        return true;
      }
      return false;
    }

    /**
     * `deleteTransaction`: false, changing nothing, when no transaction has that id or its
     * account is unknown; otherwise cancels the first one's booking once and removes every
     * transaction with that id.
     */
    method DeleteTransaction(transactionId: string) returns (ok: bool)
      modifies this
      ensures var i := TransactionIndex(old(transactions), transactionId);
        ok <==> i >= 0 && AccountIndex(old(accounts), old(transactions)[i].accountId) >= 0
      ensures ok ==> transactions == WithoutId(old(transactions), transactionId)
      ensures ok ==>
                accounts == Debit(old(accounts), old(transactions)[TransactionIndex(old(transactions), transactionId)])
      ensures !ok ==> transactions == old(transactions) && accounts == old(accounts)
      ensures categories == old(categories) && budgets == old(budgets)
    {
      var found := Find(transactions, HasTransactionId(transactionId));
      if found.None? {
        return false;
      }
      var transaction := found.value;
      assert transaction == transactions[TransactionIndex(transactions, transactionId)];
      var account := Find(accounts, HasAccountId(transaction.accountId));
      if account.None? {
        return false;
      }
      assert account.value == accounts[AccountIndex(accounts, transaction.accountId)];
      var newBalance := match transaction.kind
        case INCOME => account.value.balance - transaction.amount
        case EXPENSE => account.value.balance + transaction.amount
        case TRANSFER => account.value.balance;
      assert newBalance == Reversed(account.value.balance, transaction);
      var _ := UpdateAccountBalance(account.value.id, newBalance);
      transactions := Filter(transactions, LacksTransactionId(transactionId));
      return true;
    }

    method AddCategory(category: Category) returns (ok: bool)
      modifies this
      ensures ok
      ensures categories == old(categories) + [category]
      ensures transactions == old(transactions) && accounts == old(accounts) && budgets == old(budgets)
    {
      categories := categories + [category];
      return true;
    }

    method AddAccount(account: Account) returns (ok: bool)
      modifies this
      ensures ok
      ensures accounts == old(accounts) + [account]
      ensures transactions == old(transactions) && categories == old(categories) && budgets == old(budgets)
    {
      accounts := accounts + [account];
      return true;
    }

    method AddBudget(budget: Budget) returns (ok: bool)
      modifies this
      ensures ok
      ensures budgets == old(budgets) + [budget]
      ensures transactions == old(transactions) && categories == old(categories) && accounts == old(accounts)
    {
      budgets := budgets + [budget];
      return true;
    }
  }

  /**
   * Adding a transaction with a fresh id to a known account and then deleting it by that id
   * succeeds and gives back the transaction list and every account balance as they were.
   */
  lemma AddThenDeleteRestores(transactions: seq<Transaction>, accounts: seq<Account>, t: Transaction)
    requires forall j | 0 <= j < |transactions| :: transactions[j].id != t.id
    requires AccountIndex(accounts, t.accountId) >= 0
    ensures var added := transactions + [t];
      TransactionIndex(added, t.id) == |transactions| && added[|transactions|] == t
    ensures AccountIndex(Credit(accounts, t), t.accountId) >= 0
    ensures WithoutId(transactions + [t], t.id) == transactions
    ensures Debit(Credit(accounts, t), t) == accounts
  {
    var added := transactions + [t];
    assert forall j | 0 <= j < |transactions| :: added[j].id != t.id;
    WithoutIdAppend(transactions, t);
    DebitUndoesCredit(accounts, t);
  }
}
