/**
 * The `transactions` table and the queries of `TransactionDao`.
 *
 * The table is a map from primary key to row. Each query is a function of the map;
 * insert, update and delete are methods of the class `TransactionDao`, which holds it.
 */
module LedgerDao {
  import opened Wrappers
  import opened LedgerEntity

  type Table = map<Id, Transaction>

  /** Every stored row carries its own primary key. */
  predicate Keyed(m: Table) {
    forall k | k in m :: m[k].id == k
  }

  /** The rows of `m` satisfying `p` (a `WHERE` clause). */
  function Where(m: Table, p: Transaction -> bool): (sub: Table)
    ensures forall k | k in sub :: k in m && sub[k] == m[k] && p(m[k])
    ensures forall k | k in m && p(m[k]) :: k in sub
    ensures Keyed(m) ==> Keyed(sub)
  {
    map k | k in m && p(m[k]) :: m[k]
  }

  // ---------------------------------------------------------------------------
  // ORDER BY date DESC

  /**
   * `x` may be listed before `y` under `ORDER BY date DESC`: its date is no earlier, and on
   * equal dates its id is no larger (the relation is reflexive). SQL leaves the order of
   * equal dates open; the model lists them by ascending id.
   */
  predicate ListedBefore(x: Transaction, y: Transaction) {
    x.date > y.date || (x.date == y.date && x.id <= y.id)
  }

  /** `k` is the key of the row listed first. */
  predicate IsFirst(m: Table, k: Id) {
    k in m && forall j | j in m :: ListedBefore(m[k], m[j])
  }

  lemma SomeKey(m: Table) returns (k: Id)
    requires m != map[]
    ensures k in m
  {
    var item :| item in m.Items;
    k := item.0;
  }

  lemma FirstExists(m: Table)
    requires m != map[]
    ensures exists k :: IsFirst(m, k)
    decreases |m|
  {
    var k := SomeKey(m);
    var rest := m - {k};
    assert rest.Keys == m.Keys - {k};
    if rest == map[] {
      forall j | j in m ensures ListedBefore(m[k], m[j]) {
        assert j !in rest;
      }
      assert IsFirst(m, k);
    } else {
      FirstExists(rest);
      var j :| IsFirst(rest, j);
      if ListedBefore(m[k], m[j]) {
        forall i | i in m ensures ListedBefore(m[k], m[i]) {
          if i != k { assert i in rest && ListedBefore(m[j], m[i]); }
        }
        assert IsFirst(m, k);
      } else {
        forall i | i in m ensures ListedBefore(m[j], m[i]) {
          if i != k { assert i in rest; }
        }
        assert IsFirst(m, j);
      }
    }
  }

  /** The key of the row `ORDER BY date DESC` lists first. */
  function First(m: Table): (k: Id)
    requires Keyed(m) && m != map[]
    ensures IsFirst(m, k)
  {
    FirstExists(m);
    var k :| IsFirst(m, k);
    k
  }

  lemma FirstUnique(m: Table, k: Id)
    requires Keyed(m) && IsFirst(m, k)
    ensures First(m) == k
  {
  }

  /** Every element of `r` is the row stored under its id. */
  predicate FromTable(r: seq<Transaction>, m: Table) {
    forall i | 0 <= i < |r| :: r[i].id in m && m[r[i].id] == r[i]
  }

  /** Every row of `m` occurs in `r`. */
  predicate CoversTable(r: seq<Transaction>, m: Table) {
    forall k | k in m :: m[k] in r
  }

  /** No id occurs twice in `r`. */
  predicate UniqueIds(r: seq<Transaction>) {
    forall i, j | 0 <= i < j < |r| :: r[i].id != r[j].id
  }

  /** `r` is in `ORDER BY date DESC` order. */
  predicate DateDescending(r: seq<Transaction>) {
    forall i, j | 0 <= i < j < |r| :: r[i].date >= r[j].date
  }

  /** `r` lists every row of `m` once, latest date first. */
  predicate ListsInOrder(r: seq<Transaction>, m: Table) {
    |r| == |m| && FromTable(r, m) && CoversTable(r, m) && UniqueIds(r) && DateDescending(r)
  }

  lemma FromTableCons(m: Table, k: Id, rest: seq<Transaction>)
    requires Keyed(m) && k in m && FromTable(rest, m - {k})
    ensures FromTable([m[k]] + rest, m)
  {
    var r := [m[k]] + rest;
    forall i | 0 <= i < |r| ensures r[i].id in m && m[r[i].id] == r[i] {
      if i > 0 { assert r[i] == rest[i - 1]; }
    }
  }

  lemma CoversTableCons(m: Table, k: Id, rest: seq<Transaction>)
    requires k in m && CoversTable(rest, m - {k})
    ensures CoversTable([m[k]] + rest, m)
  {
    var mk := m - {k};
    forall j | j in m ensures m[j] in [m[k]] + rest {
      if j != k { assert j in mk && m[j] == mk[j]; }
    }
  }

  lemma OrderCons(m: Table, k: Id, rest: seq<Transaction>)
    requires Keyed(m) && IsFirst(m, k) && FromTable(rest, m - {k})
    requires UniqueIds(rest) && DateDescending(rest)
    ensures UniqueIds([m[k]] + rest) && DateDescending([m[k]] + rest)
  {
    var r := [m[k]] + rest;
    forall i, j | 0 <= i < j < |r| ensures r[i].id != r[j].id && r[i].date >= r[j].date {
      assert r[j] == rest[j - 1];
      if i > 0 {
        assert r[i] == rest[i - 1];
      } else {
        assert rest[j - 1].id in m - {k};
      }
    }
  }

  lemma ListsInOrderCons(m: Table, k: Id, rest: seq<Transaction>)
    requires Keyed(m) && IsFirst(m, k) && ListsInOrder(rest, m - {k})
    ensures ListsInOrder([m[k]] + rest, m)
  {
    assert (m - {k}).Keys == m.Keys - {k};
    FromTableCons(m, k, rest);
    CoversTableCons(m, k, rest);
    OrderCons(m, k, rest);
  }

  /** The rows of the table, latest date first (see OrderedRowsListsTable). */
  function OrderedRows(m: Table): seq<Transaction>
    requires Keyed(m)
    decreases |m|
  {
    if m == map[] then []
    else
      var k := First(m);
      var rest := m - {k};
      assert |rest| == |m| - 1 by { assert rest.Keys == m.Keys - {k}; }
      [m[k]] + OrderedRows(rest)
  }

  /** `ORDER BY date DESC` lists every row of the table once, latest date first. */
  lemma {:induction false} OrderedRowsListsTable(m: Table)
    requires Keyed(m)
    ensures ListsInOrder(OrderedRows(m), m)
    decreases |m|
  {
    if m != map[] {
      var k := First(m);
      var rest := m - {k};
      assert |rest| == |m| - 1 by { assert rest.Keys == m.Keys - {k}; }
      OrderedRowsListsTable(rest);
      ListsInOrderCons(m, k, OrderedRows(rest));
    }
  }

  /** `SELECT * FROM transactions WHERE p ORDER BY date DESC`. */
  function Select(m: Table, p: Transaction -> bool): (r: seq<Transaction>)
    requires Keyed(m)
    ensures forall t :: t in r <==> t.id in m && m[t.id] == t && p(t)
    ensures forall i, j | 0 <= i < j < |r| :: r[i].id != r[j].id
    ensures forall i, j | 0 <= i < j < |r| :: r[i].date >= r[j].date
  {
    OrderedRowsListsTable(Where(m, p));
    OrderedRows(Where(m, p))
  }

  // ---------------------------------------------------------------------------
  // The queries of TransactionDao

  /** `SELECT * FROM transactions ORDER BY date DESC`. */
  function GetAllTransactions(m: Table): (r: seq<Transaction>)
    requires Keyed(m)
    ensures |r| == |m|
    ensures forall t :: t in r <==> t.id in m && m[t.id] == t
    ensures forall i, j | 0 <= i < j < |r| :: r[i].id != r[j].id
    ensures forall i, j | 0 <= i < j < |r| :: r[i].date >= r[j].date
  {
    OrderedRowsListsTable(m);
    OrderedRows(m)
  }

  /** `SELECT * FROM transactions WHERE id = :transactionId`: null when the id is absent. */
  function GetTransactionById(m: Table, transactionId: Id): (r: Option<Transaction>)
    requires Keyed(m)
    ensures r.None? <==> transactionId !in m
    ensures r.Some? ==> r.value.id == transactionId && m[transactionId] == r.value
  {
    if transactionId in m then Some(m[transactionId]) else None
  }

  /** `... WHERE date BETWEEN :startDate AND :endDate ORDER BY date DESC`: both bounds inclusive. */
  function GetTransactionsByDateRange(m: Table, startDate: Millis, endDate: Millis): (r: seq<Transaction>)
    requires Keyed(m)
    ensures forall t :: t in r <==> t.id in m && m[t.id] == t && startDate <= t.date <= endDate
    ensures forall i, j | 0 <= i < j < |r| :: r[i].id != r[j].id
    ensures forall i, j | 0 <= i < j < |r| :: r[i].date >= r[j].date
  {
    Select(m, (t: Transaction) => startDate <= t.date <= endDate)
  }

  /** The condition `isIncome = :isIncome`. */
  function OfType(isIncome: bool): Transaction -> bool {
    (t: Transaction) => t.isIncome == isIncome
  }

  /** `... WHERE isIncome = :isIncome ORDER BY date DESC`. */
  function GetTransactionsByType(m: Table, isIncome: bool): (r: seq<Transaction>)
    requires Keyed(m)
    ensures forall t :: t in r <==> t.id in m && m[t.id] == t && t.isIncome == isIncome
    ensures forall i, j | 0 <= i < j < |r| :: r[i].id != r[j].id
    ensures forall i, j | 0 <= i < j < |r| :: r[i].date >= r[j].date
  {
    Select(m, OfType(isIncome))
  }

  /**
   * `SELECT * FROM transactions WHERE syncedWithCloud = 0`. The query has no ORDER BY,
   * so the contract promises no order.
   */
  function GetUnsyncedTransactions(m: Table): (r: seq<Transaction>)
    requires Keyed(m)
    ensures forall t :: t in r <==> t.id in m && m[t.id] == t && !t.syncedWithCloud
    ensures forall i, j | 0 <= i < j < |r| :: r[i].id != r[j].id
  {
    Select(m, (t: Transaction) => !t.syncedWithCloud)
  }

  // ---------------------------------------------------------------------------
  // SUM(amount) ... WHERE isIncome = b

  /** The sum of `f` over a list of rows. */
  function SumBy(rows: seq<Transaction>, f: Transaction -> real): real
  {
    if rows == [] then 0.0 else f(rows[0]) + SumBy(rows[1..], f)
  }

  function Amount(t: Transaction): real { t.amount }

  /** The sum of the amounts of a list of rows. */
  function SumAmounts(rows: seq<Transaction>): real
  {
    SumBy(rows, Amount)
  }

  /** The sum of the signed amounts of a list of rows. */
  function SumSigned(rows: seq<Transaction>): real
  {
    SumBy(rows, SignedAmount)
  }

  /** What one row adds to the total of rows of type `isIncome`. */
  function Contribution(t: Transaction, isIncome: bool): real {
    if t.isIncome == isIncome then t.amount else 0.0
  }

  /** The sum of `amount` over the rows of type `isIncome` (0 for none). */
  function TypeTotal(m: Table, isIncome: bool): real
    requires Keyed(m)
  {
    SumAmounts(OrderedRows(Where(m, OfType(isIncome))))
  }

  /** `SELECT SUM(amount) FROM transactions WHERE isIncome = b`: SQL's SUM of no rows is null. */
  function SumOfType(m: Table, isIncome: bool): (r: Option<real>)
    requires Keyed(m)
    ensures r.None? <==> forall k | k in m :: m[k].isIncome != isIncome
    ensures r.Some? ==> r.value == TypeTotal(m, isIncome)
    ensures r.GetOr(0.0) == TypeTotal(m, isIncome)
  {
    var rows := GetTransactionsByType(m, isIncome);
    assert (forall k | k in m :: m[k].isIncome != isIncome) <==> rows == [] by {
      if rows != [] { assert rows[0] in rows; }
      forall k | k in m && m[k].isIncome == isIncome ensures rows != [] {
        assert m[k] in rows;
      }
    }
    if rows == [] then None else Some(SumAmounts(rows))
  }

  /** `getTotalIncome`. */
  function GetTotalIncome(m: Table): (r: Option<real>)
    requires Keyed(m)
    ensures r.None? <==> forall k | k in m :: !m[k].isIncome
    ensures r.Some? ==> r.value == TypeTotal(m, true)
  {
    SumOfType(m, true)
  }

  /** `getTotalExpense`. */
  function GetTotalExpense(m: Table): (r: Option<real>)
    requires Keyed(m)
    ensures r.None? <==> forall k | k in m :: m[k].isIncome
    ensures r.Some? ==> r.value == TypeTotal(m, false)
  {
    SumOfType(m, false)
  }

  // ---------------------------------------------------------------------------
  // The totals do not depend on the order rows are listed in

  lemma FirstOfRemoved(m: Table, k: Id)
    requires Keyed(m) && k in m && First(m) != k
    ensures First(m) in m - {k}
    ensures First(m - {k}) == First(m)
  {
    var c := First(m);
    assert IsFirst(m - {k}, c);
    FirstUnique(m - {k}, c);
  }

  lemma OrderedRowsUnfold(m: Table)
    requires Keyed(m) && m != map[]
    ensures OrderedRows(m) == [m[First(m)]] + OrderedRows(m - {First(m)})
  {
  }

  lemma SumByCons(t: Transaction, rows: seq<Transaction>, f: Transaction -> real)
    ensures SumBy([t] + rows, f) == f(t) + SumBy(rows, f)
  {
    assert ([t] + rows)[1..] == rows;
  }

  /** The sum of `f` over the listed rows is the value at any one key plus the sum over the others. */
  lemma {:induction false} OrderedRowsRemove(m: Table, k: Id, f: Transaction -> real)
    requires Keyed(m) && k in m
    ensures SumBy(OrderedRows(m), f) == f(m[k]) + SumBy(OrderedRows(m - {k}), f)
    decreases |m|
  {
    var c := First(m);
    var rest := m - {c};
    OrderedRowsUnfold(m);
    SumByCons(m[c], OrderedRows(rest), f);
    if c != k {
      assert |rest| < |m| by { assert rest.Keys == m.Keys - {c}; }
      OrderedRowsRemove(rest, k, f);
      var mk := m - {k};
      FirstOfRemoved(m, k);
      OrderedRowsUnfold(mk);
      assert mk - {c} == rest - {k};
      SumByCons(m[c], OrderedRows(rest - {k}), f);
    }
  }

  /** An empty table totals 0 for both types. */
  lemma TypeTotalEmpty(isIncome: bool)
    ensures TypeTotal(map[], isIncome) == 0.0
  {
    assert Where(map[], OfType(isIncome)) == map[];
  }

  lemma WhereRemove(m: Table, p: Transaction -> bool, k: Id)
    requires k in m
    ensures p(m[k]) ==> Where(m - {k}, p) == Where(m, p) - {k}
    ensures !p(m[k]) ==> Where(m - {k}, p) == Where(m, p)
  {
  }

  /** Deleting the row with key `k` lowers the total of its type by its amount, and only that total. */
  lemma {:induction false} TypeTotalRemove(m: Table, k: Id, isIncome: bool)
    requires Keyed(m) && k in m
    ensures TypeTotal(m, isIncome) == Contribution(m[k], isIncome) + TypeTotal(m - {k}, isIncome)
  {
    var p := OfType(isIncome);
    WhereRemove(m, p, k);
    if m[k].isIncome == isIncome {
      OrderedRowsRemove(Where(m, p), k, Amount);
    }
  }

  /**
   * Writing row `t` at key `t.id` (an insert, a replace or an update) sets each total to
   * the total without that key plus the new row's contribution.
   */
  lemma TypeTotalPut(m: Table, t: Transaction, isIncome: bool)
    requires Keyed(m)
    ensures TypeTotal(m[t.id := t], isIncome) == TypeTotal(m - {t.id}, isIncome) + Contribution(t, isIncome)
  {
    var m' := m[t.id := t];
    TypeTotalRemove(m', t.id, isIncome);
    assert m' - {t.id} == m - {t.id};
  }

  /** The balance derived from the two totals equals the signed sum over all rows. */
  lemma {:induction false} BalanceIsSignedSum(m: Table)
    requires Keyed(m)
    ensures TypeTotal(m, true) - TypeTotal(m, false) == SumSigned(GetAllTransactions(m))
    decreases |m|
  {
    if m != map[] {
      var c := First(m);
      var rest := m - {c};
      assert rest.Keys == m.Keys - {c};
      BalanceIsSignedSum(rest);
      TypeTotalRemove(m, c, true);
      TypeTotalRemove(m, c, false);
      OrderedRowsRemove(m, c, SignedAmount);
    } else {
      assert GetTransactionsByType(m, true) == [];
      assert GetTransactionsByType(m, false) == [];
    }
  }

  /** A range whose two bounds equal a row's date contains that row (BETWEEN is inclusive). */
  lemma DateRangeBoundsInclusive(m: Table, k: Id)
    requires Keyed(m) && k in m
    ensures m[k] in GetTransactionsByDateRange(m, m[k].date, m[k].date)
  {
  }

  // ---------------------------------------------------------------------------
  // The stored table

  /**
   * The Room table behind `TransactionDao`. `nextId` is one more than the largest id
   * ever stored (SQLite's AUTOINCREMENT counter).
   */
  class TransactionDao {
    var rows: Table
    var nextId: Id

    ghost predicate Valid()
      reads this
    {
      Keyed(rows) && nextId >= 1 && forall k | k in rows :: k < nextId
    }

    constructor ()
      ensures Valid() && rows == map[] && nextId == 1
    {
      rows := map[];
      nextId := 1;
    }

    /**
     * `@Insert(onConflict = REPLACE)`: an id of 0 means "not set" and receives a fresh id;
     * any other id is stored as given, replacing a row with the same id. Returns the row id.
     */
    method InsertTransaction(transaction: Transaction) returns (id: Id)
      requires Valid()
      modifies this
      ensures Valid()
      ensures transaction.id == UnassignedId ==> id == old(nextId) && id !in old(rows)
      ensures transaction.id != UnassignedId ==> id == transaction.id
      ensures rows == old(rows)[id := transaction.(id := id)]
      ensures nextId == if id < old(nextId) then old(nextId) else id + 1
    {
      if transaction.id == UnassignedId {
        id := nextId;
      } else {
        id := transaction.id;
      }
      rows := rows[id := transaction.(id := id)];
      if id >= nextId {
        nextId := id + 1;
      }
    }

    /** `@Update`: replaces the row with the same primary key; an absent key changes nothing. */
    method UpdateTransaction(transaction: Transaction)
      requires Valid()
      modifies this
      ensures Valid()
      ensures rows == if transaction.id in old(rows) then old(rows)[transaction.id := transaction] else old(rows)
      ensures nextId == old(nextId)
    {
      if transaction.id in rows {
        rows := rows[transaction.id := transaction];
      }
    }

    /** `@Delete`: removes the row with the same primary key; an absent key changes nothing. */
    method DeleteTransaction(transaction: Transaction)
      requires Valid()
      modifies this
      ensures Valid()
      ensures rows == old(rows) - {transaction.id}
      ensures nextId == old(nextId)
    {
      rows := rows - {transaction.id};
    }
  }
}
