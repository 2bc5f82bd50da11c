/**
 * One cycle of `SyncService.syncDataWithCloud`: snapshot the unsynced rows, then write
 * each one back with `syncedWithCloud = true`. The writes run here one after another; the
 * remote upload is simulated in the source and always succeeds.
 */
module SyncService {
  import opened Wrappers
  import opened LedgerEntity
  import LedgerDao
  import opened LedgerRepository

  /** The ids of a list of rows. */
  function IdsOf(rows: seq<Transaction>): (ids: set<Id>)
    ensures forall i | 0 <= i < |rows| :: rows[i].id in ids
    ensures forall k | k in ids :: exists i | 0 <= i < |rows| :: rows[i].id == k
  {
    set i | 0 <= i < |rows| :: rows[i].id
  }

  /** The table after the rows with ids in `ids` have been written back as synced. */
  function MarkSynced(m: LedgerDao.Table, ids: set<Id>): (r: LedgerDao.Table)
    ensures r.Keys == m.Keys
    ensures forall k | k in m :: r[k].syncedWithCloud == (m[k].syncedWithCloud || k in ids)
    ensures forall k | k in m :: r[k] == m[k].(syncedWithCloud := r[k].syncedWithCloud)
    ensures LedgerDao.Keyed(m) ==> LedgerDao.Keyed(r)
  {
    map k | k in m :: if k in ids then m[k].(syncedWithCloud := true) else m[k]
  }

  /** A cycle never turns the flag from true to false and never adds or removes rows. */
  lemma MarkSyncedIsMonotone(m: LedgerDao.Table, ids: set<Id>, k: Id)
    requires k in m && m[k].syncedWithCloud
    ensures k in MarkSynced(m, ids) && MarkSynced(m, ids)[k] == m[k]
  {
  }

  /**
   * After marking, the unsynced rows are exactly the rows that were unsynced and not
   * marked: what an interrupted cycle leaves for the next one.
   */
  lemma UnsyncedAfterMark(m: LedgerDao.Table, ids: set<Id>)
    requires LedgerDao.Keyed(m)
    ensures forall t :: t in LedgerDao.GetUnsyncedTransactions(MarkSynced(m, ids)) <==>
      t in LedgerDao.GetUnsyncedTransactions(m) && t.id !in ids
  {
  }

  /** A complete cycle leaves every row synced, so the next snapshot is empty. */
  lemma FullCycleSyncsAll(m: LedgerDao.Table)
    requires LedgerDao.Keyed(m)
    ensures var after := MarkSynced(m, IdsOf(LedgerDao.GetUnsyncedTransactions(m)));
      forall k | k in after :: after[k].syncedWithCloud
  {
    var snapshot := LedgerDao.GetUnsyncedTransactions(m);
    forall k | k in m && !m[k].syncedWithCloud ensures k in IdsOf(snapshot) {
      assert m[k] in snapshot;
    }
  }

  /** Writing back one more snapshot row extends the marked set by its id. */
  lemma MarkSyncedStep(m: LedgerDao.Table, ids: set<Id>, k: Id)
    requires k in m
    ensures MarkSynced(m, ids)[k := m[k].(syncedWithCloud := true)] == MarkSynced(m, ids + {k})
  {
  }

  lemma IdsOfSnoc(rows: seq<Transaction>, i: nat)
    requires i < |rows|
    ensures IdsOf(rows[..i + 1]) == IdsOf(rows[..i]) + {rows[i].id}
  {
    assert rows[..i + 1] == rows[..i] + [rows[i]];
  }

  /** The loop step of a cycle: writing back snapshot row `i` marks one more snapshot id. */
  lemma SyncStep(before: LedgerDao.Table, snapshot: seq<Transaction>, i: nat)
    requires LedgerDao.Keyed(before) && snapshot == LedgerDao.GetUnsyncedTransactions(before)
    requires i < |snapshot|
    ensures snapshot[i].id in MarkSynced(before, IdsOf(snapshot[..i]))
    ensures MarkSynced(before, IdsOf(snapshot[..i]))[snapshot[i].id := snapshot[i].(syncedWithCloud := true)]
      == MarkSynced(before, IdsOf(snapshot[..i + 1]))
  {
    var t := snapshot[i];
    assert t in snapshot;
    MarkSyncedStep(before, IdsOf(snapshot[..i]), t.id);
    IdsOfSnoc(snapshot, i);
  }

  class SyncService {
    const repository: TransactionRepository

    constructor (repository: TransactionRepository)
      ensures this.repository == repository
    {
      this.repository := repository;
    }

    /**
     * The write-back loop of a cycle: rows `0 .. written` of the snapshot are written back
     * with the flag set, one update each.
     */
    method WriteBack(ghost before: LedgerDao.Table, snapshot: seq<Transaction>, written: nat)
      requires repository.dao.Valid() && repository.dao.rows == before
      requires snapshot == LedgerDao.GetUnsyncedTransactions(before)
      requires written <= |snapshot|
      modifies repository.dao
      ensures repository.dao.Valid()
      ensures repository.dao.rows == MarkSynced(before, IdsOf(snapshot[..written]))
      ensures repository.dao.nextId == old(repository.dao.nextId)
    {
      assert IdsOf(snapshot[..0]) == {};
      assert before == MarkSynced(before, {});
      var i := 0;
      while i < written
        invariant 0 <= i <= written
        invariant repository.dao.Valid()
        invariant repository.dao.nextId == old(repository.dao.nextId)
        invariant repository.dao.rows == MarkSynced(before, IdsOf(snapshot[..i]))
      {
        SyncStep(before, snapshot, i);
        ghost var next := MarkSynced(before, IdsOf(snapshot[..i + 1]));
        repository.UpdateTransaction(snapshot[i].(syncedWithCloud := true));
        assert repository.dao.rows == next;
        i := i + 1;
      }
    }

    /**
     * One cycle. `interruptAfter` = Some(n) models an exception raised once n writes have
     * been issued; the cycle's handler catches it and the cycle ends there.
     * Returns the snapshot and the number of writes issued.
     */
    method SyncDataWithCloud(interruptAfter: Option<nat>) returns (snapshot: seq<Transaction>, written: nat)
      requires repository.dao.Valid()
      modifies repository.dao
      ensures repository.dao.Valid()
      ensures snapshot == LedgerDao.GetUnsyncedTransactions(old(repository.dao.rows))
      ensures written == match interruptAfter
        case None => |snapshot|
        case Some(n) => if n < |snapshot| then n else |snapshot|
      ensures repository.dao.rows == MarkSynced(old(repository.dao.rows), IdsOf(snapshot[..written]))
      ensures repository.dao.nextId == old(repository.dao.nextId)
    {
      ghost var before := repository.dao.rows;
      snapshot := repository.GetUnsyncedTransactions();
      written := match interruptAfter
        case None => |snapshot|
        case Some(n) => if n < |snapshot| then n else |snapshot|;
      if |snapshot| > 0 {
        WriteBack(before, snapshot, written);
      } else {
        assert IdsOf(snapshot[..written]) == {};
        assert before == MarkSynced(before, {});
      }
    }
  }
}
