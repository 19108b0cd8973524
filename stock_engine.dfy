/**
 * The stock deduction engine (`service/impl/StockServiceImpl.java`).
 *
 * Each call passes an idempotency gate, takes a per-SKU lock, reads the row
 * through a cache, applies a version-guarded conditional update and then
 * appends an audit-log entry, sets the idempotency mark and drops the cache
 * entry. The whole engine state is also given as a value, `Ledger`, and each
 * operation as a function on it; the class methods are proved to agree with
 * those functions, and the lemmas about sequences of calls are stated on them.
 *
 * The lock is an input: `lockAcquired` is what `tryLock` answered. Releasing it
 * changes nothing the model tracks.
 */
module StockEngine {
  import opened Wrappers
  import opened Idempotency
  import opened StockLedger

  /** `operationType` of an audit-log entry. */
  datatype LogOperation = Deduct | Compensation

  /** `status` of an audit-log entry. */
  datatype LogStatus = Success | Failed

  /** The error message of a FAILED entry. */
  datatype FailureReason = RowMissing | Insufficient(available: int) | VersionConflict

  /** One audit-log row (`StockOperationLog`). */
  datatype LogEntry = LogEntry(
    businessId: string,
    skuId: int,
    operation: LogOperation,
    quantity: int,
    stockBefore: int,
    stockAfter: int,
    status: LogStatus,
    error: Option<FailureReason>,
    compensationReason: Option<string>,
    traceId: string)

  /**
   * Everything the engine reads or writes: the stock table, the idempotency
   * store (and whether one is configured), the stock cache keyed by the id
   * passed to `getStockWithCache` (and whether a cache is configured) and the
   * append-only audit log.
   */
  datatype Ledger = Ledger(
    rows: map<int, Stock>,
    idemOn: bool,
    marks: map<string, int>,
    cacheOn: bool,
    cache: map<int, Stock>,
    log: seq<LogEntry>)

  /** The boolean a call returns and the state it leaves. */
  datatype Step = Step(ok: bool, after: Ledger)

  /** The row a cached read returns and the state it leaves. */
  datatype Read = Read(stock: Option<Stock>, after: Ledger)

  /** Lock keys; a deduction and a compensation of one SKU lock different keys. */
  const DeductLockPrefix: string := "stock:deduct:"
  const CompensateLockPrefix: string := "stock:compensate:"

  /** Decimal text of an integer, as Java's string concatenation prints a `Long`. */
  function Decimal(n: int): string
    decreases if n < 0 then 1 - n else n
  {
    if n < 0 then "-" + Decimal(-n)
    else if n < 10 then [(48 + n) as char]
    else Decimal(n / 10) + [(48 + n % 10) as char]
  }

  function DeductLockKey(skuId: int): string
  {
    DeductLockPrefix + Decimal(skuId)
  }

  function CompensateLockKey(skuId: int): string
  {
    CompensateLockPrefix + Decimal(skuId)
  }

  /**
   * A deduction and a compensation never contend for one lock, so only the
   * version guard orders them.
   */
  lemma DeductAndCompensateLocksDiffer(a: int, b: int)
    ensures DeductLockKey(a) != CompensateLockKey(b)
  {
    assert DeductLockKey(a)[6] == 'd';
    assert CompensateLockKey(b)[6] == 'c';
  }

  /** With a cache configured, every cached row equals the stored row with the same key. */
  predicate CacheCoherent(s: Ledger)
  {
    s.cacheOn ==> forall k :: k in s.cache ==> k in s.rows && s.cache[k] == s.rows[k]
  }

  /** `getStockWithCache`: a cached row if there is one, else the stored row, which is then cached. */
  function ReadStock(s: Ledger, skuId: int): (r: Read)
    ensures r.after == s.(cache := r.after.cache)
    ensures CacheCoherent(s) ==> CacheCoherent(r.after)
    ensures CacheCoherent(s) ==> r.stock == if skuId in s.rows then Some(s.rows[skuId]) else None
  {
    if s.cacheOn && skuId in s.cache then
      Read(Some(s.cache[skuId]), s)
    else if skuId in s.rows then
      Read(Some(s.rows[skuId]), if s.cacheOn then s.(cache := s.cache[skuId := s.rows[skuId]]) else s)
    else
      Read(None, s)
  }

  /** `refreshStockCache`: drops the cache entry. */
  function Invalidate(s: Ledger, skuId: int): (t: Ledger)
    ensures t == s.(cache := t.cache) && t.cache.Keys <= s.cache.Keys
    ensures s.cacheOn ==> skuId !in t.cache
    ensures forall k :: k in t.cache ==> t.cache[k] == s.cache[k]
  {
    if s.cacheOn then s.(cache := s.cache - {skuId}) else s
  }

  /** `recordOperationLog`: appends one entry. */
  function Record(s: Ledger, e: LogEntry): Ledger
  {
    s.(log := s.log + [e])
  }

  /** `deductStock` on a state. */
  function DeductSpec(s: Ledger, skuId: int, quantity: int, businessId: string, traceId: string,
                      lockAcquired: bool, now: int): Step
  {
    if Marked(s.idemOn, s.marks, businessId, StockDeduct) then Step(true, s)
    else if !lockAcquired then Step(false, s)
    else
      var read := ReadStock(s, skuId);
      var s1 := read.after;
      match read.stock
      case None =>
        Step(false, Record(s1, LogEntry(businessId, skuId, Deduct, quantity, 0, 0, Failed,
                                        Some(RowMissing), None, traceId)))
      case Some(stock) =>
        var before := stock.availableStock;
        if before < quantity then
          Step(false, Record(s1, LogEntry(businessId, skuId, Deduct, quantity, before, before, Failed,
                                          Some(Insufficient(before)), None, traceId)))
        else
          var u := DeductUpdate(s1.rows, skuId, quantity, stock.version);
          if u.rowsAffected == 0 then
            Step(false, Record(s1, LogEntry(businessId, skuId, Deduct, quantity, before, before, Failed,
                                            Some(VersionConflict), None, traceId)))
          else
            var s2 := Record(s1.(rows := u.rows), LogEntry(businessId, skuId, Deduct, quantity, before,
                                                          before - quantity, Success, None, None, traceId));
            var m := Mark(s2.idemOn, s2.marks, businessId, StockDeduct, now);
            Step(true, Invalidate(s2.(marks := m.marks), skuId))
  }

  /** `compensateStock` on a state. */
  function CompensateSpec(s: Ledger, skuId: int, quantity: int, businessId: string, reason: string,
                          traceId: string, lockAcquired: bool, now: int): Step
  {
    if Marked(s.idemOn, s.marks, businessId, StockCompensate) then Step(true, s)
    else if !lockAcquired then Step(false, s)
    else
      var read := ReadStock(s, skuId);
      var s1 := read.after;
      match read.stock
      case None => Step(false, s1)
      case Some(stock) =>
        var before := stock.availableStock;
        var u := CompensateUpdate(s1.rows, skuId, quantity, stock.version);
        if u.rowsAffected == 0 then
          Step(false, Record(s1, LogEntry(businessId, skuId, Compensation, quantity, before, before, Failed,
                                          Some(VersionConflict), Some(reason), traceId)))
        else
          var s2 := Record(s1.(rows := u.rows), LogEntry(businessId, skuId, Compensation, quantity, before,
                                                        before + quantity, Success, None, Some(reason), traceId));
          var m := Mark(s2.idemOn, s2.marks, businessId, StockCompensate, now);
          Step(true, Invalidate(s2.(marks := m.marks), skuId))
  }

  /** The engine's service object. */
  class StockService {
    const table: StockTable
    const idem: IdempotentUtil
    /** Whether a cache store is configured. */
    const cacheOn: bool
    var cache: map<int, Stock>
    /** The audit-log table. */
    var log: seq<LogEntry>

    constructor (table: StockTable, idem: IdempotentUtil, cacheOn: bool)
      ensures this.table == table && this.idem == idem && this.cacheOn == cacheOn
      ensures cache == map[] && log == []
    {
      this.table := table;
      this.idem := idem;
      this.cacheOn := cacheOn;
      cache := map[];
      log := [];
    }

    /** The engine state as a value. */
    function Current(): Ledger
      reads this, table, idem
    {
      Ledger(table.rows, idem.configured, idem.marks, cacheOn, cache, log)
    }

    method GetStockWithCache(skuId: int) returns (stock: Option<Stock>)
      modifies this
      ensures Read(stock, Current()) == ReadStock(old(Current()), skuId)
    {
      if cacheOn && skuId in cache {
        return Some(cache[skuId]);
      }
      stock := table.SelectById(skuId);
      if stock.Some? && cacheOn {
        cache := cache[skuId := stock.value];
      }
    }

    method RefreshStockCache(skuId: int)
      modifies this
      ensures Current() == Invalidate(old(Current()), skuId)
    {
      if cacheOn {
        cache := cache - {skuId};
      }
    }

    method RecordOperationLog(skuId: int, businessId: string, quantity: int, stockBefore: int, stockAfter: int,
                              operation: LogOperation, status: LogStatus, error: Option<FailureReason>,
                              compensationReason: Option<string>, traceId: string)
      modifies this
      ensures Current() == Record(old(Current()), LogEntry(businessId, skuId, operation, quantity, stockBefore,
                                                           stockAfter, status, error, compensationReason, traceId))
    {
      log := log + [LogEntry(businessId, skuId, operation, quantity, stockBefore, stockAfter, status, error,
                             compensationReason, traceId)];
    }

    method DeductStock(skuId: int, quantity: int, businessId: string, traceId: string,
                       lockAcquired: bool, now: int) returns (ok: bool)
      modifies this, table, idem
      ensures Step(ok, Current()) == DeductSpec(old(Current()), skuId, quantity, businessId, traceId, lockAcquired, now)
    {
      var replay := idem.IsOperated(businessId, StockDeduct);
      if replay {
        return true;
      }
      // The lock on DeductLockKey(skuId) is released on every path below.
      if !lockAcquired {
        return false;
      }
      var stock := GetStockWithCache(skuId);
      if stock.None? {
        RecordOperationLog(skuId, businessId, quantity, 0, 0, Deduct, Failed, Some(RowMissing), None, traceId);
        return false;
      }
      var before := stock.value.availableStock;
      if before < quantity {
        RecordOperationLog(skuId, businessId, quantity, before, before, Deduct, Failed,
                           Some(Insufficient(before)), None, traceId);
        return false;
      }
      var updatedRows := table.DeductStockWithOptimisticLock(skuId, quantity, stock.value.version);
      if updatedRows == 0 {
        RecordOperationLog(skuId, businessId, quantity, before, before, Deduct, Failed,
                           Some(VersionConflict), None, traceId);
        return false;
      }
      RecordOperationLog(skuId, businessId, quantity, before, before - quantity, Deduct, Success, None, None, traceId);
      var _ := idem.MarkAsOperated(businessId, StockDeduct, now);
      RefreshStockCache(skuId);
      ok := true;
    }

    method CompensateStock(skuId: int, quantity: int, businessId: string, reason: string, traceId: string,
                           lockAcquired: bool, now: int) returns (ok: bool)
      modifies this, table, idem
      ensures Step(ok, Current()) ==
              CompensateSpec(old(Current()), skuId, quantity, businessId, reason, traceId, lockAcquired, now)
    {
      var replay := idem.IsOperated(businessId, StockCompensate);
      if replay {
        return true;
      }
      // The lock on CompensateLockKey(skuId) is released on every path below.
      if !lockAcquired {
        return false;
      }
      var stock := GetStockWithCache(skuId);
      if stock.None? {
        return false;
      }
      var before := stock.value.availableStock;
      var updatedRows := table.CompensateStockWithOptimisticLock(skuId, quantity, stock.value.version);
      if updatedRows == 0 {
        RecordOperationLog(skuId, businessId, quantity, before, before, Compensation, Failed,
                           Some(VersionConflict), Some(reason), traceId);
        return false;
      }
      RecordOperationLog(skuId, businessId, quantity, before, before + quantity, Compensation, Success,
                         None, Some(reason), traceId);
      var _ := idem.MarkAsOperated(businessId, StockCompensate, now);
      RefreshStockCache(skuId);
      ok := true;
    }

    /**
     * What a rolled-back enclosing transaction does to the engine: the stock
     * table and the audit log return to a snapshot, while the cache and the
     * idempotency marks (kept outside the database) stay as they are.
     */
    method RollbackTo(rows: map<int, Stock>, savedLog: seq<LogEntry>)
      modifies this, table
      ensures Current() == old(Current()).(rows := rows, log := savedLog)
    {
      table.rows := rows;
      log := savedLog;
    }
  }
}
