/**
 * What the stock engine guarantees, one call at a time and over sequences of
 * calls run one after another.
 */
module StockProperties {
  import opened Wrappers
  import opened Idempotency
  import opened StockLedger
  import opened StockEngine

  // ----- One call -------------------------------------------------------------

  /** A deduction already marked for its business id answers true and changes nothing. */
  lemma DeductReplayIsNoop(s: Ledger, skuId: int, quantity: int, businessId: string, traceId: string,
                           lockAcquired: bool, now: int)
    requires Marked(s.idemOn, s.marks, businessId, StockDeduct)
    ensures DeductSpec(s, skuId, quantity, businessId, traceId, lockAcquired, now) == Step(true, s)
  {
  }

  /** Without the lock a fresh deduction answers false and changes nothing. */
  lemma DeductWithoutLock(s: Ledger, skuId: int, quantity: int, businessId: string, traceId: string, now: int)
    requires !Marked(s.idemOn, s.marks, businessId, StockDeduct)
    ensures DeductSpec(s, skuId, quantity, businessId, traceId, false, now) == Step(false, s)
  {
  }

  /** A missing row answers false and logs a FAILED entry with both snapshots 0. */
  lemma DeductMissingRow(s: Ledger, skuId: int, quantity: int, businessId: string, traceId: string, now: int)
    requires !Marked(s.idemOn, s.marks, businessId, StockDeduct)
    requires CacheCoherent(s) && skuId !in s.rows
    ensures DeductSpec(s, skuId, quantity, businessId, traceId, true, now)
            == Step(false, Record(s, LogEntry(businessId, skuId, Deduct, quantity, 0, 0, Failed,
                                              Some(RowMissing), None, traceId)))
  {
  }

  /**
   * Too little stock answers false, leaves the table and the marks alone and
   * logs FAILED with both snapshots equal to the available stock.
   */
  lemma DeductInsufficient(s: Ledger, skuId: int, quantity: int, businessId: string, traceId: string, now: int)
    requires !Marked(s.idemOn, s.marks, businessId, StockDeduct)
    requires CacheCoherent(s) && skuId in s.rows && s.rows[skuId].availableStock < quantity
    ensures var r := DeductSpec(s, skuId, quantity, businessId, traceId, true, now);
            var a := s.rows[skuId].availableStock;
            && !r.ok && r.after.rows == s.rows && r.after.marks == s.marks
            && r.after.log == s.log + [LogEntry(businessId, skuId, Deduct, quantity, a, a, Failed,
                                                Some(Insufficient(a)), None, traceId)]
  {
  }

  /**
   * Every call that answers false leaves the stock table and the marks as they
   * were and appends at most one FAILED entry.
   */
  lemma DeductFailureChangesNoStock(s: Ledger, skuId: int, quantity: int, businessId: string, traceId: string,
                                    lockAcquired: bool, now: int)
    ensures var r := DeductSpec(s, skuId, quantity, businessId, traceId, lockAcquired, now);
            !r.ok ==> && r.after.rows == s.rows && r.after.marks == s.marks
                      && (r.after.log == s.log
                          || (|r.after.log| == |s.log| + 1 && r.after.log[..|s.log|] == s.log
                              && r.after.log[|s.log|].status == Failed))
  {
  }

  /**
   * A deduction that is applied lowers the row's available stock by exactly
   * `quantity`, bumps its version, touches no other field or row, logs SUCCESS
   * with stockAfter = stockBefore - quantity, then sets the mark and drops the
   * cache entry.
   */
  lemma DeductApplied(s: Ledger, skuId: int, quantity: int, businessId: string, traceId: string,
                      lockAcquired: bool, now: int)
    requires !Marked(s.idemOn, s.marks, businessId, StockDeduct)
    ensures var r := DeductSpec(s, skuId, quantity, businessId, traceId, lockAcquired, now);
            r.ok ==>
              && lockAcquired && skuId in s.rows
              && r.after.rows == s.rows[skuId := s.rows[skuId].(availableStock := s.rows[skuId].availableStock - quantity,
                                                              version := s.rows[skuId].version + 1)]
              && r.after.rows[skuId].availableStock >= 0
              && |r.after.log| == |s.log| + 1 && r.after.log[..|s.log|] == s.log
              && (var e := r.after.log[|s.log|];
                  e.status == Success && e.operation == Deduct && e.businessId == businessId
                  && e.skuId == skuId && e.quantity == quantity && e.stockAfter == e.stockBefore - quantity)
              && (s.idemOn ==> r.after.marks == s.marks[BuildKey(businessId, StockDeduct) := now])
              && (!s.idemOn ==> r.after.marks == s.marks)
              && (s.cacheOn ==> skuId !in r.after.cache)
  {
  }

  /** With a coherent cache the snapshot logged on success is the row's true stock before the call. */
  lemma DeductLogsTrueSnapshot(s: Ledger, skuId: int, quantity: int, businessId: string, traceId: string,
                               lockAcquired: bool, now: int)
    requires CacheCoherent(s) && !Marked(s.idemOn, s.marks, businessId, StockDeduct)
    ensures var r := DeductSpec(s, skuId, quantity, businessId, traceId, lockAcquired, now);
            r.ok ==> r.after.log[|s.log|].stockBefore == s.rows[skuId].availableStock
  {
  }

  /** A compensation already marked for its business id answers true and changes nothing. */
  lemma CompensateReplayIsNoop(s: Ledger, skuId: int, quantity: int, businessId: string, reason: string,
                               traceId: string, lockAcquired: bool, now: int)
    requires Marked(s.idemOn, s.marks, businessId, StockCompensate)
    ensures CompensateSpec(s, skuId, quantity, businessId, reason, traceId, lockAcquired, now) == Step(true, s)
  {
  }

  /** Unlike a deduction, a compensation of a missing row logs nothing. */
  lemma CompensateMissingRow(s: Ledger, skuId: int, quantity: int, businessId: string, reason: string,
                             traceId: string, now: int)
    requires !Marked(s.idemOn, s.marks, businessId, StockCompensate)
    requires CacheCoherent(s) && skuId !in s.rows
    ensures CompensateSpec(s, skuId, quantity, businessId, reason, traceId, true, now) == Step(false, s)
  {
  }

  /**
   * A compensation that is applied raises available stock by exactly
   * `quantity` with no upper bound, bumps the version, touches no other field
   * or row, logs SUCCESS with the reason, then sets the compensation mark and
   * drops the cache entry.
   */
  lemma CompensateApplied(s: Ledger, skuId: int, quantity: int, businessId: string, reason: string,
                          traceId: string, lockAcquired: bool, now: int)
    requires !Marked(s.idemOn, s.marks, businessId, StockCompensate)
    ensures var r := CompensateSpec(s, skuId, quantity, businessId, reason, traceId, lockAcquired, now);
            r.ok ==>
              && lockAcquired && skuId in s.rows
              && r.after.rows == s.rows[skuId := s.rows[skuId].(availableStock := s.rows[skuId].availableStock + quantity,
                                                              version := s.rows[skuId].version + 1)]
              && |r.after.log| == |s.log| + 1 && r.after.log[..|s.log|] == s.log
              && (var e := r.after.log[|s.log|];
                  e.status == Success && e.operation == Compensation && e.businessId == businessId
                  && e.skuId == skuId && e.quantity == quantity
                  && e.compensationReason == Some(reason) && e.stockAfter == e.stockBefore + quantity)
              && (s.idemOn ==> r.after.marks == s.marks[BuildKey(businessId, StockCompensate) := now])
              && (!s.idemOn ==> r.after.marks == s.marks)
              && (s.cacheOn ==> skuId !in r.after.cache)
  {
  }

  /** Every compensation that answers false leaves the table and the marks as they were. */
  lemma CompensateFailureChangesNoStock(s: Ledger, skuId: int, quantity: int, businessId: string, reason: string,
                                        traceId: string, lockAcquired: bool, now: int)
    ensures var r := CompensateSpec(s, skuId, quantity, businessId, reason, traceId, lockAcquired, now);
            !r.ok ==> r.after.rows == s.rows && r.after.marks == s.marks
  {
  }

  // ----- The cache ------------------------------------------------------------

  /** Run one after another, deductions keep the cache coherent with the table. */
  lemma DeductKeepsCacheCoherent(s: Ledger, skuId: int, quantity: int, businessId: string, traceId: string,
                                 lockAcquired: bool, now: int)
    requires CacheCoherent(s)
    ensures CacheCoherent(DeductSpec(s, skuId, quantity, businessId, traceId, lockAcquired, now).after)
  {
  }

  /** Run one after another, compensations keep the cache coherent with the table. */
  lemma CompensateKeepsCacheCoherent(s: Ledger, skuId: int, quantity: int, businessId: string, reason: string,
                                     traceId: string, lockAcquired: bool, now: int)
    requires CacheCoherent(s)
    ensures CacheCoherent(CompensateSpec(s, skuId, quantity, businessId, reason, traceId, lockAcquired, now).after)
  {
  }

  /**
   * With a coherent cache the version guard never rejects: a fresh, locked
   * deduction of an existing row with enough stock is applied.
   */
  lemma CoherentDeductSucceeds(s: Ledger, skuId: int, quantity: int, businessId: string, traceId: string, now: int)
    requires CacheCoherent(s) && !Marked(s.idemOn, s.marks, businessId, StockDeduct)
    requires skuId in s.rows && s.rows[skuId].availableStock >= quantity
    ensures DeductSpec(s, skuId, quantity, businessId, traceId, true, now).ok
  {
  }

  /**
   * With a coherent cache a fresh, locked compensation of an existing row is
   * always applied: its guard has no bound to fail.
   */
  lemma CoherentCompensateSucceeds(s: Ledger, skuId: int, quantity: int, businessId: string, reason: string,
                                   traceId: string, now: int)
    requires CacheCoherent(s) && !Marked(s.idemOn, s.marks, businessId, StockCompensate)
    requires skuId in s.rows
    ensures CompensateSpec(s, skuId, quantity, businessId, reason, traceId, true, now).ok
  {
  }

  /**
   * A stale cached row (older version than the table's) makes the deduction
   * answer false with a version conflict; the failure path does not drop the
   * stale entry, so the identical retry fails again.
   */
  lemma StaleCacheBlocksDeduct()
    ensures var row := Stock(1, 1001, 100, 50, 0, 2);
            var stale := row.(availableStock := 60, version := 1);
            var s := Ledger(map[1 := row], true, map[], true, map[1 := stale], []);
            var r1 := DeductSpec(s, 1, 10, "A", "t", true, 0);
            var r2 := DeductSpec(r1.after, 1, 10, "A", "t", true, 1);
            && !r1.ok && r1.after.rows == s.rows && r1.after.cache == s.cache
            && r1.after.log[0].error == Some(VersionConflict)
            && !r2.ok && r2.after.rows == s.rows
  {
    var row := Stock(1, 1001, 100, 50, 0, 2);
    var stale := row.(availableStock := 60, version := 1);
    var s := Ledger(map[1 := row], true, map[], true, map[1 := stale], []);
    assert !Marked(true, map[], "A", StockDeduct);
    var r1 := DeductSpec(s, 1, 10, "A", "t", true, 0);
    assert !Marked(true, r1.after.marks, "A", StockDeduct);
  }

  // ----- Two calls ------------------------------------------------------------

  /** With a store, repeating an applied deduction answers true and changes nothing. */
  lemma DeductTwiceAppliesOnce(s: Ledger, skuId: int, quantity: int, businessId: string, traceId: string,
                               lock1: bool, lock2: bool, t1: int, t2: int)
    requires s.idemOn
    ensures var r1 := DeductSpec(s, skuId, quantity, businessId, traceId, lock1, t1);
            r1.ok ==> DeductSpec(r1.after, skuId, quantity, businessId, traceId, lock2, t2) == Step(true, r1.after)
  {
  }

  /** Without a store nothing is ever marked, so the same business id is deducted twice. */
  lemma NoStoreDeductsTwice(s: Ledger, skuId: int, quantity: int, businessId: string, traceId: string, t1: int, t2: int)
    requires !s.idemOn && CacheCoherent(s)
    requires skuId in s.rows && quantity >= 0 && s.rows[skuId].availableStock >= 2 * quantity
    ensures var r1 := DeductSpec(s, skuId, quantity, businessId, traceId, true, t1);
            var r2 := DeductSpec(r1.after, skuId, quantity, businessId, traceId, true, t2);
            r1.ok && r2.ok && r2.after.rows[skuId].availableStock == s.rows[skuId].availableStock - 2 * quantity
  {
    var r1 := DeductSpec(s, skuId, quantity, businessId, traceId, true, t1);
    DeductKeepsCacheCoherent(s, skuId, quantity, businessId, traceId, true, t1);
    CoherentDeductSucceeds(r1.after, skuId, quantity, businessId, traceId, t2);
  }

  /**
   * A deduction followed by a compensation of the same quantity under another
   * business id restores the row's available stock.
   */
  lemma DeductThenCompensateRestores(s: Ledger, skuId: int, quantity: int, b1: string, b2: string, reason: string,
                                     traceId: string, t1: int, t2: int)
    requires CacheCoherent(s) && skuId in s.rows && s.rows[skuId].availableStock >= quantity
    requires !Marked(s.idemOn, s.marks, b1, StockDeduct) && !Marked(s.idemOn, s.marks, b2, StockCompensate)
    ensures var r1 := DeductSpec(s, skuId, quantity, b1, traceId, true, t1);
            var r2 := CompensateSpec(r1.after, skuId, quantity, b2, reason, traceId, true, t2);
            && r1.ok && r2.ok
            && r2.after.rows[skuId].availableStock == s.rows[skuId].availableStock
            && r2.after.rows[skuId].version == s.rows[skuId].version + 2
  {
    var r1 := DeductSpec(s, skuId, quantity, b1, traceId, true, t1);
    CoherentDeductSucceeds(s, skuId, quantity, b1, traceId, t1);
    DeductKeepsCacheCoherent(s, skuId, quantity, b1, traceId, true, t1);
    DeductAndCompensateKeysDiffer(b1, b2);
    assert r1.after.marks.Keys <= s.marks.Keys + {BuildKey(b1, StockDeduct)};
    assert !Marked(r1.after.idemOn, r1.after.marks, b2, StockCompensate);
  }

  // ----- Sequences of calls ---------------------------------------------------

  /** One engine call. */
  datatype Call =
    | DeductCall(skuId: int, quantity: int, businessId: string, traceId: string, lockAcquired: bool, now: int)
    | CompensateCall(skuId: int, quantity: int, businessId: string, reason: string, traceId: string,
                     lockAcquired: bool, now: int)

  function Apply(s: Ledger, c: Call): Step
  {
    match c
    case DeductCall(sku, q, b, t, l, n) => DeductSpec(s, sku, q, b, t, l, n)
    case CompensateCall(sku, q, b, reason, t, l, n) => CompensateSpec(s, sku, q, b, reason, t, l, n)
  }

  /** The state after running `calls` in order from `s`. */
  function Run(s: Ledger, calls: seq<Call>): Ledger
    decreases |calls|
  {
    if calls == [] then s else Run(Apply(s, calls[0]).after, calls[1..])
  }

  /** The change an audit entry records for row `id`: applied entries only. */
  function Delta(e: LogEntry, id: int): int
  {
    if e.status == Success && e.skuId == id then
      (if e.operation == Deduct then -e.quantity else e.quantity)
    else 0
  }

  /** The net change that a stretch of the audit log records for row `id`. */
  function Net(entries: seq<LogEntry>, id: int): int
    decreases |entries|
  {
    if entries == [] then 0 else Net(entries[..|entries| - 1], id) + Delta(entries[|entries| - 1], id)
  }

  lemma {:induction false} NetAppend(a: seq<LogEntry>, b: seq<LogEntry>, id: int)
    ensures Net(a + b, id) == Net(a, id) + Net(b, id)
    decreases |b|
  {
    if b != [] {
      var b' := b[..|b| - 1];
      assert (a + b)[..|a + b| - 1] == a + b';
      assert (a + b)[|a + b| - 1] == b[|b| - 1];
      assert Net(b, id) == Net(b', id) + Delta(b[|b| - 1], id);
      NetAppend(a, b', id);
    } else {
      assert a + b == a;
    }
  }

  /** The change one call's audit entry records for row `id`, if the call appended one. */
  function NewDelta(s: Ledger, t: Ledger, id: int): int
  {
    if |t.log| == |s.log| + 1 then Delta(t.log[|s.log|], id) else 0
  }

  /** The operation a call performs and the mark type it sets. */
  function OpOf(c: Call): LogOperation
  {
    if c.DeductCall? then Deduct else Compensation
  }

  /**
   * What one call does to the state, in the terms the sequence lemmas need:
   * the table keeps its keys, the log grows by at most one entry, each row
   * moves by exactly what that entry records, marks are only added, and an
   * applied entry belongs to this call and found no mark beforehand.
   */
  predicate StepFacts(s: Ledger, c: Call, t: Ledger)
  {
    && t.rows.Keys == s.rows.Keys
    && t.idemOn == s.idemOn && t.cacheOn == s.cacheOn && s.marks.Keys <= t.marks.Keys
    && |s.log| <= |t.log| <= |s.log| + 1 && t.log[..|s.log|] == s.log
    && (forall id :: id in s.rows ==>
          t.rows[id].availableStock == s.rows[id].availableStock + NewDelta(s, t, id))
    && (|t.log| == |s.log| + 1 && t.log[|s.log|].status == Success ==>
          && t.log[|s.log|].operation == OpOf(c)
          && t.log[|s.log|].businessId == c.businessId
          && t.log[|s.log|].quantity == c.quantity
          && !Marked(s.idemOn, s.marks, c.businessId, MarkType(OpOf(c)))
          && (s.idemOn ==> BuildKey(c.businessId, MarkType(OpOf(c))) in t.marks))
  }

  lemma DeductStepFacts(s: Ledger, c: Call)
    requires c.DeductCall?
    ensures StepFacts(s, c, Apply(s, c).after)
  {
    var t := Apply(s, c).after;
    if Marked(s.idemOn, s.marks, c.businessId, StockDeduct) || !c.lockAcquired {
      assert t == s;
    } else {
      var read := ReadStock(s, c.skuId);
      var s1 := read.after;
      if read.stock.None? {
        assert t.rows == s.rows && t.marks == s.marks;
      } else {
        var stock := read.stock.value;
        var u := DeductUpdate(s1.rows, c.skuId, c.quantity, stock.version);
        if stock.availableStock < c.quantity || u.rowsAffected == 0 {
          assert t.rows == s.rows && t.marks == s.marks && t.log[|s.log|].status == Failed;
        } else {
          assert t.rows == u.rows && t.log == s.log + [t.log[|s.log|]];
          assert t.log[|s.log|].skuId == c.skuId;
        }
      }
    }
  }

  lemma CompensateStepFacts(s: Ledger, c: Call)
    requires c.CompensateCall?
    ensures StepFacts(s, c, Apply(s, c).after)
  {
    var t := Apply(s, c).after;
    if Marked(s.idemOn, s.marks, c.businessId, StockCompensate) || !c.lockAcquired {
      assert t == s;
    } else {
      var read := ReadStock(s, c.skuId);
      var s1 := read.after;
      if read.stock.None? {
        assert t.rows == s.rows && t.log == s.log;
      } else {
        var stock := read.stock.value;
        var u := CompensateUpdate(s1.rows, c.skuId, c.quantity, stock.version);
        if u.rowsAffected == 0 {
          assert t.rows == s.rows && t.marks == s.marks && t.log[|s.log|].status == Failed;
        } else {
          assert t.rows == u.rows && t.log == s.log + [t.log[|s.log|]];
          assert t.log[|s.log|].skuId == c.skuId;
        }
      }
    }
  }

  lemma StepConserves(s: Ledger, c: Call)
    ensures var t := Apply(s, c).after;
            && StepFacts(s, c, t)
            && forall id :: id in s.rows ==>
                 t.rows[id].availableStock == s.rows[id].availableStock + Net(t.log[|s.log|..], id)
  {
    if c.DeductCall? { DeductStepFacts(s, c); } else { CompensateStepFacts(s, c); }
    var t := Apply(s, c).after;
    if |t.log| == |s.log| + 1 {
      var tail := t.log[|s.log|..];
      assert tail == [t.log[|s.log|]];
      assert tail[..0] == [];
    } else {
      assert t.log[|s.log|..] == [];
    }
  }

  /**
   * Conservation: over any sequence of calls, each row's available stock
   * moves by exactly what the appended SUCCESS entries record: minus the
   * quantity of each applied deduction, plus that of each applied compensation.
   */
  lemma {:induction false} Conservation(s: Ledger, calls: seq<Call>, id: int)
    requires id in s.rows
    ensures var t := Run(s, calls);
            && id in t.rows && |s.log| <= |t.log| && t.log[..|s.log|] == s.log
            && t.rows[id].availableStock == s.rows[id].availableStock + Net(t.log[|s.log|..], id)
    decreases |calls|
  {
    if calls != [] {
      var s1 := Apply(s, calls[0]).after;
      StepConserves(s, calls[0]);
      Conservation(s1, calls[1..], id);
      var t := Run(s, calls);
      assert t == Run(s1, calls[1..]);
      assert t.log[..|s1.log|] == s1.log;
      assert t.log[..|s.log|] == s1.log[..|s.log|];
      assert t.log[|s.log|..] == s1.log[|s.log|..] + t.log[|s1.log|..];
      NetAppend(s1.log[|s.log|..], t.log[|s1.log|..], id);
    }
  }

  /** Every call whose compensations give back a non-negative quantity. */
  predicate NoNegativeCompensation(calls: seq<Call>)
  {
    forall i :: 0 <= i < |calls| && calls[i].CompensateCall? ==> calls[i].quantity >= 0
  }

  /** Non-negativity: no sequence of calls drives available stock below zero. */
  lemma {:induction false} NeverNegative(s: Ledger, calls: seq<Call>)
    requires NonNegative(s.rows) && NoNegativeCompensation(calls)
    ensures NonNegative(Run(s, calls).rows)
    decreases |calls|
  {
    if calls != [] {
      var s1 := Apply(s, calls[0]).after;
      assert NonNegative(s1.rows) by {
        assert calls[0].CompensateCall? ==> calls[0].quantity >= 0;
      }
      assert NoNegativeCompensation(calls[1..]) by {
        forall i | 0 <= i < |calls[1..]| && calls[1..][i].CompensateCall?
          ensures calls[1..][i].quantity >= 0
        {
          assert calls[1..][i] == calls[i + 1];
        }
      }
      NeverNegative(s1, calls[1..]);
    }
  }

  /** An audit entry records an applied operation of kind `op`. */
  predicate IsApplied(e: LogEntry, op: LogOperation)
  {
    e.status == Success && e.operation == op
  }

  /** The mark that an applied operation of kind `op` sets. */
  function MarkType(op: LogOperation): string
  {
    if op == Deduct then StockDeduct else StockCompensate
  }

  /** Every applied entry's business id is marked for its operation. */
  predicate AppliedAreMarked(s: Ledger)
  {
    forall i :: 0 <= i < |s.log| && s.log[i].status == Success ==>
      BuildKey(s.log[i].businessId, MarkType(s.log[i].operation)) in s.marks
  }

  /** No two applied entries of one operation share a business id. */
  predicate AppliedAreDistinct(log: seq<LogEntry>)
  {
    forall i, j :: 0 <= i < j < |log| && IsApplied(log[i], log[j].operation) && log[j].status == Success ==>
      log[i].businessId != log[j].businessId
  }

  /**
   * At most one applied deduction and one applied compensation per business
   * id, and every applied one is marked.
   */
  predicate AppliedOnce(s: Ledger)
  {
    AppliedAreMarked(s) && AppliedAreDistinct(s.log)
  }

  lemma StepKeepsAppliedOnce(s: Ledger, c: Call)
    requires s.idemOn && AppliedOnce(s)
    ensures AppliedOnce(Apply(s, c).after)
  {
    var t := Apply(s, c).after;
    StepConserves(s, c);
    forall i | 0 <= i < |s.log|
      ensures t.log[i] == s.log[i]
    {
      assert t.log[..|s.log|][i] == t.log[i];
    }
    if |t.log| == |s.log| + 1 && t.log[|s.log|].status == Success {
      var e := t.log[|s.log|];
      forall i | 0 <= i < |s.log| && IsApplied(s.log[i], e.operation)
        ensures s.log[i].businessId != e.businessId
      {
        assert BuildKey(s.log[i].businessId, MarkType(e.operation)) in s.marks;
      }
    }
  }

  /** With a store, no sequence of calls applies a deduction or a compensation twice for one business id. */
  lemma {:induction false} AtMostOncePerBusinessId(s: Ledger, calls: seq<Call>)
    requires s.idemOn && AppliedOnce(s)
    ensures AppliedOnce(Run(s, calls))
    decreases |calls|
  {
    if calls != [] {
      StepKeepsAppliedOnce(s, calls[0]);
      StepConserves(s, calls[0]);
      AtMostOncePerBusinessId(Apply(s, calls[0]).after, calls[1..]);
    }
  }

  /** Applied deductions of row `id` in a stretch of the log. */
  function AppliedDeductions(entries: seq<LogEntry>, id: int): nat
    decreases |entries|
  {
    if entries == [] then 0
    else AppliedDeductions(entries[..|entries| - 1], id)
         + (var e := entries[|entries| - 1]; if IsApplied(e, Deduct) && e.skuId == id then 1 else 0)
  }

  /** Every entry is a deduction of `quantity`. */
  predicate AllDeductionsOf(entries: seq<LogEntry>, quantity: int)
  {
    forall i :: 0 <= i < |entries| ==> entries[i].operation == Deduct && entries[i].quantity == quantity
  }

  lemma {:induction false} NetOfDeductions(entries: seq<LogEntry>, id: int, quantity: int)
    requires AllDeductionsOf(entries, quantity)
    ensures Net(entries, id) == -quantity * AppliedDeductions(entries, id)
    decreases |entries|
  {
    if entries != [] {
      var init := entries[..|entries| - 1];
      assert AllDeductionsOf(init, quantity) by {
        forall i | 0 <= i < |init| ensures init[i] == entries[i] { }
      }
      NetOfDeductions(init, id, quantity);
    }
  }

  /** Calls that all deduct `quantity` units. */
  predicate AllDeductCalls(calls: seq<Call>, quantity: int)
  {
    forall i :: 0 <= i < |calls| ==> calls[i].DeductCall? && calls[i].quantity == quantity
  }

  lemma {:induction false} DeductRunLogsDeductions(s: Ledger, calls: seq<Call>, quantity: int)
    requires AllDeductCalls(calls, quantity)
    ensures var t := Run(s, calls);
            |s.log| <= |t.log| && t.log[..|s.log|] == s.log && AllDeductionsOf(t.log[|s.log|..], quantity)
    decreases |calls|
  {
    if calls != [] {
      var s1 := Apply(s, calls[0]).after;
      StepConserves(s, calls[0]);
      assert calls[0].DeductCall? && calls[0].quantity == quantity;
      assert AllDeductCalls(calls[1..], quantity) by {
        forall i | 0 <= i < |calls[1..]| ensures calls[1..][i] == calls[i + 1] { }
      }
      DeductRunLogsDeductions(s1, calls[1..], quantity);
      var t := Run(s, calls);
      assert t.log[|s.log|..] == s1.log[|s.log|..] + t.log[|s1.log|..];
      assert AllDeductionsOf(s1.log[|s.log|..], quantity);
    }
  }

  /**
   * Many deductions of `quantity` units from one row: the stock never goes
   * negative and its total drop is the number of applied deductions times
   * `quantity`.
   */
  lemma DeductionsDropByAppliedCount(s: Ledger, calls: seq<Call>, id: int, quantity: int)
    requires id in s.rows && NonNegative(s.rows) && AllDeductCalls(calls, quantity)
    ensures var t := Run(s, calls);
            && id in t.rows && |s.log| <= |t.log|
            && t.rows[id].availableStock >= 0
            && s.rows[id].availableStock - t.rows[id].availableStock
               == quantity * AppliedDeductions(t.log[|s.log|..], id)
  {
    var t := Run(s, calls);
    Conservation(s, calls, id);
    DeductRunLogsDeductions(s, calls, quantity);
    var tail := t.log[|s.log|..];
    NetOfDeductions(tail, id, quantity);
    assert Net(tail, id) == -quantity * AppliedDeductions(tail, id);
    DeductCallsCompensateNothing(calls, quantity);
    NeverNegative(s, calls);
  }

  lemma DeductCallsCompensateNothing(calls: seq<Call>, quantity: int)
    requires AllDeductCalls(calls, quantity)
    ensures NoNegativeCompensation(calls)
  {
  }
}
