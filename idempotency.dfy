/**
 * Idempotency marks kept in a shared key-value store
 * (`util/IdempotentUtil.java`). A mark is the key
 * `"idempotent:" + operationType + ":" + businessId` with the time it was
 * set. The store is optional: without one, nothing is ever marked.
 * Time-to-live expiry is not modelled; a mark stays until it is cleared.
 */
module Idempotency {
  import opened Wrappers

  const KeyPrefix: string := "idempotent:"
  /** The operation types the stock engine marks. */
  const StockDeduct: string := "STOCK_DEDUCT"
  const StockCompensate: string := "STOCK_COMPENSATE"
  /** Default lifetime of a mark in seconds (accepted, never enforced here). */
  const DefaultExpireSeconds: int := 3600

  /** What a call against an absent store throws. */
  datatype StoreError = NoStore

  /** The store key of a mark. */
  function BuildKey(businessId: string, operationType: string): string
  {
    KeyPrefix + operationType + ":" + businessId
  }

  /** Within one operation type the key determines the business id. */
  lemma {:induction false} BuildKeyInjective(b1: string, b2: string, operationType: string)
    requires BuildKey(b1, operationType) == BuildKey(b2, operationType)
    ensures b1 == b2
  {
    var n := |KeyPrefix| + |operationType| + 1;
    assert BuildKey(b1, operationType)[n..] == b1;
    assert BuildKey(b2, operationType)[n..] == b2;
  }

  /**
   * Keys of two different colon-free operation types never coincide,
   * whatever the business ids are.
   */
  lemma {:induction false} KeysOfDistinctTypesDiffer(b1: string, t1: string, b2: string, t2: string)
    requires ':' !in t1 && ':' !in t2 && t1 != t2
    ensures BuildKey(b1, t1) != BuildKey(b2, t2)
  {
    var k1, k2 := BuildKey(b1, t1), BuildKey(b2, t2);
    var p := |KeyPrefix|;
    if |t1| == |t2| {
      var i :| 0 <= i < |t1| && t1[i] != t2[i];
      assert k1[p + i] == t1[i];
      assert k2[p + i] == t2[i];
    } else if |t1| < |t2| {
      assert k1[p + |t1|] == ':';
      assert k2[p + |t1|] == t2[|t1|];
    } else {
      assert k2[p + |t2|] == ':';
      assert k1[p + |t2|] == t1[|t2|];
    }
  }

  /** A deduction mark and a compensation mark never share a key. */
  lemma DeductAndCompensateKeysDiffer(b1: string, b2: string)
    ensures BuildKey(b1, StockDeduct) != BuildKey(b2, StockCompensate)
  {
    assert StockDeduct[6] != StockCompensate[6];
    assert ':' !in StockDeduct && ':' !in StockCompensate;
    KeysOfDistinctTypesDiffer(b1, StockDeduct, b2, StockCompensate);
  }

  /** What `isOperated` answers for a store state. */
  predicate Marked(configured: bool, marks: map<string, int>, businessId: string, operationType: string)
  {
    configured && BuildKey(businessId, operationType) in marks
  }

  /** The answer and the new store of a two-argument `markAsOperated`. */
  datatype Marking = Marking(ok: bool, marks: map<string, int>)

  /**
   * Two-argument `markAsOperated`: set-if-absent with the current time as
   * value; without a store it reports success and records nothing.
   */
  function Mark(configured: bool, marks: map<string, int>, businessId: string, operationType: string, now: int): (m: Marking)
    ensures !configured ==> m == Marking(true, marks)
    ensures configured ==> (m.ok <==> BuildKey(businessId, operationType) !in marks)
    ensures m.ok && configured ==> m.marks == marks[BuildKey(businessId, operationType) := now]
    ensures !m.ok ==> m.marks == marks
    ensures configured ==> Marked(configured, m.marks, businessId, operationType)
  {
    var key := BuildKey(businessId, operationType);
    if !configured then Marking(true, marks)
    else if key in marks then Marking(false, marks)
    else Marking(true, marks[key := now])
  }

  /** Marking a fresh key twice answers true, then false, and it is marked in between and after. */
  lemma MarkTwice(marks: map<string, int>, businessId: string, operationType: string, t1: int, t2: int)
    requires !Marked(true, marks, businessId, operationType)
    ensures var first := Mark(true, marks, businessId, operationType, t1);
            var second := Mark(true, first.marks, businessId, operationType, t2);
            first.ok && Marked(true, first.marks, businessId, operationType)
            && !second.ok && second.marks == first.marks
            && first.marks[BuildKey(businessId, operationType)] == t1
  {
  }

  /** The key-value store as the application sees it. */
  class IdempotentUtil {
    /** Whether a store client is configured. */
    const configured: bool
    /** Present keys with the timestamp stored under each. */
    var marks: map<string, int>

    constructor (configured: bool, marks: map<string, int>)
      ensures this.configured == configured && this.marks == marks
    {
      this.configured := configured;
      this.marks := marks;
    }

    /** True exactly when the mark's key is present; always false without a store. */
    method IsOperated(businessId: string, operationType: string) returns (r: bool)
      ensures r <==> configured && BuildKey(businessId, operationType) in marks
    {
      if !configured {
        return false;
      }
      r := BuildKey(businessId, operationType) in marks;
    }

    /** Two-argument `markAsOperated`, with the default time-to-live. */
    method MarkAsOperated(businessId: string, operationType: string, now: int) returns (ok: bool)
      modifies this
      ensures Marking(ok, marks) == Mark(configured, old(marks), businessId, operationType, now)
    {
      if !configured {
        return true;
      }
      var r := MarkAsOperatedFor(businessId, operationType, DefaultExpireSeconds, now);
      ok := r.value;
    }

    /**
     * Three-argument `markAsOperated`: atomic set-if-absent. It does not test
     * for a missing store, so without one the call throws.
     */
    method MarkAsOperatedFor(businessId: string, operationType: string, expireSeconds: int, now: int)
      returns (r: Result<bool, StoreError>)
      modifies this
      ensures !configured ==> r == Err(NoStore) && marks == old(marks)
      ensures configured ==> r.Ok? && (r.value <==> BuildKey(businessId, operationType) !in old(marks))
      ensures configured && r.value ==> marks == old(marks)[BuildKey(businessId, operationType) := now]
      ensures configured && !r.value ==> marks == old(marks)
    {
      if !configured {
        return Err(NoStore);
      }
      var key := BuildKey(businessId, operationType);
      if key in marks {
        r := Ok(false);
      } else {
        marks := marks[key := now];
        r := Ok(true);
      }
    }

    /** Deletes the mark's key; throws without a store. */
    method ClearOperated(businessId: string, operationType: string) returns (r: Outcome<StoreError>)
      modifies this
      ensures !configured ==> r == Fail(NoStore) && marks == old(marks)
      ensures configured ==> r == Pass && marks == old(marks) - {BuildKey(businessId, operationType)}
      ensures configured ==> !Marked(configured, marks, businessId, operationType)
    {
      if !configured {
        return Fail(NoStore);
      }
      marks := marks - {BuildKey(businessId, operationType)};
      r := Pass;
    }

    /** The stored timestamp, or null when the key is absent; throws without a store. */
    method GetOperatedTime(businessId: string, operationType: string) returns (r: Result<Option<int>, StoreError>)
      ensures !configured ==> r == Err(NoStore)
      ensures configured && BuildKey(businessId, operationType) in marks
              ==> r == Ok(Some(marks[BuildKey(businessId, operationType)]))
      ensures configured && BuildKey(businessId, operationType) !in marks ==> r == Ok(None)
    {
      if !configured {
        return Err(NoStore);
      }
      var key := BuildKey(businessId, operationType);
      r := if key in marks then Ok(Some(marks[key])) else Ok(None);
    }
  }
}
