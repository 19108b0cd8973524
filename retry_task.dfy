/**
 * The periodic retry task (`task/MessageRetryTask.java`). Each tick runs the
 * retry query and, for every record it returns, calls `markAsSent`; when that
 * call throws, the record gets `markAsFailedAndRetry` with the error text and
 * the loop moves on. Nothing is sent to the broker.
 *
 * Which `markAsSent` calls throw, and with what message, is the input
 * `failures`; whether the query itself throws is `queryOk`.
 */
module RetryTask {
  import opened Wrappers
  import opened Outbox

  /** The error a record's `markAsSent` throws in this tick, if any. */
  function FailureOf(failures: map<string, string>, id: string): Option<string>
  {
    if id in failures then Some(failures[id]) else None
  }

  /** What one tick does to one record. */
  function Retried(d: Delivery, now: int, failure: Option<string>): Delivery
  {
    if !RetryCandidate(d, now) then d
    else match failure
      case None => AsSent(d)
      case Some(error) => AsFailedAndRetry(d, error, now)
  }

  /**
   * One tick over the whole outbox. Records are handled independently, so the
   * order in which the query returns them does not matter.
   */
  function Tick(deliveries: map<string, Delivery>, now: int, failures: map<string, string>)
    : (r: map<string, Delivery>)
    ensures r.Keys == deliveries.Keys
    ensures forall id :: id in deliveries ==> r[id] == Retried(deliveries[id], now, FailureOf(failures, id))
  {
    map id | id in deliveries :: Retried(deliveries[id], now, FailureOf(failures, id))
  }

  /**
   * A tick touches only the records the query returns: it leaves every other
   * record as it was, marks each returned one SENT with one more delivery
   * unless its marking failed, and never makes a record FAILED or CONFIRMED.
   */
  lemma TickTouchesOnlyDueRecords(deliveries: map<string, Delivery>, now: int, failures: map<string, string>)
    ensures var r := Tick(deliveries, now, failures);
            forall id :: id in deliveries ==>
              && (id !in PendingRetry(deliveries, now) ==> r[id] == deliveries[id])
              && (id in PendingRetry(deliveries, now) && id !in failures ==>
                    r[id] == deliveries[id].(status := Sent, deliveryCount := deliveries[id].deliveryCount + 1))
              && (id in PendingRetry(deliveries, now) && id in failures ==>
                    && r[id].status == deliveries[id].status
                    && r[id].deliveryCount == deliveries[id].deliveryCount
                    && r[id].errorMessage == Some(failures[id])
                    && r[id].nextRetryTime == now + Backoff(deliveries[id].deliveryCount))
              && (r[id].status == Failed <==> deliveries[id].status == Failed)
              && (r[id].status == Confirmed <==> deliveries[id].status == Confirmed)
  {
  }

  /** A tick whose query returns nothing changes nothing. */
  lemma EmptyQueryTickIsNoop(deliveries: map<string, Delivery>, now: int, failures: map<string, string>)
    requires PendingRetry(deliveries, now) == {}
    ensures Tick(deliveries, now, failures) == deliveries
  {
    var r := Tick(deliveries, now, failures);
    forall id | id in deliveries ensures r[id] == deliveries[id] {
      assert id !in PendingRetry(deliveries, now);
    }
  }

  /** One record over a run of ticks at the given times with the given outcomes. */
  function RunTicks(d: Delivery, times: seq<int>, outcomes: seq<Option<string>>): Delivery
    requires |times| == |outcomes|
    decreases |times|
  {
    if times == [] then d else RunTicks(Retried(d, times[0], outcomes[0]), times[1..], outcomes[1..])
  }

  /**
   * No run of ticks makes a record FAILED, however often its marking fails:
   * the query only returns records below the maximum and a failed marking does
   * not count as a delivery, so `markAsFailedAndRetry` never reaches its
   * FAILED branch. A CONFIRMED record is never touched.
   */
  lemma {:induction false} TicksNeverFail(d: Delivery, times: seq<int>, outcomes: seq<Option<string>>)
    requires |times| == |outcomes| && d.status != Failed
    ensures RunTicks(d, times, outcomes).status != Failed
    ensures d.status == Confirmed ==> RunTicks(d, times, outcomes) == d
    decreases |times|
  {
    if times != [] {
      TicksNeverFail(Retried(d, times[0], outcomes[0]), times[1..], outcomes[1..]);
    }
  }

  /** A run of ticks never pushes a record's delivery count past the maximum. */
  lemma {:induction false} TicksBoundDeliveries(d: Delivery, times: seq<int>, outcomes: seq<Option<string>>)
    requires |times| == |outcomes| && d.deliveryCount <= d.maxRetries
    ensures d.deliveryCount <= RunTicks(d, times, outcomes).deliveryCount <= d.maxRetries
    ensures RunTicks(d, times, outcomes).maxRetries == d.maxRetries
    decreases |times|
  {
    if times != [] {
      TicksBoundDeliveries(Retried(d, times[0], outcomes[0]), times[1..], outcomes[1..]);
    }
  }

  function Min(a: int, b: int): int
  {
    if a <= b then a else b
  }

  /** Every outcome is a success. */
  predicate AllSucceed(outcomes: seq<Option<string>>)
  {
    forall i :: 0 <= i < |outcomes| ==> outcomes[i].None?
  }

  /** No tick comes before `t`. */
  predicate NotBefore(times: seq<int>, t: int)
  {
    forall i :: 0 <= i < |times| ==> t <= times[i]
  }

  /**
   * A record that is never confirmed and whose marking always succeeds is
   * marked SENT on every tick until its count reaches the maximum, with its
   * next retry time never moving; afterwards the query no longer returns it,
   * and it stays SENT forever rather than reaching a terminal status.
   */
  lemma {:induction false} UnconfirmedRecordExhaustsRetries(d: Delivery, times: seq<int>, outcomes: seq<Option<string>>)
    requires |times| == |outcomes| && AllSucceed(outcomes) && NotBefore(times, d.nextRetryTime)
    requires d.status == Pending || d.status == Sent
    requires d.deliveryCount <= d.maxRetries
    ensures var r := RunTicks(d, times, outcomes);
            && r.deliveryCount == Min(d.deliveryCount + |times|, d.maxRetries)
            && r.nextRetryTime == d.nextRetryTime
            && (r.status == Sent || (r == d && (|times| == 0 || d.deliveryCount == d.maxRetries)))
            && (r.deliveryCount == r.maxRetries ==> forall t :: !RetryCandidate(r, t))
    decreases |times|
  {
    if times != [] {
      var d' := Retried(d, times[0], outcomes[0]);
      assert outcomes[0].None? && d.nextRetryTime <= times[0];
      assert AllSucceed(outcomes[1..]) by {
        forall i | 0 <= i < |outcomes[1..]| ensures outcomes[1..][i] == outcomes[i + 1] { }
      }
      assert NotBefore(times[1..], d'.nextRetryTime) by {
        forall i | 0 <= i < |times[1..]| ensures times[1..][i] == times[i + 1] { }
      }
      UnconfirmedRecordExhaustsRetries(d', times[1..], outcomes[1..]);
    }
  }

  /**
   * A record whose marking fails on every tick keeps its status and its count
   * for ever: the backoff it gets never grows.
   */
  lemma {:induction false} AlwaysFailingRecordNeverProgresses(d: Delivery, times: seq<int>, outcomes: seq<Option<string>>)
    requires |times| == |outcomes| && forall i :: 0 <= i < |outcomes| ==> outcomes[i].Some?
    ensures var r := RunTicks(d, times, outcomes);
            r.status == d.status && r.deliveryCount == d.deliveryCount
    decreases |times|
  {
    if times != [] {
      var d' := Retried(d, times[0], outcomes[0]);
      assert forall i :: 0 <= i < |outcomes[1..]| ==> outcomes[1..][i].Some? by {
        forall i | 0 <= i < |outcomes[1..]| ensures outcomes[1..][i] == outcomes[i + 1] { }
      }
      AlwaysFailingRecordNeverProgresses(d', times[1..], outcomes[1..]);
    }
  }

  /** The scheduled task. */
  class MessageRetryTask {
    const outbox: MessageDeliveryService

    constructor (outbox: MessageDeliveryService)
      ensures this.outbox == outbox
    {
      this.outbox := outbox;
    }

    /** `retryFailedMessages`: one tick; no error escapes it. */
    method RetryFailedMessages(now: int, queryOk: bool, failures: map<string, string>)
      modifies outbox
      ensures queryOk ==> outbox.deliveries == Tick(old(outbox.deliveries), now, failures)
      ensures !queryOk ==> outbox.deliveries == old(outbox.deliveries)
    {
      if !queryOk {
        return;
      }
      var start := outbox.deliveries;
      var pending := outbox.GetPendingRetryMessages(now);
      if pending == {} {
        EmptyQueryTickIsNoop(start, now, failures);
        return;
      }
      var todo := pending;
      while todo != {}
        invariant todo <= pending && pending <= start.Keys
        invariant outbox.deliveries.Keys == start.Keys
        invariant forall id :: id in start ==>
                    outbox.deliveries[id]
                    == if id in pending && id !in todo then Retried(start[id], now, FailureOf(failures, id))
                       else start[id]
        decreases todo
      {
        var id :| id in todo;
        assert RetryCandidate(start[id], now);
        if id in failures {
          outbox.MarkAsFailedAndRetry(id, failures[id], now);
        } else {
          outbox.MarkAsSent(id);
        }
        todo := todo - {id};
      }
      assert forall id :: id in start && id !in pending ==> !RetryCandidate(start[id], now);
    }
  }
}
