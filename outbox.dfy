/**
 * The outbox of messages awaiting delivery
 * (`service/impl/MessageDeliveryServiceImpl.java`): one record per message
 * id, a status machine PENDING/SENT/CONFIRMED/FAILED, a query for the records
 * due for another attempt and an exponential backoff. The clock is the
 * explicit integer `now`, in seconds.
 */
module Outbox {
  import opened Wrappers
  import opened Events

  const MaxRetries: nat := 5
  /** Delay in seconds before the first retry. */
  const InitialRetryDelay: nat := 30

  datatype DeliveryStatus = Pending | Sent | Confirmed | Failed

  /** One `message_delivery` row; the JSON content is kept as the event it encodes. */
  datatype Delivery = Delivery(
    messageId: string,
    messageType: string,
    content: Event,
    targetQueue: string,
    traceId: string,
    status: DeliveryStatus,
    deliveryCount: nat,
    maxRetries: nat,
    nextRetryTime: int,
    errorMessage: Option<string>)

  /** What `save` reports when the message id is already stored. */
  datatype SaveError = DuplicateMessageId

  function Pow2(k: nat): (r: nat)
    ensures r >= 1
  {
    if k == 0 then 1 else 2 * Pow2(k - 1)
  }

  /** Seconds to wait before the next attempt, after `deliveryCount` deliveries. */
  function Backoff(deliveryCount: nat): nat
  {
    InitialRetryDelay * Pow2(deliveryCount)
  }

  /** The delay doubles with every delivery and starts at the initial delay. */
  lemma BackoffDoubles(deliveryCount: nat)
    ensures Backoff(0) == InitialRetryDelay
    ensures Backoff(deliveryCount + 1) == 2 * Backoff(deliveryCount)
    ensures Backoff(deliveryCount) >= InitialRetryDelay
  {
  }

  /** The record `savePendingMessage` inserts. */
  function NewPending(messageId: string, messageType: string, content: Event, targetQueue: string,
                      traceId: string, now: int): Delivery
  {
    Delivery(messageId, messageType, content, targetQueue, traceId, Pending, 0, MaxRetries, now, None)
  }

  /** `markAsSent` on a record: no status guard. */
  function AsSent(d: Delivery): Delivery
  {
    d.(status := Sent, deliveryCount := d.deliveryCount + 1)
  }

  /** `markAsConfirmed` on a record: no status guard. */
  function AsConfirmed(d: Delivery): Delivery
  {
    d.(status := Confirmed)
  }

  /**
   * `markAsFailedAndRetry` on a record: records the error; once the count has
   * reached the maximum the record becomes FAILED, otherwise the next attempt
   * is pushed back by the backoff. The count itself is never incremented.
   */
  function AsFailedAndRetry(d: Delivery, error: string, now: int): (r: Delivery)
    ensures r.errorMessage == Some(error) && r.deliveryCount == d.deliveryCount
    ensures d.deliveryCount >= d.maxRetries ==> r.status == Failed && r.nextRetryTime == d.nextRetryTime
    ensures d.deliveryCount < d.maxRetries ==>
              r.status == d.status && r.nextRetryTime == now + Backoff(d.deliveryCount)
    ensures r.(status := d.status, nextRetryTime := d.nextRetryTime, errorMessage := d.errorMessage) == d
  {
    var e := d.(errorMessage := Some(error));
    if d.deliveryCount >= d.maxRetries then e.(status := Failed)
    else e.(nextRetryTime := now + Backoff(d.deliveryCount))
  }

  /** The retry query's condition. */
  predicate RetryCandidate(d: Delivery, now: int)
  {
    (d.status == Pending || d.status == Sent) && d.nextRetryTime <= now && d.deliveryCount < d.maxRetries
  }

  /** `getPendingRetryMessages`: the ids of the records the retry query returns. */
  function PendingRetry(deliveries: map<string, Delivery>, now: int): (ids: set<string>)
    ensures ids <= deliveries.Keys
    ensures forall id :: id in deliveries ==> (id in ids <==> RetryCandidate(deliveries[id], now))
  {
    set id | id in deliveries && RetryCandidate(deliveries[id], now)
  }

  /** The outbox after `markAsSent(messageId)`. */
  function MarkSent(deliveries: map<string, Delivery>, messageId: string): map<string, Delivery>
  {
    if messageId in deliveries then deliveries[messageId := AsSent(deliveries[messageId])] else deliveries
  }

  /** The outbox after `markAsConfirmed(messageId)`. */
  function MarkConfirmed(deliveries: map<string, Delivery>, messageId: string): map<string, Delivery>
  {
    if messageId in deliveries then deliveries[messageId := AsConfirmed(deliveries[messageId])] else deliveries
  }

  /** The outbox after `markAsFailedAndRetry(messageId, error)`. */
  function MarkFailedAndRetry(deliveries: map<string, Delivery>, messageId: string, error: string, now: int)
    : map<string, Delivery>
  {
    if messageId in deliveries then deliveries[messageId := AsFailedAndRetry(deliveries[messageId], error, now)]
    else deliveries
  }

  /**
   * The three mark operations ignore an unknown id, touch no record but the
   * one named, never add or remove a record and never change what a record
   * carries (type, content, queue, trace id).
   */
  lemma MarksTouchOneRecord(deliveries: map<string, Delivery>, messageId: string, error: string, now: int)
    ensures messageId !in deliveries ==>
              && MarkSent(deliveries, messageId) == deliveries
              && MarkConfirmed(deliveries, messageId) == deliveries
              && MarkFailedAndRetry(deliveries, messageId, error, now) == deliveries
    ensures forall m :: m in {MarkSent(deliveries, messageId), MarkConfirmed(deliveries, messageId),
                              MarkFailedAndRetry(deliveries, messageId, error, now)} ==>
              && m.Keys == deliveries.Keys
              && (forall id :: id in deliveries && id != messageId ==> m[id] == deliveries[id])
              && (forall id :: id in deliveries ==> SamePayload(m[id], deliveries[id]))
  {
  }

  /** Two records carry the same message. */
  predicate SamePayload(a: Delivery, b: Delivery)
  {
    a.messageId == b.messageId && a.messageType == b.messageType && a.content == b.content
    && a.targetQueue == b.targetQueue && a.traceId == b.traceId
  }

  /**
   * The marks have no status guards: `markAsSent` reopens a CONFIRMED or
   * FAILED record as SENT, and `markAsConfirmed` closes a FAILED one.
   */
  lemma MarksIgnoreStatus(d: Delivery)
    ensures AsSent(d).status == Sent && AsSent(d).deliveryCount == d.deliveryCount + 1
    ensures AsSent(d).nextRetryTime == d.nextRetryTime
    ensures AsConfirmed(d).status == Confirmed && AsConfirmed(d).deliveryCount == d.deliveryCount
    ensures AsConfirmed(d).nextRetryTime == d.nextRetryTime
    ensures d.status == Confirmed && d.deliveryCount + 1 < d.maxRetries ==>
              RetryCandidate(AsSent(d), d.nextRetryTime)
  {
  }

  /** A freshly saved record is due at once, and at every later time. */
  lemma FreshRecordIsDue(messageId: string, messageType: string, content: Event, targetQueue: string,
                         traceId: string, saved: int, now: int)
    ensures var d := NewPending(messageId, messageType, content, targetQueue, traceId, saved);
            RetryCandidate(d, now) <==> saved <= now
  {
  }

  /**
   * Marking a due record SENT leaves its next retry time where it was, so it
   * is due again at once unless this delivery used up the last retry.
   */
  lemma SentRecordIsDueAgain(d: Delivery, now: int, later: int)
    requires RetryCandidate(d, now) && now <= later
    ensures RetryCandidate(AsSent(d), later) <==> d.deliveryCount + 1 < d.maxRetries
  {
  }

  /**
   * A due record whose marking failed keeps its status and count and is not
   * due again until the backoff has passed, then is due again.
   */
  lemma FailedAttemptBacksOff(d: Delivery, error: string, now: int, later: int)
    requires RetryCandidate(d, now)
    ensures var r := AsFailedAndRetry(d, error, now);
            && r.status == d.status && r.status != Failed && r.deliveryCount == d.deliveryCount
            && (RetryCandidate(r, later) <==> later >= now + Backoff(d.deliveryCount))
  {
  }

  /** `markAsFailedAndRetry` reaches FAILED exactly when the count has reached the maximum. */
  lemma FailedOnlyAtMaximum(d: Delivery, error: string, now: int)
    requires d.status != Failed
    ensures AsFailedAndRetry(d, error, now).status == Failed <==> d.deliveryCount >= d.maxRetries
  {
  }

  /** The outbox table. */
  class MessageDeliveryService {
    var deliveries: map<string, Delivery>

    constructor ()
      ensures deliveries == map[]
    {
      deliveries := map[];
    }

    /**
     * `savePendingMessage`: inserts a fresh PENDING record; the id is a
     * unique key, so a repeated id is refused and nothing is stored.
     */
    method SavePendingMessage(messageId: string, messageType: string, content: Event, targetQueue: string,
                              traceId: string, now: int) returns (r: Result<Delivery, SaveError>)
      modifies this
      ensures messageId in old(deliveries) ==> r == Err(DuplicateMessageId) && deliveries == old(deliveries)
      ensures messageId !in old(deliveries) ==>
                && r == Ok(NewPending(messageId, messageType, content, targetQueue, traceId, now))
                && deliveries == old(deliveries)[messageId := r.value]
    {
      if messageId in deliveries {
        return Err(DuplicateMessageId);
      }
      var d := NewPending(messageId, messageType, content, targetQueue, traceId, now);
      deliveries := deliveries[messageId := d];
      r := Ok(d);
    }

    method MarkAsSent(messageId: string)
      modifies this
      ensures deliveries == MarkSent(old(deliveries), messageId)
    {
      if messageId in deliveries {
        var d := deliveries[messageId];
        deliveries := deliveries[messageId := d.(status := Sent, deliveryCount := d.deliveryCount + 1)];
      }
    }

    method MarkAsConfirmed(messageId: string)
      modifies this
      ensures deliveries == MarkConfirmed(old(deliveries), messageId)
    {
      if messageId in deliveries {
        deliveries := deliveries[messageId := deliveries[messageId].(status := Confirmed)];
      }
    }

    method MarkAsFailedAndRetry(messageId: string, error: string, now: int)
      modifies this
      ensures deliveries == MarkFailedAndRetry(old(deliveries), messageId, error, now)
    {
      if messageId in deliveries {
        var d := deliveries[messageId].(errorMessage := Some(error));
        if d.deliveryCount >= d.maxRetries {
          d := d.(status := Failed);
        } else {
          d := d.(nextRetryTime := now + InitialRetryDelay * Pow2(d.deliveryCount));
        }
        deliveries := deliveries[messageId := d];
      }
    }

    /** `getPendingRetryMessages`: exactly the records the retry query matches. */
    method GetPendingRetryMessages(now: int) returns (ids: set<string>)
      ensures ids <= deliveries.Keys
      ensures forall id :: id in deliveries ==> (id in ids <==> RetryCandidate(deliveries[id], now))
    {
      ids := set id | id in deliveries && RetryCandidate(deliveries[id], now);
    }
  }
}
