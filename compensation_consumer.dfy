/**
 * The compensation listener (`mq/OrderCompensationEventConsumer.java`): it
 * gives the event's stock back through the stock engine and confirms the
 * outbox record named by the `messageId` header only when that succeeded;
 * otherwise it raises an error (the broker then redelivers or dead-letters
 * the message, which is not modelled).
 */
module CompensationConsumer {
  import opened Wrappers
  import opened Events
  import opened Idempotency
  import opened StockEngine
  import opened Outbox

  /** The error the listener raises when the compensation answered false. */
  datatype ConsumeError = CompensationFailed

  /** The listener's outcome, the engine state and the outbox after one delivery. */
  datatype Consumed = Consumed(outcome: Outcome<ConsumeError>, ledger: Ledger, deliveries: map<string, Delivery>)

  /** `consumeOrderCompensationEvent` on the engine state and the outbox. */
  function Consume(s: Ledger, deliveries: map<string, Delivery>, event: OrderCompensationEvent, messageId: string,
                   lockAcquired: bool, now: int): Consumed
  {
    var step := CompensateSpec(s, event.skuId, event.quantity, event.businessId, event.compensationReason,
                               event.traceId, lockAcquired, now);
    if step.ok then Consumed(Pass, step.after, MarkConfirmed(deliveries, messageId))
    else Consumed(Fail(CompensationFailed), step.after, deliveries)
  }

  /**
   * The engine is asked to compensate exactly the event's SKU, quantity,
   * business id and reason; the record is confirmed exactly when that
   * answered true, and otherwise the outbox is left as it was.
   */
  lemma ConfirmsOnlyAppliedCompensations(s: Ledger, deliveries: map<string, Delivery>, event: OrderCompensationEvent,
                                         messageId: string, lockAcquired: bool, now: int)
    ensures var c := Consume(s, deliveries, event, messageId, lockAcquired, now);
            var step := CompensateSpec(s, event.skuId, event.quantity, event.businessId, event.compensationReason,
                                       event.traceId, lockAcquired, now);
            && c.ledger == step.after
            && (c.outcome.Pass? <==> step.ok)
            && (c.outcome.Pass? ==> c.deliveries == MarkConfirmed(deliveries, messageId))
            && (c.outcome.Fail? ==> c.deliveries == deliveries)
            && (c.outcome.Pass? && messageId in deliveries ==> c.deliveries[messageId].status == Confirmed)
  {
  }

  /**
   * With an idempotency store, redelivering an event whose compensation was
   * applied is confirmed again without touching the stock a second time.
   */
  lemma RedeliveryConfirmsWithoutSecondChange(s: Ledger, deliveries: map<string, Delivery>,
                                              event: OrderCompensationEvent, messageId: string,
                                              lock1: bool, lock2: bool, t1: int, t2: int)
    requires s.idemOn
    ensures var c1 := Consume(s, deliveries, event, messageId, lock1, t1);
            var c2 := Consume(c1.ledger, c1.deliveries, event, messageId, lock2, t2);
            c1.outcome.Pass? ==> c2.outcome == Pass && c2.ledger == c1.ledger && c2.deliveries == c1.deliveries
  {
    var step := CompensateSpec(s, event.skuId, event.quantity, event.businessId, event.compensationReason,
                               event.traceId, lock1, t1);
    if step.ok && !Marked(s.idemOn, s.marks, event.businessId, StockCompensate) {
      assert Marked(step.after.idemOn, step.after.marks, event.businessId, StockCompensate);
    }
  }

  class OrderCompensationEventConsumer {
    const outbox: MessageDeliveryService
    const stock: StockService

    constructor (outbox: MessageDeliveryService, stock: StockService)
      ensures this.outbox == outbox && this.stock == stock
    {
      this.outbox := outbox;
      this.stock := stock;
    }

    /** `consumeOrderCompensationEvent`; `messageId` is the message's header. */
    method ConsumeOrderCompensationEvent(event: OrderCompensationEvent, messageId: string,
                                         lockAcquired: bool, now: int) returns (r: Outcome<ConsumeError>)
      modifies outbox, stock, stock.table, stock.idem
      ensures Consumed(r, stock.Current(), outbox.deliveries)
              == Consume(old(stock.Current()), old(outbox.deliveries), event, messageId, lockAcquired, now)
    {
      var ok := stock.CompensateStock(event.skuId, event.quantity, event.businessId, event.compensationReason,
                                      event.traceId, lockAcquired, now);
      if !ok {
        return Fail(CompensationFailed);
      }
      outbox.MarkAsConfirmed(messageId);
      r := Pass;
    }
  }
}
