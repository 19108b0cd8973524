/**
 * The two save-before-send publishers (`mq/StockEventPublisher.java`,
 * `mq/OrderCompensationEventPublisher.java`) and the broker they send to.
 *
 * A publish stamps the event with a fresh message id and the time, inserts a
 * PENDING outbox record holding it, and only then, when a broker is
 * configured, sends it with a `messageId` header. Every failure is swallowed:
 * a refused insert skips the send, a failed send leaves the record saved.
 * The fresh id (a random UUID), the clock and whether the send goes through
 * are inputs.
 */
module Publishers {
  import opened Wrappers
  import opened Events
  import opened Outbox

  const StockDeductedType: string := "STOCK_DEDUCTED"
  const StockDeductExchange: string := "stock.deduct.exchange"
  const StockDeductRoutingKey: string := "stock.deduct"
  const StockDeductQueue: string := "stock.deduct.queue"

  const OrderCompensationType: string := "ORDER_COMPENSATION"
  const OrderCompensationExchange: string := "order.compensation.exchange"
  const OrderCompensationRoutingKey: string := "order.compensation"
  const OrderCompensationQueue: string := "order.compensation.queue"

  /** One message handed to the broker. */
  datatype Envelope = Envelope(exchange: string, routingKey: string, messageIdHeader: string, body: Event)

  /** The messages the broker has accepted, in order. */
  class Broker {
    var sent: seq<Envelope>

    constructor ()
      ensures sent == []
    {
      sent := [];
    }

    method Send(e: Envelope)
      modifies this
      ensures sent == old(sent) + [e]
    {
      sent := sent + [e];
    }
  }

  /** The outbox and the broker together: everything a publish can change. */
  datatype Outlet = Outlet(deliveries: map<string, Delivery>, sent: seq<Envelope>)

  /** Every message sent so far has an outbox record with its id and its content. */
  predicate Backed(o: Outlet)
  {
    forall i :: 0 <= i < |o.sent| ==>
      o.sent[i].messageIdHeader in o.deliveries && o.deliveries[o.sent[i].messageIdHeader].content == o.sent[i].body
  }

  /** The common save-then-send step of both publishers. */
  function Publish(o: Outlet, messageId: string, messageType: string, content: Event, queue: string,
                   traceId: string, exchange: string, routingKey: string, now: int,
                   brokerEnabled: bool, sendOk: bool): Outlet
  {
    if messageId in o.deliveries then o
    else
      var saved := o.deliveries[messageId := NewPending(messageId, messageType, content, queue, traceId, now)];
      Outlet(saved, if brokerEnabled && sendOk then o.sent + [Envelope(exchange, routingKey, messageId, content)]
                    else o.sent)
  }

  /**
   * Save before send: a publish sends at most one message, only after its
   * record is saved, with the saved record's id as header and the saved
   * content as body; so it keeps every sent message backed by a record.
   * Existing records are left alone, a fresh id is always saved (whatever
   * happens to the send), and without a broker nothing is sent.
   */
  lemma PublishSavesBeforeSend(o: Outlet, messageId: string, messageType: string, content: Event, queue: string,
                               traceId: string, exchange: string, routingKey: string, now: int,
                               brokerEnabled: bool, sendOk: bool)
    ensures var p := Publish(o, messageId, messageType, content, queue, traceId, exchange, routingKey, now,
                             brokerEnabled, sendOk);
            && (Backed(o) ==> Backed(p))
            && o.deliveries.Keys <= p.deliveries.Keys
            && (forall id :: id in o.deliveries ==> p.deliveries[id] == o.deliveries[id])
            && (messageId !in o.deliveries ==>
                  p.deliveries == o.deliveries[messageId := NewPending(messageId, messageType, content, queue,
                                                                       traceId, now)])
            && (messageId in o.deliveries ==> p == o)
            && (p.sent == o.sent
                || (&& messageId !in o.deliveries && brokerEnabled && sendOk
                    && p.sent == o.sent + [Envelope(exchange, routingKey, messageId, content)]
                    && p.deliveries[messageId].content == content))
            && (!brokerEnabled ==> p.sent == o.sent)
  {
  }

  /** The mark operations never change a record's content, so they keep sent messages backed. */
  lemma MarksKeepBacked(o: Outlet, messageId: string, error: string, now: int)
    requires Backed(o)
    ensures Backed(Outlet(MarkSent(o.deliveries, messageId), o.sent))
    ensures Backed(Outlet(MarkConfirmed(o.deliveries, messageId), o.sent))
    ensures Backed(Outlet(MarkFailedAndRetry(o.deliveries, messageId, error, now), o.sent))
  {
    MarksTouchOneRecord(o.deliveries, messageId, error, now);
  }

  /** The event as sent: stamped with its message id and time. */
  function StampDeducted(e: StockDeductedEvent, messageId: string, now: int): StockDeductedEvent
  {
    e.(messageId := Some(messageId), timestamp := Some(now))
  }

  function StampCompensation(e: OrderCompensationEvent, messageId: string, now: int): OrderCompensationEvent
  {
    e.(messageId := Some(messageId), timestamp := Some(now))
  }

  /** `publishStockDeductedEvent` on the outbox and the broker. */
  function PublishStockDeducted(o: Outlet, e: StockDeductedEvent, messageId: string, now: int,
                                brokerEnabled: bool, sendOk: bool): Outlet
  {
    var s := StampDeducted(e, messageId, now);
    Publish(o, messageId, StockDeductedType, StockDeducted(s), StockDeductQueue, s.traceId,
            StockDeductExchange, StockDeductRoutingKey, now, brokerEnabled, sendOk)
  }

  /** `publishOrderCompensationEvent` on the outbox and the broker. */
  function PublishCompensation(o: Outlet, e: OrderCompensationEvent, messageId: string, now: int,
                               brokerEnabled: bool, sendOk: bool): Outlet
  {
    var s := StampCompensation(e, messageId, now);
    Publish(o, messageId, OrderCompensationType, Compensation(s), OrderCompensationQueue, s.traceId,
            OrderCompensationExchange, OrderCompensationRoutingKey, now, brokerEnabled, sendOk)
  }

  /**
   * A compensation published under a fresh id leaves exactly one new record:
   * PENDING, of type ORDER_COMPENSATION on the compensation queue, carrying
   * the event stamped with that id.
   */
  lemma CompensationIsRecorded(o: Outlet, e: OrderCompensationEvent, messageId: string, now: int,
                               brokerEnabled: bool, sendOk: bool)
    requires messageId !in o.deliveries
    ensures var p := PublishCompensation(o, e, messageId, now, brokerEnabled, sendOk);
            && p.deliveries.Keys == o.deliveries.Keys + {messageId}
            && var d := p.deliveries[messageId];
               && d.status == Pending && d.messageType == OrderCompensationType
               && d.targetQueue == OrderCompensationQueue
               && d.content == Compensation(StampCompensation(e, messageId, now))
               && d.content.compensation.messageId == Some(messageId)
  {
  }

  class StockEventPublisher {
    const outbox: MessageDeliveryService
    const broker: Broker
    /** Whether a broker template is configured. */
    const brokerEnabled: bool

    constructor (outbox: MessageDeliveryService, broker: Broker, brokerEnabled: bool)
      ensures this.outbox == outbox && this.broker == broker && this.brokerEnabled == brokerEnabled
    {
      this.outbox := outbox;
      this.broker := broker;
      this.brokerEnabled := brokerEnabled;
    }

    function Current(): Outlet
      reads outbox, broker
    {
      Outlet(outbox.deliveries, broker.sent)
    }

    /** `publishStockDeductedEvent`; returns the event as stamped. No failure escapes. */
    method PublishStockDeductedEvent(event: StockDeductedEvent, messageId: string, now: int, sendOk: bool)
      returns (stamped: StockDeductedEvent)
      modifies outbox, broker
      ensures stamped == StampDeducted(event, messageId, now)
      ensures Current() == PublishStockDeducted(old(Current()), event, messageId, now, brokerEnabled, sendOk)
    {
      stamped := event.(messageId := Some(messageId), timestamp := Some(now));
      var saved := outbox.SavePendingMessage(messageId, StockDeductedType, StockDeducted(stamped),
                                             StockDeductQueue, stamped.traceId, now);
      if saved.Err? {
        return;
      }
      if brokerEnabled && sendOk {
        broker.Send(Envelope(StockDeductExchange, StockDeductRoutingKey, messageId, StockDeducted(stamped)));
      }
    }
  }

  class OrderCompensationEventPublisher {
    const outbox: MessageDeliveryService
    const broker: Broker
    /** Whether a broker template is configured. */
    const brokerEnabled: bool

    constructor (outbox: MessageDeliveryService, broker: Broker, brokerEnabled: bool)
      ensures this.outbox == outbox && this.broker == broker && this.brokerEnabled == brokerEnabled
    {
      this.outbox := outbox;
      this.broker := broker;
      this.brokerEnabled := brokerEnabled;
    }

    function Current(): Outlet
      reads outbox, broker
    {
      Outlet(outbox.deliveries, broker.sent)
    }

    /** `publishOrderCompensationEvent`; returns the event as stamped. No failure escapes. */
    method PublishOrderCompensationEvent(event: OrderCompensationEvent, messageId: string, now: int, sendOk: bool)
      returns (stamped: OrderCompensationEvent)
      modifies outbox, broker
      ensures stamped == StampCompensation(event, messageId, now)
      ensures Current() == PublishCompensation(old(Current()), event, messageId, now, brokerEnabled, sendOk)
    {
      stamped := event.(messageId := Some(messageId), timestamp := Some(now));
      var saved := outbox.SavePendingMessage(messageId, OrderCompensationType, Compensation(stamped),
                                             OrderCompensationQueue, stamped.traceId, now);
      if saved.Err? {
        return;
      }
      if brokerEnabled && sendOk {
        broker.Send(Envelope(OrderCompensationExchange, OrderCompensationRoutingKey, messageId,
                             Compensation(stamped)));
      }
    }
  }
}
