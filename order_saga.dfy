/**
 * The order saga (`business/OrderService.java`): a status machine over the
 * order table that deducts stock on submission and publishes compensation
 * events through the outbox when a payment fails, an order is cancelled or
 * goods are returned.
 *
 * Each operation is a function on the order table, the engine state and the
 * outbox with the broker, and a method of `OrderService` proved to agree with
 * it. Every lock is an input (`...Lock` / `lockAcquired`) and is released on
 * every path, which changes nothing modelled. The payment result, the fresh
 * order id, the compensation check (`hasCompensationSent`), the fresh message
 * id of each publish, the clock and the caller's trace id are inputs too.
 *
 * Each operation runs in one database transaction: when it ends in an error,
 * the order table, the stock table, the audit log and the outbox are as they
 * were, while the cache, the idempotency marks and anything already handed to
 * the broker stay.
 */
module OrderSaga {
  import opened Wrappers
  import Ev = Events
  import opened Idempotency
  import opened StockLedger
  import opened StockEngine
  import opened StockProperties
  import Ob = Outbox
  import Pub = Publishers
  import CC = CompensationConsumer

  datatype OrderStatus = Pending | StockDeducted | Paid | PaymentFailed | Shipped | Delivered | Returned | Cancelled

  /** One order row; `amount` is carried but never computed with. */
  datatype Order = Order(orderId: string, skuId: int, quantity: int, amount: real, status: OrderStatus, traceId: string)

  /** Why a saga operation raised an error. */
  datatype SagaError =
    | LockBusy
    | OrderMissing
    | StatusNotAllowed(status: OrderStatus)
    | StockDeductFailed
    | BadReturnQuantity

  /** Compensation reasons. */
  const PaymentFailedReason: string := "PAYMENT_FAILED"
  const OrderCancelledReason: string := "ORDER_CANCELLED"
  const OrderReturnedReason: string := "ORDER_RETURNED"

  /** The inputs of one publish: the fresh message id, the time and whether the send goes through. */
  datatype Publication = Publication(messageId: string, now: int, sendOk: bool)

  /** The order table together with the outbox and the broker. */
  datatype Books = Books(orders: map<string, Order>, outlet: Pub.Outlet)

  /** The compensation event `triggerCompensation` builds; the business id is the order id. */
  function CompensationEvent(orderId: string, skuId: int, quantity: int, reason: string, traceId: string, now: int)
    : Ev.OrderCompensationEvent
  {
    Ev.OrderCompensationEvent(None, orderId, skuId, quantity, reason, traceId, Some(now))
  }

  /** `triggerCompensation`: publishes one compensation event; it never fails, as the publisher swallows errors. */
  function TriggerSpec(o: Pub.Outlet, orderId: string, skuId: int, quantity: int, reason: string, traceId: string,
                       pub: Publication, brokerEnabled: bool): Pub.Outlet
  {
    Pub.PublishCompensation(o, CompensationEvent(orderId, skuId, quantity, reason, traceId, pub.now),
                            pub.messageId, pub.now, brokerEnabled, pub.sendOk)
  }

  /**
   * `after` holds every record of `before` unchanged and exactly one more,
   * under `messageId`: a PENDING compensation whose event gives back
   * `quantity` units of `skuId` under the order id with the given reason.
   */
  predicate RecordsCompensation(before: Pub.Outlet, after: Pub.Outlet, messageId: string, orderId: string,
                                skuId: int, quantity: int, reason: string)
  {
    && after.deliveries.Keys == before.deliveries.Keys + {messageId}
    && (forall id :: id in before.deliveries ==> after.deliveries[id] == before.deliveries[id])
    && messageId in after.deliveries
    && after.deliveries[messageId].status == Ob.Pending
    && after.deliveries[messageId].content.Compensation?
    && var e := after.deliveries[messageId].content.compensation;
       e.businessId == orderId && e.skuId == skuId && e.quantity == quantity
       && e.compensationReason == reason && e.messageId == Some(messageId)
  }

  /** A compensation triggered under a fresh message id adds exactly that one outbox record. */
  lemma TriggerRecordsOneCompensation(o: Pub.Outlet, orderId: string, skuId: int, quantity: int, reason: string,
                                      traceId: string, pub: Publication, brokerEnabled: bool)
    requires pub.messageId !in o.deliveries
    ensures RecordsCompensation(o, TriggerSpec(o, orderId, skuId, quantity, reason, traceId, pub, brokerEnabled),
                                pub.messageId, orderId, skuId, quantity, reason)
  {
  }

  // ----- submitOrder ----------------------------------------------------------

  /** The result, the order table and the engine state after `submitOrder`. */
  datatype Submitted = Submitted(result: Result<Order, SagaError>, orders: map<string, Order>, ledger: Ledger)

  /**
   * `submitOrder`: under the create lock, returns an existing order with the
   * same id unchanged; otherwise inserts a PENDING order and deducts its
   * stock with the order id as business id. On success the order becomes
   * STOCK_DEDUCTED; on failure it is set CANCELLED and an error is raised, so
   * the whole transaction rolls back: only the cache keeps what the read put
   * there.
   */
  function SubmitSpec(orders: map<string, Order>, s: Ledger, orderId: string, skuId: int, quantity: int,
                      amount: real, traceId: string, createLock: bool, stockLock: bool, now: int): Submitted
  {
    if !createLock then Submitted(Err(LockBusy), orders, s)
    else if orderId in orders then Submitted(Ok(orders[orderId]), orders, s)
    else
      var step := DeductSpec(s, skuId, quantity, orderId, traceId, stockLock, now);
      if step.ok then
        var order := Order(orderId, skuId, quantity, amount, StockDeducted, traceId);
        Submitted(Ok(order), orders[orderId := order], step.after)
      else
        Submitted(Err(StockDeductFailed), orders, s.(cache := step.after.cache))
  }

  /**
   * A failed submission leaves the order table, the stock table, the audit
   * log and the marks as they were; without the create lock it changes
   * nothing at all.
   */
  lemma SubmitErrorRollsBack(orders: map<string, Order>, s: Ledger, orderId: string, skuId: int, quantity: int,
                             amount: real, traceId: string, createLock: bool, stockLock: bool, now: int)
    ensures var r := SubmitSpec(orders, s, orderId, skuId, quantity, amount, traceId, createLock, stockLock, now);
            && (r.result.Err? ==> r.orders == orders && r.ledger == s.(cache := r.ledger.cache))
            && (!createLock ==> r == Submitted(Err(LockBusy), orders, s))
            && (r.result == Err(StockDeductFailed) <==>
                  createLock && orderId !in orders
                  && !DeductSpec(s, skuId, quantity, orderId, traceId, stockLock, now).ok)
  {
  }

  /**
   * A new order is stored STOCK_DEDUCTED exactly when the deduction under its
   * id answered true; when that deduction was not a replay, the SKU's stock
   * dropped by the order quantity and the audit log holds a SUCCESS deduction
   * under the order id.
   */
  lemma SubmitDeductsUnderOrderId(orders: map<string, Order>, s: Ledger, orderId: string, skuId: int, quantity: int,
                                  amount: real, traceId: string, stockLock: bool, now: int)
    requires orderId !in orders
    ensures var r := SubmitSpec(orders, s, orderId, skuId, quantity, amount, traceId, true, stockLock, now);
            r.result.Ok? ==>
              && r.result.value == Order(orderId, skuId, quantity, amount, StockDeducted, traceId)
              && r.orders == orders[orderId := r.result.value]
              && (!Marked(s.idemOn, s.marks, orderId, StockDeduct) ==>
                    && skuId in s.rows
                    && r.ledger.rows[skuId].availableStock == s.rows[skuId].availableStock - quantity
                    && r.ledger.log[|s.log|].businessId == orderId
                    && r.ledger.log[|s.log|].status == Success)
  {
    if !Marked(s.idemOn, s.marks, orderId, StockDeduct) {
      DeductApplied(s, skuId, quantity, orderId, traceId, stockLock, now);
    }
  }

  // ----- payOrder -------------------------------------------------------------

  /** The result of an operation that returns the order, and the books after it. */
  datatype Reply = Reply(result: Result<Order, SagaError>, books: Books)

  /**
   * `payOrder`: under the pay lock, for an order in STOCK_DEDUCTED or
   * PAYMENT_FAILED, a successful payment makes it PAID; a failed one publishes
   * a PAYMENT_FAILED compensation for the order's whole quantity and makes it
   * PAYMENT_FAILED.
   */
  function PaySpec(b: Books, orderId: string, lockAcquired: bool, paymentOk: bool, traceId: string,
                   pub: Publication, brokerEnabled: bool): Reply
  {
    if !lockAcquired then Reply(Err(LockBusy), b)
    else if orderId !in b.orders then Reply(Err(OrderMissing), b)
    else
      var o := b.orders[orderId];
      if o.status != StockDeducted && o.status != PaymentFailed then Reply(Err(StatusNotAllowed(o.status)), b)
      else if paymentOk then
        var paid := o.(status := Paid);
        Reply(Ok(paid), b.(orders := b.orders[orderId := paid]))
      else
        var outlet := TriggerSpec(b.outlet, orderId, o.skuId, o.quantity, PaymentFailedReason, traceId, pub,
                                  brokerEnabled);
        var failed := o.(status := PaymentFailed);
        Reply(Ok(failed), Books(b.orders[orderId := failed], outlet))
  }

  /**
   * Payment errors change nothing; an accepted payment publishes nothing; a
   * refused one publishes exactly the PAYMENT_FAILED compensation of the
   * order's full quantity. Both give back the order with only its status
   * changed.
   */
  lemma PayOutcomes(b: Books, orderId: string, lockAcquired: bool, paymentOk: bool, traceId: string,
                    pub: Publication, brokerEnabled: bool)
    ensures var r := PaySpec(b, orderId, lockAcquired, paymentOk, traceId, pub, brokerEnabled);
            && (r.result.Err? ==> r.books == b)
            && (r.result.Err? <==>
                  !lockAcquired || orderId !in b.orders
                  || b.orders[orderId].status !in {StockDeducted, PaymentFailed})
            && (r.result.Ok? ==>
                  var o := b.orders[orderId];
                  && r.result.value == o.(status := if paymentOk then Paid else PaymentFailed)
                  && r.books.orders == b.orders[orderId := r.result.value]
                  && r.books.outlet
                     == (if paymentOk then b.outlet
                         else TriggerSpec(b.outlet, orderId, o.skuId, o.quantity, PaymentFailedReason, traceId, pub,
                                          brokerEnabled))
                  && (!paymentOk && pub.messageId !in b.outlet.deliveries ==>
                        RecordsCompensation(b.outlet, r.books.outlet, pub.messageId, orderId, o.skuId, o.quantity,
                                            PaymentFailedReason)))
  {
    if lockAcquired && orderId in b.orders && !paymentOk && pub.messageId !in b.outlet.deliveries {
      var o := b.orders[orderId];
      TriggerRecordsOneCompensation(b.outlet, orderId, o.skuId, o.quantity, PaymentFailedReason, traceId, pub,
                                    brokerEnabled);
    }
  }

  // ----- cancelOrder and returnOrder ------------------------------------------

  /** The outcome of an operation that returns nothing, and the books after it. */
  datatype Done = Done(outcome: Outcome<SagaError>, books: Books)

  /**
   * `cancelOrder`: under the cancel lock, only a PENDING or PAID order may be
   * cancelled. If a compensation was already recorded for it, nothing
   * happens; otherwise an ORDER_CANCELLED compensation for its whole quantity
   * is published and it becomes CANCELLED.
   */
  function CancelSpec(b: Books, orderId: string, lockAcquired: bool, compensationSent: bool, traceId: string,
                      pub: Publication, brokerEnabled: bool): Done
  {
    if !lockAcquired then Done(Fail(LockBusy), b)
    else if orderId !in b.orders then Done(Fail(OrderMissing), b)
    else
      var o := b.orders[orderId];
      if o.status != Pending && o.status != Paid then Done(Fail(StatusNotAllowed(o.status)), b)
      else if compensationSent then Done(Pass, b)
      else
        var outlet := TriggerSpec(b.outlet, orderId, o.skuId, o.quantity, OrderCancelledReason, traceId, pub,
                                  brokerEnabled);
        Done(Pass, Books(b.orders[orderId := o.(status := Cancelled)], outlet))
  }

  /**
   * Cancellation errors change nothing; with a compensation already sent it
   * changes nothing either; otherwise the order becomes CANCELLED and the
   * full-quantity ORDER_CANCELLED compensation is recorded.
   */
  lemma CancelOutcomes(b: Books, orderId: string, lockAcquired: bool, compensationSent: bool, traceId: string,
                       pub: Publication, brokerEnabled: bool)
    ensures var r := CancelSpec(b, orderId, lockAcquired, compensationSent, traceId, pub, brokerEnabled);
            && (r.outcome.Fail? ==> r.books == b)
            && (r.outcome.Fail? <==>
                  !lockAcquired || orderId !in b.orders || b.orders[orderId].status !in {Pending, Paid})
            && (r.outcome.Pass? && compensationSent ==> r.books == b)
            && (r.outcome.Pass? && !compensationSent ==>
                  var o := b.orders[orderId];
                  && r.books.orders == b.orders[orderId := o.(status := Cancelled)]
                  && r.books.outlet == TriggerSpec(b.outlet, orderId, o.skuId, o.quantity, OrderCancelledReason,
                                                   traceId, pub, brokerEnabled)
                  && (pub.messageId !in b.outlet.deliveries ==>
                        RecordsCompensation(b.outlet, r.books.outlet, pub.messageId, orderId, o.skuId, o.quantity,
                                            OrderCancelledReason)))
  {
    if lockAcquired && orderId in b.orders && !compensationSent && pub.messageId !in b.outlet.deliveries {
      var o := b.orders[orderId];
      TriggerRecordsOneCompensation(b.outlet, orderId, o.skuId, o.quantity, OrderCancelledReason, traceId, pub,
                                    brokerEnabled);
    }
  }

  /**
   * `returnOrder`: under the return lock, only a DELIVERED order may be
   * returned, and only 0 < returnQuantity <= its quantity; an ORDER_RETURNED
   * compensation for returnQuantity is published and it becomes RETURNED.
   */
  function ReturnSpec(b: Books, orderId: string, returnQuantity: int, lockAcquired: bool, traceId: string,
                      pub: Publication, brokerEnabled: bool): Done
  {
    if !lockAcquired then Done(Fail(LockBusy), b)
    else if orderId !in b.orders then Done(Fail(OrderMissing), b)
    else
      var o := b.orders[orderId];
      if o.status != Delivered then Done(Fail(StatusNotAllowed(o.status)), b)
      else if returnQuantity <= 0 || returnQuantity > o.quantity then Done(Fail(BadReturnQuantity), b)
      else
        var outlet := TriggerSpec(b.outlet, orderId, o.skuId, returnQuantity, OrderReturnedReason, traceId, pub,
                                  brokerEnabled);
        Done(Pass, Books(b.orders[orderId := o.(status := Returned)], outlet))
  }

  /**
   * Return errors change nothing; a return succeeds exactly for a DELIVERED
   * order and an in-range quantity, makes it RETURNED and records an
   * ORDER_RETURNED compensation of the returned quantity.
   */
  lemma ReturnOutcomes(b: Books, orderId: string, returnQuantity: int, lockAcquired: bool, traceId: string,
                       pub: Publication, brokerEnabled: bool)
    ensures var r := ReturnSpec(b, orderId, returnQuantity, lockAcquired, traceId, pub, brokerEnabled);
            && (r.outcome.Fail? ==> r.books == b)
            && (r.outcome.Pass? <==>
                  lockAcquired && orderId in b.orders && b.orders[orderId].status == Delivered
                  && 0 < returnQuantity <= b.orders[orderId].quantity)
            && (r.outcome.Pass? ==>
                  var o := b.orders[orderId];
                  && r.books.orders == b.orders[orderId := o.(status := Returned)]
                  && r.books.outlet == TriggerSpec(b.outlet, orderId, o.skuId, returnQuantity, OrderReturnedReason,
                                                   traceId, pub, brokerEnabled)
                  && (pub.messageId !in b.outlet.deliveries ==>
                        RecordsCompensation(b.outlet, r.books.outlet, pub.messageId, orderId, o.skuId, returnQuantity,
                                            OrderReturnedReason)))
  {
    if lockAcquired && orderId in b.orders && pub.messageId !in b.outlet.deliveries {
      var o := b.orders[orderId];
      TriggerRecordsOneCompensation(b.outlet, orderId, o.skuId, returnQuantity, OrderReturnedReason, traceId, pub,
                                    brokerEnabled);
    }
  }

  // ----- The status machine ---------------------------------------------------

  /** The status changes the saga operations can make to a stored order. */
  predicate SagaMove(from: OrderStatus, to: OrderStatus)
  {
    || ((from == StockDeducted || from == PaymentFailed) && (to == Paid || to == PaymentFailed))
    || ((from == Pending || from == Paid) && to == Cancelled)
    || (from == Delivered && to == Returned)
  }

  /**
   * `after` differs from `before` at most in the status of order `orderId`,
   * by a saga move, and otherwise only by the insertion of that order, which
   * then is STOCK_DEDUCTED.
   */
  predicate OneOrderMoves(before: map<string, Order>, after: map<string, Order>, orderId: string)
  {
    && after.Keys <= before.Keys + {orderId}
    && before.Keys <= after.Keys
    && (forall id :: id in before && id != orderId ==> after[id] == before[id])
    && (orderId !in before && orderId in after ==> after[orderId].status == StockDeducted)
    && (orderId in before ==>
          || after[orderId] == before[orderId]
          || (after[orderId] == before[orderId].(status := after[orderId].status)
              && SagaMove(before[orderId].status, after[orderId].status)))
  }

  /** Every operation changes at most the one order it names, and only by a saga move. */
  lemma OperationsMoveOneOrder(b: Books, s: Ledger, orderId: string, skuId: int, quantity: int, amount: real,
                               returnQuantity: int, lock1: bool, lock2: bool, paymentOk: bool,
                               compensationSent: bool, traceId: string, pub: Publication, brokerEnabled: bool, now: int)
    ensures OneOrderMoves(b.orders, SubmitSpec(b.orders, s, orderId, skuId, quantity, amount, traceId, lock1, lock2,
                                               now).orders, orderId)
    ensures OneOrderMoves(b.orders, PaySpec(b, orderId, lock1, paymentOk, traceId, pub, brokerEnabled).books.orders,
                          orderId)
    ensures OneOrderMoves(b.orders, CancelSpec(b, orderId, lock1, compensationSent, traceId, pub,
                                               brokerEnabled).books.orders, orderId)
    ensures OneOrderMoves(b.orders, ReturnSpec(b, orderId, returnQuantity, lock1, traceId, pub,
                                               brokerEnabled).books.orders, orderId)
  {
  }

  /** No order in the table is PENDING. */
  predicate NoPending(orders: map<string, Order>)
  {
    forall id :: id in orders ==> orders[id].status != Pending
  }

  /**
   * PENDING never outlives `submitOrder`: the new order ends STOCK_DEDUCTED
   * or is rolled back, and no other operation moves an order to PENDING. A
   * cancellation from PENDING therefore needs an order written by something
   * other than the saga.
   */
  lemma NoOrderStaysPending(b: Books, s: Ledger, orderId: string, skuId: int, quantity: int, amount: real,
                            returnQuantity: int, lock1: bool, lock2: bool, paymentOk: bool,
                            compensationSent: bool, traceId: string, pub: Publication, brokerEnabled: bool, now: int)
    requires NoPending(b.orders)
    ensures NoPending(SubmitSpec(b.orders, s, orderId, skuId, quantity, amount, traceId, lock1, lock2, now).orders)
    ensures NoPending(PaySpec(b, orderId, lock1, paymentOk, traceId, pub, brokerEnabled).books.orders)
    ensures NoPending(CancelSpec(b, orderId, lock1, compensationSent, traceId, pub, brokerEnabled).books.orders)
    ensures NoPending(ReturnSpec(b, orderId, returnQuantity, lock1, traceId, pub, brokerEnabled).books.orders)
  {
  }

  /** CANCELLED, RETURNED and SHIPPED orders are never changed by any operation. */
  lemma FinalStatusesStay(b: Books, s: Ledger, orderId: string, skuId: int, quantity: int, amount: real,
                          returnQuantity: int, lock1: bool, lock2: bool, paymentOk: bool,
                          compensationSent: bool, traceId: string, pub: Publication, brokerEnabled: bool, now: int)
    requires orderId in b.orders && b.orders[orderId].status in {Cancelled, Returned, Shipped}
    ensures SubmitSpec(b.orders, s, orderId, skuId, quantity, amount, traceId, lock1, lock2, now).orders == b.orders
    ensures PaySpec(b, orderId, lock1, paymentOk, traceId, pub, brokerEnabled).books == b
    ensures CancelSpec(b, orderId, lock1, compensationSent, traceId, pub, brokerEnabled).books == b
    ensures ReturnSpec(b, orderId, returnQuantity, lock1, traceId, pub, brokerEnabled).books == b
  {
  }

  // ----- Behaviours of the code as written ------------------------------------

  /**
   * Payment may be retried from PAYMENT_FAILED, and nothing deducts the stock
   * again: submit, a refused payment, the consumer applying its compensation
   * and an accepted retry leave the order PAID with the SKU's stock back at
   * its level before the order.
   */
  lemma PaidAfterCompensation(orders: map<string, Order>, outlet: Pub.Outlet, s: Ledger, orderId: string, skuId: int,
                              quantity: int, amount: real, traceId: string, pub1: Publication, pub2: Publication,
                              brokerEnabled: bool, t1: int, t2: int)
    requires CacheCoherent(s) && skuId in s.rows && s.rows[skuId].availableStock >= quantity
    requires orderId !in orders
    requires !Marked(s.idemOn, s.marks, orderId, StockDeduct) && !Marked(s.idemOn, s.marks, orderId, StockCompensate)
    requires pub1.messageId !in outlet.deliveries
    ensures var sub := SubmitSpec(orders, s, orderId, skuId, quantity, amount, traceId, true, true, t1);
            var pay1 := PaySpec(Books(sub.orders, outlet), orderId, true, false, traceId, pub1, brokerEnabled);
            var event := pay1.books.outlet.deliveries[pub1.messageId].content.compensation;
            var c := CC.Consume(sub.ledger, pay1.books.outlet.deliveries, event, pub1.messageId, true, t2);
            var pay2 := PaySpec(Books(pay1.books.orders, pay1.books.outlet.(deliveries := c.deliveries)), orderId,
                                true, true, traceId, pub2, brokerEnabled);
            && pay1.result.Ok? && pay1.result.value.status == PaymentFailed
            && c.outcome == Pass
            && pay2.result.Ok? && pay2.result.value.status == Paid
            && c.ledger.rows[skuId].availableStock == s.rows[skuId].availableStock
  {
    var sub := SubmitSpec(orders, s, orderId, skuId, quantity, amount, traceId, true, true, t1);
    CoherentDeductSucceeds(s, skuId, quantity, orderId, traceId, t1);
    var pay1 := PaySpec(Books(sub.orders, outlet), orderId, true, false, traceId, pub1, brokerEnabled);
    TriggerRecordsOneCompensation(outlet, orderId, skuId, quantity, PaymentFailedReason, traceId, pub1, brokerEnabled);
    var event := pay1.books.outlet.deliveries[pub1.messageId].content.compensation;
    assert event.skuId == skuId && event.quantity == quantity && event.businessId == orderId;
    DeductThenCompensateRestores(s, skuId, quantity, orderId, orderId, PaymentFailedReason, traceId, t1, t2);
  }

  /**
   * Cancelling a PENDING order publishes a compensation for its whole
   * quantity although the saga deducted nothing for it, and consuming that
   * event raises the SKU's stock by that quantity.
   */
  lemma CancelPendingCompensatesUndeducted(orders: map<string, Order>, outlet: Pub.Outlet, s: Ledger,
                                           orderId: string, traceId: string, pub: Publication,
                                           brokerEnabled: bool, now: int)
    requires orderId in orders && orders[orderId].status == Pending
    requires CacheCoherent(s) && orders[orderId].skuId in s.rows
    requires !Marked(s.idemOn, s.marks, orderId, StockCompensate)
    requires pub.messageId !in outlet.deliveries
    ensures var o := orders[orderId];
            var r := CancelSpec(Books(orders, outlet), orderId, true, false, traceId, pub, brokerEnabled);
            var event := r.books.outlet.deliveries[pub.messageId].content.compensation;
            var c := CC.Consume(s, r.books.outlet.deliveries, event, pub.messageId, true, now);
            && r.outcome == Pass && r.books.orders[orderId].status == Cancelled
            && c.outcome == Pass
            && c.ledger.rows[o.skuId].availableStock == s.rows[o.skuId].availableStock + o.quantity
  {
    var o := orders[orderId];
    TriggerRecordsOneCompensation(outlet, orderId, o.skuId, o.quantity, OrderCancelledReason, traceId, pub,
                                  brokerEnabled);
    var r := CancelSpec(Books(orders, outlet), orderId, true, false, traceId, pub, brokerEnabled);
    var event := r.books.outlet.deliveries[pub.messageId].content.compensation;
    assert event.skuId == o.skuId && event.quantity == o.quantity && event.businessId == orderId;
    CompensateApplied(s, o.skuId, o.quantity, orderId, OrderCancelledReason, traceId, true, now);
  }

  /** A deduction sets no mark but its own, so every other key stays unmarked. */
  lemma DeductMarksNothingElse(s: Ledger, skuId: int, quantity: int, businessId: string, traceId: string,
                               lockAcquired: bool, now: int, other: string, operationType: string)
    requires !Marked(s.idemOn, s.marks, other, operationType)
    requires BuildKey(other, operationType) != BuildKey(businessId, StockDeduct)
    ensures var t := DeductSpec(s, skuId, quantity, businessId, traceId, lockAcquired, now).after;
            !Marked(t.idemOn, t.marks, other, operationType)
  {
    DeductStepFacts(s, DeductCall(skuId, quantity, businessId, traceId, lockAcquired, now));
    if !Marked(s.idemOn, s.marks, businessId, StockDeduct) {
      DeductApplied(s, skuId, quantity, businessId, traceId, lockAcquired, now);
      DeductFailureChangesNoStock(s, skuId, quantity, businessId, traceId, lockAcquired, now);
    }
  }

  /**
   * A negative deduction for `a` raises the stock by its size, and a
   * deduction for `b` of everything then available empties the row; the
   * cache stays coherent and `a` is still free to be compensated.
   */
  lemma DrainAfterNegativeDeduct(s: Ledger, a: string, b: string, skuId: int, quantity: int, traceId: string,
                                 t1: int, t2: int)
    requires CacheCoherent(s) && skuId in s.rows && s.rows[skuId].availableStock >= 0
    requires quantity < 0 && a != b
    requires !Marked(s.idemOn, s.marks, a, StockDeduct) && !Marked(s.idemOn, s.marks, b, StockDeduct)
    requires !Marked(s.idemOn, s.marks, a, StockCompensate)
    ensures var rest := s.rows[skuId].availableStock - quantity;
            var r1 := DeductSpec(s, skuId, quantity, a, traceId, true, t1);
            var r2 := DeductSpec(r1.after, skuId, rest, b, traceId, true, t2);
            && r1.ok && skuId in r1.after.rows && r1.after.rows[skuId].availableStock == rest
            && r2.ok && skuId in r2.after.rows && r2.after.rows[skuId].availableStock == 0
            && CacheCoherent(r2.after) && !Marked(r2.after.idemOn, r2.after.marks, a, StockCompensate)
  {
    var rest := s.rows[skuId].availableStock - quantity;
    CoherentDeductSucceeds(s, skuId, quantity, a, traceId, t1);
    DeductApplied(s, skuId, quantity, a, traceId, true, t1);
    DeductKeepsCacheCoherent(s, skuId, quantity, a, traceId, true, t1);
    assert BuildKey(b, StockDeduct) != BuildKey(a, StockDeduct) by {
      if BuildKey(b, StockDeduct) == BuildKey(a, StockDeduct) {
        BuildKeyInjective(b, a, StockDeduct);
      }
    }
    DeductAndCompensateKeysDiffer(a, a);
    DeductAndCompensateKeysDiffer(b, a);
    DeductMarksNothingElse(s, skuId, quantity, a, traceId, true, t1, b, StockDeduct);
    DeductMarksNothingElse(s, skuId, quantity, a, traceId, true, t1, a, StockCompensate);
    var s1 := DeductSpec(s, skuId, quantity, a, traceId, true, t1).after;
    CoherentDeductSucceeds(s1, skuId, rest, b, traceId, t2);
    DeductApplied(s1, skuId, rest, b, traceId, true, t2);
    DeductKeepsCacheCoherent(s1, skuId, rest, b, traceId, true, t2);
    DeductMarksNothingElse(s1, skuId, rest, b, traceId, true, t2, a, StockCompensate);
  }

  /**
   * Nothing checks the sign of an order quantity, so stock can go below zero.
   * `sub1` submits order `a` with a negative quantity: it passes the deduct
   * guard and raises the stock. `sub2` submits order `b` for everything then
   * available. `pay` refuses the payment of `a`, which publishes a
   * compensation of that negative quantity; consuming it lowers the stock to
   * that quantity.
   */
  lemma NegativeOrderDrivesStockBelowZero(orders: map<string, Order>, outlet: Pub.Outlet, s: Ledger,
                                          a: string, b: string, skuId: int, quantity: int, amount: real,
                                          traceId: string, pub: Publication, brokerEnabled: bool,
                                          t1: int, t2: int, t3: int, sub1: Submitted, sub2: Submitted, pay: Reply)
    requires CacheCoherent(s) && skuId in s.rows && s.rows[skuId].availableStock >= 0
    requires quantity < 0 && a != b && a !in orders && b !in orders
    requires !Marked(s.idemOn, s.marks, a, StockDeduct) && !Marked(s.idemOn, s.marks, b, StockDeduct)
    requires !Marked(s.idemOn, s.marks, a, StockCompensate)
    requires pub.messageId !in outlet.deliveries
    requires sub1 == SubmitSpec(orders, s, a, skuId, quantity, amount, traceId, true, true, t1)
    requires sub2 == SubmitSpec(sub1.orders, sub1.ledger, b, skuId, s.rows[skuId].availableStock - quantity, amount,
                                traceId, true, true, t2)
    requires pay == PaySpec(Books(sub2.orders, outlet), a, true, false, traceId, pub, brokerEnabled)
    ensures && sub1.result.Ok? && sub1.result.value.status == StockDeducted
            && skuId in sub1.ledger.rows && sub1.ledger.rows[skuId].availableStock == s.rows[skuId].availableStock - quantity
            && sub2.result.Ok? && skuId in sub2.ledger.rows && sub2.ledger.rows[skuId].availableStock == 0
            && pay.result.Ok? && pay.result.value.status == PaymentFailed
            && pub.messageId in pay.books.outlet.deliveries
            && pay.books.outlet.deliveries[pub.messageId].content.Compensation?
            && var event := pay.books.outlet.deliveries[pub.messageId].content.compensation;
               var c := CC.Consume(sub2.ledger, pay.books.outlet.deliveries, event, pub.messageId, true, t3);
               && c.outcome == Pass
               && skuId in c.ledger.rows && c.ledger.rows[skuId].availableStock == quantity < 0
               && !NonNegative(c.ledger.rows)
  {
    var rest := s.rows[skuId].availableStock - quantity;
    DrainAfterNegativeDeduct(s, a, b, skuId, quantity, traceId, t1, t2);
    var r1 := DeductSpec(s, skuId, quantity, a, traceId, true, t1);
    var r2 := DeductSpec(r1.after, skuId, rest, b, traceId, true, t2);
    var oa := Order(a, skuId, quantity, amount, StockDeducted, traceId);
    var ob := Order(b, skuId, rest, amount, StockDeducted, traceId);
    assert sub1 == Submitted(Ok(oa), orders[a := oa], r1.after);
    assert sub2 == Submitted(Ok(ob), orders[a := oa][b := ob], r2.after);
    var outlet' := TriggerSpec(outlet, a, skuId, quantity, PaymentFailedReason, traceId, pub, brokerEnabled);
    assert pay.books.outlet == outlet' && pay.result == Ok(oa.(status := PaymentFailed));
    TriggerRecordsOneCompensation(outlet, a, skuId, quantity, PaymentFailedReason, traceId, pub, brokerEnabled);
    var event := outlet'.deliveries[pub.messageId].content.compensation;
    CoherentCompensateSucceeds(r2.after, skuId, quantity, a, PaymentFailedReason, event.traceId, t3);
    CompensateApplied(r2.after, skuId, quantity, a, PaymentFailedReason, event.traceId, true, t3);
  }

  /**
   * Every compensation of one order carries the order id as business id, so
   * with an idempotency store a second one (a repeated payment failure, a
   * later cancellation) is confirmed without giving stock back again.
   */
  lemma OrderCompensatedAtMostOnce(s: Ledger, deliveries: map<string, Ob.Delivery>,
                                   e1: Ev.OrderCompensationEvent, e2: Ev.OrderCompensationEvent,
                                   m1: string, m2: string, t1: int, t2: int)
    requires s.idemOn && e1.businessId == e2.businessId
    ensures var c1 := CC.Consume(s, deliveries, e1, m1, true, t1);
            var c2 := CC.Consume(c1.ledger, c1.deliveries, e2, m2, true, t2);
            c1.outcome.Pass? ==> c2.outcome == Pass && c2.ledger == c1.ledger
  {
    var step := CompensateSpec(s, e1.skuId, e1.quantity, e1.businessId, e1.compensationReason, e1.traceId, true, t1);
    if step.ok && !Marked(s.idemOn, s.marks, e1.businessId, StockCompensate) {
      assert Marked(step.after.idemOn, step.after.marks, e2.businessId, StockCompensate);
    }
  }

  // ----- The service ----------------------------------------------------------

  class OrderService {
    var orders: map<string, Order>
    const stock: StockService
    const publisher: Pub.OrderCompensationEventPublisher

    constructor (stock: StockService, publisher: Pub.OrderCompensationEventPublisher)
      ensures orders == map[] && this.stock == stock && this.publisher == publisher
    {
      orders := map[];
      this.stock := stock;
      this.publisher := publisher;
    }

    /** The order table with the outbox and the broker. */
    function Current(): Books
      reads this, publisher.outbox, publisher.broker
    {
      Books(orders, publisher.Current())
    }

    method TriggerCompensation(orderId: string, skuId: int, quantity: int, reason: string, traceId: string,
                               pub: Publication)
      modifies publisher.outbox, publisher.broker
      ensures publisher.Current()
              == TriggerSpec(old(publisher.Current()), orderId, skuId, quantity, reason, traceId, pub,
                             publisher.brokerEnabled)
    {
      var event := CompensationEvent(orderId, skuId, quantity, reason, traceId, pub.now);
      var stamped := publisher.PublishOrderCompensationEvent(event, pub.messageId, pub.now, pub.sendOk);
    }

    method SubmitOrder(orderId: string, skuId: int, quantity: int, amount: real, traceId: string,
                       createLock: bool, stockLock: bool, now: int) returns (r: Result<Order, SagaError>)
      modifies this, stock, stock.table, stock.idem
      ensures Submitted(r, orders, stock.Current())
              == SubmitSpec(old(orders), old(stock.Current()), orderId, skuId, quantity, amount, traceId,
                            createLock, stockLock, now)
    {
      if !createLock {
        return Err(LockBusy);
      }
      if orderId in orders {
        return Ok(orders[orderId]);
      }
      var savedOrders, savedRows, savedLog := orders, stock.table.rows, stock.log;
      var order := Order(orderId, skuId, quantity, amount, Pending, traceId);
      orders := orders[orderId := order];
      var ok := stock.DeductStock(skuId, quantity, orderId, traceId, stockLock, now);
      if !ok {
        orders := orders[orderId := order.(status := Cancelled)];
        // The error rolls the transaction back.
        orders := savedOrders;
        stock.RollbackTo(savedRows, savedLog);
        return Err(StockDeductFailed);
      }
      order := order.(status := StockDeducted);
      orders := orders[orderId := order];
      r := Ok(order);
    }

    method PayOrder(orderId: string, lockAcquired: bool, paymentOk: bool, traceId: string, pub: Publication)
      returns (r: Result<Order, SagaError>)
      modifies this, publisher.outbox, publisher.broker
      ensures Reply(r, Current()) == PaySpec(old(Current()), orderId, lockAcquired, paymentOk, traceId, pub,
                                             publisher.brokerEnabled)
    {
      if !lockAcquired {
        return Err(LockBusy);
      }
      if orderId !in orders {
        return Err(OrderMissing);
      }
      var order := orders[orderId];
      if order.status != StockDeducted && order.status != PaymentFailed {
        return Err(StatusNotAllowed(order.status));
      }
      if paymentOk {
        order := order.(status := Paid);
        orders := orders[orderId := order];
        return Ok(order);
      }
      TriggerCompensation(orderId, order.skuId, order.quantity, PaymentFailedReason, traceId, pub);
      order := order.(status := PaymentFailed);
      orders := orders[orderId := order];
      r := Ok(order);
    }

    method CancelOrder(orderId: string, lockAcquired: bool, compensationSent: bool, traceId: string,
                       pub: Publication) returns (r: Outcome<SagaError>)
      modifies this, publisher.outbox, publisher.broker
      ensures Done(r, Current()) == CancelSpec(old(Current()), orderId, lockAcquired, compensationSent, traceId, pub,
                                               publisher.brokerEnabled)
    {
      if !lockAcquired {
        return Fail(LockBusy);
      }
      if orderId !in orders {
        return Fail(OrderMissing);
      }
      var order := orders[orderId];
      if order.status != Pending && order.status != Paid {
        return Fail(StatusNotAllowed(order.status));
      }
      if compensationSent {
        return Pass;
      }
      TriggerCompensation(orderId, order.skuId, order.quantity, OrderCancelledReason, traceId, pub);
      orders := orders[orderId := order.(status := Cancelled)];
      r := Pass;
    }

    method ReturnOrder(orderId: string, returnQuantity: int, lockAcquired: bool, traceId: string,
                       pub: Publication) returns (r: Outcome<SagaError>)
      modifies this, publisher.outbox, publisher.broker
      ensures Done(r, Current()) == ReturnSpec(old(Current()), orderId, returnQuantity, lockAcquired, traceId, pub,
                                               publisher.brokerEnabled)
    {
      if !lockAcquired {
        return Fail(LockBusy);
      }
      if orderId !in orders {
        return Fail(OrderMissing);
      }
      var order := orders[orderId];
      if order.status != Delivered {
        return Fail(StatusNotAllowed(order.status));
      }
      if returnQuantity <= 0 || returnQuantity > order.quantity {
        return Fail(BadReturnQuantity);
      }
      TriggerCompensation(orderId, order.skuId, returnQuantity, OrderReturnedReason, traceId, pub);
      orders := orders[orderId := order.(status := Returned)];
      r := Pass;
    }
  }
}
