/**
 * The two events carried over the broker and stored, serialised, in the
 * outbox. Serialisation itself is abstract: an outbox record holds the event
 * value it was written from.
 */
module Events {
  import opened Wrappers

  /** Emitted after a stock deduction; published by the stock event publisher. */
  datatype StockDeductedEvent = StockDeductedEvent(
    messageId: Option<string>,
    businessId: string,
    skuId: int,
    quantity: int,
    stockBefore: int,
    stockAfter: int,
    traceId: string,
    timestamp: Option<int>)

  /** Asks the consumer to give `quantity` units of `skuId` back for order `businessId`. */
  datatype OrderCompensationEvent = OrderCompensationEvent(
    messageId: Option<string>,
    businessId: string,
    skuId: int,
    quantity: int,
    compensationReason: string,
    traceId: string,
    timestamp: Option<int>)

  /** The content of an outbox record and the body of a broker message. */
  datatype Event =
    | StockDeducted(deducted: StockDeductedEvent)
    | Compensation(compensation: OrderCompensationEvent)
}
