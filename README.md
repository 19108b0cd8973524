# Stock ledger, outbox and order saga — a Dafny model

This project models the core of a small e-commerce back end. It has three parts.

- **The stock ledger engine.** It deducts and gives back stock for one SKU at a time.
  - A key-value store of idempotency marks makes each call take effect at most once per business id.
  - A per-SKU lock serialises calls.
  - Each write is a version-guarded conditional `UPDATE`, so a stale read never applies.
  - A read-through cache sits in front of the stock table.
  - Every attempt, applied or refused, is appended to an audit log.
- **The outbox.** Each message is saved as a PENDING delivery record before it is handed to the broker. A scheduled task walks the records that are due again. A compensation listener gives stock back and then confirms the record.
- **The order saga.** An order is submitted, which deducts its stock. It can then be paid, cancelled or returned. A failed payment, a cancellation or a return publishes a compensation event through the outbox, and the listener applies it to the stock.

## How the model is built

Each source class whose state changes becomes a Dafny `class`: `IdempotentUtil`, `StockTable`, `StockService`, `MessageDeliveryService`, `MessageRetryTask`, the two publishers, the consumer and `OrderService`. These classes have `modifies` frames.

Each class method is proved to agree with a pure function on a value of its state:

- `StockEngine.Ledger`, the engine's state, with `DeductSpec` and `CompensateSpec`;
- the outbox map, with `MarkSent`, `MarkConfirmed`, `MarkFailedAndRetry` and `RetryTask.Tick`;
- `Publishers.Outlet`, the outbox plus the broker's sent messages, with `Publish`;
- `OrderSaga.Books`, the order table plus the outlet, with `SubmitSpec`, `PaySpec`, `CancelSpec` and `ReturnSpec`.

A method's `ensures` is exactly that agreement. The properties are lemmas about the functions. They cover:

- the single-call outcomes;
- the effect of two calls;
- what holds after any sequence of calls: conservation, non-negativity and at-most-once application per business id;
- the status machine.

Everything non-deterministic is an explicit input:

- whether a lock was acquired;
- the clock, as `now`;
- fresh UUIDs, passed as `Publication.messageId` or as an order id;
- the payment result;
- whether a broker send goes through;
- which retry-task markings throw;
- whether the retry query throws;
- the `hasCompensationSent` answer;
- whether a key-value store, a cache or a broker is configured.

### Where the code and the design differ

Where the code and its design notes disagree, the model follows the code and proves what the code does, with one exception: the outbox is keyed by message id, as the design intends, and not looked up by the primary key the code's marks use (see the outbox line under "## Left out").

- **The retry task never resends.** For each due record it only calls `markAsSent`. A failure of that call does not count as a delivery, so `markAsFailedAndRetry` never reaches its FAILED branch (`RetryTask.TicksNeverFail`). A record that never gets confirmed stays SENT with its count at the maximum. From then on the retry query no longer returns it (`RetryTask.UnconfirmedRecordExhaustsRetries`). A record whose marking always fails never progresses (`RetryTask.AlwaysFailingRecordNeverProgresses`).
- **`markAsFailedAndRetry` does not increment the delivery count.** Successive failures therefore get the same backoff.
- **`markAsSent` does not move `nextRetryTime`.** A record it marks is due again at once (`Outbox.SentRecordIsDueAgain`).
- **A version conflict is not retried.** `deductStock` answers false, and so does `compensateStock`.
- **`payOrder` accepts an order in PAYMENT_FAILED.** After a refused payment whose compensation was applied, a retried payment makes the order PAID. Its stock is not deducted again (`OrderSaga.PaidAfterCompensation`).
- **Order quantities are never checked for sign.** The order endpoint only checks that a quantity is present (`OrderController.java:81-84`). A negative quantity passes the deduct guard, and its compensation can drive stock below zero (`OrderSaga.NegativeOrderDrivesStockBelowZero`).
- **`cancelOrder` accepts a PENDING order and publishes a compensation for its full quantity.** Nothing was deducted for that order (`OrderSaga.CancelPendingCompensatesUndeducted`). The saga itself never leaves an order PENDING (`OrderSaga.NoOrderStaysPending`).

## Model

Source paths are relative to the repository root.

| member | source | states |
|---|---|---|
| Idempotency.BuildKeyInjective | src/main/java/org/example/util/IdempotentUtil.java:106-108 | Within one operation type, the mark key determines the business id. |
| Idempotency.KeysOfDistinctTypesDiffer | src/main/java/org/example/util/IdempotentUtil.java:106-108 | Keys of two different colon-free operation types never coincide, whatever the business ids. |
| Idempotency.DeductAndCompensateKeysDiffer | src/main/java/org/example/util/IdempotentUtil.java:106-108 | A STOCK_DEDUCT mark and a STOCK_COMPENSATE mark never share a key, so each kind of operation has its own at-most-once gate. |
| Idempotency.Mark | src/main/java/org/example/util/IdempotentUtil.java:52-77 | Without a store it reports success and records nothing. With a store it succeeds exactly when the key was absent. On success it sets the key to the time. On refusal the store is unchanged. With a store, afterwards the key is marked. |
| Idempotency.MarkTwice | src/test/java/org/example/StockServiceIntegrationTest.java:189-201 | Marking a fresh key succeeds and marks it; marking it again is refused and changes nothing. |
| Idempotency.IdempotentUtil.IsOperated | src/main/java/org/example/util/IdempotentUtil.java:36-42 | True exactly when a store is configured and holds the key. |
| Idempotency.IdempotentUtil.MarkAsOperated | src/main/java/org/example/util/IdempotentUtil.java:52-57 | The answer and the new store are those of `Mark`. |
| Idempotency.IdempotentUtil.MarkAsOperatedFor | src/main/java/org/example/util/IdempotentUtil.java:67-77 | With a store: an atomic set-if-absent that answers whether it set the key. Without a store: an error, and nothing changes. |
| Idempotency.IdempotentUtil.ClearOperated | src/main/java/org/example/util/IdempotentUtil.java:85-88 | Removes exactly the mark's key, after which it is unmarked. Without a store: an error. |
| Idempotency.IdempotentUtil.GetOperatedTime | src/main/java/org/example/util/IdempotentUtil.java:97-101 | The stored time when the key is present, otherwise none. Without a store: an error. |
| StockLedger.DeductUpdate | src/main/java/org/example/mapper/StockMapper.java:21-34 | Affects one row exactly when the row exists, its version matches and at least `quantity` is available. Then available stock drops by `quantity`, stays non-negative and the version goes up by one. Nothing else changes. |
| StockLedger.CompensateUpdate | src/main/java/org/example/mapper/StockMapper.java:44-56 | Affects one row exactly when the row exists and its version matches. Then available stock rises by `quantity` and the version goes up by one. Nothing else changes. |
| StockLedger.DeductKeepsNonNegative | src/main/java/org/example/mapper/StockMapper.java:26-28 | The deduct guard keeps a non-negative table non-negative, whatever the arguments. |
| StockLedger.CompensateCanExceedTotal | src/main/java/org/example/mapper/StockMapper.java:44-51 | The compensate guard ignores the total: an applied compensation can push available stock past it. |
| StockLedger.StockTable.SelectById | src/main/java/org/example/service/impl/StockServiceImpl.java:236 | The row with that primary key, or none. |
| StockLedger.StockTable.DeductStockWithOptimisticLock | src/main/java/org/example/mapper/StockMapper.java:21-34 | The rows affected and the new table are those of `DeductUpdate`. |
| StockLedger.StockTable.CompensateStockWithOptimisticLock | src/main/java/org/example/mapper/StockMapper.java:44-56 | The rows affected and the new table are those of `CompensateUpdate`. |
| StockEngine.DeductAndCompensateLocksDiffer | src/main/java/org/example/service/impl/StockServiceImpl.java:77-165 | A deduction and a compensation of any SKUs lock different keys, so only the version guard orders them. |
| StockEngine.ReadStock | src/main/java/org/example/service/impl/StockServiceImpl.java:222-243 | Changes only the cache. Keeps a coherent cache coherent. On a coherent cache it returns exactly the stored row, or none. |
| StockEngine.Invalidate | src/main/java/org/example/service/impl/StockServiceImpl.java:245-253 | Changes only the cache. With a cache configured, the SKU's entry is gone. Every remaining entry is unchanged. |
| StockEngine.StockService.GetStockWithCache | src/main/java/org/example/service/impl/StockServiceImpl.java:222-243 | The row returned and the new state are those of `ReadStock`. |
| StockEngine.StockService.RefreshStockCache | src/main/java/org/example/service/impl/StockServiceImpl.java:245-253 | The new state is that of `Invalidate`. |
| StockEngine.StockService.RecordOperationLog | src/main/java/org/example/service/impl/StockServiceImpl.java:280-303 | Appends exactly one entry with the given fields. Nothing else changes. |
| StockEngine.StockService.DeductStock | src/main/java/org/example/service/impl/StockServiceImpl.java:64-151 | The answer and the new engine state (table, marks, cache, log) are those of `DeductSpec`. The lemmas below state its meaning. |
| StockEngine.StockService.CompensateStock | src/main/java/org/example/service/impl/StockServiceImpl.java:153-220 | The answer and the new engine state are those of `CompensateSpec`. |
| StockEngine.StockService.RollbackTo | src/main/java/org/example/business/OrderService.java:61-62 | A rolled-back transaction restores the stock table and the audit log. The cache and the marks stay as they are. |
| StockProperties.DeductReplayIsNoop | src/main/java/org/example/service/impl/StockServiceImpl.java:69-73 | An already-marked deduction answers true and changes nothing. |
| StockProperties.DeductWithoutLock | src/main/java/org/example/service/impl/StockServiceImpl.java:77-83 | An unmarked deduction without the lock answers false and changes nothing. |
| StockProperties.DeductMissingRow | src/main/java/org/example/service/impl/StockServiceImpl.java:87-93 | A missing row answers false and only appends a FAILED entry whose before and after snapshots are both 0. |
| StockProperties.DeductInsufficient | src/main/java/org/example/service/impl/StockServiceImpl.java:96-103 | Too little stock answers false. Table and marks are unchanged, and exactly one FAILED entry records the available amount. |
| StockProperties.DeductFailureChangesNoStock | src/main/java/org/example/service/impl/StockServiceImpl.java:77-121 | A deduction that answers false leaves table and marks unchanged and appends at most one entry, which is FAILED. |
| StockProperties.DeductApplied | src/main/java/org/example/service/impl/StockServiceImpl.java:105-138 | An unmarked deduction that answers true did five things: it had the lock; it lowered exactly that row by `quantity` and raised its version; it appended one SUCCESS entry; it set the mark; it dropped the cache entry. |
| StockProperties.DeductLogsTrueSnapshot | src/main/java/org/example/service/impl/StockServiceImpl.java:123-130 | On a coherent cache, an applied deduction logs the stored stock as its before-snapshot. |
| StockProperties.CompensateReplayIsNoop | src/main/java/org/example/service/impl/StockServiceImpl.java:158-162 | An already-marked compensation answers true and changes nothing. |
| StockProperties.CompensateMissingRow | src/main/java/org/example/service/impl/StockServiceImpl.java:174-178 | A missing row answers false and, unlike a deduction, logs nothing. |
| StockProperties.CompensateApplied | src/main/java/org/example/service/impl/StockServiceImpl.java:198-211 | An unmarked compensation that answers true had the lock. It raised exactly that row by `quantity` and its version by one, logged one SUCCESS entry with the SKU, quantity and reason, set the mark (without a store, the marks are unchanged) and dropped the cache entry. |
| StockProperties.CompensateFailureChangesNoStock | src/main/java/org/example/service/impl/StockServiceImpl.java:165-196 | A compensation that answers false leaves the table and the marks unchanged. |
| StockProperties.DeductKeepsCacheCoherent | src/main/java/org/example/service/impl/StockServiceImpl.java:87-136 | A deduction keeps the cache coherent with the table. |
| StockProperties.CompensateKeepsCacheCoherent | src/main/java/org/example/service/impl/StockServiceImpl.java:174-209 | A compensation keeps the cache coherent with the table. |
| StockProperties.CoherentCompensateSucceeds | src/main/java/org/example/service/impl/StockServiceImpl.java:174-211 | With a coherent cache, the lock and an existing row, an unmarked compensation always answers true: no bound can refuse it. |
| StockProperties.CoherentDeductSucceeds | src/main/java/org/example/service/impl/StockServiceImpl.java:96-121 | With a coherent cache, the lock and enough stock, an unmarked deduction always answers true. |
| StockProperties.StaleCacheBlocksDeduct | src/main/java/org/example/service/impl/StockServiceImpl.java:87-121 | A stale cached row can make a deduction fail on the version guard even though the table has enough stock. |
| StockProperties.DeductTwiceAppliesOnce | src/main/java/org/example/service/impl/StockServiceImpl.java:69-73 | With a store, a deduction repeated after a successful one answers true and changes nothing. |
| StockProperties.NoStoreDeductsTwice | src/main/java/org/example/util/IdempotentUtil.java:36-39 | Without a store, the same business id is deducted twice. |
| StockProperties.DeductThenCompensateRestores | src/main/java/org/example/service/impl/StockServiceImpl.java:153-220 | A deduction followed by a compensation of the same quantity both succeed and restore the SKU's available stock. |
| StockProperties.Conservation | src/test/java/org/example/StockServiceIntegrationTest.java:135-139 | After any sequence of calls, the log only grows. Each row's available stock equals its starting value plus the net of the applied entries appended for it. |
| StockProperties.NeverNegative | src/test/java/org/example/StockServiceIntegrationTest.java:132-133 | No sequence of calls in which every compensation quantity is non-negative drives any available stock below zero. The source does not enforce that condition: see `OrderSaga.NegativeOrderDrivesStockBelowZero`. |
| StockProperties.AtMostOncePerBusinessId | src/main/java/org/example/service/impl/StockServiceImpl.java:69-133 | With a store, after any sequence of calls, every applied entry's business id is marked. No two applied entries of one operation share a business id. |
| StockProperties.DeductionsDropByAppliedCount | src/test/java/org/example/StockServiceIntegrationTest.java:121-139 | After any run of equal-quantity deductions, stock is non-negative. It dropped by the quantity times the number of applied deductions of that SKU. |
| Outbox.BackoffDoubles | src/main/java/org/example/service/impl/MessageDeliveryServiceImpl.java:93-97 | The retry delay starts at 30 seconds and doubles with each delivery. |
| Outbox.AsFailedAndRetry | src/main/java/org/example/service/impl/MessageDeliveryServiceImpl.java:81-104 | Records the error and leaves the count unchanged. At or past the maximum: FAILED with the retry time kept. Below it: same status, retry time `now` plus the backoff. Nothing else changes. |
| Outbox.PendingRetry | src/main/java/org/example/service/impl/MessageDeliveryServiceImpl.java:106-114 | Exactly the records that are PENDING or SENT, due by `now` and below their maximum. |
| Outbox.MarksTouchOneRecord | src/main/java/org/example/service/impl/MessageDeliveryServiceImpl.java:56-104 | Each mark ignores an unknown id. Each keeps the set of records and every other record. None changes what a record carries. |
| Outbox.MarksIgnoreStatus | src/main/java/org/example/service/impl/MessageDeliveryServiceImpl.java:56-79 | `markAsSent` and `markAsConfirmed` apply from any status. A CONFIRMED record marked SENT is due again. |
| Outbox.FreshRecordIsDue | src/main/java/org/example/service/impl/MessageDeliveryServiceImpl.java:35-54 | A saved record is due exactly from its save time on. |
| Outbox.SentRecordIsDueAgain | src/main/java/org/example/service/impl/MessageDeliveryServiceImpl.java:56-67 | A due record marked SENT stays due unless that delivery used its last retry. |
| Outbox.FailedAttemptBacksOff | src/main/java/org/example/service/impl/MessageDeliveryServiceImpl.java:81-104 | A due record whose marking failed keeps its status and count. It is due again exactly once the backoff has passed. |
| Outbox.FailedOnlyAtMaximum | src/main/java/org/example/service/impl/MessageDeliveryServiceImpl.java:89-92 | A record becomes FAILED exactly when its count has reached the maximum. |
| Outbox.MessageDeliveryService.SavePendingMessage | src/main/java/org/example/service/impl/MessageDeliveryServiceImpl.java:35-54 | A fresh id inserts a PENDING record with count 0, five retries and retry time `now`, and returns it. A repeated id is refused and nothing changes. |
| Outbox.MessageDeliveryService.MarkAsSent | src/main/java/org/example/service/impl/MessageDeliveryServiceImpl.java:56-67 | The new outbox is `MarkSent` of the old one. |
| Outbox.MessageDeliveryService.MarkAsConfirmed | src/main/java/org/example/service/impl/MessageDeliveryServiceImpl.java:69-79 | The new outbox is `MarkConfirmed` of the old one. |
| Outbox.MessageDeliveryService.MarkAsFailedAndRetry | src/main/java/org/example/service/impl/MessageDeliveryServiceImpl.java:81-104 | The new outbox is `MarkFailedAndRetry` of the old one. |
| Outbox.MessageDeliveryService.GetPendingRetryMessages | src/main/java/org/example/service/impl/MessageDeliveryServiceImpl.java:106-114 | Exactly the ids of the records the retry query matches. |
| RetryTask.Tick | src/main/java/org/example/task/MessageRetryTask.java:51-70 | Keeps the set of records. Each record is handled on its own: due ones are marked SENT, or marked failed when their marking throws. |
| RetryTask.TickTouchesOnlyDueRecords | src/main/java/org/example/task/MessageRetryTask.java:43-70 | A tick leaves records that are not due unchanged. A due record is marked SENT with one more delivery, or, if its marking failed, keeps status and count and gets the error and the backoff. No record becomes or stops being FAILED or CONFIRMED. |
| RetryTask.EmptyQueryTickIsNoop | src/main/java/org/example/task/MessageRetryTask.java:45-48 | A tick whose query returns nothing changes nothing. |
| RetryTask.TicksNeverFail | src/main/java/org/example/task/MessageRetryTask.java:51-70 | No run of ticks makes a record FAILED, and a CONFIRMED record is never touched. |
| RetryTask.TicksBoundDeliveries | src/main/java/org/example/task/MessageRetryTask.java:51-70 | Over any run of ticks, a record's count never decreases and never exceeds its maximum. |
| RetryTask.UnconfirmedRecordExhaustsRetries | src/main/java/org/example/task/MessageRetryTask.java:51-70 | Always-successful ticks raise the count by one per tick up to the maximum, without moving the retry time. The record ends SENT and is never due again. |
| RetryTask.AlwaysFailingRecordNeverProgresses | src/main/java/org/example/task/MessageRetryTask.java:64-69 | A record whose marking always fails keeps its status and count for ever. |
| RetryTask.MessageRetryTask.RetryFailedMessages | src/main/java/org/example/task/MessageRetryTask.java:37-77 | A loop over the due records whose result is `Tick` of the old outbox. When the query throws, nothing changes. |
| Publishers.Broker.Send | src/main/java/org/example/mq/StockEventPublisher.java:69-79 | Appends exactly the one message to what the broker has accepted. |
| Publishers.PublishSavesBeforeSend | src/main/java/org/example/mq/StockEventPublisher.java:49-91 | A publish keeps every sent message backed by a record with its id and content. It sends at most one message, only after saving a fresh record whose id is the header and whose content is the body. A fresh id is always saved, whether or not the send goes through. An existing id changes nothing. Without a broker nothing is sent. |
| Publishers.MarksKeepBacked | src/main/java/org/example/service/impl/MessageDeliveryServiceImpl.java:56-104 | The mark operations keep every sent message backed by its record. |
| Publishers.CompensationIsRecorded | src/main/java/org/example/mq/OrderCompensationEventPublisher.java:41-82 | A compensation under a fresh id adds exactly one PENDING ORDER_COMPENSATION record for the compensation queue, holding the event stamped with that id. |
| Publishers.StockEventPublisher.PublishStockDeductedEvent | src/main/java/org/example/mq/StockEventPublisher.java:49-91 | Returns the event stamped with the id and time. The new outbox and broker are those of `PublishStockDeducted`. |
| Publishers.OrderCompensationEventPublisher.PublishOrderCompensationEvent | src/main/java/org/example/mq/OrderCompensationEventPublisher.java:41-82 | Returns the event stamped with the id and time. The new outbox and broker are those of `PublishCompensation`. |
| CompensationConsumer.ConfirmsOnlyAppliedCompensations | src/main/java/org/example/mq/OrderCompensationEventConsumer.java:45-94 | The engine compensates exactly the event's SKU, quantity, business id and reason. The record is confirmed exactly when that answered true. Otherwise an error is raised and the outbox is unchanged. |
| CompensationConsumer.RedeliveryConfirmsWithoutSecondChange | src/main/java/org/example/mq/OrderCompensationEventConsumer.java:64-83 | With a store, redelivering an applied compensation succeeds again and changes nothing. |
| CompensationConsumer.OrderCompensationEventConsumer.ConsumeOrderCompensationEvent | src/main/java/org/example/mq/OrderCompensationEventConsumer.java:45-94 | The outcome, the new engine state and the new outbox are those of `Consume`. |
| OrderSaga.TriggerRecordsOneCompensation | src/main/java/org/example/business/OrderService.java:272-303 | Under a fresh id, exactly one PENDING record is added, keeping all others (`RecordsCompensation`). Its event gives back `quantity` of `skuId` under the order id with the given reason. |
| OrderSaga.SubmitErrorRollsBack | src/main/java/org/example/business/OrderService.java:61-154 | An error leaves orders, stock, log and marks as they were. Without the create lock, nothing at all changes. The deduct-failure error happens exactly when a new order's deduction answered false. |
| OrderSaga.SubmitDeductsUnderOrderId | src/main/java/org/example/business/OrderService.java:91-126 | A new order is stored STOCK_DEDUCTED exactly on success. If the deduction was not a replay, the SKU dropped by the quantity and a SUCCESS entry under the order id was logged. |
| OrderSaga.PayOutcomes | src/main/java/org/example/business/OrderService.java:172-256 | An error happens exactly without the lock, for a missing order, or for a status outside STOCK_DEDUCTED and PAYMENT_FAILED; it changes nothing. A successful payment gives PAID and publishes nothing. A failed one gives PAYMENT_FAILED; under a fresh message id, it adds exactly one outbox record, a PAYMENT_FAILED compensation of the order's full quantity. |
| OrderSaga.CancelOutcomes | src/main/java/org/example/business/OrderService.java:398-459 | An error happens exactly without the lock, for a missing order, or for a status outside PENDING and PAID; it changes nothing. If a compensation was already sent, nothing changes. Otherwise the order becomes CANCELLED; under a fresh message id, exactly one outbox record is added, an ORDER_CANCELLED compensation of the full quantity. |
| OrderSaga.ReturnOutcomes | src/main/java/org/example/business/OrderService.java:469-536 | Succeeds exactly for a DELIVERED order under the lock with 0 < returnQuantity <= its quantity. Then it becomes RETURNED; under a fresh message id, exactly one outbox record is added, an ORDER_RETURNED compensation of returnQuantity. On error nothing changes. |
| OrderSaga.OperationsMoveOneOrder | src/main/java/org/example/business/OrderService.java:61-536 | Each operation changes at most the order it names. It either inserts that order as STOCK_DEDUCTED, or changes only its status by an allowed move. |
| OrderSaga.NoOrderStaysPending | src/main/java/org/example/business/OrderService.java:91-126 | If no order is PENDING, none is after any operation. |
| OrderSaga.FinalStatusesStay | src/main/java/org/example/business/OrderService.java:61-536 | No operation changes a CANCELLED, RETURNED or SHIPPED order. |
| OrderSaga.PaidAfterCompensation | src/main/java/org/example/business/OrderService.java:189-192 | submit → refused payment → compensation consumed → accepted payment ends PAID, with the stock back at its level before the order. |
| OrderSaga.CancelPendingCompensatesUndeducted | src/main/java/org/example/business/OrderService.java:415-447 | Cancelling a PENDING order publishes a full-quantity compensation. Consuming it raises the stock by that quantity, though nothing was deducted. |
| OrderSaga.NegativeOrderDrivesStockBelowZero | src/main/java/org/example/business/OrderService.java:61-256 | Nothing checks the sign of an order quantity. An order with a negative quantity is stored STOCK_DEDUCTED and raises the stock. A second order then takes all of it. A refused payment of the first order publishes a compensation of the negative quantity. Consuming that compensation leaves the stock at that negative quantity, so `NonNegative` fails. |
| OrderSaga.OrderCompensatedAtMostOnce | src/main/java/org/example/business/OrderService.java:279-286 | Compensations carry the order id as business id. With a store, a second compensation of one order succeeds without changing stock. |
| OrderSaga.OrderService.TriggerCompensation | src/main/java/org/example/business/OrderService.java:272-303 | The new outbox and broker are those of `TriggerSpec`. |
| OrderSaga.OrderService.SubmitOrder | src/main/java/org/example/business/OrderService.java:61-154 | The result, the new order table and the new engine state are those of `SubmitSpec`. |
| OrderSaga.OrderService.PayOrder | src/main/java/org/example/business/OrderService.java:172-256 | The result and the new books are those of `PaySpec`. |
| OrderSaga.OrderService.CancelOrder | src/main/java/org/example/business/OrderService.java:398-459 | The outcome and the new books are those of `CancelSpec`. |
| OrderSaga.OrderService.ReturnOrder | src/main/java/org/example/business/OrderService.java:469-536 | The outcome and the new books are those of `ReturnSpec`. |

## Left out

- StockProperties.NeverNegative: holds only when every compensation quantity is non-negative. The source never enforces this: an order's quantity is not checked for sign, and its compensations carry it. `OrderSaga.NegativeOrderDrivesStockBelowZero` shows the stock going below zero.
- Exceptions thrown by the database, the key-value store, the lock service or the JSON mapper are not modelled. The exceptions are the failures the model takes as inputs: publisher sends, retry-task markings and the retry query.
- The `SYSTEM_EXCEPTION` catch path of `submitOrder` is not modelled. It publishes a compensation when an unexpected exception hits an order that is not CANCELLED, and it is reachable only through such exceptions. A failed deduction is a normal answer, not an exception: that path sets the order CANCELLED and the catch publishes nothing.
- A failing audit-log insert is swallowed and leaves the log unchanged. The model takes every insert to succeed.
- A failure to save inside a saga transaction, which marks the transaction rollback-only, is not modelled.
- A `markAsFailedAndRetry` that itself throws inside the retry loop is not modelled. In the source that escapes to the outer catch of `retryFailedMessages`.
- Time-to-live of idempotency marks (3600 s), cache entries and locks is not modelled. Marks and cache entries stay until removed.
- Concurrency is not modelled: calls are sequential. Each lock is the boolean `tryLock` answered. A lock's key ignores the user id (the create lock) and the wait and lease times.
- Java integer widths are not modelled. Quantities, stock and versions are unbounded integers. The `(long) Math.pow` backoff is exact, and a deep backoff's overflow is not modelled.
- `amount`, the payment and refund simulations and the order-confirmed notification are not modelled. Payment is the input `paymentOk`. A refund changes nothing the model tracks.
- JSON serialisation is not modelled. The outbox record holds the event itself, not its text.
- Trace-id propagation is not modelled; trace ids are inputs.
- Order-id and message-id generation are inputs: the UUID and time-based generators are not modelled.
- Clocks are inputs. One `now` stands for each call's clock readings, so the event timestamp (milliseconds) and the outbox times (seconds) share a unit.
- The outbox is keyed by message id, and a repeated id is refused as a unique key would refuse it. In the source the marks fetch through the primary key `id`. As written, `markAsSent`, `markAsConfirmed` and `markAsFailedAndRetry` (MessageDeliveryServiceImpl.java:56-104) pass a UUID message id to a lookup by the numeric `id` (MessageDelivery.java:26), so they find no record and do not update the record saved under that message id; on a database that refuses to compare a number with text, the lookup throws instead. The model's marks, and with them `RetryTask.TicksNeverFail`, `RetryTask.UnconfirmedRecordExhaustsRetries`, `RetryTask.AlwaysFailingRecordNeverProgresses` and the confirm in `CompensationConsumer.Consume`, describe the message-id-keyed outbox the design intends, not the no-op the code performs.
- StockEngine.Ledger: `idemOn` and `cacheOn` are independent flags, so the model allows a configured key-value store without a cache and the reverse. In the source both come from the same optional Redis bean (StockServiceImpl.java:51, IdempotentUtil.java:25) and are always equal; every lemma holds for either combination.
- `hasCompensationSent` is the input `compensationSent`. Its query over the outbox contents is not modelled.
- The retry task's unused publisher field and the broker's own retries, acknowledgements and dead-lettering are not modelled.
- Broker configuration (`RabbitMQConfig.java`) is carried only as the exchange, routing-key and queue constants.
- Read-side and CRUD helpers of the order and log services, controllers and configuration classes are outside the modelled core.
