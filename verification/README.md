# Order platform: a verified model

A Dafny model of the order platform's services, with proofs of what they keep
when their steps interleave, their processes crash, and their messages are
published and delivered more than once. `dafny verify dfyconfig.toml` checks all of it.

## The system

An order and its `OrderCreated` row are written in one transaction. A relay
publishes outbox rows to a topic, at least once. The payment service charges
for `OrderCreated` messages, records payment and ledger rows, and announces them
through an outbox and a relay of its own. Inventory events confirm or cancel the
order and, when a reservation fails, the payment is refunded. Duplicates are
suppressed in three ways: an expiring table (inventory events), a set-if-absent
key with a time to live (payment events) and a check before and a mark after
(notifications). Beside the saga stand a product cache, a request throttler, the
notification retry and the order numbers.

How it is modelled:

- Code that runs concurrently is a step system: one action is one answered await,
  nondeterminism (failures, answers, clock readings) is in the action, and a run
  is any sequence of actions. A `Stop` or `Crash` drops an operation where it is.
  The theorems are about every run.
- The services are also classes, with the source's fields as fields and a method
  per function. Each method is proved to be a step, or with nothing in between a
  run, of the step system that the theorems are about.
- The position of a row or an operation in its history stands for the uuids drawn for it.
- Money is integer cents: the columns have two decimals and the provider receives whole cents.

| files | content |
|---|---|
| `Payments`, `PaymentMoney`, `PaymentRefunds`, `PaymentCharges`, `PaymentAnswers`, `PaymentOutbox`, `PaymentService` | charges, refunds, ledger and outbox of the payment service |
| `Orders`, `OrderHistory`, `InventoryInbox`, `OrderTables` | the order state machine, interleaved and serial, and the inventory consumer |
| `OrderRelay`, `OneRelay`, `OutboxPolling`, `PaymentRelay`, `Backlog` | the two relays, and batch draining in general |
| `PaymentInbox`, `Pipeline` | the payment consumer's duplicate check, and the whole way from order to payment |
| `Products`, `ProductPages`, `ProductKeys`, `ProductCache`, `ProductStaleness`, `ProductRequests` | the product table, its pages, its cache keys, its cache in sequence and in interleaving |
| `Throttler`, `NotificationInbox`, `NotificationRetry`, `OrderNumbers` | throttling, notifications, order numbers |
| `Common`, `Sums`, `Strings` | options and rounding up, sums over sequences, numerals and joined strings |

## Assumptions

- The provider repeats its first answer under an idempotency key it has seen, moves no
  money for a repeated refund key, and accepts a refund only of an amount >= 0. A call may
  fail to reach it, or its answer may be lost.
- Unique constraints behave as in PostgreSQL: a second insert of an order or a key waits for
  the first and fails if that commits. An update holds its row until its commit.
- The inventory service, and the router that puts InventoryReservationFailed on the payment
  topic, are environment: either inventory event may arrive at any time, any number of times.
- Clocks are parameters. Where a theorem needs a non-decreasing clock or distinct
  milliseconds it says so. Two refunds of 60 in one millisecond are recorded as 120 and move 60
  (`PaymentMoney.SameMillisecondLosesMoney`, an instance of `PaymentMoney.UnseenKeyIff`).
- `ValidationService` supplies arbitrary prices; quantities are arbitrary integers.

## Where the code and its documentation part

The model follows the code.

- `DESIGN_ARCHITECTURE.MD.md:280` says that saving and announcing either both happen or
  neither does. That holds for `createOrder`. In the payment service `append` commits by itself
  (`PaymentOutbox.SurplusIsExact` counts the announcements of nothing), and the status changes
  of an order have no transaction (`Orders.VersionCounts` counts the unannounced changes).
- `DESIGN_ARCHITECTURE.MD.md:284` says that receiving an event twice does no harm. The payment
  consumer takes its key before handling, so a crash in between loses the event for 24 hours, and
  after that a RefundRequired event counts anew (`PaymentInbox.DispatchedIff`).
- `outbox-relay.service.ts:9` says FOR UPDATE SKIP LOCKED. The query locks without skipping and its
  transaction ends with the fetch, so two pollers may relay the same rows; the model allows it.
- The throttler's block key never blocks: a call is blocked exactly while the counter exceeds the limit.
- Two lists that differ can share a cache key, by a colon or a star in a text, and the second is then served the first one's page
  (`ProductCache.TransparentIff`).
- A uuid in upper case passes the controller's pipe and finds its product, but each spelling has a cache key of its own and an
  update drops only the key of its own spelling. Reads under another spelling are then stale (`ProductCache.SpellingIff`), and an
  update under it writes the stale copy back to the table, undoing the first one (`ProductCache.LostUpdateIff`).
- A charge whose answer is lost is recorded as FAILED for good, although the provider took the money, and later attempts return
  that payment (`PaymentAnswers.UnrecordedIff`, `PaymentAnswers.UnrecordedStays`).
- A failed charge also gets a CHARGE ledger row, and one with a provider transaction can be refunded by
  RefundRequired, which nothing checks against the remaining amount.
- Nothing refunds an order that its user cancels, and CANCELLED is left when a confirmation that read the
  order before writes after (`Orders.CancelledIsFinalIff`).

## Model

| member | source | states |
|---|---|---|
| PaymentMoney.RefundMoney | payment-service/src/modules/payment/payments.service.ts:250-321 | In every interleaving of any number of refunds, with stops at any await: provider-refunded + recorded-but-not-moved = ledger REFUND total + moved-but-not-committed, every term non-negative, and `refundedAmount` never exceeds the ledger total. |
| PaymentMoney.ProviderLedgerColumn | payment-service/src/modules/payment/payments.service.ts:268-321 | When each provider call carries a key the provider has not seen: provider >= ledger >= `refundedAmount`, and the first gap is exactly the money of operations past the provider call and not committed. |
| PaymentMoney.FirstGapIff | payment-service/src/modules/payment/payments.service.ts:250-321 | In every run the gap between provider and ledger is the uncommitted money if and only if the provider moved all that was ever committed. |
| PaymentMoney.UnseenKeyIff | payment-service/src/modules/payment/payments.service.ts:268-274 | From any state, an accepted refund keeps the difference of provider and ledger if and only if its amount is 0 or its key (payment and millisecond) is new to the provider. |
| PaymentRefunds.CommitGap | payment-service/src/modules/payment/payments.service.ts:281-290 | The write-back of `snapshot + amount`: after a commit the column is short of the ledger by exactly what the ledger gained since the snapshot, and equal to it exactly when the snapshot was up to date. |
| PaymentRefunds.ColumnIsLedger | payment-service/src/modules/payment/payments.service.ts:250-321 | While no two read-to-commit windows of one payment overlap, `refundedAmount` equals the ledger REFUND total, in any interleaving across payments and with any crash. |
| PaymentRefunds.OverlapLosesARefund | payment-service/src/modules/payment/payments.service.ts:256-290 | Two accepted refunds whose windows overlap, for all amounts: the ledger records both, the column only the one that commits last. |
| PaymentRefunds.RefundedWithinAmount | payment-service/src/modules/payment/payments.service.ts:208-246 | With non-overlapping refunds in (0, remaining] of charged payments: 0 <= `refundedAmount` <= `amount`, it equals the ledger total, and it determines the status. |
| PaymentRefunds.UncheckedWithinIff | payment-service/src/modules/payment/payments.service.ts:166-177 | After an accepted RefundRequired the column is within the amount if and only if the event asked for no more than what remained. |
| PaymentRefunds.CompensationSettles | payment-service/src/modules/payment/payments.service.ts:181-204 | After any such history a successful compensation leaves the payment REFUNDED with CHARGE - REFUND = 0, and a repeated one changes no payment, no ledger total and no provider total. |
| PaymentCharges.ChargedOnce | payment-service/src/modules/payment/payments.service.ts:51-141 | In every interleaving of racing, repeated and crashing charge attempts: no two payments share an order or an idempotency key, each has exactly one CHARGE row of its own amount, and a PROCESSED one carries the answer the provider keeps under the order. |
| PaymentCharges.NoStrayCharge | payment-service/src/modules/payment/payments.service.ts:90-136 | A CHARGE row never exists without its committed payment. |
| PaymentCharges.AmountCharged | payment-service/src/modules/payment/payments.service.ts:76-136 | If all attempts for an order carry one amount, its payment and its ledger row have it, and so has the provider charge, whatever was refunded since. |
| PaymentCharges.CurrencyCharged | payment-service/src/modules/payment/payments.service.ts:76-136 | If all attempts for an order carry one currency, its payment and the provider charge are in it, in every interleaving. |
| PaymentAnswers.UnrecordedIff | payment-service/src/modules/payment/payments.service.ts:76-136 | In every run, the provider took an order's money and no payment of it says so, if and only if each operation of the order is in flight, has stopped before its commit, or never heard the answer. |
| PaymentAnswers.UnrecordedStays | payment-service/src/modules/payment/payments.service.ts:62-69 | Such a FAILED payment without a transaction never changes again, in any further run, and the provider keeps the charge. |
| PaymentAnswers.LostAnswerFails | payment-service/src/modules/payment/payments.service.ts:76-136 | And from every state, an answer lost on its way back leaves one. |
| PaymentCharges.CommittedIsFinal | payment-service/src/modules/payment/payments.service.ts:62-69 | From the commit on, in every further run: the row changes only in its refund columns, no later attempt for its order or key becomes an operation (so none reaches the provider), and the provider keeps its answers. |
| PaymentOutbox.EveryEntryIsAnnounced | payment-service/src/modules/outbox/outbox.service.ts:19-35 | In every crashing run each ledger row has exactly one outbox row of its operation, with order and customer of its payment and the same amount, and REFUND rows are announced as RefundIssued. |
| PaymentOutbox.EveryPaymentIsAnnounced | payment-service/src/modules/payment/payments.service.ts:90-136 | Each committed payment has its PaymentSucceeded or PaymentFailed row, matching its order, customer, amount, currency, transaction and outcome. |
| PaymentOutbox.LastAnnouncementIsColumns | payment-service/src/modules/payment/payments.service.ts:281-319 | In every run, overlapping refunds included, the RefundIssued row of a payment's last committed refund carries its refunded amount and status as they are; without one nothing was refunded. |
| PaymentOutbox.SurplusIsExact | payment-service/src/modules/outbox/outbox.service.ts:19-35 | Outbox rows = ledger rows + operations sitting or stopped between their append and their commit. |
| Payments.ChargeAlone | payment-service/src/modules/payment/payments.service.ts:60-136 | The whole effect of one charge that nothing overlaps, on every table. |
| Payments.RefundAlone | payment-service/src/modules/payment/payments.service.ts:256-321 | The whole effect of one accepted refund that nothing overlaps, on every table. |
| PaymentService.PaymentsService.CheckExisting | payment-service/src/modules/payment/payments.service.ts:60-73 | The lookup by order or key is the StartCharge step, and finds a row exactly when one matches either column. |
| PaymentService.PaymentsService.ChargeProvider | payment-service/src/modules/payment/payments.service.ts:76-87 | The provider call is the AnswerCharge step: a key it has seen gets the first answer again. |
| PaymentService.PaymentsService.AppendChargeEvent | payment-service/src/modules/payment/payments.service.ts:90-129 | The insert and the append are the AppendCharge step: it waits exactly while another insert of the order or key is open, and fails exactly on a committed one. |
| PaymentService.PaymentsService.CommitPayment | payment-service/src/modules/payment/payments.service.ts:91-136 | The commit is the CommitCharge step: payment and CHARGE row together. |
| PaymentService.PaymentsService.Charge | payment-service/src/modules/payment/payments.service.ts:51-141 | A whole call returns the existing payment and changes nothing, or waits behind another insert after its provider call, or returns the new row: every column is told, USD for an empty currency, and what the provider was asked, one CHARGE row and the announcement. |
| PaymentService.PaymentsService.ReadSnapshot | payment-service/src/modules/payment/payments.service.ts:256-266 | Missing payment and missing provider transaction are refused; otherwise the snapshot is the row as it is (StartRefund). |
| PaymentService.PaymentsService.RefundProvider | payment-service/src/modules/payment/payments.service.ts:268-279 | The provider call is the AnswerRefund step; it goes on exactly when the provider reports success. |
| PaymentService.PaymentsService.AppendRefundEvent | payment-service/src/modules/payment/payments.service.ts:281-319 | The append is the AppendRefund step, and waits exactly while another transaction holds the row. |
| PaymentService.PaymentsService.CommitRefundRow | payment-service/src/modules/payment/payments.service.ts:286-321 | The commit is the CommitRefund step: the snapshot total is written back and the REFUND row inserted. |
| PaymentService.PaymentsService.ExecuteRefund | payment-service/src/modules/payment/payments.service.ts:250-328 | A whole refund: each error, and waiting for the row, leaves payments, ledger and outbox alone; success writes exactly the refund columns, one REFUND row and one RefundIssued row, each field told. |
| PaymentService.PaymentsService.RequestRefund | payment-service/src/modules/payment/payments.service.ts:208-246 | Each refusal exactly when its condition holds, in the order of the code; past the checks it succeeds exactly when the provider accepts and nothing holds the row. |
| PaymentService.PaymentsService.ProcessRefundRequired | payment-service/src/modules/payment/payments.service.ts:166-177 | The event goes straight on: it succeeds exactly when payment and transaction exist, the provider accepts and nothing holds the row, whatever remains. |
| PaymentService.PaymentsService.ProcessInventoryReservationFailed | payment-service/src/modules/payment/payments.service.ts:181-204 | Without a payment of the order nothing happens; with one it succeeds exactly when there is a transaction, the provider accepts and nothing holds the row, and then what remained is refunded in full; a failure past the read asked the provider for that amount. |
| PaymentService.PaymentsService.ProcessOrderCreated | payment-service/src/modules/payment/payments.service.ts:145-162 | With the event's customer, currency and amount (or total amount), payments and ledger gain exactly one row each; an existing payment is left alone, and behind another insert nothing is written. |
| Orders.VersionCounts | order-service/src/modules/order/order.repository.ts:87-93 | In every interleaved, crashing run each order has exactly one OrderCreated row, and its version = OrderConfirmed rows + OrderCancelled rows + operations stopped or in flight between update and announcement. |
| Orders.LinesAddUp | order-service/src/modules/order/order.service.ts:59-86 | The reduce over the items, the sum of the line totals and the sum of unit price times quantity are one number. |
| Orders.RowsCarryTheOrder | order-service/src/modules/order/order.service.ts:89-127 | Every outbox row, whatever interleaves, repeats its order's customer and number, its total and currency unless it cancels, and its lines, address and payment method if it announces the creation; the total is what the lines cost. |
| Orders.CancelledIsFinalIff | order-service/src/modules/kafka/inventory-event.processor.service.ts:132-141 | CANCELLED can never be left, in any further run, if and only if no confirmation has read the order and not yet written. |
| OrderHistory.PlaceEffect | order-service/src/modules/order/order.service.ts:64-127 | A whole creation adds one PENDING order of version 0, with a line per item and for what they cost, and its OrderCreated row, and nothing else. |
| OrderHistory.HandleEffect | order-service/src/modules/kafka/inventory-event.processor.service.ts:123-165 | A whole status change either fails its guard and changes nothing, or moves the order once and announces it once. |
| OrderHistory.RowsReplayToStatus | order-service/src/modules/kafka/inventory-event.processor.service.ts:116-218 | In serial runs an order's rows are a prefix of [Created, Confirmed, Cancelled] or [Created, Cancelled], number version + 1, and replay to the stored status. |
| OrderHistory.CancelledAbsorbs | order-service/src/modules/order/order.service.ts:206-213 | In serial runs a cancelled order never changes again, nor do its rows. |
| InventoryInbox.TableIsTransparent | order-service/src/modules/kafka/inventory-event.processor.service.ts:75-107 | Whatever the clock, the time to live and the failures to mark, orders and outbox are what handling every delivery would give, for orders that exist when their events come. |
| InventoryInbox.DuplicatesChangeNothing | order-service/src/modules/kafka/inventory-event.processor.service.ts:132-138 | Handling every delivery, and handling only the first of each id, give the same state, with orders cancelled and created in between. |
| InventoryInbox.DuplicatesAreHarmless | order-service/src/modules/kafka/inventory-event.processor.service.ts:75-107 | Both together: duplicates anywhere later, expired or not, leave the same statuses, versions and outbox rows as the list without them. |
| InventoryInbox.StatusIsDecided | order-service/src/modules/kafka/inventory-event.processor.service.ts:75-107 | Duplicates, expiry and failures to mark included, an order ends in the status to which its first effective event leads. |
| InventoryInbox.CreatedIsDecided | order-service/src/modules/kafka/inventory-event.processor.service.ts:75-107 | The same for an order that is created on the way, from PENDING. |
| InventoryInbox.StatusHasCause | order-service/src/modules/kafka/inventory-event.processor.service.ts:89-97 | Over any deliveries an order is CONFIRMED only if a reservation of it came in, and CANCELLED only if one failed or its user cancelled it. |
| InventoryInbox.OvertakingIff | order-service/src/modules/kafka/inventory-event.processor.service.ts:123-130 | Why the order must exist: from any state, an event that overtakes its order's creation, created and delivered again, ends as without the second delivery if and only if the first mark has not expired. |
| OrderTables.OrderService.TotalOf | order-service/src/modules/order/order.service.ts:59-62 | The reduce computes the sum of the line costs. |
| OrderTables.OrderService.CreateOrder | order-service/src/modules/order/order.service.ts:89-157 | All or nothing: the order with a line per item and its OrderCreated row, each field told, or no change. |
| OrderTables.OrderService.FindById | order-service/src/modules/kafka/inventory-event.processor.service.ts:123-138 | The read and the guard are the Begin step. |
| OrderTables.OrderService.UpdateStatus | order-service/src/modules/order/order.repository.ts:87-93 | The blind write is the Update step: status overwritten, version + 1. |
| OrderTables.OrderService.CreateEntry | order-service/src/modules/outbox/outbox.repository.ts:14-38 | The insert is the Announce step. |
| OrderTables.OrderService.HandleInventoryReserved | order-service/src/modules/kafka/inventory-event.processor.service.ts:116-165 | Uninterrupted it is the serial confirmation: a PENDING order becomes CONFIRMED with one OrderConfirmed row, any other stays. |
| OrderTables.OrderService.HandleInventoryReservationFailed | order-service/src/modules/kafka/inventory-event.processor.service.ts:167-218 | Uninterrupted it is the serial cancellation: a PENDING order becomes CANCELLED with one OrderCancelled row, any other stays. |
| OrderTables.OrderService.CancelOrder | order-service/src/modules/order/order.service.ts:195-248 | Each error exactly when its condition holds; otherwise a PENDING or CONFIRMED order becomes CANCELLED with one OrderCancelled row. |
| OrderTables.OrderService.IsEventProcessed | order-service/src/modules/kafka/inventory-event.processor.service.ts:220-235 | True exactly for an unexpired mark; an expired one is removed. |
| OrderTables.OrderService.MarkEventProcessed | order-service/src/modules/kafka/inventory-event.processor.service.ts:237-252 | From now on the id counts as processed exactly until a time to live after the clock reading. |
| OrderTables.OrderService.ProcessInventoryEvent | order-service/src/modules/kafka/inventory-event.processor.service.ts:53-114 | A new event confirms or cancels a PENDING order by its type and announces that; a remembered id, an unknown type or another status leaves orders and outbox alone. It is the function that the duplicate lemmas are about. |
| OrderRelay.AtLeastOnce | order-service/src/modules/outbox/outbox.service.ts:78-123 | With any number of pollers, publish and mark failures and crashes: every SENT row has a copy on the topic, every message is a copy of a row (id, type, key and payload), and copies with one event id are equal. |
| OrderRelay.SentIsFinal | order-service/src/modules/outbox/outbox.repository.ts:65-92 | SENT and the row's contents survive every further run, markFailed included. |
| OneRelay.PrefixOnTopic | order-service/src/modules/outbox/outbox.service.ts:49-103 | One poller that only crashes, rows coming into view in creation order: the SENT rows are a prefix of it, the first copies on the topic are that prefix and at most one row more, in order, and copies <= rows + crashes. |
| OutboxPolling.PollsArePasses | order-service/src/modules/outbox/outbox.service.ts:57-70 | Polling is, on the waiting rows, the batch pass the drain bounds are about. |
| OutboxPolling.DrainsWithin | order-service/src/modules/outbox/outbox.service.ts:57-70 | With k < 50 rows that always fail and g others, every other row is SENT within ceil(g / (50 - k)) polls. |
| OutboxPolling.DrainsExactly | order-service/src/modules/outbox/outbox.repository.ts:54-77 | With none failing, n polls send exactly the first 50 n waiting rows. |
| OutboxPolling.SentIff | order-service/src/modules/outbox/outbox.repository.ts:54-92 | A row that can be published is ever SENT if and only if fewer than 50 rows that cannot be wait before it. |
| OutboxPolling.OutboxService.ProcessEntry | order-service/src/modules/outbox/outbox.service.ts:78-123 | For every way publish, mark and markFailed can fail, before or after taking effect: what row and topic become, when it throws, and that it is a run of the relay. |
| OutboxPolling.OutboxService.FetchPendingRows | order-service/src/modules/outbox/outbox.repository.ts:40-60 | The loop computes the first 50 PENDING rows in creation order: what is left out comes after a full batch. |
| OutboxPolling.OutboxService.PublishBatch | order-service/src/modules/outbox/outbox.service.ts:68-70 | The loop settles exactly the entries up to the first that throws, as a run of the relay. |
| OutboxPolling.OutboxService.PollOutbox | order-service/src/modules/outbox/outbox.service.ts:49-76 | Under either flag, and when the fetch fails, nothing happens; otherwise one whole batch under any failures, as a run of the relay, and the flag is free again. |
| OutboxPolling.OutboxService.OnModuleDestroy | order-service/src/modules/outbox/outbox.service.ts:125-129 | Sets the flag under which PollOutbox does nothing. |
| PaymentRelay.MarkedWereEmitted | payment-service/src/modules/outbox/outbox-relay.service.ts:40-57 | With any pollers, failures and crashes: every marked row was handed to the client, and every message carries key, type and payload of a row, under an event id of its own. |
| PaymentRelay.CopiesBounded | payment-service/src/modules/outbox/outbox-relay.service.ts:33-57 | One poller that only crashes: copies <= rows handed over + 100 * crashes. |
| PaymentRelay.PollIsPass | payment-service/src/modules/outbox/outbox-relay.service.ts:33-57 | A poll closes exactly the rows of its batch whose emission did not throw. |
| PaymentRelay.OutboxRelayService.FetchPendingRows | payment-service/src/modules/outbox/outbox.service.ts:37-48 | The loop computes the first 100 PENDING rows in creation order: what is left out comes after a full batch. |
| PaymentRelay.OutboxRelayService.EmitBatch | payment-service/src/modules/outbox/outbox-relay.service.ts:42-55 | Every row of the batch is tried; the ids collected are those handed over, in order, and the topic gains exactly their messages. |
| PaymentRelay.OutboxRelayService.PollOnce | payment-service/src/modules/outbox/outbox-relay.service.ts:28-63 | Nothing under the flag or when the fetch fails; otherwise emit the messages of all, then mark exactly what was handed over, or nothing if the update fails, as a run of the relay. |
| PaymentInbox.DispatchedIff | payment-service/src/modules/kafka/kafka-event.processor.service.ts:48-53 | A delivery reaches its handler if and only if every earlier hand-over of its key is at least 24 hours old, whatever became of that one. |
| PaymentInbox.KeysApart | payment-service/src/modules/kafka/kafka-event.processor.service.ts:41-48 | Two deliveries share a dedup key exactly when topic and event id agree. |
| PaymentInbox.KafkaEventProcessor.Process | payment-service/src/modules/kafka/kafka-event.processor.service.ts:27-87 | Which header or field gives the id and the type; the key of topic and id is taken for 24 hours before the handler is chosen; the handler of a known type is called exactly when the key was free. |
| Pipeline.MessageSpeaksForOrder | order-service/src/modules/outbox/outbox.service.ts:95-100 | Every OrderCreated message carries a persisted order's customer, total and currency. |
| Pipeline.PaidAsOrdered | payment-service/src/modules/payment/payments.service.ts:145-162 | However often rows are published and messages delivered, and whoever stops where: a payment begun by an OrderCreated message has its order's customer, currency and total = sum of unit price * quantity = sum of line totals, is that order's only payment, and has one CHARGE row of that amount. |
| Pipeline.ProviderTookTheTotal | payment-service/src/modules/payment/payments.service.ts:76-81 | Without direct charges every payment pays its order, and the provider is only ever asked to charge existing orders, each for its own total. |
| Products.FindById | product-service/src/infrastructure/persistence/product.repository.ts:18-20 | Finds the row of the id, in either case of its letters, exactly when there is one. |
| ProductPages.SearchContains | product-service/src/infrastructure/persistence/product.repository.ts:43-47 | A search without wildcards matches exactly the texts that contain it, in either case. |
| ProductPages.FindManyShows | product-service/src/infrastructure/persistence/product.repository.ts:36-66 | The rows that meet the filters, each once and newest first: a page holds its part of them, min(limit, what is left) rows, and their number. |
| ProductPages.PagesHoldEachOnce | product-service/src/infrastructure/persistence/product.repository.ts:36-66 | Pages 1 to n, one after another, hold the n * limit newest of these rows, each once: all of them once n * limit reaches the total. |
| ProductKeys.ListKeyInjective | product-service/src/application/product.service.ts:143-155 | On parameters whose texts hold no colon and are not a star, equal list keys mean equal parameters. |
| ProductKeys.KeyInjective | product-service/src/application/product.service.ts:40-57 | Over such lists, and products and prices of ids without a colon, different requests have different keys. |
| ProductKeys.NotPlainShares | product-service/src/application/product.service.ts:143-155 | Every text that this excludes does share its key with other parameters. |
| ProductKeys.KeyDetermines | product-service/src/application/product.service.ts:26-37 | While no two lists in use share a key, except with an empty price range, requests with one key have one answer on every table. |
| ProductKeys.SharedKeyDiffers | product-service/src/infrastructure/persistence/product.repository.ts:36-66 | Two different lists that share a key and whose price range admits something have different answers on some table. |
| ProductCache.SharedKeyServesOther | product-service/src/application/product.service.ts:26-37 | Of two requests with one key the second is served the first one's page. |
| ProductCache.Misserved | product-service/src/application/product.service.ts:26-37 | So on some table these two requests are enough for a wrong reply. |
| ProductCache.Transparent | product-service/src/application/product.service.ts:26-108 | For lists kept apart by their keys and ids of which each row goes by one spelling: over any sequence of list, findById, findPriceById, create, update and time passing, every reply and the table are those of the database alone. |
| ProductCache.TransparentForPlain | product-service/src/application/product.service.ts:26-108 | In particular for all lists whose texts hold no colon and are not a star, with ids in the database's spelling. |
| ProductCache.TransparentIff | product-service/src/application/product.service.ts:26-108 | Whichever lists and spellings of ids are in use: on every table every sequence of requests is answered, and leaves the table, as without a cache, if and only if no two lists share a key (except with an empty price range) and no two spellings are of one id. |
| ProductCache.UpdateChangesOnly | product-service/src/application/product.service.ts:90-108 | An update under a spelling whose cached copy is fresh changes one row, and of it only the fields the dto defines. |
| ProductCache.SpellingIff | product-service/src/application/product.service.ts:39-54 | With a fresh cache, read under one spelling of an id, update under any other, read again: up to date if and only if the spellings agree or nothing changed. |
| ProductCache.LostUpdateIff | product-service/src/application/product.service.ts:90-108 | Read under one spelling, update under another, update under the first: the second update writes the old copy back, so the table is as without a cache if and only if the spellings agree or it overrides all that the first one changed. |
| ProductStaleness.StalenessBound | product-service/src/application/product.service.ts:39-54 | In every interleaving of readers, writers, updates, deletions and crashes, ids in either case, what is served at t is the table's answer at some r with t - r < TTL + the filling reader's own read-to-set delay. |
| ProductStaleness.WriteBackBound | product-service/src/application/product.service.ts:90-108 | An update that saves at t writes the fields it does not mention as the table had them at some r with t - r < TTL + the filling reader's delay + its own delay. |
| ProductStaleness.BoundIsReached | product-service/src/infrastructure/cache/redis-cache.service.ts:47-50 | For every TTL and delay the bound is met to the last time unit, although the table changed right after the read. |
| ProductRequests.ProductService.CacheGet | product-service/src/infrastructure/cache/redis-cache.service.ts:37-45 | The value under the key while it has not expired. |
| ProductRequests.ProductService.CacheSet | product-service/src/infrastructure/cache/redis-cache.service.ts:47-50 | Overwrites the entry and starts its TTL. |
| ProductRequests.ProductService.InvalidateListCaches | product-service/src/infrastructure/cache/redis-cache.service.ts:58-63 | Removes exactly the keys under the list prefix. |
| ProductRequests.ProductService.List | product-service/src/application/product.service.ts:26-37 | Is the read-through; for a list in use it answers the page of the table as it is - the asked part of the rows that meet the filters, newest first - and leaves the cache fresh. |
| ProductRequests.ProductService.FindProduct | product-service/src/application/product.service.ts:39-54 | Is the read-through; under a spelling in use it answers the table's row, or that there is none, and leaves the cache fresh. |
| ProductRequests.ProductService.FindPriceById | product-service/src/application/product.service.ts:56-71 | Is the read-through; under a spelling in use it answers price and currency of the table's row, and leaves the cache fresh. |
| ProductRequests.ProductService.CreateProduct | product-service/src/application/product.service.ts:73-88 | Succeeds exactly when sku and id are new; then the row is added with each field of the dto or its default, the lists leave the cache and it stays fresh; otherwise nothing changes. |
| ProductRequests.ProductService.Assigned | product-service/src/application/product.service.ts:93-100 | The eight assignments take exactly the defined fields. |
| ProductRequests.ProductService.UpdateProduct | product-service/src/application/product.service.ts:90-108 | Under a spelling in use, each row going by one, the table's own row is saved with the defined fields changed, and the cache stays fresh; always, one row is written and its keys and the lists leave the cache. |
| Throttler.TtlSeconds | api-gateway/src/common/throttler/throttler.ts:31 | The least whole number of seconds, and at least one, that covers the TTL. |
| Throttler.FirstCallsPass | api-gateway/src/common/throttler/throttler.ts:34-40 | In every interleaving, and wherever calls stop, exactly the first `limit` calls of each lifetime of the counter are let through. |
| Throttler.AtMostTwiceTheLimit | api-gateway/src/common/throttler/throttler.ts:31-40 | In any half-open interval as long as the window at most 2 * limit - 1 calls are let through (sharper than twice the limit). |
| Throttler.BoundIsReached | api-gateway/src/common/throttler/throttler.ts:31-40 | For every limit and window some sequence reaches 2 * limit - 1. |
| Throttler.ResetsIff | api-gateway/src/common/throttler/throttler.ts:34-37 | The counter can start again if and only if the call that counted to one has not stopped before its EXPIRE. |
| Throttler.CalledIsRun | api-gateway/src/common/throttler/throttler.ts:34-37 | A call that nothing overlaps is the INCR and EXPIRE steps. |
| Throttler.RedisThrottlerStorage.Increment | api-gateway/src/common/throttler/throttler.ts:25-59 | One whole call: when the counter goes on and when it starts, its expiry, every field of the record, and the block key, which plays no part in blocking; other keys are left alone. |
| NotificationInbox.DeliveredOncePlusCrashes | notification-service/src/modules/kafka/kafka-event.processor.service.ts:56-121 | For each event, over all redeliveries: deliveries <= 1 + crashes between create and mark, and exactly that once it is marked. |
| NotificationInbox.KafkaEventProcessor.Process | notification-service/src/modules/kafka/kafka-event.processor.service.ts:15-122 | Which header or field gives id and type; then check, create, mark: what is recorded and marked under each failure, as a run of the steps. |
| NotificationRetry.PassIsPrefix | notification-service/src/modules/notification/notification.service.ts:123-139 | A pass dispatches a prefix of the PENDING records by creation time: all stale ones among the first 50. |
| NotificationRetry.PendingIff | notification-service/src/modules/notification/notification.service.ts:121-140 | A stale record with i pending ones before it is PENDING if and only if no more than i / 50 passes have gone, whatever is created meanwhile. |
| NotificationRetry.DrainedIff | notification-service/src/modules/notification/notification.service.ts:121-140 | n stale records are all SENT or FAILED if and only if n <= 50 * passes. |
| NotificationRetry.NotificationService.CreateAndDispatch | notification-service/src/modules/notification/notification.service.ts:31-60 | A new record, PENDING or settled by its dispatch, which the call does not await. |
| NotificationRetry.NotificationService.DispatchOne | notification-service/src/modules/notification/notification.service.ts:89-115 | SENT with token and time, or FAILED with the message, its default or the exception's; other records alone. |
| NotificationRetry.NotificationService.FindPending | notification-service/src/modules/notification/notification.service.ts:125-131 | The loop computes the first 50 PENDING records by creation time: what is left out comes after a full batch. |
| NotificationRetry.NotificationService.DispatchAll | notification-service/src/modules/notification/notification.service.ts:137-139 | The loop dispatches exactly the given records, each from its own state. |
| NotificationRetry.NotificationService.RetryPendingDeliveries | notification-service/src/modules/notification/notification.service.ts:121-140 | Of the first 50 PENDING records exactly those older than five minutes become SENT or FAILED as dispatched; it is the retry step of the drain bounds. |
| OrderNumbers.DayOfDate | order-service/src/modules/order/order.repository.ts:128-129 | The date of a day agrees with the closed form of the Gregorian calendar. |
| OrderNumbers.DateStringInjective | order-service/src/modules/order/order.repository.ts:129 | The date part of a number determines the date. |
| Strings.PaddedInjective | order-service/src/modules/order/order.repository.ts:140 | The padded sequence part determines the count, past 99999 too. |
| OrderNumbers.NumbersDiffer | order-service/src/modules/order/order.repository.ts:127-142 | Serial creation, one non-decreasing clock, local midnight at UTC midnight: no two persisted orders share a number. |
| OrderNumbers.NeverRepeatsIff | order-service/src/modules/order/order.repository.ts:131-137 | That no serial run repeats a number holds if and only if the server's midnight is UTC's. |
| OrderNumbers.OrderRepository.GenerateOrderNumber | order-service/src/modules/order/order.repository.ts:127-142 | The count and the formatting compute the number of the theorems: ORD-, year, month and day of the UTC date and one more than the count, as zero-padded numerals. |
| OrderNumbers.OrderRepository.Place | order-service/src/modules/order/order.repository.ts:36-59 | Placing an order stores it under that number and keeps the history serial. |

## Left out

- Payments.Step: the text of ledger reasons, payment methods, provider names and correlation ids.
- PaymentService.PaymentsService.ProcessRefundRequired: events with a missing or non-numeric amount.
- JavaScript floating point: amounts, prices and totals are integers, so sums have no rounding.
- Orders.RowsCarryTheOrder: the reasons of cancellations and the timestamps.
- PaymentRelay.MarkedWereEmitted: the Kafka client does not report delivery for `emit`, so a message is one handed to the client; correlation ids and timestamps of its headers.
- OrderRelay.AtLeastOnce: Kafka's partitions and offsets; the topic is one sequence that consumers may read in any order and any number of times.
- OneRelay.PrefixOnTopic: rows come into view in the order of their creation times. The column's default is the start of the transaction, so a row of a slow `createOrder` can come into view after a row with a later time was SENT; the model has no such rows, and with them the SENT rows need not be a prefix.
- Creation times are distinct.
- ProductCache.Transparent: dates of cached products, which JSON turns into strings, eviction by Redis, and errors of Redis or the database; prices are whole cents, page and limit whole numbers. Eviction is in ProductStaleness.
- List searches: ILIKE folds only ASCII letters, and a pattern ending in a lone backslash matches nothing where PostgreSQL reports an error.
- `checkExistence`: it keeps no state and reads no cache; the answer is the difference of the requested and the found ids.
- Throttler.RedisThrottlerStorage.Increment: connection errors; keys of different throttlers do not meet.
- OrderTables.OrderService.ProcessInventoryEvent: from which field or header the event's id and type are read.
- NotificationRetry.NotificationService.RetryPendingDeliveries: dispatches in the background while a pass is under way, and the dispatcher's providers and message text.
- OrderNumbers.NumbersDiffer: years after 9999, where the date part is cut differently, daylight saving, and the numbers of rolled-back orders, which nobody keeps.
- Guards, JWT, roles (a parameter of cancelOrder), DTO validation, controllers, gateway proxying, health checks, logging, wiring and deployment.
- The user and address services: plain reads and writes.
