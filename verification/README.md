# Verified model of the order saga, the payment ledger and the two event pipelines

This project models the part of the microservices system that has to stay consistent when calls overlap,
time out, are repeated or are cut off, and proves that it does.

| file | what it models |
|---|---|
| `PaymentTables.dfy` | the tables of payment-service and the ledger as atomic operations |
| `LedgerProtocol.dfy` | the ledger calls as concurrent database transactions, statement by statement |
| `LedgerSafety.dfy`, `LedgerRuns.dfy`, `LedgerRefunds.dfy`, `LedgerMarks.dfy`, `LedgerReplies.dfy`, `LedgerLiveness.dfy` | invariants; whole runs and refinement; refunds counted; overlapping calls of refundPayment; what calls answer; no deadlock, termination |
| `PaymentService.dfy` | repository and service code of payment-service: retry loop, refund by order, refund by id |
| `OrderWorld.dfy`, `OrderSafety.dfy`, `OrderRuns.dfy`, `OrderRequests.dfy`, `OrderScenarios.dfy` | any number of sagas running against the ledger, the orders table and the topics; what they ask for; two whole runs |
| `SagaScript.dfy`, `SagaSchedules.dfy` | what one saga is given, the steps it takes then, and the world it leaves; a script played out step by step |
| `CreateOrderSaga.dfy` | the saga's own code: try, catch and the unwinding loop, as steps of that system |
| `NotificationProtocol.dfy`, `NotificationSafety.dfy`, `NotificationFates.dfy`, `NotificationTermination.dfy`, `NotificationConsumer.dfy` | RabbitMQ queues, channel and handler |
| `AnalyticsConsumer.dfy`, `CrossService.dfy` | the Kafka consumer, and what its rows say about the sagas |
| `Basics.dfy` | the option type, choice from a set and the deadline shared by two services |

`dafny verify dfyconfig.toml` verifies all of it.

## How the parts fit together

**Ledger.** `LedgerProtocol` runs any number of calls at once. A step is one statement: get a client, `BEGIN`,
take the advisory lock, read, write, update one row, `COMMIT`, `ROLLBACK`, release. Visibility is READ COMMITTED:
a statement sees what was committed when it starts and its own transaction's writes; an `UPDATE` takes its
snapshot, waits for rows that others have locked, and then evaluates its condition again. Any statement may
fail, the answer to a `COMMIT` may be lost after it took effect, and the service may crash, which rolls back
every open transaction. The lock hash is an arbitrary function, so collisions are included, and the pool has any
size. `LedgerRuns` shows that every interleaving has the effect of atomic operations one after another
(`PaymentTables.Apply`), and that without the lock a run exists in which a charge survives its refund.
`LedgerReplies` says what each call answers, and exactly when that is an error.

**Sagas.** `OrderWorld` adds sagas, the orders table and the topics. A saga's remote call has two halves, sending
and hearing, and an error may be heard at any time whatever the callee does; a charge may still be made after
that, as often as it likes. `CreateOrderSaga.Orchestrator` is the saga as written. Each of its methods only takes
steps of `OrderWorld`, lets arbitrary others happen at every await, and records the run it has made from the
empty system, so the results about runs apply to it. A script fixes what the others do at each await and how each
remote call ends. The contracts of the methods say which steps of the recorded run are the saga's own, and that the
world left is the one `SagaScript.Executed` computes from the script and the world before: at each await exactly
the scripted steps of the others that can be taken happen.

**Payment service code.** `PaymentService` follows the code of one call with everything else happening at its
awaits. The other calls appear there as atomic operations, which is what the refinement allows: what a run of
the ledger commits during an await is exactly such a sequence (`PaymentService.MeanwhileIsCommits`). The sagas
model does not bound how often a request is charged, so it covers every behaviour of that retry loop.

**Notifications.** The channel is an ordered stream of frames that may be cut after any of them; a cut loses the
unread frames and requeues the delivery. `NotificationConsumer.Consumer` writes its frames one by one as the code
does; handling a delivery is proved to be one step of that protocol, and a consumer at work to make a run of it.

**Analytics.** The consumer's loop is proved against the rows, dead letters and losses of each message, and
`CrossService` follows the rows back to the sagas that published the events.

## Assumptions

- UUIDs never repeat. A payment row is named by the call that inserted it, and a saga starts with a new order id.
- Amounts are integer cents. Identifiers, users and products are numbers.
- order-service does not crash in the middle of a saga: its compensation list is in memory
  (order-service/src/sagas/create-order.saga.js:39). payment-service may crash at any step.
- When the insert into orders is reported as failed, it has either happened by then or never will.
- Only a saga asks for the refund of its own order. `RefundPayment` may be called by anyone; no client in the
  repository calls it.
- `maxRetries` is at least 1 in both retry loops: they read the last error after the loop.
- A publish to Kafka adds one copy of the event or none. The producer retries and is not idempotent
  (order-service/src/messaging/kafka.producer.js:6-12), so a lost acknowledgement could add a second copy; what is
  said about events per order, and the counts and revenue of the dashboard, hold without one.
- RabbitMQ keeps `x-death` on a republished message and adds to it, as the comment in
  notification-service/src/messaging/consumer.js:135 says, and moves the updated entry to the front.

## Where the code and its documentation disagree

- payment-service/src/services/payment.service.js:16-19 says a row is always stored. It is if and only if the
  insert of the FAILED row takes effect or some charge's recording does, and there is exactly one under the
  condition in `PaymentService.RowIsStored`. Whatever the gateway answers there is one if and only if the FAILED
  row can be inserted, and exactly one if and only if besides no commit's reply can be lost
  (`PaymentService.StoredWhateverTheGatewayDoes`). `PaymentService.NothingStored` and `PaymentService.StoredTwice`
  are inputs with no row and with two.
- A FAILED answer does not mean that nothing was charged (`PaymentService.FailedYetCharged`). Whatever the gateway
  answers it does, if and only if no recording can fail (`PaymentService.FailedMeansUncharged`).
- A payment can be charged twice (`PaymentService.ChargedTwice`). Whatever the gateway answers it is charged at most
  once, if and only if no recording but the last can fail (`PaymentService.ChargedAtMostOnce`).
- order-service/src/config/index.js:27-29 gives the worst case for three retries. `PaymentService.DeadlineFits`
  shows that the 15 s deadline holds for up to four, and that with five the backoff alone reaches it.
- payment-service/src/services/payment.service.js:81-83 says only a SUCCESS payment is refunded. The status is
  checked before a sleep and not again. The row is still SUCCESS when it is marked if and only if nobody marked it
  or asked for its order's refund in between (`PaymentService.StillKept`, `LedgerMarks.KeptUntilMarked`);
  otherwise a REFUNDED row is marked again. `LedgerMarks.ReportedRefundedTwice` is a run in which two calls both
  report the same payment refunded; that takes two calls that overlap, since one that looks later fails
  (`LedgerMarks.LateLookFails`). A FAILED row is never marked (`LedgerRuns.MarkRefundedNeverTouchesFailed`).

## Model

| member | source | states |
|---|---|---|
| PaymentTables.AtomicRun | payment-service/src/repositories/payment.repository.js:33-132 | any sequence of allowed atomic operations keeps no money for a refunded order, keeps refund stamps right, deletes nothing and changes no status but SUCCESS to REFUNDED |
| PaymentTables.OperationsWrite | payment-service/src/repositories/payment.repository.js:33-132 | what each operation writes, column by column, and that it writes nothing else |
| LedgerSafety.IntentStable | payment-service/src/repositories/payment.repository.js:73-97 | what a charge read about the refund intent is still true when it commits, whatever runs in between |
| LedgerSafety.KeptStable | payment-service/src/repositories/payment.repository.js:109-123 | during a refund's UPDATE no SUCCESS row of the order appears and none it has locked disappears |
| LedgerSafety.CommitRefines | payment-service/src/repositories/payment.repository.js:109-123 | a refund that updated row by row, waiting for locked rows, has refunded exactly the SUCCESS rows of its order |
| LedgerSafety.StepRefines | payment-service/src/repositories/payment.repository.js:13-132 | every statement of every interleaving is one atomic ledger operation or leaves the tables alone |
| LedgerSafety.StepInv | payment-service/src/repositories/payment.repository.js:13-132 | clients, locks, views, rows and the semantic lock are kept by every statement, failure and crash |
| LedgerRuns.RunRefinesAtomicLedger | payment-service/src/repositories/payment.repository.js:3-29 | every run has the effect of its commits performed one after another |
| LedgerRuns.SemanticLockSafety | payment-service/src/repositories/payment.repository.js:66-123 | in every reachable state a committed refund intent means no SUCCESS row for the order |
| LedgerRuns.StatusesMonotone | payment-service/src/repositories/payment.repository.js:33-132 | along every run rows and intents stay, and SUCCESS to REFUNDED is the only change |
| LedgerRuns.LateChargesNeutralised | payment-service/src/repositories/payment.repository.js:66-97 | after a committed intent no continuation keeps a charge for the order |
| LedgerRuns.MarkRefundedNeverTouchesFailed | payment-service/src/services/payment.service.js:84-100 | when markRefunded locks or commits, its row is still a charged one |
| LedgerRuns.WithoutLockChargeIsKept | payment-service/src/repositories/payment.repository.js:6-11 | without waiting for the lock there is a run that keeps a charge whose refund was requested |
| LedgerRefunds.CommitReportsMoved | payment-service/src/repositories/payment.repository.js:115-121 | a refund returns exactly the rows it moved from SUCCESS to REFUNDED |
| LedgerRefunds.RefundsAddUp | payment-service/src/services/payment.service.js:111-120 | over every run the refunded counts add up to the number of rows moved |
| LedgerRefunds.RefundedAtMostOnce | payment-service/src/repositories/payment.repository.js:106-123 | no payment is returned by two refunds, and of the refunds of one order at most one returns any |
| LedgerRefunds.LaterRefundsReturnNothing | payment-service/src/repositories/payment.repository.js:106-123 | after an order's first committed refund every later one returns no rows |
| LedgerMarks.KeptUntilMarked | payment-service/src/services/payment.service.js:84-100 | along any run a kept payment is still kept at the end if and only if no call has marked it and none has asked for its order's refund |
| LedgerMarks.MarkedByRun | payment-service/src/repositories/payment.repository.js:125-132 | the payments recorded as marked along a run are exactly those whose marking it commits |
| LedgerMarks.RefundedTwice | payment-service/src/services/payment.service.js:84-100 | wherever a payment is kept, a client free and the row not locked, two calls of refundPayment can both report it refunded |
| LedgerMarks.ReportedRefundedTwice | payment-service/src/services/payment.service.js:84-100 | such a run from the empty ledger |
| LedgerMarks.LateLookFails | payment-service/src/services/payment.service.js:84-95 | a call that looks after the payment was refunded never reports it refunded, whatever runs |
| LedgerReplies.ErrorsHaveCause | payment-service/src/repositories/payment.repository.js:13-29 | a call answers with an error if and only if it got no client, was rolled back, crashed, was not told of its commit, or looked for a payment that was missing or not SUCCESS |
| LedgerReplies.HeardCommitsAreAnswered | payment-service/src/repositories/payment.repository.js:19-21 | a call told of its commit answers what that commit did: whether its row was committed as REFUNDED, or the rows it moved |
| LedgerReplies.AnswersAreEarned | payment-service/src/repositories/payment.repository.js:19-21 | every answer that is no error reports a commit that the run holds |
| LedgerReplies.FailuresCanStrike | payment-service/src/repositories/payment.repository.js:13-29 | in every state each kind of failure is possible wherever the code can meet it |
| LedgerLiveness.DeadlockFreedom | payment-service/src/repositories/payment.repository.js:13-29 | while a call is unfinished some call can take a step that is not a failure, for any pool size and hash |
| LedgerLiveness.RunsAreBounded | payment-service/src/repositories/payment.repository.js:13-132 | without new calls every schedule is finite, within a bound computed from the state |
| LedgerLiveness.EveryCallCanFinish | payment-service/src/repositories/payment.repository.js:13-132 | from every reachable state all pending calls can be driven to their answers, and a call that has not failed yet ends without an error, except that refundPayment refuses a payment it finds not to be SUCCESS |
| PaymentService.PaymentRepository.CreateChargedPayment | payment-service/src/repositories/payment.repository.js:73-97 | the statements have the effect of one atomic charge record, and the row comes back only if the commit is heard |
| PaymentService.PaymentRepository.RequestRefundByOrderId | payment-service/src/repositories/payment.repository.js:109-123 | the statements have the effect of one atomic refund request and return the rows that were SUCCESS |
| PaymentService.PaymentRepository.CreateFailed | payment-service/src/repositories/payment.repository.js:33-48 | inserts the FAILED row with this charge, no transaction and no refund stamp, unless rolled back |
| PaymentService.PaymentRepository.MarkRefunded | payment-service/src/repositories/payment.repository.js:125-132 | marks the row whatever its status, and keeps the ledger's invariant |
| PaymentService.MeanwhileIsLater | payment-service/src/services/payment.service.js:29-34 | whatever other calls do at an await, they lose nothing and insert none of this call's keys |
| PaymentService.MeanwhileIsCommits | payment-service/src/repositories/payment.repository.js:3-29 | what the ledger's transactions commit during an await, without inserting a key of this call, is this interference |
| PaymentService.StillKept | payment-service/src/services/payment.service.js:84-100 | a kept payment is still kept after an await if and only if nobody marked it or asked for its order's refund there |
| PaymentService.Pass | payment-service/src/services/payment.service.js:25-47 | one try: the tables are what the others have made of them plus the row if its recording took effect; a row is returned exactly for a charge whose recording is heard, REFUNDED exactly if the intent exists |
| PaymentService.ChargeWithRetry | payment-service/src/services/payment.service.js:24-60 | the loop stops at the first returned row or after all passes, with the charges, rows, time and tables of the passes made |
| PaymentService.RecordFailed | payment-service/src/services/payment.service.js:62-74 | one FAILED row carrying the charge when every pass failed, on top of what the others have done |
| PaymentService.ProcessPayment | payment-service/src/services/payment.service.js:20-75 | what is returned, how many gateway charges and rows it made, the time it took, and the tables it leaves, under any interference and failure; a returned row is REFUNDED if and only if the refund was requested before the call or in one of its passes; a FAILED row carries the charge |
| PaymentService.IntentsAfterPasses | payment-service/src/services/payment.service.js:29-34 | after n passes an order's refund is requested if and only if it was before or was requested in one of them |
| PaymentService.IntentsAfterCall | payment-service/src/services/payment.service.js:24-69 | after the whole call an order's refund is requested if and only if it was before or was requested while the call was waiting |
| PaymentService.ChargesAccounted | payment-service/src/services/payment.service.js:24-69 | charges are rows plus failed recordings, and the charged rows are the returned one and those whose commit went unheard |
| PaymentService.RowIsStored | payment-service/src/services/payment.service.js:16-19 | at least one row if and only if the FAILED row's insert or some charge's recording takes effect; exactly one if and only if no commit goes unheard, or precisely one in place of a FAILED row that could not be inserted |
| PaymentService.StoredWhateverTheGatewayDoes | payment-service/src/services/payment.service.js:16-19 | for all gateway answers: a row if and only if the FAILED row's insert does not fail, exactly one if and only if besides no commit's reply is lost |
| PaymentService.FailedMeansUncharged | payment-service/src/services/payment.service.js:24-74 | for all gateway answers, no charge without a returned row, if and only if no recording can fail |
| PaymentService.ChargedAtMostOnce | payment-service/src/services/payment.service.js:24-60 | for all gateway answers, at most one charge, if and only if no recording but the last can fail |
| PaymentService.NothingStored | payment-service/src/services/payment.service.js:62-69 | an input on which no row is stored |
| PaymentService.StoredTwice | payment-service/src/services/payment.service.js:39-69 | an input on which two rows are stored, and one if the FAILED row cannot be inserted |
| PaymentService.FailedYetCharged | payment-service/src/services/payment.service.js:24-69 | an input on which the payment is charged and reported FAILED |
| PaymentService.ChargedTwice | payment-service/src/services/payment.service.js:25-48 | an input on which one payment is charged twice and recorded once |
| PaymentService.DeadlineFits | payment-service/src/services/payment.service.js:55-58 | the time bound is within 15 s if and only if there are at most four retries, and with more the backoff alone reaches it |
| PaymentService.PausesDouble | payment-service/src/services/payment.service.js:55-58 | the pauses are 1 s, doubled each time, none after the last pass, and add up to the backoff |
| PaymentService.RefundByOrderId | payment-service/src/services/payment.service.js:111-141 | unless rolled back the refund is recorded and nothing is kept, even when the call then fails; the tables it leaves; the count and the message are true |
| PaymentService.RefundPayment | payment-service/src/services/payment.service.js:84-100 | succeeds if and only if the row was SUCCESS when looked up and both statements are heard to succeed; each error's cause; the tables end as the sleep left them with the row marked |
| OrderSafety.WorldStepInv | order-service/src/sagas/create-order.saga.js:37-182 | every step of every saga and every ledger transaction keeps the invariant of the whole system |
| OrderSafety.CausesKept | payment-service/src/repositories/payment.repository.js:81-132 | a row is REFUNDED only because its order's refund was requested or a call of RefundPayment has marked it, and every row so marked is REFUNDED |
| OrderRuns.SagaConsistency | order-service/src/sagas/create-order.saga.js:37-118 | once a saga has ended, now and in every continuation: returned means confirmed and paid; thrown means no kept payment unless the refund failed and no confirmed order unless the cancellation failed |
| OrderRuns.PaymentIsKeptUnlessMarked | order-service/src/sagas/create-order.saga.js:65-118 | in every reachable state the payment of a returned saga is REFUNDED if and only if the run has committed a markRefunded of that payment, and SUCCESS otherwise |
| OrderRuns.LedgerPartIsRun | payment-service/src/repositories/payment.repository.js:3-29 | the ledger's steps in a run of the whole system are a run of the ledger with the same end |
| OrderRuns.LateChargesNeutralised | order-service/src/sagas/create-order.saga.js:53-70 | after a successful refund compensation no continuation keeps a charge, however late |
| OrderRuns.RegisteredBeforeAct | order-service/src/sagas/create-order.saga.js:26-30 | in every reachable state each effect that happened or may happen has its compensation registered |
| OrderRuns.EventsTellTheTruth | order-service/src/sagas/create-order.saga.js:149-182 | at most one event and one notification per order; ORDER_CREATED and notifications are about confirmed, paid orders with their fields, ORDER_FAILED about thrown sagas |
| OrderRuns.PublishesIndependently | order-service/src/sagas/create-order.saga.js:146-174 | each topic gets the order's own data or nothing, independently, and a lost publish changes nothing else |
| OrderRuns.TopicsHoldWhatWasPublished | order-service/src/sagas/create-order.saga.js:106-182 | in every reachable state an order has an ORDER_FAILED event if and only if its saga threw and that publish went through, an ORDER_CREATED event or a notification if and only if it returned and that very publish went through; a saga ends at most once |
| OrderRuns.EndedStaysForever | order-service/src/sagas/create-order.saga.js:106-117 | nothing changes what a finished saga owns |
| OrderRequests.OrdersAreWhatWasAsked | order-service/src/sagas/create-order.saga.js:50-103 | in every reachable state the charge, the payment rows and the order row of an order say what was asked for and what the product service answered: total is price times quantity |
| OrderRequests.NothingIsChargedUnasked | order-service/src/sagas/create-order.saga.js:50-74 | no charge is sent without a product found for that order |
| OrderScenarios.OrderIsReturned | order-service/src/sagas/create-order.saga.js:37-118 | a whole run from the empty system in which the order asked for is returned, paid and announced |
| OrderScenarios.ChargeIsRefunded | order-service/src/sagas/create-order.saga.js:53-144 | a whole run in which the charge is made but its reply comes too late, and the saga refunds it and announces the failure |
| CreateOrderSaga.Orchestrator.Execute | order-service/src/sagas/create-order.saga.js:37-118 | for every script: the world left, the saga's own steps and the time taken are those its code prescribes; an order is returned if and only if every step was heard to succeed by the end of its wait, and then it is confirmed and paid, for the product found and its price times the quantity; otherwise it is unwound and failed names exactly the compensations not heard to succeed; at most 40 s |
| CreateOrderSaga.Orchestrator.Await | order-service/src/sagas/create-order.saga.js:37-118 | at an await exactly those scripted steps of the others happen that can be taken in their turn, and nothing the saga owns changes |
| CreateOrderSaga.Orchestrator.Try | order-service/src/sagas/create-order.saga.js:43-105 | the try block: the world left, its own steps, the world in which the scripted wait for the payment ended, and what is registered when it fails |
| CreateOrderSaga.Orchestrator.RunCompensations | order-service/src/sagas/create-order.saga.js:125-144 | the saga's own steps are those of every compensation once, last registered first, whichever throw; failed is exactly the names whose step in the run is an error; when each throws |
| SagaScript.UndoStepsShow | order-service/src/sagas/create-order.saga.js:125-144 | the steps of an unwinding show every compensation run exactly once in reverse order, and errors exactly where one threw |
| SagaScript.RunOrderIsReverse | order-service/src/sagas/create-order.saga.js:128-137 | the order in which compensations run is the reverse of the order of registration |
| SagaScript.OthersRun | order-service/src/sagas/create-order.saga.js:37-118 | when what is scripted for an await is a run of the others, exactly that run happens |
| SagaSchedules.ScriptIsPlayedOut | order-service/src/sagas/create-order.saga.js:37-144 | when every step written down for the saga and for the others can be taken in its turn, look-ups, payment, insert, compensations in reverse and publication each after its wait, the saga leaves the world that this run leads to |
| CreateOrderSaga.Orchestrator.RunCancel | order-service/src/sagas/create-order.saga.js:79-91 | one cancellation step; the row is CANCELLED if the update was done and untouched if not; it throws if and only if the update is not heard to be done, and is named as failed then |
| CreateOrderSaga.Orchestrator.RunRefund | order-service/src/sagas/create-order.saga.js:57-63 | one refund compensation: sent, awaited as scripted, answered; it throws if and only if the call awaited has not confirmed by the end of that wait, and is named as failed then |
| CreateOrderSaga.Orchestrator.HearRefund | order-service/src/sagas/create-order.saga.js:59-61 | the refund compensation succeeds exactly when a refund call of this order has replied by then |
| CreateOrderSaga.Orchestrator.LookUp | order-service/src/sagas/create-order.saga.js:46-65 | user and product lookups with their time; the product found is kept, and the refund registered when the charge is sent |
| CreateOrderSaga.Orchestrator.HearPayment | order-service/src/sagas/create-order.saga.js:65-91 | the saga goes on exactly when a SUCCESS reply for its order has come by then, with the cancellation registered; anything else unwinds |
| CreateOrderSaga.Orchestrator.Pay | order-service/src/sagas/create-order.saga.js:65-74 | the scripted wait for the payment, and the recorded step at which it ended with a reply if the call had answered by then and an error if not |
| CreateOrderSaga.Orchestrator.Insert | order-service/src/repositories/order.repository.js:4-24 | the insert; the row is there if and only if it was done, and success is reported if and only if that was also heard |
| CreateOrderSaga.Orchestrator.Unwind | order-service/src/sagas/create-order.saga.js:106-111 | compensate, announce, throw; the world left, and which compensations threw |
| CreateOrderSaga.Orchestrator.Publish | order-service/src/sagas/create-order.saga.js:113-117 | publishing cannot undo a confirmed order |
| NotificationProtocol.BumpCounts | infra/rabbitmq/init-topology.sh:38-48 | a death raises its own count by one and no other; entries stay unique |
| NotificationConsumer.Consumer.HandleMessage | notification-service/src/messaging/consumer.js:90-120 | handling a delivery, for every outcome and written frame by frame, is one step of the protocol and keeps its invariant; which frames it writes for which outcome and retry count |
| NotificationConsumer.Consumer.Serve | notification-service/src/messaging/consumer.js:71-150 | for every schedule of publishes, deliveries, expiries, cuts and handler outcomes the consumer's code makes a run of the protocol, so no message is lost |
| NotificationConsumer.ServedRun | notification-service/src/messaging/consumer.js:71-150 | a schedule that is a run of the protocol happens step by step |
| NotificationSafety.StepInv | notification-service/src/messaging/consumer.js:90-150 | every step, including a cut at any frame, keeps counts, frames, expiry order and copies |
| NotificationSafety.NoMessageIsLost | notification-service/src/messaging/consumer.js:122-150 | in every reachable state a message not yet handled successfully has a copy in a queue or unacknowledged |
| NotificationSafety.RetryCountIsHistory | notification-service/src/messaging/consumer.js:161-175 | retryCountOf is the number of retry rounds of the copy; rejections do not count; handler runs on a copy are bounded |
| NotificationFates.DeadLettersHaveCause | notification-service/src/messaging/consumer.js:108-118 | in every run a dead letter has used up its retries and been handled at least maxRetries + 1 times, or the run holds a failure of that message whose retry could not be published |
| NotificationFates.GivenUpOnlyAfterLastRetry | notification-service/src/messaging/consumer.js:108-118 | while publishing works no message is given up before its last retry |
| NotificationFates.FailureIsRetried | notification-service/src/messaging/consumer.js:129-138 | a handler that fails with retries left leaves one copy waiting for the time to live, and no dead letter |
| NotificationFates.FailureIsGivenUp | notification-service/src/messaging/consumer.js:108-150 | one that fails with none left, or whose retry cannot be published, leaves one dead letter and no copy |
| NotificationFates.SuccessLeavesNothing | notification-service/src/messaging/consumer.js:96-100 | after a success, whatever happens until the next delivery, there is no dead letter and no waiting copy of it |
| NotificationFates.CutRedelivers | notification-service/src/messaging/consumer.js:122-150 | a cut loses the unread frames and brings the delivery back first |
| NotificationFates.RetryWaits | infra/rabbitmq/init-topology.sh:38-44 | a waiting copy stays in the retry queue until its expiry |
| NotificationSafety.ExpiredIsPrefix | infra/rabbitmq/init-topology.sh:38-44 | expired entries are a prefix of the retry queue |
| NotificationSafety.AllExpiredAreReleased | infra/rabbitmq/init-topology.sh:38-44 | releasing at the head releases every expired entry |
| NotificationTermination.MovePays | notification-service/src/messaging/consumer.js:90-150 | every step uses up work, and every handler run uses up one of the message's remaining runs |
| NotificationTermination.StepsAreBounded | notification-service/src/messaging/consumer.js:90-150 | with finitely many messages and cuts there are finitely many steps |
| NotificationTermination.HandlerRunsPerMessage | notification-service/src/messaging/consumer.js:108-118 | the handler sees a message at most maxRetries + 1 times, and as often again per cut |
| NotificationTermination.EveryMessageEnds | notification-service/src/messaging/consumer.js:90-150 | whatever the handler does, every message ends as handled or dead-lettered |
| AnalyticsConsumer.Consumer.HandleEvent | analytics-service/src/services/analytics.service.js:5-23 | which row is inserted, column by column, and exactly when it throws, for every payload and database behaviour |
| AnalyticsConsumer.Consumer.ProcessMessage | analytics-service/src/messaging/consumer.js:46-81 | retries until handled, and otherwise dead-letters or logs a loss; never throws |
| AnalyticsConsumer.Consumer.Consume | analytics-service/src/messaging/consumer.js:24-31 | the offset advances by one past every message, poison or not |
| AnalyticsConsumer.MessageFate | analytics-service/src/messaging/consumer.js:58-80 | which messages are handled; a handled one has a row unless its type is unknown; duplicates, or rows of a message given up, exactly when the reply to an insert was lost or the dashboard failed at an attempt made |
| AnalyticsConsumer.DashboardFailsOnce | analytics-service/src/services/analytics.service.js:22 | an input on which one event leaves two rows and is handled |
| AnalyticsConsumer.DashboardFailsAlways | analytics-service/src/messaging/consumer.js:58-80 | an input on which one event leaves three rows and a dead letter |
| AnalyticsConsumer.EveryOffsetIsAccountedFor | analytics-service/src/messaging/consumer.js:36-97 | every message consumed is of an unknown type, or has its own rows in the table, or a dead letter with its number of attempts, or is logged as lost, never both of these; rows and a dead letter together exactly when no attempt went through but one left a row |
| CrossService.MetricsTellTheTruth | analytics-service/src/repositories/analytics.repository.js:4-19 | under any failures a CREATED row is about a confirmed, paid order and has its fields; no order has rows of both kinds |
| CrossService.DashboardIsRight | analytics-service/src/repositories/analytics.repository.js:21-31 | if each event has left one row, after whatever retries, the counts are right and total_revenue is the sum of the consumed confirmed orders |

## Left out

- CreateOrderSaga.Orchestrator.Execute: its time covers the lookups, the payment call and the refund call, each cut off at its deadline; database and broker time has no deadline in the code and is not counted.
- OrderRuns.SagaConsistency: a crash of order-service in the middle of a saga is not modelled, because its compensation list does not survive one.
- OrderRuns.EventsTellTheTruth: a second copy of an event, sent by the producer after a lost acknowledgement, is not modelled; consumers would see the same event twice.
- PaymentService.ProcessPayment: its time covers the gateway and the backoff, not the database.
- The orders table is part of the system state of `OrderWorld` and is updated there as a value; aliasing of row objects is not modelled.
- `LedgerProtocol` and `NotificationProtocol` are step systems over values, because their point is what overlaps; the code that takes the steps one after another is in the classes.
- error texts, created_at, the clock value in refunded_at (only whether it is set), user names and e-mail addresses.
- Redelivery of a Kafka message whose offset was not committed before a crash of the consumer.
- getTopProducts, getPayment and getOrder: plain reads.
- API gateway routes, user-service, product-service, generated protobuf code, loggers, correlation ids, migrations, connection and shutdown handling.
- JSON parsing: a payload either parses or does not. A notification that does not parse is one whose handler fails every time.
- The internals of Postgres, RabbitMQ and Kafka beyond the semantics stated above.
