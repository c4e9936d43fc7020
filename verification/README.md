# Event delivery: outbox, relay, consumers, redrive

A Dafny model of how events travel between the three services, and proofs of what the design promises:
an order or a status change is stored together with its event in an outbox table, a relay publishes the
row at least once, a consumer applies each message exactly once by storing its key in the transaction of
its writes, and messages it cannot handle wait in a dead-letter queue until they are redriven.

`dafny verify dfyconfig.toml` checks everything.

## The two layers

**Code layer.** Each source file has its counterpart, in the form the source has: classes with fields and
loops where it updates state (`Relay`, `OutboxStores`, `TransactionHost`, `TrackingService`,
`Notifications`, `Consumer`, `Redrive`, `OrderService`), functions where it computes (`Orders`). Each
method is proved against a specification function (`RelayBatch.Tick`, `RelaySchedule`,
`TrackingService.TransactionOutcome`, `Notifications.TransactionOutcome`, `Redrive.Loop`,
`OrderStore.Execute`), and the properties are proved about those functions, over single calls
(`RelayBatch`, `Tracking`, `OrderStore`) and over whole runs (`RelayRuns`, `RelayBounds`, `RelayStarvation`,
`RelayFaults`, `RelaySchedule`, `Tracking.HistoryHolds`, `Notifications.NotificationBijection`,
`OrderStore.MoneyAgrees`). What the broker, the database, the provider, the clock and the id generator
answer is a parameter.

**Protocol layer.** `Protocol` is one state machine of all participants: both outboxes, any number of
relay passes, the queues, any number of deliveries with their open transactions, the dead-letter queue,
any number of redrives, and publishers outside the system. Every step is atomic, and a participant can
stop for good between any two. `ProtocolInvariant` has the inductive invariant, `ProtocolPreservation`
the proof that every step keeps it, `ProtocolTheorems` what follows for every reachable state.
`PassRefinement`, `DeliveryRefinement` and `RedriveRefinement` connect the layers: a pass of a relay, a
delivery and a redrive, with everybody else at work between any two of their awaits, statements or calls,
are runs of the protocol. `TickRefinement`, `DeliveryAnswers` and the end of `RedriveRefinement` tie those
awaits, statements and calls to the functions that the classes are proved to implement. `ProtocolRaces`
runs the race of two events for one order, `RelayRaces` that of two relays for one row.

The modules build on each other in this order: `Base`, `Contracts`, `Outbox`; `RelayBatch`, `RelayRuns`,
`RelayBounds`, `RelayStarvation`, `RelayFaults`, `RelaySchedule`; `OutboxStores`, `Relay`;
`TransactionHost`; `Tracking`, `TrackingService`; `Notifications`; `Consumer`; `Redrive`; `Orders`,
`OrderStore`, `OrderService`;
`Protocol`, `ProtocolRows`, `ProtocolInvariant`, `ProtocolPreservation`, `ProtocolTheorems`;
`Refinement`, `PassRefinement`, `TickRefinement`, `DeliveryRefinement`, `DeliveryAnswers`,
`RedriveRefinement`, `ProtocolRaces`, `RelayRaces`.

## What is assumed of the environment

- A database transaction is all or nothing. `(consumerName, eventId)` and the order id of a shipment are
  unique; an insert that meets an uncommitted row with the same key waits for it, and a unique violation
  is raised only by a committed row. The commit of a consumer transaction may go through although its
  answer is lost.
- Outbox rows become visible in `createdAt` order, so a table is a sequence and a row's position its id.
- A confirmed publish puts a copy into every bound queue; one that throws may have reached any of them,
  or none. A mark that throws did not apply, in the relay's functions; `PassRefinement` and the protocol
  also let it have applied.
- Event ids are drawn fresh, and publishers outside the system do not reuse an id for another event.
- No other error passes for the violation of a unique key, or carries the text `DUPLICATE_MESSAGE`.
  `TrackingService.MeaningOfResult` and `Notifications.AckedIffProcessed` say exactly what happens otherwise.
- In the protocol, a redrive's target queue exists. `Redrive.MissingTargetLoses` says what happens otherwise.

## Where the code differs from its documentation

- `docs/ARCHITECTURE.md:64` and `docs/ARCHITECTURE.md:91` have the relay claim with SKIP LOCKED. Neither
  `claimBatch` locks anything, so two relays may publish the same row; the protocol lets them.
- `docs/ARCHITECTURE.md:73` has the tracking consumer insert an outbox row. `createPendingShipment` does not.
- The two stores count attempts at different moments, the order store when it marks, the tracking store when
  it claims; the relay compares before its own mark, so the tracking store gives up one attempt earlier.
- `docs/RUNBOOK.md:85` expects a processed row for an acked duplicate. The tracking service answers
  `duplicate` to any P2002 of the transaction, and then there need not be one; the shipment is there, though.

## Findings

The members named show them, and the exact condition under which they do not occur.

- With one relay, a row can be dead although its message has reached the queues, under every configuration:
  exactly when the confirm of a publish is lost, or its `markPublished` throws
  (`RelayFaults.DeadThoughDelivered`, `DeadWasDeliveredIff`, `DeadMeansUndeliveredIff`).
- With one relay, every publish call whose error mark throws comes on top of the attempt bound, without end
  (`RelayFaults.NoBoundUnderMarkFaults`, `AttemptBoundHolds`, `AttemptBoundIff`).
- With two relays, and no fault of the database at all, a pass that claimed a row before another one marked
  it published publishes it again, and can mark it dead (`RelayRaces.PublishedTwiceOrDead`).
- A status update with a location outside the bounds of the contract is committed, and its notification
  refused and dead-lettered, because nothing checks it before (`Consumer.OffEarthIsStored`,
  `StatusEventAcceptedIff`).
- An acked tracking message need not have a processed key, when an order has two events
  (`ProtocolRaces.AckedWithoutProcessedKey`, `ProtocolTheorems.AckedImpliesProcessed`).
- An error whose text is `DUPLICATE_MESSAGE` makes the notification store ack a message it did not process
  (`Notifications.ForgedSentinelLosesNotification`, `AckedIffProcessed`).
- `dispatch` returns the update to SENT without awaiting it, so its failure skips the catch block and the
  FAILED update (`Notifications.NotificationDispatchService.Dispatch`); the rollback hides the difference.
- A caught failure of a joined `withTransaction` leaves the writes before it in the outer transaction
  (`TransactionHost.CaughtFailureKeepsWrites`), if it is not an error of the database: PostgreSQL aborts
  the whole transaction after a failed statement. No caller in the repository catches one. The
  notification service's `withTransaction` does not join at all (`TransactionHost.UnjoinedBodySurvives`).
- `redrive` does not end when a send keeps throwing, since the message goes back to the front and is not
  counted (`Redrive.FailingSendNeverEnds`), nor when count is "all" and a non-empty queue without the
  suffix is its own target (`Redrive.OwnTargetNeverEnds`); `Redrive.RedriveEndsIff` says when it ends.
  Without a target queue it reports as redriven what is lost (`Redrive.MissingTargetLoses`).
- `findById` cannot restore the shipping address, which no table holds (`OrderStore.FindSucceeds`).

## Model

| member | source | states |
|---|---|---|
| ProtocolTheorems.NoOrderLost | libs/messaging/src/outbox/outbox-relay.service.ts:56-77 | No loss: in every reachable state each committed order has exactly one order.created row, and that row is pending, or dead, or has arrived: for each bound queue a copy is still held (ready, unacked, dead-lettered, taken by a redrive) or the effect is committed; a published row has arrived even if it is dead as well |
| ProtocolTheorems.NoRowLost | libs/messaging/src/outbox/outbox-relay.service.ts:56-77 | The same fate for every row of both outboxes, status changes included |
| ProtocolTheorems.ShipmentsExactlyOnce | apps/tracking-service/src/repositories/processed-message.repository.ts:32-56 | Over republished rows, requeues, crashes and redrives no order gets two shipments; a shipment has one history entry for its creation and one for each announced change, and the announced changes fold from PENDING to its status |
| ProtocolTheorems.NotificationsExactlyOnce | apps/notification-service/src/infrastructure/prisma/prisma-processed-message.store.ts:18-56 | Processed keys and delivery rows correspond one to one, every row is SENT with its time and was sent at least once, and no two rows are for the same event type and event |
| ProtocolTheorems.AckedIsDone | libs/messaging/src/consumer/idempotent-consumer.base.ts:87-99 | Whatever copy was ever acked has its effect: a shipment of its order, or its processed key, under the name of its consumer, with a SENT row and a provider call |
| ProtocolTheorems.AckedUnlessAnotherEvent | apps/tracking-service/src/repositories/processed-message.repository.ts:32-50 | An acked tracking message has its processed key, or another event of the same order was processed |
| ProtocolTheorems.AckedImpliesProcessed | apps/tracking-service/src/repositories/processed-message.repository.ts:32-50 | In every reachable state whose order events have distinct order ids, an acked tracking message has its processed key |
| ProtocolTheorems.OwnAckedIsProcessed | apps/tracking-service/src/repositories/processed-message.repository.ts:32-50 | So it is in every run in which nobody outside the system publishes an order event |
| ProtocolRaces.AckedWithoutProcessedKey | apps/tracking-service/src/repositories/processed-message.repository.ts:47-50 | The condition is needed: from any reachable state, any two new events of an order without a shipment can end with one of them acked and its key not stored |
| ProtocolTheorems.NoPhantoms | apps/tracking-service/src/consumers/tracking-order-created.consumer.ts:39-47 | In a run without foreign order events every shipment and every order notification belongs to a committed order |
| ProtocolTheorems.EventIdsAreFrozen | libs/messaging/src/outbox/outbox-relay.service.ts:101-111 | An event id means one event in every outbox row, queue, delivery, redrive and acked message, because the payload is stored once |
| ProtocolTheorems.NotifiedTotalIsStoredTotal | apps/order-service/src/infrastructure/events/rmq-order-event.publisher.ts:14-24 | The total a notification states for an order event is the stored order total and what the order items add up to in any reading order |
| ProtocolTheorems.OrderNotificationSays | apps/notification-service/src/consumers/order-created.consumer.ts:38-49 | In every reachable state, the notification of an order event goes by mail to the customer of the stored order and states its id, number of items, total and currency |
| ProtocolTheorems.StatusNotificationSays | apps/notification-service/src/consumers/shipment-status-changed.consumer.ts:38-49 | In every reachable state, the notification of a status change goes by text message to the order of the shipment and names the shipment and the status that its history got with that very change |
| ProtocolTheorems.OrderEventsAccepted | libs/messaging/src/consumer/idempotent-consumer.base.ts:66-73 | Every event of the order outbox is bound to exactly the two queues for orders, and both consumers accept it |
| ProtocolTheorems.StatusEventsAccepted | libs/messaging/src/consumer/idempotent-consumer.base.ts:66-73 | Every event of the tracking outbox is bound to exactly the queue for status changes, and accepted exactly when its location, if any, is inside the bounds |
| ProtocolPreservation.StepKeepsInv | libs/messaging/src/outbox/outbox-relay.service.ts:50-90 | Every step of every participant keeps the inductive invariant: known events, batches that quote their rows, deliveries, transaction knowledge and locks, keys, acks, and the three databases |
| ProtocolPreservation.ReachableOk | libs/messaging/src/outbox/outbox-relay.service.ts:50-90 | The invariant holds in every reachable state |
| ProtocolPreservation.RunKeepsInv | libs/messaging/src/outbox/outbox-relay.service.ts:50-90 | So does every run |
| ProtocolPreservation.UntouchedFlightOk | apps/tracking-service/src/repositories/processed-message.repository.ts:33-46 | What an open consumer transaction has seen stays true whatever another participant does, because of the uncommitted unique keys |
| ProtocolPreservation.ShipmentsStayKeyed | apps/tracking-service/src/repositories/processed-message.repository.ts:33-46 | Every shipment was committed with the processed key of an event of its order; every step keeps that |
| ProtocolPreservation.CommitOk | apps/tracking-service/src/repositories/processed-message.repository.ts:33-46 | A commit of a consumer transaction establishes the effect of its message |
| ProtocolInvariant.StepHolds | libs/messaging/src/consumer/idempotent-consumer.base.ts:75-108 | A step moves a message, keeps it, or acks it, and an acked one has its effect |
| ProtocolInvariant.StepDelivers | libs/messaging/src/consumer/idempotent-consumer.base.ts:75-108 | What has reached every bound queue stays held or has its effect, in any step |
| ProtocolRows.StepRow | libs/messaging/src/outbox/outbox-relay.service.ts:56-77 | In any step, an outbox row keeps its place and its event, never stops being published, and becomes published only by a mark of that row |
| ProtocolRows.NewKeys | apps/tracking-service/src/repositories/processed-message.repository.ts:33-46 | Processed keys grow by exactly the key of a commit, in one step of any participant |
| ProtocolRows.NewShipments | apps/tracking-service/src/services/shipments.service.ts:48-71 | Orders with a shipment grow by exactly the order of a commit, in one step of any participant |
| PassRefinement.PassIsRun | libs/messaging/src/outbox/outbox-relay.service.ts:50-90 | Every way in which the awaits of a tick (claim, publish, mark, error mark) can interleave with steps of everybody else, another relay of the same outbox included, is a run of the protocol ending in the tables and queues that the awaits leave; for any answers, also when a statement that throws has been applied, and when the process dies |
| PassRefinement.AwaitIsRun | libs/messaging/src/outbox/outbox-relay.service.ts:56-77 | In any state, whatever others are in the middle of, what one await of a tick does to tables and queues is what enabled steps of the protocol do |
| TickRefinement.PassReports | libs/messaging/src/outbox/outbox-relay.service.ts:58-77 | Whatever happens between the awaits, the publish calls and the returned count are those of the batch function |
| TickRefinement.AloneIsTick | libs/messaging/src/outbox/outbox-relay.service.ts:50-90 | A tick that nobody interrupts leaves rows, queues, calls and count as the tick function says, which the relay class is proved to implement |
| TickRefinement.TickIsRun | libs/messaging/src/outbox/outbox-relay.service.ts:50-90 | So one uninterrupted tick, under any claim, publish and mark faults, is a run of the protocol ending in exactly that |
| Refinement.LeadsReachable | libs/messaging/src/outbox/outbox-relay.service.ts:50-90 | What the code reaches by such sequences is reachable, so every theorem about reachable states holds there |
| DeliveryRefinement.DeliveryIsRun | libs/messaging/src/consumer/idempotent-consumer.base.ts:44-111 | One delivery at any of the three consumers, from the queue to its settlement, however its statements interleave with everybody else's steps, is a run of the protocol ending in the tables, sends and settlement of the code |
| DeliveryRefinement.StatementIsStep | apps/tracking-service/src/repositories/processed-message.repository.ts:33-56 | In any state, with any deliveries in flight, each statement with its possible answer is one protocol step, or none when it shows only at the commit; a unique violation ends as the catch block ends it |
| DeliveryRefinement.HandlingIsRun | apps/tracking-service/src/repositories/processed-message.repository.ts:33-56 | Every interleaving of the statements of one delivery with steps of others is a run of the protocol |
| DeliveryAnswers.TrackingStatements | apps/tracking-service/src/repositories/processed-message.repository.ts:26-57 | The transaction of the tracking classes, for any faults, a commit with a lost answer included, is those statements: same answer, and committed tables exactly when they get to a commit that goes through |
| DeliveryAnswers.NotificationStatements | apps/notification-service/src/infrastructure/prisma/prisma-processed-message.store.ts:12-57 | The same for the notification classes |
| DeliveryAnswers.RepliesFixAnswer | apps/tracking-service/src/repositories/processed-message.repository.ts:26-57 | Interleaving does not change the answer that given replies lead to |
| DeliveryAnswers.TrackingAnswersAlike | apps/tracking-service/src/repositories/processed-message.repository.ts:26-57 | Conversely, whatever a delivery meets among the steps of others, its answer is that of the tracking classes for some tables and some faults |
| DeliveryAnswers.NotificationAnswersAlike | apps/notification-service/src/infrastructure/prisma/prisma-processed-message.store.ts:12-57 | The same for the notification classes |
| DeliveryAnswers.RacingInsert | apps/tracking-service/src/repositories/processed-message.repository.ts:47-50 | A unique violation of the shipment insert is possible exactly when the shipment was committed meanwhile; code and protocol both answer duplicate |
| DeliveryRefinement.RefusalIsRun | libs/messaging/src/consumer/idempotent-consumer.base.ts:49-73 | A message that a schema refuses is dead-lettered, as a run of the protocol |
| RedriveRefinement.RedriveIsRun | tools/dlq-redrive/src/index.ts:112-138 | Every way in which the calls of a redrive (get, send, ack, nack) can interleave with steps of everybody else, with calls that throw and a process that dies anywhere, is a run of the protocol, for a dead-letter queue and for a queue that is its own target, provided the target queue exists |
| RedriveRefinement.MoveIsRun | tools/dlq-redrive/src/index.ts:116-137 | In any state, each of these calls is one enabled step, or none |
| RedriveRefinement.AloneIsTurn | tools/dlq-redrive/src/index.ts:116-137 | A turn that nobody interrupts is such calls and leaves the broker queues as the turn function says, if the target queue exists |
| RedriveRefinement.AloneIsLoop | tools/dlq-redrive/src/index.ts:112-138 | A redrive that nobody interrupts is such calls: queues, counts and end are those of the loop function, which the command is proved to implement, if the target queue exists |
| RedriveRefinement.LoopIsRun | tools/dlq-redrive/src/index.ts:112-138 | So the whole uninterrupted loop is a run of the protocol, for any queue whose target exists |
| RelayBatch.TickLog | libs/messaging/src/outbox/outbox-relay.service.ts:56-77 | Under any faults a pass publishes the oldest pending rows only, oldest first, at most once each; without store faults it reaches every claimed row; a failed claim does nothing |
| RelayBatch.TickClaimed | libs/messaging/src/outbox/outbox-relay.service.ts:57-81 | When a mark in the inner catch throws, the rows before keep their outcomes and the later rows of the batch stay as claimed: unchanged in the order store, one attempt more in the tracking store |
| RelayRuns.RowThroughTick | libs/messaging/src/outbox/outbox-relay.service.ts:57-77 | One row through one pass under any faults: called once and marked by its own answers, or not called and unchanged but for the attempt its claim counted |
| RelayBatch.TickUnclaimed | libs/messaging/src/outbox/outbox-relay.service.ts:57-77 | Rows that are not claimed are untouched, whatever fails |
| RelayBatch.TickEffect | libs/messaging/src/outbox/outbox-relay.service.ts:57-77 | Without store faults a pass makes of every row what that row's own answers make of it |
| RelayBatch.CalledRowIs | libs/messaging/src/outbox/outbox-relay.service.ts:59-76 | Column by column, what the answers make of a row that is reached: publishedAt, deadAt, attempts and the error, with the time and the text of the answer |
| RelayBatch.TickReturnsNewlyPublished | libs/messaging/src/outbox/outbox-relay.service.ts:50-90 | The number a tick returns is the number of rows it newly marked published, whatever fails |
| RelayBatch.RunBatchLog | libs/messaging/src/outbox/outbox-relay.service.ts:58-77 | The publish calls are those of the reached records in batch order, and the pass ends early exactly at the first error mark that throws |
| RelayBatch.RunBatchRow | libs/messaging/src/outbox/outbox-relay.service.ts:59-76 | A reached row is marked by its own answers only |
| RelayRuns.SettledForGood | libs/messaging/src/outbox/outbox-relay.service.ts:57-72 | Across all ticks a settled row never changes again and is never published again; attempts never decrease; the event never changes |
| RelayRuns.LifeCycle | libs/messaging/src/outbox/outbox-relay.service.ts:57-72 | No row is both published and dead; a published row has a confirmed publish of exactly its event, whatever fails |
| RelayRuns.FifoModuloFailure | libs/messaging/src/outbox/outbox-relay.service.ts:57-62 | When a newer row is called before an older one in some tick, the older row had already suffered a failed publish; in every run under any faults |
| RelayRuns.FailureFreeOrder | libs/messaging/src/outbox/outbox-relay.service.ts:57-62 | When nothing fails, the publish sequence over all ticks is exactly the createdAt order |
| RelayStarvation.AttemptBoundReached | libs/messaging/src/outbox/outbox-relay.service.ts:65-71 | When marks work and every publish fails, a row that gets the ticks it may need, failed claims on top, is published exactly A times and is then dead |
| RelayBounds.CallsDetermineRow | libs/messaging/src/outbox/outbox-relay.service.ts:65-71 | While marks work, whatever claims and publishes fail: attempts are the publish calls, a row is published exactly when one was confirmed, dead exactly when the bound is reached without, pending otherwise |
| RelayFaults.AttemptBoundHolds | libs/messaging/src/outbox/outbox-relay.service.ts:65-71 | Under any faults a row is published at most A times plus once for each call whose error mark threw, A being max(1, maxAttempts) with the order store and max(1, maxAttempts - 1) with the tracking store; the order store counts exactly the other calls |
| RelayFaults.AttemptBoundMet | libs/messaging/src/outbox/outbox-relay.service.ts:65-71 | For any number of such calls some run has exactly that many publishes |
| RelayFaults.AttemptBoundIff | libs/messaging/src/outbox/outbox-relay.service.ts:65-71 | The attempt bound holds in all runs with up to n throwing error marks of the row exactly when n is zero |
| RelayFaults.NoBoundUnderMarkFaults | libs/messaging/src/outbox/outbox-relay.service.ts:65-76 | While the error mark of a row within reach keeps throwing, it is published in every tick without end, in any table and whatever arrives |
| RelayFaults.DeliveriesAccounted | libs/messaging/src/outbox/outbox-relay.service.ts:59-66 | With one relay and any faults, of the publishes of a row that reached the queues at most one marked it published and every other went unnoticed, its confirm lost or its markPublished throwing; the same of the confirmed publishes |
| RelayFaults.DeadWasDeliveredIff | libs/messaging/src/outbox/outbox-relay.service.ts:59-66 | With one relay, a dead row had reached the queues all the same exactly when one of its publishes went unnoticed that way; it had been confirmed exactly when a markPublished threw after a confirm |
| RelayFaults.DeadThoughDelivered | libs/messaging/src/outbox/outbox-relay.service.ts:59-66 | It happens under every configuration, in either sense and after any single unnoticed publish: failing publishes from then on are enough |
| RelayFaults.DeadMeansUndeliveredIff | libs/messaging/src/outbox/outbox-relay.service.ts:59-66 | With one relay, dead means that nothing reached the queues in all runs with up to n unnoticed publishes of the row exactly when n is zero; the same for confirms |
| RelayRaces.PublishedTwiceOrDead | libs/messaging/src/outbox/outbox-relay.service.ts:56-66 | With two relays, and without any fault of the database, a row that is marked published can be published again, and can end published and dead: from any reachable state with an oldest pending row at its last attempt |
| RelayStarvation.ClaimedIsCalled | libs/messaging/src/outbox/outbox-relay.service.ts:57-77 | A pass publishes every claimed row unless the error mark of an older one throws |
| RelayStarvation.StarvationBound | libs/messaging/src/outbox/outbox-relay.service.ts:56-77 | Under any faults and whatever newer rows arrive, a pending row with r older pending rows is settled within A * (r div b + 1) + F ticks, F being the ticks whose claim fails or in which the error mark of the row or of an older one throws |
| RelayStarvation.BatchCleared | libs/messaging/src/outbox/outbox-relay.service.ts:56-77 | After A such ticks on top of F a row has at least one batch fewer ahead of it, or nothing ahead |
| RelaySchedule.ScheduleAlwaysOk | libs/messaging/src/outbox/outbox-relay.service.ts:31-54 | Over every interleaving of wake, timer, direct tick, end of pass, init and destroy: at most one pass runs, at most one timer is armed, a scheduled relay keeps going, no wake is lost, no claim starts after destroy |
| RelaySchedule.StoppedForGood | libs/messaging/src/outbox/outbox-relay.service.ts:35-41 | After destroy no timer is armed and no pass begins, whatever is called |
| RelaySchedule.WakeIsAnswered | libs/messaging/src/outbox/outbox-relay.service.ts:43-54 | From start-up, a wake of a relay that was not stopped is followed by a zero-delay timer or by a pass that will see it |
| RelaySchedule.NextPassIsDue | libs/messaging/src/outbox/outbox-relay.service.ts:82-88 | Over every interleaving, when a pass of a relay that was not destroyed ends, exactly one timer is armed: with no delay if a wake came since that pass began, and with the poll interval otherwise; wakes and passes are counted from the signals |
| RelaySchedule.FirstPassIsDue | libs/messaging/src/outbox/outbox-relay.service.ts:31-33 | Start-up arms exactly one timer, with no delay |
| Outbox.ClaimedIff | apps/tracking-service/src/repositories/outbox.repository.ts:79-86 | A row is claimed exactly when it is pending and fewer than limit pending rows precede it |
| OutboxStores.PrismaOutboxStore.ClaimBatch | apps/order-service/src/infrastructure/prisma/prisma-outbox.store.ts:10-34 | Reads the oldest pending rows and changes nothing |
| OutboxStores.PrismaOutboxStore.MarkPublished | apps/order-service/src/infrastructure/prisma/prisma-outbox.store.ts:36-45 | Counts the attempt, sets publishedAt, clears the error, of that row only; nothing when it throws |
| OutboxStores.PrismaOutboxStore.MarkFailed | apps/order-service/src/infrastructure/prisma/prisma-outbox.store.ts:47-55 | Counts the attempt and stores the error |
| OutboxStores.PrismaOutboxStore.MarkDead | apps/order-service/src/infrastructure/prisma/prisma-outbox.store.ts:57-66 | Counts the attempt, sets deadAt, stores the error |
| OutboxStores.OutboxRepository.Enqueue | apps/tracking-service/src/repositories/outbox.repository.ts:56-74 | Appends a fresh pending row |
| OutboxStores.OutboxRepository.ClaimBatch | apps/tracking-service/src/repositories/outbox.repository.ts:76-99 | In one transaction, counts one attempt for each claimed row and returns the records after counting; any throwing statement rolls the whole claim back |
| OutboxStores.OutboxRepository.IncrementAttempts | apps/tracking-service/src/repositories/outbox.repository.ts:90-94 | Counts one attempt of one row and maps it |
| OutboxStores.OutboxRepository.MarkPublished | apps/tracking-service/src/repositories/outbox.repository.ts:101-109 | Sets publishedAt and clears the error; attempts stay |
| OutboxStores.OutboxRepository.MarkFailed | apps/tracking-service/src/repositories/outbox.repository.ts:111-118 | Stores the error; attempts stay |
| OutboxStores.OutboxRepository.MarkDead | apps/tracking-service/src/repositories/outbox.repository.ts:120-128 | Sets deadAt and stores the error; attempts stay |
| OutboxStores.OutboxStore.ClaimBatch | libs/messaging/src/outbox/outbox.types.ts:16-17 | The store interface, one contract for both counting policies |
| OutboxStores.OutboxStore.MarkPublished | libs/messaging/src/outbox/outbox.types.ts:18 | The same for this mark: either store, by its counting policy |
| OutboxStores.OutboxStore.MarkFailed | libs/messaging/src/outbox/outbox.types.ts:19 | The same for this mark |
| OutboxStores.OutboxStore.MarkDead | libs/messaging/src/outbox/outbox.types.ts:20 | The same for this mark |
| Relay.BaseOutboxRelay.constructor | libs/messaging/src/outbox/outbox-relay.service.ts:20-29 | A new relay has no timer, runs no pass, has no wake requested and is not stopped |
| Relay.BaseOutboxRelay.ScheduleNextTick | libs/messaging/src/outbox/outbox-relay.service.ts:92-99 | Implements the scheduling function: nothing when stopped, else replaces the timer |
| Relay.BaseOutboxRelay.OnModuleInit | libs/messaging/src/outbox/outbox-relay.service.ts:31-33 | Schedules the first tick with no delay |
| Relay.BaseOutboxRelay.OnModuleDestroy | libs/messaging/src/outbox/outbox-relay.service.ts:35-41 | Stops and clears the timer |
| Relay.BaseOutboxRelay.Wake | libs/messaging/src/outbox/outbox-relay.service.ts:43-48 | Requests a pass, and arms a zero-delay timer unless one runs |
| Relay.BaseOutboxRelay.HandleRecord | libs/messaging/src/outbox/outbox-relay.service.ts:59-76 | The inner try and catch for one record: what is published, marked and reported, and at how many awaits others can run |
| Relay.BaseOutboxRelay.ProcessBatch | libs/messaging/src/outbox/outbox-relay.service.ts:58-77 | The loop refines the batch function, early end included |
| Relay.BaseOutboxRelay.ClaimAndProcess | libs/messaging/src/outbox/outbox-relay.service.ts:56-81 | The try block of tick, with a claim that may throw |
| Relay.BaseOutboxRelay.Await | libs/messaging/src/outbox/outbox-relay.service.ts:50-61 | Calls that arrive during an await run to completion and leave the pass running; a tick among them returns at once |
| Relay.BaseOutboxRelay.Tick | libs/messaging/src/outbox/outbox-relay.service.ts:50-90 | The guard, the pass, and the finally block, with wakes, destroys, ticks and firing timers during any await; never throws; leaves a state that keeps the scheduling invariant, if it was entered in one |
| Relay.TickKeepsSchedule | libs/messaging/src/outbox/outbox-relay.service.ts:50-90 | A tick with whatever interrupts its awaits is a stretch of the schedule over which the scheduling invariant is proved |
| TransactionHost.NestingFlattens | apps/tracking-service/src/repositories/prisma-transaction-host.ts:18-27 | Any nesting of withTransaction bodies within an active transaction does what the flat sequence does |
| TransactionHost.JoinedBodyCommitsNothing | apps/tracking-service/src/repositories/prisma-transaction-host.ts:18-27 | Nothing of a joined body is committed before the outermost transaction ends |
| TransactionHost.ApplyCommits | apps/tracking-service/src/repositories/prisma-transaction-host.ts:24-26 | A commit leaves every written row with the last value written to it and every other row as it was |
| TransactionHost.CommitIsUnique | apps/tracking-service/src/repositories/prisma-transaction-host.ts:24-26 | Only one table is such a commit |
| TransactionHost.KeyAndHandlerStandOrFall | apps/tracking-service/src/repositories/processed-message.repository.ts:33-45 | Around a handler that nests withTransaction to any depth: if it gets through, the row of the processed key is there, every written row has its last value and all others are the same; otherwise nothing has changed |
| TransactionHost.OutermostStandsOrFalls | apps/tracking-service/src/repositories/prisma-transaction-host.ts:18-27 | The same for a withTransaction that finds no active transaction: it opens one |
| TransactionHost.CaughtFailureKeepsWrites | apps/tracking-service/src/repositories/prisma-transaction-host.ts:19-22 | When the failure of a joined body is caught, the outer transaction keeps exactly the writes made before it, so it is unaffected if and only if there were none; for errors that are not the database's |
| TransactionHost.CaughtFailureIsCommitted | apps/tracking-service/src/repositories/prisma-transaction-host.ts:18-27 | And the outermost transaction commits exactly those, each row with its last value |
| TransactionHost.UnjoinedBodySurvives | apps/notification-service/src/infrastructure/prisma/prisma.service.ts:33-37 | The notification service's withTransaction does not join: nested in a transaction that rolls back, all writes of a body are committed if it gets through and none otherwise, while a joined one never survives |
| TransactionHost.PrismaTransactionHost.Put | apps/tracking-service/src/repositories/prisma-transaction-host.ts:14-16 | A write goes to the active transaction if there is one, else to the database |
| TransactionHost.PrismaTransactionHost.RunInNewTransaction | apps/tracking-service/src/repositories/prisma-transaction-host.ts:24-31 | Opens, runs, commits every written row with its last value or rolls back, and restores the ambient value |
| TransactionHost.PrismaTransactionHost.WithTransaction | apps/tracking-service/src/repositories/prisma-transaction-host.ts:18-27 | Joins or opens, as the program semantics says |
| TransactionHost.PrismaTransactionHost.Operation | apps/tracking-service/src/repositories/prisma-transaction-host.ts:18-31 | Runs any program of writes, throws, nested bodies and catches as its semantics says |
| Tracking.HistoryHolds | apps/tracking-service/src/services/shipments.service.ts:48-138 | Over every serialised run each order has one shipment, whose history starts at PENDING, never repeats a status at once, ends at the current status, and whose outbox events are exactly its consecutive pairs |
| Tracking.CreateKeepsOk | apps/tracking-service/src/services/shipments.service.ts:48-71 | Creating a pending shipment keeps that |
| Tracking.FindByOrderId | apps/tracking-service/src/services/shipments.service.ts:52-55 | Finds a shipment of the order exactly when there is one |
| Tracking.UpdateKeepsOk | apps/tracking-service/src/services/shipments.service.ts:73-138 | A status update keeps that |
| Tracking.HistoryGrows | apps/tracking-service/src/services/shipments.service.ts:94-133 | A history grows by a different status, announced with the pair of old and new |
| Tracking.RelayKeepsOk | apps/tracking-service/src/repositories/outbox.repository.ts:76-128 | Whatever the relay does to outbox rows keeps that |
| Tracking.ChangesFoldToStatus | apps/tracking-service/src/services/shipments.service.ts:101-133 | The outbox events fold from PENDING to the current status and are one fewer than the history entries |
| Tracking.RefusedIff | apps/tracking-service/src/services/shipments.service.ts:80-105 | An update is refused exactly when the shipment does not exist or the status is not in the contract; then the tables are what they were |
| Tracking.UpdateDoes | apps/tracking-service/src/services/shipments.service.ts:80-128 | What an update does to every table, field by field: status, appended history entry with time and location, appended event with both statuses, time and location; nothing in every other case |
| Tracking.CreateDoes | apps/tracking-service/src/services/shipments.service.ts:48-69 | What a creation does to every table, field by field; nothing when the order has a shipment |
| Tracking.RowAgrees | apps/tracking-service/src/services/shipments.service.ts:94-133 | An outbox row announces exactly the change that the history entry made with it records, for the order of its shipment |
| TrackingService.TrackingDatabase.Enter | apps/tracking-service/src/repositories/prisma-transaction-host.ts:18-27 | withTransaction joins the active transaction or opens one |
| TrackingService.TrackingDatabase.Leave | apps/tracking-service/src/repositories/prisma-transaction-host.ts:18-27 | Only the opener commits or rolls back |
| TrackingService.TrackingDatabase.Write | apps/tracking-service/src/repositories/prisma-transaction-host.ts:14-16 | A statement through getClient: it stays in the active transaction if there is one; a throwing one does nothing |
| TrackingService.ShipmentsService.CreatePendingShipment | apps/tracking-service/src/services/shipments.service.ts:48-71 | Inside a transaction the writes stay there; on an error outside one nothing is written; it fails exactly when a statement it reaches throws |
| TrackingService.ShipmentsService.CreateInTransaction | apps/tracking-service/src/services/shipments.service.ts:52-69 | The body: an existing shipment is returned, otherwise row and history entry are written |
| TrackingService.ShipmentsService.UpdateShipmentStatus | apps/tracking-service/src/services/shipments.service.ts:73-145 | Fails exactly when it reaches the throwing statement, the shipment is missing or the status unknown; otherwise row, history entry and outbox row are committed together; the relay is woken exactly after a committed change |
| TrackingService.ShipmentsService.UpdateInTransaction | apps/tracking-service/src/services/shipments.service.ts:80-137 | The body: which statements are reached, what a throwing one does, and the flag that is set once the outbox row is written |
| TrackingService.ProcessedMessageRepository.MarkProcessed | apps/tracking-service/src/repositories/processed-message.repository.ts:26-57 | Committed tables and answer of markProcessed for any throwing statement, and for a commit that goes through although it throws |
| TrackingService.ProcessedMessageRepository.Transaction | apps/tracking-service/src/repositories/processed-message.repository.ts:33-46 | Key and handler in one transaction: its tables and the error that its caller sees |
| TrackingService.MeaningOfResult | apps/tracking-service/src/repositories/processed-message.repository.ts:47-56 | A new key is stored with a shipment, and its first history entry at the time of the order, exactly when nothing rolls the transaction back, answered or not; what processed and duplicate say; duplicate without a stored key happens exactly when a statement raises P2002 by itself |
| TrackingService.DuplicateWithoutKey | apps/tracking-service/src/repositories/processed-message.repository.ts:48-50 | It happens: a racing shipment insert |
| Notifications.CommitAddsOneSentRow | apps/notification-service/src/notifications/notification-dispatch.service.ts:34-51 | The transaction of a new key that nothing rolls back adds its key and one SENT row with a time, after exactly one provider call, whether or not its commit is answered; any other changes nothing |
| Notifications.AckedIffProcessed | apps/notification-service/src/infrastructure/prisma/prisma-processed-message.store.ts:39-50 | An acked delivery has its key stored exactly unless the error that rolls its transaction back carries the text DUPLICATE_MESSAGE |
| Notifications.ForgedSentinelLosesNotification | apps/notification-service/src/infrastructure/prisma/prisma-processed-message.store.ts:48-50 | It can happen: a provider error with that text is answered as duplicate and nothing is stored |
| Notifications.NotificationBijection | apps/notification-service/src/notifications/notification-dispatch.service.ts:34-58 | Over every sequence of attempts keys and rows correspond one to one, every row is SENT with its time, no PENDING or FAILED row survives, sends are at least one a row |
| Notifications.ProviderCalledIff | apps/notification-service/src/notifications/notification-dispatch.service.ts:34-46 | The provider is called once by an attempt whose key is new and whose key and row were inserted, and not otherwise, rolled back or not |
| Notifications.CommitKeepsOk | apps/notification-service/src/infrastructure/prisma/prisma-processed-message.store.ts:19-44 | Committing a new key with its SENT row keeps that |
| Notifications.PrismaService.Execute | apps/notification-service/src/infrastructure/prisma/prisma.service.ts:29-31 | A statement goes to the ambient transaction if there is one |
| Notifications.NotificationDispatchService.Dispatch | apps/notification-service/src/notifications/notification-dispatch.service.ts:31-59 | PENDING row, send, SENT; FAILED and rethrow when the send throws; no FAILED when the update to SENT throws, since its promise is returned without await |
| Notifications.NotificationDispatchService.UpdateStatus | apps/notification-service/src/infrastructure/prisma/prisma-notification-delivery.repository.ts:65-96 | Changes status and time of one row; a status without a time clears it |
| Notifications.PrismaProcessedMessageStore.MarkProcessed | apps/notification-service/src/infrastructure/prisma/prisma-processed-message.store.ts:12-57 | Committed tables, answer and provider calls of markProcessed for any answers, a commit with a lost answer included |
| Notifications.PrismaProcessedMessageStore.TransactionBody | apps/notification-service/src/infrastructure/prisma/prisma-processed-message.store.ts:20-43 | Insert or raise the sentinel, then the handler |
| Consumer.IdempotentConsumer.HandleMessage | libs/messaging/src/consumer/idempotent-consumer.base.ts:44-111 | Validates, deduplicates and settles once; an error of the store escapes before anything is settled; tables and provider calls change as the store answers, and not at all for a refused message |
| Consumer.IdempotentConsumer.OnDelivery | libs/messaging/src/rabbitmq/rabbitmq.client.ts:132-142 | Exactly one settlement call when the channel does not throw: dead-lettered exactly when a schema refuses the message, the store throws, or the handler failed without retry; requeued exactly when it failed with retry; acked exactly when processed or duplicate |
| Consumer.ProcessedMessageStore.MarkProcessed | apps/tracking-service/src/repositories/processed-message.repository.ts:26-57 | The store interface: either service's implementation with its tables and provider calls, or any other one, which may throw |
| Consumer.TrackingAckMeans | libs/messaging/src/consumer/idempotent-consumer.base.ts:87-99 | An acked tracking delivery has its shipment under a newly stored key, or its key was stored before, or a statement raised a unique violation by itself |
| Consumer.StatusEventAcceptedIff | libs/contracts/src/events/shipment-status-changed.event.ts:20-33 | Of the status events that the tracking service stores, the notification service accepts exactly those without a location or with one inside the bounds of the contract |
| Consumer.OffEarthIsStored | apps/tracking-service/src/services/shipments.service.ts:101-128 | An update with a location outside the bounds is committed all the same, and its event refused |
| Consumer.NotificationAckMeans | libs/messaging/src/consumer/idempotent-consumer.base.ts:87-99 | An acked notification delivery has its key stored, exactly unless the sentinel was forged |
| Redrive.TargetQueue | tools/dlq-redrive/src/index.ts:107-108 | The target differs from the source exactly when the name ends in .dlq, and is then the name without it |
| Redrive.TurnConserves | tools/dlq-redrive/src/index.ts:116-137 | One turn with any failure or crash: with a target queue nothing is lost and exactly the turns that send without an ack duplicate; without one exactly the acked message is lost |
| Redrive.RedriveConserves | tools/dlq-redrive/src/index.ts:115-138 | At every boundary of the loop no message is lost, and without duplicating turns the messages of both queues together are the same |
| Redrive.RedriveEndsIff | tools/dlq-redrive/src/index.ts:112-138 | For any turns: how many messages are redriven, what is left in the queue, and that the loop ends if and only if that many turns move a message before the process dies |
| Redrive.FailingSendNeverEnds | tools/dlq-redrive/src/index.ts:133-137 | A send that keeps throwing is retried without counting: nothing moves and the loop never ends |
| Redrive.MovesAppend | tools/dlq-redrive/src/index.ts:116-132 | Turns that move append the messages, oldest first, to the end of the target |
| Redrive.RedriveMoves | tools/dlq-redrive/src/index.ts:112-138 | Without failures the loop ends after moving min(count, length) messages, oldest first, to the end of the target, each with its id and content and the header that names the dead-letter queue |
| Redrive.AppendedAreStamped | tools/dlq-redrive/src/index.ts:121-129 | Whatever the turns meet, everything appended to the target is a message of the dead-letter queue with its id and content and that header |
| Redrive.OtherQueuesUntouched | tools/dlq-redrive/src/index.ts:115-138 | No other queue is touched |
| Redrive.OwnTargetNeverEnds | tools/dlq-redrive/src/index.ts:108-115 | Redriving all of a non-empty queue without the suffix, which is its own target, never ends, whatever its turns meet |
| Redrive.MissingTargetLoses | tools/dlq-redrive/src/index.ts:121-132 | Without a target queue, what is reported as redriven is what is lost |
| Redrive.TakeTurn | tools/dlq-redrive/src/index.ts:116-137 | One turn on a channel does what the specification says |
| Redrive.Channel.Get | tools/dlq-redrive/src/index.ts:116-117 | Takes the first message unacked, or none from an empty queue |
| Redrive.Channel.SendToQueue | tools/dlq-redrive/src/index.ts:121-128 | Appends to an existing queue and drops what has none |
| Redrive.Channel.Return | tools/dlq-redrive/src/index.ts:134-134 | Puts the unacked message back to the front |
| Redrive.Redrive | tools/dlq-redrive/src/index.ts:110-138 | The loop computes queues, counts and its end as the specification says |
| Orders.TrimIdempotent | apps/order-service/src/domain/order-item.value-object.ts:12-28 | Trimming twice is trimming once |
| Orders.TrimTakesBlanks | apps/order-service/src/domain/order-item.value-object.ts:12-28 | Trimming takes away whitespace at the two ends only, and all of it |
| Orders.CreateItemSound | apps/order-service/src/domain/order-item.value-object.ts:11-31 | A created item has trimmed non-empty texts, a positive quantity and a non-negative price |
| Orders.CreateItemsOf | apps/order-service/src/domain/order-item.value-object.ts:11-31 | Items are made exactly from acceptable properties, with trimmed texts and the same quantities and prices |
| Orders.ItemRoundTrip | apps/order-service/src/domain/order-item.value-object.ts:11-55 | Creating an item from its own primitives gives it back exactly when it is such an item |
| Orders.PlaceSound | apps/order-service/src/domain/order.aggregate.ts:51-85 | A placed order is valid, pending, and carries one event with its own total |
| Orders.PlaceIff | apps/order-service/src/domain/order.aggregate.ts:51-85 | Placing succeeds exactly when items, customer and currency pass; order and event say what was placed, field by field |
| Orders.RoundTrip | apps/order-service/src/domain/order.aggregate.ts:87-97 | Rehydrating the persistent form never throws and gives every field but the pending events back, for exactly the orders that meet the constructor's checks |
| Orders.CallsKeep | apps/order-service/src/domain/order.aggregate.ts:135-154 | Any sequence of confirm, cancel and pull calls keeps the order valid, changes only status and events, and no call changes a status that is not pending |
| Orders.PlacedOrderRoundTrip | apps/order-service/src/domain/order.aggregate.ts:156-166 | The round trip for every placed order after any sequence of calls |
| Orders.TotalOfPermutation | apps/order-service/src/domain/order.aggregate.ts:131-133 | The total does not depend on the order in which items are read |
| Orders.TotalIsSum | apps/order-service/src/domain/order.aggregate.ts:131-133 | The total is the sum of quantity times unit price |
| Orders.PlacedEventAcceptedIff | apps/order-service/src/application/create-order.handler.ts:56-60 | The event of a placed order passes its schema exactly when the customer is a UUID, the currency has three characters and the cleaned address is complete |
| OrderStore.MoneyAgrees | apps/order-service/src/infrastructure/prisma/prisma-order.repository.ts:17-85 | After any sequence of create, cancel and confirm commands, event total, stored total and the total recomputed in any reading order agree for every order, and every order has exactly one event |
| OrderStore.CreateIff | apps/order-service/src/application/create-order.handler.ts:43-66 | Creating, in terms of the command alone: it succeeds exactly when items, customer, currency and address pass, the id is free and the write goes through; the stored order is then PENDING and says what the command does, so does its one event, and all other rows are the same; otherwise nothing changes |
| OrderStore.CancelIff | apps/order-service/src/application/cancel-order.handler.ts:24-37 | Cancelling succeeds exactly for a stored PENDING order whose write goes through; the row is then CANCELLED and all else the same; otherwise nothing changes |
| OrderStore.ConfirmIff | apps/order-service/src/domain/order.aggregate.ts:135-140 | Confirming, likewise, for a stored order that is not CANCELLED |
| OrderStore.NewOrderCanBeCancelled | apps/order-service/src/application/cancel-order.handler.ts:24-37 | A new order can be cancelled |
| OrderStore.CommandKeepsOk | apps/order-service/src/infrastructure/prisma/prisma-order.repository.ts:17-85 | One command keeps that |
| OrderStore.RelayKeepsOk | apps/order-service/src/infrastructure/prisma/prisma-outbox.store.ts:10-66 | Whatever the relay does to outbox rows keeps that |
| OrderStore.CommandRows | apps/order-service/src/infrastructure/prisma/prisma-order.repository.ts:17-48 | A command appends exactly the order event when it creates an order, and nothing otherwise |
| OrderStore.FindSucceeds | apps/order-service/src/infrastructure/prisma/prisma-order.repository.ts:50-73 | Finding a stored order never throws, in any reading order; it restores everything but the shipping address |
| OrderStore.ChangeOnlyStatus | apps/order-service/src/application/cancel-order.handler.ts:24-37 | Find, change and update write back everything unchanged but the status, the recomputed total included |
| OrderService.OrderAggregate.GetTotalCents | apps/order-service/src/domain/order.aggregate.ts:131-133 | The reduce loop computes the specified total |
| OrderService.OrderAggregate.Confirm | apps/order-service/src/domain/order.aggregate.ts:135-140 | Confirms unless cancelled |
| OrderService.OrderAggregate.Cancel | apps/order-service/src/domain/order.aggregate.ts:142-150 | Cancels only a pending order |
| OrderService.OrderAggregate.PullDomainEvents | apps/order-service/src/domain/order.aggregate.ts:152-154 | Returns all events and leaves none |
| OrderService.PrismaOrderRepository.SaveNew | apps/order-service/src/infrastructure/prisma/prisma-order.repository.ts:17-48 | Order and outbox row together, or nothing; the row has every column of the order |
| OrderService.PrismaOrderRepository.FindById | apps/order-service/src/infrastructure/prisma/prisma-order.repository.ts:50-73 | The rehydrated order, for the reading the database gives |
| OrderService.PrismaOrderRepository.Update | apps/order-service/src/infrastructure/prisma/prisma-order.repository.ts:75-85 | Writes status, total, currency and time of one order, and nothing else |
| OrderService.CreateOrderHandler.Execute | apps/order-service/src/application/create-order.handler.ts:43-66 | Place, pull, build, validate, save, wake: when it succeeds, what it stores and enqueues, in terms of the command, and the relay is woken exactly after a save |
| OrderService.CancelOrderHandler.Execute | apps/order-service/src/application/cancel-order.handler.ts:24-37 | Find, cancel, update: tables and answer as specified; it succeeds exactly for a stored PENDING order whose write goes through, which is then CANCELLED |

## Left out

- DeliveryRefinement.DeliveryIsRun: errors that pass for a unique violation or for the sentinel without being one are excluded, because the protocol's no-loss fails with them; TrackingService.MeaningOfResult and Notifications.AckedIffProcessed cover them.
- RedriveRefinement.RedriveIsRun: a send reaches its target queue, because a send to a missing queue loses the message, which the protocol has no step for; Redrive.TurnConserves and Redrive.MissingTargetLoses cover it.
- RedriveRefinement.LoopIsRun: stated for a queue whose target exists, for the same reason.
- RedriveRefinement.AloneIsLoop: the same.
- RedriveRefinement.AloneIsTurn: the same.
- The order of messages in a queue while others act: the protocol keeps multisets, so `get` may take any ready message of the queue; the order is proved for a redrive that nobody interrupts (Redrive.MovesAppend).
- TrackingService.ShipmentsService.UpdateShipmentStatus: two updates of one shipment interleaved at the database's isolation level are not modelled; the code takes no row locks, so the history holds for serialised transactions only. The same goes for two commands on one order.
- Consumer liveness: a failing handler is requeued without limit and without delay, so a message may cycle forever and no draining is claimed.
- The prefetch limit of ten: any number of deliveries may be in flight.
- The generated Prisma client and its runtime: tables are sequences, maps and sets with their unique keys.
- AMQP connections, reconnects, heartbeats, topology and channel errors other than a throwing settlement call. `RabbitMQClient.publish` and the consumer's channel are stubs of the environment that record their calls.
- Database errors inside a caught nested body: PostgreSQL then aborts the whole transaction; `Throw` in TransactionHost stands for any other error.
- The list and peek commands of the redrive tool, and its parsing of the count option; peek consumes without acks, so it removes messages, and no-loss would not hold with it.
- `close` and `connect` of the broker client.
- The circuit breaker, caches, HTTP controllers, DTOs, health endpoints, logging, metrics and tracing.
- JSON and Zod internals: serialisation is the identity on messages, a schema a predicate on them.
- Header maps (`toHeaders`), correlation and causation ids, routing keys, content types.
- Identifier generation and clocks: ids are numbers, times are numbers given by the caller.
- JavaScript number precision and 32-bit columns: integers are unbounded, and an insert the database refuses is a failed write.
- Case mapping and UUID syntax: parameters of the order commands.
- Notification texts and recipients: kept as the values they are built from.
- Negative or fractional batch sizes: a limit is a natural number.
- `getShipmentById`, `getShipmentByOrderId`, `hasPending` and the query handlers: plain reads.
