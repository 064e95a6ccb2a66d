# Mission Control order pipeline: a Dafny model

This project models the decision rules of a small message pipeline. An Order API turns a
submission into an `OrderCreated` event. A billing worker consumes that event at most once
per order id: it checks for a durable marker, saves one, and then publishes
`BillingCompleted`. An administrative API lists the broker's queues and replays messages
from a dead-letter (`_error`) queue back to its origin queue. A web front end classifies
the listed queues and shows the health of the services.

The broker and the database are small in-memory models:

- The broker (`Broker.Broker`) is a map from queue name to a sequence of messages.
  Fetching reads the head (and fails on a queue that does not exist), publishing appends,
  and acknowledging drops the head. A ghost log records every call made on it.
- The billing store is a map from order id to `ProcessedOrder`. The billing worker's
  outbox is a sequence of `BillingCompleted` events.

Clock readings, fresh GUIDs, and whether a save or a publish succeeds are all parameters.

Modules, one per file:

- `Wrappers`: `Option`.
- `Text`: the suffix and whitespace tests.
- `Contracts`: the shared event records.
- `Broker`: the broker model.
- `AdminApi`: replay and queue listing (`src/AdminApi/Program.cs`).
- `Billing`: the `OrderCreated` consumer (`src/BillingWorker/Program.cs`).
- `OrderApi`: `POST /orders` (`src/OrderApi/Program.cs`).
- `QueueMonitor` and `HealthStatus`: the two front-end panels.
- `Pipeline`: properties that span several services.

Behaviours of the code worth spelling out:

- **Broker failures during replay.** The handler has no `try`/`catch` around the replay
  loop. A fetch from a queue that does not exist, a publish or an acknowledgement that
  throws therefore leaves the handler as an exception, and the caller gets a server error
  rather than a partial count. This is `ReplayResult.Faulted`. Messages moved before the
  failure stay moved. After a throwing publish the failing message stays on the error
  queue. After a throwing acknowledgement its copy is already on the origin queue while
  the message itself returns to the head of the error queue, so the next replay delivers
  it a second time (`AdminApi.AfterFaultBodies`). Replaying a misspelt `..._error` name
  therefore fails, for any positive count, rather than reporting zero messages moved.
- **Non-positive `count`.** The handler does not check that `count` is positive. A zero or
  negative count moves nothing and is reported back as `requested` unchanged. So
  `replayed <= requested` holds only for `requested >= 0`. For a negative count the model
  proves `replayed == 0` instead.
- **The duplicate guard.** It is a lookup followed by an insert, not an atomic
  insert-if-absent. The marker is saved before `BillingCompleted` is published. The model
  keeps this order. `Billing.PublishFailureLosesCompletion` proves the consequence: if that
  publish fails, no `BillingCompleted` is ever emitted for the order, however often the
  event is delivered again. With no retry policy on the `billing-ordercreated` endpoint, a
  faulted message goes to `billing-ordercreated_error`; it is delivered again only when it
  is replayed from there.
- **Properties the replay does not copy.** The replay copies five envelope properties and
  leaves every other property unset. For example, a persistent message comes back without
  its delivery mode (`AdminApi.Republished`).
- **Suffix case.** The front end tests the `_error` suffix case-sensitively, but the replay
  handler ignores case (`QueueMonitor.UpperCaseSuffixShownActive`).

## Model

| member | source | states |
|---|---|---|
| `AdminApi.ReplayTarget` | src/AdminApi/Program.cs:76-85 | an accepted name yields an origin that is the name minus its last six characters |
| `AdminApi.ReplayTargetValid` | src/AdminApi/Program.cs:76-77 | the name is accepted iff it ends with `_error` ignoring case (the blank-name test is subsumed) |
| `AdminApi.OriginThenSuffix` | src/AdminApi/Program.cs:85 | origin + `_error` equals the requested name up to the case of the suffix |
| `AdminApi.ReplayTargetOfErrorQueue` | src/AdminApi/Program.cs:76-85 | the error queue of origin `o` is accepted and replays to `o` (round trip) |
| `AdminApi.Replayable` | src/AdminApi/Program.cs:86-95 | moved count: never above the messages available; at most `requested` when that is non-negative; 0 when `requested <= 0`; `min(requested, available)` when no publish or ack throws; the failing iteration's index when one does |
| `AdminApi.Republished` | src/AdminApi/Program.cs:97-107 | the outgoing message has the same body, carries the source's five envelope properties (defaults when the source has none), and nothing else |
| `AdminApi.RepublishedUnchanged` | src/AdminApi/Program.cs:97-105 | a message passes through a replay unchanged iff it has properties holding only the envelope |
| `AdminApi.RepublishedIdempotent` | src/AdminApi/Program.cs:97-105 | replaying an already replayed message publishes the same message |
| `AdminApi.Transfer` | src/AdminApi/Program.cs:92-109 | after k moves: the source loses its first k messages, the destination gains their copies in the same order, and no other queue changes |
| `AdminApi.TransferStep` | src/AdminApi/Program.cs:94-109 | one loop iteration (publish the head's copy, then ack the head) advances the transfer by one message |
| `AdminApi.TransferConservesBodies` | src/AdminApi/Program.cs:107-108 | the multiset of bodies across source and destination is unchanged: nothing lost or created |
| `AdminApi.AfterFaultBodies` | src/AdminApi/Program.cs:107-108 | after a throwing publish the bodies across source and destination are unchanged; after a throwing ack they gain exactly one extra copy of the unacknowledged message's body |
| `AdminApi.TransferConservesMessages` | src/AdminApi/Program.cs:97-108 | when the moved messages carry only envelope properties, the multiset of messages across the two queues is unchanged |
| `AdminApi.MoveCallsStep` | src/AdminApi/Program.cs:92-110 | one more moved message appends exactly its fetch, publish and ack calls |
| `AdminApi.AckFollowsPublish` | src/AdminApi/Program.cs:94-108 | the calls for the j-th moved message sit at positions 3j, 3j+1 and 3j+2: fetch from the source, publish of that message's copy to the destination, ack on the source |
| `AdminApi.MoveOne` | src/AdminApi/Program.cs:94-109 | one iteration: a missing source throws with nothing changed; an empty source ends the loop after one empty fetch; otherwise a throwing publish leaves the queues as they were, a throwing ack leaves the copy published and the message on the source, and a full move publishes the head's copy then drops the head, with exactly those calls logged |
| `AdminApi.MoveBatch` | src/AdminApi/Program.cs:92-110 | the loop: throws iff the source is missing (and `requested > 0`) or the chosen publish/ack falls within the attempts; moves `Replayable` messages; a missing source leaves queues and calls untouched; without a fault the queues are `Transfer`'s and the calls are the moves' plus one empty fetch when the queue ran dry; with a fault the queues are `AfterFault`'s and the calls end with the faulting fetch (and publish) |
| `AdminApi.Replay` | src/AdminApi/Program.cs:74-113 | rejects bad names with no broker call; otherwise reports from/to/requested (default 10) and has exactly `MoveBatch`'s effect: faults iff the source queue is missing or a publish or ack throws within the attempts, moves `Replayable` messages, and makes exactly the calls listed there |
| `AdminApi.ListQueues` | src/AdminApi/Program.cs:55-69 | a failing management status is passed through; otherwise one entry per queue, in order, same name (null read as empty), each missing counter 0 |
| `Broker.Broker.FetchOne` | src/AdminApi/Program.cs:94 | fails iff the queue does not exist (no call logged); otherwise returns the head without removing it, empty iff the queue is |
| `Broker.Broker.Publish` | src/AdminApi/Program.cs:107 | appends the message to the named queue |
| `Broker.Broker.Ack` | src/AdminApi/Program.cs:108 | removes the head of the named queue |
| `Billing.Step` | src/BillingWorker/Program.cs:82-112 | markers are only added, never changed or removed; only the delivered id can gain a marker; at most one event is published; an acknowledged delivery leaves a marker for its id |
| `Billing.DuplicateIsNoOp` | src/BillingWorker/Program.cs:87-92 | with a marker for the id: no marker added, nothing published, ledger unchanged |
| `Billing.FreshDelivery` | src/BillingWorker/Program.cs:96-111 | without a marker: the store gains exactly one entry, keyed by the order id, copied from the message; then exactly one event with the same order id, customer, amount and correlation id; a failed save changes nothing; a failed publish keeps the marker and publishes nothing |
| `Billing.StepConsistent` | src/BillingWorker/Program.cs:87-111 | one delivery keeps the exactly-once invariant (events agree with their markers, no order id published twice) |
| `Billing.RunConsistent` | src/BillingWorker/Program.cs:87-111 | any sequence of deliveries keeps the exactly-once invariant |
| `Billing.RunExtends` | src/BillingWorker/Program.cs:96-103 | across any sequence of deliveries, markers are never changed or removed and events never retracted |
| `Billing.DeliveredTwice` | src/BillingWorker/Program.cs:87-111 | delivering the same event twice yields one marker and one publish; the second delivery is a duplicate |
| `Billing.NeverPublishedAfterMarker` | src/BillingWorker/Program.cs:87-92 | once an id has a marker but no event, no later delivery publishes an event for it |
| `Billing.PublishFailureLosesCompletion` | src/BillingWorker/Program.cs:103-105 | the marker is saved before the publish, so after a failed publish the marker remains and no BillingCompleted is ever emitted for that id |
| `Billing.OrderCreatedConsumer.Consume` | src/BillingWorker/Program.cs:82-112 | the consumer's new store, outbox and outcome are those of `Step`; a duplicate changes nothing; only a billed delivery appends to the outbox |
| `OrderApi.NewOrderCreated` | src/OrderApi/Program.cs:63-70 | order id from the request or the fresh id, customer id or `"unknown"`, the request's amount, the fresh correlation id |
| `OrderApi.AcceptedNamesOrder` | src/OrderApi/Program.cs:73 | the answer carries the event's order id and correlation id, and its location `/orders/{OrderId}` reads back as that order id |
| `OrderApi.OrderEndpoint.PostOrder` | src/OrderApi/Program.cs:61-74 | exactly one event is published per request and the answer matches it; a failed publish publishes nothing |
| `QueueMonitor.Select` | front/src/components/QueueMonitor.tsx:30-31 | a queue is selected iff it is listed and its dead-letter status is the one asked for |
| `QueueMonitor.SelectAppend` | front/src/components/QueueMonitor.tsx:30-31 | filtering distributes over concatenation, so relative order is kept |
| `QueueMonitor.SelectPartition` | front/src/components/QueueMonitor.tsx:30-31 | the dead-letter and active selections partition the queues (multisets and lengths add up) |
| `QueueMonitor.Classify` | front/src/components/QueueMonitor.tsx:29-31 | no data gives two empty lists; otherwise `dlqs` and `normals` are the order-keeping filters of the queues by case-sensitive `_error` suffix, and together they are a permutation of the queues |
| `QueueMonitor.ClassifyExample` | front/src/components/QueueMonitor.tsx:29-31 | of `orders` and `orders_error`, exactly the second is a dead-letter queue |
| `QueueMonitor.DeadLetterIsReplayable` | front/src/components/QueueMonitor.tsx:30 | every queue shown as a dead-letter queue is accepted by the replay handler |
| `QueueMonitor.UpperCaseSuffixShownActive` | front/src/components/QueueMonitor.tsx:30 | `orders_ERROR` is shown as active although the replay handler accepts it |
| `HealthStatus.RabbitOk` | front/src/components/HealthStatus.tsx:47 | RabbitMQ is up iff the queue reply is present and is an array |
| `HealthStatus.Services` | front/src/components/HealthStatus.tsx:49-53 | exactly three cards (Order API, Admin API, RabbitMQ), the first two up iff their reply's status is `"ok"` |
| `HealthStatus.BadgeOf` | front/src/components/HealthStatus.tsx:75-81 | Checking iff loading, whatever the status; otherwise Online iff the status holds, else Offline |
| `HealthStatus.StatusOkCases` | front/src/components/HealthStatus.tsx:50-51 | a reply with status `"ok"` is up; any other status, or no reply, is down |
| `Pipeline.SubmittedOrderBilledOnce` | src/BillingWorker/Program.cs:87-111 | a submitted order is billed once, with the submitted amount and the generated correlation id, whatever the number of redeliveries |
| `Pipeline.RedeliveriesChangeNothing` | src/BillingWorker/Program.cs:87-92 | any number of deliveries of an already-marked event leave the ledger unchanged |
| `Pipeline.ResubmissionBilledOnce` | src/OrderApi/Program.cs:63-72 | submitting the same request with an explicit order id twice publishes two events but bills once, with the first correlation id |
| `Pipeline.HealthRepliesReadAsUp` | src/AdminApi/Program.cs:47 | the Admin API health reply and the Order API root reply both read as up on the panel |

## Left out

- The terminal consumer (`src/NotifierWorker/Program.cs`) only writes a line to the console.
- Framework wiring is left out: host builders, MassTransit transport configuration,
  OpenTelemetry/Zipkin exporters, CORS and `app.Run`.
- Environment-variable lookups, the connection factory and the Basic-auth header are left
  out. So are opening and closing the broker connection.
- JSON parsing is left out. The listing takes already-parsed queues whose fields may be
  absent. A missing `name` property and a counter outside 32 bits make the source throw;
  neither case is modelled.
- The broker's wire protocol and delivery tags are not modelled. An unacknowledged fetched
  message is treated as still at the head of its queue. This matches RabbitMQ requeueing it
  when the channel closes.
- The broker model creates a missing destination queue on publish. On RabbitMQ's default
  exchange, a message for a queue that does not exist is dropped. The model does not
  capture that loss.
- A publish that throws is assumed to have delivered nothing.
- Entity Framework and SQLite internals and `EnsureCreated` are left out. The store is a
  map keyed by order id, as `HasKey(x => x.OrderId)` makes it.
- The race between `FindAsync` and `Add` across concurrent consumer instances is left out.
  Deliveries are consumed one after another, so two racing first deliveries that could
  both insert are not captured.
- `decimal` amounts are whole cents and are only copied.
- `DateTimeOffset.UtcNow` and `Guid.NewGuid()` are parameters. The 32-hex-digit `"N"`
  format of the GUIDs is not modelled.
- .NET's ordinal ignore-case comparison is modelled by upper-casing ASCII letters. This is
  exact for the suffix `_error`.
- The replay's `int` counters are unbounded integers. They cannot overflow in the source,
  because the loop index stays below `count`.
- JavaScript `NaN` is not among the JSON values, so its truthiness is not modelled.
- React rendering, query refetch intervals and retries, the progress bar colour, toasts,
  local storage, the settings panel, the DLQ form and the order form are UI and are left
  out.
