# A payment webhook pipeline and a push broker, proved in Dafny

The repository holds two prototypes. This project models both and proves what they keep.

**The payment pipeline** (`approach-1`). A gateway posts webhooks, which are appended to a Redis stream. A worker
pages through the stream with a cursor it forgets when it restarts. Each event passes an idempotency gate (SETNX,
then a separate EXPIRE), is logged, marks a payment and its order in one transaction, and is published as confirmed.
A reconciler marks and settles the oldest pending payments at the same time. `Pipeline` is a step machine in which
every awaited call of every process is a step of its own. A call may take effect, be lost before its effect, or take
effect and never be acknowledged; a worker may restart between any two calls.

| file | what it holds |
|---|---|
| `Payments`, `Tables`, `Repository` | the domain, the four tables and their statements as functions, the repository object |
| `Idempotency`, `WebhookQueue` | the key store with expiry, the stream and its reader |
| `Pipeline`, `PipelineSafety`, `PipelineMarks`, `PipelineCursor`, `PipelineConvergence` | the step machine and its main theorems |
| `Reconciliation` | how long a pending payment can wait |
| `Worker` | the worker's own methods, each tied to a run of the machine |

**The push service** (`approach-2`). Sessions subscribe to string-named channels at a broker, which keeps a table of
controls and spawns listener tasks. `Broker` is the step machine, for channels of any type: listener tasks have a
control, an inbox and a phase, and a call that awaits is several steps.

| file | what it holds |
|---|---|
| `Broker`, `BrokerListeners`, `BrokerDelivery` | the machine, the listener count, what listeners deliver |
| `Channels`, `Routing` | channel names, and the proof that names route as addresses would |
| `RedisPubSub`, `PushService`, `GrpcSession` | the broker object, the service object, the topic requests of a session |
| `EndToEnd` | from a publish call to the session it is meant for |
| `BrokerOverlap` | why at-most-once delivery cannot have a weaker condition |
| `Sessions` | many sessions at once: connection count, broker entries, device list |
| `Keepalive` | the two session loops on timed traces |
| `Handlers` | the two handlers from connection to end, tied to `Sessions` |
| `Base64Url`, `Hmac`, `Jwt` | base64url, HMAC over arrays, tokens |

`Common`, `Text` and `Faults` are shared vocabulary.

## How to read the hypotheses

Several claims hold only under conditions, and the contracts name them.

- *Event identity and pairing* (`PipelineSafety.Consistent`): one (gateway, event id) names one event, and an event
  names the order of its payment. The insert of a transaction skips a used event id before it looks at any other
  constraint, and the two ids of a mark are updated independently, so neither condition can be dropped; see
  `Worker.ConfirmsExactlyWhen` and `Tables.MarkKeepsAgreement` for what holds without them.
- *Names*: idempotency keys need colon-free gateway names and device keys colon-free tenants; any other name shares
  each of its keys with a colon-free one (`Idempotency.KeyIsAmbiguous`, `Sessions.KeyIsAmbiguous`). Channel names
  need less (`Channels.WellNamed`): no ":client:" or ":topic:" in a tenant, no ":device:" in a client id, the colon that
  follows counted. This is exact: `Channels.NameHasOneAddress` gives each name its one well-named address.
- *Calm runs* (`PipelineConvergence.Calm`): convergence is claimed for runs without failures only, because the key
  of an event is set before its work is done.

## Where the code does not do what one may expect

Each of these is proved; the code is modelled as it is.

- `WebhookQueue.PollIsStuck`, `PipelineCursor.BlockedForEver`: a read hands out nothing although entries wait exactly
  when the next `count` entries have no payload field, and a worker never gets past 50 such entries, also after
  restarts.
- `PipelineMarks.AbandonedExactly`, `PipelineMarks.AbandonsWhen`, `PipelineMarks.AbandonedIsReached`: when a worker
  stops between SETNX and EXPIRE, or either call fails at the wrong moment, the key never expires and no later
  delivery of that event passes the gate. The lemmas give the exact condition, the exact steps, and runs from the
  start that end there.
- `Worker.ReusedEventId`: once the key of a logged event has expired, a second event under its id, for a payment
  nobody knows, is confirmed all the same. `PipelineMarks.ReuseTakesTheTimeToLive` shows that it cannot be sooner.
- `Worker.FailedPaymentIsReconciled`: a FAILED webhook leaves its payment PENDING, so a later round marks it SUCCESS
  and settles it.
- `RedisPubSub.FailedSubscribeLeaks`: a subscribe that cannot connect leaves an entry in the table, which stays unless
  somebody unsubscribes an id that nobody has been told.
- `BrokerOverlap.RemovedAndAddedAgain`: a topic removed and added again, before the old listener has stopped, can
  deliver a message twice.
- `Sessions.EndedSessionsLeaveNothing`: sessions whose connect ack could not be sent stay counted and keep their entry.
- `Sessions.DeletingKeepsExactWhen`, `Sessions.StoringKeepsExactWhen`: a session that ends takes its device off the
  list even if another session of the client still has it, and a session that stores other attributes for a device
  overwrites them.
- `Keepalive.ShippedSettingsCutPromptWs`: with the shipped ping interval of 30 and pong timeout of 10 seconds
  (`approach-2/config/propeller.toml:11-12`), a client that answers the first ping within 19 seconds is cut at the
  second. `approach-2/README.md:73` asks clients for just that answer.
- `Jwt.WrappedExpiryIsRefused`: an expiry within the leeway of 2^64 wraps, and the token is refused. (Sums are
  modelled as a release build computes them; a debug build panics instead.)

## Model

| member | source | states |
|---|---|---|
| Tables.MarkKeepsAgreement | approach-1/crates/adapters/src/repository.rs:55-67 | The two updates keep "an order is PAID exactly when one of its payments is SUCCESS" if and only if the payment given, if it exists, belongs to the order given or to a paid one, and the order given, if it exists, owns the payment or is paid already. |
| Tables.StatementsKeepConstraints | approach-1/migrations/0001_init.sql:11-44 | All five writing statements keep the foreign keys and the three unique constraints, whatever ids they are given. |
| Repository.Repo.CreatePayment | approach-1/crates/adapters/src/repository.rs:30-53 | A pending payment with the given columns and the time is inserted and nothing else changes, or, for an unknown order, a foreign key error leaves the tables alone. |
| Repository.Repo.MarkPaymentSuccess | approach-1/crates/adapters/src/repository.rs:55-67 | The status of the payment and of the order are updated independently; every other column and row stays, and a missing row changes nothing. |
| Repository.Repo.LogTransaction | approach-1/crates/adapters/src/repository.rs:69-86 | A used (gateway, event id) is a silent no-op before anything else is looked at; then a used gateway transaction id or an unknown payment is an error; else a row with the columns of the event, its status and the event itself is appended. |
| Repository.Repo.PendingPayments | approach-1/crates/adapters/src/repository.rs:88-95 | The page lists distinct pending payments, oldest first, at most 100, and leaves one out only if it is full of payments no younger. |
| Repository.Repo.InsertSettlement | approach-1/crates/adapters/src/repository.rs:97-112 | A used reference "settle-" plus payment id is a no-op, an unknown payment an error, else the settlement is appended with its gateway and amount. |
| Repository.GatherOne | approach-1/crates/adapters/src/repository.rs:88-95 | Moving an oldest waiting payment to the page keeps the page ordered, distinct and no younger than what is left. |
| Repository.GatheredIsPage | approach-1/crates/adapters/src/repository.rs:88-95 | What has been gathered when the limit is reached or nothing is left is a result the query may return. |
| Idempotency.KeyIsInjective | approach-1/apps/worker/src/main.rs:69 | For colon-free gateways, equal keys mean equal gateway and event id. |
| Idempotency.KeyIsAmbiguous | approach-1/apps/worker/src/main.rs:69 | Every key of a gateway with a colon is also a key of a colon-free gateway. |
| Idempotency.IdempotencyStore.SetNx | approach-1/crates/adapters/src/idempotency.rs:17 | True exactly when no live entry was there; the entry then has no expiry. |
| Idempotency.IdempotencyStore.MarkIfAbsentCall | approach-1/crates/adapters/src/idempotency.rs:15-22 | True means the key was free and now expires after the time to live, and no other key changed; false means it was live and nothing changed; an error of either call is passed on with the effects that had taken place. |
| WebhookQueue.Queue.ReceiveWebhook | approach-1/apps/api/src/main.rs:166-180 | The event is appended with the gateway of the request path. |
| WebhookQueue.Queue.ReadAfterCall | approach-1/crates/adapters/src/queue.rs:30-46 | The nested loops return exactly the entries with a payload among the next `count` after the given id, or among all there are if they are fewer, with their ids, in order. |
| WebhookQueue.ReadAfterIs | approach-1/crates/adapters/src/queue.rs:30-46 | Entry k is in the result if and only if it lies after the given id, among the next `count`, and has a payload; ids increase. |
| WebhookQueue.ReadsLeaveNothing | approach-1/apps/worker/src/main.rs:43-59 | As many reads as entries are waiting leave no entry with a payload unread if and only if no block of `count` entries without payload is in the way. |
| WebhookQueue.Deliverable | approach-1/crates/adapters/src/queue.rs:37-45 | Whatever is handed out lies in the window, carries its own id and has a payload. |
| WebhookQueue.DeliverableFinds | approach-1/crates/adapters/src/queue.rs:37-45 | No entry of the window that has a payload is left out. |
| WebhookQueue.DeliverableIsOrdered | approach-1/crates/adapters/src/queue.rs:37-45 | Ids strictly increase along what is handed out. |
| WebhookQueue.DeliverableSplits | approach-1/crates/adapters/src/queue.rs:30-46 | Consecutive windows hand out together what one window over both would. |
| WebhookQueue.DeliverableIsStable | approach-1/crates/adapters/src/queue.rs:30-46 | Entries appended later do not change what a window hands out. |
| WebhookQueue.DeliverableHead | approach-1/apps/worker/src/main.rs:48-53 | Moving the cursor to the id of the head leaves exactly the rest of the batch to hand out. |
| WebhookQueue.PollIsStuck | approach-1/crates/adapters/src/queue.rs:30-46 | With `count` entries waiting, a read returns nothing if and only if none of the next `count` has a payload; appending more never changes that. |
| Pipeline.RunGrows | approach-1/apps/worker/src/main.rs:37-108 | Along every run no row is lost, statuses only move to SUCCESS and PAID, and the stream, the logs and the list of confirmations only grow. |
| Pipeline.StepGrows | approach-1/apps/worker/src/main.rs:37-108 | Every single step of any process does so, with whatever outcome. |
| PipelineSafety.ConfirmationSafety | approach-1/apps/worker/src/main.rs:71-81 | In every state reachable with failures and restarts at any await and any number of workers and reconcilers, each event published as confirmed has its own transaction row, its payment is SUCCESS and its order PAID. |
| PipelineSafety.PaidExactlyWhenSuccess | approach-1/crates/adapters/src/repository.rs:16-67 | In every reachable state an order is PAID if and only if one of its payments is SUCCESS. |
| PipelineSafety.SettlementsAreUnique | approach-1/crates/adapters/src/repository.rs:97-112 | In every reachable state no payment has two settlements, each reference names its payment alone, and settled payments are SUCCESS. |
| PipelineSafety.RunIsSafe | approach-1/apps/worker/src/main.rs:62-108 | The inductive invariant behind these results holds along every run from every state that has it. |
| PipelineSafety.StepIsSafe | approach-1/apps/worker/src/main.rs:62-108 | Every step of the API, a worker, a reconciler or the clock keeps that invariant. |
| PipelineSafety.CallIsSafe | approach-1/apps/worker/src/main.rs:71-81 | After one call of the handler the tables are safe, marking is next only if the row is logged, publishing only if the confirmation is true, and a confirmation is added only when it is true. |
| PipelineSafety.LogIsSafe | approach-1/crates/adapters/src/repository.rs:69-86 | Under event identity a successful insert means this very event is logged, also when the insert was skipped. |
| PipelineSafety.MarkingIsSafe | approach-1/apps/worker/src/main.rs:78-81 | Marking a logged event makes its confirmation true. |
| PipelineSafety.RoundIsSafe | approach-1/apps/worker/src/main.rs:96-108 | Every call of a reconciliation round keeps the tables safe and settles marked payments only. |
| PipelineMarks.MarksAreBounded | approach-1/crates/adapters/src/idempotency.rs:15-22 | From an empty key store, over D time one key is won at most floor(D / 3600 s) + 1 times, and the confirmations of its events are at most the wins, whatever the workers, failures and duplicates. |
| PipelineMarks.MarkBoundIsAttained | approach-1/crates/adapters/src/idempotency.rs:15-22 | For every n there is a run of n - 1 times to live in which one key is won n times: the bound is exact. |
| PipelineMarks.AbandonedExactly | approach-1/crates/adapters/src/idempotency.rs:17-20 | In every reachable state a key is abandoned (set without expiry, with no worker about to give it one) if and only if it stays live along every continuation. |
| PipelineMarks.AbandonsWhen | approach-1/crates/adapters/src/idempotency.rs:17-20 | Exactly the steps that abandon a key: a SETNX that takes effect without a reply, or a restart or a lost EXPIRE between the two calls, with nobody else about to set the expiry. |
| PipelineMarks.AbandonedIsReached | approach-1/crates/adapters/src/idempotency.rs:15-22 | From the start, the first delivery of any event can end in each of these three ways with its key abandoned. |
| PipelineMarks.AbandonedForEver | approach-1/crates/adapters/src/idempotency.rs:17-20 | An abandoned key stays so along every run and is never won again. |
| PipelineMarks.FreedUnlessAbandoned | approach-1/crates/adapters/src/idempotency.rs:15-22 | Any other key can become free again: a run to that is given. |
| PipelineMarks.ReuseTakesTheTimeToLive | approach-1/apps/worker/src/main.rs:69-75 | In every reachable state the gate is open for the id of a logged event only if its key has expired, at least a time to live after the start. |
| PipelineMarks.RunKeepsSpacing | approach-1/crates/adapters/src/idempotency.rs:15-22 | Along every run the wins of a key stay at least a time to live apart. |
| PipelineMarks.RunIsAccounted | approach-1/apps/worker/src/main.rs:69-81 | Along every run, confirmations of a key plus workers still carrying it never exceed its wins. |
| PipelineCursor.HandedOutIsThePrefix | approach-1/apps/worker/src/main.rs:43-59 | In every reachable state, what a worker has handed to the handler since its restart is the payload entries of the stream up to its cursor (and the one in hand), in order, each once, whether or not handling failed. |
| PipelineCursor.RestartBeginsAgain | approach-1/apps/worker/src/main.rs:43-46 | After a restart the next read is of the first fifty entries of the stream, whatever was handed out before. |
| PipelineCursor.StepIsAligned | approach-1/apps/worker/src/main.rs:43-59 | Every step keeps the batch a window of the stream at the cursor. |
| PipelineCursor.BlockedForEver | approach-1/apps/worker/src/main.rs:43-59 | Along every run, restarts included, a worker that has not got past a block of 50 entries without payload never does: nothing behind the block is ever handed to it. |
| PipelineConvergence.OutcomeIsDelivered | approach-1/apps/worker/src/main.rs:37-85 | Once a failure-free run is worked off, statuses and logged rows are exactly what the set of delivered events says, and no event is logged twice. |
| PipelineConvergence.Convergence | approach-1/apps/worker/src/main.rs:37-85 | Two such runs over the same set of events agree on every payment and order they share and on the logged rows, however they order, duplicate, batch, replay or share them and let keys expire. |
| PipelineConvergence.NoTransactionConflict | approach-1/migrations/0001_init.sql:31-32 | With distinct gateway transaction ids the insert of a delivered event never fails. |
| PipelineConvergence.CallSettles | approach-1/apps/worker/src/main.rs:77-84 | A handler past the gate keeps its event in hand until all it has to do to the tables is done. |
| PipelineConvergence.StepStaysCalm | approach-1/apps/worker/src/main.rs:37-85 | A failure-free step keeps: every key set and every event handed out is done or in the hands of a worker past the gate, and everything in the tables comes from a delivered event. |
| PipelineConvergence.KeysStayKept | approach-1/apps/worker/src/main.rs:69-75 | After every failure-free step, an event whose key is in the store is done or being worked on. |
| Reconciliation.PendingPaymentsAreReached | approach-1/apps/worker/src/main.rs:96-108 | With distinct creation times a payment with k older pending ones is SUCCESS after floor(k / 100) + 1 completed rounds, whatever arrives and whatever the workers do meanwhile. |
| Reconciliation.BacklogDrains | approach-1/apps/worker/src/main.rs:96-108 | Without arrivals n pending payments are worked off in any number of completed rounds that have room for n, a hundred a round. |
| Reconciliation.WaitersNeedRounds | approach-1/apps/worker/src/main.rs:96-108 | A payment still pending after m completed rounds had at least 100 m older pending payments before it. |
| Reconciliation.RoundMakesWay | approach-1/crates/adapters/src/repository.rs:88-95 | A payment still pending after a round has a full page fewer before it. |
| Reconciliation.RoundMarksItsPage | approach-1/apps/worker/src/main.rs:96-108 | A completed round leaves every payment of its page SUCCESS. |
| Reconciliation.RoundDrains | approach-1/apps/worker/src/main.rs:96-108 | A round without arrivals leaves a full page fewer pending, or none. |
| Reconciliation.RoundIsRun | approach-1/apps/worker/src/main.rs:96-108 | A round is a stretch of a run of the machine. |
| Worker.WebhookWorker.PassGate | approach-1/apps/worker/src/main.rs:69-75 | The two calls of the gate leave the rest of the handling to come to the same as before them, and true is returned exactly when the handler goes on. |
| Worker.GateIs | approach-1/apps/worker/src/main.rs:69-75 | The key "idemp:webhook:gateway:id" is won if and only if it is not live; it then expires 3600 seconds later if both calls took effect and never if only the first did; the row is logged only if both were acknowledged. |
| Worker.HandlingIs | approach-1/apps/worker/src/main.rs:62-85 | For every combination of outcomes of the five calls: which of logging, marking and publishing takes effect, for a SUCCESS and for any other status, and exactly when the result is Ok. |
| Worker.WebhookWorker.HandleEvent | approach-1/apps/worker/src/main.rs:62-85 | The stores end as the specification of the handling says under any outcomes of the five calls, and the result is Ok exactly when no call failed and the row could be logged; an unparsable payload is an error without effect. |
| Worker.WebhookWorker.Poll | approach-1/apps/worker/src/main.rs:46-53 | The whole batch of at most 50 entries is handled in order despite errors, the entries up to the new cursor are handed to the handler, each once, and the cursor ends at the id of the last one, or stays if nothing was read or the read failed. |
| Worker.WebhookWorker.ProcessWebhooks | approach-1/apps/worker/src/main.rs:37-60 | Over any number of turns, some of whose reads may fail, the entries with a payload up to the cursor are handed to the handler, in order, each once; after as many reads as entries were waiting nothing is left unread if and only if no block of 50 entries without payload is in the way. |
| Worker.WebhookWorker.ReconcilePayment | approach-1/apps/worker/src/main.rs:98-100 | Marking and settling one payment leaves exactly the rest of the round to do, or ends it. |
| Worker.WebhookWorker.ReconcilePage | approach-1/apps/worker/src/main.rs:98-107 | The loop does the round's calls in order and stops at the first error. |
| Worker.WebhookWorker.ReconcileOnce | approach-1/apps/worker/src/main.rs:96-108 | The page is one the query may return, the tables end as the round's specification says, and the result is Ok exactly when no call failed. |
| Worker.HandleIsRun | approach-1/apps/worker/src/main.rs:62-85 | The specification of the handling is a run of the machine in which only this worker moves, so all results about runs hold of it. |
| Worker.EntryIsRun | approach-1/apps/worker/src/main.rs:48-53 | Taking and handling one entry is a run that moves the cursor to its id. |
| Worker.PollIsRun | approach-1/apps/worker/src/main.rs:45-58 | One turn of the loop is a run that ends with the store and cursor `Poll` leaves. |
| Worker.SettleIsRun | approach-1/apps/worker/src/main.rs:96-108 | The specification of a round is a run in which only this reconciler moves. |
| Worker.ConfirmsExactlyWhen | approach-1/apps/worker/src/main.rs:71-81 | Without event identity: a published confirmation is true if and only if the event's order exists and no other event was logged under its id. |
| Worker.ReusedEventId | approach-1/crates/adapters/src/repository.rs:70-83 | For any two events under one id, the second a SUCCESS for another payment: a run from the start that handles the first, waits one time to live, and then confirms the second although its payment does not exist. |
| Worker.FailedPaymentIsReconciled | approach-1/apps/worker/src/main.rs:77-100 | A payment reported FAILED stays pending and is marked SUCCESS and settled by the next round that reaches it. |
| BrokerListeners.CountIsUnfinished | approach-2/src/broker/redis_pubsub.rs:124-174 | Under every interleaving the counter equals the topic listeners counted in and not finished, and is at least one whenever a listener is about to lower it. |
| BrokerListeners.NoListenerIsLost | approach-2/src/broker/redis_pubsub.rs:124-196 | Under every interleaving each listener past its registration is in the table under its own channel, or its control has been shut or closed. |
| BrokerListeners.SubscriptionDrains | approach-2/src/broker/redis_pubsub.rs:147-196 | Along every run of everybody, the steps left of an unsubscribed subscription's topic listeners and the progress steps they take add up to a constant; it can take one exactly as long as any is left, and none is counted when none is left. |
| BrokerListeners.DismissedDrains | approach-2/src/broker/redis_pubsub.rs:147-186 | The same for a single topic listener told to stop, at most four steps, also of a removed topic of a session that goes on. |
| BrokerListeners.CountDrains | approach-2/src/broker/redis_pubsub.rs:147-196 | When no entry holds a topic and none is asked for, the counter comes down to zero in as many progress steps as are left, whatever entries remain and whatever sessions come and go. |
| BrokerListeners.CountAtRest | approach-2/src/broker/redis_pubsub.rs:124-196 | In a reachable state in which no listener has a step to take, every counted one is running and held by an entry for its topic, so the counter is zero if no entry holds a topic. |
| BrokerListeners.NextStepStaysEnabled | approach-2/src/broker/redis_pubsub.rs:147-171 | Every topic listener told to stop has a progress step until it has finished, and no step of the others disables it. |
| BrokerListeners.RunKeeps | approach-2/src/broker/redis_pubsub.rs:69-196 | The invariants on table, listeners and count hold along every run. |
| BrokerListeners.StepKeeps | approach-2/src/broker/redis_pubsub.rs:69-196 | Every step of calls, tasks, Redis and sessions keeps table and listeners consistent. |
| BrokerListeners.StepKeepsCount | approach-2/src/broker/redis_pubsub.rs:142-170 | Every step keeps the counter exact. |
| BrokerListeners.UnsubscribeKeeps | approach-2/src/broker/redis_pubsub.rs:188-196 | Removing an entry shuts every listener it holds, so none is lost. |
| BrokerListeners.RegisterKeeps | approach-2/src/broker/redis_pubsub.rs:140-143 | Registering a topic listener, also over another one of the same channel, loses none. |
| BrokerDelivery.ForwardedIsPrefix | approach-2/src/broker/redis_pubsub.rs:91-119 | In every run what a listener has forwarded is an in-order, gap-free, duplicate-free initial part of what was published on its channels since it joined them; while it is connected the rest is in its inbox. |
| BrokerDelivery.DeliveredAtMostOnce | approach-2/src/broker/redis_pubsub.rs:147-186 | If no listener joins a channel that another one of its subscription still hears, a subscription is forwarded each published message at most once. |
| BrokerDelivery.HeardIsOrdered | approach-2/src/broker/redis_pubsub.rs:91-119 | The messages due to a listener come in order of publication, each once. |
| BrokerDelivery.HeardIsWhatWasPublished | approach-2/src/broker/redis_pubsub.rs:91-119 | The messages due to a listener are exactly the entries of the log on a channel that it had joined by then. |
| BrokerDelivery.StepDelivers | approach-2/src/broker/redis_pubsub.rs:91-171 | Every step keeps what listeners have received an initial part of what is due to them. |
| BrokerOverlap.OverlapDeliversTwice | approach-2/src/broker/redis_pubsub.rs:91-171 | Whenever a listener can join a channel that another one of its subscription still hears, and the session still receives, some continuation with that join forwards one message twice: the condition for at-most-once is exact. |
| BrokerOverlap.RemovedAndAddedAgain | approach-2/src/broker/redis_pubsub.rs:124-186 | So it is for a topic removed and added again while the removed listener still hears it. |
| RedisPubSub.FailedSubscribeLeaks | approach-2/src/broker/redis_pubsub.rs:76-89 | Along every run after a failed subscribe, its entry is in the table exactly as long as its id is not unsubscribed, and its main listener stays failed. |
| RedisPubSub.AddedIsRun | approach-2/src/broker/redis_pubsub.rs:124-174 | A successful add is a run of five steps of the machine. |
| RedisPubSub.AddFailedIsRun | approach-2/src/broker/redis_pubsub.rs:134-140 | So is an add whose connection fails; it changes nothing but a listener that never starts. |
| RedisPubSub.SubscribedIsRun | approach-2/src/broker/redis_pubsub.rs:69-122 | A successful subscribe to any list of channels is a run of the machine. |
| RedisPubSub.SubscribeFailedIsRun | approach-2/src/broker/redis_pubsub.rs:82-89 | So is one that fails at any channel. |
| RedisPubSub.PubSub.PublishCall | approach-2/src/broker/redis_pubsub.rs:54-59 | The message is logged and put at the end of the inbox of every listener that hears its channel, and of no other; or an error changes nothing. |
| RedisPubSub.PubSub.SubscribeCall | approach-2/src/broker/redis_pubsub.rs:69-122 | Success gives a fresh subscription whose running listener hears exactly the channels and has received nothing; failure leaves a failed listener; all other listeners stay. |
| RedisPubSub.PubSub.AddSubscription | approach-2/src/broker/redis_pubsub.rs:124-174 | Unknown subscription and channel already held are errors without effect; else a counted listener is registered and running, or the connection failed. |
| RedisPubSub.PubSub.RemoveSubscription | approach-2/src/broker/redis_pubsub.rs:176-186 | Unknown subscription and channel not held are errors without effect; else the channel leaves the entry and its listener is told to shut down. |
| RedisPubSub.PubSub.UnsubscribeCall | approach-2/src/broker/redis_pubsub.rs:188-196 | The entry is gone and no listener it held has an open control; the object stays in a state that a run of the machine leads to, as after every call. |
| RedisPubSub.PubSub.ShutAll | approach-2/src/broker/redis_pubsub.rs:189-194 | The loop over the controls shuts exactly the listeners the entry holds. |
| Channels.NamesAreDistinct | approach-2/src/auth/mod.rs:350-363 | Well-named addresses (client, device or topic) with the same channel name are the same address. |
| Channels.NamesAreCanonical | approach-2/src/auth/mod.rs:371-378 | The three names that the repository's own test expects. |
| Channels.NameHasOneAddress | approach-2/src/auth/mod.rs:350-363 | Every name any address has is the name of exactly one well-named address, which is the address itself if and only if that is well named: the condition is exact for tenants and client ids. |
| Channels.AmbiguousNamesCollide | approach-2/src/auth/mod.rs:350-363 | Families of colliding names: tenants that contain ":client:", client ids that contain ":device:". |
| Channels.ColonFreeIsWellNamed | approach-2/src/auth/mod.rs:350-363 | Colon-free tenants and client ids are well named. |
| Routing.NamesRouteLikeAddresses | approach-2/src/push/service.rs:113-237 | For well-named addresses the string-named broker accepts the same calls in every interleaving as a router keyed by address, and every listener queues and forwards the same messages. |
| Routing.MapRuns | approach-2/src/broker/redis_pubsub.rs:54-196 | Renaming channels injectively maps runs to runs, in both directions, and states to states. |
| Routing.PublishReachesTheAddressed | approach-2/src/push/service.rs:113-178 | Publishing by name appends the message to the inbox of exactly the listeners the address router would choose. |
| Routing.TopicsNeverOverlapClients | approach-2/src/push/service.rs:35-84 | In every run of the service no topic listener hears a channel name that a client or device listener hears. |
| PushService.Service.SubscribeClient | approach-2/src/push/service.rs:35-84 | Rejected without effect exactly for an empty tenant or client, or with device support an empty device id; success adds one running listener that hears exactly "tenant:t:client:c" and, with device support and a device, that name plus ":device:d", stores the device under "t:c" if the store works, and counts one connection; a broker failure counts none. |
| PushService.Service.UnsubscribeClient | approach-2/src/push/service.rs:86-111 | The device is deleted if the store works, the broker entry goes, and the count falls by one. |
| PushService.Service.PublishToClient | approach-2/src/push/service.rs:113-132 | Each rejected input; else the event is logged on "tenant:t:client:c", put into the inbox of every listener that hears it and of no other, and counted. |
| PushService.Service.PublishToClientDevice | approach-2/src/push/service.rs:134-157 | The same on "tenant:t:client:c:device:d"; without device support it is a failed precondition, and the tenant is not checked. |
| PushService.Service.PublishToTopic | approach-2/src/push/service.rs:159-178 | The same on "tenant:t:topic:x". |
| PushService.Publishable | approach-2/src/push/service.rs:180-191 | The number of requests of a batch before the first that is rejected or fails. |
| PushService.Service.PublishToTopics | approach-2/src/push/service.rs:180-191 | The log grows by the events before the first request that is refused or fails, in order, each on the channel of its topic; that many are counted, and the result is Ok or the error of that request. |
| PushService.Service.TopicSubscribe | approach-2/src/push/service.rs:193-214 | Ok exactly when topic and tenant are not empty, the subscription exists, does not hold the topic, and Redis is up; a running listener that hears just "tenant:t:topic:x" is then added. |
| PushService.Service.TopicUnsubscribe | approach-2/src/push/service.rs:216-237 | Ok exactly when topic and tenant are not empty and the subscription holds the topic; errors change nothing. |
| PushService.Service.GetActiveDevices | approach-2/src/push/service.rs:239-266 | Exactly the devices stored under "t:c", with their attributes, or the error the inputs call for. |
| EndToEnd.SubscribeThenPublish | approach-2/src/push/service.rs:35-157 | An event published after a session has subscribed comes to that session if it is addressed to its client or, with device support, to its device; published to any other well-named address it does not. |
| EndToEnd.AddTopicThenPublish | approach-2/src/push/service.rs:159-214 | The same for a topic that a subscription has added. |
| EndToEnd.SessionGetsOnlyItsOwn | approach-2/src/broker/redis_pubsub.rs:54-119 | Along every run of all sessions, what has come to a session since it subscribed was published on one of its names after that, in order of publication, none of it twice. |
| EndToEnd.SessionMissesNothing | approach-2/src/broker/redis_pubsub.rs:54-119 | Along every run in which the session does not unsubscribe, end or lose Redis, its listener still runs and every event published on one of its names since it subscribed has come to it. |
| GrpcSession.EveryRequestIsAnswered | approach-2/src/server/grpc_handler.rs:401-472 | The acks of any request sequence answer its topic requests one by one, in order, each for its own topic. |
| GrpcSession.SubscriptionIsAnswered | approach-2/src/server/grpc_handler.rs:417-435 | After any requests a subscription adds one ack, a success exactly if the topic is not empty and not held and Redis is up; the topic is then held, and no other changes. |
| GrpcSession.UnsubscriptionIsAnswered | approach-2/src/server/grpc_handler.rs:437-461 | An unsubscription adds one ack, a success exactly if the topic is held; it is then not held, and no other changes. |
| GrpcSession.OthersAreNotAnswered | approach-2/src/server/grpc_handler.rs:406-472 | Any other request adds no ack and changes no topic. |
| GrpcSession.SuccessesBalance | approach-2/src/server/grpc_handler.rs:401-472 | Successful subscriptions less successful unsubscriptions are as many as the topics held. |
| GrpcSession.AcksTellTheTopics | approach-2/src/server/grpc_handler.rs:401-472 | A topic is held if and only if the last successful ack about it is for a subscription. |
| GrpcSession.Session.HandleSubscription | approach-2/src/server/grpc_handler.rs:417-435 | One ack is added, a success exactly when the topic is not empty, its channel "tenant:t:topic:x" is not held and Redis is up; the broker's entry then holds that channel too, else it stays; the metrics follow. |
| GrpcSession.Session.HandleUnsubscription | approach-2/src/server/grpc_handler.rs:437-461 | One ack is added, a success exactly when the channel of the topic is held; it is then no longer held; errors have their own counter. |
| GrpcSession.Session.HandleClientRequest | approach-2/src/server/grpc_handler.rs:401-472 | Each request, with Redis up or down, also an empty one or an event: the ack it gets and the channels held after it, written out; control map and acks stay those of the plain set, the metrics count the successes, and the entries of all other sessions stay. |
| GrpcSession.ServeAll | approach-2/src/server/grpc_handler.rs:401-472 | For any number of sessions of one service and any interleaving of their requests, each session has the topics and acks its own requests alone call for. |
| Sessions.ConnectionsAreCounted | approach-2/src/push/service.rs:61-111 | In every reachable state of any number of sessions, with failures at every call, `connections` equals the subscribe calls that succeeded less the unsubscribe calls in the run, and the sessions counted in, and never underflows. |
| Sessions.EndedSessionsLeaveNothing | approach-2/src/server/grpc_handler.rs:170-252 | When all sessions have ended, those still counted are exactly those whose ack could not be sent, and the remaining ids in the table are theirs and those of refused sessions. |
| Sessions.UncountedOnce | approach-2/src/server/ws_handler.rs:95-183 | In every run a session lowers the count exactly once if it is over, else not at all. |
| Sessions.PresenceIsExact | approach-2/src/push/service.rs:61-107 | Without store faults or lost acks, with colon-free tenants and one session per device at a time, at every step the devices listed, with their attributes, are exactly those of sessions that stored and have not yet deleted them, each with its broker entry. |
| Sessions.DeletingKeepsExactWhen | approach-2/src/push/service.rs:93-105 | Deleting a session's device keeps the list exact if and only if no other session shows that device. |
| Sessions.StoringKeepsExactWhen | approach-2/src/push/service.rs:61-77 | Storing a device keeps the list exact if and only if every other session that shows it has the same attributes for it. |
| Sessions.KeyIsAmbiguous | approach-2/src/push/service.rs:61-77 | Every device key of a tenant with a colon is also a key of a colon-free tenant. |
| Handlers.Connect | approach-2/src/server/ws_handler.rs:88-115 | Up to the loop: each way a connection can go leaves the broker's entries, the device store and the count as the session machine says, whatever other sessions there are. |
| Handlers.Disconnect | approach-2/src/server/ws_handler.rs:180-183 | After the loop the entry is gone, the device deleted and the count lowered, as the session machine says. |
| Handlers.HandleWs | approach-2/src/server/ws_handler.rs:81-184 | The whole handler: what each exit leaves in the broker's table, the device store and `connections`; whichever way the loop ends, table and count are as before the session. |
| Handlers.ChannelLoop | approach-2/src/server/grpc_handler.rs:198-247 | The gRPC loop stops as its verdict says, with requests as signs of life; it handles exactly the requests before its end, counts deliveries and the timeout, and leaves other sessions' entries alone. |
| Handlers.RequestsStand | approach-2/src/server/grpc_handler.rs:206-226 | The requests dealt with are exactly those among the events, each at its place. |
| Handlers.Channel | approach-2/src/server/grpc_handler.rs:142-256 | The same as for the WebSocket handler, with the acks of the requests handled. |
| Handlers.SessionIsRun | approach-2/src/server/ws_handler.rs:95-183 | What the handlers do is a run of the session machine, in which a session that had a loop and whose loop is over is uncounted exactly once, and any other not at all. |
| Sessions.ConnectIsRun | approach-2/src/push/service.rs:35-84 | The effect of a connection is a run of open, insert, store, count and ack, or of open and a refused insert. |
| Sessions.DisconnectIsRun | approach-2/src/push/service.rs:86-111 | The effect of an unsubscribe call is a run of delete, remove and uncount. |
| Keepalive.WsLoop | approach-2/src/server/ws_handler.rs:117-178 | The loop stops at the first moment that breaks the session, for silence if it has expired then, with its counters of pings, signs of life, deliveries and timeouts those of the trace before it. |
| Keepalive.WsTurn | approach-2/src/server/ws_handler.rs:118-177 | One turn of the select, event by event: a pong or an answered ping sets the time and is counted; text, other frames and deliveries do not; a close, a stream's end, an error or a frame that could not be sent leaves; a tick cuts the session off if the last sign of life is more than the timeout ago. |
| Keepalive.GrpcTurn | approach-2/src/server/grpc_handler.rs:199-246 | The same for one turn of the gRPC loop, where only a request is a sign of life. |
| Keepalive.TurnsDecide | approach-2/src/server/ws_handler.rs:117-178 | Turn by turn, a loop that only keeps the time of the last sign of life comes to the verdict that looks at all of them. |
| Keepalive.VerdictIsUnique | approach-2/src/server/ws_handler.rs:117-178 | There is one verdict on a trace. |
| Keepalive.ResponsiveIsNeverCut | approach-2/src/server/ws_handler.rs:108-178 | If the timeout is at least the largest gap between ticks, a client whose pong to each ping comes before the next tick is never cut for silence. |
| Keepalive.SilentIsCut | approach-2/src/server/ws_handler.rs:161-171 | A client silent since p is out by p plus the timeout plus the largest gap. |
| Keepalive.PromptClientIsCut | approach-2/src/server/ws_handler.rs:108-178 | If ticks are further apart than the timeout, a client all of whose signs of life come early after the first ping is cut at the second tick. |
| Keepalive.ShippedSettingsCutPromptClients | approach-2/config/propeller.toml:11-12 | With the shipped settings a session is cut at the second ping if and only if it shows no sign of life in the ten seconds before it. |
| Keepalive.RespondingWsIsNeverCut | approach-2/src/server/ws_handler.rs:108-178 | A WebSocket client of which a pong or an answered ping arrives between any two pings is never cut for silence, if no ping comes more than the timeout after the start and all pings before it. |
| Keepalive.SilentWsIsCut | approach-2/src/server/ws_handler.rs:161-171 | A ping more than the timeout after the last pong or answered ping ends the session, and cuts it if nothing else has ended it and no such ping came before; text and deliveries do not help. |
| Keepalive.ShippedSettingsCutPromptWs | approach-2/config/propeller.toml:11-12 | With 30 and 10 seconds, a session not ended otherwise is cut at its second ping if and only if no pong or answered ping comes in the ten seconds before it. |
| Keepalive.RespondingGrpcIsNeverCut | approach-2/src/server/grpc_handler.rs:198-247 | The same for a gRPC session in which a request arrives between any two ticks. |
| Keepalive.SilentGrpcIsCut | approach-2/src/server/grpc_handler.rs:198-247 | A tick more than the timeout after the last request ends the session. |
| Keepalive.WsTallyCounts | approach-2/src/server/ws_handler.rs:117-178 | The counters are the numbers of pings sent, of pongs and answered pings, and of deliveries among the turns. |
| Keepalive.GrpcTallyCounts | approach-2/src/server/grpc_handler.rs:198-247 | The delivery counter is the number of deliveries among the turns. |
| Keepalive.FinalCounts | approach-2/src/server/ws_handler.rs:117-178 | A session that left at a failed delivery has counted it, and only a cut counts a timeout. |
| Base64Url.DecodeEncode | approach-2/src/auth/mod.rs:187-196 | Decoding undoes encoding, for all bytes (section 5 of RFC 4648, without padding). |
| Base64Url.EncodeDecode | approach-2/src/auth/mod.rs:187-196 | Only one text decodes to given bytes. |
| Base64Url.EncodingHasNoDot | approach-2/src/auth/mod.rs:458-468 | An encoding contains no dot. |
| Base64Url.LettersAre | approach-2/src/auth/mod.rs:187-196 | The characters of the letters, as in section 5 of RFC 4648. |
| Base64Url.DigitsAndSignsAre | approach-2/src/auth/mod.rs:187-196 | Those of the digits, of "-" and of "_". |
| Base64Url.TestVectors | approach-2/src/auth/mod.rs:458-468 | The test vectors of section 10 of RFC 4648, without padding. |
| Base64Url.RefusedTexts | approach-2/src/auth/mod.rs:187-196 | Padding, a character left over, other characters and set bits that carry no data are refused. |
| Hmac.HmacSha256 | approach-2/src/auth/mod.rs:306-338 | The array program computes HMAC as section 2 of RFC 2104 defines it, for every key length and message, over any hash to 32 bytes. |
| Hmac.MacIs | approach-2/src/auth/mod.rs:306-338 | The code written out: blocks of 64 bytes, a longer key hashed, 0x36 inside and 0x5c outside. |
| Hmac.FillKeyBlock | approach-2/src/auth/mod.rs:308-316 | A long key is hashed first; the rest of the block is zero. |
| Hmac.XorPads | approach-2/src/auth/mod.rs:318-323 | Both pads are changed in place to their old value xor the key block. |
| Hmac.CopyFromSlice | approach-2/src/auth/mod.rs:308-316 | The start of the array becomes the source, the rest stays. |
| Hmac.EquivalentKeys | approach-2/src/auth/mod.rs:308-316 | A long key and its hash give the same codes, and so does a short key with zeros appended. |
| Hmac.ConstantTimeEq | approach-2/src/auth/mod.rs:295-304 | The accumulating loop is true if and only if the byte strings are equal. |
| Jwt.IssuedTokenDecodes | approach-2/src/auth/mod.rs:115-139 | A token issued under the secret (section 7.1 of RFC 7515) for the right issuer, and the right audience alone or in a list, decodes to its tenant claim and to its client id, or else subject, if and only if now lies in the closed interval from nbf less the leeway to exp plus the leeway. |
| Jwt.AcceptedTokenIsIssued | approach-2/src/auth/mod.rs:166-203 | An accepted token is the text the holder of the secret would issue for its first two parts, and its claims are valid. |
| Jwt.AcceptedExactlyWhen | approach-2/src/auth/mod.rs:166-231 | A token is accepted with given claims if and only if it is header, encoded payload and encoded code between dots, the payload parses to the claims, the issuer is the configured one, the audience is the configured one or a list with it, and the times are right, sums wrapping at 2^64. |
| Jwt.ValidClaimsAre | approach-2/src/auth/mod.rs:205-231 | The same for the claims alone. |
| Jwt.FormatIsChecked | approach-2/src/auth/mod.rs:173-185 | The format error is given if and only if the token does not consist of three dot-free parts. |
| Jwt.FirstErrorIs | approach-2/src/auth/mod.rs:187-203 | Which of encoding of the code, code, encoding of the payload and payload is reported. |
| Jwt.FirstInvalidIs | approach-2/src/auth/mod.rs:205-231 | Which of issuer, audience, begin, missing expiry and expiry is reported. |
| Jwt.IdentityIs | approach-2/src/auth/mod.rs:115-139 | The identity: the configured claim as the tenant, a text or a number; the client id, or else the subject, as the client; the subject, or else the client, as the subject. |
| Jwt.IntervalIsAccepted | approach-2/src/auth/mod.rs:205-231 | Claims with now in their interval are accepted if and only if no 64-bit sum wraps to harm; others never are. |
| Jwt.WrappedExpiryIsRefused | approach-2/src/auth/mod.rs:221-225 | A concrete token well within its life is refused as expired. |
| Jwt.ThreeParts | approach-2/src/auth/mod.rs:173-185 | Joining three dot-free parts and splitting gives them back. |
| Jwt.ThreePartsJoin | approach-2/src/auth/mod.rs:173-185 | A text that splits into three parts is their join. |
| Jwt.NextPart | approach-2/src/auth/mod.rs:173-185 | Stepping the split iterator gives the next part and what is left. |
| Jwt.DecodeAndValidateHs256 | approach-2/src/auth/mod.rs:166-203 | The stepwise program gives the specified claims or error, in the code's order of checks; on success issuer, audience, expiry and begin are as they must be. |
| Jwt.BearerIsExtracted | approach-2/src/auth/mod.rs:285-293 | A token is taken from a header if and only if the header is the six letters of "bearer", each in either case, one space, and that non-empty token. |

## Left out

- Worker.WebhookWorker.Poll: the endless loops of the worker process are modelled turn by turn, and the waits between turns as steps of the clock.
- Keepalive.WsLoop: the clock is part of the trace, so "processed at" and "arrived at" are one time.
- Handlers.HandleWs: other sessions act between `Connect`, the loop and `Disconnect` in the session machine, not within this method.
- Jwt.DecodeAndValidateHs256: what serde_json makes of the payload is a parameter, and a clock before 1970 does not occur.
- Hmac.HmacSha256: SHA-256 is a parameter, any function to 32 bytes.
- GrpcSession.Session.HandleClientRequest: acks are appended to a list that is always drained.
- RedisPubSub.PubSub.UnsubscribeCall: each call of the object is made as a whole; that it waits while an add for its entry is under way is a condition of the machine's step, and that the guard also blocks other entries of the same shard is not modelled.
- Worker.HandleIsRun: the events in hand are the events enqueued; that the stream's value is rendered back to the same text is assumed.
- UUIDs are their canonical text, stream ids are positions, and the row ids of transactions and settlements are dropped.
- Postgres isolation: each statement is one step, and the transaction that marks a payment is one step.
- Redis reconnects, `publish_bulk`, TLS, tracing and process start-up: I/O plumbing.
- `AuthContext.scopes` and `parse_scopes`, API keys, the legacy header mode and the HTTP and gRPC entry points of authentication: they have no protocol of their own.
- `SmartRouter` and `MockGateway`: the first success in a list.
- Configuration loading, metrics snapshots, error-to-status mapping, and the direct WebSocket broadcast of the API.
