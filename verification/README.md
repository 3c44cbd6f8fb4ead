# Joblet: a verified model of its stateful cores

Joblet runs jobs on a Linux host. This project models the parts of it that keep state and proves
what they promise: the scheduler and its queue, the delivery of logs to clients and to the persist
service, the firewall between bridges, the address pools of networks and the jobs' use of them, the
GPU allocator, and the choice of a runtime's version. `dafny verify dfyconfig.toml` checks everything (Dafny 4.11).

How the code is modelled:

- Objects that change in place are classes whose methods are proved against functions or relations
  on values; the lemmas are about those.
- Concurrent code is a state machine with one step per lock region or channel operation: `Action`
  lists the steps, `Enabled` and `Apply` say when and what, `Exec` runs any sequence of them from
  the initial state (a step that is not enabled does nothing), and `Reachable` states are what some
  sequence leads to. Theorems about reachable states therefore hold over every interleaving.
- What the code reads from outside (clocks, command results, probes, dial and write outcomes, the
  order in which Go ranges over a map) is a parameter or an argument of an action and may be
  anything. Variables called history record what happened; no step reads them. `Dispatch`'s `place`,
  which the code does not keep either, also guards the steps that bring a job in or write the status
  of a running one: it carries the assumptions that a new job has a fresh id, that start-up recovers
  a job once, and that only a started job has its status written.

| file | what it holds |
|---|---|
| `QueueSpec.dfy`, `HeapOrder.dfy`, `PriorityQueue.dfy` | the queue as a bag; facts about heaps; the indexed heap with the `up`, `down`, `Fix` and `Remove` of Go's container/heap written out |
| `Scheduler.dfy`, `JobDomain.dfy` | `Scheduler`'s methods and start-up recovery |
| `Dispatch.dfy`, `DispatchOutcomes.dfy` | scheduling, stopping, deleting, recovery and the scheduler loop interleaved; what becomes of each job |
| `LogBuffer.dfy`, `LogDelivery.dfy` | the log buffer; one writer and one streaming client interleaved |
| `PubSub.dfy` | the life of subscriber channels |
| `Framing.dfy`, `LogNumbering.dfy`, `IpcWriter.dfy`, `IpcProgress.dfy` | the length-prefixed socket format; numbering; queueing, sending and reconnecting; what each counter counts and that the queue gets out |
| `Firewall.dfy`, `FirewallProofs.dfy` | the FORWARD chain under bridge creation, removal and isolated networks |
| `BridgeRaces.dfy` | creations of bridges that overlap, command by command |
| `Octets.dfy`, `Cidr.dfy`, `Decimal.dfy`, `IpPool.dfy` | address arithmetic on bytes; pools and the adapter's methods |
| `Leases.dfy` | attaching jobs to a network and detaching them, interleaved |
| `GpuSelection.dfy`, `GpuOwnership.dfy`, `GpuManager.dfy` | the four strategies; ownership and quarantine; the manager |
| `Semver.dfy`, `Resolver.dfy` | versions; the latest one and the first pass over the runtimes directory |

Where code and documentation disagree the model follows the code:

- `findLatestVersion` is documented to return an empty path if no version is valid; it returns the
  first candidate's path that is not empty (internal/joblet/runtime/resolver.go:687, 708-714).
- `NewVersion` is documented to accept MAJOR.MINOR.PATCH; it also accepts signs and leading zeros,
  which Semantic Versioning 2.0.0 item 2 rules out (`Semver.AcceptsMoreThanTheStandard`).
- The bridges' isolation comment promises that jobs in different networks cannot communicate; between
  the default bridge and another one it depends on which is younger (`FirewallProofs.ApartExactlyWhen`),
  and it fails when the default bridge is made second (`FirewallProofs.DefaultBridgeIsNotApart`).
- The comment on `cleanupNetworkIsolation` promises that rules do not accumulate; a pair stays behind
  for every bridge whose creation overlapped so that each listed the other
  (`BridgeRaces.RemovalLeavesExactly`).
- The comment on `ensureBridge` describes a fully set up bridge; if giving it its address fails the
  bridge stays, without rules, and later calls accept it as it is. The model keeps such bridges.

## Model

| member | source | states |
|---|---|---|
| QueueSpec.DrainIsSorted | internal/joblet/scheduler/priority_queue.go:99-109 | what repeatedly taking a minimum out of a bag yields are exactly the arrangements of the bag in order of time |
| PriorityQueues.PriorityQueue.Drain | internal/joblet/scheduler/priority_queue.go:99-109 | Next called until it finds nothing hands out all queued jobs, each once, in order of time, and leaves the queue empty |
| HeapOrder.RootEntryIsMin | internal/joblet/scheduler/priority_queue.go:87-96 | the job at node 0 of a heap is a job with the earliest time |
| HeapOrder.RiseStep | internal/joblet/scheduler/priority_queue.go:40-49 | one swap of up moves the only edge out of order one level up |
| HeapOrder.SinkStep | internal/joblet/scheduler/priority_queue.go:40-49 | one swap of down with the smaller child moves the only node out of order one level down |
| PriorityQueues.PriorityQueue.Swap | internal/joblet/scheduler/priority_queue.go:45-49 | two nodes change places and every node's Index is still its position |
| PriorityQueues.PriorityQueue.Push | internal/joblet/scheduler/priority_queue.go:52-56 | a new node goes last, with its position as its Index |
| PriorityQueues.PriorityQueue.Pop | internal/joblet/scheduler/priority_queue.go:59-67 | exactly the last node leaves, its Index becomes -1, and what was a heap without it is the queue |
| PriorityQueues.PriorityQueue.Up | internal/joblet/scheduler/priority_queue.go:83 | container/heap's up restores the order of the first n nodes when only the edge above one node was wrong, keeping the entries and back-pointers |
| PriorityQueues.PriorityQueue.Down | internal/joblet/scheduler/priority_queue.go:107 | container/heap's down restores the order below a node, and all of it if the node moved, keeping the entries and back-pointers |
| PriorityQueues.PriorityQueue.Fix | internal/joblet/scheduler/priority_queue.go:134 | container/heap's Fix makes a heap of the same entries after one node changed its time either way |
| PriorityQueues.PriorityQueue.RemoveAt | internal/joblet/scheduler/priority_queue.go:118 | container/heap's Remove takes out exactly node i and leaves a heap with exact back-pointers |
| PriorityQueues.PriorityQueue.Add | internal/joblet/scheduler/priority_queue.go:70-84 | the entry joins the bag, in a new node that holds that very job; a job without a time changes nothing |
| PriorityQueues.PriorityQueue.Peek | internal/joblet/scheduler/priority_queue.go:87-96 | nothing exactly when the queue is empty, otherwise a job with the earliest time, and the queue is unchanged |
| PriorityQueues.PriorityQueue.Next | internal/joblet/scheduler/priority_queue.go:99-109 | a node of the queue with the earliest time leaves it, or the queue was empty |
| PriorityQueues.PriorityQueue.Remove | internal/joblet/scheduler/priority_queue.go:112-123 | one entry with the id leaves, and true is returned, exactly when there is one; otherwise nothing changes |
| PriorityQueues.PriorityQueue.Update | internal/joblet/scheduler/priority_queue.go:126-139 | one entry with the id, if there is one, changes its time and nothing else does |
| Schedulers.Scheduler.AddJob | internal/joblet/scheduler/scheduler.go:94-118 | a timed job joins the queue and a wake signal is pending afterwards; an untimed one changes nothing |
| Schedulers.Scheduler.RemoveJob | internal/joblet/scheduler/scheduler.go:121-132 | the queue loses an entry with the id exactly when it reports so, and then a wake signal is pending |
| Schedulers.Scheduler.RecoverScheduledJobs | internal/joblet/core/joblet.go:898-959 | the queue gains exactly the entries of the jobs to recover, and the two counters count them and the jobs without a time |
| Schedulers.EntriesForMembers | internal/joblet/core/joblet.go:906-951 | an entry is recovered if and only if some job given has status SCHEDULED, the current node's id, and that id and time |
| Schedulers.EntriesForCount | internal/joblet/core/joblet.go:906-951 | and once for each job that has it |
| Schedulers.RecoveredOrSkipped | internal/joblet/core/joblet.go:906-951 | the two counters together count the SCHEDULED jobs of this node, the skipped ones are those without a time |
| Dispatch.StepKeepsInv | internal/joblet/core/joblet.go:191-456 | every step of every client, of recovery, of running jobs and of the scheduler loop keeps the invariant that ties the queue, the store and whoever holds the right to run each job |
| Dispatch.CancelExcludesDispatch | internal/joblet/core/joblet.go:357-413 | over every interleaving a job is dispatched at most once, cancelled at most once and never both, and no popped job is refused by the status checks |
| Dispatch.EveryJobIsAccountedFor | internal/joblet/core/joblet.go:222-224 | the right to run a job is in exactly one place: queued, held by one client, held by the loop, or settled; until it is settled the stored status is SCHEDULED |
| DispatchOutcomes.OneOutcome | internal/joblet/core/joblet.go:357-413 | over every run, a job that was scheduled or recovered is at any time in exactly one state: taken out by a client and being cancelled or cancelled; popped by the loop and in its hands or dispatched; or neither, and on its way into the queue or queued with its own time |
| DispatchOutcomes.NothingElse | internal/joblet/core/joblet.go:357-413 | only jobs that the loop popped are dispatched, only jobs a client took out of the queue are cancelled, and only jobs scheduled or recovered are queued, popped or taken out |
| DispatchOutcomes.RecordsChange | internal/joblet/core/joblet.go:357-413 | in every reachable state: a launch stores INITIALIZING and counts exactly that job as dispatched, the cancelling write stores CANCELED and counts exactly that job as cancelled, the stopping write stores STOPPED unless the job is gone, and what every other step does to the records |
| DispatchOutcomes.ScheduledUntil | internal/joblet/core/joblet.go:357-413 | a record that says SCHEDULED stops saying so with a step if and only if the step is the job's launch or its cancelling write |
| DispatchOutcomes.LoopServes | internal/joblet/scheduler/scheduler.go:154-213 | from every reachable state in which no client owes a signal and the loop runs, the loop's own steps can get every due job of the queue and the one in its hands dispatched, and leave the others queued |
| DispatchOutcomes.StopCancels | internal/joblet/core/joblet.go:390-413 | a stop of a queued job with nobody in between takes exactly it out of the queue, stores CANCELED and leaves a wake signal |
| DispatchOutcomes.StopOtherwise | internal/joblet/core/joblet.go:390-456 | a stop of any other job cancels nothing; a RUNNING one becomes STOPPED, other records stay |
| DispatchOutcomes.DeleteAlone | internal/joblet/core/joblet.go:461-500 | delete refuses RUNNING, SCHEDULED and INITIALIZING jobs; any other is gone afterwards, record and task, and nothing else is |
| DispatchOutcomes.RunsNow | internal/joblet/core/joblet.go:240-270 | a job run at once gets its record and task, is not queued, and counts neither as dispatched by the loop nor as cancelled |
| DispatchOutcomes.HaltedForGood | internal/joblet/scheduler/scheduler.go:150-157 | a stopped loop stays stopped and dispatches nothing any more |
| Dispatch.PoppedIsScheduled | internal/joblet/core/joblet.go:361-377 | any job the loop has popped is in the store as SCHEDULED, so it passes both checks |
| Dispatch.NoLostWakeup | internal/joblet/scheduler/scheduler.go:94-204 | whenever the loop sleeps, a wake token is pending, or a client is between its queue change and its signal, or the plan slept on is the current queue head |
| Dispatch.NoEarlyDispatch | internal/joblet/scheduler/scheduler.go:160-213 | if between Peek and Next others only add jobs or remove jobs other than the peeked one, the job popped is due |
| Dispatch.DueExactlyWhen | internal/joblet/scheduler/scheduler.go:207-213 | without that proviso: the job popped is due if and only if some queued job is |
| Dispatch.EarlyExactlyWhen | internal/joblet/scheduler/scheduler.go:207-213 | in every reachable state in which the loop is about to call Next, the job it will get is early if and only if the one it looked at has left the queue and every queued job has its time ahead |
| Dispatch.EarlyOnlyIfTakenOut | internal/joblet/scheduler/scheduler.go:160-213 | over any interleaving from Peek to Next: if the job popped is early, the peeked one was taken out of the queue on the way |
| Dispatch.EarlyDispatchWithoutTheProviso | internal/joblet/scheduler/scheduler.go:178-213 | a run in which the peeked job is cancelled before Next and a job is popped before its time |
| LogBuffer.SimpleLogBuffer.Write | internal/joblet/adapters/log_buffer.go:23-33 | the contents grow by the chunk, kept in a fresh array, and the earlier arrays are the same |
| LogBuffer.SimpleLogBuffer.ReadAll | internal/joblet/adapters/log_buffer.go:36-47 | all chunks in order, in fresh arrays |
| LogBuffer.SimpleLogBuffer.ReadAfterSkip | internal/joblet/adapters/log_buffer.go:51-68 | the chunks after the first skipCount, none if there are no more, in fresh arrays |
| LogDelivery.StepKeepsInv | internal/joblet/adapters/job_store_adapter.go:910-1079 | every step of the writer, other publishers, the client, time and closing keeps the delivery invariant |
| LogDelivery.DeliveredExactly | internal/joblet/adapters/job_store_adapter.go:395-418 | what the client has been sent, has pending and has queued is always the snapshot past the skip count followed by the chunks offered to its channel less those that timed out |
| LogDelivery.NoGapAtTheSeam | internal/joblet/adapters/job_store_adapter.go:505-543 | with the buffer on and no timeout these are two stretches of the log that meet or overlap, the second reaching up to the last publish |
| LogDelivery.NothingLost | internal/joblet/adapters/job_store_adapter.go:536-543 | every published chunk past the skip count has its place in what the client gets, and later chunks have later places: overlap only repeats |
| LogDelivery.CompleteExactlyWhen | internal/joblet/pubsub/pubsub.go:170-186 | with timeouts: the client gets the two stretches in full if and only if no offer to it timed out |
| LogDelivery.MissingExactlyWhen | internal/joblet/pubsub/pubsub.go:170-186 | the position of a published chunk past the skip count is missing from what the client gets if and only if its offer timed out and it is not in the snapshot |
| LogDelivery.MissingChunkExactlyWhen | internal/joblet/pubsub/pubsub.go:170-186 | for a log of distinct chunks the same of the chunk itself |
| LogDelivery.OffersRecorded | internal/joblet/adapters/job_store_adapter.go:395-418 | only a timeout drops a chunk, the one just written; a delivery puts exactly that one into the channel; those captured are the subscribers there then |
| LogDelivery.SnapshotTaken | internal/joblet/adapters/job_store_adapter.go:505-529 | a snapshot is of the whole log so far past the skip count, or nothing with persist disabled; nothing else takes one |
| LogDelivery.SnapshotGetsOut | internal/joblet/adapters/job_store_adapter.go:516-522 | the snapshot can go out whole and in order by sends alone |
| LogDelivery.EndsAs | internal/joblet/adapters/job_store_adapter.go:940-1022 | what each way a stream can end leaves: the reason, the subscription gone, nothing sent or written by it |
| LogDelivery.HandledAs | internal/joblet/adapters/job_store_adapter.go:1024-1067 | another job's event is skipped; a chunk is sent and, while draining, puts the end off to 500 ms from then; COMPLETED, FAILED and STOPPED start the drain and other statuses do nothing |
| LogDelivery.DrainedAfterEnd | internal/joblet/adapters/job_store_adapter.go:1055-1063 | a stream ends by draining only in a run in which a COMPLETED, FAILED or STOPPED status of its own job was published |
| LogDelivery.CompletedGetsBuffer | internal/joblet/adapters/job_store_adapter.go:531-541 | a client that comes after the job's end gets the buffer past the skip count and no more |
| LogDelivery.ComesAs | internal/joblet/adapters/job_store_adapter.go:531-543 | coming to a running job subscribes from the next publish on, coming to a completed one does not |
| LogDelivery.UnbufferedIsLive | internal/joblet/adapters/job_store_adapter.go:403-418 | with persist disabled the client gets exactly the live stretch of the log |
| LogDelivery.DrainWaitsForQuiet | internal/joblet/adapters/job_store_adapter.go:995-1067 | a stream that ends by draining has been quiet for more than 500 ms since the completion event and since every chunk sent after it |
| LogDelivery.TimeOutLosesAChunk | internal/joblet/pubsub/pubsub.go:170-186 | a run in which the events of another job fill the channel of a client that takes none for 100 ms, and a chunk never reaches it though it subscribed before the chunk was written |
| PubSub.StepKeepsInv | internal/joblet/pubsub/pubsub.go:127-301 | every step of Subscribe, Publish, unsubscribe and Close keeps locks, topic maps, channels, numbers and flags consistent |
| PubSub.ClosedAtMostOnce | internal/joblet/pubsub/pubsub.go:245-295 | a channel is closed at most once, and its subscriber is in the topic map exactly while it is open |
| PubSub.CloseClosesAll | internal/joblet/pubsub/pubsub.go:275-301 | once Close has returned every channel ever handed out is closed, once, and no topic is left |
| PubSub.ClosedForGood | internal/joblet/pubsub/pubsub.go:134-197 | after that no call opens a channel, closes one again or puts a message into one |
| PubSub.PublisherOrder | internal/joblet/pubsub/pubsub.go:144-186 | one publisher's messages in one channel have increasing numbers, in channel order |
| PubSub.PublishDelivers | internal/joblet/pubsub/pubsub.go:144-186 | whatever goes on meanwhile, at the end of a publish its message, with its topic and payload, is in the channels of exactly those subscribers that the topic had when it looked and whose send did not time out, once each |
| PubSub.SentSoFar | internal/joblet/pubsub/pubsub.go:170-186 | at any time during a publish exactly those channels have its message that it is done with and that did not time out; a channel only has messages of its own topic, each once |
| PubSub.SendPuts | internal/joblet/pubsub/pubsub.go:171-173 | one send puts exactly its message at the end of its channel, where it was not yet, and changes no other channel |
| PubSub.GotGrows | internal/joblet/pubsub/pubsub.go:171-173 | no other step puts anything into a channel or takes back what it was sent |
| PubSub.PublishCanFinish | internal/joblet/pubsub/pubsub.go:170-186 | while the channels it still has to serve are open, a publish can go through with all of them by its own sends |
| PubSub.SubscriptionStarts | internal/joblet/pubsub/pubsub.go:201-228 | a new subscription is listed in its topic, open and empty, and the others are as they were |
| PubSub.SendMeetsClosedExactlyWhen | internal/joblet/pubsub/pubsub.go:153-250 | a publisher about to send finds the channel closed if and only if that subscriber's own unsubscribe has finished meanwhile; Close is never the cause |
| PubSub.SendCanMeetClosed | internal/joblet/pubsub/pubsub.go:153-250 | a run in which that happens |
| LogNumbering.NumberedAsReceived | internal/joblet/ipc/subscriber.go:62-90 | for each job there is one message per non-empty chunk received, number i carrying the i-th in the encoding it came with |
| LogNumbering.ProcessEvents | internal/joblet/ipc/subscriber.go:62-122 | the loop with its sequence map makes exactly the messages of the specification |
| Framing.BigEndianRoundTrip | internal/joblet/ipc/writer.go:389 | the four bytes of a length read back as the length modulo 2^32 |
| Framing.BigEndianBytes | internal/joblet/ipc/writer.go:389 | byte k of the prefix is worth 256^(3-k) |
| Framing.PutUint32 | internal/joblet/ipc/writer.go:389 | the prefix buffer holds the big-endian bytes of uint32(v) and nothing after them changes |
| Framing.SendMessage | internal/joblet/ipc/writer.go:373-400 | success means the whole frame was appended to the connection, failure that a strict prefix of it was |
| Framing.DecodeFrames | persist/internal/ipc/server.go:200-245 | reading whole frames and at most one truncated one gives back exactly the messages, in order, and the truncated rest |
| Framing.StopsAtTooLarge | persist/internal/ipc/server.go:200-245 | at a length over its limit the reader stops, says so, and has the whole messages before it |
| Framing.FrameRoundTripExactlyWhen | persist/README.md:105 | one message survives framing if and only if its length is below 2^32 and within the reader's limit |
| IpcWriter.StepKeepsInv | internal/joblet/ipc/writer.go:283-479 | every step of producers, writeLoop, reconnectLoop and shutdown keeps the accounting, the order and the shape of every connection |
| IpcWriter.NothingUncounted | internal/joblet/ipc/writer.go:283-343 | every message offered is in exactly one place: sent, in hand, queued, waiting to enqueue, dropped, failed or refused at shutdown |
| IpcWriter.SentLogsRefineReceived | internal/joblet/ipc/subscriber.go:62-122 | each log message written, on whatever connection, carries under its number i the i-th non-empty chunk received for its job, in the encoding it came with |
| IpcWriter.SentLogsInOrder | internal/joblet/ipc/writer.go:283-343 | over all connections a job's log messages are written in strictly increasing number order |
| IpcWriter.ReaderGetsWhatWasSent | internal/joblet/ipc/writer.go:373-400 | decoding the bytes of any connection gives exactly the messages sent on it, in order, and at most one truncated frame, for messages within the reader's limit |
| IpcWriter.TornIsFinal | internal/joblet/ipc/writer.go:331-337 | a connection on which a write failed is never written to again, whatever happens later |
| IpcWriter.ConnectNeverOverlapsSend | internal/joblet/ipc/writer.go:418-468 | connect never runs while a message is being sent, and the connection written to is the one open connection |
| IpcWriter.ConnectedWithoutConnection | internal/joblet/ipc/writer.go:335-337 | a run in which the late closeConnection closes a new connection, so that connected is set and there is none |
| IpcWriter.StrandedExactlyWhen | internal/joblet/ipc/writer.go:335-337 | in every reachable state, connected stops implying a connection with a step if and only if the step is a closeConnection that finds connected set again |
| IpcWriter.StrandedUntilCleared | internal/joblet/ipc/writer.go:335-337 | it implies one again with a step if and only if the step is writeLoop clearing connected after an error |
| IpcWriter.StrandedRuns | internal/joblet/ipc/writer.go:335-463 | over every run: connected is set without a connection if and only if there was such a late close and connected has not been cleared since |
| IpcWriter.StrandedCosts | internal/joblet/ipc/writer.go:331-337 | meanwhile nothing is written, the next message taken fails and is counted as an error, and no other is before the flag is cleared |
| IpcWriter.GivesUpAfterLimit | internal/joblet/ipc/writer.go:512-533 | reconnecting is given up only with a limit, after exactly that many dials in a row failed |
| IpcProgress.CountedFor | internal/joblet/ipc/writer.go:283-343 | each counter grows by exactly the messages it is there to count, and a message counts as sent with the step that writes its last byte |
| IpcProgress.QueueGetsOut | internal/joblet/ipc/writer.go:313-343 | with a connection up and no failure writeLoop's own steps can send everything that is queued, in order, dropping nothing |
| IpcProgress.CanReconnect | internal/joblet/ipc/writer.go:402-468 | without a connection and with attempts left, three steps of reconnectLoop can make one and start counting attempts anew |
| IpcProgress.RefusedOnlyAtShutdown | internal/joblet/ipc/writer.go:283-325 | a message is refused, and a loop ends other than by giving up, only once shutdown has begun |
| IpcProgress.LoopsStop | internal/joblet/ipc/writer.go:318-320 | once it has, both loops stop where they look for it |
| IpcProgress.QueueBounded | internal/joblet/ipc/writer.go:283-309 | the queue never holds more than its capacity |
| Firewall.BridgeNames | internal/joblet/network/setup.go:25-36 | bridge names are legal interface names joblet recognises as its own, only the default network has the default bridge, and short names never share one |
| Firewall.SharedExactlyWhen | internal/joblet/network/setup.go:25-36 | two networks share a bridge if and only if their tags, the short name or the eight digits of the hash, are the same; two long names if and only if their hashes are |
| Firewall.FnvVectors | internal/joblet/network/setup.go:33-35 | the hash gives the published 32-bit FNV-1a values for the empty text and for one letter |
| Firewall.VethsApart | internal/joblet/network/setup.go:162-255 | two jobs share the name of an isolated veth if and only if the last four digits of their process ids agree, and it is never taken for a bridge of joblet's |
| Firewall.JobAccepted | internal/joblet/network/setup.go:162-255 | after setting up an isolated job both rules of its veth are on the chain, inserted only if missing, on top of the chain as it was |
| Firewall.NetworkSetup.EnsureBridge | internal/joblet/network/setup.go:342-406 | the chain and the links become what the specification of creation says for each way its link and address commands may fail, and it reports whether set-up ran to its end or was not needed |
| Firewall.NetworkSetup.SetupNetworkIsolation | internal/joblet/network/setup.go:581-622 | the chain becomes the old one under a pair of DROP rules for each other joblet bridge, none for the default network |
| Firewall.NetworkSetup.CleanupNetworkIsolation | internal/joblet/network/setup.go:673-695 | the chain loses the first exact match of each such DROP rule |
| Firewall.NetworkSetup.RemoveBridge | internal/joblet/network/setup.go:707-738 | the chain and the links become what the specification of removal says, also when deleting the link fails after the rules are gone, which is what it reports |
| Firewall.NetworkSetup.SetupIsolatedNetwork | internal/joblet/network/setup.go:162-255 | the two ACCEPT rules of the job's veth are on the chain, inserted only if missing, and only if the veth was set up; they stay when configuring the namespace then fails |
| FirewallProofs.PacketVerdict | internal/joblet/network/setup.go:342-406 | after any run, which of joblet's rules a packet between two joblet bridges meets first, in terms of which bridge is younger and set up; otherwise the host's own chain decides. A bridge that outlived its removal counts as made then |
| FirewallProofs.ApartExactlyWhen | internal/joblet/network/setup.go:581-622 | two bridges are kept apart in both directions if and only if the younger one was set up to its end and is not the default one |
| FirewallProofs.CustomNetworksStayIsolated | internal/joblet/network/setup.go:581-622 | after any run whose commands succeed the first matching rule between live bridges of two custom networks is DROP, both ways |
| FirewallProofs.RulesNameLiveBridges | internal/joblet/network/setup.go:673-738 | in every reachable state a rule that names a joblet bridge names one that exists |
| FirewallProofs.RemoveUndoes | internal/joblet/network/setup.go:707-738 | in every reachable state removing a bridge leaves exactly the chain filtered of the rules naming it |
| FirewallProofs.DefaultBridgeIsNotApart | internal/joblet/network/setup.go:581-589 | on any host joblet has not touched, a network's bridge followed by the default one: packets between them are accepted both ways |
| FirewallProofs.CreateThenRemove | internal/joblet/network/setup.go:342-406 | creating a bridge, even if that fails half way, and removing it gives back the same chain as a sequence and the same bridges |
| BridgeRaces.StepKeepsInv | internal/joblet/network/setup.go:342-406 | every command of any number of overlapping creations keeps the invariant on rules, counts and loops |
| BridgeRaces.ApartOnceReturned | internal/joblet/network/setup.go:581-622 | over every interleaving, once the creations of two custom networks have run to their ends the first rule that matches a packet between their bridges is DROP, both ways, whatever else is still running |
| BridgeRaces.RemovalLeavesExactly | internal/joblet/network/setup.go:673-738 | after every creation has returned, removal leaves of the rules naming its bridge exactly one pair for each bridge such that the two creations listed each other, and nothing else |
| BridgeRaces.OverlapLeavesRules | internal/joblet/network/setup.go:673-695 | for any two custom networks with different bridges there is a run after which removal leaves such a rule |
| BridgeRaces.ApartUntilAccepted | internal/joblet/network/setup.go:379-402 | two bridges between which DROP comes first both ways stay so with a command if and only if it does not insert an ACCEPT rule of either |
| BridgeRaces.DefaultMayOpen | internal/joblet/network/setup.go:379-402 | for any custom network there is a run in which its creation listed the older default bridge and put its DROP rules in, and the default one's late ACCEPT rule comes first all the same |
| BridgeRaces.CreationAlone | internal/joblet/network/setup.go:342-406 | from every reachable state a creation nothing overlaps does to chain and links what the specification of creation says |
| BridgeRaces.FailuresReturn | internal/joblet/network/setup.go:345-366 | a creation that finds its bridge returns at once, and one whose command fails returns with things left as they are |
| Cidr.NextIsPlusOne | internal/joblet/adapters/network_store_adapter.go:637-647 | for an address of any number of bytes the byte carry is +1 modulo the number of addresses |
| Cidr.NextIP | internal/joblet/adapters/network_store_adapter.go:637-647 | the loop over a copy computes that successor and leaves its argument alone |
| Octets.ByteInterval | internal/joblet/adapters/network_store_adapter.go:651-657 | under a mask of r ones the bytes that agree with a base are an interval of numbers from it, and setting the host bits gives its last |
| Cidr.ContainsIsInterval | internal/joblet/adapters/network_store_adapter.go:619 | containment by masks is membership of the interval of 2^(32-p) numbers from the network address, which does not wrap |
| Cidr.BroadcastIsLast | internal/joblet/adapters/network_store_adapter.go:651-657 | the broadcast address is the last number of that interval |
| Cidr.GetBroadcastAddress | internal/joblet/adapters/network_store_adapter.go:651-657 | the loop sets exactly the bits outside the mask |
| IpPools.DottedReads | internal/joblet/adapters/network_store_adapter.go:622 | what is written for an address is the one text that, split at its dots, is four numerals without leading zeros that read as its bytes, the most significant first |
| IpPools.DottedInjective | internal/joblet/adapters/network_store_adapter.go:622 | different addresses are different pool entries |
| IpPools.HostsRead | internal/joblet/adapters/network_store_adapter.go:617-625 | read back, text number i of a new pool is address number i + 1 of the block, below its broadcast address |
| Decimal.ItoaOfNumber | pkg/semver/semver.go:65-67 | a numeral read and written again is the same text if and only if it has no leading zeros |
| IpPools.WalkInside | internal/joblet/adapters/network_store_adapter.go:618-625 | for p from 1 to 32 the walk is inside the block exactly for its 2^(32-p) steps, also where the block ends at 255.255.255.255 |
| IpPools.Enumerate | internal/joblet/adapters/network_store_adapter.go:617-625 | the loop ends and yields the hosts of the block in order |
| IpPools.HostsExact | internal/joblet/adapters/network_store_adapter.go:604-625 | those are exactly the addresses strictly between network and broadcast, 2^(32-p)-2 of them for p up to 30 and none for 31 and 32 |
| IpPools.HostsAscend | internal/joblet/adapters/network_store_adapter.go:617-625 | they come strictly ascending, without duplicates |
| IpPools.EverythingInside | internal/joblet/adapters/network_store_adapter.go:619 | a block of prefix length 0 contains every address, so the loop does not end for it |
| IpPools.PoolPartitions | internal/joblet/adapters/network_store_adapter.go:470-524 | over a pool's life available and allocated addresses are duplicate-free, disjoint and together the host set; allocation fails exactly when all hosts are allocated |
| IpPools.NotHandedOutTwice | internal/joblet/adapters/network_store_adapter.go:477-521 | an allocated address is not handed out again before it is released |
| IpPools.ReusedExactlyInTurn | internal/joblet/adapters/network_store_adapter.go:470-524 | an address released while k are available is returned by exactly the (k+1)-th later allocation that succeeds |
| IpPools.NetworkStoreAdapter.AllocateIP | internal/joblet/adapters/network_store_adapter.go:450-483 | the error for each refusal, in their order, else the first available address; only that network's pool changes, and as specified |
| IpPools.NetworkStoreAdapter.ReleaseIP | internal/joblet/adapters/network_store_adapter.go:488-525 | the error for each refusal, in their order, else the address goes to the end of the pool; no other pool changes |
| IpPools.NetworkStoreAdapter.InitializeIPPool | internal/joblet/adapters/network_store_adapter.go:605-633 | the network gets a new pool of exactly the block's hosts, nothing allocated, and other networks keep theirs |
| Leases.NoAddressHeldTwice | internal/joblet/adapters/network_store_adapter.go:278-324 | over every interleaving of attaches and detaches in which each detach reads an assignment no other detach has read, no address is held by two jobs, and a held one is allocated in the pool |
| Leases.SeparateRunsAreOwn | internal/joblet/core/cleanup/coordinator.go:99-159 | runs in which no two detaches of one job overlap, which is what the table of active cleanups sees to among the callers of CleanupJob, are such runs |
| Leases.OwnIsExact | internal/joblet/adapters/network_store_adapter.go:380-395 | the condition is exact: from any state it has kept, one more detach can lead to two jobs holding one address, without a further detach, if and only if the assignment it reads is not its own |
| Leases.NoAddressShared | internal/joblet/adapters/network_store_adapter.go:368-408 | over every interleaving in which no two detaches of one job overlap, two jobs' records name one address only while one of the jobs is being detached and has released it |
| Leases.AllocatedIsFresh | internal/joblet/core/execution/network_service.go:77-99 | likewise an address just allocated is in no job's record but that of a job whose detach has released it |
| Leases.HeldIsAllocated | internal/joblet/adapters/network_store_adapter.go:278-324 | likewise the address of a job that is not being detached is allocated in the pool |
| Leases.OverlappingDetachesShare | internal/joblet/core/execution/coordinator.go:154-195 | a run with two overlapping detaches of one job, which the table of active cleanups rules out for CleanupJob but not for the CleanupNetworking calls of the execution coordinator, after which two other jobs' records name one address for good |
| Leases.NothingLeaks | internal/joblet/adapters/network_store_adapter.go:278-395 | if moreover jobs are attached only while they have no record and are not being detached, then whenever nobody is at work the allocated addresses are exactly those the records name, one job's each |
| Leases.AttachingAgainLeaks | internal/joblet/adapters/network_store_adapter.go:278-324 | that condition is needed: attaching a job over its own record leaves the old address allocated with no record naming it |
| GpuSelection.StrictWeakOrder | internal/joblet/gpu/allocation_strategy.go:68-168 | each strategy's comparator is a strict weak order, also over GPUs that are too small |
| GpuSelection.FitPrefers | internal/joblet/gpu/allocation_strategy.go:144-168 | with memory asked for, best fit puts the smaller of two GPUs that are large enough first, then the larger of two that are not |
| GpuSelection.SelectGPUs | internal/joblet/gpu/allocation_strategy.go:39-171 | every strategy fails exactly when fewer GPUs are available than asked for |
| GpuSelection.OutcomeIsLegal | internal/joblet/gpu/allocation_strategy.go:39-171 | otherwise it chooses that many different GPUs from those available |
| GpuSelection.BestFitIsOptimal | internal/joblet/gpu/allocation_strategy.go:133-171 | no other choice of that many of the eligible GPUs wastes less memory in total, whatever the sort does with ties |
| GpuSelection.SpreadLeavesGaps | internal/joblet/gpu/allocation_strategy.go:84-123 | with at least twice as many available, a GPU with an index in between is left out between any two chosen |
| GpuSelection.PackIsFirstFit | internal/joblet/gpu/manager.go:174-177 | on the list AllocateGPUs passes, which is sorted by index, packing chooses exactly what first-fit does |
| GpuOwnership.OwnershipAgrees | internal/joblet/gpu/manager.go:138-270 | in every reachable state a GPU is in use exactly when it occurs in an allocation, that one is its job's, the only one, and holds it once; a quarantined GPU is never in use |
| GpuOwnership.StrictScrubHistory | internal/joblet/gpu/manager.go:317-377 | under the strict policy a GPU granted after an earlier release had in between a probe of at most 64 MB or an operator's clearing |
| GpuOwnership.FitExactlyWhen | internal/joblet/gpu/manager.go:317-377 | what every GPU has been through before it is handed on, in every run: a clean probe or a clearing if and only if the policy is "strict", a reset if and only if it is not "off" |
| GpuOwnership.HandedOn | internal/joblet/gpu/manager.go:318-335 | under any other policy there is a run that hands a GPU, of any index and size, from one job to the next without a probe, and under "off" without a reset |
| GpuManagers.Manager.Initialize | internal/joblet/gpu/manager.go:63-99 | the GPUs discovered are in the map under their indices, the last for each index, all free, nothing allocated; a disabled manager has none |
| GpuManagers.Manager.AllocateGPUs | internal/joblet/gpu/manager.go:138-222 | errors first; a job's existing allocation is returned as it is; a new request succeeds exactly when enough GPUs are free, unquarantined and large enough and then owns that many of them, those the configured strategy selects; no other flag, owner or record changes |
| GpuManagers.BestFitGrant | internal/joblet/gpu/manager.go:160-183 | configured "best-fit", what is granted wastes no more memory than any other choice of that many suited GPUs |
| GpuManagers.SpreadGrant | internal/joblet/gpu/allocation_strategy.go:84-123 | configured "spread", GPU number i granted is the one i strides down the suited GPUs by falling index, or without room for strides the i-th |
| GpuManagers.LowestGrant | internal/joblet/gpu/allocation_strategy.go:178-190 | configured anything else, the suited GPUs with the lowest indices are granted, in that order |
| GpuManagers.Manager.ReleaseGPUs | internal/joblet/gpu/manager.go:225-270 | exactly the job's GPUs become free and its record goes; with the field scrubPolicy "strict" those of them whose reading is missing or above 64 MB are quarantined, with any other value, the empty one included, no quarantine changes and nothing is probed |
| GpuManagers.Manager.ScrubOnRelease | internal/joblet/gpu/manager.go:317-350 | the same of the scrub alone, and what it adds to the history |
| GpuManagers.Manager.StrictHistory | internal/joblet/gpu/manager.go:317-377 | in the history of every manager configured "strict", between a release of a GPU and its next grant lie a probe of at most 64 MB or an operator's clearing |
| GpuManagers.Manager.ResetHistory | internal/joblet/gpu/manager.go:317-330 | in that of every manager not configured "off", a reset |
| GpuManagers.Manager.ClearQuarantine | internal/joblet/gpu/manager.go:366-377 | exactly that GPU's quarantine flag is cleared; an unknown index is reported |
| Semver.RoundTrip | pkg/semver/semver.go:18-67 | reading what String writes, with or without a leading v, gives the version back, for all non-negative 64-bit components |
| Semver.AcceptedExactlyWhen | pkg/semver/semver.go:18-51 | a text is accepted if and only if, after a leading v, it is three dot-separated components that Atoi reads as non-negative 64-bit numbers |
| Semver.ReadAs | pkg/semver/semver.go:22-49 | three components read as their values, or are refused for the first that is no number, else for a negative one |
| Semver.AtoiReads | pkg/semver/semver.go:27-44 | Atoi reads digits after at most one sign as their value, signed, exactly within 64 bits |
| Semver.TrimsOnce | pkg/semver/semver.go:20 | one leading v goes and nothing else |
| Semver.StringParts | pkg/semver/semver.go:65-67 | what is written splits into exactly the three numerals |
| Semver.AcceptsMoreThanTheStandard | pkg/semver/semver.go:27-44 | an accepted text with signs and a leading zero |
| Semver.StrictTotalOrder | pkg/semver/semver.go:54-77 | GreaterThan is a strict total order, LessThan its converse and Equal equality |
| Semver.Precedence | pkg/semver/semver.go:54-62 | a larger major version wins, on a tie a larger minor, on a tie of both a larger patch, whatever the rest |
| Decimal.JoinSplit | pkg/semver/semver.go:22 | splitting at dots loses nothing and leaves no dots |
| Resolver.FindLatestVersion | internal/joblet/runtime/resolver.go:688-724 | for any candidates: the path of the first candidate of the highest version that parses, or, if none parses or that path is empty, the first path that is not empty among the unparseable candidates (after the latest one), or empty |
| Resolver.LatestByComponents | internal/joblet/runtime/resolver.go:717-720 | the latest candidate is the one than which no candidate that parses has a larger major, on a tie minor, on a tie of both patch, and each before it a smaller |
| Resolver.LatestPathOfNonEmpty | internal/joblet/runtime/resolver.go:688-724 | for paths as the caller builds them: the path of the first of the highest versions, or of the first candidate if none parses |
| Resolver.FallbackIsFirst | internal/joblet/runtime/resolver.go:706-714 | the fallback is the first path that is not empty among the candidates that do not parse, and empty exactly if there is none |
| Resolver.ScanVersions | internal/joblet/runtime/resolver.go:261-293 | the versions of the runtime in directory order, or the first with the version asked for |
| Resolver.FirstPass | internal/joblet/runtime/resolver.go:241-313 | nothing is found exactly when no entry answers; otherwise the first that does decides, with its latest version or the exact one asked for |
| Resolver.AnswersExactlyWhen | internal/joblet/runtime/resolver.go:241-313 | an entry answers if and only if it is a readable directory and it, or a directory below it, has a runtime.yml with the name asked for and, unless the latest is wanted, the version |
| Resolver.AnswerIs | internal/joblet/runtime/resolver.go:255-313 | the answer is the path of such a directory below the entry, and for the latest one than which none asked for has a higher version; the entry itself only if there is none |

## Left out

- The gRPC services, protobuf mapping, TLS, configuration, logging, metrics collectors, the platform layer, image building and eBPF: plumbing around the modelled cores.
- Role permissions, volume counters, upload chunk sizing and supervisor back-off: they would only add easy members.
- The clock going backwards: `Tick` only moves time forward, in `Dispatch` and in `LogDelivery`.
- `ExecuteScheduledJob` called from outside the scheduler (internal/joblet/core/joblet.go:351) and a second `Initialize` of the GPU manager: assumed not to happen.
- STOPPED being a final status, and log streams ending for every completed status: the code does not support either (internal/joblet/core/joblet.go:663, internal/joblet/adapters/job_store_adapter.go:1060).
- What a send on a channel closed by a concurrent unsubscribe does to the process: `PubSub` shows when it can happen, and in `LogDelivery` such an offer just ends.
- How full a subscriber's channel is in `PubSub`, and a producer's wait in `IpcWriter`: there a send or a wait may time out at any time, which covers every run of the code; `LogDelivery` has the channel's size and the clock. Statistics of topics and subscribers.
- Several writers for one job, and copying of a chunk between its writer and the event that carries it.
- The contents of protobuf messages: a message carries its encoding, any non-empty byte string. A read deadline of the persist service that expires inside a frame is not part of the reader.
- Close of the IPC writer while producers are still inside `write`, and the wrap-around of 64-bit sequence numbers.
- Removals that overlap creations or each other: `Firewall` runs whole operations one after another, `BridgeRaces` overlaps creations only. Two long network names whose hashes collide share a bridge; the isolation theorems ask for different bridges.
- NAT rules: their removal looks the block up again, so undo depends on outside state. iptables commands, and the listing of bridges, are taken to succeed; failures of the other commands are modelled.
- Interface names ending in `+`, which iptables treats as a pattern: network names are validated to letters, digits, `_` and `-` before they get here.
- IPv6 blocks and IPv4-mapped notation, and the gateway address, which the pool does not exclude.
- A pool replaced by re-creating its network, and `RemoveNetwork`, which checks for jobs and then forwards: the theorems are about one pool's life. `Leases` leaves out the argument checks of `AssignJobToNetwork` and `RemoveJobFromNetwork`.
- MIG identifiers, allocation timestamps and quarantine reasons of GPUs. The shared pointer to an allocation record is a value here.
- The second pass of `FindRuntimeDirectory`, `runtimeMatches`, `parseRuntimeSpec` and architecture names.
- Job.DeepCopy: it omits some fields; nothing here depends on it.
- IpPools.Enumerate: for IPv4 blocks of prefix length 1 to 32 only; for length 0 the code's loop does not end (`IpPools.EverythingInside`), and IPv6 blocks are not modelled.
- IpPools.NetworkStoreAdapter.InitializeIPPool: for IPv4 blocks of prefix length 1 to 32 only; for length 0 the code's loop does not end (`IpPools.EverythingInside`).
- GpuSelection.SelectEvery: the source's second loop, which would fill remaining places, is not written out, because there are never any.
- IpcWriter.ReaderGetsWhatWasSent: asks that messages be within the reader's limit; `Framing.FrameRoundTripExactlyWhen` shows that this is needed.
- GpuManagers.Manager.AllocateGPUs: takes the order in which Go ranges over the map of GPUs as an argument, which may be any.
