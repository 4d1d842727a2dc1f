# kube-cost: a verified model of its delivery, inventory and cost core

kube-cost runs an agent in every Kubernetes cluster. The agent turns inventory changes into
numbered observations and streams them to an ingestion service, which validates, queues and
stores them. Other services split the cost of nodes, control planes and network over
namespaces, recommend smaller resource requests and answer analytics queries. This project
models the parts of that system whose correctness is not visible in any single function, and
proves what they promise for every input, every run and every interleaving.

**Delivery.** `Wire`, `AgentBuffer`, `AgentClient`, `BatchRules`, `BatchQueue`, `Checkpoints`,
`IngestionServer`, `Persistence` and `PersistenceWorker` model the agent's buffer and client, the
server's validation and batch handler, the checkpoint files, the leased queue, the row mapping and
the worker. What the source updates in place is a class whose methods are proved against functions
on plain values. `Delivery` puts the same functions together as one state machine: its events are
publishing, connecting, disconnecting, sending, receiving, handling a batch (refused, duplicate,
gap, archive failure, queue full or queued), a checkpoint save that fails or succeeds, the end of a
stream while its batch is still queued, the worker's lease, inserts that succeed or fail after
writing any part of their rows, the commit, a server restart, and what other tenants and clusters
on the same server do: they share the queue, and those whose names meet the followed cluster's in a
checkpoint file or under an in-memory key move its marks as the server lets them, each sender with
its own mark. An event that is impossible in a state
leaves it as it is, so a run is any list of events. `DeliveryProof` holds the invariant;
`DeliveryTheorems` and `DeliveryMarks` prove that nothing is lost, that the watermark is gap-free and
monotone (each with its exact condition) and that resends collapse to exactly the rows of one clean
write; `DeliveryRows` follows every stored row back to the published event, field by field;
`DeliveryRejections` proves what a rejection costs and when there is none; `DeliveryCycle` and
`DeliveryRecovery` prove that from every state such a run can reach, crashes and lost frames included,
delivery can be completed. `BatchQueueOrder` proves which settlements keep the queue in order.

**Inventory.** `Collector` models the delta collector, its fingerprint cache and its per-pod
container tracking; `CollectorLog`, `CollectorRetry` (on top of `CollectorProgress` and
`CollectorReadings`), `CollectorOrder`, `CollectorContents` and `CollectorTombstones` prove that the
cache agrees with the published log, that suppressing unchanged objects is invisible, when retries among
unrelated changes equal one pass, when a newer change survives a late retry, what a consumer of the log
then reads about the changed object, and that container tombstones are exact.

**Cost.** `Allocation` and `AllocationRows` are the three-loop engine and its sorted result,
`AllocationTheorems` its exact conservation laws, `AllocationFigures` what a single request is charged,
in its own fields, `AllocationSql` and `AllocationQuery` the query
that production runs, read as a relational expression, and `AllocationExact` when it agrees with the
engine. `Sums` holds sums over rows and over groups of rows, `Basics` and `Wrappers` what several
modules share.

**Smaller pieces.** `ImportOrder` (the generator's depth-first file order), `Rightsizing` and
`RightsizingHeadroom` (percentiles and recommendations), `Pagination` (cursors) and `QueryJobs` (the
evicting job store).

Hashes, UUIDs, checksums, protobuf sizes, fingerprints and cursor tokens are function-valued
parameters; the theorems hold for all of them, and those that need a fingerprint or a token
not to collide say so (`Faithful`, `Lossless`).

Several expected properties hold only under a condition. Each has a failing input and the exact
condition, for all inputs; what is only sufficient is called so:

- all runs are free of loss, and all marks gap-free, exactly when the server has no checkpoint file
  for the cluster yet and no other sender shares the cluster's checkpoint file or NUL-joined key
  (`NoLossExactly`, `WatermarkIsGapFree`; failing runs in `StaleCheckpointLoses` and
  `SharedMarkLoses`; senders that meet in `FilesMeet` and `KeysMeet`);
- with checkpoint files the marks never move back exactly when every other sender shares both the
  cluster's file and its key, or neither (`WatermarkIsMonotone`; a shared key falls at a restart in
  `SharedKeyFalls`, a shared file at the cluster's own save in `SharedFileFalls`; senders that share
  both in `BothMeet`);
- a name becomes a path element unchanged exactly when it is clean (`CleanExactly`), two senders
  share a file exactly when their escaped names lead the same way from the root directory, dot names
  included (`PathsSharedExactly`), and a key exactly when a NUL occurs in a name
  (`KeySharedExactly`);
- a batch is accepted exactly when it is sound and within the limits (`ValidateExactly`); one that is
  not is rejected as a whole, good neighbours included, and stops the watermark for ever
  (`RefusalStopsTheStream`, `BadNeighbourStopsTheStream`). That all observations are complete and all
  batches the agent can build fit is a sufficient condition on a whole run
  (`HarmlessRunsStoreEverything`), and for its completion (`DeliveryCompletes`);
- a newer change survives a late retry exactly when the two say the same about the keys they share
  (`NewerSurvivesExactly`; failing run in `LateRetryRevertsTheInventory`). The input needs a
  publisher whose failure can pass, which the `Publisher` interface allows. The agent's own buffer
  fails in passing only when the wait for room is cut short; what it refuses otherwise can never be
  published (`RefusedForGoodExactly`);
- retries publish what one pass publishes exactly when every event that a failed attempt published
  has the content that the successful one gives its key (`RetriesEqualOnePass`); one namespace UID in
  all attempts is enough (`SameNamespaceSuffices`), and if the lister learns it in between, events can
  be published twice (`LateNamespacePublishesTwice`). The cache and the tracking always agree;
- a pod delete cleans up exactly the containers its object lists (`DeleteLeavesUnlistedContainers`);
  after failed attempts a successful upsert makes cached and tracked containers agree exactly when
  nothing was cached but tracked containers and its own (`UpsertRestoresExactly`; failing run in
  `OvertakenChangeLeavesContainer`), for which it is sufficient that failed changes are retried before
  their pod changes again (`OrderlyRunsStayExact`);
- with any number of workers the queue stays in order exactly when commits settle the oldest open
  lease and retries the newest (`OrderKeptExactly`; failing run in `TwoWorkersReorder`). The service
  starts one worker, which always does (`OneWorkerKeepsOrder`);
- the query's figures are the engine's exactly when the inventory knows every node that is named and,
  unless the control plane is free, no cluster-hour mixes rows with a node and rows without one
  (`FiguresAgreeExactly`; failing inputs in `UnknownNodeIsLost` and `MixedHourHalvesControl`), and its
  system cost equals the engine's exactly when a namespace's UID is no system name or its name is one
  too (`SystemCostAgreesExactlyWhen`; failing input in `SystemCostDisagrees`);
- every emitted recommendation covers its percentiles exactly when neither headroom is given as a
  number between zero and one (`HeadroomSufficesExactly`; zero and less mean the default; failing
  samples in `SmallCpuHeadroomFails` and `SmallMemoryHeadroomFails`);
- the job store stays coherent exactly when no id is used again while its older entry is listed
  (`CoherentExactly`; failing run in `RepeatedIdLosesTheJob`). Ids are 128 random bits, or the clock
  reading where randomness fails, and the theorems about whole runs take them to be fresh.

## Model

| member | source | states |
|---|---|---|
| `DeliveryTheorems.NothingIsLost` | services/ingestion/server/server.go:142-246 | in every run of a cluster that shares no mark with another sender, an inventory observation leaves the agent's buffer only once its row is stored or its sequence was rejected for good |
| `DeliveryTheorems.NoLossExactly` | agent/transport/client.go:64-157 | all runs are free of loss if and only if the server has no checkpoint file for the cluster and no other sender shares its file or key |
| `DeliveryTheorems.SharedMarkLoses` | services/ingestion/server/server.go:107-109 | one observation stored for a sender with the same file or key makes a fresh agent drop its first observation |
| `DeliveryTheorems.FilesMeet` | services/ingestion/server/checkpoint.go:88-90 | a tenant with a slash meets the one with an underscore in one file |
| `DeliveryTheorems.KeysMeet` | services/ingestion/server/server.go:107-109 | names that differ in where a NUL stands meet under one key |
| `DeliveryTheorems.StaleCheckpointLoses` | agent/transport/buffer.go:29-35 | against any positive checkpoint file a fresh buffer loses its first observation at the hello |
| `DeliveryTheorems.WatermarkIsGapFree` | services/ingestion/server/server.go:142-246 | watermark, checkpoint and every number on its way to the agent lie within the gap-free committed prefix in all runs, if and only if no other sender shares the marks and they start at zero |
| `DeliveryMarks.WatermarkIsMonotone` | services/ingestion/server/server.go:226-271 | with file checkpoints neither checkpoint nor watermark ever moves back, restarts included, if and only if every other sender shares both file and key or neither |
| `DeliveryMarks.SharedKeyFalls` | services/ingestion/server/server.go:248-271 | a number raised under a shared key is forgotten when the server restarts |
| `DeliveryMarks.SharedFileFalls` | services/ingestion/server/server.go:226-246 | after another sender has saved more in the shared file, the cluster's own next save takes it back |
| `DeliveryMarks.BothMeet` | services/ingestion/server/server.go:107-109 | two senders that differ in where a NUL and a space stand share both file and key |
| `DeliveryTheorems.ResendsCollapse` | services/ingestion/persistence/worker.go:37-64 | up to any acknowledged number the stored (table, event id, version) keys are exactly those of one failure-free write of those observations |
| `DeliveryTheorems.SameSequenceSameObservation` | services/ingestion/persistence/repository.go:67-102 | two stored rows of one tenant, cluster and sequence come from the same observation and differ at most in the time of receipt |
| `DeliveryRows.StoredRowRecordsItsObservation` | services/ingestion/persistence/repository.go:67-283 | every stored row of the cluster comes from the observation published under its version: its table is the one of the payload's kind (all six), its identity the payload's UID, a container's pod UID and name or nothing for a cluster, its operation and event id the observation's, its time the observed one or, without one, the time at which the server received a batch in the run |
| `DeliveryRows.PublishedFromEvents` | agent/transport/buffer.go:37-65 | in every run the published observations are the accepted events in order, each with its own payload, time and event id and with its place as sequence |
| `DeliveryRecovery.DeliveryCompletes` | agent/transport/client.go:64-210 | from every state that a run with file checkpoints, unshared marks and harmless events can reach, wherever it stopped, some continuation stores every published inventory observation, saves the last number and empties the buffer |
| `DeliveryRecovery.RunRetains` | agent/transport/buffer.go:99-120 | with file checkpoints and unshared marks, every published observation above the saved number is still in the buffer or was rejected, and no number on its way to the agent exceeds the saved one |
| `DeliveryRecovery.StartsOver` | services/ingestion/server/server.go:248-271 | from such a state a disconnect, a server restart and a new stream lead to an idle server at the saved number and an agent whose buffer is exactly what was published above it |
| `DeliveryCycle.RoundDelivers` | agent/transport/client.go:135-210 | from every idle state whose next batch passes validation there is an undisturbed round that moves checkpoint, watermark and buffer past that batch and ends idle |
| `DeliveryTheorems.WorkerNeverPoisoned` | services/ingestion/persistence/worker.go:37-64 | in every run the worker never stops over invalid inventory |
| `DeliveryTheorems.ReachableBatchesMeetSequenceRules` | agent/transport/client.go:140-157 | from every reachable buffer the batch sent can be refused only for its size or its inventory content |
| `DeliveryTheorems.AnswerSettlesExactly` | agent/transport/client.go:171-210 | while the agent waits for a batch, an acknowledgement of it or of no batch ends the wait and removes exactly the entries it reports as persisted or rejects for good; every other frame changes nothing |
| `DeliveryRejections.RejectionStopsTheWatermark` | services/ingestion/server/server.go:165-178 | once an uncommitted sequence is gone from agent, stream and queue, watermark, checkpoint and acknowledgements stay below it in every continuation |
| `DeliveryRejections.RefusalIsTerminal` | services/ingestion/server/server.go:149-158 | when validation of the batch in flight fails and the rejection is received, every sequence of it without a copy elsewhere is gone |
| `DeliveryRejections.RefusalStopsTheStream` | services/ingestion/server/server.go:149-178 | so from then on no mark reaches its sequences |
| `DeliveryRejections.BadNeighbourStopsTheStream` | services/ingestion/server/server.go:474-493 | a good observation in a batch with a bad one is rejected, neither stored nor buffered, and nothing is ever acknowledged again |
| `DeliveryRejections.RejectionNeedsCause` | services/ingestion/server/server.go:310-401 | if all published payloads have an operation and their UIDs and all batches the agent can build fit the limits, nothing is rejected in the run |
| `DeliveryRejections.HarmlessRunsStoreEverything` | services/ingestion/server/server.go:142-246 | in such runs every inventory observation that left the buffer is stored |
| `DeliveryProof.StepKeeps` | services/ingestion/server/server.go:142-246 | every event preserves the protocol invariant over buffer, stream, watermark, checkpoint, queue, lease and store |
| `DeliveryProof.RunKeeps` | services/ingestion/server/server.go:142-246 | so does every list of events |
| `DeliveryProof.PublishKeeps` | agent/transport/buffer.go:37-65 | numbering a new observation preserves the invariant |
| `DeliveryProof.SendKeeps` | agent/transport/client.go:135-157 | sending the front run preserves the invariant |
| `DeliveryProof.ReceiveKeeps` | agent/transport/client.go:171-210 | acting on a hello or acknowledgement preserves the invariant |
| `DeliveryProof.HandleKeeps` | services/ingestion/server/server.go:142-225 | every way of answering or queueing a batch preserves the invariant |
| `DeliveryProof.SaveFailsKeeps` | services/ingestion/server/server.go:231-237 | a failed checkpoint asks for the batch again and preserves the invariant |
| `DeliveryProof.AdvanceKeeps` | services/ingestion/server/server.go:238-245 | moving the watermark after the save preserves the invariant |
| `DeliveryProof.RestartKeeps` | services/ingestion/server/server.go:248-271 | a restart that forgets everything but checkpoint and store preserves the invariant |
| `DeliveryProof.ForeignConnectKeeps` | services/ingestion/server/server.go:248-271 | a stream of another sender that loads a shared file or key preserves the invariant |
| `DeliveryProof.ForeignSaveKeeps` | services/ingestion/server/checkpoint.go:62-90 | what another sender saves in a shared file or under a shared key preserves the invariant |
| `DeliveryProof.AcquireKeeps` | services/ingestion/persistence/worker.go:37-64 | leasing and mapping batches preserves the invariant, and mapping never fails |
| `DeliveryProof.InsertFailsKeeps` | services/ingestion/persistence/worker.go:37-64 | an insert that fails after writing any of its rows, and the retry of its lease, preserve the invariant |
| `DeliveryProof.CommitKeeps` | services/ingestion/persistence/worker.go:37-64 | committing a lease whose inserts are done preserves the invariant |
| `AgentBuffer.FrontIsLongestRun` | agent/transport/buffer.go:67-97 | the batch is the longest contiguous run at the front up to the maximum, gaps from rejections included |
| `AgentBuffer.KeptExactly` | agent/transport/buffer.go:99-120 | an acknowledgement keeps exactly the entries above the number that are not terminal |
| `AgentBuffer.KeptIncreasing` | agent/transport/buffer.go:99-120 | what is kept stays in increasing order |
| `AgentBuffer.PublishKeepsConsistent` | agent/transport/buffer.go:37-65 | publishing appends one observation under the next number to the history and keeps the buffer consistent with it |
| `AgentBuffer.AcknowledgeKeepsConsistent` | agent/transport/buffer.go:99-120 | acknowledging keeps the buffer an ordered part of the history within capacity |
| `AgentBuffer.RefusalIsFinal` | agent/transport/buffer.go:37-65 | an invalid event stays invalid and a closed buffer closed after every later use |
| `AgentBuffer.RefusedForGoodExactly` | agent/transport/buffer.go:37-65 | an event can never be published any more if and only if it is invalid, the buffer is closed or has no room at all; after a wait that was cut short it can |
| `AgentBuffer.Buffer.Publish` | agent/transport/buffer.go:37-65 | invalid, closed, would block or published, with the whole new state; a published entry has the event's payload, time and id under the next number |
| `AgentBuffer.Buffer.Batch` | agent/transport/buffer.go:67-97 | the loop returns the longest contiguous front run |
| `AgentBuffer.Buffer.Acknowledge` | agent/transport/buffer.go:99-120 | exactly the unacknowledged, non-terminal entries remain and the persisted number only grows |
| `AgentBuffer.Buffer.Compact` | agent/transport/buffer.go:104-115 | the in-place filter computes the kept entries |
| `AgentClient.BatchIdsNameTheirRange` | agent/transport/client.go:140-147 | batches of a cluster share an id if and only if they cover the same range |
| `AgentClient.Terminal` | agent/transport/client.go:197-207 | the loop collects exactly the non-retryable sequences |
| `BatchRules.ValidateExactly` | services/ingestion/server/server.go:310-348 | validation accepts exactly the sound batches within the limits; what it asks of a payload is written in the payload's fields |
| `BatchRules.InventoryExactly` | services/ingestion/server/server.go:350-401 | inventory is in order if and only if it is absent or of another kind, or has an operation (upsert or delete) and its UID, for a container its pod UID and name |
| `BatchRules.ClientBatchesMeetSequenceRules` | agent/transport/client.go:140-169 | a batch built from a contiguous run breaks no range, count, sequence, event id, payload or checksum rule, and passes exactly when its size and inventory do |
| `BatchRules.SuffixIsSound` | services/ingestion/server/server.go:415-425 | cutting a sound batch leaves a sound batch over exactly persisted+1..last with the same observations |
| `BatchRules.AdmissionIsGapFree` | services/ingestion/server/server.go:142-178 | refused, duplicate, gap and admitted each mean what they say: an admitted batch starts right after the watermark, a gap names exactly the missing sequences |
| `BatchRules.RejectionsFor` | services/ingestion/server/server.go:474-493 | rejects exactly the sequences of the batch, or its first when it is empty |
| `BatchQueue.RunsConserve` | services/ingestion/queue/queue.go:49-112 | with any number of workers enqueued equals committed plus leased plus waiting as multisets, in-flight counts the leased, and the bound holds |
| `BatchQueue.OneWorkerKeepsOrder` | services/ingestion/queue/queue.go:49-112 | with one worker committed, leased and waiting batches are the enqueued sequence in order |
| `BatchQueueOrder.OrderKeptExactly` | services/ingestion/queue/queue.go:63-112 | with any number of workers and distinct batches the order is kept throughout a run if and only if every commit settles the oldest open lease and every retry the newest |
| `BatchQueueOrder.StepKeepsOrderExactly` | services/ingestion/queue/queue.go:49-112 | the same for one step from any ordered state |
| `BatchQueue.TwoWorkersReorder` | services/ingestion/queue/queue.go:63-102 | with two open leases the second batch can commit first |
| `BatchQueue.CommittedAtMostOnce` | services/ingestion/queue/queue.go:92-112 | a batch is committed at most once, and one still waiting or leased has not been |
| `BatchQueue.SettleCuts` | services/ingestion/queue/queue.go:92-112 | settling a lease removes its batches from the outstanding ones and nothing else |
| `BatchQueue.TakenExactly` | services/ingestion/queue/queue.go:49-61 | in every run waiting and leased batches stay within the capacity (at least one), and a batch is taken exactly when they leave room |
| `BatchQueue.LeaseCount` | services/ingestion/queue/queue.go:63-73 | a lease holds as many batches as were asked for, at least one, or all there are |
| `BatchQueue.Queue.TryEnqueue` | services/ingestion/queue/queue.go:49-61 | appends when waiting plus in-flight leave room, otherwise changes nothing |
| `BatchQueue.Queue.Acquire` | services/ingestion/queue/queue.go:63-86 | a fresh lease over the front of the queue, moved to in-flight |
| `BatchQueue.Lease.Commit` | services/ingestion/queue/queue.go:92-102 | the first settlement closes every notification once and frees the capacity; a later one does nothing |
| `BatchQueue.Lease.Retry` | services/ingestion/queue/queue.go:104-112 | the first settlement returns the items to the front; a later one does nothing |
| `Checkpoints.CleanExactly` | services/ingestion/server/archive.go:87-94 | exactly the clean names pass trimming, escaping and path cleaning unchanged |
| `Checkpoints.EscapedExactly` | services/ingestion/server/archive.go:87-94 | for every name: surrounding space goes, each slash, backslash, colon and NUL becomes an underscore, all else stays, and nothing left becomes one underscore |
| `Checkpoints.PathsSharedExactly` | services/ingestion/server/checkpoint.go:88-90 | for all names, dot names included, two senders share a file if and only if their escaped names make the same walk from the root directory, meet at the top of the file system, or one leaves the root directory and comes back |
| `Checkpoints.PlainPathsSharedExactly` | services/ingestion/server/checkpoint.go:88-90 | without dot names that is equality of the escaped names |
| `Checkpoints.CleanPathsAreDistinct` | services/ingestion/server/checkpoint.go:88-90 | names that are used unchanged share a checkpoint file only if they are equal |
| `Checkpoints.UncleanPathsCollide` | services/ingestion/server/archive.go:87-94 | every name shares its file with its escaped form, and a dot name with its mirror image |
| `Checkpoints.FileCheckpointStore.Load` | services/ingestion/server/checkpoint.go:44-60 | fails when interrupted, unreadable or malformed; otherwise the number in the file, zero without one |
| `Checkpoints.FileCheckpointStore.Save` | services/ingestion/server/checkpoint.go:62-86 | a failure at any stage leaves all checkpoints as they were, a success changes what exactly the senders of that file read back |
| `IngestionServer.KeySharedExactly` | services/ingestion/server/server.go:107-109 | another sender has the same key if and only if a NUL occurs in one of the names |
| `IngestionServer.BeginAnswers` | services/ingestion/server/server.go:142-225 | a batch is queued if and only if it is sound, within the limits, first <= persisted+1 <= last, archived and there is room, and then there is no acknowledgement; otherwise exactly one, with the batch id and the watermark, whose retry range is persisted+1..first-1 for a gap, max(first, persisted+1)..last for an archive failure or a full queue and none for a duplicate or a refusal, whose rejections cover every sequence |
| `IngestionServer.HighWatermark` | services/ingestion/server/server.go:293-295 | flow control starts at the configured percentage of the capacity, rounded down, and never below one |
| `IngestionServer.BeginAcknowledgesNothingNew` | services/ingestion/server/server.go:142-225 | no answer before the wait acknowledges beyond the watermark, rejections are those of a refused batch, and a queued batch was admitted and archived |
| `IngestionServer.Server.Acquire` | services/ingestion/server/server.go:248-271 | one stream per NUL-joined key, the checkpoint loaded once per process and key, other keys untouched |
| `IngestionServer.Server.Release` | services/ingestion/server/server.go:273-279 | only the holding session gives the stream up |
| `IngestionServer.Server.BeginBatch` | services/ingestion/server/server.go:142-225 | the answer that `BeginAnswers` describes, and the batch queued with its open notification, for every branch up to the wait |
| `IngestionServer.Server.FinishBatch` | services/ingestion/server/server.go:226-246 | the watermark moves only after the checkpoint was saved; a failed save changes nothing and asks for a retry |
| `Persistence.RowExactly` | services/ingestion/persistence/repository.go:104-283 | a row's table, identity, operation, event id, version, tenant, cluster and time in the fields of its observation |
| `Persistence.MapsExactly` | services/ingestion/persistence/repository.go:67-102 | an observation is invalid, skipped or mapped exactly by its envelope and payload fields |
| `Persistence.PoisonedExactly` | services/ingestion/persistence/repository.go:34-102 | a lease fails to map if and only if some batch of it holds invalid inventory |
| `Persistence.PlanRecords` | services/ingestion/persistence/repository.go:34-65 | the plan holds a row for every inventory observation of the lease and no row of anything else |
| `Persistence.RanksFollowNames` | services/ingestion/persistence/repository.go:54-58 | tables are inserted in the order of their names |
| `Persistence.MapRunExactly` | services/ingestion/persistence/repository.go:67-102 | the rows of a batch are exactly its inventory observations |
| `Persistence.MapAllExactly` | services/ingestion/persistence/repository.go:37-57 | so are the rows of a lease, and their number is the number of inventory observations |
| `Persistence.AcceptedNeverPoisons` | services/ingestion/persistence/repository.go:67-294 | batches that validation accepted, cut or not, always map |
| `Persistence.PlanIsPartition` | services/ingestion/persistence/repository.go:34-65 | one insert per table in table order with that table's rows in order; nothing dropped, nothing twice |
| `Persistence.ForTableExactly` | services/ingestion/persistence/repository.go:37-57 | a table's group holds each of its rows as often as the input does and no other |
| `Persistence.SortTables` | services/ingestion/persistence/repository.go:58 | the table list becomes strictly ascending with the same members |
| `Persistence.GroupBatch` | services/ingestion/persistence/repository.go:41-56 | the nested loop groups the rows of one more batch, or stops at invalid inventory |
| `Persistence.PlanInserts` | services/ingestion/persistence/repository.go:34-58 | the loops compute the partition, or nothing for invalid inventory |
| `Persistence.Repository.Persist` | services/ingestion/persistence/repository.go:34-65 | poisoned exactly when some observation is invalid, and then before any insert; a failed insert leaves the earlier inserts and part of its own rows; success stores a row for every inventory observation; no call stores anything else |
| `PersistenceWorker.RetryUndoesAcquire` | services/ingestion/queue/queue.go:63-112 | handing a lease straight back restores the queue, order included |
| `PersistenceWorker.Worker.Take` | services/ingestion/persistence/worker.go:37-46 | leased and waiting batches never share a notification |
| `PersistenceWorker.Worker.Write` | services/ingestion/persistence/worker.go:47-51 | poisoned exactly when the leased batches do not map, and then nothing is written; earlier rows stay |
| `PersistenceWorker.Worker.Settle` | services/ingestion/persistence/worker.go:47-62 | a stored lease is committed and notified, any other returns to the front and notifies nobody |
| `PersistenceWorker.Worker.RunOnce` | services/ingestion/persistence/worker.go:37-64 | a turn commits exactly what it stored; otherwise the queue is as before and nobody is notified |
| `Collector.Cache.Changed` | agent/inventory/cache.go:17-30 | an error without a fingerprint; otherwise changed exactly when the key is absent or has another one |
| `Collector.DeltaCollector.PublishDelta` | agent/inventory/collector.go:234-254 | publishes and records a real change, skips a redundant one, and changes nothing when the publisher or the fingerprint fails |
| `Collector.DeltaCollector.Events` | agent/inventory/collector.go:171-221 | the object's own events, with the namespace UID the attempt finds, followed by one tombstone per tracked container missing from the spec; what they say is in `CompletedChangeShows` |
| `Collector.DeltaCollector.UpdatePodContainers` | agent/inventory/collector.go:256-272 | tracking becomes the live containers of the events, or nothing after a pod delete |
| `Collector.DeltaCollector.Process` | agent/inventory/collector.go:155-169 | one attempt, complete or stopped at a refused event, in the terms the run theorems use |
| `Collector.CurrentExactly` | agent/inventory/collector.go:256-272 | the tracked containers are exactly the live events by key |
| `CollectorLog.ReplayIsLastEntry` | agent/inventory/collector.go:234-254 | replaying a log keeps exactly each key's last entry when that is an upsert |
| `CollectorLog.CacheAgreesWithLog` | agent/inventory/collector.go:155-254 | after every history, failures included, the cache is the fingerprint image of the replayed log, deletes follow upserts and consecutive upserts differ |
| `CollectorLog.SuppressionIsInvisible` | agent/inventory/collector.go:234-254 | replaying the published deltas gives what replaying every processed event would |
| `CollectorContents.CompletedChangeShows` | agent/inventory/collector.go:155-254 | in every reachable state, after a successful upsert a consumer of the log reads the object's body (a deployment's and a pod's with the namespace found), each container of a spec with distinct names with its own body, and no tracked container that left the spec; after a delete none of the keys it names |
| `CollectorRetry.RetriesEqualOnePass` | agent/inventory/collector.go:139-169 | a change retried any number of times among attempts at unrelated changes ends in the cache and tracking of the history with one failure-free pass, and in its multiset of published events if and only if every event a failed attempt published has the content the successful one gives its key |
| `CollectorRetry.HistoriesStayAbreast` | agent/inventory/collector.go:139-169 | a history with failed attempts at a change has the tracking of the history without them, and its cache but for the keys of the change |
| `CollectorRetry.SameNamespaceSuffices` | agent/inventory/collector.go:223-232 | if every attempt finds the same namespace UID, a failed one publishes nothing the successful one contradicts |
| `CollectorRetry.LateNamespacePublishesTwice` | agent/inventory/collector.go:223-232 | a run in which the lister learns the namespace between two attempts and an event is published twice |
| `CollectorOrder.AttemptDecides` | agent/inventory/collector.go:234-254 | after any attempt a consumer of the log sees what the attempt said, and what it saw before where the attempt was silent |
| `CollectorOrder.KeySurvivesExactly` | agent/inventory/collector.go:139-153 | in every reachable state, what the log says about a key survives a late attempt if and only if that is silent on the key or says the same |
| `CollectorOrder.NewerSurvivesExactly` | agent/inventory/collector.go:139-153 | a newer change survives a late retry if and only if the two say the same about every shared key |
| `CollectorOrder.ObjectSurvivesExactly` | agent/inventory/collector.go:139-153 | for single objects: another object, two deletes, or the same upsert |
| `CollectorOrder.LateRetryRevertsTheInventory` | agent/inventory/collector.go:139-153 | a failed update retried after a newer one leaves the older state as the last word |
| `CollectorTombstones.UpsertTombstonesAreExact` | agent/inventory/collector.go:197-217 | after a pod upsert the cached containers are those of its spec, each container gone got exactly one delete, no other key got any |
| `CollectorTombstones.DeleteLeavesUnlistedContainers` | agent/inventory/collector.go:197-219 | a pod delete leaves cached exactly the tracked containers it does not list; cache and tracking agree afterwards if and only if it lists all |
| `CollectorTombstones.OrderlyRunsStayExact` | agent/inventory/collector.go:155-272 | in every history, failures included, whose failed pod changes are retried before their pod changes again and whose deletes list what is tracked, cached and tracked containers agree for every pod without an open change, and differ elsewhere only within that change |
| `CollectorTombstones.UpsertRestoresExactly` | agent/inventory/collector.go:197-217 | wherever failed attempts had got to, a successful pod upsert makes cached and tracked containers agree if and only if nothing was cached but tracked containers and those of its spec |
| `CollectorTombstones.DeleteRestoresExactly` | agent/inventory/collector.go:197-219 | a successful pod delete leaves nothing of the pod if and only if it lists all its cached containers |
| `CollectorTombstones.OvertakenChangeLeavesContainer` | agent/inventory/collector.go:197-217 | a newer spec that overtakes a failed one leaves a container cached that no tracking knows |
| `CollectorTombstones.AppliedToKey` | agent/inventory/collector.go:155-169 | what a list of events does to a key: nothing, one delete if cached, or an upsert |
| `Allocation.Tally` | services/allocation/engine.go:95-107 | the first loop computes per node-hour and cluster-hour totals and the largest capacity |
| `Allocation.ChargeAll` | services/allocation/engine.go:109-149 | the second loop gives every namespace-hour its name and its sums of shares |
| `Allocation.FirstNodeRequest` | services/allocation/engine.go:229-236 | the first request of the node-hour, or an empty one |
| `Allocation.AddIdleFor` | services/allocation/engine.go:150-172 | one turn of the third loop books the idle share of one node-hour |
| `Allocation.AddIdleCapacity` | services/allocation/engine.go:150-172 | in whatever order the node map is walked, the result is the complete allocation |
| `AllocationRows.SortRows` | services/allocation/engine.go:174-190 | every item once, ordered by hour, cluster and namespace |
| `AllocationRows.AllocateCosts` | services/allocation/engine.go:90-191 | with usable prices the rows, by hour, cluster and namespace, are those of the billed requests and of idle capacity; each sums up the charges of its own requests under the given prices, and all add up to node price times busy node-hours plus control-plane price times busy cluster-hours plus network price times billed GiB; otherwise each unusable price, and only that, is replaced by 0.10, 0.05 or 0.01 |
| `AllocationRows.PricesExactly` | services/allocation/engine.go:193-204 | the prices charged are the given ones if and only if those are usable, and each bad one becomes its own default |
| `AllocationFigures.ChargeExactly` | services/allocation/engine.go:95-149 | a request with a node and CPU is charged its share of the larger of the CPU requested on its node in its hour and 3600 times the largest allocatable reported there, its share of the CPU of its cluster-hour and its bytes in units of 2^30; any other request nothing |
| `AllocationFigures.RowSumsUp` | services/allocation/engine.go:109-149 | a row holds the sums of these over the requests with its tenant, cluster, namespace and hour |
| `Allocation.BilledExactly` | services/allocation/engine.go:109-118 | a request is billed exactly when it has a node and CPU, and then no divisor is zero |
| `AllocationTheorems.NodeHourIsConserved` | services/allocation/engine.go:90-172 | direct and idle cost of a node-hour with requests are exactly the node price |
| `AllocationTheorems.ClusterHourIsConserved` | services/allocation/engine.go:90-172 | the control-plane cost of a cluster-hour with requests is exactly its price |
| `AllocationTheorems.ByAnyKey` | services/allocation/engine.go:90-172 | costs sum to the same by namespace-hour, node-hour and cluster-hour |
| `AllocationTheorems.IdleIsBooked` | services/allocation/engine.go:150-172 | every node-hour's idle cost is booked once |
| `AllocationTheorems.CostIsConserved` | services/allocation/engine.go:90-172 | total allocated cost is node price times node-hours plus control-plane price times cluster-hours plus network price times billed GiB |
| `AllocationSql.QueryAgreesWithEngine` | services/allocation/repository.go:121-203 | when every row names a known node, grouping first and allocating raw rows give the same namespace-hours with the same name, CPU, bytes, weight and costs |
| `AllocationSql.IdleAgreesWithEngine` | services/allocation/repository.go:204-228 | whether or not its node is known, the query's idle row of a cluster-hour is the engine's, and zero where the engine has none |
| `AllocationSql.AllJoin` | services/allocation/repository.go:146-203 | with every node known the inner joins lose no usage row |
| `AllocationQuery.Select` | services/allocation/repository.go:255-268 | selects, as often as they occur, exactly the rows of the tenant and time range that ask for CPU, of the cluster named or of all clusters without one |
| `AllocationQuery.AlignedRange` | services/allocation/engine.go:63-84 | for ranges of whole hours, filtering times and filtering hours agree |
| `AllocationExact.FiguresAgreeExactly` | services/allocation/repository.go:146-268 | over everything a query selects, rows without a node included, CPU, bytes, weight, direct, network and control-plane figures of query and engine agree for every namespace-hour if and only if every named node is known and, unless the control plane is free, no cluster-hour mixes rows with and without a node |
| `AllocationExact.QueryEndToEnd` | services/allocation/repository.go:121-268 | for every such query over whole hours the database's rows are the engine's, whichever way the filter is read, lie in the range asked for, and are named after the inventory or, without a name there, by UID |
| `AllocationExact.QueryIdleAgrees` | services/allocation/repository.go:204-228 | for every query the idle rows are the engine's |
| `AllocationExact.UncountedIgnored` | services/allocation/engine.go:95-118 | requests without a node or without CPU change nothing in the engine's result |
| `AllocationExact.ClusterRequestOnNodes` | services/allocation/repository.go:158-168 | rows without a node raise the query's cluster total, and only they set it apart from the engine's |
| `AllocationExact.UnknownNodeIsLost` | services/allocation/repository.go:169-203 | a row on an unknown node is billed by the engine and missing from the query's CPU |
| `AllocationExact.MixedHourHalvesControl` | services/allocation/repository.go:146-203 | one row on a known node and one without a node: CPU agrees and the query charges half the control plane |
| `AllocationQuery.SystemCostAgreesExactlyWhen` | services/allocation/repository.go:229-250 | for every price list, system cost agrees if and only if the UID is no system name or the name is one too |
| `AllocationQuery.SystemCostIs` | services/allocation/engine.go:206-216 | the engine's system cost is direct, network and control-plane cost where name or UID is kube-system, kube-public or kube-node-lease, and nothing elsewhere |
| `AllocationQuery.SystemCostDisagrees` | services/allocation/engine.go:206-216 | one metric row and name table on which they disagree |
| `ImportOrder.Order` | tools/protogen/main.go:88-118 | every reachable file once and nothing else; imports come first if and only if the reachable graph has no cycle |
| `ImportOrder.Walk.Collect` | tools/protogen/main.go:92-106 | the recursion ends, marks its file and keeps the order consistent with the open calls |
| `ImportOrder.CloseKeeps` | tools/protogen/main.go:92-106 | appending a file after its imports keeps the order topological unless an import is still open |
| `ImportOrder.PathFalls` | tools/protogen/main.go:88-118 | along any import path positions in a topological order strictly fall |
| `Rightsizing.Percentile` | services/recommendations/engine.go:224-238 | the element of the rank the quantile asks for, zero without values |
| `Rightsizing.PercentileShare` | services/recommendations/engine.go:224-238 | the least number with at least a q share of the values at or below it |
| `Rightsizing.RankedUnique` | services/recommendations/engine.go:224-238 | the ranked value is unique |
| `Rightsizing.CurrentConfiguration` | services/recommendations/engine.go:185-208 | despite the early break each field is its most recent non-zero average |
| `Rightsizing.LatestMeaning` | services/recommendations/engine.go:185-208 | the most recent non-zero value: it occurs and only zeros follow, or all are zero |
| `Rightsizing.Recommend` | services/recommendations/engine.go:77-125 | what `AdviceJustified` says, for every list of samples and every configuration |
| `Rightsizing.AdviceJustified` | services/recommendations/engine.go:77-125 | a recommendation needs the sample minimum and positive savings, and every field follows from samples and configuration: 95th and 99th percentile of usage per second, the most recent non-zero requests and limits, the least requests and limits that meet minimum, headroom and multiplier, and the savings per month; none is given only below the minimum, without requests, without usage or without savings |
| `Rightsizing.RoundMoneyExactly` | services/recommendations/engine.go:272-274 | money is rounded to the nearest millionth, halves up, so it is positive from half a millionth on |
| `Rightsizing.AverageIsLeast` | services/recommendations/engine.go:210-222 | the rate of an amount over a time is the least whole rate that yields it, and zero over no time |
| `Rightsizing.AdviceSaves` | services/recommendations/engine.go:77-125 | an emitted recommendation lowers a request and never puts a limit below its request |
| `Rightsizing.HeadroomCovers` | services/recommendations/engine.go:77-125 | with headroom of at least one the request covers the share it is based on |
| `Rightsizing.CoversExactly` | services/recommendations/engine.go:77-125 | a request covers a share of the samples if and only if it reaches their percentile |
| `Rightsizing.RecommendationIsDetermined` | services/recommendations/engine.go:77-125 | the samples determine the recommendation |
| `RightsizingHeadroom.HeadroomSufficesExactly` | services/recommendations/engine.go:77-183 | for every configuration given, all emitted recommendations cover their shares if and only if no headroom is given between zero and one |
| `RightsizingHeadroom.ConfigExactly` | services/recommendations/engine.go:151-183 | a positive setting is kept and each of the others gets its own default |
| `RightsizingHeadroom.SmallCpuHeadroomFails` | services/recommendations/engine.go:77-125 | with CPU headroom below one, uniform samples for which a recommendation is emitted and not one of them fits its CPU request |
| `RightsizingHeadroom.SmallMemoryHeadroomFails` | services/recommendations/engine.go:77-125 | the same for memory |
| `Rightsizing.CeilDivIsLeast` | services/recommendations/engine.go:244-249 | the least number of units that covers the value |
| `Pagination.CursorBelongsToItsQuery` | services/query/server.go:260-277 | a cursor is honoured by exactly the query it was issued for; no cursor means the first page, and what does not decode or points before it is refused |
| `Pagination.PageIsNextStretch` | services/query/server.go:349-363 | wherever a cursor points, a page holds as many of the next rows as are left up to the limit (100 without one, 500 at most), and a token exists exactly when rows are left and leads right after it |
| `Pagination.FollowCursors` | services/query/server.go:349-363 | following cursors with any limits yields every row once in order, on full pages up to the last, which holds what is left |
| `QueryJobs.StoreAgreesWithHistory` | services/query/query_jobs.go:84-169 | in every interleaving with fresh ids the store is exactly the last jobs created, as many as asked for or 1000, each with the status, times and outcome its goroutine last reported |
| `QueryJobs.EvictedStaysEvicted` | services/query/query_jobs.go:108-169 | late reports never revive an evicted job |
| `QueryJobs.StatusMovesForward` | services/query/query_jobs.go:218-236 | every step moves a job only from queued to running to one of succeeded or failed |
| `QueryJobs.EvictedExactly` | services/query/query_jobs.go:163-169 | eviction drops exactly the oldest entries beyond the bound |
| `QueryJobs.CreateAgrees` | services/query/query_jobs.go:84-106 | creating a job with a fresh id keeps the store the last jobs created |
| `QueryJobs.CoherentExactly` | services/query/query_jobs.go:84-169 | whatever ids are used, the stored jobs are the listed ones after every creation if and only if no id was used again while its older entry was listed, among those evicted so far |
| `QueryJobs.RepeatedIdLosesTheJob` | services/query/query_jobs.go:84-106 | with room for one job, a repeated id ends up listed but not stored |
| `QueryJobs.JobStore.Evict` | services/query/query_jobs.go:163-169 | the loop evicts down to the bound |
| `QueryJobs.JobStore.Create` | services/query/query_jobs.go:84-106 | a queued job is stored, listed last, and the oldest evicted |
| `QueryJobs.JobStore.Start` | services/query/query_jobs.go:108-120 | only a stored job of the same tenant starts |
| `QueryJobs.JobStore.Finish` | services/query/query_jobs.go:122-151 | only a stored job of the same tenant ends, as succeeded or failed, with the outcome and time reported |
| `QueryJobs.JobStore.Get` | services/query/query_jobs.go:153-161 | a job is visible to its own tenant only |

## Left out

- Transport, TLS, HTTP handlers, health checks, configuration and metrics: plumbing without a property of this kind.
- That delivery does complete without outside help (`DeliveryCompletes` proves that it always can), a restart of the agent process, two agents of one cluster and several server replicas: the code promises nothing for them; one agent buffer lifetime is modelled.
- Locks, condition variables and contexts: each method or event is one atomic step; where the source waits, the model returns (`WouldBlock`, `None`, a null lease) or the run goes on with other events.
- The worker's backoff delay: it changes when a turn happens, not what it does.
- `Queue.Dequeue`, which hands batches out without a lease: no service calls it.
- 64-bit wrap-around of sequences, counters and byte totals: numbers are unbounded.
- Floating point: costs, quantiles and headroom are reals, so conservation is exact; binary rounding is not modelled.
- The allocation engine's NUL-joined map keys are tuples (the server's are not), and nil batches or observations do not exist.
- DeliveryRows.StoredRowRecordsItsObservation: does not say which attributes a row keeps beside table, identity, operation, time, event id and version, because the six mappers drop or clamp some of them; what they keep is one arbitrary function of the payload.
- A checkpoint file and a directory of the same name in each other's way: the save or load then fails, which any save or load may.
- The archive's contents: archiving only succeeds or fails.
- Kubernetes informers, the work queue and the object builders: a change carries the UID, the semantic content and the container list that the builders produce; each attempt adds the namespace UID it finds.
- PersistenceWorker.Worker.RunOnce: one turn of the endless loop; cancellation of the loop is not modelled.
- Grouping of samples by target and the final sort in `Generate`: easy members on top of `Recommend`.
- The analytics queries behind pagination: a fixed ordered result is assumed, and database paging is LIMIT and OFFSET over it.
- The other services (policy, tenant, audit, export, registry, gateway, Karpenter, metrics sampling): they would only add easy members.
