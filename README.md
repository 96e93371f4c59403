# node-agent container handler, modelled in Dafny

This project models the `conthandler` package of the node-agent sniffer.
For every running Kubernetes container, the sniffer collects runtime events
(opened files, commands). Once per period it queues a "relevancy" job. The job
filters the container image's SBOM down to the files the container actually
opened and stores the result.

The model has two parts.

- **The per-container aggregator** (`container_aggregator.go`): the class
  `ContainerAggregator.Aggregator`.
  - It keeps an append-only buffer of runtime events.
  - Its collector appends every event except the "drop event" marker. The
    marker becomes an error on the caller's error channel, and collection
    carries on.
  - `GetContainerRealtimeFileList` derives the distinct non-empty opened-file
    names. Its specification is the function `RealtimeFileList`, which is tied
    to the reference set `OpenedFiles`.
- **The container lifecycle handler** (`container_main_handler.go`): the class
  `ContainerMainHandler.ContainerHandler`, seen sequentially.
  - The table of watched containers (a `sync.Map` in Go) is a `map` field.
  - Go's buffered channels are `Channels.Channel` objects: bounded FIFO
    queues with capacity 10 per sync channel and 50 for the job queue.
  - A send on a full channel or a receive on an empty one does not happen.
    The operation reports that the goroutine would block.
    - A `select` that would block parks the session (`ParkedInSelect`).
    - A relevancy worker that would block keeps the job it took in the field
      `waiting` and resumes it at a later step.
    - A collector that would block stops taking events for that iteration.
    - A `getSBOM` send that would block is dropped (see "## Left out").
  - Each `select` takes an explicit `SelectChoice`.
  - The configuration (ticker period, maximum sniffing time, relevancy flag)
    is a `Config` parameter.
  - The outcomes of the SBOM client's `GetSBOM`, `FilterSBOM` and
    `StoreFilterSBOM` are parameters.
  - The whole decision pipeline of one relevancy job is the pure function
    `RunJob`. The worker step is proved against it.

The model also includes `Strings.Split` and `Strings.IndexFrom`, which model
Go's `strings.Split` and `strings.Index` for the short container ID. Their
round trip (`SplitJoin`) and the fact that no piece holds the separator are
proved.

Behaviour of the code as written, which the model follows:

- `handleContainerRunningEvent` stores the new record with `Store`, which
  replaces any record already held for that container ID.
- In `startRelevancyProcess`, neither `start` nor the stop time is ever
  reassigned. Once the loop is entered, its time bound stays true, and the
  loop leaves only when `startTimer` returns an error.
- Every non-nil error from `startTimer` ends the session, not only the
  drop-marker error.
  - On a drop marker the ticker is stopped.
  - On any other aggregator error the ticker is left running.
- The fatal exit deletes the table entry by container ID, whatever record
  that ID holds by then (see "## Left out" for the interleaving this allows).
- When the relevancy flag is off, nothing reads the `StepGetSBOM` channel.
  Once ten outcomes wait there, each further `getSBOM` goroutine blocks. It
  goes on only once the flag is read as on again: ticks then queue jobs, and
  the worker drains the channel.
- The relevancy worker takes a job off the queue and reads the record and
  its file list. Only then does it wait on the record's `StepGetSBOM`
  channel. Suppose that container's session ends on an error while the
  worker waits: its record is deleted, and each later `getSBOM` for it
  misses the record and sends nothing. Unless an outcome was already on its
  way, the worker then waits for good, and the jobs of every other
  container wait behind it.

## Model

| member | source | states |
|---|---|---|
| Wrappers.Errorf | pkg/conthandler/container_main_handler.go:117 | `fmt.Errorf(text)`, for a text with no formatting verbs (as both texts passed here are), has exactly that text and is not an "already exists" error |
| Channels.Channel.constructor | pkg/conthandler/container_main_handler.go:185-186 | `make(chan T, n)` is an empty queue of capacity n |
| Channels.Channel.Send | pkg/conthandler/container_main_handler.go:175 | a send happens exactly when the queue is not full, and then appends the value at the tail; a full queue is left unchanged; the capacity bound is kept |
| Channels.Channel.Receive | pkg/conthandler/container_main_handler.go:72 | a receive on an empty queue does not happen; otherwise it returns the head and leaves the rest in order |
| Strings.IndexFrom | pkg/conthandler/container_main_handler.go:160 | the result is the first occurrence of the separator at or after `from`, and None means there is none |
| Strings.IndexFromFindsFirst | pkg/conthandler/container_main_handler.go:160 | an occurrence with none before it is what `IndexFrom` finds |
| Strings.Split | pkg/conthandler/container_main_handler.go:160 | `strings.Split` with a non-empty separator yields at least one piece |
| Strings.SplitJoin | pkg/conthandler/container_main_handler.go:160 | joining the pieces of a split with the separator gives back the input |
| Strings.PrefixBeforeFirstIsFree | pkg/conthandler/container_main_handler.go:160 | the text before the first occurrence holds no occurrence |
| Strings.SplitPiecesFree | pkg/conthandler/container_main_handler.go:160 | no piece of a split contains the separator |
| Strings.SplitFirstPieces | pkg/conthandler/container_main_handler.go:160-161 | with no occurrence the split is the input alone; otherwise piece 0 is the text before the first occurrence and piece 1 is a prefix of the text after it |
| ContainerAggregator.DropError | pkg/conthandler/container_aggregator.go:31 | the collector's error for a drop marker carries the message `DropEventOccurred` |
| ContainerAggregator.RealtimeFileList | pkg/conthandler/container_aggregator.go:55-66 | the keys are exactly the distinct non-empty opened-file names of the buffer (`OpenedFiles`), and every value is true |
| ContainerAggregator.Accepted | pkg/conthandler/container_aggregator.go:28-35 | the collector appends at most one event per event it takes |
| ContainerAggregator.AcceptedMembers | pkg/conthandler/container_aggregator.go:28-35 | an event is among those the collector appends iff it was received and is not a drop marker; nothing is invented |
| ContainerAggregator.DropErrors | pkg/conthandler/container_aggregator.go:30-32 | the collector sends at most one error per event it takes |
| ContainerAggregator.DropErrorsAreDropErrors | pkg/conthandler/container_aggregator.go:30-32 | every error the collector sends is the drop-marker error |
| ContainerAggregator.CollectOneMore | pkg/conthandler/container_aggregator.go:29-34 | taking one more event appends it to the buffer, or appends one error if it is a drop marker |
| ContainerAggregator.CollectorContinuesAfterDrop | pkg/conthandler/container_aggregator.go:28-34 | a drop marker does not stop the collector: the next ordinary event is still appended, and the marker adds exactly one error |
| ContainerAggregator.CollectorAccountsForEveryEvent | pkg/conthandler/container_aggregator.go:28-35 | every received event is either appended or reported, never both and never neither |
| ContainerAggregator.FileListHasNoEmptyName | pkg/conthandler/container_aggregator.go:60 | the file list never contains the empty name |
| ContainerAggregator.FileListAbsorbs | pkg/conthandler/container_aggregator.go:58-63 | appending an event whose name is empty or already listed leaves the file list unchanged |
| ContainerAggregator.FileListOrderIndependent | pkg/conthandler/container_aggregator.go:58-63 | two buffers holding the same events in any order give the same file list |
| ContainerAggregator.CollectedFileList | pkg/conthandler/container_aggregator.go:28-63 | after collection, a name is listed iff it is non-empty and carried by some received event that is not a drop marker |
| ContainerAggregator.Aggregator.constructor | pkg/conthandler/container_aggregator.go:18-25 | a new aggregator has the given ID, an empty buffer and no accumulator attached |
| ContainerAggregator.Aggregator.CollectStep | pkg/conthandler/container_aggregator.go:29-34 | a non-drop event is appended at the end and the error channel is untouched; a drop marker leaves the buffer unchanged and puts exactly one `DropEventOccurred` error on the error channel, or blocks when that channel is full |
| ContainerAggregator.Aggregator.Collect | pkg/conthandler/container_aggregator.go:27-36 | the collector loop leaves the buffer extended by `Accepted` and the error channel by `DropErrors` of what it consumed; it stops early only at a drop marker facing a full error channel; the error channel gains only drop errors |
| ContainerAggregator.Aggregator.StartAggregate | pkg/conthandler/container_aggregator.go:38-48 | returns nil, attaches a running accumulator and appends the cached events to the buffer |
| ContainerAggregator.Aggregator.StopAggregate | pkg/conthandler/container_aggregator.go:50-53 | returns nil, stops the accumulator and leaves the buffer unchanged |
| ContainerAggregator.Aggregator.GetContainerRealtimeFileList | pkg/conthandler/container_aggregator.go:55-66 | changes nothing; the map built by the loop equals `RealtimeFileList` of the buffer, so its keys are exactly `OpenedFiles` |
| ContainerMainHandler.Ticker.constructor | pkg/conthandler/container_main_handler.go:124-126 | requires a positive period, since `time.NewTicker` panics otherwise; a new ticker has that period and is running |
| ContainerMainHandler.Ticker.Stop | pkg/conthandler/container_main_handler.go:116 | afterwards the ticker is stopped |
| ContainerMainHandler.GetShortContainerID | pkg/conthandler/container_main_handler.go:159-162 | the short ID is the 12 characters that follow the first "://" and holds no "://"; the Go code panics without that separator and 12 characters after it |
| ContainerMainHandler.PrefixOfFreeIsFree | pkg/conthandler/container_main_handler.go:161 | slicing a separator-free piece keeps it separator-free |
| ContainerMainHandler.NoOccurrenceBeforeSeparator | pkg/conthandler/container_main_handler.go:160 | in a separator-free prefix followed by "://", no "://" starts inside the prefix |
| ContainerMainHandler.ShortIDOfPrefixedID | pkg/conthandler/container_main_handler.go:159-162 | for `prefix + "://" + digest` with both parts separator-free, the split is `[prefix, digest]` and the short ID is the first 12 characters of the digest |
| ContainerMainHandler.FetchSBOM | pkg/conthandler/container_main_handler.go:171-175 | `GetSBOM` is called, once and with the hash, exactly when the image hash is available, and its outcome is what gets sent; otherwise the image-hash error is sent |
| ContainerMainHandler.RunJob | pkg/conthandler/container_main_handler.go:73-100 | a lookup miss or an unrequested job makes no client call; a fetch error means no filter and no store; the filter is called with the container's file list, and a filter error means no store; the store is called with the instance ID hash; "already exists", other store errors and success are told apart |
| ContainerMainHandler.AlreadyExistIsNotAWarning | pkg/conthandler/container_main_handler.go:91-97 | an "already exists" store error is logged as information, and any other store error as a warning |
| ContainerMainHandler.ContainerHandler.constructor | pkg/conthandler/container_main_handler.go:58-65 | an empty table, no job held by the relevancy worker, and the event and job queues both empty with capacity 50 |
| ContainerMainHandler.ContainerHandler.HandleContainerRunningEvent | pkg/conthandler/container_main_handler.go:178-192 | requires a container ID with a short ID and a positive ticker period, since the Go code panics otherwise; returns nil; the container ID maps to a fresh record (an empty detached aggregator for the short ID, a running ticker, two empty sync channels of capacity 10, the event, a client for the workload and instance); a previous record for that ID is replaced, every other key is untouched, and the worker's state is unchanged |
| ContainerMainHandler.ContainerHandler.HandleNewContainerEvent | pkg/conthandler/container_main_handler.go:194-200 | returns nil; any event type other than running leaves the table unchanged; a running event (with the same requirements) does what `HandleContainerRunningEvent` does |
| ContainerMainHandler.ContainerHandler.GetSBOM | pkg/conthandler/container_main_handler.go:164-176 | a lookup miss sends nothing and calls nothing; otherwise exactly the outcome of `FetchSBOM` is sent on the record's `StepGetSBOM` channel, with `FetchSBOM`'s calls |
| ContainerMainHandler.ContainerHandler.StartTimer | pkg/conthandler/container_main_handler.go:104-122 | a tick returns nil and queues exactly one job `{containerID, RelevantCVEsService}` iff the relevancy flag is on; a drop-marker error stops the ticker and is replaced by the missed-events error; any other error is returned unchanged with the ticker left running; a `select` that cannot go ahead changes nothing; result and effects equal `SelectResult`, `SelectQueued`, `SelectRemaining` and `SelectStopsTicker` of the state it starts in |
| ContainerMainHandler.SelectResultByChoice | pkg/conthandler/container_main_handler.go:106-119 | a tick never yields an error, and receiving from the aggregator channel never yields nil |
| ContainerMainHandler.SelectOnDropsOnly | pkg/conthandler/container_main_handler.go:114-118 | while only drop-marker errors are pending, the `select` leaves only such errors, and any error it returns is the missed-events error received together with stopping the ticker |
| ContainerMainHandler.SessionEndsAt | pkg/conthandler/container_main_handler.go:144-156 | after a run of nil results, the first `select` that blocks parks the session there, and the first error stops it there with that error |
| ContainerMainHandler.SessionTraceExtend | pkg/conthandler/container_main_handler.go:144-146 | an iteration whose `select` faces the state the session's last iteration left, and yields what the `select` does there, extends the session's trace |
| ContainerMainHandler.SessionStandsExtend | pkg/conthandler/container_main_handler.go:144-146 | after such an iteration the ticker is stopped iff it was or the `select` stopped it, the job queue gains what the `select` queued, and the aggregator channel keeps what the `select` left |
| ContainerMainHandler.SessionHoldsExtend | pkg/conthandler/container_main_handler.go:144-146 | after such an iteration the session stands one iteration further on (`SessionStandsExtend`), the buffer gains the events the collector accepted, and `StepGetSBOM` gains the iteration's `getSBOM` outcome exactly when it had room |
| ContainerMainHandler.CollectorTakesAllWithRoom | pkg/conthandler/container_aggregator.go:27-35 | a collector whose aggregator channel has room for one error per event takes every event, so the channel then holds the old errors plus `DropErrors` of all of them: a drop marker never stops it while the channel has room |
| ContainerMainHandler.DropMarkerWithRoomEndsSession | pkg/conthandler/container_main_handler.go:112-117 | a session that starts with an empty aggregator channel, whose first iteration collects a drop marker and whose `select` then takes the aggregator case, ends at that iteration on the missed-events error, the outcome on which `StartRelevancyProcess` stops aggregation and deletes the entry |
| ContainerMainHandler.SessionOnDropsOnly | pkg/conthandler/container_main_handler.go:114-118 | a session that starts with only drop-marker errors on the aggregator channel keeps only such errors there, and an error that ends it is the missed-events error, with the ticker stopped |
| ContainerMainHandler.SessionRunsThrough | pkg/conthandler/container_main_handler.go:144-156 | a session whose every `startTimer` call was a tick returning nil is still monitoring |
| ContainerMainHandler.ContainerHandler.SessionIteration | pkg/conthandler/container_main_handler.go:144-146 | `StepGetSBOM` gains exactly the `FetchSBOM` outcome unless it was full; the buffer gains `Accepted` of the events the collector took; the collector stops early only at a drop marker when the aggregator channel is full (it holds at least its capacity); the aggregator channel then holds the old errors plus `DropErrors` of those events; `startTimer`'s result, the job queue, the aggregator channel and the ticker are as `SelectResult`, `SelectQueued`, `SelectRemaining` and `SelectStopsTicker` give for that state; while only drop errors are pending, any error is the missed-events error with the ticker stopped |
| ContainerMainHandler.ContainerHandler.MonitorIteration | pkg/conthandler/container_main_handler.go:144-156 | one more iteration after a run of nil ticks: its `select` faces the ticker and job queue as the iteration found them and the aggregator channel holding the old errors plus one drop error per marker the collector took; the collector stops early only at a marker when that channel is full (`FacesSelect`); the result is `SelectResult` of that state; the ticker, job queue, aggregator channel, buffer (which gains the events the collector accepted) and `StepGetSBOM` (which gains the `getSBOM` outcome if it had room) then stand one iteration further on (`SessionAt`); a nil result comes only from a tick and keeps the loop's invariant (`Monitoring`); any other result ends the session there (`SessionEnd`: parked on a blocked `select`, stopped on an error) as `SessionResults` requires; aggregation keeps running |
| ContainerMainHandler.ContainerHandler.MonitorContainer | pkg/conthandler/container_main_handler.go:144-156 | the loop runs iteration after iteration while every `startTimer` result is a nil tick; each iteration's `select` faces the state the one before left, and its result is what that `select` yields there (`SessionAt`); the loop ends at the first `select` that blocks or the first error, with that error (`SessionResults`); the ticker, the job queue (which gains exactly the jobs the ticks queued, `QueuedBy`), the aggregator channel, the buffer (the start buffer plus each iteration's accepted events in order, `BufferAfter`) and `StepGetSBOM` (each iteration's `getSBOM` outcome while it had room, `SentAfter`) end as the iterations left them; aggregation keeps running |
| ContainerMainHandler.ContainerHandler.RunSession | pkg/conthandler/container_main_handler.go:144-152 | the session of `MonitorContainer`, with its trace, results and state (`SessionAt`); an error stops aggregation and anything else leaves it running; with only drop-marker errors pending at the start, an error is the missed-events error with the ticker stopped |
| ContainerMainHandler.ContainerHandler.StartRelevancyProcess | pkg/conthandler/container_main_handler.go:128-157 | a lookup miss returns with no effect; otherwise aggregation starts and the buffer gains the cached events; when the time bound holds the loop leaves only through an error from `startTimer` (`SessionResults`: every earlier result was a nil tick, and the first non-nil result ends the session with that error); each result is what its `select` yields in the state the iterations before left, starting from the record's ticker, job queue, aggregator channel, buffer and `StepGetSBOM` as they were (`SessionAt`), and those end as the iterations left them; that error stops aggregation and deletes exactly that container's entry; without an error the table is unchanged; the job queue gains exactly the jobs the ticks queued; with only drop-marker errors pending at the start, an error is the missed-events error with the ticker stopped |
| ContainerMainHandler.ContainerHandler.FinishJob | pkg/conthandler/container_main_handler.go:83-99 | once the fetched outcome is received, the filter and store steps give exactly `RunJob` for a requested job with a record |
| ContainerMainHandler.ContainerHandler.AfterTimerActionsStep | pkg/conthandler/container_main_handler.go:71-100 | a worker waiting on a job resumes it once an outcome is on its `StepGetSBOM` channel; otherwise it takes the head job off the queue, looks it up and, for a requested job, reads the file list before it receives; on an empty channel it keeps the job, the file list and the instance ID hash it read, and the channel, and blocks; a finished job's outcome is `RunJob` on what it read (`record`: the resumed job's inputs, or its container's record as the step found it), the flag (on for a resumed job) and the outcome it received (`fetched`); the channel is read only for a requested job; the table is never changed |
| ContainerMainHandler.ContainerHandler.AfterTimerActionsStepOn | pkg/conthandler/container_main_handler.go:71-100 | the same step seen from the loop: the containers' records stay as they were (`RecordsTable`); a finished job is the first pending job and leaves the pending jobs, with `RunJob` of the resumed job's inputs or its container's record; a step that finishes nothing leaves the pending jobs as they were, and either none is pending or the worker waits on an empty `StepGetSBOM` channel |
| ContainerMainHandler.ContainerHandler.AfterTimerActionsIteration | pkg/conthandler/container_main_handler.go:71-101 | a step that finishes a job moves the worker one job further on: the reports gain that job's (`JobsReported`), the rest stay pending, and the records stay as they were (`WorkerAt`); a step that finishes nothing finds no job pending or waits on an empty `StepGetSBOM` channel |
| ContainerMainHandler.ContainerHandler.AfterTimerActions | pkg/conthandler/container_main_handler.go:68-102 | jobs are finished one at a time in the order they were queued, starting with the one the worker waits on; each finished job's report is `RunJob` on its container's record as it was when the loop started (or on the inputs read for the job the worker waited on, with the flag on), the flag its step read and the SBOM outcome it received (`JobsReported`); the unfinished jobs stay pending; the loop stops before its inputs run out only when no job is left or the worker waits on an empty `StepGetSBOM` channel; the table is never changed |
| ContainerMainHandler.JobsReportedExtend | pkg/conthandler/container_main_handler.go:68-100 | one more step that finishes the next pending job as `RunJob` says extends the reports |
| ContainerMainHandler.JobsReportedEach | pkg/conthandler/container_main_handler.go:68-100 | the reports cover at most the pending jobs, and step `k` finished the `k`-th pending job with the report `RunJob` gives for its record, flag and fetched outcome |

## Left out

- `StartMainHandler` (`container_main_handler.go:202-214`) is not modelled. It only starts the goroutines and feeds each queued lifecycle event to `handleNewContainerEvent`, which is modelled.
- `CreateContainerHandler`'s call to `CreateContainerWatcher` and its error return are not modelled. The container watcher is not part of this model, and the constructor models the handler it returns.
- The `aggregationDataChan` field and the accumulator goroutine it connects to are not modelled. Each collector run takes its events as a parameter instead.
- The internals of the `event_data_storage` (accumulator) and `ebpfev` packages are not modelled because their code is not part of this model.
  - `aggregateFromCacheAccumulator` is modelled as appending a given sequence of cached events.
  - The literal value of `DropEventOccurred` is a placeholder constant. Only the test for equality with it matters.
- The SBOM client (`sbom` package) is not modelled. Its three calls are recorded as `ClientCall`s, and their outcomes are parameters. Any state the client keeps between calls is not modelled.
- The configuration package and `time` are not modelled. The update period, the maximum sniffing time, the relevancy flag and the current time are parameters, and a ticker is only "running" or "stopped".
- Concurrency is not modelled:
  - goroutine scheduling;
  - the real nondeterminism of `select`;
  - the race between the collector's appends and `GetContainerRealtimeFileList`;
  - the `sync.Map` memory model.

  Each session iteration runs `getSBOM`, then the collector, then `startTimer`.
- ContainerMainHandler.ContainerHandler.SessionIteration: a `getSBOM` send that would block on a full `StepGetSBOM` channel is dropped. In Go that goroutine waits and delivers its outcome once the channel has room.
- ContainerMainHandler.ContainerHandler.StartRelevancyProcess: the loop runs over a finite sequence of iteration inputs. It cannot show the unbounded run that Go performs when no error ever comes. It also does not model `StartAggregate`'s error return, because `StartAggregate` always returns nil.
- ContainerMainHandler.ContainerHandler.MonitorContainer: a session reads the relevancy flag once, from one `Config`. Go reads it again on every tick (`container_main_handler.go:108`), so a change of configuration in the middle of a session is not modelled.
- ContainerMainHandler.ContainerHandler.MonitorContainer: a session parked in its `select` (`ParkedInSelect`) is never resumed. In Go, a `startTimer` whose tick blocks on the full job queue (`container_main_handler.go:109`) carries on once the worker frees a slot, and the session goes on.
- ContainerMainHandler.ContainerHandler.AfterTimerActions: the SBOM outcome each finished job received (`fetched`) is tied to its container's `StepGetSBOM` channel step by step (`AfterTimerActionsStep`). The loop's contract does not say which channel contents these outcomes came from, since `getSBOM` sessions run between the steps in Go.
- The sequential model runs each call to completion, so it cannot show one interleaving Go allows: a session's fatal exit deletes the table entry by container ID, so if a later running event for the same ID replaced the record while the session ran, the old session deletes the new record.
- ContainerMainHandler.ContainerHandler.StartRelevancyProcess: the missed-events conclusion is stated only for the case where the aggregator channel holds nothing but drop-marker errors. That is the case when the collector is its only sender. Every non-nil error is proved fatal regardless.
- ContainerMainHandler.ContainerHandler.HandleContainerRunningEvent: requires the container ID to have a short ID and the ticker period to be positive. The Go code otherwise panics in `getShortContainerID` or in `time.NewTicker`.
- ContainerMainHandler.ContainerHandler.HandleNewContainerEvent: has the same requirements for a running event, for the same reason.
- ContainerMainHandler.Ticker.constructor: requires a positive period, because `time.NewTicker` panics otherwise.
- ContainerMainHandler.GetShortContainerID: container IDs are treated as ASCII text. Go slices and measures them in bytes, and the model counts characters; the two agree on ASCII IDs.
- ContainerAggregator.Aggregator.StopAggregate: requires an attached accumulator. The Go code calls a method on a nil interface otherwise, and panics.
- Logging and log message contents are not modelled. Each relevancy job's log branch is the `JobLog` value instead.
- The Kubernetes storage client (`pkg/storage/v1/storage.go`) and the configuration interface are not modelled. They are I/O and interface declarations.
