/** The container lifecycle handler (pkg/conthandler/container_main_handler.go),
    seen sequentially.

    `ContainerHandler` keeps the table of watched containers (a `sync.Map` in
    Go, a `map` field here) and the queue of relevancy jobs. Each goroutine's
    work is a method that runs to completion or stops where Go would block;
    the choice a `select` makes, the time, the configuration and the outcomes
    of the SBOM client are parameters. */
module ContainerMainHandler {
  import opened Wrappers
  import opened Channels
  import opened Strings
  import opened ContainerAggregator

  const RelevantCVEsService: string := "RelevantCVEsService"

  /** Capacity of the two per-container sync channels. */
  const SyncChannelCapacity: nat := 10
  /** Capacity of the lifecycle event queue and of the relevancy job queue. */
  const QueueCapacity: nat := 50

  /** The error `startTimer` returns in place of a drop marker's error. */
  const MissedEventsMessage: string :=
    "we have missed some kernel events, we are going to stop all current containers monitoring"

  const ContainerIDSeparator: string := "://"

  /** The configuration values the handler reads, each time it reads them:
      the ticker period, the maximum monitoring time and the relevancy flag. */
  datatype Config = Config(updateDataPeriod: int, sniffingMaxTimes: int, relevantCVEServiceEnabled: bool)

  datatype ContainerEventType = ContainerRunning | OtherContainerEvent

  /** A lifecycle event (`v1.ContainerEventData`); `imageHash` is what
      `GetImageHash()` returns. */
  datatype ContainerEventData = ContainerEventData(
    containerID: string,
    containerName: string,
    k8sWorkloadID: string,
    instanceID: string,
    instanceIDHash: string,
    imageHash: Result<string>,
    eventType: ContainerEventType)

  /** The SBOM client of one container, scoped at creation to its workload
      and instance. What it holds between calls is not modelled; each call's
      outcome is a parameter. */
  datatype SBOMClientScope = SBOMStorageClient(k8sWorkloadID: string, instanceID: string)

  /** A call made on a container's SBOM client. */
  datatype ClientCall =
    | GetSBOMCall(imageHash: string)
    | FilterSBOMCall(fileList: map<string, bool>)
    | StoreFilterSBOMCall(instanceIDHash: string)

  /** A periodic ticker; only whether it was stopped matters here. */
  class Ticker {
    const period: int
    var stopped: bool

    /** `time.NewTicker(period)`, which panics unless the period is
        positive. */
    constructor (period: int)
      requires period > 0
      ensures this.period == period && !stopped
    {
      this.period := period;
      stopped := false;
    }

    /** `ticker.Stop()`: no tick fires afterwards. */
    method Stop()
      modifies this
      ensures stopped
    {
      stopped := true;
    }
  }

  /** `watchedContainerData`. Go's `syncChannel` map has exactly two keys,
      `StepGetSBOM` and `StepEventAggregator`; they are the two channel fields
      here. The record is a value, but its aggregator, ticker and channels are
      shared objects, as in Go. */
  datatype WatchedContainerData = WatchedContainerData(
    containerAggregator: Aggregator,
    snifferTicker: Ticker,
    event: ContainerEventData,
    stepGetSBOM: Channel<Option<Error>>,
    stepEventAggregator: Channel<Error>,
    sbomClient: SBOMClientScope)
  {
    function Objects(): set<object>
    {
      {containerAggregator, snifferTicker, stepGetSBOM, stepEventAggregator}
    }
  }

  /** `afterTimerActionsData`: a relevancy job. */
  datatype AfterTimerActionsData = AfterTimerActionsData(containerID: string, service: string)

  /** `getShortContainerID` indexes `cont[1][:12]`, which panics unless the ID
      has a "://" and at least 12 characters follow it before the next one. */
  predicate HasShortContainerID(containerID: string)
  {
    var parts := Split(containerID, ContainerIDSeparator);
    |parts| >= 2 && |parts[1]| >= 12
  }

  /** `getShortContainerID`: the first 12 characters right after the first
      "://" of the ID; they hold no "://". */
  function GetShortContainerID(containerID: string): (r: string)
    requires HasShortContainerID(containerID)
    ensures |r| == 12 && Free(r, ContainerIDSeparator)
    ensures IndexFrom(containerID, ContainerIDSeparator, 0).Some?
    ensures var i := IndexFrom(containerID, ContainerIDSeparator, 0).value;
      i + 15 <= |containerID| && containerID[i + 3..i + 15] == r
  {
    var parts := Split(containerID, ContainerIDSeparator);
    SplitFirstPieces(containerID, ContainerIDSeparator);
    SplitPiecesFree(containerID, ContainerIDSeparator);
    PrefixOfFreeIsFree(parts[1], 12, ContainerIDSeparator);
    parts[1][..12]
  }

  lemma PrefixOfFreeIsFree(s: string, n: nat, sep: string)
    requires n <= |s| && Free(s, sep)
    ensures Free(s[..n], sep)
  {
    forall j: nat | OccursAt(s[..n], sep, j)
      ensures false
    {
      assert s[..n][j..j + |sep|] == s[j..j + |sep|];
      assert OccursAt(s, sep, j);
    }
  }

  /** A "://" cannot start inside `prefix` and end inside the separator that
      follows it, because ':' is not one of the separator's last two
      characters. */
  lemma NoOccurrenceBeforeSeparator(prefix: string, rest: string)
    requires Free(prefix, ContainerIDSeparator)
    ensures forall j: nat :: j < |prefix| ==> !OccursAt(prefix + ContainerIDSeparator + rest, ContainerIDSeparator, j)
  {
    var s := prefix + ContainerIDSeparator + rest;
    forall j: nat | j < |prefix|
      ensures !OccursAt(s, ContainerIDSeparator, j)
    {
      if j + 3 <= |prefix| {
        assert s[j..j + 3] == prefix[j..j + 3];
        assert !OccursAt(prefix, ContainerIDSeparator, j);
      } else if j + 3 <= |s| {
        var k := |prefix| - j;
        assert s[j..j + 3][k] == ':';
        assert ContainerIDSeparator[k] == '/';
        assert s[j..j + 3] != ContainerIDSeparator;
      }
    }
  }

  /** For a runtime-prefixed ID such as "containerd://" followed by a hex
      digest, the short ID is the first 12 characters of the digest. */
  lemma ShortIDOfPrefixedID(prefix: string, digest: string)
    requires Free(prefix, ContainerIDSeparator) && Free(digest, ContainerIDSeparator)
    requires |digest| >= 12
    ensures Split(prefix + ContainerIDSeparator + digest, ContainerIDSeparator) == [prefix, digest]
    ensures HasShortContainerID(prefix + ContainerIDSeparator + digest)
    ensures GetShortContainerID(prefix + ContainerIDSeparator + digest) == digest[..12]
  {
    var sep := ContainerIDSeparator;
    var s := prefix + sep + digest;
    NoOccurrenceBeforeSeparator(prefix, digest);
    assert s[|prefix|..|prefix| + 3] == sep;
    IndexFromFindsFirst(s, sep, 0, |prefix|);
    assert s[..|prefix|] == prefix;
    assert s[|prefix| + 3..] == digest;
    assert IndexFrom(digest, sep, 0).None?;
    assert Split(digest, sep) == [digest];
    assert Split(s, sep) == [prefix] + Split(digest, sep);
  }

  /** What `getSBOM` sends on `StepGetSBOM`, and the client calls it makes,
      given the image hash and the outcome the client's `GetSBOM` would
      return. */
  datatype FetchReport = FetchReport(calls: seq<ClientCall>, outcome: Option<Error>)

  /** The body of `getSBOM` after the lookup: when the image hash cannot be
      had, `GetSBOM` is not called and that error is sent; otherwise
      `GetSBOM` is called once with the hash and its outcome is sent. */
  function FetchSBOM(imageHash: Result<string>, getSBOM: Option<Error>): (r: FetchReport)
    ensures |r.calls| <= 1
    ensures r.calls != [] <==> imageHash.Ok?
    ensures imageHash.Ok? ==> r.calls == [GetSBOMCall(imageHash.value)] && r.outcome == getSBOM
    ensures imageHash.Failure? ==> r.outcome == Some(imageHash.err)
  {
    match imageHash
    case Failure(e) => FetchReport([], Some(e))
    case Ok(hash) => FetchReport([GetSBOMCall(hash)], getSBOM)
  }

  /** What the client calls in one relevancy job return. */
  datatype SBOMOutcomes = SBOMOutcomes(filter: Option<Error>, store: Option<Error>)

  /** What the record of a job's container contributes to the job: the
      aggregator's file list and the event's instance ID hash. */
  datatype JobInputs = JobInputs(fileList: map<string, bool>, instanceIDHash: string)

  /** Which branch of `afterTimerActions` a job ends in (its log line). */
  datatype JobLog =
    | ContainerNotWatched
    | NotRequested
    | GetSBOMFailed(err: Error)
    | FilterSBOMFailed(err: Error)
    | AlreadyReported
    | StoreFilterSBOMFailed(err: Error)
    | StoredSuccessfully

  predicate IsWarning(log: JobLog)
  {
    log.ContainerNotWatched? || log.GetSBOMFailed? || log.FilterSBOMFailed? || log.StoreFilterSBOMFailed?
  }

  datatype JobReport = JobReport(calls: seq<ClientCall>, log: JobLog)

  /** A job does client work only when the relevancy service is enabled and
      the job is for that service. */
  predicate Requested(job: AfterTimerActionsData, serviceEnabled: bool)
  {
    serviceEnabled && job.service == RelevantCVEsService
  }

  /** The decision pipeline of one iteration of `afterTimerActions`, after
      the job was received: lookup, flag and service check, the fetched SBOM
      outcome (`fetched`), filter, store. `record` is None on a lookup miss. */
  function RunJob(job: AfterTimerActionsData, record: Option<JobInputs>, serviceEnabled: bool,
                  fetched: Option<Error>, client: SBOMOutcomes): (r: JobReport)
    ensures record.None? ==> r == JobReport([], ContainerNotWatched)
    ensures record.Some? && !Requested(job, serviceEnabled) ==> r == JobReport([], NotRequested)
    ensures r.calls != [] ==> record.Some? && Requested(job, serviceEnabled) && fetched.None?
    ensures r.calls != [] ==> r.calls[0] == FilterSBOMCall(record.value.fileList)
    ensures |r.calls| <= 2
    ensures |r.calls| == 2 <==> r.calls != [] && client.filter.None?
    ensures |r.calls| == 2 ==> r.calls[1] == StoreFilterSBOMCall(record.value.instanceIDHash)
    ensures r.log.GetSBOMFailed? <==> record.Some? && Requested(job, serviceEnabled) && fetched.Some?
    ensures r.log.GetSBOMFailed? ==> r.calls == [] && r.log.err == fetched.value
    ensures r.log.FilterSBOMFailed? ==> |r.calls| == 1 && r.log.err == client.filter.value
    ensures r.log == AlreadyReported <==> |r.calls| == 2 && client.store.Some? && client.store.value.alreadyExist
    ensures r.log.StoreFilterSBOMFailed? <==> |r.calls| == 2 && client.store.Some? && !client.store.value.alreadyExist
    ensures r.log == StoredSuccessfully <==> |r.calls| == 2 && client.store.None?
  {
    match record
    case None => JobReport([], ContainerNotWatched)
    case Some(inputs) =>
      if !Requested(job, serviceEnabled) then JobReport([], NotRequested)
      else if fetched.Some? then JobReport([], GetSBOMFailed(fetched.value))
      else
        var filter := FilterSBOMCall(inputs.fileList);
        if client.filter.Some? then JobReport([filter], FilterSBOMFailed(client.filter.value))
        else
          var calls := [filter, StoreFilterSBOMCall(inputs.instanceIDHash)];
          match client.store
          case None => JobReport(calls, StoredSuccessfully)
          case Some(e) =>
            if e.alreadyExist then JobReport(calls, AlreadyReported)
            else JobReport(calls, StoreFilterSBOMFailed(e))
  }

  /** "Already exists" on store is reported as information, never as a
      warning; every other failure along the pipeline is a warning. */
  lemma AlreadyExistIsNotAWarning(job: AfterTimerActionsData, record: Option<JobInputs>, serviceEnabled: bool,
                                  fetched: Option<Error>, client: SBOMOutcomes)
    requires record.Some? && Requested(job, serviceEnabled) && fetched.None? && client.filter.None?
    ensures var log := RunJob(job, record, serviceEnabled, fetched, client).log;
      (client.store.Some? && client.store.value.alreadyExist ==> !IsWarning(log)) &&
      (client.store.Some? && !client.store.value.alreadyExist ==> IsWarning(log))
  {
  }

  /** The `select` of `startTimer`: which ready case it takes. */
  datatype SelectChoice = TickerFired | AggregatorErrorReceived

  /** `SelectBlocked`: the chosen case could not go ahead (a stopped ticker,
      an empty aggregator channel, or a full job queue), so nothing happened. */
  datatype TimerResult = SelectBlocked | TimerReturned(err: Option<Error>)

  /** The inputs of one iteration of the session loop: the outcome the SBOM
      client's `GetSBOM` gives the `getSBOM` goroutine, the events the
      container's collector takes meanwhile, and the `select`'s choice. */
  datatype Iteration = Iteration(getSBOM: Option<Error>, collected: seq<EventClient>, choice: SelectChoice)

  /** How a run of `startRelevancyProcess` ended. */
  datatype SessionOutcome =
    | SessionContainerNotFound
    | TimeBoundNotMet
    | StillMonitoring
    | ParkedInSelect(iteration: nat)
    | StoppedOnError(iteration: nat, err: Error)

  /** One step of the `afterTimerActions` goroutine. `Idle`: no job queued.
      `AwaitingSBOM`: the job blocks on its container's `StepGetSBOM`
      channel; the step has taken it off the queue and the worker keeps it
      until an outcome arrives. */
  datatype WorkerStep =
    | Idle
    | AwaitingSBOM(job: AfterTimerActionsData)
    | Processed(job: AfterTimerActionsData, report: JobReport)

  /** The record a job for `containerID` is run on, given the containers'
      records `table`; None when the container is not watched. */
  function RecordIn(table: map<string, JobInputs>, containerID: string): Option<JobInputs>
  {
    if containerID in table then Some(table[containerID]) else None
  }

  /** Each record of `containers` as a job sees it: its realtime file list
      and the instance ID hash. */
  function RecordsTable(containers: map<string, WatchedContainerData>): map<string, JobInputs>
    reads set id | id in containers :: containers[id].containerAggregator
  {
    map id | id in containers ::
      JobInputs(RealtimeFileList(containers[id].containerAggregator.aggregationData), containers[id].event.instanceIDHash)
  }

  /** The worker steps `steps` each finished the job queued at their place
      in `jobs`, with the report `RunJob` gives for the fetched SBOM outcome
      `fetched[k]` and the client outcomes of step `k`. The first step
      finishes the job the worker was waiting on, if any, on the inputs it had
      read (`resumed`), with the flag on, since that job was requested; every
      other job is run on its container's record in `table`, with its step's
      flag. */
  ghost predicate JobsReported(steps: seq<WorkerStep>, fetched: seq<Option<Error>>, inputs: seq<(Config, SBOMOutcomes)>,
                               jobs: seq<AfterTimerActionsData>, resumed: Option<JobInputs>, table: map<string, JobInputs>)
    decreases |steps|
  {
    && |fetched| == |steps| <= |inputs|
    && |steps| <= |jobs|
    && (steps != [] ==>
          var n := |steps| - 1;
          var resuming := n == 0 && resumed.Some?;
          && JobsReported(steps[..n], fetched[..n], inputs, jobs, resumed, table)
          && steps[n].Processed?
          && steps[n].job == jobs[n]
          && steps[n].report == RunJob(jobs[n],
                                       if resuming then resumed else RecordIn(table, jobs[n].containerID),
                                       resuming || inputs[n].0.relevantCVEServiceEnabled, fetched[n], inputs[n].1))
  }

  /** One more finished step extends the reports: the job next in `jobs`,
      run on `record` with `flag`, where these are what the reports demand. */
  lemma {:induction false} JobsReportedExtend(steps: seq<WorkerStep>, fetched: seq<Option<Error>>,
                                              inputs: seq<(Config, SBOMOutcomes)>, jobs: seq<AfterTimerActionsData>,
                                              resumed: Option<JobInputs>, table: map<string, JobInputs>,
                                              step: WorkerStep, record: Option<JobInputs>, flag: bool, outcome: Option<Error>)
    requires JobsReported(steps, fetched, inputs, jobs, resumed, table)
    requires |steps| < |inputs| && |steps| < |jobs|
    requires var resuming := |steps| == 0 && resumed.Some?;
      && record == (if resuming then resumed else RecordIn(table, jobs[|steps|].containerID))
      && flag == (resuming || inputs[|steps|].0.relevantCVEServiceEnabled)
    requires step == Processed(jobs[|steps|], RunJob(jobs[|steps|], record, flag, outcome, inputs[|steps|].1))
    ensures JobsReported(steps + [step], fetched + [outcome], inputs, jobs, resumed, table)
  {
    assert (steps + [step])[..|steps|] == steps;
    assert (fetched + [outcome])[..|steps|] == fetched;
  }

  /** Every step the reports cover finished its job as `RunJob` says. */
  lemma {:induction false} JobsReportedEach(steps: seq<WorkerStep>, fetched: seq<Option<Error>>,
                                            inputs: seq<(Config, SBOMOutcomes)>, jobs: seq<AfterTimerActionsData>,
                                            resumed: Option<JobInputs>, table: map<string, JobInputs>)
    requires JobsReported(steps, fetched, inputs, jobs, resumed, table)
    ensures |steps| <= |jobs|
    ensures forall k :: 0 <= k < |steps| ==>
      var resuming := k == 0 && resumed.Some?;
      && steps[k].Processed? && steps[k].job == jobs[k]
      && steps[k].report == RunJob(jobs[k], if resuming then resumed else RecordIn(table, jobs[k].containerID),
                                   resuming || inputs[k].0.relevantCVEServiceEnabled, fetched[k], inputs[k].1)
    decreases |steps|
  {
    if steps != [] {
      var n := |steps| - 1;
      JobsReportedEach(steps[..n], fetched[..n], inputs, jobs, resumed, table);
    }
  }

  /** What the `select` of `startTimer` yields for the case `choice`, given
      whether the ticker was stopped, whether a tick queues a job (`enabled`)
      and onto a full queue (`queueFull`), and the errors pending on the
      aggregator channel. */
  function SelectResult(choice: SelectChoice, tickerStopped: bool, enabled: bool, queueFull: bool,
                        pending: seq<Error>): TimerResult
  {
    match choice
    case TickerFired =>
      if tickerStopped || (enabled && queueFull) then SelectBlocked else TimerReturned(None)
    case AggregatorErrorReceived =>
      if pending == [] then SelectBlocked
      else if pending[0].text == DropEventOccurred then TimerReturned(Some(Errorf(MissedEventsMessage)))
      else TimerReturned(Some(pending[0]))
  }

  /** The jobs a `select` that yielded `r` adds to the job queue. */
  function SelectQueued(choice: SelectChoice, r: TimerResult, containerID: string, enabled: bool)
    : seq<AfterTimerActionsData>
  {
    if choice == TickerFired && r == TimerReturned(None) && enabled
    then [AfterTimerActionsData(containerID, RelevantCVEsService)]
    else []
  }

  /** What is left on the aggregator channel after the `select`. */
  function SelectRemaining(choice: SelectChoice, pending: seq<Error>): seq<Error>
  {
    if choice == AggregatorErrorReceived && pending != [] then pending[1..] else pending
  }

  /** The jobs queued by the first `|results|` iterations of a session whose
      `startTimer` calls yielded `results`. */
  function QueuedBy(inputs: seq<Iteration>, results: seq<TimerResult>, containerID: string, enabled: bool)
    : seq<AfterTimerActionsData>
    requires |results| <= |inputs|
    decreases |results|
  {
    if results == [] then []
    else
      var n := |results| - 1;
      QueuedBy(inputs, results[..n], containerID, enabled) + SelectQueued(inputs[n].choice, results[n], containerID, enabled)
  }

  /** How the `startTimer` results `results` of a session's iterations, run
      over `inputs`, match the way the session ended: every result but the
      last is nil; a tick never yields an error and the aggregator case never
      yields nil; the session is still monitoring only when every input was
      a tick with a nil result; it parks at the iteration whose `select`
      blocked, and stops at the first error, with that error. */
  ghost predicate SessionResults(inputs: seq<Iteration>, outcome: SessionOutcome, results: seq<TimerResult>)
  {
    && |results| <= |inputs|
    && (forall k :: 0 <= k < |results| - 1 ==> results[k] == TimerReturned(None))
    && (forall k :: 0 <= k < |results| && inputs[k].choice == TickerFired ==>
          results[k] == SelectBlocked || results[k] == TimerReturned(None))
    && (forall k :: 0 <= k < |results| && inputs[k].choice == AggregatorErrorReceived ==>
          results[k] != TimerReturned(None))
    && (outcome == StillMonitoring ==>
          && |results| == |inputs|
          && (forall k :: 0 <= k < |results| ==> results[k] == TimerReturned(None))
          && (forall k :: 0 <= k < |inputs| ==> inputs[k].choice == TickerFired))
    && (outcome.ParkedInSelect? ==>
          |results| == outcome.iteration + 1 && results[outcome.iteration] == SelectBlocked)
    && (outcome.StoppedOnError? ==>
          |results| == outcome.iteration + 1 && results[outcome.iteration] == TimerReturned(Some(outcome.err)))
    && (results != [] && results[|results| - 1].TimerReturned? && results[|results| - 1].err.Some? ==>
          outcome == StoppedOnError(|results| - 1, results[|results| - 1].err.value))
  }

  /** While only drop markers' errors are pending on the aggregator channel,
      the `select` leaves only such errors there, and any error it returns is
      the missed-events error, received together with stopping the ticker. */
  lemma SelectOnDropsOnly(choice: SelectChoice, tickerStopped: bool, enabled: bool, queueFull: bool,
                          pending: seq<Error>)
    requires forall e :: e in pending ==> e == DropError()
    ensures forall e :: e in SelectRemaining(choice, pending) ==> e == DropError()
    ensures var r := SelectResult(choice, tickerStopped, enabled, queueFull, pending);
      r.TimerReturned? && r.err.Some? ==> r.err.value == Errorf(MissedEventsMessage) && SelectStopsTicker(choice, pending)
  {
    if choice == AggregatorErrorReceived && pending != [] {
      assert pending[0] in pending;
      assert forall e :: e in pending[1..] ==> e in pending;
    }
  }

  /** Every iteration that yielded `results` was a tick with a nil result. */
  ghost predicate NilTicks(inputs: seq<Iteration>, results: seq<TimerResult>)
  {
    && |results| <= |inputs|
    && forall k :: 0 <= k < |results| ==> results[k] == TimerReturned(None) && inputs[k].choice == TickerFired
  }

  /** One more tick with a nil result keeps `NilTicks`. */
  lemma NilTicksExtend(inputs: seq<Iteration>, results: seq<TimerResult>, r: TimerResult)
    requires NilTicks(inputs, results) && |results| < |inputs|
    requires r == TimerReturned(None) && inputs[|results|].choice == TickerFired
    ensures NilTicks(inputs, results + [r])
  {
  }

  /** How a session ends at its iteration `i`, whose `startTimer` result
      `r` is not nil: parked in the `select`, or stopped on the error. */
  function SessionEnd(i: nat, r: TimerResult): SessionOutcome
    requires r != TimerReturned(None)
  {
    if r.SelectBlocked? then ParkedInSelect(i) else StoppedOnError(i, r.err.value)
  }

  /** A session whose earlier iterations were ticks with nil results ends
      at the next iteration that parks or fails. */
  lemma SessionEndsAt(inputs: seq<Iteration>, prefix: seq<TimerResult>, r: TimerResult)
    requires |prefix| < |inputs|
    requires forall k :: 0 <= k < |prefix| ==> prefix[k] == TimerReturned(None) && inputs[k].choice == TickerFired
    requires inputs[|prefix|].choice == TickerFired ==> r == SelectBlocked || r == TimerReturned(None)
    requires r != TimerReturned(None)
    ensures SessionResults(inputs, SessionEnd(|prefix|, r), prefix + [r])
  {
    if r.TimerReturned? {
      assert r.err.Some?;
      assert r == TimerReturned(Some(r.err.value));
    }
  }

  /** A session whose every iteration was a tick with a nil result is still
      monitoring. */
  lemma SessionRunsThrough(inputs: seq<Iteration>, results: seq<TimerResult>)
    requires |results| == |inputs|
    requires forall k :: 0 <= k < |results| ==> results[k] == TimerReturned(None) && inputs[k].choice == TickerFired
    ensures SessionResults(inputs, StillMonitoring, results)
  {
  }

  /** One more iteration adds the jobs its `select` queued. */
  lemma QueuedByExtend(inputs: seq<Iteration>, results: seq<TimerResult>, r: TimerResult,
                       containerID: string, enabled: bool)
    requires |results| < |inputs|
    ensures QueuedBy(inputs, results + [r], containerID, enabled) ==
      QueuedBy(inputs, results, containerID, enabled) + SelectQueued(inputs[|results|].choice, r, containerID, enabled)
  {
    assert (results + [r])[..|results|] == results;
  }

  /** What the `select` of one iteration faced: whether the ticker was
      stopped and the job queue full, and the errors pending on the
      aggregator channel once the collector had taken the first `consumed`
      events the iteration received. */
  datatype SelectState = SelectState(tickerStopped: bool, queueFull: bool, consumed: nat, pending: seq<Error>)

  /** Where a session starts from: the ticker, the job queue and its
      capacity, the errors already on the aggregator channel and its
      capacity, the aggregator's buffer, and the outcomes already on
      `StepGetSBOM` and its capacity. */
  datatype SessionStart = SessionStart(tickerStopped: bool, queue: seq<AfterTimerActionsData>, capacity: nat,
                                       unsent: seq<Error>, errCapacity: nat, buffer: seq<EventClient>,
                                       fetched: seq<Option<Error>>, fetchCapacity: nat)

  /** An iteration that starts with the ticker, job queue and aggregator
      channel (of capacity `errCapacity`) as `tickerStopped`, `queueFull` and
      `unsent` reaches its `select` in state `s`: the collector took events
      until they ran out or a drop marker met a full channel, adding one
      error per marker taken. */
  ghost predicate FacesSelect(input: Iteration, tickerStopped: bool, queueFull: bool, unsent: seq<Error>,
                              errCapacity: nat, s: SelectState)
  {
    && s.tickerStopped == tickerStopped
    && s.queueFull == queueFull
    && s.consumed <= |input.collected|
    && (s.consumed < |input.collected| ==> IsDropEvent(input.collected[s.consumed]) && |s.pending| >= errCapacity)
    && s.pending == unsent + DropErrors(input.collected[..s.consumed])
  }

  /** A collector whose aggregator channel has room for one error per
      event it is given takes them all: a drop marker ends its run only when
      it faces a full channel. */
  lemma CollectorTakesAllWithRoom(input: Iteration, tickerStopped: bool, queueFull: bool, unsent: seq<Error>,
                                  errCapacity: nat, s: SelectState)
    requires FacesSelect(input, tickerStopped, queueFull, unsent, errCapacity, s)
    requires |unsent| + |input.collected| <= errCapacity
    ensures s.consumed == |input.collected|
    ensures s.pending == unsent + DropErrors(input.collected)
  {
    assert |DropErrors(input.collected[..s.consumed])| <= s.consumed;
    assert input.collected[..|input.collected|] == input.collected;
  }

  /** A session that starts with nothing on the aggregator channel and
      whose first iteration collects a drop marker and then receives from
      that channel ends there on the missed-events error. */
  lemma DropMarkerWithRoomEndsSession(inputs: seq<Iteration>, outcome: SessionOutcome, results: seq<TimerResult>,
                                      states: seq<SelectState>, start: SessionStart, containerID: string,
                                      enabled: bool, marker: EventClient)
    requires SessionTrace(inputs, results, states, start, containerID, enabled)
    requires SessionResults(inputs, outcome, results)
    requires outcome.StillMonitoring? || outcome.ParkedInSelect? || outcome.StoppedOnError?
    requires inputs != [] && inputs[0].collected == [marker] && IsDropEvent(marker)
    requires inputs[0].choice == AggregatorErrorReceived
    requires start.unsent == [] && start.errCapacity > 0
    ensures outcome == StoppedOnError(0, Errorf(MissedEventsMessage))
  {
    assert results != [];
    assert results[0] != TimerReturned(None);
    assert |results| == 1;
    assert results[..0] == [] && states[..0] == [];
    CollectorTakesAllWithRoom(inputs[0], start.tickerStopped, |start.queue| >= start.capacity, [],
                              start.errCapacity, states[0]);
    assert DropErrors([marker]) == [DropError()];
  }

  /** The events the collector took in an iteration that faced `s`. */
  function Taken(input: Iteration, s: SelectState): (r: seq<EventClient>)
    ensures r <= input.collected
  {
    if s.consumed <= |input.collected| then input.collected[..s.consumed] else input.collected
  }

  /** The aggregator's buffer after the iterations whose `select`s faced
      `states`: the collector appended the events it accepted, in order. */
  function BufferAfter(inputs: seq<Iteration>, states: seq<SelectState>, start: SessionStart): seq<EventClient>
    requires |states| <= |inputs|
  {
    if states == [] then start.buffer
    else
      var n := |states| - 1;
      BufferAfter(inputs, states[..n], start) + Accepted(Taken(inputs[n], states[n]))
  }

  /** The outcomes on `StepGetSBOM` after `n` iterations: each iteration's
      `getSBOM` sends its outcome when the channel has room, and nothing
      receives from it during the session. */
  function SentAfter(imageHash: Result<string>, inputs: seq<Iteration>, n: nat, start: SessionStart)
    : seq<Option<Error>>
    requires n <= |inputs|
  {
    if n == 0 then start.fetched
    else
      var before := SentAfter(imageHash, inputs, n - 1, start);
      if |before| >= start.fetchCapacity then before
      else before + [FetchSBOM(imageHash, inputs[n - 1].getSBOM).outcome]
  }

  /** One more iteration appends what its collector accepted to the buffer. */
  lemma BufferAfterExtend(inputs: seq<Iteration>, states: seq<SelectState>, start: SessionStart, s: SelectState)
    requires |states| < |inputs|
    ensures BufferAfter(inputs, states + [s], start)
            == BufferAfter(inputs, states, start) + Accepted(Taken(inputs[|states|], s))
  {
    assert (states + [s])[..|states|] == states;
  }

  /** A session of the container of `contEvent` from `start` whose
      iterations yielded `results` and faced `states` leaves the ticker, the
      job queue and the aggregator channel as `SessionStands` says, the
      aggregator's buffer as `buffer` and `StepGetSBOM` as `fetched`. */
  ghost predicate SessionHolds(inputs: seq<Iteration>, results: seq<TimerResult>, states: seq<SelectState>,
                               start: SessionStart, contEvent: ContainerEventData, enabled: bool,
                               tickerStopped: bool, queue: seq<AfterTimerActionsData>, unsent: seq<Error>,
                               buffer: seq<EventClient>, fetched: seq<Option<Error>>)
  {
    && SessionStands(inputs, results, states, start, contEvent.containerID, enabled, tickerStopped, queue, unsent)
    && |states| <= |inputs|
    && buffer == BufferAfter(inputs, states, start)
    && fetched == SentAfter(contEvent.imageHash, inputs, |states|, start)
  }

  /** One more iteration, whose `getSBOM` sent its outcome when
      `StepGetSBOM` had room and whose `select` faced the state `s` reached
      from where the session stands, moves the session on by its result `r`
      and by the events its collector accepted. */
  lemma SessionHoldsExtend(inputs: seq<Iteration>, results: seq<TimerResult>, states: seq<SelectState>,
                           start: SessionStart, contEvent: ContainerEventData, enabled: bool,
                           tickerStopped: bool, queue: seq<AfterTimerActionsData>, unsent: seq<Error>,
                           buffer: seq<EventClient>, fetched: seq<Option<Error>>, r: TimerResult, s: SelectState)
    requires SessionHolds(inputs, results, states, start, contEvent, enabled, tickerStopped, queue, unsent,
                          buffer, fetched)
    requires |results| < |inputs|
    requires FacesSelect(inputs[|results|], tickerStopped, |queue| >= start.capacity, unsent, start.errCapacity, s)
    requires r == SelectResult(inputs[|results|].choice, s.tickerStopped, enabled, s.queueFull, s.pending)
    ensures var input := inputs[|results|];
      SessionHolds(inputs, results + [r], states + [s], start, contEvent, enabled,
                   s.tickerStopped || SelectStopsTicker(input.choice, s.pending),
                   queue + SelectQueued(input.choice, r, contEvent.containerID, enabled),
                   SelectRemaining(input.choice, s.pending),
                   buffer + Accepted(input.collected[..s.consumed]),
                   fetched + if |fetched| < start.fetchCapacity
                             then [FetchSBOM(contEvent.imageHash, input.getSBOM).outcome] else [])
  {
    SessionStandsExtend(inputs, results, states, start, contEvent.containerID, enabled,
                        tickerStopped, queue, unsent, r, s);
    BufferAfterExtend(inputs, states, start, s);
  }

  /** Whether the ticker is stopped after the iterations whose `select`s
      faced `states`. */
  function TickerAfter(inputs: seq<Iteration>, states: seq<SelectState>, start: SessionStart): bool
    requires |states| <= |inputs|
  {
    if states == [] then start.tickerStopped
    else
      var n := |states| - 1;
      states[n].tickerStopped || SelectStopsTicker(inputs[n].choice, states[n].pending)
  }

  /** The errors left on the aggregator channel after the iterations whose
      `select`s faced `states`. */
  function UnsentAfter(inputs: seq<Iteration>, states: seq<SelectState>, start: SessionStart): seq<Error>
    requires |states| <= |inputs|
  {
    if states == [] then start.unsent
    else
      var n := |states| - 1;
      SelectRemaining(inputs[n].choice, states[n].pending)
  }

  /** The iterations of a session from `start` whose `startTimer` calls
      yielded `results` faced the `select` states `states`, each reached
      from the state the iteration before left; each result is what the
      `select` does in its state. */
  ghost predicate SessionTrace(inputs: seq<Iteration>, results: seq<TimerResult>, states: seq<SelectState>,
                               start: SessionStart, containerID: string, enabled: bool)
    decreases |results|
  {
    && |states| == |results| <= |inputs|
    && (results != [] ==>
          var n := |results| - 1;
          && SessionTrace(inputs, results[..n], states[..n], start, containerID, enabled)
          && FacesSelect(inputs[n], TickerAfter(inputs, states[..n], start),
                         |start.queue + QueuedBy(inputs, results[..n], containerID, enabled)| >= start.capacity,
                         UnsentAfter(inputs, states[..n], start), start.errCapacity, states[n])
          && results[n] == SelectResult(inputs[n].choice, states[n].tickerStopped, enabled,
                                        states[n].queueFull, states[n].pending))
  }

  /** A session from `start` whose iterations yielded `results` and faced
      `states` leaves the ticker stopped or not as `tickerStopped`, the job
      queue as `queue` and the aggregator channel as `unsent`. */
  ghost predicate SessionStands(inputs: seq<Iteration>, results: seq<TimerResult>, states: seq<SelectState>,
                                start: SessionStart, containerID: string, enabled: bool,
                                tickerStopped: bool, queue: seq<AfterTimerActionsData>, unsent: seq<Error>)
  {
    && SessionTrace(inputs, results, states, start, containerID, enabled)
    && tickerStopped == TickerAfter(inputs, states, start)
    && unsent == UnsentAfter(inputs, states, start)
    && queue == start.queue + QueuedBy(inputs, results, containerID, enabled)
  }

  /** One more iteration, whose `select` faces the state `s` reached from
      where the session stands, moves the session on by its result `r`. */
  lemma SessionStandsExtend(inputs: seq<Iteration>, results: seq<TimerResult>, states: seq<SelectState>,
                            start: SessionStart, containerID: string, enabled: bool,
                            tickerStopped: bool, queue: seq<AfterTimerActionsData>, unsent: seq<Error>,
                            r: TimerResult, s: SelectState)
    requires SessionStands(inputs, results, states, start, containerID, enabled, tickerStopped, queue, unsent)
    requires |results| < |inputs|
    requires FacesSelect(inputs[|results|], tickerStopped, |queue| >= start.capacity, unsent, start.errCapacity, s)
    requires r == SelectResult(inputs[|results|].choice, s.tickerStopped, enabled, s.queueFull, s.pending)
    ensures var choice := inputs[|results|].choice;
      SessionStands(inputs, results + [r], states + [s], start, containerID, enabled,
                    s.tickerStopped || SelectStopsTicker(choice, s.pending),
                    queue + SelectQueued(choice, r, containerID, enabled), SelectRemaining(choice, s.pending))
  {
    QueuedByExtend(inputs, results, r, containerID, enabled);
    SessionTraceExtend(inputs, results, states, start, containerID, enabled, r, s);
  }

  /** A session that starts with only drop markers' errors on the
      aggregator channel keeps only such errors there, and any error one of
      its `select`s returns is the missed-events error, received together
      with stopping the ticker. */
  lemma {:induction false} SessionOnDropsOnly(inputs: seq<Iteration>, results: seq<TimerResult>,
                                              states: seq<SelectState>, start: SessionStart,
                                              containerID: string, enabled: bool)
    requires SessionTrace(inputs, results, states, start, containerID, enabled)
    requires forall e :: e in start.unsent ==> e == DropError()
    ensures forall e :: e in UnsentAfter(inputs, states, start) ==> e == DropError()
    ensures results != [] && results[|results| - 1].TimerReturned? && results[|results| - 1].err.Some? ==>
      && TickerAfter(inputs, states, start)
      && results[|results| - 1].err.value == Errorf(MissedEventsMessage)
    decreases |results|
  {
    if results != [] {
      var n := |results| - 1;
      SessionOnDropsOnly(inputs, results[..n], states[..n], start, containerID, enabled);
      var s := states[n];
      var unsent := UnsentAfter(inputs, states[..n], start);
      var collected := inputs[n].collected[..s.consumed];
      DropErrorsAreDropErrors(collected);
      assert forall e :: e in s.pending ==> e in unsent || e in DropErrors(collected);
      SelectOnDropsOnly(inputs[n].choice, s.tickerStopped, enabled, s.queueFull, s.pending);
    }
  }

  /** One more iteration, reaching its `select` from where the session
      stands, extends the trace. */
  lemma {:induction false} SessionTraceExtend(inputs: seq<Iteration>, results: seq<TimerResult>,
                                              states: seq<SelectState>, start: SessionStart,
                                              containerID: string, enabled: bool, r: TimerResult, s: SelectState)
    requires SessionTrace(inputs, results, states, start, containerID, enabled)
    requires |results| < |inputs|
    requires FacesSelect(inputs[|results|], TickerAfter(inputs, states, start),
                         |start.queue + QueuedBy(inputs, results, containerID, enabled)| >= start.capacity,
                         UnsentAfter(inputs, states, start), start.errCapacity, s)
    requires r == SelectResult(inputs[|results|].choice, s.tickerStopped, enabled, s.queueFull, s.pending)
    ensures SessionTrace(inputs, results + [r], states + [s], start, containerID, enabled)
  {
    assert (results + [r])[..|results|] == results;
    assert (states + [s])[..|states|] == states;
  }

  /** A tick never yields an error, and the aggregator case never yields
      nil. */
  lemma SelectResultByChoice(choice: SelectChoice, tickerStopped: bool, enabled: bool, queueFull: bool,
                             pending: seq<Error>)
    ensures var r := SelectResult(choice, tickerStopped, enabled, queueFull, pending);
      && (choice == TickerFired ==> r == SelectBlocked || r == TimerReturned(None))
      && (choice == AggregatorErrorReceived ==> r != TimerReturned(None))
  {
  }

  /** The `select` receives a drop marker's error, which stops the ticker. */
  predicate SelectStopsTicker(choice: SelectChoice, pending: seq<Error>)
  {
    choice == AggregatorErrorReceived && pending != [] && pending[0].text == DropEventOccurred
  }

  /** A job the `afterTimerActions` worker has taken off the queue and is
      blocked on: the record's file list and instance ID hash it already
      read, and the `StepGetSBOM` channel it waits on. */
  datatype WaitingJob = WaitingJob(job: AfterTimerActionsData, inputs: JobInputs, fetch: Channel<Option<Error>>)

  /** Only drop markers' errors are waiting on the aggregator channel, as
      when the collector is its only sender. */
  ghost predicate DropsOnly(ch: Channel<Error>)
    reads ch
  {
    forall e :: e in ch.items ==> e == DropError()
  }

  /** The parts of a fresh record that `handleContainerRunningEvent` fixes. */
  ghost predicate IsNewRecord(w: WatchedContainerData, contEvent: ContainerEventData, config: Config)
    reads w.Objects()
  {
    && HasShortContainerID(contEvent.containerID)
    && w.event == contEvent
    && w.sbomClient == SBOMStorageClient(contEvent.k8sWorkloadID, contEvent.instanceID)
    && w.containerAggregator.containerID == GetShortContainerID(contEvent.containerID)
    && w.containerAggregator.aggregationData == []
    && w.containerAggregator.containerAccumulator == Detached
    && w.snifferTicker.period == config.updateDataPeriod && !w.snifferTicker.stopped
    && w.stepGetSBOM.capacity == SyncChannelCapacity && w.stepGetSBOM.items == []
    && w.stepEventAggregator.capacity == SyncChannelCapacity && w.stepEventAggregator.items == []
  }

  class ContainerHandler {
    var watchedContainers: map<string, WatchedContainerData>
    const containersEventChan: Channel<ContainerEventData>
    const afterTimerActionsChannel: Channel<AfterTimerActionsData>
    /** Where the `afterTimerActions` goroutine is blocked on `StepGetSBOM`,
        if it is. */
    var waiting: Option<WaitingJob>

    /** `CreateContainerHandler` once its container watcher exists: an empty
        table and two empty queues of capacity 50. */
    constructor ()
      ensures watchedContainers == map[] && waiting == None
      ensures fresh(containersEventChan) && fresh(afterTimerActionsChannel)
      ensures containersEventChan.capacity == QueueCapacity && containersEventChan.items == []
      ensures afterTimerActionsChannel.capacity == QueueCapacity && afterTimerActionsChannel.items == []
    {
      watchedContainers := map[];
      waiting := None;
      containersEventChan := new Channel(QueueCapacity);
      afterTimerActionsChannel := new Channel(QueueCapacity);
    }

    /** The objects of the record of `containerID`, if there is one. */
    function RecordObjects(containerID: string): set<object>
      reads this
    {
      if containerID in watchedContainers then watchedContainers[containerID].Objects() else {}
    }

    /** The `StepGetSBOM` channel of the record of `containerID`, if any. */
    function FetchChannelOf(containerID: string): set<Channel<Option<Error>>>
      reads this
    {
      if containerID in watchedContainers then {watchedContainers[containerID].stepGetSBOM} else {}
    }

    /** The `StepGetSBOM` channels of all records. */
    function FetchChannels(): set<Channel<Option<Error>>>
      reads this
    {
      set id | id in watchedContainers :: watchedContainers[id].stepGetSBOM
    }

    /** The `StepGetSBOM` channel of the container of the job at the head of
        the job queue. */
    function HeadJobFetchChannel(): set<Channel<Option<Error>>>
      reads this, afterTimerActionsChannel
    {
      if afterTimerActionsChannel.items == [] then {}
      else FetchChannelOf(afterTimerActionsChannel.items[0].containerID)
    }

    /** What the record of `containerID` contributes to a job, if there is a
        record. */
    function JobInputsOf(containerID: string): Option<JobInputs>
      reads this, if containerID in watchedContainers then {watchedContainers[containerID].containerAggregator} else {}
    {
      if containerID in watchedContainers then
        var w := watchedContainers[containerID];
        Some(JobInputs(RealtimeFileList(w.containerAggregator.aggregationData), w.event.instanceIDHash))
      else None
    }

    /** `handleContainerRunningEvent`: builds a fresh record (an empty
        aggregator for the short ID, a ticker, two empty sync channels of
        capacity 10, an SBOM client for the workload and instance) and stores
        it under the container ID, replacing any record already there. The
        Go code then starts `startRelevancyProcess` in a goroutine; here the
        caller runs `StartRelevancyProcess` when it schedules it. */
    method HandleContainerRunningEvent(contEvent: ContainerEventData, config: Config) returns (err: Option<Error>)
      requires HasShortContainerID(contEvent.containerID) && config.updateDataPeriod > 0
      modifies this
      ensures err == None
      ensures waiting == old(waiting)
      ensures contEvent.containerID in watchedContainers
      ensures watchedContainers == old(watchedContainers)[contEvent.containerID := watchedContainers[contEvent.containerID]]
      ensures fresh(watchedContainers[contEvent.containerID].Objects())
      ensures IsNewRecord(watchedContainers[contEvent.containerID], contEvent, config)
    {
      var aggregator := new Aggregator(GetShortContainerID(contEvent.containerID));
      var ticker := new Ticker(config.updateDataPeriod);
      var stepGetSBOM := new Channel<Option<Error>>(SyncChannelCapacity);
      var stepEventAggregator := new Channel<Error>(SyncChannelCapacity);
      var newWatchedContainer := WatchedContainerData(
        aggregator, ticker, contEvent, stepGetSBOM, stepEventAggregator,
        SBOMStorageClient(contEvent.k8sWorkloadID, contEvent.instanceID));
      watchedContainers := watchedContainers[contEvent.containerID := newWatchedContainer];
      err := None;
    }

    /** `handleNewContainerEvent`: only a running event is acted on; every
        other event type leaves the table as it is. It always returns nil. */
    method HandleNewContainerEvent(contEvent: ContainerEventData, config: Config) returns (err: Option<Error>)
      requires contEvent.eventType == ContainerRunning ==>
        HasShortContainerID(contEvent.containerID) && config.updateDataPeriod > 0
      modifies this
      ensures err == None
      ensures waiting == old(waiting)
      ensures contEvent.eventType != ContainerRunning ==> watchedContainers == old(watchedContainers)
      ensures contEvent.eventType == ContainerRunning ==>
        && contEvent.containerID in watchedContainers
        && watchedContainers == old(watchedContainers)[contEvent.containerID := watchedContainers[contEvent.containerID]]
        && fresh(watchedContainers[contEvent.containerID].Objects())
        && IsNewRecord(watchedContainers[contEvent.containerID], contEvent, config)
    {
      if contEvent.eventType == ContainerRunning {
        err := HandleContainerRunningEvent(contEvent, config);
        return;
      }
      err := None;
    }

    /** `getSBOM`: on a lookup miss nothing is sent. Otherwise exactly one
        outcome, that of `FetchSBOM`, is sent on the record's `StepGetSBOM`
        channel (unless that channel is full, when the goroutine blocks and
        `sent` is false). The table is not changed. */
    method GetSBOM(contEvent: ContainerEventData, getSBOM: Option<Error>) returns (calls: seq<ClientCall>, sent: bool)
      modifies FetchChannelOf(contEvent.containerID)
      ensures contEvent.containerID !in watchedContainers ==> calls == [] && !sent
      ensures contEvent.containerID in watchedContainers ==>
        var ch := watchedContainers[contEvent.containerID].stepGetSBOM;
        var report := FetchSBOM(contEvent.imageHash, getSBOM);
        && calls == report.calls
        && sent == !old(ch.Full())
        && ch.items == if sent then old(ch.items) + [report.outcome] else old(ch.items)
    {
      if contEvent.containerID !in watchedContainers {
        return [], false;
      }
      var watchedContainer := watchedContainers[contEvent.containerID];
      var err: Option<Error>;
      calls := [];
      match contEvent.imageHash {
        case Failure(e) =>
          err := Some(e);
        case Ok(imageHash) =>
          calls := [GetSBOMCall(imageHash)];
          err := getSBOM;
      }
      sent := watchedContainer.stepGetSBOM.Send(err);
    }

    /** `startTimer`. On a tick the job {containerID, RelevantCVEsService}
        is queued exactly when the relevancy service is enabled, and nil is
        returned. On an error from the aggregator channel: a drop marker's
        error stops the ticker and is replaced by the missed-events error;
        any other error is returned as it is, with the ticker left running. */
    method StartTimer(watchedContainer: WatchedContainerData, containerID: string, choice: SelectChoice, config: Config)
      returns (r: TimerResult)
      modifies afterTimerActionsChannel, watchedContainer.snifferTicker, watchedContainer.stepEventAggregator
      ensures choice == TickerFired ==>
        && watchedContainer.stepEventAggregator.items == old(watchedContainer.stepEventAggregator.items)
        && watchedContainer.snifferTicker.stopped == old(watchedContainer.snifferTicker.stopped)
      ensures choice == TickerFired && (old(watchedContainer.snifferTicker.stopped)
                || (config.relevantCVEServiceEnabled && old(afterTimerActionsChannel.Full()))) ==>
        r == SelectBlocked && afterTimerActionsChannel.items == old(afterTimerActionsChannel.items)
      ensures choice == TickerFired && !old(watchedContainer.snifferTicker.stopped)
                && !(config.relevantCVEServiceEnabled && old(afterTimerActionsChannel.Full())) ==>
        && r == TimerReturned(None)
        && afterTimerActionsChannel.items == old(afterTimerActionsChannel.items) +
             if config.relevantCVEServiceEnabled then [AfterTimerActionsData(containerID, RelevantCVEsService)] else []
      ensures choice == AggregatorErrorReceived ==>
        afterTimerActionsChannel.items == old(afterTimerActionsChannel.items)
      ensures choice == AggregatorErrorReceived && old(watchedContainer.stepEventAggregator.items) == [] ==>
        && r == SelectBlocked
        && watchedContainer.stepEventAggregator.items == []
        && watchedContainer.snifferTicker.stopped == old(watchedContainer.snifferTicker.stopped)
      ensures choice == AggregatorErrorReceived && old(watchedContainer.stepEventAggregator.items) != [] ==>
        && watchedContainer.stepEventAggregator.items == old(watchedContainer.stepEventAggregator.items)[1..]
        && r.TimerReturned? && r.err.Some?
      ensures choice == AggregatorErrorReceived && old(watchedContainer.stepEventAggregator.items) != []
                && old(watchedContainer.stepEventAggregator.items)[0].text == DropEventOccurred ==>
        watchedContainer.snifferTicker.stopped && r == TimerReturned(Some(Errorf(MissedEventsMessage)))
      ensures choice == AggregatorErrorReceived && old(watchedContainer.stepEventAggregator.items) != []
                && old(watchedContainer.stepEventAggregator.items)[0].text != DropEventOccurred ==>
        && watchedContainer.snifferTicker.stopped == old(watchedContainer.snifferTicker.stopped)
        && r == TimerReturned(Some(old(watchedContainer.stepEventAggregator.items)[0]))
      ensures r == SelectResult(choice, old(watchedContainer.snifferTicker.stopped), config.relevantCVEServiceEnabled,
                                old(afterTimerActionsChannel.Full()), old(watchedContainer.stepEventAggregator.items))
      ensures afterTimerActionsChannel.items ==
        old(afterTimerActionsChannel.items) + SelectQueued(choice, r, containerID, config.relevantCVEServiceEnabled)
      ensures watchedContainer.stepEventAggregator.items ==
        SelectRemaining(choice, old(watchedContainer.stepEventAggregator.items))
      ensures watchedContainer.snifferTicker.stopped ==
        (old(watchedContainer.snifferTicker.stopped) || SelectStopsTicker(choice, old(watchedContainer.stepEventAggregator.items)))
    {
      match choice
      case TickerFired =>
        if watchedContainer.snifferTicker.stopped {
          return SelectBlocked;
        }
        if config.relevantCVEServiceEnabled {
          var sent := afterTimerActionsChannel.Send(AfterTimerActionsData(containerID, RelevantCVEsService));
          if !sent {
            return SelectBlocked;
          }
        }
        r := TimerReturned(None);
      case AggregatorErrorReceived =>
        var received := watchedContainer.stepEventAggregator.Receive();
        if received.None? {
          return SelectBlocked;
        }
        var err := received.value;
        if err.text == DropEventOccurred {
          watchedContainer.snifferTicker.Stop();
          err := Errorf(MissedEventsMessage);
        }
        r := TimerReturned(Some(err));
    }

    /** `startRelevancyProcess` run over the iterations `inputs`. A lookup
        miss returns at once. Otherwise aggregation starts (with the cached
        events `cached`) and the loop runs while `start` is before
        `now + sniffingMaxTimes`; neither is ever reassigned, so once entered
        the loop leaves only when `startTimer` returns an error. Any such
        error stops aggregation and deletes this container's record, and no
        other. `results` are what the `startTimer` calls yielded, in order. */
    method StartRelevancyProcess(contEvent: ContainerEventData, config: Config, now: int, start: int,
                                 cached: seq<EventClient>, inputs: seq<Iteration>)
      returns (outcome: SessionOutcome, ghost results: seq<TimerResult>, ghost states: seq<SelectState>)
      requires now <= start
      modifies this, afterTimerActionsChannel, RecordObjects(contEvent.containerID)
      ensures waiting == old(waiting)
      ensures contEvent.containerID !in old(watchedContainers) <==> outcome == SessionContainerNotFound
      ensures outcome == TimeBoundNotMet <==>
        contEvent.containerID in old(watchedContainers) && start >= now + config.sniffingMaxTimes
      ensures outcome == SessionContainerNotFound || outcome == TimeBoundNotMet ==>
        results == [] && states == [] && afterTimerActionsChannel.items == old(afterTimerActionsChannel.items)
      ensures outcome == StillMonitoring ==> start < now + config.sniffingMaxTimes
      ensures SessionResults(inputs, outcome, results)
      ensures afterTimerActionsChannel.items ==
        old(afterTimerActionsChannel.items) + QueuedBy(inputs, results, contEvent.containerID, config.relevantCVEServiceEnabled)
      ensures outcome.StoppedOnError? ==>
        watchedContainers == old(watchedContainers) - {contEvent.containerID}
      ensures !outcome.StoppedOnError? ==> watchedContainers == old(watchedContainers)
      ensures contEvent.containerID in old(watchedContainers) ==>
        var w := old(watchedContainers)[contEvent.containerID];
        && SessionAt(w, old(SessionStartOf(w)).(buffer := old(w.containerAggregator.aggregationData) + cached),
                     inputs, results, states, contEvent, config.relevantCVEServiceEnabled)
        && w.containerAggregator.containerAccumulator == (if outcome.StoppedOnError? then Stopped else Accumulating)
        && (outcome.StoppedOnError?
              && old(DropsOnly(w.stepEventAggregator))
            ==> w.snifferTicker.stopped && outcome.err == Errorf(MissedEventsMessage))
    {
      if contEvent.containerID !in watchedContainers {
        return SessionContainerNotFound, [], [];
      }
      var watchedContainer := watchedContainers[contEvent.containerID];
      // StartAggregate always returns nil, so the early return on its error
      // is never taken.
      var _ := watchedContainer.containerAggregator.StartAggregate(watchedContainer.stepEventAggregator, cached);
      var stopSniffingTime := now + config.sniffingMaxTimes;
      if start < stopSniffingTime {
        outcome, results, states := RunSession(contEvent, watchedContainer, config, inputs);
        if outcome.StoppedOnError? {
          watchedContainers := watchedContainers - {contEvent.containerID};
        }
      } else {
        outcome, results, states := TimeBoundNotMet, [], [];
      }
    }

    /** The loop of `startRelevancyProcess` up to its fatal exit: the
        session of `MonitorContainer`, then, on an error, aggregation stops;
        the record is left for the caller to delete. */
    method RunSession(contEvent: ContainerEventData, watchedContainer: WatchedContainerData, config: Config,
                      inputs: seq<Iteration>)
      returns (outcome: SessionOutcome, ghost results: seq<TimerResult>, ghost states: seq<SelectState>)
      requires contEvent.containerID in watchedContainers
      requires watchedContainers[contEvent.containerID] == watchedContainer
      requires watchedContainer.containerAggregator.containerAccumulator == Accumulating
      modifies afterTimerActionsChannel, watchedContainer.containerAggregator, watchedContainer.snifferTicker,
               watchedContainer.stepGetSBOM, watchedContainer.stepEventAggregator
      ensures outcome.StillMonitoring? || outcome.ParkedInSelect? || outcome.StoppedOnError?
      ensures SessionResults(inputs, outcome, results)
      ensures SessionAt(watchedContainer, old(SessionStartOf(watchedContainer)), inputs, results, states,
                        contEvent, config.relevantCVEServiceEnabled)
      ensures watchedContainer.containerAggregator.containerAccumulator ==
        if outcome.StoppedOnError? then Stopped else Accumulating
      ensures outcome.StoppedOnError? && old(DropsOnly(watchedContainer.stepEventAggregator)) ==>
        watchedContainer.snifferTicker.stopped && outcome.err == Errorf(MissedEventsMessage)
    {
      ghost var sessionStart := SessionStartOf(watchedContainer);
      ghost var dropsOnly := DropsOnly(watchedContainer.stepEventAggregator);
      outcome, results, states := MonitorContainer(contEvent, watchedContainer, config, inputs);
      if dropsOnly {
        SessionOnDropsOnly(inputs, results, states, sessionStart, contEvent.containerID,
                           config.relevantCVEServiceEnabled);
      }
      if outcome.StoppedOnError? {
        var _ := watchedContainer.containerAggregator.StopAggregate();
      }
    }

    /** Where a session of the container `w` would start from now. */
    function SessionStartOf(w: WatchedContainerData): SessionStart
      reads afterTimerActionsChannel, w.snifferTicker, w.stepEventAggregator, w.containerAggregator, w.stepGetSBOM
    {
      SessionStart(w.snifferTicker.stopped, afterTimerActionsChannel.items, afterTimerActionsChannel.capacity,
                   w.stepEventAggregator.items, w.stepEventAggregator.capacity, w.containerAggregator.aggregationData,
                   w.stepGetSBOM.items, w.stepGetSBOM.capacity)
    }

    /** Where a session of the container `w` from `start` stands after the
        iterations whose `startTimer` results are `results` and whose
        `select`s faced `states`: the ticker, the aggregator channel, the
        job queue, the aggregator's buffer and `StepGetSBOM` are as those
        iterations left them. */
    ghost predicate SessionAt(w: WatchedContainerData, start: SessionStart, inputs: seq<Iteration>,
                              results: seq<TimerResult>, states: seq<SelectState>, contEvent: ContainerEventData,
                              enabled: bool)
      reads afterTimerActionsChannel, w.snifferTicker, w.stepEventAggregator, w.containerAggregator`aggregationData,
            w.stepGetSBOM
    {
      && afterTimerActionsChannel.capacity == start.capacity
      && w.stepEventAggregator.capacity == start.errCapacity
      && w.stepGetSBOM.capacity == start.fetchCapacity
      && SessionHolds(inputs, results, states, start, contEvent, enabled, w.snifferTicker.stopped,
                      afterTimerActionsChannel.items, w.stepEventAggregator.items,
                      w.containerAggregator.aggregationData, w.stepGetSBOM.items)
    }

    /** The `for` loop of `startRelevancyProcess` once its time bound holds,
        as it then does for good: it ends only when an iteration's
        `startTimer` parks in its `select` or returns an error, or when the
        inputs run out. Each iteration's `select` faces the state the one
        before left (`SessionAt`). On an error the caller stops aggregation
        and deletes the record before it leaves the loop. */
    method MonitorContainer(contEvent: ContainerEventData, watchedContainer: WatchedContainerData,
                            config: Config, inputs: seq<Iteration>)
      returns (outcome: SessionOutcome, ghost results: seq<TimerResult>, ghost states: seq<SelectState>)
      requires contEvent.containerID in watchedContainers
      requires watchedContainers[contEvent.containerID] == watchedContainer
      requires watchedContainer.containerAggregator.containerAccumulator == Accumulating
      modifies afterTimerActionsChannel, watchedContainer.containerAggregator, watchedContainer.snifferTicker,
               watchedContainer.stepGetSBOM, watchedContainer.stepEventAggregator
      ensures outcome.StillMonitoring? || outcome.ParkedInSelect? || outcome.StoppedOnError?
      ensures SessionResults(inputs, outcome, results)
      ensures SessionAt(watchedContainer, old(SessionStartOf(watchedContainer)), inputs, results, states,
                        contEvent, config.relevantCVEServiceEnabled)
      ensures watchedContainer.containerAggregator.containerAccumulator == Accumulating
    {
      ghost var start := SessionStartOf(watchedContainer);
      results, states := [], [];
      var i := 0;
      while i < |inputs|
        invariant i == |results| && Monitoring(watchedContainer, start, inputs, results, states, contEvent,
                                               config.relevantCVEServiceEnabled)
      {
        var r, s := MonitorIteration(contEvent, watchedContainer, config, inputs, i, start, results, states);
        if r != TimerReturned(None) {
          return SessionEnd(i, r), results + [r], states + [s];
        }
        results, states := results + [r], states + [s];
        i := i + 1;
      }
      SessionRunsThrough(inputs, results);
      outcome := StillMonitoring;
    }

    /** `MonitorContainer`'s loop has run the iterations whose results are
        `results`, all of them ticks with nil results, and the session stands
        where they left it, aggregating still. */
    ghost predicate Monitoring(w: WatchedContainerData, start: SessionStart, inputs: seq<Iteration>,
                               results: seq<TimerResult>, states: seq<SelectState>, contEvent: ContainerEventData,
                               enabled: bool)
      reads afterTimerActionsChannel, w.snifferTicker, w.stepEventAggregator, w.containerAggregator, w.stepGetSBOM
    {
      && NilTicks(inputs, results)
      && SessionAt(w, start, inputs, results, states, contEvent, enabled)
      && w.containerAggregator.containerAccumulator == Accumulating
    }

    /** One iteration of `MonitorContainer`'s loop after `i` ticks with nil
        results: the state `s` its `select` faces, reached from where the
        session stood, and what the `select` yields there; the session then
        stands one iteration further on; when the result is not nil, this is
        where the session ends. */
    method MonitorIteration(contEvent: ContainerEventData, watchedContainer: WatchedContainerData,
                            config: Config, inputs: seq<Iteration>, i: nat, ghost start: SessionStart,
                            ghost results: seq<TimerResult>, ghost states: seq<SelectState>)
      returns (r: TimerResult, ghost s: SelectState)
      requires contEvent.containerID in watchedContainers
      requires watchedContainers[contEvent.containerID] == watchedContainer
      requires i == |results| < |inputs|
      requires Monitoring(watchedContainer, start, inputs, results, states, contEvent, config.relevantCVEServiceEnabled)
      modifies afterTimerActionsChannel, watchedContainer.containerAggregator, watchedContainer.snifferTicker,
               watchedContainer.stepGetSBOM, watchedContainer.stepEventAggregator
      ensures FacesSelect(inputs[i], old(watchedContainer.snifferTicker.stopped), old(afterTimerActionsChannel.Full()),
                          old(watchedContainer.stepEventAggregator.items), watchedContainer.stepEventAggregator.capacity, s)
      ensures r == SelectResult(inputs[i].choice, s.tickerStopped, config.relevantCVEServiceEnabled, s.queueFull, s.pending)
      ensures SessionAt(watchedContainer, start, inputs, results + [r], states + [s], contEvent,
                        config.relevantCVEServiceEnabled)
      ensures watchedContainer.containerAggregator.containerAccumulator == Accumulating
      ensures r == TimerReturned(None) ==> inputs[i].choice == TickerFired
      ensures r != TimerReturned(None) ==> SessionResults(inputs, SessionEnd(i, r), results + [r])
      ensures r == TimerReturned(None) ==>
        Monitoring(watchedContainer, start, inputs, results + [r], states + [s], contEvent,
                   config.relevantCVEServiceEnabled)
    {
      var input := inputs[i];
      ghost var queue := afterTimerActionsChannel.items;
      ghost var queueFull := afterTimerActionsChannel.Full();
      ghost var tickerStopped := watchedContainer.snifferTicker.stopped;
      ghost var unsent := watchedContainer.stepEventAggregator.items;
      ghost var buffer := watchedContainer.containerAggregator.aggregationData;
      ghost var fetched := watchedContainer.stepGetSBOM.items;
      var result, _, consumed, pending := SessionIteration(contEvent, watchedContainer, config, input);
      r := result;
      s := SelectState(tickerStopped, queueFull, consumed, pending);
      SelectResultByChoice(input.choice, tickerStopped, config.relevantCVEServiceEnabled, queueFull, pending);
      SessionHoldsExtend(inputs, results, states, start, contEvent, config.relevantCVEServiceEnabled,
                         tickerStopped, queue, unsent, buffer, fetched, r, s);
      if r != TimerReturned(None) {
        SessionEndsAt(inputs, results, r);
      } else {
        NilTicksExtend(inputs, results, r);
      }
    }

    /** The body of the `for` loop of `startRelevancyProcess`: `getSBOM`
        runs and sends its outcome on `StepGetSBOM` (`fetchSent`), the
        collector takes the first `consumed` events of `input.collected`
        (leaving `pending` on the aggregator channel), then `startTimer`
        takes the case `input.choice`. When only drop markers' errors are
        pending on the aggregator channel, any error `startTimer` returns is
        the missed-events error, with the ticker stopped. */
    method SessionIteration(contEvent: ContainerEventData, watchedContainer: WatchedContainerData,
                            config: Config, input: Iteration)
      returns (r: TimerResult, ghost fetchSent: bool, ghost consumed: nat, ghost pending: seq<Error>)
      requires contEvent.containerID in watchedContainers
      requires watchedContainers[contEvent.containerID] == watchedContainer
      modifies afterTimerActionsChannel, watchedContainer.containerAggregator, watchedContainer.snifferTicker,
               watchedContainer.stepGetSBOM, watchedContainer.stepEventAggregator
      ensures fetchSent == !old(watchedContainer.stepGetSBOM.Full())
      ensures watchedContainer.stepGetSBOM.items ==
        old(watchedContainer.stepGetSBOM.items) + if fetchSent then [FetchSBOM(contEvent.imageHash, input.getSBOM).outcome] else []
      ensures consumed <= |input.collected|
      ensures consumed < |input.collected| ==>
        IsDropEvent(input.collected[consumed]) && |pending| >= watchedContainer.stepEventAggregator.capacity
      ensures watchedContainer.containerAggregator.aggregationData ==
        old(watchedContainer.containerAggregator.aggregationData) + Accepted(input.collected[..consumed])
      ensures watchedContainer.containerAggregator.containerAccumulator
              == old(watchedContainer.containerAggregator.containerAccumulator)
      ensures pending == old(watchedContainer.stepEventAggregator.items) + DropErrors(input.collected[..consumed])
      ensures r == SelectResult(input.choice, old(watchedContainer.snifferTicker.stopped),
                                config.relevantCVEServiceEnabled, old(afterTimerActionsChannel.Full()), pending)
      ensures afterTimerActionsChannel.items ==
        old(afterTimerActionsChannel.items) + SelectQueued(input.choice, r, contEvent.containerID, config.relevantCVEServiceEnabled)
      ensures watchedContainer.stepEventAggregator.items == SelectRemaining(input.choice, pending)
      ensures watchedContainer.snifferTicker.stopped ==
        (old(watchedContainer.snifferTicker.stopped) || SelectStopsTicker(input.choice, pending))
      ensures old(DropsOnly(watchedContainer.stepEventAggregator)) ==>
        && DropsOnly(watchedContainer.stepEventAggregator)
        && (r.TimerReturned? && r.err.Some? ==>
              watchedContainer.snifferTicker.stopped && r.err.value == Errorf(MissedEventsMessage))
    {
      ghost var dropsOnly := DropsOnly(watchedContainer.stepEventAggregator);
      var _, sent := GetSBOM(contEvent, input.getSBOM);
      fetchSent := sent;
      ghost var unsent := watchedContainer.stepEventAggregator.items;
      consumed := watchedContainer.containerAggregator.Collect(input.collected, watchedContainer.stepEventAggregator);
      pending := watchedContainer.stepEventAggregator.items;
      if dropsOnly {
        ghost var sentErrors := DropErrors(input.collected[..consumed]);
        DropErrorsAreDropErrors(input.collected[..consumed]);
        assert pending == unsent + sentErrors;
        assert forall e :: e in pending ==> e in unsent || e in sentErrors;
        assert forall e :: e in pending ==> e == DropError();
      }
      ghost var queueFull := afterTimerActionsChannel.Full();
      ghost var tickerStopped := watchedContainer.snifferTicker.stopped;
      r := StartTimer(watchedContainer, contEvent.containerID, input.choice, config);
      if dropsOnly {
        SelectOnDropsOnly(input.choice, tickerStopped, config.relevantCVEServiceEnabled, queueFull, pending);
      }
    }

    /** The worker only ever waits on a job for the relevancy service. */
    predicate WorkerValid()
      reads this
    {
      waiting.Some? ==> waiting.value.job.service == RelevantCVEsService
    }

    /** The `StepGetSBOM` channel the worker waits on, if any. */
    function WaitingFetchChannel(): set<Channel<Option<Error>>>
      reads this
    {
      if waiting.Some? then {waiting.value.fetch} else {}
    }

    /** The jobs the worker has yet to finish, in the order it finishes
        them: the one it waits on, then the queued ones. */
    function PendingJobs(): seq<AfterTimerActionsData>
      reads this, afterTimerActionsChannel
    {
      (if waiting.Some? then [waiting.value.job] else []) + afterTimerActionsChannel.items
    }

    /** The rest of a requested job once its fetched SBOM outcome `fetched`
        has been received: filter with the file list, then store. */
    method FinishJob(job: AfterTimerActionsData, inputs: JobInputs, fetched: Option<Error>, client: SBOMOutcomes)
      returns (report: JobReport)
      requires job.service == RelevantCVEsService
      ensures report == RunJob(job, Some(inputs), true, fetched, client)
    {
      if fetched.Some? {
        return JobReport([], GetSBOMFailed(fetched.value));
      }
      var calls := [FilterSBOMCall(inputs.fileList)];
      if client.filter.Some? {
        return JobReport(calls, FilterSBOMFailed(client.filter.value));
      }
      calls := calls + [StoreFilterSBOMCall(inputs.instanceIDHash)];
      if client.store.Some? {
        if client.store.value.alreadyExist {
          return JobReport(calls, AlreadyReported);
        }
        return JobReport(calls, StoreFilterSBOMFailed(client.store.value));
      }
      report := JobReport(calls, StoredSuccessfully);
    }

    /** One iteration of `afterTimerActions`. A worker blocked on a job's
        `StepGetSBOM` channel resumes that job once an outcome is there.
        Otherwise it takes the job at the head of the queue, looks up its
        container and, for a requested job, reads the file list before it
        receives from `StepGetSBOM`; if that channel is empty it keeps the
        job and what it read, and blocks. A finished job's outcome is that
        of `RunJob` on what the worker read (`record`) and the outcome it
        received (`fetched`). The table is never changed. */
    method AfterTimerActionsStep(config: Config, client: SBOMOutcomes)
      returns (r: WorkerStep, ghost record: Option<JobInputs>, ghost fetched: Option<Error>)
      requires WorkerValid()
      modifies this, afterTimerActionsChannel, HeadJobFetchChannel(), WaitingFetchChannel()
      ensures WorkerValid()
      ensures watchedContainers == old(watchedContainers)
      ensures old(PendingJobs()) == [] <==> r == Idle
      ensures r.Idle? ==> waiting == old(waiting) && afterTimerActionsChannel.items == old(afterTimerActionsChannel.items)
      ensures r.AwaitingSBOM? ==>
        && r.job == old(PendingJobs())[0]
        && PendingJobs() == old(PendingJobs())
        && waiting.Some? && waiting.value.job == r.job && waiting.value.fetch.items == []
      ensures r.Processed? ==>
        && r.job == old(PendingJobs())[0]
        && PendingJobs() == old(PendingJobs())[1..]
        && waiting == None
        && record == (if old(waiting).Some? then Some(old(waiting).value.inputs)
                      else old(JobInputsOf(r.job.containerID)))
        && r.report == RunJob(r.job, record, old(waiting).Some? || config.relevantCVEServiceEnabled, fetched, client)
      ensures old(waiting).Some? ==>
        var w := old(waiting).value;
        && afterTimerActionsChannel.items == old(afterTimerActionsChannel.items)
        && (old(w.fetch.items) == [] ==> r == AwaitingSBOM(w.job) && waiting == old(waiting))
        && (old(w.fetch.items) != [] ==>
              && w.fetch.items == old(w.fetch.items)[1..]
              && r == Processed(w.job, RunJob(w.job, Some(w.inputs), true, old(w.fetch.items)[0], client)))
      ensures old(waiting).None? && old(afterTimerActionsChannel.items) != [] ==>
        var job := old(afterTimerActionsChannel.items)[0];
        && afterTimerActionsChannel.items == old(afterTimerActionsChannel.items)[1..]
        && (job.containerID in watchedContainers && Requested(job, config.relevantCVEServiceEnabled) ==>
              var ch := watchedContainers[job.containerID].stepGetSBOM;
              var inputs := old(JobInputsOf(job.containerID));
              && (old(ch.items) == [] ==>
                    && r == AwaitingSBOM(job) && ch.items == []
                    && waiting == Some(WaitingJob(job, inputs.value, ch)))
              && (old(ch.items) != [] ==>
                    && ch.items == old(ch.items)[1..]
                    && r == Processed(job, RunJob(job, inputs, config.relevantCVEServiceEnabled, old(ch.items)[0], client))))
        && (!(job.containerID in watchedContainers && Requested(job, config.relevantCVEServiceEnabled)) ==>
              && (job.containerID in watchedContainers ==>
                    unchanged(watchedContainers[job.containerID].stepGetSBOM))
              && r == Processed(job, RunJob(job, old(JobInputsOf(job.containerID)), config.relevantCVEServiceEnabled,
                                            None, client)))
    {
      record, fetched := None, None;
      if waiting.Some? {
        var w := waiting.value;
        record := Some(w.inputs);
        var head := w.fetch.Receive();
        if head.None? {
          return AwaitingSBOM(w.job), record, fetched;
        }
        waiting := None;
        fetched := head.value;
        var report := FinishJob(w.job, w.inputs, head.value, client);
        return Processed(w.job, report), record, fetched;
      }
      var received := afterTimerActionsChannel.Receive();
      if received.None? {
        return Idle, record, fetched;
      }
      var job := received.value;
      record := JobInputsOf(job.containerID);
      if job.containerID !in watchedContainers {
        return Processed(job, JobReport([], ContainerNotWatched)), record, fetched;
      }
      var containerData := watchedContainers[job.containerID];
      if !(config.relevantCVEServiceEnabled && job.service == RelevantCVEsService) {
        return Processed(job, JobReport([], NotRequested)), record, fetched;
      }
      var fileList := containerData.containerAggregator.GetContainerRealtimeFileList();
      var inputs := JobInputs(fileList, containerData.event.instanceIDHash);
      var head := containerData.stepGetSBOM.Receive();
      if head.None? {
        waiting := Some(WaitingJob(job, inputs, containerData.stepGetSBOM));
        return AwaitingSBOM(job), record, fetched;
      }
      fetched := head.value;
      var report := FinishJob(job, inputs, head.value, client);
      r := Processed(job, report);
    }

    /** The containers' aggregators. */
    function Aggregators(): set<Aggregator>
      reads this
    {
      set id | id in watchedContainers :: watchedContainers[id].containerAggregator
    }

    /** The worker has finished `steps` of the jobs `jobs` that were pending
        when `afterTimerActions` started, as `JobsReported` says, and the rest
        are still pending; it waits on a job only if it has not finished any
        (then `resumed` is what it read for it), and the containers' records
        are still `table`. */
    ghost predicate WorkerAt(inputs: seq<(Config, SBOMOutcomes)>, jobs: seq<AfterTimerActionsData>,
                             resumed: Option<JobInputs>, table: map<string, JobInputs>,
                             steps: seq<WorkerStep>, fetched: seq<Option<Error>>)
      reads this, afterTimerActionsChannel, Aggregators()
    {
      && WorkerValid()
      && JobsReported(steps, fetched, inputs, jobs, resumed, table)
      && PendingJobs() == jobs[|steps|..]
      && (waiting.Some? ==> |steps| == 0 && resumed == Some(waiting.value.inputs))
      && (waiting.None? && |steps| == 0 ==> resumed.None?)
      && RecordsTable(watchedContainers) == table
    }

    /** `AfterTimerActionsStep` seen from the loop: the containers' records
        stay `table`, and a finished job was run on what the worker had read
        for it, or on its container's record in `table`. */
    method AfterTimerActionsStepOn(config: Config, client: SBOMOutcomes, ghost table: map<string, JobInputs>)
      returns (r: WorkerStep, ghost record: Option<JobInputs>, ghost fetched: Option<Error>)
      requires WorkerValid()
      requires RecordsTable(watchedContainers) == table
      modifies this, afterTimerActionsChannel, HeadJobFetchChannel(), WaitingFetchChannel()
      ensures WorkerValid()
      ensures watchedContainers == old(watchedContainers)
      ensures RecordsTable(watchedContainers) == table
      ensures !r.Processed? ==> PendingJobs() == old(PendingJobs())
      ensures !r.Processed? ==> PendingJobs() == [] || (waiting.Some? && waiting.value.fetch.items == [])
      ensures r.Processed? ==>
        && old(PendingJobs()) != [] && r.job == old(PendingJobs())[0]
        && PendingJobs() == old(PendingJobs())[1..]
        && waiting == None
        && record == (if old(waiting).Some? then Some(old(waiting).value.inputs) else RecordIn(table, r.job.containerID))
        && r.report == RunJob(r.job, record, old(waiting).Some? || config.relevantCVEServiceEnabled, fetched, client)
    {
      if waiting.None? && afterTimerActionsChannel.items != [] {
        assert JobInputsOf(afterTimerActionsChannel.items[0].containerID)
            == RecordIn(table, afterTimerActionsChannel.items[0].containerID);
      }
      r, record, fetched := AfterTimerActionsStep(config, client);
      assert unchanged(Aggregators());
      forall id | id in watchedContainers
        ensures RecordsTable(watchedContainers)[id] == table[id]
      {
        assert watchedContainers[id].containerAggregator.aggregationData
            == old(watchedContainers[id].containerAggregator.aggregationData);
      }
    }

    /** One iteration of `afterTimerActions`, given the steps before it
        (`WorkerAt`). A step that finishes a job extends the reports by it. */
    method AfterTimerActionsIteration(config: Config, client: SBOMOutcomes, ghost inputs: seq<(Config, SBOMOutcomes)>,
                                      ghost jobs: seq<AfterTimerActionsData>, ghost resumed: Option<JobInputs>,
                                      ghost table: map<string, JobInputs>, ghost steps: seq<WorkerStep>,
                                      ghost fetched: seq<Option<Error>>)
      returns (step: WorkerStep, ghost outcome: Option<Error>)
      requires WorkerAt(inputs, jobs, resumed, table, steps, fetched)
      requires |steps| < |inputs| && inputs[|steps|] == (config, client)
      modifies this, afterTimerActionsChannel, HeadJobFetchChannel(), WaitingFetchChannel()
      ensures watchedContainers == old(watchedContainers)
      ensures !step.Processed? ==> WorkerValid() && PendingJobs() == jobs[|steps|..]
      ensures !step.Processed? ==> PendingJobs() == [] || (waiting.Some? && waiting.value.fetch.items == [])
      ensures step.Processed? ==> waiting == None && WorkerAt(inputs, jobs, resumed, table, steps + [step], fetched + [outcome])
    {
      ghost var resuming := waiting.Some?;
      ghost var record;
      step, record, outcome := AfterTimerActionsStepOn(config, client, table);
      if step.Processed? {
        JobsReportedExtend(steps, fetched, inputs, jobs, resumed, table, step, record,
                           resuming || config.relevantCVEServiceEnabled, outcome);
        assert jobs[|steps|..][1..] == jobs[|steps| + 1..];
      }
    }

    /** The `afterTimerActions` loop run over the per-step inputs `inputs`
        (the configuration read and the client outcomes of each step), until
        they run out or the worker blocks. Jobs are finished one at a time in
        the order they were queued, each with the report `RunJob` gives for
        its container's record as it was (or, for the job the worker was
        waiting on, the inputs it had read), the flag of its step and the SBOM
        outcome it received (`fetched`); the table is never changed. The
        loop stops before its inputs run out only when no job is left or the
        worker waits on an empty `StepGetSBOM` channel. */
    method AfterTimerActions(inputs: seq<(Config, SBOMOutcomes)>)
      returns (steps: seq<WorkerStep>, ghost fetched: seq<Option<Error>>)
      requires WorkerValid()
      modifies this, afterTimerActionsChannel, FetchChannels(), WaitingFetchChannel()
      ensures WorkerValid()
      ensures watchedContainers == old(watchedContainers)
      ensures |steps| <= |inputs| && |steps| <= |old(PendingJobs())|
      ensures JobsReported(steps, fetched, inputs, old(PendingJobs()),
                           old(if waiting.Some? then Some(waiting.value.inputs) else None), old(RecordsTable(watchedContainers)))
      ensures PendingJobs() == old(PendingJobs())[|steps|..]
      ensures |steps| < |inputs| ==> PendingJobs() == [] || (waiting.Some? && waiting.value.fetch.items == [])
    {
      ghost var resumed := if waiting.Some? then Some(waiting.value.inputs) else None;
      ghost var table := RecordsTable(watchedContainers);
      ghost var jobs := PendingJobs();
      steps, fetched := [], [];
      var i := 0;
      while i < |inputs|
        invariant i == |steps| <= |inputs|
        invariant watchedContainers == old(watchedContainers)
        invariant waiting == if i == 0 then old(waiting) else None
        invariant WorkerAt(inputs, jobs, resumed, table, steps, fetched)
      {
        var step, outcome := AfterTimerActionsIteration(inputs[i].0, inputs[i].1, inputs, jobs, resumed, table, steps, fetched);
        if !step.Processed? {
          return;
        }
        steps, fetched := steps + [step], fetched + [outcome];
        i := i + 1;
      }
    }
  }
}
