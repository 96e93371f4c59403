/** The per-container event aggregator (pkg/conthandler/container_aggregator.go).

    An `Aggregator` owns one container's append-only buffer of runtime events.
    Its collector takes each event from the capture source: the "drop event"
    marker becomes an error on the caller's error channel, every other event is
    appended. `GetContainerRealtimeFileList` derives the set of distinct,
    non-empty opened-file names from the buffer. */
module ContainerAggregator {
  import opened Wrappers
  import opened Channels

  /** The command of the marker event the capture source emits when it lost
      events (`accumulator.DropEventOccurred`; the literal is defined in the
      event_data_storage package, which is not part of this model). */
  const DropEventOccurred: string := "DropEventOccurred"

  /** One runtime event (`ebpfev.EventClient`): its command and, for a
      file-open event, the opened file's name ("" otherwise). */
  datatype EventClient = EventClient(cmd: string, openFileName: string)

  predicate IsDropEvent(e: EventClient)
  {
    e.cmd == DropEventOccurred
  }

  /** The error the collector sends for a drop marker: `fmt.Errorf(cmd)`. */
  function DropError(): (e: Error)
    ensures e.text == DropEventOccurred && !e.alreadyExist
  {
    Errorf(DropEventOccurred)
  }

  /** The state of the `containerAccumulator` field: nil until
      `StartAggregate` creates and starts one; `StopAggregate` stops it. */
  datatype AccumulatorState = Detached | Accumulating | Stopped

  /** The distinct non-empty opened-file names among `data`: the reference
      definition of the real-time file list. */
  ghost function OpenedFiles(data: seq<EventClient>): set<string>
  {
    set e | e in data && e.openFileName != "" :: e.openFileName
  }

  /** The map `GetContainerRealtimeFileList` builds from a buffer, as its loop
      builds it: one entry per event, in buffer order, skipping empty names. */
  function RealtimeFileList(data: seq<EventClient>): (r: map<string, bool>)
    ensures r.Keys == OpenedFiles(data)
    ensures forall f :: f in r ==> r[f]
    decreases |data|
  {
    if data == [] then map[]
    else
      var prev := data[..|data| - 1];
      var last := data[|data| - 1];
      assert data == prev + [last];
      var r := RealtimeFileList(prev);
      if last.openFileName != "" then r[last.openFileName := true] else r
  }

  /** The events the collector appends, in order: all but the drop markers. */
  function Accepted(events: seq<EventClient>): (r: seq<EventClient>)
    ensures |r| <= |events|
    decreases |events|
  {
    if events == [] then []
    else
      var prev := events[..|events| - 1];
      var last := events[|events| - 1];
      assert events == prev + [last];
      if IsDropEvent(last) then Accepted(prev) else Accepted(prev) + [last]
  }

  /** The errors the collector sends, in order: one `DropError()` per marker. */
  function DropErrors(events: seq<EventClient>): (r: seq<Error>)
    ensures |r| <= |events|
    decreases |events|
  {
    if events == [] then []
    else
      var prev := events[..|events| - 1];
      var last := events[|events| - 1];
      if IsDropEvent(last) then DropErrors(prev) + [DropError()] else DropErrors(prev)
  }

  /** An event is among those the collector appends exactly when it was
      received and is not a drop marker. */
  lemma {:induction false} AcceptedMembers(events: seq<EventClient>)
    ensures forall e :: e in Accepted(events) <==> e in events && !IsDropEvent(e)
    decreases |events|
  {
    if events != [] {
      var prev := events[..|events| - 1];
      AcceptedMembers(prev);
      assert events == prev + [events[|events| - 1]];
    }
  }

  /** Every error the collector sends is the drop-marker error. */
  lemma {:induction false} DropErrorsAreDropErrors(events: seq<EventClient>)
    ensures forall e :: e in DropErrors(events) ==> e == DropError()
    decreases |events|
  {
    if events != [] {
      DropErrorsAreDropErrors(events[..|events| - 1]);
    }
  }

  /** Taking one more event extends `Accepted` and `DropErrors` by what the
      collector does with that event. */
  lemma CollectOneMore(events: seq<EventClient>, k: nat)
    requires k < |events|
    ensures Accepted(events[..k + 1]) ==
      if IsDropEvent(events[k]) then Accepted(events[..k]) else Accepted(events[..k]) + [events[k]]
    ensures DropErrors(events[..k + 1]) ==
      if IsDropEvent(events[k]) then DropErrors(events[..k]) + [DropError()] else DropErrors(events[..k])
  {
    assert events[..k + 1][..k] == events[..k];
  }

  /** A drop marker does not stop the collector: the event after it is
      appended as if the marker had not been there, and the marker adds one
      error. */
  lemma CollectorContinuesAfterDrop(events: seq<EventClient>, marker: EventClient, next: EventClient)
    requires IsDropEvent(marker) && !IsDropEvent(next)
    ensures Accepted(events + [marker, next]) == Accepted(events) + [next]
    ensures DropErrors(events + [marker, next]) == DropErrors(events) + [DropError()]
  {
    var s := events + [marker, next];
    assert s[..|s| - 1] == events + [marker];
    assert (events + [marker])[..|events|] == events;
  }

  /** Every event the collector takes is either appended or reported as an
      error, never both and never neither. */
  lemma {:induction false} CollectorAccountsForEveryEvent(events: seq<EventClient>)
    ensures |Accepted(events)| + |DropErrors(events)| == |events|
    decreases |events|
  {
    if events != [] {
      CollectorAccountsForEveryEvent(events[..|events| - 1]);
    }
  }

  /** The file list never contains the empty name. */
  lemma FileListHasNoEmptyName(data: seq<EventClient>)
    ensures "" !in RealtimeFileList(data)
  {
  }

  /** An event whose file name is empty or already listed does not change the
      file list. */
  lemma FileListAbsorbs(data: seq<EventClient>, e: EventClient)
    requires e.openFileName == "" || e.openFileName in RealtimeFileList(data)
    ensures RealtimeFileList(data + [e]) == RealtimeFileList(data)
  {
    assert (data + [e])[..|data|] == data;
  }

  /** The file list depends only on which events are buffered, not on the
      order in which they arrived. */
  lemma FileListOrderIndependent(a: seq<EventClient>, b: seq<EventClient>)
    requires multiset(a) == multiset(b)
    ensures RealtimeFileList(a) == RealtimeFileList(b)
  {
    forall e
      ensures e in a <==> e in b
    {
      assert e in a <==> e in multiset(a);
      assert e in b <==> e in multiset(b);
    }
    assert OpenedFiles(a) == OpenedFiles(b);
  }

  /** After a run of the collector over interleaved accepted events and drop
      markers, the file list holds exactly the non-empty names of the accepted
      events; a name carried only by drop markers never appears. */
  lemma CollectedFileList(events: seq<EventClient>, f: string)
    ensures f in RealtimeFileList(Accepted(events)) <==>
      f != "" && exists e :: e in events && !IsDropEvent(e) && e.openFileName == f
  {
    var accepted := Accepted(events);
    AcceptedMembers(events);
    if f in RealtimeFileList(accepted) {
      var e :| e in accepted && e.openFileName != "" && e.openFileName == f;
      assert e in events && !IsDropEvent(e);
    }
    if f != "" && exists e :: e in events && !IsDropEvent(e) && e.openFileName == f {
      var e :| e in events && !IsDropEvent(e) && e.openFileName == f;
      assert e in accepted;
      assert f in OpenedFiles(accepted);
    }
  }

  class Aggregator {
    const containerID: string
    var aggregationData: seq<EventClient>
    var containerAccumulator: AccumulatorState

    /** `CreateAggregator`: an empty buffer and no accumulator attached. */
    constructor (containerID: string)
      ensures this.containerID == containerID
      ensures aggregationData == [] && containerAccumulator == Detached
    {
      this.containerID := containerID;
      aggregationData := [];
      containerAccumulator := Detached;
    }

    /** One iteration of `collectDataFromContainerAccumulator`'s loop, on the
        event `newEvent` it receives. A drop marker is not buffered; its error
        goes to `errChan` (the collector stays blocked, `blocked`, while that
        channel is full). Any other event is appended. Either way the loop
        goes on to the next event. */
    method CollectStep(newEvent: EventClient, errChan: Channel<Error>) returns (blocked: bool)
      modifies this, errChan
      ensures containerAccumulator == old(containerAccumulator)
      ensures IsDropEvent(newEvent) ==>
        && aggregationData == old(aggregationData)
        && blocked == old(errChan.Full())
        && errChan.items == if blocked then old(errChan.items) else old(errChan.items) + [DropError()]
      ensures !IsDropEvent(newEvent) ==>
        && !blocked
        && aggregationData == old(aggregationData) + [newEvent]
        && errChan.items == old(errChan.items)
    {
      blocked := false;
      if newEvent.cmd == DropEventOccurred {
        var sent := errChan.Send(Errorf(newEvent.cmd));
        blocked := !sent;
        return;
      }
      aggregationData := aggregationData + [newEvent];
    }

    /** The collector's loop run over the events `events` of the capture
        source, until it has taken them all or blocks on a full `errChan` at
        a drop marker; `consumed` events were taken. */
    method Collect(events: seq<EventClient>, errChan: Channel<Error>) returns (consumed: nat)
      modifies this, errChan
      ensures consumed <= |events|
      ensures containerAccumulator == old(containerAccumulator)
      ensures aggregationData == old(aggregationData) + Accepted(events[..consumed])
      ensures errChan.items == old(errChan.items) + DropErrors(events[..consumed])
      ensures consumed < |events| ==> IsDropEvent(events[consumed]) && errChan.Full()
      ensures consumed == |events| ==>
        && aggregationData == old(aggregationData) + Accepted(events)
        && errChan.items == old(errChan.items) + DropErrors(events)
    {
      consumed := 0;
      while consumed < |events|
        invariant consumed <= |events|
        invariant containerAccumulator == old(containerAccumulator)
        invariant aggregationData == old(aggregationData) + Accepted(events[..consumed])
        invariant errChan.items == old(errChan.items) + DropErrors(events[..consumed])
      {
        var blocked := CollectStep(events[consumed], errChan);
        if blocked {
          return;
        }
        CollectOneMore(events, consumed);
        consumed := consumed + 1;
      }
      assert events[..consumed] == events;
    }

    /** `StartAggregate`: creates and starts the container's accumulator,
        starts the collector on `errChan` (its iterations are `CollectStep`),
        and adds the events the capture cache already holds for this
        container, `cached`, to the buffer. It always returns nil. */
    method StartAggregate(errChan: Channel<Error>, cached: seq<EventClient>) returns (err: Option<Error>)
      modifies this
      ensures err == None
      ensures containerAccumulator == Accumulating
      ensures aggregationData == old(aggregationData) + cached
    {
      containerAccumulator := Accumulating;
      aggregationData := aggregationData + cached;
      err := None;
    }

    /** `StopAggregate`: stops the accumulator; the buffer stays readable. It
        always returns nil. Called with no accumulator attached, the Go code
        calls a method on a nil interface and panics. */
    method StopAggregate() returns (err: Option<Error>)
      requires containerAccumulator != Detached
      modifies this
      ensures err == None
      ensures containerAccumulator == Stopped
      ensures aggregationData == old(aggregationData)
    {
      containerAccumulator := Stopped;
      err := None;
    }

    /** `GetContainerRealtimeFileList`: reads the buffer, changes nothing, and
        returns every distinct non-empty opened-file name mapped to true. */
    method GetContainerRealtimeFileList() returns (fileList: map<string, bool>)
      ensures fileList == RealtimeFileList(aggregationData)
      ensures fileList.Keys == OpenedFiles(aggregationData)
    {
      fileList := map[];
      var i := 0;
      while i < |aggregationData|
        invariant i <= |aggregationData|
        invariant fileList == RealtimeFileList(aggregationData[..i])
      {
        var fileName := aggregationData[i].openFileName;
        if fileName != "" {
          fileList := fileList[fileName := true];
        }
        assert aggregationData[..i + 1][..i] == aggregationData[..i];
        i := i + 1;
      }
      assert aggregationData[..i] == aggregationData;
    }
  }
}
