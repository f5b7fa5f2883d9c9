/**
 * DataCollector (src/data_collector.py:69-346): the lists of snapshots,
 * phase changes and emergency events of one run, the two bounded real-time
 * buffers fed by every snapshot, the dashboard view of them, the summary
 * statistics and the run's entry in the history index.
 */
module Collector {
  import opened Wrappers
  import opened Summary
  import opened History

  /** DataCollector.buffer_size: the maxlen of the real-time deques. */
  const BufferSize: nat := 100

  /** One `{'time': ..., 'value': ...}` point of a real-time buffer. */
  datatype BufferPoint<T> = BufferPoint(time: real, value: T)

  /** The last n elements of s, or all of s when it is shorter. */
  function Window<T>(s: seq<T>, n: nat): (r: seq<T>)
    ensures |s| <= n ==> r == s
    ensures |s| > n ==> |r| == n && forall i :: 0 <= i < n ==> r[i] == s[|s| - n + i]
  {
    if |s| <= n then s else s[|s| - n..]
  }

  /** `append` on a deque with maxlen n > 0: a full deque drops its oldest element. */
  function Push<T>(buf: seq<T>, x: T, n: nat): (r: seq<T>)
    requires 0 < n && |buf| <= n
    ensures r == Window(buf + [x], n)
    ensures 0 < |r| <= n && r[|r| - 1] == x
  {
    if |buf| == n then buf[1..] + [x] else buf + [x]
  }

  /** Pushing onto the window of a list is the window of the list with the element appended. */
  lemma WindowPush<T>(s: seq<T>, x: T, n: nat)
    requires 0 < n
    ensures Push(Window(s, n), x, n) == Window(s + [x], n)
  {
    var w := Window(s, n);
    var s' := s + [x];
    if |s| < n {
      assert w == s;
    } else {
      assert |w| == n;
      assert w[1..] + [x] == s'[|s'| - n..];
    }
  }

  /** The waiting-time points the snapshots push, in order. */
  function WaitingPoints(snaps: seq<Snapshot>): (r: seq<BufferPoint<real>>)
    ensures |r| == |snaps|
    ensures forall i :: 0 <= i < |snaps| ==>
      r[i] == BufferPoint(snaps[i].simulationTime, snaps[i].averageWaitingTime)
  {
    if snaps == [] then []
    else
      var last := snaps[|snaps| - 1];
      WaitingPoints(snaps[..|snaps| - 1]) + [BufferPoint(last.simulationTime, last.averageWaitingTime)]
  }

  /** The queue-length points the snapshots push, in order. */
  function QueuePoints(snaps: seq<Snapshot>): (r: seq<BufferPoint<int>>)
    ensures |r| == |snaps|
    ensures forall i :: 0 <= i < |snaps| ==>
      r[i] == BufferPoint(snaps[i].simulationTime, snaps[i].totalQueueLength)
  {
    if snaps == [] then []
    else
      var last := snaps[|snaps| - 1];
      QueuePoints(snaps[..|snaps| - 1]) + [BufferPoint(last.simulationTime, last.totalQueueLength)]
  }

  lemma PointsAppend(snaps: seq<Snapshot>, s: Snapshot)
    ensures WaitingPoints(snaps + [s]) == WaitingPoints(snaps) + [BufferPoint(s.simulationTime, s.averageWaitingTime)]
    ensures QueuePoints(snaps + [s]) == QueuePoints(snaps) + [BufferPoint(s.simulationTime, s.totalQueueLength)]
  {
    assert (snaps + [s])[..|snaps|] == snaps;
  }

  /** The buffers of the snapshots plus one more are those of the snapshots with its points pushed. */
  lemma BuffersAfterSnapshot(snaps: seq<Snapshot>, s: Snapshot, t: real)
    requires s.simulationTime == t
    ensures Push(Window(WaitingPoints(snaps), BufferSize), BufferPoint(t, s.averageWaitingTime), BufferSize)
      == Window(WaitingPoints(snaps + [s]), BufferSize)
    ensures Push(Window(QueuePoints(snaps), BufferSize), BufferPoint(t, s.totalQueueLength), BufferSize)
      == Window(QueuePoints(snaps + [s]), BufferSize)
  {
    PointsAppend(snaps, s);
    WindowPush(WaitingPoints(snaps), BufferPoint(t, s.averageWaitingTime), BufferSize);
    WindowPush(QueuePoints(snaps), BufferPoint(t, s.totalQueueLength), BufferSize);
  }

  /** What get_real_time_data returns. */
  datatype RealTimeData = RealTimeData(
    waitingTimeHistory: seq<BufferPoint<real>>,
    queueLengthHistory: seq<BufferPoint<int>>,
    latestSnapshot: Option<Snapshot>,
    totalSnapshots: nat,
    phaseChangesCount: nat,
    emergencyEventsCount: nat)

  class DataCollector {
    const mode: string
    /** The start-up time stamp `%Y%m%d_%H%M%S`, passed in instead of read from the clock. */
    const timestampStr: string
    const runId: string

    var snapshots: seq<Snapshot>
    var phaseChanges: seq<PhaseChangeRecord>
    var emergencyEvents: seq<EmergencyEvent>
    var waitingTimeBuffer: seq<BufferPoint<real>>
    var queueLengthBuffer: seq<BufferPoint<int>>

    /** The buffers hold the points of the last BufferSize snapshots, oldest first. */
    predicate Valid()
      reads this
    {
      && waitingTimeBuffer == Window(WaitingPoints(snapshots), BufferSize)
      && queueLengthBuffer == Window(QueuePoints(snapshots), BufferSize)
    }

    constructor(mode: string, timestampStr: string)
      ensures Valid()
      ensures this.mode == mode && this.timestampStr == timestampStr
      ensures runId == timestampStr + "_" + mode
      ensures snapshots == [] && phaseChanges == [] && emergencyEvents == []
    {
      this.mode := mode;
      this.timestampStr := timestampStr;
      runId := timestampStr + "_" + mode;
      snapshots := [];
      phaseChanges := [];
      emergencyEvents := [];
      waitingTimeBuffer := [];
      queueLengthBuffer := [];
      new;
      assert WaitingPoints([]) == [] && QueuePoints([]) == [];
    }

    /**
     * collect_snapshot: the snapshot is appended to the run's list and its
     * waiting-time and queue-length points pushed onto the bounded buffers;
     * the phase and emergency records are left alone. The wall-clock stamp
     * is a parameter.
     */
    method CollectSnapshot(wallClock: real, t: real, ap: ApproachData, report: ControllerReport)
      returns (snap: Snapshot)
      requires Valid()
      modifies this
      ensures Valid()
      ensures snap == MakeSnapshot(wallClock, t, ap, report, mode)
      ensures snapshots == old(snapshots) + [snap]
      ensures waitingTimeBuffer == Push(old(waitingTimeBuffer), BufferPoint(t, snap.averageWaitingTime), BufferSize)
      ensures queueLengthBuffer == Push(old(queueLengthBuffer), BufferPoint(t, snap.totalQueueLength), BufferSize)
      ensures phaseChanges == old(phaseChanges) && emergencyEvents == old(emergencyEvents)
    {
      snap := MakeSnapshot(wallClock, t, ap, report, mode);
      BuffersAfterSnapshot(snapshots, snap, t);
      snapshots := snapshots + [snap];
      waitingTimeBuffer := Push(waitingTimeBuffer, BufferPoint(t, snap.averageWaitingTime), BufferSize);
      queueLengthBuffer := Push(queueLengthBuffer, BufferPoint(t, snap.totalQueueLength), BufferSize);
    }

    /** record_phase_change: one record appended, nothing else changed. */
    method RecordPhaseChange(wallClock: real, t: real, fromPhase: int, toPhase: int, reason: string, duration: real)
      modifies this
      ensures phaseChanges == old(phaseChanges) + [PhaseChangeRecord(wallClock, t, fromPhase, toPhase, reason, duration)]
      ensures snapshots == old(snapshots) && emergencyEvents == old(emergencyEvents)
      ensures waitingTimeBuffer == old(waitingTimeBuffer) && queueLengthBuffer == old(queueLengthBuffer)
    {
      phaseChanges := phaseChanges + [PhaseChangeRecord(wallClock, t, fromPhase, toPhase, reason, duration)];
    }

    /** record_emergency_event: one event appended, nothing else changed. */
    method RecordEmergencyEvent(wallClock: real, t: real, vehicleId: string, approachDirection: string,
                                preemptionTriggered: bool, responseTime: real)
      modifies this
      ensures emergencyEvents == old(emergencyEvents)
        + [EmergencyEvent(wallClock, t, vehicleId, approachDirection, preemptionTriggered, responseTime)]
      ensures snapshots == old(snapshots) && phaseChanges == old(phaseChanges)
      ensures waitingTimeBuffer == old(waitingTimeBuffer) && queueLengthBuffer == old(queueLengthBuffer)
    {
      emergencyEvents := emergencyEvents
        + [EmergencyEvent(wallClock, t, vehicleId, approachDirection, preemptionTriggered, responseTime)];
    }

    /**
     * get_real_time_data: the buffered histories, at most BufferSize points
     * each and ending with the latest snapshot's point; the latest snapshot,
     * if any; and the three counts.
     */
    function GetRealTimeData(): (r: RealTimeData)
      requires Valid()
      reads this
      ensures r.latestSnapshot.None? <==> snapshots == []
      ensures r.latestSnapshot.Some? ==> r.latestSnapshot.value == snapshots[|snapshots| - 1]
      ensures r.waitingTimeHistory == Window(WaitingPoints(snapshots), BufferSize)
      ensures r.queueLengthHistory == Window(QueuePoints(snapshots), BufferSize)
      ensures |r.waitingTimeHistory| == |r.queueLengthHistory| <= BufferSize
      ensures |r.waitingTimeHistory| == if |snapshots| <= BufferSize then |snapshots| else BufferSize
      ensures snapshots != [] ==>
        var last := snapshots[|snapshots| - 1];
        && r.waitingTimeHistory[|r.waitingTimeHistory| - 1] == BufferPoint(last.simulationTime, last.averageWaitingTime)
        && r.queueLengthHistory[|r.queueLengthHistory| - 1] == BufferPoint(last.simulationTime, last.totalQueueLength)
      ensures r.totalSnapshots == |snapshots| && r.phaseChangesCount == |phaseChanges|
      ensures r.emergencyEventsCount == |emergencyEvents|
    {
      RealTimeData(waitingTimeBuffer, queueLengthBuffer,
                   if snapshots == [] then None else Some(snapshots[|snapshots| - 1]),
                   |snapshots|, |phaseChanges|, |emergencyEvents|)
    }

    /** get_summary_statistics; None stands for the empty dict returned before the first snapshot. */
    function GetSummaryStatistics(): (r: Option<SummaryStatistics>)
      reads this
      ensures r.None? <==> snapshots == []
      ensures r == SummaryOf(mode, snapshots, phaseChanges, emergencyEvents)
    {
      SummaryOf(mode, snapshots, phaseChanges, emergencyEvents)
    }

    /**
     * The list part of _update_history_index: this run's entry appended to
     * the history read from the index, then the whole list sorted newest
     * first. Reading and writing the index file are left out.
     */
    method UpdateHistoryIndex(history: seq<HistoryEntry>) returns (updated: seq<HistoryEntry>)
      ensures SortedDesc(updated)
      ensures multiset(updated) == multiset(history) + multiset{HistoryEntry(runId, timestampStr, mode, GetSummaryStatistics())}
    {
      var entry := HistoryEntry(runId, timestampStr, mode, GetSummaryStatistics());
      updated := AppendAndSort(history, entry);
    }
  }
}
