/**
 * The records DataCollector keeps (src/data_collector.py:22-63) and the
 * pure computations over them: the totals and average of a snapshot
 * (src/data_collector.py:116-154) and get_summary_statistics
 * (src/data_collector.py:214-264).
 */
module Summary {
  import opened Wrappers
  import opened Stats

  /** One approach's entry of approach_data; a missing key is None and reads as 0. */
  datatype ApproachRecord = ApproachRecord(
    totalVehicles: Option<int>,
    queueLength: Option<int>,
    totalWaitingTime: Option<real>,
    pressure: Option<real>)

  /** approach_data: approach name to its entry, in the dict's order. */
  type ApproachData = seq<(string, ApproachRecord)>

  /** The keys of controller_state the snapshot reads. */
  datatype ControllerReport = ControllerReport(currentPhase: Option<int>, emergencyActive: Option<bool>)

  datatype Snapshot = Snapshot(
    timestamp: real,
    simulationTime: real,
    totalVehicles: int,
    averageWaitingTime: real,
    totalQueueLength: int,
    northVehicles: int,
    southVehicles: int,
    eastVehicles: int,
    westVehicles: int,
    northPressure: real,
    southPressure: real,
    eastPressure: real,
    westPressure: real,
    currentPhase: int,
    controllerMode: string,
    emergencyActive: bool)

  datatype PhaseChangeRecord = PhaseChangeRecord(
    timestamp: real,
    simulationTime: real,
    fromPhase: int,
    toPhase: int,
    reason: string,
    duration: real)

  datatype EmergencyEvent = EmergencyEvent(
    timestamp: real,
    simulationTime: real,
    vehicleId: string,
    approachDirection: string,
    preemptionTriggered: bool,
    responseTime: real)

  /** `.get(key, 0)` */
  function IntOr0(o: Option<int>): int { if o.Some? then o.value else 0 }

  function RealOr0(o: Option<real>): real { if o.Some? then o.value else 0.0 }

  /** `sum(d.get('total_vehicles', 0) for d in approach_data.values())` */
  function TotalVehicles(ap: ApproachData): int
  {
    if ap == [] then 0 else TotalVehicles(ap[..|ap| - 1]) + IntOr0(ap[|ap| - 1].1.totalVehicles)
  }

  /** `sum(d.get('queue_length', 0) for d in approach_data.values())` */
  function TotalQueue(ap: ApproachData): int
  {
    if ap == [] then 0 else TotalQueue(ap[..|ap| - 1]) + IntOr0(ap[|ap| - 1].1.queueLength)
  }

  /** `sum(d.get('total_waiting_time', 0) for d in approach_data.values())` */
  function TotalWaiting(ap: ApproachData): real
  {
    if ap == [] then 0.0 else TotalWaiting(ap[..|ap| - 1]) + RealOr0(ap[|ap| - 1].1.totalWaitingTime)
  }

  /** `approach_data.get(key, {})`: the entry under key, if any. */
  function Lookup(ap: ApproachData, key: string): (r: Option<ApproachRecord>)
    ensures r.None? <==> forall i :: 0 <= i < |ap| ==> ap[i].0 != key
    ensures r.Some? ==> exists i :: 0 <= i < |ap| && ap[i] == (key, r.value)
  {
    if ap == [] then None
    else if ap[0].0 == key then Some(ap[0].1)
    else
      var r := Lookup(ap[1..], key);
      assert forall i :: 0 < i < |ap| ==> ap[i] == ap[1..][i - 1];
      r
  }

  /** `approach_data.get(key, {}).get('total_vehicles', 0)` */
  function VehiclesAt(ap: ApproachData, key: string): int
  {
    match Lookup(ap, key)
    case None => 0
    case Some(r) => IntOr0(r.totalVehicles)
  }

  /** `approach_data.get(key, {}).get('pressure', 0)` */
  function PressureAt(ap: ApproachData, key: string): real
  {
    match Lookup(ap, key)
    case None => 0.0
    case Some(r) => RealOr0(r.pressure)
  }

  /** `total_waiting / max(total_vehicles, 1)` */
  function AverageWaiting(totalWaiting: real, totalVehicles: int): (r: real)
    ensures r * (if totalVehicles >= 1 then totalVehicles else 1) as real == totalWaiting
    ensures totalWaiting >= 0.0 ==> 0.0 <= r <= totalWaiting
  {
    var divisor := if totalVehicles >= 1 then totalVehicles else 1;
    assert divisor as real >= 1.0;
    totalWaiting / divisor as real
  }

  /** The snapshot collect_snapshot builds; the wall-clock stamp is a parameter. */
  function MakeSnapshot(wallClock: real, t: real, ap: ApproachData, report: ControllerReport, mode: string): (s: Snapshot)
    ensures s.simulationTime == t && s.controllerMode == mode && s.timestamp == wallClock
    ensures s.totalVehicles == TotalVehicles(ap) && s.totalQueueLength == TotalQueue(ap)
    ensures s.averageWaitingTime == AverageWaiting(TotalWaiting(ap), TotalVehicles(ap))
    ensures s.averageWaitingTime * (if s.totalVehicles >= 1 then s.totalVehicles else 1) as real == TotalWaiting(ap)
    ensures s.northVehicles == VehiclesAt(ap, "north") && s.southVehicles == VehiclesAt(ap, "south")
    ensures s.eastVehicles == VehiclesAt(ap, "east") && s.westVehicles == VehiclesAt(ap, "west")
    ensures s.northPressure == PressureAt(ap, "north") && s.southPressure == PressureAt(ap, "south")
    ensures s.eastPressure == PressureAt(ap, "east") && s.westPressure == PressureAt(ap, "west")
    ensures s.currentPhase == (if report.currentPhase.Some? then report.currentPhase.value else 0)
    ensures s.emergencyActive == (report.emergencyActive.Some? && report.emergencyActive.value)
  {
    var totalVehicles := TotalVehicles(ap);
    Snapshot(wallClock, t, totalVehicles, AverageWaiting(TotalWaiting(ap), totalVehicles), TotalQueue(ap),
             VehiclesAt(ap, "north"), VehiclesAt(ap, "south"), VehiclesAt(ap, "east"), VehiclesAt(ap, "west"),
             PressureAt(ap, "north"), PressureAt(ap, "south"), PressureAt(ap, "east"), PressureAt(ap, "west"),
             IntOr0(report.currentPhase),
             mode,
             report.emergencyActive.Some? && report.emergencyActive.value)
  }

  /** Well-formed approach observations: no negative waiting time. */
  predicate NonNegativeWaiting(ap: ApproachData)
  {
    forall i :: 0 <= i < |ap| ==> RealOr0(ap[i].1.totalWaitingTime) >= 0.0
  }

  /** With no negative waiting times the total, and so the average, is never negative. */
  lemma {:induction false} AverageWaitingNonNegative(ap: ApproachData)
    requires NonNegativeWaiting(ap)
    ensures TotalWaiting(ap) >= 0.0
    ensures forall w, t, r, m :: MakeSnapshot(w, t, ap, r, m).averageWaitingTime >= 0.0
  {
    if ap != [] {
      var init := ap[..|ap| - 1];
      assert forall i :: 0 <= i < |init| ==> init[i] == ap[i];
      AverageWaitingNonNegative(init);
    }
  }

  /** The totals are sums over the entries: one more entry adds its values, missing keys adding 0. */
  lemma TotalsAppend(ap: ApproachData, key: string, entry: ApproachRecord)
    ensures TotalVehicles(ap + [(key, entry)]) == TotalVehicles(ap) + IntOr0(entry.totalVehicles)
    ensures TotalQueue(ap + [(key, entry)]) == TotalQueue(ap) + IntOr0(entry.queueLength)
    ensures TotalWaiting(ap + [(key, entry)]) == TotalWaiting(ap) + RealOr0(entry.totalWaitingTime)
  {
    assert (ap + [(key, entry)])[..|ap|] == ap;
  }

  /** With an entry for each of the four approaches, the vehicle total is the sum of the four per-approach counts. */
  lemma FourApproachesTotal(n: ApproachRecord, s: ApproachRecord, e: ApproachRecord, w: ApproachRecord)
    ensures var ap := [("north", n), ("south", s), ("east", e), ("west", w)];
      var snap := MakeSnapshot(0.0, 0.0, ap, ControllerReport(None, None), "adaptive");
      snap.totalVehicles == snap.northVehicles + snap.southVehicles + snap.eastVehicles + snap.westVehicles
  {
    var ap := [("north", n), ("south", s), ("east", e), ("west", w)];
    assert ap[..3] == [("north", n), ("south", s), ("east", e)];
    assert ap[..3][..2] == [("north", n), ("south", s)];
    assert ap[..3][..2][..1] == [("north", n)];
    assert TotalVehicles(ap[..3][..2][..1]) == IntOr0(n.totalVehicles);
    assert TotalVehicles(ap[..3][..2]) == IntOr0(n.totalVehicles) + IntOr0(s.totalVehicles);
    assert TotalVehicles(ap[..3]) == IntOr0(n.totalVehicles) + IntOr0(s.totalVehicles) + IntOr0(e.totalVehicles);
    assert "north"[0] != "south"[0] && "north"[0] != "east"[0] && "north"[0] != "west"[0];
    assert "south"[0] != "east"[0] && "south"[0] != "west"[0] && "east"[0] != "west"[0];
    assert ap[1..] == [("south", s), ("east", e), ("west", w)];
    assert ap[1..][1..] == [("east", e), ("west", w)];
    assert ap[1..][1..][1..] == [("west", w)];
    assert Lookup(ap, "north") == Some(n);
    assert Lookup(ap, "south") == Some(s);
    assert Lookup(ap[1..][1..], "east") == Some(e);
    assert Lookup(ap[1..], "east") == Some(e);
    assert Lookup(ap, "east") == Some(e);
    assert Lookup(ap[1..][1..][1..], "west") == Some(w);
    assert Lookup(ap[1..][1..], "west") == Some(w);
    assert Lookup(ap[1..], "west") == Some(w);
    assert Lookup(ap, "west") == Some(w);
  }

  /** An empty approach_data and controller_state give all-zero readings. */
  lemma EmptyInputsReadZero(wallClock: real, t: real, mode: string)
    ensures var s := MakeSnapshot(wallClock, t, [], ControllerReport(None, None), mode);
      && s.totalVehicles == 0 && s.totalQueueLength == 0 && s.averageWaitingTime == 0.0
      && s.northVehicles == 0 && s.westPressure == 0.0 && s.currentPhase == 0 && !s.emergencyActive
  {
  }

  /** How many phase changes went to phase p. */
  function CountToPhase(pcs: seq<PhaseChangeRecord>, p: int): (n: nat)
    ensures n <= |pcs|
  {
    if pcs == [] then 0
    else CountToPhase(pcs[..|pcs| - 1], p) + if pcs[|pcs| - 1].toPhase == p then 1 else 0
  }

  /** How many emergency events triggered a preemption. */
  function CountTriggered(events: seq<EmergencyEvent>): (n: nat)
    ensures n <= |events|
  {
    if events == [] then 0
    else CountTriggered(events[..|events| - 1]) + if events[|events| - 1].preemptionTriggered then 1 else 0
  }

  /** The phase changes to p are counted once each: the count is the number of positions holding one. */
  lemma {:induction false} CountToPhaseCountsPositions(pcs: seq<PhaseChangeRecord>, p: int)
    ensures CountToPhase(pcs, p) == |set i | 0 <= i < |pcs| && pcs[i].toPhase == p|
  {
    if pcs != [] {
      var n := |pcs| - 1;
      var init := pcs[..n];
      CountToPhaseCountsPositions(init, p);
      var before := set i | 0 <= i < n && init[i].toPhase == p;
      var all := set i | 0 <= i < |pcs| && pcs[i].toPhase == p;
      if pcs[n].toPhase == p {
        assert all == before + {n};
      } else {
        assert all == before;
      }
    }
  }

  /** The triggered events are counted once each: the count is the number of positions holding one. */
  lemma {:induction false} CountTriggeredCountsPositions(events: seq<EmergencyEvent>)
    ensures CountTriggered(events) == |set i | 0 <= i < |events| && events[i].preemptionTriggered|
  {
    if events != [] {
      var n := |events| - 1;
      var init := events[..n];
      CountTriggeredCountsPositions(init);
      var before := set i | 0 <= i < n && init[i].preemptionTriggered;
      var all := set i | 0 <= i < |events| && events[i].preemptionTriggered;
      if events[n].preemptionTriggered {
        assert all == before + {n};
      } else {
        assert all == before;
      }
    }
  }

  /** Changes to phase 0 and changes to phase 3 are counted apart, so together they are at most all changes. */
  lemma {:induction false} DistinctPhaseCounts(pcs: seq<PhaseChangeRecord>, p: int, q: int)
    requires p != q
    ensures CountToPhase(pcs, p) + CountToPhase(pcs, q) <= |pcs|
  {
    if pcs != [] {
      DistinctPhaseCounts(pcs[..|pcs| - 1], p, q);
    }
  }

  /** The result of get_summary_statistics when there is at least one snapshot. */
  datatype SummaryStatistics = SummaryStatistics(
    mode: string,
    totalSamples: nat,
    simulationDuration: real,
    averageWaitingTime: real,
    maxWaitingTime: real,
    minWaitingTime: real,
    averageQueueLength: real,
    maxQueueLength: int,
    totalPhaseChanges: nat,
    nsGreenPhases: nat,
    ewGreenPhases: nat,
    emergencyEvents: nat,
    emergencyPreemptions: nat)

  function WaitingTimes(snaps: seq<Snapshot>): (r: seq<real>)
    ensures |r| == |snaps| && forall i :: 0 <= i < |snaps| ==> r[i] == snaps[i].averageWaitingTime
  {
    if snaps == [] then [] else WaitingTimes(snaps[..|snaps| - 1]) + [snaps[|snaps| - 1].averageWaitingTime]
  }

  function QueueLengths(snaps: seq<Snapshot>): (r: seq<int>)
    ensures |r| == |snaps| && forall i :: 0 <= i < |snaps| ==> r[i] == snaps[i].totalQueueLength
  {
    if snaps == [] then [] else QueueLengths(snaps[..|snaps| - 1]) + [snaps[|snaps| - 1].totalQueueLength]
  }

  /** max() of a non-empty list of integers: the largest of them taken as reals, which is one of them. */
  function MaxInt(s: seq<int>): (r: int)
    requires s != []
    ensures r in s && forall x :: x in s ==> x <= r
  {
    var m := MaxOf(Reals(s));
    assert forall x :: x in s ==> x as real in Reals(s) by {
      forall x | x in s ensures x as real in Reals(s) {
        var i :| 0 <= i < |s| && s[i] == x;
        assert Reals(s)[i] == x as real;
      }
    }
    var i :| 0 <= i < |s| && Reals(s)[i] == m;
    assert s[i] as real == m && s[i] in s;
    m.Floor
  }

  /** The average of integers is at most their maximum. */
  lemma MeanAtMostMaxInt(s: seq<int>)
    requires s != []
    ensures Mean(Reals(s)) <= MaxInt(s) as real
  {
    var r := Reals(s);
    forall x | x in r ensures MinOf(r) <= x <= MaxInt(s) as real {
      var i :| 0 <= i < |r| && r[i] == x;
      assert s[i] in s;
    }
    MeanWithin(r, MinOf(r), MaxInt(s) as real);
  }

  /**
   * get_summary_statistics: None (the empty dict) without snapshots;
   * otherwise the sample count, the last snapshot's time, the average and
   * extremes of waiting time and queue length, and the phase and emergency
   * counts.
   */
  function SummaryOf(mode: string, snaps: seq<Snapshot>, pcs: seq<PhaseChangeRecord>, events: seq<EmergencyEvent>)
    : (r: Option<SummaryStatistics>)
    ensures r.None? <==> snaps == []
    ensures r.Some? ==>
      var s := r.value;
      && s.mode == mode && s.totalSamples == |snaps|
      && s.simulationDuration == snaps[|snaps| - 1].simulationTime
      && s.averageWaitingTime == Mean(WaitingTimes(snaps))
      && s.maxWaitingTime == MaxOf(WaitingTimes(snaps)) && s.minWaitingTime == MinOf(WaitingTimes(snaps))
      && s.minWaitingTime <= s.averageWaitingTime <= s.maxWaitingTime
      && (exists i :: 0 <= i < |snaps| && snaps[i].averageWaitingTime == s.maxWaitingTime)
      && (exists i :: 0 <= i < |snaps| && snaps[i].averageWaitingTime == s.minWaitingTime)
      && (forall i :: 0 <= i < |snaps| ==>
            s.minWaitingTime <= snaps[i].averageWaitingTime <= s.maxWaitingTime)
      && s.averageQueueLength == Mean(Reals(QueueLengths(snaps)))
      && s.averageQueueLength <= s.maxQueueLength as real
      && (exists i :: 0 <= i < |snaps| && snaps[i].totalQueueLength == s.maxQueueLength)
      && (forall i :: 0 <= i < |snaps| ==> snaps[i].totalQueueLength <= s.maxQueueLength)
      && s.totalPhaseChanges == |pcs|
      && s.nsGreenPhases == CountToPhase(pcs, 0) && s.ewGreenPhases == CountToPhase(pcs, 3)
      && s.nsGreenPhases + s.ewGreenPhases <= s.totalPhaseChanges
      && s.emergencyEvents == |events| && s.emergencyPreemptions == CountTriggered(events)
      && s.emergencyPreemptions <= s.emergencyEvents
  {
    if snaps == [] then None
    else
      var waits := WaitingTimes(snaps);
      var queues := QueueLengths(snaps);
      MeanBetween(waits);
      MeanAtMostMaxInt(queues);
      DistinctPhaseCounts(pcs, 0, 3);
      assert forall i :: 0 <= i < |snaps| ==> waits[i] in waits && queues[i] in queues;
      Some(SummaryStatistics(
        mode, |snaps|, snaps[|snaps| - 1].simulationTime,
        Mean(waits), MaxOf(waits), MinOf(waits),
        Mean(Reals(queues)), MaxInt(queues),
        |pcs|, CountToPhase(pcs, 0), CountToPhase(pcs, 3),
        |events|, CountTriggered(events)))
  }
}
