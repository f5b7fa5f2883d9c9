/**
 * FixedTimeController (src/logic.py:127-177): a round robin over the eight
 * phases, north green, north yellow, east green, ..., west yellow, each held
 * for the fixed green or the yellow duration.
 */
module FixedTime {
  import opened Wrappers
  import opened Phases
  import opened Config
  import opened Decisions

  /** One row of phase_sequence: actuator index, phase type and duration (its direction is the phase's). */
  datatype FixedEntry = FixedEntry(phaseIndex: nat, phase: Phase, duration: real)

  /** phase_sequence: row i is phase i, held for the fixed green or the yellow duration. */
  function PhaseSequence(light: TrafficLightConfig): (r: seq<FixedEntry>)
    ensures |r| == 8
    ensures forall i :: 0 <= i < 8 ==>
      && r[i].phaseIndex == i && r[i].phase == PhaseAt(i)
      && r[i].duration == if r[i].phase.color == Green then light.fixedGreenDuration else light.yellowDuration
  {
    var g := light.fixedGreenDuration;
    var y := light.yellowDuration;
    [ FixedEntry(0, Phase(North, Green), g), FixedEntry(1, Phase(North, Yellow), y),
      FixedEntry(2, Phase(East, Green), g),  FixedEntry(3, Phase(East, Yellow), y),
      FixedEntry(4, Phase(South, Green), g), FixedEntry(5, Phase(South, Yellow), y),
      FixedEntry(6, Phase(West, Green), g),  FixedEntry(7, Phase(West, Yellow), y) ]
  }

  /** The controller's fields: its ControllerState, current_phase_index and phase_end_time. */
  datatype FixedState = FixedState(state: ControllerState, index: nat, phaseEnd: real)

  const FixedInitial: FixedState := FixedState(InitialState, 0, 0.0)

  datatype FixedStep = FixedStep(next: FixedState, decision: Option<PhaseDecision>)

  /** The expiry branch of update: move to the next row, hold it for its duration, count green time. */
  function Advance(light: TrafficLightConfig, s: FixedState, t: real): FixedStep
    requires s.index < 8
  {
    var i := (s.index + 1) % 8;
    var e := PhaseSequence(light)[i];
    var d := e.phase.direction;
    var st := s.state.(currentDirection := d);
    var st' := if e.phase.color == Green then AddGreenTime(st, d, e.duration) else st;
    FixedStep(FixedState(st', i, t + e.duration), Some(PhaseDecision(e.phaseIndex, e.phase, e.duration, FixedRotation, None)))
  }

  /** update: first-call set-up on the phase_end_time == 0.0 sentinel, then expiry, else nothing. */
  function FixedUpdate(light: TrafficLightConfig, s: FixedState, t: real): FixedStep
    requires s.index < 8
  {
    if s.phaseEnd == 0.0 then
      FixedStep(s.(phaseEnd := t + PhaseSequence(light)[0].duration, state := s.state.(currentDirection := North)),
                Some(PhaseDecision(0, Phase(North, Green), light.fixedGreenDuration, InitialFixed, None)))
    else if t >= s.phaseEnd then Advance(light, s, t)
    else FixedStep(s, None)
  }

  /** The first call starts north green, index 0, for the fixed green duration; the index stays 0. */
  lemma FixedFirstCall(light: TrafficLightConfig, t: real)
    ensures var r := FixedUpdate(light, FixedInitial, t);
      && r.decision == Some(PhaseDecision(0, Phase(North, Green), light.fixedGreenDuration, InitialFixed, None))
      && IndexMatchesPhase(r.decision.value)
      && r.next.index == 0 && r.next.phaseEnd == t + light.fixedGreenDuration
      && r.next.state.directionGreenTimes == FixedInitial.state.directionGreenTimes
  {
  }

  /** Before its end time a phase is held: no decision and no change. */
  lemma FixedHolds(light: TrafficLightConfig, s: FixedState, t: real)
    requires s.index < 8 && s.phaseEnd != 0.0 && t < s.phaseEnd
    ensures FixedUpdate(light, s, t) == FixedStep(s, None)
  {
  }

  /**
   * At or after its end time the index advances by one modulo 8; the decision
   * names that row's phase for its duration, and only a green adds its
   * duration to its direction's green total.
   */
  lemma FixedAdvances(light: TrafficLightConfig, s: FixedState, t: real)
    requires s.index < 8 && s.phaseEnd != 0.0 && t >= s.phaseEnd
    ensures var r := FixedUpdate(light, s, t);
      var i := (s.index + 1) % 8;
      var p := PhaseAt(i);
      var duration := if p.color == Green then light.fixedGreenDuration else light.yellowDuration;
      && r.next.index == i
      && r.decision.Some? && r.decision.value.phaseIndex == i && r.decision.value.phase == p
      && IndexMatchesPhase(r.decision.value)
      && r.decision.value.duration == duration
      && r.next.phaseEnd == t + duration
      && r.next.state.currentDirection == p.direction
      && (forall d :: r.next.state.directionGreenTimes.At(d) ==
            s.state.directionGreenTimes.At(d) + (if p == Phase(d, Green) then light.fixedGreenDuration else 0.0))
  {
  }

  /**
   * The round robin: a green is followed by the yellow of the same direction,
   * and a yellow by the green of the next direction of PHASE_ORDER.
   */
  lemma RotationOrder(i: nat)
    requires i < 8
    ensures var p := PhaseAt(i);
      var q := PhaseAt((i + 1) % 8);
      && (p.color == Green ==> q == Phase(p.direction, Yellow))
      && (p.color == Yellow ==> q == Phase(PhaseOrder[(Rank(p.direction) + 1) % 4], Green))
  {
    var k := i / 2;
    assert PhaseOrder[k] == PhaseAt(i).direction;
    OrderGivesIndices(k);
    if i % 2 == 0 {
      assert (i + 1) % 8 == i + 1 && (i + 1) / 2 == k;
    } else if i < 7 {
      assert (i + 1) % 8 == i + 1 && (i + 1) / 2 == k + 1;
    } else {
      assert (i + 1) % 8 == 0;
    }
  }

  /** The state after a run of phase expiries at the given times. */
  function Rotations(light: TrafficLightConfig, s: FixedState, times: seq<real>): (r: FixedState)
    requires s.index < 8
    ensures r.index < 8
    decreases |times|
  {
    if times == [] then s
    else Rotations(light, Advance(light, s, times[0]).next, times[1..])
  }

  /** The green time the k phases after index i grant direction d: the fixed green for each of its greens. */
  function GreenTimeAfter(light: TrafficLightConfig, d: Direction, i: nat, k: nat): real
    decreases k
  {
    if k == 0 then 0.0
    else
      var j := if i == 7 then 0 else i + 1;
      (if j == GreenIndex(d) then light.fixedGreenDuration else 0.0) + GreenTimeAfter(light, d, j, k - 1)
  }

  /** One expiry moves the index one place round the table and adds a green's duration to its direction. */
  lemma AdvanceEffect(light: TrafficLightConfig, s: FixedState, t: real, d: Direction)
    requires s.index < 8
    ensures var n := Advance(light, s, t).next;
      && n.index == (if s.index == 7 then 0 else s.index + 1)
      && n.state.directionGreenTimes.At(d) == s.state.directionGreenTimes.At(d)
           + (if n.index == GreenIndex(d) then light.fixedGreenDuration else 0.0)
  {
    var i := (s.index + 1) % 8;
    assert i == if s.index == 7 then 0 else s.index + 1;
    PhaseIndexBijective(PhaseAt(i), Phase(d, Green));
  }

  /** Moving one place and then k more is moving k + 1 places. */
  lemma ShiftIndex(a: nat, k: nat)
    requires a < 8
    ensures ((if a == 7 then 0 else a + 1) + k) % 8 == (a + k + 1) % 8
  {
  }

  /** After k expiries the index has moved k places. */
  lemma {:induction false} RotationsIndex(light: TrafficLightConfig, s: FixedState, times: seq<real>)
    requires s.index < 8
    ensures Rotations(light, s, times).index == (s.index + |times|) % 8
    decreases |times|
  {
    if times != [] {
      var s1 := Advance(light, s, times[0]).next;
      AdvanceEffect(light, s, times[0], North);
      RotationsIndex(light, s1, times[1..]);
      ShiftIndex(s.index, |times| - 1);
    }
  }

  /** After k expiries direction d has gained the fixed green once for each of its greens among them. */
  lemma {:induction false} RotationsGreenTime(light: TrafficLightConfig, s: FixedState, times: seq<real>, d: Direction)
    requires s.index < 8
    ensures Rotations(light, s, times).state.directionGreenTimes.At(d) ==
      s.state.directionGreenTimes.At(d) + GreenTimeAfter(light, d, s.index, |times|)
    decreases |times|
  {
    if times != [] {
      var s1 := Advance(light, s, times[0]).next;
      AdvanceEffect(light, s, times[0], d);
      RotationsGreenTime(light, s1, times[1..], d);
    }
  }

  /** Eight consecutive phases grant every direction exactly one fixed green. */
  lemma FullCycleGreens(light: TrafficLightConfig, d: Direction, i: nat)
    requires i < 8
    ensures GreenTimeAfter(light, d, i, 8) == light.fixedGreenDuration
  {
  }

  /** A full cycle of eight expiries returns to the same index and grants every direction one fixed green. */
  lemma FullCycle(light: TrafficLightConfig, s: FixedState, times: seq<real>)
    requires s.index < 8 && |times| == 8
    ensures Rotations(light, s, times).index == s.index
    ensures forall d ::
      Rotations(light, s, times).state.directionGreenTimes.At(d) ==
        s.state.directionGreenTimes.At(d) + light.fixedGreenDuration
  {
    RotationsIndex(light, s, times);
    forall d
      ensures Rotations(light, s, times).state.directionGreenTimes.At(d) ==
        s.state.directionGreenTimes.At(d) + light.fixedGreenDuration
    {
      RotationsGreenTime(light, s, times, d);
      FullCycleGreens(light, d, s.index);
    }
  }

  /** current_phase (set by apply_decision) tracks the index, and the sentinel is only seen before the first call. */
  predicate FixedConsistent(s: FixedState)
  {
    && s.index < 8
    && s.state.currentPhase == s.index
    && (s.phaseEnd == 0.0 ==> s.index == 0)
  }

  /** update followed by apply_decision at time appliedAt when a decision came back. */
  function FixedTick(light: TrafficLightConfig, s: FixedState, t: real, appliedAt: real): FixedStep
    requires s.index < 8
  {
    var u := FixedUpdate(light, s, t);
    match u.decision
    case None => u
    case Some(d) => FixedStep(u.next.(state := Applied(u.next.state, d, appliedAt)), u.decision)
  }

  /**
   * With positive durations and non-negative times, the controller's phase
   * index and the state's current_phase agree after every tick.
   */
  lemma FixedTickKeepsConsistent(light: TrafficLightConfig, s: FixedState, t: real, appliedAt: real)
    requires SensibleTiming(light) && t >= 0.0 && FixedConsistent(s)
    ensures FixedConsistent(FixedTick(light, s, t, appliedAt).next)
  {
  }

  lemma FixedInitialConsistent()
    ensures FixedConsistent(FixedInitial)
  {
  }

  class FixedTimeController {
    const config: TrafficLightConfig
    const phaseSequence: seq<FixedEntry>
    var state: ControllerState
    var currentPhaseIndex: nat
    var phaseEndTime: real

    function View(): FixedState
      reads this
    {
      FixedState(state, currentPhaseIndex, phaseEndTime)
    }

    predicate Valid()
      reads this
    {
      phaseSequence == PhaseSequence(config) && currentPhaseIndex < 8
    }

    /** Construction with the module-level default timing. */
    constructor()
      ensures Valid() && config == DefaultTrafficLight
      ensures View() == FixedInitial
    {
      config := DefaultTrafficLight;
      phaseSequence := PhaseSequence(DefaultTrafficLight);
      state := InitialState;
      currentPhaseIndex := 0;
      phaseEndTime := 0.0;
    }

    /** update */
    method Update(t: real) returns (r: Option<PhaseDecision>)
      requires Valid()
      modifies this
      ensures Valid()
      ensures FixedStep(View(), r) == FixedUpdate(config, old(View()), t)
    {
      if phaseEndTime == 0.0 {
        phaseEndTime := t + phaseSequence[0].duration;
        state := state.(currentDirection := North);
        return Some(PhaseDecision(0, Phase(North, Green), config.fixedGreenDuration, InitialFixed, None));
      }
      if t >= phaseEndTime {
        currentPhaseIndex := (currentPhaseIndex + 1) % |phaseSequence|;
        var e := phaseSequence[currentPhaseIndex];
        var direction := e.phase.direction;
        phaseEndTime := t + e.duration;
        state := state.(currentDirection := direction);
        if e.phase.color == Green {
          state := AddGreenTime(state, direction, e.duration);
        }
        return Some(PhaseDecision(e.phaseIndex, e.phase, e.duration, FixedRotation, None));
      }
      return None;
    }

    /** apply_decision: record the new phase index and when it started. */
    method ApplyDecision(d: PhaseDecision, now: real)
      modifies this
      ensures View() == old(View()).(state := Applied(old(state), d, now))
    {
      state := Applied(state, d, now);
    }

    /** get_statistics */
    method GetStatistics() returns (stats: ControllerStatistics)
      ensures stats == StatisticsOf(FixedTimeMode, state)
    {
      stats := StatisticsOf(FixedTimeMode, state);
    }
  }
}
