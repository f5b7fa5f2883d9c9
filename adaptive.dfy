/**
 * PressureBasedController (src/logic.py:184-441) as a class whose fields are
 * the controller's own. Each method is proved to leave the controller in the
 * state, and to return the decision, that the AdaptiveSpec functions give
 * for the old state.
 */
module Adaptive {
  import opened Wrappers
  import opened Phases
  import opened Config
  import opened Pressure
  import opened Lanes
  import opened Decisions
  import opened Selection
  import opened AdaptiveSpec

  class PressureBasedController {
    const config: TrafficLightConfig
    const algoConfig: AlgorithmConfig
    var state: ControllerState
    var currentDirection: Direction
    var isGreenPhase: bool
    var phaseEndTime: real
    var lastGreenTime: PerDirection<real>
    var servedThisCycle: set<Direction>

    /** The controller's fields as an AdaptiveState value. */
    function View(): AdaptiveState
      reads this
    {
      AdaptiveState(state, currentDirection, isGreenPhase, phaseEndTime, lastGreenTime, servedThisCycle)
    }

    /** Construction with the module-level default configurations: north green, not yet started. */
    constructor()
      ensures config == DefaultTrafficLight && algoConfig == DefaultAlgorithm
      ensures View() == Initial
    {
      config := DefaultTrafficLight;
      algoConfig := DefaultAlgorithm;
      state := InitialState;
      currentDirection := North;
      isGreenPhase := true;
      phaseEndTime := 0.0;
      lastGreenTime := Uniform(0.0);
      servedThisCycle := {};
    }

    /** update */
    method Update(t: real, traffic: Traffic, vs: seq<Sighting>) returns (r: Option<PhaseDecision>)
      modifies this
      ensures Step(View(), r) == AdaptiveSpec.Update(config, algoConfig, old(View()), t, traffic, vs)
    {
      var emergency := CheckEmergencyPreemption(t, vs);
      if emergency.Some? {
        return emergency;
      }
      if state.emergencyActive && t < state.emergencyCooldownEnd {
        return None;
      } else if state.emergencyActive {
        state := state.(emergencyActive := false);
      }
      if phaseEndTime == 0.0 {
        var initialDuration := GreenDuration(PressureOf(traffic.At(North), algoConfig), config);
        phaseEndTime := t + initialDuration;
        currentDirection := North;
        isGreenPhase := true;
        lastGreenTime := lastGreenTime.With(North, t);
        servedThisCycle := servedThisCycle + {North};
        var d := MakeGreenDecision(North, initialDuration, InitialAdaptive);
        return Some(d);
      }
      var timeInPhase := t - state.phaseStartTime;
      if !isGreenPhase {
        if t >= phaseEndTime {
          var d := TransitionToNextGreen(t, traffic);
          return Some(d);
        }
        return None;
      }
      r := EvaluateGreenPhase(t, timeInPhase, traffic);
    }

    /**
     * Scan PHASE_ORDER for the best admitted direction, a later one replacing
     * the best only on a strictly larger key.
     */
    method ScanPhaseOrder(c: Criterion, seed: Option<Candidate>) returns (best: Option<Candidate>)
      ensures best == Best(c, 4, seed)
    {
      best := seed;
      var i := 0;
      while i < 4
        invariant 0 <= i <= 4
        invariant best == Best(c, i, seed)
      {
        var d := PhaseOrder[i];
        if Eligible(c, d) && (best.None? || Key(c, d) > best.value.key) {
          best := Some(Candidate(d, Key(c, d)));
        }
        i := i + 1;
      }
    }

    /** _get_next_direction: fairness first, then the unserved, then the highest pressure. */
    method GetNextDirection(t: real, traffic: Traffic) returns (choice: Choice)
      modifies this
      ensures var n := NextDirection(algoConfig, old(View()), t, traffic);
        View() == n.after && choice == n.choice
    {
      var pressures := Pressures(traffic, algoConfig);
      var starved := ScanPhaseOrder(StarvedOther(currentDirection, lastGreenTime, t), None);
      if starved.Some? {
        var d := starved.value.direction;
        return Choice(d, pressures.At(d), Fairness, false);
      }
      var unserved := ScanPhaseOrder(UnservedOther(currentDirection, servedThisCycle, pressures), None);
      if unserved.Some? {
        return Choice(unserved.value.direction, unserved.value.key, Cycle, false);
      }
      servedThisCycle := {};
      var best := ScanPhaseOrder(OtherThan(currentDirection, pressures), Some(PressureSeed));
      choice := Choice(best.value.direction, best.value.key, HighestPressure, true);
    }

    /** _evaluate_green_phase */
    method EvaluateGreenPhase(t: real, timeInPhase: real, traffic: Traffic) returns (r: Option<PhaseDecision>)
      modifies this
      ensures Step(View(), r) == EvaluateGreen(config, algoConfig, old(View()), t, timeInPhase, traffic)
    {
      if timeInPhase >= config.maxGreenDuration {
        state := AddGreenTime(state, currentDirection, timeInPhase);
        var d := TransitionToYellow(t);
        return Some(d);
      }
      var i := 0;
      while i < 4
        invariant 0 <= i <= 4
        invariant View() == old(View())
        invariant forall k :: 0 <= k < i ==> !Starved(currentDirection, lastGreenTime, t, PhaseOrder[k])
      {
        var d := PhaseOrder[i];
        if d != currentDirection && t - lastGreenTime.At(d) > MaxStarvationTime {
          assert Starved(currentDirection, lastGreenTime, t, d);
          state := AddGreenTime(state, currentDirection, timeInPhase);
          var y := TransitionToYellow(t);
          return Some(y);
        }
        i := i + 1;
      }
      forall d ensures !Starved(currentDirection, lastGreenTime, t, d) {
        assert PhaseOrder[Rank(d)] == d;
      }
      if timeInPhase < algoConfig.minGreenBeforeSwitch {
        return None;
      }
      var currentPressure := PressureOf(traffic.At(currentDirection), algoConfig);
      var next := GetNextDirection(t, traffic);
      if ShouldSwitch(algoConfig, currentPressure, next.pressure) {
        state := AddGreenTime(state, currentDirection, timeInPhase);
        var y := TransitionToYellow(t);
        return Some(y);
      }
      if t >= phaseEndTime && currentPressure > next.pressure {
        var extension := Min(config.extensionTime, config.maxGreenDuration - timeInPhase);
        if extension > 0.0 {
          phaseEndTime := t + extension;
        }
      }
      return None;
    }

    /** _make_green_decision */
    method MakeGreenDecision(d: Direction, duration: real, reason: Reason) returns (r: PhaseDecision)
      modifies this
      ensures Step(View(), Some(r)) == MakeGreen(old(View()), d, duration, reason)
    {
      currentDirection := d;
      state := state.(currentDirection := d);
      isGreenPhase := true;
      r := GreenDecision(d, duration, reason, None);
    }

    /** _transition_to_yellow */
    method TransitionToYellow(t: real) returns (r: PhaseDecision)
      modifies this
      ensures Step(View(), Some(r)) == ToYellow(config, old(View()), t)
    {
      phaseEndTime := t + config.yellowDuration;
      isGreenPhase := false;
      r := YellowDecision(currentDirection, config.yellowDuration);
    }

    /** _transition_to_next_green */
    method TransitionToNextGreen(t: real, traffic: Traffic) returns (r: PhaseDecision)
      modifies this
      ensures Step(View(), Some(r)) == ToNextGreen(config, algoConfig, old(View()), t, traffic)
    {
      var next := GetNextDirection(t, traffic);
      var d := next.direction;
      var greenDuration := GreenDuration(PressureOf(traffic.At(d), algoConfig), config);
      phaseEndTime := t + greenDuration;
      lastGreenTime := lastGreenTime.With(d, t);
      servedThisCycle := servedThisCycle + {d};
      r := MakeGreenDecision(d, greenDuration, AdaptiveGreen(next.tag));
    }

    /** _check_emergency_preemption: the first sighting close enough on a known approach preempts. */
    method CheckEmergencyPreemption(t: real, vs: seq<Sighting>) returns (r: Option<PhaseDecision>)
      modifies this
      ensures Step(View(), r) == Preempt(algoConfig, old(View()), t, vs)
    {
      if state.emergencyActive {
        return None;
      }
      ghost var before := View();
      var i := 0;
      while i < |vs|
        invariant 0 <= i <= |vs|
        invariant View() == before
        invariant NoneQualifyBefore(vs, algoConfig, i)
      {
        var ev := vs[i];
        if ev.distanceToJunction <= algoConfig.emergencyDetectionDistance {
          var direction := GetDirectionFromLane(ev.laneId);
          QualifiesWhenResolved(ev, algoConfig, direction);
          if direction.Some? {
            PreemptBy(algoConfig, before, t, vs, i, direction.value);
            var d := PreemptFor(t, ev, direction.value);
            r := Some(d);
            return;
          }
        }
        NoneQualifyExtend(vs, algoConfig, i);
        i := i + 1;
      }
      return None;
    }

    /** The body of the preemption: emergency state, cooldown end, and green for the vehicle's approach. */
    method PreemptFor(t: real, ev: Sighting, direction: Direction) returns (r: PhaseDecision)
      modifies this
      ensures Step(View(), Some(r)) == Preempted(algoConfig, old(View()), t, ev, direction)
    {
      state := state.(emergencyActive := true,
                      emergencyCooldownEnd := t + algoConfig.emergencyPreemptionTime + algoConfig.emergencyCooldown);
      currentDirection := direction;
      isGreenPhase := true;
      phaseEndTime := t + algoConfig.emergencyPreemptionTime;
      r := GreenDecision(direction, algoConfig.emergencyPreemptionTime,
                         EmergencyPreemption(ev.vehicleId), Some(ev.vehicleId));
    }

    /** _get_direction_from_lane: the first approach of APPROACH_LANES the lane matches. */
    method GetDirectionFromLane(lane: string) returns (r: Option<Direction>)
      ensures r == DirectionFromLane(lane)
    {
      var j := 0;
      while j < |ApproachLanes|
        invariant 0 <= j <= |ApproachLanes|
        invariant MatchFrom(lane, 0) == MatchFrom(lane, j)
      {
        var (direction, lanes) := ApproachLanes[j];
        if LaneMatches(lane, lanes) {
          return Some(direction);
        }
        j := j + 1;
      }
      return None;
    }

    /** apply_decision: record the new phase index and when it started. */
    method ApplyDecision(d: PhaseDecision, now: real)
      modifies this
      ensures View() == old(View()).(state := Applied(old(state), d, now))
    {
      state := Applied(state, d, now);
    }

    /** get_statistics */
    method GetStatistics() returns (stats: ControllerStatistics)
      ensures stats == StatisticsOf(AdaptiveMode, state)
    {
      stats := StatisticsOf(AdaptiveMode, state);
    }
  }
}
