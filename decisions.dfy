/**
 * The values shared by both controllers: the decision a controller emits,
 * the ControllerState record, what apply_decision does to it and what
 * get_statistics reports (src/logic.py:23-120).
 */
module Decisions {
  import opened Wrappers
  import opened Phases

  datatype ControllerMode = FixedTimeMode | AdaptiveMode
  {
    /** The enum's value string. */
    function Value(): string
    {
      match this
      case FixedTimeMode => "fixed"
      case AdaptiveMode => "adaptive"
    }
  }

  /** Why the next-direction choice picked a direction. */
  datatype SelectionTag = Fairness | Cycle | HighestPressure

  /** The decision's reason, as a tag instead of the formatted text. */
  datatype Reason =
    | InitialFixed
    | FixedRotation
    | InitialAdaptive
    | AdaptiveGreen(tag: SelectionTag)
    | YellowChange
    | EmergencyPreemption(vehicleId: string)

  datatype PhaseDecision = PhaseDecision(
    phaseIndex: nat,
    phase: Phase,
    duration: real,
    reason: Reason,
    priorityVehicle: Option<string>)

  /** The index a decision sends to the actuator names the phase type it carries. */
  predicate IndexMatchesPhase(d: PhaseDecision)
  {
    d.phaseIndex == PhaseIndex(d.phase)
  }

  /** A green decision for direction d, as DIRECTION_TO_GREEN_PHASE gives it. */
  function GreenDecision(d: Direction, duration: real, reason: Reason, vehicle: Option<string>): (r: PhaseDecision)
    ensures IndexMatchesPhase(r) && r.phase.direction == d && r.phase.color == Green
    ensures r.duration == duration && r.reason == reason && r.priorityVehicle == vehicle
  {
    PhaseDecision(GreenIndex(d), Phase(d, Green), duration, reason, vehicle)
  }

  /** A yellow decision for direction d, as DIRECTION_TO_YELLOW_PHASE gives it. */
  function YellowDecision(d: Direction, duration: real): (r: PhaseDecision)
    ensures IndexMatchesPhase(r) && r.phase.direction == d && r.phase.color == Yellow
    ensures r.duration == duration && r.reason == YellowChange && r.priorityVehicle == None
  {
    PhaseDecision(YellowIndex(d), Phase(d, Yellow), duration, YellowChange, None)
  }

  datatype ControllerState = ControllerState(
    currentPhase: int,
    currentDirection: Direction,
    phaseStartTime: real,
    lastSwitchTime: real,
    emergencyActive: bool,
    emergencyCooldownEnd: real,
    directionGreenTimes: PerDirection<real>)

  /** A fresh ControllerState: north green at time 0, no green time granted yet. */
  const InitialState: ControllerState :=
    ControllerState(0, North, 0.0, 0.0, false, 0.0, Uniform(0.0))

  /**
   * BaseController.apply_decision on the state record: the actuator is told
   * the phase and its duration, and the state records the phase index and
   * the current simulation time as the phase start.
   */
  function Applied(s: ControllerState, d: PhaseDecision, now: real): (r: ControllerState)
    ensures r.currentPhase == d.phaseIndex && r.phaseStartTime == now
    ensures r.(currentPhase := s.currentPhase, phaseStartTime := s.phaseStartTime) == s
  {
    s.(currentPhase := d.phaseIndex, phaseStartTime := now)
  }

  /** `direction_green_times[d] += amount`. */
  function AddGreenTime(s: ControllerState, d: Direction, amount: real): (r: ControllerState)
    ensures r.directionGreenTimes.At(d) == s.directionGreenTimes.At(d) + amount
    ensures forall e :: e != d ==> r.directionGreenTimes.At(e) == s.directionGreenTimes.At(e)
    ensures r.(directionGreenTimes := s.directionGreenTimes) == s
  {
    s.(directionGreenTimes := s.directionGreenTimes.With(d, s.directionGreenTimes.At(d) + amount))
  }

  /** What get_statistics reports. */
  datatype ControllerStatistics = ControllerStatistics(
    mode: string,
    currentPhase: int,
    currentDirection: Direction,
    directionGreenTimes: PerDirection<real>,
    emergencyActive: bool)

  function StatisticsOf(mode: ControllerMode, s: ControllerState): (r: ControllerStatistics)
    ensures r.mode == mode.Value()
    ensures r.currentPhase == s.currentPhase && r.currentDirection == s.currentDirection
    ensures r.directionGreenTimes == s.directionGreenTimes && r.emergencyActive == s.emergencyActive
  {
    ControllerStatistics(mode.Value(), s.currentPhase, s.currentDirection, s.directionGreenTimes, s.emergencyActive)
  }

  /** ASCII lower-casing of one character. */
  function LowerChar(c: char): char
  {
    if 'A' <= c <= 'Z' then (c as int + 32) as char else c
  }

  /** `s.lower()` on the characters that can spell a mode name. */
  function Lower(s: string): (r: string)
    ensures |r| == |s|
    ensures forall i :: 0 <= i < |s| ==> r[i] == LowerChar(s[i])
  {
    if s == [] then [] else [LowerChar(s[0])] + Lower(s[1..])
  }

  /** Lower-casing twice is lower-casing once. */
  lemma LowerIdempotent(s: string)
    ensures Lower(Lower(s)) == Lower(s)
  {
  }

  /**
   * The mode create_controller builds for a mode string (src/logic.py:448-455):
   * "fixed" or "adaptive", compared case-insensitively; None stands for the
   * ValueError raised for any other string.
   */
  function ParseMode(mode: string): (r: Option<ControllerMode>)
    ensures r == Some(FixedTimeMode) <==> Lower(mode) == "fixed"
    ensures r == Some(AdaptiveMode) <==> Lower(mode) == "adaptive"
    ensures r.None? <==> Lower(mode) != "fixed" && Lower(mode) != "adaptive"
  {
    var m := Lower(mode);
    if m == "fixed" then Some(FixedTimeMode)
    else if m == "adaptive" then Some(AdaptiveMode)
    else None
  }

  /** A mode's own value string parses back to it, in any letter case. */
  lemma ParseModeRoundTrip(m: ControllerMode, spelled: string)
    requires Lower(spelled) == m.Value()
    ensures ParseMode(spelled) == Some(m)
    ensures ParseMode(m.Value()) == Some(m)
  {
    assert Lower(m.Value()) == m.Value();
  }

  /** Two strings agree once lower-cased when they agree character by character. */
  lemma LowerMatches(s: string, t: string)
    requires |s| == |t| && forall i :: 0 <= i < |s| ==> LowerChar(s[i]) == t[i]
    ensures Lower(s) == t
  {
  }

  /** create_controller accepts the mode names in any letter case. */
  lemma UpperCaseModesAccepted()
    ensures ParseMode("FIXED") == Some(FixedTimeMode)
    ensures ParseMode("Adaptive") == Some(AdaptiveMode)
  {
    LowerMatches("FIXED", "fixed");
    LowerMatches("Adaptive", "adaptive");
  }

  /** create_controller rejects other strings, the empty one included. */
  lemma OtherModesRejected()
    ensures ParseMode("") == None
    ensures ParseMode("fixed-time") == None
  {
    assert |Lower("fixed-time")| == 10;
  }
}
