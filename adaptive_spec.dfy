/**
 * What one call of PressureBasedController.update does (src/logic.py:210-434),
 * as functions from the controller's state, the current time, the tick's
 * approach observations and emergency sightings to the next state and the
 * decision emitted, if any; and what the run loop's apply_decision then does
 * (src/logic.py:100-104).
 */
module AdaptiveSpec {
  import opened Wrappers
  import opened Phases
  import opened Config
  import opened Pressure
  import opened Lanes
  import opened Decisions
  import opened Selection

  /** An emergency vehicle as the vehicle feed reports it. */
  datatype Sighting = Sighting(vehicleId: string, laneId: string, distanceToJunction: real)

  /** A sighting close enough to the junction on a lane that resolves to an approach. */
  predicate Qualifies(v: Sighting, a: AlgorithmConfig)
  {
    v.distanceToJunction <= a.emergencyDetectionDistance && DirectionFromLane(v.laneId).Some?
  }

  /** Whether a sighting qualifies, given the approach its lane resolves to. */
  lemma QualifiesWhenResolved(v: Sighting, a: AlgorithmConfig, direction: Option<Direction>)
    requires direction == DirectionFromLane(v.laneId)
    ensures Qualifies(v, a) <==> v.distanceToJunction <= a.emergencyDetectionDistance && direction.Some?
  {
  }

  /** Index of the first qualifying sighting at or after k. */
  function FirstQualifying(vs: seq<Sighting>, a: AlgorithmConfig, k: nat): (r: Option<nat>)
    requires k <= |vs|
    ensures r.None? <==> forall j :: k <= j < |vs| ==> !Qualifies(vs[j], a)
    ensures r.Some? ==> k <= r.value < |vs| && Qualifies(vs[r.value], a)
    ensures r.Some? ==> forall j :: k <= j < r.value ==> !Qualifies(vs[j], a)
    decreases |vs| - k
  {
    if k == |vs| then None
    else if Qualifies(vs[k], a) then Some(k)
    else FirstQualifying(vs, a, k + 1)
  }

  /** No sighting before index i qualifies. */
  predicate NoneQualifyBefore(vs: seq<Sighting>, a: AlgorithmConfig, i: nat)
    requires i <= |vs|
  {
    forall j :: 0 <= j < i ==> !Qualifies(vs[j], a)
  }

  lemma NoneQualifyExtend(vs: seq<Sighting>, a: AlgorithmConfig, i: nat)
    requires i < |vs| && NoneQualifyBefore(vs, a, i) && !Qualifies(vs[i], a)
    ensures NoneQualifyBefore(vs, a, i + 1)
  {
  }

  /** The sighting that preempts is the first qualifying one in the list. */
  lemma FirstQualifyingIs(vs: seq<Sighting>, algo: AlgorithmConfig, i: nat)
    requires i < |vs| && Qualifies(vs[i], algo)
    requires forall j :: 0 <= j < i ==> !Qualifies(vs[j], algo)
    ensures FirstQualifying(vs, algo, 0) == Some(i)
  {
  }

  /** The controller's own fields together with its ControllerState record. */
  datatype AdaptiveState = AdaptiveState(
    state: ControllerState,
    current: Direction,
    isGreen: bool,
    phaseEnd: real,
    lastGreen: PerDirection<real>,
    served: set<Direction>)

  /** The state right after construction; phaseEnd == 0.0 marks "not yet started". */
  const Initial: AdaptiveState := AdaptiveState(InitialState, North, true, 0.0, Uniform(0.0), {})

  /** The state after a call, and the decision it returned. */
  datatype Step = Step(next: AdaptiveState, decision: Option<PhaseDecision>)

  /** _make_green_decision. */
  function MakeGreen(s: AdaptiveState, d: Direction, duration: real, reason: Reason): Step
  {
    Step(s.(current := d, state := s.state.(currentDirection := d), isGreen := true),
         Some(GreenDecision(d, duration, reason, None)))
  }

  /** _transition_to_yellow. */
  function ToYellow(light: TrafficLightConfig, s: AdaptiveState, t: real): Step
  {
    Step(s.(phaseEnd := t + light.yellowDuration, isGreen := false),
         Some(YellowDecision(s.current, light.yellowDuration)))
  }

  /** Ending the current green: its time in phase is added to its green total, then yellow. */
  function CloseGreen(light: TrafficLightConfig, s: AdaptiveState, t: real, timeInPhase: real): Step
  {
    ToYellow(light, s.(state := AddGreenTime(s.state, s.current, timeInPhase)), t)
  }

  /** The state after _get_next_direction and what it chose. */
  datatype Chosen = Chosen(after: AdaptiveState, choice: Choice)

  /** _get_next_direction: the choice, and served_this_cycle emptied in its last branch. */
  function NextDirection(algo: AlgorithmConfig, s: AdaptiveState, t: real, traffic: Traffic): Chosen
  {
    var c := SelectNext(s.current, s.lastGreen, s.served, t, Pressures(traffic, algo));
    Chosen(if c.resetsCycle then s.(served := {}) else s, c)
  }

  /** _transition_to_next_green. */
  function ToNextGreen(light: TrafficLightConfig, algo: AlgorithmConfig, s: AdaptiveState, t: real, traffic: Traffic): Step
  {
    var n := NextDirection(algo, s, t, traffic);
    var d := n.choice.direction;
    var duration := GreenDuration(PressureOf(traffic.At(d), algo), light);
    var s1 := n.after.(phaseEnd := t + duration, lastGreen := n.after.lastGreen.With(d, t),
                       served := n.after.served + {d});
    MakeGreen(s1, d, duration, AdaptiveGreen(n.choice.tag))
  }

  /** The first-call initialisation: north green for its adaptive duration. */
  function Initialise(light: TrafficLightConfig, algo: AlgorithmConfig, s: AdaptiveState, t: real, traffic: Traffic): Step
  {
    var duration := GreenDuration(PressureOf(traffic.At(North), algo), light);
    var s1 := s.(phaseEnd := t + duration, current := North, isGreen := true,
                 lastGreen := s.lastGreen.With(North, t), served := s.served + {North});
    MakeGreen(s1, North, duration, InitialAdaptive)
  }

  /** Some direction other than the current one has waited more than MAX_STARVATION_TIME. */
  predicate AnyStarved(s: AdaptiveState, t: real)
  {
    exists d :: Starved(s.current, s.lastGreen, t, d)
  }

  /** The switch test of _evaluate_green_phase. */
  predicate ShouldSwitch(algo: AlgorithmConfig, current: real, next: real)
  {
    next / Max(current, 0.1) > algo.pressureRatioThreshold || (current < 1.0 && next > 5.0)
  }

  /** The extension rule: phase_end_time after a green that is kept. */
  function Extended(light: TrafficLightConfig, s: AdaptiveState, t: real, timeInPhase: real, current: real, next: real): AdaptiveState
  {
    if t >= s.phaseEnd && current > next then
      var extension := Min(light.extensionTime, light.maxGreenDuration - timeInPhase);
      if extension > 0.0 then s.(phaseEnd := t + extension) else s
    else s
  }

  /** _evaluate_green_phase. */
  function EvaluateGreen(light: TrafficLightConfig, algo: AlgorithmConfig, s: AdaptiveState, t: real,
                         timeInPhase: real, traffic: Traffic): Step
  {
    if timeInPhase >= light.maxGreenDuration then CloseGreen(light, s, t, timeInPhase)
    else if AnyStarved(s, t) then CloseGreen(light, s, t, timeInPhase)
    else if timeInPhase < algo.minGreenBeforeSwitch then Step(s, None)
    else
      var current := PressureOf(traffic.At(s.current), algo);
      var n := NextDirection(algo, s, t, traffic);
      if ShouldSwitch(algo, current, n.choice.pressure) then CloseGreen(light, n.after, t, timeInPhase)
      else Step(Extended(light, n.after, t, timeInPhase, current, n.choice.pressure), None)
  }

  /** _check_emergency_preemption. */
  function Preempt(algo: AlgorithmConfig, s: AdaptiveState, t: real, vs: seq<Sighting>): Step
  {
    if s.state.emergencyActive then Step(s, None)
    else
      match FirstQualifying(vs, algo, 0)
      case None => Step(s, None)
      case Some(i) => Preempted(algo, s, t, vs[i], DirectionFromLane(vs[i].laneId).value)
  }

  /** The preemption for sighting v on approach d: green for the preemption time, then a cooldown. */
  function Preempted(algo: AlgorithmConfig, s: AdaptiveState, t: real, v: Sighting, d: Direction): Step
  {
    var cooldownEnd := t + algo.emergencyPreemptionTime + algo.emergencyCooldown;
    Step(s.(state := s.state.(emergencyActive := true, emergencyCooldownEnd := cooldownEnd),
            current := d, isGreen := true, phaseEnd := t + algo.emergencyPreemptionTime),
         Some(GreenDecision(d, algo.emergencyPreemptionTime, EmergencyPreemption(v.vehicleId), Some(v.vehicleId))))
  }

  /** Preemption by the i-th sighting when it is the first that qualifies. */
  lemma PreemptBy(algo: AlgorithmConfig, s: AdaptiveState, t: real, vs: seq<Sighting>, i: nat, d: Direction)
    requires !s.state.emergencyActive
    requires i < |vs| && vs[i].distanceToJunction <= algo.emergencyDetectionDistance
    requires DirectionFromLane(vs[i].laneId) == Some(d)
    requires forall j :: 0 <= j < i ==> !Qualifies(vs[j], algo)
    ensures Preempt(algo, s, t, vs) == Preempted(algo, s, t, vs[i], d)
  {
    FirstQualifyingIs(vs, algo, i);
  }

  /** update: preemption, then cooldown, then first-call set-up, yellow expiry, or the green evaluation. */
  function Update(light: TrafficLightConfig, algo: AlgorithmConfig, s: AdaptiveState, t: real,
                  traffic: Traffic, vs: seq<Sighting>): Step
  {
    var pre := Preempt(algo, s, t, vs);
    if pre.decision.Some? then pre
    else if s.state.emergencyActive && t < s.state.emergencyCooldownEnd then Step(s, None)
    else
      var s1 := if s.state.emergencyActive then s.(state := s.state.(emergencyActive := false)) else s;
      if s1.phaseEnd == 0.0 then Initialise(light, algo, s1, t, traffic)
      else if !s1.isGreen then
        if t >= s1.phaseEnd then ToNextGreen(light, algo, s1, t, traffic) else Step(s1, None)
      else EvaluateGreen(light, algo, s1, t, t - s1.state.phaseStartTime, traffic)
  }

  /** One step of the run loop: update, then apply_decision at time `appliedAt` when a decision came back. */
  function Tick(light: TrafficLightConfig, algo: AlgorithmConfig, s: AdaptiveState, t: real,
                traffic: Traffic, vs: seq<Sighting>, appliedAt: real): Step
  {
    var u := Update(light, algo, s, t, traffic, vs);
    match u.decision
    case None => u
    case Some(d) => Step(u.next.(state := Applied(u.next.state, d, appliedAt)), u.decision)
  }
}
