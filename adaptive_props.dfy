/**
 * Properties of the adaptive controller's tick (src/logic.py:210-434):
 * the strict order in which a green phase is evaluated, yellow expiry,
 * emergency preemption and its cooldown, and the phase-index invariant the
 * run loop keeps through apply_decision.
 */
module AdaptiveProperties {
  import opened Wrappers
  import opened Phases
  import opened Config
  import opened Pressure
  import opened Lanes
  import opened Decisions
  import opened Selection
  import opened AdaptiveSpec

  /** Ending a green: a yellow for the same direction; only timing, colour and its green total change. */
  lemma CloseGreenEffect(light: TrafficLightConfig, s: AdaptiveState, t: real, tip: real)
    ensures var r := CloseGreen(light, s, t, tip);
      && r.decision == Some(YellowDecision(s.current, light.yellowDuration))
      && r.next.state == AddGreenTime(s.state, s.current, tip)
      && r.next == s.(state := r.next.state, isGreen := false, phaseEnd := t + light.yellowDuration)
  {
  }

  /** Rule 1: at or beyond max green the phase goes to yellow whatever the pressures. */
  lemma MaxGreenCutoff(light: TrafficLightConfig, algo: AlgorithmConfig, s: AdaptiveState, t: real,
                       tip: real, traffic: Traffic)
    requires tip >= light.maxGreenDuration
    ensures EvaluateGreen(light, algo, s, t, tip, traffic) == CloseGreen(light, s, t, tip)
  {
  }

  /** Rule 2: a starving direction forces yellow even before min green has elapsed. */
  lemma StarvationBeforeMinGreen(light: TrafficLightConfig, algo: AlgorithmConfig, s: AdaptiveState, t: real,
                                 tip: real, traffic: Traffic, e: Direction)
    requires tip < light.maxGreenDuration
    requires e != s.current && t - s.lastGreen.At(e) > MaxStarvationTime
    ensures EvaluateGreen(light, algo, s, t, tip, traffic) == CloseGreen(light, s, t, tip)
  {
    assert Starved(s.current, s.lastGreen, t, e);
  }

  /** Rule 3: below min green, with nobody starving, nothing is decided and nothing changes. */
  lemma MinGreenHold(light: TrafficLightConfig, algo: AlgorithmConfig, s: AdaptiveState, t: real,
                     tip: real, traffic: Traffic)
    requires tip < light.maxGreenDuration && tip < algo.minGreenBeforeSwitch
    requires forall d :: d != s.current ==> t - s.lastGreen.At(d) <= MaxStarvationTime
    ensures EvaluateGreen(light, algo, s, t, tip, traffic) == Step(s, None)
  {
    forall d ensures !Starved(s.current, s.lastGreen, t, d) { }
  }

  /**
   * Rules 4 and 5: past min green, with nobody starving, the phase goes to
   * yellow exactly when the switch test holds against the chosen next
   * direction, which is never chosen for fairness here. Otherwise no decision
   * is made and only phase_end_time (extension) and served_this_cycle (the
   * chooser's reset) may change.
   */
  lemma SwitchOrExtend(light: TrafficLightConfig, algo: AlgorithmConfig, s: AdaptiveState, t: real,
                       tip: real, traffic: Traffic)
    requires algo.minGreenBeforeSwitch <= tip < light.maxGreenDuration
    requires forall d :: d != s.current ==> t - s.lastGreen.At(d) <= MaxStarvationTime
    ensures var n := NextDirection(algo, s, t, traffic);
      var cur := PressureOf(traffic.At(s.current), algo);
      var r := EvaluateGreen(light, algo, s, t, tip, traffic);
      && n.choice.tag != Fairness
      && (r.decision.Some? <==> ShouldSwitch(algo, cur, n.choice.pressure))
      && (r.decision.Some? ==> r == CloseGreen(light, n.after, t, tip))
      && (r.decision.None? ==>
            && r.next == s.(served := r.next.served, phaseEnd := r.next.phaseEnd)
            && (r.next.served == s.served || r.next.served == {})
            && r.next.phaseEnd ==
                 if t >= s.phaseEnd && cur > n.choice.pressure
                    && Min(light.extensionTime, light.maxGreenDuration - tip) > 0.0
                 then t + Min(light.extensionTime, light.maxGreenDuration - tip)
                 else s.phaseEnd)
  {
    forall d ensures !Starved(s.current, s.lastGreen, t, d) { }
    BestOverAll(StarvedOther(s.current, s.lastGreen, t));
  }

  /** An extension never carries the green past max green from its start. */
  lemma ExtensionWithinMaxGreen(light: TrafficLightConfig, s: AdaptiveState, t: real, tip: real, cur: real, next: real)
    requires Extended(light, s, t, tip, cur, next) != s
    ensures Extended(light, s, t, tip, cur, next).phaseEnd <= t + (light.maxGreenDuration - tip)
    ensures Extended(light, s, t, tip, cur, next).phaseEnd > t
  {
  }

  /** The switch test without the division: for current pressure at least 0.1 it compares next with 1.5 times current. */
  lemma SwitchWithoutDivision(algo: AlgorithmConfig, cur: real, next: real)
    requires cur >= 0.1
    ensures ShouldSwitch(algo, cur, next) <==>
      next > algo.pressureRatioThreshold * cur || (cur < 1.0 && next > 5.0)
  {
    assert Max(cur, 0.1) == cur;
  }

  /** Near-empty current approach: below 0.1 the divisor is 0.1, so a next pressure over 5 always switches. */
  lemma EmptyApproachYields(algo: AlgorithmConfig, cur: real, next: real)
    requires 0.0 <= cur < 1.0 && next > 5.0
    ensures ShouldSwitch(algo, cur, next)
  {
  }

  /**
   * Yellow expiry: the next green goes to the chosen direction for its
   * adaptive duration; it is stamped as served now and joins the cycle set.
   */
  lemma NextGreenEffect(light: TrafficLightConfig, algo: AlgorithmConfig, s: AdaptiveState, t: real, traffic: Traffic)
    ensures var n := NextDirection(algo, s, t, traffic);
      var d := n.choice.direction;
      var duration := GreenDuration(PressureOf(traffic.At(d), algo), light);
      var r := ToNextGreen(light, algo, s, t, traffic);
      && r.decision == Some(GreenDecision(d, duration, AdaptiveGreen(n.choice.tag), None))
      && r.next.current == d && r.next.state.currentDirection == d && r.next.isGreen
      && r.next.phaseEnd == t + duration
      && r.next.lastGreen.At(d) == t
      && (forall e :: e != d ==> r.next.lastGreen.At(e) == s.lastGreen.At(e))
      && r.next.served == (if n.choice.resetsCycle then {} else s.served) + {d}
      && r.next.state == s.state.(currentDirection := d)
  {
  }

  /** With well-formed observations the next green never goes to the direction that just had it. */
  lemma NextGreenMovesOn(light: TrafficLightConfig, algo: AlgorithmConfig, s: AdaptiveState, t: real, traffic: Traffic)
    requires WellFormedTraffic(traffic) && NonNegativeWeights(algo)
    ensures ToNextGreen(light, algo, s, t, traffic).next.current != s.current
  {
    PressuresNonNegative(traffic, algo);
    NeverCurrent(s.current, s.lastGreen, s.served, t, Pressures(traffic, algo));
  }

  /** A yellow phase produces no decision and changes nothing until its end time. */
  lemma YellowHolds(light: TrafficLightConfig, algo: AlgorithmConfig, s: AdaptiveState, t: real,
                    traffic: Traffic, vs: seq<Sighting>)
    requires !s.state.emergencyActive && s.phaseEnd != 0.0 && !s.isGreen && t < s.phaseEnd
    requires forall j :: 0 <= j < |vs| ==> !Qualifies(vs[j], algo)
    ensures Update(light, algo, s, t, traffic, vs) == Step(s, None)
  {
  }

  /** A yellow phase whose end time has come gives way to the next green. */
  lemma YellowExpires(light: TrafficLightConfig, algo: AlgorithmConfig, s: AdaptiveState, t: real,
                      traffic: Traffic, vs: seq<Sighting>)
    requires !s.state.emergencyActive && s.phaseEnd != 0.0 && !s.isGreen && t >= s.phaseEnd
    requires forall j :: 0 <= j < |vs| ==> !Qualifies(vs[j], algo)
    ensures Update(light, algo, s, t, traffic, vs) == ToNextGreen(light, algo, s, t, traffic)
  {
  }

  /** Outside emergencies a green phase is decided by _evaluate_green_phase on its time in phase. */
  lemma GreenIsEvaluated(light: TrafficLightConfig, algo: AlgorithmConfig, s: AdaptiveState, t: real,
                         traffic: Traffic, vs: seq<Sighting>)
    requires !s.state.emergencyActive && s.phaseEnd != 0.0 && s.isGreen
    requires forall j :: 0 <= j < |vs| ==> !Qualifies(vs[j], algo)
    ensures Update(light, algo, s, t, traffic, vs)
         == EvaluateGreen(light, algo, s, t, t - s.state.phaseStartTime, traffic)
  {
  }

  /** The first call starts north green for its adaptive duration and records north as served. */
  lemma FirstCall(light: TrafficLightConfig, algo: AlgorithmConfig, t: real, traffic: Traffic, vs: seq<Sighting>)
    requires forall j :: 0 <= j < |vs| ==> !Qualifies(vs[j], algo)
    ensures var duration := GreenDuration(PressureOf(traffic.At(North), algo), light);
      var r := Update(light, algo, Initial, t, traffic, vs);
      && r.decision == Some(GreenDecision(North, duration, InitialAdaptive, None))
      && r.next.phaseEnd == t + duration && r.next.current == North && r.next.isGreen
      && r.next.lastGreen.At(North) == t && r.next.served == {North}
  {
  }

  /**
   * Emergency preemption: the first qualifying sighting wins over every other
   * rule; its approach gets green for the preemption time with the vehicle
   * named, and a cooldown is set. Fairness bookkeeping is not touched.
   */
  lemma EmergencyPreempts(light: TrafficLightConfig, algo: AlgorithmConfig, s: AdaptiveState, t: real,
                          traffic: Traffic, vs: seq<Sighting>, i: nat)
    requires !s.state.emergencyActive
    requires i < |vs| && Qualifies(vs[i], algo)
    requires forall j :: 0 <= j < i ==> !Qualifies(vs[j], algo)
    ensures var d := DirectionFromLane(vs[i].laneId).value;
      var r := Update(light, algo, s, t, traffic, vs);
      && r.decision == Some(GreenDecision(d, algo.emergencyPreemptionTime,
                                          EmergencyPreemption(vs[i].vehicleId), Some(vs[i].vehicleId)))
      && r.next.state.emergencyActive
      && r.next.state.emergencyCooldownEnd == t + algo.emergencyPreemptionTime + algo.emergencyCooldown
      && r.next.current == d && r.next.isGreen && r.next.phaseEnd == t + algo.emergencyPreemptionTime
      && r.next.lastGreen == s.lastGreen && r.next.served == s.served
  {
    FirstQualifyingIs(vs, algo, i);
  }

  /** During an active emergency, before the cooldown ends, update returns None and changes nothing. */
  lemma CooldownSilences(light: TrafficLightConfig, algo: AlgorithmConfig, s: AdaptiveState, t: real,
                         traffic: Traffic, vs: seq<Sighting>)
    requires s.state.emergencyActive && t < s.state.emergencyCooldownEnd
    ensures Update(light, algo, s, t, traffic, vs) == Step(s, None)
  {
  }

  /** The first tick at or after the cooldown end clears the flag and evaluates as usual. */
  lemma CooldownEnds(light: TrafficLightConfig, algo: AlgorithmConfig, s: AdaptiveState, t: real,
                     traffic: Traffic, vs: seq<Sighting>)
    requires s.state.emergencyActive && t >= s.state.emergencyCooldownEnd
    ensures Update(light, algo, s, t, traffic, vs)
         == Update(light, algo, s.(state := s.state.(emergencyActive := false)), t, traffic, [])
  {
  }

  /** current_phase names the phase the controller believes is showing. */
  predicate Consistent(s: AdaptiveState)
  {
    s.state.currentPhase == PhaseIndex(Phase(s.current, if s.isGreen then Green else Yellow))
  }

  /** Every decision carries a matching index, and names the phase the controller now believes in. */
  lemma UpdateDecisionMatchesState(light: TrafficLightConfig, algo: AlgorithmConfig, s: AdaptiveState, t: real,
                                   traffic: Traffic, vs: seq<Sighting>)
    ensures var r := Update(light, algo, s, t, traffic, vs);
      && (r.decision.Some? ==>
            && IndexMatchesPhase(r.decision.value)
            && r.decision.value.phase == Phase(r.next.current, if r.next.isGreen then Green else Yellow))
      && (r.decision.None? ==>
            && r.next.current == s.current && r.next.isGreen == s.isGreen
            && r.next.state.currentPhase == s.state.currentPhase)
  {
  }

  /** The phase-index invariant survives every tick of the run loop. */
  lemma TickKeepsConsistent(light: TrafficLightConfig, algo: AlgorithmConfig, s: AdaptiveState, t: real,
                            traffic: Traffic, vs: seq<Sighting>, appliedAt: real)
    requires Consistent(s)
    ensures Consistent(Tick(light, algo, s, t, traffic, vs, appliedAt).next)
  {
    UpdateDecisionMatchesState(light, algo, s, t, traffic, vs);
  }

  lemma InitialConsistent()
    ensures Consistent(Initial)
  {
  }

  /** Every green the controller grants lasts the preemption time or lies within [min green, max green]. */
  lemma DurationsBounded(light: TrafficLightConfig, algo: AlgorithmConfig, s: AdaptiveState, t: real,
                         traffic: Traffic, vs: seq<Sighting>)
    requires SensibleTiming(light)
    ensures var r := Update(light, algo, s, t, traffic, vs);
      r.decision.Some? ==>
        var d := r.decision.value;
        || (d.phase.color == Yellow && d.duration == light.yellowDuration)
        || (d.priorityVehicle.Some? && d.duration == algo.emergencyPreemptionTime)
        || (d.phase.color == Green && light.minGreenDuration <= d.duration <= light.maxGreenDuration)
  {
  }

  /** One iteration of the simulation loop as seen by the controller. */
  datatype TickInput = TickInput(time: real, traffic: Traffic, sightings: seq<Sighting>, appliedAt: real)

  /** The controller state after feeding it a sequence of ticks. */
  function Run(light: TrafficLightConfig, algo: AlgorithmConfig, s: AdaptiveState, ins: seq<TickInput>): AdaptiveState
    decreases |ins|
  {
    if ins == [] then s
    else Run(light, algo, Tick(light, algo, s, ins[0].time, ins[0].traffic, ins[0].sightings, ins[0].appliedAt).next,
             ins[1..])
  }

  /** The phase-index invariant holds after any number of ticks from construction. */
  lemma {:induction false} RunKeepsConsistent(light: TrafficLightConfig, algo: AlgorithmConfig, s: AdaptiveState,
                                              ins: seq<TickInput>)
    requires Consistent(s)
    ensures Consistent(Run(light, algo, s, ins))
    decreases |ins|
  {
    if ins != [] {
      TickKeepsConsistent(light, algo, s, ins[0].time, ins[0].traffic, ins[0].sightings, ins[0].appliedAt);
      RunKeepsConsistent(light, algo,
        Tick(light, algo, s, ins[0].time, ins[0].traffic, ins[0].sightings, ins[0].appliedAt).next, ins[1..]);
    }
  }

  /**
   * After a preemption, every tick before the cooldown end leaves the
   * controller exactly as it was, whatever traffic and sightings arrive.
   */
  lemma {:induction false} CooldownRunFrozen(light: TrafficLightConfig, algo: AlgorithmConfig, s: AdaptiveState,
                                             ins: seq<TickInput>)
    requires s.state.emergencyActive
    requires forall k :: 0 <= k < |ins| ==> ins[k].time < s.state.emergencyCooldownEnd
    ensures Run(light, algo, s, ins) == s
    decreases |ins|
  {
    if ins != [] {
      CooldownSilences(light, algo, s, ins[0].time, ins[0].traffic, ins[0].sightings);
      assert forall k :: 0 <= k < |ins[1..]| ==> ins[1..][k] == ins[k + 1];
      CooldownRunFrozen(light, algo, s, ins[1..]);
    }
  }
}
