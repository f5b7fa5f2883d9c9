# Four-way junction signal control: a Dafny model

This project models the decision core of a simulated four-way traffic
signal (approaches north, east, south, west; eight actuator phases: a green
and a yellow for each approach), and the metrics side that records what the
controller did.

- **Fixed-time control** (`FixedTime`): a round robin over the eight phases,
  each held for the fixed green or the yellow duration. It is modelled as a class
  whose `Update` is proved against the step function `FixedUpdate`. The lemmas
  prove the rotation order, that the index returns after eight expiries, and
  that one full cycle grants each approach exactly one fixed green.
- **Pressure-based adaptive control** (`Pressure`, `Lanes`, `Selection`,
  `AdaptiveSpec`, `AdaptiveProperties`, `Adaptive`):
  - Each approach has a pressure: a weighted sum of vehicles, waiting time and queue.
  - The green duration is clamped between min and max green.
  - The next direction is chosen fairness first, then by the cycle, then by pressure.
  - A green phase is ended at max green, on starvation, or when the pressure ratio test holds. Otherwise it may be extended.
  - Emergency vehicles preempt the signal, followed by a cooldown.

  `AdaptiveSpec.Update` is one call of `update` as a function of the
  controller's fields. Each method of the `PressureBasedController` class is
  proved to produce exactly the step given by its spec function. The lemmas
  state the rules of the controller, and the invariant that `current_phase`
  names the phase the controller believes is showing, over any run of ticks.
- **Factory and efficiency** (`Decisions`, `Factory`, `Efficiency`):
  - the case-insensitive mode parse of `create_controller`;
  - `EfficiencyCalculator`, which averages samples per mode and scores the adaptive averages against the fixed ones.
- **Data collection** (`Summary`, `History`, `Collector`, `Comparison`):
  - the snapshot a `DataCollector` takes each metrics interval;
  - its bounded real-time buffers, stated as the window of the last 100 snapshot points;
  - the dashboard view;
  - the summary statistics (average, extremes and counts);
  - the newest-first history index;
  - `ComparisonManager`'s comparison of a fixed-time run with an adaptive run.

Time is in seconds and is modelled as `real`. Python dicts keyed by the four
approaches become `PerDirection<T>` records. Python's `None`, the empty dict
and raised errors become `Option` values or explicit result constructors.

## Model

| member | source | states |
|---|---|---|
| Phases.Rank | src/logic.py:57 | PHASE_ORDER lists every direction; Rank is its position in that order |
| Phases.PhaseIndex | src/logic.py:42-55 | every phase type maps to an actuator index below 8; green phases get even indices, yellow phases odd |
| Phases.PhaseAt | src/logic.py:42-55 | the phase type of each index 0..7 is the inverse of PhaseIndex |
| Phases.OrderGivesIndices | src/logic.py:42-57 | the k-th direction of PHASE_ORDER has green index 2k and yellow index 2k+1 |
| Phases.PhaseIndexBijective | src/logic.py:42-55 | the two tables map the eight (direction, colour) pairs one-to-one onto 0..7 |
| Phases.Uniform | src/logic.py:79-81 | a per-direction dict holding the same value under every key, as the default green-time dicts are built |
| Config.DefaultsSensible | src/config.py:71-77 | the default timings are positive, with min green ≤ max green; the default pressure weights (src/config.py:146-148) are non-negative |
| Pressure.Pressures | src/logic.py:243-251 | each approach's pressure is its weighted vehicles + waiting time + queue |
| Pressure.PressureNonNegative | src/logic.py:243-251 | pressure is never negative for non-negative observations and weights |
| Pressure.PressuresNonNegative | src/logic.py:243-251 | the same for all four approaches of one tick |
| Pressure.EmptyHasNoPressure | src/logic.py:243-251 | an approach with no vehicles has pressure 0 |
| Pressure.GreenDuration | src/logic.py:253-258 | the green time is min green + pressure/2, clamped into [min green, max green]: min green for negative pressure, max green above the cap |
| Pressure.DefaultGreenDuration | src/logic.py:253-258 | with the defaults the green lies in [10, 60], equals 10 + p/2 up to pressure 100, and is 60 from pressure 100 on |
| Pressure.GreenDurationMonotone | src/logic.py:253-258 | more pressure never gives a shorter green |
| Lanes.LastIndexOf | src/logic.py:439 | the last position of a character in a string, or None when it does not occur |
| Lanes.Stem | src/logic.py:439 | `rsplit('_', 1)[0]`: the prefix before the last underscore, or the whole string when it has none |
| Lanes.StemOfJoined | src/logic.py:439 | the stem of `a_b` is `a` when b has no underscore |
| Lanes.ConfiguredStems | src/config.py:97-102 | every configured lane of an approach has the stem `<approach>_in` |
| Lanes.ListedLaneMatchesByStem | src/logic.py:439 | a listed lane also matches through the prefix test |
| Lanes.MatchFrom | src/logic.py:436-441 | the first approach, from position k on, whose lanes the lane matches; None when no later approach matches |
| Lanes.DirectionFromLane | src/logic.py:436-441 | the lane belongs to the first approach in dict order that lists it or whose stem prefixes it; it is unknown (None) exactly when no approach matches |
| Lanes.NorthLaneResolves | src/logic.py:436-441 | `north_in_0` resolves to north |
| Lanes.WestLaneResolves | src/logic.py:436-441 | `west_in_2` resolves to west past the three approaches before it |
| Lanes.UnlistedLaneResolvesByStem | src/logic.py:436-441 | an unlisted lane `west_in_7` resolves to west by prefix |
| Lanes.OutgoingLaneUnknown | src/logic.py:436-441 | an outgoing lane `north_out_0` belongs to no approach |
| Decisions.GreenDecision | src/logic.py:355-361 | a green decision carries DIRECTION_TO_GREEN_PHASE's index for its direction and phase type, the given duration and reason |
| Decisions.YellowDecision | src/logic.py:363-374 | a yellow decision carries DIRECTION_TO_YELLOW_PHASE's index for its direction and phase type, with the yellow duration |
| Decisions.Applied | src/logic.py:100-104 | apply_decision sets current_phase to the decision's index and phase_start_time to now; no other field changes |
| Decisions.AddGreenTime | src/logic.py:310 | `direction_green_times[d] += amount` changes d's total only |
| Decisions.StatisticsOf | src/logic.py:113-120 | get_statistics reports the mode's value string and the state's phase, direction, green times and emergency flag |
| Decisions.Lower | src/logic.py:450-452 | lower-casing keeps the length and lower-cases each character |
| Decisions.LowerIdempotent | src/logic.py:450-452 | lower-casing twice is lower-casing once |
| Decisions.ParseMode | src/logic.py:448-455 | the mode is fixed-time iff the lower-cased name is "fixed", adaptive iff it is "adaptive", and refused otherwise |
| Decisions.ParseModeRoundTrip | src/logic.py:23-26 | a mode's value string, in any letter case, parses back to that mode |
| Decisions.UpperCaseModesAccepted | src/logic.py:448-453 | "FIXED" and "Adaptive" are accepted |
| Decisions.OtherModesRejected | src/logic.py:454-455 | the empty string and "fixed-time" are refused |
| Selection.Best | src/logic.py:282-303 | a scan over PHASE_ORDER keeps the first candidate with the largest key; the result is never below the seed it starts from |
| Selection.BestIsFirstMaximum | src/logic.py:276-303 | the scan finds nothing iff no direction is admitted; otherwise it finds an admitted direction with the largest key, and no earlier direction has that key |
| Selection.BestOverAll | src/logic.py:276-303 | the same over all four directions, stated per direction |
| Selection.SeedBelowAll | src/logic.py:293-301 | the -1 seed of the pressure scan is returned only when no direction is admitted |
| Selection.SelectNext | src/logic.py:260-303 | the choice resets the cycle set exactly when it was made by highest pressure |
| Selection.FairnessFirst | src/logic.py:265-279 | when another direction has waited over 120 s, the longest-starved one (the first in PHASE_ORDER on a tie) is chosen for fairness, and the cycle set is kept |
| Selection.CycleSecond | src/logic.py:281-287 | with nobody starving and an unserved other direction, the unserved direction of highest pressure is chosen |
| Selection.PressureLast | src/logic.py:289-303 | with every other direction served and nobody starving, the cycle set is cleared and the other direction of highest pressure is chosen |
| Selection.NeverCurrent | src/logic.py:260-303 | with non-negative pressures the choice is never the current direction |
| Selection.ResetOnlyWhenCycleComplete | src/logic.py:289-290 | the cycle set is cleared only when every other direction is in it and nobody is starving |
| AdaptiveSpec.FirstQualifying | src/logic.py:404-409 | the index of the first sighting within detection distance on a known approach; None iff there is none |
| AdaptiveSpec.FirstQualifyingIs | src/logic.py:404-409 | a qualifying sighting with no qualifying sighting before it is the first |
| AdaptiveSpec.QualifiesWhenResolved | src/logic.py:405-409 | a sighting preempts iff it is within detection distance and its lane resolves to an approach |
| AdaptiveSpec.PreemptBy | src/logic.py:397-432 | the first qualifying sighting decides the preemption |
| AdaptiveProperties.CloseGreenEffect | src/logic.py:310-312 | ending a green adds its time in phase to its total, turns it yellow for the yellow duration, and changes nothing else |
| AdaptiveProperties.MaxGreenCutoff | src/logic.py:308-312 | at or beyond max green the phase goes to yellow whatever the pressures |
| AdaptiveProperties.StarvationBeforeMinGreen | src/logic.py:314-323 | a direction starved over 120 s forces yellow, even before min green has elapsed |
| AdaptiveProperties.MinGreenHold | src/logic.py:325-327 | below the min green before a switch, with nobody starving, no decision is made and nothing changes |
| AdaptiveProperties.SwitchOrExtend | src/logic.py:329-353 | past min green, yellow comes exactly when the ratio test holds against the chosen next direction; otherwise only the extension (bounded by max green) and the cycle reset change the state |
| AdaptiveProperties.ExtensionWithinMaxGreen | src/logic.py:346-351 | an extension moves the end time forward but never past max green from the phase start |
| AdaptiveProperties.SwitchWithoutDivision | src/logic.py:335-340 | for a current pressure of at least 0.1 the ratio test compares the next pressure with threshold × current pressure |
| AdaptiveProperties.EmptyApproachYields | src/logic.py:337-340 | an almost empty current approach yields to a next pressure above 5 |
| AdaptiveProperties.NextGreenEffect | src/logic.py:376-395 | after yellow, the chosen direction gets green for its adaptive duration; it is stamped as last green now and added to the cycle set |
| AdaptiveProperties.NextGreenMovesOn | src/logic.py:376-395 | the next green never goes to the direction that just had it |
| AdaptiveProperties.YellowHolds | src/logic.py:234-238 | before its end time a yellow produces no decision and no change |
| AdaptiveProperties.YellowExpires | src/logic.py:234-237 | at its end time a yellow gives way to the next green |
| AdaptiveProperties.GreenIsEvaluated | src/logic.py:232-241 | outside emergencies a green is judged on its time since phase start |
| AdaptiveProperties.FirstCall | src/logic.py:222-230 | the first call starts north green for its adaptive duration and records north as served |
| AdaptiveProperties.EmergencyPreempts | src/logic.py:397-432 | the first qualifying sighting overrides every other rule: green for its approach for the preemption time, naming the vehicle, with the cooldown end set; fairness bookkeeping is untouched |
| AdaptiveProperties.CooldownSilences | src/logic.py:216-218 | during the cooldown update returns None and changes nothing |
| AdaptiveProperties.CooldownEnds | src/logic.py:219-220 | once the cooldown is over the flag is cleared and the tick proceeds as usual |
| AdaptiveProperties.UpdateDecisionMatchesState | src/logic.py:210-434 | every decision carries the index of its phase type, and that phase is the one the controller now believes is showing; no decision means no phase change |
| AdaptiveProperties.TickKeepsConsistent | src/logic.py:100-104 | after update and apply_decision, current_phase still names the believed phase |
| AdaptiveProperties.InitialConsistent | src/logic.py:193-208 | a new controller is consistent |
| AdaptiveProperties.DurationsBounded | src/logic.py:210-434 | every decision lasts the yellow time, the preemption time, or a green between min and max green |
| AdaptiveProperties.RunKeepsConsistent | src/logic.py:210-241 | the phase-index invariant holds after any run of update and apply_decision (src/logic.py:100-104) ticks |
| AdaptiveProperties.CooldownRunFrozen | src/logic.py:216-218 | ticks before the cooldown end leave the controller unchanged |
| Adaptive.PressureBasedController.constructor | src/logic.py:193-208 | the new controller has the defaults, north green, the not-started sentinel and empty fairness records |
| Adaptive.PressureBasedController.Update | src/logic.py:210-241 | the decision and new fields are exactly those of AdaptiveSpec.Update |
| Adaptive.PressureBasedController.ScanPhaseOrder | src/logic.py:293-301 | the scan loop computes the first maximum Best over PHASE_ORDER |
| Adaptive.PressureBasedController.GetNextDirection | src/logic.py:260-303 | returns the choice of SelectNext and clears served_this_cycle only in the pressure branch |
| Adaptive.PressureBasedController.EvaluateGreenPhase | src/logic.py:305-353 | the loop-based evaluation equals EvaluateGreen |
| Adaptive.PressureBasedController.MakeGreenDecision | src/logic.py:355-361 | sets both current directions and green, and returns the green decision |
| Adaptive.PressureBasedController.TransitionToYellow | src/logic.py:363-374 | sets the yellow end time and colour, and returns the yellow decision |
| Adaptive.PressureBasedController.TransitionToNextGreen | src/logic.py:376-395 | equals ToNextGreen |
| Adaptive.PressureBasedController.CheckEmergencyPreemption | src/logic.py:397-434 | the loop over sightings equals Preempt: the first qualifying sighting preempts |
| Adaptive.PressureBasedController.PreemptFor | src/logic.py:411-432 | sets the emergency flag, cooldown end, direction, green and end time, and returns the preemption decision |
| Adaptive.PressureBasedController.GetDirectionFromLane | src/logic.py:436-441 | the loop over APPROACH_LANES returns DirectionFromLane |
| Adaptive.PressureBasedController.ApplyDecision | src/logic.py:100-104 | only current_phase and phase_start_time change |
| Adaptive.PressureBasedController.GetStatistics | src/logic.py:113-120 | reports StatisticsOf in adaptive mode |
| FixedTime.PhaseSequence | src/logic.py:135-144 | row i is phase i, held for the fixed green if green and the yellow duration if yellow |
| FixedTime.FixedFirstCall | src/logic.py:150-158 | the first call starts north green for the fixed green time, with the index still 0 |
| FixedTime.FixedHolds | src/logic.py:160-177 | before the end time a phase is held without a decision |
| FixedTime.FixedAdvances | src/logic.py:160-175 | at the end time the index moves to (i+1) mod 8 for that row's duration; a green adds its duration to its direction's total |
| FixedTime.AdvanceEffect | src/logic.py:160-168 | one expiry moves the index one place round the table, and adds the fixed green to a direction exactly when the new row is that direction's green |
| FixedTime.RotationOrder | src/logic.py:135-144 | each green is followed by the same direction's yellow, and each yellow by the next direction's green in PHASE_ORDER |
| FixedTime.Rotations | src/logic.py:160-175 | the index stays below 8 over any run of expiries |
| FixedTime.RotationsIndex | src/logic.py:161 | after k expiries the index has moved k places mod 8 |
| FixedTime.RotationsGreenTime | src/logic.py:167-168 | after k expiries each direction has gained the fixed green for each of its greens among them |
| FixedTime.FullCycleGreens | src/logic.py:135-144 | eight consecutive rows hold exactly one green per direction |
| FixedTime.FullCycle | src/logic.py:160-175 | a full cycle of eight expiries returns to the same index and grants every direction one fixed green |
| FixedTime.FixedTickKeepsConsistent | src/logic.py:148-177 | after update and apply_decision, current_phase equals the sequence index |
| FixedTime.FixedInitialConsistent | src/logic.py:130-146 | a new fixed-time controller is consistent |
| FixedTime.FixedTimeController.constructor | src/logic.py:130-146 | index 0, the not-started sentinel and the default timing |
| FixedTime.FixedTimeController.Update | src/logic.py:148-177 | the decision and new fields are those of FixedUpdate, and the index stays in range |
| FixedTime.FixedTimeController.ApplyDecision | src/logic.py:100-104 | only current_phase and phase_start_time change |
| FixedTime.FixedTimeController.GetStatistics | src/logic.py:113-120 | reports StatisticsOf in fixed mode |
| Factory.CreateController | src/logic.py:448-455 | a fresh fixed-time or adaptive controller in its initial state, chosen by the lower-cased name; refused (None) for any other name |
| Stats.Mean | src/logic.py:476-477 | the average: 0 for an empty list, otherwise average × count = sum |
| Stats.MaxOf | src/data_collector.py:227 | `max()` is an element of the list that bounds it from above |
| Stats.MinOf | src/data_collector.py:228 | `min()` is an element of the list that bounds it from below |
| Stats.Reals | src/data_collector.py:231-232 | integer samples taken as reals, element by element |
| Stats.MeanBetween | src/data_collector.py:226-228 | the average lies between the minimum and the maximum |
| Stats.MeanOfConstant | src/logic.py:476-477 | the average of equal samples is that value |
| Efficiency.Recorded | src/logic.py:469-473 | record_metrics appends the samples and keeps the running maximum throughput |
| Efficiency.FlooredImprovement | src/logic.py:485-486 | improvement × max(fixed, 0.1) = (fixed − adaptive) × 100 |
| Efficiency.FlooredImprovementSign | src/logic.py:485-486 | the improvement is positive iff the adaptive figure is lower, and zero iff they are equal |
| Efficiency.EfficiencyOf | src/logic.py:475-499 | the report holds the four averages, the floored improvements, the 0.6/0.4 score, and "better" iff the score is positive |
| Efficiency.SameAveragesScoreZero | src/logic.py:485-499 | equal averages score 0 and do not favour adaptive control |
| Efficiency.BetterAveragesFavourAdaptive | src/logic.py:485-499 | adaptive averages no higher on both measures, and lower on one, favour adaptive control |
| Efficiency.NoSamplesScoreZero | src/logic.py:476-477 | with no samples the averages and the score are 0 |
| Efficiency.EfficiencyCalculator.constructor | src/logic.py:465-467 | both modes start without samples |
| Efficiency.EfficiencyCalculator.RecordMetrics | src/logic.py:469-473 | exactly "fixed" records into the fixed-time metrics; any other mode records into the adaptive ones |
| Efficiency.EfficiencyCalculator.CalculateEfficiencyScore | src/logic.py:475-499 | the report of EfficiencyOf on the recorded metrics |
| Summary.Lookup | src/data_collector.py:146-153 | `approach_data.get(key)`: None iff the key is absent, otherwise an entry stored under it |
| Summary.AverageWaiting | src/data_collector.py:133-135 | average × max(total vehicles, 1) = total waiting; between 0 and the total for non-negative waiting |
| Summary.MakeSnapshot | src/data_collector.py:116-154 | the snapshot's time, mode and wall-clock stamp; vehicle and queue totals are the sums over the entries; average waiting is total waiting / max(vehicles, 1); each approach's count and pressure read from its entry, 0 when absent; phase and emergency flag default to 0 and false |
| Summary.AverageWaitingNonNegative | src/data_collector.py:129-135 | non-negative waiting times give a non-negative total and average |
| Summary.TotalsAppend | src/data_collector.py:130-134 | each entry adds its counts to the totals, a missing key adding 0 |
| Summary.FourApproachesTotal | src/data_collector.py:130-149 | with the four approaches present, the vehicle total is the sum of the per-approach counts |
| Summary.EmptyInputsReadZero | src/data_collector.py:130-154 | empty approach and controller data give all-zero readings |
| Summary.CountToPhase | src/data_collector.py:236-237 | a count of phase changes by target phase, at most the number of changes |
| Summary.CountTriggered | src/data_collector.py:240 | the number of events that triggered a preemption, at most the number of events |
| Summary.CountToPhaseCountsPositions | src/data_collector.py:236-237 | the count of changes to p is the number of positions whose record goes to p |
| Summary.CountTriggeredCountsPositions | src/data_collector.py:240 | the count of preemptions is the number of positions whose event triggered one |
| Summary.DistinctPhaseCounts | src/data_collector.py:236-237 | changes to phase 0 and changes to phase 3 together are at most all changes |
| Summary.WaitingTimes | src/data_collector.py:225 | the average waiting time of every snapshot, in order |
| Summary.QueueLengths | src/data_collector.py:231 | the queue length of every snapshot, in order |
| Summary.MaxInt | src/data_collector.py:233 | `max()` of integers, taken through the real maximum: an element that bounds the list |
| Summary.MeanAtMostMaxInt | src/data_collector.py:232-233 | the average queue is at most the maximum queue |
| Summary.SummaryOf | src/data_collector.py:214-264 | empty without snapshots; otherwise the sample count and the last time; average, max and min waiting are the mean, max and min of the samples (so min ≤ average ≤ max, both extremes attained); average queue is the mean of the queue lengths and max queue one of them bounding all; NS greens count changes to phase 0, EW greens those to phase 3; preemptions count triggered events |
| History.LexLeqTotal | src/data_collector.py:346 | any two timestamps are ordered one way or the other |
| History.LexLeqTransitive | src/data_collector.py:346 | string order is transitive |
| History.SortedDescPairwise | src/data_collector.py:346 | in a newest-first list every earlier entry is at least as new as every later one |
| History.InsertDesc | src/data_collector.py:346 | insertion into a newest-first list keeps it sorted and adds exactly one entry |
| History.AppendAndSort | src/data_collector.py:343-346 | appending and sorting gives a newest-first list holding exactly the old entries plus the new one |
| Collector.Window | src/data_collector.py:91-93 | the whole list when it has at most n elements, otherwise its last n elements in order |
| Collector.Push | src/data_collector.py:159-166 | appending to a deque gives the window of the buffer with the element appended; the new element is last |
| Collector.WindowPush | src/data_collector.py:159-166 | pushing onto the window of a list is the window of the list with the element appended |
| Collector.WaitingPoints | src/data_collector.py:159-162 | one (time, average waiting) point per snapshot |
| Collector.QueuePoints | src/data_collector.py:163-166 | one (time, queue) point per snapshot |
| Collector.PointsAppend | src/data_collector.py:156-166 | a new snapshot adds exactly its points |
| Collector.BuffersAfterSnapshot | src/data_collector.py:156-166 | pushing a snapshot's points onto the windows of the earlier snapshots gives the windows of all of them |
| Collector.DataCollector.constructor | src/data_collector.py:75-109 | an empty collector whose run id is `<timestamp>_<mode>` |
| Collector.DataCollector.CollectSnapshot | src/data_collector.py:116-169 | appends the snapshot and pushes its two points; the buffers stay the window of the last 100 snapshots; phase and emergency records are unchanged |
| Collector.DataCollector.RecordPhaseChange | src/data_collector.py:171-182 | appends exactly one record and changes nothing else |
| Collector.DataCollector.RecordEmergencyEvent | src/data_collector.py:184-196 | appends exactly one event and changes nothing else |
| Collector.DataCollector.GetRealTimeData | src/data_collector.py:198-212 | each history is the window of the last 100 snapshots' points, ending with the latest snapshot's; the latest snapshot exactly when there is one; the three counts |
| Collector.DataCollector.GetSummaryStatistics | src/data_collector.py:214-264 | the statistics of the collected lists as SummaryOf states them; empty iff there are no snapshots |
| Collector.DataCollector.UpdateHistoryIndex | src/data_collector.py:324-346 | the history with this run's entry, sorted newest first and otherwise unchanged as a multiset |
| Comparison.Improvement | src/data_collector.py:387-390 | 0 when the fixed figure is 0; otherwise improvement × fixed = (fixed − adaptive) × 100 |
| Comparison.ImprovementSign | src/data_collector.py:387-390 | for a positive fixed figure the improvement is positive iff the adaptive figure is lower, and zero iff equal |
| Comparison.ImprovementAgreesAboveFloor | src/data_collector.py:387-390 | for a fixed figure of at least 0.1 it agrees with EfficiencyCalculator's floored improvement (src/logic.py:485) |
| Comparison.CompareSummaries | src/data_collector.py:380-416 | missing statistics iff a run has no snapshots; otherwise the two improvements, the 0.6/0.4 score, "better" iff the score is positive, and the matching recommendation |
| Comparison.SelfComparisonNeutral | src/data_collector.py:387-416 | a run compared with itself scores 0 and is not recommended |
| Comparison.LowerAveragesRecommendAdaptive | src/data_collector.py:387-416 | with positive fixed averages, adaptive averages no higher on both and lower on one get the recommendation |
| Comparison.HigherAveragesNotRecommended | src/data_collector.py:387-416 | with positive fixed averages, adaptive averages no lower on either are not recommended |
| Comparison.ComparisonManager.constructor | src/data_collector.py:361-363 | both collectors unset |
| Comparison.ComparisonManager.SetFixedResults | src/data_collector.py:365-367 | sets the fixed-time collector only |
| Comparison.ComparisonManager.SetAdaptiveResults | src/data_collector.py:369-371 | sets the adaptive collector only |
| Comparison.ComparisonManager.GenerateComparison | src/data_collector.py:373-416 | the error result iff a collector is unset; a comparison iff both are set and both have snapshots; with both set, exactly CompareSummaries of their summary statistics (improvements, score, verdict, recommendation) |

## Left out

- The simulator interface: TraCI calls, detectors, the actuator's set_phase/set_phase_duration, and the vehicle feed. Approach observations and emergency sightings are parameters of each tick. They are constant within a tick, so repeated `_calculate_pressure` calls see the same data.
- The simulation clock read by apply_decision through `traci.simulation.getTime()` (0.0 on failure) is a parameter, `now`. The wall clock `time.time()` of the snapshots and records is a parameter too, and so is the start-up `datetime.now()` stamp of a collector.
- Console output (`print`) and the formatted reason strings. Reasons are tags: `Reason` and `SelectionTag` keep which rule fired and the preempting vehicle's id, but not the text.
- `last_switch_time` is never written by the controllers; it is carried unchanged. `preemption_direction` is set in the constructor and never read; it is not modelled.
- `throughput_buffer` is never filled; it is not modelled.
- Files: CSV export, the JSON summary, the comparison export, reading and writing the history index file (a malformed index reads as empty), and directory creation. Only the list part of `_update_history_index` is modelled. SimulationLogger is not part of this model.
- History.AppendAndSort: proves that the result is sorted newest first and is a permutation, but not that Python's sort is stable among entries with equal timestamps.
- Decisions.Lower: lower-cases ASCII letters only; Python's `str.lower` also folds other Unicode letters.
- Timestamps compare as Python strings (by code point); no date parsing is modelled.
- Python's integer/float distinction is not modelled: averages are `real`, counts `int`. The summary's "empty dict" and generate_comparison's KeyError on it are the `None` and `MissingStatistics` outcomes.
- The starvation test is checked before the min-green floor, and the cycle set is cleared only in the pressure branch of `_get_next_direction`. The model follows the code in both.
- FixedTime.FixedTickKeepsConsistent: holds for non-negative times and positive durations only. A first call at a time t with t + fixed green = 0 would leave the 0.0 "not started" sentinel in place.
