/**
 * Timing and algorithm parameters of the controller, with the defaults of
 * src/config.py (TrafficLightConfig, AlgorithmConfig, APPROACH_LANES).
 * Time is in seconds, distance in metres.
 */
module Config {
  import opened Phases

  datatype TrafficLightConfig = TrafficLightConfig(
    fixedGreenDuration: real,
    yellowDuration: real,
    minGreenDuration: real,
    maxGreenDuration: real,
    extensionTime: real)

  const DefaultTrafficLight: TrafficLightConfig :=
    TrafficLightConfig(30.0, 4.0, 10.0, 60.0, 3.0)

  /** The ordering of the timing bounds that the defaults satisfy. */
  predicate SensibleTiming(c: TrafficLightConfig)
  {
    && 0.0 < c.yellowDuration
    && 0.0 < c.fixedGreenDuration
    && 0.0 < c.minGreenDuration <= c.maxGreenDuration
    && 0.0 <= c.extensionTime
  }

  datatype AlgorithmConfig = AlgorithmConfig(
    vehicleCountWeight: real,
    waitingTimeWeight: real,
    queueLengthWeight: real,
    emergencyDetectionDistance: real,
    emergencyPreemptionTime: real,
    emergencyCooldown: real,
    minGreenBeforeSwitch: real,
    pressureRatioThreshold: real)

  const DefaultAlgorithm: AlgorithmConfig :=
    AlgorithmConfig(1.0, 0.5, 0.3, 200.0, 15.0, 10.0, 8.0, 1.5)

  /** Non-negative pressure weights, as the defaults have. */
  predicate NonNegativeWeights(a: AlgorithmConfig)
  {
    0.0 <= a.vehicleCountWeight && 0.0 <= a.waitingTimeWeight && 0.0 <= a.queueLengthWeight
  }

  /** PressureBasedController.MAX_STARVATION_TIME. */
  const MaxStarvationTime: real := 120.0

  /** APPROACH_LANES, in the dict's own order: north, south, east, west. */
  const ApproachLanes: seq<(Direction, seq<string>)> := [
    (North, ["north_in_0", "north_in_1", "north_in_2"]),
    (South, ["south_in_0", "south_in_1", "south_in_2"]),
    (East, ["east_in_0", "east_in_1", "east_in_2"]),
    (West, ["west_in_0", "west_in_1", "west_in_2"])
  ]

  lemma DefaultsSensible()
    ensures SensibleTiming(DefaultTrafficLight)
    ensures NonNegativeWeights(DefaultAlgorithm)
  {
  }
}
