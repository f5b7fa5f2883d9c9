/**
 * The pressure estimator and the adaptive green duration
 * (PressureBasedController._calculate_pressure and
 * _calculate_green_duration, src/logic.py:243-258).
 */
module Pressure {
  import opened Phases
  import opened Config

  /** One approach's observation: the fields of ApproachData the controller reads. */
  datatype Observation = Observation(totalVehicles: int, totalWaitingTime: real, queueLength: int)

  /** What the simulator reports: counts and waiting time are never negative. */
  predicate WellFormed(o: Observation)
  {
    o.totalVehicles >= 0 && o.totalWaitingTime >= 0.0 && o.queueLength >= 0
  }

  /** The observations of all four approaches on one tick. */
  type Traffic = PerDirection<Observation>

  predicate WellFormedTraffic(t: Traffic)
  {
    forall d :: WellFormed(t.At(d))
  }

  /** The observation of an approach the simulator could not read. */
  const Empty: Observation := Observation(0, 0.0, 0)

  function PressureOf(o: Observation, a: AlgorithmConfig): real
  {
    o.totalVehicles as real * a.vehicleCountWeight
    + o.totalWaitingTime * a.waitingTimeWeight
    + o.queueLength as real * a.queueLengthWeight
  }

  /** The pressure of every approach on one tick. */
  function Pressures(t: Traffic, a: AlgorithmConfig): (p: PerDirection<real>)
    ensures forall d :: p.At(d) == PressureOf(t.At(d), a)
  {
    PerDirection(PressureOf(t.north, a), PressureOf(t.east, a), PressureOf(t.south, a), PressureOf(t.west, a))
  }

  lemma ProductNonNegative(x: real, w: real)
    requires 0.0 <= x && 0.0 <= w
    ensures 0.0 <= x * w
  {
    if x == 0.0 || w == 0.0 {
    } else {
      assert 0.0 < x * w;
    }
  }

  /** Pressure is never negative for a well-formed observation. */
  lemma PressureNonNegative(o: Observation, a: AlgorithmConfig)
    requires WellFormed(o) && NonNegativeWeights(a)
    ensures PressureOf(o, a) >= 0.0
  {
    ProductNonNegative(o.totalVehicles as real, a.vehicleCountWeight);
    ProductNonNegative(o.totalWaitingTime, a.waitingTimeWeight);
    ProductNonNegative(o.queueLength as real, a.queueLengthWeight);
  }

  lemma PressuresNonNegative(t: Traffic, a: AlgorithmConfig)
    requires WellFormedTraffic(t) && NonNegativeWeights(a)
    ensures forall d :: Pressures(t, a).At(d) >= 0.0
  {
    forall d ensures Pressures(t, a).At(d) >= 0.0 {
      PressureNonNegative(t.At(d), a);
    }
  }

  /** A missing observation counts as no traffic at all. */
  lemma EmptyHasNoPressure(a: AlgorithmConfig)
    ensures PressureOf(Empty, a) == 0.0
  {
  }

  function Min(x: real, y: real): real { if x <= y then x else y }

  function Max(x: real, y: real): real { if x >= y then x else y }

  /**
   * The green time granted to a direction of pressure p: min green plus half
   * a second per unit of pressure, clamped into [min green, max green].
   */
  function GreenDuration(p: real, c: TrafficLightConfig): (r: real)
    ensures c.minGreenDuration <= c.maxGreenDuration ==> c.minGreenDuration <= r <= c.maxGreenDuration
    ensures c.minGreenDuration <= c.minGreenDuration + p * 0.5 <= c.maxGreenDuration ==> r == c.minGreenDuration + p * 0.5
    ensures c.minGreenDuration <= c.maxGreenDuration < c.minGreenDuration + p * 0.5 ==> r == c.maxGreenDuration
    ensures p < 0.0 ==> r == c.minGreenDuration
  {
    Max(c.minGreenDuration, Min(c.maxGreenDuration, c.minGreenDuration + p * 0.5))
  }

  /** With the defaults the green time lies in [10, 60] and reaches 60 at pressure 100. */
  lemma DefaultGreenDuration(p: real)
    requires p >= 0.0
    ensures 10.0 <= GreenDuration(p, DefaultTrafficLight) <= 60.0
    ensures p <= 100.0 ==> GreenDuration(p, DefaultTrafficLight) == 10.0 + p * 0.5
    ensures p >= 100.0 ==> GreenDuration(p, DefaultTrafficLight) == 60.0
  {
  }

  /** More pressure never shortens the green. */
  lemma GreenDurationMonotone(p: real, q: real, c: TrafficLightConfig)
    requires p <= q
    ensures GreenDuration(p, c) <= GreenDuration(q, c)
  {
  }
}
