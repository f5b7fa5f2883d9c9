/**
 * EfficiencyCalculator (src/logic.py:462-499): per-mode lists of waiting
 * time and queue length samples with the best throughput seen, and a score
 * comparing the adaptive averages with the fixed-time ones.
 */
module Efficiency {
  import opened Stats
  import opened Pressure

  /** One mode's metrics dict. */
  datatype Metrics = Metrics(waitingTimes: seq<real>, queueLengths: seq<int>, throughput: int)

  const NoMetrics: Metrics := Metrics([], [], 0)

  /** What record_metrics does to one mode's metrics. */
  function Recorded(m: Metrics, waitingTime: real, queueLength: int, throughput: int): (r: Metrics)
    ensures r.waitingTimes == m.waitingTimes + [waitingTime]
    ensures r.queueLengths == m.queueLengths + [queueLength]
    ensures r.throughput >= m.throughput && r.throughput >= throughput
    ensures r.throughput == m.throughput || r.throughput == throughput
  {
    Metrics(m.waitingTimes + [waitingTime], m.queueLengths + [queueLength],
            if m.throughput >= throughput then m.throughput else throughput)
  }

  /** The result dict of calculate_efficiency_score. */
  datatype EfficiencyReport = EfficiencyReport(
    fixedAvgWaitingTime: real,
    adaptiveAvgWaitingTime: real,
    waitingTimeImprovement: real,
    fixedAvgQueueLength: real,
    adaptiveAvgQueueLength: real,
    queueImprovement: real,
    overallEfficiencyScore: real,
    adaptiveIsBetter: bool)

  /** Percentage improvement of a over f, the divisor floored at 0.1. */
  function FlooredImprovement(f: real, a: real): (r: real)
    ensures r * Max(f, 0.1) == (f - a) * 100.0
  {
    (f - a) / Max(f, 0.1) * 100.0
  }

  /** The improvement is positive exactly when the adaptive figure is lower, and zero when they agree. */
  lemma FlooredImprovementSign(f: real, a: real)
    ensures FlooredImprovement(f, a) > 0.0 <==> a < f
    ensures FlooredImprovement(f, a) == 0.0 <==> a == f
  {
    var d := Max(f, 0.1);
    var r := FlooredImprovement(f, a);
    assert r * d == (f - a) * 100.0;
    if r > 0.0 { assert r * d > 0.0; }
    if a < f { assert (f - a) * 100.0 > 0.0; }
    if r == 0.0 { assert (f - a) * 100.0 == 0.0; }
  }

  function Score(waitingImprovement: real, queueImprovement: real): real
  {
    waitingImprovement * 0.6 + queueImprovement * 0.4
  }

  /** calculate_efficiency_score on the two modes' metrics. */
  function EfficiencyOf(fixed: Metrics, adaptive: Metrics): (r: EfficiencyReport)
    ensures r.fixedAvgWaitingTime == Mean(fixed.waitingTimes)
    ensures r.adaptiveAvgWaitingTime == Mean(adaptive.waitingTimes)
    ensures r.fixedAvgQueueLength == Mean(Reals(fixed.queueLengths))
    ensures r.adaptiveAvgQueueLength == Mean(Reals(adaptive.queueLengths))
    ensures r.waitingTimeImprovement == FlooredImprovement(r.fixedAvgWaitingTime, r.adaptiveAvgWaitingTime)
    ensures r.queueImprovement == FlooredImprovement(r.fixedAvgQueueLength, r.adaptiveAvgQueueLength)
    ensures r.overallEfficiencyScore == 0.6 * r.waitingTimeImprovement + 0.4 * r.queueImprovement
    ensures r.adaptiveIsBetter <==> r.overallEfficiencyScore > 0.0
  {
    var fw := Mean(fixed.waitingTimes);
    var aw := Mean(adaptive.waitingTimes);
    var fq := Mean(Reals(fixed.queueLengths));
    var aq := Mean(Reals(adaptive.queueLengths));
    var wi := FlooredImprovement(fw, aw);
    var qi := FlooredImprovement(fq, aq);
    var score := Score(wi, qi);
    EfficiencyReport(fw, aw, wi, fq, aq, qi, score, score > 0.0)
  }

  /** Equal averages score zero and do not favour adaptive control. */
  lemma SameAveragesScoreZero(fixed: Metrics, adaptive: Metrics)
    requires Mean(fixed.waitingTimes) == Mean(adaptive.waitingTimes)
    requires Mean(Reals(fixed.queueLengths)) == Mean(Reals(adaptive.queueLengths))
    ensures EfficiencyOf(fixed, adaptive).overallEfficiencyScore == 0.0
    ensures !EfficiencyOf(fixed, adaptive).adaptiveIsBetter
  {
    var r := EfficiencyOf(fixed, adaptive);
    FlooredImprovementSign(r.fixedAvgWaitingTime, r.adaptiveAvgWaitingTime);
    FlooredImprovementSign(r.fixedAvgQueueLength, r.adaptiveAvgQueueLength);
  }

  /** Lower adaptive averages on both measures, or lower on one and equal on the other, favour adaptive control. */
  lemma BetterAveragesFavourAdaptive(fixed: Metrics, adaptive: Metrics)
    requires Mean(adaptive.waitingTimes) <= Mean(fixed.waitingTimes)
    requires Mean(Reals(adaptive.queueLengths)) <= Mean(Reals(fixed.queueLengths))
    requires Mean(adaptive.waitingTimes) < Mean(fixed.waitingTimes)
          || Mean(Reals(adaptive.queueLengths)) < Mean(Reals(fixed.queueLengths))
    ensures EfficiencyOf(fixed, adaptive).adaptiveIsBetter
  {
    var r := EfficiencyOf(fixed, adaptive);
    FlooredImprovementSign(r.fixedAvgWaitingTime, r.adaptiveAvgWaitingTime);
    FlooredImprovementSign(r.fixedAvgQueueLength, r.adaptiveAvgQueueLength);
  }

  /** With no samples at all both averages are 0 and the score is 0. */
  lemma NoSamplesScoreZero()
    ensures EfficiencyOf(NoMetrics, NoMetrics).overallEfficiencyScore == 0.0
    ensures EfficiencyOf(NoMetrics, NoMetrics).fixedAvgWaitingTime == 0.0
  {
  }

  class EfficiencyCalculator {
    var fixedMetrics: Metrics
    var adaptiveMetrics: Metrics

    constructor()
      ensures fixedMetrics == NoMetrics && adaptiveMetrics == NoMetrics
    {
      fixedMetrics := NoMetrics;
      adaptiveMetrics := NoMetrics;
    }

    /** record_metrics: exactly the string "fixed" selects the fixed-time metrics; any other mode the adaptive ones. */
    method RecordMetrics(mode: string, waitingTime: real, queueLength: int, throughput: int)
      modifies this
      ensures mode == "fixed" ==>
        fixedMetrics == Recorded(old(fixedMetrics), waitingTime, queueLength, throughput)
        && adaptiveMetrics == old(adaptiveMetrics)
      ensures mode != "fixed" ==>
        adaptiveMetrics == Recorded(old(adaptiveMetrics), waitingTime, queueLength, throughput)
        && fixedMetrics == old(fixedMetrics)
    {
      var metrics := if mode == "fixed" then fixedMetrics else adaptiveMetrics;
      metrics := metrics.(waitingTimes := metrics.waitingTimes + [waitingTime]);
      metrics := metrics.(queueLengths := metrics.queueLengths + [queueLength]);
      metrics := metrics.(throughput := if metrics.throughput >= throughput then metrics.throughput else throughput);
      if mode == "fixed" {
        fixedMetrics := metrics;
      } else {
        adaptiveMetrics := metrics;
      }
    }

    /** calculate_efficiency_score */
    function CalculateEfficiencyScore(): (r: EfficiencyReport)
      reads this
      ensures r == EfficiencyOf(fixedMetrics, adaptiveMetrics)
    {
      EfficiencyOf(fixedMetrics, adaptiveMetrics)
    }
  }
}
