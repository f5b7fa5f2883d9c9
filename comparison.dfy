/**
 * ComparisonManager (src/data_collector.py:352-416): holds the collectors
 * of a fixed-time run and an adaptive run and compares their summary
 * statistics.
 */
module Comparison {
  import opened Wrappers
  import opened Summary
  import opened Collector
  import Efficiency

  /** `improvement(fixed, adaptive)`: the percentage drop from fixed to adaptive; 0 when fixed is 0. */
  function Improvement(f: real, a: real): (r: real)
    ensures f == 0.0 ==> r == 0.0
    ensures f != 0.0 ==> r * f == (f - a) * 100.0
  {
    if f == 0.0 then 0.0 else (f - a) / f * 100.0
  }

  /** For a positive fixed figure the improvement is positive exactly when the adaptive figure is lower. */
  lemma ImprovementSign(f: real, a: real)
    requires f > 0.0
    ensures Improvement(f, a) > 0.0 <==> a < f
    ensures Improvement(f, a) == 0.0 <==> a == f
  {
    var r := Improvement(f, a);
    assert r * f == (f - a) * 100.0;
    if r > 0.0 { assert r * f > 0.0; }
    if a < f { assert (f - a) * 100.0 > 0.0; }
    if r == 0.0 { assert (f - a) * 100.0 == 0.0; }
  }

  /**
   * Where the fixed figure is at least 0.1 this improvement and the one
   * EfficiencyCalculator uses agree; they differ only below that floor.
   */
  lemma ImprovementAgreesAboveFloor(f: real, a: real)
    requires f >= 0.1
    ensures Improvement(f, a) == Efficiency.FlooredImprovement(f, a)
  {
    var r := Improvement(f, a);
    var g := Efficiency.FlooredImprovement(f, a);
    assert r * f == g * f;
  }

  /** The two recommendation texts. */
  const Recommended: string := "Adaptive control is recommended"
  const ConsiderTuning: string := "Consider tuning adaptive parameters"

  /**
   * generate_comparison's outcome: the error dict when a collector is
   * missing, the KeyError raised when a collector has no snapshots (its
   * statistics are the empty dict), or the comparison.
   */
  datatype ComparisonResult =
    | NotReady
    | MissingStatistics
    | Compared(
        fixedResults: SummaryStatistics,
        adaptiveResults: SummaryStatistics,
        waitingTimeImprovement: real,
        queueLengthImprovement: real,
        overallEfficiencyScore: real,
        adaptiveIsBetter: bool,
        recommendation: string)

  /** The comparison of two runs' summary statistics. */
  function CompareSummaries(fixed: Option<SummaryStatistics>, adaptive: Option<SummaryStatistics>): (r: ComparisonResult)
    ensures !r.NotReady?
    ensures r.MissingStatistics? <==> fixed.None? || adaptive.None?
    ensures r.Compared? ==>
      && r.fixedResults == fixed.value && r.adaptiveResults == adaptive.value
      && r.waitingTimeImprovement
         == Improvement(fixed.value.averageWaitingTime, adaptive.value.averageWaitingTime)
      && r.queueLengthImprovement
         == Improvement(fixed.value.averageQueueLength, adaptive.value.averageQueueLength)
      && r.overallEfficiencyScore == 0.6 * r.waitingTimeImprovement + 0.4 * r.queueLengthImprovement
      && (r.adaptiveIsBetter <==> r.overallEfficiencyScore > 0.0)
      && r.recommendation == (if r.adaptiveIsBetter then Recommended else ConsiderTuning)
  {
    if fixed.None? || adaptive.None? then MissingStatistics
    else
      var f := fixed.value;
      var a := adaptive.value;
      var wi := Improvement(f.averageWaitingTime, a.averageWaitingTime);
      var qi := Improvement(f.averageQueueLength, a.averageQueueLength);
      var score := wi * 0.6 + qi * 0.4;
      Compared(f, a, wi, qi, score, score > 0.0, if score > 0.0 then Recommended else ConsiderTuning)
  }

  /** A run compared with itself scores zero and adaptive control is not recommended. */
  lemma SelfComparisonNeutral(s: SummaryStatistics)
    ensures CompareSummaries(Some(s), Some(s)).overallEfficiencyScore == 0.0
    ensures CompareSummaries(Some(s), Some(s)).recommendation == ConsiderTuning
  {
    var r := CompareSummaries(Some(s), Some(s));
    if s.averageWaitingTime != 0.0 {
      assert r.waitingTimeImprovement * s.averageWaitingTime == 0.0;
    }
    if s.averageQueueLength != 0.0 {
      assert r.queueLengthImprovement * s.averageQueueLength == 0.0;
    }
  }

  /**
   * With positive fixed-time averages, an adaptive run that is no worse on
   * both and strictly better on one is recommended.
   */
  lemma LowerAveragesRecommendAdaptive(f: SummaryStatistics, a: SummaryStatistics)
    requires f.averageWaitingTime > 0.0 && f.averageQueueLength > 0.0
    requires a.averageWaitingTime <= f.averageWaitingTime && a.averageQueueLength <= f.averageQueueLength
    requires a.averageWaitingTime < f.averageWaitingTime || a.averageQueueLength < f.averageQueueLength
    ensures CompareSummaries(Some(f), Some(a)).adaptiveIsBetter
    ensures CompareSummaries(Some(f), Some(a)).recommendation == Recommended
  {
    ImprovementSign(f.averageWaitingTime, a.averageWaitingTime);
    ImprovementSign(f.averageQueueLength, a.averageQueueLength);
  }

  /**
   * With positive fixed-time averages, an adaptive run that is no better on
   * either is not recommended.
   */
  lemma HigherAveragesNotRecommended(f: SummaryStatistics, a: SummaryStatistics)
    requires f.averageWaitingTime > 0.0 && f.averageQueueLength > 0.0
    requires f.averageWaitingTime <= a.averageWaitingTime && f.averageQueueLength <= a.averageQueueLength
    ensures !CompareSummaries(Some(f), Some(a)).adaptiveIsBetter
  {
    ImprovementSign(f.averageWaitingTime, a.averageWaitingTime);
    ImprovementSign(f.averageQueueLength, a.averageQueueLength);
  }

  class ComparisonManager {
    var fixedCollector: DataCollector?
    var adaptiveCollector: DataCollector?

    constructor()
      ensures fixedCollector == null && adaptiveCollector == null
    {
      fixedCollector := null;
      adaptiveCollector := null;
    }

    /** set_fixed_results */
    method SetFixedResults(collector: DataCollector)
      modifies this
      ensures fixedCollector == collector && adaptiveCollector == old(adaptiveCollector)
    {
      fixedCollector := collector;
    }

    /** set_adaptive_results */
    method SetAdaptiveResults(collector: DataCollector)
      modifies this
      ensures adaptiveCollector == collector && fixedCollector == old(fixedCollector)
    {
      adaptiveCollector := collector;
    }

    /**
     * generate_comparison: NotReady until both runs are set; otherwise the
     * comparison of their summary statistics, which needs a snapshot in each.
     */
    function GenerateComparison(): (r: ComparisonResult)
      reads this, fixedCollector, adaptiveCollector
      ensures r.NotReady? <==> fixedCollector == null || adaptiveCollector == null
      ensures r.Compared? <==>
        && fixedCollector != null && adaptiveCollector != null
        && fixedCollector.snapshots != [] && adaptiveCollector.snapshots != []
      ensures r.Compared? ==>
        && Some(r.fixedResults) == fixedCollector.GetSummaryStatistics()
        && Some(r.adaptiveResults) == adaptiveCollector.GetSummaryStatistics()
      ensures fixedCollector != null && adaptiveCollector != null ==>
        r == CompareSummaries(fixedCollector.GetSummaryStatistics(), adaptiveCollector.GetSummaryStatistics())
    {
      if fixedCollector == null || adaptiveCollector == null then NotReady
      else CompareSummaries(fixedCollector.GetSummaryStatistics(), adaptiveCollector.GetSummaryStatistics())
    }
  }
}
