/**
 * `calculateSummary` of summary-calculator.js: the projection results with
 * the equity growth over the period and the annualized return on equity
 * added. The return is the N-th root of finalEquity / initialEquity less
 * one; it is characterised by the equation it solves rather than computed.
 */
module SummaryCalculator {
  import opened Numerics
  import opened CashflowCalculator

  /** The returned object: every field of the results plus two more. */
  datatype Summary = Summary(results: CalculationResults, equityGrowth: real, annualizedROI: real)

  /**
   * `roi` is an annualized rate of return turning `initialEquity` into
   * `finalEquity` over `period` years: (1 + roi)^period is their ratio.
   */
  ghost predicate AnnualizedRate(roi: real, initialEquity: real, finalEquity: real, period: nat)
    requires initialEquity > 0.0
  {
    roi >= -1.0 && Pow(1.0 + roi, period) == finalEquity / initialEquity
  }

  /** With a positive starting equity there is at most one such rate. */
  lemma AnnualizedRateUnique(roi: real, roi': real, initialEquity: real, finalEquity: real, period: nat)
    requires initialEquity > 0.0 && period >= 1
    requires AnnualizedRate(roi, initialEquity, finalEquity, period)
    requires AnnualizedRate(roi', initialEquity, finalEquity, period)
    ensures roi == roi'
  {
    PowInjective(1.0 + roi, 1.0 + roi', period);
  }

  /** The rate is zero exactly when equity ends where it started. */
  lemma AnnualizedRateZero(roi: real, initialEquity: real, finalEquity: real, period: nat)
    requires initialEquity > 0.0 && period >= 1
    requires AnnualizedRate(roi, initialEquity, finalEquity, period)
    ensures roi == 0.0 <==> finalEquity == initialEquity
  {
    PowOfOne(period);
    if finalEquity == initialEquity {
      PowInjective(1.0 + roi, 1.0, period);
    }
  }

  /** The rate is positive exactly when equity grew. */
  lemma AnnualizedRatePositive(roi: real, initialEquity: real, finalEquity: real, period: nat)
    requires initialEquity > 0.0 && period >= 1
    requires AnnualizedRate(roi, initialEquity, finalEquity, period)
    ensures roi > 0.0 <==> finalEquity > initialEquity
  {
    PowOfOne(period);
    if roi > 0.0 {
      PowStrictlyIncreasing(1.0, 1.0 + roi, period);
      assert finalEquity / initialEquity > 1.0;
    } else if roi < 0.0 {
      PowStrictlyIncreasing(1.0 + roi, 1.0, period);
      assert finalEquity / initialEquity < 1.0;
    }
  }

  /**
   * `calculateSummary()`. `annualizedROI` is the rate that solves the
   * defining equation; the source has no value for it when the initial
   * equity is not positive, so that case is excluded, as is a final equity
   * below zero, which has no real root.
   */
  function CalculateSummary(results: CalculationResults, period: nat, annualizedROI: real): (s: Summary)
    requires results.initialEquity > 0.0 && results.finalEquity >= 0.0 && period >= 1
    requires AnnualizedRate(annualizedROI, results.initialEquity, results.finalEquity, period)
    ensures s.results == results
    ensures s.equityGrowth + results.initialEquity == results.finalEquity
    ensures Pow(1.0 + s.annualizedROI, period) * results.initialEquity == results.finalEquity
    ensures s.annualizedROI >= -1.0
    ensures s.annualizedROI == 0.0 <==> s.equityGrowth == 0.0
    ensures s.annualizedROI > 0.0 <==> s.equityGrowth > 0.0
  {
    AnnualizedRateZero(annualizedROI, results.initialEquity, results.finalEquity, period);
    AnnualizedRatePositive(annualizedROI, results.initialEquity, results.finalEquity, period);
    Summary(results, results.finalEquity - results.initialEquity, annualizedROI)
  }
}
