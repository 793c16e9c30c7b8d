/**
 * The line appended to the hourly report for one aggregation.
 *
 * The wall-clock timestamp each line starts with is not modelled; a line is
 * either the "no data" line or the analysis line carrying both averages.
 */
module Report {
  import opened Records

  datatype Line =
    | NoDataLine
    | AnalysisLine(totalAvg: Option<real>, lastHourAvg: real)

  /** Python truthiness of an optional number: `None` and zero are falsy. */
  predicate Falsy(x: Option<real>)
  {
    x.None? || x.value == 0.0
  }

  /** The line `write_to_file` chooses for its two arguments. */
  function ReportLine(lastHourAvg: Option<real>, totalAvg: Option<real>): (line: Line)
    ensures line.NoDataLine? <==> Falsy(lastHourAvg)
    ensures line.AnalysisLine? ==> lastHourAvg == Some(line.lastHourAvg) && line.totalAvg == totalAvg
  {
    if lastHourAvg.Some? && lastHourAvg.value != 0.0 then AnalysisLine(totalAvg, lastHourAvg.value)
    else NoDataLine
  }

  /**
   * The result of one aggregation period: whether it had numeric data, its
   * average, and the running average reported with it.
   */
  datatype PeriodResult = PeriodResult(hadData: bool, periodAvg: Option<real>, cumulativeAvg: Option<real>)

  /**
   * The line for a period, chosen by whether the period had numeric data
   * rather than by the truthiness of its average.
   */
  function PeriodLine(r: PeriodResult): (line: Line)
    requires r.hadData ==> r.periodAvg.Some?
    ensures line.NoDataLine? <==> !r.hadData
    ensures r.hadData ==> line == AnalysisLine(r.cumulativeAvg, r.periodAvg.value)
  {
    if r.hadData then AnalysisLine(r.cumulativeAvg, r.periodAvg.value) else NoDataLine
  }

  /**
   * The two choices agree on a period without data and on one whose average
   * is not zero; on a period with data whose average is exactly zero the
   * written choice reports no data.
   */
  lemma ReportLineAgreesWithPeriodLineExceptAtZero(periodAvg: real, cumulativeAvg: real)
    ensures ReportLine(None, None) == PeriodLine(PeriodResult(false, None, None))
    ensures periodAvg != 0.0 ==>
      ReportLine(Some(periodAvg), Some(cumulativeAvg)) ==
      PeriodLine(PeriodResult(true, Some(periodAvg), Some(cumulativeAvg)))
    ensures ReportLine(Some(0.0), Some(cumulativeAvg)) == NoDataLine
    ensures PeriodLine(PeriodResult(true, Some(0.0), Some(cumulativeAvg))) != NoDataLine
  {
  }
}
