/**
 * The incremental aggregation state of the streaming analyzer.
 *
 * A poller calls `ReadNewData` with the size the data file reports and the
 * table it parses to; new rows go to the buffer.  Every hour a scheduler
 * calls `Average`, which drains the buffer, reports the hour's average and
 * the running average, and advances the cumulative sum and count.  Each
 * method is one atomic step: the lock that guards the buffer in the source
 * becomes method atomicity here.
 */
module Stream {
  import opened Records
  import opened Report
  import opened FileProcessor

  /** What one call of `average` ends in. */
  datatype AverageOutcome =
    | Reported(totalAvg: real, lastHourAvg: real)
    | DivByZero

  /** The running average over a cumulative sum and count, absent while the count is zero. */
  function CumulativeAverage(sum: real, count: nat): (avg: Option<real>)
    ensures avg.None? <==> count == 0
  {
    if count == 0 then None else Some(sum / count as real)
  }

  /**
   * What `average` computes from the buffer it drains and the cumulative
   * sum and count before it: a division by zero exactly when the buffer
   * holds no numeric value.
   */
  function AverageStep(buffer: seq<Record>, lastSum: real, lastCount: nat): (o: AverageOutcome)
    ensures o.DivByZero? <==> AllAbsent(buffer)
  {
    NoValuesIffAllAbsent(buffer);
    var t := TotalsOf(buffer);
    if t.count == 0 then DivByZero
    else Reported((lastSum + t.sum) / (lastCount + t.count) as real, t.sum / t.count as real)
  }

  /**
   * What an aggregation that guards the empty period reports for the buffer
   * it drains and the cumulative sum and count before it: whether the
   * period had numeric data, its average exactly when it had, and the
   * running average after it.
   */
  function GuardedStep(buffer: seq<Record>, lastSum: real, lastCount: nat): (r: PeriodResult)
    ensures r.hadData <==> !AllAbsent(buffer)
    ensures r.periodAvg.Some? <==> r.hadData
    ensures r.cumulativeAvg.None? <==> lastCount == 0 && !r.hadData
  {
    NoValuesIffAllAbsent(buffer);
    var t := TotalsOf(buffer);
    if t.count == 0 then PeriodResult(false, None, CumulativeAverage(lastSum, lastCount))
    else PeriodResult(true, CumulativeAverage(t.sum, t.count), CumulativeAverage(lastSum + t.sum, lastCount + t.count))
  }

  /** A running average times its count gives back the sum it averages. */
  lemma CumulativeAverageMeaning(sum: real, count: nat)
    requires count > 0
    ensures CumulativeAverage(sum, count).value * count as real == sum
  {
  }

  /**
   * When `average` reports, the period average is the period sum over the
   * period count, and the total average is the new cumulative sum over the
   * new cumulative count.
   */
  lemma AverageStepMeaning(buffer: seq<Record>, lastSum: real, lastCount: nat)
    requires AverageStep(buffer, lastSum, lastCount).Reported?
    ensures var o, t := AverageStep(buffer, lastSum, lastCount), TotalsOf(buffer);
      && t.count > 0
      && o.lastHourAvg * t.count as real == t.sum
      && o.totalAvg * (lastCount + t.count) as real == lastSum + t.sum
  {
  }

  /**
   * A guarded period without data carries the running average as it was;
   * one with data carries its own average and the new running average.
   */
  lemma GuardedStepMeaning(buffer: seq<Record>, lastSum: real, lastCount: nat)
    ensures var r, t := GuardedStep(buffer, lastSum, lastCount), TotalsOf(buffer);
      && (!r.hadData ==> r.cumulativeAvg == CumulativeAverage(lastSum, lastCount))
      && (r.hadData ==>
          && r.periodAvg.value * t.count as real == t.sum
          && r.cumulativeAvg.value * (lastCount + t.count) as real == lastSum + t.sum)
  {
  }

  class AvgDataStream {
    /** Records read since the last drain, in arrival order. */
    var buffer: seq<Record>
    /** The size of the data file when it last grew; also used as a row index. */
    var lastPos: nat
    /** Cumulative count and sum of the numeric values of all drained periods. */
    var lastCount: nat
    var lastSum: real
    /** The lines of the hourly report file, oldest first. */
    var output: seq<Line>

    /** Every record ever appended to the buffer, in order. */
    ghost var ingested: seq<Record>
    /** Every record removed from the buffer by an aggregation, in order. */
    ghost var drained: seq<Record>
    /** The buffer contents removed by each aggregation, one entry per period. */
    ghost var periods: seq<seq<Record>>

    /**
     * The buffer holds exactly the records appended and not yet drained, the
     * drained records are the periods one after the other, and the
     * cumulative sum and count are exactly those of every drained value.
     */
    ghost predicate Valid()
      reads this
    {
      && ingested == drained + buffer
      && drained == Flatten(periods)
      && Totals(lastSum, lastCount) == TotalsOf(drained)
    }

    /** A fresh stream; the report file is truncated. */
    constructor ()
      ensures Valid()
      ensures buffer == [] && lastPos == 0 && lastCount == 0 && lastSum == 0.0 && output == []
      ensures ingested == [] && drained == [] && periods == []
    {
      buffer := [];
      lastPos := 0;
      lastCount := 0;
      lastSum := 0.0;
      output := [];
      ingested := [];
      drained := [];
      periods := [];
    }

    /** Appends the given records to the tail of the buffer, in order. */
    method WriteToBuffer(lines: seq<Record>)
      requires Valid()
      modifies this
      ensures Valid()
      ensures buffer == old(buffer) + lines
      ensures ingested == old(ingested) + lines
      ensures drained == old(drained) && periods == old(periods)
      ensures lastPos == old(lastPos) && lastCount == old(lastCount) && lastSum == old(lastSum)
      ensures output == old(output)
    {
      for i := 0 to |lines|
        invariant buffer == old(buffer) + lines[..i]
        invariant ingested == old(ingested) + lines[..i]
        invariant drained == old(drained) && periods == old(periods)
        invariant lastPos == old(lastPos) && lastCount == old(lastCount) && lastSum == old(lastSum)
        invariant output == old(output)
        invariant Valid()
      {
        var line := lines[i];
        buffer := buffer + [Record(line.timestamp, line.value)];
        ingested := ingested + [line];
        assert lines[..i + 1] == lines[..i] + [lines[i]];
      }
      assert lines[..|lines|] == lines;
    }

    /**
     * One poll: `size` is the size the data file reports now and `df` the
     * table it parses to.  Only when the size grew are rows read, from the
     * row index `lastPos`, and `lastPos` set to the size.
     */
    method ReadNewData(size: nat, df: Option<seq<Record>>)
      requires Valid()
      modifies this
      ensures Valid()
      ensures size <= old(lastPos) ==> lastPos == old(lastPos) && buffer == old(buffer) && ingested == old(ingested)
      ensures size > old(lastPos) ==>
        && lastPos == size
        && buffer == old(buffer) + GetLinesFromDf(df, old(lastPos))
        && ingested == old(ingested) + GetLinesFromDf(df, old(lastPos))
      ensures lastPos >= old(lastPos)
      ensures drained == old(drained) && periods == old(periods) && lastCount == old(lastCount) && lastSum == old(lastSum)
      ensures output == old(output)
    {
      var currPos := size;
      if currPos > lastPos {
        var lines := GetLinesFromDf(df, lastPos);
        lastPos := currPos;
        WriteToBuffer(lines);
      }
    }

    /** Appends the line chosen for the two averages to the report. */
    method WriteToFile(lastHourAvg: Option<real>, totalAvg: Option<real>)
      modifies this`output
      ensures output == old(output) + [ReportLine(lastHourAvg, totalAvg)]
    {
      output := output + [ReportLine(lastHourAvg, totalAvg)];
    }

    /**
     * The critical section of `average`: when the buffer holds records, their
     * numeric values are taken and the buffer is cleared; when it is empty,
     * the "no data" line is written and there are no values.  The drained
     * records join the history, whose totals now run ahead of the cumulative
     * counters by exactly the values taken.
     */
    method TakeValues() returns (values: seq<real>)
      requires Valid()
      modifies this`buffer, this`output, this`drained, this`periods
      ensures values == NumericValues(old(buffer))
      ensures buffer == [] && drained == old(drained) + old(buffer) && ingested == drained
      ensures periods == old(periods) + [old(buffer)] && drained == Flatten(periods)
      ensures TotalsOf(drained) == Totals(lastSum + Sum(values), lastCount + |values|)
      ensures output == if old(buffer) == [] then old(output) + [NoDataLine] else old(output)
    {
      TotalsAppend(drained, buffer);
      FlattenSnoc(periods, buffer);
      drained := drained + buffer;
      periods := periods + [buffer];
      values := [];
      if buffer != [] {
        values := NumericValues(buffer);
        buffer := [];
      } else {
        WriteToFile(None, None);
      }
    }

    /**
     * Removes and returns every buffered record, leaving the buffer empty;
     * they join the history as one period.
     */
    method DrainAll() returns (records: seq<Record>)
      requires Valid()
      modifies this`buffer, this`drained, this`periods
      ensures records == old(buffer) && buffer == []
      ensures drained == old(drained) + records && ingested == drained
      ensures periods == old(periods) + [records] && drained == Flatten(periods)
      ensures TotalsOf(drained) == Totals(lastSum, lastCount).Plus(TotalsOf(records))
    {
      records := buffer;
      TotalsAppend(drained, records);
      FlattenSnoc(periods, records);
      drained := drained + records;
      periods := periods + [records];
      buffer := [];
    }

    /**
     * The hourly aggregation as written: the buffer is drained (or, when it is
     * empty, the "no data" line is written), and then the running and the
     * period average are computed by division, even when the period has no
     * numeric value.  In that case a division fails and nothing after it
     * happens: no further line is written and the cumulative state stays.
     */
    method Average() returns (outcome: AverageOutcome)
      requires Valid()
      modifies this
      ensures Valid()
      ensures outcome == AverageStep(old(buffer), old(lastSum), old(lastCount))
      ensures buffer == []
      ensures drained == old(drained) + old(buffer) && ingested == old(ingested)
      ensures periods == old(periods) + [old(buffer)]
      ensures lastPos == old(lastPos)
      ensures var t := TotalsOf(old(buffer));
        lastCount == old(lastCount) + t.count && lastSum == old(lastSum) + t.sum
      ensures outcome.Reported? ==> Some(outcome.totalAvg) == CumulativeAverage(lastSum, lastCount)
      ensures old(buffer) == [] ==> output == old(output) + [NoDataLine]
      ensures old(buffer) != [] && outcome.DivByZero? ==> output == old(output)
      ensures outcome.Reported? ==>
        output == old(output) + [ReportLine(Some(outcome.lastHourAvg), Some(outcome.totalAvg))]
    {
      var values := TakeValues();
      var currCount := |values|;
      var currSum := Sum(values);

      if lastCount + currCount == 0 {
        // the running average divides by zero
        outcome := DivByZero;
      } else {
        var totalAvg := (lastSum + currSum) / (lastCount + currCount) as real;
        if currCount == 0 {
          // the period average divides by zero
          outcome := DivByZero;
        } else {
          var lastHourAvg := currSum / currCount as real;
          WriteToFile(Some(lastHourAvg), Some(totalAvg));
          lastCount := lastCount + currCount;
          lastSum := lastSum + currSum;
          outcome := Reported(totalAvg, lastHourAvg);
        }
      }
    }

    /**
     * The hourly aggregation with the empty period guarded: the buffer is
     * drained, a period without numeric values writes the "no data" line and
     * leaves the cumulative state as it was, and any other period advances
     * it and is reported by whether it had data, not by the truthiness of
     * its average.
     */
    method AverageGuarded() returns (result: PeriodResult)
      requires Valid()
      modifies this
      ensures Valid()
      ensures result == GuardedStep(old(buffer), old(lastSum), old(lastCount))
      ensures buffer == []
      ensures drained == old(drained) + old(buffer) && ingested == old(ingested)
      ensures periods == old(periods) + [old(buffer)]
      ensures lastPos == old(lastPos)
      ensures var t := TotalsOf(old(buffer));
        lastCount == old(lastCount) + t.count && lastSum == old(lastSum) + t.sum
      ensures result.cumulativeAvg == CumulativeAverage(lastSum, lastCount)
      ensures output == old(output) + [PeriodLine(result)]
    {
      var records := DrainAll();

      var values := NumericValues(records);
      var currCount := |values|;
      var currSum := Sum(values);
      assert TotalsOf(records) == Totals(currSum, currCount);

      if currCount == 0 {
        result := PeriodResult(false, None, CumulativeAverage(lastSum, lastCount));
      } else {
        lastCount := lastCount + currCount;
        lastSum := lastSum + currSum;
        result := PeriodResult(true, CumulativeAverage(currSum, currCount), CumulativeAverage(lastSum, lastCount));
      }
      output := output + [PeriodLine(result)];
    }
  }

  /**
   * Over any sequence of aggregations, the cumulative count is the sum of
   * the period counts and the cumulative sum the sum of the period sums.
   */
  lemma CumulativeIsSumOfPeriods(s: AvgDataStream)
    requires s.Valid()
    ensures Totals(s.lastSum, s.lastCount) == AddAll(s.periods)
  {
    AddAllIsTotalsOfFlatten(s.periods);
  }

  /** The first hour of the example runs below: two numbers, junk, a third number. */
  const FirstHour := [Record("t1", Some(10.0)), Record("t2", Some(20.0)), Record("t3", None), Record("t4", Some(30.0))]

  /**
   * As written, ten, twenty, a non-numeric value and thirty give three
   * values summing to sixty and average to twenty; an hour with no data
   * after it divides by zero.
   */
  lemma ExampleAsWritten()
    ensures TotalsOf(FirstHour) == Totals(60.0, 3)
    ensures AverageStep(FirstHour, 0.0, 0) == Reported(20.0, 20.0)
    ensures AverageStep([], 60.0, 3) == DivByZero
  {
  }

  /**
   * Guarded, the same first hour reports twenty; an empty hour after it
   * reports no data and keeps the running average at twenty; and a run of
   * five and five, then fifteen, reports running averages of five and then
   * twenty-five thirds.
   */
  lemma ExampleGuarded()
    ensures GuardedStep(FirstHour, 0.0, 0) == PeriodResult(true, Some(20.0), Some(20.0))
    ensures GuardedStep([], 60.0, 3) == PeriodResult(false, None, Some(20.0))
    ensures GuardedStep([Record("t1", Some(5.0)), Record("t2", Some(5.0))], 0.0, 0) ==
      PeriodResult(true, Some(5.0), Some(5.0))
    ensures GuardedStep([Record("t3", Some(15.0))], 10.0, 2) ==
      PeriodResult(true, Some(15.0), Some(25.0 / 3.0))
  {
  }
}
