/**
 * The batch average over a data set split into per-day files.
 *
 * Each file is taken as its records, already read and with the value
 * column coerced; reading the files is not modelled.
 */
module AvgDividedData {
  import opened Records

  /** The batch average, or the failed division when no file holds a numeric value. */
  datatype BatchOutcome = BatchMean(avg: real) | ZeroCount

  /**
   * Folds the per-file sums and counts and divides once.  The result is the
   * average of every numeric value of every file, and there is no average
   * exactly when no file holds a numeric value.
   */
  method Average(files: seq<seq<Record>>) returns (r: BatchOutcome)
    ensures r.ZeroCount? <==> AllAbsent(Flatten(files))
    ensures r.BatchMean? ==>
      var all := TotalsOf(Flatten(files));
      r.avg * all.count as real == all.sum
  {
    var totalSum: real := 0.0;
    var totalCount: nat := 0;
    for i := 0 to |files|
      invariant Totals(totalSum, totalCount) == TotalsOf(Flatten(files[..i]))
    {
      var values := NumericValues(files[i]);
      totalSum := totalSum + Sum(values);
      totalCount := totalCount + |values|;
      TotalsOfPrefixStep(files, i);
    }
    assert files[..|files|] == files;
    NoValuesIffAllAbsent(Flatten(files));
    if totalCount == 0 {
      r := ZeroCount;
    } else {
      r := BatchMean(totalSum / totalCount as real);
    }
  }
}
