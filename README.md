# Real-time series analyzer: the streaming aggregation core

This project models the incremental aggregation engine of the real-time
series analyzer in Dafny and proves properties of the model. The analyzer
works like this:

- A poller watches a tabular data file. Whenever the file's reported size
  grows, it reads the rows from its remembered position onward and appends
  them to a buffer.
- Every hour a scheduler runs `average`. It drains the buffer, keeps only
  the values that are numeric (not NaN), and reports the period average and
  the running average over all periods to an append-only report file. It
  then advances the cumulative sum and count.

The model covers:

- the row slice that the readers share (`get_lines_from_df`);
- the `AvgDataStream` state machine: `read_new_data`, `write_to_buffer`,
  `average`, and the line choice of `write_to_file`;
- the outlier rule of `CheckData.find_outliners`;
- the batch fold of `AvgDividedData.average`.

Modules:

- `Records` (records.dfy): records, which are a timestamp and a value that
  is either a number or absent (`None` stands for NaN or for a value that
  failed numeric coercion). Also the numeric values of a run of records,
  their sum and count (`Totals`), and the facts about how these split over
  concatenation.
- `FileProcessor` (file_processor.dfy): `GetLinesFromDf` and the reading
  laws for a cursor that only moves forward.
- `Report` (report.dfy): the report line. `ReportLine` is the truthiness
  choice as written; `PeriodLine` is the choice by whether the period had
  data.
- `Stream` (stream.dfy): the class `AvgDataStream`.
  - Its fields are the buffer, `lastPos`, `lastCount`, `lastSum` and the
    report file (`output`, a sequence of lines).
  - Ghost fields record every record ingested, every record drained, and
    the drained records grouped by period.
  - The invariant `Valid` says the buffer holds exactly the records
    ingested and not yet drained. It also says the cumulative counters are
    exactly the sum and count of the numeric values of every drained
    record.
  - Each method is one atomic step; the source's lock becomes method
    atomicity.
  - `Average` is the aggregation as written, ending in `DivByZero` when
    the period has no numeric value. `AverageGuarded` is the corrected
    aggregation (see Findings).
- `CheckData` (check_data.dfy): the outlier mask loop and the rows it
  selects. The mean and the standard deviation are parameters.
- `AvgDividedData` (avg_divided_data.dfy): the loop that folds per-file
  sums and counts and then divides once.

Numbers are exact reals. Where the source divides by zero, the model has an
explicit outcome for it, not a floating-point value.

For a period without numeric values the intended behaviour is to report
"no data" and leave the cumulative state as it was. The code instead divides
by zero. The model follows the code in `Stream.AvgDataStream.Average` and
gives the intended behaviour separately, as
`Stream.AvgDataStream.AverageGuarded`.

## Model

| member | source | states |
|---|---|---|
| Records.NumericValues | real_time_analyzer.py:221 | The values kept from a buffer, at most one per record. With `NumericValuesSingleton` and `NumericValuesAppend` (and the two-way membership of `NumericValuesMembers`) this makes it the in-order filter: one value per record whose value is present, in record order, duplicates kept |
| Records.NumericValuesSingleton | real_time_analyzer.py:221 | A single record contributes its value when present and nothing when absent |
| Records.NumericValuesAppend | real_time_analyzer.py:221 | The values of two runs of records one after the other are the values of the first followed by those of the second, so order and multiplicity are kept |
| Records.NumericValuesMembers | real_time_analyzer.py:221 | Every value present in the records is among the kept values. Every kept value is the value of some record |
| Records.NoValuesIffAllAbsent | real_time_analyzer.py:220-226 | No value is kept (period count zero) if and only if every record's value is absent, the empty buffer included |
| Records.TotalsOf | real_time_analyzer.py:226-227 | The period count is at most the number of records; a period with count zero has sum zero |
| Records.TotalsAppend | real_time_analyzer.py:226-227 | The sum and count of two runs of records one after the other are the sums and counts of each run added |
| Records.TotalsOfPrefixStep | real_time_analyzer.py:166-170 | Taking one more file into the fold adds exactly that file's sum and count to the totals of all files so far |
| Records.AddAllIsTotalsOfFlatten | real_time_analyzer.py:166-172 | Adding up per-batch sums and counts gives exactly the sum and count of all values of all batches: nothing lost, nothing counted twice |
| FileProcessor.GetLinesFromDf | real_time_analyzer.py:45-53 | No table gives nothing. Otherwise the result has `len(rows) - pos` entries when `pos` is inside the table and none otherwise, and entry `i` is row `pos + i` |
| FileProcessor.ReadAfterAppendIsAppended | real_time_analyzer.py:46-53 | Reading from the end of the rows read before returns exactly the rows appended since, in order |
| FileProcessor.ReadSplitsAtCursor | real_time_analyzer.py:50-53 | A read from `p` is the rows from `p` to `q` followed by a read from `q`, so a forward-moving cursor loses and repeats nothing |
| FileProcessor.SizeCursorSkipsAppendedRows | real_time_analyzer.py:201-207 | With a file size stored as the row cursor, the first `size - len(rows)` appended rows are never read, and none are when the size is past the new end |
| FileProcessor.PollByRows | real_time_analyzer.py:50-53 | Corrected poll with a row cursor: the cursor never moves back, it lands on the number of rows, and the rows before the cursor followed by those read are the whole table |
| FileProcessor.PollByRowsReadsEachRowOnce | real_time_analyzer.py:50-53 | With a row cursor, a first poll reads every row and a poll after an append reads exactly the appended rows: each row once, in order |
| Report.ReportLine | real_time_analyzer.py:240-244 | The "no data" line is chosen if and only if the period average is falsy (absent or zero); otherwise the analysis line carries both averages |
| Report.PeriodLine | real_time_analyzer.py:240-244 | Corrected choice: "no data" if and only if the period had no numeric value; otherwise the analysis line with the period average and the running average |
| Report.ReportLineAgreesWithPeriodLineExceptAtZero | real_time_analyzer.py:240-244 | Both choices agree on a period without data and on any non-zero average. For an average of exactly zero the written choice reports "no data" and the corrected one does not |
| Stream.CumulativeAverage | real_time_analyzer.py:229 | The running average, absent exactly when the cumulative count is zero. The absent case belongs to the corrected aggregation (`GuardedStep`); as written, a zero count at line 229 raises, which is `AverageStep`'s `DivByZero` |
| Stream.CumulativeAverageMeaning | real_time_analyzer.py:229 | A running average times its count is the cumulative sum |
| Stream.AverageStep | real_time_analyzer.py:217-235 | One aggregation as written divides by zero if and only if the drained buffer holds no numeric value |
| Stream.AverageStepMeaning | real_time_analyzer.py:226-230 | When it reports, the period average times the period count is the period sum, and the total average times the new cumulative count is the new cumulative sum |
| Stream.GuardedStep | real_time_analyzer.py:217-235 | Corrected aggregation: had data if and only if some value is numeric; a period average exactly when it had data; a running average absent exactly when no value was ever aggregated |
| Stream.GuardedStepMeaning | real_time_analyzer.py:226-235 | A period without data keeps the previous running average. A period with data reports its own average and the new cumulative average, each as sum over count |
| Stream.AvgDataStream.constructor | real_time_analyzer.py:179-188 | A fresh stream has an empty buffer, position and counters at zero, and an empty (truncated) report; the invariant holds |
| Stream.AvgDataStream.WriteToBuffer | real_time_analyzer.py:210-215 | The old buffer stays as a prefix and the given records are appended at the tail in order; the invariant holds and nothing else changes |
| Stream.AvgDataStream.ReadNewData | real_time_analyzer.py:199-208 | If the size did not grow, nothing changes. Otherwise `lastPos` becomes the size and the rows read from the old `lastPos` are appended to the buffer. `lastPos` never decreases |
| Stream.AvgDataStream.WriteToFile | real_time_analyzer.py:237-244 | Exactly one line is appended to the report: the one `ReportLine` chooses |
| Stream.AvgDataStream.TakeValues | real_time_analyzer.py:218-224 | The values taken are exactly the numeric values of the old buffer, in order. The buffer is left empty. The "no data" line is written exactly when the buffer was empty. The drained records join the history |
| Stream.AvgDataStream.DrainAll | real_time_analyzer.py:219-222 | Returns the whole buffer and leaves it empty; the history's totals are the cumulative totals plus those of the drained records |
| Stream.AvgDataStream.Average | real_time_analyzer.py:217-235 | The outcome is `AverageStep` of the old state and the invariant is kept. Each drained record is moved to the history exactly once. When it reports, the counters advance by the period's count and sum, the total average is the new running average, and one analysis line is written. When it divides by zero the counters stay and only the empty-buffer "no data" line has been written |
| Stream.AvgDataStream.AverageGuarded | real_time_analyzer.py:217-235 | Corrected aggregation: the result is `GuardedStep` of the old state and the invariant is kept. The counters advance by the period's count and sum, which are zero for a period without data. The reported running average is that of the new counters, and exactly one `PeriodLine` is written |
| Stream.CumulativeIsSumOfPeriods | real_time_analyzer.py:226-235 | Over any sequence of aggregations, the cumulative count is the sum of the period counts and the cumulative sum the sum of the period sums |
| Stream.ExampleAsWritten | real_time_analyzer.py:217-235 | Ten, twenty, a non-numeric value and thirty give three values summing to sixty and both averages twenty; an empty hour after them divides by zero |
| Stream.ExampleGuarded | real_time_analyzer.py:217-235 | Corrected: the same hour reports twenty; an empty hour after it reports no data with the running average still twenty; five and five, then fifteen, give running averages five and twenty-five thirds |
| CheckData.OutlierMask | real_time_analyzer.py:118-127 | One mask entry per row, set if and only if the row's value is a number outside the open band `(avg - 3 std, avg + 3 std)` |
| CheckData.Select | real_time_analyzer.py:129 | The selected rows are no more than the table's rows and are all among them; order and multiplicity are stated by `SelectIsRowsAtMarkedIndices` |
| CheckData.MarkedIndices | real_time_analyzer.py:129 | The set positions of a mask, strictly increasing, each within the mask and set |
| CheckData.MarkedIndicesComplete | real_time_analyzer.py:129 | Every set position of the mask is among the marked indices |
| CheckData.SelectIsRowsAtMarkedIndices | real_time_analyzer.py:129 | The selection has one entry per set position, and entry `j` is the row at the `j`-th set position: table order, duplicates kept |
| CheckData.SelectKeepsExactlyMarked | real_time_analyzer.py:129 | Every row whose mask entry is set is selected, and every selected row is a row whose mask entry is set |
| CheckData.SelectOfOutlierMaskIsInOrder | real_time_analyzer.py:118-129 | With the outlier mask, the selection is the rows at strictly increasing outlier positions, covering every outlier position |
| CheckData.FindOutliers | real_time_analyzer.py:108-129 | Every row returned is a row of the table with an outlying numeric value, and every such row is returned. They come at strictly increasing table positions, one entry per outlier row, duplicates kept |
| CheckData.FlaggedIffFarFromMean | real_time_analyzer.py:122 | A number is flagged if and only if its distance from the mean is at least three standard deviations |
| CheckData.ZeroStdFlagsEveryNumber | real_time_analyzer.py:115-122 | With a standard deviation of zero every number is flagged, the mean included, and an absent value never is |
| CheckData.FlaggedBeyondIffStrictlyFar | real_time_analyzer.py:109 | Corrected band test: a number is an outlier exactly when it is strictly more than three standard deviations from the mean; constant data has no outlier |
| CheckData.BandTestsDifferOnlyOnBounds | real_time_analyzer.py:109-122 | A value exactly three standard deviations above or below the mean is flagged by the coded test and not by the documented one; off the bounds the two agree |
| AvgDividedData.Average | real_time_analyzer.py:162-172 | No average if and only if no file holds a numeric value; otherwise the average times the total count of numeric values of all files is their total sum |

## Left out

- The poller and scheduler threads, the lock, the stop event, the `schedule` library and the sleeps (real_time_analyzer.py:190-197, 246-258). Each locked block is one atomic method, and an aggregation is a call of `Average`.
- After `average` raises, the scheduler thread in the source stops and no later hour is aggregated. The model only returns `DivByZero` and does not model the thread ending.
- File I/O. Examples: truncating and appending to the report file (the report is the `output` sequence), `os.path.getsize` (the size is the `size` parameter of `ReadNewData`), and the Excel, Parquet and CSV readers (the parsed table is the `df` parameter). The timestamp each report line starts with (`datetime.now()`) is left out too.
- Numeric coercion (`pd.to_numeric(..., errors='coerce')`) and `pd.notna`: records arrive with an already coerced value, `None` for NaN or for a value that failed coercion.
- Floating point: sums and divisions are exact reals. No rounding, infinity or NaN result is modelled.
- Stream.AvgDataStream.ReadNewData: keeps the source's use of a file size as a row index, and does not reconcile the two.
- CheckData.FindOutliers: follows the coded band test (`Flagged`), not the documented one (`FlaggedBeyond`); see Findings. The mean and the standard deviation that pandas computes are parameters, and a NaN standard deviation (fewer than two numbers) is not modelled. A value that is not a Python int or float (for instance a numeric string) is modelled as absent, so it is never flagged.
- AvgDividedData.Average: `ZeroCount` stands both for the `ZeroDivisionError` of an empty list of files and for the NaN that numpy returns for files with no numeric value.
- `divide_data`, which groups by date and writes CSV files, is left out because it is file I/O. `divide_and_calc_avg` is left out for the same reason.
- `is_valid_date` (`get_invalid_dates`) is left out because its behaviour is that of `datetime.strptime`, which is not part of this model.
- `get_duplicated_records` is left out because it computes nothing and returns nothing.
- The abstract `read` and `write` methods of the readers are left out; the `write` methods are broken.

## Findings

| source | as written | input that shows it | evidently intended | confidence | as-written member | corrected member |
|---|---|---|---|---|---|---|
| real_time_analyzer.py:220-230 | `average` divides by the period count even when the period has no numeric value. The empty-buffer branch writes "no data" and then still reaches the divisions | An empty buffer after three values summing to sixty: `AverageStep([], 60.0, 3) == DivByZero`. Any buffer whose values are all NaN behaves the same | A period without data reports "no data" and leaves the cumulative state as it was | not executed | Stream.AvgDataStream.Average, Stream.ExampleAsWritten | Stream.AvgDataStream.AverageGuarded, Stream.GuardedStep, Stream.ExampleGuarded |
| real_time_analyzer.py:240-244 | `if last_hour_avg:` treats a period average of exactly zero as "no data" | A period with values 1.0 and -1.0 has average 0.0, and `ReportLine(Some(0.0), Some(c)) == NoDataLine` | The "no data" line only for a period without numeric values | not executed | Report.ReportLine, Report.ReportLineAgreesWithPeriodLineExceptAtZero | Report.PeriodLine |
| real_time_analyzer.py:109-122 | The documentation says an outlier is greater or smaller than the three-standard-deviation bounds, but line 122 also flags a value exactly on a bound. With constant data the standard deviation is zero, so every numeric row is flagged | Rows 5.0, 5.0, 5.0: mean 5.0, standard deviation 0.0, and `Flagged(Some(5.0), 5.0, 0.0)` holds for each | A number is an outlier only when strictly beyond a bound, so constant data has none | not executed; the documentation is the only evidence of intent | CheckData.ZeroStdFlagsEveryNumber, CheckData.BandTestsDifferOnlyOnBounds | CheckData.FlaggedBeyondIffStrictlyFar |
| real_time_analyzer.py:201-207, 50 | `last_pos` stores the file size in bytes and is then used as a row index, so rows appended after the first poll are skipped until the row count passes the byte size | A table of 2 rows in a 60-byte file: the next poll reads from row 60, and `GetLinesFromDf(Some(rows + appended), 60) == []` for any fewer than 58 appended rows | A cursor counted in rows, so each appended row is read exactly once | not executed | FileProcessor.SizeCursorSkipsAppendedRows | FileProcessor.PollByRows, FileProcessor.PollByRowsReadsEachRowOnce |
