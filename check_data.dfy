/**
 * The outlier rule of the batch data checks.
 *
 * The mean and the standard deviation of the value column are computed in
 * floating point by the table library and are taken here as parameters.
 * The rows are those of the table with their raw value: `Some(x)` for a
 * number, `None` for anything that is not a number or is NaN.
 */
module CheckData {
  import opened Records

  /** How many standard deviations from the mean a value may lie before it is an outlier. */
  const AllowedStd: real := 3.0

  /** A value is an outlier when it is a number outside the open band around the mean. */
  predicate Flagged(v: Option<real>, avg: real, std: real)
  {
    v.Some? && !(avg - AllowedStd * std < v.value < avg + AllowedStd * std)
  }

  function Abs(x: real): real
  {
    if x < 0.0 then -x else x
  }

  /** The rows whose mask entry is set, in table order, one entry per set position. */
  function Select(rows: seq<Record>, mask: seq<bool>): (selected: seq<Record>)
    requires |mask| == |rows|
    ensures |selected| <= |rows|
    ensures forall r :: r in selected ==> r in rows
  {
    if rows == [] then []
    else
      var n := |rows| - 1;
      Select(rows[..n], mask[..n]) + (if mask[n] then [rows[n]] else [])
  }

  /** The positions whose mask entry is set, in increasing order. */
  function MarkedIndices(mask: seq<bool>): (idx: seq<nat>)
    ensures forall j :: 0 <= j < |idx| ==> idx[j] < |mask| && mask[idx[j]]
    ensures forall j, k :: 0 <= j < k < |idx| ==> idx[j] < idx[k]
  {
    if mask == [] then []
    else
      var n := |mask| - 1;
      MarkedIndices(mask[..n]) + (if mask[n] then [n] else [])
  }

  /** Every position whose mask entry is set is among the marked indices. */
  lemma {:induction false} MarkedIndicesComplete(mask: seq<bool>)
    ensures forall i :: 0 <= i < |mask| && mask[i] ==> i in MarkedIndices(mask)
  {
    if mask != [] {
      var n := |mask| - 1;
      var init := MarkedIndices(mask[..n]);
      MarkedIndicesComplete(mask[..n]);
      assert MarkedIndices(mask) == init + (if mask[n] then [n] else []);
      forall i | 0 <= i < n && mask[i] ensures i in MarkedIndices(mask) {
        assert mask[..n][i];
        assert i in init;
      }
    }
  }

  /**
   * `Select` is the table indexed by the marked positions: entry `j` of the
   * selection is the row at the `j`-th set position.
   */
  lemma {:induction false} SelectIsRowsAtMarkedIndices(rows: seq<Record>, mask: seq<bool>)
    requires |mask| == |rows|
    ensures |Select(rows, mask)| == |MarkedIndices(mask)|
    ensures forall j :: 0 <= j < |Select(rows, mask)| ==>
      MarkedIndices(mask)[j] < |rows| && Select(rows, mask)[j] == rows[MarkedIndices(mask)[j]]
  {
    if rows != [] {
      var n := |rows| - 1;
      var sel, idx := Select(rows, mask), MarkedIndices(mask);
      var initSel, initIdx := Select(rows[..n], mask[..n]), MarkedIndices(mask[..n]);
      SelectIsRowsAtMarkedIndices(rows[..n], mask[..n]);
      assert sel == initSel + (if mask[n] then [rows[n]] else []);
      assert idx == initIdx + (if mask[n] then [n] else []);
      forall j | 0 <= j < |sel| ensures idx[j] < |rows| && sel[j] == rows[idx[j]] {
        if j < |initSel| {
          assert sel[j] == initSel[j] && idx[j] == initIdx[j];
          assert rows[..n][initIdx[j]] == rows[initIdx[j]];
        }
      }
    }
  }

  /**
   * The mask loop: one entry per row, set exactly for the rows whose value
   * is an outlier.
   */
  method OutlierMask(rows: seq<Record>, avg: real, std: real) returns (mask: seq<bool>)
    ensures |mask| == |rows|
    ensures forall i :: 0 <= i < |rows| ==> (mask[i] <==> Flagged(rows[i].value, avg, std))
  {
    mask := [];
    for i := 0 to |rows|
      invariant |mask| == i
      invariant forall k :: 0 <= k < i ==> (mask[k] <==> Flagged(rows[k].value, avg, std))
    {
      var val := rows[i].value;
      if val.None? || (avg - AllowedStd * std < val.value < avg + AllowedStd * std) {
        mask := mask + [false];
      } else {
        mask := mask + [true];
      }
    }
  }

  /**
   * The outlier rows: every row returned is an outlier from the table, every
   * outlier row of the table is returned, and they come in table order,
   * one entry per outlier row, duplicates kept.
   */
  method FindOutliers(rows: seq<Record>, avg: real, std: real) returns (outliers: seq<Record>)
    ensures forall r :: r in outliers ==> r in rows && Flagged(r.value, avg, std)
    ensures forall i :: 0 <= i < |rows| && Flagged(rows[i].value, avg, std) ==> rows[i] in outliers
    ensures exists idx: seq<nat> ::
      && |idx| == |outliers|
      && (forall j, k :: 0 <= j < k < |idx| ==> idx[j] < idx[k])
      && (forall j :: 0 <= j < |idx| ==>
            idx[j] < |rows| && outliers[j] == rows[idx[j]] && Flagged(rows[idx[j]].value, avg, std))
      && (forall i :: 0 <= i < |rows| && Flagged(rows[i].value, avg, std) ==> i in idx)
  {
    var mask := OutlierMask(rows, avg, std);
    outliers := Select(rows, mask);
    SelectKeepsExactlyMarked(rows, mask);
    SelectOfOutlierMaskIsInOrder(rows, mask, avg, std);
  }

  /**
   * Selecting with the outlier mask gives the outlier rows at increasing
   * positions of the table, every outlier position among them.
   */
  lemma SelectOfOutlierMaskIsInOrder(rows: seq<Record>, mask: seq<bool>, avg: real, std: real)
    requires |mask| == |rows|
    requires forall i :: 0 <= i < |rows| ==> (mask[i] <==> Flagged(rows[i].value, avg, std))
    ensures var outliers := Select(rows, mask);
      exists idx: seq<nat> ::
      && |idx| == |outliers|
      && (forall j, k :: 0 <= j < k < |idx| ==> idx[j] < idx[k])
      && (forall j :: 0 <= j < |idx| ==>
            idx[j] < |rows| && outliers[j] == rows[idx[j]] && Flagged(rows[idx[j]].value, avg, std))
      && (forall i :: 0 <= i < |rows| && Flagged(rows[i].value, avg, std) ==> i in idx)
  {
    SelectIsRowsAtMarkedIndices(rows, mask);
    MarkedIndicesComplete(mask);
    var idx := MarkedIndices(mask);
    assert forall j :: 0 <= j < |idx| ==> Flagged(rows[idx[j]].value, avg, std);
  }

  /** `Select` keeps a row exactly when its mask entry is set. */
  lemma SelectKeepsExactlyMarked(rows: seq<Record>, mask: seq<bool>)
    requires |mask| == |rows|
    ensures forall i :: 0 <= i < |rows| && mask[i] ==> rows[i] in Select(rows, mask)
    ensures forall r :: r in Select(rows, mask) ==> exists i :: 0 <= i < |rows| && mask[i] && rows[i] == r
  {
  }

  /**
   * The band test is the usual distance test: a number is an outlier exactly
   * when it lies at least three standard deviations from the mean.
   */
  lemma FlaggedIffFarFromMean(x: real, avg: real, std: real)
    ensures Flagged(Some(x), avg, std) <==> Abs(x - avg) >= AllowedStd * std
  {
  }

  /**
   * With a standard deviation of zero the band is empty, so every number is
   * an outlier, the mean included; a value that is not a number never is.
   */
  lemma ZeroStdFlagsEveryNumber(x: real, avg: real)
    ensures Flagged(Some(x), avg, 0.0)
    ensures !Flagged(None, avg, 0.0)
  {
  }

  /**
   * The band test as the documentation of the outlier check words it: a
   * number is an outlier when it is greater than the upper bound or smaller
   * than the lower bound, so a value on a bound is not one.
   */
  predicate FlaggedBeyond(v: Option<real>, avg: real, std: real)
  {
    v.Some? && (v.value > avg + AllowedStd * std || v.value < avg - AllowedStd * std)
  }

  /**
   * Under the documented test a number is an outlier exactly when it lies
   * strictly more than three standard deviations from the mean, so constant
   * data (standard deviation zero) has no outlier.
   */
  lemma FlaggedBeyondIffStrictlyFar(x: real, avg: real, std: real)
    requires std >= 0.0
    ensures FlaggedBeyond(Some(x), avg, std) <==> Abs(x - avg) > AllowedStd * std
    ensures !FlaggedBeyond(None, avg, std)
    ensures !FlaggedBeyond(Some(avg), avg, 0.0)
  {
  }

  /**
   * The two tests differ exactly on the bounds: a value at three standard
   * deviations above or below the mean is flagged by the coded test and not by the
   * documented one; everywhere else they agree.
   */
  lemma BandTestsDifferOnlyOnBounds(x: real, avg: real, std: real)
    requires std >= 0.0
    ensures Flagged(Some(avg + AllowedStd * std), avg, std)
    ensures !FlaggedBeyond(Some(avg + AllowedStd * std), avg, std)
    ensures Flagged(Some(avg - AllowedStd * std), avg, std)
    ensures !FlaggedBeyond(Some(avg - AllowedStd * std), avg, std)
    ensures Abs(x - avg) != AllowedStd * std ==>
      (Flagged(Some(x), avg, std) <==> FlaggedBeyond(Some(x), avg, std))
  {
  }
}
