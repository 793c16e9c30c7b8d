/**
 * The row-slicing helper shared by the tabular readers.
 *
 * A parsed table is `Some(rows)`; a reader that produced no table is `None`.
 * The value column of `rows` is taken as already coerced to numbers, with
 * values that fail coercion absent.
 */
module FileProcessor {
  import opened Records

  /**
   * The rows of `df` from index `pos` on, in order, or nothing when there is
   * no table or `pos` is at or past its end.  An empty table is covered by
   * the second case.
   */
  function GetLinesFromDf(df: Option<seq<Record>>, pos: nat): (lines: seq<Record>)
    ensures df.None? ==> lines == []
    ensures df.Some? ==> |lines| == if pos < |df.value| then |df.value| - pos else 0
    ensures df.Some? ==> forall i :: 0 <= i < |lines| ==> lines[i] == df.value[pos + i]
  {
    if df.None? || |df.value| == 0 || pos >= |df.value| then []
    else df.value[pos..]
  }

  /**
   * Reading from the end of what was read before returns exactly the rows
   * appended since, in order.
   */
  lemma ReadAfterAppendIsAppended(rows: seq<Record>, appended: seq<Record>)
    ensures GetLinesFromDf(Some(rows + appended), |rows|) == appended
  {
  }

  /**
   * Reading from `p` is reading the rows from `p` up to `q` and then reading
   * from `q`: reads from a cursor that moves forward lose and repeat nothing.
   */
  lemma ReadSplitsAtCursor(rows: seq<Record>, p: nat, q: nat)
    requires p <= q <= |rows|
    ensures GetLinesFromDf(Some(rows), p) == rows[p..q] + GetLinesFromDf(Some(rows), q)
  {
  }

  /**
   * The stream stores a file size as its cursor and uses it as a row index.
   * When that size is at least the number of rows already seen, the rows
   * appended next are read only from the position the size names: the first
   * `size - |rows|` of them are skipped, and all of them when the size is at
   * or past the new end.
   */
  lemma SizeCursorSkipsAppendedRows(rows: seq<Record>, appended: seq<Record>, size: nat)
    requires |rows| <= size
    ensures size <= |rows + appended| ==>
      GetLinesFromDf(Some(rows + appended), size) == appended[size - |rows|..]
    ensures size >= |rows + appended| ==> GetLinesFromDf(Some(rows + appended), size) == []
  {
  }

  /** One poll: the rows read and the cursor kept for the next poll. */
  datatype Poll = Poll(lines: seq<Record>, cursor: nat)

  /**
   * A poll whose cursor counts rows: it reads from the cursor and moves the
   * cursor to the number of rows read up to.
   */
  function PollByRows(df: Option<seq<Record>>, cursor: nat): (p: Poll)
    ensures p.cursor >= cursor
    ensures df.Some? && cursor <= |df.value| ==> p.cursor == |df.value|
    ensures df.Some? && cursor <= |df.value| ==> df.value[..cursor] + p.lines == df.value
  {
    Poll(GetLinesFromDf(df, cursor), if df.Some? && cursor < |df.value| then |df.value| else cursor)
  }

  /**
   * With a row cursor, a first poll reads every row there is and a second
   * poll after rows are appended reads exactly those: every row is read
   * once, in order, and none is skipped.
   */
  lemma PollByRowsReadsEachRowOnce(rows: seq<Record>, appended: seq<Record>)
    ensures var first := PollByRows(Some(rows), 0);
      var second := PollByRows(Some(rows + appended), first.cursor);
      && first.lines == rows
      && second.lines == appended
      && first.lines + second.lines == rows + appended
      && second.cursor == |rows + appended|
  {
  }
}
