/** The part of the spreadsheet service the export scripts use: looking a sheet up by
    name, `getLastRow`, `getLastColumn` and `getRange(row, 1, numRows, numColumns).getValues()`. */
module Sheets {
  import opened Wrappers
  import opened Values

  /** One sheet: `rows[r]` is sheet row `r + 1`. A row may be shorter than the widest
      one; the cells past its end are blank. What the service hands out is its used range,
      which `UsedRange` describes. */
  datatype Sheet = Sheet(rows: seq<seq<Value>>)

  /** An empty cell, as `getValues()` returns it. */
  predicate Blank(v: Value) {
    v == Text("")
  }

  /** The sheet is cut to its used range: every row stops at its last non-blank cell,
      and the last row has one. So the last row and the widest row both end in content. */
  predicate UsedRange(s: Sheet) {
    && (forall r :: 0 <= r < |s.rows| && s.rows[r] != [] ==> !Blank(s.rows[r][|s.rows[r]| - 1]))
    && (|s.rows| > 0 ==> s.rows[|s.rows| - 1] != [])
  }

  /** The spreadsheet: its sheets by name. */
  type Workbook = map<string, Sheet>

  /** `sheet.getLastRow()`: on a sheet cut to its `UsedRange`, the last row that has
      content (0 for an empty sheet). */
  function LastRow(s: Sheet): nat {
    |s.rows|
  }

  function Widest(rows: seq<seq<Value>>): (n: nat)
    ensures forall i :: 0 <= i < |rows| ==> |rows[i]| <= n
    ensures n == 0 || exists i :: 0 <= i < |rows| && |rows[i]| == n
    decreases |rows|
  {
    if rows == [] then 0
    else
      var w := Widest(rows[..|rows| - 1]);
      var last := |rows[|rows| - 1]|;
      if last > w then last else w
  }

  /** `sheet.getLastColumn()`: on a sheet cut to its `UsedRange`, the last column that
      has content. */
  function LastColumn(s: Sheet): nat {
    Widest(s.rows)
  }

  /** On its used range, a sheet with a row has a column, and the last column holds
      content in some row. */
  lemma UsedRangeColumns(s: Sheet)
    requires UsedRange(s) && LastRow(s) >= 1
    ensures LastColumn(s) >= 1
    ensures exists r :: 0 <= r < |s.rows| && |s.rows[r]| == LastColumn(s) && !Blank(s.rows[r][LastColumn(s) - 1])
  {
    assert |s.rows[|s.rows| - 1]| <= LastColumn(s);
  }

  /** The cell at 0-based row `r` and column `c`; blank outside the used range. */
  function CellAt(s: Sheet, r: nat, c: nat): Value {
    if r < |s.rows| && c < |s.rows[r]| then s.rows[r][c] else Text("")
  }

  /** The first `width` cells of 0-based row `r`. */
  function Row(s: Sheet, r: nat, width: nat): (row: seq<Value>)
    ensures |row| == width
    ensures forall c :: 0 <= c < width ==> row[c] == CellAt(s, r, c)
  {
    seq(width, c requires 0 <= c < width => CellAt(s, r, c))
  }

  const RowsTooFew := "The number of rows in the range must be at least 1."
  const ColumnsTooFew := "The number of columns in the range must be at least 1."

  /** `sheet.getRange(row, 1, numRows, numColumns).getValues()`, with `row` 1-based.
      The service throws when the range has no rows or no columns. */
  function GetValues(s: Sheet, row: nat, numRows: int, numColumns: int): (r: Result<seq<seq<Value>>, string>)
    requires row >= 1
    ensures numRows < 1 ==> r == Failure(RowsTooFew)
    ensures numRows >= 1 && numColumns < 1 ==> r == Failure(ColumnsTooFew)
    ensures r.Success? <==> numRows >= 1 && numColumns >= 1
    ensures r.Success? ==> |r.value| == numRows
    ensures r.Success? ==> forall i :: 0 <= i < numRows ==> r.value[i] == Row(s, row - 1 + i, numColumns)
  {
    if numRows < 1 then Failure(RowsTooFew)
    else if numColumns < 1 then Failure(ColumnsTooFew)
    else Success(seq(numRows, i requires 0 <= i < numRows => Row(s, row - 1 + i, numColumns)))
  }
}
