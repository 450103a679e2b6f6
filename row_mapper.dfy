/** The header-to-record mapper that every export entry point repeats:
    `data.map(row => { const obj = {}; headers.forEach((header, index) => { if (header) obj[header] = row[index]; }); return obj; })`. */
module RowMapper {
  import opened Wrappers
  import opened Values
  import opened Sequences
  import opened Sheets

  /** The key a header cell contributes: its text, or nothing for an empty header. */
  function HeaderKey(h: Value): Option<string> {
    if h.Text? && h.s != "" then Some(h.s) else None
  }

  predicate IsNamed(h: Value) {
    HeaderKey(h).Some?
  }

  /** The object after the `forEach` has visited the first `n` headers. */
  function RecordUpTo(headers: seq<Value>, row: seq<Value>, n: nat): Record
    requires n <= |headers| <= |row|
  {
    if n == 0 then map[]
    else
      var obj := RecordUpTo(headers, row, n - 1);
      match HeaderKey(headers[n - 1])
      case Some(k) => obj[k := row[n - 1]]
      case None => obj
  }

  /** The record built from one data row. */
  function RecordOf(headers: seq<Value>, row: seq<Value>): Record
    requires |headers| <= |row|
  {
    RecordUpTo(headers, row, |headers|)
  }

  /** The keys the non-empty headers among the first `n` contribute. */
  function NamedKeys(headers: seq<Value>, n: nat): set<string>
    requires n <= |headers|
  {
    set i | 0 <= i < n && IsNamed(headers[i]) :: headers[i].s
  }

  /** `headers.filter(h => h).length`. */
  function NamedCount(headers: seq<Value>): nat {
    |Filter(headers, IsNamed)|
  }

  predicate DistinctNames(headers: seq<Value>) {
    forall i, j :: 0 <= i < j < |headers| && IsNamed(headers[i]) && IsNamed(headers[j]) ==> headers[i] != headers[j]
  }

  predicate Fits(headers: seq<Value>, data: seq<seq<Value>>) {
    forall i :: 0 <= i < |data| ==> |headers| <= |data[i]|
  }

  /** One record per data row, in row order. */
  function Records(headers: seq<Value>, data: seq<seq<Value>>): (rs: seq<Record>)
    requires Fits(headers, data)
    ensures |rs| == |data|
    ensures forall i :: 0 <= i < |data| ==> rs[i] == RecordOf(headers, data[i])
  {
    seq(|data|, i requires 0 <= i < |data| => RecordOf(headers, data[i]))
  }

  // ---------------------------------------------------------------------
  // What a record holds
  // ---------------------------------------------------------------------

  /** A record has exactly one key per non-empty header. */
  lemma {:induction false} RecordKeys(headers: seq<Value>, row: seq<Value>, n: nat)
    requires n <= |headers| <= |row|
    ensures RecordUpTo(headers, row, n).Keys == NamedKeys(headers, n)
  {
    if n > 0 {
      RecordKeys(headers, row, n - 1);
      var prev := NamedKeys(headers, n - 1);
      if IsNamed(headers[n - 1]) {
        assert NamedKeys(headers, n) == prev + {headers[n - 1].s};
      } else {
        assert NamedKeys(headers, n) == prev;
      }
    }
  }

  /** Each key holds the cell under the LAST column carrying that header: a duplicated
      header is overwritten by the later column. */
  lemma {:induction false} LaterColumnWins(headers: seq<Value>, row: seq<Value>, n: nat, i: nat)
    requires n <= |headers| <= |row|
    requires i < n && IsNamed(headers[i])
    requires forall j :: i < j < n ==> headers[j] != headers[i]
    ensures headers[i].s in RecordUpTo(headers, row, n)
    ensures RecordUpTo(headers, row, n)[headers[i].s] == row[i]
  {
    if i < n - 1 {
      LaterColumnWins(headers, row, n - 1, i);
      var h := headers[n - 1];
      assert h != headers[i];
      assert HeaderKey(h) != Some(headers[i].s);
    }
  }

  /** Every value in a record comes from the row, at a column whose header is its key. */
  lemma {:induction false} ValuesFromRow(headers: seq<Value>, row: seq<Value>, n: nat, k: string)
    requires n <= |headers| <= |row|
    requires k in RecordUpTo(headers, row, n)
    ensures exists i :: 0 <= i < n && HeaderKey(headers[i]) == Some(k) && RecordUpTo(headers, row, n)[k] == row[i]
  {
    var h := headers[n - 1];
    if HeaderKey(h) != Some(k) {
      ValuesFromRow(headers, row, n - 1, k);
    }
  }

  lemma NamedCountStep(headers: seq<Value>, n: nat)
    requires 0 < n <= |headers|
    ensures NamedCount(headers[..n]) == NamedCount(headers[..n - 1]) + (if IsNamed(headers[n - 1]) then 1 else 0)
  {
    assert headers[..n][..n - 1] == headers[..n - 1];
  }

  /** A record has at most as many fields as there are non-empty headers, and exactly
      as many when no header name repeats. */
  lemma {:induction false} FieldCount(headers: seq<Value>, row: seq<Value>, n: nat)
    requires n <= |headers| <= |row|
    ensures |RecordUpTo(headers, row, n)| <= NamedCount(headers[..n])
    ensures DistinctNames(headers) ==> |RecordUpTo(headers, row, n)| == NamedCount(headers[..n])
  {
    if n > 0 {
      FieldCount(headers, row, n - 1);
      NamedCountStep(headers, n);
      var prev := RecordUpTo(headers, row, n - 1);
      var h := headers[n - 1];
      if IsNamed(h) {
        assert RecordUpTo(headers, row, n) == prev[h.s := row[n - 1]];
        if DistinctNames(headers) {
          RecordKeys(headers, row, n - 1);
          assert forall i :: 0 <= i < n - 1 && IsNamed(headers[i]) ==> headers[i].s != h.s;
          assert h.s !in prev;
        }
      } else {
        assert RecordUpTo(headers, row, n) == prev;
      }
    }
  }

  // ---------------------------------------------------------------------
  // The loops
  // ---------------------------------------------------------------------

  /** The `headers.forEach` that fills one object. */
  method BuildRecord(headers: seq<Value>, row: seq<Value>) returns (obj: Record)
    requires |headers| <= |row|
    ensures obj == RecordOf(headers, row)
    ensures obj.Keys == NamedKeys(headers, |headers|)
  {
    obj := map[];
    for i := 0 to |headers|
      invariant obj == RecordUpTo(headers, row, i)
    {
      match HeaderKey(headers[i]) {
        case Some(k) =>
          obj := obj[k := row[i]];
        case None =>
      }
    }
    RecordKeys(headers, row, |headers|);
  }

  /** `data.map(...)`: one record per data row. */
  method MapRows(headers: seq<Value>, data: seq<seq<Value>>) returns (records: seq<Record>)
    requires Fits(headers, data)
    ensures records == Records(headers, data)
  {
    records := [];
    for i := 0 to |data|
      invariant records == Records(headers, data[..i])
    {
      var obj := BuildRecord(headers, data[i]);
      records := records + [obj];
    }
    assert data[..|data|] == data;
  }

  // ---------------------------------------------------------------------
  // Reading a sheet
  // ---------------------------------------------------------------------

  /** The prologue every entry point repeats: read the header row and `numRows` data rows
      over `width` columns, then map them. */
  function SheetRecords(s: Sheet, numRows: int, width: int): (r: Result<seq<Record>, string>)
    ensures width < 1 ==> r == Failure(ColumnsTooFew)
    ensures width >= 1 && numRows < 1 ==> r == Failure(RowsTooFew)
    ensures r.Success? <==> numRows >= 1 && width >= 1
    ensures r.Success? ==> |r.value| == numRows
    ensures r.Success? ==> forall i :: 0 <= i < numRows ==> r.value[i] == RecordOf(Row(s, 0, width), Row(s, i + 1, width))
  {
    match GetValues(s, 1, 1, width)
    case Failure(e) => Failure(e)
    case Success(h) =>
      match GetValues(s, 2, numRows, width)
      case Failure(e) => Failure(e)
      case Success(data) => Success(Records(h[0], data))
  }

  method ReadRecords(s: Sheet, numRows: int, width: int) returns (r: Result<seq<Record>, string>)
    ensures r == SheetRecords(s, numRows, width)
  {
    var h := GetValues(s, 1, 1, width);
    if h.Failure? {
      return Failure(h.error);
    }
    var data := GetValues(s, 2, numRows, width);
    if data.Failure? {
      return Failure(data.error);
    }
    var records := MapRows(h.value[0], data.value);
    r := Success(records);
  }

  /** Reading fewer rows yields a prefix of the full read. */
  lemma ReadPrefix(s: Sheet, n: int, m: int, width: int)
    requires 1 <= n <= m && width >= 1
    ensures SheetRecords(s, n, width).value == SheetRecords(s, m, width).value[..n]
  {
  }
}
