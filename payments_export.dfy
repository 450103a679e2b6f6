/** The export entry points of the "Получение средств" (funds received) sheet
    (google-apps-script-payments.js): the plain export, the export with statistics, the
    paid-only export, the web endpoint with its status filter, and the preview. The Drive
    files, alerts, logging and timestamps are outside the model. */
module PaymentsExport {
  import opened Wrappers
  import opened Values
  import opened Sequences
  import opened Sheets
  import opened RowMapper

  const PaymentsSheet := "Получение средств"

  const SheetNotFound := "Лист \"Получение средств\" не найден!"
  const SheetEmpty := "Лист \"Получение средств\" пустой!"
  const NoDataToExport := "Нет данных для экспорта!"
  const ReplySheetMissing := "Лист \"Получение средств\" не найден"
  const ReplyNoData := "Нет данных"
  const NoPreviewData := "Нет данных для превью"

  const AmountField := "Сумма поступления в cny\n(Самойленко)"
  const StatusField := "Статус оплаты"
  const BuyerField := "Покупатель"

  /** The two status values the statistics recognise ("paid", "not paid"). */
  const Paid := "оплачено"
  const Unpaid := "не оплачено"

  const PreviewLimit := 5
  const NotAvailable := "Н/Д"

  /** `payment['Статус оплаты'] === status`: a strict comparison with a string. */
  predicate HasStatus(p: Record, status: string) {
    Get(p, StatusField) == Some(Text(status))
  }

  predicate IsPaid(p: Record) {
    HasStatus(p, Paid)
  }

  predicate IsUnpaid(p: Record) {
    HasStatus(p, Unpaid)
  }

  /** `parseFloat(payment['Сумма поступления в cny\n(Самойленко)']) || 0`. */
  function Amount(p: Record): real {
    NumberOrZero(Get(p, AmountField))
  }

  function TotalAmount(payments: seq<Record>): real {
    SumOf(payments, Amount)
  }

  function WithStatus(payments: seq<Record>, status: string): seq<Record> {
    Filter(payments, p => HasStatus(p, status))
  }

  /** No record is both paid and unpaid, so the two counts never exceed the record count. */
  lemma PaidAndUnpaidBounded(payments: seq<Record>)
    ensures |Filter(payments, IsPaid)| + |Filter(payments, IsUnpaid)| <= |payments|
  {
    FilterDisjoint(payments, IsPaid, IsUnpaid);
  }

  /** A record whose status is neither of the two the statistics recognise. */
  predicate HasOtherStatus(p: Record) {
    !IsPaid(p) && !IsUnpaid(p)
  }

  /** The status partition: no record is both paid and unpaid, and the paid, the unpaid
      and the remaining records together are all the records. */
  lemma {:induction false} StatusPartition(payments: seq<Record>)
    ensures forall i :: 0 <= i < |payments| ==> !(IsPaid(payments[i]) && IsUnpaid(payments[i]))
    ensures |Filter(payments, IsPaid)| + |Filter(payments, IsUnpaid)| + |Filter(payments, HasOtherStatus)| == |payments|
    decreases |payments|
  {
    if payments != [] {
      StatusPartition(payments[..|payments| - 1]);
    }
  }

  /** The body the four exports share; the sheet's last column sets the width, and an
      empty used range makes the header read throw. */
  method ExportRecords(wb: Workbook, notFound: string, empty: string) returns (r: Result<seq<Record>, string>)
    ensures PaymentsSheet !in wb ==> r == Failure(notFound)
    ensures PaymentsSheet in wb && LastRow(wb[PaymentsSheet]) < 2 ==> r == Failure(empty)
    ensures PaymentsSheet in wb && LastRow(wb[PaymentsSheet]) >= 2 ==>
      r == SheetRecords(wb[PaymentsSheet], LastRow(wb[PaymentsSheet]) - 1, LastColumn(wb[PaymentsSheet]))
  {
    var sheet := Get(wb, PaymentsSheet);
    if sheet.None? {
      return Failure(notFound);
    }
    var lastRow := LastRow(sheet.value);
    var lastCol := LastColumn(sheet.value);
    if lastRow < 2 {
      return Failure(empty);
    }
    r := ReadRecords(sheet.value, lastRow - 1, lastCol);
  }

  /** `exportPaymentsToJson`: the records written to the JSON file. */
  method ExportPaymentsToJson(wb: Workbook) returns (r: Result<seq<Record>, string>)
    ensures PaymentsSheet !in wb ==> r == Failure(SheetNotFound)
    ensures PaymentsSheet in wb && LastRow(wb[PaymentsSheet]) < 2 ==> r == Failure(SheetEmpty)
    ensures PaymentsSheet in wb && LastRow(wb[PaymentsSheet]) >= 2 && LastColumn(wb[PaymentsSheet]) < 1 ==>
      r == Failure(ColumnsTooFew)
    ensures PaymentsSheet in wb && LastRow(wb[PaymentsSheet]) >= 2 && LastColumn(wb[PaymentsSheet]) >= 1 ==>
      r.Success? && |r.value| == LastRow(wb[PaymentsSheet]) - 1
      && r == SheetRecords(wb[PaymentsSheet], LastRow(wb[PaymentsSheet]) - 1, LastColumn(wb[PaymentsSheet]))
  {
    r := ExportRecords(wb, SheetNotFound, SheetEmpty);
  }

  /** The statistics loop of `exportPaymentsWithStats`. */
  method Tally(payments: seq<Record>) returns (totalAmount: real, paidCount: nat, unpaidCount: nat)
    ensures totalAmount == TotalAmount(payments)
    ensures paidCount == |Filter(payments, IsPaid)|
    ensures unpaidCount == |Filter(payments, IsUnpaid)|
    ensures paidCount + unpaidCount <= |payments|
  {
    totalAmount, paidCount, unpaidCount := 0.0, 0, 0;
    for i := 0 to |payments|
      invariant totalAmount == SumOf(payments[..i], Amount)
      invariant paidCount == |Filter(payments[..i], IsPaid)|
      invariant unpaidCount == |Filter(payments[..i], IsUnpaid)|
    {
      var payment := payments[i];
      assert payments[..i + 1][..i] == payments[..i];
      totalAmount := totalAmount + NumberOrZero(Get(payment, AmountField));
      if Get(payment, StatusField) == Some(Text(Paid)) {
        paidCount := paidCount + 1;
      } else if Get(payment, StatusField) == Some(Text(Unpaid)) {
        unpaidCount := unpaidCount + 1;
      }
    }
    assert payments[..|payments|] == payments;
    PaidAndUnpaidBounded(payments);
  }

  /** The `metadata` object of `exportPaymentsWithStats` (its export date left out). */
  datatype Stats = Stats(
    totalRecords: nat,
    columns: nat,
    totalAmount: real,
    paidCount: nat,
    unpaidCount: nat,
    averageAmount: real)

  datatype StatsExport = StatsExport(metadata: Stats, payments: seq<Record>)

  /** The statistics of `exportPaymentsWithStats` over a non-empty export. */
  method Summarise(payments: seq<Record>, columns: nat) returns (m: Stats)
    requires |payments| >= 1
    ensures m.totalRecords == |payments| && m.columns == columns
    ensures m.totalAmount == TotalAmount(payments)
    ensures m.paidCount == |Filter(payments, IsPaid)|
    ensures m.unpaidCount == |Filter(payments, IsUnpaid)|
    ensures m.paidCount + m.unpaidCount <= m.totalRecords
    ensures m.averageAmount == m.totalAmount / (m.totalRecords as real)
  {
    var totalAmount, paidCount, unpaidCount := Tally(payments);
    m := Stats(|payments|, columns, totalAmount, paidCount, unpaidCount, totalAmount / |payments| as real);
  }

  /** `exportPaymentsWithStats`. */
  method ExportPaymentsWithStats(wb: Workbook) returns (r: Result<StatsExport, string>)
    ensures PaymentsSheet !in wb ==> r == Failure(SheetNotFound)
    ensures PaymentsSheet in wb && LastRow(wb[PaymentsSheet]) < 2 ==> r == Failure(NoDataToExport)
    ensures PaymentsSheet in wb && LastRow(wb[PaymentsSheet]) >= 2 && LastColumn(wb[PaymentsSheet]) < 1 ==>
      r == Failure(ColumnsTooFew)
    ensures PaymentsSheet in wb && LastRow(wb[PaymentsSheet]) >= 2 && LastColumn(wb[PaymentsSheet]) >= 1 ==>
      r.Success?
      && Success(r.value.payments) == SheetRecords(wb[PaymentsSheet], LastRow(wb[PaymentsSheet]) - 1, LastColumn(wb[PaymentsSheet]))
    ensures r.Success? ==>
      var m := r.value.metadata;
      var ps := r.value.payments;
      && m.totalRecords == |ps| >= 1
      && m.columns == NamedCount(Row(wb[PaymentsSheet], 0, LastColumn(wb[PaymentsSheet])))
      && m.totalAmount == TotalAmount(ps)
      && m.paidCount == |Filter(ps, IsPaid)|
      && m.unpaidCount == |Filter(ps, IsUnpaid)|
      && m.paidCount + m.unpaidCount <= m.totalRecords
      && m.averageAmount == m.totalAmount / (m.totalRecords as real)
  {
    var records := ExportRecords(wb, SheetNotFound, NoDataToExport);
    if records.Failure? {
      return Failure(records.error);
    }
    var payments := records.value;
    var sheet := wb[PaymentsSheet];
    var headers := GetValues(sheet, 1, 1, LastColumn(sheet));
    var columns := |Filter(headers.value[0], IsNamed)|;
    var stats := Summarise(payments, columns);
    r := Success(StatsExport(stats, payments));
  }

  /** `exportPaidPayments`: the records whose status is exactly "оплачено". */
  method ExportPaidPayments(wb: Workbook) returns (r: Result<seq<Record>, string>)
    ensures PaymentsSheet !in wb ==> r == Failure(SheetNotFound)
    ensures PaymentsSheet in wb && LastRow(wb[PaymentsSheet]) < 2 ==> r == Failure(NoDataToExport)
    ensures PaymentsSheet in wb && LastRow(wb[PaymentsSheet]) >= 2 && LastColumn(wb[PaymentsSheet]) < 1 ==>
      r == Failure(ColumnsTooFew)
    ensures PaymentsSheet in wb && LastRow(wb[PaymentsSheet]) >= 2 && LastColumn(wb[PaymentsSheet]) >= 1 ==>
      var all := SheetRecords(wb[PaymentsSheet], LastRow(wb[PaymentsSheet]) - 1, LastColumn(wb[PaymentsSheet])).value;
      r == Success(Filter(all, IsPaid))
    ensures r.Success? ==> forall i :: 0 <= i < |r.value| ==> IsPaid(r.value[i])
  {
    var records := ExportRecords(wb, SheetNotFound, NoDataToExport);
    if records.Failure? {
      return Failure(records.error);
    }
    r := Success(Filter(records.value, IsPaid));
  }

  /** The paid-only export keeps input order and keeps every paid record: it is the
      subsequence of paid records, and it has as many records as the statistics count. */
  lemma PaidOnlyOrder(a: seq<Record>, b: seq<Record>)
    ensures Filter(a + b, IsPaid) == Filter(a, IsPaid) + Filter(b, IsPaid)
    ensures forall i :: 0 <= i < |a| && IsPaid(a[i]) ==> a[i] in Filter(a, IsPaid)
  {
    FilterConcat(a, b, IsPaid);
  }

  /** The reply of the web endpoint (timestamps left out); `Thrown` is the exception the
      header read raises out of `doGet` when the range has no column. */
  datatype Reply =
    | Missing(error: string)
    | Empty(error: string, payments: seq<Record>)
    | Found(count: nat, totalCount: nat, payments: seq<Record>)
    | Thrown(error: string)

  /** `doGet(e)` with `e.parameter.status` as `status` (`None` when the parameter is absent).
      An absent or empty parameter returns every record. */
  method DoGet(wb: Workbook, status: Option<string>) returns (reply: Reply)
    ensures PaymentsSheet !in wb ==> reply == Missing(ReplySheetMissing)
    ensures PaymentsSheet in wb && LastRow(wb[PaymentsSheet]) < 2 ==> reply == Empty(ReplyNoData, [])
    ensures PaymentsSheet in wb && LastRow(wb[PaymentsSheet]) >= 2 && LastColumn(wb[PaymentsSheet]) < 1 ==>
      reply == Thrown(ColumnsTooFew)
    ensures PaymentsSheet in wb && UsedRange(wb[PaymentsSheet]) ==> !reply.Thrown?
    ensures PaymentsSheet in wb && LastRow(wb[PaymentsSheet]) >= 2 && LastColumn(wb[PaymentsSheet]) >= 1 ==>
      var all := SheetRecords(wb[PaymentsSheet], LastRow(wb[PaymentsSheet]) - 1, LastColumn(wb[PaymentsSheet])).value;
      && reply.Found?
      && reply.totalCount == |all|
      && reply.count == |reply.payments| <= reply.totalCount
      && (status.None? || status.value == "" ==> reply.payments == all)
      && (status.Some? && status.value != "" ==> reply.payments == WithStatus(all, status.value))
    ensures reply.Found? && status.Some? && status.value != "" ==>
      forall i :: 0 <= i < |reply.payments| ==> HasStatus(reply.payments[i], status.value)
  {
    var sheet := Get(wb, PaymentsSheet);
    if sheet.None? {
      return Missing(ReplySheetMissing);
    }
    var lastRow := LastRow(sheet.value);
    var lastCol := LastColumn(sheet.value);
    if lastRow < 2 {
      return Empty(ReplyNoData, []);
    }
    if UsedRange(sheet.value) {
      UsedRangeColumns(sheet.value);
    }
    var records := ReadRecords(sheet.value, lastRow - 1, lastCol);
    if records.Failure? {
      return Thrown(records.error);
    }
    var payments := records.value;
    var filtered := payments;
    if status.Some? && status.value != "" {
      filtered := WithStatus(payments, status.value);
    }
    reply := Found(|filtered|, |payments|, filtered);
  }

  /** One line of the preview alert: `${index + 1}. ${buyer || 'Н/Д'} - ${status || 'Н/Д'}`. */
  datatype PreviewLine = PreviewLine(number: nat, buyer: Value, status: Value)

  /** `value || 'Н/Д'`: every preview line shows a truthy buyer and status. */
  function OrNotAvailable(c: Option<Value>): (v: Value)
    ensures Truthy(c) ==> v == c.value
    ensures !Truthy(c) ==> v == Text(NotAvailable)
    ensures Truthy(Some(v))
  {
    if Truthy(c) then c.value else Text(NotAvailable)
  }

  datatype Preview = Preview(rows: nat, payments: seq<Record>, lines: seq<PreviewLine>)

  /** `previewPayments`: at most five records; "no data" when there is no data row. The
      header read comes first, so a sheet with no used column throws instead. */
  method PreviewPayments(wb: Workbook) returns (r: Result<Preview, string>)
    ensures PaymentsSheet !in wb ==> r == Failure(SheetNotFound)
    ensures PaymentsSheet in wb && LastColumn(wb[PaymentsSheet]) < 1 ==> r == Failure(ColumnsTooFew)
    ensures PaymentsSheet in wb && LastColumn(wb[PaymentsSheet]) >= 1 && LastRow(wb[PaymentsSheet]) < 2 ==>
      r == Failure(NoPreviewData)
    ensures PaymentsSheet in wb && LastColumn(wb[PaymentsSheet]) >= 1 && LastRow(wb[PaymentsSheet]) >= 2 ==>
      var s := wb[PaymentsSheet];
      var n := Min(PreviewLimit, LastRow(s) - 1);
      && r.Success? && r.value.rows == n == |r.value.payments| == |r.value.lines|
      && r.value.payments == SheetRecords(s, LastRow(s) - 1, LastColumn(s)).value[..n]
    ensures r.Success? ==> 1 <= r.value.rows <= PreviewLimit
    ensures r.Success? ==> |r.value.lines| == |r.value.payments|
    ensures r.Success? ==>
      forall i :: 0 <= i < |r.value.lines| ==>
        r.value.lines[i] == PreviewLine(i + 1, OrNotAvailable(Get(r.value.payments[i], BuyerField)),
                                         OrNotAvailable(Get(r.value.payments[i], StatusField)))
  {
    var sheet := Get(wb, PaymentsSheet);
    if sheet.None? {
      return Failure(SheetNotFound);
    }
    var s := sheet.value;
    var lastCol := LastColumn(s);
    var headers := GetValues(s, 1, 1, lastCol);
    if headers.Failure? {
      return Failure(headers.error);
    }
    var previewRows := Min(PreviewLimit, LastRow(s) - 1);
    if previewRows < 1 {
      return Failure(NoPreviewData);
    }
    var preview := ReadRecords(s, previewRows, lastCol);
    ReadPrefix(s, previewRows, LastRow(s) - 1, lastCol);
    var lines := [];
    for i := 0 to |preview.value|
      invariant |lines| == i
      invariant forall j :: 0 <= j < i ==>
        lines[j] == PreviewLine(j + 1, OrNotAvailable(Get(preview.value[j], BuyerField)),
                                OrNotAvailable(Get(preview.value[j], StatusField)))
    {
      var payment := preview.value[i];
      lines := lines + [PreviewLine(i + 1, OrNotAvailable(Get(payment, BuyerField)), OrNotAvailable(Get(payment, StatusField)))];
    }
    r := Success(Preview(previewRows, preview.value, lines));
  }
}
