/** The export entry points of the annual-deals sheet (google-apps-script.js). Each looks
    its sheet up, refuses a sheet without data rows, maps the rows to records and hands the
    records on; the Drive file, the webhook request, the web reply's serialisation, the
    timestamps and the alerts are outside the model. */
module DealsExport {
  import opened Wrappers
  import opened Values
  import opened Sequences
  import opened Sheets
  import opened RowMapper

  /** The sheet every entry point reads, except `exportToJsonFile`, which asks for `FileSheet`. */
  const MainSheet := "Лист 1"
  const FileSheet := "Лист1"

  const SheetNotFound := "Лист \"Лист 1\" не найден!"
  const NoDataToExport := "Нет данных для экспорта!"
  const ReplySheetMissing := "Лист не найден"
  const ReplyNoData := "Нет данных"

  /** Columns read: A..AZ by `exportToJsonFile`, A..AX by the others. */
  const FileColumns := 52
  const Columns := 50
  const PreviewLimit := 5

  /** The body shared by `exportToJsonFile`, `sendToWebhook` and `exportWithStats`: a missing
      sheet and a sheet with no data row both throw before any record is built. */
  method ExportRecords(wb: Workbook, name: string, width: nat) returns (r: Result<seq<Record>, string>)
    requires width >= 1
    ensures name !in wb ==> r == Failure(SheetNotFound)
    ensures name in wb && LastRow(wb[name]) < 2 ==> r == Failure(NoDataToExport)
    ensures name in wb && LastRow(wb[name]) >= 2 ==>
      r.Success? && |r.value| == LastRow(wb[name]) - 1 && r == SheetRecords(wb[name], LastRow(wb[name]) - 1, width)
  {
    var sheet := Get(wb, name);
    if sheet.None? {
      return Failure(SheetNotFound);
    }
    var lastRow := LastRow(sheet.value);
    if lastRow < 2 {
      return Failure(NoDataToExport);
    }
    r := ReadRecords(sheet.value, lastRow - 1, width);
  }

  /** `exportToJsonFile`: the records written to the JSON file. */
  method ExportToJsonFile(wb: Workbook) returns (r: Result<seq<Record>, string>)
    ensures FileSheet !in wb ==> r == Failure(SheetNotFound)
    ensures FileSheet in wb && LastRow(wb[FileSheet]) < 2 ==> r == Failure(NoDataToExport)
    ensures FileSheet in wb && LastRow(wb[FileSheet]) >= 2 ==>
      r.Success? && |r.value| == LastRow(wb[FileSheet]) - 1
      && r == SheetRecords(wb[FileSheet], LastRow(wb[FileSheet]) - 1, FileColumns)
  {
    r := ExportRecords(wb, FileSheet, FileColumns);
  }

  /** The JSON body `sendToWebhook` posts (its timestamp left out). */
  datatype WebhookPayload = WebhookPayload(dataCount: nat, data: seq<Record>)

  /** `sendToWebhook`: the payload of the POST request. */
  method SendToWebhook(wb: Workbook) returns (r: Result<WebhookPayload, string>)
    ensures MainSheet !in wb ==> r == Failure(SheetNotFound)
    ensures MainSheet in wb && LastRow(wb[MainSheet]) < 2 ==> r == Failure(NoDataToExport)
    ensures MainSheet in wb && LastRow(wb[MainSheet]) >= 2 ==>
      r.Success? && r.value.dataCount == |r.value.data| == LastRow(wb[MainSheet]) - 1
      && Success(r.value.data) == SheetRecords(wb[MainSheet], LastRow(wb[MainSheet]) - 1, Columns)
  {
    var records := ExportRecords(wb, MainSheet, Columns);
    if records.Failure? {
      return Failure(records.error);
    }
    r := Success(WebhookPayload(|records.value|, records.value));
  }

  /** The JSON reply of the web endpoint (timestamps left out). */
  datatype Reply =
    | Missing(error: string)
    | Empty(error: string, data: seq<Record>)
    | Found(count: nat, data: seq<Record>)

  /** `doGet`: errors become an `error` field instead of an exception. */
  method DoGet(wb: Workbook) returns (reply: Reply)
    ensures MainSheet !in wb ==> reply == Missing(ReplySheetMissing)
    ensures MainSheet in wb && LastRow(wb[MainSheet]) < 2 ==> reply == Empty(ReplyNoData, [])
    ensures MainSheet in wb && LastRow(wb[MainSheet]) >= 2 ==>
      reply.Found? && reply.count == |reply.data| == LastRow(wb[MainSheet]) - 1
      && Success(reply.data) == SheetRecords(wb[MainSheet], LastRow(wb[MainSheet]) - 1, Columns)
  {
    var sheet := Get(wb, MainSheet);
    if sheet.None? {
      return Missing(ReplySheetMissing);
    }
    var lastRow := LastRow(sheet.value);
    if lastRow < 2 {
      return Empty(ReplyNoData, []);
    }
    var records := ReadRecords(sheet.value, lastRow - 1, Columns);
    reply := Found(|records.value|, records.value);
  }

  /** The `metadata` object of `exportWithStats` (its export date left out). */
  datatype Metadata = Metadata(totalRecords: nat, columns: nat)
  datatype StatsExport = StatsExport(metadata: Metadata, data: seq<Record>)

  /** `exportWithStats`: the records and their basic statistics. */
  method ExportWithStats(wb: Workbook) returns (r: Result<StatsExport, string>)
    ensures MainSheet !in wb ==> r == Failure(SheetNotFound)
    ensures MainSheet in wb && LastRow(wb[MainSheet]) < 2 ==> r == Failure(NoDataToExport)
    ensures MainSheet in wb && LastRow(wb[MainSheet]) >= 2 ==>
      r.Success?
      && r.value.metadata.totalRecords == |r.value.data| == LastRow(wb[MainSheet]) - 1
      && r.value.metadata.columns == NamedCount(Row(wb[MainSheet], 0, Columns))
      && Success(r.value.data) == SheetRecords(wb[MainSheet], LastRow(wb[MainSheet]) - 1, Columns)
  {
    var records := ExportRecords(wb, MainSheet, Columns);
    if records.Failure? {
      return Failure(records.error);
    }
    var headers := GetValues(wb[MainSheet], 1, 1, Columns);
    var columns := |Filter(headers.value[0], IsNamed)|;
    r := Success(StatsExport(Metadata(|records.value|, columns), records.value));
  }

  /** `getPreview`: `null` without the sheet; otherwise the first `min(5, lastRow - 1)`
      records over 50 columns. The range read throws when that count is below 1, since
      `getPreview` does not guard it. */
  method GetPreview(wb: Workbook) returns (r: Result<Option<seq<Record>>, string>)
    ensures MainSheet !in wb ==> r == Success(None)
    ensures MainSheet in wb && Min(PreviewLimit, LastRow(wb[MainSheet]) - 1) < 1 ==> r == Failure(RowsTooFew)
    ensures MainSheet in wb && Min(PreviewLimit, LastRow(wb[MainSheet]) - 1) >= 1 ==>
      var n := Min(PreviewLimit, LastRow(wb[MainSheet]) - 1);
      r.Success? && r.value.Some? && |r.value.value| == n
      && r.value.value == SheetRecords(wb[MainSheet], LastRow(wb[MainSheet]) - 1, Columns).value[..n]
  {
    var sheet := Get(wb, MainSheet);
    if sheet.None? {
      return Success(None);
    }
    var n := Min(PreviewLimit, LastRow(sheet.value) - 1);
    var preview := ReadRecords(sheet.value, n, Columns);
    if preview.Failure? {
      return Failure(preview.error);
    }
    if n >= 1 {
      ReadPrefix(sheet.value, n, LastRow(sheet.value) - 1, Columns);
    }
    r := Success(Some(preview.value));
  }
}
