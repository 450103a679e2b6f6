# Year-in-review deals dashboard and spreadsheet exports, modelled in Dafny

The system has three parts:

- A Google Apps Script exports the annual-deals sheet to JSON (`google-apps-script.js`).
- A second script exports the "Получение средств" (funds received) sheet, with payment statistics (`google-apps-script-payments.js`).
- A browser page (`script.js`) loads the exported deals and draws a year-in-review dashboard.

This project models the logic under the spreadsheet, DOM and chart calls:

- the header-to-record mapper that every export repeats;
- the guards, counts and column statistics of each export entry point;
- the payment statistics, with the exact-match partition into "оплачено" (paid) and "не оплачено" (not paid);
- the paid-only and status filters;
- the dashboard's 2025 filter, grand totals, group-by accumulators, top-5 rankings, weighted average prices, record-deal scans, monthly chart, timeline and distinct-buyer count.

Modules:

- `Wrappers`: `Option`, `Result`, and the lookup by key shared by property reads and `getSheetByName`.
- `Values`: cell values and records (`map<string, Value>`), JavaScript truthiness, and `parseFloat(x) || 0` over a decimal subset.
- `Sequences`: `filter`, summing `reduce`, and `slice(0, n)`, each written fold-left like the JavaScript loop.
- `Ranking`: the stable descending sort used with the comparator `b.volume - a.volume`. It is proved sorted, a permutation and stable.
- `Sheets`: a sheet as its rows, the predicate `UsedRange` for a sheet cut to its used range, and `getLastRow`, `getLastColumn` and `getRange(...).getValues()`, including the service's refusal of empty ranges.
- `RowMapper`: the mapper loop (`BuildRecord`, `MapRows`), proved against the fold `RecordUpTo`.
- `DealsExport`, `PaymentsExport`: the entry points of the two scripts. Their results are `Result` values where the script throws or alerts.
- `Deals`: a deal, i.e. its record plus its confirmation month. Also the per-deal measures, the year filter and the group keys.
- `Grouping`: the accumulate-into-an-object loop (`Accumulate`), proved equal to the fold `GroupOf`. Its lemmas prove:
  - every bucket holds exactly its deals' sums;
  - the buckets together conserve deal counts and volumes.
- `YearReport`: the `Dashboard` class, whose field `deals` is the page's `dealsData`. It has one method per display function, plus the ranking, price, record and client lemmas.

Decisions where the model fixes the meaning:

- **Sheet name of `exportToJsonFile`.** It looks up the sheet 'Лист1', but reports a missing sheet as 'Лист "Лист 1"'. Every other entry point looks up 'Лист 1'. The model keeps both names as written (`DealsExport.FileSheet`, `DealsExport.MainSheet`).
- **`getPreview` on a header-only sheet.** It asks `getRange` for `min(5, lastRow - 1) = 0` rows, which the spreadsheet service refuses. `GetPreview` returns that failure. `previewPayments` guards the same bound and reports 'Нет данных для превью'.
- **Timeline order.** `displayTimeline` sorts months by the date of the first deal in each bucket. Distinct buckets are distinct calendar months, so this is the order by (year, month), which the model sorts by. `loadData` never calls `displayTimeline`; it is modelled all the same.
- **Header cells.** Only a non-empty text header becomes a key.
- **Group keys.** A group key is a cell value. JavaScript would turn it into a property-name string.

## Model

| member | source | states |
|---|---|---|
| Values.NumberOrZero | script.js:98 | `parseFloat(x) \|\| 0` on a cell: a missing field, `null`, empty text, a boolean or a date counts as 0; a number counts as itself; otherwise the parsed prefix, or 0 when nothing parses |
| Values.NumberOrZeroOfDecimalText | script.js:98 | a cell holding the decimal text of a whole number, with or without a minus sign, counts as that number |
| Values.ParseFloatOfDecimalText | script.js:98 | the decimal text of any natural number parses back to that number |
| Sheets.Widest | google-apps-script-payments.js:29 | the last used column is at least every row's length, and is some row's length (or 0) |
| Sheets.UsedRangeColumns | google-apps-script-payments.js:234-243 | on a sheet cut to its used range, a sheet with a row has a last column, and that column holds content in some row |
| RowMapper.BuildRecord | google-apps-script.js:40-47 | the loop builds the fold's record, whose keys are exactly the non-empty headers |
| RowMapper.MapRows | google-apps-script-payments.js:47-55 | the loop yields exactly one record per data row, in row order |
| RowMapper.RecordKeys | google-apps-script-payments.js:49-53 | a record's key set is the set of non-empty headers |
| RowMapper.LaterColumnWins | google-apps-script-payments.js:49-53 | a key holds the cell under the last column carrying that header, so a later duplicate overwrites an earlier one |
| RowMapper.ValuesFromRow | google-apps-script.js:41-46 | every value in a record is the row's cell at a column whose header is its key |
| RowMapper.FieldCount | google-apps-script-payments.js:128 | a record has at most as many fields as the `columns` count of non-empty headers, and exactly that many when no header repeats |
| RowMapper.SheetRecords | google-apps-script-payments.js:41-55 | reading headers and `numRows` rows fails on an empty range; otherwise it yields `numRows` records, record `i` mapping sheet row `i + 2` under the header row |
| RowMapper.ReadRecords | google-apps-script.js:33-48 | the imperative read-and-map equals `SheetRecords` |
| RowMapper.ReadPrefix | google-apps-script-payments.js:319 | reading fewer rows yields a prefix of the records of the full read |
| DealsExport.ExportRecords | google-apps-script.js:77-102 | missing sheet and `lastRow < 2` throw before any record is built; otherwise there are `lastRow - 1` records |
| DealsExport.ExportToJsonFile | google-apps-script.js:16-48 | the same guards on sheet 'Лист1'; `lastRow - 1` records over 52 columns |
| DealsExport.SendToWebhook | google-apps-script.js:108-111 | the payload's `dataCount` equals the number of records sent, which is `lastRow - 1` |
| DealsExport.DoGet | google-apps-script.js:148-171 | no sheet gives the 'Лист не найден' error; `lastRow < 2` gives 'Нет данных' with empty data; otherwise `count` equals the number of records |
| DealsExport.ExportWithStats | google-apps-script.js:211-214 | `totalRecords` is the record count and `columns` the number of non-empty headers of the 50-column header row |
| DealsExport.GetPreview | google-apps-script.js:259-282 | `null` without a sheet; otherwise the first `min(5, lastRow - 1)` records over 50 columns, a prefix of the full export; a zero-row request fails |
| PaymentsExport.ExportRecords | google-apps-script-payments.js:81-107 | missing sheet and `lastRow < 2` fail with the caller's messages; otherwise the records over `getLastColumn()` columns |
| PaymentsExport.ExportPaymentsToJson | google-apps-script-payments.js:15-55 | 'не найден!' and 'пустой!' alerts; a sheet with rows but no used column throws at the header read; otherwise `lastRow - 1` records |
| PaymentsExport.Tally | google-apps-script-payments.js:110-123 | `totalAmount` is the sum of amounts with unparsable ones as 0; `paidCount` and `unpaidCount` count the exact 'оплачено' and 'не оплачено' statuses; together they are at most the record count |
| PaymentsExport.PaidAndUnpaidBounded | google-apps-script-payments.js:118-122 | no record is counted both paid and unpaid, so the two counts sum to at most the record count |
| PaymentsExport.StatusPartition | google-apps-script-payments.js:118-122 | no payment is both paid and unpaid, and the paid, the unpaid and the remaining payments together number exactly the payments |
| PaymentsExport.Summarise | google-apps-script-payments.js:125-133 | over a non-empty export: the record count, the columns count, the tallies of `Tally`, and `averageAmount` as `totalAmount / totalRecords` |
| PaymentsExport.ExportPaymentsWithStats | google-apps-script-payments.js:125-133 | the metadata: `totalRecords` ≥ 1 is the record count, `columns` the non-empty headers, the tallies as in `Tally`, and `averageAmount` is `totalAmount / totalRecords`; a sheet with rows but no used column throws at the header read |
| PaymentsExport.ExportPaidPayments | google-apps-script-payments.js:198-200 | the export is the filter of all records by status 'оплачено', and every exported record is paid; a sheet with rows but no used column throws at the header read |
| PaymentsExport.PaidOnlyOrder | google-apps-script-payments.js:198-200 | the paid filter distributes over concatenation (it keeps input order) and keeps every paid record |
| PaymentsExport.DoGet | google-apps-script-payments.js:226-271 | no sheet and `lastRow < 2` give their error replies; a sheet with rows but no column makes the header read throw, which never happens on a used range; without a non-empty status, all records and `count == totalCount`; with one, exactly the records with that status, and `count <= totalCount` |
| PaymentsExport.OrNotAvailable | google-apps-script-payments.js:337-338 | a truthy value is shown as itself, anything else as 'Н/Д', so every preview line shows a truthy buyer and status |
| PaymentsExport.PreviewPayments | google-apps-script-payments.js:310-339 | `min(5, lastRow - 1)` records, a prefix of the full export, with one numbered line per record; 'Нет данных для превью' when that count is below 1 on a sheet with a used column; on a sheet without one the header read throws first |
| Deals.YearFilterKeeps | script.js:51-56 | the filter keeps exactly the deals with a confirmation date in 2025 |
| Deals.YearFilterOrder | script.js:51-56 | the year filter keeps input order (it distributes over concatenation) |
| Deals.YearFilterIdempotent | script.js:51-56 | filtering the loaded deals again changes nothing |
| Deals.OrUnspecified | script.js:241 | the key is the field when it is truthy, and 'Не указан' otherwise, so every deal gets a truthy bucket name |
| Grouping.Sum | script.js:245-250 | a bucket's accumulator after its deals holds their volume, revenue and price-times-volume sums and their count |
| Grouping.Accumulate | script.js:240-251 | the `forEach` over the deals, updating the map in place, builds the fold `GroupOf` |
| Grouping.GroupWellFormed | script.js:245-247 | each bucket key is created once, and the creation order lists exactly the map's keys |
| Grouping.BucketContents | script.js:240-251 | a bucket exists exactly when some deal has its key, and it holds the sum of exactly those deals |
| Grouping.DealInOwnBucket | script.js:240-251 | every deal with a key is in that key's bucket |
| Grouping.EntriesAreBuckets | script.js:253 | every entry is a bucket with its deals' sums and at least one deal, and every bucket is an entry |
| Grouping.Conservation | script.js:240-251 | the buckets' accumulators add up to the sum over all keyed deals: deal counts to their number, volumes to their volume |
| Grouping.ConservationTotal | script.js:240-251 | when every deal has a key, bucket deal counts sum to the number of deals and bucket volumes to the total volume |
| Grouping.TotalOfVolume | script.js:356 | the entries' total volume is the volume component of their summed accumulators |
| Ranking.SortDescending | script.js:254 | the sorted list is a permutation of the input |
| Ranking.SortedDescending | script.js:253-254 | the sorted list is non-increasing in the score |
| Ranking.SortStable | script.js:253-254 | elements of equal score appear in the sorted list in input order |
| Ranking.TiedPrefix | script.js:255 | the equal-score elements of a prefix are a prefix of the equal-score elements |
| Ranking.SumOfSorted | script.js:353-356 | sorting does not change a sum over the elements |
| Ranking.TopOfRanking | script.js:253-255 | the first `n` of the sorted list: `min(n, size)` elements from the input, non-increasing; no element left out scores more than the `n`-th |
| YearReport.TopOfBuckets | script.js:253-255 | the top list has `min(5, distinct keys)` entries, non-increasing in volume, each a bucket with its deals' sums |
| YearReport.TopOfOmitted | script.js:285-287 | a bucket missing from the top list has no more volume than the fifth entry, and there are then five entries |
| YearReport.TopOfStable | script.js:253-255 | top entries of equal volume keep the order their buckets were first created in |
| YearReport.TopFive | script.js:274-287 | the accumulate, sort and slice loop yields `TopOf` |
| YearReport.Shares | script.js:342-356 | the slices are the buckets sorted by volume, and the doughnut's total is the total volume of the keyed deals |
| YearReport.AvgPriceOrder | script.js:325 | the average-price list is in non-increasing volume |
| YearReport.AvgPriceListed | script.js:311-324 | every listed product has positive volume and a positive average equal to Σ(price·volume)/Σ(volume) over its deals |
| YearReport.AvgPriceComplete | script.js:318-324 | every product whose weighted average is positive is listed |
| YearReport.FilterIncreasing | script.js:133 | filtering the calendar months keeps calendar order |
| YearReport.RecordIndex | script.js:510-513 | the reduce stops on a deal whose measure is at least every deal's, and strictly more than every earlier deal's (the earliest maximum wins) |
| YearReport.RecordBy | script.js:510-518 | no record deal for an empty list; otherwise a deal from the list whose measure dominates all others |
| YearReport.Buyers | script.js:634 | the distinct raw buyer values (a missing one included) number at most the deals, and are exactly the deals' buyer values |
| YearReport.SectionsAgree | script.js:240-251 | for the client, product, basis and region sections, bucket deal counts sum to the number of deals and bucket volumes to the grand total volume |
| YearReport.Dashboard.constructor | script.js:4 | the page starts with no deals |
| YearReport.Dashboard.LoadData | script.js:51-56 | the loaded deals are the year filter of the data, all confirmed in 2025 |
| YearReport.Dashboard.HeroStats | script.js:97-99 | the two `reduce` sums are the volume and revenue totals, and the count, volume and revenue equal what the top-clients buckets add up to |
| YearReport.Dashboard.MonthlyChart | script.js:116-135 | labels are exactly the months with at least one deal, strictly in calendar order; each month's count is its number of deals and its volume their total |
| YearReport.Dashboard.TopClients | script.js:240-255 | the top-five buyers by volume (`TopOf` with the buyer or 'Не указан' as key) |
| YearReport.Dashboard.TopProducts | script.js:274-287 | the top-five products by volume |
| YearReport.Dashboard.AvgPrices | script.js:306-325 | the accumulate-map-filter-sort chain yields `AvgPriceRanking` |
| YearReport.Dashboard.BasisChart | script.js:342-356 | basis slices non-increasing in volume, and their total is the total volume of all deals |
| YearReport.Dashboard.GeographyChart | script.js:423-437 | region slices non-increasing in volume, and their total is the total volume of all deals |
| YearReport.Dashboard.RecordDeal | script.js:510-518 | none exactly when there are no deals; otherwise the earliest deal of maximal volume and the earliest of maximal revenue |
| YearReport.TimelineBuckets | script.js:588-606 | every timeline entry is a month bucket holding its own deals' sums |
| YearReport.TimelineComplete | script.js:588-606 | a month has a timeline entry exactly when some deal was confirmed in it |
| YearReport.TimelineChronological | script.js:603-606 | the timeline is in strictly increasing (year, month) order, so each month appears once |
| YearReport.Dashboard.Timeline | script.js:588-606 | exactly the months with deals, each once, strictly in (year, month) order, each holding its deals' sums |
| YearReport.Dashboard.FinalStats | script.js:632-634 | the deal count, the total volume, and the distinct-buyer count, at most the deal count and at least 1 when there are deals |

## Left out

- Rendering is not modelled: the DOM, `innerHTML` templates, Chart.js charts and legends, `animateValue`, `createParticles`, scroll animations and `name.trim()` in the client list.
- I/O is not modelled: `fetch` and `response.json()`, Drive files, the webhook request and its error alert, `ContentService` output, `Logger`, UI alerts, the `onOpen` menus. The sheets are given as a `Workbook` value. Alert and thrown messages become `Failure` values.
- Timestamps and file names (`new Date().toISOString()`) are not modelled; the `timestamp` and `exportDate` fields are dropped.
- Dates are abstract. A deal's confirmation date is an optional (year, month) in local time. Date parsing, time zones and `getFullYear` are taken as given. `toLocaleString` month names are replaced by month numbers, which name the months one to one.
- `Values.ParseFloat` covers a subset: leading space, tab, newline and carriage return, an optional sign, digits, and an optional fraction. Exponents, `Infinity` and the other Unicode white space are not modelled.
- Floating point is not modelled: sums are exact reals, and `NaN` occurs only through the `|| 0` default. `Math.round`, `toFixed` and the legend percentages are display formatting and are left out.
- Only text headers become keys. A truthy non-text header (a number or a date) would become a key through string conversion; that case is not modelled.
- Group keys are cell values. JavaScript converts them to property names, so the number 5 and the text "5" would share a bucket. It also lists integer-like keys first in `Object.entries`. And a key such as 'constructor' would find an inherited property. None of these are modelled; entries follow creation order.
- The spreadsheet service is assumed, not proved. `Get` on the workbook stands for `getSheetByName`: a sheet is found exactly when its name is present. `Sheets.GetValues` stands for `getRange(row, 1, numRows, numColumns).getValues()`: a range with no rows or no columns throws, and any other range returns `numRows` rows of `numColumns` cells, blank past each row's end. The grid's physical limits are not modelled.
- Sheets.GetValues: checks the row count before the column count. The order in which the service reports the two errors is not documented.
- `getLastRow` and `getLastColumn` are the used range's height and width only on a sheet that satisfies `UsedRange`. The entry points do not require it; on another sheet, trailing blank rows become blank records.
- YearReport.Dashboard.Timeline: sorts by (year, month) instead of by the first deal's exact date. The two orders coincide because each bucket is one calendar month.
- YearReport.Dashboard.LoadData: does not model the exception handler around the fetch, or the calls to the display functions in sequence.
