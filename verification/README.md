# Intra-day power position report — a Dafny model

This project models the core of the Neven.Axpo intra-day report. A report request takes a date
and an export folder and runs three stages:

1. **Generate the data.** `IntraDayReportService.GenerateDataAsync` fetches the day's power trades
   from the power service. If the service throws, it fails with "Unable to get trade data".
   Otherwise it sums the volumes of all trade periods that share a period index and stamps the
   result with the requested date.
2. **Prepare it for export.** `IntraDayReportService.PrepareDataForCsvExportAsync` builds the report
   record:
   - the export path and a `PowerPosition_…​.csv` file name;
   - the headers `Local Time` and `Volume`;
   - a rows × 2 grid of strings filled in a loop. Each row holds the period's clock label
     (period 1 → `23:00`, period p > 1 → p − 2 in at least two digits, then `:00`; period 102 gives `100:00`) and the formatted volume.
3. **Export it.** `ExportReportsService.ExportToCsvFileAsync` first validates the record: the name,
   the folder, headers present, and header count equal to column count. It then builds the lines
   of the file: an optional `;`-joined header line, then one `;`-joined line per grid row. It
   appends them to the file and maps the two kinds of write failure to their messages.

`IntraDayReportHandler.GenerateReportAsync` chains the three stages. It stops at the first stage
that fails and hands on that stage's errors unchanged.

The project has four modules, one per file:

- **`Entities`**: the records, the `Result` type and the header constants.
- **`IntraDayReportService`**:
  - the aggregation, written as a flatten / group-by / sum pipeline and proved against a
    per-period total;
  - the period labels, with their decimal rendering and its inverse;
  - the preparation method, which works in place on an `array2`.
- **`ExportReportsService`**:
  - validation;
  - `CreateFileLine` and its inverse;
  - `GetRow`;
  - the lines of a file;
  - a `FileSystem` class whose `files` map (file → lines) the export appends to.
- **`IntraDayReportHandler`**: the short-circuit chain, generic in its three stages. It records
  the stage calls it makes.

Four behaviours of the code that a reader might not expect:

- Preparing a report with no aggregations succeeds with an empty grid.
- A missing export directory is an error. The folder is not created.
- A successful export returns plain success, not a path.
- Period labels do not wrap past `23:00`: period 26 gives `24:00`.

## Model

| member | source | states |
|---|---|---|
| IntraDayReportService.GenerateData | src/Neven.Axpo.Infrastructure/Services/IntraDayReportService.cs:16-54 | The result fails exactly when the power service throws (either exception kind). The failure's only error is "Unable to get trade data". A success is stamped with the requested date. |
| IntraDayReportService.Flatten | src/Neven.Axpo.Infrastructure/Services/IntraDayReportService.cs:35-36 | A trade period is in the flattened sequence exactly when it belongs to some trade. |
| IntraDayReportService.GroupByPeriod | src/Neven.Axpo.Infrastructure/Services/IntraDayReportService.cs:37 | There are no more groups than trade periods, at least one group when there is a period, and no group is empty. The grouping itself is stated by GroupByPeriodCorrect. |
| IntraDayReportService.Aggregate | src/Neven.Axpo.Infrastructure/Services/IntraDayReportService.cs:38-50 | There is at most one aggregation per trade period, and none exactly when there are no periods. The volumes and indices are stated by GenerateDataAggregates. |
| IntraDayReportService.FlattenTotal | src/Neven.Axpo.Infrastructure/Services/IntraDayReportService.cs:35-36 | Summing the flattened periods of index k gives the sum over the trades of each trade's volume for k. |
| IntraDayReportService.FlattenOccurs | src/Neven.Axpo.Infrastructure/Services/IntraDayReportService.cs:35-36 | A period index occurs in the flattened periods exactly when some trade carries it. |
| IntraDayReportService.GroupByPeriodCorrect | src/Neven.Axpo.Infrastructure/Services/IntraDayReportService.cs:37-41 | Each group holds exactly the periods with its key, in input order. Keys are distinct. The keys are exactly the period indices that occur. |
| IntraDayReportService.GenerateDataAggregates | src/Neven.Axpo.Infrastructure/Services/IntraDayReportService.cs:35-53 | With trade data, the result succeeds and is stamped with the date. Each aggregation's volume is the total volume of its period over all trades. Periods are pairwise distinct. A period is aggregated iff some trade has it. |
| IntraDayReportService.GenerateDataEmpty | src/Neven.Axpo.Infrastructure/Services/IntraDayReportService.cs:35-53 | Aggregations are empty iff no trade has a period. This covers an empty trade list, which succeeds with no aggregations. |
| IntraDayReportService.GenerateDataTwoTrades | src/Tests/Neven.Axpo.Infrastructure.UnitTests/IntraDayReportServiceTests.cs:72-107 | Two trades whose periods 1..4 carry volume = period aggregate to periods {1,2,3,4}, each with volume 2 × period. |
| IntraDayReportService.DecimalText | src/Neven.Axpo.Infrastructure/Services/IntraDayReportService.cs:87 | The decimal rendering of a natural number is all digits and non-empty. It has one digit iff n < 10 and at most two when n < 100. From 10 on, it has no leading zero. |
| IntraDayReportService.DecimalTextRoundTrip | src/Neven.Axpo.Infrastructure/Services/IntraDayReportService.cs:87 | Reading the decimal rendering back gives the number. |
| IntraDayReportService.TwoDigitText | src/Neven.Axpo.Infrastructure/Services/IntraDayReportService.cs:87 | The "00" format is all digits and reads back as n. It has at least two digits, exactly two below 100, and starts with '0' iff n < 10. |
| IntraDayReportService.PeriodLabel | src/Neven.Axpo.Infrastructure/Services/IntraDayReportService.cs:79-88 | A label is at least 5 characters and ends with ":00". Period ≤ 1 gives "23:00". PeriodLabelMeaning states the rest. |
| IntraDayReportService.PeriodLabelMeaning | src/Neven.Axpo.Infrastructure/Services/IntraDayReportService.cs:79-88 | A label is digits followed by ":00". Period ≤ 1 gives "23:00". Period p > 1 gives digits that read back as p − 2, zero-padded to two digits below 12, no leading zero from 12 on, and length 5 below period 102. Together these fix the label of every period. |
| IntraDayReportService.PeriodLabelInjective | src/Neven.Axpo.Infrastructure/Services/IntraDayReportService.cs:79-88 | Two periods above 1 with the same label are equal. |
| IntraDayReportService.PeriodLabelExamples | src/Tests/Neven.Axpo.Infrastructure.UnitTests/IntraDayReportServiceTests.cs:126-132 | Periods 1, 2, 5 and 20 give 23:00, 00:00, 03:00 and 18:00. |
| IntraDayReportService.PeriodLabelPast24 | src/Neven.Axpo.Infrastructure/Services/IntraDayReportService.cs:79-88 | Periods 25 and 26 give 23:00 and 24:00: hours past midnight are not wrapped. |
| IntraDayReportService.ReportFileName | src/Neven.Axpo.Infrastructure/Services/IntraDayReportService.cs:64 | The file name starts with "PowerPosition_" and ends with ".csv". |
| IntraDayReportService.PrepareDataForCsvExport | src/Neven.Axpo.Infrastructure/Services/IntraDayReportService.cs:56-77 | Always succeeds. The record keeps the export path and the name derived from the time stamp, with headers [Local Time, Volume]. The grid is a newly allocated array with one row per aggregation and 2 columns. Row i holds aggregation i's period label and formatted volume. |
| ExportReportsService.ExportValidationError | src/Neven.Axpo.Infrastructure/Services/ExportReportsService.cs:16-36 | No error iff the name and folder are not blank and, with headers, 0 < header count = column count. Each message is returned exactly when its check is the first to fail, in the order name, folder, headers missing, count mismatch. |
| ExportReportsService.HeaderChecksNeedHeaders | src/Neven.Axpo.Infrastructure/Services/ExportReportsService.cs:27-33 | Without headers, the header and column counts do not affect validation. |
| ExportReportsService.CreateFileLine | src/Neven.Axpo.Infrastructure/Services/ExportReportsService.cs:72-75 | No items give the empty line. Otherwise the line's length is the items' total length plus one delimiter between each pair. |
| ExportReportsService.SplitCreateFileLine | src/Neven.Axpo.Infrastructure/Services/ExportReportsService.cs:72-75 | Splitting a joined line at the delimiter gives back the items, for items that are non-empty as a list and free of the delimiter. |
| ExportReportsService.GetRow | src/Neven.Axpo.Infrastructure/Services/ExportReportsService.cs:77-82 | The row has one cell per column, and cell j is the grid's cell (row, j). |
| ExportReportsService.CsvLines | src/Neven.Axpo.Infrastructure/Services/ExportReportsService.cs:38-48 | The line count is the row count plus one with headers. With headers, the first line is the joined headers. Each following line is the joined row, in row order. |
| ExportReportsService.CsvLinesRoundTrip | src/Neven.Axpo.Infrastructure/Services/ExportReportsService.cs:38-48 | Reading the written lines back gives the headers (when included) and the grid, for cells free of the delimiter, when every row and the header list (if included) have at least one cell. An empty row is written as an empty line, which reads back as one empty cell. |
| ExportReportsService.CsvLinesSnoc | src/Neven.Axpo.Infrastructure/Services/ExportReportsService.cs:44-48 | Each further grid row adds exactly its joined line at the end of the lines, which is what the export loop does per row. |
| ExportReportsService.CsvLinesExample | src/Tests/Neven.Axpo.Infrastructure.UnitTests/ExportReportsServiceTests.cs:129-133 | Headers header1/header2 and rows 13:00/100.20 and 14:00/80.50 give "header1;header2", "13:00;100.20", "14:00;80.50". |
| ExportReportsService.FileSystem.AppendAllLines | src/Neven.Axpo.Infrastructure/Services/ExportReportsService.cs:50-53 | A write that succeeds appends the lines to the file's previous content (empty if new) and changes no other file. A failed write changes nothing. |
| ExportReportsService.ExportToCsvFile | src/Neven.Axpo.Infrastructure/Services/ExportReportsService.cs:14-70 | A validation failure returns its message and writes nothing. Otherwise the lines of the report are appended to (folder, name). A missing directory yields "Directory for export not found." and any other write failure yields "Exception occured while saving report file.", each leaving files unchanged. A successful write returns Ok. |
| ExportReportsService.ExportTwiceAppends | src/Neven.Axpo.Infrastructure/Services/ExportReportsService.cs:50-53 | Exporting the same report twice succeeds both times, and the file then holds its three lines twice: append, not overwrite. |
| IntraDayReportHandler.GenerateReport | src/Neven.Axpo.Application/UseCases/IntraDayReport/IntraDayReportHandler.cs:13-35 | The stages are called in order: generate with the date, then each later stage with the value the previous one produced, and export with the export path. Every stage called before the last succeeded. The result is the last called stage's outcome. Success requires all three calls. |
| IntraDayReportHandler.GenerateReportIsSequencing | src/Neven.Axpo.Application/UseCases/IntraDayReport/IntraDayReportHandler.cs:16-34 | The handler's result equals the short-circuit sequencing generate ⟫ prepare ⟫ export. |
| IntraDayReportHandler.GenerateReportFailures | src/Neven.Axpo.Application/UseCases/IntraDayReport/IntraDayReportHandler.cs:16-32 | A failing generate, prepare or export returns exactly that stage's errors. After a generate or prepare failure, no later stage is called. |
| IntraDayReportHandler.GenerateFailureIgnoresLaterStages | src/Neven.Axpo.Application/UseCases/IntraDayReport/IntraDayReportHandler.cs:16-20 | When generation fails, the run (result and calls) does not depend on prepare or export. |
| IntraDayReportHandler.GenerateReportOkIff | src/Neven.Axpo.Application/UseCases/IntraDayReport/IntraDayReportHandler.cs:28-34 | The handler succeeds iff generate, prepare and export all succeed. |

## Left out

- I/O is not modelled. The power service call is a `TradeSource` parameter (trades or one of the two exception kinds). The outcome of the file write is a `WriteOutcome` parameter, and the file system is the `FileSystem` class's map from (folder, name) to lines. `Path.Combine` is represented by that pair.
- ExportReportsService.FileSystem.AppendAllLines: two different (folder, name) pairs are two different files here. In the code, `Path.Combine` can send two pairs to the same file, for example when a rooted file name discards the folder. So "no other file changes" holds for pairs, not necessarily for files on disk.
- Logging (Serilog) is left out. It does not affect results.
- Volumes are `real`, so IEEE double rounding in the sums is not modelled. Summation order is fixed, but nothing depends on it.
- IntraDayReportService.PrepareDataForCsvExport: the culture-dependent `ToString("N2")` of a volume is the uninterpreted `volumeN2` function of a `TextFormats` argument. The contract states which volume each cell renders, not the text.
- IntraDayReportService.ReportFileName: the date and time parts of the name come from the uninterpreted `stampDate` and `stampTime` formats. The `YYYYMMDD` and `HHMM` patterns are not interpreted, so only the fixed prefix and suffix are stated.
- GenerateData does not assert any order of the aggregations. The model groups in first-appearance order, as `GroupBy` does, but no lemma relies on it. `ToDictionary` enumeration order is not part of the contract.
- Daylight-saving days (23 or 25 periods) get no special treatment, as in the code. Labels of periods above 25 do not wrap.
- Null references are not modelled. Strings, header arrays and the grid are never null, and `IsNullOrWhiteSpace` is modelled as "empty or all white space". `AggregatedVolume` is nullable in the entity but always assigned, so it is a plain number here.
- A write that fails part-way is modelled as changing nothing. The code cannot tell how much of the file was appended.
- IntraDayReportHandler.GenerateReport: the handler has no try/catch. An exception thrown inside a stage propagates out of it uncaught. The model's stage functions always return a result and cannot throw, so that path is not modelled. The hosting worker, the clock, dependency injection and `IntraDayProcessor` are not part of this model either.
- IntraDayReportHandler.GenerateReport: the stages are parameters. The handler calls `PrepareDataForCsvExportAsync` with one argument while the service takes two, so the model does not tie the handler to the concrete services.
- The several report record types of the code (`ReportFile`, `CsvReportFileData`, `ReportTabularData`) are one `ReportFile` record here.
- The `Result` type can represent a failure with an empty error list. FluentResults has no such value: a result with no errors is a success. Every failure the model builds carries exactly one error, and the handler passes lists on unchanged. A stage given as a parameter that returned `Fail([])` would stop the model's handler, but the code would count it as success.
- `includeHeaders` defaults to true in the code. Here it is always passed explicitly.
