/**
 The CSV export service: it checks a report record, turns its headers and grid
 rows into ';'-separated lines, and appends those lines to the report file in
 the export folder. The file system is a map from file paths to the lines each
 file holds; the way a write ends (written, missing directory, other I/O fault)
 is supplied by the caller.
 */
module ExportReportsService {
  import opened Entities

  const FileNameMissing: string := "Report file name must be defined."
  const FilePathMissing: string := "Report file path must be defined."
  const HeadersMissing: string := "Data headers are missing."
  const HeaderCountMismatch: string := "Number of header columns does not match number of columns in tabular data."
  const DirectoryNotFoundMessage: string := "Directory for export not found."
  const SaveFailedMessage: string := "Exception occured while saving report file."

  /** The cell separator of a CSV line. */
  const Delimiter: char := ';'

  // ---------------------------------------------------------------------------
  // Validation
  // ---------------------------------------------------------------------------

  /** The characters .NET classifies as white space (char.IsWhiteSpace). */
  predicate IsWhiteSpace(c: char)
  {
    || '\U{0009}' <= c <= '\U{000D}'
    || c == '\U{0020}' || c == '\U{0085}' || c == '\U{00A0}' || c == '\U{1680}'
    || '\U{2000}' <= c <= '\U{200A}'
    || c == '\U{2028}' || c == '\U{2029}' || c == '\U{202F}' || c == '\U{205F}' || c == '\U{3000}'
  }

  /** string.IsNullOrWhiteSpace for a string that is not null: empty or only white space. */
  predicate IsNullOrWhiteSpace(s: string)
  {
    forall i :: 0 <= i < |s| ==> IsWhiteSpace(s[i])
  }

  /** What an export needs: a file name, an export folder and, with headers, as many headers as columns. */
  predicate ExportValid(fileName: string, exportFolder: string, includeHeaders: bool, headerCount: nat, columnCount: nat)
  {
    && !IsNullOrWhiteSpace(fileName)
    && !IsNullOrWhiteSpace(exportFolder)
    && (includeHeaders ==> 0 < headerCount == columnCount)
  }

  /**
   The checks of ExportToCsvFileAsync, in their order: the first that fails
   decides the one error; when all pass there is none.
   */
  function ExportValidationError(fileName: string, exportFolder: string, includeHeaders: bool, headerCount: nat, columnCount: nat)
    : (error: Option<string>)
    ensures error.None? <==> ExportValid(fileName, exportFolder, includeHeaders, headerCount, columnCount)
    ensures error == Some(FileNameMissing) <==> IsNullOrWhiteSpace(fileName)
    ensures error == Some(FilePathMissing) <==> !IsNullOrWhiteSpace(fileName) && IsNullOrWhiteSpace(exportFolder)
    ensures error == Some(HeadersMissing) <==>
      !IsNullOrWhiteSpace(fileName) && !IsNullOrWhiteSpace(exportFolder) && includeHeaders && headerCount == 0
    ensures error == Some(HeaderCountMismatch) <==>
      && !IsNullOrWhiteSpace(fileName) && !IsNullOrWhiteSpace(exportFolder)
      && includeHeaders && headerCount != 0 && headerCount != columnCount
  {
    if IsNullOrWhiteSpace(fileName) then Some(FileNameMissing)
    else if IsNullOrWhiteSpace(exportFolder) then Some(FilePathMissing)
    else if includeHeaders && headerCount == 0 then Some(HeadersMissing)
    else if includeHeaders && headerCount != columnCount then Some(HeaderCountMismatch)
    else None
  }

  /** Without headers, neither header check applies: the header and column counts do not matter. */
  lemma HeaderChecksNeedHeaders(fileName: string, exportFolder: string, h1: nat, c1: nat, h2: nat, c2: nat)
    ensures ExportValidationError(fileName, exportFolder, false, h1, c1) == ExportValidationError(fileName, exportFolder, false, h2, c2)
  {
  }

  // ---------------------------------------------------------------------------
  // Lines of the file: CreateFileLine (string.Join) and its inverse
  // ---------------------------------------------------------------------------

  /** The total number of characters of some strings. */
  function TotalLength(items: seq<string>): (total: nat)
  {
    if |items| == 0 then 0 else |items[0]| + TotalLength(items[1..])
  }

  /** CreateFileLine: the items joined by the delimiter (string.Join(";", items)). */
  function CreateFileLine(lineItems: seq<string>): (line: string)
    ensures |lineItems| == 0 ==> line == ""
    ensures 0 < |lineItems| ==> |line| == TotalLength(lineItems) + |lineItems| - 1
  {
    if |lineItems| == 0 then ""
    else if |lineItems| == 1 then lineItems[0]
    else lineItems[0] + [Delimiter] + CreateFileLine(lineItems[1..])
  }

  /** The position of the first delimiter of s. */
  function IndexOfDelimiter(s: string): (i: nat)
    requires Delimiter in s
    ensures i < |s| && s[i] == Delimiter && Delimiter !in s[..i]
  {
    if s[0] == Delimiter then 0
    else
      var j := IndexOfDelimiter(s[1..]);
      assert s[..j + 1] == [s[0]] + s[1..][..j];
      j + 1
  }

  /** The cells of a line: the pieces between delimiters (the reading of a CSV line). */
  function SplitLine(line: string): (cells: seq<string>)
    ensures 1 <= |cells|
    decreases |line|
  {
    if Delimiter !in line then [line]
    else
      var i := IndexOfDelimiter(line);
      [line[..i]] + SplitLine(line[i + 1..])
  }

  /** No item contains the delimiter. */
  predicate NoDelimiter(items: seq<string>)
  {
    forall i :: 0 <= i < |items| ==> Delimiter !in items[i]
  }

  /** A delimiter with no delimiter before it is the one IndexOfDelimiter finds. */
  lemma {:induction false} IndexOfFirstDelimiter(s: string, k: nat)
    requires k < |s| && s[k] == Delimiter && Delimiter !in s[..k]
    ensures IndexOfDelimiter(s) == k
  {
    if k != 0 {
      assert s[0] == s[..k][0];
      assert s[1..][..k - 1] == s[1..k];
      assert forall c :: c in s[1..k] ==> c in s[..k];
      IndexOfFirstDelimiter(s[1..], k - 1);
    }
  }

  /** A delimiter-free first cell, a delimiter, then the rest: the split yields that cell, then the rest's cells. */
  lemma SplitAfterCell(first: string, rest: string)
    requires Delimiter !in first
    ensures SplitLine(first + [Delimiter] + rest) == [first] + SplitLine(rest)
  {
    var line := first + [Delimiter] + rest;
    assert line[..|first|] == first;
    assert line[|first|] == Delimiter;
    IndexOfFirstDelimiter(line, |first|);
    assert line[|first| + 1..] == rest;
  }

  /** A line made of delimiter-free cells reads back as exactly those cells. */
  lemma {:induction false} SplitCreateFileLine(items: seq<string>)
    requires 1 <= |items| && NoDelimiter(items)
    ensures SplitLine(CreateFileLine(items)) == items
  {
    if |items| == 1 {
      assert CreateFileLine(items) == items[0];
    } else {
      assert CreateFileLine(items) == items[0] + [Delimiter] + CreateFileLine(items[1..]);
      assert Delimiter !in items[0];
      SplitAfterCell(items[0], CreateFileLine(items[1..]));
      assert NoDelimiter(items[1..]) by {
        forall k | 0 <= k < |items[1..]| ensures Delimiter !in items[1..][k] {
          assert items[1..][k] == items[k + 1];
        }
      }
      SplitCreateFileLine(items[1..]);
      assert items == [items[0]] + items[1..];
    }
  }

  // ---------------------------------------------------------------------------
  // Rows of the grid and the lines of the file
  // ---------------------------------------------------------------------------

  /** GetRow: the cells of one grid row, in column order. */
  function GetRow(rows: array2<string>, rowNumber: nat): (row: seq<string>)
    requires rowNumber < rows.Length0
    reads rows
    ensures |row| == rows.Length1
    ensures forall j :: 0 <= j < |row| ==> row[j] == rows[rowNumber, j]
  {
    seq(rows.Length1, j requires 0 <= j < rows.Length1 reads rows => rows[rowNumber, j])
  }

  /** The grid as a sequence of rows. */
  function Grid(rows: array2<string>): (grid: seq<seq<string>>)
    reads rows
    ensures |grid| == rows.Length0
    ensures forall i :: 0 <= i < |grid| ==> grid[i] == GetRow(rows, i)
  {
    seq(rows.Length0, i requires 0 <= i < rows.Length0 reads rows => GetRow(rows, i))
  }

  /**
   The lines an export writes: with headers, first the header line; then one
   line per grid row, in row order, each the row's cells joined by the delimiter.
   */
  function CsvLines(headers: seq<string>, grid: seq<seq<string>>, includeHeaders: bool): (lines: seq<string>)
    ensures |lines| == |grid| + (if includeHeaders then 1 else 0)
    ensures includeHeaders ==> lines[0] == CreateFileLine(headers)
    ensures forall i :: 0 <= i < |grid| ==> lines[i + (if includeHeaders then 1 else 0)] == CreateFileLine(grid[i])
  {
    (if includeHeaders then [CreateFileLine(headers)] else [])
      + seq(|grid|, i requires 0 <= i < |grid| => CreateFileLine(grid[i]))
  }

  /** Reading the lines of a report back: the header cells (when there is a header line) and the rows. */
  function ParseCsv(lines: seq<string>, includeHeaders: bool): (parsed: (seq<string>, seq<seq<string>>))
  {
    if includeHeaders && |lines| != 0 then
      (SplitLine(lines[0]), seq(|lines| - 1, i requires 0 <= i < |lines| - 1 => SplitLine(lines[i + 1])))
    else
      ([], seq(|lines|, i requires 0 <= i < |lines| => SplitLine(lines[i])))
  }

  /**
   The written lines read back as the headers and the grid, provided no cell
   contains the delimiter, every row has a cell, and there is a header when
   headers are included.
   */
  lemma CsvLinesRoundTrip(headers: seq<string>, grid: seq<seq<string>>, includeHeaders: bool)
    requires includeHeaders ==> 1 <= |headers| && NoDelimiter(headers)
    requires forall i :: 0 <= i < |grid| ==> 1 <= |grid[i]| && NoDelimiter(grid[i])
    ensures ParseCsv(CsvLines(headers, grid, includeHeaders), includeHeaders)
      == (if includeHeaders then headers else [], grid)
  {
    var lines := CsvLines(headers, grid, includeHeaders);
    var offset := if includeHeaders then 1 else 0;
    var parsed := ParseCsv(lines, includeHeaders);
    if includeHeaders {
      SplitCreateFileLine(headers);
      assert parsed.0 == headers;
    }
    assert |parsed.1| == |grid|;
    forall i | 0 <= i < |grid| ensures parsed.1[i] == grid[i] {
      assert parsed.1[i] == SplitLine(lines[i + offset]);
      SplitCreateFileLine(grid[i]);
    }
    assert parsed.1 == grid;
  }

  /** The lines of the export test: a header line and two rows. */
  lemma CsvLinesExample()
    ensures CsvLines(["header1", "header2"], [["13:00", "100.20"], ["14:00", "80.50"]], true)
      == ["header1;header2", "13:00;100.20", "14:00;80.50"]
  {
    var lines := CsvLines(["header1", "header2"], [["13:00", "100.20"], ["14:00", "80.50"]], true);
    assert CreateFileLine(["header1", "header2"]) == "header1;header2" by {
      assert ["header1", "header2"][1..] == ["header2"];
    }
    assert CreateFileLine(["13:00", "100.20"]) == "13:00;100.20" by {
      assert ["13:00", "100.20"][1..] == ["100.20"];
    }
    assert CreateFileLine(["14:00", "80.50"]) == "14:00;80.50" by {
      assert ["14:00", "80.50"][1..] == ["80.50"];
    }
  }

  // ---------------------------------------------------------------------------
  // The file system and ExportToCsvFileAsync
  // ---------------------------------------------------------------------------

  /** A file: the export folder and the file name within it. */
  datatype FilePath = FilePath(folder: string, name: string)

  /** How an attempt to append to a file ends. */
  datatype WriteOutcome = Written | DirectoryNotFound | IoFailure

  /** The files of the export location, each as the sequence of its lines. */
  class FileSystem {
    var files: map<FilePath, seq<string>>

    constructor ()
      ensures files == map[]
    {
      files := map[];
    }

    /** The lines of a file; a file that does not exist has none. */
    function Content(path: FilePath): (lines: seq<string>)
      reads this
    {
      if path in files then files[path] else []
    }

    /**
     File.AppendAllLinesAsync: when the write succeeds, the file (created if
     absent) holds its old lines followed by the new ones; otherwise nothing changes.
     */
    method AppendAllLines(path: FilePath, lines: seq<string>, outcome: WriteOutcome)
      modifies this
      ensures outcome == Written ==> files == old(files)[path := old(Content(path)) + lines]
      ensures outcome != Written ==> files == old(files)
    {
      if outcome == Written {
        files := files[path := Content(path) + lines];
      }
    }
  }

  /** One more row adds its joined line at the end. */
  lemma CsvLinesSnoc(headers: seq<string>, grid: seq<seq<string>>, row: seq<string>, includeHeaders: bool)
    ensures CsvLines(headers, grid + [row], includeHeaders) == CsvLines(headers, grid, includeHeaders) + [CreateFileLine(row)]
  {
    var bigger := seq(|grid| + 1, i requires 0 <= i < |grid| + 1 => CreateFileLine((grid + [row])[i]));
    var smaller := seq(|grid|, i requires 0 <= i < |grid| => CreateFileLine(grid[i]));
    assert bigger == smaller + [CreateFileLine(row)];
  }

  /**
   ExportToCsvFileAsync: the first failing check decides the error and nothing is
   written; otherwise the header line (when included) and one line per grid row
   are appended to the file named by the record in the export folder, and a
   failed write yields its fixed message and leaves the files as they were.
   */
  method ExportToCsvFile(data: ReportFile, exportFolder: string, includeHeaders: bool, fs: FileSystem, outcome: WriteOutcome)
    returns (r: Result<()>)
    modifies fs
    ensures var error := ExportValidationError(data.fileName, exportFolder, includeHeaders, |data.headers|, data.tabularData.Length1);
      && (error.Some? ==> r == Fail([error.value]) && fs.files == old(fs.files))
      && (error.None? && outcome == DirectoryNotFound ==> r == Fail([DirectoryNotFoundMessage]) && fs.files == old(fs.files))
      && (error.None? && outcome == IoFailure ==> r == Fail([SaveFailedMessage]) && fs.files == old(fs.files))
      && (error.None? && outcome == Written ==>
            && r == Ok(())
            && fs.files == old(fs.files)[FilePath(exportFolder, data.fileName) :=
                 old(fs.Content(FilePath(exportFolder, data.fileName))) + CsvLines(data.headers, Grid(data.tabularData), includeHeaders)])
  {
    ghost var error := ExportValidationError(data.fileName, exportFolder, includeHeaders, |data.headers|, data.tabularData.Length1);
    if IsNullOrWhiteSpace(data.fileName) {
      assert error == Some(FileNameMissing);
      return Fail([FileNameMissing]);
    }
    if IsNullOrWhiteSpace(exportFolder) {
      assert error == Some(FilePathMissing);
      return Fail([FilePathMissing]);
    }
    var numberOfHeaderColumns := |data.headers|;
    if includeHeaders && numberOfHeaderColumns == 0 {
      assert error == Some(HeadersMissing);
      return Fail([HeadersMissing]);
    }
    var columnsNumberInTabularData := data.tabularData.Length1;
    if includeHeaders && numberOfHeaderColumns != columnsNumberInTabularData {
      assert error == Some(HeaderCountMismatch);
      return Fail([HeaderCountMismatch]);
    }
    assert error == None;

    var lines: seq<string> := [];
    if includeHeaders {
      lines := lines + [CreateFileLine(data.headers)];
    }
    var rowsNumberInTabularData := data.tabularData.Length0;
    ghost var grid := Grid(data.tabularData);
    assert lines == CsvLines(data.headers, grid[..0], includeHeaders);
    for i := 0 to rowsNumberInTabularData
      invariant lines == CsvLines(data.headers, grid[..i], includeHeaders)
      invariant fs.files == old(fs.files)
    {
      lines := lines + [CreateFileLine(GetRow(data.tabularData, i))];
      assert grid[..i + 1] == grid[..i] + [GetRow(data.tabularData, i)];
      CsvLinesSnoc(data.headers, grid[..i], GetRow(data.tabularData, i), includeHeaders);
    }
    assert grid[..rowsNumberInTabularData] == grid;
    assert lines == CsvLines(data.headers, grid, includeHeaders);

    fs.AppendAllLines(FilePath(exportFolder, data.fileName), lines, outcome);
    match outcome
    case DirectoryNotFound => return Fail([DirectoryNotFoundMessage]);
    case IoFailure => return Fail([SaveFailedMessage]);
    case Written => return Ok(());
  }

  /** The report of the export test passes validation. */
  lemma ExampleReportValid()
    ensures ExportValidationError("ReportFile.csv", "reports", true, 2, 2) == None
  {
    assert !IsWhiteSpace("ReportFile.csv"[0]);
    assert !IsWhiteSpace("reports"[0]);
  }

  /** The grid of the export test gives the test's three lines. */
  lemma ExampleGridLines(cells: array2<string>)
    requires cells.Length0 == 2 && cells.Length1 == 2
    requires cells[0, 0] == "13:00" && cells[0, 1] == "100.20"
    requires cells[1, 0] == "14:00" && cells[1, 1] == "80.50"
    ensures CsvLines(["header1", "header2"], Grid(cells), true) == ["header1;header2", "13:00;100.20", "14:00;80.50"]
  {
    assert GetRow(cells, 0) == ["13:00", "100.20"];
    assert GetRow(cells, 1) == ["14:00", "80.50"];
    assert Grid(cells) == [["13:00", "100.20"], ["14:00", "80.50"]];
    CsvLinesExample();
  }

  /**
   The export test, run twice on a fresh file system: each run succeeds, and
   the second appends its lines after those of the first instead of replacing them.
   */
  method ExportTwiceAppends() returns (first: Result<()>, second: Result<()>, content: seq<string>)
    ensures first == Ok(()) && second == Ok(())
    ensures content == ["header1;header2", "13:00;100.20", "14:00;80.50",
                        "header1;header2", "13:00;100.20", "14:00;80.50"]
  {
    var cells := new string[2, 2];
    cells[0, 0], cells[0, 1] := "13:00", "100.20";
    cells[1, 0], cells[1, 1] := "14:00", "80.50";
    var data := ReportFile("reports", "ReportFile.csv", ["header1", "header2"], cells);
    var fs := new FileSystem();
    ExampleReportValid();
    ExampleGridLines(cells);
    first := ExportToCsvFile(data, "reports", true, fs, Written);
    second := ExportToCsvFile(data, "reports", true, fs, Written);
    content := fs.Content(FilePath("reports", "ReportFile.csv"));
  }
}
