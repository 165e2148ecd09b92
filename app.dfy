/**
 * The page state of the table generator: the form fields, the busy flag, the error
 * message, the current table, and the operations that change them (generate, reset)
 * or read them (the generate gate, the tab-separated export).
 */
module App {
  import opened Wrappers
  import opened Interfaces
  import opened JsStrings

  /** A generated table together with the title and description it was generated for. */
  datatype TableProps = TableProps(tableTitle: string, tableDesc: string, tableData: AppTableData)

  /** What a failed `try` block threw: an `Error` object with a message, or any other value. */
  datatype Thrown = ErrorObject(message: string) | OtherValue

  /** The file a download offers: its name and its text. */
  datatype CsvDownload = CsvDownload(fileName: string, content: string)

  const NumberLabel := "Number"
  const GenericGenerationError := "Error generating table! Check console for details"
  const DefaultTableRows := 5
  const DefaultItemLength := "Short to medium"
  const DefaultTemperature := 1.0

  /** The message shown for a failed generation. */
  function ErrorMessage(t: Thrown): string {
    match t
    case ErrorObject(message) => message
    case OtherValue => GenericGenerationError
  }

  /** The response's text, or the empty string when the response has none. */
  function ResponseText(text: Option<string>): string {
    text.GetOr("")
  }

  /**
   * The parsed header after its first cell is overwritten with "Number"; assigning
   * index 0 of an empty array gives the one-element array.
   */
  function NormalizeHeader(header: seq<string>): (r: seq<string>)
    ensures |r| == if header == [] then 1 else |header|
    ensures r[0] == NumberLabel
    ensures forall i :: 1 <= i < |header| ==> r[i] == header[i]
  {
    if header == [] then [NumberLabel] else [NumberLabel] + header[1..]
  }

  /** The outcome of the generation request followed by `JSON.parse` of its text. */
  function GenerationOutcome(call: Result<Option<string>, Thrown>, parse: string -> Result<AppTableData, Thrown>)
    : Result<AppTableData, Thrown>
  {
    match call
    case Failure(e) => Failure(e)
    case Success(text) => parse(ResponseText(text))
  }

  /** The table stored after a successful parse: the form's title and description, the parsed rows, a numbered header. */
  function BuildTable(title: string, desc: string, parsed: AppTableData): (r: TableProps)
    ensures r.tableTitle == title && r.tableDesc == desc
    ensures r.tableData.rows == parsed.rows
    ensures r.tableData.header != [] && r.tableData.header[0] == NumberLabel
    ensures |r.tableData.header| == if parsed.header == [] then 1 else |parsed.header|
    ensures forall i :: 1 <= i < |parsed.header| ==> r.tableData.header[i] == parsed.header[i]
  {
    TableProps(title, desc, AppTableData(NormalizeHeader(parsed.header), parsed.rows))
  }

  /** The lines of the export: the header's cells tab-joined, then each row's cells tab-joined. */
  function ExportLines(t: AppTableData): (lines: seq<string>)
    ensures |lines| == |t.rows| + 1
  {
    [Join('\t', t.header)] + seq(|t.rows|, i requires 0 <= i < |t.rows| => Join('\t', t.rows[i]))
  }

  /** The text of the export: its lines joined with newlines. */
  function ExportText(t: AppTableData): string {
    Join('\n', ExportLines(t))
  }

  predicate NoCellContains(t: AppTableData, c: char) {
    && (forall j :: 0 <= j < |t.header| ==> c !in t.header[j])
    && (forall i, j :: 0 <= i < |t.rows| && 0 <= j < |t.rows[i]| ==> c !in t.rows[i][j])
  }

  /** When no cell holds a newline, the export has exactly one line per row plus the header line. */
  lemma ExportLineCount(t: AppTableData)
    requires NoCellContains(t, '\n')
    ensures Split(ExportText(t), '\n') == ExportLines(t)
    ensures |Split(ExportText(t), '\n')| == |t.rows| + 1
  {
    var lines := ExportLines(t);
    forall k | 0 <= k < |lines| ensures '\n' !in lines[k] {
      if k == 0 {
        JoinExcludes('\t', t.header, '\n');
      } else {
        var row := t.rows[k - 1];
        assert forall j :: 0 <= j < |row| ==> '\n' !in row[j];
        JoinExcludes('\t', row, '\n');
      }
    }
    SplitJoin('\n', lines);
  }

  /** When no cell holds a tab or a newline, every line of the export splits back into its cells. */
  lemma ExportCellsRecoverable(t: AppTableData)
    requires NoCellContains(t, '\n') && NoCellContains(t, '\t')
    ensures |Split(ExportText(t), '\n')| == |t.rows| + 1
    ensures Split(Split(ExportText(t), '\n')[0], '\t') == if t.header == [] then [""] else t.header
    ensures forall i :: 0 <= i < |t.rows| && t.rows[i] != [] ==>
      Split(Split(ExportText(t), '\n')[i + 1], '\t') == t.rows[i]
  {
    ExportLineCount(t);
    if t.header != [] {
      SplitJoin('\t', t.header);
    }
    forall i | 0 <= i < |t.rows| && t.rows[i] != []
      ensures Split(Split(ExportText(t), '\n')[i + 1], '\t') == t.rows[i]
    {
      var row := t.rows[i];
      assert forall j :: 0 <= j < |row| ==> '\t' !in row[j];
      SplitJoin('\t', row);
    }
  }

  /** The page component's state. */
  class AppState {
    var tableTitle: string
    var tableDesc: string
    var tableRows: int
    var tableItemLength: string
    var tableTemp: real
    var isBusy: bool
    var error: Option<string>
    var currentTable: Option<TableProps>
    var showForm: bool

    /** The state of a freshly mounted page. */
    constructor ()
      ensures tableTitle == "" && tableDesc == "" && tableRows == DefaultTableRows
      ensures tableItemLength == DefaultItemLength && tableTemp == DefaultTemperature
      ensures !isBusy && error == None && currentTable == None && showForm
    {
      tableTitle, tableDesc, tableRows := "", "", DefaultTableRows;
      tableItemLength, tableTemp := DefaultItemLength, DefaultTemperature;
      isBusy, error := false, None;
      currentTable, showForm := None, true;
    }

    /** `canGenerate`: a title and a description with something besides white space, and no request running. */
    function CanGenerate(): (r: bool)
      reads this
      ensures r <==> !AllWhitespace(tableTitle) && !AllWhitespace(tableDesc) && !isBusy
    {
      Trim(tableTitle) != "" && Trim(tableDesc) != "" && !isBusy
    }

    /** The part of `generateTable` before the request is awaited. */
    method BeginGeneration()
      modifies this
      ensures isBusy && error == None
      ensures tableTitle == old(tableTitle) && tableDesc == old(tableDesc) && tableRows == old(tableRows)
      ensures tableItemLength == old(tableItemLength) && tableTemp == old(tableTemp)
      ensures currentTable == old(currentTable) && showForm == old(showForm)
    {
      isBusy := true;
      error := None;
    }

    /**
     * The part of `generateTable` after the request settles: store the table and hide
     * the form, or record the error; either way the page is no longer busy.
     */
    method FinishGeneration(title: string, desc: string, outcome: Result<AppTableData, Thrown>)
      modifies this
      ensures !isBusy
      ensures outcome.Success? ==>
        currentTable == Some(BuildTable(title, desc, outcome.value)) && !showForm && error == old(error)
      ensures outcome.Failure? ==>
        error == Some(ErrorMessage(outcome.error)) && currentTable == old(currentTable) && showForm == old(showForm)
      ensures tableTitle == old(tableTitle) && tableDesc == old(tableDesc) && tableRows == old(tableRows)
      ensures tableItemLength == old(tableItemLength) && tableTemp == old(tableTemp)
    {
      match outcome
      case Success(tableArray) =>
        var newTable := BuildTable(title, desc, tableArray);
        currentTable := Some(newTable);
        showForm := false;
        isBusy := false;
      case Failure(thrown) =>
        error := Some(ErrorMessage(thrown));
        isBusy := false;
    }

    /**
     * `generateTable`. `clientError` is what creating the text-generation client
     * throws, if it throws: that step comes before the `try`, so the throw leaves the
     * function with the page still busy and no error recorded. `call` is the outcome
     * of the text-generation request (the response's text, if any, or what it threw)
     * and `parse` stands for `JSON.parse` together with the shape the response schema
     * demands; like `JSON.parse`, it rejects the empty text. The result is what
     * escapes the function, if anything does.
     */
    method GenerateTable(clientError: Option<Thrown>, call: Result<Option<string>, Thrown>,
                         parse: string -> Result<AppTableData, Thrown>)
      returns (escaped: Option<Thrown>)
      requires parse("").Failure?
      modifies this
      ensures escaped == clientError
      ensures clientError.Some? ==>
        && isBusy && error == None
        && currentTable == old(currentTable) && showForm == old(showForm)
      ensures clientError.None? ==> !isBusy
      ensures clientError.None? && GenerationOutcome(call, parse).Success? ==>
        && currentTable == Some(BuildTable(old(tableTitle), old(tableDesc), GenerationOutcome(call, parse).value))
        && !showForm && error == None
      ensures clientError.None? && GenerationOutcome(call, parse).Failure? ==>
        && error == Some(ErrorMessage(GenerationOutcome(call, parse).error))
        && currentTable == old(currentTable) && showForm == old(showForm)
      ensures clientError.None? && call.Success? && ResponseText(call.value) == "" ==>
        error.Some? && currentTable == old(currentTable) && showForm == old(showForm)
      ensures tableTitle == old(tableTitle) && tableDesc == old(tableDesc) && tableRows == old(tableRows)
      ensures tableItemLength == old(tableItemLength) && tableTemp == old(tableTemp)
    {
      var title, desc := tableTitle, tableDesc;
      BeginGeneration();
      if clientError.Some? {
        return clientError;
      }
      FinishGeneration(title, desc, GenerationOutcome(call, parse));
      return None;
    }

    /**
     * `exportTableToCSV`: nothing without a current table; otherwise a file named
     * after the table's title whose text is the tab-separated export.
     */
    method ExportTableToCsv() returns (r: Option<CsvDownload>)
      ensures currentTable.None? ==> r.None?
      ensures currentTable.Some? ==>
        r == Some(CsvDownload(currentTable.value.tableTitle + ".csv", ExportText(currentTable.value.tableData)))
    {
      if currentTable.None? {
        return None;
      }
      var rows := currentTable.value.tableData.rows;
      var header := currentTable.value.tableData.header;
      var csvData: seq<string> := [];
      var headerData: seq<string> := [];
      for i := 0 to |header|
        invariant headerData == header[..i]
      {
        headerData := headerData + [header[i]];
      }
      assert headerData == header;
      csvData := csvData + [Join('\t', headerData)];
      for i := 0 to |rows|
        invariant |csvData| == i + 1
        invariant csvData[0] == Join('\t', header)
        invariant forall k :: 0 <= k < i ==> csvData[k + 1] == Join('\t', rows[k])
      {
        var row := rows[i];
        var rowData: seq<string> := [];
        for j := 0 to |row|
          invariant rowData == row[..j]
        {
          rowData := rowData + [row[j]];
        }
        assert rowData == row;
        csvData := csvData + [Join('\t', rowData)];
      }
      assert csvData == ExportLines(currentTable.value.tableData);
      var csvString := Join('\n', csvData);
      return Some(CsvDownload(currentTable.value.tableTitle + ".csv", csvString));
    }

    /** `handleResetForm`: the form fields back to their defaults and the error cleared; nothing else changes. */
    method HandleResetForm()
      modifies this
      ensures tableTitle == "" && tableDesc == "" && tableRows == DefaultTableRows
      ensures tableItemLength == DefaultItemLength && tableTemp == DefaultTemperature && error == None
      ensures currentTable == old(currentTable) && showForm == old(showForm) && isBusy == old(isBusy)
    {
      tableTitle := "";
      tableDesc := "";
      tableRows := DefaultTableRows;
      tableItemLength := DefaultItemLength;
      tableTemp := DefaultTemperature;
      error := None;
    }
  }
}
