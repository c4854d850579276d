// The sheet operations of the spreadsheet viewer (xlsx_viewer/main.go):
// dropping empty rows, the size, row and column slices with clipping and
// warnings, and keyword search over one column or one row with a limit.
// Cells are the strings the workbook reader returns; a missing cell is None.
// The regular-expression engine is a pair of oracles: whether a pattern
// compiles and whether a compiled pattern matches a text.
module XlsxSheet {
  import opened Wrappers
  import opened Text
  import opened Seqs

  type Row = seq<string>
  type Sheet = seq<Row>

  /** The warnings the slicing and search operations attach to their result. */
  datatype Warning =
    | NoWarning
    | RangeOutOfBounds(start: int, end: int, total: int)   // whole range past the end
    | RangeClipped(end: int, total: int)                   // end cut down to the last row/column
    | IndexOutOfBounds(index: int, total: int)             // search index past the end

  datatype RowsResult = RowsResult(start: int, end: int, maxCols: int, data: seq<Row>, warning: Warning)

  datatype Column = Column(colIndex: int, values: seq<Option<string>>)

  datatype ColsResult = ColsResult(start: int, end: int, maxRows: int, data: seq<Column>, warning: Warning)

  /** A hit of a row search: the 1-based column and the cell. */
  datatype RowItem = RowItem(colIndex: int, value: string)

  datatype SearchResult<T> = SearchResult(matches: int, data: seq<T>, warning: Warning)

  /** A search either returns its result or exits with code 1 on a pattern that does not compile. */
  datatype SearchOutcome<T> = Searched(result: SearchResult<T>) | RegexSyntaxError

  predicate NonEmptyRow(row: Row) { |row| > 0 }

  /** getSheetData: the first sheet's rows, with the empty ones dropped. `firstSheet` is None when
      the workbook has no sheet, and a failure when the reader fails. */
  method GetSheetData(firstSheet: Option<Result<seq<Row>, string>>) returns (r: Result<Sheet, string>)
    ensures firstSheet.None? ==> r == Success([])
    ensures firstSheet.Some? && firstSheet.value.Failure? ==> r == Failure(firstSheet.value.error)
    ensures firstSheet.Some? && firstSheet.value.Success? ==> r == Success(Filter(firstSheet.value.value, NonEmptyRow))
  {
    if firstSheet.None? {
      return Success([]);
    }
    if firstSheet.value.Failure? {
      return Failure(firstSheet.value.error);
    }
    var rows := firstSheet.value.value;
    var filtered: Sheet := [];
    var i := 0;
    while i < |rows|
      invariant 0 <= i <= |rows|
      invariant filtered == Filter(rows[..i], NonEmptyRow)
    {
      FilterSnoc(rows[..i], rows[i], NonEmptyRow);
      assert rows[..i + 1] == rows[..i] + [rows[i]];
      if |rows[i]| > 0 {
        filtered := filtered + [rows[i]];
      }
      i := i + 1;
    }
    assert rows[..i] == rows;
    r := Success(filtered);
  }

  /** getSheetSize: the row count and the first row's length. */
  function GetSheetSize(sheet: Sheet): (r: (int, int))
    ensures r.0 == |sheet|
    ensures |sheet| == 0 ==> r.1 == 0
    ensures |sheet| > 0 ==> r.1 == |sheet[0]|
  {
    (|sheet|, if |sheet| > 0 then |sheet[0]| else 0)
  }

  /** On a sheet read by GetSheetData, the column count is zero exactly when there are no rows. */
  lemma SizeOfFilteredSheet(rows: seq<Row>)
    ensures var size := GetSheetSize(Filter(rows, NonEmptyRow));
            size.0 <= |rows| && (size.1 == 0 <==> size.0 == 0)
  {
    var f := Filter(rows, NonEmptyRow);
    FilterMembers(rows, NonEmptyRow);
    if |f| > 0 {
      assert f[0] in f;
      assert NonEmptyRow(f[0]);
    }
  }

  function Min(a: int, b: int): int { if a < b then a else b }
  function Max(a: int, b: int): int { if a < b then b else a }

  /** getRowsData: rows start..end (1-based, inclusive), clipped to the sheet, each cut to maxCols cells. */
  method GetRowsData(sheet: Sheet, startRow: int, endRow: int, maxCols: int) returns (r: RowsResult)
    requires startRow >= 1 && maxCols >= 0
    ensures r.start == startRow && r.end == endRow && r.maxCols == maxCols
    ensures startRow > |sheet| ==> r.data == [] && r.warning == RangeOutOfBounds(startRow, endRow, |sheet|)
    ensures startRow <= |sheet| ==>
      && r.warning == (if endRow > |sheet| then RangeClipped(endRow, |sheet|) else NoWarning)
      && |r.data| == Max(0, Min(endRow, |sheet|) - startRow + 1)
      && forall k :: 0 <= k < |r.data| ==> r.data[k] == Take(sheet[startRow - 1 + k], maxCols)
  {
    var total := |sheet|;
    if startRow > total {
      return RowsResult(startRow, endRow, maxCols, [], RangeOutOfBounds(startRow, endRow, total));
    }
    var warning := NoWarning;
    var end := endRow;
    if end > total {
      warning := RangeClipped(endRow, total);
      end := total;
    }
    var data: seq<Row> := [];
    var i := startRow - 1;
    while i <= end - 1 && i < total
      invariant startRow - 1 <= i <= Max(startRow - 1, end)
      invariant |data| == i - (startRow - 1)
      invariant forall k :: 0 <= k < |data| ==> data[k] == Take(sheet[startRow - 1 + k], maxCols)
    {
      var row := sheet[i];
      if maxCols < |row| {
        row := row[..maxCols];
      }
      data := data + [row];
      i := i + 1;
    }
    r := RowsResult(startRow, endRow, maxCols, data, warning);
  }

  /** The cell at column c of a row, or None past the row's end. */
  function CellAt(row: Row, c: nat): (r: Option<string>)
    ensures r.Some? <==> c < |row|
    ensures r.Some? ==> r.value == row[c]
  {
    if c < |row| then Some(row[c]) else None
  }

  function ColumnCount(sheet: Sheet): int { if |sheet| > 0 then |sheet[0]| else 0 }

  /** getColsData: columns start..end (1-based), clipped to the first row's width; each column holds
      one value per row for the first maxRows rows, None where a row is too short. */
  method GetColsData(sheet: Sheet, startCol: int, endCol: int, maxRows: int) returns (r: ColsResult)
    requires startCol >= 1
    ensures r.start == startCol && r.end == endCol && r.maxRows == maxRows
    ensures startCol > ColumnCount(sheet) ==>
      r.data == [] && r.warning == RangeOutOfBounds(startCol, endCol, ColumnCount(sheet))
    ensures startCol <= ColumnCount(sheet) ==>
      && r.warning == (if endCol > ColumnCount(sheet) then RangeClipped(endCol, ColumnCount(sheet)) else NoWarning)
      && |r.data| == Max(0, Min(endCol, ColumnCount(sheet)) - startCol + 1)
      && forall k :: 0 <= k < |r.data| ==>
           && r.data[k].colIndex == startCol + k
           && |r.data[k].values| == Max(0, Min(maxRows, |sheet|))
           && forall j :: 0 <= j < |r.data[k].values| ==> r.data[k].values[j] == CellAt(sheet[j], startCol - 1 + k)
  {
    var totalCols := if |sheet| > 0 then |sheet[0]| else 0;
    if startCol > totalCols {
      return ColsResult(startCol, endCol, maxRows, [], RangeOutOfBounds(startCol, endCol, totalCols));
    }
    var warning := NoWarning;
    var end := endCol;
    if end > totalCols {
      warning := RangeClipped(endCol, totalCols);
      end := totalCols;
    }
    var data: seq<Column> := [];
    var colIdx := startCol - 1;
    while colIdx <= end - 1
      invariant startCol - 1 <= colIdx <= Max(startCol - 1, end)
      invariant |data| == colIdx - (startCol - 1)
      invariant forall k :: 0 <= k < |data| ==>
           && data[k].colIndex == startCol + k
           && |data[k].values| == Max(0, Min(maxRows, |sheet|))
           && forall j :: 0 <= j < |data[k].values| ==> data[k].values[j] == CellAt(sheet[j], startCol - 1 + k)
    {
      var values: seq<Option<string>> := [];
      var rowsToProcess := |sheet|;
      if maxRows < |sheet| {
        rowsToProcess := maxRows;
      }
      var rowIdx := 0;
      while rowIdx < rowsToProcess
        invariant 0 <= rowIdx <= Max(0, rowsToProcess)
        invariant |values| == rowIdx
        invariant forall j :: 0 <= j < rowIdx ==> values[j] == CellAt(sheet[j], colIdx)
      {
        var row := sheet[rowIdx];
        var value := None;
        if colIdx < |row| {
          value := Some(row[colIdx]);
        }
        values := values + [value];
        rowIdx := rowIdx + 1;
      }
      data := data + [Column(colIdx + 1, values)];
      colIdx := colIdx + 1;
    }
    r := ColsResult(startCol, endCol, maxRows, data, warning);
  }

  /** Go's "%v" of a cell: its text, or "<nil>" for a missing cell. */
  function CellText(cell: Option<string>): string
  {
    if cell.Some? then cell.value else "<nil>"
  }

  /** Whether a cell's text matches the keyword: fuzzy is case-insensitive containment, exact is
      case-insensitive equality, regex runs the pattern on the raw text; other modes never match. */
  predicate CellMatches(mode: string, text: string, keyword: string, regexMatch: (string, string) -> bool)
  {
    || (mode == "fuzzy" && Contains(Lower(text), Lower(keyword)))
    || (mode == "exact" && Lower(text) == Lower(keyword))
    || (mode == "regex" && regexMatch(keyword, text))
  }

  function ColumnHit(colIdx: nat, keyword: string, mode: string, regexMatch: (string, string) -> bool): Row -> bool
  {
    (row: Row) => CellMatches(mode, CellText(CellAt(row, colIdx)), keyword, regexMatch)
  }

  function ItemHit(keyword: string, mode: string, regexMatch: (string, string) -> bool): RowItem -> bool
  {
    (item: RowItem) => CellMatches(mode, item.value, keyword, regexMatch)
  }

  /** The cells of a row paired with their 1-based column numbers. */
  function Items(row: Row): (r: seq<RowItem>)
    ensures |r| == |row|
    ensures forall i :: 0 <= i < |row| ==> r[i] == RowItem(i + 1, row[i])
  {
    seq(|row|, i requires 0 <= i < |row| => RowItem(i + 1, row[i]))
  }

  /** The loop stops as soon as the count reaches the limit, so at least one hit is kept. */
  function Cap(limit: int): int { Max(1, limit) }

  /** The scan both searches share: walk the candidates in order, keep each hit, and stop as soon
      as the number kept reaches the limit. */
  method FirstMatches<T>(candidates: seq<T>, hit: T -> bool, limit: int) returns (data: seq<T>)
    ensures data == Take(Filter(candidates, hit), Cap(limit))
    ensures |data| <= Cap(limit)
  {
    data := [];
    var matches := 0;
    var i := 0;
    while i < |candidates|
      invariant 0 <= i <= |candidates|
      invariant data == Filter(candidates[..i], hit)
      invariant matches == |data| < Cap(limit)
    {
      var c := candidates[i];
      FilterSnoc(candidates[..i], c, hit);
      assert candidates[..i + 1] == candidates[..i] + [c];
      if hit(c) {
        data := data + [c];
        matches := matches + 1;
        if matches >= limit {
          FilterPrefix(candidates, i + 1, hit);
          return;
        }
      }
      i := i + 1;
    }
    assert candidates[..i] == candidates;
  }

  /** searchColumn: the rows whose cell in column colIndex matches, in sheet order, at most limit of them. */
  method SearchColumn(sheet: Sheet, colIndex: int, keyword: string, mode: string, limit: int,
                      regexCompiles: string -> bool, regexMatch: (string, string) -> bool)
    returns (r: SearchOutcome<Row>)
    requires colIndex >= 1
    ensures colIndex > ColumnCount(sheet) ==>
      r == Searched(SearchResult(0, [], IndexOutOfBounds(colIndex, ColumnCount(sheet))))
    ensures colIndex <= ColumnCount(sheet) && mode == "regex" && !regexCompiles(keyword) ==> r == RegexSyntaxError
    ensures colIndex <= ColumnCount(sheet) && !(mode == "regex" && !regexCompiles(keyword)) ==>
      && r.Searched? && r.result.warning == NoWarning
      && r.result.data == Take(Filter(sheet, ColumnHit(colIndex - 1, keyword, mode, regexMatch)), Cap(limit))
      && r.result.matches == |r.result.data| <= Cap(limit)
  {
    var totalCols := if |sheet| > 0 then |sheet[0]| else 0;
    if colIndex > totalCols {
      return Searched(SearchResult(0, [], IndexOutOfBounds(colIndex, totalCols)));
    }
    if mode == "regex" && !regexCompiles(keyword) {
      return RegexSyntaxError;
    }
    var data := FirstMatches(sheet, ColumnHit(colIndex - 1, keyword, mode, regexMatch), limit);
    r := Searched(SearchResult(|data|, data, NoWarning));
  }

  /** searchRow: the cells of row rowIndex that match, with their columns, in order, at most limit of them. */
  method SearchRow(sheet: Sheet, rowIndex: int, keyword: string, mode: string, limit: int,
                   regexCompiles: string -> bool, regexMatch: (string, string) -> bool)
    returns (r: SearchOutcome<RowItem>)
    requires rowIndex >= 1
    ensures rowIndex > |sheet| ==> r == Searched(SearchResult(0, [], IndexOutOfBounds(rowIndex, |sheet|)))
    ensures rowIndex <= |sheet| && mode == "regex" && !regexCompiles(keyword) ==> r == RegexSyntaxError
    ensures rowIndex <= |sheet| && !(mode == "regex" && !regexCompiles(keyword)) ==>
      && r.Searched? && r.result.warning == NoWarning
      && r.result.data == Take(Filter(Items(sheet[rowIndex - 1]), ItemHit(keyword, mode, regexMatch)), Cap(limit))
      && r.result.matches == |r.result.data| <= Cap(limit)
  {
    var totalRows := |sheet|;
    if rowIndex > totalRows {
      return Searched(SearchResult(0, [], IndexOutOfBounds(rowIndex, totalRows)));
    }
    var row := sheet[rowIndex - 1];
    if mode == "regex" && !regexCompiles(keyword) {
      return RegexSyntaxError;
    }
    var data := FirstMatches(Items(row), ItemHit(keyword, mode, regexMatch), limit);
    r := Searched(SearchResult(|data|, data, NoWarning));
  }

  /** A search hit in a row search reports the column it came from. */
  lemma RowHitsAreCells(row: Row, keyword: string, mode: string, regexMatch: (string, string) -> bool)
    ensures forall item :: item in Filter(Items(row), ItemHit(keyword, mode, regexMatch)) ==>
      1 <= item.colIndex <= |row| && row[item.colIndex - 1] == item.value
      && CellMatches(mode, item.value, keyword, regexMatch)
  {
    FilterMembers(Items(row), ItemHit(keyword, mode, regexMatch));
    forall item | item in Filter(Items(row), ItemHit(keyword, mode, regexMatch))
      ensures 1 <= item.colIndex <= |row| && row[item.colIndex - 1] == item.value
    {
      var k :| 0 <= k < |Items(row)| && Items(row)[k] == item;
    }
  }

  /** An exact match is also a fuzzy match: equal lower-cased texts contain each other. */
  lemma ExactImpliesFuzzy(text: string, keyword: string, regexMatch: (string, string) -> bool)
    ensures CellMatches("exact", text, keyword, regexMatch) ==> CellMatches("fuzzy", text, keyword, regexMatch)
  {
    if Lower(text) == Lower(keyword) {
      assert OccursAt(Lower(text), Lower(keyword), 0);
    }
  }

  /** Every row a column search returns has a matching cell in that column. */
  lemma ColumnResultsMatch(sheet: Sheet, colIdx: nat, keyword: string, mode: string, limit: int,
                           regexMatch: (string, string) -> bool)
    ensures forall row :: row in Take(Filter(sheet, ColumnHit(colIdx, keyword, mode, regexMatch)), Cap(limit)) ==>
      row in sheet && CellMatches(mode, CellText(CellAt(row, colIdx)), keyword, regexMatch)
  {
    var all := Filter(sheet, ColumnHit(colIdx, keyword, mode, regexMatch));
    FilterMembers(sheet, ColumnHit(colIdx, keyword, mode, regexMatch));
    forall row | row in Take(all, Cap(limit)) ensures row in all {
      var k :| 0 <= k < |Take(all, Cap(limit))| && Take(all, Cap(limit))[k] == row;
      assert all[k] == row;
    }
  }
}
