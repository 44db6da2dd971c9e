/** `ExcelUtils`: single-cell reads and writes on the test-data workbook,
    a header-zipped row read, and an invalid mobile number written into a
    cell. The workbook is an abstract value; opening it either yields that
    value or fails with an IOException. */
module ExcelUtils {
  import opened Wrappers
  import opened Errors
  import opened Text
  import MobileNumbers

  /** The cell types `getCellValue` distinguishes. A numeric cell holds the
      value after the `(long)` cast. */
  datatype Cell =
    | StringCell(text: string)
    | NumericCell(whole: int)
    | BooleanCell(flag: bool)
    | FormulaCell(formula: string)
    | BlankCell
    | ErrorCell

  /** A row's cells by column index, up to its last cell, so its length is
      `getLastCellNum()`; None is a column with no cell object. */
  type Row = row: seq<Option<Cell>> | row == [] || row[|row| - 1].Some?
  /** A sheet's rows by row index; a missing key is a row `getRow` returns
      null for. */
  type Sheet = map<int, Row>
  type Workbook = map<string, Sheet>

  const READ_FAILED: string := "❌ Failed to read from Excel"
  const WRITE_FAILED: string := "❌ Failed to write to Excel"
  const ROW_READ_FAILED: string := "❌ Failed to read row as map"

  /** The decimal digits of `n`, most significant first, as
      `String.valueOf(long)` prints them. */
  function NaturalText(n: nat): (s: string)
    ensures s != [] && IsDigits(s)
    ensures s[0] == '0' ==> n == 0
  {
    if n < 10 then [DigitChar(n)] else NaturalText(n / 10) + [DigitChar(n % 10)]
  }

  /** The value a string of decimal digits denotes. */
  function DigitsValue(s: string): nat
    requires IsDigits(s)
  {
    if s == [] then 0 else DigitsValue(s[..|s| - 1]) * 10 + (s[|s| - 1] as int - '0' as int)
  }

  /** Printing a number and reading its digits back gives the number. */
  lemma {:induction false} NaturalTextRoundTrip(n: nat)
    ensures DigitsValue(NaturalText(n)) == n
  {
    var s := NaturalText(n);
    if n < 10 {
      assert s[..|s| - 1] == [];
    } else {
      assert s[..|s| - 1] == NaturalText(n / 10);
      NaturalTextRoundTrip(n / 10);
    }
  }

  /** `String.valueOf(long)`. */
  function LongText(n: int): (s: string)
    ensures n >= 0 ==> s != [] && IsDigits(s) && DigitsValue(s) == n && (s[0] == '0' ==> n == 0)
    ensures n < 0 ==> |s| > 1 && s[0] == '-' && IsDigits(s[1..]) && DigitsValue(s[1..]) == -n && s[1] != '0'
  {
    NaturalTextRoundTrip(if n < 0 then -n else n);
    if n < 0 then
      var digits := NaturalText(-n);
      assert ("-" + digits)[1..] == digits;
      "-" + digits
    else NaturalText(n)
  }

  /** `getCellValue`: the text of a cell; an absent cell reads as "". */
  function CellValue(cell: Option<Cell>): (r: string)
    ensures cell.None? ==> r == ""
    ensures cell.Some? && (cell.value.BlankCell? || cell.value.ErrorCell?) ==> r == ""
    ensures cell.Some? && cell.value.StringCell? ==> r == cell.value.text
    ensures cell.Some? && cell.value.FormulaCell? ==> r == cell.value.formula
    ensures cell.Some? && cell.value.BooleanCell? ==> r == (if cell.value.flag then "true" else "false")
    ensures cell.Some? && cell.value.NumericCell? ==> r == LongText(cell.value.whole)
    ensures cell.Some? && cell.value.NumericCell? && cell.value.whole >= 0 ==>
              IsDigits(r) && DigitsValue(r) == cell.value.whole
  {
    match cell
    case None => ""
    case Some(StringCell(text)) => text
    case Some(NumericCell(whole)) => LongText(whole)
    case Some(BooleanCell(flag)) => if flag then "true" else "false"
    case Some(FormulaCell(formula)) => formula
    case Some(BlankCell) => ""
    case Some(ErrorCell) => ""
  }

  /** `row.getCell(i)`: null past the row's last cell. */
  function CellOf(row: Row, i: nat): Option<Cell> {
    if i < |row| then row[i] else None
  }

  /** The cell at a position of the workbook, None when the sheet, the row
      or the cell is absent. */
  function CellAt(book: Workbook, sheetName: string, rowNum: int, colNum: nat): Option<Cell> {
    if sheetName in book && rowNum in book[sheetName] then CellOf(book[sheetName][rowNum], colNum) else None
  }

  /** What `XSSFRow.getCell` throws for a negative column index. */
  const BAD_CELL_INDEX: string := "Cell index must be >= 0"

  /** `readCell`: a workbook that cannot be opened is wrapped in a
      RuntimeException; a missing sheet or row dereferences null; a negative
      column is refused by `getCell` with an IllegalArgumentException, which
      the `catch (IOException e)` lets through. */
  function ReadCell(file: Option<Workbook>, sheetName: string, rowNum: int, colNum: int): (r: Result<string, Ex>)
    ensures file.None? ==> r == Failure(Runtime(READ_FAILED, Some(Io)))
    ensures file.Some? ==> (r.Failure? <==> sheetName !in file.value || rowNum !in file.value[sheetName] || colNum < 0)
    ensures r.Failure? && file.Some? && (sheetName !in file.value || rowNum !in file.value[sheetName]) ==>
              r.error == NullPointer
    ensures r.Failure? && file.Some? && sheetName in file.value && rowNum in file.value[sheetName] ==>
              r.error == IllegalArgument(BAD_CELL_INDEX)
    ensures r.Success? ==> colNum >= 0 && r.value == CellValue(CellAt(file.value, sheetName, rowNum, colNum))
  {
    match file
    case None => Failure(Runtime(READ_FAILED, Some(Io)))
    case Some(book) =>
      if sheetName !in book then Failure(NullPointer)
      else if rowNum !in book[sheetName] then Failure(NullPointer)
      else if colNum < 0 then Failure(IllegalArgument(BAD_CELL_INDEX))
      else Success(CellValue(CellOf(book[sheetName][rowNum], colNum)))
  }

  /** Whether the cell is a FORMULA cell. */
  predicate IsFormula(cell: Option<Cell>) {
    cell.Some? && cell.value.FormulaCell?
  }

  /** `cell.setCellValue(value)` on the cell `row.getCell(colNum)`, creating
      it (and the empty columns before it) when absent. A FORMULA cell keeps
      its formula: POI only replaces its cached result, which `getCellValue`
      never reads. Any other cell becomes a STRING cell. */
  function SetCell(row: Row, colNum: nat, value: string): (r: Row)
    ensures |r| == if colNum < |row| then |row| else colNum + 1
    ensures IsFormula(CellOf(row, colNum)) ==> CellOf(r, colNum) == CellOf(row, colNum)
    ensures !IsFormula(CellOf(row, colNum)) ==> CellOf(r, colNum) == Some(StringCell(value))
    ensures forall j: nat :: j != colNum ==> CellOf(r, j) == CellOf(row, j)
  {
    if colNum < |row| then
      if IsFormula(row[colNum]) then row else row[colNum := Some(StringCell(value))]
    else row + seq(colNum - |row|, _ => None) + [Some(StringCell(value))]
  }

  /** The workbook `writeCell` builds: the row is created if missing, the
      cell is created if missing, and only that cell's value changes. */
  function WithCell(book: Workbook, sheetName: string, rowNum: nat, colNum: nat, value: string): (r: Workbook)
    requires sheetName in book
    ensures r.Keys == book.Keys
    ensures forall s :: s in book && s != sheetName ==> r[s] == book[s]
    ensures r[sheetName].Keys == book[sheetName].Keys + {rowNum}
    ensures IsFormula(CellAt(book, sheetName, rowNum, colNum)) ==>
              CellAt(r, sheetName, rowNum, colNum) == CellAt(book, sheetName, rowNum, colNum)
    ensures !IsFormula(CellAt(book, sheetName, rowNum, colNum)) ==>
              CellAt(r, sheetName, rowNum, colNum) == Some(StringCell(value))
    ensures forall s, i, j: nat :: (s, i, j) != (sheetName, rowNum as int, colNum) ==>
              CellAt(r, s, i, j) == CellAt(book, s, i, j)
  {
    var sheet: Sheet := book[sheetName];
    var row: Row := if rowNum in sheet then sheet[rowNum] else [];
    var written: Row := SetCell(row, colNum, value);
    var updated: Sheet := sheet[rowNum := written];
    book[sheetName := updated]
  }

  /** Reading back a written cell gives the written text, unless the cell
      holds a formula. */
  lemma ReadAfterWrite(book: Workbook, sheetName: string, rowNum: nat, colNum: nat, value: string)
    requires sheetName in book
    requires !IsFormula(CellAt(book, sheetName, rowNum, colNum))
    ensures ReadCell(Some(WithCell(book, sheetName, rowNum, colNum, value)), sheetName, rowNum, colNum)
            == Success(value)
  {
  }

  /** Writing into a formula cell leaves what `readCell` returns unchanged:
      it still reads the formula. */
  lemma WriteKeepsFormula(book: Workbook, sheetName: string, rowNum: nat, colNum: nat, value: string)
    requires sheetName in book && IsFormula(CellAt(book, sheetName, rowNum, colNum))
    ensures ReadCell(Some(WithCell(book, sheetName, rowNum, colNum, value)), sheetName, rowNum, colNum)
            == ReadCell(Some(book), sheetName, rowNum, colNum)
    ensures ReadCell(Some(book), sheetName, rowNum, colNum) == Success(CellAt(book, sheetName, rowNum, colNum).value.formula)
  {
  }

  /** `readRowAsMap`'s loop after `n` columns: each header text mapped to the
      row text of the same column, later columns overwriting earlier ones. */
  function Zip(header: Row, row: Row, n: nat): map<string, string>
    requires n <= |header|
  {
    if n == 0 then map[]
    else Zip(header, row, n - 1)[CellValue(header[n - 1]) := CellValue(CellOf(row, n - 1))]
  }

  /** `readRowAsMap`: row 0 is the header; its cell count bounds the columns
      read. A missing sheet or header dereferences null, and so does a
      missing row once there is a column to read. */
  function RowAsMap(file: Option<Workbook>, sheetName: string, rowNum: int): (r: Result<map<string, string>, Ex>)
    ensures file.None? ==> r == Failure(Runtime(ROW_READ_FAILED, Some(Io)))
    ensures r.Failure? && file.Some? ==> r.error == NullPointer
    ensures file.Some? ==>
              (r.Failure? <==> sheetName !in file.value || 0 !in file.value[sheetName]
                               || (rowNum !in file.value[sheetName] && |file.value[sheetName][0]| > 0))
    ensures r.Success? ==>
              var sheet := file.value[sheetName];
              r.value == Zip(sheet[0], if rowNum in sheet then sheet[rowNum] else [], |sheet[0]|)
  {
    match file
    case None => Failure(Runtime(ROW_READ_FAILED, Some(Io)))
    case Some(book) =>
      if sheetName !in book || 0 !in book[sheetName] then Failure(NullPointer)
      else
        var header := book[sheetName][0];
        if rowNum in book[sheetName] then Success(Zip(header, book[sheetName][rowNum], |header|))
        else if |header| == 0 then Success(map[])
        else Failure(NullPointer)
  }

  /** The keys of the map are exactly the header texts of the columns read. */
  lemma {:induction false} ZipKeys(header: Row, row: Row, n: nat, key: string)
    requires n <= |header|
    ensures key in Zip(header, row, n) <==> exists i :: 0 <= i < n && CellValue(header[i]) == key
  {
    if n > 0 {
      ZipKeys(header, row, n - 1, key);
    }
  }

  /** A header text maps to the row text of the last column carrying it. */
  lemma {:induction false} ZipLaterColumnWins(header: Row, row: Row, n: nat, i: nat)
    requires i < n <= |header|
    requires forall j :: i < j < n ==> CellValue(header[j]) != CellValue(header[i])
    ensures CellValue(header[i]) in Zip(header, row, n)
    ensures Zip(header, row, n)[CellValue(header[i])] == CellValue(CellOf(row, i))
  {
    if i < n - 1 {
      ZipLaterColumnWins(header, row, n - 1, i);
      assert CellValue(header[n - 1]) != CellValue(header[i]);
    }
  }

  /** A header column past the end of the row maps to "". */
  lemma ShortRowReadsEmpty(header: Row, row: Row, i: nat)
    requires |row| <= i < |header|
    requires forall j :: i < j < |header| ==> CellValue(header[j]) != CellValue(header[i])
    ensures CellValue(header[i]) in Zip(header, row, |header|)
    ensures Zip(header, row, |header|)[CellValue(header[i])] == ""
  {
    ZipLaterColumnWins(header, row, |header|, i);
  }

  /** `readRowAsMap`, column by column. */
  method ReadRowAsMap(file: Option<Workbook>, sheetName: string, rowNum: int)
    returns (r: Result<map<string, string>, Ex>)
    ensures r == RowAsMap(file, sheetName, rowNum)
  {
    if file.None? {
      return Failure(Runtime(ROW_READ_FAILED, Some(Io)));
    }
    var book := file.value;
    if sheetName !in book || 0 !in book[sheetName] {
      return Failure(NullPointer);
    }
    var header := book[sheetName][0];
    var present := rowNum in book[sheetName];
    var row: Row := if present then book[sheetName][rowNum] else [];
    var data: map<string, string> := map[];
    var i := 0;
    while i < |header|
      invariant 0 <= i <= |header|
      invariant data == Zip(header, row, i)
      invariant !present ==> i == 0
    {
      var key := CellValue(header[i]);
      if !present {
        return Failure(NullPointer);
      }
      var value := CellValue(CellOf(row, i));
      data := data[key := value];
      i := i + 1;
    }
    return Success(data);
  }

  /** `generateInvalidMobileNumber` (the private copy in this class): first
      digit 0-4, then nine more digits appended in a loop. */
  method GenerateInvalidMobileNumber(draw: nat, rest: seq<nat>) returns (s: string)
    requires draw < 5 && |rest| == 9 && MobileNumbers.IsDraws(rest)
    ensures s == DigitsOf([draw] + rest)
    ensures MobileNumbers.IsInvalidMobile(s)
  {
    s := [DigitChar(draw)];
    for i := 1 to 10
      invariant s == DigitsOf([draw] + rest[..i - 1])
    {
      assert [draw] + rest[..i] == ([draw] + rest[..i - 1]) + [rest[i - 1]];
      s := s + [DigitChar(rest[i - 1])];
    }
    assert rest[..9] == rest;
  }

  /** The workbook file at `EXCEL_PATH`. */
  class ExcelFile {
    /** What opening and parsing the file yields; None when it fails with an
        IOException. */
    var contents: Option<Workbook>

    constructor (contents: Option<Workbook>)
      ensures this.contents == contents
    {
      this.contents := contents;
    }

    /** `writeCell`: opens the workbook, creates the row and cell if absent,
        sets the cell's text and writes the workbook back. `writeOk` is
        whether writing the file succeeds. */
    method WriteCell(sheetName: string, rowNum: nat, colNum: nat, value: string, writeOk: bool)
      returns (r: Outcome<Ex>)
      modifies this
      ensures old(contents).None? ==> r == Fail(Runtime(WRITE_FAILED, Some(Io)))
      ensures old(contents).Some? && sheetName !in old(contents).value ==> r == Fail(NullPointer)
      ensures old(contents).Some? && sheetName in old(contents).value ==>
                (r.Pass? <==> writeOk) && (r.Fail? ==> r.error == Runtime(WRITE_FAILED, Some(Io)))
      ensures r.Pass? ==> contents == Some(WithCell(old(contents).value, sheetName, rowNum, colNum, value))
      ensures r.Fail? ==> contents == old(contents)
    {
      if contents.None? {
        return Fail(Runtime(WRITE_FAILED, Some(Io)));
      }
      var book := contents.value;
      if sheetName !in book {
        return Fail(NullPointer);
      }
      var sheet := book[sheetName];
      var row: Row := if rowNum in sheet then sheet[rowNum] else [];
      row := SetCell(row, colNum, value);
      sheet := sheet[rowNum := row];
      if !writeOk {
        return Fail(Runtime(WRITE_FAILED, Some(Io)));
      }
      contents := Some(book[sheetName := sheet]);
      r := Pass;
    }
  }

  /** `generateAndSaveInvalidMobileNumber`: the generated number is the text
      of the given cell afterwards. */
  method GenerateAndSaveInvalidMobileNumber(file: ExcelFile, sheetName: string, rowNum: nat, colNum: nat,
                                            draw: nat, rest: seq<nat>, writeOk: bool)
    returns (r: Outcome<Ex>)
    requires draw < 5 && |rest| == 9 && MobileNumbers.IsDraws(rest)
    modifies file
    ensures MobileNumbers.IsInvalidMobile(DigitsOf([draw] + rest))
    ensures r.Pass? <==> old(file.contents).Some? && sheetName in old(file.contents).value && writeOk
    ensures old(file.contents).None? ==> r == Fail(Runtime(WRITE_FAILED, Some(Io)))
    ensures old(file.contents).Some? && sheetName !in old(file.contents).value ==> r == Fail(NullPointer)
    ensures old(file.contents).Some? && sheetName in old(file.contents).value && !writeOk ==>
              r == Fail(Runtime(WRITE_FAILED, Some(Io)))
    ensures r.Pass? ==>
              file.contents == Some(WithCell(old(file.contents).value, sheetName, rowNum, colNum, DigitsOf([draw] + rest)))
    ensures r.Pass? && !IsFormula(CellAt(old(file.contents).value, sheetName, rowNum, colNum)) ==>
              ReadCell(file.contents, sheetName, rowNum, colNum) == Success(DigitsOf([draw] + rest))
    ensures r.Pass? && IsFormula(CellAt(old(file.contents).value, sheetName, rowNum, colNum)) ==>
              ReadCell(file.contents, sheetName, rowNum, colNum) == ReadCell(old(file.contents), sheetName, rowNum, colNum)
    ensures r.Fail? ==> file.contents == old(file.contents)
  {
    var number := GenerateInvalidMobileNumber(draw, rest);
    r := file.WriteCell(sheetName, rowNum, colNum, number, writeOk);
    if r.Pass? {
      if IsFormula(CellAt(old(file.contents).value, sheetName, rowNum, colNum)) {
        WriteKeepsFormula(old(file.contents).value, sheetName, rowNum, colNum, number);
      } else {
        ReadAfterWrite(old(file.contents).value, sheetName, rowNum, colNum, number);
      }
    }
  }
}
