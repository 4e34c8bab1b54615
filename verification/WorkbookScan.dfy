/**
 The budgeted scan of a recalculated workbook: every used cell in row-major order, sheet after
 sheet, until a fixed number of cells has been examined.

 A sheet's used area is inclusive, so it is never empty. Whether a text cell looks like a number
 is a fact about the cell here; how the original decides it is not part of this model.
 */
module WorkbookScan {
  import opened Prelude
  import opened ColumnNames

  datatype Kind = Empty | Number | Text | Formula | Unknown

  /** `text` is the cell's displayed string, stripped. */
  datatype Cell = Cell(kind: Kind, text: string, looksLikeNumber: bool)

  datatype Sheet = Sheet(endColumn: nat, endRow: nat, at: (nat, nat) -> Cell)

  const ERROR_VALUES: seq<string> :=
    ["#REF!", "#DIV/0!", "#VALUE!", "#NAME?", "#N/A", "#NUM!", "#NULL!"]

  const CELL_SCAN_LIMIT: nat := 200_000

  function Width(sheet: Sheet): nat {
    sheet.endColumn + 1
  }

  function Area(sheet: Sheet): nat {
    (sheet.endRow + 1) * Width(sheet)
  }

  predicate IsErrorCell(cell: Cell, value: string) {
    cell.kind.Formula? && cell.text == value && value in ERROR_VALUES
  }

  predicate IsTextNumber(cell: Cell) {
    cell.kind.Text? && cell.looksLikeNumber
  }

  // ----- Row-major order -----

  function CellOf(sheet: Sheet, k: nat): Cell {
    sheet.at(k % Width(sheet), k / Width(sheet))
  }

  function RefOf(sheet: Sheet, k: nat): string {
    CellReference(k % Width(sheet), k / Width(sheet))
  }

  lemma Multiply(a: nat, b: nat, width: nat)
    requires a <= b
    ensures a * width <= b * width
  {}

  lemma QuotientIsUnique(width: nat, q: nat, m: nat, row: nat, column: nat)
    requires m < width && column < width && q * width + m == row * width + column
    ensures q == row && m == column
  {
    if q < row {
      Multiply(q + 1, row, width);
    } else if row < q {
      Multiply(row + 1, q, width);
    }
  }

  lemma Division(width: nat, row: nat, column: nat)
    requires column < width
    ensures (row * width + column) / width == row && (row * width + column) % width == column
  {
    var k := row * width + column;
    QuotientIsUnique(width, k / width, k % width, row, column);
  }

  lemma Recompose(k: nat, width: nat)
    requires width > 0
    ensures k == (k / width) * width + k % width
  {}

  lemma RefsAreDistinct(sheet: Sheet, j: nat, k: nat)
    requires RefOf(sheet, j) == RefOf(sheet, k)
    ensures j == k
  {
    var width := Width(sheet);
    CellReferenceIsInjective(j % width, j / width, k % width, k / width);
    Recompose(j, width);
    Recompose(k, width);
  }

  /** The names of the picked numbers below `n`, in order. */
  ghost function Picked(name: nat -> string, pick: nat -> bool, n: nat): seq<string> {
    if n == 0 then []
    else Picked(name, pick, n - 1) + if pick(n - 1) then [name(n - 1)] else []
  }

  /** If no two numbers share a name, each picked one is named once and nothing else is. */
  lemma {:induction false} PickedIsExact(name: nat -> string, pick: nat -> bool, n: nat)
    requires forall j: nat, k: nat | name(j) == name(k) :: j == k
    ensures Distinct(Picked(name, pick, n))
    ensures forall k: nat :: name(k) in Picked(name, pick, n) <==> k < n && pick(k)
    ensures forall r | r in Picked(name, pick, n) :: exists k: nat :: k < n && r == name(k)
  {
    if n > 0 {
      var before := Picked(name, pick, n - 1);
      PickedIsExact(name, pick, n - 1);
      assert name(n - 1) !in before;
      assert forall i | 0 <= i < |before| :: before[i] in before;
    }
  }

  ghost function RefsIn(sheet: Sheet): nat -> string {
    (k: nat) => RefOf(sheet, k)
  }

  ghost function ErrorsIn(sheet: Sheet, value: string): nat -> bool {
    (k: nat) => IsErrorCell(CellOf(sheet, k), value)
  }

  ghost function TextNumbersIn(sheet: Sheet): nat -> bool {
    (k: nat) => IsTextNumber(CellOf(sheet, k))
  }

  /** The error cells with `value` among the first `n` cells, in scan order. */
  ghost function ErrorRefs(sheet: Sheet, n: nat, value: string): seq<string> {
    Picked(RefsIn(sheet), ErrorsIn(sheet, value), n)
  }

  ghost function TextNumberRefs(sheet: Sheet, n: nat): seq<string> {
    Picked(RefsIn(sheet), TextNumbersIn(sheet), n)
  }

  lemma PickedRefsAreExact(sheet: Sheet, pick: nat -> bool, n: nat)
    ensures var refs := Picked(RefsIn(sheet), pick, n);
      && Distinct(refs)
      && (forall k: nat :: RefOf(sheet, k) in refs <==> k < n && pick(k))
      && (forall r | r in refs :: exists k: nat :: k < n && r == RefOf(sheet, k))
  {
    var name := RefsIn(sheet);
    forall j: nat, k: nat | name(j) == name(k) ensures j == k {
      RefsAreDistinct(sheet, j, k);
    }
    PickedIsExact(name, pick, n);
    var refs := Picked(name, pick, n);
    forall k: nat ensures RefOf(sheet, k) in refs <==> k < n && pick(k) {
      assert name(k) == RefOf(sheet, k);
    }
    forall r | r in refs ensures exists k: nat :: k < n && r == RefOf(sheet, k) {
      var k: nat :| k < n && r == name(k);
      assert r == RefOf(sheet, k);
    }
  }

  lemma ErrorRefsAreExact(sheet: Sheet, n: nat, value: string)
    ensures var refs := ErrorRefs(sheet, n, value);
      && Distinct(refs)
      && (forall k: nat :: RefOf(sheet, k) in refs <==> k < n && IsErrorCell(CellOf(sheet, k), value))
      && (forall r | r in refs :: exists k: nat :: k < n && r == RefOf(sheet, k))
  {
    PickedRefsAreExact(sheet, ErrorsIn(sheet, value), n);
  }

  lemma TextNumberRefsAreExact(sheet: Sheet, n: nat)
    ensures var refs := TextNumberRefs(sheet, n);
      && Distinct(refs)
      && (forall k: nat :: RefOf(sheet, k) in refs <==> k < n && IsTextNumber(CellOf(sheet, k)))
      && (forall r | r in refs :: exists k: nat :: k < n && r == RefOf(sheet, k))
  {
    PickedRefsAreExact(sheet, TextNumbersIn(sheet), n);
  }

  /** Where the scan is at its `k`th cell. */
  lemma ComesTo(sheet: Sheet, k: nat, column: nat, row: nat)
    requires k % Width(sheet) == column && k / Width(sheet) == row
    ensures sheet.at(column, row) == CellOf(sheet, k) && CellReference(column, row) == RefOf(sheet, k)
  {}

  lemma ListedExactly(sheet: Sheet, n: nat, value: string)
    ensures Distinct(ErrorRefs(sheet, n, value)) && Distinct(TextNumberRefs(sheet, n))
    ensures forall k: nat ::
      && (RefOf(sheet, k) in ErrorRefs(sheet, n, value) <==> k < n && IsErrorCell(CellOf(sheet, k), value))
      && (RefOf(sheet, k) in TextNumberRefs(sheet, n) <==> k < n && IsTextNumber(CellOf(sheet, k)))
    ensures forall r | r in ErrorRefs(sheet, n, value) || r in TextNumberRefs(sheet, n) ::
      exists k: nat :: k < n && r == RefOf(sheet, k)
  {
    ErrorRefsAreExact(sheet, n, value);
    TextNumberRefsAreExact(sheet, n);
  }

  /** The reports of a scan that examined `n` cells are the bad ones among them, each once: formulas
      that show an error, and text that looks like a number. */
  lemma ReportsAreExact(sheet: Sheet, n: nat, value: string, k: nat)
    ensures Distinct(ErrorRefs(sheet, n, value)) && Distinct(TextNumberRefs(sheet, n))
    ensures
      var cell := CellOf(sheet, k);
      && (RefOf(sheet, k) in ErrorRefs(sheet, n, value) <==>
            && k < n && cell.kind.Formula? && cell.text == value
            && value in ["#REF!", "#DIV/0!", "#VALUE!", "#NAME?", "#N/A", "#NUM!", "#NULL!"])
      && (RefOf(sheet, k) in TextNumberRefs(sheet, n) <==> k < n && cell.kind.Text? && cell.looksLikeNumber)
    ensures forall r | r in ErrorRefs(sheet, n, value) || r in TextNumberRefs(sheet, n) ::
      exists j: nat :: j < n && r == RefOf(sheet, j)
  {
    ListedExactly(sheet, n, value);
  }

  // ----- One sheet -----

  /** The reports are those of the first `n` cells: each error value found, with its cells. */
  ghost predicate Reports(sheet: Sheet, n: nat, errors: map<string, seq<string>>, textNumbers: seq<string>) {
    && (forall value :: value in errors <==> ErrorRefs(sheet, n, value) != [])
    && (forall value | value in errors :: errors[value] == ErrorRefs(sheet, n, value))
    && textNumbers == TextNumberRefs(sheet, n)
  }

  function Min(a: nat, b: nat): nat {
    if a < b then a else b
  }

  /** How many cells come before row `row`. */
  ghost function RowStart(sheet: Sheet, row: nat): nat {
    if row == 0 then 0 else RowStart(sheet, row - 1) + Width(sheet)
  }

  lemma {:induction false} RowStartIsProduct(sheet: Sheet, row: nat)
    ensures RowStart(sheet, row) == row * Width(sheet)
  {
    if row > 0 {
      RowStartIsProduct(sheet, row - 1);
      Distribute(row - 1, Width(sheet));
    }
  }

  lemma Distribute(row: nat, width: nat)
    ensures row * width + width == (row + 1) * width
  {}

  lemma {:induction false} RowFits(sheet: Sheet, row: nat)
    requires row <= sheet.endRow + 1
    ensures RowStart(sheet, row) <= Area(sheet)
    ensures row == sheet.endRow + 1 ==> RowStart(sheet, row) == Area(sheet)
    decreases sheet.endRow + 1 - row
  {
    if row == sheet.endRow + 1 {
      RowStartIsProduct(sheet, row);
    } else {
      RowFits(sheet, row + 1);
    }
  }

  lemma AreaIsPositive(sheet: Sheet)
    ensures Area(sheet) > 0
  {
    Multiply(1, sheet.endRow + 1, Width(sheet));
  }

  lemma RowStartDivides(sheet: Sheet, row: nat, column: nat)
    requires column <= sheet.endColumn
    ensures var k := RowStart(sheet, row) + column; k % Width(sheet) == column && k / Width(sheet) == row
  {
    RowStartIsProduct(sheet, row);
    Division(Width(sheet), row, column);
  }

  /** The cell of a row and a column is the one the scan comes to. */
  lemma CellInRow(sheet: Sheet, row: nat, column: nat)
    requires column <= sheet.endColumn
    ensures var k := RowStart(sheet, row) + column;
      sheet.at(column, row) == CellOf(sheet, k) && CellReference(column, row) == RefOf(sheet, k)
  {
    RowStartDivides(sheet, row, column);
    ComesTo(sheet, RowStart(sheet, row) + column, column, row);
  }

  method ScanSheet(sheet: Sheet, budget: nat)
    returns (errors: map<string, seq<string>>, textNumbers: seq<string>, examined: nat)
    ensures examined == Min(budget, Area(sheet))
    ensures Reports(sheet, examined, errors, textNumbers)
  {
    errors, textNumbers, examined := map[], [], 0;
    var row := 0;
    while row <= sheet.endRow
      invariant row <= sheet.endRow + 1
      invariant examined == RowStart(sheet, row) <= budget
      invariant Reports(sheet, examined, errors, textNumbers)
    {
      var column := 0;
      RowFits(sheet, row + 1);
      while column <= sheet.endColumn
        invariant column <= sheet.endColumn + 1
        invariant examined == RowStart(sheet, row) + column <= budget
        invariant Reports(sheet, examined, errors, textNumbers)
      {
        if examined >= budget {
          return;
        }
        CellInRow(sheet, row, column);
        var cell := sheet.at(column, row);
        examined := examined + 1;
        errors, textNumbers := Note(sheet, examined, cell, CellReference(column, row), errors, textNumbers);
        column := column + 1;
      }
      row := row + 1;
    }
    RowFits(sheet, row);
  }

  /** What one more cell adds to the reports. */
  lemma PicksNext(sheet: Sheet, n: nat, cell: Cell, ref: string)
    requires n > 0 && cell == CellOf(sheet, n - 1) && ref == RefOf(sheet, n - 1)
    ensures forall value ::
      (ErrorRefs(sheet, n, value) ==
       ErrorRefs(sheet, n - 1, value) + if IsErrorCell(cell, value) then [ref] else [])
    ensures TextNumberRefs(sheet, n) ==
      TextNumberRefs(sheet, n - 1) + if IsTextNumber(cell) then [ref] else []
  {}

  /** Record one examined cell. */
  method Note(
      sheet: Sheet, n: nat, cell: Cell, ref: string,
      errors: map<string, seq<string>>, textNumbers: seq<string>)
    returns (errors': map<string, seq<string>>, textNumbers': seq<string>)
    requires n > 0 && cell == CellOf(sheet, n - 1) && ref == RefOf(sheet, n - 1)
    requires Reports(sheet, n - 1, errors, textNumbers)
    ensures Reports(sheet, n, errors', textNumbers')
  {
    PicksNext(sheet, n, cell, ref);
    errors', textNumbers' := errors, textNumbers;
    if cell.kind.Formula? && cell.text in ERROR_VALUES {
      var earlier := if cell.text in errors then errors[cell.text] else [];
      errors' := errors[cell.text := earlier + [ref]];
    } else if cell.kind.Text? && cell.looksLikeNumber {
      textNumbers' := textNumbers + [ref];
    }
  }

  // ----- The workbook -----

  datatype SheetReport = SheetReport(errors: map<string, seq<string>>, textNumbers: seq<string>, examined: nat)

  predicate Clean(report: SheetReport) {
    report.errors == map[] && report.textNumbers == []
  }

  ghost function TotalArea(sheets: seq<Sheet>): nat {
    if sheets == [] then 0 else TotalArea(sheets[..|sheets| - 1]) + Area(sheets[|sheets| - 1])
  }

  ghost function TotalExamined(reports: seq<SheetReport>): nat {
    if reports == [] then 0 else
      TotalExamined(reports[..|reports| - 1]) + reports[|reports| - 1].examined
  }

  lemma {:induction false} AreaOfPrefix(sheets: seq<Sheet>, n: nat)
    requires n <= |sheets|
    ensures TotalArea(sheets[..n]) <= TotalArea(sheets)
    ensures n < |sheets| ==> TotalArea(sheets[..n]) < TotalArea(sheets)
    decreases |sheets|
  {
    if n < |sheets| {
      var shorter := sheets[..|sheets| - 1];
      assert shorter[..n] == sheets[..n];
      AreaOfPrefix(shorter, n);
      AreaIsPositive(sheets[|sheets| - 1]);
    } else {
      assert sheets[..n] == sheets;
    }
  }

  /** The budget left for sheet `i`. */
  ghost function Left(sheets: seq<Sheet>, i: nat): nat
    requires i <= |sheets|
  {
    CELL_SCAN_LIMIT - Min(TotalArea(sheets[..i]), CELL_SCAN_LIMIT)
  }

  lemma LeftNext(sheets: seq<Sheet>, i: nat)
    requires i < |sheets|
    ensures Left(sheets, i + 1) == Left(sheets, i) - Min(Left(sheets, i), Area(sheets[i]))
  {
    assert sheets[..i + 1][..i] == sheets[..i];
  }

  ghost predicate Accounts(sheets: seq<Sheet>, i: nat, report: SheetReport)
    requires i < |sheets|
  {
    && report.examined == Min(Left(sheets, i), Area(sheets[i]))
    && Reports(sheets[i], report.examined, report.errors, report.textNumbers)
  }

  ghost predicate EachAccounts(sheets: seq<Sheet>, reports: seq<SheetReport>)
    requires |reports| <= |sheets|
  {
    forall i | 0 <= i < |reports| :: Accounts(sheets, i, reports[i])
  }

  lemma EachAccountsNext(sheets: seq<Sheet>, reports: seq<SheetReport>, report: SheetReport)
    requires |reports| < |sheets|
    requires EachAccounts(sheets, reports) && Accounts(sheets, |reports|, report)
    ensures EachAccounts(sheets, reports + [report])
  {
    var next := reports + [report];
    forall i | 0 <= i < |next| ensures Accounts(sheets, i, next[i]) {
      if i < |reports| {
        assert next[i] == reports[i];
      }
    }
  }

  lemma TotalNext(reports: seq<SheetReport>, report: SheetReport)
    ensures TotalExamined(reports + [report]) == TotalExamined(reports) + report.examined
  {}

  /** The reports are those of the first sheets, and together they used up the budget spent. */
  ghost predicate Accounted(sheets: seq<Sheet>, reports: seq<SheetReport>) {
    && |reports| <= |sheets|
    && EachAccounts(sheets, reports)
    && TotalExamined(reports) == CELL_SCAN_LIMIT - Left(sheets, |reports|)
  }

  lemma AccountedNext(sheets: seq<Sheet>, reports: seq<SheetReport>, report: SheetReport)
    requires |reports| < |sheets|
    requires Accounted(sheets, reports) && Accounts(sheets, |reports|, report)
    ensures Accounted(sheets, reports + [report])
    ensures Left(sheets, |reports| + 1) == Left(sheets, |reports|) - report.examined
  {
    LeftNext(sheets, |reports|);
    TotalNext(reports, report);
    EachAccountsNext(sheets, reports, report);
  }

  /** The budget is spent after `n` sheets exactly when the whole workbook fills it, if the scan
      went as far as it could. */
  lemma LeftAtEnd(sheets: seq<Sheet>, n: nat)
    requires n <= |sheets| && (n < |sheets| ==> Left(sheets, n) == 0)
    ensures CELL_SCAN_LIMIT - Left(sheets, n) == Min(TotalArea(sheets), CELL_SCAN_LIMIT)
  {
    AreaOfPrefix(sheets, n);
    if n == |sheets| {
      assert sheets[..n] == sheets;
    }
  }

  lemma NothingYet(sheets: seq<Sheet>)
    ensures Accounted(sheets, []) && Left(sheets, 0) == CELL_SCAN_LIMIT
  {
    assert sheets[..0] == [];
  }

  lemma AccountedAtEnd(sheets: seq<Sheet>, reports: seq<SheetReport>)
    requires Accounted(sheets, reports) && (|reports| < |sheets| ==> Left(sheets, |reports|) == 0)
    ensures TotalExamined(reports) == Min(TotalArea(sheets), CELL_SCAN_LIMIT)
    ensures Left(sheets, |reports|) == 0 <==> TotalArea(sheets) >= CELL_SCAN_LIMIT
  {
    LeftAtEnd(sheets, |reports|);
  }

  method ReportOn(sheets: seq<Sheet>, reports: seq<SheetReport>, budget: nat)
    returns (report: SheetReport)
    requires |reports| < |sheets| && Accounted(sheets, reports) && budget == Left(sheets, |reports|)
    ensures Accounted(sheets, reports + [report])
    ensures budget - report.examined == Left(sheets, |reports| + 1)
  {
    var errors, textNumbers, examined := ScanSheet(sheets[|reports|], budget);
    report := SheetReport(errors, textNumbers, examined);
    AccountedNext(sheets, reports, report);
  }

  /** After each of the first `n` sheets the scan goes on: there was nothing to report, or there is
      budget left. */
  ghost predicate GoesOn(sheets: seq<Sheet>, reports: seq<SheetReport>, n: int) {
    n <= |reports| <= |sheets|
    && forall i | 0 <= i < n :: Clean(reports[i]) || TotalArea(sheets[..i + 1]) < 200_000
  }

  lemma GoesOnNext(sheets: seq<Sheet>, reports: seq<SheetReport>, report: SheetReport)
    requires |reports| < |sheets| && GoesOn(sheets, reports, |reports|)
    ensures GoesOn(sheets, reports + [report], |reports|)
    ensures GoesOn(sheets, reports + [report], |reports| + 1) <==> Clean(report) || Left(sheets, |reports| + 1) > 0
  {
    var next := reports + [report];
    assert forall i | 0 <= i < |reports| :: next[i] == reports[i];
    if GoesOn(sheets, next, |next|) {
      assert Clean(next[|reports|]) || TotalArea(sheets[..|reports| + 1]) < 200_000;
    }
  }

  /** Scan sheet after sheet on one budget. `truncated` is set as soon as the budget is spent, and
      a sheet with findings is then the last one reported. */
  method ScanWorkbook(sheets: seq<Sheet>) returns (reports: seq<SheetReport>, truncated: bool)
    ensures Accounted(sheets, reports)
    ensures TotalExamined(reports) == if TotalArea(sheets) < 200_000 then TotalArea(sheets) else 200_000
    ensures truncated <==> TotalArea(sheets) >= 200_000
    ensures |reports| < |sheets| ==> truncated && reports != [] && !Clean(reports[|reports| - 1])
    ensures GoesOn(sheets, reports, |reports| - 1)
  {
    NothingYet(sheets);
    reports, truncated := [], false;
    var budget := CELL_SCAN_LIMIT;
    var stop := false;
    while |reports| < |sheets| && !stop
      invariant Accounted(sheets, reports)
      invariant budget == Left(sheets, |reports|)
      invariant truncated <==> budget == 0
      invariant stop ==> truncated && reports != [] && !Clean(reports[|reports| - 1])
      invariant !stop ==> GoesOn(sheets, reports, |reports|)
      invariant GoesOn(sheets, reports, |reports| - 1)
      decreases |sheets| - |reports|
    {
      var report := ReportOn(sheets, reports, budget);
      budget := budget - report.examined;
      if budget <= 0 {
        truncated := true;
      }
      GoesOnNext(sheets, reports, report);
      reports := reports + [report];
      stop := !Clean(report) && budget <= 0;
    }
    AccountedAtEnd(sheets, reports);
  }

  /** Every used cell of sheet `i` is examined. */
  ghost predicate Covered(sheets: seq<Sheet>, i: nat)
    requires i < |sheets|
  {
    Left(sheets, i) >= Area(sheets[i])
  }

  lemma FitsMeansCovered(sheets: seq<Sheet>, i: nat)
    requires i < |sheets| && TotalArea(sheets) <= CELL_SCAN_LIMIT
    ensures Covered(sheets, i)
  {
    AreaOfPrefix(sheets, i + 1);
    assert sheets[..i + 1][..i] == sheets[..i];
  }

  lemma OverflowMeansUncovered(sheets: seq<Sheet>)
    requires TotalArea(sheets) > CELL_SCAN_LIMIT
    ensures sheets != [] && !Covered(sheets, |sheets| - 1)
  {}

  ghost predicate AllCovered(sheets: seq<Sheet>) {
    forall i | 0 <= i < |sheets| :: Covered(sheets, i)
  }

  /** Everything was examined exactly when the workbook fits the limit. */
  lemma CoveredExactlyWhenItFits(sheets: seq<Sheet>)
    ensures AllCovered(sheets) <==> TotalArea(sheets) <= CELL_SCAN_LIMIT
  {
    if TotalArea(sheets) <= CELL_SCAN_LIMIT {
      forall i | 0 <= i < |sheets| ensures Covered(sheets, i) {
        FitsMeansCovered(sheets, i);
      }
    } else {
      OverflowMeansUncovered(sheets);
    }
  }

  /** A run not marked truncated has examined everything; the mark is a false alarm exactly when the
      workbook fills the limit. */
  lemma TruncationIsExact(sheets: seq<Sheet>, truncated: bool)
    requires truncated <==> TotalArea(sheets) >= CELL_SCAN_LIMIT
    ensures !truncated ==> AllCovered(sheets)
    ensures truncated && AllCovered(sheets) <==> TotalArea(sheets) == CELL_SCAN_LIMIT
  {
    CoveredExactlyWhenItFits(sheets);
  }

  /** Such a workbook: one sheet of 400 rows and 500 columns is examined whole and marked. */
  method AFullWorkbookIsMarked() returns (sheets: seq<Sheet>, truncated: bool)
    ensures TotalArea(sheets) == CELL_SCAN_LIMIT
    ensures truncated && AllCovered(sheets)
  {
    var sheet := Sheet(499, 399, (_, _) => Cell(Empty, "", false));
    sheets := [sheet];
    assert sheets[..0] == [] && Area(sheet) == CELL_SCAN_LIMIT;
    var reports;
    reports, truncated := ScanWorkbook(sheets);
    TruncationIsExact(sheets, truncated);
  }

  // ----- What a clean report means -----

  predicate IsBad(cell: Cell) {
    IsErrorCell(cell, cell.text) || IsTextNumber(cell)
  }

  /** No bad cell among the first `n`. */
  ghost predicate CleanUpTo(sheet: Sheet, n: nat) {
    forall k: nat | k < n :: !IsBad(CellOf(sheet, k))
  }

  /** A report is clean exactly when no examined cell is bad. */
  lemma CleanReportIsExact(sheet: Sheet, n: nat, errors: map<string, seq<string>>, textNumbers: seq<string>)
    requires Reports(sheet, n, errors, textNumbers)
    ensures errors == map[] && textNumbers == [] <==> CleanUpTo(sheet, n)
  {
    if errors == map[] && textNumbers == [] {
      forall k: nat | k < n ensures !IsBad(CellOf(sheet, k)) {
        var value := CellOf(sheet, k).text;
        ListedExactly(sheet, n, value);
        assert value !in errors;
      }
    } else if CleanUpTo(sheet, n) {
      NothingToReport(sheet, n, errors, textNumbers);
    }
  }

  lemma NothingToReport(sheet: Sheet, n: nat, errors: map<string, seq<string>>, textNumbers: seq<string>)
    requires Reports(sheet, n, errors, textNumbers) && CleanUpTo(sheet, n)
    ensures errors == map[] && textNumbers == []
  {
    NoneAreListed(sheet, n, "");
    forall value ensures value !in errors {
      NoneAreListed(sheet, n, value);
    }
  }

  lemma FirstIsMember(refs: seq<string>)
    ensures refs == [] || refs[0] in refs
  {}

  lemma NoneAreListed(sheet: Sheet, n: nat, value: string)
    requires CleanUpTo(sheet, n)
    ensures ErrorRefs(sheet, n, value) == [] && TextNumberRefs(sheet, n) == []
  {
    ListedExactly(sheet, n, value);
    FirstIsMember(ErrorRefs(sheet, n, value));
    FirstIsMember(TextNumberRefs(sheet, n));
  }

  /** The two sheets have the same shape and the same first `n` cells. */
  ghost predicate SameUpTo(a: Sheet, b: Sheet, n: nat) {
    && a.endColumn == b.endColumn && a.endRow == b.endRow
    && forall k: nat | k < n :: CellOf(a, k) == CellOf(b, k)
  }

  lemma UncheckedCellsMayBeBad(sheet: Sheet, n: nat) returns (other: Sheet)
    requires n < Area(sheet)
    ensures SameUpTo(sheet, other, n) && !CleanUpTo(other, Area(other))
  {
    var width := Width(sheet);
    var bad := Cell(Text, "1", true);
    other := Sheet(
      sheet.endColumn, sheet.endRow,
      (column: nat, row: nat) => if row * width + column >= n then bad else sheet.at(column, row));
    forall k: nat ensures CellOf(other, k) == if k >= n then bad else CellOf(sheet, k) {
      Recompose(k, width);
    }
    assert IsBad(CellOf(other, n));
  }

  /** A sheet reported clean is known to be clean exactly when all of it was examined. After the
      budget is spent sheets are reported clean with no cell examined. */
  lemma CleanMeansClean(sheets: seq<Sheet>, i: nat, report: SheetReport)
    requires i < |sheets| && Accounts(sheets, i, report) && Clean(report)
    ensures (forall other: Sheet | SameUpTo(sheets[i], other, report.examined) ::
              CleanUpTo(other, Area(other))) <==> Covered(sheets, i)
  {
    var sheet := sheets[i];
    CleanReportIsExact(sheet, report.examined, report.errors, report.textNumbers);
    if Covered(sheets, i) {
      forall other: Sheet | SameUpTo(sheet, other, report.examined) ensures CleanUpTo(other, Area(other)) {
        forall k: nat | k < Area(other) ensures !IsBad(CellOf(other, k)) {
          assert CellOf(sheet, k) == CellOf(other, k);
        }
      }
    } else {
      var other := UncheckedCellsMayBeBad(sheet, report.examined);
    }
  }

  lemma FullSheetLeavesNothing(sheets: seq<Sheet>)
    requires sheets != [] && Area(sheets[0]) == CELL_SCAN_LIMIT
    ensures |sheets| > 1 ==> Left(sheets, 1) == 0
  {
    if |sheets| > 1 {
      assert sheets[..1][..0] == [];
    }
  }

  lemma ReportedClean(sheets: seq<Sheet>, reports: seq<SheetReport>)
    requires |sheets| == 2 && |reports| == 2 && Accounted(sheets, reports) && Left(sheets, 1) == 0
    ensures Clean(reports[1]) && reports[1].examined == 0
  {
    assert Accounts(sheets, 1, reports[1]);
    CleanReportIsExact(sheets[1], 0, reports[1].errors, reports[1].textNumbers);
  }

  lemma NothingBadIsClean(sheets: seq<Sheet>, reports: seq<SheetReport>)
    requires sheets != [] && reports != [] && Accounted(sheets, reports)
    requires CleanUpTo(sheets[0], Area(sheets[0]))
    ensures Clean(reports[0])
  {
    assert Accounts(sheets, 0, reports[0]);
    CleanReportIsExact(sheets[0], reports[0].examined, reports[0].errors, reports[0].textNumbers);
  }

  /** A workbook whose second sheet is bad and reported clean: the first one spent the budget. */
  method ACleanReportCanBeWrong() returns (sheets: seq<Sheet>, reports: seq<SheetReport>)
    ensures |sheets| == 2 && |reports| == 2
    ensures Clean(reports[1]) && !CleanUpTo(sheets[1], Area(sheets[1]))
  {
    var full := Sheet(499, 399, (_, _) => Cell(Empty, "", false));
    var bad := Sheet(0, 0, (_, _) => Cell(Text, "1", true));
    sheets := [full, bad];
    assert Area(full) == CELL_SCAN_LIMIT && CleanUpTo(full, Area(full));
    assert IsBad(CellOf(bad, 0));
    FullSheetLeavesNothing(sheets);
    var truncated;
    reports, truncated := ScanWorkbook(sheets);
    NothingBadIsClean(sheets, reports);
    ReportedClean(sheets, reports);
  }
}
