/**
 * The list logic of the knowledge-base screen (components/KnowledgeBase.tsx):
 * the multi-criteria filter over the documents, the count of active
 * filters, the Markdown table built from spreadsheet rows, the routing of
 * an uploaded file to an extractor, the duplicate-guarded ingestion of a
 * new document into the shared store, and the paginated document viewer.
 *
 * The component's state is a class whose fields are its `useState`
 * variables; the list the filter effect recomputes is a function of them.
 * File-format libraries (pdfjs, mammoth, XLSX, JSZip, FileReader) and the
 * media analysis call are the parameters `library`, `book` and
 * `objectUrl`.
 */
module KnowledgeBase {
  import opened Types
  import opened Text
  import opened Gemini

  // ---------------------------------------------------------------------
  // JavaScript's order on strings
  // ---------------------------------------------------------------------

  /** `a < b` on strings: character by character, a proper prefix first; characters compare as code points. */
  predicate StrLess(a: string, b: string) {
    if a == [] then b != []
    else if b == [] then false
    else a[0] < b[0] || (a[0] == b[0] && StrLess(a[1..], b[1..]))
  }

  lemma {:induction false} StrLessIrreflexive(a: string)
    ensures !StrLess(a, a)
  {
    if a != [] {
      StrLessIrreflexive(a[1..]);
    }
  }

  /** Two different strings are ordered one way or the other. */
  lemma {:induction false} StrLessTotal(a: string, b: string)
    requires a != b
    ensures StrLess(a, b) || StrLess(b, a)
  {
    if a != [] && b != [] && a[0] == b[0] {
      assert a == [a[0]] + a[1..] && b == [b[0]] + b[1..];
      StrLessTotal(a[1..], b[1..]);
    }
  }

  lemma {:induction false} StrLessTransitive(a: string, b: string, c: string)
    requires StrLess(a, b) && StrLess(b, c)
    ensures StrLess(a, c)
  {
    if a != [] && b[0] == a[0] && c[0] == b[0] {
      StrLessTransitive(a[1..], b[1..], c[1..]);
    }
  }

  // ---------------------------------------------------------------------
  // The filter effect
  // ---------------------------------------------------------------------

  /** `xs.filter(p)` */
  function Where<T>(xs: seq<T>, p: T -> bool): (r: seq<T>)
    ensures |r| <= |xs|
  {
    if xs == [] then [] else (if p(xs[0]) then [xs[0]] else []) + Where(xs[1..], p)
  }

  /** `a` is `b` with some elements left out, the rest in their order. */
  ghost predicate Subsequence<T>(a: seq<T>, b: seq<T>)
    decreases |b|
  {
    if a == [] then true
    else if b == [] then false
    else (a[0] == b[0] && Subsequence(a[1..], b[1..])) || Subsequence(a, b[1..])
  }

  lemma {:induction false} WhereIsSubsequence<T>(xs: seq<T>, p: T -> bool)
    ensures Subsequence(Where(xs, p), xs)
  {
    if xs != [] {
      WhereIsSubsequence(xs[1..], p);
      if p(xs[0]) {
        assert Where(xs, p) == [xs[0]] + Where(xs[1..], p);
        assert Where(xs, p)[1..] == Where(xs[1..], p);
      } else {
        assert Where(xs, p) == Where(xs[1..], p);
      }
    }
  }

  /** An element is kept exactly when it is there and passes the test. */
  lemma {:induction false} WhereMembers<T>(xs: seq<T>, p: T -> bool, x: T)
    ensures x in Where(xs, p) <==> x in xs && p(x)
  {
    if xs != [] {
      WhereMembers(xs[1..], p, x);
      assert xs == [xs[0]] + xs[1..];
    }
  }

  /** Two filters in a row are one filter by both tests. */
  lemma {:induction false} WhereWhere<T>(xs: seq<T>, p: T -> bool, q: T -> bool, pq: T -> bool)
    requires forall x :: pq(x) == (p(x) && q(x))
    ensures Where(Where(xs, p), q) == Where(xs, pq)
  {
    if xs != [] {
      var x := xs[0];
      var tail := Where(xs[1..], p);
      WhereWhere(xs[1..], p, q, pq);
      assert pq(x) == (p(x) && q(x));
      if p(x) {
        assert Where(xs, p) == [x] + tail;
        assert ([x] + tail)[0] == x && ([x] + tail)[1..] == tail;
        assert Where(Where(xs, p), q) == (if q(x) then [x] else []) + Where(tail, q);
      } else {
        assert Where(xs, p) == tail;
      }
    }
  }

  /** A filter whose test passes everything keeps the whole list. */
  lemma {:induction false} WhereAll<T>(xs: seq<T>, p: T -> bool)
    requires forall x :: p(x)
    ensures Where(xs, p) == xs
  {
    if xs != [] {
      WhereAll(xs[1..], p);
    }
  }

  /** A filter stage that applies only when its criterion is set. */
  function Stage<T>(xs: seq<T>, active: bool, p: T -> bool): seq<T> {
    if active then Where(xs, p) else xs
  }

  lemma StageAsWhere<T>(xs: seq<T>, active: bool, p: T -> bool, q: T -> bool)
    requires forall x :: q(x) == (active ==> p(x))
    ensures Stage(xs, active, p) == Where(xs, q)
  {
    if active {
      WhereWhere(xs, (x: T) => true, p, q);
      WhereAll(xs, (x: T) => true);
    } else {
      WhereAll(xs, q);
    }
  }

  /** Four conditional stages in a row are one filter by the tests of the stages that are on. */
  lemma FourStages<T>(xs: seq<T>, a1: bool, p1: T -> bool, a2: bool, p2: T -> bool,
                      a3: bool, p3: T -> bool, a4: bool, p4: T -> bool, all: T -> bool)
    requires forall x :: all(x) == ((a1 ==> p1(x)) && (a2 ==> p2(x)) && (a3 ==> p3(x)) && (a4 ==> p4(x)))
    ensures Stage(Stage(Stage(Stage(xs, a1, p1), a2, p2), a3, p3), a4, p4) == Where(xs, all)
  {
    var q1 := (x: T) => a1 ==> p1(x);
    var q2 := (x: T) => a2 ==> p2(x);
    var q3 := (x: T) => a3 ==> p3(x);
    var q4 := (x: T) => a4 ==> p4(x);
    var q12 := (x: T) => q1(x) && q2(x);
    var q123 := (x: T) => q12(x) && q3(x);
    var s1 := Stage(xs, a1, p1);
    StageAsWhere(xs, a1, p1, q1);
    var s2 := Stage(s1, a2, p2);
    StageAsWhere(s1, a2, p2, q2);
    WhereWhere(xs, q1, q2, q12);
    var s3 := Stage(s2, a3, p3);
    StageAsWhere(s2, a3, p3, q3);
    WhereWhere(xs, q12, q3, q123);
    StageAsWhere(s3, a4, p4, q4);
    WhereWhere(xs, q123, q4, all);
  }

  /** The search box, the category drop-down and the two date fields. */
  datatype Filters = Filters(query: string, category: string, dateStart: string, dateEnd: string)

  const AllCategories: string := "ALL"

  /** The state `resetFilters` leaves. */
  const NoFilters := Filters("", AllCategories, "", "")

  predicate TextHit(doc: KnowledgeDoc, lowerQuery: string) {
    Contains(Lower(doc.title), lowerQuery) || Contains(Lower(doc.content), lowerQuery)
    || Contains(Lower(doc.id), lowerQuery)
  }

  /** The list the filter effect computes. */
  function Visible(docs: seq<KnowledgeDoc>, f: Filters): seq<KnowledgeDoc> {
    var lowerQuery := Lower(f.query);
    var byQuery := Stage(docs, f.query != "", (d: KnowledgeDoc) => TextHit(d, lowerQuery));
    var byCategory := Stage(byQuery, f.category != AllCategories, (d: KnowledgeDoc) => CategoryName(d.category) == f.category);
    var byStart := Stage(byCategory, f.dateStart != "", (d: KnowledgeDoc) => !StrLess(d.lastUpdated, f.dateStart));
    Stage(byStart, f.dateEnd != "", (d: KnowledgeDoc) => !StrLess(f.dateEnd, d.lastUpdated))
  }

  /** What a kept document satisfies: every criterion that is set. */
  predicate Admits(f: Filters, d: KnowledgeDoc) {
    (f.query != "" ==> TextHit(d, Lower(f.query)))
    && (f.category != AllCategories ==> CategoryName(d.category) == f.category)
    && (f.dateStart != "" ==> !StrLess(d.lastUpdated, f.dateStart))
    && (f.dateEnd != "" ==> !StrLess(f.dateEnd, d.lastUpdated))
  }

  /** The four stages together are one filter by all the criteria that are set. */
  lemma VisibleIsOneFilter(docs: seq<KnowledgeDoc>, f: Filters)
    ensures Visible(docs, f) == Where(docs, (d: KnowledgeDoc) => Admits(f, d))
  {
    var lowerQuery := Lower(f.query);
    FourStages(docs,
               f.query != "", (d: KnowledgeDoc) => TextHit(d, lowerQuery),
               f.category != AllCategories, (d: KnowledgeDoc) => CategoryName(d.category) == f.category,
               f.dateStart != "", (d: KnowledgeDoc) => !StrLess(d.lastUpdated, f.dateStart),
               f.dateEnd != "", (d: KnowledgeDoc) => !StrLess(f.dateEnd, d.lastUpdated),
               (d: KnowledgeDoc) => Admits(f, d));
  }

  /** The filtered list keeps the store's order and leaves documents out, never adds or repeats one. */
  lemma VisibleIsSubsequence(docs: seq<KnowledgeDoc>, f: Filters)
    ensures Subsequence(Visible(docs, f), docs)
  {
    VisibleIsOneFilter(docs, f);
    WhereIsSubsequence(docs, (d: KnowledgeDoc) => Admits(f, d));
  }

  /** A document is listed exactly when it is in the store and meets every criterion that is set. */
  lemma VisibleMembers(docs: seq<KnowledgeDoc>, f: Filters, d: KnowledgeDoc)
    ensures d in Visible(docs, f) <==> d in docs && Admits(f, d)
  {
    VisibleIsOneFilter(docs, f);
    WhereMembers(docs, (dd: KnowledgeDoc) => Admits(f, dd), d);
  }

  /** With the filters reset, every document is listed, in store order. */
  lemma ResetListsEverything(docs: seq<KnowledgeDoc>)
    ensures Visible(docs, NoFilters) == docs
  {
  }

  /** No document is dated on or after a start that is later than the end, and on or before that end. */
  lemma OutsideInvertedRange(f: Filters, d: KnowledgeDoc)
    requires f.dateStart != "" && f.dateEnd != "" && StrLess(f.dateEnd, f.dateStart)
    ensures !Admits(f, d)
  {
    if d.lastUpdated != f.dateStart {
      StrLessTotal(d.lastUpdated, f.dateStart);
      if StrLess(f.dateStart, d.lastUpdated) {
        StrLessTransitive(f.dateEnd, f.dateStart, d.lastUpdated);
      }
    }
  }

  /** A date range whose start is after its end lists nothing. */
  lemma InvertedRangeListsNothing(docs: seq<KnowledgeDoc>, f: Filters, d: KnowledgeDoc)
    requires f.dateStart != "" && f.dateEnd != "" && StrLess(f.dateEnd, f.dateStart)
    ensures d !in Visible(docs, f)
  {
    VisibleMembers(docs, f, d);
    OutsideInvertedRange(f, d);
  }

  /** `activeFiltersCount`: how many of the four criteria are set. */
  function ActiveFiltersCount(f: Filters): (n: nat)
    ensures n <= 4
    ensures n == 0 <==> f == NoFilters
  {
    (if f.category != AllCategories then 1 else 0) + (if f.dateStart != "" then 1 else 0)
    + (if f.dateEnd != "" then 1 else 0) + (if f.query != "" then 1 else 0)
  }

  // ---------------------------------------------------------------------
  // The spreadsheet to Markdown table builder
  // ---------------------------------------------------------------------

  /** A cell of `sheet_to_json(..., { header: 1 })`; `None` is undefined or null. */
  type Cell = Option<string>

  type Row = seq<Cell>

  datatype Sheet = Sheet(name: string, rows: seq<Row>)

  /**
   * What the spreadsheet libraries give: the sheets in workbook order,
   * the images found in the archive's media folder and the number of
   * native charts.
   */
  datatype Workbook = Workbook(sheets: seq<Sheet>, media: seq<string>, chartCount: nat)

  /** The widest row; every row fits, and some row of a non-empty sheet is that wide. */
  function MaxCols(rows: seq<Row>): (n: nat)
    ensures forall i :: 0 <= i < |rows| ==> |rows[i]| <= n
    ensures rows == [] ==> n == 0
    ensures rows != [] ==> exists i :: 0 <= i < |rows| && |rows[i]| == n
  {
    if rows == [] then 0
    else
      var m := MaxCols(rows[..|rows| - 1]);
      if |rows[|rows| - 1]| > m then |rows[|rows| - 1]| else m
  }

  /** `row[i]`, undefined past the end of a short row. */
  function CellAt(row: Row, i: nat): Cell {
    if i < |row| then row[i] else None
  }

  function Escaped(s: string): string {
    ReplaceChar(s, '|', "&#124;")
  }

  /** A header cell: pipes escaped, trimmed; a missing cell is empty. */
  function HeaderCell(c: Cell): string {
    match c
    case None => ""
    case Some(s) => Trim(Escaped(s))
  }

  /** A data cell: pipes escaped, line breaks as `<br>`, trimmed; a missing cell is empty. */
  function DataCell(c: Cell): string {
    match c
    case None => ""
    case Some(s) => Trim(ReplaceChar(Escaped(s), '\n', "<br>"))
  }

  function TableLine(cells: seq<string>): string {
    "| " + Join(cells, " | ") + " |"
  }

  function HeaderCells(row: Row, maxCols: nat): (r: seq<string>)
    ensures |r| == maxCols
  {
    seq(maxCols, i requires 0 <= i < maxCols => HeaderCell(CellAt(row, i)))
  }

  function DataCells(row: Row, maxCols: nat): (r: seq<string>)
    ensures |r| == maxCols
  {
    seq(maxCols, i requires 0 <= i < maxCols => DataCell(CellAt(row, i)))
  }

  function SeparatorCells(maxCols: nat): (r: seq<string>)
    ensures |r| == maxCols
  {
    seq(maxCols, i requires 0 <= i < maxCols => "---")
  }

  /** The text one data row contributes; a row of length zero is skipped. */
  function DataLine(row: Row, maxCols: nat): string {
    if row == [] then "" else TableLine(DataCells(row, maxCols)) + "\n"
  }

  function DataLines(rows: seq<Row>, maxCols: nat): string {
    if rows == [] then ""
    else DataLines(rows[..|rows| - 1], maxCols) + DataLine(rows[|rows| - 1], maxCols)
  }

  /** The text one sheet contributes: nothing for an empty sheet, no table when every row is empty. */
  function SheetMarkdown(sheet: Sheet): string {
    var rows := sheet.rows;
    if rows == [] then ""
    else
      var maxCols := MaxCols(rows);
      "### ARKUSZ: " + sheet.name + "\n\n"
      + (if maxCols > 0 then
           TableLine(HeaderCells(rows[0], maxCols)) + "\n" + TableLine(SeparatorCells(maxCols)) + "\n"
           + DataLines(rows[1..], maxCols) + "\n"
         else "")
  }

  function SheetsMarkdown(sheets: seq<Sheet>): string {
    if sheets == [] then ""
    else SheetsMarkdown(sheets[..|sheets| - 1]) + SheetMarkdown(sheets[|sheets| - 1])
  }

  function ChartWarning(count: nat): string {
    if count > 0 then
      "\n\n> [SYSTEM WARNING]: Wykryto " + Decimal(count)
      + " natywnych wykresów Excel, które nie są widoczne w tekście. Sprawdź załączniki.\n"
    else ""
  }

  /** Only an .xlsx file is opened as an archive for its images and charts. */
  predicate IsXlsx(fileName: string) {
    EndsWith(Lower(fileName), ".xlsx")
  }

  function WorkbookMarkdown(fileName: string, book: Workbook): string {
    "[ARKUSZ KALKULACYJNY: " + fileName + "]\n\n" + SheetsMarkdown(book.sheets)
    + ChartWarning(if IsXlsx(fileName) then book.chartCount else 0)
  }

  /** The first pass over the rows: the width of the widest one. */
  method ColumnCount(rows: seq<Row>) returns (maxCols: nat)
    ensures maxCols == MaxCols(rows)
  {
    maxCols := 0;
    var r := 0;
    while r < |rows|
      invariant 0 <= r <= |rows|
      invariant maxCols == MaxCols(rows[..r])
    {
      assert rows[..r + 1][..r] == rows[..r];
      if |rows[r]| > maxCols {
        maxCols := |rows[r]|;
      }
      r := r + 1;
    }
    assert rows[..r] == rows;
  }

  /** The data lines: one per row after the first, rows of length zero skipped. */
  method DataRowsToMarkdown(rows: seq<Row>, maxCols: nat) returns (lines: string)
    requires rows != []
    ensures lines == DataLines(rows[1..], maxCols)
  {
    lines := "";
    var i := 1;
    while i < |rows|
      invariant 1 <= i <= |rows|
      invariant lines == DataLines(rows[1..i], maxCols)
    {
      var row := rows[i];
      ghost var next := rows[1..i + 1];
      assert next[..|next| - 1] == rows[1..i] && next[|next| - 1] == row;
      assert DataLines(next, maxCols) == lines + DataLine(row, maxCols);
      if |row| != 0 {
        var rowString := TableLine(DataCells(row, maxCols));
        lines := lines + (rowString + "\n");
      }
      i := i + 1;
    }
    assert rows[1..i] == rows[1..];
  }

  /** The Markdown table of one sheet, built as the KnowledgeBase screen builds it. */
  method SheetToMarkdown(sheet: Sheet) returns (text: string)
    ensures text == SheetMarkdown(sheet)
  {
    var jsonData := sheet.rows;
    text := "";
    if |jsonData| > 0 {
      var maxCols := ColumnCount(jsonData);
      if maxCols > 0 {
        var headerString := TableLine(HeaderCells(jsonData[0], maxCols));
        var separatorString := TableLine(SeparatorCells(maxCols));
        var lines := DataRowsToMarkdown(jsonData, maxCols);
        text := "### ARKUSZ: " + sheet.name + "\n\n" + (headerString + "\n" + separatorString + "\n" + lines + "\n");
      } else {
        text := "### ARKUSZ: " + sheet.name + "\n\n" + "";
      }
    }
  }

  /** The sheet sections, sheet after sheet. */
  method SheetsToMarkdown(sheets: seq<Sheet>) returns (text: string)
    ensures text == SheetsMarkdown(sheets)
  {
    text := "";
    var s := 0;
    while s < |sheets|
      invariant 0 <= s <= |sheets|
      invariant text == SheetsMarkdown(sheets[..s])
    {
      assert sheets[..s + 1][..s] == sheets[..s];
      var section := SheetToMarkdown(sheets[s]);
      text := text + section;
      s := s + 1;
    }
    assert sheets[..s] == sheets;
  }

  /** The text of the whole workbook and the images found beside it. */
  method SpreadsheetText(fileName: string, book: Workbook) returns (text: string, images: seq<string>)
    ensures text == WorkbookMarkdown(fileName, book)
    ensures images == if IsXlsx(fileName) then book.media else []
  {
    var sections := SheetsToMarkdown(book.sheets);
    images := [];
    var nativeChartsCount := 0;
    if IsXlsx(fileName) {
      images := book.media;
      nativeChartsCount := book.chartCount;
    }
    text := "[ARKUSZ KALKULACYJNY: " + fileName + "]\n\n" + sections + ChartWarning(nativeChartsCount);
  }

  /** Joining cells that hold no `c` with a separator holding `c` once gives one `c` per gap. */
  lemma {:induction false} JoinCount(cells: seq<string>, sep: string, c: char)
    requires cells != [] && CountChar(sep, c) == 1
    requires forall k :: 0 <= k < |cells| ==> c !in cells[k]
    ensures CountChar(Join(cells, sep), c) == |cells| - 1
  {
    if |cells| == 1 {
      CountCharAbsent(cells[0], c);
    } else {
      JoinCount(cells[1..], sep, c);
      CountCharAbsent(cells[0], c);
      CountCharAppend(cells[0], sep, c);
      CountCharAppend(cells[0] + sep, Join(cells[1..], sep), c);
    }
  }

  /** Joining cells that hold no `c` with a separator without `c` gives no `c`. */
  lemma {:induction false} JoinAvoids(cells: seq<string>, sep: string, c: char)
    requires c !in sep
    requires forall k :: 0 <= k < |cells| ==> c !in cells[k]
    ensures c !in Join(cells, sep)
  {
    if |cells| > 1 {
      JoinAvoids(cells[1..], sep, c);
    }
  }

  /** A table line of n pipe-free cells holds exactly n + 1 pipes: it has n columns. */
  lemma TableLineColumns(cells: seq<string>)
    requires cells != []
    requires forall k :: 0 <= k < |cells| ==> '|' !in cells[k]
    ensures CountChar(TableLine(cells), '|') == |cells| + 1
  {
    JoinCount(cells, " | ", '|');
    CountCharAppend("| ", Join(cells, " | "), '|');
    CountCharAppend("| " + Join(cells, " | "), " |", '|');
  }

  lemma EscapedHasNoPipe(s: string)
    ensures '|' !in Escaped(s)
  {
  }

  lemma TrimAvoids(s: string, c: char)
    requires c !in s
    ensures c !in Trim(s)
  {
    if c in Trim(s) {
      TrimChars(s, c);
    }
  }

  /** Cells never hold a raw pipe, and data cells never hold a line break. */
  lemma CellsAreClean(c: Cell)
    ensures '|' !in HeaderCell(c) && '|' !in DataCell(c) && '\n' !in DataCell(c)
  {
    if c.Some? {
      EscapedHasNoPipe(c.value);
      TrimAvoids(Escaped(c.value), '|');
      var broken := ReplaceChar(Escaped(c.value), '\n', "<br>");
      assert '|' !in broken;
      assert '\n' !in broken;
      TrimAvoids(broken, '|');
      TrimAvoids(broken, '\n');
    }
  }

  /** The header, the separator and every data line of a table have exactly maxCols columns. */
  lemma TableLinesHaveMaxColsColumns(row: Row, maxCols: nat)
    requires maxCols > 0
    ensures CountChar(TableLine(HeaderCells(row, maxCols)), '|') == maxCols + 1
    ensures CountChar(TableLine(SeparatorCells(maxCols)), '|') == maxCols + 1
    ensures CountChar(TableLine(DataCells(row, maxCols)), '|') == maxCols + 1
  {
    forall k | 0 <= k < maxCols
      ensures '|' !in HeaderCells(row, maxCols)[k] && '|' !in DataCells(row, maxCols)[k]
    {
      CellsAreClean(CellAt(row, k));
    }
    TableLineColumns(HeaderCells(row, maxCols));
    TableLineColumns(SeparatorCells(maxCols));
    TableLineColumns(DataCells(row, maxCols));
  }

  /** The rows of a sheet that are not of length zero. */
  function NonEmptyRows(rows: seq<Row>): nat {
    if rows == [] then 0 else NonEmptyRows(rows[..|rows| - 1]) + (if rows[|rows| - 1] == [] then 0 else 1)
  }

  /** One data line per data row of non-zero length: zero-length rows are skipped. */
  lemma {:induction false} DataLineCount(rows: seq<Row>, maxCols: nat)
    ensures CountChar(DataLines(rows, maxCols), '\n') == NonEmptyRows(rows)
  {
    if rows != [] {
      var last := rows[|rows| - 1];
      DataLineCount(rows[..|rows| - 1], maxCols);
      CountCharAppend(DataLines(rows[..|rows| - 1], maxCols), DataLine(last, maxCols), '\n');
      if last != [] {
        var cells := DataCells(last, maxCols);
        forall k | 0 <= k < |cells| ensures '\n' !in cells[k] {
          CellsAreClean(CellAt(last, k));
        }
        JoinAvoids(cells, " | ", '\n');
        CountCharAbsent(TableLine(cells), '\n');
        CountCharAppend(TableLine(cells), "\n", '\n');
      } else {
        assert DataLine(last, maxCols) == "";
      }
    }
  }

  // ---------------------------------------------------------------------
  // Routing an uploaded file
  // ---------------------------------------------------------------------

  datatype FileKind = PdfFile | DocxFile | LegacyDocFile | SpreadsheetFile | ImageFile | VideoFile | TextFile

  /** The branch of processFile that handles a file, tested in processFile's order. */
  function Route(mime: string, fileName: string): FileKind {
    var nameLower := Lower(fileName);
    if mime == "application/pdf" then PdfFile
    else if Contains(mime, "word") || EndsWith(nameLower, ".docx") then DocxFile
    else if EndsWith(nameLower, ".doc") || mime == "application/msword" then LegacyDocFile
    else if EndsWith(nameLower, ".xlsx") || EndsWith(nameLower, ".xls") then SpreadsheetFile
    else if StartsWith(mime, "image/") then ImageFile
    else if StartsWith(mime, "video/") then VideoFile
    else TextFile
  }

  const MswordMime: string := "application/msword"

  lemma MswordContainsWord()
    ensures Contains(MswordMime, "word")
  {
    assert OccursAt(MswordMime, "word", 14);
  }

  /** The Word MIME type of a legacy .doc file is caught by the DOCX test first. */
  lemma MswordTakesDocxBranch(fileName: string)
    ensures Route(MswordMime, fileName) == DocxFile
  {
    MswordContainsWord();
  }

  /** The legacy .doc branch is reached only through the file name. */
  lemma LegacyDocOnlyByName(mime: string, fileName: string)
    ensures Route(mime, fileName) == LegacyDocFile <==>
              mime != "application/pdf" && !Contains(mime, "word")
              && !EndsWith(Lower(fileName), ".docx") && EndsWith(Lower(fileName), ".doc")
  {
    if mime == MswordMime {
      MswordContainsWord();
    }
  }

  // ---------------------------------------------------------------------
  // processFile
  // ---------------------------------------------------------------------

  datatype FileInfo = FileInfo(name: string, mime: string, size: nat)

  /**
   * What the file's extractor gives: its text and images, or the message
   * of the error it throws.  For a PDF, a DOCX and a legacy .doc it is the
   * extractor's result; for an image or a video, the media analysis text;
   * for any other file, what the text reader gives (`Threw` when it fails).
   */
  datatype LibraryResult = Read(text: string, images: seq<string>) | Threw(message: string)

  const VideoLimit: nat := 25 * 1024 * 1024

  /** The form fields processFile leaves behind. */
  datatype Upload = Upload(title: string, content: string, images: seq<string>, error: bool, duplicate: bool,
                           mediaUrl: string, mediaType: Option<MediaKind>)

  /** `file.name.split('.')[0]` */
  function AutoTitle(fileName: string): string {
    Split(fileName, '.')[0]
  }

  /** The outcome of the `try` block before the blank-text check. */
  datatype Attempt =
    | Done(text: string, images: seq<string>, readError: bool, mediaUrl: string, mediaType: Option<MediaKind>)
    | Failed(message: string, mediaUrl: string, mediaType: Option<MediaKind>)

  /**
   * The branches of the `try` block.  For an image, a video and any other
   * file a `Threw` library result cannot arise: analyzeMediaContent catches
   * its own errors and answers with a text, and a FileReader promise is
   * never rejected (on a read error it stays pending).  Those `Threw` arms
   * follow the code as written, the inner `catch` of the text branch
   * included, but no run reaches them.
   */
  function Attempted(file: FileInfo, library: LibraryResult, book: Option<Workbook>, objectUrl: string): Attempt {
    match Route(file.mime, file.name)
    case PdfFile =>
      if library.Threw? then Failed(library.message, "", None) else Done(library.text, [], false, "", None)
    case DocxFile =>
      if library.Threw? then Failed(library.message, "", None) else Done(library.text, library.images, false, "", None)
    case LegacyDocFile =>
      if library.Threw? then Failed(library.message, "", None) else Done(library.text, [], false, "", None)
    case SpreadsheetFile =>
      if book.None? then Failed("Błąd parsowania Excel", "", None)
      else Done(WorkbookMarkdown(file.name, book.value), if IsXlsx(file.name) then book.value.media else [], false, "", None)
    case ImageFile =>
      if library.Threw? then Failed(library.message, objectUrl, Some(Image))
      else Done("[OBRAZ GŁÓWNY: " + file.name + "]\n" + library.text, [], false, objectUrl, Some(Image))
    case VideoFile =>
      if file.size > VideoLimit then Failed("Video > 25MB", "", None)
      else if library.Threw? then Failed(library.message, objectUrl, Some(Video))
      else Done("[WIDEO: " + file.name + "]\n" + library.text, [], false, objectUrl, Some(Video))
    case TextFile =>
      if library.Threw? then Done(UnknownFormatText, [], true, "", None)
      else Done(library.text, [], false, "", None)
  }

  /**
   * The `try` block of processFile up to the blank-text check: the file's
   * branch runs its extractor, and an error it throws ends the block.
   */
  method Extract(file: FileInfo, library: LibraryResult, book: Option<Workbook>, objectUrl: string)
    returns (a: Attempt)
    ensures a == Attempted(file, library, book, objectUrl)
  {
    match Route(file.mime, file.name)
    case PdfFile =>
      a := if library.Threw? then Failed(library.message, "", None) else Done(library.text, [], false, "", None);
    case DocxFile =>
      a := if library.Threw? then Failed(library.message, "", None) else Done(library.text, library.images, false, "", None);
    case LegacyDocFile =>
      a := if library.Threw? then Failed(library.message, "", None) else Done(library.text, [], false, "", None);
    case SpreadsheetFile =>
      if book.None? {
        a := Failed("Błąd parsowania Excel", "", None);
      } else {
        var text, images := SpreadsheetText(file.name, book.value);
        a := Done(text, images, false, "", None);
      }
    case ImageFile =>
      a := if library.Threw? then Failed(library.message, objectUrl, Some(Image))
           else Done("[OBRAZ GŁÓWNY: " + file.name + "]\n" + library.text, [], false, objectUrl, Some(Image));
    case VideoFile =>
      if file.size > VideoLimit {
        a := Failed("Video > 25MB", "", None);
      } else {
        a := if library.Threw? then Failed(library.message, objectUrl, Some(Video))
             else Done("[WIDEO: " + file.name + "]\n" + library.text, [], false, objectUrl, Some(Video));
      }
    case TextFile =>
      a := if library.Threw? then Done(UnknownFormatText, [], true, "", None) else Done(library.text, [], false, "", None);
  }

  const EmptyFileText: string := "[ERROR] Pusty plik."

  const UnknownFormatText: string := "[ERROR] Nieznany format."

  /** Text that starts with a visible character is not blank. */
  lemma NotBlank(s: string)
    requires s != [] && !IsWhitespace(s[0])
    ensures Trim(s) != ""
  {
  }

  /** The form state processFile leaves: the title from the file name, the text or the error. */
  function Uploaded(docs: seq<KnowledgeDoc>, file: FileInfo, library: LibraryResult, book: Option<Workbook>,
                    objectUrl: string): Upload {
    var title := AutoTitle(file.name);
    Settled(title, NameTaken(docs, title), Attempted(file, library, book, objectUrl))
  }

  /** processFile's duplicate test: the lower-cased title, without trimming. */
  predicate NameTaken(docs: seq<KnowledgeDoc>, title: string) {
    exists k | 0 <= k < |docs| :: Lower(docs[k].title) == Lower(title)
  }

  /** The end of processFile: a thrown error, an empty text, or the text and images found. */
  function Settled(title: string, duplicate: bool, a: Attempt): Upload {
    match a
    case Failed(message, url, kind) => Upload(title, "Błąd: " + message, [], true, duplicate, url, kind)
    case Done(text, images, readError, url, kind) =>
      if Trim(text) == "" && !readError then Upload(title, EmptyFileText, images, true, duplicate, url, kind)
      else Upload(title, text, images, readError, duplicate, url, kind)
  }

  /** Only the text branch's failed read sets the error flag without throwing, and with a fixed message. */
  lemma ReadErrorIsUnknownFormat(file: FileInfo, library: LibraryResult, book: Option<Workbook>, objectUrl: string)
    ensures var a := Attempted(file, library, book, objectUrl);
            a.Done? && a.readError ==> a.text == UnknownFormatText
  {
  }

  /** Without the error flag, the form always holds non-blank text. */
  lemma UploadWithoutErrorHasText(docs: seq<KnowledgeDoc>, file: FileInfo, library: LibraryResult,
                                  book: Option<Workbook>, objectUrl: string)
    ensures var u := Uploaded(docs, file, library, book, objectUrl);
            !u.error ==> Trim(u.content) != ""
  {
    var title := AutoTitle(file.name);
    SettledWithoutErrorHasText(title, NameTaken(docs, title), Attempted(file, library, book, objectUrl));
  }

  /** Whatever the extractor produced, a settled form without the error flag holds non-blank text. */
  lemma SettledWithoutErrorHasText(title: string, duplicate: bool, a: Attempt)
    ensures var u := Settled(title, duplicate, a);
            !u.error ==> Trim(u.content) != ""
  {
  }

  /** Extracted text that is blank sets the error flag and the empty-file message. */
  lemma BlankExtractionIsError(docs: seq<KnowledgeDoc>, file: FileInfo, library: LibraryResult,
                               book: Option<Workbook>, objectUrl: string)
    requires Attempted(file, library, book, objectUrl).Done?
    requires Trim(Attempted(file, library, book, objectUrl).text) == ""
    ensures var u := Uploaded(docs, file, library, book, objectUrl);
            u.error && u.content == EmptyFileText
  {
    ReadErrorIsUnknownFormat(file, library, book, objectUrl);
    NotBlank(UnknownFormatText);
  }

  /** A video over 25 MB is refused before it is read, with no media kept. */
  lemma LargeVideoRefused(docs: seq<KnowledgeDoc>, file: FileInfo, library: LibraryResult,
                          book: Option<Workbook>, objectUrl: string)
    requires Route(file.mime, file.name) == VideoFile && file.size > VideoLimit
    ensures var u := Uploaded(docs, file, library, book, objectUrl);
            u.error && u.content == "Błąd: Video > 25MB" && u.mediaUrl == "" && u.mediaType.None?
  {
  }

  /** A readable spreadsheet's text is the Markdown of its sheets. */
  lemma SpreadsheetUploadIsMarkdown(docs: seq<KnowledgeDoc>, file: FileInfo, library: LibraryResult,
                                    book: Workbook, objectUrl: string)
    requires Route(file.mime, file.name) == SpreadsheetFile
    ensures var u := Uploaded(docs, file, library, Some(book), objectUrl);
            !u.error && u.content == WorkbookMarkdown(file.name, book)
  {
    var text := WorkbookMarkdown(file.name, book);
    assert text[0] == '[';
    NotBlank(text);
  }

  // ---------------------------------------------------------------------
  // Titles in the store
  // ---------------------------------------------------------------------

  /** `d.title.trim().toLowerCase()`, the key the duplicate check compares. */
  function TitleKey(title: string): string {
    Lower(Trim(title))
  }

  predicate TitleTaken(docs: seq<KnowledgeDoc>, title: string) {
    exists k | 0 <= k < |docs| :: TitleKey(docs[k].title) == TitleKey(title)
  }

  /** The key of a stored document's title. */
  function DocKey(d: KnowledgeDoc): string {
    TitleKey(d.title)
  }

  /** No two elements share a key. */
  ghost predicate DistinctBy<T>(xs: seq<T>, key: T -> string) {
    forall j, k :: 0 <= j < k < |xs| ==> key(xs[j]) != key(xs[k])
  }

  ghost predicate DistinctTitles(docs: seq<KnowledgeDoc>) {
    DistinctBy(docs, DocKey)
  }

  /** Putting an element whose key no element has in front keeps the keys distinct. */
  lemma PrependKeepsDistinct<T>(xs: seq<T>, x: T, key: T -> string)
    requires DistinctBy(xs, key)
    requires forall k :: 0 <= k < |xs| ==> key(xs[k]) != key(x)
    ensures DistinctBy([x] + xs, key)
  {
    var s := [x] + xs;
    forall j, k | 0 <= j < k < |s| ensures key(s[j]) != key(s[k]) {
      assert s[k] == xs[k - 1];
      if j > 0 {
        assert s[j] == xs[j - 1];
      }
    }
  }

  /**
   * A document stored under the trimmed form of a title that is not taken
   * keeps the titles of the store distinct.
   */
  lemma AddingFreshTitleKeepsDistinct(docs: seq<KnowledgeDoc>, title: string, doc: KnowledgeDoc)
    requires DistinctTitles(docs) && !TitleTaken(docs, title)
    requires doc.title == Trim(title)
    ensures DistinctTitles([doc] + docs)
  {
    TrimIdempotent(title);
    assert DocKey(doc) == TitleKey(title);
    PrependKeepsDistinct(docs, doc, DocKey);
  }

  // ---------------------------------------------------------------------
  // The component
  // ---------------------------------------------------------------------

  /** The fields of the upload form, taken together. */
  datatype Form = Form(title: string, category: Category, content: string, fileName: string,
                       extractionError: bool, duplicateError: bool, mediaUrl: string,
                       mediaType: Option<MediaKind>, images: seq<string>, isOpen: bool)

  class KnowledgeBaseView {
    const engine: RagEngine
    var docs: seq<KnowledgeDoc>
    var filters: Filters
    var newTitle: string
    var newCategory: Category
    var newContent: string
    var fileName: string
    var extractionError: bool
    var duplicateError: bool
    var tempMediaUrl: string
    var tempMediaType: Option<MediaKind>
    var attachedImages: seq<string>
    var isFormOpen: bool

    /** The component after its mount effect has read the store. */
    constructor (engine: RagEngine)
      ensures this.engine == engine && docs == engine.knowledgeBase && filters == NoFilters
      ensures newTitle == "" && newContent == "" && !extractionError && !duplicateError
      ensures tempMediaUrl == "" && tempMediaType.None? && attachedImages == [] && !isFormOpen
    {
      this.engine := engine;
      docs := engine.knowledgeBase;
      filters := NoFilters;
      newTitle := "";
      newCategory := Safety;
      newContent := "";
      fileName := "";
      extractionError := false;
      duplicateError := false;
      tempMediaUrl := "";
      tempMediaType := None;
      attachedImages := [];
      isFormOpen := false;
    }

    /** The list the filter effect shows. */
    function FilteredDocs(): seq<KnowledgeDoc>
      reads this
    {
      Visible(docs, filters)
    }

    /** The form's fields. */
    function FormFields(): Form
      reads this
    {
      Form(newTitle, newCategory, newContent, fileName, extractionError, duplicateError,
           tempMediaUrl, tempMediaType, attachedImages, isFormOpen)
    }

    /** resetFilters: the four filters are cleared; the form and the list are kept. */
    method ResetFilters()
      modifies this
      ensures filters == NoFilters && ActiveFiltersCount(filters) == 0 && FilteredDocs() == docs
      ensures docs == old(docs) && FormFields() == old(FormFields())
    {
      filters := NoFilters;
    }

    /** handleTitleChange: a new title clears the duplicate warning. */
    method HandleTitleChange(val: string)
      modifies this
      ensures newTitle == val && !duplicateError
      ensures FormFields() == old(FormFields()).(title := val, duplicateError := false)
      ensures docs == old(docs) && filters == old(filters)
    {
      newTitle := val;
      if duplicateError {
        duplicateError := false;
      }
    }

    /**
     * processFile: the form is cleared, the title taken from the file
     * name, the file routed to its extractor, and the text or the error
     * stored.  `objectUrl` is what URL.createObjectURL gives.
     */
    method ProcessFile(file: FileInfo, library: LibraryResult, book: Option<Workbook>, objectUrl: string)
      modifies this
      ensures var u := Uploaded(old(docs), file, library, book, objectUrl);
              FormFields() == old(FormFields()).(title := u.title, content := u.content, fileName := file.name,
                                                 extractionError := u.error, duplicateError := u.duplicate,
                                                 mediaUrl := u.mediaUrl, mediaType := u.mediaType, images := u.images)
      ensures docs == old(docs) && filters == old(filters)
    {
      BeginUpload(file.name);
      var attempt := Extract(file, library, book, objectUrl);
      SettleUpload(attempt);
    }

    /** The start of processFile: the form cleared, the title taken from the file name and checked. */
    method BeginUpload(name: string)
      modifies this
      ensures newTitle == AutoTitle(name) && duplicateError == NameTaken(docs, newTitle)
      ensures FormFields() == old(FormFields()).(title := AutoTitle(name), fileName := name, extractionError := false,
                                                 duplicateError := NameTaken(docs, AutoTitle(name)),
                                                 mediaUrl := "", mediaType := None, images := [])
      ensures docs == old(docs) && filters == old(filters)
    {
      extractionError := false;
      duplicateError := false;
      fileName := name;
      tempMediaUrl := "";
      tempMediaType := None;
      attachedImages := [];
      var autoTitle := AutoTitle(name);
      newTitle := autoTitle;
      if NameTaken(docs, autoTitle) {
        duplicateError := true;
      }
    }

    /** The end of processFile: the extractor's outcome fills the form. */
    method SettleUpload(attempt: Attempt)
      modifies this
      ensures var u := Settled(old(newTitle), old(duplicateError), attempt);
              FormFields() == old(FormFields()).(title := u.title, content := u.content, extractionError := u.error,
                                                 duplicateError := u.duplicate, mediaUrl := u.mediaUrl,
                                                 mediaType := u.mediaType, images := u.images)
      ensures docs == old(docs) && filters == old(filters)
    {
      tempMediaUrl := attempt.mediaUrl;
      tempMediaType := attempt.mediaType;
      match attempt
      case Failed(message, _, _) =>
        newContent := "Błąd: " + message;
        attachedImages := [];
        extractionError := true;
      case Done(text, images, readError, _, _) =>
        var extractedText := text;
        extractionError := readError;
        if Trim(extractedText) == "" && !extractionError {
          extractionError := true;
          extractedText := EmptyFileText;
        }
        newContent := extractedText;
        attachedImages := images;
    }

    /** removeAttachedImage */
    method RemoveAttachedImage(index: int)
      modifies this
      ensures attachedImages == RemoveIndex(old(attachedImages), index)
      ensures FormFields() == old(FormFields()).(images := RemoveIndex(old(attachedImages), index))
      ensures docs == old(docs) && filters == old(filters)
    {
      attachedImages := RemoveIndex(attachedImages, index);
    }

    /**
     * handleAddDocument: nothing happens without a title and a text or
     * after an extraction error; a title already in the list only raises
     * the duplicate warning; otherwise the document, under the trimmed
     * title and a clock-derived id, goes to the head of the store and the
     * form is cleared.  `now` is Date.now() and `isoNow` the ISO date-time.
     */
    method HandleAddDocument(now: nat, isoNow: string)
      modifies this, engine
      ensures old(newTitle == "" || newContent == "" || extractionError) ==>
                engine.knowledgeBase == old(engine.knowledgeBase) && docs == old(docs)
                && FormFields() == old(FormFields())
      ensures old(newTitle != "" && newContent != "" && !extractionError && TitleTaken(docs, newTitle)) ==>
                engine.knowledgeBase == old(engine.knowledgeBase) && docs == old(docs)
                && FormFields() == old(FormFields()).(duplicateError := true)
      ensures old(newTitle != "" && newContent != "" && !extractionError && !TitleTaken(docs, newTitle)) ==>
                engine.knowledgeBase == [NewDocument(now, isoNow, old(newTitle), old(newCategory), old(newContent),
                                                     old(tempMediaUrl), old(tempMediaType), old(attachedImages))]
                                        + old(engine.knowledgeBase)
                && docs == engine.knowledgeBase && FormFields() == ClearedForm(old(newCategory))
      ensures old(docs == engine.knowledgeBase && DistinctTitles(docs)) ==> DistinctTitles(engine.knowledgeBase)
      ensures filters == old(filters)
      ensures engine.tickets == old(engine.tickets) && engine.chatStore == old(engine.chatStore)
      ensures engine.sessionOpen == old(engine.sessionOpen) && engine.sessionHistory == old(engine.sessionHistory)
    {
      if newTitle == "" || newContent == "" || extractionError {
        return;
      }
      if TitleTaken(docs, newTitle) {
        duplicateError := true;
        return;
      }
      var newDoc := NewDocument(now, isoNow, newTitle, newCategory, newContent, tempMediaUrl, tempMediaType, attachedImages);
      if docs == engine.knowledgeBase && DistinctTitles(docs) {
        AddingFreshTitleKeepsDistinct(docs, newTitle, newDoc);
      }
      StoreDocument(newDoc);
    }

    /** The success path of handleAddDocument: the store gains the document, the list is re-read, the form cleared. */
    method StoreDocument(newDoc: KnowledgeDoc)
      modifies this, engine
      ensures engine.knowledgeBase == [newDoc] + old(engine.knowledgeBase) && docs == engine.knowledgeBase
      ensures FormFields() == ClearedForm(old(newCategory)) && filters == old(filters)
      ensures engine.tickets == old(engine.tickets) && engine.chatStore == old(engine.chatStore)
      ensures engine.sessionOpen == old(engine.sessionOpen) && engine.sessionHistory == old(engine.sessionHistory)
    {
      engine.AddDocument(newDoc);
      docs := engine.knowledgeBase;
      newTitle := "";
      newContent := "";
      fileName := "";
      tempMediaUrl := "";
      tempMediaType := None;
      attachedImages := [];
      isFormOpen := false;
      extractionError := false;
      duplicateError := false;
    }

    /** handleDeleteDocument: the store loses the documents with that id, and the list is re-read. */
    method HandleDeleteDocument(id: string)
      modifies this, engine
      ensures engine.knowledgeBase == WithoutId(old(engine.knowledgeBase), id) && docs == engine.knowledgeBase
      ensures FormFields() == old(FormFields()) && filters == old(filters)
      ensures engine.tickets == old(engine.tickets) && engine.chatStore == old(engine.chatStore)
      ensures engine.sessionOpen == old(engine.sessionOpen) && engine.sessionHistory == old(engine.sessionHistory)
    {
      engine.RemoveDocument(id);
      docs := engine.knowledgeBase;
    }
  }

  /**
   * The form after a document is stored: every field empty and the form
   * closed; the category select keeps its value.
   */
  function ClearedForm(category: Category): (f: Form)
    ensures f.title == "" && f.content == "" && f.fileName == "" && f.mediaUrl == "" && f.mediaType.None?
    ensures f.images == [] && !f.isOpen && !f.extractionError && !f.duplicateError && f.category == category
  {
    Form("", category, "", "", false, false, "", None, [], false)
  }

  /**
   * `doc-${Date.now().toString().slice(-4)}`: "doc-" and at most four
   * digits, the clock's last ones, exactly four once it reaches 1000.
   */
  function DocId(now: nat): (id: string)
    ensures StartsWith(id, "doc-") && |id| <= 8 && (now >= 1000 ==> |id| == 8)
    ensures forall k :: 4 <= k < |id| ==> IsDigit(id[k])
    ensures EndsWith(Decimal(now), id[4..])
  {
    var decimal := Decimal(now);
    var digits := LastChars(decimal, 4);
    var id := "doc-" + digits;
    assert id[..4] == "doc-" && id[4..] == digits;
    assert forall k :: 4 <= k < |id| ==> id[k] == decimal[|decimal| - |digits| + k - 4];
    assert now >= 1000 ==> |decimal| > 3 by {
      if now >= 1000 {
        assert Pow10(3) == 1000;
        DecimalLength(now, 3);
      }
    }
    id
  }

  /** The document handleAddDocument builds from the form. */
  function NewDocument(now: nat, isoNow: string, title: string, category: Category, content: string,
                       mediaUrl: string, mediaType: Option<MediaKind>, images: seq<string>): (d: KnowledgeDoc)
    ensures d.id == DocId(now) && d.title == Trim(title) && d.content == content && d.category == category
    ensures d.mediaUrl == mediaUrl && d.mediaType == mediaType && d.attachedImages == images
    ensures d.lastUpdated == Split(isoNow, 'T')[0]
  {
    KnowledgeDoc(DocId(now), Trim(title), category, content, Split(isoNow, 'T')[0], mediaUrl, mediaType, images)
  }

  /** `xs.filter((_, i) => i !== index)` */
  function RemoveIndex(xs: seq<string>, index: int): (r: seq<string>)
    ensures 0 <= index < |xs| ==> r == xs[..index] + xs[index + 1..]
    ensures !(0 <= index < |xs|) ==> r == xs
  {
    if xs == [] then []
    else
      var rest := RemoveIndex(xs[1..], index - 1);
      assert index == 0 ==> xs[index + 1..] == xs[1..];
      assert index > 0 && index < |xs| ==> xs[..index] == [xs[0]] + xs[1..][..index - 1];
      assert index > 0 && index < |xs| ==> xs[index + 1..] == xs[1..][index..];
      (if index == 0 then [] else [xs[0]]) + rest
  }

  // ---------------------------------------------------------------------
  // The document viewer
  // ---------------------------------------------------------------------

  const CharsPerPage: nat := 3000

  /** `Math.ceil(length / CHARS_PER_PAGE)` */
  function TotalPages(length: nat): (n: nat)
    ensures n * CharsPerPage >= length
    ensures n > 0 ==> (n - 1) * CharsPerPage < length
  {
    (length + CharsPerPage - 1) / CharsPerPage
  }

  /**
   * `content.slice(start, start + CHARS_PER_PAGE)` for a page from 1 on,
   * over the content's UTF-16 code units: a page boundary may fall inside a
   * surrogate pair.
   */
  function PageSlice(content: seq<CodeUnit>, page: nat): (r: seq<CodeUnit>)
    requires page >= 1
    ensures |r| <= CharsPerPage
  {
    var start := (page - 1) * CharsPerPage;
    if start >= |content| then [] else content[start..if start + CharsPerPage < |content| then start + CharsPerPage else |content|]
  }

  function Concat(pages: seq<seq<CodeUnit>>): seq<CodeUnit> {
    if pages == [] then [] else pages[0] + Concat(pages[1..])
  }

  /** Pages `from` to `to` of the content, in order. */
  function PagesBetween(content: seq<CodeUnit>, from: nat, to: nat): seq<seq<CodeUnit>>
    requires from >= 1
    decreases (to as int) - (from as int)
  {
    if from > to then [] else [PageSlice(content, from)] + PagesBetween(content, from + 1, to)
  }

  /** Reading pages `from` to the last one gives the content from where page `from` starts. */
  lemma {:induction false} PagesFromCover(content: seq<CodeUnit>, from: nat)
    requires from >= 1 && (from - 1) * CharsPerPage <= |content|
    ensures Concat(PagesBetween(content, from, TotalPages(|content|))) == content[(from - 1) * CharsPerPage..]
    decreases |content| - (from - 1) * CharsPerPage
  {
    var start := (from - 1) * CharsPerPage;
    var total := TotalPages(|content|);
    if from > total {
      assert start >= |content|;
    } else {
      assert start < |content|;
      if start + CharsPerPage < |content| {
        PagesFromCover(content, from + 1);
        assert content[start..] == content[start..start + CharsPerPage] + content[start + CharsPerPage..];
      } else {
        assert from * CharsPerPage >= |content|;
        assert from + 1 > total;
        assert PagesBetween(content, from + 1, total) == [];
        assert PageSlice(content, from) == content[start..];
      }
    }
  }

  /** The pages, read in order, are the whole content. */
  lemma PagesCoverContent(content: seq<CodeUnit>)
    ensures Concat(PagesBetween(content, 1, TotalPages(|content|))) == content
  {
    PagesFromCover(content, 1);
  }

  /** Every page up to the last holds text; pages after it are empty. */
  lemma PagesAreFilled(content: seq<CodeUnit>, page: nat)
    requires page >= 1
    ensures PageSlice(content, page) != [] <==> page <= TotalPages(|content|)
  {
  }

  /** The PREV button: `Math.max(1, p - 1)` */
  function PrevPage(page: int): int {
    if page - 1 > 1 then page - 1 else 1
  }

  /** The NEXT button: `Math.min(totalPages, p + 1)` */
  function NextPage(page: int, totalPages: int): int {
    if page + 1 < totalPages then page + 1 else totalPages
  }

  /** Both buttons keep the page between 1 and the last page, and PREV undoes NEXT below the last page. */
  lemma PageButtonsStayInRange(page: int, totalPages: int)
    requires 1 <= page <= totalPages
    ensures 1 <= PrevPage(page) <= totalPages && 1 <= NextPage(page, totalPages) <= totalPages
    ensures page < totalPages ==> PrevPage(NextPage(page, totalPages)) == page
    ensures page > 1 ==> NextPage(PrevPage(page), totalPages) == page
  {
  }

  class DocumentViewer {
    const doc: KnowledgeDoc
    var currentPage: int

    ghost predicate Valid()
      reads this
    {
      1 <= currentPage && (currentPage <= TotalPages(|Utf16(doc.content)|) || currentPage == 1)
    }

    constructor (doc: KnowledgeDoc)
      ensures this.doc == doc && currentPage == 1 && Valid()
    {
      this.doc := doc;
      currentPage := 1;
    }

    /** The code units shown for the current page. */
    function CurrentContent(): seq<CodeUnit>
      reads this
      requires Valid()
    {
      PageSlice(Utf16(doc.content), currentPage)
    }

    /** The controls are shown only when there is more than one page. */
    method Prev()
      requires Valid() && TotalPages(|Utf16(doc.content)|) > 1
      modifies this
      ensures Valid() && currentPage == PrevPage(old(currentPage))
    {
      currentPage := PrevPage(currentPage);
    }

    method Next()
      requires Valid() && TotalPages(|Utf16(doc.content)|) > 1
      modifies this
      ensures Valid() && currentPage == NextPage(old(currentPage), TotalPages(|Utf16(doc.content)|))
    {
      currentPage := NextPage(currentPage, TotalPages(|Utf16(doc.content)|));
    }
  }
}
