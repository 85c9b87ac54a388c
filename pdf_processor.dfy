// `PdfPlumberProcessor`: how the pages and tables the PDF library reports are
// shaped into `PageText` and `ExtractedTable` values. Opening the file and the
// library's own text and table detection are not modelled: a document is the
// list of what the library reports for each of its pages.

module PdfProcessor {
  import opened Domain
  import opened Queries

  /** A table as the library reports it: rows of cells, a cell possibly None. */
  type RawTable = seq<seq<Option<string>>>

  /** One page: `page.extract_text()` and `page.extract_tables()`, either possibly None. */
  datatype Page = Page(text: Option<string>, tables: Option<seq<RawTable>>)

  const TableConfidence: real := 0.8

  // ---------------------------------------------------------------------------
  // Text
  // ---------------------------------------------------------------------------

  /** `page.extract_text() or ""`. */
  function TextOf(p: Page): (t: string)
    ensures p.text.Some? ==> t == p.text.value
    ensures p.text.None? ==> t == ""
  {
    if p.text.Some? then p.text.value else ""
  }

  /** `_extract_text_sync`: one entry per page, numbered from 1, with "" for a page without text. */
  method ExtractText(pdf: seq<Page>) returns (pages: seq<PageText>)
    ensures |pages| == |pdf|
    ensures forall i :: 0 <= i < |pdf| ==> pages[i] == PageText(i + 1, TextOf(pdf[i]))
  {
    pages := [];
    for i := 0 to |pdf|
      invariant |pages| == i
      invariant forall k :: 0 <= k < i ==> pages[k] == PageText(k + 1, TextOf(pdf[k]))
    {
      pages := pages + [PageText(i + 1, TextOf(pdf[i]))];
    }
  }

  // ---------------------------------------------------------------------------
  // Tables
  // ---------------------------------------------------------------------------

  /** `str(cell or "")`. */
  function CellText(c: Option<string>): string {
    if c.Some? then c.value else ""
  }

  function RowText(row: seq<Option<string>>): (r: seq<string>)
    ensures |r| == |row|
    ensures forall c :: 0 <= c < |row| ==> r[c] == CellText(row[c])
  {
    seq(|row|, c requires 0 <= c < |row| => CellText(row[c]))
  }

  /**
   * One raw table on page `pageNumber`: skipped when it has fewer than two
   * rows; otherwise the first row is the header and the rest are data rows.
   */
  function ShapeTable(pageNumber: int, raw: RawTable): (r: Option<ExtractedTable>)
    ensures r.None? <==> |raw| < 2
    ensures r.Some? ==>
      && r.value.pageNumber == pageNumber && r.value.confidence == TableConfidence
      && r.value.headers == RowText(raw[0])
      && |r.value.rows| == |raw| - 1
      && forall k :: 0 <= k < |raw| - 1 ==> r.value.rows[k] == RowText(raw[k + 1])
  {
    if |raw| < 2 then None
    else
      Some(ExtractedTable(pageNumber, RowText(raw[0]),
                          seq(|raw| - 1, k requires 0 <= k < |raw| - 1 => RowText(raw[k + 1])),
                          TableConfidence))
  }

  function Shaped(pageNumber: int, raws: seq<RawTable>): (r: seq<Option<ExtractedTable>>)
    ensures |r| == |raws|
    ensures forall j :: 0 <= j < |raws| ==> r[j] == ShapeTable(pageNumber, raws[j])
  {
    seq(|raws|, j requires 0 <= j < |raws| => ShapeTable(pageNumber, raws[j]))
  }

  /** `page.extract_tables() or []`. */
  function RawTablesOf(p: Page): seq<RawTable> {
    if p.tables.Some? then p.tables.value else []
  }

  /** The tables of page number `pageNumber`, in the order the library reports them. */
  function PageTables(pageNumber: int, p: Page): seq<ExtractedTable> {
    Present(Shaped(pageNumber, RawTablesOf(p)))
  }

  /** The tables of the whole document: page by page, then table by table. */
  function TablesOf(pdf: seq<Page>): seq<ExtractedTable>
    decreases |pdf|
  {
    if pdf == [] then []
    else
      var n := |pdf| - 1;
      TablesOf(pdf[..n]) + PageTables(n + 1, pdf[n])
  }

  /** Every table of a page carries that page's number, the default confidence and at least one data row. */
  lemma PageTablesSpec(pageNumber: int, p: Page)
    ensures forall t :: t in PageTables(pageNumber, p) ==>
              t.pageNumber == pageNumber && t.confidence == TableConfidence && |t.rows| >= 1
    ensures |PageTables(pageNumber, p)| <= |RawTablesOf(p)|
  {
    var b := Shaped(pageNumber, RawTablesOf(p));
    PresentMembers(b);
    forall t | t in PageTables(pageNumber, p)
      ensures t.pageNumber == pageNumber && t.confidence == TableConfidence && |t.rows| >= 1
    {
      var j :| 0 <= j < |b| && b[j] == Some(t);
    }
  }

  /**
   * Every table is numbered with a page of the document, has the default
   * confidence and at least one data row, and the tables come in page order.
   */
  lemma {:induction false} TablesOfSpec(pdf: seq<Page>)
    ensures forall k :: 0 <= k < |TablesOf(pdf)| ==>
              && 1 <= TablesOf(pdf)[k].pageNumber <= |pdf|
              && TablesOf(pdf)[k].confidence == TableConfidence
              && |TablesOf(pdf)[k].rows| >= 1
    ensures forall k, l :: 0 <= k < l < |TablesOf(pdf)| ==> TablesOf(pdf)[k].pageNumber <= TablesOf(pdf)[l].pageNumber
    decreases |pdf|
  {
    if pdf != [] {
      var n := |pdf| - 1;
      TablesOfSpec(pdf[..n]);
      var front := TablesOf(pdf[..n]);
      var last := PageTables(n + 1, pdf[n]);
      PageTablesSpec(n + 1, pdf[n]);
      var ts := TablesOf(pdf);
      assert ts == front + last;
      forall k | 0 <= k < |ts|
        ensures 1 <= ts[k].pageNumber <= |pdf| && ts[k].confidence == TableConfidence && |ts[k].rows| >= 1
      {
        if k >= |front| {
          assert ts[k] == last[k - |front|] && ts[k] in last;
          assert ts[k].pageNumber == n + 1;
        } else {
          assert ts[k] == front[k];
          assert 1 <= front[k].pageNumber <= n;
        }
      }
      forall k, l | 0 <= k < l < |ts| ensures ts[k].pageNumber <= ts[l].pageNumber {
        if l >= |front| {
          assert ts[l] == last[l - |front|] && ts[l] in last;
          if k >= |front| {
            assert ts[k] == last[k - |front|] && ts[k] in last;
          } else {
            assert ts[k] == front[k];
          }
        } else {
          assert ts[k] == front[k] && ts[l] == front[l];
        }
      }
    }
  }

  /** The inner loop of `_extract_tables_sync`: the tables of one page, in order. */
  method ExtractPageTables(pageNumber: int, raws: seq<RawTable>) returns (tables: seq<ExtractedTable>)
    ensures tables == Present(Shaped(pageNumber, raws))
  {
    ghost var shaped := Shaped(pageNumber, raws);
    tables := [];
    for j := 0 to |raws|
      invariant tables == Present(shaped[..j])
    {
      PresentSnoc(shaped, j);
      var raw := raws[j];
      if |raw| >= 2 {
        var headers := RowText(raw[0]);
        var rows := seq(|raw| - 1, k requires 0 <= k < |raw| - 1 => RowText(raw[k + 1]));
        tables := tables + [ExtractedTable(pageNumber, headers, rows, TableConfidence)];
      }
    }
    assert shaped[..|raws|] == shaped;
  }

  /** `_extract_tables_sync`: page by page, the tables of each page appended in order. */
  method ExtractTables(pdf: seq<Page>) returns (tables: seq<ExtractedTable>)
    ensures tables == TablesOf(pdf)
  {
    tables := [];
    for i := 0 to |pdf|
      invariant tables == TablesOf(pdf[..i])
    {
      assert pdf[..i + 1][..i] == pdf[..i] && pdf[..i + 1][i] == pdf[i];
      var pageTables := ExtractPageTables(i + 1, RawTablesOf(pdf[i]));
      tables := tables + pageTables;
    }
    assert pdf[..|pdf|] == pdf;
  }
}
