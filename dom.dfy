/** The part of a goquery document the scrapers look at. A table is a sequence of
    rows, a row the sequence of its `td` cells, and a cell carries what the code
    asks of it: its text, its `a` elements, the text of its `b` and `font`
    children, the title of its first `div`, its inner HTML and the tables nested
    inside it. The description cell of the details page is read after
    `.After("center")` has moved the document's `center` elements behind it; its
    `html` is the cell's inner HTML as it stands after that move. The selection rules of goquery (Eq past the end is empty, First of an
    empty selection is empty, Text of an empty selection is "") are stated here once. */
module Dom {
  import opened Wrappers

  datatype Anchor = Anchor(href: Option<string>, title: Option<string>, text: string)

  datatype Cell = Cell(
    text: string,
    anchors: seq<Anchor>,
    bold: string,
    font: string,
    divTitle: Option<string>,
    html: string,
    tables: seq<Table>)

  datatype Row = Row(cells: seq<Cell>)

  datatype Table = Table(rows: seq<Row>)

  const EmptyCell := Cell("", [], "", "", None, "", [])

  /** tds.Eq(i): the i-th cell, or an empty selection. */
  function CellAt(cells: seq<Cell>, i: int): (c: Cell)
    ensures 0 <= i < |cells| ==> c == cells[i]
    ensures !(0 <= i < |cells|) ==> c == EmptyCell
  {
    if 0 <= i < |cells| then cells[i] else EmptyCell
  }

  /** trs.Eq(i): the i-th row, or a row without cells. */
  function RowAt(rows: seq<Row>, i: int): (r: Row)
    ensures 0 <= i < |rows| ==> r == rows[i]
    ensures !(0 <= i < |rows|) ==> r.cells == []
  {
    if 0 <= i < |rows| then rows[i] else Row([])
  }

  /** getSecondTd(trs, n): cell 1 of row n. */
  function SecondTd(rows: seq<Row>, n: int): Cell
  {
    CellAt(RowAt(rows, n).cells, 1)
  }

  /** Find("a").First(): the first anchor, if any. */
  function FirstAnchor(c: Cell): (a: Option<Anchor>)
    ensures a.Some? <==> |c.anchors| > 0
    ensures a.Some? ==> a.value == c.anchors[0]
  {
    if |c.anchors| > 0 then Some(c.anchors[0]) else None
  }

  /** Find("a").First().Attr("href"). */
  function FirstHref(c: Cell): (h: Option<string>)
    ensures h.Some? ==> |c.anchors| > 0 && h == c.anchors[0].href
  {
    if |c.anchors| > 0 then c.anchors[0].href else None
  }

  /** Find("a").First().Text(). */
  function FirstAnchorText(c: Cell): string
  {
    if |c.anchors| > 0 then c.anchors[0].text else ""
  }

  /** Find("a").Text(): the texts of all anchors, one after the other. */
  function AnchorsText(anchors: seq<Anchor>): string
  {
    if |anchors| == 0 then "" else anchors[0].text + AnchorsText(anchors[1..])
  }

  /** The rows of all tables nested in a cell, as Find("table").Find("tr") lists them. */
  function NestedRows(tables: seq<Table>): seq<Row>
  {
    if |tables| == 0 then [] else tables[0].rows + NestedRows(tables[1..])
  }

  /** Find("td a").Attr("href") on a row: the href of the first anchor of any cell. */
  function RowHref(cells: seq<Cell>): Option<string>
  {
    if |cells| == 0 then None
    else if |cells[0].anchors| > 0 then cells[0].anchors[0].href
    else RowHref(cells[1..])
  }

  /** Find("td").First().Text() on a table: the text of its first cell. */
  function FirstTdText(rows: seq<Row>): string
  {
    if |rows| == 0 then ""
    else if |rows[0].cells| > 0 then rows[0].cells[0].text
    else FirstTdText(rows[1..])
  }
}
