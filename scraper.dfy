/** Reading a city's cost table out of the fetched page: one cost record per
    table row whose first two data cells both hold text, the price cleaned
    down to digits, points and commas. */
module Scraper {
  import opened Wrappers
  import opened Text
  import opened Seqs
  import opened PriceLookup

  /** One row of the page's cost table, as the texts of its data cells in
      order. */
  datatype TableRow = TableRow(cells: seq<string>)

  /** `$(el).find('td').eq(k).text()`: the text of the `k`-th data cell, and
      the empty text when the row has no such cell. */
  function CellText(row: TableRow, k: nat): string
  {
    if k < |row.cells| then row.cells[k] else ""
  }

  /** The characters a cleaned price keeps: the class `[\d.,]`. */
  const PriceTextChars: set<char> :=
    {'0', '1', '2', '3', '4', '5', '6', '7', '8', '9', '.', ','}

  /** One row: the trimmed name and price, skipped when either is empty,
      otherwise a record of the name and the price with every other
      character removed. The cleaned price itself may be empty. */
  function ScrapeRow(row: TableRow): (r: Option<CostRecord>)
  {
    var name := Trim(CellText(row, 0));
    var price := Trim(CellText(row, 1));
    if name != [] && price != [] then Some(CostRecord(name, Retain(price, PriceTextChars)))
    else None
  }

  /** A row is kept exactly when both its cells hold something besides
      white space; the record holds the trimmed name and only price
      characters. */
  lemma ScrapeRowKept(row: TableRow)
    ensures ScrapeRow(row).Some? <==> Trim(CellText(row, 0)) != [] && Trim(CellText(row, 1)) != []
    ensures ScrapeRow(row).Some? ==>
      var rec := ScrapeRow(row).value;
      && rec.item != [] && !IsSpace(rec.item[0]) && !IsSpace(rec.item[|rec.item| - 1])
      && forall i :: 0 <= i < |rec.cost| ==> rec.cost[i] in PriceTextChars
  {
    TrimEnds(CellText(row, 0));
  }

  /** A row with fewer than two data cells (a header row of `th` cells, say)
      is skipped. */
  lemma ShortRowSkipped(row: TableRow)
    requires |row.cells| < 2
    ensures ScrapeRow(row) == None
  {
    assert CellText(row, 1) == "";
  }

  /** The records of the rows taken in order, as the loop over the rows
      pushes them. */
  function ScrapedCosts(rows: seq<TableRow>): seq<CostRecord>
  {
    FilterMap(ScrapeRow, rows)
  }

  /** Records keep the order of their rows: the records of two runs of rows
      are those of the first run followed by those of the second. */
  lemma ScrapedCostsAppend(a: seq<TableRow>, b: seq<TableRow>)
    ensures ScrapedCosts(a + b) == ScrapedCosts(a) + ScrapedCosts(b)
  {
    FilterMapAppend(ScrapeRow, a, b);
  }

  /** Every kept record comes from a row and every row that is kept gives a
      record. */
  lemma ScrapedCostsExactly(rows: seq<TableRow>)
    ensures forall r :: r in ScrapedCosts(rows) <==> exists j :: 0 <= j < |rows| && ScrapeRow(rows[j]) == Some(r)
  {
    FilterMapSound(ScrapeRow, rows);
    FilterMapComplete(ScrapeRow, rows);
  }

  /** Every scraped record has a non-empty name and a price made of digits,
      points and commas only. */
  lemma AllScrapedClean(rows: seq<TableRow>)
    ensures forall r :: r in ScrapedCosts(rows) ==>
      r.item != [] && forall i :: 0 <= i < |r.cost| ==> r.cost[i] in PriceTextChars
  {
    ScrapedCostsExactly(rows);
    forall r | r in ScrapedCosts(rows)
      ensures r.item != [] && forall i :: 0 <= i < |r.cost| ==> r.cost[i] in PriceTextChars
    {
      var j :| 0 <= j < |rows| && ScrapeRow(rows[j]) == Some(r);
      ScrapeRowKept(rows[j]);
    }
  }

  /** A row whose price holds no digit, point or comma (a price of "?", say)
      is still kept, with an empty cost, which the verdict page reads as 0. */
  lemma UnpricedRowKept(row: TableRow)
    requires Trim(CellText(row, 0)) != [] && Trim(CellText(row, 1)) != []
    requires forall i :: 0 <= i < |CellText(row, 1)| ==> CellText(row, 1)[i] !in PriceTextChars
    ensures ScrapeRow(row) == Some(CostRecord(Trim(CellText(row, 0)), ""))
    ensures CostValue(ScrapeRow(row).value.cost) == 0.0
  {
    EmptyCostIsZero();
    var price := CellText(row, 1);
    var t := Trim(price);
    var u := TrimStart(price);
    forall i | 0 <= i < |t| ensures t[i] !in PriceTextChars {
      assert t[i] == u[i];
      assert u[i] == price[|price| - |u| + i];
    }
    RetainNone(t, PriceTextChars);
  }

  /** One more row adds its record, if it has one, at the end. */
  lemma ScrapedCostsStep(rows: seq<TableRow>, i: nat)
    requires i < |rows|
    ensures ScrapeRow(rows[i]).None? ==> ScrapedCosts(rows[..i + 1]) == ScrapedCosts(rows[..i])
    ensures ScrapeRow(rows[i]).Some? ==>
      ScrapedCosts(rows[..i + 1]) == ScrapedCosts(rows[..i]) + [ScrapeRow(rows[i]).value]
  {
    assert rows[..i + 1] == rows[..i] + [rows[i]];
    FilterMapSnoc(ScrapeRow, rows[..i], rows[i]);
  }

  /** The loop over the table rows: each row's name and price are trimmed
      and, when both are present, the cleaned record is pushed. */
  method ScrapeCosts(rows: seq<TableRow>) returns (costs: seq<CostRecord>)
    ensures costs == ScrapedCosts(rows)
  {
    costs := [];
    var i := 0;
    while i < |rows|
      invariant 0 <= i <= |rows|
      invariant costs == ScrapedCosts(rows[..i])
    {
      ScrapedCostsStep(rows, i);
      var name := Trim(CellText(rows[i], 0));
      var price := Trim(CellText(rows[i], 1));
      if name != [] && price != [] {
        var cleanPrice := Retain(price, PriceTextChars);
        costs := costs + [CostRecord(name, cleanPrice)];
      }
      i := i + 1;
    }
    assert rows[..i] == rows;
  }
}
