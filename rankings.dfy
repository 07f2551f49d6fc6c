/** The static rankings the server loads at start-up and serves on
    `/rankings`: a tab-separated table whose first line is a header, read
    into one record per line that has at least eight fields, then the five
    most expensive rows as stored and the last five in reverse order. */
module Rankings {
  import opened Wrappers
  import opened Text
  import opened Seqs

  /** One city of the index table. The numeric columns are kept as the text
      of their fields. */
  datatype CityIndex = CityIndex(
    rank: string, city: string, colIndex: string, rentIndex: string,
    colPlusRentIndex: string, groceriesIndex: string, restaurantIndex: string,
    lppIndex: string)

  /** The fields a table line must have. */
  const FieldCount: nat := 8

  /** One line of the table: split on tabs, `null` when there are fewer than
      eight fields, otherwise the first eight fields in column order. */
  function ParseLine(line: string): (r: Option<CityIndex>)
  {
    var parts := Split(line, '\t');
    if |parts| < FieldCount then None
    else Some(CityIndex(parts[0], parts[1], parts[2], parts[3], parts[4], parts[5], parts[6], parts[7]))
  }

  /** A line made by joining eight or more tab-free fields reads back as its
      first eight fields. */
  lemma ParseLineOfFields(fields: seq<string>)
    requires |fields| >= FieldCount
    requires forall k :: 0 <= k < |fields| ==> '\t' !in fields[k]
    ensures ParseLine(Join(fields, '\t'))
         == Some(CityIndex(fields[0], fields[1], fields[2], fields[3], fields[4], fields[5],
                           fields[6], fields[7]))
  {
    SplitJoin(fields, '\t');
  }

  /** A line without a tab is a single field and is dropped. */
  lemma ParseLineNoTab(line: string)
    requires '\t' !in line
    ensures ParseLine(line) == None
  {
    SplitPlain(line, '\t');
  }

  /** `lines.map(parse).filter(x => x)`: the records of the lines that
      parse, in line order. */
  function ParseLines(lines: seq<string>): seq<CityIndex>
  {
    FilterMap(ParseLine, lines)
  }

  /** Every row comes from some line, and every line that parses gives a
      row. */
  lemma ParseLinesExactly(lines: seq<string>)
    ensures forall r :: r in ParseLines(lines) <==> exists j :: 0 <= j < |lines| && ParseLine(lines[j]) == Some(r)
  {
    FilterMapSound(ParseLine, lines);
    FilterMapComplete(ParseLine, lines);
  }

  /** Rows keep the order of their lines: the rows of two blocks of lines
      are the rows of the first followed by the rows of the second. */
  lemma ParseLinesAppend(a: seq<string>, b: seq<string>)
    ensures ParseLines(a + b) == ParseLines(a) + ParseLines(b)
  {
    FilterMapAppend(ParseLine, a, b);
  }

  /** The table as loaded: the trimmed text split into lines, the header
      line skipped, the remaining lines parsed. */
  function LoadRankings(raw: string): seq<CityIndex>
  {
    ParseLines(Split(Trim(raw), '\n')[1..])
  }

  /** A file holding a header only, with no line break inside its trimmed
      text, yields no rows. */
  lemma HeaderOnly(raw: string)
    requires '\n' !in Trim(raw)
    ensures LoadRankings(raw) == []
  {
    SplitPlain(Trim(raw), '\n');
  }

  /** The rows of a file whose trimmed text is a header and the given lines
      are the rows of those lines: the header is dropped and nothing else. */
  lemma LoadRankingsOfLines(raw: string, header: string, lines: seq<string>)
    requires Trim(raw) == Join([header] + lines, '\n')
    requires '\n' !in header && forall k :: 0 <= k < |lines| ==> '\n' !in lines[k]
    ensures LoadRankings(raw) == ParseLines(lines)
  {
    var all := [header] + lines;
    assert forall k :: 0 <= k < |all| ==> '\n' !in all[k] by {
      forall k | 0 <= k < |all| ensures '\n' !in all[k] {
        if k > 0 {
          assert all[k] == lines[k - 1];
        }
      }
    }
    SplitJoin(all, '\n');
    assert all[1..] == lines;
  }

  function Min(a: nat, b: nat): nat { if a < b then a else b }

  /** The size of each end of the table that `/rankings` shows. */
  const ShownCount: nat := 5

  /** `rankings.slice(0, 5)`: the first five rows, or all of them when there
      are fewer, in table order. */
  function Expensive(rows: seq<CityIndex>): (r: seq<CityIndex>)
    ensures |r| == Min(ShownCount, |rows|)
    ensures forall k :: 0 <= k < |r| ==> r[k] == rows[k]
  {
    rows[..Min(ShownCount, |rows|)]
  }

  /** `rankings.slice(-5).reverse()`: the last five rows, or all of them when
      there are fewer, the last row first. */
  function Cheapest(rows: seq<CityIndex>): (r: seq<CityIndex>)
    ensures |r| == Min(ShownCount, |rows|)
    ensures forall k :: 0 <= k < |r| ==> r[k] == rows[|rows| - 1 - k]
  {
    var tail := rows[|rows| - Min(ShownCount, |rows|)..];
    ReverseEach(tail);
    Reverse(tail)
  }

  /** The cheapest list is the expensive list of the table read backwards. */
  lemma CheapestIsExpensiveReversed(rows: seq<CityIndex>)
    ensures Cheapest(rows) == Expensive(Reverse(rows))
  {
    ReverseEach(rows);
  }

  /** What `/rankings` answers. */
  datatype RankingsReply = RankingsReply(
    expensive: seq<CityIndex>, cheapest: seq<CityIndex>, all: seq<CityIndex>)

  function Respond(rows: seq<CityIndex>): (reply: RankingsReply)
    ensures reply.all == rows
    ensures reply.expensive == rows[..Min(ShownCount, |rows|)]
    ensures reply.cheapest == Expensive(Reverse(rows))
  {
    CheapestIsExpensiveReversed(rows);
    RankingsReply(Expensive(rows), Cheapest(rows), rows)
  }
}
