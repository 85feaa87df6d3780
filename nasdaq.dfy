/**
 * `parseNasdaqData` (src/utilities/fetchNASDAQ.js): the pipe-delimited
 * NASDAQ listing file, a header line naming the columns, one line per
 * security and a trailing metadata line, turned into listings.
 */
module Nasdaq {
  import opened Results
  import opened Text
  import opened Symbols

  const SymbolColumn := "Symbol"
  const NameColumn := "Security Name"
  const QuotePagePrefix := "https://www.nasdaq.com/market-activity/stocks/"

  /** The two errors the parser throws. */
  datatype ParseError = InvalidDataFormat | RequiredColumnsNotFound

  /** `data.trim().split('\n')`. */
  function Lines(data: string): seq<string> {
    Split(Trim(data), '\n')
  }

  /** The header line's cells, each trimmed. */
  function Headers(header: string): (cells: seq<string>)
    ensures |cells| == |Split(header, '|')|
  {
    TrimAll(Split(header, '|'))
  }

  /** The listing a kept row yields. */
  function StockOf(symbol: string, name: string): Listing {
    Listing(symbol, name, QuotePagePrefix + ToLower(symbol), "EQUITY", "NASDAQ")
  }

  /** What every listing the parser emits satisfies. */
  predicate Emitted(s: Listing) {
    s.instr == "EQUITY" && s.market == "NASDAQ"
    && s.symbol != "" && Trim(s.symbol) == s.symbol
    && s.name != "" && NoLower(s.name)
    && s.url == QuotePagePrefix + ToLower(s.symbol)
  }

  /**
   * One data row: skipped when it has fewer fields than the header, or when
   * its trimmed symbol or its trimmed, upper-cased name is empty.
   */
  function ParseRow(line: string, width: nat, symbolIndex: nat, nameIndex: nat): Option<Listing>
    requires symbolIndex < width && nameIndex < width
  {
    var fields := Split(line, '|');
    if |fields| < width then None
    else
      var symbol := Trim(fields[symbolIndex]);
      var name := ToUpper(Trim(fields[nameIndex]));
      if symbol == "" || name == "" then None
      else Some(StockOf(symbol, name))
  }

  /** A skipped row contributes nothing, a kept row its listing. */
  function Kept(row: Option<Listing>): seq<Listing> {
    match row
    case None => []
    case Some(s) => [s]
  }

  /** The listings of the kept rows, in row order. */
  function ParseRows(rows: seq<string>, width: nat, symbolIndex: nat, nameIndex: nat): (r: seq<Listing>)
    requires symbolIndex < width && nameIndex < width
    ensures |r| <= |rows|
  {
    if |rows| == 0 then []
    else
      var rest := ParseRows(rows[1..], width, symbolIndex, nameIndex);
      match ParseRow(rows[0], width, symbolIndex, nameIndex)
      case None => rest
      case Some(s) =>
        [s] + rest
  }

  /** The parser on the text already split into lines. */
  function ParseLines(lines: seq<string>): Result<seq<Listing>, ParseError> {
    if |lines| < 2 then Err(InvalidDataFormat)
    else
      var headers := Headers(lines[0]);
      var symbolIndex := IndexOf(headers, SymbolColumn);
      var nameIndex := IndexOf(headers, NameColumn);
      if symbolIndex == -1 || nameIndex == -1 then Err(RequiredColumnsNotFound)
      else Ok(ParseRows(lines[1..|lines| - 1], |headers|, symbolIndex, nameIndex))
  }

  /** What `parseNasdaqData(data)` returns or throws. */
  function Parse(data: string): Result<seq<Listing>, ParseError> {
    ParseLines(Lines(data))
  }

  /**
   * `parseNasdaqData`: the header is read, then a loop over the lines between
   * header and footer skips malformed and empty rows and appends one listing
   * per kept row.
   */
  method ParseNasdaqData(data: string) returns (r: Result<seq<Listing>, ParseError>)
    ensures r == Parse(data)
  {
    var lines := Split(Trim(data), '\n');
    if |lines| < 2 {
      return Err(InvalidDataFormat);
    }
    var headers := TrimAll(Split(lines[0], '|'));
    var dataLines := lines[1..|lines| - 1];
    var symbolIndex := IndexOf(headers, SymbolColumn);
    var nameIndex := IndexOf(headers, NameColumn);
    if symbolIndex == -1 || nameIndex == -1 {
      return Err(RequiredColumnsNotFound);
    }
    var stocks: seq<Listing> := [];
    for i := 0 to |dataLines|
      invariant stocks == ParseRows(dataLines[..i], |headers|, symbolIndex, nameIndex)
    {
      assert ParseRows(dataLines[..i + 1], |headers|, symbolIndex, nameIndex)
          == stocks + Kept(ParseRow(dataLines[i], |headers|, symbolIndex, nameIndex)) by {
        assert dataLines[..i + 1] == dataLines[..i] + [dataLines[i]];
        ParseRowsAppend(dataLines[..i], [dataLines[i]], |headers|, symbolIndex, nameIndex);
        assert [dataLines[i]][1..] == [];
      }
      var fields := Split(dataLines[i], '|');
      if |fields| < |headers| {
        continue;
      }
      var symbol := Trim(fields[symbolIndex]);
      var name := ToUpper(Trim(fields[nameIndex]));
      if symbol == "" || name == "" {
        continue;
      }
      var stock := Listing(symbol, name, QuotePagePrefix + ToLower(symbol), "EQUITY", "NASDAQ");
      stocks := stocks + [stock];
    }
    assert dataLines[..|dataLines|] == dataLines;
    assert Lines(data) == lines && Headers(lines[0]) == headers;
    return Ok(stocks);
  }

  // ---------------------------------------------------------------- properties

  /** Fewer than two lines is the only way to get "Invalid data format". */
  lemma TooFewLines(data: string)
    ensures Parse(data) == Err(InvalidDataFormat) <==> |Lines(data)| < 2
  {
  }

  /**
   * With a header and a footer present, "Required columns not found" is thrown
   * exactly when a trimmed header cell named `Symbol` or one named
   * `Security Name` is missing.
   */
  lemma MissingColumns(lines: seq<string>)
    requires |lines| >= 2
    ensures ParseLines(lines) == Err(RequiredColumnsNotFound)
            <==> SymbolColumn !in Headers(lines[0]) || NameColumn !in Headers(lines[0])
  {
  }

  /** A header and a footer alone parse to no listings. */
  lemma HeaderAndFooterOnly(lines: seq<string>)
    requires |lines| == 2
    requires SymbolColumn in Headers(lines[0]) && NameColumn in Headers(lines[0])
    ensures ParseLines(lines) == Ok([])
  {
  }

  /** The footer line never contributes: replacing it changes nothing. */
  lemma FooterIgnored(lines: seq<string>, footer: string)
    requires |lines| >= 2
    ensures ParseLines(lines[..|lines| - 1] + [footer]) == ParseLines(lines)
  {
    var other := lines[..|lines| - 1] + [footer];
    assert other[0] == lines[0];
    assert other[1..|other| - 1] == lines[1..|lines| - 1];
  }

  /**
   * A row is kept exactly when it has at least as many fields as the header
   * and both its symbol and its name are non-empty after trimming; the
   * listing then carries the trimmed symbol and the upper-cased trimmed name.
   */
  lemma RowKept(line: string, width: nat, symbolIndex: nat, nameIndex: nat)
    requires symbolIndex < width && nameIndex < width
    ensures var fields := Split(line, '|');
      ParseRow(line, width, symbolIndex, nameIndex).Some?
      <==> |fields| >= width && Trim(fields[symbolIndex]) != "" && Trim(fields[nameIndex]) != ""
    ensures var fields := Split(line, '|');
      ParseRow(line, width, symbolIndex, nameIndex).Some? ==>
        ParseRow(line, width, symbolIndex, nameIndex).value
        == StockOf(Trim(fields[symbolIndex]), ToUpper(Trim(fields[nameIndex])))
  {
  }

  /** A kept row yields a well-formed listing. */
  lemma RowEmitted(line: string, width: nat, symbolIndex: nat, nameIndex: nat)
    requires symbolIndex < width && nameIndex < width
    ensures ParseRow(line, width, symbolIndex, nameIndex).Some? ==> Emitted(ParseRow(line, width, symbolIndex, nameIndex).value)
  {
    var fields := Split(line, '|');
    if |fields| >= width {
      TrimIdempotent(fields[symbolIndex]);
      ToUpperSound(Trim(fields[nameIndex]));
    }
  }

  /** Every listing of a row list is well-formed. */
  lemma {:induction false} RowsEmitted(rows: seq<string>, width: nat, symbolIndex: nat, nameIndex: nat)
    requires symbolIndex < width && nameIndex < width
    ensures forall k :: 0 <= k < |ParseRows(rows, width, symbolIndex, nameIndex)| ==> Emitted(ParseRows(rows, width, symbolIndex, nameIndex)[k])
  {
    if |rows| > 0 {
      RowEmitted(rows[0], width, symbolIndex, nameIndex);
      RowsEmitted(rows[1..], width, symbolIndex, nameIndex);
    }
  }

  /** Parsing rows distributes over concatenation: output order follows input order. */
  lemma {:induction false} ParseRowsAppend(a: seq<string>, b: seq<string>, width: nat, symbolIndex: nat, nameIndex: nat)
    requires symbolIndex < width && nameIndex < width
    ensures ParseRows(a + b, width, symbolIndex, nameIndex)
         == ParseRows(a, width, symbolIndex, nameIndex) + ParseRows(b, width, symbolIndex, nameIndex)
  {
    if |a| > 0 {
      assert (a + b)[0] == a[0];
      assert (a + b)[1..] == a[1..] + b;
      ParseRowsAppend(a[1..], b, width, symbolIndex, nameIndex);
      var k := Kept(ParseRow(a[0], width, symbolIndex, nameIndex));
      assert k + (ParseRows(a[1..], width, symbolIndex, nameIndex) + ParseRows(b, width, symbolIndex, nameIndex))
          == (k + ParseRows(a[1..], width, symbolIndex, nameIndex)) + ParseRows(b, width, symbolIndex, nameIndex);
    } else {
      assert a + b == b;
    }
  }

  /** Every listing in the output is the listing of some row. */
  lemma {:induction false} ParseRowsSource(rows: seq<string>, width: nat, symbolIndex: nat, nameIndex: nat, s: Listing)
    requires symbolIndex < width && nameIndex < width
    requires s in ParseRows(rows, width, symbolIndex, nameIndex)
    ensures exists i :: 0 <= i < |rows| && ParseRow(rows[i], width, symbolIndex, nameIndex) == Some(s)
  {
    if ParseRow(rows[0], width, symbolIndex, nameIndex) != Some(s) {
      ParseRowsSource(rows[1..], width, symbolIndex, nameIndex, s);
      var i :| 0 <= i < |rows[1..]| && ParseRow(rows[1..][i], width, symbolIndex, nameIndex) == Some(s);
      assert rows[1..][i] == rows[i + 1];
    }
  }

  /** The listing of every kept row is in the output. */
  lemma {:induction false} ParseRowsComplete(rows: seq<string>, width: nat, symbolIndex: nat, nameIndex: nat, i: nat)
    requires symbolIndex < width && nameIndex < width
    requires i < |rows| && ParseRow(rows[i], width, symbolIndex, nameIndex).Some?
    ensures ParseRow(rows[i], width, symbolIndex, nameIndex).value in ParseRows(rows, width, symbolIndex, nameIndex)
  {
    if i > 0 {
      assert rows[1..][i - 1] == rows[i];
      ParseRowsComplete(rows[1..], width, symbolIndex, nameIndex, i - 1);
    }
  }

  /**
   * A successful parse yields at most (line count - 2) listings, each with a
   * non-empty trimmed symbol, a non-empty upper-case name, instr `EQUITY`,
   * market `NASDAQ` and the quote-page URL built from the lower-cased symbol.
   */
  lemma ParseBounds(data: string)
    requires Parse(data).Ok?
    ensures |Parse(data).value| <= |Lines(data)| - 2
    ensures forall k :: 0 <= k < |Parse(data).value| ==> Emitted(Parse(data).value[k])
  {
    var lines := Lines(data);
    var headers := Headers(lines[0]);
    RowsEmitted(lines[1..|lines| - 1], |headers|, IndexOf(headers, SymbolColumn), IndexOf(headers, NameColumn));
  }
}
