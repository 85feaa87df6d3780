/**
 * What the adapters hand to the record model: which of their records pass the
 * `Symbol` schema, and what gets stored for them.
 */
module Ingest {
  import opened Results
  import opened Text
  import opened Symbols
  import opened SymbolModel
  import Nasdaq
  import NyseService
  import ReitTransform

  /**
   * Every listing a successful NASDAQ parse produces passes the schema; the
   * stored record keeps the (already upper-case) name, `NASDAQ` and `EQUITY`,
   * and stores the symbol upper-cased.
   */
  lemma NasdaqListingsConform(data: string, k: nat)
    requires Nasdaq.Parse(data).Ok? && k < |Nasdaq.Parse(data).value|
    ensures var s := Nasdaq.Parse(data).value[k];
      Create(InputOf(Canonical(s))) == Ok(SymbolData(ToUpper(s.symbol), s.name, "NASDAQ", "EQUITY"))
  {
    Nasdaq.ParseBounds(data);
    EmittedConforms(Nasdaq.Parse(data).value[k]);
  }

  /** A well-formed NASDAQ listing passes the schema with only its symbol upper-cased. */
  lemma EmittedConforms(s: Listing)
    requires Nasdaq.Emitted(s)
    ensures Create(InputOf(Canonical(s))) == Ok(SymbolData(ToUpper(s.symbol), s.name, "NASDAQ", "EQUITY"))
  {
    var input := InputOf(Canonical(s));
    assert Complete(input);
    assert ToUpper("NASDAQ") == "NASDAQ";
  }

  /**
   * A record built by `processStockData` passes the schema exactly when the
   * quote's normalized ticker, its instrument name and the instrument type
   * are all non-empty.
   */
  lemma NyseRecordConformsIff(instr: string, item: NyseService.SymbolResponse)
    ensures Create(InputOf(NyseService.StockRecord(instr, item))).Ok?
            <==> item.normalizedTicker != "" && item.instrumentName != "" && instr != ""
  {
  }

  /**
   * A REIT listing passes the schema exactly when the quote's exchange ticker
   * and instrument name are non-empty; it is then stored under market `NYSE`.
   */
  lemma ReitListingConformsIff(item: NyseService.SymbolResponse)
    ensures Create(InputOf(Canonical(ReitTransform.ReitListing(item)))).Ok?
            <==> item.symbolExchangeTicker != "" && item.instrumentName != ""
    ensures Create(InputOf(Canonical(ReitTransform.ReitListing(item)))).Ok? ==>
            Key(Create(InputOf(Canonical(ReitTransform.ReitListing(item)))).value)
            == (ToUpper(item.symbolExchangeTicker), "NYSE")
  {
    ToUpperSound("NYSE");
  }
}
