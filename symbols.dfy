/** The record shapes the adapters produce (src/interfaces/symbol.ts and the scrapers' JSON output). */
module Symbols {

  /** `ISymbolData`: the canonical record every source adapter maps into. */
  datatype SymbolData = SymbolData(symbol: string, name: string, market: string, instr: string)

  /** What the two scrapers write out: the canonical fields plus the quote-page URL. */
  datatype Listing = Listing(symbol: string, name: string, url: string, instr: string, market: string)

  /** A listing as the canonical record (the URL is not part of it). */
  function Canonical(l: Listing): SymbolData {
    SymbolData(l.symbol, l.name, l.market, l.instr)
  }
}
