/**
 * The pure parts of `NYSEService` (src/services/nyseService.ts): the request
 * payload `getFilteredQuotes` builds from partial options with JavaScript `||`
 * defaults, and `processStockData`, which maps each quote of a response to
 * the canonical record.
 */
module NyseService {
  import opened Results
  import opened Symbols

  /** The instrument types `loopInstruments` walks through, in order. */
  const Instruments: seq<string> := ["REIT", "EQUITY"]

  const DefaultInstrumentType := "EQUITY"
  const DefaultPageNumber := 1
  const DefaultSortColumn := "NORMALIZED_TICKER"
  const DefaultMaxResultsPerPage := 10

  datatype SortOrder = Asc | Desc

  /** `INYSEFilterRequest`: the body posted to the quote filter endpoint. */
  datatype FilterRequest = FilterRequest(
    instrumentType: string,
    pageNumber: int,
    sortColumn: string,
    sortOrder: SortOrder,
    maxResultsPerPage: int,
    filterToken: string)

  /** `Partial<INYSEFilterRequest>`: every field may be left out. */
  datatype FilterOptions = FilterOptions(
    instrumentType: Option<string>,
    pageNumber: Option<int>,
    sortColumn: Option<string>,
    sortOrder: Option<SortOrder>,
    maxResultsPerPage: Option<int>,
    filterToken: Option<string>)

  /** `{}`, the default argument of `getFilteredQuotes`. */
  const NoOptions := FilterOptions(None, None, None, None, None, None)

  /** `INYSESymbolResponse`: one quote of the response; `null` is `None`. */
  datatype SymbolResponse = SymbolResponse(
    total: int,
    url: string,
    normalizedTicker: string,
    instrumentName: string,
    symbolExchangeTicker: string,
    exchangeId: Option<string>,
    instrumentType: Option<string>,
    symbolTicker: Option<string>,
    symbolEsignalTicker: Option<string>,
    micCode: Option<string>)

  /** JavaScript truthiness of an optional string: present and not `''`. */
  predicate TruthyString(v: Option<string>) {
    v.Some? && v.value != ""
  }

  /** JavaScript truthiness of an optional number: present and not `0`. */
  predicate TruthyNumber(v: Option<int>) {
    v.Some? && v.value != 0
  }

  /** `v || fallback` on a string. */
  function OrString(v: Option<string>, fallback: string): string {
    if TruthyString(v) then v.value else fallback
  }

  /** `v || fallback` on a number. */
  function OrNumber(v: Option<int>, fallback: int): int {
    if TruthyNumber(v) then v.value else fallback
  }

  /** `v || fallback` on a sort order; both orders are non-empty strings, so truthy. */
  function OrSortOrder(v: Option<SortOrder>, fallback: SortOrder): SortOrder {
    if v.Some? then v.value else fallback
  }

  /**
   * The payload of `getFilteredQuotes`: each field is taken from the options
   * when it is truthy and is the default otherwise, so `0` and `''` are
   * replaced just as a missing field is.
   */
  function FilterPayload(options: FilterOptions): (p: FilterRequest)
    ensures TruthyString(options.instrumentType) ==> p.instrumentType == options.instrumentType.value
    ensures !TruthyString(options.instrumentType) ==> p.instrumentType == DefaultInstrumentType
    ensures TruthyNumber(options.pageNumber) ==> p.pageNumber == options.pageNumber.value
    ensures !TruthyNumber(options.pageNumber) ==> p.pageNumber == DefaultPageNumber
    ensures TruthyString(options.sortColumn) ==> p.sortColumn == options.sortColumn.value
    ensures !TruthyString(options.sortColumn) ==> p.sortColumn == DefaultSortColumn
    ensures options.sortOrder.Some? ==> p.sortOrder == options.sortOrder.value
    ensures options.sortOrder.None? ==> p.sortOrder == Asc
    ensures TruthyNumber(options.maxResultsPerPage) ==> p.maxResultsPerPage == options.maxResultsPerPage.value
    ensures !TruthyNumber(options.maxResultsPerPage) ==> p.maxResultsPerPage == DefaultMaxResultsPerPage
    ensures TruthyString(options.filterToken) ==> p.filterToken == options.filterToken.value
    ensures !TruthyString(options.filterToken) ==> p.filterToken == ""
    ensures Settled(p)
  {
    FilterRequest(
      OrString(options.instrumentType, DefaultInstrumentType),
      OrNumber(options.pageNumber, DefaultPageNumber),
      OrString(options.sortColumn, DefaultSortColumn),
      OrSortOrder(options.sortOrder, Asc),
      OrNumber(options.maxResultsPerPage, DefaultMaxResultsPerPage),
      OrString(options.filterToken, ""))
  }

  /** Every option given as a value. */
  function OptionsOf(p: FilterRequest): FilterOptions {
    FilterOptions(Some(p.instrumentType), Some(p.pageNumber), Some(p.sortColumn),
                  Some(p.sortOrder), Some(p.maxResultsPerPage), Some(p.filterToken))
  }

  /** None of the fields whose default is truthy is falsy. */
  predicate Settled(p: FilterRequest) {
    p.instrumentType != "" && p.pageNumber != 0 && p.sortColumn != "" && p.maxResultsPerPage != 0
  }

  /** Calling with no options posts the documented defaults. */
  lemma DefaultRequest()
    ensures FilterPayload(NoOptions) == FilterRequest("EQUITY", 1, "NORMALIZED_TICKER", Asc, 10, "")
  {
  }

  /**
   * A full request is posted unchanged exactly when none of its defaulted
   * fields is falsy; in particular every payload is posted unchanged when fed
   * back as options.
   */
  lemma PayloadRoundTrip(p: FilterRequest)
    ensures FilterPayload(OptionsOf(p)) == p <==> Settled(p)
    ensures Settled(FilterPayload(OptionsOf(p)))
  {
  }

  /** A falsy option is treated as if it were missing. */
  lemma FalsyIsMissing(options: FilterOptions)
    ensures FilterPayload(options.(pageNumber := Some(0))) == FilterPayload(options.(pageNumber := None))
    ensures FilterPayload(options.(maxResultsPerPage := Some(0))) == FilterPayload(options.(maxResultsPerPage := None))
    ensures FilterPayload(options.(instrumentType := Some(""))) == FilterPayload(options.(instrumentType := None))
    ensures FilterPayload(options.(sortColumn := Some(""))) == FilterPayload(options.(sortColumn := None))
    ensures FilterPayload(options.(filterToken := Some(""))) == FilterPayload(options.(filterToken := None))
  {
  }

  /** The canonical record `processStockData` builds from one quote. */
  function StockRecord(instr: string, item: SymbolResponse): SymbolData {
    SymbolData(item.normalizedTicker, item.instrumentName, "NYSE", instr)
  }

  /**
   * `processStockData`: one record per quote, in response order, each with
   * market `NYSE`, the given instrument type, the quote's normalized ticker
   * as symbol and its instrument name as name.
   */
  method ProcessStockData(instr: string, data: seq<SymbolResponse>) returns (newData: seq<SymbolData>)
    ensures |newData| == |data|
    ensures forall k :: 0 <= k < |data| ==> newData[k] == StockRecord(instr, data[k])
    ensures forall k :: 0 <= k < |data| ==>
      newData[k].market == "NYSE" && newData[k].instr == instr
      && newData[k].symbol == data[k].normalizedTicker && newData[k].name == data[k].instrumentName
  {
    newData := [];
    for i := 0 to |data|
      invariant |newData| == i
      invariant forall k :: 0 <= k < i ==> newData[k] == StockRecord(instr, data[k])
    {
      var item := data[i];
      newData := newData + [SymbolData(item.normalizedTicker, item.instrumentName, "NYSE", instr)];
    }
  }
}
