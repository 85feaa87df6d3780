/**
 * The NYSE REIT scraper (src/utilities/transform.js): a fixed request
 * payload, and the transformation of the parsed JSON response into listings.
 */
module ReitTransform {
  import opened Results
  import opened Symbols
  import opened NyseService

  /** The parsed response body: an array of quotes, or a single quote object. */
  datatype Json = JArray(items: seq<SymbolResponse>) | JObject(item: SymbolResponse)

  /** The payload the script posts: REITs, first page, by ticker ascending, up to 10000 results. */
  const ReitPayload := FilterRequest("REIT", 1, "NORMALIZED_TICKER", Asc, 10000, "")

  /** `Array.isArray(jsonData) ? jsonData : [jsonData]`. */
  function AsArray(json: Json): (items: seq<SymbolResponse>)
    ensures json.JArray? ==> items == json.items
    ensures json.JObject? ==> items == [json.item]
  {
    match json
    case JArray(items) => items
    case JObject(item) => [item]
  }

  /** The listing one quote becomes. */
  function ReitListing(item: SymbolResponse): Listing {
    Listing(item.symbolExchangeTicker, item.instrumentName, item.url, "REIT", "NYSE")
  }

  /** `dataArray.map(...)`: one listing per quote of the wrapped input, in order. */
  function Transform(json: Json): (out: seq<Listing>)
    ensures |out| == |AsArray(json)|
    ensures forall k :: 0 <= k < |out| ==>
      out[k].instr == "REIT" && out[k].market == "NYSE"
      && out[k].symbol == AsArray(json)[k].symbolExchangeTicker
      && out[k].name == AsArray(json)[k].instrumentName
      && out[k].url == AsArray(json)[k].url
  {
    var items := AsArray(json);
    seq(|items|, k requires 0 <= k < |items| => ReitListing(items[k]))
  }

  /** A single quote object gives exactly one listing. */
  lemma SingleObject(item: SymbolResponse)
    ensures Transform(JObject(item)) == [ReitListing(item)]
  {
  }

  /** The transformation commutes with concatenating response arrays: nothing is dropped or reordered. */
  lemma TransformAppend(a: seq<SymbolResponse>, b: seq<SymbolResponse>)
    ensures Transform(JArray(a + b)) == Transform(JArray(a)) + Transform(JArray(b))
  {
    var lhs := Transform(JArray(a + b));
    var rhs := Transform(JArray(a)) + Transform(JArray(b));
    assert |lhs| == |rhs|;
    forall k | 0 <= k < |lhs|
      ensures lhs[k] == rhs[k]
    {
      if k < |a| {
        assert (a + b)[k] == a[k];
      } else {
        assert (a + b)[k] == b[k - |a|];
      }
    }
  }

  /**
   * The fixed payload is what `getFilteredQuotes` would post when asked for
   * the first instrument type `loopInstruments` walks through (`REIT`) and
   * 10000 results per page.
   */
  lemma ReitPayloadMatchesService()
    ensures Instruments[0] == "REIT"
    ensures ReitPayload == FilterPayload(NoOptions.(instrumentType := Some(Instruments[0]), maxResultsPerPage := Some(10000)))
  {
  }

  /**
   * The two NYSE adapters read different ticker fields: the REIT listing and
   * the record `processStockData` builds for the same quote agree exactly
   * when the quote's exchange ticker equals its normalized ticker.
   */
  lemma TickerFieldsAgreeIff(item: SymbolResponse)
    ensures Canonical(ReitListing(item)) == StockRecord("REIT", item)
            <==> item.symbolExchangeTicker == item.normalizedTicker
  {
  }
}
