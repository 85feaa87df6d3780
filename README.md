# Stock symbol adapters and record model

This project models the part of the stocks repository that holds logic of its
own: the source adapters that turn raw exchange data into the canonical symbol
record `{symbol, name, market, instr}`, and the schema rules of that record.

- **NASDAQ parser** (`parseNasdaqData`): the pipe-delimited listing file is
  trimmed and split into lines. Line 0 is the header and the last line is a
  metadata footer. The `Symbol` and `Security Name` columns are found by name.
  Rows that are short or have an empty symbol or name are skipped. Each kept
  row becomes a listing with the name upper-cased, a quote-page URL built from
  the lower-cased symbol, instr `EQUITY` and market `NASDAQ`. The module
  `Nasdaq` has the specification (`Parse`, `ParseLines`, `ParseRows`,
  `ParseRow`) and the loop itself as the method `ParseNasdaqData`, proved equal
  to the specification.
- **NYSE service** (`NYSEService`): `FilterPayload` is the request payload that
  `getFilteredQuotes` builds with JavaScript `||` defaults. The method
  `ProcessStockData` maps every quote of a response to a canonical record.
- **NYSE REIT script**: `AsArray` wraps a non-array response in a list,
  `Transform` maps each quote to a listing, and `ReitPayload` is the fixed
  request payload.
- **Record model** (`Symbol` schema): `Normalize` runs the `uppercase` setters
  on `symbol` and `market`. `Create` then checks the `required` flags.
  `UniqueKeys` is the unique `(symbol, market)` index, stated over a set of
  records, and `Save` is the index's admission rule, which keeps it.
- **Ingest**: lemmas that connect the adapters' output to the record model.

The JavaScript string primitives the adapters use (`trim`, `split`,
`toUpperCase`, `toLowerCase` and `Array.prototype.indexOf`) are functions in
module `Text`, together with `join`, which no adapter calls and which serves as
the inverse that pins `split` down. Strings are `seq<char>`.

The schema in `src/models/Symbol.ts` has no `trim` option; only the
older schema in `db.js` trims. So `Create` rejects a missing or `''` field and
accepts one that is only white space.

## Model

| member | source | states |
|---|---|---|
| Text.TrimCuts | src/utilities/fetchNASDAQ.js:92 | `trim` removes only white space, from both ends: the result is the substring `s[k..k + |r|]` and everything cut on either side is white space |
| Text.TrimEdges | src/utilities/fetchNASDAQ.js:92 | `trim` removes all the white space at both ends: the result neither starts nor ends with white space, and it is empty exactly when the input is all white space |
| Text.TrimIdempotent | src/utilities/fetchNASDAQ.js:118 | trimming an already trimmed string changes nothing, so an emitted symbol is its own trimmed form |
| Text.SplitSepFree | src/utilities/fetchNASDAQ.js:112 | no piece of `split(sep)` contains the separator |
| Text.SplitJoin | src/utilities/fetchNASDAQ.js:92 | joining the pieces of `split(sep)` with `sep` gives back the original text |
| Text.JoinSplit | src/utilities/fetchNASDAQ.js:112 | a non-empty list of separator-free pieces is exactly what splitting their join returns, so `split` is determined by the two facts above |
| Text.ToUpperSound | src/utilities/fetchNASDAQ.js:119 | upper-casing leaves no lower-case letter and leaves a string without lower-case letters unchanged |
| Text.ToLowerSound | src/utilities/fetchNASDAQ.js:128 | lower-casing leaves no upper-case letter and leaves a string without upper-case letters unchanged |
| Text.ToUpperIdempotent | src/models/Symbol.ts:6 | upper-casing twice gives the same string as upper-casing once |
| Text.ToUpperIgnoresCase | src/models/Symbol.ts:14 | a string and its lower-case form have the same upper-case form, so case variants reach the same key |
| Text.IndexOf | src/utilities/fetchNASDAQ.js:102-103 | the result is -1 exactly when the name is absent; otherwise it is a position of the name with no earlier occurrence |
| Nasdaq.ParseNasdaqData | src/utilities/fetchNASDAQ.js:91-137 | the loop that skips rows and pushes listings returns exactly what the specification `Parse` returns or throws, and every field access on a kept row is in bounds |
| Nasdaq.TooFewLines | src/utilities/fetchNASDAQ.js:92-96 | parsing fails with "Invalid data format" exactly when the trimmed text has fewer than 2 lines |
| Nasdaq.MissingColumns | src/utilities/fetchNASDAQ.js:99-107 | with 2 or more lines, parsing fails with "Required columns not found" exactly when the trimmed header cells lack `Symbol` or `Security Name` |
| Nasdaq.HeaderAndFooterOnly | src/utilities/fetchNASDAQ.js:98-100 | a header with both columns and a footer, and nothing else, parse to no listings |
| Nasdaq.FooterIgnored | src/utilities/fetchNASDAQ.js:98-100 | replacing the last line by any other line does not change the result |
| Nasdaq.ParseRows | src/utilities/fetchNASDAQ.js:109-135 | a list of rows yields at most one listing per row |
| Nasdaq.RowKept | src/utilities/fetchNASDAQ.js:112-131 | a row is kept exactly when it has at least as many fields as the header and its trimmed symbol and trimmed name are both non-empty; it then yields the trimmed symbol, the upper-cased trimmed name and the quote-page URL of the lower-cased symbol |
| Nasdaq.RowEmitted | src/utilities/fetchNASDAQ.js:118-131 | a kept row's listing has a non-empty trimmed symbol, a non-empty name without lower-case letters, instr `EQUITY`, market `NASDAQ` and the URL prefix followed by the lower-cased symbol |
| Nasdaq.RowsEmitted | src/utilities/fetchNASDAQ.js:109-135 | every listing of a list of rows has that form |
| Nasdaq.ParseRowsAppend | src/utilities/fetchNASDAQ.js:111-134 | the listings of two row lists in sequence are the listings of the first followed by those of the second, so output order follows row order |
| Nasdaq.ParseRowsSource | src/utilities/fetchNASDAQ.js:111-134 | every listing in the output is the listing of some row |
| Nasdaq.ParseRowsComplete | src/utilities/fetchNASDAQ.js:111-134 | the listing of every kept row is in the output |
| Nasdaq.ParseBounds | src/utilities/fetchNASDAQ.js:100-136 | a successful parse yields at most (line count - 2) listings, each of the form above |
| NyseService.FilterPayload | src/services/nyseService.ts:98-105 | each payload field is the option when the option is truthy and the default otherwise (`EQUITY`, 1, `NORMALIZED_TICKER`, `ASC`, 10, `''`), so `0` and `''` are replaced like a missing option; the fields with a truthy default are never falsy |
| NyseService.DefaultRequest | src/services/nyseService.ts:93-105 | calling with no options posts `EQUITY`, page 1, `NORMALIZED_TICKER`, `ASC`, 10 results and an empty filter token |
| NyseService.PayloadRoundTrip | src/services/nyseService.ts:98-105 | a full request passed as options is posted unchanged exactly when none of its defaulted fields is falsy |
| NyseService.FalsyIsMissing | src/services/nyseService.ts:98-105 | an option set to `0` or `''` gives the same payload as the option left out |
| NyseService.ProcessStockData | src/services/nyseService.ts:58-74 | exactly one record per quote, in input order, each with market `NYSE`, the given instr, the normalized ticker as symbol and the instrument name as name |
| ReitTransform.AsArray | src/utilities/transform.js:41 | an array response is used as it is; a single object becomes a one-element list |
| ReitTransform.Transform | src/utilities/transform.js:44-50 | one listing per wrapped quote, in order, with instr `REIT`, market `NYSE`, the exchange ticker as symbol, and name and url copied |
| ReitTransform.SingleObject | src/utilities/transform.js:41-50 | a single quote object gives exactly one listing |
| ReitTransform.TransformAppend | src/utilities/transform.js:44-50 | transforming a concatenation of arrays is the concatenation of the transforms: no quote is dropped or reordered |
| ReitTransform.ReitPayloadMatchesService | src/utilities/transform.js:14-21 | the fixed payload is what the service posts for the first instrument type of its list (`REIT`, nyseService.ts line 34) and 10000 results per page |
| ReitTransform.TickerFieldsAgreeIff | src/utilities/transform.js:45 | the REIT script and `processStockData` give the same record for a quote exactly when its exchange ticker equals its normalized ticker |
| SymbolModel.UppercaseSetter | src/models/Symbol.ts:6 | the setter keeps a missing value missing, leaves no lower-case letter, keeps the length, and leaves an upper-case value as it is |
| SymbolModel.Normalize | src/models/Symbol.ts:6-9 | `symbol` and `market` are upper-cased; `name` and `instr` are kept as given |
| SymbolModel.NormalizeIdempotent | src/models/Symbol.ts:6-8 | normalising twice gives the same document as normalising once |
| SymbolModel.MissingPaths | src/models/Symbol.ts:6-9 | a path is reported exactly when its value is missing or `''`; no path is reported exactly when all four are supplied |
| SymbolModel.Create | src/models/Symbol.ts:4-12 | a record is accepted exactly when all four fields are supplied; it then has the upper-cased symbol and market and the given name and instr, and otherwise the error lists the failing paths |
| SymbolModel.CreateRoundTrip | src/models/Symbol.ts:6-9 | a record goes through the schema unchanged exactly when it already conforms (non-empty fields, upper-case symbol and market) |
| SymbolModel.Save | src/models/Symbol.ts:14 | a valid record is added exactly when its normalised key is not taken, and is refused as a duplicate otherwise; adding keeps "no two records share a key" and "every record conforms" |
| SymbolModel.CaseVariantsCollide | src/models/Symbol.ts:6-14 | after one record is saved, an input whose symbol and market differ from it only in letter case is refused as a duplicate |
| Ingest.NasdaqListingsConform | src/utilities/fetchNASDAQ.js:125-131 | every listing of a successful NASDAQ parse passes the schema and is stored with the upper-cased symbol, its name, `NASDAQ` and `EQUITY` |
| Ingest.EmittedConforms | src/utilities/fetchNASDAQ.js:125-131 | a listing the parser can emit (non-empty trimmed symbol, upper-case name) is accepted by `Create` with exactly its symbol, name, `NASDAQ` and `EQUITY` |
| Ingest.NyseRecordConformsIff | src/services/nyseService.ts:67-72 | a `processStockData` record passes the schema exactly when the normalized ticker, the instrument name and the instr are non-empty |
| Ingest.ReitListingConformsIff | src/utilities/transform.js:44-50 | a REIT listing passes the schema exactly when the exchange ticker and the instrument name are non-empty, and is then keyed by the upper-cased ticker and `NYSE` |

## Left out

- Network and file I/O: `downloadNasdaqStocksHTTP`, `downloadNasdaqStocksFetch`, `saveToJSON` and `main` in src/utilities/fetchNASDAQ.js, the HTTP call in `getFilteredQuotes`, and the `fetch` and `fs.writeFile` calls of src/utilities/transform.js. The model starts from the text or the parsed JSON they produce.
- `loopInstruments` starts one request per instrument without awaiting it; this is concurrency, not logic. Only its instrument list (`Instruments`) is kept. `delay` is a timer and is not part of this model.
- Persistence: src/dataWriter.ts, dataWriter.js, src/database.ts and db.js are thin wrappers over mongoose and the connection lifecycle. Their duplicate, upsert and not-found behaviour belongs to the library. Only the schema rules and the unique index's admission rule (`Save`) are modelled, over a set of records. Timestamps are not modelled.
- Console logging is not modelled.
- NyseService.ProcessStockData: the source builds the list and then drops it (nothing is returned or stored). The model returns it so that the mapping can be stated.
- Text.ToUpper and Text.ToLower map ASCII letters only; JavaScript's `toUpperCase` and `toLowerCase` are Unicode-wide.
- NyseService.FilterPayload: numbers are integers, so a `NaN` option (also falsy in JavaScript) and fractional values are not modelled.
- Response items are taken to have the fields their TypeScript interface declares. An item with a missing field (`undefined` in JavaScript) is not modelled.
- SymbolModel.Create: mongoose's casting of non-string values to strings is not modelled; inputs are strings or missing.
