/**
 * The `Symbol` schema of src/models/Symbol.ts: the `uppercase` setters on
 * `symbol` and `market`, the `required` flags on all four fields, and the
 * unique compound index on `(symbol, market)`. The store is a set of records;
 * the database itself is not modelled.
 */
module SymbolModel {
  import opened Results
  import opened Text
  import opened Symbols

  /** What a caller hands to `new Symbol(data)`: any field may be missing. */
  datatype SymbolInput = SymbolInput(symbol: Option<string>, name: Option<string>, market: Option<string>, instr: Option<string>)

  /** The schema paths, in declaration order. */
  datatype Path = SymbolPath | NamePath | MarketPath | InstrPath

  /** The validation failure, listing every path whose `required` check failed. */
  datatype ValidationError = ValidationError(paths: seq<Path>)

  /** Why a record does not get into the collection. */
  datatype WriteError = Invalid(cause: ValidationError) | DuplicateKey

  /** The `uppercase: true` setter, applied to a value when it is assigned. */
  function UppercaseSetter(v: Option<string>): (r: Option<string>)
    ensures r.None? <==> v.None?
    ensures r.Some? ==> NoLower(r.value) && |r.value| == |v.value|
    ensures v.Some? && NoLower(v.value) ==> r == v
  {
    match v
    case None => None
    case Some(s) => ToUpperSound(s); Some(ToUpper(s))
  }

  /** The document after the setters ran: `symbol` and `market` upper-cased, `name` and `instr` as given. */
  function Normalize(input: SymbolInput): (r: SymbolInput)
    ensures r.name == input.name && r.instr == input.instr
    ensures r.symbol.None? <==> input.symbol.None?
    ensures r.market.None? <==> input.market.None?
    ensures r.symbol.Some? ==> NoLower(r.symbol.value) && |r.symbol.value| == |input.symbol.value|
    ensures r.market.Some? ==> NoLower(r.market.value) && |r.market.value| == |input.market.value|
  {
    SymbolInput(UppercaseSetter(input.symbol), input.name, UppercaseSetter(input.market), input.instr)
  }

  /** Normalising twice gives the same document as normalising once. */
  lemma NormalizeIdempotent(input: SymbolInput)
    ensures Normalize(Normalize(input)) == Normalize(input)
  {
    if input.symbol.Some? { ToUpperIdempotent(input.symbol.value); }
    if input.market.Some? { ToUpperIdempotent(input.market.value); }
  }

  /** mongoose's `required` check on a String path: the value is there and is not `''`. */
  predicate Supplied(v: Option<string>) {
    v.Some? && |v.value| > 0
  }

  predicate Complete(input: SymbolInput) {
    Supplied(input.symbol) && Supplied(input.name) && Supplied(input.market) && Supplied(input.instr)
  }

  /** The paths whose `required` check fails, in schema order. */
  function MissingPaths(input: SymbolInput): (paths: seq<Path>)
    ensures paths == [] <==> Complete(input)
    ensures SymbolPath in paths <==> !Supplied(input.symbol)
    ensures NamePath in paths <==> !Supplied(input.name)
    ensures MarketPath in paths <==> !Supplied(input.market)
    ensures InstrPath in paths <==> !Supplied(input.instr)
  {
    (if Supplied(input.symbol) then [] else [SymbolPath])
    + (if Supplied(input.name) then [] else [NamePath])
    + (if Supplied(input.market) then [] else [MarketPath])
    + (if Supplied(input.instr) then [] else [InstrPath])
  }

  /** What a stored record looks like: all four fields non-empty, `symbol` and `market` in upper case. */
  predicate Conforms(r: SymbolData) {
    |r.symbol| > 0 && |r.name| > 0 && |r.market| > 0 && |r.instr| > 0
    && NoLower(r.symbol) && NoLower(r.market)
  }

  /**
   * `new Symbol(data)` followed by validation: the setters run first, then
   * every `required` check; the record is accepted only if all four pass.
   */
  function Create(input: SymbolInput): (r: Result<SymbolData, ValidationError>)
    ensures r.Ok? <==> Complete(input)
    ensures r.Ok? ==> Conforms(r.value)
    ensures r.Ok? ==> r.value.symbol == ToUpper(input.symbol.value) && r.value.market == ToUpper(input.market.value)
    ensures r.Ok? ==> r.value.name == input.name.value && r.value.instr == input.instr.value
    ensures r.Err? ==> r.error == ValidationError(MissingPaths(input))
  {
    var doc := Normalize(input);
    var missing := MissingPaths(doc);
    if missing == [] then Ok(SymbolData(doc.symbol.value, doc.name.value, doc.market.value, doc.instr.value))
    else Err(ValidationError(missing))
  }

  /** The input that carries a record's four fields unchanged. */
  function InputOf(r: SymbolData): SymbolInput {
    SymbolInput(Some(r.symbol), Some(r.name), Some(r.market), Some(r.instr))
  }

  /** A conforming record goes through `Create` unchanged, and only conforming records come out of it. */
  lemma CreateRoundTrip(r: SymbolData)
    ensures Create(InputOf(r)) == Ok(r) <==> Conforms(r)
  {
    ToUpperSound(r.symbol);
    ToUpperSound(r.market);
  }

  // ---------------------------------------------------------------- the unique index

  /** The unique index's key. */
  function Key(r: SymbolData): (string, string) {
    (r.symbol, r.market)
  }

  /** No two stored records share a `(symbol, market)` pair. */
  predicate UniqueKeys(store: set<SymbolData>) {
    forall a, b :: a in store && b in store && Key(a) == Key(b) ==> a == b
  }

  /** Every stored record passed the schema. */
  predicate AllConform(store: set<SymbolData>) {
    forall a :: a in store ==> Conforms(a)
  }

  function Keys(store: set<SymbolData>): set<(string, string)> {
    set a | a in store :: Key(a)
  }

  /**
   * Saving one document: it is validated, then the unique index refuses it if
   * its (already upper-cased) key is taken; otherwise it joins the collection.
   */
  function Save(store: set<SymbolData>, input: SymbolInput): (r: Result<set<SymbolData>, WriteError>)
    ensures r.Ok? <==> Complete(input) && Key(Create(input).value) !in Keys(store)
    ensures r.Ok? ==> r.value == store + {Create(input).value}
    ensures r == Err(DuplicateKey) <==> Complete(input) && Key(Create(input).value) in Keys(store)
    ensures !Complete(input) ==> r == Err(Invalid(ValidationError(MissingPaths(input))))
    ensures r.Ok? && UniqueKeys(store) ==> UniqueKeys(r.value)
    ensures r.Ok? && AllConform(store) ==> AllConform(r.value)
  {
    match Create(input)
    case Err(e) => Err(Invalid(e))
    case Ok(rec) =>
      if Key(rec) in Keys(store) then Err(DuplicateKey)
      else
        assert forall a :: a in store ==> Key(a) != Key(rec);
        Ok(store + {rec})
  }

  /**
   * Upper-casing happens before the key is compared: once a record is saved,
   * a second input whose `symbol` and `market` differ from it only in letter
   * case is refused as a duplicate.
   */
  lemma CaseVariantsCollide(store: set<SymbolData>, a: SymbolInput, b: SymbolInput)
    requires Complete(a) && Complete(b)
    requires ToUpper(a.symbol.value) == ToUpper(b.symbol.value)
    requires ToUpper(a.market.value) == ToUpper(b.market.value)
    requires Save(store, a).Ok?
    ensures Save(Save(store, a).value, b) == Err(DuplicateKey)
  {
    var rec := Create(a).value;
    var after := Save(store, a).value;
    assert rec in after;
    assert Key(Create(b).value) == Key(rec);
    assert Key(rec) in Keys(after);
  }
}
