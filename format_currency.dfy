/** The currency formatter: a symbol table, a symbol lookup with a fallback,
    and the composition of a locale-formatted number with the symbol. The
    host's `Number.prototype.toLocaleString` is a parameter. */
module FormatCurrency {
  import opened Common

  datatype Position = Prefix | Suffix

  datatype Meta = Meta(symbol: string, position: Position)

  /** `toLocaleString(undefined, { minimumFractionDigits, maximumFractionDigits })`
      of the host, applied to a number. */
  type Localize = (real, nat, nat) -> string

  /** The options object; an absent digit count is None. */
  datatype Options = Options(minimumFractionDigits: Option<nat>, maximumFractionDigits: Option<nat>)

  const NoOptions: Options := Options(None, None)

  const UsdMeta: Meta := Meta("$", Prefix)

  /** The own entries of the `SYMBOLS` table. The EUR symbol is the
      repository's literal, kept character for character. */
  function Symbols(code: string): (r: Option<Meta>)
    ensures r.Some? <==> code == "USD" || code == "EUR" || code == "SOS"
    ensures code == "USD" ==> r == Some(UsdMeta)
    // every own entry is a non-empty prefix symbol
    ensures r.Some? ==> r.value.position == Prefix && r.value.symbol != ""
  {
    if code == "USD" then Some(UsdMeta)
    else if code == "EUR" then Some(Meta("â‚¬", Prefix))
    else if code == "SOS" then Some(Meta("Sh", Prefix))
    else None
  }

  const AvailableCurrencies: seq<string> := ["USD", "EUR", "SOS"]

  /** Keys that every JavaScript object literal inherits from Object.prototype. */
  const ObjectPrototypeKeys: set<string> := {
    "constructor", "hasOwnProperty", "isPrototypeOf", "propertyIsEnumerable",
    "toLocaleString", "toString", "valueOf", "__proto__",
    "__defineGetter__", "__defineSetter__", "__lookupGetter__", "__lookupSetter__" }

  /** What the property access `SYMBOLS[code]` yields: an own entry, an
      inherited member (truthy, without `symbol` or `position`), or undefined. */
  datatype Property = Own(meta: Meta) | Inherited | Missing

  function SymbolsProperty(code: string): (r: Property)
    ensures r.Own? <==> Symbols(code).Some?
    ensures r.Own? ==> r.meta == Symbols(code).value
    ensures r.Inherited? <==> Symbols(code).None? && code in ObjectPrototypeKeys
    ensures r.Missing? <==> Symbols(code).None? && code !in ObjectPrototypeKeys
  {
    match Symbols(code)
    case Some(m) => Own(m)
    case None => if code in ObjectPrototypeKeys then Inherited else Missing
  }

  /** `getCurrencySymbol`: the table's symbol, or "$" for any other code. */
  function GetCurrencySymbol(code: string): (r: string)
    ensures Symbols(code).Some? ==> r == Symbols(code).value.symbol
    ensures Symbols(code).None? ==> r == "$"
  {
    match SymbolsProperty(code)
    case Own(m) => if m.symbol != "" then m.symbol else "$"
    case Inherited => "$"
    case Missing => "$"
  }

  /** `Number(amount) || 0`: a non-numeric amount (None) becomes 0. */
  function Coerce(amount: Option<real>): (r: real)
    ensures amount.Some? ==> r == amount.value
    ensures amount.None? ==> r == 0.0
  {
    match amount
    case Some(v) => v
    case None => 0.0
  }

  function MinDigits(opts: Options): nat
  {
    match opts.minimumFractionDigits
    case Some(n) => n
    case None => 0
  }

  function MaxDigits(opts: Options): nat
  {
    match opts.maximumFractionDigits
    case Some(n) => n
    case None => 0
  }

  function Compose(m: Meta, formatted: string): string
  {
    if m.position == Prefix then m.symbol + formatted else formatted + m.symbol
  }

  /** `formatCurrency` as written: `SYMBOLS[code] || SYMBOLS['USD']` keeps an
      inherited member, whose `position` is not 'prefix' and whose `symbol`
      prints as "undefined". */
  function FormatCurrencyAsWritten(amount: Option<real>, code: string, opts: Options, localize: Localize): (r: string)
    ensures Symbols(code).Some? ==> r == Compose(Symbols(code).value, localize(Coerce(amount), MinDigits(opts), MaxDigits(opts)))
    ensures Symbols(code).None? && code !in ObjectPrototypeKeys ==>
      r == "$" + localize(Coerce(amount), MinDigits(opts), MaxDigits(opts))
    ensures Symbols(code).None? && code in ObjectPrototypeKeys ==>
      r == localize(Coerce(amount), MinDigits(opts), MaxDigits(opts)) + "undefined"
  {
    var formatted := localize(Coerce(amount), MinDigits(opts), MaxDigits(opts));
    match SymbolsProperty(code)
    case Own(m) => Compose(m, formatted)
    case Missing => Compose(UsdMeta, formatted)
    case Inherited => formatted + "undefined"
  }

  /** The table entry used for `code`: its own entry, else USD's. */
  function MetaFor(code: string): (m: Meta)
    ensures Symbols(code).Some? ==> m == Symbols(code).value
    ensures Symbols(code).None? ==> m == UsdMeta
  {
    match Symbols(code)
    case Some(m) => m
    case None => UsdMeta
  }

  /** `formatCurrency` with the fallback to USD for every code that is not an
      own entry of the table. */
  function FormatCurrency(amount: Option<real>, code: string, opts: Options, localize: Localize): (r: string)
    ensures Symbols(code).None? ==> r == "$" + localize(Coerce(amount), MinDigits(opts), MaxDigits(opts))
    ensures Symbols(code).Some? ==> r == Compose(Symbols(code).value, localize(Coerce(amount), MinDigits(opts), MaxDigits(opts)))
  {
    Compose(MetaFor(code), localize(Coerce(amount), MinDigits(opts), MaxDigits(opts)))
  }

  /** What the formatter promises its callers. */
  lemma FormatCurrencySpec(amount: Option<real>, code: string, opts: Options, localize: Localize)
    // an unknown code formats exactly as USD
    ensures Symbols(code).None? ==>
      FormatCurrency(amount, code, opts, localize) == FormatCurrency(amount, "USD", opts, localize)
    // symbol and number are composed according to the entry's position
    ensures Symbols(code).Some? && Symbols(code).value.position == Prefix ==>
      FormatCurrency(amount, code, opts, localize)
        == Symbols(code).value.symbol + localize(Coerce(amount), MinDigits(opts), MaxDigits(opts))
    ensures Symbols(code).Some? && Symbols(code).value.position == Suffix ==>
      FormatCurrency(amount, code, opts, localize)
        == localize(Coerce(amount), MinDigits(opts), MaxDigits(opts)) + Symbols(code).value.symbol
    // a non-numeric amount formats as 0
    ensures FormatCurrency(None, code, opts, localize) == FormatCurrency(Some(0.0), code, opts, localize)
    // both digit counts default to 0
    ensures FormatCurrency(amount, code, NoOptions, localize)
         == FormatCurrency(amount, code, Options(Some(0), Some(0)), localize)
  {
  }

  /** Every offered currency has its own table entry, so neither fallback
      fires for a code the user can pick. */
  lemma AvailableCurrenciesHaveSymbols()
    ensures forall c :: c in AvailableCurrencies ==>
      Symbols(c).Some? && GetCurrencySymbol(c) == Symbols(c).value.symbol
      && (forall a, o, l :: FormatCurrencyAsWritten(a, c, o, l) == FormatCurrency(a, c, o, l))
  {
  }

  /** Off the inherited keys, the code as written and the formatter with the
      fallback agree on every input. */
  lemma AsWrittenAgreesOffPrototype(amount: Option<real>, code: string, opts: Options, localize: Localize)
    requires code !in ObjectPrototypeKeys
    ensures FormatCurrencyAsWritten(amount, code, opts, localize) == FormatCurrency(amount, code, opts, localize)
  {
  }

  /** The code as written loses the USD fallback for an inherited key: the
      stored code "toString" formats 5 as the number followed by "undefined"
      instead of "$" followed by the number. */
  lemma InheritedKeyLosesFallback(localize: Localize)
    ensures FormatCurrencyAsWritten(Some(5.0), "toString", NoOptions, localize)
         == localize(5.0, 0, 0) + "undefined"
    ensures FormatCurrency(Some(5.0), "toString", NoOptions, localize) == "$" + localize(5.0, 0, 0)
    ensures FormatCurrencyAsWritten(Some(5.0), "toString", NoOptions, localize)
         != FormatCurrency(Some(5.0), "toString", NoOptions, localize)
  {
    var f := localize(5.0, 0, 0);
    assert "toString" in ObjectPrototypeKeys;
    assert |f + "undefined"| == |f| + 9;
    assert |"$" + f| == |f| + 1;
  }
}
