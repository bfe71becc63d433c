/** The instrument values of `bankroll.model.instrument`: one variant per class, built
    only through validating constructors that either return the value or name the check
    that failed, in the order the classes run their checks. */
module Instruments {
  import opened Wrappers
  import opened Decimals
  import opened Text
  import opened Dates
  import opened Patterns

  type CurrencyName = s: string | |s| > 0 witness "USD"

  /** A member of the `Currency` enumeration of `bankroll.model.cash`: distinct members
      have distinct, non-empty names. */
  datatype Currency = Currency(name: CurrencyName)

  /** `OptionType`, whose values are the letters of the option symbol. */
  datatype OptionType = Put | Call

  function OptionTypeValue(t: OptionType): char {
    match t
    case Put => 'P'
    case Call => 'C'
  }

  /** The class an `Option.__init__` call builds: `Option` itself or its subclass `FutureOption`. */
  datatype OptionClass = OptionCls | FutureOptionCls

  /** One variant per instrument class, each with the fields its instances hold. For Forex,
      `currency` is the quote currency. Stored strikes and multipliers are quantized values. */
  datatype Instrument =
    | Stock(symbol: string, currency: Currency)
    | Bond(symbol: string, currency: Currency)
    | Option(symbol: string, currency: Currency, underlying: string, optionType: OptionType,
             expiration: CalendarDate, strike: real, multiplier: real)
    | FutureOption(symbol: string, currency: Currency, underlying: string, optionType: OptionType,
                   expiration: CalendarDate, strike: real, multiplier: real)
    | Future(symbol: string, currency: Currency, multiplier: real, expiration: CalendarDate)
    | Forex(symbol: string, currency: Currency, baseCurrency: Currency)

  /** The `ValueError`s the constructors raise, one per check. A strike or multiplier that is
      not finite and one that is not positive fail the same check and carry the offending value. */
  datatype Error =
    | EmptySymbol
    | MissingCurrency
    | InvalidCusip(symbol: string)
    | EmptyUnderlying
    | InvalidStrike(strike: Decimal)
    | InvalidMultiplier(multiplier: Decimal)
    | IdenticalCurrencies(baseCurrency: Currency, quoteCurrency: Currency)

  /** The default of `Option`'s `multiplier` parameter, `Decimal(100)`. */
  const DefaultOptionMultiplier: Decimal := Finite(100.0)

  /** The default of `Bond`'s `validateSymbol` parameter. */
  const DefaultValidateSymbol: bool := true

  /** A strike as the constructors store it: a non-negative multiple of 0.001. */
  ghost predicate IsStoredStrike(k: real) {
    k >= 0.0 && IsInteger(k * StrikeSteps)
  }

  /** A multiplier as the constructors store it: a non-negative multiple of 0.1. */
  ghost predicate IsStoredMultiplier(m: real) {
    m >= 0.0 && IsInteger(m * MultiplierSteps)
  }

  /** What holds of every instrument a constructor returns. Bond symbols need not be CUSIPs
      because validation can be switched off. */
  ghost predicate Valid(i: Instrument) {
    && |i.symbol| > 0
    && match i
       case Stock(_, _) => true
       case Bond(_, _) => true
       case Option(_, _, u, _, _, k, m) => |u| > 0 && IsStoredStrike(k) && IsStoredMultiplier(m)
       case FutureOption(_, _, u, _, _, k, m) => |u| > 0 && IsStoredStrike(k) && IsStoredMultiplier(m)
       case Future(_, _, m, _) => IsStoredMultiplier(m)
       case Forex(s, q, b) => b != q && s == b.name + q.name
  }

  /** `Instrument.__post_init__`: the symbol must be non-empty, then the currency present. */
  function CheckBase(symbol: string, currency: Optional<Currency>): (r: Result<Currency, Error>)
    ensures r.Ok? <==> |symbol| > 0 && currency.Some?
    ensures |symbol| == 0 ==> r == Err(EmptySymbol)
    ensures |symbol| > 0 && currency.None? ==> r == Err(MissingCurrency)
    ensures r.Ok? ==> r.value == currency.value
  {
    if |symbol| == 0 then Err(EmptySymbol)
    else if currency.None? then Err(MissingCurrency)
    else Ok(currency.value)
  }

  /** `Stock(symbol, currency)`: the base checks and nothing more. */
  function NewStock(symbol: string, currency: Optional<Currency>): (r: Result<Instrument, Error>)
    ensures r.Ok? <==> |symbol| > 0 && currency.Some?
    ensures r.Err? ==> r.error == (if |symbol| == 0 then EmptySymbol else MissingCurrency)
    ensures r.Ok? ==> r.value == Stock(symbol, currency.value) && Valid(r.value)
  {
    match CheckBase(symbol, currency)
    case Err(e) => Err(e)
    case Ok(c) => Ok(Stock(symbol, c))
  }

  /** `Bond.validBondSymbol`: the CUSIP pattern matches. Python's `$` also matches before a
      final newline, so a tenth character `'\n'` is accepted. */
  function ValidBondSymbol(symbol: string): (b: bool)
    ensures b <==> CusipShape(symbol) && (|symbol| == 9 || (|symbol| == 10 && symbol[9] == '\n'))
  {
    CusipMatchIff(symbol);
    FullMatch(RegexCusip, symbol)
  }

  /** `Bond(symbol, currency, validateSymbol)`: the CUSIP check, when on, runs before the
      base checks. */
  function NewBond(symbol: string, currency: Optional<Currency>, validateSymbol: bool): (r: Result<Instrument, Error>)
    ensures r.Ok? <==> (!validateSymbol || ValidBondSymbol(symbol)) && |symbol| > 0 && currency.Some?
    ensures validateSymbol && !ValidBondSymbol(symbol) ==> r == Err(InvalidCusip(symbol))
    ensures r.Err? && (!validateSymbol || ValidBondSymbol(symbol)) ==>
      r.error == (if |symbol| == 0 then EmptySymbol else MissingCurrency)
    ensures r.Ok? ==> r.value == Bond(symbol, currency.value) && Valid(r.value)
  {
    if validateSymbol && !ValidBondSymbol(symbol) then Err(InvalidCusip(symbol))
    else
      match CheckBase(symbol, currency)
      case Err(e) => Err(e)
      case Ok(c) => Ok(Bond(symbol, c))
  }

  /** The number in the last field of an option symbol, `(strike * 1000):08.0f` without the
      padding: the strike in thousandths, rounded half-to-even. It is the quantized strike
      in thousandths. */
  function StrikeField(strike: real): (n: nat)
    requires strike > 0.0
    ensures n as real == QuantizeStrike(strike) * StrikeSteps
  {
    RoundHalfEven(strike * StrikeSteps)
  }

  /** The OCC symbol `Option.__init__` derives when none is given: the underlying padded to
      six characters, the expiration as `YYMMDD`, `P` or `C`, the strike in thousandths
      zero-padded to eight digits, without separators. */
  function OccSymbol(underlying: string, expiration: CalendarDate, optionType: OptionType, strike: real): (s: string)
    requires strike > 0.0
    ensures |s| >= 21
  {
    PadRight(underlying, 6) + YyMmDd(expiration) + [OptionTypeValue(optionType)]
      + ZeroPadLeft(NatToString(StrikeField(strike)), 8)
  }

  /** The strike, multiplier and underlying checks of `Option.__init__`, all passed. */
  predicate OptionInputsOk(underlying: string, strike: Decimal, multiplier: Decimal) {
    |underlying| > 0 && IsPositiveFinite(strike) && IsPositiveFinite(multiplier)
  }

  /** `Option.__init__` run for an instance of class `cls`: the underlying must be non-empty,
      then the strike, then the multiplier positive and finite; the strike is stored
      quantized to 0.001 and the multiplier to 0.1; an absent symbol is derived; then the
      base checks run on the symbol and the currency. `Option(...)` is `cls == OptionCls`. */
  function OptionInit(cls: OptionClass, underlying: string, currency: Optional<Currency>,
                      optionType: OptionType, expiration: CalendarDate, strike: Decimal,
                      multiplier: Decimal, symbol: Optional<string>): (r: Result<Instrument, Error>)
    ensures |underlying| == 0 ==> r == Err(EmptyUnderlying)
    ensures |underlying| > 0 && !IsPositiveFinite(strike) ==> r == Err(InvalidStrike(strike))
    ensures |underlying| > 0 && IsPositiveFinite(strike) && !IsPositiveFinite(multiplier) ==>
      r == Err(InvalidMultiplier(multiplier))
    ensures OptionInputsOk(underlying, strike, multiplier) && symbol == Some("") ==> r == Err(EmptySymbol)
    ensures OptionInputsOk(underlying, strike, multiplier) && symbol != Some("") && currency.None? ==>
      r == Err(MissingCurrency)
    ensures r.Ok? <==> OptionInputsOk(underlying, strike, multiplier) && symbol != Some("") && currency.Some?
    ensures r.Ok? ==>
      && Valid(r.value)
      && (if cls == OptionCls then r.value.Option? else r.value.FutureOption?)
      && r.value.currency == currency.value
      && r.value.underlying == underlying
      && r.value.optionType == optionType
      && r.value.expiration == expiration
      && r.value.strike == QuantizeStrike(strike.value)
      && r.value.multiplier == QuantizeMultiplier(multiplier.value)
    ensures r.Ok? && symbol.Some? ==> r.value.symbol == symbol.value
    ensures r.Ok? && symbol.None? ==>
      IsPositiveFinite(strike) && r.value.symbol == OccSymbol(underlying, expiration, optionType, strike.value)
  {
    if |underlying| == 0 then Err(EmptyUnderlying)
    else if !IsPositiveFinite(strike) then Err(InvalidStrike(strike))
    else if !IsPositiveFinite(multiplier) then Err(InvalidMultiplier(multiplier))
    else
      var k := QuantizeStrike(strike.value);
      var m := QuantizeMultiplier(multiplier.value);
      QuantizePositive(strike.value);
      QuantizePositive(multiplier.value);
      var sym := if symbol.Some? then symbol.value
                 else OccSymbol(underlying, expiration, optionType, strike.value);
      match CheckBase(sym, currency)
      case Err(e) => Err(e)
      case Ok(c) =>
        if cls == OptionCls then Ok(Option(sym, c, underlying, optionType, expiration, k, m))
        else Ok(FutureOption(sym, c, underlying, optionType, expiration, k, m))
  }

  /** `FutureOption(...)`: the symbol is always given and used verbatim; it fails exactly as
      an `Option` with that symbol would, and otherwise holds the same fields. */
  function NewFutureOption(symbol: string, underlying: string, currency: Optional<Currency>,
                           optionType: OptionType, expiration: CalendarDate, strike: Decimal,
                           multiplier: Decimal): (r: Result<Instrument, Error>)
    ensures r.Ok? <==> OptionInputsOk(underlying, strike, multiplier) && |symbol| > 0 && currency.Some?
    ensures r.Err? ==>
      r == OptionInit(OptionCls, underlying, currency, optionType, expiration, strike, multiplier, Some(symbol))
    ensures r.Ok? ==>
      && r.value.FutureOption?
      && r.value.symbol == symbol
      && Valid(r.value)
      && var o := OptionInit(OptionCls, underlying, currency, optionType, expiration, strike, multiplier, Some(symbol));
         o.Ok? && r.value == FutureOption(o.value.symbol, o.value.currency, o.value.underlying,
           o.value.optionType, o.value.expiration, o.value.strike, o.value.multiplier)
  {
    OptionInit(FutureOptionCls, underlying, currency, optionType, expiration, strike, multiplier, Some(symbol))
  }

  /** `Future(symbol, currency, multiplier, expiration)`: the multiplier must be positive and
      finite, checked before the base checks; it is stored quantized to 0.1. */
  function NewFuture(symbol: string, currency: Optional<Currency>, multiplier: Decimal,
                     expiration: CalendarDate): (r: Result<Instrument, Error>)
    ensures r.Ok? <==> IsPositiveFinite(multiplier) && |symbol| > 0 && currency.Some?
    ensures !IsPositiveFinite(multiplier) ==> r == Err(InvalidMultiplier(multiplier))
    ensures r.Err? && IsPositiveFinite(multiplier) ==>
      r.error == (if |symbol| == 0 then EmptySymbol else MissingCurrency)
    ensures r.Ok? ==>
      r.value == Future(symbol, currency.value, QuantizeMultiplier(multiplier.value), expiration)
      && Valid(r.value)
  {
    if !IsPositiveFinite(multiplier) then Err(InvalidMultiplier(multiplier))
    else
      var m := QuantizeMultiplier(multiplier.value);
      QuantizePositive(multiplier.value);
      match CheckBase(symbol, currency)
      case Err(e) => Err(e)
      case Ok(c) => Ok(Future(symbol, c, m, expiration))
  }

  /** `Forex(baseCurrency, quoteCurrency)`: the two currencies must differ; the symbol is
      their names run together and the quote currency is the instrument's currency. */
  function NewForex(baseCurrency: Currency, quoteCurrency: Currency): (r: Result<Instrument, Error>)
    ensures r.Ok? <==> baseCurrency != quoteCurrency
    ensures r.Err? ==> r.error == IdenticalCurrencies(baseCurrency, quoteCurrency)
    ensures r.Ok? ==>
      r.value == Forex(baseCurrency.name + quoteCurrency.name, quoteCurrency, baseCurrency)
      && Valid(r.value)
  {
    if baseCurrency == quoteCurrency then Err(IdenticalCurrencies(baseCurrency, quoteCurrency))
    else
      var symbol := baseCurrency.name + quoteCurrency.name;
      match CheckBase(symbol, Some(quoteCurrency))
      case Err(e) => Err(e)
      case Ok(c) => Ok(Forex(symbol, c, baseCurrency))
  }

  /** `Forex.quoteCurrency`: the currency the pair is quoted in. */
  function QuoteCurrency(i: Instrument): Currency
    requires i.Forex?
  {
    i.currency
  }

  /** `Forex.baseCurrency`. */
  function BaseCurrency(i: Instrument): Currency
    requires i.Forex?
  {
    i.baseCurrency
  }

  /** The `multiplier` property: 1 for the classes that keep the base default, the stored
      quantized value for options, future options and futures. */
  function Multiplier(i: Instrument): (m: real)
    ensures i.Stock? || i.Bond? || i.Forex? ==> m == 1.0
    ensures Valid(i) ==> IsStoredMultiplier(m)
  {
    match i
    case Option(_, _, _, _, _, _, m) => m
    case FutureOption(_, _, _, _, _, _, m) => m
    case Future(_, _, m, _) => m
    case _ => 1.0
  }

  /** `str(i)` and the plain `format(i, '')`: the symbol, never empty for a built instrument. */
  function Str(i: Instrument): (s: string)
    ensures s == i.symbol
    ensures Valid(i) ==> |s| > 0
  {
    i.symbol
  }

  /** `a.__lt__(b)`: by symbol only, whatever the classes of `a` and `b`. */
  predicate Lt(a: Instrument, b: Instrument) {
    StrLess(a.symbol, b.symbol)
  }

  /** The class of an instrument, which the dataclass equality compares. */
  datatype Kind = StockKind | BondKind | OptionKind | FutureOptionKind | FutureKind | ForexKind

  function KindOf(i: Instrument): Kind {
    match i
    case Stock(_, _) => StockKind
    case Bond(_, _) => BondKind
    case Option(_, _, _, _, _, _, _) => OptionKind
    case FutureOption(_, _, _, _, _, _, _) => FutureOptionKind
    case Future(_, _, _, _) => FutureKind
    case Forex(_, _, _) => ForexKind
  }

  /** `a == b` as the dataclass generates it for `Instrument` and inherits to every class:
      the same class, then equal `(symbol, currency)`; the other fields are not compared.
      Across classes both sides answer `NotImplemented` and Python falls back to identity,
      which distinct values never share, so this is also the `==` operator. */
  predicate Eq(a: Instrument, b: Instrument) {
    KindOf(a) == KindOf(b) && a.symbol == b.symbol && a.currency == b.currency
  }

  /** `a.__le__(b)`, `a.__gt__(b)`, `a.__ge__(b)` as `functools.total_ordering` derives
      them from `__lt__` and `==`. */
  predicate Le(a: Instrument, b: Instrument) {
    Lt(a, b) || Eq(a, b)
  }

  predicate Gt(a: Instrument, b: Instrument) {
    !Lt(a, b) && !Eq(a, b)
  }

  predicate Ge(a: Instrument, b: Instrument) {
    !Lt(a, b)
  }

  /** The class of `b` is a proper subclass of the class of `a`. Among the instrument
      classes only `FutureOption` subclasses another one, `Option`. */
  predicate SubclassOnRight(a: Instrument, b: Instrument) {
    a.Option? && b.FutureOption?
  }

  /** The operators `a < b`, `a <= b`, `a > b`, `a >= b`. When the right operand's class is
      a proper subclass of the left operand's, Python runs the right operand's reflected
      method first (`b.__gt__(a)` for `a < b`), and it always answers; otherwise the left
      operand's own method answers. */
  predicate OpLt(a: Instrument, b: Instrument) {
    if SubclassOnRight(a, b) then Gt(b, a) else Lt(a, b)
  }

  predicate OpLe(a: Instrument, b: Instrument) {
    if SubclassOnRight(a, b) then Ge(b, a) else Le(a, b)
  }

  predicate OpGt(a: Instrument, b: Instrument) {
    if SubclassOnRight(a, b) then Lt(b, a) else Gt(a, b)
  }

  predicate OpGe(a: Instrument, b: Instrument) {
    if SubclassOnRight(a, b) then Le(b, a) else Ge(a, b)
  }
}
