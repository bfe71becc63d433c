/** Properties of the instrument model that relate several operations: what a derived
    option symbol encodes, how the ordering and the equality behave across classes, and
    worked examples. */
module InstrumentProperties {
  import opened Wrappers
  import opened Decimals
  import opened Text
  import opened Dates
  import opened Patterns
  import opened Instruments

  // ---------------------------------------------------------------- option symbols

  /** Where each part of a derived option symbol sits: the padded underlying (six
      characters, or the whole underlying if longer), `YYMMDD`, the type letter, then the
      zero-padded strike digits to the end. */
  lemma OccSymbolLayout(underlying: string, expiration: CalendarDate, optionType: OptionType, strike: real)
    requires strike > 0.0
    ensures var s := OccSymbol(underlying, expiration, optionType, strike);
      var w := if |underlying| < 6 then 6 else |underlying|;
      && |s| > w + 7
      && s[..w] == PadRight(underlying, 6)
      && s[w..w + 6] == YyMmDd(expiration)
      && s[w + 6] == OptionTypeValue(optionType)
      && s[w + 7..] == ZeroPadLeft(NatToString(StrikeField(strike)), 8)
  {
    SymbolParts(PadRight(underlying, 6), YyMmDd(expiration), OptionTypeValue(optionType),
                ZeroPadLeft(NatToString(StrikeField(strike)), 8));
  }

  lemma SymbolParts(pad: string, date: string, letter: char, field: string)
    requires |date| == 6
    ensures var s, w := pad + date + [letter] + field, |pad|;
      && |s| == w + 7 + |field|
      && s[..w] == pad && s[w..w + 6] == date && s[w + 6] == letter && s[w + 7..] == field
  {
    var s, w := pad + date + [letter] + field, |pad|;
    assert s[..w] == pad;
    assert s[w..w + 6] == date;
    assert s[w + 7..] == field;
  }

  /** The padded underlying at the start of a symbol reads back as the underlying
      followed by spaces. */
  lemma PaddedUnderlyingAt(s: string, underlying: string)
    requires var w := if |underlying| < 6 then 6 else |underlying|;
      w <= |s| && s[..w] == PadRight(underlying, 6)
    ensures s[..|underlying|] == underlying
    ensures forall j | |underlying| <= j < (if |underlying| < 6 then 6 else |underlying|) :: s[j] == ' '
  {
    var w := if |underlying| < 6 then 6 else |underlying|;
    var pad := s[..w];
    assert s[..|underlying|] == pad[..|underlying|];
    assert forall j | |underlying| <= j < w :: s[j] == pad[j];
  }

  /** Zero-padded digits of `n` from position `w` to the end read back as `n`. */
  lemma DigitsAt(s: string, w: nat, n: nat)
    requires w <= |s| && s[w..] == ZeroPadLeft(NatToString(n), 8)
    ensures AllDigits(s[w..]) && ParseNat(s[w..]) == n
  {
    ParseNatZeroPadLeft(NatToString(n), 8);
  }

  /** A derived option symbol starts with the underlying, followed by spaces up to six
      characters; the underlying is never cut. */
  lemma OccSymbolUnderlying(underlying: string, expiration: CalendarDate, optionType: OptionType, strike: real)
    requires strike > 0.0
    ensures var s := OccSymbol(underlying, expiration, optionType, strike);
      && |s| >= 6 && |s| >= |underlying|
      && s[..|underlying|] == underlying
      && (forall j | |underlying| <= j < 6 :: s[j] == ' ')
  {
    OccSymbolLayout(underlying, expiration, optionType, strike);
    PaddedUnderlyingAt(OccSymbol(underlying, expiration, optionType, strike), underlying);
  }

  /** The rest of a derived option symbol are digits that read back as the strike in
      thousandths, rounded half-to-even. */
  lemma OccSymbolStrike(underlying: string, expiration: CalendarDate, optionType: OptionType, strike: real)
    requires strike > 0.0
    ensures var s := OccSymbol(underlying, expiration, optionType, strike);
      var w := if |underlying| < 6 then 6 else |underlying|;
      && |s| > w + 7
      && AllDigits(s[w + 7..])
      && ParseNat(s[w + 7..]) == StrikeField(strike)
  {
    var w := if |underlying| < 6 then 6 else |underlying|;
    OccSymbolLayout(underlying, expiration, optionType, strike);
    DigitsAt(OccSymbol(underlying, expiration, optionType, strike), w + 7, StrikeField(strike));
  }

  /** The six characters after the padded underlying of a derived option symbol read back
      as the expiration's year within its century, month and day. */
  lemma OccSymbolExpiration(underlying: string, expiration: CalendarDate, optionType: OptionType, strike: real)
    requires strike > 0.0
    ensures var s := OccSymbol(underlying, expiration, optionType, strike);
      var w := if |underlying| < 6 then 6 else |underlying|;
      |s| > w + 7 && EncodesDate(s[w..w + 6], expiration)
  {
    OccSymbolLayout(underlying, expiration, optionType, strike);
    YyMmDdFields(expiration);
  }

  /** A derived symbol is exactly 21 characters when the underlying fits in six and the
      strike in eight digits, and longer otherwise: padding never truncates. */
  lemma OccSymbolLength(underlying: string, expiration: CalendarDate, optionType: OptionType, strike: real)
    requires strike > 0.0
    ensures |OccSymbol(underlying, expiration, optionType, strike)| == 21 <==>
      |underlying| <= 6 && StrikeField(strike) < Pow10(8)
  {
    var n := StrikeField(strike);
    if n < Pow10(8) {
      NatToStringLength(n, 8);
    } else {
      NatToStringLengthBelow(n, 8);
    }
  }

  /** An option built without a symbol carries the OCC symbol of its own underlying,
      expiration and type, and the strike digits of that symbol are its stored (quantized)
      strike in thousandths, although they are computed from the strike as given. */
  lemma DerivedSymbolEncodesFields(cls: OptionClass, underlying: string, currency: Optional<Currency>,
                                   optionType: OptionType, expiration: CalendarDate, strike: Decimal,
                                   multiplier: Decimal, i: Instrument)
    requires OptionInit(cls, underlying, currency, optionType, expiration, strike, multiplier, None) == Ok(i)
    ensures (i.Option? || i.FutureOption?) && IsPositiveFinite(strike)
    ensures i.symbol == OccSymbol(i.underlying, i.expiration, i.optionType, strike.value)
    ensures StrikeField(strike.value) as real == i.strike * StrikeSteps
  {
  }

  lemma AaplPadded()
    ensures PadRight("AAPL", 6) == "AAPL  "
  {
  }

  lemma ExpirationExample()
    ensures YyMmDd(Date(2021, 1, 15)) == "210115"
  {
  }

  lemma StrikeFieldExample()
    ensures StrikeField(150.0) == 150000
  {
  }

  lemma DigitsExample()
    ensures NatToString(1500) == "1500"
  {
    assert NatToString(15) == "15";
    assert NatToString(150) == "150";
  }

  lemma StrikeDigitsExample()
    ensures ZeroPadLeft(NatToString(StrikeField(150.0)), 8) == "00150000"
  {
    StrikeFieldExample();
    DigitsExample();
    assert NatToString(15000) == "15000";
    assert NatToString(150000) == "150000";
  }

  /** The example of the OCC symbology: a put on AAPL expiring 2021-01-15 at 150. */
  lemma OccSymbolExample(underlying: string, expiration: CalendarDate, optionType: OptionType, strike: real)
    requires underlying == "AAPL" && expiration == Date(2021, 1, 15) && optionType == Put && strike == 150.0
    ensures OccSymbol(underlying, expiration, optionType, strike) == "AAPL  210115P00150000"
  {
    AaplPadded();
    ExpirationExample();
    StrikeDigitsExample();
    AaplSymbolText(PadRight(underlying, 6), YyMmDd(expiration), OptionTypeValue(optionType),
                   ZeroPadLeft(NatToString(StrikeField(strike)), 8));
  }

  lemma AaplSymbolText(pad: string, date: string, letter: char, field: string)
    requires pad == "AAPL  " && date == "210115" && letter == 'P' && field == "00150000"
    ensures pad + date + [letter] + field == "AAPL  210115P00150000"
  {
  }

  lemma TinyStrikeSymbol()
    ensures OccSymbol("XYZ", Date(2021, 1, 15), Call, 0.0005) == "XYZ   210115C00000000"
  {
    assert StrikeField(0.0005) == 0;
    assert ZeroPadLeft(NatToString(0), 8) == "00000000";
    assert PadRight("XYZ", 6) == "XYZ   ";
    ExpirationExample();
  }

  /** The positivity checks look at the strike as given, not at the stored value: a strike
      of 0.0005 passes them, is stored as 0, and its symbol carries zero strike digits. */
  lemma StoredStrikeMayBeZero(c: Currency)
    ensures var r := OptionInit(OptionCls, "XYZ", Some(c), Call, Date(2021, 1, 15), Finite(0.0005),
                                DefaultOptionMultiplier, None);
      r.Ok? && r.value.strike == 0.0 && r.value.symbol == "XYZ   210115C00000000"
  {
    QuantizeStrikeExamples();
    TinyStrikeSymbol();
  }

  /** Without an explicit multiplier an option holds 100. */
  lemma OptionDefaultMultiplier(cls: OptionClass, underlying: string, currency: Optional<Currency>,
                                optionType: OptionType, expiration: CalendarDate, strike: Decimal,
                                symbol: Optional<string>, i: Instrument)
    requires OptionInit(cls, underlying, currency, optionType, expiration, strike, DefaultOptionMultiplier, symbol) == Ok(i)
    ensures Multiplier(i) == 100.0
  {
    QuantizeMultiplierUnique(100.0, 100.0);
  }

  // ---------------------------------------------------------------- ordering

  lemma LtIrreflexive(a: Instrument)
    ensures !Lt(a, a)
  {
    StrLessIrreflexive(a.symbol);
  }

  lemma LtAsymmetric(a: Instrument, b: Instrument)
    requires Lt(a, b)
    ensures !Lt(b, a)
  {
    StrLessAsymmetric(a.symbol, b.symbol);
  }

  lemma LtTransitive(a: Instrument, b: Instrument, c: Instrument)
    requires Lt(a, b) && Lt(b, c)
    ensures Lt(a, c)
  {
    StrLessTransitive(a.symbol, b.symbol, c.symbol);
  }

  /** Of two symbols exactly one is less than the other, or they are the same. */
  lemma LtTrichotomy(a: Instrument, b: Instrument)
    ensures Lt(a, b) || a.symbol == b.symbol || Lt(b, a)
    ensures !(Lt(a, b) && Lt(b, a))
    ensures a.symbol == b.symbol ==> !Lt(a, b)
  {
    if a.symbol != b.symbol {
      StrLessConnected(a.symbol, b.symbol);
      if Lt(a, b) {
        LtAsymmetric(a, b);
      }
    } else {
      StrLessIrreflexive(a.symbol);
    }
  }

  /** The operator `<` orders by symbol, and on one symbol puts an `Option` before a
      `FutureOption`. */
  lemma OpLtIff(a: Instrument, b: Instrument)
    ensures OpLt(a, b) <==> Lt(a, b) || (a.symbol == b.symbol && SubclassOnRight(a, b))
  {
    LtTrichotomy(a, b);
  }

  lemma OpLtIrreflexive(a: Instrument)
    ensures !OpLt(a, a)
  {
    OpLtIff(a, a);
    LtIrreflexive(a);
  }

  lemma OpLtAsymmetric(a: Instrument, b: Instrument)
    requires OpLt(a, b)
    ensures !OpLt(b, a)
  {
    OpLtIff(a, b);
    OpLtIff(b, a);
    LtTrichotomy(a, b);
  }

  lemma OpLtTransitive(a: Instrument, b: Instrument, c: Instrument)
    requires OpLt(a, b) && OpLt(b, c)
    ensures OpLt(a, c)
  {
    OpLtIff(a, b);
    OpLtIff(b, c);
    OpLtIff(a, c);
    if Lt(a, b) && Lt(b, c) {
      LtTransitive(a, b, c);
    }
  }

  /** Two instruments are ordered by `<` one way or the other exactly when their symbols
      differ or one is an `Option` and the other a `FutureOption`. */
  lemma LtTotalOnSymbols(a: Instrument, b: Instrument)
    ensures OpLt(a, b) || OpLt(b, a) <==>
      a.symbol != b.symbol || SubclassOnRight(a, b) || SubclassOnRight(b, a)
  {
    OpLtIff(a, b);
    OpLtIff(b, a);
    LtTrichotomy(a, b);
  }

  /** `a <= b or b <= a` holds exactly when the symbols differ, the instruments are equal,
      or one is an `Option` and the other a `FutureOption`. */
  lemma LeEitherWay(a: Instrument, b: Instrument)
    ensures OpLe(a, b) || OpLe(b, a) <==>
      a.symbol != b.symbol || Eq(a, b) || SubclassOnRight(a, b) || SubclassOnRight(b, a)
  {
    LtTrichotomy(a, b);
  }

  /** The operator `>` is the reversed `<`, widened on one symbol by every pair of unequal
      instruments whose classes are not `Option` and `FutureOption`. */
  lemma GtIff(a: Instrument, b: Instrument)
    ensures OpGt(a, b) <==>
      OpLt(b, a) || (a.symbol == b.symbol && !Eq(a, b) && !SubclassOnRight(a, b) && !SubclassOnRight(b, a))
  {
    LtTrichotomy(a, b);
  }

  /** The operator `>=` is the reversed `<`, widened by every instrument with the same symbol
      unless the right operand is a `FutureOption` and the left an `Option`. */
  lemma GeIff(a: Instrument, b: Instrument)
    ensures OpGe(a, b) <==> OpLt(b, a) || (a.symbol == b.symbol && !SubclassOnRight(a, b))
  {
    LtTrichotomy(a, b);
  }

  /** Two instruments of different classes with one symbol, other than an `Option` and a
      `FutureOption`, are each greater than the other, and neither is less than or equal
      to the other. */
  lemma SameSymbolDifferentClasses(a: Instrument, b: Instrument)
    requires a.symbol == b.symbol && KindOf(a) != KindOf(b)
    requires !SubclassOnRight(a, b) && !SubclassOnRight(b, a)
    ensures OpGt(a, b) && OpGt(b, a)
    ensures !OpLt(a, b) && !OpLt(b, a)
    ensures !OpLe(a, b) && !OpLe(b, a)
    ensures OpGe(a, b) && OpGe(b, a)
  {
    LtTrichotomy(a, b);
  }

  /** An `Option` and a `FutureOption` with one symbol are ordered consistently: the option
      comes first, because the operators defer to the future option's reflected methods. */
  lemma OptionBeforeFutureOption(o: Instrument, f: Instrument)
    requires SubclassOnRight(o, f) && o.symbol == f.symbol
    ensures OpLt(o, f) && OpLe(o, f) && !OpGt(o, f) && !OpGe(o, f)
    ensures !OpLt(f, o) && !OpLe(f, o) && OpGt(f, o) && OpGe(f, o)
  {
    LtTrichotomy(o, f);
  }

  /** The operators answer as the left operand's own methods do, except on an `Option` and
      a `FutureOption` with one symbol, where all four answers are reversed. */
  lemma OperatorsAgreeWithMethods(a: Instrument, b: Instrument)
    ensures (OpLt(a, b) == Lt(a, b) && OpLe(a, b) == Le(a, b) && OpGt(a, b) == Gt(a, b) && OpGe(a, b) == Ge(a, b))
      <==> !(SubclassOnRight(a, b) && a.symbol == b.symbol)
    ensures SubclassOnRight(a, b) && a.symbol == b.symbol ==>
      OpLt(a, b) != Lt(a, b) && OpLe(a, b) != Le(a, b) && OpGt(a, b) != Gt(a, b) && OpGe(a, b) != Ge(a, b)
  {
    LtTrichotomy(a, b);
  }

  /** A stock and an unvalidated bond both called `XYZ`, in one currency. */
  lemma StockAndBondWithOneSymbol(c: Currency)
    ensures var s, b := NewStock("XYZ", Some(c)), NewBond("XYZ", Some(c), false);
      && s.Ok? && b.Ok?
      && OpGt(s.value, b.value) && OpGt(b.value, s.value)
      && !OpLe(s.value, b.value) && !OpLe(b.value, s.value)
  {
    SameSymbolDifferentClasses(Stock("XYZ", c), Bond("XYZ", c));
  }

  // ---------------------------------------------------------------- equality

  lemma EqIsEquivalence(a: Instrument, b: Instrument, c: Instrument)
    ensures Eq(a, a)
    ensures Eq(a, b) ==> Eq(b, a)
    ensures Eq(a, b) && Eq(b, c) ==> Eq(a, c)
  {
  }

  /** Equal instruments are not ordered by `<` or `>`, and `<=` and `>=` hold both ways. */
  lemma EqConsistentWithOrdering(a: Instrument, b: Instrument)
    requires Eq(a, b)
    ensures !OpLt(a, b) && !OpLt(b, a)
    ensures OpLe(a, b) && OpLe(b, a) && OpGe(a, b) && OpGe(b, a)
    ensures !OpGt(a, b) && !OpGt(b, a)
  {
    LtIrreflexive(a);
  }

  /** For stocks and bonds, whose only fields are the symbol and the currency, the equality
      is the identity of values. */
  lemma EqOfStocksAndBonds(a: Instrument, b: Instrument)
    requires (a.Stock? || a.Bond?) && (b.Stock? || b.Bond?)
    ensures Eq(a, b) <==> a == b
  {
  }

  /** An option's equality ignores everything but the symbol and the currency: two future
      options with one symbol and strikes more than 0.001 apart are equal, though they are
      different values. */
  lemma EqIgnoresStrike(symbol: string, underlying: string, c: Currency, t: OptionType,
                        expiration: CalendarDate, k1: Decimal, k2: Decimal, m: Decimal)
    requires OptionInputsOk(underlying, k1, m) && OptionInputsOk(underlying, k2, m) && |symbol| > 0
    requires k2.value - k1.value > 0.001
    ensures var a, b := NewFutureOption(symbol, underlying, Some(c), t, expiration, k1, m),
                        NewFutureOption(symbol, underlying, Some(c), t, expiration, k2, m);
      a.Ok? && b.Ok? && Eq(a.value, b.value) && a.value != b.value
  {
  }

  /** A valid currency pair's symbol splits back into the base and the quote names. */
  lemma ForexSymbolSplits(i: Instrument)
    requires i.Forex? && Valid(i)
    ensures |i.symbol| == |BaseCurrency(i).name| + |QuoteCurrency(i).name|
    ensures i.symbol[..|BaseCurrency(i).name|] == BaseCurrency(i).name
    ensures i.symbol[|BaseCurrency(i).name|..] == QuoteCurrency(i).name
  {
  }

  /** For valid currency pairs the equality is the identity of values: the symbol and the
      quote currency determine the base currency. */
  lemma {:induction false} EqOfForex(a: Instrument, b: Instrument)
    requires a.Forex? && b.Forex? && Valid(a) && Valid(b)
    ensures Eq(a, b) <==> a == b
  {
    if Eq(a, b) {
      ForexSymbolSplits(a);
      ForexSymbolSplits(b);
      var n := |a.symbol| - |a.currency.name|;
      assert a.baseCurrency.name == a.symbol[..n];
      assert b.baseCurrency.name == b.symbol[..n];
    }
  }

  // ---------------------------------------------------------------- bonds

  /** CUSIPs as the pattern sees them: nine characters, letters only in the middle five, and
      an optional final newline. */
  lemma BondSymbolExamples()
    ensures ValidBondSymbol("037833100")
    ensures ValidBondSymbol("38259P508")
    ensures ValidBondSymbol("037833100\n")
    ensures !ValidBondSymbol("03783310")
    ensures !ValidBondSymbol("0378331000")
    ensures !ValidBondSymbol("P37833100")
    ensures !ValidBondSymbol("037833100 ")
    ensures !ValidBondSymbol("")
  {
    assert "03783310"[..9 - 1] == "03783310";
  }

  /** With validation on, an empty bond symbol fails the CUSIP check first; with it off, any
      non-empty symbol with a currency is accepted. */
  lemma BondValidationOrder(c: Currency, symbol: string)
    ensures NewBond("", Some(c), DefaultValidateSymbol) == Err(InvalidCusip(""))
    ensures NewBond("", Some(c), false) == Err(EmptySymbol)
    ensures |symbol| > 0 ==> NewBond(symbol, Some(c), false) == Ok(Bond(symbol, c))
  {
  }

  // ---------------------------------------------------------------- currency pairs

  /** A pair of two different currencies is named base first, and quoted in the second. */
  lemma ForexExample(base: Currency, quote: Currency)
    requires base.name == "USD" && quote.name == "EUR"
    ensures var r := NewForex(base, quote);
      && r.Ok? && r.value.symbol == "USDEUR"
      && BaseCurrency(r.value) == base && QuoteCurrency(r.value) == quote
      && Multiplier(r.value) == 1.0
  {
  }

  /** A pair is never built from one currency twice. */
  lemma ForexIdentical(c: Currency)
    ensures NewForex(c, c) == Err(IdenticalCurrencies(c, c))
  {
  }
}
