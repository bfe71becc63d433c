# Instruments of bankroll, in Dafny

This project models `bankroll.model.instrument`, the family of immutable financial
instruments of the bankroll portfolio tool: stocks, bonds, options, future options,
futures and currency pairs. Each one is built by a validating constructor. The model
states which inputs each constructor accepts and which check rejects the others, and in
what order the checks run. It states what a built instrument holds, how option strikes
and contract multipliers are rounded, how an option symbol in the OCC symbology is
derived, and how instruments compare.

The model is written in the source's own form, which is pure: values, and functions that
return a `Result`.

- `wrappers.dfy` (`Wrappers`): `Optional` and `Result`.
- `decimals.dfy` (`Decimals`): Python `Decimal` values as exact rationals, plus
  `quantize` to 0.1 and to 0.001 with `ROUND_HALF_EVEN`.
- `text.dfy` (`Text`): Python's `<` on `str`, the minimum-width padding of format specs,
  and the decimal digits of whole numbers.
- `dates.dfy` (`Dates`): the dates `datetime.date` admits and `strftime('%y%m%d')`.
- `patterns.dfy` (`Patterns`): the CUSIP regular expression, with Python's `re.match`
  semantics for `$`.
- `instruments.dfy` (`Instruments`): one `Instrument` variant per class, an `Error`
  variant per `ValueError` check, the constructors, and the `multiplier`, `str` and `==`
  operations. For comparison it has both the methods (`__lt__` and the `__le__`, `__gt__`,
  `__ge__` that `functools.total_ordering` derives) and the operators `<`, `<=`, `>`,
  `>=`. The two differ when the right operand's class is a proper subclass of the left
  one's, which for instruments means an `Option` on the left and a `FutureOption` on the
  right. Python then runs the right operand's reflected method first.
- `instrument_properties.dfy` (`InstrumentProperties`): lemmas that relate those
  operations.

Some behaviour of the code worth knowing:

- A strike or a multiplier that is not finite and one that is not positive fail the
  same check, with one `ValueError` (`bankroll/model/instrument.py:97-100`, `154-155`).
  The model has one error per check, `InvalidStrike` and `InvalidMultiplier`, carrying
  the offending value.
- The format `{underlying:6}` pads the underlying but never cuts it, so a longer
  underlying makes a longer symbol (`OccSymbolLength`).
- The symbol's strike field formats the strike *as given* times 1000. `StrikeField`
  proves that this equals the stored, quantized strike times 1000.
- A positive strike can be stored as 0. Positivity is checked on the raw input, so a
  strike of 0.0005 passes the check and is stored as 0 (`StoredStrikeMayBeZero`).

## Model

| member | source | states |
|---|---|---|
| Decimals.RoundHalfEven | bankroll/model/instrument.py:23-25 | the result is within one half of the input, and an exact tie goes to the even integer |
| Decimals.HalfEvenRoundingUnique | bankroll/model/instrument.py:23-25 | at most one integer rounds a value half-to-even |
| Decimals.RoundHalfEvenOfInteger | bankroll/model/instrument.py:23-25 | rounding an integer gives that integer back |
| Decimals.RoundHalfEvenMonotone | bankroll/model/instrument.py:23-25 | rounding keeps the order of its inputs |
| Decimals.QuantizeMultiplier | bankroll/model/instrument.py:17-25 | the result is a multiple of 0.1 within 0.05 of the input; on an exact tie its last digit is even |
| Decimals.QuantizeMultiplierUnique | bankroll/model/instrument.py:17-25 | any multiple of 0.1 that is within 0.05 of the input, and even on a tie, is the quantized value |
| Decimals.QuantizeMultiplierIdempotent | bankroll/model/instrument.py:17-25 | quantizing a multiplier twice gives what quantizing once gives |
| Decimals.QuantizeMultiplierExamples | bankroll/model/instrument.py:17-25 | 100.04 and 100.05 become 100.0, 100.15 becomes 100.2, and 100.06 becomes 100.1 |
| Decimals.QuantizeStrike | bankroll/model/instrument.py:80-85 | the result is a multiple of 0.001 within 0.0005 of the input; on an exact tie its last digit is even |
| Decimals.QuantizeStrikeUnique | bankroll/model/instrument.py:80-85 | any multiple of 0.001 that is within 0.0005 of the input, and even on a tie, is the quantized value |
| Decimals.QuantizeStrikeIdempotent | bankroll/model/instrument.py:80-85 | quantizing a strike twice gives what quantizing once gives |
| Decimals.QuantizeStrikeExamples | bankroll/model/instrument.py:80-85 | 150 stays 150, 12.3455 becomes 12.346, 12.3445 becomes 12.344, and 0.0005 becomes 0 |
| Decimals.QuantizeMonotone | bankroll/model/instrument.py:17-85 | both quantizations keep the order of their inputs |
| Decimals.QuantizePositive | bankroll/model/instrument.py:97-106 | a positive input quantizes to zero or more; it quantizes to zero exactly when it is at most half a step |
| Text.StrLess | bankroll/model/instrument.py:38 | Python's `<` on `str`: lexicographic by code point, a proper prefix first; its order laws are the four `StrLess` lemmas |
| Text.StrLessIrreflexive | bankroll/model/instrument.py:37-38 | no symbol is less than itself |
| Text.StrLessAsymmetric | bankroll/model/instrument.py:37-38 | two symbols are never less than each other |
| Text.StrLessTransitive | bankroll/model/instrument.py:37-38 | the string order on symbols is transitive |
| Text.StrLessConnected | bankroll/model/instrument.py:37-38 | of two different symbols, one is less than the other |
| Text.PadRight | bankroll/model/instrument.py:110 | `{underlying:6}` keeps the underlying, adds spaces up to six characters, and never cuts |
| Text.ZeroPadLeft | bankroll/model/instrument.py:110 | the `08` format keeps the digits, adds zeros in front up to eight characters, and never cuts |
| Text.NatToString | bankroll/model/instrument.py:110 | the digits of a whole number, with no leading zero, read back as that number |
| Text.NatToStringLength | bankroll/model/instrument.py:110 | a number below 10^k takes at most k digits |
| Text.NatToStringLengthBelow | bankroll/model/instrument.py:110 | a number of at least 10^k takes more than k digits |
| Text.ParseNatZeroPadLeft | bankroll/model/instrument.py:110 | zero-padding keeps the digits and the number they denote |
| Text.TwoDigits | bankroll/model/instrument.py:110 | the two-digit field of `%y`, `%m` and `%d` is two digits that read back as the number |
| Text.TwoDigitsIsZeroPadded | bankroll/model/instrument.py:110 | that field is the number's digits zero-padded to width two |
| Dates.YyMmDd | bankroll/model/instrument.py:110 | `strftime('%y%m%d')` is six digits |
| Dates.YyMmDdFields | bankroll/model/instrument.py:110 | those six digits read back as the year within its century, the month and the day |
| Patterns.MatchPrefix | bankroll/model/instrument.py:55-61 | how many characters fixed-width character classes consume at the start of a string, never more than it has; characterised by `MatchPrefixSpec` |
| Patterns.FullMatch | bankroll/model/instrument.py:55-61 | `re.match` of the anchored pattern: a prefix match that ends at the end of the string or before a final newline; characterised by `CusipMatchIff` |
| Patterns.MatchPrefixSpec | bankroll/model/instrument.py:55-61 | fixed-width character classes match at the start of a string exactly when each position is in its class, and the match then spans their total width |
| Patterns.CusipPatternLayout | bankroll/model/instrument.py:55 | the CUSIP pattern spans nine characters: three digits, five digits or capitals, one digit |
| Patterns.CusipMatchIff | bankroll/model/instrument.py:55-61 | `re.match` accepts exactly nine characters of those classes, optionally followed by one final newline |
| Instruments.CheckBase | bankroll/model/instrument.py:27-31 | the base checks pass exactly when the symbol is non-empty and a currency is given; an empty symbol is reported before a missing currency |
| Instruments.NewStock | bankroll/model/instrument.py:48-50 | a stock adds no check to the base checks, and holds its symbol and currency |
| Instruments.ValidBondSymbol | bankroll/model/instrument.py:59-61 | a symbol is a CUSIP exactly when it has the CUSIP shape and nine characters, or ten with a final newline |
| Instruments.NewBond | bankroll/model/instrument.py:53-69 | with validation on, the CUSIP check runs first; with it off, only the base checks run; success exactly when all the checks that run pass |
| Instruments.StrikeField | bankroll/model/instrument.py:105-110 | the number the symbol prints for the strike as given equals the stored, quantized strike in thousandths |
| Instruments.OccSymbol | bankroll/model/instrument.py:108-110 | a derived option symbol is at least 21 characters, so never empty |
| Instruments.OptionInit | bankroll/model/instrument.py:87-112 | the checks run underlying, strike, multiplier, then the base checks on the symbol and the currency; success exactly when all pass; the strike and the multiplier are stored quantized; a given symbol is kept verbatim; a missing one is derived from the strike as given |
| Instruments.NewFutureOption | bankroll/model/instrument.py:138-148 | a future option fails exactly as an option with the same explicit symbol would, and otherwise holds the same fields |
| Instruments.NewFuture | bankroll/model/instrument.py:151-168 | the multiplier check runs before the base checks; success exactly when all pass; the multiplier is stored quantized and the expiration unchanged |
| Instruments.NewForex | bankroll/model/instrument.py:174-183 | a pair fails exactly when its two currencies are the same; otherwise its symbol is the base name followed by the quote name, and it is quoted in the quote currency |
| Instruments.Multiplier | bankroll/model/instrument.py:33-35 | stocks, bonds and pairs have multiplier 1; every built instrument has a non-negative multiple of 0.1 |
| Instruments.Str | bankroll/model/instrument.py:43-44 | `str` is the symbol, never empty for a built instrument |
| Instruments.OptionTypeValue | bankroll/model/instrument.py:72-75 | a put is `P` and a call is `C` |
| Instruments.Valid | bankroll/model/instrument.py:27-191 | what every built instrument satisfies: a non-empty symbol; for options a non-empty underlying and quantized, non-negative strike and multiplier; for futures a quantized multiplier; for pairs two different currencies and the symbol of their names |
| Instruments.QuoteCurrency | bankroll/model/instrument.py:185-187 | a pair's quote currency is its currency (`ForexExample`) |
| Instruments.BaseCurrency | bankroll/model/instrument.py:189-191 | a pair's base currency is the one it was built with (`ForexExample`, `ForexSymbolSplits`) |
| Instruments.Lt | bankroll/model/instrument.py:37-38 | `a.__lt__(b)` compares the symbols only, whatever the classes; its order laws are `LtIrreflexive`, `LtAsymmetric`, `LtTransitive` and `LtTrichotomy` |
| Instruments.KindOf | bankroll/model/instrument.py:14-20 | the class of an instrument, which the generated equality compares |
| Instruments.Eq | bankroll/model/instrument.py:14-20 | `a == b`: the same class and equal symbol and currency, both for `__eq__` and for the operator, since across classes Python falls back to identity; `EqIsEquivalence` |
| Instruments.Le | bankroll/model/instrument.py:15-38 | `a.__le__(b)` from `total_ordering`: `__lt__` or equal |
| Instruments.Gt | bankroll/model/instrument.py:15-38 | `a.__gt__(b)` from `total_ordering`: neither `__lt__` nor equal |
| Instruments.Ge | bankroll/model/instrument.py:15-38 | `a.__ge__(b)` from `total_ordering`: not `__lt__` |
| Instruments.SubclassOnRight | bankroll/model/instrument.py:138 | the right operand's class is a proper subclass of the left's only for an `Option` and a `FutureOption` |
| Instruments.OpLt | bankroll/model/instrument.py:37-138 | the operator `<`: the reflected `__gt__` of a `FutureOption` on the right of an `Option`, else `__lt__`; characterised by `OpLtIff` |
| Instruments.OpLe | bankroll/model/instrument.py:15-138 | the operator `<=`: the reflected `__ge__` in that case, else `__le__`; `LeEitherWay` |
| Instruments.OpGt | bankroll/model/instrument.py:15-138 | the operator `>`: the reflected `__lt__` in that case, else `__gt__`; `GtIff` |
| Instruments.OpGe | bankroll/model/instrument.py:15-138 | the operator `>=`: the reflected `__le__` in that case, else `__ge__`; `GeIff` |
| InstrumentProperties.OccSymbolLayout | bankroll/model/instrument.py:108-110 | a derived symbol is the padded underlying, then `YYMMDD`, then the type letter, then the zero-padded strike digits |
| InstrumentProperties.OccSymbolUnderlying | bankroll/model/instrument.py:110 | a derived symbol starts with the whole underlying, followed by spaces up to six characters |
| InstrumentProperties.OccSymbolExpiration | bankroll/model/instrument.py:110 | the six characters after the padded underlying read back as the expiration's year within its century, month and day |
| InstrumentProperties.OccSymbolStrike | bankroll/model/instrument.py:110 | the characters after the type letter are digits that read back as the strike in thousandths |
| InstrumentProperties.OccSymbolLength | bankroll/model/instrument.py:110 | a derived symbol is exactly 21 characters when the underlying has at most six characters and the strike field fits in eight digits, and longer otherwise |
| InstrumentProperties.DerivedSymbolEncodesFields | bankroll/model/instrument.py:105-112 | an option built without a symbol carries the symbol of its own underlying, expiration and type, and its strike digits are its stored strike in thousandths |
| InstrumentProperties.OccSymbolExample | bankroll/model/instrument.py:108-110 | a put on AAPL expiring 2021-01-15 at 150 has symbol `AAPL  210115P00150000` |
| InstrumentProperties.StoredStrikeMayBeZero | bankroll/model/instrument.py:97-110 | a strike of 0.0005 passes the checks, is stored as 0, and gives the symbol `XYZ   210115C00000000` |
| InstrumentProperties.OptionDefaultMultiplier | bankroll/model/instrument.py:93-106 | an option built with the default multiplier holds 100 |
| InstrumentProperties.LtIrreflexive | bankroll/model/instrument.py:37-38 | no instrument's `__lt__` holds of itself |
| InstrumentProperties.LtAsymmetric | bankroll/model/instrument.py:37-38 | `a.__lt__(b)` and `b.__lt__(a)` never both hold |
| InstrumentProperties.LtTransitive | bankroll/model/instrument.py:37-38 | `__lt__` is transitive |
| InstrumentProperties.LtTrichotomy | bankroll/model/instrument.py:37-38 | of two instruments, `__lt__` holds exactly one way when their symbols differ, and neither way when they are the same |
| InstrumentProperties.OpLtIff | bankroll/model/instrument.py:37-138 | the operator `a < b` holds exactly when `a`'s symbol is less, or the symbols are the same and `a` is an `Option` and `b` a `FutureOption` |
| InstrumentProperties.OpLtIrreflexive | bankroll/model/instrument.py:37-138 | no instrument is `<` itself |
| InstrumentProperties.OpLtAsymmetric | bankroll/model/instrument.py:37-138 | `a < b` and `b < a` never both hold |
| InstrumentProperties.OpLtTransitive | bankroll/model/instrument.py:37-138 | the operator `<` is transitive |
| InstrumentProperties.LtTotalOnSymbols | bankroll/model/instrument.py:37-138 | two instruments are ordered by `<` one way or the other exactly when their symbols differ or one is an `Option` and the other a `FutureOption` |
| InstrumentProperties.LeEitherWay | bankroll/model/instrument.py:14-138 | `a <= b or b <= a` holds exactly when the symbols differ, the instruments are equal, or one is an `Option` and the other a `FutureOption` |
| InstrumentProperties.GtIff | bankroll/model/instrument.py:14-138 | `a > b` holds exactly when `b < a`, or when the symbols are the same, the instruments unequal, and the classes not `Option` and `FutureOption` |
| InstrumentProperties.GeIff | bankroll/model/instrument.py:14-138 | `a >= b` holds exactly when `b < a`, or the symbols are the same and `a` is not an `Option` compared with a `FutureOption` |
| InstrumentProperties.SameSymbolDifferentClasses | bankroll/model/instrument.py:14-138 | two instruments of different classes with one symbol, other than an `Option` and a `FutureOption`, are each `>` the other, and neither is `<` or `<=` the other |
| InstrumentProperties.OptionBeforeFutureOption | bankroll/model/instrument.py:14-138 | an `Option` and a `FutureOption` with one symbol are consistently ordered, the option first: `o < f`, `o <= f`, `f > o`, `f >= o` hold and their reverses do not |
| InstrumentProperties.OperatorsAgreeWithMethods | bankroll/model/instrument.py:14-138 | the operators give the left operand's method answers exactly unless the left is an `Option` and the right a `FutureOption` with the same symbol, where all four answers are reversed |
| InstrumentProperties.StockAndBondWithOneSymbol | bankroll/model/instrument.py:14-69 | a stock and an unvalidated bond both named `XYZ` are each `>` the other, and neither is `<=` the other |
| InstrumentProperties.EqIsEquivalence | bankroll/model/instrument.py:14-20 | the generated equality is reflexive, symmetric and transitive |
| InstrumentProperties.EqConsistentWithOrdering | bankroll/model/instrument.py:14-38 | equal instruments are not ordered by `<` or `>`, and `<=` and `>=` hold both ways |
| InstrumentProperties.EqOfStocksAndBonds | bankroll/model/instrument.py:14-20 | for stocks and bonds the equality is the identity of values |
| InstrumentProperties.EqIgnoresStrike | bankroll/model/instrument.py:138-148 | two future options with one symbol and currency but strikes more than 0.001 apart are equal, though different values |
| InstrumentProperties.ForexSymbolSplits | bankroll/model/instrument.py:174-191 | a pair's symbol splits back into its base and quote currency names |
| InstrumentProperties.EqOfForex | bankroll/model/instrument.py:174-191 | for currency pairs the equality is the identity of values: the symbol and the quote currency determine the base currency |
| InstrumentProperties.BondSymbolExamples | bankroll/model/instrument.py:55-61 | `037833100`, `38259P508` and `037833100` with a final newline are CUSIPs; eight or ten digits, a letter in front, a trailing space and the empty string are not |
| InstrumentProperties.BondValidationOrder | bankroll/model/instrument.py:57-69 | with validation on, an empty bond symbol fails the CUSIP check; with it off, it fails the empty-symbol check, and any non-empty symbol with a currency is accepted |
| InstrumentProperties.ForexExample | bankroll/model/instrument.py:174-191 | USD against EUR is named `USDEUR`, has base USD and quote EUR, and multiplier 1 |
| InstrumentProperties.ForexIdentical | bankroll/model/instrument.py:176-179 | a pair of one currency with itself fails, naming both |

## Left out

- `Currency` (from `bankroll.model.cash`) is not part of this model. A currency is a
  value identified by its non-empty name: two currencies are equal exactly when their
  names are, as `Currency(name)` equality makes them. `EqOfForex` relies on this. A missing currency is
  `None` of an `Optional`, which the base check rejects.
- `__repr__` (`bankroll/model/instrument.py:134-135`, `170-171`, `193-194`) is not
  modelled. It renders diagnostic text and promises nothing.
- `__format__` with a non-empty format spec (`bankroll/model/instrument.py:40-41`) is not
  modelled, because it delegates to Python's format mini-language. `Str` covers the
  plain rendering.
- `__hash__`, which the frozen dataclass generates, is not modelled. It is Python
  machinery with no contract here beyond agreeing with `==`.
- The `ValueError` messages are not modelled. Each `Error` variant names its check and
  carries the offending value.
- Decimal arithmetic context is not modelled: 28-digit precision, `InvalidOperation` when
  a quantized result has too many digits, and the rounding of `strike * 1000` to that
  precision. Finite decimals are exact rationals. The exponent of a `Decimal` (`100`
  against `100.0`) and the sign of zero are not kept.
- Decimals.QuantizeMultiplier: defined on finite values only. `quantize` of an infinity
  or a NaN is never reached, because every constructor rejects non-finite values first.
- Decimals.QuantizeStrike: defined on finite values only, for the same reason.
- Python default arguments are modelled as named constants. `DefaultOptionMultiplier` is
  `Option`'s `multiplier=Decimal(100)` and `DefaultValidateSymbol` is `Bond`'s
  `validateSymbol=True`. The option constructor takes all its parameters explicitly.
- `FutureOption` built with `symbol=None` is not modelled. Its signature requires a
  symbol, and the model takes it as a `string`.
- A `Forex` given `None` for a currency is not modelled; the model's currencies are
  never `None`. With `None` for exactly one of them, the equality check passes and
  Python raises `AttributeError` when it reads `.name`. With `None` for both, the
  equality check fails first, with its `ValueError`.
- Dates are limited to what `strftime('%y%m%d')` reads: year, month and day of a valid
  `datetime.date`.
- `OptionType` is limited to its two members and their letters. Enum machinery such as
  `@unique` and lookup by value is left out.
