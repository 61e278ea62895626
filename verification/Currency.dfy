/** Amounts in a currency (currency/currency.go): parsing into base units and printing them. */
module Currencies {
  import opened Wrappers

  /** An exact decimal number, coef * 10^exp, as the decimal library represents it. */
  datatype Decimal = Decimal(coef: int, exp: int)

  datatype Currency = Currency(symbol: string, decimals: nat)

  datatype ParseError = InvalidDecimalString | AmountTooSmall

  /** The number of decimal places to which the library rounds quotients. */
  const DIVISION_PRECISION: int := 16

  function Pow10(n: nat): (r: int)
    ensures r >= 1
  {
    if n == 0 then 1 else 10 * Pow10(n - 1)
  }

  lemma {:induction false} Pow10Add(m: nat, n: nat)
    ensures Pow10(m + n) == Pow10(m) * Pow10(n)
  {
    if m != 0 {
      Pow10Add(m - 1, n);
    }
  }

  // ----- the decimal library

  function Mul(a: Decimal, b: Decimal): Decimal {
    Decimal(a.coef * b.coef, a.exp + b.exp)
  }

  /** Two numbers as coefficients of the smaller exponent. */
  function Rescale(a: Decimal, exp: int): int
    requires exp <= a.exp
  {
    a.coef * Pow10(a.exp - exp)
  }

  predicate LessThan(a: Decimal, b: Decimal) {
    var exp := if a.exp < b.exp then a.exp else b.exp;
    Rescale(a, exp) < Rescale(b, exp)
  }

  /** The same number, possibly written with another exponent. */
  predicate SameNumber(a: Decimal, b: Decimal) {
    !LessThan(a, b) && !LessThan(b, a)
  }

  /** Integer division that drops the fraction, whatever the sign. */
  function TruncDiv(a: int, b: int): int
    requires b > 0
  {
    if a >= 0 then a / b else -(-a / b)
  }

  function Abs(a: int): int {
    if a < 0 then -a else a
  }

  /** The integer part of a number. */
  function BigInt(a: Decimal): int {
    if a.exp >= 0 then a.coef * Pow10(a.exp) else TruncDiv(a.coef, Pow10(-a.exp))
  }

  /** The quotient a / b, for b > 0, rounded to the nearest integer, halves away from zero. */
  function RoundDiv(a: int, b: int): int
    requires b > 0
  {
    var q := TruncDiv(a, b);
    if 2 * Abs(a - q * b) < b then q else if a < 0 then q - 1 else q + 1
  }

  // ----- the currency

  /** The number of base units in one unit of a currency. */
  function Unit(decimals: nat): Decimal {
    Decimal(1, decimals)
  }

  /** An amount string, read as a decimal number where that is possible, in base units. */
  function Parse(input: Option<Decimal>, decimals: nat): Result<int, ParseError> {
    match input
    case None => Err(InvalidDecimalString)
    case Some(amount) =>
      var base := Mul(amount, Unit(decimals));
      if LessThan(base, Decimal(1, 0)) then Err(AmountTooSmall) else Ok(BigInt(base))
  }

  /** The number that is printed for x base units. */
  function Print(x: int, decimals: nat): Decimal {
    Decimal(RoundDiv(x * Pow10(DIVISION_PRECISION), Pow10(decimals)), -DIVISION_PRECISION)
  }
}
