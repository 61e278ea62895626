/** How printing an amount and parsing it again changes it. */
module CurrencyRoundTrip {
  import opened Wrappers
  import opened Currencies

  // ----- division

  lemma DivUnique(a: int, b: int, q: int)
    requires b > 0 && b * q <= a < b * q + b
    ensures a / b == q
  {
    var r := a - b * q;
    if a / b < q {
      assert b * (q - a / b) >= b by { MulMonotone(b, 1, q - a / b); }
    } else if a / b > q {
      assert b * (a / b - q) >= b by { MulMonotone(b, 1, a / b - q); }
    }
  }

  lemma MulMonotone(k: int, a: int, b: int)
    requires k >= 0 && a <= b
    ensures k * a <= k * b
  {
  }

  lemma DivCancel(a: int, b: int, k: int)
    requires b > 0 && k > 0 && a >= 0
    ensures b * k > 0 && (a * k) / (b * k) == a / b
  {
    var q, r := a / b, a % b;
    assert a * k == (b * k) * q + r * k;
    assert 0 <= r * k < b * k by { MulMonotone(k, r, b - 1); }
    assert b * k > 0;
    DivUnique(a * k, b * k, q);
  }

  lemma TruncDivCancel(a: int, b: int, k: int)
    requires b > 0 && k > 0
    ensures b * k > 0 && TruncDiv(a * k, b * k) == TruncDiv(a, b)
  {
    if a >= 0 {
      DivCancel(a, b, k);
      assert a * k >= 0;
    } else {
      DivCancel(-a, b, k);
      assert a * k < 0 && -(a * k) == -a * k;
    }
  }

  lemma ScaleLess(a: int, b: int, k: int)
    requires k > 0
    ensures a < b <==> a * k < b * k
  {
  }

  lemma MulAssoc(a: int, b: int, c: int)
    ensures (a * b) * c == a * (b * c)
  {
  }

  lemma AbsScale(r: int, k: int)
    requires k > 0
    ensures Abs(r * k) == Abs(r) * k
  {
  }

  lemma RemainderScale(a: int, b: int, q: int, k: int)
    ensures a * k - q * (b * k) == (a - q * b) * k
  {
  }

  lemma RoundDivCancel(a: int, b: int, k: int)
    requires b > 0 && k > 0
    ensures b * k > 0 && RoundDiv(a * k, b * k) == RoundDiv(a, b)
  {
    TruncDivCancel(a, b, k);
    var q := TruncDiv(a, b);
    var r := a - q * b;
    RemainderScale(a, b, q, k);
    AbsScale(r, k);
    ScaleLess(2 * Abs(r), b, k);
    MulAssoc(2, Abs(r), k);
    ScaleLess(a, 0, k);
  }

  /** Dividing by an even number rounds half up. */
  lemma RoundDivEven(x: int, u: int)
    requires x >= 0 && u > 0 && u % 2 == 0
    ensures RoundDiv(x, u) == (x + u / 2) / u
  {
    var q, r := x / u, x % u;
    assert x == u * q + r;
    HalfUp(x, u, q, r);
    assert Abs(x - q * u) == r;
  }

  lemma HalfUp(x: int, u: int, q: int, r: int)
    requires u > 0 && u % 2 == 0 && x == u * q + r && 0 <= r < u
    ensures (x + u / 2) / u == if 2 * r < u then q else q + 1
  {
    if 2 * r < u {
      DivUnique(x + u / 2, u, q);
    } else {
      assert u * (q + 1) == u * q + u;
      DivUnique(x + u / 2, u, q + 1);
    }
  }

  // ----- parsing is the floor of the number of base units, whatever its representation

  /** coef * 10^k, read with exponent exp - k, against coef read with exponent exp: the three cases are
      that both exponents are at least zero, only the larger is, or neither is. */
  lemma ScaledUp(coef: int, exp: nat, k: nat)
    requires k <= exp
    ensures coef * Pow10(k) * Pow10(exp - k) == coef * Pow10(exp)
  {
    Pow10Add(k, exp - k);
    MulAssoc(coef, Pow10(k), Pow10(exp - k));
  }

  lemma ScaledAcross(coef: int, exp: nat, k: nat)
    requires exp <= k
    ensures coef * Pow10(k) == (coef * Pow10(exp)) * Pow10(k - exp)
  {
    Pow10Add(exp, k - exp);
    MulAssoc(coef, Pow10(exp), Pow10(k - exp));
  }

  lemma TruncDivByOne(a: int)
    ensures TruncDiv(a, 1) == a
  {
  }

  lemma BigIntNegative(coef: int, exp: int)
    requires exp < 0
    ensures BigInt(Decimal(coef, exp)) == TruncDiv(coef, Pow10(-exp))
  {
  }

  lemma BigIntPositive(coef: int, exp: int)
    requires exp >= 0
    ensures BigInt(Decimal(coef, exp)) == coef * Pow10(exp)
  {
  }

  /** Writing a number with more digits behind the point does not change its integer part. */
  lemma BigIntRescale(coef: int, exp: int, k: nat)
    ensures BigInt(Decimal(coef * Pow10(k), exp - k)) == BigInt(Decimal(coef, exp))
  {
    if exp >= k {
      ScaledUp(coef, exp, k);
    } else if exp >= 0 {
      BigIntNegative(coef * Pow10(k), exp - k);
      BigIntPositive(coef, exp);
      ScaledAcross(coef, exp, k);
      TruncDivCancel(coef * Pow10(exp), 1, Pow10(k - exp));
      TruncDivByOne(coef * Pow10(exp));
    } else {
      BigIntNegative(coef * Pow10(k), exp - k);
      BigIntNegative(coef, exp);
      Pow10Add(-exp, k);
      TruncDivCancel(coef, Pow10(-exp), Pow10(k));
    }
  }

  /** Comparing with an integer. */
  lemma LessThanInt(a: Decimal, n: int)
    ensures LessThan(a, Decimal(n, 0)) <==>
      if a.exp >= 0 then a.coef * Pow10(a.exp) < n else a.coef < n * Pow10(-a.exp)
  {
  }

  lemma LessThanOneRescale(coef: int, exp: int, k: nat)
    ensures LessThan(Decimal(coef * Pow10(k), exp - k), Decimal(1, 0)) <==> LessThan(Decimal(coef, exp), Decimal(1, 0))
  {
    LessThanInt(Decimal(coef * Pow10(k), exp - k), 1);
    LessThanInt(Decimal(coef, exp), 1);
    if exp >= k {
      ScaledUp(coef, exp, k);
    } else if exp >= 0 {
      ScaledAcross(coef, exp, k);
      ScaleLess(coef * Pow10(exp), 1, Pow10(k - exp));
    } else {
      Pow10Add(-exp, k);
      ScaleLess(coef, Pow10(-exp), Pow10(k));
    }
  }

  /** The result of parsing depends on the number only: stripping trailing zeros, or an exponent form,
      makes no difference. */
  lemma ParseIgnoresRepresentation(a: Decimal, b: Decimal, decimals: nat)
    requires SameNumber(a, b)
    ensures Parse(Some(a), decimals) == Parse(Some(b), decimals)
  {
    if a.exp > b.exp {
      SmallerExponentFirst(b, a, decimals);
    } else {
      SmallerExponentFirst(a, b, decimals);
    }
  }

  lemma SmallerExponentFirst(a: Decimal, b: Decimal, decimals: nat)
    requires SameNumber(a, b) && a.exp <= b.exp
    ensures Parse(Some(a), decimals) == Parse(Some(b), decimals)
  {
    var k := b.exp - a.exp;
    assert Rescale(a, a.exp) == a.coef by { assert Pow10(0) == 1; }
    assert a.coef == b.coef * Pow10(k);
    LessThanOneRescale(b.coef, b.exp + decimals, k);
    BigIntRescale(b.coef, b.exp + decimals, k);
    assert Mul(a, Unit(decimals)) == Decimal(b.coef * Pow10(k), b.exp + decimals - k);
    assert Mul(b, Unit(decimals)) == Decimal(b.coef, b.exp + decimals);
  }

  /** An amount parses to n base units exactly when n is at least one and the amount is worth at least
      n but less than n + 1 of them. */
  lemma ParseIsFloor(a: Decimal, decimals: nat, n: int)
    ensures var base := Mul(a, Unit(decimals));
      Parse(Some(a), decimals) == Ok(n) <==>
      n >= 1 && !LessThan(base, Decimal(n, 0)) && LessThan(base, Decimal(n + 1, 0))
  {
    var base := Mul(a, Unit(decimals));
    assert Pow10(0) == 1;
    if base.exp < 0 {
      var p, c := Pow10(-base.exp), base.coef;
      if !LessThan(base, Decimal(1, 0)) {
        assert c >= p;
        var q, r := c / p, c % p;
        assert c == p * q + r;
        assert (n + 1) * p == n * p + p;
        if n * p <= c < n * p + p {
          assert p * n == n * p;
          DivUnique(c, p, n);
          assert n >= 1 by { if n <= 0 { MulMonotone(p, n, 0); } }
        }
      } else if n >= 1 {
        MulMonotone(p, 1, n);
      }
    }
  }

  // ----- the round trip

  /** The base unit of what survives printing: 1 up to sixteen decimals, 10^(decimals - 16) beyond. */
  function PrintedUnit(decimals: nat): int {
    if decimals <= DIVISION_PRECISION then 1 else Pow10(decimals - DIVISION_PRECISION)
  }

  /** Dividing x * 10^p by 10^d, rounded: a multiplication if p is large enough. */
  lemma RoundDivPow(x: int, p: nat, d: nat)
    ensures d <= p ==> RoundDiv(x * Pow10(p), Pow10(d)) == x * Pow10(p - d)
    ensures d > p ==> RoundDiv(x * Pow10(p), Pow10(d)) == RoundDiv(x, Pow10(d - p))
  {
    if d <= p {
      ScaledUp(x, p, p - d);
      RoundDivCancel(x * Pow10(p - d), 1, Pow10(d));
      TruncDivByOne(x * Pow10(p - d));
    } else {
      Pow10Add(d - p, p);
      RoundDivCancel(x, Pow10(d - p), Pow10(p));
    }
  }

  lemma Pow10Even(n: nat)
    requires n > 0
    ensures Pow10(n) % 2 == 0
  {
    assert Pow10(n) == 2 * (5 * Pow10(n - 1));
  }

  /** Parsing y * 10^-p in a currency with d decimals. */
  lemma ParseScaled(y: int, p: int, d: nat)
    requires p >= 0
    ensures d <= p ==> (Parse(Some(Decimal(y, -p)), d) ==
      if y < Pow10(p - d) then Err(AmountTooSmall) else Ok(TruncDiv(y, Pow10(p - d))))
    ensures d > p ==> (Parse(Some(Decimal(y, -p)), d) ==
      if y * Pow10(d - p) < 1 then Err(AmountTooSmall) else Ok(y * Pow10(d - p)))
  {
  }

  lemma ProductBelowOne(y: int, u: int)
    requires u > 0
    ensures y * u < 1 <==> y < 1
  {
  }

  lemma TruncDivNotPositive(x: int, u: int)
    requires u > 0 && x < 0
    ensures TruncDiv(x, u) <= 0
  {
  }

  lemma RoundDivNotPositive(x: int, u: int)
    requires u > 0 && x < 0
    ensures RoundDiv(x, u) < 1
  {
    TruncDivNotPositive(x, u);
  }

  /** The quotient, rounded half up, is at least one from half of u on. */
  lemma HalfUpAtLeastOne(x: int, u: int)
    requires u > 0 && u % 2 == 0 && x >= 0
    ensures (x + u / 2) / u < 1 <==> 2 * x < u
  {
    if 2 * x < u { DivUnique(x + u / 2, u, 0); }
  }

  /** Rounding x to a multiple of an even u: nothing is left precisely below half of u. */
  lemma RoundToMultiple(x: int, u: int)
    requires u > 0 && u % 2 == 0
    ensures RoundDiv(x, u) * u < 1 <==> 2 * x < u
    ensures 2 * x >= u ==> RoundDiv(x, u) * u == u * ((x + u / 2) / u)
  {
    ProductBelowOne(RoundDiv(x, u), u);
    if x >= 0 {
      RoundDivEven(x, u);
      HalfUpAtLeastOne(x, u);
    } else {
      RoundDivNotPositive(x, u);
    }
  }

  /** Printing x base units and parsing the result, for a currency with d decimals and quotients
      rounded to p places. */
  lemma ParseOfPrintAt(x: int, p: int, d: nat)
    requires p >= 0
    ensures var r := Parse(Some(Decimal(RoundDiv(x * Pow10(p), Pow10(d)), -p)), d);
      if d <= p then r == if x >= 1 then Ok(x) else Err(AmountTooSmall)
      else var u := Pow10(d - p);
        r == if 2 * x < u then Err(AmountTooSmall) else Ok(u * ((x + u / 2) / u))
  {
    RoundDivPow(x, p, d);
    var y := RoundDiv(x * Pow10(p), Pow10(d));
    ParseScaled(y, p, d);
    if d <= p {
      ScaleLess(x, 1, Pow10(p - d));
      TruncDivCancel(x, 1, Pow10(p - d));
      TruncDivByOne(x);
    } else {
      Pow10Even(d - p);
      RoundToMultiple(x, Pow10(d - p));
    }
  }

  /** Printing x base units and parsing the result. Up to sixteen decimals nothing is lost. Beyond, the
      amount is rounded to a multiple of u = 10^(decimals - 16), and it is refused if that is zero. */
  lemma ParseOfPrint(x: int, decimals: nat)
    ensures var r := Parse(Some(Print(x, decimals)), decimals);
      if decimals <= 16 then r == if x >= 1 then Ok(x) else Err(AmountTooSmall)
      else var u := Pow10(decimals - 16);
        r == if 2 * x < u then Err(AmountTooSmall) else Ok(u * ((x + u / 2) / u))
  {
    ParseOfPrintAt(x, DIVISION_PRECISION, decimals);
  }

  /** The coefficient that is printed beyond sixteen decimals. */
  lemma PrintedCoef(x: int, decimals: nat)
    requires decimals > DIVISION_PRECISION
    ensures Print(x, decimals).coef == RoundDiv(x, Pow10(decimals - DIVISION_PRECISION))
  {
    RoundDivPow(x, DIVISION_PRECISION, decimals);
  }

  /** Rounding half up to a multiple of u: the result is within half of u, a multiple of u, and
      rounds to itself. */
  lemma RoundedHalfUp(x: int, u: int)
    requires x >= 0 && u > 0 && u % 2 == 0
    ensures var y := u * ((x + u / 2) / u);
      -u <= 2 * (y - x) <= u && y % u == 0 && y >= 0 && RoundDiv(y, u) == RoundDiv(x, u)
  {
    var q, r := (x + u / 2) / u, (x + u / 2) % u;
    assert x + u / 2 == u * q + r;
    var y := u * q;
    MultipleMod(u, q);
    MulMonotone(u, 0, q);
    RoundDivEven(y, u);
    DivUnique(y + u / 2, u, q);
    RoundDivEven(x, u);
  }

  /** The amount read back differs from the one printed by at most half a printed unit, is a multiple
      of that unit, and prints the same: nothing more is lost the second time. */
  lemma RoundTripError(x: int, decimals: nat)
    requires Parse(Some(Print(x, decimals)), decimals).Ok?
    ensures var y := Parse(Some(Print(x, decimals)), decimals).value;
      var u := PrintedUnit(decimals);
      && u > 0
      && -u <= 2 * (y - x) <= u
      && y % u == 0
      && Print(y, decimals) == Print(x, decimals)
  {
    ParseOfPrint(x, decimals);
    if decimals > DIVISION_PRECISION {
      var u := Pow10(decimals - DIVISION_PRECISION);
      Pow10Even(decimals - DIVISION_PRECISION);
      RoundedHalfUp(x, u);
      PrintedCoef(x, decimals);
      PrintedCoef(u * ((x + u / 2) / u), decimals);
    }
  }

  lemma MultipleMod(u: int, q: int)
    requires u > 0
    ensures (u * q) % u == 0
  {
    DivUnique(u * q, u, q);
  }

  /** Rounding half up to a multiple of u leaves x alone precisely if x is such a multiple. */
  lemma RoundedExactly(x: int, u: int)
    requires u > 0 && u % 2 == 0
    ensures x % u == 0 <==> u * ((x + u / 2) / u) == x
  {
    var q := (x + u / 2) / u;
    MultipleMod(u, q);
    if x % u == 0 {
      assert x == u * (x / u);
      DivUnique(x + u / 2, u, x / u);
    }
  }

  lemma PositiveMultiple(x: int, u: int)
    requires u > 0 && x >= 1 && x % u == 0
    ensures x >= u
  {
  }

  /** The round trip is exact precisely for the positive multiples of the printed unit. */
  lemma RoundTripExactly(x: int, decimals: nat)
    ensures PrintedUnit(decimals) > 0
    ensures Parse(Some(Print(x, decimals)), decimals) == Ok(x) <==> x >= 1 && x % PrintedUnit(decimals) == 0
  {
    ParseOfPrint(x, decimals);
    var u := PrintedUnit(decimals);
    if decimals > DIVISION_PRECISION {
      Pow10Even(decimals - DIVISION_PRECISION);
      RoundedExactly(x, u);
      if x >= 1 && x % u == 0 { PositiveMultiple(x, u); }
    }
  }

  lemma PowersOfTen()
    ensures Pow10(1) == 10 && Pow10(2) == 100 && Pow10(16) == 10000000000000000 && Pow10(18) == 1000000000000000000
  {
    assert Pow10(0) == 1 && Pow10(1) == 10 && Pow10(2) == 100;
    Pow10Add(2, 2);
    Pow10Add(4, 4);
    Pow10Add(8, 8);
    Pow10Add(16, 2);
  }

  /** One ETH is 10^18 base units; 5 base units are printed as 0, and 50 as the sixteenth decimal place. */
  lemma KnownAmounts()
    ensures Parse(Some(Decimal(1, 0)), 18) == Ok(1000000000000000000)
    ensures Parse(Some(Decimal(15, -1)), 1) == Ok(15)
    ensures Print(5, 18).coef == 0 && Print(50, 18) == Decimal(1, -16)
  {
    PowersOfTen();
    PrintedCoef(5, 18);
    PrintedCoef(50, 18);
  }
}
