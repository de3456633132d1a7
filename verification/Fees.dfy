/**
 Platform fees. Decimals are modelled as exact reals with a bound on magnitude; a
 checked product answers nothing exactly when it leaves that bound.
 */
module Fees {
  import opened Authority

  /** The largest decimal the host represents, 2^96 - 1. */
  const DECIMAL_MAX: real := 79228162514264337593543950335.0

  function Mul(x: real, y: real): real {
    x * y
  }

  function CheckedMul(x: real, y: real): Option<real> {
    if -DECIMAL_MAX <= Mul(x, y) <= DECIMAL_MAX then Some(Mul(x, y)) else None
  }

  // ---- products -----------------------------------------------------------------------------

  lemma Product(x: real, y: real)
    requires x >= 0.0 && y >= 0.0
    ensures x * y >= 0.0
  {
  }

  lemma MulNonNegative(x: real, y: real)
    requires x >= 0.0 && y >= 0.0
    ensures Mul(x, y) >= 0.0
  {
    Product(x, y);
  }

  lemma MulMonotone(x: real, y: real, z: real)
    requires x <= y && z >= 0.0
    ensures Mul(x, z) <= Mul(y, z) && Mul(z, x) <= Mul(z, y)
  {
    Product(y - x, z);
    assert (y - x) * z == y * z - x * z;
  }

  lemma MulUnits(x: real)
    ensures Mul(x, 0.0) == 0.0 && Mul(0.0, x) == 0.0 && Mul(x, 1.0) == x && Mul(1.0, x) == x
  {
  }

  lemma MulAssociates(x: real, y: real, z: real)
    ensures Mul(Mul(x, y), z) == Mul(x, Mul(y, z))
  {
  }

  // ---- powers -------------------------------------------------------------------------------

  function Pow(b: real, e: nat): real {
    if e == 0 then 1.0 else Mul(b, Pow(b, e - 1))
  }

  lemma {:induction false} PowNonNegative(b: real, e: nat)
    requires b >= 0.0
    ensures Pow(b, e) >= 0.0
  {
    hide Mul;
    if e > 0 {
      PowNonNegative(b, e - 1);
      MulNonNegative(b, Pow(b, e - 1));
    }
  }

  lemma {:induction false} PowAtLeastBase(b: real, e: nat)
    requires b >= 1.0 && e >= 1
    ensures Pow(b, e) >= b
  {
    hide Mul;
    MulUnits(b);
    if e > 1 {
      PowAtLeastBase(b, e - 1);
      MulMonotone(1.0, Pow(b, e - 1), b);
    }
  }

  lemma {:induction false} PowOfSquare(b: real, e: nat)
    ensures Pow(b, 2 * e) == Pow(Mul(b, b), e)
  {
    hide Mul;
    if e > 0 {
      PowOfSquare(b, e - 1);
      MulAssociates(b, b, Pow(b, 2 * (e - 1)));
      assert Pow(b, 2 * e - 1) == Mul(b, Pow(b, 2 * (e - 1)));
    }
  }

  lemma {:induction false} PowMonotone(a: real, b: real, e: nat)
    requires 0.0 <= a <= b
    ensures Pow(a, e) <= Pow(b, e)
  {
    hide Mul;
    if e > 0 {
      PowMonotone(a, b, e - 1);
      PowNonNegative(a, e - 1);
      MulMonotone(a, b, Pow(a, e - 1));
      MulMonotone(Pow(a, e - 1), Pow(b, e - 1), b);
    }
  }

  lemma {:induction false} PowOfFraction(b: real, e: nat)
    requires 0.0 <= b <= 1.0
    ensures 0.0 <= Pow(b, e) <= 1.0
  {
    hide Mul;
    PowNonNegative(b, e);
    if e > 0 {
      PowOfFraction(b, e - 1);
      MulMonotone(b, 1.0, Pow(b, e - 1));
      MulUnits(Pow(b, e - 1));
    }
  }

  /** What one iteration has left to do: `product * b^e`, over factors within the bound. */
  predicate Remaining(product: real, b: real, e: nat, power: real) {
    && 0.0 <= b <= DECIMAL_MAX && 0.0 <= product <= DECIMAL_MAX
    && (b >= 1.0 ==> product >= 1.0)
    && Mul(product, Pow(b, e)) == power
  }

  lemma PowUnfolds(b: real, e: nat)
    requires e >= 1
    ensures Pow(b, e) == Mul(b, Pow(b, e - 1))
  {
  }

  /** Taking one factor out keeps what remains; if it leaves the bound, so does the power. */
  lemma OddStep(product: real, b: real, e: nat, power: real)
    requires Remaining(product, b, e, power) && e >= 1
    ensures Mul(product, b) >= 0.0
    ensures Mul(product, b) <= DECIMAL_MAX ==> Remaining(Mul(product, b), b, e - 1, power)
    ensures Mul(product, b) > DECIMAL_MAX ==> power > DECIMAL_MAX
  {
    hide Mul, Pow;
    PowUnfolds(b, e);
    MulAssociates(product, b, Pow(b, e - 1));
    MulNonNegative(product, b);
    MulUnits(product);
    if b >= 1.0 {
      MulMonotone(1.0, b, product);
      PowAtLeastBase(b, e);
      MulMonotone(b, Pow(b, e), product);
    } else {
      MulMonotone(b, 1.0, product);
    }
  }

  /** Halving an even exponent by squaring keeps what remains; if the square leaves the
      bound while some exponent remains, so does the power. */
  lemma SquareStep(product: real, b: real, e: nat, power: real)
    requires Remaining(product, b, 2 * e, power) && e >= 1
    ensures Mul(b, b) >= 0.0
    ensures Mul(b, b) <= DECIMAL_MAX ==> Remaining(product, Mul(b, b), e, power)
    ensures Mul(b, b) > DECIMAL_MAX ==> power > DECIMAL_MAX
  {
    hide Mul, Pow;
    var square := Mul(b, b);
    PowOfSquare(b, e);
    MulNonNegative(b, b);
    MulUnits(b);
    MulUnits(Pow(square, e));
    if b >= 1.0 {
      MulMonotone(1.0, b, b);
      PowAtLeastBase(square, e);
      MulMonotone(1.0, product, Pow(square, e));
    } else {
      MulMonotone(b, 1.0, b);
    }
  }

  /** Fast exponentiation with every partial product checked: it answers exactly when the
      power itself is within the bound, so no intermediate square overflows spuriously. */
  method CheckedPow(base: real, exponent: nat) returns (power: Option<real>)
    requires 0.0 <= base <= DECIMAL_MAX
    ensures power == if Pow(base, exponent) <= DECIMAL_MAX then Some(Pow(base, exponent)) else None
  {
    hide Mul;
    var b, e, product := base, exponent, 1.0;
    ghost var target := Pow(base, exponent);
    StartOfPow(base, exponent);
    while e > 0
      invariant Remaining(product, b, e, target)
    {
      if e % 2 == 1 {
        OddStep(product, b, e, target);
        var next := CheckedMul(product, b);
        if next.None? { return None; }
        product := next.value;
      }
      e := e / 2;
      if e > 0 {
        SquareStep(product, b, e, target);
        var square := CheckedMul(b, b);
        if square.None? { return None; }
        b := square.value;
      }
    }
    EndOfPow(product, b, target);
    return Some(product);
  }

  lemma StartOfPow(base: real, exponent: nat)
    requires 0.0 <= base <= DECIMAL_MAX
    ensures Remaining(1.0, base, exponent, Pow(base, exponent))
  {
  }

  lemma EndOfPow(product: real, b: real, power: real)
    requires Remaining(product, b, 0, power)
    ensures product == power
  {
  }

  // ---- rounding -------------------------------------------------------------------------------

  const TICK: real := 0.00001
  const TICKS_PER_UNIT: real := 100000.0

  /** Nearest multiple of 10^-5, midpoints away from zero. */
  function Round5(x: real): real {
    if x >= 0.0 then (x * TICKS_PER_UNIT + 0.5).Floor as real / TICKS_PER_UNIT
    else -((-x * TICKS_PER_UNIT + 0.5).Floor as real / TICKS_PER_UNIT)
  }

  lemma RoundMonotone(x: real, y: real)
    requires 0.0 <= x <= y
    ensures Round5(x) <= Round5(y)
  {
    assert (x * TICKS_PER_UNIT + 0.5).Floor <= (y * TICKS_PER_UNIT + 0.5).Floor;
  }

  lemma RoundIsNear(x: real)
    requires x >= 0.0
    ensures x - TICK / 2.0 < Round5(x) <= x + TICK / 2.0 && Round5(x) >= 0.0
  {
    var n := (x * TICKS_PER_UNIT + 0.5).Floor;
    assert n as real <= x * TICKS_PER_UNIT + 0.5 < n as real + 1.0;
    assert Round5(x) == n as real / TICKS_PER_UNIT;
  }

  // ---- the fee -----------------------------------------------------------------------------------

  datatype PowerFeeError = NonPositiveShares | PriceOutOfBounds | NegativeRate | ArithmeticOverflow

  datatype FeeCalculator = FeeCalculator(rate: real, exponent: nat) {
    /** What `from_market_metadata` admits. */
    predicate Valid() {
      0.0 <= rate <= DECIMAL_MAX
    }
  }

  function FromMarketMetadata(rate: real, exponent: nat): (c: Result<FeeCalculator, PowerFeeError>)
    ensures c.Ok? <==> rate >= 0.0
    ensures c.Ok? ==> c.value.rate == rate && c.value.exponent == exponent
    ensures c.Err? ==> c.error == NegativeRate
    ensures c.Ok? && rate <= DECIMAL_MAX ==> c.value.Valid()
  {
    if rate < 0.0 then Err(NegativeRate) else Ok(FeeCalculator(rate, exponent))
  }

  /** Price times its complement, the base of the fee curve. */
  function CurveBase(price: real): real {
    Mul(price, 1.0 - price)
  }

  /** The unrounded formula: shares, times rate, times a power of the curve base. */
  function Exact(c: FeeCalculator, shares: real, price: real): real {
    Mul(Mul(shares, c.rate), Pow(CurveBase(price), c.exponent))
  }

  predicate EarlyZero(c: FeeCalculator, price: real) {
    c.rate == 0.0 || (c.exponent > 0 && (price == 0.0 || price == 1.0))
  }

  /** The fee as its specification: the rounded formula, or the first failed check. */
  function TakerFee(c: FeeCalculator, shares: real, price: real): Result<real, PowerFeeError> {
    if shares <= 0.0 then Err(NonPositiveShares)
    else if price < 0.0 || price > 1.0 then Err(PriceOutOfBounds)
    else if !EarlyZero(c, price) && Mul(shares, c.rate) > DECIMAL_MAX then Err(ArithmeticOverflow)
    else Ok(Round5(Exact(c, shares, price)))
  }

  function Distance(price: real): real {
    if price < 0.5 then 0.5 - price else price - 0.5
  }

  /** The curve base falls with the square of the distance from one half. */
  lemma CurveBaseByDistance(price: real)
    ensures CurveBase(price) == 0.25 - Mul(Distance(price), Distance(price))
  {
    assert price * (1.0 - price) == price - price * price;
    assert (0.5 - price) * (0.5 - price) == 0.25 - price + price * price;
  }

  /** A price and its complement multiply to at most a quarter. */
  lemma CurveBaseAtMostQuarter(price: real)
    requires 0.0 <= price <= 1.0
    ensures 0.0 <= CurveBase(price) <= 0.25
  {
    hide Mul;
    MulNonNegative(price, 1.0 - price);
    CurveBaseByDistance(price);
    MulNonNegative(Distance(price), Distance(price));
  }

  lemma PowOfZero(e: nat)
    requires e > 0
    ensures Pow(0.0, e) == 0.0
  {
    MulUnits(Pow(0.0, e - 1));
  }

  /** The early return never changes the formula's answer; at exponent zero, where it does
      not fire at the ends of the price range, the formula's factor there is one. */
  lemma EarlyZeroIsExact(c: FeeCalculator, shares: real, price: real)
    requires 0.0 <= price <= 1.0
    ensures EarlyZero(c, price) ==> Exact(c, shares, price) == 0.0
    ensures c.exponent == 0 ==> Exact(c, shares, price) == Mul(shares, c.rate)
  {
    hide Mul;
    MulUnits(shares);
    MulUnits(Mul(shares, c.rate));
    MulUnits(Pow(CurveBase(price), c.exponent));
    MulUnits(price);
    MulUnits(1.0 - price);
    if c.exponent > 0 { PowOfZero(c.exponent); }
  }

  /** Taking the curve last: it never enlarges what it multiplies. */
  lemma CurveShrinks(amount: real, price: real, e: nat)
    requires amount >= 0.0 && 0.0 <= price <= 1.0
    ensures 0.0 <= Pow(CurveBase(price), e) <= 1.0
    ensures 0.0 <= Mul(amount, Pow(CurveBase(price), e)) <= amount
  {
    hide Mul;
    CurveBaseAtMostQuarter(price);
    PowOfFraction(CurveBase(price), e);
    MulNonNegative(amount, Pow(CurveBase(price), e));
    MulMonotone(Pow(CurveBase(price), e), 1.0, amount);
    MulUnits(amount);
  }

  lemma RoundOfZero()
    ensures Round5(0.0) == 0.0
  {
    assert (0.5).Floor == 0;
  }

  /** The chain of checked operations computes the specified fee: the only product that
      can leave the bound is `shares * rate`. */
  method ComputeTakerFee(c: FeeCalculator, shares: real, price: real)
    returns (fee: Result<real, PowerFeeError>)
    requires c.Valid() && shares <= DECIMAL_MAX
    ensures fee == TakerFee(c, shares, price)
  {
    hide Mul;
    if shares <= 0.0 { return Err(NonPositiveShares); }
    if price < 0.0 || price > 1.0 { return Err(PriceOutOfBounds); }
    EarlyZeroIsExact(c, shares, price);
    if c.rate == 0.0 || (c.exponent > 0 && (price == 0.0 || price == 1.0)) {
      RoundOfZero();
      return Ok(0.0);
    }
    var complement := 1.0 - price;
    CurveBaseAtMostQuarter(price);
    var base := CheckedMul(price, complement);
    if base.None? { return Err(ArithmeticOverflow); }
    CurveShrinks(1.0, price, c.exponent);
    var curve := CheckedPow(base.value, c.exponent);
    if curve.None? { return Err(ArithmeticOverflow); }
    MulNonNegative(shares, c.rate);
    var amount := CheckedMul(shares, c.rate);
    if amount.None? { return Err(ArithmeticOverflow); }
    CurveShrinks(amount.value, price, c.exponent);
    var exact := CheckedMul(amount.value, curve.value);
    if exact.None? { return Err(ArithmeticOverflow); }
    return Ok(Round5(exact.value));
  }

  // ---- properties of the fee ------------------------------------------------------------------------

  /** Buying either side of the market at complementary prices costs the same. */
  lemma FeeIsSymmetric(c: FeeCalculator, shares: real, price: real)
    ensures TakerFee(c, shares, price) == TakerFee(c, shares, 1.0 - price)
  {
    assert CurveBase(price) == CurveBase(1.0 - price);
  }

  lemma ExactNonNegative(c: FeeCalculator, shares: real, price: real)
    requires c.rate >= 0.0 && shares >= 0.0 && 0.0 <= price <= 1.0
    ensures Mul(shares, c.rate) >= 0.0 && Exact(c, shares, price) >= 0.0
  {
    MulNonNegative(shares, c.rate);
    CurveShrinks(Mul(shares, c.rate), price, c.exponent);
  }

  /** More shares never cost less, and if the larger order can be priced so can the smaller. */
  lemma FeeGrowsWithShares(c: FeeCalculator, fewer: real, more: real, price: real)
    requires c.Valid() && 0.0 < fewer <= more && TakerFee(c, more, price).Ok?
    ensures TakerFee(c, fewer, price).Ok?
    ensures TakerFee(c, fewer, price).value <= TakerFee(c, more, price).value
  {
    hide Mul;
    MulMonotone(fewer, more, c.rate);
    CurveShrinks(1.0, price, c.exponent);
    MulMonotone(Mul(fewer, c.rate), Mul(more, c.rate), Pow(CurveBase(price), c.exponent));
    ExactNonNegative(c, fewer, price);
    RoundMonotone(Exact(c, fewer, price), Exact(c, more, price));
  }

  lemma CloserPriceBase(outer: real, inner: real)
    requires Distance(inner) <= Distance(outer)
    ensures CurveBase(outer) <= CurveBase(inner)
  {
    hide Mul, CurveBase;
    var d, d' := Distance(outer), Distance(inner);
    CurveBaseByDistance(outer);
    CurveBaseByDistance(inner);
    MulMonotone(d', d, d);
    MulMonotone(d', d, d');
  }

  /** The fee never falls as the price moves towards one half, and if the fee nearer to one
      half can be charged so can the other. */
  lemma FeeGrowsTowardsHalf(c: FeeCalculator, shares: real, outer: real, inner: real)
    requires c.Valid() && 0.0 <= outer <= 1.0 && Distance(inner) <= Distance(outer)
    requires TakerFee(c, shares, inner).Ok?
    ensures TakerFee(c, shares, outer).Ok?
    ensures TakerFee(c, shares, outer).value <= TakerFee(c, shares, inner).value
  {
    hide Mul, CurveBase, Round5;
    CurveBaseAtMostQuarter(outer);
    CloserPriceBase(outer, inner);
    PowMonotone(CurveBase(outer), CurveBase(inner), c.exponent);
    ExactNonNegative(c, shares, outer);
    MulMonotone(Pow(CurveBase(outer), c.exponent), Pow(CurveBase(inner), c.exponent), Mul(shares, c.rate));
    RoundMonotone(Exact(c, shares, outer), Exact(c, shares, inner));
  }

  lemma {:induction false} PowPositive(b: real, e: nat)
    requires b > 0.0
    ensures Pow(b, e) > 0.0
  {
    if e > 0 {
      PowPositive(b, e - 1);
      assert b * Pow(b, e - 1) > 0.0;
    }
  }

  /** A schedule is accepted exactly when its formula charges no order a negative amount. */
  lemma ScheduleAcceptedIffNeverNegative(rate: real, exponent: nat)
    ensures FromMarketMetadata(rate, exponent).Ok? <==>
            forall shares: real, price: real | shares > 0.0 && 0.0 <= price <= 1.0 ::
              Exact(FeeCalculator(rate, exponent), shares, price) >= 0.0
  {
    hide Exact;
    var c := FeeCalculator(rate, exponent);
    if rate >= 0.0 {
      forall shares: real, price: real | shares > 0.0 && 0.0 <= price <= 1.0
        ensures Exact(c, shares, price) >= 0.0
      {
        ExactNonNegative(c, shares, price);
      }
    } else {
      NegativeRateCharges(c);
    }
  }

  lemma NegativeRateCharges(c: FeeCalculator)
    requires c.rate < 0.0
    ensures Exact(c, 1.0, 0.5) < 0.0
  {
    var curve := Pow(CurveBase(0.5), c.exponent);
    PowPositive(CurveBase(0.5), c.exponent);
    assert c.rate * curve < 0.0;
  }

  /** A charged fee is within half a tick of the formula, and at most the fee at one half. */
  lemma FeeIsRoundedAndCapped(c: FeeCalculator, shares: real, price: real)
    requires c.Valid() && TakerFee(c, shares, price).Ok?
    ensures var fee := TakerFee(c, shares, price).value;
            && Exact(c, shares, price) - TICK / 2.0 < fee <= Exact(c, shares, price) + TICK / 2.0
            && 0.0 <= fee <= Round5(Mul(Mul(shares, c.rate), Pow(0.25, c.exponent)))
  {
    hide Mul, CurveBase, Round5;
    ExactNonNegative(c, shares, price);
    RoundIsNear(Exact(c, shares, price));
    CurveBaseAtMostQuarter(price);
    PowMonotone(CurveBase(price), 0.25, c.exponent);
    MulMonotone(Pow(CurveBase(price), c.exponent), Pow(0.25, c.exponent), Mul(shares, c.rate));
    RoundMonotone(Exact(c, shares, price), Mul(Mul(shares, c.rate), Pow(0.25, c.exponent)));
  }


  // ---- when and how exactly a fee is charged --------------------------------------------------

  predicate IsWhole(x: real) {
    x.Floor as real == x
  }

  /** A fee is a whole number of hundred-thousandths. */
  lemma FeeIsWholeTicks(c: FeeCalculator, shares: real, price: real)
    requires c.Valid() && TakerFee(c, shares, price).Ok?
    ensures IsWhole(TakerFee(c, shares, price).value * 100_000.0)
  {
    hide Mul, Exact, Round5, IsWhole;
    ExactNonNegative(c, shares, price);
    RoundIsWholeTicks(Exact(c, shares, price));
  }

  lemma RoundIsWholeTicks(x: real)
    requires x >= 0.0
    ensures IsWhole(Round5(x) * 100_000.0)
  {
    var n := (x * TICKS_PER_UNIT + 0.5).Floor;
    assert Round5(x) * 100_000.0 == n as real;
  }

  /** The curve makes the order free of charge. */
  predicate IsFree(c: FeeCalculator, price: real) {
    c.rate == 0.0 || (c.exponent >= 1 && (price == 0.0 || price == 1.0))
  }

  /** Exactly which orders are refused a fee, and why: shares must be positive, the price in
      the unit interval, and the amount within the largest decimal unless the order is free. */
  lemma RefusedIff(c: FeeCalculator, shares: real, price: real)
    requires c.Valid()
    ensures var fee := TakerFee(c, shares, price);
            && (fee == Err(NonPositiveShares) <==> shares <= 0.0)
            && (fee == Err(PriceOutOfBounds) <==> shares > 0.0 && (price < 0.0 || price > 1.0))
            && (fee == Err(ArithmeticOverflow) <==>
                  shares > 0.0 && 0.0 <= price <= 1.0 && !IsFree(c, price)
                  && Mul(shares, c.rate) > 79_228_162_514_264_337_593_543_950_335.0)
            && fee != Err(NegativeRate)
  {
    hide Mul, Exact, Round5, Pow;
  }

  lemma FreeCostsNothing(c: FeeCalculator, shares: real, price: real)
    requires c.Valid() && shares > 0.0 && 0.0 <= price <= 1.0 && IsFree(c, price)
    ensures TakerFee(c, shares, price) == Ok(0.0)
  {
    hide Mul, Pow, Exact, Round5;
    EarlyZeroIsExact(c, shares, price);
    RoundOfZero();
  }

  /** The formula in ordinary arithmetic for the exponents in use, zero, one and two. */
  lemma FormulaIs(c: FeeCalculator, shares: real, price: real)
    ensures c.exponent == 0 ==> Exact(c, shares, price) == shares * c.rate
    ensures c.exponent == 1 ==> Exact(c, shares, price) == shares * c.rate * (price * (1.0 - price))
    ensures c.exponent == 2 ==>
              Exact(c, shares, price) == shares * c.rate * (price * (1.0 - price) * (price * (1.0 - price)))
  {
    var base := CurveBase(price);
    if c.exponent == 1 {
      assert Pow(base, 1) == Mul(base, Pow(base, 0)) == base;
    } else if c.exponent == 2 {
      assert Pow(base, 2) == Mul(base, Pow(base, 1)) && Pow(base, 1) == Mul(base, Pow(base, 0)) == base;
    }
  }
}
