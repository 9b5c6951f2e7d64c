/**
 Compounding over signed i128 amounts (contracts/inheritance-contract/src/safe_math.rs),
 and its agreement with the unsigned implementation.
 */
module SafeMath {
  import opened MachineInts
  import opened GrowthLadder
  import opened ContractErrors
  import YieldMath

  datatype MathError = MathOverflow | DivisionByZero | NegativeAmount

  type Checked<+T> = Result<T, MathError>

  const BPS_DENOMINATOR: int := 10_000
  const DAYS_PER_YEAR: int := 365
  const SECONDS_PER_DAY: int := 86_400

  predicate FitsI128(n: int) {
    -I128_MAX - 1 <= n <= I128_MAX
  }

  function InRange(n: int): Checked<i128> {
    if FitsI128(n) then Ok(n) else Err(MathOverflow)
  }

  /** Division toward zero. */
  function TruncatedQuotient(a: int, b: int): int
    requires b != 0
  {
    if a >= 0 then a / b else -(-a / b)
  }

  function SafeDiv(a: i128, b: i128): Checked<i128> {
    if b == 0 then Err(DivisionByZero) else InRange(TruncatedQuotient(a, b))
  }

  function MulDiv(a: i128, b: i128, denominator: i128): Checked<i128> {
    var product :- InRange(a * b);
    SafeDiv(product, denominator)
  }

  function PowFactorValue(base: i128, exp: u64): Checked<int> {
    if base < 0 then Err(NegativeAmount)
    else
      match Ladder(I128_MAX, SCALE, base, exp)
      case Some(v) => Ok(v)
      case None => Err(MathOverflow)
  }

  /** On non-negative operands the signed product-then-divide is the checked fixed-point product. */
  lemma MulDivIsScaled(a: i128, b: i128)
    requires a >= 0 && b >= 0
    ensures a * b >= 0
    ensures MulDiv(a, b, SCALE) == match ScaledWithin(I128_MAX, a, b)
                                   case Some(v) => Ok(v)
                                   case None => Err(MathOverflow)
    ensures MulDiv(a, b, SCALE).Ok? ==> MulDiv(a, b, SCALE).value >= 0
  {
    ProductMonotone(0, 0, a, b);
  }

  method PowFactor(base: i128, exponent: u64) returns (r: Checked<i128>)
    ensures r == PowFactorValue(base, exponent)
  {
    if base < 0 {
      return Err(NegativeAmount);
    }
    var result: i128, acc: i128, exp: u64 := SCALE, base, exponent;
    while true
      invariant result >= 0 && acc >= 0
      invariant Ladder(I128_MAX, result, acc, exp) == Ladder(I128_MAX, SCALE, base, exponent)
      decreases exp
    {
      MulDivIsScaled(result, acc);
      MulDivIsScaled(acc, acc);
      if exp % 2 == 1 {
        var product := MulDiv(result, acc, SCALE);
        if product.Err? {
          return product;
        }
        result := product.value;
      }
      exp := exp / 2;
      if exp == 0 {
        break;
      }
      var square := MulDiv(acc, acc, SCALE);
      if square.Err? {
        return square;
      }
      acc := square.value;
    }
    r := Ok(result);
  }

  /** One compounding period per whole elapsed day. */
  function CompoundYield(principal: i128, annualRateBps: u32, elapsedSeconds: u64): Checked<i128> {
    var periods := elapsedSeconds / SECONDS_PER_DAY;
    if principal < 0 then Err(NegativeAmount)
    else if principal == 0 || annualRateBps == 0 || periods == 0 then Ok(principal)
    else
      var scaledRate :- InRange(annualRateBps * SCALE);
      var increment :- SafeDiv(scaledRate, BPS_DENOMINATOR * DAYS_PER_YEAR);
      var factor :- InRange(SCALE + increment);
      var growth :- PowFactorValue(factor, periods);
      if FitsI128(growth) then MulDiv(principal, growth, SCALE) else Err(MathOverflow)
  }

  function AccruedInterest(principal: i128, annualRateBps: u32, elapsedSeconds: u64): Checked<i128> {
    var total :- CompoundYield(principal, annualRateBps, elapsedSeconds);
    InRange(total - principal)
  }

  // ---------- results ----------

  /** A ladder that stays within the smaller bound takes the same value under the larger one. */
  lemma {:induction false} LadderUnderLargerBound(m0: nat, m1: nat, r: nat, a: nat, n: nat)
    requires m0 <= m1
    ensures var l := Ladder(m0, r, a, n); l.Some? ==> l == Ladder(m1, r, a, n)
    decreases n
  {
    if n > 1 && Ladder(m0, r, a, n).Some? {
      LadderUnderLargerBound(m0, m1, if n % 2 == 1 then Scaled(r, a) else r, Scaled(a, a), n / 2);
    }
  }

  lemma {:induction false} LadderWithinBound(max: nat, r: nat, a: nat, n: nat)
    requires r <= max
    ensures var l := Ladder(max, r, a, n); l.Some? ==> l.value <= max
    decreases n
  {
    if n > 1 && Ladder(max, r, a, n).Some? {
      LadderWithinBound(max, if n % 2 == 1 then Scaled(r, a) else r, Scaled(a, a), n / 2);
    }
  }

  function DailyFactor(rate: u32): (f: nat)
    ensures SCALE <= f <= I128_MAX && (rate == 0 ==> f == SCALE)
  {
    SCALE + SCALE * rate / (BPS_DENOMINATOR * DAYS_PER_YEAR)
  }

  lemma CompoundYieldUnfolds(principal: i128, rate: u32, elapsed: u64)
    requires rate > 0 && principal > 0 && elapsed / SECONDS_PER_DAY > 0
    ensures CompoundYield(principal, rate, elapsed) ==
            match Ladder(I128_MAX, SCALE, DailyFactor(rate), elapsed / SECONDS_PER_DAY)
            case None => Err(MathOverflow)
            case Some(growth) =>
              if principal * growth > I128_MAX then Err(MathOverflow) else Ok(principal * growth / SCALE)
  {
    var factor := DailyFactor(rate);
    LadderWithinBound(I128_MAX, SCALE, factor, elapsed / SECONDS_PER_DAY);
    var l := Ladder(I128_MAX, SCALE, factor, elapsed / SECONDS_PER_DAY);
    if l.Some? {
      MulDivIsScaled(principal, l.value);
    }
  }

  lemma ProjectionUnfolds(principal: u64, rate: u32, days: u64)
    requires 0 < rate <= YieldMath.MAX_YIELD_RATE_BPS && principal > 0
    requires 0 < days <= YieldMath.MAX_COMPOUND_PERIODS
    ensures YieldMath.ProjectDailyCompound(principal, rate, days) ==
            match Ladder(U128_MAX, SCALE, DailyFactor(rate), days)
            case None => Err(InvalidTotalAmount)
            case Some(growth) =>
              if principal * growth > U128_MAX || principal * growth / SCALE > U64_MAX then Err(InvalidTotalAmount)
              else Ok(principal * growth / SCALE)
  {
  }

  /** The caps that only the unsigned implementation enforces. */
  predicate WithinCaps(rate: u32, elapsed: u64) {
    rate <= YieldMath.MAX_YIELD_RATE_BPS && elapsed / SECONDS_PER_DAY <= YieldMath.MAX_COMPOUND_PERIODS
  }

  /**
   The two compounding implementations agree. Within the caps the unsigned one returns the signed
   one's value when it fits u64 and an overflow otherwise, and the signed one can only differ by
   overflowing first. Outside them the unsigned one refuses.
   */
  lemma ImplementationsAgree(principal: u64, rate: u32, elapsed: u64)
    ensures var signed := CompoundYield(principal, rate, elapsed);
            var unsigned := YieldMath.ProjectDailyCompound(principal, rate, elapsed / SECONDS_PER_DAY);
            if !WithinCaps(rate, elapsed) then unsigned == Err(InvalidAllocation)
            else
              && (signed.Ok? ==> signed.value >= 0 &&
                                 unsigned == if signed.value <= U64_MAX then Ok(signed.value)
                                             else Err(InvalidTotalAmount))
              && (unsigned.Ok? ==> signed == Ok(unsigned.value) || signed == Err(MathOverflow))
  {
    var days := elapsed / SECONDS_PER_DAY;
    if WithinCaps(rate, elapsed) && principal > 0 && rate > 0 && days > 0 {
      CompoundYieldUnfolds(principal, rate, elapsed);
      ProjectionUnfolds(principal, rate, days);
      LadderUnderLargerBound(I128_MAX, U128_MAX, SCALE, DailyFactor(rate), days);
    }
  }

  lemma GrowthBeatsSimple(principal: nat, d: nat, growth: nat, days: nat)
    requires growth >= SCALE + days * d
    ensures principal * growth / SCALE - principal >= principal * (days * d) / SCALE >= 0
  {
    ProductMonotone(0, 0, principal, days * d);
    ScaledMonotone(principal, SCALE + days * d, principal, growth);
    assert principal * (SCALE + days * d) == principal * SCALE + principal * (days * d);
  }

  /** Accrued interest is never negative: it is at least the truncated simple daily interest. */
  lemma AccruedInterestAtLeastSimple(principal: i128, rate: u32, elapsed: u64)
    ensures var r := AccruedInterest(principal, rate, elapsed);
            var simple := elapsed / SECONDS_PER_DAY * (DailyFactor(rate) - SCALE);
            r.Ok? ==> principal >= 0 && r.value >= principal * simple / SCALE >= 0
  {
    var r := AccruedInterest(principal, rate, elapsed);
    var days, d := elapsed / SECONDS_PER_DAY, DailyFactor(rate) - SCALE;
    if r.Ok? {
      if principal > 0 && rate > 0 && days > 0 {
        CompoundYieldUnfolds(principal, rate, elapsed);
        LadderBeatsSimple(I128_MAX, SCALE, 0, SCALE + d, d, days);
        GrowthBeatsSimple(principal, d, Ladder(I128_MAX, SCALE, SCALE + d, days).value, days);
      } else {
        assert principal == 0 || days == 0 || d == 0;
      }
    }
  }
}
