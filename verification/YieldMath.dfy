/**
 Compounding over u64 amounts with u128 intermediates
 (contracts/inheritance-contract/src/yield_math.rs).
 */
module YieldMath {
  import opened MachineInts
  import opened ContractErrors
  import opened GrowthLadder

  const BPS_DENOMINATOR: int := 10_000
  const DAYS_PER_YEAR: int := 365
  const MAX_YIELD_RATE_BPS: int := 10_000
  const MAX_COMPOUND_PERIODS: int := 36_500

  type Checked<+T> = Result<T, InheritanceError>

  function SafeMulU128(a: u128, b: u128): Checked<u128> {
    if a * b <= U128_MAX then Ok(a * b) else Err(InvalidTotalAmount)
  }

  function SafeDivU128(a: u128, b: u128): Checked<u128> {
    if b == 0 then Err(InvalidBeneficiaryData) else Ok(Quotient(a, b))
  }

  /** Division of unsigned words, which stays within the word. */
  function Quotient(a: u128, b: u128): (q: u128)
    requires b > 0
    ensures q == a / b
  {
    assert 0 <= a / b <= a by {
      DivisionShrinks(a, b);
    }
    a / b
  }

  lemma DivisionShrinks(a: nat, b: nat)
    requires b > 0
    ensures a / b <= a
  {
    assert a == (a / b) * b + a % b;
    ProductMonotone(a / b, 1, a / b, b);
  }

  function ToU64(value: u128): Checked<u64> {
    if value <= U64_MAX then Ok(value) else Err(InvalidTotalAmount)
  }

  function SafeSub(a: u64, b: u64): Checked<u64> {
    if b <= a then Ok(a - b) else Err(InvalidTotalAmount)
  }

  function MulFactor(a: u128, b: u128): Checked<u128> {
    var product :- SafeMulU128(a, b);
    SafeDivU128(product, SCALE)
  }

  /** What `PowFactor` computes: the squaring ladder under the period cap. */
  function PowFactorValue(base: u128, exponent: u64): Checked<nat> {
    if exponent > MAX_COMPOUND_PERIODS then Err(InvalidAllocation)
    else
      match Ladder(U128_MAX, SCALE, base, exponent)
      case Some(v) => Ok(v)
      case None => Err(InvalidTotalAmount)
  }

  method PowFactor(base: u128, exponent: u64) returns (r: Checked<u128>)
    ensures r == PowFactorValue(base, exponent)
  {
    if exponent > MAX_COMPOUND_PERIODS {
      return Err(InvalidAllocation);
    }
    var result: u128, accumulator: u128, remaining: u64 := SCALE, base, exponent;
    if remaining == 0 {
      return Ok(result);
    }
    while true
      invariant remaining > 0
      invariant Ladder(U128_MAX, result, accumulator, remaining) == Ladder(U128_MAX, SCALE, base, exponent)
      decreases remaining
    {
      if remaining % 2 == 1 {
        var product := MulFactor(result, accumulator);
        if product.Err? {
          return product;
        }
        result := product.value;
      }
      remaining := remaining / 2;
      if remaining == 0 {
        break;
      }
      var square := MulFactor(accumulator, accumulator);
      if square.Err? {
        return square;
      }
      accumulator := square.value;
    }
    r := Ok(result);
  }

  /** principal * growth / SCALE, narrowed to u64. */
  function Grow(principal: u64, growth: Checked<nat>): Checked<u64> {
    var g :- growth;
    if principal * g > U128_MAX then Err(InvalidTotalAmount)
    else ToU64(Quotient(principal * g, SCALE))
  }

  /** 1 + annual rate / 365 at scale, keeping the fraction of a basis point. */
  function DailyGrowthFactor(annualRateBps: u32): Checked<u128> {
    if annualRateBps > MAX_YIELD_RATE_BPS then Err(InvalidAllocation)
    else Ok(SCALE + DailyIncrement(annualRateBps))
  }

  /** The daily increment, which truncation lowers by less than one. */
  function DailyIncrement(rate: nat): nat {
    SCALE * rate / (BPS_DENOMINATOR * DAYS_PER_YEAR)
  }

  function CompoundAmount(principal: u64, ratePerPeriod: u32, periods: u64): Checked<u64> {
    if ratePerPeriod > MAX_YIELD_RATE_BPS || periods > MAX_COMPOUND_PERIODS then Err(InvalidAllocation)
    else if principal == 0 || ratePerPeriod == 0 || periods == 0 then Ok(principal)
    else Grow(principal, PowFactorValue(SCALE + SCALE * ratePerPeriod / BPS_DENOMINATOR, periods))
  }

  function CompoundInterest(principal: u64, ratePerPeriod: u32, periods: u64): Checked<u64> {
    var total :- CompoundAmount(principal, ratePerPeriod, periods);
    SafeSub(total, principal)
  }

  function ProjectDailyCompound(principal: u64, annualRateBps: u32, days: u64): Checked<u64> {
    if annualRateBps > MAX_YIELD_RATE_BPS || days > MAX_COMPOUND_PERIODS then Err(InvalidAllocation)
    else if principal == 0 || annualRateBps == 0 || days == 0 then Ok(principal)
    else Grow(principal, PowFactorValue(DailyGrowthFactor(annualRateBps).value, days))
  }

  function EffectiveApyBps(nominalRateBps: u32): Checked<u32> {
    if nominalRateBps > MAX_YIELD_RATE_BPS then Err(InvalidAllocation)
    else if nominalRateBps == 0 then Ok(0)
    else
      var growth :- PowFactorValue(DailyGrowthFactor(nominalRateBps).value, DAYS_PER_YEAR);
      ExcessInBps(growth)
  }

  /** What a growth factor adds to one, in basis points. */
  function ExcessInBps(growth: nat): Checked<u32> {
    if growth < SCALE || (growth - SCALE) * BPS_DENOMINATOR > U128_MAX then Err(InvalidTotalAmount)
    else
      var bps := (growth - SCALE) * BPS_DENOMINATOR / SCALE;
      if bps > U32_MAX then Err(InvalidTotalAmount) else Ok(bps)
  }

  // ---------- results ----------

  /** `x` fails or exceeds `y` only when `y` fails. */
  ghost predicate NoMoreThan(x: Checked<nat>, y: Checked<nat>) {
    y.Ok? ==> x.Ok? && x.value <= y.value
  }

  /**
   The ladder never rounds above the exact power and loses at most exponent - 1 single
   roundings: r/S lies in [(b/S)^n * (1 - 1/S)^(n-1), (b/S)^n].
   */
  lemma PowFactorRoundingError(base: u128, exponent: u64)
    requires base >= SCALE && exponent >= 1
    ensures var r := PowFactorValue(base, exponent);
            r.Ok? ==>
              && r.value * Power(SCALE, exponent - 1) <= Power(base, exponent)
              && Power(base, exponent) * Power(SCALE - 1, exponent - 1) <= r.value * Power(SCALE, 2 * (exponent - 1))
  {
    BaseApproximatesItself(base);
    LadderApproximates(U128_MAX, base, SCALE, 0, base, 1, exponent);
  }

  /** Monotone in both arguments; when the larger call succeeds, so does the smaller. */
  lemma PowFactorMonotone(b0: u128, e0: u64, b1: u128, e1: u64)
    requires b0 <= b1 && e0 <= e1
    requires e0 == e1 || SCALE <= b0
    ensures NoMoreThan(PowFactorValue(b0, e0), PowFactorValue(b1, e1))
  {
    LadderMonotone(U128_MAX, SCALE, b0, SCALE, b1, e1);
    if e0 < e1 {
      LadderMonotoneInExponent(U128_MAX, b0, e0, e1);
    }
  }

  /** More periods never lower the factor of this base. */
  ghost predicate NeverFalls(base: u128) {
    forall e0: u64, e1: u64 :: e0 <= e1 ==> NoMoreThan(PowFactorValue(base, e0), PowFactorValue(base, e1))
  }

  /** Below one, the first period already lowers the factor. */
  lemma FirstPeriodShrinks(base: u128)
    requires base < SCALE
    ensures PowFactorValue(base, 0) == Ok(SCALE) && PowFactorValue(base, 1) == Ok(base)
  {
    ScaledUnit(base);
  }

  /** Monotone in the exponent exactly for bases of at least one. */
  lemma MonotoneInExponentIffAtLeastOne(base: u128)
    ensures NeverFalls(base) <==> base >= SCALE
  {
    if base >= SCALE {
      forall e0: u64, e1: u64 | e0 <= e1
        ensures NoMoreThan(PowFactorValue(base, e0), PowFactorValue(base, e1))
      {
        PowFactorMonotone(base, e0, base, e1);
      }
    } else {
      FirstPeriodShrinks(base);
      assert !NoMoreThan(PowFactorValue(base, 0), PowFactorValue(base, 1));
    }
  }

  lemma GrowMonotone(p0: u64, g0: Checked<nat>, p1: u64, g1: Checked<nat>)
    requires p0 <= p1 && NoMoreThan(g0, g1)
    ensures NoMoreThan(Grow(p0, g0), Grow(p1, g1))
  {
    if g1.Ok? {
      ScaledMonotone(p0, g0.value, p1, g1.value);
    }
  }

  /** Growth by a factor of at least one never loses principal. */
  lemma GrowKeepsPrincipal(principal: u64, growth: Checked<nat>)
    requires growth.Ok? ==> growth.value >= SCALE
    ensures NoMoreThan(Ok(principal), Grow(principal, growth))
  {
    if growth.Ok? {
      ScaledUnit(principal);
      ScaledMonotone(principal, SCALE, principal, growth.value);
    }
  }

  lemma DailyGrowthFactorMonotone(r0: u32, r1: u32)
    requires r0 <= r1 <= MAX_YIELD_RATE_BPS
    ensures SCALE <= DailyGrowthFactor(r0).value <= DailyGrowthFactor(r1).value
  {
  }

  lemma PowFactorAtLeastOne(base: u128, exponent: u64)
    requires base >= SCALE
    ensures NoMoreThan(Ok(SCALE), PowFactorValue(base, exponent))
  {
    PowFactorMonotone(base, 0, base, exponent);
  }

  /** A projection never falls as the principal, the rate or the number of days grows. */
  lemma ProjectionMonotone(p0: u64, r0: u32, d0: u64, p1: u64, r1: u32, d1: u64)
    requires p0 <= p1 && r0 <= r1 && d0 <= d1
    ensures NoMoreThan(ProjectDailyCompound(p0, r0, d0), ProjectDailyCompound(p1, r1, d1))
  {
    if ProjectDailyCompound(p1, r1, d1).Ok? && p1 > 0 && r1 > 0 && d1 > 0 {
      DailyGrowthFactorMonotone(r0, r1);
      var f0, f1 := DailyGrowthFactor(r0).value, DailyGrowthFactor(r1).value;
      PowFactorAtLeastOne(f1, d1);
      GrowKeepsPrincipal(p1, PowFactorValue(f1, d1));
      if p0 > 0 && r0 > 0 && d0 > 0 {
        PowFactorMonotone(f0, d0, f1, d1);
        GrowMonotone(p0, PowFactorValue(f0, d0), p1, PowFactorValue(f1, d1));
      }
    }
  }

  /** Truncated compounding stays at or above simple growth, exactly. */
  lemma PowFactorBeatsSimple(d: nat, exponent: u64)
    requires SCALE + d <= U128_MAX
    ensures var r := PowFactorValue(SCALE + d, exponent);
            r.Ok? ==> r.value >= SCALE + exponent * d
  {
    if exponent > 0 {
      LadderBeatsSimple(U128_MAX, SCALE, 0, SCALE + d, d, exponent);
    }
  }

  lemma InterestFromGrowth(principal: nat, rate: nat, periods: nat, growth: nat)
    requires growth >= SCALE + periods * (SCALE * rate / BPS_DENOMINATOR)
    ensures principal * growth / SCALE - principal >= principal * rate * periods / BPS_DENOMINATOR
  {
    var unit := SCALE / BPS_DENOMINATOR;
    assert SCALE * rate / BPS_DENOMINATOR == unit * rate;
    var simple := SCALE + unit * (periods * rate);
    assert periods * (unit * rate) == unit * (periods * rate);
    ScaledMonotone(principal, simple, principal, growth);
    var t := principal * rate * periods;
    assert principal * simple == principal * SCALE + unit * t by {
      assert principal * (unit * (periods * rate)) == unit * (principal * (periods * rate));
      assert principal * (periods * rate) == t;
    }
    assert (principal * SCALE + unit * t) / SCALE == principal + t / BPS_DENOMINATOR by {
      QuotientOfUnits(unit, t);
    }
  }

  lemma QuotientOfUnits(unit: nat, t: nat)
    requires unit * BPS_DENOMINATOR == SCALE
    ensures unit * t / SCALE == t / BPS_DENOMINATOR
  {
    assert t == BPS_DENOMINATOR * (t / BPS_DENOMINATOR) + t % BPS_DENOMINATOR;
  }

  /** Compound interest never loses to simple interest at the same rate. */
  lemma CompoundInterestBeatsSimple(principal: u64, rate: u32, periods: u64)
    ensures var r := CompoundInterest(principal, rate, periods);
            r.Ok? ==> r.value >= principal * rate * periods / BPS_DENOMINATOR
  {
    var r := CompoundInterest(principal, rate, periods);
    if r.Ok? && principal > 0 && rate > 0 && periods > 0 {
      var increment := SCALE * rate / BPS_DENOMINATOR;
      PowFactorBeatsSimple(increment, periods);
      InterestFromGrowth(principal, rate, periods, PowFactorValue(SCALE + increment, periods).value);
    }
  }

  lemma DailyIncrementBounds(rate: nat)
    ensures SCALE * rate <= (DailyIncrement(rate) + 1) * 3_650_000
    ensures rate > 0 ==> DailyIncrement(rate) >= 273_972
  {
  }

  /** Over a year the cross term of the last product makes up for the truncated day. */
  lemma CrossTermOfAYear(d: nat)
    requires d >= 273_972
    ensures Scaled(109 * d, 256 * d) >= 365
  {
    ScaledMonotone(109 * 273_972, 256 * 273_972, 109 * d, 256 * d);
    assert Scaled(109 * 273_972, 256 * 273_972) >= 365;
  }

  lemma BpsOfExcess(growth: nat, d: nat, rate: nat)
    requires growth >= SCALE + 365 * (d + 1) && SCALE * rate <= (d + 1) * 3_650_000
    ensures ExcessInBps(growth).Ok? ==> ExcessInBps(growth).value >= rate
  {
    assert (growth - SCALE) * BPS_DENOMINATOR >= SCALE * rate;
  }

  lemma YearlyGrowth(d: nat)
    requires 273_972 <= d && SCALE + d <= U128_MAX
    ensures var r := PowFactorValue(SCALE + d, DAYS_PER_YEAR);
            r.Ok? ==> r.value >= SCALE + 365 * (d + 1)
  {
    assert TopBit(5) == 4 && TopBit(45) == 32 && TopBit(365) == 256;
    LadderBeatsSimple(U128_MAX, SCALE, 0, SCALE + d, d, 365);
    CrossTermOfAYear(d);
  }

  lemma FirstBitsOfAYear()
    ensures Ladder(U128_MAX, SCALE, 1_002_739_726_027, 365) ==
            Ladder(U128_MAX, 1_002_739_726_027, 1_011_004_023_013, 91)
  {
  }

  lemma MiddleBitsOfAYear()
    ensures Ladder(U128_MAX, 1_002_739_726_027, 1_011_004_023_013, 91) ==
            Ladder(U128_MAX, 1_036_207_836_017, 1_044_747_967_691, 22)
  {
  }

  lemma LastBitsOfAYear()
    ensures Ladder(U128_MAX, 1_036_207_836_017, 1_044_747_967_691, 22) == Some(2_714_567_480_964)
  {
  }

  /** At the largest rate a year of compounding stays below three. */
  lemma LargestYearlyGrowth()
    ensures var r := PowFactorValue(DailyGrowthFactor(MAX_YIELD_RATE_BPS).value, DAYS_PER_YEAR);
            r.Ok? && r.value <= 3 * SCALE
  {
    FirstBitsOfAYear();
    MiddleBitsOfAYear();
    LastBitsOfAYear();
    assert DailyGrowthFactor(MAX_YIELD_RATE_BPS).value == 1_002_739_726_027;
  }

  /** So no accepted rate overflows on the way. */
  lemma AcceptedRatesFit(rate: u32)
    requires rate <= MAX_YIELD_RATE_BPS
    ensures EffectiveApyBps(rate).Ok?
  {
    DailyGrowthFactorMonotone(rate, MAX_YIELD_RATE_BPS);
    LargestYearlyGrowth();
    var daily := DailyGrowthFactor(rate).value;
    PowFactorMonotone(daily, DAYS_PER_YEAR, DailyGrowthFactor(MAX_YIELD_RATE_BPS).value, DAYS_PER_YEAR);
    PowFactorAtLeastOne(daily, DAYS_PER_YEAR);
  }

  /** Exactly the rates up to the cap are accepted, and none falls below itself, although both steps truncate. */
  lemma EffectiveApyAtLeastNominal(rate: u32)
    ensures EffectiveApyBps(rate).Ok? <==> rate <= MAX_YIELD_RATE_BPS
    ensures rate <= MAX_YIELD_RATE_BPS ==> EffectiveApyBps(rate).value >= rate
  {
    if 0 < rate <= MAX_YIELD_RATE_BPS {
      var d := DailyIncrement(rate);
      AcceptedRatesFit(rate);
      DailyIncrementBounds(rate);
      YearlyGrowth(d);
      BpsOfExcess(PowFactorValue(SCALE + d, DAYS_PER_YEAR).value, d, rate);
    }
  }
}
