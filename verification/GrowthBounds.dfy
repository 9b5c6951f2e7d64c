/**
 Compounding between exact bounds: each implementation stays below the exact power of its rate and loses no more
 than its roundings account for (contracts/inheritance-contract/src/yield_math.rs and safe_math.rs).
 */
module GrowthBounds {
  import opened MachineInts
  import opened GrowthLadder
  import opened ContractErrors
  import YieldMath
  import SafeMath

  const BPS: int := 10_000

  /** A year of days in basis points: the denominator of a daily rate. */
  const DAILY_BPS: int := 3_650_000

  // ---------- powers ----------

  lemma {:induction false} PowerPositive(b: nat, e: nat)
    requires b > 0
    ensures Power(b, e) > 0
  {
    if e > 0 {
      PowerPositive(b, e - 1);
      ProductMonotone(1, 1, b, Power(b, e - 1));
    }
  }

  lemma {:induction false} PowerMonotone(a: nat, b: nat, e: nat)
    requires a <= b
    ensures Power(a, e) <= Power(b, e)
  {
    if e > 0 {
      PowerMonotone(a, b, e - 1);
      ProductMonotone(a, Power(a, e - 1), b, Power(b, e - 1));
    }
  }

  lemma Swap(a: nat, b: nat, c: nat, d: nat)
    ensures (a * b) * (c * d) == (a * c) * (b * d)
  {
  }

  lemma {:induction false} PowerOfProduct(a: nat, b: nat, e: nat)
    ensures Power(a * b, e) == Power(a, e) * Power(b, e)
  {
    if e > 0 {
      PowerOfProduct(a, b, e - 1);
      Swap(a, b, Power(a, e - 1), Power(b, e - 1));
    }
  }

  lemma CancelFactor(x: nat, y: nat, f: nat)
    requires f > 0 && x * f <= y * f
    ensures x <= y
  {
  }

  lemma CancelStrictly(x: nat, y: nat, f: nat)
    requires x * f < y * f
    ensures x < y
  {
  }

  // ---------- one power of a base ----------

  /** Principal times factor, rounded down: never above the exact power, and short of it by the roundings only. */
  ghost predicate GrownBetween(principal: nat, base: nat, n: nat, value: nat)
    requires n >= 1
  {
    && value * Power(SCALE, n) <= principal * Power(base, n)
    && principal * Power(base, n) * Power(SCALE - 1, n - 1) < (value + 1) * Power(SCALE, n) * Power(SCALE, n - 1)
  }

  lemma UpperGrowth(principal: nat, g: nat, value: nat, s: nat, b: nat)
    requires value * SCALE <= principal * g && g * s <= b
    ensures value * (SCALE * s) <= principal * b
  {
    ProductMonotone(value * SCALE, s, principal * g, s);
    ProductMonotone(principal, g * s, principal, b);
    assert value * (SCALE * s) == value * SCALE * s;
    assert principal * g * s == principal * (g * s);
  }

  lemma LowerGrowth(principal: nat, g: nat, value: nat, s: nat, b: nat, t: nat)
    requires principal * g < (value + 1) * SCALE && b * t <= g * (s * s) && s > 0
    ensures principal * b * t < (value + 1) * (SCALE * s) * s
  {
    var q := s * s;
    assert q > 0 by {
      ProductMonotone(1, 1, s, s);
    }
    ProductMonotone(principal, b * t, principal, g * q);
    assert principal * b * t == principal * (b * t);
    assert principal * (g * q) == principal * g * q;
    assert principal * g * q < (value + 1) * SCALE * q;
    assert (value + 1) * (SCALE * s) * s == (value + 1) * SCALE * q;
  }

  lemma QuotientBetween(x: nat, value: nat)
    requires value == x / SCALE
    ensures value * SCALE <= x < (value + 1) * SCALE
  {
  }

  lemma LadderGrows(max: nat, base: nat, n: nat, principal: nat, value: nat)
    requires base >= SCALE && n >= 1 && Ladder(max, SCALE, base, n).Some?
    requires value == principal * Ladder(max, SCALE, base, n).value / SCALE
    ensures GrownBetween(principal, base, n, value)
  {
    var g := Ladder(max, SCALE, base, n).value;
    BaseApproximatesItself(base);
    LadderApproximates(max, base, SCALE, 0, base, 1, n);
    assert Approximates(base, g, n);
    QuotientBetween(principal * g, value);
    PowerPositive(SCALE, n - 1);
    PowerAdds(SCALE, n - 1, n - 1);
    UpperGrowth(principal, g, value, Power(SCALE, n - 1), Power(base, n));
    LowerGrowth(principal, g, value, Power(SCALE, n - 1), Power(base, n), Power(SCALE - 1, n - 1));
  }

  // ---------- the rate behind a base ----------

  lemma CancelPowers(v: nat, p: nat, sn: nat, bn: nat, dn: nat, rn: nat)
    requires v * sn <= p * bn && bn * dn <= sn * rn && sn > 0
    ensures v * dn <= p * rn
  {
    ProductMonotone(v * sn, dn, p * bn, dn);
    ProductMonotone(p, bn * dn, p, sn * rn);
    Regroup(v, sn, dn);
    Regroup(p, bn, dn);
    Regroup(p, sn, rn);
    CancelFactor(v * dn, p * rn, sn);
  }

  lemma Regroup(x: nat, y: nat, z: nat)
    ensures x * (y * z) == (x * y) * z == (x * z) * y
  {
  }

  /** A base that is at most one plus rate over `d` keeps growth under the exact power of that. */
  lemma BelowRate(principal: nat, base: nat, n: nat, value: nat, rate: nat, d: nat)
    requires value * Power(SCALE, n) <= principal * Power(base, n) && base * d <= SCALE * (d + rate)
    ensures value * Power(d, n) <= principal * Power(d + rate, n)
  {
    PowerOfProduct(base, d, n);
    PowerOfProduct(SCALE, d + rate, n);
    PowerMonotone(base * d, SCALE * (d + rate), n);
    PowerPositive(SCALE, n);
    CancelPowers(value, principal, Power(SCALE, n), Power(base, n), Power(d, n), Power(d + rate, n));
  }

  lemma CancelUnit(p: nat, v: nat, un: nat, dn: nat, rn: nat, t: nat, s: nat)
    requires p * (un * rn) * t < v * (un * dn) * s
    ensures p * rn * t < v * dn * s
  {
    Regroup(p, un, rn);
    Regroup(v, un, dn);
    Regroup(p * rn, un, t);
    Regroup(v * dn, un, s);
    CancelStrictly(p * rn * t, v * dn * s, un);
  }

  /** A base that is exactly one plus rate over `d` loses nothing but the roundings of the ladder. */
  lemma AboveRate(principal: nat, base: nat, n: nat, value: nat, rate: nat, d: nat, unit: nat)
    requires n >= 1 && SCALE == unit * d && base == unit * (d + rate) && GrownBetween(principal, base, n, value)
    ensures principal * Power(d + rate, n) * Power(SCALE - 1, n - 1) <
            (value + 1) * Power(d, n) * Power(SCALE, n - 1)
  {
    PowerOfProduct(unit, d, n);
    PowerOfProduct(unit, d + rate, n);
    CancelUnit(principal, value + 1, Power(unit, n), Power(d, n), Power(d + rate, n), Power(SCALE - 1, n - 1),
               Power(SCALE, n - 1));
  }

  // ---------- the compound amount ----------

  lemma GrowsByLadder(principal: u64, base: u128, n: u64)
    requires YieldMath.Grow(principal, YieldMath.PowFactorValue(base, n)).Ok?
    ensures Ladder(U128_MAX, SCALE, base, n).Some?
    ensures YieldMath.Grow(principal, YieldMath.PowFactorValue(base, n)).value ==
            principal * Ladder(U128_MAX, SCALE, base, n).value / SCALE
  {
  }

  lemma PeriodBase(rate: nat)
    ensures SCALE + SCALE * rate / BPS == 100_000_000 * (BPS + rate)
    ensures SCALE == 100_000_000 * BPS
  {
  }

  /**
   An accepted compound amount is at most principal * (1 + rate/10000)^n, exactly, and less than one unit and
   n - 1 single roundings below it; all in integers, for every principal, rate and number of periods.
   */
  lemma CompoundAmountBounds(principal: u64, rate: u32, n: u64)
    ensures var r := YieldMath.CompoundAmount(principal, rate, n);
            r.Ok? ==>
              && rate <= 10_000 && n <= 36_500
              && r.value * Power(BPS, n) <= principal * Power(BPS + rate, n)
              && (n >= 1 ==> principal * Power(BPS + rate, n) * Power(SCALE - 1, n - 1) <
                             (r.value + 1) * Power(BPS, n) * Power(SCALE, n - 1))
              && (n == 0 ==> r.value == principal)
  {
    var r := YieldMath.CompoundAmount(principal, rate, n);
    if r.Ok? {
      if principal > 0 && rate > 0 && n > 0 {
        var base := SCALE + SCALE * rate / BPS;
        PeriodBase(rate);
        GrowsByLadder(principal, base, n);
        LadderGrows(U128_MAX, base, n, principal, r.value);
        BelowRate(principal, base, n, r.value, rate, BPS);
        AboveRate(principal, base, n, r.value, rate, BPS, 100_000_000);
      } else {
        Unchanged(principal, rate, n, BPS);
      }
    }
  }

  /** Compound interest is exactly what the amount adds to the principal, and accepted whenever the amount is. */
  lemma CompoundInterestIsGrowth(principal: u64, rate: u32, n: u64)
    ensures var r := YieldMath.CompoundInterest(principal, rate, n);
            var total := YieldMath.CompoundAmount(principal, rate, n);
            if total.Ok? then r.Ok? && principal + r.value == total.value else r == total
  {
    if YieldMath.CompoundAmount(principal, rate, n).Ok? && principal > 0 && rate > 0 && n > 0 {
      PeriodBase(rate);
      AmountNeverFalls(principal, SCALE + SCALE * rate / BPS, n);
    }
  }

  lemma AmountNeverFalls(principal: u64, base: u128, n: u64)
    requires base >= SCALE && YieldMath.Grow(principal, YieldMath.PowFactorValue(base, n)).Ok?
    ensures YieldMath.Grow(principal, YieldMath.PowFactorValue(base, n)).value >= principal
  {
    GrowsByLadder(principal, base, n);
    LadderMonotoneInExponent(U128_MAX, base, 0, n);
    ScaledUnit(principal);
    ScaledMonotone(principal, SCALE, principal, Ladder(U128_MAX, SCALE, base, n).value);
  }

  /** The early returns meet the same bounds. */
  lemma Unchanged(principal: nat, rate: nat, n: nat, d: nat)
    requires (principal == 0 || rate == 0 || n == 0) && d > 0
    ensures principal * Power(d, n) <= principal * Power(d + rate, n)
    ensures n >= 1 ==> principal * Power(d + rate, n) * Power(SCALE - 1, n - 1) <
                       (principal + 1) * Power(d, n) * Power(SCALE, n - 1)
  {
    PowerMonotone(d, d + rate, n);
    ProductMonotone(principal, Power(d, n), principal, Power(d + rate, n));
    if n >= 1 {
      var dn, s, t := Power(d, n), Power(SCALE, n - 1), Power(SCALE - 1, n - 1);
      PowerPositive(d, n);
      PowerPositive(SCALE, n - 1);
      PowerMonotone(SCALE - 1, SCALE, n - 1);
      assert principal * Power(d + rate, n) == principal * dn;
      OneUnitMore(principal, dn, s, t);
    }
  }

  lemma OneUnitMore(x: nat, dn: nat, s: nat, t: nat)
    requires t <= s && dn > 0 && s > 0
    ensures x * dn * t < (x + 1) * dn * s
  {
    ProductMonotone(1, 1, dn, s);
    ProductMonotone(x * dn, t, x * dn, s);
    assert (x + 1) * dn * s == x * dn * s + dn * s;
  }

  lemma LadderOfOne(max: nat, base: nat)
    requires SCALE * base <= max
    ensures Ladder(max, SCALE, base, 1) == Some(base)
  {
    ScaledUnit(base);
  }

  lemma OnePeriodExact(principal: nat, rate: nat)
    ensures principal * (SCALE + SCALE * rate / BPS) / SCALE == principal + principal * rate / BPS
  {
    PeriodBase(rate);
    assert principal * (100_000_000 * (BPS + rate)) == 100_000_000 * (principal * BPS + principal * rate);
    YieldMath.QuotientOfUnits(100_000_000, principal * BPS + principal * rate);
  }

  /** Over one period it is simple interest, rounded down once. */
  lemma OnePeriod(principal: u64, rate: u32)
    ensures var r := YieldMath.CompoundAmount(principal, rate, 1);
            if rate > 10_000 then r.Err?
            else (r.Ok? <==> principal + principal * rate / BPS <= U64_MAX) &&
                 (r.Ok? ==> r.value == principal + principal * rate / BPS)
  {
    if rate <= 10_000 {
      OnePeriodExact(principal, rate);
      var base := SCALE + SCALE * rate / BPS;
      LadderOfOne(U128_MAX, base);
      assert YieldMath.PowFactorValue(base, 1) == Ok(base);
      ProductMonotone(principal, base, U64_MAX, 2 * SCALE);
    }
  }

  // ---------- daily compounding ----------

  /** The daily base is one plus rate over 3650000, rounded down. */
  lemma DailyBase(rate: nat)
    ensures var base := SCALE + YieldMath.DailyIncrement(rate);
            base * DAILY_BPS <= SCALE * (DAILY_BPS + rate) < (base + 1) * DAILY_BPS
  {
  }

  lemma UnchangedBetween(principal: nat, base: nat, n: nat)
    requires principal == 0 || base == SCALE || n == 0
    ensures n >= 1 && base >= SCALE ==> GrownBetween(principal, base, n, principal)
  {
    if n >= 1 && base >= SCALE {
      Unchanged(principal, base - SCALE, n, SCALE);
    }
  }

  /** Between the exact power of the daily rate and that less the roundings. */
  ghost predicate GrownDaily(principal: nat, rate: nat, days: nat, value: int) {
    && value >= 0
    && value * Power(DAILY_BPS, days) <= principal * Power(DAILY_BPS + rate, days)
    && (days >= 1 ==> GrownBetween(principal, SCALE + YieldMath.DailyIncrement(rate), days, value))
  }

  lemma LadderGrowsDaily(max: nat, principal: nat, rate: nat, days: nat, value: nat)
    requires days >= 1
    requires var l := Ladder(max, SCALE, SCALE + YieldMath.DailyIncrement(rate), days);
             l.Some? && value == principal * l.value / SCALE
    ensures GrownDaily(principal, rate, days, value)
  {
    var base := SCALE + YieldMath.DailyIncrement(rate);
    DailyBase(rate);
    LadderGrows(max, base, days, principal, value);
    BelowRate(principal, base, days, value, rate, DAILY_BPS);
  }

  lemma UnchangedDaily(principal: nat, rate: nat, days: nat)
    requires principal == 0 || rate == 0 || days == 0
    ensures GrownDaily(principal, rate, days, principal)
  {
    Unchanged(principal, rate, days, DAILY_BPS);
    UnchangedBetween(principal, SCALE + YieldMath.DailyIncrement(rate), days);
  }

  /** A projection lies between the exact power of its daily rate and that less the roundings. */
  lemma ProjectionBounds(principal: u64, rate: u32, days: u64)
    ensures var r := YieldMath.ProjectDailyCompound(principal, rate, days);
            r.Ok? ==> rate <= 10_000 && days <= 36_500 && GrownDaily(principal, rate, days, r.value)
  {
    var r := YieldMath.ProjectDailyCompound(principal, rate, days);
    if r.Ok? {
      if principal > 0 && rate > 0 && days > 0 {
        GrowsByLadder(principal, SCALE + YieldMath.DailyIncrement(rate), days);
        LadderGrowsDaily(U128_MAX, principal, rate, days, r.value);
      } else {
        UnchangedDaily(principal, rate, days);
      }
    }
  }

  /** The rate in basis points that is added to one does not exceed what `n` days of exact compounding add. */
  ghost predicate AtMostExact(bps: nat, rate: nat, n: nat) {
    (bps + BPS) * Power(DAILY_BPS, n) <= BPS * Power(DAILY_BPS + rate, n)
  }

  lemma ExcessBelowRate(base: nat, n: nat, g: nat, bps: nat, rate: nat)
    requires n >= 1 && g >= SCALE && g * Power(SCALE, n - 1) <= Power(base, n)
    requires bps == (g - SCALE) * BPS / SCALE && base * DAILY_BPS <= SCALE * (DAILY_BPS + rate)
    ensures AtMostExact(bps, rate, n)
  {
    QuotientBetween((g - SCALE) * BPS, bps);
    assert (bps + BPS) * SCALE <= BPS * g;
    UpperGrowth(BPS, g, bps + BPS, Power(SCALE, n - 1), Power(base, n));
    BelowRate(BPS, base, n, bps + BPS, rate, DAILY_BPS);
  }

  lemma ExcessOfPower(rate: u32, n: u64, g: nat)
    requires n >= 1 && YieldMath.PowFactorValue(SCALE + YieldMath.DailyIncrement(rate), n) == Ok(g)
    ensures YieldMath.ExcessInBps(g).Ok? ==> AtMostExact(YieldMath.ExcessInBps(g).value, rate, n)
  {
    var base := SCALE + YieldMath.DailyIncrement(rate);
    DailyBase(rate);
    YieldMath.PowFactorRoundingError(base, n);
    if YieldMath.ExcessInBps(g).Ok? {
      ExcessBelowRate(base, n, g, YieldMath.ExcessInBps(g).value, rate);
    }
  }

  lemma NoRateNoExcess(n: nat)
    ensures AtMostExact(0, 0, n)
  {
  }

  /** The effective rate never exceeds what a year of exact daily compounding adds to one. */
  lemma EffectiveApyAtMostExact(rate: u32)
    ensures var r := YieldMath.EffectiveApyBps(rate);
            r.Ok? ==> AtMostExact(r.value, rate, 365)
  {
    var r := YieldMath.EffectiveApyBps(rate);
    if r.Ok? {
      if rate == 0 {
        NoRateNoExcess(365);
      } else {
        ExcessOfPower(rate, 365, YieldMath.PowFactorValue(SCALE + YieldMath.DailyIncrement(rate), 365).value);
      }
    }
  }

  // ---------- what fits ----------

  /** Not above the exact power of the base, as a factor at scale. */
  ghost predicate Below(base: nat, v: nat, k: nat) {
    v * Power(SCALE, k) <= SCALE * Power(base, k)
  }

  lemma PowerSplits(base: nat, e: nat, n: nat)
    requires e <= n && SCALE <= base
    ensures Power(base, e) * Power(SCALE, n) <= Power(base, n) * Power(SCALE, e)
  {
    PowerAdds(base, e, n - e);
    PowerAdds(SCALE, e, n - e);
    PowerMonotone(SCALE, base, n - e);
    Widen(Power(base, e), Power(SCALE, e), Power(SCALE, n - e), Power(base, n - e));
  }

  lemma Widen(x: nat, y: nat, s: nat, b: nat)
    requires s <= b
    ensures x * (y * s) <= (x * b) * y
  {
    ProductMonotone(x * y, s, x * y, b);
    Regroup(x, y, s);
    Regroup(x, y, b);
  }

  lemma ProductBelow(v: nat, w: nat, sj: nat, sk: nat, bj: nat, bk: nat)
    requires v * sj <= SCALE * bj && w * sk <= SCALE * bk
    ensures (v * w) * (sj * sk) <= SCALE * SCALE * (bj * bk)
  {
    ProductMonotone(v * sj, w * sk, SCALE * bj, SCALE * bk);
    Swap(v, sj, w, sk);
    Swap(SCALE, bj, SCALE, bk);
  }

  /** The raw product of two factors within the exponent `n` passes no bound that base^n itself respects. */
  lemma ProductFits(max: nat, base: nat, v: nat, j: nat, w: nat, k: nat, n: nat)
    requires SCALE <= base && Below(base, v, j) && Below(base, w, k) && j + k <= n
    requires SCALE * SCALE * Power(base, n) <= max * Power(SCALE, n)
    ensures v * w <= max && Below(base, Scaled(v, w), j + k)
  {
    PowerAdds(SCALE, j, k);
    PowerAdds(base, j, k);
    ProductBelow(v, w, Power(SCALE, j), Power(SCALE, k), Power(base, j), Power(base, k));
    PowerSplits(base, j + k, n);
    PowerPositive(SCALE, n);
    PowerPositive(SCALE, j + k);
    FitsUnder(v * w, SCALE * SCALE, Power(SCALE, j + k), Power(base, j + k), Power(SCALE, n), Power(base, n), max);
    ScaledBelow(v * w, Power(SCALE, j + k), Power(base, j + k));
  }

  lemma FitsUnder(p: nat, q: nat, se: nat, be: nat, sn: nat, bn: nat, max: nat)
    requires p * se <= q * be && be * sn <= bn * se && q * bn <= max * sn && se > 0 && sn > 0
    ensures p <= max
  {
    ProductMonotone(p * se, sn, q * be, sn);
    ProductMonotone(q, be * sn, q, bn * se);
    ProductMonotone(q * bn, se, max * sn, se);
    Regroup(q, be, sn);
    Regroup(q, bn, se);
    Regroup(p, se, sn);
    Regroup(max, sn, se);
    ProductMonotone(1, 1, se, sn);
    CancelFactor(p, max, se * sn);
  }

  lemma ScaledBelow(p: nat, se: nat, be: nat)
    requires p * se <= SCALE * SCALE * be
    ensures (p / SCALE) * se <= SCALE * be
  {
    QuotientBetween(p, p / SCALE);
    ProductMonotone((p / SCALE) * SCALE, se, p, se);
    Regroup(p / SCALE, SCALE, se);
    CancelFactor((p / SCALE) * se, SCALE * be, SCALE);
  }

  lemma HalvedExponent(e: nat, n: nat, a: nat, total: nat) returns (e': nat)
    requires n > 0 && total == e + n * a
    ensures e' == e + (if n % 2 == 1 then a else 0) && total == e' + n / 2 * (a + a) && e' <= total
    ensures n / 2 > 0 ==> a + a <= total
  {
    e' := e + if n % 2 == 1 then a else 0;
    ExponentSplits(n, a);
    if n / 2 > 0 {
      ProductMonotone(1, a + a, n / 2, a + a);
    }
  }

  lemma {:induction false} LadderFits(max: nat, base: nat, r: nat, e: nat, acc: nat, a: nat, n: nat, total: nat)
    requires SCALE <= base && Below(base, r, e) && Below(base, acc, a) && total == e + n * a
    requires SCALE * SCALE * Power(base, total) <= max * Power(SCALE, total)
    ensures Ladder(max, r, acc, n).Some? && Below(base, Ladder(max, r, acc, n).value, total)
    decreases n
  {
    if n > 0 {
      var e' := HalvedExponent(e, n, a, total);
      var r' := if n % 2 == 1 then Scaled(r, acc) else r;
      if n % 2 == 1 {
        ProductFits(max, base, r, e, acc, a, total);
      }
      if n / 2 > 0 {
        ProductFits(max, base, acc, a, acc, a, total);
        LadderFits(max, base, r', e', Scaled(acc, acc), a + a, n / 2, total);
      } else {
        assert total == e';
      }
    }
  }

  /**
   Room for growth of rate/d over `n` periods: its exact factor at scale^2 is within `max`, and the exact amount
   that the principal grows to is within `limit`.
   */
  ghost predicate HasRoom(max: nat, limit: nat, principal: nat, rate: nat, d: nat, n: nat) {
    && SCALE * SCALE * Power(d + rate, n) <= max * Power(d, n)
    && principal * Power(d + rate, n) <= limit * Power(d, n)
  }

  lemma RoomForBase(max: nat, base: nat, rate: nat, d: nat, n: nat)
    requires base * d <= SCALE * (d + rate) && d > 0
    requires SCALE * SCALE * Power(d + rate, n) <= max * Power(d, n)
    ensures SCALE * SCALE * Power(base, n) <= max * Power(SCALE, n)
  {
    PowerOfProduct(base, d, n);
    PowerOfProduct(SCALE, d + rate, n);
    PowerMonotone(base * d, SCALE * (d + rate), n);
    PowerPositive(d, n);
    ExchangeRoom(SCALE * SCALE, Power(base, n), max, Power(SCALE, n), Power(d, n), Power(d + rate, n));
  }

  lemma ExchangeRoom(q: nat, bn: nat, max: nat, sn: nat, dn: nat, rn: nat)
    requires bn * dn <= sn * rn && q * rn <= max * dn && dn > 0
    ensures q * bn <= max * sn
  {
    ProductMonotone(q, bn * dn, q, sn * rn);
    ProductMonotone(q * rn, sn, max * dn, sn);
    Regroup(q, bn, dn);
    Regroup(q, sn, rn);
    Regroup(max, dn, sn);
    CancelFactor(q * bn, max * sn, dn);
  }

  /** With room for the exact growth the ladder goes through, and stays below it. */
  lemma RoomyLadder(max: nat, base: nat, rate: nat, d: nat, n: nat) returns (g: nat)
    requires SCALE <= base && base * d <= SCALE * (d + rate) && d > 0
    requires SCALE * SCALE * Power(d + rate, n) <= max * Power(d, n)
    ensures Ladder(max, SCALE, base, n) == Some(g) && g * Power(d, n) <= SCALE * Power(d + rate, n)
  {
    RoomForBase(max, base, rate, d, n);
    assert Power(base, 1) == base * Power(base, 0) && Power(SCALE, 1) == SCALE * Power(SCALE, 0);
    LadderFits(max, base, SCALE, 0, base, 1, n, n);
    g := Ladder(max, SCALE, base, n).value;
    BelowRate(SCALE, base, n, g, rate, d);
  }

  lemma ScaledAmountFits(limit: nat, principal: nat, g: nat, dn: nat, rn: nat)
    requires g * dn <= SCALE * rn && principal * rn <= limit * dn && dn > 0
    ensures principal * g <= limit * SCALE
  {
    ProductMonotone(principal, g * dn, principal, SCALE * rn);
    ProductMonotone(principal * rn, SCALE, limit * dn, SCALE);
    Regroup(principal, g, dn);
    Regroup(principal, SCALE, rn);
    Regroup(limit, dn, SCALE);
    CancelFactor(principal * g, limit * SCALE, dn);
  }

  lemma AmountFits(max: nat, limit: nat, principal: nat, base: nat, rate: nat, d: nat, n: nat) returns (g: nat)
    requires SCALE <= base && base * d <= SCALE * (d + rate) && d > 0 && HasRoom(max, limit, principal, rate, d, n)
    ensures Ladder(max, SCALE, base, n) == Some(g) && principal * g <= limit * SCALE
  {
    g := RoomyLadder(max, base, rate, d, n);
    PowerPositive(d, n);
    ScaledAmountFits(limit, principal, g, Power(d, n), Power(d + rate, n));
  }

  lemma GrowFits(principal: u64, base: u128, rate: nat, d: nat, n: u64)
    requires SCALE <= base && base * d <= SCALE * (d + rate) && d > 0 && n <= 36_500
    requires HasRoom(U128_MAX, U64_MAX, principal, rate, d, n)
    ensures YieldMath.Grow(principal, YieldMath.PowFactorValue(base, n)).Ok?
  {
    var g := AmountFits(U128_MAX, U64_MAX, principal, base, rate, d, n);
  }

  /** Within the caps a compound amount is refused only where the exact growth lacks room; beyond them always. */
  lemma CompoundAmountAccepted(principal: u64, rate: u32, n: u64)
    ensures var r := YieldMath.CompoundAmount(principal, rate, n);
            if rate > 10_000 || n > 36_500 then r == Err(InvalidAllocation)
            else HasRoom(U128_MAX, U64_MAX, principal, rate, BPS, n) ==> r.Ok?
  {
    if rate <= 10_000 && n <= 36_500 && HasRoom(U128_MAX, U64_MAX, principal, rate, BPS, n) {
      PeriodBase(rate);
      GrowFits(principal, SCALE + SCALE * rate / BPS, rate, BPS, n);
    }
  }

  /** The same for daily projections, with a daily rate of rate / 3650000. */
  lemma ProjectionAccepted(principal: u64, rate: u32, days: u64)
    ensures var r := YieldMath.ProjectDailyCompound(principal, rate, days);
            if rate > 10_000 || days > 36_500 then r == Err(InvalidAllocation)
            else HasRoom(U128_MAX, U64_MAX, principal, rate, DAILY_BPS, days) ==> r.Ok?
  {
    if rate <= 10_000 && days <= 36_500 && HasRoom(U128_MAX, U64_MAX, principal, rate, DAILY_BPS, days) {
      DailyBase(rate);
      GrowFits(principal, SCALE + YieldMath.DailyIncrement(rate), rate, DAILY_BPS, days);
    }
  }

  // ---------- the signed implementation ----------

  lemma SameDailyBase(rate: u32) returns (base: nat)
    ensures base == SafeMath.DailyFactor(rate) == SCALE + YieldMath.DailyIncrement(rate)
  {
    base := SafeMath.DailyFactor(rate);
  }

  lemma SignedLadder(principal: i128, rate: u32, elapsed: u64, base: nat, r: SafeMath.Checked<i128>)
    returns (l: Option<nat>)
    requires principal > 0 && rate > 0 && elapsed / 86_400 > 0 && base == SafeMath.DailyFactor(rate)
    requires r == SafeMath.CompoundYield(principal, rate, elapsed) && r.Ok?
    ensures l == Ladder(I128_MAX, SCALE, base, elapsed / 86_400)
    ensures l.Some? && r.value == principal * l.value / SCALE
  {
    l := Ladder(I128_MAX, SCALE, base, elapsed / 86_400);
    SafeMath.CompoundYieldUnfolds(principal, rate, elapsed);
  }

  lemma SignedGrowth(principal: i128, rate: u32, elapsed: u64, r: SafeMath.Checked<i128>)
    requires principal > 0 && rate > 0 && elapsed / 86_400 > 0
    requires r == SafeMath.CompoundYield(principal, rate, elapsed) && r.Ok?
    ensures GrownDaily(principal, rate, elapsed / 86_400, r.value)
  {
    var base := SameDailyBase(rate);
    var l := SignedLadder(principal, rate, elapsed, base, r);
    QuotientNonNegative(principal, l.value);
    LadderGrowsDaily(I128_MAX, principal, rate, elapsed / 86_400, r.value);
  }

  lemma QuotientNonNegative(x: nat, y: nat)
    ensures x * y / SCALE >= 0
  {
    ProductMonotone(0, 0, x, y);
  }

  /** The same bounds for signed amounts, at any rate and over any time, with a day for every 86400 seconds. */
  lemma CompoundYieldBounds(principal: i128, rate: u32, elapsed: u64)
    ensures var r := SafeMath.CompoundYield(principal, rate, elapsed);
            if principal < 0 then r == Err(SafeMath.NegativeAmount)
            else r.Ok? ==> GrownDaily(principal, rate, elapsed / 86_400, r.value)
  {
    var r, days := SafeMath.CompoundYield(principal, rate, elapsed), elapsed / 86_400;
    if principal >= 0 && r.Ok? {
      if principal == 0 || rate == 0 || days == 0 {
        UnchangedDaily(principal, rate, days);
      } else {
        SignedGrowth(principal, rate, elapsed, r);
      }
    }
  }

  /** Accrued interest is what the principal has grown by, so it has the same bounds. */
  lemma AccruedInterestBounds(principal: i128, rate: u32, elapsed: u64)
    ensures var r := SafeMath.AccruedInterest(principal, rate, elapsed);
            r.Ok? ==> principal >= 0 && GrownDaily(principal, rate, elapsed / 86_400, principal + r.value)
  {
    CompoundYieldBounds(principal, rate, elapsed);
    SafeMath.AccruedInterestAtLeastSimple(principal, rate, elapsed);
  }

  /** It has no caps, so it is refused only where the exact growth lacks room. */
  lemma CompoundYieldAccepted(principal: i128, rate: u32, elapsed: u64)
    requires principal >= 0
    requires HasRoom(I128_MAX, I128_MAX / SCALE, principal, rate, DAILY_BPS, elapsed / 86_400)
    ensures SafeMath.CompoundYield(principal, rate, elapsed).Ok?
  {
    var days := elapsed / 86_400;
    if principal > 0 && rate > 0 && days > 0 {
      var base := SameDailyBase(rate);
      DailyBase(rate);
      var g := AmountFits(I128_MAX, I128_MAX / SCALE, principal, base, rate, DAILY_BPS, days);
      SafeMath.CompoundYieldUnfolds(principal, rate, elapsed);
    }
  }
}
