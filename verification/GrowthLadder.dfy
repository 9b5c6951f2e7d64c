/**
 The squaring ladder shared by both compounding implementations, as a function of the
 bound that its checked multiplications respect, and the theory of its rounding.
 */
module GrowthLadder {
  import opened MachineInts

  const SCALE: int := 1_000_000_000_000

  /** One truncating fixed-point product. */
  function Scaled(a: nat, b: nat): nat {
    a * b / SCALE
  }

  /** The checked product: it fails when the raw product passes `max`. */
  function ScaledWithin(max: nat, a: nat, b: nat): Option<nat> {
    if a * b <= max then Some(Scaled(a, b)) else None
  }

  /**
   The value left by the loop from state (result, accumulator, remaining). The last bit does
   not square the accumulator again, so that square cannot fail.
   */
  function Ladder(max: nat, result: nat, accumulator: nat, remaining: nat): Option<nat>
    decreases remaining
  {
    if remaining == 0 then Some(result)
    else
      var next := if remaining % 2 == 1 then ScaledWithin(max, result, accumulator) else Some(result);
      if next.None? || remaining / 2 == 0 then next
      else
        var square := ScaledWithin(max, accumulator, accumulator);
        if square.None? then None else Ladder(max, next.value, square.value, remaining / 2)
  }

  function Power(b: nat, e: nat): nat {
    if e == 0 then 1 else b * Power(b, e - 1)
  }

  // ---------- products ----------

  lemma ProductMonotone(a: nat, b: nat, c: nat, d: nat)
    requires a <= c && b <= d
    ensures a * b <= c * d
  {
    assert a * b <= c * b;
    assert c * b <= c * d;
  }

  lemma ScaledMonotone(a: nat, b: nat, c: nat, d: nat)
    requires a <= c && b <= d
    ensures a * b <= c * d && Scaled(a, b) <= Scaled(c, d)
  {
    ProductMonotone(a, b, c, d);
  }

  lemma ScaledUnit(a: nat)
    ensures Scaled(SCALE, a) == a && Scaled(a, SCALE) == a
  {
  }

  lemma PowerAdds(b: nat, i: nat, j: nat)
    ensures Power(b, i + j) == Power(b, i) * Power(b, j)
  {
    if i > 0 {
      PowerAdds(b, i - 1, j);
      assert b * (Power(b, i - 1) * Power(b, j)) == (b * Power(b, i - 1)) * Power(b, j);
    }
  }

  // ---------- order ----------

  /** `x` never exceeds `y`, and never fails when `y` does not. */
  ghost predicate AtMost(x: Option<nat>, y: Option<nat>) {
    y.Some? ==> x.Some? && x.value <= y.value
  }

  lemma {:induction false} LadderMonotone(max: nat, r0: nat, a0: nat, r1: nat, a1: nat, n: nat)
    requires r0 <= r1 && a0 <= a1
    ensures AtMost(Ladder(max, r0, a0, n), Ladder(max, r1, a1, n))
    decreases n
  {
    ScaledMonotone(r0, a0, r1, a1);
    ScaledMonotone(a0, a0, a1, a1);
    if n > 1 && Ladder(max, r1, a1, n).Some? {
      var s0 := if n % 2 == 1 then Scaled(r0, a0) else r0;
      var s1 := if n % 2 == 1 then Scaled(r1, a1) else r1;
      LadderMonotone(max, s0, Scaled(a0, a0), s1, Scaled(a1, a1), n / 2);
    }
  }

  /**
   Adding one to the exponent carries through the trailing ones of `n`. A result that is still
   at most the accumulator is absorbed by the carry, so the two rounding paths stay ordered.
   */
  lemma {:induction false} LadderCarry(max: nat, r: nat, a: nat, n: nat)
    requires r <= a && SCALE <= a
    ensures AtMost(Ladder(max, r, a, n), Ladder(max, SCALE, a, n + 1))
    decreases n
  {
    ScaledUnit(a);
    ScaledMonotone(r, a, a, a);
    ScaledMonotone(SCALE, SCALE, a, a);
    if n > 1 && Ladder(max, SCALE, a, n + 1).Some? {
      if n % 2 == 0 {
        assert (n + 1) / 2 == n / 2;
        LadderMonotone(max, r, Scaled(a, a), a, Scaled(a, a), n / 2);
      } else {
        assert (n + 1) / 2 == n / 2 + 1;
        LadderCarry(max, Scaled(r, a), Scaled(a, a), n / 2);
      }
    }
  }

  lemma {:induction false} LadderMonotoneInExponent(max: nat, a: nat, m: nat, n: nat)
    requires SCALE <= a && m <= n
    ensures AtMost(Ladder(max, SCALE, a, m), Ladder(max, SCALE, a, n))
    decreases n - m
  {
    if m < n {
      LadderCarry(max, SCALE, a, m);
      LadderMonotoneInExponent(max, a, m + 1, n);
    }
  }

  // ---------- simple interest is a lower bound ----------

  /** The weight of the highest set bit. */
  function TopBit(n: nat): (t: nat)
    requires n >= 1
    ensures 1 <= t <= n
  {
    if n == 1 then 1 else 2 * TopBit(n / 2)
  }

  /** Rounding down keeps the sum of the two excesses and their scaled product. */
  lemma ScaledExcess(x: nat, y: nat)
    ensures Scaled(SCALE + x, SCALE + y) == SCALE + x + y + Scaled(x, y)
  {
    assert (SCALE + x) * (SCALE + y) == SCALE * (SCALE + x + y) + x * y;
  }

  /** Simple growth over n steps of d on top of x, plus the cross term of the last product. */
  function SimpleBound(x: nat, d: nat, n: nat): nat
    requires n >= 1
  {
    var t := TopBit(n);
    x + n * d + Scaled(x + (n - t) * d, t * d)
  }

  lemma DoubledProduct(k: nat, d: nat)
    ensures k * (2 * d) == (2 * k) * d
  {
  }

  /** Folding the lowest bit of n into x and doubling d leaves the bound as it is. */
  lemma SimpleBoundHalves(n: nat, x: nat, d: nat)
    requires n >= 2
    ensures SimpleBound(x + (n % 2) * d, 2 * d, n / 2) == SimpleBound(x, d, n)
  {
    var h, o, t := n / 2, n % 2, TopBit(n / 2);
    DoubledProduct(h, d);
    DoubledProduct(t, d);
    DoubledProduct(h - t, d);
    assert o * d + (2 * h) * d == (o + 2 * h) * d;
    assert o * d + (2 * (h - t)) * d == (o + 2 * (h - t)) * d;
    assert n == o + 2 * h && TopBit(n) == 2 * t;
  }

  lemma ExcessMultiplies(result: nat, x: nat, acc: nat, d: nat)
    requires result >= SCALE + x && acc >= SCALE + d
    ensures Scaled(result, acc) >= SCALE + x + d + Scaled(x, d)
  {
    ScaledExcess(x, d);
    ScaledMonotone(SCALE + x, SCALE + d, result, acc);
  }

  lemma SimpleBoundStep(n: nat, x: nat, d: nat)
    requires n >= 2
    ensures n % 2 == 1 ==> SimpleBound(x + d, 2 * d, n / 2) == SimpleBound(x, d, n)
    ensures n % 2 == 0 ==> SimpleBound(x, 2 * d, n / 2) == SimpleBound(x, d, n)
  {
    SimpleBoundHalves(n, x, d);
  }

  lemma SimpleBoundOfOne(x: nat, d: nat)
    ensures SimpleBound(x, d, 1) == x + d + Scaled(x, d)
  {
  }

  /**
   A ladder started above (1 + x) with a factor above (1 + d) ends above 1 + x + n*d, by the
   cross term of its last product.
   */
  lemma {:induction false} LadderBeatsSimple(max: nat, result: nat, x: nat, acc: nat, d: nat, n: nat)
    requires n >= 1 && result >= SCALE + x && acc >= SCALE + d
    ensures var l := Ladder(max, result, acc, n);
            l.Some? ==> l.value >= SCALE + SimpleBound(x, d, n)
    decreases n
  {
    if Ladder(max, result, acc, n).Some? {
      ExcessMultiplies(result, x, acc, d);
      if n == 1 {
        SimpleBoundOfOne(x, d);
      } else {
        ExcessMultiplies(acc, d, acc, d);
        SimpleBoundStep(n, x, d);
        var square := Scaled(acc, acc);
        if n % 2 == 1 {
          LadderBeatsSimple(max, Scaled(result, acc), x + d, square, 2 * d, n / 2);
        } else {
          LadderBeatsSimple(max, result, x, square, 2 * d, n / 2);
        }
      }
    }
  }

  // ---------- two-sided rounding error ----------

  /**
   `v` stands for base^k: never above the exact power, and below it by at most the factor
   (1 - 1/SCALE)^(k-1), that is, by k - 1 single roundings.
   */
  ghost predicate Approximates(base: nat, v: nat, k: nat) {
    && k >= 1
    && v >= SCALE
    && v * Power(SCALE, k - 1) <= Power(base, k)
    && Power(base, k) * Power(SCALE - 1, k - 1) <= v * Power(SCALE, 2 * (k - 1))
  }

  /** One truncation loses less than one unit, which is at most 1/SCALE of a product above SCALE^2. */
  lemma OneRounding(v: nat, w: nat)
    requires v >= SCALE && w >= SCALE
    ensures Scaled(v, w) >= SCALE
    ensures Scaled(v, w) * SCALE <= v * w
    ensures v * w * (SCALE - 1) <= Scaled(v, w) * SCALE * SCALE
  {
    ProductMonotone(SCALE, SCALE, v, w);
    var p := v * w;
    assert p / SCALE * SCALE + SCALE - 1 >= p;
  }

  lemma UpperStep(v: nat, w: nat, m: nat, sj: nat, sk: nat, bj: nat, bk: nat)
    requires m * SCALE <= v * w
    requires v * sj <= bj && w * sk <= bk
    ensures m * (SCALE * (sj * sk)) <= bj * bk
  {
    ProductMonotone(v * sj, w * sk, bj, bk);
    ProductMonotone(m * SCALE, sj * sk, v * w, sj * sk);
    assert (v * sj) * (w * sk) == (v * w) * (sj * sk);
    assert m * (SCALE * (sj * sk)) == (m * SCALE) * (sj * sk);
  }

  lemma LowerStep(v: nat, w: nat, m: nat, tj: nat, tk: nat, bj: nat, bk: nat, cj: nat, ck: nat)
    requires v * w * (SCALE - 1) <= m * SCALE * SCALE
    requires bj * cj <= v * tj && bk * ck <= w * tk
    ensures (bj * bk) * ((SCALE - 1) * (cj * ck)) <= m * (SCALE * SCALE * (tj * tk))
  {
    ProductMonotone(bj * cj, bk * ck, v * tj, w * tk);
    assert (bj * cj) * (bk * ck) == (bj * bk) * (cj * ck);
    assert (v * tj) * (w * tk) == (v * w) * (tj * tk);
    var x, y := (bj * bk) * (cj * ck), (v * w) * (tj * tk);
    assert x * (SCALE - 1) <= y * (SCALE - 1);
    assert (bj * bk) * ((SCALE - 1) * (cj * ck)) == x * (SCALE - 1);
    assert y * (SCALE - 1) == (v * w * (SCALE - 1)) * (tj * tk);
    ProductMonotone(v * w * (SCALE - 1), tj * tk, m * SCALE * SCALE, tj * tk);
    assert (m * SCALE * SCALE) * (tj * tk) == m * (SCALE * SCALE * (tj * tk));
  }

  lemma ApproximationsMultiply(base: nat, v: nat, j: nat, w: nat, k: nat)
    requires Approximates(base, v, j) && Approximates(base, w, k)
    ensures Approximates(base, Scaled(v, w), j + k)
  {
    var m := Scaled(v, w);
    OneRounding(v, w);
    PowerAdds(base, j, k);
    PowerAdds(SCALE, j - 1, k - 1);
    PowerAdds(SCALE - 1, j - 1, k - 1);
    PowerAdds(SCALE, 2 * (j - 1), 2 * (k - 1));
    assert j + k - 1 == (j - 1 + (k - 1)) + 1;
    assert 2 * (j + k - 1) == (2 * (j - 1) + 2 * (k - 1)) + 2;
    UpperStep(v, w, m, Power(SCALE, j - 1), Power(SCALE, k - 1), Power(base, j), Power(base, k));
    LowerStep(v, w, m, Power(SCALE, 2 * (j - 1)), Power(SCALE, 2 * (k - 1)),
              Power(base, j), Power(base, k), Power(SCALE - 1, j - 1), Power(SCALE - 1, k - 1));
    PowerPeel(SCALE, 2 * (j - 1) + 2 * (k - 1));
  }

  lemma PowerPeel(b: nat, e: nat)
    ensures Power(b, e + 2) == b * b * Power(b, e)
  {
    assert Power(b, e + 2) == b * (b * Power(b, e));
  }

  lemma BaseApproximatesItself(base: nat)
    requires base >= SCALE
    ensures Approximates(base, base, 1)
  {
    assert Power(base, 1) == base * Power(base, 0);
  }

  /** The bits already folded into the result: none yet, or an approximation of base^e. */
  ghost predicate Folded(base: nat, result: nat, e: nat) {
    if e == 0 then result == SCALE else Approximates(base, result, e)
  }

  /** Folding one bit of weight `a` into the result. */
  lemma FoldsBit(base: nat, result: nat, e: nat, acc: nat, a: nat, odd: bool)
    requires Folded(base, result, e) && Approximates(base, acc, a)
    ensures Folded(base, if odd then Scaled(result, acc) else result, e + if odd then a else 0)
  {
    if odd {
      if e == 0 {
        ScaledUnit(acc);
      } else {
        ApproximationsMultiply(base, result, e, acc, a);
      }
    }
  }

  lemma ExponentSplits(n: nat, a: nat)
    ensures n * a == (if n % 2 == 1 then a else 0) + n / 2 * (a + a)
  {
    assert n == n / 2 * 2 + n % 2;
    assert n / 2 * 2 * a == n / 2 * (a + a);
  }

  lemma {:induction false} LadderApproximates(max: nat, base: nat, result: nat, e: nat, acc: nat, a: nat, n: nat)
    requires Folded(base, result, e) && Approximates(base, acc, a)
    ensures var l := Ladder(max, result, acc, n);
            l.Some? ==> Folded(base, l.value, e + n * a)
    decreases n
  {
    if n > 0 && Ladder(max, result, acc, n).Some? {
      var odd := n % 2 == 1;
      FoldsBit(base, result, e, acc, a, odd);
      ExponentSplits(n, a);
      if n > 1 {
        ApproximationsMultiply(base, acc, a, acc, a);
        LadderApproximates(max, base, if odd then Scaled(result, acc) else result, e + if odd then a else 0,
                           Scaled(acc, acc), a + a, n / 2);
      }
    }
  }
}
