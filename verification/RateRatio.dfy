/** Rate ratio accumulation: each system adds its neighbour rate ratio minus one to the ratio it
    received (port_sync_sync_receive_sm.c), and sends the sum as a multiple of 2 to the power -41
    (mdeth.c, md_sync_receive_sm.c). Double precision arithmetic is taken as exact. */
module RateRatio {

  const TWO_POW_41: real := 2199023255552.0
  const TWO_POW_31: real := 2147483648.0

  /** `x` is at most `b` away from zero. */
  predicate Near(x: real, b: real) { -b <= x <= b }

  /** Conversion of a double to an integer type: towards zero. */
  function Truncated(x: real): (n: int)
    ensures x >= 0.0 ==> n as real <= x < n as real + 1.0
    ensures x <= 0.0 ==> n as real - 1.0 < x <= n as real
  {
    if x >= 0.0 then x.Floor else -((-x).Floor)
  }

  /** cumulativeScaledRateOffset of a ratio. */
  function ScaledOffset(ratio: real): int { Truncated((ratio - 1.0) * TWO_POW_41) }

  function FromScaled(offset: int): real { 1.0 + offset as real / TWO_POW_41 }

  /** The ratio on the far side of a Follow_Up. */
  function Wire(ratio: real): real { FromScaled(ScaledOffset(ratio)) }

  lemma WireError(ratio: real)
    ensures Near(Wire(ratio) - ratio, 1.0 / TWO_POW_41)
  {
    var x := (ratio - 1.0) * TWO_POW_41;
    var n := Truncated(x);
    assert ratio - 1.0 == x / TWO_POW_41;
    assert Wire(ratio) - ratio == (n as real - x) / TWO_POW_41;
  }

  /** The ratio computed by the last of a chain of systems with these neighbour rate ratios, the
      grandmaster sending 1. */
  function Accumulated(n: seq<real>): real {
    if n == [] then 1.0 else Wire(Accumulated(n[..|n| - 1])) + (n[|n| - 1] - 1.0)
  }

  /** The true ratio. */
  function Product(n: seq<real>): real {
    if n == [] then 1.0 else Product(n[..|n| - 1]) * n[|n| - 1]
  }

  /** The sum of the deviations, as if nothing were lost on the wire. */
  function Sum(n: seq<real>): real {
    if n == [] then 1.0 else Sum(n[..|n| - 1]) + (n[|n| - 1] - 1.0)
  }

  function Pow(x: real, n: nat): real { if n == 0 then 1.0 else Pow(x, n - 1) * x }

  /** How far the sum of `n` deviations of at most `eps` can be from the product. */
  function Gap(eps: real, n: nat): real {
    if n == 0 then 0.0 else Gap(eps, n - 1) + eps * (Pow(1.0 + eps, n - 1) - 1.0)
  }

  predicate Within(n: seq<real>, eps: real) {
    forall i :: 0 <= i < |n| ==> Near(n[i] - 1.0, eps)
  }

  lemma MulBounds(x: real, y: real, a: real, b: real)
    requires Near(x, a) && Near(y, b)
    ensures Near(x * y, a * b)
  {
    if x >= 0.0 {
      if y >= 0.0 { MulMono(x, y, a, b); } else { MulMono(x, -y, a, b); }
    } else {
      if y >= 0.0 { MulMono(-x, y, a, b); } else { MulMono(-x, -y, a, b); }
    }
  }

  lemma MulMono(x: real, y: real, a: real, b: real)
    requires 0.0 <= x <= a && 0.0 <= y <= b
    ensures 0.0 <= x * y <= a * b
  {
    assert x * y <= a * y && a * y <= a * b by {
      assert (a - x) * y >= 0.0;
      assert a * (b - y) >= 0.0;
    }
  }

  lemma {:induction false} PowAtLeastOne(eps: real, n: nat)
    requires eps >= 0.0
    ensures Pow(1.0 + eps, n) >= 1.0
  {
    if n > 0 {
      PowAtLeastOne(eps, n - 1);
      MulMono(1.0, 1.0, Pow(1.0 + eps, n - 1), 1.0 + eps);
    }
  }

  lemma FactorNearOne(p: real, x: real, r: real, y: real)
    requires Near(p - 1.0, r - 1.0) && Near(x - 1.0, y - 1.0)
    ensures Near(p * x - 1.0, r * y - 1.0)
  {
    var c, d, q, e := p - 1.0, x - 1.0, r - 1.0, y - 1.0;
    MulBounds(c, d, q, e);
    assert p * x - 1.0 == c + d + c * d;
    assert r * y - 1.0 == q + e + q * e;
  }

  lemma {:induction false} ProductNearOne(n: seq<real>, eps: real)
    requires eps >= 0.0 && Within(n, eps)
    ensures Near(Product(n) - 1.0, Pow(1.0 + eps, |n|) - 1.0)
  {
    if n != [] {
      var m, x, y := n[..|n| - 1], n[|n| - 1], 1.0 + eps;
      var p, r := Product(m), Pow(y, |m|);
      assert Product(n) == p * x && Pow(y, |n|) == r * y;
      ProductNearOne(m, eps);
      assert Near(x - 1.0, y - 1.0);
      FactorNearOne(p, x, r, y);
    }
  }

  lemma {:induction false} GapClosedForm(eps: real, n: nat)
    ensures Gap(eps, n) == Pow(1.0 + eps, n) - 1.0 - n as real * eps
  {
    if n > 0 {
      GapClosedForm(eps, n - 1);
      assert Pow(1.0 + eps, n) == Pow(1.0 + eps, n - 1) + eps * Pow(1.0 + eps, n - 1);
    }
  }

  lemma GapStep(eps: real, n: nat)
    requires eps >= 0.0
    ensures Gap(eps, n + 1) >= Gap(eps, n)
  {
    PowAtLeastOne(eps, n);
    assert eps * (Pow(1.0 + eps, n) - 1.0) >= 0.0;
  }

  lemma GapGrows(p: real, s: real, x: real, gap: real, q: real, eps: real, p': real, s': real, gap': real)
    requires Near(p - s, gap) && Near(p - 1.0, q) && Near(x - 1.0, eps)
    requires p' == p * x && s' == s + (x - 1.0) && gap' == gap + eps * q
    ensures Near(p' - s', gap')
  {
    var c, d := p - 1.0, x - 1.0;
    MulBounds(d, c, eps, q);
    assert p * x - (s + d) == (p - s) + d * c;
  }

  lemma NoHops(eps: real)
    ensures Near(Product([]) - Sum([]), Gap(eps, 0))
  {}

  lemma ProductOfMore(m: seq<real>, x: real)
    ensures Product(m + [x]) == Product(m) * x
  {
    assert (m + [x])[..|m|] == m;
  }

  lemma SumOfMore(m: seq<real>, x: real)
    ensures Sum(m + [x]) == Sum(m) + (x - 1.0)
  {
    assert (m + [x])[..|m|] == m;
  }

  lemma GapOfMore(eps: real, n: nat)
    ensures Gap(eps, n + 1) == Gap(eps, n) + eps * (Pow(1.0 + eps, n) - 1.0)
  {
    hide Pow;
  }

  /** Adding deviations instead of multiplying ratios: within (1 + eps)^n - 1 - n * eps. */
  lemma {:induction false} SumNearProduct(n: seq<real>, eps: real)
    requires eps >= 0.0 && Within(n, eps)
    ensures Near(Product(n) - Sum(n), Gap(eps, |n|))
  {
    hide Product;
    hide Sum;
    hide Gap;
    hide Pow;
    if n == [] {
      NoHops(eps);
    } else {
      var m, x := n[..|n| - 1], n[|n| - 1];
      assert n == m + [x];
      SumNearProduct(m, eps);
      ProductNearOne(m, eps);
      ProductOfMore(m, x);
      SumOfMore(m, x);
      GapOfMore(eps, |m|);
      GapGrows(Product(m), Sum(m), x, Gap(eps, |m|), Pow(1.0 + eps, |m|) - 1.0, eps, Product(n), Sum(n), Gap(eps, |n|));
    }
  }

  /** The bound is reached: equal deviations of `eps` come that far apart. */
  lemma {:induction false} GapIsReached(n: seq<real>, eps: real)
    requires eps >= 0.0 && forall i :: 0 <= i < |n| ==> n[i] == 1.0 + eps
    ensures Product(n) == Pow(1.0 + eps, |n|) && Product(n) - Sum(n) == Gap(eps, |n|)
  {
    if n != [] {
      GapIsReached(n[..|n| - 1], eps);
    }
  }

  /** What the wire loses: less than one unit of the scaled offset a hop. */
  lemma {:induction false} WireLoses(n: seq<real>)
    ensures Near(Accumulated(n) - Sum(n), |n| as real / TWO_POW_41)
  {
    if n != [] {
      var m := n[..|n| - 1];
      WireLoses(m);
      WireError(Accumulated(m));
      assert |n| as real / TWO_POW_41 == |m| as real / TWO_POW_41 + 1.0 / TWO_POW_41;
    }
  }

  /** Largest error of the ratio after `n` hops: what adding costs, and what the wire loses. */
  function RatioError(eps: real, n: nat): real { Gap(eps, n) + n as real / TWO_POW_41 }

  lemma NearBoth(accumulated: real, sum: real, product: real, gap: real, lost: real)
    requires Near(product - sum, gap) && Near(accumulated - sum, lost)
    ensures Near(accumulated - product, gap + lost)
  {}

  /** The ratio each system computes, against the true one, for any number of hops. */
  lemma AccumulatedNearProduct(n: seq<real>, eps: real)
    requires eps >= 0.0 && Within(n, eps)
    ensures Near(Accumulated(n) - Product(n), RatioError(eps, |n|))
  {
    SumNearProduct(n, eps);
    WireLoses(n);
    NearBoth(Accumulated(n), Sum(n), Product(n), Gap(eps, |n|), |n| as real / TWO_POW_41);
  }

  /** The bound in closed form, and that it grows with the distance. */
  lemma RatioErrorBound(eps: real, n: nat)
    requires eps >= 0.0
    ensures RatioError(eps, n) == Pow(1.0 + eps, n) - 1.0 - n as real * eps + n as real / TWO_POW_41
    ensures RatioError(eps, n) <= RatioError(eps, n + 1)
  {
    GapClosedForm(eps, n);
    GapStep(eps, n);
  }

  lemma OneMore(n: nat, eps: real)
    ensures (n + 1) as real * eps == n as real * eps + eps
  {}

  lemma {:induction false} SumBound(n: seq<real>, eps: real)
    requires eps >= 0.0 && Within(n, eps)
    ensures Near(Sum(n) - 1.0, |n| as real * eps)
  {
    if n != [] {
      var m := n[..|n| - 1];
      SumBound(m, eps);
      OneMore(|m|, eps);
      var b, c := |m| as real * eps, |n| as real * eps;
      assert c == b + eps;
      assert Near(n[|n| - 1] - 1.0, eps);
    }
  }

  /** The scaled offset fits its 32 bits while the deviations add up to less than 2^-10. */
  lemma OffsetFits(n: seq<real>, eps: real)
    requires eps >= 0.0 && Within(n, eps)
    requires |n| as real * eps + |n| as real / TWO_POW_41 < TWO_POW_31 / TWO_POW_41
    ensures -0x8000_0000 < ScaledOffset(Accumulated(n)) < 0x8000_0000
  {
    SumBound(n, eps);
    WireLoses(n);
    var d := Accumulated(n) - 1.0;
    assert -TWO_POW_31 / TWO_POW_41 < d < TWO_POW_31 / TWO_POW_41;
    assert -TWO_POW_31 < d * TWO_POW_41 < TWO_POW_31;
  }
}
