/** The peer delay requester (md_pdelay_req_sm.c): its measurements, and the machine as a class.
    Double precision arithmetic is taken as exact; CONF_NEIGHBOR_PROP_DELAY is 0. */
module PeerDelay {
  import opened Words
  import opened RateRatio

  const TOO_BIG := 10_000_000
  const CEASE_TIME := 300_000_000_000

  /** A 64-bit difference read as a signed number. */
  function Signed(d: uint64): int { if d < 0x8000_0000_0000_0000 then d else d - 0x1_0000_0000_0000_0000 }

  // ------------------------------------------------------------------ the measurements

  /** Within half an interval of the interval. */
  predicate InWindow(interval: nat, dt: uint64) { interval / 2 < dt < interval + interval / 2 }

  /** The ratio of one exchange, or 1 when the exchanges are not an interval apart on both sides. */
  function MeasuredRatio(interval: nat, dt1: uint64, dt2: uint64): real {
    if InWindow(interval, dt1) && InWindow(interval, dt2) then dt2 as real / dt1 as real else 1.0
  }

  /** computePdelayRateRatio: the average of the old ratio and the measured one. */
  function Averaged(old_: real, measured: real): real { (old_ + measured) / 2.0 }

  function HalfTurnaround(ratio: real, t1: uint64, t2: uint64, t3: uint64, t4: uint64): real {
    (ratio * Signed(Minus(t4, t1)) as real - Signed(Minus(t3, t2)) as real) / 2.0
  }

  /** computePropTime: 0 when the result is out of range. */
  function PropTime(ratio: real, t1: uint64, t2: uint64, t3: uint64, t4: uint64): nat {
    var rts := Truncated(HalfTurnaround(ratio, t1, t2, t3, t4));
    if rts < 0 || rts > TOO_BIG then 0 else rts
  }

  /** Two exchanges over a steady link measure the neighbour's rate. */
  lemma SteadyLinkIsMeasured(interval: nat, t1: uint64, t2: uint64, t3: uint64, t4: uint64,
                             u1: uint64, u2: uint64, u3: uint64, u4: uint64, offset: real, rate: real, d: real)
    requires Symmetric(t1, t2, t3, t4, offset, rate, d) && Symmetric(u1, u2, u3, u4, offset, rate, d)
    requires t1 <= u1 && t2 <= u2
    requires interval / 2 < Minus(u1, t1) < interval + interval / 2 && interval / 2 < Minus(u2, t2) < interval + interval / 2
    ensures MeasuredRatio(interval, Minus(u1, t1), Minus(u2, t2)) == rate
  {
    hide Symmetric;
    hide MeasuredRatio;
    assert InWindow(interval, Minus(u1, t1)) && InWindow(interval, Minus(u2, t2));
    hide InWindow;
    SteadyElapses(t1, t2, t3, t4, u1, u2, u3, u4, offset, rate, d);
    assert Minus(u1, t1) == u1 - t1 && Minus(u2, t2) == u2 - t2;
    hide Minus;
    RatioMeasured(interval, Minus(u1, t1), Minus(u2, t2), rate);
  }

  lemma SteadyElapses(t1: uint64, t2: uint64, t3: uint64, t4: uint64,
                      u1: uint64, u2: uint64, u3: uint64, u4: uint64, offset: real, rate: real, d: real)
    requires Symmetric(t1, t2, t3, t4, offset, rate, d) && Symmetric(u1, u2, u3, u4, offset, rate, d)
    ensures (u2 - t2) as real == rate * (u1 - t1) as real
  {
    Elapses(t1 as real, u1 as real, t2 as real, u2 as real, offset, rate, d);
  }

  lemma RatioMeasured(interval: nat, dt1: uint64, dt2: uint64, rate: real)
    requires InWindow(interval, dt1) && InWindow(interval, dt2) && dt2 as real == rate * dt1 as real
    ensures MeasuredRatio(interval, dt1, dt2) == rate
  {
    Divided(dt2 as real, rate, dt1 as real);
  }

  lemma Elapses(t1: real, u1: real, t2: real, u2: real, offset: real, rate: real, d: real)
    requires t2 == offset + rate * t1 + d && u2 == offset + rate * u1 + d
    ensures u2 - t2 == rate * (u1 - t1)
  {}

  lemma Divided(x: real, r: real, y: real)
    requires x == r * y && y > 0.0
    ensures x / y == r
  {}

  // ------------------------------------------------------------------ convergence

  /** The ratio after averaging in the first `n` measurements. */
  function RatioAfter(start: real, measured: seq<real>, n: nat): real
    requires n <= |measured|
  {
    if n == 0 then start else Averaged(RatioAfter(start, measured, n - 1), measured[n - 1])
  }

  function Half(n: nat): (r: real)
    ensures 0.0 < r <= 1.0
  {
    if n == 0 then 1.0 else Half(n - 1) / 2.0
  }

  /** Each exact measurement halves the error. */
  lemma {:induction false} ErrorHalves(start: real, measured: seq<real>, n: nat, r: real)
    requires n <= |measured| && forall i :: 0 <= i < n ==> measured[i] == r
    ensures RatioAfter(start, measured, n) - r == (start - r) * Half(n)
  {
    if n > 0 {
      ErrorHalves(start, measured, n - 1, r);
      var h := Half(n - 1);
      assert (start - r) * (h / 2.0) == (start - r) * h / 2.0;
    }
  }

  /** What is left of the error of `start` is `h` of it, and `delta` at most besides. */
  predicate Remains(x: real, start: real, r: real, h: real, delta: real) { Near(x - r - (start - r) * h, delta) }

  lemma HalfError(x: real, start: real, r: real, h: real, m: real, delta: real)
    requires Remains(x, start, r, h, delta) && Near(m - r, delta)
    ensures Remains(Averaged(x, m), start, r, h / 2.0, delta)
  {
    var p := (start - r) * h;
    assert (start - r) * (h / 2.0) == p / 2.0;
  }

  lemma WholeError(start: real, r: real, delta: real)
    requires delta >= 0.0
    ensures Remains(start, start, r, 1.0, delta)
  {}

  /** With measurements off by at most `delta`, what remains is at most `delta`. */
  lemma {:induction false} ErrorShrinks(start: real, measured: seq<real>, n: nat, r: real, delta: real)
    requires n <= |measured| && forall i :: 0 <= i < n ==> Near(measured[i] - r, delta)
    requires delta >= 0.0
    ensures Remains(RatioAfter(start, measured, n), start, r, Half(n), delta)
  {
    hide Remains;
    hide Averaged;
    if n == 0 {
      WholeError(start, r, delta);
    } else {
      ErrorShrinks(start, measured, n - 1, r, delta);
      HalfError(RatioAfter(start, measured, n - 1), start, r, Half(n - 1), measured[n - 1], delta);
    }
  }

  /** An exchange over a link with delay `d` both ways, in the neighbour's time: the neighbour reads
      `offset + rate * x` when this clock reads `x`. */
  predicate Symmetric(t1: uint64, t2: uint64, t3: uint64, t4: uint64, offset: real, rate: real, d: real) {
    && t1 <= t4 && t2 <= t3 && t4 - t1 < 0x8000_0000_0000_0000 && t3 - t2 < 0x8000_0000_0000_0000
    && t2 as real == offset + rate * t1 as real + d
    && offset + rate * t4 as real == t3 as real + d
  }

  /** Differences of 64-bit times are taken as signed, also across their wrap-around. */
  lemma DifferenceIsSigned(a: int, b: int)
    requires -0x8000_0000_0000_0000 <= a - b < 0x8000_0000_0000_0000
    ensures Signed(Minus(a % 0x1_0000_0000_0000_0000, b % 0x1_0000_0000_0000_0000)) == a - b
  {
    var w := 0x1_0000_0000_0000_0000;
    assert a % w - b % w == a - b - (a / w - b / w) * w;
    assert (a % w - b % w) % w == (a - b) % w by {
      if a / w - b / w == 0 {
      } else {
        assert -w < a % w - b % w < w;
      }
    }
  }

  /** Whatever the offset of the neighbour's clock, the delay computed is off by the error of the
      ratio over half the turnaround. */
  lemma DelayError(ratio: real, t1: uint64, t2: uint64, t3: uint64, t4: uint64, offset: real, rate: real, d: real)
    requires Symmetric(t1, t2, t3, t4, offset, rate, d)
    ensures HalfTurnaround(ratio, t1, t2, t3, t4) == d + (ratio - rate) * (t4 - t1) as real / 2.0
  {
    var turnaround := (t4 - t1) as real;
    assert Signed(Minus(t4, t1)) == t4 - t1;
    assert Signed(Minus(t3, t2)) == t3 - t2;
    assert rate * t4 as real - rate * t1 as real == rate * turnaround;
    assert (ratio - rate) * turnaround == ratio * turnaround - rate * turnaround;
  }

  predicate InRange(x: real) { -1.0 < x < 10_000_001.0 }

  /** The computed delay is the true one up to that error and rounding, unless it is out of range:
      exactly then it is 0 instead. */
  lemma DelayComputed(ratio: real, t1: uint64, t2: uint64, t3: uint64, t4: uint64,
                      offset: real, rate: real, d: real, err: real)
    requires Symmetric(t1, t2, t3, t4, offset, rate, d) && Near(ratio - rate, err)
    ensures if InRange(d + (ratio - rate) * (t4 - t1) as real / 2.0)
            then Near(PropTime(ratio, t1, t2, t3, t4) as real - d, err * (t4 - t1) as real / 2.0 + 1.0)
            else PropTime(ratio, t1, t2, t3, t4) == 0
  {
    DelayError(ratio, t1, t2, t3, t4, offset, rate, d);
    MulBounds(ratio - rate, (t4 - t1) as real, err, (t4 - t1) as real);
    hide HalfTurnaround;
  }

  /** The error of the ratio after `n` measurements of a constant rate. */
  lemma RatioConverges(start: real, measured: seq<real>, n: nat, rate: real, err: real)
    requires n <= |measured| && forall i :: 0 <= i < n ==> measured[i] == rate
    requires Near(start - rate, err)
    ensures Near(RatioAfter(start, measured, n) - rate, err * Half(n))
  {
    ErrorHalves(start, measured, n, rate);
    ScaledError(RatioAfter(start, measured, n), start, rate, Half(n), err);
  }

  lemma ScaledError(ratio: real, start: real, rate: real, h: real, err: real)
    requires ratio - rate == (start - rate) * h && h > 0.0 && Near(start - rate, err)
    ensures Near(ratio - rate, err * h)
  {
    MulBounds(start - rate, h, err, h);
  }

  /** Convergence: after `n` measurements of a constant rate, the delay computed with the ratio then
      is off by at most half the turnaround times the error at the start over 2^n, and rounding. */
  lemma DelayConverges(start: real, measured: seq<real>, n: nat, ratio: real,
                       t1: uint64, t2: uint64, t3: uint64, t4: uint64, offset: real, rate: real, d: real, err: real)
    returns (bound: real)
    requires n <= |measured| && forall i :: 0 <= i < n ==> measured[i] == rate
    requires ratio == RatioAfter(start, measured, n) && Near(start - rate, err)
    requires Symmetric(t1, t2, t3, t4, offset, rate, d)
    requires InRange(d + (ratio - rate) * (t4 - t1) as real / 2.0)
    ensures bound == err * Half(n)
    ensures Near(PropTime(ratio, t1, t2, t3, t4) as real - d, bound * (t4 - t1) as real / 2.0 + 1.0)
  {
    hide PropTime;
    hide Symmetric;
    RatioConverges(start, measured, n, rate, err);
    bound := err * Half(n);
    DelayComputed(ratio, t1, t2, t3, t4, offset, rate, d, bound);
  }
}
