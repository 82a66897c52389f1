/**
 * The single-pole low-pass filter (Brain_Code/LowPass.py). The first call
 * seeds the output with its input; every later call blends the input into
 * the previous output with `alpha = dt / (rc + dt)`, `rc = 1 / (2 pi fc)`,
 * where `dt` is the wall-clock time since the previous call (0.02 s on the
 * first call). The wall-clock reading is a parameter.
 */
module LowPass {
  import opened Numeric
  import opened Options

  /** The value the source uses for pi. */
  const PiApprox: real := 3.1416
  /** The step assumed on the first call (50 Hz). */
  const DefaultDt: real := 0.02

  /** The filter's time constant for a cutoff frequency in Hz. */
  function Rc(cutoff: real): (rc: real)
    requires cutoff != 0.0
    ensures cutoff > 0.0 ==> rc > 0.0
  {
    1.0 / (2.0 * PiApprox * cutoff)
  }

  /**
   * `compute_alpha`: the smoothing factor lies in the open interval (0, 1)
   * for a positive cutoff and step, is 0 for a zero step, and its
   * complement is `rc / (rc + dt)`, which vanishes as `dt` grows.
   */
  function ComputeAlpha(cutoff: real, dt: real): (alpha: real)
    requires cutoff != 0.0 && Rc(cutoff) + dt != 0.0
    ensures cutoff > 0.0 && dt > 0.0 ==> 0.0 < alpha < 1.0
    ensures cutoff > 0.0 && dt >= 0.0 ==> 0.0 <= alpha < 1.0
    ensures dt == 0.0 ==> alpha == 0.0
    ensures 1.0 - alpha == Rc(cutoff) / (Rc(cutoff) + dt)
  {
    var rc := Rc(cutoff);
    assert cutoff > 0.0 && dt >= 0.0 ==> rc + dt > dt;
    dt / (rc + dt)
  }

  /**
   * One filter update: a convex blend of the input and the previous output.
   * Its distance to the input is the previous distance scaled by
   * `1 - alpha`, so an input equal to the previous output is a fixed point.
   */
  function Blend(alpha: real, input: real, prev: real): (y: real)
    ensures y - input == (1.0 - alpha) * (prev - input)
    ensures input == prev ==> y == prev
  {
    alpha * input + (1.0 - alpha) * prev
  }

  /**
   * For `alpha` in [0, 1] the blend lies between the input and the previous
   * output and is no farther from the input than the previous output was.
   */
  lemma BlendBounds(alpha: real, input: real, prev: real)
    requires 0.0 <= alpha <= 1.0
    ensures Min(prev, input) <= Blend(alpha, input, prev) <= Max(prev, input)
    ensures Abs(Blend(alpha, input, prev) - input) <= Abs(prev - input)
  {
    var k := 1.0 - alpha;
    var d := prev - input;
    assert Blend(alpha, input, prev) - input == k * d;
    ScaledBetween(k, d);
  }

  /**
   * A wall clock that steps backwards is outside `Filter`'s domain: a
   * backward step of half the time constant gives `alpha = -1`, and the
   * blend then overshoots past the previous output, away from the input.
   */
  lemma BackwardStepOvershoots()
    ensures ComputeAlpha(1.0, -Rc(1.0) / 2.0) == -1.0
    ensures Blend(-1.0, 1.0, 0.0) == -1.0 < Min(0.0, 1.0)
  {
    var rc := Rc(1.0);
    assert rc > 0.0;
    assert -rc / 2.0 / (rc + -rc / 2.0) == -1.0;
  }

  class LowPassFilter {
    const cutoffHz: real
    var lastOutput: Option<real>
    var lastTime: Option<real>

    constructor (cutoffHz: real)
      requires cutoffHz > 0.0
      ensures this.cutoffHz == cutoffHz && lastOutput == None && lastTime == None
    {
      this.cutoffHz := cutoffHz;
      lastOutput := None;
      lastTime := None;
    }

    /**
     * `filter(input)` at wall-clock reading `t`: the first call returns its
     * input; a later call returns the blend with the alpha of the elapsed
     * time. Every call records the output and the time.
     */
    method Filter(input: real, t: real) returns (y: real)
      requires cutoffHz > 0.0
      requires lastTime.Some? ==> t >= lastTime.value
      modifies this`lastOutput, this`lastTime
      ensures lastOutput == Some(y) && lastTime == Some(t)
      ensures old(lastOutput).None? ==> y == input
      ensures old(lastOutput).Some? ==>
        var dt := if old(lastTime).None? then DefaultDt else t - old(lastTime).value;
        y == Blend(ComputeAlpha(cutoffHz, dt), input, old(lastOutput).value)
      ensures old(lastOutput).Some? ==>
        Min(old(lastOutput).value, input) <= y <= Max(old(lastOutput).value, input)
      ensures old(lastOutput).Some? ==> Abs(y - input) <= Abs(old(lastOutput).value - input)
    {
      var dt: real;
      if lastTime.None? {
        dt := DefaultDt;
      } else {
        dt := t - lastTime.value;
      }
      lastTime := Some(t);
      var alpha := ComputeAlpha(cutoffHz, dt);
      if lastOutput.None? {
        lastOutput := Some(input);
      } else {
        BlendBounds(alpha, input, lastOutput.value);
        lastOutput := Some(Blend(alpha, input, lastOutput.value));
      }
      y := lastOutput.value;
    }
  }

  /** `q` to the power `n`. */
  function Pow(q: real, n: nat): real
  {
    if n == 0 then 1.0 else q * Pow(q, n - 1)
  }

  lemma {:induction false} PowNonneg(q: real, n: nat)
    requires q >= 0.0
    ensures Pow(q, n) >= 0.0
  {
    if n > 0 {
      PowNonneg(q, n - 1);
      MulLeftMono(q, 0.0, Pow(q, n - 1));
    }
  }

  /** The output after `n` more calls with a constant input `c` and a constant step (so constant `alpha`). */
  function Repeat(n: nat, alpha: real, c: real, y0: real): real
  {
    if n == 0 then y0 else Blend(alpha, c, Repeat(n - 1, alpha, c, y0))
  }

  /** Under a constant input the distance to it shrinks geometrically by `1 - alpha` per call. */
  lemma RepeatGeometric(n: nat, alpha: real, c: real, y0: real)
    ensures Repeat(n, alpha, c, y0) - c == Pow(1.0 - alpha, n) * (y0 - c)
  {
    RepeatIsGeometric(n, alpha, c, y0);
    GeometricIsPow(1.0 - alpha, n, y0 - c);
  }

  /** `e` scaled `n` times by `q`. */
  function Geometric(q: real, n: nat, e: real): real
  {
    if n == 0 then e else q * Geometric(q, n - 1, e)
  }

  lemma {:induction false} RepeatIsGeometric(n: nat, alpha: real, c: real, y0: real)
    ensures Repeat(n, alpha, c, y0) - c == Geometric(1.0 - alpha, n, y0 - c)
  {
    if n > 0 {
      RepeatIsGeometric(n - 1, alpha, c, y0);
    }
  }

  lemma {:induction false} GeometricIsPow(q: real, n: nat, e: real)
    ensures Geometric(q, n, e) == Pow(q, n) * e
  {
    if n > 0 {
      GeometricIsPow(q, n - 1, e);
      MulAssoc(q, Pow(q, n - 1), e);
    }
  }

  /** Bernoulli's bound: `(1 - alpha)^n * (1 + n alpha) <= 1` for `alpha` in [0, 1]. */
  lemma {:induction false} PowBound(alpha: real, n: nat)
    requires 0.0 <= alpha <= 1.0
    ensures Pow(1.0 - alpha, n) * (1.0 + n as real * alpha) <= 1.0
  {
    if n > 0 {
      PowBound(alpha, n - 1);
      var q := 1.0 - alpha;
      var p := Pow(q, n - 1);
      var m := (n - 1) as real;
      PowNonneg(q, n - 1);
      assert q * (1.0 + m * alpha + alpha) == 1.0 + m * alpha - m * alpha * alpha - alpha * alpha;
      assert q * (1.0 + m * alpha + alpha) <= 1.0 + m * alpha by {
        assert m * alpha * alpha >= 0.0;
      }
      calc {
        Pow(q, n) * (1.0 + n as real * alpha);
        p * (q * (1.0 + m * alpha + alpha));
      <= { MulLeftMono(p, q * (1.0 + m * alpha + alpha), 1.0 + m * alpha); }
        p * (1.0 + m * alpha);
      <= 1.0;
      }
    }
  }

  /** Scaling by a factor in [0, 1] moves a number toward zero without crossing it. */
  lemma ScaledBetween(k: real, d: real)
    requires 0.0 <= k <= 1.0
    ensures d >= 0.0 ==> 0.0 <= k * d <= d
    ensures d < 0.0 ==> d <= k * d <= 0.0
  {
    if d >= 0.0 {
      MulRightMono(0.0, k, d);
      MulRightMono(k, 1.0, d);
    } else {
      MulLeftMono(k, d, 0.0);
      assert (1.0 - k) * d <= 0.0 by { MulLeftMono(1.0 - k, d, 0.0); }
    }
  }

  lemma MulLeftMono(p: real, a: real, b: real)
    requires p >= 0.0 && a <= b
    ensures p * a <= p * b
  {
  }

  lemma MulLeftStrict(p: real, a: real, b: real)
    requires p > 0.0 && a < b
    ensures p * a < p * b
  {
  }

  lemma MulRightStrict(a: real, b: real, p: real)
    requires p > 0.0 && a < b
    ensures a * p < b * p
  {
  }

  lemma MulRightMono(a: real, b: real, p: real)
    requires p >= 0.0 && a <= b
    ensures a * p <= b * p
  {
  }

  lemma ScaledAbs(p: real, e: real)
    requires p >= 0.0
    ensures Abs(p * e) == p * Abs(e)
  {
    if e >= 0.0 {
      MulLeftMono(p, 0.0, e);
    } else {
      MulLeftMono(p, e, 0.0);
    }
  }

  lemma SmallProduct(p: real, d: real, eps: real, k: real)
    requires p >= 0.0 && d >= 0.0 && eps > 0.0 && d < eps * k && p * k <= 1.0
    ensures p * d < eps
  {
    if p > 0.0 {
      MulLeftStrict(p, d, eps * k);
      assert p * (eps * k) == eps * (p * k);
      MulLeftMono(eps, p * k, 1.0);
    }
  }

  lemma MulAssoc(a: real, b: real, c: real)
    ensures a * (b * c) == (a * b) * c
  {
  }

  lemma BelowScaled(d: real, eps: real, ratio: real, t: real)
    requires eps > 0.0 && ratio == d / eps && ratio < t
    ensures d < eps * (1.0 + t)
  {
    DivMul(d, eps);
    MulLeftStrict(eps, ratio, t);
  }

  lemma Shrunk(x: real, p: real, e: real, eps: real)
    requires x == p * e && p >= 0.0 && p * Abs(e) < eps
    ensures Abs(x) < eps
  {
    ScaledAbs(p, e);
  }

  lemma DivMul(a: real, b: real)
    requires b != 0.0
    ensures (a / b) * b == a
  {
  }

  /** `q^m * d` with `q = 1 - alpha` drops below any `eps > 0` from some `n` on. */
  lemma PowSmall(alpha: real, q: real, d: real, eps: real) returns (n: nat)
    requires 0.0 < alpha <= 1.0 && q == 1.0 - alpha && eps > 0.0 && d >= 0.0
    ensures forall m: nat :: n <= m ==> Pow(q, m) * d < eps
  {
    var bound := d / eps / alpha;
    n := bound.Floor + 1;
    forall m: nat | n <= m
      ensures Pow(q, m) * d < eps
    {
      PowSmallAt(alpha, q, d, eps, m);
    }
  }

  lemma PowSmallAt(alpha: real, q: real, d: real, eps: real, m: nat)
    requires 0.0 < alpha <= 1.0 && q == 1.0 - alpha && eps > 0.0 && d >= 0.0
    requires d / eps / alpha < m as real
    ensures Pow(q, m) * d < eps
  {
    var ratio := d / eps;
    var bound := ratio / alpha;
    var mr := m as real;
    DivMul(ratio, alpha);
    MulRightStrict(bound, mr, alpha);
    BelowScaled(d, eps, ratio, mr * alpha);
    PowBound(alpha, m);
    PowNonneg(q, m);
    var p := Pow(q, m);
    SmallProduct(p, d, eps, 1.0 + mr * alpha);
  }

  /**
   * Steady-state gain 1: under a constant input and a constant positive
   * step the output comes within any `eps > 0` of the input after finitely
   * many calls and stays there, whatever the cutoff and the start value.
   */
  lemma Converges(alpha: real, c: real, y0: real, eps: real) returns (n: nat)
    requires 0.0 < alpha <= 1.0 && eps > 0.0
    ensures forall m: nat :: n <= m ==> Abs(Repeat(m, alpha, c, y0) - c) < eps
  {
    var q := 1.0 - alpha;
    n := PowSmall(alpha, q, Abs(y0 - c), eps);
    forall m: nat | n <= m
      ensures Abs(Repeat(m, alpha, c, y0) - c) < eps
    {
      CloseAfter(alpha, q, c, y0, eps, m);
    }
  }

  lemma CloseAfter(alpha: real, q: real, c: real, y0: real, eps: real, m: nat)
    requires 0.0 < alpha <= 1.0 && q == 1.0 - alpha
    requires Pow(q, m) * Abs(y0 - c) < eps
    ensures Abs(Repeat(m, alpha, c, y0) - c) < eps
  {
    Distance(alpha, q, c, y0, m);
  }

  /** The distance to the input after `m` calls, as a multiple of the starting distance. */
  lemma Distance(alpha: real, q: real, c: real, y0: real, m: nat)
    requires q == 1.0 - alpha
    requires 0.0 <= q
    ensures Abs(Repeat(m, alpha, c, y0) - c) == Pow(q, m) * Abs(y0 - c)
  {
    var p, e := Pow(q, m), y0 - c;
    RepeatGeometric(m, alpha, c, y0);
    assert Repeat(m, alpha, c, y0) - c == p * e;
    PowNonneg(q, m);
    ScaledAbs(p, e);
  }
}
