/**
 * `quant_param_t`: per-channel zero points and scales, with exact equality and
 * the cumulative-tolerance comparison `almost_equal`. Scales are `float` in the
 * source; here they are exact reals, so rounding of the sum is not modelled.
 */
module Quant {
  import opened Primitives

  datatype QuantParam = QuantParam(zeroPoint: seq<int64>, scale: seq<real>)

  /** `numeric_limits<float>::epsilon()`, 2^-23. */
  const FLOAT_EPSILON: real := 1.0 / 8388608.0

  function Abs(x: real): (r: real)
    ensures r >= 0.0 && (r == x || r == -x)
  {
    if x < 0.0 then -x else x
  }

  /** `operator==`: identical zero points and identical scales, i.e. the same value. */
  function Eq(lhs: QuantParam, rhs: QuantParam): (r: bool)
    ensures r <==> lhs == rhs
  {
    lhs.zeroPoint == rhs.zeroPoint && lhs.scale == rhs.scale
  }

  /**
   * The accumulated error after the first `n` channels: the sum of
   * `|lhs[i] - rhs[i]|` for `i < n`, added in index order.
   */
  function Error(lhs: seq<real>, rhs: seq<real>, n: nat): (e: real)
    requires n <= |lhs| && n <= |rhs|
    ensures e >= 0.0
  {
    if n == 0 then 0.0 else Error(lhs, rhs, n - 1) + Abs(lhs[n - 1] - rhs[n - 1])
  }

  /** The accumulated error never decreases as more channels are added. */
  lemma {:induction false} ErrorMonotone(lhs: seq<real>, rhs: seq<real>, m: nat, n: nat)
    requires m <= n <= |lhs| && n <= |rhs|
    ensures Error(lhs, rhs, m) <= Error(lhs, rhs, n)
  {
    if m < n {
      ErrorMonotone(lhs, rhs, m, n - 1);
    }
  }

  /** Comparing scales with themselves accumulates no error. */
  lemma {:induction false} ErrorOfSelf(s: seq<real>, n: nat)
    requires n <= |s|
    ensures Error(s, s, n) == 0.0
  {
    if n > 0 {
      ErrorOfSelf(s, n - 1);
    }
  }

  /**
   * The inputs on which `almost_equal` never reads past the end of
   * `rhs.scale`: it returns before reading any scale when the zero points
   * differ, and otherwise it reads `rhs.scale[i]` for each channel `i` of
   * `lhs` until the running error exceeds epsilon. So a shorter `rhs.scale`
   * is read out of bounds only when the error over the common channels stays
   * within epsilon.
   */
  predicate InBounds(lhs: QuantParam, rhs: QuantParam)
  {
    || lhs.zeroPoint != rhs.zeroPoint
    || |rhs.scale| >= |lhs.scale|
    || Error(lhs.scale, rhs.scale, |rhs.scale|) > FLOAT_EPSILON
  }

  /**
   * What `almost_equal` decides: equal zero points, a scale for every channel
   * of `lhs`, and the total error over `lhs`'s channels within epsilon.
   */
  function AlmostEqualSpec(lhs: QuantParam, rhs: QuantParam): (r: bool)
    requires InBounds(lhs, rhs)
  {
    && lhs.zeroPoint == rhs.zeroPoint
    && |rhs.scale| >= |lhs.scale|
    && Error(lhs.scale, rhs.scale, |lhs.scale|) <= FLOAT_EPSILON
  }

  /**
   * `almost_equal`: reject unequal zero points, then accumulate the absolute
   * scale differences channel by channel and give up as soon as the running
   * error exceeds epsilon.
   */
  method AlmostEqual(lhs: QuantParam, rhs: QuantParam) returns (r: bool)
    requires InBounds(lhs, rhs)
    ensures lhs.zeroPoint != rhs.zeroPoint ==> !r
    ensures |rhs.scale| < |lhs.scale| ==> !r
    ensures r ==> |rhs.scale| >= |lhs.scale|
    ensures r ==> forall k :: 0 <= k <= |lhs.scale| ==> Error(lhs.scale, rhs.scale, k) <= FLOAT_EPSILON
    ensures r == AlmostEqualSpec(lhs, rhs)
  {
    if lhs.zeroPoint != rhs.zeroPoint {
      return false;
    }
    var errors := 0.0;
    var i := 0;
    while i < |lhs.scale|
      invariant 0 <= i <= |lhs.scale| && i <= |rhs.scale|
      invariant errors == Error(lhs.scale, rhs.scale, i)
      invariant forall k :: 0 <= k <= i ==> Error(lhs.scale, rhs.scale, k) <= FLOAT_EPSILON
    {
      errors := errors + Abs(lhs.scale[i] - rhs.scale[i]);
      if errors > FLOAT_EPSILON {
        if |rhs.scale| >= |lhs.scale| {
          ErrorMonotone(lhs.scale, rhs.scale, i + 1, |lhs.scale|);
        }
        return false;
      }
      i := i + 1;
    }
    return true;
  }

  /** Unequal zero points are never almost equal, whatever the scales and their lengths. */
  lemma ZeroPointGate(lhs: QuantParam, rhs: QuantParam)
    requires lhs.zeroPoint != rhs.zeroPoint
    ensures InBounds(lhs, rhs) && !AlmostEqualSpec(lhs, rhs)
  {
  }

  /**
   * A shorter `rhs.scale` is handled without an out-of-bounds read when the
   * zero points differ or the error passes epsilon first, and the answer is
   * false: `{{0}, {1, 2}}` against `{{1}, {}}`, and `{{0}, {1, 1}}` against
   * `{{0}, {0}}`.
   */
  lemma ShortRhsScales()
    ensures InBounds(QuantParam([0], [1.0, 2.0]), QuantParam([1], []))
    ensures !AlmostEqualSpec(QuantParam([0], [1.0, 2.0]), QuantParam([1], []))
    ensures InBounds(QuantParam([0], [1.0, 1.0]), QuantParam([0], [0.0]))
    ensures !AlmostEqualSpec(QuantParam([0], [1.0, 1.0]), QuantParam([0], [0.0]))
  {
    assert Error([1.0, 1.0], [0.0], 1) == 1.0;
  }

  /** Exact equality implies `almost_equal`: the accumulated error stays 0. */
  lemma EqImpliesAlmostEqual(lhs: QuantParam, rhs: QuantParam)
    requires Eq(lhs, rhs)
    ensures InBounds(lhs, rhs) && AlmostEqualSpec(lhs, rhs)
  {
    ErrorOfSelf(lhs.scale, |lhs.scale|);
  }

  /**
   * `almost_equal` is weaker than `==`: `{{0}, {1}}` and `{{0}, {1 + epsilon}}`
   * (the `float` right after 1) differ by exactly epsilon, which the strict
   * comparison `errors > epsilon` still accepts.
   */
  lemma AlmostEqualButNotEqual()
    ensures AlmostEqualSpec(QuantParam([0], [1.0]), QuantParam([0], [1.0 + FLOAT_EPSILON]))
    ensures !Eq(QuantParam([0], [1.0]), QuantParam([0], [1.0 + FLOAT_EPSILON]))
  {
    assert Error([1.0], [1.0 + FLOAT_EPSILON], 1) == FLOAT_EPSILON;
  }

  /** The accumulated error over the first `n` channels reads only those channels of `rhs`. */
  lemma {:induction false} ErrorReadsPrefix(lhs: seq<real>, a: seq<real>, b: seq<real>, n: nat)
    requires n <= |lhs| && n <= |a| && n <= |b|
    requires a[..n] == b[..n]
    ensures Error(lhs, a, n) == Error(lhs, b, n)
  {
    if n > 0 {
      assert a[n - 1] == a[..n][n - 1] == b[..n][n - 1] == b[n - 1];
      assert a[..n - 1] == a[..n][..n - 1] == b[..n][..n - 1] == b[..n - 1];
      ErrorReadsPrefix(lhs, a, b, n - 1);
    }
  }

  /**
   * Only `lhs`'s channels are compared: the scales `rhs` has beyond
   * `|lhs.scale|` never affect the result, so `rhs` may be cut down to
   * `lhs`'s length.
   */
  lemma ExtraRhsScalesIgnored(lhs: QuantParam, rhs: QuantParam)
    requires |rhs.scale| >= |lhs.scale|
    ensures AlmostEqualSpec(lhs, rhs)
      == AlmostEqualSpec(lhs, QuantParam(rhs.zeroPoint, rhs.scale[..|lhs.scale|]))
  {
    var cut := rhs.scale[..|lhs.scale|];
    assert cut[..|lhs.scale|] == rhs.scale[..|lhs.scale|];
    ErrorReadsPrefix(lhs.scale, rhs.scale, cut, |lhs.scale|);
  }
}
