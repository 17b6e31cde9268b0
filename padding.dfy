/**
 * `padding`: the `{before, after}` amounts by which one tensor axis is padded.
 * All fields are `int32_t`; signed overflow is undefined in C++, so every
 * operation requires that its results fit in 32 bits.
 */
module Padding {
  import opened Primitives

  datatype Padding = Padding(before: int32, after: int32)

  /** `p.sum()` is defined: `before + after` does not overflow. */
  predicate SumDefined(p: Padding)
  {
    InInt32(p.before as int + p.after as int)
  }

  /** `p.sum()`: the total padding of the axis. */
  function Sum(p: Padding): (s: int32)
    requires SumDefined(p)
  {
    p.before + p.after
  }

  /** `padding::zero()`: the value-initialised padding. */
  function Zero(): (z: Padding)
  {
    Padding(0, 0)
  }

  /** `lhs + rhs` is defined: neither fieldwise sum overflows. */
  predicate AddDefined(lhs: Padding, rhs: Padding)
  {
    && InInt32(lhs.before as int + rhs.before as int)
    && InInt32(lhs.after as int + rhs.after as int)
  }

  /** `operator+`: fieldwise addition. */
  function Add(lhs: Padding, rhs: Padding): (r: Padding)
    requires AddDefined(lhs, rhs)
  {
    Padding(lhs.before + rhs.before, lhs.after + rhs.after)
  }

  /** `operator==`: holds exactly when the two paddings are the same value. */
  function Eq(lhs: Padding, rhs: Padding): (r: bool)
    ensures r <==> lhs == rhs
  {
    lhs.before == rhs.before && lhs.after == rhs.after
  }

  /** `operator!=`: written out fieldwise, and exactly the negation of `==`. */
  function Ne(lhs: Padding, rhs: Padding): (r: bool)
    ensures r <==> !Eq(lhs, rhs)
  {
    lhs.before != rhs.before || lhs.after != rhs.after
  }

  /** `zero()` is `{0, 0}` and sums to 0. */
  lemma ZeroIsNull()
    ensures Zero().before == 0 && Zero().after == 0
    ensures SumDefined(Zero()) && Sum(Zero()) == 0
  {
  }

  /** `zero()` is the identity of `+` on both sides. */
  lemma ZeroIdentity(p: Padding)
    ensures AddDefined(Zero(), p) && Add(Zero(), p) == p
    ensures AddDefined(p, Zero()) && Add(p, Zero()) == p
  {
  }

  /** `+` is commutative (and defined in one order exactly when in the other). */
  lemma AddCommutative(p: Padding, q: Padding)
    ensures AddDefined(p, q) <==> AddDefined(q, p)
    ensures AddDefined(p, q) ==> Add(p, q) == Add(q, p)
  {
  }

  /** `+` is associative wherever both groupings are defined. */
  lemma AddAssociative(p: Padding, q: Padding, r: Padding)
    requires AddDefined(p, q) && AddDefined(Add(p, q), r)
    requires AddDefined(q, r) && AddDefined(p, Add(q, r))
    ensures Add(Add(p, q), r) == Add(p, Add(q, r))
  {
  }

  /** The total of a sum of paddings is the sum of their totals. */
  lemma SumOfAdd(p: Padding, q: Padding)
    requires AddDefined(p, q) && SumDefined(p) && SumDefined(q)
    requires SumDefined(Add(p, q))
    ensures Sum(Add(p, q)) as int == Sum(p) as int + Sum(q) as int
  {
  }
}
