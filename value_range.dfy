/**
 * `value_range<T>` for an integer type `T`: a `{min, max}` pair of bounds.
 * `T` is represented by its limits `numeric_limits<T>::lowest()` and
 * `numeric_limits<T>::max()`.
 */
module ValueRange {

  /** A bounded integer type, by its `lowest()` and `max()`. */
  datatype IntegerType = IntegerType(lowest: int, max: int)

  /** Every C++ integer type has `lowest() <= 0 < max()`. */
  predicate IsIntegerType(t: IntegerType)
  {
    t.lowest <= 0 < t.max
  }

  predicate Representable(t: IntegerType, x: int)
  {
    t.lowest <= x <= t.max
  }

  predicate IsSigned(t: IntegerType)
  {
    t.lowest < 0
  }

  const INT8: IntegerType := IntegerType(-0x80, 0x7f)
  const UINT8: IntegerType := IntegerType(0, 0xff)
  const INT32: IntegerType := IntegerType(-0x8000_0000, 0x7fff_ffff)
  const UINT32: IntegerType := IntegerType(0, 0xffff_ffff)

  datatype ValueRange = ValueRange(min: int, max: int)

  /** `x` lies within the closed range `[r.min, r.max]`. */
  predicate Contains(r: ValueRange, x: int)
  {
    r.min <= x <= r.max
  }

  /** `value_range<T>::full()`: the range of exactly the values of `T`. */
  function Full(t: IntegerType): (r: ValueRange)
    requires IsIntegerType(t)
    ensures Representable(t, r.min) && Representable(t, r.max)
    ensures forall x :: Contains(r, x) <==> Representable(t, x)
  {
    ValueRange(t.lowest, t.max)
  }

  /** `value_range<T>::nonnegative()`: the range of exactly the values of `T` that are not negative. */
  function Nonnegative(t: IntegerType): (r: ValueRange)
    requires IsIntegerType(t)
    ensures Representable(t, r.min) && Representable(t, r.max)
    ensures forall x :: Contains(r, x) <==> Representable(t, x) && 0 <= x
  {
    ValueRange(0, t.max)
  }

  /** `operator==`: holds exactly when the two ranges are the same value. */
  function Eq(lhs: ValueRange, rhs: ValueRange): (r: bool)
    ensures r <==> lhs == rhs
  {
    lhs.min == rhs.min && lhs.max == rhs.max
  }

  /** `operator!=`: written out fieldwise, and exactly the negation of `==`. */
  function Ne(lhs: ValueRange, rhs: ValueRange): (r: bool)
    ensures r <==> !Eq(lhs, rhs)
  {
    lhs.min != rhs.min || lhs.max != rhs.max
  }

  /**
   * `nonnegative()` lies inside `full()` with the same upper bound; the two
   * coincide exactly when `T` is unsigned.
   */
  lemma NonnegativeWithinFull(t: IntegerType)
    requires IsIntegerType(t)
    ensures Full(t).min <= Nonnegative(t).min && Nonnegative(t).max == Full(t).max
    ensures forall x :: Contains(Nonnegative(t), x) ==> Contains(Full(t), x)
    ensures Eq(Nonnegative(t), Full(t)) <==> !IsSigned(t)
  {
  }

  /** The standard instances: `full()` and `nonnegative()` of int8, uint8, int32 and uint32. */
  lemma StandardRanges()
    ensures Full(INT8) == ValueRange(-128, 127) && Nonnegative(INT8) == ValueRange(0, 127)
    ensures Full(UINT8) == Nonnegative(UINT8) == ValueRange(0, 255)
    ensures Nonnegative(INT32) == ValueRange(0, 2147483647)
    ensures Ne(Full(INT32), Nonnegative(INT32)) && !Ne(Full(UINT32), Nonnegative(UINT32))
  {
  }
}
