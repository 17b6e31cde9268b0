/**
 * `scalar`: a datatype tag plus four bytes of raw storage, read and written
 * through `as<T>()`. A one-byte value lives in `storage[0]` whatever the
 * byte order, and the converting constructors for `int8_t` and `uint8_t`
 * leave the other three bytes as they were.
 */
module Scalars {
  import opened Primitives
  import Registry

  /** The two's-complement byte of `v`: the byte congruent to `v` modulo 256. */
  function Int8ToByte(v: int8): (b: uint8)
    ensures b as int == v as int % 0x100
  {
    if v < 0 then (v as int + 0x100) as uint8 else v as int as uint8
  }

  /** The `int8_t` whose two's-complement byte is `b`. */
  function ByteToInt8(b: uint8): (v: int8)
    ensures v as int % 0x100 == b as int
  {
    if b < 0x80 then b as int as int8 else (b as int - 0x100) as int8
  }

  /** Storing an `int8_t` into a byte and reading it back are inverse. */
  lemma Int8ByteRoundTrip(v: int8, b: uint8)
    ensures ByteToInt8(Int8ToByte(v)) == v
    ensures Int8ToByte(ByteToInt8(b)) == b
  {
  }

  class Scalar {
    /** `type`: the numeric value of the `datatype_t` tag */
    var dtype: Registry.Tag
    /** `storage`: the four raw bytes */
    const storage: array<uint8>

    ghost predicate Valid()
      reads this
    {
      storage.Length == 4
    }

    /**
     * `scalar() = default`: neither the tag nor the bytes are initialised; they
     * hold whatever was in memory, given here as `garbageType` and `garbage`.
     */
    constructor Uninitialised(garbageType: Registry.Tag, garbage: seq<uint8>)
      requires |garbage| == 4
      ensures Valid() && fresh(storage)
      ensures dtype == garbageType && storage[..] == garbage
    {
      dtype := garbageType;
      storage := new uint8[4]((i: int) => if 0 <= i < |garbage| then garbage[i] else 0);
    }

    /** `as<int8_t>()` read: the first byte as two's complement; the tag must be `dt_int8`. */
    function AsInt8(list: Registry.DatatypeList): (v: int8)
      reads this, storage
      requires Valid() && Registry.TagOf(list, "int8") == Some(dtype)
      ensures Int8ToByte(v) == storage[0]
    {
      ByteToInt8(storage[0])
    }

    /** `as<uint8_t>()` read: the first byte; the tag must be `dt_uint8`. */
    function AsUInt8(list: Registry.DatatypeList): (v: uint8)
      reads this, storage
      requires Valid() && Registry.TagOf(list, "uint8") == Some(dtype)
    {
      storage[0]
    }

    /**
     * The body of `scalar(int8_t value)`: set the tag to `dt_int8`, then store
     * `value` through `as<int8_t>()`, which writes `storage[0]` only.
     */
    method InitInt8(list: Registry.DatatypeList, value: int8)
      requires Valid() && Registry.WellFormed(list)
      modifies this`dtype, storage
      ensures Valid()
      ensures Registry.TagOf(list, "int8") == Some(dtype)
      ensures storage[0] == Int8ToByte(value)
      ensures storage[1..] == old(storage[1..])
      ensures AsInt8(list) == value
    {
      dtype := Registry.TagOf(list, "int8").value;
      storage[0] := Int8ToByte(value);
      Int8ByteRoundTrip(value, storage[0]);
    }

    /**
     * The body of `scalar(uint8_t value)`: set the tag to `dt_uint8`, then store
     * `value` through `as<uint8_t>()`, which writes `storage[0]` only.
     */
    method InitUInt8(list: Registry.DatatypeList, value: uint8)
      requires Valid() && Registry.WellFormed(list)
      modifies this`dtype, storage
      ensures Valid()
      ensures Registry.TagOf(list, "uint8") == Some(dtype)
      ensures storage[0] == value
      ensures storage[1..] == old(storage[1..])
      ensures AsUInt8(list) == value
    {
      dtype := Registry.TagOf(list, "uint8").value;
      storage[0] := value;
    }

    /** `operator==`: the same tag and the same four bytes, whatever the tag means. */
    function Equals(other: Scalar): (r: bool)
      reads this, storage, other, other.storage
      requires Valid() && other.Valid()
      ensures r <==> dtype == other.dtype && forall i :: 0 <= i < 4 ==> storage[i] == other.storage[i]
    {
      dtype == other.dtype && storage[..] == other.storage[..]
    }

    /** `operator!=`: written out on tag and bytes, and exactly the negation of `==`. */
    function NotEquals(other: Scalar): (r: bool)
      reads this, storage, other, other.storage
      requires Valid() && other.Valid()
      ensures r <==> !Equals(other)
    {
      dtype != other.dtype || storage[..] != other.storage[..]
    }
  }

  /**
   * Two `int8` scalars holding the same value are equal exactly when their
   * three unused bytes agree; holding different values, they are never equal.
   */
  lemma Int8ScalarEquality(list: Registry.DatatypeList, a: Scalar, b: Scalar)
    requires a.Valid() && b.Valid()
    requires Registry.TagOf(list, "int8") == Some(a.dtype) == Some(b.dtype)
    ensures a.AsInt8(list) == b.AsInt8(list) ==>
      (a.Equals(b) <==> a.storage[1..] == b.storage[1..])
    ensures a.AsInt8(list) != b.AsInt8(list) ==> !a.Equals(b)
  {
    if a.AsInt8(list) == b.AsInt8(list) {
      assert a.storage[0] == Int8ToByte(a.AsInt8(list)) == b.storage[0];
      if a.storage[1..] == b.storage[1..] {
        assert forall i :: 1 <= i < 4 ==> a.storage[i] == a.storage[1..][i - 1] == b.storage[i];
      }
    }
  }

  /** Scalars whose tags differ never compare equal, even when their bytes coincide. */
  lemma DifferentTagsNeverEqual(a: Scalar, b: Scalar)
    requires a.Valid() && b.Valid()
    requires a.dtype != b.dtype
    ensures !a.Equals(b) && a.NotEquals(b)
  {
  }
}
