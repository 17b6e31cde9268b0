# nncase runtime value types in Dafny

A model of the value layer that nncase's tensor runtime shares between its
compiler and its kernels, as declared in `include/nncase/runtime/datatypes.h`:

- **Datatype registry** (`registry.dfy`, module `Registry`). The `datatype_t`
  enumeration and the two compile-time mappings `to_cpp_type_t<D>` (tag to
  native type) and `to_datatype<T>()` (native type to tag). Both are generated
  from one `DEFINE_DATATYPE(id, t, name, value)` list. That list is not part of
  this model, so it is a parameter: a `seq<Entry>` that is `WellFormed`. In the
  header's terms that means every generated enumerator and template
  specialisation is declared once, nothing in the list collides with the
  hand-written `std::byte` specialisation, and `dt_int8`, `dt_uint8` and
  `dt_float32` exist. An unregistered lookup, which C++ rejects at compile
  time, yields `None`. The build flag `NNCASE_HAVE_STD_BYTE` is a boolean
  parameter.
- **`padding`** (`padding.dfy`). `int32_t` fields. `sum()` and `+` require that
  no result overflows, since signed overflow is undefined behaviour.
- **`value_range<T>`** (`value_range.dfy`) for an integer `T`, given by its
  limits `lowest()` and `max()`.
- **Operator names** (`operator_names.dfy`). `binary_op_to_string` and
  `unary_op_to_string` as total functions over the enum's integer value. The
  enumerators have the C default values 0..14.
- **`scalar`** (`scalar.dfy`). A class with a tag field and a 4-byte `array`.
  `scalar() = default` leaves both uninitialised; the constructor
  `Uninitialised` takes whatever was in memory as parameters. The bodies of
  `scalar(int8_t)` and `scalar(uint8_t)` are the methods `InitInt8` and
  `InitUInt8`. They set the tag and write `storage[0]` in place, which is where
  `as<T>()` puts a one-byte value whatever the byte order. Bytes 1..3 are not
  written; the model gives them arbitrary values (see "Left out").
- **`quant_param_t`** (`quant.dfy`). Exact `==`, and `almost_equal` as a method
  with the source's early-exit accumulation loop. That loop is proved against
  `AlmostEqualSpec`: equal zero points, a scale in `rhs` for every channel of
  `lhs`, and a total error within `numeric_limits<float>::epsilon()`, 2^-23.
  Its precondition `InBounds` admits every input on which the loop stays
  inside `rhs.scale`, including a shorter `rhs.scale` when the zero points
  differ or the error passes epsilon first.

`primitives.dfy` holds the fixed-width integer newtypes and `Option`.

Generating both mappings from one list would make them a bijection. The
hand-written `std::byte -> dt_uint8` specialisation (`datatypes.h:50-56`)
makes type to tag non-injective when `std::byte` is available
(`Registry.StdByteAliasesUInt8`).

## Model

| member | source | states |
|---|---|---|
| `Registry.IndexOf` | include/nncase/runtime/datatypes.h:58-70 | The lookup finds the first list entry that matches a key (enumerator name, tag or native type), or reports that none matches. |
| `Registry.IndexOfUnique` | include/nncase/runtime/datatypes.h:58-70 | In a list with distinct names, tags and types, any matching entry is the one every lookup finds, because each specialisation is generated once. |
| `Registry.TagOf` | include/nncase/runtime/datatypes.h:31-36 | `dt_##id` exists exactly when the list has an entry named `id`, and its value is that entry's value. |
| `Registry.TagOfInjective` | include/nncase/runtime/datatypes.h:31-36 | Distinct enumerators have distinct tags (for example `dt_int8 != dt_uint8`). |
| `Registry.ToCppType` | include/nncase/runtime/datatypes.h:58-80 | `to_cpp_type_t<D>` exists exactly when some entry has tag `D`, and it is that entry's native type. |
| `Registry.ToDatatype` | include/nncase/runtime/datatypes.h:50-77 | `to_datatype<T>()` exists for a listed type exactly when some entry has type `T`, and it is that entry's tag. `std::byte` maps to `dt_uint8` when the flag is set and has no tag otherwise. |
| `Registry.TagRoundTrip` | include/nncase/runtime/datatypes.h:58-80 | For every registered tag `D`, `to_datatype<to_cpp_type_t<D>>() == D`. |
| `Registry.TypeRoundTrip` | include/nncase/runtime/datatypes.h:58-80 | For every type `T` named in the list, `to_cpp_type_t<to_datatype<T>()>` is `T`. |
| `Registry.ToCppTypeInjective` | include/nncase/runtime/datatypes.h:58-63 | Two registered tags with the same native type are the same tag. |
| `Registry.ToDatatypeInjectiveOnList` | include/nncase/runtime/datatypes.h:64-68 | Two listed types with the same tag are the same type. |
| `Registry.StdByteAliasesUInt8` | include/nncase/runtime/datatypes.h:50-56 | With `std::byte` enabled, `std::byte` and the list's uint8 type share `dt_uint8`, and `to_cpp_type_t<to_datatype<std::byte>()>` is the uint8 type, not `std::byte`. Without the flag, `std::byte` has no tag. |
| `Padding.Sum` | include/nncase/runtime/datatypes.h:87 | `sum()` is `before + after`, defined only when that does not overflow `int32_t`. It has no `ensures` of its own: its laws are `Padding.ZeroIsNull` and `Padding.SumOfAdd`. |
| `Padding.Zero` | include/nncase/runtime/datatypes.h:89 | `zero()` is the value-initialised padding. It has no `ensures` of its own: `Padding.ZeroIsNull` states it is `{0, 0}` and `Padding.ZeroIdentity` that it is the identity of `+`. |
| `Padding.Add` | include/nncase/runtime/datatypes.h:329-332 | `operator+` adds fieldwise, defined only when neither field overflows. It has no `ensures` of its own: its laws are `Padding.ZeroIdentity`, `Padding.AddCommutative`, `Padding.AddAssociative` and `Padding.SumOfAdd`. |
| `Padding.Eq` | include/nncase/runtime/datatypes.h:334-337 | `==` holds exactly when both fields agree, i.e. the paddings are the same value. |
| `Padding.Ne` | include/nncase/runtime/datatypes.h:339-342 | The fieldwise `!=` is exactly the negation of `==`. |
| `Padding.ZeroIsNull` | include/nncase/runtime/datatypes.h:89 | `zero()` is the value-initialised `{0, 0}`, and it sums to 0. |
| `Padding.ZeroIdentity` | include/nncase/runtime/datatypes.h:329-332 | `zero() + p == p` and `p + zero() == p` for every padding, with no overflow possible. |
| `Padding.AddCommutative` | include/nncase/runtime/datatypes.h:329-332 | `+` is defined for `p, q` exactly when it is defined for `q, p`, and then `p + q == q + p`. |
| `Padding.AddAssociative` | include/nncase/runtime/datatypes.h:329-332 | `(p + q) + r == p + (q + r)` wherever both groupings avoid overflow. |
| `Padding.SumOfAdd` | include/nncase/runtime/datatypes.h:87 | `(p + q).sum() == p.sum() + q.sum()` when none of the sums overflows. |
| `ValueRange.Full` | include/nncase/runtime/datatypes.h:98-104 | For integer `T`, `full()` contains exactly the values of `T`, and both its bounds are values of `T`. |
| `ValueRange.Nonnegative` | include/nncase/runtime/datatypes.h:106-109 | `nonnegative()` contains exactly the non-negative values of `T`, and both its bounds are values of `T`. |
| `ValueRange.Eq` | include/nncase/runtime/datatypes.h:344-348 | `==` holds exactly when both bounds agree. |
| `ValueRange.Ne` | include/nncase/runtime/datatypes.h:350-354 | The fieldwise `!=` is exactly the negation of `==`. |
| `ValueRange.NonnegativeWithinFull` | include/nncase/runtime/datatypes.h:98-109 | `nonnegative()` lies inside `full()` with the same upper bound, and the two are equal exactly when `T` is unsigned. |
| `ValueRange.StandardRanges` | include/nncase/runtime/datatypes.h:98-109 | The concrete ranges for int8, uint8, int32 and uint32, including `value_range<int32_t>::nonnegative() == {0, INT32_MAX}`. |
| `OperatorNames.BinaryOpToString` | include/nncase/runtime/datatypes.h:139-175 | Each declared value 0..14 is named by its own enumerator; every other integer yields "unknown". |
| `OperatorNames.UnaryOpToString` | include/nncase/runtime/datatypes.h:196-232 | Each declared value 0..14 is named by its own enumerator; every other integer yields "unknown". |
| `OperatorNames.BinaryOpsTableProperties` | include/nncase/runtime/datatypes.h:120-137 | There are 15 `binary_op_t` enumerators, all distinct, all prefixed "binary_", none "unknown". |
| `OperatorNames.UnaryOpsTableProperties` | include/nncase/runtime/datatypes.h:177-194 | There are 15 `unary_op_t` enumerators, all distinct, all prefixed "unary_", none "unknown". |
| `OperatorNames.BinaryOpToStringProperties` | include/nncase/runtime/datatypes.h:139-175 | The result is "unknown" exactly outside 0..14. Inside, it starts with "binary_" and distinct values get distinct names. |
| `OperatorNames.UnaryOpToStringProperties` | include/nncase/runtime/datatypes.h:196-232 | The result is "unknown" exactly outside 0..14. Inside, it starts with "unary_" and distinct values get distinct names. |
| `Scalars.Int8ToByte` | include/nncase/runtime/datatypes.h:296-300 | Storing an `int8_t` writes the byte congruent to it modulo 256 (two's complement). |
| `Scalars.ByteToInt8` | include/nncase/runtime/datatypes.h:315-318 | Reading a byte as `int8_t` gives the value in [-128, 127] congruent to it modulo 256. |
| `Scalars.Int8ByteRoundTrip` | include/nncase/runtime/datatypes.h:296-318 | Storing then reading an `int8_t` gives it back, and reading then storing a byte gives it back. |
| `Scalars.Scalar.Uninitialised` | include/nncase/runtime/datatypes.h:294 | A default-constructed scalar has fresh 4-byte storage holding whatever tag and bytes were in memory. |
| `Scalars.Scalar.AsInt8` | include/nncase/runtime/datatypes.h:315-318 | `as<int8_t>()` is the value whose two's-complement byte is `storage[0]`. The header gives it a meaning only when the tag is `dt_int8`, which the model requires as a contract. |
| `Scalars.Scalar.AsUInt8` | include/nncase/runtime/datatypes.h:315-318 | `as<uint8_t>()` is `storage[0]`. The header gives it a meaning only when the tag is `dt_uint8`, which the model requires as a contract. It has no `ensures` of its own: `Scalars.Scalar.InitUInt8` states that it reads back the stored value. |
| `Scalars.Scalar.InitInt8` | include/nncase/runtime/datatypes.h:296-300 | `scalar(int8_t v)` sets the tag to `dt_int8` and `storage[0]` to `v`'s byte, leaves bytes 1..3 unchanged, and `as<int8_t>()` is then `v`. |
| `Scalars.Scalar.InitUInt8` | include/nncase/runtime/datatypes.h:302-306 | `scalar(uint8_t v)` sets the tag to `dt_uint8` and `storage[0]` to `v`, leaves bytes 1..3 unchanged, and `as<uint8_t>()` is then `v`. |
| `Scalars.Scalar.Equals` | include/nncase/runtime/datatypes.h:356-359 | `==` holds exactly when the tags are equal and all four bytes are equal. |
| `Scalars.Scalar.NotEquals` | include/nncase/runtime/datatypes.h:361-364 | `!=` is exactly the negation of `==`. |
| `Scalars.Int8ScalarEquality` | include/nncase/runtime/datatypes.h:356-359 | Two `int8` scalars with the same value are equal exactly when their unused bytes 1..3 agree. With different values they are never equal. |
| `Scalars.DifferentTagsNeverEqual` | include/nncase/runtime/datatypes.h:356-364 | Scalars with different tags are never equal, even when their bytes coincide. |
| `Quant.Eq` | include/nncase/runtime/datatypes.h:250-253 | `==` holds exactly when zero points and scales are identical sequences. |
| `Quant.ErrorMonotone` | include/nncase/runtime/datatypes.h:259-265 | The accumulated error never decreases as channels are added, so an early exit means the total exceeds epsilon too. |
| `Quant.AlmostEqual` | include/nncase/runtime/datatypes.h:255-268 | Defined on every input where the loop stays inside `rhs.scale` (`InBounds`). Returns false when the zero points differ, and false when `rhs` has fewer scales than `lhs`. Returns true exactly when the zero points agree, `rhs` has a scale for every channel of `lhs`, and no prefix of the accumulated error exceeds epsilon; this is the same as the total error being within epsilon. |
| `Quant.ZeroPointGate` | include/nncase/runtime/datatypes.h:257-258 | Unequal zero points are never almost equal, whatever the scales and their lengths, and such a call never reads a scale out of bounds. |
| `Quant.EqImpliesAlmostEqual` | include/nncase/runtime/datatypes.h:250-268 | Exact `==` implies `almost_equal`, because the accumulated error stays 0. |
| `Quant.AlmostEqualButNotEqual` | include/nncase/runtime/datatypes.h:250-268 | `almost_equal` is strictly weaker than `==`: `{{0},{1}}` and `{{0},{1 + epsilon}}` differ by exactly epsilon, which `errors > epsilon` accepts, so they are almost equal but not equal. `1 + epsilon` is the `float` right after 1, so the example holds in `float` too. |
| `Quant.ExtraRhsScalesIgnored` | include/nncase/runtime/datatypes.h:260-262 | For every `lhs` and every `rhs` with at least as many scales, the result is the same as with `rhs`'s scales cut down to `lhs`'s length: scales of `rhs` beyond `lhs`'s channels are never read. |
| `Quant.ShortRhsScales` | include/nncase/runtime/datatypes.h:257-264 | A shorter `rhs.scale` is read within bounds, and the answer is false, when the zero points differ (`{{0},{1,2}}` against `{{1},{}}`) or when the error passes epsilon before `rhs.scale` runs out (`{{0},{1,1}}` against `{{0},{0}}`). |
| `Quant.ErrorReadsPrefix` | include/nncase/runtime/datatypes.h:260-262 | The error accumulated over the first `n` channels depends only on the first `n` scales of `rhs`. |

## Left out

- `datatypes.def`, the list of datatypes, is not part of this model. The registry is stated for every well-formed list, and no tag numbers are invented.
- Native type tokens are compared as names. A C++ typedef that makes two different tokens the same type is not modelled.
- `Quant.AlmostEqual`: scales are exact reals, not `float`. Rounding of the running sum, `fabs` on `float`, and NaN or infinite scales are not modelled. The loop structure, the exact zero-point gate and the epsilon constant are kept.
- `ValueRange.Full`: covers integer `T` only. The floating-point and `bfloat16` branch (`±infinity`) is left out because infinities and floating point are outside the model.
- `fixed_mul::rounded_mul` is not modelled: it rounds a `float`.
- `scalar(float)` is not modelled: it stores the IEEE-754 bit pattern of a `float`.
- The header gives `as<T>()` a meaning only when `T` matches the tag. `Scalars.Scalar.AsInt8` and `Scalars.Scalar.AsUInt8` require the match as a contract, so reading a scalar through another type is not modelled.
- After `scalar(int8_t)` or `scalar(uint8_t)`, bytes 1..3 are indeterminate, and comparing them with `==` is undefined in C++. The model gives them arbitrary but fixed values (whatever `Uninitialised` was given), which is what `Scalars.Int8ScalarEquality` relies on.
- `scalar` embeds its storage by value in C++. In Dafny the storage is an array that two objects could share. The model only ever allocates fresh storage in `Uninitialised`, but nothing forbids such aliasing in general.
- `bfloat16` is not modelled: `bfloat16.h` is not part of this model.
- `memory_range`, `memory_location_t`, `reduce_op_t`, `image_resize_mode_t`, `runtime_shape_t` and `runtime_paddings_t` are plain data with no behaviour, so they are not modelled.
- The `quant_param_t` constructors only copy their arguments; the `QuantParam` datatype constructor stands for them.
