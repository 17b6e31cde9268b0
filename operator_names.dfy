/**
 * The `binary_op_t` and `unary_op_t` enumerations and their string projections
 * `binary_op_to_string` and `unary_op_to_string`. The enumerators take the C
 * default values 0, 1, 2, ... in declaration order; the projections accept any
 * integer a value of the enum type may hold and answer "unknown" outside the
 * declared values.
 */
module OperatorNames {

  const UNKNOWN: string := "unknown"

  /** The `binary_op_t` enumerators; the one at position `i` has value `i`. */
  const BINARY_OPS: seq<string> := [
    "binary_add", "binary_sub", "binary_mul", "binary_div", "binary_min",
    "binary_max", "binary_pow", "binary_floor_div", "binary_floor_mod",
    "binary_bitwise_and", "binary_bitwise_or", "binary_bitwise_xor",
    "binary_logical_and", "binary_logical_or", "binary_logical_xor"]

  /** The `unary_op_t` enumerators; the one at position `i` has value `i`. */
  const UNARY_OPS: seq<string> := [
    "unary_abs", "unary_ceil", "unary_cos", "unary_exp", "unary_floor",
    "unary_log", "unary_neg", "unary_round", "unary_rsqrt", "unary_sin",
    "unary_sqrt", "unary_square", "unary_tanh", "unary_bitwise_not",
    "unary_logical_not"]

  /** `binary_op_to_string`: a declared value is named by its enumerator. */
  function BinaryOpToString(op: int): (s: string)
    ensures 0 <= op < |BINARY_OPS| ==> s == BINARY_OPS[op]
    ensures !(0 <= op < |BINARY_OPS|) ==> s == UNKNOWN
  {
    match op
    case 0 => "binary_add"
    case 1 => "binary_sub"
    case 2 => "binary_mul"
    case 3 => "binary_div"
    case 4 => "binary_min"
    case 5 => "binary_max"
    case 6 => "binary_pow"
    case 7 => "binary_floor_div"
    case 8 => "binary_floor_mod"
    case 9 => "binary_bitwise_and"
    case 10 => "binary_bitwise_or"
    case 11 => "binary_bitwise_xor"
    case 12 => "binary_logical_and"
    case 13 => "binary_logical_or"
    case 14 => "binary_logical_xor"
    case _ => "unknown"
  }

  /** `unary_op_to_string`: a declared value is named by its enumerator. */
  function UnaryOpToString(op: int): (s: string)
    ensures 0 <= op < |UNARY_OPS| ==> s == UNARY_OPS[op]
    ensures !(0 <= op < |UNARY_OPS|) ==> s == UNKNOWN
  {
    match op
    case 0 => "unary_abs"
    case 1 => "unary_ceil"
    case 2 => "unary_cos"
    case 3 => "unary_exp"
    case 4 => "unary_floor"
    case 5 => "unary_log"
    case 6 => "unary_neg"
    case 7 => "unary_round"
    case 8 => "unary_rsqrt"
    case 9 => "unary_sin"
    case 10 => "unary_sqrt"
    case 11 => "unary_square"
    case 12 => "unary_tanh"
    case 13 => "unary_bitwise_not"
    case 14 => "unary_logical_not"
    case _ => "unknown"
  }

  /** No two entries of `names` are equal. */
  predicate AllDistinct(names: seq<string>)
  {
    forall i, j :: 0 <= i < j < |names| ==> names[i] != names[j]
  }

  /** Every entry of `names` starts with `prefix` and is not the fallback. */
  predicate AllNamed(names: seq<string>, prefix: string)
  {
    forall i :: 0 <= i < |names| ==> prefix <= names[i] && names[i] != UNKNOWN
  }

  /** The 15 binary enumerators are distinct, prefixed "binary_", and none is "unknown". */
  lemma BinaryOpsTableProperties()
    ensures |BINARY_OPS| == 15
    ensures AllDistinct(BINARY_OPS) && AllNamed(BINARY_OPS, "binary_")
  {
  }

  /** The 15 unary enumerators are distinct, prefixed "unary_", and none is "unknown". */
  lemma UnaryOpsTableProperties()
    ensures |UNARY_OPS| == 15
    ensures AllDistinct(UNARY_OPS) && AllNamed(UNARY_OPS, "unary_")
  {
  }

  /**
   * `binary_op_to_string` names exactly the values 0..14, each differently and
   * with the prefix "binary_"; every other value yields "unknown".
   */
  lemma BinaryOpToStringProperties(op: int, other: int)
    ensures (BinaryOpToString(op) != UNKNOWN) <==> 0 <= op < 15
    ensures 0 <= op < 15 ==> "binary_" <= BinaryOpToString(op)
    ensures 0 <= op < 15 && 0 <= other < 15 && op != other ==>
      BinaryOpToString(op) != BinaryOpToString(other)
  {
    BinaryOpsTableProperties();
    if 0 <= op < 15 && 0 <= other < 15 && op != other {
      if op < other {
        assert BINARY_OPS[op] != BINARY_OPS[other];
      } else {
        assert BINARY_OPS[other] != BINARY_OPS[op];
      }
    }
  }

  /**
   * `unary_op_to_string` names exactly the values 0..14, each differently and
   * with the prefix "unary_"; every other value yields "unknown".
   */
  lemma UnaryOpToStringProperties(op: int, other: int)
    ensures (UnaryOpToString(op) != UNKNOWN) <==> 0 <= op < 15
    ensures 0 <= op < 15 ==> "unary_" <= UnaryOpToString(op)
    ensures 0 <= op < 15 && 0 <= other < 15 && op != other ==>
      UnaryOpToString(op) != UnaryOpToString(other)
  {
    UnaryOpsTableProperties();
    if 0 <= op < 15 && 0 <= other < 15 && op != other {
      if op < other {
        assert UNARY_OPS[op] != UNARY_OPS[other];
      } else {
        assert UNARY_OPS[other] != UNARY_OPS[op];
      }
    }
  }
}
