/**
 * The datatype registry: the `datatype_t` enumeration and the two compile-time
 * mappings between its tags and native C++ storage types.
 *
 * Both mappings are generated from one list of `DEFINE_DATATYPE(id, t, name, value)`
 * entries (the file `datatypes.def`, which is not part of this model). Here that
 * list is an opaque parameter: a sequence of entries with distinct tags and types.
 * A mapping that C++ would reject at compile time (no specialisation exists)
 * yields `None`.
 */
module Registry {
  import opened Primitives

  /** The numeric value of a `datatype_t` enumerator `dt_##id`. */
  type Tag = int

  /** A native storage type: a type token named in the list, or `std::byte`. */
  datatype CppType = Native(token: string) | StdByte

  /** One `DEFINE_DATATYPE(id, t, name, value)` entry. */
  datatype Entry = Entry(id: string, cppType: CppType, name: string, value: Tag)

  type DatatypeList = seq<Entry>

  /** No two entries share an enumerator name, a tag value or a native type. */
  predicate Distinct(list: DatatypeList)
  {
    forall i, j :: 0 <= i < j < |list| ==>
      && list[i].id != list[j].id
      && list[i].value != list[j].value
      && list[i].cppType != list[j].cppType
  }

  /** True when the list has an entry whose enumerator is `dt_##id`. */
  predicate HasId(list: DatatypeList, id: string)
  {
    exists i :: 0 <= i < |list| && list[i].id == id
  }

  /**
   * The lists for which the header compiles: every generated enumerator and
   * specialisation is declared once (distinct names, tags and types), no entry
   * collides with the hand-written `std::byte` specialisation, and the
   * enumerators the header itself names (`dt_int8`, `dt_uint8`, `dt_float32`)
   * exist.
   */
  predicate WellFormed(list: DatatypeList)
  {
    && Distinct(list)
    && (forall i :: 0 <= i < |list| ==> list[i].cppType != StdByte)
    && HasId(list, "int8")
    && HasId(list, "uint8")
    && HasId(list, "float32")
  }

  /** What a specialisation is selected by. */
  datatype Key = ById(id: string) | ByValue(value: Tag) | ByType(cppType: CppType)

  predicate Matches(e: Entry, k: Key)
  {
    match k
    case ById(id) => e.id == id
    case ByValue(v) => e.value == v
    case ByType(t) => e.cppType == t
  }

  /** The position of the first entry matching `k`, if any. */
  function IndexOf(list: DatatypeList, k: Key): (r: Option<nat>)
    ensures r.Some? ==> r.value < |list| && Matches(list[r.value], k)
    ensures r.Some? ==> forall j :: 0 <= j < r.value ==> !Matches(list[j], k)
    ensures r.None? ==> forall j :: 0 <= j < |list| ==> !Matches(list[j], k)
  {
    if |list| == 0 then None
    else if Matches(list[0], k) then Some(0)
    else match IndexOf(list[1..], k)
      case None => None
      case Some(i) => Some(i + 1)
  }

  /** In a list with distinct entries, a matching entry is the one every lookup finds. */
  lemma IndexOfUnique(list: DatatypeList, k: Key, i: nat)
    requires Distinct(list)
    requires i < |list| && Matches(list[i], k)
    ensures IndexOf(list, k) == Some(i)
  {
    // a first match before `i` would be a second entry with the same key
    assert IndexOf(list, k).Some?;
  }

  /** The tag `dt_##id`, when the list declares that enumerator. */
  function TagOf(list: DatatypeList, id: string): (r: Option<Tag>)
    ensures r.Some? <==> HasId(list, id)
    ensures r.Some? ==> exists i :: 0 <= i < |list| && list[i].id == id && list[i].value == r.value
  {
    match IndexOf(list, ById(id))
    case None => None
    case Some(i) => Some(list[i].value)
  }

  /** Distinct enumerators carry distinct tags (so `dt_int8 != dt_uint8`). */
  lemma TagOfInjective(list: DatatypeList, id1: string, id2: string)
    requires Distinct(list)
    requires HasId(list, id1) && HasId(list, id2) && id1 != id2
    ensures TagOf(list, id1) != TagOf(list, id2)
  {
    var i :| 0 <= i < |list| && list[i].id == id1;
    var j :| 0 <= j < |list| && list[j].id == id2;
    IndexOfUnique(list, ById(id1), i);
    IndexOfUnique(list, ById(id2), j);
    assert i != j;
  }

  /**
   * `to_cpp_type_t<Type>`: the native type of the entry whose tag is `d`;
   * `None` when `datatype_to_cpp_type<d>` has no specialisation.
   */
  function ToCppType(list: DatatypeList, d: Tag): (r: Option<CppType>)
    ensures r.Some? <==> exists i :: 0 <= i < |list| && list[i].value == d
    ensures r.Some? ==> exists i :: 0 <= i < |list| && list[i].value == d && list[i].cppType == r.value
  {
    match IndexOf(list, ByValue(d))
    case None =>
      None
    case Some(i) =>
      Some(list[i].cppType)
  }

  /**
   * `to_datatype<T>()`: the tag of native type `t`; `None` when
   * `cpp_type_to_datatype<t>` has no specialisation. `haveStdByte` is the
   * build flag `NNCASE_HAVE_STD_BYTE` that enables the hand-written
   * `std::byte -> dt_uint8` specialisation.
   */
  function ToDatatype(list: DatatypeList, haveStdByte: bool, t: CppType): (r: Option<Tag>)
    requires WellFormed(list)
    ensures t != StdByte ==>
      (r.Some? <==> exists i :: 0 <= i < |list| && list[i].cppType == t)
    ensures t != StdByte && r.Some? ==>
      exists i :: 0 <= i < |list| && list[i].cppType == t && list[i].value == r.value
    ensures t == StdByte ==> r == (if haveStdByte then TagOf(list, "uint8") else None)
  {
    if t == StdByte then
      if haveStdByte then TagOf(list, "uint8") else None
    else match IndexOf(list, ByType(t))
      case None => None
      case Some(i) => Some(list[i].value)
  }

  /** For every registered tag `D`: `to_datatype<to_cpp_type_t<D>>() == D`. */
  lemma TagRoundTrip(list: DatatypeList, haveStdByte: bool, d: Tag)
    requires WellFormed(list)
    requires ToCppType(list, d).Some?
    ensures ToDatatype(list, haveStdByte, ToCppType(list, d).value) == Some(d)
  {
    var i :| 0 <= i < |list| && list[i].value == d;
    IndexOfUnique(list, ByValue(d), i);
    IndexOfUnique(list, ByType(list[i].cppType), i);
  }

  /**
   * For every native type named in the list: `to_cpp_type_t<to_datatype<T>()>`
   * is `T` again.
   */
  lemma TypeRoundTrip(list: DatatypeList, haveStdByte: bool, t: CppType)
    requires WellFormed(list)
    requires t != StdByte && ToDatatype(list, haveStdByte, t).Some?
    ensures ToCppType(list, ToDatatype(list, haveStdByte, t).value) == Some(t)
  {
    var i :| 0 <= i < |list| && list[i].cppType == t;
    IndexOfUnique(list, ByType(t), i);
    IndexOfUnique(list, ByValue(list[i].value), i);
  }

  /** Tag to type is injective: distinct registered tags name distinct types. */
  lemma ToCppTypeInjective(list: DatatypeList, d1: Tag, d2: Tag)
    requires WellFormed(list)
    requires ToCppType(list, d1).Some? && ToCppType(list, d1) == ToCppType(list, d2)
    ensures d1 == d2
  {
    TagRoundTrip(list, false, d1);
    TagRoundTrip(list, false, d2);
  }

  /** Type to tag is injective on the types the list names. */
  lemma ToDatatypeInjectiveOnList(list: DatatypeList, haveStdByte: bool, t1: CppType, t2: CppType)
    requires WellFormed(list)
    requires t1 != StdByte && t2 != StdByte
    requires ToDatatype(list, haveStdByte, t1).Some?
    requires ToDatatype(list, haveStdByte, t1) == ToDatatype(list, haveStdByte, t2)
    ensures t1 == t2
  {
    TypeRoundTrip(list, haveStdByte, t1);
    TypeRoundTrip(list, haveStdByte, t2);
  }

  /**
   * The extra `std::byte` entry: with the flag set, `std::byte` and the list's
   * uint8 type share the tag `dt_uint8`, so type to tag is not injective and
   * `to_cpp_type_t<to_datatype<std::byte>()>` is the list's uint8 type, not
   * `std::byte`. Without the flag `std::byte` has no tag.
   */
  lemma StdByteAliasesUInt8(list: DatatypeList, haveStdByte: bool, u: nat)
    requires WellFormed(list)
    requires u < |list| && list[u].id == "uint8"
    ensures haveStdByte ==> ToDatatype(list, haveStdByte, StdByte) == Some(list[u].value)
    ensures haveStdByte ==>
      ToDatatype(list, haveStdByte, StdByte) == ToDatatype(list, haveStdByte, list[u].cppType)
    ensures haveStdByte ==> ToCppType(list, list[u].value) == Some(list[u].cppType)
    ensures list[u].cppType != StdByte
    ensures !haveStdByte ==> ToDatatype(list, haveStdByte, StdByte).None?
  {
    IndexOfUnique(list, ById("uint8"), u);
    IndexOfUnique(list, ByValue(list[u].value), u);
    IndexOfUnique(list, ByType(list[u].cppType), u);
  }
}
