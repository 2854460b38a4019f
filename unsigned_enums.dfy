/** The unsigned-integer active enums of the
    `active_enum_derive_unsigned_integers` test. Each backing type `u8`..`u64`
    is used by two derived enums: one gives its variants' values through
    `num_value` attributes, the other ("fallback") as discriminants; both
    declare `Big` (1) before `Small` (0). */
module UnsignedEnums {

  import opened DbErrors
  import opened ColumnTypes
  import opened Integers
  import opened ActiveEnums

  /** The variants of every unsigned enum of the test. */
  datatype Unsigned = Big | Small

  /** The value every unsigned enum gives a variant. */
  function NumValue(x: Unsigned): (n: int)
    ensures 0 <= n < 0x100
  {
    match x
    case Big => 1
    case Small => 0
  }

  /** Declaration (and so iteration) order of all eight enums. */
  const Order: seq<Unsigned> := [Big, Small]

  /** The declaration order lists each variant exactly once. */
  lemma UnsignedEnumerates<T(!new)>(e: ActiveEnum<Unsigned, T>)
    requires e.variants == Order
    ensures e.Enumerates()
  {
    forall x: Unsigned ensures x in e.variants {
      assert e.variants[if x.Big? then 0 else 1] == x;
    }
  }

  /** A derived unsigned enum whose variants carry distinct values decodes each
      of them back, and rejects a value none of them carries. */
  lemma UnsignedDecodes<T(!new)>(e: ActiveEnum<Unsigned, T>, unknown: T)
    requires e.decoder.Derived? && e.variants == Order
    requires InjectiveOn(e.variants, e.toValue)
    requires unknown != e.toValue(Big) && unknown != e.toValue(Small)
    ensures e.TryFromValue(e.toValue(Big)) == Ok(Big)
    ensures e.TryFromValue(e.toValue(Small)) == Ok(Small)
    ensures e.TryFromValue(unknown) == Err(Type(UnexpectedValue(e.decoder.ident, e.decoder.show(unknown))))
  {
    UnsignedEnumerates(e);
    DerivedDecodes(e, Big);
    DerivedDecodes(e, Small);
    DerivedRejects(e, unknown);
  }

  // rs_type = "u8", db_type = "TinyInteger"

  function ToU8(x: Unsigned): u8 {
    NumValue(x) as u8
  }

  function ShowU8(v: u8): string {
    Decimal(v as int)
  }

  const U8: ActiveEnum<Unsigned, u8> :=
    ActiveEnum("U8", Order, ToU8, Derived("U8", ShowU8), TinyInteger)

  const U8Fallback: ActiveEnum<Unsigned, u8> :=
    ActiveEnum("U8Fallback", Order, ToU8, Derived("U8Fallback", ShowU8), TinyInteger)

  /** Both `u8` enums keep the laws of the trait. */
  lemma U8Lawful()
    ensures U8.Enumerates() && U8.Lawful("U8", ShowU8)
    ensures U8Fallback.Enumerates() && U8Fallback.Lawful("U8Fallback", ShowU8)
  {
    UnsignedEnumerates(U8);
    UnsignedEnumerates(U8Fallback);
    DerivedLawful(U8);
    DerivedLawful(U8Fallback);
  }

  /** What `test_uint!` asserts of `U8`, and its `values()`. */
  lemma U8Tests()
    ensures U8.toValue(Big) == 1 && U8.toValue(Small) == 0
    ensures U8.TryFromValue(1) == Ok(Big) && U8.TryFromValue(0) == Ok(Small)
    ensures U8.TryFromValue(2) == Err(Type(UnexpectedValue("U8", "2")))
    ensures U8.dbType == TinyInteger
    ensures U8.Values() == [1, 0]
  {
    UnsignedDecodes(U8, 2);
    assert ShowU8(2) == "2";
    assert U8.Values()[0] == 1;
  }

  /** What `test_uint!` asserts of `U8Fallback`, and its `values()`. */
  lemma U8FallbackTests()
    ensures U8Fallback.toValue(Big) == 1 && U8Fallback.toValue(Small) == 0
    ensures U8Fallback.TryFromValue(1) == Ok(Big) && U8Fallback.TryFromValue(0) == Ok(Small)
    ensures U8Fallback.TryFromValue(2) == Err(Type(UnexpectedValue("U8Fallback", "2")))
    ensures U8Fallback.dbType == TinyInteger
    ensures U8Fallback.Values() == [1, 0]
  {
    UnsignedDecodes(U8Fallback, 2);
    assert ShowU8(2) == "2";
    assert U8Fallback.Values()[0] == 1;
  }

  // rs_type = "u16", db_type = "SmallInteger"

  function ToU16(x: Unsigned): u16 {
    NumValue(x) as u16
  }

  function ShowU16(v: u16): string {
    Decimal(v as int)
  }

  const U16: ActiveEnum<Unsigned, u16> :=
    ActiveEnum("U16", Order, ToU16, Derived("U16", ShowU16), SmallInteger)

  const U16Fallback: ActiveEnum<Unsigned, u16> :=
    ActiveEnum("U16Fallback", Order, ToU16, Derived("U16Fallback", ShowU16), SmallInteger)

  /** Both `u16` enums keep the laws of the trait. */
  lemma U16Lawful()
    ensures U16.Enumerates() && U16.Lawful("U16", ShowU16)
    ensures U16Fallback.Enumerates() && U16Fallback.Lawful("U16Fallback", ShowU16)
  {
    UnsignedEnumerates(U16);
    UnsignedEnumerates(U16Fallback);
    DerivedLawful(U16);
    DerivedLawful(U16Fallback);
  }

  /** What `test_uint!` asserts of `U16`, and its `values()`. */
  lemma U16Tests()
    ensures U16.toValue(Big) == 1 && U16.toValue(Small) == 0
    ensures U16.TryFromValue(1) == Ok(Big) && U16.TryFromValue(0) == Ok(Small)
    ensures U16.TryFromValue(2) == Err(Type(UnexpectedValue("U16", "2")))
    ensures U16.dbType == SmallInteger
    ensures U16.Values() == [1, 0]
  {
    UnsignedDecodes(U16, 2);
    assert ShowU16(2) == "2";
    assert U16.Values()[0] == 1;
  }

  /** What `test_uint!` asserts of `U16Fallback`, and its `values()`. */
  lemma U16FallbackTests()
    ensures U16Fallback.toValue(Big) == 1 && U16Fallback.toValue(Small) == 0
    ensures U16Fallback.TryFromValue(1) == Ok(Big) && U16Fallback.TryFromValue(0) == Ok(Small)
    ensures U16Fallback.TryFromValue(2) == Err(Type(UnexpectedValue("U16Fallback", "2")))
    ensures U16Fallback.dbType == SmallInteger
    ensures U16Fallback.Values() == [1, 0]
  {
    UnsignedDecodes(U16Fallback, 2);
    assert ShowU16(2) == "2";
    assert U16Fallback.Values()[0] == 1;
  }

  // rs_type = "u32", db_type = "Integer"

  function ToU32(x: Unsigned): u32 {
    NumValue(x) as u32
  }

  function ShowU32(v: u32): string {
    Decimal(v as int)
  }

  const U32: ActiveEnum<Unsigned, u32> :=
    ActiveEnum("U32", Order, ToU32, Derived("U32", ShowU32), Integer)

  const U32Fallback: ActiveEnum<Unsigned, u32> :=
    ActiveEnum("U32Fallback", Order, ToU32, Derived("U32Fallback", ShowU32), Integer)

  /** Both `u32` enums keep the laws of the trait. */
  lemma U32Lawful()
    ensures U32.Enumerates() && U32.Lawful("U32", ShowU32)
    ensures U32Fallback.Enumerates() && U32Fallback.Lawful("U32Fallback", ShowU32)
  {
    UnsignedEnumerates(U32);
    UnsignedEnumerates(U32Fallback);
    DerivedLawful(U32);
    DerivedLawful(U32Fallback);
  }

  /** What `test_uint!` asserts of `U32`, and its `values()`. */
  lemma U32Tests()
    ensures U32.toValue(Big) == 1 && U32.toValue(Small) == 0
    ensures U32.TryFromValue(1) == Ok(Big) && U32.TryFromValue(0) == Ok(Small)
    ensures U32.TryFromValue(2) == Err(Type(UnexpectedValue("U32", "2")))
    ensures U32.dbType == Integer
    ensures U32.Values() == [1, 0]
  {
    UnsignedDecodes(U32, 2);
    assert ShowU32(2) == "2";
    assert U32.Values()[0] == 1;
  }

  /** What `test_uint!` asserts of `U32Fallback`, and its `values()`. */
  lemma U32FallbackTests()
    ensures U32Fallback.toValue(Big) == 1 && U32Fallback.toValue(Small) == 0
    ensures U32Fallback.TryFromValue(1) == Ok(Big) && U32Fallback.TryFromValue(0) == Ok(Small)
    ensures U32Fallback.TryFromValue(2) == Err(Type(UnexpectedValue("U32Fallback", "2")))
    ensures U32Fallback.dbType == Integer
    ensures U32Fallback.Values() == [1, 0]
  {
    UnsignedDecodes(U32Fallback, 2);
    assert ShowU32(2) == "2";
    assert U32Fallback.Values()[0] == 1;
  }

  // rs_type = "u64", db_type = "BigInteger"

  function ToU64(x: Unsigned): u64 {
    NumValue(x) as u64
  }

  function ShowU64(v: u64): string {
    Decimal(v as int)
  }

  const U64: ActiveEnum<Unsigned, u64> :=
    ActiveEnum("U64", Order, ToU64, Derived("U64", ShowU64), BigInteger)

  const U64Fallback: ActiveEnum<Unsigned, u64> :=
    ActiveEnum("U64Fallback", Order, ToU64, Derived("U64Fallback", ShowU64), BigInteger)

  /** Both `u64` enums keep the laws of the trait. */
  lemma U64Lawful()
    ensures U64.Enumerates() && U64.Lawful("U64", ShowU64)
    ensures U64Fallback.Enumerates() && U64Fallback.Lawful("U64Fallback", ShowU64)
  {
    UnsignedEnumerates(U64);
    UnsignedEnumerates(U64Fallback);
    DerivedLawful(U64);
    DerivedLawful(U64Fallback);
  }

  /** What `test_uint!` asserts of `U64`, and its `values()`. */
  lemma U64Tests()
    ensures U64.toValue(Big) == 1 && U64.toValue(Small) == 0
    ensures U64.TryFromValue(1) == Ok(Big) && U64.TryFromValue(0) == Ok(Small)
    ensures U64.TryFromValue(2) == Err(Type(UnexpectedValue("U64", "2")))
    ensures U64.dbType == BigInteger
    ensures U64.Values() == [1, 0]
  {
    UnsignedDecodes(U64, 2);
    assert ShowU64(2) == "2";
    assert U64.Values()[0] == 1;
  }

  /** What `test_uint!` asserts of `U64Fallback`, and its `values()`. */
  lemma U64FallbackTests()
    ensures U64Fallback.toValue(Big) == 1 && U64Fallback.toValue(Small) == 0
    ensures U64Fallback.TryFromValue(1) == Ok(Big) && U64Fallback.TryFromValue(0) == Ok(Small)
    ensures U64Fallback.TryFromValue(2) == Err(Type(UnexpectedValue("U64Fallback", "2")))
    ensures U64Fallback.dbType == BigInteger
    ensures U64Fallback.Values() == [1, 0]
  {
    UnsignedDecodes(U64Fallback, 2);
    assert ShowU64(2) == "2";
    assert U64Fallback.Values()[0] == 1;
  }
}
