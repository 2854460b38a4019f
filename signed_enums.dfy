/** The signed-integer active enums of the `active_enum_derive_signed_integers`
    test. Each backing type `i8`..`i64` is used by two derived enums: one gives
    its variants' values through `num_value` attributes and declares them
    `Negative`, `Big`, `Small`; the other ("fallback") gives them as
    discriminants and declares them `Big = 1`, `Small = 0`, `Negative = -10`. */
module SignedEnums {

  import opened DbErrors
  import opened ColumnTypes
  import opened Integers
  import opened ActiveEnums

  /** The variants of every signed enum of the test. */
  datatype Signed = Negative | Big | Small

  /** The value every signed enum gives a variant; a negative value is fine
      for a signed backing type. */
  function NumValue(x: Signed): (n: int)
    ensures -0x80 <= n < 0x80
  {
    match x
    case Negative => -10
    case Big => 1
    case Small => 0
  }

  /** Declaration (and so iteration) order of the `num_value` enums. */
  const NumValueOrder: seq<Signed> := [Negative, Big, Small]

  /** Declaration order of the discriminant ("fallback") enums. */
  const FallbackOrder: seq<Signed> := [Big, Small, Negative]

  /** Both declaration orders list each variant exactly once. */
  lemma SignedEnumerates<T(!new)>(e: ActiveEnum<Signed, T>)
    requires e.variants == NumValueOrder || e.variants == FallbackOrder
    ensures e.Enumerates()
  {
    forall x: Signed ensures x in e.variants {
      if e.variants == NumValueOrder {
        assert e.variants[if x.Negative? then 0 else if x.Big? then 1 else 2] == x;
      } else {
        assert e.variants[if x.Big? then 0 else if x.Small? then 1 else 2] == x;
      }
    }
  }

  /** A derived signed enum whose variants carry distinct values decodes each
      of them back, and rejects a value none of them carries. */
  lemma SignedDecodes<T(!new)>(e: ActiveEnum<Signed, T>, unknown: T)
    requires e.decoder.Derived? && (e.variants == NumValueOrder || e.variants == FallbackOrder)
    requires InjectiveOn(e.variants, e.toValue)
    requires unknown != e.toValue(Big) && unknown != e.toValue(Small) && unknown != e.toValue(Negative)
    ensures e.TryFromValue(e.toValue(Big)) == Ok(Big)
    ensures e.TryFromValue(e.toValue(Small)) == Ok(Small)
    ensures e.TryFromValue(e.toValue(Negative)) == Ok(Negative)
    ensures e.TryFromValue(unknown) == Err(Type(UnexpectedValue(e.decoder.ident, e.decoder.show(unknown))))
  {
    SignedEnumerates(e);
    DerivedDecodes(e, Big);
    DerivedDecodes(e, Small);
    DerivedDecodes(e, Negative);
    DerivedRejects(e, unknown);
  }

  // rs_type = "i8", db_type = "TinyInteger"

  function ToI8(x: Signed): i8 {
    NumValue(x) as i8
  }

  function ShowI8(v: i8): string {
    Decimal(v as int)
  }

  const I8: ActiveEnum<Signed, i8> :=
    ActiveEnum("I8", NumValueOrder, ToI8, Derived("I8", ShowI8), TinyInteger)

  const I8Fallback: ActiveEnum<Signed, i8> :=
    ActiveEnum("I8Fallback", FallbackOrder, ToI8, Derived("I8Fallback", ShowI8), TinyInteger)

  /** Both `i8` enums keep the laws of the trait. */
  lemma I8Lawful()
    ensures I8.Enumerates() && I8.Lawful("I8", ShowI8)
    ensures I8Fallback.Enumerates() && I8Fallback.Lawful("I8Fallback", ShowI8)
  {
    SignedEnumerates(I8);
    SignedEnumerates(I8Fallback);
    DerivedLawful(I8);
    DerivedLawful(I8Fallback);
  }

  /** What `test_int!` asserts of `I8`, and its `values()`. */
  lemma I8Tests()
    ensures I8.toValue(Big) == 1 && I8.toValue(Small) == 0 && I8.toValue(Negative) == -10
    ensures I8.TryFromValue(1) == Ok(Big) && I8.TryFromValue(0) == Ok(Small)
    ensures I8.TryFromValue(-10) == Ok(Negative)
    ensures I8.TryFromValue(2) == Err(Type(UnexpectedValue("I8", "2")))
    ensures I8.dbType == TinyInteger
    ensures I8.Values() == [-10, 1, 0]
  {
    SignedDecodes(I8, 2);
    assert ShowI8(2) == "2";
    assert I8.Values()[0] == -10;
  }

  /** What `test_int!` asserts of `I8Fallback`, and its `values()`. */
  lemma I8FallbackTests()
    ensures I8Fallback.toValue(Big) == 1 && I8Fallback.toValue(Small) == 0 && I8Fallback.toValue(Negative) == -10
    ensures I8Fallback.TryFromValue(1) == Ok(Big) && I8Fallback.TryFromValue(0) == Ok(Small)
    ensures I8Fallback.TryFromValue(-10) == Ok(Negative)
    ensures I8Fallback.TryFromValue(2) == Err(Type(UnexpectedValue("I8Fallback", "2")))
    ensures I8Fallback.dbType == TinyInteger
    ensures I8Fallback.Values() == [1, 0, -10]
  {
    SignedDecodes(I8Fallback, 2);
    assert ShowI8(2) == "2";
    assert I8Fallback.Values()[0] == 1;
  }

  // rs_type = "i16", db_type = "SmallInteger"

  function ToI16(x: Signed): i16 {
    NumValue(x) as i16
  }

  function ShowI16(v: i16): string {
    Decimal(v as int)
  }

  const I16: ActiveEnum<Signed, i16> :=
    ActiveEnum("I16", NumValueOrder, ToI16, Derived("I16", ShowI16), SmallInteger)

  const I16Fallback: ActiveEnum<Signed, i16> :=
    ActiveEnum("I16Fallback", FallbackOrder, ToI16, Derived("I16Fallback", ShowI16), SmallInteger)

  /** Both `i16` enums keep the laws of the trait. */
  lemma I16Lawful()
    ensures I16.Enumerates() && I16.Lawful("I16", ShowI16)
    ensures I16Fallback.Enumerates() && I16Fallback.Lawful("I16Fallback", ShowI16)
  {
    SignedEnumerates(I16);
    SignedEnumerates(I16Fallback);
    DerivedLawful(I16);
    DerivedLawful(I16Fallback);
  }

  /** What `test_int!` asserts of `I16`, and its `values()`. */
  lemma I16Tests()
    ensures I16.toValue(Big) == 1 && I16.toValue(Small) == 0 && I16.toValue(Negative) == -10
    ensures I16.TryFromValue(1) == Ok(Big) && I16.TryFromValue(0) == Ok(Small)
    ensures I16.TryFromValue(-10) == Ok(Negative)
    ensures I16.TryFromValue(2) == Err(Type(UnexpectedValue("I16", "2")))
    ensures I16.dbType == SmallInteger
    ensures I16.Values() == [-10, 1, 0]
  {
    SignedDecodes(I16, 2);
    assert ShowI16(2) == "2";
    assert I16.Values()[0] == -10;
  }

  /** What `test_int!` asserts of `I16Fallback`, and its `values()`. */
  lemma I16FallbackTests()
    ensures I16Fallback.toValue(Big) == 1 && I16Fallback.toValue(Small) == 0 && I16Fallback.toValue(Negative) == -10
    ensures I16Fallback.TryFromValue(1) == Ok(Big) && I16Fallback.TryFromValue(0) == Ok(Small)
    ensures I16Fallback.TryFromValue(-10) == Ok(Negative)
    ensures I16Fallback.TryFromValue(2) == Err(Type(UnexpectedValue("I16Fallback", "2")))
    ensures I16Fallback.dbType == SmallInteger
    ensures I16Fallback.Values() == [1, 0, -10]
  {
    SignedDecodes(I16Fallback, 2);
    assert ShowI16(2) == "2";
    assert I16Fallback.Values()[0] == 1;
  }

  // rs_type = "i32", db_type = "Integer"

  function ToI32(x: Signed): i32 {
    NumValue(x) as i32
  }

  function ShowI32(v: i32): string {
    Decimal(v as int)
  }

  const I32: ActiveEnum<Signed, i32> :=
    ActiveEnum("I32", NumValueOrder, ToI32, Derived("I32", ShowI32), Integer)

  const I32Fallback: ActiveEnum<Signed, i32> :=
    ActiveEnum("I32Fallback", FallbackOrder, ToI32, Derived("I32Fallback", ShowI32), Integer)

  /** Both `i32` enums keep the laws of the trait. */
  lemma I32Lawful()
    ensures I32.Enumerates() && I32.Lawful("I32", ShowI32)
    ensures I32Fallback.Enumerates() && I32Fallback.Lawful("I32Fallback", ShowI32)
  {
    SignedEnumerates(I32);
    SignedEnumerates(I32Fallback);
    DerivedLawful(I32);
    DerivedLawful(I32Fallback);
  }

  /** What `test_int!` asserts of `I32`, and its `values()`. */
  lemma I32Tests()
    ensures I32.toValue(Big) == 1 && I32.toValue(Small) == 0 && I32.toValue(Negative) == -10
    ensures I32.TryFromValue(1) == Ok(Big) && I32.TryFromValue(0) == Ok(Small)
    ensures I32.TryFromValue(-10) == Ok(Negative)
    ensures I32.TryFromValue(2) == Err(Type(UnexpectedValue("I32", "2")))
    ensures I32.dbType == Integer
    ensures I32.Values() == [-10, 1, 0]
  {
    SignedDecodes(I32, 2);
    assert ShowI32(2) == "2";
    assert I32.Values()[0] == -10;
  }

  /** What `test_int!` asserts of `I32Fallback`, and its `values()`. */
  lemma I32FallbackTests()
    ensures I32Fallback.toValue(Big) == 1 && I32Fallback.toValue(Small) == 0 && I32Fallback.toValue(Negative) == -10
    ensures I32Fallback.TryFromValue(1) == Ok(Big) && I32Fallback.TryFromValue(0) == Ok(Small)
    ensures I32Fallback.TryFromValue(-10) == Ok(Negative)
    ensures I32Fallback.TryFromValue(2) == Err(Type(UnexpectedValue("I32Fallback", "2")))
    ensures I32Fallback.dbType == Integer
    ensures I32Fallback.Values() == [1, 0, -10]
  {
    SignedDecodes(I32Fallback, 2);
    assert ShowI32(2) == "2";
    assert I32Fallback.Values()[0] == 1;
  }

  // rs_type = "i64", db_type = "BigInteger"

  function ToI64(x: Signed): i64 {
    NumValue(x) as i64
  }

  function ShowI64(v: i64): string {
    Decimal(v as int)
  }

  const I64: ActiveEnum<Signed, i64> :=
    ActiveEnum("I64", NumValueOrder, ToI64, Derived("I64", ShowI64), BigInteger)

  const I64Fallback: ActiveEnum<Signed, i64> :=
    ActiveEnum("I64Fallback", FallbackOrder, ToI64, Derived("I64Fallback", ShowI64), BigInteger)

  /** Both `i64` enums keep the laws of the trait. */
  lemma I64Lawful()
    ensures I64.Enumerates() && I64.Lawful("I64", ShowI64)
    ensures I64Fallback.Enumerates() && I64Fallback.Lawful("I64Fallback", ShowI64)
  {
    SignedEnumerates(I64);
    SignedEnumerates(I64Fallback);
    DerivedLawful(I64);
    DerivedLawful(I64Fallback);
  }

  /** What `test_int!` asserts of `I64`, and its `values()`. */
  lemma I64Tests()
    ensures I64.toValue(Big) == 1 && I64.toValue(Small) == 0 && I64.toValue(Negative) == -10
    ensures I64.TryFromValue(1) == Ok(Big) && I64.TryFromValue(0) == Ok(Small)
    ensures I64.TryFromValue(-10) == Ok(Negative)
    ensures I64.TryFromValue(2) == Err(Type(UnexpectedValue("I64", "2")))
    ensures I64.dbType == BigInteger
    ensures I64.Values() == [-10, 1, 0]
  {
    SignedDecodes(I64, 2);
    assert ShowI64(2) == "2";
    assert I64.Values()[0] == -10;
  }

  /** What `test_int!` asserts of `I64Fallback`, and its `values()`. */
  lemma I64FallbackTests()
    ensures I64Fallback.toValue(Big) == 1 && I64Fallback.toValue(Small) == 0 && I64Fallback.toValue(Negative) == -10
    ensures I64Fallback.TryFromValue(1) == Ok(Big) && I64Fallback.TryFromValue(0) == Ok(Small)
    ensures I64Fallback.TryFromValue(-10) == Ok(Negative)
    ensures I64Fallback.TryFromValue(2) == Err(Type(UnexpectedValue("I64Fallback", "2")))
    ensures I64Fallback.dbType == BigInteger
    ensures I64Fallback.Values() == [1, 0, -10]
  {
    SignedDecodes(I64Fallback, 2);
    assert ShowI64(2) == "2";
    assert I64Fallback.Values()[0] == 1;
  }
}
