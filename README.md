# ActiveEnum: Rust enums stored in database columns

This project models the `ActiveEnum` trait of sea-orm (`src/entity/active_enum.rs`).
An active enum maps each variant of a Rust enum to a value of a backing type.
The trait admits any backing type that is `Into<Value> + ValueType + Nullable + TryGetable`.
In this file's tests it is a `String` or a fixed-width integer (`i8`..`i64`, `u8`..`u64`), and the model covers those.

- `to_value` encodes a variant.
- `try_from_value` decodes a backing value.
  It returns the variant, or fails with `DbErr::Type("unexpected value for <Ident> enum: <value>")`.
- `into_value` and `values` are default methods built on `to_value`.
  `values` encodes every variant in `iter()` order.
- `name` and `db_type` are per-enum constants.

The model has these modules:

- `ActiveEnums` (active_enum.dfy) holds the trait as the datatype `ActiveEnum<V, T>`.
  Its fields are the required items, plus the `iter()` order of the variants.
  The defaults `IntoValue` and `Values` are member functions.
  A `Decoder` says where `try_from_value` comes from.
  It is either hand-written (a function) or generated by `#[derive(DeriveActiveEnum)]`.
  The generated decoder is `DecodeFirst`: it tries the variants in declaration order.
  The ghost predicates `RoundTrips`, `DecodesOnlyEncodings` and `RejectsUnknown` state the laws that the tests check case by case.
  `Lawful` combines the three.
- `DbErrors` holds `DbErr::Type`, `Result` and the message format.
- `Integers` holds the integer newtypes and the decimal text that `format!("{}", n)` prints.
- `ColumnTypes` holds `db_type` as a plain tag.
- `CategoryEnums`, `SignedEnums` and `UnsignedEnums` hold the enums of the three tests.
  The test's hand-written `Category` implementation is written out as two `match` functions.
  Every other enum is a derived instance.

## Model

| member | source | states |
|---|---|---|
| DbErrors.UnexpectedValue | src/entity/active_enum.rs:167-170 | The error message of an unknown value is "unexpected value for ", then the enum's type name, then " enum: ", then the displayed value, and nothing else. |
| DbErrors.UnexpectedValueInjective | src/entity/active_enum.rs:167-170 | For one enum type, two equal messages print the same value. |
| ActiveEnums.ActiveEnum.Values | src/entity/active_enum.rs:128-131 | `values()` has one entry per variant that `iter()` yields, and entry i is the encoding of the i-th variant. |
| ActiveEnums.ActiveEnum.EncodeAll | src/entity/active_enum.rs:130 | Mapping `into_value` over a list of variants keeps its length and encodes each position. |
| ActiveEnums.DecodeFirst | src/entity/active_enum.rs:58-68 | The derived decoder returns only a declared variant whose value is the input; on failure the error is `DbErr::Type` with the unexpected-value message for the type and the displayed input. |
| ActiveEnums.DecodeFirstPicksFirst | src/entity/active_enum.rs:58-68 | Decoding fails exactly when no variant carries the value; otherwise it returns the first declared variant that does, as the arms of the generated `match` are tried in order. |
| ActiveEnums.DerivedDecodes | src/entity/active_enum.rs:117-118 | A derived decoder whose variants carry distinct values decodes the value of any variant to that variant. |
| ActiveEnums.DerivedRejects | src/entity/active_enum.rs:211-216 | A derived decoder rejects any value no variant carries with `DbErr::Type` naming the enum's type and the value. |
| ActiveEnums.DerivedLawful | src/entity/active_enum.rs:114-118 | A derived implementation with distinct variant values is lawful: the round trip holds, decoding succeeds only on an encoding, and every value outside `values()` gets the unexpected-value error. |
| ActiveEnums.RoundTripInjective | src/entity/active_enum.rs:203-210 | If every variant's encoding decodes back to it, distinct variants have distinct encodings. |
| ActiveEnums.ValuesDistinct | src/entity/active_enum.rs:129-131 | For an enum whose round trip holds and whose `iter()` lists each variant once, `values()` contains no duplicates. |
| ActiveEnums.IntoValueIsToValue | src/entity/active_enum.rs:123-126 | For every enum and every variant, the default `into_value(x)` equals `to_value(&x)`. |
| ActiveEnums.IntoValueRoundTrip | src/entity/active_enum.rs:123-126 | For an enum whose round trip holds and whose `iter()` lists every variant, `into_value(x)` decodes back to x and appears in `values()`. |
| ActiveEnums.SameEncodingSameValues | src/entity/active_enum.rs:229-230 | Two enums of different types with the same values in the same variant order have equal `values()`. |
| Integers.Digits | src/entity/active_enum.rs:278-280 | The printed digits are non-empty, all decimal digits, and have no leading zero unless the number is 0. |
| Integers.Decimal | src/entity/active_enum.rs:278-280 | The printed text of an integer is non-empty and starts with '-' exactly when the integer is negative. |
| Integers.DecimalRoundTrip | src/entity/active_enum.rs:276-282 | Parsing the printed text of any integer gives back that integer. |
| Integers.DecimalInjective | src/entity/active_enum.rs:276-282 | Two integers with the same printed text are equal. |
| Integers.MessageIdentifiesValue | src/entity/active_enum.rs:276-282 | For one integer enum type, two equal unexpected-value messages come from the same rejected integer. |
| CategoryEnums.CategoryToValue | src/entity/active_enum.rs:155-161 | The hand-written `to_value` gives "B" or "S", and "B" exactly for `Big`. |
| CategoryEnums.CategoryTryFromValue | src/entity/active_enum.rs:163-172 | The hand-written `try_from_value` succeeds exactly on "B" and "S", returns the variant that encodes to the input, and otherwise fails with the unexpected-value message for `Category` and the input. |
| CategoryEnums.CategoryEnumerates | src/entity/active_enum.rs:142-146 | `iter()` over `Category` lists every variant (`Big`, `Small`) exactly once. |
| CategoryEnums.CategoryValues | src/entity/active_enum.rs:129-131 | `Category::values()` is `["B", "S"]`. |
| CategoryEnums.CategoryLawful | src/entity/active_enum.rs:155-172 | The hand-written `Category` implementation is lawful: "B" and "S" round-trip, only they decode, and every other string is rejected with the unexpected-value message for `Category`. |
| CategoryEnums.DeriveCategoryLawful | src/entity/active_enum.rs:179-190 | The derived `DeriveCategory` enumerates its variants and is lawful, reporting unknown strings under the name `DeriveCategory`. |
| CategoryEnums.CategoryTests | src/entity/active_enum.rs:192-226 | `Category` encodes Big to "B" and Small to "S", decodes "B" and "S" back, and declares column type `String(Some(1))`. |
| CategoryEnums.CategoryRejectsA | src/entity/active_enum.rs:197-202 | `Category` rejects "A" with `DbErr::Type("unexpected value for Category enum: A")`. |
| CategoryEnums.DeriveCategoryTests | src/entity/active_enum.rs:194-227 | `DeriveCategory` has the same encodings, decodings and column type. |
| CategoryEnums.DeriveCategoryRejectsA | src/entity/active_enum.rs:211-216 | `DeriveCategory` rejects "A" with `DbErr::Type("unexpected value for DeriveCategory enum: A")`. |
| CategoryEnums.CategoryAgreesWithDerive | src/entity/active_enum.rs:229-230 | The hand-written and the derived enum have the same `name()` ("category") and the same `values()` (["B", "S"]). |
| CategoryEnums.CategoryMatchesDerive | src/entity/active_enum.rs:163-172 | For every string, the hand-written and the derived decoder both succeed or both fail, return the same-named variant, and differ on failure only in the type name of the message. |
| SignedEnums.NumValue | src/entity/active_enum.rs:239-246 | Every signed variant's value (-10, 1, 0) fits in `i8`, so it fits in every signed backing type. |
| SignedEnums.SignedEnumerates | src/entity/active_enum.rs:237-261 | Both declaration orders, `num_value` and discriminant, list each of `Negative`, `Big` and `Small` exactly once. |
| SignedEnums.SignedDecodes | src/entity/active_enum.rs:267-282 | A derived signed enum with distinct values decodes each variant's value back and rejects any other value with the unexpected-value message. |
| SignedEnums.I8Lawful | src/entity/active_enum.rs:273-282 | `I8` and `I8Fallback` enumerate their variants and are lawful. |
| SignedEnums.I8Tests | src/entity/active_enum.rs:269-284 | `I8` maps Big, Small, Negative to 1, 0, -10 and decodes them back; 2 is rejected with the message for `I8`; column type `TinyInteger`; `values()` is [-10, 1, 0]. |
| SignedEnums.I8FallbackTests | src/entity/active_enum.rs:269-284 | `I8Fallback` has the same encodings and decodings; 2 is rejected with the message for `I8Fallback`; column type `TinyInteger`; `values()` is [1, 0, -10] (declaration order Big, Small, Negative). |
| SignedEnums.I16Lawful | src/entity/active_enum.rs:273-282 | `I16` and `I16Fallback` enumerate their variants and are lawful. |
| SignedEnums.I16Tests | src/entity/active_enum.rs:269-284 | `I16` maps Big, Small, Negative to 1, 0, -10 and decodes them back; 2 is rejected with the message for `I16`; column type `SmallInteger`; `values()` is [-10, 1, 0]. |
| SignedEnums.I16FallbackTests | src/entity/active_enum.rs:269-284 | `I16Fallback` has the same encodings and decodings; 2 is rejected with the message for `I16Fallback`; column type `SmallInteger`; `values()` is [1, 0, -10] (declaration order Big, Small, Negative). |
| SignedEnums.I32Lawful | src/entity/active_enum.rs:273-282 | `I32` and `I32Fallback` enumerate their variants and are lawful. |
| SignedEnums.I32Tests | src/entity/active_enum.rs:269-284 | `I32` maps Big, Small, Negative to 1, 0, -10 and decodes them back; 2 is rejected with the message for `I32`; column type `Integer`; `values()` is [-10, 1, 0]. |
| SignedEnums.I32FallbackTests | src/entity/active_enum.rs:269-284 | `I32Fallback` has the same encodings and decodings; 2 is rejected with the message for `I32Fallback`; column type `Integer`; `values()` is [1, 0, -10] (declaration order Big, Small, Negative). |
| SignedEnums.I64Lawful | src/entity/active_enum.rs:273-282 | `I64` and `I64Fallback` enumerate their variants and are lawful. |
| SignedEnums.I64Tests | src/entity/active_enum.rs:269-284 | `I64` maps Big, Small, Negative to 1, 0, -10 and decodes them back; 2 is rejected with the message for `I64`; column type `BigInteger`; `values()` is [-10, 1, 0]. |
| SignedEnums.I64FallbackTests | src/entity/active_enum.rs:269-284 | `I64Fallback` has the same encodings and decodings; 2 is rejected with the message for `I64Fallback`; column type `BigInteger`; `values()` is [1, 0, -10] (declaration order Big, Small, Negative). |
| UnsignedEnums.NumValue | src/entity/active_enum.rs:305-310 | Every unsigned variant's value (1, 0) fits in `u8`, so it fits in every unsigned backing type. |
| UnsignedEnums.UnsignedEnumerates | src/entity/active_enum.rs:303-324 | The declaration order lists each of `Big` and `Small` exactly once. |
| UnsignedEnums.UnsignedDecodes | src/entity/active_enum.rs:330-343 | A derived unsigned enum with distinct values decodes each variant's value back and rejects any other value with the unexpected-value message. |
| UnsignedEnums.U8Lawful | src/entity/active_enum.rs:335-343 | `U8` and `U8Fallback` enumerate their variants and are lawful. |
| UnsignedEnums.U8Tests | src/entity/active_enum.rs:330-345 | `U8` maps Big, Small to 1, 0 and decodes them back; 2 is rejected with the message for `U8`; column type `TinyInteger`; `values()` is [1, 0]. |
| UnsignedEnums.U8FallbackTests | src/entity/active_enum.rs:330-345 | `U8Fallback` has the same encodings, decodings and `values()`; 2 is rejected with the message for `U8Fallback`; column type `TinyInteger`. |
| UnsignedEnums.U16Lawful | src/entity/active_enum.rs:335-343 | `U16` and `U16Fallback` enumerate their variants and are lawful. |
| UnsignedEnums.U16Tests | src/entity/active_enum.rs:330-345 | `U16` maps Big, Small to 1, 0 and decodes them back; 2 is rejected with the message for `U16`; column type `SmallInteger`; `values()` is [1, 0]. |
| UnsignedEnums.U16FallbackTests | src/entity/active_enum.rs:330-345 | `U16Fallback` has the same encodings, decodings and `values()`; 2 is rejected with the message for `U16Fallback`; column type `SmallInteger`. |
| UnsignedEnums.U32Lawful | src/entity/active_enum.rs:335-343 | `U32` and `U32Fallback` enumerate their variants and are lawful. |
| UnsignedEnums.U32Tests | src/entity/active_enum.rs:330-345 | `U32` maps Big, Small to 1, 0 and decodes them back; 2 is rejected with the message for `U32`; column type `Integer`; `values()` is [1, 0]. |
| UnsignedEnums.U32FallbackTests | src/entity/active_enum.rs:330-345 | `U32Fallback` has the same encodings, decodings and `values()`; 2 is rejected with the message for `U32Fallback`; column type `Integer`. |
| UnsignedEnums.U64Lawful | src/entity/active_enum.rs:335-343 | `U64` and `U64Fallback` enumerate their variants and are lawful. |
| UnsignedEnums.U64Tests | src/entity/active_enum.rs:330-345 | `U64` maps Big, Small to 1, 0 and decodes them back; 2 is rejected with the message for `U64`; column type `BigInteger`; `values()` is [1, 0]. |
| UnsignedEnums.U64FallbackTests | src/entity/active_enum.rs:330-345 | `U64Fallback` has the same encodings, decodings and `values()`; 2 is rejected with the message for `U64Fallback`; column type `BigInteger`. |

## Left out

- `ActiveEnums.ActiveEnum.IntoValue`: has no contract of its own. It is defined as `to_value`, which is what the default method does. `IntoValueIsToValue` states the equality and `IntoValueRoundTrip` what follows from it.
- `ActiveEnums.ActiveEnum.TryFromValue`: has no contract of its own. It only dispatches to the hand-written decoder or to `DecodeFirst`. What it promises is stated by the predicate `Lawful`, proved by `DerivedLawful` for derived enums and by `CategoryLawful` for the hand-written one.
- `SignedEnums.ToI8`, `SignedEnums.ToI16`, `SignedEnums.ToI32`, `SignedEnums.ToI64`: no contract of their own. Each is the derived `to_value` of its backing type: `NumValue` converted to that type, which `NumValue`'s bound makes exact. `I8Tests` … `I64FallbackTests` and the `I8Lawful` … `I64Lawful` lemmas state what they give (src/entity/active_enum.rs:269-271).
- `UnsignedEnums.ToU8`, `UnsignedEnums.ToU16`, `UnsignedEnums.ToU32`, `UnsignedEnums.ToU64`: no contract of their own. The same as the signed ones, for the unsigned backing types. `U8Tests` … `U64FallbackTests` and the `U8Lawful` … `U64Lawful` lemmas state what they give (src/entity/active_enum.rs:332-333).
- `SignedEnums.ShowI8`, `SignedEnums.ShowI16`, `SignedEnums.ShowI32`, `SignedEnums.ShowI64`, `UnsignedEnums.ShowU8`, `UnsignedEnums.ShowU16`, `UnsignedEnums.ShowU32`, `UnsignedEnums.ShowU64`: no contract of their own. Each is the `{}` display of the rejected value in the derived error message (src/entity/active_enum.rs:278-280 and 339-341), i.e. `Decimal` of the integer. `Decimal`, `DecimalRoundTrip` and `MessageIdentifiesValue` state what they give.
- `CategoryEnums.ShowString`: no contract of its own. It is the `{}` display of a `String`, which is the string itself. `DeriveCategoryRejectsA` and `DeriveCategoryLawful` state the messages it produces.
- `CategoryEnums.DeriveCategoryValue`: has no contract of its own. It is the table of `string_value` attributes (src/entity/active_enum.rs:186-189). `DeriveCategoryTests` and `DeriveCategoryLawful` state what it gives.
- The trait bounds `Into<Value> + ValueType + Nullable + TryGetable` on the backing type are not modelled. They belong to sea_query's value layer and to row decoding, which are not part of this model.
- `db_type` is a tag (`ColumnType`), not sea_query's `ColumnDef` built by `ColumnType::def()`. sea_query is a separate library.
- The `DeriveActiveEnum` and `EnumIter` macros are not expanded. A derived enum is modelled by its variant list, its values and `DecodeFirst`. `DecodeFirst` follows the generated `match` shown in the trait's doc comment (src/entity/active_enum.rs:58-68). The tests only decode enums whose variants carry distinct values. The rule that the first declared variant wins when two variants share a value comes from that `match`, not from any test.
- The fallback enums take their values from the declared discriminants `Big = 1`, `Small = 0`, `Negative = -10` (src/entity/active_enum.rs:256-261 and 318-324). The signed ones are all `#[repr(i32)]`, whatever their backing type. The unsigned ones use the `#[repr]` named by the macro argument. How the derive turns a discriminant into a backing value is not visible, so the model uses the values the tests assert (1, 0, -10) directly.
- `name()` of a derived enum without an `enum_name` attribute is not shown in the source. The integer enums use their type name there as a placeholder, and no property depends on it.
- In Rust, each integer test declares its own enum type. In the model, all signed enums share the variant datatype `Signed` and all unsigned enums share `Unsigned`. What differs between the enums (declaration order, backing type, type name) is kept.
- `DbErr` is defined outside `src/entity/active_enum.rs`. Active enums only produce its `Type` kind, so only `Type` is modelled.
- The hand-written `Category` decoder builds its message with `UnexpectedValue("Category", v)`. This is the same text as the source's `format!` literal.
- Rust's `format!` is modelled only for the two things the messages print: a `String` is printed as itself, and an integer is printed in decimal.
- Everything else in the repository (query builder and renderer, migrations, connection pool, execution) is not part of this model; it lives outside `src/entity/active_enum.rs`.
