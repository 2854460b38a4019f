/** The `ActiveEnum` trait: a Rust enum stored in a database column. Each
    variant is encoded as a value of the backing type `T` (a `String` or an
    integer type) by `to_value`, and `try_from_value` decodes a backing value
    back into a variant or fails with `DbErr::Type`. */
module ActiveEnums {

  import opened DbErrors
  import opened ColumnTypes

  /** Where an implementation's `try_from_value` comes from: written by hand,
      or generated by `#[derive(DeriveActiveEnum)]` for the enum type named
      `ident`, whose backing values print through `show`. */
  datatype Decoder<!V, !T> =
    | HandWritten(decode: T -> Result<V>)
    | Derived(ident: string, show: T -> string)

  /** One implementation of the trait for the enum type `V`. `name`, `toValue`,
      `decoder` and `dbType` are the trait's required items; `variants` is what
      the `Iterable` supertrait's `iter()` yields, in iteration order. */
  datatype ActiveEnum<!V(!new), !T(==,!new)> = ActiveEnum(
    name: string,
    variants: seq<V>,
    toValue: V -> T,
    decoder: Decoder<V, T>,
    dbType: ColumnType)
  {
    /** `try_from_value`. */
    function TryFromValue(v: T): Result<V> {
      match decoder
      case HandWritten(decode) => decode(v)
      case Derived(ident, show) => DecodeFirst(ident, variants, toValue, show, v)
    }

    /** The default `into_value`: the owned form of `to_value`. */
    function IntoValue(x: V): T {
      toValue(x)
    }

    /** The default `values`: the encoding of every variant, in iteration order. */
    function Values(): (r: seq<T>)
      ensures |r| == |variants|
      ensures forall i :: 0 <= i < |r| ==> r[i] == toValue(variants[i])
    {
      EncodeAll(variants)
    }

    /** `xs` mapped through `into_value`, as `iter().map(into_value).collect()` does. */
    function EncodeAll(xs: seq<V>): (r: seq<T>)
      ensures |r| == |xs|
      ensures forall i :: 0 <= i < |r| ==> r[i] == toValue(xs[i])
    {
      if xs == [] then [] else [IntoValue(xs[0])] + EncodeAll(xs[1..])
    }

    /** `iter()` lists every variant of the enum exactly once. */
    ghost predicate Enumerates() {
      (forall x: V :: x in variants)
      && forall i, j :: 0 <= i < j < |variants| ==> variants[i] != variants[j]
    }

    /** Decoding the encoding of any variant gives that variant back. */
    ghost predicate RoundTrips() {
      forall x :: x in variants ==> TryFromValue(toValue(x)) == Ok(x)
    }

    /** Decoding succeeds only on the encoding of the variant it returns. */
    ghost predicate DecodesOnlyEncodings() {
      forall v, x :: TryFromValue(v) == Ok(x) ==> x in variants && toValue(x) == v
    }

    /** A value that no variant maps to is rejected with the message
        "unexpected value for <ident> enum: <value>". */
    ghost predicate RejectsUnknown(ident: string, show: T -> string) {
      forall v :: v !in Values() ==> TryFromValue(v) == Err(Type(UnexpectedValue(ident, show(v))))
    }

    /** `to_value` and `try_from_value` are inverse to each other on the
        enum's values, and everything else is rejected with the usual message. */
    ghost predicate Lawful(ident: string, show: T -> string) {
      RoundTrips() && DecodesOnlyEncodings() && RejectsUnknown(ident, show)
    }
  }

  /** Decoding as the `DeriveActiveEnum` macro generates it: the arms of the
      `match` follow the declaration order of the variants, and a value no
      variant carries is a `DbErr::Type`. */
  function DecodeFirst<V, T(==)>(ident: string, variants: seq<V>, encode: V -> T, show: T -> string, v: T): (r: Result<V>)
    ensures r.Ok? ==> r.value in variants && encode(r.value) == v
    ensures r.Err? ==> r.error == Type(UnexpectedValue(ident, show(v)))
  {
    if variants == [] then
      Err(Type(UnexpectedValue(ident, show(v))))
    else if encode(variants[0]) == v then
      Ok(variants[0])
    else
      DecodeFirst(ident, variants[1..], encode, show, v)
  }

  /** When several variants carry `v`, the one declared first wins; decoding
      fails exactly when no variant carries `v`. */
  lemma {:induction false} DecodeFirstPicksFirst<V, T>(ident: string, variants: seq<V>, encode: V -> T, show: T -> string, v: T)
    ensures var r := DecodeFirst(ident, variants, encode, show, v);
            (r.Err? <==> forall x :: x in variants ==> encode(x) != v)
            && (r.Ok? ==> exists i :: 0 <= i < |variants| && variants[i] == r.value
                                     && forall j :: 0 <= j < i ==> encode(variants[j]) != v)
  {
    if variants != [] && encode(variants[0]) != v {
      DecodeFirstPicksFirst(ident, variants[1..], encode, show, v);
      var r := DecodeFirst(ident, variants[1..], encode, show, v);
      if r.Ok? {
        var i :| 0 <= i < |variants[1..]| && variants[1..][i] == r.value
                 && forall j :: 0 <= j < i ==> encode(variants[1..][j]) != v;
        assert variants[i + 1] == r.value;
        forall j | 0 <= j < i + 1 ensures encode(variants[j]) != v {
          if j > 0 { assert variants[j] == variants[1..][j - 1]; }
        }
      } else {
        forall x | x in variants ensures encode(x) != v {
          if x != variants[0] { assert x in variants[1..]; }
        }
      }
    }
  }

  /** `to_value` sends different variants to different values. */
  ghost predicate InjectiveOn<V, T>(variants: seq<V>, encode: V -> T) {
    forall x, y :: x in variants && y in variants && encode(x) == encode(y) ==> x == y
  }

  /** A derived implementation decodes the value of any of its variants to that
      variant, provided no two variants share a value. */
  lemma DerivedDecodes<V(!new), T(!new)>(e: ActiveEnum<V, T>, x: V)
    requires e.decoder.Derived? && InjectiveOn(e.variants, e.toValue) && x in e.variants
    ensures e.TryFromValue(e.toValue(x)) == Ok(x)
  {
    DecodeFirstPicksFirst(e.decoder.ident, e.variants, e.toValue, e.decoder.show, e.toValue(x));
  }

  /** A derived implementation rejects a value none of its variants carries,
      with the message naming its type and the value. */
  lemma DerivedRejects<V(!new), T(!new)>(e: ActiveEnum<V, T>, v: T)
    requires e.decoder.Derived? && forall x :: x in e.variants ==> e.toValue(x) != v
    ensures e.TryFromValue(v) == Err(Type(UnexpectedValue(e.decoder.ident, e.decoder.show(v))))
  {
    DecodeFirstPicksFirst(e.decoder.ident, e.variants, e.toValue, e.decoder.show, v);
  }

  /** A derived implementation is lawful whenever its variants carry distinct values. */
  lemma DerivedLawful<V(!new), T(!new)>(e: ActiveEnum<V, T>)
    requires e.decoder.Derived? && InjectiveOn(e.variants, e.toValue)
    ensures e.Lawful(e.decoder.ident, e.decoder.show)
  {
    forall x | x in e.variants ensures e.TryFromValue(e.toValue(x)) == Ok(x) {
      DerivedDecodes(e, x);
    }
    forall v | v !in e.Values() ensures e.TryFromValue(v) == Err(Type(UnexpectedValue(e.decoder.ident, e.decoder.show(v)))) {
      forall x | x in e.variants ensures e.toValue(x) != v {
        var i :| 0 <= i < |e.variants| && e.variants[i] == x;
        assert e.Values()[i] == e.toValue(x);
      }
      DerivedRejects(e, v);
    }
  }

  /** The round trip makes `to_value` injective on the variants. */
  lemma RoundTripInjective<V(!new), T(!new)>(e: ActiveEnum<V, T>)
    requires e.RoundTrips()
    ensures InjectiveOn(e.variants, e.toValue)
  {
    forall x, y | x in e.variants && y in e.variants && e.toValue(x) == e.toValue(y) ensures x == y {
      assert Ok(x) == e.TryFromValue(e.toValue(x)) == e.TryFromValue(e.toValue(y)) == Ok(y);
    }
  }

  /** So `values()` lists no value twice when `iter()` lists no variant twice. */
  lemma ValuesDistinct<V(!new), T(!new)>(e: ActiveEnum<V, T>)
    requires e.RoundTrips() && e.Enumerates()
    ensures forall i, j :: 0 <= i < j < |e.Values()| ==> e.Values()[i] != e.Values()[j]
  {
    RoundTripInjective(e);
  }

  /** The default `into_value` gives what `to_value` gives, for every enum. */
  lemma IntoValueIsToValue<V(!new), T(!new)>(e: ActiveEnum<V, T>, x: V)
    ensures e.IntoValue(x) == e.toValue(x)
  {
  }

  /** For a lawful enum, `into_value` is decoded back to its argument and is
      one of the enum's `values()`. */
  lemma IntoValueRoundTrip<V(!new), T(!new)>(e: ActiveEnum<V, T>, x: V)
    requires e.RoundTrips() && e.Enumerates()
    ensures e.TryFromValue(e.IntoValue(x)) == Ok(x)
    ensures e.IntoValue(x) in e.Values()
  {
    assert x in e.variants;
    var i :| 0 <= i < |e.variants| && e.variants[i] == x;
    assert e.Values()[i] == e.IntoValue(x);
  }

  /** Two implementations whose variants carry the same values in the same
      order have the same `values()`, whatever their variant types. */
  lemma SameEncodingSameValues<V1(!new), V2(!new), T(!new)>(e1: ActiveEnum<V1, T>, e2: ActiveEnum<V2, T>)
    requires |e1.variants| == |e2.variants|
    requires forall i :: 0 <= i < |e1.variants| ==> e1.toValue(e1.variants[i]) == e2.toValue(e2.variants[i])
    ensures e1.Values() == e2.Values()
  {
  }
}
