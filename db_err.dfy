/** Errors and results of the entity layer: the part of `DbErr` that active
    enums produce, and the `Result` that `try_from_value` returns. */
module DbErrors {

  /** `DbErr::Type(message)`: a database value could not be converted to the
      Rust type asked for. `DbErr` is defined outside the active-enum code;
      `Type` is the only kind active enums produce. */
  datatype DbErr = Type(message: string)

  datatype Result<T> = Ok(value: T) | Err(error: DbErr)

  /** The message of the error an active enum reports for a value none of its
      variants maps to: "unexpected value for <Ident> enum: <value>", where
      <Ident> is the Rust type name of the enum and <value> the value as Rust's
      `Display` prints it. */
  function UnexpectedValue(ident: string, shown: string): (msg: string)
    ensures |msg| == |"unexpected value for  enum: "| + |ident| + |shown|
    ensures msg[..21] == "unexpected value for "
    ensures msg[21..21 + |ident|] == ident && msg[21 + |ident|..28 + |ident|] == " enum: "
    ensures msg[28 + |ident|..] == shown
  {
    "unexpected value for " + ident + " enum: " + shown
  }

  /** For a fixed enum type, the message determines the value it prints. */
  lemma {:induction false} UnexpectedValueInjective(ident: string, a: string, b: string)
    ensures UnexpectedValue(ident, a) == UnexpectedValue(ident, b) ==> a == b
  {
    if UnexpectedValue(ident, a) == UnexpectedValue(ident, b) {
      assert a == UnexpectedValue(ident, a)[28 + |ident|..];
    }
  }
}
