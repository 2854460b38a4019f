/** Rust's fixed-width integer types, which back the integer active enums,
    and the decimal text that Rust's `Display` prints for them. */
module Integers {

  import opened Options
  import opened DbErrors

  newtype i8 = x: int | -0x80 <= x < 0x80
  newtype i16 = x: int | -0x8000 <= x < 0x8000
  newtype i32 = x: int | -0x8000_0000 <= x < 0x8000_0000
  newtype i64 = x: int | -0x8000_0000_0000_0000 <= x < 0x8000_0000_0000_0000

  newtype u8 = x: int | 0 <= x < 0x100
  newtype u16 = x: int | 0 <= x < 0x1_0000
  newtype u32 = x: int | 0 <= x < 0x1_0000_0000
  newtype u64 = x: int | 0 <= x < 0x1_0000_0000_0000_0000

  predicate IsDigit(c: char) {
    '0' as int <= c as int <= '9' as int
  }

  predicate AllDigits(s: string) {
    forall i :: 0 <= i < |s| ==> IsDigit(s[i])
  }

  function DigitChar(d: nat): (c: char)
    requires d < 10
    ensures IsDigit(c) && c as int - '0' as int == d
  {
    ['0', '1', '2', '3', '4', '5', '6', '7', '8', '9'][d]
  }

  /** The decimal digits of `n`, most significant first, without leading zeros. */
  function Digits(n: nat): (s: string)
    ensures 0 < |s| && AllDigits(s)
    ensures s[0] == '0' ==> n == 0
  {
    if n < 10 then [DigitChar(n)] else Digits(n / 10) + [DigitChar(n % 10)]
  }

  /** What `format!("{}", n)` prints for an integer: an optional minus sign
      followed by the digits of its magnitude. */
  function Decimal(n: int): (s: string)
    ensures 0 < |s|
    ensures (s[0] == '-') == (n < 0)
  {
    if n < 0 then "-" + Digits(-n) else Digits(n)
  }

  /** The number a string of decimal digits denotes. */
  function DigitsValue(s: string): (n: nat)
    requires AllDigits(s)
  {
    if s == [] then 0
    else
      var d: int := s[|s| - 1] as int - '0' as int;
      assert IsDigit(s[|s| - 1]);
      DigitsValue(s[..|s| - 1]) * 10 + d
  }

  /** Reads back what `Decimal` printed: a minus sign followed by digits, or
      digits alone. */
  function ParseDecimal(s: string): Option<int>
  {
    if |s| > 1 && s[0] == '-' && AllDigits(s[1..]) then
      Some(-(DigitsValue(s[1..]) as int))
    else if |s| > 0 && AllDigits(s) then
      Some(DigitsValue(s))
    else
      None
  }

  lemma {:induction false} DigitsValueOfDigits(n: nat)
    ensures DigitsValue(Digits(n)) == n
  {
    var s := Digits(n);
    if n >= 10 {
      DigitsValueOfDigits(n / 10);
      assert s[..|s| - 1] == Digits(n / 10);
    }
  }

  lemma ParseMinusDigits(d: string)
    requires 0 < |d| && AllDigits(d)
    ensures ParseDecimal("-" + d) == Some(-(DigitsValue(d) as int))
  {
    assert ("-" + d)[1..] == d;
  }

  lemma MinusDigitsRoundTrip(m: nat)
    requires 0 < m
    ensures ParseDecimal("-" + Digits(m)) == Some(-(m as int))
  {
    ParseMinusDigits(Digits(m));
    DigitsValueOfDigits(m);
  }

  lemma DigitsRoundTrip(m: nat)
    ensures ParseDecimal(Digits(m)) == Some(m as int)
  {
    assert IsDigit(Digits(m)[0]);
    DigitsValueOfDigits(m);
  }

  /** The decimal text of an integer determines it: `Decimal` has `ParseDecimal`
      as a left inverse, so two different values never print alike. */
  lemma DecimalRoundTrip(n: int)
    ensures ParseDecimal(Decimal(n)) == Some(n)
  {
    if n < 0 {
      var m: nat := -n;
      assert Decimal(n) == "-" + Digits(m);
      MinusDigitsRoundTrip(m);
    } else {
      DigitsRoundTrip(n);
    }
  }

  lemma DecimalInjective(m: int, n: int)
    ensures Decimal(m) == Decimal(n) ==> m == n
  {
    DecimalRoundTrip(m);
    DecimalRoundTrip(n);
  }

  /** The unexpected-value message of an integer enum names the rejected
      value: two different values never give the same message. */
  lemma MessageIdentifiesValue(ident: string, m: int, n: int)
    ensures UnexpectedValue(ident, Decimal(m)) == UnexpectedValue(ident, Decimal(n)) ==> m == n
  {
    UnexpectedValueInjective(ident, Decimal(m), Decimal(n));
    DecimalInjective(m, n);
  }
}
