/**
 The few pieces of Go's runtime and standard library that log_entry.go relies on,
 each given by its documented behaviour: 64-bit signed integers with wrapping
 subtraction, strings.IndexByte, strings.IndexAny, strconv.Itoa and
 strconv.FormatBool. Strings are sequences of characters standing for bytes.
 */
module GoLib {

  /** The values a Go `int64` can hold. */
  predicate InInt64Range(x: int) {
    -0x8000_0000_0000_0000 <= x < 0x8000_0000_0000_0000
  }

  /** Go's `int64`. */
  newtype int64 = x: int | InInt64Range(x)

  const Modulus64: int := 0x1_0000_0000_0000_0000

  /** Go's `a - b` on int64: two's-complement subtraction that wraps on overflow. */
  function Sub(a: int64, b: int64): (d: int64)
    ensures (d as int - (a as int - b as int)) % Modulus64 == 0
    ensures InInt64Range(a as int - b as int) ==> d as int == a as int - b as int
  {
    var t := (a as int - b as int) % Modulus64;
    (if t < 0x8000_0000_0000_0000 then t else t - Modulus64) as int64
  }

  /** strings.IndexByte: the index of the first `c` in `s`, or -1 when there is none. */
  function IndexByte(s: string, c: char): (i: int)
    ensures -1 <= i < |s|
    ensures i < 0 <==> c !in s
    ensures 0 <= i ==> s[i] == c && forall j :: 0 <= j < i ==> s[j] != c
  {
    if s == [] then -1
    else if s[0] == c then 0
    else
      var k := IndexByte(s[1..], c);
      if k < 0 then -1 else k + 1
  }

  /**
   strings.IndexAny: the index of the first character of `s` that occurs in
   `chars`, or -1 when there is none. For a set `chars` of ASCII characters the
   rune-wise search of the Go library finds the same byte index as this
   byte-wise one, since no byte of a multi-byte sequence is ASCII.
   */
  function IndexAny(s: string, chars: string): (i: int)
    ensures -1 <= i < |s|
    ensures i < 0 <==> forall j :: 0 <= j < |s| ==> s[j] !in chars
    ensures 0 <= i ==> s[i] in chars && forall j :: 0 <= j < i ==> s[j] !in chars
  {
    if s == [] then -1
    else if s[0] in chars then 0
    else
      var k := IndexAny(s[1..], chars);
      if k < 0 then -1 else k + 1
  }

  predicate IsDigit(ch: char) {
    '0' <= ch <= '9'
  }

  predicate AllDigits(s: string) {
    forall i :: 0 <= i < |s| ==> IsDigit(s[i])
  }

  function DigitChar(d: int): (ch: char)
    requires 0 <= d < 10
    ensures IsDigit(ch) && ch as int - '0' as int == d
  {
    ('0' as int + d) as char
  }

  /** The decimal digits of `n`, most significant first, without leading zeros. */
  function Decimal(n: nat): (s: string)
    ensures 1 <= |s| && AllDigits(s)
    ensures s[0] == '0' ==> n == 0
    decreases n
  {
    if n < 10 then [DigitChar(n)] else Decimal(n / 10) + [DigitChar(n % 10)]
  }

  /** strconv.Itoa: the decimal form of `n`, with a leading '-' when negative. */
  function Itoa(n: int): (s: string)
    ensures 1 <= |s|
    ensures s[0] == '-' <==> n < 0
  {
    if n < 0 then "-" + Decimal(-n) else Decimal(n)
  }

  /** The number a string of decimal digits denotes. */
  function DecimalValue(s: string): nat
    requires AllDigits(s)
  {
    if s == [] then 0 else DecimalValue(s[..|s| - 1]) * 10 + (s[|s| - 1] as int - '0' as int)
  }

  /** An optionally signed run of at least one decimal digit, as Itoa writes it. */
  predicate IsSignedDecimal(s: string) {
    if 0 < |s| && s[0] == '-' then 1 < |s| && AllDigits(s[1..]) else 0 < |s| && AllDigits(s)
  }

  /** Reads back a signed decimal: the inverse of Itoa. */
  function ParseSignedDecimal(s: string): int
    requires IsSignedDecimal(s)
  {
    if s[0] == '-' then -(DecimalValue(s[1..]) as int) else DecimalValue(s)
  }

  lemma {:induction false} DecimalRoundTrip(n: nat)
    ensures DecimalValue(Decimal(n)) == n
    decreases n
  {
    if n >= 10 {
      var s := Decimal(n);
      assert s[..|s| - 1] == Decimal(n / 10);
      DecimalRoundTrip(n / 10);
    }
  }

  /** Itoa loses nothing: its output reads back as the number it was given. */
  lemma ItoaRoundTrip(n: int)
    ensures IsSignedDecimal(Itoa(n))
    ensures ParseSignedDecimal(Itoa(n)) == n
  {
    if n < 0 {
      assert Itoa(n)[1..] == Decimal(-n);
      DecimalRoundTrip(-n);
    } else {
      DecimalRoundTrip(n);
    }
  }

  /** Distinct integers are rendered as distinct strings. */
  lemma ItoaInjective(a: int, b: int)
    requires Itoa(a) == Itoa(b)
    ensures a == b
  {
    ItoaRoundTrip(a);
    ItoaRoundTrip(b);
  }

  lemma ItoaOf200()
    ensures Itoa(200) == "200"
  {
  }

  /** strconv.FormatBool. */
  function FormatBool(b: bool): (s: string)
    ensures s == "true" || s == "false"
    ensures s == "true" <==> b
  {
    if b then "true" else "false"
  }
}
