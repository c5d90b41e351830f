/** Bytes of emitted C-string literals and the decimal spelling of sizes and offsets. */
module Ascii {

  /** One byte of a `[u8; N]` literal. */
  type byte = x: int | 0 <= x < 256

  const NUL: byte := 0
  const ZERO: byte := 48   // b'0'
  const COLON: byte := 58  // b':'
  const AT: byte := 64     // b'@'
  const HASH: byte := 35   // b'#'
  const LOWER_V: byte := 118  // b'v'

  predicate IsDigit(b: byte) {
    ZERO <= b <= ZERO + 9
  }

  predicate AllDigits(s: seq<byte>) {
    forall i :: 0 <= i < |s| ==> IsDigit(s[i])
  }

  /** The bytes of an ASCII string. */
  function AsciiBytes(s: string): (r: seq<byte>)
    requires forall i :: 0 <= i < |s| ==> s[i] as int < 128
    ensures |r| == |s|
    ensures forall i :: 0 <= i < |r| ==> r[i] == s[i] as int
  {
    seq(|s|, i requires 0 <= i < |s| => s[i] as int)
  }

  /** The decimal ASCII spelling of a `usize`: most significant digit first, no sign, no
      leading zero (`ToAsciiHack::STR`, whose length is `ToAsciiHack::LEN`). */
  function Decimal(n: nat): (r: seq<byte>)
    ensures 1 <= |r|
    ensures AllDigits(r)
    ensures r[0] == ZERO ==> n == 0 && |r| == 1
    decreases n
  {
    if n < 10 then [ZERO + n] else Decimal(n / 10) + [ZERO + n % 10]
  }

  /** The number a string of decimal digits denotes; the reading direction of `Decimal`. */
  function DigitsValue(s: seq<byte>): nat
    requires AllDigits(s)
    decreases |s|
  {
    if s == [] then 0 else DigitsValue(s[..|s| - 1]) * 10 + (s[|s| - 1] - ZERO)
  }

  /** A canonical decimal spelling: non-empty, all digits, and no leading zero unless it is "0". */
  predicate Canonical(s: seq<byte>) {
    1 <= |s| && AllDigits(s) && (s[0] == ZERO ==> |s| == 1)
  }

  /** Reading back the spelling of `n` gives `n`. */
  lemma {:induction false} DecimalRoundTrip(n: nat)
    ensures DigitsValue(Decimal(n)) == n
    decreases n
  {
    if n >= 10 {
      var s := Decimal(n);
      DecimalRoundTrip(n / 10);
      assert s[..|s| - 1] == Decimal(n / 10);
    }
  }

  lemma {:induction false} CanonicalPositive(s: seq<byte>)
    requires Canonical(s) && s[0] != ZERO
    ensures DigitsValue(s) > 0
    decreases |s|
  {
    if |s| > 1 {
      var p := s[..|s| - 1];
      assert p[0] == s[0];
      CanonicalPositive(p);
    }
  }

  /** Every canonical digit string is the spelling of the number it denotes, so `Decimal`
      produces exactly the canonical strings. */
  lemma {:induction false} CanonicalIsDecimal(s: seq<byte>)
    requires Canonical(s)
    ensures Decimal(DigitsValue(s)) == s
    decreases |s|
  {
    if |s| > 1 {
      var p := s[..|s| - 1];
      assert p[0] == s[0];
      CanonicalPositive(p);
      CanonicalIsDecimal(p);
      var v := DigitsValue(s);
      var d := s[|s| - 1] - ZERO;
      assert v == DigitsValue(p) * 10 + d;
      assert v / 10 == DigitsValue(p) && v % 10 == d;
      assert s == p + [s[|s| - 1]];
    }
  }

  /** Distinct numbers have distinct spellings. */
  lemma DecimalInjective(m: nat, n: nat)
    requires Decimal(m) == Decimal(n)
    ensures m == n
  {
    DecimalRoundTrip(m);
    DecimalRoundTrip(n);
  }
}
