/** The few `java.lang.String` / `java.lang.Long` operations the library relies
    on, restricted to what the model needs: ASCII lower-casing, character
    replacement and the decimal form of a `long`. */
module JavaStrings {

  /** ASCII case mapping of one character (`Character.toLowerCase` restricted to 'A'..'Z'). */
  function LowerChar(c: char): char {
    if 'A' <= c <= 'Z' then (c as int + 32) as char else c
  }

  predicate IsUpper(c: char) {
    'A' <= c <= 'Z'
  }

  /** `String.toLowerCase()` on ASCII text: same length, each character lowered. */
  function ToLowerCase(s: string): (r: string)
    ensures |r| == |s|
    ensures forall i :: 0 <= i < |s| ==> r[i] == LowerChar(s[i])
    ensures forall i :: 0 <= i < |r| ==> !IsUpper(r[i])
  {
    if s == [] then [] else [LowerChar(s[0])] + ToLowerCase(s[1..])
  }

  /** `String.replace(char, char)`: every occurrence of `target` becomes `replacement`. */
  function Replace(s: string, target: char, replacement: char): (r: string)
    ensures |r| == |s|
    ensures forall i :: 0 <= i < |s| ==> r[i] == (if s[i] == target then replacement else s[i])
    ensures target != replacement ==> forall i :: 0 <= i < |r| ==> r[i] != target
  {
    if s == [] then []
    else [if s[0] == target then replacement else s[0]] + Replace(s[1..], target, replacement)
  }

  // ---------------------------------------------------------------------
  // Decimal form of a Java long (`Long.toString`)
  // ---------------------------------------------------------------------

  const MinLong: int := -0x8000_0000_0000_0000
  const MaxLong: int := 0x7FFF_FFFF_FFFF_FFFF

  /** A value of Java's 64-bit `long`. */
  type Long = n: int | MinLong <= n <= MaxLong

  function DigitChar(d: nat): char
    requires d < 10
  {
    ('0' as int + d) as char
  }

  predicate IsDigit(c: char) {
    '0' <= c <= '9'
  }

  predicate AllDigits(s: string) {
    forall i :: 0 <= i < |s| ==> IsDigit(s[i])
  }

  /** Decimal digits of a natural number, most significant first, no leading zero. */
  function NatToDecimal(n: nat): (s: string)
    ensures |s| >= 1
    ensures AllDigits(s)
    ensures s[0] == '0' ==> n == 0 && s == "0"
  {
    if n < 10 then [DigitChar(n)] else NatToDecimal(n / 10) + [DigitChar(n % 10)]
  }

  /** `Long.toString(n)`: a leading '-' for negative values, then the digits of |n|. */
  function LongToString(n: Long): (s: string)
    ensures n >= 0 ==> AllDigits(s)
    ensures n < 0 ==> |s| >= 2 && s[0] == '-' && AllDigits(s[1..])
  {
    if n < 0 then "-" + NatToDecimal(-(n as int)) else NatToDecimal(n)
  }

  /** The value denoted by a string of decimal digits (the reference reading of `NatToDecimal`). */
  function DecimalValue(s: string): nat
    requires AllDigits(s)
  {
    if s == [] then 0 else 10 * DecimalValue(s[..|s| - 1]) + (s[|s| - 1] as int - '0' as int)
  }

  /** The value denoted by an optionally signed decimal string (`Long.parseLong` on well-formed input). */
  function SignedDecimalValue(s: string): int
    requires AllDigits(s) || (|s| >= 1 && s[0] == '-' && AllDigits(s[1..]))
  {
    if |s| >= 1 && s[0] == '-' then -(DecimalValue(s[1..]) as int) else DecimalValue(s)
  }

  /** Reading back the digits of `n` gives `n`. */
  lemma {:induction false} NatToDecimalRoundTrip(n: nat)
    ensures DecimalValue(NatToDecimal(n)) == n
  {
    if n >= 10 {
      NatToDecimalRoundTrip(n / 10);
      var s := NatToDecimal(n / 10);
      var t := s + [DigitChar(n % 10)];
      assert t[..|t| - 1] == s;
    }
  }

  /** `Long.toString` loses nothing: parsing its output gives the number back. */
  lemma LongToStringRoundTrip(n: Long)
    ensures SignedDecimalValue(LongToString(n)) == n
  {
    if n < 0 {
      NatToDecimalRoundTrip(-(n as int));
      assert LongToString(n)[1..] == NatToDecimal(-(n as int));
    } else {
      NatToDecimalRoundTrip(n);
    }
  }
}
