/** The few JavaScript built-ins the weather app's helpers rely on: `null`/`undefined`
    as an optional value, `Number.prototype.toString()` on non-negative integers below
    10^21 and
    `String.prototype.padStart` with a one-character pad, and `String.prototype.length`.
    A Dafny string is a sequence of Unicode scalar values, while a JavaScript string is
    a sequence of UTF-16 code units: a character above U+FFFF is one element here and two
    code units there, and `Utf16Length` counts it as two. */
module Js {

  /** A value that may be `null` or `undefined`. */
  datatype Option<+T> = None | Some(value: T)

  predicate IsDigit(c: char) {
    '0' <= c <= '9'
  }

  predicate AllDigits(s: string) {
    forall i :: 0 <= i < |s| ==> IsDigit(s[i])
  }

  function DigitChar(d: nat): (c: char)
    requires d < 10
    ensures IsDigit(c)
  {
    ('0' as int + d) as char
  }

  function DigitValue(c: char): (d: nat)
    requires IsDigit(c)
    ensures d < 10 && DigitChar(d) == c
  {
    c as int - '0' as int
  }

  /** From 10^21 on, `toString()` writes a number in exponent form (`"1e+21"`). */
  const ExponentFormFrom: nat := 1_000_000_000_000_000_000_000

  /** `n.toString()` for a non-negative integer below 10^21: its decimal digits, most
      significant first, with no leading zero except for `0` itself. */
  function DecimalString(n: nat): (r: string)
    requires n < ExponentFormFrom
    ensures 1 <= |r| && AllDigits(r)
    ensures |r| == 1 <==> n < 10
    ensures r[0] == '0' ==> n == 0
    decreases n
  {
    if n < 10 then [DigitChar(n)] else DecimalString(n / 10) + [DigitChar(n % 10)]
  }

  /** The number a string of decimal digits denotes (leading zeros allowed). */
  function DecimalValue(s: string): (n: nat)
    requires AllDigits(s)
  {
    if s == [] then 0 else DecimalValue(s[..|s| - 1]) * 10 + DigitValue(s[|s| - 1])
  }

  /** Reading back what `toString()` wrote gives the number again. */
  lemma {:induction false} DecimalRoundTrip(n: nat)
    requires n < ExponentFormFrom
    ensures DecimalValue(DecimalString(n)) == n
    decreases n
  {
    var r := DecimalString(n);
    if n >= 10 {
      DecimalRoundTrip(n / 10);
      assert r[..|r| - 1] == DecimalString(n / 10);
    }
  }

  /** `s.padStart(targetLength, fill)`: `s` itself when it is already long enough,
      otherwise `s` preceded by as many `fill` characters as make it `targetLength` long. */
  function PadStart(s: string, targetLength: nat, fill: char): (r: string)
    ensures |r| == if |s| < targetLength then targetLength else |s|
    ensures r[|r| - |s|..] == s
    ensures forall i :: 0 <= i < |r| - |s| ==> r[i] == fill
  {
    if |s| >= targetLength then s else seq(targetLength - |s|, _ => fill) + s
  }

  /** The two decimal digits of a number below 100, with a leading zero below 10. */
  function TwoDigits(n: nat): (r: string)
    requires n < 100
    ensures |r| == 2 && AllDigits(r)
  {
    [DigitChar(n / 10), DigitChar(n % 10)]
  }

  /** `n.toString().padStart(2, "0")` for `n < 100` is exactly its two decimal digits. */
  lemma TwoDigitField(n: nat)
    requires n < 100
    ensures PadStart(DecimalString(n), 2, '0') == TwoDigits(n)
  {
    if n >= 10 {
      assert DecimalString(n) == DecimalString(n / 10) + [DigitChar(n % 10)];
    } else {
      assert DecimalString(n) == [DigitChar(n)];
      assert PadStart(DecimalString(n), 2, '0') == ['0'] + DecimalString(n);
    }
  }

  /** The number of UTF-16 code units that encode `c`: two (a surrogate pair) above U+FFFF. */
  function CodeUnits(c: char): (n: nat)
    ensures 1 <= n <= 2
    ensures n == 2 <==> c as int > 0xFFFF
  {
    if c as int > 0xFFFF then 2 else 1
  }

  /** `s.length`: the number of UTF-16 code units of `s`. */
  function Utf16Length(s: string): (n: nat)
    ensures |s| <= n <= 2 * |s|
  {
    if s == [] then 0 else CodeUnits(s[0]) + Utf16Length(s[1..])
  }

  /** Every character lies in the Basic Multilingual Plane. */
  predicate IsBmp(s: string) {
    forall i :: 0 <= i < |s| ==> s[i] as int <= 0xFFFF
  }

  /** A string without characters above U+FFFF has one code unit per character. */
  lemma {:induction false} BmpLength(s: string)
    requires IsBmp(s)
    ensures Utf16Length(s) == |s|
  {
    if s != [] {
      assert IsBmp(s[1..]);
      BmpLength(s[1..]);
    }
  }

  /** Beyond the Basic Multilingual Plane a character counts twice: one emoji has length 2. */
  lemma Utf16LengthAstral()
    ensures forall c: char :: c as int > 0xFFFF ==> Utf16Length([c]) == 2
    ensures |"\U{1F600}"| == 1 && Utf16Length("\U{1F600}") == 2
  {
    forall c: char | c as int > 0xFFFF
      ensures Utf16Length([c]) == 2
    {
      assert [c][1..] == [];
    }
  }
}
