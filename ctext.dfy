/**
 * The character-level vocabulary that src/sql.c relies on: C strings,
 * glib's ASCII character classes, and the decimal text that printf's
 * `%i` produces for a non-negative int.
 */
module CText {

  /**
   * A C string, seen as the bytes before its terminating NUL: each character
   * stands for one `char` of the C string, so it is a non-NUL byte value.
   */
  type CString = s: string | '\0' !in s && forall c <- s :: c as int < 256

  /** strnlen(s, maxlen): the length of `s`, but at most `maxlen`. */
  function StrnLen(s: CString, maxlen: nat): nat
  {
    if |s| < maxlen then |s| else maxlen
  }

  /** g_ascii_isxdigit: an ASCII hexadecimal digit. */
  predicate IsXDigit(c: char)
  {
    ('0' <= c <= '9') || ('a' <= c <= 'f') || ('A' <= c <= 'F')
  }

  /** An ASCII decimal digit. */
  predicate IsDigit(c: char)
  {
    '0' <= c <= '9'
  }

  predicate AllDigits(s: string)
  {
    forall i :: 0 <= i < |s| ==> IsDigit(s[i])
  }

  /** The character of decimal digit `d`. */
  function DigitChar(d: nat): (c: char)
    requires d < 10
    ensures IsDigit(c) && c as int - '0' as int == d
  {
    ('0' as int + d) as char
  }

  /** The text that printf's `%i` gives for `n` (no sign, no leading zero). */
  function DecimalText(n: nat): (r: string)
    ensures |r| >= 1 && AllDigits(r)
    ensures r[0] == '0' ==> n == 0
  {
    if n < 10 then [DigitChar(n)] else DecimalText(n / 10) + [DigitChar(n % 10)]
  }

  /** The number a string of decimal digits denotes, most significant digit first. */
  function DigitsValue(d: string): nat
    requires AllDigits(d)
  {
    if d == [] then 0 else DigitsValue(d[..|d| - 1]) * 10 + (d[|d| - 1] as int - '0' as int)
  }

  /** Reading the decimal text of `n` back gives `n`. */
  lemma {:induction false} DigitsValueOfDecimalText(n: nat)
    ensures DigitsValue(DecimalText(n)) == n
  {
    if n >= 10 {
      var r := DecimalText(n);
      assert r[..|r| - 1] == DecimalText(n / 10);
      DigitsValueOfDecimalText(n / 10);
    }
  }
}
