/** Decimal text of non-negative integers, as a JavaScript template literal
    writes an array length or index into a string. */
module Text {

  predicate IsDigit(c: char) {
    '0' <= c <= '9'
  }

  predicate AllDigits(s: string) {
    forall i :: 0 <= i < |s| ==> IsDigit(s[i])
  }

  function DigitChar(d: nat): (c: char)
    requires d < 10
    ensures IsDigit(c)
  {
    (48 + d) as char
  }

  function DigitValue(c: char): (d: nat)
    requires IsDigit(c)
    ensures d < 10
  {
    (c as int) - 48
  }

  /** The decimal numeral of `n`: digits only, never empty, and with a
      leading '0' exactly when `n` is zero (no padding). */
  function Decimal(n: nat): (s: string)
    ensures s != [] && AllDigits(s)
    ensures (s[0] == '0') == (n == 0)
    decreases n
  {
    if n < 10 then [DigitChar(n)] else Decimal(n / 10) + [DigitChar(n % 10)]
  }

  /** Reads a string of digits back as a number (most significant digit first). */
  function ParseDecimal(s: string): (n: nat)
    requires AllDigits(s)
    decreases |s|
  {
    if s == [] then 0 else 10 * ParseDecimal(s[..|s| - 1]) + DigitValue(s[|s| - 1])
  }

  lemma {:induction false} ParseDecimalOfDecimal(n: nat)
    ensures ParseDecimal(Decimal(n)) == n
    decreases n
  {
    var s := Decimal(n);
    if n >= 10 {
      assert s[..|s| - 1] == Decimal(n / 10);
      ParseDecimalOfDecimal(n / 10);
    }
  }

  /** Different numbers are written differently. */
  lemma DecimalInjective(m: nat, n: nat)
    ensures Decimal(m) == Decimal(n) <==> m == n
  {
    ParseDecimalOfDecimal(m);
    ParseDecimalOfDecimal(n);
  }

  /** A common prefix can be cancelled: `p + s` determines `s`. */
  lemma {:induction false} PrefixCancels(p: string, s: string, t: string)
    ensures p + s == p + t <==> s == t
  {
    if p + s == p + t {
      assert s == (p + s)[|p|..];
      assert t == (p + t)[|p|..];
    }
  }

  /** A prefix followed by a number's decimal text names each number once:
      distinct numbers give distinct names under the same prefix. */
  lemma NumberedNameInjective(prefix: string, m: nat, n: nat)
    ensures prefix + Decimal(m) == prefix + Decimal(n) <==> m == n
  {
    PrefixCancels(prefix, Decimal(m), Decimal(n));
    DecimalInjective(m, n);
  }
}
