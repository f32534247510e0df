/**
 * Variable names: the decimal rendering of indexes (anonymous names are
 * `__<index>__`), the numeric-name test that user names must fail, and the
 * signature string a constraint is deduplicated by.
 */
module Names {

  function DigitChar(d: nat): char
    requires d < 10
  {
    "0123456789"[d]
  }

  predicate IsDigit(c: char) { '0' <= c <= '9' }

  function DigitVal(c: char): nat
    requires IsDigit(c)
  {
    (c - '0') as nat
  }

  predicate AllDigits(s: string)
  {
    forall i :: 0 <= i < |s| ==> IsDigit(s[i])
  }

  /** String(n) for a non-negative integer: decimal, no leading zero. */
  function DecimalString(n: nat): (s: string)
    ensures |s| >= 1 && AllDigits(s)
    ensures s[0] == '0' ==> n == 0 && s == "0"
    decreases n
  {
    if n < 10 then [DigitChar(n)] else DecimalString(n / 10) + [DigitChar(n % 10)]
  }

  /** The value of a string of decimal digits. */
  function DigitsValue(s: string): nat
    requires AllDigits(s)
    decreases |s|
  {
    if s == [] then 0 else DigitsValue(s[..|s| - 1]) * 10 + DigitVal(s[|s| - 1])
  }

  lemma DigitRoundTrip(d: nat)
    requires d < 10
    ensures IsDigit(DigitChar(d)) && DigitVal(DigitChar(d)) == d
  {
  }

  /** Reading a rendered number back gives the number. */
  lemma {:induction false} DecimalRoundTrip(n: nat)
    ensures DigitsValue(DecimalString(n)) == n
    decreases n
  {
    var s := DecimalString(n);
    if n < 10 {
      DigitRoundTrip(n);
      assert s[..0] == [];
    } else {
      DecimalRoundTrip(n / 10);
      DigitRoundTrip(n % 10);
      assert s[..|s| - 1] == DecimalString(n / 10);
    }
  }

  /** Different numbers render differently. */
  lemma DecimalInjective(m: nat, n: nat)
    requires DecimalString(m) == DecimalString(n)
    ensures m == n
  {
    DecimalRoundTrip(m);
    DecimalRoundTrip(n);
  }

  /** The name an anonymous variable gets: its index between double underscores. */
  function AnonName(i: nat): (s: string)
    ensures |s| >= 5 && s[..2] == "__" && s[|s| - 2..] == "__"
  {
    "__" + DecimalString(i) + "__"
  }

  /** Anonymous names of different indexes differ. */
  lemma AnonNameInjective(i: nat, j: nat)
    requires AnonName(i) == AnonName(j)
    ensures i == j
  {
    var s, t := AnonName(i), AnonName(j);
    assert s[2..|s| - 2] == DecimalString(i);
    assert t[2..|t| - 2] == DecimalString(j);
    DecimalInjective(i, j);
  }

  /**
   * 2^53: every integer of at most this magnitude is a double, so parseInt
   * reads its digits exactly and String renders it back digit for digit.
   */
  const MAX_EXACT_INT: nat := 9007199254740992

  /** An unsigned decimal without a leading zero whose value is at most MAX_EXACT_INT (sixteen digits at most). */
  predicate IsCanonicalDigits(s: string)
  {
    1 <= |s| <= 16 && AllDigits(s) && (s[0] == '0' ==> |s| == 1) && DigitsValue(s) <= MAX_EXACT_INT
  }

  /**
   * String(parseInt(s, 10)) === s: s is "NaN" (what parseInt returns when
   * there is no digit) or the canonical rendering of an integer, with a minus
   * sign only before a non-zero value.
   */
  predicate IsNumericName(s: string)
  {
    s == "NaN"
    || IsCanonicalDigits(s)
    || (|s| >= 2 && s[0] == '-' && IsCanonicalDigits(s[1..]) && s[1] != '0')
  }

  function Pow10(k: nat): nat
  {
    if k == 0 then 1 else 10 * Pow10(k - 1)
  }

  lemma Pow10Sixteen()
    ensures Pow10(16) == 10000000000000000
  {
    assert Pow10(4) == 10000;
    assert Pow10(8) == 100000000;
    assert Pow10(12) == 1000000000000;
  }

  lemma {:induction false} DecimalLength(n: nat, k: nat)
    requires n < Pow10(k) && k >= 1
    ensures |DecimalString(n)| <= k
    decreases k
  {
    if n >= 10 {
      assert k >= 2;
      DecimalLength(n / 10, k - 1);
    }
  }

  /** Every number up to MAX_EXACT_INT, rendered, is refused as a variable name. */
  lemma RenderedNumberIsNumeric(n: nat)
    requires n <= MAX_EXACT_INT
    ensures IsNumericName(DecimalString(n))
  {
    Pow10Sixteen();
    DecimalLength(n, 16);
    DecimalRoundTrip(n);
  }

  /** An anonymous name never looks like a number. */
  lemma AnonNameNotNumeric(i: nat)
    ensures !IsNumericName(AnonName(i))
  {
    var s := AnonName(i);
    assert s[0] == '_';
  }

  function Join(parts: seq<string>, sep: string): string
    decreases |parts|
  {
    if parts == [] then ""
    else if |parts| == 1 then parts[0]
    else Join(parts[..|parts| - 1], sep) + sep + parts[|parts| - 1]
  }

  /** The signature a constraint is deduplicated by: its op, '|', its operand names joined by ','. */
  function ConstraintKey(op: string, names: seq<string>): (k: string)
    ensures |k| > |op| && k[..|op| + 1] == op + "|"
  {
    op + "|" + Join(names, ",")
  }
}
