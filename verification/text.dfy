/** Decimal rendering of Java `long` values, as string concatenation
    (`"..." + id`) produces it in the error messages of the services.
 */
module Text {

  /** The character of a decimal digit. */
  function DigitChar(d: nat): (c: char)
    requires d < 10
    ensures '0' <= c <= '9'
  {
    "0123456789"[d]
  }

  /** The value of a decimal digit character. */
  function DigitValue(c: char): (d: nat)
    requires '0' <= c <= '9'
    ensures d < 10
    ensures DigitChar(d) == c
  {
    (c as int - '0' as int) as nat
  }

  predicate IsDigits(s: string) {
    forall i :: 0 <= i < |s| ==> '0' <= s[i] <= '9'
  }

  /** `Long.toString(n)` for a non-negative `n`: no leading zeros. */
  function NatToString(n: nat): (s: string)
    ensures |s| >= 1
    ensures IsDigits(s)
    decreases n
  {
    if n < 10 then [DigitChar(n)] else NatToString(n / 10) + [DigitChar(n % 10)]
  }

  /** `Long.toString(n)`: a leading minus sign for negative values. */
  function LongToString(n: int): (s: string)
    ensures |s| >= 1
  {
    if n < 0 then "-" + NatToString(-n) else NatToString(n)
  }

  /** Reads a string of decimal digits, most significant first. */
  function ParseDigits(s: string): nat
    requires IsDigits(s)
    decreases |s|
  {
    if |s| == 0 then 0
    else 10 * ParseDigits(s[..|s| - 1]) + DigitValue(s[|s| - 1])
  }

  /** `Long.parseLong` on the strings `LongToString` produces. */
  function ParseLong(s: string): int
  {
    if |s| > 0 && s[0] == '-' && IsDigits(s[1..]) then -(ParseDigits(s[1..]) as int)
    else if IsDigits(s) then ParseDigits(s)
    else 0
  }

  lemma {:induction false} ParseNatToString(n: nat)
    ensures ParseDigits(NatToString(n)) == n
    decreases n
  {
    if n >= 10 {
      var prefix := NatToString(n / 10);
      var s := prefix + [DigitChar(n % 10)];
      assert s[..|s| - 1] == prefix;
      ParseNatToString(n / 10);
    }
  }

  /** Parsing undoes rendering for a negative value. */
  lemma ParseNegativeToString(n: int)
    requires n < 0
    ensures ParseLong(LongToString(n)) == n
  {
    var digits := NatToString(-n);
    var s := "-" + digits;
    assert s[0] == '-';
    assert s[1..] == digits;
    ParseNatToString(-n);
    assert ParseLong(s) == -(ParseDigits(digits) as int);
  }

  /** Parsing undoes rendering for a non-negative value. */
  lemma ParseNonNegativeToString(n: int)
    requires n >= 0
    ensures ParseLong(LongToString(n)) == n
  {
    var s := NatToString(n);
    assert '0' <= s[0] <= '9';
    ParseNatToString(n);
  }

  /** Parsing undoes rendering, so the rendered id determines the id. */
  lemma ParseLongToString(n: int)
    ensures ParseLong(LongToString(n)) == n
  {
    if n < 0 {
      ParseNegativeToString(n);
    } else {
      ParseNonNegativeToString(n);
    }
  }

  /** Two messages built from one prefix and two ids are equal only when the
      ids are: every "not found" message names the id it was raised for. */
  lemma MessageIdentifiesId(prefix: string, a: int, b: int)
    requires prefix + LongToString(a) == prefix + LongToString(b)
    ensures a == b
  {
    var ma := prefix + LongToString(a);
    var mb := prefix + LongToString(b);
    assert ma[|prefix|..] == LongToString(a);
    assert mb[|prefix|..] == LongToString(b);
    ParseLongToString(a);
    ParseLongToString(b);
  }
}
