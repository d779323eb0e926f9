/**
 * The string logic the stores use: the local part of an e-mail address
 * (`email.split('@')[0]`) and the decimal rendering of a millisecond
 * timestamp that is appended to a session token.
 */
module Text {

  /** `p` is a prefix of `s`. */
  predicate IsPrefix(p: string, s: string) {
    |p| <= |s| && s[..|p|] == p
  }

  /**
   * The first element of `email.split('@')`: the text before the first '@',
   * the whole string when there is none, and "" when `email` starts with '@'
   * (or is empty).
   */
  function LocalPart(email: string): (r: string)
    ensures IsPrefix(r, email)
    ensures '@' !in r
    ensures |r| == |email| || email[|r|] == '@'
  {
    if email == [] || email[0] == '@' then ""
    else [email[0]] + LocalPart(email[1..])
  }

  /** The three properties of LocalPart determine it: it is the only such prefix. */
  lemma LocalPartUnique(email: string, p: string)
    requires IsPrefix(p, email) && '@' !in p
    requires |p| == |email| || email[|p|] == '@'
    ensures p == LocalPart(email)
  {
  }

  /** An address without '@' is its own local part. */
  lemma LocalPartWithoutAt(email: string)
    requires '@' !in email
    ensures LocalPart(email) == email
  {
  }

  /** Taking the local part twice changes nothing. */
  lemma LocalPartIdempotent(email: string)
    ensures LocalPart(LocalPart(email)) == LocalPart(email)
  {
    LocalPartWithoutAt(LocalPart(email));
  }

  /** Every character of `s` is a decimal digit. */
  predicate IsDigits(s: string) {
    forall i :: 0 <= i < |s| ==> '0' <= s[i] <= '9'
  }

  function DigitChar(d: nat): (c: char)
    requires d < 10
    ensures '0' <= c <= '9'
  {
    ('0' as int + d) as char
  }

  function DigitValue(c: char): (d: nat)
    requires '0' <= c <= '9'
    ensures d < 10
  {
    c as int - '0' as int
  }

  /** How `'prefix' + n` renders a non-negative integer `n`: its decimal digits, without leading zeros. */
  function Decimal(n: nat): (s: string)
    ensures |s| >= 1 && IsDigits(s)
    ensures |s| == 1 || s[0] != '0'
  {
    if n < 10 then [DigitChar(n)] else Decimal(n / 10) + [DigitChar(n % 10)]
  }

  /** The value of a string of decimal digits (0 for the empty string). */
  function ParseDecimal(s: string): nat
    requires IsDigits(s)
  {
    if s == [] then 0 else 10 * ParseDecimal(s[..|s| - 1]) + DigitValue(s[|s| - 1])
  }

  /** Reading back the decimal rendering of `n` gives `n`. */
  lemma {:induction false} ParseDecimalOfDecimal(n: nat)
    ensures ParseDecimal(Decimal(n)) == n
  {
    var s := Decimal(n);
    if n >= 10 {
      assert s[..|s| - 1] == Decimal(n / 10);
      ParseDecimalOfDecimal(n / 10);
    }
  }
}
