/** Printing a count in decimal and reading it back. */
module Decimal {
  import opened Wrappers

  /** One more than the largest `usize` of a 64-bit target. */
  const USIZE_LIMIT: nat := 0x1_0000_0000_0000_0000

  predicate IsDigit(c: char) {
    '0' <= c <= '9'
  }

  function Digit(d: nat): (c: char)
    requires d < 10
    ensures IsDigit(c)
  {
    '0' + d as char
  }

  function DigitValue(c: char): (d: nat)
    requires IsDigit(c)
    ensures d < 10
  {
    (c - '0') as int
  }

  function Print(n: nat): (s: string)
    ensures |s| > 0 && forall i :: 0 <= i < |s| ==> IsDigit(s[i])
  {
    if n < 10 then [Digit(n)] else Print(n / 10) + [Digit(n % 10)]
  }

  /** The value of the first k characters: digits only, and every intermediate value fits. */
  function ParseUpTo(s: string, k: nat): Option<nat>
    requires k <= |s|
  {
    if k == 0 then Some(0)
    else
      match ParseUpTo(s, k - 1)
      case None => None
      case Some(high) =>
        if !IsDigit(s[k - 1]) || 10 * high + DigitValue(s[k - 1]) >= USIZE_LIMIT then None
        else Some(10 * high + DigitValue(s[k - 1]))
  }

  /** As `str::parse::<usize>`: one leading plus is skipped, and something must follow. */
  function Parse(s: string): Option<nat> {
    var digits := if |s| > 0 && s[0] == '+' then s[1..] else s;
    if digits == [] then None else ParseUpTo(digits, |digits|)
  }

  // ----- What is parsed -----

  predicate AllDigits(s: string) {
    forall i :: 0 <= i < |s| ==> IsDigit(s[i])
  }

  /** The number the first k digits write. */
  function ValueUpTo(s: string, k: nat): nat
    requires k <= |s| && AllDigits(s)
  {
    if k == 0 then 0 else 10 * ValueUpTo(s, k - 1) + DigitValue(s[k - 1])
  }

  function Value(s: string): nat
    requires AllDigits(s)
  {
    ValueUpTo(s, |s|)
  }

  lemma {:induction false} DigitsParse(s: string, k: nat)
    requires k <= |s| && AllDigits(s)
    ensures ParseUpTo(s, k) == if ValueUpTo(s, k) < USIZE_LIMIT then Some(ValueUpTo(s, k)) else None
  {
    if k > 0 {
      DigitsParse(s, k - 1);
    }
  }

  lemma {:induction false} OthersFail(s: string, k: nat, i: nat)
    requires i < k <= |s| && !IsDigit(s[i])
    ensures ParseUpTo(s, k).None?
  {
    if i < k - 1 {
      OthersFail(s, k - 1, i);
    }
  }

  /** A numeral: digits, with at most one plus in front. */
  predicate Writes(s: string, n: nat) {
    var digits := if |s| > 0 && s[0] == '+' then s[1..] else s;
    digits != [] && AllDigits(digits) && Value(digits) == n
  }

  /** Parsing accepts exactly the numerals of machine words, with the number they write. */
  lemma ParseExactly(s: string, n: nat)
    ensures Parse(s) == Some(n) <==> Writes(s, n) && n < USIZE_LIMIT
  {
    var digits := if |s| > 0 && s[0] == '+' then s[1..] else s;
    if AllDigits(digits) {
      DigitsParse(digits, |digits|);
    } else {
      var i :| 0 <= i < |digits| && !IsDigit(digits[i]);
      OthersFail(digits, |digits|, i);
    }
  }

  // ----- What is printed -----

  lemma {:induction false} SamePrefixSameValue(s: string, t: string, k: nat)
    requires k <= |s| && k <= |t| && s[..k] == t[..k] && AllDigits(s) && AllDigits(t)
    ensures ValueUpTo(s, k) == ValueUpTo(t, k)
  {
    if k > 0 {
      assert s[k - 1] == s[..k][k - 1] && t[k - 1] == t[..k][k - 1];
      assert s[..k - 1] == s[..k][..k - 1] && t[..k - 1] == t[..k][..k - 1];
      SamePrefixSameValue(s, t, k - 1);
    }
  }

  lemma {:induction false} PrintedValue(n: nat)
    ensures Value(Print(n)) == n
  {
    if n >= 10 {
      PrintedValue(n / 10);
      var k := |Print(n / 10)|;
      assert Print(n)[..k] == Print(n / 10)[..k];
      SamePrefixSameValue(Print(n), Print(n / 10), k);
    } else {
      assert ValueUpTo([Digit(n)], 0) == 0;
    }
  }

  /** Printing and parsing undo each other. */
  lemma PrintParse(n: nat)
    requires n < USIZE_LIMIT
    ensures Parse(Print(n)) == Some(n)
  {
    PrintedValue(n);
    assert IsDigit(Print(n)[0]);
    ParseExactly(Print(n), n);
  }

  lemma PrintInjective(m: nat, n: nat)
    requires m < USIZE_LIMIT && n < USIZE_LIMIT && Print(m) == Print(n)
    ensures m == n
  {
    PrintParse(m);
    PrintParse(n);
  }
}
