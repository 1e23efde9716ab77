/** Decimal printing and reading: the %d verb, strconv.Itoa and strconv.Atoi. */
module Decimal {
  import opened Wrappers

  predicate IsDigit(c: char) { '0' <= c <= '9' }

  predicate AllDigits(s: string) { forall i :: 0 <= i < |s| ==> IsDigit(s[i]) }

  function DigitChar(d: nat): (c: char)
    requires d < 10
    ensures IsDigit(c) && DigitValue(c) == d
  {
    '0' + d as char
  }

  function DigitValue(c: char): (d: nat)
    requires IsDigit(c)
    ensures d < 10
  {
    (c - '0') as nat
  }

  /** Shortest decimal form, no leading zero except for zero itself. */
  function Print(n: nat): (s: string)
    ensures |s| > 0 && AllDigits(s)
  {
    if n < 10 then [DigitChar(n)] else Print(n / 10) + [DigitChar(n % 10)]
  }

  /** Value of a run of digits, most significant first. */
  function Value(s: string): (v: int)
    requires AllDigits(s)
    ensures v >= 0
  {
    if s == "" then 0 else 10 * Value(s[..|s| - 1]) + DigitValue(s[|s| - 1])
  }

  lemma {:induction false} ValueOfPrint(n: nat)
    ensures Value(Print(n)) == n
  {
    var s := Print(n);
    if n < 10 {
      assert s[..0] == "";
    } else {
      assert s[..|s| - 1] == Print(n / 10);
      ValueOfPrint(n / 10);
    }
  }

  /** Two numbers that print alike are the same number. */
  lemma PrintInjective(a: nat, b: nat)
    requires Print(a) == Print(b)
    ensures a == b
  {
    ValueOfPrint(a);
    ValueOfPrint(b);
  }

  /** strconv.Atoi: an optional sign, then digits and nothing else. The int64 range
      check is not modelled. */
  function Atoi(s: string): Option<int> {
    var signed := |s| > 0 && (s[0] == '-' || s[0] == '+');
    var digits := if signed then s[1..] else s;
    if digits == "" || !AllDigits(digits) then None
    else if signed && s[0] == '-' then Some(-(Value(digits) as int))
    else Some(Value(digits))
  }

  /** Itoa and Atoi undo each other. */
  lemma AtoiOfPrint(n: nat)
    ensures Atoi(Print(n)) == Some(n)
  {
    ValueOfPrint(n);
    assert IsDigit(Print(n)[0]);
  }

  /** With a sign in front when it is negative. */
  function PrintInt(n: int): string { if n < 0 then "-" + Print(-n) else Print(n) }

  lemma AtoiOfPrintInt(n: int)
    ensures Atoi(PrintInt(n)) == Some(n)
  {
    if n < 0 {
      ValueOfPrint(-n);
      assert PrintInt(n)[1..] == Print(-n);
    } else {
      AtoiOfPrint(n);
    }
  }

  /** How many digits a string starts with: what a %d verb consumes. */
  function DigitRun(s: string): (k: nat)
    ensures k <= |s| && AllDigits(s[..k])
    ensures k < |s| ==> !IsDigit(s[k])
  {
    if s == "" || !IsDigit(s[0]) then 0
    else
      var k := 1 + DigitRun(s[1..]);
      assert forall i :: 1 <= i < k ==> s[i] == s[1..][..k - 1][i - 1];
      k
  }

  /** The digits of a printed number end where the text after it stops being digits. */
  lemma {:induction false} DigitRunStops(digits: string, rest: string)
    requires AllDigits(digits)
    requires rest == "" || !IsDigit(rest[0])
    ensures DigitRun(digits + rest) == |digits|
  {
    if digits == "" {
      assert digits + rest == rest;
    } else {
      assert (digits + rest)[1..] == digits[1..] + rest;
      DigitRunStops(digits[1..], rest);
    }
  }
}
