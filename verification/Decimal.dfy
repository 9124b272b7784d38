/** Decimal rendering of natural numbers, as `String(n)` prints them. */
module Decimal {

  function DigitChar(d: nat): (c: char)
    requires d < 10
    ensures '0' <= c <= '9'
  {
    ['0', '1', '2', '3', '4', '5', '6', '7', '8', '9'][d]
  }

  predicate IsDigit(c: char) { '0' <= c <= '9' }

  function DigitValue(c: char): (d: nat)
    requires IsDigit(c)
    ensures d < 10 && DigitChar(d) == c
  {
    (c as int) - ('0' as int)
  }

  /** The digits of `n`, without leading zeros. */
  function Print(n: nat): (s: string)
    ensures s != [] && (forall i | 0 <= i < |s| :: IsDigit(s[i]))
    ensures |s| > 1 ==> s[0] != '0'
  {
    if n < 10 then [DigitChar(n)] else Print(n / 10) + [DigitChar(n % 10)]
  }

  /** The number a digit string denotes, leading zeros allowed. */
  function Value(s: string): nat
    requires forall i | 0 <= i < |s| :: IsDigit(s[i])
  {
    if s == [] then 0 else 10 * Value(s[..|s| - 1]) + DigitValue(s[|s| - 1])
  }

  lemma {:induction false} ValueOfPrint(n: nat)
    ensures Value(Print(n)) == n
  {
    if n < 10 {
      assert Print(n)[..0] == [];
    } else {
      ValueOfPrint(n / 10);
      assert Print(n)[..|Print(n)| - 1] == Print(n / 10);
    }
  }

  /** A digit string without a redundant leading zero. */
  predicate Canonical(s: string) {
    && s != [] && (forall i | 0 <= i < |s| :: IsDigit(s[i]))
    && (|s| > 1 ==> s[0] != '0')
  }

  lemma {:induction false} CanonicalIsPositive(s: string)
    requires Canonical(s) && s != "0"
    ensures Value(s) > 0
  {
    var last := |s| - 1;
    if last == 0 {
      assert s == [s[0]] && s[..0] == [];
    } else {
      PrefixIsCanonical(s);
      CanonicalIsPositive(s[..last]);
    }
  }

  lemma PrintStep(v: nat, d: nat)
    requires 0 < v && d < 10
    ensures Print(10 * v + d) == Print(v) + [DigitChar(d)]
  {
    assert (10 * v + d) / 10 == v && (10 * v + d) % 10 == d;
  }

  lemma PrefixIsCanonical(s: string)
    requires Canonical(s) && |s| > 1
    ensures Canonical(s[..|s| - 1]) && s[..|s| - 1] != "0"
  {
    assert s[..|s| - 1][0] == s[0];
  }

  lemma PrintOfDigit(s: string)
    requires Canonical(s) && |s| == 1
    ensures Print(Value(s)) == s
  {
    assert s[..0] == [];
  }

  lemma ValueStep(s: string)
    requires Canonical(s) && |s| > 1
    ensures Print(Value(s)) == Print(Value(s[..|s| - 1])) + [s[|s| - 1]]
  {
    PrefixIsCanonical(s);
    CanonicalIsPositive(s[..|s| - 1]);
    PrintStep(Value(s[..|s| - 1]), DigitValue(s[|s| - 1]));
  }

  /** Printing undoes reading on canonical digit strings. */
  lemma {:induction false} PrintOfValue(s: string)
    requires Canonical(s)
    ensures Print(Value(s)) == s
  {
    if |s| == 1 {
      PrintOfDigit(s);
    } else {
      ValueStep(s);
      PrefixIsCanonical(s);
      PrintOfValue(s[..|s| - 1]);
    }
  }
}
