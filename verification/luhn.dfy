/**
 * The Luhn check-digit formula of ISO/IEC 7812-1, Annex B, as a specification:
 * walking from the last digit to the first, every second digit (starting with
 * the second-to-last) is doubled, a doubled value above 9 is replaced by
 * `(n % 10) + 1`, and the number passes when the sum is a multiple of 10.
 */
module Luhn {
  import opened CardText

  /** What one digit adds to the sum; the replacement `(n % 10) + 1` is `n - 9`. */
  function Contribution(d: nat, doubled: bool): (n: nat)
    requires d <= 9
    ensures n <= 9
    ensures !doubled ==> n == d
    ensures doubled ==> n == if d <= 4 then 2 * d else 2 * d - 9
  {
    if doubled then (if 2 * d > 9 then (2 * d) % 10 + 1 else 2 * d) else d
  }

  /** Different digits in the same position always add different amounts. */
  lemma ContributionInjective(d1: nat, d2: nat, doubled: bool)
    requires d1 <= 9 && d2 <= 9 && d1 != d2
    ensures Contribution(d1, doubled) != Contribution(d2, doubled)
  {
  }

  /** Position `i` is doubled when it is an odd distance from the last digit. */
  predicate IsDoubled(s: string, i: nat) {
    (|s| - 1 - i) % 2 == 1
  }

  /** The Luhn sum of the digits at positions `i` .. `|s| - 1`, each weighed by
      its distance from the end of the whole number. */
  function LuhnSumFrom(s: string, i: nat): (sum: nat)
    requires AllDigits(s) && i <= |s|
    ensures sum <= 9 * (|s| - i)
    decreases |s| - i
  {
    if i == |s| then 0
    else Contribution(DigitValue(s[i]), IsDoubled(s, i)) + LuhnSumFrom(s, i + 1)
  }

  function LuhnSum(s: string): nat
    requires AllDigits(s)
  {
    LuhnSumFrom(s, 0)
  }

  predicate LuhnValid(s: string)
    requires AllDigits(s)
  {
    LuhnSum(s) % 10 == 0
  }

  /** Changing the digit at position `k` (and nothing else) changes the sum by the
      difference of that position's two contributions. */
  lemma {:induction false} LuhnSumFromOneChange(s: string, t: string, k: nat, i: nat)
    requires AllDigits(s) && AllDigits(t) && |s| == |t|
    requires i <= k < |s|
    requires forall j :: 0 <= j < |s| && j != k ==> s[j] == t[j]
    ensures LuhnSumFrom(s, i) - LuhnSumFrom(t, i)
         == Contribution(DigitValue(s[k]), IsDoubled(s, k)) - Contribution(DigitValue(t[k]), IsDoubled(t, k))
    decreases k - i
  {
    if i < k {
      LuhnSumFromOneChange(s, t, k, i + 1);
    } else {
      LuhnSumFromSame(s, t, k + 1);
    }
  }

  /** Two numbers of equal length that agree from position `i` on have equal sums from `i`. */
  lemma {:induction false} LuhnSumFromSame(s: string, t: string, i: nat)
    requires AllDigits(s) && AllDigits(t) && |s| == |t| && i <= |s|
    requires forall j :: i <= j < |s| ==> s[j] == t[j]
    ensures LuhnSumFrom(s, i) == LuhnSumFrom(t, i)
    decreases |s| - i
  {
    if i < |s| {
      LuhnSumFromSame(s, t, i + 1);
    }
  }

  /** A single mistyped digit is always detected: if `s` passes, every number that
      differs from it in exactly one digit fails. */
  lemma SingleDigitErrorDetected(s: string, t: string, k: nat)
    requires AllDigits(s) && AllDigits(t) && |s| == |t|
    requires k < |s| && s[k] != t[k]
    requires forall j :: 0 <= j < |s| && j != k ==> s[j] == t[j]
    requires LuhnValid(s)
    ensures !LuhnValid(t)
  {
    LuhnSumFromOneChange(s, t, k, 0);
    var ds, dt := DigitValue(s[k]), DigitValue(t[k]);
    assert ds != dt by {
      assert DigitTable[ds] == s[k] && DigitTable[dt] == t[k];
    }
    ContributionInjective(ds, dt, IsDoubled(s, k));
    NonzeroSmallDifference(LuhnSum(s), LuhnSum(t));
  }

  /** Two multiples of 10 are equal or at least 10 apart. */
  lemma NonzeroSmallDifference(a: int, b: int)
    requires a % 10 == 0 && a != b && -9 <= a - b <= 9
    ensures b % 10 != 0
  {
  }

  /** Hence the check digit of a number is unique: two numbers that pass and differ
      at most in their last digit are equal. */
  lemma CheckDigitUnique(s: string, t: string)
    requires AllDigits(s) && AllDigits(t) && |s| == |t| > 0
    requires s[..|s| - 1] == t[..|t| - 1]
    requires LuhnValid(s) && LuhnValid(t)
    ensures s == t
  {
    var k := |s| - 1;
    if s[k] != t[k] {
      forall j | 0 <= j < |s| && j != k
        ensures s[j] == t[j]
      {
        assert s[j] == s[..k][j] && t[j] == t[..k][j];
      }
      SingleDigitErrorDetected(s, t, k);
    }
  }
}
