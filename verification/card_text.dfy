/**
 * Character-level view of a card number: the decimal digits that the pattern's
 * `[0-9]` classes accept, the one-character conversion done by `Integer.parseInt`,
 * and the hyphen stripping done by `replaceAll("-", "")`.
 */
module CardText {

  /** A character accepted by the class `[0-9]`. */
  predicate IsDigit(c: char) {
    '0' <= c <= '9'
  }

  predicate AllDigits(s: string) {
    forall i :: 0 <= i < |s| ==> IsDigit(s[i])
  }

  /** The digits in order; `DigitValue` is the inverse of indexing this table. */
  const DigitTable: string := "0123456789"

  /** `Integer.parseInt` applied to a one-character string that holds a decimal digit. */
  function DigitValue(c: char): (d: nat)
    requires IsDigit(c)
    ensures d < |DigitTable| && DigitTable[d] == c
  {
    c as int - '0' as int
  }

  /** `replaceAll("-", "")`: every hyphen removed, every other character kept in order. */
  function StripHyphens(s: string): (r: string)
    ensures forall i :: 0 <= i < |r| ==> r[i] != '-'
    ensures |r| <= |s|
  {
    if s == [] then []
    else (if s[0] == '-' then [] else [s[0]]) + StripHyphens(s[1..])
  }

  /** A string without hyphens is left as it is. */
  lemma {:induction false} StripHyphensNoHyphens(s: string)
    requires forall i :: 0 <= i < |s| ==> s[i] != '-'
    ensures StripHyphens(s) == s
  {
    if s != [] {
      StripHyphensNoHyphens(s[1..]);
    }
  }

  /** Stripping twice is stripping once, so a second validation sees the same number. */
  lemma StripHyphensIdempotent(s: string)
    ensures StripHyphens(StripHyphens(s)) == StripHyphens(s)
  {
    StripHyphensNoHyphens(StripHyphens(s));
  }

  /** Stripping distributes over concatenation: together with the one-character case
      this fixes the result completely, so the kept characters keep their order. */
  lemma {:induction false} StripHyphensAppend(a: string, b: string)
    ensures StripHyphens(a + b) == StripHyphens(a) + StripHyphens(b)
  {
    if a != [] {
      assert (a + b)[1..] == a[1..] + b;
      StripHyphensAppend(a[1..], b);
    } else {
      assert a + b == b;
    }
  }

  /** A hyphen, wherever it stands, is dropped and joins its two sides. */
  lemma StripHyphensDropsHyphen(a: string, b: string)
    ensures StripHyphens(a + "-" + b) == StripHyphens(a) + StripHyphens(b)
  {
    StripHyphensAppend(a + "-", b);
    StripHyphensAppend(a, "-");
  }

  lemma StripHyphensChar(c: char)
    ensures StripHyphens([c]) == if c == '-' then [] else [c]
  {
  }

  /** Every character other than a hyphen is kept as many times as it occurs. */
  lemma {:induction false} StripHyphensMultiset(s: string)
    ensures multiset(StripHyphens(s)) == multiset(s)['-' := 0]
  {
    if s != [] {
      StripHyphensMultiset(s[1..]);
      assert s == [s[0]] + s[1..];
      assert multiset(s) == multiset([s[0]]) + multiset(s[1..]);
    }
  }
}
