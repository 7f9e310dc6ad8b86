/**
 * Issuer classification. The card pattern is one anchored regular expression
 * with a named alternative per issuer; `Branches` transcribes it as data,
 * `Shape` states each alternative as a hand-written predicate over the digits,
 * and `Classify` is the anchored match: the first alternative, in the
 * pattern's order, that matches the whole string.
 */
module Issuers {
  import opened Wrappers
  import opened CardText

  datatype Issuer = Visa | Mastercard | Discover | Amex | Diners | Jcb

  /** The issuer names, in the order of the pattern's named groups. */
  const IssuerNames: seq<string> := ["visa", "mastercard", "discover", "amex", "diners", "jcb"]

  /** Zero-based position of the issuer's named group in the pattern. */
  function GroupIndex(k: Issuer): (i: nat)
    ensures i < |IssuerNames|
  {
    match k
    case Visa => 0
    case Mastercard => 1
    case Discover => 2
    case Amex => 3
    case Diners => 4
    case Jcb => 5
  }

  function Name(k: Issuer): string {
    IssuerNames[GroupIndex(k)]
  }

  /** The issuer of the `i`-th named group (zero-based). */
  function IssuerNameAt(i: nat): (k: Issuer)
    requires i < |IssuerNames|
    ensures GroupIndex(k) == i && Name(k) == IssuerNames[i]
  {
    [Visa, Mastercard, Discover, Amex, Diners, Jcb][i]
  }

  /** No two issuers share a name, so a group name identifies its issuer. */
  lemma NameInjective(a: Issuer, b: Issuer)
    requires Name(a) == Name(b)
    ensures a == b
  {
  }

  // ---------------------------------------------------------------------------
  // The pattern as data

  /** A character class of the pattern, as a list of inclusive ranges;
      a literal character `c` is the class `[c-c]`. */
  type Class = seq<(char, char)>

  predicate InClass(cls: Class, c: char) {
    exists j :: 0 <= j < |cls| && cls[j].0 <= c <= cls[j].1
  }

  function Lit(c: char): Class { [(c, c)] }

  const AnyDigit: Class := [('0', '9')]

  function Digits(n: nat): seq<Class> { seq(n, _ => AnyDigit) }

  /** Every alternative has a fixed length once its optional groups are resolved,
      so such a branch matches a whole string exactly when the lengths agree and
      each character lies in the class at its position. */
  predicate BranchMatches(branch: seq<Class>, s: string) {
    |branch| == |s| && forall i :: 0 <= i < |s| ==> InClass(branch[i], s[i])
  }

  /** The branches of each named alternative; an optional group `(?:X)?` and an
      alternation `(?:X|Y)` each give one branch per choice. */
  function Branches(k: Issuer): (r: seq<seq<Class>>)
  {
    match k
    // 4[0-9]{12}(?:[0-9]{3})?
    case Visa => [[Lit('4')] + Digits(12), [Lit('4')] + Digits(12) + Digits(3)]
    // 5[1-5][0-9]{14}
    case Mastercard => [[Lit('5'), [('1', '5')]] + Digits(14)]
    // 6(?:011|5[0-9]{2})[0-9]{12}
    case Discover => [[Lit('6'), Lit('0'), Lit('1'), Lit('1')] + Digits(12),
                      [Lit('6'), Lit('5')] + Digits(2) + Digits(12)]
    // 3[47][0-9]{13}
    case Amex => [[Lit('3'), [('4', '4'), ('7', '7')]] + Digits(13)]
    // 3(?:0[0-5]|[68][0-9])?[0-9]{11}
    case Diners => [[Lit('3')] + Digits(11),
                    [Lit('3'), Lit('0'), [('0', '5')]] + Digits(11),
                    [Lit('3'), [('6', '6'), ('8', '8')], AnyDigit] + Digits(11)]
    // (?:2131|1800|35[0-9]{3})[0-9]{11}
    case Jcb => [[Lit('2'), Lit('1'), Lit('3'), Lit('1')] + Digits(11),
                 [Lit('1'), Lit('8'), Lit('0'), Lit('0')] + Digits(11),
                 [Lit('3'), Lit('5')] + Digits(3) + Digits(11)]
  }

  /** The issuer's named alternative matches the whole string. */
  predicate PatternMatches(k: Issuer, s: string)
  {
    exists b :: b in Branches(k) && BranchMatches(b, s)
  }

  /** Every alternative matches only strings of 12 to 16 characters. */
  lemma PatternLength(k: Issuer, s: string)
    requires PatternMatches(k, s)
    ensures 12 <= |s| <= 16
  {
    var b :| b in Branches(k) && BranchMatches(b, s);
  }

  // ---------------------------------------------------------------------------
  // The same alternatives, written by hand

  /** The shape of issuer `k`: all decimal digits, with the issuer's lengths and
      leading digits. */
  predicate Shape(k: Issuer, s: string)
    ensures Shape(k, s) ==> 12 <= |s| <= 16 && '1' <= s[0] <= '6'
  {
    AllDigits(s) &&
    match k
    case Visa => (|s| == 13 || |s| == 16) && s[0] == '4'
    case Mastercard => |s| == 16 && s[0] == '5' && '1' <= s[1] <= '5'
    case Discover => |s| == 16 && (s[..4] == "6011" || s[..2] == "65")
    case Amex => |s| == 15 && (s[..2] == "34" || s[..2] == "37")
    case Diners =>
      (|s| == 12 && s[0] == '3')
      || (|s| == 14 && s[0] == '3' && ((s[1] == '0' && s[2] <= '5') || s[1] == '6' || s[1] == '8'))
    case Jcb =>
      (|s| == 15 && (s[..4] == "2131" || s[..4] == "1800"))
      || (|s| == 16 && s[..2] == "35")
  }

  // ---------------------------------------------------------------------------
  // The hand-written shapes are the pattern's alternatives

  lemma RangeClass(lo: char, hi: char, c: char)
    ensures InClass([(lo, hi)], c) <==> lo <= c <= hi
  {
    if lo <= c <= hi {
      assert [(lo, hi)][0].0 <= c <= [(lo, hi)][0].1;
    }
  }

  lemma PairClass(a: char, b: char, c: char)
    ensures InClass([(a, a), (b, b)], c) <==> c == a || c == b
  {
    var cls := [(a, a), (b, b)];
    if c == a {
      assert cls[0].0 <= c <= cls[0].1;
    } else if c == b {
      assert cls[1].0 <= c <= cls[1].1;
    }
  }

  /** A branch whose classes from position `p` on are all `[0-9]` matches there
      exactly the digits. */
  lemma DigitTail(branch: seq<Class>, p: nat, s: string)
    requires |branch| == |s| && p <= |s|
    requires forall i :: p <= i < |s| ==> branch[i] == AnyDigit
    ensures (forall i :: p <= i < |s| ==> InClass(branch[i], s[i]))
        <==> (forall i :: p <= i < |s| ==> IsDigit(s[i]))
  {
    forall i | p <= i < |s| {
      RangeClass('0', '9', s[i]);
    }
  }

  lemma VisaPattern(s: string)
    ensures Shape(Visa, s) <==> PatternMatches(Visa, s)
  {
    var b0, b1 := [Lit('4')] + Digits(12), [Lit('4')] + Digits(12) + Digits(3);
    assert Branches(Visa) == [b0, b1];
    if |s| == 13 || |s| == 16 {
      var b := if |s| == 13 then b0 else b1;
      RangeClass('4', '4', s[0]);
      DigitTail(b, 1, s);
      assert Shape(Visa, s) <==> BranchMatches(b, s);
    }
  }

  lemma MastercardPattern(s: string)
    ensures Shape(Mastercard, s) <==> PatternMatches(Mastercard, s)
  {
    var b := [Lit('5'), [('1', '5')]] + Digits(14);
    assert Branches(Mastercard) == [b];
    if |s| == 16 {
      RangeClass('5', '5', s[0]);
      RangeClass('1', '5', s[1]);
      DigitTail(b, 2, s);
      assert Shape(Mastercard, s) <==> BranchMatches(b, s);
    }
  }

  lemma DiscoverPattern(s: string)
    ensures Shape(Discover, s) <==> PatternMatches(Discover, s)
  {
    var b0 := [Lit('6'), Lit('0'), Lit('1'), Lit('1')] + Digits(12);
    var b1 := [Lit('6'), Lit('5')] + Digits(2) + Digits(12);
    assert Branches(Discover) == [b0, b1];
    if |s| == 16 {
      RangeClass('6', '6', s[0]);
      RangeClass('0', '0', s[1]);
      RangeClass('5', '5', s[1]);
      RangeClass('1', '1', s[2]);
      RangeClass('1', '1', s[3]);
      DigitTail(b0, 4, s);
      DigitTail(b1, 2, s);
      assert s[..4] == "6011" <==> s[0] == '6' && s[1] == '0' && s[2] == '1' && s[3] == '1';
      assert s[..2] == "65" <==> s[0] == '6' && s[1] == '5';
      assert BranchMatches(b0, s) <==> AllDigits(s) && s[..4] == "6011";
      assert BranchMatches(b1, s) <==> AllDigits(s) && s[..2] == "65";
    }
  }

  lemma AmexPattern(s: string)
    ensures Shape(Amex, s) <==> PatternMatches(Amex, s)
  {
    var b := [Lit('3'), [('4', '4'), ('7', '7')]] + Digits(13);
    assert Branches(Amex) == [b];
    if |s| == 15 {
      RangeClass('3', '3', s[0]);
      PairClass('4', '7', s[1]);
      DigitTail(b, 2, s);
      assert s[..2] == "34" <==> s[0] == '3' && s[1] == '4';
      assert s[..2] == "37" <==> s[0] == '3' && s[1] == '7';
      assert Shape(Amex, s) <==> BranchMatches(b, s);
    }
  }

  lemma DinersPattern(s: string)
    ensures Shape(Diners, s) <==> PatternMatches(Diners, s)
  {
    var b0 := [Lit('3')] + Digits(11);
    var b1 := [Lit('3'), Lit('0'), [('0', '5')]] + Digits(11);
    var b2 := [Lit('3'), [('6', '6'), ('8', '8')], AnyDigit] + Digits(11);
    assert Branches(Diners) == [b0, b1, b2];
    if |s| == 12 {
      RangeClass('3', '3', s[0]);
      DigitTail(b0, 1, s);
      assert Shape(Diners, s) <==> BranchMatches(b0, s);
    } else if |s| == 14 {
      RangeClass('3', '3', s[0]);
      RangeClass('0', '0', s[1]);
      RangeClass('0', '5', s[2]);
      RangeClass('0', '9', s[2]);
      PairClass('6', '8', s[1]);
      DigitTail(b1, 3, s);
      DigitTail(b2, 3, s);
      assert BranchMatches(b1, s) <==> AllDigits(s) && s[0] == '3' && s[1] == '0' && s[2] <= '5';
      assert BranchMatches(b2, s) <==> AllDigits(s) && s[0] == '3' && (s[1] == '6' || s[1] == '8');
    }
  }

  lemma JcbPattern(s: string)
    ensures Shape(Jcb, s) <==> PatternMatches(Jcb, s)
  {
    var b0 := [Lit('2'), Lit('1'), Lit('3'), Lit('1')] + Digits(11);
    var b1 := [Lit('1'), Lit('8'), Lit('0'), Lit('0')] + Digits(11);
    var b2 := [Lit('3'), Lit('5')] + Digits(3) + Digits(11);
    assert Branches(Jcb) == [b0, b1, b2];
    if |s| == 15 {
      FourLiteralsThenDigits('2', '1', '3', '1', s);
      FourLiteralsThenDigits('1', '8', '0', '0', s);
    } else if |s| == 16 {
      RangeClass('3', '3', s[0]);
      RangeClass('5', '5', s[1]);
      DigitTail(b2, 2, s);
      assert s[..2] == "35" <==> s[0] == '3' && s[1] == '5';
      assert BranchMatches(b2, s) <==> AllDigits(s) && s[..2] == "35";
    }
  }

  /** The jcb branches `2131[0-9]{11}` and `1800[0-9]{11}`. */
  lemma FourLiteralsThenDigits(c0: char, c1: char, c2: char, c3: char, s: string)
    requires |s| == 15
    requires IsDigit(c0) && IsDigit(c1) && IsDigit(c2) && IsDigit(c3)
    ensures BranchMatches([Lit(c0), Lit(c1), Lit(c2), Lit(c3)] + Digits(11), s)
        <==> AllDigits(s) && s[..4] == [c0, c1, c2, c3]
  {
    var b := [Lit(c0), Lit(c1), Lit(c2), Lit(c3)] + Digits(11);
    RangeClass(c0, c0, s[0]);
    RangeClass(c1, c1, s[1]);
    RangeClass(c2, c2, s[2]);
    RangeClass(c3, c3, s[3]);
    DigitTail(b, 4, s);
    assert s[..4] == [c0, c1, c2, c3] <==> s[0] == c0 && s[1] == c1 && s[2] == c2 && s[3] == c3;
    assert b[0] == Lit(c0) && b[1] == Lit(c1) && b[2] == Lit(c2) && b[3] == Lit(c3);
    if BranchMatches(b, s) {
      assert InClass(b[0], s[0]) && InClass(b[1], s[1]) && InClass(b[2], s[2]) && InClass(b[3], s[3]);
    }
    if AllDigits(s) && s[..4] == [c0, c1, c2, c3] {
      forall i | 0 <= i < |s|
        ensures InClass(b[i], s[i])
      {
        if i >= 4 {
          RangeClass('0', '9', s[i]);
        }
      }
      assert BranchMatches(b, s);
    }
  }

  /** Each hand-written shape accepts exactly the strings its named alternative
      of the pattern matches in full. */
  lemma ShapeIsPattern(k: Issuer, s: string)
    ensures Shape(k, s) <==> PatternMatches(k, s)
  {
    match k
    case Visa => VisaPattern(s);
    case Mastercard => MastercardPattern(s);
    case Discover => DiscoverPattern(s);
    case Amex => AmexPattern(s);
    case Diners => DinersPattern(s);
    case Jcb => JcbPattern(s);
  }

  // ---------------------------------------------------------------------------
  // The anchored match

  /** `matcher.matches()` on the whole pattern: the alternatives are tried in the
      pattern's order and the first that matches the whole string is taken. */
  function Classify(s: string): (r: Option<Issuer>)
    ensures r.Some? ==> Shape(r.value, s) && AllDigits(s) && 12 <= |s| <= 16
    ensures r.None? ==> forall k :: !Shape(k, s)
  {
    if Shape(Visa, s) then Some(Visa)
    else if Shape(Mastercard, s) then Some(Mastercard)
    else if Shape(Discover, s) then Some(Discover)
    else if Shape(Amex, s) then Some(Amex)
    else if Shape(Diners, s) then Some(Diners)
    else if Shape(Jcb, s) then Some(Jcb)
    else None
  }

  /** No string has two shapes: the alternatives differ in their first digits or
      in their lengths. */
  lemma ShapesDisjoint(a: Issuer, b: Issuer, s: string)
    requires Shape(a, s) && Shape(b, s)
    ensures a == b
  {
    if |s| >= 4 {
      assert s[..4] == [s[0], s[1], s[2], s[3]];
      assert s[..2] == [s[0], s[1]];
    }
  }

  /** So the first match is the only match: the match reports issuer `k` exactly
      when the string has `k`'s shape, that is, when `k`'s alternative of the
      pattern matches it in full. */
  lemma ClassifyExact(k: Issuer, s: string)
    ensures Classify(s) == Some(k) <==> Shape(k, s)
    ensures Classify(s) == Some(k) <==> PatternMatches(k, s)
  {
    if Shape(k, s) {
      ShapesDisjoint(Classify(s).value, k, s);
    }
    ShapeIsPattern(k, s);
  }

  /** Whatever issuer's shape a string has is the issuer the match reports. */
  lemma ClassifyUnique(s: string)
    ensures forall k :: Shape(k, s) ==> Classify(s) == Some(k)
  {
    forall k | Shape(k, s)
      ensures Classify(s) == Some(k)
    {
      ClassifyExact(k, s);
    }
  }

  /** A hyphen, a letter or any other character outside `[0-9]` makes the match
      fail. */
  lemma NonDigitNeverMatches(s: string, i: nat)
    requires i < |s| && !IsDigit(s[i])
    ensures Classify(s) == None
  {
  }
}
