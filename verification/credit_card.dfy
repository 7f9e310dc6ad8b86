/**
 * The card validator object. `isCardValid` strips the hyphens from the stored
 * number (writing the result back), runs the anchored match and, on a match,
 * stores the Luhn verdict in `valid` and the matched group's name in
 * `cardIssuer`. `getCardIssuer` answers from those memo fields once `valid`
 * is set. `valid` is a boxed `Boolean` that stays null while nothing has
 * matched, and returning it as a primitive `boolean` then throws.
 */
module CreditCards {
  import opened Wrappers
  import opened CardText
  import opened Luhn
  import opened Issuers

  /** How a Java call ends: it returns a value, or it throws the
      NullPointerException raised by unboxing a null `Boolean`. */
  datatype Outcome<T> = Returned(value: T) | NullPointerException

  /** Converting the boxed `Boolean` to the primitive `boolean`. */
  function Unbox(b: Option<bool>): (r: Outcome<bool>)
    ensures r.NullPointerException? <==> b.None?
    ensures b.Some? ==> r == Returned(b.value)
  {
    match b
    case None => NullPointerException
    case Some(v) => Returned(v)
  }

  /** `matcher.group(name)` after a successful anchored match: the whole string
      for the alternative that matched, null for every other named group. */
  function Group(s: string, name: string): (g: Option<string>)
    ensures g.Some? ==> g.value == s
    ensures forall k :: Shape(k, s) ==> (g.Some? <==> name == Name(k))
    ensures (forall k :: !Shape(k, s)) ==> g.None?
  {
    ClassifyUnique(s);
    match Classify(s)
    case Some(k) => if Name(k) == name then Some(s) else None
    case None => None
  }

  /** The number of capturing groups of the pattern: one per issuer. */
  const GroupCount: nat := |IssuerNames|

  class CreditCard {
    var cardNumber: string
    /** Null (`None`) until a number has matched. */
    var cardIssuer: Option<string>
    /** Null (`None`) until a number has matched; then the Luhn verdict. */
    var valid: Option<bool>

    /** The memo fields are set together, and only for a stored number that
        matched: then `valid` holds its Luhn verdict and `cardIssuer` the name
        of the issuer whose alternative matched. */
    ghost predicate Valid()
      reads this
    {
      (valid.None? ==> cardIssuer.None?) &&
      (valid.Some? ==>
         Classify(cardNumber).Some? && AllDigits(cardNumber) &&
         valid.value == LuhnValid(cardNumber) &&
         cardIssuer == Some(Name(Classify(cardNumber).value)))
    }

    constructor (cardNumber: string)
      ensures Valid()
      ensures this.cardNumber == cardNumber && cardIssuer == None && valid == None
    {
      this.cardNumber := cardNumber;
      cardIssuer := None;
      valid := None;
    }

    method IsCardValid() returns (r: Outcome<bool>)
      requires Valid()
      modifies this
      ensures Valid()
      ensures cardNumber == StripHyphens(old(cardNumber))
      ensures Classify(cardNumber).Some? ==>
        AllDigits(cardNumber) &&
        valid == Some(LuhnValid(cardNumber)) &&
        cardIssuer == Some(Name(Classify(cardNumber).value)) &&
        r == Returned(LuhnValid(cardNumber))
      ensures Classify(cardNumber).None? ==>
        valid == old(valid) == None && cardIssuer == old(cardIssuer) &&
        r == NullPointerException
    {
      if valid.Some? {
        // a number that matched has no hyphens left to strip
        StripHyphensNoHyphens(cardNumber);
      }
      cardNumber := StripHyphens(cardNumber);
      if Classify(cardNumber).Some? {
        var ok := VerifyChecksum();
        valid := Some(ok);
        var i := 1;
        while i <= GroupCount
          invariant 1 <= i <= GroupCount + 1
          invariant cardNumber == StripHyphens(old(cardNumber))
          invariant valid == Some(ok) && cardIssuer == old(cardIssuer)
          invariant forall j :: 0 <= j < i - 1 ==> Group(cardNumber, IssuerNames[j]).None?
          // the group of the alternative that matched lies ahead
          invariant i - 1 <= GroupIndex(Classify(cardNumber).value)
        {
          if Group(cardNumber, IssuerNames[i - 1]).Some? {
            cardIssuer := Some(IssuerNames[i - 1]);
            NameInjective(Classify(cardNumber).value, IssuerNameAt(i - 1));
            r := Unbox(valid);
            return;
          }
          i := i + 1;
        }
        // the group of the issuer that matched is never null
        assert false;
      }
      r := Unbox(valid);
    }

    /** The Luhn check of the stored number, walking from its last digit to its
        first. Only ever called after a match, which leaves only digits. */
    method VerifyChecksum() returns (ok: bool)
      requires AllDigits(cardNumber)
      ensures ok == LuhnValid(cardNumber)
    {
      var sum := 0;
      var alternate := false;
      var i := |cardNumber| - 1;
      while i >= 0
        invariant -1 <= i < |cardNumber|
        invariant sum == LuhnSumFrom(cardNumber, i + 1)
        invariant alternate == ((|cardNumber| - 1 - i) % 2 == 1)
      {
        var n := DigitValue(cardNumber[i]);
        if alternate {
          n := n * 2;
          if n > 9 {
            n := (n % 10) + 1;
          }
        }
        sum := sum + n;
        alternate := !alternate;
        i := i - 1;
      }
      ok := sum % 10 == 0;
    }

    method GetCardIssuer() returns (r: Outcome<string>)
      requires Valid()
      modifies this
      ensures Valid()
      ensures old(valid).Some? ==>
        unchanged(this) && r == Returned(Name(Classify(cardNumber).value))
      ensures old(valid).None? ==>
        cardNumber == StripHyphens(old(cardNumber)) &&
        match Classify(cardNumber)
        case None => valid == None && r == NullPointerException
        case Some(k) =>
          valid == Some(LuhnValid(cardNumber)) && cardIssuer == Some(Name(k)) &&
          r == Returned(if LuhnValid(cardNumber) then Name(k) else "")
    {
      if valid.Some? {
        r := Returned(cardIssuer.value);
        return;
      }
      var checked := IsCardValid();
      if checked.NullPointerException? {
        r := NullPointerException;
        return;
      }
      match Unbox(valid)
      case NullPointerException =>
        r := NullPointerException;
      case Returned(v) =>
        r := Returned(if v then cardIssuer.value else "");
    }
  }
}
