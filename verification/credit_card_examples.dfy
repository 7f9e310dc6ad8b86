/**
 * The card numbers of the project's unit tests, and the test scenarios run
 * against the CreditCard class: what a caller can conclude from the class's
 * contracts alone.
 */
module CreditCardExamples {
  import opened Wrappers
  import opened CardText
  import opened Luhn
  import opened Issuers
  import opened CreditCards

  /** A number the match and the Luhn check both accept, with issuer `k`. */
  predicate Accepted(s: string, k: Issuer) {
    Classify(s) == Some(k) && LuhnValid(s)
  }

  // The valid visa numbers listed in CreditCardTest

  lemma ValidVisa1()
    ensures Accepted("4111111111111111", Visa)
  {
    var s := "4111111111111111";
    assert LuhnSumFrom(s, 14) == 3;
    assert LuhnSumFrom(s, 12) == 6;
    assert LuhnSumFrom(s, 10) == 9;
    assert LuhnSumFrom(s, 8) == 12;
    assert LuhnSumFrom(s, 6) == 15;
    assert LuhnSumFrom(s, 4) == 18;
    assert LuhnSumFrom(s, 2) == 21;
    assert LuhnSumFrom(s, 0) == 30;
  }

  lemma ValidVisa2()
    ensures Accepted("4007000000027", Visa)
  {
    var s := "4007000000027";
    assert LuhnSumFrom(s, 11) == 11;
    assert LuhnSumFrom(s, 9) == 11;
    assert LuhnSumFrom(s, 7) == 11;
    assert LuhnSumFrom(s, 5) == 11;
    assert LuhnSumFrom(s, 3) == 16;
    assert LuhnSumFrom(s, 1) == 16;
    assert LuhnSumFrom(s, 0) == 20;
  }

  lemma ValidVisa3()
    ensures Accepted("4222222222222", Visa)
  {
    var s := "4222222222222";
    assert LuhnSumFrom(s, 11) == 6;
    assert LuhnSumFrom(s, 9) == 12;
    assert LuhnSumFrom(s, 7) == 18;
    assert LuhnSumFrom(s, 5) == 24;
    assert LuhnSumFrom(s, 3) == 30;
    assert LuhnSumFrom(s, 1) == 36;
    assert LuhnSumFrom(s, 0) == 40;
  }

  lemma ValidVisa4()
    ensures Accepted("4012888888881881", Visa)
  {
    var s := "4012888888881881";
    assert LuhnSumFrom(s, 14) == 8;
    assert LuhnSumFrom(s, 12) == 18;
    assert LuhnSumFrom(s, 10) == 33;
    assert LuhnSumFrom(s, 8) == 48;
    assert LuhnSumFrom(s, 6) == 63;
    assert LuhnSumFrom(s, 4) == 78;
    assert LuhnSumFrom(s, 2) == 82;
    assert LuhnSumFrom(s, 0) == 90;
  }

  // The valid mastercard numbers listed in CreditCardTest, except that the last
  // listed one, 5555555555551111, fails the Luhn check (`ListedMastercardRejected`);
  // the published test number 5555555555554444 stands in its place

  lemma ValidMastercard1()
    ensures Accepted("5105105105105100", Mastercard)
  {
    var s := "5105105105105100";
    assert LuhnSumFrom(s, 14) == 0;
    assert LuhnSumFrom(s, 12) == 2;
    assert LuhnSumFrom(s, 10) == 4;
    assert LuhnSumFrom(s, 8) == 9;
    assert LuhnSumFrom(s, 6) == 11;
    assert LuhnSumFrom(s, 4) == 13;
    assert LuhnSumFrom(s, 2) == 18;
    assert LuhnSumFrom(s, 0) == 20;
  }

  lemma ValidMastercard2()
    ensures Accepted("5111111111111118", Mastercard)
  {
    var s := "5111111111111118";
    assert LuhnSumFrom(s, 14) == 10;
    assert LuhnSumFrom(s, 12) == 13;
    assert LuhnSumFrom(s, 10) == 16;
    assert LuhnSumFrom(s, 8) == 19;
    assert LuhnSumFrom(s, 6) == 22;
    assert LuhnSumFrom(s, 4) == 25;
    assert LuhnSumFrom(s, 2) == 28;
    assert LuhnSumFrom(s, 0) == 30;
  }

  lemma ValidMastercard3()
    ensures Accepted("5454545454545454", Mastercard)
  {
    var s := "5454545454545454";
    assert LuhnSumFrom(s, 14) == 5;
    assert LuhnSumFrom(s, 12) == 10;
    assert LuhnSumFrom(s, 10) == 15;
    assert LuhnSumFrom(s, 8) == 20;
    assert LuhnSumFrom(s, 6) == 25;
    assert LuhnSumFrom(s, 4) == 30;
    assert LuhnSumFrom(s, 2) == 35;
    assert LuhnSumFrom(s, 0) == 40;
  }

  lemma ValidMastercard4()
    ensures Accepted("5555555555554444", Mastercard)
  {
    var s := "5555555555554444";
    assert LuhnSumFrom(s, 14) == 12;
    assert LuhnSumFrom(s, 12) == 24;
    assert LuhnSumFrom(s, 10) == 30;
    assert LuhnSumFrom(s, 8) == 36;
    assert LuhnSumFrom(s, 6) == 42;
    assert LuhnSumFrom(s, 4) == 48;
    assert LuhnSumFrom(s, 2) == 54;
    assert LuhnSumFrom(s, 0) == 60;
  }

  /** `5555555555551111`, listed among the valid mastercards, has the mastercard
      shape but a Luhn sum of 42, so it is rejected. */
  lemma ListedMastercardRejected()
    ensures Classify("5555555555551111") == Some(Mastercard)
    ensures !LuhnValid("5555555555551111")
  {
    var s := "5555555555551111";
    assert LuhnSumFrom(s, 14) == 3;
    assert LuhnSumFrom(s, 12) == 6;
    assert LuhnSumFrom(s, 10) == 12;
    assert LuhnSumFrom(s, 8) == 18;
    assert LuhnSumFrom(s, 6) == 24;
    assert LuhnSumFrom(s, 4) == 30;
    assert LuhnSumFrom(s, 2) == 36;
    assert LuhnSumFrom(s, 0) == 42;
  }

  /** `4007000200027` has the visa shape but fails the Luhn check. */
  lemma InvalidVisaRejected()
    ensures Classify("4007000200027") == Some(Visa)
    ensures !LuhnValid("4007000200027")
  {
    var s := "4007000200027";
    assert LuhnSumFrom(s, 11) == 11;
    assert LuhnSumFrom(s, 9) == 11;
    assert LuhnSumFrom(s, 7) == 15;
    assert LuhnSumFrom(s, 5) == 15;
    assert LuhnSumFrom(s, 3) == 20;
    assert LuhnSumFrom(s, 1) == 20;
    assert LuhnSumFrom(s, 0) == 24;
  }

  /** `5105105125105100` has the mastercard shape but fails the Luhn check. */
  lemma InvalidMastercardRejected()
    ensures Classify("5105105125105100") == Some(Mastercard)
    ensures !LuhnValid("5105105125105100")
  {
    var s := "5105105125105100";
    assert LuhnSumFrom(s, 14) == 0;
    assert LuhnSumFrom(s, 12) == 2;
    assert LuhnSumFrom(s, 10) == 4;
    assert LuhnSumFrom(s, 8) == 13;
    assert LuhnSumFrom(s, 6) == 15;
    assert LuhnSumFrom(s, 4) == 17;
    assert LuhnSumFrom(s, 2) == 22;
    assert LuhnSumFrom(s, 0) == 24;
  }

  /** A number written in four hyphen-separated groups strips to its digits. */
  lemma {:induction false} StripFourGroups(a: string, b: string, c: string, d: string)
    requires AllDigits(a) && AllDigits(b) && AllDigits(c) && AllDigits(d)
    ensures StripHyphens(a + "-" + b + "-" + c + "-" + d) == a + b + c + d
  {
    StripHyphensDropsHyphen(a + "-" + b + "-" + c, d);
    StripHyphensDropsHyphen(a + "-" + b, c);
    StripHyphensDropsHyphen(a, b);
    StripHyphensNoHyphens(a);
    StripHyphensNoHyphens(b);
    StripHyphensNoHyphens(c);
    StripHyphensNoHyphens(d);
  }

  lemma HyphenatedVisaStripped()
    ensures StripHyphens("4111-1111-1111-1111") == "4111111111111111"
  {
    var a, b := "4111", "1111";
    assert AllDigits(a) && AllDigits(b);
    StripFourGroups(a, b, b, b);
    assert a + "-" + b + "-" + b + "-" + b == "4111-1111-1111-1111";
    assert a + b + b + b == "4111111111111111";
  }

  // ---------------------------------------------------------------------------
  // Scenarios on fresh CreditCard objects

  /** `isCardValid` on a fresh card whose digits match an alternative returns
      their Luhn verdict. */
  method CheckFreshCard(number: string) returns (r: Outcome<bool>)
    requires AllDigits(number) && Classify(number).Some?
    ensures r == Returned(LuhnValid(number))
  {
    StripHyphensNoHyphens(number);
    var card := new CreditCard(number);
    r := card.IsCardValid();
  }

  /** `getCardIssuer` on a fresh card runs the validation itself and reports the
      issuer only when the checksum passes. */
  method IssuerOfFreshCard(number: string) returns (r: Outcome<string>)
    requires AllDigits(number) && Classify(number).Some?
    ensures r == Returned(if LuhnValid(number) then Name(Classify(number).value) else "")
  {
    StripHyphensNoHyphens(number);
    var card := new CreditCard(number);
    r := card.GetCardIssuer();
  }

  /** After `isCardValid`, `getCardIssuer` answers from the memo and reports the
      matched issuer even when the checksum failed. */
  method IssuerAfterCheck(number: string) returns (verdict: Outcome<bool>, issuer: Outcome<string>)
    requires AllDigits(number) && Classify(number).Some?
    ensures verdict == Returned(LuhnValid(number))
    ensures issuer == Returned(Name(Classify(number).value))
  {
    StripHyphensNoHyphens(number);
    var card := new CreditCard(number);
    verdict := card.IsCardValid();
    issuer := card.GetCardIssuer();
  }

  /** A number that matches no alternative once stripped leaves `valid` null, so
      both calls on a fresh card throw. */
  method UnmatchedCardThrows(number: string) returns (verdict: Outcome<bool>, issuer: Outcome<string>)
    requires Classify(StripHyphens(number)) == None
    ensures verdict == NullPointerException && issuer == NullPointerException
  {
    var card := new CreditCard(number);
    verdict := card.IsCardValid();
    var other := new CreditCard(number);
    issuer := other.GetCardIssuer();
  }

  /** Numbers that strip to the same digits get the same verdict and issuer. */
  method SameStrippedSameVerdict(x: string, y: string)
    returns (vx: Outcome<bool>, vy: Outcome<bool>, ix: Outcome<string>, iy: Outcome<string>)
    requires StripHyphens(x) == StripHyphens(y)
    ensures vx == vy && ix == iy
  {
    var cx := new CreditCard(x);
    var cy := new CreditCard(y);
    vx := cx.IsCardValid();
    vy := cy.IsCardValid();
    var fx := new CreditCard(x);
    var fy := new CreditCard(y);
    ix := fx.GetCardIssuer();
    iy := fy.GetCardIssuer();
  }

  /** isCardValid_validCard */
  method ValidCardIsValid() returns (r: Outcome<bool>)
    ensures r == Returned(true)
  {
    ValidVisa1();
    r := CheckFreshCard("4111111111111111");
  }

  /** isCardValid_invalidCard */
  method InvalidCardIsInvalid() returns (r: Outcome<bool>)
    ensures r == Returned(false)
  {
    InvalidVisaRejected();
    r := CheckFreshCard("4007000200027");
  }

  /** getCardIssuer_validCard */
  method ValidCardIssuer() returns (r: Outcome<string>)
    ensures r == Returned("mastercard")
  {
    ValidMastercard1();
    r := IssuerOfFreshCard("5105105105105100");
  }

  /** getCardIssuer_invalidCard */
  method InvalidCardIssuer() returns (r: Outcome<string>)
    ensures r == Returned("")
  {
    InvalidMastercardRejected();
    r := IssuerOfFreshCard("5105105125105100");
  }

  /** The same number, asked after `isCardValid` has returned false. */
  method InvalidCardIssuerAfterCheck() returns (verdict: Outcome<bool>, issuer: Outcome<string>)
    ensures verdict == Returned(false) && issuer == Returned("mastercard")
  {
    InvalidMastercardRejected();
    verdict, issuer := IssuerAfterCheck("5105105125105100");
  }
}
