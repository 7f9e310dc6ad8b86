# CreditCard validator, modelled in Dafny

The model covers the `CreditCard` class of jbanking
(`src/main/java/fr/marcwrobel/jbanking/CreditCard.java`). The class takes a
card number as text and answers two questions about it:

- `isCardValid()` removes every hyphen from the stored number and writes the
  result back into the object. It then matches the number against one anchored
  regular expression that has a named alternative per issuer (visa,
  mastercard, discover, amex, diners, jcb). On a match it runs the Luhn check,
  stores the verdict in the boxed `Boolean valid`, stores the matched group's
  name in `cardIssuer`, and returns the verdict.
- `getCardIssuer()` returns the stored issuer once `valid` is set. Otherwise it
  validates first and returns the issuer name if the checksum passed, or `""`
  if it failed.

Files:

- `wrappers.dfy`: `Option`, which stands for a Java reference that may be null.
- `card_text.dfy` (module `CardText`): decimal digits, the one-character
  `Integer.parseInt`, and hyphen stripping with its algebra (idempotent,
  order-preserving, keeps every other character).
- `luhn.dfy` (module `Luhn`): the Luhn sum of ISO/IEC 7812-1, Annex B, as a
  recursive specification. It is proved to detect every single-digit error,
  so the check digit is unique.
- `issuers.dfy` (module `Issuers`): the pattern transcribed as data
  (`Branches`), one hand-written shape predicate per issuer (`Shape`), proofs
  that the two agree, and the first-match classifier `Classify` with proofs
  that the shapes are pairwise disjoint.
- `credit_card.dfy` (module `CreditCards`): the class with its three mutable
  fields. `IsCardValid`, `VerifyChecksum` and `GetCardIssuer` are methods.
  `VerifyChecksum` keeps the source's right-to-left loop and is proved against
  the Luhn specification. A Java exception is the `NullPointerException` arm
  of `Outcome`.
- `credit_card_examples.dfy` (module `CreditCardExamples`): the unit-test
  numbers, checked against the specification, and client scenarios on fresh
  objects.

## Behaviour as written

The model follows the code, including behaviour that a reader of the class
might not expect:

- diners also accepts 12-digit numbers (`3` followed by 11 digits). Its
  14-digit form starts with 300 to 305, 36 or 38, so a 14-digit number
  starting `39` matches nothing.
- jcb numbers starting `2131` or `1800` are 15 digits long. Only the `35ddd`
  form has 16.
- If a fresh object's stripped number matches no alternative, `valid` stays
  null. Both `isCardValid` and `getCardIssuer` then throw while unboxing it.
  Examples are the empty string and a number with spaces.
- Once `valid` is set, `getCardIssuer` returns the stored issuer even when the
  checksum failed. So on `5105105125105100` it returns `""` on a fresh object
  but `"mastercard"` after `isCardValid()` has returned false.

## Model

| member | source | states |
|---|---|---|
| `CardText.DigitValue` | src/main/java/fr/marcwrobel/jbanking/CreditCard.java:58 | parsing a one-digit string gives the digit's value 0..9; it is the inverse of indexing the digit table |
| `CardText.StripHyphens` | src/main/java/fr/marcwrobel/jbanking/CreditCard.java:37 | the stripped number contains no hyphen and is no longer than the input |
| `CardText.StripHyphensNoHyphens` | src/main/java/fr/marcwrobel/jbanking/CreditCard.java:37 | a number without hyphens is left unchanged |
| `CardText.StripHyphensIdempotent` | src/main/java/fr/marcwrobel/jbanking/CreditCard.java:37 | stripping twice equals stripping once, so a second validation sees the same number |
| `CardText.StripHyphensAppend` | src/main/java/fr/marcwrobel/jbanking/CreditCard.java:37 | stripping distributes over concatenation, so the kept characters stay in their original order |
| `CardText.StripHyphensChar` | src/main/java/fr/marcwrobel/jbanking/CreditCard.java:37 | a single character is dropped exactly when it is a hyphen |
| `CardText.StripHyphensDropsHyphen` | src/main/java/fr/marcwrobel/jbanking/CreditCard.java:37 | a hyphen anywhere in the input disappears and joins its two sides |
| `CardText.StripHyphensMultiset` | src/main/java/fr/marcwrobel/jbanking/CreditCard.java:37 | every character other than a hyphen is kept as often as it occurs |
| `Luhn.Contribution` | src/main/java/fr/marcwrobel/jbanking/CreditCard.java:59-66 | a digit adds at most 9: itself when not doubled, and otherwise twice itself, minus 9 above 4 (the `(n % 10) + 1` replacement) |
| `Luhn.ContributionInjective` | src/main/java/fr/marcwrobel/jbanking/CreditCard.java:59-66 | two different digits in the same position add different amounts, doubled or not |
| `Luhn.LuhnSumFrom` | src/main/java/fr/marcwrobel/jbanking/CreditCard.java:56-69 | the Luhn sum of a suffix is at most 9 per digit; for the at most 16 digits that reach the loop it stays far below the 32-bit `int` range |
| `Luhn.LuhnValid` | src/main/java/fr/marcwrobel/jbanking/CreditCard.java:70 | a number of decimal digits passes exactly when its Luhn sum is a multiple of 10 |
| `Luhn.LuhnSumFromOneChange` | src/main/java/fr/marcwrobel/jbanking/CreditCard.java:56-70 | changing one digit changes the sum by exactly the difference of that position's two contributions |
| `Luhn.SingleDigitErrorDetected` | src/main/java/fr/marcwrobel/jbanking/CreditCard.java:70 | if a number passes, every number that differs from it in exactly one digit fails |
| `Luhn.CheckDigitUnique` | src/main/java/fr/marcwrobel/jbanking/CreditCard.java:70 | two passing numbers that differ only in the last digit are equal: the check digit is unique |
| `Issuers.GroupIndex` | src/main/java/fr/marcwrobel/jbanking/CreditCard.java:9-16 | each issuer has a position among the six group names |
| `Issuers.IssuerNameAt` | src/main/java/fr/marcwrobel/jbanking/CreditCard.java:9-16 | the i-th group name is the name of the issuer whose group index is i |
| `Issuers.NameInjective` | src/main/java/fr/marcwrobel/jbanking/CreditCard.java:9-16 | no two issuers share a name, so a group name identifies its issuer |
| `Issuers.Branches` | src/main/java/fr/marcwrobel/jbanking/CreditCard.java:27-32 | each named alternative of the pattern, written as data: one branch per choice of its optional and alternated groups, each a sequence of character classes, one per position |
| `Issuers.PatternMatches` | src/main/java/fr/marcwrobel/jbanking/CreditCard.java:27-32 | an issuer's alternative matches a whole string when one of its branches has the string's length and admits each character at its position |
| `Issuers.PatternLength` | src/main/java/fr/marcwrobel/jbanking/CreditCard.java:27-32 | every alternative matches only strings of 12 to 16 characters |
| `Issuers.Shape` | src/main/java/fr/marcwrobel/jbanking/CreditCard.java:27-32 | the hand-written form of each alternative: all decimal digits, with the issuer's lengths and leading digits; a string with a shape has 12 to 16 characters and starts with 1 to 6 |
| `Issuers.VisaPattern` | src/main/java/fr/marcwrobel/jbanking/CreditCard.java:27 | the visa alternative matches exactly the digit strings of length 13 or 16 that start with 4 |
| `Issuers.MastercardPattern` | src/main/java/fr/marcwrobel/jbanking/CreditCard.java:28 | the mastercard alternative matches exactly the 16-digit strings that start with 51 to 55 |
| `Issuers.DiscoverPattern` | src/main/java/fr/marcwrobel/jbanking/CreditCard.java:29 | the discover alternative matches exactly the 16-digit strings that start with 6011 or 65 |
| `Issuers.AmexPattern` | src/main/java/fr/marcwrobel/jbanking/CreditCard.java:30 | the amex alternative matches exactly the 15-digit strings that start with 34 or 37 |
| `Issuers.DinersPattern` | src/main/java/fr/marcwrobel/jbanking/CreditCard.java:31 | the diners alternative matches exactly the 12-digit strings starting with 3, and the 14-digit strings starting with 300 to 305, 36 or 38 |
| `Issuers.JcbPattern` | src/main/java/fr/marcwrobel/jbanking/CreditCard.java:32 | the jcb alternative matches exactly the 15-digit strings starting with 2131 or 1800, and the 16-digit strings starting with 35 |
| `Issuers.ShapeIsPattern` | src/main/java/fr/marcwrobel/jbanking/CreditCard.java:27-32 | each hand-written shape accepts exactly the strings that its alternative of the pattern matches in full |
| `Issuers.Classify` | src/main/java/fr/marcwrobel/jbanking/CreditCard.java:40-41 | on a match, the string has the reported issuer's shape and is 12 to 16 decimal digits; with no match, it has no issuer's shape |
| `Issuers.ShapesDisjoint` | src/main/java/fr/marcwrobel/jbanking/CreditCard.java:27-32 | no string has two issuers' shapes |
| `Issuers.ClassifyExact` | src/main/java/fr/marcwrobel/jbanking/CreditCard.java:27-32 | the match reports issuer k if and only if the string has k's shape, that is, if and only if k's alternative matches it in full |
| `Issuers.ClassifyUnique` | src/main/java/fr/marcwrobel/jbanking/CreditCard.java:41-47 | whatever issuer's shape a string has is the issuer the match reports |
| `Issuers.NonDigitNeverMatches` | src/main/java/fr/marcwrobel/jbanking/CreditCard.java:27-32 | a string with any character outside `[0-9]` matches nothing |
| `CreditCards.Unbox` | src/main/java/fr/marcwrobel/jbanking/CreditCard.java:50 | returning the boxed verdict as a primitive throws exactly when it is null, and otherwise returns its value |
| `CreditCards.Group` | src/main/java/fr/marcwrobel/jbanking/CreditCard.java:44 | a named group, when not null, captured the whole number; for a number with issuer k's shape it is non-null exactly for k's name; for a number with no shape every group is null |
| `CreditCards.CreditCard.constructor` | src/main/java/fr/marcwrobel/jbanking/CreditCard.java:22-24 | stores the number as given; issuer and verdict start out null |
| `CreditCards.CreditCard.IsCardValid` | src/main/java/fr/marcwrobel/jbanking/CreditCard.java:26-51 | the stored number becomes the stripped number; on a match, `valid` and the result are its Luhn verdict and `cardIssuer` is the matched issuer's name, whatever the verdict; with no match, nothing else changes, `valid` is null and the call throws |
| `CreditCards.CreditCard.VerifyChecksum` | src/main/java/fr/marcwrobel/jbanking/CreditCard.java:53-71 | on a number of decimal digits, the right-to-left loop returns true if and only if the Luhn sum is a multiple of 10 |
| `CreditCards.CreditCard.GetCardIssuer` | src/main/java/fr/marcwrobel/jbanking/CreditCard.java:73-82 | with the verdict set, changes nothing and returns the stored issuer; otherwise validates and returns the issuer name if the checksum passed, `""` if it failed, and throws if nothing matched |
| `CreditCardExamples.CheckFreshCard` | src/main/java/fr/marcwrobel/jbanking/CreditCard.java:26-51 | `isCardValid` on a fresh card whose digits match an alternative returns their Luhn verdict |
| `CreditCardExamples.IssuerOfFreshCard` | src/main/java/fr/marcwrobel/jbanking/CreditCard.java:73-82 | `getCardIssuer` on a fresh matching card returns the issuer's name if the checksum passes and `""` if it fails |
| `CreditCardExamples.IssuerAfterCheck` | src/main/java/fr/marcwrobel/jbanking/CreditCard.java:74-75 | after `isCardValid`, `getCardIssuer` returns the matched issuer's name whatever the verdict was |
| `CreditCardExamples.UnmatchedCardThrows` | src/main/java/fr/marcwrobel/jbanking/CreditCard.java:50 | a fresh card whose stripped number matches nothing throws from both `isCardValid` and `getCardIssuer` |
| `CreditCardExamples.SameStrippedSameVerdict` | src/main/java/fr/marcwrobel/jbanking/CreditCard.java:37 | two inputs that strip to the same number, such as the hyphenated and plain forms, get the same verdict and the same issuer |
| `CreditCardExamples.HyphenatedVisaStripped` | src/main/java/fr/marcwrobel/jbanking/CreditCard.java:37 | `4111-1111-1111-1111` strips to `4111111111111111` |
| `CreditCardExamples.ValidVisa1` | src/test/java/fr/marcwrobel/jbanking/CreditCardTest.java:14 | `4111111111111111` matches visa and passes the Luhn check |
| `CreditCardExamples.ValidVisa2` | src/test/java/fr/marcwrobel/jbanking/CreditCardTest.java:15 | `4007000000027` matches visa and passes the Luhn check |
| `CreditCardExamples.ValidVisa3` | src/test/java/fr/marcwrobel/jbanking/CreditCardTest.java:16 | `4222222222222` matches visa and passes the Luhn check |
| `CreditCardExamples.ValidVisa4` | src/test/java/fr/marcwrobel/jbanking/CreditCardTest.java:17 | `4012888888881881` matches visa and passes the Luhn check |
| `CreditCardExamples.ValidMastercard1` | src/test/java/fr/marcwrobel/jbanking/CreditCardTest.java:21 | `5105105105105100` matches mastercard and passes the Luhn check |
| `CreditCardExamples.ValidMastercard2` | src/test/java/fr/marcwrobel/jbanking/CreditCardTest.java:22 | `5111111111111118` matches mastercard and passes the Luhn check |
| `CreditCardExamples.ValidMastercard3` | src/test/java/fr/marcwrobel/jbanking/CreditCardTest.java:23 | `5454545454545454` matches mastercard and passes the Luhn check |
| `CreditCardExamples.ValidMastercard4` | src/test/java/fr/marcwrobel/jbanking/CreditCardTest.java:24 | `5555555555554444`, which replaces the listed `5555555555551111`, matches mastercard and passes the Luhn check |
| `CreditCardExamples.ListedMastercardRejected` | src/test/java/fr/marcwrobel/jbanking/CreditCardTest.java:24 | the listed `5555555555551111` matches mastercard but its Luhn sum is 42, so it fails |
| `CreditCardExamples.InvalidVisaRejected` | src/test/java/fr/marcwrobel/jbanking/CreditCardTest.java:39-41 | `4007000200027` matches visa but fails the Luhn check |
| `CreditCardExamples.InvalidMastercardRejected` | src/test/java/fr/marcwrobel/jbanking/CreditCardTest.java:57-59 | `5105105125105100` matches mastercard but fails the Luhn check |
| `CreditCardExamples.ValidCardIsValid` | src/test/java/fr/marcwrobel/jbanking/CreditCardTest.java:28-33 | `isCardValid` on a fresh `4111111111111111` returns true |
| `CreditCardExamples.InvalidCardIsInvalid` | src/test/java/fr/marcwrobel/jbanking/CreditCardTest.java:37-42 | `isCardValid` on a fresh `4007000200027` returns false |
| `CreditCardExamples.ValidCardIssuer` | src/test/java/fr/marcwrobel/jbanking/CreditCardTest.java:46-51 | `getCardIssuer` on a fresh `5105105105105100` returns `"mastercard"` |
| `CreditCardExamples.InvalidCardIssuer` | src/test/java/fr/marcwrobel/jbanking/CreditCardTest.java:55-60 | `getCardIssuer` on a fresh `5105105125105100` returns `""` |
| `CreditCardExamples.InvalidCardIssuerAfterCheck` | src/main/java/fr/marcwrobel/jbanking/CreditCard.java:74-75 | on `5105105125105100`, `isCardValid` returns false and a following `getCardIssuer` returns `"mastercard"`, not `""` |

## Left out

- A null card number is not modelled: Dafny strings cannot be null. In Java, `isCardValid` would throw at the `replaceAll` call.
- The regular-expression engine (`Pattern.compile`, `Matcher.matches`, `Matcher.group`, `groupCount`) is not modelled. Each alternative of the pattern has a fixed length once its optional groups are resolved. So `Branches` lists its character classes position by position, and `Group` reports the whole number for the alternative that matched and null for the others.
- `Integer.parseInt` is modelled only on a single ASCII digit, the only input it receives after the pattern has matched. Signs, non-ASCII digits and `NumberFormatException` are not modelled.
- CreditCards.CreditCard.VerifyChecksum: the sum is an unbounded integer, not a 32-bit `int`. At most 16 digits reach the loop, so the sum is at most 144 (`LuhnSumFrom`) and never wraps.
- The `validVisas` and `validMasterCards` sets of the unit test, which no test reads, are modelled as one lemma per number rather than as collections. The numbers are also stated about the pure functions rather than about a `CreditCard` object, except for the four numbers that the tests give to an object.
- The concrete hyphenated number is stated only about stripping (`HyphenatedVisaStripped`). That hyphenated and plain input give the same answers is stated for all inputs (`SameStrippedSameVerdict`).
- Concurrent use of one object is not modelled: the class is not synchronised, and the model is sequential.
- `src/test/java/fr/marcwrobel/jbanking/IsoCurrencyTest.java` checks currency and country reference data against external libraries and is not part of this model.

## Findings

| source | as written | input that shows it | evidently intended | confidence | as-written member | corrected member |
|---|---|---|---|---|---|---|
| src/test/java/fr/marcwrobel/jbanking/CreditCardTest.java:24 | `5555555555551111` is listed among the valid mastercards | `5555555555551111`: it has the mastercard shape, but its Luhn sum is 42, so `isCardValid` returns false | a mastercard test number that passes, such as the published `5555555555554444` | high (not executed) | `CreditCardExamples.ListedMastercardRejected` | `CreditCardExamples.ValidMastercard4` |
