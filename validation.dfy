/** The combined verdict `validateCard` and the ancillary checks `validateCVV`
    and `validateExpiryDate`. */
module Validation {
  import opened Digits
  import opened Registry
  import opened Luhn

  datatype Details = Details(luhnValid: bool, lengthValid: bool, formatValid: bool)

  datatype CardValidationResult = CardValidationResult(
    isValid: bool,
    cardType: string,
    errors: seq<string>,
    details: Details)

  const RequiredError := "Número do cartão é obrigatório"
  const LengthError := "Comprimento do número do cartão inválido"
  const LuhnError := "Número do cartão inválido (falha na verificação Luhn)"
  const FormatError := "Formato do número do cartão inválido"

  /** `cardType.lengths.includes(n)` for the detected brand; false when none was detected. */
  predicate LengthAccepted(cardType: Option<CardType>, n: nat) {
    cardType.Some? && n in cardType.value.lengths
  }

  /** `errors.push(e)` when a check fails. */
  function Pushed(errors: seq<string>, ok: bool, e: string): seq<string> {
    if ok then errors else errors + [e]
  }

  /** The errors reported for a non-empty number with these check outcomes, in push order. */
  function ErrorList(d: Details): seq<string> {
    Pushed(Pushed(Pushed([], d.lengthValid, LengthError), d.luhnValid, LuhnError), d.formatValid, FormatError)
  }

  /** One error per failed check, in the order length, checksum, format; none when all pass. */
  lemma ErrorListMeaning(d: Details)
    ensures ErrorList(d) == [] <==> d.lengthValid && d.luhnValid && d.formatValid
    ensures LengthError in ErrorList(d) <==> !d.lengthValid
    ensures LuhnError in ErrorList(d) <==> !d.luhnValid
    ensures FormatError in ErrorList(d) <==> !d.formatValid
    ensures RequiredError !in ErrorList(d)
    ensures |ErrorList(d)| == (if d.lengthValid then 0 else 1) + (if d.luhnValid then 0 else 1)
                              + (if d.formatValid then 0 else 1)
    ensures !d.lengthValid ==> ErrorList(d)[0] == LengthError
    ensures !d.formatValid ==> ErrorList(d)[|ErrorList(d)| - 1] == FormatError
  {
  }

  /** `validateCard`. An input without digits is rejected at once with a single error;
      otherwise all three checks run and each failing one pushes its message, in the
      order length, checksum, format. */
  method ValidateCard(cardNumber: string) returns (r: CardValidationResult)
    ensures Clean(cardNumber) == [] ==>
      r == CardValidationResult(false, "unknown", [RequiredError], Details(false, false, false))
    ensures Clean(cardNumber) != [] ==>
      && r.details.lengthValid == LengthAccepted(Detect(Clean(cardNumber)), |Clean(cardNumber)|)
      && r.details.luhnValid == LuhnValid(Clean(cardNumber))
      && r.details.formatValid
      && r.errors == ErrorList(r.details)
      && r.cardType == (if Detect(Clean(cardNumber)).Some? then Detect(Clean(cardNumber)).value.name else "unknown")
    ensures r.isValid <==> r.errors == []
    ensures r.isValid <==> r.details.lengthValid && r.details.luhnValid && r.details.formatValid
    ensures r.isValid ==> Clean(cardNumber) != [] && LengthAccepted(Detect(Clean(cardNumber)), |Clean(cardNumber)|)
                          && LuhnValid(Clean(cardNumber))
    ensures Clean(cardNumber) != [] ==>
      (r.isValid <==> LengthAccepted(Detect(Clean(cardNumber)), |Clean(cardNumber)|) && LuhnValid(Clean(cardNumber)))
  {
    var cleanNumber := Clean(cardNumber);
    CleanIdempotent(cardNumber);
    var cardType := DetectCardType(cleanNumber);
    var errors: seq<string> := [];

    if cleanNumber == [] {
      errors := errors + [RequiredError];
      return CardValidationResult(false, "unknown", errors, Details(false, false, false));
    }

    var lengthValid := if cardType.Some? then |cleanNumber| in cardType.value.lengths else false;
    if !lengthValid {
      errors := errors + [LengthError];
    }
    assert errors == Pushed([], lengthValid, LengthError);

    var luhnValid := ValidateLuhn(cleanNumber);
    ghost var before := errors;
    if !luhnValid {
      errors := errors + [LuhnError];
    }
    assert errors == Pushed(before, luhnValid, LuhnError);

    // `/^\d+$/.test(cleanNumber)`: at least one character, and only digits.
    var formatValid := |cleanNumber| > 0 && AllDigits(cleanNumber);
    before := errors;
    if !formatValid {
      errors := errors + [FormatError];
    }
    assert errors == Pushed(before, formatValid, FormatError);

    var details := Details(luhnValid, lengthValid, formatValid);
    ErrorListMeaning(details);
    var name := if cardType.Some? && cardType.value.name != "" then cardType.value.name else "unknown";
    if cardType.Some? {
      DetectedIsRegistryEntry(cleanNumber);
    }
    r := CardValidationResult(|errors| == 0, name, errors, details);
  }

  /** The end-to-end scenario: "4532 0151 1283 0366" passes every check as a Visa number. */
  method ValidateSpacedVisa() returns (r: CardValidationResult)
    ensures r.isValid && r.cardType == "visa" && r.errors == []
    ensures r.details == Details(true, true, true)
  {
    var left, right := "45320151", "12830366";
    var input := "4532" + " " + "0151" + " " + "1283" + " " + "0366";
    assert input == ("4532" + " " + "0151") + " " + ("1283" + " " + "0366");
    CleanSpacedGroups("4532", "0151");
    CleanSpacedGroups("1283", "0366");
    assert "4532" + "0151" == left && "1283" + "0366" == right;
    CleanConcat("4532" + " " + "0151" + " ", "1283" + " " + "0366");
    CleanDropsSpace("4532" + " " + "0151");
    assert Clean(input) == left + right;
    LuhnExamplePasses();
    DetectVisa(left + right);
    assert LengthAccepted(Detect(left + right), |left + right|);
    r := ValidateCard(input);
  }

  /** `validateCVV`: the digit count must be 4 for the key "amex" and 3 for any other or no brand. */
  function ValidateCVV(cvv: string, cardType: Option<string>): (ok: bool)
    ensures ok <==> |Clean(cvv)| == (if cardType == Some("amex") then 4 else 3)
  {
    var cleanCvv := Clean(cvv);
    if cardType == Some("amex") then |cleanCvv| == 4 else |cleanCvv| == 3
  }

  /** For every brand key of the registry the CVV check asks for that brand's `cvvLength`. */
  lemma CvvAgreesWithRegistry(cvv: string, k: nat)
    requires k < |CardTypes|
    ensures ValidateCVV(cvv, Some(CardTypes[k].key)) <==> |Clean(cvv)| == CardTypes[k].card.cvvLength
  {
  }

  /** What `parseInt` yields: a number, or `NaN` when the text does not start with one. */
  datatype Parsed = Number(n: int) | NaN

  /** `x < y` on a parsed value: every comparison with `NaN` is false. */
  predicate Below(x: Parsed, y: int) {
    x.Number? && x.n < y
  }

  predicate Above(x: Parsed, y: int) {
    x.Number? && x.n > y
  }

  /** `x === y`: `NaN` equals nothing. */
  predicate Equals(x: Parsed, y: int) {
    x.Number? && x.n == y
  }

  /** `validateExpiryDate` on the parsed month and year, with today's year and month
      (`getMonth() + 1`) passed in. */
  function ValidateExpiryDate(expMonth: Parsed, expYear: Parsed, currentYear: int, currentMonth: int): (ok: bool)
    ensures expMonth.Number? && expYear.Number? ==>
      (ok <==> 1 <= expMonth.n <= 12 && (expYear.n > currentYear ||
                                         (expYear.n == currentYear && expMonth.n >= currentMonth)))
    ensures expMonth.NaN? && expYear.Number? ==> (ok <==> expYear.n >= currentYear)
    ensures expMonth.Number? && expYear.NaN? ==> (ok <==> 1 <= expMonth.n <= 12)
    ensures expMonth.NaN? && expYear.NaN? ==> ok
  {
    if Below(expMonth, 1) || Above(expMonth, 12) then false
    else if Below(expYear, currentYear) then false
    else if Equals(expYear, currentYear) && Below(expMonth, currentMonth) then false
    else true
  }

  /** For numeric input, a card is valid when its expiry month, counted as year * 12 + month,
      is not before today's. */
  lemma ExpiryByMonthIndex(month: int, year: int, currentYear: int, currentMonth: int)
    requires 1 <= currentMonth <= 12
    ensures ValidateExpiryDate(Number(month), Number(year), currentYear, currentMonth) <==>
            1 <= month <= 12 && year * 12 + month >= currentYear * 12 + currentMonth
  {
  }
}
