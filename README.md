# Card validation rules, modelled in Dafny

This project models the card-number rule engine of a credit-card validation app
(`src/utils/cardValidation.ts`). It covers these parts:

- the ordered brand registry `cardTypes`: visa, mastercard, amex, discover, diners, jcb;
- brand detection by prefix (`detectCardType`);
- the mod-10 Luhn checksum of ISO/IEC 7812-1, Annex B (`validateLuhn`);
- the combined verdict with its itemised checks and ordered error list (`validateCard`);
- the display formatter (`formatCardNumber`) and the masker (`maskCardNumber`);
- the CVV check (`validateCVV`) and the expiry check (`validateExpiryDate`).

Every operation except `validateExpiryDate` first strips the non-digits from its input.
In the model that step is `Digits.Clean`. `validateExpiryDate` only parses its two
arguments with `parseInt`. The project has five modules:

- `Digits` (digits.dfy) holds the digit predicates and `Clean`.
- `Registry` (registry.dfy) holds the brand table, prefix rules and detection.
- `Luhn` (luhn.dfy) holds the checksum.
- `Validation` (validation.dfy) holds `validateCard`, `validateCVV` and `validateExpiryDate`.
- `Display` (display.dfy) holds `formatCardNumber` and `maskCardNumber`.

The source writes `detectCardType`, `validateLuhn` and `validateCard` as loops or in-place
pushes, so the model writes them as methods. Each method is proved equal to a
specification function: `Detect`, `LuhnValid` and `ErrorList`. The remaining operations
are pure functions, and lemmas state their properties.

Points where the code's behaviour may surprise:

- `validateLuhn` on a string with no digits returns true, because the sum is 0.
  `validateCard` never reaches that case: it returns early for an empty cleaned number.
- `maskCardNumber` picks the amex mask by the detected brand key `'amex'`. It does not
  look at the grouping shape.
- The amex and diners formatters use unanchored regular expressions. With fewer than
  15 or 14 digits they do not match, so the cleaned digits come back ungrouped. Digits
  beyond 15 or 14 stay attached to the last group.
- `formatValid` is computed on the cleaned number, so it is always true once the early
  return is passed. `isValid` therefore reduces to `lengthValid && luhnValid`.
- The brand rules are pairwise disjoint. The registry order can never change which
  brand is detected (`Registry.DetectAnyMatch`).

## Model

| member | source | states |
|---|---|---|
| Digits.DigitValue | src/utils/cardValidation.ts:102 | `parseInt` of one digit character: its numeric value, between 0 and 9 |
| Digits.Clean | src/utils/cardValidation.ts:84 | `replace(/\D/g, '')`: the result holds only digits and is no longer than the input |
| Digits.CleanIdempotent | src/utils/cardValidation.ts:142-143 | cleaning a cleaned number changes nothing, so `detectCardType(cleanNumber)` sees the same digits |
| Digits.CleanEmptyIff | src/utils/cardValidation.ts:142-147 | the cleaned number is empty exactly when the input holds no digit, which is when the early return of `validateCard` is taken |
| Registry.Test | src/utils/cardValidation.ts:28-87 | `pattern.test(s)` for each of the six prefix regular expressions, written as a prefix predicate; its meaning is stated by `PatternsDisjoint`, `DetectVisa` and `DetectDiscover6011` |
| Registry.CardTypes | src/utils/cardValidation.ts:25-80 | the six entries in declaration order with their keys, display names, prefix rules, lengths and CVV lengths; stated by `RegistryWellFormed` |
| Registry.DetectFrom | src/utils/cardValidation.ts:86-92 | the first matching entry at index k or later, renamed to its key; none exactly when no rule from k on matches |
| Registry.Detect | src/utils/cardValidation.ts:86-92 | detection on a cleaned number: `DetectFrom` from the first entry, so the first matching entry in registry order, or none |
| Registry.DetectCardType | src/utils/cardValidation.ts:83-93 | the loop with early return yields the first entry of the cleaned input in registry order, with `name` set to the key, or none |
| Registry.PatternsDisjoint | src/utils/cardValidation.ts:25-80 | no string matches the prefix rules of two different brands |
| Registry.DetectAnyMatch | src/utils/cardValidation.ts:25-93 | any brand whose rule matches is the detected brand, so the declaration order never decides a result |
| Registry.DetectEmpty | src/utils/cardValidation.ts:83-93 | an empty cleaned string is detected as no brand |
| Registry.DetectedIsRegistryEntry | src/utils/cardValidation.ts:86-88 | the detected value is a registry entry: name is its key, lengths and CVV length are the entry's, and the name has at least three characters, so `cardType?.name \|\| 'unknown'` at line 181 keeps it |
| Registry.RegistryWellFormed | src/utils/cardValidation.ts:25-80 | the keys are distinct and non-empty, every brand allows some length, and every CVV length is 3 or 4 |
| Registry.DetectVisa | src/utils/cardValidation.ts:26-29 | a number starting with 4 is visa, with lengths 13, 16 and 19 |
| Registry.DetectDiscover6011 | src/utils/cardValidation.ts:53-57 | a 16-digit number starting with 6011 is discover, its length is accepted, and amex would not accept it |
| Luhn.Contribution | src/utils/cardValidation.ts:102-109 | a digit adds itself, or when doubled it adds the sum of the decimal digits of its double; never more than 9 |
| Luhn.LuhnSum | src/utils/cardValidation.ts:101-113 | the loop's sum from the last digit leftwards with the `isEven` toggle; related to the positional definition by `LuhnSumIsPositional` and split by `LuhnSumConcat` |
| Luhn.LuhnValid | src/utils/cardValidation.ts:115 | `sum % 10 === 0` on that sum; its meaning is stated by `ValidateLuhn`, the examples and `LuhnDetectsSingleDigitError` |
| Luhn.ValidateLuhn | src/utils/cardValidation.ts:96-116 | the right-to-left loop with the `isEven` toggle returns exactly `LuhnValid` of the cleaned input |
| Luhn.LuhnSumConcat | src/utils/cardValidation.ts:101-113 | the sum of a concatenation: the right part with the starting flag, the left part with the flag flipped once per digit of the right part |
| Luhn.LuhnSumIsPositional | src/utils/cardValidation.ts:101-113 | the loop's sum equals the positional definition: a digit is doubled exactly when an odd number of digits stand to its right |
| Luhn.LuhnOfEmpty | src/utils/cardValidation.ts:96-116 | with no digits the sum is 0 and the check passes |
| Luhn.LuhnExamplePasses | src/utils/cardValidation.ts:96-116 | 4532015112830366 has sum 50 and passes |
| Luhn.LuhnExampleFails | src/utils/cardValidation.ts:96-116 | 4532015112830367 has sum 51 and fails |
| Luhn.PositionalSumUpdate | src/utils/cardValidation.ts:101-113 | replacing one digit changes the sum by the difference of the old and new digit's contributions at that position |
| Luhn.ContributionInjective | src/utils/cardValidation.ts:104-109 | two different digits contribute differently in the same position, doubled or not |
| Luhn.LuhnDetectsSingleDigitError | src/utils/cardValidation.ts:96-116 | if a number passes, changing any one digit to a different digit makes it fail |
| Validation.ErrorList | src/utils/cardValidation.ts:163-177 | the errors pushed for given check outcomes, one conditional push per check; its meaning is stated by `ErrorListMeaning` |
| Validation.ErrorListMeaning | src/utils/cardValidation.ts:161-177 | the error list is empty exactly when all three checks pass; it holds each check's message exactly when that check fails, in the order length, Luhn, format, and never the "required" message |
| Validation.ValidateCard | src/utils/cardValidation.ts:141-189 | no digits: not valid, 'unknown', only the required message, all details false. Otherwise: lengthValid iff a brand was detected and allows the length; luhnValid is the checksum; formatValid holds; errors as pushed in order; cardType is the key or 'unknown'; isValid iff no errors, iff all details hold, iff length and checksum pass |
| Validation.ValidateSpacedVisa | src/utils/cardValidation.ts:141-189 | "4532 0151 1283 0366" is valid, detected as visa, with no errors and all three details true |
| Validation.ValidateCVV | src/utils/cardValidation.ts:208-216 | true iff the CVV's digit count is 4 for the key 'amex' and 3 for any other or no brand |
| Validation.CvvAgreesWithRegistry | src/utils/cardValidation.ts:208-216 | for every registry key, the required CVV digit count equals that brand's `cvvLength` |
| Validation.ValidateExpiryDate | src/utils/cardValidation.ts:192-205 | for numeric month and year: false for a month outside 1..12, for a past year, and for an earlier month of this year, true otherwise. A `NaN` month skips the month tests, so only a past year gives false; a `NaN` year skips the year tests, so only a month outside 1..12 gives false; both `NaN` gives true |
| Validation.ExpiryByMonthIndex | src/utils/cardValidation.ts:192-205 | for numeric input and a current month in 1..12: valid iff the month is in 1..12 and year * 12 + month is not before today's |
| Display.GroupsOfFour | src/utils/cardValidation.ts:125 | `replace(/(\d{4})(?=\d)/g, '$1 ')` on a digit string; its shape is stated by `GroupsOfFourShape` and `GroupsOfFourOnlyInsertsSpaces` |
| Display.GroupsOfFourLength | src/utils/cardValidation.ts:125 | grouping n > 0 digits in fours adds (n - 1) / 4 spaces |
| Display.GroupsOfFourAt | src/utils/cardValidation.ts:125 | position i of the grouped digits is a space iff i % 5 == 4, and otherwise it holds digit i - i / 5 |
| Display.GroupsOfFourShape | src/utils/cardValidation.ts:125 | the grouped string has the described length, spaces exactly at every fifth position, the digits in order between them, and starts and ends with a digit of the input |
| Display.ThreeGroups | src/utils/cardValidation.ts:130-133 | with fewer than a+b+c digits the input is returned; otherwise spaces at positions a and a+b+1 with the digits in order around them |
| Display.SliceLast | src/utils/cardValidation.ts:225-228 | `slice(-k)`: for k >= 1 the last min(k, n) characters, and for k = 0 (`slice(-0)`, which is `slice(0)`) the whole string |
| Display.GroupsOfFourOnlyInsertsSpaces | src/utils/cardValidation.ts:125 | the grouped string holds only digits and spaces, and deleting the spaces gives the digits back |
| Display.ThreeGroupsOnlyInsertsSpaces | src/utils/cardValidation.ts:130-133 | the 4-6-5 and 4-6-4 groupings hold only digits and spaces, and deleting the spaces gives the digits back |
| Display.FormatCardNumber | src/utils/cardValidation.ts:119-138 | `formatCardNumber`: clean, detect, then group by four or split 4-6-5 for amex and 4-6-4 for diners; stated by the `Format*` lemmas below |
| Display.FormatOnlyInsertsSpaces | src/utils/cardValidation.ts:119-138 | the formatted number holds only digits and spaces; deleting the spaces, or cleaning it, gives the cleaned input |
| Display.FormatIdempotent | src/utils/cardValidation.ts:119-138 | formatting a formatted number, or its cleaned form, gives the same formatted number |
| Display.FormatDefaultGrouping | src/utils/cardValidation.ts:123-136 | with no brand, or a brand other than amex and diners, the output is the cleaned digits grouped by four as in `GroupedByFour` |
| Display.FormatAmex | src/utils/cardValidation.ts:128-130 | amex: 4-6-5 once there are 15 digits, extra digits kept on the last group; fewer digits come back ungrouped |
| Display.FormatDiners | src/utils/cardValidation.ts:131-133 | diners: 4-6-4 once there are 14 digits, extra digits kept on the last group; fewer digits come back ungrouped |
| Display.FormatHasNoOuterSpace | src/utils/cardValidation.ts:125-136 | the output starts and ends with a digit, so the final `trim()` removes nothing |
| Display.MaskPrefixesHaveNoDigits | src/utils/cardValidation.ts:225-228 | both mask prefixes contain no digit |
| Display.MaskCardNumber | src/utils/cardValidation.ts:219-230 | `maskCardNumber`: the amex or default prefix, picked by the detected key, followed by `slice(-4)` of the cleaned number; stated by the `Mask*` lemmas below |
| Display.MaskRevealsLastFour | src/utils/cardValidation.ts:219-230 | the digits in the mask are exactly the last min(4, n) cleaned digits, never more than 4 |
| Display.MaskShape | src/utils/cardValidation.ts:219-230 | the mask is "**** ****** *" for a number detected as amex and "**** **** **** " otherwise, followed by the last min(4, n) cleaned digits |
| Display.MaskExampleVisa | src/utils/cardValidation.ts:226-228 | 4532015112830366 is masked as "**** **** **** 0366" |
| Display.MaskExampleAmex | src/utils/cardValidation.ts:223-225 | 378282246310005 is masked as "**** ****** *0005" |

## Left out

- The React components, the validation hook with its timer, its notifications and its remote persistence are not part of this model. They are presentation and I/O.
- The `color`, `icon` and `format` fields of the registry are left out. They are display data, and nothing reads `format`.
- The prefix regular expressions are written as explicit prefix predicates (`Registry.Test`). Regular-expression matching in general is not modelled.
- `validateExpiryDate` reads the clock through `new Date()`. The model takes the current year and month as parameters instead.
- Validation.ValidateExpiryDate: takes the results of `parseInt` as `Parsed` values, a number or `NaN`. How `parseInt` turns the month and year strings into those values (leading digits, signs, whitespace) is not modelled.
- `parseInt` of a single digit character in `validateLuhn` is modelled as `DigitValue`. Other inputs cannot occur, because after cleaning every character is a digit.
- The final `trim()` of `formatCardNumber` is not applied. `Display.FormatHasNoOuterSpace` proves it would remove nothing.
- Strings are sequences of Unicode characters, not UTF-16 code units. `\d` is taken as the ASCII digits `0`-`9`, as JavaScript does without the `u` flag.
- The comment in `maskCardNumber` about showing the first 4 and last 5 amex digits does not match the code, which shows only the last 4. The code is modelled.
- The example lemmas (`LuhnExamplePasses`, `LuhnExampleFails`, `MaskExampleVisa`, `MaskExampleAmex`) each write its 15- or 16-digit number as two concatenated literals. This keeps the verifier's literal unfolding small. The number is the same.
