/** The mod-10 checksum `validateLuhn` (ISO/IEC 7812-1, Annex B). */
module Luhn {
  import opened Digits

  /** What one digit adds to the sum: itself, or when doubled, twice itself less 9 above 9. */
  function Contribution(d: nat, doubled: bool): (c: nat)
    requires d <= 9
    ensures c <= 9
    ensures doubled ==> c == (2 * d) / 10 + (2 * d) % 10
    ensures !doubled ==> c == d
  {
    if doubled then (if 2 * d > 9 then 2 * d - 9 else 2 * d) else d
  }

  /** The checksum as the source computes it: from the last digit leftwards, doubling
      a digit when the `isEven` flag is set and flipping the flag after every digit. */
  function LuhnSum(s: string, isEven: bool): nat
    requires AllDigits(s)
  {
    if s == [] then 0
    else Contribution(DigitValue(s[|s| - 1]), isEven) + LuhnSum(s[..|s| - 1], !isEven)
  }

  predicate LuhnValid(s: string)
    requires AllDigits(s)
  {
    LuhnSum(s, false) % 10 == 0
  }

  /** `validateLuhn`: clean, then a right-to-left loop that toggles `isEven` at every digit. */
  method ValidateLuhn(cardNumber: string) returns (valid: bool)
    ensures valid == LuhnValid(Clean(cardNumber))
  {
    var cleanNumber := Clean(cardNumber);
    var sum := 0;
    var isEven := false;
    var i := |cleanNumber|;
    assert cleanNumber[..i] == cleanNumber;
    while i > 0
      invariant 0 <= i <= |cleanNumber|
      invariant sum + LuhnSum(cleanNumber[..i], isEven) == LuhnSum(cleanNumber, false)
    {
      i := i - 1;
      var digit := DigitValue(cleanNumber[i]);
      if isEven {
        digit := digit * 2;
        if digit > 9 {
          digit := digit - 9;
        }
      }
      assert cleanNumber[..i + 1][..i] == cleanNumber[..i];
      sum := sum + digit;
      isEven := !isEven;
    }
    valid := sum % 10 == 0;
  }

  /** Reference definition by position, read from the left: the digit at index `i` is
      doubled exactly when an odd number of digits stand to its right (flipped by `shift`). */
  function PositionalSum(s: string, shift: bool): nat
    requires AllDigits(s)
  {
    if s == [] then 0
    else Contribution(DigitValue(s[0]), ((|s| - 1) % 2 == 1) != shift) + PositionalSum(s[1..], shift)
  }

  /** Splitting the digits: the left part sees the flag as it stands after the right part. */
  lemma {:induction false} LuhnSumConcat(a: string, b: string, isEven: bool)
    requires AllDigits(a) && AllDigits(b)
    ensures AllDigits(a + b)
    ensures LuhnSum(a + b, isEven) == LuhnSum(b, isEven) + LuhnSum(a, isEven != (|b| % 2 == 1))
  {
    if b == [] {
      assert a + b == a;
    } else {
      var b' := b[..|b| - 1];
      assert (a + b)[..|a + b| - 1] == a + b';
      assert (a + b)[|a + b| - 1] == b[|b| - 1];
      LuhnSumConcat(a, b', !isEven);
    }
  }

  /** The loop's right-to-left sum agrees with the positional reference definition. */
  lemma {:induction false} LuhnSumIsPositional(s: string, isEven: bool)
    requires AllDigits(s)
    ensures LuhnSum(s, isEven) == PositionalSum(s, isEven)
  {
    if s != [] {
      assert s == [s[0]] + s[1..];
      LuhnSumConcat([s[0]], s[1..], isEven);
      LuhnSumIsPositional(s[1..], isEven);
    }
  }

  /** With no digits the sum is 0 and the checksum holds. */
  lemma LuhnOfEmpty()
    ensures LuhnValid("")
  {
  }

  // Checksums of the halves of the two test numbers below.
  lemma LeftHalfSum()
    ensures LuhnSum("45320151", false) == 24
  {
    assert PositionalSum("45320151", false) == 24;
    LuhnSumIsPositional("45320151", false);
  }

  lemma RightHalfSumPassing()
    ensures LuhnSum("12830366", false) == 26
  {
    assert PositionalSum("12830366", false) == 26;
    LuhnSumIsPositional("12830366", false);
  }

  lemma RightHalfSumFailing()
    ensures LuhnSum("12830367", false) == 27
  {
    assert PositionalSum("12830367", false) == 27;
    LuhnSumIsPositional("12830367", false);
  }

  /** The canonical test number 4532015112830366 passes: its sum is 50. */
  lemma LuhnExamplePasses()
    ensures AllDigits("45320151" + "12830366")
    ensures LuhnSum("45320151" + "12830366", false) == 50
    ensures LuhnValid("45320151" + "12830366")
  {
    LeftHalfSum();
    RightHalfSumPassing();
    LuhnSumConcat("45320151", "12830366", false);
  }

  /** Changing its last digit (4532015112830367) makes it fail: the sum is 51. */
  lemma LuhnExampleFails()
    ensures AllDigits("45320151" + "12830367")
    ensures LuhnSum("45320151" + "12830367", false) == 51
    ensures !LuhnValid("45320151" + "12830367")
  {
    LeftHalfSum();
    RightHalfSumFailing();
    LuhnSumConcat("45320151", "12830367", false);
  }

  /** Replacing the digit at `i` changes the sum by the difference of its two contributions. */
  lemma {:induction false} PositionalSumUpdate(s: string, i: nat, c: char, shift: bool)
    requires AllDigits(s) && i < |s| && IsDigit(c)
    ensures AllDigits(s[i := c])
    ensures PositionalSum(s[i := c], shift) + Contribution(DigitValue(s[i]), ((|s| - 1 - i) % 2 == 1) != shift)
            == PositionalSum(s, shift) + Contribution(DigitValue(c), ((|s| - 1 - i) % 2 == 1) != shift)
  {
    var t := s[i := c];
    if i > 0 {
      assert t[1..] == s[1..][i - 1 := c];
      PositionalSumUpdate(s[1..], i - 1, c, shift);
    } else {
      assert t[1..] == s[1..];
    }
  }

  /** Two different digits contribute differently in the same position. */
  lemma ContributionInjective(d: nat, e: nat, doubled: bool)
    requires d <= 9 && e <= 9 && d != e
    ensures Contribution(d, doubled) != Contribution(e, doubled)
  {
  }

  lemma ShiftBreaksMultipleOfTen(a: nat, b: nat, x: nat, y: nat)
    requires x <= 9 && y <= 9 && x != y && b + x == a + y && a % 10 == 0
    ensures b % 10 != 0
  {
  }

  /** The checksum detects every single-digit substitution. */
  lemma LuhnDetectsSingleDigitError(s: string, i: nat, c: char)
    requires AllDigits(s) && i < |s| && IsDigit(c) && c != s[i]
    requires LuhnValid(s)
    ensures AllDigits(s[i := c]) && !LuhnValid(s[i := c])
  {
    var t := s[i := c];
    var doubled := (|s| - 1 - i) % 2 == 1;
    PositionalSumUpdate(s, i, c, false);
    LuhnSumIsPositional(s, false);
    LuhnSumIsPositional(t, false);
    assert DigitValue(c) != DigitValue(s[i]);
    ContributionInjective(DigitValue(c), DigitValue(s[i]), doubled);
    ShiftBreaksMultipleOfTen(LuhnSum(s, false), LuhnSum(t, false),
      Contribution(DigitValue(s[i]), doubled), Contribution(DigitValue(c), doubled));
  }
}
