/** Digit characters and the cleaning step `replace(/\D/g, '')` that every
    operation of the card validator applies to its input first. */
module Digits {

  /** `\d` of a JavaScript regular expression without the `u` flag: the ASCII digits. */
  predicate IsDigit(c: char) {
    '0' <= c <= '9'
  }

  predicate AllDigits(s: string) {
    forall i :: 0 <= i < |s| ==> IsDigit(s[i])
  }

  /** `parseInt` of a one-character digit string. */
  function DigitValue(c: char): (d: nat)
    requires IsDigit(c)
    ensures d <= 9
  {
    (c as int) - ('0' as int)
  }

  /** The input with every non-digit character removed, order kept. */
  function Clean(s: string): (r: string)
    ensures AllDigits(r)
    ensures |r| <= |s|
  {
    if s == [] then []
    else (if IsDigit(s[0]) then [s[0]] else []) + Clean(s[1..])
  }

  /** Removing non-digits from a digit string changes nothing. */
  lemma {:induction false} CleanOfDigits(s: string)
    requires AllDigits(s)
    ensures Clean(s) == s
  {
    if s != [] {
      CleanOfDigits(s[1..]);
    }
  }

  /** Cleaning twice is cleaning once. */
  lemma CleanIdempotent(s: string)
    ensures Clean(Clean(s)) == Clean(s)
  {
    CleanOfDigits(Clean(s));
  }

  /** Cleaning distributes over concatenation. */
  lemma {:induction false} CleanConcat(a: string, b: string)
    ensures Clean(a + b) == Clean(a) + Clean(b)
  {
    if a != [] {
      calc {
        Clean(a + b);
        { assert (a + b)[0] == a[0] && (a + b)[1..] == a[1..] + b; }
        (if IsDigit(a[0]) then [a[0]] else []) + Clean(a[1..] + b);
        { CleanConcat(a[1..], b); }
        Clean(a) + Clean(b);
      }
    } else {
      assert a + b == b;
    }
  }

  /** The cleaned string is empty exactly when the input holds no digit. */
  lemma {:induction false} CleanEmptyIff(s: string)
    ensures Clean(s) == [] <==> forall i :: 0 <= i < |s| ==> !IsDigit(s[i])
  {
    if s != [] {
      CleanEmptyIff(s[1..]);
      assert forall i :: 1 <= i < |s| ==> s[i] == s[1..][i - 1];
    }
  }

  /** A trailing space is dropped by cleaning. */
  lemma CleanDropsSpace(a: string)
    ensures Clean(a + " ") == Clean(a)
  {
    CleanConcat(a, " ");
    assert Clean(" ") == [];
  }

  /** Cleaning two digit groups joined by a space gives the two groups side by side. */
  lemma CleanSpacedGroups(a: string, b: string)
    requires AllDigits(a) && AllDigits(b)
    ensures Clean(a + " " + b) == a + b
  {
    CleanDropsSpace(a);
    CleanOfDigits(a);
    CleanConcat(a + " ", b);
    CleanOfDigits(b);
  }
}
