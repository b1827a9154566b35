/** The display transforms `formatCardNumber` and `maskCardNumber`. */
module Display {
  import opened Digits
  import opened Registry

  predicate DigitsAndSpaces(s: string) {
    forall i :: 0 <= i < |s| ==> IsDigit(s[i]) || s[i] == ' '
  }

  /** The string with its spaces deleted. */
  function RemoveSpaces(s: string): string {
    if s == [] then []
    else (if s[0] == ' ' then [] else [s[0]]) + RemoveSpaces(s[1..])
  }

  /** `replace(/(\d{4})(?=\d)/g, '$1 ')` on a digit string: a space after every block of
      four digits that another digit follows. */
  function GroupsOfFour(d: string): string
    decreases |d|
  {
    if |d| <= 4 then d else d[..4] + " " + GroupsOfFour(d[4..])
  }

  /** Where the spaces go: position `i` of the grouped string holds a space exactly when
      `i % 5 == 4`, and otherwise digit `i - i / 5` of the input; it starts and ends with
      the input's first and last digit. */
  predicate GroupedByFour(d: string, r: string) {
    && |r| == |d| + (if |d| == 0 then 0 else (|d| - 1) / 4)
    && (forall i :: 0 <= i < |r| ==> (r[i] == ' ' <==> i % 5 == 4))
    && (forall i :: 0 <= i < |r| && i % 5 != 4 ==> i - i / 5 < |d| && r[i] == d[i - i / 5])
    && (d != [] ==> r[0] == d[0] && r[|r| - 1] == d[|d| - 1])
  }

  lemma BelowFive(i: int)
    requires 0 <= i < 5
    ensures i % 5 == i && i / 5 == 0
  {
  }

  lemma ShiftByFive(i: int)
    requires i >= 5
    ensures (i - 5) % 5 == i % 5 && (i - 5) / 5 == i / 5 - 1
    ensures i - i / 5 == 4 + (i - 5) - (i - 5) / 5
  {
  }

  lemma {:induction false} GroupsOfFourLength(d: string)
    ensures |GroupsOfFour(d)| == |d| + (if |d| == 0 then 0 else (|d| - 1) / 4)
    decreases |d|
  {
    if |d| > 4 {
      GroupsOfFourLength(d[4..]);
    }
  }

  /** Position `i` of the grouped string: a space exactly at `i % 5 == 4`, else digit `i - i / 5`. */
  lemma {:induction false} GroupsOfFourAt(d: string, i: nat)
    requires AllDigits(d) && i < |GroupsOfFour(d)|
    ensures GroupsOfFour(d)[i] == ' ' <==> i % 5 == 4
    ensures i % 5 != 4 ==> i - i / 5 < |d| && GroupsOfFour(d)[i] == d[i - i / 5]
    decreases |d|
  {
    if |d| <= 4 {
      GroupsOfFourLength(d);
      BelowFive(i);
    } else if i < 5 {
      BelowFive(i);
    } else {
      var e := d[4..];
      ShiftByFive(i);
      assert GroupsOfFour(d)[i] == GroupsOfFour(e)[i - 5];
      GroupsOfFourAt(e, i - 5);
    }
  }

  /** The last position of a grouped string of `n` digits holds digit `n - 1`. */
  lemma LastPosition(n: nat)
    requires n > 0
    ensures var m := n - 1 + (n - 1) / 4; m % 5 != 4 && m - m / 5 == n - 1
  {
    var q, s := (n - 1) / 4, (n - 1) % 4;
    var m := n - 1 + q;
    assert m == 5 * q + s;
  }

  lemma GroupsOfFourSpaces(d: string)
    requires AllDigits(d)
    ensures forall i :: 0 <= i < |GroupsOfFour(d)| ==> (GroupsOfFour(d)[i] == ' ' <==> i % 5 == 4)
  {
    forall i | 0 <= i < |GroupsOfFour(d)|
      ensures GroupsOfFour(d)[i] == ' ' <==> i % 5 == 4
    {
      GroupsOfFourAt(d, i);
    }
  }

  lemma GroupsOfFourDigits(d: string)
    requires AllDigits(d)
    ensures forall i :: 0 <= i < |GroupsOfFour(d)| && i % 5 != 4 ==>
                        i - i / 5 < |d| && GroupsOfFour(d)[i] == d[i - i / 5]
  {
    forall i | 0 <= i < |GroupsOfFour(d)| && i % 5 != 4
      ensures i - i / 5 < |d| && GroupsOfFour(d)[i] == d[i - i / 5]
    {
      GroupsOfFourAt(d, i);
    }
  }

  lemma GroupsOfFourEnds(d: string)
    requires AllDigits(d) && d != []
    ensures GroupsOfFour(d)[0] == d[0]
    ensures GroupsOfFour(d)[|GroupsOfFour(d)| - 1] == d[|d| - 1]
  {
    GroupsOfFourLength(d);
    GroupsOfFourAt(d, 0);
    LastPosition(|d|);
    GroupsOfFourAt(d, |GroupsOfFour(d)| - 1);
  }

  lemma GroupsOfFourShape(d: string)
    requires AllDigits(d)
    ensures GroupedByFour(d, GroupsOfFour(d))
  {
    GroupsOfFourLength(d);
    GroupsOfFourSpaces(d);
    GroupsOfFourDigits(d);
    if d != [] {
      GroupsOfFourEnds(d);
    }
  }

  /** `replace(/(\d{a})(\d{b})(\d{c})/, '$1 $2 $3')` on a digit string: the first match is at
      the start when there are enough digits, and the digits after it stay on the last group. */
  function ThreeGroups(d: string, a: nat, b: nat, c: nat): (r: string)
    ensures |d| < a + b + c ==> r == d
    ensures |d| >= a + b + c ==>
      && |r| == |d| + 2 && r[a] == ' ' && r[a + b + 1] == ' '
      && r[..a] == d[..a] && r[a + 1..a + b + 1] == d[a..a + b] && r[a + b + 2..] == d[a + b..]
  {
    if |d| < a + b + c then d
    else d[..a] + " " + d[a..a + b] + " " + d[a + b..]
  }

  /** `formatCardNumber`. */
  function FormatCardNumber(value: string): string {
    var cleanValue := Clean(value);
    var cardType := Detect(cleanValue);
    if cardType.None? then GroupsOfFour(cleanValue)
    else if cardType.value.name == "amex" then ThreeGroups(cleanValue, 4, 6, 5)
    else if cardType.value.name == "diners" then ThreeGroups(cleanValue, 4, 6, 4)
    else GroupsOfFour(cleanValue)
  }

  /** `str.slice(-k)`: the last `k` characters, or all of them when there are fewer;
      `slice(-0)` is `slice(0)`, the whole string. */
  function SliceLast(s: string, k: nat): (r: string)
    ensures |r| == if k == 0 || |s| < k then |s| else k
    ensures r == s[|s| - |r|..]
  {
    if k == 0 || |s| <= k then s else s[|s| - k..]
  }

  const AmexMask := "**** ****** *"
  const DefaultMask := "**** **** **** "

  /** `maskCardNumber`. */
  function MaskCardNumber(cardNumber: string): string {
    var cleanNumber := Clean(cardNumber);
    var cardType := Detect(cleanNumber);
    if cardType.Some? && cardType.value.name == "amex" then AmexMask + SliceLast(cleanNumber, 4)
    else DefaultMask + SliceLast(cleanNumber, 4)
  }

  // ---- Lemmas about spaces ----

  lemma {:induction false} RemoveSpacesConcat(a: string, b: string)
    ensures RemoveSpaces(a + b) == RemoveSpaces(a) + RemoveSpaces(b)
  {
    if a == [] {
      assert a + b == b;
    } else {
      assert (a + b)[1..] == a[1..] + b;
      RemoveSpacesConcat(a[1..], b);
    }
  }

  lemma {:induction false} RemoveSpacesOfDigits(d: string)
    requires AllDigits(d)
    ensures RemoveSpaces(d) == d
  {
    if d != [] {
      RemoveSpacesOfDigits(d[1..]);
    }
  }

  /** On a string of digits and spaces, deleting spaces and cleaning agree. */
  lemma {:induction false} CleanIsRemoveSpaces(s: string)
    requires DigitsAndSpaces(s)
    ensures Clean(s) == RemoveSpaces(s)
  {
    if s != [] {
      CleanIsRemoveSpaces(s[1..]);
    }
  }

  lemma RemoveSpacesDropsSpace(x: string)
    ensures RemoveSpaces(x + " ") == RemoveSpaces(x)
  {
    RemoveSpacesConcat(x, " ");
    assert RemoveSpaces(" ") == [];
  }

  /** Joining two strings of digits and spaces with one space. */
  lemma JoinWithSpace(x: string, y: string)
    requires DigitsAndSpaces(x) && DigitsAndSpaces(y)
    ensures DigitsAndSpaces(x + " " + y)
    ensures RemoveSpaces(x + " " + y) == RemoveSpaces(x) + RemoveSpaces(y)
  {
    RemoveSpacesDropsSpace(x);
    RemoveSpacesConcat(x + " ", y);
    var j := x + " " + y;
    forall i | 0 <= i < |j|
      ensures IsDigit(j[i]) || j[i] == ' '
    {
      if i > |x| {
        assert j[i] == y[i - |x| - 1];
      } else if i < |x| {
        assert j[i] == x[i];
      }
    }
  }

  lemma {:induction false} GroupsOfFourOnlyInsertsSpaces(d: string)
    requires AllDigits(d)
    ensures DigitsAndSpaces(GroupsOfFour(d))
    ensures RemoveSpaces(GroupsOfFour(d)) == d
    decreases |d|
  {
    RemoveSpacesOfDigits(d);
    if |d| > 4 {
      GroupsOfFourOnlyInsertsSpaces(d[4..]);
      RemoveSpacesOfDigits(d[..4]);
      JoinWithSpace(d[..4], GroupsOfFour(d[4..]));
      assert d == d[..4] + d[4..];
    }
  }

  lemma ThreeGroupsOnlyInsertsSpaces(d: string, a: nat, b: nat, c: nat)
    requires AllDigits(d)
    ensures DigitsAndSpaces(ThreeGroups(d, a, b, c))
    ensures RemoveSpaces(ThreeGroups(d, a, b, c)) == d
  {
    RemoveSpacesOfDigits(d);
    if |d| >= a + b + c {
      var x, y, z := d[..a], d[a..a + b], d[a + b..];
      assert d == x + y + z;
      RemoveSpacesOfDigits(x);
      RemoveSpacesOfDigits(y);
      RemoveSpacesOfDigits(z);
      JoinWithSpace(x, y);
      JoinWithSpace(x + " " + y, z);
    }
  }

  // ---- Properties of the formatter ----

  /** The formatter only inserts spaces: deleting them gives back the cleaned digits. */
  lemma FormatOnlyInsertsSpaces(value: string)
    ensures DigitsAndSpaces(FormatCardNumber(value))
    ensures RemoveSpaces(FormatCardNumber(value)) == Clean(value)
    ensures Clean(FormatCardNumber(value)) == Clean(value)
  {
    var d := Clean(value);
    GroupsOfFourOnlyInsertsSpaces(d);
    ThreeGroupsOnlyInsertsSpaces(d, 4, 6, 5);
    ThreeGroupsOnlyInsertsSpaces(d, 4, 6, 4);
    CleanIsRemoveSpaces(FormatCardNumber(value));
  }

  /** Formatting formatted text changes nothing, and neither does cleaning it first. */
  lemma FormatIdempotent(value: string)
    ensures FormatCardNumber(FormatCardNumber(value)) == FormatCardNumber(value)
    ensures FormatCardNumber(Clean(FormatCardNumber(value))) == FormatCardNumber(value)
  {
    FormatOnlyInsertsSpaces(value);
    CleanIdempotent(value);
  }

  /** Without a brand, or for a brand other than amex and diners, digits come in groups of
      four with one space between groups: no leading, trailing or doubled space, and a last
      group of one to four digits. */
  lemma FormatDefaultGrouping(value: string)
    requires Detect(Clean(value)).None? || Detect(Clean(value)).value.name !in {"amex", "diners"}
    ensures GroupedByFour(Clean(value), FormatCardNumber(value))
  {
    GroupsOfFourShape(Clean(value));
  }

  /** American Express: 4-6-5 once fifteen digits are there, extra digits stay on the
      last group; with fewer digits the cleaned number is returned ungrouped. */
  lemma FormatAmex(value: string)
    requires Detect(Clean(value)).Some? && Detect(Clean(value)).value.name == "amex"
    ensures var r, d := FormatCardNumber(value), Clean(value);
      && (|d| >= 15 ==> r == d[..4] + " " + d[4..10] + " " + d[10..])
      && (|d| < 15 ==> r == d)
  {
  }

  /** Diners Club: 4-6-4 once fourteen digits are there; otherwise ungrouped. */
  lemma FormatDiners(value: string)
    requires Detect(Clean(value)).Some? && Detect(Clean(value)).value.name == "diners"
    ensures var r, d := FormatCardNumber(value), Clean(value);
      && (|d| >= 14 ==> r == d[..4] + " " + d[4..10] + " " + d[10..])
      && (|d| < 14 ==> r == d)
  {
  }

  /** The final `trim()` of the source has nothing to remove: the result starts and ends
      with a digit. */
  lemma FormatHasNoOuterSpace(value: string)
    ensures var r := FormatCardNumber(value);
      r != [] ==> IsDigit(r[0]) && IsDigit(r[|r| - 1])
  {
    var d := Clean(value);
    var r := FormatCardNumber(value);
    GroupsOfFourShape(d);
    if r != [] && Detect(d).Some? && Detect(d).value.name in {"amex", "diners"} {
      var c := if Detect(d).value.name == "amex" then 5 else 4;
      assert r == ThreeGroups(d, 4, 6, c);
      if |d| >= 10 + c {
        assert r[..4] == d[..4];
        assert r[0] == r[..4][0];
        assert r[12..] == d[10..];
        assert r[|r| - 1] == r[12..][|r| - 13];
      }
    }
  }

  // ---- Properties of the masker ----

  lemma MaskPrefixesHaveNoDigits()
    ensures Clean(AmexMask) == [] && Clean(DefaultMask) == []
  {
    CleanEmptyIff(AmexMask);
    CleanEmptyIff(DefaultMask);
  }

  /** The mask reveals exactly the last min(4, n) cleaned digits and nothing else. */
  lemma MaskRevealsLastFour(cardNumber: string)
    ensures var revealed, d := Clean(MaskCardNumber(cardNumber)), Clean(cardNumber);
      && |revealed| == (if |d| < 4 then |d| else 4)
      && revealed == d[|d| - |revealed|..]
      && |revealed| <= 4
  {
    var d := Clean(cardNumber);
    var tail := SliceLast(d, 4);
    CleanOfDigits(d[|d| - |tail|..]);
    MaskPrefixesHaveNoDigits();
    CleanConcat(AmexMask, tail);
    CleanConcat(DefaultMask, tail);
  }

  /** The shape of the mask: the amex prefix exactly for numbers detected as amex. */
  lemma MaskShape(cardNumber: string)
    ensures var r, d := MaskCardNumber(cardNumber), Clean(cardNumber);
      var amex := Detect(d).Some? && Detect(d).value.name == "amex";
      var prefix := if amex then AmexMask else DefaultMask;
      && |r| == |prefix| + (if |d| < 4 then |d| else 4)
      && r[..|prefix|] == prefix
      && r[|prefix|..] == d[|d| - (if |d| < 4 then |d| else 4)..]
  {
  }

  lemma MaskExampleVisa()
    ensures MaskCardNumber("45320151" + "12830366") == "**** **** **** 0366"
  {
    var d := "45320151" + "12830366";
    assert AllDigits(d);
    CleanOfDigits(d);
    DetectVisa(d);
    assert d[12..] == "0366";
  }

  lemma MaskExampleAmex()
    ensures MaskCardNumber("37828224" + "6310005") == "**** ****** *0005"
  {
    var d := "37828224" + "6310005";
    assert AllDigits(d);
    CleanOfDigits(d);
    assert Matches(2, d);
    DetectAnyMatch(d, 2);
    assert d[11..] == "0005";
  }
}
