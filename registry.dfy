/** The brand registry `cardTypes` and brand detection `detectCardType`. */
module Registry {
  import opened Digits

  datatype Option<T> = None | Some(value: T)

  /** The six prefix rules of the registry, one per regular expression. */
  datatype PrefixRule =
    | StartsWith4            // /^4/
    | Mastercard51To55Or22To27  // /^5[1-5]|^2[2-7]/
    | StartsWith34Or37       // /^3[47]/
    | Discover6011Or65       // /^6(?:011|5)/
    | StartsWith30Or36Or38   // /^3[068]/
    | StartsWith35           // /^35/

  /** `pattern.test(s)`: the rule matches at the start of `s`. */
  predicate Test(p: PrefixRule, s: string) {
    match p
    case StartsWith4 =>
      |s| >= 1 && s[0] == '4'
    case Mastercard51To55Or22To27 =>
      |s| >= 2 && ((s[0] == '5' && '1' <= s[1] <= '5') || (s[0] == '2' && '2' <= s[1] <= '7'))
    case StartsWith34Or37 =>
      |s| >= 2 && s[0] == '3' && (s[1] == '4' || s[1] == '7')
    case Discover6011Or65 =>
      (|s| >= 4 && s[..4] == "6011") || (|s| >= 2 && s[..2] == "65")
    case StartsWith30Or36Or38 =>
      |s| >= 2 && s[0] == '3' && (s[1] == '0' || s[1] == '6' || s[1] == '8')
    case StartsWith35 =>
      |s| >= 2 && s[..2] == "35"
  }

  /** A registry entry (`CardType` without its display-only fields). */
  datatype CardType = CardType(name: string, pattern: PrefixRule, lengths: seq<nat>, cvvLength: nat)

  /** One key/value pair of the `cardTypes` record, in declaration order. */
  datatype Entry = Entry(key: string, card: CardType)

  const CardTypes: seq<Entry> := [
    Entry("visa", CardType("Visa", StartsWith4, [13, 16, 19], 3)),
    Entry("mastercard", CardType("Mastercard", Mastercard51To55Or22To27, [16], 3)),
    Entry("amex", CardType("American Express", StartsWith34Or37, [15], 4)),
    Entry("discover", CardType("Discover", Discover6011Or65, [16], 3)),
    Entry("diners", CardType("Diners Club", StartsWith30Or36Or38, [14], 3)),
    Entry("jcb", CardType("JCB", StartsWith35, [16], 3))
  ]

  predicate Matches(k: nat, s: string)
    requires k < |CardTypes|
  {
    Test(CardTypes[k].card.pattern, s)
  }

  /** What detection returns for entry `k`: the entry with `name` replaced by its key. */
  function Named(k: nat): CardType
    requires k < |CardTypes|
  {
    CardTypes[k].card.(name := CardTypes[k].key)
  }

  /** First matching entry at index `k` or later. */
  function DetectFrom(s: string, k: nat): (r: Option<CardType>)
    requires k <= |CardTypes|
    ensures r.None? <==> forall j :: k <= j < |CardTypes| ==> !Matches(j, s)
    ensures r.Some? ==> exists j :: k <= j < |CardTypes| && Matches(j, s) && r.value == Named(j) &&
                                    forall i :: k <= i < j ==> !Matches(i, s)
    decreases |CardTypes| - k
  {
    if k == |CardTypes| then None
    else if Matches(k, s) then Some(Named(k))
    else DetectFrom(s, k + 1)
  }

  /** Detection on an already cleaned number: the first entry in registry order whose rule matches. */
  function Detect(cleanNumber: string): Option<CardType> {
    DetectFrom(cleanNumber, 0)
  }

  /** `detectCardType`: clean the input, walk the registry in order, return on the first match. */
  method DetectCardType(cardNumber: string) returns (r: Option<CardType>)
    ensures r == Detect(Clean(cardNumber))
  {
    var cleanNumber := Clean(cardNumber);
    for k := 0 to |CardTypes|
      invariant DetectFrom(cleanNumber, k) == Detect(cleanNumber)
    {
      if Test(CardTypes[k].card.pattern, cleanNumber) {
        return Some(CardTypes[k].card.(name := CardTypes[k].key));
      }
    }
    return None;
  }

  /** No string matches two different rules of the registry. */
  lemma PatternsDisjoint(s: string, j: nat, k: nat)
    requires j < |CardTypes| && k < |CardTypes| && j != k
    ensures !(Matches(j, s) && Matches(k, s))
  {
    if |s| >= 2 && s[..2] == "65" {
      assert s[0] == '6' && s[1] == '5';
    }
    if |s| >= 4 && s[..4] == "6011" {
      assert s[0] == '6' && s[1] == '0';
    }
    if |s| >= 2 && s[..2] == "35" {
      assert s[0] == '3' && s[1] == '5';
    }
  }

  /** Because the rules are disjoint, any matching entry is the detected one:
      the declared order never decides a result for this registry. */
  lemma {:induction false} DetectAnyMatch(s: string, k: nat)
    requires k < |CardTypes| && Matches(k, s)
    ensures Detect(s) == Some(Named(k))
  {
    var r := Detect(s);
    assert r.Some?;
    var j :| 0 <= j < |CardTypes| && Matches(j, s) && r.value == Named(j) &&
             forall i :: 0 <= i < j ==> !Matches(i, s);
    if j != k {
      PatternsDisjoint(s, j, k);
    }
  }

  /** An empty cleaned string matches no brand. */
  lemma DetectEmpty()
    ensures Detect("") == None
  {
    assert forall j :: 0 <= j < |CardTypes| ==> !Matches(j, "");
  }

  /** The detected entry is one of the registry's, renamed to its key, so its name is never empty. */
  lemma DetectedIsRegistryEntry(s: string)
    requires Detect(s).Some?
    ensures exists k :: 0 <= k < |CardTypes| && Detect(s).value.name == CardTypes[k].key &&
                        Detect(s).value.lengths == CardTypes[k].card.lengths &&
                        Detect(s).value.cvvLength == CardTypes[k].card.cvvLength
    ensures |Detect(s).value.name| >= 3
  {
    var k :| 0 <= k < |CardTypes| && Detect(s).value == Named(k);
    assert |CardTypes[k].key| >= 3;
  }

  /** Registry well-formedness: distinct non-empty keys, non-empty length sets, CVV of 3 or 4. */
  lemma RegistryWellFormed()
    ensures forall j, k :: 0 <= j < k < |CardTypes| ==> CardTypes[j].key != CardTypes[k].key
    ensures forall k :: 0 <= k < |CardTypes| ==> CardTypes[k].key != "" && CardTypes[k].card.lengths != []
    ensures forall k :: 0 <= k < |CardTypes| ==> CardTypes[k].card.cvvLength in {3, 4}
  {
  }

  /** A number starting with 4 is Visa. */
  lemma DetectVisa(s: string)
    requires |s| >= 1 && s[0] == '4'
    ensures Detect(s).Some? && Detect(s).value.name == "visa"
    ensures Detect(s).value.lengths == [13, 16, 19]
  {
    DetectAnyMatch(s, 0);
  }

  /** A number starting with 6011 is Discover, whose lengths admit 16 digits where Amex's do not. */
  lemma DetectDiscover6011(s: string)
    requires |s| == 16 && s[..4] == "6011"
    ensures Detect(s).Some? && Detect(s).value.name == "discover"
    ensures |s| in Detect(s).value.lengths && |s| !in CardTypes[2].card.lengths
  {
    DetectAnyMatch(s, 3);
  }
}
