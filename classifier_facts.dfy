/** What the six concrete rules promise: precedence, the fallback, case
    insensitivity, the `\s?` gap, and the sample descriptions the page shows. */
module ClassifierFacts {
  import opened Wrappers
  import opened Text
  import opened Classifier

  /** The position in the table of the rule carrying a label (`-1` for `Other`). */
  function RuleIndex(c: Category): int {
    match c
    case Transport => 0
    case Groceries => 1
    case Dining => 2
    case Entertainment => 3
    case Shopping => 4
    case Rent => 5
    case Other => -1
  }

  /** No two rules carry the same label, and no rule carries `Other`. */
  lemma RuleIndexOfRule(i: int)
    requires 0 <= i < |Rules|
    ensures RuleIndex(Rules[i].category) == i
  {
    if i == 0 {} else if i == 1 {} else if i == 2 {} else if i == 3 {} else if i == 4 {} else {}
  }

  /** First match wins: the classifier returns the label of rule `k` exactly
      when rule `k` matches and no earlier rule does. */
  lemma ClassifyPrecedence(d: Option<string>, k: int)
    requires 0 <= k < |Rules|
    ensures Classify(d) == Rules[k].category <==> EarliestMatch(Rules, Subject(d), k)
  {
    var s := Subject(d);
    RuleIndexOfRule(k);
    MatchCases(Rules, s);
    if NoRuleMatches(Rules, s) {
      FirstMatchFallback(Rules, s);
    } else {
      var m :| EarliestMatch(Rules, s, m);
      FirstMatchEarliest(Rules, s, m);
      RuleIndexOfRule(m);
    }
  }

  /** The fallback: the result is `Other` exactly when no rule matches. */
  lemma ClassifyFallback(d: Option<string>)
    ensures Classify(d) == Other <==> NoRuleMatches(Rules, Subject(d))
  {
    var s := Subject(d);
    MatchCases(Rules, s);
    if NoRuleMatches(Rules, s) {
      FirstMatchFallback(Rules, s);
    } else {
      var m :| EarliestMatch(Rules, s, m);
      FirstMatchEarliest(Rules, s, m);
      RuleIndexOfRule(m);
    }
  }

  /** Any transport keyword decides the result, whatever else the text holds;
      and only a transport keyword gives `Transport`. */
  lemma TransportWins(d: Option<string>)
    ensures var s := Subject(d);
      Classify(d) == Transport
      <==> Contains(s, "uber") || Contains(s, "lyft") || Contains(s, "metro") || Contains(s, "bus")
  {
    var s := Subject(d);
    ClassifyPrecedence(d, 0);
    var ps := Rules[0].patterns;
    assert Word("uber") in ps && Word("lyft") in ps && Word("metro") in ps && Word("bus") in ps;
  }

  /** `Rent` is the last resort before `Other`: it needs `rent` or `landlord`
      and no hit for any of the five earlier rules. */
  lemma RentIsLastResort(d: Option<string>)
    ensures var s := Subject(d);
      Classify(d) == Rent
      <==> NoRuleMatches(Rules[..5], s) && (Contains(s, "rent") || Contains(s, "landlord"))
  {
    var s := Subject(d);
    ClassifyPrecedence(d, 5);
    var ps := Rules[5].patterns;
    assert Word("rent") in ps && Word("landlord") in ps;
    assert forall j :: 0 <= j < 5 ==> Rules[..5][j] == Rules[j];
  }

  /** Every keyword is at least three letters long (`bus` is the shortest),
      so no rule matches a text shorter than that. */
  lemma ShortTextMatchesNoRule(s: string)
    requires |s| < 3
    ensures NoRuleMatches(Rules, s)
  {
    ShortMisses(TransportRule.patterns, s, 3);
    ShortMisses(GroceriesRule.patterns, s, 3);
    ShortMisses(DiningRule.patterns, s, 3);
    ShortMisses(EntertainmentRule.patterns, s, 3);
    ShortMisses(ShoppingRule.patterns, s, 3);
    ShortMisses(RentRule.patterns, s, 3);
  }

  /** A description shorter than every keyword is `Other`; in particular a
      missing or empty description, which is treated as `""`. */
  lemma ShortDescriptionIsOther(d: Option<string>)
    requires |d.GetOr("")| < 3
    ensures Classify(d) == Other
  {
    ShortTextMatchesNoRule(Subject(d));
    ClassifyFallback(d);
  }

  lemma MissingOrEmptyIsOther()
    ensures Classify(None) == Other
    ensures Classify(Some("")) == Other
  {
    ShortDescriptionIsOther(None);
    ShortDescriptionIsOther(Some(""));
  }

  /** Letter case does not matter: a description and its lower-cased form get
      the same label. */
  lemma IgnoresCase(s: string)
    ensures Classify(Some(s)) == Classify(Some(Lower(s)))
  {
    LowerIdempotent(s);
  }

  /** With no transport keyword, a grocery keyword decides the result, whatever
      later keyword (a dining name, `rent`, ...) the text also holds. */
  lemma GroceriesUnlessTransport(d: Option<string>)
    ensures var s := Subject(d);
      Classify(d) == Groceries
      <==> !RuleMatches(Rules[0], s)
           && (ContainsGap(s, "whole", "foods") || ContainsGap(s, "trader", "joe")
               || Contains(s, "aldi") || Contains(s, "kroger"))
  {
    ClassifyPrecedence(d, 1);
    var ps := Rules[1].patterns;
    assert Gap("whole", "foods") in ps && Gap("trader", "joe") in ps;
    assert Word("aldi") in ps && Word("kroger") in ps;
  }

  /** `whole\s?foods` accepts the joined spelling and a single whitespace
      character of any kind between the words, wherever they stand. */
  lemma WholeFoodsSpellings(x: string, c: char, y: string)
    requires IsSpace(c)
    ensures PatternMatches(Gap("whole", "foods"), x + "wholefoods" + y)
    ensures PatternMatches(Gap("whole", "foods"), x + "whole" + [c] + "foods" + y)
  {
    GapMatchesJoined(x, "whole", "foods", y);
    assert x + "wholefoods" + y == x + "whole" + "foods" + y;
    GapMatchesSpaced(x, "whole", c, "foods", y);
  }
}
