/** The sample-transaction labeller: a description is lower-cased and matched
    against six ordered keyword rules; the first rule with a hit names the
    category, and a description no rule hits is `Other`. */
module Classifier {
  import opened Wrappers
  import opened Text

  /** The closed set of labels the classifier can return. */
  datatype Category = Transport | Groceries | Dining | Entertainment | Shopping | Rent | Other {

    /** The label string returned to the caller; each label has its own. */
    function Name(): (name: string)
      ensures name in {"Transport", "Groceries", "Dining", "Entertainment", "Shopping", "Rent", "Other"}
      ensures name == "Other" <==> this == Other
    {
      match this
      case Transport => "Transport"
      case Groceries => "Groceries"
      case Dining => "Dining"
      case Entertainment => "Entertainment"
      case Shopping => "Shopping"
      case Rent => "Rent"
      case Other => "Other"
    }
  }

  /** One alternative of a rule's regular expression: a literal keyword, or
      two words joined by an optional whitespace character (`whole\s?foods`). */
  datatype Pattern = Word(word: string) | Gap(left: string, right: string)

  /** A rule is the alternation of its patterns together with its label. */
  datatype Rule = Rule(patterns: seq<Pattern>, category: Category)

  /** The only field of a transaction row the classifier reads; `None` is a
      missing (`undefined` or `null`) description. */
  datatype Transaction = Transaction(description: Option<string>)

  const TransportRule := Rule([Word("uber"), Word("lyft"), Word("metro"), Word("bus")], Transport)
  const GroceriesRule := Rule([Gap("whole", "foods"), Gap("trader", "joe"), Word("aldi"), Word("kroger")], Groceries)
  const DiningRule := Rule([Word("mcdonald"), Word("starbucks"), Word("chipotle"), Word("pizza"), Word("cafe")], Dining)
  const EntertainmentRule := Rule([Word("netflix"), Word("spotify"), Word("hulu"), Word("disney")], Entertainment)
  const ShoppingRule := Rule([Word("amazon"), Word("target"), Word("nike"), Word("adidas")], Shopping)
  const RentRule := Rule([Word("rent"), Word("landlord")], Rent)

  /** The six rules, in the order they are tried. */
  const Rules: seq<Rule> := [TransportRule, GroceriesRule, DiningRule, EntertainmentRule, ShoppingRule, RentRule]

  predicate PatternMatches(p: Pattern, s: string) {
    match p
    case Word(w) => Contains(s, w)
    case Gap(left, right) => ContainsGap(s, left, right)
  }

  /** Some alternative of the alternation matches somewhere in `s`. */
  predicate AnyMatches(ps: seq<Pattern>, s: string) {
    exists p :: p in ps && PatternMatches(p, s)
  }

  predicate RuleMatches(r: Rule, s: string) {
    AnyMatches(r.patterns, s)
  }

  /** Tries the rules in order and returns the label of the first one that
      matches, or `Other` when none does. Whatever it returns other than
      `Other` is the label of some rule that matches. */
  function FirstMatch(rules: seq<Rule>, s: string): (c: Category)
    ensures c == Other || exists k :: 0 <= k < |rules| && rules[k].category == c && RuleMatches(rules[k], s)
  {
    if rules == [] then Other
    else if RuleMatches(rules[0], s) then rules[0].category
    else
      var c := FirstMatch(rules[1..], s);
      assert c != Other ==> exists k :: 0 <= k < |rules| && rules[k].category == c && RuleMatches(rules[k], s) by {
        if c != Other {
          var k :| 0 <= k < |rules[1..]| && rules[1..][k].category == c && RuleMatches(rules[1..][k], s);
          assert rules[k + 1] == rules[1..][k];
        }
      }
      c
  }

  /** Rule `k` is the earliest rule of `rules` that matches `s`. */
  predicate EarliestMatch(rules: seq<Rule>, s: string, k: int) {
    0 <= k < |rules| && RuleMatches(rules[k], s)
    && forall j :: 0 <= j < k ==> !RuleMatches(rules[j], s)
  }

  predicate NoRuleMatches(rules: seq<Rule>, s: string) {
    forall j :: 0 <= j < |rules| ==> !RuleMatches(rules[j], s)
  }

  /** The lower-cased text the rules are matched against: the description,
      or the empty string when it is missing. */
  function Subject(description: Option<string>): string {
    Lower(description.GetOr(""))
  }

  /** The classifier: the subject run through the rules in order. A label
      other than `Other` always belongs to a rule that matches the subject. */
  function Classify(description: Option<string>): (c: Category)
    ensures c == Other || exists k :: 0 <= k < |Rules| && Rules[k].category == c && RuleMatches(Rules[k], Subject(description))
  {
    FirstMatch(Rules, Subject(description))
  }

  /** The label string returned for a transaction row: one of the seven, and
      `Other` exactly when the classifier falls back. */
  function AiCategorize(row: Transaction): (name: string)
    ensures name in {"Transport", "Groceries", "Dining", "Entertainment", "Shopping", "Rent", "Other"}
    ensures name == "Other" <==> Classify(row.description) == Other
  {
    Classify(row.description).Name()
  }

  /** Different labels are returned as different strings, so the string a
      caller sees identifies the label. */
  lemma NamesDistinct(a: Category, b: Category)
    ensures a.Name() == b.Name() <==> a == b
  {
  }

  // ---------------------------------------------------------------------
  // First match wins, for any ordered rule list

  /** The earliest matching rule decides the result. */
  lemma {:induction false} FirstMatchEarliest(rules: seq<Rule>, s: string, k: int)
    requires EarliestMatch(rules, s, k)
    ensures FirstMatch(rules, s) == rules[k].category
  {
    if k > 0 {
      assert !RuleMatches(rules[0], s);
      assert EarliestMatch(rules[1..], s, k - 1) by {
        forall j | 0 <= j < k - 1 ensures !RuleMatches(rules[1..][j], s) {
          assert rules[1..][j] == rules[j + 1];
        }
      }
      FirstMatchEarliest(rules[1..], s, k - 1);
    }
  }

  /** When no rule matches, the result is the fallback `Other`. */
  lemma {:induction false} FirstMatchFallback(rules: seq<Rule>, s: string)
    requires NoRuleMatches(rules, s)
    ensures FirstMatch(rules, s) == Other
  {
    if rules != [] {
      assert NoRuleMatches(rules[1..], s) by {
        forall j | 0 <= j < |rules| - 1 ensures !RuleMatches(rules[1..][j], s) {
          assert rules[1..][j] == rules[j + 1];
        }
      }
      FirstMatchFallback(rules[1..], s);
    }
  }

  /** Either no rule matches, or some rule is the earliest match. */
  lemma {:induction false} MatchCases(rules: seq<Rule>, s: string)
    ensures NoRuleMatches(rules, s) || exists k :: EarliestMatch(rules, s, k)
  {
    if rules != [] && !NoRuleMatches(rules, s) {
      if RuleMatches(rules[0], s) {
        assert EarliestMatch(rules, s, 0);
      } else {
        MatchCases(rules[1..], s);
        if NoRuleMatches(rules[1..], s) {
          forall j | 0 <= j < |rules| ensures !RuleMatches(rules[j], s) {
            if j > 0 {
              assert rules[j] == rules[1..][j - 1];
            }
          }
        } else {
          var k :| EarliestMatch(rules[1..], s, k);
          assert rules[1..][k] == rules[k + 1];
          forall j | 0 <= j < k + 1 ensures !RuleMatches(rules[j], s) {
            if j > 0 {
              assert rules[j] == rules[1..][j - 1];
            }
          }
          assert EarliestMatch(rules, s, k + 1);
        }
      }
    }
  }

  // ---------------------------------------------------------------------
  // Ruling patterns out by a missing character

  /** The letters a match of `p` must contain. */
  function Letters(p: Pattern): string {
    match p
    case Word(w) => w
    case Gap(left, right) => left + right
  }

  /** Each pattern `ps[k]` holds the letter `cs[k]`, which `s` lacks. */
  predicate Excluded(ps: seq<Pattern>, s: string, cs: string) {
    |cs| == |ps| && forall k :: 0 <= k < |ps| ==> cs[k] in Letters(ps[k]) && cs[k] !in s
  }

  /** A pattern holding a letter the text lacks cannot match it. */
  lemma ExcludedMisses(ps: seq<Pattern>, s: string, cs: string)
    requires Excluded(ps, s, cs)
    ensures !AnyMatches(ps, s)
  {
    forall k | 0 <= k < |ps| ensures !PatternMatches(ps[k], s) {
      match ps[k]
      case Word(w) =>
        AbsentChar(s, w, cs[k]);
      case Gap(left, right) =>
        GapHasWords(s, left, right);
        if cs[k] in left {
          AbsentChar(s, left, cs[k]);
        } else {
          AbsentChar(s, right, cs[k]);
        }
    }
  }

  /** A text shorter than every pattern's letters matches none of them. */
  lemma ShortMisses(ps: seq<Pattern>, s: string, n: int)
    requires forall p :: p in ps ==> |Letters(p)| >= n
    requires |s| < n
    ensures !AnyMatches(ps, s)
  {
    forall p | p in ps ensures !PatternMatches(p, s) {
      if p.Gap? {
        GapHasWords(s, p.left, p.right);
      }
    }
  }
}
