/** The sample rows the landing page shows, and a few more descriptions, with
    the labels the rules give them. A keyword is ruled out by naming one of its
    letters that the text lacks; each rule gets its own small lemma. */
module ClassifierExamples {
  import opened Wrappers
  import opened Text
  import opened Classifier
  import opened ClassifierFacts

  lemma UberTrip()
    ensures AiCategorize(Transaction(Some("Uber Trip"))) == "Transport"
  {
    var s := "uber trip";
    assert Subject(Some("Uber Trip")) == s;
    assert OccursAt(s, "uber", 0);
    TransportWins(Some("Uber Trip"));
  }

  /** Keywords are substrings, not words: `business` holds `bus`. */
  lemma BusinessIsTransport()
    ensures AiCategorize(Transaction(Some("Business"))) == "Transport"
  {
    var s := "business";
    assert Subject(Some("Business")) == s;
    assert OccursAt(s, "bus", 0);
    TransportWins(Some("Business"));
  }

  // ---------------------------------------------------------------------
  // "Whole Foods Market"

  /** Every letter of `metro` occurs in the text, but no `m` precedes
      `market`, and `market` has no `o`. */
  lemma WholeFoodsMarketNoMetro()
    ensures !Contains("whole foods market", "metro")
  {
    assert "whole foods market" == "whole foods " + "market";
    SkipPrefix("whole foods ", "market", "metro");
    AbsentChar("market", "metro", 'o');
  }

  lemma WholeFoodsMarketNoOtherTransportWord()
    ensures !Contains("whole foods market", "uber")
    ensures !Contains("whole foods market", "lyft")
    ensures !Contains("whole foods market", "bus")
  {
    AbsentChar("whole foods market", "uber", 'u');
    AbsentChar("whole foods market", "lyft", 'y');
    AbsentChar("whole foods market", "bus", 'b');
  }

  lemma WholeFoodsMarketNotTransport()
    ensures !RuleMatches(TransportRule, "whole foods market")
  {
    WholeFoodsMarketNoOtherTransportWord();
    WholeFoodsMarketNoMetro();
  }

  lemma WholeFoodsMarket()
    ensures AiCategorize(Transaction(Some("Whole Foods Market"))) == "Groceries"
  {
    var d := Some("Whole Foods Market");
    var s := "whole foods market";
    assert Subject(d) == s;
    WholeFoodsMarketNotTransport();
    assert s == "" + "whole" + [' '] + "foods" + " market";
    GapMatchesSpaced("", "whole", ' ', "foods", " market");
    GroceriesUnlessTransport(d);
  }

  // ---------------------------------------------------------------------
  // "Whole  Foods", with two spaces

  /** Two spaces are one more than `\s?` allows. */
  lemma TwoSpacesMissWholeFoods()
    ensures !ContainsGap("whole  foods", "whole", "foods")
  {
    var s := "whole  foods";
    if i :| 0 <= i <= |s| && GapAt(s, "whole", "foods", i) {
      if OccursAt(s, "whole" + "foods", i) {
        assert s[i..i + 10][0] == s[i] == 'w';
        assert s[i..i + 10][5] == s[5];
      } else {
        assert s[i..i + 5][0] == s[i] == 'w';
        assert s[i + 6..i + 11][0] == s[6];
      }
    }
  }

  lemma TwoSpacesNotGroceries()
    ensures !RuleMatches(GroceriesRule, "whole  foods")
  {
    var s := "whole  foods";
    var ps := GroceriesRule.patterns;
    TwoSpacesMissWholeFoods();
    ExcludedMisses(ps[1..], s, "tak");
    forall p | p in ps ensures !PatternMatches(p, s) {
      if p != ps[0] {
        assert p in ps[1..];
      }
    }
  }

  lemma TwoSpacesNotTransport()
    ensures !RuleMatches(TransportRule, "whole  foods")
  {
    ExcludedMisses(TransportRule.patterns, "whole  foods", "uymb");
  }

  lemma TwoSpacesNotDining()
    ensures !RuleMatches(DiningRule, "whole  foods")
  {
    ExcludedMisses(DiningRule.patterns, "whole  foods", "mtcpc");
  }

  lemma TwoSpacesNotEntertainment()
    ensures !RuleMatches(EntertainmentRule, "whole  foods")
  {
    ExcludedMisses(EntertainmentRule.patterns, "whole  foods", "npun");
  }

  lemma TwoSpacesNotShopping()
    ensures !RuleMatches(ShoppingRule, "whole  foods")
  {
    ExcludedMisses(ShoppingRule.patterns, "whole  foods", "atna");
  }

  lemma TwoSpacesNotRent()
    ensures !RuleMatches(RentRule, "whole  foods")
  {
    ExcludedMisses(RentRule.patterns, "whole  foods", "ra");
  }

  /** With two spaces between the words nothing in the text is a keyword. */
  lemma WholeTwoSpacesFoods()
    ensures AiCategorize(Transaction(Some("Whole  Foods"))) == "Other"
  {
    var d := Some("Whole  Foods");
    assert Subject(d) == "whole  foods";
    TwoSpacesNotTransport();
    TwoSpacesNotGroceries();
    TwoSpacesNotDining();
    TwoSpacesNotEntertainment();
    TwoSpacesNotShopping();
    TwoSpacesNotRent();
    ClassifyFallback(d);
  }

  // ---------------------------------------------------------------------
  // "Spotify"

  lemma SpotifyNotTransport()
    ensures !RuleMatches(TransportRule, "spotify")
  {
    ExcludedMisses(TransportRule.patterns, "spotify", "ulmb");
  }

  lemma SpotifyNotGroceries()
    ensures !RuleMatches(GroceriesRule, "spotify")
  {
    ExcludedMisses(GroceriesRule.patterns, "spotify", "wrak");
  }

  lemma SpotifyNotDining()
    ensures !RuleMatches(DiningRule, "spotify")
  {
    ExcludedMisses(DiningRule.patterns, "spotify", "maczc");
  }

  lemma Spotify()
    ensures AiCategorize(Transaction(Some("Spotify"))) == "Entertainment"
  {
    var d := Some("Spotify");
    var s := "spotify";
    assert Subject(d) == s;
    SpotifyNotTransport();
    SpotifyNotGroceries();
    SpotifyNotDining();
    assert OccursAt(s, "spotify", 0);
    assert Word("spotify") in EntertainmentRule.patterns;
    ClassifyPrecedence(d, 3);
  }

  // ---------------------------------------------------------------------
  // "Aldi Rent"

  lemma AldiRentNotTransport()
    ensures !RuleMatches(TransportRule, "aldi rent")
  {
    ExcludedMisses(TransportRule.patterns, "aldi rent", "uymb");
  }

  /** A grocery keyword outranks `rent` later in the text. */
  lemma AldiRent()
    ensures AiCategorize(Transaction(Some("Aldi Rent"))) == "Groceries"
  {
    var d := Some("Aldi Rent");
    var s := "aldi rent";
    assert Subject(d) == s;
    AldiRentNotTransport();
    assert OccursAt(s, "aldi", 0);
    GroceriesUnlessTransport(d);
  }

  // ---------------------------------------------------------------------
  // "Rent Payment"

  lemma RentPaymentNotTransport()
    ensures !RuleMatches(TransportRule, "rent payment")
  {
    ExcludedMisses(TransportRule.patterns, "rent payment", "ulob");
  }

  lemma RentPaymentNotGroceries()
    ensures !RuleMatches(GroceriesRule, "rent payment")
  {
    ExcludedMisses(GroceriesRule.patterns, "rent payment", "wdlk");
  }

  lemma RentPaymentNotDining()
    ensures !RuleMatches(DiningRule, "rent payment")
  {
    ExcludedMisses(DiningRule.patterns, "rent payment", "cscic");
  }

  lemma RentPaymentNotEntertainment()
    ensures !RuleMatches(EntertainmentRule, "rent payment")
  {
    ExcludedMisses(EntertainmentRule.patterns, "rent payment", "lshd");
  }

  lemma RentPaymentNotShopping()
    ensures !RuleMatches(ShoppingRule, "rent payment")
  {
    ExcludedMisses(ShoppingRule.patterns, "rent payment", "ogid");
  }

  lemma RentPayment()
    ensures AiCategorize(Transaction(Some("Rent Payment"))) == "Rent"
  {
    var d := Some("Rent Payment");
    var s := "rent payment";
    assert Subject(d) == s;
    RentPaymentNotTransport();
    RentPaymentNotGroceries();
    RentPaymentNotDining();
    RentPaymentNotEntertainment();
    RentPaymentNotShopping();
    assert OccursAt(s, "rent", 0);
    RentIsLastResort(d);
  }

  // ---------------------------------------------------------------------
  // "Direct Deposit"

  lemma DirectDepositNotTransport()
    ensures !RuleMatches(TransportRule, "direct deposit")
  {
    ExcludedMisses(TransportRule.patterns, "direct deposit", "ulmb");
  }

  lemma DirectDepositNotGroceries()
    ensures !RuleMatches(GroceriesRule, "direct deposit")
  {
    ExcludedMisses(GroceriesRule.patterns, "direct deposit", "waak");
  }

  lemma DirectDepositNotDining()
    ensures !RuleMatches(DiningRule, "direct deposit")
  {
    ExcludedMisses(DiningRule.patterns, "direct deposit", "mahza");
  }

  lemma DirectDepositNotEntertainment()
    ensures !RuleMatches(EntertainmentRule, "direct deposit")
  {
    ExcludedMisses(EntertainmentRule.patterns, "direct deposit", "nfhn");
  }

  lemma DirectDepositNotShopping()
    ensures !RuleMatches(ShoppingRule, "direct deposit")
  {
    ExcludedMisses(ShoppingRule.patterns, "direct deposit", "aana");
  }

  lemma DirectDepositNotRent()
    ensures !RuleMatches(RentRule, "direct deposit")
  {
    ExcludedMisses(RentRule.patterns, "direct deposit", "nl");
  }

  /** An income row carries no spending keyword and falls through to `Other`. */
  lemma DirectDeposit()
    ensures AiCategorize(Transaction(Some("Direct Deposit"))) == "Other"
  {
    var d := Some("Direct Deposit");
    assert Subject(d) == "direct deposit";
    DirectDepositNotTransport();
    DirectDepositNotGroceries();
    DirectDepositNotDining();
    DirectDepositNotEntertainment();
    DirectDepositNotShopping();
    DirectDepositNotRent();
    ClassifyFallback(d);
  }
}
