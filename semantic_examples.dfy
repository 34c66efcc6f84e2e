/**
 * Worked queries for `extract_semantic_meaning`, each derived from the
 * facet lemmas: they show the first-match order and the suffix filters at
 * work on concrete text.
 */
module SemanticExamples {
  import opened Wrappers
  import opened Text
  import opened Semantic

  /** The empty query gets every default. */
  lemma EmptyQueryDefaults()
    ensures Extract("") == SemanticData("search", None, "mid_range", None, None, "")
  {
    assert Lower("") == "";
    KeywordsNonEmpty();
    forall j | 0 <= j < |SemanticMappings| ensures !Mentions(SemanticMappings[j].keywords, "") {
    }
    FirstFromNone(IntentScan, SemanticMappings, "", 0);
    FirstFromNone(CategoryScan, SemanticMappings, "", 0);
    FirstFromNone(QualityScan, SemanticMappings, "", 0);
    UseCaseLookups();
    UseCaseOver(UseCases, SemanticMappings, "");
  }

  /** "budget laptop" is a purchase: `get` occurs inside `budget`. */
  lemma BudgetLaptopIsPurchase()
    ensures Extract("budget laptop").intent == "purchase"
  {
    var q := Lower("budget laptop");
    assert q == "budget laptop";
    assert OccursAt("get", q, 3);
    assert "get" in PurchaseWords;
    IntentSpec(q);
  }

  /** The first intent entry in table order wins: a query asking to buy
      and to compare is a purchase. */
  lemma BuyBeforeCompare()
    ensures Extract("buy or compare").intent == "purchase"
  {
    var q := Lower("buy or compare");
    assert q == "buy or compare";
    assert OccursAt("buy", q, 0);
    assert "buy" in PurchaseWords;
    IntentSpec(q);
  }

  /** Any query naming a phone keyword is in category `mobile_device`,
      even when it also names a travel keyword such as `mobile`: the
      device entry comes first in the table. */
  lemma MobileBeforeTravel(query: string)
    requires Mentions(MobileWords, Lower(query))
    ensures Extract(query).category == Some("mobile_device")
  {
    ScanFilters();
    KeyNames();
    CategoryOver(SemanticMappings, Lower(query));
  }

  /** `mobile` is a keyword of both entries. */
  lemma MobileInBothLists()
    ensures "mobile" in MobileWords && "mobile" in TravelWords
    ensures Mentions(MobileWords, "mobile") && Mentions(TravelWords, "mobile")
  {
    assert OccursAt("mobile", "mobile", 0);
  }

  /** `budget_friendly` is a category: a query naming a budget keyword and
      no device keyword gets it, whatever else it names. */
  lemma BudgetCategory(query: string)
    requires var q := Lower(query);
      Mentions(BudgetWords, q) && !Mentions(MobileWords, q) && !Mentions(ComputerWords, q) && !Mentions(AudioWords, q)
    ensures Extract(query).category == Some("budget_friendly")
  {
    ScanFilters();
    KeyNames();
    CategoryOver(SemanticMappings, Lower(query));
  }

  /** The travel use case needs a travel keyword and none of the four
      earlier use cases' keywords. */
  lemma TravelUseCase(query: string)
    requires var q := Lower(query);
      Mentions(TravelWords, q) && !Mentions(PhotographyWords, q) && !Mentions(ProductivityWords, q)
      && !Mentions(EntertainmentWords, q) && !Mentions(FitnessWords, q)
    ensures Extract(query).useCase == Some("travel")
  {
    UseCaseSpec(Lower(query));
  }

  /** Both spellings of the ceiling give 500. */
  lemma UnderFiveHundred()
    ensures Extract("laptop under $500").priceConstraint == Some(500)
    ensures Extract("laptop under 500").priceConstraint == Some(500)
  {
    FiveHundredDigits();
    FiveHundredQueries();
    CeilingAtEnd("laptop ", "$", "500");
    CeilingAtEnd("laptop ", "", "500");
  }

  lemma FiveHundredDigits()
    ensures AllDigits("500") && DigitsValue("500") == 500
  {
    DigitsValueSnoc("5", '0');
    DigitsValueSnoc("50", '0');
    assert "50" == "5" + ['0'] && "500" == "50" + ['0'];
  }

  lemma FiveHundredQueries()
    ensures 'u' !in "laptop "
    ensures Lower("laptop under $500") == "laptop under $500" == "laptop " + "under " + "$" + "500"
    ensures Lower("laptop under 500") == "laptop under 500" == "laptop " + "under " + "" + "500"
  {
  }

  /** A query with no `u` before `under `, followed by an optional `$` and
      digits up to its end, has those digits as its ceiling. */
  lemma CeilingAtEnd(p: string, sign: string, ds: string)
    requires 'u' !in p && (sign == "" || sign == "$") && ds != [] && AllDigits(ds)
    ensures PriceConstraint(p + "under " + sign + ds) == Some(DigitsValue(ds))
  {
    var q := p + "under " + sign + ds;
    var start := |p| + 6 + |sign|;
    assert q[|p|..|p| + 6] == "under ";
    assert q[start..] == ds;
    assert q[start] == ds[0];
    if sign == "$" {
      assert q[|p| + 6] == '$';
    }
    assert PatternAt(q, |p|);
    DigitRunToEnd(q, start);
    assert CapturedDigits(q, |p|) == ds;
    forall k | 0 <= k < |p|
      ensures !PatternAt(q, k)
    {
      assert q[k] == p[k];
      assert q[k..k + 6][0] == q[k];
    }
    SearchPriceSpec(q, 0);
  }

  /** A run of digits reaching the end of the text ends there. */
  lemma {:induction false} DigitRunToEnd(q: string, j: nat)
    requires j <= |q| && AllDigits(q[j..])
    ensures DigitRunEnd(q, j) == |q|
    decreases |q| - j
  {
    if j < |q| {
      assert q[j] == q[j..][0];
      assert q[j + 1..] == q[j..][1..];
      DigitRunToEnd(q, j + 1);
    }
  }

  /** Without the word `under` there is no ceiling. */
  lemma NoUnderNoCeiling(query: string)
    requires 'u' !in Lower(query)
    ensures Extract(query).priceConstraint == None
  {
    var q := Lower(query);
    forall i | 0 <= i < |q| ensures !PatternAt(q, i) {
      if i + 6 <= |q| {
        assert q[i..i + 6][0] == q[i];
      }
    }
    PriceConstraintSpec(query);
  }
}
